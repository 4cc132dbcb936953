/** The item catalogue: item kinds, the per-class item maps decoded from
    the item data file, the merged item table and its lazy loading. */
module Items {
  import opened Wrappers

  /** Kinds of item. `Experience` is not declared by the catalogue itself
      (see DECLARED_ITEM_TYPES) but the inventory helper refers to it, so the
      model adds it. */
  datatype ItemType = CommonItem | ImportantItem | Equipment | Gold | Experience

  /** The members the catalogue's own enumeration declares. */
  const DECLARED_ITEM_TYPES: set<ItemType> := {CommonItem, ImportantItem, Equipment, Gold}

  /** The host framework's item classification, reduced to the three members
      the catalogue uses. */
  datatype ItemClassification = Progression | Useful | Filler

  datatype ItemData = ItemData(name: string, code: int, itemType: ItemType, classification: ItemClassification)

  /** The decoded item data file: one name-to-code map per class. */
  datatype ItemsJson = ItemsJson(progression: map<string, int>, useful: map<string, int>, filler: map<string, int>)

  /** The catalogue's enumeration has exactly four members and no
      `Experience`. */
  lemma DeclaredItemTypes()
    ensures |DECLARED_ITEM_TYPES| == 4 && Experience !in DECLARED_ITEM_TYPES
  {
    assert DECLARED_ITEM_TYPES == {CommonItem, ImportantItem, Equipment} + {Gold};
  }

  /** One class's entries: every name becomes an item with its code and the
      class's kind and classification. */
  function Tagged(codes: map<string, int>, t: ItemType, c: ItemClassification): (r: map<string, ItemData>)
    ensures r.Keys == codes.Keys
    ensures forall n :: n in r ==> r[n] == ItemData(n, codes[n], t, c)
  {
    map n | n in codes :: ItemData(n, codes[n], t, c)
  }

  /** The progression class: important items classified as progression. */
  function ProgressionItems(data: ItemsJson): (r: map<string, ItemData>)
    ensures r.Keys == data.progression.Keys
    ensures forall n :: n in r ==>
      r[n].code == data.progression[n] && r[n].itemType == ImportantItem && r[n].classification == Progression
  {
    Tagged(data.progression, ImportantItem, Progression)
  }

  /** The useful class: common items classified as useful. */
  function UsefulItems(data: ItemsJson): (r: map<string, ItemData>)
    ensures r.Keys == data.useful.Keys
    ensures forall n :: n in r ==>
      r[n].code == data.useful[n] && r[n].itemType == CommonItem && r[n].classification == Useful
  {
    Tagged(data.useful, CommonItem, Useful)
  }

  /** The filler class: every filler name is typed as gold. */
  function FillerItems(data: ItemsJson): (r: map<string, ItemData>)
    ensures r.Keys == data.filler.Keys
    ensures forall n :: n in r ==>
      r[n].code == data.filler[n] && r[n].itemType == Gold && r[n].classification == Filler
  {
    Tagged(data.filler, Gold, Filler)
  }

  /** The final item table: the three class maps merged in order, so that a
      later class overrides an earlier one on a shared name. */
  function MergedTable(data: ItemsJson): (r: map<string, ItemData>)
    ensures forall n :: n in r ==> r[n].name == n
  {
    ProgressionItems(data) + UsefulItems(data) + FillerItems(data)
  }

  /** The merged table holds every name of the three classes and no other. */
  lemma MergedKeys(data: ItemsJson)
    ensures MergedTable(data).Keys == data.progression.Keys + data.useful.Keys + data.filler.Keys
  {
  }

  /** On a shared name filler wins over useful, and useful over progression;
      each class's names carry that class's kind and code. */
  lemma MergedPrecedence(data: ItemsJson, n: string)
    ensures n in data.filler ==>
      MergedTable(data)[n] == ItemData(n, data.filler[n], Gold, Filler)
    ensures n !in data.filler && n in data.useful ==>
      MergedTable(data)[n] == ItemData(n, data.useful[n], CommonItem, Useful)
    ensures n !in data.filler && n !in data.useful && n in data.progression ==>
      MergedTable(data)[n] == ItemData(n, data.progression[n], ImportantItem, Progression)
  {
  }

  /** Every entry of the merged table is named by its key and has a kind the
      catalogue declares, never `Equipment` nor `Experience`. */
  lemma MergedEntriesWellFormed(data: ItemsJson)
    ensures forall n :: n in MergedTable(data) ==>
      MergedTable(data)[n].name == n &&
      MergedTable(data)[n].itemType in DECLARED_ITEM_TYPES - {Equipment}
  {
  }

  /** `get_items`: each name of the table mapped to its entry's code. */
  function CodesOf(table: map<string, ItemData>): (r: map<string, int>)
    ensures r.Keys == table.Keys
    ensures forall n :: n in r ==> r[n] == table[n].code
  {
    map n | n in table :: table[n].code
  }

  /** The item catalogue with its lazily built table. The three per-class
      maps exist only once the data has been parsed (`None` before). */
  class DQIXItems {
    const data: ItemsJson
    var itemTable: map<string, ItemData>
    var progressionItems: Option<map<string, ItemData>>
    var usefulItems: Option<map<string, ItemData>>
    var fillerItems: Option<map<string, ItemData>>

    /** Before parsing the table is empty; after parsing every field holds
        what the data file gives. */
    ghost predicate Valid()
      reads this
    {
      (itemTable != map[] ==> progressionItems.Some?) &&
      progressionItems.Some? == usefulItems.Some? == fillerItems.Some? &&
      (progressionItems.Some? ==>
        progressionItems == Some(ProgressionItems(data)) &&
        usefulItems == Some(UsefulItems(data)) &&
        fillerItems == Some(FillerItems(data)) &&
        itemTable == MergedTable(data))
    }

    constructor (data: ItemsJson)
      ensures Valid() && this.data == data
      ensures itemTable == map[] && progressionItems == usefulItems == fillerItems == None
    {
      this.data := data;
      itemTable := map[];
      progressionItems, usefulItems, fillerItems := None, None, None;
    }

    /** `_parse_item_data`: build the three class maps and merge them. */
    method ParseItemData()
      modifies this
      ensures Valid()
      ensures progressionItems == Some(ProgressionItems(data))
      ensures usefulItems == Some(UsefulItems(data))
      ensures fillerItems == Some(FillerItems(data))
      ensures itemTable == MergedTable(data)
    {
      progressionItems := Some(Tagged(data.progression, ImportantItem, Progression));
      usefulItems := Some(Tagged(data.useful, CommonItem, Useful));
      fillerItems := Some(Tagged(data.filler, Gold, Filler));
      var finalItemTable: map<string, ItemData> := map[];
      finalItemTable := finalItemTable + progressionItems.value;
      finalItemTable := finalItemTable + usefulItems.value;
      finalItemTable := finalItemTable + fillerItems.value;
      itemTable := finalItemTable;
    }

    /** `_get_item_table`: parse only while the table is empty. Whatever the
        history, the table returned is the merged table; once it is
        non-empty nothing changes. */
    method GetItemTable() returns (table: map<string, ItemData>)
      requires Valid()
      modifies this
      ensures Valid()
      ensures table == itemTable == MergedTable(data)
      ensures old(itemTable) != map[] ==> unchanged(this)
      ensures progressionItems.Some?
    {
      if itemTable == map[] {
        ParseItemData();
      }
      table := itemTable;
    }

    /** `get_items`. */
    method GetItems() returns (codes: map<string, int>)
      requires Valid()
      modifies this
      ensures Valid()
      ensures itemTable == MergedTable(data) && progressionItems.Some?
      ensures old(itemTable) != map[] ==> unchanged(this)
      ensures codes.Keys == MergedTable(data).Keys
      ensures forall n :: n in codes ==> codes[n] == MergedTable(data)[n].code
    {
      var table := GetItemTable();
      codes := CodesOf(table);
    }

    /** `get_item_type`; `None` stands for the KeyError of an unknown name. */
    method GetItemType(name: string) returns (t: Option<ItemType>)
      requires Valid()
      modifies this
      ensures Valid()
      ensures itemTable == MergedTable(data) && progressionItems.Some?
      ensures old(itemTable) != map[] ==> unchanged(this)
      ensures t.Some? <==> name in MergedTable(data)
      ensures t.Some? ==> t.value == MergedTable(data)[name].itemType
    {
      var table := GetItemTable();
      if name in table {
        t := Some(table[name].itemType);
      } else {
        t := None;
      }
    }

    /** `is_progression`: a test on the progression map, not the merged
        table; `None` stands for the AttributeError before parsing. */
    function IsProgression(name: string): (r: Option<bool>)
      reads this
      requires Valid()
      ensures r.None? <==> progressionItems.None?
      ensures r.Some? ==> (r.value <==> name in data.progression)
    {
      match progressionItems
      case None => None
      case Some(items) => Some(name in items)
    }

    /** `is_useful`, likewise on the useful map. */
    function IsUseful(name: string): (r: Option<bool>)
      reads this
      requires Valid()
      ensures r.None? <==> usefulItems.None?
      ensures r.Some? ==> (r.value <==> name in data.useful)
    {
      match usefulItems
      case None => None
      case Some(items) => Some(name in items)
    }
  }

  /** A name listed both as progression and as filler is reported as
      progression, yet the merged table types it as gold. */
  lemma ProgressionYetGold(items: DQIXItems, n: string)
    requires items.Valid() && items.progressionItems.Some?
    requires n in items.data.progression && n in items.data.filler
    ensures items.IsProgression(n) == Some(true)
    ensures items.itemTable[n].itemType == Gold
  {
  }
}
