/** The inventory helper: one received item code is classified and routed
    to the gold scalar, to the (empty) experience update, or to one of the
    ten category tables. */
module Granting {
  import opened Wrappers
  import opened ByteCodec
  import opened Items
  import opened Classification
  import opened SlotTables
  import Constants

  /** The ten category tables. */
  datatype Category =
    | CommonBag | ImportantBag
    | WeaponsBag | ShieldsBag | TorsoBag | LegsBag | HeadwearBag | ArmsBag | FootwearBag | AccessoriesBag

  /** `grant_equipment`'s choice of table for an equipment kind. */
  function EquipmentBag(e: EquipmentType): (b: Category)
    ensures b != CommonBag && b != ImportantBag
  {
    match e
    case Weapons => WeaponsBag
    case Shields => ShieldsBag
    case Torso => TorsoBag
    case Legs => LegsBag
    case Headwear => HeadwearBag
    case Arms => ArmsBag
    case Footwear => FootwearBag
    case Accessories => AccessoriesBag
  }

  /** Each equipment kind has a table of its own. */
  lemma EquipmentBagsDistinct(e: EquipmentType, f: EquipmentType)
    ensures EquipmentBag(e) == EquipmentBag(f) <==> e == f
  {
  }

  /** What `grant_received_item` (with `grant_equipment`) does with a code. */
  datatype Action = AddGold | AddExperience | GiveTo(bag: Category) | UnknownItem | UnknownEquipment

  function RouteItem(itemId: int, importantIds: set<int>): (a: Action)
    ensures a == UnknownItem <==> DetermineItemType(itemId, importantIds).None?
    ensures a == AddGold <==> 100000 <= itemId < 100010
    ensures a == AddExperience <==> 100010 <= itemId < 100020
    ensures a == GiveTo(ImportantBag) <==> 22000 <= itemId < 23000 && itemId in importantIds
    ensures a == GiveTo(CommonBag) <==> 22000 <= itemId < 23000 && itemId !in importantIds
    ensures a == UnknownEquipment <==>
      12000 <= itemId < 22000 && DetermineEquipmentType(itemId).None?
    ensures 12000 <= itemId < 22000 && DetermineEquipmentType(itemId).Some? ==>
      a == GiveTo(EquipmentBag(DetermineEquipmentType(itemId).value))
    ensures a != GiveTo(ShieldsBag)
    ensures a.GiveTo? ==> 12000 <= itemId < 23000
  {
    match DetermineItemType(itemId, importantIds)
    case None => UnknownItem
    case Some(Gold) => AddGold
    case Some(Experience) => AddExperience
    case Some(ImportantItem) => GiveTo(ImportantBag)
    case Some(CommonItem) => GiveTo(CommonBag)
    case Some(Equipment) =>
      match DetermineEquipmentType(itemId)
      case None => UnknownEquipment
      case Some(e) => GiveTo(EquipmentBag(e))
  }

  /** A code routed to a table is an ordinary 2-byte code: never the empty
      marker and never too wide, so the table update never fails on
      encoding, and it lands in a slot unless the table is full. */
  lemma RoutedCodesFit(itemId: int, importantIds: set<int>, types: seq<int>)
    requires RouteItem(itemId, importantIds).GiveTo?
    ensures 0 <= itemId < Radix(CODE_WIDTH) && itemId != EMPTY_SLOT
    ensures PlanGive(types, itemId) != CodeTooWide
    ensures PlanGive(types, itemId) == NoFreeSlot <==>
      itemId !in types && EMPTY_SLOT !in types
  {
  }

  /** What one `grant_received_item` call did. */
  datatype GrantOutcome =
    | GoldWritten(gold: nat)
    | ExperienceComputed(gain: nat)
    | Given(bag: Category, outcome: GiveOutcome)
    | Unclassified
    | UnclassifiedEquipment

  class InventoryHelper {
    /** The codes that count as important items. */
    const importantIds: set<int>
    /** The ten category tables. */
    const tables: map<Category, SlotTable>
    /** The 4 bytes of gold at hand. */
    var goldAtHand: seq<Byte>

    /** Every array of every category table. */
    ghost function Arrays(): set<object> {
      (set c | c in tables :: tables[c].types) + (set c | c in tables :: tables[c].counts)
    }

    /** No two tables share an array. */
    ghost predicate Separate() {
      forall c, d :: c in tables && d in tables && c != d ==>
        tables[c].types != tables[d].types && tables[c].types != tables[d].counts &&
        tables[c].counts != tables[d].counts
    }

    ghost predicate Valid()
      reads this, Arrays()
    {
      (forall c: Category :: c in tables) &&
      (forall c :: c in tables ==> tables[c].Valid()) &&
      Separate() &&
      |goldAtHand| == Constants.GOLD_AT_HAND.byteSize
    }

    constructor (importantIds: set<int>, tables: map<Category, SlotTable>, goldAtHand: seq<Byte>)
      requires forall c: Category :: c in tables
      requires forall c :: c in tables ==> tables[c].Valid()
      requires forall c, d :: c in tables && d in tables && c != d ==>
        tables[c].types != tables[d].types && tables[c].types != tables[d].counts &&
        tables[c].counts != tables[d].counts
      requires |goldAtHand| == Constants.GOLD_AT_HAND.byteSize
      ensures Valid()
      ensures this.importantIds == importantIds && this.tables == tables && this.goldAtHand == goldAtHand
    {
      this.importantIds := importantIds;
      this.tables := tables;
      this.goldAtHand := goldAtHand;
    }

    /** The gold at hand, decoded. */
    ghost function Gold(): nat
      reads this
    {
      FromLittle(goldAtHand)
    }

    /** `grant_gold`: read the gold at hand, add what the code is worth,
        clamp to [0, 999999999] and write it back. */
    method GrantGold(itemId: int) returns (gold: nat)
      requires Valid()
      modifies this`goldAtHand
      ensures Valid()
      ensures gold == ClampGold(old(Gold()) + GoldGain(itemId)) && Gold() == gold
    {
      var size := Constants.GOLD_AT_HAND.byteSize;
      var currentGold := FromLittle(goldAtHand);
      gold := ClampGold(currentGold + GoldGain(itemId));
      var encoded := ToLittle(gold, size);
      goldAtHand := encoded.value;
    }

    /** `grant_received_item`: route the code and apply it. Gold changes
        only the gold at hand, a table code changes only its own table, and
        experience codes and unclassified codes change nothing. */
    method GrantReceivedItem(itemId: int) returns (result: GrantOutcome)
      requires Valid()
      modifies this`goldAtHand, Arrays()
      ensures Valid()
      ensures match RouteItem(itemId, importantIds)
        case AddGold =>
          result == GoldWritten(Gold()) &&
          Gold() == ClampGold(old(Gold()) + GoldGain(itemId)) &&
          (forall c :: c in tables ==> tables[c].Contents() == old(tables[c].Contents()))
        case GiveTo(b) =>
          result == Given(b, PlanGive(old(tables[b].Contents()).types, itemId)) &&
          tables[b].Contents() == Give(old(tables[b].Contents()), itemId) &&
          goldAtHand == old(goldAtHand) &&
          (forall c :: c in tables && c != b ==> tables[c].Contents() == old(tables[c].Contents()))
        case AddExperience =>
          result == ExperienceComputed(ExperienceGain(itemId)) &&
          goldAtHand == old(goldAtHand) &&
          (forall c :: c in tables ==> tables[c].Contents() == old(tables[c].Contents()))
        case UnknownItem =>
          result == Unclassified &&
          goldAtHand == old(goldAtHand) &&
          (forall c :: c in tables ==> tables[c].Contents() == old(tables[c].Contents()))
        case UnknownEquipment =>
          result == UnclassifiedEquipment &&
          goldAtHand == old(goldAtHand) &&
          (forall c :: c in tables ==> tables[c].Contents() == old(tables[c].Contents()))
    {
      match RouteItem(itemId, importantIds)
      case AddGold =>
        var gold := GrantGold(itemId);
        result := GoldWritten(gold);
      case AddExperience =>
        // `grant_experience` only computes a local amount.
        result := ExperienceComputed(ExperienceGain(itemId));
      case GiveTo(b) =>
        var table := tables[b];
        var outcome := table.GivePlayerItem(itemId);
        result := Given(b, outcome);
      case UnknownItem =>
        result := Unclassified;
      case UnknownEquipment =>
        result := UnclassifiedEquipment;
    }
  }
}
