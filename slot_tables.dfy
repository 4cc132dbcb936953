/** `give_player_item`: find-or-allocate in one inventory category. A
    category is a pair of parallel tables in RAM: 2-byte item codes starting
    at the type address and 1-byte counts starting at the count address.
    Slot i of the code table lives at typeStart + 2*i, slot i of the count
    table at countStart + i; the class below holds both tables as arrays of
    their decoded values. */
module SlotTables {
  import opened Wrappers
  import opened ByteCodec

  /** The code that marks an unoccupied slot. */
  const EMPTY_SLOT := 65535
  /** Counts saturate here. */
  const MAX_STACK := 99
  /** Item codes are written as 2 bytes. */
  const CODE_WIDTH := 2
  /** Counts are written as 1 byte. */
  const COUNT_WIDTH := 1

  function Min(a: int, b: int): int {
    if a < b then a else b
  }

  /** `list.index`: the lowest position that holds x; `None` where Python
      raises ValueError. */
  function IndexOf(s: seq<int>, x: int): (r: Option<nat>)
    ensures r.None? <==> x !in s
    ensures r.Some? ==> r.value < |s| && s[r.value] == x && x !in s[..r.value]
  {
    if s == [] then None
    else if s[0] == x then Some(0)
    else
      match IndexOf(s[1..], x)
      case None => None
      case Some(i) =>
        assert s[..i + 1] == [s[0]] + s[1..][..i];
        Some(i + 1)
  }

  /** The first position holding x is the one `IndexOf` reports. */
  lemma IndexOfIsFirst(s: seq<int>, x: int, i: nat)
    requires i < |s| && s[i] == x && x !in s[..i]
    ensures IndexOf(s, x) == Some(i)
  {
  }

  /** The addresses the source substitutes for a category: where its code
      table and its count table start, and how many slots it has. */
  datatype TableLayout = TableLayout(typeStart: nat, countStart: nat, capacity: nat)

  /** `item_start_address + 2 * target_slot` */
  function TypeSlotAddress(layout: TableLayout, slot: nat): nat {
    layout.typeStart + CODE_WIDTH * slot
  }

  /** `amount_start_address + target_slot` */
  function CountSlotAddress(layout: TableLayout, slot: nat): nat {
    layout.countStart + COUNT_WIDTH * slot
  }

  /** Distinct slots of one category have distinct, non-overlapping code
      addresses and distinct count addresses. */
  lemma SlotAddressesDistinct(layout: TableLayout, i: nat, j: nat)
    requires i != j
    ensures TypeSlotAddress(layout, i) + CODE_WIDTH <= TypeSlotAddress(layout, j) ||
            TypeSlotAddress(layout, j) + CODE_WIDTH <= TypeSlotAddress(layout, i)
    ensures CountSlotAddress(layout, i) != CountSlotAddress(layout, j)
  {
  }

  /** The contents of one category: the decoded code table and count table. */
  datatype Inventory = Inventory(types: seq<int>, counts: seq<int>)

  /** Parallel tables of equal length whose values fit their widths. */
  ghost predicate WellFormed(inv: Inventory) {
    |inv.types| == |inv.counts| &&
    (forall i :: 0 <= i < |inv.types| ==> 0 <= inv.types[i] < Radix(CODE_WIDTH)) &&
    (forall i :: 0 <= i < |inv.counts| ==> 0 <= inv.counts[i] < Radix(COUNT_WIDTH))
  }

  /** Reading the code table with `read_segments_as_ints_from_ram(start,
      capacity, 2)` from the bytes a well-formed table occupies gives back
      the decoded codes, slot for slot. */
  lemma ReadTypeTable(inv: Inventory)
    requires WellFormed(inv)
    ensures |EncodeAll(inv.types, CODE_WIDTH)| == CODE_WIDTH * |inv.types|
    ensures Segments(EncodeAll(inv.types, CODE_WIDTH), |inv.types|, CODE_WIDTH) == inv.types
  {
    SegmentsOfEncodeAll(inv.types, CODE_WIDTH);
  }

  /** What `give_player_item` does with a code. */
  datatype GiveOutcome =
    | Stacked(slot: nat)      // the code already had a slot: its count was bumped
    | Allocated(slot: nat)    // the code went into the first empty slot with count 1
    | NoFreeSlot              // no slot holds the code or is empty: nothing written
    | CodeTooWide             // the code does not fit in 2 bytes: encoding fails before any write

  /** The slot `give_player_item` chooses: the first slot holding the code,
      else the first empty slot (if the code can be written), else none. */
  function PlanGive(types: seq<int>, itemId: int): (r: GiveOutcome)
    ensures r.Stacked? <==> itemId in types
    ensures r.Stacked? ==> r.slot < |types| && types[r.slot] == itemId && itemId !in types[..r.slot]
    ensures r.Allocated? <==> itemId !in types && EMPTY_SLOT in types && 0 <= itemId < Radix(CODE_WIDTH)
    ensures r.Allocated? ==> r.slot < |types| && types[r.slot] == EMPTY_SLOT && EMPTY_SLOT !in types[..r.slot]
    ensures r.NoFreeSlot? <==> itemId !in types && EMPTY_SLOT !in types
  {
    match IndexOf(types, itemId)
    case Some(i) => Stacked(i)
    case None =>
      match IndexOf(types, EMPTY_SLOT)
      case None => NoFreeSlot
      case Some(i) => if ToLittle(itemId, CODE_WIDTH).Some? then Allocated(i) else CodeTooWide
  }

  /** The contents of a category after `give_player_item`. */
  function Give(inv: Inventory, itemId: int): (r: Inventory)
    requires |inv.types| == |inv.counts|
    ensures |r.types| == |inv.types| && |r.counts| == |inv.counts|
  {
    match PlanGive(inv.types, itemId)
    case Stacked(i) => Inventory(inv.types, inv.counts[i := Min(inv.counts[i] + 1, MAX_STACK)])
    case Allocated(i) => Inventory(inv.types[i := itemId], inv.counts[i := 1])
    case _ => inv
  }

  /** A code that already has a slot: only the count of its first slot
      changes, to one more but never past 99; a full stack stays full. */
  lemma GiveStacks(inv: Inventory, itemId: int, i: nat)
    requires |inv.types| == |inv.counts|
    requires i < |inv.types| && inv.types[i] == itemId && itemId !in inv.types[..i]
    ensures Give(inv, itemId).types == inv.types
    ensures Give(inv, itemId).counts[i] == Min(inv.counts[i] + 1, MAX_STACK) <= MAX_STACK
    ensures inv.counts[i] >= MAX_STACK ==> Give(inv, itemId).counts[i] == MAX_STACK
    ensures forall j :: 0 <= j < |inv.counts| && j != i ==> Give(inv, itemId).counts[j] == inv.counts[j]
  {
    IndexOfIsFirst(inv.types, itemId, i);
  }

  /** A new code and an empty slot: the first empty slot gets the code and a
      count of 1, nothing else changes, and the code is then in the table. */
  lemma GiveAllocates(inv: Inventory, itemId: int, i: nat)
    requires |inv.types| == |inv.counts|
    requires itemId !in inv.types && 0 <= itemId < Radix(CODE_WIDTH)
    requires i < |inv.types| && inv.types[i] == EMPTY_SLOT && EMPTY_SLOT !in inv.types[..i]
    ensures Give(inv, itemId).types[i] == itemId && Give(inv, itemId).counts[i] == 1
    ensures forall j :: 0 <= j < |inv.types| && j != i ==>
      Give(inv, itemId).types[j] == inv.types[j] && Give(inv, itemId).counts[j] == inv.counts[j]
    ensures itemId in Give(inv, itemId).types
  {
    IndexOfIsFirst(inv.types, EMPTY_SLOT, i);
    assert Give(inv, itemId).types[i] == itemId;
  }

  /** A new code and no empty slot, or a new code too wide for 2 bytes:
      nothing is written. */
  lemma GiveWithoutRoom(inv: Inventory, itemId: int)
    requires |inv.types| == |inv.counts|
    requires itemId !in inv.types
    requires EMPTY_SLOT !in inv.types || !(0 <= itemId < Radix(CODE_WIDTH))
    ensures Give(inv, itemId) == inv
  {
  }

  /** Granting keeps the tables well formed. */
  lemma GivePreservesWellFormed(inv: Inventory, itemId: int)
    requires WellFormed(inv)
    ensures WellFormed(Give(inv, itemId))
  {
  }

  /** If no count exceeds 99 before, none does after. */
  lemma GiveKeepsStacksCapped(inv: Inventory, itemId: int)
    requires |inv.types| == |inv.counts|
    requires forall j :: 0 <= j < |inv.counts| ==> inv.counts[j] <= MAX_STACK
    ensures forall j :: 0 <= j < |inv.counts| ==> Give(inv, itemId).counts[j] <= MAX_STACK
  {
  }

  /** No code other than the empty marker occupies two slots. */
  ghost predicate CodesDistinct(types: seq<int>) {
    forall i, j :: 0 <= i < j < |types| && types[i] == types[j] ==> types[i] == EMPTY_SLOT
  }

  /** Granting never gives a code a second slot. */
  lemma {:induction false} GiveKeepsCodesDistinct(inv: Inventory, itemId: int)
    requires |inv.types| == |inv.counts|
    requires CodesDistinct(inv.types)
    ensures CodesDistinct(Give(inv, itemId).types)
  {
    match PlanGive(inv.types, itemId)
    case Allocated(k) =>
      var t := Give(inv, itemId).types;
      forall i, j | 0 <= i < j < |t| && t[i] == t[j]
        ensures t[i] == EMPTY_SLOT
      {
        if i != k && j != k {
          assert inv.types[i] == inv.types[j];
        }
      }
    case _ =>
  }

  /** Granting a code twice: the second grant finds the slot the first one
      used, so repeated grants pile onto one stack. */
  lemma GiveAgainStacks(inv: Inventory, itemId: int)
    requires |inv.types| == |inv.counts|
    requires PlanGive(inv.types, itemId).Stacked? || PlanGive(inv.types, itemId).Allocated?
    ensures PlanGive(Give(inv, itemId).types, itemId) == Stacked(PlanGive(inv.types, itemId).slot)
  {
    var k := PlanGive(inv.types, itemId).slot;
    var t := Give(inv, itemId).types;
    assert t[..k] == inv.types[..k];
    IndexOfIsFirst(t, itemId, k);
  }

  /** On a table whose every slot is empty, a new code lands in slot 0 with
      count 1 and the other slots are untouched. */
  lemma GiveIntoEmptyTable(inv: Inventory, itemId: int)
    requires |inv.types| == |inv.counts| > 0
    requires forall j :: 0 <= j < |inv.types| ==> inv.types[j] == EMPTY_SLOT
    requires 0 <= itemId < EMPTY_SLOT
    ensures PlanGive(inv.types, itemId) == Allocated(0)
    ensures Give(inv, itemId) == Inventory(inv.types[0 := itemId], inv.counts[0 := 1])
  {
    assert inv.types[0] == EMPTY_SLOT;
    assert itemId !in inv.types;
  }

  /** One inventory category in RAM. */
  class SlotTable {
    const layout: TableLayout
    const types: array<int>
    const counts: array<int>

    ghost predicate Valid()
      reads types, counts
    {
      types != counts &&
      types.Length == layout.capacity && counts.Length == layout.capacity &&
      WellFormed(Contents())
    }

    ghost function Contents(): Inventory
      reads types, counts
    {
      Inventory(types[..], counts[..])
    }

    constructor (layout: TableLayout, inv: Inventory)
      requires WellFormed(inv) && |inv.types| == layout.capacity
      ensures Valid() && fresh(types) && fresh(counts)
      ensures this.layout == layout && Contents() == inv
    {
      this.layout := layout;
      types := new int[layout.capacity](i requires 0 <= i < layout.capacity => inv.types[i]);
      counts := new int[layout.capacity](i requires 0 <= i < layout.capacity => inv.counts[i]);
      new;
      assert types[..] == inv.types;
      assert counts[..] == inv.counts;
    }

    /** `item_inventory.index(x)` on the code table. */
    method Find(x: int) returns (r: Option<nat>)
      ensures r == IndexOf(types[..], x)
    {
      var i := 0;
      while i < types.Length
        invariant 0 <= i <= types.Length
        invariant x !in types[..i]
      {
        if types[i] == x {
          IndexOfIsFirst(types[..], x, i);
          return Some(i);
        }
        assert types[..i + 1] == types[..i] + [types[i]];
        i := i + 1;
      }
      assert types[..] == types[..i];
      r := None;
    }

    /** `give_player_item`: bump the code's stack, or put the code into the
        first empty slot, or write nothing. */
    method GivePlayerItem(itemId: int) returns (outcome: GiveOutcome)
      requires Valid()
      modifies types, counts
      ensures Valid()
      ensures outcome == PlanGive(old(types[..]), itemId)
      ensures Contents() == Give(old(Contents()), itemId)
    {
      ghost var before := Contents();
      var targetSlot := Find(itemId);
      if targetSlot.Some? {
        var i := targetSlot.value;
        var oldValue := counts[i];
        counts[i] := Min(oldValue + 1, MAX_STACK);
        outcome := Stacked(i);
      } else {
        var freeSlot := Find(EMPTY_SLOT);
        if freeSlot.None? {
          outcome := NoFreeSlot;
        } else {
          var i := freeSlot.value;
          var encoded := ToLittle(itemId, CODE_WIDTH);
          if encoded.None? {
            outcome := CodeTooWide;
          } else {
            types[i] := FromLittle(encoded.value);
            counts[i] := 1;
            outcome := Allocated(i);
          }
        }
      }
      assert Contents() == Give(before, itemId);
    }
  }
}
