/** The fixed memory layout of the game's save structures in Main RAM: an
    address and a width in bytes per entry. The lemmas below check the
    table against itself; two of them record where it is inconsistent. */
module Constants {

  datatype AddressData = AddressData(address: nat, byteSize: nat)

  const VISITED_LOCATIONS := AddressData(0x108910, 3)
  const LEARNED_PARTY_TRICKS := AddressData(0x108A50, 4)
  const UNLOCKABLE_VOCATIONS := AddressData(0x108AF8, 2)
  const SPENT_MINIMEDALS := AddressData(0x0F5F7C, 4)
  const GOLD_IN_BANK := AddressData(0x0F6D44, 4)
  const GOLD_AT_HAND := AddressData(0x0F6D48, 4)

  const COMMON_ITEMS_TYPE_START := AddressData(0x0F5DE8, 2)
  const COMMON_ITEMS_TYPE_END := AddressData(0x0F5F16, 2)
  const COMMON_ITEMS_COUNTS_START := AddressData(0x0F5F18, 1)
  const COMMON_ITEMS_COUNTS_END := AddressData(0x0F5FAF, 1)

  const WEAPONS_TYPE_START := AddressData(0x0F5FB0, 2)
  const WEAPONS_TYPE_END := AddressData(0x0F61CE, 2)
  const WEAPONS_COUNTS_START := AddressData(0x0F61D0, 1)
  const WEAPONS_COUNTS_END := AddressData(0x0F61DF, 1)

  const SHIELDS_TYPE_START := AddressData(0x0F62E0, 2)
  const SHIELDS_TYPE_END := AddressData(0x0F633E, 2)
  const SHIELDS_COUNTS_START := AddressData(0x0F6340, 1)
  const SHIELDS_COUNTS_END := AddressData(0x0F636F, 1)

  const TORSO_TYPE_START := AddressData(0x0F6370, 2)
  const TORSO_TYPE_END := AddressData(0x0F64EE, 2)
  const TORSO_COUNTS_START := AddressData(0x0F64F0, 1)
  const TORSO_COUNTS_END := AddressData(0x0F65AF, 1)

  const LEGS_TYPE_START := AddressData(0x0F65B0, 2)
  const LEGS_TYPE_END := AddressData(0x0F666E, 2)
  const LEGS_COUNTS_START := AddressData(0x0F6670, 1)
  const LEGS_COUNTS_END := AddressData(0x0F66CF, 1)

  const HEADWEAR_TYPE_START := AddressData(0x0F66D0, 2)
  const HEADWEAR_TYPE_END := AddressData(0x0F67EE, 2)
  const HEADWEAR_COUNTS_START := AddressData(0x0F67F0, 1)
  const HEADWEAR_COUNTS_END := AddressData(0x0F687F, 1)

  const ARMS_TYPE_START := AddressData(0x0F6880, 2)
  const ARMS_TYPE_END := AddressData(0x0F691E, 2)
  const ARMS_COUNTS_START := AddressData(0x0F6920, 1)
  const ARMS_COUNTS_END := AddressData(0x0F696F, 1)

  const FOOTWEAR_TYPE_START := AddressData(0x0F6970, 2)
  const FOOTWEAR_TYPE_END := AddressData(0x0F6A4E, 2)
  const FOOTWEAR_COUNTS_START := AddressData(0x0F6A50, 1)
  const FOOTWEAR_COUNTS_END := AddressData(0x0F6A4E, 1)

  const ACCESSORIES_TYPE_START := AddressData(0x0F6AC0, 2)
  const ACCESSORIES_TYPE_END := AddressData(0x0F6B3E, 2)
  const ACCESSORIES_COUNTS_START := AddressData(0x0F6B40, 1)
  const ACCESSORIES_COUNTS_END := AddressData(0x0F6B7F, 1)

  const IMPORTANT_ITEMS_TYPE_START := AddressData(0x0F6BEC, 2)
  const IMPORTANT_ITEMS_TYPE_END := AddressData(0x0F6CA6, 2)
  const IMPORTANT_ITEMS_COUNTS_START := AddressData(0x0F6CA8, 1)
  const IMPORTANT_ITEMS_COUNTS_END := AddressData(0x0F6D05, 1)

  const DQVC_MESSAGE := AddressData(0x0F9358, 510)

  /** The four bounds of one category: the first and last 2-byte type slot,
      the first and last 1-byte count slot. */
  datatype CategoryAddresses = CategoryAddresses(
    typeStart: AddressData, typeEnd: AddressData,
    countsStart: AddressData, countsEnd: AddressData)

  const COMMON_ITEMS := CategoryAddresses(COMMON_ITEMS_TYPE_START, COMMON_ITEMS_TYPE_END,
                                          COMMON_ITEMS_COUNTS_START, COMMON_ITEMS_COUNTS_END)
  const WEAPONS := CategoryAddresses(WEAPONS_TYPE_START, WEAPONS_TYPE_END,
                                     WEAPONS_COUNTS_START, WEAPONS_COUNTS_END)
  const SHIELDS := CategoryAddresses(SHIELDS_TYPE_START, SHIELDS_TYPE_END,
                                     SHIELDS_COUNTS_START, SHIELDS_COUNTS_END)
  const TORSO := CategoryAddresses(TORSO_TYPE_START, TORSO_TYPE_END,
                                   TORSO_COUNTS_START, TORSO_COUNTS_END)
  const LEGS := CategoryAddresses(LEGS_TYPE_START, LEGS_TYPE_END,
                                  LEGS_COUNTS_START, LEGS_COUNTS_END)
  const HEADWEAR := CategoryAddresses(HEADWEAR_TYPE_START, HEADWEAR_TYPE_END,
                                      HEADWEAR_COUNTS_START, HEADWEAR_COUNTS_END)
  const ARMS := CategoryAddresses(ARMS_TYPE_START, ARMS_TYPE_END,
                                  ARMS_COUNTS_START, ARMS_COUNTS_END)
  const FOOTWEAR := CategoryAddresses(FOOTWEAR_TYPE_START, FOOTWEAR_TYPE_END,
                                      FOOTWEAR_COUNTS_START, FOOTWEAR_COUNTS_END)
  const ACCESSORIES := CategoryAddresses(ACCESSORIES_TYPE_START, ACCESSORIES_TYPE_END,
                                         ACCESSORIES_COUNTS_START, ACCESSORIES_COUNTS_END)
  const IMPORTANT_ITEMS := CategoryAddresses(IMPORTANT_ITEMS_TYPE_START, IMPORTANT_ITEMS_TYPE_END,
                                             IMPORTANT_ITEMS_COUNTS_START, IMPORTANT_ITEMS_COUNTS_END)

  /** The ten category tables in the order they are declared, which is also
      their order in memory. */
  const CATEGORY_TABLES: seq<CategoryAddresses> :=
    [COMMON_ITEMS, WEAPONS, SHIELDS, TORSO, LEGS, HEADWEAR, ARMS, FOOTWEAR, ACCESSORIES, IMPORTANT_ITEMS]

  /** Number of 2-byte type slots from the first to the last, inclusive. */
  function TypeSlots(c: CategoryAddresses): int {
    (c.typeEnd.address - c.typeStart.address) / 2 + 1
  }

  /** Number of 1-byte count slots from the first to the last, inclusive. */
  function CountSlots(c: CategoryAddresses): int {
    c.countsEnd.address - c.countsStart.address + 1
  }

  /** The first address past everything the category's bounds reach. */
  function TableLimit(c: CategoryAddresses): nat {
    var typesLimit := c.typeEnd.address + c.typeEnd.byteSize;
    var countsLimit := c.countsEnd.address + c.countsEnd.byteSize;
    if typesLimit < countsLimit then countsLimit else typesLimit
  }

  ghost predicate WidthsAgree(c: CategoryAddresses) {
    c.typeStart.byteSize == 2 && c.typeEnd.byteSize == 2 &&
    c.countsStart.byteSize == 1 && c.countsEnd.byteSize == 1
  }

  ghost predicate CountsFollowTypes(c: CategoryAddresses) {
    c.countsStart.address == c.typeEnd.address + c.typeEnd.byteSize
  }

  /** Every type bound is 2 bytes wide, every count bound 1 byte, and both
      gold scalars are 4 bytes. */
  lemma TableWidths()
    ensures forall k :: 0 <= k < |CATEGORY_TABLES| ==> WidthsAgree(CATEGORY_TABLES[k])
    ensures GOLD_AT_HAND.byteSize == 4 && GOLD_IN_BANK.byteSize == 4
  {
  }

  /** In all ten categories the count table begins right after the last
      2-byte type slot. */
  lemma CountTablesFollowTypeTables()
    ensures forall k :: 0 <= k < |CATEGORY_TABLES| ==> CountsFollowTypes(CATEGORY_TABLES[k])
  {
  }

  /** In eight categories the type table and the count table describe the
      same number of parallel slots. */
  lemma ParallelCapacities()
    ensures TypeSlots(COMMON_ITEMS) == CountSlots(COMMON_ITEMS) == 152
    ensures TypeSlots(SHIELDS) == CountSlots(SHIELDS) == 48
    ensures TypeSlots(TORSO) == CountSlots(TORSO) == 192
    ensures TypeSlots(LEGS) == CountSlots(LEGS) == 96
    ensures TypeSlots(HEADWEAR) == CountSlots(HEADWEAR) == 144
    ensures TypeSlots(ARMS) == CountSlots(ARMS) == 80
    ensures TypeSlots(ACCESSORIES) == CountSlots(ACCESSORIES) == 64
    ensures TypeSlots(IMPORTANT_ITEMS) == CountSlots(IMPORTANT_ITEMS) == 94
  {
  }

  /** The two categories whose bounds disagree: the weapons count table ends
      after 16 slots against 272 type slots, and the footwear count table
      ends before it starts. */
  lemma MismatchedCapacities()
    ensures TypeSlots(WEAPONS) == 272 && CountSlots(WEAPONS) == 16
    ensures FOOTWEAR_COUNTS_END.address < FOOTWEAR_COUNTS_START.address
    ensures TypeSlots(FOOTWEAR) == 112 && CountSlots(FOOTWEAR) == -1
  {
  }

  /** The ten tables lie in strictly increasing, non-overlapping address
      ranges, and all of them below the bank gold. */
  lemma TablesAscend()
    ensures forall k :: 0 <= k < |CATEGORY_TABLES| ==>
      CATEGORY_TABLES[k].typeStart.address < CATEGORY_TABLES[k].typeEnd.address < CATEGORY_TABLES[k].countsStart.address
    ensures forall k :: 0 <= k < |CATEGORY_TABLES| - 1 ==>
      TableLimit(CATEGORY_TABLES[k]) <= CATEGORY_TABLES[k + 1].typeStart.address
    ensures TableLimit(IMPORTANT_ITEMS) <= GOLD_IN_BANK.address
  {
  }

  /** The bank gold's four bytes end exactly where the gold at hand begins. */
  lemma GoldScalarsAdjacent()
    ensures GOLD_IN_BANK.address + GOLD_IN_BANK.byteSize == GOLD_AT_HAND.address
  {
  }

  /** The spent-mini-medals counter lies inside the common items' count
      table, so the constants are not pairwise disjoint. */
  lemma MinimedalsInsideCommonCounts()
    ensures COMMON_ITEMS_COUNTS_START.address <= SPENT_MINIMEDALS.address
    ensures SPENT_MINIMEDALS.address + SPENT_MINIMEDALS.byteSize <= COMMON_ITEMS_COUNTS_END.address + 1
  {
  }
}
