/** The pure parts of the inventory helper: sorting an incoming item code
    into an item kind and an equipment kind by ordered range tests, and the
    gold and experience amounts a code is worth. */
module Classification {
  import opened Wrappers
  import opened Items

  datatype EquipmentType = Weapons | Shields | Torso | Legs | Headwear | Arms | Footwear | Accessories

  /** `determine_item_type`: the first range that holds the code decides;
      the key-item range splits on membership in the set of important codes.
      Each result is characterised by its own range, so the ranges are a
      partition and their order does not matter. */
  function DetermineItemType(itemId: int, importantIds: set<int>): (r: Option<ItemType>)
    ensures r == Some(Equipment) <==> 12000 <= itemId < 22000
    ensures r == Some(ImportantItem) <==> 22000 <= itemId < 23000 && itemId in importantIds
    ensures r == Some(CommonItem) <==> 22000 <= itemId < 23000 && itemId !in importantIds
    ensures r == Some(Gold) <==> 100000 <= itemId < 100010
    ensures r == Some(Experience) <==> 100010 <= itemId < 100020
    ensures r == None <==>
      itemId < 12000 || 23000 <= itemId < 100000 || 100020 <= itemId
  {
    if 12000 <= itemId < 22000 then Some(Equipment)
    else if 22000 <= itemId < 23000 then
      (if itemId in importantIds then Some(ImportantItem) else Some(CommonItem))
    else if 100000 <= itemId < 100010 then Some(Gold)
    else if 100010 <= itemId < 100020 then Some(Experience)
    else None
  }

  /** The half-open code ranges `determine_item_type` tests, in order. */
  const ITEM_RANGES: seq<(int, int)> := [(12000, 22000), (22000, 23000), (100000, 100010), (100010, 100020)]

  /** No two of the item-kind ranges share a code. */
  lemma ItemRangesDisjoint()
    ensures forall i, j :: 0 <= i < j < |ITEM_RANGES| ==>
      ITEM_RANGES[i].1 <= ITEM_RANGES[j].0 || ITEM_RANGES[j].1 <= ITEM_RANGES[i].0
  {
  }

  /** A code gets an item kind exactly when one of the ranges holds it. */
  lemma ItemRangesCoverKinds(itemId: int, importantIds: set<int>)
    ensures DetermineItemType(itemId, importantIds).Some? <==>
      exists k :: 0 <= k < |ITEM_RANGES| && ITEM_RANGES[k].0 <= itemId < ITEM_RANGES[k].1
  {
    if DetermineItemType(itemId, importantIds).Some? {
      var k := if itemId < 22000 then 0 else if itemId < 23000 then 1 else if itemId < 100010 then 2 else 3;
      assert ITEM_RANGES[k].0 <= itemId < ITEM_RANGES[k].1;
    }
  }

  /** `determine_equipment_type`: the weapons test comes first and its upper
      bound 2091822 covers the whole shields range, so `Shields` is never
      returned; codes in the gaps between ranges give `None`. */
  function DetermineEquipmentType(itemId: int): (r: Option<EquipmentType>)
    ensures r == Some(Weapons) <==> 19050 <= itemId <= 2091822
    ensures r != Some(Shields)
    ensures r == Some(Headwear) <==> 12100 <= itemId < 13000
    ensures r == Some(Torso) <==> 13000 <= itemId < 14000
    ensures r == Some(Arms) <==> 15000 <= itemId < 15300
    ensures r == Some(Legs) <==> 16000 <= itemId < 16400
    ensures r == Some(Footwear) <==> 17000 <= itemId < 17500
    ensures r == Some(Accessories) <==> 18000 <= itemId < 18055
    ensures r == None <==>
      itemId < 12100 || 14000 <= itemId < 15000 || 15300 <= itemId < 16000 ||
      16400 <= itemId < 17000 || 17500 <= itemId < 18000 || 18055 <= itemId < 19050 ||
      2091822 < itemId
  {
    if 19050 <= itemId <= 2091822 then Some(Weapons)
    else if 21000 <= itemId < 22000 then Some(Shields)
    else if 12100 <= itemId < 13000 then Some(Headwear)
    else if 13000 <= itemId < 14000 then Some(Torso)
    else if 15000 <= itemId < 15300 then Some(Arms)
    else if 16000 <= itemId < 16400 then Some(Legs)
    else if 17000 <= itemId < 17500 then Some(Footwear)
    else if 18000 <= itemId < 18055 then Some(Accessories)
    else None
  }

  /** Every code of the shields range, and every equipment code from 19050
      on, is classified as a weapon. */
  lemma ShieldRangeIsWeapons(itemId: int)
    requires 19050 <= itemId < 22000
    ensures DetermineItemType(itemId, {}) == Some(Equipment)
    ensures DetermineEquipmentType(itemId) == Some(Weapons)
  {
  }

  /** Equipment codes that fall in a gap between the equipment ranges are
      classified as equipment but get no equipment kind. */
  lemma EquipmentGaps(itemId: int, importantIds: set<int>)
    requires 12000 <= itemId < 12100 || 14000 <= itemId < 15000 || 18055 <= itemId < 19050
    ensures DetermineItemType(itemId, importantIds) == Some(Equipment)
    ensures DetermineEquipmentType(itemId).None?
  {
  }

  const GOLD_CAP := 999999999

  /** The gold a gold code is worth in `grant_gold`: only the first four gold
      codes are worth anything. */
  function GoldGain(itemId: int): (g: nat)
    ensures g > 0 <==> 100000 <= itemId <= 100003
    ensures g <= 50000
  {
    match itemId
    case 100000 => 50
    case 100001 => 500
    case 100002 => 5000
    case 100003 => 50000
    case _ => 0
  }

  /** `min(max(x, 0), 999999999)`. */
  function ClampGold(x: int): (r: nat)
    ensures r <= GOLD_CAP
    ensures 0 <= x <= GOLD_CAP ==> r == x
    ensures x < 0 ==> r == 0
    ensures x > GOLD_CAP ==> r == GOLD_CAP
  {
    if x < 0 then 0 else if x > GOLD_CAP then GOLD_CAP else x
  }

  /** The new gold after a gold code: never above the cap, never below the
      old amount while that was in range, and unchanged by the gold codes
      worth nothing. */
  lemma GoldUpdate(before: nat, itemId: int)
    requires before <= GOLD_CAP
    ensures var r := ClampGold(before + GoldGain(itemId));
      before <= r <= GOLD_CAP &&
      (100004 <= itemId < 100010 ==> r == before) &&
      (r == GOLD_CAP <==> before + GoldGain(itemId) >= GOLD_CAP)
  {
  }

  /** The experience a code is worth in `grant_experience`; the value is
      computed and then dropped. */
  function ExperienceGain(itemId: int): (e: nat)
    ensures e > 0 <==> 100010 <= itemId <= 100013
    ensures e <= 50000
  {
    match itemId
    case 100010 => 50
    case 100011 => 500
    case 100012 => 5000
    case 100013 => 50000
    case _ => 0
  }
}
