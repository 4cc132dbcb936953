# Dragon Quest IX multiworld client: the inventory-granting engine

This project models, in Dafny, how the Dragon Quest IX client of the
multiworld item-exchange service puts a received item into the game's memory.
Main RAM is seen through the pieces the client touches:

- **Classification** (`Classification`): an item code is sorted into an item
  kind (equipment, important item, common item, gold, experience, or none)
  and an equipment code into one of eight equipment kinds, by ordered range
  tests. The weapons test (`19050 <= id <= 2091822`) comes first and covers
  the whole shields range, so the shields kind is never produced; the model
  keeps this and proves it.
- **Category tables** (`SlotTables`): each inventory category is a pair of
  parallel tables, 2-byte item codes and 1-byte counts, with 65535 marking an
  empty slot. `SlotTable` holds the two tables as arrays of their decoded
  values; slot i of the code table stands for the two bytes at
  `typeStart + 2*i`, slot i of the count table for the byte at
  `countStart + i`. Granting a code bumps the count of the first slot holding
  it (saturating at 99), or else puts it into the first empty slot with count
  1, or else writes nothing. The pure functions `PlanGive` and `Give` say
  which slot is chosen and what the tables become; the method is proved
  against them and the lemmas state what the source promises about them.
- **Dispatch and gold** (`Granting`): `InventoryHelper` owns the ten category
  tables and the 4 bytes of gold at hand. A gold code adds 50, 500, 5000 or
  50000 (the other gold codes add nothing) and clamps to [0, 999999999]; an
  experience code computes an amount and writes nothing; unclassified codes
  write nothing; everything else goes to exactly one table.
- **Little-endian helpers** (`ByteCodec`): `int.from_bytes`/`int.to_bytes`
  in little-endian order, and the segment reader that cuts a byte read into
  equal segments, with both round trips.
- **Memory layout** (`Constants`): the address table, with lemmas that check
  it against itself. Two entries are inconsistent and the lemmas record it:
  the weapons count table ends after 16 slots against 272 code slots, and the
  footwear count table ends (0x0F6A4E) before it starts (0x0F6A50). The
  spent-mini-medals counter lies inside the common items' count table.
- **Item catalogue** (`Items`): the three class maps decoded from the item
  data file, their merge (filler over useful over progression), the lazily
  built table and its lookups. `is_progression` and `is_useful` test the
  per-class maps, so a name in both the progression and the filler maps is
  progression yet typed as gold.
- **Client** (`Client`): the ROM name check and the gold-at-hand change
  detector, a one-field state machine.

The inventory helper refers to names that the item catalogue and the
constants file do not define: the per-category `*_TYPE_OFFSET`,
`*_COUNTS_OFFSET` and `*_SEGMENTS`, the set of important item codes, and an
`EXPERIENCE` item kind. The first three are a `TableLayout` (code-table
start, count-table start, capacity) given to each `SlotTable`; the important
codes are a `set<int>` given to `InventoryHelper`; `Experience` is added to
the modelled `ItemType`, and `DECLARED_ITEM_TYPES` records the four members
the catalogue itself declares (as written, Python would raise AttributeError
on `ItemType.EXPERIENCE`). Likewise `grant_gold` asks for the gold entry's
`segment_size`, which the address record does not have; the model uses its
`byte_size`, 4.
Together these names mean that, as written, no code reaches a write:
experience codes raise at the classifier's `ItemType.EXPERIENCE`, important
and common codes at the missing set of important codes, equipment and
unclassified codes at the `case ItemType.EXPERIENCE` pattern of the
dispatch (Python looks it up for every subject that is not gold), and gold
codes at `segment_size`. The dispatch modelled here is the one that runs
once those names are supplied.

The model follows the code in these points: experience codes are worth 50/500/5000/50000 and nothing is written
for them (there is no per-vocation update); the weapons range is inclusive
and reaches 2091822; there are ten category tables; a table without room
logs and returns rather than signalling an error; there is no received-items
queue with a processed index.

## Model

| member | source | states |
|---|---|---|
| `Classification.DetermineItemType` | worlds/dqix/InventoryHelper.py:29-38 | equipment exactly for 12000..21999; important item for 22000..22999 in the important set, common item otherwise; gold exactly for 100000..100009; experience exactly for 100010..100019; none for every other code |
| `Classification.ItemRangesDisjoint` | worlds/dqix/InventoryHelper.py:30-37 | the four tested item ranges are pairwise disjoint |
| `Classification.ItemRangesCoverKinds` | worlds/dqix/InventoryHelper.py:29-38 | a code gets an item kind exactly when one of the four ranges holds it |
| `Classification.DetermineEquipmentType` | worlds/dqix/InventoryHelper.py:41-58 | weapons exactly for 19050..2091822 inclusive; shields never; headwear, torso, arms, legs, footwear, accessories exactly for their ranges; none exactly for the gaps, below 12100 and above 2091822 |
| `Classification.ShieldRangeIsWeapons` | worlds/dqix/InventoryHelper.py:42-45 | every code from 19050 to 21999, the shields range included, is equipment and a weapon |
| `Classification.EquipmentGaps` | worlds/dqix/InventoryHelper.py:41-58 | codes 12000-12099, 14000-14999 and 18055-19049 are equipment but get no equipment kind |
| `Classification.GoldGain` | worlds/dqix/InventoryHelper.py:93-102 | a code is worth gold exactly when it is 100000..100003, and at most 50000 |
| `Classification.ClampGold` | worlds/dqix/InventoryHelper.py:103 | the result lies in [0, 999999999], equals the input inside that range, is 0 below and 999999999 above |
| `Classification.GoldUpdate` | worlds/dqix/InventoryHelper.py:91-103 | from an in-range amount the new gold never drops, never exceeds the cap, is unchanged for 100004..100009, and hits the cap exactly when the sum reaches it |
| `Classification.ExperienceGain` | worlds/dqix/InventoryHelper.py:105-118 | a code is worth experience exactly when it is 100010..100013, and at most 50000 |
| `ByteCodec.FromLittle` | worlds/dqix/InventoryHelper.py:60-62 | the decoded value of n bytes is below 256^n |
| `ByteCodec.ToLittle` | worlds/dqix/InventoryHelper.py:64-66 | encoding succeeds exactly for 0 <= value < 256^size, gives `size` bytes, and those bytes decode to the value |
| `ByteCodec.Encode` | worlds/dqix/InventoryHelper.py:66 | a value that fits gives exactly `size` bytes; `DecodeEncode` and `EncodeDecode` make it the inverse of `FromLittle` |
| `ByteCodec.DecodeEncode` | worlds/dqix/InventoryHelper.py:60-66 | decoding the encoding of a value that fits returns the value |
| `ByteCodec.EncodeDecode` | worlds/dqix/InventoryHelper.py:60-66 | encoding a decoded byte string to its own length returns the bytes |
| `ByteCodec.Segments` | worlds/dqix/InventoryHelper.py:68-71 | the segment reader returns exactly `segment_count` values |
| `ByteCodec.SegmentsExact` | worlds/dqix/InventoryHelper.py:70-71 | on a read of `count * size` bytes, value k is the little-endian integer of bytes [k*size, (k+1)*size) and fits in `size` bytes |
| `ByteCodec.SegmentsOfEncodeAll` | worlds/dqix/InventoryHelper.py:68-71 | reading back a table of values encoded `size` bytes each returns the values |
| `SlotTables.IndexOf` | worlds/dqix/InventoryHelper.py:147 | `list.index`: absent exactly when the value does not occur, else the position of its first occurrence |
| `SlotTables.ReadTypeTable` | worlds/dqix/InventoryHelper.py:144 | reading a well-formed code table as 2-byte segments gives the decoded codes slot for slot |
| `SlotTables.SlotAddressesDistinct` | worlds/dqix/InventoryHelper.py:157-158 | distinct slots have non-overlapping 2-byte code addresses and distinct count addresses |
| `SlotTables.PlanGive` | worlds/dqix/InventoryHelper.py:146-155 | stacks exactly when the code occurs, on its first slot; allocates exactly when the code is absent, an empty slot exists and the code fits 2 bytes, on the first empty slot; no free slot exactly when neither the code nor 65535 occurs |
| `SlotTables.Give` | worlds/dqix/InventoryHelper.py:157-165 | both tables keep their lengths |
| `SlotTables.GiveStacks` | worlds/dqix/InventoryHelper.py:146-162 | a present code changes only the count of its first slot, to min(old+1, 99), so at most 99 and a full stack stays 99; the code table and all other counts are unchanged |
| `SlotTables.GiveAllocates` | worlds/dqix/InventoryHelper.py:149-165 | an absent code with an empty slot goes into the lowest empty slot with count 1, nothing else changes, and the code then occurs in the table |
| `SlotTables.GiveWithoutRoom` | worlds/dqix/InventoryHelper.py:149-155 | an absent code with no empty slot, or too wide for 2 bytes, leaves both tables unchanged |
| `SlotTables.GivePreservesWellFormed` | worlds/dqix/InventoryHelper.py:157-165 | granting keeps the tables parallel with codes in 2 bytes and counts in 1 byte |
| `SlotTables.GiveKeepsStacksCapped` | worlds/dqix/InventoryHelper.py:160-162 | if no count exceeds 99 before, none does after |
| `SlotTables.GiveKeepsCodesDistinct` | worlds/dqix/InventoryHelper.py:146-165 | granting never gives a code a second slot |
| `SlotTables.GiveAgainStacks` | worlds/dqix/InventoryHelper.py:143-165 | after a grant that stacked or allocated, granting the same code again stacks on the same slot |
| `SlotTables.GiveIntoEmptyTable` | worlds/dqix/InventoryHelper.py:150-165 | on an all-empty table a new code goes into slot 0 with count 1 and nothing else changes |
| `SlotTables.SlotTable.Find` | worlds/dqix/InventoryHelper.py:147 | the scan returns the first slot holding the value, or nothing when no slot does |
| `SlotTables.SlotTable.GivePlayerItem` | worlds/dqix/InventoryHelper.py:143-165 | the outcome is the planned one and the new tables are `Give` of the old ones |
| `Granting.RouteItem` | worlds/dqix/InventoryHelper.py:73-141 | unknown exactly for unclassified codes; gold exactly for 100000..100009; experience exactly for 100010..100019; the important or common table exactly per the important set; unknown equipment exactly for equipment codes without a kind; an equipment code with a kind goes to that kind's table; never the shields table; a table only for codes 12000..22999 |
| `Granting.EquipmentBag` | worlds/dqix/InventoryHelper.py:123-139 | an equipment kind never goes to the common or important table |
| `Granting.EquipmentBagsDistinct` | worlds/dqix/InventoryHelper.py:123-139 | two equipment kinds share a table exactly when they are the same kind |
| `Granting.RoutedCodesFit` | worlds/dqix/InventoryHelper.py:73-141 | a code routed to a table fits 2 bytes and is not 65535, so encoding never fails and the only refusal is a full table |
| `Granting.InventoryHelper.GrantGold` | worlds/dqix/InventoryHelper.py:91-103 | the gold at hand becomes clamp(old + gain, 0, 999999999), read and written as 4 little-endian bytes |
| `Granting.InventoryHelper.GrantReceivedItem` | worlds/dqix/InventoryHelper.py:73-141 | gold codes change only the gold; table codes change only their table, as `Give` says; experience codes, unclassified codes and equipment without a kind change nothing, each with its own outcome |
| `Constants.TableWidths` | worlds/dqix/Constants.py:14-75 | every code bound is 2 bytes, every count bound 1 byte, both gold scalars 4 bytes |
| `Constants.CountTablesFollowTypeTables` | worlds/dqix/Constants.py:18-75 | in all ten categories the count table starts right after the last code slot |
| `Constants.ParallelCapacities` | worlds/dqix/Constants.py:18-75 | eight categories have equal code and count capacities: 152, 48, 192, 96, 144, 80, 64, 94 |
| `Constants.MismatchedCapacities` | worlds/dqix/Constants.py:24-63 | weapons has 272 code slots but 16 count slots; footwear's count table ends before it starts |
| `Constants.TablesAscend` | worlds/dqix/Constants.py:14-75 | the ten tables lie in strictly increasing, non-overlapping ranges, all below the bank gold |
| `Constants.GoldScalarsAdjacent` | worlds/dqix/Constants.py:14-15 | the bank gold's 4 bytes end exactly at the gold at hand |
| `Constants.MinimedalsInsideCommonCounts` | worlds/dqix/Constants.py:13-21 | the spent-mini-medals counter lies inside the common items' count table |
| `Items.DeclaredItemTypes` | worlds/dqix/Items.py:9-13 | the catalogue declares exactly four item kinds, none of them experience |
| `Items.Tagged` | worlds/dqix/Items.py:30-32 | a class map has the class's names, each with its code, kind and classification |
| `Items.ProgressionItems` | worlds/dqix/Items.py:30 | the progression names, each with its code, typed as an important item and classified progression |
| `Items.UsefulItems` | worlds/dqix/Items.py:31 | the useful names, each with its code, typed as a common item and classified useful |
| `Items.FillerItems` | worlds/dqix/Items.py:32 | the filler names, each with its code, typed as gold and classified filler |
| `Items.MergedTable` | worlds/dqix/Items.py:34-39 | every entry is named by its key; its names and precedence are stated by `MergedKeys` and `MergedPrecedence` |
| `Items.MergedKeys` | worlds/dqix/Items.py:34-39 | the merged table's names are the union of the three classes' names |
| `Items.MergedPrecedence` | worlds/dqix/Items.py:34-39 | on a shared name filler wins over useful and useful over progression |
| `Items.MergedEntriesWellFormed` | worlds/dqix/Items.py:30-39 | every merged entry is named by its key and has a declared kind other than equipment |
| `Items.CodesOf` | worlds/dqix/Items.py:46-47 | the code map has the table's names, each mapped to its entry's code |
| `Items.DQIXItems.ParseItemData` | worlds/dqix/Items.py:26-39 | the three class maps and the merged table are built from the data |
| `Items.DQIXItems.GetItemTable` | worlds/dqix/Items.py:41-44 | the table returned is always the merged table and the class maps exist afterwards; once the table is non-empty a call changes nothing |
| `Items.DQIXItems.GetItems` | worlds/dqix/Items.py:41-47 | the result has exactly the merged names, each mapped to its code; afterwards the table is the merged table and the class maps exist; a loaded table is left unchanged |
| `Items.DQIXItems.GetItemType` | worlds/dqix/Items.py:41-50 | a known name gives its merged entry's kind; an unknown name fails; afterwards the table is the merged table and the class maps exist; a loaded table is left unchanged |
| `Items.DQIXItems.IsProgression` | worlds/dqix/Items.py:52-53 | before parsing it fails; after, it is true exactly for the progression names |
| `Items.DQIXItems.IsUseful` | worlds/dqix/Items.py:55-56 | before parsing it fails; after, it is true exactly for the useful names |
| `Items.ProgressionYetGold` | worlds/dqix/Items.py:30-53 | a name that is both progression and filler is reported as progression yet typed as gold |
| `Client.MoneyIsGoldAtHand` | worlds/dqix/Client.py:45 | the watched address and width are those of the gold at hand |
| `Client.DecodeAscii` | worlds/dqix/Client.py:21 | decoding succeeds exactly when every byte is below 128, character for byte |
| `Client.RomNameMatch` | worlds/dqix/Client.py:21-23 | the name matches exactly when the 12 bytes are the ASCII bytes of "DRAGONQUEST9" |
| `Client.ObserveMoney` | worlds/dqix/Client.py:46-48 | the remembered value becomes the value read; a change is reported exactly when they differed |
| `Client.RepeatedObservationReportsOnce` | worlds/dqix/Client.py:44-48 | the first read is reported; reading the same value again is not and changes nothing |
| `Client.DQIXClient.constructor` | worlds/dqix/Client.py:14-16 | the remembered gold starts absent |
| `Client.DQIXClient.ValidateRom` | worlds/dqix/Client.py:18-31 | accepts exactly the ROM name bytes and only then sets the game and asks for slot data; a failed read refuses; a non-ASCII name is an error; nothing else changes |
| `Client.DQIXClient.LocationCheck` | worlds/dqix/Client.py:44-48 | the remembered gold becomes the 4-byte value read (below 2^32), with a change reported exactly when it differs |
| `Client.DQIXClient.GameWatcher` | worlds/dqix/Client.py:33-42 | without a server nothing happens; a failed read leaves the remembered gold as it was; otherwise as the change check |

## Left out

- The emulator transport (reads and writes of the "Main RAM" and "ROM" domains), `async`/`await` and the RequestFailedError plumbing: in `Client` a read is given as its result, with `None` for a failed request; in `Granting` and `SlotTables` no read or write fails, so a failure between the code write and the count write of a new slot (InventoryHelper.py:164-165), which would leave the code next to the slot's old count, is not modelled; a write is the new value of the array or field it stands for.
- `Granting.InventoryHelper.GrantGold`: as written, `grant_gold` reads the gold entry's `segment_size`, a field the address record lacks, so every gold code raises AttributeError before reading or writing; the model uses the record's `byte_size` (4) and writes the clamped gold.
- Addresses given as hexadecimal strings (`int(address, 16)`): addresses are numbers in the model.
- `SlotTables.SlotTable`: the two tables of a category are separate arrays of decoded values, so overlaps between tables in the one real RAM (such as the spent-mini-medals counter inside the common count table) are recorded by a lemma but not reflected in the state; which `TableLayout` each category gets is left open because the source never defines it.
- Loading the item data file and JSON decoding: the decoded class maps are given as `ItemsJson`.
- The host framework's item classification enumeration: only its three members that the catalogue uses.
- The location catalogue (worlds/dqix/Locations.py) and the world registration stubs (worlds/dqix/__init__.py): they hold no logic of the inventory engine.
- Logging and the printed change message: a change is the returned `MoneyChanged` value.
- Experience updates per character and vocation, and a received-items queue with a processed index: neither exists in the code; `grant_experience` only computes an amount.
- `Client.DQIXClient.GameWatcher`: the context's `server` is reduced to a connected flag.
- Concurrency: the polling loop is single-threaded and each call is modelled as atomic.
