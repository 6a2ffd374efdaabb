# GigaDORAM, modelled and proved in Dafny

GigaDORAM is a three-party oblivious RAM: a linear *speed cache* in front of a hierarchy of oblivious hash
tables that is rebuilt like an odometer, over replicated secret shares. This project states what its parts
compute and proves it, from the bit tricks inside the cipher to whole runs of the memory.

## What is modelled

* **The hierarchy** (`Doram`, `Invariants`): the steps of `GigaDoram` as functions on a state, with an
  outcome for every call: a result, a refusal (an `ensure!`, no change), or a crash (any assertion of the
  source, an index out of range, an overflow). `Accessing`, `Collect`, `Rows`, `Rebuilding`, `Sizes` prove
  that an access and a rebuild keep the invariants; `Refinement`, `Growing` and `Batching` put them together;
  `Clocks` counts what the calls alone determine, and `Runs` proves that every run is the run of a plain map
  and such a clock, call by call. `Witnesses` reaches the two states in which a sort is too long. `GigaDorams`, `OhTables` and
  `SpeedCaches` are the same things as objects whose methods change their fields, each proved to take the
  model's step. The invariants: at most one live copy of every address; no address is asked from a
  table with its real tag twice (`NoRepeats`, through the alibi bits); every live level has spent
  `fill_time * sum(b_i * amp^i) + stored - stash` queries; the digits count the rebuilds; the cached keys are
  those of the live levels.
* **The hash tables** (`Tables`, `OhTables`, `ChtLookup`): the builder shuffle, the cuckoo table, the receiver
  shuffle and the stash, composed; the lookup circuit on bits.
* **The cuckoo builder** (`Orientation`, `Search`, `Cht`): the depth-first search over arrays, proved to
  place, to terminate and to stash as few inputs as any assignment can.
* **Shares** (`Shares`, `Permutations`, `Shuffling`, `Sorting`): the three parties' replicated vectors, party i
  holding components i and i-1. What opens is proved for all masks and all permutations.
* **LowMC** (`LowMc`, `PackedLowMc`, `LaneLowMc`): one reference cipher for all matrices and constants, and the
  packed, bit-sliced and byte-lane forms that open to it. `ZeroTest` is the equality test on shares;
  `FusedQueries` and `FusedRounds` are the cache query hidden in the cipher's rounds.

`dafny verify dfyconfig.toml` verifies everything.

## What is assumed

* `Rebuilding.Good`, `GigaDorams.Fair`: random permutations are permutations, and a stash choice names distinct
  elements (`Runs.GoodExists` shows it can be met). In the model of whole runs a cuckoo table fits its stash;
  the object `GigaDoram` reports a table that does not as a failure, and its contracts say exactly when.
* `OhTables.Ideal`, `OhTables.BlankTag`: blocks have 128 bits; over the finite set of keys drawn in a run and all
  32-bit addresses, tags of different keys or addresses differ in their top 96 bits and are not zero there, and
  no random dummy tag equals one of them (`OhTables.IdealExists`, `GigaDorams.FairExists`).
* `Shuffling.Together`: neighbouring parties hold the same shared permutation, which the source gives when
  no draw of `sample_indices` is rejected.
* Addresses are below 2^N, and distinct within a batch.

## Where the code is stricter than its comments

* `grow_on_demand` is documented for any moment. On a hierarchy with no stash and nothing stored it is refused,
  since there is no row to grow (`Growing.BlankRefused`); `Growing.GrowOnDemandOk` says exactly when.
* A configuration may have 31 address bits. Without an initial bottom level, the second rebuild of its bottom
  would sort 2^32 rows, whose 1-based positions do not fit their 32 bits: `Refinement.SortOverflows` is the
  exact condition, and `Growing.GrowOverflows` that for growing. Both are reached (`Witnesses.SortReached`,
  `Witnesses.GrowReached`), and `Clocks` says from the counters when.

## Model

| member | source | states |
|---|---|---|
| Runs.NewRefinesMap | crates/doram/src/lib.rs:652-820 | From a hierarchy created empty, every sequence of reads, writes, batches, natural and on-demand grows runs exactly as on a plain map with a clock: each call succeeds, is refused or fails as the map and the clock say, with the same answer, and at the end the state represents the map. The calls only have to keep to the address space of the moment, grown or not, and to distinct addresses within a batch; there is no bound on its size |
| Runs.FullRefinesMap | crates/doram/src/lib.rs:260-303 | The same whole-run statement from a hierarchy created with a value for every address: the map starts with the given values |
| Runs.RunOk | crates/doram/src/lib.rs:501-820 | The same from any reachable state: a run of legal calls is the run of the map, the first failure included |
| Runs.TameRun | crates/doram/src/lib.rs:501-820 | Legal calls never fail on a hierarchy created full, of any size, nor on one that stays within 2^30 addresses |
| Runs.StepOk | crates/doram/src/lib.rs:501-744 | One legal call from any reachable state: it succeeds, is refused or fails exactly as the map and the clock say; a grow is refused exactly unless it is by one bit and, naturally, at a full collapse or, on demand, from anything stored |
| Runs.EachOk | crates/doram/src/lib.rs:305-325 | Any list of single accesses succeeds exactly if none of them has to sort 2^32 rows, which the counters tell beforehand; then it answers like the map |
| Runs.BatchOk | crates/doram/src/lib.rs:352-378 | A batch of distinct addresses is refused exactly if empty, fails exactly if one of its accesses would have to sort 2^32 rows, and otherwise answers like the map |
| Clocks.AccessTicks | crates/doram/src/lib.rs:652-744 | Every access moves the counters on by one tick, and fails exactly where the counters say so |
| Clocks.TurnIs | crates/doram/src/lib.rs:822-841 | The rebuild target is the bottom exactly on the last of every amp^(L-1) rebuilds |
| Clocks.DigitsAre | crates/doram/src/lib.rs:822-907 | All digits, and so which levels are live, follow from the number of rebuilds and whether there is a bottom |
| Clocks.CollectedIs | crates/doram/src/lib.rs:579-594 | How many rows growing on demand collects follows from the counters alone |
| Clocks.GrowFailsIs | crates/doram/src/lib.rs:1043-1065 | The sort of growing on demand is too long exactly if the hierarchy was not created full and more than 2^31 rows are collected |
| Clocks.BlankIs | crates/doram/src/lib.rs:591 | There is nothing to grow exactly if the cache is empty, there is no bottom, and the rebuilds make whole turns |
| Witnesses.SortReached | crates/doram/src/lib.rs:1043-1065 | A reachable state, after two fills of the cache of any single-level hierarchy of 2^31 addresses, in which the next access has to sort 2^32 rows |
| Witnesses.GrowReached | crates/doram/src/lib.rs:1043-1065 | A reachable state, five calls after creation, in which growing on demand has to sort more than 2^31 rows |
| Witnesses.LadderExists | crates/doram/src/lib.rs:167-197 | Configurations for that run exist |
| Witnesses.LargestExists | crates/doram/src/lib.rs:167-197 | A single-level configuration of 2^31 addresses exists |
| Runs.GoodExists | crates/primitives/src/array_shuffle.rs:19-33 | The assumption made on the random choices can be met |
| Refinement.AccessOk | crates/doram/src/lib.rs:652-744 | An access from any reachable state succeeds if and only if it is not the 2^32-row sort of a full cache; it returns the last value written, the new state represents the updated map and keeps the invariants, and the rebuild counter advances exactly if the cache was full |
| Refinement.RebuildOk | crates/doram/src/lib.rs:746-820 | A rebuild of a full cache succeeds if and only if it does not have to sort 2^32 rows, represents the same map afterwards, keeps every invariant and leaves a cache with exactly the stash in it |
| Accessing.AccessNowOk | crates/doram/src/lib.rs:671-743 | With room in the cache an access never fails: the touched, budget and capacity assertions hold, and the state after it is exactly one row more in the cache and one query more in every level |
| Accessing.QueryPresent | crates/doram/src/lib.rs:698-726 | Walking the levels for an address not in the cache delivers its value from the one level where it is live, or nothing if it is live nowhere, and no slot is selected twice |
| Accessing.QueryAbsent | crates/doram/src/lib.rs:698-726 | Walking the levels after the address was found changes nothing of the record, and every level still spends one query |
| Accessing.BudgetLeft | crates/data-structures/src/ohtable.rs:220-240 | While the cache has room, every level has an unspent dummy left |
| Accessing.SteppedUnique | crates/doram/src/lib.rs:702-730 | An access keeps at most one live copy of every real address |
| Accessing.SteppedNoRepeats | crates/doram/src/lib.rs:702-719 | An access keeps the invariant that an address asked from a table is afterwards masked by a copy nearer to the cache that carries no alibi for it, so that it is never asked with its real tag again |
| Collect.CollectedFacts | crates/doram/src/lib.rs:756-792 | The rows a rebuild collects are the cache and all spent levels: they always can be extracted and padded, number exactly the cache size plus the levels' element counts, and hold exactly the live addresses of the cache and those levels with their values |
| Collect.GatherFacts | crates/doram/src/lib.rs:763-779 | Extracting and padding the levels below the target never fails and conserves their live (address, value) pairs |
| Collect.CollectedSize | crates/doram/src/lib.rs:802-806 | Rebuilding into non-bottom level r assembles exactly (b_r + 1) * amp^r * S rows, so the size assertion holds |
| Collect.CollectedBottomSize | crates/doram/src/lib.rs:756-801 | Rebuilding into the bottom assembles N rows, or 2N if the bottom is live |
| Collect.FinalizeSorted | crates/doram/src/lib.rs:1043-1072 | Sorting and truncating to 2^N drops only dummies: the result holds the same real rows with the same values, has pairwise distinct addresses and no alibis, and is full whenever the input was long enough |
| Collect.FinalizeFiltered | crates/doram/src/lib.rs:1016-1041 | Where every address is present, the filter of the initial-bottom branch finds exactly 2^N real rows, all distinct and with their values |
| Rows.RelabelKeeps | crates/doram/src/lib.rs:945-972 | Relabelling never runs past 32 bits, keeps all real rows, and makes all addresses distinct |
| Rows.CutKeeps | crates/doram/src/lib.rs:1043-1069 | The stable partition truncated to 2^N keeps every real row, since at most 2^N real addresses exist |
| Rows.CountReal | crates/doram/src/lib.rs:1027-1038 | Pairwise distinct real rows number at most 2^N, and exactly 2^N if every address is held |
| Rebuilding.RebuiltUnique | crates/doram/src/lib.rs:746-820 | A rebuild keeps at most one live copy of every real address |
| Rebuilding.RebuiltNoRepeats | crates/doram/src/lib.rs:909-923 | A rebuild keeps the no-repeat invariant, through the alibi bit that every stashed row gets for the new level |
| Rebuilding.RebuiltRepresents | crates/doram/src/lib.rs:746-820 | A rebuild conserves the represented map |
| Rebuilding.RebuiltLevels | crates/doram/src/lib.rs:898-931 | After a rebuild every live level again satisfies the dummy-budget equation for its digit |
| Rebuilding.RebuiltOdometer | crates/doram/src/lib.rs:822-907 | After a rebuild the digits below the bottom again add up to the number of rebuilds modulo amp^(L-1) |
| Rebuilding.DeletesEmpty | crates/doram/src/lib.rs:898-907 | Deleting the levels below the target clears their digits, and nothing above the target changes |
| Sizes.TargetFacts | crates/doram/src/lib.rs:822-841 | The rebuild target is the first level whose digit can still grow: all digits below it are full |
| Sizes.CarrySum | crates/doram/src/lib.rs:822-907 | Carrying into the target adds exactly one to the digits' base-amp value |
| Sizes.BudgetSpent | crates/doram/src/lib.rs:925-931 | When the cache is full, a level with only full digits below it has spent exactly amp^l * fill_time queries |
| Sizes.Capacity | crates/doram/src/lib.rs:856-880 | For every validated configuration, level and digit the table parameters pass validation: twice the column length covers elements and dummies, and each column is longer than the load factor times the elements |
| Sizes.SpaceFits | crates/doram/src/lib.rs:167-197 | In a validated configuration all addresses and dummy labels fit in 32 bits |
| Odometers.DigitsCountRebuilds | crates/doram/src/lib.rs:822-907 | In every reachable state digit l below the bottom is the l-th base-amp digit of the number of rebuilds since the hierarchy was created or last grown, and the level is empty if and only if that digit is 0 |
| Batching.BatchIsSequence | crates/doram/src/lib.rs:352-490 | For pairwise distinct addresses a batch, with its capacity splitting and rebuilds in between, succeeds exactly if the operations one at a time do, with the same outputs and the same state up to the cached keys |
| Batching.ChunkOk | crates/doram/src/lib.rs:380-490 | A chunk that fits the cache returns and leaves what its operations one at a time would |
| Batching.SplitMany | crates/doram/src/lib.rs:440-466 | Querying the levels for many addresses with one key grid is querying them for the first address and then for the others |
| Batching.RowsSplit | crates/data-structures/src/speed_cache.rs:106-182 | For distinct addresses the simultaneous cache queries and the appended rows equal those of the first query followed by the others |
| Batching.RebuildSame | crates/doram/src/lib.rs:746-820 | A rebuild does not depend on the cached keys, and leaves none |
| Batching.ChunkKeys | crates/doram/src/lib.rs:397-405 | A chunk leaves a batch-key cache that matches its count and the live levels |
| Growing.NewOk | crates/doram/src/lib.rs:242-258 | A new hierarchy is reachable and represents the empty map |
| Growing.NewWithBottomOk | crates/doram/src/lib.rs:260-303 | Creating with an initial bottom level is refused if and only if the number of values is not 2^N, and otherwise represents exactly those values |
| Growing.GrowNaturallyOk | crates/doram/src/lib.rs:510-556 | Growing naturally is refused exactly unless it is by one bit at a full collapse; otherwise it always succeeds, every old address keeps its value, new addresses have the default, and all invariants hold under the new configuration with the rebuild counter at 0 |
| Growing.GrowOnDemandOk | crates/doram/src/lib.rs:565-598 | Growing on demand from any reachable state: refused exactly unless by one bit and with anything stored; it cannot sort exactly if the collected rows round up to 2^32 or more; otherwise it re-establishes every invariant for the same map |
| Growing.BlankRefused | crates/doram/src/lib.rs:591 | A concrete hierarchy with no stash and nothing stored yet on which growing on demand is refused, although it is reachable |
| Growing.BlankRefusedAny | crates/doram/src/lib.rs:591 | Every blank reachable state is refused by growing on demand |
| Growing.EverythingFacts | crates/doram/src/lib.rs:579-594 | What growing on demand collects, spent levels or not, is exactly one copy of every live address with its value, plus dummies; it is empty if and only if the hierarchy is blank |
| Growing.Cleansed | crates/doram/src/lib.rs:974-1073 | All copies, cleansed and widened, hold the whole map: the filter keeps all real rows, the sort drops only dummies, and new addresses get the default |
| Growing.WidenedSorted | crates/doram/src/lib.rs:601-650 | Padding and relabelling in the larger space keeps every old address and gives distinct labels outside the new address space |
| Tables.BuildOk | crates/data-structures/src/ohtable.rs:191-218 | Building on distinct addresses succeeds, with every unstashed row live under its value, nothing else live, the stash equal to the chosen rows, no query spent and every table invariant |
| Tables.QueryOk | crates/data-structures/src/ohtable.rs:220-292 | Within budget and for an address not asked before, a query finds exactly a live element, returns its record or the zero record, never selects a touched slot, and spends one dummy in the budget whether or not it finds |
| Tables.ExtractFacts | crates/data-structures/src/ohtable.rs:384-420 | The untouched rows are, in number, all slots minus stash and queries, pairwise distinct in their real addresses, and hold exactly the live elements with their values |
| Caches.MatchOne | crates/data-structures/src/speed_cache.rs:41-104 | With one matching row the exclusive ors over all rows deliver exactly that row's record and a found bit |
| Caches.MaskedOnce | crates/data-structures/src/speed_cache.rs:106-182 | For distinct queries the accumulated removal masks turn exactly the matching rows into the sentinel |
| Caches.WriteAppends | crates/data-structures/src/speed_cache.rs:210-226 | Writing is the one change that appends the rows and leaves the unused part of the cache alone |
| Caches.SkippedRows | crates/data-structures/src/speed_cache.rs:228-234 | Skipping in a new cache stores dummies only |
| Cht.Build | crates/data-structures/src/cht.rs:48-152 | The cuckoo builder terminates and succeeds if and only if there are at least `stash_size` inputs and some assignment of inputs to their own slots leaves at most `stash_size` out; then every input is in one of its two slots or in the stash, no two share a slot, all other slots are empty, and the stash lists the indices of exactly the others, in order |
| Cht.Orient | crates/data-structures/src/cht.rs:72-122 | The search marks every edge once: afterwards every component is connected, closed and settled |
| Cht.Explore | crates/data-structures/src/cht.rs:78-110 | The depth-first search from a vertex visits each vertex once and leaves a spanning tree with at most one extra edge kept and all others stashed |
| Cht.Reorient | crates/data-structures/src/cht.rs:112-121 | The walk to the root terminates and moves every edge on the path, after which no slot of the component is claimed twice |
| Cht.BuildAdjacency | crates/data-structures/src/cht.rs:53-70 | The adjacency lists name, for every vertex, exactly edges that touch it, with their other ends, and miss none |
| Cht.CountMarked | crates/data-structures/src/cht.rs:124-127 | The running count is the number of edges marked stashed |
| Cht.Fill | crates/data-structures/src/cht.rs:129-152 | Filling places every oriented edge and pads the stash with placed inputs up to exactly its size, if and only if there are enough inputs and few enough stashed edges |
| Orientation.Optimal | crates/data-structures/src/cht.rs:77-127 | No assignment of inputs to their own slots leaves fewer out than the search stashes |
| Orientation.StashedIsExcess | crates/data-structures/src/cht.rs:77-127 | The number of stashed edges is the sum over components of max(0, edges - vertices) |
| Search.TreeStep | crates/data-structures/src/cht.rs:88-97 | Taking a tree edge to a new vertex keeps the spanning-tree invariant |
| Search.CycleStep | crates/data-structures/src/cht.rs:98-103 | Meeting a visited vertex keeps the invariant: the first such edge becomes the extra edge, every later one is stashed |
| Search.SlackStep | crates/data-structures/src/cht.rs:112-121 | Moving one edge of the path up keeps the single clash, now at the parent, strictly nearer to the root |
| Search.TreeConnected | crates/data-structures/src/cht.rs:78-110 | What the parent links span is connected |
| OhTables.OhTable.Build | crates/data-structures/src/ohtable.rs:191-218 | The five phases on the object: it succeeds if and only if the shuffled tags fit the cuckoo table with its stash, and then the object represents the table built on those rows |
| OhTables.OhTable.FillPrfTags | crates/data-structures/src/ohtable.rs:422-433 | The tag column is the elements' tags followed by zeros |
| OhTables.OhTable.ShuffleBuilderOrder | crates/data-structures/src/ohtable.rs:435-474 | The builder shuffle composes three permutations on tags and rows alike and reads the dummies' new positions from the inversely shuffled indices |
| OhTables.OhTable.BuildCht | crates/data-structures/src/ohtable.rs:476-515 | The nonzero tags with their indices, in random order, go into the cuckoo table |
| OhTables.OhTable.ShuffleReceiverOrder | crates/data-structures/src/ohtable.rs:517-559 | The receiver shuffle applies one permutation to the rows |
| OhTables.OhTable.PlaceStash | crates/data-structures/src/ohtable.rs:561-604 | The stash takes the rows at the stashed indices' receiver positions, and exactly those slots are touched |
| OhTables.OhTable.Query | crates/data-structures/src/ohtable.rs:220-292 | Looking a tag up in the cuckoo table and opening the slot is exactly the model's query: same record, same found bit, same slot touched |
| OhTables.OhTable.QueryMany | crates/data-structures/src/ohtable.rs:294-382 | Many queries, looked up together with consecutive dummies, are the model's queries one after the other |
| OhTables.OhTable.Extract | crates/data-structures/src/ohtable.rs:384-404 | Extraction where the budget is spent returns the model's unconsumed rows |
| OhTables.OhTable.ExtractUntouched | crates/data-structures/src/ohtable.rs:406-420 | The untouched slots are collected in order |
| OhTables.LookupRefines | crates/data-structures/src/cht.rs:158-184 | For an ideal tag function and a blank random tag the table lookup returns the slot of an unstashed element of this table and found, and otherwise the next unused dummy and not found |
| OhTables.ChtHolds | crates/data-structures/src/ohtable.rs:476-604 | The composition of the shuffles with the cuckoo placement puts every unstashed element's block, carrying the index of its slot, where its tag looks for it, and nothing else |
| OhTables.InputsAreBlocks | crates/data-structures/src/ohtable.rs:476-500 | The cuckoo inputs are one block for every element, with distinct indices, whatever the permutations |
| OhTables.IdealExists | crates/data-structures/src/ohtable.rs:422-433 | Within 128 bits there are ideal tags, and a blank one beside them, for any finite set of fewer than 2^64 - 1 keys and all 32-bit addresses |
| GigaDorams.FairExists | crates/data-structures/src/ohtable.rs:422-433 | The assumptions on tags and on random choices can be met together |
| ChtLookup.CircuitLooksUp | crates/circuits/src/cht_lookup.rs:212-285 | The boolean lookup circuit on the two parties' packed words computes the first matching block's index, or the dummy, and whether exactly one block matches, for every sharing of the four values |
| ChtLookup.TagsDecide | crates/circuits/src/cht_lookup.rs:257-271 | The equality subcircuit is true if and only if the top 96 bits agree |
| ChtLookup.InputsCarry | crates/circuits/src/cht_lookup.rs:286-315 | Packing a tag with another value's index is a format from which the circuit reads back each of the four values, on shares |
| SpeedCaches.SpeedCache.Query | crates/data-structures/src/speed_cache.rs:41-104 | One pass over the rows adds up the matching records and replaces the matching addresses, as the model says |
| SpeedCaches.SpeedCache.QueryMany | crates/data-structures/src/speed_cache.rs:106-182 | All queries compare with the rows as they were, and their removal masks add up |
| SpeedCaches.SpeedCache.Write | crates/data-structures/src/speed_cache.rs:210-226 | The stored rows are the old ones followed by the new ones, and the unused rows stay |
| GigaDorams.GigaDoram.ReadAndMaybeWrite | crates/doram/src/lib.rs:652-744 | On the object: it fails exactly if the cache is full and the rebuild fails; otherwise it takes the model's step, returns what the memory holds at the address and writes through |
| GigaDorams.GigaDoram.Read | crates/doram/src/lib.rs:305-314 | A read returns the remembered value and keeps the memory |
| GigaDorams.GigaDoram.Write | crates/doram/src/lib.rs:316-325 | A write returns the value before and remembers the new one |
| GigaDorams.GigaDoram.Rebuild | crates/doram/src/lib.rs:746-820 | It fails exactly if the sort is too long or the new table overflows, and otherwise takes the model's rebuild step and keeps the memory |
| GigaDorams.GigaDoram.RebuildTarget | crates/doram/src/lib.rs:822-841 | The loop finds the model's target and whether it has to be extracted |
| GigaDorams.GigaDoram.NewOhtableOfLevel | crates/doram/src/lib.rs:843-896 | It fails exactly if the table overflows; otherwise the level holds the model's table, its digit advances, and both key caches are dropped |
| GigaDorams.GigaDoram.RemoveLevel | crates/doram/src/lib.rs:898-907 | The level is gone, a full digit is cleared, and both key caches are dropped |
| GigaDorams.GigaDoram.EnterStash | crates/doram/src/lib.rs:909-923 | The stash of the level is written to the cache with its alibi for that level |
| GigaDorams.GigaDoram.RelabelDummies | crates/doram/src/lib.rs:951-972 | Every dummy gets the label of its row, and real rows stay |
| GigaDorams.GigaDoram.FinalizeBottomLevel | crates/doram/src/lib.rs:974-1073 | The shuffle and filter, or the padding, sort, cut and relabelling, are the model's, refusal and failure included |
| GigaDorams.GigaDoram.BatchAccess | crates/doram/src/lib.rs:352-378 | Refused if and only if empty; otherwise outputs and memory are those of a plain map, unless a rebuild on the way fails, of a state that holds exactly the operations done so far |
| GigaDorams.GigaDoram.BatchAccessChunk | crates/doram/src/lib.rs:380-490 | A chunk returns and remembers what a plain map does for its operations in turn |
| GigaDorams.GigaDoram.PackBatchKeys | crates/doram/src/lib.rs:391-405 | The batch keys are reused for the same count and rebuilt from the live levels otherwise |
| GigaDorams.GigaDoram.GrowNaturally | crates/doram/src/lib.rs:510-556 | Refused exactly unless by one bit at a full collapse, without any change; fails exactly if the new bottom's table overflows; otherwise takes the model's step and keeps the memory |
| GigaDorams.GigaDoram.GrowOnDemand | crates/doram/src/lib.rs:565-598 | From any reachable state: refused exactly unless by one bit and with anything stored, without any change; fails exactly if the sort is too long or the new bottom's table overflows; otherwise takes the model's step and keeps the memory |
| GigaDorams.GigaDoram.FinishGrow | crates/doram/src/lib.rs:601-650 | The hierarchy starts over under the new configuration with the widened rows as its bottom |
| GigaDorams.GigaDoram.ReadyToGrowNaturally | crates/doram/src/lib.rs:501-503 | True if and only if the cache is full and the next rebuild goes to the bottom |
| GigaDorams.GigaDoram.New | crates/doram/src/lib.rs:242-258 | A new object is the model's new state and remembers nothing |
| GigaDorams.GigaDoram.NewWithInitialBottomLevel | crates/doram/src/lib.rs:260-303 | Refused exactly for a wrong number of values, fails exactly if the bottom's table overflows, and otherwise remembers the given values |
| GigaDorams.SortIsPartition | crates/doram/src/lib.rs:1043-1069 | The partition the oblivious sort opens to, taken with the dummy flags of the rows, is the hierarchy's stable partition |
| GigaDorams.IndicesFit | crates/data-structures/src/ohtable.rs:57-76 | Every table of a validated configuration has at most 2^32 slots, so their indices fit in a tag's low 32 bits |
| Permutations.ShuffleIsPerm | crates/primitives/src/permutation.rs:34-57 | For all in-range choices the Fisher-Yates passes are a permutation and its inverse, and `shuffle(v)[evaluate_at(j)] == v[j]` |
| Permutations.LocalPermutation.Shuffle | crates/primitives/src/permutation.rs:34-39 | The in-place pass is the shuffle of the choices |
| Permutations.LocalPermutation.InverseShuffle | crates/primitives/src/permutation.rs:41-46 | The in-place pass in the other order is its inverse |
| Permutations.LocalPermutation.EvaluateAt | crates/primitives/src/permutation.rs:48-57 | The cached inverse of the identity tells where an index goes |
| Shares.From2Opens | crates/primitives/src/types.rs:146-178 | For all masks two parties' summands become valid replicated shares of their exclusive or |
| Shares.ReshareOpens | crates/primitives/src/types.rs:121-144 | Any two parties' summands add up to the opened value |
| Shares.InputOpens | crates/primitives/src/types.rs:180-203 | For all masks an input opens to its owner's secrets |
| Shares.OpensAlike | crates/primitives/src/types.rs:77-88 | Every party opens valid shares to the same value |
| Shuffling.ShuffleMany | crates/primitives/src/array_shuffle.rs:77-118 | For all masks and permutations the forward arrays open to the composition of the three permutations and the inverse arrays to exactly its inverse, in valid shares |
| Shuffling.ApplyStepMany | crates/primitives/src/array_shuffle.rs:120-176 | One step applies the permutation known to two parties, forwards to some arrays and backwards to others, for all masks |
| Shuffling.WholeIsPerm | crates/primitives/src/array_shuffle.rs:77-118 | The composition is a permutation, and forward and inverse undo each other |
| Shuffling.InverseIdsArePositions | crates/data-structures/src/ohtable.rs:450-472 | Inversely shuffled identity indices are every row's position after the forward shuffle |
| Sorting.Sort | crates/circuits/src/oblivious_sort.rs:24-65 | For all shared bits, permutations and masks and fewer than 2^32 rows, every column opens to the stable partition by the flags, in valid shares |
| Sorting.GenBitPerm | crates/circuits/src/oblivious_sort.rs:67-101 | For all masks the shared positions open to the 1-based place of every row in the stable partition |
| Sorting.ShuffleRevealPerm | crates/circuits/src/oblivious_sort.rs:272-337 | The revealed positions are the shared ones, permuted by the composition of the three parties' permutations |
| Sorting.ShuffleRows | crates/circuits/src/oblivious_sort.rs:130-270 | The shuffled rows open to the input rows permuted by the same composition, in valid shares, for all masks |
| Sorting.ApplyInvMany | crates/circuits/src/oblivious_sort.rs:103-128 | Placing each shuffled row at its revealed position opens every column to the stable partition |
| Sorting.PositionDistinct | crates/circuits/src/oblivious_sort.rs:67-101 | No two rows have the same position |
| Sorting.PartitionAt | crates/circuits/src/oblivious_sort.rs:24-65 | Position and partition agree: the partition has row i at the position of i |
| SharedBits.AndOpens | crates/primitives/src/utils.rs:254-287 | For all masks the three local terms of a product of shared words, passed on, open to the product of the opened words |
| Sorting.LocalMulSums | crates/circuits/src/oblivious_sort.rs:78-96 | The three local product terms add up to the product of the opened values, modulo 2^32 |
| LowMc.LutStep | crates/circuits/src/lowmc/common.rs:97-104 | The table entries, each the exclusive or of the bits its index's Gray code selects, differ from one to the next by a single bit, as the code fills them |
| LowMc.WindowsAreRow | crates/circuits/src/lowmc/packed_u64.rs:117-139 | The table entries of the windows add up to the product of the round's matrix row with the block |
| LowMc.EveryMatrix | crates/circuits/src/lowmc/common.rs:27-49 | Every choice of 128 by 128 bit matrices is that of some window masks |
| LowMc.LinearPlus | crates/circuits/src/lowmc/packed_u64.rs:117-139 | The matrix product is linear, so it can be taken component by component |
| PackedLowMc.EncryptPacked | crates/circuits/src/lowmc/packed_u64.rs:39-69 | For all masks, matrices, constants, key and input sharings the 128-bit packed form opens to the reference encryption of every block, whose linear layer is the matrix product |
| PackedLowMc.SboxOpens | crates/circuits/src/lowmc/packed_u64.rs:71-115 | The masked-rotation S-box opens to the three-bit S-box everywhere and the identity on the remaining bits, for all masks |
| PackedLowMc.MaskBits | crates/circuits/src/lowmc/packed_u64.rs:90-115 | The rotation constants select exactly the first, second and third bits of every S-box |
| PackedLowMc.LinearLayer | crates/circuits/src/lowmc/packed_u64.rs:117-139 | The walk over nibble windows computes the matrix product |
| PackedLowMc.M4rLut | crates/circuits/src/lowmc/common.rs:97-104 | Every entry is the exclusive or of the input bits that the Gray code of its index selects |
| PackedLowMc.TableEntry | crates/circuits/src/lowmc/common.rs:27-49 | Bit o of a window table's entry is the exclusive or of the input bits that the Gray code of output o's mask selects |
| LaneLowMc.EncryptMany | crates/circuits/src/lowmc/bit_sliced.rs:56-101 | Bit-sliced in groups of 128 lanes, or in byte lanes of 8, any number of blocks under their keys opens to the reference encryption of each, for all masks |
| LaneLowMc.EncryptGrid | crates/circuits/src/lowmc/packed_u8_lanes.rs:89-134 | For any number of inputs and live levels the tag at [input][level] opens to the reference encryption of that input under that level's key |
| LaneLowMc.EncryptGroup | crates/circuits/src/lowmc/packed_u8_lanes.rs:136-176 | All rounds on one group of lanes, for all masks |
| LaneLowMc.FourRussians | crates/circuits/src/lowmc/bit_sliced.rs:103-120 | The table-driven multiply is the matrix product in every lane |
| LaneLowMc.FourRussiansInto | crates/circuits/src/lowmc/packed_u8_lanes.rs:192-218 | Scattering after per-lane window walks between two transposes is the matrix product in every active lane |
| LaneLowMc.FillOutLut | crates/circuits/src/lowmc/bit_sliced.rs:152-158 | In every lane, entry i is the exclusive or of the window bits that the Gray code of i selects |
| LaneLowMc.TransposeBit | crates/circuits/src/lowmc/packed_u8_lanes.rs:220-228 | Three masked exchanges transpose the 8 by 8 bits |
| LaneLowMc.SboxLayer | crates/circuits/src/lowmc/bit_sliced.rs:122-150 | The collected products, applied, open to the S-box in every lane, for all masks |
| LaneLowMc.ApplySboxAnds | crates/circuits/src/lowmc/common.rs:121-138 | The products and the sums of wires are combined as the S-box needs |
| LaneLowMc.CollectSboxAnds | crates/circuits/src/lowmc/common.rs:106-119 | The collected factors are the two other wires of each S-box output |
| LaneLowMc.CombineKeys | crates/circuits/src/lowmc/packed_u8_lanes.rs:178-190 | Lane j of the combined keys is key j |
| LaneLowMc.Slice | crates/circuits/src/lowmc/packed_u8_lanes.rs:256-272 | Lane j of the wires is block j |
| LaneLowMc.PackLanes | crates/circuits/src/lowmc/packed_u8_lanes.rs:274-290 | Packing returns the active lanes, so that packing undoes slicing |
| LaneLowMc.Regroup | crates/circuits/src/lowmc/packed_u8_lanes.rs:124-134 | The flat list is cut so that input q and level l stand at [q][l] |
| ZeroTest.IsZeroMany | crates/primitives/src/utils.rs:147-184 | For any number of words of every width 2^(k+1) of at least 8 bits and all masks, each found bit opens to whether its word opens to zero |
| ZeroTest.FoldDecides | crates/primitives/src/utils.rs:186-220 | The shifted products end with bit 0 saying whether all bits were set, for every width |
| ZeroTest.FoldOpens | crates/primitives/src/utils.rs:186-220 | One stage on shares opens to the shifted product, for all masks |
| ZeroTest.FusedAgrees | crates/circuits/src/lowmc/packed_u8_lanes_with_speed_cache.rs:273-341 | The byte schedule and the logarithmic fold compute the same bit, namely whether the word is zero |
| FusedQueries.FoundBits | crates/circuits/src/lowmc/packed_u8_lanes_with_speed_cache.rs:335-341 | After five rounds bit 0 of every value opens to whether its word is zero |
| FusedQueries.Start | crates/circuits/src/lowmc/packed_u8_lanes_with_speed_cache.rs:273-290 | The values start as the bytes of every word's complement, on shares |
| FusedRounds.FusedRound | crates/circuits/src/lowmc/packed_u8_lanes_with_speed_cache.rs:152-212 | One vector of products serves all groups of lanes and the zero test: each takes its own slice, and both advance by one round |
| FusedRounds.EncryptLaneGroups | crates/circuits/src/lowmc/packed_u8_lanes_with_speed_cache.rs:128-222 | After all rounds every active lane of every group opens to the encryption of its block, and the found bits to whether their words are zero, for all masks and numbers of groups and words |
| FusedQueries.PairsInto | crates/circuits/src/lowmc/packed_u8_lanes_with_speed_cache.rs:292-321 | The loops push the factors the round needs |
| FusedRounds.EncryptWithCaches | crates/circuits/src/lowmc/packed_u8_lanes_with_speed_cache.rs:99-126 | For any numbers of inputs, live levels, targets and rows, in one call: every tag opens to the encryption of its input under its level's key, and every target gets for each of its rows the found bit, the address if found and the record if found; there is a result exactly if there is something to encrypt and some target has a row |
| FusedQueries.QueryAlone | crates/data-structures/src/speed_cache.rs:127-160 | The query outside the cipher has the same hits |
| FusedQueries.Merge | crates/circuits/src/lowmc/packed_u8_lanes_with_speed_cache.rs:224-241 | The merged rows are those of the targets in order, each with its own query |
| FusedQueries.Split | crates/circuits/src/lowmc/packed_u8_lanes_with_speed_cache.rs:243-260 | Every target takes its own prefix |
| FusedQueries.SelectOpens | crates/primitives/src/utils.rs:222-252 | The product with a spread found bit opens to the word if found and to zero if not, for all masks |

## Left out

- Networking, timing, benchmark programs, garbling and wire encodings: no logical content; only the boolean circuit is modelled.
- Randomness quality, secrecy and simulation: masks, permutations and keys are arbitrary inputs.
- `mpc-core` multiplication, `bit_inject` and the message exchange: a replicated product is its three local terms, and a message is the value sent; rounds of messages are not counted.
- Runs.NewRefinesMap: a cuckoo table that overflows its stash is not a step of these runs; the object `GigaDoram` has it as a failure.
- GigaDorams.GigaDoram.BatchAccess: names the state a failed batch was in by what it holds and its configuration; it does not say that a batch whose later rebuild would overflow its table must fail, since which state the earlier rebuilds leave depends on their tables.
- GigaDorams.GigaDoram.ReadAndMaybeWrite: works on opened values; that shares open to them is proved for the shuffle, the sort, the cipher, the zero test, the selection and the lookup separately.
- OhTables.OhTable.Query: takes an ideal tag, where the source takes the LowMC encryption of the address; `FusedRounds.EncryptWithCaches` is about that.
- SpeedCaches.SpeedCache.Query: compares opened addresses as numbers; the share-level comparison and selection are in `FusedQueries`, on bits.
- FusedRounds.EncryptWithCaches: the selections, on wider words, are made after the rounds; in the source they share a message with the products of the sixth round.
- LaneLowMc.EncryptMany: covers the bit-sliced form and the byte lanes by a parameter for the number of lanes and the form of the linear layer.
- Growing.GrowOnDemandOk: the sort that a grow of more than 2^31 rows attempts is a crash of the model, not its wrapped result; so is the one of a rebuild.
- The concrete matrices and constants of LowMC: any window masks and any constants.
- The load factors 1.2 and 2.0 are the exact rationals 6/5 and 2, and their logarithm's rounding is exact.
- Values are words and the alibi byte is the set of levels whose bit is set; packing into field elements and blocks is not modelled.
- Batches with the same address twice, and addresses outside [0, 2^N): outside what the callers do.
- The history fields `asked`, `built`, `rebuilds` and `memory` exist in the model only, to state the invariants.
