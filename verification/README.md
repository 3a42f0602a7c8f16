# Neo4j kernel pieces, modelled in Dafny

This project models four small, sequential behaviours of the Neo4j graph database and proves
what their code and tests promise about them.

1. **Exact-depth path finding** (`PathFinding` and the `*Scenario` modules). A graph is a
   sequence of directed, typed relationships with their own identities. An expander follows
   relationships either outgoing only or in both directions, optionally restricted to one type.
   `FindAllPaths(g, x, depth, s, t)` enumerates the paths from `s` to `t` with exactly `depth`
   relationships that never visit a node twice. It is a recursive enumerator that tries
   relationships in graph order, and it is proved sound, complete and duplicate-free against
   the declarative predicate `IsSimplePathOfLength`. Parallel relationships therefore give
   distinct results even when the paths read alike. A second enumerator, `FindAllWalks`,
   allows revisits. Each fixture graph of the finder's test class is replayed as a scenario
   module. Where a test disallows loops, the module pins down the exact multiset of results.
   The hub tests allow loops, and there walks and simple paths coincide, so both enumerators
   are pinned down. The loop test allows loops too, but only what its results read as is stated
   (see "Left out").
2. **The label-scan progressor** (`LabelScan`). A label index returns entries
   `(idRange, bits)`, where `bits` is a 64-bit word marking which of the range's 64 node ids
   carry the label. `next()` offers each marked id to a client predicate, lowest first, as
   `baseNodeId + numberOfTrailingZeros(bits)` followed by `bits &= bits - 1`. It pulls the
   next entry when the word is empty and closes itself (and a closeable client) when the
   cursor is exhausted. Words are `bv64`. The ids a word marks (`Ids`) are the reference
   sequence: the progressor's state is summarised by `Pending`, the ids it still has to offer.
3. **The schema registry with its transaction overlay** (`SchemaRegistry`, `SchemaLaws`,
   `SchemaScenarios`). Indexes and constraints are keyed by a label (or relationship type) and
   a list of property keys. An open transaction sees the committed schema minus what it dropped
   plus what it created. Index and constraint writes fail with a `SchemaError` under the rules
   the kernel's schema read/write tests assert. Constraint creation is validated against node
   and relationship data. `SchemaLaws` proves an invariant every write keeps and what later
   transactions see; `SchemaScenarios` replays the tests.
4. **The single-database manager** (`DatabaseManager`). `createDatabase` succeeds at most once.
   It wires the injected facade through four collaborator steps and records the facade only
   after all of them succeed. `getDatabaseFacade` ignores its name, and `shutdownDatabase` and
   `stop` both shut the facade down without forgetting it.

`Wrappers` holds `Option` and `Result`; `TestGraphs` holds the fixture-building helpers shared
by the scenario modules.

## Model

| member | source | states |
|---|---|---|
| PathFinding.FindAllPaths | community/community-it/algo-it/src/test/java/org/neo4j/graphalgo/path/TestExactDepthPathFinder.java:92-166 | every result is a node-simple path of exactly `depth` relationships from `s` to `t` allowed by the expander, every such path is a result, and on a graph with unique relationship ids none is returned twice |
| PathFinding.FindSinglePath | community/community-it/algo-it/src/test/java/org/neo4j/graphalgo/path/TestExactDepthPathFinder.java:70-82 | the single search returns a path exactly when one exists, and what it returns is one of the paths `FindAllPaths` returns |
| PathFinding.FindAllWalks | community/community-it/algo-it/src/test/java/org/neo4j/graphalgo/path/TestExactDepthPathFinder.java:278-293 | a reference enumeration of walks of exactly `depth` relationships (revisits allowed): sound, complete and duplicate-free |
| PathFinding.Extensions | community/community-it/algo-it/src/test/java/org/neo4j/graphalgo/path/TestExactDepthPathFinder.java:92-166 | every continuation it enumerates extends the given path by exactly `k` valid steps, ends at the target, and stays node-simple when loops are disallowed |
| PathFinding.ExtensionsComplete | community/community-it/algo-it/src/test/java/org/neo4j/graphalgo/path/TestExactDepthPathFinder.java:92-166 | every valid continuation by `k` steps to the target is enumerated |
| PathFinding.ExtensionsDistinct | community/community-it/algo-it/src/test/java/org/neo4j/graphalgo/path/TestExactDepthPathFinder.java:207-227 | with unique relationship ids no continuation is enumerated twice, so parallel relationships give separate results |
| PathFinding.FindAllPathsExactly | community/community-it/algo-it/src/test/java/org/neo4j/graphalgo/path/TestExactDepthPathFinder.java:92-166 | when a duplicate-free list holds exactly the simple paths of that length, the results are that list as a multiset |
| PathFinding.ConstructorsNest | community/community-it/algo-it/src/test/java/org/neo4j/graphalgo/path/TestExactDepthPathFinder.java:67 | the four expander constructors nest: type-and-direction within type-only and within direction-only, both within all types and directions; a type-only expander follows both directions |
| PathFinding.FollowWithin | community/community-it/algo-it/src/test/java/org/neo4j/graphalgo/path/TestExactDepthPathFinder.java:244-253 | a relationship a narrower expander follows is followed by every wider one, to the same node |
| PathFinding.OutgoingIsForwardHalf | community/community-it/algo-it/src/test/java/org/neo4j/graphalgo/path/TestExactDepthPathFinder.java:106-111 | an outgoing expander follows exactly the steps the both-directions expander of the same type follows away from the current node |
| PathFinding.FollowBothWays | community/community-it/algo-it/src/test/java/org/neo4j/graphalgo/path/TestExactDepthPathFinder.java:269-275 | `forType` and `allTypesAndDirections` follow both directions: a relationship leads from `n` to `m` exactly when it leads from `m` back to `n` |
| PathFinding.PathWithin | community/community-it/algo-it/src/test/java/org/neo4j/graphalgo/path/TestExactDepthPathFinder.java:244-253 | every simple path a narrower expander allows is a simple path of the same length for every wider expander |
| HubScenario.OnlyTwoRoutes | community/community-it/algo-it/src/test/java/org/neo4j/graphalgo/path/TestExactDepthPathFinder.java:45-63 | on the SOURCE/TARGET fixture the only simple paths of length 4 are `SOURCE,z,9,0,TARGET` and `SOURCE,SUPER,r,SPIDER,TARGET` |
| HubScenario.FindAllAtDepthFour | community/community-it/algo-it/src/test/java/org/neo4j/graphalgo/path/TestExactDepthPathFinder.java:84-90 | with loops disallowed, all paths at depth 4 are exactly those two routes, once each; the tests' own finder allows loops, which `HubScenario.WalksAtDepthFour` covers |
| HubScenario.FindSingleAtDepthFour | community/community-it/algo-it/src/test/java/org/neo4j/graphalgo/path/TestExactDepthPathFinder.java:70-82 | with loops disallowed the single search finds a path, and it is one of the two routes; for the tests' loops-allowed finder see `HubScenario.FirstWalkAtDepthFour` |
| HubScenario.OnlyTwoWalks | community/community-it/algo-it/src/test/java/org/neo4j/graphalgo/path/TestExactDepthPathFinder.java:45-68 | on the SOURCE/TARGET fixture, even with revisits allowed as the tests' finder does, the only walks of length 4 are the same two routes |
| HubScenario.WalksAtDepthFour | community/community-it/algo-it/src/test/java/org/neo4j/graphalgo/path/TestExactDepthPathFinder.java:84-90 | with loops allowed, as `newFinder()` builds it, all walks at depth 4 are exactly the two routes, once each |
| HubScenario.FirstWalkAtDepthFour | community/community-it/algo-it/src/test/java/org/neo4j/graphalgo/path/TestExactDepthPathFinder.java:70-82 | with loops allowed a single search, which returns the first walk found, finds one of the two routes |
| ThreeRoutesScenario.OnlyShortRouteOutgoing | community/community-it/algo-it/src/test/java/org/neo4j/graphalgo/path/TestExactDepthPathFinder.java:106-107 | following outgoing relationships, `a,b,c,g` is the only path of length 3 from a to g |
| ThreeRoutesScenario.Depth3Outgoing | community/community-it/algo-it/src/test/java/org/neo4j/graphalgo/path/TestExactDepthPathFinder.java:106-107 | outgoing at depth 3 the result is exactly `a,b,c,g` |
| ThreeRoutesScenario.OnlyMiddleRouteOutgoing | community/community-it/algo-it/src/test/java/org/neo4j/graphalgo/path/TestExactDepthPathFinder.java:108-109 | following outgoing relationships, `a,d,e,f,g` is the only path of length 4 |
| ThreeRoutesScenario.Depth4Outgoing | community/community-it/algo-it/src/test/java/org/neo4j/graphalgo/path/TestExactDepthPathFinder.java:108-109 | outgoing at depth 4 the result is exactly `a,d,e,f,g` |
| ThreeRoutesScenario.OnlyLongRouteOutgoing | community/community-it/algo-it/src/test/java/org/neo4j/graphalgo/path/TestExactDepthPathFinder.java:110-111 | following outgoing relationships, `a,h,i,j,k,g` is the only path of length 5 |
| ThreeRoutesScenario.Depth5Outgoing | community/community-it/algo-it/src/test/java/org/neo4j/graphalgo/path/TestExactDepthPathFinder.java:110-111 | outgoing at depth 5 the result is exactly `a,h,i,j,k,g` |
| ThreeRoutesScenario.OnlyShortRouteAny | community/community-it/algo-it/src/test/java/org/neo4j/graphalgo/path/TestExactDepthPathFinder.java:127-129 | in all directions, `a,b,c,g` is the only simple path of length 3 |
| ThreeRoutesScenario.Depth3Any | community/community-it/algo-it/src/test/java/org/neo4j/graphalgo/path/TestExactDepthPathFinder.java:127-129 | in all directions at depth 3 the result is exactly `a,b,c,g` |
| ThreeRoutesScenario.OnlyMiddleRouteAny | community/community-it/algo-it/src/test/java/org/neo4j/graphalgo/path/TestExactDepthPathFinder.java:130-132 | in all directions, `a,d,e,f,g` is the only simple path of length 4 |
| ThreeRoutesScenario.Depth4Any | community/community-it/algo-it/src/test/java/org/neo4j/graphalgo/path/TestExactDepthPathFinder.java:130-132 | in all directions at depth 4 the result is exactly `a,d,e,f,g` |
| ThreeRoutesScenario.OnlyLongRouteAny | community/community-it/algo-it/src/test/java/org/neo4j/graphalgo/path/TestExactDepthPathFinder.java:133-135 | in all directions, `a,h,i,j,k,g` is the only simple path of length 5 |
| ThreeRoutesScenario.Depth5Any | community/community-it/algo-it/src/test/java/org/neo4j/graphalgo/path/TestExactDepthPathFinder.java:133-135 | in all directions at depth 5 the result is exactly `a,h,i,j,k,g` |
| EvenChainScenario.OnlyRoute | community/community-it/algo-it/src/test/java/org/neo4j/graphalgo/path/TestExactDepthPathFinder.java:138-151 | on the chain a,b,c the only simple path of length 2 from a to c is `a,b,c` |
| EvenChainScenario.Depth2 | community/community-it/algo-it/src/test/java/org/neo4j/graphalgo/path/TestExactDepthPathFinder.java:138-151 | at the even depth 2 the result is exactly `a,b,c` |
| OddChainScenario.OnlyRoute | community/community-it/algo-it/src/test/java/org/neo4j/graphalgo/path/TestExactDepthPathFinder.java:153-166 | on the chain a,b,c,d the only simple path of length 3 from a to d is `a,b,c,d` |
| OddChainScenario.Depth3 | community/community-it/algo-it/src/test/java/org/neo4j/graphalgo/path/TestExactDepthPathFinder.java:153-166 | at the odd depth 3 the result is exactly `a,b,c,d` |
| NeighbourScenario.OnlyRoute | community/community-it/algo-it/src/test/java/org/neo4j/graphalgo/path/TestExactDepthPathFinder.java:168-184 | between two neighbours the only path of length 1 is `a,b` |
| NeighbourScenario.Depth1 | community/community-it/algo-it/src/test/java/org/neo4j/graphalgo/path/TestExactDepthPathFinder.java:168-184 | at depth 1 the result is exactly `a,b` |
| NeighbourNotAloneScenario.OnlyRoute | community/community-it/algo-it/src/test/java/org/neo4j/graphalgo/path/TestExactDepthPathFinder.java:186-205 | with a second neighbour c of a, `a,b` is still the only path of length 1 from a to b |
| NeighbourNotAloneScenario.Depth1 | community/community-it/algo-it/src/test/java/org/neo4j/graphalgo/path/TestExactDepthPathFinder.java:186-205 | at depth 1 the result is exactly `a,b` |
| ParallelRelationshipsScenario.OnlyRoutes | community/community-it/algo-it/src/test/java/org/neo4j/graphalgo/path/TestExactDepthPathFinder.java:207-227 | with two parallel a-b relationships, the paths of length 1 from a to b are the two one-step paths, one per relationship |
| ParallelRelationshipsScenario.Depth1 | community/community-it/algo-it/src/test/java/org/neo4j/graphalgo/path/TestExactDepthPathFinder.java:207-227 | at depth 1 the result holds both paths, once each |
| ParallelRelationshipsScenario.RoutesReadAlike | community/community-it/algo-it/src/test/java/org/neo4j/graphalgo/path/TestExactDepthPathFinder.java:221-226 | the two results are different paths whose node sequences are both `a,b` |
| LayoutScenario.OnlyDepth3Route | community/community-it/algo-it/src/test/java/org/neo4j/graphalgo/path/TestExactDepthPathFinder.java:247 | along outgoing R1 relationships, `a,c,g,k` is the only path of length 3 from a to k |
| LayoutScenario.Depth3 | community/community-it/algo-it/src/test/java/org/neo4j/graphalgo/path/TestExactDepthPathFinder.java:247 | at depth 3 the result is exactly `a,c,g,k` |
| LayoutScenario.OnlyDepth4Route | community/community-it/algo-it/src/test/java/org/neo4j/graphalgo/path/TestExactDepthPathFinder.java:248 | `a,b,d,j,k` is the only path of length 4 |
| LayoutScenario.Depth4 | community/community-it/algo-it/src/test/java/org/neo4j/graphalgo/path/TestExactDepthPathFinder.java:248 | at depth 4 the result is exactly `a,b,d,j,k` |
| LayoutScenario.NoRouteOfLength5 | community/community-it/algo-it/src/test/java/org/neo4j/graphalgo/path/TestExactDepthPathFinder.java:249 | no simple path of length 5 leads from a to k |
| LayoutScenario.Depth5 | community/community-it/algo-it/src/test/java/org/neo4j/graphalgo/path/TestExactDepthPathFinder.java:249 | at depth 5 the result is empty |
| LayoutScenario.OnlyDepth6Route | community/community-it/algo-it/src/test/java/org/neo4j/graphalgo/path/TestExactDepthPathFinder.java:250 | `a,b,d,h,i,j,k` is the only path of length 6 |
| LayoutScenario.Depth6 | community/community-it/algo-it/src/test/java/org/neo4j/graphalgo/path/TestExactDepthPathFinder.java:250 | at depth 6 the result is exactly `a,b,d,h,i,j,k` |
| LayoutScenario.OnlyDepth7Route | community/community-it/algo-it/src/test/java/org/neo4j/graphalgo/path/TestExactDepthPathFinder.java:251 | `a,b,e,f,h,i,j,k` is the only path of length 7 |
| LayoutScenario.Depth7 | community/community-it/algo-it/src/test/java/org/neo4j/graphalgo/path/TestExactDepthPathFinder.java:251 | at depth 7 the result is exactly `a,b,e,f,h,i,j,k` |
| LayoutScenario.NoRouteOfLength8 | community/community-it/algo-it/src/test/java/org/neo4j/graphalgo/path/TestExactDepthPathFinder.java:252 | no simple path of length 8 leads from a to k |
| LayoutScenario.Depth8 | community/community-it/algo-it/src/test/java/org/neo4j/graphalgo/path/TestExactDepthPathFinder.java:252 | at depth 8 the result is empty |
| LoopScenario.OnlyShortRoutes | community/community-it/algo-it/src/test/java/org/neo4j/graphalgo/path/TestExactDepthPathFinder.java:268-270 | on the chain a,b,c,d,b,c,e the paths of length 3 from a to e are `a,b,c,e` through either b-c relationship |
| LoopScenario.Depth3 | community/community-it/algo-it/src/test/java/org/neo4j/graphalgo/path/TestExactDepthPathFinder.java:268-270 | at depth 3 the result is those two paths, once each, both reading `a,b,c,e` |
| LoopScenario.OnlyDetourRoute | community/community-it/algo-it/src/test/java/org/neo4j/graphalgo/path/TestExactDepthPathFinder.java:271-273 | `a,b,d,c,e` is the only simple path of length 4 |
| LoopScenario.Depth4 | community/community-it/algo-it/src/test/java/org/neo4j/graphalgo/path/TestExactDepthPathFinder.java:271-273 | at depth 4 the result is exactly `a,b,d,c,e` |
| LoopScenario.NoSimpleRouteOfLength6 | community/community-it/algo-it/src/test/java/org/neo4j/graphalgo/path/TestExactDepthPathFinder.java:274-275 | no simple path of length 6 exists: the only walk of that length revisits b and c |
| LoopScenario.Depth6 | community/community-it/algo-it/src/test/java/org/neo4j/graphalgo/path/TestExactDepthPathFinder.java:274-275 | with loops disallowed, depth 6 gives no result |
| LoopScenario.OnlyLoopingWalks | community/community-it/algo-it/src/test/java/org/neo4j/graphalgo/path/TestExactDepthPathFinder.java:288-292 | every outgoing walk of length 6 from a to e reads `a,b,c,d,b,c,e`; the four listed walks differ only in which b-c relationship each pass takes |
| LoopScenario.LoopsAllowedDepth6 | community/community-it/algo-it/src/test/java/org/neo4j/graphalgo/path/TestExactDepthPathFinder.java:288-292 | the reference walk enumeration at depth 6 is exactly those four walks |
| LoopScenario.LoopsAllowedDepth6Reads | community/community-it/algo-it/src/test/java/org/neo4j/graphalgo/path/TestExactDepthPathFinder.java:288-292 | with loops allowed there is a result at depth 6, and every result reads `a,b,c,d,b,c,e` |
| LabelScan.IdsClearLowest | community/label-index/src/main/java/org/neo4j/internal/index/label/LabelScanValueIndexProgressor.java:61 | `bits & (bits - 1)` marks exactly the ids of `bits` without the lowest one |
| LabelScan.IdsFirst | community/label-index/src/main/java/org/neo4j/internal/index/label/LabelScanValueIndexProgressor.java:60-62 | the lowest id a non-zero word marks is `base + numberOfTrailingZeros(bits)` |
| LabelScan.IdsEmpty | community/label-index/src/main/java/org/neo4j/internal/index/label/LabelScanValueIndexProgressor.java:58 | a word marks no id exactly when it is zero, so the inner loop stops exactly when the word is used up |
| LabelScan.IdsInRange | community/label-index/src/main/java/org/neo4j/internal/index/label/LabelScanValueIndexProgressor.java:58-66 | the ids of one word are strictly increasing and lie in `[base, base + 64)` |
| LabelScan.Candidate | community/label-index/src/main/java/org/neo4j/internal/index/label/LabelScanValueIndexProgressor.java:60-62 | the id offered is the first of the ids the current word still marks |
| LabelScan.Consume | community/label-index/src/main/java/org/neo4j/internal/index/label/LabelScanValueIndexProgressor.java:61 | clearing the lowest bit removes exactly the offered id from the current word and changes nothing else |
| LabelScan.ConsumePending | community/label-index/src/main/java/org/neo4j/internal/index/label/LabelScanValueIndexProgressor.java:58-62 | one inner-loop step offers the first pending id and leaves the rest pending |
| LabelScan.Take | community/label-index/src/main/java/org/neo4j/internal/index/label/LabelScanValueIndexProgressor.java:60-61 | one inner-loop step splits a word's ids into the id offered and the ids left, one fewer |
| LabelScan.OfferWord | community/label-index/src/main/java/org/neo4j/internal/index/label/LabelScanValueIndexProgressor.java:58-66 | the ids offered are a prefix of the word's ids in order; when the client accepts, the last one offered is accepted and all before it were rejected; otherwise the whole word was offered, all rejected, and the word is zero; a zero word offers nothing |
| LabelScan.Load | community/label-index/src/main/java/org/neo4j/internal/index/label/LabelScanValueIndexProgressor.java:80-82 | loading moves the cursor by one, sets `baseNodeId = idRange * 64` and `bits` to the entry's word, and after an empty word leaves the pending ids unchanged |
| LabelScan.Close | community/label-index/src/main/java/org/neo4j/internal/index/label/LabelScanValueIndexProgressor.java:89-97 | closing closes the progressor and calls the client's `close()` once more exactly when it is an `AutoCloseablePlus`; the cursor position and the ids still pending are unchanged |
| LabelScan.CloseAgain | community/label-index/src/main/java/org/neo4j/internal/index/label/LabelScanValueIndexProgressor.java:89-97 | `close()` has no repeat guard: a second close leaves the cursor state and pending ids alone and calls a closeable client's `close()` again, so it has been called twice |
| LabelScan.Open | community/label-index/src/main/java/org/neo4j/internal/index/label/LabelScanValueIndexProgressor.java:40-44 | a new progressor is open and still has every id of every entry to offer |
| LabelScan.Advance | community/label-index/src/main/java/org/neo4j/internal/index/label/LabelScanValueIndexProgressor.java:56-86 | one pass of the outer loop offers a prefix of the pending ids; it stops at the first accepted one, or else loads the next entry, or else closes with nothing pending |
| LabelScan.Next | community/label-index/src/main/java/org/neo4j/internal/index/label/LabelScanValueIndexProgressor.java:54-87 | `next()` returns true exactly when the client accepts some pending id; it offers the pending ids in order up to and including the first accepted one, and the rest stay pending; otherwise it offers them all and closes itself and a closeable client |
| LabelScan.OutcomeFound | community/label-index/src/main/java/org/neo4j/internal/index/label/LabelScanValueIndexProgressor.java:62-65 | after a `next()` that returns true, the ids offered and those left make up the pending ids, and the accepted id is the first the client would accept |
| LabelScan.OutcomeNotFound | community/label-index/src/main/java/org/neo4j/internal/index/label/LabelScanValueIndexProgressor.java:69-73 | after a `next()` that returns false every pending id was offered and none was acceptable |
| LabelScan.Drain | community/label-index/src/main/java/org/neo4j/internal/index/label/LabelScanValueIndexProgressor.java:46-87 | calling `next()` until it returns false offers every pending id exactly once, in order, yields exactly the accepted ones in order, and ends closed, having called a closeable client's `close()` once |
| LabelScan.DrainThenClose | community/label-index/src/main/java/org/neo4j/internal/index/label/LabelScanValueIndexProgressor.java:69-73 | draining a progressor and then closing it, as its owner does, yields exactly the accepted ids and calls a closeable client's `close()` twice: once from `next()` at exhaustion and once from the owner |
| LabelScan.EntriesIdsIncreasing | community/label-index/src/main/java/org/neo4j/internal/index/label/LabelScanValueIndexProgressor.java:80-85 | with keys strictly ascending, the ids of all entries are strictly increasing |
| LabelScan.ScanIncreasing | community/label-index/src/main/java/org/neo4j/internal/index/label/LabelScanValueIndexProgressor.java:56-86 | with keys strictly ascending, the ids a client is given over a whole scan are strictly increasing |
| SchemaRegistry.IndexesGetAll | community/community-it/kernel-it/src/test/java/org/neo4j/kernel/impl/newapi/SchemaReadWriteTestBase.java:238-264 | the transaction sees exactly the indexes it created plus the committed ones it did not drop |
| SchemaRegistry.ConstraintsGetAll | community/community-it/kernel-it/src/test/java/org/neo4j/kernel/impl/newapi/SchemaReadWriteTestBase.java:787-812 | the transaction sees exactly the constraints it created plus the committed ones it did not drop |
| SchemaRegistry.IndexGetState | community/community-it/kernel-it/src/test/java/org/neo4j/kernel/impl/newapi/SchemaReadWriteTestBase.java:113-123 | a state is reported exactly for visible indexes: `POPULATING` for one created in the transaction, the committed state otherwise |
| SchemaRegistry.Begin | community/community-it/kernel-it/src/test/java/org/neo4j/kernel/impl/newapi/SchemaReadWriteTestBase.java:201-236 | a new transaction sees exactly the committed indexes and constraints |
| SchemaRegistry.Commit | community/community-it/kernel-it/src/test/java/org/neo4j/kernel/impl/newapi/SchemaReadWriteTestBase.java:96-111 | the committed schema is what the transaction saw; new indexes are committed as `POPULATING` and the others keep their state |
| SchemaRegistry.IndexCreate | community/community-it/kernel-it/src/test/java/org/neo4j/kernel/impl/newapi/SchemaReadWriteTestBase.java:96-111 | creation succeeds exactly when no property repeats and the schema has no visible index; failures say which; success adds just that index |
| SchemaRegistry.IndexDrop | community/community-it/kernel-it/src/test/java/org/neo4j/kernel/impl/newapi/SchemaReadWriteTestBase.java:125-180 | a drop succeeds exactly for a visible index that no visible uniqueness or node key constraint owns, and removes just that index |
| SchemaRegistry.ConstraintCreate | community/community-it/kernel-it/src/test/java/org/neo4j/kernel/impl/newapi/SchemaReadWriteTestBase.java:299-422 | creation succeeds exactly when no index-backed kind repeats a property, the constraint is new, an index-backed kind finds no index on its schema, and the data satisfies it; success adds the constraint and, for index-backed kinds, its index |
| SchemaRegistry.ConstraintDrop | community/community-it/kernel-it/src/test/java/org/neo4j/kernel/impl/newapi/SchemaReadWriteTestBase.java:318-340 | a drop succeeds exactly for a visible constraint and removes it together with the index that enforced it |
| SchemaRegistry.ValuesOf | community/community-it/kernel-it/src/test/java/org/neo4j/kernel/impl/newapi/SchemaReadWriteTestBase.java:400-422 | the values of the keys, position by position |
| SchemaRegistry.CheckUnique | community/community-it/kernel-it/src/test/java/org/neo4j/kernel/impl/newapi/SchemaReadWriteTestBase.java:400-422 | the scan reports success exactly when no two labelled nodes share values for all the keys |
| SchemaRegistry.CheckNodesHave | community/community-it/kernel-it/src/test/java/org/neo4j/kernel/impl/newapi/SchemaReadWriteTestBase.java:613-631 | the scan reports success exactly when every labelled node has all the keys |
| SchemaRegistry.CheckRelsHave | community/community-it/kernel-it/src/test/java/org/neo4j/kernel/impl/newapi/SchemaReadWriteTestBase.java:722-739 | the scan reports success exactly when every relationship of the type has all the keys |
| SchemaRegistry.Validate | community/community-it/kernel-it/src/test/java/org/neo4j/kernel/impl/newapi/SchemaReadWriteTestBase.java:400-422 | validation of existing data succeeds exactly when the data satisfies the constraint |
| SchemaLaws.IndexFoundIffListed | community/community-it/kernel-it/src/test/java/org/neo4j/kernel/impl/newapi/SchemaReadWriteTestBase.java:86-111 | `index(label, props)` finds an index exactly when `indexesGetForLabel(label)` lists that schema, and then reports its state; otherwise `NO_INDEX` has no state |
| SchemaLaws.ConstraintExistsIffListed | community/community-it/kernel-it/src/test/java/org/neo4j/kernel/impl/newapi/SchemaReadWriteTestBase.java:440-460 | `constraintExists` holds exactly when the constraint is listed under its own label or relationship type, and anything a by-label or by-type listing returns exists and carries that label or type |
| SchemaLaws.EmptyStore | community/community-it/kernel-it/src/test/java/org/neo4j/kernel/impl/newapi/SchemaReadWriteTestBase.java:58-84 | a fresh database lists no index and no constraint |
| SchemaLaws.IndexCreateKeepsValid | community/community-it/kernel-it/src/test/java/org/neo4j/kernel/impl/newapi/SchemaReadWriteTestBase.java:96-111 | index creation keeps the invariant: constraints fit, index-backed ones have their index, one per schema |
| SchemaLaws.IndexDropKeepsValid | community/community-it/kernel-it/src/test/java/org/neo4j/kernel/impl/newapi/SchemaReadWriteTestBase.java:380-398 | index drop keeps the invariant, because owned indexes cannot be dropped |
| SchemaLaws.ConstraintCreateKeepsValid | community/community-it/kernel-it/src/test/java/org/neo4j/kernel/impl/newapi/SchemaReadWriteTestBase.java:299-316 | constraint creation keeps the invariant |
| SchemaLaws.ConstraintDropKeepsValid | community/community-it/kernel-it/src/test/java/org/neo4j/kernel/impl/newapi/SchemaReadWriteTestBase.java:318-340 | constraint drop keeps the invariant |
| SchemaLaws.CommitKeepsValid | community/community-it/kernel-it/src/test/java/org/neo4j/kernel/impl/newapi/SchemaReadWriteTestBase.java:201-236 | the next transaction starts valid and sees exactly what the committed one saw |
| SchemaLaws.CreatedIndexFound | community/community-it/kernel-it/src/test/java/org/neo4j/kernel/impl/newapi/SchemaReadWriteTestBase.java:96-111 | a created index is found by label and properties in its transaction and after commit |
| SchemaLaws.CreatedIndexPopulating | community/community-it/kernel-it/src/test/java/org/neo4j/kernel/impl/newapi/SchemaReadWriteTestBase.java:113-123 | a new index is `POPULATING` in its transaction and right after commit |
| SchemaLaws.DroppedIndexGone | community/community-it/kernel-it/src/test/java/org/neo4j/kernel/impl/newapi/SchemaReadWriteTestBase.java:125-180 | after a committed drop the lookup gives `NO_INDEX` and a second drop fails |
| SchemaLaws.DropNoIndexFails | community/community-it/kernel-it/src/test/java/org/neo4j/kernel/impl/newapi/SchemaReadWriteTestBase.java:148-156 | dropping `NO_INDEX` always fails |
| SchemaLaws.CreateExistingIndexFails | community/community-it/kernel-it/src/test/java/org/neo4j/kernel/impl/newapi/SchemaReadWriteTestBase.java:182-199 | creating an index again after it was committed fails with `AlreadyIndexed` |
| SchemaLaws.IndexBlocksUniqueness | community/community-it/kernel-it/src/test/java/org/neo4j/kernel/impl/newapi/SchemaReadWriteTestBase.java:342-359 | an index blocks a uniqueness constraint on its schema |
| SchemaLaws.UniquenessBlocksIndex | community/community-it/kernel-it/src/test/java/org/neo4j/kernel/impl/newapi/SchemaReadWriteTestBase.java:361-378 | a uniqueness constraint blocks an index on its schema |
| SchemaLaws.OwnedIndexUndroppable | community/community-it/kernel-it/src/test/java/org/neo4j/kernel/impl/newapi/SchemaReadWriteTestBase.java:380-398 | the index of a uniqueness constraint is found by lookup and refuses to be dropped |
| SchemaLaws.UniquenessAndExistenceCoexist | community/community-it/kernel-it/src/test/java/org/neo4j/kernel/impl/newapi/SchemaReadWriteTestBase.java:787-845 | an existence constraint can join a uniqueness constraint on the same schema, and both are listed |
| SchemaLaws.ConstraintSeenInTransaction | community/community-it/kernel-it/src/test/java/org/neo4j/kernel/impl/newapi/SchemaReadWriteTestBase.java:424-445 | within its transaction a new constraint exists and is listed beside every earlier one |
| SchemaLaws.DroppedConstraintUnseenInTransaction | community/community-it/kernel-it/src/test/java/org/neo4j/kernel/impl/newapi/SchemaReadWriteTestBase.java:446-463 | within the dropping transaction the constraint is gone from existence checks and listings, and the others are unaffected |
| SchemaLaws.CreatedConstraintListed | community/community-it/kernel-it/src/test/java/org/neo4j/kernel/impl/newapi/SchemaReadWriteTestBase.java:299-316 | a created constraint exists in later transactions and is added to its label's or type's listing |
| SchemaLaws.DroppedConstraintGone | community/community-it/kernel-it/src/test/java/org/neo4j/kernel/impl/newapi/SchemaReadWriteTestBase.java:318-340 | a dropped constraint no longer exists later, leaves its listing, and takes its index with it |
| SchemaLaws.RepeatedPropertyRefused | community/community-it/kernel-it/src/test/java/org/neo4j/kernel/impl/newapi/SchemaReadWriteTestBase.java:847-875 | a repeated property key is refused by index, uniqueness and node key creation |
| SchemaLaws.DuplicateValuesRefused | community/community-it/kernel-it/src/test/java/org/neo4j/kernel/impl/newapi/SchemaReadWriteTestBase.java:400-422 | two labelled nodes with equal values refuse uniqueness and node key constraints |
| SchemaLaws.MissingPropertyRefused | community/community-it/kernel-it/src/test/java/org/neo4j/kernel/impl/newapi/SchemaReadWriteTestBase.java:508-526 | a labelled node missing a key refuses node key and node existence constraints |
| SchemaLaws.MissingRelPropertyRefused | community/community-it/kernel-it/src/test/java/org/neo4j/kernel/impl/newapi/SchemaReadWriteTestBase.java:722-739 | a relationship of the type missing a key refuses a relationship existence constraint |
| SchemaScenarios.NonExistentIndex | community/community-it/kernel-it/src/test/java/org/neo4j/kernel/impl/newapi/SchemaReadWriteTestBase.java:86-94 | on an empty schema the lookup gives `NO_INDEX` |
| SchemaScenarios.SeeIndexFromTransaction | community/community-it/kernel-it/src/test/java/org/neo4j/kernel/impl/newapi/SchemaReadWriteTestBase.java:201-218 | a committed index and one created in the transaction are both visible |
| SchemaScenarios.NotSeeDroppedIndexFromTransaction | community/community-it/kernel-it/src/test/java/org/neo4j/kernel/impl/newapi/SchemaReadWriteTestBase.java:220-236 | an index dropped in the transaction is not visible in it |
| SchemaScenarios.ListAllIndexes | community/community-it/kernel-it/src/test/java/org/neo4j/kernel/impl/newapi/SchemaReadWriteTestBase.java:238-264 | the full listing is the committed indexes minus the dropped one plus the created one |
| SchemaScenarios.ListIndexesByLabel | community/community-it/kernel-it/src/test/java/org/neo4j/kernel/impl/newapi/SchemaReadWriteTestBase.java:266-297 | the by-label listing leaves out other labels and the index dropped in the transaction |
| SchemaScenarios.CreateThenDropUniqueness | community/community-it/kernel-it/src/test/java/org/neo4j/kernel/impl/newapi/SchemaReadWriteTestBase.java:299-340 | a committed uniqueness constraint exists and is its label's only one; after a committed drop it is gone and the listing is empty |
| SchemaScenarios.CreateThenDropRelExistence | community/community-it/kernel-it/src/test/java/org/neo4j/kernel/impl/newapi/SchemaReadWriteTestBase.java:677-720 | the same for a relationship property existence constraint and its type's listing |
| SchemaScenarios.ListAllConstraints | community/community-it/kernel-it/src/test/java/org/neo4j/kernel/impl/newapi/SchemaReadWriteTestBase.java:787-812 | the full constraint listing holds the committed and the newly created constraints |
| SchemaScenarios.ListConstraintsByLabel | community/community-it/kernel-it/src/test/java/org/neo4j/kernel/impl/newapi/SchemaReadWriteTestBase.java:814-845 | the by-label constraint listing leaves out other labels |
| SchemaScenarios.RepeatedPropertiesFail | community/community-it/kernel-it/src/test/java/org/neo4j/kernel/impl/newapi/SchemaReadWriteTestBase.java:847-875 | `[prop1, prop1]` is refused by index, uniqueness and node key creation |
| SchemaScenarios.DuplicateValuesFail | community/community-it/kernel-it/src/test/java/org/neo4j/kernel/impl/newapi/SchemaReadWriteTestBase.java:400-422 | two labelled nodes with `prop1 = 42` refuse a uniqueness constraint |
| SchemaScenarios.MissingPropertyFails | community/community-it/kernel-it/src/test/java/org/neo4j/kernel/impl/newapi/SchemaReadWriteTestBase.java:508-526 | a labelled node without properties refuses node key and node existence constraints |
| SchemaScenarios.MissingRelPropertyFails | community/community-it/kernel-it/src/test/java/org/neo4j/kernel/impl/newapi/SchemaReadWriteTestBase.java:722-739 | a relationship without properties refuses a relationship existence constraint |
| DatabaseManager.WiringEvents | community/neo4j/src/main/java/org/neo4j/dmbs/database/DefaultDatabaseManager.java:66-69 | the wiring steps run in order and stop just before the one that fails |
| DatabaseManager.CreateDatabase | community/neo4j/src/main/java/org/neo4j/dmbs/database/DefaultDatabaseManager.java:61-72 | with a database set it fails and changes nothing; otherwise it returns and records the injected facade only when no wiring step failed; the log only grows |
| DatabaseManager.ShutdownByNameIsStop | community/neo4j/src/main/java/org/neo4j/dmbs/database/DefaultDatabaseManager.java:74-92 | shutting down by any name and stopping are the same |
| DatabaseManager.ShutdownWithoutDatabaseIsNoOp | community/neo4j/src/main/java/org/neo4j/dmbs/database/DefaultDatabaseManager.java:86-92 | with nothing created, shutdown and stop change nothing |
| DatabaseManager.EveryShutdownReachesFacade | community/neo4j/src/main/java/org/neo4j/dmbs/database/DefaultDatabaseManager.java:74-92 | shutdown is not guarded against repeats: with a database set, each stop or named shutdown shuts the facade down again; on a fresh manager stop changes nothing |
| DatabaseManager.LookupIgnoresName | community/neo4j/src/main/java/org/neo4j/dmbs/database/DefaultDatabaseManager.java:55-59 | the lookup gives the same answer for every name: empty before creation, the injected facade after it |
| DatabaseManager.CreateOnce | community/neo4j/src/main/java/org/neo4j/dmbs/database/DefaultDatabaseManager.java:64 | after a successful create every further create fails, whatever the name |
| DatabaseManager.ShutdownKeepsDatabase | community/neo4j/src/main/java/org/neo4j/dmbs/database/DefaultDatabaseManager.java:64 | after stop the database is still found and a create still fails |
| DatabaseManager.FailedCreateLeavesNothing | community/neo4j/src/main/java/org/neo4j/dmbs/database/DefaultDatabaseManager.java:66-71 | a failed wiring step leaves no database, logs only the steps before it, and a later create can succeed |
| DatabaseManager.CreateWiresInOrder | community/neo4j/src/main/java/org/neo4j/dmbs/database/DefaultDatabaseManager.java:66-70 | a successful create runs the four wiring steps once each, in source order |

## Left out

- The implementation of the exact-depth path finder is not part of this model. `FindAllPaths` is a reference semantics for what its tests assert. It is not a transcription of the finder's search, so the meet-in-the-middle search, lazy iteration and cursor release are not modelled.
- The finder's third constructor argument (4 in one test, `Integer.MAX_VALUE` elsewhere) has no visible meaning, and no part of the model depends on it.
- PathFinding.FindSinglePath: returns the first path of `FindAllPaths`. The test only promises some path from the full result, so which one the finder returns is not modelled.
- LoopScenario.LoopsAllowedDepth6Reads: states only that results exist and that every result reads `a,b,c,d,b,c,e`. The loops-allowed test expects exactly one result, yet the graph has two parallel b-c relationships. The finder's loops-allowed mode is therefore not "all walks", and its rule is not visible, so `FindAllWalks` (which yields four walks) is only a reference for walks.
- HubScenario.WalksAtDepthFour: the finder's loops-allowed rule is not visible, so `FindAllWalks` stands in for it. On the hub fixture at depth 4 every walk is already a simple path (`OnlyTwoWalks`), so any rule between "simple paths only" and "all walks" gives the same two routes.
- The test graph builder (`makeEdgeChain`, `makeEdge`, the `R1` relationship type) is replaced by fixture functions that list the relationships with consecutive ids.
- LabelScan.Load: `idRange * RANGE_SIZE` is computed on unbounded integers. The source's 64-bit `long` overflow for ranges beyond 2^57 is not modelled.
- The cursor's own close (`super.close()`) belongs to the accessor superclass, which is not part of this model. Its effect is the flag `closed`, so repeated cursor closes are not counted; the client's `close()` calls are.
- An `IOException` from the cursor, rethrown as `UncheckedIOException`, is not modelled: the cursor is a finite sequence of entries.
- The GB+tree seeker and the accessor superclass are not part of this model. The progressor starts with `bits = 0` and `baseNodeId = 0`, as in `Open`.
- The `keysInOrder` assertion is taken as the precondition `AscendingRanges` of `ScanIncreasing`. The progressor's other members do not need it.
- The client is a pure predicate on node ids (`accept`). The labels argument (always null here) and any side effects of `acceptNode` are not modelled.
- Kernel transactions, token creation and `success()`/`close()` become `Begin` and `Commit`. Labels, relationship types, property keys and property values are plain integers, so cross-type value equality (an integer against an equal floating-point value) and non-numeric values are not modelled.
- Index population beyond `POPULATING` is not modelled: `Online` and `Failed` are never produced, and committed states are only carried forward.
- The distinct exception types and messages of failing schema writes are collapsed into the `SchemaError` causes.
- The repeated-property check is applied to index, uniqueness and node key creation, which are the cases the tests exercise. Existence constraints are not checked for repeated properties.
- The data a new constraint is validated against is a parameter. How it is read from the store, and concurrent writes during validation, are not modelled.
- The wiring collaborators of `createDatabase` (`DataSourceModule`, `ClassicCoreSPI`, `facade.init`, `dataSourceManager.register`) are events in the manager's log. Their effects are not modelled, and the step that throws is a parameter.
- `facade.shutdown()` is a log event. The facade itself is not modelled past its identity, and the other lifecycle callbacks of `LifecycleAdapter` are not modelled.
