# Verified models of the discography game's algorithmic cores

The repository publishes a graph of who played on which record and builds games on it: find a
route of shared performers between two albums, explore one musician's neighbourhood, guess the
connection of the day. This project models the seven cores whose correctness is hardest to see from
the code, and proves what their documentation and tests promise.

* **Route search over a CSR graph** (`Routes`, `SlotOrder`, `FindPath`, `FindAlbumRoute`, `ReverseDistances`,
  `BudgetedRun`, `ExactDepthRoutes`, `RouteRanking`, `RecommendedRoute`, `OneWayFilter`,
  `OrderIndependence`, `SlotOrderWitness`, `SwapRoute`, `SwapRecommendation`). A *walk* lists node and
  slot indices; `Reaches` is a bounded reachability relation written without any search, and `Distance`
  is its least bound. The plain breadth-first search is proved against it. The budgeted
  guide-and-enumerate search is proved against `EngineAnswer`, which says what it answers over any
  graph, for any filter and under any caps in terms of what each stage must read (`GuideCost`,
  `WalkCost`, `Trace`) and what is then left; where edges have no direction that is the best route
  there is, so the two searches agree.
* **The graph loader** (`GraphValidator`, `GraphPayload`, `GraphPublishing`): which JSON is accepted,
  what is loaded from it, and what a graph's version says of the graph.
* **The workbench graph cache** (`GraphCache`, `CacheProtocol`, `CacheRecency`, `CacheDoubleClose`,
  `WorkbenchGraphCacheObject`). Each block run under the lock is one function on a cache value; the
  class runs the same block on its fields; the protocol interleaves those blocks, the finding and
  taking of build locks, graph builds, failures and releases of any number of threads. A run starts
  empty and takes any finite number of steps.
* **Bounded-heap selection** (`NetworkExplorer`, `PagingRows`): the heap in an array against sorting
  everything and taking a prefix.
* **Canonical JSON and the artifact diff** (`Json`, `JsonRoundTrip`, `JsonEquality`, `CanonicalForm`,
  `ContentHashes`, `ArtifactDiff`): a printer, a parser for the same text (RFC 8259, sections 3 to 7), equality up to
  key order, and the structural diff.
* **The daily schedule** (`PythonValues`, `ArtifactScans`, `RoundIds`, `RoundChecks`, `Intersections`,
  `ConnectionRounds`, `ManifestValidator`, `DailyManifest`, `DailyAnswers`, `RoundSamples`, `DailyGaps`):
  two whole validators in one language, down to each failure they list, a resolver in another, the theorem in which they meet, and the inputs at
  which they do not.
* **The round engine** (`Engine`, `EngineHistory`, `TrayPlay`, `EngineGaps`): its state machine on the JSON of validated
  rounds, and exactly when a round can be won.

`Text`, `Sorting` and `RowSums` hold the options, lists and string orders, the sorting facts and the
sums over graph rows the others share.

## Conventions

* Where the code works in place, the model is a method over an array or a class; its contract ties
  the result to a function or a relation that says nothing about the loop.
* An absent edge filter is the filter that admits everything; an absent exclusion set is `None`.
* `WellFormed`, `Undirected` (every edge stored both ways with the roles swapped), `NoTwinSlots`
  (no two slots of a row share neighbour and release), `AnchorsApart` (no edge joins two album
  anchors) and `RoleSymmetric` (a filter that does not care which way an edge between people is read)
  name what the searches rely on. `GraphValidator` proves `WellFormed`; the others are properties of
  how graphs and filters are built that the loader does not check, and each theorem names the ones it
  needs. `TwoWay` is undirected and role-symmetric together.
* A digest is any function on texts. Injectivity is never assumed of it as a whole; a theorem
  asks only that the particular texts it compares do not collide (`NoCollision`, `Distinguished`).
* What an operation returns is also said in the terms of its inputs, without naming the function that
  computes it: `NoWorse`, `ShowsWalk`, `ShowsEdge`, `HandsOut`, `Precedes`, `PairBlames`, `ManifestBlames`.
* A Python exception is an outcome (`Raised`) of its own; a fetch that throws answers `None`.
* SHA-256, `str()` and `lower()` are any functions (`Python`); the date and time parsers too (`World`).

## What the proofs found

* **Large ids wrap.** The graph validator checks that ids are integers and then stores them in
  `Int32Array`s, which keep them modulo 2^32. What is stored is what was checked exactly when every
  node id, release id, offset and neighbour fits in 32 bits (`LoadedIsDecoded`). Otherwise two
  accepted ids can become one (`WrappedIdsCollide`), a person can become virtual
  (`WrappedPersonLooksVirtual`), and an album can lose its anchor (`WrappedAlbumIsLost`), each in a
  payload the whole validator accepts (`WrappedPayloads`).
* **A version pins the graph and nothing else.** Two accepted payloads carry one version exactly when
  they are of one schema and date and hold the same graph (`VersionPinsGraph`); the catalog version, the
  time, the source and the licence may be any other non-empty text beside the same version (`MetadataIsNotPinned`).
* **A one-way filter splits the searches.** The guide scans forward from the goal, so it reads every
  edge the other way round. The recommending search and the plain one agree on every undirected graph
  the loader accepts exactly when the filter does not care which way an edge between people is read
  (`SearchesAgreeIffSymmetric`). For any other filter both searches run over one graph of four nodes,
  where the plain one finds a route and the recommending one says there is none
  (`OneWaySplitsTheSearches`).
* **What slot order decides.** Costs, completeness of the shortest layer and, where edges
  have no direction, success never depend on it, and with equal caps two undegraded recommendations are the same recommendation
  (`RecommendationIgnoresSlotOrder`). Whether an answer is degraded can: the flags of two runs agree
  exactly when, if the engine looks one hop further at all, both parts of the next layer that it sees
  hold a better route or neither does (`WhenFlagsAgree`), whether the budget or the route cap cuts that
  layer. The same graph with two slots swapped then gives an undegraded shortest route or a degraded
  longer one (`OrderDecidesTheFlags`).
* **Swap without searching again.** The comment on `reverseRoute` (pathfindingGraph.ts:695-708) promises
  that a search the other way round would show the same evidence read back to front. Of recommendations
  that is true: where edges have no direction, two undegraded ones, there and back, that look equally far
  are each other reversed, over the same edges and with the same facts (`SwappedRecommendation`), and the
  way back looks as far whenever it can read the layer it looks at (`LooksAsFarBack`). Of the plain search
  it is true that the reversed route is a shortest one as well (`SwappedRouteIsShortest`).
* **A superseded graph can be closed twice.** The entry a builder found is closed already when it
  files its own graph exactly when its key has left the map meanwhile (`ReplacedIsClosedIffEvicted`).
  Another thread must have done that, by filing under another key or by returning any graph, the
  entry's own last user included (`ClosedByAnother`; `ReturnThenFileClosesTwice` is such a run, over a
  bound of one and with two keys in use, in which nothing is filed in between). Closing is taken to be
  idempotent, and no graph is ever closed while in use.
* **Paging can swap rows.** `selectTopK` yields the neighbours of the prefix of the full sort in their
  places, not always the same evidence rows, and showing more can change a row already shown
  (`ParallelRowsSwap`). Rows are that prefix, for every order of the slots, every ranking and every page
  size, exactly when rows that name one neighbour are equal or all rows name one (`RowsStableIff`).
* **Different, with nothing to report.** `_structural_diff` compares with `!=`, for which `True` is
  1: the report can say "not identical" with an empty diff, exactly when a boolean faces the number
  it equals and nothing else differs (`IdenticalIffNoDiff`, `OneIsTrue`).
* **A validated day may not resolve.** The validators ask that version fields be truthy, the browser
  that they be non-empty texts (`NumberedVersionRefused`); they accept any ISO spelling of a date
  (`OtherSpellingRefused`), `true` as schema version 1 (`TrueSchemaRefused`), and a snapshot date
  that is no text, which leaves the rounds of an artifact already in hand unchecked against its
  version (`NumberedSnapshotRefused`). Each is shown on artifacts that pass both validators from end to
  end (`EverySampleExists`). A scheduled day resolves exactly when none of this happens
  (`ScheduledDayResolves`, with `Readable` as the condition), and never to another round.
* **When a round can be won.** The engine keeps struck contributors across steps. From any guessing
  state a round can still be won exactly while every remaining step has an answer that is not struck
  (`CanBeWonIffOpen`), and a guess ends that exactly when it is wrong and strikes a remaining step's
  last answer (`GuessKeepsOpen`). Off the tray this happens on validated rounds
  (`OffTrayCanLockTheRound`). From the tray too, because Python compares ids as they are and the page
  compares numbers: a distractor `"2"` strikes the answer 2 (`LookalikeLocksTheRound`), and a round
  whose answers have text ids has no winning chip at all (`TextIdsCannotBeWon`). Tray play always offers
  a winning chip exactly when each step has one and no chip of the first bridge is the second bridge's
  only winner (`AlwaysOffersIffPlayable`); integer ids suffice (`AlwaysWinnable`).
* **A list left out passes.** The rounds validator reads a missing list as empty; the page reads it and
  throws. A published pair whose one round lists no distractors passes (`MissingListPasses`).

## Model

| member | source | states |
|---|---|---|
| PathfindingGraph.BuildArtistIndex | apps/web/src/game/pathfindingGraph.ts:511-517 | the index maps exactly the node ids, each to its own position |
| PathfindingGraph.BuildAlbumIndex | apps/web/src/game/pathfindingGraph.ts:520-528 | the index maps exactly the listed album ids, each to the virtual id listed for it |
| PathfindingGraph.AlbumIndexHitsVirtualNode | apps/web/src/game/recommendedRoute.ts:516-532 | chaining the two indices from a known album always lands on a virtual node in range |
| PathfindingGraph.EdgeKeyInjective | apps/web/src/game/pathfindingGraph.ts:533-537 | two hops have the same edge key exactly when they join the same unordered pair through the same release |
| PathfindingGraph.ReverseRouteInvolution | apps/web/src/game/pathfindingGraph.ts:709-728 | reversing a route twice gives it back |
| PathfindingGraph.ReverseKeepsEdgeKeys | apps/web/src/game/pathfindingGraph.ts:533-541 | a reversed route uses the same edge keys, which is why Swap may keep the exclusion set |
| GraphValidator.Validate | apps/web/src/game/pathfindingGraph.ts:325-508 | of the arrays of a payload it accepts exactly the acceptable ones and returns them as 32-bit numbers; when every number fits, what it returns is what was given, with sorted unique ids and every index in range, and from schema 2 on well-formed with the sentinel on exactly the virtual side of each slot; whatever fits or not, each number returned differs from the one given by a multiple of 2^32, names, albums and each slot's own role and neighbour's role are those given, spelled out where they were coded |
| GraphValidator.LoadedIsDecoded | apps/web/src/game/pathfindingGraph.ts:479-487 | what is stored is what was checked exactly when every node id, release id, offset and neighbour fits in 32 bits |
| GraphValidator.WrappedIdsCollide | apps/web/src/game/pathfindingGraph.ts:479-487 | acceptable arrays whose two node ids are stored as one |
| GraphValidator.WrappedPersonLooksVirtual | apps/web/src/game/pathfindingGraph.ts:479-487 | acceptable arrays in which a person is stored as a virtual node whose edge has no sentinel, so what is loaded is not well-formed |
| GraphValidator.WrappedAlbumIsLost | apps/web/src/game/pathfindingGraph.ts:479-487 | acceptable arrays whose album index points at no node that is stored |
| GraphValidator.CodedLoadsAsPlain | apps/web/src/game/pathfindingGraph.ts:356-384 | a dictionary-encoded graph is accepted exactly when its spelled-out form is, and both load as the same graph, before and after storage |
| GraphPayload.ValidatePathfindingGraph | apps/web/src/game/pathfindingGraph.ts:277-508 | on any parsed JSON: a graph exactly for the payloads with the keys of their schema version, fields of their types, the recomputed version in its shape and acceptable arrays; and then the graph those arrays hold; names, numbers, roles, coded roles and albums are each read from the payload's own field |
| GraphPayload.VersionPinsGraph | apps/web/src/game/pathfindingGraph.ts:220-246 | two accepted payloads carry one version exactly when schema, snapshot date and everything loaded are the same, unless their digests collide |
| GraphPayload.MetadataIsNotPinned | apps/web/src/game/pathfindingGraph.ts:311-323 | beside an accepted payload, one that differs in catalog version, time, source or licence alone is accepted exactly when they are non-empty texts, under the same version |
| GraphPublishing.PublishedRoundTrip | apps/web/src/game/pathfindingGraph.ts:220-246 | a graph written out under its recomputed version reads back as it was, and is accepted exactly when its arrays are acceptable, its metadata is not empty, its date is letters and digits and its policy is numbered from 1 |
| GraphPublishing.WrappedPayloads | apps/web/src/game/pathfindingGraph.ts:277-508 | three payloads the whole validator accepts hold those three sets of arrays |
| Routes.WalkReaches | apps/web/src/game/pathfindingGraph.ts:552-615 | a walk of k admissible hops witnesses reachability within k hops |
| Routes.ShortestRoute | apps/web/src/game/pathfindingGraph.ts:552-615 | at every distance d there is a walk of exactly d hops along which the distance falls by one each hop |
| Routes.DescendingIsSimple | apps/web/src/game/pathfindingGraph.ts:552-615 | such a walk repeats no node, so reachability by walks and by simple routes are the same |
| FindPath.ReconstructPath | apps/web/src/game/pathfindingGraph.ts:617-640 | following the parent links yields a simple admissible route from start to goal of exactly the recorded depth, and the hops shown are that route's |
| FindPath.ScanRow | apps/web/src/game/pathfindingGraph.ts:572-608 | scanning one row keeps the search tree and the wave and explores every slot of the row unless the goal is met |
| FindPath.FindPath | apps/web/src/game/pathfindingGraph.ts:552-615 | a found path is simple, admissible and of minimum length; no-path means nothing within maxHops is reachable under the filter, the exclusions and the no-interior-anchor rule; of the shortest walks it is the one that, where any other parts from it, takes the sooner slot |
| FindPath.MetSoonest | apps/web/src/game/pathfindingGraph.ts:572-608 | a node first met is met by the soonest walk of its length, because the frontier stands in the order of its walks |
| SlotOrder.FirstIsOne | apps/web/src/game/pathfindingGraph.ts:552-615 | there is one such walk, so filter, exclusions and slot order determine the answer |
| FindAlbumRoute.StrippedRoute | apps/web/src/game/pathfindingGraph.ts:678-693 | stripping a route between two anchors succeeds exactly from two hops on, and what is left chains, shows no virtual id or sentinel role and obeys the filter; endpoint A shows the neighbour of the walk's first slot and that neighbour's role, endpoint B the owner of its last slot and the owner's role, and hop i the release, people and roles of slot i + 1 |
| FindAlbumRoute.FindAlbumRoute | apps/web/src/game/pathfindingGraph.ts:749-786 | the stripped route is a shortest one, of at most maxHops hops, chaining end to end and clean, and shows the people, releases and roles of the slots walked, each in its place; its keys are the texts of lesser id, greater id and release of every hop of the walk; no-path means no distance in range; of the shortest walks it is the soonest, slot by slot |
| FindAlbumRoute.AlternateIsDisjoint | apps/web/src/game/pathfindingGraph.ts:594-599 | a search excluding earlier edge keys shares no edge with the earlier route, anchors included |
| FindAlbumRoute.NoPathIsConclusive | apps/web/src/game/pathfindingGraph.ts:664-693 | between different albums of a graph with no anchor-to-anchor edge, no-path rules out every admissible walk of any shape within the budget |
| ReverseDistances.ReverseDistances | apps/web/src/game/recommendedRoute.ts:125-176 | over any graph with rows in range and any filter: it stops early exactly when the budget does not afford the guide's cost; otherwise it spends just that, and the map holds exactly the nodes within maxDepth spreading steps of the goal, each with the least number of them |
| ReverseDistances.ScanRow | apps/web/src/game/recommendedRoute.ts:141-170 | one row costs one unit per slot and is scanned whole exactly when the budget affords it; each new neighbour enters the map one further out |
| ReverseDistances.GuideIsExact | apps/web/src/game/recommendedRoute.ts:151-159 | a map sound for every entry and closed under scanning below maxDepth holds exactly the least spreading distances within it |
| ReverseDistances.SpreadsIffReaches | apps/web/src/game/recommendedRoute.ts:151-159 | over an undirected graph and a symmetric filter, spreading from the goal is reaching it |
| ReverseDistances.MeasuresGuide | apps/web/src/game/recommendedRoute.ts:151-165 | so there the map holds exactly the nodes within maxDepth of the goal, each at its forward distance |
| BudgetedRun.RunIs | apps/web/src/game/recommendedRoute.ts:200-240 | a walk that stops at the first slot it cannot pay for or the first route past the cap collects the first routes up to the cap among those the budget reaches, and comes to its end exactly when all is paid for and fits, having spent just that |
| ExactDepthRoutes.ExactRoutesExact | apps/web/src/game/recommendedRoute.ts:185-244 | over any graph and for any filter, the enumeration lists exactly the simple admissible routes of the depth at each of whose nodes the guide meets the goal in the hops left, and each once; they come in the order of their slots, so which of them a budget or a cap lets through is determined |
| ExactDepthRoutes.EveryRouteIsGuided | apps/web/src/game/recommendedRoute.ts:216-226 | over an undirected graph and for a symmetric filter those are all the simple admissible routes: pruning loses none |
| ExactDepthRoutes.PrunedIsNotMet | apps/web/src/game/recommendedRoute.ts:216-226 | the prune test is that the guide does not meet the neighbour in the hops left, so pruning depends on the guide alone |
| ExactDepthRoutes.TallyCounts | apps/web/src/game/recommendedRoute.ts:200-240 | the recursion that counts the slots read, or the routes completed, counts those of the walk, whichever slots led up to it |
| ExactDepthRoutes.RouteCollector.Walk | apps/web/src/game/recommendedRoute.ts:200-240 | from any partial path the recursion leaves routes, budget and outcome as the budgeted run over what is ahead, stopping where that stops, and restores its path |
| RecommendedRoute.CollectExactDepthRoutes | apps/web/src/game/recommendedRoute.ts:185-244 | the routes are exactly those in reach of the budget and the cap, complete exactly when the budget affords the walk's cost and all routes fit, and then it has spent just that |
| RecommendedRoute.ReachIsExact | apps/web/src/game/recommendedRoute.ts:185-244 | what is in reach are guided routes of the depth, each once, and all of them when the layer fits |
| RouteRanking.CaveatSeverity | apps/web/src/game/recommendedRoute.ts:69-80 | the loop finds the severity of the worst caveat tier among the set flags |
| RouteRanking.SeverityIsSeverity | apps/web/src/game/recommendedRoute.ts:60-80 | that severity is the greatest over the named flags that are set, and at most three |
| RouteRanking.ComputeRouteFacts | apps/web/src/game/recommendedRoute.ts:302-366 | the facts are the worst severity, unknown exactly when evidence is missing, the greatest interior degree and the number of performer hops |
| RouteRanking.FactsUnique | apps/web/src/game/recommendedRoute.ts:302-366 | a route's facts are determined by its hops |
| RouteRanking.FactsMean | apps/web/src/game/recommendedRoute.ts:302-366 | the facts on the graph and the evidence: as many performer hops as there are hops with a performer on a side, the slots of the busiest artist of the route, and the severity of the worst caveat set for any of its releases |
| RouteRanking.BitsAreDigits | apps/web/src/game/recommendedRoute.ts:60-80 | the bits read are the binary digits of the flag word, and from the 32nd on they start again |
| RouteRanking.CompareRankedMeans | apps/web/src/game/recommendedRoute.ts:373-386 | one route ranks no worse than another exactly when it has less of the first of caveat, greatest degree, non-performer hops and key text in which they differ, or they differ in none |
| RouteRanking.CompareRankedIsTotal | apps/web/src/game/recommendedRoute.ts:373-386 | the four-key comparator is a total preorder |
| RouteRanking.TieMeansSameEdges | apps/web/src/game/recommendedRoute.ts:373-386 | two routes tie only when they use the same edge keys |
| RouteRanking.ReverseKeepsFacts | apps/web/src/game/recommendedRoute.ts:302-366 | the reversed hops have the same facts |
| RecommendedRoute.RankExactDepthLayer | apps/web/src/game/recommendedRoute.ts:394-434 | the candidates are exactly the rankable routes in reach, sorted; complete exactly when the layer fits |
| RecommendedRoute.SeesLayer | apps/web/src/game/recommendedRoute.ts:394-434 | a layer that fits is seen whole |
| RecommendedRoute.LookOneHopFurther | apps/web/src/game/recommendedRoute.ts:608-628 | a better route is offered exactly when what is seen of the next layer holds one, and then the best seen; complete exactly when that layer fits what is left |
| RecommendedRoute.TryPlusOne | apps/web/src/game/recommendedRoute.ts:596-633 | a longer route is offered exactly when the shortest layer fits and is all at the worst severity, another hop is allowed and what is seen of the next layer holds a better one; it is then the best seen, cut short exactly when that layer does not fit |
| RecommendedRoute.RankShortest | apps/web/src/game/recommendedRoute.ts:568-653 | ranking the shortest layer gives the answer that layer and the next one allow, or asks for the fallback exactly when nothing of it is seen and it does not fit |
| RecommendedRoute.SelectRecommendedRoute | apps/web/src/game/recommendedRoute.ts:466-654 | over any well-formed graph, for any filter, budget and cap, the answer is the one allowed: unknown albums; the plain search's when the guide cannot be paid for or nothing of the shortest layer is seen; no-path when the guide does not meet the start; else the best seen of the shortest layer, or of the next one under its guard, with every flag fixed by costs and caps; the stages charge at most maxExpansions slots, the unbudgeted fallback search apart; best is said without the comparator: of the routes of that length none has a lesser caveat, nor the same and a lesser greatest degree, nor both the same and fewer non-performer hops, nor all the same and a lesser key text; the route shows the slots walked, each in its place |
| RecommendedRoute.EngineIsRight | apps/web/src/game/recommendedRoute.ts:466-654 | where edges and filter have no direction, whatever it answers is right: a real route of the shortest length, or one longer and better only when every shortest one is at the worst severity; the best of all routes of its length unless degraded; no-path only when no distance is in range |
| RecommendedRoute.AgreesWithPlainSearch | apps/web/src/game/recommendedRoute.ts:466-654 | there, under any caps, the engine succeeds exactly when findAlbumRoute does, fails for the same reason, and its route is as long, or one hop longer exactly when usedPlusOneHop |
| OneWayFilter.OneWaySplitsTheSearches | apps/web/src/game/recommendedRoute.ts:151-168 | for every filter that admits some edge between people one way only, both searches run over one well-formed undirected graph: the plain one finds a route and the engine answers no-path |
| OneWayFilter.SearchesAgreeIffSymmetric | apps/web/src/game/recommendedRoute.ts:466-654 | the two searches agree on every undirected well-formed graph, between any albums and under any caps, exactly when the filter is symmetric on role texts other than the sentinel |
| OrderIndependence.SameDistance | apps/web/src/game/recommendedRoute.ts:125-176 | graphs with permuted rows have the same distances |
| OrderIndependence.TransferRoute | apps/web/src/game/recommendedRoute.ts:246-264 | every route of one is a route of the other with the same hops |
| OrderIndependence.KeysFixRoute | apps/web/src/game/recommendedRoute.ts:373-386 | a simple route between two given ends is fixed by its set of edge keys |
| OrderIndependence.NoTiesInLayer | apps/web/src/game/recommendedRoute.ts:373-386 | within a layer the comparator ties a route only with itself |
| OrderIndependence.SameGuideCost | apps/web/src/game/recommendedRoute.ts:125-176 | the guide costs the same whatever the order of the slots |
| OrderIndependence.SameLayerCost | apps/web/src/game/recommendedRoute.ts:185-244 | so does each layer's walk, and it holds as many routes |
| OrderIndependence.SameOutlook | apps/web/src/game/recommendedRoute.ts:466-654 | with equal caps each stage is paid for and fits in both graphs or in neither, and what is seen is the same wherever a layer fits |
| OrderIndependence.RecommendationIgnoresSlotOrder | apps/web/src/game/recommendedRoute.ts:466-654 | with equal caps, two undegraded answers over graphs with permuted rows are the same recommendation |
| OrderIndependence.WhenFlagsAgree | apps/web/src/game/recommendedRoute.ts:595-653 | with equal caps all flags of two answers agree exactly when, if the guide is paid for and the engine looks further, both see a better route in the next layer or neither does, whatever cuts that layer; when it fits they do |
| SlotOrderWitness.OrderDecidesTheFlags | apps/web/src/game/recommendedRoute.ts:595-653 | two runs over one small graph with two slots swapped and maxRoutes 1: one answers an undegraded shortest route, the other a degraded longer one |
| OrderIndependence.SuccessIgnoresSlotOrder | apps/web/src/game/recommendedRoute.ts:466-654 | where edges and filter have no direction, whether a route is found at all never depends on slot order, caps or budgets |
| SwapRoute.ReversedWalk | apps/web/src/game/pathfindingGraph.ts:709-728 | every route has a mirror route in the graph that shows the reversed hops |
| SwapRoute.DistanceBack | apps/web/src/game/pathfindingGraph.ts:709-728 | distances are the same in both directions |
| SwapRoute.SwappedRouteIsShortest | apps/web/src/game/pathfindingGraph.ts:709-728 | reversing a shortest A-to-B route gives a shortest B-to-A route over the same edges |
| SwapRoute.StripReversed | apps/web/src/game/pathfindingGraph.ts:678-728 | stripping anchors and reversing commute |
| SwapRecommendation.SwappedRecommendation | apps/web/src/game/pathfindingGraph.ts:695-728 | where edges and filter have no direction, two undegraded recommendations there and back, each under caps of its own, that both look further or both do not are each other reversed, over the same edges and with the same facts |
| SwapRecommendation.LooksAsFarBack | apps/web/src/game/pathfindingGraph.ts:695-728 | an undegraded answer back looks further too when the one there did and the next layer back fits what is left |
| GraphCache.VictimIsLeastRecentlyUsed | apps/review/review_server.py:900-914 | the entry evicted is the least recently used of all idle entries |
| GraphCache.EvictExcessKeeps | apps/review/review_server.py:900-914 | eviction keeps the cache invariant, closes only idle filed entries and ends within the bound or with every entry pinned |
| GraphCache.PromoteKeeps | apps/review/review_server.py:851-858 | the reuse-and-promote block keeps the invariant; after a reuse the key is last in order, its graph has one more user and was used later than that of every other filed key |
| GraphCache.OpenKeeps | apps/review/review_server.py:866-868 | opening a graph keeps the invariant, the new graph private to its builder and unseen by eviction |
| GraphCache.InstallKeeps | apps/review/review_server.py:869-876 | filing a built graph keeps the invariant, retires the one it found and re-establishes the bound |
| GraphCache.ReleaseKeeps | apps/review/review_server.py:882-898 | releasing keeps the invariant and the bound, closing a retired graph with its last user |
| WorkbenchGraphCacheObject.WorkbenchGraphCache.constructor | apps/review/review_server.py:813-817 | a new cache is empty |
| WorkbenchGraphCacheObject.WorkbenchGraphCache.MoveToEnd | apps/review/review_server.py:855 | the key leaves its place and stands last |
| WorkbenchGraphCacheObject.WorkbenchGraphCache.CheckAndPromote | apps/review/review_server.py:851-860 | on the fields, the reuse check and promotion do what the value function says, and report reuse exactly when it is allowed |
| WorkbenchGraphCacheObject.WorkbenchGraphCache.InstallGraph | apps/review/review_server.py:869-876 | on the fields, installing does what the value function says |
| WorkbenchGraphCacheObject.WorkbenchGraphCache.ReleaseGraph | apps/review/review_server.py:882-898 | on the fields, releasing does what the value function says |
| WorkbenchGraphCacheObject.WorkbenchGraphCache.EvictExcessLocked | apps/review/review_server.py:900-914 | the loop evicts exactly as the recursive specification does |
| WorkbenchGraphCacheObject.WorkbenchGraphCache.FindIdle | apps/review/review_server.py:908-909 | finds the first idle entry from the least recently used end, if any |
| CacheProtocol.StepKeeps | apps/review/review_server.py:827-898 | every step of every thread keeps the invariant and reopens nothing |
| CacheProtocol.RunKeeps | apps/review/review_server.py:827-898 | every state of every interleaving satisfies the invariant |
| CacheProtocol.NeverClosedWhileHeld | apps/review/review_server.py:877-898 | no graph is closed while a checkout holds it, and what is handed out was built for the requested key under the identity read in that checkout |
| CacheProtocol.ClosedForGood | apps/review/review_server.py:827-898 | a closed graph stays closed and is never handed out again |
| CacheProtocol.NothingLeaks | apps/review/review_server.py:865-898 | every opened graph is filed, or retired and held, or closed, or still with its builder |
| CacheProtocol.SettlesWithinBound | apps/review/review_server.py:900-914 | at most max_entries graphs are filed unless every one is pinned; with no checkout under way the bound holds and everything else is closed |
| CacheProtocol.LockForEver | apps/review/review_server.py:819-825 | a key's build lock, once created, stays its lock for ever and is no other key's |
| CacheProtocol.OneBuildPerKey | apps/review/review_server.py:819-846 | at most one thread per key is between acquiring and leaving the build lock; any other that wants the key waits for that very lock; filed entries are neither stale nor closed |
| CacheRecency.OrderIsLastUse | apps/review/review_server.py:851-876 | in every run the filed keys stand in the order of the last step at which each was reused or filed, read from what the threads got |
| CacheRecency.EvictedIsEarliest | apps/review/review_server.py:900-914 | in every run a key leaves only when nobody holds its graph and the cache is full without it, and every idle key that stays was reused or filed after it |
| CacheRecency.ReusedIffCurrent | apps/review/review_server.py:851-860 | in every run whoever asks gets the filed graph exactly when it carries the identity just read, idle or not; it then has one more user and stands last, and nothing else has changed |
| CacheDoubleClose.ReplacedIsClosedIffEvicted | apps/review/review_server.py:859-873 | in every run, the entry a builder found is closed before it files its own exactly when its key has left the map; it is then idle and its second close changes nothing |
| CacheDoubleClose.ClosedByAnother | apps/review/review_server.py:873-914 | whenever that happens, the step that closed it was another thread filing under another key or returning a graph |
| CacheDoubleClose.ReturnThenFileClosesTwice | apps/review/review_server.py:882-898 | a run over a bound of one, with two keys pinned, in which a last user's return closes the entry during the build of its replacement, nothing being filed in between, and filing closes it again |
| NetworkExplorer.TieIsSameNeighbour | apps/web/src/game/networkExplorer.ts:46-53 | candidates tie exactly when they name the same neighbour |
| NetworkExplorer.ComparatorMeans | apps/web/src/game/networkExplorer.ts:46-53 | a row comes no later than another exactly when its neighbour ranks higher, or as high with an id no greater |
| NetworkExplorer.SiftDown | apps/web/src/game/networkExplorer.ts:57-74 | sifting leaves the array as the recursive sift does |
| NetworkExplorer.SiftRestores | apps/web/src/game/networkExplorer.ts:57-74 | that sift restores the heap around the place it starts from and permutes the candidates |
| NetworkExplorer.WorstPlaceIs | apps/web/src/game/networkExplorer.ts:57-74 | the place swapped with is the first of the worst among a place and its two children |
| NetworkExplorer.Heapify | apps/web/src/game/networkExplorer.ts:96-99 | the building loop leaves the array as the recursive build does |
| NetworkExplorer.BuildMakesHeap | apps/web/src/game/networkExplorer.ts:96-99 | that build makes a heap of the same candidates |
| NetworkExplorer.OfferKeeps | apps/web/src/game/networkExplorer.ts:100-106 | one turn of the loop keeps the heap, and drops nothing better than what it keeps |
| NetworkExplorer.TurnedAway | apps/web/src/game/networkExplorer.ts:100-106 | a row gets into a full heap exactly when it comes before the worst kept, in whose stead it is kept; one that ties is turned away |
| NetworkExplorer.RootIsWorst | apps/web/src/game/networkExplorer.ts:55-57 | nothing in the heap is worse than its root |
| NetworkExplorer.SelectionIsPrefix | apps/web/src/game/networkExplorer.ts:76-108 | keeping the k best and sorting them gives the head of the full sort |
| NetworkExplorer.SelectTopK | apps/web/src/game/networkExplorer.ts:87-108 | the selection computed in the array is the specified one, row by row |
| NetworkExplorer.TopKIsPrefix | apps/web/src/game/networkExplorer.ts:76-108 | that selection is the first k neighbours of the full sort, and exactly its first k candidates when neighbours are distinct |
| NetworkExplorer.TopKIsSelection | apps/web/src/game/networkExplorer.ts:76-108 | the selection has as many rows as asked for, or all, in that order, and none left out belongs before one of them |
| Sorting.TiesKeepOrder | apps/web/src/game/networkExplorer.ts:76-108 | the final sort is stable: rows of one neighbour stay in the order in which the heap held them |
| NetworkExplorer.RealNeighboursExact | apps/web/src/game/networkExplorer.ts:132-200 | the candidates are the row's slots that lead to a real person, in slot order, each showing the neighbour, the release, the role at the centre and the neighbour's role of its slot |
| NetworkExplorer.BuildView | apps/web/src/game/networkExplorer.ts:132-227 | a view exists exactly for a known real artist; each edge shown is one of the centre's slots with that slot's neighbour, release, centre role and neighbour role, the edges are the first of the row by rank and id, a node with its name and role categories stands for the centre and for each edge, and counts and truncation are right |
| NetworkExplorer.PagingIsPrefixStable | apps/web/src/game/networkExplorer.ts:125-131 | a wider page starts with the narrower one: no shown neighbour moves, and no shown row changes when neighbours are distinct |
| NetworkExplorer.ParallelRowsSwap | apps/web/src/game/networkExplorer.ts:76-108 | three rows, two of them for one neighbour, whose order on the page changes when one more is shown |
| PagingRows.RowsStableIff | apps/web/src/game/networkExplorer.ts:76-131 | a page is the head of the full sort row by row, for every order of the rows, every ranking and every page size, exactly when rows that name one neighbour are equal or all rows name one |
| PagingRows.StableRowsNest | apps/web/src/game/networkExplorer.ts:125-131 | there a wider page starts with the very rows of the narrower one |
| Text.DecimalRoundTrip | apps/web/src/game/canonical.ts:18-20 | a printed natural number reads back as itself |
| Text.KeyTextInjective | apps/web/src/game/recommendedRoute.ts:373-386 | the sorted, joined text of a key set determines the set |
| Text.KeyTextIs | apps/web/src/game/recommendedRoute.ts:373-386 | the key text is the keys in code-point order with a bar between each and the next |
| Text.BeforeIsPrecedes | apps/web/src/game/canonical.ts:25 | one text is before another exactly when it is a proper prefix of it or has the lesser character at the first place where they differ |
| Text.SortedStringsAscend | apps/web/src/game/canonical.ts:25 | a set of texts is listed without repetition, each before the next in that sense |
| Json.SortFieldsSize | apps/web/src/game/canonical.ts:25 | sorting an object's members loses and invents none |
| JsonRoundTrip.ParseEscapedText | apps/web/src/game/canonical.ts:26-28 | an escaped string reads back as the string, whatever follows its closing quote |
| JsonRoundTrip.ParseIntText | apps/web/src/game/canonical.ts:18-20 | a printed integer reads back as itself, whatever non-digit follows |
| JsonRoundTrip.ParsePrinted | apps/web/src/game/canonical.ts:17-30 | at the head of any text that does not continue a number, a printed value reads back as its key-sorted form and the rest is left |
| JsonRoundTrip.CanonicalRoundTrip | packages/contracts/src/networked_players_contracts/canonical.py:23-28 | a parser recovers the key-sorted value from its canonical text |
| CanonicalForm.ReadsBackInOrder | packages/contracts/src/networked_players_contracts/canonical.py:23-28 | a canonical text reads back as the same value with the keys of every object, at every level, in code-point order |
| CanonicalForm.ObjectIsPrintedInOrder | apps/web/src/game/canonical.ts:24-29 | an object is printed with its members in code-point order, each once, commas between them |
| CanonicalForm.EscapeIsShortest | apps/web/src/game/canonical.ts:26-28 | a character is written in a shortest form that reads back as it, with lower-case digits |
| JsonEquality.PrintsSorted | apps/web/src/game/canonical.ts:24-29 | a value and its key-sorted form have the same canonical text |
| JsonEquality.SameSorts | packages/contracts/src/networked_players_contracts/canonical.py:7-13 | values equal up to key order have the same key-sorted form |
| JsonEquality.SortsSame | packages/contracts/src/networked_players_contracts/canonical.py:7-13 | and values with the same key-sorted form are equal up to key order |
| JsonEquality.CanonicalIffSame | packages/contracts/src/networked_players_contracts/canonical.py:23-36 | canonical texts are equal exactly when the values are equal up to key order at every level |
| ArtifactDiff.ReportDiff | packages/contracts/src/networked_players_contracts/artifact_diff.py:83-117 | the loops that fill the list compute the diff the function defines |
| ArtifactDiff.ReportFields | packages/contracts/src/networked_players_contracts/artifact_diff.py:92-100 | the same for two dictionaries |
| ArtifactDiff.DiffEmpty | packages/contracts/src/networked_players_contracts/artifact_diff.py:83-117 | the diff is empty exactly when the values are equal up to key order, booleans reading as 0 and 1 |
| ArtifactDiff.ChangesAreReal | packages/contracts/src/networked_players_contracts/artifact_diff.py:83-117 | every reported change names a place below the root where the two values differ in just the way it says |
| ArtifactDiff.EveryDifferenceReported | packages/contracts/src/networked_players_contracts/artifact_diff.py:83-117 | wherever the two values differ, a change is reported at that place or above it |
| ArtifactDiff.ObjectInOrder | packages/contracts/src/networked_players_contracts/artifact_diff.py:92-100 | of two dictionaries: the keys gone, then the keys added, then what changed under the keys kept, each in code-point order and under its own path and value |
| ArtifactDiff.ItemsInOrder | packages/contracts/src/networked_players_contracts/artifact_diff.py:101-113 | of two lists of one length: what changed item by item, in order, under bracketed indices |
| ArtifactDiff.ReportShowsBoth | packages/contracts/src/networked_players_contracts/artifact_diff.py:120-141 | the report carries the digest of the old value as the old one, that of the new value as the new one, and the diff from the root |
| ArtifactDiff.LooseIsStrict | packages/contracts/src/networked_players_contracts/artifact_diff.py:114-116 | equality by `!=` is equality of the texts unless a boolean faces the number it equals |
| ArtifactDiff.IdenticalIffSame | packages/contracts/src/networked_players_contracts/artifact_diff.py:120-134 | without a collision, the report says identical exactly for values equal up to key order |
| ArtifactDiff.IdenticalIffNoDiff | packages/contracts/src/networked_players_contracts/artifact_diff.py:120-141 | without a collision, identical exactly when the diff is empty and no boolean faces its number |
| ArtifactDiff.OneIsTrue | packages/contracts/src/networked_players_contracts/artifact_diff.py:115 | a concrete pair with different texts and an empty diff |
| RoundIds.IdPinsContent | packages/contracts/src/networked_players_contracts/connection_rounds.py:138-144 | two one-hop rounds with one recomputed id have the same endpoints and the same answers in any order, unless their digests collide or an endpoint's id contains the separator |
| RoundIds.OneHopIdReads | packages/contracts/src/networked_players_contracts/connection_rounds.py:138-144 | a one-hop id is made from the text of 1h, the lesser endpoint, the greater one and the answers by ascending number |
| RoundIds.TwoHopIdReads | packages/contracts/src/networked_players_contracts/connection_rounds.py:147-172 | a two-hop id is made from the text of 2h, the endpoints as they stand, the hidden record and each bridge's answers by ascending number |
| RoundChecks.CheckEvidence | packages/contracts/src/networked_players_contracts/connection_rounds.py:299-307 | nothing is reported exactly when there is evidence and every valid answer has some; and it reports just the answers without any |
| RoundChecks.CheckDistractors | packages/contracts/src/networked_players_contracts/connection_rounds.py:309-317 | it neither raises nor reports exactly when every distractor is a known contributor and no answer, members that are no objects being skipped; it raises exactly on a list it cannot loop over or an id it cannot hash, and reports just the distractors that are answers and those that are unknown |
| RoundChecks.CheckClues | packages/contracts/src/networked_players_contracts/connection_rounds.py:319-325 | it neither raises nor reports exactly when no clue eliminates a valid answer; it raises exactly where one of the lists or ids it reads makes Python raise, and reports just the answers eliminated |
| RoundChecks.CheckEndpoints | packages/contracts/src/networked_players_contracts/connection_rounds.py:327-329 | it neither raises nor reports exactly when every endpoint is an object with the id of a known album; it raises and reports exactly when one of them makes it |
| RoundChecks.CheckTwoHop | packages/contracts/src/networked_players_contracts/connection_rounds.py:331-341 | it neither raises nor reports exactly when the hidden record is among the choices, found before any choice that is no object, and each of two bridges has an answer; it raises and reports exactly when one of those parts makes it |
| RoundChecks.CheckRound | packages/contracts/src/networked_players_contracts/connection_rounds.py:291-341 | on any JSON object it neither raises nor reports exactly when every id can be hashed, answers exist and have evidence, no distractor or eliminate clue hits an answer, distractors and endpoints are known, and a two-hop round has its middle among the choices and an answer on each side; ids compare as in Python; it raises exactly when one of these checks does, and otherwise reports just what is wrong |
| ArtifactScans.SeedScan | packages/contracts/src/networked_players_contracts/connection_rounds.py:175-189 | the scan finds nothing exactly when no object at any depth has a key named seed |
| ArtifactScans.ArtScan | packages/contracts/src/networked_players_contracts/connection_rounds.py:192-208 | the scan finds nothing exactly when no object at any depth embeds a cover |
| ArtifactScans.SeedPathsExact | packages/contracts/src/networked_players_contracts/connection_rounds.py:175-189 | a path is reported exactly when a key named seed stands there, keys joined by dots and list places in brackets |
| ArtifactScans.ArtPathsExact | packages/contracts/src/networked_players_contracts/connection_rounds.py:192-208 | a path is reported exactly when an object that embeds a cover stands there, the root under a name of its own |
| Intersections.CheckMatches | packages/contracts/src/networked_players_contracts/connection_rounds.py:379-423 | it neither raises nor reports exactly when every round with two endpoints has just the answers the universe's credits give it; it raises exactly when some round's endpoints, hidden record or bridges make Python raise, and reports just the lists that differ and the two-hop rounds whose endpoints share somebody |
| Intersections.CheckKnown | packages/contracts/src/networked_players_contracts/connection_rounds.py:432-438 | it neither raises nor reports exactly when every credit names a known contributor and a known release; it raises exactly on an id it cannot hash and reports just the unknown ones |
| Intersections.SameMembersSameSet | packages/contracts/src/networked_players_contracts/connection_rounds.py:390-423 | the sets compared are the same exactly when every hashable value is in both or in neither |
| Intersections.AnswersAreShared | packages/contracts/src/networked_players_contracts/connection_rounds.py:390-399 | in a universe and one-hop round that pass, a contributor is an answer exactly when credited on both records |
| Intersections.BridgesAreShared | packages/contracts/src/networked_players_contracts/connection_rounds.py:400-423 | in a two-hop round that passes, nobody is credited on both endpoints, and a contributor answers a bridge exactly when credited on its endpoint and on the hidden record |
| ConnectionRounds.CheckRounds | packages/contracts/src/networked_players_contracts/connection_rounds.py:260-341 | the loop neither raises nor reports anything exactly when every round has a stable, self-consistent id, pool, kind and difficulty, no id repeats, and the content of each passes; it raises exactly when some entry does and reports just what is wrong with each entry, a repeated id being one that an earlier entry has |
| ConnectionRounds.RoundsFailures | packages/contracts/src/networked_players_contracts/connection_rounds.py:227-440 | for any two JSON values, an empty failure list exactly for a valid pair; wherever Python raises, the outcome is that it raises; it raises on exactly the pairs described, and a failure is in the list exactly when it is one of the pair's |
| ConnectionRounds.CarriesProvenance | packages/contracts/src/networked_players_contracts/connection_rounds.py:245-246 | a valid rounds artifact carries every provenance field required of its universe |
| ConnectionRounds.VersionPinsRounds | packages/contracts/src/networked_players_contracts/connection_rounds.py:107-113 | two valid artifacts with the same checked artifact_version hold the same rounds in the same order |
| ManifestValidator.CheckGenerations | packages/contracts/src/networked_players_contracts/connection_daily_manifest.py:320-356 | the loop reports nothing exactly when every generation is well shaped, agrees with its artifact and has its own id, and collects just those ids; a problem is in its list exactly when it is one generation's, a repeated id being one that an earlier generation has |
| ManifestValidator.GenerationProblems | packages/contracts/src/networked_players_contracts/connection_daily_manifest.py:326-356 | one generation adds nothing exactly when it is good and new |
| ManifestValidator.EntryProblems | packages/contracts/src/networked_players_contracts/connection_daily_manifest.py:370-444 | one entry adds nothing exactly when it is good by itself and follows the entries before it |
| ManifestValidator.CheckSchedule | packages/contracts/src/networked_players_contracts/connection_daily_manifest.py:367-446 | the one-pass loop neither raises nor reports exactly when every entry names an eligible round of its own generation by id and fingerprint, days are consecutive, and no date or round repeats; it raises exactly when some entry's generation cannot be hashed, and a problem is in its list exactly when it is one entry's, dates and rounds compared with every earlier entry that was read and days with the last such entry |
| ManifestValidator.ManifestFailures | packages/contracts/src/networked_players_contracts/connection_daily_manifest.py:283-446 | for any JSON value, an empty failure list exactly for a valid manifest, scans and raising included; it raises on exactly the manifests described, and a problem is in the list exactly when it is one of the manifest's |
| DailyManifest.DayOf | packages/contracts/src/networked_players_contracts/connection_daily_manifest.py:358-387 | the n-th entry's date is n days after the start date |
| DailyManifest.DayFound | apps/web/src/game/dailyManifest.ts:327-332 | asking for the n-th day, in any spelling the date parser reads as that day, finds the n-th entry exactly when the entry spells it so, and otherwise nothing |
| DailyManifest.GenerationFound | apps/web/src/game/dailyManifest.ts:334-339 | a generation is found by its id exactly when all its fields are non-empty strings |
| DailyManifest.RoundFound | apps/web/src/game/dailyManifest.ts:377-381 | among validated rounds, looking an id up finds the round that has it |
| DailyManifest.EntryResolves | apps/web/src/game/dailyManifest.ts:341-387 | from the artifact in hand the entry resolves exactly when that holds its round, from the fetched one exactly when its schema version is a number; and always to its own round |
| DailyManifest.CheckedVersionHolds | packages/contracts/src/networked_players_contracts/connection_rounds.py:364-372 | an artifact in hand that claims the generation's versions holds the entry's round whenever both snapshot dates are texts |
| DailyManifest.ScheduledDayResolves | apps/web/src/game/dailyManifest.ts:242-388 | over validated artifacts, the n-th day of a valid manifest resolves exactly when the asked date is the entry's spelling, the generation's fields are texts, and the artifact in hand holds the round or the fetched one has a number for its schema version; and then to the very round it was validated against |
| DailyManifest.DaysGetDifferentRounds | packages/contracts/src/networked_players_contracts/connection_daily_manifest.py:389-397 | different days resolve to rounds with different ids |
| DailyManifest.NeverAnotherRound | apps/web/src/game/dailyManifest.ts:383-387 | whatever is preloaded or served, a date resolves to its validated round or not at all |
| DailyAnswers.AnswerIsTrue | apps/web/src/game/dailyManifest.ts:242-388 | on any JSON, in hand or served, and any date: a resolved round is the one described, and each reason for refusing is true: what it says is missing, unreadable or different is so, and what is checked before it is in order |
| DailyAnswers.ResolvesExactly | apps/web/src/game/dailyManifest.ts:242-388 | on any such inputs the date resolves to a round exactly when the first entry for the date names a generation whose artifact, in hand or served, has its versions and has that round first under the entry's id, real, one-hop and of the entry's fingerprint |
| DailyGaps.EverySampleExists | packages/contracts/src/networked_players_contracts/connection_daily_manifest.py:283-446 | for any truthy version and snapshot date fit to publish and any schema version equal to 1 there are a manifest, rounds artifact and universe with them that both validators are asked about in the next rows; the round has an answer and evidence |
| DailyGaps.PlainDayResolves | apps/web/src/game/dailyManifest.ts:242-388 | with texts and numbers where they belong, such a manifest is valid and its day resolves |
| DailyGaps.NumberedVersionRefused | packages/contracts/src/networked_players_contracts/connection_daily_manifest.py:338-342 | with 7 for a catalog version it is valid and its day is refused |
| DailyGaps.TrueSchemaRefused | packages/contracts/src/networked_players_contracts/connection_rounds.py:241-244 | with `true` for the schema version of its rounds it is valid and its day is refused |
| DailyGaps.OtherSpellingRefused | packages/contracts/src/networked_players_contracts/connection_daily_manifest.py:377-387 | with 20240101 for a date it is valid and 2024-01-01 is refused |
| DailyGaps.NumberedSnapshotRefused | packages/contracts/src/networked_players_contracts/connection_rounds.py:363-364 | with 7 for a snapshot date, a validated artifact without rounds carries the same versions, and with it in hand the day is refused |
| Engine.RoundEngine.constructor | apps/web/src/game/engine.ts:38-50 | a new engine is in the initial state |
| Engine.RoundEngine.Answer | apps/web/src/game/engine.ts:110-136 | a guess moves the fields as the transition function says: ignored, advancing, striking or ending the round |
| Engine.RoundEngine.Advance | apps/web/src/game/engine.ts:79-95 | advancing records the step, resets the attempts and moves on or resolves |
| Engine.RoundEngine.TakeClue | apps/web/src/game/engine.ts:137-144 | the next rung is returned and counted, or -1 and nothing changes |
| Engine.RoundEngine.GiveUp | apps/web/src/game/engine.ts:145-148 | giving up resolves the round unsolved from dealing or guessing |
| Engine.EveryRunConsistent | apps/web/src/game/engine.ts:34-149 | in every run solved steps are a prefix of the plan in order, solved means the whole plan, wrong attempts are the struck entries and never exceed two a step, and the rating fits |
| EngineHistory.HistoryTells | apps/web/src/game/engine.ts:34-149 | in every run of every round: the steps answered are the right guesses in order, the struck are the wrong ones, two less the misses at the step are the attempts left, hints count up to the ladder's length, and the round is over exactly when all is answered, a step was missed twice or the player gave up, rated clean exactly when solved without miss or hint |
| EngineHistory.AnswersAreListed | apps/web/src/game/engine.ts:56-63 | the engine takes a guess for right exactly when it is a number the round lists for the step, or its hidden record |
| EngineHistory.SolvesOnJson | apps/web/src/game/engine.ts:56-63 | on the round's JSON that is an id in the answer set, or in the bridge's own list |
| EngineHistory.MiddleOnJson | apps/web/src/game/engine.ts:110-119 | and for the hidden record it is the id of the album in its middle |
| EngineHistory.StartsInOrder | apps/web/src/game/engine.ts:100-109 | nothing happens before the round is dealt, and nobody guesses before it is presented |
| Engine.LockedIffAllStruck | apps/web/src/game/engine.ts:110-136 | in every guessing state, no choice advances exactly when every answer of the step is struck |
| Engine.CanBeWonIffOpen | apps/web/src/game/engine.ts:110-136 | in every guessing state of every run of any round, some way of playing on wins exactly when each remaining step has an answer that is not struck |
| Engine.GuessKeepsOpen | apps/web/src/game/engine.ts:120-128 | a guess keeps every remaining step open exactly when it does not wrongly strike the last answer of one |
| Engine.RunFair | apps/web/src/game/flagship.ts:468-479 | with integer ids, played from the tray, only distractors and wrong records are ever struck |
| Engine.AlwaysWinnable | apps/web/src/game/engine.ts:110-136 | on the JSON of a round whose content passes the validator and whose ids the page can read, with integer ids for contributors and a text for the hidden record, played from the tray, every guessing state offers a chip neither struck nor eliminated that solves the step |
| EngineGaps.OffTrayCanLockTheRound | apps/web/src/game/engine.ts:120-128 | a published pair that passes the whole validator, with integer ids, and a run of its round with one off-tray guess after which no choice advances |
| EngineGaps.LookalikeLocksTheRound | apps/web/src/game/flagship.ts:864 | a published pair that passes, with a text for one distractor's id, and a run from the tray after which no choice advances |
| EngineGaps.TextIdsCannotBeWon | apps/web/src/game/flagship.ts:864 | a published pair that passes whose round, with texts for ids, no actions solve |
| EngineGaps.MissingListPasses | packages/contracts/src/networked_players_contracts/connection_rounds.py:309 | a published pair that passes whose round has no list of distractors, which the page reads |
| TrayPlay.AlwaysOffersIffPlayable | apps/web/src/game/flagship.ts:468-479 | on a round whose content passes and whose ids the page can read, tray play offers a winning chip in every guessing state of every run exactly when each step has one and no wrong chip of the first bridge is the only winner of the second |
| TrayPlay.PlainIsPlayable | apps/web/src/game/flagship.ts:468-479 | rounds with integer ids are of that kind |
| Engine.ActionsUseUp | apps/web/src/game/engine.ts:100-148 | every action is ignored or strictly decreases a measure |
| Engine.RoundsEnd | apps/web/src/game/engine.ts:34-149 | a round takes a bounded number of actions that do anything, however it is played |

## Left out

* Fetching, session storage, workers and promise caches: a parsed payload or a loaded graph is the input.
* DOM, routing and history code; `RoundEngine` does not notify listeners, and the transient
  `resolving` phase, which no caller can observe, is folded into `revealed`.
* What the page shows of a round besides its ids: names, titles, role texts.
* Role taxonomies: the performer test and the edge filter are parameters.
* JSON floats, lone surrogates and keys beyond the basic plane, which Python and JavaScript sort
  differently; keys are ordered by code point.
* JavaScript integers beyond 2^53, which lose precision, and from 1e21, which print with an exponent.
* `_version_field_changes`, a summary of differences the structural diff already reports.
* The schema-1 manifest validator and resolver: the schema-2 ones with a single generation.
* `connection_daily_manifest_failures_from_artifacts`: pairs artifacts with generations by position.
* `close_all` and a corpus that changes between the identity read and the build; `ScopeTierCache`.
* Graph handles are identified by ids never reused; opening one is an atomic step that may fail.
* How often a graph object has been closed: closing is a set of ids, and a second close is one that
  adds nothing.

Stated weaker than the code's own domain:

- Engine.AlwaysWinnable: asks that the page can read the round's ids (`Readable`); the validator lets a list be missing or hold nulls, on which the page throws, and what a page that has thrown shows is not part of this model.
- NetworkExplorer.BuildView: the contributor index and the rank are parameters, and the name shown for an artist missing from the graph, which cannot be a neighbour in it, is left out.
