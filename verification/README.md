# Safe routing, verified

A Dafny model of the routing service: the edge-based shortest-path engine and
its two implementations, the alternatives sweep built on it, the routing
graph's construction, the trip-trace protocol between phone and server, the
rate limiter and the screen wake lock. `dafny verify dfyconfig.toml` checks it.

How the files build on one another:

- `Topology`, `Search`: turn tables, walks, and the search as a state machine
  that may pop any minimal heap entry and adds with any `plus`. `Parity` proves
  that complete runs agree for every `plus`; `Termination` that runs end
  wherever no turn leads down, rounded sums included; `Optimality` and `Routes`
  prove, for exact addition, that they find a cheapest route; `Engines` proves
  the Python function and the C++ method, both on arrays, to be such runs.
- `Alternatives` and `Router` compose that theorem with the cost arrays, the
  diversity reruns, the detour budget, snapping and the metrics. `Tradeoffs`
  and `Costs` show that the heuristic and a departure's costs meet what the
  sweep requires, and what lambda and the surcharge trade.
- `Pack`, `Turns`, `Grouping`, `Crossing`: node index, reverse pairing, turn
  table, and the crossing-leg index against the histogram it replaced.
- `TraceTypes`, `Clip`, `ClipLength`, `Backtrack`, `Stretch`, `Pieces`,
  `Sealing`: the records, the privacy rules, how a route is clipped, how long,
  how clear and how whole what is left of it is, and what one operation
  discloses. `Store` is the server with its
  purge. `Protocol` is the whole system as one machine whose events include a
  killed app, failed transactions, lost and late requests and purges; `Safety`
  proves the invariant over every run and the guarantees that follow, against
  a log of what each trip was given.
  `Recorder` is the recorder as objects that change in place, each operation
  proved to be a run of that machine.
- `RateLimit`, `Limiter`: the token bucket, its two backends, and the
  per-client map. `WakeLock`: the controller among the browser's callbacks.

Conventions. Arithmetic is exact: reals stand for floats, except that parity is
stated for an arbitrary addition and termination for a rounded one. A method
that changes state is specified by a function of the old state, and the
theorems are about that function. `hide` statements only keep definitions out
of proofs that do not need them, and `{:induction false}` keeps Dafny from
adding an induction hypothesis of its own: every induction is written out.

What the code does that its comments do not say:

- On an edge both ends snap to, with the destination behind the origin, the
  search may answer with that edge alone, at a negative ETA. `Router.Serve`
  gives the exact condition for a query: such an edge, and no edge on which the
  short cut applies; `Router.NegativeEta` is one. `detour_pct` stays within its
  bounds even then, because it is only filled in over a positive ETA.
- With a capacity below one token a refused caller is told to wait for a time
  after which it is still refused: `RateLimit.AdmittedExactly`.
- The Redis key's expiry can be observed when the clock steps back:
  `RateLimit.ExpiryShowsWhenClockStepsBack`; `RateLimit.AgreeExactly` says when.
- A vertex within EPS_M of a cut is dropped, so a line that turns there loses
  some of its length when it is clipped: `Backtrack.TooCloseToTell` is one, and
  `ClipLength.KeptLength` says exactly which do.
- Optimality needs less than the engine's comments ask: neither a non-negative
  heuristic nor non-positive refunds, only consistency.

## Model

| member | source | states |
|---|---|---|
| Parity.LivePopsAgree | pyref/search.py:97-119 | Two searches in the same visible state that each pop a live entry minimal for (f, edge) pop the same edge at the same cost and reach the same visible state, whatever else their heaps hold |
| Parity.RunsAgree | pyref/search.py:97-119 | Two halted runs from one visible state end in one visible state, although they may skip different stale entries; for any addition whatever, so whatever the rounding |
| Parity.Confluence | pyref/search.py:7-29 | Parity as confluence: any two complete runs expand the same edges in the same order, and any two answers read off them are equal |
| Parity.EnginesAgree | core/src/engine.cpp:30-110 | Any two engines that answer from some complete run return the same turns, first and last edge and cost, or both nothing |
| Termination.ConsistentInflates | pyref/search.py:66-70 | So do exact sums with a consistent heuristic, arcs of any sign |
| Termination.RoundedInflates | pyref/search.py:7-29 | Any monotone, idempotent rounding of sums of non-negative arcs, from representable seeds, meets the condition the engines need to stop |
| Termination.NoWayRound | pyref/search.py:108-119 | An edge already on the way to e is never improved by a turn out of e: no cycle ever pays |
| Termination.PopSettles | pyref/search.py:97-119 | Every pop leaves strictly fewer costs that could still improve on something, or as many and a smaller heap; with an inconsistent heuristic too, where edges are expanded again |
| Termination.BestHasChain | pyref/search.py:124-132 | The walk back from the best edge ends at a seed, zero-cost arcs, ties, rounding and re-expanded edges included |
| Optimality.PopKeeps | pyref/search.py:97-119 | One step keeps the whole search invariant; a live pop appends a new edge to the expansion order, a stale one changes nothing, and settled edges keep place, cost and predecessor |
| Routes.RunInv | pyref/search.py:66-119 | The invariant holds in every state of every run from the seeds |
| Routes.ExpandedOnce | pyref/search.py:97-103 | In any run, complete or not, no edge is expanded twice, and edges are expanded in ascending f |
| Routes.Frozen | pyref/search.py:97-119 | What is expanded keeps its place, distance and predecessor for the rest of the run |
| Routes.WalkBound | pyref/search.py:97-119 | For any allowed walk, at any time: either its end is expanded at no more than its cost, or an open edge has a key no greater than the walk's cost plus h of its end |
| Routes.HaltIsOptimal | pyref/search.py:22-27 | The slack stop is exact: when the search halts, no route of any length is cheaper than the best finalized one, and there is one if any route exists |
| Routes.ChainIsWalk | pyref/search.py:124-135 | Walking `pred` back collects an allowed, contiguous walk from a seed edge whose cost is exactly that edge's distance |
| Routes.ChainExists | pyref/search.py:124-132 | `pred` has no cycle, zero-cost arcs included: the walk back from any expanded edge ends at a seed |
| Routes.SearchIsOptimal | pyref/search.py:66-135 | For every topology, every arc, seed and refund of any sign and every consistent heuristic: the answer is a route of least seed + arcs + refund, with exactly that total, and is nothing exactly when no route exists |
| Routes.HeuristicsAgree | pyref/search.py:66-70 | Dijkstra and A*, or two consistent heuristics, both fail or both find the same cost |
| Engines.DestAdjust | pyref/search.py:79 | The refund dictionary: of two entries for one edge the later wins |
| Engines.SlackOf | pyref/search.py:81-85 | The loop computes the slack over every listed destination, duplicates included |
| Engines.PushSeeds | pyref/search.py:87-92 | Seeding reaches the machine's initial state: the least of a repeated edge's seeds, every improvement pushed |
| Engines.RelaxRow | pyref/search.py:108-119 | The inner loop over arrays is the machine's strict relaxation of exactly these turns in this order |
| Engines.Reconstruct | pyref/search.py:124-132 | The reconstruction loop stops and returns exactly the chain the predecessors spell from the best edge back to a seed |
| Engines.ShortestPath | pyref/search.py:66-135 | The Python search stops and returns the answer of a complete run of the machine, for any heuristic and any addition under which no turn leads down: rounded sums of non-negative arcs, or exact ones with a consistent heuristic |
| Engines.Engine.Refunds | core/src/engine.cpp:37-39 | The C++ refund vector holds what the dictionary holds |
| Engines.Engine.ShortestPath | core/src/engine.cpp:30-110 | The C++ search, with its vector of refunds and pop before stop test, stops under the same condition and returns the answer of a complete run of the same machine |
| Alternatives.ArraysDominate | pyref/costs.py:757-760 | Lambda-weighted, surcharged and repeatedly inflated arrays all stay at or above the time array |
| Alternatives.StaysConsistent | pyref/costs.py:763-777 | Hence the heuristic that is consistent for time is consistent for every array the sweep searches with |
| Alternatives.RanPath | pyref/alternatives.py:105-109 | Every search of the sweep succeeds exactly when some route exists, and what it finds is an allowed walk between a seed and a destination |
| Alternatives.TravelTimeIsCost | pyref/alternatives.py:45-64 | With distinct seed edges, `travel_time_fn` of a path is exactly the cost the search minimizes at lambda 0 |
| Alternatives.EdgeSetIs | pyref/search.py:57-58 | A route visits the edge it starts on, every edge a turn of it enters, and no other |
| Alternatives.FastestIsFastest | pyref/alternatives.py:105-111 | The lambda 0 run has the least travel time of all paths, not only of those found |
| Alternatives.AvoidWithinBudget | pyref/alternatives.py:219-246 | Returns the strictly cleaner hard-avoid route within the budget together with its array, and nothing exactly when no answer of that search is one |
| Alternatives.Diversify | pyref/alternatives.py:126-140 | Each rerun makes every turn into an edge that the last duplicate shares with a kept route cost a factor more and no other turn; it stops at the first route that is no duplicate, gives up only after max_reruns, and every array stays above time |
| Alternatives.InflateIs | pyref/alternatives.py:129-135 | The union and the mask inflate exactly the turns into edges that the duplicate shares with some kept route |
| Alternatives.DuplicateRepeats | pyref/alternatives.py:39-42 | The Jaccard test finds a route a duplicate exactly when it shares more than the threshold of all edges visited with some route kept |
| Alternatives.EnforceBudget | pyref/alternatives.py:149-154 | The ceiling leaves exactly the list that the budget specification gives |
| Alternatives.WithinExactly | pyref/alternatives.py:149-154 | What the budget leaves are the first route and exactly the later ones that fit, each in its old order |
| Alternatives.AffordableStay | pyref/alternatives.py:149-154 | Of the routes collected exactly those stay, in order, whose travel time is at most 1 + budget times that of the first |
| Alternatives.RelabelKeeps | pyref/alternatives.py:156-165 | Relabelling by position keeps routes, lambdas, distances from one another, and for each route the guarantee of the slot it came from |
| Alternatives.CollectRoutes | pyref/alternatives.py:97-147 | The sweep loop collects exactly what the slots in order leave: each slot searched at its lambda, diversified against the routes before it, and dropped exactly when it still repeats one of them or is less safe than its own candidate; nothing exactly when nothing is reachable |
| Alternatives.SweptFirst | pyref/alternatives.py:105-111 | The first slot is always collected, un-inflated: the lambda_fast optimum is the first route and the time baseline |
| Alternatives.ComputeAlternatives | pyref/alternatives.py:67-165 | The returned list is the answer, nothing added and nothing missing: the whole sweep, the first route and those within the budget, labelled by position; and it keeps every promise of AnswerIsCurated, so NoTwoAlike holds of it |
| Alternatives.AnswerIsCurated | pyref/alternatives.py:1-18 | The promise: 1 to 3 routes exactly when a route exists, the lambda_fast optimum first, no two sharing more than the threshold of all edges they visit, within the budget, each from its own slot in ascending lambda with no more flagged turns than that slot's un-inflated candidate, labels fast, balanced, safe |
| Alternatives.NoTwoAlike | pyref/alternatives.py:39-42 | Of any two routes returned, with edge sets A and B, A * B has at most threshold times as many edges as A + B; with a threshold below 1 no two visit the same edges |
| Alternatives.EverySlotAccounted | pyref/alternatives.py:97-147 | Every slot's outcome is collected, or it shares more than the threshold of all edges visited with a route collected before it, or it is less safe than the slot's own candidate; no slot is dropped for anything else |
| Alternatives.OneAnswer | pyref/alternatives.py:67-165 | A query has only one answer, whichever engine ran the searches: two lists that both meet the specification are equal, so dropping or adding a route would not meet it |
| Alternatives.ComputeSingle | pyref/alternatives.py:168-216 | A reroute returns nothing exactly when no route exists, else the optimum at the carried lambda or, at the safe level, the strictly cleaner route within the budget |
| Router.ComputeEta | pyref/metrics.py:35-45 | The two share adjustments, on one cell for a single-edge route, give partial first edge, whole edges between, partial last edge and every delay |
| Router.EtaIsTravelTime | pyref/metrics.py:33-45 | For a path of any length between snapped ends, the ETA reported is the number `travel_time_fn` budgets by |
| Router.SameEdge | pyref/engine.py:155-166 | The short cut fires exactly when some shared edge has the origin at or before the destination, and answers along the first such origin edge with the cost of the piece between |
| Router.WithDetourPct | pyref/engine.py:44-51 | In place: each route's share over the least ETA, and nothing is written when that is not positive |
| Router.FirstIsFastest | pyref/engine.py:211-221 | With lambda_fast = 0 the first alternative has the least travel time of all routes between the snaps |
| Router.Describe | pyref/engine.py:215-220 | Every artifact carries its route's travel time as its ETA |
| Router.Serve | pyref/engine.py:179-221 | Any query: refused exactly for a failed snap or an unreachable destination; the short cut, when it applies, is the one route, at its own cost; else the artifacts are the answer of the sweep, first fastest, every `detour_pct` in [0, budget]; and the first ETA is negative exactly when no short cut applies and a shared edge that takes time has the destination behind the origin |
| Router.EtaSign | pyref/metrics.py:39-45 | A route's ETA is negative exactly when it takes no turn, ends behind where it starts and its edge takes time |
| Router.FastEtaSign | pyref/engine.py:168-171 | The answer of a search at lambda 0 has a negative travel time exactly when some edge both ends snap to takes time and has the destination behind the origin |
| Router.NegativeEta | pyref/engine.py:155-171 | A concrete query with a negative ETA: a one-way street of 10 seconds, from 0.7 of it to 0.3, is answered by itself, at -4 seconds |
| Tradeoffs.HeuristicConsistent | pyref/costs.py:763-777 | Straight-line time at the top free-flow speed is consistent for any array at or above edge time, given a metric, edges no shorter than their chord and congestion that only slows |
| Tradeoffs.LambdaIsOptimal | pyref/alternatives.py:105-109 | The optimum at a lambda: no path between the snaps has less travel time and lambda times penalty together |
| Tradeoffs.RaisingLambda | pyref/costs.py:757-760 | Raising lambda never raises the optimum's total penalty and never lowers its travel time |
| Tradeoffs.AvoidIsWorthIt | pyref/alternatives.py:237-239 | A route with k fewer flagged turns than the hard-avoid answer costs at least k surcharges more at that lambda |
| Costs.SentinelAddsNothing | pyref/costs.py:663-668 | Padding the gap legs with the sentinel edge leaves the summed flow unchanged |
| Costs.DelayBounds | pyref/costs.py:658-671 | A control delay lies between the fixed wait and the fixed wait plus the cap, whatever the exponential |
| Costs.GapWait | pyref/costs.py:476-490 | Without flow nobody waits for a gap; with it the wait is Adams' formula up to the cap, where the exponent is at most 50 |
| Costs.RiskOfTraffic | pyref/costs.py:686-696 | The risk of a turn never falls with traffic, is flat below none and above the maximum with the stated values there, and is 0 for a protected turn |
| Costs.FlaggedIsRed | pyref/costs.py:684-735 | A turn counted unsafe comes in on an observed approach that nothing protects (no control, or a stop or yield it must obey), is painted in the unsafe tier and pays at least the scaled threshold; it is counted as a crossing exactly if it is over the threshold and goes straight across a busy or major approach so, and as a left turn exactly if it turns left into a busy or major road so |
| Costs.FitsTheSweep | pyref/costs.py:737-754 | One departure's costs meet everything the sweep requires: non-negative times and penalties and a consistent heuristic |
| Costs.DeparturesCanBeServed | pyref/engine.py:168-174 | So any query between any snaps, posed on a departure's network with the straight-line heuristic, meets what serving it requires |
| Pack.NodeOutPtr | ingestion/pack.py:107-110 | The shifted histogram and running sum give, at n, the number of edges leaving a node below n |
| Pack.IndexIsExact | ingestion/pack.py:107-110 | Over sorted edges the index enumerates exactly each node's out-edges |
| Pack.ByEndpoints | ingestion/pack.py:115-119 | Every edge is listed under its ends and way, and nothing else is |
| Pack.PairReverses | ingestion/pack.py:112-130 | The in-place greedy pairing is an involution without fixed points that swaps ends within one way, and is maximal: no two opposite edges of one way both stay alone |
| Turns.WrapIsUnique | ingestion/turns.py:40-43 | Wrapping yields the one angle in (-180, 180] a whole number of turns away |
| Turns.BuildTurnTable | ingestion/turns.py:79-118 | The rows of every edge are the out-edges of the node it leads to, in order, and there are no others; and by the bearings alone: where they differ by d in (-180, 180], but for whole turns, and the turn does not lead back along its street, it is a RIGHT from 30 to 150, a LEFT from -150 to -30, STRAIGHT between -30 and 30 and else a UTURN, which is allowed only where there is no other way out |
| Turns.TurnInEdge | pyref/graph.py:154-160 | The expansion gives every row its in-edge |
| Turns.BuildRoads | ingestion/pack.py:107-185 | From any sorted edges: a valid index, a maximal pairing, a complete turn table, named by the bearings, and its in-edges |
| Turns.BuiltPackIsValid | pyref/graph.py:168-185 | Every built table satisfies the topology the search requires, every turn starts where its in-edge ends, and no STRAIGHT leaves along the reverse of its in-edge |
| Turns.EveryTurnOnce | ingestion/turns.py:97-112 | For every edge and every edge leaving its head there is exactly one turn, allowed unless it is a U-turn with another way out, and always a U-turn along the same street |
| Grouping.ArgsortIsStable | pyref/costs.py:466 | The order scattered by ascends in key and keeps the order of equal keys |
| Grouping.ArgsortIsComplete | pyref/costs.py:466 | Every position is in it |
| Grouping.Counts | pyref/costs.py:467-469 | Block starts are the running sum of group sizes, and the width is the largest group, at least 1 |
| Grouping.GroupPadded | pyref/costs.py:461-473 | One scatter through slot numbers puts exactly each key's values in its row, in order, then -1 |
| Crossing.StraightHasTwoLegs | pyref/costs.py:435-441 | In every built table a STRAIGHT's own approach and the reverse of its way out are two different approaches of its node, the premise of the old count |
| Crossing.LegsAreTheOracle | tests/test_cross_count.py:47-59 | For every mask, histogram minus own approach minus reverse of the way out is positive exactly when some listed leg is marked, edges with no reverse included |
| Crossing.OracleIsSomebody | pyref/costs.py:435-441 | What the count comes to: some marked approach leads into the turn's node that is neither the way in nor the reverse of the way out |
| Crossing.PaddingIsHarmless | pyref/costs.py:428-431 | Repeating the first leg never changes whether any is marked |
| Crossing.CrossingLegs | pyref/costs.py:416-458 | The index lists exactly the gated turns that cross somebody, ascending, each with its crossed approaches padded to one depth; the assertion about STRAIGHT reversals never fires |
| Crossing.Scatter | pyref/costs.py:651-654 | One masked scatter answers every gated turn as the histogram would and touches no other; turns dropped from the index could only answer no |
| Crossing.UncontrolledCrossing | pyref/costs.py:641-655 | The two scatters never overwrite each other and together equal the original predicate |
| Crossing.CrossingFlags | tests/test_cross_count.py:62-67 | Statics and request together equal the original formulation, for every built table and every busy, major and over-threshold mask: a turn is flagged exactly if it is over the threshold, goes straight at an observed approach, and crosses a busy approach where there is no control or a major one where it must stop or yield |
| TraceTypes.TraceFixIsValid | web/lib/tracePrivacy.ts:92-114 | Whatever the geolocation stream delivers, an accepted fix passes the server's bounds and the accuracy limit |
| TraceTypes.TraceFixExactly | web/lib/tracePrivacy.ts:92-114 | A reading is a fix exactly when its time, place and accuracy are finite, the place is on the globe and the accuracy within 100 m; the time is rounded to the nearest millisecond, a speed is kept if not negative, a heading from 0 to 360, and nothing else changes |
| TraceTypes.FollowsExactly | web/lib/tracePrivacy.ts:120-127 | A fix counts after another exactly when it is at least 900 ms later and at most 70 m away per second passed; the first always does |
| TraceTypes.SealablePrefix | web/lib/tracePrivacy.ts:129-138 | The longest prefix clear of the head, and none without a head |
| Clip.LongestRun | web/lib/tracePrivacy.ts:229-243 | The nested scan finds the longest run of at least two consecutive clear samples, the first of equals, or that there is none |
| Clip.NothingLonger | web/lib/tracePrivacy.ts:229-243 | No clear stretch anywhere on the line, maximal or not, is longer than the one kept |
| Clip.SampleLine | web/lib/tracePrivacy.ts:206-227 | The sampling loops visit every vertex and the points between, in order |
| Clip.CutSegments | web/lib/tracePrivacy.ts:271-291 | The loop places the pieces along the line, cuts each to the stretch and keeps those clear throughout; what the pieces then are, ClippedPieces and StillTiles say |
| Clip.ClipArtifact | web/lib/tracePrivacy.ts:192-322 | The whole method computes the one clip the longest run determines, or nothing: exactly what LostExactly, ClipKeepsAway, ClippedIsRebased, UnsafeKept, ClippedPieces and StillTiles are about |
| Clip.ClipIsPrivate | web/lib/tracePrivacy.ts:167-191 | Every coordinate, piece, maneuver and unsafe point of a clipped artifact is clear of every anchor and of the artifact's own two ends; what is not a place is unchanged |
| Clip.ClipKeepsAway | web/lib/tracePrivacy.test.ts:39-42 | Every place in a clipped artifact is 300 m and the accuracy of its measurement away from each anchor, and 300 m from where the route begins and ends |
| Clip.UnsafeKept | web/lib/tracePrivacy.ts:299-312 | Exactly the unsafe points that are clear and whose nearest sample, the first of equals, lies on the stretch are kept, in order |
| ClipLength.AllSamplesOn | web/lib/tracePrivacy.ts:206-227 | Every sample lies on its segment at its stated distance, and distances never decrease, repeated vertices included |
| ClipLength.StraightExactly | web/lib/tracePrivacy.ts:256-269 | Along points whose distances add up, going straight from the first to the last is no shorter exactly when each point between is on the way from the first to the next |
| ClipLength.KeptLength | web/lib/tracePrivacy.ts:252-269 | On any line along whose segments distance adds up: the cut line is as long as the stretch between the two samples if and only if every vertex dropped within EPS_M of a cut lies on the way from the last point kept to the next; offsets lose exactly the length before the stretch if and only if that holds up to the first vertex kept; both hold where consecutive vertices are repeated or more than EPS_M apart, and on every line to within 4 and 2 EPS_M |
| Backtrack.TooCloseToTell | web/lib/tracePrivacy.ts:252-261 | A line that is clipped and falls short: it goes 300 m out, back by half of EPS_M and on, with no anchors; 400.000001 m of it are kept and `distance_m` says 400 |
| Stretch.EveryMetre | web/lib/tracePrivacy.ts:206-227 | Every vertex is a sample, marked clear exactly if it is, and from one sample to the next it is at most a metre |
| Stretch.LostExactly | web/lib/tracePrivacy.ts:229-261 | A route is withheld whole exactly when it has fewer than two points or nowhere along it two samples in a row are clear; the closing check of the geometry never fires |
| Stretch.AllOfItIsClear | web/lib/tracePrivacy.ts:206-227 | Not only the vertices: no place anywhere along the stretch kept is within 299.5 m, and the accuracy, of a private point |
| Stretch.CutsNoMore | web/lib/tracePrivacy.test.ts:43-48 | No more is cut than has to be: both cuts lie less than 301 m from a private point, its accuracy taken off, strictly inside the line |
| Pieces.ClippedPieces | web/lib/tracePrivacy.ts:271-291 | For segments that tile the line: each piece kept begins on the line at the later of its segment's start and the first cut and ends at the earlier of its end and the second, to within EPS_M, with exactly the vertices of its segment between the cuts; the clip begins and ends at the cuts; a segment is left out only if it is outside the stretch or has an end within EPS_M of a cut that is not clear, and never where vertices are repeated or more than EPS_M apart |
| Pieces.StillTiles | web/lib/tracePrivacy.test.ts:65-75 | Clipped pieces still tile: each begins where the one before ends, joined they are the clipped line vertex for vertex, from its first coordinate to its last, and their lengths add up to `distance_m`; exactly where vertices are repeated or more than EPS_M apart, and to within EPS_M at each end where no vertex within EPS_M of a cut is anything but clear; only a stretch of at most 2 EPS_M may have no pieces |
| ClipLength.ClippedIsRebased | web/lib/tracePrivacy.ts:293-315 | The same for a clipped artifact: `distance_m` is the kept stretch's length exactly when no dropped vertex was a detour; the maneuvers kept are exactly the clear ones of the stretch, in order, each within it and as far from its start as before up to EPS_M and that tolerance; they never change order, and two that were not moved up to the cut are exactly as far apart as before |
| Sealing.SealArtifactOk | web/lib/tripRecorder.ts:269-284 | A sealed artifact takes the next seq, is valid, and is the clip of the very route it dates: clear of every anchor of the record and of that route's own two ends |
| Sealing.SealFixesOk | web/lib/tripRecorder.ts:301-303 | Any number of sealable fixes come out in consecutive valid chunks, in order, none invented |
| Sealing.SealOk | web/lib/tripRecorder.ts:288-304 | One sealing keeps the record's invariant, uses consecutive seqs, discloses only accepted fixes clear of head and anchors and clips of followed routes, and seals anything only if some fix was sealable |
| Sealing.SealedInOrder | web/lib/tripRecorder.ts:288-304 | What is sealed comes from the front of `pending`, in order, before everything that stays |
| Sealing.ReadyExactly | web/lib/tripRecorder.ts:288-294 | Sealable are exactly the pending fixes 300 m from every anchor, accuracies off, with no fix up to them less than that from the head; in order |
| Sealing.SealsEverything | web/lib/tripRecorder.ts:288-304 | With seqs left and requests that fit, one sealing discloses every sealable fix, in order, and the first time there is one also what can be shown of every route held back, in order |
| Sealing.StartTripOk | web/lib/tripRecorder.ts:504-532 | A new record dates from its start, holds its route back, predicts from it, and its anchors include both ends of the route and the destination |
| Sealing.AddFixOk | web/lib/tripRecorder.ts:534-556 | An accepted fix becomes the head, the first one an anchor; anchors only grow, and every pending fix is an accepted one in time order |
| Sealing.SealsInTime | web/lib/tripRecorder.ts:540-552 | A fix is kept pending exactly if it is clear of the anchors, and sealing happens exactly when 120000 ms have passed since the head of the last one |
| Sealing.RerouteOk | web/lib/tripRecorder.ts:558-574 | A reroute adds its end to the anchors before anything is clipped, takes effect strictly later than what it replaces, and uploads only once fixes were sealed |
| Sealing.HeadedKnows | web/lib/tripRecorder.ts:540-549 | A record with a new head still holds every private point of its trip, and the trip's first fix is one of them |
| Sealing.ReroutedKnows | web/lib/tripRecorder.ts:558-574 | A rerouted record still holds every private point of its trip, the new end included, and predicts from the new route |
| Sealing.EndIsValid | web/lib/tripRecorder.ts:335-337 | `ended_at` is never before the prediction or the last fix, so the end passes the server's validator |
| Sealing.TimesExactly | web/lib/tripRecorder.ts:333-337 | A reroute takes effect when it is made or just after the one before, whichever is later; a trip ends when it is ended, with its last fix or with its last route, whichever is latest |
| Store.TraceStore.Claim | commute/store.py:238-247 | The first token to write to a trip owns it |
| Store.TraceStore.Put | commute/store.py:249-266 | Stores, replays, refuses or conflicts exactly as the specified step, and only ever grows the tables; a created row has the time, digest and body received and tells how many fixes there are and when the first and the last were taken, and no other row changes |
| Store.TraceStore.End | commute/store.py:268-285 | The same for a trip's end: a created row has the time, digest, end, arrival and prediction received |
| Store.TraceStore.PurgeRawTraces | commute/retention.py:30-43 | Clears exactly the expired bodies, and returns how many |
| Store.HandleOutcome | commute/store.py:249-285 | Each outcome exactly when: not yours for another token's trip, conflict for another digest under the key, created for a free key; afterwards created and replayed rows are held under the body's digest, and no other key changed |
| Store.PurgeExact | commute/retention.py:30-43 | A body is gone after a purge exactly if it was gone or older than the limit; digests and ends stay; a second purge changes nothing |
| Store.StoredForDays | commute/retention.py:30-43 | A chunk keeps its body until a purge more than maxAgeDays days after it was received, which clears it and nothing else, and stamps the time |
| Store.PurgedForGood | commute/store.py:156-170 | A cleared body never comes back, whatever is written later |
| Store.RetryReplays | commute/store.py:256-260 | A retry of what is held is a replay that stores nothing, however much later and whatever was purged in between |
| Safety.StepInv | web/lib/tripRecorder.ts:252-582 | Every step of phone, network, server, purge, kill and relaunch keeps the protocol invariant, a failed or interrupted transaction included |
| Safety.StepEvolves | commute/store.py:156-176 | No step takes back a binding, a request, an acknowledgement or a stored row |
| Safety.AlwaysInv | web/lib/tripRecorder.ts:432-610 | The invariant holds after every sequence of events from a fresh phone and an empty server |
| Safety.NeverRefused | web/lib/tripRecorder.ts:393-421 | In no run is the recorder answered with a conflict or with a trip that is not its own, and any request ever sent, delivered again at any time, is created or replayed |
| Safety.OneBodyPerKey | web/lib/tripRecorder.ts:254-267 | Each (trip, seq) and each trip end is bound to one body for good, and every request and queued item carries it |
| Safety.AcknowledgedIsHeld | web/lib/tripRecorder.ts:400-403 | An item removed after a 2xx is held by the server under its sealed digest, then and in every later state, and retrying it is a replay |
| Safety.NothingLost | web/lib/tripRecorder.ts:306-331 | A sealed request waits in storage until it is acknowledged, dropped on a permanent answer or deleted by the user |
| Safety.OnlyValidAndPrivate | commute/schemas.py:97-159 | Everything that ever enters the outbox passes the server's validators and is clear of the private points of the record that sealed it, which include both ends of the route the trip started on, its destination, the end of every route followed by then and the first fix; every fix was accepted for the trip, and every artifact is a route the trip followed from that very time, clear of its own two ends |
| Safety.EverythingFar | web/lib/tracePrivacy.ts:7-16 | In metres: every bound fix is 300 m, both accuracies off, from each private point of its record and from the head at the time, and every place of a bound route 300 m, the accuracy off, from each private point |
| Safety.SendsOnlyWhenAllowed | web/lib/tripRecorder.ts:393-399 | A step puts a request on the network only if the user opted in, uploading is enabled, the token was not rejected and the request waits in the outbox |
| Safety.SentAndQueuedAreBound | web/lib/tripRecorder.ts:254-267 | What waits in storage or in memory, and what was ever put on the network, is what was bound under its key |
| Safety.OneWhole | web/lib/tripRecorder.ts:561-568 | No two routes of a trip take effect at one time, so the route an artifact was clipped from is its own |
| Safety.EndPredictsFollowed | web/lib/tripRecorder.ts:313-331 | The prediction of an end, from the moment it is queued, has the time, the duration, the level and the profile of a route the trip followed |
| Safety.TraceInOrder | web/lib/tripRecorder.ts:286-304 | Over a whole trip the sealed fixes are in time order across and within chunks |
| Safety.TraceIsSubsequence | web/lib/tripRecorder.ts:286-304 | The fixes bound in seq order are a time-ordered subsequence of the fixes accepted for the trip: none invented, none twice, none out of order |
| Safety.NoRouteBeforeFixes | web/lib/tripRecorder.ts:20-23 | Every chunk ever bound, with fixes or with a route, was sealed by a record that had a fix clear of everything private or had sealed one before |
| Safety.NeverClearUploadsOnlyEnd | web/lib/tripRecorder.ts:18-23 | If no sealing of a trip ever found such a fix, nothing of the trip is bound or sent but its `end`, then or after it has ended |
| Safety.ClearedByStep | web/lib/tripRecorder.ts:288-294 | A trip counts as cleared only by a step that seals a record of it with a pending fix clear of every anchor and of the head |
| Recorder.OpenTripRecord.SealChunk | web/lib/tripRecorder.ts:254-267 | The in-place step takes the next seq unless seqs or size run out |
| Recorder.OpenTripRecord.SealArtifact | web/lib/tripRecorder.ts:269-284 | Clips and seals, or nothing |
| Recorder.OpenTripRecord.Seal | web/lib/tripRecorder.ts:288-304 | The loops over held artifacts and slices of 600 leave the record and the items the sealing specification gives |
| Recorder.OpenTripRecord.Accept | web/lib/tripRecorder.ts:540-552 | Anchor, head, pending and the two-minute seal, on the record in place |
| Recorder.OpenTripRecord.Follow | web/lib/tripRecorder.ts:562-570 | The replacement's end joins the anchors first, then it is sealed or held, on the record in place |
| Recorder.PrefixOf | web/lib/tracePrivacy.ts:129-138 | The loop counts exactly the sealable prefix |
| Recorder.DeviceStorage.Apply | web/lib/traceStorage.ts:105-112 | All of the operations or none, as the transaction goes |
| Recorder.TripRecorder.Finalize | web/lib/tripRecorder.ts:313-331 | One transaction replaces the record by its last chunks and its end, in storage and memory alike, and touches nothing of another trip; if it fails only the in-memory record has moved on |
| Recorder.TripRecorder.Init | web/lib/tripRecorder.ts:435-445 | Ends the orphaned trips in turn, one transaction each, until one fails: the end of each is queued, not arrived and dated by its own start, last fix and last route, its record is gone, and the records not reached stay |
| Recorder.TripRecorder.OptIn | web/lib/tripRecorder.ts:464-470 | The token is set in memory, enabled and not rejected, then stored, and nothing else changes |
| Recorder.TripRecorder.SetEnabled | web/lib/tripRecorder.ts:480-487 | The setting changes in memory and, if the transaction goes, in storage; only then switching off ends the open trip, not arrived, which is closed and its end queued if its own transaction goes |
| Recorder.TripRecorder.Forget | web/lib/tripRecorder.ts:489-502 | Storage and memory are emptied together if the transaction goes, and nothing changes if not |
| Recorder.TripRecorder.StartTrip | web/lib/tripRecorder.ts:504-532 | A trip still open is ended first, not arrived, and stays if that fails; then there is a new one exactly if the device may record, and it is stored if that transaction goes |
| Recorder.TripRecorder.AddFix | web/lib/tripRecorder.ts:534-556 | A usable fix that follows the head of an open trip becomes its head and moves memory and storage as the protocol's step and its transaction do; any other changes nothing |
| Recorder.TripRecorder.Reroute | web/lib/tripRecorder.ts:558-574 | The same for a reroute: its end joins the anchors, and the trip predicts from it from now on |
| Recorder.TripRecorder.EndTrip | web/lib/tripRecorder.ts:576-581 | One transaction closes the trip and queues its end, with its time, arrival and prediction, in memory and storage alike; if it fails the trip stays open |
| Recorder.TripRecorder.First | web/lib/traceStorage.ts:85-89 | The item sent next is no younger than any other; of one trip and moment it is the chunk of least seq, or the end if there is no chunk |
| Recorder.TripRecorder.Drain | web/lib/tripRecorder.ts:393-421 | Requests go out oldest first, a trip's chunks by seq and before its end, and nothing older stays behind; memory and storage lose exactly the requests answered by a status below 500 other than 401, 408, 425 and 429 while storage goes, nothing is sent after any other answer, and only a 401 changes the settings: it marks the token |
| Recorder.ReplyByStatus | web/lib/tripRecorder.ts:136-143 | One reply, by its number: no answer, 408, 425, 429 and 500 or more change nothing; a 401 keeps every request and marks the token, in storage too if that goes; any other removes the request from both, if storage goes |
| Recorder.SentByAge | web/lib/traceStorage.ts:83-89 | Of what one pass sends, each is no younger than the next and than all that stays; of one trip and moment, chunks go by seq and before the end |
| Recorder.OperationIsRun | web/lib/tripRecorder.ts:237-250 | Every operation, whichever of its transactions fails, leaves memory and storage as some run of the protocol machine does, so every guarantee over runs covers it |
| Recorder.InitIsRun | web/lib/tripRecorder.ts:435-445 | So does the launch, which ends orphaned trips one transaction each |
| Recorder.ReplyIsRun | web/lib/tripRecorder.ts:399-413 | Every reply of the drain, whatever its status, is a run of the protocol machine too |
| Recorder.ReplyIsRemembered | web/lib/tripRecorder.ts:399-413 | In that run the request counts as acknowledged exactly after a 2xx, and as dropped exactly after another status below 500 outside 401, 408, 425 and 429, if its removal was stored; no other reply settles it |
| RateLimit.AdmittedExactly | api/ratelimit.py:86-89 | A lone refused caller is next admitted exactly when it has waited `retry_after` and the capacity is at least one token |
| RateLimit.HeaderSuffices | api/ratelimit.py:61-68 | The integer header of section 10.2.3 of RFC 9110 is never 0 and is the least positive number of seconds that suffices |
| RateLimit.RefusalIsFree | api/ratelimit.py:86-89 | A refusal costs nothing: the wait only shortens, by the clock's forward movement |
| RateLimit.Conservation | api/ratelimit.py:71-89 | Over any run and any clock: admissions, tokens left and tokens spilled add up to the initial tokens plus rate times forward clock movement; tokens stay in [0, capacity] |
| RateLimit.InProcessTokenBucket.Acquire | api/ratelimit.py:110-113 | The object's fields take the step |
| RateLimit.RedisKey.TakeToken | api/ratelimit.py:133-162 | The script, statement by statement, is the same arithmetic on the hash or, for a missing or expired one, on a full bucket |
| RateLimit.BackendsAgree | api/ratelimit.py:157-160 | While the clock does not step back, at every request both backends give the same answer and leave the same bucket, whenever in between Redis drops expired keys |
| RateLimit.TtlIsTwice | api/ratelimit.py:157-160 | The key lives for twice the time its bucket takes to refill, rounded up to a millisecond, and is seen until then and no longer |
| RateLimit.DropInvisible | api/ratelimit.py:157-160 | Losing a bucket changes what a request does exactly when the bucket would not have been full by then |
| RateLimit.DropUnheard | api/ratelimit.py:157-160 | It changes what its caller is told exactly when, besides, not one token would have been there |
| RateLimit.AgreeExactly | api/ratelimit.py:157-160 | On any clock they agree at every request exactly when no request finds the key gone before its bucket would have refilled |
| RateLimit.ExpiryShowsWhenClockStepsBack | api/ratelimit.py:157-160 | A run of the same machine, with a clock that steps back, in which they differ |
| Limiter.IsMostRecent | api/ratelimit.py:330-338 | After any requests the map is exactly the most recently used max_clients keys, least recent first |
| Limiter.StartsFull | api/ratelimit.py:330-339 | A client the map does not know is admitted exactly if the burst has a token, and keeps the rest of a full one |
| Limiter.EvictionCost | api/ratelimit.py:300-305 | A client that was dropped was followed by requests of max_clients distinct other clients since its last |
| Limiter.BuildsAreEvictions | api/ratelimit.py:331-337 | A client's buckets built are its evictions plus the one it holds |
| Limiter.ClientBound | api/ratelimit.py:284-310 | One client's admissions are at most (1 + its evictions) times the capacity plus the rate times the clock's forward movement |
| Limiter.PerClientLimiter.Acquire | api/ratelimit.py:330-339 | Pop, evict the oldest if full, reinsert last and take, on shared mutable buckets, is the specified step |
| WakeLock.StepKeeps | web/lib/useWakeLock.ts:98-167 | Every call and callback, in any order, keeps the controller's invariant |
| WakeLock.AtMostOneHeld | web/lib/useWakeLock.ts:134-140 | In every interleaving at most one granted lock has neither been released nor asked to go; it is the current one, and none once unwanted |
| WakeLock.ReportIsHonest | web/lib/useWakeLock.ts:111-123 | A last report of held means a current sentinel whose release event has not fired |
| WakeLock.DestroyIsFinal | web/lib/useWakeLock.ts:162-166 | After destroy nothing is requested until somebody wants the lock again, and whatever is still granted is let go |
| WakeLock.ShownRequests | web/lib/useWakeLock.ts:142-150 | After any run, a page shown without the lock it wants puts a new newest request in flight; a page that is hidden, no longer listens, wants nothing or lacks nothing requests nothing |
| WakeLock.WantingRequests | web/lib/useWakeLock.ts:156-161 | After any run, wanting the lock puts a new newest request in flight if there was none to want it, and no longer wanting it asks for the current one to be released |
| WakeLock.RequestIsKept | web/lib/useWakeLock.ts:98-131 | A request waits until it is granted or rejected, through any events; granted as the newest while the lock is wanted, it is held and reported |
| WakeLock.Reacquires | web/lib/useWakeLock.ts:142-150 | After any run, a page shown again without the lock it still wants has it back, and says so, once the browser grants what it then asks for, whatever else happens in between, unless it no longer wants the lock or has asked for it anew |
| WakeLock.Controller.SetWanted | web/lib/useWakeLock.ts:156-161 | On a change to wanted the next token is pending, on a change to unwanted the current sentinel is asked to go; otherwise nothing happens |
| WakeLock.Controller.OnGrant | web/lib/useWakeLock.ts:103-124 | A stale or unwanted grant is asked to go at once and changes no report; any other becomes current and is reported held |
| WakeLock.Controller.OnReject | web/lib/useWakeLock.ts:125-130 | Only the newest request's rejection is reported |
| WakeLock.Controller.OnRelease | web/lib/useWakeLock.ts:117-122 | Only the current sentinel's event clears it |
| WakeLock.Controller.OnVisibilityChange | web/lib/useWakeLock.ts:142-150 | A page shown without the lock it wants takes the next token and has it pending; a hidden page, or one that wants or lacks nothing, changes nothing |
| WakeLock.Controller.Destroy | web/lib/useWakeLock.ts:162-166 | Stops listening, stops wanting and asks for release |

## Left out

- Floating point: rounding, overflow and infinities. Costs, times, distances and tokens are exact reals.
- The heap's own algorithm: a step pops some entry that is minimal for (f, edge). Python's `heapq`, the C++ queue, numpy's sort and SQLite appear by their contracts.
- Engines.ShortestPath: a negative arc is allowed only with exact sums and a consistent heuristic; the source has none.
- Router.Serve: describes kind, route, ETA and detour of an artifact, not its geometry, its other metrics or the carried preference; snapping is an input, as are the departure's speeds and volumes.
- Costs.FlaggedIsRed: the movement table and the approach-control heuristics behind a turn's statics are inputs.
- ClipLength.ClippedIsRebased: assumes that distance is a metric and adds up along a segment; great-circle distance does the latter only approximately. So do the theorems of Stretch and Pieces.
- Pieces.StillTiles: is about segments of at least two points that tile the line, as the engine's do; a segment's tier is not modelled.
- Sealing.SealsEverything: asks for a seq for every route held back, though only those of which something can be shown take one.
- Safety.OnlyValidAndPrivate: epoch ranges, the ETA's range and the length of strings are assumed; the artifact's own shape is not checked by the model's validators.
- Safety.NeverRefused: one tester token per device and trip ids that are never drawn twice. A digest is a function nobody can collide.
- Safety.NothingLost: says nothing about when. Backoff, its jitter and timers, and whether a flush meets an emptied queue are not modelled.
- Recorder.TripRecorder.Drain: runs as one pass; its interleaving with other operations is the protocol machine's.
- Recorder.TripRecorder.First: trip ids and keys are compared as numbers, in the order their strings have.
- RateLimit.BackendsAgree: the key can go from its deadline on, on the clock the script reads; a Redis that is down is not modelled.
- Limiter.ClientBound: the per-client map over in-process buckets, which is where evictions matter.
- WakeLock.ReportIsHonest: a request's promise settles and its callback runs in one step, as in a browser's task.
- HTTP, authentication, React hooks, maps, speech, geocoding, the segment registry, coverage, traffic profiles, downloads and command-line tools.
