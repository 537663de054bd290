# DispatchLab, modelled and proved

DispatchLab simulates a delivery fleet on a road grid. One actor owns a run: it takes commands and ticks,
matches orders to drivers, routes them, closes roads under them, and reports every change as a numbered
event. A recorder stores the events, a hub streams them, and two folds (one on the server, one in the
browser) rebuild the state from them. This project models that machine and proves what it is for.

## What is here

| file | content |
|---|---|
| City.dfy, Routing.dfy | the road graph, walks over open roads, and A* with its heap as "take the least" |
| Hungarian.dfy, Sentinel.dfy | the rectangular Hungarian solver over arrays, and what its sentinel cost buys |
| Grid.dfy | Go's string order and the spatial index of idle drivers |
| Matching.dfy | nearest-driver and batch matching |
| Closures.dfy, Travel.dfy | closing roads in both directions, and distance along routes |
| Events.dfy, Mirror.dfy | the events, the two folds, and how they follow the live state event by event |
| Fleet.dfy, Scenes.dfy, Dispatch.dfy, Trips.dfy, Batching.dfy, Rerouting.dfy | the invariants of drivers, orders, queue, index, trips and closures, step by step on values |
| Simulation.dfy | the actor itself: a class with the source's fields, one method per handler, and whole runs |
| Store.dfy, Reader.dfy | the in-memory event store, the state builder, and reading back a past state |
| Recorder.dfy, Stream.dfy | the recorder's two goroutines and the hub with its clients, in any interleaving |
| Limiter.dfy | the token bucket limiter |
| Generate.dfy | the city generator |
| Examples.dfy | concrete states and runs in which the program departs from its documentation |

The actor is proved in two layers. Its drivers and orders, with what a proof must remember about them, are
one value, a `Scene`; Scenes, Trips, Batching and Rerouting prove what each step makes of a scene.
`Simulation` then changes its fields step by step as the source does, and each of its methods is proved to
have made exactly that step.

The main results:

- **Matching is optimal.** `MinCostAssignment` returns min(rows, columns) pairs and no other such matching
  costs less. A batch serves as many orders as any choice of candidates with open paths could, and no such
  choice that serves as many costs less, the cost being the way to the pickup less what waiting and idling weigh.
  So of two orders one driver could serve equally well the older is served, of two drivers equally near the one
  idle longer comes, and with small costs no batch leaves a driver idle that the index names for a waiting order
  and that can reach it, unless it was matched to an order with no way on. The orders called infeasible are
  exactly those with candidates none of which can get there.
- **Routing is exact.** A* succeeds exactly when an open path exists and returns a simple, shortest one.
  Its closed set never reopens a node; that needs a consistent heuristic, not just the admissible one the
  comment at internal/routing/astar.go line 17 claims, and Euclidean distance is consistent.
- **Every move is carried out.** `Simulation.Run` and `Simulation.Continue` hand back the state after every
  command and tick, and each pair of neighbours is related by what that move is for, down to the events it adds
  (`Obeyed`, `Ticked`): which driver goes where on how long a route, what is announced in which order, and
  everything that stays as it was.
- **Every reachable state is sound.** Over any interleaving of commands and ticks (`Simulation.Run` and
  `Simulation.Continue`): busy drivers and active orders are in bijection with matching statuses, the queue is
  the pending orders in placement order, every routed driver stands on its route with only open roads ahead,
  both directions of a road agree, settled orders never change until a reset, and the index holds exactly the
  idle drivers but for those a closure left without a way and that took no order since.
- **Both folds are the live state**, up to two exact exceptions: the server's fold has an older route index
  for exactly the desynced drivers, and an older time exactly while the log is stale. Folded up to any event
  the two folds show the same.
- **Trips take their length.** A timed order is collected and delivered after exactly the steps its route
  takes at 25 units a step, neither earlier nor later, and until then its driver's distance to the end is the
  length less 25 per step. Without progress carried over from an earlier route that is ceil(length / 25)
  steps, and the announced estimate is kept; with it, exactly when the progress saves no step.
- **Reading back is folding.** Whatever page boundaries are used, a state rebuilt from a snapshot agrees with
  the fold of the whole log, up to the drivers that were out of step when the snapshot was taken and had no new
  route since; the time is right from the next event on.
- **The stream has no gaps and no duplicates** for a client that never had 64 events unread when another was
  relayed, and the recorder loses nothing but what it counts as dropped.

Words used in the proofs: a driver is *desynced* when its replayed route index differs from its live one, and
then it is at least two behind; the log is *stale* when the clock has moved since the last event; an idle
driver is *lost* when the index does not know it; a driver is *stuck* when its route has one node; a trip is
*timed* when its route has more than one node and was never replaced; a run is *calm* while no road changed,
orders were placed between known nodes only, in a city where every node can be reached from every other, and no
batch had costs that could pass for the sentinel.

## Where the code and its documentation differ

The model follows the code. Each statement below is proved; the members named last show it at a concrete input.

- The fold's virtual time is the live time exactly when no tick has passed without an event since the last
  event (`Simulation.Simulation.FoldIsLive`); a tick that moves nobody emits nothing (`Examples.SilentTick`).
- The fold's route index stays in step with a move exactly when the move passed at most one node or ended the
  trip (`Mirror.InStepIff`). With every road at least 25 long and no progress carried over that is always so
  (`Simulation.Simulation.CalmMeans`); the default grid has roads of at least 70. Progress carried over can
  carry a driver past two nodes (`Examples.TwoNodesAtOnce`).
- An order whose driver was rerouted on the way to the pickup is delivered at the pickup
  (`Fleet.ReroutedEndsAtPickup`); all others at their destination (`Simulation.Simulation.DeliveredWhere`).
  Only closing a road reroutes, and it reroutes before the pickup exactly the blocked drivers that were headed
  there and still have a way (`Rerouting.NoticedTurn`; `Examples.ReroutedOrderEndsAtPickup`).
- A one-node route, given exactly when pickup, destination and driver coincide (`Scenes.TakenStuck`), never
  ends: driver and order stay as they are until a reset (`Scenes.StuckStays`; `Examples.NeverDelivered`).
- A driver freed by a failed reroute is idle but not in the index (`Rerouting.StrandOk`), until it takes
  an order (`Dispatch.IndexTake`; `Examples.StrandedDriverIsLost`).
- A batch may match a driver to an order whose destination cannot be reached; the order is given up and the
  driver stays idle although another order waits for it (`Batching.NobodyLeftIdle`; `Examples.IdleThoughWanted`).
- Route progress is kept across a reroute and a stranding (`Rerouting.DetourLength`), so a later trip may start part way along a road and
  arrive before its estimate (`Trips.EstimateKept`).
- The index's candidates are the first of those in the rings scanned, not the nearest of all. They are the
  nearest exactly when no point outside these rings comes before the last one wanted from within
  (`Spatial.NearestIff`), as when everything is wanted or enough points lie within reach
  (`Spatial.NearestWhen`), but not always (`Spatial.NearestCanBeMissed`).
- A stale snapshot passes the stream's filter (`Stream.StaleSnapshotPasses`; `Examples.StaleSnapshotIsSent`).
- Cancelling the recorder writes its batch but not its queue (`Recorder.Recorder.Stop`;
  `Examples.CancelledWithQueue`); and an event that cannot be encoded is given up before earlier ones still in
  the batch are written, so only the events that can be encoded keep their order.
- A limiter whose burst is less than one token refuses every call, however long a client waits
  (`Limiter.Retry`).

## Model

| member | source | states |
|---|---|---|
| Hungarian.MinCostAssignment | internal/matching/assignment.go:31-120 | min(rows, cols) pairs with distinct rows and columns, sorted by row, and no other such matching costs less |
| Hungarian.Solve | internal/matching/assignment.go:54-105 | after all rows: potentials with u[i]+v[j] <= cost everywhere, equal on matched pairs, v <= 0 and v = 0 on free columns |
| Hungarian.InsertRow | internal/matching/assignment.go:59-105 | one more row matched, potentials still feasible and tight |
| Hungarian.GrowTree | internal/matching/assignment.go:68-99 | the alternating tree reaches a free column over tight edges |
| Hungarian.Scan | internal/matching/assignment.go:71-86 | the least slack over unused columns and the column attaining it |
| Hungarian.Shift | internal/matching/assignment.go:87-94 | used rows gain delta, used columns lose it, the other slacks shrink by it |
| Hungarian.ShiftKeepsFeasible | internal/matching/assignment.go:87-94 | the shift keeps u[i]+v[j] <= cost |
| Hungarian.ShiftKeepsTree | internal/matching/assignment.go:87-94 | the shift keeps the tree tight and its slacks right |
| Hungarian.Augment | internal/matching/assignment.go:100-104 | flipping the path seats the new row and keeps every seat tight |
| Hungarian.WeakDuality | internal/matching/assignment.go:50-57 | feasible potentials bound the cost of every full matching from below |
| Hungarian.TightIsCheapest | internal/matching/assignment.go:50-57 | a full matching on tight pairs with v <= 0, v = 0 on free columns, is cheapest |
| Hungarian.Transpose | internal/matching/assignment.go:122-132 | entry (j, i) of the result is entry (i, j) |
| Hungarian.FlipCheapest | internal/matching/assignment.go:41-48 | a cheapest matching of the transpose, flipped, is a cheapest matching |
| Hungarian.SortByRow | internal/matching/assignment.go:118 | sorting keeps the matching and its cost and orders it by row |
| Sentinel.KeptIsBest | internal/matching/assignment.go:8-14 | with 2*min*B below the sentinel, dropping sentinel pairs leaves a largest matching of routable pairs, cheapest among those |
| Sentinel.Complete | internal/matching/assignment.go:8-14 | any routable matching extends to a full one by sentinel pairs |
| Routing.Triangle | internal/routing/astar.go:32-37 | the straight-line distance satisfies the triangle inequality |
| Routing.EuclidIsConsistent | internal/routing/astar.go:17-37 | the heuristic is consistent: 0 at the goal and at most one edge more per edge |
| Routing.PoppedIsShortest | internal/routing/astar.go:49-57 | a node popped for the first time has its shortest distance |
| Routing.VisitedNeverImproves | internal/routing/astar.go:59-75 | no edge improves the score of a visited node |
| Routing.PopLeast | internal/routing/astar.go:50 | the entry with the least (priority, seq) is removed |
| Routing.ExhaustedIsUnreachable | internal/routing/astar.go:49-78 | with the open set empty, an unvisited goal has no open path |
| Routing.Reverse | internal/routing/astar.go:87-90 | the array is reversed in place |
| Routing.Reconstruct | internal/routing/astar.go:81-92 | following cameFrom back and reversing yields the walk found for the goal |
| Routing.WalkIsSimple | internal/routing/astar.go:81-92 | that walk visits no node twice |
| Routing.FindRoute | internal/routing/astar.go:21-79 | succeeds exactly when an open path exists, with a simple path whose weights sum to the distance and than which none is shorter |
| Spatial.Grid.Set | internal/spatial/grid.go:49-57 | the id is at the new point, cells still partition the points |
| Spatial.Grid.Remove | internal/spatial/grid.go:60-71 | the id is gone, cells still partition the points |
| Spatial.OutsideIsFar | internal/spatial/grid.go:85-104 | a point outside rings 0 to r is more than r cells away |
| Spatial.Grid.Candidates | internal/spatial/grid.go:80-121 | min(max, n) distinct ids in (distance, id) order: the first of those in the fewest rings that hold enough; any other id sorts after them or lies beyond the scanned reach |
| Spatial.OneAnswer | internal/spatial/grid.go:80-121 | the answer is determined by the points, the query and the number wanted |
| Spatial.NearestIff | internal/spatial/grid.go:76-88 | the answer is the nearest points exactly when no point outside the fewest rings that hold enough comes before the last one wanted from within |
| Spatial.NearestWhen | internal/spatial/grid.go:76-88 | it is when everything is wanted, or when enough points lie no farther than the scanned rings reach |
| Spatial.NearestCanBeMissed | internal/spatial/grid.go:76-88 | an index and query whose only answer is not the nearest point |
| Ordering.StrLeTotal | internal/spatial/grid.go:110-116 | ids are totally ordered |
| Ordering.StrLeIff | internal/spatial/grid.go:110-116 | one string comes before another exactly when it is a prefix of it or has the lesser character where they first differ |
| Matching.SortIds | internal/matching/baseline.go:24-30 | ids in ascending order, each once |
| Matching.Baseline | internal/matching/baseline.go:15-48 | the idle driver with a shortest route, least id among equals; none only if no idle driver reaches the pickup |
| Matching.SortByName | internal/matching/optimized.go:66-68 | the same orders in order of their printed names |
| Matching.NameTells | internal/simulation/simulation.go:783 | an order's printed name determines its number |
| Matching.CostRow | internal/matching/optimized.go:95-113 | a row holds the pair cost where a candidate has a route and the sentinel elsewhere |
| Matching.RowIsInfeasible | internal/matching/optimized.go:149-156 | true exactly when every entry is the sentinel or above |
| Matching.ReadAssignments | internal/matching/optimized.go:118-131 | the assignments are the pairs below the sentinel, with the routes found for them |
| Matching.ReadInfeasible | internal/matching/optimized.go:139-144 | the orders with candidates and a hopeless row |
| Matching.Optimized | internal/matching/optimized.go:52-147 | every order's candidates are the index's answer for its pickup and the number asked for; the matrix over them is solved by a cheapest matching; assignments and infeasible orders are read off it |
| Matching.AffordableIffRoutable | internal/matching/optimized.go:97-112 | an entry is below the sentinel exactly for candidate pairs with an open path |
| Matching.BatchIsOptimal | internal/matching/optimized.go:24-131 | with small costs no choice of distinct candidate drivers with open paths serves more orders, and none that serves as many has a lesser sum of pickupDistance * distance - waitTime * waited - driverIdleTime * idled |
| Matching.OlderFirst | internal/matching/optimized.go:28-30 | where a driver could as well have served another order at the same distance, the order it serves is not the younger |
| Matching.LongestIdleFirst | internal/matching/optimized.go:31-34 | where an order could as well have gone to another driver at the same distance, the driver it went to has not been idle less long |
| Matching.NearestFirstOfEquals | internal/matching/optimized.go:26-27 | among equals in waiting and idling the way to the pickup is not the longer |
| Matching.NobodyLeftOut | internal/matching/optimized.go:115-131 | no order and candidate that could be matched are both left unmatched |
| Matching.BatchIsSound | internal/matching/optimized.go:118-131 | no order and no driver is assigned twice, each driver is a candidate with a shortest route |
| Matching.InfeasibleExactly | internal/matching/optimized.go:133-144 | an order is reported infeasible exactly when it had candidates and none can be routed |
| Closures.EdgeByID | internal/domain/city.go:37-46 | an edge of the city with that id, or none exists |
| Closures.SetClosed | internal/domain/city.go:49-59 | that edge and no other has its flag set |
| Closures.BothWaysEdge | internal/simulation/simulation.go:493-498 | after setting a road, lookups by ends find the flag changed in both directions and nowhere else |
| Closures.BothWaysKeeps | internal/simulation/simulation.go:493-498 | setting a road keeps the city simple, symmetric and fit for the heuristic |
| Closures.RouteUsesClosedEdge | internal/simulation/simulation.go:573-581 | true exactly when a remaining hop is closed or missing |
| Closures.RouteIsClear | internal/simulation/simulation.go:571-581 | a computed route uses open edges only |
| Closures.ReopenKeepsClear | internal/simulation/simulation.go:510-532 | reopening blocks no route |
| Replay.FoldSplit | internal/replay/state.go:102-125 | folding a log in two parts is folding it whole |
| Replay.ApplyAgrees | internal/replay/state.go:163-301 | two frames that agree but for some route indices and the time still do after an event; the time is right at once, a driver after its next route or when it goes idle |
| Replay.FoldAgrees | internal/replay/state.go:102-125 | the same over a whole stretch of the log |
| WebReplay.FoldSplit | apps/web/src/replayState.ts:161-172 | the same for the browser's fold |
| Mirror.OnRouteComputed | internal/replay/state.go:253-263 | a computed route puts both folds back in step with its driver |
| Mirror.OnPosition | internal/replay/state.go:216-228 | after a position event both folds show the driver, the server's with its route index if in step and at least two behind if not |
| Mirror.InStepIff | internal/replay/state.go:224-228 | the fold's route index equals the live one exactly when the move did not skip a node |
| Mirror.WebDelivering | apps/web/src/replayState.ts:124-136 | the browser's search finds the very order the driver collected |
| Mirror.RoadsMarked | internal/replay/state.go:265-279 | marking the listed edges is what happened to the city |
| Mirror.FoldsAgree | apps/web/src/replayState.ts:47-51 | the two folds show the same, also while a driver is on the move |
| Mirror.ToldAlike | apps/web/src/replayState.ts:161-172 | folded up to any event, the log shows the same on the server and in the browser |
| Mirror.ToldMeans | internal/replay/state.go:102-301 | folding the whole log gives the live orders, roads, paused flag and speed, and the live drivers exactly but for the desynced ones |
| Mirror.SnapshotEdges | internal/simulation/simulation.go:707-717 | the listed edges are exactly the city's, with their flags |
| Fleet.BusyMatchesActive | internal/simulation/simulation.go:929-982 | busy drivers and active orders are in bijection |
| Fleet.ArriveKeeps | internal/simulation/simulation.go:1091-1134 | a hop and its handling keep drivers, orders, courses and deliveries consistent |
| Fleet.TakeKeeps | internal/simulation/simulation.go:929-962 | so does taking an order over two legs |
| Fleet.TakenIsClear | internal/simulation/simulation.go:942 | both legs open make an open route |
| Fleet.RerouteKeeps | internal/simulation/simulation.go:618-624 | so does a reroute, noting that a trip to a pickup now ends there |
| Fleet.StrandKeeps | internal/simulation/simulation.go:606-616 | so does giving up an order whose driver is cut off |
| Fleet.ReroutedEndsAtPickup | internal/simulation/simulation.go:1112-1120 | a driver rerouted before collecting delivers at the pickup |
| Fleet.LineGrow | internal/simulation/simulation.go:782-797 | a new order has an unused number and goes to the end of the queue |
| Travel.RouteLength | internal/routing/astar.go:81-92 | the hops of a computed route add up to its distance |
| Travel.FullLength | internal/simulation/simulation.go:942 | a trip is as long as its two legs |
| Travel.LeftKeeps | internal/simulation/simulation.go:484-532 | closing or opening roads changes no length |
| Travel.DriveHop | internal/simulation/simulation.go:1088-1094 | budget that reaches the next node brings the driver exactly that much closer to pickup and end |
| Travel.DriveCreep | internal/simulation/simulation.go:1095-1098 | so does budget that does not |
| Travel.DriveEnd | internal/simulation/simulation.go:1079-1099 | the loop uses up 25 units, ends part way along a road and, on long roads, passed one node at most |
| Dispatch.IndexTake | internal/simulation/simulation.go:947-949 | a driver taking an order leaves the index and is no longer lost |
| Dispatch.IndexFree | internal/simulation/simulation.go:1122-1131 | a driver that delivered re-enters the index where it stands |
| Dispatch.BatchWithin | internal/matching/optimized.go:108-111 | every pair cost of a batch lies within a bound computed from the city, the weights and the clock |
| Scenes.HopKeeps | internal/simulation/simulation.go:1089-1094 | a hop keeps everything every scene satisfies |
| Scenes.MotionEnd | internal/simulation/simulation.go:1079-1101 | after the loop the position event can be told to the folds |
| Scenes.TakenStuck | internal/simulation/simulation.go:941-962 | an assignment makes a one-node route exactly when driver, pickup and destination coincide |
| Scenes.StuckIff | internal/simulation/simulation.go:1073-1134 | in every reachable state a busy driver has a one-node route exactly when it stands where its order begins and ends |
| Scenes.StuckStays | internal/simulation/simulation.go:1073-1076 | such a driver and its undelivered order stay as they are through everything but a reset |
| Scenes.TellsTaken | internal/simulation/simulation.go:964-981 | the three events of an assignment carry the folds from the scene before it to the scene after it |
| Scenes.TakeSceneKeeps | internal/simulation/simulation.go:929-962 | an assignment keeps everything every scene satisfies, and takes its order out of line |
| Scenes.InLine | internal/simulation/simulation.go:863-867 | a queued order is pending and stands in line once |
| Trips.TakenTimed | internal/simulation/simulation.go:964-977 | a new trip's distances to pickup and destination are those its route was computed with |
| Trips.MovedTimed | internal/simulation/simulation.go:1078-1099 | a tick takes 25 off the distances of a trip, or times its pickup or delivery |
| Trips.TripStatus | internal/simulation/simulation.go:964-1002 | a timed order is assigned, under way and delivered exactly from the steps on that its distances take; until then the distance left is the length less 25 a step |
| Trips.EstimateKept | internal/simulation/simulation.go:969-977 | the estimate is kept exactly when the progress carried over saves no step |
| Trips.SereneReaches | internal/simulation/simulation.go:831-841 | in an undisturbed run both ends of every order can be reached |
| Trips.MovedSerene | internal/simulation/simulation.go:1073-1102 | moving keeps a run undisturbed: nothing given up, trips timed, folds in step on long roads |
| Batching.BatchFits | internal/simulation/simulation.go:890-900 | a batch's answer can be applied: its drivers are idle, its orders pending, none twice |
| Batching.DispatchStep | internal/simulation/simulation.go:897-900 | applying one assignment does to its driver and order what it should and touches no other |
| Batching.GiveUpStep | internal/simulation/simulation.go:901-909 | so does giving up one infeasible order |
| Batching.HopelessNotCalm | internal/simulation/simulation.go:901-909 | an undisturbed run has no infeasible orders |
| Batching.Remaining | internal/simulation/simulation.go:911-917 | the queue keeps the unresolved orders in order |
| Batching.RanOptimally | internal/simulation/simulation.go:879-918 | with small costs what a batch carried out is a best choice for the whole queue, every order's candidates being those the index of idle drivers names |
| Batching.NobodyLeftIdle | internal/simulation/simulation.go:874-918 | after a batch with small costs no driver is idle that the index names for an order still in line and that can reach its pickup, unless an order of this batch with no way to its destination was given up |
| Rerouting.OneRedirected | internal/simulation/simulation.go:559-566 | rerouting one driver leaves the others' results as they are |
| Rerouting.StrandOk | internal/simulation/simulation.go:606-616 | giving up the order of a driver without a way keeps every invariant; the driver is idle, lost and the only one whose place in the index is no longer known |
| Rerouting.NoticedTurn | internal/simulation/simulation.go:586-625 | a closure adds to the lost drivers exactly the blocked ones without a way, and to the orders rerouted before their pickup exactly those of blocked drivers headed there that have one |
| Rerouting.DetourLength | internal/simulation/simulation.go:618-624 | a rerouted driver's distance to the end of its new route is the shortest distance to its target less the progress it had |
| Rerouting.ShutCounts | internal/simulation/simulation.go:500-506 | a closure announces as many affected routes as it invalidated, and each of these led to a new route or to an order given up |
| Rerouting.RoadsChanged | internal/simulation/simulation.go:493-500 | right after a road changed everything but the clear routes still holds |
| Simulation.Simulation.constructor | internal/simulation/simulation.go:208-267 | each default filled in where the configuration has none, every driver idle at home, indexed under batching |
| Simulation.Simulation.Emit | internal/simulation/simulation.go:757-769 | the next number, the current time and cause, appended to log and buffer |
| Simulation.Simulation.HandleDriverAtNode | internal/simulation/simulation.go:1106-1134 | collecting, delivering and re-indexing, as one step on the scene, told to both folds by exactly the events of the arrivals |
| Simulation.Simulation.DriveOn | internal/simulation/simulation.go:1079-1099 | one round of the loop: a hop or part of one, budget accounted for |
| Simulation.Simulation.MoveDriver | internal/simulation/simulation.go:1073-1102 | one tick's driving: 25 units closer or arrived, idle from now on if it delivered, its arrivals and then its place reported and nothing else; invariants and folds kept |
| Simulation.Simulation.EmitDriverPosition | internal/simulation/simulation.go:1138-1148 | the position event carries the driver's node, index and progress |
| Simulation.Simulation.MoveAll | internal/simulation/simulation.go:994-1002 | every driver drives once, reported in order of id |
| Simulation.Simulation.Announce | internal/simulation/simulation.go:964-981 | exactly three events: the whole route with its length, the order with the estimate at 25 units per time and the way to the pickup, the new status |
| Simulation.Simulation.ApplyAssignment | internal/simulation/simulation.go:929-982 | the driver sets out with the order over shortest legs, keeping its progress, or the order is given up exactly when its destination cannot be reached from its pickup; either way exactly these events |
| Simulation.Simulation.AssignBaseline | internal/simulation/simulation.go:819-843 | the nearest idle driver takes it; given up if drivers are idle and none gets there; queued if none is idle |
| Simulation.Simulation.RetryPendingBaseline | internal/simulation/simulation.go:856-872 | every queued order offered in turn, first come first served; afterwards nobody is idle or nothing waits |
| Simulation.Simulation.SolveBatch | internal/simulation/simulation.go:885-892 | the matcher is given the queue, the index of idle drivers and the configured number of candidates, and its answer fits the scene |
| Simulation.Simulation.RunBatch | internal/simulation/simulation.go:879-918 | the matcher's answer to the whole queue, with the candidates the index names, carried out, nothing else touched, the rest still queued in order |
| Simulation.Simulation.DispatchOptimized | internal/simulation/simulation.go:1023-1054 | batch when full or late, lone order at once when a driver is idle, otherwise nothing |
| Simulation.Simulation.Tick | internal/simulation/simulation.go:988-1012 | paused: nothing; otherwise one unit of time passes, every driver drives once, its events in order of id, then dispatch by strategy; no driver is lost and no order rerouted; under baseline no idle driver coexists with a pending order |
| Simulation.Simulation.RerouteDriver | internal/simulation/simulation.go:586-625 | a shortest open route to where the driver was heading, its place, progress, status and order kept, or order given up and driver idle and lost exactly when there is none; told by exactly these events, with driver, order and length |
| Simulation.Simulation.RecalculateAffectedRoutes | internal/simulation/simulation.go:549-569 | every blocked driver rerouted, no other driver or order touched, and the events of each in order of id; affected = the blocked drivers; lost and rerouted grow by exactly what the closure causes |
| Simulation.Simulation.HandleCloseRoad | internal/simulation/simulation.go:484-508 | unknown or closed: nothing; otherwise both directions closed, blocked drivers rerouted and reported in order of id, then the road and the count announced, all with the command's id as cause |
| Simulation.Simulation.HandleReopenRoad | internal/simulation/simulation.go:514-532 | unknown or open: nothing; otherwise both directions open and announced, no driver touched |
| Simulation.Simulation.HandlePlaceOrder | internal/simulation/simulation.go:781-812 | the next number, a pending order from pickup to destination placed now, announced first, then offered at once or queued by strategy |
| Simulation.Simulation.OfferOrQueue | internal/simulation/simulation.go:799-811 | under batching the order queues up unless it is alone in line and somebody is idle; otherwise it is offered at once |
| Simulation.Simulation.ResetRun | internal/simulation/simulation.go:630-649 | drivers idle at home, no orders, time zero, roads, pause, speed and numbering kept, announced by one snapshot of just that |
| Simulation.Simulation.Handle | internal/simulation/simulation.go:459-478 | each command does what it is for, field by field and event by event, and nothing else; only a reset loses orders or changes settled ones, only closing a road loses drivers to the index or reroutes orders |
| Simulation.Simulation.Start | internal/simulation/simulation.go:422-425 | the first event is a snapshot of the initial state, and everything holds from then on |
| Simulation.Simulation.TakePending | internal/simulation/simulation.go:682-686 | the events since the last call, each once and in order |
| Simulation.Simulation.Apply | internal/simulation/simulation.go:430-433 | the command is carried out and the events returned are exactly those it added to the log |
| Simulation.Simulation.Advance | internal/simulation/simulation.go:667-670 | the same for a tick |
| Simulation.Simulation.BuildSnapshotEvent | internal/simulation/simulation.go:654-663 | a fold started from it differs from the fold of the whole log exactly in desynced route indices and a stale time |
| Simulation.Simulation.Run | internal/simulation/simulation.go:382-408 | every move of any interleaving is carried out and keeps everything; the events handed out are the log; without closures nobody is lost and nothing rerouted; gentle commands keep a calm run calm |
| Simulation.Simulation.Continue | internal/simulation/simulation.go:382-408 | the same from any state on; without a reset no order is lost, settled ones and stuck drivers stay as they are; without closures nobody more is lost or rerouted |
| Simulation.Simulation.FoldIsLive | internal/replay/state.go:102-301 | the fold of the log against the live state: drivers equal exactly but for the desynced ones, time exactly unless stale, the rest always; both folds show the same after every event |
| Simulation.Simulation.FleetInOrder | internal/simulation/simulation.go:781-1134 | busy drivers and active orders name each other with matching statuses, queue = pending orders in order, routed drivers on open routes, roads symmetric |
| Simulation.Simulation.DeliveredWhere | internal/simulation/simulation.go:1106-1134 | delivered at the destination after the pickup, unless rerouted before it |
| Simulation.Simulation.DeliveredWhen | internal/simulation/simulation.go:969-1002 | a timed order is collected and delivered at exactly the times its distances take, and the distance left is the length less 25 a step |
| Simulation.Simulation.EstimateAnnounced | internal/simulation/simulation.go:964-977 | for every timed order the log holds the length of the whole route and, at the time of the assignment, the way to the pickup and the estimate at 25 units per time |
| Simulation.Simulation.CalmMeans | internal/simulation/simulation.go:819-872 | in a calm run nothing is given up, lost or rerouted, every trip is timed from a standing start, and on long roads the fold's drivers are the live ones |
| Simulation.Simulation.CalmIsPunctual | internal/simulation/simulation.go:969-1002 | in a calm run trips take ceil(distance / 25) steps to pickup and destination |
| Simulation.Simulation.IndexInOrder | internal/simulation/simulation.go:226-233 | the index holds exactly the idle drivers where they stand, but for the lost ones, whom only closures make |
| Store.Memory.AppendEvents | internal/store/memory.go:150-173 | each log stays ascending, keeps every old event and takes every new number once |
| Store.RetryChangesNothing | internal/store/memory.go:146-149 | offering stored events again changes nothing |
| Store.OrderOfBatchesIsIrrelevant | internal/store/memory.go:146-173 | overlapping or reordered batches of the same events leave the same log |
| Store.AppendTwice | internal/store/memory.go:150-173 | two appends are one append of both batches |
| Store.Memory.Events | internal/store/memory.go:175-190 | the first events after a number, up to the limit |
| Store.Memory.LatestSequence | internal/store/memory.go:192-200 | the greatest number stored, 0 for an empty log |
| Store.Memory.SaveSnapshot | internal/store/memory.go:202-216 | one snapshot per number, the last one saved, others kept |
| Store.Memory.SnapshotAtOrBefore | internal/store/memory.go:218-235 | the newest snapshot not above a number, or none exists |
| Reader.StateBuilder.Apply | internal/replay/state.go:163-301 | the builder's fields become the fold's next frame |
| Reader.StateAt | internal/replay/state.go:102-125 | the fold, from the snapshot, of the events above it up to the target |
| Reader.FetchFrom | internal/replay/reader.go:123-142 | paging ends and reads all that matters up to the target, whatever the page size |
| Reader.StateOf | internal/replay/reader.go:99-145 | not found exactly for an unknown run without events; otherwise the fold from the newest snapshot up to the target |
| Reader.SavedIsFoldBut | internal/replay/state.go:127-157 | a snapshot of the live state, saved, agrees with the fold of the log up to its number but for desynced drivers and a stale time |
| Reader.RebuiltIsFold | internal/replay/reader.go:96-145 | with a complete log, a state rebuilt from a snapshot that agrees with its prefix agrees with the fold of the whole prefix: time right from the next event on, drivers from their next route on |
| Reader.RebuiltExactly | internal/replay/reader.go:96-145 | from a snapshot in step and on time, or from none, it is that fold |
| Reader.FoldTo | apps/web/src/replayState.ts:161-172 | from a correct cached frame the result is the fold from nothing |
| Recorder.Recorder.ReceiveEvent | internal/replay/recorder.go:152-165 | forwarded always; queued, or dropped and counted when the queue is full |
| Recorder.Recorder.Flush | internal/replay/recorder.go:176-187 | the batch is attempted once and emptied; what was stored counts towards the next snapshot, which is asked for once enough was |
| Recorder.Recorder.Enqueue | internal/replay/recorder.go:192-208 | the head of the queue joins the batch, in order, unless it cannot be encoded |
| Recorder.Recorder.TakeOne | internal/replay/recorder.go:212-216 | exit by a closed queue: queue and batch empty, everything not dropped attempted |
| Recorder.Recorder.Reply | internal/replay/recorder.go:219-241 | when a flush is answered, everything queued before it was attempted |
| Recorder.Recorder.Stop | internal/replay/recorder.go:242-244 | cancelling attempts the batch and leaves the queue |
| Recorder.Recorder.Run | internal/replay/recorder.go:152-247 | every step that can happen does what it is for, and over any interleaving nothing is lost but what is counted, nothing reordered |
| Stream.PassedRising | internal/transport/ws/handler.go:95-113 | every frame that is no snapshot has a number above all earlier frames' |
| Stream.PassedStretch | internal/transport/ws/handler.go:95-113 | from a stretch of the log exactly the events above the snapshot pass, in order and once, and old snapshots |
| Stream.ClientReceives | internal/transport/ws/handler.go:86-115 | a client that missed nothing has exactly the events after its snapshot, no gap, no duplicate |
| Stream.StaleSnapshotPasses | internal/transport/ws/handler.go:105-107 | an old snapshot passes the filter, no other old event does |
| Stream.FanOut | internal/transport/ws/hub.go:54-61 | a subscriber with fewer than 64 unread events gets exactly this one behind them and misses nothing; one with 64 has one more missed and nothing else changed |
| Stream.Stream.RelayOne | internal/transport/ws/hub.go:47-61 | the next event reaches every subscriber in this way and what holds of every client is kept |
| Stream.Stream.Run | internal/transport/ws/hub.go:35-64 | every enabled step of simulation, hub and clients is taken; frames rise, and a client whose channel never held 64 unread events when one was relayed missed nothing and has every event after its snapshot |
| Limiter.Limiter.Allow | internal/ratelimit/limiter.go:70-97 | allowed exactly when the refilled bucket holds a token, which is then taken; the answer is that of a limiter that never sweeps whenever rate * idleTTL >= burst; a refusal names a wait long enough |
| Limiter.SameAllowance | internal/ratelimit/limiter.go:99-107 | sweeping is invisible |
| Limiter.WindowBound | internal/ratelimit/limiter.go:86-96 | one key is allowed at most burst + rate * w calls in a window of length w |
| Limiter.RateBound | internal/ratelimit/limiter.go:70-97 | so is each key among many, from any state |
| Limiter.NothingWithheld | internal/ratelimit/limiter.go:77-96 | no way of answering the same calls that pays a token for each one allowed allows more of them |
| Limiter.AnswersAfford | internal/ratelimit/limiter.go:77-96 | the limiter's own answers are such a way |
| Limiter.Retry | internal/ratelimit/limiter.go:92-94 | a client refused once that waits as told and calls again is allowed, exactly when burst >= 1 |
| Generate.GenerateGrid | internal/city/generate.go:36-89 | every intersection at its place, one road each way between neighbours and none elsewhere |
| Generate.GridRoads | internal/city/generate.go:59-81 | a lookup by ends finds a road exactly between neighbours, open and as long as the straight line |
| Generate.GridConnected | internal/city/generate.go:67-81 | every intersection can be reached from every other |
| Generate.GridPaved | internal/city/generate.go:48-65 | roads are between spacing * (1 - 2 * jitter) and spacing * (1 + 4 * jitter) long |
| Generate.GridIsFit | internal/city/generate.go:36-89 | a generated city meets all that the simulation relies on |
| Examples.ReroutedOrderEndsAtPickup | internal/simulation/simulation.go:618-624 | an order rerouted before its pickup ends delivered there, not at its destination |
| Examples.StrandedDriverIsLost | internal/simulation/simulation.go:606-616 | a driver cut off is idle and not in the index |
| Examples.TwoNodesAtOnce | internal/simulation/simulation.go:1079-1099 | with carried progress one step passes two nodes, and the replayed index stays behind |
| Examples.NeverDelivered | internal/simulation/simulation.go:941-962 | an order that begins and ends where the only driver stands is never delivered in any run without a reset |
| Examples.IdleThoughWanted | internal/simulation/simulation.go:879-918 | a batch of two orders, the older with no way on, leaves the only driver idle with the other order waiting where it stands |
| Examples.SilentTick | internal/simulation/simulation.go:988-1012 | a tick that moves nobody leaves the folds' time one step behind |
| Examples.StaleSnapshotIsSent | internal/transport/ws/handler.go:84-113 | a client is sent a snapshot older than the state it was given first |
| Examples.CancelledWithQueue | internal/replay/recorder.go:242-244 | a cancelled recorder leaves its queue unattempted |

## Left out

- Floating point: numbers are reals; the solver's infinity is a large constant, a quarter of the largest float, and `Hungarian.MinCostAssignment` and ticks under batching ask for costs well below it.
- Simulation.Simulation.Tick: under batching it requires the bound `MaxCost` on pair costs to lie in that range; a run stays calm only while the bound is below the sentinel, because from there on a routable pair reads as unreachable.
- Simulation.Simulation.Run: the city and the drivers' starting nodes are parameters instead of the seeded grid and placeDrivers' even spread over sorted nodes; `Generate.GridIsFit` shows a generated city qualifies.
- Routing.FindRoute: which of several equally short routes, and which of several equally cheap matchings, is returned is not fixed by the contracts, so that equal commands give equal logs is not stated.
- Aliasing of drivers, orders and edges: the source shares mutable records and edge lists; the fields here hold maps of values that each handler replaces, and a road is set in a new city value.
- Names: node and edge ids are structured, order ids are their numbers; only where the source sorts by a printed name is the name modelled.
- Checks that can never fire in a reachable state (an unknown assigned order, a queued order that is not pending, a second order in line at an immediate dispatch): the invariants prove them dead and the methods leave them out.
- The driver statuses assigned and unavailable: no code path of the simulation sets them.
- Heaps, sorts and maps: modelled by their contracts (least entry, sorted permutation, arbitrary order).
- Goroutines and channels: every step of recorder, hub and handler is atomic, in any interleaving; blocking sends between recorder and hub are one queue, closing a subscriber's channel and a client's disconnect are one step.
- Recorder.Recorder.Run: the events are not written through to the store's model; a write is attempted and succeeds or fails. The periodic snapshot goroutine is only its one-slot signal.
- Reader.StateOf: store errors other than "not found" are left out.
- Snapshot listing order, node coordinates in events, the interpolated x and y, trace ids, wall-clock timings, metrics and logging.
- JSON encoding: events carry typed payloads; that an event may fail to encode is a parameter of the recorder.
- `Reader.Load` (one page for a client), orders' summaries, dispatch counters and the unused `BaselineBatch`.
- Postgres, HTTP, sessions, the comparison runner and the browser's rendering.
- Limiter.Limiter.constructor: a non-positive rate, which switches limiting off, is not modelled.
