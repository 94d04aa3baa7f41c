# Ship routing: route search

ShipRouting is a Swing application that plots voyages between the harbours of
India, Brazil, the USA and Canada on a world map. It keeps a fixed graph. There
are twenty harbours and twelve open-sea waypoints. Each one has a name, a
latitude/longitude position and a map of directed, integer-weighted edges to
its neighbours.

When the user picks a start and an end port and presses "Show Paths", the
program does the following:

- It looks both names up.
- It runs a Dijkstra search for the shortest route and a mirrored search for the
  longest route.
- It totals each route by looking its positions up again among the ports.
- It hands the shortest route to the ship as its queue of waypoints.

This project models that routing logic in Dafny and proves what it computes.

Modules:

- `PortGraph` (`port_graph.dfy`): ports as values identified by their index in
  the port list. It also defines edges, weights, walks and routes, walk lengths,
  reachability, and the first-match lookups by name and by position.
- `Dataset` (`dataset.dfy`): the 32 ports and 45 edges that
  `createPortsAndRoutes` builds, with facts about them. The facts are positive
  weights, unique positions, the in-edges of the Brazilian ports and the sea
  waypoints, and the one-way sea route.
- `RouteSearch` (`route_search.dfy`): the parts both searches share. These are
  the sentinel initialisation, extraction from the queue, one relaxation step,
  the relaxation of all edges out of the polled port, and the walk back along the
  predecessors. It also holds the invariants that make the shortest-route search
  correct.
- `Distances` (`distances.dfy`): `getDistanceBetweenPorts` and
  `calculateTotalDistance` as functions, and the lemma that connects a total
  over positions to the length of the walk.
- `Shipping` (`shipping.dfy`): the class `ShipRouting`. Its fields are `ports`
  and `waypointQueue`, and its methods are the lookups, the two searches, the
  totals and the "Show Paths" action.
- `Scenarios` (`scenarios.dfy`): Mumbai to Chennai and Mumbai to Rio de Janeiro
  on the built-in dataset.

The queue of each search is a sequence. Polling removes a port whose current
distance is smallest (largest for the longest route), which abstracts
`java.util.PriorityQueue`. The neighbour loop visits the keys of the neighbour
map in an arbitrary order, as a `HashMap` does.

The shortest-route search is proved to terminate when every edge weight is
positive. The measure is the sum of the distances, then the queue length.

The longest-route search is different. The dataset's two-way edges form positive
cycles, and every update strictly raises a distance. The search stops as soon as
it polls `end`. Until then, with mathematical integers, nothing bounds it. In
the source, the search also stops once 32-bit `int` arithmetic wraps around. A
predecessor is recorded only when a port is queued, so if `end` was never polled
it has no predecessor, and the walk back returns `[end]` at once, which becomes
the empty list unless `end` shares `start`'s position. If `end` is polled only
after the wrap-around, its chain of predecessors can run into a cycle, such as
two ports that are each other's predecessor (Mumbai and Kandla, for instance).
Then the source's walk back never ends. The model gives the search a `fuel`
bound on its polls and the walk back a bound on its steps. `None` means one of
these bounds ran out.

## Model

| member | source | states |
|---|---|---|
| `PortGraph.PortNode.AddNeighbor` | ShipRouting.java:37-39 | the neighbour map gains `neighbor` with exactly `distance`, overwriting an earlier distance for it; name, position and every other entry are unchanged |
| `PortGraph.IndexOf` | ShipRouting.java:275-282 | the result is the first index holding the value, and it is None exactly when no element equals it |
| `PortGraph.IndexOfOwnPosition` | ShipRouting.java:459-466 | with unique positions, looking up the position of port `i` finds port `i` |
| `Dataset.BuiltInPortsValid` | ShipRouting.java:135-273 | the built-in graph has 32 ports, every edge leads to a port of the list, and every edge weight is positive |
| `Dataset.BuiltInPositionsUnique` | ShipRouting.java:139-178 | no two built-in ports share a position |
| `Dataset.EdgeLengths` | ShipRouting.java:218-272 | every built-in edge is at least 210 long, and every edge out of Mumbai at least 660 |
| `Dataset.InNeighbors` | ShipRouting.java:217-272 | the only edges into Rio de Janeiro come from the other Brazilian ports and Waypoint 12; the other Brazilian ports are entered only from Rio; Waypoint 1 only from Mumbai; each later waypoint only from the one before |
| `Dataset.SeaRouteLegs` | ShipRouting.java:240-251 | each waypoint has an edge to the next one (Waypoint 12 to Rio de Janeiro), 1300 long out of Waypoint 1 and 100 longer at each later leg |
| `Dataset.SeaRouteOneWay` | ShipRouting.java:240-251 | no leg of the sea route has an edge back: in particular Rio de Janeiro has no edge to Waypoint 12 |
| `RouteSearch.InitialDistances` | ShipRouting.java:289-292 | the start port is at 0 and every other port at the sentinel (MAX_VALUE for the shortest route, MIN_VALUE for the longest) |
| `RouteSearch.IndexOfNearest` | ShipRouting.java:296 | the polled port has the smallest current distance of all queued ports |
| `RouteSearch.IndexOfFarthest` | ShipRouting.java:333 | the polled port has the largest current distance of all queued ports |
| `RouteSearch.RelaxShorter` | ShipRouting.java:302-310 | exactly when `dist[cur] + w < dist[nb]`: the distance of `nb` becomes `dist[cur] + w`, `cur` becomes its predecessor, and `nb` is appended to the queue; otherwise nothing changes; no distance ever rises |
| `RouteSearch.RelaxLonger` | ShipRouting.java:339-347 | exactly when `dist[cur] + w > dist[nb]`: the distance of `nb` becomes `dist[cur] + w`, `cur` becomes its predecessor, and `nb` is appended to the queue; otherwise nothing changes; no distance ever falls |
| `RouteSearch.ImproveShorter` | ShipRouting.java:305-308 | a strict improvement along an edge keeps every predecessor joined to its port by an edge and strictly nearer, keeps every queued port reached, and leaves every port settled that was settled before |
| `RouteSearch.ImproveLonger` | ShipRouting.java:342-345 | a strict improvement along an edge keeps every predecessor joined to its port by an edge and reached, keeps every queued port reached, and leaves every port settled that was settled before |
| `RouteSearch.RelaxNeighborsShorter` | ShipRouting.java:302-310 | after all edges out of the polled port are relaxed: labels and predecessors stay consistent, every queued port has a non-sentinel distance, the polled port is settled, no distance rises, and either the distance sum fell or nothing changed |
| `RouteSearch.RelaxNeighborsLonger` | ShipRouting.java:339-347 | after all edges out of the polled port are relaxed: labels and predecessors stay consistent, every queued port is reached, the polled port is settled unless it waits in the queue again, and no distance falls |
| `RouteSearch.TraceBackShorter` | ShipRouting.java:313-317 | the walk back ends, follows edges into `end`, visits no port twice, is no longer than `end`'s distance, and starts at `start` when `end` was reached; for an unreached `end` it is `[end]` |
| `RouteSearch.TraceBackLonger` | ShipRouting.java:350-354 | the walk back gives up (None) exactly when following the predecessors from `end` does not reach a port without one within the fuel; otherwise it follows edges into `end`, starts at `start` when `end` was reached, and is `[end]` when `end` has no predecessor |
| `RouteSearch.ShorterDistanceIsMinimal` | ShipRouting.java:295-300 | when the queue is empty, or the target has just been polled with the smallest distance, no route from the start to the target is shorter than the target's distance |
| `RouteSearch.LongerWalkReached` | ShipRouting.java:332-348 | once the longest-route queue is empty, every port on a walk from a reached port has been reached |
| `Distances.DistanceBetweenPorts` | ShipRouting.java:450-457 | with unique positions, the distance between the positions of two ports is the weight of the edge between them, or 0 without one |
| `Distances.DistanceFromUnknown` | ShipRouting.java:453-456 | a position that belongs to no port contributes 0 in either role |
| `Distances.TotalDistanceOfWalk` | ShipRouting.java:442-448 | with unique positions, the total over the positions of a walk is the length of that walk |
| `Shipping.ShipRouting.constructor` | ShipRouting.java:53-81 | a new routing state holds exactly the built-in ports, which satisfy the class invariant, and no waypoints |
| `Shipping.ShipRouting.CreatePortsAndRoutes` | ShipRouting.java:135-273 | the port list becomes the built-in dataset, with every edge of the source |
| `Shipping.ShipRouting.GetPortByName` | ShipRouting.java:275-282 | the result is the first port in list order with that name, and None exactly when no port has it |
| `Shipping.ShipRouting.GetPortByPosition` | ShipRouting.java:459-466 | the result is the first port in list order at that position, and None exactly when no port is there |
| `Shipping.ShipRouting.FindShortestRoute` | ShipRouting.java:284-319 | when `start == end` the result is `[start's position]`; when `end` is reachable, the result is the positions of a route from `start` to `end` that visits no port twice and that no route is shorter than; otherwise it is empty, except that a single position equal to `start`'s survives |
| `Shipping.ShipRouting.FindLongestRoute` | ShipRouting.java:321-356 | when `start == end` and `fuel > 0` the result is `[start's position]`; a result reached within the fuel for a reachable `end` is the positions of a route from `start` to `end`; a result reached within the fuel for an unreachable `end` is empty, except that a single position equal to `start`'s survives |
| `Shipping.ShipRouting.GetDistanceBetweenPorts` | ShipRouting.java:450-457 | the result is the weight of the edge between the first ports at the two positions, and 0 when either is missing or there is no edge |
| `Shipping.ShipRouting.CalculateTotalDistance` | ShipRouting.java:442-448 | the result is the sum of the distances between consecutive positions, and 0 for fewer than two |
| `Shipping.ShipRouting.ShowPaths` | ShipRouting.java:367-398 | a missing or repeated selection is rejected, and only then is a name unknown. For known ports: reachable ⇒ both routes are shown (or the longest search is unfinished), and unreachable with unique positions ⇒ "no route" or the longest search is unfinished. The totals shown are `calculateTotalDistance` of the two routes. With unique positions, the shortest route shown is a shortest route, its total is its length, and that total is no larger than the longest total. The waypoint queue becomes exactly the shortest route when routes are shown and is untouched otherwise |
| `Scenarios.DirectRouteLength` | ShipRouting.java:218 | Mumbai, Chennai is a route, 660 long |
| `Scenarios.MumbaiChennaiDirect` | ShipRouting.java:218-221 | every route from Mumbai to Chennai no longer than 660 is the direct one |
| `Scenarios.MumbaiRioBySea` | ShipRouting.java:239-251 | the only route from Mumbai to Rio de Janeiro that visits no port twice runs through Waypoints 1 to 12 in order |
| `Scenarios.SeaRouteIsRoute` | ShipRouting.java:239-251 | Mumbai, Waypoints 1 to 12 and Rio de Janeiro form a route |
| `Scenarios.SeaRoutePrefixLength` | ShipRouting.java:239-251 | the first `k` ports of the sea route are as long as its first `k - 1` legs together |
| `Scenarios.SeaRouteLength` | ShipRouting.java:239-251 | that sea route is 23300 long |
| `Scenarios.ShortestMumbaiToChennai` | ShipRouting.java:218-221 | the shortest route from Mumbai to Chennai is `[Mumbai, Chennai]` with total 660 |
| `Scenarios.ShortestMumbaiToRio` | ShipRouting.java:239-251 | the shortest route from Mumbai to Rio de Janeiro is the sea route with total 23300 |

## Left out

- `Shipping.ShipRouting.FindShortestRoute` requires every edge weight to be positive (the class invariant `Valid`). The source accepts any graph, and on the built-in dataset the condition holds (`Dataset.BuiltInPortsValid`). The search does not model Java `int` overflow of `distance + weight`. Every queued port has a distance below `Integer.MAX_VALUE`, and the built-in totals stay far below it.
- `Shipping.ShipRouting.FindLongestRoute` takes a `fuel` bound on the number of polls and on the steps of the walk back, and returns None when it runs out. The source stops as soon as it polls `end`. On the built-in dataset's cycles, it can instead keep raising distances until `int` arithmetic wraps around. If `end` was never polled, it then has no predecessor, and the source returns the empty list. If `end` is polled only after the wrap-around, its predecessor chain can run into a cycle, such as Mumbai ⇄ Kandla, and the source's walk back never ends (ShipRouting.java:351-353). The wrap-around is not modelled, so nothing is claimed about what the source returns after it.
- `Shipping.ShipRouting.FindLongestRoute` does not state that the route found is a longest one. The source does not compute one on a graph with cycles.
- `Shipping.ShipRouting.FindLongestRoute` does not constrain when None is returned, apart from `start == end`. Its contract gives no fuel that is enough for a given pair of ports. So it does not show which route the source returns for a particular pair, such as Mumbai to Rio de Janeiro. The walk back, `RouteSearch.TraceBackLonger`, is exact: it returns None only when the predecessor chain does not stop within the fuel.
- `Shipping.ShipRouting.ShowPaths` does not constrain when `Unfinished` is returned, because that outcome follows a None from `FindLongestRoute`. So its contract does not show that routes are ever shown, or that the waypoint queue is ever handed over, for two distinct ports. On the built-in dataset, an unreachable pair always ends `Unfinished`, whatever the fuel. Every port reaches a two-way edge pair, such as Mumbai and Chennai, and with mathematical integers the longest search keeps raising distances around it. The source's search does stop once `int` arithmetic wraps around. Its walk back from an `end` with no predecessor then gives the empty list (ShipRouting.java:350-355), and the source shows "No route found".
- `Shipping.ShipRouting.ShowPaths` returns `UnknownPort` for a name that belongs to no port. In the source, names only ever come from the combo boxes. An unknown start name would make `findShortestRoute` add null to its queue and fail, and an unknown end name would give "no route" if the longest search stopped.
- `Shipping.ShipRouting.ShowPaths` stands for the "Show Paths" dialogs, the ship-details text and `drawRouteLines` (ShipRouting.java:372, 383, 390-397) by its `Outcome` value. The two totals are carried in that value.
- `Shipping.ShipRouting.CalculateTotalDistance` adds mathematical integers. Java `int` wrap-around of the sum is not modelled.
- `Shipping.ShipRouting.CreatePortsAndRoutes` and `PortGraph.PortNode.AddNeighbor` work on port values. The list is assembled from the finished values, and `neighbors` maps hold port indices rather than object references. The aliasing between the Java list and the node objects, and the order of `ports.add` and `addNeighbor` calls, are not modelled. The resulting list is the same.
- `Shipping.ShipRouting.constructor` starts `waypointQueue` as the empty sequence where the source leaves it null. `startShortestJourney` treats null and empty alike (ShipRouting.java:423).
- The extraction order of `java.util.PriorityQueue` is abstracted. Its heap is ordered by a comparator over distances that change while ports are queued, so the model polls some port whose current distance is smallest (or largest) instead. When several qualify, it takes the first in queue order.
- The iteration order of the `HashMap` of neighbours is abstracted as an arbitrary choice among the keys not yet visited.
- The walk back builds the route by prepending, instead of appending and then reversing with `Collections.reverse`. The result is the same sequence.
- Latitudes and longitudes are whole millionths of a degree rather than doubles. The routing code only compares positions for equality.
- The Swing and map-viewer user interface (ShipRouting.java:53-133, 400-420, 468-476), `moveShipToPosition` (ShipRouting.java:358-365), `startShortestJourney` (ShipRouting.java:422-440) and `RoutePainter.paint` (ShipRouting.java:479-509) are left out: they are library calls, timer-driven animation and floating-point pixel geometry.
