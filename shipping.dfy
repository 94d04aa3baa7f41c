/** The routing logic of ShipRouting.java: the list of ports the system is built on, the
    lookups by name and by position, the shortest- and longest-route searches, the route
    totals, and the "Show Paths" action that ties them together. */
module Shipping {
  import opened PortGraph
  import opened Dataset
  import opened RouteSearch
  import opened Distances

  /** What the "Show Paths" action ends with. */
  datatype Outcome =
    /** No start or end port selected, or the same name selected twice: the
        "Please select valid start and end ports." dialog. */
    | InvalidSelection
    /** A selected name that is the name of no port. */
    | UnknownPort
    /** One of the two searches came back empty: the "No route found between the selected
        ports." dialog. */
    | NoRouteFound
    /** The longest-route search did not stop within its fuel. */
    | Unfinished
    /** Both routes are drawn, and the details area shows both totals. */
    | Shown(shortest: seq<Position>, longest: seq<Position>, shortestDistance: int, longestDistance: int)

  /** The names selected as start and end are those of ports `s` and `e` (first match). */
  ghost predicate Selects(g: seq<PortNode>, startName: Option<string>, endName: Option<string>, s: nat, e: nat) {
    && startName.Some? && endName.Some?
    && IndexOfName(g, startName.value) == Some(s) && IndexOfName(g, endName.value) == Some(e)
  }

  /** `path` holds the positions of a shortest route from `s` to `e`; with unique positions,
      `total` is its length. */
  ghost predicate ShortestRouteShown(g: seq<PortNode>, s: nat, e: nat, path: seq<Position>, total: int) {
    exists r :: && IsRoute(g, r, s, e) && path == Positions(g, r)
                && (forall w :: IsRoute(g, w, s, e) ==> WalkLength(g, r) <= WalkLength(g, w))
                && (UniquePositions(g) ==> total == WalkLength(g, r))
  }

  /** `path` holds the positions of a route from `s` to `e`; with unique positions, `total`
      is its length. */
  ghost predicate RouteShown(g: seq<PortNode>, s: nat, e: nat, path: seq<Position>, total: int) {
    exists r :: IsRoute(g, r, s, e) && path == Positions(g, r) && (UniquePositions(g) ==> total == WalkLength(g, r))
  }

  class ShipRouting {
    /** The ports and waypoints, in the order in which they were added. */
    var ports: seq<PortNode>
    /** The positions the ship still has to visit on its journey along the shortest route. */
    var waypointQueue: seq<Position>

    /** Every edge leads to a port of the list and carries a positive distance. */
    ghost predicate Valid()
      reads this
    {
      WellFormed(ports) && PositiveWeights(ports)
    }

    /** The routing state of a new ShipRouting panel: the built-in ports and routes, and no
        journey planned yet. */
    constructor()
      ensures ports == BuiltInPorts() && waypointQueue == []
      ensures Valid()
    {
      ports := [];
      waypointQueue := [];
      new;
      CreatePortsAndRoutes();
      BuiltInPortsValid();
    }

    /** createPortsAndRoutes: creates the twenty harbours and twelve sea waypoints, then adds
        the routes between them. */
    method CreatePortsAndRoutes()
      modifies this`ports
      ensures ports == BuiltInPorts()
    {
      var indiaMain := PortNode("India - Mumbai", Position(18964700, 72825800), map[]);
      var indiaPort1 := PortNode("India - Chennai", Position(13082700, 80270700), map[]);
      var indiaPort2 := PortNode("India - Kolkata", Position(22572600, 88363900), map[]);
      var indiaPort3 := PortNode("India - Cochin", Position(9931200, 76267300), map[]);
      var indiaPort4 := PortNode("India - Kandla", Position(23032400, 70222800), map[]);

      var brazilMain := PortNode("Brazil - Rio de Janeiro", Position(-22906800, -43172900), map[]);
      var brazilPort1 := PortNode("Brazil - Santos", Position(-23953600, -46332200), map[]);
      var brazilPort2 := PortNode("Brazil - Salvador", Position(-12971400, -38501400), map[]);
      var brazilPort3 := PortNode("Brazil - Recife", Position(-8047600, -34877000), map[]);
      var brazilPort4 := PortNode("Brazil - Fortaleza", Position(-3717200, -38543400), map[]);

      var americaMain := PortNode("USA - New York", Position(40712800, -74006000), map[]);
      var americaPort1 := PortNode("USA - Los Angeles", Position(33941600, -118408500), map[]);
      var americaPort2 := PortNode("USA - Miami", Position(25761700, -80191800), map[]);
      var americaPort3 := PortNode("USA - Houston", Position(29760400, -95369800), map[]);
      var americaPort4 := PortNode("USA - Seattle", Position(47606200, -122332100), map[]);

      var canadaMain := PortNode("Canada - Vancouver", Position(49282700, -123120700), map[]);
      var canadaPort1 := PortNode("Canada - Halifax", Position(44648800, -63575200), map[]);
      var canadaPort2 := PortNode("Canada - Montreal", Position(45501700, -73567300), map[]);
      var canadaPort3 := PortNode("Canada - Toronto", Position(43651070, -79347015), map[]);
      var canadaPort4 := PortNode("Canada - Quebec City", Position(46813900, -71208200), map[]);

      var waypoint1 := PortNode("Waypoint 1", Position(12000000, 70000000), map[]);
      var waypoint2 := PortNode("Waypoint 2", Position(5000000, 50000000), map[]);
      var waypoint3 := PortNode("Waypoint 3", Position(-5000000, 40000000), map[]);
      var waypoint4 := PortNode("Waypoint 4 - Cape Town", Position(-33925800, 18423200), map[]);
      var waypoint5 := PortNode("Waypoint 5", Position(-25000000, 10000000), map[]);
      var waypoint6 := PortNode("Waypoint 6", Position(-20000000, -10000000), map[]);
      var waypoint7 := PortNode("Waypoint 7", Position(-10000000, -20000000), map[]);
      var waypoint8 := PortNode("Waypoint 8", Position(0, -30000000), map[]);
      var waypoint9 := PortNode("Waypoint 9", Position(10000000, -40000000), map[]);
      var waypoint10 := PortNode("Waypoint 10", Position(0, -50000000), map[]);
      var waypoint11 := PortNode("Waypoint 11", Position(-10000000, -60000000), map[]);
      var waypoint12 := PortNode("Waypoint 12", Position(-25000000, -70000000), map[]);

      indiaMain := indiaMain.AddNeighbor(CHENNAI, 660);
      indiaMain := indiaMain.AddNeighbor(KOLKATA, 860);
      indiaMain := indiaMain.AddNeighbor(COCHIN, 720);
      indiaMain := indiaMain.AddNeighbor(KANDLA, 940);

      brazilMain := brazilMain.AddNeighbor(SANTOS, 210);
      brazilMain := brazilMain.AddNeighbor(SALVADOR, 610);
      brazilMain := brazilMain.AddNeighbor(RECIFE, 1220);
      brazilMain := brazilMain.AddNeighbor(FORTALEZA, 1860);

      americaMain := americaMain.AddNeighbor(LOS_ANGELES, 2450);
      americaMain := americaMain.AddNeighbor(MIAMI, 1090);
      americaMain := americaMain.AddNeighbor(HOUSTON, 1630);
      americaMain := americaMain.AddNeighbor(SEATTLE, 2420);

      canadaMain := canadaMain.AddNeighbor(HALIFAX, 3030);
      canadaMain := canadaMain.AddNeighbor(MONTREAL, 2320);
      canadaMain := canadaMain.AddNeighbor(TORONTO, 2090);
      canadaMain := canadaMain.AddNeighbor(QUEBEC_CITY, 2410);

      indiaMain := indiaMain.AddNeighbor(WAYPOINT_1, 1100);
      waypoint1 := waypoint1.AddNeighbor(WAYPOINT_2, 1300);
      waypoint2 := waypoint2.AddNeighbor(WAYPOINT_3, 1400);
      waypoint3 := waypoint3.AddNeighbor(WAYPOINT_4, 1500);
      waypoint4 := waypoint4.AddNeighbor(WAYPOINT_5, 1600);
      waypoint5 := waypoint5.AddNeighbor(WAYPOINT_6, 1700);
      waypoint6 := waypoint6.AddNeighbor(WAYPOINT_7, 1800);
      waypoint7 := waypoint7.AddNeighbor(WAYPOINT_8, 1900);
      waypoint8 := waypoint8.AddNeighbor(WAYPOINT_9, 2000);
      waypoint9 := waypoint9.AddNeighbor(WAYPOINT_10, 2100);
      waypoint10 := waypoint10.AddNeighbor(WAYPOINT_11, 2200);
      waypoint11 := waypoint11.AddNeighbor(WAYPOINT_12, 2300);
      waypoint12 := waypoint12.AddNeighbor(RIO_DE_JANEIRO, 2400);

      indiaPort1 := indiaPort1.AddNeighbor(MUMBAI, 660);
      indiaPort2 := indiaPort2.AddNeighbor(MUMBAI, 860);
      indiaPort3 := indiaPort3.AddNeighbor(MUMBAI, 720);
      indiaPort4 := indiaPort4.AddNeighbor(MUMBAI, 940);

      brazilPort1 := brazilPort1.AddNeighbor(RIO_DE_JANEIRO, 210);
      brazilPort2 := brazilPort2.AddNeighbor(RIO_DE_JANEIRO, 610);
      brazilPort3 := brazilPort3.AddNeighbor(RIO_DE_JANEIRO, 1220);
      brazilPort4 := brazilPort4.AddNeighbor(RIO_DE_JANEIRO, 1860);

      americaPort1 := americaPort1.AddNeighbor(NEW_YORK, 2450);
      americaPort2 := americaPort2.AddNeighbor(NEW_YORK, 1090);
      americaPort3 := americaPort3.AddNeighbor(NEW_YORK, 1630);
      americaPort4 := americaPort4.AddNeighbor(NEW_YORK, 2420);

      canadaPort1 := canadaPort1.AddNeighbor(VANCOUVER, 3030);
      canadaPort2 := canadaPort2.AddNeighbor(VANCOUVER, 2320);
      canadaPort3 := canadaPort3.AddNeighbor(VANCOUVER, 2090);
      canadaPort4 := canadaPort4.AddNeighbor(VANCOUVER, 2410);

      ports := [indiaMain, indiaPort1, indiaPort2, indiaPort3, indiaPort4, brazilMain, brazilPort1,
        brazilPort2, brazilPort3, brazilPort4, americaMain, americaPort1, americaPort2,
        americaPort3, americaPort4, canadaMain, canadaPort1, canadaPort2, canadaPort3, canadaPort4,
        waypoint1, waypoint2, waypoint3, waypoint4, waypoint5, waypoint6, waypoint7, waypoint8,
        waypoint9, waypoint10, waypoint11, waypoint12];
    }

    /** getPortByName: the first port called `name`, or None. */
    method GetPortByName(name: string) returns (r: Option<nat>)
      ensures r == IndexOfName(ports, name)
    {
      for i := 0 to |ports|
        invariant forall j :: 0 <= j < i ==> Names(ports)[j] != name
      {
        if ports[i].name == name {
          assert Names(ports)[i] == name;
          return Some(i);
        }
      }
      return None;
    }

    /** getPortByPosition: the first port at `position`, or None. */
    method GetPortByPosition(position: Position) returns (r: Option<nat>)
      ensures r == IndexOfPosition(ports, position)
    {
      for i := 0 to |ports|
        invariant forall j :: 0 <= j < i ==> PortPositions(ports)[j] != position
      {
        if ports[i].position == position {
          assert PortPositions(ports)[i] == position;
          return Some(i);
        }
      }
      return None;
    }

    /** findShortestRoute: Dijkstra's search from `start`, stopped as soon as `end` is taken
        from the queue, followed by the walk back along the recorded predecessors. When `end`
        can be reached, the positions returned are those of a shortest route, visiting no port
        twice. Otherwise the walk back yields only `end`'s position, and that one-element
        answer survives only when it equals the position of `start`. */
    method FindShortestRoute(start: nat, end: nat) returns (path: seq<Position>, ghost route: seq<nat>)
      requires Valid() && start < |ports| && end < |ports|
      ensures start == end ==> path == [ports[start].position]
      ensures ReachableWithin(ports, start, end, INF) ==>
        && IsRoute(ports, route, start, end)
        && path == Positions(ports, route)
        && Distinct(route)
        && forall w :: IsRoute(ports, w, start, end) ==> WalkLength(ports, route) <= WalkLength(ports, w)
      ensures !ReachableWithin(ports, start, end, INF) ==>
        path == if ports[end].position == ports[start].position then [ports[end].position] else []
    {
      var g := ports;
      var dist := InitialDistances(|g|, start, INF);
      var pred: map<nat, nat> := map[];
      var queue: seq<nat> := [start];
      ghost var polledEnd := false;
      while queue != []
        invariant ShorterLabels(g, dist, pred, start) && QueuedShorter(dist, queue)
        invariant ShorterSettledOutside(g, dist, queue, {})
        invariant start == end ==> queue == [start] && pred == map[]
        invariant !polledEnd
        decreases Sum(dist), |queue|
      {
        var k := IndexOfNearest(queue, dist);
        var current := queue[k];
        ghost var polled := queue;
        queue := queue[..k] + queue[k + 1..];
        if current == end {
          ShorterDistanceIsMinimal(g, dist, polled, start, end);
          polledEnd := true;
          break;
        }
        assert polled == queue[..k] + [current] + queue[k..];
        dist, pred, queue := RelaxNeighborsShorter(g, start, dist, pred, queue, current);
      }
      if !polledEnd {
        ShorterDistanceIsMinimal(g, dist, queue, start, end);
      }
      path, route := TraceBackShorter(g, dist, pred, start, end);
      if |path| == 1 && path[0] != g[start].position {
        path := [];
      }
      if ReachableWithin(g, start, end, INF) {
        var w :| IsRoute(g, w, start, end) && WalkLength(g, w) < INF;
      }
    }

    /** findLongestRoute: the same search with every port but `start` at the MIN_VALUE
        sentinel, the farthest port taken from the queue first and a distance recorded only
        when it is strictly longer. On a graph with cycles the distances can grow without
        bound and the recorded predecessors can form a cycle, so the search and the walk back
        are each allowed `fuel` steps, and None means those steps ran out. When it does
        stop and `end` can be reached, the positions returned are those of a route from
        `start` to `end`. */
    method FindLongestRoute(start: nat, end: nat, fuel: nat) returns (result: Option<seq<Position>>, ghost route: seq<nat>)
      requires Valid() && start < |ports| && end < |ports|
      ensures start == end && fuel > 0 ==> result == Some([ports[start].position])
      ensures result.Some? && Reachable(ports, start, end) ==>
        IsRoute(ports, route, start, end) && result.value == Positions(ports, route)
      ensures result.Some? && !Reachable(ports, start, end) ==>
        result.value == if ports[end].position == ports[start].position then [ports[end].position] else []
    {
      var g := ports;
      var dist := InitialDistances(|g|, start, NEG_INF);
      var pred: map<nat, nat> := map[];
      var queue: seq<nat> := [start];
      var polls := 0;
      ghost var polledEnd := false;
      while queue != []
        invariant LongerLabels(g, dist, pred, start) && QueuedLonger(dist, queue)
        invariant LongerSettledOutside(g, dist, queue, {})
        invariant start == end ==> queue == [start] && pred == map[]
        invariant !polledEnd
        invariant polls <= fuel && (start == end ==> polls == 0)
        decreases fuel - polls
      {
        if polls == fuel {
          return None, [];
        }
        polls := polls + 1;
        var k := IndexOfFarthest(queue, dist);
        var current := queue[k];
        queue := queue[..k] + queue[k + 1..];
        if current == end {
          polledEnd := true;
          break;
        }
        dist, pred, queue := RelaxNeighborsLonger(g, start, dist, pred, queue, current);
      }
      if Reachable(g, start, end) && !polledEnd {
        var w :| IsRoute(g, w, start, end);
        LongerWalkReached(g, dist, w, |w| - 1);
      }
      var path;
      path, route := TraceBackLonger(g, dist, pred, start, end, fuel);
      if path.Some? && dist[end] != NEG_INF {
        assert IsRoute(g, route, start, end);
      }
      if path.Some? && |path.value| == 1 && path.value[0] != g[start].position {
        path := Some([]);
      }
      result := path;
    }

    /** getDistanceBetweenPorts: the distance of the edge between the ports found at the two
        positions, or 0. */
    method GetDistanceBetweenPorts(pos1: Position, pos2: Position) returns (d: int)
      ensures d == DistanceBetween(ports, pos1, pos2)
    {
      var port1 := GetPortByPosition(pos1);
      var port2 := GetPortByPosition(pos2);
      if port1.Some? && port2.Some? {
        var neighbors := ports[port1.value].neighbors;
        d := if port2.value in neighbors then neighbors[port2.value] else 0;
      } else {
        d := 0;
      }
    }

    /** calculateTotalDistance: the distances between consecutive positions, added up. */
    method CalculateTotalDistance(positions: seq<Position>) returns (total: int)
      ensures total == TotalDistance(ports, positions)
      ensures |positions| < 2 ==> total == 0
    {
      total := 0;
      if |positions| < 2 {
        return;
      }
      for i := 1 to |positions|
        invariant total == TotalDistance(ports, positions[..i])
      {
        var d := GetDistanceBetweenPorts(positions[i - 1], positions[i]);
        assert positions[..i + 1][..i] == positions[..i];
        total := total + d;
      }
      assert positions[..|positions|] == positions;
    }

    /** showPaths: rejects a missing or repeated selection before any search; otherwise runs
        both searches between the selected ports, reports "no route" when either result is
        empty, and only then hands the shortest route to the ship as its queue of waypoints
        and shows both totals. `startName` and `endName` are the names selected in the two
        combo boxes, None when nothing is selected. */
    method ShowPaths(startName: Option<string>, endName: Option<string>, fuel: nat) returns (outcome: Outcome)
      requires Valid()
      modifies this`waypointQueue
      ensures outcome == InvalidSelection <==> startName.None? || endName.None? || startName == endName
      ensures outcome == UnknownPort <==>
        && startName.Some? && endName.Some? && startName != endName
        && (IndexOfName(ports, startName.value).None? || IndexOfName(ports, endName.value).None?)
      ensures outcome.Shown? ==> waypointQueue == outcome.shortest
      ensures outcome.Shown? ==>
        && outcome.shortestDistance == TotalDistance(ports, outcome.shortest)
        && outcome.longestDistance == TotalDistance(ports, outcome.longest)
      ensures !outcome.Shown? ==> waypointQueue == old(waypointQueue)
      ensures forall s: nat, e: nat {:trigger Selects(ports, startName, endName, s, e)} ::
        Selects(ports, startName, endName, s, e) && startName != endName ==>
          && s < |ports| && e < |ports|
          && (ReachableWithin(ports, s, e, INF) ==> outcome.Shown? || outcome.Unfinished?)
          && (!ReachableWithin(ports, s, e, INF) && UniquePositions(ports) ==> outcome.NoRouteFound? || outcome.Unfinished?)
          && (outcome.Shown? ==> ReachableWithin(ports, s, e, INF) || ports[s].position == ports[e].position)
          && (outcome.Shown? && ReachableWithin(ports, s, e, INF) ==>
                && ShortestRouteShown(ports, s, e, outcome.shortest, outcome.shortestDistance)
                && RouteShown(ports, s, e, outcome.longest, outcome.longestDistance)
                && (UniquePositions(ports) ==> outcome.shortestDistance <= outcome.longestDistance))
    {
      if startName.None? || endName.None? || startName == endName {
        return InvalidSelection;
      }
      var startPort := GetPortByName(startName.value);
      var endPort := GetPortByName(endName.value);
      if startPort.None? || endPort.None? {
        return UnknownPort;
      }
      var s, e := startPort.value, endPort.value;
      var shortestRoute, route := FindShortestRoute(s, e);
      var longestRoute, longRoute := FindLongestRoute(s, e, fuel);
      if longestRoute.None? {
        return Unfinished;
      }
      if shortestRoute == [] || longestRoute.value == [] {
        return NoRouteFound;
      }
      waypointQueue := shortestRoute;
      var shortestDistance := CalculateTotalDistance(shortestRoute);
      var longestDistance := CalculateTotalDistance(longestRoute.value);
      outcome := Shown(shortestRoute, longestRoute.value, shortestDistance, longestDistance);
      if ReachableWithin(ports, s, e, INF) {
        assert IsRoute(ports, longRoute, s, e);
        if UniquePositions(ports) {
          TotalDistanceOfWalk(ports, route);
          TotalDistanceOfWalk(ports, longRoute);
        }
        assert ShortestRouteShown(ports, s, e, outcome.shortest, outcome.shortestDistance);
        assert RouteShown(ports, s, e, outcome.longest, outcome.longestDistance);
      }
    }
  }
}
