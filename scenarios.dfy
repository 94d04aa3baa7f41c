/** Two journeys on the built-in dataset: Mumbai to Chennai along their direct route, and
    Mumbai to Rio de Janeiro along the sea route through Waypoints 1 to 12. */
module Scenarios {
  import opened PortGraph
  import opened Dataset
  import opened Distances
  import opened Shipping

  /** Mumbai, the twelve sea waypoints in order, and Rio de Janeiro. */
  function SeaRoute(): (r: seq<nat>)
    ensures |r| == 14 && r[0] == MUMBAI && r[13] == RIO_DE_JANEIRO
    ensures forall j :: 1 <= j <= 12 ==> r[j] == WAYPOINT_1 + j - 1
  {
    [MUMBAI] + seq(12, j => WAYPOINT_1 + j) + [RIO_DE_JANEIRO]
  }

  /** No route from Mumbai to Chennai is as short as 660 except the direct one: any longer
      route takes an edge out of Mumbai (at least 660) and then another of positive length. */
  lemma MumbaiChennaiDirect(r: seq<nat>)
    requires IsRoute(BuiltInPorts(), r, MUMBAI, CHENNAI) && WalkLength(BuiltInPorts(), r) <= 660
    ensures r == [MUMBAI, CHENNAI]
  {
    var g := BuiltInPorts();
    BuiltInPortsValid();
    if |r| >= 3 {
      WalkLengthFirstTwo(g, r);
      assert Edge(g, r[0], r[1]) && Edge(g, r[1], r[2]);
      EdgeLengths(r[0], r[1]);
    } else {
      assert r == [r[0], r[1]];
    }
  }

  /** The direct route from Mumbai to Chennai is 660 long. */
  lemma DirectRouteLength()
    ensures IsRoute(BuiltInPorts(), [MUMBAI, CHENNAI], MUMBAI, CHENNAI)
    ensures WalkLength(BuiltInPorts(), [MUMBAI, CHENNAI]) == 660
  {
    assert [MUMBAI, CHENNAI][..1] == [MUMBAI];
  }

  /** Walking back from Rio de Janeiro along a route from Mumbai that visits no port twice,
      the `k`-th port from the end is the `k`-th port from the end of the sea route. */
  lemma {:induction false} SeaRouteSuffix(r: seq<nat>, k: nat)
    requires IsRoute(BuiltInPorts(), r, MUMBAI, RIO_DE_JANEIRO) && Distinct(r) && k < 14
    ensures k < |r| && r[|r| - 1 - k] == SeaRoute()[13 - k]
    decreases k
  {
    var g := BuiltInPorts();
    if k > 0 {
      SeaRouteSuffix(r, k - 1);
      var i := |r| - k;
      assert r[i] != MUMBAI;
      assert Edge(g, r[i - 1], r[i]);
      InNeighbors(r[i - 1], r[i]);
      if k == 1 && SANTOS <= r[i - 1] <= FORTALEZA {
        assert Edge(g, r[i - 2], r[i - 1]);
        InNeighbors(r[i - 2], r[i - 1]);
      }
    }
  }

  /** The only route from Mumbai to Rio de Janeiro that visits no port twice is the sea route. */
  lemma MumbaiRioBySea(r: seq<nat>)
    requires IsRoute(BuiltInPorts(), r, MUMBAI, RIO_DE_JANEIRO) && Distinct(r)
    ensures r == SeaRoute()
  {
    SeaRouteSuffix(r, 13);
    assert r[|r| - 14] == r[0];
    forall j | 0 <= j < 14 ensures r[j] == SeaRoute()[j] {
      SeaRouteSuffix(r, 13 - j);
    }
  }

  /** The sea route is a route from Mumbai to Rio de Janeiro. */
  lemma SeaRouteIsRoute()
    ensures IsRoute(BuiltInPorts(), SeaRoute(), MUMBAI, RIO_DE_JANEIRO)
  {
    var g, w := BuiltInPorts(), SeaRoute();
    forall i | 0 <= i < |w| - 1 ensures Edge(g, w[i], w[i + 1]) {
      if i == 0 {
        assert Edge(g, MUMBAI, WAYPOINT_1);
      } else {
        SeaRouteLegs(WAYPOINT_1 + i - 1);
      }
    }
  }

  /** The distance of the `k`-th leg of the sea route, for `k` from 1 to 13: 1100 out of
      Mumbai, then 1300 rising by 100 at each leg. */
  function SeaLeg(k: nat): int {
    if k == 1 then 1100 else 1100 + 100 * k
  }

  /** The distance of the first `n` legs of the sea route together. */
  function SeaLegsTotal(n: nat): int {
    if n == 0 then 0 else SeaLegsTotal(n - 1) + SeaLeg(n)
  }

  /** The first `k` ports of the sea route are the first `k - 1` legs long. */
  lemma {:induction false} SeaRoutePrefixLength(k: nat)
    requires 1 <= k <= 14
    ensures WalkLength(BuiltInPorts(), SeaRoute()[..k]) == SeaLegsTotal(k - 1)
    decreases k
  {
    if k > 1 {
      var g, w := BuiltInPorts(), SeaRoute();
      SeaRoutePrefixLength(k - 1);
      WalkLengthAppend(g, w[..k - 1], w[k - 1]);
      assert w[..k - 1] + [w[k - 1]] == w[..k];
      if k == 2 {
        assert Weight(g, MUMBAI, WAYPOINT_1) == 1100;
      } else {
        SeaRouteLegs(WAYPOINT_1 + k - 3);
      }
    }
  }

  /** The sea route is 23300 long. */
  lemma SeaRouteLength()
    ensures WalkLength(BuiltInPorts(), SeaRoute()) == 23300
  {
    SeaRoutePrefixLength(14);
    assert SeaRoute()[..14] == SeaRoute();
  }

  /** Mumbai to Chennai: the shortest route is the direct one, and its total is 660. */
  method ShortestMumbaiToChennai() returns (path: seq<Position>, total: int)
    ensures path == [BuiltInPorts()[MUMBAI].position, BuiltInPorts()[CHENNAI].position]
    ensures total == 660
  {
    var routing := new ShipRouting();
    ghost var route;
    path, route := routing.FindShortestRoute(MUMBAI, CHENNAI);
    ghost var g := routing.ports;
    DirectRouteLength();
    MumbaiChennaiDirect(route);
    total := routing.CalculateTotalDistance(path);
    BuiltInPositionsUnique();
    TotalDistanceOfWalk(g, route);
  }

  /** Mumbai to Rio de Janeiro: the shortest route is the sea route through Waypoints 1 to 12,
      and its total is 23300. */
  method ShortestMumbaiToRio() returns (path: seq<Position>, total: int)
    ensures path == Positions(BuiltInPorts(), SeaRoute())
    ensures total == 23300
  {
    var routing := new ShipRouting();
    ghost var route;
    path, route := routing.FindShortestRoute(MUMBAI, RIO_DE_JANEIRO);
    ghost var g := routing.ports;
    SeaRouteIsRoute();
    SeaRouteLength();
    MumbaiRioBySea(route);
    total := routing.CalculateTotalDistance(path);
    BuiltInPositionsUnique();
    TotalDistanceOfWalk(g, route);
  }
}
