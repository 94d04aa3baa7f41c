/** The fixed topology that createPortsAndRoutes builds (ShipRouting.java:135-273):
    twenty harbours in India, Brazil, the USA and Canada and twelve open-sea waypoints,
    with the edge distances of the source, in the order in which the source adds them.
    Positions are in millionths of a degree. */
module Dataset {
  import opened PortGraph

  const MUMBAI: nat := 0
  const CHENNAI: nat := 1
  const KOLKATA: nat := 2
  const COCHIN: nat := 3
  const KANDLA: nat := 4
  const RIO_DE_JANEIRO: nat := 5
  const SANTOS: nat := 6
  const SALVADOR: nat := 7
  const RECIFE: nat := 8
  const FORTALEZA: nat := 9
  const NEW_YORK: nat := 10
  const LOS_ANGELES: nat := 11
  const MIAMI: nat := 12
  const HOUSTON: nat := 13
  const SEATTLE: nat := 14
  const VANCOUVER: nat := 15
  const HALIFAX: nat := 16
  const MONTREAL: nat := 17
  const TORONTO: nat := 18
  const QUEBEC_CITY: nat := 19
  const WAYPOINT_1: nat := 20
  const WAYPOINT_2: nat := 21
  const WAYPOINT_3: nat := 22
  const WAYPOINT_4: nat := 23
  const WAYPOINT_5: nat := 24
  const WAYPOINT_6: nat := 25
  const WAYPOINT_7: nat := 26
  const WAYPOINT_8: nat := 27
  const WAYPOINT_9: nat := 28
  const WAYPOINT_10: nat := 29
  const WAYPOINT_11: nat := 30
  const WAYPOINT_12: nat := 31

  /** The specification of ShipRouting.CreatePortsAndRoutes: the list `ports` once it has run. */
  function BuiltInPorts(): seq<PortNode> {
    [
      PortNode("India - Mumbai", Position(18964700, 72825800), map[1 := 660, 2 := 860, 3 := 720, 4 := 940, 20 := 1100]),
      PortNode("India - Chennai", Position(13082700, 80270700), map[0 := 660]),
      PortNode("India - Kolkata", Position(22572600, 88363900), map[0 := 860]),
      PortNode("India - Cochin", Position(9931200, 76267300), map[0 := 720]),
      PortNode("India - Kandla", Position(23032400, 70222800), map[0 := 940]),
      PortNode("Brazil - Rio de Janeiro", Position(-22906800, -43172900), map[6 := 210, 7 := 610, 8 := 1220, 9 := 1860]),
      PortNode("Brazil - Santos", Position(-23953600, -46332200), map[5 := 210]),
      PortNode("Brazil - Salvador", Position(-12971400, -38501400), map[5 := 610]),
      PortNode("Brazil - Recife", Position(-8047600, -34877000), map[5 := 1220]),
      PortNode("Brazil - Fortaleza", Position(-3717200, -38543400), map[5 := 1860]),
      PortNode("USA - New York", Position(40712800, -74006000), map[11 := 2450, 12 := 1090, 13 := 1630, 14 := 2420]),
      PortNode("USA - Los Angeles", Position(33941600, -118408500), map[10 := 2450]),
      PortNode("USA - Miami", Position(25761700, -80191800), map[10 := 1090]),
      PortNode("USA - Houston", Position(29760400, -95369800), map[10 := 1630]),
      PortNode("USA - Seattle", Position(47606200, -122332100), map[10 := 2420]),
      PortNode("Canada - Vancouver", Position(49282700, -123120700), map[16 := 3030, 17 := 2320, 18 := 2090, 19 := 2410]),
      PortNode("Canada - Halifax", Position(44648800, -63575200), map[15 := 3030]),
      PortNode("Canada - Montreal", Position(45501700, -73567300), map[15 := 2320]),
      PortNode("Canada - Toronto", Position(43651070, -79347015), map[15 := 2090]),
      PortNode("Canada - Quebec City", Position(46813900, -71208200), map[15 := 2410]),
      PortNode("Waypoint 1", Position(12000000, 70000000), map[21 := 1300]),
      PortNode("Waypoint 2", Position(5000000, 50000000), map[22 := 1400]),
      PortNode("Waypoint 3", Position(-5000000, 40000000), map[23 := 1500]),
      PortNode("Waypoint 4 - Cape Town", Position(-33925800, 18423200), map[24 := 1600]),
      PortNode("Waypoint 5", Position(-25000000, 10000000), map[25 := 1700]),
      PortNode("Waypoint 6", Position(-20000000, -10000000), map[26 := 1800]),
      PortNode("Waypoint 7", Position(-10000000, -20000000), map[27 := 1900]),
      PortNode("Waypoint 8", Position(0, -30000000), map[28 := 2000]),
      PortNode("Waypoint 9", Position(10000000, -40000000), map[29 := 2100]),
      PortNode("Waypoint 10", Position(0, -50000000), map[30 := 2200]),
      PortNode("Waypoint 11", Position(-10000000, -60000000), map[31 := 2300]),
      PortNode("Waypoint 12", Position(-25000000, -70000000), map[5 := 2400])
    ]
  }

  lemma BuiltInPortsValid()
    ensures |BuiltInPorts()| == 32
    ensures WellFormed(BuiltInPorts()) && PositiveWeights(BuiltInPorts())
  {
    var g := BuiltInPorts();
    forall u: nat, v: nat | Edge(g, u, v) ensures v < |g| && g[u].neighbors[v] > 0 {
      assert u == 0 || u == 1 || u == 2 || u == 3 || u == 4 || u == 5 || u == 6 || u == 7 || u == 8 || u == 9 || u == 10 || u == 11 || u == 12 || u == 13 || u == 14 || u == 15 || u == 16 || u == 17 || u == 18 || u == 19 || u == 20 || u == 21 || u == 22 || u == 23 || u == 24 || u == 25 || u == 26 || u == 27 || u == 28 || u == 29 || u == 30 || u == 31;
    }
  }

  /** The index of the built-in port at a given longitude: no two built-in ports share one. */
  function PortAtLongitude(longitude: int): int {
    if longitude == 72825800 then 0
    else if longitude == 80270700 then 1
    else if longitude == 88363900 then 2
    else if longitude == 76267300 then 3
    else if longitude == 70222800 then 4
    else if longitude == -43172900 then 5
    else if longitude == -46332200 then 6
    else if longitude == -38501400 then 7
    else if longitude == -34877000 then 8
    else if longitude == -38543400 then 9
    else if longitude == -74006000 then 10
    else if longitude == -118408500 then 11
    else if longitude == -80191800 then 12
    else if longitude == -95369800 then 13
    else if longitude == -122332100 then 14
    else if longitude == -123120700 then 15
    else if longitude == -63575200 then 16
    else if longitude == -73567300 then 17
    else if longitude == -79347015 then 18
    else if longitude == -71208200 then 19
    else if longitude == 70000000 then 20
    else if longitude == 50000000 then 21
    else if longitude == 40000000 then 22
    else if longitude == 18423200 then 23
    else if longitude == 10000000 then 24
    else if longitude == -10000000 then 25
    else if longitude == -20000000 then 26
    else if longitude == -30000000 then 27
    else if longitude == -40000000 then 28
    else if longitude == -50000000 then 29
    else if longitude == -60000000 then 30
    else if longitude == -70000000 then 31
    else -1
  }

  lemma BuiltInPositionsUnique()
    ensures UniquePositions(BuiltInPorts())
  {
    var g := BuiltInPorts();
    forall i | 0 <= i < |g| ensures PortAtLongitude(g[i].position.longitude) == i {
      assert i == 0 || i == 1 || i == 2 || i == 3 || i == 4 || i == 5 || i == 6 || i == 7 || i == 8 || i == 9 || i == 10 || i == 11 || i == 12 || i == 13 || i == 14 || i == 15 || i == 16 || i == 17 || i == 18 || i == 19 || i == 20 || i == 21 || i == 22 || i == 23 || i == 24 || i == 25 || i == 26 || i == 27 || i == 28 || i == 29 || i == 30 || i == 31;
    }
  }

  /** Every route of the dataset is at least 210 long (Rio de Janeiro to Santos), and every
      route out of Mumbai at least 660 (to Chennai). */
  lemma EdgeLengths(u: nat, v: nat)
    requires Edge(BuiltInPorts(), u, v)
    ensures Weight(BuiltInPorts(), u, v) >= 210
    ensures u == MUMBAI ==> Weight(BuiltInPorts(), u, v) >= 660
  {
    assert u == 0 || u == 1 || u == 2 || u == 3 || u == 4 || u == 5 || u == 6 || u == 7 || u == 8 || u == 9 || u == 10 || u == 11 || u == 12 || u == 13 || u == 14 || u == 15 || u == 16 || u == 17 || u == 18 || u == 19 || u == 20 || u == 21 || u == 22 || u == 23 || u == 24 || u == 25 || u == 26 || u == 27 || u == 28 || u == 29 || u == 30 || u == 31;
  }

  /** The only ways into Rio de Janeiro, into the other Brazilian ports and into the sea
      waypoints: the sea route from Mumbai through Waypoints 1 to 12 is the only way from
      outside Brazil into Brazil. */
  lemma InNeighbors(u: nat, v: nat)
    requires Edge(BuiltInPorts(), u, v)
    ensures v == RIO_DE_JANEIRO ==> u == SANTOS || u == SALVADOR || u == RECIFE || u == FORTALEZA || u == WAYPOINT_12
    ensures SANTOS <= v <= FORTALEZA ==> u == RIO_DE_JANEIRO
    ensures v == WAYPOINT_1 ==> u == MUMBAI
    ensures WAYPOINT_1 < v <= WAYPOINT_12 ==> u == v - 1
  {
    assert u == 0 || u == 1 || u == 2 || u == 3 || u == 4 || u == 5 || u == 6 || u == 7 || u == 8 || u == 9 || u == 10 || u == 11 || u == 12 || u == 13 || u == 14 || u == 15 || u == 16 || u == 17 || u == 18 || u == 19 || u == 20 || u == 21 || u == 22 || u == 23 || u == 24 || u == 25 || u == 26 || u == 27 || u == 28 || u == 29 || u == 30 || u == 31;
  }

  /** The legs of the sea route: each waypoint leads to the next one and Waypoint 12 to
      Rio de Janeiro, with distances rising from 1300 by 100 at each leg. */
  lemma SeaRouteLegs(i: nat)
    requires WAYPOINT_1 <= i <= WAYPOINT_12
    ensures i < WAYPOINT_12 ==> Edge(BuiltInPorts(), i, i + 1) && Weight(BuiltInPorts(), i, i + 1) == 1300 + 100 * (i - WAYPOINT_1)
    ensures i == WAYPOINT_12 ==> Edge(BuiltInPorts(), i, RIO_DE_JANEIRO) && Weight(BuiltInPorts(), i, RIO_DE_JANEIRO) == 2400
  {
    assert i == 20 || i == 21 || i == 22 || i == 23 || i == 24 || i == 25 || i == 26 || i == 27 || i == 28 || i == 29 || i == 30 || i == 31;
  }

  /** The sea route is added in one direction only: no leg has an edge back. */
  lemma SeaRouteOneWay(i: nat)
    requires WAYPOINT_1 <= i <= WAYPOINT_12
    ensures i < WAYPOINT_12 ==> !Edge(BuiltInPorts(), i + 1, i)
    ensures i == WAYPOINT_12 ==> !Edge(BuiltInPorts(), RIO_DE_JANEIRO, i)
  {
    assert i == 20 || i == 21 || i == 22 || i == 23 || i == 24 || i == 25 || i == 26 || i == 27 || i == 28 || i == 29 || i == 30 || i == 31;
  }
}
