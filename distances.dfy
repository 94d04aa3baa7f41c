/** How ShipRouting.java totals a route that is given only as a list of positions:
    each position is looked up again among the ports (first match), and consecutive
    pairs contribute the distance of the edge between them, or 0. */
module Distances {
  import opened PortGraph

  /** The specification of ShipRouting.GetDistanceBetweenPorts: the distance stored on the
      edge from the port at `p1` to the port at `p2`; 0 when either position belongs to no
      port or there is no such edge. */
  function DistanceBetween(g: seq<PortNode>, p1: Position, p2: Position): int {
    match (IndexOfPosition(g, p1), IndexOfPosition(g, p2))
    case (Some(u), Some(v)) => Weight(g, u, v)
    case _ => 0
  }

  /** The specification of ShipRouting.CalculateTotalDistance: the sum of DistanceBetween
      over consecutive positions. */
  function TotalDistance(g: seq<PortNode>, ps: seq<Position>): int
    decreases |ps|
  {
    if |ps| <= 1 then 0 else TotalDistance(g, ps[..|ps| - 1]) + DistanceBetween(g, ps[|ps| - 2], ps[|ps| - 1])
  }

  /** With unique positions, the distance between the positions of two ports is the
      distance of the edge between those ports. */
  lemma DistanceBetweenPorts(g: seq<PortNode>, u: nat, v: nat)
    requires UniquePositions(g) && u < |g| && v < |g|
    ensures DistanceBetween(g, g[u].position, g[v].position) == Weight(g, u, v)
  {
    IndexOfOwnPosition(g, u);
    IndexOfOwnPosition(g, v);
  }

  /** A position that belongs to no port contributes nothing. */
  lemma DistanceFromUnknown(g: seq<PortNode>, p1: Position, p2: Position)
    requires forall i :: 0 <= i < |g| ==> g[i].position != p1
    ensures DistanceBetween(g, p1, p2) == 0 && DistanceBetween(g, p2, p1) == 0
  {
    assert forall j :: 0 <= j < |PortPositions(g)| ==> PortPositions(g)[j] != p1;
  }

  /** With unique positions, totalling the positions of a walk gives the walk's length:
      the route distances shown to the user are the lengths of the routes found. */
  lemma {:induction false} TotalDistanceOfWalk(g: seq<PortNode>, w: seq<nat>)
    requires UniquePositions(g) && forall i :: 0 <= i < |w| ==> w[i] < |g|
    ensures TotalDistance(g, Positions(g, w)) == WalkLength(g, w)
    decreases |w|
  {
    var ps := Positions(g, w);
    if |w| > 1 {
      var w' := w[..|w| - 1];
      TotalDistanceOfWalk(g, w');
      assert ps[..|ps| - 1] == Positions(g, w');
      DistanceBetweenPorts(g, w[|w| - 2], w[|w| - 1]);
    }
  }
}
