/** The port graph of the ship-routing system: ports, their positions, the weighted
    neighbour maps that make up the edges, walks along those edges, and the
    first-match lookups by name and by position. */
module PortGraph {

  datatype Option<T> = None | Some(value: T)

  /** A geographic position in millionths of a degree. The routing code never does
      arithmetic on positions; it only compares them for equality. */
  datatype Position = Position(latitude: int, longitude: int)

  /** A port (or open-sea waypoint). A port is identified by its index in the list of
      ports, so `neighbors` maps the index of each neighbour to the distance of the
      directed edge towards it. */
  datatype PortNode = PortNode(name: string, position: Position, neighbors: map<nat, int>)
  {
    /** PortNode.addNeighbor: records the edge towards `neighbor` with distance `distance`,
        replacing an earlier distance towards the same neighbour as a map put does. */
    function AddNeighbor(neighbor: nat, distance: int): (p: PortNode)
      ensures p.name == name && p.position == position
      ensures p.neighbors.Keys == neighbors.Keys + {neighbor}
      ensures p.neighbors[neighbor] == distance
      ensures forall v :: v in neighbors && v != neighbor ==> p.neighbors[v] == neighbors[v]
    {
      this.(neighbors := neighbors[neighbor := distance])
    }
  }

  /** There is a directed edge from port `u` to port `v`. */
  predicate Edge(g: seq<PortNode>, u: nat, v: nat) {
    u < |g| && v in g[u].neighbors
  }

  /** The distance stored on the edge from `u` to `v`, and 0 when there is no such edge. */
  function Weight(g: seq<PortNode>, u: nat, v: nat): int {
    if Edge(g, u, v) then g[u].neighbors[v] else 0
  }

  /** Every neighbour of every port is itself a port of the list. */
  ghost predicate WellFormed(g: seq<PortNode>) {
    forall u: nat, v: nat :: Edge(g, u, v) ==> v < |g|
  }

  /** Every edge carries a positive distance, as every edge of the built-in dataset does. */
  ghost predicate PositiveWeights(g: seq<PortNode>) {
    forall u: nat, v: nat :: Edge(g, u, v) ==> g[u].neighbors[v] > 0
  }

  /** No two ports share a position. */
  ghost predicate UniquePositions(g: seq<PortNode>) {
    forall i, j :: 0 <= i < |g| && 0 <= j < |g| && g[i].position == g[j].position ==> i == j
  }

  /** A non-empty sequence of ports, each consecutive pair joined by an edge. */
  ghost predicate IsWalk(g: seq<PortNode>, w: seq<nat>) {
    && |w| > 0
    && (forall i :: 0 <= i < |w| ==> w[i] < |g|)
    && (forall i :: 0 <= i < |w| - 1 ==> Edge(g, w[i], w[i + 1]))
  }

  /** A walk that starts at `s` and ends at `t`. */
  ghost predicate IsRoute(g: seq<PortNode>, w: seq<nat>, s: nat, t: nat) {
    IsWalk(g, w) && w[0] == s && w[|w| - 1] == t
  }

  /** No port occurs twice in `w`. */
  ghost predicate Distinct(w: seq<nat>) {
    forall i, j :: 0 <= i < j < |w| ==> w[i] != w[j]
  }

  /** The sum of the edge distances along `w`. */
  function WalkLength(g: seq<PortNode>, w: seq<nat>): int
    decreases |w|
  {
    if |w| <= 1 then 0 else WalkLength(g, w[..|w| - 1]) + Weight(g, w[|w| - 2], w[|w| - 1])
  }

  /** `t` can be reached from `s`. */
  ghost predicate Reachable(g: seq<PortNode>, s: nat, t: nat) {
    exists w :: IsRoute(g, w, s, t)
  }

  /** `t` can be reached from `s` along a walk shorter than `bound`. */
  ghost predicate ReachableWithin(g: seq<PortNode>, s: nat, t: nat, bound: int) {
    exists w :: IsRoute(g, w, s, t) && WalkLength(g, w) < bound
  }

  /** The positions of the ports of `w`, in order. */
  function Positions(g: seq<PortNode>, w: seq<nat>): seq<Position>
    requires forall i :: 0 <= i < |w| ==> w[i] < |g|
  {
    seq(|w|, i requires 0 <= i < |w| => g[w[i]].position)
  }

  function Names(g: seq<PortNode>): seq<string> {
    seq(|g|, i requires 0 <= i < |g| => g[i].name)
  }

  function PortPositions(g: seq<PortNode>): seq<Position> {
    seq(|g|, i requires 0 <= i < |g| => g[i].position)
  }

  /** The first index at which `x` occurs in `s`, or None when it does not occur. */
  function IndexOf<T(==)>(s: seq<T>, x: T): (r: Option<nat>)
    ensures r.Some? ==> r.value < |s| && s[r.value] == x
    ensures r.Some? ==> forall j :: 0 <= j < r.value ==> s[j] != x
    ensures r.None? <==> forall j :: 0 <= j < |s| ==> s[j] != x
  {
    if |s| == 0 then None
    else if s[0] == x then Some(0)
    else match IndexOf(s[1..], x)
      case None => None
      case Some(k) => Some(k + 1)
  }

  /** The specification of ShipRouting.GetPortByName: the first port whose name is `name`. */
  function IndexOfName(g: seq<PortNode>, name: string): Option<nat> {
    IndexOf(Names(g), name)
  }

  /** The specification of ShipRouting.GetPortByPosition: the first port whose position is `p`. */
  function IndexOfPosition(g: seq<PortNode>, p: Position): Option<nat> {
    IndexOf(PortPositions(g), p)
  }

  /** With unique positions, looking up the position of port `i` finds port `i` again. */
  lemma IndexOfOwnPosition(g: seq<PortNode>, i: nat)
    requires UniquePositions(g) && i < |g|
    ensures IndexOfPosition(g, g[i].position) == Some(i)
  {
    var r := IndexOfPosition(g, g[i].position);
    assert PortPositions(g)[i] == g[i].position;
    assert r.Some?;
    assert g[r.value].position == PortPositions(g)[r.value];
  }

  /** Appending one edge to a walk adds that edge's distance. */
  lemma WalkLengthAppend(g: seq<PortNode>, w: seq<nat>, v: nat)
    requires |w| > 0
    ensures WalkLength(g, w + [v]) == WalkLength(g, w) + Weight(g, w[|w| - 1], v)
  {
    assert (w + [v])[..|w|] == w;
  }

  /** Prepending one edge to a walk adds that edge's distance. */
  lemma {:induction false} WalkLengthPrepend(g: seq<PortNode>, u: nat, w: seq<nat>)
    requires |w| > 0
    ensures WalkLength(g, [u] + w) == Weight(g, u, w[0]) + WalkLength(g, w)
    decreases |w|
  {
    if |w| == 1 {
      assert [u] + w == [u, w[0]];
      assert [u, w[0]][..1] == [u];
    } else {
      var w' := w[..|w| - 1];
      WalkLengthPrepend(g, u, w');
      assert ([u] + w)[..|w|] == [u] + w';
      assert ([u] + w)[|w| - 1] == w[|w| - 2];
    }
  }

  /** With positive distances, a prefix of a walk is never longer than the walk. */
  lemma {:induction false} WalkLengthPrefix(g: seq<PortNode>, w: seq<nat>, k: nat)
    requires IsWalk(g, w) && PositiveWeights(g) && 1 <= k <= |w|
    ensures WalkLength(g, w[..k]) <= WalkLength(g, w)
    decreases |w|
  {
    if k < |w| {
      var w' := w[..|w| - 1];
      WalkPrefix(g, w, |w| - 1);
      WalkLengthPrefix(g, w', k);
      assert w'[..k] == w[..k];
      assert Edge(g, w[|w| - 2], w[|w| - 1]);
    } else {
      assert w[..k] == w;
    }
  }

  /** With positive distances, a walk of three or more ports is at least as long as its
      first two edges. */
  lemma WalkLengthFirstTwo(g: seq<PortNode>, w: seq<nat>)
    requires IsWalk(g, w) && PositiveWeights(g) && |w| >= 3
    ensures WalkLength(g, w) >= Weight(g, w[0], w[1]) + Weight(g, w[1], w[2])
  {
    WalkLengthPrefix(g, w, 3);
    WalkLengthAppend(g, [w[0]], w[1]);
    WalkLengthAppend(g, [w[0], w[1]], w[2]);
    assert w[..3] == [w[0], w[1]] + [w[2]] && [w[0], w[1]] == [w[0]] + [w[1]];
  }

  /** A port joined by an edge to the first port of a walk can be put in front of it. */
  lemma WalkPrepend(g: seq<PortNode>, u: nat, w: seq<nat>)
    requires IsWalk(g, w) && u < |g| && Edge(g, u, w[0])
    ensures IsWalk(g, [u] + w)
    ensures Positions(g, [u] + w) == [g[u].position] + Positions(g, w)
  {
    var w' := [u] + w;
    forall i | 0 <= i < |w'| - 1 ensures Edge(g, w'[i], w'[i + 1]) {
      if i > 0 {
        assert Edge(g, w[i - 1], w[i]);
      }
    }
  }

  /** A prefix of a walk is a walk. */
  lemma WalkPrefix(g: seq<PortNode>, w: seq<nat>, k: nat)
    requires IsWalk(g, w) && 1 <= k <= |w|
    ensures IsWalk(g, w[..k])
  {
    assert forall i :: 0 <= i < k - 1 ==> Edge(g, w[..k][i], w[..k][i + 1]) by {
      forall i | 0 <= i < k - 1 ensures Edge(g, w[..k][i], w[..k][i + 1]) {
        assert Edge(g, w[i], w[i + 1]);
      }
    }
  }
}
