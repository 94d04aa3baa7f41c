/** The building blocks shared by the shortest- and longest-route searches of
    ShipRouting.java: the sentinel distances, the initial distance map, extraction from
    the priority queue, one relaxation step, and the facts about settled ports on which
    the correctness of both searches rests. */
module RouteSearch {
  import opened PortGraph

  /** Integer.MAX_VALUE, the "not reached yet" distance of the shortest-route search. */
  const INF: int := 0x7fff_ffff
  /** Integer.MIN_VALUE, the "not reached yet" distance of the longest-route search. */
  const NEG_INF: int := -0x8000_0000

  /** The distance map right after initialisation: `sentinel` for every port, then 0 for
      the start port. */
  function InitialDistances(n: nat, start: nat, sentinel: int): (d: seq<int>)
    requires start < n
    ensures |d| == n && d[start] == 0
    ensures forall v :: 0 <= v < n && v != start ==> d[v] == sentinel
  {
    seq(n, _ => sentinel)[start := 0]
  }

  /** The sum of a sequence of integers; the termination measure of the shortest-route search. */
  function Sum(s: seq<int>): (r: int)
    ensures (forall i :: 0 <= i < |s| ==> s[i] >= 0) ==> r >= 0
  {
    if s == [] then 0 else Sum(s[..|s| - 1]) + s[|s| - 1]
  }

  /** Replacing one entry changes the sum by the difference. */
  lemma {:induction false} SumUpdate(s: seq<int>, i: nat, x: int)
    requires i < |s|
    ensures Sum(s[i := x]) == Sum(s) - s[i] + x
    decreases |s|
  {
    var s' := s[i := x];
    if i == |s| - 1 {
      assert s'[..|s| - 1] == s[..|s| - 1];
    } else {
      assert s'[..|s| - 1] == s[..|s| - 1][i := x];
      SumUpdate(s[..|s| - 1], i, x);
    }
  }

  /** PriorityQueue.poll of the shortest-route search: the position in the queue of a port
      whose current distance is smallest. */
  method IndexOfNearest(queue: seq<nat>, dist: seq<int>) returns (k: nat)
    requires queue != []
    requires forall i :: 0 <= i < |queue| ==> queue[i] < |dist|
    ensures k < |queue|
    ensures forall i :: 0 <= i < |queue| ==> dist[queue[k]] <= dist[queue[i]]
  {
    k := 0;
    for i := 1 to |queue|
      invariant k < i
      invariant forall j :: 0 <= j < i ==> dist[queue[k]] <= dist[queue[j]]
    {
      if dist[queue[i]] < dist[queue[k]] {
        k := i;
      }
    }
  }

  /** PriorityQueue.poll of the longest-route search: the position in the queue of a port
      whose current distance is largest. */
  method IndexOfFarthest(queue: seq<nat>, dist: seq<int>) returns (k: nat)
    requires queue != []
    requires forall i :: 0 <= i < |queue| ==> queue[i] < |dist|
    ensures k < |queue|
    ensures forall i :: 0 <= i < |queue| ==> dist[queue[i]] <= dist[queue[k]]
  {
    k := 0;
    for i := 1 to |queue|
      invariant k < i
      invariant forall j :: 0 <= j < i ==> dist[queue[j]] <= dist[queue[k]]
    {
      if dist[queue[k]] < dist[queue[i]] {
        k := i;
      }
    }
  }

  /** One relaxation of the edge `cur -> nb` of distance `w` in the shortest-route search:
      a strictly shorter distance through `cur` is recorded together with `cur` as the
      predecessor of `nb`, and `nb` is enqueued again; otherwise nothing changes. */
  method RelaxShorter(dist: seq<int>, pred: map<nat, nat>, queue: seq<nat>, cur: nat, nb: nat, w: int)
    returns (dist': seq<int>, pred': map<nat, nat>, queue': seq<nat>)
    requires cur < |dist| && nb < |dist|
    ensures |dist'| == |dist|
    ensures forall v :: 0 <= v < |dist| ==> dist'[v] <= dist[v]
    ensures dist[cur] + w < dist[nb] ==>
      dist' == dist[nb := dist[cur] + w] && pred' == pred[nb := cur] && queue' == queue + [nb]
    ensures dist[cur] + w >= dist[nb] ==> dist' == dist && pred' == pred && queue' == queue
  {
    dist', pred', queue' := dist, pred, queue;
    var newDist := dist[cur] + w;
    if newDist < dist[nb] {
      dist' := dist[nb := newDist];
      pred' := pred[nb := cur];
      queue' := queue + [nb];
    }
  }

  /** One relaxation of the edge `cur -> nb` of distance `w` in the longest-route search:
      the mirror image of RelaxShorter, with a strictly longer distance. */
  method RelaxLonger(dist: seq<int>, pred: map<nat, nat>, queue: seq<nat>, cur: nat, nb: nat, w: int)
    returns (dist': seq<int>, pred': map<nat, nat>, queue': seq<nat>)
    requires cur < |dist| && nb < |dist|
    ensures |dist'| == |dist|
    ensures forall v :: 0 <= v < |dist| ==> dist[v] <= dist'[v]
    ensures dist[cur] + w > dist[nb] ==>
      dist' == dist[nb := dist[cur] + w] && pred' == pred[nb := cur] && queue' == queue + [nb]
    ensures dist[cur] + w <= dist[nb] ==> dist' == dist && pred' == pred && queue' == queue
  {
    dist', pred', queue' := dist, pred, queue;
    var newDist := dist[cur] + w;
    if newDist > dist[nb] {
      dist' := dist[nb := newDist];
      pred' := pred[nb := cur];
      queue' := queue + [nb];
    }
  }

  /** In the shortest-route search, every edge out of `u` has been relaxed at `u`'s current distance. */
  ghost predicate SettledShorter(g: seq<PortNode>, dist: seq<int>, u: nat) {
    forall v: nat {:trigger Edge(g, u, v)} :: Edge(g, u, v) && u < |dist| && v < |dist| ==> dist[v] <= dist[u] + Weight(g, u, v)
  }

  /** In the longest-route search, every edge out of `u` has been relaxed at `u`'s current distance. */
  ghost predicate SettledLonger(g: seq<PortNode>, dist: seq<int>, u: nat) {
    forall v: nat {:trigger Edge(g, u, v)} :: Edge(g, u, v) && u < |dist| && v < |dist| ==> dist[u] + Weight(g, u, v) <= dist[v]
  }

  /** Every reached port that is neither waiting in the queue nor in `skip` is settled. */
  ghost predicate ShorterSettledOutside(g: seq<PortNode>, dist: seq<int>, queue: seq<nat>, skip: set<nat>) {
    forall u: nat {:trigger SettledShorter(g, dist, u)} :: u < |dist| && dist[u] < INF && u !in queue && u !in skip ==> SettledShorter(g, dist, u)
  }

  ghost predicate LongerSettledOutside(g: seq<PortNode>, dist: seq<int>, queue: seq<nat>, skip: set<nat>) {
    forall u: nat {:trigger SettledLonger(g, dist, u)} :: u < |dist| && dist[u] != NEG_INF && u !in queue && u !in skip ==> SettledLonger(g, dist, u)
  }

  /** The predecessor of every labelled port is joined to it by an edge and is nearer to
      the start by at least that edge's distance. */
  ghost predicate PredecessorsShorter(g: seq<PortNode>, dist: seq<int>, pred: map<nat, nat>) {
    forall v {:trigger v in pred} :: v in pred ==>
      && v < |dist| && pred[v] < |dist|
      && Edge(g, pred[v], v)
      && dist[pred[v]] + Weight(g, pred[v], v) <= dist[v] < INF
  }

  /** The predecessor of every labelled port is joined to it by an edge, has been reached,
      and is no farther from the start than that edge's distance short of it. */
  ghost predicate PredecessorsLonger(g: seq<PortNode>, dist: seq<int>, pred: map<nat, nat>) {
    forall v {:trigger v in pred} :: v in pred ==>
      && v < |dist| && pred[v] < |dist|
      && Edge(g, pred[v], v)
      && dist[pred[v]] != NEG_INF && dist[v] != NEG_INF
      && dist[v] <= dist[pred[v]] + Weight(g, pred[v], v)
  }

  /** The labels of the shortest-route search: `start` is at distance 0 and has no
      predecessor, every reached port other than `start` has a predecessor, and every
      recorded predecessor is joined to its port by an edge and is nearer to the start. */
  ghost predicate ShorterLabels(g: seq<PortNode>, dist: seq<int>, pred: map<nat, nat>, start: nat) {
    && |dist| == |g| && start < |g|
    && (forall v :: 0 <= v < |dist| ==> 0 <= dist[v] <= INF)
    && dist[start] == 0 && start !in pred
    && PredecessorsShorter(g, dist, pred)
    && (forall v {:trigger v in pred} :: 0 <= v < |dist| && dist[v] < INF ==> v == start || v in pred)
  }

  /** Every port waiting in the queue of the shortest-route search has been reached. */
  ghost predicate QueuedShorter(dist: seq<int>, queue: seq<nat>) {
    forall j :: 0 <= j < |queue| ==> queue[j] < |dist| && dist[queue[j]] < INF
  }

  /** A strictly shorter distance for `nb` through `cur` keeps the labels, and leaves settled
      every port that was settled before, `nb` itself now waiting in the queue. */
  lemma ImproveShorter(g: seq<PortNode>, start: nat, dist: seq<int>, pred: map<nat, nat>, queue: seq<nat>, skip: set<nat>, cur: nat, nb: nat)
    requires PositiveWeights(g) && ShorterLabels(g, dist, pred, start) && QueuedShorter(dist, queue)
    requires cur < |g| && dist[cur] < INF && Edge(g, cur, nb) && nb < |g|
    requires dist[cur] + Weight(g, cur, nb) < dist[nb]
    requires ShorterSettledOutside(g, dist, queue, skip)
    ensures nb != cur && nb != start
    ensures ShorterLabels(g, dist[nb := dist[cur] + Weight(g, cur, nb)], pred[nb := cur], start)
    ensures QueuedShorter(dist[nb := dist[cur] + Weight(g, cur, nb)], queue + [nb])
    ensures ShorterSettledOutside(g, dist[nb := dist[cur] + Weight(g, cur, nb)], queue + [nb], skip)
  {
    var d' := dist[nb := dist[cur] + Weight(g, cur, nb)];
    forall u: nat | u < |d'| && d'[u] < INF && u !in queue + [nb] && u !in skip
      ensures SettledShorter(g, d', u)
    {
      assert SettledShorter(g, dist, u);
    }
  }

  /** The invariant of the inner loop of findShortestRoute while the edges out of
      `current` are relaxed: the labels are kept, `current` keeps the distance `dist0` gave
      it, the edges towards the ports no longer in `keys` have been relaxed, and either some
      distance went down or nothing changed since `dist0` and `queue0`. */
  ghost predicate RelaxingShorter(g: seq<PortNode>, start: nat, dist0: seq<int>, queue0: seq<nat>, current: nat,
                                  keys: set<nat>, dist: seq<int>, pred: map<nat, nat>, queue: seq<nat>) {
    && ShorterLabels(g, dist, pred, start) && QueuedShorter(dist, queue)
    && current < |g| == |dist0| && dist[current] == dist0[current] < INF
    && ShorterSettledOutside(g, dist, queue, {current})
    && (forall v: nat :: Edge(g, current, v) && v < |dist| && v !in keys ==> dist[v] <= dist[current] + Weight(g, current, v))
    && (forall v :: 0 <= v < |dist| ==> dist[v] <= dist0[v])
    && (Sum(dist) < Sum(dist0) || (dist == dist0 && queue == queue0))
  }

  /** One relaxation keeps the invariant of the inner loop, with `nb` removed from `keys`. */
  lemma RelaxStepShorter(g: seq<PortNode>, start: nat, dist0: seq<int>, queue0: seq<nat>, current: nat, keys: set<nat>, nb: nat,
                         dist: seq<int>, pred: map<nat, nat>, queue: seq<nat>,
                         dist': seq<int>, pred': map<nat, nat>, queue': seq<nat>)
    requires WellFormed(g) && PositiveWeights(g)
    requires RelaxingShorter(g, start, dist0, queue0, current, keys, dist, pred, queue)
    requires nb in keys && Edge(g, current, nb)
    requires dist[current] + g[current].neighbors[nb] < dist[nb] ==>
      dist' == dist[nb := dist[current] + g[current].neighbors[nb]] && pred' == pred[nb := current] && queue' == queue + [nb]
    requires dist[current] + g[current].neighbors[nb] >= dist[nb] ==> dist' == dist && pred' == pred && queue' == queue
    ensures RelaxingShorter(g, start, dist0, queue0, current, keys - {nb}, dist', pred', queue')
  {
    var w := dist[current] + Weight(g, current, nb);
    if w < dist[nb] {
      ImproveShorter(g, start, dist, pred, queue, {current}, current, nb);
      SumUpdate(dist, nb, w);
    }
  }

  /** Before any edge out of `current` is relaxed, the invariant of the inner loop holds. */
  lemma StartRelaxingShorter(g: seq<PortNode>, start: nat, dist: seq<int>, pred: map<nat, nat>, queue: seq<nat>, current: nat)
    requires ShorterLabels(g, dist, pred, start) && QueuedShorter(dist, queue)
    requires current < |g| && dist[current] < INF
    requires ShorterSettledOutside(g, dist, queue, {current})
    ensures RelaxingShorter(g, start, dist, queue, current, g[current].neighbors.Keys, dist, pred, queue)
  {
  }

  /** Once every edge out of `current` has been relaxed, `current` is settled. */
  lemma DoneRelaxingShorter(g: seq<PortNode>, start: nat, dist0: seq<int>, queue0: seq<nat>, current: nat,
                            dist: seq<int>, pred: map<nat, nat>, queue: seq<nat>)
    requires RelaxingShorter(g, start, dist0, queue0, current, {}, dist, pred, queue)
    ensures ShorterSettledOutside(g, dist, queue, {})
  {
    assert SettledShorter(g, dist, current);
  }

  /** The inner loop of findShortestRoute: relaxes every edge out of `current`. The labels
      are kept, `current` becomes settled, and either some distance went down or nothing
      changed at all. */
  method RelaxNeighborsShorter(g: seq<PortNode>, start: nat, dist: seq<int>, pred: map<nat, nat>, queue: seq<nat>, current: nat)
    returns (dist': seq<int>, pred': map<nat, nat>, queue': seq<nat>)
    requires WellFormed(g) && PositiveWeights(g)
    requires ShorterLabels(g, dist, pred, start) && QueuedShorter(dist, queue)
    requires current < |g| && dist[current] < INF
    requires ShorterSettledOutside(g, dist, queue, {current})
    ensures ShorterLabels(g, dist', pred', start) && QueuedShorter(dist', queue')
    ensures ShorterSettledOutside(g, dist', queue', {}) && SettledShorter(g, dist', current)
    ensures forall v :: 0 <= v < |dist| ==> dist'[v] <= dist[v]
    ensures Sum(dist') < Sum(dist) || (dist' == dist && queue' == queue)
  {
    dist', pred', queue' := dist, pred, queue;
    var keys := g[current].neighbors.Keys;
    StartRelaxingShorter(g, start, dist, pred, queue, current);
    while keys != {}
      invariant keys <= g[current].neighbors.Keys
      invariant RelaxingShorter(g, start, dist, queue, current, keys, dist', pred', queue')
      decreases keys
    {
      var neighbor :| neighbor in keys;
      assert Edge(g, current, neighbor);
      ghost var d, p, q := dist', pred', queue';
      dist', pred', queue' := RelaxShorter(dist', pred', queue', current, neighbor, g[current].neighbors[neighbor]);
      RelaxStepShorter(g, start, dist, queue, current, keys, neighbor, d, p, q, dist', pred', queue');
      keys := keys - {neighbor};
    }
    DoneRelaxingShorter(g, start, dist, queue, current, dist', pred', queue');
  }

  /** The walk back of findShortestRoute: from `end`, follow the recorded predecessors until
      a port without one, collecting positions. Each predecessor is strictly nearer to the
      start, so the walk stops, visits no port twice, is no longer than the distance of
      `end`, and starts at `start` whenever `end` was reached. */
  method TraceBackShorter(g: seq<PortNode>, dist: seq<int>, pred: map<nat, nat>, start: nat, end: nat)
    returns (path: seq<Position>, ghost route: seq<nat>)
    requires PositiveWeights(g) && ShorterLabels(g, dist, pred, start) && end < |g|
    ensures IsWalk(g, route) && route[|route| - 1] == end
    ensures path == Positions(g, route) && Distinct(route)
    ensures WalkLength(g, route) <= dist[end]
    ensures dist[end] < INF ==> route[0] == start
    ensures dist[end] == INF ==> route == [end]
  {
    var at := end;
    path, route := [g[end].position], [end];
    while at in pred
      invariant |route| > 0 && route[0] == at && route[|route| - 1] == end
      invariant IsWalk(g, route) && path == Positions(g, route)
      invariant NearerAlong(dist, route)
      invariant WalkLength(g, route) + dist[at] <= dist[end]
      invariant dist[end] == INF ==> route == [end]
      decreases dist[at]
    {
      var next := pred[at];
      assert Edge(g, next, at) && dist[next] + Weight(g, next, at) <= dist[at];
      WalkLengthPrepend(g, next, route);
      WalkPrepend(g, next, route);
      PrependNearer(dist, next, route);
      route := [next] + route;
      path := [g[next].position] + path;
      at := next;
    }
    NearerDistinct(dist, route);
  }

  /** Distances strictly increase along `route`. */
  ghost predicate NearerAlong(dist: seq<int>, route: seq<nat>) {
    && (forall i :: 0 <= i < |route| ==> route[i] < |dist|)
    && (forall i, j :: 0 <= i < j < |route| ==> dist[route[i]] < dist[route[j]])
  }

  /** A port strictly nearer than the first port of `route` can be put in front of it. */
  lemma PrependNearer(dist: seq<int>, u: nat, route: seq<nat>)
    requires NearerAlong(dist, route) && |route| > 0 && u < |dist| && dist[u] < dist[route[0]]
    ensures NearerAlong(dist, [u] + route)
  {
    var r := [u] + route;
    forall i, j | 0 <= i < j < |r| ensures dist[r[i]] < dist[r[j]] {
      assert r[j] == route[j - 1];
      if i > 0 {
        assert r[i] == route[i - 1];
      } else if j > 1 {
        assert dist[route[0]] < dist[route[j - 1]];
      }
    }
  }

  /** Along a route whose distances strictly increase, no port occurs twice. */
  lemma NearerDistinct(dist: seq<int>, route: seq<nat>)
    requires NearerAlong(dist, route)
    ensures Distinct(route)
  {
    forall i, j | 0 <= i < j < |route| ensures route[i] != route[j] {
      assert dist[route[i]] < dist[route[j]];
    }
  }

  /** The labels of the longest-route search: `start` has been reached, every reached port
      other than `start` has a predecessor, and every recorded predecessor is joined to its
      port by an edge and has been reached. */
  ghost predicate LongerLabels(g: seq<PortNode>, dist: seq<int>, pred: map<nat, nat>, start: nat) {
    && |dist| == |g| && start < |g|
    && (forall v :: 0 <= v < |dist| ==> dist[v] == NEG_INF || dist[v] >= 0)
    && dist[start] != NEG_INF
    && PredecessorsLonger(g, dist, pred)
    && (forall v {:trigger v in pred} :: 0 <= v < |dist| && dist[v] != NEG_INF ==> v == start || v in pred)
  }

  /** Every port waiting in the queue of the longest-route search has been reached. */
  ghost predicate QueuedLonger(dist: seq<int>, queue: seq<nat>) {
    forall j :: 0 <= j < |queue| ==> queue[j] < |dist| && dist[queue[j]] != NEG_INF
  }

  /** A strictly longer distance for `nb` through `cur` keeps the labels, and leaves settled
      every port that was settled before, `nb` itself now waiting in the queue. */
  lemma ImproveLonger(g: seq<PortNode>, start: nat, dist: seq<int>, pred: map<nat, nat>, queue: seq<nat>, skip: set<nat>, cur: nat, nb: nat)
    requires PositiveWeights(g) && LongerLabels(g, dist, pred, start) && QueuedLonger(dist, queue)
    requires cur < |g| && dist[cur] != NEG_INF && Edge(g, cur, nb) && nb < |g|
    requires dist[cur] + Weight(g, cur, nb) > dist[nb]
    requires LongerSettledOutside(g, dist, queue, skip)
    ensures LongerLabels(g, dist[nb := dist[cur] + Weight(g, cur, nb)], pred[nb := cur], start)
    ensures QueuedLonger(dist[nb := dist[cur] + Weight(g, cur, nb)], queue + [nb])
    ensures LongerSettledOutside(g, dist[nb := dist[cur] + Weight(g, cur, nb)], queue + [nb], skip)
  {
    var d' := dist[nb := dist[cur] + Weight(g, cur, nb)];
    forall u: nat | u < |d'| && d'[u] != NEG_INF && u !in queue + [nb] && u !in skip
      ensures SettledLonger(g, d', u)
    {
      assert SettledLonger(g, dist, u);
    }
  }

  /** The invariant of the inner loop of findLongestRoute while the edges out of `current`
      are relaxed: the labels are kept, and either `current` is waiting in the queue again
      (a self-loop made it longer) or the edges towards the ports no longer in `keys` have
      been relaxed at its current distance. */
  ghost predicate RelaxingLonger(g: seq<PortNode>, start: nat, dist0: seq<int>, current: nat,
                                 keys: set<nat>, dist: seq<int>, pred: map<nat, nat>, queue: seq<nat>) {
    && LongerLabels(g, dist, pred, start) && QueuedLonger(dist, queue)
    && |dist0| == |dist| && (forall v :: 0 <= v < |dist| ==> dist0[v] <= dist[v])
    && current < |g| && dist[current] != NEG_INF
    && LongerSettledOutside(g, dist, queue, {current})
    && (current in queue ||
        forall v: nat :: Edge(g, current, v) && v < |dist| && v !in keys ==> dist[current] + Weight(g, current, v) <= dist[v])
  }

  /** One relaxation keeps the invariant of the inner loop, with `nb` removed from `keys`. */
  lemma RelaxStepLonger(g: seq<PortNode>, start: nat, dist0: seq<int>, current: nat, keys: set<nat>, nb: nat,
                        dist: seq<int>, pred: map<nat, nat>, queue: seq<nat>,
                        dist': seq<int>, pred': map<nat, nat>, queue': seq<nat>)
    requires WellFormed(g) && PositiveWeights(g)
    requires RelaxingLonger(g, start, dist0, current, keys, dist, pred, queue)
    requires nb in keys && Edge(g, current, nb)
    requires dist[current] + g[current].neighbors[nb] > dist[nb] ==>
      dist' == dist[nb := dist[current] + g[current].neighbors[nb]] && pred' == pred[nb := current] && queue' == queue + [nb]
    requires dist[current] + g[current].neighbors[nb] <= dist[nb] ==> dist' == dist && pred' == pred && queue' == queue
    ensures RelaxingLonger(g, start, dist0, current, keys - {nb}, dist', pred', queue')
  {
    if dist[current] + Weight(g, current, nb) > dist[nb] {
      ImproveLonger(g, start, dist, pred, queue, {current}, current, nb);
    }
  }

  /** Before any edge out of `current` is relaxed, the invariant of the inner loop holds. */
  lemma StartRelaxingLonger(g: seq<PortNode>, start: nat, dist: seq<int>, pred: map<nat, nat>, queue: seq<nat>, current: nat)
    requires LongerLabels(g, dist, pred, start) && QueuedLonger(dist, queue)
    requires current < |g| && dist[current] != NEG_INF
    requires LongerSettledOutside(g, dist, queue, {current})
    ensures RelaxingLonger(g, start, dist, current, g[current].neighbors.Keys, dist, pred, queue)
  {
  }

  /** Once every edge out of `current` has been relaxed, `current` is settled or queued again. */
  lemma DoneRelaxingLonger(g: seq<PortNode>, start: nat, dist0: seq<int>, current: nat, dist: seq<int>, pred: map<nat, nat>, queue: seq<nat>)
    requires RelaxingLonger(g, start, dist0, current, {}, dist, pred, queue)
    ensures LongerSettledOutside(g, dist, queue, {})
  {
    if current !in queue {
      assert SettledLonger(g, dist, current);
    }
  }

  /** The inner loop of findLongestRoute: relaxes every edge out of `current`. The labels
      are kept and `current` is settled unless it waits in the queue again. */
  method RelaxNeighborsLonger(g: seq<PortNode>, start: nat, dist: seq<int>, pred: map<nat, nat>, queue: seq<nat>, current: nat)
    returns (dist': seq<int>, pred': map<nat, nat>, queue': seq<nat>)
    requires WellFormed(g) && PositiveWeights(g)
    requires LongerLabels(g, dist, pred, start) && QueuedLonger(dist, queue)
    requires current < |g| && dist[current] != NEG_INF
    requires LongerSettledOutside(g, dist, queue, {current})
    ensures LongerLabels(g, dist', pred', start) && QueuedLonger(dist', queue')
    ensures LongerSettledOutside(g, dist', queue', {})
    ensures forall v :: 0 <= v < |dist| ==> dist[v] <= dist'[v]
  {
    dist', pred', queue' := dist, pred, queue;
    var keys := g[current].neighbors.Keys;
    StartRelaxingLonger(g, start, dist, pred, queue, current);
    while keys != {}
      invariant keys <= g[current].neighbors.Keys
      invariant RelaxingLonger(g, start, dist, current, keys, dist', pred', queue')
      decreases keys
    {
      var neighbor :| neighbor in keys;
      assert Edge(g, current, neighbor);
      ghost var d, p, q := dist', pred', queue';
      dist', pred', queue' := RelaxLonger(dist', pred', queue', current, neighbor, g[current].neighbors[neighbor]);
      RelaxStepLonger(g, start, dist, current, keys, neighbor, d, p, q, dist', pred', queue');
      keys := keys - {neighbor};
    }
    DoneRelaxingLonger(g, start, dist, current, dist', pred', queue');
  }

  /** Following the recorded predecessors from `v` reaches a port without one in at most
      `n` steps. */
  ghost predicate ChainStopsWithin(pred: map<nat, nat>, v: nat, n: nat)
    decreases n
  {
    v !in pred || (n > 0 && ChainStopsWithin(pred, pred[v], n - 1))
  }

  /** The walk back of findLongestRoute, allowed at most `fuel` steps: the recorded
      predecessors of the longest-route search may form a cycle, in which case the walk back
      of the source never ends; here it then gives up with None. A walk that does end is a
      walk into `end`, and it starts at `start` whenever `end` was reached. */
  method TraceBackLonger(g: seq<PortNode>, dist: seq<int>, pred: map<nat, nat>, start: nat, end: nat, fuel: nat)
    returns (path: Option<seq<Position>>, ghost route: seq<nat>)
    requires LongerLabels(g, dist, pred, start) && end < |g|
    ensures path.Some? ==> IsWalk(g, route) && route[|route| - 1] == end && path.value == Positions(g, route)
    ensures path.Some? && dist[end] != NEG_INF ==> route[0] == start
    ensures end !in pred ==> path == Some([g[end].position]) && route == [end]
    ensures dist[end] == NEG_INF ==> path == Some([g[end].position]) && route == [end]
    ensures path.None? <==> !ChainStopsWithin(pred, end, fuel)
  {
    var at := end;
    var positions := [g[end].position];
    route := [end];
    var steps := 0;
    while at in pred
      invariant |route| > 0 && route[0] == at && route[|route| - 1] == end
      invariant IsWalk(g, route) && positions == Positions(g, route)
      invariant dist[end] != NEG_INF ==> dist[at] != NEG_INF
      invariant end !in pred ==> route == [end]
      invariant dist[end] == NEG_INF ==> route == [end]
      invariant steps <= fuel
      invariant ChainStopsWithin(pred, end, fuel) <==> ChainStopsWithin(pred, at, fuel - steps)
      decreases fuel - steps
    {
      if steps == fuel {
        return None, route;
      }
      steps := steps + 1;
      var next := pred[at];
      route := [next] + route;
      positions := [g[next].position] + positions;
      at := next;
    }
    path := Some(positions);
  }

  /** The induction behind the optimality of the shortest-route search: along any walk
      from a port at distance 0, each prefix either ends at a port whose distance is at most
      the prefix's length, or the target's distance is already at most that length. */
  lemma {:induction false} ShorterPrefixBound(g: seq<PortNode>, dist: seq<int>, queue: seq<nat>, t: nat, w: seq<nat>, i: nat)
    requires |dist| == |g| && PositiveWeights(g)
    requires forall v :: 0 <= v < |dist| ==> dist[v] <= INF
    requires IsWalk(g, w) && i < |w| && dist[w[0]] == 0
    requires t < |dist|
    requires ShorterSettledOutside(g, dist, queue, {})
    requires forall j :: 0 <= j < |queue| ==> queue[j] < |dist| && dist[t] <= dist[queue[j]]
    ensures dist[w[i]] <= WalkLength(g, w[..i + 1]) || dist[t] <= WalkLength(g, w[..i + 1])
    decreases i
  {
    if i == 0 {
      assert w[..1] == [w[0]];
    } else {
      ShorterPrefixBound(g, dist, queue, t, w, i - 1);
      var u, v := w[i - 1], w[i];
      assert Edge(g, u, v);
      assert w[..i + 1][..i] == w[..i];
      var before, after := WalkLength(g, w[..i]), WalkLength(g, w[..i + 1]);
      assert after == before + Weight(g, u, v);
      if dist[t] > before && dist[u] < INF && u !in queue {
        assert SettledShorter(g, dist, u);
      }
    }
  }

  /** When the search stops (either the queue is empty, or the target has just been taken
      from it with the smallest distance), no walk from the start to the target is shorter
      than the target's distance. */
  lemma ShorterDistanceIsMinimal(g: seq<PortNode>, dist: seq<int>, queue: seq<nat>, s: nat, t: nat)
    requires |dist| == |g| && PositiveWeights(g)
    requires forall v :: 0 <= v < |dist| ==> dist[v] <= INF
    requires s < |dist| && dist[s] == 0 && t < |dist|
    requires ShorterSettledOutside(g, dist, queue, {})
    requires forall j :: 0 <= j < |queue| ==> queue[j] < |dist| && dist[t] <= dist[queue[j]]
    ensures forall w :: IsRoute(g, w, s, t) ==> dist[t] <= WalkLength(g, w)
  {
    forall w | IsRoute(g, w, s, t) ensures dist[t] <= WalkLength(g, w) {
      ShorterPrefixBound(g, dist, queue, t, w, |w| - 1);
      assert w[..|w|] == w;
    }
  }

  /** Along any walk from a reached port, once no reached port waits in the queue, every
      port of the walk has been reached in the longest-route search. */
  lemma {:induction false} LongerWalkReached(g: seq<PortNode>, dist: seq<int>, w: seq<nat>, i: nat)
    requires |dist| == |g| && PositiveWeights(g)
    requires forall v :: 0 <= v < |dist| ==> dist[v] == NEG_INF || dist[v] >= 0
    requires IsWalk(g, w) && i < |w| && dist[w[0]] != NEG_INF
    requires LongerSettledOutside(g, dist, [], {})
    ensures dist[w[i]] != NEG_INF
    decreases i
  {
    if i > 0 {
      LongerWalkReached(g, dist, w, i - 1);
      assert Edge(g, w[i - 1], w[i]);
      assert SettledLonger(g, dist, w[i - 1]);
    }
  }
}
