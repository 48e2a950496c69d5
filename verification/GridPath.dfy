/** Deterministic grid search (internal/sim/path.go).

    A path is the sequence of directions it takes. `Rank` numbers all paths: shorter
    paths first, and paths of one length in the fixed neighbour order N, E, S, W, read
    from the start. The search is specified by it: breadth-first search returns the
    least-ranked of all paths to all matching tiles, which fixes the tile, the distance
    and the tie-break at once.
  */
module GridPath {

  datatype Point = Point(x: int, y: int)

  /** The static map and its overlays, reduced to what the search asks of them. */
  datatype Grid = Grid(w: nat, h: nat, open: set<Point>)

  predicate InBounds(g: Grid, p: Point) {
    0 <= p.x < g.w && 0 <= p.y < g.h
  }

  predicate Passable(g: Grid, p: Point) {
    InBounds(g, p) && p in g.open
  }

  /** neighborOrder: N, E, S, W. */
  function Neighbor(p: Point, d: nat): Point {
    if d == 0 then Point(p.x, p.y - 1)
    else if d == 1 then Point(p.x + 1, p.y)
    else if d == 2 then Point(p.x, p.y + 1)
    else Point(p.x - 1, p.y)
  }

  type Path = seq<nat>

  function DropLast(path: Path): Path
    requires path != []
  {
    path[..|path| - 1]
  }

  function Last(path: Path): nat
    requires path != []
  {
    path[|path| - 1]
  }

  /** The tile a path ends on. */
  function Follow(a: Point, path: Path): Point {
    if path == [] then a else Neighbor(Follow(a, DropLast(path)), Last(path))
  }

  /** Every step is one of the four directions and lands on passable ground. */
  predicate Walkable(g: Grid, a: Point, path: Path) {
    path == [] ||
    (Walkable(g, a, DropLast(path)) && Last(path) < 4 && Passable(g, Follow(a, path)))
  }

  function Rank(path: Path): nat {
    if path == [] then 0 else 4 * Rank(DropLast(path)) + Last(path) + 1
  }

  /** `path` is the least-ranked path from `a` to any matching tile. */
  ghost predicate IsFirst(g: Grid, a: Point, match_: Point -> bool, path: Path) {
    Walkable(g, a, path) && match_(Follow(a, path)) &&
    forall other :: Walkable(g, a, other) && match_(Follow(a, other)) ==> Rank(path) <= Rank(other)
  }

  ghost predicate Reachable(g: Grid, a: Point, match_: Point -> bool) {
    exists path :: Walkable(g, a, path) && match_(Follow(a, path))
  }

  /** What the search has discovered: for each seen tile the path by which it was found. */
  ghost predicate IsTree(g: Grid, start: Point, cameFrom: map<Point, Point>, route: map<Point, Path>) {
    && route.Keys == cameFrom.Keys
    && start in route && route[start] == []
    && (forall p {:trigger TreeTile(g, start, cameFrom, route, p)} ::
          p in route ==> TreeTile(g, start, cameFrom, route, p))
  }

  /** `p` is found by a walkable path that leads to it through the tile it came from. */
  ghost predicate TreeTile(g: Grid, start: Point, cameFrom: map<Point, Point>, route: map<Point, Path>, p: Point)
    requires p in route && p in cameFrom
  {
    && Walkable(g, start, route[p]) && Follow(start, route[p]) == p
    && (p != start ==>
          route[p] != [] && cameFrom[p] in route && route[cameFrom[p]] == DropLast(route[p]))
  }

  // ---- the order on paths ----

  ghost predicate Directions(path: Path) {
    forall i :: 0 <= i < |path| ==> path[i] < 4
  }

  lemma {:induction false} WalkableDirections(g: Grid, a: Point, path: Path)
    requires Walkable(g, a, path)
    ensures Directions(path)
  {
    if path != [] {
      WalkableDirections(g, a, DropLast(path));
      assert path == DropLast(path) + [Last(path)];
    }
  }

  /** A shorter path ranks below every longer one. */
  lemma {:induction false} RankByLength(p: Path, q: Path)
    requires Directions(p) && Directions(q) && |p| < |q|
    ensures Rank(p) < Rank(q)
  {
    if p != [] {
      RankByLength(DropLast(p), DropLast(q));
    }
  }

  /** Among paths of one length the first differing direction decides. */
  lemma {:induction false} RankByFirstDifference(p: Path, q: Path, i: nat)
    requires Directions(p) && Directions(q) && i < |p| == |q|
    requires p[..i] == q[..i] && p[i] < q[i]
    ensures Rank(p) < Rank(q)
  {
    if i == |p| - 1 {
      assert DropLast(p) == DropLast(q);
    } else {
      assert DropLast(p)[..i] == p[..i] && DropLast(q)[..i] == q[..i];
      RankByFirstDifference(DropLast(p), DropLast(q), i);
    }
  }

  function Pow4(n: nat): nat {
    if n == 0 then 1 else 4 * Pow4(n - 1)
  }

  lemma {:induction false} RankFromFront(d: nat, rest: Path)
    ensures Rank([d] + rest) == (d + 1) * Pow4(|rest|) + Rank(rest)
  {
    if rest == [] {
      assert DropLast([d]) == [];
      assert [d] + rest == [d];
    } else {
      RankFromFront(d, DropLast(rest));
      assert DropLast([d] + rest) == [d] + DropLast(rest);
      var k := Pow4(|rest| - 1);
      assert 4 * ((d + 1) * k) == (d + 1) * (4 * k);
    }
  }

  lemma {:induction false} FollowFromFront(g: Grid, a: Point, d: nat, rest: Path)
    ensures Follow(a, [d] + rest) == Follow(Neighbor(a, d), rest)
    ensures Walkable(g, a, [d] + rest) <==>
            d < 4 && Passable(g, Neighbor(a, d)) && Walkable(g, Neighbor(a, d), rest)
  {
    if rest == [] {
      assert [d] + rest == [d] && DropLast([d]) == [];
      assert Follow(a, [d]) == Neighbor(Follow(a, []), d);
    } else {
      FollowFromFront(g, a, d, DropLast(rest));
      assert DropLast([d] + rest) == [d] + DropLast(rest);
    }
  }

  // ---- the search ----

  ghost predicate Ordered(queue: seq<Point>, route: map<Point, Path>) {
    && (forall i :: 0 <= i < |queue| ==> queue[i] in route)
    && (forall i, j :: 0 <= i < j < |queue| ==> Rank(route[queue[i]]) < Rank(route[queue[j]]))
  }

  lemma OrderedTail(queue: seq<Point>, route: map<Point, Path>)
    requires Ordered(queue, route) && queue != []
    ensures Ordered(queue[1..], route)
    ensures queue[0] !in queue[1..]
    ensures forall p :: p in queue <==> p == queue[0] || p in queue[1..]
  {
    var rest := queue[1..];
    assert forall i :: 0 <= i < |rest| ==> rest[i] == queue[i + 1];
    assert queue == [queue[0]] + rest;
  }

  /** The state of the search between two dequeues (or, with `cur`, while one tile is expanded). */
  ghost predicate Frontier(g: Grid, start: Point, match_: Point -> bool, queue: seq<Point>,
                           route: map<Point, Path>)
  {
    && Ordered(queue, route)
    && (forall p {:trigger Settled(g, match_, route, p)} :: p in route && p !in queue ==>
          Settled(g, match_, route, p) &&
          forall i :: 0 <= i < |queue| ==> Rank(route[p]) < Rank(route[queue[i]]))
  }

  /** A tile already visited: not a match, and all its neighbours seen, none by a later path. */
  ghost predicate Settled(g: Grid, match_: Point -> bool, route: map<Point, Path>, p: Point)
    requires p in route
  {
    !match_(p) && forall d: nat :: d < 4 ==> Expanded(g, route, p, d)
  }

  ghost predicate Expanded(g: Grid, route: map<Point, Path>, p: Point, d: nat)
    requires p in route
  {
    var np := Neighbor(p, d);
    Passable(g, np) ==> np in route && Rank(route[np]) <= 4 * Rank(route[p]) + d + 1
  }

  /** Every path either leads to a tile found no later than it, or ranks at or above the queue's head. */
  lemma {:induction false} FrontierCoversPath(g: Grid, start: Point, match_: Point -> bool, queue: seq<Point>,
                                              cameFrom: map<Point, Point>, route: map<Point, Path>, path: Path)
    requires IsTree(g, start, cameFrom, route) && Frontier(g, start, match_, queue, route)
    requires Walkable(g, start, path)
    ensures || (Follow(start, path) in route && Rank(route[Follow(start, path)]) <= Rank(path))
            || (queue != [] && Rank(route[queue[0]]) <= Rank(path))
  {
    if path != [] {
      var before, d := DropLast(path), Last(path);
      FrontierCoversPath(g, start, match_, queue, cameFrom, route, before);
      assert Follow(start, path) == Neighbor(Follow(start, before), d);
      var q := Follow(start, before);
      if q in route && Rank(route[q]) <= Rank(before) && q !in queue {
        assert Settled(g, match_, route, q) && Expanded(g, route, q, d);
      }
    }
  }

  /** The dequeued tile, when it matches, was found by the first of all paths to matching tiles. */
  lemma HeadIsFirst(g: Grid, start: Point, match_: Point -> bool, queue: seq<Point>,
                    cameFrom: map<Point, Point>, route: map<Point, Path>)
    requires IsTree(g, start, cameFrom, route) && Frontier(g, start, match_, queue, route)
    requires queue != [] && match_(queue[0])
    ensures IsFirst(g, start, match_, route[queue[0]])
  {
    assert TreeTile(g, start, cameFrom, route, queue[0]);
    forall other | Walkable(g, start, other) && match_(Follow(start, other))
      ensures Rank(route[queue[0]]) <= Rank(other)
    {
      FrontierCoversPath(g, start, match_, queue, cameFrom, route, other);
      var m := Follow(start, other);
      assert m in route && m !in queue ==> Settled(g, match_, route, m);
    }
  }

  lemma ExhaustedMeansUnreachable(g: Grid, start: Point, match_: Point -> bool,
                                  cameFrom: map<Point, Point>, route: map<Point, Path>)
    requires IsTree(g, start, cameFrom, route) && Frontier(g, start, match_, [], route)
    ensures !Reachable(g, start, match_)
  {
    forall path | Walkable(g, start, path)
      ensures !match_(Follow(start, path))
    {
      FrontierCoversPath(g, start, match_, [], cameFrom, route, path);
      var p := Follow(start, path);
      assert p in route ==> Settled(g, match_, route, p);
    }
  }

  /** While `cur` is being expanded: its first `done` neighbours are handled, the queue is
      still in order, and everything in it was found by a path below cur's next one. */
  ghost predicate Expanding(g: Grid, match_: Point -> bool, queue: seq<Point>, route: map<Point, Path>,
                            cur: Point, done: nat)
  {
    && cur in route && cur !in queue && !match_(cur)
    && (forall d: nat :: d < done ==> Expanded(g, route, cur, d))
    && Ordered(queue, route)
    && (forall i :: 0 <= i < |queue| ==>
          Rank(route[cur]) < Rank(route[queue[i]]) < 4 * Rank(route[cur]) + done + 1)
    && (forall p {:trigger Settled(g, match_, route, p)} :: p in route && p !in queue && p != cur ==>
          Settled(g, match_, route, p) && Rank(route[p]) < Rank(route[cur]))
  }

  /** Every queued tile was found from a visited one. */
  ghost predicate ParentsVisited(start: Point, cameFrom: map<Point, Point>, queue: seq<Point>) {
    forall p :: p in queue && p != start ==> p in cameFrom && cameFrom[p] !in queue
  }

  /** The rest of the queue was found from tiles before its head, so by paths below the head's next ones. */
  lemma QueueSpan(g: Grid, start: Point, match_: Point -> bool, queue: seq<Point>,
                  cameFrom: map<Point, Point>, route: map<Point, Path>, i: nat)
    requires IsTree(g, start, cameFrom, route) && Frontier(g, start, match_, queue, route)
    requires ParentsVisited(start, cameFrom, queue)
    requires 0 < i < |queue|
    ensures Rank(route[queue[0]]) < Rank(route[queue[i]]) < 4 * Rank(route[queue[0]]) + 1
  {
    var x := queue[i];
    assert TreeTile(g, start, cameFrom, route, x) && x in queue && x != start;
    WalkableDirections(g, start, route[x]);
    var parent := cameFrom[x];
    assert parent !in queue && Settled(g, match_, route, parent);
    assert Rank(route[x]) == 4 * Rank(route[parent]) + Last(route[x]) + 1;
  }

  lemma StartExpanding(g: Grid, start: Point, match_: Point -> bool, queue: seq<Point>,
                       cameFrom: map<Point, Point>, route: map<Point, Path>)
    requires IsTree(g, start, cameFrom, route) && Frontier(g, start, match_, queue, route)
    requires ParentsVisited(start, cameFrom, queue)
    requires queue != [] && !match_(queue[0])
    ensures Expanding(g, match_, queue[1..], route, queue[0], 0)
    ensures ParentsVisited(start, cameFrom, queue[1..])
  {
    var cur, rest := queue[0], queue[1..];
    OrderedTail(queue, route);
    forall i | 0 <= i < |rest|
      ensures Rank(route[cur]) < Rank(route[rest[i]]) < 4 * Rank(route[cur]) + 1
    {
      assert rest[i] == queue[i + 1];
      QueueSpan(g, start, match_, queue, cameFrom, route, i + 1);
    }
  }

  lemma FinishExpanding(g: Grid, start: Point, match_: Point -> bool, queue: seq<Point>,
                        route: map<Point, Path>, cur: Point)
    requires Expanding(g, match_, queue, route, cur, 4)
    ensures Frontier(g, start, match_, queue, route)
  {
    assert Settled(g, match_, route, cur);
  }

  lemma DiscoverTree(g: Grid, start: Point, cameFrom: map<Point, Point>, route: map<Point, Path>, cur: Point, d: nat)
    requires IsTree(g, start, cameFrom, route) && cur in route
    requires d < 4 && Neighbor(cur, d) !in route && Passable(g, Neighbor(cur, d))
    ensures var np := Neighbor(cur, d);
            IsTree(g, start, cameFrom[np := cur], route[np := route[cur] + [d]])
  {
    var np := Neighbor(cur, d);
    var path := route[cur] + [d];
    var cameFrom', route' := cameFrom[np := cur], route[np := path];
    assert DropLast(path) == route[cur] && Last(path) == d;
    assert TreeTile(g, start, cameFrom, route, cur);
    forall p | p in route'
      ensures TreeTile(g, start, cameFrom', route', p)
    {
      if p != np {
        assert TreeTile(g, start, cameFrom, route, p);
      }
    }
  }

  /** Appending the newly seen neighbour keeps the queue in order. */
  lemma Discover(g: Grid, match_: Point -> bool, queue: seq<Point>,
                 route: map<Point, Path>, cur: Point, d: nat)
    requires Expanding(g, match_, queue, route, cur, d)
    requires d < 4 && Neighbor(cur, d) !in route
    ensures var np := Neighbor(cur, d);
            Expanding(g, match_, queue + [np], route[np := route[cur] + [d]], cur, d + 1)
  {
    var np := Neighbor(cur, d);
    var path := route[cur] + [d];
    var route' := route[np := path];
    var queue' := queue + [np];
    assert DropLast(path) == route[cur];
    assert Rank(path) == 4 * Rank(route[cur]) + d + 1;
    assert np !in queue;
    forall i | 0 <= i < |queue'|
      ensures queue'[i] in route'
      ensures Rank(route[cur]) < Rank(route'[queue'[i]]) < 4 * Rank(route[cur]) + d + 2
      ensures i < |queue| ==> route'[queue'[i]] == route[queue[i]]
    {
    }
    forall p | p in route' && p !in queue' && p != cur
      ensures Settled(g, match_, route', p) && Rank(route'[p]) < Rank(route'[cur])
    {
      assert p in route && p !in queue;
      SettledGrows(g, match_, route, np, path, p);
    }
    forall e: nat | e < d + 1
      ensures Expanded(g, route', cur, e)
    {
      if e < d {
        assert Expanded(g, route, cur, e);
      }
    }
  }

  lemma DiscoverParents(g: Grid, start: Point, queue: seq<Point>, cameFrom: map<Point, Point>,
                        route: map<Point, Path>, cur: Point, np: Point)
    requires IsTree(g, start, cameFrom, route) && ParentsVisited(start, cameFrom, queue)
    requires cur in route && cur !in queue && np !in route
    ensures ParentsVisited(start, cameFrom[np := cur], queue + [np])
  {
    forall x | x in queue + [np] && x != start && x != np
      ensures x in cameFrom && cameFrom[x] !in queue + [np]
    {
      assert TreeTile(g, start, cameFrom, route, x);
    }
  }

  lemma SettledGrows(g: Grid, match_: Point -> bool, route: map<Point, Path>, np: Point, path: Path, p: Point)
    requires p in route && np !in route && Settled(g, match_, route, p)
    ensures Settled(g, match_, route[np := path], p)
  {
    var route' := route[np := path];
    forall d: nat | d < 4
      ensures Expanded(g, route', p, d)
    {
      assert Expanded(g, route, p, d);
    }
  }

  /** A neighbour already seen was found by a path no later than the one through `cur`. */
  lemma SeenNoLater(g: Grid, match_: Point -> bool, queue: seq<Point>, route: map<Point, Path>, cur: Point, d: nat)
    requires Expanding(g, match_, queue, route, cur, d) && d < 4
    requires Neighbor(cur, d) in route || !Passable(g, Neighbor(cur, d))
    ensures Expanding(g, match_, queue, route, cur, d + 1)
  {
    var np := Neighbor(cur, d);
    if np in route && np !in queue && np != cur {
      assert Settled(g, match_, route, np);
    }
    assert Expanded(g, route, cur, d);
  }

  /** The inner loop of bfs: queue the passable neighbours of `cur` not seen before, in neighbour order. */
  method Expand(g: Grid, ghost start: Point, ghost visit: Point -> bool, cur: Point, queue0: seq<Point>,
                cameFrom0: map<Point, Point>, ghost route0: map<Point, Path>)
    returns (queue: seq<Point>, cameFrom: map<Point, Point>, ghost route: map<Point, Path>)
    requires IsTree(g, start, cameFrom0, route0) && ParentsVisited(start, cameFrom0, queue0)
    requires Expanding(g, visit, queue0, route0, cur, 0)
    ensures IsTree(g, start, cameFrom, route) && ParentsVisited(start, cameFrom, queue)
    ensures Expanding(g, visit, queue, route, cur, 4)
    ensures cameFrom0.Keys <= cameFrom.Keys <= cameFrom0.Keys + g.open
    ensures cameFrom.Keys == cameFrom0.Keys ==> queue == queue0
  {
    queue, cameFrom, route := queue0, cameFrom0, route0;
    for d := 0 to 4
      invariant IsTree(g, start, cameFrom, route) && ParentsVisited(start, cameFrom, queue)
      invariant Expanding(g, visit, queue, route, cur, d)
      invariant cameFrom0.Keys <= cameFrom.Keys <= cameFrom0.Keys + g.open
      invariant cameFrom.Keys == cameFrom0.Keys ==> queue == queue0
    {
      var np := Neighbor(cur, d);
      if np !in cameFrom && Passable(g, np) {
        DiscoverTree(g, start, cameFrom, route, cur, d);
        DiscoverParents(g, start, queue, cameFrom, route, cur, np);
        Discover(g, visit, queue, route, cur, d);
        cameFrom := cameFrom[np := cur];
        route := route[np := route[cur] + [d]];
        queue := queue + [np];
      } else {
        SeenNoLater(g, visit, queue, route, cur, d);
      }
    }
  }

  /** bfs: breadth-first search over passable ground from `start`, which itself need not be passable. */
  method Bfs(g: Grid, start: Point, visit: Point -> bool)
    returns (found: bool, stop: Point, cameFrom: map<Point, Point>, ghost route: map<Point, Path>)
    ensures found <==> Reachable(g, start, visit)
    ensures IsTree(g, start, cameFrom, route)
    ensures found ==> stop in route && Follow(start, route[stop]) == stop && IsFirst(g, start, visit, route[stop])
    ensures !found ==> stop == Point(0, 0)
  {
    cameFrom, route := map[start := start], map[start := []];
    assert TreeTile(g, start, cameFrom, route, start);
    var queue := [start];
    while |queue| > 0
      invariant IsTree(g, start, cameFrom, route)
      invariant Frontier(g, start, visit, queue, route)
      invariant ParentsVisited(start, cameFrom, queue)
      decreases g.open - cameFrom.Keys, |queue|
    {
      var cur := queue[0];
      if visit(cur) {
        HeadIsFirst(g, start, visit, queue, cameFrom, route);
        assert TreeTile(g, start, cameFrom, route, cur);
        return true, cur, cameFrom, route;
      }
      StartExpanding(g, start, visit, queue, cameFrom, route);
      queue, cameFrom, route := Expand(g, start, visit, cur, queue[1..], cameFrom, route);
      FinishExpanding(g, start, visit, queue, route, cur);
    }
    ExhaustedMeansUnreachable(g, start, visit, cameFrom, route);
    return false, Point(0, 0), cameFrom, route;
  }

  /** nearest */
  method Nearest(g: Grid, from: Point, match_: Point -> bool) returns (p: Point, ok: bool)
    ensures ok <==> Reachable(g, from, match_)
    ensures ok ==> exists path :: IsFirst(g, from, match_, path) && p == Follow(from, path)
  {
    var cameFrom;
    ghost var route;
    ok, p, cameFrom, route := Bfs(g, from, match_);
  }

  predicate Beside(matchRes: Point -> bool, p: Point) {
    exists d: nat | d < 4 :: matchRes(Neighbor(p, d))
  }

  /** The first direction, in neighbour order, with a match. */
  ghost predicate FirstBeside(matchRes: Point -> bool, p: Point, d: nat) {
    matchRes(Neighbor(p, d)) && forall e: nat :: e < d ==> !matchRes(Neighbor(p, e))
  }

  /** nearestAdjacentTo: the tile to stand on and the resource tile beside it. */
  method NearestAdjacentTo(g: Grid, from: Point, matchRes: Point -> bool)
    returns (stand: Point, res: Point, ok: bool)
    ensures ok <==> Reachable(g, from, p => Beside(matchRes, p))
    ensures ok ==> exists path :: IsFirst(g, from, p => Beside(matchRes, p), path) && stand == Follow(from, path)
    ensures ok ==> matchRes(res) && exists d: nat :: d < 4 && FirstBeside(matchRes, stand, d) && res == Neighbor(stand, d)
  {
    var visit := p => Beside(matchRes, p);
    var found, at, cameFrom;
    ghost var route;
    found, at, cameFrom, route := Bfs(g, from, visit);
    if !found {
      return Point(0, 0), Point(0, 0), false;
    }
    ghost var best := route[at];
    assert IsFirst(g, from, p => Beside(matchRes, p), best) && at == Follow(from, best);
    assert Beside(matchRes, at);
    for d := 0 to 4
      invariant forall e: nat :: e < d ==> !matchRes(Neighbor(at, e))
    {
      if matchRes(Neighbor(at, d)) {
        assert FirstBeside(matchRes, at, d);
        return at, Neighbor(at, d), true;
      }
    }
    assert false;
  }

  /** `path` is the least-ranked path from `a` to `b`. */
  ghost predicate IsRoute(g: Grid, a: Point, b: Point, path: Path) {
    IsFirst(g, a, p => p == b, path)
  }

  /** From an impassable tile: the first passable neighbour, else the first in-bounds one. */
  function Escape(g: Grid, from: Point): Point {
    if exists d: nat | d < 4 :: Passable(g, Neighbor(from, d)) then
      FirstNeighbor(from, p => Passable(g, p), 0)
    else
      FirstNeighbor(from, p => InBounds(g, p), 0)
  }

  function FirstNeighbor(from: Point, ok: Point -> bool, d: nat): (r: Point)
    requires d <= 4
    ensures r != from ==> ok(r)
    ensures (exists e: nat :: d <= e < 4 && ok(Neighbor(from, e))) ==> ok(r)
    decreases 4 - d
  {
    if d == 4 then from
    else if ok(Neighbor(from, d)) then Neighbor(from, d)
    else FirstNeighbor(from, ok, d + 1)
  }

  /** One walking step from `from` toward `to`. */
  ghost predicate IsStep(g: Grid, from: Point, to: Point, next: Point) {
    if from == to then next == from
    else if !Passable(g, from) then next == Escape(g, from)
    else if Reachable(g, from, p => p == to) then
      exists path :: IsRoute(g, from, to, path) && path != [] && next == Neighbor(from, path[0])
    else next == from
  }

  /** nextStep */
  method NextStep(g: Grid, from: Point, to: Point) returns (next: Point)
    ensures IsStep(g, from, to, next)
  {
    if from == to {
      return from;
    }
    if !Passable(g, from) {
      for d := 0 to 4
        invariant forall e: nat :: e < d ==> !Passable(g, Neighbor(from, e))
        invariant FirstNeighbor(from, p => Passable(g, p), 0) == FirstNeighbor(from, p => Passable(g, p), d)
      {
        if Passable(g, Neighbor(from, d)) {
          return Neighbor(from, d);
        }
      }
      for d := 0 to 4
        invariant FirstNeighbor(from, p => InBounds(g, p), 0) == FirstNeighbor(from, p => InBounds(g, p), d)
      {
        if InBounds(g, Neighbor(from, d)) {
          return Neighbor(from, d);
        }
      }
      return from;
    }
    var isTarget := (p: Point) => p == to;
    var found, stop, cameFrom;
    ghost var route;
    found, stop, cameFrom, route := Bfs(g, from, isTarget);
    if !found {
      assert !Reachable(g, from, p => p == to);
      return from;
    }
    ghost var path := route[to];
    assert TreeTile(g, from, cameFrom, route, to);
    assert IsFirst(g, from, isTarget, path) && IsRoute(g, from, to, path);
    assert Reachable(g, from, p => p == to);
    var cur := to;
    while cameFrom[cur] != from
      invariant cur in route && cur != from && route[cur] == path[..|route[cur]|]
      decreases |route[cur]|
    {
      assert TreeTile(g, from, cameFrom, route, cur);
      cur := cameFrom[cur];
      assert TreeTile(g, from, cameFrom, route, cur);
    }
    assert TreeTile(g, from, cameFrom, route, cur);
    assert |route[cur]| == 1 && Follow(from, route[cur]) == cur;
    assert Follow(from, DropLast(route[cur])) == from;
    return cur;
  }

  // ---- what the search promises ----

  /** The found tile is at minimum walking distance among all reachable matching tiles. */
  lemma FirstIsShortest(g: Grid, a: Point, match_: Point -> bool, path: Path, other: Path)
    requires IsFirst(g, a, match_, path)
    requires Walkable(g, a, other) && match_(Follow(a, other))
    ensures |path| <= |other|
  {
    WalkableDirections(g, a, path);
    WalkableDirections(g, a, other);
    if |other| < |path| {
      RankByLength(other, path);
    }
  }

  lemma {:induction false} RankDecidesPath(p: Path, q: Path)
    requires Directions(p) && Directions(q) && Rank(p) == Rank(q)
    ensures p == q
  {
    if p != [] && q != [] {
      RankDecidesPath(DropLast(p), DropLast(q));
      assert p == DropLast(p) + [Last(p)] && q == DropLast(q) + [Last(q)];
    }
  }

  /** There is one first path, so the search's answer is a function of the map alone. */
  lemma FirstIsUnique(g: Grid, a: Point, match_: Point -> bool, p: Path, q: Path)
    requires IsFirst(g, a, match_, p) && IsFirst(g, a, match_, q)
    ensures p == q
  {
    WalkableDirections(g, a, p);
    WalkableDirections(g, a, q);
    RankDecidesPath(p, q);
  }

  lemma RankAfterSameStep(d: nat, p: Path, q: Path)
    requires Directions(p) && Directions(q) && d < 4 && Rank(p) < Rank(q)
    ensures Rank([d] + p) < Rank([d] + q)
  {
    RankFromFront(d, p);
    RankFromFront(d, q);
    if |p| < |q| {
      RankByLength([d] + p, [d] + q);
    } else if |q| < |p| {
      RankByLength(q, p);
    }
  }

  /** After one step along the route, what is left of it is the route from there. */
  lemma RestIsRoute(g: Grid, a: Point, b: Point, path: Path)
    requires IsRoute(g, a, b, path) && path != []
    ensures IsRoute(g, Neighbor(a, path[0]), b, path[1..])
    ensures Passable(g, Neighbor(a, path[0]))
  {
    var d, rest, next := path[0], path[1..], Neighbor(a, path[0]);
    assert path == [d] + rest;
    FollowFromFront(g, a, d, rest);
    forall other | Walkable(g, next, other) && Follow(next, other) == b
      ensures Rank(rest) <= Rank(other)
    {
      FollowFromFront(g, a, d, other);
      WalkableDirections(g, next, other);
      WalkableDirections(g, next, rest);
      if Rank(other) < Rank(rest) {
        RankAfterSameStep(d, other, rest);
      }
    }
  }

  /** nextStep from passable ground: an adjacent passable tile exactly one closer. */
  lemma StepIsOneCloser(g: Grid, from: Point, to: Point, next: Point, path: Path)
    requires Passable(g, from) && from != to
    requires IsStep(g, from, to, next) && IsRoute(g, from, to, path)
    ensures path != [] && next == Neighbor(from, path[0]) && Passable(g, next)
    ensures IsRoute(g, next, to, path[1..])
  {
    assert Reachable(g, from, p => p == to);
    var taken :| IsRoute(g, from, to, taken) && taken != [] && next == Neighbor(from, taken[0]);
    FirstIsUnique(g, from, p => p == to, taken, path);
    RestIsRoute(g, from, to, path);
  }

  /** nextStep stays put exactly when the walker is there already or cannot get there. */
  lemma StepStaysIff(g: Grid, from: Point, to: Point, next: Point)
    requires Passable(g, from) && IsStep(g, from, to, next)
    ensures next == from <==> from == to || !Reachable(g, from, p => p == to)
  {
  }

  /** A walker that takes nextStep every time it moves. */
  ghost predicate IsWalk(g: Grid, to: Point, tiles: seq<Point>) {
    forall i, j :: 0 <= i && j == i + 1 && j < |tiles| ==> IsStep(g, tiles[i], to, tiles[j])
  }

  lemma RestOfWalk(g: Grid, to: Point, tiles: seq<Point>)
    requires tiles != [] && IsWalk(g, to, tiles)
    ensures IsWalk(g, to, tiles[1..])
    ensures |tiles| > 1 ==> IsStep(g, tiles[0], to, tiles[1])
  {
    forall i, j | 0 <= i && j == i + 1 && j < |tiles[1..]|
      ensures IsStep(g, tiles[1..][i], to, tiles[1..][j])
    {
      assert tiles[1..][i] == tiles[i + 1] && tiles[1..][j] == tiles[j + 1];
    }
  }

  /** On a fixed map a walker that keeps taking nextStep traces the route found at the start, tile
      by tile, so it arrives after exactly as many steps as the shortest path has, and stays. */
  lemma {:induction false} WalkerTracesRoute(g: Grid, to: Point, tiles: seq<Point>, path: Path, i: nat)
    requires i < |tiles| && IsWalk(g, to, tiles)
    requires Passable(g, tiles[0]) && IsRoute(g, tiles[0], to, path)
    ensures i <= |path| ==> tiles[i] == Follow(tiles[0], path[..i])
    ensures tiles[i] == to <==> |path| <= i
    decreases i
  {
    var a := tiles[0];
    if a == to {
      FirstIsShortest(g, a, p => p == to, path, []);
    }
    if i > 0 {
      RestOfWalk(g, to, tiles);
      var rest := tiles[1..];
      assert tiles[i] == rest[i - 1];
      if a == to {
        WalkerTracesRoute(g, to, rest, path, i - 1);
      } else {
        StepIsOneCloser(g, a, to, tiles[1], path);
        WalkerTracesRoute(g, to, rest, path[1..], i - 1);
        if i <= |path| {
          FollowFromFront(g, a, path[0], path[1..][..i - 1]);
          assert [path[0]] + path[1..][..i - 1] == path[..i];
        }
      }
    }
  }

  // ---- in coordinates ----

  function Abs(v: int): nat {
    if v < 0 then -v else v
  }

  function Apart(a: Point, b: Point): nat {
    Abs(a.x - b.x) + Abs(a.y - b.y)
  }

  /** Every step changes one coordinate by one; the walker never moves diagonally and never jumps. */
  lemma StepIsOrthogonal(g: Grid, from: Point, to: Point, next: Point)
    requires IsStep(g, from, to, next)
    ensures next == from || Abs(next.x - from.x) + Abs(next.y - from.y) == 1
  {
  }

  /** No walkable path is shorter than the grid distance, and it stays on open ground inside the map. */
  lemma {:induction false} PathCoversDistance(g: Grid, a: Point, path: Path)
    requires Walkable(g, a, path)
    ensures var b := Follow(a, path);
            |path| >= Abs(a.x - b.x) + Abs(a.y - b.y) &&
            (path != [] ==> 0 <= b.x < g.w && 0 <= b.y < g.h && b in g.open)
  {
    if path != [] {
      PathCoversDistance(g, a, DropLast(path));
    }
  }

  /** Nothing in the way. */
  ghost predicate FullyOpen(g: Grid) {
    forall x, y {:trigger Point(x, y)} :: 0 <= x < g.w && 0 <= y < g.h ==> Point(x, y) in g.open
  }

  /** The first direction, in neighbour order, that brings the walker closer. */
  function Towards(a: Point, b: Point): nat
    requires a != b
  {
    if b.y < a.y then 0 else if b.x > a.x then 1 else if b.y > a.y then 2 else 3
  }

  lemma {:induction false} DirectPath(g: Grid, a: Point, b: Point) returns (path: Path)
    requires FullyOpen(g) && InBounds(g, a) && InBounds(g, b)
    ensures Walkable(g, a, path) && Follow(a, path) == b && |path| == Apart(a, b)
    ensures a != b ==> path != [] && path[0] == Towards(a, b)
    decreases Apart(a, b)
  {
    if a == b {
      path := [];
    } else {
      var d := Towards(a, b);
      assert Passable(g, Neighbor(a, d));
      var rest := DirectPath(g, Neighbor(a, d), b);
      FollowFromFront(g, a, d, rest);
      path := [d] + rest;
    }
  }

  lemma CloserIsTowards(a: Point, b: Point, d: nat)
    requires a != b && d < 4 && Apart(Neighbor(a, d), b) < Apart(a, b)
    ensures Towards(a, b) <= d
  {
  }

  lemma OpenRouteStartsTowards(g: Grid, a: Point, b: Point, path: Path)
    requires FullyOpen(g) && InBounds(g, a) && InBounds(g, b) && a != b && IsRoute(g, a, b, path)
    ensures |path| == Apart(a, b) && path != [] && path[0] == Towards(a, b)
  {
    var direct := DirectPath(g, a, b);
    FirstIsShortest(g, a, p => p == b, path, direct);
    PathCoversDistance(g, a, path);
    assert Apart(a, b) > 0 && |path| == Apart(a, b);
    WalkableDirections(g, a, path);
    WalkableDirections(g, a, direct);
    assert Rank(path) <= Rank(direct);
    hide Towards, Neighbor, Walkable, FullyOpen, Follow, IsFirst, Rank;
    RestComesCloser(g, a, b, path);
    CloserIsTowards(a, b, path[0]);
    if direct[0] < path[0] {
      assert direct[..0] == path[..0];
      RankByFirstDifference(direct, path, 0);
    }
  }

  lemma RestComesCloser(g: Grid, a: Point, b: Point, path: Path)
    requires path != [] && Walkable(g, a, path) && Follow(a, path) == b
    ensures Apart(Neighbor(a, path[0]), b) <= |path| - 1
  {
    assert path == [path[0]] + path[1..];
    FollowFromFront(g, a, path[0], path[1..]);
    PathCoversDistance(g, Neighbor(a, path[0]), path[1..]);
  }

  /** With nothing in the way the walker goes north while its target lies north, else east, else south, else
      west: what every step on open ground is, in coordinates alone. */
  lemma OpenGroundStep(g: Grid, from: Point, to: Point, next: Point)
    requires 0 <= from.x < g.w && 0 <= from.y < g.h && 0 <= to.x < g.w && 0 <= to.y < g.h
    requires FullyOpen(g) && from != to && IsStep(g, from, to, next)
    ensures next == if to.y < from.y then Point(from.x, from.y - 1)
                    else if to.x > from.x then Point(from.x + 1, from.y)
                    else if to.y > from.y then Point(from.x, from.y + 1)
                    else Point(from.x - 1, from.y)
  {
    var direct := DirectPath(g, from, to);
    assert Reachable(g, from, p => p == to);
    var path :| IsRoute(g, from, to, path) && path != [] && next == Neighbor(from, path[0]);
    OpenRouteStartsTowards(g, from, to, path);
  }

  /** The resource tile beside a standing tile is the first match to its north, east, south, west. */
  lemma BesideInOrder(matchRes: Point -> bool, p: Point, d: nat)
    requires d < 4 && FirstBeside(matchRes, p, d)
    ensures Neighbor(p, d) ==
              if matchRes(Point(p.x, p.y - 1)) then Point(p.x, p.y - 1)
              else if matchRes(Point(p.x + 1, p.y)) then Point(p.x + 1, p.y)
              else if matchRes(Point(p.x, p.y + 1)) then Point(p.x, p.y + 1)
              else Point(p.x - 1, p.y)
  {
    assert d > 0 ==> !matchRes(Neighbor(p, 0));
    assert d > 1 ==> !matchRes(Neighbor(p, 1));
    assert d > 2 ==> !matchRes(Neighbor(p, 2));
  }

  /** A walker on blocked ground steps to the first tile around it that is open, looking north, east, south,
      west. */
  lemma BlockedGroundStep(g: Grid, from: Point, to: Point, next: Point)
    requires from != to && !Passable(g, from) && IsStep(g, from, to, next)
    ensures var north, east, south, west :=
              Point(from.x, from.y - 1), Point(from.x + 1, from.y), Point(from.x, from.y + 1), Point(from.x - 1, from.y);
            (Passable(g, north) ==> next == north) &&
            (!Passable(g, north) && Passable(g, east) ==> next == east) &&
            (!Passable(g, north) && !Passable(g, east) && Passable(g, south) ==> next == south) &&
            (!Passable(g, north) && !Passable(g, east) && !Passable(g, south) && Passable(g, west) ==> next == west)
  {
    assert Neighbor(from, 0) == Point(from.x, from.y - 1) && Neighbor(from, 1) == Point(from.x + 1, from.y);
    assert Neighbor(from, 2) == Point(from.x, from.y + 1) && Neighbor(from, 3) == Point(from.x - 1, from.y);
    FirstOfFour(from, p => Passable(g, p));
  }

  /** With no open ground around it either, the first tile inside the map. */
  lemma WalledInStep(g: Grid, from: Point, to: Point, next: Point)
    requires from != to && !Passable(g, from) && IsStep(g, from, to, next)
    requires forall d: nat :: d < 4 ==> !Passable(g, Neighbor(from, d))
    ensures next == if InBounds(g, Point(from.x, from.y - 1)) then Point(from.x, from.y - 1)
                    else if InBounds(g, Point(from.x + 1, from.y)) then Point(from.x + 1, from.y)
                    else if InBounds(g, Point(from.x, from.y + 1)) then Point(from.x, from.y + 1)
                    else if InBounds(g, Point(from.x - 1, from.y)) then Point(from.x - 1, from.y)
                    else from
  {
    FirstOfFour(from, p => InBounds(g, p));
  }

  lemma FirstOfFour(from: Point, ok: Point -> bool)
    ensures FirstNeighbor(from, ok, 0) ==
              if ok(Neighbor(from, 0)) then Neighbor(from, 0)
              else if ok(Neighbor(from, 1)) then Neighbor(from, 1)
              else if ok(Neighbor(from, 2)) then Neighbor(from, 2)
              else if ok(Neighbor(from, 3)) then Neighbor(from, 3)
              else from
  {
    assert FirstNeighbor(from, ok, 3) == if ok(Neighbor(from, 3)) then Neighbor(from, 3) else FirstNeighbor(from, ok, 4);
    assert FirstNeighbor(from, ok, 2) == if ok(Neighbor(from, 2)) then Neighbor(from, 2) else FirstNeighbor(from, ok, 3);
    assert FirstNeighbor(from, ok, 1) == if ok(Neighbor(from, 1)) then Neighbor(from, 1) else FirstNeighbor(from, ok, 2);
  }
}
