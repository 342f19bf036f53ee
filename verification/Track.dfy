/** The track layout of track_node.h as a directed graph, the graphs that a
    route query may travel, and shortest distances in them. */
module Track {

  /** DIJK_INF, the "unreachable" distance. */
  const INF: int := 0x7FFF_FFFF

  /** With at most 256 nodes and legs of at most 32767 mm, twice the longest
      simple path stays below 2^24, the room a packed heap key has. */
  const MAX_NODES: nat := 256
  const MAX_LEG: nat := 32767

  /** No simple path is longer than this. */
  function LongestPath(t: seq<Node>): int {
    (|t| - 1) * 32767
  }

  datatype NodeKind = NoNode | Sensor | Branch | Merge | Enter | Exit

  /** track_edge: `dest` is a node index, or -1 for a NULL destination. */
  datatype Leg = Leg(dest: int, len: int)

  /** track_node: `ahead` is edge[DIR_AHEAD] (= DIR_STRAIGHT), `curved` is edge[DIR_CURVED]. */
  datatype Node = Node(name: string, kind: NodeKind, num: int, reverse: int, ahead: Leg, curved: Leg)

  type Layout = seq<Node>

  predicate LegOk(t: Layout, e: Leg) {
    -1 <= e.dest < |t| && 0 <= e.len <= MAX_LEG &&
    (e.dest >= 0 ==> t[e.dest].kind != NoNode)
  }

  predicate NodeOk(t: Layout, v: nat)
    requires v < |t|
  {
    LegOk(t, t[v].ahead) && LegOk(t, t[v].curved) &&
    -1 <= t[v].reverse < |t| &&
    (t[v].kind == Branch ==>
       0 <= t[v].num && (t[v].ahead.dest >= 0 ==> t[v].ahead.dest != t[v].curved.dest))
  }

  /** A walk stops at a branch or an exit. */
  predicate Ends(t: Layout, v: nat)
    requires v < |t|
  {
    t[v].kind == Branch || t[v].kind == Exit
  }

  /** The plain walk from `v` (always ahead) meets a branch, an exit or a dead end within `k` hops. */
  predicate Settles(t: Layout, v: nat, k: nat)
    requires v < |t|
    decreases k
  {
    Ends(t, v) || t[v].ahead.dest < 0 || t[v].ahead.dest >= |t| ||
    (k > 0 && Settles(t, t[v].ahead.dest, k - 1))
  }

  predicate Uncycled(t: Layout, v: nat)
    requires v < |t|
  {
    Settles(t, v, |t| - 1)
  }

  /** Every cycle of the track contains a branch, legs are short and non-negative, and the two
      legs of a branch lead to different nodes. */
  predicate WellFormed(t: Layout) {
    5 <= |t| <= MAX_NODES &&
    (forall v :: 0 <= v < |t| ==> NodeOk(t, v)) &&
    (forall v :: 0 <= v < |t| ==> Uncycled(t, v))
  }

  function LegAt(t: Layout, x: nat, dir: nat): Leg
    requires x < |t|
  {
    if dir == 0 then t[x].ahead else t[x].curved
  }

  /** `x` has a leg in direction `dir` that a train can leave by. */
  predicate HasLeg(t: Layout, x: nat, dir: nat)
    requires x < |t|
  {
    t[x].kind != NoNode && t[x].kind != Exit &&
    (dir == 0 || (dir == 1 && t[x].kind == Branch)) &&
    LegAt(t, x, dir).dest >= 0
  }

  /** The length of the leg from `x` to `v`. */
  function LegLen(t: Layout, x: nat, v: int): int
    requires x < |t|
  {
    if t[x].ahead.dest == v then t[x].ahead.len else t[x].curved.len
  }

  /** What one leg search may travel: blocked nodes are closed except `start`, and a branch
      whose entry in `fixed` is 'S' or 'C' is pinned that way. */
  datatype Net = Net(t: Layout, start: nat, blocked: seq<bool>, fixed: seq<char>)

  predicate NetOk(n: Net) {
    WellFormed(n.t) && n.start < |n.t| && |n.blocked| == |n.t| && |n.fixed| == |n.t|
  }

  predicate Barred(n: Net, v: nat)
    requires NetOk(n) && v < |n.t|
  {
    n.blocked[v] && v != n.start
  }

  predicate Allows(n: Net, x: nat, dir: nat)
    requires NetOk(n) && x < |n.t|
  {
    n.t[x].kind != Branch ||
    (if n.fixed[x] == 'S' then dir == 0 else if n.fixed[x] == 'C' then dir == 1 else true)
  }

  predicate Edge(n: Net, x: nat, v: nat)
    requires NetOk(n)
  {
    x < |n.t| && v < |n.t| && !Barred(n, v) &&
    ((HasLeg(n.t, x, 0) && Allows(n, x, 0) && n.t[x].ahead.dest == v) ||
     (HasLeg(n.t, x, 1) && Allows(n, x, 1) && n.t[x].curved.dest == v))
  }

  /** The same track with nothing blocked and no switch pinned. */
  function FreeNet(t: Layout, start: nat): Net {
    Net(t, start, seq(|t|, i => false), seq(|t|, i => '?'))
  }

  // ---------- paths ----------

  predicate InRange(t: Layout, p: seq<nat>) {
    forall i :: 0 <= i < |p| ==> p[i] < |t|
  }

  predicate Hop(n: Net, p: seq<nat>, i: nat)
    requires NetOk(n) && i + 1 < |p|
  {
    Edge(n, p[i], p[i + 1])
  }

  predicate IsPath(n: Net, p: seq<nat>)
    requires NetOk(n)
  {
    |p| > 0 && InRange(n.t, p) && forall i :: 0 <= i < |p| - 1 ==> Hop(n, p, i)
  }

  function Last(p: seq<nat>): nat
    requires |p| > 0
  {
    p[|p| - 1]
  }

  function Init(p: seq<nat>): seq<nat>
    requires |p| > 0
  {
    p[..|p| - 1]
  }

  predicate Joins(n: Net, p: seq<nat>, x: nat, y: nat)
    requires NetOk(n)
  {
    IsPath(n, p) && p[0] == x && Last(p) == y
  }

  function Cost(t: Layout, p: seq<nat>): int
    requires InRange(t, p)
  {
    if |p| <= 1 then 0 else Cost(t, Init(p)) + LegLen(t, p[|p| - 2], Last(p))
  }

  ghost predicate NoShorter(n: Net, x: nat, y: nat, d: int)
    requires NetOk(n)
  {
    forall p :: Joins(n, p, x, y) ==> d <= Cost(n.t, p)
  }

  ghost predicate Connected(n: Net, x: nat, y: nat)
    requires NetOk(n)
  {
    exists p :: Joins(n, p, x, y)
  }

  /** `d` is the node-by-node shortest distance from `x` to `y` in `n`, INF if there is no path. */
  ghost predicate IsDistance(n: Net, x: nat, y: nat, d: int)
    requires NetOk(n)
  {
    if d == INF then !Connected(n, x, y)
    else 0 <= d <= LongestPath(n.t) && NoShorter(n, x, y, d) &&
         exists p :: Joins(n, p, x, y) && Cost(n.t, p) == d
  }

  lemma FreeNetOk(t: Layout, start: nat)
    requires WellFormed(t) && start < |t|
    ensures NetOk(FreeNet(t, start))
  {
  }

  lemma EdgeLen(n: Net, x: nat, v: nat)
    requires NetOk(n) && Edge(n, x, v)
    ensures 0 <= LegLen(n.t, x, v) <= MAX_LEG
  {
    assert NodeOk(n.t, x);
  }

  /** Blocking and pinning only remove edges. */
  lemma EdgeIsFree(n: Net, s: nat, x: nat, v: nat)
    requires NetOk(n) && s < |n.t| && Edge(n, x, v)
    ensures NetOk(FreeNet(n.t, s)) && Edge(FreeNet(n.t, s), x, v)
  {
  }

  lemma PathIsFree(n: Net, s: nat, p: seq<nat>)
    requires NetOk(n) && s < |n.t| && IsPath(n, p)
    ensures NetOk(FreeNet(n.t, s)) && IsPath(FreeNet(n.t, s), p)
  {
    forall i | 0 <= i < |p| - 1 ensures Hop(FreeNet(n.t, s), p, i) {
      assert Hop(n, p, i);
      EdgeIsFree(n, s, p[i], p[i + 1]);
    }
  }

  lemma {:induction false} CostRange(n: Net, p: seq<nat>)
    requires NetOk(n) && IsPath(n, p)
    ensures 0 <= Cost(n.t, p) <= (|p| - 1) * 32767
  {
    if |p| > 1 {
      InitPath(n, p);
      CostRange(n, Init(p));
      EdgeLen(n, p[|p| - 2], Last(p));
    }
  }

  lemma PathJoin(n: Net, p: seq<nat>, q: seq<nat>)
    requires NetOk(n) && IsPath(n, p) && IsPath(n, q) && Last(p) == q[0]
    ensures IsPath(n, p + q[1..]) && Last(p + q[1..]) == Last(q) && (p + q[1..])[0] == p[0]
  {
    var r := p + q[1..];
    forall i | 0 <= i < |r| - 1 ensures Hop(n, r, i) {
      if i < |p| - 1 {
        assert Hop(n, p, i);
      } else {
        var j := i - (|p| - 1);
        assert r[i] == q[j] && r[i + 1] == q[j + 1];
        assert Hop(n, q, j);
      }
    }
  }

  lemma TakePath(n: Net, p: seq<nat>, k: nat)
    requires NetOk(n) && IsPath(n, p) && 0 < k <= |p|
    ensures IsPath(n, p[..k])
  {
    forall i | 0 <= i < k - 1 ensures Hop(n, p[..k], i) {
      assert Hop(n, p, i);
    }
  }

  lemma DropPath(n: Net, p: seq<nat>, k: nat)
    requires NetOk(n) && IsPath(n, p) && k < |p|
    ensures IsPath(n, p[k..])
  {
    forall i | 0 <= i < |p| - k - 1 ensures Hop(n, p[k..], i) {
      assert Hop(n, p, k + i);
    }
  }

  lemma InitPath(n: Net, p: seq<nat>)
    requires NetOk(n) && IsPath(n, p) && |p| > 1
    ensures IsPath(n, Init(p)) && Edge(n, Last(Init(p)), Last(p)) && Init(p)[0] == p[0]
    ensures Cost(n.t, p) == Cost(n.t, Init(p)) + LegLen(n.t, Last(Init(p)), Last(p))
  {
    TakePath(n, p, |p| - 1);
    assert Hop(n, p, |p| - 2);
  }

  lemma Extend(n: Net, p: seq<nat>, v: nat)
    requires NetOk(n) && IsPath(n, p) && Edge(n, Last(p), v)
    ensures IsPath(n, p + [v]) && Cost(n.t, p + [v]) == Cost(n.t, p) + LegLen(n.t, Last(p), v)
  {
    var r := p + [v];
    forall i | 0 <= i < |r| - 1 ensures Hop(n, r, i) {
      if i < |p| - 1 {
        assert Hop(n, p, i);
      }
    }
    assert Init(p + [v]) == p;
  }

  /** Joining `p` and `q` at a shared node adds the costs. */
  lemma {:induction false} CostJoin(n: Net, p: seq<nat>, q: seq<nat>)
    requires NetOk(n) && IsPath(n, p) && IsPath(n, q) && Last(p) == q[0]
    ensures IsPath(n, p + q[1..]) && Last(p + q[1..]) == Last(q) && (p + q[1..])[0] == p[0]
    ensures Cost(n.t, p + q[1..]) == Cost(n.t, p) + Cost(n.t, q)
    decreases |q|
  {
    PathJoin(n, p, q);
    var r := p + q[1..];
    if |q| == 1 {
      assert r == p;
    } else {
      InitPath(n, q);
      CostJoin(n, p, Init(q));
      assert Init(r) == p + Init(q)[1..];
    }
  }

  lemma PathSplit(n: Net, p: seq<nat>, i: nat)
    requires NetOk(n) && IsPath(n, p) && i < |p|
    ensures IsPath(n, p[..i + 1]) && IsPath(n, p[i..])
    ensures Cost(n.t, p) == Cost(n.t, p[..i + 1]) + Cost(n.t, p[i..])
  {
    var a, b := p[..i + 1], p[i..];
    TakePath(n, p, i + 1);
    DropPath(n, p, i);
    CostJoin(n, a, b);
    assert a + b[1..] == p;
  }

  // ---------- pigeonhole ----------

  predicate Distinct(p: seq<nat>) {
    forall i, j :: 0 <= i < j < |p| ==> p[i] != p[j]
  }

  /** Distinct indices below `k` number at most `k`. */
  lemma {:induction false} Pigeonhole(p: seq<nat>, k: nat)
    requires Distinct(p) && forall i :: 0 <= i < |p| ==> p[i] < k
    ensures |p| <= k
    decreases k
  {
    if |p| > 0 {
      assert p[0] < k;
      if exists i :: 0 <= i < |p| && p[i] == k - 1 {
        var i :| 0 <= i < |p| && p[i] == k - 1;
        Pigeonhole(p[..i] + p[i + 1..], k - 1);
      } else {
        Pigeonhole(p, k - 1);
      }
    }
  }

  // ---------- uncut walks ----------

  /** The nodes a walk visits from `v` on: `v`, then always ahead, up to a branch, an exit, a dead
      end or `fuel` further nodes. */
  function Ahead(t: Layout, v: nat, fuel: nat): (s: seq<nat>)
    requires v < |t|
    ensures 1 <= |s| <= fuel + 1 && s[0] == v && InRange(t, s)
    decreases fuel
  {
    if Ends(t, v) || fuel == 0 || t[v].ahead.dest < 0 || t[v].ahead.dest >= |t| then [v]
    else [v] + Ahead(t, t[v].ahead.dest, fuel - 1)
  }

  /** The nodes beyond `u` in direction `dir` up to the next branch or exit (g_route_segments). */
  function Segment(t: Layout, u: nat, dir: nat): (s: seq<nat>)
    requires u < |t| && WellFormed(t)
    ensures InRange(t, s) && |s| <= |t|
  {
    if !HasLeg(t, u, dir) then [] else
    assert NodeOk(t, u);
    Ahead(t, LegAt(t, u, dir).dest, |t| - 1)
  }

  /** Node `i` of a walk is a real node and leads to the next one; the last one cannot be passed. */
  predicate WalkStep(t: Layout, s: seq<nat>, i: nat)
    requires InRange(t, s) && i < |s|
  {
    t[s[i]].kind != NoNode &&
    (if i + 1 < |s| then !Ends(t, s[i]) && t[s[i]].ahead.dest == s[i + 1]
     else Ends(t, s[i]) || t[s[i]].ahead.dest < 0)
  }

  /** A walk is never cut short by its fuel. */
  lemma {:induction false} AheadNext(t: Layout, v: nat, fuel: nat, i: nat)
    requires v < |t| && WellFormed(t) && t[v].kind != NoNode && Settles(t, v, fuel) && i < |Ahead(t, v, fuel)|
    ensures WalkStep(t, Ahead(t, v, fuel), i)
    decreases fuel
  {
    assert NodeOk(t, v);
    if Ends(t, v) || fuel == 0 || t[v].ahead.dest < 0 {
    } else if i == 0 {
    } else {
      var rest := Ahead(t, t[v].ahead.dest, fuel - 1);
      AheadNext(t, t[v].ahead.dest, fuel - 1, i - 1);
      assert WalkStep(t, rest, i - 1);
      assert Ahead(t, v, fuel) == [v] + rest;
    }
  }

  /** The shape of a segment that the searches rely on. */
  lemma SegmentNext(t: Layout, u: nat, dir: nat, i: nat)
    requires u < |t| && WellFormed(t) && i < |Segment(t, u, dir)|
    ensures var s := Segment(t, u, dir);
            HasLeg(t, u, dir) && s[0] == LegAt(t, u, dir).dest && WalkStep(t, s, i)
  {
    assert NodeOk(t, u);
    var v := LegAt(t, u, dir).dest;
    assert Uncycled(t, v);
    AheadNext(t, v, |t| - 1, i);
  }
}
