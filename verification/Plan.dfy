/** Turning labels into routes: predecessor chains, switch lists, path sums and the clearance test. */
module Plan {
  import opened Track
  import opened Labels
  import opened LabelStore
  import opened AStarSpec

  const MAX_SWITCHES: nat := 20
  const TRAIN_BODY_MM := 200
  const MIDREV_STOP_TOLERANCE_MM := 50

  function Reversed<T>(s: seq<T>): (r: seq<T>)
    ensures |r| == |s|
  {
    if |s| == 0 then [] else Reversed(s[1..]) + [s[0]]
  }

  lemma {:induction false} ReversedSnoc<T>(s: seq<T>, x: T)
    ensures Reversed(s + [x]) == [x] + Reversed(s)
  {
    if |s| > 0 {
      ReversedSnoc(s[1..], x);
      assert (s + [x])[1..] == s[1..] + [x];
    }
  }

  lemma {:induction false} ReversedAt<T>(s: seq<T>, k: nat)
    requires k < |s|
    ensures Reversed(s)[k] == s[|s| - 1 - k]
  {
    if |s| > 1 && k < |s| - 1 {
      ReversedAt(s[1..], k);
    }
  }

  function FirstOf<T>(s: seq<T>, k: nat): seq<T> {
    if |s| <= k then s else s[..k]
  }

  function LastOf<T>(s: seq<T>, k: nat): seq<T> {
    if |s| <= k then s else s[|s| - k..]
  }

  /** Copying a stack from its top down, at most `max` entries. */
  method PopAll<T>(stack: seq<T>, max: nat) returns (out: seq<T>)
    ensures out == FirstOf(Reversed(stack), max)
  {
    out := [];
    var i := |stack| - 1;
    while i >= 0 && |out| < max
      invariant -1 <= i < |stack| && |out| == |stack| - 1 - i <= max
      invariant forall k :: 0 <= k < |out| ==> out[k] == Reversed(stack)[k]
    {
      ReversedAt(stack, |out|);
      out := out + [stack[i]];
      i := i - 1;
    }
    assert |out| <= |Reversed(stack)|;
    assert out == FirstOf(Reversed(stack), max);
  }

  // ---------- following the predecessors ----------

  /** The history path of a labelled node; an unlabelled one stands alone. */
  function PathOf(l: Labels, v: nat): seq<nat>
    requires v < |l.dist| && |l.path| == |l.dist|
  {
    if l.dist[v] == INF then [v] else l.path[v]
  }

  /** `prev` points to the node before the last one of the path, and its own path is what precedes. */
  lemma PrevStep(n: Net, l: Labels, v: nat)
    requires Tree(n, l) && v < |n.t|
    ensures var p := PathOf(l, v);
            0 < |p| <= |n.t| && Last(p) == v &&
            if l.prev[v] < 0 then p == [v]
            else l.prev[v] < |n.t| && l.dist[l.prev[v]] != INF && l.dist[v] != INF &&
                 p == PathOf(l, l.prev[v]) + [v]
  {
    assert LabelOk(n, l, v, {});
    if l.dist[v] != INF {
      LabelRange(n, l, v, {});
      assert l.path[v] == Init(l.path[v]) + [Last(l.path[v])];
    }
  }

  /** Collecting the nodes from the target back to the start. */
  method FollowPrev(labels: LabelArrays, ghost n: Net, target: nat) returns (tmp: seq<nat>)
    requires NetOk(n) && labels.Sized(|n.t|) && Tree(n, labels.View()) && target < |n.t|
    ensures Reversed(tmp) == PathOf(labels.View(), target)
  {
    ghost var l, full := labels.View(), PathOf(labels.View(), target);
    tmp := [];
    var idx := target;
    assert full + [] == full;
    PrevStep(n, l, target);
    while idx >= 0 && idx < labels.prev.Length && |tmp| < labels.prev.Length
      invariant -1 <= idx < |n.t| && |full| <= |n.t|
      invariant full == Chain(l, idx) + Reversed(tmp)
      decreases |n.t| - |tmp|
    {
      ChainStep(n, l, idx, tmp);
      tmp := tmp + [idx];
      idx := labels.prev[idx];
    }
    if idx >= 0 {
      PrevStep(n, l, idx);
    }
  }

  /** dijk_reconstruct_nodes. */
  method ReconstructNodes(labels: LabelArrays, ghost n: Net, target: nat, max: nat) returns (nodes: seq<nat>)
    requires NetOk(n) && labels.Sized(|n.t|) && Tree(n, labels.View()) && target < |n.t|
    ensures nodes == FirstOf(PathOf(labels.View(), target), max)
  {
    var tmp := FollowPrev(labels, n, target);
    nodes := PopAll(tmp, max);
  }

  /** What is still to be followed from `idx` on. */
  function Chain(l: Labels, idx: int): seq<nat>
    requires idx < |l.dist| && |l.path| == |l.dist|
  {
    if idx < 0 then [] else PathOf(l, idx)
  }

  lemma ChainStep(n: Net, l: Labels, idx: nat, tmp: seq<nat>)
    requires Tree(n, l) && idx < |n.t|
    ensures -1 <= l.prev[idx] < |n.t|
    ensures Chain(l, idx) + Reversed(tmp) == Chain(l, l.prev[idx]) + Reversed(tmp + [idx])
  {
    assert -1 <= l.prev[idx] by {
      assert LabelOk(n, l, idx, {});
    }
    PrevStep(n, l, idx);
    ReversedSnoc(tmp, idx);
    Regroup(Chain(l, l.prev[idx]), idx, Reversed(tmp));
  }

  lemma Regroup<T>(a: seq<T>, x: T, b: seq<T>)
    ensures (a + [x]) + b == a + ([x] + b)
  {
  }

  // ---------- switch lists ----------

  /** The branches a path crosses, with the direction it leaves each by, in travel order. */
  function Crossings(t: Layout, p: seq<nat>): seq<(int, char)>
    requires InRange(t, p)
  {
    if |p| <= 1 then []
    else Crossings(t, Init(p)) +
         (if t[p[|p| - 2]].kind == Branch then [(t[p[|p| - 2]].num, SwDir(t, p[|p| - 2], Last(p)))] else [])
  }

  lemma SwitchStep(n: Net, l: Labels, v: nat)
    requires Tree(n, l) && v < |n.t| && l.prev[v] >= 0
    ensures l.prev[v] < |n.t| && InRange(n.t, PathOf(l, v)) && InRange(n.t, PathOf(l, l.prev[v]))
    ensures Crossings(n.t, PathOf(l, v)) ==
              Crossings(n.t, PathOf(l, l.prev[v])) + (if l.swNum[v] >= 0 then [(l.swNum[v], l.swDir[v])] else [])
  {
    PrevStep(n, l, v);
    assert LabelOk(n, l, v, {});
    assert NodeOk(n.t, l.prev[v]);
    assert LabelOk(n, l, l.prev[v], {});
    assert Init(PathOf(l, v)) == PathOf(l, l.prev[v]);
  }

  /** dijk_reconstruct: the label and the last MAX_SWITCHES switch settings of the path. */
  method ReconstructSwitches(labels: LabelArrays, ghost n: Net, target: nat, max: nat)
    returns (dist: int, switches: seq<(int, char)>)
    requires NetOk(n) && labels.Sized(|n.t|) && Tree(n, labels.View()) && target < |n.t|
    ensures labels.dist[target] == INF ==> dist == -1 && switches == []
    ensures labels.dist[target] != INF ==>
              dist == labels.dist[target] && InRange(n.t, labels.View().path[target]) &&
              switches == FirstOf(LastOf(Crossings(n.t, labels.View().path[target]), MAX_SWITCHES), max)
  {
    if labels.dist[target] == INF {
      return -1, [];
    }
    ghost var l := labels.View();
    ghost var p := l.path[target];
    assert LabelOk(n, l, target, {});
    ghost var all := Crossings(n.t, p);
    var stack: seq<(int, char)> := [];
    var idx := target;
    assert all + [] == all;
    while labels.prev[idx] >= 0 && |stack| < MAX_SWITCHES
      invariant 0 <= idx < |n.t| && |stack| <= MAX_SWITCHES && l.dist[idx] != INF
      invariant InRange(n.t, PathOf(l, idx)) && all == Crossings(n.t, PathOf(l, idx)) + Reversed(stack)
      decreases |PathOf(l, idx)|
    {
      PrevStep(n, l, idx);
      SwitchStep(n, l, idx);
      if labels.swNum[idx] >= 0 {
        ReversedSnoc(stack, (labels.swNum[idx], labels.swDir[idx]));
        stack := stack + [(labels.swNum[idx], labels.swDir[idx])];
      }
      idx := labels.prev[idx];
    }
    PrevStep(n, l, idx);
    switches := PopAll(stack, max);
    dist := labels.dist[target];
    assert Reversed(stack) == LastOf(all, MAX_SWITCHES);
  }

  // ---------- path sums ----------

  /** The length of the leg from `a` to `b`, -1 if no leg joins them (route_path_edge_dist). */
  function LinkLen(t: Layout, a: nat, b: nat): int
    requires a < |t|
  {
    if t[a].kind == Branch then
      (if t[a].ahead.dest == b then t[a].ahead.len
       else if t[a].curved.dest == b then t[a].curved.len else -1)
    else if t[a].ahead.dest == b then t[a].ahead.len else -1
  }

  /** The summed links of `p`, -1 if two consecutive nodes are not joined. */
  function LinkSum(t: Layout, p: seq<nat>): int
    requires InRange(t, p)
  {
    if |p| <= 1 then 0
    else
      var rest, link := LinkSum(t, Init(p)), LinkLen(t, p[|p| - 2], Last(p));
      if rest < 0 || link < 0 then -1 else rest + link
  }

  /** On a real path the link sum is the path's cost. */
  lemma {:induction false} LinkSumIsCost(n: Net, p: seq<nat>)
    requires NetOk(n) && IsPath(n, p)
    ensures LinkSum(n.t, p) == Cost(n.t, p)
  {
    CostRange(n, p);
    if |p| > 1 {
      InitPath(n, p);
      LinkSumIsCost(n, Init(p));
      CostRange(n, Init(p));
      assert NodeOk(n.t, p[|p| - 2]);
    }
  }

  lemma {:induction false} BrokenStays(t: Layout, p: seq<nat>, k: nat)
    requires InRange(t, p) && k <= |p| && LinkSum(t, p[..k]) < 0
    ensures LinkSum(t, p) == -1
    decreases |p|
  {
    if k == |p| {
      assert p[..k] == p;
      assert |p| > 1;
    } else {
      assert Init(p)[..k] == p[..k];
      BrokenStays(t, Init(p), k);
    }
  }

  /** One more link from `cursor` on. */
  lemma LinkNext(t: Layout, path: seq<nat>, cursor: nat, i: nat)
    requires InRange(t, path) && cursor <= i < |path| - 1
    ensures var sum, link := LinkSum(t, path[cursor..i + 1]), LinkLen(t, path[i], path[i + 1]);
            LinkSum(t, path[cursor..i + 2]) == if sum < 0 || link < 0 then -1 else sum + link
  {
    assert Init(path[cursor..i + 2]) == path[cursor..i + 1];
  }

  /** A missing link spoils the whole sum. */
  lemma LinkMissing(t: Layout, path: seq<nat>, cursor: nat, i: nat)
    requires InRange(t, path) && cursor <= i < |path| - 1 && LinkLen(t, path[i], path[i + 1]) < 0
    ensures LinkSum(t, path[cursor..]) == -1
  {
    LinkNext(t, path, cursor, i);
    assert path[cursor..][..i + 2 - cursor] == path[cursor..i + 2];
    BrokenStays(t, path[cursor..], i + 2 - cursor);
  }

  /** route_path_dist_from. */
  method PathDistFrom(t: Layout, path: seq<nat>, cursor: nat) returns (total: int)
    requires InRange(t, path)
    ensures total == if cursor < |path| then LinkSum(t, path[cursor..]) else 0
  {
    total := 0;
    var i := cursor;
    while i < |path| - 1
      invariant cursor <= i && (cursor < |path| ==> i < |path|) && total >= 0
      invariant total == if cursor < |path| then LinkSum(t, path[cursor..i + 1]) else 0
    {
      var d := LinkLen(t, path[i], path[i + 1]);
      LinkNext(t, path, cursor, i);
      if d < 0 {
        LinkMissing(t, path, cursor, i);
        return -1;
      }
      total := total + d;
      i := i + 1;
    }
    assert cursor < |path| ==> path[cursor..i + 1] == path[cursor..];
  }

  // ---------- clearance after a reversal ----------

  /** The first branch after the start of a path, or its length if there is none. */
  function FirstBranch(t: Layout, path: seq<nat>, i: nat): (k: nat)
    requires InRange(t, path) && 1 <= i <= |path|
    ensures i <= k <= |path| && (k < |path| ==> t[path[k]].kind == Branch)
    ensures forall j :: i <= j < k ==> t[path[j]].kind != Branch
    decreases |path| - i
  {
    if i == |path| || t[path[i]].kind == Branch then i else FirstBranch(t, path, i + 1)
  }

  /** A train that has reversed has room for its body and the stop tolerance, 250 mm, before the
      first branch of its path, if the path has one; and the path is linked that far. */
  predicate Clear(t: Layout, path: seq<nat>)
    requires InRange(t, path)
  {
    |path| == 0 ||
    var k := FirstBranch(t, path, 1);
    if k == |path| then LinkSum(t, path) >= 0 else LinkSum(t, path[..k + 1]) >= 250
  }

  /** route_path_first_branch_dist and route_midrev_has_branch_clearance. */
  method HasBranchClearance(t: Layout, path: seq<nat>) returns (clear: bool)
    requires InRange(t, path)
    ensures clear == Clear(t, path)
  {
    var total := 0;
    var i := 0;
    while i < |path| - 1
      invariant 0 <= i && (i < |path| || i == 0)
      invariant |path| > 0 ==> total == LinkSum(t, path[..i + 1]) >= 0
      invariant |path| > 0 ==> FirstBranch(t, path, 1) == FirstBranch(t, path, i + 1)
      decreases |path| - i
    {
      var d := LinkLen(t, path[i], path[i + 1]);
      assert Init(path[..i + 2]) == path[..i + 1];
      if d < 0 {
        assert path[..FirstBranch(t, path, 1)][..i + 1] == path[..i + 1];
        BrokenBefore(t, path, i + 2);
        return false;
      }
      total := total + d;
      if t[path[i + 1]].kind == Branch {
        return total >= TRAIN_BODY_MM + MIDREV_STOP_TOLERANCE_MM;
      }
      i := i + 1;
    }
    if |path| > 0 {
      assert path[..i + 1] == path;
    }
    return true;
  }

  /** A link missing before the first branch spoils the clearance. */
  lemma BrokenBefore(t: Layout, path: seq<nat>, k: nat)
    requires InRange(t, path) && 2 <= k <= |path| && LinkSum(t, path[..k]) < 0
    requires k - 1 <= FirstBranch(t, path, 1)
    ensures !Clear(t, path)
  {
    var b := FirstBranch(t, path, 1);
    if b == |path| {
      BrokenStays(t, path, k);
    } else {
      assert path[..b + 1][..k] == path[..k];
      BrokenStays(t, path[..b + 1], k);
    }
  }

  // ---------- what a successful leg search hands over ----------

  /** The reconstructed route of a found goal: a simple path along real edges from the start to the
      goal whose length is the shortest distance, as route_path_dist_from would sum it up. */
  lemma FaithfulRoute(q: Query, r: Search)
    requires QueryOk(q) && Fit(q, r) && Found(q, r)
    ensures var p := PathOf(r.l, q.goal);
            Joins(q.net, p, q.net.start, q.goal) && Distinct(p) && |p| <= |q.net.t| &&
            LinkSum(q.net.t, p) == Cost(q.net.t, p) == r.l.dist[q.goal] &&
            IsDistance(q.net, q.net.start, q.goal, Cost(q.net.t, p))
  {
    assert LabelOk(q.net, r.l, q.goal, {});
    LabelRange(q.net, r.l, q.goal, {});
    LinkSumIsCost(q.net, r.l.path[q.goal]);
  }
}
