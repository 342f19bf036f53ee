/** The branch-only Dijkstra of route_search_cache.c and the all-pairs table it fills. `dijk_run` is
    only ever called without blocked nodes and pins, so it is modelled on the free net. */
module FreeTrack {
  import opened Track
  import opened Labels
  import opened LabelStore
  import opened SegmentCache

  /** g_branch_idx: every branch node, once, in index order. */
  predicate ListsBranches(t: Layout, branches: seq<nat>) {
    (forall i :: 0 <= i < |branches| ==> branches[i] < |t| && t[branches[i]].kind == Branch) &&
    (forall v :: 0 <= v < |t| && t[v].kind == Branch ==> v in branches)
  }

  /** The loop of route_init. */
  method CollectBranches(t: Layout) returns (branches: seq<nat>)
    ensures ListsBranches(t, branches)
  {
    branches := [];
    for i := 0 to |t|
      invariant forall k :: 0 <= k < |branches| ==> branches[k] < |t| && t[branches[k]].kind == Branch
      invariant forall v :: 0 <= v < i && t[v].kind == Branch ==> v in branches
    {
      if t[i].kind == Branch {
        branches := branches + [i];
      }
    }
  }

  // ---------- one walk ----------

  /** The inner loop of dijk_run: unlike the A* walk it also stops at a settled node, where
      nothing further could improve. */
  method WalkLeg(labels: LabelArrays, ghost n: Net, t: Layout, u: nat, dir: nat, ghost holes: Holes)
    requires n == FreeNet(t, n.start) && NetOk(n) && labels.Sized(|t|) && u < |t| && dir <= 1 && HasLeg(t, u, dir)
    requires Mid(n, labels.View(), u, Segment(t, u, dir), 0, holes) && OtherLeg(n, u, holes)
    modifies labels.Footprint()
    ensures labels.Sized(|t|) && Inv(n, labels.View(), holes)
    ensures labels.done[..] == old(labels.done[..]) && labels.dist[u] == old(labels.dist[u])
  {
    ghost var seg := Segment(t, u, dir);
    ghost var i := 0;
    var leg := LegAt(t, u, dir);
    var acc := labels.dist[u];
    var from := u;
    var num := if t[u].kind == Branch then t[u].num else -1;
    var letter := if t[u].kind == Branch then (if dir == 0 then 'S' else 'C') else '?';
    WalkStart(t, u, dir);
    while leg.dest >= 0
      invariant labels.Sized(|t|) && Mid(n, labels.View(), u, seg, i, holes)
      invariant Carried(t, u, dir, seg, i, leg, from, num, letter)
      invariant acc == labels.dist[u] + Reach(t, u, seg, i)
      invariant labels.done[..] == old(labels.done[..]) && labels.dist[u] == old(labels.dist[u])
      decreases |seg| - i
    {
      var v := leg.dest;
      ghost var l := labels.View();
      RelaxKeeps(n, l, u, dir, seg, i, holes);
      if labels.done[v] {
        return;
      }
      MidNext(n, l, u, dir, seg, i, holes);
      ReachNext(t, u, seg, i);
      CarriedNext(t, u, dir, seg, i, leg, from, num, letter);
      acc := acc + leg.len;
      RelaxLeg(labels, n, u, seg, i, from, v, acc, num, letter);
      if t[v].kind == Branch || t[v].kind == Exit {
        return;
      }
      num, letter, from, leg := -1, '?', v, t[v].ahead;
      i := i + 1;
    }
  }

  method RelaxLeg(labels: LabelArrays, ghost n: Net, ghost u: nat, ghost seg: seq<nat>, ghost i: nat,
                  from: nat, v: nat, acc: int, num: int, letter: char)
    requires NetOk(n) && labels.Sized(|n.t|) && u < |n.t| && InRange(n.t, seg) && i < |seg|
    requires from == From(u, seg, i) && v == seg[i] && num == SwNum(n.t, from) && letter == SwDir(n.t, from, v)
    requires acc == Offer(n, labels.View(), u, seg, i)
    modifies labels.Footprint()
    ensures labels.Sized(|n.t|) && labels.View() == Step(n, old(labels.View()), u, seg, i)
  {
    if acc < labels.dist[v] {
      labels.Lower(n, from, v, acc, num, letter);
    }
  }

  /** What the walk carries along: the leg into node `i` and the switch setting to record there. */
  predicate Carried(t: Layout, u: nat, dir: nat, seg: seq<nat>, i: nat, leg: Leg, from: nat, num: int, letter: char)
    requires WellFormed(t) && u < |t|
  {
    seg == Segment(t, u, dir) && i <= |seg| && from == From(u, seg, i) && num == SwNum(t, from) &&
    if i == |seg| then leg.dest < 0
    else leg.dest == seg[i] && leg.len == LegLen(t, from, seg[i]) && letter == SwDir(t, from, seg[i])
  }

  lemma CarriedNext(t: Layout, u: nat, dir: nat, seg: seq<nat>, i: nat, leg: Leg, from: nat, num: int, letter: char)
    requires WellFormed(t) && u < |t| && dir <= 1 && Carried(t, u, dir, seg, i, leg, from, num, letter) && i < |seg|
    ensures Ends(t, seg[i]) || Carried(t, u, dir, seg, i + 1, t[seg[i]].ahead, seg[i], -1, '?')
  {
    SegmentNext(t, u, dir, i);
    if i + 1 < |seg| {
      LegOfSegment(t, u, dir, i + 1);
    }
  }

  lemma WalkStart(t: Layout, u: nat, dir: nat)
    requires WellFormed(t) && u < |t| && dir <= 1 && HasLeg(t, u, dir)
    ensures |Segment(t, u, dir)| > 0
    ensures Carried(t, u, dir, Segment(t, u, dir), 0, LegAt(t, u, dir), u, SwNum(t, u),
                    if t[u].kind == Branch then (if dir == 0 then 'S' else 'C') else '?')
    ensures Reach(t, u, Segment(t, u, dir), 0) == 0
  {
    assert NodeOk(t, u);
    var seg := Segment(t, u, dir);
    SegmentNext(t, u, dir, 0);
    LegOfSegment(t, u, dir, 0);
    assert [u] + seg[..0] == [u];
  }

  // ---------- the main loop ----------

  /** Walk one leg of a settled hub, or skip it if it leads nowhere. */
  method ExpandLeg(labels: LabelArrays, ghost n: Net, t: Layout, u: nat, dir: nat, ghost holes: Holes)
    requires n == FreeNet(t, n.start) && NetOk(n) && labels.Sized(|t|) && u < |t|
    requires dir == 0 || (dir == 1 && t[u].kind == Branch)
    requires Inv(n, labels.View(), holes + {(u, LegAt(t, u, dir).dest)}) && OtherLeg(n, u, holes)
    requires LegAt(t, u, dir).dest >= 0 ==> (u, LegAt(t, u, dir).dest) !in holes
    requires labels.done[u] && labels.done[n.start] && labels.dist[u] < INF
    modifies labels.Footprint()
    ensures labels.Sized(|t|) && Inv(n, labels.View(), holes)
    ensures labels.done[..] == old(labels.done[..]) && labels.dist[u] == old(labels.dist[u])
  {
    if t[u].kind == NoNode || t[u].kind == Exit || LegAt(t, u, dir).dest < 0 {
      assert NodeOk(t, u);
      DropHole(n, labels.View(), holes, u, LegAt(t, u, dir).dest);
    } else {
      LegMid(n, labels.View(), u, dir, holes);
      WalkLeg(labels, n, t, u, dir, holes);
    }
  }

  lemma LegMid(n: Net, l: Labels, u: nat, dir: nat, holes: Holes)
    requires NetOk(n) && u < |n.t| && dir <= 1 && HasLeg(n.t, u, dir)
    requires Inv(n, l, holes + {(u, LegAt(n.t, u, dir).dest)})
    requires (u, LegAt(n.t, u, dir).dest) !in holes && l.done[u] && l.done[n.start] && l.dist[u] < INF
    ensures Mid(n, l, u, Segment(n.t, u, dir), 0, holes)
  {
    WalkStart(n.t, u, dir);
    SegmentNext(n.t, u, dir, 0);
  }

  method ExpandFree(labels: LabelArrays, ghost n: Net, t: Layout, u: nat)
    requires n == FreeNet(t, n.start) && NetOk(n) && labels.Sized(|t|) && u < |t|
    requires Inv(n, labels.View(), Curve(n, u) + {(u, t[u].ahead.dest)})
    requires labels.done[u] && labels.done[n.start] && labels.dist[u] < INF
    modifies labels.Footprint()
    ensures labels.Sized(|t|) && Inv(n, labels.View(), {}) && labels.done[..] == old(labels.done[..])
  {
    assert NodeOk(t, u);
    ExpandLeg(labels, n, t, u, 0, Curve(n, u));
    if t[u].kind == Branch {
      assert Curve(n, u) == {} + {(u, t[u].curved.dest)};
      ExpandLeg(labels, n, t, u, 1, {});
    }
  }

  /** `u` is a nearest pending hub, -1 if no pending hub has been reached. */
  ghost predicate Nearest(n: Net, l: Labels, u: int)
    requires Shaped(n, l)
  {
    if u < 0 then forall x :: 0 <= x < |n.t| && Pending(n, l, x) ==> l.dist[x] >= INF
    else u < |n.t| && Pending(n, l, u) && l.dist[u] < INF &&
         forall x :: 0 <= x < |n.t| && Pending(n, l, x) ==> l.dist[u] <= l.dist[x]
  }

  /** The selection scan of dijk_run over the start and the branch list. */
  method PickNearest(labels: LabelArrays, ghost n: Net, t: Layout, branches: seq<nat>, start: nat) returns (u: int)
    requires NetOk(n) && n.t == t && n.start == start && labels.Sized(|t|) && ListsBranches(t, branches)
    ensures Nearest(n, labels.View(), u)
  {
    u := -1;
    var min := INF;
    if t[start].kind != Branch && !labels.done[start] && labels.dist[start] < min {
      u, min := start, labels.dist[start];
    }
    for i := 0 to |branches|
      invariant u < 0 ==> min == INF
      invariant u >= 0 ==> u < |t| && Pending(n, labels.View(), u) && labels.dist[u] == min < INF
      invariant t[start].kind != Branch && !labels.done[start] ==> min <= labels.dist[start]
      invariant forall k :: 0 <= k < i && !labels.done[branches[k]] ==> min <= labels.dist[branches[k]]
    {
      var x := branches[i];
      if !labels.done[x] && labels.dist[x] < min {
        u, min := x, labels.dist[x];
      }
    }
    forall x | 0 <= x < |t| && Pending(n, labels.View(), x) ensures min <= labels.dist[x] {
      if t[x].kind == Branch {
        assert x in branches;
      }
    }
  }

  lemma NearestIsFinal(n: Net, l: Labels, u: nat)
    requires Inv(n, l, {}) && Nearest(n, l, u)
    ensures NoShorter(n, n.start, u, l.dist[u])
  {
    forall x, p | 0 <= x < |n.t| && Pending(n, l, x) && l.dist[x] < INF && Joins(n, p, x, u)
      ensures l.dist[u] <= l.dist[x] + Cost(n.t, p)
    {
      CostRange(n, p);
    }
    FinalLabel(n, l, u);
  }

  /** With no pending hub left every label is a shortest distance. */
  lemma AllFinal(n: Net, l: Labels, v: nat)
    requires Inv(n, l, {}) && Nearest(n, l, -1) && v < |n.t|
    ensures IsDistance(n, n.start, v, l.dist[v])
  {
    assert LabelOk(n, l, v, {});
    forall p | Joins(n, p, n.start, v) ensures l.dist[v] <= Cost(n.t, p) && l.dist[v] != INF {
      var i := Frontier(n, l, p);
      assert p[..|p|] == p;
      assert i == |p| - 1;
    }
    if l.dist[v] != INF {
      LabelRange(n, l, v, {});
      assert Joins(n, l.path[v], n.start, v);
    }
  }

  /** dijk_run_from: afterwards `dist` holds the shortest free-track distances from `start`. */
  method RunFrom(labels: LabelArrays, t: Layout, branches: seq<nat>, start: nat)
    requires WellFormed(t) && start < |t| && labels.Sized(|t|) && ListsBranches(t, branches)
    modifies labels.Footprint()
    ensures labels.Sized(|t|) && NetOk(FreeNet(t, start))
    ensures forall v :: 0 <= v < |t| ==> IsDistance(FreeNet(t, start), start, v, labels.dist[v])
  {
    ghost var n := FreeNet(t, start);
    FreeNetOk(t, start);
    labels.Reset(n, start);
    InitialInv(n);
    while true
      invariant labels.Sized(|t|) && Inv(n, labels.View(), {})
      decreases |Undone(labels.done[..])|
    {
      var u := PickNearest(labels, n, t, branches, start);
      if u < 0 {
        break;
      }
      ghost var l := labels.View();
      NearestIsFinal(n, l, u);
      SettleKeeps(n, l, u);
      UndoneShrinks(labels.done[..], u);
      labels.MarkDone(n, u);
      assert labels.View().done == labels.done[..];
      ExpandFree(labels, n, t, u);
    }
    forall v | 0 <= v < |t| ensures IsDistance(n, start, v, labels.dist[v]) {
      AllFinal(n, labels.View(), v);
    }
  }
}
