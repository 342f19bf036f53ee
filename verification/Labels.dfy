/** The label arrays shared by the branch-only Dijkstra and the segment A*
    (dist, done, prev, sw_num, sw_dir), walking one segment, and the invariant both searches keep. */
module Labels {
  import opened Track

  /** `path[v]` is a history variable: the node sequence that gave `v` its label. */
  datatype Labels = Labels(dist: seq<int>, done: seq<bool>, prev: seq<int>,
                           swNum: seq<int>, swDir: seq<char>, path: seq<seq<nat>>)

  type Holes = set<(int, int)>

  predicate Shaped(n: Net, l: Labels) {
    NetOk(n) && |l.dist| == |l.done| == |l.prev| == |l.swNum| == |l.swDir| == |l.path| == |n.t|
  }

  /** Only the start and the branches are ever expanded. */
  predicate Hub(n: Net, x: nat)
    requires NetOk(n) && x < |n.t|
  {
    x == n.start || n.t[x].kind == Branch
  }

  predicate Pending(n: Net, l: Labels, x: nat)
    requires Shaped(n, l) && x < |n.t|
  {
    Hub(n, x) && !l.done[x]
  }

  /** The switch setting that leaving `from` towards `v` needs, or (-1, '?'). */
  function SwNum(t: Layout, from: nat): int
    requires from < |t|
  {
    if t[from].kind == Branch then t[from].num else -1
  }

  function SwDir(t: Layout, from: nat, v: nat): char
    requires from < |t|
  {
    if t[from].kind != Branch then '?' else if t[from].ahead.dest == v then 'S' else 'C'
  }

  // ---------- one segment walk ----------

  function Initial(n: Net): (l: Labels)
    requires NetOk(n)
    ensures Shaped(n, l)
  {
    var k := |n.t|;
    Labels(seq(k, i => INF)[n.start := 0], seq(k, i => false), seq(k, i => -1),
           seq(k, i => -1), seq(k, i => '?'), seq(k, i => [])[n.start := [n.start]])
  }

  function Relax(n: Net, l: Labels, from: nat, v: nat, d: int): (r: Labels)
    requires Shaped(n, l) && from < |n.t| && v < |n.t|
    ensures Shaped(n, r) && r.done == l.done
  {
    if d < l.dist[v] then
      l.(dist := l.dist[v := d], prev := l.prev[v := from],
         swNum := l.swNum[v := SwNum(n.t, from)], swDir := l.swDir[v := SwDir(n.t, from, v)],
         path := l.path[v := l.path[from] + [v]])
    else l
  }

  /** Length of the part of the segment before its node `i`, counted from `u`. */
  function Reach(t: Layout, u: nat, seg: seq<nat>, i: nat): int
    requires u < |t| && InRange(t, seg) && i <= |seg|
  {
    Cost(t, [u] + seg[..i])
  }

  function From(u: nat, seg: seq<nat>, i: nat): nat
    requires i <= |seg|
  {
    if i == 0 then u else seg[i - 1]
  }

  /** The distance the walk offers node `i` of the segment. */
  function Offer(n: Net, l: Labels, u: nat, seg: seq<nat>, i: nat): int
    requires Shaped(n, l) && u < |n.t| && InRange(n.t, seg) && i < |seg|
  {
    l.dist[u] + Reach(n.t, u, seg, i + 1)
  }

  function Step(n: Net, l: Labels, u: nat, seg: seq<nat>, i: nat): (r: Labels)
    requires Shaped(n, l) && u < |n.t| && InRange(n.t, seg) && i < |seg|
    ensures Shaped(n, r) && r.done == l.done
  {
    Relax(n, l, From(u, seg, i), seg[i], Offer(n, l, u, seg, i))
  }

  /** Relax the nodes seg[i..], stopping at a barred node and after a branch or an exit. */
  function Walk(n: Net, l: Labels, u: nat, seg: seq<nat>, i: nat): (r: Labels)
    requires Shaped(n, l) && u < |n.t| && InRange(n.t, seg) && i <= |seg|
    ensures Shaped(n, r) && r.done == l.done
    decreases |seg| - i
  {
    if i == |seg| || Barred(n, seg[i]) then l
    else
      var m := Step(n, l, u, seg, i);
      if Ends(n.t, seg[i]) then m else Walk(n, m, u, seg, i + 1)
  }

  /** Expand a settled hub: every direction its kind and its pin allow, straight first. */
  function Expand(n: Net, l: Labels, u: nat): (r: Labels)
    requires Shaped(n, l) && u < |n.t|
    ensures Shaped(n, r)
  {
    var m := if Allows(n, u, 0) then Walk(n, l, u, Segment(n.t, u, 0), 0) else l;
    if n.t[u].kind == Branch && Allows(n, u, 1) then Walk(n, m, u, Segment(n.t, u, 1), 0) else m
  }

  function Settle(l: Labels, u: nat): Labels
    requires u < |l.done|
  {
    l.(done := l.done[u := true])
  }

  /** The nodes still to settle; each search terminates because it shrinks. */
  function Undone(done: seq<bool>): set<nat> {
    set i: nat | i < |done| && !done[i]
  }

  lemma UndoneShrinks(done: seq<bool>, u: nat)
    requires u < |done| && !done[u]
    ensures Undone(done[u := true]) == Undone(done) - {u} && |Undone(done[u := true])| < |Undone(done)|
  {
    assert u in Undone(done);
    assert Undone(done[u := true]) == Undone(done) - {u};
  }

  // ---------- the invariant ----------

  /** The node at position `j` of `p` is labelled no worse than by `p` itself. */
  predicate Covers(n: Net, l: Labels, p: seq<nat>, j: nat)
    requires Shaped(n, l) && InRange(n.t, p) && j < |p|
  {
    l.dist[p[j]] <= Cost(n.t, p[..j + 1])
  }

  /** The label of `v` is the cost of a simple real path that ends with its predecessor's own path.
      Only along a hole may the predecessor have improved since, and then strictly. */
  ghost predicate LabelOk(n: Net, l: Labels, v: nat, holes: Holes)
    requires Shaped(n, l) && v < |n.t|
  {
    var p := l.path[v];
    if l.dist[v] == INF then v != n.start && l.prev[v] == -1
    else
      Joins(n, p, n.start, v) && Cost(n.t, p) == l.dist[v] && Distinct(p) &&
      (forall j :: 0 <= j < |p| ==> Covers(n, l, p, j)) &&
      if v == n.start then p == [v] && l.prev[v] == -1
      else
        |p| >= 2 && l.done[n.start] &&
        var f := p[|p| - 2];
        l.prev[v] == f && l.swNum[v] == SwNum(n.t, f) && l.swDir[v] == SwDir(n.t, f, v) &&
        l.dist[f] < INF && !Pending(n, l, f) &&
        (l.path[f] == Init(p) ||
         ((f, v) in holes && l.dist[f] + LegLen(n.t, f, v) < l.dist[v]))
  }

  /** The edge from `x` to `v` cannot improve `v`. */
  predicate Closed(n: Net, l: Labels, x: nat, v: nat, holes: Holes)
    requires Shaped(n, l) && x < |n.t| && v < |n.t|
  {
    Edge(n, x, v) && l.dist[x] < INF && !Pending(n, l, x) && (x, v) !in holes ==>
      l.dist[v] <= l.dist[x] + LegLen(n.t, x, v)
  }

  ghost predicate DoneOk(n: Net, l: Labels, x: nat)
    requires Shaped(n, l) && x < |n.t|
  {
    l.done[x] ==> l.dist[x] < INF && NoShorter(n, n.start, x, l.dist[x])
  }

  ghost predicate Inv(n: Net, l: Labels, holes: Holes) {
    Shaped(n, l) &&
    (forall v :: 0 <= v < |n.t| ==> LabelOk(n, l, v, holes)) &&
    (forall x, v :: 0 <= x < |n.t| && 0 <= v < |n.t| ==> Closed(n, l, x, v, holes)) &&
    (forall x :: 0 <= x < |n.t| ==> DoneOk(n, l, x))
  }

  lemma InitialInv(n: Net)
    requires NetOk(n)
    ensures Inv(n, Initial(n), {})
  {
    var l := Initial(n);
    assert LabelOk(n, l, n.start, {});
  }

  lemma LabelRange(n: Net, l: Labels, v: nat, holes: Holes)
    requires Shaped(n, l) && v < |n.t| && LabelOk(n, l, v, holes) && l.dist[v] != INF
    ensures 0 <= l.dist[v] <= LongestPath(n.t) < INF && |l.path[v]| <= |n.t|
  {
    CostRange(n, l.path[v]);
    Pigeonhole(l.path[v], |n.t|);
  }

  lemma DropHole(n: Net, l: Labels, holes: Holes, x: nat, v: int)
    requires Inv(n, l, holes + {(x, v)}) && x < |n.t|
    requires v < 0 || !Edge(n, x, v)
    ensures Inv(n, l, holes)
  {
    forall w | 0 <= w < |n.t| ensures LabelOk(n, l, w, holes) {
      assert LabelOk(n, l, w, holes + {(x, v)});
      var p := l.path[w];
      if l.dist[w] != INF && w != n.start {
        assert Hop(n, p, |p| - 2);
      }
    }
    forall y, w | 0 <= y < |n.t| && 0 <= w < |n.t| ensures Closed(n, l, y, w, holes) {
      assert Closed(n, l, y, w, holes + {(x, v)});
    }
  }

  lemma MoreHoles(n: Net, l: Labels, holes: Holes, more: Holes)
    requires Inv(n, l, holes)
    ensures Inv(n, l, holes + more)
  {
    forall w | 0 <= w < |n.t| ensures LabelOk(n, l, w, holes + more) {
      assert LabelOk(n, l, w, holes);
    }
    forall y, w | 0 <= y < |n.t| && 0 <= w < |n.t| ensures Closed(n, l, y, w, holes + more) {
      assert Closed(n, l, y, w, holes);
    }
  }

  // ---------- relaxing one node ----------

  /** The hole that improving `v` can open: its single way on. */
  function Way(t: Layout, v: nat): Holes
    requires v < |t|
  {
    if Ends(t, v) then {} else {(v, t[v].ahead.dest)}
  }

  lemma UnchangedKeeps(n: Net, l: Labels, holes: Holes, from: nat, v: nat)
    requires Inv(n, l, holes + {(from, v)}) && Edge(n, from, v)
    requires l.dist[v] <= l.dist[from] + LegLen(n.t, from, v)
    ensures Inv(n, l, holes)
  {
    forall w | 0 <= w < |n.t| ensures LabelOk(n, l, w, holes) {
      assert LabelOk(n, l, w, holes + {(from, v)});
    }
    forall y, w | 0 <= y < |n.t| && 0 <= w < |n.t| ensures Closed(n, l, y, w, holes) {
      assert Closed(n, l, y, w, holes + {(from, v)});
    }
  }

  /** A strict improvement comes over the hole itself, never reaches a settled node, and keeps paths simple. */
  lemma ImprovedNode(n: Net, l: Labels, holes: Holes, from: nat, v: nat)
    requires Inv(n, l, holes + {(from, v)}) && Edge(n, from, v) && l.dist[from] < INF
    requires l.dist[from] + LegLen(n.t, from, v) < l.dist[v]
    ensures v != n.start && !l.done[v] && v !in l.path[from]
    ensures IsPath(n, l.path[from] + [v]) &&
            Cost(n.t, l.path[from] + [v]) == l.dist[from] + LegLen(n.t, from, v)
  {
    var p := l.path[from];
    assert LabelOk(n, l, from, holes + {(from, v)});
    assert LabelOk(n, l, n.start, holes + {(from, v)});
    EdgeLen(n, from, v);
    Extend(n, p, v);
    CostRange(n, p);
    if l.done[v] {
      assert DoneOk(n, l, v);
      assert Joins(n, p + [v], n.start, v);
    }
    if v in p {
      var j :| 0 <= j < |p| && p[j] == v;
      assert Covers(n, l, p, j);
      PathSplit(n, p, j);
      CostRange(n, p[j..]);
      assert false;
    }
  }

  lemma ImprovedRange(n: Net, l: Labels, holes: Holes, from: nat, v: nat)
    requires Inv(n, l, holes + {(from, v)}) && Edge(n, from, v) && l.dist[from] < INF
    requires l.dist[from] + LegLen(n.t, from, v) < l.dist[v]
    ensures Distinct(l.path[from] + [v]) && l.dist[from] + LegLen(n.t, from, v) < INF
  {
    ImprovedNode(n, l, holes, from, v);
    assert LabelOk(n, l, from, holes + {(from, v)});
    CostRange(n, l.path[from] + [v]);
    Pigeonhole(l.path[from] + [v], |n.t|);
  }

  lemma ImprovedPrefix(n: Net, l: Labels, holes: Holes, from: nat, v: nat, d: int, j: nat)
    requires Shaped(n, l) && from < |n.t| && v < |n.t| && l.dist[from] < INF
    requires LabelOk(n, l, from, holes) && j <= |l.path[from]|
    requires d < l.dist[v] && IsPath(n, l.path[from] + [v]) && Cost(n.t, l.path[from] + [v]) == d
    ensures var p := l.path[from] + [v];
            InRange(n.t, p) && Covers(n, Relax(n, l, from, v, d), p, j)
  {
    var p := l.path[from] + [v];
    if j < |p| - 1 {
      assert p[..j + 1] == l.path[from][..j + 1];
      assert Covers(n, l, l.path[from], j);
    } else {
      assert p[..j + 1] == p;
    }
  }

  lemma ImprovedSelf(n: Net, l: Labels, prior: Holes, from: nat, v: nat, d: int, holes: Holes)
    requires Shaped(n, l) && from < |n.t| && v < |n.t| && v != n.start && v !in l.path[from]
    requires LabelOk(n, l, from, prior) && l.dist[from] < INF && !Pending(n, l, from) && l.done[n.start]
    requires d < l.dist[v] && d < INF && Distinct(l.path[from] + [v])
    requires IsPath(n, l.path[from] + [v]) && Cost(n.t, l.path[from] + [v]) == d
    ensures LabelOk(n, Relax(n, l, from, v, d), v, holes)
  {
    var p, m := l.path[from] + [v], Relax(n, l, from, v, d);
    assert Init(p) == l.path[from];
    assert Last(l.path[from]) == from;
    assert from in l.path[from];
    forall j | 0 <= j < |p| ensures Covers(n, m, p, j) {
      ImprovedPrefix(n, l, prior, from, v, d, j);
    }
  }

  lemma ImprovedOther(n: Net, l: Labels, holes: Holes, from: nat, v: nat, d: int, w: nat)
    requires Inv(n, l, holes + {(from, v)}) && Edge(n, from, v) && l.dist[from] < INF
    requires !l.done[v] && v != n.start
    requires d == l.dist[from] + LegLen(n.t, from, v) < l.dist[v]
    requires w < |n.t| && w != v
    ensures LabelOk(n, Relax(n, l, from, v, d), w, holes + Way(n.t, v))
  {
    var m := Relax(n, l, from, v, d);
    assert LabelOk(n, l, w, holes + {(from, v)});
    var p := l.path[w];
    if l.dist[w] != INF {
      forall j | 0 <= j < |p| ensures Covers(n, m, p, j) {
        assert Covers(n, l, p, j);
      }
      if w != n.start && l.prev[w] == v {
        ImprovedChild(n, l, holes, from, v, w);
      }
    }
  }

  /** A node labelled from `v` is on the single way on from `v`, and its label is stale once `v` improves. */
  lemma ImprovedChild(n: Net, l: Labels, holes: Holes, from: nat, v: nat, w: nat)
    requires Inv(n, l, holes + {(from, v)}) && v < |n.t| && !l.done[v] && v != n.start
    requires w < |n.t| && l.dist[w] != INF && w != n.start && l.prev[w] == v
    ensures (v, w) in Way(n.t, v) && l.dist[v] + LegLen(n.t, v, w) <= l.dist[w]
  {
    assert LabelOk(n, l, w, holes + {(from, v)});
    InitPath(n, l.path[w]);
    if l.path[v] == Init(l.path[w]) {
      assert LabelOk(n, l, v, holes + {(from, v)});
    }
  }

  lemma ImprovedClosed(n: Net, l: Labels, holes: Holes, from: nat, v: nat, d: int, x: nat, w: nat)
    requires Inv(n, l, holes + {(from, v)}) && Edge(n, from, v) && l.dist[from] < INF
    requires d == l.dist[from] + LegLen(n.t, from, v) < l.dist[v] && v != n.start && !l.done[v]
    requires from != v
    requires x < |n.t| && w < |n.t|
    ensures Closed(n, Relax(n, l, from, v, d), x, w, holes + Way(n.t, v))
  {
    assert Closed(n, l, x, w, holes + {(from, v)});
  }

  lemma ImprovedKeeps(n: Net, l: Labels, holes: Holes, from: nat, v: nat, d: int)
    requires Inv(n, l, holes + {(from, v)}) && Edge(n, from, v) && l.dist[from] < INF
    requires !Pending(n, l, from) && l.done[n.start]
    requires d == l.dist[from] + LegLen(n.t, from, v) < l.dist[v]
    ensures Inv(n, Relax(n, l, from, v, d), holes + Way(n.t, v))
  {
    var m, h := Relax(n, l, from, v, d), holes + Way(n.t, v);
    ImprovedNode(n, l, holes, from, v);
    assert LabelOk(n, l, from, holes + {(from, v)});
    assert from in l.path[from] by {
      assert Last(l.path[from]) == from;
    }
    forall w | 0 <= w < |n.t| ensures LabelOk(n, m, w, h) {
      if w == v {
        ImprovedRange(n, l, holes, from, v);
        ImprovedSelf(n, l, holes + {(from, v)}, from, v, d, h);
      } else {
        ImprovedOther(n, l, holes, from, v, d, w);
      }
    }
    forall x, w | 0 <= x < |n.t| && 0 <= w < |n.t| ensures Closed(n, m, x, w, h) {
      ImprovedClosed(n, l, holes, from, v, d, x, w);
    }
    forall x | 0 <= x < |n.t| ensures DoneOk(n, m, x) {
      assert DoneOk(n, l, x);
    }
  }

  // ---------- walking a segment ----------

  /** Walking from `u` along `seg`, about to look at its node `i`: only the edge into that node may
      be open, and not even that one if the walk has already stopped improving labels. */
  ghost predicate Mid(n: Net, l: Labels, u: nat, seg: seq<nat>, i: nat, holes: Holes) {
    Shaped(n, l) && u < |n.t| && InRange(n.t, seg) && i <= |seg| &&
    l.done[u] && l.done[n.start] && l.dist[u] < INF &&
    var f := From(u, seg, i);
    !Pending(n, l, f) && l.dist[f] < INF && l.dist[f] <= l.dist[u] + Reach(n.t, u, seg, i) &&
    if i == |seg| then Inv(n, l, holes)
    else (f, seg[i]) !in holes && Inv(n, l, holes + {(f, seg[i])}) &&
         (l.dist[f] < l.dist[u] + Reach(n.t, u, seg, i) ==> Inv(n, l, holes))
  }

  lemma ReachNext(t: Layout, u: nat, seg: seq<nat>, i: nat)
    requires u < |t| && InRange(t, seg) && i < |seg|
    ensures Reach(t, u, seg, i + 1) == Reach(t, u, seg, i) + LegLen(t, From(u, seg, i), seg[i])
  {
    assert Init([u] + seg[..i + 1]) == [u] + seg[..i];
  }

  /** `seg` is what lies beyond `u` in an allowed direction. */
  predicate IsLeg(n: Net, u: nat, dir: nat, seg: seq<nat>) {
    NetOk(n) && u < |n.t| && dir <= 1 && Allows(n, u, dir) && seg == Segment(n.t, u, dir)
  }

  lemma SegmentEdge(n: Net, u: nat, dir: nat, seg: seq<nat>, i: nat)
    requires IsLeg(n, u, dir, seg) && i < |seg| && !Barred(n, seg[i])
    ensures Edge(n, From(u, seg, i), seg[i])
  {
    SegmentNext(n.t, u, dir, i);
    if i > 0 {
      SegmentNext(n.t, u, dir, i - 1);
    }
  }

  /** One relaxation of the walk: it improves the node and moves the hole on, or changes nothing. */
  lemma RelaxKeeps(n: Net, l: Labels, u: nat, dir: nat, seg: seq<nat>, i: nat, holes: Holes)
    requires IsLeg(n, u, dir, seg) && i < |seg| && !Barred(n, seg[i]) && Mid(n, l, u, seg, i, holes)
    ensures var m := Step(n, l, u, seg, i);
            m.dist[seg[i]] <= Offer(n, l, u, seg, i) && m.dist[seg[i]] < INF &&
            if Offer(n, l, u, seg, i) < l.dist[seg[i]]
            then Inv(n, m, holes + Way(n.t, seg[i])) && !l.done[seg[i]]
            else m == l && Inv(n, l, holes)
  {
    var f, v, d := From(u, seg, i), seg[i], Offer(n, l, u, seg, i);
    SegmentEdge(n, u, dir, seg, i);
    ReachNext(n.t, u, seg, i);
    assert l.dist[f] + LegLen(n.t, f, v) < INF by {
      assert LabelOk(n, l, f, holes + {(f, v)});
      LabelRange(n, l, f, holes + {(f, v)});
      EdgeLen(n, f, v);
    }
    if l.dist[f] < l.dist[u] + Reach(n.t, u, seg, i) {
      assert Closed(n, l, f, v, holes);
    } else if d < l.dist[v] {
      ImprovedNode(n, l, holes, f, v);
      ImprovedKeeps(n, l, holes, f, v, d);
    } else {
      UnchangedKeeps(n, l, holes, f, v);
    }
  }

  /** The holes left for a branch's other leg while one leg is walked. */
  predicate OtherLeg(n: Net, u: nat, holes: Holes)
    requires NetOk(n) && u < |n.t|
  {
    forall h :: h in holes ==> h.0 == u && n.t[u].kind == Branch
  }

  lemma MidNext(n: Net, l: Labels, u: nat, dir: nat, seg: seq<nat>, i: nat, holes: Holes)
    requires IsLeg(n, u, dir, seg) && i < |seg| && !Barred(n, seg[i])
    requires Mid(n, l, u, seg, i, holes) && OtherLeg(n, u, holes)
    ensures var m := Step(n, l, u, seg, i);
            if Ends(n.t, seg[i]) then Inv(n, m, holes) else Mid(n, m, u, seg, i + 1, holes)
  {
    var v, m := seg[i], Step(n, l, u, seg, i);
    RelaxKeeps(n, l, u, dir, seg, i, holes);
    SegmentNext(n.t, u, dir, i);
    if Ends(n.t, v) {
      assert holes + {} == holes;
    } else {
      if m == l {
        MoreHoles(n, m, holes, Way(n.t, v));
      }
      if i + 1 == |seg| {
        DropHole(n, m, holes, v, n.t[v].ahead.dest);
      }
    }
  }

  lemma {:induction false} WalkKeeps(n: Net, l: Labels, u: nat, dir: nat, seg: seq<nat>, i: nat, holes: Holes)
    requires IsLeg(n, u, dir, seg) && Mid(n, l, u, seg, i, holes) && OtherLeg(n, u, holes)
    ensures Inv(n, Walk(n, l, u, seg, i), holes)
    decreases |seg| - i
  {
    if i == |seg| {
    } else if Barred(n, seg[i]) {
      DropHole(n, l, holes, From(u, seg, i), seg[i]);
    } else {
      MidNext(n, l, u, dir, seg, i, holes);
      if !Ends(n.t, seg[i]) {
        WalkKeeps(n, Step(n, l, u, seg, i), u, dir, seg, i + 1, holes);
      }
    }
  }

  /** A walk only lowers labels. */
  lemma {:induction false} WalkLowers(n: Net, l: Labels, u: nat, seg: seq<nat>, i: nat, v: nat)
    requires Shaped(n, l) && u < |n.t| && InRange(n.t, seg) && i <= |seg| && v < |n.t|
    ensures Walk(n, l, u, seg, i).dist[v] <= l.dist[v]
    decreases |seg| - i
  {
    if i < |seg| && !Barred(n, seg[i]) && !Ends(n.t, seg[i]) {
      WalkLowers(n, Step(n, l, u, seg, i), u, seg, i + 1, v);
    }
  }

  // ---------- settling and expanding a hub ----------

  function Curve(n: Net, u: nat): Holes
    requires NetOk(n) && u < |n.t|
  {
    if n.t[u].kind == Branch then {(u, n.t[u].curved.dest)} else {}
  }

  lemma SettleKeeps(n: Net, l: Labels, u: nat)
    requires Inv(n, l, {}) && u < |n.t| && Hub(n, u) && l.dist[u] < INF
    requires NoShorter(n, n.start, u, l.dist[u])
    ensures Inv(n, Settle(l, u), Curve(n, u) + {(u, n.t[u].ahead.dest)})
    ensures Settle(l, u).done[n.start]
  {
    var m, h := Settle(l, u), Curve(n, u) + {(u, n.t[u].ahead.dest)};
    assert LabelOk(n, l, u, {});
    forall w | 0 <= w < |n.t| ensures LabelOk(n, m, w, h) {
      assert LabelOk(n, l, w, {});
      if l.dist[w] != INF {
        forall j | 0 <= j < |l.path[w]| ensures Covers(n, m, l.path[w], j) {
          assert Covers(n, l, l.path[w], j);
        }
      }
    }
    forall y, w | 0 <= y < |n.t| && 0 <= w < |n.t| ensures Closed(n, m, y, w, h) {
      assert Closed(n, l, y, w, {});
    }
    forall x | 0 <= x < |n.t| ensures DoneOk(n, m, x) {
      assert DoneOk(n, l, x);
    }
  }

  lemma LegKeeps(n: Net, l: Labels, u: nat, dir: nat, holes: Holes)
    requires NetOk(n) && u < |n.t| && (dir == 0 || (dir == 1 && n.t[u].kind == Branch))
    requires Inv(n, l, holes + {(u, LegAt(n.t, u, dir).dest)}) && OtherLeg(n, u, holes)
    requires LegAt(n.t, u, dir).dest >= 0 ==> (u, LegAt(n.t, u, dir).dest) !in holes
    requires l.done[u] && l.done[n.start] && l.dist[u] < INF
    ensures var m := if Allows(n, u, dir) then Walk(n, l, u, Segment(n.t, u, dir), 0) else l;
            Inv(n, m, holes) && m.done == l.done && m.dist[u] < INF
  {
    var seg := Segment(n.t, u, dir);
    assert NodeOk(n.t, u);
    assert [u] + seg[..0] == [u];
    if !Allows(n, u, dir) || seg == [] {
      DropHole(n, l, holes, u, LegAt(n.t, u, dir).dest);
    }
    if Allows(n, u, dir) {
      WalkLowers(n, l, u, seg, 0, u);
      WalkKeeps(n, l, u, dir, seg, 0, holes);
    }
  }

  /** Settling a hub whose label is final and expanding it keeps the invariant. */
  lemma ExpandKeeps(n: Net, l: Labels, u: nat)
    requires Inv(n, l, {}) && u < |n.t| && Hub(n, u) && l.dist[u] < INF
    requires NoShorter(n, n.start, u, l.dist[u])
    ensures Inv(n, Expand(n, Settle(l, u), u), {})
    ensures Expand(n, Settle(l, u), u).done == l.done[u := true]
  {
    var m := Settle(l, u);
    SettleKeeps(n, l, u);
    assert NodeOk(n.t, u);
    LegKeeps(n, m, u, 0, Curve(n, u));
    var k := if Allows(n, u, 0) then Walk(n, m, u, Segment(n.t, u, 0), 0) else m;
    if n.t[u].kind == Branch {
      assert Curve(n, u) == {} + {(u, n.t[u].curved.dest)};
      LegKeeps(n, k, u, 1, {});
    }
  }

  // ---------- optimality ----------

  /** On any path from the start, either the last label is already no worse than the path, or a
      pending hub on the way has a label no worse than the path up to it. */
  lemma {:induction false} Frontier(n: Net, l: Labels, p: seq<nat>) returns (i: nat)
    requires Inv(n, l, {}) && IsPath(n, p) && p[0] == n.start
    ensures i < |p| && l.dist[p[i]] <= Cost(n.t, p[..i + 1]) && l.dist[p[i]] < INF
    ensures i == |p| - 1 || Pending(n, l, p[i])
    decreases |p|
  {
    if |p| == 1 {
      assert LabelOk(n, l, n.start, {});
      i := 0;
      assert p[..1] == p;
    } else {
      InitPath(n, p);
      i := Frontier(n, l, Init(p));
      assert Init(p)[..i + 1] == p[..i + 1];
      if i == |p| - 2 && !Pending(n, l, p[i]) {
        assert Closed(n, l, p[i], Last(p), {});
        assert p[..i + 1] == Init(p);
        i := |p| - 1;
        assert p[..i + 1] == p;
        assert LabelOk(n, l, p[|p| - 2], {});
        LabelRange(n, l, p[|p| - 2], {});
        EdgeLen(n, p[|p| - 2], Last(p));
      }
    }
  }

  /** A label that no pending hub can undercut is a shortest distance. */
  lemma FinalLabel(n: Net, l: Labels, u: nat)
    requires Inv(n, l, {}) && u < |n.t|
    requires forall x, p :: 0 <= x < |n.t| && Pending(n, l, x) && l.dist[x] < INF && Joins(n, p, x, u) ==>
               l.dist[u] <= l.dist[x] + Cost(n.t, p)
    ensures NoShorter(n, n.start, u, l.dist[u])
  {
    forall p | Joins(n, p, n.start, u) ensures l.dist[u] <= Cost(n.t, p) {
      var i := Frontier(n, l, p);
      if i < |p| - 1 {
        PathSplit(n, p, i);
        assert Joins(n, p[i..], p[i], u);
      } else {
        assert p[..i + 1] == p;
      }
    }
  }
}
