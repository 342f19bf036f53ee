/** What route_search_leg_astar computes, as a function of its inputs, and why its answer is
    the node-by-node shortest path. The open list is a multiset of (packed key, node) pairs. */
module AStarSpec {
  import opened Track
  import opened Labels

  type Entry = (int, nat)

  /** `h` is the column of the free-track table for `goal`; `ub` is upper_bound_mm, INF for none. */
  datatype Query = Query(net: Net, goal: nat, h: seq<int>, ub: int)

  /** `settled` is the order in which nodes were taken from the open list for the first time. */
  datatype Search = Search(l: Labels, open: multiset<Entry>, settled: seq<nat>)

  ghost predicate QueryOk(q: Query) {
    NetOk(q.net) && q.goal < |q.net.t| && |q.h| == |q.net.t| && 0 <= q.ub <= INF &&
    (forall x :: 0 <= x < |q.h| ==> HeuristicOk(q, x))
  }

  ghost predicate HeuristicOk(q: Query, x: nat)
    requires NetOk(q.net) && x < |q.h|
  {
    NetOk(FreeNet(q.net.t, 0)) && IsDistance(FreeNet(q.net.t, 0), x, q.goal, q.h[x])
  }

  /** route_open_key on 32-bit words: the f-cost above an 8-bit node index. */
  function OpenKey(g: int, h: int, x: nat): int {
    ((g + h) * 256) % 0x1_0000_0000 + x % 256
  }

  function FCost(e: Entry): int {
    e.0 / 256
  }

  predicate Within(q: Query, f: int) {
    q.ub == INF || f <= q.ub
  }

  /** No key overflows: packed keys compare like (f-cost, node). */
  lemma KeyOrder(f: int, x: nat, g: int, y: nat)
    requires 0 <= f < 0x100_0000 && 0 <= g < 0x100_0000 && x < 256 && y < 256
    ensures OpenKey(f, 0, x) <= OpenKey(g, 0, y) <==> f < g || (f == g && x <= y)
    ensures FCost((OpenKey(f, 0, x), x)) == f && OpenKey(f, 0, x) % 256 == x
  {
  }

  // ---------- the search as a function ----------

  predicate Fit(q: Query, s: Search) {
    Shaped(q.net, s.l) && q.goal < |q.net.t| && |q.h| == |q.net.t| &&
    forall e :: e in s.open ==> e.1 < |q.net.t|
  }

  /** route_push_open. */
  function Push(q: Query, s: Search, v: nat): (r: Search)
    requires Fit(q, s) && v < |q.net.t|
    ensures Fit(q, r) && r.l == s.l && r.settled == s.settled
  {
    if s.l.dist[v] == INF || q.h[v] == INF || !Within(q, s.l.dist[v] + q.h[v]) then s
    else s.(open := s.open + multiset{(OpenKey(s.l.dist[v], q.h[v], v), v)})
  }

  function RelaxOpen(q: Query, s: Search, from: nat, v: nat, d: int): (r: Search)
    requires Fit(q, s) && from < |q.net.t| && v < |q.net.t|
    ensures Fit(q, r) && r.l == Relax(q.net, s.l, from, v, d) && r.settled == s.settled
  {
    var m := s.(l := Relax(q.net, s.l, from, v, d));
    if d < s.l.dist[v] && !s.l.done[v] && (v == q.goal || q.net.t[v].kind == Branch) then Push(q, m, v)
    else m
  }

  function StepOpen(q: Query, s: Search, u: nat, seg: seq<nat>, i: nat): (r: Search)
    requires Fit(q, s) && u < |q.net.t| && InRange(q.net.t, seg) && i < |seg|
    ensures Fit(q, r) && r.l == Step(q.net, s.l, u, seg, i) && r.settled == s.settled
  {
    RelaxOpen(q, s, From(u, seg, i), seg[i], Offer(q.net, s.l, u, seg, i))
  }

  /** route_expand_segment from its node `i` on. */
  function WalkOpen(q: Query, s: Search, u: nat, seg: seq<nat>, i: nat): (r: Search)
    requires Fit(q, s) && u < |q.net.t| && InRange(q.net.t, seg) && i <= |seg|
    ensures Fit(q, r) && r.settled == s.settled && r.l.done == s.l.done
    decreases |seg| - i
  {
    if i == |seg| || Barred(q.net, seg[i]) then s
    else
      var m := StepOpen(q, s, u, seg, i);
      if Ends(q.net.t, seg[i]) then m else WalkOpen(q, m, u, seg, i + 1)
  }

  function ExpandOpen(q: Query, s: Search, u: nat): (r: Search)
    requires Fit(q, s) && u < |q.net.t|
    ensures Fit(q, r) && r.settled == s.settled && r.l.done == s.l.done
  {
    var m := if Allows(q.net, u, 0) then WalkOpen(q, s, u, Segment(q.net.t, u, 0), 0) else s;
    if q.net.t[u].kind == Branch && Allows(q.net, u, 1) then WalkOpen(q, m, u, Segment(q.net.t, u, 1), 0) else m
  }

  /** The open list never influences the labels of a walk. */
  lemma {:induction false} WalkOpenLabels(q: Query, s: Search, u: nat, seg: seq<nat>, i: nat)
    requires Fit(q, s) && u < |q.net.t| && InRange(q.net.t, seg) && i <= |seg|
    ensures WalkOpen(q, s, u, seg, i).l == Walk(q.net, s.l, u, seg, i)
    decreases |seg| - i
  {
    if i < |seg| && !Barred(q.net, seg[i]) && !Ends(q.net.t, seg[i]) {
      WalkOpenLabels(q, StepOpen(q, s, u, seg, i), u, seg, i + 1);
    }
  }

  lemma ExpandOpenLabels(q: Query, s: Search, u: nat)
    requires Fit(q, s) && u < |q.net.t|
    ensures ExpandOpen(q, s, u).l == Expand(q.net, s.l, u)
  {
    WalkOpenLabels(q, s, u, Segment(q.net.t, u, 0), 0);
    var m := if Allows(q.net, u, 0) then WalkOpen(q, s, u, Segment(q.net.t, u, 0), 0) else s;
    WalkOpenLabels(q, m, u, Segment(q.net.t, u, 1), 0);
  }

  predicate Before(a: Entry, b: Entry) {
    a.0 < b.0 || (a.0 == b.0 && a.1 <= b.1)
  }

  ghost predicate IsFirst(e: Entry, open: multiset<Entry>) {
    e in open && forall o :: o in open ==> Before(e, o)
  }

  lemma {:induction false} FirstExists(open: multiset<Entry>)
    requires open != multiset{}
    ensures exists e :: IsFirst(e, open)
    decreases |open|
  {
    var o :| o in open;
    var rest := open - multiset{o};
    if rest == multiset{} {
      assert open == multiset{o};
      assert IsFirst(o, open);
    } else {
      FirstExists(rest);
      var e :| IsFirst(e, rest);
      assert forall x :: x in open ==> x == o || x in rest;
      assert IsFirst(if Before(e, o) then e else o, open);
    }
  }

  ghost function First(open: multiset<Entry>): (e: Entry)
    requires open != multiset{}
    ensures IsFirst(e, open)
  {
    FirstExists(open);
    var e :| IsFirst(e, open);
    e
  }

  function Start(q: Query): (s: Search)
    requires NetOk(q.net) && q.goal < |q.net.t| && |q.h| == |q.net.t|
    ensures Fit(q, s)
  {
    Push(q, Search(Initial(q.net), multiset{}, []), q.net.start)
  }

  function Pop(s: Search, e: Entry): Search {
    s.(open := s.open - multiset{e})
  }

  function Take(s: Search, e: Entry): Search
    requires e.1 < |s.l.done|
  {
    Search(Settle(s.l, e.1), s.open - multiset{e}, s.settled + [e.1])
  }

  /** The main loop: pop the first entry, skip it if settled, stop at the goal, else expand. */
  ghost function Run(q: Query, s: Search): (r: Search)
    requires Fit(q, s)
    ensures Fit(q, r)
    decreases |Undone(s.l.done)|, |s.open|
  {
    if s.open == multiset{} then s
    else
      var e := First(s.open);
      if s.l.done[e.1] then Run(q, Pop(s, e))
      else
        UndoneShrinks(s.l.done, e.1);
        if e.1 == q.goal then Take(s, e)
        else Run(q, ExpandOpen(q, Take(s, e), e.1))
  }

  // ---------- the invariant of the main loop ----------

  predicate Listed(q: Query, x: nat)
    requires NetOk(q.net) && x < |q.net.t|
  {
    Hub(q.net, x) || x == q.goal
  }

  /** An entry carries an f-cost its node once had, so at least the one it has now. */
  predicate EntryOk(q: Query, s: Search, e: Entry)
    requires Fit(q, s)
  {
    e.1 < |q.net.t| && Listed(q, e.1) && s.l.dist[e.1] < INF && q.h[e.1] < INF &&
    s.l.dist[e.1] + q.h[e.1] <= FCost(e) < 0x100_0000 && 0 <= FCost(e) && Within(q, FCost(e)) &&
    e.0 == OpenKey(FCost(e), 0, e.1)
  }

  predicate Waits(q: Query, s: Search, x: nat)
    requires Fit(q, s) && x < |q.net.t|
  {
    Listed(q, x) && !s.l.done[x] && s.l.dist[x] < INF && q.h[x] < INF &&
    Within(q, s.l.dist[x] + q.h[x])
  }

  /** Every unsettled hub that can still matter is in the open list under its current f-cost. */
  predicate Queued(q: Query, s: Search, x: nat)
    requires Fit(q, s) && x < |q.net.t|
  {
    Waits(q, s, x) ==> (OpenKey(s.l.dist[x], q.h[x], x), x) in s.open
  }

  ghost predicate OpenInv(q: Query, s: Search) {
    Fit(q, s) &&
    (forall e :: e in s.open ==> EntryOk(q, s, e)) &&
    (forall x :: 0 <= x < |q.net.t| ==> Queued(q, s, x))
  }

  predicate OrderInv(q: Query, s: Search)
    requires Fit(q, s)
  {
    Distinct(s.settled) && (forall x :: 0 <= x < |q.net.t| ==> (s.l.done[x] <==> x in s.settled)) &&
    (forall i :: 0 <= i < |s.settled| ==> s.settled[i] < |q.net.t|) &&
    |s.open| <= 4 * |s.settled| + 1
  }

  ghost predicate SearchInv(q: Query, s: Search) {
    QueryOk(q) && OpenInv(q, s) && Inv(q.net, s.l, {}) && OrderInv(q, s) && !s.l.done[q.goal]
  }

  lemma HeuristicRange(q: Query, x: nat)
    requires QueryOk(q) && x < |q.h| && q.h[x] != INF
    ensures 0 <= q.h[x] <= LongestPath(q.net.t)
  {
    assert HeuristicOk(q, x);
  }

  lemma GoalHeuristic(q: Query)
    requires QueryOk(q)
    ensures q.h[q.goal] == 0
  {
    assert HeuristicOk(q, q.goal);
    assert Joins(FreeNet(q.net.t, 0), [q.goal], q.goal, q.goal);
  }

  /** The free-track table is a consistent heuristic for every constrained net. */
  lemma Consistent(q: Query, p: seq<nat>, x: nat, y: nat)
    requires QueryOk(q) && Joins(q.net, p, x, y) && q.h[y] != INF
    ensures q.h[x] != INF && q.h[x] <= Cost(q.net.t, p) + q.h[y]
  {
    var free := FreeNet(q.net.t, 0);
    assert HeuristicOk(q, x) && HeuristicOk(q, y);
    PathIsFree(q.net, 0, p);
    var r :| Joins(free, r, y, q.goal) && Cost(free.t, r) == q.h[y];
    CostJoin(free, p, r);
    assert Joins(free, p + r[1..], x, q.goal);
  }

  lemma StartInv(q: Query)
    requires QueryOk(q)
    ensures OpenInv(q, Start(q)) && Inv(q.net, Start(q).l, {}) && OrderInv(q, Start(q))
    ensures SearchInv(q, Start(q))
  {
    InitialInv(q.net);
    var x := q.net.start;
    if q.h[x] != INF {
      HeuristicRange(q, x);
      KeyOrder(q.h[x], x, q.h[x], x);
    }
  }

  // ---------- one relaxation ----------

  lemma PushKeeps(q: Query, s: Search, v: nat)
    requires QueryOk(q) && Fit(q, s) && v < |q.net.t| && Listed(q, v)
    requires forall e :: e in s.open ==> EntryOk(q, s, e)
    requires forall x :: 0 <= x < |q.net.t| && x != v ==> Queued(q, s, x)
    requires 0 <= s.l.dist[v] <= LongestPath(q.net.t)
    ensures OpenInv(q, Push(q, s, v))
  {
    var r := Push(q, s, v);
    if q.h[v] != INF {
      HeuristicRange(q, v);
      var f := s.l.dist[v] + q.h[v];
      KeyOrder(f, v, f, v);
      forall e | e in r.open ensures EntryOk(q, r, e) {
        if e in s.open {
          assert EntryOk(q, s, e);
        }
      }
    }
    forall x | 0 <= x < |q.net.t| ensures Queued(q, r, x) {
      if x != v {
        assert Queued(q, s, x);
      }
    }
  }

  lemma LoweredKeeps(q: Query, s: Search, from: nat, v: nat, d: int)
    requires OpenInv(q, s) && from < |q.net.t| && v < |q.net.t| && d < s.l.dist[v] && d < INF
    ensures var m := s.(l := Relax(q.net, s.l, from, v, d));
            Fit(q, m) && (forall e :: e in m.open ==> EntryOk(q, m, e)) &&
            (forall x :: 0 <= x < |q.net.t| && x != v ==> Queued(q, m, x))
  {
    var m := s.(l := Relax(q.net, s.l, from, v, d));
    forall e | e in m.open ensures EntryOk(q, m, e) {
      assert EntryOk(q, s, e);
    }
    forall x | 0 <= x < |q.net.t| && x != v ensures Queued(q, m, x) {
      assert Queued(q, s, x);
    }
  }

  lemma RelaxOpenKeeps(q: Query, s: Search, from: nat, v: nat, d: int)
    requires QueryOk(q) && OpenInv(q, s) && from < |q.net.t| && v < |q.net.t|
    requires d < s.l.dist[v] ==> v != q.net.start && 0 <= d <= LongestPath(q.net.t)
    ensures OpenInv(q, RelaxOpen(q, s, from, v, d))
  {
    if d < s.l.dist[v] {
      LoweredKeeps(q, s, from, v, d);
      var m := s.(l := Relax(q.net, s.l, from, v, d));
      if v == q.goal || q.net.t[v].kind == Branch {
        PushKeeps(q, m, v);
      } else {
        assert Queued(q, m, v);
      }
    }
  }

  /** A lowered label is the cost of a simple path, and the start keeps distance 0. */
  lemma LoweredRange(n: Net, l: Labels, u: nat, dir: nat, seg: seq<nat>, i: nat, holes: Holes)
    requires IsLeg(n, u, dir, seg) && i < |seg| && !Barred(n, seg[i]) && Mid(n, l, u, seg, i, holes)
    requires Offer(n, l, u, seg, i) < l.dist[seg[i]]
    ensures seg[i] != n.start && 0 <= Offer(n, l, u, seg, i) <= LongestPath(n.t)
  {
    var f, v := From(u, seg, i), seg[i];
    RelaxKeeps(n, l, u, dir, seg, i, holes);
    var m, h := Step(n, l, u, seg, i), holes + Way(n.t, v);
    assert LabelOk(n, m, v, h);
    LabelRange(n, m, v, h);
    assert LabelOk(n, l, n.start, holes + {(f, v)});
  }

  /** Walking from `u`: the open list is sound and at most the edge into node `i` is open. */
  ghost predicate MidOpen(q: Query, s: Search, u: nat, dir: nat, seg: seq<nat>, i: nat, holes: Holes) {
    OpenInv(q, s) && IsLeg(q.net, u, dir, seg) && OtherLeg(q.net, u, holes) &&
    Mid(q.net, s.l, u, seg, i, holes)
  }

  lemma StepOpenKeeps(q: Query, s: Search, u: nat, dir: nat, seg: seq<nat>, i: nat, holes: Holes)
    requires QueryOk(q) && MidOpen(q, s, u, dir, seg, i, holes) && i < |seg| && !Barred(q.net, seg[i])
    ensures OpenInv(q, StepOpen(q, s, u, seg, i))
  {
    if Offer(q.net, s.l, u, seg, i) < s.l.dist[seg[i]] {
      LoweredRange(q.net, s.l, u, dir, seg, i, holes);
    }
    RelaxOpenKeeps(q, s, From(u, seg, i), seg[i], Offer(q.net, s.l, u, seg, i));
  }

  /** MidOpen moves on with the walk. */
  lemma MidOpenNext(q: Query, s: Search, u: nat, dir: nat, seg: seq<nat>, i: nat, holes: Holes)
    requires QueryOk(q) && MidOpen(q, s, u, dir, seg, i, holes) && i < |seg| && !Barred(q.net, seg[i])
    requires !Ends(q.net.t, seg[i])
    ensures MidOpen(q, StepOpen(q, s, u, seg, i), u, dir, seg, i + 1, holes)
  {
    StepOpenKeeps(q, s, u, dir, seg, i, holes);
    MidNext(q.net, s.l, u, dir, seg, i, holes);
  }

  lemma WalkOpenStep(q: Query, s: Search, u: nat, seg: seq<nat>, i: nat)
    requires Fit(q, s) && u < |q.net.t| && InRange(q.net.t, seg) && i < |seg| && !Barred(q.net, seg[i])
    ensures WalkOpen(q, s, u, seg, i) ==
              var m := StepOpen(q, s, u, seg, i);
              if Ends(q.net.t, seg[i]) then m else WalkOpen(q, m, u, seg, i + 1)
  {
  }

  lemma {:induction false} WalkOpenKeeps(q: Query, s: Search, u: nat, dir: nat, seg: seq<nat>, i: nat, holes: Holes)
    requires QueryOk(q) && MidOpen(q, s, u, dir, seg, i, holes)
    ensures OpenInv(q, WalkOpen(q, s, u, seg, i))
    decreases |seg| - i
  {
    if i < |seg| && !Barred(q.net, seg[i]) {
      StepOpenKeeps(q, s, u, dir, seg, i, holes);
      WalkOpenStep(q, s, u, seg, i);
      if !Ends(q.net.t, seg[i]) {
        MidOpenNext(q, s, u, dir, seg, i, holes);
        WalkOpenKeeps(q, StepOpen(q, s, u, seg, i), u, dir, seg, i + 1, holes);
      }
    }
  }

  lemma LegOpenKeeps(q: Query, s: Search, u: nat, dir: nat, holes: Holes)
    requires QueryOk(q) && OpenInv(q, s) && u < |q.net.t| && OtherLeg(q.net, u, holes)
    requires dir == 0 || (dir == 1 && q.net.t[u].kind == Branch)
    requires Inv(q.net, s.l, holes + {(u, LegAt(q.net.t, u, dir).dest)})
    requires LegAt(q.net.t, u, dir).dest >= 0 ==> (u, LegAt(q.net.t, u, dir).dest) !in holes
    requires s.l.done[u] && s.l.done[q.net.start] && s.l.dist[u] < INF && Allows(q.net, u, dir)
    ensures OpenInv(q, WalkOpen(q, s, u, Segment(q.net.t, u, dir), 0))
  {
    var seg := Segment(q.net.t, u, dir);
    assert NodeOk(q.net.t, u);
    assert [u] + seg[..0] == [u];
    if seg == [] {
    } else {
      WalkOpenKeeps(q, s, u, dir, seg, 0, holes);
    }
  }

  // ---------- the heap never fills up ----------

  lemma {:induction false} ReachGrows(t: Layout, u: nat, seg: seq<nat>, i: nat)
    requires WellFormed(t) && u < |t| && InRange(t, seg) && i <= |seg|
    ensures Reach(t, u, seg, i) >= 0
    ensures i < |seg| ==> Reach(t, u, seg, i + 1) >= Reach(t, u, seg, i)
  {
    if i > 0 {
      ReachGrows(t, u, seg, i - 1);
    }
    if i < |seg| {
      ReachNext(t, u, seg, i);
      assert NodeOk(t, From(u, seg, i));
    }
  }

  lemma RelaxPushes(q: Query, s: Search, from: nat, v: nat, d: int)
    requires Fit(q, s) && from < |q.net.t| && v < |q.net.t|
    ensures var r := RelaxOpen(q, s, from, v, d);
            |r.open| <= |s.open| + 1 && r.l.dist[q.goal] <= s.l.dist[q.goal] &&
            (v == q.goal ==> r.l.dist[v] <= d) &&
            (q.net.t[v].kind != Branch && (v != q.goal || s.l.dist[v] <= d) ==> r.open == s.open)
  {
  }

  /** A walk pushes at most twice: once at the goal, once at the branch that ends it. */
  lemma {:induction false} WalkPushes(q: Query, s: Search, u: nat, seg: seq<nat>, i: nat)
    requires NetOk(q.net) && Fit(q, s) && u < |q.net.t| && InRange(q.net.t, seg) && i <= |seg|
    ensures |WalkOpen(q, s, u, seg, i).open| <= |s.open| + 1 +
              (if s.l.dist[q.goal] > s.l.dist[u] + Reach(q.net.t, u, seg, i) then 1 else 0)
    decreases |seg| - i
  {
    if i < |seg| && !Barred(q.net, seg[i]) {
      var m := StepOpen(q, s, u, seg, i);
      RelaxPushes(q, s, From(u, seg, i), seg[i], Offer(q.net, s.l, u, seg, i));
      ReachGrows(q.net.t, u, seg, i);
      ReachGrows(q.net.t, u, seg, i + 1);
      assert m.l.dist[u] == s.l.dist[u];
      if !Ends(q.net.t, seg[i]) {
        WalkPushes(q, m, u, seg, i + 1);
        assert WalkOpen(q, s, u, seg, i) == WalkOpen(q, m, u, seg, i + 1);
      } else {
        assert WalkOpen(q, s, u, seg, i) == m;
      }
    }
  }

  lemma ExpandPushes(q: Query, s: Search, u: nat)
    requires NetOk(q.net) && Fit(q, s) && u < |q.net.t|
    ensures |ExpandOpen(q, s, u).open| <= |s.open| + 4
  {
    WalkPushes(q, s, u, Segment(q.net.t, u, 0), 0);
    if q.net.t[u].kind == Branch {
      var m := if Allows(q.net, u, 0) then WalkOpen(q, s, u, Segment(q.net.t, u, 0), 0) else s;
      WalkPushes(q, m, u, Segment(q.net.t, u, 1), 0);
    }
  }

  /** At most N nodes are ever settled, so the open list fits the N*N heap with room to spare. */
  lemma OpenFits(q: Query, s: Search)
    requires QueryOk(q) && Fit(q, s) && OrderInv(q, s)
    ensures |s.open| <= 4 * |s.settled| + 1 <= 4 * |q.net.t| + 1 < |q.net.t| * |q.net.t|
  {
    Pigeonhole(s.settled, |q.net.t|);
    assert 5 * |q.net.t| <= |q.net.t| * |q.net.t|;
  }

  // ---------- one round of the main loop ----------

  /** The popped node carries its current f-cost, and no waiting node has a smaller one. */
  lemma PopsLeast(q: Query, s: Search, e: Entry)
    requires SearchInv(q, s) && IsFirst(e, s.open) && !s.l.done[e.1]
    ensures FCost(e) == s.l.dist[e.1] + q.h[e.1] && s.l.dist[e.1] < INF && q.h[e.1] < INF
    ensures forall x :: 0 <= x < |q.net.t| && Waits(q, s, x) ==>
              FCost(e) <= s.l.dist[x] + q.h[x]
  {
    assert EntryOk(q, s, e);
    forall x | 0 <= x < |q.net.t| && Waits(q, s, x) ensures FCost(e) <= s.l.dist[x] + q.h[x] {
      LeastAgainst(q, s, e, x);
    }
    assert Waits(q, s, e.1);
  }

  lemma LeastAgainst(q: Query, s: Search, e: Entry, x: nat)
    requires SearchInv(q, s) && IsFirst(e, s.open) && x < |q.net.t| && Waits(q, s, x)
    ensures FCost(e) <= s.l.dist[x] + q.h[x]
  {
    var o := (OpenKey(s.l.dist[x], q.h[x], x), x);
    assert Queued(q, s, x);
    assert o in s.open;
    assert EntryOk(q, s, o) && EntryOk(q, s, e);
    assert Before(e, o);
    KeyOrder(FCost(e), e.1, FCost(o), x);
    assert FCost(o) == s.l.dist[x] + q.h[x] by {
      KeyValue(q, s, x, o);
    }
  }

  lemma KeyValue(q: Query, s: Search, x: nat, o: Entry)
    requires SearchInv(q, s) && x < |q.net.t| && o == (OpenKey(s.l.dist[x], q.h[x], x), x)
    requires EntryOk(q, s, o)
    ensures FCost(o) == s.l.dist[x] + q.h[x]
  {
    var f := s.l.dist[x] + q.h[x];
    HeuristicRange(q, x);
    assert LabelOk(q.net, s.l, x, {});
    LabelRange(q.net, s.l, x, {});
    KeyOrder(f, x, f, x);
  }

  lemma PoppedIsFinal(q: Query, s: Search, e: Entry)
    requires SearchInv(q, s) && IsFirst(e, s.open) && !s.l.done[e.1]
    ensures NoShorter(q.net, q.net.start, e.1, s.l.dist[e.1])
  {
    PopsLeast(q, s, e);
    var u := e.1;
    assert EntryOk(q, s, e);
    forall x, p | 0 <= x < |q.net.t| && Pending(q.net, s.l, x) && s.l.dist[x] < INF && Joins(q.net, p, x, u)
      ensures s.l.dist[u] <= s.l.dist[x] + Cost(q.net.t, p)
    {
      Consistent(q, p, x, u);
      assert HeuristicOk(q, x);
      if Within(q, s.l.dist[x] + q.h[x]) {
        assert Waits(q, s, x);
      }
    }
    FinalLabel(q.net, s.l, u);
  }

  lemma SkipKeeps(q: Query, s: Search, e: Entry)
    requires SearchInv(q, s) && e in s.open && s.l.done[e.1]
    ensures SearchInv(q, Pop(s, e))
  {
    var r := Pop(s, e);
    forall o | o in r.open ensures EntryOk(q, r, o) {
      assert EntryOk(q, s, o);
    }
    forall x | 0 <= x < |q.net.t| ensures Queued(q, r, x) {
      assert Queued(q, s, x);
    }
  }

  lemma TakeOpen(q: Query, s: Search, e: Entry)
    requires QueryOk(q) && OpenInv(q, s) && e in s.open
    ensures OpenInv(q, Take(s, e))
  {
    var r := Take(s, e);
    forall o | o in r.open ensures EntryOk(q, r, o) {
      assert EntryOk(q, s, o);
    }
    forall x | 0 <= x < |q.net.t| ensures Queued(q, r, x) {
      assert Queued(q, s, x);
    }
  }

  lemma TakeOrder(q: Query, s: Search, e: Entry)
    requires Fit(q, s) && OrderInv(q, s) && e in s.open && !s.l.done[e.1]
    ensures Fit(q, Take(s, e)) && OrderInv(q, Take(s, e)) && |Take(s, e).open| + 4 <= 4 * |Take(s, e).settled| + 1
  {
    var r := Take(s, e);
    assert Distinct(r.settled);
    forall x | 0 <= x < |q.net.t| ensures r.l.done[x] <==> x in r.settled {
    }
  }

  /** Expanding the two legs in turn keeps the open list sound. */
  lemma ExpandOpenKeeps(q: Query, s: Search, u: nat)
    requires QueryOk(q) && OpenInv(q, s) && u < |q.net.t|
    requires Inv(q.net, s.l, Curve(q.net, u) + {(u, q.net.t[u].ahead.dest)})
    requires s.l.done[u] && s.l.done[q.net.start] && s.l.dist[u] < INF
    ensures OpenInv(q, ExpandOpen(q, s, u))
  {
    assert NodeOk(q.net.t, u);
    var seg := Segment(q.net.t, u, 0);
    var m := if Allows(q.net, u, 0) then WalkOpen(q, s, u, seg, 0) else s;
    assert OpenInv(q, m) by {
      if Allows(q.net, u, 0) {
        LegOpenKeeps(q, s, u, 0, Curve(q.net, u));
      }
    }
    if q.net.t[u].kind == Branch && Allows(q.net, u, 1) {
      WalkOpenLabels(q, s, u, seg, 0);
      LegKeeps(q.net, s.l, u, 0, Curve(q.net, u));
      assert Curve(q.net, u) == {} + {(u, q.net.t[u].curved.dest)};
      LegOpenKeeps(q, m, u, 1, {});
    }
  }

  lemma ExpandRoundKeeps(q: Query, s: Search, e: Entry)
    requires SearchInv(q, s) && IsFirst(e, s.open) && !s.l.done[e.1] && e.1 != q.goal
    ensures SearchInv(q, ExpandOpen(q, Take(s, e), e.1))
  {
    var t := Take(s, e);
    var r := ExpandOpen(q, t, e.1);
    assert EntryOk(q, s, e);
    assert OpenInv(q, r) && Inv(q.net, r.l, {}) by {
      PoppedIsFinal(q, s, e);
      TakeOpen(q, s, e);
      SettleKeeps(q.net, s.l, e.1);
      ExpandOpenKeeps(q, t, e.1);
      ExpandOpenLabels(q, t, e.1);
      ExpandKeeps(q.net, s.l, e.1);
    }
    assert OrderInv(q, r) by {
      TakeOrder(q, s, e);
      ExpandPushes(q, t, e.1);
    }
  }

  // ---------- what the search finds ----------

  /** Every label is the cost of a simple real path that follows `prev`. */
  ghost predicate Tree(n: Net, l: Labels) {
    Shaped(n, l) && forall v :: 0 <= v < |n.t| ==> LabelOk(n, l, v, {})
  }

  ghost predicate Found(q: Query, r: Search)
    requires NetOk(q.net) && Fit(q, r)
  {
    r.l.done[q.goal] && Tree(q.net, r.l) && r.l.dist[q.goal] < INF && Within(q, r.l.dist[q.goal]) &&
    IsDistance(q.net, q.net.start, q.goal, r.l.dist[q.goal])
  }

  ghost predicate OutOfReach(q: Query)
    requires NetOk(q.net)
  {
    forall p :: Joins(q.net, p, q.net.start, q.goal) ==> !Within(q, Cost(q.net.t, p))
  }

  /** Settling a node does not touch the predecessor tree. */
  lemma TakeTree(n: Net, l: Labels, u: nat)
    requires Inv(n, l, {}) && u < |n.t|
    ensures Tree(n, Settle(l, u))
  {
    var m := Settle(l, u);
    forall v | 0 <= v < |n.t| ensures LabelOk(n, m, v, {}) {
      assert LabelOk(n, l, v, {});
      if l.dist[v] != INF {
        forall j | 0 <= j < |l.path[v]| ensures Covers(n, m, l.path[v], j) {
          assert Covers(n, l, l.path[v], j);
        }
      }
    }
  }

  lemma FinalDistance(n: Net, l: Labels, u: nat)
    requires Inv(n, l, {}) && u < |n.t| && l.dist[u] < INF && NoShorter(n, n.start, u, l.dist[u])
    ensures IsDistance(n, n.start, u, l.dist[u])
  {
    assert LabelOk(n, l, u, {});
    LabelRange(n, l, u, {});
    assert Joins(n, l.path[u], n.start, u);
  }

  lemma GoalFound(q: Query, s: Search, e: Entry)
    requires SearchInv(q, s) && IsFirst(e, s.open) && e.1 == q.goal
    ensures Found(q, Take(s, e))
  {
    PoppedIsFinal(q, s, e);
    PopsLeast(q, s, e);
    GoalHeuristic(q);
    assert EntryOk(q, s, e);
    FinalDistance(q.net, s.l, q.goal);
    TakeTree(q.net, s.l, q.goal);
  }

  /** While the goal can be reached within the bound by `p`, the open list holds an entry whose
      f-cost is at most the cost of `p`. */
  lemma Promising(q: Query, s: Search, p: seq<nat>) returns (x: nat)
    requires SearchInv(q, s) && Joins(q.net, p, q.net.start, q.goal) && Within(q, Cost(q.net.t, p))
    ensures x < |q.net.t| && Waits(q, s, x) && s.l.dist[x] + q.h[x] <= Cost(q.net.t, p)
    ensures (OpenKey(s.l.dist[x], q.h[x], x), x) in s.open
  {
    var i := Frontier(q.net, s.l, p);
    PathSplit(q.net, p, i);
    x := p[i];
    GoalHeuristic(q);
    Consistent(q, p[i..], x, q.goal);
    assert HeuristicOk(q, x);
    assert Waits(q, s, x);
    assert Queued(q, s, x);
  }

  lemma NothingLeft(q: Query, s: Search)
    requires SearchInv(q, s) && s.open == multiset{}
    ensures OutOfReach(q)
  {
    forall p | Joins(q.net, p, q.net.start, q.goal) ensures !Within(q, Cost(q.net.t, p)) {
      if Within(q, Cost(q.net.t, p)) {
        var x := Promising(q, s, p);
        assert false;
      }
    }
  }

  /** The search settles the goal exactly when the goal is within the bound, and then with its
      shortest distance and a faithful predecessor tree. */
  lemma {:induction false} RunFinds(q: Query, s: Search)
    requires SearchInv(q, s)
    ensures var r := Run(q, s); if r.l.done[q.goal] then Found(q, r) else OutOfReach(q)
    decreases |Undone(s.l.done)|, |s.open|
  {
    if s.open == multiset{} {
      NothingLeft(q, s);
    } else {
      var e := First(s.open);
      assert EntryOk(q, s, e);
      if s.l.done[e.1] {
        SkipKeeps(q, s, e);
        RunFinds(q, Pop(s, e));
      } else if e.1 == q.goal {
        GoalFound(q, s, e);
      } else {
        UndoneShrinks(s.l.done, e.1);
        ExpandRoundKeeps(q, s, e);
        RunFinds(q, ExpandOpen(q, Take(s, e), e.1));
      }
    }
  }

  // ---------- the bound does not influence the labels ----------

  /** The tighter search has exactly those entries of the looser one that fit its bound. */
  ghost predicate SameBut(q: Query, s: Search, w: Search) {
    s.l == w.l && s.settled == w.settled &&
    forall e: Entry :: s.open[e] == if Within(q, FCost(e)) then w.open[e] else 0
  }

  /** The same leg search under a looser bound. */
  predicate Looser(q: Query, w: Query) {
    w == q.(ub := w.ub) && q.ub <= w.ub <= INF
  }

  ghost predicate Twin(q: Query, w: Query, s: Search, x: Search) {
    Looser(q, w) && Fit(q, s) && Fit(w, x) && SameBut(q, s, x)
  }

  lemma PushSame(q: Query, w: Query, s: Search, x: Search, v: nat)
    requires Twin(q, w, s, x) && v < |q.net.t| <= 256
    requires q.h[v] != INF ==> 0 <= s.l.dist[v] + q.h[v] < 0x100_0000
    ensures SameBut(q, Push(q, s, v), Push(w, x, v))
  {
    if q.h[v] != INF {
      var f := s.l.dist[v] + q.h[v];
      KeyOrder(f, v, f, v);
    }
  }

  lemma RelaxSame(q: Query, w: Query, s: Search, x: Search, from: nat, v: nat, d: int)
    requires QueryOk(q) && Twin(q, w, s, x) && from < |q.net.t| && v < |q.net.t|
    requires d < s.l.dist[v] ==> 0 <= d <= LongestPath(q.net.t)
    ensures SameBut(q, RelaxOpen(q, s, from, v, d), RelaxOpen(w, x, from, v, d))
  {
    if d < s.l.dist[v] {
      if q.h[v] != INF {
        HeuristicRange(q, v);
      }
      var m := Relax(q.net, s.l, from, v, d);
      PushSame(q, w, s.(l := m), x.(l := m), v);
    }
  }

  lemma StepSame(q: Query, w: Query, s: Search, x: Search, u: nat, dir: nat, seg: seq<nat>, i: nat, holes: Holes)
    requires QueryOk(q) && Twin(q, w, s, x)
    requires MidOpen(q, s, u, dir, seg, i, holes) && i < |seg| && !Barred(q.net, seg[i])
    ensures SameBut(q, StepOpen(q, s, u, seg, i), StepOpen(w, x, u, seg, i))
  {
    if Offer(q.net, s.l, u, seg, i) < s.l.dist[seg[i]] {
      LoweredRange(q.net, s.l, u, dir, seg, i, holes);
    }
    RelaxSame(q, w, s, x, From(u, seg, i), seg[i], Offer(q.net, s.l, u, seg, i));
  }

  lemma {:induction false} WalkSame(q: Query, w: Query, s: Search, x: Search, u: nat, dir: nat, seg: seq<nat>, i: nat,
                                    holes: Holes)
    requires QueryOk(q) && Twin(q, w, s, x) && MidOpen(q, s, u, dir, seg, i, holes)
    ensures SameBut(q, WalkOpen(q, s, u, seg, i), WalkOpen(w, x, u, seg, i))
    decreases |seg| - i
  {
    if i < |seg| && !Barred(q.net, seg[i]) {
      StepSame(q, w, s, x, u, dir, seg, i, holes);
      WalkOpenStep(q, s, u, seg, i);
      WalkOpenStep(w, x, u, seg, i);
      if !Ends(q.net.t, seg[i]) {
        MidOpenNext(q, s, u, dir, seg, i, holes);
        WalkSame(q, w, StepOpen(q, s, u, seg, i), StepOpen(w, x, u, seg, i), u, dir, seg, i + 1, holes);
      }
    }
  }

  lemma LegSame(q: Query, w: Query, s: Search, x: Search, u: nat, dir: nat, holes: Holes)
    requires QueryOk(q) && Twin(q, w, s, x)
    requires OpenInv(q, s) && u < |q.net.t| && OtherLeg(q.net, u, holes)
    requires dir == 0 || (dir == 1 && q.net.t[u].kind == Branch)
    requires Inv(q.net, s.l, holes + {(u, LegAt(q.net.t, u, dir).dest)})
    requires LegAt(q.net.t, u, dir).dest >= 0 ==> (u, LegAt(q.net.t, u, dir).dest) !in holes
    requires s.l.done[u] && s.l.done[q.net.start] && s.l.dist[u] < INF && Allows(q.net, u, dir)
    ensures var seg := Segment(q.net.t, u, dir); Twin(q, w, WalkOpen(q, s, u, seg, 0), WalkOpen(w, x, u, seg, 0))
  {
    var seg := Segment(q.net.t, u, dir);
    assert NodeOk(q.net.t, u);
    assert [u] + seg[..0] == [u];
    if seg != [] {
      WalkSame(q, w, s, x, u, dir, seg, 0, holes);
    }
  }

  lemma ExpandSame(q: Query, w: Query, s: Search, x: Search, u: nat)
    requires QueryOk(q) && Twin(q, w, s, x)
    requires OpenInv(q, s) && u < |q.net.t|
    requires Inv(q.net, s.l, Curve(q.net, u) + {(u, q.net.t[u].ahead.dest)})
    requires s.l.done[u] && s.l.done[q.net.start] && s.l.dist[u] < INF
    ensures Twin(q, w, ExpandOpen(q, s, u), ExpandOpen(w, x, u))
  {
    assert NodeOk(q.net.t, u);
    var seg := Segment(q.net.t, u, 0);
    var m := if Allows(q.net, u, 0) then WalkOpen(q, s, u, seg, 0) else s;
    var k := if Allows(q.net, u, 0) then WalkOpen(w, x, u, seg, 0) else x;
    assert OpenInv(q, m) && Twin(q, w, m, k) by {
      if Allows(q.net, u, 0) {
        LegOpenKeeps(q, s, u, 0, Curve(q.net, u));
        LegSame(q, w, s, x, u, 0, Curve(q.net, u));
      }
    }
    if q.net.t[u].kind == Branch && Allows(q.net, u, 1) {
      WalkOpenLabels(q, s, u, seg, 0);
      LegKeeps(q.net, s.l, u, 0, Curve(q.net, u));
      assert Curve(q.net, u) == {} + {(u, q.net.t[u].curved.dest)};
      LegSame(q, w, m, k, u, 1, {});
    }
  }

  lemma FirstSame(q: Query, w: Query, s: Search, x: Search, p: seq<nat>)
    requires SearchInv(q, s) && Twin(q, w, s, x)
    requires Joins(q.net, p, q.net.start, q.goal) && Within(q, Cost(q.net.t, p))
    ensures s.open != multiset{} && x.open != multiset{} && First(s.open) == First(x.open)
    ensures Within(q, FCost(First(s.open)))
  {
    var y := Promising(q, s, p);
    var o := (OpenKey(s.l.dist[y], q.h[y], y), y);
    assert EntryOk(q, s, o);
    assert o in x.open;
    var e := First(x.open);
    assert Before(e, o);
    assert FCost(e) <= FCost(o);
    assert e in s.open;
    assert forall i :: i in s.open ==> i in x.open;
    assert Before(e, First(s.open)) && Before(First(s.open), e);
  }

  lemma ExpandRoundSame(q: Query, w: Query, s: Search, x: Search, e: Entry)
    requires SearchInv(q, s) && Twin(q, w, s, x) && IsFirst(e, s.open) && !s.l.done[e.1] && e.1 != q.goal
    ensures Fit(w, Take(x, e)) && e.1 < |w.net.t|
    ensures Twin(q, w, ExpandOpen(q, Take(s, e), e.1), ExpandOpen(w, Take(x, e), e.1))
  {
    assert EntryOk(q, s, e);
    assert Twin(q, w, Take(s, e), Take(x, e));
    PoppedIsFinal(q, s, e);
    TakeOpen(q, s, e);
    SettleKeeps(q.net, s.l, e.1);
    ExpandSame(q, w, Take(s, e), Take(x, e), e.1);
  }

  lemma SkipSame(q: Query, w: Query, s: Search, x: Search, e: Entry)
    requires SearchInv(q, s) && Twin(q, w, s, x) && e in s.open && s.l.done[e.1]
    ensures SearchInv(q, Pop(s, e)) && Twin(q, w, Pop(s, e), Pop(x, e))
  {
    SkipKeeps(q, s, e);
  }

  /** Bound independence: for any two bounds that leave the goal in reach, the search settles the
      same nodes in the same order and ends with the same labels. */
  lemma {:induction false} RunSame(q: Query, w: Query, s: Search, x: Search, p: seq<nat>)
    requires SearchInv(q, s) && Twin(q, w, s, x)
    requires Joins(q.net, p, q.net.start, q.goal) && Within(q, Cost(q.net.t, p))
    ensures Run(q, s).l == Run(w, x).l && Run(q, s).settled == Run(w, x).settled
    ensures Run(q, s).l.done[q.goal]
    decreases |Undone(s.l.done)|, |s.open|
  {
    FirstSame(q, w, s, x, p);
    var e := First(s.open);
    assert EntryOk(q, s, e);
    if s.l.done[e.1] {
      SkipSame(q, w, s, x, e);
      RunSame(q, w, Pop(s, e), Pop(x, e), p);
    } else if e.1 != q.goal {
      UndoneShrinks(s.l.done, e.1);
      ExpandRoundKeeps(q, s, e);
      ExpandRoundSame(q, w, s, x, e);
      RunSame(q, w, ExpandOpen(q, Take(s, e), e.1), ExpandOpen(w, Take(x, e), e.1), p);
    }
  }

  lemma StartSame(q: Query, w: Query)
    requires QueryOk(q) && Looser(q, w)
    ensures Twin(q, w, Start(q), Start(w))
  {
    var v := q.net.start;
    if q.h[v] != INF {
      HeuristicRange(q, v);
    }
    var s := Search(Initial(q.net), multiset{}, []);
    PushSame(q, w, s, s, v);
  }

  lemma BoundIndependent(q: Query, w: Query)
    requires QueryOk(q) && QueryOk(w) && w == q.(ub := w.ub)
    requires !OutOfReach(q) && !OutOfReach(w)
    ensures Run(q, Start(q)).l == Run(w, Start(w)).l
    ensures Run(q, Start(q)).settled == Run(w, Start(w)).settled
  {
    if q.ub <= w.ub {
      var p :| Joins(q.net, p, q.net.start, q.goal) && Within(q, Cost(q.net.t, p));
      StartInv(q);
      StartSame(q, w);
      RunSame(q, w, Start(q), Start(w), p);
    } else {
      var p :| Joins(w.net, p, w.net.start, w.goal) && Within(w, Cost(w.net.t, p));
      StartInv(w);
      StartSame(w, q);
      RunSame(w, q, Start(w), Start(q), p);
    }
  }

  // ---------- one leg search ----------

  function Unbounded(q: Query): Query {
    q.(ub := INF)
  }

  ghost predicate StartsAt(q: Query, s: Search) {
    NetOk(q.net) && q.goal < |q.net.t| && |q.h| == |q.net.t| && s == Start(q)
  }

  /** The search that starts from the initial state ends with the labels `l`. */
  ghost predicate EndsWith(q: Query, l: Labels) {
    forall s :: StartsAt(q, s) ==> l == Run(q, s).l
  }

  /** The labels a leg search ends with when nothing bounds it. */
  ghost function LegLabels(q: Query): (l: Labels)
    requires QueryOk(q)
    ensures Shaped(q.net, l)
  {
    var w := Unbounded(q);
    assert StartsAt(w, Start(w)) && EndsWith(w, Run(w, Start(w)).l);
    var l :| EndsWith(w, l);
    l
  }

  lemma LegLabelsAre(q: Query)
    requires QueryOk(q)
    ensures LegLabels(q) == Run(Unbounded(q), Start(Unbounded(q))).l
  {
    assert StartsAt(Unbounded(q), Start(Unbounded(q)));
  }

  lemma UnboundedOk(q: Query)
    requires QueryOk(q)
    ensures QueryOk(Unbounded(q)) && SearchInv(Unbounded(q), Start(Unbounded(q)))
  {
    var w := Unbounded(q);
    forall x | 0 <= x < |w.h| ensures HeuristicOk(w, x) {
      assert HeuristicOk(q, x);
    }
    StartInv(w);
  }

  lemma FoundInReach(q: Query, r: Search)
    requires NetOk(q.net) && Fit(q, r) && Found(q, r)
    ensures !OutOfReach(q)
  {
    var p :| Joins(q.net, p, q.net.start, q.goal) && Cost(q.net.t, p) == r.l.dist[q.goal];
    assert Within(q, Cost(q.net.t, p));
  }

  /** The goal is settled exactly when it can be reached within the bound, and then its label is the
      node-by-node shortest distance. */
  lemma LegSearch(q: Query)
    requires QueryOk(q)
    ensures var r := Run(q, Start(q)); if OutOfReach(q) then !r.l.done[q.goal] else Found(q, r)
  {
    StartInv(q);
    var s := Start(q);
    RunFinds(q, s);
    var r := Run(q, s);
    if r.l.done[q.goal] {
      FoundInReach(q, r);
    }
  }

  lemma ReachUnbounded(q: Query)
    requires QueryOk(q) && !OutOfReach(q)
    ensures QueryOk(Unbounded(q)) && !OutOfReach(Unbounded(q))
  {
    UnboundedOk(q);
    var w := Unbounded(q);
    var p :| Joins(q.net, p, q.net.start, q.goal) && Within(q, Cost(q.net.t, p));
    assert Joins(w.net, p, w.net.start, w.goal) && Within(w, Cost(w.net.t, p));
  }

  /** A successful search ends with the labels of the unbounded one. */
  lemma LegUnbounded(q: Query)
    requires QueryOk(q) && !OutOfReach(q)
    ensures Run(q, Start(q)).l == LegLabels(q)
  {
    ReachUnbounded(q);
    BoundIndependent(q, Unbounded(q));
    LegLabelsAre(q);
  }

  // ---------- leg searches over a track and its table ----------

  /** A track with its all-pairs free-track distances. */
  datatype World = World(t: Layout, dist: seq<seq<int>>)

  ghost predicate FreeDistance(t: Layout, x: nat, y: nat, d: int)
    requires WellFormed(t)
  {
    NetOk(FreeNet(t, 0)) && IsDistance(FreeNet(t, 0), x, y, d)
  }

  predicate Square(w: World) {
    |w.dist| == |w.t| && forall x :: 0 <= x < |w.t| ==> |w.dist[x]| == |w.t|
  }

  ghost predicate WorldOk(w: World) {
    WellFormed(w.t) && Square(w) &&
    forall x, y :: 0 <= x < |w.t| && 0 <= y < |w.t| ==> FreeDistance(w.t, x, y, w.dist[x][y])
  }

  function Column(w: World, goal: nat): (h: seq<int>)
    requires Square(w) && goal < |w.t|
    ensures |h| == |w.t| && forall x :: 0 <= x < |h| ==> h[x] == w.dist[x][goal]
  {
    seq(|w.t|, x requires 0 <= x < |w.t| => w.dist[x][goal])
  }

  /** The query behind one call of route_search_leg_astar. */
  function LegQuery(w: World, start: nat, goal: nat, blocked: seq<bool>, fixed: seq<char>, ub: int): Query
    requires Square(w) && goal < |w.t|
  {
    Query(Net(w.t, start, blocked, fixed), goal, Column(w, goal), ub)
  }

  lemma LegQueryOk(w: World, start: nat, goal: nat, blocked: seq<bool>, fixed: seq<char>, ub: int)
    requires WorldOk(w) && |blocked| == |fixed| == |w.t| && start < |w.t| && goal < |w.t| && 0 <= ub <= INF
    ensures QueryOk(LegQuery(w, start, goal, blocked, fixed, ub))
  {
    var q := LegQuery(w, start, goal, blocked, fixed, ub);
    forall x | 0 <= x < |q.h| ensures HeuristicOk(q, x) {
      assert FreeDistance(w.t, x, goal, w.dist[x][goal]);
    }
  }

  /** Some allowed path within the bound leads from `start` to `goal`; indices are -1 for NULL. */
  ghost predicate LegWithin(w: World, start: int, goal: int, blocked: seq<bool>, fixed: seq<char>, ub: int)
    requires WorldOk(w) && |blocked| == |fixed| == |w.t|
  {
    0 <= start < |w.t| && 0 <= goal < |w.t| && 0 <= ub &&
    !OutOfReach(LegQuery(w, start, goal, blocked, fixed, ub))
  }

  /** The labels of a successful leg search: those of the unbounded search. */
  ghost function LegAnswer(w: World, start: nat, goal: nat, blocked: seq<bool>, fixed: seq<char>): (l: Labels)
    requires WorldOk(w) && |blocked| == |fixed| == |w.t| && start < |w.t| && goal < |w.t|
    ensures Shaped(Net(w.t, start, blocked, fixed), l)
  {
    LegQueryOk(w, start, goal, blocked, fixed, INF);
    LegLabels(LegQuery(w, start, goal, blocked, fixed, INF))
  }
}
