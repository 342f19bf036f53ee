/** What a leg search and its labels mean on the track itself: which way a train leaves each node, where a pinned
    switch lets it go, how far it drives, and what the labels along a found path say. */
module Driving {
  import opened Track
  import opened Labels
  import opened AStarSpec
  import opened Plan

  // ---------- driving ----------

  /** A train can drive from node `x` to node `y`: ahead, or by the leg that a branch is pinned to, 'S' for
      straight and 'C' for curved, or by either leg of a branch that is not pinned; and not into a blocked node
      other than the one the search starts from. */
  predicate Drives(t: Layout, start: nat, blocked: seq<bool>, fixed: seq<char>, x: nat, y: nat) {
    x < |t| && y < |t| && |blocked| == |fixed| == |t| && (blocked[y] ==> y == start) &&
    t[x].kind != NoNode && t[x].kind != Exit &&
    if t[x].kind != Branch then t[x].ahead.dest == y
    else if fixed[x] == 'S' then t[x].ahead.dest == y
    else if fixed[x] == 'C' then t[x].curved.dest == y
    else t[x].ahead.dest == y || t[x].curved.dest == y
  }

  /** A drive along `p` from `a` to `b`. */
  predicate Drive(t: Layout, start: nat, blocked: seq<bool>, fixed: seq<char>, p: seq<nat>, a: nat, b: nat) {
    |p| > 0 && p[0] == a && p[|p| - 1] == b && (forall i :: 0 <= i < |p| ==> p[i] < |t|) &&
    forall i :: 0 <= i < |p| - 1 ==> Drives(t, start, blocked, fixed, p[i], p[i + 1])
  }

  /** The length of the leg a train takes from `x` to `y`. */
  function HopLength(t: Layout, x: nat, y: nat): int
    requires x < |t|
  {
    if t[x].ahead.dest == y then t[x].ahead.len else t[x].curved.len
  }

  /** The length of a drive. */
  function Mileage(t: Layout, p: seq<nat>): int
    requires forall i :: 0 <= i < |p| ==> p[i] < |t|
  {
    if |p| <= 1 then 0 else HopLength(t, p[0], p[1]) + Mileage(t, p[1..])
  }

  lemma DrivesIsEdge(n: Net, x: nat, y: nat)
    requires NetOk(n) && x < |n.t| && y < |n.t|
    ensures Drives(n.t, n.start, n.blocked, n.fixed, x, y) <==> Edge(n, x, y)
  {
  }

  /** The paths of the search graph are the drives. */
  lemma DriveIsPath(n: Net, p: seq<nat>, a: nat, b: nat)
    requires NetOk(n)
    ensures Drive(n.t, n.start, n.blocked, n.fixed, p, a, b) <==> Joins(n, p, a, b)
  {
    if Drive(n.t, n.start, n.blocked, n.fixed, p, a, b) {
      forall i | 0 <= i < |p| - 1 ensures Hop(n, p, i) {
        DrivesIsEdge(n, p[i], p[i + 1]);
      }
    }
    if Joins(n, p, a, b) {
      forall i | 0 <= i < |p| - 1 ensures Drives(n.t, n.start, n.blocked, n.fixed, p[i], p[i + 1]) {
        assert Hop(n, p, i);
        DrivesIsEdge(n, p[i], p[i + 1]);
      }
    }
  }

  /** Their cost is the distance driven. */
  lemma {:induction false} MileageIsCost(n: Net, p: seq<nat>)
    requires NetOk(n) && IsPath(n, p)
    ensures Mileage(n.t, p) == Cost(n.t, p)
    decreases |p|
  {
    if |p| > 1 {
      PathSplit(n, p, 1);
      MileageIsCost(n, p[1..]);
      assert p[..2] == [p[0], p[1]] && Init([p[0], p[1]]) == [p[0]];
    }
  }

  // ---------- one leg search ----------

  /** Some drive from `start` to `goal` is no longer than `ub`; 0x7FFFFFFF stands for no bound, -1 for a NULL node. */
  ghost predicate CanDrive(t: Layout, start: int, goal: int, blocked: seq<bool>, fixed: seq<char>, ub: int) {
    0 <= start < |t| && 0 <= goal < |t| && 0 <= ub && exists p :: DrivesWithin(t, start, goal, blocked, fixed, ub, p)
  }

  predicate DrivesWithin(t: Layout, start: nat, goal: nat, blocked: seq<bool>, fixed: seq<char>, ub: int, p: seq<nat>) {
    Drive(t, start, blocked, fixed, p, start, goal) && (ub == 0x7FFF_FFFF || Mileage(t, p) <= ub)
  }

  ghost predicate NoShorterDrive(t: Layout, start: nat, goal: nat, blocked: seq<bool>, fixed: seq<char>, d: int) {
    forall p :: Drive(t, start, blocked, fixed, p, start, goal) ==> d <= Mileage(t, p)
  }

  /** The labels of node `i` of a path: how far it is, the node before it, and the number and letter of the branch
      just passed, or (-1, '?'). */
  predicate Labelled(t: Layout, l: Labels, p: seq<nat>, i: nat) {
    i < |p| && |l.dist| == |l.prev| == |l.swNum| == |l.swDir| == |t| && (forall j :: 0 <= j < |p| ==> p[j] < |t|) &&
    l.dist[p[i]] == Mileage(t, p[..i + 1]) &&
    if i == 0 then l.prev[p[0]] == -1
    else
      l.prev[p[i]] == p[i - 1] &&
      if t[p[i - 1]].kind != Branch then l.swNum[p[i]] == -1 && l.swDir[p[i]] == '?'
      else l.swNum[p[i]] == t[p[i - 1]].num && l.swDir[p[i]] == if t[p[i - 1]].ahead.dest == p[i] then 'S' else 'C'
  }

  /** The letters recorded on a drive are those of the pins. */
  predicate KeepsPin(t: Layout, fixed: seq<char>, l: Labels, p: seq<nat>, i: nat) {
    i + 1 < |p| && p[i] < |fixed| == |t| && p[i + 1] < |l.swDir| &&
    (t[p[i]].kind == Branch && fixed[p[i]] == 'S' ==> t[p[i]].ahead.dest == p[i + 1] && l.swDir[p[i + 1]] == 'S') &&
    (t[p[i]].kind == Branch && fixed[p[i]] == 'C' ==> t[p[i]].curved.dest == p[i + 1] && l.swDir[p[i + 1]] == 'C')
  }

  /** `p` is a shortest drive to the goal that passes no node twice, and the labels lead back along it. */
  ghost predicate LeadsBack(t: Layout, start: nat, goal: nat, blocked: seq<bool>, fixed: seq<char>, l: Labels,
                            p: seq<nat>) {
    Drive(t, start, blocked, fixed, p, start, goal) && Distinct(p) && |l.dist| == |t| && goal < |t| &&
    l.dist[goal] == Mileage(t, p) && NoShorterDrive(t, start, goal, blocked, fixed, l.dist[goal]) &&
    (forall i :: 0 <= i < |p| ==> Labelled(t, l, p, i)) && forall i :: 0 <= i < |p| - 1 ==> KeepsPin(t, fixed, l, p, i)
  }

  ghost predicate LeavesDrive(t: Layout, start: int, goal: int, blocked: seq<bool>, fixed: seq<char>, l: Labels) {
    start >= 0 && goal >= 0 && exists p :: LeadsBack(t, start, goal, blocked, fixed, l, p)
  }

  lemma DriveWithin(n: Net, goal: nat, ub: int, p: seq<nat>)
    requires NetOk(n)
    ensures DrivesWithin(n.t, n.start, goal, n.blocked, n.fixed, ub, p) <==>
            Joins(n, p, n.start, goal) && (ub == INF || Cost(n.t, p) <= ub)
  {
    DriveIsPath(n, p, n.start, goal);
    if Joins(n, p, n.start, goal) {
      MileageIsCost(n, p);
    }
  }

  /** What the test of a leg search decides. */
  lemma WithinMeans(w: World, start: int, goal: int, blocked: seq<bool>, fixed: seq<char>, ub: int)
    requires WorldOk(w) && |blocked| == |fixed| == |w.t|
    ensures LegWithin(w, start, goal, blocked, fixed, ub) <==> CanDrive(w.t, start, goal, blocked, fixed, ub)
  {
    if 0 <= start < |w.t| && 0 <= goal < |w.t| && 0 <= ub {
      var q := LegQuery(w, start, goal, blocked, fixed, ub);
      forall p ensures DrivesWithin(w.t, start, goal, blocked, fixed, ub, p) <==>
                       Joins(q.net, p, start, goal) && Within(q, Cost(w.t, p))
      {
        DriveWithin(q.net, goal, ub, p);
      }
    }
  }

  lemma ShortestDrive(n: Net, goal: nat, d: int)
    requires NetOk(n) && NoShorter(n, n.start, goal, d)
    ensures NoShorterDrive(n.t, n.start, goal, n.blocked, n.fixed, d)
  {
    forall p | Drive(n.t, n.start, n.blocked, n.fixed, p, n.start, goal) ensures d <= Mileage(n.t, p) {
      DriveIsPath(n, p, n.start, goal);
      MileageIsCost(n, p);
    }
  }

  /** The label of the last node of its own path. */
  lemma LastLabel(n: Net, l: Labels, v: nat)
    requires Tree(n, l) && v < |n.t| && l.dist[v] != INF
    ensures var p := l.path[v]; p != [] && p[|p| - 1] == v && Labelled(n.t, l, p, |p| - 1)
    ensures |l.path[v]| > 1 ==> l.prev[v] >= 0 && l.path[v] == l.path[l.prev[v]] + [v] && l.dist[l.prev[v]] != INF
  {
    var p := l.path[v];
    assert LabelOk(n, l, v, {});
    PrevStep(n, l, v);
    MileageIsCost(n, p);
    assert p[..|p|] == p;
  }

  /** And so of every node on it. */
  lemma {:induction false} AllLabelled(n: Net, l: Labels, v: nat, i: nat)
    requires Tree(n, l) && v < |n.t| && l.dist[v] != INF && i < |l.path[v]|
    ensures Labelled(n.t, l, l.path[v], i)
    decreases |l.path[v]|
  {
    var p := l.path[v];
    LastLabel(n, l, v);
    if i < |p| - 1 {
      var o := l.path[l.prev[v]];
      AllLabelled(n, l, l.prev[v], i);
      assert p[..i + 1] == o[..i + 1];
      assert forall j :: 0 <= j < |p| - 1 ==> p[j] == o[j];
      assert LabelOk(n, l, v, {});
    }
  }

  lemma PinKept(n: Net, l: Labels, p: seq<nat>, i: nat)
    requires NetOk(n) && i + 1 < |p| && Drive(n.t, n.start, n.blocked, n.fixed, p, p[0], p[|p| - 1])
    requires Labelled(n.t, l, p, i + 1)
    ensures KeepsPin(n.t, n.fixed, l, p, i)
  {
    assert Drives(n.t, n.start, n.blocked, n.fixed, p[i], p[i + 1]);
    assert NodeOk(n.t, p[i]);
  }

  /** The labels of a successful leg search lead back along a shortest drive, which keeps every pin. */
  lemma AnswerMeans(w: World, start: int, goal: int, blocked: seq<bool>, fixed: seq<char>, ub: int)
    requires WorldOk(w) && |blocked| == |fixed| == |w.t| && LegWithin(w, start, goal, blocked, fixed, ub) && ub <= INF
    ensures LeavesDrive(w.t, start, goal, blocked, fixed, LegAnswer(w, start, goal, blocked, fixed))
  {
    var q := LegQuery(w, start, goal, blocked, fixed, INF);
    var o := LegQuery(w, start, goal, blocked, fixed, ub);
    LegQueryOk(w, start, goal, blocked, fixed, INF);
    LegQueryOk(w, start, goal, blocked, fixed, ub);
    var r :| Joins(o.net, r, start, goal) && Within(o, Cost(w.t, r));
    assert Joins(q.net, r, start, goal) && Within(q, Cost(w.t, r));
    LegSearch(q);
    assert Unbounded(q) == q;
    LegLabelsAre(q);
    TreeMeans(q, Run(q, Start(q)).l);
  }

  lemma TreeMeans(q: Query, l: Labels)
    requires NetOk(q.net) && q.goal < |q.net.t| && Tree(q.net, l) && l.dist[q.goal] < INF
    requires IsDistance(q.net, q.net.start, q.goal, l.dist[q.goal])
    ensures LeadsBack(q.net.t, q.net.start, q.goal, q.net.blocked, q.net.fixed, l, l.path[q.goal])
  {
    var n, p := q.net, l.path[q.goal];
    assert LabelOk(n, l, q.goal, {});
    DriveIsPath(n, p, n.start, q.goal);
    MileageIsCost(n, p);
    ShortestDrive(n, q.goal, l.dist[q.goal]);
    forall i | 0 <= i < |p| ensures Labelled(n.t, l, p, i) {
      AllLabelled(n, l, q.goal, i);
    }
    forall i | 0 <= i < |p| - 1 ensures KeepsPin(n.t, n.fixed, l, p, i) {
      PinKept(n, l, p, i);
    }
  }

  /** An entry of the free-track table: the length of a shortest drive with nothing blocked and no switch pinned. */
  lemma FreeMeans(t: Layout, x: nat, y: nat, d: int, blocked: seq<bool>, fixed: seq<char>)
    requires WellFormed(t) && x < |t| && y < |t| && FreeDistance(t, x, y, d) && |blocked| == |fixed| == |t|
    requires forall i :: 0 <= i < |t| ==> !blocked[i] && fixed[i] == '?'
    ensures if d == 0x7FFF_FFFF then forall p :: !Drive(t, x, blocked, fixed, p, x, y)
            else NoShorterDrive(t, x, y, blocked, fixed, d) &&
                 exists p :: Drive(t, x, blocked, fixed, p, x, y) && Mileage(t, p) == d
  {
    var n := FreeNet(t, 0);
    forall p ensures Drive(t, x, blocked, fixed, p, x, y) <==> Joins(n, p, x, y) {
      assert blocked == n.blocked && fixed == n.fixed;
      FreeStart(t, x, blocked, fixed, p, y);
      DriveIsPath(n, p, x, y);
    }
    forall p | Joins(n, p, x, y) ensures Mileage(t, p) == Cost(t, p) {
      MileageIsCost(n, p);
    }
  }

  /** Where nothing is blocked it does not matter where the search starts. */
  lemma FreeStart(t: Layout, x: nat, blocked: seq<bool>, fixed: seq<char>, p: seq<nat>, y: nat)
    requires |blocked| == |t| && forall i :: 0 <= i < |t| ==> !blocked[i]
    ensures Drive(t, x, blocked, fixed, p, x, y) <==> Drive(t, 0, blocked, fixed, p, x, y)
  {
    assert forall i :: 0 <= i < |p| - 1 ==>
                         (Drives(t, x, blocked, fixed, p[i], p[i + 1]) <==>
                          Drives(t, 0, blocked, fixed, p[i], p[i + 1]));
  }
}
