/** route_search.c: branch and bound over the direct plans and the reversal sensors, proved against the
    unpruned choice of RouteSpec. */
module RoutePlanner {
  import opened Track
  import opened LabelStore
  import opened SegmentCache
  import opened AStarSpec
  import opened AStar
  import opened InsertionOrder
  import opened Plan
  import opened RouteSpec
  import opened RouteAnswers

  /** Two separate sets of label arrays. */
  method TwoLabels(n: nat) returns (f: LabelArrays, r: LabelArrays)
    ensures f.Sized(n) && r.Sized(n) && fresh(f.Footprint()) && fresh(r.Footprint()) && f.Footprint() !! r.Footprint()
  {
    f := new LabelArrays(n);
    r := new LabelArrays(n);
  }

  /** The state that route_search.c keeps at file scope. */
  class Planner {
    const search: SegmentSearch
    const fwd: LabelArrays
    const rev: LabelArrays
    const cands: array<Keyed>
    const bits: array<bv32>

    constructor (layout: Layout)
      requires WellFormed(layout)
      ensures Valid() && search.t == layout
    {
      var s := new SegmentSearch(layout);
      var f, r := TwoLabels(|layout|);
      search, fwd, rev := s, f, r;
      cands := new Keyed[|layout|](i => Keyed(0, 0));
      bits := new bv32[Words(|layout|)];
    }

    ghost predicate Apart() {
      search.Own() !! fwd.Footprint() && search.Own() !! rev.Footprint() && {cands, bits} !! fwd.Footprint() &&
      {cands, bits} !! rev.Footprint() && fwd.Footprint() !! rev.Footprint() && {cands, bits} !! search.Own()
    }

    ghost predicate Valid()
      reads this, search, search.segs, search.free, fwd, rev
    {
      search.Valid() && fwd.Sized(|search.t|) && rev.Sized(|search.t|) && Apart() &&
      cands.Length == |search.t| && bits.Length == Words(|search.t|)
    }

    /** `labels` hold the answer of a leg search from `from` to `to`. */
    ghost predicate Answers(labels: LabelArrays, rq: Request, from: int, to: int, fixed: seq<char>)
      reads this, search, labels.Footprint()
    {
      RequestOk(search.world, rq) && |fixed| == |search.world.t| && Goes(search.world, rq, from, to, fixed) &&
      0 <= from && 0 <= to < |search.world.t| == |labels.dist[..]| &&
      labels.View() == LegAnswer(search.world, from, to, rq.blocked, fixed)
    }

    /** The path and the switch settings of one leg. */
    method ReadLeg(labels: LabelArrays, ghost rq: Request, ghost from: nat, to: nat, ghost fixed: seq<char>)
      returns (dist: int, path: seq<nat>, switches: seq<(int, char)>)
      requires Valid() && labels.Sized(|search.t|) && Answers(labels, rq, from, to, fixed)
      ensures dist == LegDist(search.world, rq, from, to, fixed)
      ensures path == LegPath(search.world, rq, from, to, fixed) && switches == SwitchesOf(search.world.t, path)
      ensures InRange(search.world.t, path)
    {
      ghost var w := search.world;
      ghost var n := LegNet(w, rq, from, fixed);
      LegFound(w, rq, from, to, fixed);
      PrevStep(n, labels.View(), to);
      dist, switches := ReconstructSwitches(labels, n, to, 20);
      path := ReconstructNodes(labels, n, to, |search.t|);
    }

    ghost predicate Serves(rq: Request)
      reads this, search, bits
    {
      RequestOk(search.world, rq) && SumsFit(search.world, rq) && search.world.t == search.t &&
      Packs(bits[..], |search.t|, Blocked(rq.blocked))
    }

    /** The requests that the planner is ready to serve. */
    ghost function Served(): iset<Request>
      reads this, search, search.segs, search.free, fwd, rev, bits
    {
      iset rq: Request | Valid() && Serves(rq)
    }

    /** route_build_direct_plan; it never fails after a successful search. */
    method BuildDirectPlan(rq: Request, g: nat) returns (cand: Route)
      requires rq in Served() && Answers(fwd, rq, rq.start, g, rq.fixed)
      ensures cand == DirectRoute(search.world, rq, g)
    {
      var dist, path, switches := ReadLeg(fwd, rq, rq.start, g, rq.fixed);
      cand := Route(false, g, -1, 0, 0, dist, path, switches, [], []);
    }

    /** route_build_midrev_plan for an allowed reversal sensor. */
    method BuildMidrevPlan(rq: Request, s: nat, g: nat) returns (built: bool, cand: Route)
      requires rq in Served() && TurnsAt(search.t, s)
      requires Answers(fwd, rq, rq.start, s, rq.fixed)
      requires Answers(rev, rq, search.t[s].reverse, g, NoPins(search.t))
      ensures cand == TurningRoute(search.world, rq, s, g)
      ensures InRange(search.t, cand.path2) && built == Clear(search.t, cand.path2)
    {
      var dist1, path1, switches1 := ReadLeg(fwd, rq, rq.start, s, rq.fixed);
      var dist2, path2, switches2 := ReadLeg(rev, rq, search.t[s].reverse, g, NoPins(search.t));
      cand := Route(true, g, s, dist1, dist2, dist1 + rq.penalty + dist2, path1, switches1, path2, switches2);
      built := HasBranchClearance(search.t, path2);
    }

    /** A leg search into one of the two sets of labels; the other one stays as it is. */
    method SearchInto(labels: LabelArrays, rq: Request, from: int, to: int, fixed: seq<char>, ub: int) returns (found: bool)
      requires Valid() && Serves(rq) && (labels == fwd || labels == rev) && ub <= INF && |fixed| == |search.t|
      modifies search.heapKeys, search.heapItems, labels.Footprint()
      ensures Valid() && Serves(rq) && found == LegWithin(search.world, from, to, rq.blocked, fixed, ub)
      ensures found ==> labels.View() == LegAnswer(search.world, from, to, rq.blocked, fixed)
    {
      found := search.SearchLeg(labels, from, to, rq.blocked, bits[..], fixed, ub);
    }

    /** A leg search from the start into the forward labels. */
    method ForwardLeg(rq: Request, to: int, ub: int) returns (found: bool)
      requires rq in Served() && ub <= INF
      modifies search.heapKeys, search.heapItems, fwd.Footprint()
      ensures rq in Served() && found == Fits(search.world, rq, rq.start, to, rq.fixed, ub)
      ensures found ==> Answers(fwd, rq, rq.start, to, rq.fixed)
    {
      LegUnder(search.world, rq, rq.start, to, rq.fixed, ub);
      found := SearchInto(fwd, rq, rq.start, to, rq.fixed, ub);
    }

    /** A leg search without pinned switches into the labels of the second leg. */
    method ReverseLeg(rq: Request, from: int, to: int, ub: int) returns (found: bool)
      requires rq in Served() && ub <= INF
      modifies search.heapKeys, search.heapItems, rev.Footprint()
      ensures rq in Served() && found == Fits(search.world, rq, from, to, NoPins(search.t), ub)
      ensures found ==> Answers(rev, rq, from, to, NoPins(search.t))
      ensures fwd.View() == old(fwd.View())
    {
      LegUnder(search.world, rq, from, to, NoPins(search.t), ub);
      found := SearchInto(rev, rq, from, to, NoPins(search.t), ub);
    }

    /** The direct search of one target. */
    method TryDirect(rq: Request, order: nat, g: nat, l: Leader, ghost c: Choice, ghost seen: iset<Choice>)
      returns (m: Leader, ghost d: Choice)
      requires rq in Served() && order < 2 && rq.direct && g == TargetOf(search.t, rq, order)
      requires c in Leaders(search.world, rq, l, seen)
      modifies search.heapKeys, search.heapItems, fwd.Footprint()
      ensures rq in Served() && d in Leaders(search.world, rq, m, seen + iset{Choice(order, -1)})
    {
      ghost var w, b := search.world, Choice(order, -1);
      BoundRange(w, rq, l, c);
      var found := ForwardLeg(rq, g, l.total);
      if !found {
        DirectHopeless(w, rq, l, c, order);
        SkipOne(w, rq, l, c, seen, b);
        return l, c;
      }
      var cand := BuildDirectPlan(rq, g);
      d := Improved(w, rq, l, c, seen, b);
      m := Improve(l, cand, order);
    }

    /** One pass of the reversal loop for a candidate sensor that may still win. */
    method TryReversal(rq: Request, order: nat, g: nat, s: nat, l: Leader, ghost k: Trial)
      returns (m: Leader, ghost d: Choice)
      requires rq in Served() && k in Trials(search.world, rq) && k.b == Choice(order, s) && k.g == g && k.l == l
      modifies search.heapKeys, search.heapItems, fwd.Footprint(), rev.Footprint()
      ensures rq in Served() && d in Leaders(search.world, rq, m, k.seen + iset{k.b})
    {
      TrialFacts(search.world, rq, k);
      var after := search.free[search.t[s].reverse, g];
      assert after == After(search.world, k);
      var found := FirstLeg(rq, s, l, SubBound(l.total, rq.penalty + after));
      if !found {
        FirstLegHopeless(search.world, rq, k);
        return l, k.c;
      }
      m, d := TrySecondLeg(rq, order, g, s, l, after, k);
    }

    /** The first leg search, unless the cheapest second leg alone exceeds the bound. */
    method FirstLeg(rq: Request, s: nat, l: Leader, bound: int) returns (found: bool)
      requires rq in Served() && bound <= INF
      modifies search.heapKeys, search.heapItems, fwd.Footprint()
      ensures rq in Served() && found == Fits(search.world, rq, rq.start, s, rq.fixed, bound)
      ensures found ==> Answers(fwd, rq, rq.start, s, rq.fixed)
    {
      if l.found && bound < 0 {
        return false;
      }
      found := ForwardLeg(rq, s, bound);
    }

    /** The rest of the pass once the first leg has been found. */
    method TrySecondLeg(rq: Request, order: nat, g: nat, s: nat, l: Leader, after: int, ghost k: Trial)
      returns (m: Leader, ghost d: Choice)
      requires rq in Served() && k in Trials(search.world, rq) && k.b == Choice(order, s) && k.g == g && k.l == l
      requires after == After(search.world, k) && Answers(fwd, rq, rq.start, s, rq.fixed)
      modifies search.heapKeys, search.heapItems, rev.Footprint()
      ensures rq in Served() && d in Leaders(search.world, rq, m, k.seen + iset{k.b})
    {
      var goOn := FirstLegServes(rq, s, l, after, k);
      if !goOn {
        return l, k.c;
      }
      m, d := TryBothLegs(rq, order, g, s, l, k);
    }

    /** The rest of the pass once the first leg has passed the tests. */
    method TryBothLegs(rq: Request, order: nat, g: nat, s: nat, l: Leader, ghost k: Trial)
      returns (m: Leader, ghost d: Choice)
      requires rq in Served() && k in Trials(search.world, rq) && k.b == Choice(order, s) && k.g == g && k.l == l
      requires TurnsAt(search.t, s) && Answers(fwd, rq, rq.start, s, rq.fixed)
      requires LegDist(search.world, rq, rq.start, s, rq.fixed) >= rq.minDist
      modifies search.heapKeys, search.heapItems, rev.Footprint()
      ensures rq in Served() && d in Leaders(search.world, rq, m, k.seen + iset{k.b})
    {
      var found := TryRest(rq, g, s, l, k);
      if !found {
        SecondLegHopeless(search.world, rq, k, search.t[s].reverse);
        return l, k.c;
      }
      m, d := OfferReversal(rq, order, g, s, l, k);
    }

    /** The tests between the two legs. */
    method FirstLegServes(rq: Request, s: nat, l: Leader, after: int, ghost k: Trial) returns (goOn: bool)
      requires rq in Served() && k in Trials(search.world, rq) && k.b.sensor == s && k.l == l
      requires after == After(search.world, k) && Answers(fwd, rq, rq.start, s, rq.fixed)
      ensures if goOn then LegDist(search.world, rq, rq.start, s, rq.fixed) >= rq.minDist
              else k.c in Leaders(search.world, rq, l, k.seen + iset{k.b})
    {
      var firstDist := fwd.dist[s];
      assert firstDist == LegDist(search.world, rq, rq.start, s, rq.fixed);
      goOn := !(firstDist == INF || firstDist < rq.minDist || (l.found && firstDist + rq.penalty + after > l.total));
      if !goOn {
        BetweenLegsHopeless(search.world, rq, k);
      }
    }

    /** The second leg search within what the first leg has left over. */
    method TryRest(rq: Request, g: nat, s: nat, l: Leader, ghost k: Trial) returns (found: bool)
      requires rq in Served() && k in Trials(search.world, rq) && k.b.sensor == s && k.g == g && k.l == l
      requires TurnsAt(search.t, s) && Answers(fwd, rq, rq.start, s, rq.fixed)
      modifies search.heapKeys, search.heapItems, rev.Footprint()
      ensures rq in Served() && Answers(fwd, rq, rq.start, s, rq.fixed)
      ensures found == Fits(search.world, rq, search.t[s].reverse, g, NoPins(search.t),
                            SubBound(l.total, LegDist(search.world, rq, rq.start, s, rq.fixed) + rq.penalty))
      ensures found ==> Answers(rev, rq, search.t[s].reverse, g, NoPins(search.t))
    {
      SecondBound(search.world, rq, k);
      found := SecondLeg(rq, g, s, l, SubBound(l.total, fwd.dist[s] + rq.penalty));
    }

    /** The second leg search, unless the first leg has used up the bound. */
    method SecondLeg(rq: Request, g: nat, s: nat, l: Leader, bound: int) returns (found: bool)
      requires rq in Served() && TurnsAt(search.t, s) && bound <= INF
      requires Answers(fwd, rq, rq.start, s, rq.fixed)
      modifies search.heapKeys, search.heapItems, rev.Footprint()
      ensures rq in Served() && Answers(fwd, rq, rq.start, s, rq.fixed)
      ensures found == Fits(search.world, rq, search.t[s].reverse, g, NoPins(search.t), bound)
      ensures found ==> Answers(rev, rq, search.t[s].reverse, g, NoPins(search.t))
    {
      if l.found && bound < 0 {
        return false;
      }
      found := ReverseLeg(rq, search.t[s].reverse, g, bound);
    }

    /** Both legs have been found: the second threshold, the clearance and the comparison. */
    method OfferReversal(rq: Request, order: nat, g: nat, s: nat, l: Leader, ghost k: Trial)
      returns (m: Leader, ghost d: Choice)
      requires rq in Served() && k in Trials(search.world, rq) && k.b == Choice(order, s) && k.g == g && k.l == l
      requires TurnsAt(search.t, s) && Answers(fwd, rq, rq.start, s, rq.fixed)
      requires Answers(rev, rq, search.t[s].reverse, g, NoPins(search.t))
      requires LegDist(search.world, rq, rq.start, s, rq.fixed) >= rq.minDist
      ensures d in Leaders(search.world, rq, m, k.seen + iset{k.b})
    {
      ghost var w := search.world;
      var secondDist := rev.dist[g];
      assert secondDist == LegDist(w, rq, w.t[s].reverse, g, NoPins(w.t));
      LegFound(w, rq, w.t[s].reverse, g, NoPins(w.t));
      if secondDist == INF || secondDist < rq.minDist {
        SkipOne(w, rq, l, k.c, k.seen, k.b);
        return l, k.c;
      }
      var built, cand := BuildMidrevPlan(rq, s, g);
      if !built {
        SkipOne(w, rq, l, k.c, k.seen, k.b);
        return l, k.c;
      }
      d := Improved(w, rq, l, k.c, k.seen, k.b);
      m := Improve(l, cand, order);
    }

    /** The first loop of route_build_reversal_candidates. */
    method CollectCandidates(rq: Request, g: nat) returns (count: nat)
      requires rq in Served() && g < |search.t|
      modifies cands
      ensures count <= cands.Length && Collected(search.world, rq, g, cands[..count], |search.t|)
    {
      count := 0;
      for i := 0 to |search.t|
        invariant count <= i && Collected(search.world, rq, g, cands[..count], i)
      {
        count := CollectSensor(rq, g, i, count);
      }
    }

    /** One sensor of that loop. */
    method CollectSensor(rq: Request, g: nat, i: nat, count: nat) returns (more: nat)
      requires rq in Served() && g < |search.t| && count <= i < |search.t| && Collected(search.world, rq, g, cands[..count], i)
      modifies cands
      ensures more <= i + 1 && Collected(search.world, rq, g, cands[..more], i + 1)
    {
      ghost var w, s := search.world, cands[..count];
      var bounded, key := BoundOf(rq, g, i);
      if !bounded {
        CollectNone(w, rq, g, s, i);
        return count;
      }
      cands[count] := Keyed(key, i);
      assert cands[..count + 1] == s + [Keyed(key, i)];
      CollectOne(w, rq, g, s, Keyed(key, i));
      more := count + 1;
    }

    /** The lower bound of a plan that turns at node `i`, if it is a candidate. */
    method BoundOf(rq: Request, g: nat, i: nat) returns (bounded: bool, key: int)
      requires rq in Served() && g < |search.t| && i < |search.t|
      ensures bounded == IsCandidate(search.world, rq.start, g, i)
      ensures bounded ==> key == LowerBound(search.world, rq.start, g, rq.penalty, i)
    {
      bounded, key := false, 0;
      if TurnsAt(search.t, i) {
        var dist, after := search.free[rq.start, i], search.free[search.t[i].reverse, g];
        bounded, key := dist != INF && after != INF, dist + rq.penalty + after;
      }
    }

    /** route_build_reversal_candidates. */
    method BuildCandidates(rq: Request, g: nat) returns (count: nat)
      requires rq in Served() && g < |search.t|
      modifies cands
      ensures rq in Served() && count <= cands.Length && ListsCandidates(search.world, rq, g, cands[..count])
    {
      count := CollectCandidates(rq, g);
      ghost var s := cands[..count];
      CollectedAll(search.world, rq, g, s);
      SortPrefix(cands, count);
      SortedLists(search.world, rq, g, s, cands[..count]);
    }

    /** The reversal loop for one target. */
    method TryReversals(rq: Request, order: nat, g: nat, l: Leader, ghost c: Choice, ghost seen: iset<Choice>)
      returns (m: Leader, ghost d: Choice)
      requires rq in Served() && order < 2 && g == TargetOf(search.t, rq, order) && g < |search.t|
      requires c in Leaders(search.world, rq, l, seen)
      modifies cands, search.heapKeys, search.heapItems, fwd.Footprint(), rev.Footprint()
      ensures rq in Served() && d in Leaders(search.world, rq, m, seen + Reversals(order))
    {
      var count := BuildCandidates(rq, g);
      ghost var w, all, s := search.world, cands[..], cands[..count];
      m, d := l, c;
      var ci := 0;
      assert seen + Tried(order, s, 0) == seen;
      while ci < count
        invariant ci <= count && cands[..] == all && rq in Served() && d in Leaders(w, rq, m, seen + Tried(order, s, ci))
      {
        var x := cands[ci];
        assert x == s[ci];
        if m.found && x.key > m.total {
          break;
        }
        NextTrial(w, rq, order, g, m, d, seen, s, ci);
        m, d := TryReversal(rq, order, g, x.idx, m, Trial(Choice(order, x.idx), g, m, d, seen + Tried(order, s, ci)));
        ci := ci + 1;
      }
      RestHopeless(w, rq, m, d, seen, order, s, ci);
    }

    /** The node indices of a target and its reverse, -1 for NULL. */
    ghost predicate Aims(rq: Request, targets: seq<int>)
      reads this, search
    {
      rq.target < |search.t| && |targets| == 2 &&
      forall order :: 0 <= order < 2 ==> targets[order] == TargetOf(search.t, rq, order) < |search.t|
    }

    /** The direct searches for both targets. */
    method DirectLoop(rq: Request, targets: seq<int>) returns (m: Leader, ghost d: Choice)
      requires rq in Served() && rq.direct && Aims(rq, targets)
      modifies search.heapKeys, search.heapItems, fwd.Footprint()
      ensures rq in Served() && d in Leaders(search.world, rq, m, Directs(rq, 2))
    {
      NothingSeen(search.world, rq);
      m, d := NoLeader(), Choice(2, -1);
      var ti := 0;
      while ti < 2
        invariant ti <= 2 && rq in Served() && d in Leaders(search.world, rq, m, Directs(rq, ti))
      {
        if targets[ti] >= 0 {
          m, d := TryDirect(rq, ti, targets[ti], m, d, Directs(rq, ti));
        } else {
          NoDirect(search.world, rq, m, d, Directs(rq, ti), ti);
        }
        DirectsNext(rq, ti);
        ti := ti + 1;
      }
    }

    /** The reversal searches for both targets. */
    method ReversalLoop(rq: Request, targets: seq<int>, l: Leader, ghost c: Choice) returns (m: Leader)
      requires rq in Served() && Aims(rq, targets) && c in Leaders(search.world, rq, l, Directs(rq, 2))
      modifies cands, search.heapKeys, search.heapItems, fwd.Footprint(), rev.Footprint()
      ensures rq in Served() && Answer(search.world, rq, m.found, m.route)
    {
      ghost var d := c;
      m := l;
      var ti := 0;
      TurnsStart(rq);
      while ti < 2
        invariant ti <= 2 && rq in Served() && d in Leaders(search.world, rq, m, Considered(rq, ti))
      {
        if targets[ti] >= 0 {
          m, d := TryReversals(rq, ti, targets[ti], m, d, Considered(rq, ti));
        } else {
          NoReversals(search.world, rq, m, d, Considered(rq, ti), ti);
        }
        TurnsNext(rq, ti);
        ti := ti + 1;
      }
      LeaderIsAnswer(search.world, rq, m, d);
    }

    /** Packing the blocked nodes makes the planner ready for a request. */
    method Prepare(rq: Request) returns (targets: seq<int>)
      requires Valid() && RequestOk(search.world, rq) && SumsFit(search.world, rq) && search.world.t == search.t
      modifies bits
      ensures rq in Served() && Aims(rq, targets)
    {
      targets := [rq.target, search.t[rq.target].reverse];
      assert NodeOk(search.t, rq.target);
      PackBlocked(rq.blocked, bits);
    }

    /** bfs_find_route_optimal_constrained. Node indices are -1 for NULL. */
    method FindOptimal(start: int, target: int, dBrake: int, minDist: int, blocked: seq<bool>, fixed: seq<char>)
      returns (found: bool, plan: Route)
      requires Valid() && |blocked| == |fixed| == |search.t| && start < |search.t| && target < |search.t|
      requires start >= 0 && target >= 0 ==>
                 var rq := Request(start, target, 2 * dBrake, minDist, true, blocked, fixed);
                 RequestOk(search.world, rq) ==> SumsFit(search.world, rq)
      modifies cands, bits, search.heapKeys, search.heapItems, fwd.Footprint(), rev.Footprint()
      ensures Valid() && (start < 0 || target < 0 ==> !found)
      ensures start >= 0 && target >= 0 ==>
                var rq := Request(start, target, 2 * dBrake, minDist, true, blocked, fixed);
                RequestOk(search.world, rq) && Answer(search.world, rq, found, plan) &&
                Fulfils(search.t, rq, found, plan)
    {
      if start < 0 || target < 0 {
        return false, NoLeader().route;
      }
      var rq := Request(start, target, 2 * dBrake, minDist, true, blocked, fixed);
      var targets := Prepare(rq);
      ghost var c;
      var l;
      l, c := DirectLoop(rq, targets);
      l := ReversalLoop(rq, targets, l, c);
      AnswerFulfils(search.world, rq, l.found, l.route);
      return l.found, l.route;
    }

    /** bfs_find_bootstrap_midrev: no direct plan, and no penalty for the reversal. */
    method FindBootstrap(start: int, target: int, dBrake: int, minDist: int, blocked: seq<bool>, fixed: seq<char>)
      returns (found: bool, plan: Route)
      requires Valid() && |blocked| == |fixed| == |search.t| && start < |search.t| && target < |search.t|
      modifies cands, bits, search.heapKeys, search.heapItems, fwd.Footprint(), rev.Footprint()
      ensures Valid() && (start < 0 || target < 0 ==> !found)
      ensures start >= 0 && target >= 0 ==>
                var rq := Request(start, target, 0, minDist, false, blocked, fixed);
                RequestOk(search.world, rq) && Answer(search.world, rq, found, plan) &&
                Fulfils(search.t, rq, found, plan)
      ensures found && dBrake <= minDist ==> plan.afterReversal >= dBrake
    {
      if start < 0 || target < 0 {
        return false, NoLeader().route;
      }
      var rq := Request(start, target, 0, minDist, false, blocked, fixed);
      PenaltyFits(search.world, rq);
      var targets := Prepare(rq);
      NothingSeen(search.world, rq);
      NoDirects(search.world, rq, NoLeader(), Choice(2, -1));
      var l := ReversalLoop(rq, targets, NoLeader(), Choice(2, -1));
      AnswerFulfils(search.world, rq, l.found, l.route);
      LegsLongEnough(search.world, rq, l.found, l.route);
      return l.found, l.route;
    }
  }
}
