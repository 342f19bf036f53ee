/** The plans that route_search.c chooses from and the order it prefers them in: every direct plan and
    every plan with one reversal that a search without any pruning would build. */
module RouteSpec {
  import opened Track
  import opened AStarSpec
  import opened AStar
  import opened InsertionOrder
  import opened Plan

  /** The arguments of one planning call. `penalty` is 2 * d_brake, and `direct` is false for the
      bootstrap search, which plans no direct route and charges no penalty. */
  datatype Request = Request(start: nat, target: nat, penalty: int, minDist: int, direct: bool,
                             blocked: seq<bool>, fixed: seq<char>)

  /** route_plan_t; `sensor` is -1 for a plan without reversal. */
  datatype Route = Route(hasReversal: bool, target: nat, sensor: int, toReversal: int, afterReversal: int,
                         total: int, path: seq<nat>, switches: seq<(int, char)>,
                         path2: seq<nat>, switches2: seq<(int, char)>)

  /** Which target (0: as asked, 1: its reverse) and which reversal sensor, -1 for none. */
  datatype Choice = Choice(order: nat, sensor: int)

  ghost function Requests(w: World): iset<Request> {
    iset rq: Request |
      WorldOk(w) && rq.start < |w.t| && rq.target < |w.t| && |rq.blocked| == |rq.fixed| == |w.t|
  }

  ghost predicate RequestOk(w: World, rq: Request) {
    rq in Requests(w)
  }

  function TargetOf(t: Layout, rq: Request, order: nat): int
    requires rq.target < |t|
  {
    if order == 0 then rq.target else t[rq.target].reverse
  }

  /** route_sensor_name_is for any of `names`. */
  predicate Named(t: Layout, v: int, names: seq<string>) {
    0 <= v < |t| && t[v].kind == Sensor && t[v].name in names
  }

  /** route_midrev_reversal_allowed. */
  predicate ReversalAllowed(t: Layout, s: nat)
    requires s < |t|
  {
    !Named(t, s, ["C12", "E5", "E14", "C9"]) && !Named(t, t[s].reverse, ["E12", "E6"])
  }

  /** A train may stop and turn at sensor `s`. */
  predicate TurnsAt(t: Layout, s: int) {
    0 <= s < |t| && t[s].kind == Sensor && 0 <= t[s].reverse < |t| && ReversalAllowed(t, s)
  }

  /** A NULL pointer for the pinned switches. */
  function NoPins(t: Layout): (f: seq<char>)
    ensures |f| == |t|
  {
    seq(|t|, i => '?')
  }

  // ---------- one leg ----------

  /** The length of a leg, INF if it cannot be travelled. */
  ghost function LegDist(w: World, rq: Request, from: int, to: int, fixed: seq<char>): int
    requires RequestOk(w, rq) && |fixed| == |w.t|
  {
    if 0 <= from < |w.t| && 0 <= to < |w.t| then LegAnswer(w, from, to, rq.blocked, fixed).dist[to] else INF
  }

  ghost predicate Goes(w: World, rq: Request, from: int, to: int, fixed: seq<char>)
    requires RequestOk(w, rq) && |fixed| == |w.t|
  {
    LegDist(w, rq, from, to, fixed) != INF
  }

  /** The leg can be travelled within a bound, where INF stands for no bound. */
  ghost predicate Fits(w: World, rq: Request, from: int, to: int, fixed: seq<char>, ub: int)
    requires RequestOk(w, rq) && |fixed| == |w.t|
  {
    0 <= ub && Goes(w, rq, from, to, fixed) && (ub == INF || LegDist(w, rq, from, to, fixed) <= ub)
  }

  ghost function LegPath(w: World, rq: Request, from: int, to: int, fixed: seq<char>): seq<nat>
    requires RequestOk(w, rq) && |fixed| == |w.t| && Goes(w, rq, from, to, fixed)
  {
    PathOf(LegAnswer(w, from, to, rq.blocked, fixed), to)
  }

  function LegNet(w: World, rq: Request, from: nat, fixed: seq<char>): Net {
    Net(w.t, from, rq.blocked, fixed)
  }

  /** A leg's path is a simple path along allowed edges, and its length is the shortest distance. */
  ghost predicate LegReal(w: World, rq: Request, from: nat, to: nat, fixed: seq<char>, p: seq<nat>, d: int)
    requires RequestOk(w, rq) && |fixed| == |w.t| && from < |w.t|
  {
    var n := LegNet(w, rq, from, fixed);
    Joins(n, p, from, to) && Distinct(p) && LinkSum(w.t, p) == d == Cost(w.t, p) && IsDistance(n, from, to, d) &&
    0 <= d <= 255 * 32767
  }

  /** A leg can be travelled exactly when its end is connected to its start. */
  lemma GoesIffConnected(w: World, rq: Request, from: nat, to: nat, fixed: seq<char>)
    requires RequestOk(w, rq) && |fixed| == |w.t| && from < |w.t| && to < |w.t|
    ensures Goes(w, rq, from, to, fixed) <==> Connected(LegNet(w, rq, from, fixed), from, to)
    ensures Goes(w, rq, from, to, fixed) <==> LegWithin(w, from, to, rq.blocked, fixed, INF)
  {
    var q := LegQuery(w, from, to, rq.blocked, fixed, INF);
    LegQueryOk(w, from, to, rq.blocked, fixed, INF);
    LegSearch(q);
    assert Unbounded(q) == q;
    LegLabelsAre(q);
    if !Run(q, Start(q)).l.done[to] {
      UnfoundLabel(q);
    }
  }

  lemma LegFound(w: World, rq: Request, from: int, to: int, fixed: seq<char>)
    requires RequestOk(w, rq) && |fixed| == |w.t| && Goes(w, rq, from, to, fixed)
    ensures 0 <= from < |w.t| && 0 <= to < |w.t|
    ensures Tree(LegNet(w, rq, from, fixed), LegAnswer(w, from, to, rq.blocked, fixed))
    ensures LegDist(w, rq, from, to, fixed) < INF
    ensures LegReal(w, rq, from, to, fixed, LegPath(w, rq, from, to, fixed), LegDist(w, rq, from, to, fixed))
  {
    var q := LegQuery(w, from, to, rq.blocked, fixed, INF);
    LegQueryOk(w, from, to, rq.blocked, fixed, INF);
    GoesIffConnected(w, rq, from, to, fixed);
    LegSearch(q);
    assert Unbounded(q) == q;
    LegLabelsAre(q);
    FaithfulRoute(q, Run(q, Start(q)));
  }

  /** A bounded search fails only where the leg is longer than its bound. */
  lemma LegUnder(w: World, rq: Request, from: int, to: int, fixed: seq<char>, ub: int)
    requires RequestOk(w, rq) && |fixed| == |w.t| && ub <= INF
    ensures LegWithin(w, from, to, rq.blocked, fixed, ub) <==> Fits(w, rq, from, to, fixed, ub)
  {
    if 0 <= from < |w.t| && 0 <= to < |w.t| && 0 <= ub {
      var q, u := LegQuery(w, from, to, rq.blocked, fixed, ub), LegQuery(w, from, to, rq.blocked, fixed, INF);
      GoesIffConnected(w, rq, from, to, fixed);
      if LegWithin(w, from, to, rq.blocked, fixed, ub) {
        var p :| Joins(q.net, p, from, to) && Within(q, Cost(w.t, p));
        assert Joins(u.net, p, from, to) && Within(u, Cost(w.t, p));
        LegFound(w, rq, from, to, fixed);
        assert LegDist(w, rq, from, to, fixed) <= Cost(w.t, p);
      } else if Goes(w, rq, from, to, fixed) {
        LegFound(w, rq, from, to, fixed);
        var p := LegPath(w, rq, from, to, fixed);
        assert Joins(q.net, p, from, to) && !Within(q, Cost(w.t, p));
      }
    }
  }

  /** The free-track distance never exceeds the length of a constrained leg. */
  lemma FreeIsLower(w: World, rq: Request, from: int, to: int, fixed: seq<char>)
    requires RequestOk(w, rq) && |fixed| == |w.t| && Goes(w, rq, from, to, fixed)
    ensures 0 <= from < |w.t| && 0 <= to < |w.t| && w.dist[from][to] != INF
    ensures 0 <= w.dist[from][to] <= LegDist(w, rq, from, to, fixed)
  {
    LegFound(w, rq, from, to, fixed);
    var q := LegQuery(w, from, to, rq.blocked, fixed, INF);
    LegQueryOk(w, from, to, rq.blocked, fixed, INF);
    GoalHeuristic(q);
    Consistent(q, LegPath(w, rq, from, to, fixed), from, to);
    HeuristicRange(q, from);
  }

  // ---------- plans ----------

  /** An unpruned search would build a plan for `c`. */
  ghost predicate Builds(w: World, rq: Request, c: Choice)
    requires RequestOk(w, rq)
  {
    c.order < 2 &&
    var g := TargetOf(w.t, rq, c.order);
    if c.sensor < 0 then c.sensor == -1 && rq.direct && Goes(w, rq, rq.start, g, rq.fixed)
    else TurnsAt(w.t, c.sensor) && Turns(w, rq, c.sensor, g)
  }

  /** Both legs of a reversal exist and are long enough, and there is room for the train beyond it. */
  ghost predicate Turns(w: World, rq: Request, s: nat, g: int)
    requires RequestOk(w, rq) && TurnsAt(w.t, s)
  {
    Goes(w, rq, rq.start, s, rq.fixed) && Goes(w, rq, w.t[s].reverse, g, NoPins(w.t)) &&
    LegDist(w, rq, rq.start, s, rq.fixed) >= rq.minDist &&
    LegDist(w, rq, w.t[s].reverse, g, NoPins(w.t)) >= rq.minDist &&
    var p := LegPath(w, rq, w.t[s].reverse, g, NoPins(w.t));
    InRange(w.t, p) && Clear(w.t, p)
  }

  ghost function SwitchesOf(t: Layout, p: seq<nat>): seq<(int, char)> {
    if InRange(t, p) then LastOf(Crossings(t, p), 20) else []
  }

  ghost function DirectRoute(w: World, rq: Request, g: int): Route
    requires RequestOk(w, rq) && Goes(w, rq, rq.start, g, rq.fixed)
  {
    var p := LegPath(w, rq, rq.start, g, rq.fixed);
    Route(false, g, -1, 0, 0, LegDist(w, rq, rq.start, g, rq.fixed), p, SwitchesOf(w.t, p), [], [])
  }

  ghost function TurningRoute(w: World, rq: Request, s: nat, g: int): Route
    requires RequestOk(w, rq) && TurnsAt(w.t, s)
    requires Goes(w, rq, rq.start, s, rq.fixed) && Goes(w, rq, w.t[s].reverse, g, NoPins(w.t))
  {
    var d, e := LegDist(w, rq, rq.start, s, rq.fixed), LegDist(w, rq, w.t[s].reverse, g, NoPins(w.t));
    var p, o := LegPath(w, rq, rq.start, s, rq.fixed), LegPath(w, rq, w.t[s].reverse, g, NoPins(w.t));
    Route(true, g, s, d, e, d + rq.penalty + e, p, SwitchesOf(w.t, p), o, SwitchesOf(w.t, o))
  }

  ghost function RouteOf(w: World, rq: Request, c: Choice): Route
    requires RequestOk(w, rq) && Builds(w, rq, c)
  {
    var g := TargetOf(w.t, rq, c.order);
    if c.sensor < 0 then DirectRoute(w, rq, g) else TurningRoute(w, rq, c.sensor, g)
  }

  ghost function Total(w: World, rq: Request, c: Choice): int
    requires RequestOk(w, rq) && Builds(w, rq, c)
  {
    RouteOf(w, rq, c).total
  }

  // ---------- preference ----------

  /** route_plan_is_better once there is a best plan. */
  predicate IsBetter(cand: Route, candOrder: nat, best: Route, bestOrder: nat) {
    if cand.total != best.total then cand.total < best.total
    else if candOrder != bestOrder then candOrder < bestOrder
    else if cand.hasReversal != best.hasReversal then !cand.hasReversal
    else RevIdx(cand) < RevIdx(best)
  }

  function RevIdx(r: Route): int {
    if r.hasReversal then r.sensor else -1
  }

  ghost predicate Beats(w: World, rq: Request, c: Choice, b: Choice)
    requires RequestOk(w, rq) && Builds(w, rq, c) && Builds(w, rq, b)
  {
    IsBetter(RouteOf(w, rq, c), c.order, RouteOf(w, rq, b), b.order)
  }

  /** The preference is the lexicographic order of (total, target order, reversal sensor or -1), so of
      two different choices exactly one beats the other. */
  lemma BeatsIsLexicographic(w: World, rq: Request, c: Choice, b: Choice)
    requires RequestOk(w, rq) && Builds(w, rq, c) && Builds(w, rq, b)
    ensures Beats(w, rq, c, b) <==>
              var x, y := Total(w, rq, c), Total(w, rq, b);
              x < y || (x == y && (c.order < b.order || (c.order == b.order && c.sensor < b.sensor)))
    ensures c != b ==> (Beats(w, rq, c, b) <==> !Beats(w, rq, b, c))
  {
  }

  /** `c` is the one plan that beats every other plan an unpruned search would build. */
  ghost predicate Optimal(w: World, rq: Request, c: Choice)
    requires RequestOk(w, rq)
  {
    Builds(w, rq, c) && forall b :: Builds(w, rq, b) ==> b == c || Beats(w, rq, c, b)
  }

  lemma OptimalUnique(w: World, rq: Request, c: Choice, b: Choice)
    requires RequestOk(w, rq) && Optimal(w, rq, c) && Optimal(w, rq, b)
    ensures c == b
  {
    if c != b {
      BeatsIsLexicographic(w, rq, c, b);
    }
  }

  /** A chosen plan is made of real shortest legs; its total is what those legs and the penalty sum up
      to; and no plan that an unpruned search would build has a smaller total. */
  lemma OptimalPlanIsReal(w: World, rq: Request, c: Choice)
    requires RequestOk(w, rq) && Optimal(w, rq, c)
    ensures var r := RouteOf(w, rq, c);
            if c.sensor < 0 then LegReal(w, rq, rq.start, r.target, rq.fixed, r.path, r.total)
            else LegReal(w, rq, rq.start, c.sensor, rq.fixed, r.path, r.toReversal) &&
                 LegReal(w, rq, w.t[c.sensor].reverse, r.target, NoPins(w.t), r.path2, r.afterReversal) &&
                 r.total == r.toReversal + rq.penalty + r.afterReversal &&
                 r.toReversal >= rq.minDist && r.afterReversal >= rq.minDist && Clear(w.t, r.path2)
    ensures forall b :: Builds(w, rq, b) ==> RouteOf(w, rq, c).total <= Total(w, rq, b)
  {
    var r := RouteOf(w, rq, c);
    if c.sensor < 0 {
      LegFound(w, rq, rq.start, r.target, rq.fixed);
    } else {
      LegFound(w, rq, rq.start, c.sensor, rq.fixed);
      LegFound(w, rq, w.t[c.sensor].reverse, r.target, NoPins(w.t));
    }
  }

  // ---------- the running best plan ----------

  /** have_best, best_target_order, best_total and *best. */
  datatype Leader = Leader(found: bool, order: nat, total: int, route: Route)

  function NoLeader(): Leader {
    Leader(false, 2, INF, Route(false, 0, -1, 0, 0, 0, [], [], [], []))
  }

  /** Replacing the best plan by a better candidate. */
  function Improve(l: Leader, cand: Route, order: nat): Leader {
    if !l.found || IsBetter(cand, order, l.route, l.order) then Leader(true, order, cand.total, cand) else l
  }

  /** No plan for `b` would take the lead from `l`, which is the plan for `c`. */
  ghost predicate Yields(w: World, rq: Request, l: Leader, c: Choice, b: Choice)
    requires RequestOk(w, rq) && (l.found ==> Builds(w, rq, c))
  {
    Builds(w, rq, b) ==> l.found && (b == c || Beats(w, rq, c, b))
  }

  ghost predicate Holds(w: World, rq: Request, l: Leader, c: Choice)
    requires RequestOk(w, rq)
  {
    if !l.found then l.total == INF
    else Builds(w, rq, c) && l.route == RouteOf(w, rq, c) && l.order == c.order && l.total == l.route.total
  }

  /** `l` holds the best of the plans in `seen`, namely the plan for `c`. */
  ghost predicate Leading(w: World, rq: Request, l: Leader, c: Choice, seen: iset<Choice>)
    requires RequestOk(w, rq)
  {
    Holds(w, rq, l, c) && forall b :: b in seen ==> Yields(w, rq, l, c, b)
  }

  ghost function Leaders(w: World, rq: Request, l: Leader, seen: iset<Choice>): iset<Choice>
    requires RequestOk(w, rq)
  {
    iset c: Choice | Leading(w, rq, l, c, seen)
  }

  /** A choice that gives no plan, or only one longer than the best, can be passed over. */
  ghost predicate Hopeless(w: World, rq: Request, l: Leader, b: Choice)
    requires RequestOk(w, rq)
  {
    Builds(w, rq, b) ==> l.found && Total(w, rq, b) > l.total
  }

  lemma HopelessYields(w: World, rq: Request, l: Leader, c: Choice, b: Choice)
    requires RequestOk(w, rq) && Holds(w, rq, l, c) && Hopeless(w, rq, l, b)
    ensures Yields(w, rq, l, c, b)
  {
  }

  lemma Skip(w: World, rq: Request, l: Leader, c: Choice, seen: iset<Choice>, more: iset<Choice>)
    requires RequestOk(w, rq) && Leading(w, rq, l, c, seen)
    requires forall b :: b in more ==> b in seen || Hopeless(w, rq, l, b)
    ensures Leading(w, rq, l, c, more)
  {
    forall b | b in more ensures Yields(w, rq, l, c, b) {
      if b !in seen {
        HopelessYields(w, rq, l, c, b);
      }
    }
  }

  lemma SkipOne(w: World, rq: Request, l: Leader, c: Choice, seen: iset<Choice>, b: Choice)
    requires RequestOk(w, rq) && c in Leaders(w, rq, l, seen) && Hopeless(w, rq, l, b)
    ensures c in Leaders(w, rq, l, seen + iset{b})
  {
    Skip(w, rq, l, c, seen, seen + iset{b});
  }

  lemma BeatsChain(w: World, rq: Request, b: Choice, c: Choice, x: Choice)
    requires RequestOk(w, rq) && Builds(w, rq, b) && Builds(w, rq, c) && Builds(w, rq, x)
    requires Beats(w, rq, b, c) && (x == c || Beats(w, rq, c, x))
    ensures Beats(w, rq, b, x)
  {
    BeatsIsLexicographic(w, rq, b, c);
    BeatsIsLexicographic(w, rq, c, x);
    BeatsIsLexicographic(w, rq, b, x);
  }

  /** The plan for `b` takes the lead. */
  lemma Overtakes(w: World, rq: Request, l: Leader, c: Choice, seen: iset<Choice>, b: Choice)
    requires RequestOk(w, rq) && Leading(w, rq, l, c, seen) && Builds(w, rq, b)
    requires l.found ==> Beats(w, rq, b, c)
    ensures Leading(w, rq, Leader(true, b.order, Total(w, rq, b), RouteOf(w, rq, b)), b, seen + iset{b})
  {
    var m := Leader(true, b.order, Total(w, rq, b), RouteOf(w, rq, b));
    forall x | x in seen ensures Yields(w, rq, m, b, x) {
      if Builds(w, rq, x) {
        assert Yields(w, rq, l, c, x);
        BeatsChain(w, rq, b, c, x);
      }
    }
  }

  /** The best plan stays ahead of the plan for `b`. */
  lemma StaysAhead(w: World, rq: Request, l: Leader, c: Choice, seen: iset<Choice>, b: Choice)
    requires RequestOk(w, rq) && Leading(w, rq, l, c, seen) && Builds(w, rq, b)
    requires l.found && !Beats(w, rq, b, c)
    ensures Leading(w, rq, l, c, seen + iset{b})
  {
    assert Yields(w, rq, l, c, b) by {
      if b != c {
        BeatsIsLexicographic(w, rq, c, b);
      }
    }
  }

  lemma Improved(w: World, rq: Request, l: Leader, c: Choice, seen: iset<Choice>, b: Choice)
    returns (best: Choice)
    requires RequestOk(w, rq) && c in Leaders(w, rq, l, seen) && Builds(w, rq, b)
    ensures best in Leaders(w, rq, Improve(l, RouteOf(w, rq, b), b.order), seen + iset{b})
  {
    if !l.found || Beats(w, rq, b, c) {
      best := b;
      Overtakes(w, rq, l, c, seen, b);
    } else {
      best := c;
      StaysAhead(w, rq, l, c, seen, b);
    }
  }

  // ---------- the prunes ----------

  /** route_sub_bound. */
  function SubBound(upper: int, used: int): int {
    if upper == INF then INF else if used > upper then -1 else upper - used
  }

  /** route_free_track_dist_idx. */
  function FreeDist(w: World, x: int, y: int): int {
    if Square(w) && 0 <= x < |w.t| && 0 <= y < |w.t| then w.dist[x][y] else INF
  }

  /** No leg of a plan is shorter than its free track. */
  lemma TurnCosts(w: World, rq: Request, c: Choice)
    requires RequestOk(w, rq) && Builds(w, rq, c) && c.sensor >= 0
    ensures var g, r := TargetOf(w.t, rq, c.order), w.t[c.sensor].reverse;
            var d, e := LegDist(w, rq, rq.start, c.sensor, rq.fixed), LegDist(w, rq, r, g, NoPins(w.t));
            0 <= g < |w.t| && Total(w, rq, c) == d + rq.penalty + e &&
            FreeDist(w, rq.start, c.sensor) != INF && FreeDist(w, r, g) != INF &&
            0 <= FreeDist(w, rq.start, c.sensor) <= d && 0 <= FreeDist(w, r, g) <= e
  {
    FreeIsLower(w, rq, rq.start, c.sensor, rq.fixed);
    FreeIsLower(w, rq, w.t[c.sensor].reverse, TargetOf(w.t, rq, c.order), NoPins(w.t));
  }

  /** route_build_reversal_candidates keeps the sensors that free track connects. */
  predicate IsCandidate(w: World, start: int, g: int, s: int) {
    TurnsAt(w.t, s) && FreeDist(w, start, s) != INF && FreeDist(w, w.t[s].reverse, g) != INF
  }

  function LowerBound(w: World, start: int, g: int, penalty: int, s: int): int
    requires TurnsAt(w.t, s)
  {
    FreeDist(w, start, s) + penalty + FreeDist(w, w.t[s].reverse, g)
  }

  /** What the candidate list promises: a sensor it lacks gives no plan, and the plan of one it holds
      costs at least its lower bound. */
  lemma CandidateBound(w: World, rq: Request, c: Choice)
    requires RequestOk(w, rq) && Builds(w, rq, c) && c.sensor >= 0
    ensures var g := TargetOf(w.t, rq, c.order);
            IsCandidate(w, rq.start, g, c.sensor) &&
            LowerBound(w, rq.start, g, rq.penalty, c.sensor) <= Total(w, rq, c)
  {
    TurnCosts(w, rq, c);
  }

  // ---------- 32-bit sums ----------

  predicate Int32(x: int) {
    -0x8000_0000 <= x <= 0x7FFF_FFFF
  }

  /** The sums that the search can form for `b` fit 32 bits: what a direct plan leaves over for two legs; the lower
      bound of a reversal, its first leg with the cheapest second one, and its total, which is also not the value
      that stands for "no plan yet". */
  ghost predicate SumFits(w: World, rq: Request, b: Choice)
    requires RequestOk(w, rq)
  {
    var g := TargetOf(w.t, rq, b.order);
    if b.sensor < 0 then
      Goes(w, rq, rq.start, g, rq.fixed) ==> Int32(LegDist(w, rq, rq.start, g, rq.fixed) - rq.penalty)
    else
      IsCandidate(w, rq.start, g, b.sensor) ==>
        Int32(LowerBound(w, rq.start, g, rq.penalty, b.sensor)) &&
        (Goes(w, rq, rq.start, b.sensor, rq.fixed) ==> LaterSumsFit(w, rq, b.sensor, w.t[b.sensor].reverse, g))
  }

  ghost predicate LaterSumsFit(w: World, rq: Request, s: nat, r: int, g: int)
    requires RequestOk(w, rq)
  {
    var d, e := LegDist(w, rq, rq.start, s, rq.fixed), LegDist(w, rq, r, g, NoPins(w.t));
    Int32(d + rq.penalty + FreeDist(w, r, g)) && (e != INF ==> Int32(d + rq.penalty + e) && d + rq.penalty + e != INF)
  }

  ghost predicate SumsFit(w: World, rq: Request)
    requires RequestOk(w, rq)
  {
    Int32(rq.penalty) && forall b: Choice :: b.order < 2 ==> SumFits(w, rq, b)
  }

  lemma FreeRange(w: World, rq: Request, x: int, y: int)
    requires RequestOk(w, rq) && FreeDist(w, x, y) != INF
    ensures 0 <= FreeDist(w, x, y) <= 8_355_585
  {
    LegQueryOk(w, x, y, rq.blocked, rq.fixed, INF);
    HeuristicRange(LegQuery(w, x, y, rq.blocked, rq.fixed, INF), x);
  }

  /** On every track all sums fit if the penalty is between -2130000000 and 2130000000 mm. */
  lemma PenaltyFits(w: World, rq: Request)
    requires RequestOk(w, rq) && -2_130_000_000 <= rq.penalty <= 2_130_000_000
    ensures SumsFit(w, rq)
  {
    forall b: Choice | b.order < 2 ensures SumFits(w, rq, b) {
      var g := TargetOf(w.t, rq, b.order);
      if b.sensor < 0 {
        LegRange(w, rq, rq.start, g, rq.fixed);
      } else if IsCandidate(w, rq.start, g, b.sensor) {
        FreeRange(w, rq, rq.start, b.sensor);
        FreeRange(w, rq, w.t[b.sensor].reverse, g);
        LegRange(w, rq, rq.start, b.sensor, rq.fixed);
        LegRange(w, rq, w.t[b.sensor].reverse, g, NoPins(w.t));
      }
    }
  }

  lemma LegRange(w: World, rq: Request, from: int, to: int, fixed: seq<char>)
    requires RequestOk(w, rq) && |fixed| == |w.t|
    ensures Goes(w, rq, from, to, fixed) ==> 0 <= LegDist(w, rq, from, to, fixed) <= 8_355_585
  {
    if Goes(w, rq, from, to, fixed) {
      LegFound(w, rq, from, to, fixed);
    }
  }

  /** Then a plan's total is in range, and so is what it leaves over for the legs of another one. */
  lemma TotalRange(w: World, rq: Request, c: Choice)
    requires RequestOk(w, rq) && SumsFit(w, rq) && Builds(w, rq, c)
    ensures Int32(Total(w, rq, c)) && Total(w, rq, c) != INF && Total(w, rq, c) - rq.penalty <= INF
    ensures c.sensor < 0 ==> Total(w, rq, c) >= 0
  {
    assert SumFits(w, rq, c);
    var g := TargetOf(w.t, rq, c.order);
    if c.sensor < 0 {
      LegRange(w, rq, rq.start, g, rq.fixed);
    } else {
      CandidateBound(w, rq, c);
      LegRange(w, rq, rq.start, c.sensor, rq.fixed);
      LegRange(w, rq, w.t[c.sensor].reverse, g, NoPins(w.t));
    }
  }

  /** One pass of the reversal loop: the choice it considers, the node it heads for, and the best plan
      (that of `c`) among those `seen` before it. */
  datatype Trial = Trial(b: Choice, g: nat, l: Leader, c: Choice, seen: iset<Choice>)

  ghost function Trials(w: World, rq: Request): iset<Trial> {
    iset k: Trial |
      RequestOk(w, rq) && SumsFit(w, rq) && k.b.order < 2 && k.g == TargetOf(w.t, rq, k.b.order) && k.g < |w.t| &&
      IsCandidate(w, rq.start, k.g, k.b.sensor) && k.c in Leaders(w, rq, k.l, k.seen)
  }

  /** The free track beyond the reversal. */
  ghost function After(w: World, k: Trial): int {
    if 0 <= k.b.sensor < |w.t| then FreeDist(w, w.t[k.b.sensor].reverse, k.g) else INF
  }

  /** Every bound handed to a leg search is in range. */
  lemma BoundRange(w: World, rq: Request, l: Leader, c: Choice)
    requires RequestOk(w, rq) && SumsFit(w, rq) && Holds(w, rq, l, c)
    ensures l.total <= INF && (l.found <==> l.total != INF)
    ensures l.found ==> l.total - rq.penalty <= INF
  {
    if l.found {
      TotalRange(w, rq, c);
    }
  }

  lemma TrialFacts(w: World, rq: Request, k: Trial)
    requires k in Trials(w, rq)
    ensures RequestOk(w, rq) && TurnsAt(w.t, k.b.sensor) && 0 <= After(w, k) < INF
    ensures k.l.total <= INF && (k.l.found <==> k.l.total != INF)
    ensures k.l.found ==> k.l.total - rq.penalty <= INF
  {
    BoundRange(w, rq, k.l, k.c);
    assert FreeDistance(w.t, w.t[k.b.sensor].reverse, k.g, After(w, k));
  }

  /** If the first leg cannot be done within what the penalty and the cheapest second leg leave over,
      the reversal is hopeless. */
  lemma FirstLegHopeless(w: World, rq: Request, k: Trial)
    requires k in Trials(w, rq)
    requires !Fits(w, rq, rq.start, k.b.sensor, rq.fixed, SubBound(k.l.total, rq.penalty + After(w, k)))
    ensures k.c in Leaders(w, rq, k.l, k.seen + iset{k.b})
  {
    if Builds(w, rq, k.b) {
      TurnCosts(w, rq, k.b);
      BoundRange(w, rq, k.l, k.c);
    }
    SkipOne(w, rq, k.l, k.c, k.seen, k.b);
  }

  /** The tests between the two legs. */
  lemma BetweenLegsHopeless(w: World, rq: Request, k: Trial)
    requires k in Trials(w, rq)
    requires var d := LegDist(w, rq, rq.start, k.b.sensor, rq.fixed);
             d < rq.minDist || (k.l.found && d + rq.penalty + After(w, k) > k.l.total)
    ensures k.c in Leaders(w, rq, k.l, k.seen + iset{k.b})
  {
    if Builds(w, rq, k.b) {
      TurnCosts(w, rq, k.b);
    }
    SkipOne(w, rq, k.l, k.c, k.seen, k.b);
  }

  /** What the first leg leaves over for the second. */
  lemma SecondBound(w: World, rq: Request, k: Trial)
    requires k in Trials(w, rq)
    ensures Goes(w, rq, rq.start, k.b.sensor, rq.fixed) ==>
              SubBound(k.l.total, LegDist(w, rq, rq.start, k.b.sensor, rq.fixed) + rq.penalty) <= INF
  {
    TrialFacts(w, rq, k);
    LegRange(w, rq, rq.start, k.b.sensor, rq.fixed);
  }

  /** If the second leg cannot be done within what the first left over, the reversal is hopeless. */
  lemma SecondLegHopeless(w: World, rq: Request, k: Trial, r: int)
    requires k in Trials(w, rq) && 0 <= k.b.sensor < |w.t| && r == w.t[k.b.sensor].reverse
    requires var d := LegDist(w, rq, rq.start, k.b.sensor, rq.fixed);
             !Fits(w, rq, r, k.g, NoPins(w.t), SubBound(k.l.total, d + rq.penalty))
    ensures k.c in Leaders(w, rq, k.l, k.seen + iset{k.b})
  {
    if Builds(w, rq, k.b) {
      TurnCosts(w, rq, k.b);
      BoundRange(w, rq, k.l, k.c);
    }
    SkipOne(w, rq, k.l, k.c, k.seen, k.b);
  }

  /** If a direct leg cannot be done within the best total, the direct plan is hopeless. */
  lemma DirectHopeless(w: World, rq: Request, l: Leader, c: Choice, order: nat)
    requires RequestOk(w, rq) && SumsFit(w, rq) && Holds(w, rq, l, c) && order < 2
    requires !Fits(w, rq, rq.start, TargetOf(w.t, rq, order), rq.fixed, l.total)
    ensures Hopeless(w, rq, l, Choice(order, -1))
  {
    if Builds(w, rq, Choice(order, -1)) {
      TotalRange(w, rq, Choice(order, -1));
      BoundRange(w, rq, l, c);
    }
  }

  // ---------- the candidate list ----------

  ghost predicate Candidate(w: World, rq: Request, g: int, x: Keyed) {
    IsCandidate(w, rq.start, g, x.idx) && x.key == LowerBound(w, rq.start, g, rq.penalty, x.idx)
  }

  /** The list in the making: the candidates below `i`, in index order, with their lower bounds. */
  ghost predicate Collected(w: World, rq: Request, g: int, s: seq<Keyed>, i: nat) {
    (forall k :: 0 <= k < |s| ==> s[k].idx < i && Candidate(w, rq, g, s[k])) &&
    (forall k, j :: 0 <= k < j < |s| ==> s[k].idx < s[j].idx) &&
    (forall x: Keyed :: x.idx < i && Candidate(w, rq, g, x) ==> x in s)
  }

  /** The finished list: exactly the candidates, by (lower bound, sensor index). */
  ghost predicate ListsCandidates(w: World, rq: Request, g: int, s: seq<Keyed>) {
    Ascending(s) && forall x: Keyed :: x in s <==> Candidate(w, rq, g, x)
  }

  lemma CollectNone(w: World, rq: Request, g: int, s: seq<Keyed>, i: nat)
    requires Collected(w, rq, g, s, i) && !IsCandidate(w, rq.start, g, i)
    ensures Collected(w, rq, g, s, i + 1)
  {
  }

  lemma CollectOne(w: World, rq: Request, g: int, s: seq<Keyed>, x: Keyed)
    requires Collected(w, rq, g, s, x.idx) && Candidate(w, rq, g, x)
    ensures Collected(w, rq, g, s + [x], x.idx + 1)
  {
    var r := s + [x];
    forall y: Keyed | y.idx < x.idx + 1 && Candidate(w, rq, g, y) ensures y in r {
      if y.idx == x.idx {
        assert y == x == r[|s|];
      }
    }
  }

  lemma CollectedAll(w: World, rq: Request, g: int, s: seq<Keyed>)
    requires Collected(w, rq, g, s, |w.t|)
    ensures DistinctIdx(s) && forall x: Keyed :: x in s <==> Candidate(w, rq, g, x)
  {
  }

  lemma SortedLists(w: World, rq: Request, g: int, s: seq<Keyed>, sorted: seq<Keyed>)
    requires Collected(w, rq, g, s, |w.t|) && Ascending(sorted) && Permutes(sorted, s)
    ensures ListsCandidates(w, rq, g, sorted)
  {
    CollectedAll(w, rq, g, s);
    PermutesHave(sorted, s);
  }

  /** A reversal that gives a plan is in the list, under a lower bound of its total. */
  lemma ListedBelow(w: World, rq: Request, b: Choice, s: seq<Keyed>) returns (k: nat)
    requires RequestOk(w, rq) && Builds(w, rq, b) && b.sensor >= 0
    requires ListsCandidates(w, rq, TargetOf(w.t, rq, b.order), s)
    ensures k < |s| && s[k].idx == b.sensor && s[k].key <= Total(w, rq, b)
  {
    CandidateBound(w, rq, b);
    var g := TargetOf(w.t, rq, b.order);
    var x := Keyed(LowerBound(w, rq.start, g, rq.penalty, b.sensor), b.sensor);
    assert Candidate(w, rq, g, x);
    k :| 0 <= k < |s| && s[k] == x;
  }

  /** Once a candidate's lower bound exceeds the best total, it and all later ones are hopeless. */
  lemma RestHopeless(w: World, rq: Request, l: Leader, c: Choice, seen: iset<Choice>, order: nat, s: seq<Keyed>, i: nat)
    requires RequestOk(w, rq) && order < 2 && i <= |s| && c in Leaders(w, rq, l, seen + Tried(order, s, i))
    requires ListsCandidates(w, rq, TargetOf(w.t, rq, order), s)
    requires i < |s| ==> l.found && s[i].key > l.total
    ensures c in Leaders(w, rq, l, seen + Reversals(order))
  {
    var done := seen + Tried(order, s, i);
    forall b | b in seen + Reversals(order) ensures b in done || Hopeless(w, rq, l, b) {
      if b !in done && Builds(w, rq, b) {
        var k := ListedBelow(w, rq, b, s);
        assert k >= i;
        assert k > i ==> Less(s[i], s[k]);
      }
    }
    Skip(w, rq, l, c, done, seen + Reversals(order));
  }

  /** The reversals of the first `i` entries of the list. */
  ghost function Tried(order: nat, s: seq<Keyed>, i: nat): iset<Choice>
    requires i <= |s|
  {
    iset b: Choice | b.order == order && exists k :: 0 <= k < i && b.sensor == s[k].idx
  }

  /** The next entry of the list is a trial, and one more has been tried after it. */
  lemma NextTrial(w: World, rq: Request, order: nat, g: nat, l: Leader, c: Choice, seen: iset<Choice>, s: seq<Keyed>, i: nat)
    requires RequestOk(w, rq) && SumsFit(w, rq) && order < 2 && i < |s|
    requires c in Leaders(w, rq, l, seen + Tried(order, s, i))
    requires g == TargetOf(w.t, rq, order) && g < |w.t| && ListsCandidates(w, rq, g, s)
    ensures Trial(Choice(order, s[i].idx), g, l, c, seen + Tried(order, s, i)) in Trials(w, rq)
    ensures seen + Tried(order, s, i) + iset{Choice(order, s[i].idx)} == seen + Tried(order, s, i + 1)
  {
    assert s[i] in s;
    assert Candidate(w, rq, g, s[i]);
    assert Tried(order, s, i) + iset{Choice(order, s[i].idx)} == Tried(order, s, i + 1);
  }

  /** All reversals towards one target. */
  ghost function Reversals(order: nat): iset<Choice> {
    iset b: Choice | b.order == order && b.sensor >= 0
  }

  // ---------- the whole search ----------

  /** The direct choices for the first `ti` targets. */
  ghost function Directs(rq: Request, ti: nat): iset<Choice> {
    iset b: Choice | b.order < ti && b.sensor == -1
  }

  /** Everything considered once the reversals towards the first `ti` targets are done. */
  ghost function Considered(rq: Request, ti: nat): iset<Choice> {
    iset b: Choice | (b.sensor >= 0 && b.order < ti) || (b.sensor == -1 && b.order < 2)
  }

  lemma DirectsNext(rq: Request, ti: nat)
    ensures Directs(rq, ti) + iset{Choice(ti, -1)} == Directs(rq, ti + 1)
  {
  }

  lemma TurnsStart(rq: Request)
    ensures Considered(rq, 0) == Directs(rq, 2)
  {
  }

  lemma TurnsNext(rq: Request, ti: nat)
    ensures Considered(rq, ti) + Reversals(ti) == Considered(rq, ti + 1)
  {
  }

  /** The answer of a planning call: the one plan that beats all others an unpruned search would build,
      or nothing if there is none. */
  ghost predicate Answer(w: World, rq: Request, found: bool, plan: Route)
    requires RequestOk(w, rq)
  {
    if found then exists c :: Optimal(w, rq, c) && plan == RouteOf(w, rq, c)
    else forall c :: !Builds(w, rq, c)
  }

  /** Both legs of a planned reversal keep the minimum distance. */
  lemma LegsLongEnough(w: World, rq: Request, found: bool, plan: Route)
    requires RequestOk(w, rq) && Answer(w, rq, found, plan)
    ensures found && plan.hasReversal ==> plan.toReversal >= rq.minDist && plan.afterReversal >= rq.minDist
    ensures found && !rq.direct ==> plan.hasReversal
  {
    if found {
      var c :| Optimal(w, rq, c) && plan == RouteOf(w, rq, c);
      OptimalPlanIsReal(w, rq, c);
    }
  }

  lemma LeaderIsAnswer(w: World, rq: Request, l: Leader, c: Choice)
    requires RequestOk(w, rq) && c in Leaders(w, rq, l, Considered(rq, 2))
    ensures Answer(w, rq, l.found, l.route)
  {
    forall b | Builds(w, rq, b) ensures Yields(w, rq, l, c, b) {
      assert b in Considered(rq, 2);
    }
    if l.found {
      assert Optimal(w, rq, c);
    }
  }

  lemma NothingSeen(w: World, rq: Request)
    requires RequestOk(w, rq)
    ensures Choice(2, -1) in Leaders(w, rq, NoLeader(), Directs(rq, 0))
  {
  }

  /** A search without direct plans has none to consider. */
  lemma NoDirects(w: World, rq: Request, l: Leader, c: Choice)
    requires RequestOk(w, rq) && !rq.direct && c in Leaders(w, rq, l, Directs(rq, 0))
    ensures c in Leaders(w, rq, l, Directs(rq, 2))
  {
    Skip(w, rq, l, c, Directs(rq, 0), Directs(rq, 2));
  }

  /** A missing target gives no plan. */
  lemma NoTarget(w: World, rq: Request, b: Choice)
    requires RequestOk(w, rq) && TargetOf(w.t, rq, b.order) < 0
    ensures !Builds(w, rq, b)
  {
    if Builds(w, rq, b) && b.sensor >= 0 {
      TurnCosts(w, rq, b);
    }
  }

  lemma NoDirect(w: World, rq: Request, l: Leader, c: Choice, seen: iset<Choice>, order: nat)
    requires RequestOk(w, rq) && c in Leaders(w, rq, l, seen) && TargetOf(w.t, rq, order) < 0
    ensures c in Leaders(w, rq, l, seen + iset{Choice(order, -1)})
  {
    NoTarget(w, rq, Choice(order, -1));
    SkipOne(w, rq, l, c, seen, Choice(order, -1));
  }

  lemma NoReversals(w: World, rq: Request, l: Leader, c: Choice, seen: iset<Choice>, order: nat)
    requires RequestOk(w, rq) && c in Leaders(w, rq, l, seen) && TargetOf(w.t, rq, order) < 0
    ensures c in Leaders(w, rq, l, seen + Reversals(order))
  {
    forall b | b in seen + Reversals(order) ensures b in seen || Hopeless(w, rq, l, b) {
      if b !in seen {
        NoTarget(w, rq, b);
      }
    }
    Skip(w, rq, l, c, seen, seen + Reversals(order));
  }
}
