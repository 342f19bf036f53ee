/** What the answer of a planning call means on the track: drives, switch settings and thresholds. */
module RouteAnswers {
  import opened Track
  import opened Labels
  import opened AStarSpec
  import opened AStar
  import opened Plan
  import opened RouteSpec
  import opened Driving

  // ---------- switch lists ----------

  /** `at` are the places where `p` leaves a branch, in travel order. */
  ghost predicate AreBranches(t: Layout, p: seq<nat>, at: seq<nat>) {
    (forall i, j :: 0 <= i < j < |at| ==> at[i] < at[j]) &&
    forall i :: i in at <==> 0 <= i && i + 1 < |p| && p[i] < |t| && t[p[i]].kind == Branch
  }

  /** The setting that the train needs where it leaves node `i` of `p`. */
  predicate IsSetting(t: Layout, p: seq<nat>, i: nat, s: (int, char)) {
    i + 1 < |p| && p[i] < |t| && s.0 == t[p[i]].num && s.1 == if t[p[i]].ahead.dest == p[i + 1] then 'S' else 'C'
  }

  ghost predicate SetsLast(t: Layout, p: seq<nat>, sw: seq<(int, char)>, at: seq<nat>) {
    AreBranches(t, p, at) && |sw| == (if |at| <= 20 then |at| else 20) &&
    forall k :: 0 <= k < |sw| ==> IsSetting(t, p, at[|at| - |sw| + k], sw[k])
  }

  /** `sw` are the settings of the last 20 branches that `p` leaves, in travel order; of all if there are no more. */
  ghost predicate SetsSwitches(t: Layout, p: seq<nat>, sw: seq<(int, char)>) {
    exists at :: SetsLast(t, p, sw, at)
  }

  predicate AreSettings(t: Layout, p: seq<nat>, at: seq<nat>, all: seq<(int, char)>) {
    |at| == |all| && forall k :: 0 <= k < |at| ==> IsSetting(t, p, at[k], all[k])
  }

  /** Where the branches of a path are. */
  lemma {:induction false} CrossingsAt(t: Layout, p: seq<nat>) returns (at: seq<nat>)
    requires InRange(t, p)
    ensures AreBranches(t, p, at) && AreSettings(t, p, at, Crossings(t, p))
  {
    if |p| <= 1 {
      at := [];
    } else {
      var last := |p| - 2;
      var before := CrossingsAt(t, Init(p));
      at := before + if t[p[last]].kind == Branch then [last] else [];
      OneMoreBranch(t, p, before, at);
      OneMoreSetting(t, p, before, at);
    }
  }

  lemma OneMoreSetting(t: Layout, p: seq<nat>, before: seq<nat>, at: seq<nat>)
    requires InRange(t, p) && |p| > 1 && AreSettings(t, Init(p), before, Crossings(t, Init(p)))
    requires at == before + if t[p[|p| - 2]].kind == Branch then [|p| - 2] else []
    ensures AreSettings(t, p, at, Crossings(t, p))
  {
    forall k | 0 <= k < |at| ensures |at| == |Crossings(t, p)| && IsSetting(t, p, at[k], Crossings(t, p)[k]) {
      if k < |before| {
        assert IsSetting(t, Init(p), before[k], Crossings(t, Init(p))[k]);
      }
    }
  }

  lemma OneMoreBranch(t: Layout, p: seq<nat>, before: seq<nat>, at: seq<nat>)
    requires InRange(t, p) && |p| > 1 && AreBranches(t, Init(p), before)
    requires at == before + if t[p[|p| - 2]].kind == Branch then [|p| - 2] else []
    ensures AreBranches(t, p, at)
  {
    forall i: int ensures i in at <==> 0 <= i && i + 1 < |p| && p[i] < |t| && t[p[i]].kind == Branch {
      assert i in before <==> 0 <= i && i + 1 < |Init(p)| && Init(p)[i] < |t| && t[Init(p)[i]].kind == Branch;
    }
    forall i, j | 0 <= i < j < |at| ensures at[i] < at[j] {
      assert at[i] in before;
    }
  }

  lemma LastSettings(t: Layout, p: seq<nat>, at: seq<nat>, all: seq<(int, char)>, sw: seq<(int, char)>)
    requires AreBranches(t, p, at) && AreSettings(t, p, at, all) && sw == if |all| <= 20 then all else all[|all| - 20..]
    ensures SetsLast(t, p, sw, at)
  {
    forall k | 0 <= k < |sw| ensures IsSetting(t, p, at[|at| - |sw| + k], sw[k]) {
      assert sw[k] == all[|at| - |sw| + k];
    }
  }

  lemma SwitchesMean(t: Layout, p: seq<nat>)
    requires InRange(t, p)
    ensures SetsSwitches(t, p, SwitchesOf(t, p))
  {
    var at := CrossingsAt(t, p);
    LastSettings(t, p, at, Crossings(t, p), SwitchesOf(t, p));
  }

  // ---------- one leg of a plan ----------

  /** One leg of a plan: the drive, its switches and its length, which no other drive undercuts. */
  ghost predicate IsLeg(t: Layout, rq: Request, fixed: seq<char>, from: nat, to: nat, path: seq<nat>,
                        sw: seq<(int, char)>, d: int) {
    Drive(t, from, rq.blocked, fixed, path, from, to) && Distinct(path) && d == Mileage(t, path) &&
    NoShorterDrive(t, from, to, rq.blocked, fixed, d) && SetsSwitches(t, path, sw)
  }

  /** No switch is pinned. */
  predicate Unpinned(t: Layout, fixed: seq<char>) {
    |fixed| == |t| && forall i :: 0 <= i < |fixed| ==> fixed[i] == '?'
  }

  /** There are 250 mm before the first branch after the start of `p`, if there is one. */
  predicate HasRoom(t: Layout, p: seq<nat>) {
    (forall i :: 0 <= i < |p| ==> p[i] < |t|) &&
    forall k :: 0 < k < |p| && t[p[k]].kind == Branch && (forall j :: 0 < j < k ==> t[p[j]].kind != Branch) ==>
                  Mileage(t, p[..k + 1]) >= 250
  }

  /** A sensor at which a train may stop and turn. */
  predicate MayTurn(t: Layout, s: int) {
    0 <= s < |t| && t[s].kind == Sensor && t[s].name != "C12" && t[s].name != "E5" && t[s].name != "E14" &&
    t[s].name != "C9" &&
    var r := t[s].reverse; 0 <= r < |t| && (t[r].kind == Sensor ==> t[r].name != "E12" && t[r].name != "E6")
  }

  lemma TurnMeans(t: Layout, s: int)
    ensures TurnsAt(t, s) <==> MayTurn(t, s)
  {
  }

  lemma LegMeans(w: World, rq: Request, from: int, to: int, fixed: seq<char>)
    requires RequestOk(w, rq) && |fixed| == |w.t| && Goes(w, rq, from, to, fixed)
    ensures 0 <= from < |w.t| && 0 <= to < |w.t|
    ensures var p := LegPath(w, rq, from, to, fixed);
            IsLeg(w.t, rq, fixed, from, to, p, SwitchesOf(w.t, p), LegDist(w, rq, from, to, fixed))
  {
    LegFound(w, rq, from, to, fixed);
    var n, p, d := LegNet(w, rq, from, fixed), LegPath(w, rq, from, to, fixed), LegDist(w, rq, from, to, fixed);
    DriveIsPath(n, p, from, to);
    MileageIsCost(n, p);
    ShortestDrive(n, to, d);
    SwitchesMean(w.t, p);
  }

  /** A leg can be travelled exactly if there is a drive. */
  lemma GoesMeans(w: World, rq: Request, from: int, to: int, fixed: seq<char>)
    requires RequestOk(w, rq) && |fixed| == |w.t|
    ensures Goes(w, rq, from, to, fixed) <==>
            0 <= from < |w.t| && 0 <= to < |w.t| && exists p :: Drive(w.t, from, rq.blocked, fixed, p, from, to)
  {
    if 0 <= from < |w.t| && 0 <= to < |w.t| {
      GoesIffConnected(w, rq, from, to, fixed);
      var n := LegNet(w, rq, from, fixed);
      forall p ensures Drive(w.t, from, rq.blocked, fixed, p, from, to) <==> Joins(n, p, from, to) {
        DriveIsPath(n, p, from, to);
      }
    }
  }

  lemma ClearMeans(n: Net, p: seq<nat>)
    requires NetOk(n) && IsPath(n, p)
    ensures Clear(n.t, p) <==> HasRoom(n.t, p)
  {
    var k := FirstBranch(n.t, p, 1);
    LinkSumIsCost(n, p);
    CostRange(n, p);
    if k < |p| {
      TakePath(n, p, k + 1);
      LinkSumIsCost(n, p[..k + 1]);
      MileageIsCost(n, p[..k + 1]);
    }
  }

  // ---------- plans ----------

  /** The requested node or its reverse. */
  predicate IsTarget(t: Layout, rq: Request, g: int) {
    0 <= g < |t| && rq.target < |t| && (g == rq.target || g == t[rq.target].reverse)
  }

  /** A plan without reversal: one leg to the target. */
  ghost predicate IsDirectPlan(t: Layout, rq: Request, plan: Route) {
    rq.direct && plan.sensor == -1 && plan.toReversal == plan.afterReversal == 0 &&
    IsLeg(t, rq, rq.fixed, rq.start, plan.target, plan.path, plan.switches, plan.total) &&
    plan.path2 == [] && plan.switches2 == []
  }

  /** A plan with a reversal: one leg to a sensor, under the pins; another one from its reverse to the target, with
      the switches free and room for the train; and both are long enough. */
  ghost predicate IsTurningPlan(t: Layout, rq: Request, plan: Route) {
    MayTurn(t, plan.sensor) &&
    IsLeg(t, rq, rq.fixed, rq.start, plan.sensor, plan.path, plan.switches, plan.toReversal) &&
    (exists fixed :: Unpinned(t, fixed) &&
       IsLeg(t, rq, fixed, t[plan.sensor].reverse, plan.target, plan.path2, plan.switches2, plan.afterReversal)) &&
    plan.total == plan.toReversal + rq.penalty + plan.afterReversal &&
    plan.toReversal >= rq.minDist && plan.afterReversal >= rq.minDist && HasRoom(t, plan.path2)
  }

  ghost predicate IsPlan(t: Layout, rq: Request, plan: Route) {
    IsTarget(t, rq, plan.target) && if plan.hasReversal then IsTurningPlan(t, rq, plan) else IsDirectPlan(t, rq, plan)
  }

  /** No direct drive is shorter than the plan, and one to the requested node itself wins a tie. */
  ghost predicate NoBetterDrive(t: Layout, rq: Request, found: bool, plan: Route) {
    forall p, g :: rq.direct && IsTarget(t, rq, g) && Drive(t, rq.start, rq.blocked, rq.fixed, p, rq.start, g) ==>
                     found && plan.total <= Mileage(t, p) &&
                     (g == rq.target && plan.total == Mileage(t, p) ==> !plan.hasReversal && plan.target == rq.target)
  }

  ghost predicate IsShortest(t: Layout, rq: Request, fixed: seq<char>, from: nat, to: nat, p: seq<nat>) {
    Drive(t, from, rq.blocked, fixed, p, from, to) && NoShorterDrive(t, from, to, rq.blocked, fixed, Mileage(t, p))
  }

  /** A way to turn at `s`: two shortest legs that are long enough, the second one with room whichever shortest
      drive it is. */
  ghost predicate IsTurn(t: Layout, rq: Request, s: nat, g: nat, p: seq<nat>, o: seq<nat>, free: seq<char>) {
    MayTurn(t, s) && IsTarget(t, rq, g) && Unpinned(t, free) && IsShortest(t, rq, rq.fixed, rq.start, s, p) &&
    IsShortest(t, rq, free, t[s].reverse, g, o) && Mileage(t, p) >= rq.minDist && Mileage(t, o) >= rq.minDist &&
    forall r :: IsShortest(t, rq, free, t[s].reverse, g, r) ==> HasRoom(t, r)
  }

  /** Nor is there a better way to turn. */
  ghost predicate NoBetterTurn(t: Layout, rq: Request, found: bool, plan: Route) {
    forall s: nat, g: nat, p: seq<nat>, o: seq<nat>, free: seq<char> :: IsTurn(t, rq, s, g, p, o, free) ==>
                                 found && plan.total <= Mileage(t, p) + rq.penalty + Mileage(t, o)
  }

  /** What a caller can rely on. */
  ghost predicate Fulfils(t: Layout, rq: Request, found: bool, plan: Route) {
    (found ==> IsPlan(t, rq, plan)) && NoBetterDrive(t, rq, found, plan) && NoBetterTurn(t, rq, found, plan)
  }

  lemma FreePins(t: Layout)
    ensures Unpinned(t, NoPins(t)) && forall f :: Unpinned(t, f) ==> f == NoPins(t)
  {
  }

  lemma OptimalMeans(w: World, rq: Request, c: Choice)
    requires RequestOk(w, rq) && Optimal(w, rq, c)
    ensures IsPlan(w.t, rq, RouteOf(w, rq, c))
  {
    var g := TargetOf(w.t, rq, c.order);
    if c.sensor < 0 {
      LegMeans(w, rq, rq.start, g, rq.fixed);
    } else {
      var r := w.t[c.sensor].reverse;
      TurnMeans(w.t, c.sensor);
      FreePins(w.t);
      LegMeans(w, rq, rq.start, c.sensor, rq.fixed);
      LegMeans(w, rq, r, g, NoPins(w.t));
      SecondLegRoom(w, rq, r, g);
    }
  }

  lemma SecondLegRoom(w: World, rq: Request, r: int, g: int)
    requires RequestOk(w, rq) && Goes(w, rq, r, g, NoPins(w.t))
    ensures var p := LegPath(w, rq, r, g, NoPins(w.t)); InRange(w.t, p) && (Clear(w.t, p) <==> HasRoom(w.t, p))
  {
    LegFound(w, rq, r, g, NoPins(w.t));
    ClearMeans(LegNet(w, rq, r, NoPins(w.t)), LegPath(w, rq, r, g, NoPins(w.t)));
  }

  /** A drive shows that the leg can be travelled, and is at least as long. */
  lemma DriveGoes(w: World, rq: Request, from: nat, to: nat, fixed: seq<char>, p: seq<nat>)
    requires RequestOk(w, rq) && |fixed| == |w.t| && from < |w.t| && to < |w.t|
    requires Drive(w.t, from, rq.blocked, fixed, p, from, to)
    ensures Goes(w, rq, from, to, fixed) && LegDist(w, rq, from, to, fixed) <= Mileage(w.t, p)
    ensures NoShorterDrive(w.t, from, to, rq.blocked, fixed, Mileage(w.t, p)) ==>
              LegDist(w, rq, from, to, fixed) == Mileage(w.t, p)
  {
    GoesMeans(w, rq, from, to, fixed);
    LegMeans(w, rq, from, to, fixed);
  }

  /** Which of the two targets it is. */
  lemma TargetMeans(w: World, rq: Request, g: int) returns (order: nat)
    requires RequestOk(w, rq) && IsTarget(w.t, rq, g)
    ensures order < 2 && g == TargetOf(w.t, rq, order) && (g == rq.target ==> order == 0)
  {
    order := if g == rq.target then 0 else 1;
  }

  lemma DirectBuilds(w: World, rq: Request, p: seq<nat>, g: nat) returns (b: Choice)
    requires RequestOk(w, rq) && rq.direct && IsTarget(w.t, rq, g)
    requires Drive(w.t, rq.start, rq.blocked, rq.fixed, p, rq.start, g)
    ensures Builds(w, rq, b) && b.sensor == -1 && g == TargetOf(w.t, rq, b.order) && (g == rq.target ==> b.order == 0)
    ensures Total(w, rq, b) <= Mileage(w.t, p)
  {
    var order := TargetMeans(w, rq, g);
    DriveGoes(w, rq, rq.start, g, rq.fixed, p);
    b := Choice(order, -1);
  }

  lemma DirectServed(w: World, rq: Request, c: Choice, p: seq<nat>, g: nat)
    requires RequestOk(w, rq) && Optimal(w, rq, c) && rq.direct && IsTarget(w.t, rq, g)
    requires Drive(w.t, rq.start, rq.blocked, rq.fixed, p, rq.start, g)
    ensures var plan := RouteOf(w, rq, c);
            plan.total <= Mileage(w.t, p) &&
            (g == rq.target && plan.total == Mileage(w.t, p) ==> !plan.hasReversal && plan.target == rq.target)
  {
    var b := DirectBuilds(w, rq, p, g);
    BeatsIsLexicographic(w, rq, c, b);
  }

  lemma TurnBuilds(w: World, rq: Request, s: nat, g: nat, p: seq<nat>, o: seq<nat>, order: nat)
    requires RequestOk(w, rq) && IsTurn(w.t, rq, s, g, p, o, NoPins(w.t)) && order < 2 && g == TargetOf(w.t, rq, order)
    ensures Builds(w, rq, Choice(order, s))
    ensures Total(w, rq, Choice(order, s)) == Mileage(w.t, p) + rq.penalty + Mileage(w.t, o)
  {
    var r := w.t[s].reverse;
    TurnMeans(w.t, s);
    DriveGoes(w, rq, rq.start, s, rq.fixed, p);
    DriveGoes(w, rq, r, g, NoPins(w.t), o);
    LegMeans(w, rq, r, g, NoPins(w.t));
    SecondLegRoom(w, rq, r, g);
    assert IsShortest(w.t, rq, NoPins(w.t), r, g, LegPath(w, rq, r, g, NoPins(w.t)));
  }

  lemma TurnServed(w: World, rq: Request, c: Choice, s: nat, g: nat, p: seq<nat>, o: seq<nat>, free: seq<char>)
    requires RequestOk(w, rq) && Optimal(w, rq, c) && IsTurn(w.t, rq, s, g, p, o, free)
    ensures RouteOf(w, rq, c).total <= Mileage(w.t, p) + rq.penalty + Mileage(w.t, o)
  {
    FreePins(w.t);
    var order := TargetMeans(w, rq, g);
    TurnBuilds(w, rq, s, g, p, o, order);
    BeatsIsLexicographic(w, rq, c, Choice(order, s));
  }

  lemma FoundFulfils(w: World, rq: Request, c: Choice)
    requires RequestOk(w, rq) && Optimal(w, rq, c)
    ensures Fulfils(w.t, rq, true, RouteOf(w, rq, c))
  {
    var t, plan := w.t, RouteOf(w, rq, c);
    OptimalMeans(w, rq, c);
    forall p, g | rq.direct && IsTarget(t, rq, g) && Drive(t, rq.start, rq.blocked, rq.fixed, p, rq.start, g)
      ensures plan.total <= Mileage(t, p) &&
              (g == rq.target && plan.total == Mileage(t, p) ==> !plan.hasReversal && plan.target == rq.target)
    {
      DirectServed(w, rq, c, p, g);
    }
    forall s: nat, g: nat, p: seq<nat>, o: seq<nat>, free: seq<char> | IsTurn(t, rq, s, g, p, o, free)
      ensures plan.total <= Mileage(t, p) + rq.penalty + Mileage(t, o)
    {
      TurnServed(w, rq, c, s, g, p, o, free);
    }
  }

  lemma NothingFulfils(w: World, rq: Request, plan: Route)
    requires RequestOk(w, rq) && forall c :: !Builds(w, rq, c)
    ensures Fulfils(w.t, rq, false, plan)
  {
    var t := w.t;
    forall p, g | rq.direct && IsTarget(t, rq, g) && Drive(t, rq.start, rq.blocked, rq.fixed, p, rq.start, g)
      ensures false
    {
      var b := DirectBuilds(w, rq, p, g);
    }
    forall s: nat, g: nat, p: seq<nat>, o: seq<nat>, free: seq<char> | IsTurn(t, rq, s, g, p, o, free) ensures false {
      FreePins(t);
      var order := TargetMeans(w, rq, g);
      TurnBuilds(w, rq, s, g, p, o, order);
    }
  }

  /** The answer of a planning call, on the track: a plan that can be driven, with the switches that it needs, and
      none that is better, or no way at all. */
  lemma AnswerFulfils(w: World, rq: Request, found: bool, plan: Route)
    requires RequestOk(w, rq) && Answer(w, rq, found, plan)
    ensures Fulfils(w.t, rq, found, plan)
  {
    if found {
      var c :| Optimal(w, rq, c) && plan == RouteOf(w, rq, c);
      FoundFulfils(w, rq, c);
    } else {
      NothingFulfils(w, rq, plan);
    }
  }
}
