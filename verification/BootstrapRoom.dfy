/** The room that bfs_find_bootstrap_midrev leaves for braking on its second leg. route_priv.h promises at least
    d_brake; the search only knows the minimum distance. */
module BootstrapRoom {
  import opened Track
  import opened AStarSpec
  import opened Plan
  import opened RouteSpec

  // ---------- a balloon loop ----------

  /** The distance from the first node of a loop to its node `i`: legs are as long as they can be. */
  function Run(len: nat, i: nat): nat {
    if 32767 * i <= len then 32767 * i else len
  }

  /** A sensor, the track beyond it, and the same sensor passed in the other direction. */
  function LoopNode(n: nat, len: nat, i: nat): Node {
    Node("", if i == 0 || i + 1 == n then Sensor else Merge, i, if i == 0 then n - 1 else if i + 1 == n then 0 else -1,
         if i + 1 < n then Leg(i + 1, Run(len, i + 1) - Run(len, i)) else Leg(-1, 0), Leg(-1, 0))
  }

  function Loop(n: nat, len: nat): (t: Layout)
    ensures |t| == n && forall i :: 0 <= i < n ==> t[i] == LoopNode(n, len, i)
  {
    seq(n, i requires 0 <= i < n => LoopNode(n, len, i))
  }

  predicate LoopOk(n: nat, len: nat) {
    5 <= n <= 256 && len <= 32767 * (n - 1)
  }

  /** Nodes of a loop are passed in order, and there are no other ways. */
  lemma LoopEdge(net: Net, n: nat, len: nat, x: nat, v: nat)
    requires LoopOk(n, len) && net.t == Loop(n, len) && NetOk(net) && Edge(net, x, v)
    ensures v == x + 1 && LegLen(net.t, x, v) == Run(len, v) - Run(len, x)
  {
  }

  lemma {:induction false} LoopSettles(n: nat, len: nat, v: nat, k: nat)
    requires LoopOk(n, len) && v < n && k >= n - 1 - v
    ensures Settles(Loop(n, len), v, k)
    decreases n - v
  {
    if v + 1 < n {
      LoopSettles(n, len, v + 1, k - 1);
    }
  }

  lemma LoopWellFormed(n: nat, len: nat)
    requires LoopOk(n, len)
    ensures WellFormed(Loop(n, len))
  {
    var t := Loop(n, len);
    forall v | 0 <= v < n ensures NodeOk(t, v) && Uncycled(t, v) {
      assert t[v] == LoopNode(n, len, v);
      LoopSettles(n, len, v, n - 1);
    }
  }

  lemma {:induction false} LoopPath(net: Net, n: nat, len: nat, p: seq<nat>)
    requires LoopOk(n, len) && net.t == Loop(n, len) && NetOk(net) && IsPath(net, p)
    ensures Last(p) == p[0] + |p| - 1 && Cost(net.t, p) == Run(len, Last(p)) - Run(len, p[0])
  {
    if |p| > 1 {
      InitPath(net, p);
      LoopPath(net, n, len, Init(p));
      LoopEdge(net, n, len, Last(Init(p)), Last(p));
    }
  }

  lemma LoopJoins(net: Net, n: nat, len: nat, x: nat, y: nat)
    requires LoopOk(n, len) && net.t == Loop(n, len) && NetOk(net) && x <= y < n
    requires forall v :: 0 <= v < n ==> !net.blocked[v]
    ensures Joins(net, seq(y - x + 1, i requires 0 <= i => x + i), x, y)
  {
    var p := seq(y - x + 1, i requires 0 <= i => x + i);
    forall i | 0 <= i < |p| - 1 ensures Hop(net, p, i) {
      assert net.t[p[i]] == LoopNode(n, len, p[i]);
    }
  }

  lemma LoopConnected(net: Net, n: nat, len: nat, x: nat, y: nat)
    requires LoopOk(n, len) && net.t == Loop(n, len) && NetOk(net) && x < n && y < n
    requires forall v :: 0 <= v < n ==> !net.blocked[v]
    ensures Connected(net, x, y) <==> x <= y
  {
    if x <= y {
      LoopJoins(net, n, len, x, y);
    } else {
      forall p | Joins(net, p, x, y) ensures false {
        LoopPath(net, n, len, p);
      }
    }
  }

  function LoopDist(len: nat, x: nat, y: nat): int {
    if x <= y then Run(len, y) - Run(len, x) else INF
  }

  function LoopWorld(n: nat, len: nat): World {
    World(Loop(n, len), seq(n, x requires 0 <= x < n => seq(n, y requires 0 <= y < n => LoopDist(len, x, y))))
  }

  lemma LoopDistance(n: nat, len: nat, x: nat, y: nat)
    requires LoopOk(n, len) && x < n && y < n && WellFormed(Loop(n, len))
    ensures FreeDistance(Loop(n, len), x, y, LoopDist(len, x, y))
  {
    var net := FreeNet(Loop(n, len), 0);
    FreeNetOk(net.t, 0);
    LoopConnected(net, n, len, x, y);
    if x <= y {
      LoopJoins(net, n, len, x, y);
      LoopPath(net, n, len, seq(y - x + 1, i requires 0 <= i => x + i));
      forall p | Joins(net, p, x, y) ensures LoopDist(len, x, y) <= Cost(net.t, p) {
        LoopPath(net, n, len, p);
      }
    }
  }

  lemma LoopWorldOk(n: nat, len: nat)
    requires LoopOk(n, len)
    ensures WorldOk(LoopWorld(n, len))
  {
    var w := LoopWorld(n, len);
    LoopWellFormed(n, len);
    forall x, y | 0 <= x < n && 0 <= y < n ensures FreeDistance(w.t, x, y, w.dist[x][y]) {
      LoopDistance(n, len, x, y);
    }
  }

  // ---------- the plan chosen on a loop ----------

  /** Round the loop to the sensor's other side, with one reversal. */
  function LoopRequest(n: nat, minDist: int): Request
    requires n > 0
  {
    Request(0, n - 1, 0, minDist, false, seq(n, i => false), seq(n, i => '?'))
  }

  lemma LoopLeg(n: nat, len: nat, minDist: int, x: nat, y: nat, fixed: seq<char>)
    requires LoopOk(n, len) && x < n && y < n && |fixed| == n
    requires var w, rq := LoopWorld(n, len), LoopRequest(n, minDist); RequestOk(w, rq)
    ensures var w, rq := LoopWorld(n, len), LoopRequest(n, minDist);
            (Goes(w, rq, x, y, fixed) <==> x <= y) && (x <= y ==> LegDist(w, rq, x, y, fixed) == LoopDist(len, x, y))
  {
    var w, rq := LoopWorld(n, len), LoopRequest(n, minDist);
    var net := LegNet(w, rq, x, fixed);
    GoesIffConnected(w, rq, x, y, fixed);
    LoopConnected(net, n, len, x, y);
    if x <= y {
      LegFound(w, rq, x, y, fixed);
      LoopPath(net, n, len, LegPath(w, rq, x, y, fixed));
    }
  }

  /** The sensor's two sides are the only places to turn at. */
  lemma LoopTurns(n: nat, len: nat, s: int)
    requires LoopOk(n, len)
    ensures TurnsAt(Loop(n, len), s) <==> s == 0 || s == n - 1
  {
    var t := Loop(n, len);
    if 0 <= s < n {
      assert t[s] == LoopNode(n, len, s);
    }
  }

  /** Without branches the train has room to clear them. */
  lemma LoopClear(n: nat, len: nat, minDist: int, x: nat, y: nat)
    requires LoopOk(n, len) && x <= y < n
    requires var w, rq := LoopWorld(n, len), LoopRequest(n, minDist);
             RequestOk(w, rq) && Goes(w, rq, x, y, NoPins(w.t))
    ensures var w, rq := LoopWorld(n, len), LoopRequest(n, minDist);
            var p := LegPath(w, rq, x, y, NoPins(w.t)); InRange(w.t, p) && Clear(w.t, p)
  {
    var w, rq := LoopWorld(n, len), LoopRequest(n, minDist);
    LegFound(w, rq, x, y, NoPins(w.t));
    var p := LegPath(w, rq, x, y, NoPins(w.t));
  }

  /** Where the train turns: at once if that is far enough, else on the other side of the loop. */
  function TurnAt(n: nat, minDist: int): Choice {
    Choice(0, if minDist <= 0 then 0 else n - 1)
  }

  /** Which legs there are on a loop. */
  lemma LoopLegs(n: nat, len: nat, minDist: int)
    requires LoopOk(n, len) && RequestOk(LoopWorld(n, len), LoopRequest(n, minDist))
    ensures var w, rq := LoopWorld(n, len), LoopRequest(n, minDist);
            forall x, y :: 0 <= x < n && 0 <= y < n ==> LoopHas(w, rq, len, x, y)
  {
    var w, rq := LoopWorld(n, len), LoopRequest(n, minDist);
    forall x, y | 0 <= x < n && 0 <= y < n ensures LoopHas(w, rq, len, x, y) {
      LoopLeg(n, len, minDist, x, y, rq.fixed);
      LoopLeg(n, len, minDist, x, y, NoPins(w.t));
    }
  }

  ghost predicate LoopHas(w: World, rq: Request, len: nat, x: nat, y: nat)
    requires RequestOk(w, rq)
  {
    (Goes(w, rq, x, y, rq.fixed) <==> x <= y) && (Goes(w, rq, x, y, NoPins(w.t)) <==> x <= y) &&
    (x <= y ==> LegDist(w, rq, x, y, rq.fixed) == LegDist(w, rq, x, y, NoPins(w.t)) == LoopDist(len, x, y))
  }

  lemma LoopTurn(n: nat, len: nat, minDist: int)
    requires LoopOk(n, len) && minDist <= len && RequestOk(LoopWorld(n, len), LoopRequest(n, minDist))
    ensures Builds(LoopWorld(n, len), LoopRequest(n, minDist), TurnAt(n, minDist))
    ensures RouteOf(LoopWorld(n, len), LoopRequest(n, minDist), TurnAt(n, minDist)).afterReversal ==
              if minDist <= 0 then 0 else len
  {
    var w, rq := LoopWorld(n, len), LoopRequest(n, minDist);
    var s: nat := TurnAt(n, minDist).sensor;
    assert w.t[0] == LoopNode(n, len, 0) && w.t[n - 1] == LoopNode(n, len, n - 1);
    LoopTurns(n, len, s);
    LoopLegs(n, len, minDist);
    assert LoopHas(w, rq, len, 0, s) && LoopHas(w, rq, len, w.t[s].reverse, n - 1);
    LoopClear(n, len, minDist, w.t[s].reverse, n - 1);
  }

  lemma LoopOthers(n: nat, len: nat, minDist: int, c: Choice)
    requires LoopOk(n, len) && minDist <= len && RequestOk(LoopWorld(n, len), LoopRequest(n, minDist))
    requires Builds(LoopWorld(n, len), LoopRequest(n, minDist), c)
    ensures c.sensor == 0 || c.sensor == n - 1
    ensures minDist > 0 ==> c == TurnAt(n, minDist)
  {
    var w, rq := LoopWorld(n, len), LoopRequest(n, minDist);
    LoopTurns(n, len, c.sensor);
    LoopLegs(n, len, minDist);
    assert w.t[0] == LoopNode(n, len, 0) && w.t[n - 1] == LoopNode(n, len, n - 1);
    assert LoopHas(w, rq, len, 0, c.sensor) && LoopHas(w, rq, len, w.t[c.sensor].reverse, n - 1);
    assert LoopHas(w, rq, len, w.t[c.sensor].reverse, 0);
  }

  lemma LoopBeats(n: nat, len: nat, minDist: int, b: Choice)
    requires LoopOk(n, len) && minDist <= len && RequestOk(LoopWorld(n, len), LoopRequest(n, minDist))
    requires Builds(LoopWorld(n, len), LoopRequest(n, minDist), b) && b != TurnAt(n, minDist)
    ensures Builds(LoopWorld(n, len), LoopRequest(n, minDist), TurnAt(n, minDist))
    ensures Beats(LoopWorld(n, len), LoopRequest(n, minDist), TurnAt(n, minDist), b)
  {
    var w, rq, c := LoopWorld(n, len), LoopRequest(n, minDist), TurnAt(n, minDist);
    LoopTurn(n, len, minDist);
    LoopOthers(n, len, minDist, b);
    TurnCosts(w, rq, b);
    LoopLegs(n, len, minDist);
    assert LoopHas(w, rq, len, 0, 0) && LoopHas(w, rq, len, n - 1, n - 1);
    assert w.t[0] == LoopNode(n, len, 0) && w.t[n - 1] == LoopNode(n, len, n - 1);
    BeatsIsLexicographic(w, rq, c, b);
  }

  /** The chosen plan on a loop leaves exactly the loop's length behind the reversal, or nothing. */
  lemma LoopOptimal(n: nat, len: nat, minDist: int)
    requires LoopOk(n, len) && minDist <= len
    ensures var w, rq, c := LoopWorld(n, len), LoopRequest(n, minDist), TurnAt(n, minDist);
            RequestOk(w, rq) && Optimal(w, rq, c) && RouteOf(w, rq, c).afterReversal == if minDist <= 0 then 0 else len
  {
    var w, rq, c := LoopWorld(n, len), LoopRequest(n, minDist), TurnAt(n, minDist);
    LoopWorldOk(n, len);
    LoopTurn(n, len, minDist);
    forall b | Builds(w, rq, b) ensures b == c || Beats(w, rq, c, b) {
      if b != c {
        LoopBeats(n, len, minDist, b);
      }
    }
  }

  // ---------- the room for braking ----------

  /** A call of bfs_find_bootstrap_midrev. */
  ghost predicate Bootstraps(w: World, rq: Request, minDist: int) {
    RequestOk(w, rq) && rq.penalty == 0 && !rq.direct && rq.minDist == minDist
  }

  /** Whatever the track, the train, the blocked nodes and the pinned switches, a plan leaves `dBrake` mm
      behind the reversal. */
  ghost predicate LeavesRoom(minDist: int, dBrake: int) {
    forall w, rq, plan :: Bootstraps(w, rq, minDist) && Answer(w, rq, true, plan) ==> plan.afterReversal >= dBrake
  }

  /** No leg of a plan is longer than the longest simple path of the largest track. */
  lemma LegsInRange(w: World, rq: Request, plan: Route)
    requires RequestOk(w, rq) && !rq.direct && Answer(w, rq, true, plan)
    ensures rq.minDist <= plan.toReversal <= 8_355_585 && rq.minDist <= plan.afterReversal && 0 <= plan.afterReversal
  {
    var c :| Optimal(w, rq, c) && plan == RouteOf(w, rq, c);
    OptimalPlanIsReal(w, rq, c);
  }

  /** A plan that leaves too little room. */
  lemma NoRoom(n: nat, len: nat, minDist: int, dBrake: int)
    requires LoopOk(n, len) && minDist <= len && dBrake > (if minDist <= 0 then 0 else len)
    ensures !LeavesRoom(minDist, dBrake)
  {
    LoopOptimal(n, len, minDist);
    var w, rq := LoopWorld(n, len), LoopRequest(n, minDist);
    var plan := RouteOf(w, rq, TurnAt(n, minDist));
    assert Bootstraps(w, rq, minDist) && Answer(w, rq, true, plan) && plan.afterReversal < dBrake;
  }

  /** The promised room is there for every track and every request exactly if the caller asks for a minimum
      distance of at least the braking distance. The two other cases are those of no braking distance, and of a
      minimum distance that no leg can have, so that there never is a plan. */
  lemma RoomExactly(minDist: int, dBrake: int)
    ensures LeavesRoom(minDist, dBrake) <==> dBrake <= minDist || dBrake <= 0 || minDist > 8_355_585
  {
    if dBrake <= minDist || dBrake <= 0 || minDist > 8_355_585 {
      forall w, rq, plan | Bootstraps(w, rq, minDist) && Answer(w, rq, true, plan) ensures plan.afterReversal >= dBrake {
        LegsInRange(w, rq, plan);
      }
    } else {
      NoRoom(256, if minDist <= 0 then 0 else minDist, minDist, dBrake);
    }
  }

  /** Five nodes are enough: asked for no minimum distance, as pos_evaluate_target_short_ready_now does, the search
      gives a train that needs any room to brake a plan with none after the reversal. */
  lemma ShortLoopExample(dBrake: int)
    requires dBrake > 0
    ensures var w, rq := LoopWorld(5, 100), LoopRequest(5, 0);
            Bootstraps(w, rq, 0) && exists plan :: Answer(w, rq, true, plan) && plan.afterReversal == 0 < dBrake
  {
    LoopOptimal(5, 100, 0);
    var w, rq := LoopWorld(5, 100), LoopRequest(5, 0);
    var plan := RouteOf(w, rq, TurnAt(5, 0));
    assert Answer(w, rq, true, plan);
  }
}
