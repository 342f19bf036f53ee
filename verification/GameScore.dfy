/** game_consume_events: who has claimed which sensor, and the scores in half points. */
module GameScore {
  import opened GameEvents

  const KEYS: nat := 80
  const BATCH: int := 16
  const NEUTRAL: nat := 2

  /** The sensor numbers that count as a target: its own and its reverse's, 0 for none. */
  datatype Goal = Goal(own: nat, back: nat)

  /** What does not change while events are consumed: whether a round is running, the train of each role,
      their goals, and the neutral train's standby goal if it was sent there. */
  datatype Round = Round(running: bool, trains: seq<int>, goals: seq<Goal>, standbySent: bool, standby: Goal)

  datatype Game = Game(claims: seq<bv8>, score: seq<int>, delta: seq<int>, done: seq<bool>, standbyDone: bool)

  predicate RoundOk(r: Round) {
    |r.trains| == |r.goals| == 3
  }

  predicate GameOk(g: Game) {
    |g.claims| == KEYS && |g.score| == 2 && |g.delta| == |g.done| == 3
  }

  predicate Shaped(r: Round, g: Game) {
    RoundOk(r) && GameOk(g)
  }

  /** game_reset_all: nothing claimed, nothing scored. */
  function Start(): (g: Game)
    ensures GameOk(g)
  {
    Game(seq(KEYS, i => 0), [0, 0], [0, 0, 0], [false, false, false], false)
  }

  /** game_reset_round_state: claims and scores stay, what belongs to one round goes. */
  function NextRound(g: Game): Game {
    g.(delta := [0, 0, 0], done := [false, false, false], standbyDone := false)
  }

  /** game_role_index_from_train; 3 for none. */
  function RoleOf(trains: seq<int>, train: int): nat
    requires |trains| == 3
  {
    if trains[0] == train then 0 else if trains[1] == train then 1 else if trains[2] == train then 2 else 3
  }

  /** game_sensor_matches_target. */
  predicate Matches(sensor: nat, goal: Goal) {
    sensor != 0 && (sensor == goal.own || sensor == goal.back)
  }

  function Bit(role: nat): bv8 {
    if role == 0 then 1 else 2
  }

  /** A first claim of a sensor is worth three half points, a second claim by the other player two. */
  function Claim(g: Game, role: nat, idx: nat): Game
    requires idx < |g.claims| && role < 2 <= |g.score| && 2 <= |g.delta|
  {
    if g.claims[idx] & Bit(role) != 0 then g
    else
      var add := if g.claims[idx] & Bit(1 - role) != 0 then 2 else 3;
      g.(claims := g.claims[idx := g.claims[idx] | Bit(role)], score := g.score[role := g.score[role] + add],
         delta := g.delta[role := g.delta[role] + add])
  }

  /** One event. */
  function Consume(r: Round, g: Game, e: Event): (h: Game)
    requires Shaped(r, g)
    ensures Shaped(r, h)
  {
    var role := RoleOf(r.trains, e.train);
    if role == 3 || !r.running then g
    else if e.kind == SensorHit then
      if role == 2 || e.sensor == 0 || e.sensor > 80 then g else Claim(g, role, e.sensor - 1)
    else if e.kind == GoalStop then
      var h := if Matches(e.sensor, r.goals[role]) then g.(done := g.done[role := true]) else g;
      if role == 2 && r.standbySent && Matches(e.sensor, r.standby) then h.(standbyDone := true) else h
    else g
  }

  function ConsumeAll(r: Round, g: Game, s: seq<Event>): (h: Game)
    requires Shaped(r, g)
    ensures Shaped(r, h)
  {
    if s == [] then g else Consume(r, ConsumeAll(r, g, s[..|s| - 1]), s[|s| - 1])
  }

  lemma {:induction false} ConsumeParts(r: Round, g: Game, s: seq<Event>, t: seq<Event>)
    requires Shaped(r, g)
    ensures ConsumeAll(r, g, s + t) == ConsumeAll(r, ConsumeAll(r, g, s), t)
    decreases |t|
  {
    if t == [] {
      assert s + t == s;
    } else {
      ConsumeParts(r, g, s, t[..|t| - 1]);
      assert (s + t)[..|s + t| - 1] == s + t[..|t| - 1];
    }
  }

  lemma Joined<T>(all: seq<T>, a: nat, b: nat, c: nat)
    requires a <= b <= c <= |all|
    ensures all[a..b] + all[b..c] == all[a..c]
  {
  }

  lemma NextPart(r: Round, g: Game, all: seq<Event>, start: nat, from: nat, to: nat)
    requires Shaped(r, g) && start <= from <= to <= |all|
    ensures ConsumeAll(r, g, all[start..to]) == ConsumeAll(r, ConsumeAll(r, g, all[start..from]), all[from..to])
  {
    Joined(all, start, from, to);
    ConsumeParts(r, g, all[start..from], all[from..to]);
  }

  // ---------- conservation ----------

  /** What a sensor is worth in all: 0, 3 or 5 half points for no, one or two claimants. */
  function Worth(m: bv8): int {
    if m & 1 != 0 && m & 2 != 0 then 5 else if m & 1 != 0 || m & 2 != 0 then 3 else 0
  }

  function Total(claims: seq<bv8>): int {
    if claims == [] then 0 else Total(claims[..|claims| - 1]) + Worth(claims[|claims| - 1])
  }

  lemma {:induction false} TotalUpdate(claims: seq<bv8>, i: nat, m: bv8)
    requires i < |claims|
    ensures Total(claims[i := m]) == Total(claims) - Worth(claims[i]) + Worth(m)
  {
    var n := |claims| - 1;
    if i == n {
      assert claims[i := m][..n] == claims[..n];
    } else {
      TotalUpdate(claims[..n], i, m);
      assert claims[i := m][..n] == claims[..n][i := m];
    }
  }

  /** The scores of both players add up to what the claimed sensors are worth. */
  predicate Conserved(g: Game)
    requires |g.score| == 2
  {
    g.score[0] + g.score[1] == Total(g.claims)
  }

  lemma ClaimWorth(m: bv8, role: nat)
    requires role < 2 && m & Bit(role) == 0
    ensures Worth(m | Bit(role)) == Worth(m) + if m & Bit(1 - role) != 0 then 2 else 3
  {
  }

  lemma ConsumeConserves(r: Round, g: Game, e: Event)
    requires Shaped(r, g) && Conserved(g)
    ensures Conserved(Consume(r, g, e))
    ensures forall i :: 0 <= i < 2 ==> Consume(r, g, e).score[i] - Consume(r, g, e).delta[i] == g.score[i] - g.delta[i]
  {
    var role := RoleOf(r.trains, e.train);
    if role < 2 && r.running && e.kind == SensorHit && 0 < e.sensor <= 80 {
      var idx := e.sensor - 1;
      if g.claims[idx] & Bit(role) == 0 {
        ClaimWorth(g.claims[idx], role);
        TotalUpdate(g.claims, idx, g.claims[idx] | Bit(role));
      }
    }
  }

  /** At every point of any sequence of events: nothing is scored twice or lost, and what each player gained in
      the round is what its score grew by. */
  lemma {:induction false} AllConserve(r: Round, g: Game, s: seq<Event>)
    requires Shaped(r, g) && Conserved(g)
    ensures Conserved(ConsumeAll(r, g, s))
    ensures forall i :: 0 <= i < 2 ==>
              ConsumeAll(r, g, s).score[i] - ConsumeAll(r, g, s).delta[i] == g.score[i] - g.delta[i]
  {
    if s != [] {
      AllConserve(r, g, s[..|s| - 1]);
      ConsumeConserves(r, ConsumeAll(r, g, s[..|s| - 1]), s[|s| - 1]);
    }
  }

  lemma {:induction false} NothingClaimed(claims: seq<bv8>)
    requires forall i :: 0 <= i < |claims| ==> claims[i] == 0
    ensures Total(claims) == 0
  {
    if claims != [] {
      NothingClaimed(claims[..|claims| - 1]);
    }
  }

  // ---------- a whole game ----------

  /** What happens in a game: a new round begins, or an event is consumed in the circumstances of its round. */
  datatype Play = NewRound | Happens(r: Round, e: Event)

  predicate PlayOk(p: Play) {
    p.Happens? ==> RoundOk(p.r)
  }

  predicate PlaysOk(s: seq<Play>) {
    forall i :: 0 <= i < |s| ==> PlayOk(s[i])
  }

  function After(g: Game, p: Play): (h: Game)
    requires GameOk(g) && PlayOk(p)
    ensures GameOk(h)
  {
    match p
    case NewRound => NextRound(g)
    case Happens(r, e) => Consume(r, g, e)
  }

  /** The game after `s`, from its beginning. */
  function Played(s: seq<Play>): (g: Game)
    requires PlaysOk(s)
    ensures GameOk(g)
  {
    if s == [] then Start()
    else
      assert PlayOk(s[|s| - 1]);
      After(Played(s[..|s| - 1]), s[|s| - 1])
  }

  /** The scores that the present round began with. */
  function RoundStart(s: seq<Play>): (r: seq<int>)
    requires PlaysOk(s)
    ensures |r| == 2
  {
    if s == [] then [0, 0]
    else if s[|s| - 1].NewRound? then Played(s[..|s| - 1]).score
    else RoundStart(s[..|s| - 1])
  }

  /** At every point of every game: the scores of both players add up to what the claimed sensors are worth, and
      what a player has gained in the round is what its score has grown by since the round began. */
  lemma {:induction false} GameConserves(s: seq<Play>)
    requires PlaysOk(s)
    ensures Conserved(Played(s))
    ensures forall i :: 0 <= i < 2 ==> Played(s).score[i] == RoundStart(s)[i] + Played(s).delta[i]
  {
    if s == [] {
      NothingClaimed(Start().claims);
    } else {
      var before, p := s[..|s| - 1], s[|s| - 1];
      GameConserves(before);
      assert PlayOk(p);
      if p.Happens? {
        ConsumeConserves(p.r, Played(before), p.e);
      }
    }
  }

  /** A score never goes down, and a claim is never taken back. */
  lemma {:induction false} ScoresGrow(s: seq<Play>, n: nat, i: nat, k: nat)
    requires PlaysOk(s) && n <= |s| && i < 2 && k < KEYS
    ensures Played(s[..n]).score[i] <= Played(s).score[i]
    ensures Played(s[..n]).claims[k] & Played(s).claims[k] == Played(s[..n]).claims[k]
    decreases |s|
  {
    if n == |s| {
      assert s[..n] == s;
    } else {
      var before := s[..|s| - 1];
      ScoresGrow(before, n, i, k);
      assert before[..n] == s[..n];
      assert PlayOk(s[|s| - 1]);
      ClaimsGrow(Played(before), s[|s| - 1], i, k);
      MaskTrans(Played(s[..n]).claims[k], Played(before).claims[k], Played(s).claims[k]);
    }
  }

  lemma ClaimsGrow(g: Game, p: Play, i: nat, k: nat)
    requires GameOk(g) && PlayOk(p) && i < 2 && k < KEYS
    ensures g.score[i] <= After(g, p).score[i] && g.claims[k] & After(g, p).claims[k] == g.claims[k]
  {
    BitAdded(g.claims[k], 0);
    BitAdded(g.claims[k], 1);
  }

  lemma BitAdded(m: bv8, role: nat)
    ensures m & (m | Bit(role)) == m && m & m == m
  {
  }

  lemma MaskTrans(a: bv8, b: bv8, c: bv8)
    requires a & b == a && b & c == b
    ensures a & c == a
  {
  }

  /** A claimed sensor is scored once per player: hitting it again changes nothing. */
  lemma ClaimedOnce(r: Round, g: Game, e: Event, f: Event)
    requires Shaped(r, g) && e.kind == f.kind == SensorHit && e.train == f.train && e.sensor == f.sensor
    ensures Consume(r, Consume(r, g, e), f) == Consume(r, g, e)
  {
    var role := RoleOf(r.trains, e.train);
    if role < 2 && r.running && 0 < e.sensor <= 80 {
      BitSet(g.claims[e.sensor - 1], role);
    }
  }

  lemma BitSet(m: bv8, role: nat)
    ensures (m | Bit(role)) & Bit(role) != 0
  {
  }

  // ---------- who scores ----------

  /** The train of player `i` (0 human, 1 AI) hits sensor number `k` + 1 while a round is running. */
  predicate Hits(p: Play, i: nat, k: nat) {
    p.Happens? && RoundOk(p.r) && p.r.running && p.e.kind == SensorHit && p.e.sensor == k + 1 &&
    if i == 0 then p.r.trains[0] == p.e.train else i == 1 && p.r.trains[1] == p.e.train != p.r.trains[0]
  }

  /** The players who have claimed sensor number `k` + 1 in a game, in the order in which they hit it first. */
  function Claimants(s: seq<Play>, k: nat): seq<nat> {
    if s == [] then []
    else
      var c, p := Claimants(s[..|s| - 1], k), s[|s| - 1];
      if Hits(p, 0, k) && 0 !in c then c + [0] else if Hits(p, 1, k) && 1 !in c then c + [1] else c
  }

  /** What player `i` gets for a sensor: three half points for the first claim, two for the second. */
  function Share(c: seq<nat>, i: nat): int {
    if |c| > 0 && c[0] == i then 3 else if |c| > 1 && c[1] == i then 2 else 0
  }

  function Shares(s: seq<Play>, i: nat, n: nat): int {
    if n == 0 then 0 else Shares(s, i, n - 1) + Share(Claimants(s, n - 1), i)
  }

  /** A hit changes the claims of its sensor, and the score and gain of its player only; by three for an unclaimed
      sensor, by two for one that only the other player has claimed. */
  lemma HitScores(g: Game, p: Play, i: nat, k: nat)
    requires GameOk(g) && PlayOk(p) && Hits(p, i, k) && k < 80
    ensures var h, m, mine, other := After(g, p), g.claims[k], if i == 0 then 1 else 2, if i == 0 then 2 else 1;
            if m & mine != 0 then h == g
            else
              var add := if m & other != 0 then 2 else 3;
              h == g.(claims := g.claims[k := m | mine], score := g.score[i := g.score[i] + add],
                      delta := g.delta[i := g.delta[i] + add])
  {
  }

  /** Nothing else is scored. */
  lemma OthersDoNot(g: Game, p: Play)
    requires GameOk(g) && PlayOk(p) && forall i, k :: 0 <= i < 2 && 0 <= k < 80 ==> !Hits(p, i, k)
    ensures After(g, p).claims == g.claims && After(g, p).score == g.score
    ensures p.Happens? ==> After(g, p).delta == g.delta
  {
    if p.Happens? && 0 < p.e.sensor <= 80 {
      assert !Hits(p, 0, p.e.sensor - 1) && !Hits(p, 1, p.e.sensor - 1);
    }
  }

  /** The mask of a sensor and the players who have claimed it. */
  predicate MaskIs(m: bv8, c: seq<nat>) {
    (m & 1 != 0 <==> 0 in c) && (m & 2 != 0 <==> 1 in c) && |c| <= 2 && (|c| == 2 ==> c[0] != c[1]) &&
    forall j :: 0 <= j < |c| ==> c[j] < 2
  }

  lemma MaskNext(m: bv8, c: seq<nat>, i: nat)
    requires MaskIs(m, c) && i < 2 && i !in c
    ensures MaskIs(m | (if i == 0 then 1 else 2), c + [i]) && Share(c + [i], i) == (if c == [] then 3 else 2)
    ensures Share(c, i) == 0 && Share(c + [i], 1 - i) == Share(c, 1 - i)
    ensures c == [] <==> m & (if i == 0 then 2 else 1) == 0
  {
    MaskBits(m);
  }

  lemma MaskBits(m: bv8)
    ensures (m | 1) & 1 != 0 && ((m | 1) & 2 != 0 <==> m & 2 != 0)
    ensures (m | 2) & 2 != 0 && ((m | 2) & 1 != 0 <==> m & 1 != 0)
  {
  }

  /** The scores and masks that `s` should have led to. */
  ghost predicate Shared(s: seq<Play>, g: Game)
    requires GameOk(g)
  {
    (forall k :: 0 <= k < 80 ==> MaskIs(g.claims[k], Claimants(s, k))) &&
    forall i :: 0 <= i < 2 ==> g.score[i] == Shares(s, i, 80)
  }

  /** One more play that changes the claimants of at most one sensor. */
  lemma {:induction false} SharesNext(s: seq<Play>, t: seq<Play>, i: nat, k: nat, n: nat)
    requires forall j :: 0 <= j < n && j != k ==> Claimants(t, j) == Claimants(s, j)
    ensures Shares(t, i, n) ==
              Shares(s, i, n) + if k < n then Share(Claimants(t, k), i) - Share(Claimants(s, k), i) else 0
  {
    if n > 0 {
      SharesNext(s, t, i, k, n - 1);
    }
  }

  lemma NoHitKeeps(s: seq<Play>, p: Play, g: Game)
    requires GameOk(g) && PlayOk(p) && Shared(s, g) && forall i, k :: 0 <= i < 2 && 0 <= k < 80 ==> !Hits(p, i, k)
    ensures Shared(s + [p], After(g, p))
  {
    OthersDoNot(g, p);
    assert (s + [p])[..|s|] == s;
    SharesNext(s, s + [p], 0, 80, 80);
    SharesNext(s, s + [p], 1, 80, 80);
  }

  /** The claimants after a hit. */
  lemma HitClaimants(s: seq<Play>, p: Play, i: nat, k: nat, j: nat)
    requires Hits(p, i, k)
    ensures Claimants(s + [p], j) == if j == k && i !in Claimants(s, k) then Claimants(s, k) + [i] else Claimants(s, j)
  {
    assert (s + [p])[..|s|] == s;
  }

  lemma HitMasks(s: seq<Play>, p: Play, g: Game, i: nat, k: nat, j: nat)
    requires GameOk(g) && PlayOk(p) && Shared(s, g) && k < 80 && j < 80 && Hits(p, i, k)
    ensures MaskIs(After(g, p).claims[j], Claimants(s + [p], j))
  {
    HitScores(g, p, i, k);
    HitClaimants(s, p, i, k, j);
    assert MaskIs(g.claims[j], Claimants(s, j));
    if i !in Claimants(s, k) {
      MaskNext(g.claims[k], Claimants(s, k), i);
    }
  }

  lemma HitShares(s: seq<Play>, p: Play, g: Game, i: nat, k: nat, j: nat)
    requires GameOk(g) && PlayOk(p) && Shared(s, g) && k < 80 && j < 2 && Hits(p, i, k)
    ensures After(g, p).score[j] == Shares(s + [p], j, 80)
  {
    var c := Claimants(s, k);
    HitScores(g, p, i, k);
    assert MaskIs(g.claims[k], c);
    forall h: nat ensures Claimants(s + [p], h) == if h == k && i !in c then c + [i] else Claimants(s, h) {
      HitClaimants(s, p, i, k, h);
    }
    SharesNext(s, s + [p], j, k, 80);
    if i !in c {
      MaskNext(g.claims[k], c, i);
    }
  }

  lemma HitKeeps(s: seq<Play>, p: Play, g: Game, i: nat, k: nat)
    requires GameOk(g) && PlayOk(p) && Shared(s, g) && k < 80 && Hits(p, i, k)
    ensures Shared(s + [p], After(g, p))
  {
    forall j | 0 <= j < 80 ensures MaskIs(After(g, p).claims[j], Claimants(s + [p], j)) {
      HitMasks(s, p, g, i, k, j);
    }
    forall j | 0 <= j < 2 ensures After(g, p).score[j] == Shares(s + [p], j, 80) {
      HitShares(s, p, g, i, k, j);
    }
  }

  /** In every game: a player's score is three half points for each sensor that it claimed before the other player, and
      two for each that it claimed after the other one; and the mask of a sensor says who has claimed it. */
  lemma {:induction false} ScoreIsShares(s: seq<Play>)
    requires PlaysOk(s)
    ensures Shared(s, Played(s))
  {
    if s == [] {
      NoShares(0, 80);
      NoShares(1, 80);
    } else {
      var before, p := s[..|s| - 1], s[|s| - 1];
      ScoreIsShares(before);
      assert PlayOk(p) && s == before + [p];
      if i, k :| 0 <= i < 2 && 0 <= k < 80 && Hits(p, i, k) {
        HitKeeps(before, p, Played(before), i, k);
      } else {
        NoHitKeeps(before, p, Played(before));
      }
    }
  }

  lemma {:induction false} NoShares(i: nat, n: nat)
    ensures Shares([], i, n) == 0
  {
    if n > 0 {
      NoShares(i, n - 1);
    }
  }

  // ---------- who has arrived ----------

  /** A train stops at a sensor that is `goal`'s own number or that of its reverse. */
  predicate StopsAt(p: Play, i: nat, own: nat, back: nat) {
    p.Happens? && RoundOk(p.r) && i < 3 && p.r.running && p.e.kind == GoalStop && p.r.trains[i] == p.e.train &&
    (forall j :: 0 <= j < i ==> p.r.trains[j] != p.e.train) && p.e.sensor != 0 &&
      (p.e.sensor == own || p.e.sensor == back)
  }

  predicate Arrives(p: Play, i: nat) {
    p.Happens? && RoundOk(p.r) && i < 3 && StopsAt(p, i, p.r.goals[i].own, p.r.goals[i].back)
  }

  /** The neutral train stops at the standby goal it was sent to. */
  predicate StandsBy(p: Play) {
    p.Happens? && RoundOk(p.r) && p.r.standbySent && StopsAt(p, 2, p.r.standby.own, p.r.standby.back)
  }

  /** Whether train `i` has arrived since the round began. */
  predicate Arrived(s: seq<Play>, i: nat) {
    s != [] && !s[|s| - 1].NewRound? && (Arrives(s[|s| - 1], i) || Arrived(s[..|s| - 1], i))
  }

  predicate StoodBy(s: seq<Play>) {
    s != [] && !s[|s| - 1].NewRound? && (StandsBy(s[|s| - 1]) || StoodBy(s[..|s| - 1]))
  }

  lemma StopMarks(g: Game, p: Play, i: nat)
    requires GameOk(g) && PlayOk(p) && p.Happens? && i < 3
    ensures After(g, p).done[i] == (g.done[i] || Arrives(p, i)) &&
            After(g, p).standbyDone == (g.standbyDone || StandsBy(p))
  {
  }

  /** In every game: a train counts as done exactly if it has stopped at its goal in the present round, and the neutral
      train counts as standing by exactly if it has stopped at the standby goal it was sent to. */
  lemma {:induction false} DoneExactly(s: seq<Play>, i: nat)
    requires PlaysOk(s) && i < 3
    ensures Played(s).done[i] == Arrived(s, i) && Played(s).standbyDone == StoodBy(s)
  {
    if s != [] {
      DoneExactly(s[..|s| - 1], i);
      assert PlayOk(s[|s| - 1]);
      if s[|s| - 1].Happens? {
        StopMarks(Played(s[..|s| - 1]), s[|s| - 1], i);
      }
    }
  }

  // ---------- the consumer ----------

  class Scorer {
    const claims: array<bv8>
    const score: array<int>
    const delta: array<int>
    const done: array<bool>
    var standbyDone: bool
    var cursor: nat
    ghost var plays: seq<Play>

    /** game_reset_all. */
    constructor ()
      ensures Valid() && View() == Start() && cursor == 0 && plays == []
      ensures fresh(claims) && fresh(score) && fresh(delta) && fresh(done)
    {
      claims := new bv8[80](i => 0);
      score := new int[2](i => 0);
      delta := new int[3](i => 0);
      done := new bool[3](i => false);
      standbyDone, cursor, plays := false, 0, [];
      new;
      assert claims[..] == Start().claims && score[..] == [0, 0] && delta[..] == [0, 0, 0];
    }

    ghost predicate Apart()
      reads this
    {
      claims.Length == KEYS && score.Length == 2 && delta.Length == done.Length == 3 && score != delta
    }

    /** The arrays show the game that has been played so far. */
    ghost predicate Valid()
      reads this, claims, score, delta, done
    {
      Apart() && PlaysOk(plays) && View() == Played(plays)
    }

    ghost function View(): Game
      reads this, claims, score, delta, done
    {
      Game(claims[..], score[..], delta[..], done[..], standbyDone)
    }

    /** What a player can rely on whenever the scores are shown. */
    lemma ScoresAddUp()
      requires Valid()
      ensures score[0] + score[1] == Total(claims[..])
      ensures forall i :: 0 <= i < 2 ==> score[i] == RoundStart(plays)[i] + delta[i]
    {
      GameConserves(plays);
    }

    lemma OneMore(p: Play)
      requires PlaysOk(plays) && PlayOk(p)
      ensures PlaysOk(plays + [p]) && Played(plays + [p]) == After(Played(plays), p)
    {
      assert (plays + [p])[..|plays|] == plays;
    }

    /** game_reset_round_state. */
    method BeginRound()
      requires Valid()
      modifies delta, done, this`standbyDone, this`plays
      ensures Valid() && plays == old(plays) + [NewRound] && View() == NextRound(old(View()))
    {
      OneMore(NewRound);
      ghost var g := View();
      ClearRound();
      standbyDone := false;
      plays := plays + [NewRound];
      assert View() == NextRound(g);
    }

    method ClearRound()
      requires Apart()
      modifies delta, done
      ensures delta[..] == [0, 0, 0] && done[..] == [false, false, false]
    {
      for i := 0 to 3
        invariant forall k :: 0 <= k < i ==> delta[k] == 0 && !done[k]
      {
        delta[i], done[i] := 0, false;
      }
    }

    /** A sensor hit by a player. */
    method ClaimSensor(role: nat, idx: nat)
      requires Apart() && role < 2 && idx < KEYS
      modifies claims, score, delta
      ensures View() == Claim(old(View()), role, idx)
    {
      ghost var g := View();
      if claims[idx] & Bit(role) != 0 {
        return;
      }
      var add := if claims[idx] & Bit(1 - role) != 0 then 2 else 3;
      claims[idx] := claims[idx] | Bit(role);
      score[role] := score[role] + add;
      delta[role] := delta[role] + add;
      assert claims[..] == g.claims[idx := g.claims[idx] | Bit(role)];
      assert score[..] == g.score[role := g.score[role] + add] && delta[..] == g.delta[role := g.delta[role] + add];
    }

    /** The loop body of game_consume_events. */
    method ConsumeEvent(r: Round, e: Event)
      requires Valid() && RoundOk(r)
      modifies claims, score, delta, done, this`standbyDone, this`plays
      ensures Valid() && plays == old(plays) + [Happens(r, e)] && View() == Consume(r, old(View()), e)
    {
      OneMore(Happens(r, e));
      ApplyEvent(r, e);
      plays := plays + [Happens(r, e)];
    }

    method ApplyEvent(r: Round, e: Event)
      requires Apart() && Shaped(r, View())
      modifies claims, score, delta, done, this`standbyDone
      ensures View() == Consume(r, old(View()), e)
    {
      var role := RoleOf(r.trains, e.train);
      if role == 3 {
        return;
      }
      if e.kind == SensorHit && r.running && role != NEUTRAL {
        if e.sensor == 0 || e.sensor > 80 {
          return;
        }
        ClaimSensor(role, e.sensor - 1);
      } else if e.kind == GoalStop && r.running {
        if Matches(e.sensor, r.goals[role]) {
          done[role] := true;
        }
        if role == NEUTRAL && r.standbySent && Matches(e.sensor, r.standby) {
          standbyDone := true;
        }
      }
    }

    /** game_consume_events: whatever the batches, all events the log still holds are consumed, in order, and the
        scores add up. */
    method ConsumeEvents(r: Round, log: EventLog)
      requires Valid() && log.Valid() && RoundOk(r)
      requires cursor <= |log.log| < 0xFFFF_FFFF
      modifies claims, score, delta, done, this
      ensures Valid() && cursor == |log.log|
      ensures View() == ConsumeAll(r, old(View()), log.log[Resume(|log.log|, old(cursor))..])
      ensures View().score[0] + View().score[1] == Total(View().claims)
    {
      ghost var g, all, start := View(), log.log, Resume(|log.log|, cursor);
      var events;
      cursor, events := log.Read(cursor, BATCH);
      ghost var from := start;
      assert all[start..start] == [];
      while |events| > 0
        invariant Valid() && log.Valid() && log.log == all && start <= from <= cursor == from + |events| <= |all|
        invariant events == all[from..cursor] && (|events| > 0 || from == |all|)
        invariant View() == ConsumeAll(r, g, all[start..from])
        decreases |all| - from
      {
        ghost var to := cursor;
        events := NextBatch(r, log, events);
        NextPart(r, g, all, start, from, to);
        from := to;
      }
      assert all[start..|all|] == all[start..];
      ScoresAddUp();
    }

    /** Consuming one batch and reading the next one. */
    method NextBatch(r: Round, log: EventLog, events: seq<Event>) returns (more: seq<Event>)
      requires Valid() && log.Valid() && RoundOk(r) && Resume(|log.log|, cursor) == cursor <= |log.log| < 0xFFFF_FFFF
      modifies claims, score, delta, done, this
      ensures Valid() && log.Valid() && View() == ConsumeAll(r, old(View()), events)
      ensures old(cursor) <= cursor == old(cursor) + |more| <= |log.log| && more == log.log[old(cursor)..cursor]
      ensures |more| > 0 || cursor == |log.log|
    {
      ConsumeBatch(r, events);
      cursor, more := log.Read(cursor, BATCH);
    }

    method ConsumeBatch(r: Round, events: seq<Event>)
      requires Valid() && RoundOk(r)
      modifies claims, score, delta, done, this`standbyDone, this`plays
      ensures Valid() && View() == ConsumeAll(r, old(View()), events)
    {
      for i := 0 to |events|
        invariant Valid() && View() == ConsumeAll(r, old(View()), events[..i])
      {
        assert events[..i + 1][..i] == events[..i];
        ConsumeEvent(r, events[i]);
      }
      assert events[..|events|] == events;
    }
  }
}
