/** deadlock_find_mask_for_train over the fleet itself: who takes part, what a wait cycle is, and which bits are set. */
module DeadlockFleet {
  import opened Track
  import opened Deadlock

  // ---------- who takes part ----------

  /** How many of the trains before `x` wait or stand in the way. */
  function Before(fleet: seq<Position>, x: nat): nat
    requires x <= |fleet|
  {
    if x == 0 then 0 else Before(fleet, x - 1) + if fleet[x - 1].state != Elsewhere then 1 else 0
  }

  /** Train `x` takes part, unless `cap` trains before it do already. */
  predicate TakesPart(fleet: seq<Position>, cap: nat, x: nat) {
    x < |fleet| && fleet[x].state != Elsewhere && Before(fleet, x) < cap
  }

  /** With at most `cap` such trains nobody drops out. */
  lemma NobodyDropsOut(fleet: seq<Position>, cap: nat, x: nat)
    requires x < |fleet| && fleet[x].state != Elsewhere && Before(fleet, |fleet|) <= cap
    ensures TakesPart(fleet, cap, x)
  {
    BeforeGrows(fleet, x + 1, |fleet|);
  }

  lemma {:induction false} BeforeGrows(fleet: seq<Position>, x: nat, y: nat)
    requires x <= y <= |fleet|
    ensures Before(fleet, x) <= Before(fleet, y)
    decreases y
  {
    if x < y {
      BeforeGrows(fleet, x, y - 1);
    }
  }

  lemma {:induction false} BeforePrefix(fleet: seq<Position>, n: nat, x: nat)
    requires x <= n <= |fleet|
    ensures Before(fleet[..n], x) == Before(fleet, x)
  {
    if x > 0 {
      BeforePrefix(fleet, n, x - 1);
    }
  }

  /** Different participants have different places among the participants. */
  lemma PlacesDiffer(fleet: seq<Position>, x: nat, y: nat)
    requires x < y < |fleet| && fleet[x].state != Elsewhere
    ensures Before(fleet, x) < Before(fleet, y)
  {
    BeforeGrows(fleet, x + 1, y);
  }

  lemma SamePlace(fleet: seq<Position>, x: nat, y: nat)
    requires x < |fleet| && y < |fleet| && fleet[x].state != Elsewhere && fleet[y].state != Elsewhere
    ensures Before(fleet, x) == Before(fleet, y) <==> x == y
  {
    if x < y {
      PlacesDiffer(fleet, x, y);
    } else if y < x {
      PlacesDiffer(fleet, y, x);
    }
  }

  lemma {:induction false} HowMany(fleet: seq<Position>, cap: nat)
    requires |fleet| <= 8
    ensures var n := Before(fleet, |fleet|); |Participants(fleet, cap)| == if n <= cap then n else cap
  {
    if fleet != [] {
      var last := |fleet| - 1;
      HowMany(fleet[..last], cap);
      BeforePrefix(fleet, last, last);
    }
  }

  /** A train that takes part is listed at its place. */
  lemma {:induction false} Listed(fleet: seq<Position>, cap: nat, x: nat)
    requires |fleet| <= 8 && TakesPart(fleet, cap, x)
    ensures Before(fleet, x) < |Participants(fleet, cap)|
    ensures Participants(fleet, cap)[Before(fleet, x)] ==
              Train(fleet[x].num, Bit(x), fleet[x].state == Waiting, fleet[x].blockers)
    decreases |fleet|
  {
    var last := |fleet| - 1;
    HowMany(fleet[..last], cap);
    BeforePrefix(fleet, last, last);
    if x < last {
      BeforePrefix(fleet, last, x);
      Listed(fleet[..last], cap, x);
    }
  }

  /** And nobody else is listed. */
  lemma {:induction false} WhoIsListed(fleet: seq<Position>, cap: nat, s: nat) returns (x: nat)
    requires |fleet| <= 8 && s < |Participants(fleet, cap)|
    ensures TakesPart(fleet, cap, x) && Before(fleet, x) == s
  {
    var last := |fleet| - 1;
    HowMany(fleet[..last], cap);
    BeforePrefix(fleet, last, last);
    if s < |Participants(fleet[..last], cap)| {
      x := WhoIsListed(fleet[..last], cap, s);
      BeforePrefix(fleet, last, x);
    } else {
      x := last;
    }
  }

  // ---------- chains of trains ----------

  /** Bit `y` of a mask. */
  predicate HasBitAt(m: bv8, y: nat) {
    y < 8 && (m >> y) & 1 == 1
  }

  /** Train `x` waits for train `y`, which waits itself: it holds track that `x` needs. */
  predicate HeldUp(fleet: seq<Position>, cap: nat, x: nat, y: nat) {
    TakesPart(fleet, cap, x) && TakesPart(fleet, cap, y) && x != y && fleet[x].state == Waiting &&
    fleet[y].state == Waiting && HasBitAt(fleet[x].blockers, y)
  }

  /** A chain of trains, each held up by the next one, that leads from `x` back to `x`. */
  predicate RoundTrip(fleet: seq<Position>, cap: nat, x: nat, p: seq<nat>) {
    |p| >= 2 && p[0] == x && p[|p| - 1] == x && forall k :: 0 <= k < |p| - 1 ==> HeldUp(fleet, cap, p[k], p[k + 1])
  }

  ghost predicate InCycle(fleet: seq<Position>, cap: nat, x: nat) {
    exists p :: RoundTrip(fleet, cap, x, p)
  }

  /** Train `y` is on such a chain of `x`. */
  ghost predicate ShareCycle(fleet: seq<Position>, cap: nat, x: nat, y: nat) {
    exists p :: RoundTrip(fleet, cap, x, p) && y in p
  }

  /** A stopped train that holds track that `x` waits for. */
  predicate StopsInWay(fleet: seq<Position>, cap: nat, x: nat, y: nat) {
    TakesPart(fleet, cap, x) && TakesPart(fleet, cap, y) && fleet[x].state == Waiting && fleet[y].state == Stopped &&
    HasBitAt(fleet[x].blockers, y)
  }

  lemma BitIsShift(m: bv8, y: nat)
    ensures Has(m, y) <==> HasBitAt(m, y)
  {
    if y < 8 {
      LowBit(m, y);
    }
  }

  lemma BitIsAnd(m: bv8, y: nat)
    requires y < 8
    ensures m & Bit(y) != 0 <==> HasBitAt(m, y)
  {
    BitIsShift(m, y);
  }

  lemma HeldUpIsWaits(fleet: seq<Position>, cap: nat, x: nat, y: nat)
    requires |fleet| <= 8 && TakesPart(fleet, cap, x) && TakesPart(fleet, cap, y)
    ensures HeldUp(fleet, cap, x, y) <==> Waits(Participants(fleet, cap), Before(fleet, x), Before(fleet, y))
  {
    Listed(fleet, cap, x);
    Listed(fleet, cap, y);
    BitIsAnd(fleet[x].blockers, y);
    SamePlace(fleet, x, y);
  }

  lemma StopsIsBlocks(fleet: seq<Position>, cap: nat, x: nat, y: nat)
    requires |fleet| <= 8 && TakesPart(fleet, cap, x) && TakesPart(fleet, cap, y)
    ensures StopsInWay(fleet, cap, x, y) <==>
            fleet[x].state == Waiting && Blocks(Participants(fleet, cap), Before(fleet, x), Before(fleet, y))
  {
    Listed(fleet, cap, x);
    Listed(fleet, cap, y);
    BitIsAnd(fleet[x].blockers, y);
  }

  // ---------- the chains of the wait graph are chains of trains ----------

  /** `q` are the places of the trains `p` among the participants. */
  predicate Places(fleet: seq<Position>, cap: nat, p: seq<nat>, q: seq<nat>) {
    |p| == |q| && forall k :: 0 <= k < |p| ==> TakesPart(fleet, cap, p[k]) && q[k] == Before(fleet, p[k])
  }

  lemma {:induction false} TrainsAt(fleet: seq<Position>, cap: nat, q: seq<nat>) returns (p: seq<nat>)
    requires |fleet| <= 8 && forall k :: 0 <= k < |q| ==> q[k] < |Participants(fleet, cap)|
    ensures Places(fleet, cap, p, q)
  {
    if q == [] {
      p := [];
    } else {
      var before := TrainsAt(fleet, cap, q[..|q| - 1]);
      var x := WhoIsListed(fleet, cap, q[|q| - 1]);
      p := before + [x];
    }
  }

  lemma PlacesOf(fleet: seq<Position>, cap: nat, p: seq<nat>) returns (q: seq<nat>)
    requires forall k :: 0 <= k < |p| ==> TakesPart(fleet, cap, p[k])
    ensures Places(fleet, cap, p, q)
  {
    q := seq(|p|, k requires 0 <= k < |p| => Before(fleet, p[k]));
  }

  predicate Trip(ps: seq<Train>, s: nat, q: seq<nat>) {
    Chain(ps, q, s, s) && |q| >= 2
  }

  lemma TripLinks(fleet: seq<Position>, cap: nat, p: seq<nat>, q: seq<nat>, k: nat)
    requires |fleet| <= 8 && Places(fleet, cap, p, q) && k + 1 < |p|
    ensures Link(Participants(fleet, cap), q, k) <==> HeldUp(fleet, cap, p[k], p[k + 1])
  {
    HeldUpIsWaits(fleet, cap, p[k], p[k + 1]);
  }

  lemma TripIsRoundTrip(fleet: seq<Position>, cap: nat, x: nat, p: seq<nat>, q: seq<nat>)
    requires |fleet| <= 8 && Places(fleet, cap, p, q) && TakesPart(fleet, cap, x)
    ensures Trip(Participants(fleet, cap), Before(fleet, x), q) <==> RoundTrip(fleet, cap, x, p)
  {
    var ps := Participants(fleet, cap);
    forall k | 0 <= k < |p| - 1 ensures Link(ps, q, k) <==> HeldUp(fleet, cap, p[k], p[k + 1]) {
      TripLinks(fleet, cap, p, q, k);
    }
    if |p| >= 2 {
      SamePlace(fleet, p[0], x);
      SamePlace(fleet, p[|p| - 1], x);
    }
    if RoundTrip(fleet, cap, x, p) {
      forall k | 0 <= k < |q| ensures q[k] < |ps| && ps[q[k]].waiting {
        Listed(fleet, cap, p[k]);
        assert k < |p| - 1 ==> HeldUp(fleet, cap, p[k], p[k + 1]);
        assert k > 0 ==> HeldUp(fleet, cap, p[k - 1], p[k]);
      }
    }
  }

  lemma RoundTripTakesPart(fleet: seq<Position>, cap: nat, x: nat, p: seq<nat>)
    requires RoundTrip(fleet, cap, x, p)
    ensures forall k :: 0 <= k < |p| ==> TakesPart(fleet, cap, p[k])
  {
    forall k | 0 <= k < |p| ensures TakesPart(fleet, cap, p[k]) {
      assert k < |p| - 1 ==> HeldUp(fleet, cap, p[k], p[k + 1]);
      assert k > 0 ==> HeldUp(fleet, cap, p[k - 1], p[k]);
    }
  }

  /** Trains that share a cycle lead to each other, and the other way round. */
  lemma TripThrough(ps: seq<Train>, s: nat, k: nat)
    requires OnCycle(ps, s)
    ensures Leads(ps, s, k) && Leads(ps, k, s) <==> exists q :: Trip(ps, s, q) && k in q
  {
    if q :| Trip(ps, s, q) && k in q {
      var i :| 0 <= i < |q| && q[i] == k;
      DropWalk(ps, q, i);
      assert Chain(ps, q[i..], k, s) && Chain(ps, q[..i + 1], s, k);
    }
    if Leads(ps, s, k) && Leads(ps, k, s) {
      if k == s {
        var q :| Chain(ps, q, s, s) && |q| >= 2;
        assert Trip(ps, s, q) && q[0] == k;
      } else {
        var p :| Chain(ps, p, s, k);
        var o :| Chain(ps, o, k, s);
        JoinWalks(ps, p, o);
        var q := p + o[1..];
        assert Trip(ps, s, q) && q[|p| - 1] == k;
      }
    }
  }

  lemma CycleMeans(fleet: seq<Position>, cap: nat, x: nat)
    requires |fleet| <= 8 && TakesPart(fleet, cap, x)
    ensures OnCycle(Participants(fleet, cap), Before(fleet, x)) <==> InCycle(fleet, cap, x)
  {
    var ps, s := Participants(fleet, cap), Before(fleet, x);
    if OnCycle(ps, s) {
      var q :| Chain(ps, q, s, s) && |q| >= 2;
      var p := TrainsAt(fleet, cap, q);
      TripIsRoundTrip(fleet, cap, x, p, q);
    }
    if p :| RoundTrip(fleet, cap, x, p) {
      RoundTripTakesPart(fleet, cap, x, p);
      var q := PlacesOf(fleet, cap, p);
      TripIsRoundTrip(fleet, cap, x, p, q);
    }
  }

  lemma ShareMeans(fleet: seq<Position>, cap: nat, x: nat, y: nat)
    requires |fleet| <= 8 && TakesPart(fleet, cap, x) && TakesPart(fleet, cap, y) && InCycle(fleet, cap, x)
    ensures var ps, s, k := Participants(fleet, cap), Before(fleet, x), Before(fleet, y);
            Leads(ps, s, k) && Leads(ps, k, s) <==> ShareCycle(fleet, cap, x, y)
  {
    var ps, s, k := Participants(fleet, cap), Before(fleet, x), Before(fleet, y);
    CycleMeans(fleet, cap, x);
    TripThrough(ps, s, k);
    if q :| Trip(ps, s, q) && k in q {
      var p := TrainsAt(fleet, cap, q);
      TripIsRoundTrip(fleet, cap, x, p, q);
      var i :| 0 <= i < |q| && q[i] == k;
      SamePlace(fleet, p[i], y);
      assert y in p;
    }
    if p :| RoundTrip(fleet, cap, x, p) && y in p {
      RoundTripTakesPart(fleet, cap, x, p);
      var q := PlacesOf(fleet, cap, p);
      TripIsRoundTrip(fleet, cap, x, p, q);
      var i :| 0 <= i < |p| && p[i] == y;
      assert q[i] == k;
    }
  }

  // ---------- the answer ----------

  /** The train the question is about: the first participant with its number. */
  predicate Asked(fleet: seq<Position>, cap: nat, num: int, x: nat) {
    TakesPart(fleet, cap, x) && fleet[x].num == num &&
    forall y :: 0 <= y < x && TakesPart(fleet, cap, y) ==> fleet[y].num != num
  }

  /** The bit of a participant in the answer is that of its place among the participants. */
  ghost predicate MaskOf(fleet: seq<Position>, cap: nat, m: bv8, chosen: iset<nat>) {
    (forall y :: TakesPart(fleet, cap, y) ==> (HasBitAt(m, Before(fleet, y)) <==> y in chosen)) &&
    forall k: nat :: HasBitAt(m, k) ==> exists y :: TakesPart(fleet, cap, y) && Before(fleet, y) == k
  }

  /** A wait cycle is reported, with the trains on it, exactly if one runs through the train; a stopped blocker, with
      all that are in the way, exactly if there is no cycle but a stopped train in the way of a waiting one. */
  ghost predicate AnswerFor(fleet: seq<Position>, cap: nat, x: nat, m: bv8, kind: Kind) {
    if InCycle(fleet, cap, x) then
      kind == WaitCycle && MaskOf(fleet, cap, m, iset y: nat | ShareCycle(fleet, cap, x, y))
    else if exists y :: StopsInWay(fleet, cap, x, y) then
      kind == StoppedBlocker && MaskOf(fleet, cap, m, iset y: nat | y == x || StopsInWay(fleet, cap, x, y))
    else kind == NoDeadlock && m == 0
  }

  ghost predicate FleetAnswer(fleet: seq<Position>, cap: nat, num: int, m: bv8, kind: Kind) {
    (forall x :: Asked(fleet, cap, num, x) ==> AnswerFor(fleet, cap, x, m, kind)) &&
    ((forall x :: !Asked(fleet, cap, num, x)) ==> m == 0 && kind == NoDeadlock)
  }

  lemma AskedIsTrain(fleet: seq<Position>, cap: nat, num: int, x: nat)
    requires |fleet| <= 8 && Asked(fleet, cap, num, x)
    ensures IsTrain(Participants(fleet, cap), Before(fleet, x), num)
  {
    var ps := Participants(fleet, cap);
    Listed(fleet, cap, x);
    forall j | 0 <= j < Before(fleet, x) ensures ps[j].num != num {
      var y := WhoIsListed(fleet, cap, j);
      Listed(fleet, cap, y);
      if x < y {
        PlacesDiffer(fleet, x, y);
      }
    }
  }

  lemma TrainIsAsked(fleet: seq<Position>, cap: nat, num: int, s: nat) returns (x: nat)
    requires |fleet| <= 8 && IsTrain(Participants(fleet, cap), s, num)
    ensures Asked(fleet, cap, num, x)
  {
    x := WhoIsListed(fleet, cap, s);
    Listed(fleet, cap, x);
    forall y | 0 <= y < x && TakesPart(fleet, cap, y) ensures fleet[y].num != num {
      Listed(fleet, cap, y);
      PlacesDiffer(fleet, y, x);
    }
  }

  lemma MaskMeans(fleet: seq<Position>, cap: nat, m: bv8, chosen: iset<nat>)
    requires |fleet| <= 8 && forall k: nat :: Has(m, k) ==> k < |Participants(fleet, cap)|
    requires forall y :: TakesPart(fleet, cap, y) ==> (Has(m, Before(fleet, y)) <==> y in chosen)
    ensures MaskOf(fleet, cap, m, chosen)
  {
    forall k: nat ensures HasBitAt(m, k) <==> Has(m, k) {
      BitIsShift(m, k);
    }
    forall k: nat | HasBitAt(m, k) ensures exists y :: TakesPart(fleet, cap, y) && Before(fleet, y) == k {
      var y := WhoIsListed(fleet, cap, k);
    }
  }

  lemma CycleAnswer(fleet: seq<Position>, cap: nat, x: nat, m: bv8)
    requires |fleet| <= 8 && TakesPart(fleet, cap, x) && InCycle(fleet, cap, x)
    requires IsComponent(Participants(fleet, cap), Before(fleet, x), m)
    ensures MaskOf(fleet, cap, m, iset y: nat | ShareCycle(fleet, cap, x, y))
  {
    var ps, s := Participants(fleet, cap), Before(fleet, x);
    forall k: nat | Has(m, k) ensures k < |ps| {
      LeadsWaiting(ps, s, k);
    }
    forall y | TakesPart(fleet, cap, y) ensures Has(m, Before(fleet, y)) <==> ShareCycle(fleet, cap, x, y) {
      ShareMeans(fleet, cap, x, y);
    }
    MaskMeans(fleet, cap, m, iset y: nat | ShareCycle(fleet, cap, x, y));
  }

  lemma BlockerAnswer(fleet: seq<Position>, cap: nat, x: nat, m: bv8)
    requires |fleet| <= 8 && TakesPart(fleet, cap, x) && IsBlockerMask(Participants(fleet, cap), Before(fleet, x), m)
    ensures if exists y :: StopsInWay(fleet, cap, x, y)
            then MaskOf(fleet, cap, m, iset y: nat | y == x || StopsInWay(fleet, cap, x, y)) && m != 0
            else m == 0
  {
    var ps, s := Participants(fleet, cap), Before(fleet, x);
    Listed(fleet, cap, x);
    forall y | TakesPart(fleet, cap, y)
      ensures (StopsInWay(fleet, cap, x, y) <==> ps[s].waiting && Blocks(ps, s, Before(fleet, y))) &&
              (Before(fleet, y) == s <==> y == x)
    {
      StopsIsBlocks(fleet, cap, x, y);
      SamePlace(fleet, x, y);
    }
    if exists y :: StopsInWay(fleet, cap, x, y) {
      assert Has(m, s);
      MaskMeans(fleet, cap, m, iset y: nat | y == x || StopsInWay(fleet, cap, x, y));
      HasNone(s);
    } else if k :| Blocks(ps, s, k) && ps[s].waiting {
      var y := WhoIsListed(fleet, cap, k);
      assert false;
    }
  }

  /** What the answer over the participants says about the fleet. */
  lemma AnswerMeans(fleet: seq<Position>, cap: nat, num: int, m: bv8, kind: Kind)
    requires |fleet| <= 8 && RightAnswer(Participants(fleet, cap), num, m, kind)
    ensures FleetAnswer(fleet, cap, num, m, kind)
  {
    var ps := Participants(fleet, cap);
    forall x | Asked(fleet, cap, num, x) ensures AnswerFor(fleet, cap, x, m, kind) {
      AskedIsTrain(fleet, cap, num, x);
      assert RightMask(ps, Before(fleet, x), m, kind);
      CycleMeans(fleet, cap, x);
      if InCycle(fleet, cap, x) {
        CycleAnswer(fleet, cap, x, m);
      } else {
        BlockerAnswer(fleet, cap, x, m);
      }
    }
    if s :| IsTrain(ps, s, num) {
      var x := TrainIsAsked(fleet, cap, num, s);
    }
  }

  /** deadlock_find_mask_for_train; `cap` is DEADLOCK_MAX_TRAINS. */
  method FindMask(fleet: seq<Position>, cap: nat, num: int) returns (mask: bv8, kind: Kind)
    requires |fleet| <= 8 && cap <= 8
    ensures RightAnswer(Participants(fleet, cap), num, mask, kind) && FleetAnswer(fleet, cap, num, mask, kind)
  {
    mask, kind := FindAmong(fleet, cap, num);
    AnswerMeans(fleet, cap, num, mask, kind);
  }
}
