/** clock_server.c: the tick counter and the queue of delayed tasks. */
module ClockServer {
  import opened MinHeap

  const MAX_DELAY_TASKS: nat := 64
  const MAX_INT: int := 0x7FFF_FFFF

  datatype Request = Notify | Time | Delay(ticks: int) | DelayUntil(ticks: int) | Other

  /** One Reply call of the server. */
  datatype Answer = Answer(tid: int, ticks: int)

  /** The server between two requests; the queue holds (wake tick, tid) pairs. */
  datatype Clock = Clock(tick: int, queue: multiset<(int, int)>)

  /** The tick a delay ends at, in 32-bit arithmetic that does not overflow. */
  function WakeTick(c: Clock, r: Request): int {
    match r
    case Delay(t) => c.tick + t
    case DelayUntil(t) => t
    case _ => c.tick
  }

  /** Neither the tick counter nor a wake tick overflows an int. */
  predicate Fits(c: Clock, r: Request) {
    (r.Notify? ==> c.tick < MAX_INT) && (r.Delay? || r.DelayUntil? ==> WakeTick(c, r) <= MAX_INT)
  }

  /** The request is a delay that has to wait and finds room. */
  predicate Accepted(c: Clock, r: Request) {
    (r.Delay? || r.DelayUntil?) && WakeTick(c, r) > c.tick && |c.queue| < MAX_DELAY_TASKS
  }

  type Sleepers = multiset<(int, int)>

  lemma MoveOne(all: Sleepers, a: Sleepers, b: Sleepers, e: (int, int))
    requires all == a + b && e in a
    ensures all == (a - multiset{e}) + (b + multiset{e})
  {
  }

  lemma AddOne(all: Sleepers, a: Sleepers, b: Sleepers, e: (int, int))
    requires all == a + b
    ensures all + multiset{e} == (a + multiset{e}) + b
  {
  }

  lemma MoveSome(all: Sleepers, a: Sleepers, b: Sleepers, some: Sleepers, rest: Sleepers)
    requires all == a + b && a == rest + some
    ensures all == rest + (b + some)
  {
  }

  lemma Fewer(a: Sleepers, some: Sleepers, rest: Sleepers)
    requires a == rest + some
    ensures |rest| <= |a|
  {
  }

  /** Answers as (ticks, tid) pairs. */
  function WakeBag(s: seq<Answer>): multiset<(int, int)> {
    if s == [] then multiset{} else WakeBag(s[..|s| - 1]) + multiset{(s[|s| - 1].ticks, s[|s| - 1].tid)}
  }

  /** Who is left of `all` after the tasks `s` have been woken one after the other at `tick`. */
  ghost function Left(all: Sleepers, tick: int, s: seq<int>): Sleepers {
    if s == [] then all else Left(all, tick, s[..|s| - 1]) - multiset{(tick, s[|s| - 1])}
  }

  /** Each of them was still in the queue when it was woken. */
  ghost predicate Legal(all: Sleepers, tick: int, s: seq<int>) {
    s == [] || (Legal(all, tick, s[..|s| - 1]) && (tick, s[|s| - 1]) in Left(all, tick, s[..|s| - 1]))
  }

  lemma LegalNext(all: Sleepers, tick: int, s: seq<int>, tid: int)
    requires Legal(all, tick, s) && (tick, tid) in Left(all, tick, s)
    ensures Legal(all, tick, s + [tid]) && Left(all, tick, s + [tid]) == Left(all, tick, s) - multiset{(tick, tid)}
  {
    assert (s + [tid])[..|s|] == s;
  }

  /** The answers to the tasks woken at `tick`. */
  function Answers(tick: int, s: seq<int>): (r: seq<Answer>)
    ensures |r| == |s| && AllAt(r, tick)
  {
    seq(|s|, i requires 0 <= i < |s| => Answer(s[i], tick))
  }

  lemma {:induction false} WokenAndLeft(all: Sleepers, tick: int, s: seq<int>)
    requires Legal(all, tick, s)
    ensures all == Left(all, tick, s) + WakeBag(Answers(tick, s))
  {
    if s != [] {
      var t, r := s[..|s| - 1], Answers(tick, s);
      WokenAndLeft(all, tick, t);
      assert r[..|r| - 1] == Answers(tick, t);
      MoveOne(all, Left(all, tick, t), WakeBag(Answers(tick, t)), (tick, s[|s| - 1]));
    }
  }

  ghost predicate NobodyBefore(m: Sleepers, tick: int) {
    forall e :: e in m ==> e.0 >= tick
  }

  ghost predicate SomebodyDue(m: Sleepers, tick: int) {
    exists e :: e in m && e.0 <= tick
  }

  /** Queues in which nobody was due before `tick`, and queues in which somebody is due by then. */
  ghost function From(tick: int): iset<Sleepers> {
    iset m: Sleepers | NobodyBefore(m, tick)
  }

  ghost function DueBy(tick: int): iset<Sleepers> {
    iset m: Sleepers | SomebodyDue(m, tick)
  }

  lemma NobodyDue(m: Sleepers, tick: int)
    requires m !in DueBy(tick)
    ensures forall e :: e in m ==> e.0 > tick
  {
    assert !SomebodyDue(m, tick);
  }

  lemma AnswersNext(tick: int, s: seq<int>, tid: int)
    ensures Answers(tick, s + [tid]) == Answers(tick, s) + [Answer(tid, tick)]
  {
  }

  lemma FromMinus(m: Sleepers, e: (int, int), tick: int)
    requires m in From(tick)
    ensures m - multiset{e} in From(tick)
  {
  }

  predicate AllAt(s: seq<Answer>, tick: int) {
    forall i :: 0 <= i < |s| ==> s[i].ticks == tick
  }

  /** Handling `r` of task `tid` leads from `c` to `d` with the answers `out`. The order in which tasks
      with the same wake tick are woken is left open. */
  predicate Handles(c: Clock, tid: int, r: Request, d: Clock, out: seq<Answer>) {
    match r
    case Notify =>
      d.tick == c.tick + 1 && |out| > 0 && out[0] == Answer(tid, d.tick) && AllAt(out, d.tick) &&
      c.queue == d.queue + WakeBag(out[1..]) && forall e :: e in d.queue ==> e.0 > d.tick
    case Time => d == c && out == [Answer(tid, c.tick)]
    case Other => d == c && out == [Answer(tid, -1)]
    case _ =>
      if WakeTick(c, r) <= c.tick then d == c && out == [Answer(tid, c.tick)]
      else if Accepted(c, r) then d == c.(queue := c.queue + multiset{(WakeTick(c, r), tid)}) && out == []
      else d == c && out == [Answer(tid, -1)]
  }

  /** Nobody in the queue is overdue. */
  ghost predicate Inv(c: Clock) {
    c.tick >= 0 && |c.queue| <= MAX_DELAY_TASKS && forall e :: e in c.queue ==> e.0 > c.tick
  }

  lemma HandlesKeeps(c: Clock, tid: int, r: Request, d: Clock, out: seq<Answer>)
    requires Inv(c) && Handles(c, tid, r, d, out)
    ensures Inv(d)
  {
  }

  // ---------- the server ----------

  class Server {
    const heap: MinHeap<int>
    var tick: int

    constructor ()
      ensures Valid() && View() == Clock(0, multiset{})
    {
      var keys, vals := new int[64], new int[64];
      heap := new MinHeap<int>(keys, vals);
      tick := 0;
    }

    ghost function Footprint(): set<object>
      reads this, heap
    {
      {this, heap, heap.keys, heap.vals}
    }

    ghost predicate Sound()
      reads this, heap, heap.keys, heap.vals
    {
      heap.Valid() && heap.keys.Length == MAX_DELAY_TASKS
    }

    ghost function View(): Clock
      requires heap.Buffers()
      reads this, heap, heap.keys, heap.vals
    {
      Clock(tick, heap.Entries())
    }

    ghost predicate Valid()
      reads this, heap, heap.keys, heap.vals
    {
      Sound() && Inv(View())
    }

    /** insert_delay_entry. */
    method InsertDelay(tid: int, wake: int) returns (out: seq<Answer>)
      requires Sound()
      modifies heap, heap.keys, heap.vals
      ensures Sound()
      ensures if |old(heap.Entries())| < MAX_DELAY_TASKS
              then heap.Entries() == old(heap.Entries()) + multiset{(wake, tid)} && out == []
              else heap.Entries() == old(heap.Entries()) && out == [Answer(tid, -1)]
    {
      heap.SizeIsCount();
      var ok := heap.Insert(wake, tid);
      return if ok then [] else [Answer(tid, -1)];
    }

    /** The test of the wake-up loop: whether the earliest delay has expired. */
    method SomeDue() returns (due: bool)
      requires Sound()
      ensures due == (heap.Entries() in DueBy(tick))
    {
      heap.SizeIsCount();
      if heap.size == 0 {
        return false;
      }
      var earliest := heap.TopKey();
      return earliest <= tick;
    }

    /** Taking out a task whose delay ends now. */
    method PopDue() returns (tid: int)
      requires Sound() && heap.Entries() in From(tick) && heap.Entries() in DueBy(tick)
      modifies heap, heap.keys, heap.vals
      ensures Sound() && heap.Entries() in From(tick) && heap.size < old(heap.size)
      ensures (tick, tid) in old(heap.Entries()) && heap.Entries() == old(heap.Entries()) - multiset{(tick, tid)}
    {
      ghost var m := heap.Entries();
      var popped := heap.Pop();
      assert popped.key == tick;
      tid := popped.item;
      FromMinus(m, (tick, tid), tick);
    }

    /** The wake-up loop: whoever is due is woken, and the rest stays. */
    method WakeDue() returns (out: seq<Answer>)
      requires Sound() && heap.Entries() in From(tick)
      modifies heap, heap.keys, heap.vals
      ensures Sound() && AllAt(out, tick) && old(heap.Entries()) == heap.Entries() + WakeBag(out)
      ensures forall e :: e in heap.Entries() ==> e.0 > tick
    {
      ghost var all := heap.Entries();
      ghost var woken: seq<int> := [];
      out := [];
      assert Answers(tick, woken) == [];
      var due := SomeDue();
      while due
        invariant Sound() && heap.Entries() in From(tick) && Legal(all, tick, woken) && out == Answers(tick, woken)
        invariant heap.Entries() == Left(all, tick, woken) && due == (heap.Entries() in DueBy(tick))
        decreases heap.size, due
      {
        var tid := PopDue();
        LegalNext(all, tick, woken, tid);
        AnswersNext(tick, woken, tid);
        woken := woken + [tid];
        out := out + [Answer(tid, tick)];
        due := SomeDue();
      }
      WokenAndLeft(all, tick, woken);
      NobodyDue(heap.Entries(), tick);
    }

    /** A clock tick. */
    method Advance(tid: int) returns (out: seq<Answer>)
      requires Valid()
      modifies Footprint()
      ensures Valid() && Handles(old(View()), tid, Notify, View(), out)
    {
      ghost var before := heap.Entries();
      tick := tick + 1;
      var woken := WakeDue();
      Fewer(before, WakeBag(woken), heap.Entries());
      out := [Answer(tid, tick)] + woken;
      assert out[1..] == woken;
    }

    /** A delay that has to wait. */
    method Queue(tid: int, wake: int) returns (out: seq<Answer>)
      requires Valid() && wake > tick
      modifies Footprint()
      ensures Valid() && Handles(old(View()), tid, DelayUntil(wake), View(), out)
    {
      out := InsertDelay(tid, wake);
    }

    /** One round of the server loop. */
    method Handle(tid: int, r: Request) returns (out: seq<Answer>)
      requires Valid() && Fits(View(), r)
      modifies Footprint()
      ensures Valid() && Handles(old(View()), tid, r, View(), out)
    {
      match r {
        case Notify => out := Advance(tid);
        case Time =>
          out := [Answer(tid, tick)];
        case Delay(t) =>
          if t <= 0 {
            out := [Answer(tid, tick)];
          } else {
            out := Queue(tid, tick + t);
          }
        case DelayUntil(t) =>
          if t <= tick {
            out := [Answer(tid, tick)];
          } else {
            out := Queue(tid, t);
          }
        case Other =>
          out := [Answer(tid, -1)];
      }
    }
  }

  // ---------- whole runs ----------

  /** One handled request. */
  datatype Event = Event(tid: int, req: Request, after: Clock, out: seq<Answer>)

  ghost predicate Run(s: seq<Event>) {
    s == [] || (Run(s[..|s| - 1]) && Handles(Final(s[..|s| - 1]), s[|s| - 1].tid, s[|s| - 1].req, s[|s| - 1].after,
                                             s[|s| - 1].out))
  }

  /** The state after a run that starts at tick 0 with nobody queued. */
  function Final(s: seq<Event>): Clock {
    if s == [] then Clock(0, multiset{}) else s[|s| - 1].after
  }

  /** All delays accepted during a run, as (wake tick, tid). */
  ghost function AcceptedIn(s: seq<Event>): multiset<(int, int)> {
    if s == [] then multiset{}
    else
      var before, e := s[..|s| - 1], s[|s| - 1];
      AcceptedIn(before) +
      if Accepted(Final(before), e.req) then multiset{(WakeTick(Final(before), e.req), e.tid)} else multiset{}
  }

  /** All wake-ups during a run, as (tick of the notify step that answered, tid). */
  ghost function WokenIn(s: seq<Event>): multiset<(int, int)> {
    if s == [] then multiset{}
    else
      WokenIn(s[..|s| - 1]) +
      if s[|s| - 1].req.Notify? && s[|s| - 1].out != [] then WakeBag(s[|s| - 1].out[1..]) else multiset{}
  }

  lemma {:induction false} WakeTicks(s: seq<Answer>, tick: int, e: (int, int))
    requires AllAt(s, tick) && e in WakeBag(s)
    ensures e.0 == tick
  {
    if s != [] && e in WakeBag(s[..|s| - 1]) {
      WakeTicks(s[..|s| - 1], tick, e);
    }
  }

  /** One step moves delays from the accepted to the queued to the woken ones. */
  lemma StepConserves(c: Clock, e: Event, accepted: Sleepers, woken: Sleepers)
    requires Handles(c, e.tid, e.req, e.after, e.out) && accepted == c.queue + woken
    ensures accepted + (if Accepted(c, e.req) then multiset{(WakeTick(c, e.req), e.tid)} else multiset{}) ==
            e.after.queue + (woken + if e.req.Notify? && e.out != [] then WakeBag(e.out[1..]) else multiset{})
  {
    if Accepted(c, e.req) {
      AddOne(accepted, c.queue, woken, (WakeTick(c, e.req), e.tid));
    } else if e.req.Notify? {
      MoveSome(accepted, c.queue, woken, WakeBag(e.out[1..]), e.after.queue);
    }
  }

  /** No queued task is ever lost, and nobody is overdue between requests. */
  lemma {:induction false} RunConserves(s: seq<Event>)
    requires Run(s)
    ensures Inv(Final(s)) && AcceptedIn(s) == Final(s).queue + WokenIn(s)
  {
    if s != [] {
      var before, e := s[..|s| - 1], s[|s| - 1];
      RunConserves(before);
      HandlesKeeps(Final(before), e.tid, e.req, e.after, e.out);
      StepConserves(Final(before), e, AcceptedIn(before), WokenIn(before));
    }
  }

  /** No wake-up carries a tick that is still to come. */
  lemma {:induction false} NoneEarly(s: seq<Event>)
    requires Run(s)
    ensures forall e :: e in WokenIn(s) ==> e.0 <= Final(s).tick
  {
    if s != [] {
      var before, e := s[..|s| - 1], s[|s| - 1];
      NoneEarly(before);
      if e.req.Notify? {
        forall w | w in WakeBag(e.out[1..]) ensures w.0 <= e.after.tick {
          WakeTicks(e.out[1..], e.after.tick, w);
        }
      }
    }
  }

  /** Each accepted delay is answered exactly once, and that in the very notify step whose tick is its
      wake tick: by then as often as it was accepted, before not at all. */
  lemma WokenExactly(s: seq<Event>, wake: int, tid: int)
    requires Run(s)
    ensures WokenIn(s)[(wake, tid)] == if wake <= Final(s).tick then AcceptedIn(s)[(wake, tid)] else 0
  {
    RunConserves(s);
    NoneEarly(s);
    var e := (wake, tid);
    assert wake <= Final(s).tick ==> e !in Final(s).queue;
    assert wake > Final(s).tick ==> e !in WokenIn(s);
  }

  // ---------- what a caller sees ----------

  /** The ticks that task `tid` is answered with. */
  function AnswersFor(s: seq<Answer>, tid: int): seq<int> {
    if s == [] then []
    else AnswersFor(s[..|s| - 1], tid) + if s[|s| - 1].tid == tid then [s[|s| - 1].ticks] else []
  }

  lemma {:induction false} AnswersFirst(a: Answer, s: seq<Answer>, tid: int)
    ensures AnswersFor([a] + s, tid) == (if a.tid == tid then [a.ticks] else []) + AnswersFor(s, tid)
  {
    if s == [] {
      assert ([a] + s)[..0] == [];
    } else {
      AnswersFirst(a, s[..|s| - 1], tid);
      assert ([a] + s)[..|s|] == [a] + s[..|s| - 1];
    }
  }

  lemma {:induction false} AnswersCount(s: seq<Answer>, tick: int, tid: int)
    requires AllAt(s, tick)
    ensures |AnswersFor(s, tid)| == WakeBag(s)[(tick, tid)]
    ensures forall i :: 0 <= i < |AnswersFor(s, tid)| ==> AnswersFor(s, tid)[i] == tick
  {
    if s != [] {
      AnswersCount(s[..|s| - 1], tick, tid);
    }
  }

  /** The queue holds one delay of task `tid`, up to tick `wake`. */
  ghost predicate Sleeps(q: Sleepers, wake: int, tid: int) {
    q[(wake, tid)] == 1 && forall e :: e in q && e.1 == tid ==> e == (wake, tid)
  }

  /** A step by another task that does not reach the tick `wake` leaves the sleeper alone. */
  lemma SleepsOn(c: Clock, e: Event, wake: int, tid: int)
    requires Handles(c, e.tid, e.req, e.after, e.out) && e.tid != tid && Sleeps(c.queue, wake, tid) &&
             e.after.tick < wake
    ensures Sleeps(e.after.queue, wake, tid) && AnswersFor(e.out, tid) == []
  {
    if e.req.Notify? {
      WokenAt(c, e, wake, tid);
      assert c.queue[(wake, tid)] == e.after.queue[(wake, tid)] + WakeBag(e.out[1..])[(wake, tid)];
      assert (wake, tid) !in WakeBag(e.out[1..]);
    } else if e.out != [] {
      AnswersFirst(e.out[0], [], tid);
    }
  }

  /** What a notify step answers to a sleeper. */
  lemma WokenAt(c: Clock, e: Event, wake: int, tid: int)
    requires Handles(c, e.tid, e.req, e.after, e.out) && e.req.Notify? && e.tid != tid && Sleeps(c.queue, wake, tid)
    ensures AnswersFor(e.out, tid) == if (e.after.tick, tid) in WakeBag(e.out[1..]) then [e.after.tick] else []
    ensures (wake, tid) in WakeBag(e.out[1..]) ==> e.after.tick == wake
    ensures (e.after.tick, tid) in WakeBag(e.out[1..]) ==> e.after.tick == wake
  {
    var woken := e.out[1..];
    assert e.out == [e.out[0]] + woken;
    AnswersFirst(e.out[0], woken, tid);
    AnswersCount(woken, e.after.tick, tid);
    assert forall x :: c.queue[x] == e.after.queue[x] + WakeBag(woken)[x];
    if (wake, tid) in WakeBag(woken) {
      WakeTicks(woken, e.after.tick, (wake, tid));
    }
    if (e.after.tick, tid) in WakeBag(woken) {
      assert (e.after.tick, tid) in c.queue;
    }
  }

  /** The step that reaches the tick answers the sleeper. */
  lemma WakesUp(c: Clock, e: Event, wake: int, tid: int)
    requires Handles(c, e.tid, e.req, e.after, e.out) && e.tid != tid && Sleeps(c.queue, wake, tid)
    requires c.tick < wake <= e.after.tick
    ensures e.req.Notify? && e.after.tick == wake && AnswersFor(e.out, tid) == [wake]
  {
    WokenAt(c, e, wake, tid);
    assert c.queue[(wake, tid)] == e.after.queue[(wake, tid)] + WakeBag(e.out[1..])[(wake, tid)];
    assert (wake, tid) !in e.after.queue;
  }

  lemma {:induction false} StepOf(s: seq<Event>, i: nat)
    requires Run(s) && i < |s|
    ensures Run(s[..i]) && Handles(Final(s[..i]), s[i].tid, s[i].req, s[i].after, s[i].out)
    decreases |s|
  {
    if i < |s| - 1 {
      StepOf(s[..|s| - 1], i);
      assert s[..|s| - 1][..i] == s[..i];
    }
  }

  /** From step `i` on, up to step `j`, task `tid` sleeps until tick `wake` and asks for nothing else. */
  ghost predicate Sleeping(s: seq<Event>, i: nat, j: nat, wake: int, tid: int) {
    Run(s) && i < j < |s| && Sleeps(s[i].after.queue, wake, tid) && forall h :: i < h <= j ==> s[h].tid != tid
  }

  lemma NextSleeps(s: seq<Event>, h: nat, wake: int, tid: int)
    requires Run(s) && 0 < h < |s| && s[h].tid != tid && Sleeps(s[h - 1].after.queue, wake, tid) &&
             s[h].after.tick < wake
    ensures Sleeps(s[h].after.queue, wake, tid) && AnswersFor(s[h].out, tid) == []
  {
    StepOf(s, h);
    SleepsOn(s[h - 1].after, s[h], wake, tid);
  }

  lemma TickGrows(s: seq<Event>, h: nat)
    requires Run(s) && 0 < h < |s|
    ensures s[h - 1].after.tick <= s[h].after.tick
  {
    StepOf(s, h);
  }

  lemma {:induction false} StillSleeps(s: seq<Event>, i: nat, j: nat, wake: int, tid: int)
    requires Sleeping(s, i, j, wake, tid) && s[j - 1].after.tick < wake
    ensures Sleeps(s[j - 1].after.queue, wake, tid)
    ensures forall h :: i < h < j ==> AnswersFor(s[h].out, tid) == []
    decreases j
  {
    if i < j - 1 {
      TickGrows(s, j - 1);
      StillSleeps(s, i, j - 1, wake, tid);
      NextSleeps(s, j - 1, wake, tid);
    }
  }

  /** Task `tid` is not answered after step `i` before step `j`; nor by step `j` if that leaves the tick below `wake`;
      otherwise step `j` brings the tick `wake`, and answers it with that. */
  ghost predicate WakesAt(s: seq<Event>, i: nat, j: nat, wake: int, tid: int)
    requires j < |s|
  {
    (forall h :: i < h < j ==> AnswersFor(s[h].out, tid) == []) &&
    if s[j].after.tick < wake then AnswersFor(s[j].out, tid) == []
    else s[j].req.Notify? && s[j].after.tick == wake && AnswersFor(s[j].out, tid) == [wake]
  }

  lemma SleptUntil(s: seq<Event>, i: nat, j: nat, wake: int, tid: int)
    requires Sleeping(s, i, j, wake, tid) && s[j - 1].after.tick < wake
    ensures WakesAt(s, i, j, wake, tid)
  {
    StillSleeps(s, i, j, wake, tid);
    if s[j].after.tick < wake {
      NextSleeps(s, j, wake, tid);
    } else {
      StepOf(s, j);
      WakesUp(s[j - 1].after, s[j], wake, tid);
    }
  }

  /** The caller of step `i` has nothing queued before it and asks for nothing else up to step `j`, as a task that is
      blocked until the answer. */
  ghost predicate Blocks(s: seq<Event>, i: nat, j: nat) {
    Run(s) && i < j < |s| && (forall e :: e in Final(s[..i]).queue ==> e.1 != s[i].tid) &&
    forall h :: i < h <= j ==> s[h].tid != s[i].tid
  }

  /** A delay that is queued. */
  lemma FallsAsleep(c: Clock, e: Event, wake: int)
    requires Handles(c, e.tid, e.req, e.after, e.out) && |c.queue| < 64 && wake > c.tick
    requires e.req == Delay(wake - c.tick) || e.req == DelayUntil(wake)
    requires forall x :: x in c.queue ==> x.1 != e.tid
    ensures e.out == [] && Sleeps(e.after.queue, wake, e.tid)
  {
    assert (wake, e.tid) !in c.queue;
  }

  /** Delay(t) at tick k, with room in the queue: no answer while the tick is below k + t, and the answer k + t in the
      step that brings this tick. */
  lemma DelayIsExact(s: seq<Event>, i: nat, j: nat, k: int, t: int)
    requires Blocks(s, i, j) && s[i].req == Delay(t) && t > 0
    requires k == Final(s[..i]).tick && |Final(s[..i]).queue| < 64 && s[j - 1].after.tick < k + t
    ensures s[i].out == [] && WakesAt(s, i, j, k + t, s[i].tid)
  {
    StepOf(s, i);
    FallsAsleep(Final(s[..i]), s[i], k + t);
    SleptUntil(s, i, j, k + t, s[i].tid);
  }

  /** The same for DelayUntil(t), whose tick is t. */
  lemma DelayUntilIsExact(s: seq<Event>, i: nat, j: nat, k: int, t: int)
    requires Blocks(s, i, j) && s[i].req == DelayUntil(t) && t > k
    requires k == Final(s[..i]).tick && |Final(s[..i]).queue| < 64 && s[j - 1].after.tick < t
    ensures s[i].out == [] && WakesAt(s, i, j, t, s[i].tid)
  {
    StepOf(s, i);
    FallsAsleep(Final(s[..i]), s[i], t);
    SleptUntil(s, i, j, t, s[i].tid);
  }

  /** What is answered at once, at tick k: a delay that is over already, one that finds 64 tasks queued, and all other
      requests; a notification makes the tick k + 1 and is answered with it. */
  lemma AnsweredAtOnce(s: seq<Event>, i: nat, k: int)
    requires Run(s) && i < |s| && k == Final(s[..i]).tick
    ensures var e, c := s[i], Final(s[..i]);
            match e.req
            case Notify => e.after.tick == k + 1 && e.out != [] && e.out[0] == Answer(e.tid, k + 1)
            case Time => e.after == c && e.out == [Answer(e.tid, k)]
            case Delay(t) =>
              e.after.tick == k && (t <= 0 ==> e.after == c && e.out == [Answer(e.tid, k)]) &&
              (t > 0 && |c.queue| >= 64 ==> e.after == c && e.out == [Answer(e.tid, -1)])
            case DelayUntil(t) =>
              e.after.tick == k && (t <= k ==> e.after == c && e.out == [Answer(e.tid, k)]) &&
              (t > k && |c.queue| >= 64 ==> e.after == c && e.out == [Answer(e.tid, -1)])
            case Other => e.after == c && e.out == [Answer(e.tid, -1)]
  {
    StepOf(s, i);
  }
}
