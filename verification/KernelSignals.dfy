/** AwaitEvent and interrupts, in the form of KernelCalls. */
module KernelSignals {
  import opened KernelModel
  import opened KernelSteps
  import opened KernelRuns
  import opened KernelCalls

  // ---------- AwaitEvent ----------

  /** One pending event of kind `e` is taken. */
  function Taking(ev: Events, e: nat): Events
    requires e < |ev.pending| && e < |ev.taken| && ev.pending[e] > 0
  {
    ev.(pending := ev.pending[e := ev.pending[e] - 1], taken := ev.taken[e := ev.taken[e] + 1])
  }

  /** The caller returns with `value`. */
  function Answering(k: Kernel, value: int): seq<Task>
    requires 0 <= k.current < |k.tasks|
  {
    k.tasks[k.current := Returning(k.tasks[k.current], value)]
  }

  /** The caller waits for event `e`. */
  function Expecting(k: Kernel, e: nat): seq<Task>
    requires 0 <= k.current < |k.tasks|
  {
    k.tasks[k.current := k.tasks[k.current].(state := EventBlocked, at := e)]
  }

  function OneWaits(k: Kernel, e: nat): map<QId, seq<nat>>
    requires 0 <= k.current
  {
    map[EventQ(e) := [k.current]]
  }

  lemma TakingIs(k: Kernel, e: nat)
    requires OneRuns(k) && EventsOk(k) && e < EVENTS && k.ev.pending[e] > 0 && Chain(k, EventQ(e)) == []
    ensures OneRuns(k.(ev := Taking(k.ev, e))) && Await(k, e) == Back(k.(ev := Taking(k.ev, e)), 0)
  {
  }

  lemma TakingSettles(k: Kernel, e: nat)
    requires OneRuns(k) && EventsOk(k) && e < EVENTS && k.ev.pending[e] > 0 && Chain(k, EventQ(e)) == []
    ensures Outcome(Answering(k, 0), Taking(k.ev, e), [k.current], map[]) in Settlements(k, Await(k, e))
  {
    var b := k.(ev := Taking(k.ev, e));
    TakingIs(k, e);
    Returns(k, b, k.tasks, [], map[], 0);
    assert [] + [k.current] == [k.current];
    IsSettlement(k, Await(k, e), Answering(k, 0), [k.current], map[],
                 Outcome(Answering(k, 0), Taking(k.ev, e), [k.current], map[]));
  }

  lemma ExpectingSettles(k: Kernel, e: nat)
    requires OneRuns(k) && EventsOk(k) && e < EVENTS && k.ev.pending[e] == 0 && Chain(k, EventQ(e)) == []
    ensures Outcome(Expecting(k, e), k.ev, [], OneWaits(k, e)) in Settlements(k, Await(k, e))
  {
    NothingYet(k);
    Blocks(k, k, k.tasks, [], map[], k.current, Me(k).(state := EventBlocked, at := e));
    assert [] + [k.current] == [k.current];
  }

  lemma AwaitRefused(k: Kernel, e: int)
    requires k in States()
    ensures !(0 <= e < 5) ==> HandledByReturn(k, Syscall(DoAwait(e)), -1)
    ensures 0 <= e < 5 && Chain(k, EventQ(e)) != [] ==> HandledByReturn(k, Syscall(DoAwait(e)), -2)
  {
    if !(0 <= e < 5) {
      OnlyBack(k, Syscall(DoAwait(e)), -1);
    } else if Chain(k, EventQ(e)) != [] {
      OnlyBack(k, Syscall(DoAwait(e)), -2);
    }
  }

  lemma AwaitTakes(k: Kernel, e: nat)
    requires k in States() && e < EVENTS && k.ev.pending[e] > 0 && Chain(k, EventQ(e)) == []
    ensures Outcome(Answering(k, 0), Taking(k.ev, e), [k.current], map[]) in Handled(k, Syscall(DoAwait(e)))
  {
    TakingSettles(k, e);
    AwaitBody(k, Syscall(DoAwait(e)), Body(k, Syscall(DoAwait(e))));
    ByBody(k, Syscall(DoAwait(e)), Await(k, e), Outcome(Answering(k, 0), Taking(k.ev, e), [k.current], map[]));
  }

  lemma AwaitWaits(k: Kernel, e: nat)
    requires k in States() && e < EVENTS && k.ev.pending[e] == 0 && Chain(k, EventQ(e)) == []
    ensures Outcome(Expecting(k, e), k.ev, [], OneWaits(k, e)) in Handled(k, Syscall(DoAwait(e)))
  {
    ExpectingSettles(k, e);
    AwaitBody(k, Syscall(DoAwait(e)), Body(k, Syscall(DoAwait(e))));
    ByBody(k, Syscall(DoAwait(e)), Await(k, e), Outcome(Expecting(k, e), k.ev, [], OneWaits(k, e)));
  }

  /** AwaitEvent: -1 for an event that there is not, -2 if somebody waits for it already; a pending one is taken, with
      0; otherwise the caller waits. */
  lemma AwaitCall(k: Kernel, e: int, m: Kernel)
    requires Inv(k) && Leads(k, Syscall(DoAwait(e)), m)
    ensures 0 <= k.current < |k.tasks| && |k.ev.pending| == |k.ev.taken| == 5
    ensures if !(0 <= e < 5) then OnlyReturns(k, m, -1)
            else if Chain(k, EventQ(e)) != [] then OnlyReturns(k, m, -2)
            else if k.ev.pending[e] > 0 then
              Dispatches(k, m, Outcome(Answering(k, 0), Taking(k.ev, e), [k.current], map[]))
            else Dispatches(k, m, Outcome(Expecting(k, e), k.ev, [], OneWaits(k, e)))
  {
    var i := Syscall(DoAwait(e));
    AwaitRefused(k, e);
    if !(0 <= e < 5) {
      ReturnsOnly(k, i, m, -1);
    } else if Chain(k, EventQ(e)) != [] {
      ReturnsOnly(k, i, m, -2);
    } else if k.ev.pending[e] > 0 {
      AwaitTakes(k, e);
      Concludes(k, i, m, Outcome(Answering(k, 0), Taking(k.ev, e), [k.current], map[]));
    } else {
      AwaitWaits(k, e);
      Concludes(k, i, m, Outcome(Expecting(k, e), k.ev, [], OneWaits(k, e)));
    }
  }

  // ---------- interrupts ----------

  predicate FiveOf(ev: Events) {
    |ev.pending| == |ev.fired| == |ev.woken| == |ev.taken| == |ev.lost| == 5
  }

  /** The counters after an event of kind `e` that wakes a task. */
  function Waking(ev: Events, e: nat): Events
    requires FiveOf(ev) && e < 5
  {
    ev.(fired := ev.fired[e := ev.fired[e] + 1], woken := ev.woken[e := ev.woken[e] + 1])
  }

  /** And after one for which nobody waits: pending, unless 2^32 - 1 are already. */
  function Remembering(ev: Events, e: nat): (v: Events)
    requires FiveOf(ev) && e < 5
    ensures FiveOf(v)
  {
    var v := ev.(fired := ev.fired[e := ev.fired[e] + 1]);
    if ev.pending[e] == 4294967295 then v.(lost := ev.lost[e := ev.lost[e] + 1])
    else v.(pending := ev.pending[e := ev.pending[e] + 1])
  }

  /** One event after those that have led to `o`: the task that waits for it gets ready with the event's value. */
  function Signalled(k: Kernel, o: Outcome, e: nat, value: int): Outcome
    requires FiveOf(o.ev) && e < 5
  {
    var w := Now(k, o.qs, EventQ(e));
    if w != [] && w[0] < |o.ts| then
      Outcome(o.ts[w[0] := Returning(o.ts[w[0]], value)], Waking(o.ev, e), o.joins + [w[0]], o.qs[EventQ(e) := w[1..]])
    else o.(ev := Remembering(o.ev, e))
  }

  predicate AllEvents(s: seq<Signal>) {
    forall j :: 0 <= j < |s| ==> s[j].event < 5
  }

  /** What the events `s` lead to, in order. */
  function AllSignalled(k: Kernel, s: seq<Signal>): (o: Outcome)
    requires FiveOf(k.ev) && AllEvents(s)
    ensures FiveOf(o.ev)
  {
    if s == [] then Outcome(k.tasks, k.ev, [], map[])
    else Signalled(k, AllSignalled(k, s[..|s| - 1]), s[|s| - 1].event, s[|s| - 1].value)
  }

  /** States between two events of an interrupt; `o` is what the first ones have led to. */
  ghost function Fired(k: Kernel, o: Outcome): iset<Kernel> {
    iset b: Kernel | b in States() && b.current == k.current && FiveOf(o.ev) && o in Settlements(k, b) &&
      AllReady(b.tasks, o.joins)
  }

  /** The state after one more event. */
  ghost function Next(b: Kernel, e: nat, value: int): Kernel
    requires b in States() && e < EVENTS
  {
    Fire(b, e, value)
  }

  lemma NextKeeps(b: Kernel, e: nat, value: int)
    requires b in States() && e < EVENTS
    ensures Next(b, e, value) in States() && Next(b, e, value).current == b.current
  {
    FireKeeps(b, e, value);
  }

  lemma CountersSettle(k: Kernel, b: Kernel, m: Kernel, o: Outcome)
    requires o in Settlements(k, b) && m == b.(ev := m.ev)
    ensures o.(ev := m.ev) in Settlements(k, m)
  {
  }

  lemma WakeSettles(k: Kernel, b: Kernel, o: Outcome, e: nat, x: nat, value: int)
    requires o in Settlements(k, b) && AllReady(b.tasks, o.joins) && Movable(b, x)
    requires Place(b.tasks[x]) == EventQ(e) && b.tasks[x].state == EventBlocked
    ensures Outcome(o.ts[x := Returning(o.ts[x], value)], o.ev, o.joins + [x], Left(k, o.qs, EventQ(e))) in
              Settlements(k, Move(b, x, Returning(b.tasks[x], value)))
    ensures AllReady(Move(b, x, Returning(b.tasks[x], value)).tasks, o.joins + [x])
  {
    Rises(k, b, o.ts, o.joins, o.qs, x, Returning(b.tasks[x], value));
  }

  lemma Waiter(b: Kernel, e: nat)
    requires b in States() && e < EVENTS && Chain(b, EventQ(e)) != []
    ensures var x := Chain(b, EventQ(e))[0];
            Movable(b, x) && Place(b.tasks[x]) == EventQ(e) && b.tasks[x].state == EventBlocked
  {
    HeadOf(b, EventQ(e));
  }

  lemma NextStays(b: Kernel, e: nat, value: int)
    requires b in States() && e < EVENTS && Chain(b, EventQ(e)) == []
    ensures FiveOf(b.ev) && Next(b, e, value) == b.(ev := Remembering(b.ev, e))
  {
    assert EventOk(b, e);
  }

  lemma NextWakes(b: Kernel, e: nat, x: nat, value: int)
    requires b in States() && e < EVENTS && Chain(b, EventQ(e)) != [] && x == Chain(b, EventQ(e))[0]
    ensures FiveOf(b.ev) && Movable(b.(ev := Waking(b.ev, e)), x)
    ensures Next(b, e, value) == Move(b.(ev := Waking(b.ev, e)), x, Returning(b.tasks[x], value))
  {
    HeadOf(b, EventQ(e));
  }

  lemma NowChain(k: Kernel, b: Kernel, o: Outcome, e: nat)
    requires o in Settlements(k, b)
    ensures Now(k, o.qs, EventQ(e)) == Chain(b, EventQ(e)) && o.ts == b.tasks && o.ev == b.ev
  {
  }

  lemma SignalledIs(k: Kernel, o: Outcome, e: nat, value: int, w: seq<nat>)
    requires FiveOf(o.ev) && e < 5 && w == Now(k, o.qs, EventQ(e))
    ensures w == [] ==> Signalled(k, o, e, value) == o.(ev := Remembering(o.ev, e))
    ensures w != [] && w[0] < |o.ts| ==>
              Signalled(k, o, e, value) ==
              Outcome(o.ts[w[0] := Returning(o.ts[w[0]], value)], Waking(o.ev, e), o.joins + [w[0]],
                      Left(k, o.qs, EventQ(e)))
  {
  }

  lemma NextIdle(k: Kernel, b: Kernel, o: Outcome, e: nat, value: int)
    requires b in States() && o in Settlements(k, b) && FiveOf(o.ev) && e < EVENTS && Chain(b, EventQ(e)) == []
    ensures Signalled(k, o, e, value) in Settlements(k, Next(b, e, value))
    ensures Next(b, e, value).tasks == b.tasks && Signalled(k, o, e, value).joins == o.joins
  {
    NextStays(b, e, value);
    NowChain(k, b, o, e);
    SignalledIs(k, o, e, value, []);
    CountersSettle(k, b, Next(b, e, value), o);
  }

  lemma NextWaker(k: Kernel, b: Kernel, o: Outcome, e: nat, value: int)
    requires b in States() && o in Settlements(k, b) && FiveOf(o.ev) && AllReady(b.tasks, o.joins)
    requires e < EVENTS && Chain(b, EventQ(e)) != []
    ensures Signalled(k, o, e, value) in Settlements(k, Next(b, e, value))
    ensures AllReady(Next(b, e, value).tasks, Signalled(k, o, e, value).joins)
  {
    var x := Chain(b, EventQ(e))[0];
    NextWakes(b, e, x, value);
    NowChain(k, b, o, e);
    SignalledIs(k, o, e, value, Chain(b, EventQ(e)));
    var n := b.(ev := Waking(b.ev, e));
    Waiter(b, e);
    CountersSettle(k, b, n, o);
    WakeSettles(k, n, o.(ev := n.ev), e, x, value);
  }

  lemma IsFired(k: Kernel, b: Kernel, o: Outcome)
    requires b in States() && b.current == k.current && FiveOf(o.ev) && o in Settlements(k, b) &&
             AllReady(b.tasks, o.joins)
    ensures b in Fired(k, o)
  {
  }

  /** One more event. */
  lemma NextSettles(k: Kernel, b: Kernel, o: Outcome, e: nat, value: int)
    requires b in Fired(k, o) && e < EVENTS
    ensures FiveOf(o.ev) && Next(b, e, value) in Fired(k, Signalled(k, o, e, value))
  {
    NextKeeps(b, e, value);
    if Chain(b, EventQ(e)) == [] {
      NextIdle(k, b, o, e, value);
    } else {
      NextWaker(k, b, o, e, value);
    }
    IsFired(k, Next(b, e, value), Signalled(k, o, e, value));
  }

  lemma {:induction false} SignalsSettle(k: Kernel, s: seq<Signal>)
    requires k in States() && AllEvents(s)
    ensures FiveOf(k.ev) && FireAll(k, s) in Fired(k, AllSignalled(k, s))
  {
    if s == [] {
      NothingYet(k);
    } else {
      var r, l := s[..|s| - 1], s[|s| - 1];
      SignalsSettle(k, r);
      NextSettles(k, FireAll(k, r), AllSignalled(k, r), l.event, l.value);
    }
  }

  /** And then the interrupted task gets ready. */
  function Interrupted(k: Kernel, s: seq<Signal>): Outcome
    requires FiveOf(k.ev) && AllEvents(s) && 0 <= k.current < |AllSignalled(k, s).ts|
  {
    var o, c := AllSignalled(k, s), k.current;
    Outcome(o.ts[c := o.ts[c].(state := Ready)], o.ev, o.joins + [c], o.qs)
  }

  lemma NotYetReady(b: Kernel, joins: seq<nat>)
    requires OneRuns(b) && AllReady(b.tasks, joins)
    ensures b.current !in joins
  {
  }

  lemma YieldedSettles(k: Kernel, b: Kernel, o: Outcome, c: nat)
    requires OneRuns(b) && o in Settlements(k, b) && c == b.current && c !in o.joins
    ensures c < |o.ts|
    ensures Outcome(o.ts[c := o.ts[c].(state := Ready)], o.ev, o.joins + [c], o.qs) in Settlements(k, Yielded(b))
  {
    RisesLoose(k, b, o.ts, o.joins, o.qs, c, b.tasks[c].(state := Ready));
    IsSettlement(k, Yielded(b), o.ts[c := o.ts[c].(state := Ready)], o.joins + [c], o.qs,
                 Outcome(o.ts[c := o.ts[c].(state := Ready)], o.ev, o.joins + [c], o.qs));
  }

  lemma YieldsLast(k: Kernel, b: Kernel, o: Outcome)
    requires b in Fired(k, o)
    ensures OneRuns(b) && b.current == k.current && 0 <= k.current < |o.ts|
    ensures Outcome(o.ts[k.current := o.ts[k.current].(state := Ready)], o.ev, o.joins + [k.current], o.qs) in
              Settlements(k, Yielded(b))
  {
    NotYetReady(b, o.joins);
    YieldedSettles(k, b, o, k.current);
  }

  lemma InterruptHandles(k: Kernel, s: seq<Signal>)
    requires k in States() && AllEvents(s)
    ensures FiveOf(k.ev) && 0 <= k.current < |AllSignalled(k, s).ts|
    ensures Interrupted(k, s) in Handled(k, Interrupt(s))
  {
    SignalsSettle(k, s);
    YieldsLast(k, FireAll(k, s), AllSignalled(k, s));
    ByBody(k, Interrupt(s), Yielded(FireAll(k, s)), Interrupted(k, s));
  }

  /** An interrupt: for each of its events in turn the task that waits for it joins its ready list with the event's
      value, or the event stays pending; then the interrupted task joins its own. */
  lemma InterruptCall(k: Kernel, s: seq<Signal>, m: Kernel)
    requires Inv(k) && AllEvents(s) && Leads(k, Interrupt(s), m)
    ensures FiveOf(k.ev) && 0 <= k.current < |AllSignalled(k, s).ts| && Dispatches(k, m, Interrupted(k, s))
  {
    InterruptHandles(k, s);
    Concludes(k, Interrupt(s), m, Interrupted(k, s));
  }
}
