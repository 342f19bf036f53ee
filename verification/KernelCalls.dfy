/** Every system call as a table: which task records change and how, who joins the ready lists and in which order, and
    who runs next. The entries are written out, independently of the functions that define the steps. */
module KernelCalls {
  import opened KernelModel
  import opened KernelSteps
  import opened KernelRuns

  // ---------- dispatches ----------

  /** Those of `joins` that have priority `p`, in order. */
  function OfPriority(ts: seq<Task>, joins: seq<nat>, p: nat): seq<nat> {
    if joins == [] then []
    else
      var x := joins[|joins| - 1];
      OfPriority(ts, joins[..|joins| - 1], p) + if x < |ts| && ts[x].priority == p then [x] else []
  }

  /** Ready list `p` once the tasks `joins` have joined their lists at the end, one after the other. */
  function Lined(k: Kernel, ts: seq<Task>, joins: seq<nat>, p: nat): seq<nat> {
    Chain(k, ReadyQ(p)) + OfPriority(ts, joins, p)
  }

  /** The contents of queue `q` if those of `qs` have changed. */
  function Now(k: Kernel, qs: map<QId, seq<nat>>, q: QId): seq<nat> {
    if q in qs then qs[q] else Chain(k, q)
  }

  /** The queues other than the ready lists: those of `qs` have the contents it says, the others are as before. */
  ghost predicate QueuesAre(k: Kernel, b: Kernel, qs: map<QId, seq<nat>>) {
    forall q: QId :: !q.ReadyQ? && !q.Nowhere? ==> Chain(b, q) == Now(k, qs, q)
  }

  /** The state before scheduling: the records are `ts`, `joins` have joined the ready lists, and the other queues are
      those of `qs`. */
  ghost predicate Settles(k: Kernel, b: Kernel, ts: seq<Task>, joins: seq<nat>, qs: map<QId, seq<nat>>) {
    b.tasks == ts && QueuesAre(k, b, qs) && forall p :: Chain(b, ReadyQ(p)) == Lined(k, ts, joins, p)
  }

  /** A dispatch from `k` to `m`: the records become `ts`, `joins` join the ready lists, and the other queues become
      those of `qs`; then the first task of the most urgent ready list, number `p`, leaves it and runs. */
  ghost predicate Picks(k: Kernel, m: Kernel, ts: seq<Task>, joins: seq<nat>, qs: map<QId, seq<nat>>, p: nat) {
    p < 32 && Lined(k, ts, joins, p) != [] && (forall q :: 0 <= q < p ==> Lined(k, ts, joins, q) == []) &&
    m.current == Lined(k, ts, joins, p)[0] < |ts| && ts[m.current].state == Ready &&
    m.tasks == ts[m.current := ts[m.current].(state := Running)] && QueuesAre(k, m, qs) &&
    forall q :: Chain(m, ReadyQ(q)) == if q == p then Lined(k, ts, joins, q)[1..] else Lined(k, ts, joins, q)
  }

  /** What a dispatch leads to before scheduling: the records, the event counters, who joins the ready lists, and the
      other queues that change. */
  datatype Outcome = Outcome(ts: seq<Task>, ev: Events, joins: seq<nat>, qs: map<QId, seq<nat>>)

  ghost predicate Dispatches(k: Kernel, m: Kernel, o: Outcome) {
    m.ev == o.ev && exists p :: Picks(k, m, o.ts, o.joins, o.qs, p)
  }

  lemma {:induction false} SamePriorities(ts: seq<Task>, us: seq<Task>, joins: seq<nat>, p: nat)
    requires |ts| == |us| && forall x :: 0 <= x < |ts| && x in joins ==> ts[x].priority == us[x].priority
    ensures OfPriority(ts, joins, p) == OfPriority(us, joins, p)
  {
    if joins != [] {
      SamePriorities(ts, us, joins[..|joins| - 1], p);
    }
  }

  lemma JoinsOne(ts: seq<Task>, joins: seq<nat>, x: nat, p: nat)
    ensures OfPriority(ts, joins + [x], p) ==
              OfPriority(ts, joins, p) + if x < |ts| && ts[x].priority == p then [x] else []
  {
    assert (joins + [x])[..|joins|] == joins;
  }

  lemma NothingYet(k: Kernel)
    ensures Settles(k, k, k.tasks, [], map[])
  {
  }

  lemma Appends(b: Kernel, x: nat, t: Task, p: nat)
    requires Movable(b, x) && t.state == Ready && b.tasks[x].state != Ready
    ensures Chain(Move(b, x, t), ReadyQ(p)) == Chain(b, ReadyQ(p)) + if t.priority == p then [x] else []
  {
    MovedChain(b, x, t, ReadyQ(p));
  }

  lemma RisesIn(k: Kernel, b: Kernel, ts: seq<Task>, joins: seq<nat>, x: nat, t: Task, p: nat)
    requires b.tasks == ts && Movable(b, x) && t.state == Ready && ts[x].state != Ready && x !in joins
    requires Chain(b, ReadyQ(p)) == Lined(k, ts, joins, p)
    ensures Chain(Move(b, x, t), ReadyQ(p)) == Lined(k, ts[x := t], joins + [x], p)
  {
    var own := if t.priority == p then [x] else [];
    Appends(b, x, t, p);
    SamePriorities(ts, ts[x := t], joins, p);
    JoinsOne(ts[x := t], joins, x, p);
    assert Lined(k, ts[x := t], joins + [x], p) == Chain(k, ReadyQ(p)) + (OfPriority(ts, joins, p) + own);
  }

  lemma BlocksIn(k: Kernel, b: Kernel, ts: seq<Task>, joins: seq<nat>, x: nat, t: Task, p: nat)
    requires b.tasks == ts && Movable(b, x) && t.state != Ready && ts[x].state != Ready && x !in joins
    requires Chain(b, ReadyQ(p)) == Lined(k, ts, joins, p)
    ensures Chain(Move(b, x, t), ReadyQ(p)) == Lined(k, ts[x := t], joins, p)
  {
    MovedChain(b, x, t, ReadyQ(p));
    SamePriorities(ts, ts[x := t], joins, p);
  }

  /** The queues after a move from queue `q`, Nowhere if from none. */
  function Left(k: Kernel, qs: map<QId, seq<nat>>, q: QId): map<QId, seq<nat>> {
    if q.Nowhere? || Now(k, qs, q) == [] then qs else qs[q := Now(k, qs, q)[1..]]
  }

  /** And into queue `q`. */
  function Entered(k: Kernel, qs: map<QId, seq<nat>>, q: QId, x: nat): map<QId, seq<nat>> {
    if q.Nowhere? || q.ReadyQ? then qs else qs[q := if q == FreeQ then [x] + Now(k, qs, q) else Now(k, qs, q) + [x]]
  }

  lemma MovesQueues(k: Kernel, b: Kernel, qs: map<QId, seq<nat>>, x: nat, t: Task)
    requires QueuesAre(k, b, qs) && Movable(b, x) && b.tasks[x].state != Ready
    ensures QueuesAre(k, Move(b, x, t), Entered(k, Left(k, qs, Place(b.tasks[x])), Place(t), x))
  {
    var m, rs := Move(b, x, t), Entered(k, Left(k, qs, Place(b.tasks[x])), Place(t), x);
    forall q: QId | !q.ReadyQ? && !q.Nowhere? ensures Chain(m, q) == Now(k, rs, q) {
      MovedChain(b, x, t, q);
    }
  }

  /** A task that gets ready joins the ready list of its priority. */
  lemma Rises(k: Kernel, b: Kernel, ts: seq<Task>, joins: seq<nat>, qs: map<QId, seq<nat>>, x: nat, t: Task)
    requires Settles(k, b, ts, joins, qs) && Movable(b, x) && t.state == Ready && ts[x].state != Ready
    requires x !in joins
    ensures Settles(k, Move(b, x, t), ts[x := t], joins + [x], Left(k, qs, Place(ts[x])))
  {
    MovesQueues(k, b, qs, x, t);
    forall p ensures Chain(Move(b, x, t), ReadyQ(p)) == Lined(k, ts[x := t], joins + [x], p) {
      RisesIn(k, b, ts, joins, x, t, p);
    }
  }

  /** A task that blocks joins none. */
  lemma Blocks(k: Kernel, b: Kernel, ts: seq<Task>, joins: seq<nat>, qs: map<QId, seq<nat>>, x: nat, t: Task)
    requires Settles(k, b, ts, joins, qs) && Movable(b, x) && t.state != Ready && ts[x].state != Ready
    requires x !in joins
    ensures Settles(k, Move(b, x, t), ts[x := t], joins, Entered(k, Left(k, qs, Place(ts[x])), Place(t), x))
  {
    MovesQueues(k, b, qs, x, t);
    forall p ensures Chain(Move(b, x, t), ReadyQ(p)) == Lined(k, ts[x := t], joins, p) {
      BlocksIn(k, b, ts, joins, x, t, p);
    }
  }

  /** A task whose record changes where it is. */
  lemma Stays(k: Kernel, b: Kernel, ts: seq<Task>, joins: seq<nat>, qs: map<QId, seq<nat>>, x: nat, t: Task)
    requires Settles(k, b, ts, joins, qs) && x < |ts| && Place(t) == Place(ts[x]) && t.priority == ts[x].priority
    ensures Settles(k, Touch(b, x, t), ts[x := t], joins, qs)
  {
    forall p ensures Chain(Touch(b, x, t), ReadyQ(p)) == Lined(k, ts[x := t], joins, p) {
      SamePriorities(ts, ts[x := t], joins, p);
    }
  }

  /** A task that was in no queue gets ready. */
  lemma RisesLoose(k: Kernel, b: Kernel, ts: seq<Task>, joins: seq<nat>, qs: map<QId, seq<nat>>, x: nat, t: Task)
    requires Settles(k, b, ts, joins, qs) && x < |ts| && t.state == Ready && Place(ts[x]) == Nowhere && x !in joins
    ensures Settles(k, Move(b, x, t), ts[x := t], joins + [x], qs)
  {
    Rises(k, b, ts, joins, qs, x, t);
  }

  lemma UpdateLast<T>(s: seq<T>, a: T, b: T)
    ensures (s + [a])[|s| := b] == s + [b]
  {
  }

  lemma Scheduled(k: Kernel, b: Kernel, ts: seq<Task>, joins: seq<nat>, qs: map<QId, seq<nat>>, m: Kernel)
    requires Settles(k, b, ts, joins, qs) && Partition(b) && Schedule(b) == Some(m)
    ensures Dispatches(k, m, Outcome(ts, b.ev, joins, qs))
  {
    var p := FirstReady(b, 0);
    HeadOf(b, ReadyQ(p));
    var x := Chain(b, ReadyQ(p))[0];
    var t := b.tasks[x].(state := Running);
    forall q: QId ensures Chain(m, q) == if q == ReadyQ(p) then Chain(b, q)[1..] else Chain(b, q) {
      MovedChain(b, x, t, q);
    }
    assert Picks(k, m, ts, joins, qs, p);
  }

  // ---------- the calls ----------

  /** Ready again, with a return value. */
  function Returning(t: Task, value: int): Task {
    t.(state := Ready, io := t.io.(x0 := value))
  }

  /** The states between two dispatches. */
  ghost function States(): iset<Kernel> {
    iset k: Kernel | Inv(k)
  }

  /** What `b` is, seen from `k`. */
  ghost function Settlements(k: Kernel, b: Kernel): iset<Outcome> {
    iset o: Outcome | b.ev == o.ev && Settles(k, b, o.ts, o.joins, o.qs)
  }

  /** What the handling of `i` leads to before scheduling. */
  ghost function Handled(k: Kernel, i: Input): iset<Outcome> {
    iset o: Outcome | Inv(k) && InputOk(i) && o in Settlements(k, Body(k, i))
  }

  lemma IsSettlement(k: Kernel, b: Kernel, ts: seq<Task>, joins: seq<nat>, qs: map<QId, seq<nat>>, o: Outcome)
    requires Settles(k, b, ts, joins, qs) && o == Outcome(ts, b.ev, joins, qs)
    ensures o in Settlements(k, b)
  {
  }

  lemma ByBody(k: Kernel, i: Input, b: Kernel, o: Outcome)
    requires k in States() && InputOk(i) && Body(k, i) == b && o in Settlements(k, b)
    ensures o in Handled(k, i)
  {
  }

  // What Body is for the calls whose handling is a single step.

  lemma YieldBody(k: Kernel, i: Input, b: Kernel)
    requires k in States() && InputOk(i) && b == Body(k, i)
    ensures i.Syscall? && i.call.DoYield? ==> b == Yielded(k)
  {
    match i
    case Interrupt(s) =>
    case Syscall(call) =>
      match call
      case DoYield => assert b == Yielded(k);
      case _ =>
  }

  lemma ExitBody(k: Kernel, i: Input, b: Kernel)
    requires k in States() && InputOk(i) && b == Body(k, i)
    ensures i.Syscall? && i.call.DoExit? ==> b == Exit(k)
  {
    match i
    case Interrupt(s) =>
    case Syscall(call) =>
      match call
      case DoExit => assert b == Exit(k);
      case _ =>
  }

  lemma ReceiveBody(k: Kernel, i: Input, b: Kernel)
    requires k in States() && InputOk(i) && b == Body(k, i)
    ensures i.Syscall? && i.call.DoReceive? ==> b == Receive(k, i.call.cap)
  {
    match i
    case Interrupt(s) =>
    case Syscall(call) =>
      match call
      case DoReceive(cap) => assert b == Receive(k, cap);
      case _ =>
  }

  lemma AwaitBody(k: Kernel, i: Input, b: Kernel)
    requires k in States() && InputOk(i) && b == Body(k, i)
    ensures i.Syscall? && i.call.DoAwait? ==> b == Await(k, i.call.event)
  {
    match i
    case Interrupt(s) =>
    case Syscall(call) =>
      match call
      case DoAwait(event) => assert b == Await(k, event);
      case _ =>
  }

  lemma Concludes(k: Kernel, i: Input, m: Kernel, o: Outcome)
    requires Leads(k, i, m) && o in Handled(k, i)
    ensures Dispatches(k, m, o)
  {
    BodyKeeps(k, i);
    Scheduled(k, Body(k, i), o.ts, o.joins, o.qs, m);
  }

  /** The caller returns, after the records have become `ts` and `joins` have joined. */
  lemma Returns(k: Kernel, b: Kernel, ts: seq<Task>, joins: seq<nat>, qs: map<QId, seq<nat>>, value: int)
    requires OneRuns(b) && Settles(k, b, ts, joins, qs) && b.current !in joins
    ensures Settles(k, Back(b, value), ts[b.current := Returning(ts[b.current], value)], joins + [b.current], qs)
  {
    RisesLoose(k, b, ts, joins, qs, b.current, Returning(ts[b.current], value));
  }

  lemma BackSettles(k: Kernel, value: int)
    requires OneRuns(k)
    ensures Outcome(k.tasks[k.current := Returning(Me(k), value)], k.ev, [k.current], map[]) in
              Settlements(k, Back(k, value))
  {
    NothingYet(k);
    Returns(k, k, k.tasks, [], map[], value);
    assert [] + [k.current] == [k.current];
  }

  /** The caller joins the ready list of its priority with the value in its first register; nothing else changes. */
  ghost predicate OnlyReturns(k: Kernel, m: Kernel, value: int) {
    0 <= k.current < |k.tasks| &&
    Dispatches(k, m, Outcome(k.tasks[k.current := Returning(k.tasks[k.current], value)], k.ev, [k.current], map[]))
  }

  ghost predicate HandledByReturn(k: Kernel, i: Input, value: int) {
    0 <= k.current < |k.tasks| &&
    Outcome(k.tasks[k.current := Returning(k.tasks[k.current], value)], k.ev, [k.current], map[]) in Handled(k, i)
  }

  lemma OnlyBack(k: Kernel, i: Input, value: int)
    requires k in States() && InputOk(i) && Body(k, i) == Back(k, value)
    ensures HandledByReturn(k, i, value)
  {
    BackSettles(k, value);
    ByBody(k, i, Back(k, value), Outcome(k.tasks[k.current := Returning(Me(k), value)], k.ev, [k.current], map[]));
  }

  lemma ReturnsOnly(k: Kernel, i: Input, m: Kernel, value: int)
    requires Leads(k, i, m) && HandledByReturn(k, i, value)
    ensures OnlyReturns(k, m, value)
  {
    Concludes(k, i, m, Outcome(k.tasks[k.current := Returning(k.tasks[k.current], value)], k.ev, [k.current], map[]));
  }

  predicate AllReady(ts: seq<Task>, s: seq<nat>) {
    forall i :: 0 <= i < |s| ==> s[i] < |ts| && ts[s[i]].state == Ready
  }

  /** The caller is still the running task when another one is ready. */
  lemma StillRuns(b: Kernel, x: nat, t: Task)
    requires Movable(b, x) && OneRuns(b) && x != b.current && t.state == Ready
    ensures OneRuns(Move(b, x, t)) && Move(b, x, t).current == b.current && Move(b, x, t).ev == b.ev
  {
  }

  /** Task `x` gets ready, and then the caller. */
  lemma TwoReady(k: Kernel, x: nat, t: Task, value: int)
    requires OneRuns(k) && Movable(k, x) && x != k.current && t.state == Ready && k.tasks[x].state != Ready
    ensures OneRuns(Move(k, x, t)) && Move(k, x, t).current == k.current && Move(k, x, t).ev == k.ev
    ensures Settles(k, Back(Move(k, x, t), value), k.tasks[x := t][k.current := Returning(Me(k), value)],
                    [x, k.current], Left(k, map[], Place(k.tasks[x])))
  {
    var b, qs := Move(k, x, t), Left(k, map[], Place(k.tasks[x]));
    StillRuns(k, x, t);
    NothingYet(k);
    Rises(k, k, k.tasks, [], map[], x, t);
    assert [] + [x] == [x];
    Returns(k, b, k.tasks[x := t], [x], qs, value);
    assert [x] + [k.current] == [x, k.current];
  }

  // ---------- MyTid, MyParentTid, Yield ----------

  lemma MyTidHandled(k: Kernel)
    requires k in States()
    ensures HandledByReturn(k, Syscall(DoMyTid), k.current)
  {
    OnlyBack(k, Syscall(DoMyTid), k.current);
  }

  lemma MyTidCall(k: Kernel, m: Kernel)
    requires Inv(k) && Leads(k, Syscall(DoMyTid), m)
    ensures OnlyReturns(k, m, k.current)
  {
    MyTidHandled(k);
    ReturnsOnly(k, Syscall(DoMyTid), m, k.current);
  }

  lemma UnknownHandled(k: Kernel)
    requires k in States()
    ensures HandledByReturn(k, Syscall(Unknown), -1)
  {
    OnlyBack(k, Syscall(Unknown), -1);
  }

  lemma UnknownCall(k: Kernel, m: Kernel)
    requires Inv(k) && Leads(k, Syscall(Unknown), m)
    ensures OnlyReturns(k, m, -1)
  {
    UnknownHandled(k);
    ReturnsOnly(k, Syscall(Unknown), m, -1);
  }

  /** What MyParentTid returns: -2 once the parent's slot is not in use. */
  function ParentAnswer(k: Kernel): int
    requires 0 <= k.current < |k.tasks|
  {
    var p := k.tasks[k.current].parent;
    if p < 0 then p else if p < |k.tasks| && k.tasks[p].state in {Free, Exited} then -2 else p
  }

  lemma ParentIs(k: Kernel)
    requires OneRuns(k)
    ensures ParentOf(k) == ParentAnswer(k)
  {
  }

  lemma MyParentTidHandled(k: Kernel)
    requires k in States()
    ensures HandledByReturn(k, Syscall(DoMyParentTid), ParentAnswer(k))
  {
    ParentIs(k);
    OnlyBack(k, Syscall(DoMyParentTid), ParentAnswer(k));
  }

  lemma MyParentTidCall(k: Kernel, m: Kernel)
    requires Inv(k) && Leads(k, Syscall(DoMyParentTid), m)
    ensures 0 <= k.current < |k.tasks| && OnlyReturns(k, m, ParentAnswer(k))
  {
    MyParentTidHandled(k);
    ReturnsOnly(k, Syscall(DoMyParentTid), m, ParentAnswer(k));
  }

  /** The caller is ready again. */
  function Yielding(k: Kernel): seq<Task>
    requires 0 <= k.current < |k.tasks|
  {
    k.tasks[k.current := k.tasks[k.current].(state := Ready)]
  }

  lemma YieldSettles(k: Kernel)
    requires OneRuns(k)
    ensures Outcome(Yielding(k), k.ev, [k.current], map[]) in Settlements(k, Yielded(k))
  {
    NothingYet(k);
    RisesLoose(k, k, k.tasks, [], map[], k.current, Me(k).(state := Ready));
    assert [] + [k.current] == [k.current];
  }

  lemma YieldHandles(k: Kernel)
    requires k in States()
    ensures Outcome(Yielding(k), k.ev, [k.current], map[]) in Handled(k, Syscall(DoYield))
  {
    YieldSettles(k);
    YieldBody(k, Syscall(DoYield), Body(k, Syscall(DoYield)));
    ByBody(k, Syscall(DoYield), Yielded(k), Outcome(Yielding(k), k.ev, [k.current], map[]));
  }

  /** Yield: the caller joins the end of its ready list. */
  lemma YieldCall(k: Kernel, m: Kernel)
    requires Inv(k) && Leads(k, Syscall(DoYield), m)
    ensures 0 <= k.current < |k.tasks| && Dispatches(k, m, Outcome(Yielding(k), k.ev, [k.current], map[]))
  {
    YieldHandles(k);
    Concludes(k, Syscall(DoYield), m, Outcome(Yielding(k), k.ev, [k.current], map[]));
  }

  // ---------- Create ----------

  /** A task that has just been created, by `parent`, in a slot with the history `was`. */
  function Fresh(was: Log, parent: int, priority: nat): Task {
    Task(Ready, priority, parent, -1, 0, Io(0, [], 0, 0, [], -1, []),
         Log(was.life + 1, was.asked, was.answered, [], []))
  }

  /** The records once task `x` has been created and the caller told so. */
  function WithChild(k: Kernel, ts: seq<Task>, x: nat, t: Task): seq<Task>
    requires 0 <= k.current < |ts| && x < |ts|
  {
    ts[x := t][k.current := Returning(ts[k.current], x)]
  }

  lemma GrownSettled(k: Kernel)
    ensures Settles(k, Grown(k), k.tasks + [Unused()], [], map[])
  {
  }

  /** A slot that was never used is appended to the table. */
  lemma GrownSettles(k: Kernel, t: Task)
    requires t.state == Ready
    ensures Movable(Grown(k), |k.tasks|) && Settles(k, Move(Grown(k), |k.tasks|, t), k.tasks + [t], [|k.tasks|], map[])
  {
    GrownSettled(k);
    RisesLoose(k, Grown(k), k.tasks + [Unused()], [], map[], |k.tasks|, t);
    UpdateLast(k.tasks, Unused(), t);
    assert [] + [|k.tasks|] == [|k.tasks|];
  }

  lemma CreateInUnused(k: Kernel, t: Task)
    requires OneRuns(k) && t.state == Ready
    ensures Movable(Grown(k), |k.tasks|) && OneRuns(Move(Grown(k), |k.tasks|, t))
    ensures Settles(k, Back(Move(Grown(k), |k.tasks|, t), |k.tasks|), WithChild(k, k.tasks + [t], |k.tasks|, t),
                    [|k.tasks|, k.current], map[])
  {
    var n := |k.tasks|;
    GrownSettles(k, t);
    StillRuns(Grown(k), n, t);
    Returns(k, Move(Grown(k), n, t), k.tasks + [t], [n], map[], n);
    assert (k.tasks + [t])[n := t] == k.tasks + [t] && [n] + [k.current] == [n, k.current];
  }

  /** The free list without its first slot. */
  function LessFree(k: Kernel): map<QId, seq<nat>>
    requires Chain(k, FreeQ) != []
  {
    map[FreeQ := Chain(k, FreeQ)[1..]]
  }

  lemma CreateInFreed(k: Kernel, x: nat, t: Task)
    requires OneRuns(k) && t.state == Ready && Movable(k, x) && Place(k.tasks[x]) == FreeQ
    ensures OneRuns(Move(k, x, t))
    ensures Outcome(WithChild(k, k.tasks, x, t), k.ev, [x, k.current], LessFree(k)) in
              Settlements(k, Back(Move(k, x, t), x))
  {
    TwoReady(k, x, t, x);
    IsSettlement(k, Back(Move(k, x, t), x), WithChild(k, k.tasks, x, t), [x, k.current], LessFree(k),
                 Outcome(WithChild(k, k.tasks, x, t), k.ev, [x, k.current], LessFree(k)));
  }

  lemma CreateRefused(k: Kernel, priority: int)
    requires k in States() && !(0 <= priority < 32)
    ensures HandledByReturn(k, Syscall(DoCreate(priority)), -1)
  {
    OnlyBack(k, Syscall(DoCreate(priority)), -1);
  }

  lemma CreateFull(k: Kernel, priority: int)
    requires k in States() && 0 <= priority < 32 && |k.tasks| >= 4096 && Chain(k, FreeQ) == []
    ensures HandledByReturn(k, Syscall(DoCreate(priority)), -2)
  {
    OnlyBack(k, Syscall(DoCreate(priority)), -2);
  }

  /** The child in a slot that was never used. */
  function FirstChild(k: Kernel, priority: nat): Task {
    Fresh(Log(0, [], [], [], []), k.current, priority)
  }

  /** The table with the child behind all slots used so far. */
  function Longer(k: Kernel, priority: nat): seq<Task>
    requires 0 <= k.current < |k.tasks|
  {
    WithChild(k, k.tasks + [FirstChild(k, priority)], |k.tasks|, FirstChild(k, priority))
  }

  /** The state in which the caller has been told what Create returns. */
  ghost function Created(k: Kernel, priority: int): Kernel
    requires Partition(k) && OneRuns(Create(k, priority).0)
  {
    Back(Create(k, priority).0, Create(k, priority).1)
  }

  lemma UnusedChild(k: Kernel, priority: nat)
    requires OneRuns(k) && Partition(k) && priority < 32 && |k.tasks| < 4096
    ensures Movable(Grown(k), |k.tasks|)
    ensures Create(k, priority) == (Move(Grown(k), |k.tasks|, FirstChild(k, priority)), |k.tasks|)
  {
  }

  lemma CreateGrows(k: Kernel, priority: nat)
    requires OneRuns(k) && Partition(k) && priority < 32 && |k.tasks| < 4096
    ensures OneRuns(Create(k, priority).0)
    ensures Outcome(Longer(k, priority), k.ev, [|k.tasks|, k.current], map[]) in Settlements(k, Created(k, priority))
  {
    UnusedChild(k, priority);
    CreateInUnused(k, FirstChild(k, priority));
  }

  /** The child in a slot that was freed. */
  function NextChild(k: Kernel, x: nat, priority: nat): Task
    requires x < |k.tasks|
  {
    Fresh(k.tasks[x].log, k.current, priority)
  }

  /** The table with the child in the first freed slot. */
  function Refilled(k: Kernel, priority: nat): seq<Task>
    requires 0 <= k.current < |k.tasks| && Chain(k, FreeQ) != [] && Chain(k, FreeQ)[0] < |k.tasks|
  {
    WithChild(k, k.tasks, Chain(k, FreeQ)[0], NextChild(k, Chain(k, FreeQ)[0], priority))
  }

  lemma FreedChild(k: Kernel, x: nat, priority: nat)
    requires OneRuns(k) && Partition(k) && priority < 32 && |k.tasks| >= 4096
    requires Chain(k, FreeQ) != [] && x == Chain(k, FreeQ)[0]
    ensures x < |k.tasks| && Movable(k, x) && Place(k.tasks[x]) == FreeQ
    ensures Create(k, priority) == (Move(k, x, NextChild(k, x, priority)), x)
  {
    HeadOf(k, FreeQ);
  }

  lemma CreateReuses(k: Kernel, priority: nat)
    requires OneRuns(k) && Partition(k) && priority < 32 && |k.tasks| >= 4096 && Chain(k, FreeQ) != []
    ensures Chain(k, FreeQ)[0] < |k.tasks| && OneRuns(Create(k, priority).0)
    ensures Outcome(Refilled(k, priority), k.ev, [Chain(k, FreeQ)[0], k.current], LessFree(k)) in
              Settlements(k, Created(k, priority))
  {
    var x := Chain(k, FreeQ)[0];
    FreedChild(k, x, priority);
    CreateInFreed(k, x, NextChild(k, x, priority));
  }

  lemma CreateConcludes(k: Kernel, priority: int, m: Kernel, o: Outcome)
    requires k in States() && OneRuns(Create(k, priority).0) && o in Settlements(k, Created(k, priority))
    requires Leads(k, Syscall(DoCreate(priority)), m)
    ensures Dispatches(k, m, o)
  {
    ByBody(k, Syscall(DoCreate(priority)), Created(k, priority), o);
    Concludes(k, Syscall(DoCreate(priority)), m, o);
  }

  lemma CreateUnusedCall(k: Kernel, priority: nat, m: Kernel)
    requires Inv(k) && Leads(k, Syscall(DoCreate(priority)), m) && priority < 32 && |k.tasks| < 4096
    ensures 0 <= k.current < |k.tasks|
    ensures Dispatches(k, m, Outcome(Longer(k, priority), k.ev, [|k.tasks|, k.current], map[]))
  {
    CreateGrows(k, priority);
    CreateConcludes(k, priority, m, Outcome(Longer(k, priority), k.ev, [|k.tasks|, k.current], map[]));
  }

  lemma CreateFreedCall(k: Kernel, priority: nat, m: Kernel)
    requires Inv(k) && Leads(k, Syscall(DoCreate(priority)), m) && priority < 32 && |k.tasks| >= 4096
    requires Chain(k, FreeQ) != []
    ensures 0 <= k.current < |k.tasks| && Chain(k, FreeQ)[0] < |k.tasks|
    ensures Dispatches(k, m, Outcome(Refilled(k, priority), k.ev, [Chain(k, FreeQ)[0], k.current], LessFree(k)))
  {
    CreateReuses(k, priority);
    CreateConcludes(k, priority, m, Outcome(Refilled(k, priority), k.ev, [Chain(k, FreeQ)[0], k.current], LessFree(k)));
  }

  lemma CreateRefusedCall(k: Kernel, priority: int, m: Kernel)
    requires Inv(k) && Leads(k, Syscall(DoCreate(priority)), m)
    ensures !(0 <= priority < 32) ==> OnlyReturns(k, m, -1)
    ensures 0 <= priority < 32 && |k.tasks| >= 4096 && Chain(k, FreeQ) == [] ==> OnlyReturns(k, m, -2)
  {
    if !(0 <= priority < 32) {
      CreateRefused(k, priority);
      ReturnsOnly(k, Syscall(DoCreate(priority)), m, -1);
    } else if |k.tasks| >= 4096 && Chain(k, FreeQ) == [] {
      CreateFull(k, priority);
      ReturnsOnly(k, Syscall(DoCreate(priority)), m, -2);
    }
  }

  /** What Create told its caller. */
  function Told(k: Kernel, m: Kernel): int {
    if 0 <= k.current < |m.tasks| then m.tasks[k.current].io.x0 else 0
  }

  /** Task `x` runs, or waits in ready list `p` behind all who were in it before; of them only the first may have
      left. */
  ghost predicate WaitsBehind(k: Kernel, m: Kernel, x: nat, p: nat) {
    x < |m.tasks| && m.tasks[x].priority == p &&
    if m.current == x then m.tasks[x].state == Running
    else
      m.tasks[x].state == Ready &&
      exists j :: 0 <= j < |Chain(m, ReadyQ(p))| && Chain(m, ReadyQ(p))[j] == x &&
                  (Chain(m, ReadyQ(p))[..j] == Chain(k, ReadyQ(p)) ||
                   (Chain(k, ReadyQ(p)) != [] && Chain(m, ReadyQ(p))[..j] == Chain(k, ReadyQ(p))[1..]))
  }

  /** The first to join is the first behind those who were there. */
  lemma FirstJoins(k: Kernel, m: Kernel, ts: seq<Task>, ev: Events, x: nat, y: nat, qs: map<QId, seq<nat>>)
    requires Dispatches(k, m, Outcome(ts, ev, [x, y], qs)) && x < |ts| && ts[x].state == Ready
    ensures WaitsBehind(k, m, x, ts[x].priority)
  {
    var p, q :| Picks(k, m, ts, [x, y], qs, p) && q == ts[x].priority;
    TwoJoin(ts, x, y, q);
    var were, now := Chain(k, ReadyQ(q)), Chain(m, ReadyQ(q));
    var rest := OfPriority(ts, [x, y], q);
    assert Lined(k, ts, [x, y], q) == were + rest && rest[0] == x;
    if m.current != x {
      if p != q {
        assert now[|were|] == x && now[..|were|] == were;
      } else {
        assert were != [];
        assert now[|were| - 1] == x && now[..|were| - 1] == were[1..];
      }
    }
  }

  lemma TwoJoin(ts: seq<Task>, x: nat, y: nat, q: nat)
    requires x < |ts| && ts[x].priority == q
    ensures OfPriority(ts, [x, y], q) != [] && OfPriority(ts, [x, y], q)[0] == x
  {
    assert [x, y][..1] == [x] && [x][..0] == [];
    assert OfPriority(ts, [x], q) == [x];
  }

  /** A task that has just been created: its priority and parent are as asked for; its life is a new one in a slot that
      nobody used; and it waits to run behind whoever was in the ready list of its priority. */
  ghost predicate IsNewTask(k: Kernel, m: Kernel, x: nat, priority: nat) {
    x < |m.tasks| && m.tasks[x].priority == priority && m.tasks[x].parent == k.current &&
    (if x < |k.tasks| then k.tasks[x].state == Free && m.tasks[x].log.life == k.tasks[x].log.life + 1
     else x == |k.tasks| && |m.tasks| == x + 1 && m.tasks[x].log.life == 1) &&
    WaitsBehind(k, m, x, priority)
  }

  lemma NewTask(k: Kernel, m: Kernel, ts: seq<Task>, x: nat, t: Task, qs: map<QId, seq<nat>>)
    requires 0 <= k.current < |ts| && x < |ts| && x != k.current && t.state == Ready && ts[k.current].state == Running
    requires Dispatches(k, m, Outcome(WithChild(k, ts, x, t), k.ev, [x, k.current], qs))
    ensures Told(k, m) == x && |m.tasks| == |ts| && x < |m.tasks| && WaitsBehind(k, m, x, t.priority)
    ensures m.tasks[x].priority == t.priority && m.tasks[x].parent == t.parent && m.tasks[x].log == t.log
  {
    var us := WithChild(k, ts, x, t);
    FirstJoins(k, m, us, k.ev, x, k.current, qs);
    var p :| Picks(k, m, us, [x, k.current], qs, p);
  }

  lemma ToldBack(k: Kernel, m: Kernel, value: int)
    requires OnlyReturns(k, m, value)
    ensures Told(k, m) == value && |m.tasks| == |k.tasks|
  {
    var p :| Picks(k, m, k.tasks[k.current := Returning(k.tasks[k.current], value)], [k.current], map[], p);
  }

  lemma NobodyFree(k: Kernel)
    requires Partition(k)
    ensures Chain(k, FreeQ) == [] <==> forall x :: 0 <= x < |k.tasks| ==> k.tasks[x].state != Free
    ensures Chain(k, FreeQ) != [] ==> Chain(k, FreeQ)[0] < |k.tasks| && k.tasks[Chain(k, FreeQ)[0]].state == Free
  {
    if Chain(k, FreeQ) != [] {
      HeadOf(k, FreeQ);
    }
    forall x | 0 <= x < |k.tasks| && k.tasks[x].state == Free ensures Chain(k, FreeQ) != [] {
      assert Belongs(k, FreeQ, x);
      assert x in Chain(k, FreeQ);
    }
  }

  /** What Create returns and what it makes: -1 exactly for a priority outside 0..31, -2 exactly if all 4096 slots have
      been used and none is free, and otherwise the tid of a new task. */
  ghost predicate CreatesRightly(k: Kernel, m: Kernel, priority: int) {
    var x := Told(k, m);
    if !(0 <= priority < 32) then x == -1 && |m.tasks| == |k.tasks|
    else if |k.tasks| >= 4096 && forall y :: 0 <= y < |k.tasks| ==> k.tasks[y].state != Free then
      x == -2 && |m.tasks| == |k.tasks|
    else x >= 0 && IsNewTask(k, m, x, priority)
  }

  lemma CreateResult(k: Kernel, priority: int, m: Kernel)
    requires Inv(k) && Leads(k, Syscall(DoCreate(priority)), m)
    ensures CreatesRightly(k, m, priority)
  {
    NobodyFree(k);
    CreateRefusedCall(k, priority, m);
    if !(0 <= priority < 32) {
      ToldBack(k, m, -1);
    } else if |k.tasks| < 4096 {
      CreateUnusedCall(k, priority, m);
      var t := FirstChild(k, priority);
      NewTask(k, m, k.tasks + [t], |k.tasks|, t, map[]);
    } else if Chain(k, FreeQ) == [] {
      ToldBack(k, m, -2);
    } else {
      CreateFreedCall(k, priority, m);
      var x := Chain(k, FreeQ)[0];
      NewTask(k, m, k.tasks, x, NextChild(k, x, priority), LessFree(k));
    }
  }

  // ---------- boot ----------

  /** After boot one task runs, with the priority that kmain asked for and no parent; nobody waits anywhere and no event
      has happened. */
  lemma BootMeans(priority: nat)
    requires priority < 32
    ensures var k := Boot(priority);
            k.tasks == [Fresh(Log(0, [], [], [], []), -1, priority).(state := Running)] && k.current == 0 &&
            (forall q :: Chain(k, q) == []) &&
            k.ev == Events([0, 0, 0, 0, 0], [0, 0, 0, 0, 0], [0, 0, 0, 0, 0], [0, 0, 0, 0, 0], [0, 0, 0, 0, 0])
  {
  }
}
