/** Whole runs of the kernel: one dispatch per system call or interrupt, and what holds in every state that
    a run can reach. */
module KernelRuns {
  import opened KernelModel
  import opened KernelSteps

  datatype Call =
    | DoCreate(priority: int)
    | DoMyTid
    | DoMyParentTid
    | DoYield
    | DoExit
    | DoSend(tid: int, msg: Bytes, replyCap: nat)
    | DoReceive(cap: nat)
    | DoReply(tid: int, reply: Bytes)
    | DoAwait(event: int)
    | Unknown

  datatype Signal = Signal(event: nat, value: int)

  /** An interrupt may bring several events, as the console UART's does, or none. */
  datatype Input = Syscall(call: Call) | Interrupt(signals: seq<Signal>)

  predicate InputOk(i: Input) {
    i.Interrupt? ==> forall j :: 0 <= j < |i.signals| ==> i.signals[j].event < EVENTS
  }

  /** kern_MyParentTid: -2 once the parent's slot is free. */
  function ParentOf(k: Kernel): int
    requires OneRuns(k)
  {
    var p := Me(k).parent;
    if p < 0 then p else if p < |k.tasks| && !Alive(k.tasks[p]) then -2 else p
  }

  ghost function FireAll(k: Kernel, s: seq<Signal>): (m: Kernel)
    requires Inv(k) && InputOk(Interrupt(s))
    ensures Inv(m) && m.current == k.current
  {
    if s == [] then k
    else
      var m := FireAll(k, s[..|s| - 1]);
      FireKeeps(m, s[|s| - 1].event, s[|s| - 1].value);
      Fire(m, s[|s| - 1].event, s[|s| - 1].value)
  }

  /** syscall_dispatch and irq_dispatch up to scheduling: the current task is ready again or blocked. */
  ghost function Body(k: Kernel, i: Input): Kernel
    requires Inv(k) && InputOk(i)
  {
    match i
    case Interrupt(s) => Yielded(FireAll(k, s))
    case Syscall(call) =>
      match call
      case DoCreate(p) => CreateKeeps(k, p); Back(Create(k, p).0, Create(k, p).1)
      case DoMyTid => Back(k, k.current)
      case DoMyParentTid => Back(k, ParentOf(k))
      case DoYield => Yielded(k)
      case DoExit => Exit(k)
      case DoSend(tid, msg, cap) => Send(k, tid, msg, cap)
      case DoReceive(cap) => Receive(k, cap)
      case DoReply(tid, reply) => ReplyKeeps(k, tid, reply); Back(Reply(k, tid, reply).0, Reply(k, tid, reply).1)
      case DoAwait(e) => Await(k, e)
      case Unknown => Back(k, -1)
  }

  lemma BodyKeeps(k: Kernel, i: Input)
    requires Inv(k) && InputOk(i)
    ensures Sound(Body(k, i)) && NoneRuns(Body(k, i))
  {
    match i
    case Interrupt(s) => YieldKeeps(FireAll(k, s));
    case Syscall(call) => CallKeeps(k, call);
  }

  lemma CallKeeps(k: Kernel, call: Call)
    requires Inv(k)
    ensures Sound(Body(k, Syscall(call))) && NoneRuns(Body(k, Syscall(call)))
  {
    match call
    case DoCreate(p) => CreateKeeps(k, p); BackKeeps(Create(k, p).0, Create(k, p).1);
    case DoMyTid => BackKeeps(k, k.current);
    case DoMyParentTid => BackKeeps(k, ParentOf(k));
    case DoYield => YieldKeeps(k);
    case DoExit => ExitKeeps(k);
    case DoSend(tid, msg, cap) => SendKeeps(k, tid, msg, cap);
    case DoReceive(cap) => ReceiveKeeps(k, cap);
    case DoReply(tid, reply) => ReplyKeeps(k, tid, reply); BackKeeps(Reply(k, tid, reply).0, Reply(k, tid, reply).1);
    case DoAwait(e) => AwaitKeeps(k, e);
    case Unknown => BackKeeps(k, -1);
  }

  lemma SendKeeps(k: Kernel, tid: int, msg: Bytes, cap: nat)
    requires Inv(k)
    ensures Sound(Send(k, tid, msg, cap)) && NoneRuns(Send(k, tid, msg, cap))
  {
    if !Known(k, tid) {
      BackKeeps(k, -1);
    } else if k.tasks[tid].state == ReceiveBlocked {
      DeliverKeeps(k, tid, msg, cap);
    } else {
      EnqueueKeeps(k, tid, msg, cap);
    }
  }

  /** One dispatch; None if the kernel panics because no task is ready. */
  ghost function Step(k: Kernel, i: Input): Option<Kernel>
    requires Inv(k) && InputOk(i)
  {
    BodyKeeps(k, i);
    Schedule(Body(k, i))
  }

  /** Every system call and every interrupt keeps the partition of the tasks into chains, the protocol
      of every send, the order of every chain and queue, and the event counts; exactly one task runs. */
  lemma StepKeeps(k: Kernel, i: Input)
    requires Inv(k) && InputOk(i) && Step(k, i).Some?
    ensures Inv(Step(k, i).value)
  {
    BodyKeeps(k, i);
    ScheduleKeeps(Body(k, i));
  }

  /** No ready task of `m` is more urgent than the running one. */
  predicate Serves(m: Kernel) {
    OneRuns(m) && forall x :: 0 <= x < |m.tasks| && m.tasks[x].state == Ready ==> Me(m).priority <= m.tasks[x].priority
  }

  lemma ScheduleServes(b: Kernel)
    requires Sound(b) && NoneRuns(b) && Schedule(b).Some?
    ensures Serves(Schedule(b).value)
  {
    ScheduleKeeps(b);
    var m := Schedule(b).value;
    forall x | 0 <= x < |m.tasks| && m.tasks[x].state == Ready ensures Me(m).priority <= m.tasks[x].priority {
      NoneMoreUrgent(b, x);
    }
  }

  /** After every dispatch the running task was the head of the most urgent ready list, and no ready task
      is more urgent. */
  lemma StepSchedules(k: Kernel, i: Input)
    requires Inv(k) && InputOk(i) && Step(k, i).Some?
    ensures MostUrgent(Body(k, i), Step(k, i).value) && Serves(Step(k, i).value)
  {
    BodyKeeps(k, i);
    ScheduleKeeps(Body(k, i));
    ScheduleServes(Body(k, i));
  }

  // ---------- boot and runs ----------

  /** The state that kmain sets up before it creates the first task. */
  function Empty(): Kernel {
    var none := [0, 0, 0, 0, 0];
    Kernel([], Queues(map[], map[], map[]), Events(none, none, none, none, none), -1)
  }

  /** kmain: create the first task and activate it. */
  ghost function Boot(priority: nat): Kernel
    requires priority < PRIORITIES
  {
    BootCreates(priority);
    var k := Create(Empty(), priority).0;
    Move(k, 0, k.tasks[0].(state := Running)).(current := 0)
  }

  lemma EmptySound()
    ensures Sound(Empty())
  {
    assert forall q :: Chain(Empty(), q) == [];
    forall e | 0 <= e < EVENTS ensures EventOk(Empty(), e) {
    }
  }

  lemma BootCreates(priority: nat)
    requires priority < PRIORITIES
    ensures Partition(Empty()) &&
            var k := Create(Empty(), priority).0; Sound(k) && |k.tasks| == 1 && k.tasks[0].state == Ready && Movable(k, 0)
  {
    EmptySound();
    CreateKeeps(Empty(), priority);
    var k := Create(Empty(), priority).0;
    assert |k.tasks| == 1;
    MovedChain(Grown(Empty()), 0, Newborn(Unused(), -1, priority), ReadyQ(priority));
  }

  lemma BootInv(priority: nat)
    requires priority < PRIORITIES
    ensures Inv(Boot(priority))
  {
    BootCreates(priority);
    var k := Create(Empty(), priority).0;
    assert Well(k.tasks, 0) && MailOk(k, 0, k.tasks[0]);
    MoveKeeps(k, 0, k.tasks[0].(state := Running), -1);
    CurrentIsFree(Move(k, 0, k.tasks[0].(state := Running)), 0);
  }

  /** The state after a sequence of inputs; None once the kernel has panicked. */
  ghost function Run(k: Kernel, s: seq<Input>): (r: Option<Kernel>)
    requires Inv(k) && forall j :: 0 <= j < |s| ==> InputOk(s[j])
    ensures r.Some? ==> Inv(r.value)
  {
    if s == [] then Some(k)
    else
      var r := Run(k, s[..|s| - 1]);
      if r.None? then None
      else
        assert s[|s| - 1] == s[|s| - 1];
        var o := Step(r.value, s[|s| - 1]);
        if o.Some? then StepKeeps(r.value, s[|s| - 1]); o else None
  }

  /** One dispatch leads from `k` to `m`. `Step` is defined where the invariant holds; that it does hold in every
      state of a run is not assumed here but proved by StatesKeep. */
  ghost predicate Leads(k: Kernel, i: Input, m: Kernel) {
    InputOk(i) && (Inv(k) ==> Step(k, i) == Some(m))
  }

  /** A run from boot: `ks` are the states before, between and after the dispatches of the inputs `s`. */
  ghost predicate IsRun(priority: nat, s: seq<Input>, ks: seq<Kernel>) {
    priority < PRIORITIES && |ks| == |s| + 1 && ks[0] == Boot(priority) &&
    forall j :: 0 <= j < |s| ==> Dispatched(s, ks, j)
  }

  ghost predicate Dispatched(s: seq<Input>, ks: seq<Kernel>, j: nat) {
    j < |s| && j + 1 < |ks| && Leads(ks[j], s[j], ks[j + 1])
  }

  lemma LeadsKeeps(k: Kernel, i: Input, m: Kernel)
    requires Inv(k) && Leads(k, i, m)
    ensures Inv(m)
  {
    StepKeeps(k, i);
  }

  /** Every state of a run from boot satisfies the invariant. */
  lemma {:induction false} StatesKeep(priority: nat, s: seq<Input>, ks: seq<Kernel>, j: nat)
    requires IsRun(priority, s, ks) && j <= |s|
    ensures Inv(ks[j])
  {
    if j == 0 {
      BootInv(priority);
    } else {
      StatesKeep(priority, s, ks, j - 1);
      assert Dispatched(s, ks, j - 1);
      LeadsKeeps(ks[j - 1], s[j - 1], ks[j]);
    }
  }

  // ---------- what a reader can rely on in every reachable state ----------

  /** Two chains never share a task, no chain has a cycle, and what chain a task is in is its state. */
  lemma ChainsApart(priority: nat, s: seq<Input>, ks: seq<Kernel>, j: nat, q: QId, r: QId, x: nat)
    requires IsRun(priority, s, ks) && j <= |s| && x in Chain(ks[j], q)
    ensures x in Chain(ks[j], r) ==> q == r
    ensures NoDup(Chain(ks[j], q)) && x < |ks[j].tasks| && Place(ks[j].tasks[x]) == q && x != ks[j].current
  {
    var k := ks[j];
    StatesKeep(priority, s, ks, j);
    assert x in Chain(k, q) <==> Belongs(k, q, x);
    assert x in Chain(k, r) <==> Belongs(k, r, x);
  }

  /** reply_wait_tid always names a living task in the life the message was sent to, so a task that gets
      a used tid can never reply in another's name. */
  lemma WaitsForTheLiving(priority: nat, s: seq<Input>, ks: seq<Kernel>, j: nat, x: nat)
    requires IsRun(priority, s, ks) && j <= |s| && x < |ks[j].tasks| && ks[j].tasks[x].state == ReplyBlocked
    ensures var k, t := ks[j], ks[j].tasks[x];
            0 <= t.replyWait < |k.tasks| && Alive(k.tasks[t.replyWait]) && t.log.asked != [] &&
            t.log.asked[|t.log.asked| - 1] == Who(t.replyWait, k.tasks[t.replyWait].log.life)
  {
    StatesKeep(priority, s, ks, j);
    assert Well(ks[j].tasks, x);
  }

  /** Each accepted send is completed at most once, in order, and by the task it was sent to or because that
      task exited; a task that is not blocked on a send has had all its sends completed. */
  lemma SendsComplete(priority: nat, s: seq<Input>, ks: seq<Kernel>, j: nat, x: nat)
    requires IsRun(priority, s, ks) && j <= |s| && x < |ks[j].tasks|
    ensures var t := ks[j].tasks[x];
            |t.log.answered| <= |t.log.asked| <= |t.log.answered| + 1 && (|t.log.asked| == |t.log.answered| + 1 <==> Asking(t)) &&
            forall i :: 0 <= i < |t.log.answered| ==> t.log.answered[i].who == t.log.asked[i]
  {
    StatesKeep(priority, s, ks, j);
    assert Well(ks[j].tasks, x);
  }

  /** A living task has received the messages sent to it in the order of sending, each once; those it has
      not received are those of the tasks in its queue, in queue order. */
  lemma MailInOrder(priority: nat, s: seq<Input>, ks: seq<Kernel>, j: nat, x: nat)
    requires IsRun(priority, s, ks) && j <= |s| && x < |ks[j].tasks| && Alive(ks[j].tasks[x])
    ensures ks[j].tasks[x].log.mail == ks[j].tasks[x].log.read + Letters(ks[j].tasks, Chain(ks[j], SendQ(x)))
    ensures ks[j].tasks[x].state == ReceiveBlocked ==> ks[j].tasks[x].log.mail == ks[j].tasks[x].log.read
  {
    StatesKeep(priority, s, ks, j);
    assert MailOk(ks[j], x, ks[j].tasks[x]);
  }

  /** A task waits for an event only while none is pending, and no interrupt is unaccounted for. */
  lemma EventsConserved(priority: nat, s: seq<Input>, ks: seq<Kernel>, j: nat, e: nat)
    requires IsRun(priority, s, ks) && j <= |s| && e < EVENTS
    ensures EventsOk(ks[j])
    ensures var v := ks[j].ev;
            (Chain(ks[j], EventQ(e)) != [] ==> v.pending[e] == 0) &&
            v.fired[e] == v.woken[e] + v.taken[e] + v.pending[e] + v.lost[e]
  {
    StatesKeep(priority, s, ks, j);
    assert EventOk(ks[j], e);
  }

  /** The states of a run that does not end in a panic. */
  lemma {:induction false} RunStates(priority: nat, s: seq<Input>) returns (ks: seq<Kernel>)
    requires priority < PRIORITIES && Inv(Boot(priority)) && (forall j :: 0 <= j < |s| ==> InputOk(s[j]))
    requires Run(Boot(priority), s).Some?
    ensures IsRun(priority, s, ks) && ks[|s|] == Run(Boot(priority), s).value
  {
    if s == [] {
      ks := [Boot(priority)];
    } else {
      var before := RunStates(priority, s[..|s| - 1]);
      ks := before + [Run(Boot(priority), s).value];
      forall j | 0 <= j < |s| ensures Dispatched(s, ks, j) {
        if j + 1 < |s| {
          assert Dispatched(s[..|s| - 1], before, j);
        }
      }
    }
  }

  lemma RunOneMore(k: Kernel, s: seq<Input>, m: Kernel, n: Kernel)
    requires Inv(k) && s != [] && forall j :: 0 <= j < |s| ==> InputOk(s[j])
    requires Run(k, s[..|s| - 1]) == Some(m) && Leads(m, s[|s| - 1], n)
    ensures Run(k, s) == Some(n)
  {
  }

  lemma InputsOk(priority: nat, s: seq<Input>, ks: seq<Kernel>)
    requires IsRun(priority, s, ks)
    ensures forall j :: 0 <= j < |s| ==> InputOk(s[j])
  {
    forall j | 0 <= j < |s| ensures InputOk(s[j]) {
      assert Dispatched(s, ks, j);
    }
  }

  lemma RunPrefix(priority: nat, s: seq<Input>, ks: seq<Kernel>)
    requires IsRun(priority, s, ks) && s != []
    ensures IsRun(priority, s[..|s| - 1], ks[..|s|])
  {
    var t, ls := s[..|s| - 1], ks[..|s|];
    forall j | 0 <= j < |t| ensures Dispatched(t, ls, j) {
      assert Dispatched(s, ks, j);
    }
  }

  /** A run ends in the state that its inputs lead to. */
  lemma {:induction false} RunReaches(priority: nat, s: seq<Input>, ks: seq<Kernel>)
    requires IsRun(priority, s, ks)
    ensures Inv(Boot(priority)) && (forall j :: 0 <= j < |s| ==> InputOk(s[j])) && Run(Boot(priority), s) == Some(ks[|s|])
  {
    BootInv(priority);
    InputsOk(priority, s, ks);
    if s != [] {
      RunPrefix(priority, s, ks);
      RunReaches(priority, s[..|s| - 1], ks[..|s|]);
      assert Dispatched(s, ks, |s| - 1);
      RunOneMore(Boot(priority), s, ks[|s| - 1], ks[|s|]);
    }
  }

  // ---------- histories only grow ----------

  predicate TaskGrows(t: Task, u: Task) {
    t.log.asked <= u.log.asked && t.log.answered <= u.log.answered && t.log.life <= u.log.life &&
    (t.log.life == u.log.life ==> t.log.mail <= u.log.mail && t.log.read <= u.log.read && t.parent == u.parent)
  }

  /** Nothing logged in `k` is changed by `m`. */
  ghost predicate Grows(k: Kernel, m: Kernel) {
    |k.tasks| <= |m.tasks| && (forall x :: 0 <= x < |k.tasks| ==> TaskGrows(k.tasks[x], m.tasks[x])) &&
    forall q :: Get(k.q.put, q) <= Get(m.q.put, q) && Get(k.q.got, q) <= Get(m.q.got, q)
  }

  lemma GrowsTrans(a: Kernel, b: Kernel, c: Kernel)
    requires Grows(a, b) && Grows(b, c)
    ensures Grows(a, c)
  {
    forall x | 0 <= x < |a.tasks| ensures TaskGrows(a.tasks[x], c.tasks[x]) {
      assert TaskGrows(a.tasks[x], b.tasks[x]) && TaskGrows(b.tasks[x], c.tasks[x]);
    }
    forall q ensures Get(a.q.put, q) <= Get(c.q.put, q) && Get(a.q.got, q) <= Get(c.q.got, q) {
      assert Get(a.q.put, q) <= Get(b.q.put, q) && Get(a.q.got, q) <= Get(b.q.got, q);
      assert Get(b.q.put, q) <= Get(c.q.put, q) && Get(b.q.got, q) <= Get(c.q.got, q);
    }
  }

  lemma MoveGrows(k: Kernel, x: nat, t: Task)
    requires Movable(k, x) && TaskGrows(k.tasks[x], t)
    ensures Grows(k, Move(k, x, t))
  {
  }

  lemma CreateGrows(k: Kernel, priority: int)
    requires Inv(k)
    ensures Grows(k, Create(k, priority).0)
  {
    if 0 <= priority < PRIORITIES {
      if |k.tasks| < MAX_TASKS {
        GrowKeeps(k);
        assert Grows(k, Grown(k));
        MoveGrows(Grown(k), |k.tasks|, Newborn(Unused(), k.current, priority));
        GrowsTrans(k, Grown(k), Create(k, priority).0);
      } else if Chain(k, FreeQ) != [] {
        HeadOf(k, FreeQ);
        MoveGrows(k, Chain(k, FreeQ)[0], Newborn(k.tasks[Chain(k, FreeQ)[0]], k.current, priority));
      }
    }
  }

  lemma BackGrows(k: Kernel, ret: int)
    requires OneRuns(k)
    ensures Grows(k, Back(k, ret))
  {
    MoveGrows(k, k.current, Woken(Me(k), ret));
  }

  lemma DeliverGrows(k: Kernel, r: nat, msg: Bytes, cap: nat)
    requires OneRuns(k) && r < |k.tasks| && k.tasks[r].state == ReceiveBlocked
    ensures Grows(k, Deliver(k, r, msg, cap))
  {
    var t := Asks(k, Me(k), r, msg, cap).(state := ReplyBlocked, replyWait := r);
    MoveGrows(k, k.current, t);
    var m := Move(k, k.current, t);
    var l := Letter(k.current, msg);
    MoveGrows(m, r, Woken(Opened(Mailed(m.tasks[r], l), l, m.tasks[r].io.cap), |l.msg|));
    GrowsTrans(k, m, Deliver(k, r, msg, cap));
  }

  lemma TouchGrows(k: Kernel, x: nat, t: Task)
    requires x < |k.tasks| && Place(t) == Place(k.tasks[x]) && TaskGrows(k.tasks[x], t)
    ensures Grows(k, Touch(k, x, t))
  {
  }

  lemma EnqueueGrows(k: Kernel, r: nat, msg: Bytes, cap: nat)
    requires OneRuns(k) && r < |k.tasks|
    ensures Grows(k, Enqueue(k, r, msg, cap))
  {
    var m := Posted(k, r, msg);
    TouchGrows(k, r, m.tasks[r]);
    MoveGrows(m, k.current, Asks(m, m.tasks[k.current], r, msg, cap).(state := SendBlocked, at := r));
    GrowsTrans(k, m, Enqueue(k, r, msg, cap));
  }

  lemma SendGrows(k: Kernel, tid: int, msg: Bytes, cap: nat)
    requires Inv(k)
    ensures Grows(k, Send(k, tid, msg, cap))
  {
    if !Known(k, tid) {
      BackGrows(k, -1);
    } else if k.tasks[tid].state == ReceiveBlocked {
      DeliverGrows(k, tid, msg, cap);
    } else {
      EnqueueGrows(k, tid, msg, cap);
    }
  }

  lemma TakeGrows(k: Kernel, cap: nat)
    requires Partition(k) && OneRuns(k) && Chain(k, SendQ(k.current)) != []
    ensures Grows(k, TakeFirst(k, cap))
  {
    HeadOf(k, SendQ(k.current));
    var y := Chain(k, SendQ(k.current))[0];
    var t := k.tasks[y].(state := ReplyBlocked, replyWait := k.current);
    var m := Move(k, y, t);
    MoveGrows(k, y, t);
    TouchGrows(m, k.current, TakeFirst(k, cap).tasks[k.current]);
    GrowsTrans(k, m, TakeFirst(k, cap));
  }

  lemma ReceiveGrows(k: Kernel, cap: nat)
    requires Inv(k)
    ensures Grows(k, Receive(k, cap))
  {
    if Chain(k, SendQ(k.current)) != [] {
      TakeGrows(k, cap);
      TakeKeeps(k, cap);
      HeadOf(k, SendQ(k.current));
      var m := TakeFirst(k, cap);
      BackGrows(m, |k.tasks[Chain(k, SendQ(k.current))[0]].io.msg|);
      GrowsTrans(k, m, Receive(k, cap));
    } else {
      MoveGrows(k, k.current, Listening(Me(k), cap));
    }
  }

  lemma ReplyGrows(k: Kernel, tid: int, reply: Bytes)
    requires Inv(k)
    ensures Grows(k, Reply(k, tid, reply).0)
  {
    if Known(k, tid) && k.tasks[tid].state == ReplyBlocked && k.tasks[tid].replyWait == k.current {
      var t := k.tasks[tid];
      MoveGrows(k, tid, Answered(t, Myself(k), reply));
    }
  }

  lemma {:induction false} SendersGrow(k: Kernel)
    requires SoundBut(k, k.current) && OneRuns(k)
    ensures Grows(k, FailSenders(k))
    decreases |Chain(k, SendQ(k.current))|
  {
    if Chain(k, SendQ(k.current)) != [] {
      FailFirstKeeps(k);
      HeadOf(k, SendQ(k.current));
      var y := Chain(k, SendQ(k.current))[0];
      MoveGrows(k, y, Completed(k.tasks[y], Myself(k), true, -2));
      SendersGrow(FailFirst(k));
      GrowsTrans(k, FailFirst(k), FailSenders(k));
    }
  }

  lemma OrphanGrows(k: Kernel, i: nat)
    requires OneRuns(k)
    ensures Grows(k, FailOrphan(k, i))
  {
    if Orphan(k, i) {
      MoveGrows(k, i, Completed(k.tasks[i], Myself(k), true, -2));
    }
  }

  lemma {:induction false} OrphansGrow(k: Kernel, i: nat)
    requires OneRuns(k) && i <= |k.tasks| && forall j :: 0 <= j < i ==> !Orphan(k, j)
    ensures Grows(k, FailOrphans(k, i))
    decreases |k.tasks| - i
  {
    if i < |k.tasks| {
      FailOrphanFacts(k, i);
      OrphanGrows(k, i);
      OrphansGrow(FailOrphan(k, i), i + 1);
      GrowsTrans(k, FailOrphan(k, i), FailOrphans(k, i));
    }
  }

  lemma ExitGrows(k: Kernel)
    requires Inv(k)
    ensures Grows(k, Exit(k))
  {
    var m := FailSenders(k);
    SendersGrow(k);
    OrphansGrow(m, 0);
    var n := FailOrphans(m, 0);
    GrowsTrans(k, m, n);
    MoveGrows(n, n.current, Me(n).(state := Free));
    GrowsTrans(k, n, Exit(k));
  }

  lemma FireGrows(k: Kernel, e: nat, value: int)
    requires Inv(k) && e < EVENTS
    ensures Grows(k, Fire(k, e, value))
  {
    if Chain(k, EventQ(e)) != [] {
      HeadOf(k, EventQ(e));
      var x := Chain(k, EventQ(e))[0];
      MoveGrows(Counted(k, e), x, Woken(k.tasks[x], value));
    }
  }

  lemma {:induction false} FireAllGrows(k: Kernel, s: seq<Signal>)
    requires Inv(k) && InputOk(Interrupt(s))
    ensures Grows(k, FireAll(k, s))
  {
    if s != [] {
      var m := FireAll(k, s[..|s| - 1]);
      FireAllGrows(k, s[..|s| - 1]);
      FireGrows(m, s[|s| - 1].event, s[|s| - 1].value);
      GrowsTrans(k, m, FireAll(k, s));
    }
  }

  lemma YieldGrows(k: Kernel)
    requires OneRuns(k)
    ensures Grows(k, Yielded(k))
  {
    MoveGrows(k, k.current, Me(k).(state := Ready));
  }

  lemma AwaitGrows(k: Kernel, e: int)
    requires Inv(k)
    ensures Grows(k, Await(k, e))
  {
    if !(0 <= e < EVENTS) {
      BackGrows(k, -1);
    } else if Chain(k, EventQ(e)) != [] {
      BackGrows(k, -2);
    } else if k.ev.pending[e] > 0 {
      var m := Consumed(k, e);
      BackGrows(m, 0);
      GrowsTrans(k, m, Back(m, 0));
    } else {
      MoveGrows(k, k.current, Me(k).(state := EventBlocked, at := e));
    }
  }

  lemma CallGrows(k: Kernel, call: Call)
    requires Inv(k)
    ensures Grows(k, Body(k, Syscall(call)))
  {
    match call
    case DoCreate(p) =>
      CreateKeeps(k, p);
      CreateGrows(k, p);
      BackGrows(Create(k, p).0, Create(k, p).1);
      GrowsTrans(k, Create(k, p).0, Body(k, Syscall(call)));
    case DoMyTid => BackGrows(k, k.current);
    case DoMyParentTid => BackGrows(k, ParentOf(k));
    case DoYield => YieldGrows(k);
    case DoExit => ExitGrows(k);
    case DoSend(tid, msg, cap) => SendGrows(k, tid, msg, cap);
    case DoReceive(cap) => ReceiveGrows(k, cap);
    case DoReply(tid, reply) =>
      ReplyKeeps(k, tid, reply);
      ReplyGrows(k, tid, reply);
      BackGrows(Reply(k, tid, reply).0, Reply(k, tid, reply).1);
      GrowsTrans(k, Reply(k, tid, reply).0, Body(k, Syscall(call)));
    case DoAwait(e) => AwaitGrows(k, e);
    case Unknown => BackGrows(k, -1);
  }

  lemma BodyGrows(k: Kernel, i: Input)
    requires Inv(k) && InputOk(i)
    ensures Grows(k, Body(k, i))
  {
    match i
    case Interrupt(s) =>
      FireAllGrows(k, s);
      YieldGrows(FireAll(k, s));
      GrowsTrans(k, FireAll(k, s), Body(k, i));
    case Syscall(call) => CallGrows(k, call);
  }

  /** No step takes back or reorders anything: sends and their completions, letters sent and received, and
      what entered and left each chain. With the invariant this makes every ready list, event slot and
      send queue first-in-first-out over whole runs. */
  lemma StepGrows(k: Kernel, i: Input)
    requires Inv(k) && InputOk(i) && Step(k, i).Some?
    ensures Grows(k, Step(k, i).value)
  {
    BodyKeeps(k, i);
    BodyGrows(k, i);
    var b := Body(k, i);
    var p := FirstReady(b, 0);
    HeadOf(b, ReadyQ(p));
    var x := Chain(b, ReadyQ(p))[0];
    MoveGrows(b, x, b.tasks[x].(state := Running));
    GrowsTrans(k, b, Step(k, i).value);
  }

  lemma {:induction false} RunGrows(k: Kernel, s: seq<Input>)
    requires Inv(k) && (forall j :: 0 <= j < |s| ==> InputOk(s[j])) && Run(k, s).Some?
    ensures Grows(k, Run(k, s).value)
  {
    if s != [] {
      RunGrows(k, s[..|s| - 1]);
      var m := Run(k, s[..|s| - 1]).value;
      StepGrows(m, s[|s| - 1]);
      GrowsTrans(k, m, Run(k, s).value);
    }
  }

  /** First in, first out, over a run: of two tasks that have entered a ready list, event slot or send
      queue one after the other, the later one has not left it before the earlier one. */
  lemma RunIsFifo(k: Kernel, s: seq<Input>, q: QId)
    requires Inv(k) && (forall j :: 0 <= j < |s| ==> InputOk(s[j])) && Run(k, s).Some? && q != FreeQ
    ensures var m := Run(k, s).value;
            Get(m.q.put, q) == Get(m.q.got, q) + Chain(m, q) && Get(k.q.got, q) <= Get(m.q.got, q) && Get(k.q.put, q) <= Get(m.q.put, q)
  {
    RunGrows(k, s);
  }
}
