/** task_manager.c over its tables and linked lists: every dispatch is one step of the state machine. */
module KernelTable {
  import opened KernelModel
  import opened KernelSteps
  import opened KernelRuns
  import opened KernelLists

  /** What a task descriptor holds besides its links. */
  datatype Td = Td(state: State, priority: nat, parent: int, replyWait: int, io: Io)

  function Visible(t: Task): Td {
    Td(t.state, t.priority, t.parent, t.replyWait, t.io)
  }

  /** A task that belongs in no chain is in none. */
  lemma LooseTask(k: Kernel, x: nat)
    requires Partition(k) && x < |k.tasks| && Place(k.tasks[x]) == Nowhere
    ensures Loose(k.q.chains, x)
  {
    forall q ensures x !in Get(k.q.chains, q) {
      assert x in Chain(k, q) <==> Belongs(k, q, x);
    }
  }

  lemma UnusedTask(k: Kernel)
    requires Partition(k)
    ensures Loose(k.q.chains, |k.tasks|)
  {
    forall q ensures |k.tasks| !in Get(k.q.chains, q) {
      assert |k.tasks| in Chain(k, q) <==> Belongs(k, q, |k.tasks|);
    }
  }

  /** `m` is `k` with another record for task `x`, whatever its chains. */
  predicate Becomes(k: Kernel, m: Kernel, x: nat, r: Td) {
    x < |k.tasks| == |m.tasks| && m.tasks == k.tasks[x := m.tasks[x]] && Visible(m.tasks[x]) == r &&
    m.ev == k.ev && m.current == k.current
  }

  /** The chains after task `x` has joined a ready list. */
  function Readied(cs: map<QId, seq<nat>>, p: nat, x: nat): map<QId, seq<nat>> {
    cs[ReadyQ(p) := Get(cs, ReadyQ(p)) + [x]]
  }

  /** The chains after the head of `q` has left. */
  function Headless(cs: map<QId, seq<nat>>, q: QId): map<QId, seq<nat>> {
    if Get(cs, q) == [] then cs else cs[q := Get(cs, q)[1..]]
  }

  lemma MoveBecomes(k: Kernel, x: nat, t: Task)
    requires Movable(k, x)
    ensures Becomes(k, Move(k, x, t), x, Visible(t))
    ensures var a, b := Place(k.tasks[x]), Place(t);
            var cs := if a == Nowhere then k.q.chains else Headless(k.q.chains, a);
            Move(k, x, t).q.chains == if b == Nowhere then cs else cs[b := Joined(b, Get(cs, b), x)]
  {
  }

  /** A task created in an unused slot is in no chain yet, nobody waits for it, and it joins its ready list. */
  lemma FreshBecomes(k: Kernel, priority: nat)
    requires Sound(k) && |k.tasks| < MAX_TASKS && priority < PRIORITIES
    ensures Loose(k.q.chains, |k.tasks|) && Get(k.q.chains, SendQ(|k.tasks|)) == [] && Movable(Grown(k), |k.tasks|)
    ensures var t := Newborn(Unused(), k.current, priority);
            Becomes(Grown(k), Move(Grown(k), |k.tasks|, t), |k.tasks|, Visible(t)) &&
            Move(Grown(k), |k.tasks|, t).q.chains == Readied(k.q.chains, priority, |k.tasks|)
  {
    UnusedTask(k);
    GrowKeeps(k);
    DeadIsLonely(Grown(k), |k.tasks|);
    MoveBecomes(Grown(k), |k.tasks|, Newborn(Unused(), k.current, priority));
  }

  /** The first queued sender has been taken out of the queue, but its message has not been copied yet. */
  ghost function Accepted(k: Kernel): Kernel
    requires Partition(k) && OneRuns(k) && Chain(k, SendQ(k.current)) != []
  {
    HeadOf(k, SendQ(k.current));
    var y := Chain(k, SendQ(k.current))[0];
    Move(k, y, k.tasks[y].(state := ReplyBlocked, replyWait := k.current))
  }

  lemma TakeBecomes(k: Kernel, cap: nat)
    requires Inv(k) && Chain(k, SendQ(k.current)) != []
    ensures var q, m := SendQ(k.current), Accepted(k);
            var y := Chain(k, q)[0];
            Movable(k, y) && y != k.current &&
            Becomes(k, m, y, Visible(k.tasks[y].(state := ReplyBlocked, replyWait := k.current))) &&
            m.q.chains == k.q.chains[q := Chain(k, q)[1..]] && m.tasks[k.current] == Me(k) &&
            Becomes(m, TakeFirst(k, cap), k.current, Visible(Opened(Me(k), Letter(y, k.tasks[y].io.msg), cap))) &&
            TakeFirst(k, cap).q.chains == m.q.chains
  {
    HeadOf(k, SendQ(k.current));
    var y := Chain(k, SendQ(k.current))[0];
    MoveBecomes(k, y, k.tasks[y].(state := ReplyBlocked, replyWait := k.current));
  }

  lemma Ranked(k: Kernel, x: nat)
    requires AllWell(k.tasks) && x < |k.tasks|
    ensures k.tasks[x].priority < PRIORITIES
  {
    assert Well(k.tasks, x);
  }

  class TaskManager {
    const queues: TaskQueues
    const td: array<Td>
    const pending: array<nat>
    var n: nat
    var current: int
    ghost var model: Kernel

    /** init_global_task_scheduler and init_global_task_manager. */
    constructor ()
      ensures Sync() && model == Empty() && fresh(Footprint())
    {
      queues := new TaskQueues();
      td := new Td[4096](i => Visible(Unused()));
      pending := new nat[5](i => 0);
      n, current := 0, -1;
      model := Empty();
      new;
      assert pending[..] == Empty().ev.pending;
    }

    /** kmain: create the first task and activate it. */
    method Start(priority: nat)
      requires Sync() && model == Empty() && priority < PRIORITIES
      modifies Footprint()
      ensures Valid() && model == Boot(priority)
    {
      EmptySound();
      BootInv(priority);
      var tid := CreateTask(priority);
      Activate(priority);
    }

    ghost function Footprint(): set<object>
      reads this
    {
      {this, td, pending} + queues.Footprint()
    }

    ghost predicate Records()
      reads this, td, pending
    {
      n == |model.tasks| <= td.Length == MAX_TASKS && (forall i :: 0 <= i < n ==> td[i] == Visible(model.tasks[i])) &&
      pending.Length == EVENTS && pending[..] == model.ev.pending && current == model.current
    }

    ghost predicate Own()
      reads this
    {
      {this, td, pending} !! queues.Footprint()
    }

    /** Tables and lists show exactly the model state. */
    ghost predicate Sync()
      reads Footprint()
    {
      Own() && queues.Valid() && queues.cs == model.q.chains && Records()
    }

    ghost predicate Valid()
      reads Footprint()
    {
      Sync() && Inv(model)
    }

    /** Tables and lists are sound, whatever the chains hold. */
    ghost predicate Held()
      reads Footprint()
    {
      Own() && queues.Valid() && Records()
    }

    /** Writing a descriptor whose chain is already as it should be. */
    method SetRecord(x: nat, r: Td, ghost m: Kernel)
      requires Held() && Becomes(model, m, x, r) && m.q.chains == queues.cs
      modifies td, this`model
      ensures Sync() && model == m
    {
      td[x] := r;
      model := m;
    }

    /** Writing the descriptor of a task that gets ready, and global_task_scheduler_add_task. */
    method PutReady(x: nat, r: Td, ghost m: Kernel)
      requires Held() && Becomes(model, m, x, r) && Loose(queues.cs, x) && r.priority < PRIORITIES
      requires m.q.chains == Readied(queues.cs, r.priority, x)
      modifies Footprint()
      ensures Sync() && model == m
    {
      td[x] := r;
      queues.Append(r.priority, x);
      model := m;
    }

    /** Returning `ret` to the caller and putting it back into its ready list. */
    method Return(ret: int)
      requires Sync() && Inv(model)
      modifies Footprint()
      ensures Sync() && model == Back(old(model), ret)
    {
      LooseTask(model, current);
      Ranked(model, current);
      MoveBecomes(model, current, Woken(Me(model), ret));
      PutReady(current, td[current].(state := Ready, io := td[current].io.(x0 := ret)), Back(model, ret));
    }

    /** Writing the descriptor of a task that joins the send queue of `r`, and enqueue_sender. */
    method PutQueued(r: nat, x: nat, d: Td, ghost m: Kernel)
      requires Held() && Becomes(model, m, x, d) && Loose(queues.cs, x) && r < n
      requires m.q.chains == queues.cs[SendQ(r) := Get(queues.cs, SendQ(r)) + [x]]
      modifies Footprint()
      ensures Sync() && model == m
    {
      td[x] := d;
      queues.EnqueueSender(r, x);
      model := m;
    }

    /** Writing the descriptor of a task that waits for an event, and enqueue_event_waiter. */
    method PutWaiting(e: nat, x: nat, d: Td, ghost m: Kernel)
      requires Held() && Becomes(model, m, x, d) && Loose(queues.cs, x) && e < EVENTS && Get(queues.cs, EventQ(e)) == []
      requires m.q.chains == queues.cs[EventQ(e) := Get(queues.cs, EventQ(e)) + [x]]
      modifies Footprint()
      ensures Sync() && model == m
    {
      td[x] := d;
      queues.EnqueueWaiter(e, x);
      model := m;
    }

    /** kern_Create in an unused slot. */
    method CreateFresh(priority: nat)
      requires Sync() && Sound(model) && n < MAX_TASKS && priority < PRIORITIES
      modifies Footprint()
      ensures Sync() && model == Move(Grown(old(model)), |old(model).tasks|, Newborn(Unused(), old(model).current, priority))
    {
      FreshBecomes(model, priority);
      queues.ClearSenders(n);
      td[n] := Td(Ready, priority, current, -1, Io(0, [], 0, 0, [], -1, []));
      queues.Append(priority, n);
      n := n + 1;
      model := Move(Grown(model), |model.tasks|, Newborn(Unused(), model.current, priority));
    }

    /** kern_Create: the descriptor, its empty send queue and its place in the ready list. */
    method CreateTask(priority: int) returns (tid: int)
      requires Sync() && Sound(model)
      modifies Footprint()
      ensures Sync() && (model, tid) == Create(old(model), priority)
    {
      if !(0 <= priority < PRIORITIES) {
        return -1;
      }
      if n < MAX_TASKS {
        tid := n;
        CreateFresh(priority);
        return;
      }
      tid := queues.PopFree();
      if tid < 0 {
        return -2;
      }
      HeadOf(model, FreeQ);
      DeadIsLonely(model, tid);
      MoveBecomes(model, tid, Newborn(model.tasks[tid], model.current, priority));
      queues.ClearSenders(tid);
      PutReady(tid, Td(Ready, priority, current, -1, Io(0, [], 0, 0, [], -1, [])), Create(model, priority).0);
    }

    /** activate, for the first task. */
    method Activate(priority: nat)
      requires priority < PRIORITIES && Sync() && model == Create(Empty(), priority).0
      modifies Footprint()
      ensures Sync() && model == Boot(priority)
    {
      BootCreates(priority);
      MoveBecomes(model, 0, model.tasks[0].(state := Running));
      HeadWithout(model, td[0].priority);
      queues.RemoveTask(td[0].priority, 0);
      SwitchTo(0, Move(model, 0, model.tasks[0].(state := Running)));
    }

    /** The current task gives way without a return value: kern_Yield and the end of irq_dispatch. */
    method GiveWay()
      requires Sync() && Inv(model)
      modifies Footprint()
      ensures Sync() && model == Yielded(old(model))
    {
      LooseTask(model, current);
      Ranked(model, current);
      MoveBecomes(model, current, Me(model).(state := Ready));
      PutReady(current, td[current].(state := Ready), Yielded(model));
    }

    /** switch_to_task. */
    method SwitchTo(x: nat, ghost m: Kernel)
      requires Held() && x < n && Becomes(model, m, x, td[x].(state := Running)) && m.q.chains == queues.cs
      modifies td, this`model, this`current
      ensures Sync() && model == m.(current := x)
    {
      SetRecord(x, td[x].(state := Running), m);
      current := x;
      model := m.(current := x);
    }

    /** schedule and switch_to_task; false if no task is ready, where the kernel panics. */
    method ScheduleNext() returns (alive: bool)
      requires Sync() && Sound(model) && NoneRuns(model)
      modifies Footprint()
      ensures alive <==> Schedule(old(model)).Some?
      ensures alive ==> Sync() && model == Schedule(old(model)).value
    {
      ghost var p := FirstReady(model, 0);
      assert IsFirstList(queues.cs, p) by {
        ReadyLists(model);
      }
      var x := queues.NextTask(p);
      if x < 0 {
        return false;
      }
      HeadOf(model, ReadyQ(p));
      MoveBecomes(model, x, model.tasks[x].(state := Running));
      SwitchTo(x, Move(model, x, model.tasks[x].(state := Running)));
      return true;
    }

    /** get_task_by_tid. */
    method Knows(tid: int) returns (known: bool)
      requires Sync()
      ensures known == Known(model, tid)
    {
      return 0 <= tid < n && td[tid].state != Free && td[tid].state != Exited;
    }

    /** The sender blocks until the reply. */
    method BlockSender(r: nat, msg: Bytes, replyCap: nat)
      requires Sync() && OneRuns(model) && r < n
      modifies Footprint()
      ensures Sync()
      ensures model == Move(old(model), old(model).current,
                            Asks(old(model), Me(old(model)), r, msg, replyCap).(state := ReplyBlocked, replyWait := r))
    {
      ghost var t := Asks(model, Me(model), r, msg, replyCap).(state := ReplyBlocked, replyWait := r);
      MoveBecomes(model, current, t);
      var d := td[current];
      SetRecord(current, d.(state := ReplyBlocked, replyWait := r, io := d.io.(msg := msg, replyCap := replyCap)),
                Move(model, current, t));
    }

    /** The waiting receiver gets the message. */
    method HandOver(r: nat, msg: Bytes)
      requires Sync() && Sound(model) && r < n && model.tasks[r].state == ReceiveBlocked && 0 <= current
      modifies Footprint()
      ensures Sync() && model == Handed(old(model), r, Letter(old(model).current, msg))
    {
      ghost var l := Letter(current, msg);
      LooseTask(model, r);
      Ranked(model, r);
      MoveBecomes(model, r, Woken(Opened(Mailed(model.tasks[r], l), l, model.tasks[r].io.cap), |msg|));
      var d := td[r];
      PutReady(r, d.(state := Ready, io := d.io.(x0 := |msg|, inbox := Prefix(msg, d.io.cap), from := current)),
               Handed(model, r, l));
    }

    /** kern_Send to a task that waits for a message. */
    method SendNow(r: nat, msg: Bytes, replyCap: nat)
      requires Sync() && Inv(model) && r < n && model.tasks[r].state == ReceiveBlocked
      modifies Footprint()
      ensures Sync() && model == Deliver(old(model), r, msg, replyCap)
    {
      SenderBlocks(model, r, msg, replyCap);
      BlockSender(r, msg, replyCap);
      HandOver(r, msg);
    }

    /** kern_Send to a task that is busy. */
    method SendLater(r: nat, msg: Bytes, replyCap: nat)
      requires Sync() && Inv(model) && r < n
      modifies Footprint()
      ensures Sync() && model == Enqueue(old(model), r, msg, replyCap)
    {
      ghost var m := Posted(model, r, msg);
      LooseTask(model, current);
      ghost var t := Asks(m, Me(m), r, msg, replyCap).(state := SendBlocked, at := r);
      MoveBecomes(m, current, t);
      model := m;
      var d := td[current];
      PutQueued(r, current, d.(state := SendBlocked, io := d.io.(msg := msg, replyCap := replyCap)), Move(m, current, t));
    }

    /** kern_Send with what syscall_dispatch does on failure. */
    method SendMessage(tid: int, msg: Bytes, replyCap: nat)
      requires Sync() && Inv(model)
      modifies Footprint()
      ensures Sync() && model == Send(old(model), tid, msg, replyCap)
    {
      var known := Knows(tid);
      if !known {
        Return(-1);
      } else if td[tid].state == ReceiveBlocked {
        SendNow(tid, msg, replyCap);
      } else {
        SendLater(tid, msg, replyCap);
      }
    }

    /** The first half of kern_Receive: the message of the first queued sender, if any. */
    method ReceiveFirst(cap: nat) returns (found: bool, len: nat)
      requires Sync() && Inv(model)
      modifies Footprint()
      ensures Sync() && found == (Chain(old(model), SendQ(old(model).current)) != [])
      ensures if found then model == TakeFirst(old(model), cap) && Movable(old(model), Chain(old(model), SendQ(old(model).current))[0]) &&
                              len == |old(model).tasks[Chain(old(model), SendQ(old(model).current))[0]].io.msg|
              else model == old(model)
    {
      var y := queues.DequeueSender(current);
      if y < 0 {
        return false, 0;
      }
      TakeBecomes(model, cap);
      ghost var m := Accepted(model);
      var msg := td[y].io.msg;
      len := |msg|;
      ghost var k := model;
      SetRecord(y, td[y].(state := ReplyBlocked, replyWait := current), m);
      SetRecord(current, td[current].(io := td[current].io.(inbox := Prefix(msg, cap), from := y)), TakeFirst(k, cap));
      return true, len;
    }

    /** kern_Receive and its return to the caller. */
    method ReceiveMessage(cap: nat)
      requires Sync() && Inv(model)
      modifies Footprint()
      ensures Sync() && model == Receive(old(model), cap)
    {
      ghost var k := model;
      var found, len := ReceiveFirst(cap);
      if found {
        TakeKeeps(k, cap);
        Return(len);
      } else {
        MoveBecomes(model, current, Listening(Me(model), cap));
        SetRecord(current, td[current].(state := ReceiveBlocked, io := td[current].io.(cap := cap)), Receive(model, cap));
      }
    }

    /** kern_Reply. */
    method ReplyTo(tid: int, reply: Bytes) returns (ret: int)
      requires Sync() && Inv(model)
      modifies Footprint()
      ensures Sync() && (model, ret) == Reply(old(model), tid, reply)
    {
      var known := Knows(tid);
      if !known {
        return -1;
      }
      if td[tid].state != ReplyBlocked || td[tid].replyWait != current {
        return -2;
      }
      LooseTask(model, tid);
      Ranked(model, tid);
      MoveBecomes(model, tid, Answered(model.tasks[tid], Myself(model), reply));
      var io := td[tid].io;
      ret := |Prefix(reply, io.replyCap)|;
      PutReady(tid, td[tid].(state := Ready, replyWait := -1,
                             io := io.(x0 := |reply|, reply := Prefix(reply, io.replyCap))), Reply(model, tid, reply).0);
    }

    /** kern_AwaitEvent and its return to the caller. */
    method AwaitEvent(e: int)
      requires Sync() && Inv(model)
      modifies Footprint()
      ensures Sync() && model == Await(old(model), e)
    {
      if !(0 <= e < EVENTS) {
        Return(-1);
        return;
      }
      var busy := queues.HasWaiter(e);
      if busy {
        Return(-2);
        return;
      }
      if pending[e] > 0 {
        TakePending(e);
        Return(0);
        return;
      }
      LooseTask(model, current);
      MoveBecomes(model, current, Me(model).(state := EventBlocked, at := e));
      PutWaiting(e, current, td[current].(state := EventBlocked), Await(model, e));
    }

    method TakePending(e: nat)
      requires Sync() && Inv(model) && e < EVENTS && model.ev.pending[e] > 0 && Chain(model, EventQ(e)) == []
      modifies pending, this`model
      ensures Sync() && Inv(model) && model == Consumed(old(model), e)
    {
      CountersEventOk(model, e);
      CountersKeep(model, Consumed(model, e));
      pending[e] := pending[e] - 1;
      model := Consumed(model, e);
    }

    /** handle_timer_interrupt and handle_event_interrupt. */
    method FireEvent(e: nat, value: int)
      requires Sync() && Inv(model) && e < EVENTS
      modifies Footprint()
      ensures Sync() && model == Fire(old(model), e, value)
    {
      var x := queues.DequeueWaiter(e);
      if x < 0 {
        if pending[e] < MAX_PENDING {
          pending[e] := pending[e] + 1;
        }
        model := Recorded(model, e);
        return;
      }
      HeadOf(model, EventQ(e));
      Ranked(model, x);
      ghost var m := Counted(model, e);
      MoveBecomes(m, x, Woken(m.tasks[x], value));
      model := m;
      PutReady(x, td[x].(state := Ready, io := td[x].io.(x0 := value)), Move(m, x, Woken(m.tasks[x], value)));
    }

    /** One round of fail_all_senders. */
    method FailNext() returns (more: bool)
      requires Sync() && SoundBut(model, model.current) && OneRuns(model)
      modifies Footprint()
      ensures Sync() && more == (Chain(old(model), SendQ(old(model).current)) != [])
      ensures model == if more then FailFirst(old(model)) else old(model)
    {
      var y := queues.DequeueSender(current);
      if y < 0 {
        return false;
      }
      HeadOf(model, SendQ(current));
      Ranked(model, y);
      MoveBecomes(model, y, Completed(model.tasks[y], Myself(model), true, -2));
      PutReady(y, td[y].(state := Ready, replyWait := -1, io := td[y].io.(x0 := -2)), FailFirst(model));
      return true;
    }

    /** fail_all_senders for the current task. */
    method FailAllSenders()
      requires Sync() && SoundBut(model, model.current) && OneRuns(model)
      modifies Footprint()
      ensures Sync() && model == FailSenders(old(model))
    {
      var more := true;
      while more
        invariant Sync() && SoundBut(model, model.current) && OneRuns(model) && FailSenders(model) == FailSenders(old(model))
        invariant !more ==> Chain(model, SendQ(model.current)) == []
        decreases |Chain(model, SendQ(model.current))|, more
      {
        if Chain(model, SendQ(model.current)) != [] {
          FailFirstKeeps(model);
        }
        more := FailNext();
      }
    }

    /** One round of the loop of kern_Exit over the table. */
    method FailWaiter(i: nat)
      requires Sync() && Partition(model) && AllWell(model.tasks) && OneRuns(model) && i < n
      modifies Footprint()
      ensures Sync() && model == FailOrphan(old(model), i)
    {
      if td[i].state == ReplyBlocked && td[i].replyWait == current {
        LooseTask(model, i);
        Ranked(model, i);
        MoveBecomes(model, i, Completed(model.tasks[i], Myself(model), true, -2));
        PutReady(i, td[i].(state := Ready, replyWait := -1, io := td[i].io.(x0 := -2)), FailOrphan(model, i));
      }
    }

    /** The loop of kern_Exit over the table. */
    method FailAllWaiters()
      requires Sync() && SoundBut(model, model.current) && OneRuns(model)
      modifies Footprint()
      ensures Sync() && model == FailOrphans(old(model), 0)
    {
      var i := 0;
      ghost var end := FailOrphans(model, 0);
      while i < n
        invariant Sync() && i <= n && (model, i) in Exits(end)
        decreases |model.tasks| - i
      {
        OrphanRound(model, i, end);
        FailWaiter(i);
        i := i + 1;
      }
      LastRound(model, end);
    }

    /** kern_Exit up to scheduling. The descriptor passes through EXITED; its removal from the ready list
        finds nothing to remove. */
    method ExitCurrent()
      requires Sync() && Inv(model)
      modifies Footprint()
      ensures Sync() && model == Exit(old(model))
    {
      FailAllSenders();
      FailOrphansKeep(model, 0);
      FailAllWaiters();
      Retire();
    }

    /** The end of kern_Exit. */
    method Retire()
      requires Sync() && SoundBut(model, model.current) && OneRuns(model)
      modifies Footprint()
      ensures Sync() && model == Move(old(model), old(model).current, Me(old(model)).(state := Free))
    {
      LooseTask(model, current);
      Ranked(model, current);
      MoveBecomes(model, current, Me(model).(state := Free));
      td[current] := td[current].(state := Exited);
      queues.RemoveTask(td[current].priority, current);
      td[current] := td[current].(state := Free);
      queues.PushFree(current);
      model := Move(model, current, Me(model).(state := Free));
    }

    // ---------- dispatch ----------

    method CallParent() returns (ret: int)
      requires Sync() && Inv(model)
      ensures ret == ParentOf(model)
    {
      assert Well(model.tasks, current);
      var p := td[current].parent;
      if p < 0 {
        return p;
      }
      return if td[p].state == Exited || td[p].state == Free then -2 else p;
    }

    /** The switch of syscall_dispatch. */
    method HandleCall(call: Call)
      requires Sync() && Inv(model)
      modifies Footprint()
      ensures Sync() && model == Body(old(model), Syscall(call))
    {
      ghost var k := model;
      match call {
        case DoCreate(p) =>
          CreateKeeps(model, p);
          var tid := CreateTask(p);
          Return(tid);
        case DoMyTid => Return(current);
        case DoMyParentTid =>
          var p := CallParent();
          Return(p);
        case DoYield => GiveWay();
        case DoExit => ExitCurrent();
        case DoSend(tid, msg, cap) => SendMessage(tid, msg, cap);
        case DoReceive(cap) => ReceiveMessage(cap);
        case DoReply(tid, reply) =>
          ReplyKeeps(model, tid, reply);
          var ret := ReplyTo(tid, reply);
          Return(ret);
        case DoAwait(e) => AwaitEvent(e);
        case Unknown => Return(-1);
      }
    }

    /** syscall_dispatch; false where the kernel panics because no task is ready. */
    method SyscallDispatch(call: Call) returns (alive: bool)
      requires Valid()
      modifies Footprint()
      ensures alive <==> Step(old(model), Syscall(call)).Some?
      ensures alive ==> Valid() && model == Step(old(model), Syscall(call)).value
    {
      BodyKeeps(model, Syscall(call));
      ghost var k := model;
      HandleCall(call);
      alive := ScheduleNext();
      if alive {
        StepKeeps(k, Syscall(call));
      }
    }

    /** The events of one interrupt. */
    method HandleSignals(signals: seq<Signal>)
      requires Valid() && InputOk(Interrupt(signals))
      modifies Footprint()
      ensures Valid() && model == FireAll(old(model), signals)
    {
      ghost var k := model;
      var i := 0;
      while i < |signals|
        invariant i <= |signals| && Valid() && model == FireAll(k, signals[..i])
      {
        FireNext(k, signals, i);
        FireEvent(signals[i].event, signals[i].value);
        i := i + 1;
      }
      assert signals[..i] == signals;
    }

    /** irq_dispatch. */
    method IrqDispatch(signals: seq<Signal>) returns (alive: bool)
      requires Valid() && InputOk(Interrupt(signals))
      modifies Footprint()
      ensures alive <==> Step(old(model), Interrupt(signals)).Some?
      ensures alive ==> Valid() && model == Step(old(model), Interrupt(signals)).value
    {
      BodyKeeps(model, Interrupt(signals));
      ghost var k := model;
      HandleSignals(signals);
      GiveWay();
      alive := ScheduleNext();
      if alive {
        StepKeeps(k, Interrupt(signals));
      }
    }
  }

  lemma FireNext(k: Kernel, signals: seq<Signal>, i: nat)
    requires Inv(k) && InputOk(Interrupt(signals)) && i < |signals|
    ensures var m := FireAll(k, signals[..i]);
            FireAll(k, signals[..i + 1]) == Fire(m, signals[i].event, signals[i].value) && Inv(FireAll(k, signals[..i + 1]))
  {
    assert signals[..i + 1][..i] == signals[..i];
  }

  lemma ReadyLists(k: Kernel)
    ensures IsFirstList(k.q.chains, FirstReady(k, 0))
  {
    var p := FirstReady(k, 0);
    assert forall i :: 0 <= i < p ==> Get(k.q.chains, ReadyQ(i)) == Chain(k, ReadyQ(i));
  }

  /** State of kern_Exit's loop over the table: the tasks below `i` do not wait for the exiting one. */
  ghost predicate Exiting(k: Kernel, i: nat) {
    SoundBut(k, k.current) && OneRuns(k) && i <= |k.tasks| && forall j :: 0 <= j < i ==> !Orphan(k, j)
  }

  /** States of that loop, each with the number of tasks seen, from which it ends in `end`. */
  ghost function Exits(end: Kernel): iset<(Kernel, nat)> {
    iset p: (Kernel, nat) | Exiting(p.0, p.1) && FailOrphans(p.0, p.1) == end
  }

  lemma OrphanRound(k: Kernel, i: nat, end: Kernel)
    requires (k, i) in Exits(end) && i < |k.tasks|
    ensures Partition(k) && AllWell(k.tasks) && OneRuns(k)
    ensures (FailOrphan(k, i), i + 1) in Exits(end) && |FailOrphan(k, i).tasks| == |k.tasks|
  {
    FailOrphanKeeps(k, i);
    FailOrphanFacts(k, i);
  }

  lemma LastRound(k: Kernel, end: Kernel)
    requires (k, |k.tasks|) in Exits(end)
    ensures k == end
  {
  }

  /** Removing the head of a ready list by rotation leaves the rest. */
  lemma HeadWithout(k: Kernel, p: nat)
    requires Movable(k, 0) && Place(k.tasks[0]) == ReadyQ(p)
    ensures Without(Chain(k, ReadyQ(p)), 0) == Chain(k, ReadyQ(p))[1..]
  {
  }
}
