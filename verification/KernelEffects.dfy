/** What one dispatch can do to a task: hand it one message, or complete its send, and only by the call that
    is entitled to. */
module KernelEffects {
  import opened KernelModel
  import opened KernelSteps
  import opened KernelRuns

  // ---------- what a dispatch may do ----------

  predicate KeepsMail(t: Task, u: Task) {
    u.log.read == t.log.read && u.io.inbox == t.io.inbox && u.io.from == t.io.from
  }

  predicate KeepsReply(t: Task, u: Task) {
    u.log.answered == t.log.answered && u.io.reply == t.io.reply
  }

  /** Nothing is sent: the task asks nobody anew, and no letter is on its way to it. */
  predicate KeepsPost(t: Task, u: Task) {
    u.log.asked == t.log.asked && u.log.mail == t.log.mail && (Alive(u) ==> Alive(t)) &&
    (Asking(u) ==> Asking(t) && u.io.msg == t.io.msg)
  }

  predicate Quiet(t: Task, u: Task) {
    KeepsMail(t, u) && KeepsReply(t, u) && KeepsPost(t, u) && u.log.life == t.log.life
  }

  /** The task has read one more letter: its buffer holds as much of the message as fits, it knows the sender,
      and the length of the whole message is what Receive returns. */
  predicate Reads(t: Task, u: Task, l: Letter, cap: nat) {
    u.log.read == t.log.read + [l] && u.io.inbox == Prefix(l.msg, cap) && u.io.from == l.sender && u.io.x0 == |l.msg|
  }

  /** A task reads a letter when somebody sends to it while it waits, or when it receives one already sent. */
  predicate Receives(k: Kernel, i: Input, x: nat, u: Task)
    requires OneRuns(k) && x < |k.tasks|
  {
    var t := k.tasks[x];
    if i == Syscall(Unknown) || i.Interrupt? then false
    else if i.call.DoSend? then
      i.call.tid == x && t.state == ReceiveBlocked && Reads(t, u, Letter(k.current, i.call.msg), t.io.cap)
    else if i.call.DoReceive? then
      x == k.current && Chain(k, SendQ(x)) != [] && Reads(t, u, LetterOf(k.tasks, Chain(k, SendQ(x))[0]), i.call.cap)
    else false
  }

  /** The send of a task is completed by the present life of the current task, to which it was sent. */
  predicate Closes(k: Kernel, t: Task, u: Task, error: bool)
    requires OneRuns(k)
  {
    WaitsFor(t, k.current) && u.log.answered == t.log.answered + [Answer(Myself(k), error)]
  }

  /** A send is completed by a reply of the task it was sent to, or with -2 when that task exits. */
  predicate Completes(k: Kernel, i: Input, x: nat, u: Task)
    requires OneRuns(k) && x < |k.tasks|
  {
    var t := k.tasks[x];
    if i == Syscall(DoExit) then Closes(k, t, u, true) && u.io.x0 == -2 && u.io.reply == t.io.reply
    else
      i.Syscall? && i.call.DoReply? && i.call.tid == x && t.state == ReplyBlocked && Closes(k, t, u, false) &&
      u.io.x0 == |i.call.reply| && u.io.reply == Prefix(i.call.reply, t.io.replyCap)
  }

  predicate Effect(k: Kernel, i: Input, x: nat, u: Task)
    requires OneRuns(k) && x < |k.tasks|
  {
    var t := k.tasks[x];
    u.log.life == t.log.life ==>
      (KeepsMail(t, u) || Receives(k, i, x, u)) && (KeepsReply(t, u) || Completes(k, i, x, u))
  }

  /** A send that is accepted. */
  predicate Delivers(k: Kernel, i: Input) {
    i.Syscall? && i.call.DoSend? && Known(k, i.call.tid)
  }

  function AskedAfter(k: Kernel, i: Input, x: nat): seq<Who>
    requires x < |k.tasks|
  {
    if Delivers(k, i) && x == k.current then k.tasks[x].log.asked + [Who(i.call.tid, k.tasks[i.call.tid].log.life)]
    else k.tasks[x].log.asked
  }

  function MailAfter(k: Kernel, i: Input, x: nat): seq<Letter>
    requires x < |k.tasks| && 0 <= k.current
  {
    if Delivers(k, i) && x == i.call.tid then k.tasks[x].log.mail + [Letter(k.current, i.call.msg)]
    else k.tasks[x].log.mail
  }

  /** Who is blocked on a send was so before, with the same message, or has just sent it. */
  predicate StillAsks(k: Kernel, i: Input, x: nat, u: Task)
    requires x < |k.tasks|
  {
    if x == k.current then Delivers(k, i) && u.io.msg == i.call.msg
    else Asking(k.tasks[x]) && u.io.msg == k.tasks[x].io.msg && u.log.life == k.tasks[x].log.life
  }

  /** What is sent: an accepted send is entered with its sender and with its receiver, at the same time and
      nowhere else; and a new life starts without letters. */
  predicate Posts(k: Kernel, i: Input, x: nat, u: Task)
    requires x < |k.tasks| && 0 <= k.current
  {
    var t := k.tasks[x];
    u.log.asked == AskedAfter(k, i, x) && (Asking(u) ==> StillAsks(k, i, x, u)) &&
    if u.log.life == t.log.life then u.log.mail == MailAfter(k, i, x) && (Alive(u) ==> Alive(t))
    else u.log == Log(t.log.life + 1, t.log.asked, t.log.answered, [], []) && !Alive(t)
  }

  /** A task in a slot that was never used before. */
  predicate FirstLife(u: Task) {
    u.log == Log(1, [], [], [], []) && !Asking(u)
  }

  predicate Outcome(k: Kernel, i: Input, x: nat, u: Task)
    requires OneRuns(k) && x < |k.tasks|
  {
    Effect(k, i, x, u) && Posts(k, i, x, u)
  }

  // ---------- steps that hand over nothing ----------

  ghost predicate AllQuiet(k: Kernel, m: Kernel) {
    |m.tasks| == |k.tasks| && forall x :: 0 <= x < |k.tasks| ==> Quiet(k.tasks[x], m.tasks[x])
  }

  lemma QuietMove(k: Kernel, x: nat, t: Task)
    requires Movable(k, x) && Quiet(k.tasks[x], t)
    ensures AllQuiet(k, Move(k, x, t))
  {
  }

  lemma QuietTrans(k: Kernel, m: Kernel, n: Kernel)
    requires AllQuiet(k, m) && AllQuiet(m, n)
    ensures AllQuiet(k, n)
  {
  }

  lemma FireRecord(k: Kernel, e: nat, value: int, x: nat)
    requires Partition(k) && EventsOk(k) && e < EVENTS && x < |k.tasks|
    ensures var m := Fire(k, e, value);
            |m.tasks| == |k.tasks| &&
            (m.tasks[x] == k.tasks[x] || (k.tasks[x].state == EventBlocked && m.tasks[x] == Woken(k.tasks[x], value)))
  {
    if Chain(k, EventQ(e)) != [] {
      HeadOf(k, EventQ(e));
    }
  }

  lemma FireQuiet(k: Kernel, e: nat, value: int)
    requires Inv(k) && e < EVENTS
    ensures AllQuiet(k, Fire(k, e, value))
  {
    FireRecord(k, e, value, k.current);
    forall x | 0 <= x < |k.tasks| ensures x < |Fire(k, e, value).tasks| && Quiet(k.tasks[x], Fire(k, e, value).tasks[x]) {
      FireRecord(k, e, value, x);
    }
  }

  lemma {:induction false} QuietSignals(k: Kernel, s: seq<Signal>)
    requires Inv(k) && InputOk(Interrupt(s))
    ensures AllQuiet(k, FireAll(k, s))
  {
    if s != [] {
      var m, e, v := FireAll(k, s[..|s| - 1]), s[|s| - 1].event, s[|s| - 1].value;
      QuietSignals(k, s[..|s| - 1]);
      FireQuiet(m, e, v);
      QuietTrans(k, m, Fire(m, e, v));
    }
  }

  // ---------- the calls that hand something over ----------

  /** What a dispatch leaves of each task before the next one is scheduled. */
  ghost predicate Effects(k: Kernel, i: Input, m: Kernel)
    requires OneRuns(k)
  {
    |m.tasks| >= |k.tasks| && (forall x :: 0 <= x < |k.tasks| ==> Outcome(k, i, x, m.tasks[x])) &&
    forall x :: |k.tasks| <= x < |m.tasks| ==> FirstLife(m.tasks[x])
  }

  lemma QuietEffects(k: Kernel, i: Input, m: Kernel)
    requires OneRuns(k) && AllQuiet(k, m) && !Delivers(k, i)
    ensures Effects(k, i, m)
  {
  }

  /** Returning to the caller afterwards spoils nothing. */
  lemma BackEffects(k: Kernel, i: Input, m: Kernel, ret: int)
    requires OneRuns(k) && OneRuns(m) && m.current == k.current && Quiet(Me(k), Me(m)) && Effects(k, i, m)
    requires !Delivers(k, i)
    ensures Effects(k, i, Back(m, ret))
  {
    forall x | 0 <= x < |k.tasks| ensures Outcome(k, i, x, Back(m, ret).tasks[x]) {
      assert Outcome(k, i, x, m.tasks[x]);
    }
  }

  predicate NewLife(t: Task, u: Task) {
    u.log == Log(t.log.life + 1, t.log.asked, t.log.answered, [], []) && !Asking(u)
  }

  /** A new task starts a new life, and nobody else changes. */
  lemma FreshRecord(k: Kernel, priority: nat, x: nat)
    requires Partition(k) && |k.tasks| < MAX_TASKS && priority < PRIORITIES && x < |k.tasks|
    ensures var m := Create(k, priority).0; |m.tasks| == |k.tasks| + 1 && m.tasks[x] == k.tasks[x]
  {
  }

  lemma ReusedRecord(k: Kernel, priority: nat, x: nat)
    requires Partition(k) && |k.tasks| >= MAX_TASKS && priority < PRIORITIES && x < |k.tasks|
    ensures var m := Create(k, priority).0;
            |m.tasks| == |k.tasks| &&
            (m.tasks[x] == k.tasks[x] ||
             (k.tasks[x].state == Free && m.tasks[x] == Newborn(k.tasks[x], k.current, priority)))
  {
    if Chain(k, FreeQ) != [] {
      HeadOf(k, FreeQ);
    }
  }

  lemma CreateEffect(k: Kernel, priority: int, x: nat)
    requires Inv(k) && x < |k.tasks|
    ensures var m := Create(k, priority).0;
            x < |k.tasks| <= |m.tasks| && (x == k.current ==> m.tasks[x] == k.tasks[x]) &&
            (m.tasks[x] == k.tasks[x] || (!Alive(k.tasks[x]) && NewLife(k.tasks[x], m.tasks[x])))
  {
    if 0 <= priority < PRIORITIES {
      if |k.tasks| < MAX_TASKS {
        FreshRecord(k, priority, x);
      } else {
        ReusedRecord(k, priority, x);
      }
    }
  }

  lemma CreateSlot(k: Kernel, priority: int, x: nat)
    requires Inv(k) && |k.tasks| <= x < |Create(k, priority).0.tasks|
    ensures FirstLife(Create(k, priority).0.tasks[x])
  {
    if Chain(k, FreeQ) != [] {
      HeadOf(k, FreeQ);
    }
  }

  lemma CreateEffects(k: Kernel, priority: int)
    requires Inv(k)
    ensures OneRuns(Create(k, priority).0) && Create(k, priority).0.current == k.current
    ensures Me(Create(k, priority).0) == Me(k)
    ensures Effects(k, Syscall(DoCreate(priority)), Create(k, priority).0)
  {
    CreateKeeps(k, priority);
    CreateEffect(k, priority, k.current);
    forall x | 0 <= x < |k.tasks|
      ensures x < |Create(k, priority).0.tasks| && Outcome(k, Syscall(DoCreate(priority)), x, Create(k, priority).0.tasks[x])
    {
      CreateEffect(k, priority, x);
    }
    forall x | |k.tasks| <= x < |Create(k, priority).0.tasks| ensures FirstLife(Create(k, priority).0.tasks[x]) {
      CreateSlot(k, priority, x);
    }
  }

  lemma DeliverEffect(k: Kernel, r: nat, msg: Bytes, cap: nat, x: nat)
    requires OneRuns(k) && r < |k.tasks| && k.tasks[r].state == ReceiveBlocked && x < |k.tasks|
    ensures |Deliver(k, r, msg, cap).tasks| == |k.tasks|
    ensures Outcome(k, Syscall(DoSend(r, msg, cap)), x, Deliver(k, r, msg, cap).tasks[x])
  {
  }

  lemma DeliverEffects(k: Kernel, r: nat, msg: Bytes, cap: nat)
    requires OneRuns(k) && r < |k.tasks| && k.tasks[r].state == ReceiveBlocked
    ensures Effects(k, Syscall(DoSend(r, msg, cap)), Deliver(k, r, msg, cap))
  {
    var i, m := Syscall(DoSend(r, msg, cap)), Deliver(k, r, msg, cap);
    DeliverEffect(k, r, msg, cap, r);
    forall x | 0 <= x < |k.tasks| ensures x < |m.tasks| && Outcome(k, i, x, m.tasks[x]) {
      DeliverEffect(k, r, msg, cap, x);
    }
  }

  lemma EnqueueEffect(k: Kernel, r: nat, msg: Bytes, cap: nat, x: nat)
    requires OneRuns(k) && r < |k.tasks| && Alive(k.tasks[r]) && x < |k.tasks|
    ensures |Enqueue(k, r, msg, cap).tasks| == |k.tasks|
    ensures Outcome(k, Syscall(DoSend(r, msg, cap)), x, Enqueue(k, r, msg, cap).tasks[x])
  {
  }

  lemma EnqueueEffects(k: Kernel, r: nat, msg: Bytes, cap: nat)
    requires OneRuns(k) && r < |k.tasks| && Alive(k.tasks[r])
    ensures Effects(k, Syscall(DoSend(r, msg, cap)), Enqueue(k, r, msg, cap))
  {
    var i, m := Syscall(DoSend(r, msg, cap)), Enqueue(k, r, msg, cap);
    EnqueueEffect(k, r, msg, cap, r);
    forall x | 0 <= x < |k.tasks| ensures x < |m.tasks| && Outcome(k, i, x, m.tasks[x]) {
      EnqueueEffect(k, r, msg, cap, x);
    }
  }

  lemma SendEffects(k: Kernel, tid: int, msg: Bytes, cap: nat)
    requires Inv(k)
    ensures Effects(k, Syscall(DoSend(tid, msg, cap)), Send(k, tid, msg, cap))
  {
    var i := Syscall(DoSend(tid, msg, cap));
    if !Known(k, tid) {
      QuietMove(k, k.current, Woken(Me(k), -1));
      QuietEffects(k, i, Back(k, -1));
    } else if k.tasks[tid].state == ReceiveBlocked {
      DeliverEffects(k, tid, msg, cap);
    } else {
      EnqueueEffects(k, tid, msg, cap);
    }
  }

  /** Taking the first letter changes the receiver and, but for its buffers, the sender. */
  lemma TakenRecords(k: Kernel, cap: nat, x: nat)
    requires Inv(k) && Chain(k, SendQ(k.current)) != [] && x < |k.tasks|
    ensures var l, m := LetterOf(k.tasks, Chain(k, SendQ(k.current))[0]), TakeFirst(k, cap);
            OneRuns(m) && m.current == k.current && |m.tasks| == |k.tasks| &&
            if x == k.current then m.tasks[x] == Opened(k.tasks[x], l, cap) else Accepts(k, k.tasks[x], m.tasks[x])
  {
    TakeKeeps(k, cap);
    HeadOf(k, SendQ(k.current));
  }

  /** The sender of the letter now waits for the reply; nobody else changes. */
  predicate Accepts(k: Kernel, t: Task, u: Task) {
    u == t || (t.state == SendBlocked && u == t.(state := ReplyBlocked, replyWait := k.current))
  }

  /** The records after Receive has found a message. */
  lemma ReceiveRecord(k: Kernel, cap: nat, x: nat)
    requires Inv(k) && Chain(k, SendQ(k.current)) != [] && x < |k.tasks|
    ensures var l, m := LetterOf(k.tasks, Chain(k, SendQ(k.current))[0]), Receive(k, cap);
            |m.tasks| == |k.tasks| &&
            if x == k.current then m.tasks[x] == Woken(Opened(k.tasks[x], l, cap), |l.msg|)
            else Accepts(k, k.tasks[x], m.tasks[x])
  {
    TakenRecords(k, cap, x);
    TakenRecords(k, cap, k.current);
    HeadOf(k, SendQ(k.current));
  }

  lemma OpenedOutcome(k: Kernel, cap: nat, l: Letter)
    requires OneRuns(k) && Chain(k, SendQ(k.current)) != [] && l == LetterOf(k.tasks, Chain(k, SendQ(k.current))[0])
    ensures Outcome(k, Syscall(DoReceive(cap)), k.current, Woken(Opened(Me(k), l, cap), |l.msg|))
  {
    assert Reads(Me(k), Woken(Opened(Me(k), l, cap), |l.msg|), l, cap);
  }

  lemma AcceptsOutcome(k: Kernel, cap: nat, x: nat, u: Task)
    requires OneRuns(k) && x < |k.tasks| && x != k.current && Accepts(k, k.tasks[x], u)
    ensures Outcome(k, Syscall(DoReceive(cap)), x, u)
  {
  }

  lemma ReceiveOutcome(k: Kernel, cap: nat, x: nat)
    requires Inv(k) && Chain(k, SendQ(k.current)) != [] && x < |k.tasks|
    ensures |Receive(k, cap).tasks| == |k.tasks| && Outcome(k, Syscall(DoReceive(cap)), x, Receive(k, cap).tasks[x])
  {
    ReceiveRecord(k, cap, x);
    if x == k.current {
      OpenedOutcome(k, cap, LetterOf(k.tasks, Chain(k, SendQ(k.current))[0]));
    } else {
      AcceptsOutcome(k, cap, x, Receive(k, cap).tasks[x]);
    }
  }

  lemma ReceiveEffects(k: Kernel, cap: nat)
    requires Inv(k)
    ensures Effects(k, Syscall(DoReceive(cap)), Receive(k, cap))
  {
    var i := Syscall(DoReceive(cap));
    if Chain(k, SendQ(k.current)) == [] {
      QuietMove(k, k.current, Listening(Me(k), cap));
      QuietEffects(k, i, Receive(k, cap));
    } else {
      ReceiveOutcome(k, cap, k.current);
      forall x | 0 <= x < |k.tasks| ensures x < |Receive(k, cap).tasks| && Outcome(k, i, x, Receive(k, cap).tasks[x]) {
        ReceiveOutcome(k, cap, x);
      }
    }
  }

  lemma ReplyRecord(k: Kernel, tid: int, reply: Bytes, x: nat)
    requires Inv(k) && x < |k.tasks|
    ensures var m := Reply(k, tid, reply).0;
            m.current == k.current && |m.tasks| == |k.tasks| &&
            (m.tasks[x] == k.tasks[x] ||
             (x == tid && k.tasks[x].state == ReplyBlocked && k.tasks[x].replyWait == k.current &&
              m.tasks[x] == Answered(k.tasks[x], Myself(k), reply)))
  {
  }

  lemma AnsweredOutcome(k: Kernel, tid: int, reply: Bytes, x: nat)
    requires OneRuns(k) && x < |k.tasks| && x == tid && k.tasks[x].state == ReplyBlocked && k.tasks[x].replyWait == k.current
    ensures Outcome(k, Syscall(DoReply(tid, reply)), x, Answered(k.tasks[x], Myself(k), reply))
  {
  }

  lemma ReplyEffect(k: Kernel, tid: int, reply: Bytes, x: nat)
    requires Inv(k) && x < |k.tasks|
    ensures var m := Reply(k, tid, reply).0;
            |m.tasks| == |k.tasks| && Outcome(k, Syscall(DoReply(tid, reply)), x, m.tasks[x])
  {
    ReplyRecord(k, tid, reply, x);
    if Reply(k, tid, reply).0.tasks[x] != k.tasks[x] {
      AnsweredOutcome(k, tid, reply, x);
    }
  }

  lemma ReplyEffects(k: Kernel, tid: int, reply: Bytes)
    requires Inv(k)
    ensures OneRuns(Reply(k, tid, reply).0) && Reply(k, tid, reply).0.current == k.current
    ensures Me(Reply(k, tid, reply).0) == Me(k) && Effects(k, Syscall(DoReply(tid, reply)), Reply(k, tid, reply).0)
  {
    ReplyKeeps(k, tid, reply);
    ReplyRecord(k, tid, reply, k.current);
    forall x | 0 <= x < |k.tasks|
      ensures x < |Reply(k, tid, reply).0.tasks| && Outcome(k, Syscall(DoReply(tid, reply)), x, Reply(k, tid, reply).0.tasks[x])
    {
      ReplyEffect(k, tid, reply, x);
    }
  }

  /** Failing senders one by one: those dealt with have been completed with -2, the others are untouched. */
  predicate Failed(k: Kernel, t: Task, u: Task)
    requires OneRuns(k)
  {
    u == t || (WaitsFor(t, k.current) && u == Completed(t, Myself(k), true, -2))
  }

  ghost predicate AllFailed(k: Kernel, m: Kernel)
    requires OneRuns(k)
  {
    OneRuns(m) && m.current == k.current && Me(m) == Me(k) && |m.tasks| == |k.tasks| &&
    forall x :: 0 <= x < |k.tasks| ==> Failed(k, k.tasks[x], m.tasks[x])
  }

  /** One more sender failed. */
  lemma FirstFailed(k: Kernel, m: Kernel)
    requires OneRuns(k) && SoundBut(m, m.current) && AllFailed(k, m) && Chain(m, SendQ(m.current)) != []
    ensures AllFailed(k, FailFirst(m))
  {
    FailFirstKeeps(m);
    HeadOf(m, SendQ(m.current));
    assert Failed(k, k.tasks[Chain(m, SendQ(m.current))[0]], m.tasks[Chain(m, SendQ(m.current))[0]]);
  }

  lemma {:induction false} SendersFailed(k: Kernel, m: Kernel)
    requires OneRuns(k) && SoundBut(m, m.current) && AllFailed(k, m)
    ensures AllFailed(k, FailSenders(m))
    decreases |Chain(m, SendQ(m.current))|
  {
    if Chain(m, SendQ(m.current)) != [] {
      FirstFailed(k, m);
      FailFirstKeeps(m);
      SendersFailed(k, FailFirst(m));
    }
  }

  lemma {:induction false} OrphansFailed(k: Kernel, m: Kernel, i: nat)
    requires OneRuns(k) && AllFailed(k, m) && i <= |m.tasks| && forall j :: 0 <= j < i ==> !Orphan(m, j)
    ensures AllFailed(k, FailOrphans(m, i))
    decreases |m.tasks| - i
  {
    if i < |m.tasks| {
      FailOrphanFacts(m, i);
      assert Failed(k, k.tasks[i], m.tasks[i]);
      OrphansFailed(k, FailOrphan(m, i), i + 1);
    }
  }

  lemma FailedOutcome(k: Kernel, x: nat, u: Task)
    requires OneRuns(k) && x < |k.tasks| && Failed(k, k.tasks[x], u) && x != k.current
    ensures Outcome(k, Syscall(DoExit), x, u)
  {
  }

  lemma ExitEffects(k: Kernel)
    requires Inv(k)
    ensures Effects(k, Syscall(DoExit), Exit(k))
  {
    SendersFailed(k, k);
    OrphansFailed(k, FailSenders(k), 0);
    var m := FailOrphans(FailSenders(k), 0);
    assert Exit(k).tasks == m.tasks[k.current := Me(k).(state := Free)];
    forall x | 0 <= x < |k.tasks| ensures Outcome(k, Syscall(DoExit), x, Exit(k).tasks[x]) {
      if x != k.current {
        FailedOutcome(k, x, m.tasks[x]);
      }
    }
  }

  // ---------- every dispatch ----------

  lemma YieldQuiet(m: Kernel)
    requires OneRuns(m)
    ensures AllQuiet(m, Yielded(m))
  {
    QuietMove(m, m.current, Me(m).(state := Ready));
  }

  lemma InterruptEffects(k: Kernel, s: seq<Signal>)
    requires Inv(k) && InputOk(Interrupt(s))
    ensures Effects(k, Interrupt(s), Body(k, Interrupt(s)))
  {
    QuietSignals(k, s);
    YieldQuiet(FireAll(k, s));
    QuietTrans(k, FireAll(k, s), Yielded(FireAll(k, s)));
    QuietEffects(k, Interrupt(s), Yielded(FireAll(k, s)));
  }

  lemma AwaitQuiet(k: Kernel, e: int)
    requires Inv(k)
    ensures AllQuiet(k, Await(k, e))
  {
    if !(0 <= e < EVENTS) {
      QuietMove(k, k.current, Woken(Me(k), -1));
    } else if Chain(k, EventQ(e)) != [] {
      QuietMove(k, k.current, Woken(Me(k), -2));
    } else if k.ev.pending[e] > 0 {
      QuietMove(Consumed(k, e), k.current, Woken(Me(k), 0));
    } else {
      QuietMove(k, k.current, Me(k).(state := EventBlocked, at := e));
    }
  }

  lemma BackQuiet(k: Kernel, i: Input, ret: int)
    requires Inv(k) && !Delivers(k, i)
    ensures Effects(k, i, Back(k, ret)) && Effects(k, i, Yielded(k))
  {
    QuietMove(k, k.current, Woken(Me(k), ret));
    QuietEffects(k, i, Back(k, ret));
    QuietMove(k, k.current, Me(k).(state := Ready));
    QuietEffects(k, i, Yielded(k));
  }

  lemma CallEffects(k: Kernel, call: Call)
    requires Inv(k)
    ensures Effects(k, Syscall(call), Body(k, Syscall(call)))
  {
    var i := Syscall(call);
    match call
    case DoCreate(p) =>
      CreateEffects(k, p);
      BackEffects(k, i, Create(k, p).0, Create(k, p).1);
    case DoMyTid => BackQuiet(k, i, k.current);
    case DoMyParentTid => BackQuiet(k, i, ParentOf(k));
    case DoYield => BackQuiet(k, i, 0);
    case DoExit => ExitEffects(k);
    case DoSend(tid, msg, cap) => SendEffects(k, tid, msg, cap);
    case DoReceive(cap) => ReceiveEffects(k, cap);
    case DoReply(tid, reply) =>
      ReplyEffects(k, tid, reply);
      BackEffects(k, i, Reply(k, tid, reply).0, Reply(k, tid, reply).1);
    case DoAwait(e) =>
      AwaitQuiet(k, e);
      QuietEffects(k, i, Await(k, e));
    case Unknown => BackQuiet(k, i, -1);
  }

  lemma BodyEffects(k: Kernel, i: Input)
    requires Inv(k) && InputOk(i)
    ensures Effects(k, i, Body(k, i))
  {
    match i
    case Interrupt(s) => InterruptEffects(k, s);
    case Syscall(call) => CallEffects(k, call);
  }

  /** The tasks after scheduling, but for which of them runs. */
  lemma ScheduledRecord(b: Kernel, x: nat)
    requires Partition(b) && Schedule(b).Some? && x < |b.tasks|
    ensures var m := Schedule(b).value;
            |m.tasks| == |b.tasks| &&
            (m.tasks[x] == b.tasks[x] || (b.tasks[x].state == Ready && m.tasks[x] == b.tasks[x].(state := Running)))
  {
    HeadOf(b, ReadyQ(FirstReady(b, 0)));
  }

  lemma ScheduledOutcome(k: Kernel, i: Input, x: nat, t: Task, u: Task)
    requires OneRuns(k) && x < |k.tasks| && Outcome(k, i, x, t)
    requires u == t || (t.state == Ready && u == t.(state := Running))
    ensures Outcome(k, i, x, u)
  {
  }

  lemma ScheduleEffects(k: Kernel, i: Input, b: Kernel)
    requires OneRuns(k) && Effects(k, i, b) && Partition(b) && Schedule(b).Some?
    ensures Effects(k, i, Schedule(b).value)
  {
    var m := Schedule(b).value;
    HeadOf(b, ReadyQ(FirstReady(b, 0)));
    assert |m.tasks| == |b.tasks|;
    forall x | 0 <= x < |k.tasks| ensures Outcome(k, i, x, m.tasks[x]) {
      ScheduledRecord(b, x);
      ScheduledOutcome(k, i, x, b.tasks[x], m.tasks[x]);
    }
    forall x | |k.tasks| <= x < |m.tasks| ensures FirstLife(m.tasks[x]) {
      ScheduledRecord(b, x);
    }
  }

  /** All that one dispatch does to the tasks. */
  lemma StepOutcomes(k: Kernel, i: Input)
    requires Inv(k) && InputOk(i) && Step(k, i).Some?
    ensures Effects(k, i, Step(k, i).value)
  {
    BodyKeeps(k, i);
    BodyEffects(k, i);
    ScheduleEffects(k, i, Body(k, i));
  }

  /** During one dispatch, and as long as it lives, a task is handed a message only by a send to it or by its
      own receive, and then finds the right bytes, sender and length; its send is completed only by the
      reply of the task it was sent to, with the bytes of that reply, or with -2 because that task exits.
      KernelReceipts shows that a reply comes after the reception. Nothing else touches its buffers. */
  lemma StepEffects(k: Kernel, i: Input, x: nat)
    requires Inv(k) && InputOk(i) && Step(k, i).Some? && x < |k.tasks|
    ensures x < |Step(k, i).value.tasks| && Effect(k, i, x, Step(k, i).value.tasks[x])
  {
    StepOutcomes(k, i);
    assert Outcome(k, i, x, Step(k, i).value.tasks[x]);
  }

  /** During one dispatch a send is entered with its sender and its receiver, or with neither. */
  lemma StepPosts(k: Kernel, i: Input, x: nat)
    requires Inv(k) && InputOk(i) && Step(k, i).Some? && x < |k.tasks|
    ensures x < |Step(k, i).value.tasks| && Posts(k, i, x, Step(k, i).value.tasks[x])
  {
    StepOutcomes(k, i);
    assert Outcome(k, i, x, Step(k, i).value.tasks[x]);
  }
}
