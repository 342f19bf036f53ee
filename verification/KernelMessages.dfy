/** Send, Receive and Reply, in the form of KernelCalls. */
module KernelMessages {
  import opened KernelModel
  import opened KernelSteps
  import opened KernelRuns
  import opened KernelCalls

  // ---------- Send ----------

  /** A tid in use. */
  predicate InUse(k: Kernel, tid: int) {
    0 <= tid < |k.tasks| && k.tasks[tid].state != Free && k.tasks[tid].state != Exited
  }

  /** The caller with its message sent to the present life of `r`. */
  function Sent(t: Task, r: nat, life: nat, msg: Bytes, cap: nat): Task {
    t.(io := t.io.(msg := msg, replyCap := cap), log := t.log.(asked := t.log.asked + [Who(r, life)]))
  }

  /** What fits of a message. */
  function Cut(msg: Bytes, cap: nat): Bytes {
    if cap < |msg| then msg[..cap] else msg
  }

  /** A receiver that gets the letter it waits for, with as many bytes as fit and the length of all. */
  function Delivered(t: Task, from: nat, msg: Bytes): Task {
    t.(state := Ready, io := t.io.(inbox := Cut(msg, t.io.cap), from := from, x0 := |msg|),
       log := t.log.(mail := t.log.mail + [Letter(from, msg)], read := t.log.read + [Letter(from, msg)]))
  }

  /** Sending to a task that waits for a message. */
  function Handing(k: Kernel, r: nat, msg: Bytes, cap: nat): seq<Task>
    requires 0 <= k.current < |k.tasks| && r < |k.tasks|
  {
    k.tasks[k.current := Sent(Me(k), r, k.tasks[r].log.life, msg, cap).(state := ReplyBlocked, replyWait := r)]
           [r := Delivered(k.tasks[r], k.current, msg)]
  }

  /** Sending to any other task: the letter is on its way. */
  function Lettered(k: Kernel, r: nat, msg: Bytes): Task
    requires 0 <= k.current < |k.tasks| && r < |k.tasks|
  {
    k.tasks[r].(log := k.tasks[r].log.(mail := k.tasks[r].log.mail + [Letter(k.current, msg)]))
  }

  function Queueing(k: Kernel, r: nat, msg: Bytes, cap: nat): seq<Task>
    requires 0 <= k.current < |k.tasks| && r < |k.tasks|
  {
    var ts := k.tasks[r := Lettered(k, r, msg)];
    ts[k.current := Sent(ts[k.current], r, k.tasks[r].log.life, msg, cap).(state := SendBlocked, at := r)]
  }

  /** The send queue of `r` with one more task. */
  function LongerQueue(k: Kernel, r: nat): map<QId, seq<nat>>
    requires 0 <= k.current
  {
    map[SendQ(r) := Chain(k, SendQ(r)) + [k.current]]
  }

  lemma DeliverSettles(k: Kernel, r: nat, msg: Bytes, cap: nat)
    requires OneRuns(k) && r < |k.tasks| && k.tasks[r].state == ReceiveBlocked
    ensures Outcome(Handing(k, r, msg, cap), k.ev, [r], map[]) in Settlements(k, Deliver(k, r, msg, cap))
  {
    var t := Sent(Me(k), r, k.tasks[r].log.life, msg, cap).(state := ReplyBlocked, replyWait := r);
    NothingYet(k);
    Blocks(k, k, k.tasks, [], map[], k.current, t);
    var b := Move(k, k.current, t);
    RisesLoose(k, b, k.tasks[k.current := t], [], map[], r, Delivered(k.tasks[r], k.current, msg));
    assert [] + [r] == [r];
  }

  lemma EnqueueSettles(k: Kernel, r: nat, msg: Bytes, cap: nat)
    requires OneRuns(k) && r < |k.tasks|
    ensures Outcome(Queueing(k, r, msg, cap), k.ev, [], LongerQueue(k, r)) in Settlements(k, Enqueue(k, r, msg, cap))
  {
    var b, ts := Posted(k, r, msg), k.tasks[r := Lettered(k, r, msg)];
    NothingYet(k);
    Stays(k, k, k.tasks, [], map[], r, Lettered(k, r, msg));
    Blocks(k, b, ts, [], map[], k.current,
           Sent(ts[k.current], r, k.tasks[r].log.life, msg, cap).(state := SendBlocked, at := r));
  }

  lemma SendIs(k: Kernel, tid: int, msg: Bytes, cap: nat)
    requires OneRuns(k)
    ensures Send(k, tid, msg, cap) ==
              if !InUse(k, tid) then Back(k, -1)
              else if k.tasks[tid].state == ReceiveBlocked then Deliver(k, tid, msg, cap)
              else Enqueue(k, tid, msg, cap)
  {
  }

  /** What Send comes to. */
  lemma SendBody(k: Kernel, tid: int, msg: Bytes, cap: nat)
    requires k in States()
    ensures var b := Body(k, Syscall(DoSend(tid, msg, cap)));
            if !InUse(k, tid) then b == Back(k, -1)
            else if k.tasks[tid].state == ReceiveBlocked then b == Deliver(k, tid, msg, cap)
            else b == Enqueue(k, tid, msg, cap)
  {
    SendIs(k, tid, msg, cap);
  }

  lemma SendRefused(k: Kernel, tid: int, msg: Bytes, cap: nat, m: Kernel)
    requires k in States() && Leads(k, Syscall(DoSend(tid, msg, cap)), m) && !InUse(k, tid)
    ensures OnlyReturns(k, m, -1)
  {
    SendBody(k, tid, msg, cap);
    OnlyBack(k, Syscall(DoSend(tid, msg, cap)), -1);
    ReturnsOnly(k, Syscall(DoSend(tid, msg, cap)), m, -1);
  }

  lemma SendDelivers(k: Kernel, tid: int, msg: Bytes, cap: nat)
    requires k in States() && InUse(k, tid) && k.tasks[tid].state == ReceiveBlocked
    ensures Outcome(Handing(k, tid, msg, cap), k.ev, [tid], map[]) in Handled(k, Syscall(DoSend(tid, msg, cap)))
  {
    SendBody(k, tid, msg, cap);
    DeliverSettles(k, tid, msg, cap);
    ByBody(k, Syscall(DoSend(tid, msg, cap)), Deliver(k, tid, msg, cap),
           Outcome(Handing(k, tid, msg, cap), k.ev, [tid], map[]));
  }

  lemma SendQueues(k: Kernel, tid: int, msg: Bytes, cap: nat)
    requires k in States() && InUse(k, tid) && k.tasks[tid].state != ReceiveBlocked
    ensures Outcome(Queueing(k, tid, msg, cap), k.ev, [], LongerQueue(k, tid)) in
              Handled(k, Syscall(DoSend(tid, msg, cap)))
  {
    SendBody(k, tid, msg, cap);
    EnqueueSettles(k, tid, msg, cap);
    ByBody(k, Syscall(DoSend(tid, msg, cap)), Enqueue(k, tid, msg, cap),
           Outcome(Queueing(k, tid, msg, cap), k.ev, [], LongerQueue(k, tid)));
  }

  /** Send: -1 for a tid that is not in use. A receiver that waits for a message gets it and joins its ready list, and
      the caller waits for the reply; otherwise the caller joins the end of the receiver's queue. */
  lemma SendCall(k: Kernel, tid: int, msg: Bytes, cap: nat, m: Kernel)
    requires Inv(k) && Leads(k, Syscall(DoSend(tid, msg, cap)), m)
    ensures 0 <= k.current < |k.tasks|
    ensures if !InUse(k, tid) then OnlyReturns(k, m, -1)
            else if k.tasks[tid].state == ReceiveBlocked then
              Dispatches(k, m, Outcome(Handing(k, tid, msg, cap), k.ev, [tid], map[]))
            else Dispatches(k, m, Outcome(Queueing(k, tid, msg, cap), k.ev, [], LongerQueue(k, tid)))
  {
    var i := Syscall(DoSend(tid, msg, cap));
    if !InUse(k, tid) {
      SendRefused(k, tid, msg, cap, m);
    } else if k.tasks[tid].state == ReceiveBlocked {
      SendDelivers(k, tid, msg, cap);
      Concludes(k, i, m, Outcome(Handing(k, tid, msg, cap), k.ev, [tid], map[]));
    } else {
      SendQueues(k, tid, msg, cap);
      Concludes(k, i, m, Outcome(Queueing(k, tid, msg, cap), k.ev, [], LongerQueue(k, tid)));
    }
  }

  // ---------- Receive ----------

  /** The first sender of the caller's queue has its letter read and waits for the reply; the caller returns. */
  function Reading(k: Kernel, y: nat, cap: nat): seq<Task>
    requires 0 <= k.current < |k.tasks| && y < |k.tasks|
  {
    var c, msg, t := k.current, k.tasks[y].io.msg, Me(k);
    var u := t.(io := t.io.(inbox := Cut(msg, cap), from := y), log := t.log.(read := t.log.read + [Letter(y, msg)]));
    k.tasks[y := k.tasks[y].(state := ReplyBlocked, replyWait := c)][c := Returning(u, |msg|)]
  }

  /** The caller's queue without its first task. */
  function ShorterQueue(k: Kernel): map<QId, seq<nat>>
    requires 0 <= k.current && Chain(k, SendQ(k.current)) != []
  {
    map[SendQ(k.current) := Chain(k, SendQ(k.current))[1..]]
  }

  /** The caller waits for a message. */
  function Waiting(k: Kernel, cap: nat): seq<Task>
    requires 0 <= k.current < |k.tasks|
  {
    k.tasks[k.current := Me(k).(state := ReceiveBlocked, io := Me(k).io.(cap := cap))]
  }

  lemma TakeSettles(k: Kernel, cap: nat, y: nat)
    requires OneRuns(k) && Partition(k) && Chain(k, SendQ(k.current)) != [] && y == Chain(k, SendQ(k.current))[0]
    ensures y < |k.tasks| && OneRuns(TakeFirst(k, cap)) && TakeFirst(k, cap).current == k.current != y
    ensures TakeFirst(k, cap).ev == k.ev
    ensures var t, msg := Me(k), k.tasks[y].io.msg;
            var u := t.(io := t.io.(inbox := Cut(msg, cap), from := y),
                        log := t.log.(read := t.log.read + [Letter(y, msg)]));
            var s := k.tasks[y].(state := ReplyBlocked, replyWait := k.current);
            Settles(k, TakeFirst(k, cap), k.tasks[y := s][k.current := u],
                    [], ShorterQueue(k))
  {
    HeadOf(k, SendQ(k.current));
    var t, msg, s := Me(k), k.tasks[y].io.msg, k.tasks[y].(state := ReplyBlocked, replyWait := k.current);
    var u := t.(io := t.io.(inbox := Cut(msg, cap), from := y), log := t.log.(read := t.log.read + [Letter(y, msg)]));
    NothingYet(k);
    Blocks(k, k, k.tasks, [], map[], y, s);
    Stays(k, Move(k, y, s), k.tasks[y := s], [], ShorterQueue(k), k.current, u);
  }

  lemma ReadingSettles(k: Kernel, cap: nat, y: nat)
    requires OneRuns(k) && Partition(k) && Chain(k, SendQ(k.current)) != [] && y == Chain(k, SendQ(k.current))[0]
    ensures y < |k.tasks|
    ensures Outcome(Reading(k, y, cap), k.ev, [k.current], ShorterQueue(k)) in Settlements(k, Receive(k, cap))
  {
    TakeSettles(k, cap, y);
    var b := TakeFirst(k, cap);
    var v := |k.tasks[y].io.msg|;
    Returns(k, b, b.tasks, [], ShorterQueue(k), v);
    assert [] + [k.current] == [k.current];
    assert b.tasks[k.current := Returning(b.tasks[k.current], v)] == Reading(k, y, cap);
    IsSettlement(k, Receive(k, cap), Reading(k, y, cap), [k.current], ShorterQueue(k),
                 Outcome(Reading(k, y, cap), k.ev, [k.current], ShorterQueue(k)));
  }

  lemma WaitingSettles(k: Kernel, cap: nat)
    requires OneRuns(k) && Partition(k) && Chain(k, SendQ(k.current)) == []
    ensures Outcome(Waiting(k, cap), k.ev, [], map[]) in Settlements(k, Receive(k, cap))
  {
    NothingYet(k);
    Blocks(k, k, k.tasks, [], map[], k.current, Listening(Me(k), cap));
  }

  lemma ReceiveWaits(k: Kernel, cap: nat)
    requires k in States() && Chain(k, SendQ(k.current)) == []
    ensures Outcome(Waiting(k, cap), k.ev, [], map[]) in Handled(k, Syscall(DoReceive(cap)))
  {
    WaitingSettles(k, cap);
    ReceiveBody(k, Syscall(DoReceive(cap)), Body(k, Syscall(DoReceive(cap))));
    ByBody(k, Syscall(DoReceive(cap)), Receive(k, cap), Outcome(Waiting(k, cap), k.ev, [], map[]));
  }

  lemma ReceiveSettles(k: Kernel, cap: nat, y: nat)
    requires k in States() && Chain(k, SendQ(k.current)) != [] && y == Chain(k, SendQ(k.current))[0]
    ensures y < |k.tasks|
    ensures Outcome(Reading(k, y, cap), k.ev, [k.current], ShorterQueue(k)) in Settlements(k, Receive(k, cap))
  {
    ReadingSettles(k, cap, y);
  }

  lemma ReceiveReads(k: Kernel, cap: nat, y: nat)
    requires k in States() && Chain(k, SendQ(k.current)) != [] && y == Chain(k, SendQ(k.current))[0]
    ensures y < |k.tasks|
    ensures Outcome(Reading(k, y, cap), k.ev, [k.current], ShorterQueue(k)) in Handled(k, Syscall(DoReceive(cap)))
  {
    ReceiveSettles(k, cap, y);
    ReceiveBody(k, Syscall(DoReceive(cap)), Body(k, Syscall(DoReceive(cap))));
    ByBody(k, Syscall(DoReceive(cap)), Receive(k, cap),
           Outcome(Reading(k, y, cap), k.ev, [k.current], ShorterQueue(k)));
  }

  /** Receive: the letter of the first task in the caller's queue, which then waits for the reply; if there is none the
      caller waits. */
  lemma ReceiveCall(k: Kernel, cap: nat, m: Kernel)
    requires Inv(k) && Leads(k, Syscall(DoReceive(cap)), m)
    ensures 0 <= k.current < |k.tasks|
    ensures var s := Chain(k, SendQ(k.current));
            if s == [] then Dispatches(k, m, Outcome(Waiting(k, cap), k.ev, [], map[]))
            else s[0] < |k.tasks| &&
                 Dispatches(k, m, Outcome(Reading(k, s[0], cap), k.ev, [k.current], ShorterQueue(k)))
  {
    var i, s := Syscall(DoReceive(cap)), Chain(k, SendQ(k.current));
    if s == [] {
      ReceiveWaits(k, cap);
      Concludes(k, i, m, Outcome(Waiting(k, cap), k.ev, [], map[]));
    } else {
      ReceiveReads(k, cap, s[0]);
      Concludes(k, i, m, Outcome(Reading(k, s[0], cap), k.ev, [k.current], ShorterQueue(k)));
    }
  }

  // ---------- Reply ----------

  /** A sender whose send has been completed by the caller, with as much of the reply as fits and its whole length. */
  function Replied(t: Task, who: Who, reply: Bytes): Task {
    t.(state := Ready, replyWait := -1, io := t.io.(x0 := |reply|, reply := Cut(reply, t.io.replyCap)),
       log := t.log.(answered := t.log.answered + [Answer(who, false)]))
  }

  /** The sender is ready, and the caller is told how many bytes it got. */
  function Replying(k: Kernel, x: nat, reply: Bytes): seq<Task>
    requires 0 <= k.current < |k.tasks| && x < |k.tasks|
  {
    k.tasks[x := Replied(k.tasks[x], Who(k.current, Me(k).log.life), reply)]
           [k.current := Returning(Me(k), |Cut(reply, k.tasks[x].io.replyCap)|)]
  }

  lemma ReplyIs(k: Kernel, tid: int, reply: Bytes)
    requires OneRuns(k)
    ensures !InUse(k, tid) ==> Reply(k, tid, reply) == (k, -1)
    ensures InUse(k, tid) && !(k.tasks[tid].state == ReplyBlocked && k.tasks[tid].replyWait == k.current) ==>
              Reply(k, tid, reply) == (k, -2)
  {
  }

  /** The state in which the caller has been told what Reply returns. */
  ghost function AfterReply(k: Kernel, tid: int, reply: Bytes): Kernel
    requires OneRuns(k) && OneRuns(Reply(k, tid, reply).0)
  {
    Back(Reply(k, tid, reply).0, Reply(k, tid, reply).1)
  }

  lemma ReplyBody(k: Kernel, tid: int, reply: Bytes)
    requires k in States()
    ensures OneRuns(Reply(k, tid, reply).0) && Body(k, Syscall(DoReply(tid, reply))) == AfterReply(k, tid, reply)
  {
    ReplyKeeps(k, tid, reply);
  }

  lemma ReplyIsMove(k: Kernel, x: nat, reply: Bytes)
    requires OneRuns(k) && x < |k.tasks| && k.tasks[x].state == ReplyBlocked && k.tasks[x].replyWait == k.current
    ensures Movable(k, x)
    ensures Reply(k, x, reply) == (Move(k, x, Replied(k.tasks[x], Who(k.current, Me(k).log.life), reply)),
                                   |Cut(reply, k.tasks[x].io.replyCap)|)
  {
  }

  lemma ReplySettles(k: Kernel, x: nat, reply: Bytes)
    requires OneRuns(k) && x < |k.tasks| && k.tasks[x].state == ReplyBlocked && k.tasks[x].replyWait == k.current
    ensures OneRuns(Reply(k, x, reply).0)
    ensures Outcome(Replying(k, x, reply), k.ev, [x, k.current], map[]) in Settlements(k, AfterReply(k, x, reply))
  {
    ReplyIsMove(k, x, reply);
    TwoReady(k, x, Replied(k.tasks[x], Who(k.current, Me(k).log.life), reply), |Cut(reply, k.tasks[x].io.replyCap)|);
    IsSettlement(k, AfterReply(k, x, reply), Replying(k, x, reply), [x, k.current], map[],
                 Outcome(Replying(k, x, reply), k.ev, [x, k.current], map[]));
  }

  lemma ReplyRefused(k: Kernel, tid: int, reply: Bytes, value: int)
    requires k in States() && Reply(k, tid, reply) == (k, value)
    ensures HandledByReturn(k, Syscall(DoReply(tid, reply)), value)
  {
    OnlyBack(k, Syscall(DoReply(tid, reply)), value);
  }

  lemma ReplyAnswers(k: Kernel, x: nat, reply: Bytes)
    requires k in States() && x < |k.tasks| && k.tasks[x].state == ReplyBlocked && k.tasks[x].replyWait == k.current
    ensures Outcome(Replying(k, x, reply), k.ev, [x, k.current], map[]) in Handled(k, Syscall(DoReply(x, reply)))
  {
    ReplyBody(k, x, reply);
    ReplySettles(k, x, reply);
    ByBody(k, Syscall(DoReply(x, reply)), AfterReply(k, x, reply),
           Outcome(Replying(k, x, reply), k.ev, [x, k.current], map[]));
  }

  /** Reply: -1 for a tid that is not in use, -2 for a task that does not wait for the caller's reply; otherwise the
      task and then the caller join their ready lists. */
  lemma ReplyCall(k: Kernel, tid: int, reply: Bytes, m: Kernel)
    requires Inv(k) && Leads(k, Syscall(DoReply(tid, reply)), m)
    ensures 0 <= k.current < |k.tasks|
    ensures if !InUse(k, tid) then OnlyReturns(k, m, -1)
            else if !(k.tasks[tid].state == ReplyBlocked && k.tasks[tid].replyWait == k.current) then
              OnlyReturns(k, m, -2)
            else Dispatches(k, m, Outcome(Replying(k, tid, reply), k.ev, [tid, k.current], map[]))
  {
    var i := Syscall(DoReply(tid, reply));
    ReplyIs(k, tid, reply);
    if !InUse(k, tid) {
      ReplyRefused(k, tid, reply, -1);
      ReturnsOnly(k, i, m, -1);
    } else if !(k.tasks[tid].state == ReplyBlocked && k.tasks[tid].replyWait == k.current) {
      ReplyRefused(k, tid, reply, -2);
      ReturnsOnly(k, i, m, -2);
    } else {
      ReplyAnswers(k, tid, reply);
      Concludes(k, i, m, Outcome(Replying(k, tid, reply), k.ev, [tid, k.current], map[]));
    }
  }
}
