/** The system calls and interrupts of task_manager.c as functions on the kernel state, and the proof that
    each of them keeps the invariant. */
module KernelSteps {
  import opened KernelModel

  datatype Option<T> = None | Some(value: T)

  function Prefix(b: Bytes, n: nat): Bytes {
    if |b| <= n then b else b[..n]
  }

  // ---------- changes of a task record ----------

  /** Ready again, with a value in its first register. */
  function Woken(t: Task, value: int): Task {
    t.(state := Ready, io := t.io.(x0 := value))
  }

  /** Blocked until a message comes for its buffer. */
  function Listening(t: Task, cap: nat): Task {
    t.(state := ReceiveBlocked, io := t.io.(cap := cap))
  }

  /** Sent a letter. */
  function Mailed(t: Task, l: Letter): Task {
    t.(log := t.log.(mail := t.log.mail + [l]))
  }

  /** Has the letter in its buffer. */
  function Opened(t: Task, l: Letter, cap: nat): Task {
    t.(io := t.io.(inbox := Prefix(l.msg, cap), from := l.sender), log := t.log.(read := t.log.read + [l]))
  }

  /** The record of a sender whose send is completed. */
  function Completed(t: Task, who: Who, error: bool, ret: int): Task {
    t.(state := Ready, replyWait := -1, io := t.io.(x0 := ret), log := t.log.(answered := t.log.answered + [Answer(who, error)]))
  }

  /** Completed by a reply. */
  function Answered(t: Task, who: Who, reply: Bytes): Task {
    var c := Completed(t, who, false, |reply|);
    c.(io := c.io.(reply := Prefix(reply, t.io.replyCap)))
  }

  // ---------- scheduling ----------

  /** The first non-empty ready list from `p` on, PRIORITIES if there is none. */
  function FirstReady(k: Kernel, p: nat): (r: nat)
    requires p <= PRIORITIES
    ensures p <= r <= PRIORITIES && (r < PRIORITIES ==> Chain(k, ReadyQ(r)) != [])
    ensures forall i :: p <= i < r ==> Chain(k, ReadyQ(i)) == []
    decreases PRIORITIES - p
  {
    if p == PRIORITIES || Chain(k, ReadyQ(p)) != [] then p else FirstReady(k, p + 1)
  }

  /** schedule and switch_to_task; nothing if no task is ready. */
  ghost function Schedule(k: Kernel): Option<Kernel>
    requires Partition(k)
  {
    var p := FirstReady(k, 0);
    if p == PRIORITIES then None
    else
      HeadOf(k, ReadyQ(p));
      var x := Chain(k, ReadyQ(p))[0];
      Some(Move(k, x, k.tasks[x].(state := Running)).(current := x))
  }

  /** The task that runs after a dispatch was the head of the most urgent ready list. */
  ghost predicate MostUrgent(k: Kernel, m: Kernel) {
    exists p: nat :: p < PRIORITIES && Chain(k, ReadyQ(p)) != [] && m.current == Chain(k, ReadyQ(p))[0] &&
                Chain(m, ReadyQ(p)) == Chain(k, ReadyQ(p))[1..] && forall i :: 0 <= i < p ==> Chain(k, ReadyQ(i)) == []
  }

  lemma ScheduleKeeps(k: Kernel)
    requires Sound(k) && NoneRuns(k) && Schedule(k).Some?
    ensures Inv(Schedule(k).value) && MostUrgent(k, Schedule(k).value) && |Schedule(k).value.tasks| == |k.tasks|
  {
    var p := FirstReady(k, 0);
    HeadOf(k, ReadyQ(p));
    var x := Chain(k, ReadyQ(p))[0];
    var t := k.tasks[x].(state := Running);
    assert Well(k.tasks, x) && MailOk(k, x, k.tasks[x]);
    MoveKeeps(k, x, t, -1);
    var n := Move(k, x, t);
    var m := n.(current := x);
    CurrentIsFree(n, x);
    assert Chain(m, ReadyQ(p)) == Chain(k, ReadyQ(p))[1..] by {
      MovedChain(k, x, t, ReadyQ(p));
    }
  }

  lemma CurrentIsFree(k: Kernel, c: int)
    requires Sound(k)
    ensures Sound(k.(current := c))
  {
    var m := k.(current := c);
    assert forall q :: Chain(m, q) == Chain(k, q);
    forall q, x ensures x in Chain(m, q) <==> Belongs(m, q, x) {
      assert x in Chain(k, q) <==> Belongs(k, q, x);
    }
    forall q | q != FreeQ ensures Get(m.q.put, q) == Get(m.q.got, q) + Chain(m, q) {
      assert Get(k.q.put, q) == Get(k.q.got, q) + Chain(k, q);
    }
    forall e | 0 <= e < EVENTS ensures EventOk(m, e) {
      assert EventOk(k, e);
    }
    forall y | 0 <= y < |m.tasks| ensures MailOk(m, y, m.tasks[y]) {
      assert MailOk(k, y, k.tasks[y]);
    }
  }

  /** No ready task is more urgent than the one that runs. */
  lemma NoneMoreUrgent(k: Kernel, x: nat)
    requires Sound(k) && NoneRuns(k) && Schedule(k).Some? && x < |k.tasks|
    requires var m := Schedule(k).value; x < |m.tasks| && m.tasks[x].state == Ready
    ensures var m := Schedule(k).value; OneRuns(m) && Me(m).priority <= m.tasks[x].priority
  {
    ScheduleKeeps(k);
    var p := FirstReady(k, 0);
    HeadOf(k, ReadyQ(p));
    assert Well(k.tasks, x);
    assert Belongs(k, ReadyQ(k.tasks[x].priority), x);
    assert x in Chain(k, ReadyQ(k.tasks[x].priority));
  }

  // ---------- returning to the caller ----------

  /** The current task becomes ready again, with a return value if the call has one. */
  ghost function Yielded(k: Kernel): Kernel
    requires OneRuns(k)
  {
    Move(k, k.current, Me(k).(state := Ready))
  }

  ghost function Back(k: Kernel, ret: int): Kernel
    requires OneRuns(k)
  {
    Move(k, k.current, Woken(Me(k), ret))
  }

  lemma BackKeeps(k: Kernel, ret: int)
    requires Inv(k)
    ensures Sound(Back(k, ret)) && NoneRuns(Back(k, ret))
  {
    assert Well(k.tasks, k.current) && MailOk(k, k.current, Me(k));
    MoveKeeps(k, k.current, Woken(Me(k), ret), -1);
  }

  lemma YieldKeeps(k: Kernel)
    requires Inv(k)
    ensures Sound(Yielded(k)) && NoneRuns(Yielded(k))
  {
    assert Well(k.tasks, k.current) && MailOk(k, k.current, Me(k));
    MoveKeeps(k, k.current, Me(k).(state := Ready), -1);
  }

  // ---------- Create ----------

  /** A slot of the table that was never used. */
  function Unused(): Task {
    Task(Exited, 0, -1, -1, 0, Io(0, [], 0, 0, [], -1, []), Log(0, [], [], [], []))
  }

  /** init_task_descriptor and the fresh trapframe; the tid starts a new life. */
  function Newborn(was: Task, parent: int, priority: nat): Task {
    Task(Ready, priority, parent, -1, 0, Io(0, [], 0, 0, [], -1, []), Log(was.log.life + 1, was.log.asked, was.log.answered, [], []))
  }

  function Grown(k: Kernel): Kernel {
    k.(tasks := k.tasks + [Unused()])
  }

  /** kern_Create: unused slots first, then the free list. */
  ghost function Create(k: Kernel, priority: int): (r: (Kernel, int))
    requires Partition(k)
  {
    if !(0 <= priority < PRIORITIES) then (k, -1)
    else if |k.tasks| < MAX_TASKS then
      var g := Grown(k);
      (Move(g, |k.tasks|, Newborn(Unused(), k.current, priority)), |k.tasks|)
    else if Chain(k, FreeQ) == [] then (k, -2)
    else
      HeadOf(k, FreeQ);
      var x := Chain(k, FreeQ)[0];
      (Move(k, x, Newborn(k.tasks[x], k.current, priority)), x)
  }

  lemma GrowKeeps(k: Kernel)
    requires Sound(k) && |k.tasks| < MAX_TASKS
    ensures Sound(Grown(k)) && NoneWaitsFor(Grown(k).tasks, |k.tasks|)
  {
    var g := Grown(k);
    assert forall q :: Chain(g, q) == Chain(k, q);
    forall q, x ensures x in Chain(g, q) <==> Belongs(g, q, x) {
      assert x in Chain(k, q) <==> Belongs(k, q, x);
    }
    forall q | q != FreeQ ensures Get(g.q.put, q) == Get(g.q.got, q) + Chain(g, q) {
      assert Get(k.q.put, q) == Get(k.q.got, q) + Chain(k, q);
    }
    forall e | 0 <= e < EVENTS ensures EventOk(g, e) {
      assert EventOk(k, e);
    }
    forall y | 0 <= y < |g.tasks| ensures Well(g.tasks, y) {
      assert y < |k.tasks| ==> Well(k.tasks, y);
    }
    forall y | 0 <= y < |g.tasks| ensures MailOk(g, y, g.tasks[y]) {
      assert y < |k.tasks| ==> MailOk(k, y, k.tasks[y]);
      forall i | 0 <= i < |Chain(k, SendQ(y))|
        ensures LetterOf(g.tasks, Chain(k, SendQ(y))[i]) == LetterOf(k.tasks, Chain(k, SendQ(y))[i])
      {
        assert Belongs(k, SendQ(y), Chain(k, SendQ(y))[i]);
      }
      assert Letters(g.tasks, Chain(g, SendQ(y))) == Letters(k.tasks, Chain(k, SendQ(y)));
    }
    forall y | 0 <= y < |g.tasks| ensures !WaitsFor(g.tasks[y], |k.tasks|) {
      assert y < |k.tasks| ==> Well(k.tasks, y);
    }
  }

  /** Nobody waits for a task that is not alive, and so nobody queues for it. */
  lemma DeadIsLonely(k: Kernel, x: nat)
    requires Partition(k) && AllWell(k.tasks) && x < |k.tasks| && !Alive(k.tasks[x])
    ensures NoneWaitsFor(k.tasks, x) && Chain(k, SendQ(x)) == []
  {
    forall y | 0 <= y < |k.tasks| ensures !WaitsFor(k.tasks[y], x) {
      assert Well(k.tasks, y);
    }
    if Chain(k, SendQ(x)) != [] {
      HeadOf(k, SendQ(x));
      assert WaitsFor(k.tasks[Chain(k, SendQ(x))[0]], x);
    }
  }

  lemma BirthKeeps(k: Kernel, x: nat, parent: int, priority: nat)
    requires Sound(k) && Movable(k, x) && !Alive(k.tasks[x]) && -1 <= parent < |k.tasks| && priority < PRIORITIES
    ensures Sound(Move(k, x, Newborn(k.tasks[x], parent, priority)))
  {
    DeadIsLonely(k, x);
    assert Well(k.tasks, x);
    MoveKeeps(k, x, Newborn(k.tasks[x], parent, priority), -1);
  }

  lemma FreshKeeps(k: Kernel, priority: nat)
    requires Sound(k) && |k.tasks| < MAX_TASKS && -1 <= k.current < |k.tasks| && priority < PRIORITIES
    ensures Sound(Move(Grown(k), |k.tasks|, Newborn(Unused(), k.current, priority)))
  {
    GrowKeeps(k);
    BirthKeeps(Grown(k), |k.tasks|, k.current, priority);
  }

  lemma ReuseKeeps(k: Kernel, priority: nat)
    requires Sound(k) && Chain(k, FreeQ) != [] && -1 <= k.current < |k.tasks| && priority < PRIORITIES
    ensures var x := Chain(k, FreeQ)[0];
            Movable(k, x) && k.tasks[x].state == Free && Sound(Move(k, x, Newborn(k.tasks[x], k.current, priority)))
  {
    HeadOf(k, FreeQ);
    BirthKeeps(k, Chain(k, FreeQ)[0], k.current, priority);
  }

  lemma CreateKeeps(k: Kernel, priority: int)
    requires Sound(k) && (OneRuns(k) || (k.current == -1 && k.tasks == []))
    ensures var m := Create(k, priority).0; Sound(m) && m.current == k.current && (OneRuns(k) ==> OneRuns(m))
  {
    if 0 <= priority < PRIORITIES {
      if |k.tasks| < MAX_TASKS {
        FreshKeeps(k, priority);
      } else if Chain(k, FreeQ) != [] {
        ReuseKeeps(k, priority);
      }
    }
  }

  // ---------- Send ----------

  /** The sender's record once its message is accepted by the present life of `r`. */
  function Asks(k: Kernel, t: Task, r: nat, msg: Bytes, replyCap: nat): Task
    requires r < |k.tasks|
  {
    t.(io := t.io.(msg := msg, replyCap := replyCap),
       log := t.log.(asked := t.log.asked + [Who(r, k.tasks[r].log.life)]))
  }

  /** A receiver that already waits gets the message at once. */
  function Deliver(k: Kernel, r: nat, msg: Bytes, replyCap: nat): Kernel
    requires OneRuns(k) && r < |k.tasks| && k.tasks[r].state == ReceiveBlocked
  {
    Handed(Move(k, k.current, Asks(k, Me(k), r, msg, replyCap).(state := ReplyBlocked, replyWait := r)), r,
           Letter(k.current, msg))
  }

  /** The waiting receiver has the letter and is ready. */
  function Handed(m: Kernel, r: nat, l: Letter): Kernel
    requires r < |m.tasks| && m.tasks[r].state == ReceiveBlocked
  {
    Move(m, r, Woken(Opened(Mailed(m.tasks[r], l), l, m.tasks[r].io.cap), |l.msg|))
  }

  /** Otherwise the sender joins the receiver's queue. */
  function Posted(k: Kernel, r: nat, msg: Bytes): Kernel
    requires OneRuns(k) && r < |k.tasks|
  {
    Touch(k, r, Mailed(k.tasks[r], Letter(k.current, msg)))
  }

  function Enqueue(k: Kernel, r: nat, msg: Bytes, replyCap: nat): Kernel
    requires OneRuns(k) && r < |k.tasks|
  {
    var m := Posted(k, r, msg);
    Move(m, k.current, Asks(m, m.tasks[k.current], r, msg, replyCap).(state := SendBlocked, at := r))
  }

  /** kern_Send and what syscall_dispatch does when it fails. */
  ghost function Send(k: Kernel, tid: int, msg: Bytes, replyCap: nat): Kernel
    requires OneRuns(k)
  {
    if !Known(k, tid) then Back(k, -1)
    else if k.tasks[tid].state == ReceiveBlocked then Deliver(k, tid, msg, replyCap)
    else Enqueue(k, tid, msg, replyCap)
  }

  /** The sender blocks until the reply. */
  lemma SenderBlocks(k: Kernel, r: nat, msg: Bytes, replyCap: nat)
    requires Inv(k) && r < |k.tasks| && Alive(k.tasks[r]) && r != k.current
    ensures var m := Move(k, k.current, Asks(k, Me(k), r, msg, replyCap).(state := ReplyBlocked, replyWait := r));
            Sound(m) && NoneRuns(m)
  {
    var c, t := k.current, Asks(k, Me(k), r, msg, replyCap).(state := ReplyBlocked, replyWait := r);
    assert Well(k.tasks[c := t], c) by {
      assert Well(k.tasks, c);
    }
    assert MailOk(k, c, Me(k)) && MailOk(k, c, t);
    MoveKeeps(k, c, t, -1);
  }

  lemma HandedKeeps(m: Kernel, r: nat, l: Letter)
    requires Sound(m) && r < |m.tasks| && m.tasks[r].state == ReceiveBlocked
    ensures Sound(Handed(m, r, l)) && (NoneRuns(m) ==> NoneRuns(Handed(m, r, l)))
  {
    assert Well(m.tasks, r) && MailOk(m, r, m.tasks[r]);
    assert Letters(m.tasks, Chain(m, SendQ(r))) == [];
    assert m.tasks[r].log.mail == m.tasks[r].log.read;
    MoveKeeps(m, r, Woken(Opened(Mailed(m.tasks[r], l), l, m.tasks[r].io.cap), |l.msg|), -1);
  }

  lemma DeliverKeeps(k: Kernel, r: nat, msg: Bytes, replyCap: nat)
    requires Inv(k) && r < |k.tasks| && k.tasks[r].state == ReceiveBlocked
    ensures Sound(Deliver(k, r, msg, replyCap)) && NoneRuns(Deliver(k, r, msg, replyCap))
  {
    SenderBlocks(k, r, msg, replyCap);
    HandedKeeps(Move(k, k.current, Asks(k, Me(k), r, msg, replyCap).(state := ReplyBlocked, replyWait := r)), r,
                Letter(k.current, msg));
  }

  /** The letter is under way: logged for the receiver, but its sender is not queued yet. */
  ghost predicate UnderWay(m: Kernel, r: nat, l: Letter) {
    SoundBut(m, r) && OneRuns(m) && r < |m.tasks| && Alive(m.tasks[r]) && m.tasks[r].state != ReceiveBlocked &&
    m.tasks[r].log.mail == m.tasks[r].log.read + Letters(m.tasks, Chain(m, SendQ(r))) + [l]
  }

  lemma PostKeeps(k: Kernel, r: nat, msg: Bytes)
    requires Inv(k) && r < |k.tasks| && Alive(k.tasks[r]) && k.tasks[r].state != ReceiveBlocked
    ensures UnderWay(Posted(k, r, msg), r, Letter(k.current, msg))
  {
    var m := Posted(k, r, msg);
    assert MailOk(k, r, k.tasks[r]);
    TouchKeeps(k, r, m.tasks[r]);
    SameLetters(k, r, m.tasks[r], r);
  }

  lemma QueueKeeps(m: Kernel, r: nat, msg: Bytes, replyCap: nat)
    requires m.current >= 0 && UnderWay(m, r, Letter(m.current, msg))
    ensures var n := Move(m, m.current, Asks(m, Me(m), r, msg, replyCap).(state := SendBlocked, at := r));
            SoundBut(n, r) && NoneRuns(n)
  {
    var c := m.current;
    var t := Asks(m, Me(m), r, msg, replyCap).(state := SendBlocked, at := r);
    AskedWell(m, r, t);
    assert c != r ==> MailOk(m, c, Me(m)) && MailOk(m, c, t);
    MoveKeeps(m, c, t, r);
  }

  lemma AskedWell(m: Kernel, r: nat, t: Task)
    requires OneRuns(m) && AllWell(m.tasks) && r < |m.tasks| && Alive(m.tasks[r])
    requires t == Asks(m, Me(m), r, t.io.msg, t.io.replyCap).(state := SendBlocked, at := r)
    ensures Well(m.tasks[m.current := t], m.current)
  {
    assert Well(m.tasks, m.current);
  }

  /** The sender's letter is the last one of the longer queue. */
  lemma QueuedLetter(m: Kernel, r: nat, t: Task)
    requires Partition(m) && OneRuns(m) && Place(t) == SendQ(r)
    ensures var n := Move(m, m.current, t);
            Letters(n.tasks, Chain(n, SendQ(r))) == Letters(m.tasks, Chain(m, SendQ(r))) + [Letter(m.current, t.io.msg)]
  {
    var n := Move(m, m.current, t);
    MovedChain(m, m.current, t, SendQ(r));
    SameLetters(m, m.current, t, r);
    var s := Chain(m, SendQ(r));
    assert Letters(n.tasks, s + [m.current]) == Letters(n.tasks, s) + [LetterOf(n.tasks, m.current)];
  }

  lemma EnqueueKeeps(k: Kernel, r: nat, msg: Bytes, replyCap: nat)
    requires Inv(k) && r < |k.tasks| && Alive(k.tasks[r]) && k.tasks[r].state != ReceiveBlocked
    ensures Sound(Enqueue(k, r, msg, replyCap)) && NoneRuns(Enqueue(k, r, msg, replyCap))
  {
    var m := Posted(k, r, msg);
    PostKeeps(k, r, msg);
    QueueKeeps(m, r, msg, replyCap);
    QueuedLetter(m, r, Asks(m, Me(m), r, msg, replyCap).(state := SendBlocked, at := r));
    AllMail(Enqueue(k, r, msg, replyCap), r);
  }

  // ---------- Receive ----------

  /** The first queued message is taken. */
  ghost function TakeFirst(k: Kernel, cap: nat): Kernel
    requires Partition(k) && OneRuns(k) && Chain(k, SendQ(k.current)) != []
  {
    HeadOf(k, SendQ(k.current));
    var y := Chain(k, SendQ(k.current))[0];
    var m := Move(k, y, k.tasks[y].(state := ReplyBlocked, replyWait := k.current));
    Touch(m, k.current, Opened(m.tasks[k.current], Letter(y, k.tasks[y].io.msg), cap))
  }

  /** kern_Receive and its return to the caller. */
  ghost function Receive(k: Kernel, cap: nat): Kernel
    requires Partition(k) && OneRuns(k)
  {
    if Chain(k, SendQ(k.current)) != [] then
      HeadOf(k, SendQ(k.current));
      var m := TakeFirst(k, cap);
      Back(m, |k.tasks[Chain(k, SendQ(k.current))[0]].io.msg|)
    else Move(k, k.current, Listening(Me(k), cap))
  }

  /** Dequeuing: the first letter of the queue is the dequeued sender's. */
  lemma DequeueLetters(k: Kernel, c: nat, t: Task)
    requires Partition(k) && Chain(k, SendQ(c)) != []
    requires var y := Chain(k, SendQ(c))[0]; y < |k.tasks| && t.io.msg == k.tasks[y].io.msg && Place(t) != SendQ(c)
    ensures var y := Chain(k, SendQ(c))[0];
            Movable(k, y) &&
            var m := Move(k, y, t);
            Letters(k.tasks, Chain(k, SendQ(c))) == [Letter(y, t.io.msg)] + Letters(m.tasks, Chain(m, SendQ(c)))
  {
    var s := Chain(k, SendQ(c));
    HeadOf(k, SendQ(c));
    MovedChain(k, s[0], t, SendQ(c));
    SameLetters(k, s[0], t, c);
    var us := k.tasks[s[0] := t];
    assert Letters(us, s) == [LetterOf(us, s[0])] + Letters(us, s[1..]);
  }

  /** The dequeued sender now waits for the reply of `c`. */
  lemma DequeueKeeps(k: Kernel)
    requires Inv(k) && Chain(k, SendQ(k.current)) != []
    ensures var y := Chain(k, SendQ(k.current))[0];
            Movable(k, y) && y != k.current &&
            var m := Move(k, y, k.tasks[y].(state := ReplyBlocked, replyWait := k.current));
            SoundBut(m, k.current) && OneRuns(m) && m.current == k.current && Me(m) == Me(k)
  {
    HeadOf(k, SendQ(k.current));
    var y := Chain(k, SendQ(k.current))[0];
    assert Well(k.tasks, y) && MailOk(k, y, k.tasks[y]);
    MoveKeeps(k, y, k.tasks[y].(state := ReplyBlocked, replyWait := k.current), k.current);
  }

  /** The receiver has the first letter of its queue. */
  lemma LetterTaken(m: Kernel, c: nat, u: Task, l: Letter)
    requires SoundBut(m, c) && c < |m.tasks| && Alive(u) && u.state != ReceiveBlocked && u.state == m.tasks[c].state
    requires exists cap :: u == Opened(m.tasks[c], l, cap)
    requires m.tasks[c].log.mail == m.tasks[c].log.read + ([l] + Letters(m.tasks, Chain(m, SendQ(c))))
    ensures Sound(Touch(m, c, u))
  {
    TouchKeeps(m, c, u);
    SameLetters(m, c, u, c);
    var n := Touch(m, c, u);
    assert Chain(n, SendQ(c)) == Chain(m, SendQ(c));
    assert u.log.mail == u.log.read + Letters(n.tasks, Chain(n, SendQ(c)));
    AllMail(n, c);
  }

  lemma TakeKeeps(k: Kernel, cap: nat)
    requires Inv(k) && Chain(k, SendQ(k.current)) != []
    ensures Inv(TakeFirst(k, cap))
  {
    var c := k.current;
    var y := Chain(k, SendQ(c))[0];
    HeadOf(k, SendQ(c));
    var t := k.tasks[y].(state := ReplyBlocked, replyWait := c);
    DequeueKeeps(k);
    DequeueLetters(k, c, t);
    var m := Move(k, y, t);
    assert MailOk(k, c, Me(k));
    LetterTaken(m, c, TakeFirst(k, cap).tasks[c], Letter(y, t.io.msg));
  }

  lemma ReceiveKeeps(k: Kernel, cap: nat)
    requires Inv(k)
    ensures Sound(Receive(k, cap)) && NoneRuns(Receive(k, cap))
  {
    if Chain(k, SendQ(k.current)) != [] {
      TakeKeeps(k, cap);
      HeadOf(k, SendQ(k.current));
      BackKeeps(TakeFirst(k, cap), |k.tasks[Chain(k, SendQ(k.current))[0]].io.msg|);
    } else {
      assert Well(k.tasks, k.current) && MailOk(k, k.current, Me(k));
      MoveKeeps(k, k.current, Listening(Me(k), cap), -1);
    }
  }

  // ---------- Reply ----------

  /** The present life of the current task. */
  function Myself(k: Kernel): Who
    requires 0 <= k.current < |k.tasks|
  {
    Who(k.current, Me(k).log.life)
  }

  /** kern_Reply. */
  ghost function Reply(k: Kernel, tid: int, reply: Bytes): (r: (Kernel, int))
    requires OneRuns(k)
  {
    if !Known(k, tid) then (k, -1)
    else if k.tasks[tid].state != ReplyBlocked || k.tasks[tid].replyWait != k.current then (k, -2)
    else
      var t := k.tasks[tid];
      (Move(k, tid, Answered(t, Myself(k), reply)),
       |Prefix(reply, t.io.replyCap)|)
  }

  lemma ReplyKeeps(k: Kernel, tid: int, reply: Bytes)
    requires Inv(k)
    ensures Inv(Reply(k, tid, reply).0)
  {
    if Known(k, tid) && k.tasks[tid].state == ReplyBlocked && k.tasks[tid].replyWait == k.current {
      var t := k.tasks[tid];
      assert Well(k.tasks, tid) && MailOk(k, tid, t);
      MoveKeeps(k, tid, Answered(t, Myself(k), reply), -1);
    }
  }

  // ---------- events ----------

  /** kern_AwaitEvent and its return to the caller. */
  ghost function Await(k: Kernel, e: int): Kernel
    requires OneRuns(k) && EventsOk(k)
  {
    if !(0 <= e < EVENTS) then Back(k, -1)
    else if Chain(k, EventQ(e)) != [] then Back(k, -2)
    else if k.ev.pending[e] > 0 then Back(Consumed(k, e), 0)
    else Move(k, k.current, Me(k).(state := EventBlocked, at := e))
  }

  function Consumed(k: Kernel, e: nat): Kernel
    requires EventsOk(k) && e < EVENTS && k.ev.pending[e] > 0
  {
    var v := k.ev;
    k.(ev := v.(pending := v.pending[e := v.pending[e] - 1], taken := v.taken[e := v.taken[e] + 1]))
  }

  /** An interrupt with nobody waiting; the counter stops at its maximum. */
  function Recorded(k: Kernel, e: nat): Kernel
    requires EventsOk(k) && e < EVENTS
  {
    var v := k.ev.(fired := k.ev.fired[e := k.ev.fired[e] + 1]);
    k.(ev := if v.pending[e] < MAX_PENDING then v.(pending := v.pending[e := v.pending[e] + 1])
             else v.(lost := v.lost[e := v.lost[e] + 1]))
  }

  function Counted(k: Kernel, e: nat): Kernel
    requires EventsOk(k) && e < EVENTS
  {
    var v := k.ev;
    k.(ev := v.(fired := v.fired[e := v.fired[e] + 1], woken := v.woken[e := v.woken[e] + 1]))
  }

  /** handle_timer_interrupt and handle_event_interrupt; `value` is what the woken task gets. */
  ghost function Fire(k: Kernel, e: nat, value: int): Kernel
    requires Partition(k) && EventsOk(k) && e < EVENTS
  {
    if Chain(k, EventQ(e)) == [] then Recorded(k, e)
    else
      HeadOf(k, EventQ(e));
      var x := Chain(k, EventQ(e))[0];
      Move(Counted(k, e), x, Woken(k.tasks[x], value))
  }

  /** Only event counters differ. */
  predicate CountersOnly(k: Kernel, m: Kernel) {
    m == k.(ev := m.ev)
  }

  lemma CountersKeep(k: Kernel, m: Kernel)
    requires Sound(k) && CountersOnly(k, m) && EventsOk(m)
    ensures Sound(m)
  {
    assert forall q :: Chain(m, q) == Chain(k, q);
    forall q, x ensures x in Chain(m, q) <==> Belongs(m, q, x) {
      assert x in Chain(k, q) <==> Belongs(k, q, x);
    }
    forall q | q != FreeQ ensures Get(m.q.put, q) == Get(m.q.got, q) + Chain(m, q) {
      assert Get(k.q.put, q) == Get(k.q.got, q) + Chain(k, q);
    }
    forall y | 0 <= y < |m.tasks| ensures MailOk(m, y, m.tasks[y]) {
      assert MailOk(k, y, k.tasks[y]);
    }
  }

  lemma CountersEventOk(k: Kernel, e: nat)
    requires EventsOk(k) && e < EVENTS && Chain(k, EventQ(e)) == []
    ensures EventsOk(Recorded(k, e)) && (k.ev.pending[e] > 0 ==> EventsOk(Consumed(k, e)))
  {
    forall i | 0 <= i < EVENTS
      ensures EventOk(Recorded(k, e), i) && (k.ev.pending[e] > 0 ==> EventOk(Consumed(k, e), i))
    {
      assert EventOk(k, i);
      assert Chain(Recorded(k, e), EventQ(i)) == Chain(k, EventQ(i));
    }
  }

  lemma CountedEventOk(k: Kernel, e: nat)
    requires EventsOk(k) && e < EVENTS
    ensures EventsOk(Counted(k, e))
  {
    forall i | 0 <= i < EVENTS ensures EventOk(Counted(k, e), i) {
      assert EventOk(k, i);
      assert Chain(Counted(k, e), EventQ(i)) == Chain(k, EventQ(i));
    }
  }

  lemma AwaitKeeps(k: Kernel, e: int)
    requires Inv(k)
    ensures Sound(Await(k, e)) && NoneRuns(Await(k, e))
  {
    if !(0 <= e < EVENTS) {
      BackKeeps(k, -1);
    } else if Chain(k, EventQ(e)) != [] {
      BackKeeps(k, -2);
    } else if k.ev.pending[e] > 0 {
      CountersEventOk(k, e);
      CountersKeep(k, Consumed(k, e));
      BackKeeps(Consumed(k, e), 0);
    } else {
      WaitKeeps(k, e);
    }
  }

  lemma WaitIsGood(k: Kernel, e: nat)
    requires Inv(k) && e < EVENTS && Chain(k, EventQ(e)) == [] && k.ev.pending[e] == 0
    ensures GoodMove(k, k.current, Me(k).(state := EventBlocked, at := e), -1)
  {
    assert Well(k.tasks, k.current) && MailOk(k, k.current, Me(k));
  }

  /** Once the current task gives way, none is running. */
  lemma Parks(k: Kernel, t: Task)
    requires OneRuns(k) && t.state != Running
    ensures NoneRuns(Move(k, k.current, t))
  {
  }

  lemma WaitKeeps(k: Kernel, e: nat)
    requires Inv(k) && e < EVENTS && Chain(k, EventQ(e)) == [] && k.ev.pending[e] == 0
    ensures var m := Move(k, k.current, Me(k).(state := EventBlocked, at := e)); Sound(m) && NoneRuns(m)
  {
    WaitIsGood(k, e);
    Parks(k, Me(k).(state := EventBlocked, at := e));
    MoveKeeps(k, k.current, Me(k).(state := EventBlocked, at := e), -1);
  }

  lemma WakeKeeps(m: Kernel, e: nat, value: int)
    requires Inv(m) && Chain(m, EventQ(e)) != []
    ensures var x := Chain(m, EventQ(e))[0];
            Movable(m, x) && Inv(Move(m, x, Woken(m.tasks[x], value)))
  {
    HeadOf(m, EventQ(e));
    var x := Chain(m, EventQ(e))[0];
    assert Well(m.tasks, x) && MailOk(m, x, m.tasks[x]);
    MoveKeeps(m, x, Woken(m.tasks[x], value), -1);
  }

  lemma FireKeeps(k: Kernel, e: nat, value: int)
    requires Inv(k) && e < EVENTS
    ensures Inv(Fire(k, e, value)) && Fire(k, e, value).current == k.current
  {
    if Chain(k, EventQ(e)) == [] {
      CountersEventOk(k, e);
      CountersKeep(k, Recorded(k, e));
    } else {
      CountedEventOk(k, e);
      CountersKeep(k, Counted(k, e));
      WakeKeeps(Counted(k, e), e, value);
    }
  }

  // ---------- Exit ----------

  /** unblock_sender_with_error for the first task queued for the exiting one. */
  ghost function FailFirst(k: Kernel): Kernel
    requires Partition(k) && OneRuns(k) && Chain(k, SendQ(k.current)) != []
  {
    HeadOf(k, SendQ(k.current));
    var y := Chain(k, SendQ(k.current))[0];
    Move(k, y, Completed(k.tasks[y], Myself(k), true, -2))
  }

  lemma FailFirstKeeps(k: Kernel)
    requires SoundBut(k, k.current) && OneRuns(k) && Chain(k, SendQ(k.current)) != []
    ensures var m := FailFirst(k);
            SoundBut(m, m.current) && OneRuns(m) && m.current == k.current && Me(m) == Me(k) && |m.tasks| == |k.tasks|
    ensures Chain(FailFirst(k), SendQ(k.current)) == Chain(k, SendQ(k.current))[1..]
  {
    HeadOf(k, SendQ(k.current));
    var y := Chain(k, SendQ(k.current))[0];
    assert Well(k.tasks, y) && MailOk(k, y, k.tasks[y]);
    MoveKeeps(k, y, Completed(k.tasks[y], Myself(k), true, -2), k.current);
    MovedChain(k, y, Completed(k.tasks[y], Myself(k), true, -2), SendQ(k.current));
  }

  /** fail_all_senders. */
  ghost function FailSenders(k: Kernel): (m: Kernel)
    requires SoundBut(k, k.current) && OneRuns(k)
    ensures SoundBut(m, m.current) && OneRuns(m) && m.current == k.current && Me(m) == Me(k) && |m.tasks| == |k.tasks|
    ensures Chain(m, SendQ(k.current)) == []
    decreases |Chain(k, SendQ(k.current))|
  {
    if Chain(k, SendQ(k.current)) == [] then k
    else
      FailFirstKeeps(k);
      FailSenders(FailFirst(k))
  }

  /** A task that waits for the exiting one to reply. */
  predicate Orphan(k: Kernel, i: nat) {
    i < |k.tasks| && k.tasks[i].state == ReplyBlocked && k.tasks[i].replyWait == k.current
  }

  function FailOrphan(k: Kernel, i: nat): Kernel
    requires OneRuns(k)
  {
    if Orphan(k, i) then Move(k, i, Completed(k.tasks[i], Myself(k), true, -2)) else k
  }

  lemma OrphanKeeps(k: Kernel, i: nat)
    requires SoundBut(k, k.current) && OneRuns(k) && Orphan(k, i)
    ensures SoundBut(FailOrphan(k, i), k.current)
  {
    assert Well(k.tasks, i) && MailOk(k, i, k.tasks[i]);
    MoveKeeps(k, i, Completed(k.tasks[i], Myself(k), true, -2), k.current);
  }

  lemma FailOrphanKeeps(k: Kernel, i: nat)
    requires SoundBut(k, k.current) && OneRuns(k)
    ensures SoundBut(FailOrphan(k, i), k.current)
  {
    if Orphan(k, i) {
      OrphanKeeps(k, i);
    }
  }

  lemma FailOrphanFacts(k: Kernel, i: nat)
    requires OneRuns(k)
    ensures var m := FailOrphan(k, i); OneRuns(m) && m.current == k.current && Me(m) == Me(k) && |m.tasks| == |k.tasks|
    ensures Chain(FailOrphan(k, i), SendQ(k.current)) == Chain(k, SendQ(k.current))
    ensures !Orphan(FailOrphan(k, i), i) && forall j: nat :: Orphan(FailOrphan(k, i), j) ==> Orphan(k, j)
  {
    if Orphan(k, i) {
      MovedChain(k, i, Completed(k.tasks[i], Myself(k), true, -2), SendQ(k.current));
    }
  }

  /** The loop of kern_Exit over the table. */
  ghost function FailOrphans(k: Kernel, i: nat): (m: Kernel)
    requires OneRuns(k) && i <= |k.tasks| && forall j :: 0 <= j < i ==> !Orphan(k, j)
    ensures OneRuns(m) && m.current == k.current && Me(m) == Me(k) && |m.tasks| == |k.tasks|
    ensures Chain(m, SendQ(k.current)) == Chain(k, SendQ(k.current)) && forall j :: 0 <= j < |m.tasks| ==> !Orphan(m, j)
    decreases |k.tasks| - i
  {
    if i == |k.tasks| then k
    else
      FailOrphanFacts(k, i);
      FailOrphans(FailOrphan(k, i), i + 1)
  }

  lemma {:induction false} FailOrphansKeep(k: Kernel, i: nat)
    requires SoundBut(k, k.current) && OneRuns(k) && i <= |k.tasks| && forall j :: 0 <= j < i ==> !Orphan(k, j)
    ensures SoundBut(FailOrphans(k, i), k.current)
    decreases |k.tasks| - i
  {
    if i < |k.tasks| {
      FailOrphanFacts(k, i);
      FailOrphanKeeps(k, i);
      FailOrphansKeep(FailOrphan(k, i), i + 1);
    }
  }

  /** kern_Exit up to scheduling. */
  ghost function Exit(k: Kernel): Kernel
    requires Inv(k)
  {
    var m := FailOrphans(FailSenders(k), 0);
    Move(m, m.current, Me(m).(state := Free))
  }

  lemma ExitKeeps(k: Kernel)
    requires Inv(k)
    ensures Sound(Exit(k)) && NoneRuns(Exit(k))
  {
    var m := FailOrphans(FailSenders(k), 0);
    FailOrphansKeep(FailSenders(k), 0);
    forall y | 0 <= y < |m.tasks| ensures !WaitsFor(m.tasks[y], m.current) {
      assert !Orphan(m, y);
      assert Belongs(m, SendQ(m.current), y) <==> y in Chain(m, SendQ(m.current));
    }
    assert Well(m.tasks, m.current);
    MoveKeeps(m, m.current, Me(m).(state := Free), m.current);
    AllMail(Exit(k), m.current);
  }
}
