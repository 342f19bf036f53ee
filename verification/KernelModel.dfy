/** The kernel's task table as a state machine: one step per system call or interrupt. All queues share
    the one place a task can be in, as all chains share the one `next` field. */
module KernelModel {

  const MAX_TASKS: nat := 4096
  const PRIORITIES: nat := 32
  const EVENTS: nat := 5
  const MAX_PENDING: nat := 0xFFFF_FFFF

  type Bytes = seq<bv8>

  datatype State = Free | Ready | Running | Exited | SendBlocked | ReceiveBlocked | ReplyBlocked | EventBlocked

  /** The chains: the ready lists, the send queue of each task, the event slots and the free list. */
  datatype QId = ReadyQ(prio: nat) | SendQ(to: nat) | EventQ(event: nat) | FreeQ | Nowhere

  /** One life of a task: a tid can be used again. */
  datatype Who = Who(tid: int, life: nat)

  datatype Answer = Answer(who: Who, error: bool)

  datatype Letter = Letter(sender: nat, msg: Bytes)

  /** The message and reply buffers of a task, and the first register of its trapframe. */
  datatype Io = Io(x0: int, msg: Bytes, replyCap: nat, cap: nat, inbox: Bytes, from: int, reply: Bytes)

  /** History: `life` counts the uses of the tid; `asked` and `answered` are the accepted sends and their
      completions; `mail` and `read` are the messages sent to and received by this life. */
  datatype Log = Log(life: nat, asked: seq<Who>, answered: seq<Answer>, mail: seq<Letter>, read: seq<Letter>)

  /** TaskDescriptor_t. `at` is where a blocked task waits: the receiver of its message or its event. */
  datatype Task = Task(state: State, priority: nat, parent: int, replyWait: int, at: nat, io: Io, log: Log)

  /** The chains; `put` and `got` log what entered and left each of them. */
  datatype Queues = Queues(chains: map<QId, seq<nat>>, put: map<QId, seq<nat>>, got: map<QId, seq<nat>>)

  /** The event counters; `fired`, `woken`, `taken` and `lost` count interrupts and what became of them. */
  datatype Events = Events(pending: seq<nat>, fired: seq<nat>, woken: seq<nat>, taken: seq<nat>, lost: seq<nat>)

  /** TaskManager_t and TaskScheduler_t. */
  datatype Kernel = Kernel(tasks: seq<Task>, q: Queues, ev: Events, current: int)

  function Get(m: map<QId, seq<nat>>, q: QId): seq<nat> {
    if q in m then m[q] else []
  }

  function Chain(k: Kernel, q: QId): seq<nat> {
    Get(k.q.chains, q)
  }

  /** The chain a task belongs in. */
  function Place(t: Task): QId {
    match t.state
    case Ready => ReadyQ(t.priority)
    case SendBlocked => SendQ(t.at)
    case EventBlocked => EventQ(t.at)
    case Free => FreeQ
    case _ => Nowhere
  }

  predicate Alive(t: Task) {
    t.state != Free && t.state != Exited
  }

  /** get_task_by_tid finds a task. */
  predicate Known(k: Kernel, tid: int) {
    0 <= tid < |k.tasks| && Alive(k.tasks[tid])
  }

  // ---------- moving a task ----------

  function Leave(k: Kernel, q: QId): Kernel
    requires Chain(k, q) != []
  {
    k.(q := Queues(k.q.chains[q := Chain(k, q)[1..]], k.q.put, k.q.got[q := Get(k.q.got, q) + [Chain(k, q)[0]]]))
  }

  /** Chains grow at the tail, but the free list is a stack. */
  function Joined(q: QId, s: seq<nat>, x: nat): seq<nat> {
    if q == FreeQ then [x] + s else s + [x]
  }

  function Join(k: Kernel, q: QId, x: nat): Kernel {
    k.(q := Queues(k.q.chains[q := Joined(q, Chain(k, q), x)], k.q.put[q := Get(k.q.put, q) + [x]], k.q.got))
  }

  /** `x` is in no chain, or at the head of one. */
  predicate Movable(k: Kernel, x: nat) {
    x < |k.tasks| && (Place(k.tasks[x]) != Nowhere ==>
                        Chain(k, Place(k.tasks[x])) != [] && Chain(k, Place(k.tasks[x]))[0] == x)
  }

  /** Task `x` gets the record `t` and moves to the chain that belongs to it. */
  function Move(k: Kernel, x: nat, t: Task): Kernel
    requires Movable(k, x)
  {
    var l := if Place(k.tasks[x]) == Nowhere then k else Leave(k, Place(k.tasks[x]));
    var m := l.(tasks := k.tasks[x := t]);
    if Place(t) == Nowhere then m else Join(m, Place(t), x)
  }

  /** Task `x` gets the record `t` and stays where it is. */
  function Touch(k: Kernel, x: nat, t: Task): Kernel
    requires x < |k.tasks| && Place(t) == Place(k.tasks[x])
  {
    k.(tasks := k.tasks[x := t])
  }

  // ---------- the partition ----------

  predicate NoDup(s: seq<nat>) {
    forall i, j :: 0 <= i < j < |s| ==> s[i] != s[j]
  }

  predicate Belongs(k: Kernel, q: QId, x: nat) {
    x < |k.tasks| && Place(k.tasks[x]) == q && q != Nowhere
  }

  /** The chains are pairwise disjoint, without repetition, and hold exactly the tasks whose state says so;
      an event slot holds at most one task. */
  ghost predicate Partition(k: Kernel) {
    (forall q, x :: x in Chain(k, q) <==> Belongs(k, q, x)) &&
    (forall q :: NoDup(Chain(k, q))) &&
    (forall e :: |Chain(k, EventQ(e))| <= 1)
  }

  /** The chains after a move. */
  lemma MovedChain(k: Kernel, x: nat, t: Task, q: QId)
    requires Movable(k, x)
    ensures var a := Place(k.tasks[x]);
            var rest := if a == q && q != Nowhere then Chain(k, q)[1..] else Chain(k, q);
            Chain(Move(k, x, t), q) == if Place(t) == q && q != Nowhere then Joined(q, rest, x) else rest
  {
  }

  lemma MoveKeepsPartition(k: Kernel, x: nat, t: Task)
    requires Partition(k) && Movable(k, x)
    requires Place(t).EventQ? ==> Place(k.tasks[x]) != Place(t) && Chain(k, Place(t)) == []
    ensures Partition(Move(k, x, t))
  {
    var m := Move(k, x, t);
    forall q ensures NoDup(Chain(m, q)) && forall y :: y in Chain(m, q) <==> Belongs(m, q, y) {
      MovedChain(k, x, t, q);
      MovedMembers(k, x, t, q);
    }
    forall e ensures |Chain(m, EventQ(e))| <= 1 {
      MovedChain(k, x, t, EventQ(e));
    }
  }

  lemma DropHead(s: seq<nat>)
    requires NoDup(s) && s != []
    ensures NoDup(s[1..]) && forall y: nat :: y in s[1..] <==> y in s && y != s[0]
  {
    assert s == [s[0]] + s[1..];
  }

  lemma AddOne(q: QId, s: seq<nat>, x: nat)
    requires NoDup(s) && x !in s
    ensures NoDup(Joined(q, s, x)) && forall y: nat :: y in Joined(q, s, x) <==> y in s || y == x
  {
  }

  lemma MovedMembers(k: Kernel, x: nat, t: Task, q: QId)
    requires Partition(k) && Movable(k, x)
    ensures var m := Move(k, x, t); NoDup(Chain(m, q)) && forall y :: y in Chain(m, q) <==> Belongs(m, q, y)
  {
    var a, m := Place(k.tasks[x]), Move(k, x, t);
    var rest := if a == q && q != Nowhere then Chain(k, q)[1..] else Chain(k, q);
    MovedChain(k, x, t, q);
    assert x in Chain(k, q) <==> Belongs(k, q, x);
    if a == q && q != Nowhere {
      DropHead(Chain(k, q));
    }
    if Place(t) == q && q != Nowhere {
      AddOne(q, rest, x);
    }
    forall y: nat ensures y in Chain(m, q) <==> Belongs(m, q, y) {
      assert y in Chain(k, q) <==> Belongs(k, q, y);
    }
  }

  lemma TouchKeepsPartition(k: Kernel, x: nat, t: Task)
    requires Partition(k) && x < |k.tasks| && Place(t) == Place(k.tasks[x])
    ensures Partition(Touch(k, x, t))
  {
    var m := Touch(k, x, t);
    forall q, y ensures y in Chain(m, q) <==> Belongs(m, q, y) {
      assert y in Chain(k, q) <==> Belongs(k, q, y);
    }
    forall q ensures NoDup(Chain(m, q)) {
      assert Chain(m, q) == Chain(k, q);
    }
    forall e ensures |Chain(m, EventQ(e))| <= 1 {
      assert Chain(m, EventQ(e)) == Chain(k, EventQ(e));
    }
  }

  /** The head of a chain can be moved, and its state says which chain it is. */
  lemma HeadOf(k: Kernel, q: QId)
    requires Partition(k) && Chain(k, q) != []
    ensures Movable(k, Chain(k, q)[0]) && Place(k.tasks[Chain(k, q)[0]]) == q != Nowhere
  {
    assert Chain(k, q)[0] in Chain(k, q);
  }

  // ---------- first in, first out ----------

  /** All that entered a chain has left it in the same order or is still in it in that order. */
  ghost predicate Fifo(k: Kernel) {
    forall q :: q != FreeQ ==> Get(k.q.put, q) == Get(k.q.got, q) + Chain(k, q)
  }

  lemma Shift(a: seq<nat>, x: nat, b: seq<nat>)
    ensures a + ([x] + b) == (a + [x]) + b
  {
  }

  lemma Extend(a: seq<nat>, b: seq<nat>, x: nat)
    ensures (a + b) + [x] == a + (b + [x])
  {
  }

  lemma MovedLogs(k: Kernel, x: nat, t: Task, q: QId)
    requires Movable(k, x) && Get(k.q.put, q) == Get(k.q.got, q) + Chain(k, q) && q != FreeQ
    ensures var m := Move(k, x, t); Get(m.q.put, q) == Get(m.q.got, q) + Chain(m, q)
  {
    var leaves := Place(k.tasks[x]) == q && q != Nowhere;
    var rest := if leaves then Chain(k, q)[1..] else Chain(k, q);
    var got := if leaves then Get(k.q.got, q) + [x] else Get(k.q.got, q);
    MovedChain(k, x, t, q);
    if leaves {
      assert Chain(k, q) == [x] + rest;
      Shift(Get(k.q.got, q), x, rest);
    }
    assert Get(k.q.put, q) == got + rest;
    Extend(got, rest, x);
  }

  lemma MoveKeepsFifo(k: Kernel, x: nat, t: Task)
    requires Fifo(k) && Movable(k, x)
    ensures Fifo(Move(k, x, t))
  {
    var m := Move(k, x, t);
    forall q | q != FreeQ ensures Get(m.q.put, q) == Get(m.q.got, q) + Chain(m, q) {
      assert Get(k.q.put, q) == Get(k.q.got, q) + Chain(k, q);
      MovedLogs(k, x, t, q);
    }
  }

  // ---------- what every task keeps ----------

  predicate Asking(t: Task) {
    t.state == SendBlocked || t.state == ReplyBlocked
  }

  /** Every accepted send has been completed once, by the task it was sent to, except the one that a
      blocked task still waits for. */
  predicate Settled(t: Task) {
    |t.log.asked| == |t.log.answered| + (if Asking(t) then 1 else 0) &&
    forall i :: 0 <= i < |t.log.answered| ==> t.log.answered[i].who == t.log.asked[i]
  }

  /** The task waits for `r`, which lives, and in the very life that it sent its message to. */
  predicate Awaits(ts: seq<Task>, t: Task, r: int) {
    0 <= r < |ts| && Alive(ts[r]) && |t.log.asked| > 0 && t.log.asked[|t.log.asked| - 1] == Who(r, ts[r].log.life)
  }

  predicate Well(ts: seq<Task>, x: nat)
    requires x < |ts|
  {
    var t := ts[x];
    t.priority < PRIORITIES && -1 <= t.parent < |ts| && Settled(t) &&
    (t.state == EventBlocked ==> t.at < EVENTS) &&
    (t.state == SendBlocked ==> Awaits(ts, t, t.at)) &&
    (if t.state == ReplyBlocked then Awaits(ts, t, t.replyWait) else t.replyWait == -1)
  }

  ghost predicate AllWell(ts: seq<Task>) {
    |ts| <= MAX_TASKS && forall x :: 0 <= x < |ts| ==> Well(ts, x)
  }

  predicate WaitsFor(t: Task, x: nat) {
    (t.state == SendBlocked && t.at == x) || (t.state == ReplyBlocked && t.replyWait == x)
  }

  ghost predicate NoneWaitsFor(ts: seq<Task>, x: nat) {
    forall y :: 0 <= y < |ts| ==> !WaitsFor(ts[y], x)
  }

  lemma UpdateWell(ts: seq<Task>, x: nat, t: Task)
    requires AllWell(ts) && x < |ts| && Well(ts[x := t], x)
    requires (Alive(t) && t.log.life == ts[x].log.life) || NoneWaitsFor(ts, x)
    ensures AllWell(ts[x := t])
  {
    var us := ts[x := t];
    forall y | 0 <= y < |us| ensures Well(us, y) {
      assert Well(ts, y);
      assert !WaitsFor(ts[y], x) || Alive(t);
    }
  }

  // ---------- the letters of a receiver ----------

  function LetterOf(ts: seq<Task>, x: nat): Letter {
    Letter(x, if x < |ts| then ts[x].io.msg else [])
  }

  function Letters(ts: seq<Task>, s: seq<nat>): seq<Letter> {
    seq(|s|, i requires 0 <= i < |s| => LetterOf(ts, s[i]))
  }

  /** A living receiver has received its messages in the order they were sent, each once, up to those of
      the tasks queued for it; and it does not wait for a message while there is one. */
  ghost predicate MailOk(k: Kernel, x: nat, t: Task) {
    Alive(t) ==> t.log.mail == t.log.read + Letters(k.tasks, Chain(k, SendQ(x))) &&
                 (t.state == ReceiveBlocked ==> Chain(k, SendQ(x)) == [])
  }

  /** The mail of all tasks but `c` is in order; -1 for no exception. */
  ghost predicate MailBut(k: Kernel, c: int) {
    forall x :: 0 <= x < |k.tasks| && x != c ==> MailOk(k, x, k.tasks[x])
  }

  predicate InSend(t: Task) {
    t.state == SendBlocked
  }

  /** A move between send queue `c` and elsewhere disturbs no other letters. */
  lemma MoveKeepsMail(k: Kernel, x: nat, t: Task, c: int)
    requires Partition(k) && Movable(k, x) && MailBut(k, c)
    requires (InSend(k.tasks[x]) ==> k.tasks[x].at == c) && (InSend(t) ==> t.at == c)
    requires x == c || MailOk(k, x, t)
    ensures MailBut(Move(k, x, t), c)
  {
    var m := Move(k, x, t);
    forall y | 0 <= y < |m.tasks| && y != c ensures MailOk(m, y, m.tasks[y]) {
      MovedChain(k, x, t, SendQ(y));
      assert y != x ==> MailOk(k, y, k.tasks[y]);
      SameLetters(k, x, t, y);
    }
  }

  lemma SameLetters(k: Kernel, x: nat, t: Task, y: nat)
    requires Partition(k) && x < |k.tasks| && (!InSend(k.tasks[x]) || k.tasks[x].at != y || t.io.msg == k.tasks[x].io.msg)
    ensures Letters(k.tasks[x := t], Chain(k, SendQ(y))) == Letters(k.tasks, Chain(k, SendQ(y)))
  {
    var s := Chain(k, SendQ(y));
    forall i | 0 <= i < |s| ensures LetterOf(k.tasks[x := t], s[i]) == LetterOf(k.tasks, s[i]) {
      assert s[i] in s;
      assert Belongs(k, SendQ(y), s[i]);
    }
  }

  // ---------- events ----------

  /** A task waits for an event only while none is pending, and every interrupt woke a task, was taken
      later, is pending, or came when the counter was full. */
  predicate EventOk(k: Kernel, e: nat)
    requires e < |k.ev.pending| == |k.ev.fired| == |k.ev.woken| == |k.ev.taken| == |k.ev.lost|
  {
    k.ev.pending[e] <= MAX_PENDING && (Chain(k, EventQ(e)) != [] ==> k.ev.pending[e] == 0) &&
    k.ev.fired[e] == k.ev.woken[e] + k.ev.taken[e] + k.ev.pending[e] + k.ev.lost[e]
  }

  predicate EventsOk(k: Kernel) {
    |k.ev.pending| == |k.ev.fired| == |k.ev.woken| == |k.ev.taken| == |k.ev.lost| == EVENTS &&
    forall e :: 0 <= e < EVENTS ==> EventOk(k, e)
  }

  // ---------- the invariant ----------

  /** All invariants hold, but for the mail of `c`. */
  ghost predicate SoundBut(k: Kernel, c: int) {
    Partition(k) && Fifo(k) && AllWell(k.tasks) && EventsOk(k) && MailBut(k, c)
  }

  ghost predicate Sound(k: Kernel) {
    SoundBut(k, -1)
  }

  /** What a move needs to keep the invariant, but for the mail of `c`. */
  ghost predicate GoodMove(k: Kernel, x: nat, t: Task, c: int) {
    Movable(k, x) && (InSend(k.tasks[x]) ==> k.tasks[x].at == c) && (InSend(t) ==> t.at == c) && Well(k.tasks[x := t], x) &&
    ((Alive(t) && t.log.life == k.tasks[x].log.life) || NoneWaitsFor(k.tasks, x)) &&
    (x == c || MailOk(k, x, t)) &&
    (t.state == EventBlocked ==> t.at < |k.ev.pending| && k.ev.pending[t.at] == 0 && Chain(k, EventQ(t.at)) == [] &&
                                 k.tasks[x].state != EventBlocked)
  }

  lemma MoveKeepsEvents(k: Kernel, x: nat, t: Task)
    requires EventsOk(k) && Movable(k, x) && (t.state == EventBlocked ==> t.at < EVENTS ==> k.ev.pending[t.at] == 0)
    ensures EventsOk(Move(k, x, t))
  {
    var m := Move(k, x, t);
    forall e | 0 <= e < EVENTS ensures EventOk(m, e) {
      assert EventOk(k, e);
      MovedChain(k, x, t, EventQ(e));
    }
  }

  lemma MoveKeeps(k: Kernel, x: nat, t: Task, c: int)
    requires SoundBut(k, c) && GoodMove(k, x, t, c)
    ensures SoundBut(Move(k, x, t), c)
  {
    MoveKeepsPartition(k, x, t);
    MoveKeepsFifo(k, x, t);
    UpdateWell(k.tasks, x, t);
    MoveKeepsEvents(k, x, t);
    MoveKeepsMail(k, x, t, c);
  }

  // ---------- the running task ----------

  /** Exactly one task is running, the current one. */
  predicate OneRuns(k: Kernel) {
    0 <= k.current < |k.tasks| && k.tasks[k.current].state == Running &&
    forall x :: 0 <= x < |k.tasks| && k.tasks[x].state == Running ==> x == k.current
  }

  predicate NoneRuns(k: Kernel) {
    0 <= k.current < |k.tasks| && forall x :: 0 <= x < |k.tasks| ==> k.tasks[x].state != Running
  }

  /** The state between two dispatches. */
  ghost predicate Inv(k: Kernel) {
    Sound(k) && OneRuns(k)
  }

  function Me(k: Kernel): Task
    requires 0 <= k.current < |k.tasks|
  {
    k.tasks[k.current]
  }

  /** Changing what a task has read and been sent concerns only its own mail. */
  lemma TouchKeeps(k: Kernel, x: nat, t: Task)
    requires SoundBut(k, x) && x < |k.tasks| && Alive(t)
    requires t == k.tasks[x].(io := t.io, log := k.tasks[x].log.(mail := t.log.mail, read := t.log.read))
    requires t.io.msg == k.tasks[x].io.msg
    ensures SoundBut(Touch(k, x, t), x)
  {
    TouchKeepsPartition(k, x, t);
    var m := Touch(k, x, t);
    assert Well(k.tasks, x);
    UpdateWell(k.tasks, x, t);
    forall q | q != FreeQ ensures Get(m.q.put, q) == Get(m.q.got, q) + Chain(m, q) {
      assert Get(k.q.put, q) == Get(k.q.got, q) + Chain(k, q);
    }
    forall e | 0 <= e < EVENTS ensures EventOk(m, e) {
      assert EventOk(k, e);
    }
    forall y | 0 <= y < |m.tasks| && y != x ensures MailOk(m, y, m.tasks[y]) {
      assert MailOk(k, y, k.tasks[y]);
      SameLetters(k, x, t, y);
    }
  }

  lemma AllMail(k: Kernel, c: nat)
    requires SoundBut(k, c) && (c < |k.tasks| ==> MailOk(k, c, k.tasks[c]))
    ensures Sound(k)
  {
  }
}
