/** Exit, in the form of KernelCalls. */
module KernelExits {
  import opened KernelModel
  import opened KernelSteps
  import opened KernelRuns
  import opened KernelCalls

  // ---------- Exit ----------

  /** A sender whose send fails because the receiver exits. */
  function Failing(t: Task, who: Who): Task {
    t.(state := Ready, replyWait := -1, io := t.io.(x0 := -2),
       log := t.log.(answered := t.log.answered + [Answer(who, true)]))
  }

  function FailAll(ts: seq<Task>, who: Who, s: seq<nat>): (us: seq<Task>)
    ensures |us| == |ts|
    decreases s
  {
    if s == [] then ts else FailAll(if s[0] < |ts| then ts[s[0] := Failing(ts[s[0]], who)] else ts, who, s[1..])
  }

  /** The tasks from `i` on that wait for the reply of task `c`, by number. */
  function Repliers(ts: seq<Task>, c: int, i: nat): seq<nat>
    decreases |ts| - i
  {
    if i >= |ts| then []
    else (if ts[i].state == ReplyBlocked && ts[i].replyWait == c then [i] else []) + Repliers(ts, c, i + 1)
  }

  /** Those queued for the caller, and then those that wait for its reply. */
  function Dependants(k: Kernel): seq<nat>
    requires 0 <= k.current
  {
    Chain(k, SendQ(k.current)) + Repliers(k.tasks, k.current, 0)
  }

  /** Their sends fail, and the caller's slot is free. */
  function Leaving(k: Kernel): seq<Task>
    requires 0 <= k.current < |k.tasks|
  {
    FailAll(k.tasks, Who(k.current, Me(k).log.life), Dependants(k))[k.current := Me(k).(state := Free)]
  }

  /** The caller's queue is empty, and its slot is the first of the free list. */
  function Freed(k: Kernel): map<QId, seq<nat>>
    requires 0 <= k.current
  {
    map[SendQ(k.current) := [], FreeQ := [k.current] + Chain(k, FreeQ)]
  }

  lemma {:induction false} FailJoin(ts: seq<Task>, who: Who, a: seq<nat>, b: seq<nat>)
    ensures FailAll(ts, who, a + b) == FailAll(FailAll(ts, who, a), who, b)
    decreases a
  {
    if a == [] {
      assert a + b == b;
    } else {
      var us := if a[0] < |ts| then ts[a[0] := Failing(ts[a[0]], who)] else ts;
      FailJoin(us, who, a[1..], b);
      assert (a + b)[1..] == a[1..] + b;
    }
  }

  predicate WaitsForReply(ts: seq<Task>, c: int, i: nat) {
    i < |ts| && ts[i].state == ReplyBlocked && ts[i].replyWait == c
  }

  lemma {:induction false} SameRepliers(ts: seq<Task>, us: seq<Task>, c: int, i: nat)
    requires |ts| == |us| && forall j: nat :: i <= j ==> (WaitsForReply(ts, c, j) <==> WaitsForReply(us, c, j))
    ensures Repliers(ts, c, i) == Repliers(us, c, i)
    decreases |ts| - i
  {
    if i < |ts| {
      assert WaitsForReply(ts, c, i) <==> WaitsForReply(us, c, i);
      SameRepliers(ts, us, c, i + 1);
    }
  }

  /** The caller's queue as it gets shorter. */
  function Draining(b: Kernel, c: int): map<QId, seq<nat>> {
    if c < 0 then map[] else map[SendQ(c) := Chain(b, SendQ(c))]
  }

  ghost predicate Failed(k: Kernel, b: Kernel, done: seq<nat>) {
    0 <= k.current < |k.tasks| && OneRuns(b) && b.current == k.current && Me(b) == Me(k) && b.ev == k.ev &&
    Settles(k, b, FailAll(k.tasks, Who(k.current, Me(k).log.life), done), done, Draining(b, k.current)) &&
    AllReady(b.tasks, done)
  }

  /** States of the loops of Exit: `done` have failed already. */
  ghost function Failures(k: Kernel, done: seq<nat>): iset<Kernel> {
    iset b: Kernel | Failed(k, b, done)
  }

  lemma FailsQueues(k: Kernel, b: Kernel, x: nat, t: Task)
    requires 0 <= k.current && QueuesAre(k, b, Draining(b, k.current)) && Movable(b, x) && t.state == Ready
    requires Place(b.tasks[x]) == Nowhere || Place(b.tasks[x]) == SendQ(k.current)
    ensures QueuesAre(k, Move(b, x, t), Draining(Move(b, x, t), k.current))
  {
    var m := Move(b, x, t);
    forall q: QId | !q.ReadyQ? && !q.Nowhere? ensures Chain(m, q) == Now(k, Draining(m, k.current), q) {
      MovedChain(b, x, t, q);
    }
  }

  lemma FailsRecord(k: Kernel, b: Kernel, done: seq<nat>, x: nat, who: Who)
    requires x < |b.tasks| && b.tasks == FailAll(k.tasks, who, done)
    ensures b.tasks[x := Failing(b.tasks[x], who)] == FailAll(k.tasks, who, done + [x])
  {
    FailJoin(k.tasks, who, done, [x]);
    assert [x][1..] == [];
  }

  lemma FailsOne(k: Kernel, b: Kernel, who: Who, done: seq<nat>, x: nat, t: Task)
    requires 0 <= k.current && Settles(k, b, FailAll(k.tasks, who, done), done, Draining(b, k.current))
    requires Movable(b, x) && t == Failing(b.tasks[x], who) && b.tasks[x].state != Ready && x !in done
    requires Place(b.tasks[x]) == Nowhere || Place(b.tasks[x]) == SendQ(k.current)
    ensures var m := Move(b, x, t);
            Settles(k, m, FailAll(k.tasks, who, done + [x]), done + [x], Draining(m, k.current))
  {
    Rises(k, b, b.tasks, done, Draining(b, k.current), x, t);
    FailsRecord(k, b, done, x, who);
    FailsQueues(k, b, x, t);
  }

  lemma StaysReady(b: Kernel, done: seq<nat>, x: nat, t: Task)
    requires AllReady(b.tasks, done) && Movable(b, x) && t.state == Ready
    ensures AllReady(Move(b, x, t).tasks, done + [x])
  {
  }

  lemma NotYet(b: Kernel, done: seq<nat>, x: nat)
    requires AllReady(b.tasks, done) && x < |b.tasks| && b.tasks[x].state != Ready
    ensures x !in done
  {
  }

  lemma IsFailure(k: Kernel, b: Kernel, done: seq<nat>)
    requires Failed(k, b, done)
    ensures b in Failures(k, done)
  {
  }

  /** One more send fails. */
  lemma OneFails(k: Kernel, b: Kernel, done: seq<nat>, x: nat, t: Task)
    requires b in Failures(k, done) && Movable(b, x) && WaitsFor(b.tasks[x], k.current)
    requires t == Failing(b.tasks[x], Who(k.current, Me(k).log.life))
    ensures Move(b, x, t) in Failures(k, done + [x])
  {
    NotYet(b, done, x);
    FailsOne(k, b, Who(k.current, Me(k).log.life), done, x, t);
    StaysReady(b, done, x, t);
    StillRuns(b, x, t);
    IsFailure(k, Move(b, x, t), done + [x]);
  }

  /** States in which all invariants hold but for the caller's mail. */
  ghost function Departing(): iset<Kernel> {
    iset b: Kernel | SoundBut(b, b.current) && OneRuns(b)
  }

  lemma FirstFails(k: Kernel, b: Kernel, done: seq<nat>)
    requires b in Departing() && b in Failures(k, done) && Chain(b, SendQ(b.current)) != []
    ensures FailFirst(b) in Departing() && FailFirst(b) in Failures(k, done + [Chain(b, SendQ(b.current))[0]])
    ensures Chain(FailFirst(b), SendQ(b.current)) == Chain(b, SendQ(b.current))[1..] &&
            FailFirst(b).current == b.current
  {
    var x := Chain(b, SendQ(b.current))[0];
    HeadOf(b, SendQ(b.current));
    FailFirstKeeps(b);
    OneFails(k, b, done, x, Completed(b.tasks[x], Myself(b), true, -2));
  }

  lemma OneAndRest(done: seq<nat>, s: seq<nat>)
    requires s != []
    ensures done + [s[0]] + s[1..] == done + s
  {
  }

  lemma ThenTheRest(b: Kernel)
    requires b in Departing() && Chain(b, SendQ(b.current)) != [] && FailFirst(b) in Departing()
    ensures FailSenders(b) == FailSenders(FailFirst(b))
  {
  }

  lemma {:induction false} SendersFail(k: Kernel, b: Kernel, done: seq<nat>, s: seq<nat>)
    requires b in Departing() && b in Failures(k, done) && s == Chain(b, SendQ(b.current))
    ensures FailSenders(b) in Failures(k, done + s)
    decreases |s|
  {
    if s == [] {
      assert done + s == done;
    } else {
      FirstFails(k, b, done);
      ThenTheRest(b);
      OneAndRest(done, s);
      SendersFail(k, FailFirst(b), done + [s[0]], s[1..]);
    }
  }

  /** States in which the loop over the table has passed slot `i`. */
  ghost function Cleared(i: nat): iset<Kernel> {
    iset b: Kernel | OneRuns(b) && i <= |b.tasks| && forall j :: 0 <= j < i ==> !Orphan(b, j)
  }

  ghost function TheRest(b: Kernel, i: nat): Kernel
    requires b in Cleared(i)
  {
    FailOrphans(b, i)
  }

  lemma ClearsNext(b: Kernel, i: nat)
    requires b in Cleared(i) && i < |b.tasks|
    ensures FailOrphan(b, i) in Cleared(i + 1) && |FailOrphan(b, i).tasks| == |b.tasks|
    ensures FailOrphan(b, i).current == b.current
  {
    FailOrphanFacts(b, i);
  }

  lemma OrphansFrom(b: Kernel, i: nat)
    requires b in Cleared(i) && i < |b.tasks| && FailOrphan(b, i) in Cleared(i + 1)
    ensures TheRest(b, i) == TheRest(FailOrphan(b, i), i + 1)
  {
  }

  lemma OrphanFails(k: Kernel, b: Kernel, done: seq<nat>, i: nat)
    requires b in Failures(k, done)
    ensures FailOrphan(b, i) in Failures(k, if Orphan(b, i) then done + [i] else done)
  {
    if Orphan(b, i) {
      OneFails(k, b, done, i, Completed(b.tasks[i], Myself(b), true, -2));
    }
  }

  lemma RepliersFrom(b: Kernel, i: nat)
    requires b in Cleared(i) && i < |b.tasks|
    ensures Repliers(b.tasks, b.current, i) ==
            (if Orphan(b, i) then [i] else []) + Repliers(FailOrphan(b, i).tasks, b.current, i + 1)
  {
    var m := FailOrphan(b, i);
    forall j: nat | i + 1 <= j ensures WaitsForReply(b.tasks, b.current, j) <==> WaitsForReply(m.tasks, b.current, j) {
    }
    SameRepliers(b.tasks, m.tasks, b.current, i + 1);
  }

  lemma Joined(done: seq<nat>, i: nat, rest: seq<nat>)
    ensures done + [i] + rest == done + ([i] + rest) && [] + rest == rest
  {
  }

  lemma NoneLeft(b: Kernel, i: nat, done: seq<nat>)
    requires b in Cleared(i) && i >= |b.tasks|
    ensures TheRest(b, i) == b && done + Repliers(b.tasks, b.current, i) == done
  {
  }

  /** One round of the loop: what is left of it, and of those that wait. */
  lemma Round(k: Kernel, b: Kernel, done: seq<nat>, i: nat, s: seq<nat>)
    returns (m: Kernel, now: seq<nat>, rest: seq<nat>)
    requires b in Failures(k, done) && b in Cleared(i) && i < |b.tasks| && s == Repliers(b.tasks, b.current, i)
    ensures m in Failures(k, now) && m in Cleared(i + 1) && |m.tasks| == |b.tasks|
    ensures rest == Repliers(m.tasks, m.current, i + 1) && now + rest == done + s && TheRest(b, i) == TheRest(m, i + 1)
  {
    m := FailOrphan(b, i);
    ClearsNext(b, i);
    OrphanFails(k, b, done, i);
    RepliersFrom(b, i);
    OrphansFrom(b, i);
    now, rest := if Orphan(b, i) then done + [i] else done, Repliers(m.tasks, b.current, i + 1);
    Joined(done, i, rest);
  }

  lemma {:induction false} RepliersFail(k: Kernel, b: Kernel, done: seq<nat>, i: nat, s: seq<nat>)
    requires b in Failures(k, done) && b in Cleared(i) && s == Repliers(b.tasks, b.current, i)
    ensures TheRest(b, i) in Failures(k, done + s)
    decreases |b.tasks| - i
  {
    if i >= |b.tasks| {
      NoneLeft(b, i, done);
    } else {
      var m, now, rest := Round(k, b, done, i, s);
      RepliersFail(k, m, now, i + 1, rest);
    }
  }

  // ---------- the call ----------

  lemma SetsOff(k: Kernel)
    requires k in States()
    ensures k in Departing() && k in Failures(k, [])
  {
    assert SoundBut(k, k.current);
    assert Settles(k, k, k.tasks, [], Draining(k, k.current));
    IsFailure(k, k, []);
  }

  lemma {:induction false} FailAllAt(ts: seq<Task>, who: Who, s: seq<nat>, j: nat)
    requires j !in s && j < |ts|
    ensures FailAll(ts, who, s)[j] == ts[j]
    decreases s
  {
    if s != [] {
      FailAllAt(if s[0] < |ts| then ts[s[0] := Failing(ts[s[0]], who)] else ts, who, s[1..], j);
    }
  }

  lemma IsQueued(k: Kernel, j: nat, c: nat)
    requires Partition(k) && j in Chain(k, SendQ(c))
    ensures j < |k.tasks| && k.tasks[j].state == SendBlocked
  {
    assert Belongs(k, SendQ(c), j);
  }

  /** Whoever waits for the caller's reply is not in its queue. */
  lemma OthersWait(k: Kernel, b: Kernel, s: seq<nat>)
    requires k in States() && b in Failures(k, s) && s == Chain(k, SendQ(k.current))
    ensures Repliers(b.tasks, k.current, 0) == Repliers(k.tasks, k.current, 0)
  {
    forall j: nat | 0 <= j ensures WaitsForReply(b.tasks, k.current, j) <==> WaitsForReply(k.tasks, k.current, j) {
      if j in s {
        IsQueued(k, j, k.current);
      } else if j < |k.tasks| {
        FailAllAt(k.tasks, Who(k.current, Me(k).log.life), s, j);
      }
    }
    SameRepliers(b.tasks, k.tasks, k.current, 0);
  }

  /** All sends to the caller have failed. */
  ghost function AllFailed(k: Kernel): Kernel
    requires Inv(k)
  {
    FailOrphans(FailSenders(k), 0)
  }

  lemma SendersGone(k: Kernel)
    requires k in States() && k in Departing()
    ensures FailSenders(k) in Cleared(0) && TheRest(FailSenders(k), 0) == AllFailed(k)
    ensures FailSenders(k).current == k.current
  {
  }

  lemma AllFail(k: Kernel)
    requires k in States()
    ensures 0 <= k.current && AllFailed(k) in Failures(k, Dependants(k))
  {
    var s := Chain(k, SendQ(k.current));
    SetsOff(k);
    SendersFail(k, k, [], s);
    assert [] + s == s;
    SendersGone(k);
    OthersWait(k, FailSenders(k), s);
    RepliersFail(k, FailSenders(k), s, 0, Repliers(k.tasks, k.current, 0));
  }

  lemma QueueEmptied(k: Kernel)
    requires k in States()
    ensures Chain(AllFailed(k), SendQ(k.current)) == []
  {
  }

  lemma Leaves(k: Kernel, b: Kernel, done: seq<nat>, t: Task)
    requires b in Failures(k, done) && t == Me(k).(state := Free) && Chain(b, SendQ(k.current)) == []
    ensures Movable(b, k.current)
    ensures Settles(k, Move(b, k.current, t), b.tasks[k.current := t], done, Freed(k))
  {
    NotYet(b, done, k.current);
    Blocks(k, b, b.tasks, done, Draining(b, k.current), k.current, t);
    assert Draining(b, k.current)[FreeQ := [k.current] + Chain(k, FreeQ)] == Freed(k);
  }

  lemma ExitIs(k: Kernel)
    requires k in States()
    ensures Movable(AllFailed(k), k.current)
    ensures Exit(k) == Move(AllFailed(k), k.current, Me(k).(state := Free)) && Exit(k).ev == AllFailed(k).ev
  {
  }

  lemma ExitSettles(k: Kernel)
    requires k in States()
    ensures 0 <= k.current < |k.tasks|
    ensures Outcome(Leaving(k), k.ev, Dependants(k), Freed(k)) in Settlements(k, Exit(k))
  {
    var b := AllFailed(k);
    AllFail(k);
    QueueEmptied(k);
    ExitIs(k);
    Leaves(k, b, Dependants(k), Me(k).(state := Free));
    IsSettlement(k, Exit(k), Leaving(k), Dependants(k), Freed(k), Outcome(Leaving(k), k.ev, Dependants(k), Freed(k)));
  }

  lemma ExitHandles(k: Kernel)
    requires k in States()
    ensures 0 <= k.current < |k.tasks|
    ensures Outcome(Leaving(k), k.ev, Dependants(k), Freed(k)) in Handled(k, Syscall(DoExit))
  {
    ExitSettles(k);
    ExitBody(k, Syscall(DoExit), Body(k, Syscall(DoExit)));
    ByBody(k, Syscall(DoExit), Exit(k), Outcome(Leaving(k), k.ev, Dependants(k), Freed(k)));
  }

  /** Exit: those queued for the caller, in order, and then those that wait for its reply, by number, get ready with -2;
      the caller's slot becomes the first of the free list. */
  lemma ExitCall(k: Kernel, m: Kernel)
    requires Inv(k) && Leads(k, Syscall(DoExit), m)
    ensures 0 <= k.current < |k.tasks|
    ensures Dispatches(k, m, Outcome(Leaving(k), k.ev, Dependants(k), Freed(k)))
  {
    ExitHandles(k);
    Concludes(k, Syscall(DoExit), m, Outcome(Leaving(k), k.ev, Dependants(k), Freed(k)));
  }
}
