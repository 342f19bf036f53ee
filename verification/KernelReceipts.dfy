/** Replies follow receptions: over whole runs a send is completed without error only after the task that it was
    sent to has received this very message. */
module KernelReceipts {
  import opened KernelModel
  import opened KernelSteps
  import opened KernelRuns
  import opened KernelEffects

  // ---------- counting sends and letters ----------

  /** What `x` wrote among these letters, in order. */
  function Wrote(ls: seq<Letter>, x: nat): seq<Bytes> {
    if ls == [] then []
    else Wrote(ls[..|ls| - 1], x) + if ls[|ls| - 1].sender == x then [ls[|ls| - 1].msg] else []
  }

  /** How many of these sends went to `w`. */
  function SentTo(s: seq<Who>, w: Who): nat {
    if s == [] then 0 else SentTo(s[..|s| - 1], w) + if s[|s| - 1] == w then 1 else 0
  }

  lemma WroteOne(ls: seq<Letter>, l: Letter, x: nat)
    ensures Wrote(ls + [l], x) == Wrote(ls, x) + if l.sender == x then [l.msg] else []
  {
    assert (ls + [l])[..|ls|] == ls;
  }

  lemma SentOne(s: seq<Who>, v: Who, w: Who)
    ensures SentTo(s + [v], w) == SentTo(s, w) + if v == w then 1 else 0
  {
    assert (s + [v])[..|s|] == s;
  }

  lemma {:induction false} WroteNothing(ls: seq<Letter>, x: nat)
    requires forall i :: 0 <= i < |ls| ==> ls[i].sender != x
    ensures Wrote(ls, x) == []
  {
    if ls != [] {
      WroteNothing(ls[..|ls| - 1], x);
    }
  }

  lemma {:induction false} WroteApart(a: seq<Letter>, b: seq<Letter>, x: nat)
    requires forall i :: 0 <= i < |b| ==> b[i].sender != x
    ensures Wrote(a + b, x) == Wrote(a, x)
    decreases |b|
  {
    if b == [] {
      assert a + b == a;
    } else {
      var c := b[..|b| - 1];
      WroteApart(a, c, x);
      assert a + b == (a + c) + [b[|b| - 1]];
      WroteOne(a + c, b[|b| - 1], x);
    }
  }

  lemma {:induction false} SentNone(s: seq<Who>, w: Who)
    requires forall i :: 0 <= i < |s| ==> s[i] != w
    ensures SentTo(s, w) == 0
  {
    if s != [] {
      SentNone(s[..|s| - 1], w);
    }
  }

  // ---------- the invariant ----------

  /** Senders' and receivers' books agree: as many letters of `x` have come to the present life of `r` as `x` has
      sent to it. */
  predicate Agree(k: Kernel, x: nat, r: nat)
    requires x < |k.tasks| && r < |k.tasks|
  {
    Alive(k.tasks[r]) ==>
      |Wrote(k.tasks[r].log.mail, x)| == SentTo(k.tasks[x].log.asked, Who(r, k.tasks[r].log.life))
  }

  /** A task that is blocked on a send wrote the last of its letters to the addressee with it. */
  predicate LastIsMine(k: Kernel, x: nat)
    requires x < |k.tasks|
  {
    var t := k.tasks[x];
    Asking(t) ==>
      t.log.asked != [] &&
      var r := t.log.asked[|t.log.asked| - 1].tid;
      0 <= r < |k.tasks| && Wrote(k.tasks[r].log.mail, x) != [] &&
      var w := Wrote(k.tasks[r].log.mail, x); w[|w| - 1] == t.io.msg
  }

  /** Nobody has sent to a life that is still to come, or got a letter from a tid that was never used. */
  predicate Plausible(k: Kernel, x: nat)
    requires x < |k.tasks|
  {
    (forall i :: 0 <= i < |k.tasks[x].log.asked| ==> KnownLife(k, k.tasks[x].log.asked[i])) &&
    forall i :: 0 <= i < |k.tasks[x].log.mail| ==> k.tasks[x].log.mail[i].sender < |k.tasks|
  }

  predicate KnownLife(k: Kernel, w: Who) {
    0 <= w.tid < |k.tasks| && w.life <= k.tasks[w.tid].log.life
  }

  ghost predicate Books(k: Kernel) {
    (forall x, r :: 0 <= x < |k.tasks| && 0 <= r < |k.tasks| ==> Agree(k, x, r)) &&
    (forall x :: 0 <= x < |k.tasks| ==> LastIsMine(k, x)) && forall x :: 0 <= x < |k.tasks| ==> Plausible(k, x)
  }

  // ---------- one dispatch ----------

  /** What one dispatch enters into the books, as KernelEffects has it. */
  ghost predicate Booked(k: Kernel, i: Input, m: Kernel)
    requires 0 <= k.current
  {
    |k.tasks| <= |m.tasks| && (forall x :: 0 <= x < |k.tasks| ==> Posts(k, i, x, m.tasks[x])) &&
    forall x :: |k.tasks| <= x < |m.tasks| ==> FirstLife(m.tasks[x])
  }

  lemma EffectsBooked(k: Kernel, i: Input, m: Kernel)
    requires OneRuns(k) && Effects(k, i, m)
    ensures Booked(k, i, m)
  {
    forall x | 0 <= x < |k.tasks| ensures Posts(k, i, x, m.tasks[x]) {
      assert Outcome(k, i, x, m.tasks[x]);
    }
  }

  lemma KeepsPlausible(k: Kernel, i: Input, m: Kernel, x: nat)
    requires 0 <= k.current < |k.tasks| && Booked(k, i, m) && x < |m.tasks| && (x < |k.tasks| ==> Plausible(k, x))
    ensures Plausible(m, x)
  {
    if x < |k.tasks| {
      assert Posts(k, i, x, m.tasks[x]);
      forall j | 0 <= j < |m.tasks[x].log.asked| ensures KnownLife(m, m.tasks[x].log.asked[j]) {
        var w := m.tasks[x].log.asked[j];
        assert j < |k.tasks[x].log.asked| ==> KnownLife(k, w);
        assert Posts(k, i, w.tid, m.tasks[w.tid]);
      }
    }
  }

  /** A life that begins now has no letters, and nobody has sent to it. */
  lemma NewLifeAgrees(k: Kernel, i: Input, m: Kernel, x: nat, r: nat)
    requires 0 <= k.current < |k.tasks| && Booked(k, i, m) && x < |m.tasks| && r < |m.tasks|
    requires x < |k.tasks| ==> Plausible(k, x)
    requires r >= |k.tasks| || m.tasks[r].log.life != k.tasks[r].log.life
    ensures Agree(m, x, r)
  {
    var w := Who(r, m.tasks[r].log.life);
    if x < |k.tasks| {
      assert Posts(k, i, x, m.tasks[x]);
      if r < |k.tasks| {
        assert Posts(k, i, r, m.tasks[r]);
      }
      forall j | 0 <= j < |m.tasks[x].log.asked| ensures m.tasks[x].log.asked[j] != w {
        assert j < |k.tasks[x].log.asked| ==> KnownLife(k, k.tasks[x].log.asked[j]);
      }
    }
    SentNone(m.tasks[x].log.asked, w);
  }

  /** Sender and receiver enter the same sends. */
  lemma OldLifeAgrees(k: Kernel, i: Input, m: Kernel, x: nat, r: nat)
    requires 0 <= k.current < |k.tasks| && Booked(k, i, m) && x < |k.tasks| && r < |k.tasks| && Agree(k, x, r)
    requires m.tasks[r].log.life == k.tasks[r].log.life
    ensures Agree(m, x, r)
  {
    assert Posts(k, i, x, m.tasks[x]) && Posts(k, i, r, m.tasks[r]);
    var w := Who(r, k.tasks[r].log.life);
    if Delivers(k, i) {
      WroteOne(k.tasks[r].log.mail, Letter(k.current, i.call.msg), x);
      SentOne(k.tasks[x].log.asked, Who(i.call.tid, k.tasks[i.call.tid].log.life), w);
    }
  }

  lemma KeepsAgree(k: Kernel, i: Input, m: Kernel, x: nat, r: nat)
    requires 0 <= k.current < |k.tasks| && Books(k) && Booked(k, i, m) && x < |m.tasks| && r < |m.tasks|
    ensures Agree(m, x, r)
  {
    assert x < |k.tasks| ==> Plausible(k, x);
    if r >= |k.tasks| || m.tasks[r].log.life != k.tasks[r].log.life {
      NewLifeAgrees(k, i, m, x, r);
    } else if x < |k.tasks| {
      assert Agree(k, x, r);
      OldLifeAgrees(k, i, m, x, r);
    } else {
      StrangerAgrees(k, i, m, x, r);
    }
  }

  /** A tid that is used for the first time has neither sent nor written anything. */
  lemma StrangerAgrees(k: Kernel, i: Input, m: Kernel, x: nat, r: nat)
    requires 0 <= k.current < |k.tasks| && Booked(k, i, m) && |k.tasks| <= x < |m.tasks| && r < |k.tasks| && Plausible(k, r)
    requires m.tasks[r].log.life == k.tasks[r].log.life
    ensures Agree(m, x, r)
  {
    assert FirstLife(m.tasks[x]) && Posts(k, i, r, m.tasks[r]);
    WroteNothing(m.tasks[r].log.mail, x);
  }

  /** The addressee of an open send lives on, and only the present sender can have written another letter. */
  lemma KeepsLast(k: Kernel, i: Input, m: Kernel, x: nat)
    requires Inv(k) && Inv(m) && Books(k) && Booked(k, i, m) && x < |m.tasks|
    ensures LastIsMine(m, x)
  {
    if Asking(m.tasks[x]) {
      assert Well(m.tasks, x);
      assert x < |k.tasks| && Posts(k, i, x, m.tasks[x]);
      if x == k.current {
        NewAsk(k, i, m);
      } else {
        assert Well(k.tasks, x) && LastIsMine(k, x);
        OpenAsk(k, i, m, x);
      }
    }
  }

  lemma NewAsk(k: Kernel, i: Input, m: Kernel)
    requires OneRuns(k) && Booked(k, i, m) && Asking(m.tasks[k.current])
    ensures LastIsMine(m, k.current)
  {
    assert Posts(k, i, k.current, m.tasks[k.current]);
    var r := i.call.tid;
    assert Posts(k, i, r, m.tasks[r]);
    WroteOne(k.tasks[r].log.mail, Letter(k.current, i.call.msg), k.current);
  }

  /** Only the current task can write a letter. */
  lemma SameLetters(k: Kernel, i: Input, u: Task, x: nat, r: nat)
    requires OneRuns(k) && r < |k.tasks| && x != k.current && Posts(k, i, r, u) && u.log.life == k.tasks[r].log.life
    ensures Wrote(u.log.mail, x) == Wrote(k.tasks[r].log.mail, x)
  {
    if Delivers(k, i) {
      WroteOne(k.tasks[r].log.mail, Letter(k.current, i.call.msg), x);
    }
  }

  /** The send is still the same one. */
  lemma SameAsk(k: Kernel, i: Input, m: Kernel, x: nat)
    requires OneRuns(k) && Booked(k, i, m) && x < |k.tasks| && x != k.current
    requires Asking(m.tasks[x]) && Answerable(k, x) && Answerable(m, x)
    ensures m.tasks[x].log.asked == k.tasks[x].log.asked && Asking(k.tasks[x]) && m.tasks[x].io.msg == k.tasks[x].io.msg
    ensures var w := k.tasks[x].log.asked[|k.tasks[x].log.asked| - 1];
            0 <= w.tid < |k.tasks| && m.tasks[w.tid].log.life == k.tasks[w.tid].log.life
  {
    assert Posts(k, i, x, m.tasks[x]);
  }

  lemma OpenAsk(k: Kernel, i: Input, m: Kernel, x: nat)
    requires OneRuns(k) && Booked(k, i, m) && x < |k.tasks| && x != k.current && LastIsMine(k, x)
    requires Asking(m.tasks[x]) && Answerable(k, x) && Answerable(m, x)
    ensures LastIsMine(m, x)
  {
    SameAsk(k, i, m, x);
    var r := k.tasks[x].log.asked[|k.tasks[x].log.asked| - 1].tid;
    SameLetters(k, i, m.tasks[r], x, r);
  }

  /** The addressee of the last send lives, in the life that was meant. */
  predicate Answerable(k: Kernel, x: nat)
    requires x < |k.tasks|
  {
    var a := k.tasks[x].log.asked;
    Asking(k.tasks[x]) ==>
      a != [] && 0 <= a[|a| - 1].tid < |k.tasks| && a[|a| - 1].life == k.tasks[a[|a| - 1].tid].log.life
  }

  lemma BooksKept(k: Kernel, i: Input)
    requires Inv(k) && Books(k) && InputOk(i) && Step(k, i).Some?
    ensures Books(Step(k, i).value)
  {
    var m := Step(k, i).value;
    StepKeeps(k, i);
    StepOutcomes(k, i);
    EffectsBooked(k, i, m);
    forall x, r | 0 <= x < |m.tasks| && 0 <= r < |m.tasks| ensures Agree(m, x, r) {
      KeepsAgree(k, i, m, x, r);
    }
    forall x | 0 <= x < |m.tasks| ensures LastIsMine(m, x) {
      KeepsLast(k, i, m, x);
    }
    forall x | 0 <= x < |m.tasks| ensures Plausible(m, x) {
      KeepsPlausible(k, i, m, x);
    }
  }

  // ---------- what a task that can be replied to has in its buffer ----------

  /** Whoever waits for a reply: its receiver has read, in its present life, as many letters of the sender as the
      sender has sent to that life, and the last of them is the message it waits for. */
  lemma Received(k: Kernel, x: nat)
    requires Inv(k) && Books(k) && x < |k.tasks| && k.tasks[x].state == ReplyBlocked
    ensures var r := k.tasks[x].replyWait;
            0 <= r < |k.tasks| && Wrote(k.tasks[r].log.read, x) != [] &&
            var w := Wrote(k.tasks[r].log.read, x);
            w[|w| - 1] == k.tasks[x].io.msg && |w| == SentTo(k.tasks[x].log.asked, Who(r, k.tasks[r].log.life))
  {
    var r := k.tasks[x].replyWait;
    assert Well(k.tasks, x) && LastIsMine(k, x);
    assert Agree(k, x, r) && MailOk(k, r, k.tasks[r]);
    var queued := Letters(k.tasks, Chain(k, SendQ(r)));
    forall i | 0 <= i < |queued| ensures queued[i].sender != x {
      assert Chain(k, SendQ(r))[i] in Chain(k, SendQ(r)) <==> Belongs(k, SendQ(r), Chain(k, SendQ(r))[i]);
    }
    WroteApart(k.tasks[r].log.read, queued, x);
  }

  // ---------- whole runs ----------

  lemma BootBooks(priority: nat)
    requires priority < PRIORITIES
    ensures Inv(Boot(priority)) && Books(Boot(priority))
    ensures |Boot(priority).tasks| == 1 && FirstLife(Boot(priority).tasks[0])
  {
    BootInv(priority);
    BootCreates(priority);
    assert FirstLife(Boot(priority).tasks[0]);
  }

  /** States in which the invariant holds and the books agree. */
  ghost function Orderly(): iset<Kernel> {
    iset k: Kernel | Inv(k) && Books(k)
  }

  lemma BootOrderly(priority: nat)
    requires priority < PRIORITIES
    ensures Boot(priority) in Orderly()
  {
    BootBooks(priority);
  }

  lemma LeadsOn(priority: nat, s: seq<Input>, ks: seq<Kernel>, j: nat)
    requires IsRun(priority, s, ks) && j < |s| && ks[j] in Orderly()
    ensures ks[j + 1] in Orderly()
  {
    assert Dispatched(s, ks, j);
    StepKeeps(ks[j], s[j]);
    BooksKept(ks[j], s[j]);
  }

  lemma {:induction false} AllIn(good: iset<Kernel>, ks: seq<Kernel>, j: nat)
    requires j < |ks| && ks[0] in good && forall h :: 0 <= h < j && ks[h] in good ==> ks[h + 1] in good
    ensures ks[j] in good
  {
    if j > 0 {
      AllIn(good, ks, j - 1);
    }
  }

  lemma StatesOrderly(priority: nat, s: seq<Input>, ks: seq<Kernel>, j: nat)
    requires IsRun(priority, s, ks) && j <= |s|
    ensures ks[j] in Orderly()
  {
    var good := Orderly();
    BootOrderly(priority);
    forall h | 0 <= h < j && ks[h] in good ensures ks[h + 1] in good {
      LeadsOn(priority, s, ks, h);
    }
    AllIn(good, ks, j);
  }

  /** What a task has read grows by at most one letter, and is forgotten when its life ends. */
  predicate ReadsMore(t: Task, u: Task) {
    if t.log.life != u.log.life then u.log.read == []
    else u.log.read == t.log.read || (|u.log.read| == |t.log.read| + 1 && u.log.read[..|t.log.read|] == t.log.read)
  }

  ghost predicate AllReadMore(k: Kernel, m: Kernel) {
    |k.tasks| <= |m.tasks| && (forall r :: 0 <= r < |k.tasks| ==> ReadsMore(k.tasks[r], m.tasks[r])) &&
    forall r :: |k.tasks| <= r < |m.tasks| ==> m.tasks[r].log.read == []
  }

  lemma OutcomeReads(k: Kernel, i: Input, r: nat, u: Task)
    requires OneRuns(k) && r < |k.tasks| && Outcome(k, i, r, u)
    ensures ReadsMore(k.tasks[r], u)
  {
  }

  lemma EffectsRead(k: Kernel, i: Input, m: Kernel)
    requires OneRuns(k) && Effects(k, i, m)
    ensures AllReadMore(k, m)
  {
    forall r | 0 <= r < |k.tasks| ensures ReadsMore(k.tasks[r], m.tasks[r]) {
      assert Outcome(k, i, r, m.tasks[r]);
      OutcomeReads(k, i, r, m.tasks[r]);
    }
    forall r | |k.tasks| <= r < |m.tasks| ensures m.tasks[r].log.read == [] {
      assert FirstLife(m.tasks[r]);
    }
  }

  /** At dispatch `j` the life `w` of a task reads its letter number `n`, which is `l`. */
  predicate ReadsAt(ks: seq<Kernel>, j: nat, w: Who, n: nat, l: Letter) {
    j + 1 < |ks| && 0 <= w.tid < |ks[j].tasks| <= |ks[j + 1].tasks| &&
    var t, u := ks[j].tasks[w.tid], ks[j + 1].tasks[w.tid];
    t.log.life == u.log.life == w.life && |t.log.read| == n && u.log.read == t.log.read + [l]
  }

  ghost predicate Reading(ks: seq<Kernel>, j: nat) {
    j + 1 < |ks| && AllReadMore(ks[j], ks[j + 1])
  }

  /** Whatever a task has read, it read at some dispatch of its present life. */
  lemma {:induction false} ReadOnce(ks: seq<Kernel>, j: nat, r: nat, n: nat) returns (e: nat)
    requires j < |ks| && (forall h :: 0 <= h < j ==> Reading(ks, h)) && r < |ks[j].tasks| && n < |ks[j].tasks[r].log.read|
    requires forall x :: 0 <= x < |ks[0].tasks| ==> ks[0].tasks[x].log.read == []
    ensures e < j && ReadsAt(ks, e, Who(r, ks[j].tasks[r].log.life), n, ks[j].tasks[r].log.read[n])
  {
    assert j > 0 && Reading(ks, j - 1);
    assert r < |ks[j - 1].tasks|;
    var t, u := ks[j - 1].tasks[r], ks[j].tasks[r];
    assert ReadsMore(t, u);
    if n < |t.log.read| {
      e := ReadOnce(ks, j - 1, r, n);
      assert u.log.read[n] == t.log.read[n];
    } else {
      e := j - 1;
      assert u.log.read == t.log.read + [u.log.read[n]];
    }
  }

  lemma StatesRead(priority: nat, s: seq<Input>, ks: seq<Kernel>, j: nat)
    requires IsRun(priority, s, ks) && j < |s|
    ensures Reading(ks, j)
  {
    assert Dispatched(s, ks, j);
    StatesKeep(priority, s, ks, j);
    StepOutcomes(ks[j], s[j]);
    EffectsRead(ks[j], s[j], ks[j + 1]);
  }

  /** The last letter of `x`. */
  lemma {:induction false} LastWritten(ls: seq<Letter>, x: nat) returns (n: nat)
    requires Wrote(ls, x) != []
    ensures n < |ls| && ls[n] == Letter(x, Wrote(ls, x)[|Wrote(ls, x)| - 1]) && Wrote(ls[..n + 1], x) == Wrote(ls, x)
  {
    if ls[|ls| - 1].sender == x {
      n := |ls| - 1;
      assert ls[..n + 1] == ls;
    } else {
      n := LastWritten(ls[..|ls| - 1], x);
      assert ls[..|ls| - 1][..n + 1] == ls[..n + 1];
    }
  }

  /** A completion without error is a reply of the task that the send went to. */
  lemma CompletedByReply(k: Kernel, i: Input, x: nat, u: Task, who: Who)
    requires OneRuns(k) && x < |k.tasks| && Outcome(k, i, x, u)
    requires u.log.answered == k.tasks[x].log.answered + [Answer(who, false)]
    ensures i.Syscall? && i.call.DoReply? && i.call.tid == x
    ensures k.tasks[x].state == ReplyBlocked && k.tasks[x].replyWait == k.current && who == Myself(k)
  {
    var last := |k.tasks[x].log.answered|;
    assert u.log.answered[last] == Answer(who, false) && u.log.answered != k.tasks[x].log.answered;
  }

  lemma LeadsOutcome(k: Kernel, i: Input, m: Kernel, x: nat)
    requires Inv(k) && Leads(k, i, m) && x < |k.tasks|
    ensures OneRuns(k) && x < |m.tasks| && Outcome(k, i, x, m.tasks[x])
  {
    StepOutcomes(k, i);
  }

  /** When a send is completed without error, its receiver has read its message last of all that the sender wrote. */
  lemma CompletionReceived(priority: nat, s: seq<Input>, ks: seq<Kernel>, j: nat, x: nat, who: Who)
    requires IsRun(priority, s, ks) && j < |s| && x < |ks[j].tasks| && x < |ks[j + 1].tasks|
    requires ks[j + 1].tasks[x].log.answered == ks[j].tasks[x].log.answered + [Answer(who, false)]
    ensures s[j].Syscall? && s[j].call.DoReply? && s[j].call.tid == x && 0 <= who.tid == ks[j].current < |ks[j].tasks|
    ensures who.life == ks[j].tasks[who.tid].log.life
    ensures var w := Wrote(ks[j].tasks[who.tid].log.read, x);
            w != [] && w[|w| - 1] == ks[j].tasks[x].io.msg && |w| == SentTo(ks[j].tasks[x].log.asked, who)
  {
    assert Dispatched(s, ks, j);
    StatesOrderly(priority, s, ks, j);
    LeadsOutcome(ks[j], s[j], ks[j + 1], x);
    CompletedByReply(ks[j], s[j], x, ks[j + 1].tasks[x], who);
    Received(ks[j], x);
  }

  /** Whatever a task has read in a run, it read at an earlier dispatch of its present life. */
  lemma ReadBefore(priority: nat, s: seq<Input>, ks: seq<Kernel>, j: nat, r: nat, n: nat) returns (e: nat)
    requires IsRun(priority, s, ks) && j <= |s| && r < |ks[j].tasks| && n < |ks[j].tasks[r].log.read|
    ensures e < j && ReadsAt(ks, e, Who(r, ks[j].tasks[r].log.life), n, ks[j].tasks[r].log.read[n])
  {
    forall h | 0 <= h < j ensures Reading(ks, h) {
      StatesRead(priority, s, ks, h);
    }
    BootBooks(priority);
    e := ReadOnce(ks, j, r, n);
  }

  /** In every run from boot: if dispatch `j` completes a send of `x` without error, then it is a reply by `who`, the
      very life of the task that the send went to, and this life has read the message at an earlier dispatch `e`.
      It is the message of this send and of no earlier one: up to it, `who` has read as many letters of `x`
      as `x` has sent to `who`. */
  lemma ReplyFollowsReception(priority: nat, s: seq<Input>, ks: seq<Kernel>, j: nat, x: nat, who: Who)
    returns (e: nat, n: nat)
    requires IsRun(priority, s, ks) && j < |s| && x < |ks[j].tasks| && x < |ks[j + 1].tasks|
    requires ks[j + 1].tasks[x].log.answered == ks[j].tasks[x].log.answered + [Answer(who, false)]
    ensures s[j].Syscall? && s[j].call.DoReply? && s[j].call.tid == x && 0 <= who.tid == ks[j].current < |ks[j].tasks|
    ensures e < j && ReadsAt(ks, e, who, n, Letter(x, ks[j].tasks[x].io.msg))
    ensures var read := ks[j].tasks[who.tid].log.read;
            n < |read| && |Wrote(read[..n + 1], x)| == SentTo(ks[j].tasks[x].log.asked, who)
  {
    CompletionReceived(priority, s, ks, j, x, who);
    n := LastWritten(ks[j].tasks[who.tid].log.read, x);
    e := ReadBefore(priority, s, ks, j, who.tid, n);
  }
}
