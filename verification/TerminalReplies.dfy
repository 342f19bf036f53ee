/** What the callers of the terminal server are told: one answer for each request to write, and a non-negative
    one only if all bytes of the request are in the output stream. */
module TerminalReplies {
  import opened TerminalModel

  /** The answer to request number `id`. */
  datatype Told = Told(id: nat, status: int)

  // ---------- one step ----------

  /** The answers of drain_putc_waiters. */
  function FlushTold(o: Out): seq<Told>
    decreases |o.putters|
  {
    if o.putters == [] || o.putters[0].offset > |o.putters[0].data| then []
    else
      var (f, done) := FlushFirst(o);
      if !done then [] else [Told(o.putters[0].id, |o.putters[0].data|)] + FlushTold(f)
  }

  /** The answer that a new request gets at once, if any. */
  function WriteTold(o: Out, data: string, status: int): seq<Told> {
    if Room(o, data, 0) == |data| then [Told(|o.jobs|, status)]
    else if |o.putters| < MAX_WAITERS then []
    else [Told(|o.jobs|, -1)]
  }

  /** What a Puts of `len` bytes writes. */
  function Text(str: string, len: int): string {
    if 0 <= CopyLen(len) <= |str| then str[..CopyLen(len)] else ""
  }

  function StepTold(t: Term, r: Request, room: nat): seq<Told> {
    match r
    case TxNotify => FlushTold(Drain(t.out, room))
    case Putc(ch) => WriteTold(t.out, [ch], 0)
    case Puts(str, len) => WriteTold(t.out, Text(str, len), CopyLen(len))
    case _ => []
  }

  /** The replies that go to notifiers, readers and senders of unknown requests. */
  function OtherReplies(t: Term, tid: int, r: Request, room: nat): seq<Reply> {
    match r
    case TxNotify => if Busy(Step(t, tid, r, room).0.out) then [Status(tid, 0)] else []
    case Putc(_) => if t.parked >= 0 && Busy(Step(t, tid, r, room).0.out) then [Status(t.parked, 0)] else []
    case Puts(_, _) => if t.parked >= 0 && Busy(Step(t, tid, r, room).0.out) then [Status(t.parked, 0)] else []
    case _ => Step(t, tid, r, room).1
  }

  /** The replies to the callers that these answers are for. */
  function RepliesTo(jobs: seq<Job>, s: seq<Told>): seq<Reply> {
    if s == [] then []
    else (if s[0].id < |jobs| then [Status(jobs[s[0].id].tid, s[0].status)] else []) + RepliesTo(jobs, s[1..])
  }

  /** Only who asked and what for matters. */
  lemma {:induction false} SameCallers(a: seq<Job>, b: seq<Job>, s: seq<Told>)
    requires |a| == |b| && forall i :: 0 <= i < |a| ==> a[i].tid == b[i].tid
    ensures RepliesTo(a, s) == RepliesTo(b, s)
  {
    if s != [] {
      SameCallers(a, b, s[1..]);
    }
  }

  lemma {:induction false} FlushReplies(o: Out)
    requires OutInv(o)
    ensures Flush(o).1 == RepliesTo(o.jobs, FlushTold(o))
    decreases |o.putters|
  {
    if o.putters != [] {
      FlushFirstKeeps(o);
      var (f, done) := FlushFirst(o);
      if done {
        FlushReplies(f);
        SameCallers(o.jobs, f.jobs, FlushTold(f));
        assert FlushTold(o)[1..] == FlushTold(f);
      }
    }
  }

  /** Every reply of a step either is an answer to a request to write or goes to somebody else. */
  lemma StepReplies(t: Term, tid: int, r: Request, room: nat)
    requires TermInv(t) && RequestOk(r)
    ensures var (u, rs) := Step(t, tid, r, room);
            rs == RepliesTo(u.out.jobs, StepTold(t, r, room)) + OtherReplies(t, tid, r, room)
  {
    match r
    case TxNotify =>
      var o := Drain(t.out, room);
      DrainKeeps(t.out, room);
      FlushReplies(o);
      FlushTells(o);
      SameCallers(o.jobs, Flush(o).0.jobs, FlushTold(o));
    case Putc(ch) => WriteReplies(t.out, tid, [ch], 0);
    case Puts(str, len) => WriteReplies(t.out, tid, Text(str, len), CopyLen(len));
    case _ =>
  }

  lemma WriteReplies(o: Out, tid: int, data: string, status: int)
    ensures Write(o, tid, data, status).1 == RepliesTo(Write(o, tid, data, status).0.jobs, WriteTold(o, data, status))
  {
    var s := WriteTold(o, data, status);
    if s != [] {
      assert s[1..] == [];
    }
  }

  // ---------- answers and the state of a request ----------

  /** The answers that request `id` has got, in order. */
  function AnswersTo(s: seq<Told>, id: nat): seq<int> {
    if s == [] then [] else AnswersTo(s[..|s| - 1], id) + if s[|s| - 1].id == id then [s[|s| - 1].status] else []
  }

  lemma {:induction false} AnswersJoin(s: seq<Told>, t: seq<Told>, id: nat)
    ensures AnswersTo(s + t, id) == AnswersTo(s, id) + AnswersTo(t, id)
    decreases |t|
  {
    if t == [] {
      assert s + t == s;
    } else {
      AnswersJoin(s, t[..|t| - 1], id);
      assert (s + t)[..|s + t| - 1] == s + t[..|t| - 1];
    }
  }

  lemma AnswerOne(w: Told, id: nat)
    ensures AnswersTo([w], id) == if w.id == id then [w.status] else []
  {
    assert [w][..0] == [];
  }

  /** What somebody whose request is in this state has been told. */
  function AnswerIn(state: JobState): seq<int> {
    match state
    case Waiting => []
    case Refused => [-1]
    case Written(status) => [status]
  }

  /** Request `id` was told, in a step from `a` to `b`, what its state came to be, if it was open before. */
  predicate Tells(a: seq<Job>, b: seq<Job>, s: seq<Told>, id: nat)
    requires |a| <= |b| && id < |b|
  {
    if id < |a| && a[id].state != Waiting then b[id] == a[id] && AnswersTo(s, id) == []
    else (id < |a| ==> b[id] == a[id].(state := b[id].state)) && AnswersTo(s, id) == AnswerIn(b[id].state)
  }

  predicate AllTold(a: seq<Job>, b: seq<Job>, s: seq<Told>) {
    |a| <= |b| && (forall id :: 0 <= id < |b| ==> Tells(a, b, s, id)) && forall i :: 0 <= i < |s| ==> s[i].id < |b|
  }

  lemma {:induction false} NoAnswers(s: seq<Told>, n: nat, id: nat)
    requires (forall i :: 0 <= i < |s| ==> s[i].id < n) && id >= n
    ensures AnswersTo(s, id) == []
  {
    if s != [] {
      NoAnswers(s[..|s| - 1], n, id);
    }
  }

  lemma TellsOn(a: seq<Job>, b: seq<Job>, c: seq<Job>, s: seq<Told>, t: seq<Told>)
    requires AllTold(a, b, s) && AllTold(b, c, t)
    ensures AllTold(a, c, s + t)
  {
    forall id | 0 <= id < |c| ensures Tells(a, c, s + t, id) {
      AnswersJoin(s, t, id);
      assert Tells(b, c, t, id);
      if id < |b| {
        assert Tells(a, b, s, id);
      } else {
        NoAnswers(s, |b|, id);
      }
    }
  }

  lemma NothingTold(a: seq<Job>)
    ensures AllTold(a, a, [])
  {
  }

  /** The first waiting request is told when it is done. */
  lemma FirstTold(o: Out)
    requires OutInv(o) && o.putters != [] && FlushFirst(o).1
    ensures AllTold(o.jobs, FlushFirst(o).0.jobs, [Told(o.putters[0].id, |o.putters[0].data|)])
  {
    var p, f := o.putters[0], FlushFirst(o).0;
    assert PutterOk(o, p);
    forall id | 0 <= id < |f.jobs| ensures Tells(o.jobs, f.jobs, [Told(p.id, |p.data|)], id) {
      AnswerOne(Told(p.id, |p.data|), id);
    }
  }

  lemma {:induction false} FlushTells(o: Out)
    requires OutInv(o)
    ensures AllTold(o.jobs, Flush(o).0.jobs, FlushTold(o)) && |Flush(o).0.jobs| == |o.jobs|
    ensures forall i :: 0 <= i < |o.jobs| ==> Flush(o).0.jobs[i].tid == o.jobs[i].tid
    decreases |o.putters|
  {
    NothingTold(o.jobs);
    if o.putters != [] {
      FlushFirstKeeps(o);
      var (f, done) := FlushFirst(o);
      if done {
        FirstTold(o);
        FlushTells(f);
        TellsOn(o.jobs, f.jobs, Flush(f).0.jobs, [Told(o.putters[0].id, |o.putters[0].data|)], FlushTold(f));
      }
    }
  }

  lemma WriteTells(o: Out, tid: int, data: string, status: int)
    ensures AllTold(o.jobs, Write(o, tid, data, status).0.jobs, WriteTold(o, data, status))
  {
    var w, s := Write(o, tid, data, status).0, WriteTold(o, data, status);
    forall id | 0 <= id < |w.jobs| ensures Tells(o.jobs, w.jobs, s, id) {
      if s != [] {
        AnswerOne(s[0], id);
        assert s == [s[0]];
      }
    }
  }

  lemma StepTells(t: Term, tid: int, r: Request, room: nat)
    requires TermInv(t) && RequestOk(r)
    ensures AllTold(t.out.jobs, Step(t, tid, r, room).0.out.jobs, StepTold(t, r, room))
  {
    match r
    case TxNotify =>
      DrainKeeps(t.out, room);
      FlushTells(Drain(t.out, room));
    case Putc(ch) => WriteTells(t.out, tid, [ch], 0);
    case Puts(str, len) => WriteTells(t.out, tid, Text(str, len), CopyLen(len));
    case _ => NothingTold(t.out.jobs);
  }

  // ---------- whole runs ----------

  /** A request to write, as its caller made it: the bytes, how many they are meant to be, and whether it is a Puts. */
  datatype Wish = Wish(tid: int, data: string, len: int, puts: bool)

  /** A Puts is cut to 128 bytes; a negative length asks for none. */
  function Asked(tid: int, str: string, len: int): Wish {
    if len < 0 then Wish(tid, "", len, true)
    else if len <= 128 && len <= |str| then Wish(tid, str[..len], len, true)
    else if len > 128 && 128 <= |str| then Wish(tid, str[..128], 128, true)
    else Wish(tid, "", 0, true)
  }

  /** The requests to write of a run, in order. */
  function Wishes(s: seq<Message>): seq<Wish> {
    if s == [] then []
    else
      Wishes(s[..|s| - 1]) +
      match s[|s| - 1].req
      case Putc(ch) => [Wish(s[|s| - 1].tid, [ch], 1, false)]
      case Puts(str, len) => [Asked(s[|s| - 1].tid, str, len)]
      case _ => []
  }

  /** All answers to requests to write that have been given during a run. */
  function ToldIn(s: seq<Message>): seq<Told> {
    if s == [] then [] else ToldIn(s[..|s| - 1]) + StepTold(Run(s[..|s| - 1]), s[|s| - 1].req, s[|s| - 1].room)
  }

  predicate MessagesOk(s: seq<Message>) {
    forall i :: 0 <= i < |s| ==> RequestOk(s[i].req)
  }

  lemma {:induction false} RunTells(s: seq<Message>)
    requires MessagesOk(s)
    ensures AllTold([], Run(s).out.jobs, ToldIn(s))
  {
    if s == [] {
      NothingTold([]);
    } else {
      var before, m := s[..|s| - 1], s[|s| - 1];
      RunTells(before);
      RunKeeps(before);
      assert RequestOk(m.req);
      StepTells(Run(before), m.tid, m.req, m.room);
      TellsOn([], Run(before).out.jobs, Run(s).out.jobs, ToldIn(before), StepTold(Run(before), m.req, m.room));
    }
  }

  /** Answers to a request that has been written: its length, or 0 to a Putc. */
  predicate RightStatus(w: Wish, status: int) {
    status == w.len || (!w.puts && status == 0)
  }

  /** Request `id` is the wish that was made. */
  predicate Grants(j: Job, w: Wish) {
    j.tid == w.tid && j.data == w.data && (j.state.Written? ==> RightStatus(w, j.state.status)) &&
    (w.len < 0 ==> w.data == "" && w.puts) && (w.len >= 0 ==> |w.data| == w.len)
  }

  predicate AllGrant(jobs: seq<Job>, ws: seq<Wish>) {
    |jobs| == |ws| && forall id :: 0 <= id < |ws| ==> Grants(jobs[id], ws[id])
  }

  lemma {:induction false} FlushGrants(o: Out, ws: seq<Wish>)
    requires OutInv(o) && AllGrant(o.jobs, ws)
    ensures AllGrant(Flush(o).0.jobs, ws)
    decreases |o.putters|
  {
    if o.putters != [] {
      FlushFirstKeeps(o);
      var p := o.putters[0];
      var (f, done) := FlushFirst(o);
      if done {
        assert PutterOk(o, p) && Grants(o.jobs[p.id], ws[p.id]);
        assert AllGrant(f.jobs, ws);
        FlushGrants(f, ws);
      }
    }
  }

  lemma WriteGrants(o: Out, ws: seq<Wish>, tid: int, data: string, status: int, w: Wish)
    requires AllGrant(o.jobs, ws) && RightStatus(w, status) && w.tid == tid && w.data == data
    requires if w.len < 0 then data == "" && w.puts else |data| == w.len
    ensures AllGrant(Write(o, tid, data, status).0.jobs, ws + [w])
  {
  }

  lemma {:induction false} RunGrants(s: seq<Message>)
    requires MessagesOk(s)
    ensures AllGrant(Run(s).out.jobs, Wishes(s))
  {
    if s != [] {
      var before, m := s[..|s| - 1], s[|s| - 1];
      var t := Run(before);
      RunGrants(before);
      RunKeeps(before);
      assert RequestOk(m.req);
      match m.req
      case TxNotify =>
        DrainKeeps(t.out, m.room);
        FlushGrants(Drain(t.out, m.room), Wishes(before));
      case Putc(ch) => WriteGrants(t.out, Wishes(before), m.tid, [ch], 0, Wish(m.tid, [ch], 1, false));
      case Puts(str, len) =>
        WriteGrants(t.out, Wishes(before), m.tid, Text(str, len), CopyLen(len), Asked(m.tid, str, len));
      case _ =>
    }
  }

  /** In every run each request to write is answered at most once. It is not answered exactly while it waits; it is
      told -1 if it was refused, and otherwise its length, or 0 for a Putc. Once it is told a length that is not
      negative all its bytes, as the caller gave them, are in the output stream, in order and each once. */
  lemma AnsweredOnce(s: seq<Message>, id: nat)
    requires MessagesOk(s) && id < |Wishes(s)|
    ensures |Run(s).out.jobs| == |Wishes(s)|
    ensures var a, job, w := AnswersTo(ToldIn(s), id), Run(s).out.jobs[id], Wishes(s)[id];
            job.tid == w.tid && job.data == w.data && |a| <= 1 && (a == [] <==> job.state == Waiting) &&
            (a != [] ==> if job.state.Written? then RightStatus(w, a[0]) else a[0] == -1) &&
            (a != [] && a[0] >= 0 ==> Of(Run(s).out.entered, id) == w.data)
  {
    RunKeeps(s);
    RunTells(s);
    RunGrants(s);
    assert Tells([], Run(s).out.jobs, ToldIn(s), id) && Grants(Run(s).out.jobs[id], Wishes(s)[id]);
    assert JobOk(Run(s).out, id);
  }
}
