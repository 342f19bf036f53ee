/** What the terminal server does with each request, and why no byte is lost, doubled or reordered within a
    request and no wake-up of the transmit notifier is missed. */
module TerminalModel {

  const TX_BUF_SIZE: nat := 2048
  const RX_BUF_SIZE: nat := 256
  const MAX_WAITERS: nat := 8
  const MAX_STR_LEN: nat := 128

  /** A byte of the output stream and the request it belongs to. */
  datatype Tagged = Tagged(ch: char, id: nat)

  /** A caller that waits for room; `offset` bytes have entered the stream. */
  datatype Putter = Putter(id: nat, tid: int, data: string, offset: nat)

  datatype JobState = Waiting | Refused | Written(status: int)

  /** A request to write, with the answer it got. */
  datatype Job = Job(tid: int, data: string, state: JobState)

  /** The output side. History: `wire` is what the UART has taken, `entered` all that ever entered the ring,
      and `jobs` the requests so far. */
  datatype Out = Out(tx: string, putters: seq<Putter>, wire: string, entered: seq<Tagged>, jobs: seq<Job>)

  /** The input side. History: `heard` is what was received and not dropped, `given` what was handed out. */
  datatype In = In(rx: string, getters: seq<int>, heard: string, given: string)

  /** `parked` is the TX notifier that has not been answered, -1 if none. */
  datatype Term = Term(out: Out, inp: In, parked: int)

  datatype Reply = Status(tid: int, status: int) | Char(tid: int, ch: char)

  datatype Request = RxNotify(ch: char) | TxNotify | Getc | Putc(ch: char) | Puts(str: string, len: int) | Other

  // ---------- output ----------

  function Min(a: nat, b: nat): nat {
    if a < b then a else b
  }

  function Tag(s: string, id: nat): (r: seq<Tagged>)
    ensures |r| == |s|
  {
    seq(|s|, i requires 0 <= i < |s| => Tagged(s[i], id))
  }

  function Chars(s: seq<Tagged>): (r: string)
    ensures |r| == |s|
  {
    seq(|s|, i requires 0 <= i < |s| => s[i].ch)
  }

  /** The bytes of one request in the stream. */
  function Of(s: seq<Tagged>, id: nat): string {
    if s == [] then "" else Of(s[..|s| - 1], id) + if s[|s| - 1].id == id then [s[|s| - 1].ch] else ""
  }

  /** How many more bytes of `data` fit into the ring. */
  function Room(o: Out, data: string, from: nat): nat
    requires from <= |data|
  {
    Min(|data| - from, if |o.tx| <= TX_BUF_SIZE then TX_BUF_SIZE - |o.tx| else 0)
  }

  /** As many bytes as fit enter the ring. */
  function Fill(o: Out, id: nat, data: string, from: nat): Out
    requires from <= |data|
  {
    var s := data[from..from + Room(o, data, from)];
    o.(tx := o.tx + s, entered := o.entered + Tag(s, id))
  }

  /** The UART takes up to `room` bytes. */
  function Drain(o: Out, room: nat): Out {
    var k := Min(room, |o.tx|);
    o.(tx := o.tx[k..], wire := o.wire + o.tx[..k])
  }

  function WithState(jobs: seq<Job>, id: nat, s: JobState): seq<Job> {
    if id < |jobs| then jobs[id := jobs[id].(state := s)] else jobs
  }

  /** The first waiting caller gets more bytes in; it is done once all of them are. */
  function FlushFirst(o: Out): (r: (Out, bool))
    requires o.putters != [] && o.putters[0].offset <= |o.putters[0].data|
    ensures r.1 ==> |r.0.putters| < |o.putters|
  {
    var p := o.putters[0];
    var off := p.offset + Room(o, p.data, p.offset);
    var f := Fill(o, p.id, p.data, p.offset);
    if off < |p.data| then (f.(putters := [p.(offset := off)] + o.putters[1..]), false)
    else (f.(putters := o.putters[1..], jobs := WithState(o.jobs, p.id, Written(|p.data|))), true)
  }

  /** drain_putc_waiters, and dropping the callers that were answered. */
  function Flush(o: Out): (Out, seq<Reply>)
    decreases |o.putters|
  {
    if o.putters == [] || o.putters[0].offset > |o.putters[0].data| then (o, [])
    else
      var (f, done) := FlushFirst(o);
      if !done then (f, [])
      else var (g, rs) := Flush(f); (g, [Status(o.putters[0].tid, |o.putters[0].data|)] + rs)
  }

  /** A request to write `data`, answered with `status` if it fits at once. */
  function Write(o: Out, tid: int, data: string, status: int): (Out, seq<Reply>) {
    var id := |o.jobs|;
    var k := Room(o, data, 0);
    var f := Fill(o, id, data, 0);
    if k < |data| then
      if |o.putters| < MAX_WAITERS then
        (f.(putters := o.putters + [Putter(id, tid, data, k)], jobs := o.jobs + [Job(tid, data, Waiting)]), [])
      else (f.(jobs := o.jobs + [Job(tid, data, Refused)]), [Status(tid, -1)])
    else (f.(jobs := o.jobs + [Job(tid, data, Written(status))]), [Status(tid, status)])
  }

  /** What Puts writes: at most MAX_STR_LEN bytes, none for a negative length. */
  function CopyLen(len: int): int {
    if len < MAX_STR_LEN then len else MAX_STR_LEN
  }

  // ---------- the output invariant ----------

  lemma OfOne(a: seq<Tagged>, c: Tagged, x: nat)
    ensures Of(a + [c], x) == Of(a, x) + if c.id == x then [c.ch] else ""
  {
    assert (a + [c])[..|a|] == a;
  }

  lemma {:induction false} OfAppend(a: seq<Tagged>, s: string, id: nat, x: nat)
    ensures Of(a + Tag(s, id), x) == Of(a, x) + if x == id then s else ""
  {
    if s == "" {
      assert a + Tag(s, id) == a;
    } else {
      var t, c := s[..|s| - 1], s[|s| - 1];
      OfAppend(a, t, id, x);
      assert a + Tag(s, id) == (a + Tag(t, id)) + [Tagged(c, id)];
      OfOne(a + Tag(t, id), Tagged(c, id), x);
      assert s == t + [c];
    }
  }

  lemma CharsAppend(a: seq<Tagged>, s: string, id: nat)
    ensures Chars(a + Tag(s, id)) == Chars(a) + s
  {
  }

  lemma {:induction false} NoneOf(s: seq<Tagged>, id: nat)
    requires forall i :: 0 <= i < |s| ==> s[i].id != id
    ensures Of(s, id) == ""
  {
    if s != [] {
      NoneOf(s[..|s| - 1], id);
    }
  }

  predicate InQueue(o: Out, id: nat) {
    exists i :: 0 <= i < |o.putters| && o.putters[i].id == id
  }

  /** A waiting caller is an open request of which exactly the first `offset` bytes have entered. */
  predicate PutterOk(o: Out, p: Putter) {
    p.id < |o.jobs| && o.jobs[p.id] == Job(p.tid, p.data, Waiting) && p.offset < |p.data| &&
    Of(o.entered, p.id) == p.data[..p.offset]
  }

  /** The bytes of every request enter in order and at most once; all of them have entered if it was
      answered as written, and it waits in the queue as long as it is not answered. */
  predicate JobOk(o: Out, id: nat)
    requires id < |o.jobs|
  {
    Of(o.entered, id) <= o.jobs[id].data &&
    (o.jobs[id].state.Written? ==> Of(o.entered, id) == o.jobs[id].data) &&
    (o.jobs[id].state == Waiting <==> InQueue(o, id))
  }

  predicate DistinctIds(s: seq<Putter>) {
    forall i, j :: 0 <= i < j < |s| ==> s[i].id != s[j].id
  }

  predicate OutInv(o: Out) {
    |o.tx| <= TX_BUF_SIZE && |o.putters| <= MAX_WAITERS && Chars(o.entered) == o.wire + o.tx &&
    DistinctIds(o.putters) && (forall i :: 0 <= i < |o.putters| ==> PutterOk(o, o.putters[i])) &&
    (forall id :: 0 <= id < |o.jobs| ==> JobOk(o, id)) &&
    forall i :: 0 <= i < |o.entered| ==> o.entered[i].id < |o.jobs|
  }

  lemma DrainKeeps(o: Out, room: nat)
    requires OutInv(o)
    ensures OutInv(Drain(o, room))
  {
    var d, k := Drain(o, room), Min(room, |o.tx|);
    assert o.tx == o.tx[..k] + o.tx[k..];
    assert d.wire + d.tx == o.wire + o.tx;
    forall i | 0 <= i < |d.putters| ensures PutterOk(d, d.putters[i]) {
      assert PutterOk(o, o.putters[i]);
    }
    forall id | 0 <= id < |d.jobs| ensures JobOk(d, id) {
      assert JobOk(o, id);
      assert InQueue(d, id) <==> InQueue(o, id);
    }
  }

  /** What filling does to the stream. */
  lemma FillStream(o: Out, id: nat, data: string, from: nat)
    requires from <= |data| && |o.tx| <= TX_BUF_SIZE && Chars(o.entered) == o.wire + o.tx
    ensures var f, k := Fill(o, id, data, from), Room(o, data, from);
            |f.tx| <= TX_BUF_SIZE && Chars(f.entered) == f.wire + f.tx &&
            Of(f.entered, id) == Of(o.entered, id) + data[from..from + k] &&
            (forall x: nat :: x != id ==> Of(f.entered, x) == Of(o.entered, x)) &&
            (from + k < |data| ==> |f.tx| == TX_BUF_SIZE)
  {
    var s := data[from..from + Room(o, data, from)];
    CharsAppend(o.entered, s, id);
    OfAppend(o.entered, s, id, id);
    forall x: nat | x != id ensures Of(Fill(o, id, data, from).entered, x) == Of(o.entered, x) {
      OfAppend(o.entered, s, id, x);
    }
    assert o.wire + (o.tx + s) == (o.wire + o.tx) + s;
  }

  /** How much of the first caller's data has entered after one round. */
  function FlushedTo(o: Out): nat
    requires o.putters != [] && o.putters[0].offset <= |o.putters[0].data|
  {
    o.putters[0].offset + Room(o, o.putters[0].data, o.putters[0].offset)
  }

  lemma FlushedStream(o: Out)
    requires OutInv(o) && o.putters != []
    ensures PutterOk(o, o.putters[0])
    ensures var p, f := o.putters[0], FlushFirst(o).0;
            |f.tx| <= TX_BUF_SIZE && Chars(f.entered) == f.wire + f.tx && Of(f.entered, p.id) == p.data[..FlushedTo(o)] &&
            forall x: nat :: x != p.id ==> Of(f.entered, x) == Of(o.entered, x)
  {
    var p := o.putters[0];
    assert PutterOk(o, p);
    FillStream(o, p.id, p.data, p.offset);
    assert p.data[..p.offset] + p.data[p.offset..FlushedTo(o)] == p.data[..FlushedTo(o)];
  }

  lemma FlushedQueue(o: Out, x: nat)
    requires o.putters != [] && o.putters[0].offset <= |o.putters[0].data| && DistinctIds(o.putters)
    ensures var p, r := o.putters[0], FlushFirst(o);
            (x != p.id ==> (InQueue(r.0, x) <==> InQueue(o, x))) && (InQueue(r.0, p.id) <==> !r.1) &&
            DistinctIds(r.0.putters)
  {
    var p, r := o.putters[0], FlushFirst(o);
    if x != p.id {
      QueueTail(o.putters, r.0.putters, x, r.1);
    }
    if !r.1 {
      assert r.0.putters[0].id == p.id;
    }
  }

  lemma FlushedPutters(o: Out)
    requires OutInv(o) && o.putters != []
    ensures PutterOk(o, o.putters[0])
    ensures forall i :: 0 <= i < |FlushFirst(o).0.putters| ==> PutterOk(FlushFirst(o).0, FlushFirst(o).0.putters[i])
  {
    FlushedStream(o);
    var (f, done) := FlushFirst(o);
    forall i | 0 <= i < |f.putters| ensures PutterOk(f, f.putters[i]) {
      if done {
        assert f.putters[i] == o.putters[i + 1];
        assert PutterOk(o, o.putters[i + 1]);
      } else if i > 0 {
        assert f.putters[i] == o.putters[i];
        assert PutterOk(o, o.putters[i]);
      }
    }
  }

  lemma FlushedJobs(o: Out, x: nat)
    requires OutInv(o) && o.putters != [] && x < |o.jobs|
    ensures PutterOk(o, o.putters[0]) && |FlushFirst(o).0.jobs| == |o.jobs| && JobOk(FlushFirst(o).0, x)
  {
    FlushedStream(o);
    FlushedQueue(o, x);
    assert JobOk(o, x);
  }

  lemma FlushFirstKeeps(o: Out)
    requires OutInv(o) && o.putters != []
    ensures PutterOk(o, o.putters[0]) && OutInv(FlushFirst(o).0)
    ensures FlushFirst(o).1 ==> FlushFirst(o).0.putters == o.putters[1..]
  {
    FlushedStream(o);
    FlushedPutters(o);
    FlushedQueue(o, 0);
    forall x | 0 <= x < |o.jobs| ensures JobOk(FlushFirst(o).0, x) {
      FlushedJobs(o, x);
    }
  }

  lemma QueueTail(s: seq<Putter>, r: seq<Putter>, x: nat, done: bool)
    requires s != [] && s[0].id != x
    requires if done then r == s[1..] else |r| == |s| && r[0].id == s[0].id && r[1..] == s[1..]
    ensures (exists i :: 0 <= i < |r| && r[i].id == x) <==> (exists i :: 0 <= i < |s| && s[i].id == x)
  {
    if i :| 0 <= i < |s| && s[i].id == x {
      assert r[if done then i - 1 else i] == s[i] by {
        assert done || r[1..][i - 1] == s[1..][i - 1];
      }
    }
    if i :| 0 <= i < |r| && r[i].id == x {
      assert s[if done then i + 1 else i].id == x by {
        assert done || i == 0 || r[1..][i - 1] == s[1..][i - 1];
      }
    }
  }

  /** A flush answers callers in queue order, and stops only when the ring is full or nobody waits. */
  lemma {:induction false} FlushKeeps(o: Out)
    requires OutInv(o)
    ensures OutInv(Flush(o).0)
    ensures var n := |Flush(o).1|;
            n <= |o.putters| && (forall i :: 0 <= i < n ==> Flush(o).1[i] == Status(o.putters[i].tid, |o.putters[i].data|)) &&
            |Flush(o).0.putters| == |o.putters| - n && (Flush(o).0.putters != [] ==> |Flush(o).0.tx| == TX_BUF_SIZE)
    decreases |o.putters|
  {
    if o.putters != [] {
      FlushFirstKeeps(o);
      var (f, done) := FlushFirst(o);
      if done {
        FlushKeeps(f);
      } else {
        var p := o.putters[0];
        FillStream(o, p.id, p.data, p.offset);
      }
    }
  }

  lemma WrittenStream(o: Out, tid: int, data: string, status: int)
    requires OutInv(o)
    ensures var w := Write(o, tid, data, status).0;
            |w.tx| <= TX_BUF_SIZE && Chars(w.entered) == w.wire + w.tx && Of(w.entered, |o.jobs|) == data[..Room(o, data, 0)] &&
            forall x: nat :: x != |o.jobs| ==> Of(w.entered, x) == Of(o.entered, x)
  {
    FillStream(o, |o.jobs|, data, 0);
    NoneOf(o.entered, |o.jobs|);
    assert data[0..0 + Room(o, data, 0)] == data[..Room(o, data, 0)];
  }

  lemma OldJob(o: Out, tid: int, data: string, status: int, x: nat)
    requires OutInv(o) && x < |o.jobs|
    ensures var w := Write(o, tid, data, status).0; |w.jobs| == |o.jobs| + 1 && JobOk(w, x)
  {
    var w := Write(o, tid, data, status).0;
    WrittenStream(o, tid, data, status);
    assert JobOk(o, x);
    assert InQueue(w, x) <==> InQueue(o, x) by {
      GrownQueue(o.putters, w.putters, x);
    }
  }

  lemma OldPutter(o: Out, tid: int, data: string, status: int, i: nat)
    requires OutInv(o) && i < |o.putters|
    ensures PutterOk(Write(o, tid, data, status).0, o.putters[i]) && o.putters[i].id < |o.jobs|
  {
    WrittenStream(o, tid, data, status);
    assert PutterOk(o, o.putters[i]);
  }

  lemma WriteKeeps(o: Out, tid: int, data: string, status: int)
    requires OutInv(o)
    ensures OutInv(Write(o, tid, data, status).0)
  {
    var w := Write(o, tid, data, status).0;
    WrittenStream(o, tid, data, status);
    forall x | 0 <= x < |o.jobs| ensures JobOk(w, x) {
      OldJob(o, tid, data, status, x);
    }
    forall i | 0 <= i < |o.putters| ensures PutterOk(w, o.putters[i]) && o.putters[i].id < |o.jobs| {
      OldPutter(o, tid, data, status, i);
    }
    NewJob(o, w, tid, data, status);
  }

  lemma GrownQueue(s: seq<Putter>, r: seq<Putter>, x: nat)
    requires r == s || (|r| == |s| + 1 && r[..|s|] == s && r[|s|].id != x)
    ensures (exists i :: 0 <= i < |r| && r[i].id == x) <==> (exists i :: 0 <= i < |s| && s[i].id == x)
  {
    if i :| 0 <= i < |s| && s[i].id == x {
      assert r[i] == s[i];
    }
  }

  lemma NewJob(o: Out, w: Out, tid: int, data: string, status: int)
    requires w == Write(o, tid, data, status).0
    requires Of(w.entered, |o.jobs|) == data[..Room(o, data, 0)]
    requires forall i :: 0 <= i < |o.putters| ==> o.putters[i].id < |o.jobs|
    ensures JobOk(w, |o.jobs|)
    ensures forall i :: |o.putters| <= i < |w.putters| ==> PutterOk(w, w.putters[i]) && w.putters[i].id == |o.jobs|
  {
    var id, k := |o.jobs|, Room(o, data, 0);
    if k == |data| {
      assert data[..k] == data;
    } else if |o.putters| < MAX_WAITERS {
      assert w.putters[|o.putters|].id == id;
    }
  }

  // ---------- input ----------

  predicate InInv(i: In) {
    |i.rx| <= RX_BUF_SIZE && |i.getters| <= MAX_WAITERS && i.heard == i.given + i.rx && (i.getters != [] ==> i.rx == "")
  }

  /** A received byte goes to the first waiting reader, else into the ring, which drops it when full. */
  function Hear(i: In, ch: char): (In, seq<Reply>) {
    if i.getters != [] then
      (i.(getters := i.getters[1..], heard := i.heard + [ch], given := i.given + [ch]), [Char(i.getters[0], ch)])
    else if |i.rx| < RX_BUF_SIZE then (i.(rx := i.rx + [ch], heard := i.heard + [ch]), [])
    else (i, [])
  }

  function Read(i: In, tid: int): (In, seq<Reply>) {
    if i.rx != "" then (i.(rx := i.rx[1..], given := i.given + [i.rx[0]]), [Char(tid, i.rx[0])])
    else if |i.getters| < MAX_WAITERS then (i.(getters := i.getters + [tid]), [])
    else (i, [Status(tid, -1)])
  }

  lemma InputKeeps(i: In, ch: char, tid: int)
    requires InInv(i)
    ensures InInv(Hear(i, ch).0) && InInv(Read(i, tid).0)
  {
    if i.rx != "" {
      assert i.rx == [i.rx[0]] + i.rx[1..];
    }
    if i.getters == [] {
      assert i.given + (i.rx + [ch]) == (i.given + i.rx) + [ch];
    }
  }

  // ---------- the server ----------

  predicate Busy(o: Out) {
    o.tx != "" || o.putters != []
  }

  /** After a write the UART takes what it can, and a parked notifier is answered if anything is left. */
  function Settle(t: Term, w: (Out, seq<Reply>), room: nat): (Term, seq<Reply>) {
    var d := Drain(w.0, room);
    if t.parked >= 0 && Busy(d) then (Term(d, t.inp, -1), w.1 + [Status(t.parked, 0)])
    else (Term(d, t.inp, t.parked), w.1)
  }

  /** One request from `tid`; `room` is how many bytes the UART takes while it is handled. */
  function Step(t: Term, tid: int, r: Request, room: nat): (Term, seq<Reply>) {
    match r
    case RxNotify(ch) => (t.(inp := Hear(t.inp, ch).0), [Status(tid, 0)] + Hear(t.inp, ch).1)
    case Getc => (t.(inp := Read(t.inp, tid).0), Read(t.inp, tid).1)
    case TxNotify =>
      var (o, rs) := Flush(Drain(t.out, room));
      if Busy(o) then (Term(o, t.inp, -1), rs + [Status(tid, 0)]) else (Term(o, t.inp, tid), rs)
    case Putc(ch) => Settle(t, Write(t.out, tid, [ch], 0), room)
    case Puts(str, len) =>
      var n := CopyLen(len);
      if n > |str| then (t, []) else Settle(t, Write(t.out, tid, if n < 0 then "" else str[..n], n), room)
    case Other => (t, [Status(tid, -1)])
  }

  /** The message holds as many bytes as it says. */
  predicate RequestOk(r: Request) {
    r.Puts? ==> CopyLen(r.len) <= |r.str|
  }

  /** No lost wake-up: the notifier is parked only while there is nothing to send. */
  predicate TermInv(t: Term) {
    OutInv(t.out) && InInv(t.inp) && (t.parked >= 0 ==> !Busy(t.out))
  }

  /** A write keeps it: the notifier stays parked only if nothing is left to send. */
  lemma SettleKeeps(t: Term, tid: int, data: string, status: int, room: nat)
    requires TermInv(t)
    ensures TermInv(Settle(t, Write(t.out, tid, data, status), room).0)
  {
    WriteKeeps(t.out, tid, data, status);
    DrainKeeps(Write(t.out, tid, data, status).0, room);
  }

  /** Every request keeps the invariant. */
  lemma StepKeeps(t: Term, tid: int, r: Request, room: nat)
    requires TermInv(t) && RequestOk(r)
    ensures TermInv(Step(t, tid, r, room).0)
  {
    match r
    case RxNotify(ch) => InputKeeps(t.inp, ch, tid);
    case Getc => InputKeeps(t.inp, ' ', tid);
    case TxNotify =>
      DrainKeeps(t.out, room);
      FlushKeeps(Drain(t.out, room));
    case Putc(ch) =>
      SettleKeeps(t, tid, [ch], 0, room);
    case Puts(str, len) =>
      var n := CopyLen(len);
      var data := if n < 0 then "" else str[..n];
      SettleKeeps(t, tid, data, n, room);
    case Other =>
  }

  /** The notifier is answered exactly when it stops being parked, and a notification is either answered
      or leaves its sender parked. */
  lemma NotifierAnswered(t: Term, tid: int, r: Request, room: nat)
    requires TermInv(t) && RequestOk(r) && tid >= 0
    ensures var (u, rs) := Step(t, tid, r, room);
            (r.TxNotify? ==> u.parked == tid || Status(tid, 0) in rs) &&
            (!r.TxNotify? && u.parked != t.parked ==> u.parked == -1 && Status(t.parked, 0) in rs)
  {
  }

  // ---------- runs ----------

  datatype Message = Message(tid: int, req: Request, room: nat)

  function Begin(): Term {
    Term(Out("", [], "", [], []), In("", [], "", ""), -1)
  }

  function Run(s: seq<Message>): Term {
    if s == [] then Begin()
    else var m := s[|s| - 1]; Step(Run(s[..|s| - 1]), m.tid, m.req, m.room).0
  }

  /** In every reachable state: the UART has got a prefix of what entered, in order; each request's bytes
      entered in order and at most once, and completely if it was answered as written; bytes are read in
      the order they were received; and the notifier is parked only if nothing is to be sent. */
  lemma {:induction false} RunKeeps(s: seq<Message>)
    requires forall i :: 0 <= i < |s| ==> RequestOk(s[i].req)
    ensures TermInv(Run(s))
  {
    if s != [] {
      RunKeeps(s[..|s| - 1]);
      var m := s[|s| - 1];
      StepKeeps(Run(s[..|s| - 1]), m.tid, m.req, m.room);
    }
  }

  /** A request that counts as written has all its bytes in the stream, and what the UART got is the stream's
      beginning. TerminalReplies relates this to the answers that the callers get. */
  lemma WrittenIsWhole(s: seq<Message>, id: nat)
    requires forall i :: 0 <= i < |s| ==> RequestOk(s[i].req)
    requires id < |Run(s).out.jobs| && Run(s).out.jobs[id].state.Written?
    ensures Of(Run(s).out.entered, id) == Run(s).out.jobs[id].data
    ensures Run(s).out.wire <= Chars(Run(s).out.entered)
  {
    RunKeeps(s);
    assert JobOk(Run(s).out, id);
  }
}
