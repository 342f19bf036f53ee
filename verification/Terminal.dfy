/** terminal_server.c over its ring buffers and waiter arrays. */
module Terminal {
  import opened RingBuffer
  import opened TerminalModel

  /** PutcWaiter_t. */
  datatype PutcWaiter = PutcWaiter(tid: int, data: string, offset: nat)

  function Shown(p: Putter): PutcWaiter {
    PutcWaiter(p.tid, p.data, p.offset)
  }

  predicate Shows(a: seq<PutcWaiter>, s: seq<Putter>) {
    |a| == |s| && forall i :: 0 <= i < |s| ==> a[i] == Shown(s[i])
  }

  class TerminalServer {
    const tx: Ring<char>
    const rx: Ring<char>
    const getters: array<int>
    const putters: array<PutcWaiter>
    var getterCount: nat
    var putterCount: nat
    var parked: int
    ghost var model: Term

    constructor ()
      ensures Valid() && model == Begin() && fresh(Footprint())
    {
      tx := new Ring<char>(2048);
      rx := new Ring<char>(256);
      getters := new int[8];
      putters := new PutcWaiter[8](i => PutcWaiter(-1, "", 0));
      getterCount, putterCount, parked := 0, 0, -1;
      model := Begin();
    }

    ghost function Footprint(): set<object>
      reads this, tx, rx
    {
      {this, tx, tx.data, rx, rx.data, getters, putters}
    }

    ghost predicate Apart()
      reads this, tx, rx
    {
      tx != rx && tx.data != rx.data && tx.data.Length == TX_BUF_SIZE && rx.data.Length == RX_BUF_SIZE &&
      getters.Length == putters.Length == MAX_WAITERS
    }

    /** The output side is as `o` says. */
    ghost predicate ShowsOut(o: Out)
      reads this, tx, tx.data, putters
    {
      tx.Valid() && tx.Contents() == o.tx && putterCount <= putters.Length && Shows(putters[..putterCount], o.putters)
    }

    ghost predicate ShowsIn(i: In)
      reads this, rx, rx.data, getters
    {
      rx.Valid() && rx.Contents() == i.rx && getterCount <= getters.Length && getters[..getterCount] == i.getters
    }

    ghost predicate Sync()
      reads Footprint()
    {
      Apart() && ShowsOut(model.out) && ShowsIn(model.inp) && parked == model.parked
    }

    ghost predicate Valid()
      reads Footprint()
    {
      Sync() && TermInv(model)
    }

    /** The loop that hands bytes to the UART until the ring is empty or the UART is busy. */
    method DrainTx(room: nat, ghost o: Out) returns (sent: string)
      requires tx.Valid() && tx.Contents() == o.tx
      modifies tx
      ensures tx.Valid() && tx.Contents() == Drain(o, room).tx && Drain(o, room).wire == o.wire + sent
    {
      sent := "";
      while tx.count > 0 && |sent| < room
        invariant tx.Valid() && |sent| <= |o.tx| && |sent| <= room
        invariant sent == o.tx[..|sent|] && tx.Contents() == o.tx[|sent|..]
        decreases room - |sent|
      {
        var ok, c := tx.Get();
        assert o.tx[|sent|..] == [c] + tx.Contents();
        sent := sent + [c];
      }
    }

    /** The loop that puts bytes into the ring until all are in or it is full. */
    method PutAll(data: string, from: nat, ghost o: Out) returns (to: nat)
      requires tx.Valid() && tx.data.Length == TX_BUF_SIZE && tx.Contents() == o.tx && from <= |data|
      modifies tx, tx.data
      ensures tx.Valid() && to == from + Room(o, data, from) && tx.Contents() == o.tx + data[from..to]
    {
      to := from;
      assert o.tx + data[from..from] == o.tx;
      while to < |data|
        invariant tx.Valid() && from <= to <= |data| && tx.Contents() == o.tx + data[from..to]
      {
        var ok := tx.Put(data[to]);
        if !ok {
          return;
        }
        assert data[from..to + 1] == data[from..to] + [data[to]];
        to := to + 1;
      }
    }

    /** One waiter of drain_putc_waiters. */
    method FillWaiter(i: nat, ghost o: Out) returns (done: bool)
      requires tx.Valid() && tx.data.Length == TX_BUF_SIZE && tx.Contents() == o.tx && i < putterCount <= putters.Length
      requires Shows(putters[i..putterCount], o.putters) && o.putters[0].offset <= |o.putters[0].data|
      modifies tx, tx.data, putters
      ensures tx.Valid() && tx.Contents() == FlushFirst(o).0.tx && done == FlushFirst(o).1
      ensures Shows(putters[if done then i + 1 else i..putterCount], FlushFirst(o).0.putters)
      ensures putters[i].tid == old(putters[i].tid) && putters[i].data == old(putters[i].data)
    {
      ghost var was := putters[i..putterCount];
      var w := putters[i];
      assert w == was[0];
      var to := PutAll(w.data, w.offset, o);
      putters[i] := w.(offset := to);
      done := to == |w.data|;
      assert putters[i + 1..putterCount] == was[1..];
      assert putters[i..putterCount] == [w.(offset := to)] + was[1..];
    }

    /** drain_putc_waiters: how many waiters were answered. */
    method DrainWaiters(ghost o: Out) returns (drained: nat, rs: seq<Reply>, ghost f: Out)
      requires Apart() && ShowsOut(o) && OutInv(o)
      modifies tx, tx.data, putters
      ensures drained <= putterCount && tx.Valid() && tx.Contents() == f.tx && (f, rs) == Flush(o)
      ensures Shows(putters[drained..putterCount], f.putters)
    {
      drained, rs, f := 0, [], o;
      assert rs + Flush(f).1 == Flush(f).1;
      while drained < putterCount
        invariant drained <= putterCount && Apart() && tx.Valid() && tx.Contents() == f.tx && OutInv(f)
        invariant Shows(putters[drained..putterCount], f.putters) && Flush(o) == (Flush(f).0, rs + Flush(f).1)
      {
        FlushFirstKeeps(f);
        ghost var p := f.putters[0];
        assert putters[drained] == putters[drained..putterCount][0] == Shown(p);
        var done := FillWaiter(drained, f);
        FlushOne(f, rs);
        f := FlushFirst(f).0;
        if !done {
          return;
        }
        rs := rs + [Status(putters[drained].tid, |putters[drained].data|)];
        drained := drained + 1;
      }
      assert rs + [] == rs;
    }

    /** Moving the waiters that are left to the front. */
    method CloseUp(drained: nat, ghost s: seq<Putter>)
      requires drained <= putterCount <= putters.Length && Shows(putters[drained..putterCount], s)
      modifies putters, this`putterCount
      ensures putterCount == old(putterCount) - drained && Shows(putters[..putterCount], s)
    {
      ghost var rest := putters[drained..putterCount];
      var i, n := drained, putterCount;
      while i < n
        invariant drained <= i <= n
        invariant forall k :: 0 <= k < i - drained ==> putters[k] == rest[k]
        invariant forall k :: i <= k < n ==> putters[k] == rest[k - drained]
      {
        putters[i - drained] := putters[i];
        i := i + 1;
      }
      putterCount := n - drained;
      assert putters[..putterCount] == rest;
    }

    /** drain_putc_waiters and the removal of the answered waiters. */
    method FlushWaiters(ghost o: Out) returns (rs: seq<Reply>, ghost f: Out)
      requires Apart() && ShowsOut(o) && OutInv(o)
      modifies tx, tx.data, putters, this`putterCount
      ensures Apart() && ShowsOut(f) && (f, rs) == Flush(o)
    {
      var drained;
      drained, rs, f := DrainWaiters(o);
      CloseUp(drained, f.putters);
    }

    /** The end of TERM_MSG_TX_NOTIFY: the notifier is answered unless there is nothing left to send. */
    method ParkOrAnswer(tid: int, ghost f: Out) returns (rs: seq<Reply>)
      requires Apart() && ShowsOut(f) && ShowsIn(model.inp)
      modifies this`parked, this`model
      ensures Sync() && model == Term(f, old(model).inp, if Busy(f) then -1 else tid)
      ensures rs == if Busy(f) then [Status(tid, 0)] else []
    {
      if tx.count == 0 && putterCount == 0 {
        parked := tid;
        rs := [];
      } else {
        rs := [Status(tid, 0)];
        parked := -1;
      }
      model := Term(f, model.inp, parked);
    }

    /** TERM_MSG_TX_NOTIFY. */
    method Notified(tid: int, room: nat) returns (sent: string, rs: seq<Reply>)
      requires Valid()
      modifies Footprint()
      ensures Sync() && model == Step(old(model), tid, TxNotify, room).0 && rs == Step(old(model), tid, TxNotify, room).1
      ensures Drain(old(model).out, room).wire == old(model).out.wire + sent
    {
      ghost var t := model;
      DrainKeeps(model.out, room);
      sent := DrainTx(room, model.out);
      ghost var f;
      rs, f := FlushWaiters(Drain(model.out, room));
      NotifyStep(t, tid, room, f, rs);
      var last := ParkOrAnswer(tid, f);
      rs := rs + last;
    }

    /** The bytes of TERM_MSG_PUTC or TERM_MSG_PUTS enter the ring, or their caller waits or is refused. */
    method WriteData(tid: int, data: string, status: int) returns (rs: seq<Reply>)
      requires Sync() && |model.out.tx| <= TX_BUF_SIZE
      modifies Footprint()
      ensures Sync() && (model.out, rs) == Write(old(model).out, tid, data, status)
      ensures model == old(model).(out := model.out)
    {
      ghost var o := model.out;
      var written := PutAll(data, 0, o);
      if written < |data| {
        if putterCount < MAX_WAITERS {
          putters[putterCount] := PutcWaiter(tid, data, written);
          putterCount := putterCount + 1;
          rs := [];
        } else {
          rs := [Status(tid, -1)];
        }
      } else {
        rs := [Status(tid, status)];
      }
      model := model.(out := Write(o, tid, data, status).0);
    }

    /** Sending what the UART takes. */
    method DrainNow(room: nat) returns (sent: string)
      requires Sync()
      modifies tx, this`model
      ensures Sync() && model == old(model).(out := Drain(old(model).out, room))
      ensures model.out.wire == old(model).out.wire + sent
    {
      sent := DrainTx(room, model.out);
      model := model.(out := Drain(model.out, room));
    }

    /** Waking the parked notifier if anything is left to send. */
    method WakeNotifier(rs: seq<Reply>) returns (all: seq<Reply>)
      requires Sync()
      modifies this`parked, this`model
      ensures Sync() && model.out == old(model).out && model.inp == old(model).inp
      ensures if old(model).parked >= 0 && Busy(old(model).out) then model.parked == -1 && all == rs + [Status(old(model).parked, 0)]
              else model.parked == old(model).parked && all == rs
    {
      all := rs;
      if parked >= 0 && (tx.count > 0 || putterCount > 0) {
        all := all + [Status(parked, 0)];
        parked := -1;
        model := model.(parked := -1);
      }
    }

    /** The common end of TERM_MSG_PUTC and TERM_MSG_PUTS: send what the UART takes, wake the notifier. */
    method SendNow(room: nat, rs: seq<Reply>) returns (sent: string, all: seq<Reply>)
      requires Sync()
      modifies Footprint()
      ensures Sync() && (model, all) == Settle(old(model), (old(model).out, rs), room)
      ensures model.out.wire == old(model).out.wire + sent
    {
      sent := DrainNow(room);
      all := WakeNotifier(rs);
    }

    /** TERM_MSG_RX_NOTIFY. */
    method Received(tid: int, ch: char) returns (rs: seq<Reply>)
      requires Valid()
      modifies Footprint()
      ensures Sync() && (model, rs) == Step(old(model), tid, RxNotify(ch), 0)
    {
      rs := [Status(tid, 0)];
      ghost var i := model.inp;
      if getterCount > 0 {
        rs := rs + [Char(getters[0], ch)];
        DropGetter(i.getters);
      } else {
        var ok := rx.Put(ch);
      }
      assert rs == [Status(tid, 0)] + Hear(i, ch).1;
      model := model.(inp := Hear(i, ch).0);
    }

    /** The waiting readers move up. */
    method DropGetter(ghost s: seq<int>)
      requires 0 < getterCount <= getters.Length && getters[..getterCount] == s
      modifies getters, this`getterCount
      ensures getterCount == old(getterCount) - 1 && getters[..getterCount] == s[1..]
    {
      var i, n := 1, getterCount;
      while i < n
        invariant 1 <= i <= n
        invariant forall k :: 0 <= k < i - 1 ==> getters[k] == s[k + 1]
        invariant forall k :: i <= k < n ==> getters[k] == s[k]
      {
        getters[i - 1] := getters[i];
        i := i + 1;
      }
      getterCount := n - 1;
    }

    /** TERM_MSG_GETC. */
    method GetChar(tid: int) returns (rs: seq<Reply>)
      requires Valid()
      modifies Footprint()
      ensures Sync() && (model, rs) == Step(old(model), tid, Getc, 0)
    {
      ghost var i := model.inp;
      if rx.count > 0 {
        var ok, c := rx.Get();
        rs := [Char(tid, c)];
      } else if getterCount < MAX_WAITERS {
        getters[getterCount] := tid;
        getterCount := getterCount + 1;
        rs := [];
      } else {
        rs := [Status(tid, -1)];
      }
      model := model.(inp := Read(i, tid).0);
    }

    /** One round of the server loop; `sent` is what the UART got meanwhile. */
    method Handle(tid: int, r: Request, room: nat) returns (sent: string, rs: seq<Reply>)
      requires Valid() && RequestOk(r)
      modifies Footprint()
      ensures Valid() && (model, rs) == Step(old(model), tid, r, room)
      ensures model.out.wire == old(model).out.wire + sent
    {
      StepKeeps(model, tid, r, room);
      sent := "";
      match r {
        case RxNotify(ch) => rs := Received(tid, ch);
        case Getc => rs := GetChar(tid);
        case TxNotify =>
          FlushWire(Drain(model.out, room));
          sent, rs := Notified(tid, room);
        case Putc(ch) => sent, rs := PutData(tid, [ch], 0, room);
        case Puts(str, len) =>
          var n := CopyLen(len);
          sent, rs := PutData(tid, if n < 0 then "" else str[..n], n, room);
        case Other => rs := [Status(tid, -1)];
      }
    }

    method PutData(tid: int, data: string, status: int, room: nat) returns (sent: string, rs: seq<Reply>)
      requires Valid()
      modifies Footprint()
      ensures Sync() && (model, rs) == Settle(old(model), Write(old(model).out, tid, data, status), room)
      ensures model.out.wire == old(model).out.wire + sent
    {
      rs := WriteData(tid, data, status);
      sent, rs := SendNow(room, rs);
    }
  }

  lemma NotifyStep(t: Term, tid: int, room: nat, f: Out, rs: seq<Reply>)
    requires (f, rs) == Flush(Drain(t.out, room))
    ensures Step(t, tid, TxNotify, room).0 == Term(f, t.inp, if Busy(f) then -1 else tid)
    ensures Step(t, tid, TxNotify, room).1 == rs + if Busy(f) then [Status(tid, 0)] else []
  {
  }

  /** One round of drain_putc_waiters unfolds the flush once. */
  lemma FlushOne(f: Out, rs: seq<Reply>)
    requires OutInv(f) && f.putters != []
    ensures PutterOk(f, f.putters[0])
    ensures var (g, done) := FlushFirst(f);
            var p := f.putters[0];
            if done then (Flush(f).0, rs + Flush(f).1) == (Flush(g).0, (rs + [Status(p.tid, |p.data|)]) + Flush(g).1)
            else (Flush(f).0, rs + Flush(f).1) == (g, rs)
  {
    assert PutterOk(f, f.putters[0]);
    var (g, done) := FlushFirst(f);
    var p := f.putters[0];
    if done {
      assert rs + ([Status(p.tid, |p.data|)] + Flush(g).1) == (rs + [Status(p.tid, |p.data|)]) + Flush(g).1;
    } else {
      assert rs + [] == rs;
    }
  }

  /** Flushing only feeds the ring. */
  lemma {:induction false} FlushWire(o: Out)
    ensures Flush(o).0.wire == o.wire
    decreases |o.putters|
  {
    if o.putters != [] && o.putters[0].offset <= |o.putters[0].data| && FlushFirst(o).1 {
      FlushWire(FlushFirst(o).0);
    }
  }
}
