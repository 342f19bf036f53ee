/** What one request to the terminal server does and who is told what, written out independently of the functions that
    define a step. */
module TerminalCalls {
  import opened TerminalModel
  import opened TerminalReplies

  /** The request to write, as its caller made it. */
  function WishOf(tid: int, r: Request): Wish
    requires r.Putc? || r.Puts?
  {
    if r.Putc? then Wish(tid, [r.ch], 1, false) else Asked(tid, r.str, r.len)
  }

  /** How many of `n` bytes find room in the 2048 of the ring. */
  function Fitting(o: Out, n: nat): int {
    if |o.tx| + n <= 2048 then n else 2048 - |o.tx|
  }

  /** The answer at once: the length, or 0 to a Putc, if everything has entered; -1 if not and eight wait already; and
      otherwise none. */
  function AtOnce(o: Out, w: Wish): seq<Reply> {
    if Fitting(o, |w.data|) == |w.data| then [Status(w.tid, if w.puts then w.len else 0)]
    else if |o.putters| < 8 then []
    else [Status(w.tid, -1)]
  }

  /** Those that wait for room, in order, with the bytes that have entered. */
  function Queue(o: Out, w: Wish): seq<Putter>
    requires |o.tx| <= 2048
  {
    if Fitting(o, |w.data|) < |w.data| && |o.putters| < 8 then
      o.putters + [Putter(|o.jobs|, w.tid, w.data, Fitting(o, |w.data|))]
    else o.putters
  }

  /** As many bytes as fit enter behind the others, and then the UART takes up to `room`. */
  predicate Enters(o: Out, w: Wish, room: nat, v: Out)
    requires |o.tx| <= 2048
  {
    var k := Fitting(o, |w.data|);
    0 <= k <= |w.data| && v.wire + v.tx == o.wire + o.tx + w.data[..k] &&
    |v.tx| == (if room < |o.tx| + k then |o.tx| + k - room else 0) && v.putters == Queue(o, w)
  }

  /** The answers `first`, and then the parked notifier is woken if anything is left to send. */
  predicate Wakes(t: Term, first: seq<Reply>, u: Term, rs: seq<Reply>) {
    u.inp == t.inp &&
    if t.parked >= 0 && (u.out.tx != "" || u.out.putters != []) then
      rs == first + [Status(t.parked, 0)] && u.parked == -1
    else rs == first && u.parked == t.parked
  }

  lemma EntersBoth(o: Out, w: Wish, room: nat, f: Out, v: Out, k: nat)
    requires |o.tx| <= 2048 && k == Fitting(o, |w.data|) <= |w.data|
    requires f.tx == o.tx + w.data[..k] && f.wire == o.wire && f.putters == Queue(o, w)
    requires v.wire + v.tx == f.wire + f.tx && |v.tx| == (if room < |f.tx| then |f.tx| - room else 0)
    requires v.putters == f.putters
    ensures Enters(o, w, room, v)
  {
    assert o.wire + (o.tx + w.data[..k]) == o.wire + o.tx + w.data[..k];
  }

  lemma SettleWakes(t: Term, f: Out, first: seq<Reply>, room: nat)
    ensures var (u, rs) := Settle(t, (f, first), room); u.out == Drain(f, room) && Wakes(t, first, u, rs)
  {
  }

  /** Putc and Puts. */
  lemma WriteCall(t: Term, tid: int, r: Request, room: nat)
    requires TermInv(t) && RequestOk(r) && (r.Putc? || r.Puts?)
    ensures var (u, rs) := Step(t, tid, r, room);
            Enters(t.out, WishOf(tid, r), room, u.out) && Wakes(t, AtOnce(t.out, WishOf(tid, r)), u, rs)
  {
    var o, w := t.out, WishOf(tid, r);
    WriteIs(t, tid, r, room);
    WrittenIs(o, w);
    var (f, first) := Write(o, tid, w.data, if w.puts then w.len else 0);
    DrainIs(f, room);
    SettleWakes(t, f, first, room);
    EntersBoth(o, w, room, f, Drain(f, room), Fitting(o, |w.data|));
  }

  lemma WriteIs(t: Term, tid: int, r: Request, room: nat)
    requires TermInv(t) && RequestOk(r) && (r.Putc? || r.Puts?)
    ensures var w := WishOf(tid, r);
            Step(t, tid, r, room) == Settle(t, Write(t.out, tid, w.data, if w.puts then w.len else 0), room)
  {
  }

  lemma WrittenIs(o: Out, w: Wish)
    requires |o.tx| <= 2048
    ensures var (f, rs) := Write(o, w.tid, w.data, if w.puts then w.len else 0);
            var k := Fitting(o, |w.data|);
            0 <= k <= |w.data| && f.tx == o.tx + w.data[..k] && f.wire == o.wire && f.putters == Queue(o, w) &&
            rs == AtOnce(o, w)
  {
    assert w.data[0..0 + Room(o, w.data, 0)] == w.data[..Fitting(o, |w.data|)];
  }

  lemma DrainIs(o: Out, room: nat)
    ensures var d := Drain(o, room);
            d.wire + d.tx == o.wire + o.tx && |d.tx| == (if room < |o.tx| then |o.tx| - room else 0) &&
            d.putters == o.putters
  {
    var k := Min(room, |o.tx|);
    assert o.tx == o.tx[..k] + o.tx[k..];
  }

  /** Getc: the oldest received byte; with none the caller waits, unless eight do already. */
  lemma ReadCall(t: Term, tid: int, room: nat)
    requires TermInv(t)
    ensures var (u, rs) := Step(t, tid, Getc, room);
            var rx, waiting := t.inp.rx, t.inp.getters;
            u.out == t.out && u.parked == t.parked &&
            if rx != "" then rs == [Char(tid, rx[0])] && u.inp.rx == rx[1..] && u.inp.getters == waiting
            else if |waiting| < 8 then rs == [] && u.inp.rx == rx && u.inp.getters == waiting + [tid]
            else rs == [Status(tid, -1)] && u.inp == t.inp
  {
  }

  /** A received byte goes to the first who waits; with nobody it is kept, unless 256 are already. */
  lemma HearCall(t: Term, tid: int, ch: char, room: nat)
    requires TermInv(t)
    ensures var (u, rs) := Step(t, tid, RxNotify(ch), room);
            var rx, waiting := t.inp.rx, t.inp.getters;
            u.out == t.out && u.parked == t.parked &&
            if waiting != [] then
              rs == [Status(tid, 0), Char(waiting[0], ch)] && u.inp.rx == rx == "" && u.inp.getters == waiting[1..]
            else
              rs == [Status(tid, 0)] && u.inp.rx == (if |rx| < 256 then rx + [ch] else rx) && u.inp.getters == waiting
  {
  }
}
