/** pos_game_events.c: the ring of numbered game events and its readers. */
module GameEvents {

  datatype Kind = NoEvent | SensorHit | GoalStop

  datatype Event = Event(seqNo: nat, kind: Kind, train: int, sensor: nat, time: nat)

  /** The oldest sequence number still in the ring after `n` events. */
  function Oldest(n: nat): nat {
    if n <= 64 then 1 else n - 63
  }

  /** Where a reader that has seen everything up to `cursor` goes on; it skips what was overwritten. */
  function Resume(n: nat, cursor: nat): nat {
    if cursor + 1 < Oldest(n) then Oldest(n) - 1 else cursor
  }

  function Min(a: int, b: int): int {
    if a < b then a else b
  }

  /** How many events one read hands over. */
  function Batch(n: nat, cursor: nat, max: int): (k: nat)
    ensures k > 0 ==> Resume(n, cursor) + k <= n
  {
    if max <= 0 || n <= Resume(n, cursor) then 0 else Min(max, n - Resume(n, cursor))
  }

  /** What one read hands over: the events after the cursor in order, none left out but those that 64 later ones have
      overwritten, until the batch is full or the log is at its end. */
  predicate ReadsOn(log: seq<Event>, cursor: nat, max: int, out: seq<Event>, next: nat) {
    if max <= 0 then out == [] && next == cursor
    else if cursor >= |log| then out == [] && next == cursor
    else
      cursor + |out| <= next <= |log| && out == log[next - |out|..next] && |out| <= max &&
      (|out| == max || next == |log|) && next - |out| + 64 >= |log| &&
      (cursor < next - |out| ==> next - |out| + 64 <= |log|)
  }

  lemma BatchMeans(log: seq<Event>, cursor: nat, max: int, out: seq<Event>, next: nat)
    requires var k := Batch(|log|, cursor, max);
             |out| == k && (k > 0 ==> out == log[Resume(|log|, cursor)..Resume(|log|, cursor) + k])
    requires next == if max <= 0 then cursor else Resume(|log|, cursor) + |out|
    ensures ReadsOn(log, cursor, max, out, next)
  {
  }

  predicate Numbered(log: seq<Event>) {
    forall i :: 0 <= i < |log| ==> log[i].seqNo == i + 1
  }

  predicate InRing(slots: seq<Event>, log: seq<Event>, s: nat)
    requires |slots| == 64 && 1 <= s <= |log|
  {
    slots[s % 64] == log[s - 1]
  }

  lemma SlotsDiffer(s: nat, t: nat)
    requires s < t < s + 64
    ensures s % 64 != t % 64
  {
  }

  /** The last of `n` events that uses the slot of event `s`. */
  function Newest(n: nat, s: nat): (t: nat)
    requires 1 <= s <= n
    ensures Oldest(n) <= t <= n && s <= t && t % 64 == s % 64 && (t == s <==> Oldest(n) <= s)
  {
    n - (n - s) % 64
  }

  class EventLog {
    const slots: array<Event>
    var nextSeq: nat
    var oldestSeq: nat
    ghost var log: seq<Event>

    /** pos_reset_game_events. */
    constructor ()
      ensures Valid() && log == [] && fresh(slots)
    {
      slots := new Event[64](i => Event(0, NoEvent, -1, 0, 0));
      nextSeq, oldestSeq := 1, 1;
      log := [];
    }

    ghost predicate Valid()
      reads this, slots
    {
      slots.Length == 64 && nextSeq == |log| + 1 && oldestSeq == Oldest(|log|) && Numbered(log) &&
      forall s :: Oldest(|log|) <= s <= |log| ==> InRing(slots[..], log, s)
    }

    /** pos_publish_game_event, below 2^32 events. */
    method Publish(kind: Kind, train: int, sensor: nat, time: nat)
      requires Valid() && nextSeq < 0xFFFF_FFFF
      modifies this, slots
      ensures Valid()
      ensures log == if kind == NoEvent || train < 0 then old(log)
                     else old(log) + [Event(|old(log)| + 1, kind, train, sensor, time)]
    {
      if kind == NoEvent || train < 0 {
        return;
      }
      var seqNo := nextSeq;
      nextSeq := nextSeq + 1;
      var slot := seqNo % 64;
      slots[slot] := Event(seqNo, kind, train, sensor, time);
      if nextSeq - oldestSeq > 64 {
        oldestSeq := nextSeq - 64;
      }
      log := log + [Event(seqNo, kind, train, sensor, time)];
      forall s | Oldest(|log|) <= s <= |log| ensures InRing(slots[..], log, s) {
        if s < seqNo {
          assert old(InRing(slots[..], log, s));
          SlotsDiffer(s, seqNo);
        }
      }
    }

    /** One turn of the loop of pos_read_game_events: the event after `next`, unless its slot has been used again. */
    method Look(next: nat) returns (hit: bool, event: Event)
      requires Valid() && next < |log|
      ensures hit == (next + 64 >= |log|) && (hit ==> event == log[next])
    {
      event := slots[(next + 1) % 64];
      hit := event.seqNo == next + 1;
      ghost var s := Newest(|log|, next + 1);
      assert InRing(slots[..], log, s);
    }

    /** pos_read_game_events while nobody publishes: the loop then never meets a slot that was used again. */
    method Read(cursor: nat, max: int) returns (next: nat, out: seq<Event>)
      requires Valid() && cursor < 0xFFFF_FFFF
      ensures var k := Batch(|log|, cursor, max);
              |out| == k && (k > 0 ==> out == log[Resume(|log|, cursor)..Resume(|log|, cursor) + k])
      ensures next == if max <= 0 then cursor else Resume(|log|, cursor) + |out|
      ensures ReadsOn(log, cursor, max, out, next)
    {
      out := [];
      if max <= 0 {
        return cursor, [];
      }
      ghost var start := Resume(|log|, cursor);
      next := cursor;
      if next + 1 < oldestSeq {
        next := oldestSeq - 1;
      }
      while next + 1 < nextSeq && |out| < max
        invariant start <= next && next == start + |out| && |out| <= max
        invariant next <= |log| || out == []
        invariant out != [] ==> out == log[start..next]
        decreases nextSeq - next
      {
        var hit, event := Look(next);
        if hit {
          out := out + [event];
        }
        next := next + 1;
      }
      BatchMeans(log, cursor, max, out, next);
    }
  }

  // ---------- publishing while a read is under way ----------

  /** Where the reader is inside pos_read_game_events: its local `seq` and what it has copied out. */
  datatype Reading = Idle | Reading(at: nat, max: int, out: seq<Event>)

  /** All events published, the reader's cursor, and everything it has been given. */
  datatype Feed = Feed(log: seq<Event>, cursor: nat, got: seq<Event>, read: Reading)

  /** The publisher and the reader are tasks of their own, and the publisher is the more urgent one: an event can be
      published before and after each turn of the reader's loop, but no turn falls into a publish. */
  datatype Op = Publish(e: Event) | Enter(max: int) | Turn

  function Entered(f: Feed, max: int): Feed {
    if f.read.Idle? && max > 0 then f.(read := Reading(Resume(|f.log|, f.cursor), max, [])) else f
  }

  /** One turn of the loop; when it is over the cursor is stored and the batch handed over. */
  function Turned(f: Feed): Feed {
    if f.read.Idle? then f
    else
      var r := f.read;
      if r.at < |f.log| && |r.out| < r.max then
        f.(read := r.(at := r.at + 1, out := if Oldest(|f.log|) <= r.at + 1 then r.out + [f.log[r.at]] else r.out))
      else Feed(f.log, r.at, f.got + r.out, Idle)
  }

  function Apply(f: Feed, op: Op): Feed {
    match op
    case Publish(e) => f.(log := f.log + [e.(seqNo := |f.log| + 1)])
    case Enter(max) => Entered(f, max)
    case Turn => Turned(f)
  }

  function Run(ops: seq<Op>): Feed {
    if ops == [] then Feed([], 0, [], Idle) else Apply(Run(ops[..|ops| - 1]), ops[|ops| - 1])
  }

  predicate Given(seen: seq<Event>, s: nat) {
    exists i :: 0 <= i < |seen| && seen[i].seqNo == s
  }

  predicate Increasing(seen: seq<Event>) {
    forall i, j :: 0 <= i < j < |seen| ==> seen[i].seqNo < seen[j].seqNo
  }

  predicate AsPublished(log: seq<Event>, at: nat, seen: seq<Event>) {
    at <= |log| && forall i :: 0 <= i < |seen| ==> 1 <= seen[i].seqNo <= at && seen[i] == log[seen[i].seqNo - 1]
  }

  /** `seen` has events in strictly increasing order, each as it was published, and every event up to `at` but
      those that have been overwritten. */
  ghost predicate Covers(log: seq<Event>, at: nat, seen: seq<Event>) {
    Increasing(seen) && AsPublished(log, at, seen) && forall s :: 1 <= s <= at ==> Given(seen, s) || s < Oldest(|log|)
  }

  /** The reader has been given all it could be given up to its cursor, and inside a read up to where it is. */
  ghost predicate FeedInv(f: Feed) {
    Numbered(f.log) && Covers(f.log, f.cursor, f.got) &&
    (f.read.Reading? ==> f.cursor <= f.read.at && Covers(f.log, f.read.at, f.got + f.read.out))
  }

  lemma CoversMore(log: seq<Event>, at: nat, seen: seq<Event>, e: Event)
    requires Covers(log, at, seen)
    ensures Covers(log + [e], at, seen)
  {
    forall s | 1 <= s <= at ensures Given(seen, s) || s < Oldest(|log + [e]|) {
      assert Given(seen, s) || s < Oldest(|log|);
    }
  }

  lemma CoversGiven(log: seq<Event>, at: nat, seen: seq<Event>)
    requires Numbered(log) && Covers(log, at, seen) && at < |log|
    ensures Covers(log, at + 1, seen + [log[at]])
  {
    var more := seen + [log[at]];
    forall s | 1 <= s <= at + 1 ensures Given(more, s) || s < Oldest(|log|) {
      if s == at + 1 {
        assert more[|seen|].seqNo == s;
      } else if Given(seen, s) {
        var i :| 0 <= i < |seen| && seen[i].seqNo == s;
        assert more[i].seqNo == s;
      }
    }
  }

  lemma CoversSkipped(log: seq<Event>, at: nat, seen: seq<Event>, to: nat)
    requires Covers(log, at, seen) && at <= to <= |log| && (at < to ==> to < Oldest(|log|))
    ensures Covers(log, to, seen)
  {
    forall s | 1 <= s <= to ensures Given(seen, s) || s < Oldest(|log|) {
      if s <= at {
        assert Given(seen, s) || s < Oldest(|log|);
      }
    }
  }

  lemma PublishKeeps(f: Feed, e: Event)
    requires FeedInv(f)
    ensures FeedInv(Apply(f, Publish(e)))
  {
    var event := e.(seqNo := |f.log| + 1);
    CoversMore(f.log, f.cursor, f.got, event);
    if f.read.Reading? {
      CoversMore(f.log, f.read.at, f.got + f.read.out, event);
    }
  }

  lemma EnterKeeps(f: Feed, max: int)
    requires FeedInv(f)
    ensures FeedInv(Entered(f, max))
  {
    assert f.got + [] == f.got;
    CoversSkipped(f.log, f.cursor, f.got, Resume(|f.log|, f.cursor));
  }

  lemma TurnKeeps(f: Feed)
    requires FeedInv(f)
    ensures FeedInv(Turned(f))
  {
    if f.read.Reading? && f.read.at < |f.log| && |f.read.out| < f.read.max {
      var at, seen := f.read.at, f.got + f.read.out;
      if Oldest(|f.log|) <= at + 1 {
        CoversGiven(f.log, at, seen);
        assert f.got + (f.read.out + [f.log[at]]) == seen + [f.log[at]];
      } else {
        CoversSkipped(f.log, at, seen, at + 1);
      }
    }
  }

  lemma {:induction false} RunKeeps(ops: seq<Op>)
    ensures FeedInv(Run(ops))
  {
    if ops != [] {
      var f := Run(ops[..|ops| - 1]);
      RunKeeps(ops[..|ops| - 1]);
      match ops[|ops| - 1]
      case Publish(e) => PublishKeeps(f, e);
      case Enter(max) => EnterKeeps(f, max);
      case Turn => TurnKeeps(f);
    }
  }

  /** However publishing interleaves with the turns of the reader's loop. */
  lemma ReaderMissesOnlyOverwritten(ops: seq<Op>, s: nat)
    requires 1 <= s <= Run(ops).cursor
    ensures s + 64 <= |Run(ops).log| || Given(Run(ops).got, s)
    ensures Increasing(Run(ops).got) && AsPublished(Run(ops).log, Run(ops).cursor, Run(ops).got)
  {
    RunKeeps(ops);
  }

  /** The rest of a read during which nobody publishes. */
  function Finished(f: Feed): Feed
    decreases f.read.Reading?, if f.read.Reading? && f.read.at < |f.log| then |f.log| - f.read.at else 0
  {
    if f.read.Idle? then f else Finished(Turned(f))
  }

  /** It hands out the next `k` events, until the batch is full or the log is at its end. */
  lemma {:induction false} FinishedInOrder(f: Feed, k: nat)
    requires f.read.Reading? && Oldest(|f.log|) <= f.read.at + 1 && |f.read.out| + k <= f.read.max
    requires k > 0 ==> f.read.at + k <= |f.log|
    requires |f.read.out| + k < f.read.max ==> f.read.at + k >= |f.log|
    ensures Finished(f) == Feed(f.log, f.read.at + k, f.got + Handed(f, k), Idle)
    decreases k
  {
    if k > 0 {
      FinishedInOrder(Turned(f), k - 1);
      HandedOneMore(f, k);
    } else {
      assert Turned(f) == Feed(f.log, f.read.at, f.got + f.read.out, Idle);
    }
  }

  /** The batch with the next `k` events. */
  function Handed(f: Feed, k: nat): seq<Event>
    requires f.read.Reading? && (k > 0 ==> f.read.at + k <= |f.log|)
  {
    if k == 0 then f.read.out else f.read.out + f.log[f.read.at..f.read.at + k]
  }

  lemma HandedOneMore(f: Feed, k: nat)
    requires f.read.Reading? && f.read.at + k <= |f.log| && 0 < k && |f.read.out| < f.read.max
    requires Oldest(|f.log|) <= f.read.at + 1
    ensures Handed(Turned(f), k - 1) == Handed(f, k)
  {
    assert f.log[f.read.at..f.read.at + k] == [f.log[f.read.at]] + f.log[f.read.at + 1..f.read.at + k];
  }

  /** A whole read without a publish in between moves the cursor and hands out events as `Read` promises. */
  lemma ReadAtOnce(f: Feed, max: int)
    requires f.read.Idle?
    ensures var n, k := |f.log|, Batch(|f.log|, f.cursor, max);
            var c := Resume(n, f.cursor);
            Finished(Entered(f, max)) ==
            Feed(f.log, if max <= 0 then f.cursor else c + k, f.got + (if k == 0 then [] else f.log[c..c + k]), Idle)
    ensures var m := Finished(Entered(f, max));
            f.got <= m.got && ReadsOn(f.log, f.cursor, max, m.got[|f.got|..], m.cursor) && m.log == f.log &&
            m.read == Idle
  {
    var k, c := Batch(|f.log|, f.cursor, max), Resume(|f.log|, f.cursor);
    BatchMeans(f.log, f.cursor, max, if k == 0 then [] else f.log[c..c + k], if max <= 0 then f.cursor else c + k);
    if max > 0 {
      FinishedInOrder(Entered(f, max), k);
      assert Handed(Entered(f, max), k) == if k == 0 then [] else f.log[c..c + k];
    }
  }
}
