/** task_list.c, task_scheduler.c and the queues of task_manager.c: every chain of tasks is linked through
    the one `next` field of its members. Task descriptors are named by their index, NULL is -1. */
module KernelLists {
  import opened KernelModel

  // ---------- chains through `next` ----------

  predicate Within(s: seq<nat>, n: nat) {
    forall i :: 0 <= i < |s| ==> s[i] < n
  }

  function NextIn(s: seq<nat>, i: nat): int
    requires i < |s|
  {
    if i + 1 < |s| then s[i + 1] else -1
  }

  predicate Linked(next: seq<int>, s: seq<nat>) {
    Within(s, |next|) && forall i :: 0 <= i < |s| ==> next[s[i]] == NextIn(s, i)
  }

  function First(s: seq<nat>): int {
    if s == [] then -1 else s[0]
  }

  function Final(s: seq<nat>): int {
    if s == [] then -1 else s[|s| - 1]
  }

  lemma LinkAppend(next: seq<int>, s: seq<nat>, x: nat)
    requires Linked(next, s) && NoDup(s) && x < |next| && x !in s
    ensures Linked(if s == [] then next[x := -1] else next[x := -1][Final(s) := x], s + [x])
  {
    var r := s + [x];
    var m := if s == [] then next[x := -1] else next[x := -1][Final(s) := x];
    forall i | 0 <= i < |r| ensures m[r[i]] == NextIn(r, i) {
      if i < |s| {
        assert next[s[i]] == NextIn(s, i);
      }
    }
  }

  lemma LinkPop(next: seq<int>, s: seq<nat>)
    requires Linked(next, s) && NoDup(s) && s != []
    ensures next[s[0]] == First(s[1..]) && Linked(next[s[0] := -1], s[1..])
  {
    var r := s[1..];
    forall i | 0 <= i < |r| ensures next[s[0] := -1][r[i]] == NextIn(r, i) {
      assert next[s[i + 1]] == NextIn(s, i + 1);
    }
  }

  lemma LinkPush(next: seq<int>, s: seq<nat>, x: nat)
    requires Linked(next, s) && x < |next| && x !in s
    ensures Linked(next[x := First(s)], [x] + s)
  {
    var r := [x] + s;
    forall i | 0 <= i < |r| ensures next[x := First(s)][r[i]] == NextIn(r, i) {
      if i > 0 {
        assert next[s[i - 1]] == NextIn(s, i - 1);
      }
    }
  }

  // ---------- taking one task out of a list ----------

  /** `s` without the first occurrence of `x`. */
  function Without(s: seq<nat>, x: nat): seq<nat> {
    if s == [] then [] else if s[0] == x then s[1..] else [s[0]] + Without(s[1..], x)
  }

  lemma {:induction false} WithoutMissing(s: seq<nat>, x: nat)
    requires x !in s
    ensures Without(s, x) == s
  {
    if s != [] {
      WithoutMissing(s[1..], x);
    }
  }

  /** The others keep their order, and nothing else is lost. */
  lemma {:induction false} WithoutKeeps(s: seq<nat>, x: nat, i: nat)
    requires i < |s| && s[i] == x && forall j :: 0 <= j < i ==> s[j] != x
    ensures Without(s, x) == s[..i] + s[i + 1..]
  {
    if i > 0 {
      WithoutKeeps(s[1..], x, i - 1);
      assert s == [s[0]] + s[1..];
    }
  }

  // ---------- the pointers ----------

  /** All list heads and tails, and the shared links. */
  datatype Pointers = Pointers(next: seq<int>, head: seq<int>, tail: seq<int>, count: seq<nat>,
                               sendHead: seq<int>, sendTail: seq<int>, waiter: seq<int>, free: int)

  predicate Shaped(v: Pointers) {
    |v.head| == |v.tail| == |v.count| == PRIORITIES && |v.waiter| == EVENTS &&
    |v.next| == |v.sendHead| == |v.sendTail| == MAX_TASKS
  }

  /** The pointers of chain `q` represent the sequence `s`. */
  predicate Ends(v: Pointers, q: QId, s: seq<nat>)
    requires Shaped(v)
  {
    match q
    case ReadyQ(p) =>
      if p < PRIORITIES then v.head[p] == First(s) && v.tail[p] == Final(s) && v.count[p] == |s| else s == []
    case SendQ(r) => if r < MAX_TASKS then v.sendHead[r] == First(s) && v.sendTail[r] == Final(s) else s == []
    case EventQ(e) => if e < EVENTS then v.waiter[e] == First(s) else s == []
    case FreeQ => v.free == First(s)
    case Nowhere => s == []
  }

  predicate Rep(v: Pointers, cs: map<QId, seq<nat>>, q: QId)
    requires Shaped(v)
  {
    Ends(v, q, Get(cs, q)) && Linked(v.next, Get(cs, q)) && NoDup(Get(cs, q))
  }

  /** No task is in two chains. */
  ghost predicate Apart(cs: map<QId, seq<nat>>) {
    forall q, r, x :: x in Get(cs, q) && x in Get(cs, r) ==> q == r
  }

  ghost predicate Loose(cs: map<QId, seq<nat>>, x: nat) {
    forall q :: x !in Get(cs, q)
  }

  ghost predicate Represents(v: Pointers, cs: map<QId, seq<nat>>) {
    Shaped(v) && Apart(cs) && forall q :: Rep(v, cs, q)
  }

  /** Replacing one chain, while `next` changes only at tasks that are in no other chain. */
  lemma ReplaceChain(v: Pointers, w: Pointers, cs: map<QId, seq<nat>>, q: QId, s: seq<nat>)
    requires Represents(v, cs) && Shaped(w)
    requires Ends(w, q, s) && Linked(w.next, s) && NoDup(s)
    requires forall r :: r != q ==> (Ends(v, r, Get(cs, r)) ==> Ends(w, r, Get(cs, r)))
    requires forall x :: 0 <= x < MAX_TASKS && w.next[x] != v.next[x] ==> x in s || x in Get(cs, q)
    requires forall x :: x in s ==> x in Get(cs, q) || Loose(cs, x)
    ensures Represents(w, cs[q := s])
  {
    var ds := cs[q := s];
    forall r, t, x | x in Get(ds, r) && x in Get(ds, t) ensures r == t {
      if r != q {
        assert x in Get(cs, r);
      }
      if t != q {
        assert x in Get(cs, t);
      }
    }
    forall r ensures Rep(w, ds, r) {
      assert Rep(v, cs, r);
      if r != q {
        var c := Get(cs, r);
        forall i | 0 <= i < |c| ensures w.next[c[i]] == v.next[c[i]] {
          assert c[i] in c;
        }
      }
    }
  }

  lemma PoppedIsLoose(cs: map<QId, seq<nat>>, q: QId)
    requires Apart(cs) && Get(cs, q) != [] && NoDup(Get(cs, q))
    ensures Loose(cs[q := Get(cs, q)[1..]], Get(cs, q)[0])
  {
    var x, ds := Get(cs, q)[0], cs[q := Get(cs, q)[1..]];
    DropHead(Get(cs, q));
    forall r ensures x !in Get(ds, r) {
      assert x in Get(cs, q);
      assert r != q ==> Get(ds, r) == Get(cs, r);
    }
  }

  lemma NothingQueued(v: Pointers)
    requires Shaped(v) && (forall i :: 0 <= i < PRIORITIES ==> v.head[i] == -1 && v.tail[i] == -1 && v.count[i] == 0)
    requires (forall i :: 0 <= i < MAX_TASKS ==> v.sendHead[i] == -1 && v.sendTail[i] == -1)
    requires (forall i :: 0 <= i < EVENTS ==> v.waiter[i] == -1) && v.free == -1
    ensures Represents(v, map[])
  {
  }

  /** `p` is the first ready list that is not empty, PRIORITIES if all are. */
  ghost predicate IsFirstList(cs: map<QId, seq<nat>>, p: nat) {
    p <= PRIORITIES && (p < PRIORITIES ==> Get(cs, ReadyQ(p)) != []) && forall i :: 0 <= i < p ==> Get(cs, ReadyQ(i)) == []
  }

  // ---------- the queues in memory ----------

  /** The heads and tails kept by the scheduler, the task manager and the task descriptors, and the `next`
      field of all descriptors. `cs` is the sequence of tasks in each chain. */
  class TaskQueues {
    const next: array<int>
    const head: array<int>
    const tail: array<int>
    const count: array<nat>
    const sendHead: array<int>
    const sendTail: array<int>
    const waiter: array<int>
    var free: int
    ghost var cs: map<QId, seq<nat>>

    constructor ()
      ensures Valid() && cs == map[] && fresh(Footprint())
    {
      next := new int[4096](i => -1);
      head := new int[32](i => -1);
      tail := new int[32](i => -1);
      count := new nat[32](i => 0);
      sendHead := new int[4096](i => -1);
      sendTail := new int[4096](i => -1);
      waiter := new int[5](i => -1);
      free := -1;
      cs := map[];
      new;
      assert View().count == seq(32, i => 0) && View().next == seq(4096, i => -1);
      NothingQueued(View());
    }

    ghost function Footprint(): set<object> {
      {this, next, head, tail, count, sendHead, sendTail, waiter}
    }

    ghost predicate Separate() {
      next != head && next != tail && next != sendHead && next != sendTail && next != waiter &&
      head != tail && head != sendHead && head != sendTail && head != waiter &&
      tail != sendHead && tail != sendTail && tail != waiter && sendHead != sendTail && sendHead != waiter &&
      sendTail != waiter && (count as object) !in {next, head, tail, sendHead, sendTail, waiter}
    }

    ghost function View(): Pointers
      reads Footprint()
    {
      Pointers(next[..], head[..], tail[..], count[..], sendHead[..], sendTail[..], waiter[..], free)
    }

    ghost predicate Valid()
      reads Footprint()
    {
      Separate() && Represents(View(), cs)
    }

    /** task_list_append on a ready list. */
    method Append(p: nat, x: nat)
      requires Valid() && p < PRIORITIES && x < MAX_TASKS && Loose(cs, x)
      modifies Footprint()
      ensures Valid() && cs == old(cs)[ReadyQ(p) := Get(old(cs), ReadyQ(p)) + [x]]
    {
      ghost var v, q, s := View(), ReadyQ(p), Get(cs, ReadyQ(p));
      assert Rep(v, cs, q);
      LinkAppend(next[..], s, x);
      next[x] := -1;
      if tail[p] >= 0 {
        next[tail[p]] := x;
      } else {
        head[p] := x;
      }
      tail[p] := x;
      count[p] := count[p] + 1;
      ghost var w := v.(next := if s == [] then v.next[x := -1] else v.next[x := -1][Final(s) := x],
                        head := if s == [] then v.head[p := x] else v.head, tail := v.tail[p := x],
                        count := v.count[p := |s| + 1]);
      assert View() == w;
      ReplaceChain(v, w, cs, q, s + [x]);
      cs := cs[q := s + [x]];
    }

    /** task_list_pop_left on a ready list; -1 if it is empty. */
    method PopLeft(p: nat) returns (x: int)
      requires Valid() && p < PRIORITIES
      modifies Footprint()
      ensures Valid() && x == First(Get(old(cs), ReadyQ(p)))
      ensures cs == if x < 0 then old(cs) else old(cs)[ReadyQ(p) := Get(old(cs), ReadyQ(p))[1..]]
      ensures x >= 0 ==> Loose(cs, x)
    {
      ghost var v, q, s := View(), ReadyQ(p), Get(cs, ReadyQ(p));
      assert Rep(v, cs, q);
      if count[p] <= 0 || head[p] < 0 {
        return -1;
      }
      x := head[p];
      LinkPop(next[..], s);
      head[p] := next[x];
      if head[p] < 0 {
        tail[p] := -1;
      }
      next[x] := -1;
      count[p] := count[p] - 1;
      ghost var w := v.(next := v.next[x := -1], head := v.head[p := First(s[1..])], tail := v.tail[p := Final(s[1..])],
                        count := v.count[p := |s| - 1]);
      assert View() == w;
      ReplaceChain(v, w, cs, q, s[1..]);
      PoppedIsLoose(cs, q);
      cs := cs[q := s[1..]];
    }

    /** enqueue_sender. */
    method EnqueueSender(r: nat, x: nat)
      requires Valid() && r < MAX_TASKS && x < MAX_TASKS && Loose(cs, x)
      modifies Footprint()
      ensures Valid() && cs == old(cs)[SendQ(r) := Get(old(cs), SendQ(r)) + [x]]
    {
      ghost var v, q, s := View(), SendQ(r), Get(cs, SendQ(r));
      assert Rep(v, cs, q);
      LinkAppend(next[..], s, x);
      next[x] := -1;
      if sendTail[r] < 0 {
        sendHead[r] := x;
      } else {
        next[sendTail[r]] := x;
      }
      sendTail[r] := x;
      ghost var w := v.(next := if s == [] then v.next[x := -1] else v.next[x := -1][Final(s) := x],
                        sendHead := if s == [] then v.sendHead[r := x] else v.sendHead, sendTail := v.sendTail[r := x]);
      assert View() == w;
      ReplaceChain(v, w, cs, q, s + [x]);
      cs := cs[q := s + [x]];
    }

    /** dequeue_sender; -1 if nobody is queued. */
    method DequeueSender(r: nat) returns (x: int)
      requires Valid() && r < MAX_TASKS
      modifies Footprint()
      ensures Valid() && x == First(Get(old(cs), SendQ(r)))
      ensures cs == if x < 0 then old(cs) else old(cs)[SendQ(r) := Get(old(cs), SendQ(r))[1..]]
      ensures x >= 0 ==> Loose(cs, x)
    {
      ghost var v, q, s := View(), SendQ(r), Get(cs, SendQ(r));
      assert Rep(v, cs, q);
      x := sendHead[r];
      if x < 0 {
        return;
      }
      LinkPop(next[..], s);
      sendHead[r] := next[x];
      if sendHead[r] < 0 {
        sendTail[r] := -1;
      }
      next[x] := -1;
      ghost var w := v.(next := v.next[x := -1], sendHead := v.sendHead[r := First(s[1..])],
                        sendTail := v.sendTail[r := Final(s[1..])]);
      assert View() == w;
      ReplaceChain(v, w, cs, q, s[1..]);
      PoppedIsLoose(cs, q);
      cs := cs[q := s[1..]];
    }

    /** enqueue_event_waiter. */
    method EnqueueWaiter(e: nat, x: nat)
      requires Valid() && e < EVENTS && x < MAX_TASKS && Loose(cs, x) && Get(cs, EventQ(e)) == []
      modifies Footprint()
      ensures Valid() && cs == old(cs)[EventQ(e) := Get(old(cs), EventQ(e)) + [x]]
    {
      ghost var v, q, s := View(), EventQ(e), Get(cs, EventQ(e));
      assert Rep(v, cs, q);
      LinkAppend(next[..], s, x);
      next[x] := -1;
      waiter[e] := x;
      ghost var w := v.(next := v.next[x := -1], waiter := v.waiter[e := x]);
      assert View() == w;
      ReplaceChain(v, w, cs, q, s + [x]);
      cs := cs[q := s + [x]];
    }

    /** dequeue_event_waiter; -1 if nobody waits. */
    method DequeueWaiter(e: nat) returns (x: int)
      requires Valid() && e < EVENTS
      modifies Footprint()
      ensures Valid() && x == First(Get(old(cs), EventQ(e)))
      ensures cs == if x < 0 then old(cs) else old(cs)[EventQ(e) := Get(old(cs), EventQ(e))[1..]]
      ensures x >= 0 ==> Loose(cs, x)
    {
      ghost var v, q, s := View(), EventQ(e), Get(cs, EventQ(e));
      assert Rep(v, cs, q);
      x := waiter[e];
      if x >= 0 {
        LinkPop(next[..], s);
        waiter[e] := next[x];
        next[x] := -1;
        ghost var w := v.(next := v.next[x := -1], waiter := v.waiter[e := First(s[1..])]);
        assert View() == w;
        ReplaceChain(v, w, cs, q, s[1..]);
        PoppedIsLoose(cs, q);
        cs := cs[q := s[1..]];
      }
    }

    /** The list half of free_task_descriptor. */
    method PushFree(x: nat)
      requires Valid() && x < MAX_TASKS && Loose(cs, x)
      modifies Footprint()
      ensures Valid() && cs == old(cs)[FreeQ := [x] + Get(old(cs), FreeQ)]
    {
      ghost var v, s := View(), Get(cs, FreeQ);
      assert Rep(v, cs, FreeQ);
      LinkPush(next[..], s, x);
      next[x] := free;
      free := x;
      ghost var w := v.(next := v.next[x := First(s)], free := x);
      assert View() == w;
      ReplaceChain(v, w, cs, FreeQ, [x] + s);
      cs := cs[FreeQ := [x] + s];
    }

    /** The list half of alloc_task_descriptor; -1 if the free list is empty. */
    method PopFree() returns (x: int)
      requires Valid()
      modifies Footprint()
      ensures Valid() && x == First(Get(old(cs), FreeQ))
      ensures cs == if x < 0 then old(cs) else old(cs)[FreeQ := Get(old(cs), FreeQ)[1..]]
      ensures x >= 0 ==> Loose(cs, x)
    {
      ghost var v, s := View(), Get(cs, FreeQ);
      assert Rep(v, cs, FreeQ);
      if free < 0 {
        return -1;
      }
      x := free;
      LinkPop(next[..], s);
      free := next[x];
      next[x] := -1;
      ghost var w := v.(next := v.next[x := -1], free := First(s[1..]));
      assert View() == w;
      ReplaceChain(v, w, cs, FreeQ, s[1..]);
      PoppedIsLoose(cs, FreeQ);
      cs := cs[FreeQ := s[1..]];
    }

    /** init_task_descriptor empties the send queue of a new task, which is empty already. */
    method ClearSenders(r: nat)
      requires Valid() && r < MAX_TASKS && Get(cs, SendQ(r)) == []
      modifies sendHead, sendTail
      ensures Valid() && cs == old(cs)
    {
      ghost var v := View();
      assert Rep(v, cs, SendQ(r));
      sendHead[r] := -1;
      sendTail[r] := -1;
      assert View() == v;
    }

    /** schedule: the head of the first non-empty ready list, -1 if all are empty. */
    method NextTask(ghost p: nat) returns (x: int)
      requires Valid() && IsFirstList(cs, p)
      modifies Footprint()
      ensures Valid() && x == if p < PRIORITIES then Get(old(cs), ReadyQ(p))[0] else -1
      ensures cs == if p < PRIORITIES then old(cs)[ReadyQ(p) := Get(old(cs), ReadyQ(p))[1..]] else old(cs)
    {
      var i := 0;
      while i < PRIORITIES
        invariant 0 <= i <= p && i <= PRIORITIES && Valid() && cs == old(cs)
      {
        x := PopLeft(i);
        if x >= 0 {
          return;
        }
        i := i + 1;
      }
      return -1;
    }

    /** Somebody waits for the event. */
    method HasWaiter(e: nat) returns (busy: bool)
      requires Valid() && e < EVENTS
      ensures busy == (Get(cs, EventQ(e)) != [])
    {
      assert Rep(View(), cs, EventQ(e));
      return waiter[e] >= 0;
    }

    /** global_task_scheduler_remove_task: the list is rotated once, dropping the first occurrence. */
    method RemoveTask(p: nat, x: nat)
      requires Valid() && p < PRIORITIES
      modifies Footprint()
      ensures Valid()
      ensures cs == if x in Get(old(cs), ReadyQ(p)) then old(cs)[ReadyQ(p) := Without(Get(old(cs), ReadyQ(p)), x)]
                    else old(cs)
    {
      ghost var cs0, s := cs, Get(cs, ReadyQ(p));
      assert Rep(View(), cs, ReadyQ(p));
      if count[p] <= 0 || head[p] < 0 {
        return;
      }
      var removed := Rotate(p, x, count[p], s);
      if !removed {
        WithoutMissing(s, x);
        SameChains(View(), cs, cs0);
        cs := cs0;
      }
    }

    /** The rotation loop. */
    method Rotate(p: nat, x: nat, rounds: nat, ghost s: seq<nat>) returns (removed: bool)
      requires Valid() && p < PRIORITIES && s == Get(cs, ReadyQ(p)) && rounds == |s| > 0
      modifies Footprint()
      ensures Valid() && cs == old(cs)[ReadyQ(p) := Without(s, x)] && removed == (x in s)
    {
      ghost var cs0 := cs;
      removed := false;
      var remaining := rounds;
      assert Turned(s, 0, x) == s && cs0[ReadyQ(p) := s] == cs0;
      while remaining > 0
        invariant Valid() && cs == cs0[ReadyQ(p) := Turned(s, |s| - remaining, x)]
        invariant removed == (x in s[..|s| - remaining])
      {
        removed := Turn(p, x, removed, s, |s| - remaining);
        remaining := remaining - 1;
      }
      assert Turned(s, |s|, x) == Without(s, x) && s[..|s|] == s;
    }

    /** One round of the rotation. */
    method Turn(p: nat, x: nat, removed: bool, ghost s: seq<nat>, ghost k: nat) returns (done: bool)
      requires Valid() && p < PRIORITIES && k < |s| && Get(cs, ReadyQ(p)) == Turned(s, k, x) && removed == (x in s[..k])
      modifies Footprint()
      ensures Valid() && done == (x in s[..k + 1]) && cs == old(cs)[ReadyQ(p) := Turned(s, k + 1, x)]
    {
      TurnFacts(View(), cs, p, s, k, x);
      var candidate := PopLeft(p);
      if !removed && candidate == x {
        return true;
      }
      Append(p, candidate);
      return removed;
    }
  }

  /** The rotated list after `k` rounds. */
  function Turned(s: seq<nat>, k: nat, x: nat): seq<nat>
    requires k <= |s|
  {
    s[k..] + Without(s[..k], x)
  }

  /** The list after one more task has been taken from the front. */
  lemma RotateOnce(s: seq<nat>, k: nat, x: nat)
    requires k < |s|
    ensures Turned(s, k, x) != [] && Turned(s, k, x)[0] == s[k]
    ensures var rest := Turned(s, k, x)[1..];
            Turned(s, k + 1, x) == if x !in s[..k] && s[k] == x then rest else rest + [s[k]]
    ensures x in s[..k + 1] <==> x in s[..k] || s[k] == x
  {
    assert s[..k + 1] == s[..k] + [s[k]];
    WithoutSnoc(s[..k], s[k], x);
    assert Turned(s, k, x)[1..] == s[k + 1..] + Without(s[..k], x);
  }

  /** The same for a list in memory, whose front is a task of the table. */
  lemma TurnFacts(v: Pointers, cs: map<QId, seq<nat>>, p: nat, s: seq<nat>, k: nat, x: nat)
    requires Represents(v, cs) && p < PRIORITIES && k < |s| && Get(cs, ReadyQ(p)) == Turned(s, k, x)
    ensures var t := Get(cs, ReadyQ(p));
            t != [] && First(t) == s[k] < MAX_TASKS &&
            Turned(s, k + 1, x) == if x !in s[..k] && s[k] == x then t[1..] else t[1..] + [s[k]]
    ensures x in s[..k + 1] <==> x in s[..k] || s[k] == x
  {
    assert Rep(v, cs, ReadyQ(p));
    RotateOnce(s, k, x);
  }

  lemma {:induction false} WithoutSnoc(s: seq<nat>, y: nat, x: nat)
    ensures Without(s + [y], x) == if x !in s && y == x then Without(s, x) else Without(s, x) + [y]
  {
    if s == [] {
    } else {
      assert (s + [y])[1..] == s[1..] + [y];
      if s[0] != x {
        WithoutSnoc(s[1..], y, x);
        assert s == [s[0]] + s[1..];
        assert x in s <==> x in s[1..];
      }
    }
  }

  lemma SameChains(v: Pointers, cs: map<QId, seq<nat>>, ds: map<QId, seq<nat>>)
    requires Represents(v, cs) && forall q :: Get(ds, q) == Get(cs, q)
    ensures Represents(v, ds)
  {
    forall q ensures Rep(v, ds, q) {
      assert Rep(v, cs, q);
    }
    forall q, r, x | x in Get(ds, q) && x in Get(ds, r) ensures q == r {
      assert x in Get(cs, q) && x in Get(cs, r);
    }
  }
}
