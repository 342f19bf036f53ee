/** pos_deadlock.c: the wait graph of the blocked trains, its closure computed in place on bit masks,
    and the mask of trains that are deadlocked with a given one. */
module Deadlock {
  import opened Track

  // ---------- masks ----------

  function Bit(k: nat): bv8
    requires k < 8
  {
    if k == 0 then 1 else if k == 1 then 2 else if k == 2 then 4 else if k == 3 then 8
    else if k == 4 then 16 else if k == 5 then 32 else if k == 6 then 64 else 128
  }

  predicate Has(m: bv8, k: nat) {
    k < 8 && m & Bit(k) != 0
  }

  lemma HasOr(a: bv8, b: bv8, k: nat)
    ensures Has(a | b, k) <==> Has(a, k) || Has(b, k)
  {
    if k < 8 {
      OrBits(a, b, Bit(k));
    }
  }

  lemma OrBits(a: bv8, b: bv8, c: bv8)
    ensures (a | b) & c != 0 <==> a & c != 0 || b & c != 0
  {
  }

  lemma HasAnd(a: bv8, b: bv8, k: nat)
    ensures Has(a & b, k) <==> Has(a, k) && Has(b, k)
  {
  }

  lemma HasBit(j: nat, k: nat)
    requires j < 8
    ensures Has(Bit(j), k) <==> k == j
  {
  }

  lemma HasNone(k: nat)
    ensures !Has(0, k)
  {
  }

  /** How many of the bits below `k` are set. */
  function Ones(m: bv8, k: nat): nat {
    if k == 0 then 0 else Ones(m, k - 1) + if Has(m, k - 1) then 1 else 0
  }

  lemma LowBit(m: bv8, k: nat)
    requires k < 8
    ensures Has(m, k) <==> (m >> k) & 1 == 1
    ensures (m >> k) >> 1 == m >> (k + 1)
  {
  }

  lemma AllShifted(m: bv8)
    ensures m >> 8 == 0
  {
  }

  lemma {:induction false} NoneAbove(m: bv8, k: nat, j: nat)
    requires k <= j <= 8 && m >> k == 0
    ensures Ones(m, j) == Ones(m, k)
  {
    if j > k {
      NoneAbove(m, k, j - 1);
      assert !Has(m, j - 1);
    }
  }

  /** deadlock_bit_count. */
  method BitCount(mask: bv8) returns (count: nat)
    ensures count == Ones(mask, 8)
  {
    var m := mask;
    ghost var k := 0;
    count := 0;
    AllShifted(mask);
    while m != 0
      invariant k <= 8 && m == mask >> k && count == Ones(mask, k)
      decreases 8 - k
    {
      LowBit(mask, k);
      count := count + if m & 1 == 1 then 1 else 0;
      m := m >> 1;
      k := k + 1;
    }
    NoneAbove(mask, k, 8);
  }

  lemma {:induction false} SomeBelow(m: bv8, k: nat)
    requires k <= 8
    ensures Ones(m, k) >= 1 <==> exists i :: 0 <= i < k && Has(m, i)
  {
    if k > 0 {
      SomeBelow(m, k - 1);
    }
  }

  /** A mask that holds `s` holds at least two trains exactly when it holds another one. */
  lemma {:induction false} TwoBits(m: bv8, s: nat, k: nat)
    requires k <= 8 && s < k && Has(m, s)
    ensures Ones(m, k) >= 2 <==> exists i :: 0 <= i < k && i != s && Has(m, i)
  {
    if s == k - 1 {
      SomeBelow(m, k - 1);
    } else {
      TwoBits(m, s, k - 1);
      SomeBelow(m, k - 1);
    }
  }

  // ---------- the wait graph ----------

  /** A participant: waiting for track held by the trains in `blockers`, or stopped in the way. `bit` is
      its bit in such masks. */
  datatype Train = Train(num: int, bit: bv8, waiting: bool, blockers: bv8)

  /** Train `i` waits for train `j`, which waits itself. */
  predicate Waits(ps: seq<Train>, i: nat, j: nat) {
    i < |ps| && j < |ps| && i != j && ps[i].waiting && ps[j].waiting && ps[i].blockers & ps[j].bit != 0
  }

  predicate Link(ps: seq<Train>, p: seq<nat>, k: nat) {
    k + 1 < |p| && Waits(ps, p[k], p[k + 1])
  }

  /** A chain of waiting trains, each waiting for the next. */
  predicate Walk(ps: seq<Train>, p: seq<nat>) {
    |p| > 0 && (forall k :: 0 <= k < |p| ==> p[k] < |ps| && ps[p[k]].waiting) &&
    forall k :: 0 <= k < |p| - 1 ==> Link(ps, p, k)
  }

  predicate Chain(ps: seq<Train>, p: seq<nat>, i: nat, j: nat) {
    Walk(ps, p) && p[0] == i && Last(p) == j
  }

  ghost predicate Leads(ps: seq<Train>, i: nat, j: nat) {
    exists p :: Chain(ps, p, i, j)
  }

  /** Some chain of waits leads from `s` back to `s`. */
  ghost predicate OnCycle(ps: seq<Train>, s: nat) {
    exists p :: Chain(ps, p, s, s) && |p| >= 2
  }

  lemma JoinWalks(ps: seq<Train>, p: seq<nat>, q: seq<nat>)
    requires Walk(ps, p) && Walk(ps, q) && Last(p) == q[0]
    ensures Walk(ps, p + q[1..]) && (p + q[1..])[0] == p[0] && Last(p + q[1..]) == Last(q)
  {
    var r := p + q[1..];
    forall k | 0 <= k < |r| - 1 ensures Link(ps, r, k) {
      if k < |p| - 1 {
        assert Link(ps, p, k);
      } else {
        assert Link(ps, q, k - (|p| - 1));
      }
    }
  }

  lemma LeadsOn(ps: seq<Train>, i: nat, j: nat, k: nat)
    requires Leads(ps, i, j) && Leads(ps, j, k)
    ensures Leads(ps, i, k)
  {
    var p :| Chain(ps, p, i, j);
    var q :| Chain(ps, q, j, k);
    JoinWalks(ps, p, q);
    assert Chain(ps, p + q[1..], i, k);
  }

  lemma DropWalk(ps: seq<Train>, p: seq<nat>, i: nat)
    requires Walk(ps, p) && i < |p|
    ensures Walk(ps, p[i..]) && Walk(ps, p[..i + 1])
  {
    forall k | 0 <= k < |p| - i - 1 ensures Link(ps, p[i..], k) {
      assert Link(ps, p, i + k);
    }
    var q := p[..i + 1];
    forall k | 0 <= k < i ensures Link(ps, q, k) {
      assert Link(ps, p, k);
    }
  }

  /** Every chain can be shortened to one that visits no train twice. */
  lemma {:induction false} Shorten(ps: seq<Train>, p: seq<nat>) returns (q: seq<nat>)
    requires Walk(ps, p)
    ensures Walk(ps, q) && q[0] == p[0] && Last(q) == Last(p) && |q| <= |ps|
    decreases |p|
  {
    if Distinct(p) {
      Pigeonhole(p, |ps|);
      q := p;
    } else {
      var i, j :| 0 <= i < j < |p| && p[i] == p[j];
      DropWalk(ps, p, i);
      DropWalk(ps, p, j);
      JoinWalks(ps, p[..i + 1], p[j..]);
      q := Shorten(ps, p[..i + 1] + p[j..][1..]);
    }
  }

  /** Two trains that wait for each other, over whatever chains, are what a wait cycle consists of. */
  lemma CycleNeedsTwo(ps: seq<Train>, s: nat)
    ensures OnCycle(ps, s) <==> exists i :: i != s && Leads(ps, s, i) && Leads(ps, i, s)
  {
    if OnCycle(ps, s) {
      var p :| Chain(ps, p, s, s) && |p| >= 2;
      assert Link(ps, p, 0);
      DropWalk(ps, p, 1);
      assert Chain(ps, p[1..], p[1], s) && Chain(ps, p[..2], s, p[1]);
      assert p[1] != s && Leads(ps, s, p[1]) && Leads(ps, p[1], s);
    }
    if i :| i != s && Leads(ps, s, i) && Leads(ps, i, s) {
      var p :| Chain(ps, p, s, i);
      var q :| Chain(ps, q, i, s);
      JoinWalks(ps, p, q);
      assert Chain(ps, p + q[1..], s, s);
    }
  }

  // ---------- the adjacency masks ----------

  predicate IsWaitMask(ps: seq<Train>, m: bv8) {
    |ps| <= 8 && forall k :: 0 <= k < 8 ==> (Has(m, k) <==> k < |ps| && ps[k].waiting)
  }

  predicate IsRowOf(ps: seq<Train>, i: nat, n: nat, m: bv8) {
    forall k :: 0 <= k < 8 ==> (Has(m, k) <==> k < n && Waits(ps, i, k))
  }

  predicate IsGraph(ps: seq<Train>, adj: seq<bv8>) {
    |adj| == |ps| && forall i :: 0 <= i < |ps| ==> IsRowOf(ps, i, |ps|, adj[i])
  }

  lemma AddBit(m: bv8, j: nat, k: nat)
    requires j < 8
    ensures Has(m | Bit(j), k) <==> Has(m, k) || k == j
  {
    HasOr(m, Bit(j), k);
    HasBit(j, k);
  }

  lemma PutBit(m: bv8, j: nat)
    requires j < 8
    ensures forall k: nat :: Has(m | Bit(j), k) <==> Has(m, k) || k == j
  {
    forall k: nat ensures Has(m | Bit(j), k) <==> Has(m, k) || k == j {
      AddBit(m, j, k);
    }
  }

  lemma LeadsWaiting(ps: seq<Train>, i: nat, j: nat)
    requires Leads(ps, i, j)
    ensures i < |ps| && j < |ps| && ps[i].waiting && ps[j].waiting
  {
    var p :| Chain(ps, p, i, j);
  }

  lemma RowBit(ps: seq<Train>, i: nat, j: nat, m: bv8)
    requires j < 8 && IsRowOf(ps, i, j, m) && Waits(ps, i, j)
    ensures IsRowOf(ps, i, j + 1, m | Bit(j))
  {
    forall k | 0 <= k < 8 ensures Has(m | Bit(j), k) <==> k < j + 1 && Waits(ps, i, k) {
      AddBit(m, j, k);
    }
  }

  /** The inner loop of deadlock_build_graph for a waiting train. */
  method BuildRow(ps: seq<Train>, waitMask: bv8, i: nat, adj: array<bv8>)
    requires IsWaitMask(ps, waitMask) && i < |ps| == adj.Length && ps[i].waiting && adj[i] == 0
    modifies adj
    ensures IsRowOf(ps, i, |ps|, adj[i])
    ensures forall k :: 0 <= k < adj.Length && k != i ==> adj[k] == old(adj[k])
  {
    for j := 0 to |ps|
      invariant IsRowOf(ps, i, j, adj[i])
      invariant forall k :: 0 <= k < adj.Length && k != i ==> adj[k] == old(adj[k])
    {
      if i != j && waitMask & Bit(j) != 0 && ps[i].blockers & ps[j].bit != 0 {
        assert Has(waitMask, j);
        RowBit(ps, i, j, adj[i]);
        adj[i] := adj[i] | Bit(j);
      } else {
        assert Has(waitMask, j) <==> ps[j].waiting;
      }
    }
  }

  /** deadlock_build_graph. */
  method BuildGraph(ps: seq<Train>, waitMask: bv8, adj: array<bv8>)
    requires IsWaitMask(ps, waitMask) && adj.Length == |ps|
    modifies adj
    ensures IsGraph(ps, adj[..])
  {
    for i := 0 to adj.Length
      invariant forall k :: 0 <= k < i ==> adj[k] == 0
    {
      adj[i] := 0;
    }
    for i := 0 to |ps|
      invariant forall k :: 0 <= k < i ==> IsRowOf(ps, k, |ps|, adj[k])
      invariant forall k :: i <= k < |ps| ==> adj[k] == 0
    {
      assert Has(waitMask, i) <==> ps[i].waiting;
      if waitMask & Bit(i) != 0 {
        BuildRow(ps, waitMask, i, adj);
      }
    }
  }

  // ---------- the closure ----------

  /** Row `i` holds only trains that `i` leads to. */
  ghost predicate Sound(ps: seq<Train>, i: nat, m: bv8) {
    forall k :: Has(m, k) ==> Leads(ps, i, k)
  }

  ghost predicate Reaches(ps: seq<Train>, p: seq<nat>, i: nat, m: bv8) {
    Walk(ps, p) && p[0] == i ==> Has(m, Last(p))
  }

  /** Row `i` holds the ends of all chains from `i` of at most `len` trains. */
  ghost predicate Spans(ps: seq<Train>, i: nat, m: bv8, len: nat) {
    forall p :: |p| <= len ==> Reaches(ps, p, i, m)
  }

  ghost predicate RowOk(ps: seq<Train>, i: nat, m: bv8, len: nat) {
    Sound(ps, i, m) && Spans(ps, i, m, len)
  }

  ghost predicate Rows(ps: seq<Train>, reach: seq<bv8>, len: nat) {
    |reach| == |ps| && forall i :: 0 <= i < |reach| ==> RowOk(ps, i, reach[i], len)
  }

  lemma FirstRow(ps: seq<Train>, i: nat, a: bv8)
    requires |ps| <= 8 && i < |ps| && ps[i].waiting && IsRowOf(ps, i, |ps|, a)
    ensures RowOk(ps, i, a | Bit(i), 2)
  {
    var m := a | Bit(i);
    forall k | Has(m, k) ensures Leads(ps, i, k) {
      AddBit(a, i, k);
      if k == i {
        assert Chain(ps, [i], i, k);
      } else {
        assert Link(ps, [i, k], 0);
        assert Chain(ps, [i, k], i, k);
      }
    }
    forall p | |p| <= 2 ensures Reaches(ps, p, i, m) {
      if Walk(ps, p) && p[0] == i {
        AddBit(a, i, Last(p));
        if |p| == 2 {
          assert Link(ps, p, 0);
        }
      }
    }
  }

  lemma IdleRow(ps: seq<Train>, i: nat, len: nat)
    requires i < |ps| && !ps[i].waiting
    ensures RowOk(ps, i, 0, len)
  {
    forall k ensures !Has(0, k) {
      HasNone(k);
    }
  }

  /** The expansion of one row: it started from `was` and has absorbed the rows of the trains below `j`
      that it held then. */
  ghost predicate Expanding(ps: seq<Train>, reach: seq<bv8>, i: nat, was: bv8, m: bv8, j: nat)
    requires |reach| == |ps|
  {
    Sound(ps, i, m) && (forall k :: Has(was, k) ==> Has(m, k)) &&
    forall x, k :: 0 <= x < j && x < |reach| && Has(was, x) && Has(reach[x], k) ==> Has(m, k)
  }

  lemma Absorb(ps: seq<Train>, reach: seq<bv8>, i: nat, was: bv8, m: bv8, j: nat, len: nat)
    requires Rows(ps, reach, len) && j < |ps| && Expanding(ps, reach, i, was, m, j) && Has(m, j)
    ensures Expanding(ps, reach, i, was, m | reach[j], j + 1)
  {
    forall k ensures Has(m | reach[j], k) <==> Has(m, k) || Has(reach[j], k) {
      HasOr(m, reach[j], k);
    }
    forall k | Has(m | reach[j], k) ensures Leads(ps, i, k) {
      if !Has(m, k) {
        assert RowOk(ps, j, reach[j], len);
        LeadsOn(ps, i, j, k);
      }
    }
  }

  lemma NoAbsorb(ps: seq<Train>, reach: seq<bv8>, i: nat, was: bv8, m: bv8, j: nat)
    requires |reach| == |ps| && Expanding(ps, reach, i, was, m, j) && !Has(m, j)
    ensures Expanding(ps, reach, i, was, m, j + 1)
  {
  }

  /** One more pass covers chains that are one train longer. */
  lemma ExpandedRow(ps: seq<Train>, reach: seq<bv8>, i: nat, m: bv8, waitMask: bv8, len: nat)
    requires IsWaitMask(ps, waitMask) && Rows(ps, reach, len) && len >= 2 && i < |ps|
    requires Expanding(ps, reach, i, reach[i], m, |ps|)
    ensures RowOk(ps, i, m & waitMask, len + 1)
  {
    forall k ensures Has(m & waitMask, k) <==> Has(m, k) && Has(waitMask, k) {
      HasAnd(m, waitMask, k);
    }
    forall p | |p| <= len + 1 ensures Reaches(ps, p, i, m & waitMask) {
      if Walk(ps, p) && p[0] == i {
        ExpandedCovers(ps, reach, i, m, len, p);
        assert Has(waitMask, Last(p));
      }
    }
  }

  lemma ExpandedCovers(ps: seq<Train>, reach: seq<bv8>, i: nat, m: bv8, len: nat, p: seq<nat>)
    requires Rows(ps, reach, len) && len >= 2 && i < |ps| && Expanding(ps, reach, i, reach[i], m, |ps|)
    requires Walk(ps, p) && p[0] == i && |p| <= len + 1
    ensures Has(m, Last(p))
  {
    assert RowOk(ps, i, reach[i], len);
    if |p| <= len {
      assert Reaches(ps, p, i, reach[i]);
    } else {
      DropWalk(ps, p, 1);
      assert Reaches(ps, p[..2], i, reach[i]);
      assert RowOk(ps, p[1], reach[p[1]], len);
      assert Reaches(ps, p[1..], p[1], reach[p[1]]);
    }
  }

  lemma Weaken(ps: seq<Train>, i: nat, m: bv8, len: nat)
    requires RowOk(ps, i, m, len + 1)
    ensures RowOk(ps, i, m, len)
  {
  }

  /** The loop over `j`, for one row. */
  method ExpandMask(ps: seq<Train>, reach: array<bv8>, i: nat, ghost len: nat) returns (expanded: bv8)
    requires |ps| <= 8 && Rows(ps, reach[..], len) && len >= 2 && i < |ps|
    ensures Expanding(ps, reach[..], i, reach[i], expanded, |ps|)
  {
    expanded := reach[i];
    ghost var was := reach[..];
    assert RowOk(ps, i, was[i], len);
    for j := 0 to |ps|
      invariant Expanding(ps, was, i, was[i], expanded, j)
    {
      if expanded & Bit(j) != 0 {
        Absorb(ps, was, i, was[i], expanded, j, len);
        expanded := expanded | reach[j];
      } else {
        NoAbsorb(ps, was, i, was[i], expanded, j);
      }
    }
  }

  /** The loop body for one row. */
  method ExpandRow(ps: seq<Train>, reach: array<bv8>, i: nat, waitMask: bv8, ghost len: nat)
    requires IsWaitMask(ps, waitMask) && Rows(ps, reach[..], len) && len >= 2 && i < |ps|
    modifies reach
    ensures Rows(ps, reach[..], len) && RowOk(ps, i, reach[i], len + 1)
    ensures forall k :: 0 <= k < reach.Length && k != i ==> reach[k] == old(reach[k])
  {
    assert Has(waitMask, i) <==> ps[i].waiting;
    if waitMask & Bit(i) == 0 {
      assert RowOk(ps, i, reach[i], len + 1) by {
        assert RowOk(ps, i, reach[i], len);
      }
      return;
    }
    ghost var was := reach[..];
    var expanded := ExpandMask(ps, reach, i, len);
    ExpandedRow(ps, was, i, expanded, waitMask, len);
    reach[i] := expanded & waitMask;
    Weaken(ps, i, reach[i], len);
    forall k | 0 <= k < |ps| ensures RowOk(ps, k, reach[k], len) {
      assert k != i ==> RowOk(ps, k, was[k], len);
    }
  }

  /** deadlock_compute_reachability: row `i` ends up with exactly the trains that `i` leads to. */
  method ComputeReachability(ps: seq<Train>, adj: array<bv8>, waitMask: bv8, reach: array<bv8>)
    requires IsWaitMask(ps, waitMask) && IsGraph(ps, adj[..]) && reach.Length == |ps| && adj != reach
    modifies reach
    ensures forall i, k :: 0 <= i < |ps| ==> (Has(reach[i], k) <==> Leads(ps, i, k))
  {
    for i := 0 to |ps|
      invariant forall k :: 0 <= k < i ==> RowOk(ps, k, reach[k], 2)
    {
      assert Has(waitMask, i) <==> ps[i].waiting;
      assert IsRowOf(ps, i, |ps|, adj[..][i]);
      reach[i] := if waitMask & Bit(i) != 0 then adj[i] | Bit(i) else 0;
      if ps[i].waiting {
        FirstRow(ps, i, adj[i]);
      } else {
        IdleRow(ps, i, 2);
      }
    }
    for pass := 0 to |ps|
      invariant Rows(ps, reach[..], pass + 2)
    {
      for i := 0 to |ps|
        invariant Rows(ps, reach[..], pass + 2)
        invariant forall k :: 0 <= k < i ==> RowOk(ps, k, reach[k], pass + 3)
      {
        ExpandRow(ps, reach, i, waitMask, pass + 2);
      }
    }
    ClosureDone(ps, reach[..]);
  }

  lemma ClosureDone(ps: seq<Train>, reach: seq<bv8>)
    requires Rows(ps, reach, |ps| + 2)
    ensures forall i, k :: 0 <= i < |ps| ==> (Has(reach[i], k) <==> Leads(ps, i, k))
  {
    forall i, k | 0 <= i < |ps| ensures Has(reach[i], k) <==> Leads(ps, i, k) {
      assert RowOk(ps, i, reach[i], |ps| + 2);
      if Leads(ps, i, k) {
        var p :| Chain(ps, p, i, k);
        var q := Shorten(ps, p);
        assert Reaches(ps, q, i, reach[i]);
      }
    }
  }

  // ---------- who is deadlocked with a train ----------

  datatype Kind = NoDeadlock | WaitCycle | StoppedBlocker

  /** Exactly the trains in the strongly connected component of `s`. */
  ghost predicate IsComponent(ps: seq<Train>, s: nat, m: bv8) {
    forall k :: Has(m, k) <==> Leads(ps, s, k) && Leads(ps, k, s)
  }

  predicate Blocks(ps: seq<Train>, s: nat, k: nat) {
    s < |ps| && k < |ps| && !ps[k].waiting && ps[s].blockers & ps[k].bit != 0
  }

  /** `s` and the stopped trains in its way; nothing if there are none. */
  ghost predicate IsBlockerMask(ps: seq<Train>, s: nat, m: bv8) {
    s < |ps| &&
    if ps[s].waiting && exists k :: Blocks(ps, s, k)
    then forall k :: Has(m, k) <==> k == s || Blocks(ps, s, k)
    else m == 0
  }

  /** deadlock_find_mask_for_train: a wait cycle through the train is reported, with all the trains that
      are deadlocked with it, exactly when there is one; otherwise the stopped trains in its way. */
  ghost predicate RightMask(ps: seq<Train>, s: nat, m: bv8, kind: Kind) {
    match kind
    case WaitCycle => OnCycle(ps, s) && IsComponent(ps, s, m)
    case StoppedBlocker => !OnCycle(ps, s) && m != 0 && IsBlockerMask(ps, s, m)
    case NoDeadlock => !OnCycle(ps, s) && m == 0 && IsBlockerMask(ps, s, 0)
  }

  ghost predicate ComponentBelow(ps: seq<Train>, s: nat, i: nat, m: bv8) {
    forall k: nat :: Has(m, k) <==> k < i && Leads(ps, s, k) && Leads(ps, k, s)
  }

  /** Adding or not adding train `i`, given what the rows say about it. */
  lemma ComponentNext(ps: seq<Train>, s: nat, i: nat, m: bv8, add: bool)
    requires |ps| <= 8 && i < |ps| && ComponentBelow(ps, s, i, m)
    requires add <==> Leads(ps, s, i) && Leads(ps, i, s)
    ensures ComponentBelow(ps, s, i + 1, if add then m | Bit(i) else m)
  {
    var r := if add then m | Bit(i) else m;
    forall k: nat ensures Has(r, k) <==> k < i + 1 && Leads(ps, s, k) && Leads(ps, k, s) {
      AddBit(m, i, k);
    }
  }

  /** The loop that intersects forward and backward reachability. */
  method ComponentMask(ps: seq<Train>, s: nat, waitMask: bv8, reach: array<bv8>) returns (cycle: bv8)
    requires IsWaitMask(ps, waitMask) && s < |ps| == reach.Length
    requires forall i, k :: 0 <= i < |ps| ==> (Has(reach[i], k) <==> Leads(ps, i, k))
    ensures IsComponent(ps, s, cycle)
  {
    cycle := 0;
    forall k ensures !Has(0, k) {
      HasNone(k);
    }
    for i := 0 to |ps|
      invariant ComponentBelow(ps, s, i, cycle)
    {
      var add := waitMask & Bit(i) != 0 && reach[s] & Bit(i) != 0 && reach[i] & Bit(s) != 0;
      assert add <==> Has(waitMask, i) && Has(reach[s], i) && Has(reach[i], s);
      if Leads(ps, s, i) {
        LeadsWaiting(ps, s, i);
      }
      ComponentNext(ps, s, i, cycle, add);
      if add {
        cycle := cycle | Bit(i);
      }
    }
    ComponentWhole(ps, s, cycle);
  }

  lemma ComponentWhole(ps: seq<Train>, s: nat, m: bv8)
    requires ComponentBelow(ps, s, |ps|, m)
    ensures IsComponent(ps, s, m)
  {
    forall k: nat | Leads(ps, s, k) ensures k < |ps| {
      LeadsWaiting(ps, s, k);
    }
  }

  /** Counting the component decides whether there is a cycle. */
  lemma ComponentSize(ps: seq<Train>, s: nat, m: bv8)
    requires |ps| <= 8 && s < |ps| && ps[s].waiting && IsComponent(ps, s, m)
    ensures Ones(m, 8) >= 2 <==> OnCycle(ps, s)
  {
    assert Chain(ps, [s], s, s);
    TwoBits(m, s, 8);
    CycleNeedsTwo(ps, s);
    if i :| i != s && Leads(ps, s, i) && Leads(ps, i, s) {
      assert Has(m, i);
    }
  }

  predicate IsStoppedMask(ps: seq<Train>, m: bv8) {
    |ps| <= 8 && forall k :: 0 <= k < 8 ==> (Has(m, k) <==> k < |ps| && !ps[k].waiting)
  }

  ghost predicate BlockersBelow(ps: seq<Train>, s: nat, i: nat, m: bv8) {
    forall k: nat :: Has(m, k) <==> k < i && Blocks(ps, s, k)
  }

  lemma BlockerNext(ps: seq<Train>, s: nat, stopped: bv8, i: nat, m: bv8)
    requires IsStoppedMask(ps, stopped) && s < |ps| && i < |ps| && BlockersBelow(ps, s, i, m)
    ensures BlockersBelow(ps, s, i + 1, if stopped & Bit(i) != 0 && ps[s].blockers & ps[i].bit != 0 then m | Bit(i) else m)
  {
    var r := if stopped & Bit(i) != 0 && ps[s].blockers & ps[i].bit != 0 then m | Bit(i) else m;
    assert Has(stopped, i) <==> !ps[i].waiting;
    forall k: nat ensures Has(r, k) <==> k < i + 1 && Blocks(ps, s, k) {
      AddBit(m, i, k);
    }
  }

  /** The loop of deadlock_find_stopped_blocker_mask_for_train. */
  method CollectBlockers(ps: seq<Train>, s: nat, stopped: bv8) returns (blockers: bv8)
    requires IsStoppedMask(ps, stopped) && s < |ps|
    ensures BlockersBelow(ps, s, |ps|, blockers)
  {
    blockers := 0;
    for i := 0 to |ps|
      invariant BlockersBelow(ps, s, i, blockers)
    {
      BlockerNext(ps, s, stopped, i, blockers);
      if stopped & Bit(i) != 0 && ps[s].blockers & ps[i].bit != 0 {
        blockers := blockers | Bit(i);
      }
    }
  }

  /** deadlock_find_stopped_blocker_mask_for_train; `stopped` holds the participants that do not wait. */
  method BlockerMask(ps: seq<Train>, s: nat, stopped: bv8) returns (mask: bv8)
    requires IsStoppedMask(ps, stopped) && s < |ps|
    ensures IsBlockerMask(ps, s, mask)
    ensures Ones(mask, 8) >= 2 <==> mask != 0
  {
    NoOnes(8);
    if !ps[s].waiting {
      return 0;
    }
    var blockers := CollectBlockers(ps, s, stopped);
    mask := if blockers != 0 then blockers | Bit(s) else 0;
    StartAndBlockers(ps, s, blockers);
  }

  lemma {:induction false} NoOnes(k: nat)
    requires k <= 8
    ensures Ones(0, k) == 0
  {
    if k > 0 {
      NoOnes(k - 1);
      HasNone(k - 1);
    }
  }

  lemma StartAndBlockers(ps: seq<Train>, s: nat, blockers: bv8)
    requires |ps| <= 8 && s < |ps| && ps[s].waiting && BlockersBelow(ps, s, |ps|, blockers)
    ensures var m := if blockers != 0 then blockers | Bit(s) else 0;
            IsBlockerMask(ps, s, m) && (m != 0 ==> Ones(m, 8) >= 2)
  {
    if blockers != 0 {
      var m := blockers | Bit(s);
      PutBit(blockers, s);
      NonzeroHas(blockers);
      var k :| Has(blockers, k);
      assert Blocks(ps, s, k) && Has(m, k) && k != s;
      TwoBits(m, s, 8);
    } else {
      forall k ensures !Blocks(ps, s, k) {
        HasNone(k);
      }
    }
  }

  lemma NonzeroHas(m: bv8)
    requires m != 0
    ensures exists k :: Has(m, k)
  {
    if Has(m, 0) || Has(m, 1) || Has(m, 2) || Has(m, 3) || Has(m, 4) || Has(m, 5) || Has(m, 6) || Has(m, 7) {
    } else {
      assert false;
    }
  }

  // ---------- the whole query ----------

  /** deadlock_participant_index. */
  method ParticipantIndex(ps: seq<Train>, num: int) returns (i: int)
    ensures if i == -1 then forall k :: 0 <= k < |ps| ==> ps[k].num != num else 0 <= i && IsTrain(ps, i, num)
  {
    for k := 0 to |ps|
      invariant forall j :: 0 <= j < k ==> ps[j].num != num
    {
      if ps[k].num == num {
        return k;
      }
    }
    return -1;
  }

  /** One train as deadlock_collect_participants finds it: its state, and the trains holding the track it
      waits for. */
  datatype State = Waiting | Stopped | Elsewhere
  datatype Position = Position(num: int, state: State, blockers: bv8)

  /** The first `cap` trains that wait or stand in the way, in fleet order; a train's bit in the blocker
      masks is that of its place in the fleet. */
  function Participants(fleet: seq<Position>, cap: nat): (ps: seq<Train>)
    requires |fleet| <= 8
    ensures |ps| <= cap
  {
    if |fleet| == 0 then []
    else
      var last := |fleet| - 1;
      var before := Participants(fleet[..last], cap);
      if fleet[last].state == Elsewhere || |before| >= cap then before
      else before + [Train(fleet[last].num, Bit(last), fleet[last].state == Waiting, fleet[last].blockers)]
  }

  lemma AddToWaiting(ps: seq<Train>, waitMask: bv8, tr: Train)
    requires IsWaitMask(ps, waitMask) && |ps| < 8
    ensures IsWaitMask(ps + [tr], if tr.waiting then waitMask | Bit(|ps|) else waitMask)
  {
    PutBit(waitMask, |ps|);
    var qs, w := ps + [tr], if tr.waiting then waitMask | Bit(|ps|) else waitMask;
    forall k | 0 <= k < 8 ensures Has(w, k) <==> k < |qs| && qs[k].waiting {
      assert Has(waitMask, k) <==> k < |ps| && ps[k].waiting;
    }
  }

  lemma AddToStopped(ps: seq<Train>, stopped: bv8, tr: Train)
    requires IsStoppedMask(ps, stopped) && |ps| < 8
    ensures IsStoppedMask(ps + [tr], if tr.waiting then stopped else stopped | Bit(|ps|))
  {
    PutBit(stopped, |ps|);
    var qs, o := ps + [tr], if tr.waiting then stopped else stopped | Bit(|ps|);
    forall k | 0 <= k < 8 ensures Has(o, k) <==> k < |qs| && !qs[k].waiting {
      assert Has(stopped, k) <==> k < |ps| && !ps[k].waiting;
    }
  }

  /** deadlock_collect_participants, with the masks of the waiting and the stopped ones. */
  method CollectParticipants(fleet: seq<Position>, cap: nat) returns (ps: seq<Train>, waitMask: bv8, stopped: bv8)
    requires |fleet| <= 8 && cap <= 8
    ensures ps == Participants(fleet, cap) && IsWaitMask(ps, waitMask) && IsStoppedMask(ps, stopped)
  {
    ps, waitMask, stopped := [], 0, 0;
    forall k ensures !Has(0, k) {
      HasNone(k);
    }
    var i := 0;
    while i < |fleet| && |ps| < cap
      invariant i <= |fleet| && ps == Participants(fleet[..i], cap)
      invariant IsWaitMask(ps, waitMask) && IsStoppedMask(ps, stopped)
    {
      assert fleet[..i + 1][..i] == fleet[..i];
      if fleet[i].state != Elsewhere {
        ghost var tr := Train(fleet[i].num, Bit(i), fleet[i].state == Waiting, fleet[i].blockers);
        AddToWaiting(ps, waitMask, tr);
        AddToStopped(ps, stopped, tr);
        if fleet[i].state == Waiting {
          waitMask := waitMask | Bit(|ps|);
        } else {
          stopped := stopped | Bit(|ps|);
        }
        ps := ps + [Train(fleet[i].num, Bit(i), fleet[i].state == Waiting, fleet[i].blockers)];
      }
      i := i + 1;
    }
    FullStays(fleet, cap, i);
    assert fleet[..|fleet|] == fleet;
  }

  /** Once the limit is reached no train is added. */
  lemma {:induction false} FullStays(fleet: seq<Position>, cap: nat, i: nat)
    requires i <= |fleet| <= 8 && (i == |fleet| || |Participants(fleet[..i], cap)| >= cap)
    ensures Participants(fleet, cap) == Participants(fleet[..i], cap)
    decreases |fleet|
  {
    if i == |fleet| {
      assert fleet[..i] == fleet;
    } else {
      var before := fleet[..|fleet| - 1];
      assert before[..i] == fleet[..i];
      FullStays(before, cap, i);
    }
  }

  predicate IsTrain(ps: seq<Train>, s: nat, num: int) {
    s < |ps| && ps[s].num == num && forall j :: 0 <= j < s ==> ps[j].num != num
  }

  /** The answer for a train: that of its place among the participants, nothing if it is not among them. */
  ghost predicate RightAnswer(ps: seq<Train>, num: int, m: bv8, kind: Kind) {
    if exists s :: IsTrain(ps, s, num) then forall s :: IsTrain(ps, s, num) ==> RightMask(ps, s, m, kind)
    else m == 0 && kind == NoDeadlock
  }

  /** A train that does not wait is on no cycle. */
  lemma IdleIsFree(ps: seq<Train>, s: nat)
    requires s < |ps| && !ps[s].waiting
    ensures !OnCycle(ps, s) && IsBlockerMask(ps, s, 0)
  {
    forall p ensures !Chain(ps, p, s, s) {
    }
  }

  /** The wait-cycle half of deadlock_find_mask_for_train. */
  method FindCycle(ps: seq<Train>, s: nat, waitMask: bv8) returns (cycle: bv8, count: nat)
    requires IsWaitMask(ps, waitMask) && s < |ps|
    ensures count >= 2 <==> OnCycle(ps, s)
    ensures count >= 2 ==> IsComponent(ps, s, cycle)
  {
    var adj := new bv8[|ps|](i => 0);
    var reach := new bv8[|ps|](i => 0);
    BuildGraph(ps, waitMask, adj);
    assert Has(waitMask, s) <==> ps[s].waiting;
    if waitMask & Bit(s) == 0 {
      IdleIsFree(ps, s);
      return 0, 0;
    }
    ComputeReachability(ps, adj, waitMask, reach);
    cycle := ComponentMask(ps, s, waitMask, reach);
    count := BitCount(cycle);
    ComponentSize(ps, s, cycle);
  }

  /** The answer over the participants. */
  method FindAmong(fleet: seq<Position>, cap: nat, num: int) returns (mask: bv8, kind: Kind)
    requires |fleet| <= 8 && cap <= 8
    ensures RightAnswer(Participants(fleet, cap), num, mask, kind)
  {
    var ps, waitMask, stopped := CollectParticipants(fleet, cap);
    var s := ParticipantIndex(ps, num);
    if s < 0 {
      return 0, NoDeadlock;
    }
    assert IsTrain(ps, s, num);
    assert forall k :: IsTrain(ps, k, num) ==> k == s;
    var cycle, count := FindCycle(ps, s, waitMask);
    if count >= 2 {
      return cycle, WaitCycle;
    }
    var blockers := BlockerMask(ps, s, stopped);
    count := BitCount(blockers);
    if count >= 2 {
      return blockers, StoppedBlocker;
    }
    return 0, NoDeadlock;
  }
}
