/** pos_route_yield.c: the candidates a deadlocked train may yield to, merged from the distance-sorted
    lists of its two origins, and the one that is picked. */
module YieldPick {
  import opened Track
  import opened AStarSpec
  import opened InsertionOrder
  import opened FreeTable

  // ---------- the combined distance ----------

  /** pos_deadlock_candidate_sort_dist over the two distances of a candidate, -1 for "not reached". */
  function SortDist(a: int, b: int): int {
    var best := if a < 0 then -1 else a;
    if b >= 0 && (best < 0 || b < best) then b else best
  }

  /** What one origin's row holds for a sensor, in the form of route_direct_sensor_dist. */
  function DirectDist(d: seq<int>, v: nat): int
    requires v < |d|
  {
    if d[v] == INF then -1 else d[v]
  }

  /** The smaller of the two distances, INF where neither origin reaches. */
  function Nearer(d0: seq<int>, d1: seq<int>): (r: seq<int>)
    requires |d0| == |d1|
    ensures |r| == |d0| && forall v :: 0 <= v < |r| ==> r[v] == if d0[v] <= d1[v] then d0[v] else d1[v]
  {
    seq(|d0|, v requires 0 <= v < |d0| => if d0[v] <= d1[v] then d0[v] else d1[v])
  }

  predicate IsRow(d: seq<int>) {
    forall v :: 0 <= v < |d| ==> 0 <= d[v] <= INF
  }

  lemma SortDistIsNearer(d0: seq<int>, d1: seq<int>, v: nat)
    requires IsRow(d0) && IsRow(d1) && |d0| == |d1| && v < |d0|
    ensures var s, c := SortDist(DirectDist(d0, v), DirectDist(d1, v)), Nearer(d0, d1)[v];
            if c == INF then s == -1 else s == c
  {
  }

  // ---------- merging ----------

  /** One origin's list: its row and the sensors it reaches, ranked by that row. */
  ghost predicate IsList(t: Layout, d: seq<int>, s: seq<nat>) {
    |d| == |t| && IsRow(d) && Ranked(d, s, Reached(t, d, |t|))
  }

  /** The output holds what has been processed. */
  ghost predicate Holding(s0: seq<nat>, s1: seq<nat>, i0: nat, i1: nat, out: seq<nat>)
    requires i0 <= |s0| && i1 <= |s1|
  {
    forall v :: v in out <==> v in s0[..i0] || v in s1[..i1]
  }

  /** What has been put out comes before everything else. */
  ghost predicate Ahead(c: seq<int>, s0: seq<nat>, s1: seq<nat>, out: seq<nat>)
    requires InCols(c, s0) && InCols(c, s1) && InCols(c, out)
  {
    forall v, x :: v in out && x !in out && (x in s0 || x in s1) ==> Less(Key(c, v), Key(c, x))
  }

  /** State of the merge after `i0` and `i1` entries: the processed entries are exactly the ones put out,
      in the order of the combined distance, and none of them comes after an entry still to be seen. */
  ghost predicate Merging(c: seq<int>, s0: seq<nat>, s1: seq<nat>, i0: nat, i1: nat, out: seq<nat>) {
    i0 <= |s0| && i1 <= |s1| && Holding(s0, s1, i0, i1, out) &&
    InCols(c, s0) && InCols(c, s1) && InCols(c, out) && Ascending(Keys(c, out)) && Ahead(c, s0, s1, out)
  }

  /** No entry from position `i` of its own list on has a smaller combined key than the head `i`, as long
      as the entry's combined distance is the one of this list. */
  lemma HeadIsLeast(t: Layout, d: seq<int>, s: seq<nat>, c: seq<int>, i: nat, k: nat)
    requires IsList(t, d, s) && i <= k < |s| && |c| == |d|
    requires forall v :: 0 <= v < |c| ==> c[v] <= d[v]
    requires c[s[k]] == d[s[k]]
    ensures s[i] == s[k] || Less(Key(c, s[i]), Key(c, s[k]))
  {
    assert Keys(d, s)[i] == Key(d, s[i]) && Keys(d, s)[k] == Key(d, s[k]);
  }

  /** An entry outside a prefix is not at a position of that prefix. */
  lemma NotBefore(s: seq<nat>, i: nat, k: nat)
    requires i <= |s| && k < |s|
    ensures k < i ==> s[k] in s[..i]
  {
    if k < i {
      assert s[..i][k] == s[k];
    }
  }

  /** The smaller head precedes every unseen entry of both lists. */
  lemma ChosenIsLeast(t: Layout, d0: seq<int>, d1: seq<int>, s0: seq<nat>, s1: seq<nat>, i0: nat, i1: nat,
                      out: seq<nat>, h: nat, x: nat)
    requires IsList(t, d0, s0) && IsList(t, d1, s1)
    requires Merging(Nearer(d0, d1), s0, s1, i0, i1, out)
    requires x !in out && (x in s0 || x in s1) && IsHead(Nearer(d0, d1), s0, s1, i0, i1, h)
    ensures h == x || Less(Key(Nearer(d0, d1), h), Key(Nearer(d0, d1), x))
  {
    var c := Nearer(d0, d1);
    assert x < |t|;
    if d0[x] <= d1[x] {
      assert x in s0 by {
        if x in s1 {
          assert x in Reached(t, d1, |t|);
          assert x in Reached(t, d0, |t|);
        }
      }
      var k :| 0 <= k < |s0| && s0[k] == x;
      NotBefore(s0, i0, k);
      HeadIsLeast(t, d0, s0, c, i0, k);
    } else {
      assert x in s1 by {
        if x in s0 {
          assert x in Reached(t, d0, |t|);
          assert x in Reached(t, d1, |t|);
        }
      }
      var k :| 0 <= k < |s1| && s1[k] == x;
      NotBefore(s1, i1, k);
      HeadIsLeast(t, d1, s1, c, i1, k);
    }
  }

  predicate InCols(c: seq<int>, out: seq<nat>) {
    forall i :: 0 <= i < |out| ==> out[i] < |c|
  }

  lemma KeysSnoc(c: seq<int>, out: seq<nat>, h: nat)
    requires InCols(c, out) && h < |c| && Ascending(Keys(c, out))
    requires forall v :: v in out ==> Less(Key(c, v), Key(c, h))
    ensures InCols(c, out + [h]) && Ascending(Keys(c, out + [h]))
  {
    assert Keys(c, out + [h]) == Keys(c, out) + [Key(c, h)];
    forall i | 0 <= i < |out| ensures Less(Keys(c, out)[i], Key(c, h)) {
      assert out[i] in out;
    }
  }

  /** `h` is the head of one list, and no head comes before it. */
  predicate IsHead(c: seq<int>, s0: seq<nat>, s1: seq<nat>, i0: nat, i1: nat, h: nat) {
    i0 <= |s0| && i1 <= |s1| && h < |c| &&
    (i0 < |s0| ==> s0[i0] < |c| && (h == s0[i0] || Less(Key(c, h), Key(c, s0[i0])))) &&
    (i1 < |s1| ==> s1[i1] < |c| && (h == s1[i1] || Less(Key(c, h), Key(c, s1[i1]))))
  }

  /** The cursors after taking `h` from the first or the second list. */
  predicate Taken(s0: seq<nat>, s1: seq<nat>, i0: nat, i1: nat, h: nat, j0: nat, j1: nat) {
    (i0 < |s0| && j0 == i0 + 1 && j1 == i1 && h == s0[i0]) || (i1 < |s1| && j0 == i0 && j1 == i1 + 1 && h == s1[i1])
  }

  lemma TakenAdds(s0: seq<nat>, s1: seq<nat>, i0: nat, i1: nat, h: nat, j0: nat, j1: nat, v: nat)
    requires i0 <= |s0| && i1 <= |s1| && Taken(s0, s1, i0, i1, h, j0, j1)
    ensures j0 <= |s0| && j1 <= |s1| && (h in s0 || h in s1)
    ensures v in s0[..j0] || v in s1[..j1] <==> v in s0[..i0] || v in s1[..i1] || v == h
  {
    if j0 == i0 + 1 {
      assert s0[..j0] == s0[..i0] + [h];
    } else {
      assert s1[..j1] == s1[..i1] + [h];
    }
  }

  lemma TakenMembers(s0: seq<nat>, s1: seq<nat>, i0: nat, i1: nat, out: seq<nat>, h: nat, j0: nat, j1: nat)
    requires i0 <= |s0| && i1 <= |s1| && Taken(s0, s1, i0, i1, h, j0, j1)
    requires Holding(s0, s1, i0, i1, out)
    ensures j0 <= |s0| && j1 <= |s1| && (h in s0 || h in s1) && Holding(s0, s1, j0, j1, if h in out then out else out + [h])
  {
    var r := if h in out then out else out + [h];
    TakenAdds(s0, s1, i0, i1, h, j0, j1, h);
    forall v ensures v in r <==> v in s0[..j0] || v in s1[..j1] {
      TakenAdds(s0, s1, i0, i1, h, j0, j1, v);
    }
  }

  /** What has been put out stays ahead of what is left. */
  lemma StaysAhead(t: Layout, d0: seq<int>, d1: seq<int>, s0: seq<nat>, s1: seq<nat>, i0: nat, i1: nat,
                   out: seq<nat>, h: nat, v: nat, x: nat)
    requires IsList(t, d0, s0) && IsList(t, d1, s1) && Merging(Nearer(d0, d1), s0, s1, i0, i1, out)
    requires IsHead(Nearer(d0, d1), s0, s1, i0, i1, h) && h !in out
    requires v in out + [h] && x !in out + [h] && (x in s0 || x in s1)
    ensures v < |Nearer(d0, d1)| && x < |Nearer(d0, d1)| && Less(Key(Nearer(d0, d1), v), Key(Nearer(d0, d1), x))
  {
    if v == h {
      ChosenIsLeast(t, d0, d1, s0, s1, i0, i1, out, h, x);
    }
  }

  lemma HeadBehind(c: seq<int>, s0: seq<nat>, s1: seq<nat>, i0: nat, i1: nat, out: seq<nat>, h: nat)
    requires Merging(c, s0, s1, i0, i1, out) && h < |c| && (h in s0 || h in s1) && h !in out
    ensures forall v :: v in out ==> Less(Key(c, v), Key(c, h))
  {
  }

  lemma AllStayAhead(t: Layout, d0: seq<int>, d1: seq<int>, s0: seq<nat>, s1: seq<nat>, i0: nat, i1: nat,
                     out: seq<nat>, h: nat)
    requires IsList(t, d0, s0) && IsList(t, d1, s1) && Merging(Nearer(d0, d1), s0, s1, i0, i1, out)
    requires IsHead(Nearer(d0, d1), s0, s1, i0, i1, h) && h !in out && InCols(Nearer(d0, d1), out + [h])
    ensures Ahead(Nearer(d0, d1), s0, s1, out + [h])
  {
    forall v, x | v in out + [h] && x !in out + [h] && (x in s0 || x in s1)
      ensures Less(Key(Nearer(d0, d1), v), Key(Nearer(d0, d1), x))
    {
      StaysAhead(t, d0, d1, s0, s1, i0, i1, out, h, v, x);
    }
  }

  /** Taking the head `h` of either list: put out unless it was seen already. */
  lemma MergeStep(t: Layout, d0: seq<int>, d1: seq<int>, s0: seq<nat>, s1: seq<nat>, i0: nat, i1: nat,
                  out: seq<nat>, h: nat, j0: nat, j1: nat)
    requires IsList(t, d0, s0) && IsList(t, d1, s1)
    requires Merging(Nearer(d0, d1), s0, s1, i0, i1, out)
    requires IsHead(Nearer(d0, d1), s0, s1, i0, i1, h) && Taken(s0, s1, i0, i1, h, j0, j1)
    ensures Merging(Nearer(d0, d1), s0, s1, j0, j1, if h in out then out else out + [h])
  {
    TakenMembers(s0, s1, i0, i1, out, h, j0, j1);
    if h !in out {
      HeadBehind(Nearer(d0, d1), s0, s1, i0, i1, out, h);
      KeysSnoc(Nearer(d0, d1), out, h);
      AllStayAhead(t, d0, d1, s0, s1, i0, i1, out, h);
    }
  }

  /** The merge is over: every sensor that either origin reaches is listed, once, by (nearer distance,
      index). */
  lemma MergeDone(t: Layout, d0: seq<int>, d1: seq<int>, s0: seq<nat>, s1: seq<nat>, out: seq<nat>)
    requires IsList(t, d0, s0) && IsList(t, d1, s1) && Merging(Nearer(d0, d1), s0, s1, |s0|, |s1|, out)
    ensures Ranked(Nearer(d0, d1), out, Reached(t, Nearer(d0, d1), |t|))
  {
    var c := Nearer(d0, d1);
    assert s0[..|s0|] == s0 && s1[..|s1|] == s1;
    forall v ensures v in Reached(t, c, |t|) <==> v in out {
      assert v in Reached(t, c, |t|) <==> v in Reached(t, d0, |t|) || v in Reached(t, d1, |t|);
    }
  }

  /** The head to take next: the one with the smaller (combined distance, index). */
  function TakeFirst(c0: int, v0: nat, c1: int, v1: nat): bool {
    c1 < 0 || c0 < c1 || (c0 == c1 && v0 < v1)
  }

  /** Whether the next candidate comes from the first list. */
  method FromFirst(t: Layout, d0: seq<int>, d1: seq<int>, s0: seq<nat>, s1: seq<nat>, i0: nat, i1: nat)
    returns (first: bool)
    requires IsList(t, d0, s0) && IsList(t, d1, s1) && i0 <= |s0| && i1 <= |s1| && (i0 < |s0| || i1 < |s1|)
    ensures if first then i0 < |s0| && IsHead(Nearer(d0, d1), s0, s1, i0, i1, s0[i0])
            else i1 < |s1| && IsHead(Nearer(d0, d1), s0, s1, i0, i1, s1[i1])
  {
    first := i0 < |s0|;
    if i0 < |s0| && i1 < |s1| {
      SortDistIsNearer(d0, d1, s0[i0]);
      SortDistIsNearer(d0, d1, s1[i1]);
      HeadsReached(t, d0, d1, s0, s1, i0, i1);
      first := TakeFirst(SortDist(DirectDist(d0, s0[i0]), DirectDist(d1, s0[i0])), s0[i0],
                         SortDist(DirectDist(d0, s1[i1]), DirectDist(d1, s1[i1])), s1[i1]);
    }
  }

  /** How far a merge has got. */
  datatype Progress = Progress(i0: nat, i1: nat, out: seq<nat>)

  ghost function Merges(c: seq<int>, s0: seq<nat>, s1: seq<nat>): iset<Progress> {
    iset p: Progress | Merging(c, s0, s1, p.i0, p.i1, p.out)
  }

  lemma MergeNext(t: Layout, d0: seq<int>, d1: seq<int>, s0: seq<nat>, s1: seq<nat>, p: Progress, first: bool)
    requires IsList(t, d0, s0) && IsList(t, d1, s1) && p in Merges(Nearer(d0, d1), s0, s1)
    requires if first then p.i0 < |s0| && IsHead(Nearer(d0, d1), s0, s1, p.i0, p.i1, s0[p.i0])
             else p.i1 < |s1| && IsHead(Nearer(d0, d1), s0, s1, p.i0, p.i1, s1[p.i1])
    ensures var h := if first then s0[p.i0] else s1[p.i1];
            var out := if h in p.out then p.out else p.out + [h];
            h < |t| && Progress(if first then p.i0 + 1 else p.i0, if first then p.i1 else p.i1 + 1, out)
                       in Merges(Nearer(d0, d1), s0, s1)
  {
    var h := if first then s0[p.i0] else s1[p.i1];
    MergeStep(t, d0, d1, s0, s1, p.i0, p.i1, p.out, h, if first then p.i0 + 1 else p.i0, if first then p.i1 else p.i1 + 1);
  }

  /** The marks show which sensors have been put out. */
  predicate Marks(seen: seq<bool>, out: seq<nat>) {
    forall v :: 0 <= v < |seen| ==> (seen[v] <==> v in out)
  }

  /** Putting out a sensor that was not seen before. */
  method PutOut(seen: array<bool>, out: seq<nat>, v: nat) returns (more: seq<nat>)
    requires v < seen.Length && Marks(seen[..], out)
    modifies seen
    ensures Marks(seen[..], more) && more == if v in out then out else out + [v]
  {
    more := out;
    if !seen[v] {
      seen[v] := true;
      more := out + [v];
    }
  }

  /** One round of the merge loop. */
  method MergeRound(t: Layout, d0: seq<int>, d1: seq<int>, s0: seq<nat>, s1: seq<nat>, seen: array<bool>,
                    i0: nat, i1: nat, out: seq<nat>)
    returns (j0: nat, j1: nat, more: seq<nat>)
    requires IsList(t, d0, s0) && IsList(t, d1, s1) && seen.Length == |t| && Marks(seen[..], out)
    requires i0 <= |s0| && i1 <= |s1| && (i0 < |s0| || i1 < |s1|) && Progress(i0, i1, out) in Merges(Nearer(d0, d1), s0, s1)
    modifies seen
    ensures Marks(seen[..], more) && j0 <= |s0| && j1 <= |s1| && j0 + j1 == i0 + i1 + 1
    ensures Progress(j0, j1, more) in Merges(Nearer(d0, d1), s0, s1)
  {
    var first := FromFirst(t, d0, d1, s0, s1, i0, i1);
    MergeNext(t, d0, d1, s0, s1, Progress(i0, i1, out), first);
    more := PutOut(seen, out, if first then s0[i0] else s1[i1]);
    j0, j1 := if first then i0 + 1 else i0, if first then i1 else i1 + 1;
  }

  /** pos_deadlock_merge_sorted_candidates. */
  method MergeCandidates(t: Layout, d0: seq<int>, d1: seq<int>, s0: seq<nat>, s1: seq<nat>) returns (merged: seq<nat>)
    requires IsList(t, d0, s0) && IsList(t, d1, s1)
    ensures Ranked(Nearer(d0, d1), merged, Reached(t, Nearer(d0, d1), |t|))
  {
    var seen := new bool[|t|](i => false);
    merged := [];
    var i0: nat, i1: nat := 0, 0;
    MergeStart(t, d0, d1, s0, s1);
    while i0 < |s0| || i1 < |s1|
      invariant i0 <= |s0| && i1 <= |s1| && Progress(i0, i1, merged) in Merges(Nearer(d0, d1), s0, s1)
      invariant Marks(seen[..], merged)
      decreases |s0| + |s1| - i0 - i1
    {
      i0, i1, merged := MergeRound(t, d0, d1, s0, s1, seen, i0, i1, merged);
    }
    MergeEnd(t, d0, d1, s0, s1, merged);
  }

  lemma MergeStart(t: Layout, d0: seq<int>, d1: seq<int>, s0: seq<nat>, s1: seq<nat>)
    requires IsList(t, d0, s0) && IsList(t, d1, s1)
    ensures Progress(0, 0, []) in Merges(Nearer(d0, d1), s0, s1)
  {
  }

  lemma MergeEnd(t: Layout, d0: seq<int>, d1: seq<int>, s0: seq<nat>, s1: seq<nat>, out: seq<nat>)
    requires IsList(t, d0, s0) && IsList(t, d1, s1) && Progress(|s0|, |s1|, out) in Merges(Nearer(d0, d1), s0, s1)
    ensures Ranked(Nearer(d0, d1), out, Reached(t, Nearer(d0, d1), |t|))
  {
    MergeDone(t, d0, d1, s0, s1, out);
  }

  lemma HeadsReached(t: Layout, d0: seq<int>, d1: seq<int>, s0: seq<nat>, s1: seq<nat>, i0: nat, i1: nat)
    requires IsList(t, d0, s0) && IsList(t, d1, s1) && i0 < |s0| && i1 < |s1|
    ensures d0[s0[i0]] != INF && d1[s1[i1]] != INF
  {
    assert s0[i0] in s0 && s1[i1] in s1;
    assert s0[i0] in Reached(t, d0, |t|) && s1[i1] in Reached(t, d1, |t|);
  }

  // ---------- picking ----------

  /** pos_deadlock_same_physical_sensor; indices are -1 for NULL. */
  predicate SamePhysical(t: Layout, a: int, b: int) {
    0 <= a < |t| && 0 <= b < |t| && (a == b || t[a].reverse == b || t[b].reverse == a)
  }

  /** The train that must give way. `ready` and `unblocks` stand for what the reservation code answers for
      each node: a route there can be taken at once, and the waiting trains that would then get ready. */
  datatype Requester = Requester(cur: int, goal: int, minDist: int, waiting: bv8, others: seq<int>,
                                 ready: seq<bool>, unblocks: seq<bv8>)

  /** pos_deadlock_candidate_is_occupied: another train stands on the same physical sensor. */
  predicate Occupied(t: Layout, others: seq<int>, v: nat) {
    exists i :: 0 <= i < |others| && SamePhysical(t, v, others[i])
  }

  /** The tests a candidate must pass before its route is evaluated. */
  predicate Suitable(t: Layout, r: Requester, c: seq<int>, v: nat)
    requires v < |c|
  {
    0 <= c[v] < INF && c[v] >= r.minDist && !SamePhysical(t, v, r.cur) && !SamePhysical(t, v, r.goal) &&
    !Occupied(t, r.others, v)
  }

  predicate Eligible(t: Layout, r: Requester, c: seq<int>, v: nat)
    requires |c| == |t| == |r.ready|
  {
    v < |t| && Canonical(t, v) && Suitable(t, r, c, v) && r.ready[v]
  }

  predicate Unlocks(t: Layout, r: Requester, c: seq<int>, v: nat)
    requires |c| == |t| == |r.ready| == |r.unblocks|
  {
    Eligible(t, r, c, v) && r.unblocks[v] != 0
  }

  datatype Pick = NoPick | ReadyUnlock(target: nat, mask: bv8) | ReadyRelocate(target: nat, mask: bv8)

  /** An unlocking target is the nearest one there is. Only if there is none, the train relocates, and
      then to the farthest target it could take. */
  ghost predicate RightPick(t: Layout, r: Requester, c: seq<int>, p: Pick)
    requires |c| == |t| == |r.ready| == |r.unblocks|
  {
    match p
    case NoPick => forall v :: 0 <= v < |t| ==> !Eligible(t, r, c, v)
    case ReadyUnlock(g, m) =>
      Unlocks(t, r, c, g) && m == r.unblocks[g] &&
      forall v :: 0 <= v < |t| && Unlocks(t, r, c, v) ==> v == g || Less(Key(c, g), Key(c, v))
    case ReadyRelocate(g, m) =>
      Eligible(t, r, c, g) && m == r.waiting &&
      (forall v :: 0 <= v < |t| ==> !Unlocks(t, r, c, v)) &&
      forall v :: 0 <= v < |t| && Eligible(t, r, c, v) ==> v == g || Less(Key(c, v), Key(c, g))
  }

  method CheckOccupied(t: Layout, others: seq<int>, v: nat) returns (occupied: bool)
    ensures occupied == Occupied(t, others, v)
  {
    for i := 0 to |others|
      invariant forall k :: 0 <= k < i ==> !SamePhysical(t, v, others[k])
    {
      if SamePhysical(t, v, others[i]) {
        return true;
      }
    }
    return false;
  }

  /** State of the selection loop: nothing among the first `i` unlocks, and `last` is the last of them
      that is eligible, -1 if none is. */
  ghost predicate Picking(t: Layout, r: Requester, c: seq<int>, s: seq<nat>, i: nat, last: int)
    requires |c| == |t| == |r.ready| == |r.unblocks| && i <= |s|
  {
    (forall k :: 0 <= k < i ==> !Unlocks(t, r, c, s[k])) &&
    (last < 0 ==> forall k :: 0 <= k < i ==> !Eligible(t, r, c, s[k])) &&
    (last >= 0 ==> exists k :: IsLastEligible(t, r, c, s, i, last, k))
  }

  ghost predicate IsLastEligible(t: Layout, r: Requester, c: seq<int>, s: seq<nat>, i: nat, last: int, k: nat)
    requires |c| == |t| == |r.ready| && i <= |s|
  {
    k < i && s[k] == last && Eligible(t, r, c, s[k]) && forall j :: k < j < i ==> !Eligible(t, r, c, s[j])
  }

  lemma EligibleListed(t: Layout, r: Requester, c: seq<int>, s: seq<nat>, v: nat) returns (k: nat)
    requires |c| == |t| == |r.ready| && Ranked(c, s, Reached(t, c, |t|)) && Eligible(t, r, c, v)
    ensures k < |s| && s[k] == v
  {
    assert v in Reached(t, c, |t|);
    k :| 0 <= k < |s| && s[k] == v;
  }

  lemma RankedOrder(t: Layout, c: seq<int>, s: seq<nat>, i: nat, k: nat)
    requires |c| == |t| && Ranked(c, s, Reached(t, c, |t|)) && i < k < |s|
    ensures Less(Key(c, s[i]), Key(c, s[k]))
  {
    assert Keys(c, s)[i] == Key(c, s[i]) && Keys(c, s)[k] == Key(c, s[k]);
  }

  lemma UnlockIsRight(t: Layout, r: Requester, c: seq<int>, s: seq<nat>, i: nat, last: int)
    requires |c| == |t| == |r.ready| == |r.unblocks| && Ranked(c, s, Reached(t, c, |t|)) && i < |s|
    requires Picking(t, r, c, s, i, last) && Unlocks(t, r, c, s[i])
    ensures RightPick(t, r, c, ReadyUnlock(s[i], r.unblocks[s[i]]))
  {
    forall v | 0 <= v < |t| && Unlocks(t, r, c, v) ensures v == s[i] || Less(Key(c, s[i]), Key(c, v)) {
      var k := EligibleListed(t, r, c, s, v);
      if k > i {
        RankedOrder(t, c, s, i, k);
      }
    }
  }

  lemma FallbackIsRight(t: Layout, r: Requester, c: seq<int>, s: seq<nat>, last: int)
    requires |c| == |t| == |r.ready| == |r.unblocks| && Ranked(c, s, Reached(t, c, |t|))
    requires Picking(t, r, c, s, |s|, last)
    ensures RightPick(t, r, c, if last >= 0 then ReadyRelocate(last, r.waiting) else NoPick)
  {
    forall v | 0 <= v < |t| && Eligible(t, r, c, v)
      ensures last >= 0 && !Unlocks(t, r, c, v) && (v == last || Less(Key(c, v), Key(c, last)))
    {
      var k := EligibleListed(t, r, c, s, v);
      var n :| IsLastEligible(t, r, c, s, |s|, last, n);
      if k < n {
        RankedOrder(t, c, s, k, n);
      }
    }
  }

  /** The fallback is the nearest eligible sensor exactly if it is the only one. */
  lemma FallbackNearest(t: Layout, r: Requester, c: seq<int>, g: nat, mask: bv8)
    requires |c| == |t| == |r.ready| == |r.unblocks| && RightPick(t, r, c, ReadyRelocate(g, mask))
    ensures (forall v :: 0 <= v < |t| && Eligible(t, r, c, v) ==> v == g || Less(Key(c, g), Key(c, v))) <==>
            forall v :: 0 <= v < |t| && Eligible(t, r, c, v) ==> v == g
  {
  }

  /** The tests on one candidate. */
  method CheckEligible(t: Layout, r: Requester, d0: seq<int>, d1: seq<int>, v: nat) returns (eligible: bool)
    requires |d0| == |d1| == |t| == |r.ready| && IsRow(d0) && IsRow(d1) && v < |t| && Canonical(t, v)
    ensures eligible == Eligible(t, r, Nearer(d0, d1), v)
  {
    SortDistIsNearer(d0, d1, v);
    var dist := SortDist(DirectDist(d0, v), DirectDist(d1, v));
    if dist < 0 || dist < r.minDist || SamePhysical(t, v, r.cur) || SamePhysical(t, v, r.goal) {
      return false;
    }
    var occupied := CheckOccupied(t, r.others, v);
    return !occupied && r.ready[v];
  }

  lemma PickingNext(t: Layout, r: Requester, c: seq<int>, s: seq<nat>, i: nat, last: int)
    requires |c| == |t| == |r.ready| == |r.unblocks| && i < |s| && Picking(t, r, c, s, i, last)
    requires !Unlocks(t, r, c, s[i])
    ensures Picking(t, r, c, s, i + 1, if Eligible(t, r, c, s[i]) then s[i] else last)
  {
    if Eligible(t, r, c, s[i]) {
      assert IsLastEligible(t, r, c, s, i + 1, s[i], i);
    } else if last >= 0 {
      var k :| IsLastEligible(t, r, c, s, i, last, k);
      assert IsLastEligible(t, r, c, s, i + 1, last, k);
    }
  }

  /** The selection loop of pos_pick_deadlock_yield_target over the merged candidates. */
  method PickYieldTarget(t: Layout, r: Requester, d0: seq<int>, d1: seq<int>, merged: seq<nat>) returns (p: Pick)
    requires |d0| == |d1| == |t| == |r.ready| == |r.unblocks| && IsRow(d0) && IsRow(d1)
    requires Ranked(Nearer(d0, d1), merged, Reached(t, Nearer(d0, d1), |t|))
    ensures RightPick(t, r, Nearer(d0, d1), p)
  {
    ghost var c := Nearer(d0, d1);
    var last: int := -1;
    var i := 0;
    while i < |merged|
      invariant i <= |merged| && -1 <= last && Picking(t, r, c, merged, i, last)
    {
      var v := merged[i];
      assert v in merged && v in Reached(t, c, |t|);
      var eligible := CheckEligible(t, r, d0, d1, v);
      if eligible && r.unblocks[v] != 0 {
        UnlockIsRight(t, r, c, merged, i, last);
        return ReadyUnlock(v, r.unblocks[v]);
      }
      PickingNext(t, r, c, merged, i, last);
      if eligible {
        last := v;
      }
      i := i + 1;
    }
    FallbackIsRight(t, r, c, merged, last);
    p := if last >= 0 then ReadyRelocate(last, r.waiting) else NoPick;
  }

  /** pos_pick_deadlock_yield_target over the cached tables; origins are -1 for NULL. */
  method ChooseYield(tables: RouteTables, r: Requester, origin0: int, origin1: int) returns (p: Pick)
    requires tables.Valid() && |r.ready| == |r.unblocks| == |tables.t|
    requires origin0 < |tables.t| && origin1 < |tables.t|
    ensures r.cur < 0 ==> p == NoPick
    ensures r.cur >= 0 ==> RightPick(tables.t, r, Nearer(RowOf(tables, origin0), RowOf(tables, origin1)), p)
  {
    if r.cur < 0 {
      return NoPick;
    }
    var d0, s0 := FillSorted(tables, origin0);
    var d1, s1 := FillSorted(tables, origin1);
    var merged := MergeCandidates(tables.t, d0, d1, s0, s1);
    p := PickYieldTarget(tables.t, r, d0, d1, merged);
  }

  /** An origin's row of the free-track table; a missing origin reaches nothing. */
  ghost function RowOf(tables: RouteTables, origin: int): (d: seq<int>)
    requires tables.Valid() && origin < |tables.t|
    reads tables, tables.free, tables.sorted
    ensures |d| == |tables.t|
  {
    if origin < 0 then seq(|tables.t|, i => INF) else tables.Row(origin)
  }

  /** route_fill_sorted_direct_sensor_candidates, with the row it is sorted by. */
  method FillSorted(tables: RouteTables, origin: int) returns (d: seq<int>, s: seq<nat>)
    requires tables.Valid() && origin < |tables.t|
    ensures d == RowOf(tables, origin) && IsList(tables.t, d, s)
  {
    var t := tables.t;
    if origin < 0 {
      return seq(|t|, i => INF), [];
    }
    d := seq(|t|, y requires 0 <= y < |t| && tables.Valid() reads tables, tables.free, tables.sorted => tables.free[origin, y]);
    s := tables.sorted[origin];
    assert tables.RowOk(origin);
    assert d == tables.Row(origin);
    forall v | 0 <= v < |d| ensures 0 <= d[v] <= INF {
      assert FreeDistance(t, origin, v, d[v]);
    }
  }
}
