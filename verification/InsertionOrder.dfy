/** Ascending lists of (distance, index) pairs, as both insertion sorts of the route code build them. */
module InsertionOrder {

  datatype Keyed = Keyed(key: int, idx: nat)

  predicate Less(a: Keyed, b: Keyed) {
    a.key < b.key || (a.key == b.key && a.idx < b.idx)
  }

  predicate Ascending(s: seq<Keyed>) {
    forall i, j :: 0 <= i < j < |s| ==> Less(s[i], s[j])
  }

  /** `s` with `x` put in at position `k`. */
  function Inserted(s: seq<Keyed>, k: nat, x: Keyed): (r: seq<Keyed>)
    requires k <= |s|
    ensures |r| == |s| + 1
  {
    s[..k] + [x] + s[k..]
  }

  lemma InsertedAscends(s: seq<Keyed>, k: nat, x: Keyed)
    requires Ascending(s) && k <= |s|
    requires k > 0 ==> Less(s[k - 1], x)
    requires forall i :: k <= i < |s| ==> Less(x, s[i])
    ensures Ascending(Inserted(s, k, x))
  {
    var r := Inserted(s, k, x);
    forall i, j | 0 <= i < j < |r| ensures Less(r[i], r[j]) {
      if j < k {
        assert r[i] == s[i] && r[j] == s[j];
      } else if j == k {
        assert r[i] == s[i] && r[j] == x;
        assert i < k - 1 ==> Less(s[i], s[k - 1]);
      } else if i == k {
        assert r[i] == x && r[j] == s[j - 1];
      } else {
        assert r[j] == s[j - 1] && r[i] == (if i < k then s[i] else s[i - 1]);
      }
    }
  }

  /** `x` put into an ascending list from its upper end, as the insertion sorts do. */
  function Sifted(s: seq<Keyed>, x: Keyed): (r: seq<Keyed>)
    ensures |r| == |s| + 1
  {
    if |s| == 0 || Less(s[|s| - 1], x) then s + [x] else Sifted(s[..|s| - 1], x) + [s[|s| - 1]]
  }

  /** Sifting loses nothing and repeats nothing. */
  lemma {:induction false} SiftedBag(s: seq<Keyed>, x: Keyed)
    ensures multiset(Sifted(s, x)) == multiset(s) + multiset{x}
  {
    if |s| > 0 && !Less(s[|s| - 1], x) {
      SiftedBag(s[..|s| - 1], x);
      assert s == s[..|s| - 1] + [s[|s| - 1]];
    }
  }

  lemma SiftedHas(s: seq<Keyed>, x: Keyed)
    ensures forall y :: y in Sifted(s, x) <==> y in s || y == x
  {
    SiftedBag(s, x);
    forall y ensures y in Sifted(s, x) <==> y in s || y == x {
      assert y in Sifted(s, x) <==> y in multiset(Sifted(s, x));
    }
  }

  /** What is put into a list below its last entry stays below it. */
  lemma SiftedBelow(s: seq<Keyed>, x: Keyed, top: Keyed, i: nat)
    requires i < |Sifted(s, x)| && Less(x, top) && forall j :: 0 <= j < |s| ==> Less(s[j], top)
    ensures Less(Sifted(s, x)[i], top)
  {
    SiftedHas(s, x);
    assert Sifted(s, x)[i] in Sifted(s, x);
  }

  lemma {:induction false} SiftedAscends(s: seq<Keyed>, x: Keyed)
    requires Ascending(s) && forall i :: 0 <= i < |s| ==> s[i].idx != x.idx
    ensures Ascending(Sifted(s, x))
  {
    if |s| > 0 && !Less(s[|s| - 1], x) {
      var k := |s| - 1;
      SiftedAscends(s[..k], x);
      forall i | 0 <= i < |Sifted(s[..k], x)| ensures Less(Sifted(s[..k], x)[i], s[k]) {
        SiftedBelow(s[..k], x, s[k], i);
      }
    } else {
      forall i | 0 <= i < |s| ensures Less(s[i], x) {
        assert i < |s| - 1 ==> Less(s[i], s[|s| - 1]);
      }
    }
  }

  lemma SiftedShift(s: seq<Keyed>, x: Keyed, j: nat)
    requires 0 < j <= |s| && !Less(s[j - 1], x) && Sifted(s, x) == Sifted(s[..j], x) + s[j..]
    ensures Sifted(s, x) == Sifted(s[..j - 1], x) + s[j - 1..]
  {
    assert s[..j][..j - 1] == s[..j - 1] && [s[j - 1]] + s[j..] == s[j - 1..];
  }

  lemma SiftedStop(s: seq<Keyed>, x: Keyed, j: nat)
    requires j <= |s| && (j > 0 ==> Less(s[j - 1], x)) && Sifted(s, x) == Sifted(s[..j], x) + s[j..]
    ensures Sifted(s, x) == s[..j] + [x] + s[j..]
  {
  }

  /** One entry moves up by one place; the place below it is free then. */
  method ShiftUp(a: array<Keyed>, i: nat, j: nat, prev: Keyed, ghost s: seq<Keyed>)
    requires 0 < j <= i < a.Length && |s| == i && a[..j] == s[..j] && a[j + 1..i + 1] == s[j..] && prev == s[j - 1]
    modifies a
    ensures a[..j - 1] == s[..j - 1] && a[j..i + 1] == s[j - 1..] && a[i + 1..] == old(a[i + 1..])
  {
    ghost var above, below := a[j + 1..i + 1], a[..j - 1];
    assert below == s[..j][..j - 1] == s[..j - 1];
    a[j] := prev;
    assert a[j..i + 1] == [prev] + above == s[j - 1..];
  }

  /** The inner loop of route_build_reversal_candidates: shift larger entries of a[..i] up, put a[i] in. */
  method Sift(a: array<Keyed>, i: nat)
    requires i < a.Length
    modifies a
    ensures a[..i + 1] == Sifted(old(a[..i]), old(a[i])) && a[i + 1..] == old(a[i + 1..])
  {
    ghost var s := a[..i];
    var cur := a[i];
    var j := i;
    while j > 0
      invariant 0 <= j <= i
      invariant a[..j] == s[..j] && a[j + 1..i + 1] == s[j..] && a[i + 1..] == old(a[i + 1..])
      invariant Sifted(s, cur) == Sifted(s[..j], cur) + s[j..]
    {
      var prev := a[j - 1];
      assert prev == a[..j][j - 1] == s[j - 1];
      if Less(prev, cur) {
        break;
      }
      SiftedShift(s, cur, j);
      ShiftUp(a, i, j, prev, s);
      j := j - 1;
    }
    assert j > 0 ==> a[..j][j - 1] == s[j - 1];
    SiftedStop(s, cur, j);
    a[j] := cur;
    assert a[..i + 1] == a[..j] + [a[j]] + a[j + 1..i + 1];
  }

  predicate DistinctIdx(s: seq<Keyed>) {
    forall i, j :: 0 <= i < j < |s| ==> s[i].idx != s[j].idx
  }

  /** The same entries, each as often. */
  predicate Permutes(a: seq<Keyed>, b: seq<Keyed>) {
    multiset(a) == multiset(b)
  }

  lemma PermutesHave(a: seq<Keyed>, b: seq<Keyed>)
    requires Permutes(a, b)
    ensures forall x :: x in a <==> x in b
  {
    forall x ensures x in a <==> x in b {
      assert x in multiset(a) <==> x in multiset(b);
    }
  }

  /** The insertion sort of route_build_reversal_candidates over the first `count` entries. */
  method SortPrefix(a: array<Keyed>, count: nat)
    requires count <= a.Length && DistinctIdx(a[..count])
    modifies a
    ensures Ascending(a[..count]) && Permutes(a[..count], old(a[..count]))
  {
    ghost var s := a[..count];
    for i := 0 to count
      invariant Ascending(a[..i]) && Permutes(a[..i], s[..i]) && a[i..count] == s[i..]
    {
      ghost var done, rest := a[..i], a[i + 1..];
      assert a[i] == a[i..count][0] == s[i];
      assert rest[..count - i - 1] == a[i..count][1..] == s[i + 1..];
      Sift(a, i);
      SortStep(s, i, done);
      assert a[i + 1..count] == a[i + 1..][..count - i - 1];
    }
    assert s[..count] == s;
  }

  lemma SortStep(s: seq<Keyed>, i: nat, done: seq<Keyed>)
    requires DistinctIdx(s) && i < |s| && Ascending(done) && Permutes(done, s[..i])
    ensures Ascending(Sifted(done, s[i])) && Permutes(Sifted(done, s[i]), s[..i + 1])
  {
    NewItem(s, i, done);
    SiftedAscends(done, s[i]);
    SiftedBag(done, s[i]);
    assert s[..i + 1] == s[..i] + [s[i]];
  }

  lemma NewItem(s: seq<Keyed>, i: nat, done: seq<Keyed>)
    requires DistinctIdx(s) && i < |s| && Permutes(done, s[..i])
    ensures forall k :: 0 <= k < |done| ==> done[k].idx != s[i].idx
  {
    PermutesHave(done, s[..i]);
    forall k | 0 <= k < |done| ensures done[k].idx != s[i].idx {
      assert done[k] in done;
      assert done[k] in s[..i];
    }
  }
}
