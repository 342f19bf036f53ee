/** The array heap of min_heap.c: 32-bit keys and their values in two parallel buffers. */
module MinHeap {

  datatype Popped<V> = Nothing | Got(key: int, item: V)

  function Zip<V>(ks: seq<int>, vs: seq<V>): (s: seq<(int, V)>)
    requires |ks| == |vs|
    ensures |s| == |ks| && forall i :: 0 <= i < |s| ==> s[i] == (ks[i], vs[i])
  {
    seq(|ks|, i requires 0 <= i < |ks| => (ks[i], vs[i]))
  }

  /** The pairs of two parallel buffers, counted with multiplicity. */
  ghost function Bag<V>(ks: seq<int>, vs: seq<V>): multiset<(int, V)>
    requires |ks| == |vs|
  {
    if |ks| == 0 then multiset{}
    else Bag(ks[..|ks| - 1], vs[..|vs| - 1]) + multiset{(ks[|ks| - 1], vs[|vs| - 1])}
  }

  lemma {:induction false} BagIsMultiset<V>(ks: seq<int>, vs: seq<V>)
    requires |ks| == |vs|
    ensures Bag(ks, vs) == multiset(Zip(ks, vs))
  {
    if |ks| > 0 {
      var k := |ks| - 1;
      BagIsMultiset(ks[..k], vs[..k]);
      assert Zip(ks, vs) == Zip(ks[..k], vs[..k]) + [(ks[k], vs[k])];
    }
  }

  function Parent(i: nat): nat
    requires i > 0
  {
    (i - 1) / 2
  }

  /** Heap order for every node but `hole`, whose children are ordered against its parent instead. */
  predicate OrderedBut(ks: seq<int>, hole: nat) {
    (forall j :: 0 < j < |ks| && j != hole && Parent(j) != hole ==> ks[Parent(j)] <= ks[j]) &&
    (forall j :: 0 < j < |ks| && Parent(j) == hole && hole > 0 ==> ks[Parent(hole)] <= ks[j])
  }

  predicate Ordered(ks: seq<int>) {
    forall j :: 0 < j < |ks| ==> ks[Parent(j)] <= ks[j]
  }

  lemma {:induction false} RootIsLeast(ks: seq<int>, j: nat)
    requires Ordered(ks) && j < |ks|
    ensures ks[0] <= ks[j]
    decreases j
  {
    if j > 0 {
      RootIsLeast(ks, Parent(j));
    }
  }

  predicate Children(ks: seq<int>, node: nat)
    requires node < |ks|
  {
    forall j :: 0 < j < |ks| && Parent(j) == node ==> ks[node] <= ks[j]
  }

  predicate Sinking(ks: seq<int>, node: nat) {
    OrderedBut(ks, node) && (0 < node < |ks| ==> ks[Parent(node)] <= ks[node])
  }

  predicate Rising(ks: seq<int>, node: nat) {
    node < |ks| && OrderedBut(ks, node) && Children(ks, node)
  }

  lemma Sunk(ks: seq<int>, node: nat)
    requires Sinking(ks, node) && (node < |ks| ==> Children(ks, node))
    ensures Ordered(ks)
  {
    forall j | 0 < j < |ks| ensures ks[Parent(j)] <= ks[j] {
      assert j != node && Parent(j) != node ==> ks[Parent(j)] <= ks[j];
    }
  }

  lemma Risen(ks: seq<int>, node: nat)
    requires Rising(ks, node) && (node > 0 ==> ks[Parent(node)] <= ks[node])
    ensures Ordered(ks)
  {
    Sunk(ks, node);
  }

  /** heap_fixdown's choice: `child` is the smaller of the one or two children. */
  predicate SmallerChild(ks: seq<int>, node: nat, child: nat) {
    node < child < |ks| && Parent(child) == node &&
    forall j :: 0 < j < |ks| && Parent(j) == node ==> ks[child] <= ks[j]
  }

  /** Swapping a too small node with its parent moves the hole up. */
  lemma SwapUp(ks: seq<int>, node: nat)
    requires node > 0 && Rising(ks, node) && ks[Parent(node)] > ks[node]
    ensures var r := ks[Parent(node) := ks[node]][node := ks[Parent(node)]];
            Rising(r, Parent(node))
  {
    var up := Parent(node);
    var r := ks[up := ks[node]][node := ks[up]];
    forall j | 0 < j < |r| && j != up && Parent(j) != up ensures r[Parent(j)] <= r[j] {
      if Parent(j) == node {
        assert ks[Parent(node)] <= ks[j];
      } else {
        assert ks[Parent(j)] <= ks[j];
      }
    }
    forall j | 0 < j < |r| && Parent(j) == up ensures r[up] <= r[j] && (up > 0 ==> r[Parent(up)] <= r[j]) {
      if j != node {
        assert ks[up] <= ks[j];
      }
      if up > 0 {
        assert ks[Parent(up)] <= ks[up];
      }
    }
  }

  /** Swapping a too large node with its smaller child moves the hole down. */
  lemma SwapDown(ks: seq<int>, node: nat, child: nat)
    requires SmallerChild(ks, node, child) && Sinking(ks, node) && ks[node] > ks[child]
    ensures var r := ks[node := ks[child]][child := ks[node]];
            Sinking(r, child)
  {
    var r := ks[node := ks[child]][child := ks[node]];
    forall j | 0 < j < |r| && j != child && Parent(j) != child ensures r[Parent(j)] <= r[j] {
      if j != node && Parent(j) != node {
        assert ks[Parent(j)] <= ks[j];
      }
    }
    forall j | 0 < j < |r| && Parent(j) == child ensures r[Parent(child)] <= r[j] {
      assert ks[Parent(j)] <= ks[j];
    }
  }

  lemma SwapKeeps<T>(s: seq<T>, i: nat, j: nat)
    requires i < |s| && j < |s|
    ensures multiset(s[i := s[j]][j := s[i]]) == multiset(s)
  {
  }

  class MinHeap<V> {
    const keys: array<int>
    const vals: array<V>
    var size: nat

    ghost predicate Buffers()
      reads this
    {
      (keys as object) != (vals as object) && keys.Length == vals.Length && size <= keys.Length
    }

    ghost function Slots(): seq<(int, V)>
      requires Buffers()
      reads this, keys, vals
    {
      Zip(keys[..size], vals[..size])
    }

    ghost predicate Valid()
      reads this, keys, vals
    {
      Buffers() && Ordered(keys[..size])
    }

    ghost function Pairs(): multiset<(int, V)>
      requires Buffers()
      reads this, keys, vals
    {
      multiset(Slots())
    }

    /** The stored pairs, each as often as it is stored. */
    ghost function Entries(): multiset<(int, V)>
      requires Buffers()
      reads this, keys, vals
    {
      Bag(keys[..size], vals[..size])
    }

    lemma EntriesArePairs()
      requires Buffers()
      ensures Entries() == Pairs()
    {
      BagIsMultiset(keys[..size], vals[..size]);
    }

    lemma SizeIsCount()
      requires Buffers()
      ensures |Entries()| == size
    {
      EntriesArePairs();
    }

    constructor (keyBuffer: array<int>, valBuffer: array<V>)
      requires (keyBuffer as object) != (valBuffer as object) && keyBuffer.Length == valBuffer.Length
      ensures Valid() && Entries() == multiset{} && keys == keyBuffer && vals == valBuffer
    {
      keys, vals, size := keyBuffer, valBuffer, 0;
    }

    method Swap(i: nat, j: nat)
      requires Buffers() && i < size && j < size && i != j
      modifies keys, vals
      ensures keys[..size] == old(keys[..size])[i := old(keys[j])][j := old(keys[i])]
      ensures Pairs() == old(Pairs())
    {
      ghost var s := Slots();
      keys[i], keys[j] := keys[j], keys[i];
      vals[i], vals[j] := vals[j], vals[i];
      assert Slots() == s[i := s[j]][j := s[i]];
      SwapKeeps(s, i, j);
    }

    method FixUp(start: nat)
      requires Buffers() && Rising(keys[..size], start)
      modifies keys, vals
      ensures Valid() && Pairs() == old(Pairs())
    {
      var node: nat := start;
      while node > 0 && keys[Parent(node)] > keys[node]
        invariant Buffers() && Rising(keys[..size], node)
        invariant Pairs() == old(Pairs())
      {
        var up := Parent(node);
        SwapUp(keys[..size], node);
        Swap(up, node);
        node := up;
      }
      Risen(keys[..size], node);
    }

    method FixDown()
      requires Buffers() && OrderedBut(keys[..size], 0)
      modifies keys, vals
      ensures Valid() && Pairs() == old(Pairs())
    {
      var node: nat := 0;
      while 2 * node + 1 < size
        invariant Buffers() && Sinking(keys[..size], node)
        invariant Pairs() == old(Pairs())
        decreases size - node
      {
        var child := PickChild(node);
        if keys[node] <= keys[child] {
          break;
        }
        SwapDown(keys[..size], node, child);
        Swap(node, child);
        node := child;
      }
      Sunk(keys[..size], node);
    }

    method PickChild(node: nat) returns (child: nat)
      requires Buffers() && 2 * node + 1 < size
      ensures SmallerChild(keys[..size], node, child)
    {
      child := 2 * node + 1;
      if child + 1 < size && keys[child + 1] < keys[child] {
        child := child + 1;
      }
    }

    /** Refuses exactly when the buffers are full. */
    method Insert(key: int, item: V) returns (ok: bool)
      requires Valid()
      modifies this`size, keys, vals
      ensures Valid() && ok == (old(size) < keys.Length)
      ensures Entries() == if ok then old(Entries()) + multiset{(key, item)} else old(Entries())
      ensures size == if ok then old(size) + 1 else old(size)
    {
      if size >= keys.Length {
        return false;
      }
      EntriesArePairs();
      ghost var s := Slots();
      keys[size] := key;
      vals[size] := item;
      size := size + 1;
      assert Slots() == s + [(key, item)];
      FixUp(size - 1);
      EntriesArePairs();
      ok := true;
    }

    /** Moves the last pair to the root and sinks it. */
    method DropRoot()
      requires Valid() && size > 0
      modifies this`size, keys, vals
      ensures Valid() && size == old(size) - 1
      ensures Pairs() == old(Pairs()) - multiset{(old(keys[0]), old(vals[0]))}
    {
      ghost var s := Slots();
      keys[0] := keys[size - 1];
      vals[0] := vals[size - 1];
      size := size - 1;
      assert Slots() == s[0 := s[size]][..size];
      TakeFirst(s);
      FixDown();
    }

    /** Takes out a pair with a least key. */
    method Pop() returns (r: Popped<V>)
      requires Valid()
      modifies this`size, keys, vals
      ensures Valid() && r.Nothing? == (old(size) == 0)
      ensures r.Nothing? ==> Entries() == old(Entries()) == multiset{} && size == 0
      ensures r.Got? ==> (r.key, r.item) in old(Entries()) && size == old(size) - 1
      ensures r.Got? ==> Entries() == old(Entries()) - multiset{(r.key, r.item)}
      ensures r.Got? ==> forall e :: e in old(Entries()) ==> r.key <= e.0
    {
      EntriesArePairs();
      if size == 0 {
        return Nothing;
      }
      LeastEntry();
      r := Got(keys[0], vals[0]);
      DropRoot();
      EntriesArePairs();
    }

    /** min_heap_get_top_key. */
    method TopKey() returns (k: int)
      requires Valid() && size > 0
      ensures forall e :: e in Entries() ==> k <= e.0
      ensures exists e :: e in Entries() && e.0 == k
    {
      EntriesArePairs();
      LeastEntry();
      k := keys[0];
      assert Slots()[0] in Pairs();
    }

    lemma LeastEntry()
      requires Valid() && size > 0
      ensures (keys[0], vals[0]) in Pairs() && forall e :: e in Pairs() ==> keys[0] <= e.0
    {
      assert Slots()[0] == (keys[0], vals[0]);
      forall e | e in Pairs() ensures keys[0] <= e.0 {
        assert e in Slots();
        var i :| 0 <= i < size && Slots()[i] == e;
        RootIsLeast(keys[..size], i);
      }
    }
  }

  lemma TakeFirst<T>(s: seq<T>)
    requires |s| > 0
    ensures multiset(s[0 := s[|s| - 1]][..|s| - 1]) == multiset(s) - multiset{s[0]}
  {
    var k := |s| - 1;
    if k == 0 {
      assert s == [s[0]];
    } else {
      var mid := s[1..k];
      assert s == [s[0]] + mid + [s[k]];
      assert s[0 := s[k]][..k] == [s[k]] + mid;
    }
  }
}
