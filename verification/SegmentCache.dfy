/** Bit sets of track nodes and the precomputed segments (route_search_cache.c). */
module SegmentCache {
  import opened Track
  import opened Labels

  // ---------- bit sets in 32-bit words ----------

  function Bit(k: nat): bv32
    requires k < 32
  {
    1 as bv32 << k
  }

  function Words(n: nat): nat {
    (n + 31) / 32
  }

  predicate Has(bits: seq<bv32>, v: nat)
    requires v / 32 < |bits|
  {
    bits[v / 32] & Bit(v % 32) != 0
  }

  /** `bits` holds exactly the nodes below `n` that satisfy membership in `s`. */
  predicate Packs(bits: seq<bv32>, n: nat, s: set<nat>) {
    |bits| == Words(n) && forall v :: 0 <= v < n ==> (Has(bits, v) <==> v in s)
  }

  lemma BitsApart(j: nat, k: nat)
    requires j < 32 && k < 32 && j != k
    ensures Bit(j) & Bit(k) == 0
  {
  }

  lemma OrThenAnd(a: bv32, b: bv32, c: bv32)
    ensures (a | b) & c == (a & c) | (b & c)
  {
  }

  lemma SetOne(w: bv32, j: nat, k: nat)
    requires j < 32 && k < 32
    ensures ((w | Bit(j)) & Bit(k) != 0) <==> (w & Bit(k) != 0 || j == k)
  {
    OrThenAnd(w, Bit(j), Bit(k));
    if j != k {
      BitsApart(j, k);
    }
  }

  lemma ShareOne(a: bv32, b: bv32, k: nat)
    requires k < 32 && a & Bit(k) != 0 && b & Bit(k) != 0
    ensures a & b != 0
  {
  }

  /** route_bitset_set for an index in range. */
  method SetBit(bits: array<bv32>, n: nat, idx: nat, ghost s: set<nat>)
    requires idx < n && Packs(bits[..], n, s)
    modifies bits
    ensures Packs(bits[..], n, s + {idx})
  {
    ghost var was := bits[..];
    bits[idx / 32] := bits[idx / 32] | Bit(idx % 32);
    AddOne(was, n, idx, s);
    assert bits[..] == was[idx / 32 := was[idx / 32] | Bit(idx % 32)];
  }

  lemma AddOne(was: seq<bv32>, n: nat, idx: nat, s: set<nat>)
    requires idx < n && Packs(was, n, s)
    ensures Packs(was[idx / 32 := was[idx / 32] | Bit(idx % 32)], n, s + {idx})
  {
    var now := was[idx / 32 := was[idx / 32] | Bit(idx % 32)];
    forall v | 0 <= v < n ensures Has(now, v) <==> v in s + {idx} {
      assert Has(was, v) <==> v in s;
      if v / 32 == idx / 32 {
        SetOne(was[v / 32], idx % 32, v % 32);
      }
    }
  }

  /** route_bitset_clear. */
  method ClearBits(bits: array<bv32>, n: nat)
    requires bits.Length == Words(n)
    modifies bits
    ensures Packs(bits[..], n, {})
  {
    for i := 0 to bits.Length
      invariant forall k :: 0 <= k < i ==> bits[k] == 0
    {
      bits[i] := 0;
    }
    forall v | 0 <= v < n ensures !Has(bits[..], v) {
      assert bits[v / 32] == 0;
    }
  }

  function Blocked(blocked: seq<bool>): set<nat> {
    set v: nat | v < |blocked| && blocked[v]
  }

  /** route_pack_blocked_bits. */
  method PackBlocked(blocked: seq<bool>, bits: array<bv32>)
    requires bits.Length == Words(|blocked|)
    modifies bits
    ensures Packs(bits[..], |blocked|, Blocked(blocked))
  {
    ClearBits(bits, |blocked|);
    assert Blocked(blocked[..0]) == {};
    for i := 0 to |blocked|
      invariant Packs(bits[..], |blocked|, Blocked(blocked[..i]))
    {
      if blocked[i] {
        SetBit(bits, |blocked|, i, Blocked(blocked[..i]));
        assert Blocked(blocked[..i + 1]) == Blocked(blocked[..i]) + {i};
      } else {
        assert Blocked(blocked[..i + 1]) == Blocked(blocked[..i]);
      }
    }
    assert blocked[..|blocked|] == blocked;
  }

  /** route_bitset_intersects. */
  method Intersects(lhs: seq<bv32>, rhs: seq<bv32>) returns (meet: bool)
    requires |lhs| == |rhs|
    ensures meet <==> exists i :: 0 <= i < |lhs| && lhs[i] & rhs[i] != 0
  {
    for i := 0 to |lhs|
      invariant forall k :: 0 <= k < i ==> lhs[k] & rhs[k] == 0
    {
      if lhs[i] & rhs[i] != 0 {
        return true;
      }
    }
    return false;
  }

  /** The prefilter never misses: two packed sets without a common word bit are disjoint. */
  lemma NoSharedWord(a: seq<bv32>, b: seq<bv32>, n: nat, s: set<nat>, r: set<nat>, v: nat)
    requires Packs(a, n, s) && Packs(b, n, r) && v < n && v in s && v in r
    ensures a[v / 32] & b[v / 32] != 0
  {
    assert Has(a, v) && Has(b, v);
    ShareOne(a[v / 32], b[v / 32], v % 32);
  }

  // ---------- segments ----------

  /** route_segment_t; `node_count` is the length of `nodes`. */
  datatype CachedSegment = CachedSegment(nodes: seq<nat>, prefix: seq<int>, bits: seq<bv32>,
                                         swNum: int, swDir: char, valid: bool)

  function Members(s: seq<nat>): set<nat> {
    set v | v in s
  }

  /** prefix_dist: the walked distance up to and including each of the first `k` nodes. */
  function PrefixSums(t: Layout, u: nat, seg: seq<nat>, k: nat): (s: seq<int>)
    requires u < |t| && InRange(t, seg) && k <= |seg|
    ensures |s| == k
  {
    if k == 0 then [] else PrefixSums(t, u, seg, k - 1) + [Reach(t, u, seg, k)]
  }

  lemma {:induction false} PrefixAt(t: Layout, u: nat, seg: seq<nat>, k: nat, i: nat)
    requires u < |t| && InRange(t, seg) && i < k <= |seg|
    ensures PrefixSums(t, u, seg, k)[i] == Reach(t, u, seg, i + 1)
  {
    if i < k - 1 {
      PrefixAt(t, u, seg, k - 1, i);
    }
  }

  /** The cached segment is what a plain walk from `u` meets, with distances, bits and the switch
      setting its first leg needs. */
  predicate IsCached(t: Layout, u: nat, dir: nat, c: CachedSegment)
    requires WellFormed(t) && u < |t|
  {
    c.nodes == Segment(t, u, dir) && c.prefix == PrefixSums(t, u, c.nodes, |c.nodes|) &&
    Packs(c.bits, |t|, Members(c.nodes)) && c.valid == HasLeg(t, u, dir) &&
    c.swNum == SwNum(t, u) &&
    c.swDir == (if t[u].kind != Branch then '?' else if dir == 0 then 'S' else 'C')
  }

  /** What is still to be walked after `k` nodes when the next leg leads to `dest`. */
  function Rest(t: Layout, dest: int, k: nat): seq<nat>
    requires dest < |t|
  {
    if dest < 0 || k >= |t| then [] else Ahead(t, dest, |t| - 1 - k)
  }

  lemma RestStep(t: Layout, v: nat, k: nat)
    requires WellFormed(t) && v < |t| && k < |t|
    ensures -1 <= t[v].ahead.dest < |t|
    ensures Rest(t, v, k) == [v] + (if Ends(t, v) then [] else Rest(t, t[v].ahead.dest, k + 1))
  {
    assert NodeOk(t, v);
  }

  lemma LegOfSegment(t: Layout, u: nat, dir: nat, i: nat)
    requires WellFormed(t) && u < |t| && dir <= 1 && i < |Segment(t, u, dir)|
    ensures var s := Segment(t, u, dir); LegLen(t, From(u, s, i), s[i]) == LegInto(t, u, dir, s, i).len
  {
    assert NodeOk(t, u);
    SegmentNext(t, u, dir, i);
    if i > 0 {
      SegmentNext(t, u, dir, i - 1);
    }
  }

  /** The leg a walk takes into its node `i`. */
  function LegInto(t: Layout, u: nat, dir: nat, s: seq<nat>, i: nat): Leg
    requires u < |t| && InRange(t, s) && i <= |s|
  {
    if i == 0 then LegAt(t, u, dir) else t[s[i - 1]].ahead
  }

  /** State of the filling loop: `nodes` so far, and `leg` the next one to take. */
  predicate Filling(t: Layout, u: nat, dir: nat, nodes: seq<nat>, prefix: seq<int>, acc: int, leg: Leg)
    requires WellFormed(t) && u < |t|
  {
    var seg := Segment(t, u, dir);
    -1 <= leg.dest < |t| && InRange(t, nodes) && |nodes| <= |seg| &&
    seg == nodes + Rest(t, leg.dest, |nodes|) &&
    (|nodes| < |seg| ==> leg == LegInto(t, u, dir, nodes, |nodes|)) &&
    acc == Reach(t, u, seg, |nodes|) && prefix == PrefixSums(t, u, seg, |nodes|)
  }

  predicate Filled(t: Layout, u: nat, dir: nat, nodes: seq<nat>, prefix: seq<int>)
    requires WellFormed(t) && u < |t|
  {
    nodes == Segment(t, u, dir) && prefix == PrefixSums(t, u, nodes, |nodes|)
  }

  lemma FillingStart(t: Layout, u: nat, dir: nat)
    requires WellFormed(t) && u < |t| && dir <= 1 && HasLeg(t, u, dir)
    ensures Filling(t, u, dir, [], [], 0, LegAt(t, u, dir))
  {
    assert NodeOk(t, u);
    assert [u] + Segment(t, u, dir)[..0] == [u];
  }

  lemma FillingStep(t: Layout, u: nat, dir: nat, nodes: seq<nat>, prefix: seq<int>, acc: int, leg: Leg,
                    longer: seq<nat>, sums: seq<int>, d: int)
    requires WellFormed(t) && u < |t| && dir <= 1 && Filling(t, u, dir, nodes, prefix, acc, leg)
    requires leg.dest >= 0 && |nodes| < |t|
    requires longer == nodes + [leg.dest] && d == acc + leg.len && sums == prefix + [d]
    ensures if Ends(t, leg.dest) then Filled(t, u, dir, longer, sums)
            else Filling(t, u, dir, longer, sums, d, t[leg.dest].ahead)
  {
    var k, seg := |nodes|, Segment(t, u, dir);
    RestStep(t, leg.dest, k);
    assert nodes == seg[..k] && seg[k] == leg.dest;
    assert d == Reach(t, u, seg, k + 1) by {
      LegOfSegment(t, u, dir, k);
      ReachNext(t, u, seg, k);
    }
    assert sums == PrefixSums(t, u, seg, k + 1);
    if Ends(t, leg.dest) {
      assert seg == longer;
    } else {
      assert seg == longer + Rest(t, t[leg.dest].ahead.dest, k + 1);
    }
  }

  lemma FillingDone(t: Layout, u: nat, dir: nat, nodes: seq<nat>, prefix: seq<int>, acc: int, leg: Leg)
    requires WellFormed(t) && u < |t| && dir <= 1 && Filling(t, u, dir, nodes, prefix, acc, leg)
    requires leg.dest < 0 || |nodes| >= |t|
    ensures Filled(t, u, dir, nodes, prefix)
  {
    assert nodes + [] == nodes;
    assert nodes == Segment(t, u, dir);
  }

  method MarkNode(bits: array<bv32>, n: nat, ghost nodes: seq<nat>, v: nat)
    requires v < n && Packs(bits[..], n, Members(nodes))
    modifies bits
    ensures Packs(bits[..], n, Members(nodes + [v]))
  {
    SetBit(bits, n, v, Members(nodes));
    assert Members(nodes + [v]) == Members(nodes) + {v};
  }

  /** The walk of route_precompute_segment_cache from a usable leg. */
  method WalkSegment(t: Layout, u: nat, dir: nat, bits: array<bv32>) returns (nodes: seq<nat>, prefix: seq<int>)
    requires WellFormed(t) && u < |t| && dir <= 1 && HasLeg(t, u, dir) && Packs(bits[..], |t|, {})
    modifies bits
    ensures Filled(t, u, dir, nodes, prefix) && Packs(bits[..], |t|, Members(nodes))
  {
    var leg := LegAt(t, u, dir);
    var acc := 0;
    nodes, prefix := [], [];
    FillingStart(t, u, dir);
    assert Members([]) == {};
    while leg.dest >= 0 && |nodes| < |t|
      invariant Filling(t, u, dir, nodes, prefix, acc, leg)
      invariant Packs(bits[..], |t|, Members(nodes))
      decreases |t| - |nodes|
    {
      var v: nat := leg.dest;
      ghost var was, sums, sum := nodes, prefix, acc;
      acc := acc + leg.len;
      prefix := prefix + [acc];
      MarkNode(bits, |t|, nodes, v);
      nodes := nodes + [v];
      FillingStep(t, u, dir, was, sums, sum, leg, nodes, prefix, acc);
      if t[v].kind == Branch || t[v].kind == Exit {
        return;
      }
      leg := t[v].ahead;
    }
    FillingDone(t, u, dir, nodes, prefix, acc, leg);
  }

  /** The body of route_precompute_segment_cache for one start and direction. */
  method FillSegment(t: Layout, u: nat, dir: nat) returns (c: CachedSegment)
    requires WellFormed(t) && u < |t| && dir <= 1
    ensures IsCached(t, u, dir, c)
  {
    var swNum := if t[u].kind == Branch then t[u].num else -1;
    var swDir := if t[u].kind == Branch then (if dir == 0 then 'S' else 'C') else '?';
    var bits := new bv32[Words(|t|)];
    ClearBits(bits, |t|);
    var nodes: seq<nat>, prefix: seq<int>, valid := [], [], false;
    assert Members([]) == {};
    if t[u].kind != NoNode && t[u].kind != Exit && (t[u].kind == Branch || dir == 0) &&
       LegAt(t, u, dir).dest >= 0 {
      valid := true;
      nodes, prefix := WalkSegment(t, u, dir, bits);
    }
    c := CachedSegment(nodes, prefix, bits[..], swNum, swDir, valid);
  }

  /** route_precompute_segment_cache. */
  method PrecomputeSegments(t: Layout) returns (segs: array2<CachedSegment>)
    requires WellFormed(t)
    ensures fresh(segs) && segs.Length0 == |t| && segs.Length1 == 2
    ensures forall u, dir :: 0 <= u < |t| && 0 <= dir < 2 ==> IsCached(t, u, dir, segs[u, dir])
  {
    var blank := CachedSegment([], [], [], -1, '?', false);
    segs := new CachedSegment[|t|, 2]((i, j) => blank);
    for u := 0 to |t|
      invariant forall x, d :: 0 <= x < u && 0 <= d < 2 ==> IsCached(t, x, d, segs[x, d])
    {
      for dir := 0 to 2
        invariant forall x, d :: 0 <= x < u && 0 <= d < 2 ==> IsCached(t, x, d, segs[x, d])
        invariant forall d :: 0 <= d < dir ==> IsCached(t, u, d, segs[u, d])
      {
        var c := FillSegment(t, u, dir);
        segs[u, dir] := c;
      }
    }
  }
}
