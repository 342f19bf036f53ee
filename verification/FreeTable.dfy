/** route_precompute_free_track_cache: the all-pairs table and, for every start, the physical
    sensors it reaches in order of distance. */
module FreeTable {
  import opened Track
  import opened LabelStore
  import opened FreeTrack
  import opened InsertionOrder
  import opened AStarSpec

  /** route_is_canonical_sensor: one node of each pair of opposite sensors. */
  predicate Canonical(t: Layout, v: nat)
    requires v < |t|
  {
    t[v].kind == Sensor &&
    (t[v].reverse < 0 || t[v].reverse >= |t| || t[t[v].reverse].kind != Sensor || v < t[v].reverse)
  }

  function Key(dist: seq<int>, v: nat): Keyed
    requires v < |dist|
  {
    Keyed(dist[v], v)
  }

  function Keys(dist: seq<int>, s: seq<nat>): (r: seq<Keyed>)
    requires forall i :: 0 <= i < |s| ==> s[i] < |dist|
    ensures |r| == |s| && forall i :: 0 <= i < |s| ==> r[i] == Key(dist, s[i])
  {
    seq(|s|, i requires 0 <= i < |s| => Key(dist, s[i]))
  }

  /** `s` lists the sensors in `members` by (distance, index), each once. */
  ghost predicate Ranked(dist: seq<int>, s: seq<nat>, members: set<nat>) {
    (forall i :: 0 <= i < |s| ==> s[i] < |dist|) && Ascending(Keys(dist, s)) &&
    (forall v :: v in members <==> v in s)
  }

  /** The canonical sensors below `k` that `dist` says are reachable. */
  function Reached(t: Layout, dist: seq<int>, k: nat): set<nat>
    requires |dist| == |t| && k <= |t|
  {
    set v: nat | v < k && Canonical(t, v) && dist[v] != INF
  }

  lemma RankedInsert(dist: seq<int>, s: seq<nat>, members: set<nat>, k: nat, v: nat)
    requires Ranked(dist, s, members) && k <= |s| && v < |dist| && v !in members
    requires k > 0 ==> Less(Key(dist, s[k - 1]), Key(dist, v))
    requires forall i :: k <= i < |s| ==> Less(Key(dist, v), Key(dist, s[i]))
    ensures Ranked(dist, s[..k] + [v] + s[k..], members + {v})
  {
    var r := s[..k] + [v] + s[k..];
    assert Keys(dist, r) == Inserted(Keys(dist, s), k, Key(dist, v));
    InsertedAscends(Keys(dist, s), k, Key(dist, v));
    forall x ensures x in members + {v} <==> x in r {
      assert s == s[..k] + s[k..];
    }
  }

  /** The shifting loop of that insertion: larger entries move up one place. */
  method ShiftLarger(row: array<nat>, count: nat, dist: seq<int>, v: nat, ghost s: seq<nat>) returns (at: nat)
    requires count < row.Length && v < |dist| && s == row[..count]
    requires forall i :: 0 <= i < |s| ==> s[i] < v
    modifies row
    ensures at <= count && row[..at] == s[..at] && row[at + 1..count + 1] == s[at..]
    ensures forall k :: at <= k < count ==> Less(Key(dist, v), Key(dist, s[k]))
    ensures at > 0 ==> Less(Key(dist, s[at - 1]), Key(dist, v))
  {
    at := count;
    while at > 0
      invariant 0 <= at <= count
      invariant forall k :: 0 <= k < at ==> row[k] == s[k]
      invariant forall k :: at < k <= count ==> row[k] == s[k - 1]
      invariant forall k :: at <= k < count ==> Less(Key(dist, v), Key(dist, s[k]))
    {
      var prev := row[at - 1];
      if dist[prev] < dist[v] || (dist[prev] == dist[v] && prev < v) {
        break;
      }
      row[at] := row[at - 1];
      at := at - 1;
    }
  }

  lemma PutAt(s: seq<nat>, at: nat, v: nat, count: nat)
    requires at <= count < |s|
    ensures s[at := v][..count + 1] == s[..at] + [v] + s[at + 1..count + 1]
  {
  }

  /** The insertion of one sensor into a start's sorted row, in place. */
  method InsertSensor(row: array<nat>, count: nat, dist: seq<int>, v: nat, ghost members: set<nat>)
    requires count < row.Length && v < |dist| && Ranked(dist, row[..count], members)
    requires forall m :: m in members ==> m < v
    modifies row
    ensures Ranked(dist, row[..count + 1], members + {v})
  {
    ghost var s := row[..count];
    assert forall i :: 0 <= i < |s| ==> s[i] in members;
    var at := ShiftLarger(row, count, dist, v, s);
    PutAt(row[..], at, v, count);
    row[at] := v;
    RankedInsert(dist, s, members, at, v);
  }

  /** The canonical sensors in index order (g_canonical_sensor_idx). */
  predicate ListsSensors(t: Layout, canon: seq<nat>) {
    (forall i :: 0 <= i < |canon| ==> canon[i] < |t| && Canonical(t, canon[i])) &&
    (forall i, j :: 0 <= i < j < |canon| ==> canon[i] < canon[j]) &&
    (forall v :: 0 <= v < |t| && Canonical(t, v) ==> v in canon)
  }

  method CollectSensors(t: Layout) returns (canon: seq<nat>)
    ensures ListsSensors(t, canon)
  {
    canon := [];
    for i := 0 to |t|
      invariant forall k :: 0 <= k < |canon| ==> canon[k] < i && Canonical(t, canon[k])
      invariant forall k, j :: 0 <= k < j < |canon| ==> canon[k] < canon[j]
      invariant forall v :: 0 <= v < i && Canonical(t, v) ==> v in canon
    {
      if Canonical(t, i) {
        canon := canon + [i];
      }
    }
  }

  /** Sensors of canon[..k] that are reachable. */
  function ReachedOf(dist: seq<int>, canon: seq<nat>, k: nat): set<nat>
    requires k <= |canon| && forall i :: 0 <= i < |canon| ==> canon[i] < |dist|
  {
    set i | 0 <= i < k && dist[canon[i]] != INF :: canon[i]
  }

  /** The sorting loop for one start. */
  method SortRow(t: Layout, dist: seq<int>, canon: seq<nat>) returns (sorted: seq<nat>)
    requires |dist| == |t| && ListsSensors(t, canon)
    ensures Ranked(dist, sorted, Reached(t, dist, |t|))
  {
    var row := new nat[|canon|];
    var count := 0;
    assert row[..0] == [];
    assert ReachedOf(dist, canon, 0) == {};
    for i := 0 to |canon|
      invariant count <= i && Ranked(dist, row[..count], ReachedOf(dist, canon, i))
    {
      var v := canon[i];
      if dist[v] != INF {
        InsertSensor(row, count, dist, v, ReachedOf(dist, canon, i));
        assert ReachedOf(dist, canon, i + 1) == ReachedOf(dist, canon, i) + {v};
        count := count + 1;
      } else {
        assert ReachedOf(dist, canon, i + 1) == ReachedOf(dist, canon, i);
      }
    }
    sorted := row[..count];
    assert Reached(t, dist, |t|) == ReachedOf(dist, canon, |canon|);
  }

  // ---------- the whole cache ----------

  /** On free track it does not matter which start the net was built for. */
  lemma FreeStart(t: Layout, s: nat, x: nat, y: nat, d: int)
    requires WellFormed(t) && s < |t| && NetOk(FreeNet(t, s)) && IsDistance(FreeNet(t, s), x, y, d)
    ensures FreeDistance(t, x, y, d)
  {
    var a, b := FreeNet(t, s), FreeNet(t, 0);
    FreeNetOk(t, 0);
    forall p | Joins(b, p, x, y) ensures Joins(a, p, x, y) {
      PathIsFree(b, s, p);
    }
    if d != INF {
      var p :| Joins(a, p, x, y) && Cost(t, p) == d;
      PathIsFree(a, 0, p);
      assert Joins(b, p, x, y);
    }
  }

  /** `s` lists the sensors that the row `d` reaches, nearest first. */
  ghost predicate SortsRow(t: Layout, d: seq<int>, s: seq<nat>) {
    |d| == |t| && Ranked(d, s, Reached(t, d, |t|))
  }

  class RouteTables {
    const t: Layout
    const free: array2<int>
    const sorted: array<seq<nat>>

    ghost predicate Valid()
      reads this, free, sorted
    {
      WellFormed(t) && free.Length0 == |t| && free.Length1 == |t| && sorted.Length == |t| && Filled(|t|)
    }

    ghost function Row(x: nat): seq<int>
      requires x < free.Length0 && free.Length1 == |t|
      reads free
    {
      seq(|t|, y requires 0 <= y < |t| reads free => free[x, y])
    }

    ghost predicate RowOk(x: nat)
      requires x < free.Length0 && free.Length1 == |t| && x < sorted.Length
      reads free, sorted
    {
      SortsRow(t, Row(x), sorted[x])
    }

    /** The table as a value. */
    ghost function Snapshot(): (w: World)
      requires Valid()
      reads this, free, sorted
      ensures WorldOk(w) && w.t == t
      ensures forall x, y :: 0 <= x < |t| && 0 <= y < |t| ==> w.dist[x][y] == free[x, y]
    {
      World(t, seq(|t|, x requires 0 <= x < |t| && Valid() reads this, free, sorted => Row(x)))
    }

    /** The copy loop for one start. */
    method CopyRow(x: nat, dist: array<int>)
      requires x < free.Length0 && free.Length1 == |t| == dist.Length
      modifies free
      ensures forall y :: 0 <= y < |t| ==> free[x, y] == dist[y]
      ensures forall i, y :: 0 <= i < free.Length0 && i != x && 0 <= y < |t| ==> free[i, y] == old(free[i, y])
    {
      for y := 0 to |t|
        invariant forall k :: 0 <= k < y ==> free[x, k] == dist[k]
        invariant forall i, k :: 0 <= i < free.Length0 && i != x && 0 <= k < |t| ==> free[i, k] == old(free[i, k])
      {
        free[x, y] := dist[y];
      }
    }

    ghost predicate Filled(k: nat)
      requires WellFormed(t) && free.Length0 == |t| && free.Length1 == |t| && sorted.Length == |t| && k <= |t|
      reads free, sorted
    {
      (forall x, y :: 0 <= x < k && 0 <= y < |t| ==> FreeDistance(t, x, y, free[x, y])) &&
      (forall x :: 0 <= x < k ==> RowOk(x))
    }

    /** Copying the distances of a new start leaves the finished rows as they are. */
    method PlaceRow(x: nat, dist: array<int>)
      requires WellFormed(t) && free.Length0 == |t| && free.Length1 == |t| == dist.Length && sorted.Length == |t|
      requires x < |t| && Filled(x)
      modifies free
      ensures Filled(x) && Row(x) == dist[..]
    {
      ghost var rows := seq(x, i requires 0 <= i < x reads free => Row(i));
      ghost var lists := sorted[..];
      assert forall i :: 0 <= i < x ==> SortsRow(t, rows[i], lists[i]) by {
        forall i | 0 <= i < x ensures SortsRow(t, rows[i], lists[i]) {
          assert RowOk(i);
        }
      }
      CopyRow(x, dist);
      assert Row(x) == dist[..];
      forall i | 0 <= i < x ensures RowOk(i) {
        assert Row(i) == rows[i];
        assert SortsRow(t, rows[i], lists[i]);
      }
    }

    /** The loop body of route_precompute_free_track_cache for one start. */
    method FillRow(x: nat, labels: LabelArrays, branches: seq<nat>, canon: seq<nat>)
      requires WellFormed(t) && free.Length0 == |t| && free.Length1 == |t| && sorted.Length == |t| && x < |t|
      requires ListsBranches(t, branches) && ListsSensors(t, canon) && labels.Sized(|t|)
      requires {free, sorted} !! labels.Footprint() && Filled(x)
      modifies free, sorted, labels.Footprint()
      ensures labels.Sized(|t|) && Filled(x + 1)
    {
      RunFrom(labels, t, branches, x);
      assert Filled(x);
      PlaceRow(x, labels.dist);
      forall y | 0 <= y < |t| ensures FreeDistance(t, x, y, free[x, y]) {
        assert free[x, y] == Row(x)[y];
        FreeStart(t, x, x, y, labels.dist[y]);
      }
      var order := SortRow(t, labels.dist[..], canon);
      PlaceList(x, order);
    }

    /** Storing the sorted sensors of a new start. */
    method PlaceList(x: nat, order: seq<nat>)
      requires WellFormed(t) && free.Length0 == |t| && free.Length1 == |t| && sorted.Length == |t| && x < |t|
      requires Filled(x) && SortsRow(t, Row(x), order)
      requires forall y :: 0 <= y < |t| ==> FreeDistance(t, x, y, free[x, y])
      modifies sorted
      ensures Filled(x + 1)
    {
      ghost var lists := sorted[..];
      forall i | 0 <= i < x ensures SortsRow(t, Row(i), lists[i]) {
        assert RowOk(i);
      }
      sorted[x] := order;
      forall i | 0 <= i < x ensures RowOk(i) {
        assert SortsRow(t, Row(i), lists[i]);
      }
    }

    /** route_precompute_free_track_cache. */
    constructor (layout: Layout, branches: seq<nat>)
      requires WellFormed(layout) && ListsBranches(layout, branches)
      ensures Valid() && t == layout && fresh(free) && fresh(sorted)
    {
      t := layout;
      free := new int[|layout|, |layout|];
      sorted := new seq<nat>[|layout|];
      new;
      var canon := CollectSensors(t);
      var labels := new LabelArrays(|t|);
      for x := 0 to |t|
        invariant labels.Sized(|t|) && fresh(labels.Footprint())
        invariant {free, sorted} !! labels.Footprint() && Filled(x)
      {
        FillRow(x, labels, branches, canon);
      }
    }
  }
}
