/** route_search_astar.c over its arrays and heap, proved against AStarSpec. */
module AStar {
  import opened Track
  import opened Labels
  import opened LabelStore
  import opened SegmentCache
  import opened AStarSpec
  import opened MinHeap
  import opened FreeTrack
  import opened FreeTable
  import opened Driving

  /** The state that route_search_astar.c and route_search_cache.c keep at file scope. */
  class SegmentSearch {
    const t: Layout
    const segs: array2<CachedSegment>
    const free: array2<int>
    const heapKeys: array<int>
    const heapItems: array<nat>
    ghost const world: World

    /** route_init, and the static heap buffers. */
    constructor (layout: Layout)
      requires WellFormed(layout)
      ensures Valid() && t == layout
      ensures fresh(segs) && fresh(free) && fresh(heapKeys) && fresh(heapItems)
    {
      var branches := CollectBranches(layout);
      var cache := PrecomputeSegments(layout);
      var tables := new RouteTables(layout, branches);
      t, segs, free := layout, cache, tables.free;
      heapKeys, heapItems := new int[|layout| * |layout|], new nat[|layout| * |layout|];
      world := tables.Snapshot();
    }

    ghost predicate Valid()
      reads this, segs, free
    {
      WorldOk(world) && world.t == t && segs.Length0 == |t| && segs.Length1 == 2 &&
      (forall u, dir :: 0 <= u < |t| && 0 <= dir < 2 ==> IsCached(t, u, dir, segs[u, dir])) &&
      Mirrors() && heapKeys.Length == heapItems.Length == |t| * |t| && (heapKeys as object) != (heapItems as object)
    }

    /** The object and its arrays. */
    ghost function Own(): set<object> {
      {this, segs, free, heapKeys, heapItems}
    }

    /** The table holds the distances of `world`. */
    ghost predicate Mirrors()
      reads this, free
    {
      Square(world) && world.t == t && free.Length0 == |t| && free.Length1 == |t| &&
      forall x, y :: 0 <= x < |t| && 0 <= y < |t| ==> free[x, y] == world.dist[x][y]
    }

    /** The heap of one search works in the static buffers. */
    ghost predicate Owns(heap: MinHeap<nat>)
      reads this
    {
      heap.keys == heapKeys && heap.vals == heapItems
    }

    ghost predicate Apart(labels: LabelArrays, heap: MinHeap<nat>) {
      {heap, heapKeys, heapItems} !! labels.Footprint() &&
      {this, segs, free} !! labels.Footprint() + {heap, heapKeys, heapItems}
    }

    ghost function View(labels: LabelArrays, heap: MinHeap<nat>, settled: seq<nat>): Search
      requires heap.Buffers()
      reads labels.Footprint(), heap, heap.keys, heap.vals
    {
      Search(labels.View(), heap.Entries(), settled)
    }

    /** The table holds the h-costs of the query. */
    ghost predicate Heights(q: Query)
      reads this, free
    {
      q.goal < |t| && |q.h| == |t| && free.Length0 == |t| && free.Length1 == |t| &&
      forall x :: 0 <= x < |t| ==> free[x, q.goal] == q.h[x]
    }

    /** What a search needs from its buffers at every step. */
    ghost predicate Ready(q: Query, labels: LabelArrays, heap: MinHeap<nat>)
      reads this, free, heap, heap.keys, heap.vals, labels.Footprint()
    {
      NetOk(q.net) && q.net.t == t && Heights(q) && labels.Sized(|t|) && Owns(heap) && Apart(labels, heap) &&
      heap.Valid() && heap.keys.Length == |t| * |t|
    }

    /** route_push_open; the KASSERT is the assertion that the insertion succeeds. */
    method PushOpen(ghost q: Query, labels: LabelArrays, heap: MinHeap<nat>, v: nat, goal: nat, ub: int,
                    ghost settled: seq<nat>)
      requires Ready(q, labels, heap) && Fit(q, View(labels, heap, settled)) && v < |t|
      requires goal == q.goal && ub == q.ub && heap.size < |t| * |t|
      modifies heap, heapKeys, heapItems
      ensures Ready(q, labels, heap)
      ensures View(labels, heap, settled) == Push(q, old(View(labels, heap, settled)), v)
    {
      var h := free[v, goal];
      assert h == q.h[v];
      if labels.dist[v] == INF || h == INF {
        return;
      }
      if ub != INF && labels.dist[v] + h > ub {
        return;
      }
      var ok := heap.Insert(OpenKey(labels.dist[v], h, v), v);
      assert ok;
    }

    /** One iteration of route_expand_segment's loop on a node that is not barred: relax it, and list
        it if it can be expanded. */
    method VisitNode(ghost q: Query, labels: LabelArrays, heap: MinHeap<nat>, u: nat, ghost seg: seq<nat>, ghost i: nat,
                     from: nat, v: nat, newDist: int, num: int, letter: char, goal: nat, ub: int,
                     ghost settled: seq<nat>)
      requires Ready(q, labels, heap) && Fit(q, View(labels, heap, settled)) && u < |t|
      requires InRange(t, seg) && i < |seg| && from == From(u, seg, i) && v == seg[i] && goal == q.goal && ub == q.ub
      requires num == SwNum(t, from) && letter == SwDir(t, from, v) && newDist == labels.dist[u] + Reach(t, u, seg, i + 1)
      requires heap.size < |t| * |t|
      modifies heap, heapKeys, heapItems, labels.Footprint()
      ensures Ready(q, labels, heap)
      ensures View(labels, heap, settled) == StepOpen(q, old(View(labels, heap, settled)), u, seg, i)
    {
      RelaxNode(q, labels, heap, from, v, newDist, num, letter, goal, ub, settled);
    }

    method RelaxNode(ghost q: Query, labels: LabelArrays, heap: MinHeap<nat>, from: nat, v: nat, newDist: int,
                     num: int, letter: char, goal: nat, ub: int, ghost settled: seq<nat>)
      requires Ready(q, labels, heap) && Fit(q, View(labels, heap, settled)) && from < |t| && v < |t|
      requires goal == q.goal && ub == q.ub && num == SwNum(t, from) && letter == SwDir(t, from, v)
      requires heap.size < |t| * |t|
      modifies heap, heapKeys, heapItems, labels.Footprint()
      ensures Ready(q, labels, heap)
      ensures View(labels, heap, settled) == RelaxOpen(q, old(View(labels, heap, settled)), from, v, newDist)
    {
      if newDist < labels.dist[v] {
        LowerNode(q, labels, heap, from, v, newDist, num, letter, settled);
        if !labels.done[v] && (v == goal || t[v].kind == Branch) {
          PushOpen(q, labels, heap, v, goal, ub, settled);
        }
      }
    }

    /** The heap stays as it is. */
    method LowerNode(ghost q: Query, labels: LabelArrays, heap: MinHeap<nat>, from: nat, v: nat, newDist: int,
                     num: int, letter: char, ghost settled: seq<nat>)
      requires Ready(q, labels, heap) && Fit(q, View(labels, heap, settled)) && from < |t| && v < |t|
      requires newDist < labels.dist[v] && num == SwNum(t, from) && letter == SwDir(t, from, v)
      modifies labels.Footprint()
      ensures Ready(q, labels, heap)
      ensures var s := old(View(labels, heap, settled));
              View(labels, heap, settled) == s.(l := Relax(q.net, s.l, from, v, newDist))
    {
      labels.Lower(q.net, from, v, newDist, num, letter);
    }

    /** The arguments of one call agree with the query they stand for. */
    ghost predicate Stands(q: Query, start: nat, goal: nat, blocked: seq<bool>, bits: seq<bv32>, fixed: seq<char>, ub: int)
      reads this
    {
      q.net == Net(t, start, blocked, fixed) && q.goal == goal && q.ub == ub &&
      Packs(bits, |t|, Blocked(blocked))
    }

    /** route_expand_segment: no node is skipped by the bit-set prefilter that the walk must stop at. */
    method ExpandSegment(ghost q: Query, labels: LabelArrays, heap: MinHeap<nat>, u: nat, dir: nat,
                         start: nat, goal: nat, blocked: seq<bool>, bits: seq<bv32>, fixed: seq<char>, ub: int,
                         ghost settled: seq<nat>)
      requires Valid() && Ready(q, labels, heap) && Stands(q, start, goal, blocked, bits, fixed, ub)
      requires Fit(q, View(labels, heap, settled)) && u < |t| && dir < 2 && labels.dist[u] < INF
      requires heap.size + 2 <= |t| * |t|
      modifies heap, heapKeys, heapItems, labels.Footprint()
      ensures Ready(q, labels, heap) && heap.size <= old(heap.size) + 2
      ensures View(labels, heap, settled) == WalkOpen(q, old(View(labels, heap, settled)), u, Segment(t, u, dir), 0)
    {
      var c := segs[u, dir];
      assert IsCached(t, u, dir, c);
      var meets := Intersects(c.bits, bits);
      if !c.valid {
        assert c.nodes == [];
        return;
      }
      ExpandLoop(q, labels, heap, u, dir, c, meets, start, goal, blocked, bits, fixed, ub, settled);
    }

    /** One round of that loop, for the node at the stage `g`. */
    method VisitStage(ghost q: Query, labels: LabelArrays, heap: MinHeap<nat>, u: nat, ghost dir: nat, c: CachedSegment,
                      i: nat, from: nat, num: int, letter: char, goal: nat, ub: int, ghost settled: seq<nat>,
                      ghost before: nat, ghost g: Stage)
      returns (ghost s: Search)
      requires Ready(q, labels, heap) && u < |t| && dir < 2 && IsCached(t, u, dir, c) && goal == q.goal && ub == q.ub
      requires i < |c.nodes| && g in Stages(q, u, c.nodes, before) && !Barred(q.net, c.nodes[i])
      requires g.i == i && g.from == from && g.num == num && g.letter == letter && g.s == View(labels, heap, settled)
      requires before + 2 <= |t| * |t|
      modifies heap, heapKeys, heapItems, labels.Footprint()
      ensures Ready(q, labels, heap) && s == View(labels, heap, settled) && heap.size <= before + 2
      ensures Follows(q, u, c.nodes, before, g, s)
    {
      PrefixAt(t, u, c.nodes, |c.nodes|, i);
      ExpandingNext(q, u, dir, c.nodes, before, g);
      heap.SizeIsCount();
      VisitNode(q, labels, heap, u, c.nodes, i, from, c.nodes[i], labels.dist[u] + c.prefix[i], num, letter, goal, ub, settled);
      s := View(labels, heap, settled);
      heap.SizeIsCount();
    }

    /** The loop of route_expand_segment. */
    method ExpandLoop(ghost q: Query, labels: LabelArrays, heap: MinHeap<nat>, u: nat, ghost dir: nat, c: CachedSegment,
                      meets: bool, start: nat, goal: nat, blocked: seq<bool>, ghost bits: seq<bv32>, fixed: seq<char>,
                      ub: int, ghost settled: seq<nat>)
      requires Ready(q, labels, heap) && Stands(q, start, goal, blocked, bits, fixed, ub)
      requires u < |t| && dir < 2 && IsCached(t, u, dir, c) && labels.dist[u] < INF
      requires |c.bits| == |bits| && (meets <==> exists i :: 0 <= i < |c.bits| && c.bits[i] & bits[i] != 0)
      requires Fit(q, View(labels, heap, settled)) && heap.size + 2 <= |t| * |t|
      modifies heap, heapKeys, heapItems, labels.Footprint()
      ensures Ready(q, labels, heap) && heap.size <= old(heap.size) + 2
      ensures View(labels, heap, settled) == WalkOpen(q, old(View(labels, heap, settled)), u, c.nodes, 0)
    {
      var from, num, letter := u, c.swNum, c.swDir;
      ghost var s := View(labels, heap, settled);
      ghost var tr := [s];
      ghost var before := heap.size;
      FirstStage(q, s, u, dir, c.nodes, before, heap, num, letter);
      var i := 0;
      while i < |c.nodes|
        invariant Ready(q, labels, heap) && s == View(labels, heap, settled)
        invariant Stage(s, i, tr, from, num, letter) in Stages(q, u, c.nodes, before)
        invariant heap.size <= before + 2 && |tr| > 0 && tr[0] == old(View(labels, heap, settled))
      {
        var v := c.nodes[i];
        if meets && blocked[v] && v != start {
          break;
        }
        PrefilterExact(t, u, dir, c, blocked, bits, start, i, meets);
        s := VisitStage(q, labels, heap, u, dir, c, i, from, num, letter, goal, ub, settled, before,
                        Stage(s, i, tr, from, num, letter));
        if t[v].kind == Branch || t[v].kind == Exit {
          return;
        }
        tr := tr + [s];
        from, num, letter := v, -1, '?';
        i := i + 1;
      }
      ExpandingEnd(q, u, c.nodes, before, Stage(s, i, tr, from, num, letter));
    }

    lemma FirstStage(q: Query, s: Search, u: nat, dir: nat, seg: seq<nat>, before: nat, heap: MinHeap<nat>, num: int, letter: char)
      requires NetOk(q.net) && q.net.t == t && u < |t| && dir < 2 && seg == Segment(t, u, dir) && Fit(q, s)
      requires heap.Valid() && s.open == heap.Entries() && before == heap.size
      requires num == SwNum(t, u) && letter == (if t[u].kind != Branch then '?' else if dir == 0 then 'S' else 'C')
      ensures Stage(s, 0, [s], u, num, letter) in Stages(q, u, seg, before)
    {
      heap.SizeIsCount();
      StartLetter(t, u, dir);
    }

    /** Both directions of a branch, straight first. */
    method ExpandBoth(ghost q: Query, labels: LabelArrays, heap: MinHeap<nat>, u: nat,
                      start: nat, goal: nat, blocked: seq<bool>, bits: seq<bv32>, fixed: seq<char>, ub: int,
                      ghost settled: seq<nat>)
      requires Valid() && Ready(q, labels, heap) && Stands(q, start, goal, blocked, bits, fixed, ub)
      requires Fit(q, View(labels, heap, settled)) && u < |t| && labels.dist[u] < INF
      requires heap.size + 4 <= |t| * |t|
      modifies heap, heapKeys, heapItems, labels.Footprint()
      ensures Ready(q, labels, heap)
      ensures View(labels, heap, settled) ==
                WalkOpen(q, WalkOpen(q, old(View(labels, heap, settled)), u, Segment(t, u, 0), 0), u, Segment(t, u, 1), 0)
    {
      ghost var s := View(labels, heap, settled);
      ExpandSegment(q, labels, heap, u, 0, start, goal, blocked, bits, fixed, ub, settled);
      WalkOpenLabels(q, s, u, Segment(t, u, 0), 0);
      WalkLowers(q.net, s.l, u, Segment(t, u, 0), 0, u);
      ExpandSegment(q, labels, heap, u, 1, start, goal, blocked, bits, fixed, ub, settled);
    }

    /** The directions a popped node is expanded in: a pinned branch in one, another branch in both. */
    method ExpandNode(ghost q: Query, labels: LabelArrays, heap: MinHeap<nat>, u: nat,
                      start: nat, goal: nat, blocked: seq<bool>, bits: seq<bv32>, fixed: seq<char>, ub: int,
                      ghost settled: seq<nat>)
      requires Valid() && Ready(q, labels, heap) && Stands(q, start, goal, blocked, bits, fixed, ub)
      requires Fit(q, View(labels, heap, settled)) && u < |t| && labels.dist[u] < INF
      requires heap.size + 4 <= |t| * |t|
      modifies heap, heapKeys, heapItems, labels.Footprint()
      ensures Ready(q, labels, heap)
      ensures View(labels, heap, settled) == ExpandOpen(q, old(View(labels, heap, settled)), u)
    {
      if t[u].kind == NoNode || t[u].kind == Exit {
        assert Segment(t, u, 0) == [];
      } else if t[u].kind == Branch && fixed[u] == 'C' {
        ExpandSegment(q, labels, heap, u, 1, start, goal, blocked, bits, fixed, ub, settled);
      } else if t[u].kind == Branch && fixed[u] != 'S' {
        ExpandBoth(q, labels, heap, u, start, goal, blocked, bits, fixed, ub, settled);
      } else {
        ExpandSegment(q, labels, heap, u, 0, start, goal, blocked, bits, fixed, ub, settled);
      }
    }

    /** Settling a fresh node. The guards that skip an entry whose node or whose h-cost is unreachable,
        or that stop at the bound, are the assertions here: they can never fire. */
    method TakeFresh(ghost q: Query, labels: LabelArrays, heap: MinHeap<nat>, ghost key: int, u: nat, goal: nat, ub: int,
                     ghost s: Search)
      requires Ready(q, labels, heap) && s in States(q) && goal == q.goal && ub == q.ub
      requires View(labels, heap, s.settled) == Pop(s, (key, u))
      requires s.open != multiset{} && (key, u) == First(s.open) && u < |t| && !labels.done[u]
      modifies labels.done
      ensures Ready(q, labels, heap) && labels.dist[u] < INF && heap.size + 4 <= |t| * |t|
      ensures View(labels, heap, s.settled + [u]) == Take(s, (key, u))
    {
      RoundFacts(q, s, (key, u));
      assert labels.dist[u] != INF && free[u, goal] != INF;
      assert ub == INF || labels.dist[u] + free[u, goal] <= ub;
      labels.MarkDone(q.net, u);
      heap.SizeIsCount();
    }

    /** The rest of a round once a fresh node has been popped. */
    method VisitFresh(ghost q: Query, labels: LabelArrays, heap: MinHeap<nat>, ghost key: int, u: nat,
                      start: nat, goal: nat, blocked: seq<bool>, bits: seq<bv32>, fixed: seq<char>, ub: int,
                      ghost s: Search)
      returns (atGoal: bool, ghost m: Search)
      requires Valid() && Ready(q, labels, heap) && Stands(q, start, goal, blocked, bits, fixed, ub)
      requires s in States(q) && View(labels, heap, s.settled) == Pop(s, (key, u))
      requires s.open != multiset{} && (key, u) == First(s.open) && u < |t| && !labels.done[u]
      modifies heap, heapKeys, heapItems, labels.Footprint()
      ensures Ready(q, labels, heap) && View(labels, heap, m.settled) == m
      ensures if atGoal then QueryOk(q) && IsEnd(q, m) && labels.done[goal]
              else m in States(q) && Smaller(m, s)
    {
      TakeFresh(q, labels, heap, key, u, goal, ub, s);
      RoundFacts(q, s, (key, u));
      if u == goal {
        return true, Take(s, (key, u));
      }
      ExpandRound(q, s, (key, u));
      m := ExpandOpen(q, Take(s, (key, u)), u);
      ExpandNode(q, labels, heap, u, start, goal, blocked, bits, fixed, ub, s.settled + [u]);
      return false, m;
    }

    /** One round of the main loop; `over` if it was the last one. */
    method SearchRound(ghost q: Query, labels: LabelArrays, heap: MinHeap<nat>,
                       start: nat, goal: nat, blocked: seq<bool>, bits: seq<bv32>, fixed: seq<char>, ub: int, ghost s: Search)
      returns (over: bool, atGoal: bool, ghost m: Search)
      requires Valid() && Ready(q, labels, heap) && Stands(q, start, goal, blocked, bits, fixed, ub)
      requires View(labels, heap, s.settled) == s && s in States(q)
      modifies heap, heapKeys, heapItems, labels.Footprint()
      ensures Ready(q, labels, heap)
      ensures if over then IsEnd(q, m) && QueryOk(q) && labels.View() == m.l && atGoal == labels.done[goal]
              else View(labels, heap, m.settled) == m && m in States(q) && Smaller(m, s)
    {
      var popped := heap.Pop();
      if popped.Nothing? {
        LastState(q, s);
        return true, false, s;
      }
      var u := popped.item;
      ghost var e := (popped.key, u);
      assert View(labels, heap, s.settled) == Pop(s, e);
      PoppedIsFirst(q, s, e);
      if labels.done[u] {
        SkipRound(q, s, e);
        return false, false, Pop(s, e);
      }
      atGoal, m := VisitFresh(q, labels, heap, popped.key, u, start, goal, blocked, bits, fixed, ub, s);
      over := atGoal;
    }

    /** The main loop of route_search_leg_astar. */
    method SearchLoop(ghost q: Query, labels: LabelArrays, heap: MinHeap<nat>,
                      start: nat, goal: nat, blocked: seq<bool>, bits: seq<bv32>, fixed: seq<char>, ub: int)
      returns (atGoal: bool)
      requires Valid() && Ready(q, labels, heap) && Stands(q, start, goal, blocked, bits, fixed, ub)
      requires QueryOk(q) && View(labels, heap, []) == Start(q)
      modifies heap, heapKeys, heapItems, labels.Footprint()
      ensures labels.Sized(|t|) && labels.View() == Run(q, Start(q)).l
      ensures atGoal == labels.done[goal]
    {
      ghost var s := Start(q);
      StartState(q);
      while true
        invariant Ready(q, labels, heap) && View(labels, heap, s.settled) == s && s in States(q)
        decreases Left(s), |s.open|
      {
        var over;
        ghost var m;
        over, atGoal, m := SearchRound(q, labels, heap, start, goal, blocked, bits, fixed, ub, s);
        if over {
          EndIs(q, m);
          return;
        }
        s := m;
      }
    }

    /** The search with its early exits. */
    method SearchWithin(labels: LabelArrays, start: int, goal: int, blocked: seq<bool>, bits: seq<bv32>,
                     fixed: seq<char>, ub: int)
      returns (found: bool)
      requires Valid() && labels.Sized(|t|) && |blocked| == |fixed| == |t| && ub <= INF
      requires Packs(bits, |t|, Blocked(blocked))
      requires Own() !! labels.Footprint()
      modifies heapKeys, heapItems, labels.Footprint()
      ensures Valid() && labels.Sized(|t|) && found == LegWithin(world, start, goal, blocked, fixed, ub)
      ensures found ==> labels.View() == LegAnswer(world, start, goal, blocked, fixed)
    {
      if start < 0 || goal < 0 || start >= |t| || goal >= |t| {
        return false;
      }
      ghost var q := LegQuery(world, start, goal, blocked, fixed, ub);
      if ub < 0 {
        return false;
      }
      LegQueryOk(world, start, goal, blocked, fixed, ub);
      if goal != start && blocked[goal] {
        BarredGoal(q);
        return false;
      }
      if free[start, goal] == INF {
        FarGoal(q);
        return false;
      }
      found := SearchFrom(q, labels, start, goal, blocked, bits, fixed, ub);
    }

    /** route_search_leg_astar. `start` and `goal` are node indices, -1 for NULL. It finds the goal exactly if a train
        can drive there within the bound, and then leaves labels that lead back along a shortest drive. */
    method SearchLeg(labels: LabelArrays, start: int, goal: int, blocked: seq<bool>, bits: seq<bv32>,
                     fixed: seq<char>, ub: int)
      returns (found: bool)
      requires Valid() && labels.Sized(|t|) && |blocked| == |fixed| == |t| && ub <= INF
      requires Packs(bits, |t|, Blocked(blocked))
      requires Own() !! labels.Footprint()
      modifies heapKeys, heapItems, labels.Footprint()
      ensures Valid() && labels.Sized(|t|) && found == LegWithin(world, start, goal, blocked, fixed, ub)
      ensures found ==> labels.View() == LegAnswer(world, start, goal, blocked, fixed)
      ensures found == CanDrive(t, start, goal, blocked, fixed, ub)
      ensures found ==> LeavesDrive(t, start, goal, blocked, fixed, labels.View())
    {
      found := SearchWithin(labels, start, goal, blocked, bits, fixed, ub);
      WithinMeans(world, start, goal, blocked, fixed, ub);
      if found {
        AnswerMeans(world, start, goal, blocked, fixed, ub);
      }
    }

    /** The initial labels, and a heap with the start in it. */
    method StartSearch(ghost q: Query, labels: LabelArrays, start: nat, goal: nat, ub: int) returns (heap: MinHeap<nat>)
      requires NetOk(q.net) && q.net.t == t && Heights(q) && q.net.start == start && goal == q.goal && ub == q.ub
      requires heapKeys.Length == heapItems.Length == |t| * |t| && (heapKeys as object) != (heapItems as object)
      requires labels.Sized(|t|) && Own() !! labels.Footprint()
      modifies heapKeys, heapItems, labels.Footprint()
      ensures fresh(heap) && Ready(q, labels, heap) && View(labels, heap, []) == Start(q)
    {
      labels.Reset(q.net, start);
      heap := new MinHeap<nat>(heapKeys, heapItems);
      heap.SizeIsCount();
      PushOpen(q, labels, heap, start, goal, ub, []);
    }

    /** The search proper, once the trivial failures are out of the way. */
    method SearchFrom(ghost q: Query, labels: LabelArrays, start: nat, goal: nat, blocked: seq<bool>, bits: seq<bv32>,
                      fixed: seq<char>, ub: int)
      returns (found: bool)
      requires Valid() && labels.Sized(|t|) && Stands(q, start, goal, blocked, bits, fixed, ub)
      requires QueryOk(q) && q.h == Column(world, goal)
      requires Own() !! labels.Footprint()
      modifies heapKeys, heapItems, labels.Footprint()
      ensures labels.Sized(|t|) && found == !OutOfReach(q)
      ensures found ==> labels.View() == LegLabels(q)
    {
      var heap := StartSearch(q, labels, start, goal, ub);
      found := SearchLoop(q, labels, heap, start, goal, blocked, bits, fixed, ub);
      LegSearch(q);
      if !found {
        UnfoundLabel(q);
        found := labels.dist[goal] != INF && (ub == INF || labels.dist[goal] <= ub);
      } else {
        LegUnbounded(q);
      }
    }
  }

  /** A blocked goal cannot be entered. */
  lemma BarredGoal(q: Query)
    requires QueryOk(q) && q.goal != q.net.start && q.net.blocked[q.goal]
    ensures OutOfReach(q)
  {
    forall p ensures !Joins(q.net, p, q.net.start, q.goal) {
      if IsPath(q.net, p) && |p| > 1 {
        InitPath(q.net, p);
      }
    }
  }

  /** A goal that free track does not reach is out of reach under any constraints. */
  lemma FarGoal(q: Query)
    requires QueryOk(q) && q.h[q.net.start] == INF
    ensures OutOfReach(q)
  {
    var free := FreeNet(q.net.t, 0);
    assert HeuristicOk(q, q.net.start);
    assert !Connected(free, q.net.start, q.goal);
    forall p ensures !Joins(q.net, p, q.net.start, q.goal) {
      if IsPath(q.net, p) {
        PathIsFree(q.net, 0, p);
        assert !Joins(free, p, q.net.start, q.goal);
      }
    }
  }

  /** The last test of route_search_leg_astar never finds a goal that the loop did not settle. */
  lemma UnfoundLabel(q: Query)
    requires QueryOk(q) && !Run(q, Start(q)).l.done[q.goal]
    ensures OutOfReach(q)
    ensures var d := Run(q, Start(q)).l.dist[q.goal]; d == INF || !Within(q, d)
  {
    LegSearch(q);
    StartInv(q);
    UnfoundState(q, Start(q));
    var l := Run(q, Start(q)).l;
    if l.dist[q.goal] != INF {
      assert LabelOk(q.net, l, q.goal, {});
    }
  }

  lemma {:induction false} UnfoundState(q: Query, s: Search)
    requires SearchInv(q, s) && !Run(q, s).l.done[q.goal]
    ensures Inv(q.net, Run(q, s).l, {})
    decreases Left(s), |s.open|
  {
    if s.open != multiset{} {
      var e := First(s.open);
      assert EntryOk(q, s, e);
      if s.l.done[e.1] {
        SkipKeeps(q, s, e);
        UnfoundState(q, Pop(s, e));
      } else if e.1 != q.goal {
        UndoneShrinks(s.l.done, e.1);
        ExpandRoundKeeps(q, s, e);
        UnfoundState(q, ExpandOpen(q, Take(s, e), e.1));
      }
    }
  }

  // ---------- the states of the main loop ----------

  /** The states the main loop may be in: the invariant holds and the run still ends as it must. */
  ghost function States(q: Query): iset<Search> {
    iset s: Search | SearchInv(q, s) && Concludes(q, s)
  }

  /** From `s` on the search ends as it does from its initial state. */
  ghost predicate Concludes(q: Query, s: Search)
    requires Fit(q, s)
  {
    forall o :: StartsAt(q, o) ==> Run(q, s) == Run(q, o)
  }

  /** `s` is the state that the search from the initial state ends in. */
  ghost predicate IsEnd(q: Query, s: Search) {
    forall o :: StartsAt(q, o) ==> s == Run(q, o)
  }

  lemma EndIs(q: Query, s: Search)
    requires QueryOk(q) && IsEnd(q, s)
    ensures s == Run(q, Start(q))
  {
    assert StartsAt(q, Start(q));
  }

  lemma StartState(q: Query)
    requires QueryOk(q)
    ensures Start(q) in States(q)
  {
    StartInv(q);
  }

  lemma LastState(q: Query, s: Search)
    requires s in States(q) && s.open == multiset{}
    ensures QueryOk(q) && IsEnd(q, s) && !s.l.done[q.goal]
  {
  }

  lemma PoppedIsFirst(q: Query, s: Search, e: Entry)
    requires s in States(q) && e in s.open && forall o :: o in s.open ==> e.0 <= o.0
    ensures s.open != multiset{} && e == First(s.open) && e.1 < |q.net.t|
  {
    var o := First(s.open);
    assert EntryOk(q, s, e) && EntryOk(q, s, o);
    assert Before(o, e);
    KeyOrder(FCost(e), e.1, FCost(o), o.1);
    KeyOrder(FCost(o), o.1, FCost(e), e.1);
  }

  /** How many nodes are still unsettled. */
  function Left(s: Search): nat {
    |Undone(s.l.done)|
  }

  predicate Smaller(m: Search, s: Search) {
    Left(m) < Left(s) || (Left(m) == Left(s) && |m.open| < |s.open|)
  }

  lemma SkipRound(q: Query, s: Search, e: Entry)
    requires s in States(q) && s.open != multiset{} && e == First(s.open) && e.1 < |s.l.done| && s.l.done[e.1]
    ensures Pop(s, e) in States(q) && Smaller(Pop(s, e), s)
  {
    SkipKeeps(q, s, e);
  }

  lemma ExpandRound(q: Query, s: Search, e: Entry)
    requires s in States(q) && s.open != multiset{} && e == First(s.open) && e.1 < |s.l.done| && !s.l.done[e.1]
    requires e.1 != q.goal
    ensures Fit(q, s) && Fit(q, Take(s, e)) && e.1 < |q.net.t|
    ensures var m := ExpandOpen(q, Take(s, e), e.1); m in States(q) && Smaller(m, s)
  {
    UndoneShrinks(s.l.done, e.1);
    ExpandRoundKeeps(q, s, e);
  }

  /** A fresh node is reachable and within the bound, and there is room for what it pushes. */
  lemma RoundFacts(q: Query, s: Search, e: Entry)
    requires s in States(q) && s.open != multiset{} && e == First(s.open) && e.1 < |s.l.done| && !s.l.done[e.1]
    ensures Fit(q, s) && s.l.dist[e.1] < INF && q.h[e.1] < INF && Within(q, s.l.dist[e.1] + q.h[e.1])
    ensures |Take(s, e).open| + 4 <= |q.net.t| * |q.net.t|
    ensures e.1 == q.goal ==> IsEnd(q, Take(s, e))
  {
    PopsLeast(q, s, e);
    assert EntryOk(q, s, e);
    TakeOrder(q, s, e);
    OpenFits(q, Take(s, e));
  }

  /** `tr` lists the searches before and after each of the first `k` nodes of a walk. */
  ghost predicate IsTrace(q: Query, u: nat, seg: seq<nat>, tr: seq<Search>, k: nat) {
    |tr| == k + 1 <= |seg| + 1 && NetOk(q.net) && u < |q.net.t| && InRange(q.net.t, seg) &&
    forall j :: 0 <= j < k ==> TraceStep(q, u, seg, tr, j)
  }

  ghost predicate TraceStep(q: Query, u: nat, seg: seq<nat>, tr: seq<Search>, j: nat)
    requires u < |q.net.t| && InRange(q.net.t, seg) && j < |seg| && j + 1 < |tr|
  {
    Fit(q, tr[j]) && tr[j + 1] == StepOpen(q, tr[j], u, seg, j)
  }

  predicate Passes(q: Query, v: nat)
    requires NetOk(q.net) && v < |q.net.t|
  {
    !Barred(q.net, v) && !Ends(q.net.t, v)
  }

  predicate Passed(q: Query, seg: seq<nat>, i: nat)
    requires NetOk(q.net) && InRange(q.net.t, seg) && i <= |seg|
  {
    forall j :: 0 <= j < i ==> Passes(q, seg[j])
  }

  lemma TraceNext(q: Query, u: nat, seg: seq<nat>, tr: seq<Search>, k: nat, m: Search)
    requires IsTrace(q, u, seg, tr, k) && k < |seg| && Fit(q, tr[k]) && m == StepOpen(q, tr[k], u, seg, k)
    ensures IsTrace(q, u, seg, tr + [m], k + 1)
  {
    var longer := tr + [m];
    forall j | 0 <= j < k + 1 ensures TraceStep(q, u, seg, longer, j) {
      if j < k {
        assert TraceStep(q, u, seg, tr, j);
      }
    }
  }

  /** Continuing the walk from any point of its trace gives the result of the whole walk. */
  lemma {:induction false} TraceIsWalk(q: Query, u: nat, seg: seq<nat>, tr: seq<Search>, k: nat, j: nat)
    requires IsTrace(q, u, seg, tr, k) && j <= k && Fit(q, tr[0]) && Passed(q, seg, j)
    ensures Fit(q, tr[j]) && WalkOpen(q, tr[0], u, seg, 0) == WalkOpen(q, tr[j], u, seg, j)
  {
    if j > 0 {
      TraceIsWalk(q, u, seg, tr, k, j - 1);
      assert TraceStep(q, u, seg, tr, j - 1) && Passes(q, seg[j - 1]);
      WalkOpenStep(q, tr[j - 1], u, seg, j - 1);
    }
  }

  /** A state of the expansion loop: `tr` records the nodes done, and the switch setting to record is the
      one of the edge into node `i`. */
  datatype Stage = Stage(s: Search, i: nat, tr: seq<Search>, from: nat, num: int, letter: char)

  /** All nodes done were passed, and at most one node has been pushed. */
  ghost predicate Expanding(q: Query, s: Search, u: nat, seg: seq<nat>, i: nat, tr: seq<Search>,
                            from: nat, num: int, letter: char, before: nat) {
    IsTrace(q, u, seg, tr, i) && Fit(q, tr[0]) && Fit(q, s) && tr[i] == s && Passed(q, seg, i) &&
    from == From(u, seg, i) && num == SwNum(q.net.t, from) &&
    (i < |seg| ==> letter == SwDir(q.net.t, from, seg[i])) && GoalPushes(q, s, u, seg, i, before)
  }

  ghost function Stages(q: Query, u: nat, seg: seq<nat>, before: nat): iset<Stage> {
    iset g: Stage | Expanding(q, g.s, u, seg, g.i, g.tr, g.from, g.num, g.letter, before)
  }

  lemma ExpandingStep(q: Query, s: Search, u: nat, dir: nat, seg: seq<nat>, i: nat, tr: seq<Search>,
                      from: nat, num: int, letter: char, before: nat)
    requires Expanding(q, s, u, seg, i, tr, from, num, letter, before)
    requires dir < 2 && seg == Segment(q.net.t, u, dir) && i < |seg| && !Barred(q.net, seg[i])
    ensures var m := StepOpen(q, s, u, seg, i);
            |s.open| <= before + 1 && |m.open| <= before + 2 &&
            if Ends(q.net.t, seg[i]) then WalkOpen(q, tr[0], u, seg, 0) == m
            else Expanding(q, m, u, seg, i + 1, tr + [m], seg[i], -1, '?', before)
  {
    var m := StepOpen(q, s, u, seg, i);
    GoalStep(q, s, u, seg, i, before);
    SegmentNext(q.net.t, u, dir, i);
    TraceNext(q, u, seg, tr, i, m);
    if Ends(q.net.t, seg[i]) {
      TraceIsWalk(q, u, seg, tr, i, i);
      WalkOpenStep(q, s, u, seg, i);
    } else {
      assert Passes(q, seg[i]);
    }
  }

  /** `m` is the search after the node at the stage `g`: the end of the walk, or the next stage. */
  ghost predicate Follows(q: Query, u: nat, seg: seq<nat>, before: nat, g: Stage, m: Search) {
    NetOk(q.net) && g.i < |seg| && seg[g.i] < |q.net.t| &&
    if Ends(q.net.t, seg[g.i]) then Completes(q, u, seg, g, m)
    else Stage(m, g.i + 1, g.tr + [m], seg[g.i], -1, '?') in Stages(q, u, seg, before)
  }

  ghost predicate Completes(q: Query, u: nat, seg: seq<nat>, g: Stage, m: Search) {
    |g.tr| > 0 && Fit(q, g.tr[0]) && u < |q.net.t| && InRange(q.net.t, seg) && WalkOpen(q, g.tr[0], u, seg, 0) == m
  }

  lemma ExpandingNext(q: Query, u: nat, dir: nat, seg: seq<nat>, before: nat, g: Stage)
    requires g in Stages(q, u, seg, before)
    requires dir < 2 && seg == Segment(q.net.t, u, dir) && g.i < |seg| && !Barred(q.net, seg[g.i])
    ensures Fit(q, g.s)
    ensures var m := StepOpen(q, g.s, u, seg, g.i);
            |g.s.open| <= before + 1 && |m.open| <= before + 2 && Follows(q, u, seg, before, g, m)
  {
    ExpandingStep(q, g.s, u, dir, seg, g.i, g.tr, g.from, g.num, g.letter, before);
  }

  lemma ExpandingEnd(q: Query, u: nat, seg: seq<nat>, before: nat, g: Stage)
    requires g in Stages(q, u, seg, before) && (g.i == |seg| || Barred(q.net, seg[g.i]))
    ensures Fit(q, g.tr[0]) && WalkOpen(q, g.tr[0], u, seg, 0) == g.s
  {
    TraceIsWalk(q, u, seg, g.tr, g.i, g.i);
  }

  /** The switch letter cached for a segment is the one its first edge needs. */
  lemma StartLetter(t: Layout, u: nat, dir: nat)
    requires WellFormed(t) && u < |t| && dir < 2
    ensures Segment(t, u, dir) != [] ==>
              SwDir(t, u, Segment(t, u, dir)[0]) ==
                (if t[u].kind != Branch then '?' else if dir == 0 then 'S' else 'C')
  {
    assert NodeOk(t, u);
    if Segment(t, u, dir) != [] {
      SegmentNext(t, u, dir, 0);
    }
  }

  /** Passing the guard of the walk means that the node is not barred. */
  lemma PrefilterExact(t: Layout, u: nat, dir: nat, c: CachedSegment, blocked: seq<bool>, bits: seq<bv32>,
                       start: nat, i: nat, meets: bool)
    requires WellFormed(t) && u < |t| && IsCached(t, u, dir, c) && i < |c.nodes| && |blocked| == |t|
    requires Packs(bits, |t|, Blocked(blocked))
    requires meets <==> exists k :: 0 <= k < |c.bits| && c.bits[k] & bits[k] != 0
    requires !(meets && blocked[c.nodes[i]] && c.nodes[i] != start)
    ensures !(blocked[c.nodes[i]] && c.nodes[i] != start)
  {
    var v := c.nodes[i];
    if blocked[v] && v != start {
      NoSharedWord(c.bits, bits, |t|, Members(c.nodes), Blocked(blocked), v);
    }
  }

  /** Until its last node a walk has pushed at most once: when it lowered the goal's label. */
  predicate GoalPushes(q: Query, s: Search, u: nat, seg: seq<nat>, i: nat, before: nat)
    requires Fit(q, s) && u < |q.net.t| && InRange(q.net.t, seg) && i <= |seg|
  {
    |s.open| <= before + (if s.l.dist[q.goal] <= s.l.dist[u] + Reach(q.net.t, u, seg, i) then 1 else 0)
  }

  lemma GoalStep(q: Query, s: Search, u: nat, seg: seq<nat>, i: nat, before: nat)
    requires NetOk(q.net) && Fit(q, s) && u < |q.net.t| && InRange(q.net.t, seg) && i < |seg|
    requires GoalPushes(q, s, u, seg, i, before)
    ensures var m := StepOpen(q, s, u, seg, i);
            |m.open| <= before + 2 && m.l.dist[u] == s.l.dist[u] &&
            (q.net.t[seg[i]].kind != Branch ==> GoalPushes(q, m, u, seg, i + 1, before))
  {
    RelaxPushes(q, s, From(u, seg, i), seg[i], Offer(q.net, s.l, u, seg, i));
    ReachGrows(q.net.t, u, seg, i);
    ReachGrows(q.net.t, u, seg, i + 1);
  }
}
