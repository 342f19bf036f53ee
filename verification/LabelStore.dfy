/** The five label arrays that the route searches overwrite in place. */
module LabelStore {
  import opened Track
  import opened Labels

  class LabelArrays {
    const dist: array<int>
    const done: array<bool>
    const prev: array<int>
    const swNum: array<int>
    const swDir: array<char>
    ghost var path: seq<seq<nat>>

    constructor (n: nat)
      ensures Sized(n) && fresh(Footprint())
    {
      dist, done, prev := new int[n], new bool[n], new int[n];
      swNum, swDir := new int[n], new char[n];
      path := seq(n, i => []);
    }

    ghost function Footprint(): set<object> {
      {this, dist, done, prev, swNum, swDir}
    }

    ghost predicate Sized(n: nat)
      reads this
    {
      dist.Length == done.Length == prev.Length == swNum.Length == swDir.Length == |path| == n &&
      dist != prev && dist != swNum && prev != swNum
    }

    ghost function View(): Labels
      reads Footprint()
    {
      Labels(dist[..], done[..], prev[..], swNum[..], swDir[..], path)
    }

    /** route_astar_init, and the same loop in dijk_run_from. */
    method Reset(ghost n: Net, start: nat)
      requires NetOk(n) && start == n.start && Sized(|n.t|)
      modifies Footprint()
      ensures Sized(|n.t|) && View() == Initial(n)
    {
      for i := 0 to dist.Length
        invariant forall k :: 0 <= k < i ==> dist[k] == INF && !done[k] && prev[k] == -1
        invariant forall k :: 0 <= k < i ==> swNum[k] == -1 && swDir[k] == '?'
      {
        dist[i], done[i], prev[i], swNum[i], swDir[i] := INF, false, -1, -1, '?';
      }
      dist[start] := 0;
      path := seq(|n.t|, i => [])[start := [start]];
      assert View() == Initial(n);
    }

    /** The label update of both searches, with the switch setting carried by the walk. */
    method Lower(ghost n: Net, from: nat, v: nat, d: int, num: int, dir: char)
      requires NetOk(n) && Sized(|n.t|) && from < |n.t| && v < |n.t| && d < dist[v]
      requires num == SwNum(n.t, from) && dir == SwDir(n.t, from, v)
      modifies Footprint()
      ensures Sized(|n.t|) && View() == Relax(n, old(View()), from, v, d)
    {
      ghost var was := View();
      dist[v], prev[v], swNum[v], swDir[v] := d, from, num, dir;
      path := path[v := path[from] + [v]];
      assert View() == Relax(n, was, from, v, d);
    }

    method MarkDone(ghost n: Net, u: nat)
      requires NetOk(n) && Sized(|n.t|) && u < |n.t|
      modifies done
      ensures Sized(|n.t|) && View() == Settle(old(View()), u)
    {
      ghost var was := View();
      done[u] := true;
      assert View() == Settle(was, u);
    }
  }
}
