/** kern_MyParentTid over whole runs: whose tid it returns. */
module KernelParents {
  import opened KernelModel
  import opened KernelSteps
  import opened KernelRuns
  import opened KernelEffects

  lemma DispatchGrows(priority: nat, s: seq<Input>, ks: seq<Kernel>, j: nat)
    requires IsRun(priority, s, ks) && j < |s|
    ensures Grows(ks[j], ks[j + 1])
  {
    StatesKeep(priority, s, ks, j);
    assert Dispatched(s, ks, j);
    StepGrows(ks[j], s[j]);
  }

  /** Nothing logged in a state of a run is changed by a later one, and no task changes its parent in its life. */
  lemma {:induction false} StatesGrow(priority: nat, s: seq<Input>, ks: seq<Kernel>, c: nat, j: nat)
    requires IsRun(priority, s, ks) && c <= j <= |s|
    ensures Grows(ks[c], ks[j])
    decreases j
  {
    if c < j {
      StatesGrow(priority, s, ks, c, j - 1);
      DispatchGrows(priority, s, ks, j - 1);
      GrowsTrans(ks[c], ks[j - 1], ks[j]);
    }
  }

  /** The new task's parent is the caller. */
  lemma CreatedChild(k: Kernel, priority: int)
    requires Inv(k)
    ensures var m, x := Create(k, priority).0, Create(k, priority).1;
            x < |m.tasks| && (x >= 0 ==> x != k.current && m.tasks[x].parent == k.current)
  {
    if Chain(k, FreeQ) != [] {
      HeadOf(k, FreeQ);
    }
  }

  /** What the two tasks look like when the creator is ready again. */
  lemma ReturnedChild(k: Kernel, priority: int)
    requires Inv(k)
    ensures var b, x := Body(k, Syscall(DoCreate(priority))), Create(k, priority).1;
            x < |b.tasks| && |k.tasks| <= |b.tasks| && (x >= 0 ==> b.tasks[x].parent == k.current) &&
            b.tasks[k.current].io.x0 == x && b.tasks[k.current].log.life == Me(k).log.life
  {
    CreatedChild(k, priority);
    CreateKeeps(k, priority);
    CreateEffect(k, priority, k.current);
  }

  /** What Create returns to its caller is a tid whose new life has the caller as its parent. */
  lemma CreateParents(k: Kernel, priority: int, m: Kernel)
    requires Inv(k) && Leads(k, Syscall(DoCreate(priority)), m)
    ensures |k.tasks| <= |m.tasks| && m.tasks[k.current].log.life == Me(k).log.life
    ensures var x := m.tasks[k.current].io.x0; x < |m.tasks| && (x >= 0 ==> m.tasks[x].parent == k.current)
  {
    var b, x := Body(k, Syscall(DoCreate(priority))), Create(k, priority).1;
    BodyKeeps(k, Syscall(DoCreate(priority)));
    ReturnedChild(k, priority);
    ScheduledRecord(b, k.current);
    if x >= 0 {
      ScheduledRecord(b, x);
    }
  }

  predicate Lives(k: Kernel, w: Who) {
    0 <= w.tid < |k.tasks| && Alive(k.tasks[w.tid]) && k.tasks[w.tid].log.life == w.life
  }

  /** The tid belongs to a task that was created after the life `w`. */
  predicate TakenOver(k: Kernel, w: Who) {
    0 <= w.tid < |k.tasks| && Alive(k.tasks[w.tid]) && k.tasks[w.tid].log.life > w.life
  }

  /** Dispatch `c` of the run is a call of Create that returned `x`, and the state `m` shows `x` in that life. */
  predicate Created(s: seq<Input>, ks: seq<Kernel>, c: nat, x: nat, m: Kernel) {
    c < |s| && c + 1 < |ks| && s[c].Syscall? && s[c].call.DoCreate? && 0 <= ks[c].current < |ks[c + 1].tasks| &&
    ks[c].current < |ks[c].tasks| && x < |ks[c + 1].tasks| && x < |m.tasks| &&
    ks[c + 1].tasks[ks[c].current].io.x0 == x && m.tasks[x].log.life == ks[c + 1].tasks[x].log.life
  }

  lemma ParentStays(priority: nat, s: seq<Input>, ks: seq<Kernel>, c: nat, j: nat, x: nat)
    requires IsRun(priority, s, ks) && c < j <= |s| && Created(s, ks, c, x, ks[j])
    ensures ks[j].tasks[x].parent == ks[c].current < |ks[j].tasks|
    ensures ks[j].tasks[ks[c].current].log.life >= Me(ks[c]).log.life
  {
    StatesKeep(priority, s, ks, c);
    assert Dispatched(s, ks, c);
    CreateParents(ks[c], s[c].call.priority, ks[c + 1]);
    StatesGrow(priority, s, ks, c + 1, j);
    assert TaskGrows(ks[c + 1].tasks[x], ks[j].tasks[x]);
    assert TaskGrows(ks[c + 1].tasks[ks[c].current], ks[j].tasks[ks[c].current]);
  }

  /** A task that asks for its parent is told its creator's tid exactly as long as the creator lives, or a task
      created later has that tid, because only the slot is looked at; otherwise it is told -2. */
  lemma ParentAnswer(priority: nat, s: seq<Input>, ks: seq<Kernel>, c: nat, j: nat, x: nat)
    requires IsRun(priority, s, ks) && c < j <= |s| && Created(s, ks, c, x, ks[j]) && ks[j].current == x
    ensures var creator := Who(ks[c].current, Me(ks[c]).log.life);
            OneRuns(ks[j]) &&
            ParentOf(ks[j]) == if Lives(ks[j], creator) || TakenOver(ks[j], creator) then creator.tid else -2
  {
    StatesKeep(priority, s, ks, j);
    ParentStays(priority, s, ks, c, j, x);
  }
}
