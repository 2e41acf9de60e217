/** The benchmark generator: it fills the queue once and counts results until all tasks came back. */
module Benchmark {
  import opened Collections
  import opened Decimal
  import opened Fields
  import opened SharedQueues
  import opened Wire
  import opened Master
  import opened Controller
  import opened Marks
  import opened Cluster
  import opened ClusterLaws
  import opened ClusterRuns
  import opened Carriage
  import opened TaskFate
  import opened TextCluster

  function BenchTask(i: nat): Task { Task("task.benchmark_task", "BenchmarkTask", Str(i), []) }

  function BenchTasks(n: nat): seq<Task> { seq(n, i requires 0 <= i < n => BenchTask(i)) }

  function BenchTids(n: nat): seq<string> { seq(n, i requires 0 <= i < n => Str(i)) }

  function Queued(q: seq<Task>): seq<string> { seq(|q|, i requires 0 <= i < |q| => q[i].tid) }

  // ---- the generator as the program has it

  class Generator {
    const numTasks: nat
    const taskQueue: SharedQueue<Task>
    const resultQueue: SharedQueue<string>
    var completed: nat
    var runFlag: bool

    constructor (numTasks: nat, tasks: SharedQueue<Task>, results: SharedQueue<string>)
      ensures this.numTasks == numTasks && taskQueue == tasks && resultQueue == results
      ensures completed == 0 && runFlag
    {
      this.numTasks, taskQueue, resultQueue := numTasks, tasks, results;
      completed, runFlag := 0, true;
    }

    method CreateTaskList() returns (tasks: seq<Task>)
      ensures tasks == BenchTasks(numTasks)
      ensures |tasks| == numTasks
      ensures forall i :: 0 <= i < numTasks ==> tasks[i] == Task("task.benchmark_task", "BenchmarkTask", Str(i), [])
    {
      tasks := [];
      for i := 0 to numTasks
        invariant tasks == BenchTasks(i)
      {
        tasks := tasks + [BenchTask(i)];
      }
    }

    /** The critical section at the start: whatever was queued is cleared. */
    method FillQueue()
      requires numTasks > 0
      modifies taskQueue`items
      ensures taskQueue.items == BenchTasks(numTasks)
    {
      var tasks := CreateTaskList();
      var empty := taskQueue.IsEmpty();
      if !empty {
        taskQueue.Clear();
      }
      var ok := taskQueue.Fill(tasks);
    }

    /** One iteration of the loop: count a result, wait, or stop. */
    method Poll()
      requires runFlag && taskQueue as object != resultQueue
      modifies this, resultQueue`items
      ensures completed == old(completed) + |old(resultQueue.items)| - |resultQueue.items|
      ensures old(completed) < numTasks && old(resultQueue.items) != [] ==> resultQueue.items == old(resultQueue.items)[1..]
      ensures !(old(completed) < numTasks && old(resultQueue.items) != []) ==> resultQueue.items == old(resultQueue.items)
      ensures !runFlag <==> old(completed) >= numTasks
    {
      if completed < numTasks {
        var empty := resultQueue.IsEmpty();
        if !empty {
          var tid := resultQueue.Pop();
          completed := completed + 1;
        }
      } else {
        runFlag := false;
      }
    }
  }

  // ---- the generator in the cluster

  datatype World = World(n: nat, filled: bool, popped: seq<string>, ended: bool, s: State)

  datatype Act = InCluster(step: Step) | Fill | PopResult | End

  predicate Possible(w: World, act: Act) {
    match act
    case InCluster(step) => Enabled(w.s, step)
    case Fill => !w.filled
    case PopResult => w.filled && !w.ended && |w.popped| < w.n && w.s.m.results != []
    case End => w.filled && !w.ended && |w.popped| >= w.n
  }

  function Do(reg: Registry, cfg: Config, w: World, act: Act): World
    requires Possible(w, act)
  {
    match act
    case InCluster(step) => w.(s := TextNext(reg, cfg, w.s, step))
    case Fill => w.(filled := true, s := Surround(w.s, BenchTasks(w.n), w.s.m.results))
    case PopResult =>
      w.(popped := w.popped + [w.s.m.results[0]], s := Surround(w.s, w.s.m.queue, w.s.m.results[1..]))
    case End => w.(ended := true)
  }

  function Planned(w: World): seq<string> { if w.filled then BenchTids(w.n) else [] }

  /** Every planned tid is queued or was assigned, once in all. */
  ghost predicate OnceEach(w: World) {
    forall tid :: multiset(Queued(w.s.m.queue))[tid] + w.s.created[Copy(tid)] == multiset(Planned(w))[tid]
  }

  ghost predicate AssignedKnown(s: State) {
    forall tid :: tid in s.m.status ==> s.created[Copy(tid)] >= 1
  }

  ghost predicate Inv(w: World) {
    && OnceEach(w) && AssignedKnown(w.s)
    && w.s.recorded == w.popped + w.s.m.results
    && (w.ended ==> w.filled && |w.popped| >= w.n)
  }

  lemma {:induction false} PlannedOnce(n: nat, tid: string)
    ensures multiset(BenchTids(n))[tid] <= 1
    ensures multiset(BenchTids(n))[tid] == 1 <==> exists i :: 0 <= i < n && Str(i) == tid
  {
    if n > 0 {
      PlannedOnce(n - 1, tid);
      assert BenchTids(n) == BenchTids(n - 1) + [Str(n - 1)];
      IntOfStr(n - 1);
      forall i: nat | i < n - 1 ensures Str(i) != Str(n - 1) { IntOfStr(i); }
    }
  }

  lemma QueuedBench(n: nat)
    ensures Queued(BenchTasks(n)) == BenchTids(n)
  {
  }

  lemma HeadUnknown(w: World)
    requires OnceEach(w) && AssignedKnown(w.s) && w.s.m.queue != []
    ensures w.s.m.queue[0].tid !in w.s.m.status
  {
    var tid := w.s.m.queue[0].tid;
    assert Queued(w.s.m.queue)[0] == tid;
    assert tid in multiset(Queued(w.s.m.queue));
    PlannedOnce(w.n, tid);
  }

  lemma HandleBooks(cfg: Config, s: State, k: nat, t: Tick)
    requires k < |s.letters|
    ensures var o := Serve(cfg, s.m, s.letters[k].request, t).outcome;
      var s2 := HandleStep(cfg, s, k, t);
      && s2.recorded == (if o.Accepted? then s.recorded + [o.tid] else s.recorded)
      && forall tid :: s2.created[Copy(tid)] == s.created[Copy(tid)] + Added(o, tid)
  {
  }

  /** A served request moves a tid from the queue to the assigned ones, or leaves both alone. */
  lemma ServeMovesHead(cfg: Config, m: Master, r: Request, t: Tick, tid: string)
    requires m.queue != [] ==> m.queue[0].tid !in m.status
    ensures var v := Serve(cfg, m, r, t);
      && multiset(Queued(v.m.queue))[tid] + Added(v.outcome, tid) == multiset(Queued(m.queue))[tid]
      && (tid in v.m.status ==> tid in m.status || Added(v.outcome, tid) == 1)
      && v.m.results == (if v.outcome.Accepted? then m.results + [v.outcome.tid] else m.results)
  {
    ServeStatus(cfg, m, r, t);
    if m.queue != [] {
      assert Queued(m.queue) == [m.queue[0].tid] + Queued(m.queue[1..]);
    }
  }

  lemma HandleOnce(cfg: Config, w: World, k: nat, t: Tick, tid: string)
    requires OnceEach(w) && AssignedKnown(w.s) && k < |w.s.letters|
    ensures var s2 := HandleStep(cfg, w.s, k, t);
      && multiset(Queued(s2.m.queue))[tid] + s2.created[Copy(tid)] == multiset(Planned(w))[tid]
      && (tid in s2.m.status ==> s2.created[Copy(tid)] >= 1)
  {
    HandleShape(cfg, w.s, k, t);
    HandleBooks(cfg, w.s, k, t);
    if w.s.m.queue != [] { HeadUnknown(w); }
    ServeMovesHead(cfg, w.s.m, w.s.letters[k].request, t, tid);
    assert multiset(Queued(w.s.m.queue))[tid] + w.s.created[Copy(tid)] == multiset(Planned(w))[tid];
  }

  lemma HandleRecorded(cfg: Config, w: World, k: nat, t: Tick)
    requires w.s.recorded == w.popped + w.s.m.results && k < |w.s.letters|
    ensures HandleStep(cfg, w.s, k, t).recorded == w.popped + HandleStep(cfg, w.s, k, t).m.results
  {
    HandleShape(cfg, w.s, k, t);
    HandleBooks(cfg, w.s, k, t);
    ServeStatus(cfg, w.s.m, w.s.letters[k].request, t);
  }

  lemma HandleKeeps(cfg: Config, w: World, k: nat, t: Tick)
    requires Inv(w) && k < |w.s.letters|
    ensures Inv(w.(s := HandleStep(cfg, w.s, k, t)))
  {
    var w2 := w.(s := HandleStep(cfg, w.s, k, t));
    HandleRecorded(cfg, w, k, t);
    forall tid ensures multiset(Queued(w2.s.m.queue))[tid] + w2.s.created[Copy(tid)] == multiset(Planned(w2))[tid] {
      HandleOnce(cfg, w, k, t, tid);
    }
    forall tid | tid in w2.s.m.status ensures w2.s.created[Copy(tid)] >= 1 {
      HandleOnce(cfg, w, k, t, tid);
    }
  }

  lemma QuietKeeps(cfg: Config, w: World, step: Step)
    requires Named(w.s) && Inv(w) && Enabled(w.s, step) && !step.Handle?
    ensures Inv(w.(s := Next(cfg, w.s, step)))
  {
    QuietStep(cfg, w.s, step);
    StepMoves(cfg, w.s, step);
    forall tid ensures Next(cfg, w.s, step).created[Copy(tid)] == w.s.created[Copy(tid)] {
      BornQuiet(cfg, w.s, step, tid);
    }
  }

  /** Before the queue is filled nothing was queued or assigned. */
  lemma FillKeeps(w: World)
    requires Inv(w) && !w.filled
    ensures Inv(w.(filled := true, s := Surround(w.s, BenchTasks(w.n), w.s.m.results)))
  {
    QueuedBench(w.n);
    forall tid ensures w.s.created[Copy(tid)] == 0 {
      assert multiset(Queued(w.s.m.queue))[tid] + w.s.created[Copy(tid)] == multiset(Planned(w))[tid];
    }
  }

  lemma StepKeeps(cfg: Config, w: World, step: Step)
    requires Named(w.s) && Inv(w) && Enabled(w.s, step)
    ensures Inv(w.(s := Next(cfg, w.s, step)))
  {
    if step.Handle? { HandleKeeps(cfg, w, step.k, step.t); } else { QuietKeeps(cfg, w, step); }
  }

  lemma {:induction false} StepsKeep(cfg: Config, w: World, steps: seq<Step>, s2: State)
    requires ClusterInv(w.s) && Inv(w) && Runs(cfg, w.s, steps, s2)
    ensures Inv(w.(s := s2))
    decreases |steps|
  {
    if steps != [] {
      StepKeeps(cfg, w, steps[0]);
      MakeKeeps(cfg, w.s, Inner(steps[0]));
      StepsKeep(cfg, w.(s := Next(cfg, w.s, steps[0])), steps[1..], s2);
    }
  }

  /** The class of the benchmark's tasks takes no argument, if a controller can import it. */
  predicate BenchTyped(reg: Registry) { Importable(reg, BenchTask(0)) ==> reg[(BenchTask(0).package, BenchTask(0).class_)] == 0 }

  lemma BenchFaithful(reg: Registry, n: nat)
    requires BenchTyped(reg)
    ensures QueueIn(BenchTasks(n), Faithful(reg))
  {
    assert Plain("task.benchmark_task") && Plain("BenchmarkTask");
    forall t | t in BenchTasks(n) ensures t in Faithful(reg) {
      var i :| 0 <= i < n && t == BenchTask(i);
      SplitPlain(Str(i), SEP);
    }
  }

  /** What is said of the cluster for any generator, and of this one. */
  ghost predicate AllInv(reg: Registry, w: World) {
    Inv(w) && ClusterInv(w.s) && TasksIn(w.s, Faithful(reg))
  }

  lemma ClusterKeeps(reg: Registry, cfg: Config, w: World, step: Step)
    requires AllInv(reg, w) && Enabled(w.s, step)
    ensures AllInv(reg, w.(s := TextNext(reg, cfg, w.s, step)))
  {
    var steps := TextIsSteps(reg, cfg, w.s, step);
    StepsKeep(cfg, w, steps, TextNext(reg, cfg, w.s, step));
    RunsKeep(cfg, w.s, steps, TextNext(reg, cfg, w.s, step), Faithful(reg));
  }

  lemma OuterKeeps(reg: Registry, cfg: Config, s: State, q: seq<Task>, r: seq<string>)
    requires ClusterInv(s) && TasksIn(s, Faithful(reg)) && QueueIn(q, Faithful(reg))
    ensures ClusterInv(Surround(s, q, r)) && TasksIn(Surround(s, q, r), Faithful(reg))
  {
    MakeKeeps(cfg, s, Outer(q, r));
  }

  lemma PopKeeps(w: World)
    requires Inv(w) && !w.ended && w.s.m.results != []
    ensures Inv(w.(popped := w.popped + [w.s.m.results[0]], s := Surround(w.s, w.s.m.queue, w.s.m.results[1..])))
  {
    assert w.s.m.results == [w.s.m.results[0]] + w.s.m.results[1..];
  }

  lemma DoKeeps(reg: Registry, cfg: Config, w: World, act: Act)
    requires BenchTyped(reg) && AllInv(reg, w) && Possible(w, act)
    ensures AllInv(reg, Do(reg, cfg, w, act))
  {
    match act {
      case InCluster(step) => ClusterKeeps(reg, cfg, w, step);
      case Fill =>
        BenchFaithful(reg, w.n);
        FillKeeps(w);
        OuterKeeps(reg, cfg, w.s, BenchTasks(w.n), w.s.m.results);
      case PopResult =>
        PopKeeps(w);
        OuterKeeps(reg, cfg, w.s, w.s.m.queue, w.s.m.results[1..]);
      case End =>
    }
  }

  ghost predicate Follows(reg: Registry, cfg: Config, w: World, act: Act, w2: World) {
    Possible(w, act) && w2 == Do(reg, cfg, w, act)
  }

  ghost predicate Begins(w: World) { Initial(w.s) && !w.filled && !w.ended && w.popped == [] }

  ghost predicate BenchRun(reg: Registry, cfg: Config, ws: seq<World>, acts: seq<Act>) {
    && |ws| == |acts| + 1 && BenchTyped(reg) && Begins(ws[0])
    && forall i :: 0 <= i < |acts| ==> Follows(reg, cfg, ws[i], acts[i], ws[i + 1])
  }

  lemma BeginsInv(reg: Registry, w: World)
    requires Begins(w)
    ensures AllInv(reg, w)
  {
    InitialInv(w.s);
  }

  lemma {:induction false} RunInv(reg: Registry, cfg: Config, ws: seq<World>, acts: seq<Act>, i: nat)
    requires BenchRun(reg, cfg, ws, acts) && i < |ws|
    ensures AllInv(reg, ws[i])
  {
    if i == 0 {
      BeginsInv(reg, ws[0]);
    } else {
      RunInv(reg, cfg, ws, acts, i - 1);
      assert Follows(reg, cfg, ws[i - 1], acts[i - 1], ws[i]);
      DoKeeps(reg, cfg, ws[i - 1], acts[i - 1]);
    }
  }

  /** A multiset contained in another of the same size is that multiset. */
  lemma FullSubset(a: multiset<string>, b: multiset<string>)
    requires a <= b && |a| >= |b|
    ensures a == b
  {
    assert b == a + (b - a);
    assert |b| == |a| + |b - a|;
  }

  /** If the generator ended by itself, every tid from 0 to n-1 was assigned exactly once and its
      finish was accepted exactly once, in every run of the cluster. */
  lemma Complete(reg: Registry, cfg: Config, ws: seq<World>, acts: seq<Act>, last: nat, i: nat)
    requires BenchRun(reg, cfg, ws, acts) && last < |ws| && ws[last].ended && i < ws[last].n
    ensures ws[last].s.created[Copy(Str(i))] == 1
    ensures ws[last].s.accepted[Copy(Str(i))] == 1
    ensures multiset(ws[last].popped) == multiset(BenchTids(ws[last].n))
  {
    var w := ws[last];
    RunInv(reg, cfg, ws, acts, last);
    var all := multiset(BenchTids(w.n));
    AcceptedArePlanned(w);
    assert |multiset(w.s.recorded)| == |w.popped| + |w.s.m.results|;
    FullSubset(multiset(w.s.recorded), all);
    assert w.s.m.results == [];
    assert w.popped + [] == w.popped;
    PlannedOnce(w.n, Str(i));
    assert multiset(w.s.recorded)[Str(i)] == 1;
    AcceptedWasAssigned(w, Str(i));
  }

  lemma AcceptedWasAssigned(w: World, tid: string)
    requires Inv(w) && ClusterInv(w.s)
    ensures multiset(w.s.recorded)[tid] == w.s.accepted[Copy(tid)] <= w.s.created[Copy(tid)] <= multiset(Planned(w))[tid]
  {
    assert w.s.created[Copy(tid)] == (Live(w.s) + w.s.lost + w.s.accepted + w.s.refused + w.s.dismissed)[Copy(tid)];
    assert multiset(Queued(w.s.m.queue))[tid] + w.s.created[Copy(tid)] == multiset(Planned(w))[tid];
  }

  lemma AcceptedArePlanned(w: World)
    requires Inv(w) && ClusterInv(w.s)
    ensures multiset(w.s.recorded) <= multiset(Planned(w))
  {
    forall tid ensures multiset(w.s.recorded)[tid] <= multiset(Planned(w))[tid] { AcceptedWasAssigned(w, tid); }
  }
}
