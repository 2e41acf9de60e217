/** The cluster with the migration generator: the 1-to-1 mapping of sources and targets over all
    live tasks, the absence of the program's inconsistency branches, and the payload end to end. */
module MigrationCluster {
  import opened Collections
  import opened Scheduler
  import opened SchedulerLaws
  import opened Tids
  import opened Wire
  import opened TaskWire
  import opened Master
  import opened Controller
  import opened Marks
  import opened Cluster
  import opened ClusterLaws
  import opened ClusterRuns
  import opened Carriage
  import opened Fields
  import opened TaskFate
  import opened TextCluster
  import Gens = GeneratorRuns
  import Generator

  /** The configuration of master and generator, and the classes that the controllers can import. */
  datatype Setup = Setup(cfg: Config, th: Thresholds, skeleton: Generator.Skeleton, path: string, reg: Registry)

  /** The tasks of the generator are objects of their class. */
  predicate TypedSetup(u: Setup) {
    && (u.skeleton.local ==> Typed(u.reg, u.skeleton.task))
    && ((MIGRATE_PACKAGE, MIGRATE_CLASS) in u.reg ==> u.reg[(MIGRATE_PACKAGE, MIGRATE_CLASS)] == 6)
  }

  /** The generator process, alive or not, and the cluster around the queues they share. */
  datatype World = World(g: Gens.Gen, alive: bool, s: State)

  datatype Act =
    | InCluster(step: Step)
    | Schedule(turn: Gens.Step)   // any generator step but a returned task
    | TakeResult                  // the generator pops a finished tid

  ghost predicate Possible(w: World, act: Act) {
    match act
    case InCluster(step) => Enabled(w.s, step)
    case Schedule(turn) => w.alive && !turn.Back? && Gens.Enabled(w.g, turn)
    case TakeResult => w.alive && w.s.m.results != []
  }

  /** The task a generator step pushes, if any. */
  ghost function NewTasks(u: Setup, w: World, step: Gens.Step): seq<Task>
    requires Gens.Enabled(w.g, step)
  {
    if step.Round? && Choice(w.g.s).Some? then [Generator.Filled(u.skeleton, Choice(w.g.s).value)] else []
  }

  /** An exception ends the generator and nothing else. */
  ghost function ScheduleStep(u: Setup, w: World, step: Gens.Step): World
    requires Gens.Enabled(w.g, step)
  {
    match Gens.Take(u.th, w.g, step)
    case Raised => w.(alive := false)
    case Ok(g) => w.(g := g, s := Surround(w.s, w.s.m.queue + NewTasks(u, w, step), w.s.m.results))
  }

  /** What the generator makes of a finished tid. */
  ghost function Returned(u: Setup, w: World, tid: string): Result<Gens.Gen> {
    match ParseTid(tid)
    case Raised => Raised
    case Ok(f) => Gens.Take(u.th, w.g, Gens.Back(f.0, f.1))
  }

  ghost function TakeResultStep(u: Setup, w: World): World
    requires w.s.m.results != []
  {
    var s := Surround(w.s, w.s.m.queue, w.s.m.results[1..]);
    match Returned(u, w, w.s.m.results[0])
    case Raised => w.(alive := false, s := s)
    case Ok(g) => w.(g := g, s := s)
  }

  ghost function Do(u: Setup, w: World, act: Act): World
    requires Possible(w, act)
  {
    match act
    case InCluster(step) => w.(s := TextNext(u.reg, u.cfg, w.s, step))
    case Schedule(turn) => ScheduleStep(u, w, turn)
    case TakeResult => TakeResultStep(u, w)
  }

  // ---- the invariant

  ghost function FlightTids(flight: Flight): set<string> { set f | f in flight :: TidOf(f.0, f.1) }

  function Queued(q: seq<Task>): seq<string> { seq(|q|, i requires 0 <= i < |q| => q[i].tid) }

  /** The tids in flight are each queued, assigned or in the result queue, once. */
  ghost predicate Balanced(m: Master, flight: Flight) {
    forall tid :: Outstanding(m, tid) == if tid in FlightTids(flight) then 1 else 0
  }

  /** Where a tid that was pushed and has not come back can be. */
  ghost function Outstanding(m: Master, tid: string): nat {
    multiset(Queued(m.queue))[tid] + AssignedNow(m, tid) + multiset(m.results)[tid]
  }

  /** The only copy of an assigned task is with the recorded owner. */
  ghost predicate Owned(s: State) {
    forall o, tid :: Live(s)[CopyAt(o, tid)] <= MayHold(s.m, o, tid)
  }

  /** The number of copies a controller may hold. */
  function MayHold(m: Master, o: string, tid: string): nat {
    if InStateAssigned(m, tid) && m.status[tid].controller == o then 1 else 0
  }

  /** What the cluster has to do with the tasks in flight. */
  ghost predicate Shared(u: Setup, s: State, flight: Flight) {
    && ClusterInv(s)
    && TasksIn(s, Faithful(u.reg))
    && Balanced(s.m, flight)
    && Owned(s)
    && s.resent == multiset{}
  }

  ghost predicate Inv(u: Setup, w: World) {
    TypedSetup(u) && Gens.Inv(u.th, w.g) && Shared(u, w.s, w.g.flight)
  }

  // ---- the branches of the master

  /** A queued tid is in flight and not assigned. */
  lemma QueueHeadIsFree(m: Master, flight: Flight)
    requires Balanced(m, flight) && m.queue != []
    ensures !InStateAssigned(m, m.queue[0].tid) && m.queue[0].tid in FlightTids(flight)
  {
    var tid := m.queue[0].tid;
    assert Queued(m.queue)[0] == tid;
    assert tid in multiset(Queued(m.queue));
    assert Outstanding(m, tid) <= 1;
  }

  lemma LetterIsLive(s: State, k: nat)
    requires k < |s.letters| && s.letters[k].request.Finished?
    ensures Live(s)[CopyAt(s.letters[k].request.sender, s.letters[k].request.tid)] >= 1
  {
    SumRemove("", s.letters, k, LetterMarks);
  }

  /** A finished message comes from the recorded owner of an assigned task. */
  lemma FinishedIsExpected(s: State, k: nat)
    requires Owned(s) && k < |s.letters| && s.letters[k].request.Finished?
    ensures var r := s.letters[k].request; InStateAssigned(s.m, r.tid) && s.m.status[r.tid].controller == r.sender
  {
    LetterIsLive(s, k);
  }

  predicate Consistent(o: Outcome) {
    !o.StillAssigned? && !o.Refused? && !o.UnknownTid? && (o.Handed? ==> !o.resent)
  }

  /** With the migration generator the master never drops a task as still assigned, never assigns
      one twice, never refuses a finish and never meets an unknown tid. */
  lemma NoInconsistentBranch(cfg: Config, s: State, flight: Flight, k: nat, t: Tick)
    requires Balanced(s.m, flight) && Owned(s) && k < |s.letters|
    ensures Consistent(Serve(cfg, s.m, s.letters[k].request, t).outcome)
  {
    ServeStatus(cfg, s.m, s.letters[k].request, t);
    if s.letters[k].request.Finished? { FinishedIsExpected(s, k); }
    if s.m.queue != [] { QueueHeadIsFree(s.m, flight); }
  }

  lemma ResultIsInFlight(m: Master, flight: Flight)
    requires Balanced(m, flight) && m.results != []
    ensures m.results[0] in FlightTids(flight)
  {
    assert m.results[0] in multiset(m.results);
    assert Outstanding(m, m.results[0]) >= 1;
  }

  /** The generator never fails on a finished tid: it parses, both OSTs are known and busy. */
  lemma ResultsAreReturnable(u: Setup, w: World) returns (f: (nat, nat))
    requires Inv(u, w) && w.s.m.results != []
    ensures f in w.g.flight && TidOf(f.0, f.1) == w.s.m.results[0]
    ensures Returned(u, w, w.s.m.results[0]) == Gens.Take(u.th, w.g, Gens.Back(f.0, f.1))
    ensures Returned(u, w, w.s.m.results[0]).Ok? && Gens.Inv(u.th, Returned(u, w, w.s.m.results[0]).value)
  {
    var tid := w.s.m.results[0];
    ResultIsInFlight(w.s.m, w.g.flight);
    f :| f in w.g.flight && TidOf(f.0, f.1) == tid;
    TidRoundTrip(f.0, f.1);
    Gens.TakeKeeps(u.th, w.g, Gens.Back(f.0, f.1));
  }

  // ---- steps of the cluster

  lemma QueuedTail(q: seq<Task>)
    requires q != []
    ensures multiset(Queued(q)) == multiset{q[0].tid} + multiset(Queued(q[1..]))
  {
    assert Queued(q) == [q[0].tid] + Queued(q[1..]);
  }

  /** Handing out moves a tid from the queue to the assigned ones, accepting moves it on to the
      results; no other branch moves any. */
  lemma BalancedServe(cfg: Config, m: Master, flight: Flight, r: Request, t: Tick)
    requires Balanced(m, flight) && Consistent(Serve(cfg, m, r, t).outcome)
    requires r.Finished? ==> InStateAssigned(m, r.tid)
    ensures Balanced(Serve(cfg, m, r, t).m, flight)
  {
    var v := Serve(cfg, m, r, t);
    ServeStatus(cfg, m, r, t);
    forall tid ensures Outstanding(v.m, tid) == Outstanding(m, tid) {
      if v.outcome.Handed? {
        QueueHeadIsFree(m, flight);
        QueuedTail(m.queue);
      } else if v.outcome.Accepted? {
        assert multiset(m.results + [v.outcome.tid]) == multiset(m.results) + multiset{v.outcome.tid};
      }
    }
  }

  lemma HoldsAfter(cfg: Config, m: Master, flight: Flight, r: Request, t: Tick, o: string, tid: string)
    requires Balanced(m, flight) && Consistent(Serve(cfg, m, r, t).outcome)
    ensures var v := Serve(cfg, m, r, t);
      MayHold(m, o, tid) + (if Added(v.outcome, tid) == 1 && v.outcome.owner == o then 1 else 0)
      <= MayHold(v.m, o, tid) + (if Taken(v.outcome, tid) == 1 && v.outcome.controller == o then 1 else 0)
  {
    ServeStatus(cfg, m, r, t);
    if m.queue != [] { QueueHeadIsFree(m, flight); }
  }

  lemma OwnedHandle(cfg: Config, s: State, flight: Flight, k: nat, t: Tick)
    requires Balanced(s.m, flight) && Owned(s) && k < |s.letters|
    ensures Owned(HandleStep(cfg, s, k, t))
  {
    var s2 := HandleStep(cfg, s, k, t);
    var r := s.letters[k].request;
    NoInconsistentBranch(cfg, s, flight, k, t);
    HandleShape(cfg, s, k, t);
    forall o, tid ensures Live(s2)[CopyAt(o, tid)] <= MayHold(s2.m, o, tid) {
      HandleCopies(cfg, s, k, t, tid);
      assert CopiesAt(Live(s), Live(s2), Serve(cfg, s.m, r, t).outcome, tid, o);
      assert Live(s)[CopyAt(o, tid)] <= MayHold(s.m, o, tid);
      HoldsAfter(cfg, s.m, flight, r, t, o, tid);
    }
  }

  /** What a step of Cluster keeps, besides what it keeps for any generator. */
  ghost predicate Accounted(s: State, flight: Flight) {
    Balanced(s.m, flight) && Owned(s) && s.resent == multiset{}
  }

  lemma HandleKeeps(cfg: Config, s: State, flight: Flight, k: nat, t: Tick)
    requires Accounted(s, flight) && k < |s.letters|
    ensures Accounted(HandleStep(cfg, s, k, t), flight)
  {
    NoInconsistentBranch(cfg, s, flight, k, t);
    OwnedHandle(cfg, s, flight, k, t);
    HandleShape(cfg, s, k, t);
    BookResent(cfg, s, k, t);
    if s.letters[k].request.Finished? { FinishedIsExpected(s, k); }
    BalancedServe(cfg, s.m, flight, s.letters[k].request, t);
  }

  lemma QuietOwned(cfg: Config, s: State, step: Step)
    requires Owned(s) && Named(s) && Enabled(s, step) && !step.Handle?
    ensures Owned(Next(cfg, s, step))
  {
    var s2 := Next(cfg, s, step);
    QuietStep(cfg, s, step);
    forall o, tid ensures Live(s2)[CopyAt(o, tid)] <= MayHold(s2.m, o, tid) {
      QuietCopies(cfg, s, step, tid);
      assert Live(s)[CopyAt(o, tid)] <= MayHold(s.m, o, tid);
    }
  }

  lemma QuietKeeps(cfg: Config, s: State, flight: Flight, step: Step)
    requires Accounted(s, flight) && Named(s) && Enabled(s, step) && !step.Handle?
    ensures Accounted(Next(cfg, s, step), flight)
  {
    QuietStep(cfg, s, step);
    QuietOwned(cfg, s, step);
    assert forall tid :: Outstanding(Next(cfg, s, step).m, tid) == Outstanding(s.m, tid);
  }

  lemma StepKeeps(cfg: Config, s: State, flight: Flight, step: Step)
    requires Accounted(s, flight) && Named(s) && Enabled(s, step)
    ensures Accounted(Next(cfg, s, step), flight)
  {
    if step.Handle? { HandleKeeps(cfg, s, flight, step.k, step.t); } else { QuietKeeps(cfg, s, flight, step); }
  }

  lemma {:induction false} StepsKeep(cfg: Config, s: State, flight: Flight, steps: seq<Step>, s2: State)
    requires Accounted(s, flight) && Named(s) && Runs(cfg, s, steps, s2)
    ensures Accounted(s2, flight)
    decreases |steps|
  {
    if steps != [] {
      StepKeeps(cfg, s, flight, steps[0]);
      NextNamed(cfg, s, steps[0]);
      StepsKeep(cfg, Next(cfg, s, steps[0]), flight, steps[1..], s2);
    }
  }

  lemma ClusterKeeps(u: Setup, s: State, flight: Flight, step: Step)
    requires Shared(u, s, flight) && Enabled(s, step)
    ensures Shared(u, TextNext(u.reg, u.cfg, s, step), flight)
  {
    var steps := TextIsSteps(u.reg, u.cfg, s, step);
    StepsKeep(u.cfg, s, flight, steps, TextNext(u.reg, u.cfg, s, step));
    RunsKeep(u.cfg, s, steps, TextNext(u.reg, u.cfg, s, step), Faithful(u.reg));
  }

  // ---- steps of the generator

  lemma SurroundKeeps(u: Setup, s: State, flight: Flight, flight2: Flight, q: seq<Task>, r: seq<string>)
    requires Shared(u, s, flight) && Balanced(s.m.(queue := q, results := r), flight2) && QueueIn(q, Faithful(u.reg))
    ensures Shared(u, Surround(s, q, r), flight2)
  {
    MakeKeeps(u.cfg, s, Outer(q, r));
    assert Live(Surround(s, q, r)) == Live(s);
  }

  /** A pushed task arrives as it was sent, or not at all. */
  lemma FilledFaithful(u: Setup, p: Push)
    requires TypedSetup(u)
    ensures Generator.Filled(u.skeleton, p) in Faithful(u.reg)
  {
    TidRoundTrip(p.source, p.target);
    SplitPlain(TidOf(p.source, p.target), SEP);
    MigrateClassNames();
  }

  lemma FlightTidsAdd(flight: Flight, f: (nat, nat))
    ensures FlightTids(flight + {f}) == FlightTids(flight) + {TidOf(f.0, f.1)}
    ensures f !in flight ==> TidOf(f.0, f.1) !in FlightTids(flight)
  {
    TidRoundTrip(f.0, f.1);
    forall g | g in flight && TidOf(g.0, g.1) == TidOf(f.0, f.1) ensures g == f { TidRoundTrip(g.0, g.1); }
  }

  /** A push brings a new tid into the queue and into flight. */
  lemma PushBalanced(m: Master, flight: Flight, p: Push, task: Task)
    requires Balanced(m, flight) && (p.source, p.target) !in flight && task.tid == TidOf(p.source, p.target)
    ensures Balanced(m.(queue := m.queue + [task]), flight + {(p.source, p.target)})
  {
    FlightTidsAdd(flight, (p.source, p.target));
    assert Queued(m.queue + [task]) == Queued(m.queue) + [task.tid];
  }

  /** A popped result leaves the result queue and the flight. */
  lemma PopBalanced(m: Master, flight: Flight, f: (nat, nat))
    requires Balanced(m, flight) && m.results != [] && f in flight && TidOf(f.0, f.1) == m.results[0]
    ensures Balanced(m.(results := m.results[1..]), flight - {f})
  {
    assert m.results == [m.results[0]] + m.results[1..];
    assert multiset(m.results) == multiset{m.results[0]} + multiset(m.results[1..]);
    FlightTidsAdd(flight - {f}, f);
    assert flight - {f} + {f} == flight;
  }

  lemma RoundKeeps(u: Setup, w: World)
    requires Inv(u, w) && Possible(w, Schedule(Gens.Round))
    ensures var w2 := ScheduleStep(u, w, Gens.Round); Shared(u, w2.s, w2.g.flight)
  {
    var flight := w.g.flight;
    if Choice(w.g.s).Some? {
      var p := Choice(w.g.s).value;
      var task := Generator.Filled(u.skeleton, p);
      PushIsNew(u, w.g);
      FilledFaithful(u, p);
      PushBalanced(w.s.m, flight, p, task);
      SurroundKeeps(u, w.s, flight, flight + {(p.source, p.target)}, w.s.m.queue + [task], w.s.m.results);
    } else {
      assert w.s.m.queue + [] == w.s.m.queue;
      SurroundKeeps(u, w.s, flight, flight, w.s.m.queue, w.s.m.results);
    }
  }

  lemma PushIsNew(u: Setup, g: Gens.Gen)
    requires Gens.Inv(u.th, g) && g.s.nextSource < |g.s.keys| && Choice(g.s).Some?
    ensures (Choice(g.s).value.source, Choice(g.s).value.target) !in g.flight
  {
    VisitSound(g.s, u.th, g.flight);
  }

  /** Any other turn leaves the tasks alone. */
  lemma OtherTurn(u: Setup, w: World, turn: Gens.Step)
    requires Possible(w, Schedule(turn)) && !turn.Round?
    ensures var w2 := ScheduleStep(u, w, turn);
      w2.g.flight == w.g.flight && (w2.s == w.s || w2.s == Surround(w.s, w.s.m.queue, w.s.m.results))
  {
    assert w.s.m.queue + [] == w.s.m.queue;
  }

  lemma OtherTurnKeeps(u: Setup, w: World, turn: Gens.Step)
    requires Shared(u, w.s, w.g.flight) && Possible(w, Schedule(turn)) && !turn.Round?
    ensures var w2 := ScheduleStep(u, w, turn); Shared(u, w2.s, w2.g.flight)
  {
    OtherTurn(u, w, turn);
    SurroundKeeps(u, w.s, w.g.flight, w.g.flight, w.s.m.queue, w.s.m.results);
  }

  lemma ScheduleKeeps(u: Setup, w: World, turn: Gens.Step)
    requires Inv(u, w) && Possible(w, Schedule(turn))
    ensures Inv(u, ScheduleStep(u, w, turn))
  {
    Gens.TakeKeeps(u.th, w.g, turn);
    if turn.Round? { RoundKeeps(u, w); } else { OtherTurnKeeps(u, w, turn); }
  }

  lemma TakeResultKeeps(u: Setup, w: World)
    requires Inv(u, w) && Possible(w, TakeResult)
    ensures Inv(u, TakeResultStep(u, w)) && TakeResultStep(u, w).alive == w.alive
  {
    var f := ResultsAreReturnable(u, w);
    PopBalanced(w.s.m, w.g.flight, f);
    SurroundKeeps(u, w.s, w.g.flight, w.g.flight - {f}, w.s.m.queue, w.s.m.results[1..]);
  }

  // ---- runs

  lemma DoKeeps(u: Setup, w: World, act: Act)
    requires Inv(u, w) && Possible(w, act)
    ensures Inv(u, Do(u, w, act))
  {
    match act {
      case InCluster(step) => ClusterKeeps(u, w.s, w.g.flight, step);
      case Schedule(turn) => ScheduleKeeps(u, w, turn);
      case TakeResult => TakeResultKeeps(u, w);
    }
  }

  /** One master that starts with no controllers, and a generator past its initialisation. */
  ghost predicate Begins(u: Setup, w: World) {
    && TypedSetup(u) && Initial(w.s) && w.alive
    && exists targets: seq<nat>, fill: Fill :: Gens.Start(u.th, targets, fill) == Ok(w.g)
  }

  ghost predicate IsRun(u: Setup, ws: seq<World>, acts: seq<Act>) {
    && |ws| == |acts| + 1 && Begins(u, ws[0])
    && forall i :: 0 <= i < |acts| ==> Possible(ws[i], acts[i]) && ws[i + 1] == Do(u, ws[i], acts[i])
  }

  lemma BeginsInv(u: Setup, w: World)
    requires Begins(u, w)
    ensures Inv(u, w)
  {
    var targets: seq<nat>, fill: Fill :| Gens.Start(u.th, targets, fill) == Ok(w.g);
    Gens.StartInv(u.th, targets, fill);
    InitialInv(w.s);
  }

  lemma {:induction false} RunInv(u: Setup, ws: seq<World>, acts: seq<Act>, n: nat)
    requires IsRun(u, ws, acts) && n < |ws|
    ensures Inv(u, ws[n])
  {
    if n == 0 {
      BeginsInv(u, ws[0]);
    } else {
      RunInv(u, ws, acts, n - 1);
      DoKeeps(u, ws[n - 1], acts[n - 1]);
      assert ws[n - 1 + 1] == Do(u, ws[n - 1], acts[n - 1]);
    }
  }

  // ---- the mapping

  /** How many live tasks have this tid: queued, in transit, with a controller or a worker, or
      finished and not yet accepted. */
  ghost function Playing(w: World, tid: string): nat {
    multiset(Queued(w.s.m.queue))[tid] + Live(w.s)[Copy(tid)]
  }

  /** A live task is one of those in flight, and there is only one of it. */
  lemma PlayingIsInFlight(u: Setup, w: World, tid: string)
    requires Inv(u, w) && Playing(w, tid) > 0
    ensures Playing(w, tid) == 1 && tid in FlightTids(w.g.flight)
  {
    assert Live(w.s)[Copy(tid)] <= AssignedNow(w.s.m, tid) + w.s.resent[tid];
    assert Playing(w, tid) <= Outstanding(w.s.m, tid);
  }

  /** The 1-to-1 mapping over the whole cluster, in every state of every run: no tid is live
      twice, and any two live tasks differ in their source OST and in their target OST. */
  lemma OneToOneMapping(u: Setup, ws: seq<World>, acts: seq<Act>, n: nat, tid1: string, tid2: string)
    requires IsRun(u, ws, acts) && n < |ws|
    requires Playing(ws[n], tid1) > 0 && Playing(ws[n], tid2) > 0
    ensures Playing(ws[n], tid1) == 1
    ensures ParseTid(tid1).Ok? && ParseTid(tid2).Ok?
    ensures tid1 != tid2 ==>
      ParseTid(tid1).value.0 != ParseTid(tid2).value.0 && ParseTid(tid1).value.1 != ParseTid(tid2).value.1
  {
    var w := ws[n];
    RunInv(u, ws, acts, n);
    PlayingIsInFlight(u, w, tid1);
    PlayingIsInFlight(u, w, tid2);
    var f :| f in w.g.flight && TidOf(f.0, f.1) == tid1;
    var g :| g in w.g.flight && TidOf(g.0, g.1) == tid2;
    TidRoundTrip(f.0, f.1);
    TidRoundTrip(g.0, g.1);
  }

  /** In every run none of the program's inconsistency branches is reached: not the master's on
      any request in transit, not the generator's on any finished tid. */
  lemma NeverInconsistent(u: Setup, ws: seq<World>, acts: seq<Act>, n: nat, k: nat, t: Tick)
    requires IsRun(u, ws, acts) && n < |ws|
    ensures k < |ws[n].s.letters| ==>
      Consistent(Serve(u.cfg, ws[n].s.m, ws[n].s.letters[k].request, t).outcome)
    ensures ws[n].s.m.results != [] ==> Returned(u, ws[n], ws[n].s.m.results[0]).Ok?
  {
    RunInv(u, ws, acts, n);
    if k < |ws[n].s.letters| { NoInconsistentBranch(u.cfg, ws[n].s, ws[n].g.flight, k, t); }
    if ws[n].s.m.results != [] { var f := ResultsAreReturnable(u, ws[n]); }
  }

  /** State coherence over the cluster: an OST is BLOCKED or PENDING_LOCK as a source exactly when
      one tid naming it is queued, assigned or waiting in the result queue; READY and BLOCKED
      sources are above the source threshold. */
  lemma SourcesCohere(u: Setup, ws: seq<World>, acts: seq<Act>, n: nat, o: nat)
    requires IsRun(u, ws, acts) && n < |ws| && o in ws[n].g.s.source.at
    ensures var w := ws[n];
      && (Busy(w.g.s.source.at[o]) <==> exists t :: Outstanding(w.s.m, TidOf(o, t)) == 1)
      && (forall t1, t2 :: Outstanding(w.s.m, TidOf(o, t1)) > 0 && Outstanding(w.s.m, TidOf(o, t2)) > 0 ==> t1 == t2)
      && (w.g.s.source.at[o] == READY || w.g.s.source.at[o] == BLOCKED ==>
            o in w.g.s.fill && w.g.s.fill[o] > u.th.source)
  {
    var w := ws[n];
    RunInv(u, ws, acts, n);
    forall t: nat ensures Outstanding(w.s.m, TidOf(o, t)) == if (o, t) in w.g.flight then 1 else 0 {
      OutstandingIsFlight(u, w, o, t);
    }
    if Busy(w.g.s.source.at[o]) {
      var f :| f in w.g.flight && f.0 == o;
      assert Outstanding(w.s.m, TidOf(o, f.1)) == 1;
    }
  }

  /** The same for the targets, which READY and BLOCKED show to be below their threshold. */
  lemma TargetsCohere(u: Setup, ws: seq<World>, acts: seq<Act>, n: nat, o: nat)
    requires IsRun(u, ws, acts) && n < |ws| && o in ws[n].g.s.target.at
    ensures var w := ws[n];
      && (Busy(w.g.s.target.at[o]) <==> exists s :: Outstanding(w.s.m, TidOf(s, o)) == 1)
      && (forall s1, s2 :: Outstanding(w.s.m, TidOf(s1, o)) > 0 && Outstanding(w.s.m, TidOf(s2, o)) > 0 ==> s1 == s2)
      && (w.g.s.target.at[o] == READY || w.g.s.target.at[o] == BLOCKED ==>
            o in w.g.s.fill && w.g.s.fill[o] < u.th.target)
  {
    var w := ws[n];
    RunInv(u, ws, acts, n);
    forall s: nat ensures Outstanding(w.s.m, TidOf(s, o)) == if (s, o) in w.g.flight then 1 else 0 {
      OutstandingIsFlight(u, w, s, o);
    }
    if Busy(w.g.s.target.at[o]) {
      var f :| f in w.g.flight && f.1 == o;
      assert Outstanding(w.s.m, TidOf(f.0, o)) == 1;
    }
  }

  lemma OutstandingIsFlight(u: Setup, w: World, source: nat, target: nat)
    requires Inv(u, w)
    ensures Outstanding(w.s.m, TidOf(source, target)) == if (source, target) in w.g.flight then 1 else 0
  {
    TidRoundTrip(source, target);
    var tid := TidOf(source, target);
    if tid in FlightTids(w.g.flight) {
      var f :| f in w.g.flight && TidOf(f.0, f.1) == tid;
      TidRoundTrip(f.0, f.1);
    }
  }
}
