/** The payload end to end: every task that a controller or a worker of the migration cluster holds
    is one the generator pushed, unchanged, and every message in transit survives its text form. */
module Payload {
  import opened Collections
  import opened Scheduler
  import opened SchedulerLaws
  import opened Tids
  import opened InputLines
  import opened Wire
  import opened TaskWire
  import opened Master
  import opened Controller
  import opened Marks
  import opened Cluster
  import opened ClusterLaws
  import opened ClusterRuns
  import opened Carriage
  import opened SafeRuns
  import opened TextCluster
  import opened MigrationCluster
  import Gens = GeneratorRuns
  import Generator
  import FileLaws

  // ---- what the generator pushed

  ghost function PushedTasks(u: Setup, g: Gens.Gen): iset<Task> {
    iset p | p in g.pushed :: Generator.Filled(u.skeleton, p)
  }

  /** Input comes from files, and host names are separator-free. */
  ghost predicate Clean(u: Setup, act: Act) {
    match act
    case Schedule(turn) => turn.Input? ==> FromFiles(u, turn.lines)
    case InCluster(step) => step.Join? ==> SafeName(step.name)
    case TakeResult => true
  }

  ghost predicate FromFiles(u: Setup, lines: seq<Line>) {
    exists files: seq<seq<Option<string>>> :: lines == AllLines(u.path, files)
  }

  ghost predicate PlainItems(ms: multiset<Item>) { forall e :: e in ms ==> Plain(e.filename) }

  /** All tasks are ones that the generator pushed, from input without separators, and everything
      in the cluster has a text that is read as it was meant. */
  ghost predicate Carried(u: Setup, w: World) {
    && TasksIn(w.s, PushedTasks(u, w.g))
    && PlainItems(w.g.accepted)
    && Sane(u.reg, w.s)
  }

  lemma {:induction false} EntriesPlain(lines: seq<Line>)
    requires PlainEntries(lines)
    ensures PlainItems(FileLaws.Entries(lines))
  {
    if lines != [] {
      EntriesPlain(lines[..|lines| - 1]);
      assert lines[|lines| - 1] in lines;
    }
  }

  lemma TakeGrows(th: Thresholds, g: Gens.Gen, turn: Gens.Step)
    requires Gens.Enabled(g, turn) && Gens.Take(th, g, turn).Ok?
    ensures var g2 := Gens.Take(th, g, turn).value;
      && (forall p :: p in g.pushed ==> p in g2.pushed)
      && (turn.Round? && Choice(g.s).Some? ==> Choice(g.s).value in g2.pushed)
      && g2.accepted == if turn.Input? then g.accepted + FileLaws.Entries(turn.lines) else g.accepted
  {
  }

  lemma InMore(s: State, s2: State, a: iset<Task>, b: iset<Task>)
    requires TasksIn(s, a) && a <= b && s2.ctrls == s.ctrls && s2.parcels == s.parcels && QueueIn(s2.m.queue, b)
    ensures TasksIn(s2, b)
  {
    assert forall c :: c in s.ctrls ==> CtrlIn(c, a) && CtrlIn(c, b);
  }

  // ---- pushed tasks survive the wire

  /** The controllers can import the class; in local mode the arguments of the skeleton are safe. */
  ghost predicate Registers(u: Setup) {
    && Imports(u.reg)
    && (u.skeleton.local ==> Registered(u.reg, u.skeleton.task) && SafeTask(u.skeleton.task.(tid := "0")))
  }

  lemma {:induction false} PushedItem(ps: seq<Push>, p: Push)
    requires p in ps
    ensures p.item in Gens.Items(ps)
  {
    if ps[|ps| - 1] != p { PushedItem(ps[..|ps| - 1], p); }
  }

  lemma FilledSafe(u: Setup, p: Push)
    requires Registers(u) && Plain(p.item.filename)
    ensures Generator.Filled(u.skeleton, p) in Safe(u.reg)
  {
    TidRoundTrip(p.source, p.target);
    if !u.skeleton.local {
      MigrateTaskSafe(u.reg, TidOf(p.source, p.target),
        Migration(p.item.filename, Some(p.source), Some(p.target), u.skeleton.directIo, u.skeleton.block, u.skeleton.skip));
    }
  }

  lemma PushedIsAccepted(th: Thresholds, g: Gens.Gen, p: Push)
    requires Gens.Inv(th, g) && p in g.pushed
    ensures p.item in g.accepted && p.item.ost == p.source
  {
    PushedItem(g.pushed, p);
    assert p.item in FileLaws.Cached(g.s.caches) + Gens.Items(g.pushed);
  }

  // ---- runs

  lemma ChosenIsAccepted(th: Thresholds, g: Gens.Gen)
    requires Gens.Inv(th, g) && Gens.Enabled(g, Gens.Round) && Choice(g.s).Some?
    ensures Choice(g.s).value.item in g.accepted
  {
    var g2 := Gens.Take(th, g, Gens.Round).value;
    Gens.TakeKeeps(th, g, Gens.Round);
    assert Choice(g.s).value in g2.pushed;
    PushedIsAccepted(th, g2, Choice(g.s).value);
  }

  /** The new task of a turn, if any, is a pushed one, and safe. */
  lemma NewTaskCarried(u: Setup, w: World, turn: Gens.Step)
    requires Possible(w, Schedule(turn)) && Gens.Take(u.th, w.g, turn).Ok?
    requires Registers(u) && (turn.Round? && Choice(w.g.s).Some? ==> Plain(Choice(w.g.s).value.item.filename))
    ensures QueueIn(NewTasks(u, w, turn), PushedTasks(u, Gens.Take(u.th, w.g, turn).value))
    ensures QueueIn(NewTasks(u, w, turn), Safe(u.reg))
  {
    TakeGrows(u.th, w.g, turn);
    if turn.Round? && Choice(w.g.s).Some? { FilledSafe(u, Choice(w.g.s).value); }
  }

  lemma ScheduleCarries(u: Setup, w: World, turn: Gens.Step)
    requires Registers(u) && Gens.Inv(u.th, w.g) && Carried(u, w) && Possible(w, Schedule(turn)) && Clean(u, Schedule(turn))
    ensures Carried(u, ScheduleStep(u, w, turn))
  {
    var w2 := ScheduleStep(u, w, turn);
    if Gens.Take(u.th, w.g, turn).Ok? {
      if turn.Round? && Choice(w.g.s).Some? { ChosenIsAccepted(u.th, w.g); }
      NewTaskCarried(u, w, turn);
      TakeGrows(u.th, w.g, turn);
      assert PushedTasks(u, w.g) <= PushedTasks(u, w2.g);
      InMore(w.s, w2.s, PushedTasks(u, w.g), PushedTasks(u, w2.g));
      InMore(w.s, w2.s, Safe(u.reg), Safe(u.reg));
      if turn.Input? {
        var files: seq<seq<Option<string>>> :| turn.lines == AllLines(u.path, files);
        AcceptedArePlain(u.path, files);
        EntriesPlain(turn.lines);
      }
    }
  }

  lemma TakeResultCarries(u: Setup, w: World)
    requires Inv(u, w) && Carried(u, w) && w.s.m.results != []
    ensures Carried(u, TakeResultStep(u, w))
  {
    var w2 := TakeResultStep(u, w);
    var f := ResultsAreReturnable(u, w);
    assert w2.g.pushed == w.g.pushed && w2.g.accepted == w.g.accepted;
    assert w2.s.ctrls == w.s.ctrls && w2.s.parcels == w.s.parcels && w2.s.m.queue == w.s.m.queue;
  }

  lemma ClusterCarries(u: Setup, w: World, step: Step)
    requires Carried(u, w) && Enabled(w.s, step) && Clean(u, InCluster(step))
    ensures Carried(u, w.(s := TextNext(u.reg, u.cfg, w.s, step)))
  {
    TextIsValue(u.reg, u.cfg, w.s, step);
    NextIn(u.cfg, w.s, step, PushedTasks(u, w.g));
    NextSane(u.reg, u.cfg, w.s, step);
  }

  lemma DoCarries(u: Setup, w: World, act: Act)
    requires Registers(u) && Inv(u, w) && Carried(u, w) && Possible(w, act) && Clean(u, act)
    ensures Carried(u, Do(u, w, act))
  {
    match act {
      case InCluster(step) => ClusterCarries(u, w, step);
      case Schedule(turn) => ScheduleCarries(u, w, turn);
      case TakeResult => TakeResultCarries(u, w);
    }
  }

  /** A run whose input comes from files and whose host names hold no separator. */
  ghost predicate CleanRun(u: Setup, ws: seq<World>, acts: seq<Act>) {
    Registers(u) && IsRun(u, ws, acts) && forall i :: 0 <= i < |acts| ==> Clean(u, acts[i])
  }

  lemma {:induction false} RunCarries(u: Setup, ws: seq<World>, acts: seq<Act>, n: nat)
    requires CleanRun(u, ws, acts) && n < |ws|
    ensures Inv(u, ws[n]) && Carried(u, ws[n])
  {
    RunInv(u, ws, acts, n);
    if n > 0 {
      RunCarries(u, ws, acts, n - 1);
      DoCarries(u, ws[n - 1], acts[n - 1]);
      assert ws[n - 1 + 1] == Do(u, ws[n - 1], acts[n - 1]);
    }
  }

  /** The push a held task stems from. */
  ghost predicate StemsFrom(u: Setup, g: Gens.Gen, task: Task, p: Push) {
    && p in g.pushed && p.item in g.accepted && p.item.ost == p.source
    && task == Generator.Filled(u.skeleton, p)
    && (!u.skeleton.local ==> Construct(task.args) == Ok(
          Migration(p.item.filename, Some(p.source), Some(p.target), u.skeleton.directIo, u.skeleton.block, u.skeleton.skip)))
  }

  /** Whatever a worker has taken, in any state of any run: an accepted input entry, pushed by the
      generator for this pair of OSTs, with file name, OSTs and flags unchanged, in a form that
      text, parser and task factory give back. */
  lemma PayloadArrives(u: Setup, ws: seq<World>, acts: seq<Act>, n: nat, c: Ctrl, p: Phase) returns (push: Push)
    requires CleanRun(u, ws, acts) && n < |ws|
    requires c in ws[n].s.ctrls && p in c.workers && (p.Popped? || p.Executing?)
    ensures StemsFrom(u, ws[n].g, p.task, push)
    ensures CarryReply(u.reg, Assign(p.task)) == Ok(Assign(p.task))
  {
    var w := ws[n];
    RunCarries(u, ws, acts, n);
    HeldTask(w.s, c, p, PushedTasks(u, w.g));
    HeldTask(w.s, c, p, Safe(u.reg));
    push :| push in w.g.pushed && Generator.Filled(u.skeleton, push) == p.task;
    PushedIsAccepted(u.th, w.g, push);
    SafeTaskArrives(u.reg, p.task);
    Generator.FilledMeans(u.skeleton, push);
  }

  lemma HeldTask(s: State, c: Ctrl, p: Phase, ts: iset<Task>)
    requires TasksIn(s, ts) && c in s.ctrls && p in c.workers && (p.Popped? || p.Executing?)
    ensures p.task in ts
  {
    assert CtrlIn(c, ts);
  }

  /** Every message in transit, in any state of any run, is read as it was sent, and the next step
      is the one that Cluster takes with values. */
  lemma MessagesSurvive(u: Setup, ws: seq<World>, acts: seq<Act>, n: nat, step: Step)
    requires CleanRun(u, ws, acts) && n < |ws|
    ensures forall l :: l in ws[n].s.letters ==> CarryRequest(l.request) == Ok(l.request)
    ensures forall p :: p in ws[n].s.parcels ==> CarryReply(u.reg, p.reply) == Ok(p.reply)
    ensures Enabled(ws[n].s, step) && SafeStep(step) ==> TextNext(u.reg, u.cfg, ws[n].s, step) == Next(u.cfg, ws[n].s, step)
  {
    RunCarries(u, ws, acts, n);
    SaneSurvives(u.reg, ws[n].s);
    if Enabled(ws[n].s, step) && SafeStep(step) { TextIsValue(u.reg, u.cfg, ws[n].s, step); }
  }
}
