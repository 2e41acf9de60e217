/** All runs of the migration generator: its loop as steps that may come in any order, with what
    was read from the input and what was pushed. */
module GeneratorRuns {
  import opened Collections
  import opened Scheduler
  import opened SchedulerLaws
  import opened FileLaws

  datatype Gen = Gen(
    s: Sched,
    flight: Flight,              // pushed and not come back
    accepted: multiset<Item>,    // all entries ever accepted from input files
    pushed: seq<Push>)           // all pushes, oldest first

  /** StartPass: the head of the main loop; Round: one source looked at; Back: one finished tid
      taken from the result queue; Measure: fill levels; Input: new input files; CleanUp: the
      cache print-out and clean-up. */
  datatype Step = StartPass | Round | Back(source: nat, target: nat) | Measure(fill: Fill) | Input(lines: seq<Line>) | CleanUp

  /** The generator right after _init_ost_target_state_dict, if no target lacks a reading. */
  function Start(th: Thresholds, targets: seq<nat>, fill: Fill): Result<Gen> {
    match UpdateAll(Dict([], map[]), AsTarget, th, fill, targets)
    case Raised => Raised
    case Ok(t) => Ok(Gen(Sched([], t.order, Dict([], map[]), Dict([], map[]), t, fill, 0, 0), {}, multiset{}, []))
  }

  /** Which steps the generator can take. */
  ghost predicate Enabled(g: Gen, step: Step) {
    match step
    case Round => g.s.nextSource < |g.s.keys|
    case Input(_) => g.s.caches.WF()
    case CleanUp => Legal(g.s)
    case _ => true
  }

  /** One step; `Raised` is the exception that ends the generator. */
  ghost function Take(th: Thresholds, g: Gen, step: Step): Result<Gen>
    requires Enabled(g, step)
  {
    match step
    case StartPass => Ok(g.(s := Rewind(g.s)))
    case Round =>
      Ok(g.(s := Visit(g.s), flight := FlightAfter(g.s, g.flight),
            pushed := match Choice(g.s) { case None => g.pushed case Some(p) => g.pushed + [p] }))
    case Back(source, target) =>
      (match Return(g.s, source, target)
       case Raised => Raised
       case Ok(s) => Ok(g.(s := s, flight := g.flight - {(source, target)})))
    case Measure(fill) =>
      (match Refresh(g.s, th, fill) case Raised => Raised case Ok(s) => Ok(g.(s := s)))
    case Input(lines) =>
      (match Process(g.s, th, lines)
       case Raised => Raised
       case Ok(s) => Ok(g.(s := s, accepted := g.accepted + Entries(lines))))
    case CleanUp => Ok(g.(s := Deallocate(g.s)))
  }

  ghost function Items(ps: seq<Push>): multiset<Item> {
    if ps == [] then multiset{} else Items(ps[..|ps| - 1]) + multiset{ps[|ps| - 1].item}
  }

  /** Files are neither lost nor duplicated. */
  ghost predicate Conserved(g: Gen) {
    g.s.caches.WF() && Cached(g.s.caches) + Items(g.pushed) == g.accepted
  }

  /** Every push came from its own OST's cache, and migrates between two different OSTs unless
      the thresholds leave room for an OST that is both too full and not full enough. */
  ghost predicate GoodPushes(th: Thresholds, ps: seq<Push>) {
    forall p :: p in ps ==> p.item.ost == p.source && (th.target <= th.source + 1 ==> p.source != p.target)
  }

  ghost predicate Inv(th: Thresholds, g: Gen) {
    Sound(g.s, th, g.flight) && Conserved(g) && GoodPushes(th, g.pushed)
  }

  // ---- the first state

  lemma {:induction false} FirstJudgement(role: Role, th: Thresholds, fill: Fill, osts: seq<nat>)
    requires UpdateAll(Dict([], map[]), role, th, fill, osts).Ok?
    ensures var d := UpdateAll(Dict([], map[]), role, th, fill, osts).value;
      && d.WF() && (forall o :: o in d.at <==> o in osts)
      && (forall o :: o in d.at ==> o in fill && d.at[o] == Judge(None, Passes(role, th, fill[o])))
  {
    if osts != [] {
      var init, last := osts[..|osts| - 1], osts[|osts| - 1];
      assert osts == init + [last];
      FirstJudgement(role, th, fill, init);
      JudgeTwice(UpdateAll(Dict([], map[]), role, th, fill, init).value, role, th, fill, last);
    }
  }

  /** Judging twice by one reading is judging once. */
  lemma JudgeTwice(d: States, role: Role, th: Thresholds, fill: Fill, o: nat)
    requires d.WF() && forall k :: k in d.at ==> k in fill && d.at[k] == Judge(None, Passes(role, th, fill[k]))
    ensures Update(d, role, th, fill, o).Ok? ==>
      var r := Update(d, role, th, fill, o).value;
      && r.WF() && r.at.Keys == d.at.Keys + {o}
      && forall k :: k in r.at ==> k in fill && r.at[k] == Judge(None, Passes(role, th, fill[k]))
  {
  }

  lemma {:induction false} FirstJudgementOk(role: Role, th: Thresholds, fill: Fill, osts: seq<nat>)
    ensures UpdateAll(Dict([], map[]), role, th, fill, osts).Ok? <==> forall o :: o in osts ==> o in fill
  {
    if osts != [] {
      var init, last := osts[..|osts| - 1], osts[|osts| - 1];
      assert osts == init + [last];
      FirstJudgementOk(role, th, fill, init);
    }
  }

  lemma {:induction false} FirstOrder(role: Role, th: Thresholds, fill: Fill, osts: seq<nat>)
    requires Distinct(osts) && UpdateAll(Dict([], map[]), role, th, fill, osts).Ok?
    ensures UpdateAll(Dict([], map[]), role, th, fill, osts).value.order == osts
  {
    if osts != [] {
      var init, last := osts[..|osts| - 1], osts[|osts| - 1];
      assert osts == init + [last];
      assert Distinct(init) && last !in init;
      FirstOrder(role, th, fill, init);
      FirstJudgement(role, th, fill, init);
    }
  }

  /** The generator starts exactly if every configured target has a reading; a target is then READY if
      it has room and LOCKED if it has not, in the configured order, and nothing is cached. */
  lemma StartReads(th: Thresholds, targets: seq<nat>, fill: Fill)
    ensures Start(th, targets, fill).Ok? <==> forall t :: t in targets ==> t in fill
    ensures Start(th, targets, fill).Ok? ==>
      var s := Start(th, targets, fill).value.s;
      && (forall t :: t in s.target.at <==> t in targets)
      && (forall t :: t in s.target.at ==> t in fill && s.target.at[t] == if fill[t] < th.target then READY else LOCKED)
      && (Distinct(targets) ==> s.targets == targets)
      && s.fill == fill && s.keys == [] && s.caches.at == map[] && s.source.at == map[] && s.nextSource == s.nextTarget == 0
  {
    FirstJudgementOk(AsTarget, th, fill, targets);
    if Start(th, targets, fill).Ok? {
      FirstJudgement(AsTarget, th, fill, targets);
      if Distinct(targets) { FirstOrder(AsTarget, th, fill, targets); }
    }
  }

  lemma StartInv(th: Thresholds, targets: seq<nat>, fill: Fill)
    requires Start(th, targets, fill).Ok?
    ensures Inv(th, Start(th, targets, fill).value)
  {
    FirstJudgement(AsTarget, th, fill, targets);
  }

  // ---- every step keeps the invariant

  /** A pushed pair passes both strict thresholds on the current readings. */
  lemma PushIsEligible(th: Thresholds, s: Sched, flight: Flight)
    requires Sound(s, th, flight) && s.nextSource < |s.keys| && Choice(s).Some?
    ensures var p := Choice(s).value;
      && p.source in s.fill && s.fill[p.source] > th.source
      && p.target in s.fill && s.fill[p.target] < th.target
  {
  }

  lemma ItemsPush(ps: seq<Push>, p: Push)
    ensures Items(ps + [p]) == Items(ps) + multiset{p.item}
  {
    assert (ps + [p])[..|ps|] == ps;
  }

  /** A pushed entry leaves the caches and joins the pushes. */
  lemma PushConserves(s: Sched, ps: seq<Push>, accepted: multiset<Item>, p: Push)
    requires s.caches.WF() && Dispatchable(s, p) && Cached(s.caches) + Items(ps) == accepted
    ensures Dispatch(s, p).caches.WF() && Cached(Dispatch(s, p).caches) + Items(ps + [p]) == accepted
  {
    DispatchConserves(s, p);
    ItemsPush(ps, p);
  }

  lemma RoundPushes(th: Thresholds, g: Gen)
    requires Inv(th, g) && Enabled(g, Round) && Choice(g.s).Some?
    ensures GoodPushes(th, g.pushed + [Choice(g.s).value])
    ensures Visit(g.s).caches.WF() && Cached(Visit(g.s).caches) + Items(g.pushed + [Choice(g.s).value]) == g.accepted
  {
    var p := Choice(g.s).value;
    VisitPushes(g.s);
    PushIsEligible(th, g.s, g.flight);
    assert p.item in g.s.caches.at[p.source];
    PushConserves(g.s, g.pushed, g.accepted, p);
  }

  lemma RoundKeeps(th: Thresholds, g: Gen)
    requires Inv(th, g) && Enabled(g, Round)
    ensures Inv(th, Take(th, g, Round).value)
  {
    VisitSound(g.s, th, g.flight);
    if Choice(g.s).Some? { RoundPushes(th, g); } else { VisitPushes(g.s); }
  }

  lemma InputKeeps(th: Thresholds, g: Gen, lines: seq<Line>)
    requires Inv(th, g) && Take(th, g, Input(lines)).Ok?
    ensures Inv(th, Take(th, g, Input(lines)).value)
  {
    ProcessSound(g.s, th, g.flight, lines);
  }

  /** Every OST that the step judges has a reading. */
  ghost predicate ReadingsThere(g: Gen, step: Step)
    requires Enabled(g, step)
  {
    match step
    case Measure(fill) => g.s.source.at.Keys <= fill.Keys && g.s.target.at.Keys <= fill.Keys
    case Input(lines) => forall o :: o in Load(g.s.caches, lines).at && o !in g.s.source.at ==> o in g.s.fill
    case _ => true
  }

  /** Every step keeps the invariant, provided only tasks in flight come back. The generator ends
      exactly on a refresh without a reading of a listed OST, and on input for a new OST without
      a reading. */
  lemma TakeKeeps(th: Thresholds, g: Gen, step: Step)
    requires Inv(th, g) && Enabled(g, step)
    requires step.Back? ==> (step.source, step.target) in g.flight
    ensures Take(th, g, step).Ok? ==> Inv(th, Take(th, g, step).value)
    ensures Take(th, g, step).Ok? <==> ReadingsThere(g, step)
  {
    match step {
      case StartPass =>
      case Round => RoundKeeps(th, g);
      case Back(source, target) => ReturnSound(g.s, th, g.flight, (source, target));
      case Measure(fill) => RefreshSound(g.s, th, g.flight, fill);
      case Input(lines) =>
        ProcessSound(g.s, th, g.flight, lines);
        if Take(th, g, step).Ok? { InputKeeps(th, g, lines); }
      case CleanUp => DeallocateSound(g.s, th, g.flight);
    }
  }

  /** In a state of a run the generator can take every step, but for a round behind the last source. */
  lemma EveryStepIsOpen(th: Thresholds, g: Gen, step: Step)
    requires Inv(th, g)
    ensures Enabled(g, step) <==> !(step.Round? && g.s.nextSource >= |g.s.keys|)
  {
  }

  // ---- PENDING_LOCK

  /** What is left of a PENDING_LOCK: it stays, unless the named task comes back. */
  ghost predicate Sticks(d: States, d2: States, o: nat, back: bool) {
    Get(d, o) == Some(PENDING_LOCK) ==> Get(d2, o) == Some(if back then LOCKED else PENDING_LOCK)
  }

  lemma VisitSticks(s: Sched, o: nat)
    requires s.nextSource < |s.keys|
    ensures Sticks(s.source, Visit(s).source, o, false) && Sticks(s.target, Visit(s).target, o, false)
  {
    VisitPushes(s);
  }

  lemma CleanUpSticks(s: Sched, o: nat)
    requires Legal(s)
    ensures Sticks(s.source, Deallocate(s).source, o, false) && Deallocate(s).target == s.target
  {
    var free := FreeOsts(s, s.caches.order);
    FreeOstsAre(s, s.caches.order);
    DropAllLeaves(s.source, free);
  }

  /** PENDING_LOCK is sticky: of all steps only the return of the task that names the OST ends it,
      in its own role and into LOCKED; no reading does. */
  lemma PendingLockIsSticky(th: Thresholds, g: Gen, step: Step, o: nat)
    requires Inv(th, g) && Enabled(g, step) && Take(th, g, step).Ok?
    ensures var s2 := Take(th, g, step).value.s;
      && Sticks(g.s.source, s2.source, o, step.Back? && step.source == o)
      && Sticks(g.s.target, s2.target, o, step.Back? && step.target == o)
  {
    match step {
      case StartPass =>
      case Round => VisitSticks(g.s, o);
      case Back(_, _) =>
      case Measure(fill) => RefreshSound(g.s, th, g.flight, fill);
      case Input(lines) => ProcessSound(g.s, th, g.flight, lines);
      case CleanUp => CleanUpSticks(g.s, o);
    }
  }

  // ---- runs

  ghost predicate IsRun(th: Thresholds, targets: seq<nat>, fill: Fill, gs: seq<Gen>, steps: seq<Step>) {
    && |gs| == |steps| + 1
    && Start(th, targets, fill) == Ok(gs[0])
    && forall i :: 0 <= i < |steps| ==> Follows(th, gs[i], steps[i], gs[i + 1])
  }

  ghost predicate Follows(th: Thresholds, g: Gen, step: Step, g2: Gen) {
    && Enabled(g, step) && Take(th, g, step) == Ok(g2)
    && (step.Back? ==> (step.source, step.target) in g.flight)
  }

  /** In every state of every run: the dictionaries agree, OST states cohere with the tasks in
      flight and with the readings, files are conserved, and pushes are good. */
  lemma {:induction false} RunKeeps(th: Thresholds, targets: seq<nat>, fill: Fill, gs: seq<Gen>, steps: seq<Step>, n: nat)
    requires IsRun(th, targets, fill, gs, steps) && n < |gs|
    ensures Inv(th, gs[n])
  {
    if n == 0 {
      StartInv(th, targets, fill);
    } else {
      RunKeeps(th, targets, fill, gs, steps, n - 1);
      assert Follows(th, gs[n - 1], steps[n - 1], gs[n]);
      TakeKeeps(th, gs[n - 1], steps[n - 1]);
    }
  }

  ghost predicate MigratesToItself(g: Gen) { exists p :: p in g.pushed && p.source == p.target }

  /** With the target threshold at most one above the source threshold no run ever pushes a task
      from an OST to itself ... */
  lemma NoSelfMigration(th: Thresholds, targets: seq<nat>, fill: Fill, gs: seq<Gen>, steps: seq<Step>, n: nat)
    requires IsRun(th, targets, fill, gs, steps) && n < |gs|
    requires th.target <= th.source + 1
    ensures !MigratesToItself(gs[n])
  {
    RunKeeps(th, targets, fill, gs, steps, n);
  }

  /** ... and with any higher target threshold some run does, for every OST: the code never
      compares source and target. */
  lemma SelfMigration(th: Thresholds, o: nat, filename: string) returns (fill: Fill, gs: seq<Gen>, steps: seq<Step>)
    requires th.target > th.source + 1
    ensures IsRun(th, [o], fill, gs, steps) && MigratesToItself(gs[|gs| - 1])
  {
    fill := map[o := th.source + 1];
    var item := Item(o, filename);
    steps := [Input([Entry(item)]), Round];
    var g0 := Gen(Sched([], [o], Dict([], map[]), Dict([], map[]), Dict([o], map[o := READY]), fill, 0, 0), {}, multiset{}, []);
    StartOfOne(th, o, fill);
    assert Start(th, [o], fill) == Ok(g0);
    var g1 := InputOfOne(th, g0, item);
    var p := Push(o, o, item);
    assert Choice(g1.s) == Some(p);
    var g2 := Take(th, g1, Round).value;
    assert p in g2.pushed;
    gs := [g0, g1, g2];
    assert Follows(th, gs[0], steps[0], gs[1]) && Follows(th, gs[1], steps[1], gs[2]);
  }

  lemma PutFirst<V>(o: nat, v: V)
    ensures Dict([], map[]).Put(o, v) == Dict([o], map[o := v])
  {
    assert [] + [o] == [o];
    assert map[][o := v] == map[o := v];
  }

  lemma StartOfOne(th: Thresholds, o: nat, fill: Fill)
    requires o in fill && fill[o] < th.target
    ensures UpdateAll(Dict([], map[]), AsTarget, th, fill, [o]) == Ok(Dict([o], map[o := READY]))
  {
    assert [o][..0] == [];
    PutFirst(o, READY);
  }

  lemma InputOfOne(th: Thresholds, g: Gen, item: Item) returns (g2: Gen)
    requires g.s.caches == Dict([], map[]) && g.s.source == Dict([], map[])
    requires item.ost in g.s.fill && g.s.fill[item.ost] > th.source
    ensures Take(th, g, Input([Entry(item)])) == Ok(g2)
    ensures g2.s.keys == [item.ost] && g2.s.source == Dict([item.ost], map[item.ost := READY])
    ensures g2.s.caches == Dict([item.ost], map[item.ost := [item]])
    ensures g2.s == g.s.(keys := g2.s.keys, source := g2.s.source, caches := g2.s.caches)
    ensures g2.pushed == g.pushed
  {
    var lines := [Entry(item)];
    assert lines[..0] == [];
    var c := Load(g.s.caches, lines);
    assert [] + [item] == [item];
    PutFirst(item.ost, [item]);
    PutFirst(item.ost, READY);
    assert Load(g.s.caches, []) == g.s.caches;
    assert c == AddEntry(g.s.caches, item);
    assert Allocate(g.s.source, c, th, g.s.fill, 0) == Ok(g.s.source);
    assert Allocate(g.s.source, c, th, g.s.fill, 1) == Ok(Dict([item.ost], map[item.ost := READY]));
    g2 := Take(th, g, Input(lines)).value;
  }
}
