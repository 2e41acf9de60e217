/** Two runs of the generator that lead to the limits of the matching pass: a state in which two
    passes push nothing although they could, and one whose pass looks at a target twice. */
module PassRuns {
  import opened Collections
  import opened Scheduler
  import opened SchedulerLaws
  import opened FileLaws
  import opened GeneratorRuns
  import opened Progress
  import Counter

  const TARGETS: seq<nat> := [3, 4]

  /** Target 3 has room and target 4 has not; source 7 is too full and source 8 is not. */
  function FirstFill(th: Thresholds): Fill {
    map[3 := th.target - 1, 4 := th.target, 7 := th.source + 1, 8 := th.source]
  }

  /** No target has room and all three sources are too full. */
  function LaterFill(th: Thresholds): Fill {
    map[3 := th.target, 4 := th.target, 7 := th.source + 1, 8 := th.source + 1, 9 := th.source + 1]
  }

  // ---- one more step of a run

  ghost predicate RunTo(th: Thresholds, gs: seq<Gen>, steps: seq<Step>, g: Gen) {
    IsRun(th, TARGETS, FirstFill(th), gs, steps) && gs[|steps|] == g
  }

  lemma RunOn(th: Thresholds, gs: seq<Gen>, steps: seq<Step>, g: Gen, step: Step, g2: Gen)
    requires RunTo(th, gs, steps, g) && Follows(th, g, step, g2)
    ensures RunTo(th, gs + [g2], steps + [step], g2)
  {
    var hs, more := gs + [g2], steps + [step];
    forall i | 0 <= i < |more| ensures Follows(th, hs[i], more[i], hs[i + 1]) {
      if i < |steps| { assert Follows(th, gs[i], steps[i], gs[i + 1]); }
    }
  }

  lemma RunLegal(th: Thresholds, gs: seq<Gen>, steps: seq<Step>, g: Gen)
    requires RunTo(th, gs, steps, g)
    ensures Legal(g.s)
  {
    RunKeeps(th, TARGETS, FirstFill(th), gs, steps, |steps|);
  }

  lemma OnInput(th: Thresholds, gs: seq<Gen>, steps: seq<Step>, g: Gen, item: Item, s2: Sched)
    returns (hs: seq<Gen>, more: seq<Step>, g2: Gen)
    requires RunTo(th, gs, steps, g) && g.s.caches.WF() && Process(g.s, th, [Entry(item)]) == Ok(s2)
    ensures RunTo(th, hs, more, g2) && g2.s == s2 && g2.flight == g.flight
  {
    g2 := g.(s := s2, accepted := g.accepted + Entries([Entry(item)]));
    RunOn(th, gs, steps, g, Input([Entry(item)]), g2);
    hs, more := gs + [g2], steps + [Input([Entry(item)])];
  }

  lemma OnRound(th: Thresholds, gs: seq<Gen>, steps: seq<Step>, g: Gen, p: Push, s2: Sched)
    returns (hs: seq<Gen>, more: seq<Step>, g2: Gen)
    requires RunTo(th, gs, steps, g) && g.s.nextSource < |g.s.keys| && Choice(g.s) == Some(p) && Visit(g.s) == s2
    ensures RunTo(th, hs, more, g2) && g2.s == s2 && g2.flight == g.flight + {(p.source, p.target)}
  {
    g2 := g.(s := s2, flight := g.flight + {(p.source, p.target)}, pushed := g.pushed + [p]);
    RunOn(th, gs, steps, g, Round, g2);
    hs, more := gs + [g2], steps + [Round];
  }

  lemma OnBack(th: Thresholds, gs: seq<Gen>, steps: seq<Step>, g: Gen, source: nat, target: nat, s2: Sched)
    returns (hs: seq<Gen>, more: seq<Step>, g2: Gen)
    requires RunTo(th, gs, steps, g) && (source, target) in g.flight && Return(g.s, source, target) == Ok(s2)
    ensures RunTo(th, hs, more, g2) && g2.s == s2 && g2.flight == g.flight - {(source, target)}
  {
    g2 := g.(s := s2, flight := g.flight - {(source, target)});
    RunOn(th, gs, steps, g, Back(source, target), g2);
    hs, more := gs + [g2], steps + [Back(source, target)];
  }

  lemma OnMeasure(th: Thresholds, gs: seq<Gen>, steps: seq<Step>, g: Gen, fill: Fill, s2: Sched)
    returns (hs: seq<Gen>, more: seq<Step>, g2: Gen)
    requires RunTo(th, gs, steps, g) && Refresh(g.s, th, fill) == Ok(s2)
    ensures RunTo(th, hs, more, g2) && g2.s == s2
  {
    g2 := g.(s := s2);
    RunOn(th, gs, steps, g, Measure(fill), g2);
    hs, more := gs + [g2], steps + [Measure(fill)];
  }

  // ---- one input line

  lemma LoadOne(c: Caches, item: Item)
    ensures Load(c, [Entry(item)]) == AddEntry(c, item)
  {
    assert [Entry(item)][..0] == [];
  }

  /** An entry for a new OST brings it at the end of the list. */
  lemma InputNew(th: Thresholds, s: Sched, item: Item)
    requires Legal(s) && item.ost !in s.caches.at && item.ost in s.fill
    ensures Process(s, th, [Entry(item)]) == Ok(s.(
        keys := s.keys + [item.ost], caches := s.caches.Put(item.ost, [item]),
        source := s.source.Put(item.ost, Judge(None, Passes(AsSource, th, s.fill[item.ost])))))
  {
    var c := AddEntry(s.caches, item);
    assert [] + [item] == [item];
    LoadOne(s.caches, item);
    SameKeys(s);
    AllocateLast(s.source, c, th, s.fill, item.ost);
  }

  lemma SameKeys(s: Sched)
    requires Legal(s)
    ensures s.source.WF() && s.caches.WF() && s.source.order == s.caches.order == s.keys
    ensures forall o :: o in s.caches.at <==> o in s.source.at
  {
  }

  lemma {:induction false} AllocateKnown(d: States, c: Caches, th: Thresholds, fill: Fill, n: nat)
    requires c.WF() && n <= |c.order| && forall i :: 0 <= i < n ==> c.order[i] in d.at
    ensures Allocate(d, c, th, fill, n) == Ok(d)
  {
    if n > 0 { AllocateKnown(d, c, th, fill, n - 1); }
  }

  lemma AllocateLast(d: States, c: Caches, th: Thresholds, fill: Fill, ost: nat)
    requires d.WF() && c.WF() && c.order == d.order + [ost] && ost !in d.at && ost in fill && c.at[ost] != []
    ensures Allocate(d, c, th, fill, |c.order|) == Ok(d.Put(ost, Judge(None, Passes(AsSource, th, fill[ost]))))
  {
    var n := |d.order|;
    forall i | 0 <= i < n ensures c.order[i] in d.at { assert c.order[i] in d.order; }
    AllocateKnown(d, c, th, fill, n);
    AllocateUnfold(d, c, th, fill, n + 1, d);
  }

  /** An entry for a known OST comes last in its cache. */
  lemma InputOld(th: Thresholds, s: Sched, item: Item)
    requires Legal(s) && item.ost in s.caches.at
    ensures Process(s, th, [Entry(item)]) == Ok(s.(caches := s.caches.Put(item.ost, s.caches.at[item.ost] + [item])))
  {
    LoadOne(s.caches, item);
    SameKeys(s);
    AllocateKnown(s.source, AddEntry(s.caches, item), th, s.fill, |s.keys|);
  }

  /** The state with one more READY source. */
  function Added(s: Sched, item: Item): Sched {
    s.(keys := s.keys + [item.ost], caches := s.caches.Put(item.ost, [item]), source := s.source.Put(item.ost, READY))
  }

  lemma AddedWaits(s: Sched, item: Item, o: nat)
    ensures Eligible(Added(s, item), o) <==> o == item.ost || Eligible(s, o)
  {
  }

  lemma OnNew(th: Thresholds, gs: seq<Gen>, steps: seq<Step>, g: Gen, item: Item)
    returns (hs: seq<Gen>, more: seq<Step>, g2: Gen)
    requires RunTo(th, gs, steps, g) && item.ost !in g.s.caches.at
    requires item.ost in g.s.fill && g.s.fill[item.ost] > th.source
    ensures RunTo(th, hs, more, g2) && g2.s == Added(g.s, item)
  {
    RunLegal(th, gs, steps, g);
    InputNew(th, g.s, item);
    hs, more, g2 := OnInput(th, gs, steps, g, item, Added(g.s, item));
  }

  // ---- the common beginning: source 7 pushes to target 3, and the task comes back

  const FILE: Item := Item(7, "a")
  const PUSHED: Item := Item(7, "b")

  function Empty(th: Thresholds): Sched {
    Sched([], TARGETS, Dict([], map[]), Dict([], map[]), Dict(TARGETS, map[3 := READY, 4 := LOCKED]), FirstFill(th), 0, 0)
  }

  /** Only source 7 is listed, and both cursors stand behind what the pass looked at. */
  function Alone(th: Thresholds, stock: seq<Item>, state: OstState, cursor: nat): Sched {
    Sched([7], TARGETS, Dict([7], map[7 := stock]), Dict([7], map[7 := state]),
          Dict(TARGETS, map[3 := state, 4 := LOCKED]), FirstFill(th), cursor, cursor)
  }

  lemma UpdateOne(d: States, role: Role, th: Thresholds, fill: Fill, o: nat)
    ensures UpdateAll(d, role, th, fill, [o]) == Update(d, role, th, fill, o)
  {
    assert [o][..0] == [];
  }

  lemma UpdateTwo(d: States, role: Role, th: Thresholds, fill: Fill, o1: nat, o2: nat)
    requires o1 in fill
    ensures UpdateAll(d, role, th, fill, [o1, o2]) ==
      Update(Update(d, role, th, fill, o1).value, role, th, fill, o2)
  {
    assert [o1, o2][..1] == [o1];
    UpdateOne(d, role, th, fill, o1);
  }

  lemma Starts(th: Thresholds)
    ensures Start(th, TARGETS, FirstFill(th)) == Ok(Gen(Empty(th), {}, multiset{}, []))
  {
    UpdateTwo(Dict([], map[]), AsTarget, th, FirstFill(th), 3, 4);
    PutFirst(3, READY);
    assert [3] + [4] == TARGETS && map[3 := READY][4 := LOCKED] == map[3 := READY, 4 := LOCKED];
    assert Dict([3], map[3 := READY]).Put(4, LOCKED) == Dict(TARGETS, map[3 := READY, 4 := LOCKED]);
  }

  lemma LoadsFile(th: Thresholds)
    ensures Added(Empty(th), FILE) == Alone(th, [FILE], READY, 0)
  {
    PutFirst(7, [FILE]);
    PutFirst(7, READY);
  }

  lemma LoadsPushed(th: Thresholds)
    ensures var s := Alone(th, [FILE], READY, 0);
      s.(caches := s.caches.Put(7, [FILE] + [PUSHED])) == Alone(th, [FILE, PUSHED], READY, 0)
  {
    assert [FILE] + [PUSHED] == [FILE, PUSHED];
    assert map[7 := [FILE]][7 := [FILE, PUSHED]] == map[7 := [FILE, PUSHED]];
  }

  lemma Pushes7(th: Thresholds)
    ensures var s := Alone(th, [FILE, PUSHED], READY, 0);
      Choice(s) == Some(Push(7, 3, PUSHED)) && Visit(s) == Alone(th, [FILE], BLOCKED, 1)
  {
    var s := Alone(th, [FILE, PUSHED], READY, 0);
    assert Scan(s.targets, s.target.at, 0) == 0;
    assert [FILE, PUSHED][..1] == [FILE];
    assert map[7 := [FILE, PUSHED]][7 := [FILE]] == map[7 := [FILE]];
    assert map[7 := READY][7 := BLOCKED] == map[7 := BLOCKED];
    assert s.target.at[3 := BLOCKED] == map[3 := BLOCKED, 4 := LOCKED];
  }

  lemma Returns7(th: Thresholds)
    ensures Return(Alone(th, [FILE], BLOCKED, 1), 7, 3) == Ok(Alone(th, [FILE], READY, 1))
  {
    var s := Alone(th, [FILE], BLOCKED, 1);
    assert s.source.at[7 := READY] == map[7 := READY];
    assert s.target.at[3 := READY] == map[3 := READY, 4 := LOCKED];
  }

  lemma Beginning(th: Thresholds) returns (gs: seq<Gen>, steps: seq<Step>, g: Gen)
    ensures RunTo(th, gs, steps, g) && g.s == Alone(th, [FILE], READY, 1)
  {
    g := Gen(Empty(th), {}, multiset{}, []);
    gs, steps := [g], [];
    Starts(th);
    LoadsFile(th);
    gs, steps, g := OnNew(th, gs, steps, g, FILE);
    RunLegal(th, gs, steps, g);
    InputOld(th, g.s, PUSHED);
    LoadsPushed(th);
    gs, steps, g := OnInput(th, gs, steps, g, PUSHED, Alone(th, [FILE, PUSHED], READY, 0));
    gs, steps, g := PushAndReturn(th, gs, steps, g);
  }

  lemma PushAndReturn(th: Thresholds, gs: seq<Gen>, steps: seq<Step>, g: Gen)
    returns (hs: seq<Gen>, more: seq<Step>, g2: Gen)
    requires RunTo(th, gs, steps, g) && g.s == Alone(th, [FILE, PUSHED], READY, 0)
    ensures RunTo(th, hs, more, g2) && g2.s == Alone(th, [FILE], READY, 1)
  {
    Pushes7(th);
    hs, more, g2 := OnRound(th, gs, steps, g, Push(7, 3, PUSHED), Alone(th, [FILE], BLOCKED, 1));
    Returns7(th);
    hs, more, g2 := OnBack(th, hs, more, g2, 7, 3, Alone(th, [FILE], READY, 1));
  }

  // ---- two quiet passes

  lemma BehindQuiet(th: Thresholds, s: Sched)
    requires Legal(s) && s.keys == [7, 8] && s.targets == TARGETS && s.nextSource == 1 && s.nextTarget == 1
    requires Eligible(s, 7) && !Eligible(s, 8) && Ready(s.target.at, 3) && !Ready(s.target.at, 4)
    ensures SourceWaits(s, 0) && TargetWaits(s) && PassPushes(s) == [] && PassPushes(Pass(s)) == []
  {
    assert Eligible(s, s.keys[0]) && !Eligible(s, s.keys[1]);
    assert Ready(s.target.at, s.targets[0]);
    assert Waiting(s, 2) == 0 && Waiting(s, 1) == 0 && Waiting(s, 0) == 1;
    WaitingIs(s, 1);
    TwoQuietPassesIff(s);
  }

  /** Three passes are the least bound: a run of the generator, with one more input, leads to a
      state in which a source and a target wait and two passes push nothing. */
  lemma CandidatesBehindCursors(th: Thresholds) returns (gs: seq<Gen>, steps: seq<Step>, g: Gen)
    ensures RunTo(th, gs, steps, g)
    ensures SourceWaits(g.s, 0) && TargetWaits(g.s) && PassPushes(g.s) == [] && PassPushes(Pass(g.s)) == []
  {
    gs, steps, g := Beginning(th);
    RunLegal(th, gs, steps, g);
    var s := g.s;
    var c := Item(8, "c");
    InputNew(th, s, c);
    assert [7] + [8] == [7, 8];
    gs, steps, g := OnInput(th, gs, steps, g, c,
      s.(keys := [7, 8], caches := s.caches.Put(8, [c]), source := s.source.Put(8, LOCKED)));
    RunLegal(th, gs, steps, g);
    BehindQuiet(th, g.s);
  }

  // ---- a target looked at twice

  /** No target is READY; two sources wait, from the source cursor on. */
  lemma OverLooks(s: Sched)
    requires s.keys == [7, 8, 9] && s.targets == TARGETS && s.nextSource == 1 && s.nextTarget == 1
    requires Eligible(s, 8) && Eligible(s, 9) && !Ready(s.target.at, 3) && !Ready(s.target.at, 4)
    ensures Counter.PassLooks(s) == 3
  {
    assert Eligible(s, s.keys[1]) && Eligible(s, s.keys[2]);
    assert Waiting(s, 3) == 0 && Waiting(s, 2) == 1 && Waiting(s, 1) == 2;
    forall j | 0 <= j < |s.targets| ensures !Ready(s.target.at, s.targets[j]) {}
    Counter.Searches(s);
  }

  function Locked(th: Thresholds): Sched {
    Alone(th, [FILE], READY, 1).(target := Dict(TARGETS, map[3 := LOCKED, 4 := LOCKED]), fill := LaterFill(th))
  }

  lemma TwoMoreShape(th: Thresholds)
    ensures var s := Added(Added(Locked(th), Item(8, "c")), Item(9, "d"));
      && s.keys == [7, 8, 9] && s.targets == TARGETS && s.nextSource == 1 && s.nextTarget == 1
      && !Ready(s.target.at, 3) && !Ready(s.target.at, 4)
  {
    assert [7] + [8] + [9] == [7, 8, 9];
  }

  lemma TwoMore(th: Thresholds, s: Sched)
    requires s == Added(Added(Locked(th), Item(8, "c")), Item(9, "d"))
    ensures Counter.PassLooks(s) == 3 && |s.targets| == 2
  {
    TwoMoreShape(th);
    var s1 := Added(Locked(th), Item(8, "c"));
    AddedWaits(Locked(th), Item(8, "c"), 8);
    AddedWaits(s1, Item(9, "d"), 8);
    AddedWaits(s1, Item(9, "d"), 9);
    OverLooks(s);
  }

  lemma LocksSource(th: Thresholds)
    ensures var d: States := Dict([7], map[7 := READY]); UpdateAll(d, AsSource, th, LaterFill(th), [7]) == Ok(d)
  {
    var d: States := Dict([7], map[7 := READY]);
    UpdateOne(d, AsSource, th, LaterFill(th), 7);
    assert d.at[7 := READY] == d.at;
  }

  lemma LockedPuts()
    ensures Dict(TARGETS, map[3 := READY, 4 := LOCKED]).Put(3, LOCKED) == Dict(TARGETS, map[3 := LOCKED, 4 := LOCKED])
    ensures Dict(TARGETS, map[3 := LOCKED, 4 := LOCKED]).Put(4, LOCKED) == Dict(TARGETS, map[3 := LOCKED, 4 := LOCKED])
  {
    assert map[3 := READY, 4 := LOCKED][3 := LOCKED] == map[3 := LOCKED, 4 := LOCKED];
    assert map[3 := LOCKED, 4 := LOCKED][4 := LOCKED] == map[3 := LOCKED, 4 := LOCKED];
  }

  lemma LocksOne(d: States, th: Thresholds, o: nat)
    requires o in d.at && (d.at[o] == READY || d.at[o] == LOCKED) && (o == 3 || o == 4)
    ensures Update(d, AsTarget, th, LaterFill(th), o) == Ok(d.Put(o, LOCKED))
  {
  }

  lemma LocksTarget(th: Thresholds)
    ensures UpdateAll(Dict(TARGETS, map[3 := READY, 4 := LOCKED]), AsTarget, th, LaterFill(th), TARGETS) ==
      Ok(Dict(TARGETS, map[3 := LOCKED, 4 := LOCKED]))
  {
    LockedPuts();
    LocksOne(Dict(TARGETS, map[3 := READY, 4 := LOCKED]), th, 3);
    LocksOne(Dict(TARGETS, map[3 := LOCKED, 4 := LOCKED]), th, 4);
    UpdateTwo(Dict(TARGETS, map[3 := READY, 4 := LOCKED]), AsTarget, th, LaterFill(th), 3, 4);
  }

  lemma Locks(th: Thresholds)
    ensures Refresh(Alone(th, [FILE], READY, 1), th, LaterFill(th)) == Ok(Locked(th))
  {
    LocksSource(th);
    LocksTarget(th);
  }

  /** Another run leads to a pass that looks at three targets although there are two. */
  lemma CounterOvershoots(th: Thresholds) returns (gs: seq<Gen>, steps: seq<Step>, g: Gen)
    ensures RunTo(th, gs, steps, g)
    ensures Counter.PassLooks(g.s) == 3 && |g.s.targets| == 2
  {
    gs, steps, g := Beginning(th);
    Locks(th);
    gs, steps, g := OnMeasure(th, gs, steps, g, LaterFill(th), Locked(th));
    gs, steps, g := OnNew(th, gs, steps, g, Item(8, "c"));
    gs, steps, g := OnNew(th, gs, steps, g, Item(9, "d"));
    TwoMore(th, g.s);
  }
}
