/** What every step of the migration generator keeps. `flight` is the set of (source, target)
    pairs whose task was pushed and has not come back. */
module SchedulerLaws {
  import opened Collections
  import opened Scheduler

  type Flight = set<(nat, nat)>

  ghost function Sources(flight: Flight): set<nat> { set f | f in flight :: f.0 }
  ghost function Targets(flight: Flight): set<nat> { set f | f in flight :: f.1 }

  /** READY and BLOCKED OSTs pass the strict threshold of their role on the current reading. */
  ghost predicate Fits(d: States, role: Role, th: Thresholds, fill: Fill) {
    forall o :: o in d.at && (d.at[o] == READY || d.at[o] == BLOCKED) ==> o in fill && Passes(role, th, fill[o])
  }

  /** Every cached entry lies in its own OST's cache. */
  ghost predicate Filed(caches: Caches) {
    forall o, e :: o in caches.at && e in caches.at[o] ==> e.ost == o
  }

  /** One task at most per source and per target. */
  ghost predicate OneToOne(flight: Flight) {
    forall f, g :: f in flight && g in flight && (f.0 == g.0 || f.1 == g.1) ==> f == g
  }

  /** An OST is BLOCKED or PENDING_LOCK exactly when a task in flight names it in that role. */
  ghost predicate Tracked(d: States, named: set<nat>) {
    && named <= d.at.Keys
    && forall o :: o in d.at ==> (Busy(d.at[o]) <==> o in named)
  }

  /** The invariant of the generator. */
  ghost predicate Sound(s: Sched, th: Thresholds, flight: Flight) {
    && Legal(s)
    && Filed(s.caches)
    && Fits(s.source, AsSource, th, s.fill)
    && Fits(s.target, AsTarget, th, s.fill)
    && OneToOne(flight)
    && Tracked(s.source, Sources(flight))
    && Tracked(s.target, Targets(flight))
  }

  // ---- dispatch and the pass

  ghost predicate Dispatchable(s: Sched, p: Push) {
    && Eligible(s, p.source)
    && p.item == s.caches.at[p.source][|s.caches.at[p.source]| - 1]
    && p.target in s.target.at && s.target.at[p.target] == READY
  }

  lemma TrackMore(d: States, named: set<nat>, o: nat)
    requires Tracked(d, named) && o in d.at
    ensures Tracked(d.Put(o, BLOCKED), named + {o})
  {
  }

  /** A pair of free OSTs joins the tasks in flight. */
  lemma FlightGrows(flight: Flight, f: (nat, nat))
    requires OneToOne(flight) && f.0 !in Sources(flight) && f.1 !in Targets(flight)
    ensures f !in flight && OneToOne(flight + {f})
    ensures Sources(flight + {f}) == Sources(flight) + {f.0}
    ensures Targets(flight + {f}) == Targets(flight) + {f.1}
  {
    assert forall g :: g in flight ==> g.0 in Sources(flight) && g.1 in Targets(flight);
  }

  /** A pair leaves the tasks in flight and frees its two OSTs. */
  lemma FlightShrinks(flight: Flight, f: (nat, nat))
    requires OneToOne(flight) && f in flight
    ensures OneToOne(flight - {f})
    ensures Sources(flight - {f}) == Sources(flight) - {f.0}
    ensures Targets(flight - {f}) == Targets(flight) - {f.1}
  {
    var less := flight - {f};
    forall g | g in flight && g != f ensures g.0 in Sources(less) && g.1 in Targets(less) && g.0 != f.0 && g.1 != f.1 {
      assert g in less;
    }
    forall o | o in Sources(flight) && o != f.0 ensures o in Sources(less) {
      var g :| g in flight && g.0 == o;
    }
    forall o | o in Targets(flight) && o != f.1 ensures o in Targets(less) {
      var g :| g in flight && g.1 == o;
    }
  }

  lemma FiledShorter(caches: Caches, o: nat, n: nat)
    requires Filed(caches) && o in caches.at && n <= |caches.at[o]|
    ensures Filed(caches.Put(o, caches.at[o][..n]))
  {
    var c := caches.Put(o, caches.at[o][..n]);
    forall k, e | k in c.at && e in c.at[k] ensures e.ost == k {
      assert e in caches.at[k];
    }
  }

  lemma DispatchSound(s: Sched, th: Thresholds, flight: Flight, p: Push)
    requires Sound(s, th, flight) && Dispatchable(s, p)
    ensures Sound(Dispatch(s, p), th, flight + {(p.source, p.target)})
    ensures (p.source, p.target) !in flight
    ensures p.item.ost == p.source
  {
    FlightGrows(flight, (p.source, p.target));
    TrackMore(s.source, Sources(flight), p.source);
    TrackMore(s.target, Targets(flight), p.target);
    FiledShorter(s.caches, p.source, |s.caches.at[p.source]| - 1);
  }

  /** A round that pushes does what one dispatch does, apart from the cursors. */
  lemma VisitPushes(s: Sched)
    requires s.nextSource < |s.keys|
    ensures var v := Visit(s); var c := Choice(s);
      if c.None? then v == s.(nextSource := v.nextSource, nextTarget := v.nextTarget)
      else
        && Dispatchable(s, c.value) && c.value.source == s.keys[s.nextSource]
        && v == Dispatch(s, c.value).(nextSource := v.nextSource, nextTarget := v.nextTarget)
  {
  }

  /** The pairs, the sources and the targets of a list of pushes. */
  ghost function Pairs(ps: seq<Push>): Flight { set p | p in ps :: (p.source, p.target) }
  ghost function From(ps: seq<Push>): set<nat> { set p | p in ps :: p.source }
  ghost function Into(ps: seq<Push>): set<nat> { set p | p in ps :: p.target }

  lemma SetsOfCons(p: Push, ps: seq<Push>)
    ensures Pairs([p] + ps) == {(p.source, p.target)} + Pairs(ps)
    ensures From([p] + ps) == {p.source} + From(ps)
    ensures Into([p] + ps) == {p.target} + Into(ps)
  {
    assert forall q :: q in [p] + ps <==> q == p || q in ps;
  }

  /** d2 is d1 with exactly the given OSTs turned BLOCKED. */
  ghost predicate Blocks(d1: States, d2: States, osts: set<nat>) {
    && d2.order == d1.order && d2.at.Keys == d1.at.Keys
    && forall o :: o in d1.at ==> d2.at[o] == if o in osts then BLOCKED else d1.at[o]
  }

  /** c2 is c1 with the last file of exactly the given caches taken away. */
  ghost predicate Pops(c1: Caches, c2: Caches, osts: set<nat>) {
    && c2.order == c1.order && c2.at.Keys == c1.at.Keys
    && (forall o :: o in c1.at && o !in osts ==> c2.at[o] == c1.at[o])
    && (forall o :: o in c1.at && o in osts ==> c1.at[o] != [] && c2.at[o] == c1.at[o][..|c1.at[o]| - 1])
  }

  ghost predicate Pairwise(ps: seq<Push>) {
    forall i, j :: 0 <= i < j < |ps| ==> ps[i].source != ps[j].source && ps[i].target != ps[j].target
  }

  /** s2 is s1 after dispatching ps, which match sources with files to targets, all READY in s1. */
  ghost predicate Matches(s1: Sched, s2: Sched, ps: seq<Push>) {
    && Pairwise(ps)
    && (forall p :: p in ps ==> Dispatchable(s1, p))
    && s2.keys == s1.keys && s2.targets == s1.targets && s2.fill == s1.fill
    && Blocks(s1.source, s2.source, From(ps))
    && Blocks(s1.target, s2.target, Into(ps))
    && Pops(s1.caches, s2.caches, From(ps))
  }

  lemma BlocksStep(d: States, d2: States, o: nat, osts: set<nat>)
    requires o in d.at && Blocks(d.Put(o, BLOCKED), d2, osts)
    ensures Blocks(d, d2, {o} + osts)
  {
  }

  lemma PopsStep(c: Caches, c2: Caches, o: nat, osts: set<nat>)
    requires o in c.at && c.at[o] != [] && o !in osts
    requires Pops(c.Put(o, c.at[o][..|c.at[o]| - 1]), c2, osts)
    ensures Pops(c, c2, {o} + osts)
  {
  }

  lemma PairwiseStep(p: Push, ps: seq<Push>)
    requires Pairwise(ps) && p.source !in From(ps) && p.target !in Into(ps)
    ensures Pairwise([p] + ps)
  {
    var all := [p] + ps;
    forall i, j | 0 <= i < j < |all| ensures all[i].source != all[j].source && all[i].target != all[j].target {
      assert all[j] == ps[j - 1] && all[j] in ps;
      assert i > 0 ==> all[i] == ps[i - 1];
    }
  }

  /** What can be dispatched after p could be dispatched before, from and to other OSTs. */
  lemma DispatchableBefore(s: Sched, p: Push, q: Push)
    requires Dispatchable(s, p) && Dispatchable(Dispatch(s, p), q)
    ensures Dispatchable(s, q) && q.source != p.source && q.target != p.target
  {
  }

  lemma MatchesStep(s: Sched, s2: Sched, p: Push, ps: seq<Push>)
    requires Dispatchable(s, p) && Matches(Dispatch(s, p), s2, ps)
    ensures Matches(s, s2, [p] + ps)
  {
    SetsOfCons(p, ps);
    forall q | q in ps ensures Dispatchable(s, q) && q.source != p.source && q.target != p.target {
      DispatchableBefore(s, p, q);
    }
    assert p.source !in From(ps) && p.target !in Into(ps);
    PairwiseStep(p, ps);
    BlocksStep(s.source, s2.source, p.source, From(ps));
    BlocksStep(s.target, s2.target, p.target, Into(ps));
    PopsStep(s.caches, s2.caches, p.source, From(ps));
  }

  /** Matching does not depend on the cursors. */
  lemma MatchesAnyCursor(s: Sched, s1: Sched, s2: Sched, ps: seq<Push>)
    requires s1 == s.(nextSource := s1.nextSource, nextTarget := s1.nextTarget)
    requires Matches(s1, s2, ps)
    ensures Matches(s, s2, ps)
  {
    assert forall q :: q in ps ==> Dispatchable(s1, q);
  }

  lemma RoundMatches(s: Sched, s2: Sched, ps: seq<Push>)
    requires s.nextSource < |s.keys| && Matches(Visit(s), s2, ps)
    ensures Matches(s, s2, (match Choice(s) case None => [] case Some(p) => [p]) + ps)
  {
    VisitPushes(s);
    match Choice(s) {
      case None =>
        MatchesAnyCursor(s, Visit(s), s2, ps);
        assert [] + ps == ps;
      case Some(p) =>
        MatchesAnyCursor(Dispatch(s, p), Visit(s), s2, ps);
        MatchesStep(s, s2, p, ps);
    }
  }

  lemma UnfoldRound(s: Sched, checked: int)
    requires !Over(s, checked)
    ensures After(s, checked) == After(Visit(s), checked + Checks(s))
    ensures Pushes(s, checked) ==
      (match Choice(s) case None => [] case Some(p) => [p]) + Pushes(Visit(s), checked + Checks(s))
  {
  }

  lemma MatchesNothing(s: Sched)
    ensures Matches(s, s, [])
  {
  }

  lemma {:induction false} RoundsMatch(s: Sched, checked: int) returns (s2: Sched, ps: seq<Push>)
    ensures s2 == After(s, checked) && ps == Pushes(s, checked)
    ensures Matches(s, s2, ps)
    decreases |s.keys| - s.nextSource
  {
    if Over(s, checked) {
      s2, ps := s, [];
      MatchesNothing(s);
    } else {
      s2, ps := RoundsMatch(Visit(s), checked + Checks(s));
      RoundMatches(s, s2, ps);
      ps := (match Choice(s) case None => [] case Some(p) => [p]) + ps;
      UnfoldRound(s, checked);
    }
  }

  lemma VisitLegal(s: Sched)
    requires Legal(s) && s.nextSource < |s.keys|
    ensures Legal(Visit(s))
  {
  }

  lemma {:induction false} RoundsLegal(s: Sched, checked: int)
    requires Legal(s)
    ensures Legal(After(s, checked))
    decreases |s.keys| - s.nextSource
  {
    if !Over(s, checked) {
      VisitLegal(s);
      RoundsLegal(Visit(s), checked + Checks(s));
    }
  }

  /** Each pass pushes a matching between sources that were READY with files and targets that
      were READY; exactly the matched OSTs become BLOCKED, each matched cache loses its last file,
      which is the one pushed, and the target cursor stays in range. */
  lemma PassIsMatching(s: Sched)
    requires Legal(s)
    ensures Matches(s, Pass(s), PassPushes(s)) && Legal(Pass(s))
  {
    var s2, ps := RoundsMatch(Rewind(s), 0);
    RoundsLegal(Rewind(s), 0);
  }

  /** The pairs in flight after a round. */
  ghost function FlightAfter(s: Sched, flight: Flight): Flight
    requires s.nextSource < |s.keys|
  {
    match Choice(s) case None => flight case Some(p) => flight + {(p.source, p.target)}
  }

  /** One round of the pass keeps the invariant. */
  lemma VisitSound(s: Sched, th: Thresholds, flight: Flight)
    requires Sound(s, th, flight) && s.nextSource < |s.keys|
    ensures Sound(Visit(s), th, FlightAfter(s, flight))
    ensures Choice(s).Some? ==>
      Dispatchable(s, Choice(s).value) && (Choice(s).value.source, Choice(s).value.target) !in flight
  {
    VisitPushes(s);
    if Choice(s).Some? { DispatchSound(s, th, flight, Choice(s).value); }
  }

  // ---- a returned task

  /** r is d after the task on o came back: BLOCKED turns READY, PENDING_LOCK turns LOCKED. */
  ghost predicate Freed(d: States, r: States, o: nat) {
    && r.order == d.order && r.at.Keys == d.at.Keys
    && (forall k :: k in d.at && k != o ==> r.at[k] == d.at[k])
    && o in d.at
    && ((d.at[o] == BLOCKED && r.at[o] == READY) || (d.at[o] == PENDING_LOCK && r.at[o] == LOCKED))
  }

  lemma ReleaseFrees(d: States, o: nat)
    ensures Release(d, o).Ok? <==> o in d.at && (d.at[o] == BLOCKED || d.at[o] == PENDING_LOCK)
    ensures Release(d, o).Ok? ==> Freed(d, Release(d, o).value, o)
  {
  }

  /** A named OST can be released, and is then free. */
  lemma ReleaseTracked(d: States, role: Role, th: Thresholds, fill: Fill, named: set<nat>, o: nat)
    requires d.WF() && Tracked(d, named) && Fits(d, role, th, fill) && o in named
    ensures Release(d, o).Ok?
    ensures var r := Release(d, o).value; r.WF() && r.order == d.order && Tracked(r, named - {o}) && Fits(r, role, th, fill)
  {
  }

  /** A task in flight can always be returned: its two OSTs are known and busy. Each turns READY,
      or LOCKED when a bad reading arrived meanwhile. */
  lemma ReturnSound(s: Sched, th: Thresholds, flight: Flight, f: (nat, nat))
    requires Sound(s, th, flight) && f in flight
    ensures Return(s, f.0, f.1).Ok?
    ensures Sound(Return(s, f.0, f.1).value, th, flight - {f})
    ensures var r := Return(s, f.0, f.1).value;
      && Freed(s.source, r.source, f.0) && Freed(s.target, r.target, f.1)
      && r == s.(source := r.source, target := r.target)
  {
    assert f.0 in Sources(flight) && f.1 in Targets(flight);
    FlightShrinks(flight, f);
    ReleaseFrees(s.source, f.0);
    ReleaseFrees(s.target, f.1);
    ReleaseTracked(s.source, AsSource, th, s.fill, Sources(flight), f.0);
    ReleaseTracked(s.target, AsTarget, th, s.fill, Targets(flight), f.1);
  }

  /** The generator's own inconsistency check raises exactly when the pair is not busy. */
  lemma ReturnRaises(s: Sched, source: nat, target: nat)
    ensures Return(s, source, target).Ok? <==>
      && source in s.source.at && (s.source.at[source] == BLOCKED || s.source.at[source] == PENDING_LOCK)
      && target in s.target.at && (s.target.at[target] == BLOCKED || s.target.at[target] == PENDING_LOCK)
  {
  }

  // ---- fill levels

  /** r is d with the listed OSTs judged by the reading. */
  ghost predicate Judged(d: States, r: States, role: Role, th: Thresholds, fill: Fill, osts: seq<nat>) {
    && r.order == d.order && r.at.Keys == d.at.Keys
    && (forall o :: o in d.at && o !in osts ==> r.at[o] == d.at[o])
    && (forall o :: o in d.at && o in osts ==> o in fill && r.at[o] == Judge(Some(d.at[o]), Passes(role, th, fill[o])))
  }

  lemma {:induction false} UpdateAllPointwise(d: States, role: Role, th: Thresholds, fill: Fill, osts: seq<nat>)
    requires d.WF() && Distinct(osts)
    requires forall o :: o in osts ==> o in d.at
    ensures UpdateAll(d, role, th, fill, osts).Ok? <==> forall o :: o in osts ==> o in fill
    ensures UpdateAll(d, role, th, fill, osts).Ok? ==>
      Judged(d, UpdateAll(d, role, th, fill, osts).value, role, th, fill, osts)
  {
    if osts != [] {
      var init, last := osts[..|osts| - 1], osts[|osts| - 1];
      assert osts == init + [last];
      assert Distinct(init) && last !in init;
      UpdateAllPointwise(d, role, th, fill, init);
    }
  }

  lemma JudgedAll(d: States, r: States, role: Role, th: Thresholds, fill: Fill, named: set<nat>)
    requires d.WF() && Judged(d, r, role, th, fill, d.order) && Tracked(d, named)
    ensures r.WF() && Fits(r, role, th, fill) && Tracked(r, named)
  {
    assert forall o :: o in d.at ==> o in d.order;
  }

  /** Judging every OST of a dictionary by a new reading makes it fit and forgets no task. */
  lemma JudgedFits(d: States, role: Role, th: Thresholds, fill: Fill, named: set<nat>)
    requires d.WF() && Tracked(d, named)
    ensures UpdateAll(d, role, th, fill, d.order).Ok? <==> d.at.Keys <= fill.Keys
    ensures UpdateAll(d, role, th, fill, d.order).Ok? ==>
      var r := UpdateAll(d, role, th, fill, d.order).value;
      r.WF() && Judged(d, r, role, th, fill, d.order) && Fits(r, role, th, fill) && Tracked(r, named)
  {
    UpdateAllPointwise(d, role, th, fill, d.order);
    if UpdateAll(d, role, th, fill, d.order).Ok? {
      JudgedAll(d, UpdateAll(d, role, th, fill, d.order).value, role, th, fill, named);
    }
  }

  /** What a reading makes of a known OST. */
  ghost predicate Turns(was: OstState, is_: OstState, good: bool) {
    && (is_ == READY <==> (was == READY || was == LOCKED) && good)
    && (is_ == LOCKED <==> (was == READY || was == LOCKED) && !good)
    && (is_ == BLOCKED <==> was == BLOCKED && good)
    && (is_ == PENDING_LOCK <==> was == PENDING_LOCK || (was == BLOCKED && !good))
  }

  /** Every source turns by the strict threshold above which it is too full. */
  ghost predicate SourcesTurn(d: States, r: States, th: Thresholds, fill: Fill) {
    && r.order == d.order && r.at.Keys == d.at.Keys
    && forall o :: o in d.at ==> o in fill && Turns(d.at[o], r.at[o], fill[o] > th.source)
  }

  /** Every target turns by the strict threshold below which it has room. */
  ghost predicate TargetsTurn(d: States, r: States, th: Thresholds, fill: Fill) {
    && r.order == d.order && r.at.Keys == d.at.Keys
    && forall o :: o in d.at ==> o in fill && Turns(d.at[o], r.at[o], fill[o] < th.target)
  }

  lemma JudgeTurns(was: OstState, good: bool)
    ensures Turns(was, Judge(Some(was), good), good)
  {
  }

  lemma JudgedTurns(d: States, r: States, role: Role, th: Thresholds, fill: Fill)
    requires d.WF() && Judged(d, r, role, th, fill, d.order)
    ensures r.order == d.order && r.at.Keys == d.at.Keys
    ensures forall o :: o in d.at ==> o in fill && Turns(d.at[o], r.at[o], Passes(role, th, fill[o]))
  {
    forall o | o in d.at ensures o in fill && Turns(d.at[o], r.at[o], Passes(role, th, fill[o])) {
      JudgeTurns(d.at[o], Passes(role, th, fill[o]));
    }
  }

  /** A refresh raises exactly when a listed OST has no reading; otherwise every OST turns once by the
      new reading, no task is forgotten, READY means eligible again and nothing else changes. */
  lemma RefreshSound(s: Sched, th: Thresholds, flight: Flight, fill: Fill)
    requires Sound(s, th, flight)
    ensures Refresh(s, th, fill).Ok? <==> s.source.at.Keys <= fill.Keys && s.target.at.Keys <= fill.Keys
    ensures Refresh(s, th, fill).Ok? ==>
      var r := Refresh(s, th, fill).value;
      && Sound(r, th, flight)
      && SourcesTurn(s.source, r.source, th, fill) && TargetsTurn(s.target, r.target, th, fill)
      && r == s.(source := r.source, target := r.target, fill := fill)
  {
    JudgedFits(s.source, AsSource, th, fill, Sources(flight));
    JudgedFits(s.target, AsTarget, th, fill, Targets(flight));
    if Refresh(s, th, fill).Ok? {
      var r := Refresh(s, th, fill).value;
      JudgedTurns(s.source, r.source, AsSource, th, fill);
      JudgedTurns(s.target, r.target, AsTarget, th, fill);
    }
  }
}
