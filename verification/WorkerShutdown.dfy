/** A controller shutting down its workers: rounds over the worker table, each sending the stop
    signal and one poison pill to every worker still alive, while the workers go on. */
module WorkerShutdown {

  /** Where a worker stands: before the check of its run flag, in pop, with an item, or ended. */
  datatype Stage = AtCheck | AtPop | Busy | Gone

  /** `after`: the items taken since the first signal. */
  datatype Worker = Worker(stage: Stage, flag: bool, after: nat)

  datatype Pool = Pool(queue: nat, workers: seq<Worker>)

  /** Visit: the controller comes to a worker in a round. The other events are the worker's. */
  datatype Event = Visit(w: nat) | Check(w: nat) | Take(w: nat) | Done(w: nat) | Crash(w: nat)

  predicate Enabled(p: Pool, e: Event) {
    && e.w < |p.workers|
    && var x := p.workers[e.w];
       match e
       case Visit(_) => true
       case Check(_) => x.stage == AtCheck
       case Take(_) => x.stage == AtPop && p.queue > 0
       case Done(_) => x.stage == Busy
       case Crash(_) => x.stage != Gone
  }

  function Set(p: Pool, w: nat, x: Worker): Pool
    requires w < |p.workers|
  {
    p.(workers := p.workers[w := x])
  }

  function Next(p: Pool, e: Event): Pool
    requires Enabled(p, e)
  {
    var x := p.workers[e.w];
    match e
    case Visit(w) => if x.stage == Gone then p else Set(p, w, x.(flag := false)).(queue := p.queue + 1)
    case Check(w) => Set(p, w, x.(stage := if x.flag then AtPop else Gone))
    case Take(w) => Set(p, w, x.(stage := Busy, after := if x.flag then x.after else x.after + 1)).(queue := p.queue - 1)
    case Done(w) => Set(p, w, x.(stage := AtCheck))
    case Crash(w) => Set(p, w, x.(stage := Gone))
  }

  ghost predicate Run(ps: seq<Pool>, es: seq<Event>) {
    && |ps| == |es| + 1
    && forall i :: 0 <= i < |es| ==> Enabled(ps[i], es[i]) && ps[i + 1] == Next(ps[i], es[i])
  }

  // ---- a signalled worker takes at most one more item

  predicate Limited(x: Worker) {
    && x.after <= 1
    && (x.flag ==> x.after == 0)
    && (x.stage == AtPop ==> x.after == 0)
  }

  ghost predicate AllLimited(p: Pool) { forall x :: x in p.workers ==> Limited(x) }

  ghost predicate Running(p: Pool) { forall x :: x in p.workers ==> x.flag && x.after == 0 }

  /** Every worker takes at most one item after its first signal, in every run. */
  lemma {:induction false} OneMoreItem(ps: seq<Pool>, es: seq<Event>, n: nat)
    requires Run(ps, es) && n < |ps| && Running(ps[0])
    ensures AllLimited(ps[n])
  {
    if n > 0 {
      OneMoreItem(ps, es, n - 1);
      assert ps[n - 1 + 1] == Next(ps[n - 1], es[n - 1]);
      assert ps[n - 1].workers[es[n - 1].w] in ps[n - 1].workers;
    }
  }

  // ---- a visited worker stays signalled

  predicate Signalled(x: Worker) { x.stage == Gone || !x.flag }

  lemma {:induction false} VisitSignals(ps: seq<Pool>, es: seq<Event>, k: nat, n: nat)
    requires Run(ps, es) && k < n < |ps| && es[k].Visit?
    ensures es[k].w < |ps[n].workers| && Signalled(ps[n].workers[es[k].w])
  {
    assert ps[n - 1 + 1] == Next(ps[n - 1], es[n - 1]);
    if k < n - 1 { VisitSignals(ps, es, k, n - 1); }
  }

  ghost predicate AllSignalled(p: Pool) {
    forall i :: 0 <= i < |p.workers| ==> Signalled(p.workers[i])
  }

  lemma {:induction false} SizeStays(ps: seq<Pool>, es: seq<Event>, n: nat)
    requires Run(ps, es) && n < |ps|
    ensures |ps[n].workers| == |ps[0].workers|
  {
    if n > 0 {
      SizeStays(ps, es, n - 1);
      assert ps[n - 1 + 1] == Next(ps[n - 1], es[n - 1]);
    }
  }

  /** One full round signals every worker. */
  lemma RoundSignalsAll(ps: seq<Pool>, es: seq<Event>, n: nat)
    requires Run(ps, es) && n < |ps|
    requires forall w :: 0 <= w < |ps[0].workers| ==> Visit(w) in es[..n]
    ensures AllSignalled(ps[n])
  {
    SizeStays(ps, es, n);
    forall i | 0 <= i < |ps[n].workers| ensures Signalled(ps[n].workers[i]) {
      assert Visit(i) in es[..n];
      var k :| 0 <= k < n && es[k] == Visit(i);
      VisitSignals(ps, es, k, n);
    }
  }

  // ---- pills enough

  /** The workers that wait in pop, or will take an item from it. */
  function Waiting(ws: seq<Worker>): nat {
    if ws == [] then 0 else (if ws[0].stage == AtPop then 1 else 0) + Waiting(ws[1..])
  }

  /** What the workers still have to do before they end. */
  function Work(ws: seq<Worker>): nat {
    if ws == [] then 0 else Weight(ws[0]) + Work(ws[1..])
  }

  function Weight(x: Worker): nat {
    match x.stage case AtPop => 3 case Busy => 2 case AtCheck => 1 case Gone => 0
  }

  lemma {:induction false} Update(ws: seq<Worker>, w: nat, x: Worker)
    requires w < |ws|
    ensures Waiting(ws[w := x]) + (if ws[w].stage == AtPop then 1 else 0) == Waiting(ws) + (if x.stage == AtPop then 1 else 0)
    ensures Work(ws[w := x]) + Weight(ws[w]) == Work(ws) + Weight(x)
  {
    if w == 0 {
      assert ws[0 := x][1..] == ws[1..];
    } else {
      Update(ws[1..], w - 1, x);
      assert ws[w := x][1..] == ws[1..][w - 1 := x];
    }
  }

  predicate LiveVisit(p: Pool, e: Event) {
    e.Visit? && e.w < |p.workers| && p.workers[e.w].stage != Gone
  }

  /** How many more workers wait than items are queued. */
  function Excess(p: Pool): int { Waiting(p.workers) - p.queue }

  /** Once all are signalled, the excess never grows and each visit of a live worker lowers it;
      every worker event leaves less to do. */
  lemma StepExcess(p: Pool, e: Event)
    requires AllSignalled(p) && Enabled(p, e)
    ensures AllSignalled(Next(p, e))
    ensures Excess(Next(p, e)) <= Excess(p) - if LiveVisit(p, e) then 1 else 0
    ensures Work(Next(p, e).workers) <= Work(p.workers) - if e.Visit? then 0 else 1
  {
    var p2 := Next(p, e);
    assert Signalled(p.workers[e.w]);
    Update(p.workers, e.w, p2.workers[e.w]);
    assert p2.workers == p.workers[e.w := p2.workers[e.w]];
  }

  function LiveVisits(ps: seq<Pool>, es: seq<Event>): nat
    requires |ps| == |es| + 1
  {
    if es == [] then 0
    else LiveVisits(ps[..|ps| - 1], es[..|es| - 1]) + if LiveVisit(ps[|es| - 1], es[|es| - 1]) then 1 else 0
  }

  function WorkerEvents(es: seq<Event>): nat {
    if es == [] then 0 else WorkerEvents(es[..|es| - 1]) + if es[|es| - 1].Visit? then 0 else 1
  }

  lemma {:induction false} RunExcess(ps: seq<Pool>, es: seq<Event>)
    requires Run(ps, es) && AllSignalled(ps[0])
    ensures AllSignalled(ps[|es|])
    ensures Excess(ps[|es|]) <= Excess(ps[0]) - LiveVisits(ps, es)
    ensures Work(ps[|es|].workers) <= Work(ps[0].workers) - WorkerEvents(es)
  {
    if es != [] {
      var n := |es| - 1;
      var init := ps[..|ps| - 1];
      forall i | 0 <= i < n ensures Enabled(init[i], es[..n][i]) && init[i + 1] == Next(init[i], es[..n][i]) {
        assert ps[i + 1] == Next(ps[i], es[i]);
      }
      RunExcess(init, es[..n]);
      assert ps[n + 1] == Next(ps[n], es[n]);
      StepExcess(ps[n], es[n]);
    }
  }

  lemma {:induction false} WaitingBound(ws: seq<Worker>)
    ensures Waiting(ws) <= |ws| && Work(ws) <= 3 * |ws|
  {
    if ws != [] { WaitingBound(ws[1..]); }
  }

  /** After all are signalled: as soon as as many live workers were visited as there are workers,
      no worker can wait in vain, then or later; and the workers make at most three more events
      each, so that all come to their end. */
  lemma PillsSuffice(ps: seq<Pool>, es: seq<Event>)
    requires Run(ps, es) && AllSignalled(ps[0])
    ensures LiveVisits(ps, es) >= |ps[0].workers| ==> Waiting(ps[|es|].workers) <= ps[|es|].queue
    ensures WorkerEvents(es) <= 3 * |ps[0].workers|
  {
    RunExcess(ps, es);
    WaitingBound(ps[0].workers);
  }

  predicate CanGoOn(p: Pool, w: nat) {
    Enabled(p, Check(w)) || Enabled(p, Take(w)) || Enabled(p, Done(w))
  }

  /** With as many items as waiting workers every live worker can go on. */
  lemma {:induction false} NobodyBlocked(p: Pool, w: nat)
    requires Waiting(p.workers) <= p.queue && w < |p.workers| && p.workers[w].stage != Gone
    ensures CanGoOn(p, w)
  {
    Update(p.workers, w, p.workers[w].(stage := Gone));
  }

  // ---- the shutdown loop

  predicate AllGone(p: Pool) { forall x :: x in p.workers ==> x.stage == Gone }

  /** p was reached from start by the events es. */
  ghost predicate Reached(start: Pool, ps: seq<Pool>, es: seq<Event>, p: Pool) {
    Run(ps, es) && ps[0] == start && ps[|es|] == p
  }

  lemma ReachedMore(start: Pool, ps: seq<Pool>, es: seq<Event>, p: Pool, e: Event)
    requires Reached(start, ps, es, p) && Enabled(p, e)
    ensures Reached(start, ps + [Next(p, e)], es + [e], Next(p, e))
  {
    var qs, fs := ps + [Next(p, e)], es + [e];
    forall i | 0 <= i < |fs| ensures Enabled(qs[i], fs[i]) && qs[i + 1] == Next(qs[i], fs[i]) {
      assert i < |es| ==> ps[i + 1] == Next(ps[i], es[i]);
    }
  }

  /** The workers go on: those of the given events that are theirs and possible. */
  method LetWork(start: Pool, p0: Pool, moves: seq<Event>, ghost ps0: seq<Pool>, ghost es0: seq<Event>)
    returns (p: Pool, ghost ps: seq<Pool>, ghost es: seq<Event>)
    requires Reached(start, ps0, es0, p0)
    ensures Reached(start, ps, es, p) && es0 <= es
    ensures |p.workers| == |p0.workers|
    ensures forall i :: 0 <= i < |p0.workers| && p0.workers[i].stage == Gone ==> p.workers[i].stage == Gone
    ensures AllSignalled(p0) ==> AllSignalled(p) && Excess(p) <= Excess(p0)
  {
    p, ps, es := p0, ps0, es0;
    for i := 0 to |moves|
      invariant Reached(start, ps, es, p) && es0 <= es
      invariant |p.workers| == |p0.workers|
      invariant forall i :: 0 <= i < |p0.workers| && p0.workers[i].stage == Gone ==> p.workers[i].stage == Gone
      invariant AllSignalled(p0) ==> AllSignalled(p) && Excess(p) <= Excess(p0)
    {
      if !moves[i].Visit? && Enabled(p, moves[i]) {
        ReachedMore(start, ps, es, p, moves[i]);
        if AllSignalled(p) { StepExcess(p, moves[i]); }
        ps, es, p := ps + [Next(p, moves[i])], es + [moves[i]], Next(p, moves[i]);
      }
    }
  }

  /** One round over the worker table, while the workers go on between two visits: it signals every
      worker, and finds no active worker only if all have ended. Once all are signalled, a round
      that finds one brings one more item than waiting workers. */
  method ShutdownRound(start: Pool, p0: Pool, moves: seq<seq<Event>>, ghost ps0: seq<Pool>, ghost es0: seq<Event>)
    returns (p: Pool, found: bool, ghost ps: seq<Pool>, ghost es: seq<Event>)
    requires |moves| == |p0.workers| && Reached(start, ps0, es0, p0)
    ensures Reached(start, ps, es, p) && |p.workers| == |p0.workers|
    ensures AllSignalled(p)
    ensures !found ==> AllGone(p)
    ensures AllSignalled(p0) ==> Excess(p) <= Excess(p0) - if found then 1 else 0
  {
    p, ps, es, found := p0, ps0, es0, false;
    for w := 0 to |p0.workers|
      invariant Reached(start, ps, es, p) && |p.workers| == |p0.workers|
      invariant forall v :: 0 <= v < w ==> Visit(v) in es
      invariant !found ==> forall v :: 0 <= v < w ==> p.workers[v].stage == Gone
      invariant AllSignalled(p0) ==> AllSignalled(p) && Excess(p) <= Excess(p0) - if found then 1 else 0
    {
      p, ps, es := LetWork(start, p, moves[w], ps, es);
      if AllSignalled(p) { StepExcess(p, Visit(w)); }
      if p.workers[w].stage != Gone {
        found := true;
      }
      ReachedMore(start, ps, es, p, Visit(w));
      ps, es, p := ps + [Next(p, Visit(w))], es + [Visit(w)], Next(p, Visit(w));
    }
    assert es[..|es|] == es;
    SizeStays(ps, es, |es|);
    RoundSignalsAll(ps, es, |es|);
  }

  /** The shutdown loop, for as many rounds as the workers' moves are given for: it ends when a
      round finds no active worker, and then all have ended; and after more rounds than there are
      workers no worker can wait in vain. */
  method ShutDown(p0: Pool, rounds: seq<seq<seq<Event>>>)
    returns (p: Pool, down: bool, ghost ps: seq<Pool>, ghost es: seq<Event>)
    requires forall r :: r in rounds ==> |r| == |p0.workers|
    ensures Reached(p0, ps, es, p)
    ensures down ==> AllGone(p)
    ensures !down && |rounds| > |p0.workers| ==> AllSignalled(p) && Waiting(p.workers) <= p.queue
  {
    p, ps, es, down := p0, [p0], [], false;
    var i := 0;
    while !down && i < |rounds|
      invariant Reached(p0, ps, es, p) && |p.workers| == |p0.workers| && i <= |rounds|
      invariant down ==> AllGone(p)
      invariant !down && i > 0 ==> AllSignalled(p) && Excess(p) <= |p0.workers| - (i - 1)
      decreases !down, |rounds| - i
    {
      var found;
      p, found, ps, es := ShutdownRound(p0, p, rounds[i], ps, es);
      WaitingBound(p.workers);
      down := !found;
      i := i + 1;
    }
  }

  /** When the workers have made all the events they can, after enough visits, all have ended. */
  lemma AllComeToTheirEnd(ps: seq<Pool>, es: seq<Event>)
    requires Run(ps, es) && AllSignalled(ps[0]) && LiveVisits(ps, es) >= |ps[0].workers|
    requires forall w: nat :: w < |ps[|es|].workers| ==> !CanGoOn(ps[|es|], w)
    ensures AllGone(ps[|es|])
  {
    var p := ps[|es|];
    PillsSuffice(ps, es);
    forall x | x in p.workers ensures x.stage == Gone {
      var w :| 0 <= w < |p.workers| && p.workers[w] == x;
      if x.stage != Gone { NobodyBlocked(p, w); }
    }
  }
}
