/** One iteration of each loop is a segment of the runs: the matching pass and the drained results
    of the generator, the messages of the master, the iteration of a controller, the turn of a
    worker. */
module Simulation {
  import opened Collections
  import opened Scheduler
  import opened SchedulerLaws
  import opened Tids
  import opened Wire
  import opened TaskFate
  import opened Master
  import opened Controller
  import opened Cluster
  import opened ClusterLaws
  import opened TextCluster
  import Gens = GeneratorRuns
  import Generator

  // ---- the generator

  /** Consecutive states of a run, from g to g2. */
  ghost predicate Segment(th: Thresholds, gs: seq<Gens.Gen>, steps: seq<Gens.Step>, g: Gens.Gen, g2: Gens.Gen) {
    && |gs| == |steps| + 1 && gs[0] == g && gs[|steps|] == g2
    && forall i :: 0 <= i < |steps| ==> Gens.Follows(th, gs[i], steps[i], gs[i + 1])
  }

  lemma SegmentCons(th: Thresholds, g: Gens.Gen, step: Gens.Step, gs: seq<Gens.Gen>, steps: seq<Gens.Step>,
                    h: Gens.Gen, g2: Gens.Gen)
    requires Gens.Follows(th, g, step, h) && Segment(th, gs, steps, h, g2)
    ensures Segment(th, [g] + gs, [step] + steps, g, g2)
  {
    var hs, more := [g] + gs, [step] + steps;
    forall i | 0 <= i < |more| ensures Gens.Follows(th, hs[i], more[i], hs[i + 1]) {
      if i > 0 { assert Gens.Follows(th, gs[i - 1], steps[i - 1], gs[i]); }
    }
  }

  lemma OneRound(th: Thresholds, g: Gens.Gen) returns (h: Gens.Gen)
    requires g.s.nextSource < |g.s.keys|
    ensures Gens.Follows(th, g, Gens.Round, h) && h.s == Visit(g.s) && h.pushed == g.pushed + Generator.Chosen(g.s)
  {
    h := Gens.Take(th, g, Gens.Round).value;
  }

  /** The rounds from here on, as turns. */
  lemma {:induction false} RoundsAreTurns(th: Thresholds, g: Gens.Gen, checked: int)
    returns (gs: seq<Gens.Gen>, steps: seq<Gens.Step>, g2: Gens.Gen)
    ensures Segment(th, gs, steps, g, g2) && forall x :: x in steps ==> x == Gens.Round
    ensures g2.s == After(g.s, checked) && g2.pushed == g.pushed + Pushes(g.s, checked)
    decreases |g.s.keys| - g.s.nextSource
  {
    if Over(g.s, checked) {
      gs, steps, g2 := [g], [], g;
    } else {
      var total := checked + Checks(g.s);
      var h := OneRound(th, g);
      gs, steps, g2 := RoundsAreTurns(th, h, total);
      SegmentCons(th, g, Gens.Round, gs, steps, h, g2);
      gs, steps := [g] + gs, [Gens.Round] + steps;
      Generator.Unfolded(g.s, checked, h.s, total);
      Regroup(g.pushed, Generator.Chosen(g.s), Pushes(h.s, total));
    }
  }

  lemma Regroup(a: seq<Push>, b: seq<Push>, c: seq<Push>)
    ensures (a + b) + c == a + (b + c)
  {
  }

  /** The matching pass of an iteration is the turn StartPass and then turns Round, as many as the
      pass looks at sources, and pushes what the pass pushes. */
  lemma PassIsTurns(th: Thresholds, g: Gens.Gen) returns (gs: seq<Gens.Gen>, steps: seq<Gens.Step>, g2: Gens.Gen)
    ensures Segment(th, gs, [Gens.StartPass] + steps, g, g2) && forall x :: x in steps ==> x == Gens.Round
    ensures g2.s == Pass(g.s) && g2.pushed == g.pushed + PassPushes(g.s)
  {
    var h := g.(s := Rewind(g.s));
    gs, steps, g2 := RoundsAreTurns(th, h, 0);
    SegmentCons(th, g, Gens.StartPass, gs, steps, h, g2);
    gs := [g] + gs;
  }

  function Back(f: (nat, nat)): Gens.Step { Gens.Back(f.0, f.1) }

  function TidsOf(fs: seq<(nat, nat)>): seq<string> {
    seq(|fs|, i requires 0 <= i < |fs| => TidOf(fs[i].0, fs[i].1))
  }

  lemma SegmentSnoc(th: Thresholds, gs: seq<Gens.Gen>, steps: seq<Gens.Step>, g: Gens.Gen, h: Gens.Gen,
                    step: Gens.Step, g2: Gens.Gen)
    requires Segment(th, gs, steps, g, h) && Gens.Follows(th, h, step, g2)
    ensures Segment(th, gs + [g2], steps + [step], g, g2)
  {
    var hs, more := gs + [g2], steps + [step];
    forall i | 0 <= i < |more| ensures Gens.Follows(th, hs[i], more[i], hs[i + 1]) {
      if i < |steps| { assert Gens.Follows(th, gs[i], steps[i], gs[i + 1]); }
    }
  }

  function Backs(fs: seq<(nat, nat)>): seq<Gens.Step> { seq(|fs|, i requires 0 <= i < |fs| => Back(fs[i])) }

  lemma DrainLast(th: Thresholds, s: Sched, h: Gens.Gen, init: seq<(nat, nat)>, f: (nat, nat))
    requires Generator.ReturnAll(s, TidsOf(init)) == Ok(h.s) && Gens.Take(th, h, Back(f)).Ok?
    ensures Generator.ReturnAll(s, TidsOf(init + [f])) == Ok(Gens.Take(th, h, Back(f)).value.s)
  {
    TidRoundTrip(f.0, f.1);
    var tids := TidsOf(init + [f]);
    assert tids[..|tids| - 1] == TidsOf(init);
  }

  lemma BacksSnoc(init: seq<(nat, nat)>, f: (nat, nat))
    ensures Backs(init + [f]) == Backs(init) + [Back(f)]
  {
  }

  lemma DistinctLast<T>(fs: seq<T>)
    requires fs != [] && Distinct(fs)
    ensures var init, f := fs[..|fs| - 1], fs[|fs| - 1];
      fs == init + [f] && Distinct(init) && f !in init && f in fs && forall x :: x in init ==> x in fs
  {
  }

  /** The generator returns these pairs, one turn each. */
  ghost predicate Drained(th: Thresholds, gs: seq<Gens.Gen>, g: Gens.Gen, fs: seq<(nat, nat)>, g2: Gens.Gen) {
    && Segment(th, gs, Backs(fs), g, g2)
    && Generator.ReturnAll(g.s, TidsOf(fs)) == Ok(g2.s)
  }

  lemma DrainOn(th: Thresholds, gs: seq<Gens.Gen>, g: Gens.Gen, init: seq<(nat, nat)>, h: Gens.Gen, f: (nat, nat))
    returns (hs: seq<Gens.Gen>, g2: Gens.Gen)
    requires Drained(th, gs, g, init, h) && Gens.Inv(th, h) && f in h.flight
    ensures Drained(th, hs, g, init + [f], g2) && Gens.Inv(th, g2) && g2.flight == h.flight - {f}
  {
    g2 := OneBack(th, h, f);
    SegmentSnoc(th, gs, Backs(init), g, h, Back(f), g2);
    hs := gs + [g2];
    BacksSnoc(init, f);
    DrainLast(th, g.s, h, init, f);
  }

  /** Draining the result queue, when it holds tids in flight, each once, never fails and is one turn
      Back for each tid. */
  lemma {:induction false} DrainIsTurns(th: Thresholds, g: Gens.Gen, fs: seq<(nat, nat)>)
    returns (gs: seq<Gens.Gen>, g2: Gens.Gen)
    requires Gens.Inv(th, g) && Distinct(fs) && forall f :: f in fs ==> f in g.flight
    ensures Drained(th, gs, g, fs, g2) && Gens.Inv(th, g2)
    ensures forall f :: f in g.flight && f !in fs ==> f in g2.flight
    decreases |fs|
  {
    if fs == [] {
      gs, g2 := [g], g;
    } else {
      DistinctLast(fs);
      var init, f := fs[..|fs| - 1], fs[|fs| - 1];
      var h;
      gs, h := DrainIsTurns(th, g, init);
      gs, g2 := DrainOn(th, gs, g, init, h, f);
    }
  }

  lemma OneBack(th: Thresholds, g: Gens.Gen, f: (nat, nat)) returns (g2: Gens.Gen)
    requires Gens.Inv(th, g) && f in g.flight
    ensures Gens.Take(th, g, Back(f)) == Ok(g2) && Gens.Follows(th, g, Back(f), g2) && Gens.Inv(th, g2)
    ensures g2.flight == g.flight - {f}
  {
    Gens.TakeKeeps(th, g, Back(f));
    g2 := Gens.Take(th, g, Back(f)).value;
  }

  // ---- the master

  /** Handling a message in transit leaves the master as the iteration on its text does, and puts the
      iteration's reply, if any, on the network. */
  lemma HandleIsIteration(cfg: Config, s: State, k: nat, t: Tick)
    requires k < |s.letters| && EncodeRequest(s.letters[k].request).Ok?
    ensures var after := ServeText(cfg, s.m, EncodeRequest(s.letters[k].request).value, t);
      var s2 := TextHandle(cfg, s, k, t);
      && s2.m == after.0
      && match after.1
         case None => s2.parcels == s.parcels
         case Some(text) =>
           |s2.parcels| == |s.parcels| + 1 && s2.parcels[..|s.parcels|] == s.parcels
           && EncodeReply(s2.parcels[|s.parcels|].reply) == Ok(text)
  {
    var l := s.letters[k];
    RequestFate(l.request);
    assert s.letters[k := l] == s.letters;
    HandleShape(cfg, s, k, t);
  }

  // ---- a controller

  lemma SendShape(s: State, i: nat, woken: bool)
    requires Enabled(s, Send(i, woken))
    ensures SendStep(s, i, woken).ctrls == s.ctrls[i := NextMessage(s.ctrls[i], woken).c]
    ensures SendStep(s, i, woken).parcels == s.parcels
  {
  }

  /** After sending, the controller goes on if there was something to send. */
  lemma SentGoesOn(s: State, i: nat, woken: bool)
    requires Enabled(s, Send(i, woken))
    ensures var sent := NextMessage(s.ctrls[i], woken);
      var s2 := TextSend(s, i, woken);
      var fails := sent.request.Some? && EncodeRequest(sent.request.value).Raised?;
      && |s2.ctrls| == |s.ctrls| && s2.parcels == s.parcels
      && s2.ctrls[i] == (if fails then sent.c.(running := false) else sent.c)
  {
    SendShape(s, i, woken);
  }

  lemma RequestGoesOn(c: Ctrl, woken: bool)
    requires c.running && NextMessage(c, woken).request.Some?
    ensures NextMessage(c, woken).c.running
  {
  }

  /** An iteration that has nothing to send, or cannot write it, is the step Send. */
  lemma IterationWithoutMessage(reg: Registry, max: nat, s: State, i: nat, woken: bool,
                                first: Option<string>, second: Option<string>)
    requires Enabled(s, Send(i, woken))
    requires var r := NextMessage(s.ctrls[i], woken).request; r.None? || EncodeRequest(r.value).Raised?
    ensures Iteration(reg, max, s.ctrls[i], woken, first, second) == (TextSend(s, i, woken).ctrls[i], None)
  {
    SentGoesOn(s, i, woken);
  }

  /** An iteration that gets no answer is Send and then Mute, and so is the last one, whatever comes. */
  lemma IterationUnanswered(reg: Registry, max: nat, s: State, i: nat, woken: bool, second: Option<string>)
    requires Enabled(s, Send(i, woken))
    requires var r := NextMessage(s.ctrls[i], woken).request; r.Some? && EncodeRequest(r.value).Ok?
    requires second == None || s.ctrls[i].retries == max
    ensures Iteration(reg, max, s.ctrls[i], woken, None, second).0 ==
      MuteStep(TextSend(s, i, woken), i, max).ctrls[i]
  {
    SentGoesOn(s, i, woken);
    NextMessageRetries(s.ctrls[i], woken);
  }

  lemma NextMessageRetries(c: Ctrl, woken: bool)
    ensures NextMessage(c, woken).c.retries == c.retries
  {
  }

  /** An iteration that gets an answer, at the first or at the second look, is Send and then the
      delivery of that reply. */
  lemma IterationAnswered(reg: Registry, max: nat, s: State, i: nat, woken: bool,
                          first: Option<string>, second: Option<string>, k: nat)
    requires Enabled(s, Send(i, woken))
    requires var r := NextMessage(s.ctrls[i], woken).request; r.Some? && EncodeRequest(r.value).Ok?
    requires k < |s.parcels| && s.parcels[k].receiver == i && EncodeReply(s.parcels[k].reply).Ok?
    requires var text := EncodeReply(s.parcels[k].reply).value;
      first == Some(text) || (first == None && second == Some(text) && s.ctrls[i].retries != max)
    ensures Enabled(TextSend(s, i, woken), Deliver(k))
    ensures Iteration(reg, max, s.ctrls[i], woken, first, second).0 ==
      TextDeliver(reg, TextSend(s, i, woken), k).ctrls[i]
  {
    SentGoesOn(s, i, woken);
    RequestGoesOn(s.ctrls[i], woken);
    NextMessageRetries(s.ctrls[i], woken);
    DeliverIsReceive(reg, TextSend(s, i, woken), k);
  }

  lemma DeliverIsReceive(reg: Registry, s: State, k: nat)
    requires Enabled(s, Deliver(k)) && EncodeReply(s.parcels[k].reply).Ok?
    ensures var i := s.parcels[k].receiver;
      TextDeliver(reg, s, k).ctrls[i] == ReceiveText(reg, s.ctrls[i], EncodeReply(s.parcels[k].reply).value)
  {
  }

  // ---- a worker

  /** A worker's turn, from pop to READY, takes the first item and reports it: the steps Pop, Begin,
      Finish and Rest. */
  lemma TurnIsSteps(cfg: Config, s: State, i: nat, w: nat) returns (s4: State)
    requires Enabled(s, Pop(i, w)) && s.ctrls[i].queue[0].tid != ""
    ensures Runs(cfg, s, [Pop(i, w), Begin(i, w), Finish(i, w), Rest(i, w)], s4) && |s4.ctrls| == |s.ctrls|
    ensures var c := s.ctrls[i];
      s4.ctrls[i] == c.(queue := c.queue[1..], results := c.results + [c.queue[0].tid])
  {
    var c := s.ctrls[i];
    var task := c.queue[0];
    var s1 := Next(cfg, s, Pop(i, w));
    var s2 := Next(cfg, s1, Begin(i, w));
    var s3 := Next(cfg, s2, Finish(i, w));
    s4 := Next(cfg, s3, Rest(i, w));
    assert s3.ctrls[i] == Ctrl(c.name, c.queue[1..], c.workers[w := Popped(task)][w := Executing(task)][w := Reported],
                               c.results + [task.tid], c.retries, c.running);
    assert c.workers[w := Popped(task)][w := Executing(task)][w := Reported][w := Idle] == c.workers;
    RunsThree(cfg, s1, Begin(i, w), Finish(i, w), Rest(i, w));
    assert [Pop(i, w), Begin(i, w), Finish(i, w), Rest(i, w)][1..] == [Begin(i, w), Finish(i, w), Rest(i, w)];
  }
}
