/** What a controller sends, and what each reply does to it. */
module ControllerLaws {
  import opened Collections
  import opened Wire
  import opened TaskFate
  import opened Master
  import opened Controller
  import opened Marks
  import opened Cluster
  import opened ClusterLaws
  import opened ClusterRuns
  import opened TextCluster

  // ---- the message of an iteration

  predicate TidWaits(c: Ctrl) { |c.results| > 0 && c.results[0] != "" }

  /** Some worker's cell shows READY: it is idle, or has popped a task and not said so yet. */
  ghost predicate SomeReady(c: Ctrl) { exists w :: 0 <= w < |c.workers| && (c.workers[w].Idle? || c.workers[w].Popped?) }

  ghost predicate NoneAlive(c: Ctrl) { forall w :: 0 <= w < |c.workers| ==> c.workers[w].Dead? }

  /** The controller after it looked at its result queue. */
  function Looked(c: Ctrl): Ctrl { c.(results := if |c.results| > 0 then c.results[1..] else []) }

  /** A finished tid is reported before anything else, first come first served. Without one, a task is
      requested exactly if some worker shows READY; otherwise the loop ends exactly if no worker is
      alive, and a heartbeat is sent exactly if the wait was not cut short. */
  lemma Sends(c: Ctrl, woken: bool)
    ensures TidWaits(c) ==> NextMessage(c, woken) == Sent(Looked(c), Some(Finished(c.name, c.results[0])))
    ensures !TidWaits(c) && SomeReady(c) ==> NextMessage(c, woken) == Sent(Looked(c), Some(WantTask(c.name)))
    ensures !TidWaits(c) && !SomeReady(c) && NoneAlive(c) ==>
      NextMessage(c, woken) == Sent(Looked(c).(running := false), None)
    ensures !TidWaits(c) && !SomeReady(c) && !NoneAlive(c) ==>
      NextMessage(c, woken) == Sent(Looked(c), if woken then None else Some(Beat(c.name)))
  {
    if !TidWaits(c) && SomeReady(c) {
      var w :| 0 <= w < |c.workers| && (c.workers[w].Idle? || c.workers[w].Popped?);
      assert ShowsReady(c.workers[w]);
    }
  }

  // ---- the replies

  /** A delivered reply: the loop goes on exactly if the reply can be read and is no exit command; a
      readable one resets the retries, an assigned task comes last in the queue, and nothing else of the
      controller changes. */
  lemma Delivers(reg: Registry, s: State, k: nat)
    requires Enabled(s, Deliver(k))
    ensures var i := s.parcels[k].receiver;
      var c, c2 := s.ctrls[i], TextDeliver(reg, s, k).ctrls[i];
      var read := CarryReply(reg, s.parcels[k].reply);
      && (c2.running <==> read.Ok? && !read.value.Quit?)
      && c2.retries == (if read.Ok? then 0 else c.retries)
      && c2.queue == (if read.Ok? && read.value.Assign? then c.queue + [read.value.task] else c.queue)
      && c2.name == c.name && c2.workers == c.workers && c2.results == c.results
  {
  }

  /** The loop of an iteration that gets an answer: the same in terms of the text that came. */
  lemma Reads(reg: Registry, c: Ctrl, text: string)
    requires c.running
    ensures var c2 := ReceiveText(reg, c, text);
      var read := DecodeReply(reg, text);
      && (c2.running <==> read.Ok? && !read.value.Quit?)
      && c2.retries == (if read.Ok? then 0 else c.retries)
      && c2.queue == (if read.Ok? && read.value.Assign? then c.queue + [read.value.task] else c.queue)
      && c2.name == c.name && c2.workers == c.workers && c2.results == c.results
  {
  }

  // ---- stopped for good

  ghost predicate Stopped(s: State, i: nat) { i < |s.ctrls| && !s.ctrls[i].running }

  lemma NextStopped(cfg: Config, s: State, i: nat, step: Step)
    requires Stopped(s, i) && Enabled(s, step) && !step.Send? && !step.Deliver? && !step.Handle?
    ensures Stopped(Next(cfg, s, step), i)
  {
  }

  lemma SendStopped(s: State, i: nat, j: nat, woken: bool)
    requires Stopped(s, i) && Enabled(s, Send(j, woken))
    ensures j != i && SendStep(s, j, woken).ctrls == s.ctrls[j := NextMessage(s.ctrls[j], woken).c]
  {
  }

  lemma TextSendStopped(s: State, i: nat, j: nat, woken: bool)
    requires Stopped(s, i) && Enabled(s, Send(j, woken))
    ensures j != i && Stopped(TextSend(s, j, woken), i)
  {
    SendStopped(s, i, j, woken);
  }

  lemma DeliverStopped(reg: Registry, s: State, i: nat, k: nat)
    requires Stopped(s, i) && Enabled(s, Deliver(k))
    ensures Stopped(TextDeliver(reg, s, k), i)
  {
  }

  lemma StepStopped(reg: Registry, cfg: Config, s: State, i: nat, step: Step)
    requires Stopped(s, i) && Enabled(s, step)
    ensures Stopped(TextNext(reg, cfg, s, step), i) && !(step.Send? && step.i == i)
  {
    match step {
      case Send(j, woken) => TextSendStopped(s, i, j, woken);
      case Deliver(k) => DeliverStopped(reg, s, i, k);
      case Handle(k, t) => HandleStopped(cfg, s, i, k, t);
      case _ => NextStopped(cfg, s, i, step);
    }
  }

  lemma TextStopped(reg: Registry, cfg: Config, s: State, i: nat, move: Move)
    requires Stopped(s, i) && Allowed(s, move)
    ensures Stopped(TextMake(reg, cfg, s, move), i)
    ensures move.Inner? ==> !(move.step.Send? && move.step.i == i)
  {
    if move.Inner? { StepStopped(reg, cfg, s, i, move.step); }
  }

  lemma HandleStopped(cfg: Config, s: State, i: nat, k: nat, t: Tick)
    requires Stopped(s, i) && k < |s.letters|
    ensures Stopped(TextHandle(cfg, s, k, t), i)
  {
    var l := s.letters[k];
    RequestFate(l.request);
    assert s.letters[k := l] == s.letters;
    HandleShape(cfg, s, k, t);
  }

  lemma {:induction false} StaysStopped(reg: Registry, cfg: Config, ss: seq<State>, moves: seq<Move>, i: nat, a: nat, b: nat)
    requires TextRun(reg, cfg, ss, moves) && a <= b < |ss| && Stopped(ss[a], i)
    ensures Stopped(ss[b], i)
    ensures forall j :: a <= j < b && moves[j].Inner? ==> !(moves[j].step.Send? && moves[j].step.i == i)
  {
    if a < b {
      StaysStopped(reg, cfg, ss, moves, i, a, b - 1);
      assert Follows(reg, cfg, ss[b - 1], moves[b - 1], ss[b]);
      TextStopped(reg, cfg, ss[b - 1], i, moves[b - 1]);
    }
  }

  /** A controller that was delivered the exit command, or a text that it cannot read, sends nothing more
      in any run. */
  lemma SilentAfterExit(reg: Registry, cfg: Config, ss: seq<State>, moves: seq<Move>, a: nat, k: nat, b: nat)
    requires TextRun(reg, cfg, ss, moves) && a < b < |ss| && moves[a] == Inner(Deliver(k))
    requires k < |ss[a].parcels|
    requires var read := CarryReply(reg, ss[a].parcels[k].reply); read.Raised? || read.value.Quit?
    ensures Stopped(ss[b], ss[a].parcels[k].receiver)
    ensures forall j :: a < j < b && moves[j].Inner? ==>
      !(moves[j].step.Send? && moves[j].step.i == ss[a].parcels[k].receiver)
  {
    assert Follows(reg, cfg, ss[a], moves[a], ss[a + 1]);
    Delivers(reg, ss[a], k);
    StaysStopped(reg, cfg, ss, moves, ss[a].parcels[k].receiver, a + 1, b);
  }
}
