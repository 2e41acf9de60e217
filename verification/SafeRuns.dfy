/** Runs in which nothing is lost to the text form: every message in transit is read as it was sent,
    so that the cluster of texts does what Cluster does with values. */
module SafeRuns {
  import opened Collections
  import opened Wire
  import opened TaskWire
  import opened TaskFate
  import opened Master
  import opened Controller
  import opened Marks
  import opened Cluster
  import opened ClusterLaws
  import opened ClusterRuns
  import opened Carriage
  import opened TextCluster

  ghost function Safe(reg: Registry): iset<Task> { iset t: Task | Registered(reg, t) && SafeTask(t) }

  predicate NameAndResultsSafe(c: Ctrl) { SafeName(c.name) && forall r :: r in c.results ==> SafeName(r) }

  ghost predicate CtrlsSafe(cs: seq<Ctrl>) { forall c :: c in cs ==> NameAndResultsSafe(c) }

  ghost predicate LettersSafe(ls: seq<Letter>) { forall l :: l in ls ==> SafeRequest(l.request) }

  /** Everything in the cluster has a text that is read as it was meant. */
  ghost predicate Sane(reg: Registry, s: State) {
    TasksIn(s, Safe(reg)) && CtrlsSafe(s.ctrls) && LettersSafe(s.letters)
  }

  predicate SafeStep(step: Step) { step.Join? ==> SafeName(step.name) }

  lemma SetCtrlSafe(cs: seq<Ctrl>, i: nat, c: Ctrl)
    requires i < |cs| && CtrlsSafe(cs) && NameAndResultsSafe(c)
    ensures CtrlsSafe(cs[i := c])
  {
  }

  lemma SendSafe(s: State, i: nat, woken: bool)
    requires CtrlsSafe(s.ctrls) && LettersSafe(s.letters) && Enabled(s, Send(i, woken))
    ensures CtrlsSafe(SendStep(s, i, woken).ctrls) && LettersSafe(SendStep(s, i, woken).letters)
  {
    var c := s.ctrls[i];
    assert NameAndResultsSafe(c);
    NextMessageShape(c, woken);
    NextSafe(c, woken);
    SetCtrlSafe(s.ctrls, i, NextMessage(c, woken).c);
  }

  lemma NextSafe(c: Ctrl, woken: bool)
    requires NameAndResultsSafe(c)
    ensures NameAndResultsSafe(NextMessage(c, woken).c)
    ensures NextMessage(c, woken).request.Some? ==> SafeRequest(NextMessage(c, woken).request.value)
  {
  }

  lemma WorkerSafe(reg: Registry, cfg: Config, s: State, step: Step)
    requires CtrlsIn(s.ctrls, Safe(reg)) && CtrlsSafe(s.ctrls) && LettersSafe(s.letters)
    requires Enabled(s, step) && AtWorker(step)
    ensures CtrlsSafe(Next(cfg, s, step).ctrls) && Next(cfg, s, step).letters == s.letters
  {
    var c := s.ctrls[step.i];
    assert NameAndResultsSafe(c) && CtrlIn(c, Safe(reg));
    var c2 := Next(cfg, s, step).ctrls[step.i];
    if step.Finish? { assert c.workers[step.w] in c.workers; }
    assert NameAndResultsSafe(c2);
    SetCtrlSafe(s.ctrls, step.i, c2);
  }

  lemma NextSane(reg: Registry, cfg: Config, s: State, step: Step)
    requires Sane(reg, s) && Enabled(s, step) && SafeStep(step)
    ensures Sane(reg, Next(cfg, s, step))
  {
    NextIn(cfg, s, step, Safe(reg));
    match step {
      case Send(i, woken) => SendSafe(s, i, woken);
      case Deliver(k) => assert NameAndResultsSafe(s.ctrls[s.parcels[k].receiver]);
      case Mute(i, _) => assert NameAndResultsSafe(s.ctrls[i]);
      case Handle(k, t) =>
        HandleShape(cfg, s, k, t);
        RemoveIn(s.letters, k);
      case Garble =>
      case Poll(_) =>
      case StopMaster =>
      case DropLetter(k) => RemoveIn(s.letters, k);
      case DropParcel(_) =>
      case Join(_, _) =>
      case StopCtrl(i) => assert NameAndResultsSafe(s.ctrls[i]);
      case _ => WorkerSafe(reg, cfg, s, step);
    }
  }

  /** Every message in transit is read as it was sent. */
  lemma SaneSurvives(reg: Registry, s: State)
    requires Sane(reg, s)
    ensures forall l :: l in s.letters ==> CarryRequest(l.request) == Ok(l.request)
    ensures forall p :: p in s.parcels ==> CarryReply(reg, p.reply) == Ok(p.reply)
  {
    forall l | l in s.letters ensures CarryRequest(l.request) == Ok(l.request) { RequestFate(l.request); }
    forall p | p in s.parcels ensures CarryReply(reg, p.reply) == Ok(p.reply) {
      if p.reply.Assign? { SafeTaskArrives(reg, p.reply.task); } else { PlainReplyRoundTrip(reg, p.reply); }
    }
  }

  /** The cluster of texts takes the same step. */
  lemma TextIsValue(reg: Registry, cfg: Config, s: State, step: Step)
    requires Sane(reg, s) && Enabled(s, step) && SafeStep(step)
    ensures TextNext(reg, cfg, s, step) == Next(cfg, s, step)
  {
    SaneSurvives(reg, s);
    NextSane(reg, cfg, s, step);
    SaneSurvives(reg, Next(cfg, s, step));
    match step {
      case Send(i, woken) => SentSurvives(s, i, woken);
      case Deliver(k) => assert s.parcels[k] in s.parcels && s.parcels[k := s.parcels[k]] == s.parcels;
      case Handle(k, t) => HandledSurvives(reg, cfg, s, k, t);
      case _ =>
    }
  }

  lemma SentSurvives(s: State, i: nat, woken: bool)
    requires Enabled(s, Send(i, woken)) && LettersSafe(SendStep(s, i, woken).letters)
    ensures TextSend(s, i, woken) == SendStep(s, i, woken)
  {
    var request := NextMessage(s.ctrls[i], woken).request;
    if request.Some? {
      assert Letter(i, request.value) in SendStep(s, i, woken).letters;
      RequestFate(request.value);
    }
  }

  lemma HandledSurvives(reg: Registry, cfg: Config, s: State, k: nat, t: Tick)
    requires k < |s.letters| && CarryRequest(s.letters[k].request) == Ok(s.letters[k].request)
    requires forall p :: p in HandleStep(cfg, s, k, t).parcels ==> CarryReply(reg, p.reply) == Ok(p.reply)
    ensures TextHandle(cfg, s, k, t) == HandleStep(cfg, s, k, t)
  {
    var l := s.letters[k];
    HandleShape(cfg, s, k, t);
    assert s.letters[k := l] == s.letters;
    var reply := Serve(cfg, s.m, l.request, t).reply;
    if reply.Some? { assert Parcel(l.sender, l.request.sender, reply.value) in HandleStep(cfg, s, k, t).parcels; }
  }

  // ---- runs

  ghost predicate SafeMove(reg: Registry, move: Move) {
    match move case Inner(step) => SafeStep(step) case Outer(q, _) => QueueIn(q, Safe(reg))
  }

  /** A run whose generator queues safe tasks of importable classes, and whose controllers have
      host names without the separator. */
  ghost predicate SafeRun(reg: Registry, cfg: Config, ss: seq<State>, moves: seq<Move>) {
    ClusterRun(cfg, ss, moves) && forall i :: 0 <= i < |moves| ==> SafeMove(reg, moves[i])
  }

  lemma {:induction false} SafeRunSane(reg: Registry, cfg: Config, ss: seq<State>, moves: seq<Move>, n: nat)
    requires SafeRun(reg, cfg, ss, moves) && n < |ss|
    ensures Sane(reg, ss[n])
  {
    if n > 0 {
      SafeRunSane(reg, cfg, ss, moves, n - 1);
      assert SafeMove(reg, moves[n - 1]) && ss[n - 1 + 1] == Make(cfg, ss[n - 1], moves[n - 1]);
      if moves[n - 1].Inner? { NextSane(reg, cfg, ss[n - 1], moves[n - 1].step); }
    }
  }

  /** In every state of such a run every message in transit is read as it was sent, and the run is
      one of the cluster of texts. */
  lemma SafeRunSurvives(reg: Registry, cfg: Config, ss: seq<State>, moves: seq<Move>, n: nat)
    requires SafeRun(reg, cfg, ss, moves) && n < |ss|
    ensures forall l :: l in ss[n].letters ==> CarryRequest(l.request) == Ok(l.request)
    ensures forall p :: p in ss[n].parcels ==> CarryReply(reg, p.reply) == Ok(p.reply)
    ensures TextRun(reg, cfg, ss, moves)
  {
    SafeRunSane(reg, cfg, ss, moves, n);
    SaneSurvives(reg, ss[n]);
    forall i | 0 <= i < |moves| ensures Follows(reg, cfg, ss[i], moves[i], ss[i + 1]) {
      SafeRunSane(reg, cfg, ss, moves, i);
      assert SafeMove(reg, moves[i]) && ss[i + 1] == Make(cfg, ss[i], moves[i]);
      if moves[i].Inner? { TextIsValue(reg, cfg, ss[i], moves[i].step); }
    }
  }
}
