/** The cluster as it is: texts travel, and what a text is read as takes effect. For tasks that are
    not mangled every step is one or several steps of Cluster, so that all that those keep holds;
    a mangled task breaks the bound on live copies. */
module TextCluster {
  import opened Collections
  import opened Wire
  import opened TaskFate
  import opened Master
  import opened Controller
  import opened Marks
  import opened Cluster
  import opened ClusterLaws
  import opened ClusterRuns
  import opened Carriage

  // ---- steps

  /** A message that cannot be written ends the controller's loop. */
  function TextSend(s: State, i: nat, woken: bool): State
    requires Enabled(s, Send(i, woken))
  {
    var request := NextMessage(s.ctrls[i], woken).request;
    var s1 := SendStep(s, i, woken);
    if request.Some? && EncodeRequest(request.value).Raised? then
      SetCtrl(s1, i, s1.ctrls[i].(running := false)).(
        letters := s.letters, lost := s1.lost + RequestMarks(request.value))
    else s1
  }

  /** A reply that cannot be read ends the controller's loop. */
  function TextDeliver(reg: Registry, s: State, k: nat): State
    requires Enabled(s, Deliver(k))
  {
    var p := s.parcels[k];
    match CarryReply(reg, p.reply)
    case Raised =>
      SetCtrl(s, p.receiver, s.ctrls[p.receiver].(running := false)).(
        parcels := RemoveAt(s.parcels, k), lost := s.lost + ParcelMarks("", p))
    case Ok(r) => DeliverStep(s.(parcels := s.parcels[k := p.(reply := r)]), k)
  }

  /** A request that cannot be read, or a reply that cannot be written, is an exception. */
  function TextHandle(cfg: Config, s: State, k: nat, t: Tick): State
    requires k < |s.letters|
  {
    var l := s.letters[k];
    match CarryRequest(l.request)
    case Raised => s.(m := Fault(s.m), letters := RemoveAt(s.letters, k), lost := s.lost + LetterMarks("", l))
    case Ok(r) =>
      var s1 := HandleStep(cfg, s.(letters := s.letters[k := l.(request := r)]), k, t);
      var reply := Serve(cfg, s.m, r, t).reply;
      if reply.Some? && EncodeReply(reply.value).Raised? then
        s1.(m := Fault(s1.m), parcels := s.parcels,
            lost := s1.lost + ParcelMarks("", Parcel(l.sender, r.sender, reply.value)))
      else s1
  }

  function TextNext(reg: Registry, cfg: Config, s: State, step: Step): State
    requires Enabled(s, step)
  {
    match step
    case Send(i, woken) => TextSend(s, i, woken)
    case Deliver(k) => TextDeliver(reg, s, k)
    case Handle(k, t) => TextHandle(cfg, s, k, t)
    case _ => Next(cfg, s, step)
  }

  // ---- in steps of Cluster

  ghost predicate Runs(cfg: Config, s: State, steps: seq<Step>, s2: State)
    decreases |steps|
  {
    if steps == [] then s2 == s else Enabled(s, steps[0]) && Runs(cfg, Next(cfg, s, steps[0]), steps[1..], s2)
  }

  lemma RunsOne(cfg: Config, s: State, a: Step)
    requires Enabled(s, a)
    ensures Runs(cfg, s, [a], Next(cfg, s, a))
  {
  }

  lemma RunsTwo(cfg: Config, s: State, a: Step, b: Step)
    requires Enabled(s, a) && Enabled(Next(cfg, s, a), b)
    ensures Runs(cfg, s, [a, b], Next(cfg, Next(cfg, s, a), b))
  {
    RunsOne(cfg, Next(cfg, s, a), b);
    assert [a, b][1..] == [b];
  }

  lemma RunsThree(cfg: Config, s: State, a: Step, b: Step, c: Step)
    requires Enabled(s, a) && Enabled(Next(cfg, s, a), b) && Enabled(Next(cfg, Next(cfg, s, a), b), c)
    ensures Runs(cfg, s, [a, b, c], Next(cfg, Next(cfg, Next(cfg, s, a), b), c))
  {
    RunsTwo(cfg, Next(cfg, s, a), b, c);
    assert [a, b, c][1..] == [b, c];
  }

  /** The tasks that arrive as they were sent or not at all. */
  ghost function Faithful(reg: Registry): iset<Task> { iset t: Task | Typed(reg, t) && !Mangled(t) }

  lemma RemoveLast<T>(xs: seq<T>, x: T)
    ensures RemoveAt(xs + [x], |xs|) == xs
  {
  }

  lemma SendIsSteps(cfg: Config, s: State, i: nat, woken: bool) returns (steps: seq<Step>)
    requires Enabled(s, Send(i, woken))
    ensures Runs(cfg, s, steps, TextSend(s, i, woken))
  {
    var request := NextMessage(s.ctrls[i], woken).request;
    if request.Some? && EncodeRequest(request.value).Raised? {
      var n := |s.letters|;
      RemoveLast(s.letters, Letter(i, request.value));
      var s1 := SendStep(s, i, woken);
      var s2 := Next(cfg, s1, DropLetter(n));
      assert s2 == s1.(letters := s.letters, lost := s1.lost + RequestMarks(request.value));
      RunsThree(cfg, s, Send(i, woken), DropLetter(n), StopCtrl(i));
      steps := [Send(i, woken), DropLetter(n), StopCtrl(i)];
    } else {
      RunsOne(cfg, s, Send(i, woken));
      steps := [Send(i, woken)];
    }
  }

  /** Every reply is read as it was sent, or not at all. */
  lemma ReplyFate(reg: Registry, r: Reply)
    requires !r.Unhandled? && (r.Assign? ==> r.task in Faithful(reg))
    ensures CarryReply(reg, r) == Ok(r) || (CarryReply(reg, r) == Raised && r.Assign?)
  {
    if r.Assign? { TaskFate.TaskFate(reg, r.task); } else { PlainReplyRoundTrip(reg, r); }
  }

  lemma DeliverIsSteps(reg: Registry, cfg: Config, s: State, k: nat) returns (steps: seq<Step>)
    requires Enabled(s, Deliver(k)) && ParcelsIn(s.parcels, Faithful(reg))
    ensures Runs(cfg, s, steps, TextDeliver(reg, s, k))
  {
    var p := s.parcels[k];
    ReplyFate(reg, p.reply);
    if CarryReply(reg, p.reply).Ok? {
      assert s.parcels[k := p] == s.parcels;
      RunsOne(cfg, s, Deliver(k));
      steps := [Deliver(k)];
    } else {
      RunsTwo(cfg, s, DropParcel(k), StopCtrl(p.receiver));
      steps := [DropParcel(k), StopCtrl(p.receiver)];
    }
  }

  /** Only an assignment may fail to be written, and it leaves the loop running. */
  lemma UnwrittenReply(cfg: Config, m: Master, r: Request, t: Tick)
    requires m.running && Serve(cfg, m, r, t).reply.Some? && EncodeReply(Serve(cfg, m, r, t).reply.value).Raised?
    ensures Serve(cfg, m, r, t).m.running
  {
    var reply := Serve(cfg, m, r, t).reply.value;
    assert !reply.Quit?;
  }

  lemma HandleIsSteps(reg: Registry, cfg: Config, s: State, k: nat, t: Tick) returns (steps: seq<Step>)
    requires Enabled(s, Handle(k, t))
    ensures Runs(cfg, s, steps, TextHandle(cfg, s, k, t))
  {
    var l := s.letters[k];
    RequestFate(l.request);
    if CarryRequest(l.request).Raised? {
      RunsTwo(cfg, s, DropLetter(k), Garble);
      return [DropLetter(k), Garble];
    }
    assert s.letters[k := l] == s.letters;
    var reply := Serve(cfg, s.m, l.request, t).reply;
    HandleShape(cfg, s, k, t);
    if reply.Some? && EncodeReply(reply.value).Raised? {
      UnwrittenReply(cfg, s.m, l.request, t);
      var n := |s.parcels|;
      var s1 := HandleStep(cfg, s, k, t);
      RemoveLast(s.parcels, Parcel(l.sender, l.request.sender, reply.value));
      RunsThree(cfg, s, Handle(k, t), DropParcel(n), Garble);
      steps := [Handle(k, t), DropParcel(n), Garble];
    } else {
      RunsOne(cfg, s, Handle(k, t));
      steps := [Handle(k, t)];
    }
  }

  /** Unless a mangled task is in transit, a step of the cluster of texts is one or several steps of
      Cluster: losses, unreadable texts and stopping controllers. */
  lemma TextIsSteps(reg: Registry, cfg: Config, s: State, step: Step) returns (steps: seq<Step>)
    requires Enabled(s, step) && ParcelsIn(s.parcels, Faithful(reg))
    ensures Runs(cfg, s, steps, TextNext(reg, cfg, s, step))
  {
    match step {
      case Send(i, woken) => steps := SendIsSteps(cfg, s, i, woken);
      case Deliver(k) => steps := DeliverIsSteps(reg, cfg, s, k);
      case Handle(k, t) => steps := HandleIsSteps(reg, cfg, s, k, t);
      case _ =>
        RunsOne(cfg, s, step);
        steps := [step];
    }
  }

  lemma {:induction false} RunsKeep(cfg: Config, s: State, steps: seq<Step>, s2: State, ts: iset<Task>)
    requires ClusterInv(s) && TasksIn(s, ts) && Runs(cfg, s, steps, s2)
    ensures ClusterInv(s2) && TasksIn(s2, ts)
    decreases |steps|
  {
    if steps != [] {
      MakeKeeps(cfg, s, Inner(steps[0]));
      NextIn(cfg, s, steps[0], ts);
      RunsKeep(cfg, Next(cfg, s, steps[0]), steps[1..], s2, ts);
    }
  }

  // ---- runs

  function TextMake(reg: Registry, cfg: Config, s: State, move: Move): State
    requires Allowed(s, move)
  {
    match move case Inner(step) => TextNext(reg, cfg, s, step) case Outer(q, r) => Surround(s, q, r)
  }

  ghost predicate TextRun(reg: Registry, cfg: Config, ss: seq<State>, moves: seq<Move>) {
    && |ss| == |moves| + 1 && Initial(ss[0])
    && forall i :: 0 <= i < |moves| ==> Follows(reg, cfg, ss[i], moves[i], ss[i + 1])
  }

  ghost predicate Follows(reg: Registry, cfg: Config, s: State, move: Move, s2: State) {
    Allowed(s, move) && s2 == TextMake(reg, cfg, s, move)
  }

  /** The generator queues tasks of ts only. */
  ghost predicate Queues(moves: seq<Move>, ts: iset<Task>) {
    forall i :: 0 <= i < |moves| && moves[i].Outer? ==> QueueIn(moves[i].queue, ts)
  }

  lemma TextMakeKeeps(reg: Registry, cfg: Config, s: State, move: Move)
    requires ClusterInv(s) && TasksIn(s, Faithful(reg)) && Allowed(s, move)
    requires move.Outer? ==> QueueIn(move.queue, Faithful(reg))
    ensures ClusterInv(TextMake(reg, cfg, s, move)) && TasksIn(TextMake(reg, cfg, s, move), Faithful(reg))
  {
    match move {
      case Inner(step) =>
        var steps := TextIsSteps(reg, cfg, s, step);
        RunsKeep(cfg, s, steps, TextNext(reg, cfg, s, step), Faithful(reg));
      case Outer(_, _) => MakeKeeps(cfg, s, move);
    }
  }

  /** Conservation and the copy bound, in every state of every run of one master whose generator
      queues no mangled task. */
  lemma {:induction false} TextRunKeeps(reg: Registry, cfg: Config, ss: seq<State>, moves: seq<Move>, n: nat)
    requires TextRun(reg, cfg, ss, moves) && Queues(moves, Faithful(reg)) && n < |ss|
    ensures ClusterInv(ss[n]) && TasksIn(ss[n], Faithful(reg))
  {
    if n == 0 {
      InitialInv(ss[0]);
    } else {
      TextRunKeeps(reg, cfg, ss, moves, n - 1);
      assert Follows(reg, cfg, ss[n - 1], moves[n - 1], ss[n]);
      TextMakeKeeps(reg, cfg, ss[n - 1], moves[n - 1]);
    }
  }

  // ---- the exact condition

  /** Every run whose generator queues this task only keeps the copy bound. */
  ghost predicate KeepsBound(reg: Registry, cfg: Config, task: Task) {
    forall ss: seq<State>, moves: seq<Move>, n: nat ::
      TextRun(reg, cfg, ss, moves) && Queues(moves, iset{task}) && n < |ss| ==> CopyBound(ss[n])
  }

  const HOST: string := "host"
  const TICK: Tick := Tick(0, 0, 0, true, true)

  function Start(): State {
    State(Fresh(0), [], [], [], multiset{}, multiset{}, multiset{}, multiset{}, multiset{}, multiset{}, [], [], [])
  }

  /** The task is queued, a controller with one worker joins and asks for a task. */
  lemma Asked(reg: Registry, cfg: Config, task: Task) returns (ss: seq<State>, moves: seq<Move>)
    ensures |moves| == 3 && |ss| == 4 && Leads(reg, cfg, task, ss, moves, ss[3])
    ensures ss[3].m == Fresh(0).(queue := [task]) && ss[3].letters == [Letter(0, WantTask(HOST))] && ss[3].parcels == []
    ensures |ss[3].ctrls| == 1 && ss[3].ctrls[0].running && ss[3].ctrls[0].queue == [] && ss[3].resent == multiset{}
  {
    var s0 := Start();
    var s1 := Surround(s0, [task], []);
    var s2 := Next(cfg, s1, Join(HOST, 1));
    assert ShowsReady(s2.ctrls[0].workers[0]);
    assert NextMessage(s2.ctrls[0], false) == Sent(s2.ctrls[0], Some(WantTask(HOST)));
    var s3 := TextSend(s2, 0, false);
    ss, moves := [s0, s1, s2, s3], [Outer([task], []), Inner(Join(HOST, 1)), Inner(Send(0, false))];
    assert Follows(reg, cfg, ss[0], moves[0], ss[1]) && Follows(reg, cfg, ss[1], moves[1], ss[2]);
    assert Follows(reg, cfg, ss[2], moves[2], ss[3]);
  }

  /** A run that queues this task only leads to s. */
  ghost predicate Leads(reg: Registry, cfg: Config, task: Task, ss: seq<State>, moves: seq<Move>, s: State) {
    TextRun(reg, cfg, ss, moves) && Queues(moves, iset{task}) && ss[|moves|] == s
  }

  lemma LeadsOn(reg: Registry, cfg: Config, task: Task, ss: seq<State>, moves: seq<Move>, s: State, step: Step)
    returns (more: seq<State>, all: seq<Move>)
    requires Leads(reg, cfg, task, ss, moves, s) && Enabled(s, step)
    ensures Leads(reg, cfg, task, more, all, TextNext(reg, cfg, s, step))
  {
    more, all := ss + [TextNext(reg, cfg, s, step)], moves + [Inner(step)];
    assert Follows(reg, cfg, s, Inner(step), TextNext(reg, cfg, s, step));
    forall i | 0 <= i < |all| ensures Follows(reg, cfg, more[i], all[i], more[i + 1]) {
      if i < |moves| { assert Follows(reg, cfg, ss[i], moves[i], ss[i + 1]); }
    }
  }

  lemma LeadsAstray(reg: Registry, cfg: Config, task: Task, ss: seq<State>, moves: seq<Move>, s: State)
    requires Leads(reg, cfg, task, ss, moves, s) && !CopyBound(s)
    ensures !KeepsBound(reg, cfg, task)
  {
    assert !CopyBound(ss[|moves|]);
  }

  lemma Answered(cfg: Config, s: State, task: Task)
    requires s.m == Fresh(0).(queue := [task]) && s.letters == [Letter(0, WantTask(HOST))] && s.parcels == []
    requires EncodeReply(Assign(task)).Ok?
    ensures var s2 := TextHandle(cfg, s, 0, TICK);
      && s2.m.status == map[task.tid := StatusItem(IsAssigned, HOST, 0)]
      && s2.parcels == [Parcel(0, HOST, Assign(task))] && s2.ctrls == s.ctrls && s2.resent == s.resent
  {
    RequestFate(WantTask(HOST));
    assert SafeRequest(WantTask(HOST));
    HandleShape(cfg, s, 0, TICK);
    assert s.letters[0 := s.letters[0]] == s.letters;
  }

  /** What a controller has queued is live. */
  lemma QueuedIsLive(s: State, i: nat)
    requires i < |s.ctrls| && s.ctrls[i].queue != []
    ensures Live(s)[Copy(s.ctrls[i].queue[0].tid)] >= 1
  {
    SumRemove("", s.ctrls, i, CtrlMarks);
    QueueHead(s.ctrls[i]);
  }

  lemma Misdelivered(reg: Registry, s: State, task: Task)
    requires Typed(reg, task) && Importable(reg, task) && Mangled(task)
    requires s.parcels == [Parcel(0, HOST, Assign(task))] && |s.ctrls| == 1 && s.ctrls[0].running && s.ctrls[0].queue == []
    ensures var s2 := TextDeliver(reg, s, 0);
      |s2.ctrls| == 1 && s2.ctrls[0].queue == [Misread(task)] && s2.m == s.m && s2.resent == s.resent
  {
    TaskFate.TaskFate(reg, task);
    MangledIsAnother(task);
  }

  /** The controller holds a task that the master never assigned. */
  lemma MisreadBreaks(s: State, task: Task)
    requires Mangled(task) && |s.ctrls| == 1 && s.ctrls[0].queue == [Misread(task)]
    requires s.m.status.Keys == {task.tid} && s.resent == multiset{}
    ensures !CopyBound(s)
  {
    MangledIsAnother(task);
    QueuedIsLive(s, 0);
    assert !InStateAssigned(s.m, Misread(task).tid);
  }

  lemma MangledBreaks(reg: Registry, cfg: Config, task: Task)
    requires Typed(reg, task) && Importable(reg, task) && Mangled(task)
    ensures !KeepsBound(reg, cfg, task)
  {
    var ss, moves := Asked(reg, cfg, task);
    var s3 := ss[3];
    SplitOfTid(task);
    TextOfTask(task);
    Answered(cfg, s3, task);
    var s4 := TextHandle(cfg, s3, 0, TICK);
    ss, moves := LeadsOn(reg, cfg, task, ss, moves, s3, Handle(0, TICK));
    ss, moves := LeadsOn(reg, cfg, task, ss, moves, s4, Deliver(0));
    Misdelivered(reg, s4, task);
    MisreadBreaks(TextDeliver(reg, s4, 0), task);
    LeadsAstray(reg, cfg, task, ss, moves, TextDeliver(reg, s4, 0));
  }

  lemma SplitOfTid(task: Task)
    requires Mangled(task)
    ensures task.tid != ""
  {
  }

  /** The copy bound holds in every run whose generator queues a task that controllers can import
      exactly when the task is not mangled: exactly when its tid is not two fields, or its
      arguments are not those that an empty body hides. */
  lemma CopyBoundIff(reg: Registry, cfg: Config, task: Task)
    requires Typed(reg, task) && Importable(reg, task)
    ensures KeepsBound(reg, cfg, task) <==> !Mangled(task)
  {
    if Mangled(task) {
      MangledBreaks(reg, cfg, task);
    } else {
      forall ss: seq<State>, moves: seq<Move>, n: nat
        | TextRun(reg, cfg, ss, moves) && Queues(moves, iset{task}) && n < |ss|
        ensures CopyBound(ss[n])
      {
        assert forall i :: 0 <= i < |moves| && moves[i].Outer? ==> QueueIn(moves[i].queue, Faithful(reg));
        TextRunKeeps(reg, cfg, ss, moves, n);
      }
    }
  }
}
