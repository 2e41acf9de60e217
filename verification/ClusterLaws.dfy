/** What every step of the cluster keeps: no copy of a task appears or disappears unaccounted. */
module ClusterLaws {
  import opened Collections
  import opened Wire
  import opened Master
  import opened Controller
  import opened Marks
  import opened Cluster

  ghost predicate LetterNamed(ctrls: seq<Ctrl>, l: Letter) {
    l.sender < |ctrls| && l.request.sender == ctrls[l.sender].name
  }

  ghost predicate ParcelNamed(ctrls: seq<Ctrl>, p: Parcel) {
    p.receiver < |ctrls| && p.owner == ctrls[p.receiver].name
  }

  /** Requests carry the name of their controller, and replies go back to it. */
  ghost predicate Named(s: State) {
    && (forall l :: l in s.letters ==> LetterNamed(s.ctrls, l))
    && (forall p :: p in s.parcels ==> ParcelNamed(s.ctrls, p))
  }

  /** Controllers are never renamed. */
  ghost predicate KeepsNames(a: seq<Ctrl>, b: seq<Ctrl>) {
    |a| <= |b| && forall i :: 0 <= i < |a| ==> b[i].name == a[i].name
  }

  lemma NamedMore(s: State, s2: State)
    requires Named(s) && KeepsNames(s.ctrls, s2.ctrls)
    requires forall l :: l in s2.letters ==> l in s.letters || LetterNamed(s2.ctrls, l)
    requires forall p :: p in s2.parcels ==> p in s.parcels || ParcelNamed(s2.ctrls, p)
    ensures Named(s2)
  {
  }

  lemma HandleShape(cfg: Config, s: State, k: nat, t: Tick)
    requires k < |s.letters|
    ensures var s2 := HandleStep(cfg, s, k, t);
      var served := Serve(cfg, s.m, s.letters[k].request, t);
      && s2.m == served.m && s2.ctrls == s.ctrls && s2.letters == RemoveAt(s.letters, k) && s2.lost == s.lost
      && s2.runs == s.runs
      && s2.parcels == (match served.reply
                        case None => s.parcels
                        case Some(r) => s.parcels + [Parcel(s.letters[k].sender, s.letters[k].request.sender, r)])
  {
  }

  lemma SendNamed(cfg: Config, s: State, i: nat, woken: bool)
    requires Named(s) && Enabled(s, Send(i, woken))
    ensures Named(SendStep(s, i, woken)) && KeepsNames(s.ctrls, SendStep(s, i, woken).ctrls)
  {
    NextMessageSender(s.ctrls[i], woken);
    NamedMore(s, SendStep(s, i, woken));
  }

  lemma NextMessageSender(c: Ctrl, woken: bool)
    ensures NextMessage(c, woken).c.name == c.name
    ensures NextMessage(c, woken).request.Some? ==> NextMessage(c, woken).request.value.sender == c.name
  {
  }

  predicate AtWorker(step: Step) {
    step.Pop? || step.Begin? || step.Finish? || step.Rest? || step.Die?
  }

  lemma WorkerNamed(cfg: Config, s: State, step: Step)
    requires Named(s) && Enabled(s, step) && AtWorker(step)
    ensures Named(Next(cfg, s, step)) && KeepsNames(s.ctrls, Next(cfg, s, step).ctrls)
  {
    var s2 := Next(cfg, s, step);
    assert s2.letters == s.letters && s2.parcels == s.parcels;
    assert KeepsNames(s.ctrls, s2.ctrls);
  }

  lemma RemoveIn<T>(xs: seq<T>, k: nat)
    requires k < |xs|
    ensures forall x :: x in RemoveAt(xs, k) ==> x in xs
  {
  }

  lemma NextNamed(cfg: Config, s: State, step: Step)
    requires Named(s) && Enabled(s, step)
    ensures Named(Next(cfg, s, step)) && KeepsNames(s.ctrls, Next(cfg, s, step).ctrls)
  {
    match step {
      case Send(i, woken) => SendNamed(cfg, s, i, woken);
      case Handle(k, t) =>
        HandleShape(cfg, s, k, t);
        RemoveIn(s.letters, k);
        assert LetterNamed(s.ctrls, s.letters[k]);
        NamedMore(s, HandleStep(cfg, s, k, t));
      case Deliver(k) =>
        RemoveIn(s.parcels, k);
        NamedMore(s, DeliverStep(s, k));
      case DropLetter(k) => RemoveIn(s.letters, k);
      case DropParcel(k) => RemoveIn(s.parcels, k);
      case Join(_, _) => NamedMore(s, Next(cfg, s, step));
      case Mute(i, max) => NamedMore(s, MuteStep(s, i, max));
      case StopCtrl(i) => NamedMore(s, Next(cfg, s, step));
      case Garble =>
      case Poll(_) =>
      case StopMaster =>
      case _ => WorkerNamed(cfg, s, step);
    }
  }

  /** Everything ever assigned or run is somewhere: live, lost, accepted, refused or dismissed. */
  ghost predicate Conserved(s: State) {
    s.created == Live(s) + s.lost + s.accepted + s.refused + s.dismissed
  }

  ghost function Settled(s: State): multiset<Mark> { s.lost + s.accepted + s.refused + s.dismissed }

  /** A step moves marks: what is born joins, what is settled leaves. */
  ghost predicate Moves(s: State, s2: State, born: multiset<Mark>, gone: multiset<Mark>) {
    && s2.created == s.created + born
    && Settled(s2) == Settled(s) + gone
    && Live(s2) + gone == Live(s) + born
  }

  lemma MovesConserve(s: State, s2: State, born: multiset<Mark>, gone: multiset<Mark>)
    requires Conserved(s) && Moves(s, s2, born, gone)
    ensures Conserved(s2)
  {
    forall k ensures s2.created[k] == (Live(s2) + Settled(s2))[k] {
      assert (Live(s2) + gone)[k] == (Live(s) + born)[k];
      assert s.created[k] == (Live(s) + Settled(s))[k];
    }
    assert s2.created == Live(s2) + Settled(s2);
  }

  /** Replacing one controller changes the live marks by that controller's change. */
  lemma CtrlChange(s: State, i: nat, c: Ctrl, born: multiset<Mark>, gone: multiset<Mark>)
    requires i < |s.ctrls| && CtrlMarks("", c) + gone == CtrlMarks("", s.ctrls[i]) + born
    ensures Live(SetCtrl(s, i, c)) + gone == Live(s) + born
  {
    SumUpdate("", s.ctrls, i, c, CtrlMarks);
    var others := Sum("", s.letters, LetterMarks) + Sum("", s.parcels, ParcelMarks);
    forall k ensures (Live(SetCtrl(s, i, c)) + gone)[k] == (Live(s) + born)[k] {
      assert (Sum("", s.ctrls[i := c], CtrlMarks) + CtrlMarks("", s.ctrls[i]))[k]
          == (Sum("", s.ctrls, CtrlMarks) + CtrlMarks("", c))[k];
      assert (CtrlMarks("", c) + gone)[k] == (CtrlMarks("", s.ctrls[i]) + born)[k];
    }
  }

  // ---- the marks of a controller

  lemma QueueHead(c: Ctrl)
    requires c.queue != []
    ensures Sum(c.name, c.queue, TaskMarks) == Waiting(c.name, c.queue[0].tid) + Sum(c.name, c.queue[1..], TaskMarks)
  {
  }

  lemma WorkerChange(c: Ctrl, w: nat, p: Phase)
    requires w < |c.workers|
    ensures CtrlMarks("", SetWorker(c, w, p)) + PhaseMarks(c.name, c.workers[w])
      == CtrlMarks("", c) + PhaseMarks(c.name, p)
  {
    SumUpdate(c.name, c.workers, w, p, PhaseMarks);
    var q, r := Sum(c.name, c.queue, TaskMarks), Sum(c.name, c.results, TidMarks);
    var x, y := Sum(c.name, c.workers[w := p], PhaseMarks), Sum(c.name, c.workers, PhaseMarks);
    forall k ensures (q + x + r + PhaseMarks(c.name, c.workers[w]))[k] == (q + y + r + PhaseMarks(c.name, p))[k] {
      assert (x + PhaseMarks(c.name, c.workers[w]))[k] == (y + PhaseMarks(c.name, p))[k];
    }
  }

  lemma PopMarks(c: Ctrl, w: nat)
    requires w < |c.workers| && c.queue != [] && c.workers[w].Idle?
    ensures CtrlMarks("", PopTask(c, w)) == CtrlMarks("", c)
  {
    var c1 := c.(queue := c.queue[1..]);
    QueueHead(c);
    WorkerChange(c1, w, Popped(c.queue[0]));
    var head := Waiting(c.name, c.queue[0].tid);
    assert CtrlMarks("", c1) + head == CtrlMarks("", c);
  }

  /** Taking the same marks away on both sides. */
  lemma Peel(x: multiset<Mark>, y: multiset<Mark>, both: multiset<Mark>)
    requires x + both == y + both
    ensures x == y
  {
    forall k ensures x[k] == y[k] { assert (x + both)[k] == (y + both)[k]; }
  }

  lemma ReportMarks(c: Ctrl, w: nat)
    requires w < |c.workers| && c.workers[w].Executing? && c.workers[w].task.tid != ""
    ensures CtrlMarks("", Report(c, w)) == CtrlMarks("", c) + multiset{RunAt(c.name, c.workers[w].task.tid)}
  {
    var tid := c.workers[w].task.tid;
    var c1 := c.(results := c.results + [tid]);
    ResultsAppend(c, tid);
    WorkerChange(c1, w, Reported);
    assert Ran(c.name, tid) == multiset{RunAt(c.name, tid)} + Waiting(c.name, tid);
    assert Report(c, w) == SetWorker(c1, w, Reported);
    Peel(CtrlMarks("", Report(c, w)), CtrlMarks("", c) + multiset{RunAt(c.name, tid)}, Waiting(c.name, tid));
  }

  lemma AddRun(x: multiset<Mark>, y: multiset<Mark>, waiting: multiset<Mark>, run: multiset<Mark>)
    requires x + waiting == y + multiset{}
    ensures x + (waiting + run) == y + run
  {
    assert x + waiting == y;
    assert x + (waiting + run) == (x + waiting) + run;
  }

  lemma UnreportedMarks(c: Ctrl, w: nat)
    requires w < |c.workers| && c.workers[w].Executing? && c.workers[w].task.tid == ""
    ensures CtrlMarks("", Report(c, w)) + Ran(c.name, "") == CtrlMarks("", c) + multiset{RunAt(c.name, "")}
  {
    WorkerChange(c, w, Dead);
    AddRun(CtrlMarks("", Report(c, w)), CtrlMarks("", c), Waiting(c.name, ""), multiset{RunAt(c.name, "")});
    assert Ran(c.name, "") == Waiting(c.name, "") + multiset{RunAt(c.name, "")};
  }

  lemma ReceiveMarks(c: Ctrl, reply: Reply)
    ensures CtrlMarks("", Receive(c, reply)) == CtrlMarks("", c) + ParcelMarks("", Parcel(0, c.name, reply))
  {
    if reply.Assign? {
      SumAppend(c.name, c.queue, reply.task, TaskMarks);
      QueueAppended(Sum(c.name, c.queue, TaskMarks), Sum(c.name, c.workers, PhaseMarks), Sum(c.name, c.results, TidMarks),
                    Waiting(c.name, reply.task.tid));
    }
  }

  lemma QueueAppended(q: multiset<Mark>, w: multiset<Mark>, r: multiset<Mark>, x: multiset<Mark>)
    ensures (q + x) + w + r == (q + w + r) + x
  {
  }

  function OptMarks(r: Option<Request>): multiset<Mark> {
    match r case None => multiset{} case Some(v) => RequestMarks(v)
  }

  /** The two shapes of a chosen message. */
  lemma NextMessageShape(c: Ctrl, woken: bool)
    ensures var sent := NextMessage(c, woken);
      sent.c == c.(results := if c.results == [] then [] else c.results[1..], running := sent.c.running)
    ensures NextMessage(c, woken).request.Some? && NextMessage(c, woken).request.value.Finished? ==>
      c.results != [] && c.results[0] != "" && NextMessage(c, woken).request.value == Finished(c.name, c.results[0])
    ensures c.results != [] && c.results[0] != "" ==> NextMessage(c, woken).request == Some(Finished(c.name, c.results[0]))
  {
  }

  lemma NextMessageMarks(c: Ctrl, woken: bool)
    ensures CtrlMarks("", NextMessage(c, woken).c) + Forgotten(c) + OptMarks(NextMessage(c, woken).request) == CtrlMarks("", c)
  {
    NextMessageShape(c, woken);
    if c.results != [] {
      ResultsHead(c);
    }
  }

  lemma ResultsHead(c: Ctrl)
    requires c.results != []
    ensures CtrlMarks("", c.(results := c.results[1..])) + Ran(c.name, c.results[0]) == CtrlMarks("", c)
  {
  }

  lemma ResultsAppend(c: Ctrl, tid: string)
    ensures CtrlMarks("", c.(results := c.results + [tid])) == CtrlMarks("", c) + Ran(c.name, tid)
  {
    SumAppend(c.name, c.results, tid, TidMarks);
  }

  // ---- every step moves marks, and loses none

  function OutcomeBorn(o: Outcome): multiset<Mark> {
    if o.Handed? then Waiting(o.owner, o.task.tid) else multiset{}
  }

  /** The marks a step creates and the marks it settles. */
  function Born(cfg: Config, s: State, step: Step): multiset<Mark>
    requires Enabled(s, step)
  {
    match step
    case Finish(i, w) => multiset{RunAt(s.ctrls[i].name, s.ctrls[i].workers[w].task.tid)}
    case Handle(k, t) => OutcomeBorn(Serve(cfg, s.m, s.letters[k].request, t).outcome)
    case _ => multiset{}
  }

  function Gone(cfg: Config, s: State, step: Step): multiset<Mark>
    requires Enabled(s, step)
  {
    match step
    case Send(i, _) => Forgotten(s.ctrls[i])
    case Finish(i, w) => Unreported(s.ctrls[i].name, s.ctrls[i].workers[w].task.tid)
    case Die(i, w) => PhaseMarks(s.ctrls[i].name, s.ctrls[i].workers[w])
    case Handle(k, _) => RequestMarks(s.letters[k].request)
    case DropLetter(k) => LetterMarks("", s.letters[k])
    case DropParcel(k) => ParcelMarks("", s.parcels[k])
    case _ => multiset{}
  }

  lemma LettersAppend(s: State, s2: State, l: Letter)
    requires s2.ctrls == s.ctrls && s2.parcels == s.parcels && s2.letters == s.letters + [l]
    ensures Live(s2) == Live(s) + LetterMarks("", l)
  {
    SumAppend("", s.letters, l, LetterMarks);
  }

  lemma LettersRemove(s: State, s2: State, k: nat)
    requires k < |s.letters|
    requires s2.ctrls == s.ctrls && s2.parcels == s.parcels && s2.letters == RemoveAt(s.letters, k)
    ensures Live(s2) + LetterMarks("", s.letters[k]) == Live(s)
  {
    SumRemove("", s.letters, k, LetterMarks);
  }

  lemma ParcelsAppend(s: State, s2: State, p: Parcel)
    requires s2.ctrls == s.ctrls && s2.letters == s.letters && s2.parcels == s.parcels + [p]
    ensures Live(s2) == Live(s) + ParcelMarks("", p)
  {
    SumAppend("", s.parcels, p, ParcelMarks);
  }

  lemma ParcelsRemove(s: State, s2: State, k: nat)
    requires k < |s.parcels|
    requires s2.ctrls == s.ctrls && s2.letters == s.letters && s2.parcels == RemoveAt(s.parcels, k)
    ensures Live(s2) + ParcelMarks("", s.parcels[k]) == Live(s)
  {
    SumRemove("", s.parcels, k, ParcelMarks);
  }

  lemma SendMoves(s: State, i: nat, woken: bool)
    requires Enabled(s, Send(i, woken))
    ensures Moves(s, SendStep(s, i, woken), multiset{}, Forgotten(s.ctrls[i]))
  {
    var c := s.ctrls[i];
    var sent := NextMessage(c, woken);
    var s1 := SetCtrl(s, i, sent.c);
    NextMessageMarks(c, woken);
    CtrlChange(s, i, sent.c, multiset{}, Forgotten(c) + OptMarks(sent.request));
    assert Live(s1) + (Forgotten(c) + OptMarks(sent.request)) == Live(s);
    SendLive(s, i, woken, s1);
  }

  lemma SendLive(s: State, i: nat, woken: bool, s1: State)
    requires Enabled(s, Send(i, woken)) && s1 == SetCtrl(s, i, NextMessage(s.ctrls[i], woken).c)
    ensures var s2 := SendStep(s, i, woken);
      && Live(s2) == Live(s1) + OptMarks(NextMessage(s.ctrls[i], woken).request)
      && s2.created == s.created && Settled(s2) == Settled(s) + Forgotten(s.ctrls[i])
  {
    var r := NextMessage(s.ctrls[i], woken).request;
    if r.Some? { LettersAppend(s1, SendStep(s, i, woken), Letter(i, r.value)); }
  }

  lemma DeliverMoves(s: State, k: nat)
    requires Named(s) && Enabled(s, Deliver(k))
    ensures Moves(s, DeliverStep(s, k), multiset{}, multiset{})
  {
    var p := s.parcels[k];
    assert ParcelNamed(s.ctrls, p);
    var c := s.ctrls[p.receiver];
    var s1 := SetCtrl(s, p.receiver, Receive(c, p.reply));
    ReceiveMarks(c, p.reply);
    CtrlChange(s, p.receiver, Receive(c, p.reply), ParcelMarks("", p), multiset{});
    ParcelsRemove(s1, DeliverStep(s, k), k);
    Peel(Live(DeliverStep(s, k)), Live(s), ParcelMarks("", p));
  }

  /** A task is in the reply exactly when it was handed out, to the sender. */
  lemma ServeReply(cfg: Config, m: Master, r: Request, t: Tick)
    ensures var v := Serve(cfg, m, r, t);
      && (v.outcome.Handed? ==> v.reply == Some(Assign(v.outcome.task)) && v.outcome.owner == r.sender)
      && (!v.outcome.Handed? ==> v.reply.None? || !v.reply.value.Assign?)
  {
  }

  lemma ServeKind(cfg: Config, m: Master, r: Request, t: Tick)
    ensures var v := Serve(cfg, m, r, t);
      && (r.Finished? ==> v.outcome.Accepted? || v.outcome.Refused? || v.outcome.UnknownTid? || v.outcome.Dismissed?)
      && (v.outcome.Accepted? || v.outcome.Refused? || v.outcome.UnknownTid? ==> r.Finished?)
  {
  }

  /** What a served request means for the copies. */
  lemma ServeMarks(cfg: Config, m: Master, r: Request, t: Tick)
    ensures var v := Serve(cfg, m, r, t);
      && OutcomeBorn(v.outcome) == (if v.reply.Some? then ParcelMarks("", Parcel(0, r.sender, v.reply.value)) else multiset{})
      && (r.Finished? ==> v.outcome.Accepted? || v.outcome.Refused? || v.outcome.UnknownTid? || v.outcome.Dismissed?)
      && (v.outcome.Accepted? || v.outcome.Refused? || v.outcome.UnknownTid? ==> r.Finished?)
  {
    ServeReply(cfg, m, r, t);
    ServeKind(cfg, m, r, t);
  }

  lemma HandleMoves(cfg: Config, s: State, k: nat, t: Tick)
    requires k < |s.letters|
    ensures var v := Serve(cfg, s.m, s.letters[k].request, t);
      Moves(s, HandleStep(cfg, s, k, t), OutcomeBorn(v.outcome), RequestMarks(s.letters[k].request))
  {
    var v := Serve(cfg, s.m, s.letters[k].request, t);
    var s1 := s.(letters := RemoveAt(s.letters, k));
    ServeMarks(cfg, s.m, s.letters[k].request, t);
    HandleShape(cfg, s, k, t);
    LettersRemove(s, s1, k);
    if v.reply.Some? {
      ParcelsAppend(s1, HandleStep(cfg, s, k, t), Parcel(s.letters[k].sender, s.letters[k].request.sender, v.reply.value));
    }
    var s2 := HandleStep(cfg, s, k, t);
    BookSettles(s.(m := v.m, letters := s2.letters, parcels := s2.parcels), v.outcome, RequestMarks(s.letters[k].request));
  }

  lemma BookSettles(s: State, o: Outcome, marks: multiset<Mark>)
    requires o.Accepted? || o.Refused? || o.UnknownTid? || o.Dismissed? || marks == multiset{}
    ensures Book(s, o, marks).created == s.created + OutcomeBorn(o)
    ensures Settled(Book(s, o, marks)) == Settled(s) + marks
  {
    var s2 := Book(s, o, marks);
    match o {
      case Accepted(_, _) => assert s2.accepted == s.accepted + marks;
      case Refused(_, _) => assert s2.refused == s.refused + marks;
      case UnknownTid(_, _) => assert s2.refused == s.refused + marks;
      case Dismissed(_) => assert s2.dismissed == s.dismissed + marks;
      case _ =>
    }
  }

  lemma PopMoves(s: State, i: nat, w: nat)
    requires Enabled(s, Pop(i, w))
    ensures Moves(s, SetCtrl(s, i, PopTask(s.ctrls[i], w)), multiset{}, multiset{})
  {
    PopMarks(s.ctrls[i], w);
    CtrlChange(s, i, PopTask(s.ctrls[i], w), multiset{}, multiset{});
  }

  lemma BeginMoves(s: State, i: nat, w: nat)
    requires Enabled(s, Begin(i, w))
    ensures Moves(s, SetCtrl(s, i, SetWorker(s.ctrls[i], w, Executing(s.ctrls[i].workers[w].task))), multiset{}, multiset{})
  {
    var c := s.ctrls[i];
    var c2 := SetWorker(c, w, Executing(c.workers[w].task));
    WorkerChange(c, w, Executing(c.workers[w].task));
    Peel(CtrlMarks("", c2), CtrlMarks("", c), PhaseMarks(c.name, c.workers[w]));
    CtrlChange(s, i, c2, multiset{}, multiset{});
  }

  lemma FinishMoves(s: State, i: nat, w: nat)
    requires Enabled(s, Finish(i, w))
    ensures Moves(s, FinishStep(s, i, w), multiset{RunAt(s.ctrls[i].name, s.ctrls[i].workers[w].task.tid)},
                  Unreported(s.ctrls[i].name, s.ctrls[i].workers[w].task.tid))
  {
    var c := s.ctrls[i];
    var tid := c.workers[w].task.tid;
    if tid == "" { UnreportedMarks(c, w); } else { ReportMarks(c, w); }
    CtrlChange(s, i, Report(c, w), multiset{RunAt(c.name, tid)}, Unreported(c.name, tid));
    assert Live(FinishStep(s, i, w)) == Live(SetCtrl(s, i, Report(c, w)));
  }

  lemma RestMoves(s: State, i: nat, w: nat)
    requires Enabled(s, Rest(i, w))
    ensures Moves(s, SetCtrl(s, i, SetWorker(s.ctrls[i], w, Idle)), multiset{}, multiset{})
  {
    WorkerChange(s.ctrls[i], w, Idle);
    CtrlChange(s, i, SetWorker(s.ctrls[i], w, Idle), multiset{}, multiset{});
  }

  lemma DieMoves(cfg: Config, s: State, i: nat, w: nat)
    requires Enabled(s, Die(i, w))
    ensures Moves(s, Next(cfg, s, Die(i, w)), multiset{}, PhaseMarks(s.ctrls[i].name, s.ctrls[i].workers[w]))
  {
    var c := s.ctrls[i];
    WorkerChange(c, w, Dead);
    CtrlChange(s, i, SetWorker(c, w, Dead), multiset{}, PhaseMarks(c.name, c.workers[w]));
    assert Live(Next(cfg, s, Die(i, w))) == Live(SetCtrl(s, i, SetWorker(c, w, Dead)));
  }

  lemma WorkerMoves(cfg: Config, s: State, step: Step)
    requires Enabled(s, step) && AtWorker(step)
    ensures Moves(s, Next(cfg, s, step), Born(cfg, s, step), Gone(cfg, s, step))
  {
    match step {
      case Pop(i, w) => PopMoves(s, i, w);
      case Begin(i, w) => BeginMoves(s, i, w);
      case Finish(i, w) => FinishMoves(s, i, w);
      case Rest(i, w) => RestMoves(s, i, w);
      case Die(i, w) => DieMoves(cfg, s, i, w);
    }
  }

  lemma CtrlFieldMoves(s: State, i: nat, c: Ctrl)
    requires i < |s.ctrls| && c == s.ctrls[i].(running := c.running, retries := c.retries)
    ensures Moves(s, SetCtrl(s, i, c), multiset{}, multiset{})
  {
    CtrlChange(s, i, c, multiset{}, multiset{});
  }

  lemma {:induction false} IdleMarks(name: string, n: nat)
    ensures Sum(name, seq(n, _ => Idle), PhaseMarks) == multiset{}
  {
    if n > 0 {
      IdleMarks(name, n - 1);
      assert seq(n, _ => Idle)[1..] == seq(n - 1, _ => Idle);
    }
  }

  lemma JoinMoves(cfg: Config, s: State, name: string, workers: nat)
    ensures Moves(s, Next(cfg, s, Join(name, workers)), multiset{}, multiset{})
  {
    IdleMarks(name, workers);
    SumAppend("", s.ctrls, Ctrl(name, [], seq(workers, _ => Idle), [], 0, true), CtrlMarks);
  }

  lemma DropMoves(cfg: Config, s: State, step: Step)
    requires Enabled(s, step) && (step.DropLetter? || step.DropParcel?)
    ensures Moves(s, Next(cfg, s, step), Born(cfg, s, step), Gone(cfg, s, step))
  {
    match step {
      case DropLetter(k) => LettersRemove(s, Next(cfg, s, step), k);
      case DropParcel(k) => ParcelsRemove(s, Next(cfg, s, step), k);
    }
  }

  lemma MuteMoves(s: State, i: nat, max: nat)
    requires i < |s.ctrls|
    ensures Moves(s, MuteStep(s, i, max), multiset{}, multiset{})
  {
    var c := s.ctrls[i];
    CtrlFieldMoves(s, i, c.(running := c.running && c.retries != max, retries := c.retries + 1));
  }

  lemma StepMoves(cfg: Config, s: State, step: Step)
    requires Named(s) && Enabled(s, step)
    ensures Moves(s, Next(cfg, s, step), Born(cfg, s, step), Gone(cfg, s, step))
  {
    match step {
      case Send(i, woken) => SendMoves(s, i, woken);
      case Deliver(k) => DeliverMoves(s, k);
      case Mute(i, max) => MuteMoves(s, i, max);
      case Handle(k, t) => HandleMoves(cfg, s, k, t);
      case Garble =>
      case Poll(_) =>
      case StopMaster =>
      case DropLetter(_) => DropMoves(cfg, s, step);
      case DropParcel(_) => DropMoves(cfg, s, step);
      case Join(name, workers) => JoinMoves(cfg, s, name, workers);
      case StopCtrl(i) => CtrlFieldMoves(s, i, s.ctrls[i].(running := false));
      case _ => WorkerMoves(cfg, s, step);
    }
  }

  /** The network may lose any message; a running master may read, time out, fail or be stopped; any
      controller may stop and any worker may end; and controllers may join, at any time. */
  lemma NothingIsRuledOut(s: State)
    ensures forall k: nat :: Enabled(s, DropLetter(k)) <==> k < |s.letters|
    ensures forall k: nat :: Enabled(s, DropParcel(k)) <==> k < |s.parcels|
    ensures forall k: nat, t :: s.m.running ==> (Enabled(s, Handle(k, t)) <==> k < |s.letters|)
    ensures s.m.running ==> Enabled(s, Garble) && Enabled(s, StopMaster) && forall last :: Enabled(s, Poll(last))
    ensures forall i: nat :: Enabled(s, StopCtrl(i)) <==> i < |s.ctrls|
    ensures forall i: nat, w: nat :: Enabled(s, Die(i, w)) <==> i < |s.ctrls| && w < |s.ctrls[i].workers|
    ensures forall i: nat, woken :: i < |s.ctrls| && s.ctrls[i].running ==> Enabled(s, Send(i, woken))
    ensures forall i: nat, max: nat :: i < |s.ctrls| && s.ctrls[i].running ==> Enabled(s, Mute(i, max))
    ensures forall name, n: nat :: Enabled(s, Join(name, n))
  {
  }
}
