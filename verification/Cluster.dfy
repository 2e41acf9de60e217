/** One master, any number of controllers with their workers, and a network that delivers each
    request and each reply at most once, in any order, and may lose either. The task generator is
    the environment: it may do anything to the shared queues between two steps. */
module Cluster {
  import opened Collections
  import opened Wire
  import opened Master
  import opened Controller
  import opened Marks

  datatype Letter = Letter(sender: nat, request: Request)
  datatype Parcel = Parcel(receiver: nat, owner: string, reply: Reply)
  datatype Run = Run(controller: string, tid: string)

  datatype State = State(
    m: Master,
    ctrls: seq<Ctrl>,
    letters: seq<Letter>,            // requests in transit
    parcels: seq<Parcel>,            // replies in transit
    // histories
    created: multiset<Mark>,         // all copies ever assigned, all runs ever completed
    lost: multiset<Mark>,            // on the network, with a worker
    accepted: multiset<Mark>,
    refused: multiset<Mark>,         // finished messages not accepted
    dismissed: multiset<Mark>,       // finished messages answered with the exit command
    resent: multiset<string>,        // assignments by timeout while still assigned
    runs: seq<Run>,                  // completed executions
    acceptances: seq<Run>,           // accepted finishes, with the recorded owner
    recorded: seq<string>)           // everything ever put into the result queue

  datatype Step =
    | Send(i: nat, woken: bool)      // controller i: choose a message and send it
    | Deliver(k: nat)                // reply k reaches its controller
    | Mute(i: nat, max: nat)         // controller i: no reply
    | Pop(i: nat, w: nat)            // worker: pop returns
    | Begin(i: nat, w: nat)          // worker: shows EXECUTING
    | Finish(i: nat, w: nat)         // worker: execution ended, tid pushed
    | Rest(i: nat, w: nat)           // worker: shows READY
    | Die(i: nat, w: nat)            // worker process ends
    | Handle(k: nat, t: Tick)        // master: request k
    | Garble                         // master: a text it cannot read or a reply it cannot write
    | Poll(last: int)                // master: poll timeout
    | StopMaster
    | DropLetter(k: nat)
    | DropParcel(k: nat)
    | Join(name: string, workers: nat)
    | StopCtrl(i: nat)

  // ---- where the copies are

  function TaskMarks(owner: string, task: Task): multiset<Mark> { Waiting(owner, task.tid) }

  function PhaseMarks(owner: string, p: Phase): multiset<Mark> {
    if p.Popped? || p.Executing? then Waiting(owner, p.task.tid) else multiset{}
  }

  function TidMarks(owner: string, tid: string): multiset<Mark> { Ran(owner, tid) }

  /** The marks of a sequence are summed with its owner at hand; controllers and messages name
      theirs themselves and do without. */
  ghost function CtrlMarks(outer: string, c: Ctrl): multiset<Mark> {
    Sum(c.name, c.queue, TaskMarks) + Sum(c.name, c.workers, PhaseMarks) + Sum(c.name, c.results, TidMarks)
  }

  function RequestMarks(r: Request): multiset<Mark> {
    if r.Finished? then Ran(r.sender, r.tid) else multiset{}
  }

  function LetterMarks(outer: string, l: Letter): multiset<Mark> { RequestMarks(l.request) }

  function ParcelMarks(outer: string, p: Parcel): multiset<Mark> {
    if p.reply.Assign? then Waiting(p.owner, p.reply.task.tid) else multiset{}
  }

  /** The copies in the cluster: assigned and in transit, queued, executing, unreported, or
      finished and in transit. */
  ghost function Live(s: State): multiset<Mark> {
    Sum("", s.ctrls, CtrlMarks) + Sum("", s.letters, LetterMarks) + Sum("", s.parcels, ParcelMarks)
  }

  // ---- steps

  predicate IsWorker(s: State, i: nat, w: nat) { i < |s.ctrls| && w < |s.ctrls[i].workers| }

  predicate Enabled(s: State, step: Step) {
    match step
    case Send(i, _) => i < |s.ctrls| && s.ctrls[i].running
    case Deliver(k) => k < |s.parcels| && s.parcels[k].receiver < |s.ctrls| && s.ctrls[s.parcels[k].receiver].running
    case Mute(i, _) => i < |s.ctrls| && s.ctrls[i].running
    case Pop(i, w) => IsWorker(s, i, w) && s.ctrls[i].workers[w].Idle? && s.ctrls[i].queue != []
    case Begin(i, w) => IsWorker(s, i, w) && s.ctrls[i].workers[w].Popped?
    case Finish(i, w) => IsWorker(s, i, w) && s.ctrls[i].workers[w].Executing?
    case Rest(i, w) => IsWorker(s, i, w) && s.ctrls[i].workers[w].Reported?
    case Die(i, w) => IsWorker(s, i, w)
    case Handle(k, _) => k < |s.letters| && s.m.running
    case Garble => s.m.running
    case Poll(_) => s.m.running
    case StopMaster => s.m.running
    case DropLetter(k) => k < |s.letters|
    case DropParcel(k) => k < |s.parcels|
    case Join(_, _) => true
    case StopCtrl(i) => i < |s.ctrls|
  }

  function SetCtrl(s: State, i: nat, c: Ctrl): State
    requires i < |s.ctrls|
  {
    s.(ctrls := s.ctrls[i := c])
  }

  /** A result with an empty tid is popped and forgotten. */
  function Forgotten(c: Ctrl): multiset<Mark> {
    if c.results != [] && c.results[0] == "" then Ran(c.name, "") else multiset{}
  }

  function SendStep(s: State, i: nat, woken: bool): State
    requires Enabled(s, Send(i, woken))
  {
    var sent := NextMessage(s.ctrls[i], woken);
    var s1 := SetCtrl(s, i, sent.c).(lost := s.lost + Forgotten(s.ctrls[i]));
    match sent.request case None => s1 case Some(r) => s1.(letters := s.letters + [Letter(i, r)])
  }

  function DeliverStep(s: State, k: nat): State
    requires Enabled(s, Deliver(k))
  {
    var p := s.parcels[k];
    SetCtrl(s, p.receiver, Receive(s.ctrls[p.receiver], p.reply)).(parcels := RemoveAt(s.parcels, k))
  }

  function MuteStep(s: State, i: nat, max: nat): State
    requires i < |s.ctrls|
  {
    var c := s.ctrls[i];
    SetCtrl(s, i, c.(running := c.running && c.retries != max, retries := c.retries + 1))
  }

  /** A task without a tid is executed but not reported. */
  function Unreported(name: string, tid: string): multiset<Mark> {
    if tid == "" then Ran(name, tid) else multiset{}
  }

  function FinishStep(s: State, i: nat, w: nat): State
    requires Enabled(s, Finish(i, w))
  {
    var c := s.ctrls[i];
    var tid := c.workers[w].task.tid;
    SetCtrl(s, i, Report(c, w)).(created := s.created + multiset{RunAt(c.name, tid)}, runs := s.runs + [Run(c.name, tid)],
                                 lost := s.lost + Unreported(c.name, tid))
  }

  /** The histories after the master took a branch on a request with these marks. */
  function Book(s: State, o: Outcome, marks: multiset<Mark>): State {
    match o
    case Handed(task, owner, _, resent) =>
      s.(created := s.created + Waiting(owner, task.tid),
         resent := if resent then s.resent + multiset{task.tid} else s.resent)
    case Accepted(tid, owner) =>
      s.(accepted := s.accepted + marks, acceptances := s.acceptances + [Run(owner, tid)], recorded := s.recorded + [tid])
    case Refused(_, _) => s.(refused := s.refused + marks)
    case UnknownTid(_, _) => s.(refused := s.refused + marks)
    case Dismissed(_) => s.(dismissed := s.dismissed + marks)
    case _ => s
  }

  function HandleStep(cfg: Config, s: State, k: nat, t: Tick): State
    requires k < |s.letters|
  {
    var l := s.letters[k];
    var served := Serve(cfg, s.m, l.request, t);
    var parcels := match served.reply
      case None => s.parcels
      case Some(r) => s.parcels + [Parcel(l.sender, l.request.sender, r)];
    Book(s.(m := served.m, letters := RemoveAt(s.letters, k), parcels := parcels), served.outcome, RequestMarks(l.request))
  }

  function Next(cfg: Config, s: State, step: Step): State
    requires Enabled(s, step)
  {
    match step
    case Send(i, woken) => SendStep(s, i, woken)
    case Deliver(k) => DeliverStep(s, k)
    case Mute(i, max) => MuteStep(s, i, max)
    case Pop(i, w) => SetCtrl(s, i, PopTask(s.ctrls[i], w))
    case Begin(i, w) => SetCtrl(s, i, SetWorker(s.ctrls[i], w, Executing(s.ctrls[i].workers[w].task)))
    case Finish(i, w) => FinishStep(s, i, w)
    case Rest(i, w) => SetCtrl(s, i, SetWorker(s.ctrls[i], w, Idle))
    case Die(i, w) =>
      SetCtrl(s, i, SetWorker(s.ctrls[i], w, Dead)).(lost := s.lost + PhaseMarks(s.ctrls[i].name, s.ctrls[i].workers[w]))
    case Handle(k, t) => HandleStep(cfg, s, k, t)
    case Garble => s.(m := Fault(s.m))
    case Poll(last) => s.(m := PollTimeout(cfg, s.m, last))
    case StopMaster => s.(m := Stop(s.m))
    case DropLetter(k) =>
      s.(letters := RemoveAt(s.letters, k), lost := s.lost + LetterMarks("", s.letters[k]))
    case DropParcel(k) =>
      s.(parcels := RemoveAt(s.parcels, k), lost := s.lost + ParcelMarks("", s.parcels[k]))
    case Join(name, workers) =>
      s.(ctrls := s.ctrls + [Ctrl(name, [], seq(workers, _ => Idle), [], 0, true)])
    case StopCtrl(i) => SetCtrl(s, i, s.ctrls[i].(running := false))
  }

  /** The generator uses the shared queues. */
  function Surround(s: State, queue: seq<Task>, results: seq<string>): State {
    s.(m := s.m.(queue := queue, results := results))
  }

  predicate Initial(s: State) {
    && s.m.status == map[] && s.m.heartbeat == Dict([], map[]) && s.m.queue == [] && s.m.results == []
    && s.ctrls == [] && s.letters == [] && s.parcels == []
    && s.created == s.lost == s.accepted == s.refused == s.dismissed == multiset{} && s.resent == multiset{}
    && s.runs == [] && s.acceptances == [] && s.recorded == []
  }
}
