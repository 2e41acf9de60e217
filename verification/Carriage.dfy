/** Tasks in the cluster only move: whatever is assigned, queued or executed was in the queue. */
module Carriage {
  import opened Collections
  import opened Wire
  import opened Master
  import opened Controller
  import opened Marks
  import opened Cluster
  import opened ClusterLaws
  import opened ClusterRuns

  ghost predicate CtrlIn(c: Ctrl, ts: iset<Task>) {
    && (forall t :: t in c.queue ==> t in ts)
    && (forall p :: p in c.workers && (p.Popped? || p.Executing?) ==> p.task in ts)
  }

  ghost predicate ParcelsIn(ps: seq<Parcel>, ts: iset<Task>) {
    forall p :: p in ps ==> !p.reply.Unhandled? && (p.reply.Assign? ==> p.reply.task in ts)
  }

  ghost predicate CtrlsIn(cs: seq<Ctrl>, ts: iset<Task>) { forall c :: c in cs ==> CtrlIn(c, ts) }

  ghost predicate QueueIn(q: seq<Task>, ts: iset<Task>) { forall t :: t in q ==> t in ts }

  /** Every task in the cluster is one of ts. */
  ghost predicate TasksIn(s: State, ts: iset<Task>) {
    QueueIn(s.m.queue, ts) && ParcelsIn(s.parcels, ts) && CtrlsIn(s.ctrls, ts)
  }

  lemma SetCtrlIn(cs: seq<Ctrl>, i: nat, c: Ctrl, ts: iset<Task>)
    requires i < |cs| && CtrlsIn(cs, ts) && CtrlIn(c, ts)
    ensures CtrlsIn(cs[i := c], ts)
  {
  }

  lemma NextMessageIn(c: Ctrl, woken: bool, ts: iset<Task>)
    requires CtrlIn(c, ts)
    ensures CtrlIn(NextMessage(c, woken).c, ts)
  {
    NextMessageShape(c, woken);
  }

  lemma HandleIn(cfg: Config, s: State, k: nat, t: Tick, ts: iset<Task>)
    requires TasksIn(s, ts) && k < |s.letters|
    ensures TasksIn(HandleStep(cfg, s, k, t), ts)
  {
    var r := s.letters[k].request;
    HandleShape(cfg, s, k, t);
    ServeTasks(cfg, s.m, r, t);
  }

  lemma ServeTasks(cfg: Config, m: Master, r: Request, t: Tick)
    ensures var v := Serve(cfg, m, r, t);
      && (forall x :: x in v.m.queue ==> x in m.queue)
      && (v.reply.Some? && v.reply.value.Assign? ==> v.reply.value.task in m.queue)
      && (v.reply.Some? ==> !v.reply.value.Unhandled?)
  {
  }

  lemma WorkerIn(cfg: Config, s: State, step: Step, ts: iset<Task>)
    requires TasksIn(s, ts) && Enabled(s, step) && AtWorker(step)
    ensures TasksIn(Next(cfg, s, step), ts)
  {
    var c := s.ctrls[step.i];
    assert CtrlIn(c, ts);
    var c2 := match step
      case Pop(_, w) => PopTask(c, w)
      case Begin(_, w) => SetWorker(c, w, Executing(c.workers[w].task))
      case Finish(_, w) => Report(c, w)
      case Rest(_, w) => SetWorker(c, w, Idle)
      case Die(_, w) => SetWorker(c, w, Dead);
    assert CtrlIn(c2, ts);
    SetCtrlIn(s.ctrls, step.i, c2, ts);
  }

  lemma NextIn(cfg: Config, s: State, step: Step, ts: iset<Task>)
    requires TasksIn(s, ts) && Enabled(s, step)
    ensures TasksIn(Next(cfg, s, step), ts)
  {
    match step {
      case Send(i, woken) =>
        assert CtrlIn(s.ctrls[i], ts);
        NextMessageIn(s.ctrls[i], woken, ts);
        SetCtrlIn(s.ctrls, i, NextMessage(s.ctrls[i], woken).c, ts);
      case Deliver(k) =>
        var p := s.parcels[k];
        assert p in s.parcels && CtrlIn(s.ctrls[p.receiver], ts);
        SetCtrlIn(s.ctrls, p.receiver, Receive(s.ctrls[p.receiver], p.reply), ts);
        RemoveIn(s.parcels, k);
      case Mute(i, max) =>
        assert CtrlIn(s.ctrls[i], ts);
        SetCtrlIn(s.ctrls, i, MuteStep(s, i, max).ctrls[i], ts);
      case Handle(k, t) => HandleIn(cfg, s, k, t, ts);
      case Garble =>
      case Poll(last) => PollQuiet(cfg, s.m, last);
      case StopMaster =>
      case DropLetter(_) =>
      case DropParcel(k) => RemoveIn(s.parcels, k);
      case Join(name, workers) =>
      case StopCtrl(i) =>
        assert CtrlIn(s.ctrls[i], ts);
        SetCtrlIn(s.ctrls, i, s.ctrls[i].(running := false), ts);
      case _ => WorkerIn(cfg, s, step, ts);
    }
  }
}
