/** All runs of the cluster with any generator: conservation of assigned copies, the bound on live
    copies, and the origin of every recorded result. */
module ClusterRuns {
  import opened Collections
  import opened Wire
  import opened Master
  import opened Controller
  import opened Marks
  import opened Cluster
  import opened ClusterLaws

  predicate InStateAssigned(m: Master, tid: string) { tid in m.status && m.status[tid].state == IsAssigned }

  function AssignedNow(m: Master, tid: string): nat { if InStateAssigned(m, tid) then 1 else 0 }

  /** For each tid, at most one live copy if it is assigned, plus one for each assignment by
      timeout while it was still assigned. */
  ghost predicate CopyBound(s: State) {
    forall tid :: Live(s)[Copy(tid)] <= AssignedNow(s.m, tid) + s.resent[tid]
  }

  function TidsOf(rs: seq<Run>): seq<string> { seq(|rs|, i requires 0 <= i < |rs| => rs[i].tid) }

  /** The histories agree with the marks. */
  ghost predicate Ledger(s: State) {
    && (forall o, tid :: s.created[RunAt(o, tid)] == multiset(s.runs)[Run(o, tid)])
    && (forall o, tid :: s.accepted[RunAt(o, tid)] == multiset(s.acceptances)[Run(o, tid)])
    && (forall tid :: s.accepted[Copy(tid)] == multiset(s.recorded)[tid])
    && s.recorded == TidsOf(s.acceptances)
  }

  ghost predicate ClusterInv(s: State) {
    Named(s) && Conserved(s) && CopyBound(s) && Ledger(s)
  }

  // ---- what a served request does to the status map

  lemma ServeStatus(cfg: Config, m: Master, r: Request, t: Tick)
    ensures var v := Serve(cfg, m, r, t);
      match v.outcome
      case Handed(task, owner, _, resent) =>
        && owner == r.sender && (resent <==> InStateAssigned(m, task.tid))
        && m.queue != [] && task == m.queue[0] && v.m.queue == m.queue[1..] && v.m.results == m.results
        && task.tid in v.m.status && v.m.status == m.status[task.tid := v.m.status[task.tid]]
        && v.m.status[task.tid].state == IsAssigned && v.m.status[task.tid].controller == owner
      case Accepted(tid, owner) =>
        && r == Finished(owner, tid) && tid in m.status && m.status[tid].controller == owner
        && v.m.queue == m.queue && v.m.results == m.results + [tid]
        && tid in v.m.status && v.m.status == m.status[tid := v.m.status[tid]]
        && v.m.status[tid].state == IsFinished && v.m.status[tid].controller == owner
      case StillAssigned(task) =>
        && m.queue != [] && task == m.queue[0] && v.m.queue == m.queue[1..] && v.m.results == m.results
        && InStateAssigned(m, task.tid) && v.m.status == m.status
      case Refused(tid, owner) =>
        && r == Finished(owner, tid) && tid in m.status && m.status[tid].controller != owner
        && v.m.status == m.status && v.m.queue == m.queue && v.m.results == m.results
      case UnknownTid(tid, owner) =>
        && r == Finished(owner, tid) && tid !in m.status
        && v.m.status == m.status && v.m.queue == m.queue && v.m.results == m.results
      case _ => v.m.status == m.status && v.m.queue == m.queue && v.m.results == m.results
  {
  }

  lemma PollQuiet(cfg: Config, m: Master, last: int)
    ensures var m2 := PollTimeout(cfg, m, last); m2.status == m.status && m2.queue == m.queue && m2.results == m.results
  {
  }

  /** The fields that only a served request or the generator changes. */
  ghost predicate SameBooks(s: State, s2: State) {
    && s2.m.status == s.m.status && s2.m.queue == s.m.queue && s2.m.results == s.m.results
    && s2.resent == s.resent && s2.accepted == s.accepted && s2.acceptances == s.acceptances && s2.recorded == s.recorded
  }

  lemma SendQuiet(s: State, i: nat, woken: bool)
    requires Enabled(s, Send(i, woken))
    ensures SameBooks(s, SendStep(s, i, woken))
  {
  }

  lemma QuietStep(cfg: Config, s: State, step: Step)
    requires Enabled(s, step) && !step.Handle?
    ensures SameBooks(s, Next(cfg, s, step))
  {
    match step {
      case Send(i, woken) => SendQuiet(s, i, woken);
      case Poll(last) => PollQuiet(cfg, s.m, last);
      case _ =>
    }
  }

  lemma BornQuiet(cfg: Config, s: State, step: Step, tid: string)
    requires Enabled(s, step) && !step.Handle?
    ensures Born(cfg, s, step)[Copy(tid)] == 0
    ensures forall o :: Born(cfg, s, step)[CopyAt(o, tid)] == 0
  {
  }

  /** A step that is no served request never adds a copy. */
  lemma QuietCopies(cfg: Config, s: State, step: Step, tid: string)
    requires Named(s) && Enabled(s, step) && !step.Handle?
    ensures Live(Next(cfg, s, step))[Copy(tid)] <= Live(s)[Copy(tid)]
    ensures forall o :: Live(Next(cfg, s, step))[CopyAt(o, tid)] <= Live(s)[CopyAt(o, tid)]
  {
    StepMoves(cfg, s, step);
    BornQuiet(cfg, s, step, tid);
    var a, b := Live(Next(cfg, s, step)) + Gone(cfg, s, step), Live(s) + Born(cfg, s, step);
    assert a[Copy(tid)] == b[Copy(tid)];
    forall o ensures Live(Next(cfg, s, step))[CopyAt(o, tid)] <= Live(s)[CopyAt(o, tid)] {
      assert a[CopyAt(o, tid)] == b[CopyAt(o, tid)];
    }
  }

  lemma CopyBoundQuiet(cfg: Config, s: State, step: Step)
    requires Named(s) && CopyBound(s) && Enabled(s, step) && !step.Handle?
    ensures CopyBound(Next(cfg, s, step))
  {
    var s2 := Next(cfg, s, step);
    QuietStep(cfg, s, step);
    forall tid ensures Live(s2)[Copy(tid)] <= AssignedNow(s2.m, tid) + s2.resent[tid] {
      QuietCopies(cfg, s, step, tid);
    }
  }

  function Added(o: Outcome, tid: string): nat { if o.Handed? && o.task.tid == tid then 1 else 0 }
  function Taken(o: Outcome, tid: string): nat { if o.Accepted? && o.tid == tid then 1 else 0 }

  ghost predicate CopiesAt(l: multiset<Mark>, l2: multiset<Mark>, o: Outcome, tid: string, c: string) {
    l2[CopyAt(c, tid)] + (if Taken(o, tid) == 1 && o.controller == c then 1 else 0)
    <= l[CopyAt(c, tid)] + (if Added(o, tid) == 1 && o.owner == c then 1 else 0)
  }

  /** How a served request changes the number of copies of a tid, in all and at a controller. */
  lemma HandleCopies(cfg: Config, s: State, k: nat, t: Tick, tid: string)
    requires k < |s.letters|
    ensures var o := Serve(cfg, s.m, s.letters[k].request, t).outcome;
      var l, l2 := Live(s), Live(HandleStep(cfg, s, k, t));
      && l2[Copy(tid)] + Taken(o, tid) <= l[Copy(tid)] + Added(o, tid)
      && forall c :: CopiesAt(l, l2, o, tid, c)
  {
    var r := s.letters[k].request;
    var o := Serve(cfg, s.m, r, t).outcome;
    HandleMoves(cfg, s, k, t);
    AcceptedRequest(cfg, s.m, r, t);
    CountMarks(Live(s), Live(HandleStep(cfg, s, k, t)), RequestMarks(r), o, tid);
  }

  lemma AcceptedRequest(cfg: Config, m: Master, r: Request, t: Tick)
    ensures var o := Serve(cfg, m, r, t).outcome; o.Accepted? ==> r == Finished(o.controller, o.tid)
  {
  }

  lemma CountMarks(l: multiset<Mark>, l2: multiset<Mark>, gone: multiset<Mark>, o: Outcome, tid: string)
    requires l2 + gone == l + OutcomeBorn(o)
    requires o.Accepted? ==> gone == Ran(o.controller, o.tid)
    ensures l2[Copy(tid)] + Taken(o, tid) <= l[Copy(tid)] + Added(o, tid)
    ensures forall c :: CopiesAt(l, l2, o, tid, c)
  {
    assert (l2 + gone)[Copy(tid)] == (l + OutcomeBorn(o))[Copy(tid)];
    forall c ensures CopiesAt(l, l2, o, tid, c) {
      assert (l2 + gone)[CopyAt(c, tid)] == (l + OutcomeBorn(o))[CopyAt(c, tid)];
    }
  }

  lemma ServeAssigned(cfg: Config, m: Master, r: Request, t: Tick, tid: string)
    ensures var v := Serve(cfg, m, r, t);
      && (Added(v.outcome, tid) == 1 ==> AssignedNow(v.m, tid) == 1 && (AssignedNow(m, tid) == 1 <==> v.outcome.resent))
      && (Added(v.outcome, tid) == 0 && Taken(v.outcome, tid) == 0 ==> AssignedNow(v.m, tid) == AssignedNow(m, tid))
  {
  }

  /** The assigned tids and the counted timeouts after a served request. */
  lemma HandleAssigned(cfg: Config, s: State, k: nat, t: Tick, tid: string)
    requires k < |s.letters|
    ensures var o := Serve(cfg, s.m, s.letters[k].request, t).outcome;
      var s2 := HandleStep(cfg, s, k, t);
      AssignedNow(s2.m, tid) + s2.resent[tid] + Taken(o, tid) >= AssignedNow(s.m, tid) + s.resent[tid] + Added(o, tid)
  {
    HandleShape(cfg, s, k, t);
    ServeAssigned(cfg, s.m, s.letters[k].request, t, tid);
    BookResent(cfg, s, k, t);
  }

  lemma CopyBoundHandle(cfg: Config, s: State, k: nat, t: Tick)
    requires Named(s) && CopyBound(s) && k < |s.letters|
    ensures CopyBound(HandleStep(cfg, s, k, t))
  {
    var s2 := HandleStep(cfg, s, k, t);
    forall tid ensures Live(s2)[Copy(tid)] <= AssignedNow(s2.m, tid) + s2.resent[tid] {
      HandleCopies(cfg, s, k, t, tid);
      HandleAssigned(cfg, s, k, t, tid);
    }
  }

  lemma BookResent(cfg: Config, s: State, k: nat, t: Tick)
    requires k < |s.letters|
    ensures var o := Serve(cfg, s.m, s.letters[k].request, t).outcome;
      HandleStep(cfg, s, k, t).resent == if o.Handed? && o.resent then s.resent + multiset{o.task.tid} else s.resent
  {
  }

  // ---- the histories

  lemma FinishBooks(s: State, i: nat, w: nat)
    requires Enabled(s, Finish(i, w))
    ensures var s2 := FinishStep(s, i, w);
      var run := Run(s.ctrls[i].name, s.ctrls[i].workers[w].task.tid);
      && s2.created == s.created + multiset{RunAt(run.controller, run.tid)} && s2.runs == s.runs + [run]
      && s2.accepted == s.accepted && s2.acceptances == s.acceptances && s2.recorded == s.recorded
  {
  }

  lemma LedgerRan(s: State, s2: State, run: Run)
    requires Ledger(s)
    requires s2.created == s.created + multiset{RunAt(run.controller, run.tid)} && s2.runs == s.runs + [run]
    requires s2.accepted == s.accepted && s2.acceptances == s.acceptances && s2.recorded == s.recorded
    ensures Ledger(s2)
  {
    assert multiset(s.runs + [run]) == multiset(s.runs) + multiset{run};
  }

  lemma OtherBooks(cfg: Config, s: State, step: Step)
    requires Enabled(s, step) && !step.Handle? && !step.Finish?
    ensures Next(cfg, s, step).created == s.created && Next(cfg, s, step).runs == s.runs
  {
  }

  lemma LedgerQuiet(cfg: Config, s: State, step: Step)
    requires Ledger(s) && Enabled(s, step) && !step.Handle?
    ensures Ledger(Next(cfg, s, step))
  {
    if step.Finish? {
      FinishBooks(s, step.i, step.w);
      var c := s.ctrls[step.i];
      LedgerRan(s, Next(cfg, s, step), Run(c.name, c.workers[step.w].task.tid));
    } else {
      QuietStep(cfg, s, step);
      OtherBooks(cfg, s, step);
    }
  }

  lemma LedgerHandle(cfg: Config, s: State, k: nat, t: Tick)
    requires Ledger(s) && k < |s.letters|
    ensures Ledger(HandleStep(cfg, s, k, t))
  {
    var r := s.letters[k].request;
    var v := Serve(cfg, s.m, r, t);
    ServeStatus(cfg, s.m, r, t);
    var s1 := s.(m := v.m, letters := HandleStep(cfg, s, k, t).letters, parcels := HandleStep(cfg, s, k, t).parcels);
    LedgerBook(s1, v.outcome, RequestMarks(r));
  }

  lemma LedgerAccept(s: State, o: string, tid: string)
    requires Ledger(s)
    ensures Ledger(s.(accepted := s.accepted + Ran(o, tid), acceptances := s.acceptances + [Run(o, tid)],
                      recorded := s.recorded + [tid]))
  {
    var run := Run(o, tid);
    assert multiset(s.acceptances + [run]) == multiset(s.acceptances) + multiset{run};
    assert multiset(s.recorded + [tid]) == multiset(s.recorded) + multiset{tid};
    assert TidsOf(s.acceptances + [run]) == TidsOf(s.acceptances) + [tid];
  }

  lemma LedgerBook(s: State, o: Outcome, marks: multiset<Mark>)
    requires Ledger(s)
    requires o.Accepted? ==> marks == Ran(o.controller, o.tid)
    ensures Ledger(Book(s, o, marks))
  {
    var s2 := Book(s, o, marks);
    if o.Accepted? {
      LedgerAccept(s, o.controller, o.tid);
    } else {
      assert s2.accepted == s.accepted && s2.acceptances == s.acceptances && s2.recorded == s.recorded && s2.runs == s.runs;
      assert forall c, tid :: s2.created[RunAt(c, tid)] == s.created[RunAt(c, tid)];
    }
  }

  // ---- steps and runs

  /** A step of the cluster, or the generator using the shared queues. */
  datatype Move = Inner(step: Step) | Outer(queue: seq<Task>, results: seq<string>)

  predicate Allowed(s: State, move: Move) { move.Inner? ==> Enabled(s, move.step) }

  function Make(cfg: Config, s: State, move: Move): State
    requires Allowed(s, move)
  {
    match move case Inner(step) => Next(cfg, s, step) case Outer(q, r) => Surround(s, q, r)
  }

  lemma InitialInv(s: State)
    requires Initial(s)
    ensures ClusterInv(s)
  {
  }

  lemma MakeKeeps(cfg: Config, s: State, move: Move)
    requires ClusterInv(s) && Allowed(s, move)
    ensures ClusterInv(Make(cfg, s, move))
  {
    match move {
      case Outer(q, r) => assert Live(Surround(s, q, r)) == Live(s);
      case Inner(step) =>
        NextNamed(cfg, s, step);
        StepMoves(cfg, s, step);
        MovesConserve(s, Next(cfg, s, step), Born(cfg, s, step), Gone(cfg, s, step));
        if step.Handle? {
          CopyBoundHandle(cfg, s, step.k, step.t);
          LedgerHandle(cfg, s, step.k, step.t);
        } else {
          CopyBoundQuiet(cfg, s, step);
          LedgerQuiet(cfg, s, step);
        }
    }
  }

  ghost predicate ClusterRun(cfg: Config, ss: seq<State>, moves: seq<Move>) {
    && |ss| == |moves| + 1 && Initial(ss[0])
    && forall i :: 0 <= i < |moves| ==> Allowed(ss[i], moves[i]) && ss[i + 1] == Make(cfg, ss[i], moves[i])
  }

  /** In every state of every run of one master with any generator and any number of controllers,
      with message loss and dying workers: conservation and the copy bound. */
  lemma {:induction false} RunKeeps(cfg: Config, ss: seq<State>, moves: seq<Move>, n: nat)
    requires ClusterRun(cfg, ss, moves) && n < |ss|
    ensures ClusterInv(ss[n])
  {
    if n == 0 {
      InitialInv(ss[0]);
    } else {
      RunKeeps(cfg, ss, moves, n - 1);
      MakeKeeps(cfg, ss[n - 1], moves[n - 1]);
      assert ss[n - 1 + 1] == Make(cfg, ss[n - 1], moves[n - 1]);
    }
  }

  /** Every result ever recorded stems from its own completed execution, at the controller that was
      the recorded owner when the finish was accepted: no execution counts twice. */
  lemma ResultsComeFromRuns(s: State)
    requires ClusterInv(s)
    ensures multiset(s.acceptances) <= multiset(s.runs)
    ensures s.recorded == TidsOf(s.acceptances)
  {
    forall run ensures multiset(s.acceptances)[run] <= multiset(s.runs)[run] {
      var k := RunAt(run.controller, run.tid);
      assert s.created[k] == (Live(s) + s.lost + s.accepted + s.refused + s.dismissed)[k];
      assert run == Run(run.controller, run.tid);
      assert multiset(s.acceptances)[run] == s.accepted[k] && multiset(s.runs)[run] == s.created[k];
    }
  }

  /** Without reassignment by timeout a tid has at most one live copy, and none when finished. */
  lemma OneLiveCopy(s: State, tid: string)
    requires ClusterInv(s) && s.resent[tid] == 0
    ensures Live(s)[Copy(tid)] <= 1
    ensures !InStateAssigned(s.m, tid) ==> Live(s)[Copy(tid)] == 0
  {
  }
}
