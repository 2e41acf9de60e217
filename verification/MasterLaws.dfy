/** What each event does to the master, field by field, and what turns task distribution off. */
module MasterLaws {
  import opened Collections
  import opened Wire
  import opened Master

  // ---- when what happens

  /** The master has the lock and the queue has a task: it takes it out. */
  predicate Takes(m: Master, e: Event) {
    m.distributing && e.Received? && e.request.WantTask? && e.tick.locked && |m.queue| > 0
  }

  /** It hands the task out: its tid was never assigned, or is finished, or overdue. */
  predicate HandsOut(cfg: Config, m: Master, e: Event) {
    Takes(m, e) &&
    var tid := m.queue[0].tid;
    || tid !in m.status
    || m.status[tid].state.IsFinished?
    || e.tick.last >= m.status[tid].timestamp + cfg.resendTimeout
  }

  /** It finds the queue empty and the generator dead. */
  predicate WorkDone(m: Master, e: Event) {
    m.distributing && e.Received? && e.request.WantTask? && e.tick.locked && |m.queue| == 0 && !e.tick.generatorAlive
  }

  /** It learns from the recorded owner that a task is finished. */
  predicate Settles(m: Master, e: Event) {
    && m.distributing && e.Received? && e.request.Finished?
    && e.request.tid in m.status && m.status[e.request.tid].controller == e.request.sender
  }

  /** It is told of a tid that it never assigned. */
  predicate NeverHeardOf(m: Master, e: Event) {
    m.distributing && e.Received? && e.request.Finished? && e.request.tid !in m.status
  }

  predicate PastDeadline(cfg: Config, m: Master, c: string, last: int) {
    c in m.heartbeat.at && last >= m.heartbeat.at[c] + cfg.controllerTimeout
  }

  /** While shutting down, a poll timeout finds a controller past its deadline. */
  ghost predicate FindsExpired(cfg: Config, m: Master, e: Event) {
    !m.distributing && e.Polled? && exists c :: PastDeadline(cfg, m, c, e.last)
  }

  /** The main loop catches an exception. */
  ghost predicate Fails(cfg: Config, m: Master, e: Event) {
    e.Garbled? || NeverHeardOf(m, e) || FindsExpired(cfg, m, e)
  }

  // ---- the tasks

  /** A request is answered with the head of the queue exactly if that is handed out, and otherwise with
      a wait command, of no duration if the work is done; a finish is acknowledged, unless its tid was
      never heard of; a heartbeat is acknowledged; and while shutting down all are told to exit. */
  lemma Answers(cfg: Config, m: Master, r: Request, t: Tick)
    ensures var e := Received(r, t);
      Serve(cfg, m, r, t).reply ==
        if !m.distributing then Some(Quit)
        else if HandsOut(cfg, m, e) then Some(Assign(m.queue[0]))
        else if r.WantTask? then Some(WaitFor(if WorkDone(m, e) then 0 else m.waitDuration))
        else if NeverHeardOf(m, e) then None
        else Some(Acknowledged)
  {
  }

  /** The queue, the status map and the results after any event. */
  lemma Records(cfg: Config, m: Master, e: Event)
    requires !e.Surroundings?
    ensures var m2 := React(cfg, m, e);
      && m2.queue == (if Takes(m, e) then m.queue[1..] else m.queue)
      && m2.status == (
           if HandsOut(cfg, m, e) then m.status[m.queue[0].tid := StatusItem(IsAssigned, e.request.sender, e.tick.stamp)]
           else if Settles(m, e) then m.status[e.request.tid := StatusItem(IsFinished, e.request.sender, e.tick.stamp)]
           else m.status)
      && m2.results == (if Settles(m, e) then m.results + [e.request.tid] else m.results)
  {
  }

  /** A task whose assignment cannot be written. */
  predicate Unwritable(task: Task) { !Contains(task.package, "task.") || task.tid == "" }

  /** What comes in as a text goes out as the text of the answer. An unreadable text fails; so does, after
      the books were kept, an assignment that cannot be written. */
  lemma TextAnswers(cfg: Config, m: Master, text: string, t: Tick)
    ensures DecodeRequest(text).Raised? ==> ServeText(cfg, m, text, t) == (React(cfg, m, Garbled), None)
    ensures DecodeRequest(text).Ok? ==>
      var e := Received(DecodeRequest(text).value, t);
      var m2 := React(cfg, m, e);
      var reply := Serve(cfg, m, e.request, t).reply;
      if HandsOut(cfg, m, e) && Unwritable(m.queue[0]) then ServeText(cfg, m, text, t) == (React(cfg, m2, Garbled), None)
      else if reply.None? then ServeText(cfg, m, text, t) == (m2, None)
      else EncodeReply(reply.value).Ok? && ServeText(cfg, m, text, t) == (m2, Some(EncodeReply(reply.value).value))
  {
    if DecodeRequest(text).Ok? { Answers(cfg, m, DecodeRequest(text).value, t); }
  }

  // ---- task distribution

  lemma {:induction false} ExpiredIs(cfg: Config, h: Dict<string, int>, last: int, order: seq<string>)
    ensures var r := Expired(cfg, h, last, order);
      && (r.None? <==> forall c :: c in order && c in h.at ==> last < h.at[c] + cfg.controllerTimeout)
      && (r.Some? ==> r.value in order && r.value in h.at && last >= h.at[r.value] + cfg.controllerTimeout)
  {
    if order != [] {
      ExpiredIs(cfg, h, last, order[1..]);
      assert order == [order[0]] + order[1..];
    }
  }

  lemma PollExpires(cfg: Config, m: Master, last: int)
    requires m.heartbeat.WF()
    ensures Expired(cfg, m.heartbeat, last, m.heartbeat.order).Some? <==> exists c :: PastDeadline(cfg, m, c, last)
    ensures var r := Expired(cfg, m.heartbeat, last, m.heartbeat.order); r.Some? ==> PastDeadline(cfg, m, r.value, last)
  {
    ExpiredIs(cfg, m.heartbeat, last, m.heartbeat.order);
    var r := Expired(cfg, m.heartbeat, last, m.heartbeat.order);
    if r.Some? { assert PastDeadline(cfg, m, r.value, last); }
  }

  /** An event turns task distribution off. */
  predicate TurnsOff(m: Master, e: Event) {
    e.Stopped? || e.Garbled? || NeverHeardOf(m, e) || WorkDone(m, e)
  }

  /** Task distribution goes off exactly by a stop signal, an unreadable text, a finish of a tid never
      heard of, or a request when the queue is empty and the generator dead, which also ends all waiting. */
  lemma DistributionEnds(cfg: Config, m: Master, e: Event)
    ensures React(cfg, m, e).distributing <==> m.distributing && !TurnsOff(m, e)
    ensures React(cfg, m, e).waitDuration == if WorkDone(m, e) then 0 else m.waitDuration
  {
  }

  ghost predicate IsRun(cfg: Config, ms: seq<Master>, es: seq<Event>) {
    && |ms| == |es| + 1
    && forall i :: 0 <= i < |es| ==> ms[i + 1] == React(cfg, ms[i], es[i])
  }

  /** A run in which distribution is off has met one of those events. */
  lemma {:induction false} SomethingTurnedItOff(cfg: Config, ms: seq<Master>, es: seq<Event>, n: nat) returns (i: nat)
    requires IsRun(cfg, ms, es) && n < |ms| && ms[0].distributing && !ms[n].distributing
    ensures i < n && ms[i].distributing && TurnsOff(ms[i], es[i])
  {
    assert ms[n - 1 + 1] == React(cfg, ms[n - 1], es[n - 1]);
    DistributionEnds(cfg, ms[n - 1], es[n - 1]);
    if ms[n - 1].distributing { i := n - 1; } else { i := SomethingTurnedItOff(cfg, ms, es, n - 1); }
  }

  // ---- exceptions and the end of the loop

  lemma EmptyDict(h: Dict<string, int>)
    requires h.WF()
    ensures h.order == [] <==> h.at.Keys == {}
  {
    if h.order != [] { assert h.order[0] in h.order; }
  }

  lemma ReceivedRegisters(cfg: Config, m: Master, r: Request, t: Tick)
    requires m.heartbeat.WF()
    ensures var h2 := Serve(cfg, m, r, t).m.heartbeat;
      && h2.WF()
      && h2.at == if m.distributing then m.heartbeat.at[r.sender := t.beat] else m.heartbeat.at - {r.sender}
  {
    m.heartbeat.Put(r.sender, t.beat).DropWF(r.sender);
    assert m.heartbeat.at[r.sender := t.beat] - {r.sender} == m.heartbeat.at - {r.sender};
  }

  /** The heartbeat of a sender is noted while distributing; while shutting down a sender is
      unregistered, and so is one controller past its deadline at a poll timeout. */
  lemma Registers(cfg: Config, m: Master, e: Event)
    requires m.heartbeat.WF()
    ensures var h, h2 := m.heartbeat.at, React(cfg, m, e).heartbeat.at;
      && (e.Received? && m.distributing ==> h2 == h[e.request.sender := e.tick.beat])
      && (e.Received? && !m.distributing ==> h2 == h - {e.request.sender})
      && (FindsExpired(cfg, m, e) ==> exists c :: PastDeadline(cfg, m, c, e.last) && h2 == h - {c})
      && (!e.Received? && !FindsExpired(cfg, m, e) ==> h2 == h)
  {
    if e.Received? {
      ReceivedRegisters(cfg, m, e.request, e.tick);
    } else if e.Polled? && !m.distributing {
      PollExpires(cfg, m, e.last);
    }
  }

  lemma Counts(cfg: Config, m: Master, e: Event)
    requires m.heartbeat.WF()
    ensures React(cfg, m, e).errors == m.errors + if Fails(cfg, m, e) then 1 else 0
  {
    if e.Polled? { PollExpires(cfg, m, e.last); }
  }

  /** The last controller is told to exit, or a poll timeout finds none registered. */
  ghost predicate NobodyLeft(cfg: Config, m: Master, e: Event) {
    && !m.distributing && (e.Received? || e.Polled?) && !FindsExpired(cfg, m, e)
    && React(cfg, m, e).heartbeat.at.Keys == {}
  }

  lemma ReceivedGoesOn(cfg: Config, m: Master, e: Event)
    requires m.heartbeat.WF() && e.Received?
    ensures React(cfg, m, e).running <==>
      m.running && !(Fails(cfg, m, e) && m.errors == 99) && !NobodyLeft(cfg, m, e)
  {
    ReceivedRegisters(cfg, m, e.request, e.tick);
    EmptyDict(React(cfg, m, e).heartbeat);
  }

  lemma PolledGoesOn(cfg: Config, m: Master, e: Event)
    requires m.heartbeat.WF() && e.Polled?
    ensures React(cfg, m, e).running <==>
      m.running && !(Fails(cfg, m, e) && m.errors == 99) && !NobodyLeft(cfg, m, e)
  {
    PollExpires(cfg, m, e.last);
    EmptyDict(m.heartbeat);
  }

  /** The loop ends exactly with the hundredth exception, or, while shutting down, when no controller is
      left. */
  lemma LoopGoesOn(cfg: Config, m: Master, e: Event)
    requires m.heartbeat.WF()
    ensures React(cfg, m, e).running <==>
      m.running && !(Fails(cfg, m, e) && m.errors == 99) && !NobodyLeft(cfg, m, e)
  {
    if e.Received? { ReceivedGoesOn(cfg, m, e); }
    if e.Polled? { PolledGoesOn(cfg, m, e); }
  }
}
