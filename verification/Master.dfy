/** The master: what its main loop does with one message, one poll timeout and one stop signal,
    as functions on its state. MasterLoop.dfy has the loop itself. */
module Master {
  import opened Collections
  import opened Wire

  datatype TaskState = IsAssigned | IsFinished

  datatype StatusItem = StatusItem(state: TaskState, controller: string, timestamp: int)

  datatype Config = Config(controllerTimeout: int, resendTimeout: int)

  const MAX_ERRORS := 100

  datatype Master = Master(
    queue: seq<Task>,                  // the task queue shared with the generator
    results: seq<string>,              // the result queue shared with the generator
    status: map<string, StatusItem>,   // task_status_dict
    heartbeat: Dict<string, int>,      // controller_heartbeat_dict
    distributing: bool,                // TASK_DISTRIBUTION
    waitDuration: nat,
    errors: nat,
    running: bool)                     // run_flag

  /** What one iteration reads from its surroundings: the clock at its start, at the heartbeat
      and at the status update, whether it got the queue's lock, whether the generator lives. */
  datatype Tick = Tick(last: int, beat: int, stamp: int, locked: bool, generatorAlive: bool)

  /** Which branch an iteration took. */
  datatype Outcome =
    | Handed(task: Task, owner: string, time: int, resent: bool)  // resent: while still assigned
    | StillAssigned(dropped: Task)                                // popped and ignored
    | NoTask
    | GeneratorGone
    | Accepted(tid: string, controller: string)
    | Refused(tid: string, controller: string)                            // from a different controller
    | UnknownTid(tid: string, controller: string)
    | Beaten
    | Dismissed(request: Request)                                 // shutting down: exit command

  datatype Served = Served(m: Master, reply: Option<Reply>, outcome: Outcome)

  /** The except branch of the main loop. */
  function Fault(m: Master): Master {
    m.(errors := m.errors + 1, distributing := false, running := m.running && m.errors + 1 != MAX_ERRORS)
  }

  function ServeRequest(cfg: Config, m: Master, sender: string, t: Tick): Served {
    var wait := Some(WaitFor(m.waitDuration));
    if !t.locked then Served(m, wait, NoTask)
    else if m.queue == [] then
      if t.generatorAlive then Served(m, wait, NoTask)
      else Served(m.(distributing := false, waitDuration := 0), Some(WaitFor(0)), GeneratorGone)
    else
      var task := m.queue[0];
      var m1 := m.(queue := m.queue[1..]);
      var known := task.tid in m.status;
      var late := known && t.last >= m.status[task.tid].timestamp + cfg.resendTimeout;
      if !known || m.status[task.tid].state == IsFinished || late then
        Served(m1.(status := m.status[task.tid := StatusItem(IsAssigned, sender, t.stamp)]),
               Some(Assign(task)),
               Handed(task, sender, t.stamp, known && m.status[task.tid].state == IsAssigned))
      else
        Served(m1, wait, StillAssigned(task))
  }

  function ServeFinished(m: Master, sender: string, tid: string, t: Tick): Served {
    if tid !in m.status then Served(Fault(m), None, UnknownTid(tid, sender))
    else if m.status[tid].controller == sender then
      Served(m.(status := m.status[tid := StatusItem(IsFinished, sender, t.stamp)], results := m.results + [tid]),
             Some(Acknowledged), Accepted(tid, sender))
    else
      Served(m, Some(Acknowledged), Refused(tid, sender))
  }

  /** One received message. */
  function Serve(cfg: Config, m: Master, r: Request, t: Tick): Served {
    var m1 := m.(heartbeat := m.heartbeat.Put(r.sender, t.beat));
    if !m.distributing then
      var left := m1.heartbeat.Drop(r.sender);
      Served(m1.(heartbeat := left, running := m.running && left.order != []), Some(Quit), Dismissed(r))
    else match r
      case WantTask(sender) => ServeRequest(cfg, m1, sender, t)
      case Finished(sender, tid) => ServeFinished(m1, sender, tid, t)
      case Beat(_) => Served(m1, Some(Acknowledged), Beaten)
  }

  /** The first registered controller past its deadline. */
  function Expired(cfg: Config, heartbeat: Dict<string, int>, last: int, order: seq<string>): (r: Option<string>)
    ensures r.Some? ==> r.value in order
  {
    if order == [] then None
    else if order[0] in heartbeat.at && last >= heartbeat.at[order[0]] + cfg.controllerTimeout then Some(order[0])
    else Expired(cfg, heartbeat, last, order[1..])
  }

  /** A poll timeout. While shutting down, the first expired controller is removed; the loop over
      the dictionary then raises, because its size changed. Only without an expired controller is
      the end of the loop tested. */
  function PollTimeout(cfg: Config, m: Master, last: int): Master {
    if m.distributing then m
    else match Expired(cfg, m.heartbeat, last, m.heartbeat.order)
      case Some(c) => Fault(m.(heartbeat := m.heartbeat.Drop(c)))
      case None => m.(running := m.running && m.heartbeat.order != [])
  }

  /** A signal, between two iterations. */
  function Stop(m: Master): Master { m.(distributing := false) }

  /** The text level: a malformed message or reply raises. */
  function ServeText(cfg: Config, m: Master, text: string, t: Tick): (Master, Option<string>) {
    match DecodeRequest(text)
    case Raised => (Fault(m), None)
    case Ok(r) =>
      var s := Serve(cfg, m, r, t);
      match s.reply
      case None => (s.m, None)
      case Some(reply) =>
        match EncodeReply(reply)
        case Raised => (Fault(s.m), None)
        case Ok(out) => (s.m, Some(out))
  }

  /** The events of a run of one master; Surroundings: the generator used the shared queues. */
  datatype Event = Received(request: Request, tick: Tick) | Garbled | Polled(last: int) | Stopped
                 | Surroundings(queue: seq<Task>, results: seq<string>)

  function React(cfg: Config, m: Master, e: Event): Master {
    match e
    case Received(r, t) => Serve(cfg, m, r, t).m
    case Garbled => Fault(m)
    case Polled(last) => PollTimeout(cfg, m, last)
    case Stopped => Stop(m)
    case Surroundings(q, r) => m.(queue := q, results := r)
  }

  function Fresh(waitDuration: nat): Master {
    Master([], [], map[], Dict([], map[]), true, waitDuration, 0, true)
  }
}

/** Shutdown of the master. */
module MasterShutdown {
  import opened Collections
  import opened Wire
  import opened Master

  /** The poll timeout comes after the deadline of every registered controller. */
  predicate PastDeadlines(cfg: Config, m: Master, e: Event) {
    e.Polled? && forall c :: c in m.heartbeat.at ==> e.last >= m.heartbeat.at[c] + cfg.controllerTimeout
  }

  /** How many iterations of a run, while the loop runs, are poll timeouts past all deadlines. */
  function LatePolls(cfg: Config, m: Master, es: seq<Event>): nat
    decreases |es|
  {
    if es == [] || !m.running then 0
    else (if PastDeadlines(cfg, m, es[0]) then 1 else 0) + LatePolls(cfg, React(cfg, m, es[0]), es[1..])
  }

  lemma {:induction false} ExpiredFinds(cfg: Config, h: Dict<string, int>, last: int, order: seq<string>)
    requires forall c :: c in order ==> c in h.at
    ensures Expired(cfg, h, last, order).None? <==>
      forall c :: c in order ==> last < h.at[c] + cfg.controllerTimeout
  {
    if order != [] { ExpiredFinds(cfg, h, last, order[1..]); }
  }

  /** One event with task distribution off: it stays off, nothing is assigned or recorded, the
      registered controllers never grow, and each late poll removes one of them or ends the loop. */
  lemma OffStaysOff(cfg: Config, m: Master, e: Event)
    requires !m.distributing && m.heartbeat.WF()
    ensures var m2 := React(cfg, m, e);
      && !m2.distributing && m2.heartbeat.WF() && m2.status == m.status
      && (!e.Surroundings? ==> m2.queue == m.queue && m2.results == m.results)
      && m2.heartbeat.at.Keys <= m.heartbeat.at.Keys
      && |m2.heartbeat.order| <= |m.heartbeat.order|
      && (!m.running ==> !m2.running)
      && (PastDeadlines(cfg, m, e) ==> !m2.running || |m2.heartbeat.order| < |m.heartbeat.order|)
  {
    match e {
      case Received(r, t) =>
        m.heartbeat.Put(r.sender, t.beat).DropWF(r.sender);
      case Polled(last) =>
        ExpiredFinds(cfg, m.heartbeat, last, m.heartbeat.order);
        match Expired(cfg, m.heartbeat, last, m.heartbeat.order) {
          case Some(c) => m.heartbeat.DropWF(c);
          case None => if m.heartbeat.order != [] { assert m.heartbeat.order[0] in m.heartbeat.order; }
        }
      case _ =>
    }
  }

  /** After task distribution is off the loop sees at most (registered controllers + 1) poll
      timeouts past all deadlines, although each of them removes one controller only and then
      raises. */
  lemma {:induction false} LoopEnds(cfg: Config, m: Master, es: seq<Event>)
    requires !m.distributing && m.heartbeat.WF()
    ensures LatePolls(cfg, m, es) <= |m.heartbeat.order| + 1
    decreases |es|
  {
    if es != [] && m.running {
      OffStaysOff(cfg, m, es[0]);
      var m2 := React(cfg, m, es[0]);
      LoopEnds(cfg, m2, es[1..]);
    }
  }

  ghost predicate IsRun(cfg: Config, ms: seq<Master>, es: seq<Event>) {
    && |ms| == |es| + 1
    && forall i :: 0 <= i < |es| ==> ms[i + 1] == React(cfg, ms[i], es[i])
  }

  lemma ReactWF(cfg: Config, m: Master, e: Event)
    requires m.heartbeat.WF()
    ensures React(cfg, m, e).heartbeat.WF()
  {
    if m.distributing {
      if e.Received? { ServeWF(cfg, m, e.request, e.tick); }
    } else {
      OffStaysOff(cfg, m, e);
    }
  }

  lemma ServeWF(cfg: Config, m: Master, r: Request, t: Tick)
    requires m.heartbeat.WF() && m.distributing
    ensures Serve(cfg, m, r, t).m.heartbeat == m.heartbeat.Put(r.sender, t.beat)
  {
  }

  /** Every controller is registered once, in every state of every run of a master. */
  lemma {:induction false} RegisteredOnce(cfg: Config, wait: nat, ms: seq<Master>, es: seq<Event>, n: nat)
    requires IsRun(cfg, ms, es) && ms[0] == Fresh(wait) && n < |ms|
    ensures ms[n].heartbeat.WF()
  {
    if n > 0 {
      RegisteredOnce(cfg, wait, ms, es, n - 1);
      assert ms[n - 1 + 1] == React(cfg, ms[n - 1], es[n - 1]);
      ReactWF(cfg, ms[n - 1], es[n - 1]);
    }
  }

  /** The shutdown of a run: wherever distribution is off, the rest of the run sees at most
      (registered controllers + 1) poll timeouts past all deadlines. */
  lemma ShutdownEnds(cfg: Config, wait: nat, ms: seq<Master>, es: seq<Event>, i: nat)
    requires IsRun(cfg, ms, es) && ms[0] == Fresh(wait) && i < |ms| && !ms[i].distributing
    ensures LatePolls(cfg, ms[i], es[i..]) <= |ms[i].heartbeat.order| + 1
  {
    RegisteredOnce(cfg, wait, ms, es, i);
    LoopEnds(cfg, ms[i], es[i..]);
  }

  /** Over a whole run: distribution off stays off, no task is handed out and no result recorded. */
  lemma {:induction false} OffForGood(cfg: Config, wait: nat, ms: seq<Master>, es: seq<Event>, i: nat, j: nat)
    requires IsRun(cfg, ms, es) && ms[0] == Fresh(wait) && i <= j < |ms| && !ms[i].distributing
    ensures !ms[j].distributing && ms[j].status == ms[i].status
    ensures ms[j].heartbeat.at.Keys <= ms[i].heartbeat.at.Keys
  {
    if i < j {
      OffForGood(cfg, wait, ms, es, i, j - 1);
      RegisteredOnce(cfg, wait, ms, es, j - 1);
      OffStaysOff(cfg, ms[j - 1], es[j - 1]);
      assert ms[j - 1 + 1] == React(cfg, ms[j - 1], es[j - 1]);
    }
  }
}

/** When the master hands out the same task again. */
module Reassignment {
  import opened Collections
  import opened Wire
  import opened Master

  /** What a run did, branch by branch. */
  type Log = seq<Outcome>

  predicate Hands(o: Outcome, tid: string) { o.Handed? && o.task.tid == tid }

  function Extend(cfg: Config, m: Master, e: Event, log: Log): Log {
    if e.Received? then log + [Serve(cfg, m, e.request, e.tick).outcome] else log
  }

  /** A clock that does not run backwards within an iteration. */
  predicate Monotone(e: Event) { e.Received? ==> e.tick.last <= e.tick.beat <= e.tick.stamp }

  ghost predicate SettledBetween(log: Log, i: nat, j: nat, tid: string, owner: string) {
    exists k :: i < k < j && k < |log| && log[k] == Accepted(tid, owner)
  }

  /** Hand-outs i and j are two successive ones of the same tid. */
  ghost predicate Successive(log: Log, i: nat, j: nat) {
    && i < j < |log| && log[i].Handed? && Hands(log[j], log[i].task.tid)
    && forall k :: i < k < j ==> !Hands(log[k], log[i].task.tid)
  }

  /** Between them lies an accepted finish from the first one's owner, or the resend timeout. */
  ghost predicate Apart(log: Log, i: nat, j: nat, timeout: int)
    requires Successive(log, i, j)
  {
    SettledBetween(log, i, j, log[i].task.tid, log[i].owner) || log[j].time - log[i].time >= timeout
  }

  ghost predicate Separated(log: Log, timeout: int) {
    forall i: nat, j: nat :: Successive(log, i, j) ==> Apart(log, i, j, timeout)
  }

  /** i is the last hand-out of tid. */
  ghost predicate Last(log: Log, tid: string, i: nat) {
    i < |log| && Hands(log[i], tid) && forall k :: i < k < |log| ==> !Hands(log[k], tid)
  }

  /** The status entry of a tid tells its last hand-out and whether it was settled since. */
  ghost predicate Explains(log: Log, tid: string, item: StatusItem, i: nat) {
    && Last(log, tid, i) && log[i].owner == item.controller
    && (item.state == IsAssigned ==> log[i].time == item.timestamp)
    && (item.state == IsFinished ==> SettledBetween(log, i, |log|, tid, item.controller))
  }

  ghost predicate Coherent(m: Master, log: Log) {
    && (forall tid :: tid in m.status ==> exists i :: Explains(log, tid, m.status[tid], i))
    && (forall k :: 0 <= k < |log| && log[k].Handed? ==> log[k].task.tid in m.status)
  }

  /** An outcome about another tid, or about none, leaves an explanation as it is. */
  lemma ExplainsMore(log: Log, o: Outcome, tid: string, item: StatusItem, i: nat)
    requires Explains(log, tid, item, i) && !Hands(o, tid)
    ensures Explains(log + [o], tid, item, i)
  {
    var more := log + [o];
    assert forall k :: 0 <= k < |log| ==> more[k] == log[k];
    if item.state == IsFinished {
      var k :| i < k < |log| && log[k] == Accepted(tid, item.controller);
      assert more[k] == Accepted(tid, item.controller);
    }
  }

  /** An accepted finish settles the last hand-out of its tid. */
  lemma ExplainsSettled(log: Log, tid: string, item: StatusItem, item2: StatusItem, i: nat)
    requires Explains(log, tid, item, i)
    requires item2.state == IsFinished && item2.controller == item.controller
    ensures Explains(log + [Accepted(tid, item.controller)], tid, item2, i)
  {
    var more := log + [Accepted(tid, item.controller)];
    assert forall k :: 0 <= k < |log| ==> more[k] == log[k];
    assert more[|log|] == Accepted(tid, item.controller);
  }

  /** What a served message does to one status entry. */
  lemma StatusOf(cfg: Config, m: Master, r: Request, t: Tick, tid: string)
    requires tid in Serve(cfg, m, r, t).m.status
    ensures Hands(Serve(cfg, m, r, t).outcome, tid) ==>
      var v := Serve(cfg, m, r, t);
      v.m.status[tid] == StatusItem(IsAssigned, v.outcome.owner, v.outcome.time)
    ensures !Hands(Serve(cfg, m, r, t).outcome, tid) ==>
      var v := Serve(cfg, m, r, t);
      && tid in m.status
      && (v.m.status[tid] == m.status[tid]
          || (v.outcome == Accepted(tid, m.status[tid].controller)
              && v.m.status[tid].state == IsFinished && v.m.status[tid].controller == m.status[tid].controller))
  {
  }

  lemma KeysOf(cfg: Config, m: Master, r: Request, t: Tick)
    ensures var v := Serve(cfg, m, r, t);
      m.status.Keys <= v.m.status.Keys && (v.outcome.Handed? ==> v.outcome.task.tid in v.m.status)
  {
  }

  lemma EntryExplained(cfg: Config, m: Master, e: Event, log: Log, tid: string) returns (i: nat)
    requires Coherent(m, log) && e.Received? && tid in Serve(cfg, m, e.request, e.tick).m.status
    ensures Explains(Extend(cfg, m, e, log), tid, Serve(cfg, m, e.request, e.tick).m.status[tid], i)
  {
    var v := Serve(cfg, m, e.request, e.tick);
    StatusOf(cfg, m, e.request, e.tick, tid);
    if Hands(v.outcome, tid) {
      i := |log|;
    } else {
      i :| Explains(log, tid, m.status[tid], i);
      if v.m.status[tid] == m.status[tid] {
        ExplainsMore(log, v.outcome, tid, m.status[tid], i);
      } else {
        ExplainsSettled(log, tid, m.status[tid], v.m.status[tid], i);
      }
    }
  }

  lemma CoherentStep(cfg: Config, m: Master, e: Event, log: Log)
    requires Coherent(m, log) && e.Received?
    ensures Coherent(React(cfg, m, e), Extend(cfg, m, e, log))
  {
    var v := Serve(cfg, m, e.request, e.tick);
    var more := Extend(cfg, m, e, log);
    forall tid | tid in v.m.status ensures exists i :: Explains(more, tid, v.m.status[tid], i) {
      var i := EntryExplained(cfg, m, e, log, tid);
    }
    KeysOf(cfg, m, e.request, e.tick);
    forall k | 0 <= k < |more| && more[k].Handed? ensures more[k].task.tid in v.m.status {
      if k < |log| { assert more[k] == log[k]; }
    }
  }

  /** Two successive hand-outs of the past stay apart. */
  lemma OldPair(log: Log, o: Outcome, i: nat, j: nat, timeout: int)
    requires Separated(log, timeout) && Successive(log + [o], i, j) && j < |log|
    ensures Apart(log + [o], i, j, timeout)
  {
    var more := log + [o];
    assert forall k :: 0 <= k < |log| ==> more[k] == log[k];
    assert Successive(log, i, j);
    if SettledBetween(log, i, j, log[i].task.tid, log[i].owner) {
      var k :| i < k < j && log[k] == Accepted(log[i].task.tid, log[i].owner);
      assert more[k] == log[k];
    }
  }

  /** A new hand-out is apart from the one before. */
  lemma NewPair(cfg: Config, m: Master, e: Event, log: Log, i: nat)
    requires Coherent(m, log) && e.Received? && Monotone(e)
    requires Successive(Extend(cfg, m, e, log), i, |log|)
    ensures Apart(Extend(cfg, m, e, log), i, |log|, cfg.resendTimeout)
  {
    var more := Extend(cfg, m, e, log);
    assert forall k :: 0 <= k < |log| ==> more[k] == log[k];
    LastHandOut(m, log, i);
    var tid := log[i].task.tid;
    if m.status[tid].state == IsFinished {
      var k :| i < k < |log| && log[k] == Accepted(tid, log[i].owner);
      assert more[k] == log[k];
    }
  }

  lemma SeparatedStep(cfg: Config, m: Master, e: Event, log: Log)
    requires Coherent(m, log) && Separated(log, cfg.resendTimeout) && e.Received? && Monotone(e)
    ensures Separated(Extend(cfg, m, e, log), cfg.resendTimeout)
  {
    var more := Extend(cfg, m, e, log);
    forall i: nat, j: nat | Successive(more, i, j) ensures Apart(more, i, j, cfg.resendTimeout) {
      if j < |log| {
        OldPair(log, Serve(cfg, m, e.request, e.tick).outcome, i, j, cfg.resendTimeout);
      } else {
        NewPair(cfg, m, e, log, i);
      }
    }
  }

  /** The explanation of a tid is about its last hand-out. */
  lemma LastHandOut(m: Master, log: Log, i: nat)
    requires Coherent(m, log) && i < |log| && log[i].Handed?
    requires forall k :: i < k < |log| ==> !Hands(log[k], log[i].task.tid)
    ensures log[i].task.tid in m.status && Explains(log, log[i].task.tid, m.status[log[i].task.tid], i)
  {
    var tid := log[i].task.tid;
    var j :| Explains(log, tid, m.status[tid], j);
    assert Hands(log[i], tid);
    assert j == i;
  }

  ghost predicate IsRun(cfg: Config, ms: seq<Master>, es: seq<Event>, logs: seq<Log>) {
    && |ms| == |logs| == |es| + 1
    && ms[0].status == map[] && logs[0] == []
    && forall i :: 0 <= i < |es| ==>
         Monotone(es[i]) && ms[i + 1] == React(cfg, ms[i], es[i]) && logs[i + 1] == Extend(cfg, ms[i], es[i], logs[i])
  }

  /** Reassignment separation, in every run with a monotone clock, whatever the generator queues
      and the controllers send. */
  lemma {:induction false} ReassignmentSeparated(cfg: Config, ms: seq<Master>, es: seq<Event>, logs: seq<Log>, n: nat)
    requires IsRun(cfg, ms, es, logs) && n < |ms|
    ensures Coherent(ms[n], logs[n]) && Separated(logs[n], cfg.resendTimeout)
  {
    if n > 0 {
      ReassignmentSeparated(cfg, ms, es, logs, n - 1);
      var m, e, log := ms[n - 1], es[n - 1], logs[n - 1];
      assert ms[n - 1 + 1] == React(cfg, m, e) && logs[n - 1 + 1] == Extend(cfg, m, e, log);
      if e.Received? {
        CoherentStep(cfg, m, e, log);
        SeparatedStep(cfg, m, e, log);
      } else {
        assert ms[n].status == m.status;
      }
    }
  }
}
