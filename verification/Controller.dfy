/** A controller with its workers, as functions on its state. */
module Controller {
  import opened Collections
  import opened Wire

  /** Where a worker stands in its loop. Popped: it has taken a task but its state cell still
      shows READY. Reported: the tid is in the result queue but the cell still shows EXECUTING. */
  datatype Phase = Idle | Popped(task: Task) | Executing(task: Task) | Reported | Dead

  datatype Ctrl = Ctrl(
    name: string,            // the fully qualified domain name
    queue: seq<Task>,
    workers: seq<Phase>,
    results: seq<string>,
    retries: nat,
    running: bool)           // RUN_CONDITION

  predicate ShowsReady(p: Phase) { p.Idle? || p.Popped? }

  datatype Sent = Sent(c: Ctrl, request: Option<Request>)

  /** The message of an iteration: a finished task before a task request before a heartbeat.
      `woken`: a result arrived while waiting for one, so that no heartbeat is sent. */
  function NextMessage(c: Ctrl, woken: bool): Sent {
    if c.results != [] && c.results[0] != "" then
      Sent(c.(results := c.results[1..]), Some(Finished(c.name, c.results[0])))
    else
      var c1 := if c.results != [] then c.(results := c.results[1..]) else c;
      if exists w :: 0 <= w < |c.workers| && ShowsReady(c.workers[w]) then Sent(c1, Some(WantTask(c.name)))
      else if forall w :: 0 <= w < |c.workers| ==> c.workers[w].Dead? then Sent(c1.(running := false), None)
      else Sent(c1, if woken then None else Some(Beat(c.name)))
  }

  function Receive(c: Ctrl, reply: Reply): Ctrl {
    var c1 := c.(retries := 0);
    match reply
    case Assign(task) => c1.(queue := c.queue + [task])
    case Quit => c1.(running := false)
    case _ => c1
  }

  /** A text that does not parse raises, and ends the loop. */
  function ReceiveText(reg: Registry, c: Ctrl, text: string): Ctrl {
    match DecodeReply(reg, text)
    case Raised => c.(running := false)
    case Ok(reply) => Receive(c, reply)
  }

  /** No reply: give up at the maximum, otherwise look once more and then reconnect. After giving
      up the connection is closed, so the second look finds nothing. */
  function Silence(reg: Registry, max: nat, c: Ctrl, second: Option<string>): Ctrl {
    if c.retries == max then c.(running := false, retries := c.retries + 1)
    else match second
      case Some(text) => ReceiveText(reg, c, text)
      case None => c.(retries := c.retries + 1)
  }

  function AfterSend(reg: Registry, max: nat, c: Ctrl, first: Option<string>, second: Option<string>): Ctrl {
    match first
    case Some(text) => ReceiveText(reg, c, text)
    case None => Silence(reg, max, c, second)
  }

  /** One iteration of the main loop: what is sent and the state after the replies. */
  function Iteration(reg: Registry, max: nat, c: Ctrl, woken: bool, first: Option<string>, second: Option<string>)
    : (Ctrl, Option<string>)
  {
    var sent := NextMessage(c, woken);
    match sent.request
    case None => (sent.c, None)
    case Some(request) =>
      match EncodeRequest(request)
      case Raised => (sent.c.(running := false), None)
      case Ok(text) => (AfterSend(reg, max, sent.c, first, second), Some(text))
  }

  // ---- worker steps

  function SetWorker(c: Ctrl, w: nat, p: Phase): Ctrl
    requires w < |c.workers|
  {
    c.(workers := c.workers[w := p])
  }

  /** pop() returns: the first task of the queue. */
  function PopTask(c: Ctrl, w: nat): Ctrl
    requires w < |c.workers| && c.queue != []
  {
    SetWorker(c.(queue := c.queue[1..]), w, Popped(c.queue[0]))
  }

  /** Execution ended, with or without an exception: the tid goes to the result queue. The queue
      raises on an empty tid, which ends the worker. */
  function Report(c: Ctrl, w: nat): Ctrl
    requires w < |c.workers| && c.workers[w].Executing?
  {
    if c.workers[w].task.tid == "" then SetWorker(c, w, Dead)
    else SetWorker(c.(results := c.results + [c.workers[w].task.tid]), w, Reported)
  }

  // ---- giving up

  /** One iteration that sends and gets no reply. */
  ghost predicate Unanswered(reg: Registry, max: nat, c: Ctrl, c2: Ctrl, woken: bool) {
    && c.running && Iteration(reg, max, c, woken, None, None).1.Some?
    && var after := Iteration(reg, max, c, woken, None, None).0;
       c2.retries == after.retries && c2.running == after.running
  }

  /** A controller stops after at most max + 1 consecutive unanswered sends, however its workers
      and queues change between the iterations. */
  lemma {:induction false} GivesUp(reg: Registry, max: nat, cs: seq<Ctrl>, woken: seq<bool>, n: nat)
    requires |cs| == n + 1 && |woken| == n && cs[0].retries <= max
    requires forall k :: 0 <= k < n ==> Unanswered(reg, max, cs[k], cs[k + 1], woken[k])
    ensures n <= max + 1 - cs[0].retries
    ensures cs[n].retries == cs[0].retries + n
    ensures n == max + 1 - cs[0].retries ==> !cs[n].running
    ensures 0 < n < max + 1 - cs[0].retries ==> cs[n].running
  {
    if n > 0 {
      GivesUp(reg, max, cs[..n], woken[..n - 1], n - 1);
      assert cs[..n][n - 1] == cs[n - 1] && cs[..n][0] == cs[0];
      assert Unanswered(reg, max, cs[n - 1], cs[n - 1 + 1], woken[n - 1]);
    }
  }
}

/** The controller's loop and the worker's loop as the program has them. */
module ControllerLoop {
  import opened Collections
  import opened SharedQueues
  import opened Wire
  import opened Controller

  class Loop {
    const reg: Registry
    const name: string
    const maxRetries: nat
    const taskQueue: SharedQueue<Task>
    const resultQueue: SharedQueue<string>
    var workers: seq<Phase>
    var retries: nat
    var running: bool

    ghost function Value(): Ctrl
      reads this, taskQueue, resultQueue
    {
      Ctrl(name, taskQueue.items, workers, resultQueue.items, retries, running)
    }

    constructor (reg: Registry, name: string, maxRetries: nat, tasks: SharedQueue<Task>, results: SharedQueue<string>, count: nat)
      ensures this.reg == reg && this.name == name && this.maxRetries == maxRetries
      ensures taskQueue == tasks && resultQueue == results
      ensures Value() == Ctrl(name, tasks.items, seq(count, i => Idle), results.items, 0, true)
    {
      this.reg, this.name, this.maxRetries := reg, name, maxRetries;
      taskQueue, resultQueue := tasks, results;
      workers := seq(count, i => Idle);
      retries, running := 0, true;
    }

    method ChooseMessage(woken: bool) returns (request: Option<Request>)
      modifies this, resultQueue
      ensures Value() == NextMessage(old(Value()), woken).c
      ensures request == NextMessage(old(Value()), woken).request
    {
      request := None;
      if resultQueue.items != [] {
        var taskId := resultQueue.PopNowait();
        if taskId.value != "" {
          request := Some(Finished(name, taskId.value));
        }
      }
      if request.None? {
        var foundReady := false;
        var inactive := 0;
        var i := 0;
        while i < |workers|
          invariant 0 <= i <= |workers| && 0 <= inactive <= i
          invariant foundReady <==> exists w :: 0 <= w < i && ShowsReady(workers[w])
          invariant inactive == i <==> forall w :: 0 <= w < i ==> workers[w].Dead?
        {
          if ShowsReady(workers[i]) { foundReady := true; }
          if workers[i].Dead? { inactive := inactive + 1; }
          i := i + 1;
        }
        if foundReady {
          request := Some(WantTask(name));
        } else if inactive == |workers| {
          running := false;
        } else if !woken {
          request := Some(Beat(name));
        }
      }
    }

    method HandleReply(text: string)
      modifies this, taskQueue
      ensures Value() == ReceiveText(reg, old(Value()), text)
    {
      var reply := DecodeReply(reg, text);
      if reply.Raised? {
        running := false;
        return;
      }
      match reply.value {
        case Assign(task) => var ok := taskQueue.Push(task, true);
        case Quit => running := false;
        case _ =>
      }
      if retries != 0 {
        retries := 0;
      }
    }

    /** One iteration; `first` and `second` are what the two receives yield. */
    method Iterate(woken: bool, first: Option<string>, second: Option<string>) returns (sent: Option<string>)
      requires taskQueue as object != resultQueue
      modifies this, taskQueue, resultQueue
      ensures (Value(), sent) == Iteration(reg, maxRetries, old(Value()), woken, first, second)
    {
      sent := None;
      var request := ChooseMessage(woken);
      if request.Some? {
        var text := EncodeRequest(request.value);
        if text.Raised? {
          running := false;
          return;
        }
        sent := Some(text.value);
        if first.Some? {
          HandleReply(first.value);
        } else {
          var connected := true;
          if retries == maxRetries {
            connected := false;
            running := false;
          }
          if connected && second.Some? {
            HandleReply(second.value);
          } else {
            retries := retries + 1;
          }
        }
      }
    }
  }

  datatype Shown = NOT_READY | READY | EXECUTING

  /** How a run of a worker comes to a stop. */
  datatype End = Signalled | Blocked | Failed

  function TidsOf(ts: seq<Task>): seq<string> { seq(|ts|, i requires 0 <= i < |ts| => ts[i].tid) }

  lemma PrefixGrows(ts: seq<Task>, n: nat)
    requires n < |ts|
    ensures ts[n..][0] == ts[n] && ts[n..][1..] == ts[n + 1..]
    ensures ts[..n + 1] == ts[..n] + [ts[n]]
    ensures TidsOf(ts[..n + 1]) == TidsOf(ts[..n]) + [ts[n].tid]
  {
  }

  class Worker {
    const taskQueue: SharedQueue<Task>
    const resultQueue: SharedQueue<string>
    var runFlag: bool
    var shown: Shown          // the shared state cell
    var shownTid: string
    var executed: seq<Task>

    constructor (tasks: SharedQueue<Task>, results: SharedQueue<string>)
      ensures taskQueue == tasks && resultQueue == results
      ensures runFlag && shown == NOT_READY && executed == []
    {
      taskQueue, resultQueue := tasks, results;
      runFlag, shown, shownTid, executed := true, NOT_READY, "", [];
    }

    /** The body of the loop, once there is an item. */
    method RunOne() returns (alive: bool)
      requires taskQueue.items != [] && taskQueue as object != resultQueue
      modifies this, taskQueue`items, resultQueue`items
      ensures taskQueue.items == old(taskQueue.items)[1..]
      ensures executed == old(executed) + [old(taskQueue.items)[0]]
      ensures alive <==> old(taskQueue.items)[0].tid != ""
      ensures resultQueue.items == old(resultQueue.items) + if alive then [old(taskQueue.items)[0].tid] else []
      ensures runFlag == old(runFlag) && (alive ==> shown == READY && shownTid == "")
    {
      var task := taskQueue.Pop();
      shown, shownTid := EXECUTING, task.tid;
      executed := executed + [task];
      alive := resultQueue.Push(task.tid, task.tid != "");
      if alive {
        shown, shownTid := READY, "";
      }
    }

    /** The run loop on the items that are queued; the stop signal arrives before the check of the
        flag number `signal`. In order, every item taken is executed once and reported once, and
        the cell shows READY again. It ends on the signal, or blocks in pop, or fails on the first
        item without a tid, which it executes but cannot report. */
    method Run(signal: nat) returns (end: End, n: nat)
      requires runFlag && taskQueue as object != resultQueue
      modifies this, taskQueue`items, resultQueue`items
      ensures n <= signal && n <= |old(taskQueue.items)|
      ensures taskQueue.items == old(taskQueue.items)[n..]
      ensures executed == old(executed) + old(taskQueue.items)[..n]
      ensures end != Failed ==>
        && (forall k :: 0 <= k < n ==> old(taskQueue.items)[k].tid != "")
        && resultQueue.items == old(resultQueue.items) + TidsOf(old(taskQueue.items)[..n]) && shown == READY
      ensures end == Signalled ==> n == signal && !runFlag
      ensures end == Blocked ==> n == |old(taskQueue.items)| && runFlag
      ensures end == Failed ==>
        && n > 0 && old(taskQueue.items)[n - 1].tid == ""
        && (forall k :: 0 <= k < n - 1 ==> old(taskQueue.items)[k].tid != "")
        && resultQueue.items == old(resultQueue.items) + TidsOf(old(taskQueue.items)[..n - 1])
    {
      shown := READY;
      n := 0;
      while true
        invariant n <= signal && n <= |old(taskQueue.items)| && runFlag && shown == READY
        invariant taskQueue.items == old(taskQueue.items)[n..]
        invariant executed == old(executed) + old(taskQueue.items)[..n]
        invariant resultQueue.items == old(resultQueue.items) + TidsOf(old(taskQueue.items)[..n])
        invariant forall k :: 0 <= k < n ==> old(taskQueue.items)[k].tid != ""
        decreases |taskQueue.items|
      {
        if n == signal {
          runFlag := false;
        }
        if !runFlag { return Signalled, n; }
        if taskQueue.items == [] { return Blocked, n; }
        PrefixGrows(old(taskQueue.items), n);
        var alive := RunOne();
        n := n + 1;
        if !alive { return Failed, n; }
      }
    }
  }
}
