/** The master's main loop as the program has it: an object whose methods are the branches of one
    iteration, proved to compute the functions in Master. */
module MasterLoop {
  import opened Collections
  import opened SharedQueues
  import opened Wire
  import opened Master

  class Loop {
    const cfg: Config
    const taskQueue: SharedQueue<Task>
    const resultQueue: SharedQueue<string>
    var status: map<string, StatusItem>
    var heartbeat: Dict<string, int>
    var distributing: bool
    var waitDuration: nat
    var errors: nat
    var running: bool

    ghost function Value(): Master
      reads this, taskQueue, resultQueue
    {
      Master(taskQueue.items, resultQueue.items, status, heartbeat, distributing, waitDuration, errors, running)
    }

    constructor (cfg: Config, waitDuration: nat, tasks: SharedQueue<Task>, results: SharedQueue<string>)
      requires tasks.items == [] && results.items == []
      ensures this.cfg == cfg && taskQueue == tasks && resultQueue == results
      ensures Value() == Fresh(waitDuration)
    {
      this.cfg, taskQueue, resultQueue := cfg, tasks, results;
      status, heartbeat := map[], Dict([], map[]);
      distributing, this.waitDuration, errors, running := true, waitDuration, 0, true;
    }

    /** The except branch. */
    method HandleException()
      modifies this
      ensures Value() == Fault(old(Value()))
    {
      errors := errors + 1;
      distributing := false;
      if errors == MAX_ERRORS {
        running := false;
      }
    }

    /** An iteration that received a text; `granted`: the timed acquire of the queue's lock
        succeeded. The reply is what is sent, if no exception came first. */
    method OnMessage(recvData: string, t: Tick) returns (sendData: Option<string>)
      requires taskQueue as object != resultQueue
      modifies this, taskQueue, resultQueue
      ensures (Value(), sendData) == ServeText(cfg, old(Value()), recvData, t)
    {
      sendData := None;
      var recvMsg := DecodeRequest(recvData);
      if recvMsg.Raised? {
        HandleException();
        return;
      }
      DecodedTidGiven(recvData);
      var request := recvMsg.value;
      heartbeat := heartbeat.Put(request.sender, t.beat);
      var sendMsg: Option<Reply>;
      if distributing {
        match request {
          case WantTask(sender) => sendMsg := OnTaskRequest(sender, t);
          case Finished(sender, tid) => sendMsg := OnTaskFinished(sender, tid, t);
          case Beat(_) => sendMsg := Some(Acknowledged);
        }
      } else {
        sendMsg := Some(Quit);
        heartbeat := heartbeat.Drop(request.sender);
        if |heartbeat.order| == 0 {
          running := false;
        }
      }
      if sendMsg.Some? {
        var text := EncodeReply(sendMsg.value);
        if text.Raised? {
          HandleException();
        } else {
          sendData := Some(text.value);
        }
      }
    }

    method OnTaskRequest(sender: string, t: Tick) returns (sendMsg: Option<Reply>)
      modifies this, taskQueue
      ensures var s := ServeRequest(cfg, old(Value()), sender, t); Value() == s.m && sendMsg == s.reply
    {
      var task: Option<Task> := None;
      if t.locked {
        if taskQueue.items != [] {
          task := taskQueue.PopNowait();
        } else if !t.generatorAlive {
          distributing := false;
          waitDuration := 0;
        }
      }
      if task.Some? {
        var tid := task.value.tid;
        var doTaskAssign := false;
        if tid in status {
          var threshold := status[tid].timestamp + cfg.resendTimeout;
          if status[tid].state == IsFinished || t.last >= threshold {
            doTaskAssign := true;
          } else {
            sendMsg := Some(WaitFor(waitDuration));
          }
        } else {
          doTaskAssign := true;
        }
        if doTaskAssign {
          status := status[tid := StatusItem(IsAssigned, sender, t.stamp)];
          sendMsg := Some(Assign(task.value));
        }
      } else {
        sendMsg := Some(WaitFor(waitDuration));
      }
    }

    /** None stands for the exception on an unknown tid. A message object always has a tid. */
    method OnTaskFinished(sender: string, tid: string, t: Tick) returns (sendMsg: Option<Reply>)
      requires taskQueue as object != resultQueue && tid != ""
      modifies this, resultQueue
      ensures var s := ServeFinished(old(Value()), sender, tid, t); Value() == s.m && sendMsg == s.reply
    {
      if tid !in status {
        HandleException();
        return None;
      }
      if sender == status[tid].controller {
        status := status[tid := status[tid].(state := IsFinished)];
        status := status[tid := status[tid].(timestamp := t.stamp)];
        var ok := resultQueue.Push(tid, tid != "");
      }
      sendMsg := Some(Acknowledged);
    }

    /** An iteration that ran into the poll timeout. A dictionary that changed its size makes the
        next step of the loop over it raise. */
    method OnPollTimeout(last: int)
      modifies this
      ensures Value() == PollTimeout(cfg, old(Value()), last)
    {
      if distributing { return; }
      var names := heartbeat.order;
      ghost var start := heartbeat;
      var i := 0;
      while i < |names|
        invariant 0 <= i <= |names| && heartbeat == start
        invariant Expired(cfg, start, last, names) == Expired(cfg, start, last, names[i..])
        invariant Value() == old(Value())
      {
        assert names[i..][1..] == names[i + 1..];
        var name := names[i];
        if name in heartbeat.at && last >= heartbeat.at[name] + cfg.controllerTimeout {
          heartbeat := heartbeat.Drop(name);
          HandleException();
          return;
        }
        i := i + 1;
      }
      if |heartbeat.order| == 0 {
        running := false;
      }
    }
  }
}
