/** The monitoring generator and the lock protocol of the shared queue: the queue never mixes two
    measurement rounds. */
module Monitoring {
  import opened Collections
  import opened Decimal
  import opened Fields
  import opened SharedQueues
  import opened TaskFate
  import opened Wire

  // ---- the batches

  /** The task skeleton; `slot` is the position of the argument ost_idx, if the class has it. */
  datatype Skeleton = Skeleton(task: Task, slot: Option<nat>)

  function OstTask(k: Skeleton, ost: nat): Task {
    var args := if k.slot.Some? && k.slot.value < |k.task.args| then k.task.args[k.slot.value := Str(ost)] else k.task.args;
    k.task.(tid := Str(ost), args := args)
  }

  function OstTasks(k: Skeleton, osts: seq<nat>): seq<Task> {
    seq(|osts|, i requires 0 <= i < |osts| => OstTask(k, osts[i]))
  }

  /** The OSTs to measure: the selected ones, which must all be available, or all available ones. */
  method BuildIndexSet(selected: set<nat>, available: set<nat>) returns (built: Result<set<nat>>)
    ensures built.Ok? <==> available != {} && selected <= available
    ensures built.Ok? ==> built.value == if selected == {} then available else selected
  {
    if |available| == 0 { return Raised; }
    if |selected| == 0 { return Ok(available); }
    if |selected| > |available| {
      if selected <= available { Cardinality(selected, available); }
      return Raised;
    }
    var set_: set<nat> := {};
    var rest := selected;
    while rest != {}
      invariant rest <= selected && set_ == selected - rest && set_ <= available
      decreases rest
    {
      var ost :| ost in rest;
      if ost in available {
        set_ := set_ + {ost};
      } else {
        return Raised;
      }
      rest := rest - {ost};
    }
    if set_ == {} { return Raised; }
    built := Ok(set_);
  }

  lemma {:induction false} Cardinality(a: set<nat>, b: set<nat>)
    requires a <= b
    ensures |a| <= |b|
  {
    if a != {} {
      var x :| x in a;
      Cardinality(a - {x}, b - {x});
    }
  }

  /** The list names every OST of the set once. */
  ghost predicate Lists(order: seq<nat>, osts: set<nat>) {
    Distinct(order) && forall o :: o in order <==> o in osts
  }

  /** One task for every OST of the set, in some order. */
  method CreateTaskList(k: Skeleton, osts: set<nat>) returns (tasks: seq<Task>)
    ensures exists order :: Lists(order, osts) && tasks == OstTasks(k, order)
  {
    tasks := [];
    ghost var order: seq<nat> := [];
    var rest := osts;
    while rest != {}
      invariant rest <= osts && Lists(order, osts - rest)
      invariant tasks == OstTasks(k, order)
      decreases rest
    {
      var ost :| ost in rest;
      tasks := tasks + [OstTask(k, ost)];
      DistinctAppend(order, ost);
      order := order + [ost];
      rest := rest - {ost};
    }
    assert Lists(order, osts);
  }

  /** A batch has exactly one task with the tid of each chosen OST, and no other task. */
  lemma OneTaskPerOst(k: Skeleton, osts: set<nat>, order: seq<nat>, i: nat, j: nat)
    requires Lists(order, osts) && i < |order| && j < |order|
    ensures order[i] in osts
    ensures OstTasks(k, order)[i].tid == OstTasks(k, order)[j].tid <==> i == j
    ensures OstTasks(k, order)[i].tid == Str(order[i])
  {
    IntOfStr(order[i]);
    IntOfStr(order[j]);
    if i < j { assert order[i] != order[j]; }
    if j < i { assert order[j] != order[i]; }
  }

  /** A task of a batch carries the index of its OST as the argument ost_idx, if its class has one; the
      class and the other arguments are the skeleton's. */
  lemma TaskOfOst(k: Skeleton, order: seq<nat>, i: nat)
    requires i < |order|
    ensures var task := OstTasks(k, order)[i];
      && task.package == k.task.package && task.class_ == k.task.class_ && |task.args| == |k.task.args|
      && (forall j :: 0 <= j < |task.args| && k.slot != Some(j) ==> task.args[j] == k.task.args[j])
      && (k.slot.Some? && k.slot.value < |task.args| ==> task.args[k.slot.value] == Str(order[i]))
  {
  }

  /** No task of a batch is mangled: each arrives as it was sent, or not at all. */
  lemma BatchFaithful(reg: Registry, k: Skeleton, order: seq<nat>, i: nat)
    requires Typed(reg, k.task) && i < |order|
    ensures var task := OstTasks(k, order)[i];
      !Mangled(task) && CarryReply(reg, Assign(task)) ==
        if Importable(reg, task) && SafeTask(task) then Ok(Assign(task)) else Raised
  {
    SplitPlain(Str(order[i]), SEP);
    TaskFate.TaskFate(reg, OstTasks(k, order)[i]);
  }

  /** The critical section of the generator, once it has the lock: clear, then fill. */
  method RefreshQueue(queue: SharedQueue<Task>, section: CriticalSection, tasks: seq<Task>)
    requires section.lock == queue.lock && !section.acquired && !queue.lock.held
    modifies queue`items, section`acquired, queue.lock
    ensures queue.items == tasks && !section.acquired && !queue.lock.held
  {
    section.Enter(true);
    var empty := queue.IsEmpty();
    if !empty {
      queue.Clear();
    }
    if tasks != [] {
      var ok := queue.Fill(tasks);
    }
    section.Exit();
  }

  /** The critical section of the master: with the lock, the head of the queue; without it or on
      an empty queue, nothing. */
  method TakeTask(queue: SharedQueue<Task>, section: CriticalSection, released: bool) returns (task: Option<Task>)
    requires section.lock == queue.lock && !section.acquired
    modifies queue`items, section`acquired, queue.lock
    ensures old(queue.lock.held) && !released ==> task == None && queue.items == old(queue.items) && queue.lock.held
    ensures !old(queue.lock.held) || released ==>
      && !queue.lock.held
      && (if old(queue.items) == [] then task == None && queue.items == []
          else task == Some(old(queue.items)[0]) && queue.items == old(queue.items)[1..])
  {
    task := None;
    section.Enter(released);
    if section.acquired {
      if queue.items != [] {
        task := queue.PopNowait();
      }
    }
    section.Exit();
  }

  // ---- the protocol, queue operation by queue operation

  datatype Holder = Nobody | ByGenerator | ByMaster
  datatype Phase = Outside | Clearing | Filling(k: nat)

  /** `taken`: what the master popped from the latest batch; `rounds`: earlier batches with what it
      popped from them. */
  datatype Protocol = Protocol(
    queue: seq<Task>, holder: Holder, phase: Phase, batch: seq<Task>, taken: seq<Task>,
    rounds: seq<(seq<Task>, seq<Task>)>)

  datatype Step =
    | Acquire(batch: seq<Task>)  // the generator, with a new batch
    | ClearOne
    | EndClear
    | FillOne
    | EndFill
    | Lock                       // the master
    | Pop
    | Unlock

  predicate Enabled(p: Protocol, step: Step) {
    match step
    case Acquire(_) => p.holder == Nobody && p.phase == Outside
    case ClearOne => p.phase == Clearing && p.queue != []
    case EndClear => p.phase == Clearing && p.queue == []
    case FillOne => p.phase.Filling? && p.phase.k < |p.batch|
    case EndFill => p.phase == Filling(|p.batch|)
    case Lock => p.holder == Nobody
    case Pop => p.holder == ByMaster && p.queue != []
    case Unlock => p.holder == ByMaster
  }

  function Next(p: Protocol, step: Step): Protocol
    requires Enabled(p, step)
  {
    match step
    case Acquire(batch) =>
      p.(holder := ByGenerator, phase := Clearing, batch := batch, taken := [], rounds := p.rounds + [(p.batch, p.taken)])
    case ClearOne => p.(queue := p.queue[1..])
    case EndClear => if p.batch == [] then p.(phase := Outside, holder := Nobody) else p.(phase := Filling(0))
    case FillOne => p.(queue := p.queue + [p.batch[p.phase.k]], phase := Filling(p.phase.k + 1))
    case EndFill => p.(phase := Outside, holder := Nobody)
    case Lock => p.(holder := ByMaster)
    case Pop => p.(queue := p.queue[1..], taken := p.taken + [p.queue[0]])
    case Unlock => p.(holder := Nobody)
  }

  ghost predicate Inv(p: Protocol) {
    && (p.phase != Outside <==> p.holder == ByGenerator)
    && (p.phase == Outside ==> p.taken + p.queue == p.batch)
    && (p.phase != Outside ==> p.taken == [])
    && (p.phase.Filling? ==> p.phase.k <= |p.batch| && p.queue == p.batch[..p.phase.k])
    && (forall r :: r in p.rounds ==> r.1 <= r.0)
  }

  lemma NextKeeps(p: Protocol, step: Step)
    requires Inv(p) && Enabled(p, step)
    ensures Inv(Next(p, step))
  {
    match step {
      case EndFill => assert p.batch[..|p.batch|] == p.batch;
      case Pop => assert p.queue == [p.queue[0]] + p.queue[1..];
      case Acquire(_) => assert p.taken <= p.batch;
      case _ =>
    }
  }

  ghost predicate Run(ps: seq<Protocol>, steps: seq<Step>) {
    && |ps| == |steps| + 1 && ps[0] == Protocol([], Nobody, Outside, [], [], [])
    && forall i :: 0 <= i < |steps| ==> Enabled(ps[i], steps[i]) && ps[i + 1] == Next(ps[i], steps[i])
  }

  lemma {:induction false} RunInv(ps: seq<Protocol>, steps: seq<Step>, n: nat)
    requires Run(ps, steps) && n < |ps|
    ensures Inv(ps[n])
  {
    if n > 0 {
      RunInv(ps, steps, n - 1);
      NextKeeps(ps[n - 1], steps[n - 1]);
      assert ps[n - 1 + 1] == Next(ps[n - 1], steps[n - 1]);
    }
  }

  /** Whenever the master holds the lock the queue is the rest of the latest batch behind what the
      master already took from it, although clearing and filling are many queue operations; and
      from every earlier batch it took a prefix. */
  lemma NeverMixesRounds(ps: seq<Protocol>, steps: seq<Step>, n: nat)
    requires Run(ps, steps) && n < |ps| && ps[n].holder == ByMaster
    ensures |ps[n].taken| <= |ps[n].batch|
    ensures ps[n].taken == ps[n].batch[..|ps[n].taken|] && ps[n].queue == ps[n].batch[|ps[n].taken|..]
    ensures forall r :: r in ps[n].rounds ==> r.1 <= r.0
  {
    RunInv(ps, steps, n);
    assert ps[n].taken + ps[n].queue == ps[n].batch;
  }
}
