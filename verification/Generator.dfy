/** The migration generator as the program has it: an object whose dictionaries, key list and
    cursors its methods update in place, pushing tasks to the task queue and draining the result
    queue. Every method is proved to compute the function of the same step in Scheduler. */
module Generator {
  import opened Collections
  import opened Decimal
  import opened Scheduler
  import opened SharedQueues
  import opened Tids
  import opened TaskWire
  import opened Wire
  import Counter
  import FileLaws
  import GeneratorRuns
  import opened InputLines
  import opened LoadLaws
  import SchedulerLaws

  /** The flags of the task skeleton, and whether the generator runs in local mode, where only
      the tid of the skeleton is set. */
  datatype Skeleton = Skeleton(task: Task, local: bool, directIo: bool, block: bool, skip: bool)

  function Filled(k: Skeleton, p: Push): Task {
    var tid := TidOf(p.source, p.target);
    if k.local then k.task.(tid := tid)
    else MigrateTask(tid, Migration(p.item.filename, Some(p.source), Some(p.target), k.directIo, k.block, k.skip))
  }

  /** The task of a push names its pair, and outside local mode carries the file, the pair and the
      flags of the skeleton; in local mode only the tid of the skeleton changes. */
  lemma FilledMeans(k: Skeleton, p: Push)
    ensures Filled(k, p).tid == Str(p.source) + ":" + Str(p.target)
    ensures ParseTid(Filled(k, p).tid) == Ok((p.source, p.target)) && SafeName(Filled(k, p).tid)
    ensures !k.local ==>
      Construct(Filled(k, p).args) ==
        Ok(Migration(p.item.filename, Some(p.source), Some(p.target), k.directIo, k.block, k.skip))
    ensures !k.local ==>
      Filled(k, p).package == "task.lustre_ost_migrate_task" && Filled(k, p).class_ == "LustreOstMigrateTask"
    ensures k.local ==>
      Filled(k, p).package == k.task.package && Filled(k, p).class_ == k.task.class_ && Filled(k, p).args == k.task.args
  {
    TidRoundTrip(p.source, p.target);
    MigrationRebuilt(Migration(p.item.filename, Some(p.source), Some(p.target), k.directIo, k.block, k.skip));
  }

  function Tasks(k: Skeleton, ps: seq<Push>): (r: seq<Task>)
    ensures |r| == |ps|
  {
    seq(|ps|, i requires 0 <= i < |ps| => Filled(k, ps[i]))
  }

  /** Popping finished tids one after the other. */
  function ReturnAll(s: Sched, tids: seq<string>): Result<Sched> {
    if tids == [] then Ok(s)
    else match ReturnAll(s, tids[..|tids| - 1])
      case Raised => Raised
      case Ok(s1) =>
        match ParseTid(tids[|tids| - 1])
        case Raised => Raised
        case Ok(f) => Return(s1, f.0, f.1)
  }

  /** An exception while popping some tid leaves the rest popped by nobody. */
  lemma {:induction false} RaisedStays(s: Sched, tids: seq<string>, n: nat)
    requires n <= |tids| && ReturnAll(s, tids[..n]).Raised?
    ensures ReturnAll(s, tids).Raised?
  {
    if n < |tids| {
      var init := tids[..|tids| - 1];
      assert init[..n] == tids[..n];
      RaisedStays(s, init, n);
    } else {
      assert tids[..n] == tids;
    }
  }

  /** The pushes of one round: none or one. */
  function Chosen(s: Sched): seq<Push>
    requires s.nextSource < |s.keys|
  {
    match Choice(s) case None => [] case Some(p) => [p]
  }

  lemma TasksConcat(k: Skeleton, a: seq<Push>, b: seq<Push>)
    ensures Tasks(k, a + b) == Tasks(k, a) + Tasks(k, b)
  {
  }

  /** After the pushes `made` a pass that began in `first` has come to s. */
  ghost predicate Rest(first: Sched, made: seq<Push>, s: Sched, checked: int) {
    && After(s, checked) == After(first, 0) && made + Pushes(s, checked) == Pushes(first, 0)
    && Counter.Looked(s, checked) == Counter.Looked(first, 0)
  }

  /** What a pass looks up is there. */
  ghost predicate LookupsHit(s: Sched) {
    && s.nextTarget <= |s.targets|
    && (forall o :: o in s.keys ==> o in s.source.at && o in s.caches.at)
    && (forall t :: t in s.targets ==> t in s.target.at)
  }

  lemma LegalLookups(s: Sched)
    requires Legal(s)
    ensures LookupsHit(s) && forall o :: o in s.caches.order ==> o in s.caches.at && o in s.source.at
  {
  }

  lemma VisitKeepsLookups(s: Sched, s2: Sched)
    requires LookupsHit(s) && s.nextSource < |s.keys| && s2 == Visit(s)
    ensures LookupsHit(s2)
  {
  }

  lemma Unfolded(s: Sched, checked: int, s2: Sched, total: int)
    requires !Over(s, checked) && s2 == Visit(s) && total == checked + Checks(s)
    ensures After(s, checked) == After(s2, total)
    ensures Pushes(s, checked) == Chosen(s) + Pushes(s2, total)
    ensures Counter.Looked(s, checked) == Counter.Looked(s2, total)
  {
  }

  lemma RestStep(first: Sched, made: seq<Push>, s: Sched, checked: int, s2: Sched, total: int)
    requires Rest(first, made, s, checked) && !Over(s, checked)
    requires s2 == Visit(s) && total == checked + Checks(s)
    ensures Rest(first, made + Chosen(s), s2, total)
  {
    Unfolded(s, checked, s2, total);
    Regroup(made, Chosen(s), Pushes(s2, total));
  }

  lemma Regroup(a: seq<Push>, b: seq<Push>, c: seq<Push>)
    ensures a + (b + c) == (a + b) + c
  {
  }

  lemma RestOver(first: Sched, made: seq<Push>, s: Sched, checked: int)
    requires Rest(first, made, s, checked) && Over(s, checked)
    ensures s == After(first, 0) && made == Pushes(first, 0) && checked == Counter.Looked(first, 0)
  {
    assert made + [] == made;
  }

  /** What processing the input files makes of a state. */
  function Processed(s: Sched, th: Thresholds, path: string, files: seq<seq<Option<string>>>): Result<Sched>
    requires s.caches.WF()
  {
    if files == [] then Ok(s) else Process(s, th, AllLines(path, files))
  }

  lemma ProcessedSound(s: Sched, th: Thresholds, path: string, files: seq<seq<Option<string>>>)
    requires SchedulerLaws.Sound(s, th, {}) && Processed(s, th, path, files).Ok?
    ensures Legal(Processed(s, th, path, files).value)
  {
    if files != [] { FileLaws.ProcessSound(s, th, {}, AllLines(path, files)); }
  }

  lemma {:induction false} LoadConcat(c: Caches, a: seq<Line>, b: seq<Line>)
    ensures Load(c, a + b) == Load(Load(c, a), b)
  {
    if b == [] {
      assert a + b == a;
    } else {
      assert (a + b)[..|a + b| - 1] == a + b[..|b| - 1];
      LoadConcat(c, a, b[..|b| - 1]);
    }
  }

  lemma {:induction false} ScanFinds(targets: seq<nat>, state: map<nat, OstState>, j: nat, k: nat)
    requires j <= k <= |targets| && forall i :: j <= i < k ==> !Ready(state, targets[i])
    requires k < |targets| ==> Ready(state, targets[k])
    ensures Scan(targets, state, j) == k
    decreases k - j
  {
    if j < k { ScanFinds(targets, state, j + 1, k); }
  }

  /** d2 is d after a good or a bad reading for an OST. */
  ghost predicate Reads(d: States, d2: States, ost: nat, good: bool) {
    && ost in d2.at
    && (ost in d.at ==> SchedulerLaws.Turns(d.at[ost], d2.at[ost], good))
    && (ost !in d.at ==> d2.at[ost] == if good then READY else LOCKED)
    && d2.at.Keys == d.at.Keys + {ost} && forall o :: o in d.at && o != ost ==> d2.at[o] == d.at[o]
  }

  class MigrationGenerator {
    const th: Thresholds
    const skeleton: Skeleton
    const path: string        // lfs_path
    const taskQueue: SharedQueue<Task>
    const resultQueue: SharedQueue<string>

    var sourceKeys: seq<nat>
    var targetKeys: seq<nat>
    var caches: Caches
    var sourceStates: States
    var targetStates: States
    var levels: Fill
    var nextSource: nat
    var nextTarget: nat

    ghost function Value(): Sched
      reads this
    {
      Sched(sourceKeys, targetKeys, caches, sourceStates, targetStates, levels, nextSource, nextTarget)
    }

    ghost predicate Valid()
      reads this
    {
      Legal(Value())
    }

    constructor (th: Thresholds, skeleton: Skeleton, path: string, tasks: SharedQueue<Task>, results: SharedQueue<string>)
      ensures this.th == th && this.skeleton == skeleton && this.path == path && taskQueue == tasks && resultQueue == results
      ensures Value() == Sched([], [], Dict([], map[]), Dict([], map[]), Dict([], map[]), map[], 0, 0)
    {
      this.th, this.skeleton, this.path, taskQueue, resultQueue := th, skeleton, path, tasks, results;
      sourceKeys, targetKeys, caches := [], [], Dict([], map[]);
      sourceStates, targetStates, levels := Dict([], map[]), Dict([], map[]), map[];
      nextSource, nextTarget := 0, 0;
    }

    /** The start of run: the first fill level readings, the states of the configured targets and
        the input files that are there; false stands for the exception on an OST without a reading. */
    method Begin(targets: seq<nat>, fill: Fill, files: seq<seq<Option<string>>>) returns (ok: bool)
      requires Value() == Sched([], [], Dict([], map[]), Dict([], map[]), Dict([], map[]), map[], 0, 0)
      modifies this
      ensures var start := GeneratorRuns.Start(th, targets, fill);
        && (ok <==> start.Ok? && Processed(start.value.s, th, path, files).Ok?)
        && (ok ==> Valid() && Ok(Value()) == Processed(start.value.s, th, path, files))
    {
      levels := fill;
      ok := UpdateStates(AsTarget, targets);
      targetKeys := targetStates.order;
      if ok {
        ghost var start := Value();
        GeneratorRuns.StartInv(th, targets, fill);
        ok := ProcessInput(files);
        if ok { ProcessedSound(start, th, path, files); }
      }
    }

    /** The matching pass at the head of the main loop. */
    method MatchingPass()
      requires Valid()
      modifies this, taskQueue
      ensures Valid() && Value() == Pass(old(Value()))
      ensures taskQueue.items == old(taskQueue.items) + Tasks(skeleton, PassPushes(old(Value())))
    {
      SchedulerLaws.PassIsMatching(Value());
      if nextSource >= |sourceKeys| {
        nextSource := 0;
      }
      var checked := Rounds();
    }

    /** The outer loop of the pass. */
    method Rounds() returns (checked: int)
      requires LookupsHit(Value())
      modifies this, taskQueue
      ensures Value() == After(old(Value()), 0) && checked == Counter.Looked(old(Value()), 0)
      ensures taskQueue.items == old(taskQueue.items) + Tasks(skeleton, Pushes(old(Value()), 0))
    {
      checked := 0;
      ghost var first := Value();
      ghost var made: seq<Push> := [];
      while nextSource < |sourceKeys|
        invariant LookupsHit(Value())
        invariant Rest(first, made, Value(), checked)
        invariant taskQueue.items == old(taskQueue.items) + Tasks(skeleton, made)
        decreases |sourceKeys| - nextSource
      {
        if checked == |targetKeys| {
          break;
        }
        checked, made := NextRound(first, made, checked, old(taskQueue.items));
      }
      RestOver(first, made, Value(), checked);
    }

    /** VisitNext, with the account of the pass so far. */
    method NextRound(ghost first: Sched, ghost made: seq<Push>, before: int, ghost queued: seq<Task>)
      returns (checked: int, ghost more: seq<Push>)
      requires LookupsHit(Value()) && !Over(Value(), before)
      requires Rest(first, made, Value(), before)
      requires taskQueue.items == queued + Tasks(skeleton, made)
      modifies this, taskQueue
      ensures LookupsHit(Value()) && Rest(first, more, Value(), checked)
      ensures taskQueue.items == queued + Tasks(skeleton, more)
      ensures |sourceKeys| == old(|sourceKeys|) && nextSource == old(nextSource) + 1
    {
      ghost var s := Value();
      checked := VisitNext(before);
      more := made + Chosen(s);
      RestStep(first, made, s, before, Value(), checked);
      VisitKeepsLookups(s, Value());
      TasksConcat(skeleton, made, Chosen(s));
    }

    /** One round of the outer loop. */
    method VisitNext(before: int) returns (checked: int)
      requires LookupsHit(Value()) && nextSource < |sourceKeys|
      modifies this, taskQueue
      ensures Value() == Visit(old(Value()))
      ensures checked == before + Checks(old(Value()))
      ensures taskQueue.items == old(taskQueue.items) + Tasks(skeleton, Chosen(old(Value())))
    {
      checked := before;
      var sourceOst := sourceKeys[nextSource];
      nextSource := nextSource + 1;
      if sourceStates.at[sourceOst] == READY {
        if caches.at[sourceOst] != [] {
          checked := SearchTarget(sourceOst, checked);
        }
      }
    }

    /** The inner loop and the wrap-around: from the target cursor on, the first READY target gets
        the last file. */
    method SearchTarget(sourceOst: nat, before: int) returns (checked: int)
      requires nextTarget <= |targetKeys| && forall t :: t in targetKeys ==> t in targetStates.at
      requires sourceOst in caches.at && caches.at[sourceOst] != []
      modifies this, taskQueue
      ensures var s := old(Value());
        var j := Scan(s.targets, s.target.at, s.nextTarget);
        if j == |s.targets| then
          Value() == s.(nextTarget := 0) && checked == before + j - s.nextTarget && taskQueue.items == old(taskQueue.items)
        else
          var p := Push(sourceOst, s.targets[j], s.caches.at[sourceOst][|s.caches.at[sourceOst]| - 1]);
          && Value() == Dispatch(s, p).(nextTarget := Wrap(j + 1, |s.targets|))
          && checked == before + j + 1 - s.nextTarget
          && taskQueue.items == old(taskQueue.items) + [Filled(skeleton, p)]
    {
      checked := FindTarget(sourceOst, before);
      if nextTarget == |targetKeys| {
        nextTarget := 0;
      }
    }

    /** The inner loop. */
    method FindTarget(sourceOst: nat, before: int) returns (checked: int)
      requires nextTarget <= |targetKeys| && forall t :: t in targetKeys ==> t in targetStates.at
      requires sourceOst in caches.at && caches.at[sourceOst] != []
      modifies this, taskQueue
      ensures var s := old(Value());
        var j := Scan(s.targets, s.target.at, s.nextTarget);
        if j == |s.targets| then
          Value() == s.(nextTarget := j) && checked == before + j - s.nextTarget && taskQueue.items == old(taskQueue.items)
        else
          var p := Push(sourceOst, s.targets[j], s.caches.at[sourceOst][|s.caches.at[sourceOst]| - 1]);
          && Value() == Dispatch(s, p).(nextTarget := j + 1)
          && checked == before + j + 1 - s.nextTarget
          && taskQueue.items == old(taskQueue.items) + [Filled(skeleton, p)]
    {
      ghost var s := Value();
      checked := before;
      while nextTarget < |targetKeys|
        invariant Value() == s.(nextTarget := nextTarget)
        invariant s.nextTarget <= nextTarget <= |targetKeys|
        invariant forall i :: s.nextTarget <= i < nextTarget ==> !Ready(s.target.at, s.targets[i])
        invariant checked == before + nextTarget - s.nextTarget
        invariant taskQueue.items == old(taskQueue.items)
      {
        var targetOst := targetKeys[nextTarget];
        nextTarget := nextTarget + 1;
        checked := checked + 1;
        if targetStates.at[targetOst] == READY {
          ScanFinds(s.targets, s.target.at, s.nextTarget, nextTarget - 1);
          PushTask(sourceOst, targetOst);
          return;
        }
      }
      ScanFinds(s.targets, s.target.at, s.nextTarget, |s.targets|);
    }

    /** Pop the last file of the source's cache, push its task and block both OSTs. */
    method PushTask(sourceOst: nat, targetOst: nat)
      requires sourceOst in caches.at && caches.at[sourceOst] != []
      modifies this`caches, this`sourceStates, this`targetStates, taskQueue`items
      ensures var p := Push(sourceOst, targetOst, old(caches.at[sourceOst][|caches.at[sourceOst]| - 1]));
        && Value() == Dispatch(old(Value()), p)
        && taskQueue.items == old(taskQueue.items) + [Filled(skeleton, p)]
    {
      var cache := caches.at[sourceOst];
      var item := cache[|cache| - 1];
      caches := caches.Put(sourceOst, cache[..|cache| - 1]);
      var task := NewTask(sourceOst, targetOst, item);
      var ok := taskQueue.Push(task, true);
      sourceStates := sourceStates.Put(sourceOst, BLOCKED);
      targetStates := targetStates.Put(targetOst, BLOCKED);
    }

    method NewTask(sourceOst: nat, targetOst: nat, item: Item) returns (task: Task)
      ensures task == Filled(skeleton, Push(sourceOst, targetOst, item))
    {
      var tid := TidOf(sourceOst, targetOst);
      task := skeleton.task.(tid := tid);
      if !skeleton.local {
        task := MigrateTask(tid, Migration(item.filename, Some(sourceOst), Some(targetOst),
                                           skeleton.directIo, skeleton.block, skeleton.skip));
      }
    }

    /** Drain the result queue; false stands for the exception that ends the generator. */
    method DrainResults() returns (ok: bool)
      requires resultQueue as object != this
      modifies this, resultQueue
      ensures ok <==> ReturnAll(old(Value()), old(resultQueue.items)).Ok?
      ensures ok ==> Ok(Value()) == ReturnAll(old(Value()), old(resultQueue.items)) && resultQueue.items == []
    {
      ghost var tids := resultQueue.items;
      ghost var n := 0;
      ok := true;
      while resultQueue.items != []
        invariant ok && n <= |tids| && resultQueue.items == tids[n..]
        invariant ReturnAll(old(Value()), tids[..n]) == Ok(Value())
        decreases |resultQueue.items|
      {
        ghost var s := Value();
        var tid := resultQueue.Pop();
        assert tids[..n + 1][..n] == tids[..n];
        n := n + 1;
        var pair := ParseTid(tid);
        ok := false;
        if pair.Ok? {
          var src := Release(sourceStates, pair.value.0);
          if src.Ok? {
            sourceStates := src.value;
            var tgt := Release(targetStates, pair.value.1);
            if tgt.Ok? {
              targetStates := tgt.value;
              ok := true;
            }
          }
        }
        if !ok {
          RaisedStays(old(Value()), tids, n);
          return;
        }
      }
      assert tids[..n] == tids;
    }

    /** _update_ost_source_state_dict and _update_ost_target_state_dict: a known OST turns by the
        current reading, and a new one is READY or LOCKED. */
    method UpdateState(role: Role, ost: nat) returns (ok: bool)
      modifies this`sourceStates, this`targetStates
      ensures role == AsTarget ==> sourceStates == old(sourceStates)
      ensures role == AsSource ==> targetStates == old(targetStates)
      ensures role == AsSource ==> (if ok then Ok(sourceStates) else Raised) == Update(old(sourceStates), role, th, levels, ost)
      ensures role == AsTarget ==> (if ok then Ok(targetStates) else Raised) == Update(old(targetStates), role, th, levels, ost)
      ensures ok <==> ost in levels
      ensures ok && role == AsSource ==> Reads(old(sourceStates), sourceStates, ost, levels[ost] > th.source)
      ensures ok && role == AsTarget ==> Reads(old(targetStates), targetStates, ost, levels[ost] < th.target)
    {
      if ost !in levels { return false; }
      var good := if role == AsSource then levels[ost] > th.source else levels[ost] < th.target;
      var d := if role == AsSource then sourceStates else targetStates;
      if good {
        if ost in d.at {
          if d.at[ost] == LOCKED {
            d := d.Put(ost, READY);
          } else {
            d := d.Put(ost, d.at[ost]);
          }
        } else {
          d := d.Put(ost, READY);
        }
      } else {
        if ost in d.at {
          if d.at[ost] == READY {
            d := d.Put(ost, LOCKED);
          } else if d.at[ost] == BLOCKED {
            d := d.Put(ost, PENDING_LOCK);
          } else {
            d := d.Put(ost, d.at[ost]);
          }
        } else {
          d := d.Put(ost, LOCKED);
        }
      }
      if role == AsSource { sourceStates := d; } else { targetStates := d; }
      ok := true;
    }

    /** The fill level update of the main loop, with the reading the file system gives. */
    method RefreshLevels(fill: Fill) returns (ok: bool)
      modifies this
      ensures ok <==> Refresh(old(Value()), th, fill).Ok?
      ensures ok ==> Ok(Value()) == Refresh(old(Value()), th, fill)
    {
      levels := fill;
      ok := UpdateStates(AsSource, sourceStates.order);
      if ok {
        ok := UpdateStates(AsTarget, targetStates.order);
      }
    }

    /** Update the state of each OST of the list. */
    method UpdateStates(role: Role, osts: seq<nat>) returns (ok: bool)
      modifies this`sourceStates, this`targetStates
      ensures role == AsTarget ==> sourceStates == old(sourceStates)
      ensures role == AsSource ==> targetStates == old(targetStates)
      ensures ok <==> UpdateAll(old(if role == AsSource then sourceStates else targetStates), role, th, levels, osts).Ok?
      ensures ok && role == AsSource ==> Ok(sourceStates) == UpdateAll(old(sourceStates), role, th, levels, osts)
      ensures ok && role == AsTarget ==> Ok(targetStates) == UpdateAll(old(targetStates), role, th, levels, osts)
    {
      ghost var d := if role == AsSource then sourceStates else targetStates;
      for i := 0 to |osts|
        invariant role == AsTarget ==> sourceStates == old(sourceStates)
        invariant role == AsSource ==> targetStates == old(targetStates)
        invariant UpdateAll(d, role, th, levels, osts[..i]) == Ok(if role == AsSource then sourceStates else targetStates)
      {
        assert osts[..i + 1][..i] == osts[..i];
        ok := UpdateState(role, osts[i]);
        if !ok {
          UpdateAllStops(d, role, th, levels, osts, i + 1);
          return;
        }
      }
      assert osts[..|osts|] == osts;
      ok := true;
    }

    /** _load_input_file: rejected lines change nothing. */
    method LoadInputFile(raws: seq<Option<string>>)
      modifies this`caches
      ensures caches == Load(old(caches), Classified(path, raws))
      ensures '\n' !in path ==>
        forall ost :: CacheOf(caches, ost) == CacheOf(old(caches), ost) + GivenBy(path, raws, ost)
    {
      ghost var before := caches;
      ghost var lines := Classified(path, raws);
      for i := 0 to |raws|
        invariant caches == Load(before, lines[..i])
      {
        assert lines[..i + 1][..i] == lines[..i] && lines[i] == Classify(path, raws[i]);
        LoadLine(raws[i]);
      }
      assert lines[..|lines|] == lines;
      if '\n' !in path {
        forall ost ensures CacheOf(caches, ost) == CacheOf(before, ost) + GivenBy(path, raws, ost) {
          LoadFileGives(before, path, raws, ost);
        }
      }
    }

    /** The body of the loop over the lines. */
    method LoadLine(raw: Option<string>)
      modifies this`caches
      ensures caches == match Classify(path, raw) case Bad => old(caches) case Entry(item) => AddEntry(old(caches), item)
    {
      if raw.None? { return; }
      if SEP in raw.value { return; }
      match Matched(path, raw.value) {
        case None =>
        case Some(item) =>
          if item.ost !in caches.at {
            caches := caches.Put(item.ost, []);
          }
          caches := caches.Put(item.ost, caches.at[item.ost] + [item]);
          assert [] + [item] == [item];
          assert caches == AddEntry(old(caches), item);
      }
    }

    /** _allocate_ost_caches */
    method AllocateCaches() returns (ok: bool)
      requires caches.WF()
      modifies this`sourceStates, this`targetStates, this`sourceKeys
      ensures targetStates == old(targetStates)
      ensures ok <==> Allocate(old(sourceStates), caches, th, levels, |caches.order|).Ok?
      ensures ok ==> Ok(sourceStates) == Allocate(old(sourceStates), caches, th, levels, |caches.order|)
      ensures ok ==> sourceKeys == sourceStates.order
    {
      ghost var d := sourceStates;
      for i := 0 to |caches.order|
        invariant Allocate(d, caches, th, levels, i) == Ok(sourceStates) && targetStates == old(targetStates)
      {
        var ost := caches.order[i];
        if caches.at[ost] != [] {
          if ost !in sourceStates.at {
            ok := UpdateState(AsSource, ost);
            if !ok {
              AllocateStops(d, caches, th, levels, i + 1, |caches.order|);
              return;
            }
          }
        }
      }
      sourceKeys := sourceStates.order;
      ok := true;
    }

    /** _process_input_files; without a file nothing is allocated. */
    method ProcessInput(files: seq<seq<Option<string>>>) returns (ok: bool)
      requires Valid()
      modifies this
      ensures ok <==> Processed(old(Value()), th, path, files).Ok?
      ensures ok ==> Ok(Value()) == Processed(old(Value()), th, path, files)
    {
      LoadWF(caches, AllLines(path, files));
      LoadFiles(files);
      ok := true;
      if |files| > 0 {
        ok := AllocateCaches();
      }
    }

    /** The loop over the files. */
    method LoadFiles(files: seq<seq<Option<string>>>)
      modifies this`caches
      ensures caches == Load(old(caches), AllLines(path, files))
      ensures '\n' !in path ==>
        forall ost :: CacheOf(caches, ost) == CacheOf(old(caches), ost) + GivenByAll(path, files, ost)
    {
      for i := 0 to |files|
        invariant caches == Load(old(caches), AllLines(path, files[..i]))
      {
        assert files[..i + 1][..i] == files[..i];
        LoadConcat(old(caches), AllLines(path, files[..i]), Classified(path, files[i]));
        LoadInputFile(files[i]);
      }
      assert files[..|files|] == files;
      if '\n' !in path {
        forall ost ensures CacheOf(caches, ost) == CacheOf(old(caches), ost) + GivenByAll(path, files, ost) {
          LoadGives(old(caches), path, files, ost);
        }
      }
    }

    /** _deallocate_empty_ost_caches */
    method DeallocateEmptyCaches()
      requires Valid()
      modifies this`caches, this`sourceStates, this`sourceKeys
      ensures Value() == Deallocate(old(Value()))
    {
      LegalLookups(Value());
      var empty := FindEmptyCaches();
      DropCaches(empty);
      sourceKeys := sourceStates.order;
    }

    method DropCaches(empty: seq<nat>)
      modifies this`caches, this`sourceStates
      ensures caches == DropAll(old(caches), empty) && sourceStates == DropAll(old(sourceStates), empty)
    {
      for i := 0 to |empty|
        invariant caches == DropAll(old(caches), empty[..i]) && sourceStates == DropAll(old(sourceStates), empty[..i])
      {
        assert empty[..i + 1][..i] == empty[..i];
        caches := caches.Drop(empty[i]);
        sourceStates := sourceStates.Drop(empty[i]);
      }
      assert empty[..|empty|] == empty;
    }

    method FindEmptyCaches() returns (empty: seq<nat>)
      requires forall o :: o in caches.order ==> o in caches.at && o in sourceStates.at
      ensures empty == FreeOsts(Value(), caches.order)
    {
      empty := [];
      for i := 0 to |caches.order|
        invariant empty == FreeOsts(Value(), caches.order[..i])
      {
        var ost := caches.order[i];
        assert caches.order[..i + 1][..i] == caches.order[..i];
        if |caches.at[ost]| == 0 {
          if sourceStates.at[ost] == READY || sourceStates.at[ost] == LOCKED {
            empty := empty + [ost];
          }
        }
      }
      assert caches.order[..|caches.order|] == caches.order;
    }
  }

  lemma {:induction false} UpdateAllStops(d: States, role: Role, th: Thresholds, fill: Fill, osts: seq<nat>, n: nat)
    requires n <= |osts| && UpdateAll(d, role, th, fill, osts[..n]).Raised?
    ensures UpdateAll(d, role, th, fill, osts).Raised?
  {
    if n < |osts| {
      assert osts[..|osts| - 1][..n] == osts[..n];
      UpdateAllStops(d, role, th, fill, osts[..|osts| - 1], n);
    } else {
      assert osts[..n] == osts;
    }
  }

  lemma {:induction false} AllocateStops(d: States, c: Caches, th: Thresholds, fill: Fill, n: nat, m: nat)
    requires c.WF() && n <= m <= |c.order| && Allocate(d, c, th, fill, n).Raised?
    ensures Allocate(d, c, th, fill, m).Raised?
  {
    if n < m { AllocateStops(d, c, th, fill, n, m - 1); }
  }
}
