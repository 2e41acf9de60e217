/** The migration generator's bookkeeping as values: the OST states, the file caches, the two
    cursors, and what one pass, one returned task, one fill level refresh, one input file and one
    clean-up do to them. The class in Generator.dfy is proved to compute these functions. */
module Scheduler {
  import opened Collections

  datatype OstState = READY | LOCKED | BLOCKED | PENDING_LOCK

  datatype Item = Item(ost: nat, filename: string)

  /** An input line: rejected (separator, no match, undecodable) or an accepted entry. */
  datatype Line = Bad | Entry(item: Item)

  datatype Push = Push(source: nat, target: nat, item: Item)

  datatype Thresholds = Thresholds(source: int, target: int)

  type States = Dict<nat, OstState>
  type Caches = Dict<nat, seq<Item>>
  type Fill = map<nat, int>

  datatype Sched = Sched(
    keys: seq<nat>,        // source_ost_key_list
    targets: seq<nat>,     // target_ost_key_list
    caches: Caches,        // ost_cache_dict
    source: States,        // ost_source_state_dict
    target: States,        // ost_target_state_dict
    fill: Fill,            // ost_fill_level_dict
    nextSource: nat,
    nextTarget: nat)

  predicate Busy(s: OstState) { s == BLOCKED || s == PENDING_LOCK }

  /** The invariant under which no dictionary lookup of the generator misses. */
  ghost predicate Legal(s: Sched) {
    && s.source.WF() && s.target.WF() && s.caches.WF()
    && s.keys == s.source.order && s.caches.order == s.source.order
    && s.targets == s.target.order
    && (if s.targets == [] then s.nextTarget == 0 else s.nextTarget < |s.targets|)
  }

  // ---- the matching pass

  predicate Ready(state: map<nat, OstState>, ost: nat) { ost in state && state[ost] == READY }

  /** The first READY target at or after j, or the end of the list. */
  function Scan(targets: seq<nat>, state: map<nat, OstState>, j: nat): (k: nat)
    ensures k <= |targets|
    ensures j <= |targets| ==> j <= k
    ensures forall i :: j <= i < k ==> !Ready(state, targets[i])
    ensures k < |targets| ==> Ready(state, targets[k])
    decreases |targets| - j
  {
    if j >= |targets| then |targets|
    else if Ready(state, targets[j]) then j
    else Scan(targets, state, j + 1)
  }

  /** Python's wrap-around of the target cursor. */
  function Wrap(j: nat, n: nat): nat { if j == n then 0 else j }

  predicate Eligible(s: Sched, ost: nat) {
    Ready(s.source.at, ost) && ost in s.caches.at && s.caches.at[ost] != []
  }

  /** Take the last file of the source's cache and block both OSTs. */
  function Dispatch(s: Sched, p: Push): Sched {
    var cache := if p.source in s.caches.at then s.caches.at[p.source] else [];
    s.(caches := s.caches.Put(p.source, if cache == [] then [] else cache[..|cache| - 1]),
       source := s.source.Put(p.source, BLOCKED),
       target := s.target.Put(p.target, BLOCKED))
  }

  /** The push a round makes, if it makes one. */
  function Choice(s: Sched): Option<Push>
    requires s.nextSource < |s.keys|
  {
    var ost := s.keys[s.nextSource];
    var j := Scan(s.targets, s.target.at, s.nextTarget);
    if !Eligible(s, ost) || j == |s.targets| then None
    else Some(Push(ost, s.targets[j], s.caches.at[ost][|s.caches.at[ost]| - 1]))
  }

  /** One round of the outer loop: look at the next source and, if it is READY and has files,
      look for a target from the target cursor on. */
  function Visit(s: Sched): (s2: Sched)
    requires s.nextSource < |s.keys|
    ensures s2.keys == s.keys && s2.targets == s.targets && s2.nextSource == s.nextSource + 1
  {
    var j := Scan(s.targets, s.target.at, s.nextTarget);
    var cursor := if j == |s.targets| then 0 else Wrap(j + 1, |s.targets|);
    var s1 := if Eligible(s, s.keys[s.nextSource]) then s.(nextTarget := cursor) else s;
    var s2 := s1.(nextSource := s.nextSource + 1);
    match Choice(s) case None => s2 case Some(p) => Dispatch(s2, p)
  }

  /** How many targets a round looks at. */
  function Checks(s: Sched): int
    requires s.nextSource < |s.keys|
  {
    var j := Scan(s.targets, s.target.at, s.nextTarget);
    if !Eligible(s, s.keys[s.nextSource]) then 0
    else if j == |s.targets| then j - s.nextTarget
    else j + 1 - s.nextTarget
  }

  predicate Over(s: Sched, checked: int) {
    s.nextSource >= |s.keys| || checked == |s.targets|
  }

  /** The pushes of the rounds from here on, and the state after them. */
  function Pushes(s: Sched, checked: int): seq<Push>
    decreases |s.keys| - s.nextSource
  {
    if Over(s, checked) then []
    else (match Choice(s) case None => [] case Some(p) => [p]) + Pushes(Visit(s), checked + Checks(s))
  }

  function After(s: Sched, checked: int): Sched
    decreases |s.keys| - s.nextSource
  {
    if Over(s, checked) then s else After(Visit(s), checked + Checks(s))
  }

  function Rewind(s: Sched): Sched {
    if s.nextSource >= |s.keys| then s.(nextSource := 0) else s
  }

  /** One pass of the main loop: its pushes and the state after it. */
  function PassPushes(s: Sched): seq<Push> { Pushes(Rewind(s), 0) }
  function Pass(s: Sched): Sched { After(Rewind(s), 0) }

  // ---- state changes outside the pass

  /** _update_ost_state_dict without an operator: a task came back. */
  function Release(d: States, ost: nat): Result<States> {
    if ost !in d.at || !Busy(d.at[ost]) then Raised
    else Ok(d.Put(ost, if d.at[ost] == BLOCKED then READY else LOCKED))
  }

  function Return(s: Sched, source: nat, target: nat): Result<Sched> {
    match Release(s.source, source)
    case Raised => Raised
    case Ok(src) =>
      match Release(s.target, target)
      case Raised => Raised
      case Ok(tgt) => Ok(s.(source := src, target := tgt))
  }

  function Judge(state: Option<OstState>, good: bool): OstState {
    if good then
      if state.None? || state.value == LOCKED then READY else state.value
    else
      if state.None? || state.value == READY then LOCKED
      else if state.value == BLOCKED then PENDING_LOCK
      else state.value
  }

  function Get(d: States, ost: nat): Option<OstState> {
    if ost in d.at then Some(d.at[ost]) else None
  }

  /** Which comparison a dictionary is updated with. */
  datatype Role = AsSource | AsTarget

  predicate Passes(role: Role, th: Thresholds, level: int) {
    if role == AsSource then level > th.source else level < th.target
  }

  /** _update_ost_state_dict with an operator. */
  function Update(d: States, role: Role, th: Thresholds, fill: Fill, ost: nat): Result<States> {
    if ost !in fill then Raised
    else Ok(d.Put(ost, Judge(Get(d, ost), Passes(role, th, fill[ost]))))
  }

  /** Updating the OSTs of a list, one after the other. */
  function UpdateAll(d: States, role: Role, th: Thresholds, fill: Fill, osts: seq<nat>): Result<States> {
    if osts == [] then Ok(d)
    else match UpdateAll(d, role, th, fill, osts[..|osts| - 1])
      case Raised => Raised
      case Ok(d1) => Update(d1, role, th, fill, osts[|osts| - 1])
  }

  function Refresh(s: Sched, th: Thresholds, fill: Fill): Result<Sched> {
    match UpdateAll(s.source, AsSource, th, fill, s.source.order)
    case Raised => Raised
    case Ok(src) =>
      match UpdateAll(s.target, AsTarget, th, fill, s.target.order)
      case Raised => Raised
      case Ok(tgt) => Ok(s.(source := src, target := tgt, fill := fill))
  }

  // ---- input files

  function AddEntry(caches: Caches, item: Item): Caches {
    caches.Put(item.ost, (if item.ost in caches.at then caches.at[item.ost] else []) + [item])
  }

  function Load(caches: Caches, lines: seq<Line>): Caches {
    if lines == [] then caches
    else
      var c := Load(caches, lines[..|lines| - 1]);
      match lines[|lines| - 1] case Bad => c case Entry(item) => AddEntry(c, item)
  }

  /** _allocate_ost_caches over the first n caches. */
  function Allocate(source: States, caches: Caches, th: Thresholds, fill: Fill, n: nat): Result<States>
    requires n <= |caches.order|
    requires caches.WF()
  {
    if n == 0 then Ok(source)
    else match Allocate(source, caches, th, fill, n - 1)
      case Raised => Raised
      case Ok(d) =>
        var ost := caches.order[n - 1];
        if caches.at[ost] != [] && ost !in d.at then Update(d, AsSource, th, fill, ost) else Ok(d)
  }

  /** _process_input_files with at least one input file. */
  function Process(s: Sched, th: Thresholds, lines: seq<Line>): Result<Sched>
    requires s.caches.WF()
  {
    LoadWF(s.caches, lines);
    var caches := Load(s.caches, lines);
    match Allocate(s.source, caches, th, s.fill, |caches.order|)
    case Raised => Raised
    case Ok(src) => Ok(s.(caches := caches, source := src, keys := src.order))
  }

  lemma {:induction false} LoadWF(caches: Caches, lines: seq<Line>)
    requires caches.WF()
    ensures Load(caches, lines).WF()
  {
    if lines != [] { LoadWF(caches, lines[..|lines| - 1]); }
  }

  // ---- clean-up

  predicate Free(s: Sched, ost: nat)
    requires ost in s.caches.at && ost in s.source.at
  {
    s.caches.at[ost] == [] && !Busy(s.source.at[ost])
  }

  /** The OSTs of a list whose cache is empty and whose state is READY or LOCKED. */
  function FreeOsts(s: Sched, osts: seq<nat>): seq<nat>
    requires forall o :: o in osts ==> o in s.caches.at && o in s.source.at
  {
    if osts == [] then []
    else
      var init := FreeOsts(s, osts[..|osts| - 1]);
      var last := osts[|osts| - 1];
      if Free(s, last) then init + [last] else init
  }

  function DropAll<V>(d: Dict<nat, V>, osts: seq<nat>): Dict<nat, V> {
    if osts == [] then d else DropAll(d, osts[..|osts| - 1]).Drop(osts[|osts| - 1])
  }

  /** _deallocate_empty_ost_caches */
  function Deallocate(s: Sched): Sched
    requires Legal(s)
  {
    var free := FreeOsts(s, s.caches.order);
    var src := DropAll(s.source, free);
    s.(caches := DropAll(s.caches, free), source := src, keys := src.order)
  }
}
