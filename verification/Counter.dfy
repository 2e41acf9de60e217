/** How many targets one pass looks at. The program stops a pass when its counter equals the number
    of targets, but only between two sources, so that the counter can step over that number. */
module Counter {
  import opened Collections
  import opened Scheduler
  import opened Progress

  /** The counter at the end of the rounds from here on. */
  function Looked(s: Sched, checked: int): int
    decreases |s.keys| - s.nextSource
  {
    if Over(s, checked) then checked else Looked(Visit(s), checked + Checks(s))
  }

  function PassLooks(s: Sched): int { Looked(Rewind(s), 0) }

  /** From the start of the targets the counter follows the cursor, and meets the number. */
  lemma {:induction false} FollowsCursor(s: Sched, checked: nat)
    requires s.nextTarget == checked < |s.targets|
    ensures Looked(s, checked) <= |s.targets|
    decreases |s.keys| - s.nextSource
  {
    if !Over(s, checked) {
      var v := Visit(s);
      if checked + Checks(s) < |s.targets| {
        FollowsCursor(v, checked + Checks(s));
      } else {
        assert Over(v, checked + Checks(s));
      }
    }
  }

  /** Without a READY target a round changes the cursors only. */
  lemma IdleRound(s: Sched)
    requires s.nextSource < |s.keys| && s.nextTarget < |s.targets| && !TargetWaits(s)
    ensures var e := Eligible(s, s.keys[s.nextSource]);
      && Visit(s) == s.(nextSource := s.nextSource + 1, nextTarget := if e then 0 else s.nextTarget)
      && Checks(s) == if e then |s.targets| - s.nextTarget else 0
  {
    assert Scan(s.targets, s.target.at, s.nextTarget) == |s.targets|;
  }

  lemma Distribute(n: nat, k: nat)
    ensures n * (1 + k) == n + n * k
  {
  }

  /** Once the counter is neither zero nor the number it grows by a full search for every source. */
  lemma {:induction false} FullSearches(s: Sched, checked: int)
    requires s.nextTarget == 0 < |s.targets| && !TargetWaits(s)
    requires checked > 0 && checked != |s.targets|
    ensures Looked(s, checked) == checked + |s.targets| * Waiting(s, s.nextSource)
    decreases |s.keys| - s.nextSource
  {
    if s.nextSource < |s.keys| {
      var v := Visit(s);
      IdleRound(s);
      WaitingAnyCursor(s, v, v.nextSource);
      WaitsAnyCursor(s, v, 0);
      FullSearches(v, checked + Checks(s));
      Distribute(|s.targets|, Waiting(s, v.nextSource));
    }
  }

  /** With no READY target and the cursor behind the start, every waiting source costs a search. */
  lemma {:induction false} Searches(s: Sched)
    requires 0 < s.nextTarget < |s.targets| && !TargetWaits(s)
    ensures Looked(s, 0) ==
      if Waiting(s, s.nextSource) == 0 then 0 else |s.targets| * Waiting(s, s.nextSource) - s.nextTarget
    decreases |s.keys| - s.nextSource
  {
    if s.nextSource < |s.keys| {
      var v := Visit(s);
      IdleRound(s);
      WaitingAnyCursor(s, v, v.nextSource);
      WaitsAnyCursor(s, v, 0);
      if Eligible(s, s.keys[s.nextSource]) {
        FullSearches(v, Checks(s));
        Distribute(|s.targets|, Waiting(s, v.nextSource));
      } else {
        Searches(v);
      }
    }
  }

  // ---- the walk of the counter, over which targets are READY and how many sources wait

  function FirstTrue(ready: seq<bool>, from: nat): (k: nat)
    ensures k <= |ready|
    ensures from <= |ready| ==> from <= k
    ensures forall i :: from <= i < k ==> !ready[i]
    ensures k < |ready| ==> ready[k]
    decreases |ready| - from
  {
    if from >= |ready| then |ready| else if ready[from] then from else FirstTrue(ready, from + 1)
  }

  function Walk(ready: seq<bool>, m: nat, cursor: nat, checked: int): int
    decreases m
  {
    if m == 0 || checked == |ready| then checked
    else
      var j := FirstTrue(ready, cursor);
      if j == |ready| then Walk(ready, m - 1, 0, checked + j - cursor)
      else Walk(ready[j := false], m - 1, Wrap(j + 1, |ready|), checked + j + 1 - cursor)
  }

  function ReadyTargets(s: Sched): seq<bool> {
    seq(|s.targets|, i requires 0 <= i < |s.targets| => Ready(s.target.at, s.targets[i]))
  }

  lemma {:induction false} ScanIsFirst(s: Sched, j: nat)
    ensures Scan(s.targets, s.target.at, j) == FirstTrue(ReadyTargets(s), j)
    decreases |s.targets| - j
  {
    if j < |s.targets| && !Ready(s.target.at, s.targets[j]) { ScanIsFirst(s, j + 1); }
  }

  /** A push takes one target out of the READY ones. */
  lemma PushReady(s: Sched, s2: Sched, p: Push, j: nat)
    requires Distinct(s.targets) && j < |s.targets| && p.target == s.targets[j]
    requires s2.targets == s.targets && s2.target == Dispatch(s, p).target
    ensures ReadyTargets(s2) == ReadyTargets(s)[j := false]
  {
    forall i | 0 <= i < |s.targets| ensures ReadyTargets(s2)[i] == ReadyTargets(s)[j := false][i] {
      if i < j { assert s.targets[i] != s.targets[j]; }
      if j < i { assert s.targets[j] != s.targets[i]; }
    }
  }

  /** A push leaves the other sources as they are. */
  lemma {:induction false} PushWaiting(s: Sched, s2: Sched, p: Push, from: nat)
    requires s2.keys == s.keys && s2.source == Dispatch(s, p).source && s2.caches == Dispatch(s, p).caches
    requires forall k :: from <= k < |s.keys| ==> s.keys[k] != p.source
    ensures Waiting(s2, from) == Waiting(s, from)
    decreases |s.keys| - from
  {
    if from < |s.keys| {
      assert s.keys[from] != p.source;
      PushWaiting(s, s2, p, from + 1);
    }
  }

  lemma VisitWaits(s: Sched)
    requires s.nextSource < |s.keys| && Distinct(s.keys)
    ensures Waiting(Visit(s), s.nextSource + 1) == Waiting(s, s.nextSource + 1)
  {
    var v := Visit(s);
    match Choice(s) {
      case None => WaitingAnyCursor(s, v, s.nextSource + 1);
      case Some(p) => PushWaiting(s, v, p, s.nextSource + 1);
    }
  }

  lemma VisitReady(s: Sched)
    requires s.nextSource < |s.keys| && Distinct(s.targets)
    ensures ReadyTargets(Visit(s)) ==
      if Choice(s).Some? then ReadyTargets(s)[Scan(s.targets, s.target.at, s.nextTarget) := false] else ReadyTargets(s)
  {
    if Choice(s).Some? {
      PushReady(s, Visit(s), Choice(s).value, Scan(s.targets, s.target.at, s.nextTarget));
    }
  }

  /** What a round does to the cursor and the counter. */
  ghost predicate Turns(ready: seq<bool>, waits: bool, cursor: nat, cursor2: nat, more: int) {
    var j := FirstTrue(ready, cursor);
    if !waits then cursor2 == cursor && more == 0
    else if j == |ready| then cursor2 == 0 && more == j - cursor
    else cursor2 == Wrap(j + 1, |ready|) && more == j + 1 - cursor
  }

  lemma VisitTurns(s: Sched)
    requires s.nextSource < |s.keys|
    ensures Turns(ReadyTargets(s), Eligible(s, s.keys[s.nextSource]), s.nextTarget, Visit(s).nextTarget, Checks(s))
    ensures Choice(s).Some? <==>
      Eligible(s, s.keys[s.nextSource]) && FirstTrue(ReadyTargets(s), s.nextTarget) < |s.targets|
  {
    ScanIsFirst(s, s.nextTarget);
  }

  /** A round is a step of the walk, if its source waits. */
  lemma WalkOn(ready: seq<bool>, m: nat, cursor: nat, checked: int, waits: bool, ready2: seq<bool>, cursor2: nat, more: int)
    requires checked != |ready| && Turns(ready, waits, cursor, cursor2, more)
    requires var j := FirstTrue(ready, cursor); ready2 == if waits && j < |ready| then ready[j := false] else ready
    ensures Walk(ready, if waits then m + 1 else m, cursor, checked) == Walk(ready2, m, cursor2, checked + more)
  {
  }

  lemma UnfoldLooked(s: Sched, checked: int)
    requires !Over(s, checked)
    ensures Looked(s, checked) == Looked(Visit(s), checked + Checks(s))
  {
  }

  /** The counter of the rounds depends on these two things only. */
  lemma {:induction false} LookedIsWalk(s: Sched, checked: int)
    requires Distinct(s.keys) && Distinct(s.targets)
    ensures Looked(s, checked) == Walk(ReadyTargets(s), Waiting(s, s.nextSource), s.nextTarget, checked)
    decreases |s.keys| - s.nextSource
  {
    if !Over(s, checked) {
      var v, waits := Visit(s), Eligible(s, s.keys[s.nextSource]);
      ScanIsFirst(s, s.nextTarget);
      VisitWaits(s);
      VisitReady(s);
      VisitTurns(s);
      WalkOn(ReadyTargets(s), Waiting(v, v.nextSource), s.nextTarget, checked, waits,
             ReadyTargets(v), v.nextTarget, Checks(s));
      LookedIsWalk(v, checked + Checks(s));
      UnfoldLooked(s, checked);
    }
  }

  // ---- the two laps of a walk

  function CountIn(ready: seq<bool>, lo: nat, hi: nat): nat
    requires hi <= |ready|
    decreases hi - lo
  {
    if lo >= hi then 0 else (if ready[lo] then 1 else 0) + CountIn(ready, lo + 1, hi)
  }

  lemma {:induction false} CountFrame(a: seq<bool>, b: seq<bool>, lo: nat, hi: nat)
    requires hi <= |a| && hi <= |b| && forall k :: lo <= k < hi ==> a[k] == b[k]
    ensures CountIn(a, lo, hi) == CountIn(b, lo, hi)
    decreases hi - lo
  {
    if lo < hi { CountFrame(a, b, lo + 1, hi); }
  }

  lemma {:induction false} CountSkip(ready: seq<bool>, lo: nat, j: nat, hi: nat)
    requires lo <= j <= hi <= |ready| && forall k :: lo <= k < j ==> !ready[k]
    ensures CountIn(ready, lo, hi) == CountIn(ready, j, hi)
    decreases j - lo
  {
    if lo < j { CountSkip(ready, lo + 1, j, hi); }
  }

  lemma {:induction false} CountSplit(ready: seq<bool>, lo: nat, mid: nat, hi: nat)
    requires lo <= mid <= hi <= |ready|
    ensures CountIn(ready, lo, hi) == CountIn(ready, lo, mid) + CountIn(ready, mid, hi)
    decreases mid - lo
  {
    if lo < mid { CountSplit(ready, lo + 1, mid, hi); }
  }

  /** Taking the first READY target at or behind lo. */
  lemma CountTaken(ready: seq<bool>, lo: nat, j: nat, hi: nat)
    requires lo <= j < hi <= |ready| && ready[j] && forall k :: lo <= k < j ==> !ready[k]
    ensures CountIn(ready, lo, hi) == 1 + CountIn(ready[j := false], j + 1, hi)
  {
    CountSkip(ready, lo, j, hi);
    CountFrame(ready, ready[j := false], j + 1, hi);
  }

  lemma {:induction false} WalkGrows(ready: seq<bool>, m: nat, cursor: nat, checked: int)
    requires cursor <= |ready|
    ensures Walk(ready, m, cursor, checked) >= checked
    decreases m
  {
    if m > 0 && checked != |ready| {
      var j := FirstTrue(ready, cursor);
      if j == |ready| {
        WalkGrows(ready, m - 1, 0, checked + j - cursor);
      } else {
        WalkGrows(ready[j := false], m - 1, Wrap(j + 1, |ready|), checked + j + 1 - cursor);
      }
    }
  }

  /** After the wrap-around, on the way back to the cursor c the pass began with: it is met exactly
      if the target before it is READY; otherwise the sources must run out first. */
  lemma {:induction false} SecondLap(ready: seq<bool>, m: nat, p: nat, c: nat)
    requires p < c < |ready| && forall k :: c <= k < |ready| ==> !ready[k]
    ensures Walk(ready, m, p, |ready| - c + p) <= |ready| <==> ready[c - 1] || m <= CountIn(ready, p, c)
    decreases m
  {
    if m > 0 {
      var j := FirstTrue(ready, p);
      if j == |ready| {
        CountSkip(ready, p, c, c);
        WalkGrows(ready, m - 1, 0, |ready| - c + j);
      } else {
        CountTaken(ready, p, j, c);
        if j < c - 1 { SecondLap(ready[j := false], m - 1, j + 1, c); }
      }
    }
  }

  /** From the cursor c the pass began with to the end of the list. */
  lemma {:induction false} FirstLap(ready: seq<bool>, m: nat, q: nat, c: nat)
    requires 0 < c <= q < |ready| && forall k :: c <= k < q ==> !ready[k]
    ensures Walk(ready, m, q, q - c) <= |ready| <==>
      || ready[c - 1]
      || m <= CountIn(ready, q, |ready|) + CountIn(ready, 0, c) + if ready[|ready| - 1] then 0 else 1
    decreases m
  {
    if m > 0 {
      var j := FirstTrue(ready, q);
      if j == |ready| {
        CountSkip(ready, q, j, j);
        SecondLap(ready, m - 1, 0, c);
      } else {
        var rest := ready[j := false];
        CountTaken(ready, q, j, |ready|);
        CountFrame(ready, rest, 0, c);
        if j < |ready| - 1 { FirstLap(rest, m - 1, j + 1, c); } else { SecondLap(rest, m - 1, 0, c); }
      }
    }
  }

  lemma WalkIff(ready: seq<bool>, m: nat, c: nat)
    requires 0 < c < |ready|
    ensures Walk(ready, m, c, 0) <= |ready| <==>
      ready[c - 1] || m <= CountIn(ready, 0, |ready|) + if ready[|ready| - 1] then 0 else 1
  {
    FirstLap(ready, m, c, c);
    CountSplit(ready, 0, c, |ready|);
  }

  /** How many targets are READY. */
  function ReadyCount(s: Sched): nat { CountIn(ReadyTargets(s), 0, |s.targets|) }

  /** The same for a walk that stands for rounds with this counter. */
  lemma WalkedIff(ready: seq<bool>, m: nat, c: nat, looked: int)
    requires 0 < c < |ready| && looked == Walk(ready, m, c, 0)
    ensures looked <= |ready| <==>
      ready[c - 1] || m <= CountIn(ready, 0, |ready|) + if ready[|ready| - 1] then 0 else 1
  {
    WalkIff(ready, m, c);
  }

  lemma LooksBehindStart(s: Sched, ready: seq<bool>, m: nat, count: nat, looked: int)
    requires Distinct(s.keys) && Distinct(s.targets) && 0 < s.nextTarget < |s.targets|
    requires ready == ReadyTargets(s) && m == Waiting(s, s.nextSource) && count == ReadyCount(s) && looked == Looked(s, 0)
    ensures looked <= |ready| <==> ready[s.nextTarget - 1] || m <= count + if ready[|ready| - 1] then 0 else 1
  {
    LookedIsWalk(s, 0);
    WalkedIff(ready, m, s.nextTarget, looked);
  }

  /** How many sources wait from where the pass begins. */
  function PassWaiting(s: Sched): nat { Waiting(Rewind(s), Rewind(s).nextSource) }

  lemma PassBehindStart(s: Sched)
    requires Distinct(s.keys) && Distinct(s.targets) && 0 < s.nextTarget < |s.targets|
    ensures PassLooks(s) <= |s.targets| <==>
      || Ready(s.target.at, s.targets[s.nextTarget - 1])
      || PassWaiting(s) <= ReadyCount(s) + if Ready(s.target.at, s.targets[|s.targets| - 1]) then 0 else 1
  {
    var r := Rewind(s);
    assert ReadyTargets(r) == ReadyTargets(s);
    LooksBehindStart(r, ReadyTargets(s), PassWaiting(s), ReadyCount(s), PassLooks(s));
  }

  lemma PassFromStart(s: Sched)
    requires s.nextTarget == 0
    ensures PassLooks(s) <= |s.targets|
  {
    if s.targets != [] { FollowsCursor(Rewind(s), 0); }
  }

  /** A pass looks at no more targets than there are exactly when it starts with the target cursor
      at the start of the list, or right behind a READY target, or when no more sources wait than
      targets are READY, with one more allowed if the last target is not READY. */
  lemma LooksOnceIff(s: Sched)
    requires Legal(s)
    ensures PassLooks(s) <= |s.targets| <==>
      || s.nextTarget == 0
      || Ready(s.target.at, s.targets[s.nextTarget - 1])
      || PassWaiting(s) <= ReadyCount(s) + if Ready(s.target.at, s.targets[|s.targets| - 1]) then 0 else 1
  {
    if s.nextTarget == 0 { PassFromStart(s); } else { PassBehindStart(s); }
  }
}
