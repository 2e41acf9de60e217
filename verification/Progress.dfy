/** How long the matching pass can go without pushing a task. */
module Progress {
  import opened Collections
  import opened Scheduler
  import opened SchedulerLaws

  /** A source that is READY and has a file. */
  ghost predicate Waits(s: Sched, o: nat) {
    o in s.source.at && s.source.at[o] == READY && o in s.caches.at && |s.caches.at[o]| > 0
  }

  ghost predicate HasRoom(s: Sched, t: nat) { t in s.target.at && s.target.at[t] == READY }

  ghost predicate SourceWaits(s: Sched, from: nat) {
    exists i :: from <= i < |s.keys| && Waits(s, s.keys[i])
  }

  ghost predicate TargetWaits(s: Sched) {
    exists j :: 0 <= j < |s.targets| && HasRoom(s, s.targets[j])
  }

  /** How many listed sources wait for a target, from an index on. */
  function Waiting(s: Sched, from: nat): nat
    decreases |s.keys| - from
  {
    if from >= |s.keys| then 0 else (if Eligible(s, s.keys[from]) then 1 else 0) + Waiting(s, from + 1)
  }

  lemma {:induction false} WaitingIs(s: Sched, from: nat)
    ensures SourceWaits(s, from) <==> Waiting(s, from) > 0
    decreases |s.keys| - from
  {
    if from < |s.keys| { WaitingIs(s, from + 1); }
  }

  /** b differs from a in the cursors only. */
  ghost predicate SameButCursors(a: Sched, b: Sched) {
    b == a.(nextSource := b.nextSource, nextTarget := b.nextTarget)
  }

  lemma WaitsAnyCursor(a: Sched, b: Sched, from: nat)
    requires SameButCursors(a, b)
    ensures SourceWaits(a, from) <==> SourceWaits(b, from)
    ensures TargetWaits(a) <==> TargetWaits(b)
  {
    assert forall o :: Eligible(a, o) <==> Eligible(b, o);
  }

  lemma {:induction false} WaitingAnyCursor(a: Sched, b: Sched, from: nat)
    requires SameButCursors(a, b)
    ensures Waiting(a, from) == Waiting(b, from)
    decreases |a.keys| - from
  {
    if from < |a.keys| { WaitingAnyCursor(a, b, from + 1); }
  }

  /** Rounds without a push change the cursors only. */
  lemma {:induction false} QuietRounds(s: Sched, checked: int)
    requires Pushes(s, checked) == []
    ensures SameButCursors(s, After(s, checked))
    decreases |s.keys| - s.nextSource
  {
    if !Over(s, checked) {
      QuietRounds(Visit(s), checked + Checks(s));
    }
  }

  /** i is the first waiting source from the source cursor on. */
  ghost predicate IsNext(s: Sched, i: nat) {
    && s.nextSource <= i < |s.keys| && Eligible(s, s.keys[i])
    && forall k :: s.nextSource <= k < i ==> !Eligible(s, s.keys[k])
  }

  lemma FirstRoom(s: Sched)
    requires TargetWaits(s)
    ensures Scan(s.targets, s.target.at, 0) < |s.targets|
  {
    var j :| 0 <= j < |s.targets| && HasRoom(s, s.targets[j]);
    assert Ready(s.target.at, s.targets[j]);
  }

  /** The push of a waiting source that gets the first READY target. */
  ghost predicate GetsFirst(s: Sched, source: nat, p: Push) {
    var j := Scan(s.targets, s.target.at, 0);
    && j < |s.targets| && p.source == source && p.target == s.targets[j]
    && Waits(s, source) && p.item == s.caches.at[source][|s.caches.at[source]| - 1]
  }

  lemma PushesHere(s: Sched, checked: int)
    requires s.nextTarget == 0 && !Over(s, checked) && Waits(s, s.keys[s.nextSource]) && TargetWaits(s)
    ensures Choice(s).Some? && GetsFirst(s, s.keys[s.nextSource], Choice(s).value)
    ensures Pushes(s, checked) != [] && Pushes(s, checked)[0] == Choice(s).value
  {
    FirstRoom(s);
  }

  lemma PushesLater(s: Sched, checked: int)
    requires !Over(s, checked) && !Eligible(s, s.keys[s.nextSource])
    ensures Visit(s) == s.(nextSource := s.nextSource + 1) && Checks(s) == 0
    ensures Pushes(s, checked) == Pushes(Visit(s), checked)
  {
  }

  /** With the target cursor at the start, the next waiting source gets the first READY target. */
  lemma {:induction false} PushesFromStart(s: Sched, checked: int, i: nat)
    requires s.nextTarget == 0 && checked != |s.targets|
    requires IsNext(s, i) && TargetWaits(s)
    ensures Pushes(s, checked) != [] && GetsFirst(s, s.keys[i], Pushes(s, checked)[0])
    decreases |s.keys| - s.nextSource
  {
    if s.nextSource == i {
      PushesHere(s, checked);
    } else {
      var v := Visit(s);
      PushesLater(s, checked);
      WaitsAnyCursor(s, v, s.nextSource + 1);
      assert IsNext(v, i);
      PushesFromStart(v, checked, i);
    }
  }

  lemma {:induction false} FirstWaiting(s: Sched, from: nat) returns (i: nat)
    requires SourceWaits(s, from)
    ensures from <= i < |s.keys| && Eligible(s, s.keys[i]) && forall k :: from <= k < i ==> !Eligible(s, s.keys[k])
    decreases |s.keys| - from
  {
    if Eligible(s, s.keys[from]) { i := from; } else { i := FirstWaiting(s, from + 1); }
  }

  lemma SomePush(s: Sched, checked: int)
    requires s.nextTarget == 0 && checked != |s.targets|
    requires SourceWaits(s, s.nextSource) && TargetWaits(s)
    ensures Pushes(s, checked) != []
  {
    var i := FirstWaiting(s, s.nextSource);
    PushesFromStart(s, checked, i);
  }

  /** Without a waiting source ahead the rounds run to the end of the list. */
  lemma {:induction false} RunsToEnd(s: Sched, checked: int)
    requires s.nextSource <= |s.keys| && checked != |s.targets|
    requires !SourceWaits(s, s.nextSource)
    ensures After(s, checked) == s.(nextSource := |s.keys|) && Pushes(s, checked) == []
    decreases |s.keys| - s.nextSource
  {
    if s.nextSource < |s.keys| {
      WaitsAnyCursor(s, Visit(s), s.nextSource + 1);
      RunsToEnd(Visit(s), checked + Checks(s));
    }
  }

  /** A quiet pass runs to the end of the sources, and brings the target cursor back to the start
      if it met a waiting source. */
  lemma {:induction false} QuietPass(s: Sched)
    requires s.nextSource <= |s.keys| && s.nextTarget < |s.targets| && TargetWaits(s)
    requires Pushes(s, 0) == []
    ensures After(s, 0).nextSource == |s.keys|
    ensures SourceWaits(s, s.nextSource) ==> After(s, 0).nextTarget == 0
    ensures !SourceWaits(s, s.nextSource) ==> After(s, 0).nextTarget == s.nextTarget
    decreases |s.keys| - s.nextSource
  {
    if !SourceWaits(s, s.nextSource) {
      RunsToEnd(s, 0);
    } else {
      var v := Visit(s);
      WaitsAnyCursor(s, v, s.nextSource + 1);
      if !Eligible(s, s.keys[s.nextSource]) {
        QuietPass(v);
      } else {
        if s.nextTarget == 0 { SomePush(s, 0); }
        if SourceWaits(v, v.nextSource) { SomePush(v, Checks(s)); }
        RunsToEnd(v, Checks(s));
      }
    }
  }

  /** If some listed source is READY with files and some target is READY, and nothing else
      happens, then three passes push a task, from any cursor positions. */
  lemma ThreePassesPush(s: Sched)
    requires Legal(s) && SourceWaits(s, 0) && TargetWaits(s)
    ensures PassPushes(s) != [] || PassPushes(Pass(s)) != [] || PassPushes(Pass(Pass(s))) != []
  {
    if PassPushes(s) == [] {
      var s1 := Pass(s);
      OneQuietPass(s);
      if PassPushes(s1) == [] {
        OneQuietPass(s1);
        var s2 := Rewind(Pass(s1));
        SomePush(s2, 0);
      }
    }
  }

  lemma OneQuietPass(s: Sched)
    requires SourceWaits(s, 0) && TargetWaits(s) && s.nextTarget < |s.targets|
    requires PassPushes(s) == []
    ensures var s1 := Pass(s);
      && SameButCursors(s, s1) && SourceWaits(s1, 0) && TargetWaits(s1)
      && s1.nextSource == |s.keys| && s1.nextTarget < |s.targets|
      && (s.nextSource >= |s.keys| ==> s1.nextTarget == 0)
      && (s.nextSource >= |s.keys| ==> SourceWaits(Rewind(s1), 0) && TargetWaits(Rewind(s1)))
  {
    var r := Rewind(s);
    WaitsAnyCursor(s, r, 0);
    WaitsAnyCursor(s, r, r.nextSource);
    QuietRounds(r, 0);
    QuietPass(r);
    WaitsAnyCursor(r, Pass(s), 0);
    WaitsAnyCursor(r, Rewind(Pass(s)), 0);
  }

  /** When the rounds from here on push nothing although some target is READY: no source ahead
      waits, or one does and no target from the cursor on is READY. */
  lemma {:induction false} QuietIff(s: Sched)
    requires s.nextTarget < |s.targets| && TargetWaits(s)
    ensures Pushes(s, 0) == [] <==>
      || Waiting(s, s.nextSource) == 0
      || (Waiting(s, s.nextSource) == 1 && Scan(s.targets, s.target.at, s.nextTarget) == |s.targets|)
    decreases |s.keys| - s.nextSource
  {
    if s.nextSource < |s.keys| {
      var v := Visit(s);
      if !Eligible(s, s.keys[s.nextSource]) {
        QuietSkip(s, v);
        QuietIff(v);
      } else if Scan(s.targets, s.target.at, s.nextTarget) == |s.targets| {
        WaitingAnyCursor(s, v, v.nextSource);
        WaitingIs(v, v.nextSource);
        WaitsAnyCursor(s, v, 0);
        if SourceWaits(v, v.nextSource) { SomePush(v, Checks(s)); } else { RunsToEnd(v, Checks(s)); }
      }
    }
  }

  lemma QuietSkip(s: Sched, v: Sched)
    requires s.nextSource < |s.keys| && v == Visit(s) && !Eligible(s, s.keys[s.nextSource])
    ensures v == s.(nextSource := s.nextSource + 1) && Checks(s) == 0 && Choice(s) == None
    ensures Waiting(v, v.nextSource) == Waiting(s, s.nextSource)
    ensures TargetWaits(s) ==> TargetWaits(v)
  {
    WaitingAnyCursor(s, v, v.nextSource);
    WaitsAnyCursor(s, v, 0);
  }

  /** Two passes push nothing, although a source and a target wait, exactly when the source cursor
      is inside the list and behind the only waiting source, and the target cursor is behind all
      READY targets. */
  lemma TwoQuietPassesIff(s: Sched)
    requires Legal(s) && SourceWaits(s, 0) && TargetWaits(s)
    ensures PassPushes(s) == [] && PassPushes(Pass(s)) == [] <==>
      && 1 <= s.nextSource < |s.keys| && !SourceWaits(s, s.nextSource) && Waiting(s, 0) == 1
      && Scan(s.targets, s.target.at, s.nextTarget) == |s.targets|
  {
    if PassPushes(s) == [] {
      OneQuietPass(s);
      if s.nextSource >= |s.keys| {
        SomePush(Rewind(Pass(s)), 0);
      } else {
        SecondPass(s);
      }
    } else if s.nextSource < |s.keys| {
      QuietIff(s);
      WaitingIs(s, s.nextSource);
    }
  }

  lemma SecondPass(s: Sched)
    requires Legal(s) && SourceWaits(s, 0) && TargetWaits(s) && s.nextSource < |s.keys| && PassPushes(s) == []
    ensures PassPushes(Pass(s)) == [] <==>
      !SourceWaits(s, s.nextSource) && Waiting(s, 0) == 1 && Scan(s.targets, s.target.at, s.nextTarget) == |s.targets|
  {
    OneQuietPass(s);
    QuietPass(s);
    var r := Rewind(Pass(s));
    WaitsAnyCursor(s, r, 0);
    WaitingAnyCursor(s, r, 0);
    QuietIff(r);
    WaitingIs(s, 0);
  }
}
