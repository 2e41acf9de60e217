/** Input files: loading, allocating and freeing caches keeps the dictionaries in step, and no
    file is lost or duplicated. */
module FileLaws {
  import opened Collections
  import opened Scheduler
  import opened SchedulerLaws

  // ---- the entries in the caches

  ghost function Gather(order: seq<nat>, at: map<nat, seq<Item>>): multiset<Item>
    requires forall o :: o in order ==> o in at
  {
    if order == [] then multiset{} else multiset(at[order[0]]) + Gather(order[1..], at)
  }

  /** All entries in the caches. */
  ghost function Cached(c: Caches): multiset<Item>
    requires c.WF()
  {
    Gather(c.order, c.at)
  }

  ghost function Entries(lines: seq<Line>): multiset<Item> {
    if lines == [] then multiset{}
    else Entries(lines[..|lines| - 1]) + (match lines[|lines| - 1] case Bad => multiset{} case Entry(e) => multiset{e})
  }

  lemma {:induction false} GatherFrame(order: seq<nat>, at1: map<nat, seq<Item>>, at2: map<nat, seq<Item>>)
    requires forall o :: o in order ==> o in at1 && o in at2 && at1[o] == at2[o]
    ensures Gather(order, at1) == Gather(order, at2)
  {
    if order != [] { GatherFrame(order[1..], at1, at2); }
  }

  lemma {:induction false} GatherAppend(order: seq<nat>, at: map<nat, seq<Item>>, o: nat)
    requires o in at && forall k :: k in order ==> k in at
    ensures Gather(order + [o], at) == Gather(order, at) + multiset(at[o])
  {
    if order == [] {
      assert [o][1..] == [];
    } else {
      GatherAppend(order[1..], at, o);
      assert (order + [o])[1..] == order[1..] + [o];
    }
  }

  lemma Exchange<T>(a: multiset<T>, b: multiset<T>, x: multiset<T>, y: multiset<T>, z: multiset<T>)
    requires a + x == b + y
    ensures (z + a) + x == (z + b) + y
  {
    forall k ensures ((z + a) + x)[k] == ((z + b) + y)[k] { assert (a + x)[k] == (b + y)[k]; }
  }

  lemma {:induction false} GatherPut(order: seq<nat>, at: map<nat, seq<Item>>, o: nat, cache: seq<Item>)
    requires Distinct(order) && o in order && forall k :: k in order ==> k in at
    ensures Gather(order, at[o := cache]) + multiset(at[o]) == Gather(order, at) + multiset(cache)
  {
    DistinctTail(order);
    if order[0] == o {
      GatherFrame(order[1..], at, at[o := cache]);
    } else {
      GatherPut(order[1..], at, o, cache);
      Exchange(Gather(order[1..], at[o := cache]), Gather(order[1..], at), multiset(at[o]), multiset(cache),
               multiset(at[order[0]]));
    }
  }

  lemma CachedPut(c: Caches, o: nat, cache: seq<Item>)
    requires c.WF()
    ensures Cached(c.Put(o, cache)) + multiset(if o in c.at then c.at[o] else []) == Cached(c) + multiset(cache)
  {
    if o in c.at {
      GatherPut(c.order, c.at, o, cache);
    } else {
      GatherFrame(c.order, c.at, c.at[o := cache]);
      GatherAppend(c.order, c.at[o := cache], o);
    }
  }

  /** A dispatch takes exactly the pushed entry out of the caches. */
  lemma DispatchConserves(s: Sched, p: Push)
    requires s.caches.WF() && Dispatchable(s, p)
    ensures Cached(Dispatch(s, p).caches) + multiset{p.item} == Cached(s.caches)
  {
    var cache := s.caches.at[p.source];
    var rest := cache[..|cache| - 1];
    CachedPut(s.caches, p.source, rest);
    assert cache == rest + [p.item];
    Cancel(Cached(Dispatch(s, p).caches) + multiset{p.item}, Cached(s.caches), multiset(rest));
  }

  lemma Cancel<T>(a: multiset<T>, b: multiset<T>, m: multiset<T>)
    requires a + m == b + m
    ensures a == b
  {
    forall x ensures a[x] == b[x] { assert (a + m)[x] == (b + m)[x]; }
  }

  lemma AddConserves(c: Caches, e: Item)
    requires c.WF()
    ensures AddEntry(c, e).WF() && Cached(AddEntry(c, e)) == Cached(c) + multiset{e}
  {
    var cache := if e.ost in c.at then c.at[e.ost] else [];
    CachedPut(c, e.ost, cache + [e]);
    assert multiset(cache + [e]) == multiset(cache) + multiset{e};
    Cancel(Cached(AddEntry(c, e)), Cached(c) + multiset{e}, multiset(cache));
  }

  /** Loading adds exactly the accepted entries. */
  lemma {:induction false} LoadConserves(c: Caches, lines: seq<Line>)
    requires c.WF()
    ensures Load(c, lines).WF()
    ensures Cached(Load(c, lines)) == Cached(c) + Entries(lines)
  {
    if lines != [] {
      LoadConserves(c, lines[..|lines| - 1]);
      match lines[|lines| - 1] {
        case Bad =>
        case Entry(e) => AddConserves(Load(c, lines[..|lines| - 1]), e);
      }
    }
  }

  // ---- loading and allocating

  /** c2 extends c1: old caches keep their entries in place, new caches are not empty. */
  ghost predicate Extends(c1: Caches, c2: Caches) {
    && c1.order <= c2.order
    && (forall o :: o in c1.at ==> o in c2.at && c1.at[o] <= c2.at[o])
    && (forall o :: o in c2.at && o !in c1.at ==> c2.at[o] != [])
  }

  lemma AddExtends(c0: Caches, c: Caches, e: Item)
    requires Extends(c0, c)
    ensures Extends(c0, AddEntry(c, e))
    ensures Filed(c) ==> Filed(AddEntry(c, e))
  {
    var d := AddEntry(c, e);
    assert c.order <= d.order;
    assert forall o :: o in c.at && o != e.ost ==> d.at[o] == c.at[o];
    var cache := if e.ost in c.at then c.at[e.ost] else [];
    assert d.at[e.ost] == cache + [e];
    assert forall x :: x in cache + [e] ==> x in cache || x == e;
  }

  lemma {:induction false} LoadExtends(c: Caches, lines: seq<Line>)
    requires c.WF()
    ensures Extends(c, Load(c, lines))
    ensures Filed(c) ==> Filed(Load(c, lines))
  {
    if lines != [] {
      var init := lines[..|lines| - 1];
      LoadExtends(c, init);
      if lines[|lines| - 1].Entry? { AddExtends(c, Load(c, init), lines[|lines| - 1].item); }
    }
  }

  function Larger(a: nat, b: nat): nat { if a < b then b else a }

  /** The state dictionary after allocating the first n caches: old states as they were, and the
      new OSTs judged for the first time, in the order of the caches. */
  ghost predicate Allocated(d: States, r: States, c: Caches, th: Thresholds, fill: Fill, n: nat) {
    && |d.order| <= |c.order| && n <= |c.order|
    && r.WF() && r.order == c.order[..Larger(|d.order|, n)]
    && FirstJudged(d, r, th, fill)
  }

  ghost predicate FirstJudged(d: States, r: States, th: Thresholds, fill: Fill) {
    && (forall o :: o in d.at ==> o in r.at && r.at[o] == d.at[o])
    && (forall o :: o in r.at && o !in d.at ==> o in fill && r.at[o] == Judge(None, Passes(AsSource, th, fill[o])))
  }

  /** A cache beyond those allocated so far has no state yet. */
  lemma NextIsNew(d: States, r: States, c: Caches, th: Thresholds, fill: Fill, n: nat)
    requires c.WF() && n < |c.order| && |d.order| <= n && Allocated(d, r, c, th, fill, n)
    ensures c.order[n] !in r.at && c.order[n] !in d.at
    ensures c.order[..n + 1] == c.order[..n] + [c.order[n]]
  {
    assert forall i :: 0 <= i < n ==> c.order[i] != c.order[n];
    assert c.order[n] !in r.order;
  }

  /** A new OST is judged for the first time, and comes last. */
  lemma AllocateNew(d: States, r: States, c: Caches, th: Thresholds, fill: Fill, n: nat)
    requires c.WF() && n < |c.order| && |d.order| <= n && Allocated(d, r, c, th, fill, n)
    requires c.order[n] !in r.at && c.order[n] !in d.at && c.order[n] in fill
    ensures Allocated(d, Update(r, AsSource, th, fill, c.order[n]).value, c, th, fill, n + 1)
  {
    assert c.order[..n + 1] == c.order[..n] + [c.order[n]];
  }

  lemma AllocateOld(d: States, r: States, c: Caches, th: Thresholds, fill: Fill, n: nat)
    requires d.order <= c.order && n < |d.order| && Allocated(d, r, c, th, fill, n)
    ensures c.order[n] in r.at && Allocated(d, r, c, th, fill, n + 1)
  {
    assert c.order[n] == d.order[n];
    assert c.order[..|d.order|][n] == c.order[n];
    assert c.order[n] in r.order;
  }

  lemma AllocateUnfold(d: States, c: Caches, th: Thresholds, fill: Fill, n: nat, r: States)
    requires c.WF() && 0 < n <= |c.order| && Allocate(d, c, th, fill, n - 1) == Ok(r)
    ensures var ost := c.order[n - 1];
      Allocate(d, c, th, fill, n) == if c.at[ost] != [] && ost !in r.at then Update(r, AsSource, th, fill, ost) else Ok(r)
  {
  }

  /** Every new source among the first n caches has a reading. */
  ghost predicate Readable(d: States, c: Caches, fill: Fill, n: nat) {
    n <= |c.order| && forall i :: |d.order| <= i < n ==> c.order[i] in fill
  }

  lemma ReadableMore(d: States, c: Caches, fill: Fill, n: nat)
    requires n < |c.order|
    ensures Readable(d, c, fill, n + 1) <==> Readable(d, c, fill, n) && (n < |d.order| || c.order[n] in fill)
  {
  }

  lemma AllocateNone(d: States, c: Caches, th: Thresholds, fill: Fill)
    requires d.WF() && d.order <= c.order
    ensures Allocated(d, d, c, th, fill, 0) && Readable(d, c, fill, 0)
  {
    assert c.order[..|d.order|] == d.order;
  }

  /** One more allocated cache. */
  lemma AllocateOne(d: States, r: States, c: Caches, th: Thresholds, fill: Fill, n: nat) returns (more: Result<States>)
    requires d.order <= c.order && c.WF() && n < |c.order|
    requires forall o :: o in c.at && o !in d.at ==> c.at[o] != []
    requires Allocate(d, c, th, fill, n) == Ok(r) && Allocated(d, r, c, th, fill, n)
    ensures more == Allocate(d, c, th, fill, n + 1)
    ensures more.Ok? <==> n < |d.order| || c.order[n] in fill
    ensures more.Ok? ==> Allocated(d, more.value, c, th, fill, n + 1)
  {
    if n < |d.order| {
      AllocateOld(d, r, c, th, fill, n);
      AllocateUnfold(d, c, th, fill, n + 1, r);
      more := Ok(r);
    } else {
      more := AllocateNext(d, r, c, th, fill, n);
    }
  }

  lemma AllocateNext(d: States, r: States, c: Caches, th: Thresholds, fill: Fill, n: nat) returns (more: Result<States>)
    requires c.WF() && |d.order| <= n < |c.order|
    requires forall o :: o in c.at && o !in d.at ==> c.at[o] != []
    requires Allocate(d, c, th, fill, n) == Ok(r) && Allocated(d, r, c, th, fill, n)
    ensures more == Allocate(d, c, th, fill, n + 1)
    ensures more.Ok? <==> c.order[n] in fill
    ensures more.Ok? ==> Allocated(d, more.value, c, th, fill, n + 1)
  {
    NextIsNew(d, r, c, th, fill, n);
    AllocateUnfold(d, c, th, fill, n + 1, r);
    more := Update(r, AsSource, th, fill, c.order[n]);
    if c.order[n] in fill { AllocateNew(d, r, c, th, fill, n); }
  }

  lemma AllocateRaised(d: States, c: Caches, th: Thresholds, fill: Fill, n: nat)
    requires c.WF() && n < |c.order| && Allocate(d, c, th, fill, n) == Raised
    ensures Allocate(d, c, th, fill, n + 1) == Raised
  {
  }

  lemma {:induction false} AllocateAll(d: States, c: Caches, th: Thresholds, fill: Fill, n: nat) returns (r: Result<States>)
    requires d.WF() && c.WF() && d.order <= c.order && n <= |c.order|
    requires forall o :: o in c.at && o !in d.at ==> c.at[o] != []
    ensures r == Allocate(d, c, th, fill, n)
    ensures r.Ok? <==> Readable(d, c, fill, n)
    ensures r.Ok? ==> Allocated(d, r.value, c, th, fill, n)
  {
    if n == 0 {
      AllocateNone(d, c, th, fill);
      r := Ok(d);
    } else {
      var before := AllocateAll(d, c, th, fill, n - 1);
      ReadableMore(d, c, fill, n - 1);
      if before.Ok? {
        r := AllocateOne(d, before.value, c, th, fill, n - 1);
      } else {
        AllocateRaised(d, c, th, fill, n - 1);
        r := Raised;
      }
    }
  }

  /** Every source that loading adds lies behind the old end of the order. */
  lemma NewSources(d: States, c: Caches)
    requires d.WF() && c.WF() && d.order <= c.order
    ensures forall o :: o in c.at && o !in d.at ==> exists i :: |d.order| <= i < |c.order| && c.order[i] == o
  {
    forall o | o in c.at && o !in d.at ensures exists i :: |d.order| <= i < |c.order| && c.order[i] == o {
      var i :| 0 <= i < |c.order| && c.order[i] == o;
    }
  }

  lemma OldSources(d: States, c: Caches)
    requires d.WF() && c.WF() && d.order <= c.order
    ensures forall i :: |d.order| <= i < |c.order| ==> c.order[i] !in d.at
  {
    forall i | |d.order| <= i < |c.order| ensures c.order[i] !in d.order {
      assert forall j :: 0 <= j < |d.order| ==> d.order[j] == c.order[j] != c.order[i];
    }
  }

  lemma FirstJudgedFits(d: States, r: States, th: Thresholds, fill: Fill, named: set<nat>)
    requires FirstJudged(d, r, th, fill) && Fits(d, AsSource, th, fill) && Tracked(d, named)
    ensures Fits(r, AsSource, th, fill) && Tracked(r, named)
  {
    assert forall o :: o in r.at && o !in d.at ==> r.at[o] == READY || r.at[o] == LOCKED;
  }

  lemma AllocatedFits(d: States, r: States, c: Caches, th: Thresholds, fill: Fill, named: set<nat>)
    requires d.WF() && c.WF() && d.order <= c.order && Allocated(d, r, c, th, fill, |c.order|)
    requires Fits(d, AsSource, th, fill) && Tracked(d, named)
    ensures r.order == c.order && Fits(r, AsSource, th, fill) && Tracked(r, named)
  {
    assert r.order == c.order[..|c.order|];
    FirstJudgedFits(d, r, th, fill, named);
  }

  /** Known sources keep their state; a new one is READY if it is too full and LOCKED if it is not. */
  ghost predicate NewAreRead(d: States, r: States, th: Thresholds, fill: Fill) {
    && (forall o :: o in d.at ==> o in r.at && r.at[o] == d.at[o])
    && (forall o :: o in r.at && o !in d.at ==> o in fill && r.at[o] == if fill[o] > th.source then READY else LOCKED)
  }

  lemma FirstReads(d: States, r: States, th: Thresholds, fill: Fill)
    requires FirstJudged(d, r, th, fill)
    ensures NewAreRead(d, r, th, fill)
  {
  }

  /** The state dictionary after loading and allocating. */
  lemma AllocateSound(d: States, c: Caches, th: Thresholds, fill: Fill, named: set<nat>)
    requires d.WF() && c.WF() && d.order <= c.order
    requires forall o :: o in c.at && o !in d.at ==> c.at[o] != []
    requires Fits(d, AsSource, th, fill) && Tracked(d, named)
    ensures Allocate(d, c, th, fill, |c.order|).Ok? <==> forall o :: o in c.at && o !in d.at ==> o in fill
    ensures Allocate(d, c, th, fill, |c.order|).Ok? ==>
      var r := Allocate(d, c, th, fill, |c.order|).value;
      && r.WF() && r.order == c.order && Fits(r, AsSource, th, fill) && Tracked(r, named)
      && NewAreRead(d, r, th, fill)
  {
    var r := AllocateAll(d, c, th, fill, |c.order|);
    NewSources(d, c);
    OldSources(d, c);
    if r.Ok? {
      AllocatedFits(d, r.value, c, th, fill, named);
      FirstReads(d, r.value, th, fill);
    }
  }

  /** Processing input raises exactly when a new source has no fill level reading. Otherwise all
      entries are filed in their own OST's cache, old caches only grow at the end, the index
      agrees again and no state of a known OST changes. */
  lemma ProcessSound(s: Sched, th: Thresholds, flight: Flight, lines: seq<Line>)
    requires Sound(s, th, flight)
    ensures Process(s, th, lines).Ok? <==>
      forall o :: o in Load(s.caches, lines).at && o !in s.source.at ==> o in s.fill
    ensures Process(s, th, lines).Ok? ==>
      var r := Process(s, th, lines).value;
      && Sound(r, th, flight) && Extends(s.caches, r.caches)
      && Cached(r.caches) == Cached(s.caches) + Entries(lines)
      && NewAreRead(s.source, r.source, th, s.fill)
      && r == s.(caches := r.caches, source := r.source, keys := r.source.order)
  {
    LoadConserves(s.caches, lines);
    LoadExtends(s.caches, lines);
    AllocateSound(s.source, Load(s.caches, lines), th, s.fill, Sources(flight));
  }

  // ---- freeing caches

  lemma {:induction false} FreeOstsAre(s: Sched, osts: seq<nat>)
    requires Distinct(osts) && forall o :: o in osts ==> o in s.caches.at && o in s.source.at
    ensures Distinct(FreeOsts(s, osts))
    ensures forall o :: o in FreeOsts(s, osts) <==>
      o in osts && s.caches.at[o] == [] && (s.source.at[o] == READY || s.source.at[o] == LOCKED)
  {
    if osts != [] {
      var init, last := osts[..|osts| - 1], osts[|osts| - 1];
      assert osts == init + [last];
      FreeOstsAre(s, init);
    }
  }

  /** What is left of a dictionary after dropping a list of keys. */
  lemma {:induction false} DropAllLeaves<V>(d: Dict<nat, V>, osts: seq<nat>)
    requires d.WF()
    ensures DropAll(d, osts).WF()
    ensures forall o :: o in DropAll(d, osts).at <==> o in d.at && o !in osts
    ensures forall o :: o in DropAll(d, osts).at ==> DropAll(d, osts).at[o] == d.at[o]
  {
    if osts != [] {
      var init, last := osts[..|osts| - 1], osts[|osts| - 1];
      assert osts == init + [last];
      DropAllLeaves(d, init);
      DropAll(d, init).DropWF(last);
    }
  }

  /** Two dictionaries with the same order keep the same order. */
  lemma {:induction false} DropAllOrder<V, W>(d: Dict<nat, V>, e: Dict<nat, W>, osts: seq<nat>)
    requires d.order == e.order
    ensures DropAll(d, osts).order == DropAll(e, osts).order
  {
    if osts != [] { DropAllOrder(d, e, osts[..|osts| - 1]); }
  }

  lemma {:induction false} GatherWithout(order: seq<nat>, at: map<nat, seq<Item>>, o: nat)
    requires forall k :: k in order ==> k in at
    requires o in order ==> at[o] == []
    ensures Gather(Without(order, o), at) == Gather(order, at)
  {
    if order != [] && order[0] != o {
      GatherWithout(order[1..], at, o);
      assert ([order[0]] + Without(order[1..], o))[1..] == Without(order[1..], o);
    }
  }

  lemma {:induction false} DropAllConserves(c: Caches, osts: seq<nat>)
    requires c.WF() && forall o :: o in osts && o in c.at ==> c.at[o] == []
    ensures DropAll(c, osts).WF() && Cached(DropAll(c, osts)) == Cached(c)
  {
    DropAllLeaves(c, osts);
    if osts != [] {
      var init, last := osts[..|osts| - 1], osts[|osts| - 1];
      assert osts == init + [last];
      DropAllConserves(c, init);
      DropAllLeaves(c, init);
      var d := DropAll(c, init);
      GatherWithout(d.order, d.at, last);
      GatherFrame(d.Drop(last).order, d.at, d.Drop(last).at);
    }
  }

  /** The keys of an order that are still there, in that order. */
  function Remaining(order: seq<nat>, keys: set<nat>): seq<nat> {
    if order == [] then []
    else (if order[0] in keys then [order[0]] else []) + Remaining(order[1..], keys)
  }

  lemma {:induction false} RemainingAll(order: seq<nat>, keys: set<nat>)
    requires forall o :: o in order ==> o in keys
    ensures Remaining(order, keys) == order
  {
    if order != [] { RemainingAll(order[1..], keys); }
  }

  lemma {:induction false} RemainingTwice(order: seq<nat>, more: set<nat>, keys: set<nat>)
    requires keys <= more
    ensures Remaining(Remaining(order, more), keys) == Remaining(order, keys)
  {
    if order != [] {
      RemainingTwice(order[1..], more, keys);
      if order[0] in more {
        assert Remaining(order, more)[1..] == Remaining(order[1..], more);
      } else {
        assert Remaining(order, more) == Remaining(order[1..], more);
      }
    }
  }

  lemma {:induction false} WithoutRemains(order: seq<nat>, x: nat, keys: set<nat>)
    requires Distinct(order) && x !in keys && forall o :: o in order && o != x ==> o in keys
    ensures Without(order, x) == Remaining(order, keys)
  {
    if order != [] {
      DistinctTail(order);
      if order[0] == x { RemainingAll(order[1..], keys); } else { WithoutRemains(order[1..], x, keys); }
    }
  }

  lemma {:induction false} DropAllRemains<V>(d: Dict<nat, V>, osts: seq<nat>)
    requires d.WF()
    ensures DropAll(d, osts).order == Remaining(d.order, DropAll(d, osts).at.Keys)
  {
    if osts == [] {
      RemainingAll(d.order, d.at.Keys);
    } else {
      var init, last := osts[..|osts| - 1], osts[|osts| - 1];
      var e := DropAll(d, init);
      DropAllRemains(d, init);
      DropAllLeaves(d, init);
      WithoutRemains(e.order, last, e.at.Keys - {last});
      RemainingTwice(d.order, e.at.Keys, e.at.Keys - {last});
      assert DropAll(d, osts).at.Keys == e.at.Keys - {last};
    }
  }

  /** d2 is d without the keys of `gone`, the others as they were and in the same order. */
  ghost predicate LeftOver<V>(d: Dict<nat, V>, d2: Dict<nat, V>, gone: iset<nat>) {
    && (forall o :: o in d2.at <==> o in d.at && o !in gone)
    && (forall o :: o in d2.at ==> d2.at[o] == d.at[o])
    && d2.order == Remaining(d.order, d2.at.Keys)
  }

  lemma DropAllLeftOver<V>(d: Dict<nat, V>, osts: seq<nat>, gone: iset<nat>)
    requires d.WF() && forall o :: o in osts <==> o in d.at && o in gone
    ensures LeftOver(d, DropAll(d, osts), gone)
  {
    DropAllLeaves(d, osts);
    DropAllRemains(d, osts);
  }

  /** The OSTs that the clean-up frees: without a file, and READY or LOCKED. */
  ghost function Idle(s: Sched): iset<nat> {
    iset o: nat | o in s.caches.at && s.caches.at[o] == [] && o in s.source.at
      && (s.source.at[o] == READY || s.source.at[o] == LOCKED)
  }

  lemma FreeIsIdle(s: Sched)
    requires Legal(s)
    ensures var free := FreeOsts(s, s.caches.order);
      && (forall o :: o in free <==> o in s.caches.at && o in Idle(s))
      && (forall o :: o in free <==> o in s.source.at && o in Idle(s))
  {
    FreeOstsAre(s, s.caches.order);
  }

  /** The clean-up frees exactly the idle OSTs and leaves everything else as it was. */
  lemma DeallocateExact(s: Sched)
    requires Legal(s)
    ensures var r := Deallocate(s);
      && LeftOver(s.caches, r.caches, Idle(s)) && LeftOver(s.source, r.source, Idle(s))
      && r == s.(caches := r.caches, source := r.source, keys := r.source.order)
  {
    FreeIsIdle(s);
    var free := FreeOsts(s, s.caches.order);
    DropAllLeftOver(s.caches, free, Idle(s));
    DropAllLeftOver(s.source, free, Idle(s));
  }

  lemma DeallocateKeeps(s: Sched, th: Thresholds, flight: Flight)
    requires Sound(s, th, flight)
    ensures Sound(Deallocate(s), th, flight) && Cached(Deallocate(s).caches) == Cached(s.caches)
  {
    var free := FreeOsts(s, s.caches.order);
    FreeOstsAre(s, s.caches.order);
    DropAllLeaves(s.caches, free);
    DropAllLeaves(s.source, free);
    DropAllOrder(s.caches, s.source, free);
    DropAllConserves(s.caches, free);
  }

  /** With the states tracking the tasks in flight, idle means without a file and without a task. */
  lemma IdleIs(s: Sched, th: Thresholds, flight: Flight, o: nat)
    requires Sound(s, th, flight) && o in s.source.at
    ensures o in s.caches.at && (o in Idle(s) <==> s.caches.at[o] == [] && o !in Sources(flight))
  {
    assert o in s.source.order;
  }

  /** An OST is freed exactly if it has no file and no task in flight; every other keeps its state, its
      cache and its place, nothing else changes, no entry is lost and the index agrees again. */
  lemma DeallocateSound(s: Sched, th: Thresholds, flight: Flight)
    requires Sound(s, th, flight)
    ensures Sound(Deallocate(s), th, flight)
    ensures Cached(Deallocate(s).caches) == Cached(s.caches)
    ensures forall o :: o in s.source.at ==>
      o in s.caches.at && (o !in Deallocate(s).source.at <==> s.caches.at[o] == [] && o !in Sources(flight))
    ensures LeftOver(s.caches, Deallocate(s).caches, Idle(s)) && LeftOver(s.source, Deallocate(s).source, Idle(s))
    ensures var r := Deallocate(s); r == s.(caches := r.caches, source := r.source, keys := r.source.order)
  {
    DeallocateKeeps(s, th, flight);
    DeallocateExact(s);
    forall o | o in s.source.at
      ensures o in s.caches.at && (o !in Deallocate(s).source.at <==> s.caches.at[o] == [] && o !in Sources(flight))
    {
      IdleIs(s, th, flight, o);
    }
  }
}
