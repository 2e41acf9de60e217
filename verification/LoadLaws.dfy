/** What loading the input files does to the cache of each OST. */
module LoadLaws {
  import opened Collections
  import opened Scheduler
  import opened InputLines

  /** The entries cached for an OST. */
  function CacheOf(c: Caches, ost: nat): seq<Item> { if ost in c.at then c.at[ost] else [] }

  function EntryFor(line: Line, ost: nat): seq<Item> {
    match line case Bad => [] case Entry(item) => if item.ost == ost then [item] else []
  }

  function EntriesFor(lines: seq<Line>, ost: nat): seq<Item> {
    if lines == [] then [] else EntryFor(lines[0], ost) + EntriesFor(lines[1..], ost)
  }

  lemma Regroup<T>(x: seq<T>, y: seq<T>, z: seq<T>)
    ensures x + (y + z) == (x + y) + z
  {
  }

  lemma EntriesCons(line: Line, rest: seq<Line>, ost: nat)
    ensures EntriesFor([line] + rest, ost) == EntryFor(line, ost) + EntriesFor(rest, ost)
  {
    assert ([line] + rest)[1..] == rest;
  }

  lemma {:induction false} EntriesConcat(a: seq<Line>, b: seq<Line>, ost: nat)
    ensures EntriesFor(a + b, ost) == EntriesFor(a, ost) + EntriesFor(b, ost)
  {
    if a == [] {
      assert a + b == b;
    } else {
      var rest := a[1..];
      EntriesConcat(rest, b, ost);
      EntriesCons(a[0], rest + b, ost);
      EntriesCons(a[0], rest, ost);
      assert a == [a[0]] + rest && a + b == [a[0]] + (rest + b);
      Regroup(EntryFor(a[0], ost), EntriesFor(rest, ost), EntriesFor(b, ost));
    }
  }

  lemma EntriesOne(line: Line, ost: nat)
    ensures EntriesFor([line], ost) == EntryFor(line, ost)
  {
    assert [line][1..] == [];
  }

  lemma LoadOne(c: Caches, line: Line, ost: nat)
    ensures var d := match line case Bad => c case Entry(item) => AddEntry(c, item);
      && CacheOf(d, ost) == CacheOf(c, ost) + EntryFor(line, ost)
      && (ost in d.at <==> ost in c.at || EntryFor(line, ost) != [])
  {
  }

  lemma {:induction false} LoadEntries(c: Caches, lines: seq<Line>, ost: nat)
    ensures CacheOf(Load(c, lines), ost) == CacheOf(c, ost) + EntriesFor(lines, ost)
    ensures ost in Load(c, lines).at <==> ost in c.at || EntriesFor(lines, ost) != []
  {
    if lines != [] {
      var init, last := lines[..|lines| - 1], lines[|lines| - 1];
      assert lines == init + [last];
      LoadEntries(c, init, ost);
      LoadOne(Load(c, init), last, ost);
      EntriesConcat(init, [last], ost);
      EntriesOne(last, ost);
    }
  }

  lemma {:induction false} ClassifiedGive(path: string, raws: seq<Option<string>>, ost: nat)
    requires '\n' !in path
    ensures EntriesFor(Classified(path, raws), ost) == GivenBy(path, raws, ost)
  {
    if raws != [] {
      ClassifiedGive(path, raws[1..], ost);
      assert Classified(path, raws)[1..] == Classified(path, raws[1..]);
      ClassifyGives(path, raws[0], ost);
    }
  }

  lemma ClassifyGives(path: string, raw: Option<string>, ost: nat)
    requires '\n' !in path
    ensures (exists name :: Gives(path, raw, ost, name)) <==> EntryFor(Classify(path, raw), ost) != []
    ensures forall name :: Gives(path, raw, ost, name) ==> EntryFor(Classify(path, raw), ost) == [Item(ost, name)]
  {
    forall name | Gives(path, raw, ost, name) ensures EntryFor(Classify(path, raw), ost) == [Item(ost, name)] {
      AcceptedIff(path, raw, Item(ost, name));
    }
    if EntryFor(Classify(path, raw), ost) != [] { AcceptedIff(path, raw, EntryFor(Classify(path, raw), ost)[0]); }
  }

  lemma GivenCons(path: string, file: seq<Option<string>>, rest: seq<seq<Option<string>>>, ost: nat)
    ensures GivenByAll(path, [file] + rest, ost) == GivenBy(path, file, ost) + GivenByAll(path, rest, ost)
  {
    assert ([file] + rest)[1..] == rest;
  }

  lemma {:induction false} GivenSnoc(path: string, files: seq<seq<Option<string>>>, file: seq<Option<string>>, ost: nat)
    ensures GivenByAll(path, files + [file], ost) == GivenByAll(path, files, ost) + GivenBy(path, file, ost)
  {
    if files == [] {
      GivenCons(path, file, [], ost);
      assert files + [file] == [file] + [];
    } else {
      var rest := files[1..];
      GivenSnoc(path, rest, file, ost);
      GivenCons(path, files[0], rest + [file], ost);
      GivenCons(path, files[0], rest, ost);
      assert files == [files[0]] + rest && files + [file] == [files[0]] + (rest + [file]);
      Regroup(GivenBy(path, files[0], ost), GivenByAll(path, rest, ost), GivenBy(path, file, ost));
    }
  }

  lemma {:induction false} AllLinesGive(path: string, files: seq<seq<Option<string>>>, ost: nat)
    requires '\n' !in path
    ensures EntriesFor(AllLines(path, files), ost) == GivenByAll(path, files, ost)
  {
    if files != [] {
      var init, last := files[..|files| - 1], files[|files| - 1];
      assert files == init + [last];
      AllLinesGive(path, init, ost);
      ClassifiedGive(path, last, ost);
      EntriesConcat(AllLines(path, init), Classified(path, last), ost);
      GivenSnoc(path, init, last, ost);
    }
  }

  /** Loading files appends to the cache of each OST exactly the names that their lines give it, in the
      order of files and lines, and opens a cache for an OST exactly if a line gives it a name. */
  lemma LoadGives(c: Caches, path: string, files: seq<seq<Option<string>>>, ost: nat)
    requires '\n' !in path
    ensures CacheOf(Load(c, AllLines(path, files)), ost) == CacheOf(c, ost) + GivenByAll(path, files, ost)
    ensures ost in Load(c, AllLines(path, files)).at <==> ost in c.at || GivenByAll(path, files, ost) != []
  {
    LoadEntries(c, AllLines(path, files), ost);
    AllLinesGive(path, files, ost);
  }

  /** The same for one file. */
  lemma LoadFileGives(c: Caches, path: string, raws: seq<Option<string>>, ost: nat)
    requires '\n' !in path
    ensures CacheOf(Load(c, Classified(path, raws)), ost) == CacheOf(c, ost) + GivenBy(path, raws, ost)
    ensures ost in Load(c, Classified(path, raws)).at <==> ost in c.at || GivenBy(path, raws, ost) != []
  {
    LoadEntries(c, Classified(path, raws), ost);
    ClassifiedGive(path, raws, ost);
  }
}
