/** The lines of the input files: which of them the migration generator accepts, and as what. */
module InputLines {
  import opened Collections
  import opened Decimal
  import opened Scheduler
  import opened Wire

  /** How many digits a text begins with. */
  function Lead(text: string): (n: nat)
    ensures n <= |text|
  {
    if text == "" || !IsDigit(text[0]) then 0 else 1 + Lead(text[1..])
  }

  /** The text without the newline at its end, if there is one. */
  function Chomp(text: string): string {
    if text != "" && text[|text| - 1] == '\n' then text[..|text| - 1] else text
  }

  /** The pattern of the generator: digits, a space, and a name that begins with the path of the
      file system and holds no newline behind it. */
  function Matched(path: string, text: string): Option<Item> {
    var n := Lead(text);
    if n == 0 || n == |text| || text[n] != ' ' then None
    else
      var name := Chomp(text[n + 1..]);
      match Digits(text[..n])
      case Ok(ost) => if path <= name && '\n' !in name[|path|..] then Some(Item(ost, name)) else None
      case Raised => None
  }

  /** What becomes of a line; None is one that cannot be decoded. */
  function Classify(path: string, raw: Option<string>): Line {
    if raw.None? || SEP in raw.value then Bad
    else match Matched(path, raw.value) case None => Bad case Some(item) => Entry(item)
  }

  function Classified(path: string, raws: seq<Option<string>>): seq<Line> {
    seq(|raws|, i requires 0 <= i < |raws| => Classify(path, raws[i]))
  }

  /** The lines of all files, in order. */
  function AllLines(path: string, files: seq<seq<Option<string>>>): seq<Line> {
    if files == [] then [] else AllLines(path, files[..|files| - 1]) + Classified(path, files[|files| - 1])
  }

  ghost predicate PlainEntries(lines: seq<Line>) { forall e :: Entry(e) in lines ==> Plain(e.filename) }

  /** No accepted name holds the separator. */
  lemma {:induction false} AcceptedArePlain(path: string, files: seq<seq<Option<string>>>)
    ensures PlainEntries(AllLines(path, files))
  {
    if files != [] { AcceptedArePlain(path, files[..|files| - 1]); }
  }

  lemma {:induction false} LeadOf(digits: string, rest: string)
    requires (forall c :: c in digits ==> IsDigit(c)) && rest != "" && !IsDigit(rest[0])
    ensures Lead(digits + rest) == |digits|
  {
    if digits == "" {
      assert digits + rest == rest;
    } else {
      LeadOf(digits[1..], rest);
      assert (digits + rest)[1..] == digits[1..] + rest;
    }
  }

  lemma ChompOf(name: string, end: string)
    requires '\n' !in name && (end == "" || end == "\n")
    ensures Chomp(name + end) == name
  {
    if end == "" { assert name + end == name; }
  }

  lemma LineParts(digits: string, tail: string)
    requires forall c :: c in digits ==> IsDigit(c)
    ensures var text := digits + " " + tail; var n := |digits|;
      && Lead(text) == n && text[..n] == digits && text[n] == ' ' && text[n + 1..] == tail
      && (SEP in text <==> SEP in tail)
  {
    var text := digits + " " + tail;
    assert text == digits + (" " + tail);
    LeadOf(digits, " " + tail);
    assert text[|digits| + 1..] == tail;
    assert forall c :: c in digits ==> c != SEP;
    assert forall c :: c in text <==> c in digits || c == ' ' || c in tail;
  }

  lemma MatchedParts(path: string, text: string, n: nat, ost: nat, name: string)
    requires Lead(text) == n && 0 < n < |text| && text[n] == ' '
    requires Digits(text[..n]) == Ok(ost) && Chomp(text[n + 1..]) == name && '\n' !in name
    ensures Matched(path, text) == if path <= name then Some(Item(ost, name)) else None
  {
  }

  // ---- exactly the accepted lines

  /** The text is a number written with these digits, one space, the name, and perhaps a newline. */
  ghost predicate Spells(text: string, digits: string, ost: nat, name: string, end: string) {
    && text == digits + " " + (name + end)
    && digits != "" && (forall c :: c in digits ==> '0' <= c <= '9') && Digits(digits) == Ok(ost)
    && '\n' !in name && (end == "" || end == "\n")
  }

  /** A line that can be decoded gives the OST a name of the file system, without a separator. */
  ghost predicate Gives(path: string, raw: Option<string>, ost: nat, name: string) {
    && raw.Some? && '|' !in raw.value && path <= name
    && exists digits, end :: Spells(raw.value, digits, ost, name, end)
  }

  lemma {:induction false} LeadDigits(text: string)
    ensures forall i :: 0 <= i < Lead(text) ==> IsDigit(text[i])
  {
    if Lead(text) > 0 { LeadDigits(text[1..]); }
  }

  lemma SpelledIsMatched(path: string, text: string, digits: string, ost: nat, name: string, end: string)
    requires Spells(text, digits, ost, name, end)
    ensures Matched(path, text) == if path <= name then Some(Item(ost, name)) else None
  {
    LineParts(digits, name + end);
    ChompOf(name, end);
    MatchedParts(path, text, |digits|, ost, name);
  }

  lemma NoNewline(path: string, name: string)
    requires '\n' !in path && path <= name && '\n' !in name[|path|..]
    ensures '\n' !in name
  {
    forall i | 0 <= i < |name| ensures name[i] != '\n' {
      if i < |path| { assert name[i] == path[i]; } else { assert name[i] == name[|path|..][i - |path|]; }
    }
  }

  lemma ChompParts(tail: string) returns (end: string)
    ensures tail == Chomp(tail) + end && (end == "" || end == "\n")
  {
    end := tail[|Chomp(tail)|..];
  }

  lemma SpaceParts(text: string, n: nat, rest: string)
    requires n < |text| && text[n] == ' ' && text[n + 1..] == rest
    ensures text == text[..n] + " " + rest
  {
  }

  lemma MatchedIsSpelled(path: string, text: string) returns (digits: string, end: string)
    requires '\n' !in path && Matched(path, text).Some?
    ensures var item := Matched(path, text).value;
      path <= item.filename && Spells(text, digits, item.ost, item.filename, end)
  {
    var n := Lead(text);
    var name := Chomp(text[n + 1..]);
    digits := text[..n];
    end := ChompParts(text[n + 1..]);
    LeadDigits(text);
    NoNewline(path, name);
    SpaceParts(text, n, name + end);
  }

  /** A line is accepted as an entry exactly if it gives that OST that name: for every line, whatever
      is on it. */
  lemma AcceptedIff(path: string, raw: Option<string>, item: Item)
    requires '\n' !in path
    ensures Classify(path, raw) == Entry(item) <==> Gives(path, raw, item.ost, item.filename)
  {
    if raw.Some? {
      if Matched(path, raw.value) == Some(item) {
        var digits, end := MatchedIsSpelled(path, raw.value);
      }
      if Gives(path, raw, item.ost, item.filename) {
        var digits, end :| Spells(raw.value, digits, item.ost, item.filename, end);
        SpelledIsMatched(path, raw.value, digits, item.ost, item.filename, end);
      }
    }
  }

  /** A line that gives an OST and a name is accepted, as just that, exactly when the name begins
      with the path and has no separator. */
  lemma WrittenLine(path: string, ost: nat, name: string, end: string)
    requires '\n' !in name && (end == "" || end == "\n")
    ensures Classify(path, Some(Str(ost) + " " + (name + end))) ==
      if Plain(name) && path <= name then Entry(Item(ost, name)) else Bad
  {
    LineParts(Str(ost), name + end);
    DigitsOfStr(ost);
    ChompOf(name, end);
    MatchedParts(path, Str(ost) + " " + (name + end), |Str(ost)|, ost, name);
    assert SEP in name + end <==> SEP in name;
  }

  // ---- what the lines of all files give

  /** The entries that the lines of a file give an OST, in their order. */
  ghost function GivenBy(path: string, raws: seq<Option<string>>, ost: nat): seq<Item> {
    if raws == [] then []
    else
      (if exists name :: Gives(path, raws[0], ost, name) then
         var name :| Gives(path, raws[0], ost, name);
         [Item(ost, name)]
       else [])
      + GivenBy(path, raws[1..], ost)
  }

  /** The entries that all files give an OST, file after file. */
  ghost function GivenByAll(path: string, files: seq<seq<Option<string>>>, ost: nat): seq<Item> {
    if files == [] then [] else GivenBy(path, files[0], ost) + GivenByAll(path, files[1..], ost)
  }
}
