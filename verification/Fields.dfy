/** `str.split(sep)` and `sep.join(parts)` for a one-character separator. */
module Fields {

  function Split(s: string, sep: char): (parts: seq<string>)
    ensures |parts| >= 1
    ensures forall p :: p in parts ==> sep !in p
  {
    if s == "" then [""]
    else
      Cons(s[0], Split(s[1..], sep), sep)
  }

  function Join(parts: seq<string>, sep: char): string
    requires |parts| >= 1
  {
    if |parts| == 1 then parts[0] else parts[0] + [sep] + Join(parts[1..], sep)
  }

  /** Joining what was split gives the string back. */
  lemma {:induction false} JoinOfSplit(s: string, sep: char)
    ensures Join(Split(s, sep), sep) == s
  {
    if s != "" {
      JoinOfSplit(s[1..], sep);
      var rest := Split(s[1..], sep);
      if s[0] == sep {
        assert ([""] + rest)[1..] == rest;
        assert Join([""] + rest, sep) == "" + [sep] + s[1..];
      } else {
        var parts := [[s[0]] + rest[0]] + rest[1..];
        assert parts[1..] == rest[1..];
        assert Join(parts, sep) == [s[0]] + Join(rest, sep);
      }
    }
  }

  /** A string splits into one field exactly when it holds no separator. */
  lemma {:induction false} SplitPlain(s: string, sep: char)
    ensures |Split(s, sep)| == 1 <==> sep !in s
    ensures sep !in s ==> Split(s, sep) == [s]
  {
    if s != "" {
      SplitPlain(s[1..], sep);
      assert s == [s[0]] + s[1..];
    }
  }

  /** A separator between two strings keeps their fields apart. */
  lemma {:induction false} SplitConcat(a: string, b: string, sep: char)
    ensures Split(a + [sep] + b, sep) == Split(a, sep) + Split(b, sep)
  {
    var s := a + [sep] + b;
    if a == "" {
      assert s[1..] == b;
    } else {
      SplitConcat(a[1..], b, sep);
      assert s[1..] == a[1..] + [sep] + b;
      assert s[0] == a[0];
      FirstField(a[0], Split(a[1..], sep), Split(b, sep), sep);
    }
  }

  /** One more character in front belongs to the first field, or closes an empty one. */
  function Cons(c: char, fields: seq<string>, sep: char): seq<string>
    requires |fields| >= 1
  {
    if c == sep then [""] + fields else [[c] + fields[0]] + fields[1..]
  }

  lemma FirstField(c: char, left: seq<string>, right: seq<string>, sep: char)
    requires |left| >= 1
    ensures Cons(c, left + right, sep) == Cons(c, left, sep) + right
  {
    assert (left + right)[1..] == left[1..] + right;
  }

  /** Splitting what was joined gives the parts back, when no part holds the separator. */
  lemma {:induction false} SplitOfJoin(parts: seq<string>, sep: char)
    requires |parts| >= 1
    requires forall p :: p in parts ==> sep !in p
    ensures Split(Join(parts, sep), sep) == parts
  {
    if |parts| == 1 {
      SplitPlain(parts[0], sep);
    } else {
      SplitOfJoin(parts[1..], sep);
      SplitPlain(parts[0], sep);
      SplitConcat(parts[0], Join(parts[1..], sep), sep);
    }
  }

  /** Joining field by field: the first n, the separator, the others. */
  lemma {:induction false} JoinPrefix(parts: seq<string>, n: nat, sep: char)
    requires 1 <= n < |parts|
    ensures Join(parts, sep) == Join(parts[..n], sep) + [sep] + Join(parts[n..], sep)
  {
    if n == 1 {
      assert parts[..1] == [parts[0]];
    } else {
      JoinPrefix(parts[1..], n - 1, sep);
      assert parts[1..][..n - 1] == parts[..n][1..];
      assert parts[1..][n - 1..] == parts[n..];
    }
  }
}
