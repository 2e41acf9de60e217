/** Python's `str(n)` and `int(s)` for ASCII strings. */
module Decimal {
  import opened Collections

  predicate IsDigit(c: char) { '0' <= c <= '9' }

  function Digit(d: nat): (c: char)
    requires d < 10
    ensures IsDigit(c) && c as int - '0' as int == d
  {
    ('0' as int + d) as char
  }

  /** str(n) of a natural number */
  function Str(n: nat): (s: string)
    ensures s != ""
    ensures forall c :: c in s ==> IsDigit(c)
  {
    if n < 10 then [Digit(n)] else Str(n / 10) + [Digit(n % 10)]
  }

  /** str(n) */
  function StrInt(n: int): string { if n < 0 then "-" + Str(-n) else Str(n) }

  /** Space, tab, newline, vertical tab, form feed, carriage return. */
  predicate IsBlank(c: char) { c == ' ' || 9 <= c as int <= 13 }

  function SkipFront(s: string): string { if s != "" && IsBlank(s[0]) then SkipFront(s[1..]) else s }

  function SkipBack(s: string): string { if s != "" && IsBlank(s[|s| - 1]) then SkipBack(s[..|s| - 1]) else s }

  /** Digits, with single underscores between them. */
  function Digits(s: string): Result<nat> {
    if s == "" || !IsDigit(s[|s| - 1]) then Raised
    else
      var last := s[|s| - 1] as int - '0' as int;
      var front := s[..|s| - 1];
      if front == "" then Ok(last)
      else match Digits(if front[|front| - 1] == '_' then front[..|front| - 1] else front)
        case Raised => Raised
        case Ok(high) => Ok(10 * high + last)
  }

  function Signed(t: string, n: int): int { if t != "" && t[0] == '-' then -n else n }

  function Unsigned(t: string): string { if t != "" && (t[0] == '-' || t[0] == '+') then t[1..] else t }

  /** int(s): blanks around an optional sign and digits; anything else raises. */
  function Int(s: string): Result<int> {
    var t := SkipBack(SkipFront(s));
    match Digits(Unsigned(t))
    case Raised => Raised
    case Ok(n) => Ok(Signed(t, n))
  }

  lemma NothingSkipped(s: string)
    requires s != "" && !IsBlank(s[0]) && !IsBlank(s[|s| - 1])
    ensures SkipBack(SkipFront(s)) == s
  {
  }

  lemma {:induction false} DigitsOfStr(n: nat)
    ensures Digits(Str(n)) == Ok(n)
  {
    if n >= 10 {
      DigitsOfStr(n / 10);
      var front := Str(n)[..|Str(n)| - 1];
      assert front == Str(n / 10);
      assert IsDigit(front[|front| - 1]);
    }
  }

  lemma IntOfStr(n: nat)
    ensures Int(Str(n)) == Ok(n)
  {
    var s := Str(n);
    assert IsDigit(s[0]) && IsDigit(s[|s| - 1]);
    NothingSkipped(s);
    DigitsOfStr(n);
  }

  lemma IntOfMinus(n: int)
    requires n >= 0
    ensures Int("-" + Str(n)) == Ok(-n)
  {
    var s := "-" + Str(n);
    assert s[1..] == Str(n) && s[0] == '-';
    assert s[|s| - 1] == Str(n)[|Str(n)| - 1];
    NothingSkipped(s);
    DigitsOfStr(n);
  }

  /** int undoes str, for negative numbers too. */
  lemma IntOfStrInt(n: int)
    ensures Int(StrInt(n)) == Ok(n)
    ensures forall c :: c in StrInt(n) ==> IsDigit(c) || c == '-'
  {
    if n < 0 { IntOfMinus(-n); } else { IntOfStr(n); }
  }
}
