/** The task ids of the migration generator: "source:target". */
module Tids {
  import opened Collections
  import opened Decimal
  import opened Fields
  import Wire

  const COLON: char := ':'

  function TidOf(source: nat, target: nat): string {
    Str(source) + [COLON] + Str(target)
  }

  /** What the generator reads back from a finished tid; a missing field or a non-number raises. A
      negative number raises one step later, because no OST has it. */
  function ParseTid(tid: string): Result<(nat, nat)> {
    var parts := Split(tid, COLON);
    if |parts| < 2 then Raised
    else match (Int(parts[0]), Int(parts[1]))
      case (Ok(source), Ok(target)) => if source < 0 || target < 0 then Raised else Ok((source, target))
      case _ => Raised
  }

  /** The generator's parser undoes its printer, for all naturals; so the encoding is injective. */
  lemma TidRoundTrip(source: nat, target: nat)
    ensures ParseTid(TidOf(source, target)) == Ok((source, target))
    ensures Wire.SafeName(TidOf(source, target))
  {
    SplitConcat(Str(source), Str(target), COLON);
    SplitPlain(Str(source), COLON);
    SplitPlain(Str(target), COLON);
    IntOfStr(source);
    IntOfStr(target);
  }
}
