/** The `M:SS` elapsed-time formatter of the enricher (`_fmt_ts`). */
module Timestamp {
  import opened Wrappers
  import opened Text

  /** Python's `int(x)` on a float: truncation toward zero. */
  function TruncToInt(x: real): (n: int)
    ensures x >= 0.0 ==> n >= 0 && n as real <= x < (n + 1) as real
    ensures x < 0.0 ==> n <= 0 && (n - 1) as real < x <= n as real
  {
    if x >= 0.0 then x.Floor else -((-x).Floor)
  }

  /** `f"{s:02d}"` for `0 <= s < 100`. */
  function TwoDigits(s: nat): (r: string)
    requires s < 100
    ensures |r| == 2 && AllDigits(r) && DigitsValue(r) == s
  {
    var r := [DigitChar(s / 10), DigitChar(s % 10)];
    assert r[..1] == [DigitChar(s / 10)] && r[..1][..0] == [];
    assert DigitsValue(r[..1]) == s / 10;
    assert DigitsValue(r) == 10 * (s / 10) + s % 10;
    r
  }

  /**
   * `_fmt_ts`: `m, s = divmod(int(seconds), 60)` then `f"{m}:{s:02d}"`.
   * Python's `divmod` floors; for the positive divisor 60 that is Dafny's `/` and `%`.
   */
  function FmtTs(seconds: real): (r: string)
    ensures |r| >= 4 && r[|r| - 3] == ':'
    ensures AllDigits(r[|r| - 2..]) && DigitsValue(r[|r| - 2..]) == TruncToInt(seconds) % 60 < 60
    ensures ParseInt(r[..|r| - 3]) == Some(TruncToInt(seconds) / 60)
    ensures seconds >= 0.0 ==> AllDigits(r[..|r| - 3])
  {
    var n := TruncToInt(seconds);
    var head := IntToString(n / 60);
    var r := head + ":" + TwoDigits(n % 60);
    assert r[..|r| - 3] == head && r[|r| - 2..] == TwoDigits(n % 60);
    IntToStringRoundTrip(n / 60);
    r
  }

  /** Reads `M:SS` back into whole seconds; `None` when the text is not of that shape. */
  function ParseTs(r: string): Option<int> {
    if |r| >= 4 && r[|r| - 3] == ':' && AllDigits(r[|r| - 2..]) && DigitsValue(r[|r| - 2..]) < 60 then
      match ParseInt(r[..|r| - 3])
      case Some(m) => Some(60 * m + DigitsValue(r[|r| - 2..]))
      case None => None
    else None
  }

  /** The formatted stamp encodes exactly the truncated number of seconds. */
  lemma FmtTsRoundTrip(seconds: real)
    ensures ParseTs(FmtTs(seconds)) == Some(TruncToInt(seconds))
  {
    var n := TruncToInt(seconds);
    assert 60 * (n / 60) + n % 60 == n;
  }
}
