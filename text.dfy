/**
 * The few Python string operations the builder relies on: `str.join`,
 * `str.split(" ")[0]`, `str.startswith`, `"%d"` formatting and the `int()`
 * parse of the cursor file's line.
 */
module Text {

  import opened Wrappers

  /** `s.startswith(prefix)` */
  predicate StartsWith(s: string, prefix: string) {
    |prefix| <= |s| && s[..|prefix|] == prefix
  }

  /** Iterating a Python string yields its characters as one-character strings. */
  function Chars(s: string): (parts: seq<string>)
    ensures |parts| == |s|
    ensures forall i :: 0 <= i < |s| ==> parts[i] == [s[i]]
  {
    seq(|s|, i requires 0 <= i < |s| => [s[i]])
  }

  /** `sep.join(parts)`: the parts with `sep` between neighbours. */
  function Join(sep: string, parts: seq<string>): string
  {
    if |parts| == 0 then ""
    else if |parts| == 1 then parts[0]
    else parts[0] + sep + Join(sep, parts[1..])
  }

  /** `s.split(" ")[0]`: the text before the first space, or all of `s`. */
  function BeforeFirstSpace(s: string): (r: string)
    ensures StartsWith(s, r)
    ensures ' ' !in r
    ensures |r| < |s| ==> s[|r|] == ' '
  {
    if |s| == 0 || s[0] == ' ' then "" else [s[0]] + BeforeFirstSpace(s[1..])
  }

  /** The decimal digits of a natural number, most significant first (`"%d"`). */
  function NatToDecimal(n: nat): (r: string)
    ensures |r| > 0
    ensures forall i :: 0 <= i < |r| ==> '0' <= r[i] <= '9'
    decreases n
  {
    if n < 10 then [DigitChar(n)] else NatToDecimal(n / 10) + [DigitChar(n % 10)]
  }

  function DigitChar(d: nat): (c: char)
    requires d < 10
    ensures '0' <= c <= '9' && c as int - '0' as int == d
  {
    ('0' as int + d) as char
  }

  /** `"%d" % k` for any integer `k`. */
  function IntToDecimal(k: int): string {
    if k < 0 then "-" + NatToDecimal(-k) else NatToDecimal(k)
  }

  /** The value of a non-empty run of decimal digits. */
  function DecimalValue(s: string): (n: nat)
    requires forall i :: 0 <= i < |s| ==> '0' <= s[i] <= '9'
    decreases |s|
  {
    if |s| == 0 then 0
    else 10 * DecimalValue(s[..|s| - 1]) + (s[|s| - 1] as int - '0' as int)
  }

  predicate AllDigits(s: string) {
    forall i :: 0 <= i < |s| ==> '0' <= s[i] <= '9'
  }

  /** A line read back from a file, without its trailing newline. */
  function StripNewline(line: string): string {
    if |line| > 0 && line[|line| - 1] == '\n' then line[..|line| - 1] else line
  }

  /** An optional minus sign followed by one or more decimal digits. */
  function ParseInt(body: string): (n: Option<int>) {
    if |body| > 1 && body[0] == '-' && AllDigits(body[1..]) then
      var magnitude: int := DecimalValue(body[1..]);
      Some(-magnitude)
    else if |body| > 0 && AllDigits(body) then Some(DecimalValue(body))
    else None
  }

  /**
   * `int(line)` restricted to the lines `"%d\n"` produces: an optional minus
   * sign, one or more digits, then an optional newline.  Anything else is
   * refused (Python would raise `ValueError` for most of it).
   */
  function ParseIntLine(line: string): Option<int> {
    ParseInt(StripNewline(line))
  }

  lemma {:induction false} DecimalRoundTrip(n: nat)
    ensures DecimalValue(NatToDecimal(n)) == n
    decreases n
  {
    if n >= 10 {
      var s := NatToDecimal(n);
      DecimalRoundTrip(n / 10);
      assert s[..|s| - 1] == NatToDecimal(n / 10);
    }
  }

  lemma ParseDigits(d: string)
    requires |d| > 0 && AllDigits(d)
    ensures ParseInt(d) == Some(DecimalValue(d))
  {
    assert d[0] != '-';
  }

  lemma ParseMinusDigits(d: string)
    requires |d| > 0 && AllDigits(d)
    ensures ParseInt("-" + d) == Some(-(DecimalValue(d) as int))
  {
    assert ("-" + d)[1..] == d;
  }

  /** `int()` of what `"%d"` formats gives the number back. */
  lemma IntTextRoundTrip(k: int)
    ensures ParseInt(IntToDecimal(k)) == Some(k)
  {
    var n: nat := if k < 0 then -k else k;
    var digits := NatToDecimal(n);
    DecimalRoundTrip(n);
    assert AllDigits(digits);
    if k < 0 {
      assert IntToDecimal(k) == "-" + digits;
      ParseMinusDigits(digits);
    } else {
      assert IntToDecimal(k) == digits;
      ParseDigits(digits);
    }
  }

  lemma StripAppendedNewline(s: string)
    ensures StripNewline(s + "\n") == s
  {
    assert (s + "\n")[..|s|] == s;
  }

  /** What the controller writes to `.last_step` (`"%d\n" % k`) reads back as `k`. */
  lemma IntLineRoundTrip(k: int)
    ensures ParseIntLine(IntToDecimal(k) + "\n") == Some(k)
  {
    IntTextRoundTrip(k);
    StripAppendedNewline(IntToDecimal(k));
  }
}
