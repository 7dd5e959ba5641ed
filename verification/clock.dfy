/** The `%M:%S` rendering of a whole number of seconds, as `strftime` prints
    the minute and second fields of a `gmtime` value: the seconds are reduced
    modulo one hour, and minutes and seconds are printed as two digits each. */
module Clock {
  import opened Results

  predicate IsDigit(c: char) {
    '0' <= c <= '9'
  }

  function DigitChar(d: int): (c: char)
    requires 0 <= d < 10
    ensures IsDigit(c)
  {
    ('0' as int + d) as char
  }

  function DigitValue(c: char): (d: int)
    requires IsDigit(c)
    ensures 0 <= d < 10
  {
    c as int - '0' as int
  }

  /** A number below 100 as exactly two decimal digits, zero-padded. */
  function Pad2(n: int): (r: string)
    requires 0 <= n < 100
    ensures |r| == 2 && IsDigit(r[0]) && IsDigit(r[1])
    ensures DigitValue(r[0]) * 10 + DigitValue(r[1]) == n
  {
    [DigitChar(n / 10), DigitChar(n % 10)]
  }

  /** Reads back a `mm:ss` text with both fields below 60, as seconds. */
  function ParseMmSs(s: string): Option<int> {
    if |s| == 5 && s[2] == ':' && IsDigit(s[0]) && IsDigit(s[1]) && IsDigit(s[3]) && IsDigit(s[4])
    then
      var mm := DigitValue(s[0]) * 10 + DigitValue(s[1]);
      var ss := DigitValue(s[3]) * 10 + DigitValue(s[4]);
      if mm < 60 && ss < 60 then Some(mm * 60 + ss) else None
    else None
  }

  /** `strftime('%M:%S', gmtime(t))` for a whole number of seconds `t`
      (negative `t` counts back from midnight). */
  function MinutesSeconds(t: int): (r: string)
    ensures |r| == 5 && r[2] == ':'
    ensures ParseMmSs(r) == Some(t % 3600)
  {
    var w := t % 3600;
    Pad2(w / 60) + ":" + Pad2(w % 60)
  }

  /** Every well-formed `mm:ss` text is the rendering of the seconds it reads as. */
  lemma FormatParse(s: string)
    requires ParseMmSs(s).Some?
    ensures MinutesSeconds(ParseMmSs(s).value) == s
  {
    var v := ParseMmSs(s).value;
    var r := MinutesSeconds(v);
    assert ParseMmSs(r) == Some(v % 3600);
    assert v % 3600 == v;
    DigitsDetermineChar(r[0], s[0]);
    DigitsDetermineChar(r[1], s[1]);
    DigitsDetermineChar(r[3], s[3]);
    DigitsDetermineChar(r[4], s[4]);
  }

  lemma DigitsDetermineChar(a: char, b: char)
    requires IsDigit(a) && IsDigit(b) && DigitValue(a) == DigitValue(b)
    ensures a == b
  {
  }

  /** The display wraps every hour: t and t + 3600 render alike. */
  lemma HourWraps(t: int)
    ensures MinutesSeconds(t + 3600) == MinutesSeconds(t)
  {
    assert (t + 3600) % 3600 == t % 3600;
  }
}
