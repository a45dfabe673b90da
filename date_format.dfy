/** Reading a date under the strict format `%Y-%m-%d`, following the ISO
    8601 path of the table library's `to_datetime(..., format="%Y-%m-%d")`
    in its 2.x releases: exactly four year digits, a dash, one or two month
    digits, a dash, one or two ASCII day digits, nothing else;
    the month must be 1 to 12, the day must exist in that month, and the year
    must be at least 1. The library's own timestamps only reach from 1677 to
    2262; this reader does not impose that narrower range. */
module DateFormat {
  import opened Wrappers
  import opened Calendar

  predicate IsDigit(c: char) {
    '0' <= c <= '9'
  }

  predicate IsDigits(s: string) {
    forall i | 0 <= i < |s| :: IsDigit(s[i])
  }

  /** Length of the longest run of digits in s starting at position k. */
  function DigitRun(s: string, k: nat): (n: nat)
    requires k <= |s|
    ensures k + n <= |s|
    ensures forall i | k <= i < k + n :: IsDigit(s[i])
    ensures k + n == |s| || !IsDigit(s[k + n])
    decreases |s| - k
  {
    if k < |s| && IsDigit(s[k]) then 1 + DigitRun(s, k + 1) else 0
  }

  /** A run of n digits ended by a non-digit (or by the end of s) is the longest run. */
  lemma {:induction false} DigitRunStops(s: string, k: nat, n: nat)
    requires k + n <= |s|
    requires forall i | k <= i < k + n :: IsDigit(s[i])
    requires k + n == |s| || !IsDigit(s[k + n])
    ensures DigitRun(s, k) == n
    decreases n
  {
    if n > 0 {
      DigitRunStops(s, k + 1, n - 1);
    }
  }

  function Pow10(n: nat): (p: nat)
    ensures p >= 1
  {
    if n == 0 then 1 else 10 * Pow10(n - 1)
  }

  /** The decimal number written by a string of digits. */
  function DecimalValue(s: string): (v: nat)
    requires IsDigits(s)
    ensures v < Pow10(|s|)
  {
    if s == [] then 0
    else DecimalValue(s[..|s| - 1]) * 10 + (s[|s| - 1] as int - '0' as int)
  }

  /** s is written as ys-ms-ds with a four-digit year and one- or two-digit
      month and day fields. */
  predicate DateText(s: string, ys: string, ms: string, ds: string) {
    && s == ys + "-" + ms + "-" + ds
    && |ys| == 4 && 1 <= |ms| <= 2 && 1 <= |ds| <= 2
    && IsDigits(ys) && IsDigits(ms) && IsDigits(ds)
  }

  /** `%Y-%m-%d`: the date s denotes, or None when the parser rejects s. */
  function ParseDate(s: string): (r: Option<Date>)
    ensures r.Some? ==> ValidDate(r.value) && 1 <= r.value.year <= 9999
  {
    var a := DigitRun(s, 0);
    if a != 4 || |s| <= 4 || s[4] != '-' then None
    else
      var b := DigitRun(s, 5);
      if b < 1 || b > 2 || |s| <= 5 + b || s[5 + b] != '-' then None
      else
        var c := DigitRun(s, 6 + b);
        if c < 1 || c > 2 || 6 + b + c != |s| then None
        else
          var d := Date(DecimalValue(s[..4]), DecimalValue(s[5..5 + b]), DecimalValue(s[6 + b..]));
          if 1 <= d.year && ValidDate(d) then Some(d) else None
  }

  /** Everything the parser accepts is a well-formed date text, and the result
      is the date its three fields write. */
  lemma ParseDateSound(s: string)
    requires ParseDate(s).Some?
    ensures exists ys, ms, ds :: DateText(s, ys, ms, ds) && ParseDate(s).value
              == Date(DecimalValue(ys), DecimalValue(ms), DecimalValue(ds))
  {
    var b := DigitRun(s, 5);
    var ys, ms, ds := s[..4], s[5..5 + b], s[6 + b..];
    assert s == ys + "-" + ms + "-" + ds;
    assert DateText(s, ys, ms, ds);
  }

  /** A field of digits written at position k of s and followed by a dash
      (or by the end of s) is the longest run of digits there. */
  lemma FieldRun(s: string, k: nat, field: string)
    requires k + |field| <= |s| && s[k..k + |field|] == field && IsDigits(field)
    requires k + |field| == |s| || s[k + |field|] == '-'
    ensures DigitRun(s, k) == |field|
  {
    forall i | k <= i < k + |field| ensures IsDigit(s[i]) {
      assert s[i] == s[k..k + |field|][i - k];
    }
    DigitRunStops(s, k, |field|);
  }

  /** Where the three fields and the two dashes of ys-ms-ds sit. */
  lemma DateTextLayout(ys: string, ms: string, ds: string)
    requires |ys| == 4
    ensures var s := ys + "-" + ms + "-" + ds;
            && |s| == 6 + |ms| + |ds|
            && s[..4] == ys && s[4] == '-'
            && s[5..5 + |ms|] == ms && s[5 + |ms|] == '-'
            && s[6 + |ms|..] == ds && s[6 + |ms|..6 + |ms| + |ds|] == ds
  {
    var s := ys + "-" + ms + "-" + ds;
    assert s == ys + ("-" + (ms + ("-" + ds)));
  }

  /** Conversely every well-formed date text of an existing date with a year of
      at least 1 is accepted, with that date as result. */
  lemma ParseDateComplete(ys: string, ms: string, ds: string)
    requires |ys| == 4 && 1 <= |ms| <= 2 && 1 <= |ds| <= 2
    requires IsDigits(ys) && IsDigits(ms) && IsDigits(ds)
    requires ValidDate(Date(DecimalValue(ys), DecimalValue(ms), DecimalValue(ds)))
    requires 1 <= DecimalValue(ys)
    ensures ParseDate(ys + "-" + ms + "-" + ds)
            == Some(Date(DecimalValue(ys), DecimalValue(ms), DecimalValue(ds)))
  {
    var s := ys + "-" + ms + "-" + ds;
    DateTextLayout(ys, ms, ds);
    FieldRun(s, 0, ys);
    FieldRun(s, 5, ms);
    FieldRun(s, 6 + |ms|, ds);
  }
}
