/** The handful of JavaScript string operations the front end relies on:
    lower-casing of format names and status words, number-to-text conversion
    for form fields, `parseInt` on slider values such as "192k", and the
    `split('.')` idioms used to take a file's base name and extension. */
module Text {
  import opened Wrappers

  predicate IsUpper(c: char) { 'A' <= c <= 'Z' }

  predicate IsDigit(c: char) { '0' <= c <= '9' }

  /** No upper-case ASCII letter anywhere in s. */
  predicate IsLowerCase(s: string)
  {
    forall i :: 0 <= i < |s| ==> !IsUpper(s[i])
  }

  function LowerChar(c: char): char
  {
    if IsUpper(c) then (c as int + 32) as char else c
  }

  /** `String.prototype.toLowerCase`, on ASCII letters. */
  function ToLower(s: string): (r: string)
    ensures |r| == |s|
    ensures IsLowerCase(r)
    ensures forall i :: 0 <= i < |s| && !IsUpper(s[i]) ==> r[i] == s[i]
    ensures forall i :: 0 <= i < |s| && IsUpper(s[i]) ==> r[i] as int == s[i] as int + 32
  {
    if s == [] then [] else [LowerChar(s[0])] + ToLower(s[1..])
  }

  /** Lower-casing a string that is already lower case changes nothing, so
      lower-casing twice is the same as once. */
  lemma {:induction false} ToLowerFixesLowerCase(s: string)
    requires IsLowerCase(s)
    ensures ToLower(s) == s
  {
    if s != [] {
      ToLowerFixesLowerCase(s[1..]);
    }
  }

  lemma ToLowerIdempotent(s: string)
    ensures ToLower(ToLower(s)) == ToLower(s)
  {
    ToLowerFixesLowerCase(ToLower(s));
  }

  function DigitChar(d: nat): (c: char)
    requires d < 10
    ensures IsDigit(c)
  {
    ('0' as int + d) as char
  }

  function DigitValue(c: char): (d: nat)
    requires IsDigit(c)
    ensures d < 10 && DigitChar(d) == c
  {
    c as int - '0' as int
  }

  predicate AllDigits(s: string)
  {
    forall i :: 0 <= i < |s| ==> IsDigit(s[i])
  }

  /** The value of a run of decimal digits, most significant first. */
  function DigitsValue(s: string): nat
    requires AllDigits(s)
  {
    if s == [] then 0 else DigitsValue(s[..|s| - 1]) * 10 + DigitValue(s[|s| - 1])
  }

  /** `Number.prototype.toString()` on a non-negative integer. */
  function NatToString(n: nat): (r: string)
    ensures |r| >= 1 && AllDigits(r)
    ensures r[0] == '0' ==> n == 0
  {
    if n < 10 then [DigitChar(n)] else NatToString(n / 10) + [DigitChar(n % 10)]
  }

  /** `Number.prototype.toString()` on an integer. */
  function IntToString(i: int): (r: string)
    ensures |r| >= 1
    ensures r[0] == '-' <==> i < 0
  {
    if i < 0 then "-" + NatToString(-i) else NatToString(i)
  }

  lemma {:induction false} NatToStringValue(n: nat)
    ensures DigitsValue(NatToString(n)) == n
  {
    if n >= 10 {
      NatToStringValue(n / 10);
      var s := NatToString(n);
      assert s[..|s| - 1] == NatToString(n / 10);
    }
  }

  /** Length of the longest run of digits at the start of s. */
  function LeadingDigits(s: string): (k: nat)
    ensures k <= |s|
    ensures AllDigits(s[..k])
    ensures k < |s| ==> !IsDigit(s[k])
  {
    if s == [] || !IsDigit(s[0]) then 0
    else
      var k := 1 + LeadingDigits(s[1..]);
      assert s[..k] == [s[0]] + s[1..][..k - 1];
      k
  }

  predicate StartsWithDigit(s: string)
  {
    |s| > 0 && IsDigit(s[0])
  }

  /** `parseInt(s)` in base 10: an optional sign followed by the longest
      digit run; `NaN` (here `None`) when there is no digit. Leading white
      space and a `0x` prefix, which `parseInt` also accepts, are not read:
      the stored bitrates the model parses ("192k", or `toString` of a
      number followed by "k") never start with either. */
  function ParseInt(s: string): (r: Option<int>)
    ensures r.None? <==> !StartsWithDigit(if StartsWithSign(s) then s[1..] else s)
  {
    var body := if StartsWithSign(s) then s[1..] else s;
    var k := LeadingDigits(body);
    if k == 0 then None
    else
      var v: int := DigitsValue(body[..k]);
      Some(if s[0] == '-' then -v else v)
  }

  predicate StartsWithSign(s: string)
  {
    |s| > 0 && (s[0] == '-' || s[0] == '+')
  }

  lemma {:induction false} LeadingDigitsOfNumber(d: string, suffix: string)
    requires AllDigits(d)
    requires !StartsWithDigit(suffix)
    ensures LeadingDigits(d + suffix) == |d|
  {
    if d != [] {
      assert (d + suffix)[1..] == d[1..] + suffix;
      LeadingDigitsOfNumber(d[1..], suffix);
    } else {
      assert d + suffix == suffix;
    }
  }

  /** `parseInt` reads back the integer that `toString` wrote, whatever
      non-digit text follows it (the audio bitrate slider stores "192k" and
      shows `parseInt("192k")`). */
  lemma ParseIntRoundTrip(n: int, suffix: string)
    requires !StartsWithDigit(suffix)
    ensures ParseInt(IntToString(n) + suffix) == Some(n)
  {
    var m: nat := if n < 0 then -n else n;
    var d := NatToString(m);
    NatToStringValue(m);
    LeadingDigitsOfNumber(d, suffix);
    var s := IntToString(n) + suffix;
    if n < 0 {
      assert s == "-" + (d + suffix);
      assert s[1..] == d + suffix;
    } else {
      assert s == d + suffix;
      assert !StartsWithSign(s);
    }
    assert (d + suffix)[..|d|] == d;
  }

  /** `x.toString()` for a number held in tenths (4.1 is 41): JavaScript
      prints no fractional part for a whole number, so 4.0 becomes "4". */
  function TenthsToString(t: nat): (r: string)
    ensures ('.' in r) <==> t % 10 != 0
    ensures var w := BeforeFirst(r, '.');
      |w| >= 1 && AllDigits(w) && DigitsValue(w) == t / 10 &&
      r == (if t % 10 == 0 then w else w + "." + [DigitChar(t % 10)])
  {
    var whole := NatToString(t / 10);
    assert forall i :: 0 <= i < |whole| ==> whole[i] != '.';
    NatToStringValue(t / 10);
    if t % 10 == 0 then
      BeforeFirstAbsent(whole, '.');
      whole
    else
      BeforeFirstStops(whole, '.', [DigitChar(t % 10)]);
      whole + "." + [DigitChar(t % 10)]
  }

  /** Without c in s, `split(c)[0]` is all of s. */
  lemma BeforeFirstAbsent(s: string, c: char)
    requires c !in s
    ensures BeforeFirst(s, c) == s
  {
  }

  /** `split(c)[0]` stops at the first c, after a run without one. */
  lemma BeforeFirstStops(w: string, c: char, rest: string)
    requires c !in w
    ensures BeforeFirst(w + [c] + rest, c) == w
  {
    var s := w + [c] + rest;
    var r := BeforeFirst(s, c);
    assert s[|w|] == c;
    assert s[..|w| + 1][|w|] == c;
    assert r == s[..|w|] == w;
  }

  /** `s.split(c)[0]`: everything before the first c (all of s when c does
      not occur). */
  function BeforeFirst(s: string, c: char): (r: string)
    ensures |r| <= |s| && r == s[..|r|]
    ensures c !in r
    ensures |r| < |s| ==> s[|r|] == c
  {
    if s == [] || s[0] == c then []
    else
      var rest := BeforeFirst(s[1..], c);
      assert [s[0]] + rest == s[..1 + |rest|];
      [s[0]] + rest
  }

  /** `s.split(c).pop()`: everything after the last c (all of s when c does
      not occur). */
  function AfterLast(s: string, c: char): (r: string)
    ensures |r| <= |s| && r == s[|s| - |r|..]
    ensures c !in r
    ensures |r| < |s| ==> s[|s| - |r| - 1] == c
  {
    if s == [] || s[|s| - 1] == c then []
    else
      var rest := AfterLast(s[..|s| - 1], c);
      assert rest + [s[|s| - 1]] == s[|s| - 1 - |rest|..];
      rest + [s[|s| - 1]]
  }

  predicate StartsWith(s: string, prefix: string)
  {
    |prefix| <= |s| && s[..|prefix|] == prefix
  }

  /** JavaScript truthiness of an optional string: present and non-empty. */
  predicate Truthy(s: Option<string>)
  {
    s.Some? && s.value != ""
  }

  function BoolToString(b: bool): string
  {
    if b then "true" else "false"
  }
}
