/**
 * The JavaScript string operations the front end relies on: printing and parsing
 * integers (`String(n)`, `parseInt(s, 10)`), white space and `trim`, case folding,
 * `includes`, `endsWith`, `split` and `join`.
 */
module Texts {
  import opened Common

  predicate IsDigit(c: char) {
    '0' <= c <= '9'
  }

  predicate AllDigits(s: string) {
    forall i :: 0 <= i < |s| ==> IsDigit(s[i])
  }

  function DigitChar(d: nat): (c: char)
    requires d < 10
    ensures IsDigit(c)
  {
    (48 + d) as char
  }

  function DigitValue(c: char): nat
    requires IsDigit(c)
  {
    c as int - 48
  }

  /** `String(n)` for a non-negative integer: its decimal digits, no leading zero. */
  function NatToString(n: nat): (s: string)
    ensures |s| > 0 && AllDigits(s)
    decreases n
  {
    if n < 10 then [DigitChar(n)] else NatToString(n / 10) + [DigitChar(n % 10)]
  }

  /** `String(n)` for any integer. */
  function IntToString(n: int): string {
    if n < 0 then "-" + NatToString(-n) else NatToString(n)
  }

  /** The number a run of decimal digits denotes. */
  function DigitsValue(s: string): nat
    requires AllDigits(s)
  {
    if s == [] then 0 else 10 * DigitsValue(s[..|s| - 1]) + DigitValue(s[|s| - 1])
  }

  /** Reading back the digits of `String(n)` gives `n`. */
  lemma {:induction false} NatToStringRoundTrip(n: nat)
    ensures DigitsValue(NatToString(n)) == n
    decreases n
  {
    if n >= 10 {
      NatToStringRoundTrip(n / 10);
      var s := NatToString(n);
      assert s[..|s| - 1] == NatToString(n / 10);
    }
  }

  /** Numbers from 10 to 99 print as exactly two digits. */
  lemma TwoDigitNumbers(n: nat)
    requires 10 <= n < 100
    ensures NatToString(n) == [DigitChar(n / 10), DigitChar(n % 10)]
  {
  }

  /** The end of the longest run of digits that starts at `i`. */
  function DigitRunEnd(s: string, i: nat): (j: nat)
    requires i <= |s|
    ensures i <= j <= |s|
    ensures forall k :: i <= k < j ==> IsDigit(s[k])
    ensures j == |s| || !IsDigit(s[j])
    decreases |s| - i
  {
    if i < |s| && IsDigit(s[i]) then DigitRunEnd(s, i + 1) else i
  }

  /** A run of digits that is followed by a non-digit (or the end) is the longest run. */
  lemma {:induction false} DigitRunEndIs(s: string, i: nat, j: nat)
    requires i <= j <= |s|
    requires forall k :: i <= k < j ==> IsDigit(s[k])
    requires j == |s| || !IsDigit(s[j])
    ensures DigitRunEnd(s, i) == j
    decreases j - i
  {
    if i < j {
      DigitRunEndIs(s, i + 1, j);
    }
  }

  /** The characters ECMAScript counts as white space or line terminators
      (what `parseInt` skips and `trim` removes). */
  predicate IsSpace(c: char) {
    || c == '\t' || c == '\n' || c == '\U{B}' || c == '\U{C}' || c == '\r' || c == ' '
    || c == '\U{A0}' || c == '\U{1680}' || ('\U{2000}' <= c <= '\U{200A}')
    || c == '\U{2028}' || c == '\U{2029}' || c == '\U{202F}' || c == '\U{205F}'
    || c == '\U{3000}' || c == '\U{FEFF}'
  }

  /** The index of the first non-space character at or after `i`. */
  function SkipSpaces(s: string, i: nat): (j: nat)
    requires i <= |s|
    ensures i <= j <= |s|
    ensures forall k :: i <= k < j ==> IsSpace(s[k])
    ensures j == |s| || !IsSpace(s[j])
    decreases |s| - i
  {
    if i < |s| && IsSpace(s[i]) then SkipSpaces(s, i + 1) else i
  }

  /**
   * `parseInt(s, 10)`: leading white space is skipped, then an optional sign, then
   * the longest run of decimal digits; `None` is `NaN` (no digit where one is needed).
   */
  function ParseInt(s: string): Option<int> {
    var a := SkipSpaces(s, 0);
    var b := if a < |s| && (s[a] == '-' || s[a] == '+') then a + 1 else a;
    var e := DigitRunEnd(s, b);
    if e == b then None
    else
      assert AllDigits(s[b..e]);
      var v: int := DigitsValue(s[b..e]);
      Some(if a < |s| && s[a] == '-' then -v else v)
  }

  /** `parseInt` reads back what `String(n)` printed, whatever non-digit text follows. */
  lemma ParseIntOfPrinted(n: int, rest: string)
    requires rest == [] || !IsDigit(rest[0])
    ensures ParseInt(IntToString(n) + rest) == Some(n)
  {
    var x := NatToString(if n < 0 then -n else n);
    var s := IntToString(n) + rest;
    var b := if n < 0 then 1 else 0;
    assert s[b..b + |x|] == x;
    assert SkipSpaces(s, 0) == 0;
    DigitRunEndIs(s, b, b + |x|);
    NatToStringRoundTrip(if n < 0 then -n else n);
  }

  /** `parseInt` reads back a printed integer followed by nothing. */
  lemma ParseIntOfString(n: int)
    ensures ParseInt(IntToString(n)) == Some(n)
  {
    ParseIntOfPrinted(n, "");
    assert IntToString(n) + "" == IntToString(n);
  }

  /** `10^k`. */
  function Pow10(k: nat): (p: real)
    ensures p >= 1.0
  {
    if k == 0 then 1.0 else 10.0 * Pow10(k - 1)
  }

  /** The exponent part that starts at `k`: `e` or `E`, an optional sign and at least
      one digit; 0 when there is none. */
  function ExponentAt(s: string, k: nat): int
    requires k <= |s|
  {
    if k < |s| && (s[k] == 'e' || s[k] == 'E') then
      var c := if k + 1 < |s| && (s[k + 1] == '-' || s[k + 1] == '+') then k + 2 else k + 1;
      var d := DigitRunEnd(s, c);
      if d == c then 0
      else
        assert AllDigits(s[c..d]);
        var v: int := DigitsValue(s[c..d]);
        if s[k + 1] == '-' then -v else v
    else 0
  }

  /** `m * 10^e`. */
  function Scale(m: real, e: int): real {
    if e >= 0 then m * Pow10(e) else m / Pow10(-e)
  }

  /**
   * `parseFloat(s)` for finite decimals: leading white space, an optional sign, digits
   * with at most one decimal point and at least one digit, then an optional exponent;
   * whatever follows is ignored. `None` is `NaN`.
   */
  function ParseFloat(s: string): Option<real> {
    var a := SkipSpaces(s, 0);
    var b := if a < |s| && (s[a] == '-' || s[a] == '+') then a + 1 else a;
    match UnsignedAt(s, b)
    case None => None
    case Some(v) => Some(if a < |s| && s[a] == '-' then -v else v)
  }

  /** The unsigned number that starts at `b`: digits with at most one decimal point and
      at least one digit, then an optional exponent. */
  function UnsignedAt(s: string, b: nat): Option<real>
    requires b <= |s|
  {
    var i := DigitRunEnd(s, b);
    var fracStart := if i < |s| && s[i] == '.' then i + 1 else i;
    var f := DigitRunEnd(s, fracStart);
    if i == b && f == fracStart then None
    else
      var digits := s[b..i] + s[fracStart..f];
      assert AllDigits(digits);
      var m := DigitsValue(digits) as real / Pow10(f - fracStart);
      Some(Scale(m, ExponentAt(s, f)))
  }

  /** `parseFloat` reads back what `String(n)` printed for an integer. */
  lemma ParseFloatOfInt(n: int)
    ensures ParseFloat(IntToString(n)) == Some(n as real)
  {
    var s := IntToString(n);
    if n < 0 {
      var x := NatToString(-n);
      NatToStringRoundTrip(-n);
      NegativeDigits(s, x);
      ParseFloatSigned(s, (-n) as real);
    } else {
      NatToStringRoundTrip(n);
      UnsignedDigits(s, 0);
      assert s[0..] == s;
      ParseFloatUnsigned(s, n as real);
    }
  }

  /** An unsigned number `v` at the start is read as `v`. */
  lemma ParseFloatUnsigned(s: string, v: real)
    requires |s| > 0 && IsDigit(s[0]) && UnsignedAt(s, 0) == Some(v)
    ensures ParseFloat(s) == Some(v)
  {
    assert !IsSpace(s[0]) && SkipSpaces(s, 0) == 0;
  }

  /** A minus sign followed by an unsigned number `v` is read as `-v`. */
  lemma ParseFloatSigned(s: string, v: real)
    requires |s| > 0 && s[0] == '-' && UnsignedAt(s, 1) == Some(v)
    ensures ParseFloat(s) == Some(-v)
  {
    assert !IsSpace(s[0]) && SkipSpaces(s, 0) == 0;
  }

  lemma NegativeDigits(s: string, x: string)
    requires |x| > 0 && AllDigits(x) && s == "-" + x
    ensures UnsignedAt(s, 1) == Some(DigitsValue(x) as real)
  {
    assert s[1..] == x;
    forall k | 1 <= k < |s|
      ensures IsDigit(s[k])
    {
      assert s[k] == x[k - 1];
    }
    UnsignedDigits(s, 1);
  }

  /** Digits from `b` to the end are read as the number they denote. */
  lemma UnsignedDigits(s: string, b: nat)
    requires b < |s|
    requires forall k :: b <= k < |s| ==> IsDigit(s[k])
    ensures AllDigits(s[b..])
    ensures UnsignedAt(s, b) == Some(DigitsValue(s[b..]) as real)
  {
    DigitRunEndIs(s, b, |s|);
    assert DigitRunEnd(s, |s|) == |s|;
    assert s[b..|s|] + s[|s|..|s|] == s[b..];
    assert ExponentAt(s, |s|) == 0;
    assert Pow10(0) == 1.0;
  }

  /** `s.trim()`. */
  function Trim(s: string): (r: string)
    ensures |r| <= |s|
    ensures r == [] || (!IsSpace(r[0]) && !IsSpace(r[|r| - 1]))
  {
    var a := SkipSpaces(s, 0);
    var b := TrimEndIndex(s, |s|);
    if a < b then s[a..b] else ""
  }

  /** The index just past the last non-space character before `j`. */
  function TrimEndIndex(s: string, j: nat): (k: nat)
    requires j <= |s|
    ensures k <= j
    ensures forall m :: k <= m < j ==> IsSpace(s[m])
    ensures k == 0 || !IsSpace(s[k - 1])
    decreases j
  {
    if j > 0 && IsSpace(s[j - 1]) then TrimEndIndex(s, j - 1) else j
  }

  /** Trimming is idempotent: trimmed text has nothing left to trim. */
  lemma TrimIdempotent(s: string)
    ensures Trim(Trim(s)) == Trim(s)
  {
    var r := Trim(s);
    if r != [] {
      assert SkipSpaces(r, 0) == 0;
      assert TrimEndIndex(r, |r|) == |r|;
      assert r[0..|r|] == r;
    }
  }

  /** Simple lowercase mapping of one character, as `toLowerCase` does it for the
      Basic Latin and Latin-1 letters. */
  function LowerChar(c: char): char {
    if 'A' <= c <= 'Z' || ('\U{C0}' <= c <= '\U{DE}' && c != '\U{D7}') then
      (c as int + 32) as char
    else
      c
  }

  /** `s.toLowerCase()`. */
  function Lower(s: string): (r: string)
    ensures |r| == |s|
    ensures forall i :: 0 <= i < |s| ==> r[i] == LowerChar(s[i])
  {
    seq(|s|, i requires 0 <= i < |s| => LowerChar(s[i]))
  }

  /** Lowercasing twice is lowercasing once. */
  lemma LowerIdempotent(s: string)
    ensures Lower(Lower(s)) == Lower(s)
  {
  }

  /** `s.includes(sub)`. */
  predicate Contains(s: string, sub: string)
    decreases |s|
  {
    sub <= s || (s != [] && Contains(s[1..], sub))
  }

  /** `s.endsWith(suffix)`. */
  predicate EndsWith(s: string, suffix: string) {
    |suffix| <= |s| && s[|s| - |suffix|..] == suffix
  }

  /** `s.split(sep)` for a one-character separator: never empty, `""` gives `[""]`. */
  function Split(s: string, sep: char): (parts: seq<string>)
    ensures |parts| >= 1
    decreases |s|
  {
    if s == [] then [""]
    else
      var rest := Split(s[1..], sep);
      if s[0] == sep then [""] + rest else [[s[0]] + rest[0]] + rest[1..]
  }

  /** Text without the separator splits into itself alone. */
  lemma {:induction false} SplitWithoutSep(s: string, sep: char)
    requires sep !in s
    ensures Split(s, sep) == [s]
    decreases |s|
  {
    if s != [] {
      SplitWithoutSep(s[1..], sep);
      assert s[0] != sep;
      assert [s[0]] + s[1..] == s;
    }
  }

  /** The first separator ends the first piece. */
  lemma {:induction false} SplitAtFirst(x: string, sep: char, y: string)
    requires sep !in x
    ensures Split(x + [sep] + y, sep) == [x] + Split(y, sep)
    decreases |x|
  {
    if x == [] {
      assert x + [sep] + y == [sep] + y;
      assert ([sep] + y)[1..] == y;
    } else {
      SplitAtFirst(x[1..], sep, y);
      assert (x + [sep] + y)[1..] == x[1..] + [sep] + y;
      assert (x + [sep] + y)[0] == x[0] != sep;
      assert [x[0]] + x[1..] == x;
    }
  }

  /** One step of `Split`, for a text given as its first character and the rest. */
  lemma SplitCons(c: char, t: string, sep: char)
    ensures Split([c] + t, sep) == if c == sep then [""] + Split(t, sep)
                                   else [[c] + Split(t, sep)[0]] + Split(t, sep)[1..]
  {
    assert ([c] + t)[1..] == t;
  }

  /** A separator splits the text into the pieces of each side. */
  lemma {:induction false} SplitAround(x: string, sep: char, y: string)
    ensures Split(x + [sep] + y, sep) == Split(x, sep) + Split(y, sep)
    decreases |x|
  {
    if x == [] {
      assert x + [sep] + y == [sep] + y;
      SplitCons(sep, y, sep);
    } else {
      SplitAround(x[1..], sep, y);
      SplitAroundStep(x, sep, y);
    }
  }

  lemma SplitAroundStep(x: string, sep: char, y: string)
    requires x != []
    requires Split(x[1..] + [sep] + y, sep) == Split(x[1..], sep) + Split(y, sep)
    ensures Split(x + [sep] + y, sep) == Split(x, sep) + Split(y, sep)
  {
    assert x + [sep] + y == [x[0]] + (x[1..] + [sep] + y);
    assert x == [x[0]] + x[1..];
    SplitPrepend(x[0], x[1..], x[1..] + [sep] + y, sep, Split(y, sep));
  }

  /** Putting a character in front of two texts keeps their splits a common suffix apart. */
  lemma SplitPrepend(c: char, t: string, u: string, sep: char, tail: seq<string>)
    requires Split(u, sep) == Split(t, sep) + tail
    ensures Split([c] + u, sep) == Split([c] + t, sep) + tail
  {
    SplitCons(c, u, sep);
    SplitCons(c, t, sep);
    if c == sep {
      PrependPiece("", Split(t, sep), tail);
    } else {
      GlueToFirst([c], Split(t, sep), tail);
    }
  }

  lemma PrependPiece(p: string, left: seq<string>, tail: seq<string>)
    ensures [p] + (left + tail) == ([p] + left) + tail
  {
  }

  lemma GlueToFirst(c: string, left: seq<string>, tail: seq<string>)
    requires |left| >= 1
    ensures [c + (left + tail)[0]] + (left + tail)[1..] == ([c + left[0]] + left[1..]) + tail
  {
    assert (left + tail)[1..] == left[1..] + tail;
  }

  /** `parts.join(sep)`. */
  function Join(parts: seq<string>, sep: char): string
    requires |parts| >= 1
    decreases |parts|
  {
    if |parts| == 1 then parts[0] else parts[0] + [sep] + Join(parts[1..], sep)
  }

  /** Splitting loses nothing: the pieces hold no separator and join back to the text. */
  lemma {:induction false} SplitJoin(s: string, sep: char)
    ensures Join(Split(s, sep), sep) == s
    ensures forall k :: 0 <= k < |Split(s, sep)| ==> sep !in Split(s, sep)[k]
    decreases |s|
  {
    if s != [] {
      var rest := Split(s[1..], sep);
      SplitJoin(s[1..], sep);
      var parts := Split(s, sep);
      if s[0] == sep {
        assert parts[1..] == rest;
      } else {
        assert parts[1..] == rest[1..];
        if |rest| > 1 {
          assert Join(rest, sep) == rest[0] + [sep] + Join(rest[1..], sep);
        }
        forall k | 0 <= k < |parts|
          ensures sep !in parts[k]
        {
          if k > 0 {
            assert parts[k] == rest[k];
          }
        }
      }
    }
  }
}
