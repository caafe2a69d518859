/** The parts of Go's `strings` and `strconv` packages the driver relies on, on `seq<char>`.

    A Go string is a byte sequence; here a string is a sequence of Unicode scalar values (runes)
    and `Utf8Len` gives the byte length Go's `len` reports. Go compares strings bytewise, which
    for valid UTF-8 is the same order as comparing code points, so `Less` compares characters. */
module Strs {
  import opened Wrappers

  const MaxInt64: int := 0x7fff_ffff_ffff_ffff
  const MinInt64: int := -0x8000_0000_0000_0000

  // ---------------------------------------------------------------- splitting and joining

  /** strings.Split(s, string(sep)). */
  function Split(s: string, sep: char): (parts: seq<string>)
    ensures |parts| >= 1
    decreases |s|
  {
    if |s| == 0 then [""]
    else
      var rest := Split(s[1..], sep);
      if s[0] == sep then [""] + rest
      else [[s[0]] + rest[0]] + rest[1..]
  }

  /** strings.Join(parts, sep). */
  function Join(parts: seq<string>, sep: string): string
  {
    if |parts| == 0 then ""
    else if |parts| == 1 then parts[0]
    else parts[0] + sep + Join(parts[1..], sep)
  }

  /** Joining two pieces puts the separator between them. */
  lemma Join2(a: string, b: string, sep: string)
    ensures Join([a, b], sep) == a + sep + b
  {
    assert [a, b][1..] == [b];
  }

  /** No piece of a split contains the separator. */
  lemma {:induction false} SplitPiecesFree(s: string, sep: char)
    ensures forall i :: 0 <= i < |Split(s, sep)| ==> sep !in Split(s, sep)[i]
    decreases |s|
  {
    if |s| > 0 {
      SplitPiecesFree(s[1..], sep);
    }
  }

  /** Splitting a string that does not contain the separator gives the string itself. */
  lemma {:induction false} SplitNoSep(s: string, sep: char)
    requires sep !in s
    ensures Split(s, sep) == [s]
    decreases |s|
  {
    if |s| > 0 {
      SplitNoSep(s[1..], sep);
      assert [s[0]] + s[1..] == s;
    }
  }

  /** Splitting at the first separator. */
  lemma {:induction false} SplitFirst(a: string, sep: char, rest: string)
    requires sep !in a
    ensures Split(a + [sep] + rest, sep) == [a] + Split(rest, sep)
    decreases |a|
  {
    if |a| == 0 {
      assert a + [sep] + rest == [sep] + rest;
      assert ([sep] + rest)[1..] == rest;
    } else {
      var s := a + [sep] + rest;
      assert s[0] == a[0];
      assert s[1..] == a[1..] + [sep] + rest;
      SplitFirst(a[1..], sep, rest);
      assert [a[0]] + a[1..] == a;
    }
  }

  /** Split is the inverse of Join when no piece contains the separator. */
  lemma {:induction false} SplitJoin(parts: seq<string>, sep: char)
    requires |parts| >= 1
    requires forall i :: 0 <= i < |parts| ==> sep !in parts[i]
    ensures Split(Join(parts, [sep]), sep) == parts
  {
    if |parts| == 1 {
      SplitNoSep(parts[0], sep);
    } else {
      SplitJoin(parts[1..], sep);
      SplitFirst(parts[0], sep, Join(parts[1..], [sep]));
      assert [parts[0]] + parts[1..] == parts;
    }
  }

  /** Join is the inverse of Split. */
  lemma {:induction false} JoinSplit(s: string, sep: char)
    ensures Join(Split(s, sep), [sep]) == s
    decreases |s|
  {
    if |s| > 0 {
      JoinSplit(s[1..], sep);
      var rest := Split(s[1..], sep);
      if s[0] != sep {
        if |rest| > 1 {
          assert ([[s[0]] + rest[0]] + rest[1..])[1..] == rest[1..];
        }
      }
    }
  }

  // ---------------------------------------------------------------- searching

  /** strings.HasPrefix. */
  predicate HasPrefix(s: string, p: string)
  {
    |p| <= |s| && s[..|p|] == p
  }

  /** strings.HasSuffix. */
  predicate HasSuffix(s: string, p: string)
  {
    |p| <= |s| && s[|s| - |p|..] == p
  }

  /** strings.Contains. */
  predicate Contains(s: string, sub: string)
    decreases |s|
  {
    HasPrefix(s, sub) || (|s| > 0 && Contains(s[1..], sub))
  }

  /** strings.Count for a non-empty pattern: non-overlapping occurrences, leftmost first. */
  function Count(s: string, sub: string): nat
    requires |sub| > 0
    decreases |s|
  {
    if |s| < |sub| then 0
    else if s[..|sub|] == sub then 1 + Count(s[|sub|..], sub)
    else Count(s[1..], sub)
  }

  /** A pattern occurs in s exactly when strings.Count finds it at least once. */
  lemma {:induction false} CountPositiveIffContains(s: string, sub: string)
    requires |sub| > 0
    ensures Count(s, sub) > 0 <==> Contains(s, sub)
    decreases |s|
  {
    if |s| >= |sub| && s[..|sub|] != sub {
      CountPositiveIffContains(s[1..], sub);
    } else if |s| < |sub| {
      NotContainsShort(s, sub);
    }
  }

  /** A string shorter than a pattern does not contain it. */
  lemma {:induction false} NotContainsShort(s: string, sub: string)
    requires |s| < |sub|
    ensures !Contains(s, sub)
    decreases |s|
  {
    if |s| > 0 {
      NotContainsShort(s[1..], sub);
    }
  }

  /** A string contains whatever occurs anywhere inside it. */
  lemma {:induction false} ContainsInfix(p: string, sub: string, s: string)
    ensures Contains(p + sub + s, sub)
    decreases |p|
  {
    if |p| == 0 {
      assert p + sub + s == sub + s;
      assert (sub + s)[..|sub|] == sub;
    } else {
      ContainsInfix(p[1..], sub, s);
      assert (p + sub + s)[1..] == p[1..] + sub + s;
    }
  }

  /** Every character of a contained pattern occurs in the string. */
  lemma {:induction false} ContainsChars(s: string, sub: string, i: nat)
    requires Contains(s, sub) && i < |sub|
    ensures sub[i] in s
    decreases |s|
  {
    if HasPrefix(s, sub) {
      assert s[i] == sub[i];
    } else {
      ContainsChars(s[1..], sub, i);
    }
  }

  // ---------------------------------------------------------------- trimming

  /** unicode.IsSpace. */
  predicate IsSpace(c: char)
  {
    c == '\t' || c == '\n' || c == '\U{000B}' || c == '\U{000C}' || c == '\r' || c == ' '
    || c == '\U{0085}' || c == '\U{00A0}' || c == '\U{1680}'
    || ('\U{2000}' <= c <= '\U{200A}') || c == '\U{2028}' || c == '\U{2029}'
    || c == '\U{202F}' || c == '\U{205F}' || c == '\U{3000}'
  }

  /** strings.TrimLeft(s, white space). */
  function TrimLeftSpace(s: string): (r: string)
    ensures |r| <= |s|
    decreases |s|
  {
    if |s| > 0 && IsSpace(s[0]) then TrimLeftSpace(s[1..]) else s
  }

  /** strings.TrimRight(s, white space). */
  function TrimRightSpace(s: string): (r: string)
    ensures |r| <= |s|
    decreases |s|
  {
    if |s| > 0 && IsSpace(s[|s| - 1]) then TrimRightSpace(s[..|s| - 1]) else s
  }

  /** strings.TrimSpace. */
  function TrimSpace(s: string): string
  {
    TrimRightSpace(TrimLeftSpace(s))
  }

  function TrimLeftChar(s: string, c: char): (r: string)
    decreases |s|
  {
    if |s| > 0 && s[0] == c then TrimLeftChar(s[1..], c) else s
  }

  function TrimRightChar(s: string, c: char): (r: string)
    decreases |s|
  {
    if |s| > 0 && s[|s| - 1] == c then TrimRightChar(s[..|s| - 1], c) else s
  }

  /** strings.Trim(s, string(c)). */
  function Trim(s: string, c: char): string
  {
    TrimRightChar(TrimLeftChar(s, c), c)
  }

  // ---------------------------------------------------------------- bytes and ordering

  /** Number of bytes of the UTF-8 encoding of one rune. */
  function RuneLen(c: char): nat
  {
    if c as int < 0x80 then 1
    else if c as int < 0x800 then 2
    else if c as int < 0x10000 then 3
    else 4
  }

  /** len(s) in Go: the byte length of the UTF-8 encoding. */
  function Utf8Len(s: string): nat
  {
    if |s| == 0 then 0 else RuneLen(s[0]) + Utf8Len(s[1..])
  }

  /** A string has at least as many bytes as runes. */
  lemma {:induction false} Utf8LenAtLeastRunes(s: string)
    ensures Utf8Len(s) >= |s|
  {
    if |s| > 0 {
      Utf8LenAtLeastRunes(s[1..]);
    }
  }

  /** Go's `<` on strings. */
  predicate Less(a: string, b: string)
    decreases |a|
  {
    if |a| == 0 then |b| > 0
    else if |b| == 0 then false
    else if a[0] != b[0] then a[0] < b[0]
    else Less(a[1..], b[1..])
  }

  predicate LessEq(a: string, b: string)
  {
    !Less(b, a)
  }

  /** No string is below itself. */
  lemma {:induction false} LessIrreflexive(a: string)
    ensures !Less(a, a)
    decreases |a|
  {
    if |a| > 0 {
      LessIrreflexive(a[1..]);
    }
  }

  /** Go's string order is transitive. */
  lemma {:induction false} LessTransitive(a: string, b: string, c: string)
    requires Less(a, b) && Less(b, c)
    ensures Less(a, c)
    decreases |a|
  {
    if |a| > 0 && |b| > 0 && |c| > 0 && a[0] == b[0] && b[0] == c[0] {
      LessTransitive(a[1..], b[1..], c[1..]);
    }
  }

  /** Go's string order is total. */
  lemma {:induction false} LessTotal(a: string, b: string)
    ensures a == b || Less(a, b) || Less(b, a)
    decreases |a|
  {
    if |a| > 0 && |b| > 0 && a[0] == b[0] {
      LessTotal(a[1..], b[1..]);
      if a[1..] == b[1..] {
        assert a == [a[0]] + a[1..] && b == [b[0]] + b[1..];
      }
    }
  }

  /** `<=` derived from `<` is transitive. */
  lemma LessEqTransitive(a: string, b: string, c: string)
    requires LessEq(a, b) && LessEq(b, c)
    ensures LessEq(a, c)
  {
    if Less(c, a) {
      LessTotal(a, b);
      LessTotal(b, c);
      if a == b {
      } else if b == c {
      } else {
        LessTransitive(c, a, b);
      }
    }
  }

  // ---------------------------------------------------------------- integers

  predicate IsDigit(c: char)
  {
    '0' <= c <= '9'
  }

  predicate AllDigits(s: string)
  {
    forall i :: 0 <= i < |s| ==> IsDigit(s[i])
  }

  function DigitChar(d: nat): char
    requires d < 10
  {
    ('0' as int + d) as char
  }

  /** The value of a string of decimal digits. */
  function DigitsValue(s: string): nat
    requires AllDigits(s)
  {
    if |s| == 0 then 0
    else DigitsValue(s[..|s| - 1]) * 10 + (s[|s| - 1] as int - '0' as int)
  }

  /** Decimal rendering of a natural number, most significant digit first. */
  function FormatNat(n: nat): (s: string)
    ensures |s| >= 1 && AllDigits(s)
  {
    if n < 10 then [DigitChar(n)] else FormatNat(n / 10) + [DigitChar(n % 10)]
  }

  /** strconv.FormatInt(n, 10). */
  function FormatInt(n: int): string
  {
    if n < 0 then "-" + FormatNat(-n) else FormatNat(n)
  }

  /** strconv.FormatBool. */
  function FormatBool(b: bool): string
  {
    if b then "true" else "false"
  }

  /** strconv.ParseInt(s, 10, 0) on a 64-bit platform: an optional sign, at least one decimal
      digit, and a value within int64; anything else is an error. */
  function ParseInt(s: string): Result<int>
  {
    var body := if |s| > 0 && (s[0] == '+' || s[0] == '-') then s[1..] else s;
    if |body| == 0 || !AllDigits(body) then
      Err(Plain("strconv.ParseInt: parsing \"" + s + "\": invalid syntax"))
    else
      var v := DigitsValue(body);
      var n: int := if |s| > 0 && s[0] == '-' then 0 - (v as int) else v;
      if n < MinInt64 || n > MaxInt64 then
        Err(Plain("strconv.ParseInt: parsing \"" + s + "\": value out of range"))
      else Ok(n)
  }

  /** A parsed integer is in Go's 64-bit range. */
  lemma ParseIntRange(s: string)
    ensures ParseInt(s).Ok? ==> MinInt64 <= ParseInt(s).value <= MaxInt64
  {
  }

  /** strconv.ParseBool. */
  function ParseBool(s: string): Result<bool>
  {
    if s in {"1", "t", "T", "TRUE", "true", "True"} then Ok(true)
    else if s in {"0", "f", "F", "FALSE", "false", "False"} then Ok(false)
    else Err(Plain("strconv.ParseBool: parsing \"" + s + "\": invalid syntax"))
  }

  /** The digits of a rendering evaluate back to the number. */
  lemma {:induction false} DigitsValueFormatNat(n: nat)
    ensures DigitsValue(FormatNat(n)) == n
  {
    if n >= 10 {
      var s := FormatNat(n);
      DigitsValueFormatNat(n / 10);
      assert s[..|s| - 1] == FormatNat(n / 10);
    }
  }

  /** ParseInt inverts FormatInt on every int64 value. */
  lemma ParseFormatInt(n: int)
    requires MinInt64 <= n <= MaxInt64
    ensures ParseInt(FormatInt(n)) == Ok(n)
  {
    if n < 0 {
      DigitsValueFormatNat(-n);
      assert ("-" + FormatNat(-n))[1..] == FormatNat(-n);
    } else {
      DigitsValueFormatNat(n);
      assert IsDigit(FormatNat(n)[0]);
    }
  }

  /** ParseBool inverts FormatBool. */
  lemma ParseFormatBool(b: bool)
    ensures ParseBool(FormatBool(b)) == Ok(b)
  {
  }

  /** Decimal renderings of distinct integers differ. */
  lemma FormatIntInjective(a: int, b: int)
    requires MinInt64 <= a <= MaxInt64 && MinInt64 <= b <= MaxInt64
    requires FormatInt(a) == FormatInt(b)
    ensures a == b
  {
    ParseFormatInt(a);
    ParseFormatInt(b);
  }
}
