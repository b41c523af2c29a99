/**
 * The JavaScript string operations the application relies on, written out
 * over `seq<char>`: the `\s` character class (which `String.prototype.trim`
 * also strips), trimming, case mapping, `includes`, `startsWith`, the
 * UTF-16 `length`, and decimal rendering of natural numbers with
 * `padStart(2, '0')`.
 */
module JsText {
  import opened Wrappers

  /** The members of the JavaScript `\s` class (WhiteSpace and LineTerminator). */
  predicate IsWhitespace(c: char) {
    var n := c as int;
    (9 <= n <= 13) || n == 32 || n == 0xA0 || n == 0x1680 || (0x2000 <= n <= 0x200A)
    || n == 0x2028 || n == 0x2029 || n == 0x202F || n == 0x205F || n == 0x3000 || n == 0xFEFF
  }

  predicate AllWhitespace(s: string) {
    forall k :: 0 <= k < |s| ==> IsWhitespace(s[k])
  }

  /** The first index at or after `from` that does not hold whitespace, or `|s|`. */
  function SkipWhitespace(s: string, from: nat): (i: nat)
    requires from <= |s|
    ensures from <= i <= |s|
    ensures forall k :: from <= k < i ==> IsWhitespace(s[k])
    ensures i == |s| || !IsWhitespace(s[i])
    decreases |s| - from
  {
    if from < |s| && IsWhitespace(s[from]) then SkipWhitespace(s, from + 1) else from
  }

  /** The last index at or before `to` that follows a non-whitespace character, or 0. */
  function BackWhitespace(s: string, to: nat): (j: nat)
    requires to <= |s|
    ensures j <= to
    ensures forall k :: j <= k < to ==> IsWhitespace(s[k])
    ensures j == 0 || !IsWhitespace(s[j - 1])
  {
    if to > 0 && IsWhitespace(s[to - 1]) then BackWhitespace(s, to - 1) else to
  }

  /** `trimStart`: drops the leading run of whitespace. */
  function TrimStart(s: string): (r: string)
    ensures |r| <= |s| && r == s[|s| - |r|..]
    ensures AllWhitespace(s[..|s| - |r|])
    ensures r == [] || !IsWhitespace(r[0])
  {
    var i := SkipWhitespace(s, 0);
    assert forall k :: 0 <= k < i ==> s[..i][k] == s[k];
    s[i..]
  }

  /** `trimEnd`: drops the trailing run of whitespace. */
  function TrimEnd(s: string): (r: string)
    ensures |r| <= |s| && r == s[..|r|]
    ensures AllWhitespace(s[|r|..])
    ensures r == [] || !IsWhitespace(r[|r| - 1])
  {
    var j := BackWhitespace(s, |s|);
    assert forall k :: 0 <= k < |s| - j ==> s[j..][k] == s[j + k];
    s[..j]
  }

  /**
   * `trim`: the part of `s` between its leading and trailing whitespace.
   * The result is empty exactly when `s` is all whitespace.
   */
  function Trim(s: string): (r: string)
    ensures r == [] || (!IsWhitespace(r[0]) && !IsWhitespace(r[|r| - 1]))
    ensures r == [] <==> AllWhitespace(s)
    ensures exists i :: OccursAt(s, r, i) && AllWhitespace(s[..i]) && AllWhitespace(s[i + |r|..])
  {
    TrimSlice(s);
    TrimEmpty(s);
    TrimEnd(TrimStart(s))
  }

  lemma AllWhitespaceConcat(a: string, b: string)
    requires AllWhitespace(a) && AllWhitespace(b)
    ensures AllWhitespace(a + b)
  {
    forall k | 0 <= k < |a + b| ensures IsWhitespace((a + b)[k]) {
      if k >= |a| { assert (a + b)[k] == b[k - |a|]; }
    }
  }

  /** Trimming keeps the slice between the two whitespace runs. */
  lemma TrimSlice(s: string)
    ensures var i, r := |s| - |TrimStart(s)|, TrimEnd(TrimStart(s));
      OccursAt(s, r, i) && AllWhitespace(s[..i]) && AllWhitespace(s[i + |r|..])
  {
    var t := TrimStart(s);
    var i := |s| - |t|;
    var r := TrimEnd(t);
    assert t == s[i..];
    assert OccursAt(s, r, i) by {
      assert s[i..i + |r|] == t[..|r|];
    }
    assert AllWhitespace(s[i + |r|..]) by {
      assert s[i + |r|..] == t[|r|..];
    }
  }

  lemma TrimEmpty(s: string)
    ensures TrimEnd(TrimStart(s)) == [] <==> AllWhitespace(s)
  {
    var i := SkipWhitespace(s, 0);
    var t := s[i..];
    assert TrimStart(s) == t;
    if AllWhitespace(s) {
      assert t == [];
    } else {
      var k :| 0 <= k < |s| && !IsWhitespace(s[k]);
      assert k >= i;
      assert t[k - i] == s[k];
      assert BackWhitespace(t, |t|) > k - i;
    }
  }

  /**
   * `toLowerCase` on one character, for the letters whose lower case is a
   * single character: ASCII, Latin-1 (`À`..`Þ` but not `×`), `Ÿ`, and the
   * basic Cyrillic capitals `Ѐ`..`Я`.  Every other character maps to itself.
   */
  function LowerChar(c: char): char {
    var n := c as int;
    if 'A' <= c <= 'Z' || (0xC0 <= n <= 0xDE && n != 0xD7) || 0x410 <= n <= 0x42F then (n + 32) as char
    else if 0x400 <= n <= 0x40F then (n + 80) as char
    else if n == 0x178 then 0xFF as char
    else c
  }

  /**
   * `toUpperCase` on one character, the inverse mapping: ASCII, Latin-1
   * (`à`..`þ` but not `÷`), `ÿ` to `Ÿ`, `µ` to `Μ`, and basic Cyrillic.
   * `ß`, whose upper case is the two characters `SS`, maps to itself.
   */
  function UpperChar(c: char): char {
    var n := c as int;
    if 'a' <= c <= 'z' || (0xE0 <= n <= 0xFE && n != 0xF7) || 0x430 <= n <= 0x44F then (n - 32) as char
    else if 0x450 <= n <= 0x45F then (n - 80) as char
    else if n == 0xFF then 0x178 as char
    else if n == 0xB5 then 0x39C as char
    else c
  }

  /** Within the mapped letters, upper-casing undoes lower-casing and back. */
  lemma CaseRoundTrip(c: char)
    ensures LowerChar(c) != c ==> UpperChar(LowerChar(c)) == c
    ensures UpperChar(c) != c && c as int != 0xB5 ==> LowerChar(UpperChar(c)) == c
  {
  }

  /** A character outside the Basic Multilingual Plane takes two UTF-16 code units. */
  function CodeUnits(c: char): nat {
    if c as int >= 0x10000 then 2 else 1
  }

  /** `s.length`: the number of UTF-16 code units of `s`. */
  function Utf16Length(s: string): (n: nat)
    ensures |s| <= n <= 2 * |s|
  {
    if s == [] then 0 else CodeUnits(s[0]) + Utf16Length(s[1..])
  }

  /** Inside the Basic Multilingual Plane the UTF-16 length is the number of characters. */
  lemma {:induction false} BmpLength(s: string)
    requires forall k :: 0 <= k < |s| ==> s[k] as int < 0x10000
    ensures Utf16Length(s) == |s|
  {
    if s != [] {
      assert forall k :: 0 <= k < |s[1..]| ==> s[1..][k] == s[k + 1];
      BmpLength(s[1..]);
    }
  }

  function ToLower(s: string): (r: string)
    ensures |r| == |s| && forall k :: 0 <= k < |s| ==> r[k] == LowerChar(s[k])
  {
    seq(|s|, k requires 0 <= k < |s| => LowerChar(s[k]))
  }

  function ToUpper(s: string): (r: string)
    ensures |r| == |s| && forall k :: 0 <= k < |s| ==> r[k] == UpperChar(s[k])
  {
    seq(|s|, k requires 0 <= k < |s| => UpperChar(s[k]))
  }

  /** `s.includes(sub)`: `sub` occurs in `s` at some position. */
  predicate Includes(s: string, sub: string) {
    sub <= s || (s != [] && Includes(s[1..], sub))
  }

  predicate OccursAt(s: string, sub: string, i: int) {
    0 <= i && i + |sub| <= |s| && s[i..i + |sub|] == sub
  }

  /** `includes` holds exactly when some position of `s` starts a copy of `sub`. */
  lemma {:induction false} IncludesIffOccurs(s: string, sub: string)
    ensures Includes(s, sub) <==> exists i :: OccursAt(s, sub, i)
  {
    if sub <= s {
      assert OccursAt(s, sub, 0);
    } else if s != [] {
      IncludesIffOccurs(s[1..], sub);
      if Includes(s[1..], sub) {
        var i :| OccursAt(s[1..], sub, i);
        assert s[1..][i..i + |sub|] == s[i + 1..i + 1 + |sub|];
        assert OccursAt(s, sub, i + 1);
      }
      assert !OccursAt(s, sub, 0);
      forall i | OccursAt(s, sub, i) && i > 0 ensures OccursAt(s[1..], sub, i - 1) {
        assert s[1..][i - 1..i - 1 + |sub|] == s[i..i + |sub|];
      }
    }
  }

  /** Every string includes the empty string. */
  lemma IncludesEmpty(s: string)
    ensures Includes(s, "")
  {
  }

  predicate StartsWith(s: string, prefix: string) {
    prefix <= s
  }

  function DigitChar(d: nat): char
    requires d < 10
  {
    "0123456789"[d]
  }

  /** `String(n)` for a non-negative integer: its shortest decimal digits. */
  function NatToString(n: nat): (r: string)
    ensures 1 <= |r|
    ensures forall k :: 0 <= k < |r| ==> '0' <= r[k] <= '9'
    ensures n < 10 <==> |r| == 1
    ensures n >= 10 ==> r[0] != '0'
  {
    if n < 10 then [DigitChar(n)] else NatToString(n / 10) + [DigitChar(n % 10)]
  }

  /** `n.toString().padStart(2, '0')`. */
  function Pad2(n: nat): (r: string)
    ensures n < 100 ==> |r| == 2
    ensures forall k :: 0 <= k < |r| ==> '0' <= r[k] <= '9'
  {
    if n < 10 then "0" + NatToString(n) else NatToString(n)
  }

  /** A string with no whitespace at either end is its own `trim`. */
  lemma TrimNoWhitespace(s: string)
    requires forall k :: 0 <= k < |s| ==> !IsWhitespace(s[k])
    ensures Trim(s) == s
  {
    var r := Trim(s);
    var i :| OccursAt(s, r, i) && AllWhitespace(s[..i]) && AllWhitespace(s[i + |r|..]);
    assert i == 0 && i + |r| == |s|;
  }

  /** `s.indexOf(c)` for one character: its first index, or -1. */
  function IndexOf(s: string, c: char): (r: int)
    ensures -1 <= r < |s|
    ensures r >= 0 ==> s[r] == c && forall k :: 0 <= k < r ==> s[k] != c
    ensures r < 0 ==> forall k :: 0 <= k < |s| ==> s[k] != c
  {
    if s == [] then -1
    else if s[0] == c then 0
    else
      var k := IndexOf(s[1..], c);
      assert forall j :: 1 <= j < |s| ==> s[j] == s[1..][j - 1];
      if k < 0 then -1 else k + 1
  }

  /** Trimming is idempotent. */
  lemma TrimTwice(s: string)
    ensures Trim(Trim(s)) == Trim(s)
  {
    var t := Trim(s);
    assert SkipWhitespace(t, 0) == 0;
    assert TrimStart(t) == t;
    assert BackWhitespace(t, |t|) == |t|;
    assert TrimEnd(t) == t;
  }

  lemma DigitCharValue(d: nat)
    requires d < 10
    ensures DigitChar(d) as int == '0' as int + d
  {
    if d == 0 {} else if d == 1 {} else if d == 2 {} else if d == 3 {} else if d == 4 {}
    else if d == 5 {} else if d == 6 {} else if d == 7 {} else if d == 8 {} else {}
  }

  /** Different numbers render differently. */
  lemma {:induction false} NatToStringInjective(a: nat, b: nat)
    requires NatToString(a) == NatToString(b)
    ensures a == b
  {
    if a < 10 && b < 10 {
      DigitCharValue(a);
      DigitCharValue(b);
      assert NatToString(a)[0] == DigitChar(a);
    } else if a >= 10 && b >= 10 {
      var sa, sb := NatToString(a / 10), NatToString(b / 10);
      assert NatToString(a) == sa + [DigitChar(a % 10)];
      assert NatToString(b) == sb + [DigitChar(b % 10)];
      assert |sa| == |sb|;
      assert sa == NatToString(a)[..|sa|] == NatToString(b)[..|sb|] == sb;
      assert DigitChar(a % 10) == NatToString(a)[|sa|] == NatToString(b)[|sb|] == DigitChar(b % 10);
      DigitCharValue(a % 10);
      DigitCharValue(b % 10);
      NatToStringInjective(a / 10, b / 10);
    }
  }

  /** `parts.join(sep)`. */
  function Join(parts: seq<string>, sep: string): (r: string)
    ensures parts == [] ==> r == ""
    ensures |parts| == 1 ==> r == parts[0]
  {
    if parts == [] then ""
    else if |parts| == 1 then parts[0]
    else Join(parts[..|parts| - 1], sep) + sep + parts[|parts| - 1]
  }

  /** Joining a part in front of a non-empty list puts one separator after it. */
  lemma {:induction false} JoinCons(x: string, parts: seq<string>, sep: string)
    requires parts != []
    ensures Join([x] + parts, sep) == x + sep + Join(parts, sep)
    decreases |parts|
  {
    var all := [x] + parts;
    if |parts| > 1 {
      var init := parts[..|parts| - 1];
      assert all[..|all| - 1] == [x] + init;
      JoinCons(x, init, sep);
      assert parts[|parts| - 1] == all[|all| - 1];
    } else {
      assert all[..|all| - 1] == [x];
    }
  }

  /** `s.split(c)` for a one-character separator: the pieces between separators, at least one. */
  function Split(s: string, c: char): (r: seq<string>)
    ensures |r| >= 1
    ensures forall k :: 0 <= k < |r| ==> c !in r[k]
    decreases |s|
  {
    var i := IndexOf(s, c);
    if i < 0 then [s]
    else
      NotBeforeIndex(s, c, i);
      [s[..i]] + Split(s[i + 1..], c)
  }

  lemma NotBeforeIndex(s: string, c: char, i: int)
    requires 0 <= i <= |s| && forall k :: 0 <= k < i ==> s[k] != c
    ensures c !in s[..i]
  {
    forall k | 0 <= k < i ensures s[..i][k] != c { assert s[..i][k] == s[k]; }
  }

  /** Joining the pieces of a split with the separator gives the string back. */
  lemma {:induction false} JoinSplit(s: string, c: char)
    ensures Join(Split(s, c), [c]) == s
    decreases |s|
  {
    var i := IndexOf(s, c);
    if i >= 0 {
      var tail := Split(s[i + 1..], c);
      assert Split(s, c) == [s[..i]] + tail;
      JoinSplit(s[i + 1..], c);
      RejoinAt(s, c, i, tail);
    } else {
      assert Split(s, c) == [s];
    }
  }

  lemma RejoinAt(s: string, c: char, i: int, tail: seq<string>)
    requires 0 <= i < |s| && s[i] == c && tail != [] && Join(tail, [c]) == s[i + 1..]
    ensures Join([s[..i]] + tail, [c]) == s
  {
    JoinCons(s[..i], tail, [c]);
    assert s == s[..i] + [c] + s[i + 1..];
  }

  /** Splitting a join of separator-free pieces gives the pieces back. */
  lemma {:induction false} SplitJoin(parts: seq<string>, c: char)
    requires parts != [] && forall k :: 0 <= k < |parts| ==> c !in parts[k]
    ensures Split(Join(parts, [c]), c) == parts
    decreases |parts|
  {
    if |parts| > 1 {
      var rest := parts[1..];
      assert parts == [parts[0]] + rest;
      JoinCons(parts[0], rest, [c]);
      var j := Join(parts, [c]);
      assert j == parts[0] + [c] + Join(rest, [c]);
      assert IndexOf(j, c) == |parts[0]| by {
        assert j[|parts[0]|] == c;
        assert forall k :: 0 <= k < |parts[0]| ==> j[k] == parts[0][k];
      }
      assert j[..|parts[0]|] == parts[0];
      assert j[|parts[0]| + 1..] == Join(rest, [c]);
      SplitJoin(rest, c);
    } else {
      assert c !in parts[0];
    }
  }

  predicate IsDigit(c: char) {
    '0' <= c <= '9'
  }

  /** The longest run of decimal digits at the start of `s`. */
  function LeadingDigits(s: string): (r: string)
    ensures r <= s && forall k :: 0 <= k < |r| ==> IsDigit(r[k])
    ensures |r| == |s| || !IsDigit(s[|r|])
  {
    if s != [] && IsDigit(s[0]) then [s[0]] + LeadingDigits(s[1..]) else []
  }

  /** The value of a string of decimal digits. */
  function DigitsValue(s: string): (n: nat)
    requires forall k :: 0 <= k < |s| ==> IsDigit(s[k])
  {
    if s == [] then 0
    else
      assert IsDigit(s[|s| - 1]);
      DigitsValue(s[..|s| - 1]) * 10 + (s[|s| - 1] as int - '0' as int)
  }

  /** A hexadecimal digit, in either case. */
  predicate IsHexDigit(c: char) {
    IsDigit(c) || 'a' <= c <= 'f' || 'A' <= c <= 'F'
  }

  /** The value of one hexadecimal digit. */
  function HexDigitValue(c: char): (n: nat)
    requires IsHexDigit(c)
    ensures n < 16
    ensures IsDigit(c) ==> n == c as int - '0' as int
  {
    if IsDigit(c) then c as int - '0' as int
    else if 'a' <= c <= 'f' then c as int - 'a' as int + 10
    else c as int - 'A' as int + 10
  }

  /** The longest prefix of `s` made of hexadecimal digits. */
  function LeadingHexDigits(s: string): (r: string)
    ensures r <= s && forall k :: 0 <= k < |r| ==> IsHexDigit(r[k])
    ensures |r| == |s| || !IsHexDigit(s[|r|])
  {
    if s != [] && IsHexDigit(s[0]) then [s[0]] + LeadingHexDigits(s[1..]) else []
  }

  /** The value of a string of hexadecimal digits. */
  function HexValue(s: string): (n: nat)
    requires forall k :: 0 <= k < |s| ==> IsHexDigit(s[k])
  {
    if s == [] then 0
    else
      assert IsHexDigit(s[|s| - 1]);
      HexValue(s[..|s| - 1]) * 16 + HexDigitValue(s[|s| - 1])
  }

  /** The text starts with `0x` or `0X`. */
  predicate HexPrefixed(u: string) {
    |u| >= 2 && u[0] == '0' && (u[1] == 'x' || u[1] == 'X')
  }

  /**
   * The digits `parseInt` reads after the sign: base 16 after `0x` or
   * `0X`, base 10 otherwise, as many as follow; `None` when none follow.
   */
  function UnsignedPart(u: string): (r: Option<int>)
    ensures r.Some? ==> r.value >= 0
    ensures !HexPrefixed(u) ==> (r.None? <==> LeadingDigits(u) == [])
    ensures HexPrefixed(u) ==> (r.None? <==> LeadingHexDigits(u[2..]) == [])
    ensures r.Some? ==> u != []
  {
    if HexPrefixed(u) then
      var h := LeadingHexDigits(u[2..]);
      if h == [] then None else Some(HexValue(h))
    else
      var d := LeadingDigits(u);
      if d == [] then None else Some(DigitsValue(d))
  }

  /**
   * `parseInt(s)` with no radix: leading whitespace is skipped and one sign
   * is read; a following `0x` or `0X` selects base 16, otherwise the base
   * is 10; then as many digits of that base as follow are read.  `None`
   * stands for `NaN`, the result when no digit follows (`"0x"` alone is
   * `NaN`, not 0).
   */
  function ParseInt(s: string): (r: Option<int>)
    ensures r.None? <==> UnsignedPart(SignFree(TrimStart(s))).None?
    ensures r.Some? && TrimStart(s)[0] == '-' ==> r.value == -UnsignedPart(SignFree(TrimStart(s))).value
    ensures r.Some? && TrimStart(s)[0] != '-' ==> r.value == UnsignedPart(SignFree(TrimStart(s))).value
  {
    var t := TrimStart(s);
    match UnsignedPart(SignFree(t))
    case None => None
    case Some(v) => if t[0] == '-' then Some(-v) else Some(v)
  }

  /** `parseInt` honours the hexadecimal prefix: "0x1f" is 31. */
  lemma ParseHex()
    ensures ParseInt("0x1f") == Some(31)
  {
    var s := "0x1f";
    UnsignedText(s);
    assert s[2..] == "1f" && HexDigitValue('f') == 15;
    HexDigitsAfterPrefix(s, "1f", 31);
  }

  /** The sign comes before the prefix: "-0X10" is -16. */
  lemma ParseNegativeHex()
    ensures ParseInt("-0X10") == Some(-16)
  {
    var s := "-0X10";
    assert TrimStart(s) == s by {
      assert SkipWhitespace(s, 0) == 0;
    }
    assert SignFree(s) == "0X10";
    HexDigitsAfterPrefix("0X10", "10", 16);
  }

  /** The prefix with no digit after it is `NaN`, not 0. */
  lemma ParseBarePrefix()
    ensures ParseInt("0x") == None
  {
    var s := "0x";
    UnsignedText(s);
    assert HexPrefixed(s) && s[2..] == [];
  }

  /** Text that starts with neither whitespace nor a sign is read by `UnsignedPart` alone. */
  lemma UnsignedText(s: string)
    requires s != [] && !IsWhitespace(s[0]) && s[0] != '+' && s[0] != '-'
    ensures ParseInt(s) == UnsignedPart(s)
  {
    assert SkipWhitespace(s, 0) == 0;
    assert SignFree(s) == s;
  }

  /** Two hexadecimal digits after the prefix are read as their value. */
  lemma HexDigitsAfterPrefix(u: string, d: string, v: nat)
    requires |u| == 4 && HexPrefixed(u) && d == u[2..]
    requires IsHexDigit(d[0]) && IsHexDigit(d[1])
    requires v == HexDigitValue(d[0]) * 16 + HexDigitValue(d[1])
    ensures UnsignedPart(u) == Some(v)
  {
    assert LeadingHexDigits(d) == d by {
      assert LeadingHexDigits(d[1..][1..]) == [];
      assert LeadingHexDigits(d[1..]) == d[1..];
    }
    assert HexValue(d) == v by {
      assert d[..1][..0] == [];
      assert HexValue(d[..1]) == HexDigitValue(d[0]);
    }
  }

  /** The text after one leading `+` or `-`. */
  function SignFree(t: string): (r: string)
    ensures r == t || (t != [] && (t[0] == '+' || t[0] == '-') && r == t[1..])
  {
    if t != [] && (t[0] == '+' || t[0] == '-') then t[1..] else t
  }

  /** `String(n)` for any integer. */
  function IntToString(n: int): (r: string)
    ensures n >= 0 ==> r == NatToString(n)
    ensures n < 0 ==> r == "-" + NatToString(-n)
  {
    if n < 0 then "-" + NatToString(-n) else NatToString(n)
  }

  /** A two-digit rendering is its tens digit then its units digit. */
  lemma Pad2Digits(n: nat)
    requires n < 100
    ensures Pad2(n) == [DigitChar(n / 10), DigitChar(n % 10)]
  {
    if n >= 10 {
      assert NatToString(n) == NatToString(n / 10) + [DigitChar(n % 10)];
    }
  }

  /** `parseInt` reads a two-digit rendering back as the number. */
  lemma ParsePad2(n: nat)
    requires n < 100
    ensures ParseInt(Pad2(n)) == Some(n)
  {
    var q, r := n / 10, n % 10;
    assert n == q * 10 + r;
    Pad2Digits(n);
    DigitCharValue(q);
    DigitCharValue(r);
    var p := Pad2(n);
    assert p[0] == DigitChar(q) && p[1] == DigitChar(r);
    ParseTwoDigits(p);
  }

  lemma ParseTwoDigits(p: string)
    requires |p| == 2 && IsDigit(p[0]) && IsDigit(p[1])
    ensures ParseInt(p) == Some((p[0] as int - '0' as int) * 10 + (p[1] as int - '0' as int))
  {
    var v := (p[0] as int - '0' as int) * 10 + (p[1] as int - '0' as int);
    assert TrimStart(p) == p by {
      assert SkipWhitespace(p, 0) == 0;
    }
    assert SignFree(p) == p;
    assert LeadingDigits(p) == p by {
      assert LeadingDigits(p[1..][1..]) == [];
      assert LeadingDigits(p[1..]) == p[1..];
    }
    assert DigitsValue(p) == v by {
      assert p[..1][..0] == [];
      assert DigitsValue(p[..1]) == p[0] as int - '0' as int;
    }
    assert UnsignedPart(p) == Some(v) by {
      assert !HexPrefixed(p);
    }
  }
}
