/**
 * The few Python text built-ins the bot relies on: `str.split` with a
 * one-character separator, `str(n)` / f-string rendering of an `int`, and
 * `int(s)` parsing a base-10 string.
 */
module PyText {
  import opened Wrappers

  // ---------------------------------------------------------------------------
  // Characters
  // ---------------------------------------------------------------------------

  /**
   * The whitespace `int()` skips at both ends of its argument: the ASCII space
   * and tab-to-carriage-return characters, and the non-ASCII characters
   * `str.isspace()` accepts. The ASCII separators U+001C..U+001F pass
   * `str.isspace()` but are not skipped by `int()`.
   */
  predicate IsIntSpace(c: char)
  {
    var n := c as int;
    (0x09 <= n <= 0x0D) || n == 0x20 || n == 0x85 || n == 0xA0 || n == 0x1680
    || (0x2000 <= n <= 0x200A) || n == 0x2028 || n == 0x2029 || n == 0x202F
    || n == 0x205F || n == 0x3000
  }

  predicate IsDigit(c: char)
  {
    '0' <= c <= '9'
  }

  predicate AllDigits(s: string)
  {
    forall i :: 0 <= i < |s| ==> IsDigit(s[i])
  }

  function DigitChar(d: nat): (c: char)
    requires d < 10
    ensures IsDigit(c) && DigitValue(c) == d
  {
    (48 + d) as char
  }

  function DigitValue(c: char): (d: nat)
    requires IsDigit(c)
    ensures d < 10
  {
    c as int - '0' as int
  }

  // ---------------------------------------------------------------------------
  // str(n): decimal rendering of an int
  // ---------------------------------------------------------------------------

  /** Decimal digits of `n`, without leading zeros (str(n) for n >= 0). */
  function NatToDecimal(n: nat): (s: string)
    ensures |s| > 0 && AllDigits(s)
    ensures s[0] == '0' ==> n == 0
  {
    if n < 10 then [DigitChar(n)] else NatToDecimal(n / 10) + [DigitChar(n % 10)]
  }

  /** `str(i)`, which is also what an f-string writes for an int. */
  function IntToDecimal(i: int): (s: string)
    ensures |s| > 0
    ensures i >= 0 ==> AllDigits(s)
    ensures i < 0 ==> |s| > 1 && s[0] == '-' && AllDigits(s[1..])
  {
    if i < 0 then "-" + NatToDecimal(-i) else NatToDecimal(i)
  }

  /** The value of a string of decimal digits (leading zeros allowed). */
  function DigitsValue(s: string): nat
    requires AllDigits(s)
  {
    if s == [] then 0 else 10 * DigitsValue(s[..|s| - 1]) + DigitValue(s[|s| - 1])
  }

  lemma {:induction false} DigitsValueOfDecimal(n: nat)
    ensures DigitsValue(NatToDecimal(n)) == n
  {
    if n >= 10 {
      var s := NatToDecimal(n);
      assert s[..|s| - 1] == NatToDecimal(n / 10);
      DigitsValueOfDecimal(n / 10);
    }
  }

  // ---------------------------------------------------------------------------
  // int(s): parsing a base-10 string
  // ---------------------------------------------------------------------------

  function StripLeft(s: string): (r: string)
    ensures |r| <= |s| && r == s[|s| - |r|..]
    ensures forall i :: 0 <= i < |s| - |r| ==> IsIntSpace(s[i])
    ensures r != [] ==> !IsIntSpace(r[0])
  {
    if s != [] && IsIntSpace(s[0]) then StripLeft(s[1..]) else s
  }

  function StripRight(s: string): (r: string)
    ensures |r| <= |s| && r == s[..|r|]
    ensures forall i :: |r| <= i < |s| ==> IsIntSpace(s[i])
    ensures r != [] ==> !IsIntSpace(r[|r| - 1])
  {
    if s != [] && IsIntSpace(s[|s| - 1]) then StripRight(s[..|s| - 1]) else s
  }

  /**
   * The whitespace trimming `int()` does: the result is the part of `s` left
   * after dropping the `IsIntSpace` characters at both ends.
   */
  function Strip(s: string): (r: string)
    ensures |r| <= |s|
    ensures r != [] ==> !IsIntSpace(r[0]) && !IsIntSpace(r[|r| - 1])
  {
    StripRight(StripLeft(s))
  }

  /**
   * The digit part `int()` accepts: decimal digits, where a single `_` may
   * separate two digits.
   */
  predicate IsDigitGroups(s: string)
  {
    && |s| > 0 && IsDigit(s[0]) && IsDigit(s[|s| - 1])
    && (forall i :: 0 <= i < |s| ==> IsDigit(s[i]) || s[i] == '_')
    && (forall i :: 0 <= i < |s| - 1 ==> s[i] == '_' ==> s[i + 1] != '_')
  }

  function Underscoreless(s: string): (r: string)
    requires forall i :: 0 <= i < |s| ==> IsDigit(s[i]) || s[i] == '_'
    ensures AllDigits(r)
  {
    if s == [] then [] else (if s[0] == '_' then [] else [s[0]]) + Underscoreless(s[1..])
  }

  lemma {:induction false} UnderscorelessOfDigits(s: string)
    requires AllDigits(s)
    ensures Underscoreless(s) == s
  {
    if s != [] {
      UnderscorelessOfDigits(s[1..]);
    }
  }

  function DigitGroupsValue(s: string): nat
    requires IsDigitGroups(s)
  {
    DigitsValue(Underscoreless(s))
  }

  /**
   * `int(s)` for a `str` argument in base 10: `Some(value)`, or `None` where
   * Python raises `ValueError`.
   */
  function ParseInt(s: string): (r: Option<int>)
    ensures r.Some? ==>
      var t := Strip(s);
      && t != [] && IsDigit(t[|t| - 1])
      && (r.value < 0 ==> t[0] == '-')
  {
    ParseStripped(Strip(s))
  }

  /** What `int()` makes of its argument once the whitespace is trimmed: an optional sign, then digit groups. */
  function ParseStripped(t: string): (r: Option<int>)
    ensures r.Some? ==> t != [] && IsDigit(t[|t| - 1]) && (r.value < 0 ==> t[0] == '-')
  {
    if t != [] && (t[0] == '+' || t[0] == '-') then
      var body := t[1..];
      if IsDigitGroups(body) then
        var v: int := DigitGroupsValue(body);
        Some(if t[0] == '-' then -v else v)
      else None
    else if IsDigitGroups(t) then Some(DigitGroupsValue(t))
    else None
  }

  /** `int()` refuses every string without a decimal digit in it, the empty one among them. */
  lemma ParseIntNeedsDigit(s: string)
    requires ParseInt(s).Some?
    ensures exists i :: 0 <= i < |s| && IsDigit(s[i])
  {
    var l := StripLeft(s);
    var t := StripRight(l);
    var k := |s| - |l|;
    var j := if t[0] == '+' || t[0] == '-' then 1 else 0;
    assert IsDigit(t[j]);
    assert t[j] == l[j] == s[k + j];
  }

  /** Leading `IsIntSpace` characters are all dropped. */
  lemma {:induction false} StripLeftSkips(pad: string, s: string)
    requires forall i :: 0 <= i < |pad| ==> IsIntSpace(pad[i])
    ensures StripLeft(pad + s) == StripLeft(s)
  {
    if pad == [] {
      assert pad + s == s;
    } else {
      assert (pad + s)[1..] == pad[1..] + s;
      StripLeftSkips(pad[1..], s);
    }
  }

  /** Trailing `IsIntSpace` characters are all dropped. */
  lemma {:induction false} StripRightSkips(s: string, pad: string)
    requires forall i :: 0 <= i < |pad| ==> IsIntSpace(pad[i])
    ensures StripRight(s + pad) == StripRight(s)
  {
    if pad == [] {
      assert s + pad == s;
    } else {
      assert (s + pad)[..|s + pad| - 1] == s + pad[..|pad| - 1];
      StripRightSkips(s, pad[..|pad| - 1]);
    }
  }

  /**
   * `int()` reads the same value, or raises alike, whatever whitespace it
   * skips surrounds the text: `int(' 5\n') == int('5')`.
   */
  lemma ParseIntSkipsSpace(pre: string, t: string, post: string)
    requires forall i :: 0 <= i < |pre| ==> IsIntSpace(pre[i])
    requires forall i :: 0 <= i < |post| ==> IsIntSpace(post[i])
    requires t != [] && !IsIntSpace(t[0]) && !IsIntSpace(t[|t| - 1])
    ensures ParseInt(pre + t + post) == ParseInt(t)
  {
    assert pre + t + post == pre + (t + post);
    StripLeftSkips(pre, t + post);
    assert StripLeft(t + post) == t + post by {
      assert (t + post)[0] == t[0];
    }
    StripRightSkips(t, post);
    StripUnpadded(t);
  }

  /**
   * `int()` raises on text that starts with one of the ASCII separators
   * U+001C..U+001F, e.g. `int('\x1c5')`: they are whitespace to
   * `str.isspace()` but `int()` does not skip them.
   */
  lemma ParseIntKeepsSeparator(c: char, t: string)
    requires 0x1C <= c as int <= 0x1F
    ensures ParseInt([c] + t) == None
  {
    var s := [c] + t;
    assert StripLeft(s) == s;
    var r := StripRight(s);
    assert !IsIntSpace(s[0]);
    assert Strip(s) == r && r[0] == c;
    assert !IsDigitGroups(r) && r[0] != '+' && r[0] != '-';
  }

  lemma StripUnpadded(s: string)
    requires s != [] && !IsIntSpace(s[0]) && !IsIntSpace(s[|s| - 1])
    ensures Strip(s) == s
  {
    assert StripLeft(s) == s;
  }

  lemma DigitGroupsOfDecimal(n: nat)
    ensures IsDigitGroups(NatToDecimal(n))
    ensures DigitGroupsValue(NatToDecimal(n)) == n
  {
    UnderscorelessOfDigits(NatToDecimal(n));
    DigitsValueOfDecimal(n);
  }

  /** `int(str(i)) == i` for every int. */
  lemma ParseIntOfDecimal(i: int)
    ensures ParseInt(IntToDecimal(i)) == Some(i)
  {
    var s := IntToDecimal(i);
    StripUnpadded(s);
    if i < 0 {
      DigitGroupsOfDecimal(-i);
      assert s[1..] == NatToDecimal(-i);
    } else {
      DigitGroupsOfDecimal(i);
    }
  }

  // ---------------------------------------------------------------------------
  // str.split and str.join with a one-character separator
  // ---------------------------------------------------------------------------

  /** `sep.join(parts)` for a non-empty list of parts. */
  function Join(parts: seq<string>, sep: char): string
    requires |parts| >= 1
  {
    if |parts| == 1 then parts[0] else parts[0] + [sep] + Join(parts[1..], sep)
  }

  /**
   * `s.split(sep)`: the pieces between occurrences of `sep`; an empty string
   * gives one empty piece.
   */
  function Split(s: string, sep: char): (parts: seq<string>)
    ensures |parts| >= 1
    ensures forall i :: 0 <= i < |parts| ==> sep !in parts[i]
    ensures Join(parts, sep) == s
  {
    if s == [] then [[]]
    else
      var rest := Split(s[1..], sep);
      if s[0] == sep then
        assert ([[]] + rest)[1..] == rest;
        [[]] + rest
      else
        var parts := [[s[0]] + rest[0]] + rest[1..];
        assert s == [s[0]] + s[1..];
        assert |rest| > 1 ==> parts[1..] == rest[1..];
        parts
  }

  lemma {:induction false} SplitWithoutSep(a: string, sep: char)
    requires sep !in a
    ensures Split(a, sep) == [a]
  {
    if a != [] {
      SplitWithoutSep(a[1..], sep);
      assert [a[0]] + a[1..] == a;
    }
  }

  lemma {:induction false} SplitAtFirstSep(a: string, sep: char, rest: string)
    requires sep !in a
    ensures Split(a + [sep] + rest, sep) == [a] + Split(rest, sep)
  {
    var s := a + [sep] + rest;
    if a == [] {
      assert s[1..] == rest;
    } else {
      assert s[1..] == a[1..] + [sep] + rest;
      SplitAtFirstSep(a[1..], sep, rest);
      assert [a[0]] + a[1..] == a;
    }
  }

  /** Splitting undoes joining when no part contains the separator. */
  lemma {:induction false} SplitOfJoin(parts: seq<string>, sep: char)
    requires |parts| >= 1
    requires forall i :: 0 <= i < |parts| ==> sep !in parts[i]
    ensures Split(Join(parts, sep), sep) == parts
  {
    if |parts| == 1 {
      SplitWithoutSep(parts[0], sep);
    } else {
      SplitOfJoin(parts[1..], sep);
      SplitAtFirstSep(parts[0], sep, Join(parts[1..], sep));
      assert [parts[0]] + parts[1..] == parts;
    }
  }

  // ---------------------------------------------------------------------------
  // Substrings
  // ---------------------------------------------------------------------------

  predicate OccursAt(s: string, part: string, i: int)
  {
    0 <= i <= |s| - |part| && s[i..i + |part|] == part
  }

  /** `part in s` for strings. */
  predicate Contains(s: string, part: string)
  {
    exists i :: 0 <= i <= |s| && OccursAt(s, part, i)
  }
}
