/**
 * The few `java.lang.String` operations the shop relies on, on Dafny strings
 * (one `char` per Unicode scalar value).
 */
module Text {
  import opened Wrappers

  /** What `\d` matches in a Java regular expression: the ASCII digits. */
  predicate IsDigit(c: char) { '0' <= c <= '9' }

  predicate AllDigits(s: string) { forall i :: 0 <= i < |s| ==> IsDigit(s[i]) }

  /** `Character.getNumericValue` on an ASCII digit. */
  function DigitVal(c: char): (d: nat)
    requires IsDigit(c)
    ensures d < 10
  { c as int - '0' as int }

  function DigitChar(d: nat): (c: char)
    requires d < 10
    ensures IsDigit(c) && DigitVal(c) == d
  { ('0' as int + d) as char }

  /** `s.replaceAll("\\D", "")`: keeps the digits, in order. */
  function StripNonDigits(s: string): (r: string)
    ensures AllDigits(r) && |r| <= |s|
  {
    if s == [] then []
    else (if IsDigit(s[0]) then [s[0]] else []) + StripNonDigits(s[1..])
  }

  /** A string of digits only is left as it is. */
  lemma {:induction false} StripKeepsDigits(s: string)
    ensures AllDigits(s) ==> StripNonDigits(s) == s
  {
    if s != [] && AllDigits(s) {
      assert AllDigits(s[1..]);
      StripKeepsDigits(s[1..]);
      assert [s[0]] + s[1..] == s;
    }
  }

  /** A string with a non-digit gets shorter. */
  lemma {:induction false} StripDropsNonDigit(s: string)
    ensures !AllDigits(s) ==> |StripNonDigits(s)| < |s|
  {
    if AllDigits(s) || !IsDigit(s[0]) {
    } else {
      assert !AllDigits(s[1..]) by {
        var i :| 0 <= i < |s| && !IsDigit(s[i]);
        assert s[1..][i - 1] == s[i];
      }
      StripDropsNonDigit(s[1..]);
    }
  }

  /** `String.trim` removes every leading and trailing code point up to U+0020. */
  predicate Trimmable(c: char) { c <= ' ' }

  function TrimStart(s: string): (r: string)
    ensures |r| <= |s|
    ensures r != [] ==> !Trimmable(r[0])
  {
    if s != [] && Trimmable(s[0]) then TrimStart(s[1..]) else s
  }

  function TrimEnd(s: string): (r: string)
    ensures |r| <= |s| && r == s[..|r|]
    ensures r != [] ==> !Trimmable(r[|r| - 1])
  {
    if s != [] && Trimmable(s[|s| - 1]) then TrimEnd(s[..|s| - 1]) else s
  }

  function Trim(s: string): (r: string)
    ensures |r| <= |s|
    ensures r != [] ==> !Trimmable(r[0]) && !Trimmable(r[|r| - 1])
  {
    TrimEnd(TrimStart(s))
  }

  /** `s.trim().isEmpty()`. */
  predicate IsBlank(s: string) { forall i :: 0 <= i < |s| ==> Trimmable(s[i]) }

  /** `s == null || s.trim().isEmpty()`. */
  predicate NullOrBlank(s: Option<string>) { s.None? || IsBlank(s.value) }

  lemma {:induction false} TrimStartOfBlank(s: string)
    ensures IsBlank(s) <==> TrimStart(s) == []
  {
    if s != [] && Trimmable(s[0]) {
      TrimStartOfBlank(s[1..]);
      assert IsBlank(s) <==> IsBlank(s[1..]);
    }
  }

  /** The blank test agrees with trimming to the empty string. */
  lemma BlankIffTrimEmpty(s: string)
    ensures IsBlank(s) <==> Trim(s) == []
  {
    TrimStartOfBlank(s);
    var t := TrimStart(s);
    assert t != [] ==> TrimEnd(t) != [] by {
      if t != [] { TrimEndKeepsFirst(t); }
    }
  }

  lemma {:induction false} TrimEndKeepsFirst(t: string)
    requires t != [] && !Trimmable(t[0])
    ensures TrimEnd(t) != []
  {
    if Trimmable(t[|t| - 1]) {
      assert |t| > 1;
      TrimEndKeepsFirst(t[..|t| - 1]);
    }
  }

  /** The characters of the regular-expression class `\s`. */
  predicate IsSpace(c: char) {
    c == ' ' || c == '\t' || c == '\n' || c == '\U{B}' || c == '\U{C}' || c == '\r'
  }

  function SkipSpaces(s: string): (r: string)
    ensures |r| <= |s|
    ensures r != [] ==> !IsSpace(r[0])
  {
    if s != [] && IsSpace(s[0]) then SkipSpaces(s[1..]) else s
  }

  /** Length of the run of non-space characters that starts `s`. */
  function WordLength(s: string): (n: nat)
    ensures n <= |s|
    ensures s != [] && !IsSpace(s[0]) ==> n >= 1
    ensures forall i :: 0 <= i < n ==> !IsSpace(s[i])
  {
    if s == [] || IsSpace(s[0]) then 0 else 1 + WordLength(s[1..])
  }

  /**
   * `s.split("\\s+")` for a string that `trim` has left without leading or
   * trailing white space: the maximal runs of non-space characters.
   */
  function Words(s: string): (ws: seq<string>)
    ensures forall i :: 0 <= i < |ws| ==> ws[i] != []
    decreases |s|
  {
    var t := SkipSpaces(s);
    if t == [] then []
    else
      var n := WordLength(t);
      [t[..n]] + Words(t[n..])
  }

  /** `Character.toLowerCase` on ASCII and Latin-1 letters. */
  function LowerChar(c: char): char {
    if 'A' <= c <= 'Z' || ('\U{C0}' <= c <= '\U{DE}' && c != '\U{D7}') then (c as int + 32) as char
    else c
  }

  function ToLower(s: string): (r: string)
    ensures |r| == |s| && forall i :: 0 <= i < |s| ==> r[i] == LowerChar(s[i])
  {
    seq(|s|, i requires 0 <= i < |s| => LowerChar(s[i]))
  }

  predicate StartsWith(s: string, prefix: string) {
    |prefix| <= |s| && s[..|prefix|] == prefix
  }

  /** `s.contains(sub)`. */
  predicate Contains(s: string, sub: string) {
    exists i :: 0 <= i <= |s| - |sub| && OccursAt(s, sub, i)
  }

  predicate OccursAt(s: string, sub: string, i: int)
    requires 0 <= i <= |s| - |sub|
  {
    s[i..i + |sub|] == sub
  }

  /** A string contains every piece it was concatenated from. */
  lemma ContainsPiece(a: string, b: string, c: string)
    ensures Contains(a + b + c, b)
  {
    assert OccursAt(a + b + c, b, |a|) by {
      assert (a + b + c)[|a|..|a| + |b|] == b;
    }
  }

  /** A string lacking one of the characters of `sub` cannot contain `sub`. */
  lemma NotContainsMissingChar(s: string, sub: string, c: char)
    requires c in sub && c !in s
    ensures !Contains(s, sub)
  {
  }

  /**
   * When `c` is absent from `a`, the only `c` of `a + [c]` is the last
   * character, so no longer piece starting with `c` occurs in it.
   */
  lemma NotContainsOnlyAtEnd(a: string, c: char, sub: string)
    requires c !in a && |sub| >= 2 && sub[0] == c
    ensures !Contains(a + [c], sub)
  {
    forall i | 0 <= i <= |a + [c]| - |sub|
      ensures !OccursAt(a + [c], sub, i)
    {
      assert (a + [c])[i] == a[i];
    }
  }

  lemma ContainsSelf(s: string)
    ensures Contains(s, s)
  {
    assert OccursAt(s, s, 0);
  }

  lemma ContainsInLeft(x: string, y: string, sub: string)
    requires Contains(x, sub)
    ensures Contains(x + y, sub)
  {
    var i :| 0 <= i <= |x| - |sub| && OccursAt(x, sub, i);
    assert (x + y)[i..i + |sub|] == x[i..i + |sub|];
    assert OccursAt(x + y, sub, i);
  }

  lemma ContainsInRight(x: string, y: string, sub: string)
    requires Contains(y, sub)
    ensures Contains(x + y, sub)
  {
    var i :| 0 <= i <= |y| - |sub| && OccursAt(y, sub, i);
    assert (x + y)[|x| + i..|x| + i + |sub|] == y[i..i + |sub|];
    assert OccursAt(x + y, sub, |x| + i);
  }

  function NatToString(n: nat): (r: string)
    ensures r != [] && AllDigits(r)
  {
    if n < 10 then [DigitChar(n)] else NatToString(n / 10) + [DigitChar(n % 10)]
  }

  /** `Long.toString`: decimal, with a minus sign for negatives and no leading zeros. */
  function LongToString(i: int): string {
    if i < 0 then "-" + NatToString(-i) else NatToString(i)
  }

  function DigitsValue(s: string): nat
    requires AllDigits(s)
  {
    if s == [] then 0 else DigitsValue(s[..|s| - 1]) * 10 + DigitVal(s[|s| - 1])
  }

  const MinLong := -0x8000_0000_0000_0000
  const MaxLong := 0x7FFF_FFFF_FFFF_FFFF

  /**
   * `Long.parseLong`: an optional sign and at least one digit, within the
   * 64-bit range; `None` where Java throws `NumberFormatException`.
   */
  function ParseLong(s: string): (r: Option<int>)
    ensures r.Some? ==> MinLong <= r.value <= MaxLong
  {
    if s == [] then None
    else
      var body := if s[0] == '-' || s[0] == '+' then s[1..] else s;
      if body == [] || !AllDigits(body) then None
      else
        var mag: int := DigitsValue(body);
        var v := if s[0] == '-' then -mag else mag;
        if MinLong <= v <= MaxLong then Some(v) else None
  }

  lemma {:induction false} NatToStringValue(n: nat)
    ensures DigitsValue(NatToString(n)) == n
  {
    if n >= 10 {
      NatToStringValue(n / 10);
      var s := NatToString(n);
      assert s[..|s| - 1] == NatToString(n / 10);
    }
  }

  /** Printing a 64-bit value and parsing it back gives the value again. */
  lemma ParseLongOfLongToString(i: int)
    requires MinLong <= i <= MaxLong
    ensures ParseLong(LongToString(i)) == Some(i)
  {
    var s := LongToString(i);
    if i < 0 {
      NatToStringValue(-i);
      assert s[1..] == NatToString(-i);
    } else {
      NatToStringValue(i);
    }
  }

  /** Stripping distributes over concatenation. */
  lemma {:induction false} StripNonDigitsConcat(a: string, b: string)
    ensures StripNonDigits(a + b) == StripNonDigits(a) + StripNonDigits(b)
  {
    if a != [] {
      var cabeca := if IsDigit(a[0]) then [a[0]] else [];
      assert (a + b)[0] == a[0] && (a + b)[1..] == a[1..] + b;
      StripNonDigitsConcat(a[1..], b);
      assert StripNonDigits(a + b) == cabeca + StripNonDigits(a[1..] + b);
      assert StripNonDigits(a) == cabeca + StripNonDigits(a[1..]);
      var x, y := StripNonDigits(a[1..]), StripNonDigits(b);
      assert cabeca + (x + y) == (cabeca + x) + y;
    } else {
      assert a + b == b;
      assert StripNonDigits(a) + StripNonDigits(b) == StripNonDigits(b);
    }
  }

  /** A non-digit between two pieces disappears. */
  lemma StripSkipsNonDigit(x: string, c: char, y: string)
    requires !IsDigit(c)
    ensures StripNonDigits(x + [c] + y) == StripNonDigits(x) + StripNonDigits(y)
  {
    var xc := x + [c];
    StripNonDigitsConcat(xc, y);
    StripNonDigitsConcat(x, [c]);
    var v := StripNonDigits([c]);
    assert v == [] by { assert [c][1..] == []; }
    assert StripNonDigits(xc) == StripNonDigits(x) + v;
    assert StripNonDigits(x) + v == StripNonDigits(x);
  }
}
