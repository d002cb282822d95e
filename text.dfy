// String helpers with the semantics of the JavaScript built-ins the
// application relies on: String.prototype.split/join on one separator
// character, startsWith/endsWith/includes, replace of the first occurrence,
// trim, number-to-string for integers and parseInt(s, 10).

module Text {

  datatype Option<T> = None | Some(value: T)

  /** Code points that JavaScript's `\s` and `String.prototype.trim` treat as white space. */
  predicate IsWhitespace(c: char) {
    ('\t' <= c <= '\r') || c == ' ' || c == '\U{00A0}' || c == '\U{1680}'
    || ('\U{2000}' <= c <= '\U{200A}') || c == '\U{2028}' || c == '\U{2029}'
    || c == '\U{202F}' || c == '\U{205F}' || c == '\U{3000}' || c == '\U{FEFF}'
  }

  /** `\d` in a JavaScript regular expression: the ASCII digits only. */
  predicate IsDigit(c: char) { '0' <= c <= '9' }

  predicate AllDigits(s: string) { forall i :: 0 <= i < |s| ==> IsDigit(s[i]) }

  predicate NoChar(s: string, c: char) { forall i :: 0 <= i < |s| ==> s[i] != c }

  function DigitValue(c: char): nat requires IsDigit(c) { c as int - '0' as int }

  function DigitChar(d: nat): (c: char)
    requires d < 10
    ensures IsDigit(c) && DigitValue(c) == d
  {
    ('0' as int + d) as char
  }

  /** The number a string of decimal digits denotes (most significant digit first). */
  function DigitsValue(s: string): nat
    requires AllDigits(s)
  {
    if |s| == 0 then 0 else DigitsValue(s[..|s| - 1]) * 10 + DigitValue(s[|s| - 1])
  }

  /** Decimal rendering of a natural number, as `String(n)` does it. */
  function NatToString(n: nat): (s: string)
    ensures |s| >= 1 && AllDigits(s)
  {
    if n < 10 then [DigitChar(n)] else NatToString(n / 10) + [DigitChar(n % 10)]
  }

  /** Decimal rendering of an integer, with a leading '-' when negative. */
  function IntToString(i: int): (s: string)
    ensures |s| >= 1
  {
    if i < 0 then "-" + NatToString(-i) else NatToString(i)
  }

  lemma {:induction false} DigitsOfNatToString(n: nat)
    ensures DigitsValue(NatToString(n)) == n
  {
    if n >= 10 {
      var s := NatToString(n);
      assert s[..|s| - 1] == NatToString(n / 10);
      DigitsOfNatToString(n / 10);
    }
  }

  lemma NatToStringInjective(a: nat, b: nat)
    ensures NatToString(a) == NatToString(b) <==> a == b
  {
    if NatToString(a) == NatToString(b) {
      DigitsOfNatToString(a);
      DigitsOfNatToString(b);
    }
  }

  lemma SignOfIntToString(i: int)
    ensures IntToString(i)[0] == '-' <==> i < 0
  {
    if i >= 0 {
      assert IsDigit(NatToString(i)[0]);
    }
  }

  lemma IntToStringInjective(a: int, b: int)
    ensures IntToString(a) == IntToString(b) <==> a == b
  {
    SignOfIntToString(a);
    SignOfIntToString(b);
    if IntToString(a) == IntToString(b) {
      if a < 0 && b < 0 {
        assert NatToString(-a) == IntToString(a)[1..];
        NatToStringInjective(-a, -b);
      } else if a >= 0 && b >= 0 {
        NatToStringInjective(a, b);
      }
    }
  }

  /** The longest prefix of `s` made of digits. */
  function LeadingDigits(s: string): (d: string)
    ensures |d| <= |s| && d == s[..|d|] && AllDigits(d)
    ensures |d| < |s| ==> !IsDigit(s[|d|])
  {
    if |s| == 0 || !IsDigit(s[0]) then "" else [s[0]] + LeadingDigits(s[1..])
  }

  lemma {:induction false} LeadingDigitsOfDigits(a: string, b: string)
    requires AllDigits(a)
    requires |b| == 0 || !IsDigit(b[0])
    ensures LeadingDigits(a + b) == a
  {
    if |a| > 0 {
      assert (a + b)[1..] == a[1..] + b;
      LeadingDigitsOfDigits(a[1..], b);
    } else {
      assert a + b == b;
    }
  }

  /** The longest suffix made of digits. */
  function TrailingDigits(s: string): (d: string)
    ensures |d| <= |s| && d == s[|s| - |d|..] && AllDigits(d)
    ensures |d| < |s| ==> !IsDigit(s[|s| - |d| - 1])
  {
    if |s| == 0 || !IsDigit(s[|s| - 1]) then ""
    else TrailingDigits(s[..|s| - 1]) + [s[|s| - 1]]
  }

  /** Digits after a non-digit are exactly the trailing digit run. */
  lemma TrailingDigitsOfDigits(a: string, b: string)
    requires AllDigits(b)
    requires |a| == 0 || !IsDigit(a[|a| - 1])
    ensures TrailingDigits(a + b) == b
  {
    TrailingRunCoversDigits(a, b);
    TrailingRunStopsAtNonDigit(a, b);
    var s := a + b;
    assert s[|s| - |b|..] == b;
  }

  lemma TrailingRunCoversDigits(a: string, b: string)
    requires AllDigits(b)
    ensures |TrailingDigits(a + b)| >= |b|
  {
  }

  lemma TrailingRunStopsAtNonDigit(a: string, b: string)
    requires |a| == 0 || !IsDigit(a[|a| - 1])
    ensures |TrailingDigits(a + b)| <= |b|
  {
    if |a| > 0 {
      var s := a + b;
      var d := TrailingDigits(s);
      assert s[|a| - 1] == a[|a| - 1];
      assert forall j :: |s| - |d| <= j < |s| ==> s[j] == d[j - (|s| - |d|)];
    }
  }

  /** String.prototype.trimStart. */
  function TrimStart(s: string): (t: string)
    ensures |t| <= |s| && t == s[|s| - |t|..]
    ensures |t| > 0 ==> !IsWhitespace(t[0])
  {
    if |s| > 0 && IsWhitespace(s[0]) then TrimStart(s[1..]) else s
  }

  /**
   * parseInt(s, 10) restricted to what it can return for a string: leading
   * white space is skipped, an optional sign is read, then the longest run of
   * digits; no digits gives NaN (None).
   */
  function ParseInt(s: string): Option<int> {
    var t := TrimStart(s);
    var signed := |t| > 0 && (t[0] == '-' || t[0] == '+');
    var d := LeadingDigits(if signed then t[1..] else t);
    if |d| == 0 then None
    else
      var v: int := DigitsValue(d);
      Some(if signed && t[0] == '-' then -v else v)
  }

  lemma ParseIntOfDigitStart(s: string)
    requires |s| > 0 && IsDigit(s[0])
    ensures ParseInt(s) == Some(DigitsValue(LeadingDigits(s)) as int)
  {
    assert !IsWhitespace(s[0]);
    assert TrimStart(s) == s;
    assert !(s[0] == '-' || s[0] == '+');
    var d := LeadingDigits(s);
    assert |d| > 0;
  }

  lemma ParseIntOfNatToString(n: nat, rest: string)
    requires |rest| == 0 || !IsDigit(rest[0])
    ensures ParseInt(NatToString(n) + rest) == Some(n)
  {
    var s := NatToString(n) + rest;
    assert IsDigit(s[0]);
    ParseIntOfDigitStart(s);
    LeadingDigitsOfDigits(NatToString(n), rest);
    DigitsOfNatToString(n);
  }

  predicate StartsWith(s: string, p: string) { |p| <= |s| && s[..|p|] == p }

  predicate EndsWith(s: string, p: string) { |p| <= |s| && s[|s| - |p|..] == p }

  predicate OccursAt(s: string, p: string, i: int) {
    0 <= i && i + |p| <= |s| && s[i..i + |p|] == p
  }

  /** String.prototype.includes. */
  predicate Contains(s: string, p: string) {
    exists i :: 0 <= i <= |s| && OccursAt(s, p, i)
  }

  /** Index of the first occurrence of `p` in `s`, as String.prototype.indexOf. */
  function IndexOf(s: string, p: string): (r: Option<nat>)
    ensures r.Some? ==> OccursAt(s, p, r.value)
    ensures r.Some? ==> forall j :: 0 <= j < r.value ==> !OccursAt(s, p, j)
    ensures r.None? ==> !Contains(s, p)
  {
    if StartsWith(s, p) then Some(0)
    else if |s| <= |p| then
      assert forall i :: OccursAt(s, p, i) ==> i == 0;
      None
    else
      OccursInTail(s, p);
      match IndexOf(s[1..], p)
      case None => None
      case Some(k) => Some(k + 1)
  }

  /** An occurrence past the first character is one in the tail, one place earlier. */
  lemma {:induction false} OccursInTail(s: string, p: string)
    requires |s| > 0
    ensures forall i :: 1 <= i ==> (OccursAt(s, p, i) <==> OccursAt(s[1..], p, i - 1))
  {
    forall i | 1 <= i
      ensures OccursAt(s, p, i) <==> OccursAt(s[1..], p, i - 1)
    {
      if i + |p| <= |s| {
        var a, b := s[i..i + |p|], s[1..][i - 1..i - 1 + |p|];
        assert forall m :: 0 <= m < |a| ==> a[m] == b[m];
        assert a == b;
      }
    }
  }

  /** String.prototype.replace with a string pattern: only the first occurrence is replaced. */
  function ReplaceFirst(s: string, p: string, r: string): string {
    match IndexOf(s, p)
    case None => s
    case Some(i) => s[..i] + r + s[i + |p|..]
  }

  /** String.prototype.split with a one-character separator. */
  function Split(s: string, sep: char): (r: seq<string>)
    ensures |r| >= 1
    ensures forall i :: 0 <= i < |r| ==> NoChar(r[i], sep)
  {
    if |s| == 0 then [""]
    else if s[0] == sep then [""] + Split(s[1..], sep)
    else
      var rest := Split(s[1..], sep);
      [[s[0]] + rest[0]] + rest[1..]
  }

  /** Array.prototype.join with a one-character separator. */
  function Join(segs: seq<string>, sep: char): string {
    if |segs| == 0 then ""
    else if |segs| == 1 then segs[0]
    else segs[0] + [sep] + Join(segs[1..], sep)
  }

  lemma {:induction false} SplitAfterPlainPrefix(a: string, t: string, sep: char)
    requires NoChar(a, sep)
    ensures Split(a + t, sep) == [a + Split(t, sep)[0]] + Split(t, sep)[1..]
  {
    if |a| == 0 {
      assert a + t == t;
      assert a + Split(t, sep)[0] == Split(t, sep)[0];
      assert [Split(t, sep)[0]] + Split(t, sep)[1..] == Split(t, sep);
    } else {
      assert (a + t)[0] == a[0];
      assert (a + t)[1..] == a[1..] + t;
      SplitAfterPlainPrefix(a[1..], t, sep);
      assert [a[0]] + (a[1..] + Split(t, sep)[0]) == a + Split(t, sep)[0];
    }
  }

  /** A string without the separator splits into itself alone. */
  lemma SplitOfPlain(s: string, sep: char)
    requires NoChar(s, sep)
    ensures Split(s, sep) == [s]
  {
    SplitAfterPlainPrefix(s, "", sep);
    assert s + "" == s;
  }

  /**
   * The last segment of a split is a suffix of the string, preceded by the
   * separator unless it is the whole string; a single segment is the string.
   */
  lemma {:induction false} SplitLast(s: string, sep: char)
    ensures var r := Split(s, sep); var t := r[|r| - 1];
      |t| <= |s| && s[|s| - |t|..] == t && (|t| < |s| ==> s[|s| - |t| - 1] == sep)
      && (|r| == 1 ==> r[0] == s) && (|r| > 1 ==> |t| < |s|)
  {
    if |s| > 0 {
      SplitLast(s[1..], sep);
      if s[0] == sep {
        SplitLastAfterSep(s, sep);
      } else {
        SplitLastAfterChar(s, sep);
      }
    }
  }

  /** The facts SplitLast states about the pieces r of s. */
  predicate LastPieceFacts(s: string, r: seq<string>, sep: char) {
    |r| >= 1 &&
    var t := r[|r| - 1];
    |t| <= |s| && s[|s| - |t|..] == t && (|t| < |s| ==> s[|s| - |t| - 1] == sep)
    && (|r| == 1 ==> r[0] == s) && (|r| > 1 ==> |t| < |s|)
  }

  lemma {:induction false} SplitLastAfterSep(s: string, sep: char)
    requires |s| > 0 && s[0] == sep && LastPieceFacts(s[1..], Split(s[1..], sep), sep)
    ensures LastPieceFacts(s, Split(s, sep), sep)
  {
    var rest := Split(s[1..], sep);
    var t := rest[|rest| - 1];
    assert Split(s, sep) == [""] + rest;
    assert s[1..][|s| - 1 - |t|..] == s[|s| - |t|..];
    assert |t| < |s| - 1 ==> s[1..][|s| - 1 - |t| - 1] == s[|s| - |t| - 1];
  }

  lemma {:induction false} SplitLastAfterChar(s: string, sep: char)
    requires |s| > 0 && s[0] != sep && LastPieceFacts(s[1..], Split(s[1..], sep), sep)
    ensures LastPieceFacts(s, Split(s, sep), sep)
  {
    var rest := Split(s[1..], sep);
    var t := rest[|rest| - 1];
    assert s[1..][|s| - 1 - |t|..] == s[|s| - |t|..];
    if |rest| == 1 {
      assert Split(s, sep) == [[s[0]] + rest[0]];
      assert [s[0]] + s[1..] == s;
    } else {
      assert Split(s, sep) == [[s[0]] + rest[0]] + rest[1..];
      assert Split(s, sep)[|Split(s, sep)| - 1] == t;
      assert s[1..][|s| - 1 - |t| - 1] == s[|s| - |t| - 1];
    }
  }

  /** A separator-free word longer than the last segment does not end the string. */
  lemma NotEndsWithLonger(s: string, w: string, sep: char)
    requires NoChar(w, sep)
    requires var r := Split(s, sep); |w| > |r[|r| - 1]|
    ensures !EndsWith(s, w)
  {
    SplitLast(s, sep);
    var r := Split(s, sep);
    var t := r[|r| - 1];
    if |w| <= |s| {
      assert s[|s| - |w|..][|w| - |t| - 1] == s[|s| - |t| - 1];
      assert s[|s| - |w|..][|w| - |t| - 1] != w[|w| - |t| - 1];
    }
  }

  /** A separator-free word that ends the string fits inside the last segment. */
  lemma EndsWithinLast(s: string, w: string, sep: char)
    requires NoChar(w, sep) && EndsWith(s, w)
    ensures var r := Split(s, sep); |w| <= |r[|r| - 1]|
  {
    SplitLast(s, sep);
    assert forall j :: |s| - |w| <= j < |s| ==> s[j] == w[j - (|s| - |w|)];
  }

  /** Splitting a join of separator-free segments gives the segments back. */
  lemma {:induction false} SplitJoin(segs: seq<string>, sep: char)
    requires |segs| >= 1
    requires forall i :: 0 <= i < |segs| ==> NoChar(segs[i], sep)
    ensures Split(Join(segs, sep), sep) == segs
  {
    if |segs| == 1 {
      SplitAfterPlainPrefix(segs[0], "", sep);
      assert segs[0] + "" == segs[0];
    } else {
      var t := [sep] + Join(segs[1..], sep);
      assert Join(segs, sep) == segs[0] + t;
      SplitAfterPlainPrefix(segs[0], t, sep);
      assert t[1..] == Join(segs[1..], sep);
      SplitJoin(segs[1..], sep);
      assert Split(t, sep) == [""] + segs[1..];
      assert segs[0] + "" == segs[0];
    }
  }

  /** Joins of separator-free segment lists are equal only for equal lists. */
  lemma JoinInjective(a: seq<string>, b: seq<string>, sep: char)
    requires |a| >= 1 && |b| >= 1
    requires forall i :: 0 <= i < |a| ==> NoChar(a[i], sep)
    requires forall i :: 0 <= i < |b| ==> NoChar(b[i], sep)
    ensures Join(a, sep) == Join(b, sep) <==> a == b
  {
    SplitJoin(a, sep);
    SplitJoin(b, sep);
  }

  /** A separator splits its two sides apart. */
  lemma {:induction false} SplitConcat(x: string, y: string, sep: char)
    ensures Split(x + [sep] + y, sep) == Split(x, sep) + Split(y, sep)
  {
    if |x| == 0 {
      assert x + [sep] + y == [sep] + y;
      assert ([sep] + y)[1..] == y;
    } else {
      var s := x + [sep] + y;
      assert s[0] == x[0];
      assert s[1..] == x[1..] + [sep] + y;
      SplitConcat(x[1..], y, sep);
    }
  }

  /** Splitting around a separator-free word set between two separators. */
  lemma {:induction false} SplitAround(x: string, w: string, z: string, sep: char)
    requires NoChar(w, sep)
    ensures Split(x + [sep] + (w + [sep] + z), sep) == Split(x, sep) + [w] + Split(z, sep)
  {
    SplitConcat(x, w + [sep] + z, sep);
    SplitConcat(w, z, sep);
    SplitAfterPlainPrefix(w, "", sep);
    assert w + "" == w;
  }

  /**
   * A separator-delimited word occurs in a join of separator-free segments
   * only as one of its inner segments.
   */
  lemma {:induction false} SegmentOccurrence(segs: seq<string>, w: string, sep: char)
    requires |segs| >= 1
    requires forall i :: 0 <= i < |segs| ==> NoChar(segs[i], sep)
    requires NoChar(w, sep)
    requires Contains(Join(segs, sep), [sep] + w + [sep])
    ensures exists i :: 1 <= i < |segs| - 1 && segs[i] == w
  {
    var s := Join(segs, sep);
    var k :| 0 <= k <= |s| && OccursAt(s, [sep] + w + [sep], k);
    var x, z := s[..k], s[k + |w| + 2..];
    OccurrenceSplits(s, w, sep, k);
    SplitAround(x, w, z, sep);
    SplitJoin(segs, sep);
    var i := |Split(x, sep)|;
    assert segs[i] == w;
  }

  /** An occurrence of a separator-delimited word cuts the string into three parts. */
  lemma {:induction false} OccurrenceSplits(s: string, w: string, sep: char, k: int)
    requires OccursAt(s, [sep] + w + [sep], k)
    ensures s == s[..k] + [sep] + (w + [sep] + s[k + |w| + 2..])
  {
    var p := [sep] + w + [sep];
    assert s[k..k + |p|] == p;
    assert s == s[..k] + p + s[k + |p|..];
  }
}
