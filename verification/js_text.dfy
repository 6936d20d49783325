/** The JavaScript string built-ins the core relies on: `trim`,
    `toLowerCase` (ASCII letters only), `startsWith`, `includes`, `join`,
    `String(n)` for a natural number and `padStart(2, '0')`. */
module JsText {

  // ----- trim -----

  /** The characters `String.prototype.trim` removes: ECMAScript's
      WhiteSpace and LineTerminator code points. */
  predicate IsWhiteSpace(c: char) {
    || c == '\t' || c == '\n' || c == '\U{000B}' || c == '\U{000C}' || c == '\r'
    || c == ' ' || c == '\U{00A0}' || c == '\U{1680}'
    || ('\U{2000}' <= c <= '\U{200A}')
    || c == '\U{2028}' || c == '\U{2029}' || c == '\U{202F}' || c == '\U{205F}'
    || c == '\U{3000}' || c == '\U{FEFF}'
  }

  /** `s` without its leading white space. */
  function TrimStart(s: string): (r: string)
    ensures |r| <= |s| && r == s[|s| - |r|..]
    ensures r == [] || !IsWhiteSpace(r[0])
    ensures forall i :: 0 <= i < |s| - |r| ==> IsWhiteSpace(s[i])
  {
    if s != [] && IsWhiteSpace(s[0]) then TrimStart(s[1..]) else s
  }

  /** `s` without its trailing white space. */
  function TrimEnd(s: string): (r: string)
    ensures |r| <= |s| && r == s[..|r|]
    ensures r == [] || !IsWhiteSpace(r[|r| - 1])
    ensures forall i :: |r| <= i < |s| ==> IsWhiteSpace(s[i])
  {
    if s != [] && IsWhiteSpace(s[|s| - 1]) then TrimEnd(s[..|s| - 1]) else s
  }

  /** `s.trim()`: blank exactly when every character is white space, and
      otherwise bounded by non-white characters on both sides; `TrimIsSlice`
      shows it is `s` with only its outer white space cut. */
  function Trim(s: string): (r: string)
    ensures r == [] <==> forall i :: 0 <= i < |s| ==> IsWhiteSpace(s[i])
    ensures r != [] ==> !IsWhiteSpace(r[0]) && !IsWhiteSpace(r[|r| - 1])
    ensures |r| <= |s|
  {
    var t := TrimStart(s);
    var r := TrimEnd(t);
    TrimBlank(s);
    assert |r| <= |t| <= |s|;
    r
  }

  /** `s.trim()` is a slice of `s` with only white space before and after
      it: nothing inside is removed or changed. */
  lemma TrimIsSlice(s: string)
    ensures exists a, b :: 0 <= a <= b <= |s| && Trim(s) == s[a..b] && WhiteOutside(s, a, b)
  {
    CutBothEnds(s, TrimStart(s), TrimEnd(TrimStart(s)));
  }

  /** Every character of `s` before `a` and from `b` on is white space. */
  predicate WhiteOutside(s: string, a: int, b: int) {
    && (forall i :: 0 <= i < a && i < |s| ==> IsWhiteSpace(s[i]))
    && (forall i :: 0 <= i && b <= i < |s| ==> IsWhiteSpace(s[i]))
  }

  /** Cutting white space off the front of `s` (giving `t`) and then off the
      back of `t` (giving `r`) leaves a slice of `s` with only white space
      around it. */
  lemma CutBothEnds(s: string, t: string, r: string)
    requires |t| <= |s| && t == s[|s| - |t|..] && forall i :: 0 <= i < |s| - |t| ==> IsWhiteSpace(s[i])
    requires |r| <= |t| && r == t[..|r|] && forall i :: |r| <= i < |t| ==> IsWhiteSpace(t[i])
    ensures exists a, b :: 0 <= a <= b <= |s| && r == s[a..b] && WhiteOutside(s, a, b)
  {
    var a := |s| - |t|;
    var b := a + |r|;
    SliceOfSuffix(s, a, |r|);
    forall i | b <= i < |s| ensures IsWhiteSpace(s[i]) {
      assert s[i] == t[i - a];
    }
    assert r == s[a..b] && WhiteOutside(s, a, b);
  }

  /** A prefix of a suffix is a slice. */
  lemma SliceOfSuffix(s: string, a: nat, n: nat)
    requires a + n <= |s|
    ensures s[a..][..n] == s[a..a + n]
  {
  }

  /** Trimming both ends leaves nothing exactly when every character is
      white space, and keeps the first character of the trimmed start. */
  lemma {:induction false} TrimBlank(s: string)
    ensures TrimEnd(TrimStart(s)) == [] <==> forall i :: 0 <= i < |s| ==> IsWhiteSpace(s[i])
    ensures TrimEnd(TrimStart(s)) != [] ==> TrimEnd(TrimStart(s))[0] == TrimStart(s)[0]
  {
    var t := TrimStart(s);
    var r := TrimEnd(t);
    var off := |s| - |t|;
    assert t == s[off..];
    if r == [] {
      forall i | 0 <= i < |s| ensures IsWhiteSpace(s[i]) {
        if i >= off {
          assert s[i] == t[i - off];
        }
      }
    } else {
      assert r[0] == t[0] == s[off];
      assert !IsWhiteSpace(s[off]);
    }
  }

  // ----- toLowerCase (ASCII) -----

  function ToLowerChar(c: char): char {
    if 'A' <= c <= 'Z' then (c as int + 32) as char else c
  }

  predicate IsUpper(c: char) {
    'A' <= c <= 'Z'
  }

  /** `s.toLowerCase()` restricted to ASCII letters: every character is
      mapped on its own, and no upper-case ASCII letter is left. */
  function ToLower(s: string): (r: string)
    ensures |r| == |s|
    ensures forall i :: 0 <= i < |s| ==> r[i] == ToLowerChar(s[i])
    ensures forall i :: 0 <= i < |r| ==> !IsUpper(r[i])
  {
    if s == [] then [] else [ToLowerChar(s[0])] + ToLower(s[1..])
  }

  /** `a` and `b` are the same string up to the case of ASCII letters. */
  predicate EqualIgnoringCase(a: string, b: string) {
    && |a| == |b|
    && forall i :: 0 <= i < |a| ==>
         || a[i] == b[i]
         || (IsUpper(a[i]) && b[i] as int == a[i] as int + 32)
         || (IsUpper(b[i]) && a[i] as int == b[i] as int + 32)
  }

  /** Two strings lower-case to the same string exactly when they differ
      only in the case of ASCII letters. */
  lemma {:induction false} ToLowerIgnoresCase(a: string, b: string)
    ensures ToLower(a) == ToLower(b) <==> EqualIgnoringCase(a, b)
  {
    if ToLower(a) == ToLower(b) {
      forall i | 0 <= i < |a|
        ensures || a[i] == b[i]
                || (IsUpper(a[i]) && b[i] as int == a[i] as int + 32)
                || (IsUpper(b[i]) && a[i] as int == b[i] as int + 32)
      {
        assert ToLower(a)[i] == ToLower(b)[i];
      }
    }
    if EqualIgnoringCase(a, b) {
      forall i | 0 <= i < |a| ensures ToLower(a)[i] == ToLower(b)[i] {
      }
    }
  }

  /** Lower-casing twice is lower-casing once. */
  lemma {:induction false} ToLowerIdempotent(s: string)
    ensures ToLower(ToLower(s)) == ToLower(s)
  {
  }

  // ----- startsWith / includes -----

  /** `s.startsWith(prefix)`. */
  predicate StartsWith(s: string, prefix: string) {
    |prefix| <= |s| && s[..|prefix|] == prefix
  }

  /** `needle` occurs in `hay` at position `i`. */
  predicate OccursAt(hay: string, needle: string, i: nat) {
    i + |needle| <= |hay| && hay[i..i + |needle|] == needle
  }

  /** `hay.includes(needle)`, written as a scan from the left. */
  predicate Includes(hay: string, needle: string) {
    StartsWith(hay, needle) || (hay != [] && Includes(hay[1..], needle))
  }

  /** The scan finds `needle` exactly when it occurs somewhere in `hay`. */
  lemma {:induction false} IncludesIff(hay: string, needle: string)
    ensures Includes(hay, needle) <==> exists i: nat :: OccursAt(hay, needle, i)
  {
    if StartsWith(hay, needle) {
      assert OccursAt(hay, needle, 0);
    } else if hay == [] {
      assert |needle| > 0;
    } else {
      IncludesIff(hay[1..], needle);
      if Includes(hay[1..], needle) {
        var i: nat :| OccursAt(hay[1..], needle, i);
        assert hay[i + 1..i + 1 + |needle|] == hay[1..][i..i + |needle|];
        assert OccursAt(hay, needle, i + 1);
      } else {
        forall i: nat ensures !OccursAt(hay, needle, i) {
          if i == 0 && |needle| <= |hay| {
            assert hay[0..|needle|] == hay[..|needle|];
          } else if 0 < i && i + |needle| <= |hay| {
            assert !OccursAt(hay[1..], needle, i - 1);
            assert hay[1..][i - 1..i - 1 + |needle|] == hay[i..i + |needle|];
          }
        }
      }
    }
  }

  // ----- join -----

  /** `parts.join(sep)`: no separator before the first part or after the last. */
  function Join(parts: seq<string>, sep: string): string {
    if |parts| == 0 then ""
    else if |parts| == 1 then parts[0]
    else parts[0] + sep + Join(parts[1..], sep)
  }

  /** An occurrence in `rest` is an occurrence in `a + rest`, `|a|` further on. */
  lemma OccursAfter(a: string, rest: string, needle: string, i: nat)
    requires OccursAt(rest, needle, i)
    ensures OccursAt(a + rest, needle, |a| + i)
  {
    assert (a + rest)[|a| + i..|a| + i + |needle|] == rest[i..i + |needle|];
  }

  /** The join of at least two parts is the first part, a separator and
      the join of the others. */
  lemma JoinUnfold(parts: seq<string>, sep: string)
    requires 1 < |parts|
    ensures Join(parts, sep) == (parts[0] + sep) + Join(parts[1..], sep)
  {
  }

  /** The join opens with the first part. */
  lemma JoinStartsWithFirst(parts: seq<string>, sep: string)
    requires 0 < |parts|
    ensures OccursAt(Join(parts, sep), parts[0], 0)
  {
    if 1 < |parts| {
      JoinUnfold(parts, sep);
      assert Join(parts, sep)[..|parts[0]|] == parts[0];
    }
  }

  /** An occurrence in `s` is still one once `tail` is appended. */
  lemma OccursBefore(s: string, tail: string, needle: string, i: nat)
    requires OccursAt(s, needle, i)
    ensures OccursAt(s + tail, needle, i)
  {
    assert (s + tail)[i..i + |needle|] == s[i..i + |needle|];
  }

  /** Joining at least two parts puts the first part and one separator in
      front of the join of the others. */
  lemma JoinPrefixLength(parts: seq<string>, sep: string, k: nat)
    requires 1 < k <= |parts|
    ensures |Join(parts[..k], sep)| == |parts[0] + sep| + |Join(parts[1..][..k - 1], sep)|
  {
    JoinUnfold(parts[..k], sep);
    assert parts[..k][1..] == parts[1..][..k - 1];
  }

  /** Every joined part occurs in the joined string, at the position after
      all earlier parts and separators: the first part at 0, part `k` one
      separator past the join of the parts before it. */
  lemma {:induction false} JoinContainsPart(parts: seq<string>, sep: string, k: nat)
    requires k < |parts|
    ensures OccursAt(Join(parts, sep), parts[k], if k == 0 then 0 else |Join(parts[..k], sep)| + |sep|)
    ensures exists i: nat :: OccursAt(Join(parts, sep), parts[k], i)
  {
    var off: nat := if k == 0 then 0 else |Join(parts[..k], sep)| + |sep|;
    if k == 0 {
      JoinStartsWithFirst(parts, sep);
    } else {
      var tail := parts[1..];
      var i: nat := if k == 1 then 0 else |Join(tail[..k - 1], sep)| + |sep|;
      JoinContainsPart(tail, sep, k - 1);
      if k > 1 {
        JoinPrefixLength(parts, sep, k);
      } else {
        assert parts[..k] == [parts[0]];
      }
      JoinUnfold(parts, sep);
      OccursAfter(parts[0] + sep, Join(tail, sep), tail[k - 1], i);
    }
    assert OccursAt(Join(parts, sep), parts[k], off);
  }

  // ----- String(n) and padStart(2, '0') -----

  predicate IsDigit(c: char) {
    '0' <= c <= '9'
  }

  predicate AllDigits(s: string) {
    forall i :: 0 <= i < |s| ==> IsDigit(s[i])
  }

  function DigitChar(d: nat): (c: char)
    requires d < 10
    ensures IsDigit(c)
  {
    ('0' as int + d) as char
  }

  function DigitValue(c: char): nat
    requires IsDigit(c)
  {
    c as int - '0' as int
  }

  /** `String(n)` for a natural number: its decimal digits, without leading zeros. */
  function Decimal(n: nat): (r: string)
    ensures AllDigits(r)
    ensures |r| >= 1
    ensures (|r| == 1) == (n < 10)
    ensures (|r| == 2) == (10 <= n < 100)
    ensures r[0] != '0' || n == 0
  {
    if n < 10 then [DigitChar(n)] else Decimal(n / 10) + [DigitChar(n % 10)]
  }

  /** The number a string of decimal digits denotes. */
  function DecimalValue(s: string): nat
    requires AllDigits(s)
  {
    if s == [] then 0 else DecimalValue(s[..|s| - 1]) * 10 + DigitValue(s[|s| - 1])
  }

  /** Reading back the digits of `n` gives `n`. */
  lemma {:induction false} DecimalRoundTrip(n: nat)
    ensures DecimalValue(Decimal(n)) == n
  {
    var r := Decimal(n);
    if n >= 10 {
      DecimalRoundTrip(n / 10);
      assert r[..|r| - 1] == Decimal(n / 10);
    }
  }

  /** A leading zero does not change the value of a digit string. */
  lemma {:induction false} LeadingZeroValue(s: string)
    requires AllDigits(s)
    ensures AllDigits("0" + s) && DecimalValue("0" + s) == DecimalValue(s)
  {
    if s != [] {
      LeadingZeroValue(s[..|s| - 1]);
      assert ("0" + s)[..|"0" + s| - 1] == "0" + s[..|s| - 1];
    }
  }

  /** `s.padStart(2, '0')`. */
  function PadStart2(s: string): (r: string)
    ensures |r| == if |s| < 2 then 2 else |s|
    ensures r[|r| - |s|..] == s
  {
    if |s| == 0 then "00" else if |s| == 1 then "0" + s else s
  }

  /** Padding the digits of `n` keeps every digit and its value. */
  lemma PadDecimal(n: nat)
    ensures AllDigits(PadStart2(Decimal(n)))
    ensures DecimalValue(PadStart2(Decimal(n))) == n
  {
    DecimalRoundTrip(n);
    if n < 10 {
      LeadingZeroValue(Decimal(n));
    }
  }
}
