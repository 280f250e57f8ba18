/**
 * The parts of Go's `strings` and `strconv` packages that the OmniLink
 * services rely on, stated over `string` (a sequence of code points).
 */
module GoStrings {
  import opened Common

  const MinInt64: int := -0x8000_0000_0000_0000
  const MaxInt64: int := 0x7FFF_FFFF_FFFF_FFFF

  predicate IsInt64(v: int) { MinInt64 <= v <= MaxInt64 }

  /** unicode.IsSpace: the Latin-1 spaces plus the other White_Space code points. */
  predicate IsSpace(c: char)
  {
    c == '\t' || c == '\n' || c == '\U{000B}' || c == '\U{000C}' || c == '\r' || c == ' '
    || c == '\U{0085}' || c == '\U{00A0}' || c == '\U{1680}'
    || ('\U{2000}' <= c <= '\U{200A}')
    || c == '\U{2028}' || c == '\U{2029}' || c == '\U{202F}' || c == '\U{205F}' || c == '\U{3000}'
  }

  predicate AllSpace(s: string) { forall i :: 0 <= i < |s| ==> IsSpace(s[i]) }

  /** The end of the run of white space that starts at index i. */
  function SpaceRunEnd(s: string, i: nat): (j: nat)
    requires i <= |s|
    decreases |s| - i
    ensures i <= j <= |s| && (j == |s| || !IsSpace(s[j]))
  {
    if i < |s| && IsSpace(s[i]) then SpaceRunEnd(s, i + 1) else i
  }

  /** The run SpaceRunEnd skips is all white space. */
  lemma {:induction false} SpaceRunEndSpace(s: string, i: nat)
    requires i <= |s|
    decreases |s| - i
    ensures AllSpace(s[i..SpaceRunEnd(s, i)])
  {
    if i < |s| && IsSpace(s[i]) {
      var j := SpaceRunEnd(s, i + 1);
      SpaceRunEndSpace(s, i + 1);
      assert s[i..j] == [s[i]] + s[i + 1..j];
    }
  }

  /** The start of the run of white space that ends just before index j. */
  function SpaceRunStart(s: string, j: nat): (i: nat)
    requires j <= |s|
    ensures i <= j && (i == 0 || !IsSpace(s[i - 1]))
  {
    if j > 0 && IsSpace(s[j - 1]) then SpaceRunStart(s, j - 1) else j
  }

  /** The run SpaceRunStart skips is all white space. */
  lemma {:induction false} SpaceRunStartSpace(s: string, j: nat)
    requires j <= |s|
    ensures AllSpace(s[SpaceRunStart(s, j)..j])
  {
    if j > 0 && IsSpace(s[j - 1]) {
      var i := SpaceRunStart(s, j - 1);
      SpaceRunStartSpace(s, j - 1);
      assert s[i..j] == s[i..j - 1] + [s[j - 1]];
    }
  }

  /** Drops the leading white space. */
  function TrimLeft(s: string): (r: string)
    ensures |r| <= |s| && r == s[|s| - |r|..]
    ensures r == [] || !IsSpace(r[0])
  {
    s[SpaceRunEnd(s, 0)..]
  }

  /** What TrimLeft drops is all white space. */
  lemma TrimLeftDropsSpace(s: string)
    ensures AllSpace(s[..|s| - |TrimLeft(s)|])
  {
    var i := SpaceRunEnd(s, 0);
    SpaceRunEndSpace(s, 0);
    forall k | 0 <= k < i ensures IsSpace(s[..i][k]) {
      assert s[..i][k] == s[k];
    }
  }

  /** Drops the trailing white space. */
  function TrimRight(s: string): (r: string)
    ensures |r| <= |s| && r == s[..|r|]
    ensures r == [] || !IsSpace(r[|r| - 1])
  {
    s[..SpaceRunStart(s, |s|)]
  }

  /** TrimRight leaves nothing exactly when everything is white space. */
  lemma TrimRightEmpty(s: string)
    ensures TrimRight(s) == [] <==> AllSpace(s)
  {
    var i := SpaceRunStart(s, |s|);
    SpaceRunStartSpace(s, |s|);
    if i > 0 {
      assert !IsSpace(s[i - 1]);
    }
  }

  /** strings.TrimSpace */
  function TrimSpace(s: string): (r: string)
    ensures |r| <= |s|
    ensures r == [] || (!IsSpace(r[0]) && !IsSpace(r[|r| - 1]))
  {
    TrimRight(TrimLeft(s))
  }

  /** A string trims to nothing exactly when it is all white space. */
  lemma TrimSpaceEmpty(s: string)
    ensures TrimSpace(s) == [] <==> AllSpace(s)
  {
    var l := TrimLeft(s);
    TrimLeftDropsSpace(s);
    TrimRightEmpty(l);
    if AllSpace(l) {
      assert l == [];
      assert s[..|s| - |l|] == s;
    } else {
      assert !IsSpace(l[0]) && l[0] == s[|s| - |l|];
    }
  }

  /** A string that neither starts nor ends with white space trims to itself. */
  lemma TrimSpaceNoop(s: string)
    requires s != [] && !IsSpace(s[0]) && !IsSpace(s[|s| - 1])
    ensures TrimSpace(s) == s
  {
  }

  predicate IsBlank(s: string) { TrimSpace(s) == [] }

  lemma TrimSpaceIdempotent(s: string)
    ensures TrimSpace(TrimSpace(s)) == TrimSpace(s)
  {
    if TrimSpace(s) != [] {
      TrimSpaceNoop(TrimSpace(s));
    }
  }

  /** strings.HasPrefix */
  predicate HasPrefix(s: string, p: string) { |p| <= |s| && s[..|p|] == p }

  /** strings.HasSuffix */
  predicate HasSuffix(s: string, p: string) { |p| <= |s| && s[|s| - |p|..] == p }

  /** `sub` occurs in `s` starting at index `i`. */
  predicate OccursAt(s: string, sub: string, i: int)
  {
    0 <= i && i + |sub| <= |s| && s[i..i + |sub|] == sub
  }

  /** The first occurrence of `sub` in `s` at or after `from`, or -1. */
  function IndexFrom(s: string, sub: string, from: nat): (r: int)
    requires from <= |s|
    decreases |s| - from
    ensures r == -1 || (from <= r && OccursAt(s, sub, r))
    ensures forall j :: from <= j && (r == -1 || j < r) ==> !OccursAt(s, sub, j)
  {
    if OccursAt(s, sub, from) then from
    else if from == |s| then -1
    else IndexFrom(s, sub, from + 1)
  }

  /** strings.Index */
  function Index(s: string, sub: string): (r: int)
    ensures r == -1 || OccursAt(s, sub, r)
    ensures forall j :: 0 <= j && (r == -1 || j < r) ==> !OccursAt(s, sub, j)
  {
    IndexFrom(s, sub, 0)
  }

  /** strings.Contains */
  predicate Contains(s: string, sub: string) { Index(s, sub) >= 0 }

  lemma ContainsIff(s: string, sub: string)
    ensures Contains(s, sub) <==> exists j :: OccursAt(s, sub, j)
  {
  }

  /**
   * A pattern whose first character occurs nowhere else in it is found right after
   * any text that does not contain it.
   */
  lemma IndexAfter(pre: string, pat: string, rest: string)
    requires |pat| > 0 && !Contains(pre, pat)
    requires forall i :: 0 < i < |pat| ==> pat[i] != pat[0]
    ensures Index(pre + pat + rest, pat) == |pre|
  {
    var s := pre + pat + rest;
    assert s[|pre|..|pre| + |pat|] == pat;
    ContainsIff(pre, pat);
    forall j | 0 <= j < |pre|
      ensures !OccursAt(s, pat, j)
    {
      if j + |pat| <= |pre| {
        assert s[j..j + |pat|] == pre[j..j + |pat|];
        assert !OccursAt(pre, pat, j);
      } else {
        assert s[j..j + |pat|][|pre| - j] == s[|pre|] == pat[0] != pat[|pre| - j];
      }
    }
    assert OccursAt(s, pat, |pre|);
  }

  /** strings.Index for a one-character needle. */
  function IndexOfChar(s: string, c: char): (r: int)
    ensures -1 <= r < |s|
    ensures r >= 0 ==> s[r] == c
    ensures forall j :: 0 <= j < |s| && (r < 0 || j < r) ==> s[j] != c
  {
    if s == [] then -1
    else if s[0] == c then 0
    else
      var k := IndexOfChar(s[1..], c);
      if k < 0 then -1 else k + 1
  }

  /** strings.LastIndex for a one-character needle. */
  function LastIndexOfChar(s: string, c: char): (r: int)
    ensures -1 <= r < |s|
    ensures r >= 0 ==> s[r] == c
    ensures forall j :: r < j < |s| ==> s[j] != c
  {
    if s == [] then -1
    else if s[|s| - 1] == c then |s| - 1
    else LastIndexOfChar(s[..|s| - 1], c)
  }

  /** unicode.ToLower restricted to ASCII: 'A'..'Z' move down by 32, every other character stays. */
  function LowerChar(c: char): char
  {
    if 'A' <= c <= 'Z' then (c as int + 32) as char else c
  }

  /**
   * strings.ToLower restricted to ASCII: A-Z become a-z and every other
   * code point is kept (Go also lowers non-ASCII letters).
   */
  function ToLowerAscii(s: string): (r: string)
    ensures |r| == |s|
    ensures forall i :: 0 <= i < |s| ==> r[i] == LowerChar(s[i])
  {
    if s == [] then []
    else [LowerChar(s[0])] + ToLowerAscii(s[1..])
  }

  /** Lower-casing works character by character, so it distributes over concatenation. */
  lemma LowerConcat(a: string, b: string)
    ensures ToLowerAscii(a + b) == ToLowerAscii(a) + ToLowerAscii(b)
  {
    var x := ToLowerAscii(a + b);
    var y := ToLowerAscii(a) + ToLowerAscii(b);
    forall i | 0 <= i < |x| ensures x[i] == y[i] {
      if i < |a| {
        assert (a + b)[i] == a[i];
      } else {
        assert (a + b)[i] == b[i - |a|];
      }
    }
  }

  /** A text contains every piece it is built around. */
  lemma ContainsInfix(a: string, p: string, b: string)
    ensures Contains(a + p + b, p)
  {
    var t := a + p + b;
    assert t[|a|..|a| + |p|] == p;
    assert OccursAt(t, p, |a|);
    ContainsIff(t, p);
  }

  /** strings.ReplaceAll for a non-empty pattern: leftmost, non-overlapping matches. */
  function ReplaceAll(s: string, pat: string, rep: string): (r: string)
    requires |pat| > 0
    decreases |s|
  {
    if |s| < |pat| then s
    else if s[..|pat|] == pat then rep + ReplaceAll(s[|pat|..], pat, rep)
    else [s[0]] + ReplaceAll(s[1..], pat, rep)
  }

  lemma {:induction false} ReplaceAllAbsent(s: string, pat: string, rep: string)
    requires |pat| > 0
    requires !Contains(s, pat)
    ensures ReplaceAll(s, pat, rep) == s
    decreases |s|
  {
    if |s| >= |pat| {
      assert !OccursAt(s, pat, 0);
      assert !Contains(s[1..], pat) by {
        ContainsIff(s, pat);
        ContainsIff(s[1..], pat);
        forall j ensures !OccursAt(s[1..], pat, j) {
          assert !OccursAt(s, pat, j + 1);
          if 0 <= j && j + |pat| <= |s| - 1 {
            assert s[1..][j..j + |pat|] == s[j + 1..j + 1 + |pat|];
          }
        }
      }
      ReplaceAllAbsent(s[1..], pat, rep);
    }
  }

  lemma ReplaceAllLeading(t: string, pat: string, rep: string)
    requires |pat| > 0
    ensures ReplaceAll(pat + t, pat, rep) == rep + ReplaceAll(t, pat, rep)
  {
    assert (pat + t)[..|pat|] == pat;
    assert (pat + t)[|pat|..] == t;
  }

  /** The number of bytes UTF-8 spends on a rune. */
  function RuneLen(c: char): (n: nat)
    ensures 1 <= n <= 4
    ensures c as int < 0x80 <==> n == 1
  {
    if c as int < 0x80 then 1 else if c as int < 0x800 then 2 else if c as int < 0x1_0000 then 3 else 4
  }

  /** len(s) in Go: the length of the string in UTF-8 bytes. */
  function Utf8Len(s: string): (n: nat)
    ensures |s| <= n <= 4 * |s|
  {
    if s == [] then 0 else RuneLen(s[0]) + Utf8Len(s[1..])
  }

  /** A string of ASCII characters takes one byte per character. */
  lemma {:induction false} AsciiUtf8Len(s: string)
    requires forall i :: 0 <= i < |s| ==> s[i] as int < 0x80
    ensures Utf8Len(s) == |s|
  {
    if s != [] {
      assert forall i :: 0 <= i < |s[1..]| ==> s[1..][i] == s[i + 1];
      AsciiUtf8Len(s[1..]);
    }
  }

  /**
   * The longest prefix of whole runes that fits in n bytes: it stops only
   * where the next rune would not fit.
   */
  function CutBytes(s: string, n: nat): (r: string)
    ensures |r| <= |s| && r == s[..|r|]
    ensures Utf8Len(r) <= n
    ensures |r| < |s| ==> Utf8Len(r) + RuneLen(s[|r|]) > n
  {
    if s == [] || RuneLen(s[0]) > n then []
    else
      var rest := CutBytes(s[1..], n - RuneLen(s[0]));
      var r := [s[0]] + rest;
      assert r[1..] == rest;
      r
  }

  /** A string that already fits is kept whole. */
  lemma {:induction false} CutBytesFits(s: string, n: nat)
    requires Utf8Len(s) <= n
    ensures CutBytes(s, n) == s
  {
    if s != [] {
      CutBytesFits(s[1..], n - RuneLen(s[0]));
      assert s == [s[0]] + s[1..];
    }
  }

  /** strings.Join */
  function Join(parts: seq<string>, sep: string): (r: string)
    ensures parts == [] ==> r == []
    ensures |parts| == 1 ==> r == parts[0]
  {
    if parts == [] then []
    else if |parts| == 1 then parts[0]
    else parts[0] + sep + Join(parts[1..], sep)
  }

  /** Joining one more part adds the separator and the part at the end. */
  lemma {:induction false} JoinAppend(parts: seq<string>, x: string, sep: string)
    requires parts != []
    ensures Join(parts + [x], sep) == Join(parts, sep) + sep + x
  {
    if |parts| == 1 {
      assert parts + [x] == [parts[0], x];
      assert [parts[0], x][1..] == [x];
    } else {
      assert (parts + [x])[1..] == parts[1..] + [x];
      JoinAppend(parts[1..], x, sep);
    }
  }

  // ---- string order (Go's < on strings: lexicographic by code point) ----

  predicate StrLess(a: string, b: string)
  {
    if a == [] then b != []
    else if b == [] then false
    else if a[0] != b[0] then a[0] < b[0]
    else StrLess(a[1..], b[1..])
  }

  lemma {:induction false} StrLessIrreflexive(a: string)
    ensures !StrLess(a, a)
  {
    if a != [] {
      StrLessIrreflexive(a[1..]);
    }
  }

  lemma {:induction false} StrLessTransitive(a: string, b: string, c: string)
    requires StrLess(a, b) && StrLess(b, c)
    ensures StrLess(a, c)
  {
    if a != [] && b != [] && c != [] && a[0] == b[0] && b[0] == c[0] {
      StrLessTransitive(a[1..], b[1..], c[1..]);
    }
  }

  lemma {:induction false} StrLessTotal(a: string, b: string)
    requires a != b
    ensures StrLess(a, b) || StrLess(b, a)
  {
    if a != [] && b != [] && a[0] == b[0] {
      assert a == [a[0]] + a[1..] && b == [b[0]] + b[1..];
      StrLessTotal(a[1..], b[1..]);
    }
  }

  lemma StrLessAsymmetric()
    ensures forall a, b :: StrLess(a, b) ==> !StrLess(b, a)
  {
    forall a, b | StrLess(a, b) ensures !StrLess(b, a) {
      if StrLess(b, a) {
        StrLessTransitive(a, b, a);
        StrLessIrreflexive(a);
      }
    }
  }

  /** `m` is the least string of `s`. */
  predicate IsMinString(m: string, s: set<string>)
  {
    m in s && forall x :: x in s ==> x == m || StrLess(m, x)
  }

  /** The least string of a non-empty finite set. */
  lemma {:induction false} MinStringExists(s: set<string>)
    requires s != {}
    ensures exists m :: IsMinString(m, s)
    decreases |s|
  {
    var y :| y in s;
    if s == {y} {
      assert IsMinString(y, s);
    } else {
      MinStringExists(s - {y});
      var m :| IsMinString(m, s - {y});
      if StrLess(m, y) {
        assert IsMinString(m, s);
      } else {
        MinStringStep(s, y, m);
      }
    }
  }

  /** A new element below the least of the others is the least of all. */
  lemma MinStringStep(s: set<string>, y: string, m: string)
    requires y in s && IsMinString(m, s - {y}) && !StrLess(m, y)
    ensures IsMinString(y, s)
  {
    StrLessTotal(m, y);
    forall x | x in s && x != y
      ensures StrLess(y, x)
    {
      if x != m {
        StrLessTransitive(y, m, x);
      }
    }
  }

  function MinString(s: set<string>): (m: string)
    requires s != {}
    ensures m in s && forall x :: x in s ==> x == m || StrLess(m, x)
  {
    MinStringExists(s);
    StrLessAsymmetric();
    var m :| IsMinString(m, s);
    m
  }

  /** sort.Strings over the elements of a set: strictly increasing, and exactly the set. */
  function SortedStrings(s: set<string>): (r: seq<string>)
    ensures |r| == |s|
    ensures forall x :: x in s <==> x in r
    ensures forall i, j :: 0 <= i < j < |r| ==> StrLess(r[i], r[j])
    decreases |s|
  {
    if s == {} then []
    else
      var m := MinString(s);
      var rest := SortedStrings(s - {m});
      assert forall j :: 0 <= j < |rest| ==> StrLess(m, rest[j]) by {
        forall j | 0 <= j < |rest| ensures StrLess(m, rest[j]) {
          assert rest[j] in s - {m};
        }
      }
      [m] + rest
  }

  // ---- decimal integers (strconv) ----

  predicate IsDigit(c: char) { '0' <= c <= '9' }

  predicate AllDigits(s: string) { forall i :: 0 <= i < |s| ==> IsDigit(s[i]) }

  function DigitChar(d: nat): (c: char)
    requires d < 10
    ensures IsDigit(c) && c as int - '0' as int == d
  {
    ('0' as int + d) as char
  }

  /** The value of a string of decimal digits. */
  function DigitsValue(s: string): nat
    requires AllDigits(s)
  {
    if s == [] then 0 else DigitsValue(s[..|s| - 1]) * 10 + (s[|s| - 1] as int - '0' as int)
  }

  /** The canonical decimal form of a natural number: no leading zero except "0" itself. */
  function NatToDecimal(n: nat): (r: string)
    ensures |r| > 0 && AllDigits(r)
    ensures DigitsValue(r) == n
    ensures r[0] == '0' <==> n == 0
    ensures n < 10 <==> |r| == 1
  {
    if n < 10 then [DigitChar(n)]
    else
      var p := NatToDecimal(n / 10);
      var r := p + [DigitChar(n % 10)];
      assert r[..|r| - 1] == p;
      r
  }

  /** strconv.FormatInt(v, 10) */
  function FormatInt(v: int): (r: string)
    ensures |r| > 0
    ensures (r[0] == '-') <==> v < 0
  {
    if v < 0 then "-" + NatToDecimal(-v) else NatToDecimal(v)
  }

  /** strconv.ParseInt(s, 10, 64): an optional sign, at least one digit, within int64. */
  function ParseInt64(s: string): (r: Option<int>)
    ensures r.Some? ==> IsInt64(r.value)
    ensures s == [] ==> r == None
  {
    if s == [] then None
    else
      var neg := s[0] == '-';
      var body := if s[0] == '-' || s[0] == '+' then s[1..] else s;
      if body == [] || !AllDigits(body) then None
      else
        var v: int := if neg then 0 - DigitsValue(body) else DigitsValue(body);
        if IsInt64(v) then Some(v) else None
  }

  /** Formatting then parsing gives every 64-bit value back. */
  lemma ParseFormatRoundTrip(v: int)
    requires IsInt64(v)
    ensures ParseInt64(FormatInt(v)) == Some(v)
  {
    if v < 0 {
      assert ("-" + NatToDecimal(-v))[1..] == NatToDecimal(-v);
    }
  }

  /** A digit string other than "0" that parses has no leading zero once formatted back. */
  lemma FormatParseRoundTrip(s: string)
    requires s != [] && AllDigits(s) && (s[0] != '0' || s == "0")
    requires ParseInt64(s).Some?
    ensures FormatInt(ParseInt64(s).value) == s
  {
    DecimalUnique(s);
  }

  lemma {:induction false} DecimalUnique(s: string)
    requires s != [] && AllDigits(s) && (s[0] != '0' || s == "0")
    ensures NatToDecimal(DigitsValue(s)) == s
    decreases |s|
  {
    if |s| == 1 {
    } else {
      var p := s[..|s| - 1];
      assert p[0] == s[0];
      DecimalUnique(p);
      assert DigitsValue(p) > 0;
      var n := DigitsValue(s);
      assert n / 10 == DigitsValue(p) && n % 10 == s[|s| - 1] as int - '0' as int;
      assert NatToDecimal(n) == p + [s[|s| - 1]];
    }
  }
}
