/** The string primitives the sensors use on kernel text and command output:
    `str::lines`, `split_whitespace`, `split`, `split_once`, `trim`, `replace`,
    `starts_with`, ASCII lower-casing, `str::parse` for unsigned integers and
    decimal floats, and decimal rendering of naturals. Whitespace is ASCII. */
module Text {
  import opened Wrappers

  predicate IsSpace(c: char) {
    c == ' ' || c == '\t' || c == '\n' || c == '\r' || c == '\U{000B}' || c == '\U{000C}'
  }

  predicate IsDigit(c: char) { '0' <= c <= '9' }

  predicate AllDigits(s: string) { forall i :: 0 <= i < |s| ==> IsDigit(s[i]) }

  predicate NoSpace(s: string) { forall i :: 0 <= i < |s| ==> !IsSpace(s[i]) }

  predicate StartsWith(s: string, p: string) { |p| <= |s| && s[..|p|] == p }

  predicate EndsWith(s: string, p: string) { |p| <= |s| && s[|s| - |p|..] == p }

  predicate ContainsChar(s: string, c: char) { exists i :: 0 <= i < |s| && s[i] == c }

  // ---------------------------------------------------------------------
  // Scanning

  /** Length of the longest prefix of `s` made of whitespace. */
  function SpaceLen(s: string): (n: nat)
    ensures n <= |s|
    ensures forall i :: 0 <= i < n ==> IsSpace(s[i])
    ensures n < |s| ==> !IsSpace(s[n])
  {
    if s == [] || !IsSpace(s[0]) then 0 else 1 + SpaceLen(s[1..])
  }

  /** Length of the longest prefix of `s` without whitespace. */
  function WordLen(s: string): (n: nat)
    ensures n <= |s|
    ensures forall i :: 0 <= i < n ==> !IsSpace(s[i])
    ensures n < |s| ==> IsSpace(s[n])
  {
    if s == [] || IsSpace(s[0]) then 0 else 1 + WordLen(s[1..])
  }

  /** `str::split_whitespace`: the maximal runs of non-whitespace, in order. */
  function SplitWhitespace(s: string): (r: seq<string>)
    ensures forall i :: 0 <= i < |r| ==> |r[i]| > 0 && NoSpace(r[i])
    decreases |s|
  {
    var k := SpaceLen(s);
    if k == |s| then []
    else
      var w := WordLen(s[k..]);
      WordAt(s, k);
      [s[k..k + w]] + SplitWhitespace(s[k + w..])
  }

  /** The word that starts at a non-space position is non-empty and has no space. */
  lemma WordAt(s: string, k: nat)
    requires k < |s| && !IsSpace(s[k])
    ensures var w := WordLen(s[k..]); 0 < w && k + w <= |s| && |s[k..k + w]| > 0 && NoSpace(s[k..k + w])
  {
    var t, w := s[k..], WordLen(s[k..]);
    assert t[0] == s[k];
    var word := s[k..k + w];
    forall j | 0 <= j < |word| ensures !IsSpace(word[j]) {
      assert word[j] == t[j];
    }
  }

  /** `p` occurs in `s` at index `j`. */
  predicate MatchAt(s: string, p: string, j: nat) {
    j + |p| <= |s| && s[j..j + |p|] == p
  }

  /** Index of the first occurrence of the non-empty pattern `p` in `s`, or `|s|`. */
  function Find(s: string, p: string): (n: nat)
    requires |p| > 0
    ensures n <= |s|
    ensures n < |s| ==> MatchAt(s, p, n)
    ensures forall j: nat :: j < n ==> !MatchAt(s, p, j)
  {
    if |s| < |p| then |s|
    else if s[..|p|] == p then 0
    else
      var m := Find(s[1..], p);
      FindStep(s, p, m);
      if m == |s| - 1 then |s| else m + 1
  }

  lemma FindStep(s: string, p: string, m: nat)
    requires |p| > 0 && |s| >= |p| && s[..|p|] != p
    requires m <= |s| - 1
    requires m < |s| - 1 ==> MatchAt(s[1..], p, m)
    requires forall j: nat :: j < m ==> !MatchAt(s[1..], p, j)
    ensures m < |s| - 1 ==> MatchAt(s, p, m + 1)
    ensures forall j: nat :: j < m + 1 ==> !MatchAt(s, p, j)
  {
    if m < |s| - 1 {
      assert s[1..][m..m + |p|] == s[m + 1..m + 1 + |p|];
    }
    forall j: nat | j < m + 1 ensures !MatchAt(s, p, j) {
      if j > 0 {
        assert !MatchAt(s[1..], p, j - 1);
        if j + |p| <= |s| {
          assert s[1..][j - 1..j - 1 + |p|] == s[j..j + |p|];
        }
      } else {
        assert s[..|p|] == s[0..0 + |p|];
      }
    }
  }

  /** `str::split(pattern)`: the pieces between occurrences of `p`; there is always at least one. */
  function Split(s: string, p: string): (r: seq<string>)
    requires |p| > 0
    ensures |r| >= 1
    decreases |s|
  {
    var n := Find(s, p);
    if n == |s| then [s] else [s[..n]] + Split(s[n + |p|..], p)
  }

  /** `str::split_once(c)`: the text before and after the first `c`, if any. */
  function SplitOnce(s: string, c: char): (r: Option<(string, string)>)
    ensures r.None? <==> !ContainsChar(s, c)
    ensures r.Some? ==> r.value.0 + [c] + r.value.1 == s && !ContainsChar(r.value.0, c)
  {
    var n := Find(s, [c]);
    NoEarlierChar(s, c, n);
    if n == |s| then None
    else
      assert MatchAt(s, [c], n);
      assert s[n..n + 1] == [c];
      assert s[n] == c;
      assert s == s[..n] + [c] + s[n + 1..];
      Some((s[..n], s[n + 1..]))
  }

  lemma NoEarlierChar(s: string, c: char, n: nat)
    requires n == Find(s, [c])
    ensures forall j :: 0 <= j < n ==> s[j] != c
    ensures !ContainsChar(s[..n], c)
  {
    forall j | 0 <= j < n ensures s[j] != c {
      assert !MatchAt(s, [c], j);
      assert s[j..j + 1] == [s[j]];
    }
  }

  /** `str::lines`: split at "\n", drop one "\r" before each "\n", and no empty final line. */
  function Lines(s: string): (r: seq<string>)
    ensures s == [] <==> r == []
    decreases |s|
  {
    if s == [] then []
    else
      var n := Find(s, "\n");
      if n == |s| then [s]
      else
        var line := s[..n];
        [if EndsWith(line, "\r") then line[..|line| - 1] else line] + Lines(s[n + 1..])
  }

  /** `str::trim_start`. */
  function TrimStart(s: string): (r: string)
    ensures |r| <= |s| && r == s[|s| - |r|..]
    ensures r != [] ==> !IsSpace(r[0])
  {
    s[SpaceLen(s)..]
  }

  /** `str::trim_end`. */
  function TrimEnd(s: string): (r: string)
    ensures |r| <= |s| && r == s[..|r|]
    ensures r != [] ==> !IsSpace(r[|r| - 1])
    ensures forall i :: |r| <= i < |s| ==> IsSpace(s[i])
  {
    if s == [] || !IsSpace(s[|s| - 1]) then s else TrimEnd(s[..|s| - 1])
  }

  /** `str::trim`. */
  function Trim(s: string): (r: string)
    ensures r != [] ==> !IsSpace(r[0]) && !IsSpace(r[|r| - 1])
  {
    TrimEnd(TrimStart(s))
  }

  /** The number of leading characters of `s` equal to `c`. */
  function LeadCount(s: string, c: char): (n: nat)
    ensures n <= |s|
    ensures forall i :: 0 <= i < n ==> s[i] == c
    ensures n < |s| ==> s[n] != c
  {
    if s != [] && s[0] == c then 1 + LeadCount(s[1..], c) else 0
  }

  /** `str::trim_matches(c)`: drop every leading and trailing `c`. */
  function TrimMatches(s: string, c: char): (r: string)
    ensures r != [] ==> r[0] != c && r[|r| - 1] != c
    decreases |s|
  {
    if s == [] then []
    else if s[0] == c then TrimMatches(s[1..], c)
    else if s[|s| - 1] == c then TrimMatches(s[..|s| - 1], c)
    else s
  }

  /** What `trim_matches` keeps starts right after the leading run of `c`,
      and everything after it is `c`. */
  predicate KeepsMiddle(s: string, c: char, r: string) {
    var k := LeadCount(s, c);
    k + |r| <= |s| && r == s[k..k + |r|] && forall i :: k + |r| <= i < |s| ==> s[i] == c
  }

  lemma {:induction false} TrimMatchesKeepsMiddle(s: string, c: char)
    ensures KeepsMiddle(s, c, TrimMatches(s, c))
    decreases |s|
  {
    if s == [] {
    } else if s[0] == c {
      TrimMatchesKeepsMiddle(s[1..], c);
      KeepsMiddleAfterLead(s, c, TrimMatches(s[1..], c));
    } else if s[|s| - 1] == c {
      TrimMatchesKeepsMiddle(s[..|s| - 1], c);
      KeepsMiddleBeforeTail(s, c, TrimMatches(s[..|s| - 1], c));
    } else {
      assert LeadCount(s, c) == 0;
    }
  }

  /** Swapping `a` for `b` and trimming `b`: what is kept is the original
      text from after its leading run of characters that become `b`, each
      shown swapped, up to where only such characters follow. */
  lemma ReplaceThenTrim(s: string, a: char, b: char)
    ensures var name := TrimMatches(SwapAll(s, a, b), b); var k := LeadCount(SwapAll(s, a, b), b);
      k + |name| <= |s| &&
      (forall i :: 0 <= i < k ==> SwapChar(s[i], a, b) == b) &&
      (forall i :: 0 <= i < |name| ==> name[i] == SwapChar(s[k + i], a, b)) &&
      (forall i :: k + |name| <= i < |s| ==> SwapChar(s[i], a, b) == b) &&
      (name != [] ==> name[0] != b && name[|name| - 1] != b)
  {
    TrimSwapped(s, SwapAll(s, a, b), a, b);
  }

  lemma TrimSwapped(s: string, d: string, a: char, b: char)
    requires |d| == |s| && forall i :: 0 <= i < |s| ==> d[i] == SwapChar(s[i], a, b)
    ensures var name := TrimMatches(d, b); var k := LeadCount(d, b);
      k + |name| <= |s| &&
      (forall i :: 0 <= i < k ==> SwapChar(s[i], a, b) == b) &&
      (forall i :: 0 <= i < |name| ==> name[i] == SwapChar(s[k + i], a, b)) &&
      (forall i :: k + |name| <= i < |s| ==> SwapChar(s[i], a, b) == b) &&
      (name != [] ==> name[0] != b && name[|name| - 1] != b)
  {
    var name := TrimMatches(d, b);
    var k := LeadCount(d, b);
    TrimMatchesKeepsMiddle(d, b);
    forall i | 0 <= i < |name| ensures name[i] == SwapChar(s[k + i], a, b) {
      assert name[i] == d[k + i];
    }
  }

  /** A text after one `a` that neither starts nor ends with a character
      becoming `b` keeps all of itself, swapped. */
  lemma ReplaceThenTrimAfterOne(w: string, a: char, b: char)
    requires w != [] && SwapChar(w[0], a, b) != b && SwapChar(w[|w| - 1], a, b) != b
    ensures TrimMatches(SwapAll([a] + w, a, b), b) == SwapAll(w, a, b)
  {
    var p := [a] + w;
    var d := SwapAll(p, a, b);
    ReplaceThenTrim(p, a, b);
    var name := TrimMatches(d, b);
    assert d[0] == b && d[1] == SwapChar(w[0], a, b);
    LeadCountOne(d, b);
    assert SwapChar(p[|p| - 1], a, b) != b by { assert p[|p| - 1] == w[|w| - 1]; }
    assert |name| == |w|;
    forall i | 0 <= i < |w|
      ensures name[i] == SwapAll(w, a, b)[i]
    {
      assert p[1 + i] == w[i];
    }
  }

  /** One `c` and then another character: a leading run of one. */
  lemma LeadCountOne(d: string, c: char)
    requires |d| >= 2 && d[0] == c && d[1] != c
    ensures LeadCount(d, c) == 1
  {
    assert d[1..][0] == d[1];
  }

  /** A leading `c` only lengthens the leading run. */
  lemma KeepsMiddleAfterLead(s: string, c: char, r: string)
    requires s != [] && s[0] == c && KeepsMiddle(s[1..], c, r)
    ensures KeepsMiddle(s, c, r)
  {
    var t := s[1..];
    var k := LeadCount(t, c);
    assert LeadCount(s, c) == 1 + k;
    assert k + |r| <= |t| && r == t[k..k + |r|];
    assert t[k..k + |r|] == s[1 + k..1 + k + |r|];
    forall i | 1 + k + |r| <= i < |s|
      ensures s[i] == c
    {
      assert s[i] == t[i - 1];
    }
  }

  /** A trailing `c` after a string that does not start with `c` is dropped. */
  lemma KeepsMiddleBeforeTail(s: string, c: char, r: string)
    requires s != [] && s[0] != c && s[|s| - 1] == c && KeepsMiddle(s[..|s| - 1], c, r)
    ensures KeepsMiddle(s, c, r)
  {
    var t := s[..|s| - 1];
    assert LeadCount(s, c) == 0;
    assert |s| == 1 || t[0] == s[0];
    assert LeadCount(t, c) == 0;
    assert r == t[..|r|] == s[..|r|];
    forall i | |r| <= i < |s|
      ensures s[i] == c
    {
      if i < |s| - 1 {
        assert s[i] == t[i];
      }
    }
  }

  /** `str::trim_end_matches(c)`: drop every trailing `c`. */
  function TrimEndMatches(s: string, c: char): (r: string)
    ensures |r| <= |s| && r == s[..|r|]
    ensures r != [] ==> r[|r| - 1] != c
    ensures forall i :: |r| <= i < |s| ==> s[i] == c
  {
    if s == [] || s[|s| - 1] != c then s else TrimEndMatches(s[..|s| - 1], c)
  }

  /** `str::replace(p, q)`: every non-overlapping occurrence of `p`, left to right. */
  function Replace(s: string, p: string, q: string): (r: string)
    requires |p| > 0
    decreases |s|
  {
    var n := Find(s, p);
    if n == |s| then s else s[..n] + q + Replace(s[n + |p|..], p, q)
  }

  /** `format!("{:>w}")`: `s` right-aligned in a field of `width` characters. */
  function PadLeft(s: string, width: nat, c: char): (r: string)
    ensures |r| == if |s| >= width then |s| else width
    ensures r[|r| - |s|..] == s
    ensures forall i :: 0 <= i < |r| - |s| ==> r[i] == c
  {
    if |s| >= width then s else seq(width - |s|, _ => c) + s
  }

  /** The character `c`, or `b` when `c` is `a`. */
  function SwapChar(c: char, a: char, b: char): char {
    if c == a then b else c
  }

  /** `str::replace` of the character `a` by the character `b`, position by position. */
  function SwapAll(s: string, a: char, b: char): (r: string)
    ensures |r| == |s| && forall i :: 0 <= i < |s| ==> r[i] == SwapChar(s[i], a, b)
  {
    seq(|s|, i requires 0 <= i < |s| => SwapChar(s[i], a, b))
  }

  /** Replacing one character by another works character by character. */
  lemma {:induction false} ReplaceChar(s: string, a: char, b: char)
    ensures Replace(s, [a], [b]) == SwapAll(s, a, b)
    decreases |s|
  {
    var n := Find(s, [a]);
    NoCharBeforeFind(s, a);
    if n < |s| {
      assert MatchAt(s, [a], n);
      assert s[n..n + 1] == [s[n]];
      var rest := s[n + 1..];
      ReplaceChar(rest, a, b);
      ReplaceCharStep(s, a, b, n, Replace(rest, [a], [b]));
    } else {
      assert s == SwapAll(s, a, b);
    }
  }

  /** Before the first match of a one-character pattern, no character is it. */
  lemma NoCharBeforeFind(s: string, a: char)
    ensures forall j :: 0 <= j < Find(s, [a]) ==> s[j] != a
  {
    forall j | 0 <= j < Find(s, [a])
      ensures s[j] != a
    {
      assert !MatchAt(s, [a], j);
      assert s[j..j + 1] == [s[j]];
    }
  }

  /** One replacement step: unchanged text, the swapped character, then the
      swapped rest. */
  lemma ReplaceCharStep(s: string, a: char, b: char, n: nat, tail: string)
    requires n < |s| && s[n] == a && forall j :: 0 <= j < n ==> s[j] != a
    requires tail == SwapAll(s[n + 1..], a, b)
    ensures s[..n] + [b] + tail == SwapAll(s, a, b)
  {
    var r := s[..n] + [b] + tail;
    assert forall i :: 0 <= i < |s| ==> r[i] == SwapAll(s, a, b)[i];
  }

  /** `char::to_ascii_lowercase` over a string. */
  function ToLower(s: string): (r: string)
    ensures |r| == |s|
    ensures forall i :: 0 <= i < |s| ==> r[i] == LowerChar(s[i])
  {
    if s == [] then [] else [LowerChar(s[0])] + ToLower(s[1..])
  }

  function LowerChar(c: char): char {
    if 'A' <= c <= 'Z' then (c as int + 32) as char else c
  }

  predicate NoUpper(s: string) { forall i :: 0 <= i < |s| ==> !('A' <= s[i] <= 'Z') }

  /** Lowering a string without capitals changes nothing. */
  lemma ToLowerOfLower(s: string)
    requires NoUpper(s)
    ensures ToLower(s) == s
  {
    assert forall i :: 0 <= i < |s| ==> ToLower(s)[i] == s[i];
  }

  /** `slice.join(sep)`. */
  function Join(parts: seq<string>, sep: string): string {
    if parts == [] then []
    else if |parts| == 1 then parts[0]
    else parts[0] + sep + Join(parts[1..], sep)
  }

  /** The pieces `f` gives each item, concatenated in item order. */
  function ConcatMap<T, U>(f: T -> seq<U>, items: seq<T>): seq<U> {
    if items == [] then [] else ConcatMap(f, items[..|items| - 1]) + f(items[|items| - 1])
  }

  /** Items contribute independently: mapping a concatenation concatenates the maps. */
  lemma {:induction false} ConcatMapAppend<T, U>(f: T -> seq<U>, a: seq<T>, b: seq<T>)
    ensures ConcatMap(f, a + b) == ConcatMap(f, a) + ConcatMap(f, b)
    decreases |b|
  {
    if b == [] {
      assert a + b == a;
    } else {
      var b0 := b[..|b| - 1];
      assert (a + b)[..|a + b| - 1] == a + b0;
      assert (a + b)[|a + b| - 1] == b[|b| - 1];
      ConcatMapAppend(f, a, b0);
    }
  }

  // ---------------------------------------------------------------------
  // Numbers

  /** The value of a string of decimal digits. */
  function DigitsValue(s: string): nat
    requires AllDigits(s)
  {
    if s == [] then 0 else 10 * DigitsValue(s[..|s| - 1]) + (s[|s| - 1] as int - '0' as int)
  }

  /** `str::parse::<uN>()` where `max` is the type's largest value: an optional '+'
      then one or more ASCII digits, and no overflow. */
  function ParseUnsigned(s: string, max: nat): (r: Option<nat>)
    ensures r.Some? ==> r.value <= max
    ensures r.Some? ==> var d := if StartsWith(s, "+") then s[1..] else s;
                        |d| > 0 && AllDigits(d) && r.value == DigitsValue(d)
    ensures s == [] || !(IsDigit(s[0]) || s[0] == '+') ==> r.None?
  {
    var d := if StartsWith(s, "+") then s[1..] else s;
    if |d| == 0 || !AllDigits(d) then None
    else if DigitsValue(d) > max then None
    else Some(DigitsValue(d))
  }

  const U8_MAX: nat := 0xFF
  const U16_MAX: nat := 0xFFFF
  const U32_MAX: nat := 0xFFFF_FFFF
  const U64_MAX: nat := 0xFFFF_FFFF_FFFF_FFFF

  function ParseU8(s: string): Option<nat> { ParseUnsigned(s, U8_MAX) }
  function ParseU16(s: string): Option<nat> { ParseUnsigned(s, U16_MAX) }
  function ParseU32(s: string): Option<nat> { ParseUnsigned(s, U32_MAX) }
  function ParseU64(s: string): Option<nat> { ParseUnsigned(s, U64_MAX) }
  function ParseUsize(s: string): Option<nat> { ParseUnsigned(s, U64_MAX) }

  /** Rust's saturating float-to-unsigned `as` cast of a finite value onto
      `0..=max`: negative values become 0, values past the range become `max`,
      the rest truncate toward zero. */
  function SaturatingCast(x: real, max: nat): (r: nat)
    ensures r <= max
    ensures x <= 0.0 ==> r == 0
    ensures x >= (max + 1) as real ==> r == max
    ensures 0.0 <= x < (max + 1) as real ==> r as real <= x < r as real + 1.0
  {
    if x <= 0.0 then 0 else if x >= (max + 1) as real then max else x.Floor
  }

  /** The cast preserves order. */
  lemma SaturatingCastMonotone(x: real, y: real, max: nat)
    requires x <= y
    ensures SaturatingCast(x, max) <= SaturatingCast(y, max)
  {
    if 0.0 < x && y < (max + 1) as real {
      assert SaturatingCast(x, max) as real <= x <= y < SaturatingCast(y, max) as real + 1.0;
    }
  }

  const I64_MAX: nat := 0x7FFF_FFFF_FFFF_FFFF

  /** `str::parse::<i64>()`: an optional sign then one or more ASCII digits,
      within the type's range. */
  function ParseI64(s: string): (r: Option<int>)
    ensures r.Some? ==> -(I64_MAX + 1) <= r.value <= I64_MAX
    ensures r.Some? && r.value < 0 ==> StartsWith(s, "-")
    ensures !StartsWith(s, "-") ==> (r.Some? <==> ParseUnsigned(s, I64_MAX).Some?)
    ensures !StartsWith(s, "-") && r.Some? ==> r.value == ParseUnsigned(s, I64_MAX).value
  {
    if StartsWith(s, "-") then
      var d := s[1..];
      if |d| > 0 && AllDigits(d) && DigitsValue(d) <= I64_MAX + 1 then Some(-(DigitsValue(d) as int)) else None
    else
      match ParseUnsigned(s, I64_MAX)
      case Some(v) => Some(v)
      case None => None
  }

  function Pow10(k: nat): (r: nat)
    ensures r >= 1
  {
    if k == 0 then 1 else 10 * Pow10(k - 1)
  }

  /** The decimal part of `str::parse::<f64>()`: an optional sign, digits, and an
      optional '.' with more digits, at least one digit in all. */
  function ParseDecimal(s: string): (r: Option<real>)
    ensures s == [] ==> r.None?
  {
    var neg := StartsWith(s, "-");
    var body := if StartsWith(s, "-") || StartsWith(s, "+") then s[1..] else s;
    var dot := Find(body, ".");
    var ip := body[..dot];
    var fp := if dot == |body| then [] else body[dot + 1..];
    if |ip| + |fp| == 0 || !AllDigits(ip) || !AllDigits(fp) then None
    else
      var v := DecimalValue(ip, fp);
      Some(if neg then -v else v)
  }

  /** The value of the digits `ip` "." `fp`. */
  function DecimalValue(ip: string, fp: string): (v: real)
    requires AllDigits(ip) && AllDigits(fp)
    ensures fp == [] ==> v == DigitsValue(ip) as real
  {
    DigitsValue(ip) as real + DigitsValue(fp) as real / Pow10(|fp|) as real
  }

  function DigitChar(d: nat): char
    requires d < 10
  {
    ('0' as int + d) as char
  }

  /** Decimal rendering of a natural number, as `format!("{}", n)` does. */
  function NatToString(n: nat): (r: string)
    ensures |r| > 0 && AllDigits(r)
    ensures r[0] != '0' || n == 0
  {
    if n < 10 then [DigitChar(n)] else NatToString(n / 10) + [DigitChar(n % 10)]
  }

  /** Rendering and reading back a natural gives the same number. */
  lemma {:induction false} DigitsValueOfNatToString(n: nat)
    ensures DigitsValue(NatToString(n)) == n
  {
    if n >= 10 {
      var s := NatToString(n);
      assert s[..|s| - 1] == NatToString(n / 10);
      DigitsValueOfNatToString(n / 10);
    }
  }

  /** `n.to_string().parse::<uN>()` succeeds with `n` exactly when `n` fits the type. */
  lemma ParseUnsignedOfNatToString(n: nat, max: nat)
    ensures ParseUnsigned(NatToString(n), max) == if n <= max then Some(n) else None
  {
    var s := NatToString(n);
    assert !StartsWith(s, "+") by { assert IsDigit(s[0]); }
    DigitsValueOfNatToString(n);
  }

  /** A word keeps its shape under `trim`, with or without a trailing newline. */
  lemma TrimOfWord(s: string)
    requires s != [] && NoSpace(s)
    ensures Trim(s) == s && Trim(s + "\n") == s
  {
    assert SpaceLen(s) == 0;
    assert SpaceLen(s + "\n") == 0;
    assert s[0..] == s && (s + "\n")[0..] == s + "\n";
    assert (s + "\n")[..|s + "\n"| - 1] == s;
  }

  predicate AllSpace(s: string) { forall i :: 0 <= i < |s| ==> IsSpace(s[i]) }

  lemma {:induction false} SpaceLenOfPrefix(sp: string, t: string)
    requires AllSpace(sp)
    requires t == [] || !IsSpace(t[0])
    ensures SpaceLen(sp + t) == |sp|
    decreases |sp|
  {
    if sp == [] {
      assert sp + t == t;
    } else {
      assert (sp + t)[1..] == sp[1..] + t;
      assert AllSpace(sp[1..]) by {
        forall i | 0 <= i < |sp[1..]| ensures IsSpace(sp[1..][i]) { assert sp[1..][i] == sp[i + 1]; }
      }
      SpaceLenOfPrefix(sp[1..], t);
    }
  }

  lemma {:induction false} WordLenOfPrefix(w: string, t: string)
    requires NoSpace(w)
    requires t == [] || IsSpace(t[0])
    ensures WordLen(w + t) == |w|
    decreases |w|
  {
    if w == [] {
      assert w + t == t;
    } else {
      assert (w + t)[1..] == w[1..] + t;
      assert NoSpace(w[1..]) by {
        forall i | 0 <= i < |w[1..]| ensures !IsSpace(w[1..][i]) { assert w[1..][i] == w[i + 1]; }
      }
      WordLenOfPrefix(w[1..], t);
    }
  }

  /** Leading whitespace, a word, then whitespace or the end: the word comes first. */
  lemma SplitWhitespaceCons(sp: string, w: string, rest: string)
    requires AllSpace(sp) && |w| > 0 && NoSpace(w)
    requires rest == [] || IsSpace(rest[0])
    ensures SplitWhitespace(sp + w + rest) == [w] + SplitWhitespace(rest)
  {
    var s := sp + w + rest;
    assert s == sp + (w + rest);
    SpaceLenOfPrefix(sp, w + rest);
    assert s[|sp|..] == w + rest;
    WordLenOfPrefix(w, rest);
    assert s[|sp|..|sp| + |w|] == w;
    assert s[|sp| + |w|..] == rest;
  }

  /** `split_whitespace` undoes joining words with single spaces, after any
      leading whitespace. */
  lemma {:induction false} SplitWhitespaceJoin(sp: string, ws: seq<string>)
    requires AllSpace(sp)
    requires forall i :: 0 <= i < |ws| ==> |ws[i]| > 0 && NoSpace(ws[i])
    ensures SplitWhitespace(sp + Join(ws, " ")) == ws
    decreases |ws|
  {
    if ws == [] {
      assert sp + Join(ws, " ") == sp + [];
      SpaceLenOfPrefix(sp, []);
      assert sp + [] == sp;
    } else if |ws| == 1 {
      var none: string := [];
      SplitWhitespaceCons(sp, ws[0], none);
      assert sp + ws[0] + none == sp + Join(ws, " ");
      assert SplitWhitespace(none) == [];
    } else {
      var rest := ws[1..];
      forall i | 0 <= i < |rest| ensures |rest[i]| > 0 && NoSpace(rest[i]) {
        assert rest[i] == ws[i + 1];
      }
      assert AllSpace(" ") by { assert " "[0] == ' '; }
      SplitWhitespaceJoin(" ", rest);
      SplitWhitespaceJoinStep(sp, ws[0], rest);
      assert [ws[0]] + rest == ws;
    }
  }

  /** One step of `SplitWhitespaceJoin`: the first word, then the rest. */
  lemma SplitWhitespaceJoinStep(sp: string, w: string, rest: seq<string>)
    requires AllSpace(sp) && |w| > 0 && NoSpace(w) && |rest| > 0
    requires SplitWhitespace(" " + Join(rest, " ")) == rest
    ensures SplitWhitespace(sp + Join([w] + rest, " ")) == [w] + rest
  {
    var tail := Join(rest, " ");
    var ws := [w] + rest;
    assert ws[0] == w && ws[1..] == rest;
    assert Join(ws, " ") == w + " " + tail;
    assert sp + Join(ws, " ") == sp + w + (" " + tail);
    SplitWhitespaceCons(sp, w, " " + tail);
  }

  /** A rendered natural has no whitespace. */
  lemma NatToStringIsWord(n: nat)
    ensures |NatToString(n)| > 0 && NoSpace(NatToString(n))
  {
    var s := NatToString(n);
    forall i | 0 <= i < |s| ensures !IsSpace(s[i]) { assert IsDigit(s[i]); }
  }

  /** Splitting a string that does not contain the separator gives it back alone. */
  lemma SplitWithoutSeparator(s: string, p: string)
    requires |p| > 0
    requires Find(s, p) == |s|
    ensures Split(s, p) == [s]
  {
  }

  /** Where a split finds the separator, the input is the first piece, the
      separator and the rest. */
  lemma SplitStep(s: string, p: string)
    requires |p| > 0 && Find(s, p) < |s|
    ensures var n := Find(s, p);
      n + |p| <= |s| && Split(s, p) == [s[..n]] + Split(s[n + |p|..], p) &&
      s == s[..n] + p + s[n + |p|..]
  {
    var n := Find(s, p);
    assert MatchAt(s, p, n);
    SliceThree(s, n, n + |p|);
  }

  lemma SliceThree(s: string, i: nat, j: nat)
    requires i <= j <= |s|
    ensures s == s[..i] + s[i..j] + s[j..]
  {
  }

  /** Joining the pieces of a split with the separator gives back the input. */
  lemma {:induction false} JoinSplit(s: string, p: string)
    requires |p| > 0
    ensures Join(Split(s, p), p) == s
    decreases |s|
  {
    var n := Find(s, p);
    if n < |s| {
      SplitStep(s, p);
      var rest := s[n + |p|..];
      var parts := Split(rest, p);
      JoinSplit(rest, p);
      assert ([s[..n]] + parts)[1..] == parts;
      assert Join([s[..n]] + parts, p) == s[..n] + p + Join(parts, p);
    }
  }

  /** Every word of `split_whitespace` is a non-empty run without whitespace, and
      the words of a string without whitespace are the string itself. */
  lemma SplitWhitespaceOfWord(s: string)
    requires |s| > 0 && NoSpace(s)
    ensures SplitWhitespace(s) == [s]
  {
    var none: string := [];
    SplitWhitespaceCons(none, s, none);
    assert none + s + none == s;
    assert SplitWhitespace(none) == [];
  }

  lemma {:induction false} WordLenOfNoSpace(s: string)
    requires NoSpace(s)
    ensures WordLen(s) == |s|
  {
    if s != [] {
      WordLenOfNoSpace(s[1..]);
    }
  }

  lemma NatToStringInjective(a: nat, b: nat)
    requires NatToString(a) == NatToString(b)
    ensures a == b
  {
    DigitsValueOfNatToString(a);
    DigitsValueOfNatToString(b);
  }

  /** A label `prefix + n + suffix` determines `n`. */
  lemma LabelInjective(prefix: string, a: nat, b: nat, suffix: string)
    requires prefix + NatToString(a) + suffix == prefix + NatToString(b) + suffix
    ensures a == b
  {
    var x, y := NatToString(a), NatToString(b);
    var s, t := prefix + x + suffix, prefix + y + suffix;
    assert |x| == |y|;
    assert s[|prefix|..|prefix| + |x|] == x;
    assert t[|prefix|..|prefix| + |y|] == y;
    NatToStringInjective(a, b);
  }

  /** When two digit strings are each followed by the same separator, the
      separator's position tells both pieces apart. */
  lemma DigitsThenCharUnique(a: string, b: string, c: string, d: string, sep: char)
    requires AllDigits(a) && AllDigits(c) && !IsDigit(sep)
    requires a + [sep] + b == c + [sep] + d
    ensures a == c && b == d
  {
    var s := a + [sep] + b;
    assert forall k :: 0 <= k < |a| ==> IsDigit(s[k]);
    assert !IsDigit(s[|a|]);
    assert forall k :: 0 <= k < |c| ==> IsDigit(s[k]);
    assert !IsDigit(s[|c|]);
    assert |a| == |c|;
    assert a == s[..|a|] == c;
    assert b == s[|a| + 1..] == d;
  }

  /** A pattern that starts with a character `a` lacks occurs in `a + p + t`
      first right after `a`. */
  lemma FindAfterFree(a: string, p: string, t: string)
    requires |p| > 0 && !ContainsChar(a, p[0])
    ensures Find(a + p + t, p) == |a|
  {
    var s := a + p + t;
    assert MatchAt(s, p, |a|) by { assert s[|a|..|a| + |p|] == p; }
  }

  /** A string that lacks the pattern's first character does not contain the pattern. */
  lemma FindInFree(s: string, p: string)
    requires |p| > 0 && !ContainsChar(s, p[0])
    ensures Find(s, p) == |s|
  {
  }

  /** Splitting a join gives the parts back when no part contains the
      separator's first character. */
  lemma {:induction false} SplitJoin(parts: seq<string>, p: string)
    requires |p| > 0 && |parts| > 0
    requires forall i :: 0 <= i < |parts| ==> !ContainsChar(parts[i], p[0])
    ensures Split(Join(parts, p), p) == parts
    decreases |parts|
  {
    if |parts| == 1 {
      FindInFree(parts[0], p);
    } else {
      var rest := Join(parts[1..], p);
      FindAfterFree(parts[0], p, rest);
      var s := parts[0] + p + rest;
      assert s[..|parts[0]|] == parts[0];
      assert s[|parts[0]| + |p|..] == rest;
      SplitJoin(parts[1..], p);
      assert [parts[0]] + parts[1..] == parts;
    }
  }

  /** A string without a line break whose ends are not whitespace is its own
      trimmed single line, with or without a final newline. */
  lemma SingleLine(s: string)
    requires s != [] && !IsSpace(s[0]) && !IsSpace(s[|s| - 1]) && !ContainsChar(s, '\n')
    ensures Trim(s) == s && Trim(s + "\n") == s && Lines(s) == [s]
  {
    assert SpaceLen(s) == 0;
    assert SpaceLen(s + "\n") == 0;
    assert s[0..] == s && (s + "\n")[0..] == s + "\n";
    assert (s + "\n")[..|s + "\n"| - 1] == s;
    FindInFree(s, "\n");
    assert !EndsWith(s, "\r") by { assert s[|s| - 1..][0] == s[|s| - 1]; }
  }

  /** A join starts with its first part's first character and ends with its
      last part's last character. */
  lemma {:induction false} JoinEnds(parts: seq<string>, sep: string)
    requires |parts| > 0 && parts[0] != [] && parts[|parts| - 1] != []
    ensures var j := Join(parts, sep);
      j != [] && j[0] == parts[0][0] && j[|j| - 1] == parts[|parts| - 1][|parts[|parts| - 1]| - 1]
    decreases |parts|
  {
    JoinLast(parts, sep);
  }

  /** A join whose last part is non-empty ends with that part's last character. */
  lemma {:induction false} JoinLast(parts: seq<string>, sep: string)
    requires |parts| > 0 && parts[|parts| - 1] != []
    ensures var j := Join(parts, sep);
      j != [] && j[|j| - 1] == parts[|parts| - 1][|parts[|parts| - 1]| - 1]
    decreases |parts|
  {
    if |parts| > 1 {
      JoinLast(parts[1..], sep);
    }
  }

  /** A character that neither the parts nor the separator hold is not in
      their join. */
  lemma {:induction false} JoinLacks(parts: seq<string>, sep: string, c: char)
    requires forall i :: 0 <= i < |parts| ==> !ContainsChar(parts[i], c)
    requires !ContainsChar(sep, c)
    ensures !ContainsChar(Join(parts, sep), c)
    decreases |parts|
  {
    if |parts| > 1 {
      forall i | 0 <= i < |parts[1..]| ensures !ContainsChar(parts[1..][i], c) {
        assert parts[1..][i] == parts[i + 1];
      }
      JoinLacks(parts[1..], sep, c);
      var rest := Join(parts[1..], sep);
      var j := parts[0] + sep + rest;
      forall k | 0 <= k < |j| ensures j[k] != c {
        if k < |parts[0]| {
          assert j[k] == parts[0][k];
        } else if k < |parts[0]| + |sep| {
          assert j[k] == sep[k - |parts[0]|];
        } else {
          assert j[k] == rest[k - |parts[0]| - |sep|];
        }
      }
    }
  }

  /** A rendered natural reads back as a decimal with no fraction. */
  lemma ParseDecimalOfNatToString(n: nat)
    ensures ParseDecimal(NatToString(n)) == Some(n as real)
  {
    ParseDecimalOfDigits(NatToString(n));
    DigitsValueOfNatToString(n);
  }

  /** Text that starts with anything but a digit, a sign or '.' is no decimal. */
  lemma ParseDecimalRejectsLead(s: string)
    requires s != [] && !IsDigit(s[0]) && s[0] != '-' && s[0] != '+' && s[0] != '.'
    ensures ParseDecimal(s).None?
  {
    assert !StartsWith(s, "-") && !StartsWith(s, "+") by { assert s[..1] == [s[0]]; }
    assert !MatchAt(s, ".", 0) by { assert s[0..1] == [s[0]]; }
    var ip := s[..Find(s, ".")];
    assert ip[0] == s[0];
  }

  /** Digits hold no separator characters. */
  lemma DigitsFree(s: string, c: char)
    requires AllDigits(s) && !IsDigit(c)
    ensures !ContainsChar(s, c)
  {
  }

  /** Plain digits read as their value. */
  lemma ParseDecimalOfDigits(s: string)
    requires |s| > 0 && AllDigits(s)
    ensures ParseDecimal(s) == Some(DigitsValue(s) as real)
  {
    assert !StartsWith(s, "-") && !StartsWith(s, "+") by { assert IsDigit(s[0]); }
    FindInFree(s, ".");
    assert s[..|s|] == s;
  }

  // ---------------------------------------------------------------------
  // Integer parse errors

  /** `IntErrorKind` for an unsigned target type. */
  datatype IntErrorKind = EmptyInput | InvalidDigit | PosOverflow

  /** The `Display` text of a `ParseIntError` of each kind. */
  function IntErrorText(k: IntErrorKind): string {
    match k
    case EmptyInput => "cannot parse integer from empty string"
    case InvalidDigit => "invalid digit found in string"
    case PosOverflow => "number too large to fit in target type"
  }

  /** The digit loop of `from_str_radix`, left to right: a non-digit is reported
      before the overflow its position would cause. */
  function ScanDigits(d: string, acc: nat, max: nat): Option<IntErrorKind>
    requires acc <= max
    decreases |d|
  {
    if d == [] then None
    else if !IsDigit(d[0]) then Some(InvalidDigit)
    else
      var v := acc * 10 + (d[0] as int - '0' as int);
      if v > max then Some(PosOverflow) else ScanDigits(d[1..], v, max)
  }

  /** The error `str::parse::<uN>()` reports, or `None` when it succeeds. */
  function IntError(s: string, max: nat): Option<IntErrorKind> {
    if s == [] then Some(EmptyInput)
    else if s == "+" then Some(InvalidDigit)
    else ScanDigits(if s[0] == '+' then s[1..] else s, 0, max)
  }

  /** The `Display` text of the error a rejected text produces. */
  function ParseErrorText(t: string, max: nat): string {
    match IntError(t, max)
    case Some(k) => IntErrorText(k)
    case None => ""
  }

  /** Reading the first digit off the front of a digit string. */
  lemma {:induction false} DigitsValueCons(c: char, r: string)
    requires IsDigit(c) && AllDigits(r)
    ensures AllDigits([c] + r)
    ensures DigitsValue([c] + r) == (c as int - '0' as int) * Pow10(|r|) + DigitsValue(r)
    decreases |r|
  {
    var s := [c] + r;
    AllDigitsCons(c, r);
    if r != [] {
      var r0 := r[..|r| - 1];
      AllDigitsPrefix(r, |r| - 1);
      DigitsValueCons(c, r0);
      assert s[..|s| - 1] == [c] + r0;
      assert s[|s| - 1] == r[|r| - 1];
      HornerStep(c as int - '0' as int, Pow10(|r0|), DigitsValue(r0), r[|r| - 1] as int - '0' as int);
    }
  }

  lemma HornerStep(dc: int, p: int, v: int, last: int)
    ensures 10 * (dc * p + v) + last == dc * (10 * p) + (10 * v + last)
  {
  }

  lemma AllDigitsCons(c: char, r: string)
    requires IsDigit(c)
    ensures AllDigits([c] + r) <==> AllDigits(r)
  {
    var s := [c] + r;
    if AllDigits(r) {
      forall i | 0 <= i < |s| ensures IsDigit(s[i]) {
        if i > 0 { assert s[i] == r[i - 1]; }
      }
    }
    if AllDigits(s) {
      forall i | 0 <= i < |r| ensures IsDigit(r[i]) { assert r[i] == s[i + 1]; }
    }
  }

  lemma AllDigitsPrefix(r: string, n: nat)
    requires AllDigits(r) && n <= |r|
    ensures AllDigits(r[..n])
  {
    forall i | 0 <= i < n ensures IsDigit(r[..n][i]) { assert r[..n][i] == r[i]; }
  }

  /** Continuing a scan from `acc` over a leading digit `dc` is continuing from
      `acc * 10 + dc` over the rest. */
  lemma ShiftAccumulator(acc: int, dc: int, p: int, rest: int)
    requires p >= 1 && acc >= 0 && dc >= 0
    ensures acc * (10 * p) + (dc * p + rest) == (acc * 10 + dc) * p + rest
    ensures (acc * 10 + dc) * p >= acc * 10 + dc
  {
  }

  /** The scan succeeds exactly when every character is a digit and the value,
      continuing from `acc`, fits. */
  lemma {:induction false} ScanDigitsAccepts(d: string, acc: nat, max: nat)
    requires acc <= max
    ensures ScanDigits(d, acc, max).None? <==> AllDigits(d) && acc * Pow10(|d|) + DigitsValue(d) <= max
    ensures ScanDigits(d, acc, max).Some? && AllDigits(d) ==> ScanDigits(d, acc, max) == Some(PosOverflow)
    decreases |d|
  {
    if d != [] {
      var r := d[1..];
      assert d == [d[0]] + r;
      if !IsDigit(d[0]) {
        assert !AllDigits(d);
      } else {
        var dc := d[0] as int - '0' as int;
        var v := acc * 10 + dc;
        AllDigitsCons(d[0], r);
        var p := Pow10(|r|);
        assert Pow10(|d|) == 10 * p;
        if AllDigits(r) {
          DigitsValueCons(d[0], r);
          ShiftAccumulator(acc, dc, p, DigitsValue(r));
        }
        if v <= max {
          ScanDigitsAccepts(r, v, max);
        } else {
          assert ScanDigits(d, acc, max) == Some(PosOverflow);
        }
      }
    }
  }

  /** `str::parse::<uN>()` reports an error exactly when it fails, and an input of
      digits only can fail just by overflowing. */
  lemma IntErrorIffRejected(s: string, max: nat)
    ensures IntError(s, max).None? <==> ParseUnsigned(s, max).Some?
    ensures s != [] && AllDigits(s) && ParseUnsigned(s, max).None? ==> IntError(s, max) == Some(PosOverflow)
  {
    if s != [] && s != "+" {
      var d := if s[0] == '+' then s[1..] else s;
      assert StartsWith(s, "+") <==> s[0] == '+';
      ScanDigitsAccepts(d, 0, max);
    }
  }

  /** Examples: "42" parses; "" is empty; "4x" and "+" have an invalid digit; "70000"
      overflows a u16. */
  lemma IntErrorExamples()
    ensures IntError("42", U16_MAX).None?
    ensures IntError("", U16_MAX) == Some(EmptyInput)
    ensures IntError("4x", U16_MAX) == Some(InvalidDigit)
    ensures IntError("+", U16_MAX) == Some(InvalidDigit)
    ensures IntError("70000", U16_MAX) == Some(PosOverflow)
  {
  }
}
