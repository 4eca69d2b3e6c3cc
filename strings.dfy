/**
 * String helpers with the semantics of the Rust `str`/`char` operations the
 * document loader relies on. Strings are sequences of Unicode scalar values;
 * where the source measures a string with `len()` (a UTF-8 byte count) the
 * model uses `ByteLen`.
 */
module Strings {

  datatype Option<T> = None | Some(value: T)

  // ---------------------------------------------------------------------------
  // Character classes
  // ---------------------------------------------------------------------------

  /** The Unicode White_Space property: what `str::trim`, `char::is_whitespace`
      and the regex class `\s` treat as white space. */
  predicate IsWhitespace(c: char)
  {
    ('\t' <= c <= '\r') || c == ' ' || c == '\U{85}' || c == '\U{A0}' || c == '\U{1680}'
    || ('\U{2000}' <= c <= '\U{200A}') || c == '\U{2028}' || c == '\U{2029}'
    || c == '\U{202F}' || c == '\U{205F}' || c == '\U{3000}'
  }

  predicate IsAsciiDigit(c: char) { '0' <= c <= '9' }
  predicate IsAsciiUpper(c: char) { 'A' <= c <= 'Z' }
  predicate IsAsciiLower(c: char) { 'a' <= c <= 'z' }
  predicate IsAsciiAlpha(c: char) { IsAsciiUpper(c) || IsAsciiLower(c) }

  /** `char::is_ascii_punctuation`. */
  predicate IsAsciiPunctuation(c: char)
  {
    ('!' <= c <= '/') || (':' <= c <= '@') || ('[' <= c <= '`') || ('{' <= c <= '~')
  }

  /** `char::to_lowercase` restricted to ASCII: other characters are unchanged. */
  function ToLowerChar(c: char): (r: char)
    ensures IsAsciiUpper(c) ==> IsAsciiLower(r)
    ensures !IsAsciiUpper(c) ==> r == c
  {
    if IsAsciiUpper(c) then (c as int + 32) as char else c
  }

  function Lower(s: string): (r: string)
    ensures |r| == |s|
    ensures forall i :: 0 <= i < |s| ==> r[i] == ToLowerChar(s[i])
  {
    if s == [] then [] else [ToLowerChar(s[0])] + Lower(s[1..])
  }

  // ---------------------------------------------------------------------------
  // UTF-8 length
  // ---------------------------------------------------------------------------

  /** Number of bytes of the UTF-8 encoding of one scalar value. */
  function Utf8Len(c: char): nat
  {
    if c as int < 0x80 then 1 else if c as int < 0x800 then 2
    else if c as int < 0x1_0000 then 3 else 4
  }

  /** `str::len`: the length of the UTF-8 encoding. */
  function ByteLen(s: string): nat
  {
    if s == [] then 0 else Utf8Len(s[0]) + ByteLen(s[1..])
  }

  lemma {:induction false} ByteLenAppend(a: string, b: string)
    ensures ByteLen(a + b) == ByteLen(a) + ByteLen(b)
  {
    if a != [] {
      assert (a + b)[0] == a[0];
      assert (a + b)[1..] == a[1..] + b;
      ByteLenAppend(a[1..], b);
    } else {
      assert a + b == b;
    }
  }

  lemma {:induction false} ByteLenAtLeastLength(s: string)
    ensures |s| <= ByteLen(s)
  {
    if s != [] { ByteLenAtLeastLength(s[1..]); }
  }

  // ---------------------------------------------------------------------------
  // Prefixes, suffixes, search
  // ---------------------------------------------------------------------------

  predicate StartsWith(s: string, p: string) { |p| <= |s| && s[..|p|] == p }
  predicate EndsWith(s: string, p: string) { |p| <= |s| && s[|s| - |p|..] == p }

  /** First index at or after `i` where `p` occurs in `s`. */
  function FindFrom(s: string, p: string, i: nat): (r: Option<nat>)
    requires i <= |s|
    ensures r.Some? ==> i <= r.value <= |s| && StartsWith(s[r.value..], p)
    ensures r.Some? ==> forall k :: i <= k < r.value ==> !StartsWith(s[k..], p)
    ensures r.None? ==> forall k :: i <= k <= |s| ==> !StartsWith(s[k..], p)
    decreases |s| - i
  {
    if StartsWith(s[i..], p) then Some(i)
    else if i == |s| then None
    else FindFrom(s, p, i + 1)
  }

  /** `str::find`, as a character index. */
  function Find(s: string, p: string): Option<nat>
  {
    FindFrom(s, p, 0)
  }

  predicate Contains(s: string, p: string) { Find(s, p).Some? }

  function StripPrefix(s: string, p: string): Option<string>
  {
    if StartsWith(s, p) then Some(s[|p|..]) else None
  }

  /** Number of non-overlapping occurrences of a non-empty `p`, scanning left to
      right (`str::matches(p).count()`). */
  function CountMatches(s: string, p: string): nat
    requires |p| > 0
  {
    CountFrom(s, p, 0)
  }

  /** Non-overlapping occurrences of `p` at or after `i`, found left to right. */
  function CountFrom(s: string, p: string, i: nat): nat
    requires |p| > 0 && i <= |s|
    decreases |s| - i
  {
    match FindFrom(s, p, i)
    case None => 0
    case Some(j) => 1 + CountFrom(s, p, j + |p|)
  }

  /** `str::split(sep)` for a non-empty separator. */
  function SplitOn(s: string, sep: string): (r: seq<string>)
    requires |sep| > 0
    ensures |r| >= 1
    decreases |s|
  {
    match Find(s, sep)
    case None => [s]
    case Some(j) => [s[..j]] + SplitOn(s[j + |sep|..], sep)
  }

  /** `s.split(sep).next()`: the part before the first separator. */
  function BeforeFirst(s: string, sep: string): (r: string)
    ensures StartsWith(s, r)
  {
    match Find(s, sep)
    case None => s
    case Some(j) => s[..j]
  }

  // ---------------------------------------------------------------------------
  // Trimming and words
  // ---------------------------------------------------------------------------

  function TrimStart(s: string): (r: string)
    ensures |r| <= |s| && r == s[|s| - |r|..]
    ensures r == [] || !IsWhitespace(r[0])
    ensures forall i :: 0 <= i < |s| - |r| ==> IsWhitespace(s[i])
  {
    if s != [] && IsWhitespace(s[0]) then TrimStart(s[1..]) else s
  }

  function TrimEnd(s: string): (r: string)
    ensures |r| <= |s| && r == s[..|r|]
    ensures r == [] || !IsWhitespace(r[|r| - 1])
  {
    if s != [] && IsWhitespace(s[|s| - 1]) then TrimEnd(s[..|s| - 1]) else s
  }

  function Trim(s: string): string
  {
    TrimEnd(TrimStart(s))
  }

  /** A string without white space at either end is its own trim. */
  lemma TrimClean(s: string)
    requires s == [] || (!IsWhitespace(s[0]) && !IsWhitespace(s[|s| - 1]))
    ensures Trim(s) == s
  {
  }

  /** Leading white space is skipped up to the first other character. */
  lemma {:induction false} TrimStartSkip(w: string, x: string)
    requires forall i :: 0 <= i < |w| ==> IsWhitespace(w[i])
    requires x == [] || !IsWhitespace(x[0])
    ensures TrimStart(w + x) == x
  {
    if w == [] {
      assert w + x == x;
    } else {
      assert (w + x)[1..] == w[1..] + x;
      TrimStartSkip(w[1..], x);
    }
  }

  /** Drop every trailing occurrence of `c` (`str::trim_end_matches(c)`). */
  function TrimEndChar(s: string, c: char): (r: string)
    ensures |r| <= |s| && r == s[..|r|]
    ensures r == [] || r[|r| - 1] != c
    ensures s != [] && s[0] != c ==> r != []
    ensures s == [] || s[|s| - 1] != c ==> r == s
  {
    if s != [] && s[|s| - 1] == c then TrimEndChar(s[..|s| - 1], c) else s
  }

  /** `str::split_whitespace`: the maximal runs of non-white-space characters. */
  function Words(s: string): seq<string>
    decreases |s|
  {
    var t := TrimStart(s);
    if t == [] then []
    else
      var n := WordLength(t);
      [t[..n]] + Words(t[n..])
  }

  function WordLength(t: string): (n: nat)
    ensures 0 < n <= |t| || (t == [] && n == 0) || (t != [] && IsWhitespace(t[0]) && n == 0)
    ensures n <= |t|
  {
    if t == [] || IsWhitespace(t[0]) then 0 else 1 + WordLength(t[1..])
  }

  function WordCount(s: string): nat { |Words(s)| }

  // ---------------------------------------------------------------------------
  // Building strings
  // ---------------------------------------------------------------------------

  function Concat(parts: seq<string>): string
  {
    if parts == [] then "" else parts[0] + Concat(parts[1..])
  }

  lemma {:induction false} ConcatAppend(a: seq<string>, b: seq<string>)
    ensures Concat(a + b) == Concat(a) + Concat(b)
  {
    if a != [] {
      assert (a + b)[0] == a[0];
      assert (a + b)[1..] == a[1..] + b;
      ConcatAppend(a[1..], b);
    } else {
      assert a + b == b;
    }
  }

  lemma AppendAssoc(a: string, b: string, c: string)
    ensures (a + b) + c == a + (b + c)
  {
  }

  /** Regrouping a concatenation of five strings. */
  lemma Regroup5(a: string, b: string, c: string, d: string, e: string)
    ensures a + b + c + d + e == a + (b + (c + (d + e)))
    ensures a + b + c + d + e == (a + b + c) + (d + e)
  {
  }

  /** The two halves of a concatenation. */
  lemma Halves(a: string, b: string)
    ensures (a + b)[..|a|] == a && (a + b)[|a|..] == b
  {
  }

  /** `parts.join(sep)`. */
  function Join(parts: seq<string>, sep: string): string
  {
    if parts == [] then ""
    else if |parts| == 1 then parts[0]
    else parts[0] + sep + Join(parts[1..], sep)
  }

  function Repeat(s: string, n: nat): string
  {
    if n == 0 then "" else s + Repeat(s, n - 1)
  }

  function DigitChar(d: nat): (c: char)
    requires d < 10
    ensures IsAsciiDigit(c)
  {
    ('0' as int + d) as char
  }

  /** Decimal rendering of a natural number (`to_string` / `format!("{n}")`). */
  function NatToString(n: nat): (s: string)
    ensures |s| > 0
    ensures forall i :: 0 <= i < |s| ==> IsAsciiDigit(s[i])
  {
    if n < 10 then [DigitChar(n)] else NatToString(n / 10) + [DigitChar(n % 10)]
  }

  function DigitValue(c: char): (d: nat)
    requires IsAsciiDigit(c)
    ensures d < 10 && DigitChar(d) == c
  {
    c as int - '0' as int
  }

  /** Decimal value of a string of ASCII digits. */
  function ParseDigits(s: string): nat
    requires forall i :: 0 <= i < |s| ==> IsAsciiDigit(s[i])
  {
    if s == [] then 0
    else ParseDigits(s[..|s| - 1]) * 10 + DigitValue(s[|s| - 1])
  }

  /** Rendering a number and reading it back gives the number. */
  lemma {:induction false} ParseNatToString(n: nat)
    ensures ParseDigits(NatToString(n)) == n
  {
    if n >= 10 {
      var s := NatToString(n);
      assert s[..|s| - 1] == NatToString(n / 10);
      ParseNatToString(n / 10);
    }
  }
}
