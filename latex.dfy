/**
 * The string-scanning OMML to LaTeX converter: a left-to-right scan that
 * recognises the opening tags of superscripts, subscripts, delimiters,
 * fractions, functions, radicals, n-ary operators, runs and text, takes
 * the fragment up to the matching closing tag, and renders each part it
 * extracts with a depth-counting search for the part's own closing tag,
 * converting nested structure recursively.
 */
module Latex {
  import opened Strings

  // ---------------------------------------------------------------------------
  // The text of `<m:t>` elements
  // ---------------------------------------------------------------------------

  const MtOpen: string := "<m:t>"
  const MtClose: string := "</m:t>"

  /** The part of each piece before the first closing `</m:t>`. */
  function Heads(parts: seq<string>): (r: seq<string>)
    ensures |r| == |parts|
    ensures forall i :: 0 <= i < |parts| ==> r[i] == BeforeFirst(parts[i], MtClose)
  {
    seq(|parts|, i requires 0 <= i < |parts| => BeforeFirst(parts[i], MtClose))
  }

  /** The text of every `<m:t>` element: each piece after an opening tag, cut
      at the next closing tag, joined without separator. */
  function MtText(s: string): string
  {
    Concat(Heads(SplitOn(s, MtOpen)[1..]))
  }

  /** Without an opening `<m:t>` there is no text. */
  lemma NoMtText(s: string)
    requires !Contains(s, MtOpen)
    ensures MtText(s) == ""
  {
    assert SplitOn(s, MtOpen) == [s];
    assert SplitOn(s, MtOpen)[1..] == [];
  }

  /** The only place in `x + "</m:t>"`, with no `<` in `x`, where a tag starts
      is the closing tag after `x`. */
  lemma OnlyClosingTag(x: string, k: nat)
    requires '<' !in x && k <= |x + MtClose|
    ensures !StartsWith((x + MtClose)[k..], MtOpen)
    ensures StartsWith((x + MtClose)[k..], MtClose) <==> k == |x|
  {
    var u := x + MtClose;
    if k < |x| {
      assert u[k..][0] == x[k];
    } else if k == |x| {
      assert u[k..] == MtClose;
      assert MtClose[..5][1] != MtOpen[1];
    } else if k < |u| {
      assert u[k..][0] == MtClose[k - |x|];
    }
  }

  /** A single text element yields its text. */
  lemma MtTextOfElement(x: string)
    requires '<' !in x
    ensures MtText(MtOpen + x + MtClose) == x
  {
    var s := MtOpen + x + MtClose;
    var u := x + MtClose;
    assert s[..5] == MtOpen;
    assert s[5..] == u;
    forall k | 0 <= k <= |u|
      ensures !StartsWith(u[k..], MtOpen)
    {
      OnlyClosingTag(x, k);
    }
    assert Find(u, MtOpen).None?;
    assert SplitOn(s, MtOpen) == [s[..0]] + SplitOn(u, MtOpen);
    assert SplitOn(s, MtOpen)[1..] == [u];
    OnlyClosingTag(x, |x|);
    assert Find(u, MtClose).Some?;
    OnlyClosingTag(x, Find(u, MtClose).value);
    assert u[..|x|] == x;
    assert Heads([u]) == [x];
    assert Concat([x]) == x + Concat([]);
  }

  // ---------------------------------------------------------------------------
  // Depth-matched extraction
  // ---------------------------------------------------------------------------

  function OpenOf(tag: string): string { "<" + tag + ">" }

  function CloseOf(tag: string): string { "</" + tag + ">" }

  /** The scan of `extract_latex_text` from `pos` at nesting `depth`: an
      opening tag goes one level deeper, a closing tag one level up, and the
      closing tag that reaches depth zero is the answer. */
  function MatchClose(c: string, open: string, close: string, pos: nat, depth: nat): (r: Option<nat>)
    requires pos <= |c| && depth > 0 && |open| > 0 && |close| > 0
    ensures r.Some? ==> pos <= r.value <= |c|
    decreases |c| - pos
  {
    if pos == |c| then None
    else if StartsWith(c[pos..], open) then MatchClose(c, open, close, pos + |open|, depth + 1)
    else if StartsWith(c[pos..], close) then
      if depth == 1 then Some(pos) else MatchClose(c, open, close, pos + |close|, depth - 1)
    else MatchClose(c, open, close, pos + 1, depth)
  }

  /** The answer is a closing tag. */
  lemma {:induction false} MatchCloseFound(c: string, open: string, close: string, pos: nat, depth: nat)
    requires pos <= |c| && depth > 0 && |open| > 0 && |close| > 0
    requires MatchClose(c, open, close, pos, depth).Some?
    ensures StartsWith(c[MatchClose(c, open, close, pos, depth).value..], close)
    decreases |c| - pos
  {
    if pos == |c| {
    } else if StartsWith(c[pos..], open) {
      MatchCloseFound(c, open, close, pos + |open|, depth + 1);
    } else if StartsWith(c[pos..], close) {
      if depth != 1 {
        MatchCloseFound(c, open, close, pos + |close|, depth - 1);
      }
    } else {
      MatchCloseFound(c, open, close, pos + 1, depth);
    }
  }

  /** The text between the first `<tag>` and the closing tag that matches it. */
  function Inner(t: string, tag: string): (r: Option<string>)
    ensures Find(t, OpenOf(tag)).None? ==> r.None?
    ensures r.Some? ==> |r.value| < |t|
    ensures r.Some? ==>
      StartsWith(t[Find(t, OpenOf(tag)).value..], OpenOf(tag) + r.value + CloseOf(tag))
  {
    var open := OpenOf(tag);
    var close := CloseOf(tag);
    match Find(t, open)
    case None => None
    case Some(start) =>
      var content := t[start + |open|..];
      match MatchClose(content, open, close, 0, 1)
      case None => None
      case Some(e) =>
        InnerShape(t, open, close, start, e);
        Some(content[..e])
  }

  /** The text found between a tag and its match sits between them in `t`. */
  lemma InnerShape(t: string, open: string, close: string, start: nat, e: nat)
    requires start <= |t| && StartsWith(t[start..], open) && |open| > 0 && |close| > 0
    requires MatchClose(t[start + |open|..], open, close, 0, 1) == Some(e)
    ensures start + |open| + e <= |t|
    ensures StartsWith(t[start..], open + t[start + |open|..][..e] + close)
  {
    var content := t[start + |open|..];
    MatchCloseFound(content, open, close, 0, 1);
    OpenThenContent(t[start..], open);
    Enclosed(open, content, e, close);
  }

  lemma OpenThenContent(rest: string, open: string)
    requires StartsWith(rest, open)
    ensures rest == open + rest[|open|..]
  {
    assert rest == rest[..|open|] + rest[|open|..];
  }

  lemma Enclosed(open: string, content: string, e: nat, close: string)
    requires e <= |content| && StartsWith(content[e..], close)
    ensures StartsWith(open + content, open + content[..e] + close)
  {
    var n := e + |close|;
    assert content[..n] == content[..e] + content[e..][..|close|];
    var x := open + content[..e] + close;
    assert x == open + content[..n];
    assert (open + content)[..|x|] == x;
  }

  /** No opening or closing tag starts anywhere in the `n` characters from `from`. */
  predicate Plain(c: string, open: string, close: string, from: nat, n: nat)
    requires from + n <= |c|
    decreases n
  {
    n == 0
    || (!StartsWith(c[from..], open) && !StartsWith(c[from..], close) && Plain(c, open, close, from + 1, n - 1))
  }

  /** Characters that start no tag are skipped at any depth. */
  lemma {:induction false} PlainSkipped(c: string, open: string, close: string, pos: nat, q: nat, depth: nat)
    requires pos <= q < |c| && depth > 0 && |open| > 0 && |close| > 0
    requires Plain(c, open, close, pos, q - pos)
    ensures MatchClose(c, open, close, pos, depth) == MatchClose(c, open, close, q, depth)
    decreases q - pos
  {
    if pos < q {
      PlainSkipped(c, open, close, pos + 1, q, depth);
    }
  }

  /** Where a closing tag starts, a shorter opening tag that is not its
      prefix does not. */
  lemma CloseIsNotOpen(u: string, open: string, close: string)
    requires |open| <= |close| && !StartsWith(close, open) && StartsWith(u, close)
    ensures !StartsWith(u, open)
  {
    assert u[..|close|][..|open|] == u[..|open|];
  }

  /** The first closing tag reached at depth one, after text that starts no
      tag, ends the extraction. */
  lemma FirstCloseEnds(c: string, open: string, close: string, pos: nat, n: nat)
    requires 0 < |open| <= |close| && !StartsWith(close, open)
    requires pos + n + |close| <= |c| && Plain(c, open, close, pos, n)
    requires StartsWith(c[pos + n..], close)
    ensures MatchClose(c, open, close, pos, 1) == Some(pos + n)
  {
    PlainSkipped(c, open, close, pos, pos + n, 1);
    CloseIsNotOpen(c[pos + n..], open, close);
  }

  /** An opening tag goes one level deeper. */
  lemma MatchCloseOpens(c: string, open: string, close: string, pos: nat, depth: nat)
    requires pos < |c| && depth > 0 && |open| > 0 && |close| > 0 && StartsWith(c[pos..], open)
    ensures MatchClose(c, open, close, pos, depth) == MatchClose(c, open, close, pos + |open|, depth + 1)
  {
  }

  /** A closing tag below the outermost level goes one level up. */
  lemma MatchCloseCloses(c: string, open: string, close: string, pos: nat, depth: nat)
    requires pos < |c| && depth > 1 && |open| > 0 && |close| > 0
    requires StartsWith(c[pos..], close) && !StartsWith(c[pos..], open)
    ensures MatchClose(c, open, close, pos, depth) == MatchClose(c, open, close, pos + |close|, depth - 1)
  {
  }

  /** A nested pair of tags does not end the extraction: the scan continues
      after the pair at the depth it had before it. */
  lemma NestedPairSkipped(c: string, open: string, close: string, pos: nat, q: nat, depth: nat)
    requires depth > 0 && 0 < |open| <= |close| && !StartsWith(close, open)
    requires pos + |open| <= q && q + |close| < |c|
    requires StartsWith(c[pos..], open) && Plain(c, open, close, pos + |open|, q - (pos + |open|))
    requires StartsWith(c[q..], close)
    ensures MatchClose(c, open, close, pos, depth) == MatchClose(c, open, close, q + |close|, depth)
  {
    MatchCloseOpens(c, open, close, pos, depth);
    PlainSkipped(c, open, close, pos + |open|, q, depth + 1);
    CloseIsNotOpen(c[q..], open, close);
    MatchCloseCloses(c, open, close, q, depth + 1);
  }

  // ---------------------------------------------------------------------------
  // Symbols
  // ---------------------------------------------------------------------------

  /** The characters a run's text converts. */
  const RunTable: set<char> := {
    '\U{03C0}', '\U{03B1}', '\U{03B2}', '\U{03B3}', '\U{0393}', '\U{03B4}', '\U{0394}', '\U{03B8}',
    '\U{03BB}', '\U{03BC}', '\U{03C3}', '\U{03A3}', '\U{03C6}', '\U{03C9}', '\U{03A9}', '\U{221E}',
    '\U{00B1}', '\U{00D7}', '\U{00F7}', '\U{2264}', '\U{2265}', '\U{2260}', '\U{2248}', '\U{2208}',
    '\U{2209}', '\U{2282}', '\U{2283}', '\U{222A}', '\U{2229}', '\U{2205}', '\U{221A}'}

  /** The LaTeX for one character of a run: Greek letters and operators
      become commands followed by a space, the radical sign `\sqrt`. */
  function RunSymbol(c: char): (r: string)
    ensures c !in RunTable ==> r == [c]
    ensures c in RunTable ==> |r| > 1 && r[0] == '\\'
  {
    if c == '\U{03C0}' then "\\pi "
    else if c == '\U{03B1}' then "\\alpha "
    else if c == '\U{03B2}' then "\\beta "
    else if c == '\U{03B3}' then "\\gamma "
    else if c == '\U{0393}' then "\\Gamma "
    else if c == '\U{03B4}' then "\\delta "
    else if c == '\U{0394}' then "\\Delta "
    else if c == '\U{03B8}' then "\\theta "
    else if c == '\U{03BB}' then "\\lambda "
    else if c == '\U{03BC}' then "\\mu "
    else if c == '\U{03C3}' then "\\sigma "
    else if c == '\U{03A3}' then "\\Sigma "
    else if c == '\U{03C6}' then "\\phi "
    else if c == '\U{03C9}' then "\\omega "
    else if c == '\U{03A9}' then "\\Omega "
    else if c == '\U{221E}' then "\\infty "
    else if c == '\U{00B1}' then "\\pm "
    else if c == '\U{00D7}' then "\\times "
    else if c == '\U{00F7}' then "\\div "
    else if c == '\U{2264}' then "\\leq "
    else if c == '\U{2265}' then "\\geq "
    else if c == '\U{2260}' then "\\neq "
    else if c == '\U{2248}' then "\\approx "
    else if c == '\U{2208}' then "\\in "
    else if c == '\U{2209}' then "\\notin "
    else if c == '\U{2282}' then "\\subset "
    else if c == '\U{2283}' then "\\supset "
    else if c == '\U{222A}' then "\\cup "
    else if c == '\U{2229}' then "\\cap "
    else if c == '\U{2205}' then "\\emptyset "
    else if c == '\U{221A}' then "\\sqrt"
    else [c]
  }

  /** The characters a bare `<m:t>` text converts. */
  const TextTable: set<char> := {'\U{03C0}', '\U{03B1}', '\U{03B2}'}

  /** The LaTeX for one character of a bare text: three Greek letters, with
      no space after the command. */
  function TextSymbol(c: char): (r: string)
    ensures c !in TextTable ==> r == [c]
    ensures c in TextTable ==> |r| > 1 && r[0] == '\\'
  {
    if c == '\U{03C0}' then "\\pi"
    else if c == '\U{03B1}' then "\\alpha"
    else if c == '\U{03B2}' then "\\beta"
    else [c]
  }

  /** Every character of `text` converted by `table`, in order. */
  function Symbols(text: string, table: char -> string): string
  {
    if text == [] then ""
    else Symbols(text[..|text| - 1], table) + table(text[|text| - 1])
  }

  /** The conversion works character by character. */
  lemma {:induction false} SymbolsAppend(a: string, b: string, table: char -> string)
    ensures Symbols(a + b, table) == Symbols(a, table) + Symbols(b, table)
    decreases |b|
  {
    if b == [] {
      assert a + b == a;
    } else {
      var b' := b[..|b| - 1];
      assert (a + b)[..|a + b| - 1] == a + b';
      assert (a + b)[|a + b| - 1] == b[|b| - 1];
      SymbolsAppend(a, b', table);
    }
  }

  /** Text without a converted character is copied unchanged. */
  lemma {:induction false} SymbolsIdentity(text: string, table: char -> string)
    requires forall i :: 0 <= i < |text| ==> table(text[i]) == [text[i]]
    ensures Symbols(text, table) == text
  {
    if text != [] {
      SymbolsIdentity(text[..|text| - 1], table);
    }
  }

  /** A run's text without Greek letters or operators is kept as it is. */
  lemma PlainRunText(text: string)
    requires forall i :: 0 <= i < |text| ==> text[i] !in RunTable
    ensures Symbols(text, RunSymbol) == text
  {
    SymbolsIdentity(text, RunSymbol);
  }

  /** The loops `for ch in text.chars()` of the run and text branches. */
  method ConvertSymbols(text: string, table: char -> string) returns (out: string)
    ensures out == Symbols(text, table)
  {
    out := "";
    var k := 0;
    while k < |text|
      invariant 0 <= k <= |text|
      invariant out == Symbols(text[..k], table)
    {
      assert text[..k + 1][..k] == text[..k];
      out := out + table(text[k]);
      k := k + 1;
    }
    assert text[..k] == text;
  }

  // ---------------------------------------------------------------------------
  // The pieces of each structure
  // ---------------------------------------------------------------------------

  /** A base with a superscript (`mark` `^`) or subscript (`mark` `_`):
      nothing unless both parts are present. */
  function ScriptPiece(base: Option<string>, script: Option<string>, mark: string): (r: string)
    ensures base.None? || script.None? ==> r == ""
    ensures base.Some? && script.Some? ==> r == base.value + mark + "{" + script.value + "}"
  {
    match (base, script)
    case (Some(b), Some(s)) => b + mark + "{" + s + "}"
    case _ => ""
  }

  function SubSupPiece(base: Option<string>, sub: Option<string>, sup: Option<string>): string
  {
    match (base, sub, sup)
    case (Some(b), Some(d), Some(p)) => b + "_{" + d + "}^{" + p + "}"
    case _ => ""
  }

  function DelimiterPiece(inner: Option<string>): (r: string)
    ensures StartsWith(r, "\\left(") && EndsWith(r, "\\right)")
  {
    "\\left(" + (if inner.Some? then inner.value else "") + "\\right)"
  }

  /** The attribute that marks a binomial coefficient. */
  const NoBar: string := "m:val=\"noBar\""

  function FractionPiece(binom: bool, num: Option<string>, den: Option<string>): string
  {
    match (num, den)
    case (Some(n), Some(d)) => (if binom then "\\binom{" else "\\frac{") + n + "}{" + d + "}"
    case _ => ""
  }

  function FunctionPiece(name: Option<string>, argument: Option<string>): string
  {
    (if name.Some? then "\\" + name.value else "") + (if argument.Some? then " " + argument.value else "")
  }

  function RadicalPiece(degree: Option<string>, base: Option<string>): string
  {
    var d := if degree.Some? && degree.value != "2" && degree.value != "" then "[" + degree.value + "]" else "";
    "\\sqrt" + d + "{" + (if base.Some? then base.value else "") + "}"
  }

  /** The command for an n-ary operator character: sums by default. */
  function OperatorCommand(chr: string): (r: string)
    ensures r in {"\\sum", "\\int", "\\iint", "\\iiint", "\\oint", "\\prod", "\\bigcup", "\\bigcap"}
  {
    if chr == "\U{2211}" then "\\sum"
    else if chr == "\U{222B}" then "\\int"
    else if chr == "\U{222C}" then "\\iint"
    else if chr == "\U{222D}" then "\\iiint"
    else if chr == "\U{222E}" then "\\oint"
    else if chr == "\U{220F}" then "\\prod"
    else if chr == "\U{22C3}" then "\\bigcup"
    else if chr == "\U{22C2}" then "\\bigcap"
    else "\\sum"
  }

  const ValueMark: string := "m:val=\""

  /** The operator of an n-ary fragment: the value of its first `m:val`
      attribute, read up to the closing quote. */
  function NaryOperator(c: string): (r: string)
    ensures Find(c, ValueMark).None? ==> r == "\\sum"
  {
    match Find(c, ValueMark)
    case None => "\\sum"
    case Some(p) =>
      var start := p + 7;
      match Find(c[start..], "\"")
      case None => "\\sum"
      case Some(q) => OperatorCommand(c[start..start + q])
  }

  function NaryPiece(operator: string, sub: Option<string>, sup: Option<string>, base: Option<string>): (r: string)
    ensures StartsWith(r, operator)
  {
    operator
    + (if sub.Some? then "_{" + sub.value + "}" else "")
    + (if sup.Some? then "^{" + sup.value + "}" else "")
    + (if base.Some? then " " + base.value else "")
  }

  /** `extract_text`: the text between the first `<tag>` and the next
      `</tag>`, when it is not empty. */
  function ExtractText(t: string, tag: string): (r: Option<string>)
    ensures r.Some? ==> r.value != [] && Find(t, OpenOf(tag)).Some?
    ensures r.Some? ==> StartsWith(t[Find(t, OpenOf(tag)).value..], OpenOf(tag) + r.value + CloseOf(tag))
  {
    var open := OpenOf(tag);
    match Find(t, open)
    case None => None
    case Some(start) =>
      var content := t[start + |open|..];
      match Find(content, CloseOf(tag))
      case None => None
      case Some(e) =>
        OpenThenContent(t[start..], open);
        Enclosed(open, content, e, CloseOf(tag));
        if e > 0 then Some(content[..e]) else None
  }

  function RunPiece(text: Option<string>): string
  {
    if text.Some? then Symbols(text.value, RunSymbol) else ""
  }

  // ---------------------------------------------------------------------------
  // The scan
  // ---------------------------------------------------------------------------

  /** What one turn of the scan emits and where it continues. */
  datatype Step = Step(piece: string, next: nat)

  /** Where the fragment that starts at `i` ends: the first position from `i`
      on where `close` starts (`s[i..].find(close)`), or the end of `s`. */
  function FragmentEnd(s: string, i: nat, close: string): (e: nat)
    requires i <= |s|
    ensures i <= e <= |s|
    ensures e < |s| ==> StartsWith(s[e..], close)
    decreases |s| - i
  {
    if i == |s| || StartsWith(s[i..], close) then i else FragmentEnd(s, i + 1, close)
  }

  /** The fragment ends at the first closing tag. */
  lemma {:induction false} FragmentEndAt(s: string, i: nat, q: nat, close: string)
    requires i <= q < |s| && StartsWith(s[q..], close)
    requires forall k :: i <= k < q ==> !StartsWith(s[k..], close)
    ensures FragmentEnd(s, i, close) == q
    decreases q - i
  {
    if i < q {
      FragmentEndAt(s, i + 1, q, close);
    }
  }

  /** `extract_latex_text`: the part's inner text converted when it holds
      markup, else the text of its `<m:t>` elements, and nothing for an empty
      text or a part that is absent or never closed. */
  function ExtractLatex(t: string, tag: string): (r: Option<string>)
    ensures Inner(t, tag).None? ==> r.None?
    ensures r.Some? && !Contains(Inner(t, tag).value, "<m:") ==> r == Some(MtText(Inner(t, tag).value)) && r.value != []
    decreases |t|, 0, 0
  {
    match Inner(t, tag)
    case None => None
    case Some(inner) =>
      if Contains(inner, "<m:") then Some(LatexFrom(inner, 0))
      else if MtText(inner) != [] then Some(MtText(inner))
      else None
  }

  /** The structures the scan recognises, by the opening tag that starts them. */
  datatype Kind =
    | Superscript | Subscript | SubSuperscript | Delimiter | Fraction
    | Function | Radical | Nary | Run | Text | Other

  /** The first opening tag, in the scan's order, that `rest` starts with. */
  function KindAt(rest: string): (k: Kind)
    ensures rest == [] || rest[0] != '<' ==> k == Other
    ensures k == Text ==> StartsWith(rest, MtOpen)
  {
    if StartsWith(rest, "<m:sSup>") then Superscript
    else if StartsWith(rest, "<m:sSub>") then Subscript
    else if StartsWith(rest, "<m:sSubSup>") then SubSuperscript
    else if StartsWith(rest, "<m:d>") then Delimiter
    else if StartsWith(rest, "<m:f>") then Fraction
    else if StartsWith(rest, "<m:func>") then Function
    else if StartsWith(rest, "<m:rad>") then Radical
    else if StartsWith(rest, "<m:nary") then Nary
    else if StartsWith(rest, "<m:r>") then Run
    else if StartsWith(rest, MtOpen) then Text
    else Other
  }

  /** One turn of the scan at `i`: the structure that starts there, rendered
      from its fragment, or a skipped character. */
  function StepAt(s: string, i: nat): (r: Step)
    requires i < |s|
    ensures r.next > i
    decreases |s|, 0, 2
  {
    match KindAt(s[i..])
    case Superscript => ScriptStep(s, i, false)
    case Subscript => ScriptStep(s, i, true)
    case SubSuperscript => SubSuperscriptStep(s, i)
    case Delimiter => DelimiterStep(s, i)
    case Fraction => FractionStep(s, i)
    case Function => FunctionStep(s, i)
    case Radical => RadicalStep(s, i)
    case Nary => NaryStep(s, i)
    case Run => RunStep(s, i)
    case Text => TextStep(s, i)
    case Other => Step("", i + 1)
  }

  /** `<m:sSup>` (or `<m:sSub>` when `sub`): the base and the script of the
      fragment up to `</m:sSup>` (`</m:sSub>`), whose eight characters are
      skipped. */
  function ScriptStep(s: string, i: nat, sub: bool): (r: Step)
    requires i < |s|
    ensures r.next > i
    decreases |s|, 0, 1
  {
    var e := FragmentEnd(s, i, if sub then "</m:sSub>" else "</m:sSup>");
    var c := s[i..e];
    Step(ScriptPiece(ExtractLatex(c, "m:e"), ExtractLatex(c, if sub then "m:sub" else "m:sup"), if sub then "_" else "^"),
         e + 8)
  }

  function SubSuperscriptStep(s: string, i: nat): (r: Step)
    requires i < |s|
    ensures r.next > i
    decreases |s|, 0, 1
  {
    var e := FragmentEnd(s, i, "</m:sSubSup>");
    var c := s[i..e];
    Step(SubSupPiece(ExtractLatex(c, "m:e"), ExtractLatex(c, "m:sub"), ExtractLatex(c, "m:sup")), e + 12)
  }

  function DelimiterStep(s: string, i: nat): (r: Step)
    requires i < |s|
    ensures r.next > i
    decreases |s|, 0, 1
  {
    var e := FragmentEnd(s, i, "</m:d>");
    Step(DelimiterPiece(ExtractLatex(s[i..e], "m:e")), e + 5)
  }

  function FractionStep(s: string, i: nat): (r: Step)
    requires i < |s|
    ensures r.next > i
    decreases |s|, 0, 1
  {
    var e := FragmentEnd(s, i, "</m:f>");
    var c := s[i..e];
    Step(FractionPiece(Contains(c, NoBar), ExtractLatex(c, "m:num"), ExtractLatex(c, "m:den")), e + 5)
  }

  function FunctionStep(s: string, i: nat): (r: Step)
    requires i < |s|
    ensures r.next > i
    decreases |s|, 0, 1
  {
    var e := FragmentEnd(s, i, "</m:func>");
    var c := s[i..e];
    Step(FunctionPiece(ExtractLatex(c, "m:fName"), ExtractLatex(c, "m:e")), e + 8)
  }

  function RadicalStep(s: string, i: nat): (r: Step)
    requires i < |s|
    ensures r.next > i
    decreases |s|, 0, 1
  {
    var e := FragmentEnd(s, i, "</m:rad>");
    var c := s[i..e];
    Step(RadicalPiece(ExtractLatex(c, "m:deg"), ExtractLatex(c, "m:e")), e + 7)
  }

  function NaryStep(s: string, i: nat): (r: Step)
    requires i < |s|
    ensures r.next > i
    decreases |s|, 0, 1
  {
    var e := FragmentEnd(s, i, "</m:nary>");
    var c := s[i..e];
    Step(NaryPiece(NaryOperator(c), ExtractLatex(c, "m:sub"), ExtractLatex(c, "m:sup"), ExtractLatex(c, "m:e")),
         e + 9)
  }

  function RunStep(s: string, i: nat): (r: Step)
    requires i < |s|
    ensures r.next > i
  {
    var e := FragmentEnd(s, i, "</m:r>");
    Step(RunPiece(ExtractText(s[i..e], "m:t")), e + 5)
  }

  /** A bare text element, as evidently intended: its text starts after the
      five characters of `<m:t>` and the scan continues after the six of
      `</m:t>`. */
  function TextStep(s: string, i: nat): (r: Step)
    requires i < |s| && StartsWith(s[i..], MtOpen)
    ensures r.next > i
  {
    var e := FragmentEnd(s, i + 5, MtClose);
    Step(Symbols(s[i + 5..e], TextSymbol), e + 6)
  }

  /** The bare text branch as the source writes it: the text is taken from
      four characters past the start of `<m:t>`, and the scan resumes five
      characters past the text. */
  function TextStepAsWritten(s: string, i: nat): (r: Step)
    requires i < |s| && StartsWith(s[i..], MtOpen)
  {
    var e := FragmentEnd(s, i + 4, MtClose);
    Step(Symbols(s[i + 4..e], TextSymbol), e + 5)
  }

  /** As written, the `>` of the opening tag is emitted in front of the text. */
  lemma TextStepAsWrittenKeepsBracket(s: string, i: nat)
    requires i < |s| && StartsWith(s[i..], MtOpen)
    ensures var r := TextStepAsWritten(s, i); r.piece != [] && r.piece[0] == '>'
  {
    assert s[i + 4] == '>' by {
      assert s[i..][4] == MtOpen[4];
    }
    var e := FragmentEnd(s, i + 4, MtClose);
    assert s[i + 4..][0] == '>';
    Differs(s[i + 4..], MtClose, 0);
    var text := s[i + 4..e];
    assert text == [text[0]] + text[1..];
    SymbolsAppend([text[0]], text[1..], TextSymbol);
    assert [text[0]][..0] == [];
    assert Symbols([text[0]], TextSymbol) == TextSymbol('>');
  }

  /** The corrected branch takes exactly the text between the tags and
      resumes right after the closing tag. */
  lemma TextStepExact(s: string, i: nat, x: string)
    requires i < |s| && StartsWith(s[i..], MtOpen + x + MtClose) && '<' !in x
    ensures TextStep(s, i) == Step(Symbols(x, TextSymbol), i + |MtOpen + x + MtClose|)
  {
    var q := i + 5 + |x|;
    assert s[i..][..5 + |x| + 6] == MtOpen + x + MtClose;
    assert s[i + 5..q] == x by {
      assert s[i + 5..q] == s[i..][..5 + |x| + 6][5..5 + |x|];
    }
    assert StartsWith(s[q..], MtClose) by {
      assert s[q..][..6] == s[i..][..5 + |x| + 6][5 + |x|..];
    }
    forall k | i + 5 <= k < q
      ensures !StartsWith(s[k..], MtClose)
    {
      assert s[k] == x[k - i - 5];
      assert s[k..][0] == s[k];
    }
    FragmentEndAt(s, i + 5, q, MtClose);
  }

  /** The scan from `i` on. */
  function LatexFrom(s: string, i: nat): string
    decreases |s|, 1, |s| - i
  {
    if i >= |s| then ""
    else
      var st := StepAt(s, i);
      st.piece + (if st.next < |s| then LatexFrom(s, st.next) else "")
  }

  /** `omml_to_latex` as evidently intended: bare `<m:t>` text read from after
      the opening tag, and positions counted in characters. */
  function Latex(omml: string): string
  {
    LatexFrom(omml, 0)
  }

  /** Characters that open no recognised structure are skipped. */
  lemma SkipsOtherText(s: string, i: nat)
    requires i < |s| && s[i] != '<'
    ensures StepAt(s, i) == Step("", i + 1)
  {
  }

  /** `&s[b..]` for a byte index `b`: the text from that byte on, or none where
      the slice panics, because `b` lies inside the encoding of a character or
      past the end of the text. */
  function SliceFromByte(s: string, b: nat): (r: Option<string>)
    ensures r.Some? ==> |r.value| <= |s|
  {
    if b == 0 then Some(s)
    else if s == [] || b < Utf8Len(s[0]) then None
    else SliceFromByte(s[1..], b - Utf8Len(s[0]))
  }

  /** Slicing `k` bytes past the encoding of the first `i` characters slices
      the rest of the text at `k`. */
  lemma {:induction false} SliceAfterPrefix(s: string, i: nat, k: nat)
    requires i <= |s|
    ensures SliceFromByte(s, ByteLen(s[..i]) + k) == SliceFromByte(s[i..], k)
    decreases i
  {
    if i > 0 {
      assert s[..i][0] == s[0] && s[..i][1..] == s[1..][..i - 1];
      SliceAfterPrefix(s[1..], i - 1, k);
      assert s[1..][i - 1..] == s[i..];
    }
  }

  /** As written, the scan skips an unrecognised character by advancing its
      byte index by one, and its next turn slices the markup there: when the
      character is not ASCII, the index lies inside its encoding and the slice
      panics. */
  lemma ByteStepSplitsCharacter(s: string, i: nat)
    requires i < |s| && s[i] != '<' && Utf8Len(s[i]) > 1
    ensures SliceFromByte(s, ByteLen(s[..i]) + 1) == None
  {
    SliceAfterPrefix(s, i, 1);
    assert s[i..][0] == s[i];
  }

  /** The combining circumflex of an accent's `m:chr` value is two bytes long,
      so the byte step into it panics. */
  lemma AccentValueSplitAsWritten(s: string)
    requires s == "<m:chr m:val=\"\U{0302}\"/>"
    ensures s[14] != '<' && Utf8Len(s[14]) == 2
    ensures SliceFromByte(s, ByteLen(s[..14]) + 1) == None
  {
    ByteStepSplitsCharacter(s, 14);
  }

  /** Corrected, the scan skips a whole character: the position after it is
      the byte index of the next character, where slicing cannot panic. */
  lemma CharStepOnBoundary(s: string, i: nat)
    requires i < |s| && s[i] != '<'
    ensures StepAt(s, i).next == i + 1
    ensures SliceFromByte(s, ByteLen(s[..i + 1])) == Some(s[i + 1..])
  {
    SkipsOtherText(s, i);
    SliceAfterPrefix(s, i + 1, 0);
  }

  /** A text that differs from `p` at one of `p`'s positions does not start with it. */
  lemma Differs(rest: string, p: string, k: nat)
    requires k < |p| && k < |rest| && rest[k] != p[k]
    ensures !StartsWith(rest, p)
  {
    if |p| <= |rest| {
      assert rest[..|p|][k] == rest[k];
    }
  }

  /** Tags that agree up to `<m:` are told apart by their fourth character. */
  lemma FourthCharacter(rest: string, p: string)
    requires StartsWith(rest, p) && |p| > 3
    ensures rest[3] == p[3]
  {
    assert rest[..|p|][3] == rest[3];
  }

  lemma FractionKind(rest: string)
    requires StartsWith(rest, "<m:f>")
    ensures KindAt(rest) == Fraction
  {
    FourthCharacter(rest, "<m:f>");
    Differs(rest, "<m:sSup>", 3);
    Differs(rest, "<m:sSub>", 3);
    Differs(rest, "<m:sSubSup>", 3);
    Differs(rest, "<m:d>", 3);
  }

  lemma RadicalKind(rest: string)
    requires StartsWith(rest, "<m:rad>")
    ensures KindAt(rest) == Radical
  {
    FourthCharacter(rest, "<m:rad>");
    Differs(rest, "<m:sSup>", 3);
    Differs(rest, "<m:sSub>", 3);
    Differs(rest, "<m:sSubSup>", 3);
    Differs(rest, "<m:d>", 3);
    Differs(rest, "<m:f>", 3);
    Differs(rest, "<m:func>", 3);
  }

  lemma NaryKind(rest: string)
    requires StartsWith(rest, "<m:nary")
    ensures KindAt(rest) == Nary
  {
    FourthCharacter(rest, "<m:nary");
    Differs(rest, "<m:sSup>", 3);
    Differs(rest, "<m:sSub>", 3);
    Differs(rest, "<m:sSubSup>", 3);
    Differs(rest, "<m:d>", 3);
    Differs(rest, "<m:f>", 3);
    Differs(rest, "<m:func>", 3);
    Differs(rest, "<m:rad>", 3);
  }

  /** A fraction renders as `\frac{num}{den}`, or `\binom` when its fragment
      has the no-bar attribute, and as nothing when a part is missing. */
  lemma FractionRendered(s: string, i: nat)
    requires i < |s| && StartsWith(s[i..], "<m:f>")
    ensures var c := s[i..FragmentEnd(s, i, "</m:f>")];
      var num := ExtractLatex(c, "m:num");
      var den := ExtractLatex(c, "m:den");
      StepAt(s, i).piece
      == if num.None? || den.None? then ""
         else (if Contains(c, NoBar) then "\\binom{" else "\\frac{") + num.value + "}{" + den.value + "}"
  {
    FractionKind(s[i..]);
    assert StepAt(s, i) == FractionStep(s, i);
  }

  /** A radical shows its degree only when the degree is present, not empty
      and not 2. */
  lemma RadicalRendered(s: string, i: nat)
    requires i < |s| && StartsWith(s[i..], "<m:rad>")
    ensures var c := s[i..FragmentEnd(s, i, "</m:rad>")];
      var deg := ExtractLatex(c, "m:deg");
      var base := ExtractLatex(c, "m:e");
      var shown := deg.Some? && deg.value != "" && deg.value != "2";
      StepAt(s, i).piece
      == "\\sqrt" + (if shown then "[" + deg.value + "]" else "") + "{" + (if base.Some? then base.value else "") + "}"
  {
    RadicalKind(s[i..]);
    var c := s[i..FragmentEnd(s, i, "</m:rad>")];
    assert StepAt(s, i) == RadicalStep(s, i);
    assert RadicalStep(s, i).piece == RadicalPiece(ExtractLatex(c, "m:deg"), ExtractLatex(c, "m:e"));
  }

  /** An n-ary operator without an `m:val` attribute is a sum. */
  lemma NaryDefaultsToSum(s: string, i: nat)
    requires i < |s| && StartsWith(s[i..], "<m:nary")
    requires Find(s[i..FragmentEnd(s, i, "</m:nary>")], ValueMark).None?
    ensures StartsWith(StepAt(s, i).piece, "\\sum")
  {
    NaryKind(s[i..]);
    assert StepAt(s, i) == NaryStep(s, i);
  }

  // ---------------------------------------------------------------------------
  // `parse_simple_omml`
  // ---------------------------------------------------------------------------

  datatype Converted = Converted(latex: string, fallback: string)

  /** `parse_simple_omml`: the LaTeX, or the plain text when the LaTeX is
      empty, with the plain text as fallback. */
  function ParseSimpleOmml(omml: string): (r: Converted)
    ensures r.fallback == MtText(omml)
    ensures r.latex == (if Latex(omml) == [] then MtText(omml) else Latex(omml))
  {
    var fallback := MtText(omml);
    var latex := Latex(omml);
    if latex == [] then Converted(fallback, fallback) else Converted(latex, fallback)
  }

  /** The LaTeX is empty exactly when both the conversion and the plain text
      are empty. */
  lemma EmptyLatexMeansNoText(omml: string)
    ensures ParseSimpleOmml(omml).latex == [] <==> Latex(omml) == [] && MtText(omml) == []
  {
  }

  // ---------------------------------------------------------------------------
  // The converter as the source runs it
  // ---------------------------------------------------------------------------

  /** `omml_to_latex`: the loop over the scan index. */
  method OmmlToLatex(omml: string) returns (result: string)
    ensures result == Latex(omml)
    decreases |omml|, 1, 0
  {
    result := "";
    var i := 0;
    while i < |omml|
      invariant result + LatexFrom(omml, i) == Latex(omml)
      decreases |omml| - i
    {
      var st := ExtractStep(omml, i);
      result := result + st.piece;
      i := st.next;
    }
  }

  /** One turn of the loop of `omml_to_latex`: the branch for the structure
      that starts at `i`. */
  method ExtractStep(s: string, i: nat) returns (st: Step)
    requires i < |s|
    ensures st == StepAt(s, i)
    decreases |s|, 0, 2
  {
    match KindAt(s[i..])
    case Superscript => st := ConvertScript(s, i, false);
    case Subscript => st := ConvertScript(s, i, true);
    case SubSuperscript => st := ConvertSubSuperscript(s, i);
    case Delimiter => st := ConvertDelimiter(s, i);
    case Fraction => st := ConvertFraction(s, i);
    case Function => st := ConvertFunction(s, i);
    case Radical => st := ConvertRadical(s, i);
    case Nary => st := ConvertNary(s, i);
    case Run => st := ConvertRun(s, i);
    case Text => st := ConvertText(s, i);
    case Other => st := Step("", i + 1);
  }

  method ConvertScript(s: string, i: nat, sub: bool) returns (st: Step)
    requires i < |s|
    ensures st == ScriptStep(s, i, sub)
    decreases |s|, 0, 1
  {
    var e := FragmentEnd(s, i, if sub then "</m:sSub>" else "</m:sSup>");
    var base := ExtractLatexText(s[i..e], "m:e");
    var script := ExtractLatexText(s[i..e], if sub then "m:sub" else "m:sup");
    st := Step(ScriptPiece(base, script, if sub then "_" else "^"), e + 8);
  }

  method ConvertSubSuperscript(s: string, i: nat) returns (st: Step)
    requires i < |s|
    ensures st == SubSuperscriptStep(s, i)
    decreases |s|, 0, 1
  {
    var e := FragmentEnd(s, i, "</m:sSubSup>");
    var base := ExtractLatexText(s[i..e], "m:e");
    var sub := ExtractLatexText(s[i..e], "m:sub");
    var sup := ExtractLatexText(s[i..e], "m:sup");
    st := Step(SubSupPiece(base, sub, sup), e + 12);
  }

  method ConvertDelimiter(s: string, i: nat) returns (st: Step)
    requires i < |s|
    ensures st == DelimiterStep(s, i)
    decreases |s|, 0, 1
  {
    var e := FragmentEnd(s, i, "</m:d>");
    var inner := ExtractLatexText(s[i..e], "m:e");
    st := Step(DelimiterPiece(inner), e + 5);
  }

  method ConvertFraction(s: string, i: nat) returns (st: Step)
    requires i < |s|
    ensures st == FractionStep(s, i)
    decreases |s|, 0, 1
  {
    var e := FragmentEnd(s, i, "</m:f>");
    var num := ExtractLatexText(s[i..e], "m:num");
    var den := ExtractLatexText(s[i..e], "m:den");
    st := Step(FractionPiece(Contains(s[i..e], NoBar), num, den), e + 5);
  }

  method ConvertFunction(s: string, i: nat) returns (st: Step)
    requires i < |s|
    ensures st == FunctionStep(s, i)
    decreases |s|, 0, 1
  {
    var e := FragmentEnd(s, i, "</m:func>");
    var name := ExtractLatexText(s[i..e], "m:fName");
    var argument := ExtractLatexText(s[i..e], "m:e");
    st := Step(FunctionPiece(name, argument), e + 8);
  }

  method ConvertRadical(s: string, i: nat) returns (st: Step)
    requires i < |s|
    ensures st == RadicalStep(s, i)
    decreases |s|, 0, 1
  {
    var e := FragmentEnd(s, i, "</m:rad>");
    var degree := ExtractLatexText(s[i..e], "m:deg");
    var base := ExtractLatexText(s[i..e], "m:e");
    st := Step(RadicalPiece(degree, base), e + 7);
  }

  method ConvertNary(s: string, i: nat) returns (st: Step)
    requires i < |s|
    ensures st == NaryStep(s, i)
    decreases |s|, 0, 1
  {
    var e := FragmentEnd(s, i, "</m:nary>");
    var sub := ExtractLatexText(s[i..e], "m:sub");
    var sup := ExtractLatexText(s[i..e], "m:sup");
    var base := ExtractLatexText(s[i..e], "m:e");
    st := Step(NaryPiece(NaryOperator(s[i..e]), sub, sup, base), e + 9);
  }

  method ConvertRun(s: string, i: nat) returns (st: Step)
    requires i < |s|
    ensures st == RunStep(s, i)
  {
    var e := FragmentEnd(s, i, "</m:r>");
    var text := ExtractText(s[i..e], "m:t");
    var piece := "";
    if text.Some? {
      piece := ConvertSymbols(text.value, RunSymbol);
    }
    st := Step(piece, e + 5);
  }

  method ConvertText(s: string, i: nat) returns (st: Step)
    requires i < |s| && StartsWith(s[i..], MtOpen)
    ensures st == TextStep(s, i)
  {
    var e := FragmentEnd(s, i + 5, MtClose);
    var piece := ConvertSymbols(s[i + 5..e], TextSymbol);
    st := Step(piece, e + 6);
  }

  /** `extract_latex_text`: the search for the opening tag, the depth loop,
      and the conversion of what lies between. */
  method ExtractLatexText(t: string, tag: string) returns (r: Option<string>)
    ensures r == ExtractLatex(t, tag)
    decreases |t|, 0, 0
  {
    var open := OpenOf(tag);
    var found := Find(t, open);
    if found.None? {
      return None;
    }
    var content := t[found.value + |open|..];
    var endPos := MatchingClose(content, open, CloseOf(tag));
    if endPos.None? {
      return None;
    }
    var inner := content[..endPos.value];
    assert Inner(t, tag) == Some(inner);
    if Contains(inner, "<m:") {
      var converted := OmmlToLatex(inner);
      return Some(converted);
    }
    var text := MtText(inner);
    if text != [] {
      return Some(text);
    }
    return None;
  }

  /** The depth loop of `extract_latex_text`, with its position and depth
      counters. */
  method MatchingClose(content: string, open: string, close: string) returns (endPos: Option<nat>)
    requires |open| > 0 && |close| > 0
    ensures endPos == MatchClose(content, open, close, 0, 1)
  {
    var depth := 1;
    var pos := 0;
    endPos := None;
    while pos < |content| && depth > 0
      invariant 0 <= pos <= |content| && depth > 0
      invariant endPos.None?
      invariant MatchClose(content, open, close, pos, depth) == MatchClose(content, open, close, 0, 1)
      decreases |content| - pos
    {
      if StartsWith(content[pos..], open) {
        depth := depth + 1;
        pos := pos + |open|;
      } else if StartsWith(content[pos..], close) {
        if depth == 1 {
          endPos := Some(pos);
          return;
        }
        depth := depth - 1;
        pos := pos + |close|;
      } else {
        pos := pos + 1;
      }
    }
  }
}
