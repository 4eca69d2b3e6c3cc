/**
 * Office Math (OMML) as a typed tree and its Unicode rendering. The
 * reader's events for one equation are parsed into superscripts,
 * subscripts, fractions, n-ary operators, delimiters and text runs; the
 * tree is rendered with Unicode super- and subscript characters and the
 * precomposed fraction glyphs. The plain-text fallback joins the text of
 * the `m:t` elements.
 *
 * The reader is a sequence of events and a position in it; reading at the
 * end of the sequence yields the end of the document and does not move.
 * The source's readers trim text, so the parsers are given the events of
 * `Xml.TrimText`.
 */
module Omml {
  import opened Strings
  import Xml

  datatype OmmlElement =
    | Superscript(base: OmmlElement, sup: OmmlElement)
    | Subscript(base: OmmlElement, sub: OmmlElement)
    | Fraction(num: OmmlElement, den: OmmlElement)
    | Nary(operator: string, subLimit: Option<OmmlElement>, supLimit: Option<OmmlElement>, base: OmmlElement)
    | Delimiter(content: OmmlElement)
    | Text(text: string)
    | Sequence(elements: seq<OmmlElement>)

  /** An equation: its markup, its Unicode rendering and its plain text. */
  datatype Equation = Equation(omml: string, unicode: string, fallback: string)

  // ---------------------------------------------------------------------------
  // Reading the content of an element
  // ---------------------------------------------------------------------------

  /** The events inside an element, and the position after its end tag. */
  datatype Content = Content(events: seq<Xml.Event>, next: nat)

  /** `read_element_content`: the events up to the end tag that brings the
      nesting depth to zero and has the expected name, that tag excluded,
      after the events `acc` already read. Self-closing tags are dropped;
      the end of the document ends the content early. */
  function ReadContent(ev: seq<Xml.Event>, pos: nat, endTag: string, depth: int, acc: seq<Xml.Event>): (r: Content)
    requires pos <= |ev|
    ensures pos <= r.next <= |ev| && |r.events| <= |acc| + (r.next - pos)
    decreases |ev| - pos
  {
    if pos == |ev| then Content(acc, |ev|)
    else
      match ev[pos]
      case Start(_, _) => ReadContent(ev, pos + 1, endTag, depth + 1, acc + [ev[pos]])
      case End(name) =>
        if depth - 1 == 0 && name == endTag then Content(acc, pos + 1)
        else ReadContent(ev, pos + 1, endTag, depth - 1, acc + [ev[pos]])
      case Text(_) => ReadContent(ev, pos + 1, endTag, depth, acc + [ev[pos]])
      case Empty(_, _) => ReadContent(ev, pos + 1, endTag, depth, acc)
  }

  /** The end tag that ends the content. */
  predicate Closes(e: Xml.Event, endTag: string, depth: int)
  {
    e.End? && depth - 1 == 0 && e.name == endTag
  }

  /** The nesting depth after an event. */
  function NextDepth(e: Xml.Event, depth: int): int
  {
    match e
    case Start(_, _) => depth + 1
    case End(_) => depth - 1
    case _ => depth
  }

  /** The content read from the start of an element. */
  function ElementContent(ev: seq<Xml.Event>, pos: nat, endTag: string): (r: Content)
    requires pos <= |ev|
    ensures pos <= r.next <= |ev| && |r.events| <= r.next - pos
  {
    ReadContent(ev, pos, endTag, 1, [])
  }

  /** Events that, read at nesting depth `depth`, close every element they
      open and never close more: the depth never falls to zero and ends at one. */
  predicate Nested(inner: seq<Xml.Event>, depth: int)
  {
    if inner == [] then depth == 1
    else
      match inner[0]
      case Start(_, _) => Nested(inner[1..], depth + 1)
      case End(_) => depth > 1 && Nested(inner[1..], depth - 1)
      case Text(_) => Nested(inner[1..], depth)
      case Empty(_, _) => false
  }

  /** The events at `pos` are `inner` and then the end tag `endTag`. */
  predicate ElementAt(ev: seq<Xml.Event>, pos: nat, inner: seq<Xml.Event>, endTag: string)
  {
    pos + |inner| < |ev| && ev[pos + |inner|] == Xml.End(endTag)
    && forall j :: 0 <= j < |inner| ==> ev[pos + j] == inner[j]
  }

  /** The content read back is exactly the nested events before the end tag. */
  lemma {:induction false} ReadContentOfNested(ev: seq<Xml.Event>, pos: nat, inner: seq<Xml.Event>, endTag: string, depth: int, acc: seq<Xml.Event>)
    requires Nested(inner, depth) && ElementAt(ev, pos, inner, endTag)
    ensures ReadContent(ev, pos, endTag, depth, acc) == Content(acc + inner, pos + |inner| + 1)
    decreases |inner|
  {
    if inner == [] {
      assert acc + inner == acc;
    } else {
      assert ev[pos] == inner[0];
      assert ElementAt(ev, pos + 1, inner[1..], endTag) by {
        forall j | 0 <= j < |inner[1..]|
          ensures ev[pos + 1 + j] == inner[1..][j]
        {
          assert ev[pos + (j + 1)] == inner[j + 1];
        }
      }
      ReadContentOfNested(ev, pos + 1, inner[1..], endTag, NextDepth(inner[0], depth), acc + [inner[0]]);
      assert (acc + [inner[0]]) + inner[1..] == acc + inner;
    }
  }

  /** Self-closing tags never appear in the content. */
  lemma {:induction false} ReadContentDropsEmpty(ev: seq<Xml.Event>, pos: nat, endTag: string, depth: int, acc: seq<Xml.Event>)
    requires pos <= |ev| && forall j :: 0 <= j < |acc| ==> !acc[j].Empty?
    ensures forall j :: 0 <= j < |ReadContent(ev, pos, endTag, depth, acc).events| ==>
      !ReadContent(ev, pos, endTag, depth, acc).events[j].Empty?
    decreases |ev| - pos
  {
    if pos < |ev| && !Closes(ev[pos], endTag, depth) {
      var acc' := if ev[pos].Empty? then acc else acc + [ev[pos]];
      assert forall j :: 0 <= j < |acc'| ==> !acc'[j].Empty?;
      ReadContentDropsEmpty(ev, pos + 1, endTag, NextDepth(ev[pos], depth), acc');
    }
  }

  // ---------------------------------------------------------------------------
  // Structures and their child slots
  // ---------------------------------------------------------------------------

  /** The structures with a parser of their own. `readsEmptyChr` tells
      whether an n-ary operator's character is also taken from a
      self-closing `m:chr`. */
  datatype Structure = SuperscriptOf | SubscriptOf | FractionOf | NaryOf(readsEmptyChr: bool) | DelimiterOf

  /** The structure a start tag opens, if it is one the parser knows; an
      n-ary operator is read as evidently intended, from a self-closing
      `m:chr` too. */
  function StructureOf(name: string): Option<Structure>
  {
    if name == "m:sSup" then Some(SuperscriptOf)
    else if name == "m:sSub" then Some(SubscriptOf)
    else if name == "m:f" then Some(FractionOf)
    else if name == "m:nary" then Some(NaryOf(true))
    else if name == "m:d" then Some(DelimiterOf)
    else None
  }

  /** The tag that ends a structure. */
  function CloseName(k: Structure): string
  {
    match k
    case SuperscriptOf => "m:sSup"
    case SubscriptOf => "m:sSub"
    case FractionOf => "m:f"
    case NaryOf(_) => "m:nary"
    case DelimiterOf => "m:d"
  }

  datatype Slot = First | Second | Third

  /** The slot a child element fills, by its tag: base and script of a
      super- or subscript, numerator and denominator of a fraction, lower
      limit, upper limit and base of an n-ary operator, content of a delimiter. */
  function SlotOf(k: Structure, name: string): Option<Slot>
  {
    match k
    case SuperscriptOf => if name == "m:e" then Some(First) else if name == "m:sup" then Some(Second) else None
    case SubscriptOf => if name == "m:e" then Some(First) else if name == "m:sub" then Some(Second) else None
    case FractionOf => if name == "m:num" then Some(First) else if name == "m:den" then Some(Second) else None
    case NaryOf(_) =>
      if name == "m:sub" then Some(First) else if name == "m:sup" then Some(Second)
      else if name == "m:e" then Some(Third) else None
    case DelimiterOf => if name == "m:e" then Some(First) else None
  }

  /** The parsed children so far, and the n-ary operator. */
  datatype Slots = Slots(first: Option<OmmlElement>, second: Option<OmmlElement>, third: Option<OmmlElement>, operator: string)

  const NoSlots := Slots(None, None, None, "∑")

  /** A super- or subscript keeps its first base; every other slot keeps its last child. */
  predicate KeepsFirst(k: Structure, slot: Slot)
  {
    (k == SuperscriptOf || k == SubscriptOf) && slot == First
  }

  function Fill(k: Structure, s: Slots, slot: Slot, child: OmmlElement): Slots
  {
    if KeepsFirst(k, slot) && s.first.Some? then s
    else
      match slot
      case First => s.(first := Some(child))
      case Second => s.(second := Some(child))
      case Third => s.(third := Some(child))
  }

  /** A missing child is empty text. */
  function OrEmpty(o: Option<OmmlElement>): OmmlElement
  {
    match o
    case Some(e) => e
    case None => Text("")
  }

  /** The element a structure's slots make. */
  function Build(k: Structure, s: Slots): OmmlElement
  {
    match k
    case SuperscriptOf => Superscript(OrEmpty(s.first), OrEmpty(s.second))
    case SubscriptOf => Subscript(OrEmpty(s.first), OrEmpty(s.second))
    case FractionOf => Fraction(OrEmpty(s.first), OrEmpty(s.second))
    case NaryOf(_) => Nary(s.operator, s.first, s.second, OrEmpty(s.third))
    case DelimiterOf => Delimiter(OrEmpty(s.first))
  }

  /** An event that sets the operator character of an n-ary operator. */
  predicate SetsOperator(k: Structure, e: Xml.Event)
  {
    k.NaryOf? && (e.Start? || (k.readsEmptyChr && e.Empty?)) && e.name == "m:chr"
  }

  /** The value of the first attribute called `m:val`. */
  function ValAttribute(attributes: seq<Xml.Attribute>): (r: Option<string>)
    ensures r.None? <==> forall j :: 0 <= j < |attributes| ==> attributes[j].key != "m:val"
    ensures r.Some? ==> exists j :: 0 <= j < |attributes| && attributes[j] == Xml.Attribute("m:val", r.value)
  {
    if attributes == [] then None
    else if attributes[0].key == "m:val" then Some(attributes[0].value)
    else
      var r := ValAttribute(attributes[1..]);
      assert forall j :: 1 <= j < |attributes| ==> attributes[j] == attributes[1..][j - 1];
      r
  }

  // ---------------------------------------------------------------------------
  // The parser
  // ---------------------------------------------------------------------------

  /** An element and the position after it. */
  datatype Parsed = Parsed(element: OmmlElement, next: nat)

  /** `parse_omml_element`: the sole element parsed, or the sequence of all of them. */
  function ParseElement(ev: seq<Xml.Event>): OmmlElement
    decreases |ev|, 2
  {
    Wrap(Elements(ev, 0))
  }

  function Wrap(es: seq<OmmlElement>): OmmlElement
  {
    if |es| == 1 then es[0] else Sequence(es)
  }

  /** The top-level loop: every known structure and every run, in order;
      other events are stepped over, so the children of unknown structures
      are still found. */
  function Elements(ev: seq<Xml.Event>, pos: nat): seq<OmmlElement>
    requires pos <= |ev|
    decreases |ev|, 1, |ev| - pos
  {
    if pos == |ev| then []
    else
      var e := ev[pos];
      if e.Start? && StructureOf(e.name).Some? then
        var p := StructLoop(StructureOf(e.name).value, ev, pos + 1, NoSlots);
        [p.element] + Elements(ev, p.next)
      else if e.Start? && e.name == "m:r" then
        var p := RunLoop(ev, pos + 1, "");
        [p.element] + Elements(ev, p.next)
      else Elements(ev, pos + 1)
  }

  /** `parse_superscript`, `parse_subscript`, `parse_fraction`, `parse_nary`
      and `parse_delimiter`: each child element's content is read and parsed
      into its slot, until the structure's end tag or the end of the document. */
  function StructLoop(k: Structure, ev: seq<Xml.Event>, pos: nat, s: Slots): (r: Parsed)
    requires pos <= |ev|
    ensures pos <= r.next <= |ev|
    decreases |ev|, 0, |ev| - pos
  {
    if pos == |ev| then Parsed(Build(k, s), |ev|)
    else
      var e := ev[pos];
      if e.Start? && SlotOf(k, e.name).Some? then
        var c := ElementContent(ev, pos + 1, e.name);
        var slot := SlotOf(k, e.name).value;
        var s' := if KeepsFirst(k, slot) && s.first.Some? then s else Fill(k, s, slot, ParseElement(c.events));
        StructLoop(k, ev, c.next, s')
      else if SetsOperator(k, e) then
        var s' := match ValAttribute(e.attributes) case Some(v) => s.(operator := v) case None => s;
        StructLoop(k, ev, pos + 1, s')
      else if e == Xml.End(CloseName(k)) then Parsed(Build(k, s), pos + 1)
      else StructLoop(k, ev, pos + 1, s)
  }

  /** `parse_nary` as written: only a start tag `m:chr` sets the operator. */
  function ParseNaryAsWritten(ev: seq<Xml.Event>, pos: nat): (r: Parsed)
    requires pos <= |ev|
    ensures r.element.Nary?
  {
    NaryIsNary(ev, pos, NoSlots, false);
    StructLoop(NaryOf(false), ev, pos, NoSlots)
  }

  /** `parse_nary`, reading the operator from a self-closing `m:chr` too. */
  function ParseNary(ev: seq<Xml.Event>, pos: nat): (r: Parsed)
    requires pos <= |ev|
    ensures r.element.Nary?
  {
    NaryIsNary(ev, pos, NoSlots, true);
    StructLoop(NaryOf(true), ev, pos, NoSlots)
  }

  lemma {:induction false} NaryIsNary(ev: seq<Xml.Event>, pos: nat, s: Slots, b: bool)
    requires pos <= |ev|
    ensures StructLoop(NaryOf(b), ev, pos, s).element.Nary?
    decreases |ev| - pos
  {
    if pos < |ev| {
      var k := NaryOf(b);
      var e := ev[pos];
      if e.Start? && SlotOf(k, e.name).Some? {
        var c := ElementContent(ev, pos + 1, e.name);
        var slot := SlotOf(k, e.name).value;
        NaryIsNary(ev, c.next, Fill(k, s, slot, ParseElement(c.events)), b);
      } else if SetsOperator(k, e) {
        match ValAttribute(e.attributes)
        case Some(v) => NaryIsNary(ev, pos + 1, s.(operator := v), b);
        case None => NaryIsNary(ev, pos + 1, s, b);
      } else if e != Xml.End(CloseName(k)) {
        NaryIsNary(ev, pos + 1, s, b);
      }
    }
  }

  /** The first event after a start tag, when it is text. */
  predicate TextFollows(ev: seq<Xml.Event>, pos: nat)
  {
    pos + 1 < |ev| && ev[pos + 1].Text?
  }

  /** The position after reading the event that follows `pos`. */
  function AfterNext(ev: seq<Xml.Event>, pos: nat): (r: nat)
    requires pos < |ev|
    ensures pos < r <= |ev|
  {
    if pos + 1 < |ev| then pos + 2 else |ev|
  }

  predicate IsTextStart(e: Xml.Event) { e.Start? && e.name == "m:t" }

  /** `parse_run`: the text right after each `m:t` start tag, until the end of the run. */
  function RunLoop(ev: seq<Xml.Event>, pos: nat, text: string): (r: Parsed)
    requires pos <= |ev|
    ensures pos <= r.next <= |ev|
    decreases |ev| - pos
  {
    if pos == |ev| then Parsed(Text(text), |ev|)
    else if IsTextStart(ev[pos]) then
      RunLoop(ev, AfterNext(ev, pos), if TextFollows(ev, pos) then text + ev[pos + 1].text else text)
    else if ev[pos] == Xml.End("m:r") then Parsed(Text(text), pos + 1)
    else RunLoop(ev, pos + 1, text)
  }

  /** `extract_text_from_omml`: the text right after each `m:t` start tag, joined. */
  function TextFrom(ev: seq<Xml.Event>, pos: nat): string
    requires pos <= |ev|
    decreases |ev| - pos
  {
    if pos == |ev| then ""
    else if IsTextStart(ev[pos]) then
      (if TextFollows(ev, pos) then ev[pos + 1].text else "") + TextFrom(ev, AfterNext(ev, pos))
    else TextFrom(ev, pos + 1)
  }

  function Fallback(ev: seq<Xml.Event>): string
  {
    TextFrom(ev, 0)
  }

  // ---------------------------------------------------------------------------
  // Rendering
  // ---------------------------------------------------------------------------

  function SuperscriptChar(c: char): char
  {
    match c
    case '0' => '⁰' case '1' => '¹' case '2' => '²' case '3' => '³' case '4' => '⁴'
    case '5' => '⁵' case '6' => '⁶' case '7' => '⁷' case '8' => '⁸' case '9' => '⁹'
    case '+' => '⁺' case '-' => '⁻' case '=' => '⁼' case '(' => '⁽' case ')' => '⁾'
    case 'n' => 'ⁿ' case 'i' => 'ⁱ'
    case _ => c
  }

  function SubscriptChar(c: char): char
  {
    match c
    case '0' => '₀' case '1' => '₁' case '2' => '₂' case '3' => '₃' case '4' => '₄'
    case '5' => '₅' case '6' => '₆' case '7' => '₇' case '8' => '₈' case '9' => '₉'
    case '+' => '₊' case '-' => '₋' case '=' => '₌' case '(' => '₍' case ')' => '₎'
    case 'a' => 'ₐ' case 'e' => 'ₑ' case 'h' => 'ₕ' case 'i' => 'ᵢ' case 'j' => 'ⱼ'
    case 'k' => 'ₖ' case 'l' => 'ₗ' case 'm' => 'ₘ' case 'n' => 'ₙ' case 'o' => 'ₒ'
    case 'p' => 'ₚ' case 'r' => 'ᵣ' case 's' => 'ₛ' case 't' => 'ₜ' case 'u' => 'ᵤ'
    case 'v' => 'ᵥ' case 'x' => 'ₓ'
    case _ => c
  }

  /** The characters with a superscript form, and those with a subscript form. */
  const SuperscriptDomain: set<char> := {'0', '1', '2', '3', '4', '5', '6', '7', '8', '9', '+', '-', '=', '(', ')', 'n', 'i'}
  const SubscriptDomain: set<char> :=
    {'0', '1', '2', '3', '4', '5', '6', '7', '8', '9', '+', '-', '=', '(', ')',
     'a', 'e', 'h', 'i', 'j', 'k', 'l', 'm', 'n', 'o', 'p', 'r', 's', 't', 'u', 'v', 'x'}

  /** `to_superscript`: each character by its superscript form. */
  function ToSuperscript(s: string): string
  {
    seq(|s|, i requires 0 <= i < |s| => SuperscriptChar(s[i]))
  }

  /** `to_subscript`: each character by its subscript form. */
  function ToSubscript(s: string): string
  {
    seq(|s|, i requires 0 <= i < |s| => SubscriptChar(s[i]))
  }

  /** The precomposed glyph for a fraction, when there is one. */
  function FractionGlyph(num: string, den: string): Option<string>
  {
    if num == "1" && den == "2" then Some("½")
    else if num == "1" && den == "4" then Some("¼")
    else if num == "3" && den == "4" then Some("¾")
    else if num == "1" && den == "3" then Some("⅓")
    else if num == "2" && den == "3" then Some("⅔")
    else if num == "1" && den == "5" then Some("⅕")
    else if num == "1" && den == "8" then Some("⅛")
    else None
  }

  function FractionText(num: string, den: string): string
  {
    match FractionGlyph(num, den)
    case Some(g) => g
    case None => "(" + num + "⁄" + den + ")"
  }

  /** `render_to_unicode`. */
  function Render(el: OmmlElement): string
    decreases el, 1
  {
    match el
    case Text(s) => s
    case Sequence(es) => RenderAll(es)
    case Superscript(b, s) => Render(b) + ToSuperscript(Render(s))
    case Subscript(b, s) => Render(b) + ToSubscript(Render(s))
    case Fraction(n, d) => FractionText(Render(n), Render(d))
    case Nary(op, sub, sup, b) => op + LimitText(sub, false) + LimitText(sup, true) + Render(b)
    case Delimiter(c) => "(" + Render(c) + ")"
  }

  /** A limit of an n-ary operator, as subscript or superscript; nothing when absent. */
  function LimitText(limit: Option<OmmlElement>, upper: bool): string
    decreases limit, 0
  {
    match limit
    case Some(x) => if upper then ToSuperscript(Render(x)) else ToSubscript(Render(x))
    case None => ""
  }

  /** The renderings of a sequence of elements, joined. */
  function RenderAll(es: seq<OmmlElement>): string
    decreases es, 0
  {
    if es == [] then "" else RenderAll(es[..|es| - 1]) + Render(es[|es| - 1])
  }

  // ---------------------------------------------------------------------------
  // The reader loops
  // ---------------------------------------------------------------------------

  /** `read_element_content`, returning the markup and the events it was
      written from. */
  method ReadElementContent(ev: seq<Xml.Event>, pos: nat, endTag: string) returns (content: string, events: seq<Xml.Event>, next: nat)
    requires pos <= |ev|
    ensures Content(events, next) == ElementContent(ev, pos, endTag)
    ensures content == Xml.SerialisedAll(events)
  {
    var depth := 1;
    var i := pos;
    content, events := "", [];
    while i < |ev|
      invariant pos <= i <= |ev|
      invariant ReadContent(ev, i, endTag, depth, events) == ElementContent(ev, pos, endTag)
      invariant content == Xml.SerialisedAll(events)
    {
      var e := ev[i];
      if Closes(e, endTag, depth) {
        next := i + 1;
        return;
      }
      if !e.Empty? {
        Xml.SerialisedAllSnoc(events, e);
        content := content + Xml.Serialised(e);
        events := events + [e];
      }
      depth := NextDepth(e, depth);
      i := i + 1;
    }
    next := |ev|;
  }

  /** The loop shared by the five structure parsers. */
  method ParseStructure(k: Structure, ev: seq<Xml.Event>, pos: nat) returns (element: OmmlElement, next: nat)
    requires pos <= |ev|
    ensures Parsed(element, next) == StructLoop(k, ev, pos, NoSlots)
    decreases |ev|, 0
  {
    var slots := NoSlots;
    var i := pos;
    while i < |ev|
      invariant pos <= i <= |ev|
      invariant StructLoop(k, ev, i, slots) == StructLoop(k, ev, pos, NoSlots)
    {
      var e := ev[i];
      if e.Start? && SlotOf(k, e.name).Some? {
        var _, events, after := ReadElementContent(ev, i + 1, e.name);
        var slot := SlotOf(k, e.name).value;
        if !(KeepsFirst(k, slot) && slots.first.Some?) {
          var child := ParseOmmlElement(events);
          slots := Fill(k, slots, slot, child);
        }
        i := after;
      } else if SetsOperator(k, e) {
        var value := ValAttribute(e.attributes);
        if value.Some? {
          slots := slots.(operator := value.value);
        }
        i := i + 1;
      } else if e == Xml.End(CloseName(k)) {
        return Build(k, slots), i + 1;
      } else {
        i := i + 1;
      }
    }
    element, next := Build(k, slots), |ev|;
  }

  /** `parse_run`. */
  method ParseRun(ev: seq<Xml.Event>, pos: nat) returns (element: OmmlElement, next: nat)
    requires pos <= |ev|
    ensures Parsed(element, next) == RunLoop(ev, pos, "")
  {
    var text := "";
    var i := pos;
    while i < |ev|
      invariant pos <= i <= |ev|
      invariant RunLoop(ev, i, text) == RunLoop(ev, pos, "")
    {
      if IsTextStart(ev[i]) {
        if TextFollows(ev, i) {
          text := text + ev[i + 1].text;
        }
        i := AfterNext(ev, i);
      } else if ev[i] == Xml.End("m:r") {
        return Text(text), i + 1;
      } else {
        i := i + 1;
      }
    }
    element, next := Text(text), |ev|;
  }

  /** `parse_omml_element`. */
  method ParseOmmlElement(ev: seq<Xml.Event>) returns (element: OmmlElement)
    ensures element == ParseElement(ev)
    decreases |ev|, 2
  {
    var elements: seq<OmmlElement> := [];
    var i := 0;
    while i < |ev|
      invariant 0 <= i <= |ev|
      invariant elements + Elements(ev, i) == Elements(ev, 0)
    {
      var found, after := ParseAt(ev, i);
      assert (elements + found) + Elements(ev, after) == elements + (found + Elements(ev, after));
      elements := elements + found;
      i := after;
    }
    assert elements == Elements(ev, 0);
    if |elements| == 1 {
      element := elements[0];
    } else {
      element := Sequence(elements);
    }
  }

  /** One turn of the top-level loop: a structure or a run, or nothing. */
  method ParseAt(ev: seq<Xml.Event>, i: nat) returns (found: seq<OmmlElement>, after: nat)
    requires i < |ev|
    ensures i < after <= |ev| && Elements(ev, i) == found + Elements(ev, after)
    decreases |ev|, 1
  {
    var e := ev[i];
    if e.Start? && StructureOf(e.name).Some? {
      var el;
      el, after := ParseStructure(StructureOf(e.name).value, ev, i + 1);
      found := [el];
    } else if e.Start? && e.name == "m:r" {
      var el;
      el, after := ParseRun(ev, i + 1);
      found := [el];
    } else {
      found, after := [], i + 1;
    }
  }

  /** `extract_text_from_omml`. */
  method ExtractTextFromOmml(ev: seq<Xml.Event>) returns (text: string)
    ensures text == Fallback(ev)
  {
    text := "";
    var i := 0;
    while i < |ev|
      invariant 0 <= i <= |ev|
      invariant text + TextFrom(ev, i) == TextFrom(ev, 0)
    {
      if IsTextStart(ev[i]) {
        var piece := if TextFollows(ev, i) then ev[i + 1].text else "";
        assert (text + piece) + TextFrom(ev, AfterNext(ev, i)) == text + (piece + TextFrom(ev, AfterNext(ev, i)));
        text := text + piece;
        i := AfterNext(ev, i);
      } else {
        i := i + 1;
      }
    }
  }

  /** `Equation::from_omml`, given the events of `omml` with its text as
      written; both readers of the source trim text, so both read the trimmed
      events. */
  method FromOmml(omml: string, ev: seq<Xml.Event>) returns (eq: Equation)
    ensures eq == Equation(omml, Render(ParseElement(Xml.TrimText(ev))), Fallback(Xml.TrimText(ev)))
  {
    var trimmed := Xml.TrimText(ev);
    var element := ParseOmmlElement(trimmed);
    var fallback := ExtractTextFromOmml(trimmed);
    eq := Equation(omml, Render(element), fallback);
  }

  // ---------------------------------------------------------------------------
  // Properties of the rendering
  // ---------------------------------------------------------------------------

  /** Rendering a sequence distributes over concatenation. */
  lemma {:induction false} RenderAllAppend(a: seq<OmmlElement>, b: seq<OmmlElement>)
    ensures RenderAll(a + b) == RenderAll(a) + RenderAll(b)
    decreases |b|
  {
    if b != [] {
      var b' := b[..|b| - 1];
      assert (a + b)[..|a + b| - 1] == a + b';
      RenderAllAppend(a, b');
    } else {
      assert a + b == a;
    }
  }

  /** Returning the sole element instead of a one-element sequence does not
      change the rendering. */
  lemma RenderWrap(es: seq<OmmlElement>)
    ensures Render(Wrap(es)) == RenderAll(es)
  {
    if |es| == 1 {
      assert es[..0] == [];
    }
  }

  /** A character changes under the superscript map exactly when it has a superscript form. */
  lemma SuperscriptChanges(c: char)
    ensures SuperscriptChar(c) != c <==> c in SuperscriptDomain
  {
  }

  /** A character changes under the subscript map exactly when it has a subscript form. */
  lemma SubscriptChanges(c: char)
    ensures SubscriptChar(c) != c <==> c in SubscriptDomain
  {
  }

  /** The script maps work character by character: they keep the length and
      distribute over concatenation. */
  lemma ScriptsAppend(a: string, b: string)
    ensures |ToSuperscript(a)| == |a| && |ToSubscript(a)| == |a|
    ensures ToSuperscript(a + b) == ToSuperscript(a) + ToSuperscript(b)
    ensures ToSubscript(a + b) == ToSubscript(a) + ToSubscript(b)
  {
    assert forall i :: 0 <= i < |a + b| ==> ToSuperscript(a + b)[i] == (ToSuperscript(a) + ToSuperscript(b))[i];
    assert forall i :: 0 <= i < |a + b| ==> ToSubscript(a + b)[i] == (ToSubscript(a) + ToSubscript(b))[i];
  }

  /** Every super- and subscript form lies outside ASCII, where the maps change nothing. */
  lemma ScriptFormsBeyondAscii(c: char)
    ensures SuperscriptChar(c) == c || SuperscriptChar(c) > '\U{7f}'
    ensures SubscriptChar(c) == c || SubscriptChar(c) > '\U{7f}'
    ensures c > '\U{7f}' ==> SuperscriptChar(c) == c && SubscriptChar(c) == c
  {
  }

  lemma SuperscriptCharIdempotent(c: char)
    ensures SuperscriptChar(SuperscriptChar(c)) == SuperscriptChar(c)
  {
    ScriptFormsBeyondAscii(c);
    ScriptFormsBeyondAscii(SuperscriptChar(c));
  }

  lemma SubscriptCharIdempotent(c: char)
    ensures SubscriptChar(SubscriptChar(c)) == SubscriptChar(c)
  {
    ScriptFormsBeyondAscii(c);
    ScriptFormsBeyondAscii(SubscriptChar(c));
  }

  /** No super- or subscript form has a form of its own: mapping twice is mapping once. */
  lemma ScriptsIdempotent(s: string)
    ensures ToSuperscript(ToSuperscript(s)) == ToSuperscript(s)
    ensures ToSubscript(ToSubscript(s)) == ToSubscript(s)
  {
    forall i | 0 <= i < |s|
      ensures ToSuperscript(ToSuperscript(s))[i] == ToSuperscript(s)[i]
    {
      SuperscriptCharIdempotent(s[i]);
    }
    forall i | 0 <= i < |s|
      ensures ToSubscript(ToSubscript(s))[i] == ToSubscript(s)[i]
    {
      SubscriptCharIdempotent(s[i]);
    }
  }

  /** The conversions in the unit tests. */
  lemma ScriptExamples()
    ensures ToSuperscript("2") == "²" && ToSuperscript("n") == "ⁿ" && ToSuperscript("10") == "¹⁰"
    ensures ToSubscript("0") == "₀" && ToSubscript("k") == "ₖ" && ToSubscript("n-k") == "ₙ₋ₖ"
  {
    assert ToSuperscript("10")[0] == '¹' && ToSuperscript("10")[1] == '⁰';
    assert ToSubscript("n-k")[0] == 'ₙ' && ToSubscript("n-k")[1] == '₋' && ToSubscript("n-k")[2] == 'ₖ';
  }

  /** Each precomposed glyph stands for one fraction, and every other fraction
      is written out in parentheses around a fraction slash. */
  lemma FractionGlyphs(num: string, den: string, num': string, den': string)
    ensures FractionGlyph(num, den).Some? && FractionGlyph(num, den) == FractionGlyph(num', den')
      ==> num == num' && den == den'
    ensures FractionGlyph(num, den).Some? ==> |FractionText(num, den)| == 1
    ensures FractionGlyph(num, den).None? ==>
      FractionText(num, den)[..|num| + 1] == "(" + num && EndsWith(FractionText(num, den), "⁄" + den + ")")
  {
    if FractionGlyph(num, den).None? {
      var t := FractionText(num, den);
      assert t == "(" + num + ("⁄" + den + ")");
      assert t[..|num| + 1] == "(" + num;
    }
  }

  /** An n-ary operator renders as its operator, then its limits, then its base. */
  lemma NaryRendering(op: string, sub: Option<OmmlElement>, sup: Option<OmmlElement>, base: OmmlElement)
    ensures StartsWith(Render(Nary(op, sub, sup, base)), op)
    ensures EndsWith(Render(Nary(op, sub, sup, base)), Render(base))
    ensures sub.None? && sup.None? ==> Render(Nary(op, sub, sup, base)) == op + Render(base)
  {
    var lim := LimitText(sub, false) + LimitText(sup, true);
    assert Render(Nary(op, sub, sup, base)) == op + lim + Render(base);
    Framed(op, lim, Render(base));
  }

  lemma Framed(a: string, b: string, c: string)
    ensures StartsWith(a + b + c, a) && EndsWith(a + b + c, c)
  {
    assert (a + b + c)[..|a|] == a;
    assert (a + b + c)[|a + b + c| - |c|..] == c;
  }

  // ---------------------------------------------------------------------------
  // Properties of the parser
  // ---------------------------------------------------------------------------

  /** The events of an element without attributes. */
  function ElementEvents(tag: string, inner: seq<Xml.Event>): seq<Xml.Event>
  {
    [Xml.Start(tag, [])] + inner + [Xml.End(tag)]
  }

  /** A text run `<m:r><m:t>x</m:t></m:r>`. */
  function RunEvents(x: string): seq<Xml.Event>
  {
    ElementEvents("m:r", ElementEvents("m:t", [Xml.Text(x)]))
  }

  lemma ElementInside(ev: seq<Xml.Event>, pre: seq<Xml.Event>, tag: string, inner: seq<Xml.Event>, post: seq<Xml.Event>)
    requires ev == pre + ElementEvents(tag, inner) + post
    ensures |pre| < |ev| && ev[|pre|] == Xml.Start(tag, [])
    ensures ElementAt(ev, |pre| + 1, inner, tag)
  {
    assert ev[|pre|] == ElementEvents(tag, inner)[0];
    assert ev[|pre| + 1 + |inner|] == ElementEvents(tag, inner)[1 + |inner|];
    forall j | 0 <= j < |inner|
      ensures ev[|pre| + 1 + j] == inner[j]
    {
      assert ev[|pre| + 1 + j] == ElementEvents(tag, inner)[1 + j];
    }
  }

  /** A child element `tag` with the nested events `inner` starts at `pos`. */
  predicate ChildAt(ev: seq<Xml.Event>, pos: nat, tag: string, inner: seq<Xml.Event>)
  {
    pos < |ev| && ev[pos] == Xml.Start(tag, []) && Nested(inner, 1) && ElementAt(ev, pos + 1, inner, tag)
  }

  /** A structure's child element fills its slot, and the loop resumes past its end tag. */
  lemma StructChild(k: Structure, ev: seq<Xml.Event>, pos: nat, tag: string, inner: seq<Xml.Event>, s: Slots, slot: Slot)
    requires ChildAt(ev, pos, tag, inner) && SlotOf(k, tag) == Some(slot) && !(KeepsFirst(k, slot) && s.first.Some?)
    ensures StructLoop(k, ev, pos, s) == StructLoop(k, ev, pos + |inner| + 2, Fill(k, s, slot, ParseElement(inner)))
  {
    ReadContentOfNested(ev, pos + 1, inner, tag, 1, []);
    var c := ElementContent(ev, pos + 1, tag);
    assert c == Content(inner, pos + |inner| + 2);
  }

  /** A later base of a super- or subscript is read and dropped. */
  lemma StructChildDropped(k: Structure, ev: seq<Xml.Event>, pos: nat, tag: string, inner: seq<Xml.Event>, s: Slots, slot: Slot)
    requires ChildAt(ev, pos, tag, inner) && SlotOf(k, tag) == Some(slot) && KeepsFirst(k, slot) && s.first.Some?
    ensures StructLoop(k, ev, pos, s) == StructLoop(k, ev, pos + |inner| + 2, s)
  {
    ReadContentOfNested(ev, pos + 1, inner, tag, 1, []);
    var c := ElementContent(ev, pos + 1, tag);
    assert c == Content(inner, pos + |inner| + 2);
  }

  lemma RunEventsAre(x: string)
    ensures RunEvents(x) == [Xml.Start("m:r", []), Xml.Start("m:t", []), Xml.Text(x), Xml.End("m:t"), Xml.End("m:r")]
  {
  }

  lemma RunNested(x: string)
    ensures Nested(RunEvents(x), 1)
  {
    var ev := RunEvents(x);
    RunEventsAre(x);
    assert ev[5..] == [] && ev[4..][1..] == ev[5..] && ev[3..][1..] == ev[4..];
    assert ev[2..][1..] == ev[3..] && ev[1..][1..] == ev[2..];
    assert Nested(ev[4..], 2) && Nested(ev[3..], 3) && Nested(ev[2..], 3) && Nested(ev[1..], 2);
  }

  /** A text run parses as its text, and that text is also its fallback. */
  lemma RunParsed(x: string)
    ensures Nested(RunEvents(x), 1)
    ensures ParseElement(RunEvents(x)) == Text(x) && Render(ParseElement(RunEvents(x))) == x
    ensures Fallback(RunEvents(x)) == x
  {
    RunNested(x);
    RunElements(RunEvents(x), x);
    RunFallback(RunEvents(x), x);
  }

  lemma RunElements(ev: seq<Xml.Event>, x: string)
    requires ev == [Xml.Start("m:r", []), Xml.Start("m:t", []), Xml.Text(x), Xml.End("m:t"), Xml.End("m:r")]
    ensures ParseElement(ev) == Text(x)
  {
    assert RunLoop(ev, 4, x) == Parsed(Text(x), 5);
    assert RunLoop(ev, 3, x) == Parsed(Text(x), 5);
    assert "" + x == x;
    assert RunLoop(ev, 1, "") == Parsed(Text(x), 5);
    assert Elements(ev, 5) == [];
    assert Elements(ev, 0) == [Text(x)];
  }

  lemma RunFallback(ev: seq<Xml.Event>, x: string)
    requires ev == [Xml.Start("m:r", []), Xml.Start("m:t", []), Xml.Text(x), Xml.End("m:t"), Xml.End("m:r")]
    ensures Fallback(ev) == x
  {
    assert TextFrom(ev, 4) == "";
    assert TextFrom(ev, 3) == "";
    assert TextFrom(ev, 1) == x;
  }

  /** The events of `<m:f><m:num>num</m:num><m:den>den</m:den></m:f>`. */
  function FractionEvents(num: seq<Xml.Event>, den: seq<Xml.Event>): seq<Xml.Event>
  {
    [Xml.Start("m:f", [])] + ElementEvents("m:num", num) + ElementEvents("m:den", den) + [Xml.End("m:f")]
  }

  lemma FractionEventsShape(num: seq<Xml.Event>, den: seq<Xml.Event>)
    requires Nested(num, 1) && Nested(den, 1)
    ensures var ev := FractionEvents(num, den); var p1 := |num| + 3; var p2 := p1 + |den| + 2;
      |ev| == p2 + 1 && ev[0] == Xml.Start("m:f", []) && ev[p2] == Xml.End("m:f")
      && ChildAt(ev, 1, "m:num", num) && ChildAt(ev, p1, "m:den", den)
  {
    var ev := FractionEvents(num, den);
    var head := [Xml.Start("m:f", [])];
    assert ev == head + ElementEvents("m:num", num) + (ElementEvents("m:den", den) + [Xml.End("m:f")]);
    ElementInside(ev, head, "m:num", num, ElementEvents("m:den", den) + [Xml.End("m:f")]);
    ElementInside(ev, head + ElementEvents("m:num", num), "m:den", den, [Xml.End("m:f")]);
  }

  /** Two child elements in a row fill their slots one after the other. */
  lemma StructTwoChildren(k: Structure, ev: seq<Xml.Event>, pos: nat, s: Slots,
                          tag1: string, inner1: seq<Xml.Event>, slot1: Slot,
                          tag2: string, inner2: seq<Xml.Event>, slot2: Slot)
    requires ChildAt(ev, pos, tag1, inner1) && SlotOf(k, tag1) == Some(slot1) && !(KeepsFirst(k, slot1) && s.first.Some?)
    requires ChildAt(ev, pos + |inner1| + 2, tag2, inner2) && SlotOf(k, tag2) == Some(slot2) && !KeepsFirst(k, slot2)
    ensures StructLoop(k, ev, pos, s)
         == StructLoop(k, ev, pos + |inner1| + |inner2| + 4, Fill(k, Fill(k, s, slot1, ParseElement(inner1)), slot2, ParseElement(inner2)))
  {
    StructChild(k, ev, pos, tag1, inner1, s, slot1);
    StructChild(k, ev, pos + |inner1| + 2, tag2, inner2, Fill(k, s, slot1, ParseElement(inner1)), slot2);
  }

  lemma FractionSlots()
    ensures SlotOf(FractionOf, "m:num") == Some(First) && SlotOf(FractionOf, "m:den") == Some(Second)
    ensures CloseName(FractionOf) == "m:f"
  {
  }

  /** A structure ends at its end tag. */
  lemma StructEnd(k: Structure, ev: seq<Xml.Event>, pos: nat, s: Slots)
    requires pos < |ev| && ev[pos] == Xml.End(CloseName(k))
    ensures StructLoop(k, ev, pos, s) == Parsed(Build(k, s), pos + 1)
  {
  }

  lemma FractionParsed(num: seq<Xml.Event>, den: seq<Xml.Event>)
    requires Nested(num, 1) && Nested(den, 1)
    ensures ParseElement(FractionEvents(num, den)) == Fraction(ParseElement(num), ParseElement(den))
  {
    var ev := FractionEvents(num, den);
    var n, d := ParseElement(num), ParseElement(den);
    var s := Slots(Some(n), Some(d), None, "∑");
    FractionEventsShape(num, den);
    FractionSlots();
    StructTwoChildren(FractionOf, ev, 1, NoSlots, "m:num", num, First, "m:den", den, Second);
    assert Fill(FractionOf, Fill(FractionOf, NoSlots, First, n), Second, d) == s;
    StructEnd(FractionOf, ev, |num| + |den| + 5, s);
    assert StructLoop(FractionOf, ev, 1, NoSlots) == Parsed(Fraction(n, d), |ev|);
    assert Elements(ev, |ev|) == [];
    assert Elements(ev, 0) == [Fraction(n, d)];
  }

  /** The fraction of the unit test renders as the glyph for one half. */
  lemma SimpleFraction()
    ensures Render(ParseElement(FractionEvents(RunEvents("1"), RunEvents("2")))) == "½"
  {
    RunParsed("1");
    RunParsed("2");
    FractionParsed(RunEvents("1"), RunEvents("2"));
  }

  /** An event that names the operator character, in either form. */
  predicate NamesChr(e: Xml.Event)
  {
    (e.Start? || e.Empty?) && e.name == "m:chr"
  }

  /** Without any `m:chr`, an n-ary operator keeps the operator it started with. */
  lemma {:induction false} OperatorKept(b: bool, ev: seq<Xml.Event>, pos: nat, s: Slots)
    requires pos <= |ev| && forall j :: pos <= j < |ev| ==> !NamesChr(ev[j])
    ensures StructLoop(NaryOf(b), ev, pos, s).element.Nary?
    ensures StructLoop(NaryOf(b), ev, pos, s).element.operator == s.operator
    decreases |ev| - pos
  {
    if pos < |ev| {
      var k := NaryOf(b);
      var e := ev[pos];
      if e.Start? && SlotOf(k, e.name).Some? {
        var c := ElementContent(ev, pos + 1, e.name);
        OperatorKept(b, ev, c.next, Fill(k, s, SlotOf(k, e.name).value, ParseElement(c.events)));
      } else if e != Xml.End(CloseName(k)) {
        assert !NamesChr(ev[pos]);
        OperatorKept(b, ev, pos + 1, s);
      }
    }
  }

  /** The operator of an n-ary operator is "∑" unless an `m:chr` gives another one. */
  lemma NaryDefaultsToSum(ev: seq<Xml.Event>, pos: nat)
    requires pos <= |ev| && forall j :: pos <= j < |ev| ==> !NamesChr(ev[j])
    ensures ParseNary(ev, pos).element.operator == "∑"
  {
    OperatorKept(true, ev, pos, NoSlots);
  }

  /** As written, the self-closing `<m:chr m:val="∫"/>` that Word writes is
      stepped over and the operator stays "∑". */
  lemma EmptyChrIgnoredAsWritten(ev: seq<Xml.Event>, pos: nat)
    requires pos + 1 < |ev| && ev[pos] == Xml.Empty("m:chr", [Xml.Attribute("m:val", "∫")]) && ev[pos + 1] == Xml.End("m:nary")
    ensures ParseNaryAsWritten(ev, pos).element.operator == "∑"
  {
    assert StructLoop(NaryOf(false), ev, pos + 1, NoSlots).element.operator == "∑";
  }

  /** Reading the self-closing `m:chr` too, its value becomes the operator. */
  lemma EmptyChrRead(ev: seq<Xml.Event>, pos: nat, attributes: seq<Xml.Attribute>, v: string)
    requires pos + 1 < |ev| && ev[pos] == Xml.Empty("m:chr", attributes) && ev[pos + 1] == Xml.End("m:nary")
    requires ValAttribute(attributes) == Some(v)
    ensures ParseNary(ev, pos).element.operator == v
  {
    assert StructLoop(NaryOf(true), ev, pos + 1, NoSlots.(operator := v)).element.operator == v;
  }

  // ---------------------------------------------------------------------------
  // Properties of the fallback text
  // ---------------------------------------------------------------------------

  lemma {:induction false} TextFromShift(a: seq<Xml.Event>, b: seq<Xml.Event>, j: nat)
    requires j <= |b|
    ensures TextFrom(a + b, |a| + j) == TextFrom(b, j)
    decreases |b| - j
  {
    if j < |b| {
      assert (a + b)[|a| + j] == b[j];
      if IsTextStart(b[j]) {
        if j + 1 < |b| {
          assert (a + b)[|a| + j + 1] == b[j + 1];
          TextFromShift(a, b, j + 2);
        } else {
          TextFromShift(a, b, |b|);
        }
      } else {
        TextFromShift(a, b, j + 1);
      }
    }
  }

  lemma {:induction false} TextFromAppend(a: seq<Xml.Event>, b: seq<Xml.Event>, i: nat)
    requires i <= |a| && (a == [] || !IsTextStart(a[|a| - 1]))
    ensures TextFrom(a + b, i) == TextFrom(a, i) + TextFrom(b, 0)
    decreases |a| - i
  {
    if i == |a| {
      TextFromShift(a, b, 0);
    } else {
      assert (a + b)[i] == a[i];
      if IsTextStart(a[i]) {
        assert (a + b)[i + 1] == a[i + 1];
        TextFromAppend(a, b, i + 2);
      } else {
        TextFromAppend(a, b, i + 1);
      }
    }
  }

  /** The fallback of two pieces of markup is the two fallbacks joined, unless
      the first ends in a start tag `m:t` whose text is in the second. */
  lemma FallbackAppend(a: seq<Xml.Event>, b: seq<Xml.Event>)
    requires a == [] || !IsTextStart(a[|a| - 1])
    ensures Fallback(a + b) == Fallback(a) + Fallback(b)
  {
    TextFromAppend(a, b, 0);
  }
}
