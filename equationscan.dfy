/**
 * The two passes over the XML events of the document body that find
 * equations: one lists every equation with the number of the paragraph it
 * is in and whether it is inline (not inside an `m:oMathPara`); the other
 * records, for each paragraph holding an inline equation or text, the
 * ordered text pieces and inline equations that make it up.
 */
module EquationScan {
  import opened Xml
  import Latex

  /** An equation, converted, with where it was found. */
  datatype EquationInfo = EquationInfo(latex: string, fallback: string, isInline: bool, paragraphIndex: nat)

  /** A piece of a paragraph: text, or an inline equation. */
  datatype ParagraphContent =
    | TextPiece(text: string)
    | InlineEquation(latex: string, fallback: string)

  predicate IsStart(e: Event, name: string) { e.Start? && e.name == name }

  predicate IsEnd(e: Event, name: string) { e == End(name) }

  // ---------------------------------------------------------------------------
  // All equations with their paragraph
  // ---------------------------------------------------------------------------

  /** The variables of the pass that lists the equations. */
  datatype DisplayScan = DisplayScan(
    inMath: bool, inMathPara: bool, omml: string, paragraphIndex: nat, equations: seq<EquationInfo>)

  const DisplayStart := DisplayScan(false, false, "", 0, [])

  /** One event of the pass, by the first arm of the `match` that applies. */
  function DisplayStep(st: DisplayScan, e: Event): DisplayScan
  {
    if IsStart(e, "w:p") then st.(paragraphIndex := st.paragraphIndex + 1)
    else if IsStart(e, "m:oMathPara") then st.(inMathPara := true)
    else if IsEnd(e, "m:oMathPara") then st.(inMathPara := false)
    else if IsStart(e, "m:oMath") then st.(inMath := true, omml := "")
    else if IsEnd(e, "m:oMath") then
      var converted := Latex.ParseSimpleOmml(st.omml);
      st.(inMath := false, omml := "",
          equations := st.equations + [EquationInfo(converted.latex, converted.fallback, !st.inMathPara, st.paragraphIndex)])
    else if st.inMath then st.(omml := st.omml + Serialised(e))
    else st
  }

  /** The pass over `events`, from the start. */
  function DisplayRun(events: seq<Event>): DisplayScan
  {
    if events == [] then DisplayStart
    else DisplayStep(DisplayRun(events[..|events| - 1]), events[|events| - 1])
  }

  /** `extract_equations_from_docx`, on the reader's events. */
  method ExtractEquations(events: seq<Event>) returns (equations: seq<EquationInfo>)
    ensures equations == DisplayRun(events).equations
  {
    var inMath := false;
    var inMathPara := false;
    var omml := "";
    var paragraphIndex := 0;
    equations := [];
    var k := 0;
    while k < |events|
      invariant 0 <= k <= |events|
      invariant DisplayScan(inMath, inMathPara, omml, paragraphIndex, equations) == DisplayRun(events[..k])
    {
      var e := events[k];
      assert events[..k + 1][..k] == events[..k];
      if IsStart(e, "w:p") {
        paragraphIndex := paragraphIndex + 1;
      } else if IsStart(e, "m:oMathPara") {
        inMathPara := true;
      } else if IsEnd(e, "m:oMathPara") {
        inMathPara := false;
      } else if IsStart(e, "m:oMath") {
        inMath := true;
        omml := "";
      } else if IsEnd(e, "m:oMath") {
        inMath := false;
        var converted := Latex.ParseSimpleOmml(omml);
        equations := equations + [EquationInfo(converted.latex, converted.fallback, !inMathPara, paragraphIndex)];
        omml := "";
      } else if inMath {
        omml := omml + Serialised(e);
      }
      k := k + 1;
    }
    assert events[..k] == events;
  }

  /** Every closing `m:oMath` yields one equation, whether or not an opening one came first. */
  lemma {:induction false} OneEquationPerMath(events: seq<Event>)
    ensures |DisplayRun(events).equations| == CountEnds(events, "m:oMath")
    ensures DisplayRun(events).paragraphIndex == CountStarts(events, "w:p")
  {
    if events != [] {
      var init := events[..|events| - 1];
      var e := events[|events| - 1];
      OneEquationPerMath(init);
      assert events == init + [e];
      CountEndsSnoc(init, e, "m:oMath");
      CountStartsSnoc(init, e, "w:p");
    }
  }

  /** The equations are listed in document order: their paragraph numbers never
      decrease and never exceed the number of paragraphs started. */
  predicate InOrder(equations: seq<EquationInfo>, bound: nat)
  {
    (forall j :: 0 <= j < |equations| ==> equations[j].paragraphIndex <= bound)
    && (forall j, k :: 0 <= j < k < |equations| ==> equations[j].paragraphIndex <= equations[k].paragraphIndex)
  }

  lemma {:induction false} EquationsInOrder(events: seq<Event>)
    ensures InOrder(DisplayRun(events).equations, DisplayRun(events).paragraphIndex)
  {
    if events != [] {
      EquationsInOrder(events[..|events| - 1]);
    }
  }

  /** An equation is inline exactly when no `m:oMathPara` is open where it ends. */
  lemma InlineWhenOutsideMathPara(events: seq<Event>, e: Event)
    requires IsEnd(e, "m:oMath")
    ensures var eq := DisplayRun(events + [e]).equations;
      eq == DisplayRun(events).equations + [eq[|eq| - 1]]
      && eq[|eq| - 1].isInline == !DisplayRun(events).inMathPara
      && eq[|eq| - 1].paragraphIndex == DisplayRun(events).paragraphIndex
  {
    assert (events + [e])[..|events|] == events;
  }

  /** Inside an equation, every other event adds its serialised form to the
      markup and no equation. */
  lemma CollectsMarkup(events: seq<Event>, e: Event)
    requires DisplayRun(events).inMath
    requires !IsStart(e, "w:p") && !IsStart(e, "m:oMathPara") && !IsEnd(e, "m:oMathPara")
    requires !IsStart(e, "m:oMath") && !IsEnd(e, "m:oMath")
    ensures DisplayRun(events + [e]).omml == DisplayRun(events).omml + Serialised(e)
    ensures DisplayRun(events + [e]).equations == DisplayRun(events).equations
  {
    assert (events + [e])[..|events|] == events;
  }

  // ---------------------------------------------------------------------------
  // The content of paragraphs with inline equations
  // ---------------------------------------------------------------------------

  /** The variables of the pass that collects paragraph content. */
  datatype InlineScan = InlineScan(
    inParagraph: bool, inMath: bool, inMathPara: bool, inTextRun: bool,
    paragraphIndex: nat, content: seq<ParagraphContent>, text: string, omml: string,
    paragraphs: map<nat, seq<ParagraphContent>>)

  const InlineStart := InlineScan(false, false, false, false, 0, [], "", "", map[])

  /** One event of the pass, by the first arm of the `match` that applies. */
  function InlineStep(st: InlineScan, e: Event): InlineScan
  {
    if IsStart(e, "w:p") then st.(inParagraph := true, paragraphIndex := st.paragraphIndex + 1, content := [])
    else if IsEnd(e, "w:p") then
      st.(inParagraph := false,
          paragraphs := if st.content != [] then st.paragraphs[st.paragraphIndex := st.content] else st.paragraphs)
    else if IsStart(e, "m:oMathPara") then st.(inMathPara := true)
    else if IsEnd(e, "m:oMathPara") then st.(inMathPara := false)
    else if IsStart(e, "m:oMath") && st.inParagraph && !st.inMathPara then st.(inMath := true, omml := "")
    else if IsEnd(e, "m:oMath") && st.inMath then
      var converted := Latex.ParseSimpleOmml(st.omml);
      st.(inMath := false, omml := "", content := st.content + [InlineEquation(converted.latex, converted.fallback)])
    else if IsStart(e, "w:t") && st.inParagraph && !st.inMath then st.(inTextRun := true, text := "")
    else if IsEnd(e, "w:t") && st.inTextRun then
      st.(inTextRun := false, content := if st.text != [] then st.content + [TextPiece(st.text)] else st.content)
    else if e.Text? && st.inTextRun then st.(text := st.text + e.text)
    else if st.inMath then st.(omml := st.omml + Serialised(e))
    else st
  }

  function InlineRun(events: seq<Event>): InlineScan
  {
    if events == [] then InlineStart
    else InlineStep(InlineRun(events[..|events| - 1]), events[|events| - 1])
  }

  /** `extract_inline_equation_positions`, on the reader's events. */
  method ExtractInlineEquationPositions(events: seq<Event>) returns (paragraphs: map<nat, seq<ParagraphContent>>)
    ensures paragraphs == InlineRun(events).paragraphs
  {
    var inParagraph, inMath, inMathPara, inTextRun := false, false, false, false;
    var paragraphIndex := 0;
    var content: seq<ParagraphContent> := [];
    var text, omml := "", "";
    paragraphs := map[];
    var k := 0;
    while k < |events|
      invariant 0 <= k <= |events|
      invariant InlineScan(inParagraph, inMath, inMathPara, inTextRun, paragraphIndex, content, text, omml, paragraphs)
             == InlineRun(events[..k])
    {
      var e := events[k];
      assert events[..k + 1][..k] == events[..k];
      if IsStart(e, "w:p") {
        inParagraph := true;
        paragraphIndex := paragraphIndex + 1;
        content := [];
      } else if IsEnd(e, "w:p") {
        inParagraph := false;
        if content != [] {
          paragraphs := paragraphs[paragraphIndex := content];
        }
      } else if IsStart(e, "m:oMathPara") {
        inMathPara := true;
      } else if IsEnd(e, "m:oMathPara") {
        inMathPara := false;
      } else if IsStart(e, "m:oMath") && inParagraph && !inMathPara {
        inMath := true;
        omml := "";
      } else if IsEnd(e, "m:oMath") && inMath {
        inMath := false;
        var converted := Latex.ParseSimpleOmml(omml);
        content := content + [InlineEquation(converted.latex, converted.fallback)];
        omml := "";
      } else if IsStart(e, "w:t") && inParagraph && !inMath {
        inTextRun := true;
        text := "";
      } else if IsEnd(e, "w:t") && inTextRun {
        inTextRun := false;
        if text != [] {
          content := content + [TextPiece(text)];
        }
      } else if e.Text? && inTextRun {
        text := text + e.text;
      } else if inMath {
        omml := omml + Serialised(e);
      }
      k := k + 1;
    }
    assert events[..k] == events;
  }

  /** No text piece is empty. */
  predicate PiecesNonEmpty(content: seq<ParagraphContent>)
  {
    forall j :: 0 <= j < |content| && content[j].TextPiece? ==> content[j].text != []
  }

  /** Every recorded paragraph is one already counted, and holds pieces. */
  predicate Recorded(paragraphs: map<nat, seq<ParagraphContent>>, paragraphIndex: nat)
  {
    forall n :: n in paragraphs ==> 1 <= n <= paragraphIndex && paragraphs[n] != [] && PiecesNonEmpty(paragraphs[n])
  }

  /** What the pass keeps true: paragraphs are recorded under their number,
      from 1 to the number of paragraphs started, only with some content, and
      text pieces are never empty. */
  predicate InlineValid(st: InlineScan)
  {
    && Recorded(st.paragraphs, st.paragraphIndex)
    && PiecesNonEmpty(st.content)
    && (st.content != [] || st.inParagraph || st.inMath || st.inTextRun ==> st.paragraphIndex >= 1)
  }

  lemma PiecesSnoc(content: seq<ParagraphContent>, c: ParagraphContent)
    requires PiecesNonEmpty(content) && (c.TextPiece? ==> c.text != [])
    ensures PiecesNonEmpty(content + [c])
  {
    assert forall j :: 0 <= j < |content| ==> (content + [c])[j] == content[j];
  }

  lemma RecordedStore(paragraphs: map<nat, seq<ParagraphContent>>, paragraphIndex: nat, content: seq<ParagraphContent>)
    requires Recorded(paragraphs, paragraphIndex) && PiecesNonEmpty(content) && content != [] && paragraphIndex >= 1
    ensures Recorded(paragraphs[paragraphIndex := content], paragraphIndex)
  {
  }

  lemma InlineStepValid(st: InlineScan, e: Event)
    requires InlineValid(st)
    ensures InlineValid(InlineStep(st, e))
  {
    if IsStart(e, "w:p") {
    } else if IsEnd(e, "w:p") {
      if st.content != [] {
        RecordedStore(st.paragraphs, st.paragraphIndex, st.content);
      }
    } else if IsStart(e, "m:oMathPara") || IsEnd(e, "m:oMathPara") {
    } else if IsStart(e, "m:oMath") && st.inParagraph && !st.inMathPara {
    } else if IsEnd(e, "m:oMath") && st.inMath {
      var converted := Latex.ParseSimpleOmml(st.omml);
      PiecesSnoc(st.content, InlineEquation(converted.latex, converted.fallback));
    } else if IsStart(e, "w:t") && st.inParagraph && !st.inMath {
    } else if IsEnd(e, "w:t") && st.inTextRun {
      if st.text != [] {
        PiecesSnoc(st.content, TextPiece(st.text));
      }
    }
  }

  lemma {:induction false} InlineRunValid(events: seq<Event>)
    ensures InlineValid(InlineRun(events))
    ensures InlineRun(events).paragraphIndex == CountStarts(events, "w:p")
  {
    if events != [] {
      var init := events[..|events| - 1];
      var e := events[|events| - 1];
      InlineRunValid(init);
      InlineStepValid(InlineRun(init), e);
      assert events == init + [e];
      CountStartsSnoc(init, e, "w:p");
    }
  }

  /** A paragraph's content is recorded when the paragraph ends, replacing
      nothing recorded before under a smaller number. */
  lemma ParagraphRecordedAtEnd(events: seq<Event>, e: Event)
    requires IsEnd(e, "w:p") && InlineRun(events).content != []
    ensures InlineRun(events + [e]).paragraphs
         == InlineRun(events).paragraphs[InlineRun(events).paragraphIndex := InlineRun(events).content]
  {
    assert (events + [e])[..|events|] == events;
  }
}
