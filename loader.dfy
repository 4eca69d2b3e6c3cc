/**
 * `load_document`: the walk over the document's children that turns each
 * paragraph into a list paragraph, a heading or a plain paragraph (in that
 * order of priority) and each table into a table element; the map of display
 * equations by paragraph index; the splice of inline equations into their
 * paragraphs; and the final list grouping, marker cleanup and display-equation
 * merge. The list counters of `DocumentNumberingManager` and the heading
 * counters of `HeadingNumberTracker` are threaded through the walk.
 */
module Loader {
  import opened Strings
  import opened Models
  import Docx
  import Numbering
  import Formatting
  import Heading
  import HeadingAnalysis
  import Tables
  import Cleanup
  import Lists
  import DocumentIo
  import EquationScan
  import Xml

  // ---------------------------------------------------------------------------
  // Word list numbering
  // ---------------------------------------------------------------------------

  /** What a paragraph's numbering property says about it as a list item. */
  datatype ListInfo = ListInfo(level: U8, isOrdered: bool, numId: Option<int>)

  /** The `is_ordered` table: no numId is a bullet; numId 1 is ordered on its
      three top levels and then alternates, ordered on odd levels; every other
      numId is ordered. */
  function IsOrdered(numId: Option<int>, level: U8): (r: bool)
    ensures numId.None? ==> !r
    ensures numId.Some? && numId.value != 1 ==> r
    ensures numId == Some(1) && level <= 2 ==> r
  {
    match numId
    case None => false
    case Some(id) =>
      if id == 1 then (if level <= 2 then true else level % 2 == 1)
      else true
  }

  /** Below its top three levels, numId 1 alternates between ordered and
      bullet levels. */
  lemma IsOrderedAlternates(level: U8)
    requires 3 <= level < 255
    ensures IsOrdered(Some(1), level + 1) == !IsOrdered(Some(1), level)
    ensures IsOrdered(Some(1), level) <==> level % 2 == 1
  {
  }

  /** `detect_list_from_paragraph_numbering`: any numbering property makes a
      list item; the level defaults to 0 and both values are narrowed as the
      source's casts do. */
  function DetectListFromParagraphNumbering(p: Docx.Paragraph): (r: Option<ListInfo>)
    ensures r.Some? <==> p.property.numberingProperty.Some?
    ensures r.Some? ==> r.value.isOrdered == IsOrdered(r.value.numId, r.value.level)
    ensures r.Some? ==> (r.value.numId.None? <==> p.property.numberingProperty.value.id.None?)
    ensures r.Some? && p.property.numberingProperty.value.level.None? ==> r.value.level == 0
  {
    match p.property.numberingProperty
    case None => None
    case Some(np) =>
      var level := if np.level.Some? then Formatting.ToU8(np.level.value) else 0;
      var numId := if np.id.Some? then Some(Formatting.ToI32(np.id.value)) else None;
      Some(ListInfo(level, IsOrdered(numId, level), numId))
  }

  /** `get_numbering_format`: the formats of Word's known lists, and otherwise
      one by level. */
  function GetNumberingFormat(numId: int, level: U8): (f: Numbering.NumberingFormat)
    ensures f != Numbering.Bullet
    ensures level >= 5 ==> f == Numbering.Decimal
  {
    match (numId, level)
    case (4, 0) => Numbering.Decimal
    case (4, 1) => Numbering.Decimal
    case (4, 2) => Numbering.LowerRoman
    case (5, 2) => Numbering.ParenLowerLetter
    case (2, 0) => Numbering.Decimal
    case (2, 3) => Numbering.ParenLowerRoman
    case (1, 0) => Numbering.Decimal
    case (1, 1) => Numbering.LowerLetter
    case (1, 2) => Numbering.LowerRoman
    case (1, 3) => Numbering.ParenLowerLetter
    case (1, 4) => Numbering.ParenLowerRoman
    case (_, 0) => Numbering.Decimal
    case (_, 1) => Numbering.LowerLetter
    case (_, 2) => Numbering.LowerRoman
    case (_, 3) => Numbering.UpperLetter
    case (_, 4) => Numbering.UpperRoman
    case _ => Numbering.Decimal
  }

  /** The per-level format every list id without its own entries uses. */
  function LevelFormat(level: U8): Numbering.NumberingFormat
  {
    if level == 0 then Numbering.Decimal
    else if level == 1 then Numbering.LowerLetter
    else if level == 2 then Numbering.LowerRoman
    else if level == 3 then Numbering.UpperLetter
    else if level == 4 then Numbering.UpperRoman
    else Numbering.Decimal
  }

  /** Only the ids 1, 2, 4 and 5 have entries of their own; numId 1 gives its
      five levels five different formats; (4, 1) is decimal, the hierarchical
      "parent.child." label coming from the numbering manager. */
  lemma NumberingFormats(numId: int, level: U8)
    ensures numId !in {1, 2, 4, 5} ==> GetNumberingFormat(numId, level) == LevelFormat(level)
    ensures GetNumberingFormat(4, 1) == Numbering.Decimal && GetNumberingFormat(4, 2) == Numbering.LowerRoman
    ensures GetNumberingFormat(5, 2) == Numbering.ParenLowerLetter && GetNumberingFormat(1, 4) == Numbering.ParenLowerRoman
    ensures GetNumberingFormat(1, 1) == Numbering.LowerLetter
    ensures forall a: U8, b: U8 :: a < b <= 4 ==> GetNumberingFormat(1, a) != GetNumberingFormat(1, b)
  {
  }

  // ---------------------------------------------------------------------------
  // The runs of a paragraph
  // ---------------------------------------------------------------------------

  /** The text of a run as the loader reads it: only its text children. */
  function TextChildren(children: seq<Docx.RunChild>): string
  {
    if children == [] then ""
    else
      var c := children[|children| - 1];
      TextChildren(children[..|children| - 1]) + (if c.TextChild? then c.text else "")
  }

  /** The runs directly under a paragraph that have text, with their formatting. */
  function RunsOf(children: seq<Docx.ParagraphChild>): (r: seq<FormattedRun>)
    ensures forall i :: 0 <= i < |r| ==> r[i].text != ""
  {
    if children == [] then []
    else
      var c := children[|children| - 1];
      RunsOf(children[..|children| - 1]) + RunOf(c)
  }

  function RunOf(c: Docx.ParagraphChild): (r: seq<FormattedRun>)
    ensures |r| <= 1 && forall i :: 0 <= i < |r| ==> r[i].text != ""
  {
    if c.ParagraphRun? && TextChildren(c.run.children) != "" then
      [FormattedRun(TextChildren(c.run.children), c.run.formatting)]
    else []
  }

  /** The text of the direct runs, empty or not. */
  function DirectText(children: seq<Docx.ParagraphChild>): string
  {
    if children == [] then ""
    else
      var c := children[|children| - 1];
      DirectText(children[..|children| - 1]) + (if c.ParagraphRun? then TextChildren(c.run.children) else "")
  }

  /** Leaving out the runs without text loses no text. */
  lemma {:induction false} RunsText(children: seq<Docx.ParagraphChild>)
    ensures Texts(RunsOf(children)) == DirectText(children)
  {
    if children != [] {
      var init, c := children[..|children| - 1], children[|children| - 1];
      RunsText(init);
      if RunOf(c) != [] {
        TextsSnoc(RunsOf(init), RunOf(c)[0]);
      } else {
        assert RunsOf(init) + [] == RunsOf(init);
      }
    }
  }

  method RunText(run: Docx.Run) returns (text: string)
    ensures text == TextChildren(run.children)
  {
    text := "";
    var i := 0;
    while i < |run.children|
      invariant i <= |run.children|
      invariant text == TextChildren(run.children[..i])
    {
      assert run.children[..i + 1][..i] == run.children[..i];
      if run.children[i].TextChild? {
        text := text + run.children[i].text;
      }
      i := i + 1;
    }
    assert run.children[..i] == run.children;
  }

  /** The loop collecting a paragraph's formatted runs. */
  method CollectRuns(p: Docx.Paragraph) returns (runs: seq<FormattedRun>)
    ensures runs == RunsOf(p.children)
  {
    runs := [];
    var i := 0;
    while i < |p.children|
      invariant i <= |p.children|
      invariant runs == RunsOf(p.children[..i])
    {
      assert p.children[..i + 1][..i] == p.children[..i];
      var c := p.children[i];
      if c.ParagraphRun? {
        var text := RunText(c.run);
        if text != "" {
          runs := runs + [FormattedRun(text, c.run.formatting)];
        }
      }
      i := i + 1;
    }
    assert p.children[..i] == p.children;
  }

  // ---------------------------------------------------------------------------
  // Classification of a paragraph
  // ---------------------------------------------------------------------------

  /** The label of a list item that the numbering manager does not number:
      "* " for bullets, "level+1. " for an ordered item without numId. */
  function FallbackLabel(info: ListInfo): string
  {
    if info.isOrdered then NatToString(info.level + 1) + ". " else "* "
  }

  /** Whether the numbering manager numbers the item. */
  predicate Managed(info: ListInfo)
  {
    info.isOrdered && info.numId.Some?
  }

  /** The unformatted run that carries a Word list item's marker, indentation
      and label. */
  function PrefixRun(info: ListInfo, numberText: string): (r: FormattedRun)
    ensures r.formatting == DefaultFormatting
    ensures r.text == Cleanup.WordListMarker + Repeat("  ", info.level) + numberText
  {
    FormattedRun(Cleanup.WordListMarker + Repeat("  ", info.level) + numberText, DefaultFormatting)
  }

  /** A heading's number: its own, else a non-empty automatic one, else none. */
  function HeadingNumber(h: Numbering.HeadingInfo, auto: string): (r: Option<string>)
    ensures h.number.Some? ==> r == h.number
    ensures h.number.None? ==> (r.Some? <==> auto != "") && (r.Some? ==> r.value == auto)
  {
    if h.number.Some? then h.number else if auto == "" then None else Some(auto)
  }

  function FirstFormatting(runs: seq<FormattedRun>): TextFormatting
  {
    if runs != [] then runs[0].formatting else DefaultFormatting
  }

  /** A paragraph is skipped when its run text is blank. */
  predicate Blank(p: Docx.Paragraph)
  {
    Trim(Texts(RunsOf(p.children))) == ""
  }

  /** The element of a paragraph, given the label the numbering services
      produced for it (a list number or an automatic heading number). */
  function Classify(p: Docx.Paragraph, numberText: string): Option<DocumentElement>
  {
    var runs := RunsOf(p.children);
    var total := Texts(runs);
    if Trim(total) == "" then None
    else
      match DetectListFromParagraphNumbering(p)
      case Some(info) =>
        var prefix := if Managed(info) then numberText else FallbackLabel(info);
        Some(Paragraph([PrefixRun(info, prefix)] + runs))
      case None =>
        match Heading.DetectHeadingWithNumbering(p)
        case Some(h) =>
          Some(Heading(h.level, if h.cleanText.Some? then h.cleanText.value else total, HeadingNumber(h, numberText)))
        case None =>
          match Heading.DetectHeadingFromText(total, FirstFormatting(runs))
          case Some(level) => Some(Heading(level, total, None))
          case None => Some(Paragraph(Consolidate(runs)))
  }

  /** The numbering state the walk threads: the list counters, the heading
      slot counters and whether automatic heading numbers are on. */
  datatype Counters = Counters(lists: Numbering.NumberingCounters, headings: seq<nat>, autoNumbering: bool)

  /** Which numbering service, if any, a paragraph asks for a label. */
  datatype Demand = NoDemand | ListNumber(numId: int, level: U8) | HeadingNumberFor(level: U8)

  function DemandOf(p: Docx.Paragraph): Demand
  {
    if Blank(p) then NoDemand
    else
      match DetectListFromParagraphNumbering(p)
      case Some(info) => if Managed(info) then ListNumber(info.numId.value, info.level) else NoDemand
      case None =>
        match Heading.DetectHeadingWithNumbering(p)
        case Some(h) => if h.number.None? then HeadingNumberFor(h.level) else NoDemand
        case None => NoDemand
  }

  /** The label and the new state after serving a demand. */
  function Serve(d: Demand, c: Counters): (r: (string, Counters))
    requires |c.headings| == 6
    ensures |r.1.headings| == 6 && r.1.autoNumbering == c.autoNumbering
    ensures d.NoDemand? ==> r == ("", c)
    ensures !d.ListNumber? ==> r.1.lists == c.lists
    ensures !d.HeadingNumberFor? ==> r.1.headings == c.headings
  {
    match d
    case NoDemand => ("", c)
    case ListNumber(numId, level) =>
      var (lists, numberText) := Numbering.Generate(c.lists, numId, level, GetNumberingFormat(numId, level));
      (numberText, c.(lists := lists))
    case HeadingNumberFor(level) =>
      if c.autoNumbering then
        var (headings, numberText) := Numbering.TrackerStep(c.headings, level);
        (numberText, c.(headings := headings))
      else ("", c)
  }

  /** Words counted for a paragraph. */
  function WordsOf(p: Docx.Paragraph): nat
  {
    if Blank(p) then 0 else WordCount(Texts(RunsOf(p.children)))
  }

  /** One paragraph of the walk. */
  function ParagraphStep(p: Docx.Paragraph, c: Counters): (r: (Option<DocumentElement>, Counters))
    requires |c.headings| == 6
    ensures |r.1.headings| == 6 && r.1.autoNumbering == c.autoNumbering
  {
    var (numberText, c') := Serve(DemandOf(p), c);
    (Classify(p, numberText), c')
  }

  // ---------------------------------------------------------------------------
  // Classification properties
  // ---------------------------------------------------------------------------

  /** A blank paragraph gives no element, counts no words and asks for no
      number. */
  lemma BlankSkipped(p: Docx.Paragraph, c: Counters)
    requires |c.headings| == 6 && Blank(p)
    ensures ParagraphStep(p, c) == (None, c) && WordsOf(p) == 0
  {
  }

  /** A Word list item wins over everything else: its element is a paragraph
      whose first run is the unformatted prefix, followed by the original runs. */
  lemma ListFirst(p: Docx.Paragraph, numberText: string)
    requires !Blank(p) && p.property.numberingProperty.Some?
    ensures var info := DetectListFromParagraphNumbering(p).value;
      Classify(p, numberText) == Some(Paragraph([PrefixRun(info, if Managed(info) then numberText else FallbackLabel(info))] + RunsOf(p.children)))
  {
  }

  /** Without list numbering a styled heading comes next: its own number is
      kept, an automatic label is used only when it has none and the label is
      not empty. */
  lemma StyledHeadingSecond(p: Docx.Paragraph, numberText: string)
    requires !Blank(p) && p.property.numberingProperty.None?
    requires Heading.DetectHeadingWithNumbering(p).Some?
    ensures var h := Heading.DetectHeadingWithNumbering(p).value;
      && Classify(p, numberText).Some? && Classify(p, numberText).value.Heading?
      && Classify(p, numberText).value.level == h.level
      && (h.number.Some? ==> Classify(p, numberText).value.number == h.number)
      && (h.number.None? && numberText == "" ==> Classify(p, numberText).value.number.None?)
      && (h.number.None? && numberText != "" ==> Classify(p, numberText).value.number == Some(numberText))
  {
  }

  /** A paragraph that is neither a Word list item nor a styled heading is a
      heading by its text, or a paragraph of its consolidated runs. */
  lemma TextHeuristicThird(p: Docx.Paragraph, numberText: string)
    requires !Blank(p) && p.property.numberingProperty.None?
    requires Heading.DetectHeadingWithNumbering(p).None?
    ensures var runs := RunsOf(p.children);
      match Heading.DetectHeadingFromText(Texts(runs), FirstFormatting(runs))
      case Some(level) => Classify(p, numberText) == Some(Heading(level, Texts(runs), None))
      case None => Classify(p, numberText) == Some(Paragraph(Consolidate(runs)))
  {
  }

  /** The text of the element: list items read as their prefix run followed by
      the paragraph's text, plain paragraphs read exactly as the paragraph,
      headings by text carry it whole, styled headings carry it or the text
      with their number removed. */
  lemma ClassifyKeepsText(p: Docx.Paragraph, numberText: string)
    requires !Blank(p)
    ensures Classify(p, numberText).Some?
    ensures var total := Texts(RunsOf(p.children));
      match Classify(p, numberText).value
      case Paragraph(runs) =>
        if p.property.numberingProperty.Some? then Texts(runs) == runs[0].text + total && runs[0].formatting == DefaultFormatting
        else Texts(runs) == total
      case Heading(_, text, _) =>
        text == total || (Heading.DetectHeadingWithNumbering(p).Some? && Heading.DetectHeadingWithNumbering(p).value.cleanText == Some(text))
      case _ => false
  {
    var runs := RunsOf(p.children);
    match DetectListFromParagraphNumbering(p)
    case Some(info) =>
      var first := PrefixRun(info, if Managed(info) then numberText else FallbackLabel(info));
      TextsPrepend(first, runs);
    case None =>
      ConsolidatePreservesText(runs);
  }

  lemma {:induction false} TextsPrepend(first: FormattedRun, runs: seq<FormattedRun>)
    ensures Texts([first] + runs) == first.text + Texts(runs)
    decreases |runs|
  {
    if runs == [] {
      assert [first] + runs == [first];
      assert [first][..0] == [];
    } else {
      var init := runs[..|runs| - 1];
      TextsPrepend(first, init);
      assert ([first] + runs)[..|runs|] == [first] + init;
    }
  }

  /** Only a managed Word list item advances the list counters, and only a
      styled heading without a number of its own asks the heading tracker. */
  lemma CountersTouched(p: Docx.Paragraph, c: Counters)
    requires |c.headings| == 6
    ensures var c' := ParagraphStep(p, c).1;
      && (c'.lists != c.lists ==> DemandOf(p).ListNumber?)
      && (c'.headings != c.headings ==> DemandOf(p).HeadingNumberFor? && c.autoNumbering)
  {
  }

  // ---------------------------------------------------------------------------
  // The paragraph step against the numbering objects
  // ---------------------------------------------------------------------------

  /** The state of the two numbering objects. */
  function State(manager: Numbering.DocumentNumberingManager, tracker: Numbering.HeadingNumberTracker): Counters
    reads manager, tracker, tracker.counters
  {
    Counters(manager.counters, tracker.counters[..], tracker.autoNumberingEnabled)
  }

  /** One paragraph of `load_document`: collect its runs, count its words,
      ask the numbering manager or the heading tracker for a label when the
      paragraph needs one, and classify it. */
  method ProcessParagraph(p: Docx.Paragraph, manager: Numbering.DocumentNumberingManager, tracker: Numbering.HeadingNumberTracker)
      returns (element: Option<DocumentElement>, words: nat)
    requires tracker.Valid()
    modifies manager, tracker.counters
    ensures tracker.Valid() && tracker.counters == old(tracker.counters)
    ensures tracker.autoNumberingEnabled == old(tracker.autoNumberingEnabled)
    ensures element == ParagraphStep(p, Counters(old(manager.counters), old(tracker.counters[..]), tracker.autoNumberingEnabled)).0
    ensures State(manager, tracker) == ParagraphStep(p, Counters(old(manager.counters), old(tracker.counters[..]), tracker.autoNumberingEnabled)).1
    ensures words == WordsOf(p)
  {
    var runs := CollectRuns(p);
    var total := Texts(runs);
    if Trim(total) == "" {
      return None, 0;
    }
    words := WordCount(total);
    var numberText := ServeDemand(DemandOf(p), manager, tracker);
    element := Classify(p, numberText);
  }

  /** Ask the numbering manager or the heading tracker for the label a
      paragraph needs. */
  method ServeDemand(d: Demand, manager: Numbering.DocumentNumberingManager, tracker: Numbering.HeadingNumberTracker)
      returns (numberText: string)
    requires tracker.Valid()
    modifies manager, tracker.counters
    ensures tracker.Valid() && tracker.counters == old(tracker.counters)
    ensures tracker.autoNumberingEnabled == old(tracker.autoNumberingEnabled)
    ensures numberText == Serve(d, Counters(old(manager.counters), old(tracker.counters[..]), tracker.autoNumberingEnabled)).0
    ensures State(manager, tracker) == Serve(d, Counters(old(manager.counters), old(tracker.counters[..]), tracker.autoNumberingEnabled)).1
  {
    match d {
      case NoDemand =>
        numberText := "";
      case ListNumber(numId, level) =>
        numberText := manager.GenerateNumber(numId, level, GetNumberingFormat(numId, level));
      case HeadingNumberFor(level) =>
        numberText := tracker.GetNumber(level);
    }
  }

  // ---------------------------------------------------------------------------
  // The walk over the document's children
  // ---------------------------------------------------------------------------

  /** What the walk has produced: the elements, the word count and the state. */
  datatype Walk = Walk(elements: seq<DocumentElement>, wordCount: nat, counters: Counters)

  /** The walk over the children: paragraphs are classified, tables extracted,
      anything else skipped. */
  function Walked(children: seq<Docx.DocumentChild>, c: Counters): (w: Walk)
    requires |c.headings| == 6
    ensures |w.counters.headings| == 6 && w.counters.autoNumbering == c.autoNumbering
  {
    if children == [] then Walk([], 0, c)
    else
      var w := Walked(children[..|children| - 1], c);
      ChildStep(children[|children| - 1], w)
  }

  function ChildStep(child: Docx.DocumentChild, w: Walk): (r: Walk)
    requires |w.counters.headings| == 6
    ensures |r.counters.headings| == 6 && r.counters.autoNumbering == w.counters.autoNumbering
  {
    match child
    case DocParagraph(p) => ParagraphWalk(p, w)
    case DocTable(t) =>
      var e := Tables.ExtractedTable(t);
      w.(elements := w.elements + (if e.Some? then [e.value] else []))
    case OtherDocumentChild => w
  }

  function ParagraphWalk(p: Docx.Paragraph, w: Walk): (r: Walk)
    requires |w.counters.headings| == 6
    ensures |r.counters.headings| == 6 && r.counters.autoNumbering == w.counters.autoNumbering
  {
    Absorb(w, ParagraphStep(p, w.counters), WordsOf(p))
  }

  /** The walk after one paragraph's element, state and word count. */
  function Absorb(w: Walk, step: (Option<DocumentElement>, Counters), words: nat): Walk
  {
    Walk(w.elements + (if step.0.Some? then [step.0.value] else []), w.wordCount + words, step.1)
  }

  /** The words of the paragraphs among the children. */
  function WordsIn(children: seq<Docx.DocumentChild>): nat
  {
    if children == [] then 0
    else
      var c := children[|children| - 1];
      WordsIn(children[..|children| - 1]) + (if c.DocParagraph? then WordsOf(c.paragraph) else 0)
  }

  /** The word count is the words of the non-blank paragraphs, whatever the
      numbering state; each child makes at most one element. */
  lemma {:induction false} WalkCounts(children: seq<Docx.DocumentChild>, c: Counters)
    requires |c.headings| == 6
    ensures Walked(children, c).wordCount == WordsIn(children)
    ensures |Walked(children, c).elements| <= |children|
  {
    if children != [] {
      WalkCounts(children[..|children| - 1], c);
    }
  }

  /** With automatic heading numbers off, the heading counters never move. */
  lemma {:induction false} NoAutoNumbering(children: seq<Docx.DocumentChild>, c: Counters)
    requires |c.headings| == 6 && !c.autoNumbering
    ensures Walked(children, c).counters.headings == c.headings
  {
    if children != [] {
      NoAutoNumbering(children[..|children| - 1], c);
    }
  }

  /** The element loop of `load_document`. */
  method WalkDocument(children: seq<Docx.DocumentChild>, manager: Numbering.DocumentNumberingManager,
                      tracker: Numbering.HeadingNumberTracker)
      returns (elements: seq<DocumentElement>, wordCount: nat)
    requires tracker.Valid()
    modifies manager, tracker.counters
    ensures tracker.Valid() && tracker.counters == old(tracker.counters)
    ensures Walk(elements, wordCount, State(manager, tracker))
         == Walked(children, Counters(old(manager.counters), old(tracker.counters[..]), tracker.autoNumberingEnabled))
  {
    ghost var c0 := State(manager, tracker);
    elements, wordCount := [], 0;
    var i := 0;
    while i < |children|
      invariant i <= |children|
      invariant tracker.Valid() && tracker.counters == old(tracker.counters)
      invariant tracker.autoNumberingEnabled == c0.autoNumbering
      invariant Walk(elements, wordCount, State(manager, tracker)) == Walked(children[..i], c0)
    {
      assert children[..i + 1][..i] == children[..i];
      elements, wordCount := WalkChild(children[i], manager, tracker, elements, wordCount);
      i := i + 1;
    }
    assert children[..i] == children;
  }

  /** One child of the document: a paragraph is processed, a table extracted,
      anything else skipped. */
  method WalkChild(child: Docx.DocumentChild, manager: Numbering.DocumentNumberingManager,
                   tracker: Numbering.HeadingNumberTracker, elements: seq<DocumentElement>, wordCount: nat)
      returns (elements': seq<DocumentElement>, wordCount': nat)
    requires tracker.Valid()
    modifies manager, tracker.counters
    ensures tracker.Valid() && tracker.counters == old(tracker.counters)
    ensures tracker.autoNumberingEnabled == old(tracker.autoNumberingEnabled)
    ensures Walk(elements', wordCount', State(manager, tracker))
         == ChildStep(child, Walk(elements, wordCount, Counters(old(manager.counters), old(tracker.counters[..]), tracker.autoNumberingEnabled)))
  {
    elements', wordCount' := elements, wordCount;
    match child {
      case DocParagraph(p) =>
        elements', wordCount' := WalkParagraph(p, manager, tracker, elements, wordCount);
      case DocTable(t) =>
        var e := Tables.ExtractTableData(t);
        if e.Some? {
          elements' := elements' + [e.value];
        }
      case OtherDocumentChild =>
    }
  }

  method WalkParagraph(p: Docx.Paragraph, manager: Numbering.DocumentNumberingManager,
                       tracker: Numbering.HeadingNumberTracker, elements: seq<DocumentElement>, wordCount: nat)
      returns (elements': seq<DocumentElement>, wordCount': nat)
    requires tracker.Valid()
    modifies manager, tracker.counters
    ensures tracker.Valid() && tracker.counters == old(tracker.counters)
    ensures tracker.autoNumberingEnabled == old(tracker.autoNumberingEnabled)
    ensures Walk(elements', wordCount', State(manager, tracker))
         == ParagraphWalk(p, Walk(elements, wordCount, Counters(old(manager.counters), old(tracker.counters[..]), tracker.autoNumberingEnabled)))
  {
    var e, words := ProcessParagraph(p, manager, tracker);
    elements' := elements + (if e.Some? then [e.value] else []);
    wordCount' := wordCount + words;
  }

  // ---------------------------------------------------------------------------
  // Display equations by paragraph
  // ---------------------------------------------------------------------------

  /** The display equations as elements, grouped by paragraph index in their
      order of appearance. */
  function DisplayMap(infos: seq<EquationScan.EquationInfo>): DocumentIo.EquationMap
  {
    if infos == [] then map[]
    else
      var m := DisplayMap(infos[..|infos| - 1]);
      var e := infos[|infos| - 1];
      if e.isInline then m
      else m[e.paragraphIndex := DocumentIo.At(m, e.paragraphIndex) + [Equation(e.latex, e.fallback)]]
  }

  /** The display equations of one paragraph, filtered from the list. */
  function DisplayAt(infos: seq<EquationScan.EquationInfo>, k: nat): seq<DocumentElement>
  {
    if infos == [] then []
    else
      var e := infos[|infos| - 1];
      DisplayAt(infos[..|infos| - 1], k) + (if !e.isInline && e.paragraphIndex == k then [Equation(e.latex, e.fallback)] else [])
  }

  /** A paragraph index has an entry exactly when a display equation was found
      in it, and the entry is that paragraph's display equations in order. */
  lemma {:induction false} DisplayMapContents(infos: seq<EquationScan.EquationInfo>, k: nat)
    ensures DocumentIo.At(DisplayMap(infos), k) == DisplayAt(infos, k)
    ensures k in DisplayMap(infos) <==> exists i :: 0 <= i < |infos| && !infos[i].isInline && infos[i].paragraphIndex == k
  {
    if infos != [] {
      var init := infos[..|infos| - 1];
      DisplayMapContents(init, k);
      assert forall i :: 0 <= i < |init| ==> init[i] == infos[i];
      var e := infos[|infos| - 1];
      if !e.isInline && e.paragraphIndex == k {
        assert k in DisplayMap(infos);
      }
      if k in DisplayMap(infos) && !(!e.isInline && e.paragraphIndex == k) {
        assert k in DisplayMap(init);
        var i :| 0 <= i < |init| && !init[i].isInline && init[i].paragraphIndex == k;
        assert infos[i] == init[i];
      }
    }
  }

  /** Inline equations leave no trace in the map. */
  lemma {:induction false} InlineNotMapped(infos: seq<EquationScan.EquationInfo>)
    requires forall i :: 0 <= i < |infos| ==> infos[i].isInline
    ensures DisplayMap(infos) == map[]
  {
    if infos != [] {
      InlineNotMapped(infos[..|infos| - 1]);
    }
  }

  /** The loop building `display_equations_by_para`. */
  method BuildDisplayMap(infos: seq<EquationScan.EquationInfo>) returns (display: DocumentIo.EquationMap)
    ensures display == DisplayMap(infos)
  {
    display := map[];
    var i := 0;
    while i < |infos|
      invariant i <= |infos|
      invariant display == DisplayMap(infos[..i])
    {
      assert infos[..i + 1][..i] == infos[..i];
      var eq := infos[i];
      if !eq.isInline {
        var entry := if eq.paragraphIndex in display then display[eq.paragraphIndex] else [];
        display := display[eq.paragraphIndex := entry + [Equation(eq.latex, eq.fallback)]];
      }
      i := i + 1;
    }
    assert infos[..i] == infos;
  }

  // ---------------------------------------------------------------------------
  // Inline equations spliced into their paragraph
  // ---------------------------------------------------------------------------

  function Plain(text: string): FormattedRun
  {
    FormattedRun(text, DefaultFormatting)
  }

  /** How an equation reads inside its paragraph. */
  function Delimited(latex: string): string
  {
    "$" + latex + "$"
  }

  /** The runs written so far and the text not yet flushed. */
  datatype Splice = Splice(runs: seq<FormattedRun>, pending: string)

  function SpliceStep(st: Splice, item: EquationScan.ParagraphContent): Splice
  {
    match item
    case TextPiece(t) => st.(pending := st.pending + t)
    case InlineEquation(latex, _) =>
      Splice(st.runs + (if st.pending != "" then [Plain(st.pending)] else []) + [Plain(Delimited(latex))], "")
  }

  function SpliceFold(items: seq<EquationScan.ParagraphContent>): Splice
  {
    if items == [] then Splice([], "")
    else SpliceStep(SpliceFold(items[..|items| - 1]), items[|items| - 1])
  }

  /** The runs of a paragraph rebuilt from its text and inline equations. */
  function SpliceRuns(items: seq<EquationScan.ParagraphContent>): seq<FormattedRun>
  {
    var st := SpliceFold(items);
    st.runs + (if st.pending != "" then [Plain(st.pending)] else [])
  }

  /** The text of the pieces, each equation between dollar signs. */
  function PiecesText(items: seq<EquationScan.ParagraphContent>): string
  {
    if items == [] then ""
    else
      var item := items[|items| - 1];
      PiecesText(items[..|items| - 1]) + (if item.TextPiece? then item.text else Delimited(item.latex))
  }

  /** Every run of the splice is unformatted and not empty. */
  predicate PlainRuns(runs: seq<FormattedRun>)
  {
    forall i :: 0 <= i < |runs| ==> runs[i].text != "" && runs[i].formatting == DefaultFormatting
  }

  lemma {:induction false} SpliceFoldFacts(items: seq<EquationScan.ParagraphContent>)
    ensures Texts(SpliceFold(items).runs) + SpliceFold(items).pending == PiecesText(items)
    ensures PlainRuns(SpliceFold(items).runs)
  {
    if items != [] {
      var init := items[..|items| - 1];
      SpliceFoldFacts(init);
      var st := SpliceFold(init);
      match items[|items| - 1]
      case TextPiece(t) =>
      case InlineEquation(latex, _) =>
        var flushed := st.runs + (if st.pending != "" then [Plain(st.pending)] else []);
        if st.pending != "" {
          TextsSnoc(st.runs, Plain(st.pending));
        } else {
          assert flushed == st.runs;
        }
        TextsSnoc(flushed, Plain(Delimited(latex)));
    }
  }

  /** The rebuilt paragraph reads as its text with every equation written
      `$latex$`, in document order, and its runs are plain and not empty. */
  lemma SpliceReadsAsPieces(items: seq<EquationScan.ParagraphContent>)
    ensures Texts(SpliceRuns(items)) == PiecesText(items)
    ensures PlainRuns(SpliceRuns(items))
  {
    SpliceFoldFacts(items);
    var st := SpliceFold(items);
    if st.pending != "" {
      TextsSnoc(st.runs, Plain(st.pending));
    } else {
      assert SpliceRuns(items) == st.runs;
    }
  }

  /** Text between two equations becomes one run: "x = " then an equation then
      "." give three runs. */
  lemma SpliceExample()
    ensures SpliceRuns([EquationScan.TextPiece("x"), EquationScan.TextPiece(" = "), EquationScan.InlineEquation("a^2", "a2"),
                        EquationScan.TextPiece(".")])
         == [Plain("x = "), Plain("$a^2$"), Plain(".")]
  {
    var items := [EquationScan.TextPiece("x"), EquationScan.TextPiece(" = "), EquationScan.InlineEquation("a^2", "a2"),
                  EquationScan.TextPiece(".")];
    var a, b, c := items[..1], items[..2], items[..3];
    assert a[..0] == [] && b[..1] == a && c[..2] == b && items[..3] == c;
    assert SpliceFold(a) == Splice([], "x");
    assert SpliceFold(b) == Splice([], "x = ");
    assert Delimited("a^2") == "$a^2$";
    assert [] + [Plain("x = ")] + [Plain("$a^2$")] == [Plain("x = "), Plain("$a^2$")];
    assert SpliceFold(c) == Splice([Plain("x = "), Plain("$a^2$")], "");
    assert SpliceFold(items) == Splice([Plain("x = "), Plain("$a^2$")], ".");
  }

  /** The loop rebuilding a paragraph's runs. */
  method ReconstructRuns(items: seq<EquationScan.ParagraphContent>) returns (newRuns: seq<FormattedRun>)
    ensures newRuns == SpliceRuns(items)
  {
    newRuns := [];
    var accumulated := "";
    var i := 0;
    while i < |items|
      invariant i <= |items|
      invariant Splice(newRuns, accumulated) == SpliceFold(items[..i])
    {
      assert items[..i + 1][..i] == items[..i];
      match items[i] {
        case TextPiece(t) =>
          accumulated := accumulated + t;
        case InlineEquation(latex, _) =>
          if accumulated != "" {
            newRuns := newRuns + [Plain(accumulated)];
            accumulated := "";
          }
          newRuns := newRuns + [Plain(Delimited(latex))];
      }
      i := i + 1;
    }
    assert items[..i] == items;
    if accumulated != "" {
      newRuns := newRuns + [Plain(accumulated)];
    }
  }

  function HasEquation(items: seq<EquationScan.ParagraphContent>): (r: bool)
    ensures r <==> exists i :: 0 <= i < |items| && items[i].InlineEquation?
  {
    if items == [] then false
    else
      assert forall i :: 0 <= i < |items| - 1 ==> items[..|items| - 1][i] == items[i];
      HasEquation(items[..|items| - 1]) || items[|items| - 1].InlineEquation?
  }

  // ---------------------------------------------------------------------------
  // Integration of the equations with the elements
  // ---------------------------------------------------------------------------

  type InlineMap = map<nat, seq<EquationScan.ParagraphContent>>

  /** The number of paragraph elements. */
  function ParagraphCount(elements: seq<DocumentElement>): nat
  {
    if elements == [] then 0
    else ParagraphCount(elements[..|elements| - 1]) + (if elements[|elements| - 1].Paragraph? then 1 else 0)
  }

  /** What the paragraph counted `k` (from 1) becomes: its inline equations
      spliced in when its entry has any, its original runs when the entry has
      none, else the display equations of its index, else itself. */
  function Replacement(runs: seq<FormattedRun>, k: nat, inline: InlineMap, display: DocumentIo.EquationMap): seq<DocumentElement>
  {
    if k in inline then
      (if HasEquation(inline[k]) then [Paragraph(SpliceRuns(inline[k]))] else [Paragraph(runs)])
    else if k in display then display[k]
    else [Paragraph(runs)]
  }

  /** The elements with their equations integrated. */
  function Integrated(elements: seq<DocumentElement>, inline: InlineMap, display: DocumentIo.EquationMap): seq<DocumentElement>
  {
    if elements == [] then []
    else
      var init, e := elements[..|elements| - 1], elements[|elements| - 1];
      Integrated(init, inline, display)
      + (if e.Paragraph? then Replacement(e.runs, ParagraphCount(init) + 1, inline, display) else [e])
  }

  /** Without display equations and without an inline entry holding an
      equation, integration changes nothing. */
  lemma {:induction false} IntegrateNothing(elements: seq<DocumentElement>, inline: InlineMap, display: DocumentIo.EquationMap)
    requires display == map[]
    requires forall k :: k in inline ==> !HasEquation(inline[k])
    ensures Integrated(elements, inline, display) == elements
  {
    if elements != [] {
      var init := elements[..|elements| - 1];
      IntegrateNothing(init, inline, display);
      assert init + [elements[|elements| - 1]] == elements;
    }
  }

  /** Elements that are not paragraphs come through one for one, and a
      paragraph makes as many elements as its replacement. */
  lemma {:induction false} IntegratedLength(elements: seq<DocumentElement>, inline: InlineMap)
    ensures |Integrated(elements, inline, map[])| == |elements|
  {
    if elements != [] {
      IntegratedLength(elements[..|elements| - 1], inline);
    }
  }

  /** The replacement of a paragraph that holds an inline equation reads as
      its pieces; one with inline content but no equation stays as it is,
      even when display equations carry its index; otherwise display
      equations replace it. */
  lemma ReplacementText(runs: seq<FormattedRun>, k: nat, inline: InlineMap, display: DocumentIo.EquationMap)
    ensures k in inline && HasEquation(inline[k]) ==>
      |Replacement(runs, k, inline, display)| == 1 && Texts(Replacement(runs, k, inline, display)[0].runs) == PiecesText(inline[k])
    ensures k !in inline && k in display ==>
      Replacement(runs, k, inline, display) == display[k]
    ensures k in inline && !HasEquation(inline[k]) ==> Replacement(runs, k, inline, display) == [Paragraph(runs)]
    ensures k !in inline && k !in display ==> Replacement(runs, k, inline, display) == [Paragraph(runs)]
  {
    if k in inline && HasEquation(inline[k]) {
      SpliceReadsAsPieces(inline[k]);
    }
  }

  /** The loop integrating the equations. */
  method IntegrateEquations(elements: seq<DocumentElement>, inline: InlineMap, display: DocumentIo.EquationMap)
      returns (result: seq<DocumentElement>)
    ensures result == Integrated(elements, inline, display)
  {
    result := [];
    var paraIndex := 0;
    var i := 0;
    while i < |elements|
      invariant i <= |elements|
      invariant paraIndex == ParagraphCount(elements[..i])
      invariant result == Integrated(elements[..i], inline, display)
    {
      assert elements[..i + 1][..i] == elements[..i];
      var e := elements[i];
      if e.Paragraph? {
        paraIndex := paraIndex + 1;
        var replacement := ReplaceParagraph(e.runs, paraIndex, inline, display);
        result := result + replacement;
      } else {
        result := result + [e];
      }
      i := i + 1;
    }
    assert elements[..i] == elements;
  }

  method ReplaceParagraph(runs: seq<FormattedRun>, k: nat, inline: InlineMap, display: DocumentIo.EquationMap)
      returns (replacement: seq<DocumentElement>)
    ensures replacement == Replacement(runs, k, inline, display)
  {
    if k in inline {
      var items := inline[k];
      if HasEquation(items) {
        var newRuns := ReconstructRuns(items);
        replacement := [Paragraph(newRuns)];
      } else {
        replacement := [Paragraph(runs)];
      }
    } else if k in display {
      replacement := [];
      var eqs := display[k];
      var j := 0;
      while j < |eqs|
        invariant j <= |eqs|
        invariant replacement == eqs[..j]
      {
        replacement := replacement + [eqs[j]];
        j := j + 1;
      }
    } else {
      replacement := [Paragraph(runs)];
    }
  }

  // ---------------------------------------------------------------------------
  // The whole load
  // ---------------------------------------------------------------------------

  const NoHeadings: seq<nat> := [0, 0, 0, 0, 0, 0]

  /** Fresh numbering services, heading numbers on when the heading analysis
      asks for them. */
  function InitialCounters(children: seq<Docx.DocumentChild>): (c: Counters)
    ensures |c.headings| == 6
  {
    Counters(map[], NoHeadings, HeadingAnalysis.ShouldAutoNumber(children))
  }

  /** The walk with a new numbering manager and heading tracker. */
  method WalkWithNewServices(children: seq<Docx.DocumentChild>) returns (elements: seq<DocumentElement>, wordCount: nat)
    ensures Walk(elements, wordCount, Walked(children, InitialCounters(children)).counters)
         == Walked(children, InitialCounters(children))
  {
    var numberingManager := new Numbering.DocumentNumberingManager();
    var headingTracker := new Numbering.HeadingNumberTracker();
    var shouldAutoNumber := HeadingAnalysis.AnalyzeHeadingStructure(children);
    if shouldAutoNumber {
      headingTracker.EnableAutoNumbering();
    }
    assert State(numberingManager, headingTracker) == InitialCounters(children);
    elements, wordCount := WalkDocument(children, numberingManager, headingTracker);
  }

  /** The elements after the walk: list grouping, marker cleanup, then the
      display-equation merge. `events` are the events of a reader that keeps
      text as it is, which the inline scan reads; the display scan reads the
      same document with a reader that trims text. */
  function Finished(elements: seq<DocumentElement>, events: seq<Xml.Event>): seq<DocumentElement>
  {
    var display := DisplayMap(EquationScan.DisplayRun(Xml.TrimText(events)).equations);
    var integrated := Integrated(elements, EquationScan.InlineRun(events).paragraphs, display);
    DocumentIo.Merged(Cleanup.CleanWordListMarkers(Lists.Render(Lists.Grouping(integrated))), display)
  }

  /** The document `load_document` builds from the body's children and the
      reader's events of the same `word/document.xml`, text untrimmed. */
  function Loaded(children: seq<Docx.DocumentChild>, events: seq<Xml.Event>, stem: Option<string>,
                  filePath: string, fileSize: nat): Document
  {
    var w := Walked(children, InitialCounters(children));
    Document(if stem.Some? then stem.value else "Untitled Document",
             DocumentMetadata(filePath, fileSize, w.wordCount, Cleanup.EstimatePageCount(w.wordCount), None, None, None),
             Finished(w.elements, events))
  }

  /** `load_document` after the file has been read and parsed. */
  method LoadDocument(children: seq<Docx.DocumentChild>, events: seq<Xml.Event>, stem: Option<string>,
                      filePath: string, fileSize: nat) returns (document: Document)
    ensures document == Loaded(children, events, stem, filePath, fileSize)
  {
    var elements, wordCount := WalkWithNewServices(children);
    var merged := FinishElements(elements, events);
    var title := if stem.Some? then stem.value else "Untitled Document";
    document := Document(title, DocumentMetadata(filePath, fileSize, wordCount, Cleanup.EstimatePageCount(wordCount), None, None, None), merged);
  }

  /** Equation integration, list grouping, marker cleanup and the merge. */
  method FinishElements(elements: seq<DocumentElement>, events: seq<Xml.Event>) returns (result: seq<DocumentElement>)
    ensures result == Finished(elements, events)
  {
    var equationInfos := EquationScan.ExtractEquations(Xml.TrimText(events));
    var inlineParagraphs := EquationScan.ExtractInlineEquationPositions(events);
    var display := BuildDisplayMap(equationInfos);
    var withEquations := IntegrateEquations(elements, inlineParagraphs, display);
    var grouped := Lists.GroupListItems(withEquations);
    var cleaned := Cleanup.CleanWordListMarkers(grouped);
    result := DocumentIo.MergeDisplayEquations(cleaned, display);
  }

  /** The metadata of the loaded document: its word count is that of the
      body's non-blank paragraphs, its page count follows from it, and the
      title is the file stem or "Untitled Document". */
  lemma LoadedMetadata(children: seq<Docx.DocumentChild>, events: seq<Xml.Event>, stem: Option<string>,
                       filePath: string, fileSize: nat)
    ensures var d := Loaded(children, events, stem, filePath, fileSize);
      && d.metadata.wordCount == WordsIn(children)
      && d.metadata.pageCount == Cleanup.EstimatePageCount(WordsIn(children))
      && (d.metadata.pageCount == 0 <==> WordsIn(children) == 0)
      && d.metadata.filePath == filePath && d.metadata.fileSize == fileSize
      && d.title == (if stem.Some? then stem.value else "Untitled Document")
  {
    WalkCounts(children, InitialCounters(children));
  }
}
