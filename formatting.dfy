/**
 * Reading text and numbering out of the `docx_rs` paragraphs: the text of a
 * run, the text of a paragraph (runs and tracked insertions, deletions
 * skipped), the numbering (numId, level) of a paragraph, and the number shown
 * for a heading that Word numbers automatically.
 */
module Formatting {
  import opened Strings
  import opened Models
  import Docx

  // ---------------------------------------------------------------------------
  // Run and paragraph text
  // ---------------------------------------------------------------------------

  /** What one run child contributes to the text. */
  function ChildText(c: Docx.RunChild): string
  {
    match c
    case TextChild(t) => t
    case TabChild => "\t"
    case BreakChild => "\n"
    case DrawingChild => "[Image]"
    case OtherRunChild => ""
  }

  /** The text of a run's children, read left to right. */
  function RunText(children: seq<Docx.RunChild>): string
  {
    if children == [] then "" else RunText(children[..|children| - 1]) + ChildText(children[|children| - 1])
  }

  /** `extract_run_text`. */
  method ExtractRunText(run: Docx.Run) returns (text: string)
    ensures text == RunText(run.children)
  {
    text := "";
    var i := 0;
    while i < |run.children|
      invariant 0 <= i <= |run.children|
      invariant text == RunText(run.children[..i])
    {
      assert run.children[..i + 1][..i] == run.children[..i];
      text := text + ChildText(run.children[i]);
      i := i + 1;
    }
    assert run.children[..i] == run.children;
  }

  /** The text of a run is the text of its parts, whichever way it is cut. */
  lemma {:induction false} RunTextAppend(a: seq<Docx.RunChild>, b: seq<Docx.RunChild>)
    ensures RunText(a + b) == RunText(a) + RunText(b)
  {
    if b == [] {
      assert a + b == a;
    } else {
      RunTextAppend(a, b[..|b| - 1]);
      RunTextLast(a, b);
      AppendAssoc(RunText(a), RunText(b[..|b| - 1]), ChildText(b[|b| - 1]));
    }
  }

  lemma RunTextLast(a: seq<Docx.RunChild>, b: seq<Docx.RunChild>)
    requires b != []
    ensures RunText(a + b) == RunText(a + b[..|b| - 1]) + ChildText(b[|b| - 1])
  {
    assert (a + b)[..|a + b| - 1] == a + b[..|b| - 1];
  }

  /** The text of the runs inside a tracked insertion. */
  function InsertText(children: seq<Docx.InsertChild>): string
  {
    if children == [] then ""
    else
      var last := children[|children| - 1];
      InsertText(children[..|children| - 1]) + (if last.InsertRun? then RunText(last.run.children) else "")
  }

  /** What one paragraph child contributes to the text: deletions and other
      children contribute nothing. */
  function ParagraphChildText(c: Docx.ParagraphChild): string
  {
    match c
    case ParagraphRun(run) => RunText(run.children)
    case Insert(children) => InsertText(children)
    case Delete => ""
    case OtherParagraphChild => ""
  }

  /** The untrimmed text of a paragraph's children. */
  function RawParagraphText(children: seq<Docx.ParagraphChild>): string
  {
    if children == [] then ""
    else RawParagraphText(children[..|children| - 1]) + ParagraphChildText(children[|children| - 1])
  }

  /** The text `extract_paragraph_text` returns. */
  function ParagraphText(p: Docx.Paragraph): string
  {
    Trim(RawParagraphText(p.children))
  }

  /** `extract_paragraph_text`. */
  method ExtractParagraphText(p: Docx.Paragraph) returns (text: string)
    ensures text == ParagraphText(p)
  {
    var raw := "";
    var i := 0;
    while i < |p.children|
      invariant 0 <= i <= |p.children|
      invariant raw == RawParagraphText(p.children[..i])
    {
      assert p.children[..i + 1][..i] == p.children[..i];
      match p.children[i] {
      case ParagraphRun(run) =>
        var t := ExtractRunText(run);
        raw := raw + t;
      case Insert(children) =>
        var inserted := "";
        var j := 0;
        while j < |children|
          invariant 0 <= j <= |children|
          invariant inserted == InsertText(children[..j])
        {
          assert children[..j + 1][..j] == children[..j];
          if children[j].InsertRun? {
            var t := ExtractRunText(children[j].run);
            inserted := inserted + t;
          } else {
            inserted := inserted + "";
          }
          j := j + 1;
        }
        assert children[..j] == children;
        raw := raw + inserted;
      case Delete =>
        raw := raw + "";
      case OtherParagraphChild =>
        raw := raw + "";
      }
      i := i + 1;
    }
    assert p.children[..i] == p.children;
    text := Trim(raw);
  }

  lemma {:induction false} RawParagraphTextAppend(a: seq<Docx.ParagraphChild>, b: seq<Docx.ParagraphChild>)
    ensures RawParagraphText(a + b) == RawParagraphText(a) + RawParagraphText(b)
  {
    if b == [] {
      assert a + b == a;
    } else {
      RawParagraphTextAppend(a, b[..|b| - 1]);
      RawParagraphTextLast(a, b);
      AppendAssoc(RawParagraphText(a), RawParagraphText(b[..|b| - 1]), ParagraphChildText(b[|b| - 1]));
    }
  }

  lemma RawParagraphTextLast(a: seq<Docx.ParagraphChild>, b: seq<Docx.ParagraphChild>)
    requires b != []
    ensures RawParagraphText(a + b) == RawParagraphText(a + b[..|b| - 1]) + ParagraphChildText(b[|b| - 1])
  {
    assert (a + b)[..|a + b| - 1] == a + b[..|b| - 1];
  }

  /** A tracked deletion adds nothing wherever it stands. */
  lemma DeletionIgnored(a: seq<Docx.ParagraphChild>, b: seq<Docx.ParagraphChild>)
    ensures RawParagraphText(a + [Docx.Delete] + b) == RawParagraphText(a + b)
  {
    RawParagraphTextAppend(a + [Docx.Delete], b);
    RawParagraphTextAppend(a, b);
    DeletionAtEnd(a);
  }

  lemma DeletionAtEnd(a: seq<Docx.ParagraphChild>)
    ensures RawParagraphText(a + [Docx.Delete]) == RawParagraphText(a)
  {
    var s := a + [Docx.Delete];
    assert s[..|s| - 1] == a;
    assert ParagraphChildText(s[|s| - 1]) == "";
  }

  /** An inserted run counts exactly like the same run outside an insertion. */
  lemma InsertedRunCounts(run: Docx.Run)
    ensures ParagraphChildText(Docx.Insert([Docx.InsertRun(run)])) == ParagraphChildText(Docx.ParagraphRun(run))
  {
    assert [Docx.InsertRun(run)][..0] == [];
    assert InsertText([Docx.InsertRun(run)]) == InsertText([]) + RunText(run.children);
  }

  /** The paragraph text has no white space at either end. */
  lemma ParagraphTextTrimmed(p: Docx.Paragraph)
    ensures var t := ParagraphText(p); t == [] || (!IsWhitespace(t[0]) && !IsWhitespace(t[|t| - 1]))
  {
    TrimBothEnds(RawParagraphText(p.children));
  }

  lemma TrimBothEnds(s: string)
    ensures var t := Trim(s); t == [] || (!IsWhitespace(t[0]) && !IsWhitespace(t[|t| - 1]))
  {
    var u := TrimStart(s);
    var t := TrimEnd(u);
    if t != [] {
      assert t[0] == u[0];
    }
  }

  // ---------------------------------------------------------------------------
  // Numbering properties
  // ---------------------------------------------------------------------------

  /** The numbering of a paragraph: numId and level. */
  type NumberingInfo = (int, U8)

  /** `as i32` on an unsigned value: the low 32 bits read in two's complement. */
  function ToI32(n: nat): (r: int)
    ensures -0x8000_0000 <= r < 0x8000_0000
    ensures (n - r) % 0x1_0000_0000 == 0
    ensures n < 0x8000_0000 ==> r == n
  {
    var low := n % 0x1_0000_0000;
    if low >= 0x8000_0000 then low - 0x1_0000_0000 else low
  }

  /** `as u8` on an unsigned value: the low 8 bits. */
  function ToU8(n: nat): (r: U8)
    ensures (n - r) % 256 == 0
    ensures n < 256 ==> r == n
  {
    n % 256
  }

  /** `extract_numbering_info`: nothing without a numId; the level defaults to 0. */
  function ExtractNumberingInfo(np: Docx.NumberingProperty): (r: Option<NumberingInfo>)
    ensures r.None? <==> np.id.None?
    ensures r.Some? && np.id.value < 0x8000_0000 ==> r.value.0 == np.id.value
    ensures r.Some? && np.level.None? ==> r.value.1 == 0
    ensures r.Some? && np.level.Some? && np.level.value < 256 ==> r.value.1 == np.level.value
  {
    match np.id
    case None => None
    case Some(id) =>
      var level := if np.level.Some? then ToU8(np.level.value) else 0;
      Some((ToI32(id), level))
  }

  // ---------------------------------------------------------------------------
  // Reconstructed heading numbers
  // ---------------------------------------------------------------------------

  /** "1", "1.1", "1.1.1", ...: `depth` components, each of them 1. */
  function OnesLabel(depth: nat): (r: string)
    requires depth >= 1
  {
    if depth == 1 then "1" else OnesLabel(depth - 1) + ".1"
  }

  /** How many components the reconstructed number of a heading has. */
  function HeadingDepth(headingLevel: U8): (d: nat)
    ensures 1 <= d <= 4
  {
    if 1 <= headingLevel <= 3 then headingLevel else 4
  }

  /** `reconstruct_heading_number`. */
  function ReconstructHeadingNumber(numId: int, level: U8, headingLevel: U8): (r: string)
    ensures r == OnesLabel(HeadingDepth(headingLevel))
    ensures r in {"1", "1.1", "1.1.1", "1.1.1.1"}
  {
    match (level, headingLevel)
    case (0, 1) => "1"
    case (1, 2) => "1.1"
    case (2, 3) => "1.1.1"
    case (3, 4) => "1.1.1.1"
    case _ =>
      match headingLevel
      case 1 => "1"
      case 2 => "1.1"
      case 3 => "1.1.1"
      case _ => "1.1.1.1"
  }

  /** Only the heading level matters: the numbering id and the list level
      never change the reconstructed number. */
  lemma ReconstructIgnoresNumbering(numId: int, level: U8, otherId: int, otherLevel: U8, headingLevel: U8)
    ensures ReconstructHeadingNumber(numId, level, headingLevel)
         == ReconstructHeadingNumber(otherId, otherLevel, headingLevel)
  {
  }

  /** The components of `OnesLabel(d)`: a 1 at every even position and a dot
      at every odd one. */
  lemma {:induction false} OnesLabelShape(d: nat)
    requires d >= 1
    ensures |OnesLabel(d)| == 2 * d - 1
    ensures forall i :: 0 <= i < |OnesLabel(d)| ==> OnesLabel(d)[i] == if i % 2 == 0 then '1' else '.'
  {
    if d > 1 {
      OnesLabelShape(d - 1);
    }
  }
}
