/**
 * The document model: the values a parsed Word document is turned into, and
 * the consolidation of adjacent runs that share their formatting.
 */
module Models {
  import opened Strings

  /** A list item level, stored by the source as a `u8`. */
  type U8 = n: int | 0 <= n < 256

  /** A font size in points. The source stores an `f32`; the loader never sets it. */
  type FontSize = int

  datatype TextFormatting = TextFormatting(
    bold: bool,
    italic: bool,
    underline: bool,
    strikethrough: bool,
    fontSize: Option<FontSize>,
    color: Option<string>)

  /** `TextFormatting::default()`: nothing set. */
  const DefaultFormatting := TextFormatting(false, false, false, false, None, None)

  datatype FormattedRun = FormattedRun(text: string, formatting: TextFormatting)

  datatype ListItem = ListItem(runs: seq<FormattedRun>, level: U8)

  datatype TextAlignment = Left | Center | Right | Justify

  datatype CellDataType = Text | Number | Currency | Percentage | Date | Boolean | Empty

  datatype TableCell = TableCell(
    content: string,
    alignment: TextAlignment,
    formatting: TextFormatting,
    dataType: CellDataType)

  datatype TableMetadata = TableMetadata(
    columnCount: nat,
    rowCount: nat,
    hasHeaders: bool,
    columnWidths: seq<nat>,
    columnAlignments: seq<TextAlignment>,
    title: Option<string>)

  datatype TableData = TableData(
    headers: seq<TableCell>,
    rows: seq<seq<TableCell>>,
    metadata: TableMetadata)

  datatype DocumentElement =
    | Heading(level: U8, text: string, number: Option<string>)
    | Paragraph(runs: seq<FormattedRun>)
    | List(items: seq<ListItem>, ordered: bool)
    | Table(table: TableData)
    | Image(description: string, width: Option<nat>, height: Option<nat>,
            relationshipId: Option<string>, imagePath: Option<string>)
    | Equation(latex: string, fallback: string)
    | PageBreak

  datatype DocumentMetadata = DocumentMetadata(
    filePath: string,
    fileSize: nat,
    wordCount: nat,
    pageCount: nat,
    created: Option<string>,
    modified: Option<string>,
    author: Option<string>)

  datatype Document = Document(title: string, metadata: DocumentMetadata, elements: seq<DocumentElement>)

  datatype SearchResult = SearchResult(elementIndex: nat, text: string, startPos: nat, endPos: nat)

  datatype OutlineItem = OutlineItem(title: string, level: U8, elementIndex: nat)

  // ---------------------------------------------------------------------------
  // Run consolidation
  // ---------------------------------------------------------------------------

  /** The text of a sequence of runs, read left to right. */
  function Texts(runs: seq<FormattedRun>): string
  {
    if |runs| == 0 then "" else Texts(runs[..|runs| - 1]) + runs[|runs| - 1].text
  }

  /** The formatting of each run. */
  function Formats(runs: seq<FormattedRun>): (r: seq<TextFormatting>)
    ensures |r| == |runs|
    ensures forall i :: 0 <= i < |runs| ==> r[i] == runs[i].formatting
  {
    if |runs| == 0 then [] else Formats(runs[..|runs| - 1]) + [runs[|runs| - 1].formatting]
  }

  /** Collapse each stretch of equal neighbours into one value. */
  function Dedup<T(==)>(xs: seq<T>): seq<T>
  {
    if |xs| == 0 then []
    else
      var prev := Dedup(xs[..|xs| - 1]);
      if |prev| > 0 && prev[|prev| - 1] == xs[|xs| - 1] then prev else prev + [xs[|xs| - 1]]
  }

  /** No two neighbouring runs share their formatting. */
  predicate NoEqualNeighbours(runs: seq<FormattedRun>)
  {
    forall i :: 0 <= i < |runs| - 1 ==> runs[i].formatting != runs[i + 1].formatting
  }

  /** Specification of `consolidate_runs`, built up one input run at a time:
      a run whose formatting equals that of the last output run is appended to
      its text; any other run starts a new output run. */
  function Consolidate(runs: seq<FormattedRun>): (r: seq<FormattedRun>)
    ensures |r| <= |runs|
    ensures |r| == 0 <==> |runs| == 0
    ensures |runs| > 0 ==> r[|r| - 1].formatting == runs[|runs| - 1].formatting
  {
    if |runs| == 0 then []
    else
      var prev := Consolidate(runs[..|runs| - 1]);
      var run := runs[|runs| - 1];
      if |prev| > 0 && prev[|prev| - 1].formatting == run.formatting then
        prev[..|prev| - 1] + [prev[|prev| - 1].(text := prev[|prev| - 1].text + run.text)]
      else
        prev + [run]
  }

  /** `FormattedRun::consolidate_runs`. */
  method ConsolidateRuns(runs: seq<FormattedRun>) returns (consolidated: seq<FormattedRun>)
    ensures consolidated == Consolidate(runs)
  {
    if |runs| == 0 {
      return runs;
    }
    consolidated := [];
    var current := runs[0];
    var i := 1;
    ConsolidateFirst(runs);
    while i < |runs|
      invariant 1 <= i <= |runs|
      invariant consolidated + [current] == Consolidate(runs[..i])
    {
      var run := runs[i];
      ConsolidateStep(consolidated, current, runs, i);
      if current.formatting == run.formatting {
        current := current.(text := current.text + run.text);
      } else {
        consolidated := consolidated + [current];
        current := run;
      }
      assert consolidated + [current] == Consolidate(runs[..i + 1]);
      i := i + 1;
    }
    consolidated := consolidated + [current];
    ConsolidateWhole(runs);
  }

  lemma ConsolidateWhole(runs: seq<FormattedRun>)
    ensures Consolidate(runs[..|runs|]) == Consolidate(runs)
  {
    assert runs[..|runs|] == runs;
  }

  lemma ConsolidateFirst(runs: seq<FormattedRun>)
    requires |runs| > 0
    ensures [] + [runs[0]] == Consolidate(runs[..1])
  {
    assert runs[..1][..0] == [];
  }

  /** One step of `Consolidate`, stated on the output so far split into its
      finished runs and the run being extended. */
  lemma ConsolidateStep(done: seq<FormattedRun>, current: FormattedRun, runs: seq<FormattedRun>, i: nat)
    requires 0 < i < |runs| && done + [current] == Consolidate(runs[..i])
    ensures Consolidate(runs[..i + 1]) ==
      if current.formatting == runs[i].formatting then done + [current.(text := current.text + runs[i].text)]
      else done + [current] + [runs[i]]
  {
    assert runs[..i + 1][..i] == runs[..i];
    var prev := done + [current];
    assert prev[..|prev| - 1] == done;
  }

  lemma TextsSnoc(init: seq<FormattedRun>, run: FormattedRun)
    ensures Texts(init + [run]) == Texts(init) + run.text
  {
    assert (init + [run])[..|init|] == init;
  }

  /** Consolidation keeps the text: the output reads exactly like the input. */
  lemma {:induction false} ConsolidatePreservesText(runs: seq<FormattedRun>)
    ensures Texts(Consolidate(runs)) == Texts(runs)
  {
    if |runs| > 0 {
      var init := runs[..|runs| - 1];
      var prev := Consolidate(init);
      var run := runs[|runs| - 1];
      ConsolidatePreservesText(init);
      assert init + [run] == runs;
      TextsSnoc(init, run);
      if |prev| > 0 && prev[|prev| - 1].formatting == run.formatting {
        var last := prev[|prev| - 1];
        var front := prev[..|prev| - 1];
        assert front + [last] == prev;
        TextsSnoc(front, last);
        TextsSnoc(front, last.(text := last.text + run.text));
      } else {
        TextsSnoc(prev, run);
      }
    }
  }

  /** After consolidation no two neighbouring runs share their formatting. */
  lemma {:induction false} ConsolidateNoEqualNeighbours(runs: seq<FormattedRun>)
    ensures NoEqualNeighbours(Consolidate(runs))
  {
    if |runs| > 0 {
      ConsolidateNoEqualNeighbours(runs[..|runs| - 1]);
    }
  }

  /** The formatting sequence of the output is the formatting sequence of the
      input with each stretch of equal neighbours collapsed into one. */
  lemma {:induction false} ConsolidateFormats(runs: seq<FormattedRun>)
    ensures Formats(Consolidate(runs)) == Dedup(Formats(runs))
  {
    if |runs| > 0 {
      var init := runs[..|runs| - 1];
      var run := runs[|runs| - 1];
      ConsolidateFormats(init);
      assert init + [run] == runs;
      FormatsSnoc(init, run);
      DedupSnoc(Formats(init), run.formatting);
      var prev := Consolidate(init);
      if |prev| > 0 && prev[|prev| - 1].formatting == run.formatting {
        FormatsReplaceLast(prev, prev[|prev| - 1].text + run.text);
      } else {
        FormatsSnoc(prev, run);
      }
    }
  }

  lemma DedupSnoc<T>(xs: seq<T>, x: T)
    ensures
      var d := Dedup(xs);
      Dedup(xs + [x]) == if |d| > 0 && d[|d| - 1] == x then d else d + [x]
  {
    assert (xs + [x])[..|xs|] == xs;
  }

  lemma FormatsSnoc(init: seq<FormattedRun>, run: FormattedRun)
    ensures Formats(init + [run]) == Formats(init) + [run.formatting]
  {
    assert (init + [run])[..|init|] == init;
  }

  /** Changing the text of the last run leaves the formatting sequence alone. */
  lemma FormatsReplaceLast(prev: seq<FormattedRun>, text: string)
    requires |prev| > 0
    ensures Formats(prev[..|prev| - 1] + [prev[|prev| - 1].(text := text)]) == Formats(prev)
  {
  }

  /** Runs in which no neighbours share their formatting come back unchanged. */
  lemma {:induction false} ConsolidateFixpoint(runs: seq<FormattedRun>)
    requires NoEqualNeighbours(runs)
    ensures Consolidate(runs) == runs
  {
    if |runs| > 0 {
      var init := runs[..|runs| - 1];
      assert NoEqualNeighbours(init);
      ConsolidateFixpoint(init);
      if |init| > 0 {
        assert init[|init| - 1].formatting != runs[|runs| - 1].formatting;
      }
      assert init + [runs[|runs| - 1]] == runs;
    }
  }

  /** Consolidating twice is consolidating once. */
  lemma ConsolidateIdempotent(runs: seq<FormattedRun>)
    ensures Consolidate(Consolidate(runs)) == Consolidate(runs)
  {
    ConsolidateNoEqualNeighbours(runs);
    ConsolidateFixpoint(Consolidate(runs));
  }

  /** Two runs with the same (struck-through) formatting merge into one. */
  lemma ConsolidateSameStrikethrough()
    ensures
      var f := DefaultFormatting.(strikethrough := true);
      Consolidate([FormattedRun("First part ", f), FormattedRun("second part", f)])
        == [FormattedRun("First part second part", f)]
  {
    var f := DefaultFormatting.(strikethrough := true);
    var runs := [FormattedRun("First part ", f), FormattedRun("second part", f)];
    assert runs[..1][..0] == [];
    assert Consolidate(runs[..1]) == [runs[0]];
    assert runs[..|runs| - 1] == runs[..1];
    assert "First part " + "second part" == "First part second part";
  }

  /** Runs that differ only in strikethrough stay apart. */
  lemma ConsolidateDifferentStrikethrough()
    ensures
      var a := FormattedRun("Struck text ", DefaultFormatting.(strikethrough := true));
      var b := FormattedRun("normal text", DefaultFormatting);
      Consolidate([a, b]) == [a, b]
  {
    var a := FormattedRun("Struck text ", DefaultFormatting.(strikethrough := true));
    var b := FormattedRun("normal text", DefaultFormatting);
    assert [a, b][..1] == [a];
    assert [a, b][..1][..0] == [];
  }
}
