/**
 * The part of the `docx_rs` object tree the loader walks: paragraphs made of
 * runs (and tracked insertions and deletions), runs made of text, tabs, breaks
 * and drawings, tables made of cells, and the numbering properties of a
 * paragraph (numId and ilvl of WordprocessingML numbering). Run properties are
 * represented by the formatting `extract_run_formatting` reads from them.
 */
module Docx {
  import opened Strings
  import Models

  datatype RunChild =
    | TextChild(text: string)
    | TabChild
    | BreakChild
    | DrawingChild
    | OtherRunChild

  datatype Run = Run(children: seq<RunChild>, formatting: Models.TextFormatting)

  datatype InsertChild = InsertRun(run: Run) | OtherInsertChild

  datatype ParagraphChild =
    | ParagraphRun(run: Run)
    | Insert(children: seq<InsertChild>)
    | Delete
    | OtherParagraphChild

  /** `w:numPr`: the numbering definition id and the indentation level, as the
      unsigned values the reader stores. */
  datatype NumberingProperty = NumberingProperty(id: Option<nat>, level: Option<nat>)

  datatype ParagraphProperty = ParagraphProperty(style: Option<string>, numberingProperty: Option<NumberingProperty>)

  datatype Paragraph = Paragraph(property: ParagraphProperty, children: seq<ParagraphChild>)

  datatype CellContent = CellParagraph(paragraph: Paragraph) | OtherCellContent

  datatype Cell = Cell(children: seq<CellContent>)

  datatype Table = Table(rows: seq<seq<Cell>>)

  datatype DocumentChild = DocParagraph(paragraph: Paragraph) | DocTable(table: Table) | OtherDocumentChild
}
