# doxx document core in Dafny

doxx is a terminal viewer for Microsoft Word `.docx` files. Its document
core turns the parsed Word document into a list of display elements:

- headings, with their level and number;
- paragraphs made of formatted runs;
- bulleted and numbered lists;
- tables, with column widths, alignments and cell data types;
- images and equations.

On top of that list it answers searches and builds an outline. This project
models that core and proves properties of the model:

- `Models`: the run consolidation of `src/document/models.rs`.
- `Formatting`: text and formatting extraction from Word paragraphs and runs.
- `Numbering`: the list numbering manager (counters per list and level,
  decimal, letter and Roman formats, hierarchical labels) and the heading
  number tracker.
- `Numbering`, also: the regular expressions that recognise a typed heading
  number ("1.1 ", "Section 2 ", "A. ", "IV. "). They are written out as
  exact matchers.
- `Heading`: the heading heuristics (styles, typed or automatic numbering,
  text-only detection).
- `HeadingAnalysis`: the decision whether a document gets automatic heading
  numbers.
- `Lists`: list item detection, list levels, removal of typed list
  prefixes, and grouping of list items into list elements.
- `Tables`: cell data type detection, the header heuristic, column widths
  and alignments, and table extraction.
- `Cleanup`: the sentence heuristic, the page estimate and the removal of
  the internal `__WORD_LIST__` marker.
- `Latex`: the OMML-to-LaTeX converter of `src/document/parsing/equation.rs`,
  with the two defects of the Findings table corrected.
- `EquationScan`: the two XML scans that collect equations and inline
  paragraph content.
- `Omml`: the OMML-to-Unicode renderer of `src/equation.rs`. In the
  repository, `Equation::from_omml` is called only from its own test
  (src/equation.rs:554); the loader uses the LaTeX converter instead. The
  renderer and the `m:chr` finding concern code that loading a document
  never reaches.
- `DocumentIo`: the merging of display equations into the element list.
- `Query`: document search and the outline.
- `Loader`: the loader that ties it all together.

`Docx` is the Word document tree as the docx reader hands it over: body
children, paragraphs, runs, tables and numbering properties. `Xml` is the
stream of XML reader events the equation code consumes. `Xml.TrimText` gives
the events of a reader that trims text. The inline scan reads
`word/document.xml` untrimmed and the display scan reads it trimmed, so the
loader gives the display scan the trimmed events. The parsers of
`src/equation.rs` also read trimmed events. `Strings` holds
the string helpers shared by all modules:

- Rust's `trim` set of Unicode white space;
- UTF-8 byte lengths, which stand in for Rust's `len()`;
- ASCII lower-casing, substring search, and decimal rendering and parsing.

The document tree, the XML events and the file metadata are inputs of the
model. The ZIP archive, the XML parser and the file system are not part
of it.

Imperative code keeps its form:

- A loop in the source is a method with loop invariants, proved equal to a
  specification function. The lemmas state their properties about that
  function.
- The numbering manager and the heading tracker, whose methods update
  their fields, are classes. Their methods state the new state in terms of
  the old one.
- The loader's paragraph loop threads both objects, and is proved against
  a pure fold (`Loader.Walked`) over the body children.

For each defect in the Findings table the model has two definitions: one as
the code is written and one as it is evidently intended. The loader
pipeline uses the intended one. "## Left out" names every member that
therefore differs from the source.

## Model

| member | source | states |
|---|---|---|
| Models.Consolidate | src/document/models.rs:90-113 | consolidation never lengthens the runs, is empty exactly for empty input and keeps the formatting of the last run |
| Models.ConsolidateRuns | src/document/models.rs:90-113 | the loop returns the consolidation of the runs |
| Models.ConsolidatePreservesText | src/document/models.rs:90-113 | the concatenated text of the runs is unchanged by consolidation |
| Models.ConsolidateNoEqualNeighbours | src/document/models.rs:90-113 | no two adjacent consolidated runs have equal formatting |
| Models.ConsolidateFormats | src/document/models.rs:90-113 | the formatting sequence of the result is the input's formatting sequence with adjacent duplicates collapsed |
| Models.ConsolidateFixpoint | src/document/models.rs:90-113 | runs with no equal neighbours are returned unchanged |
| Models.ConsolidateIdempotent | src/document/models.rs:90-113 | consolidating twice equals consolidating once |
| Models.ConsolidateSameStrikethrough | tests/strikethrough_test.rs:98-126 | two struck-through runs merge into one run "First part second part" |
| Models.ConsolidateDifferentStrikethrough | tests/strikethrough_test.rs:128-166 | a struck-through run followed by a plain run stays two runs |
| Formatting.ExtractRunText | src/document/parsing/formatting.rs:40-65 | the loop returns the run's text: text children verbatim, a tab, a newline for a break, "[Image]" for a drawing, nothing for other children |
| Formatting.ExtractParagraphText | src/document/parsing/formatting.rs:9-37 | the loop returns the trimmed text of the paragraph's runs and inserted runs |
| Formatting.DeletionIgnored | src/document/parsing/formatting.rs:9-37 | deleted content contributes no text wherever it occurs |
| Formatting.InsertedRunCounts | src/document/parsing/formatting.rs:9-37 | a run inside an insertion contributes the same text as a plain run |
| Formatting.ParagraphTextTrimmed | src/document/parsing/formatting.rs:9-37 | paragraph text neither starts nor ends with white space |
| Formatting.ToI32 | src/document/parsing/formatting.rs:100-104 | the `as i32` cast: the result is in the signed 32-bit range, congruent to the input mod 2^32, and the identity on small values |
| Formatting.ToU8 | src/document/parsing/formatting.rs:100-104 | the `as u8` cast: congruent to the input mod 256, the identity below 256 |
| Formatting.ExtractNumberingInfo | src/document/parsing/formatting.rs:100-104 | numbering info exists exactly when the numbering id exists; the id and level are carried over (level 0 when absent) |
| Formatting.ReconstructHeadingNumber | src/document/parsing/formatting.rs:107-127 | the reconstructed number is "1", "1.1", "1.1.1" or "1.1.1.1", by heading level (deeper levels cap at four parts) |
| Formatting.ReconstructIgnoresNumbering | src/document/parsing/formatting.rs:107-127 | the result depends only on the heading level, not on the numbering id or list level |
| Formatting.OnesLabelShape | src/document/parsing/formatting.rs:107-127 | a label of depth d has 2d-1 characters, alternating '1' and '.' |
| Numbering.ToRoman | src/document/parsing/numbering.rs:105-123 | the greedy loop over the thirteen value/symbol pairs returns the Roman spelling of the number |
| Numbering.RomanValueIsInput | src/document/parsing/numbering.rs:105-123 | the values of the chosen symbols add up to the input number |
| Numbering.RomanRowsDescending | src/document/parsing/numbering.rs:105-123 | symbols are chosen in order of non-increasing value |
| Numbering.RomanExamples | src/document/parsing/numbering.rs:105-123 | 0, 4, 9, 40 and 1994 are spelled "", "IV", "IX", "XL" and "MCMXCIV" |
| Numbering.LetterFormats | src/document/parsing/numbering.rs:67-103 | counters 1 to 26 give one ASCII letter ("a. ", "A. ", "(a)") at offset counter-1; larger counters fall back to decimal |
| Numbering.LetterExamples | src/document/parsing/numbering.rs:67-103 | concrete labels: "a. ", "Z. ", "27. ", "(27)" and "(iv)" |
| Numbering.DecimalLabelValue | src/document/parsing/numbering.rs:67-103 | a decimal label is digits followed by ". ", and the digits parse back to the counter |
| Numbering.DocumentNumberingManager.constructor | src/document/parsing/numbering.rs:24-29 | a new manager has no counters |
| Numbering.DocumentNumberingManager.GenerateNumber | src/document/parsing/numbering.rs:31-51 | the method's new counters and label are those of the specification function `Generate` |
| Numbering.DocumentNumberingManager.ResetDeeperLevels | src/document/parsing/numbering.rs:53-65 | the method removes exactly the deeper levels of the same list |
| Numbering.GenerateIncrements | src/document/parsing/numbering.rs:31-51 | generating a number raises that list level's counter by one (missing counters start at 0) |
| Numbering.GenerateResetsDeeper | src/document/parsing/numbering.rs:31-65 | deeper levels of the same list are removed and every other counter is unchanged |
| Numbering.DecimalSequence | src/document/parsing/numbering.rs:31-51 | three items at the same decimal level are labelled "1. ", "2. ", "3. " |
| Numbering.HierarchicalLabel | src/document/parsing/numbering.rs:125-154 | list 4 level 1 uses the parent's counter as prefix ("p.c. "); without a parent counter it is plain "c. " |
| Numbering.ResetNothing | src/document/parsing/numbering.rs:53-65 | a reset with no deeper counters changes nothing |
| Numbering.HierarchicalSequence | src/document/parsing/numbering.rs:31-154 | the sequence parent, child, child, parent, child in list 4 is labelled "1. ", "1.1. ", "1.2. ", "2. ", "2.1. " |
| Numbering.HeadingNumberTracker.constructor | src/document/parsing/numbering.rs:183-188 | six zero counters, automatic numbering off |
| Numbering.HeadingNumberTracker.EnableAutoNumbering | src/document/parsing/numbering.rs:190-192 | switches automatic numbering on, keeps the counters |
| Numbering.HeadingNumberTracker.GetNumber | src/document/parsing/numbering.rs:194-219 | numbering off: "" and no change; numbering on: counters and label are those of `TrackerStep` |
| Numbering.TrackerStepShape | src/document/parsing/numbering.rs:194-219 | the heading's slot (level clamped to 1..6) goes up by one, deeper slots become 0, shallower slots stay, and the label is non-empty |
| Numbering.TrackerSequence | src/document/parsing/numbering.rs:194-219 | headings at levels 1,2,2,1,2 get "1", "1.1", "1.2", "2", "2.1" |
| Numbering.ExtractHeadingNumberFromText | src/document/parsing/numbering.rs:262-302 | a match returns a non-empty number that starts the trimmed text and a non-empty one-line title |
| Numbering.ExtractDecimal | src/document/parsing/numbering.rs:262-302 | for a dotted number, white space and a title, the first pattern matches and yields the number without trailing dots and the title |
| Numbering.ExtractSection | src/document/parsing/numbering.rs:262-302 | "Section", "Chapter" or "Part", white space and a section number yield that whole phrase as the number |
| Numbering.ExtractLetter | src/document/parsing/numbering.rs:262-302 | an upper-case letter and a dot yield the letter as the number |
| Numbering.ExtractRoman | src/document/parsing/numbering.rs:262-302 | a Roman numeral of two or more letters and a dot yields the numeral (a single letter such as "I." is taken by the letter pattern first) |
| Numbering.NoDotNoNumber | src/document/parsing/numbering.rs:262-302 | text with no dot that does not start with a section keyword has no typed number |
| Numbering.ExampleDecimalOne | src/document/parsing/heading.rs:170-173 | "1. Introduction" gives ("1", "Introduction") |
| Numbering.ExampleDecimalTwo | src/document/parsing/heading.rs:175-178 | "1.1 Project Overview" gives ("1.1", "Project Overview") |
| Numbering.ExampleDecimalThree | src/document/parsing/heading.rs:180-183 | "2.1.1 Something Important" gives ("2.1.1", "Something Important") |
| Numbering.ExampleLetter | src/document/parsing/heading.rs:186-189 | "A. First Section" gives ("A", "First Section") |
| Numbering.ExampleRoman | src/document/parsing/heading.rs:191-194 | "I. Roman Numeral" gives ("I", "Roman Numeral") |
| Numbering.ExampleSection | src/document/parsing/heading.rs:197-200 | "Section 1.2 Overview" gives ("Section 1.2", "Overview") |
| Numbering.ExampleChapter | src/document/parsing/heading.rs:209-212 | "Chapter 5 Summary" gives ("Chapter 5", "Summary") |
| Numbering.ExampleNoNumber | src/document/parsing/heading.rs:203-213 | "Introduction", "Heading 1" and "Version 2" have no typed number |
| Heading.StyleLevel | src/document/parsing/heading.rs:16-32 | a style names a heading exactly when it starts with "Heading" or "heading", so "Heading 1", "heading10" and "HeadingFoo" all do; the level is the style's last character read as a digit and capped at 6, or 1 when the last character is not a digit |
| Heading.StyleLevelOfDigit | src/document/parsing/heading.rs:16-32 | "Heading1" to "Heading6" give levels 1 to 6 |
| Heading.StyleLevelCapped | src/document/parsing/heading.rs:16-32 | "Heading6" to "Heading9" give level 6 |
| Heading.DetectHeadingWithNumbering | src/document/parsing/heading.rs:35-75 | a styled heading keeps its style level; a typed number wins and splits off the title; otherwise numbering properties give a reconstructed number and the full text; without either there is no number |
| Heading.TypedNumberWins | src/document/parsing/heading.rs:35-75 | when the text carries a typed number, the numbering properties do not affect the result |
| Heading.NumberOrigin | src/document/parsing/heading.rs:35-75 | every heading number either starts the trimmed text or is a reconstructed "1…" label with the full text kept |
| Heading.DetermineHeadingLevelFromText | src/document/parsing/heading.rs:152-161 | level 1 below 20 bytes, level 3 from 40 bytes, level 2 in between |
| Heading.LevelMonotone | src/document/parsing/heading.rs:152-161 | longer text never gets a smaller level number |
| Heading.DetectHeadingFromText | src/document/parsing/heading.rs:78-149 | a heading is detected exactly when the trimmed text is a candidate and is bold, all caps, keyword-led or a short phrase; the level is 1 for all caps without bold, otherwise by length |
| Heading.OnlyBoldMatters | src/document/parsing/heading.rs:78-149 | only the bold flag of the formatting influences the result |
| Heading.BoldKeepsHeading | src/document/parsing/heading.rs:78-149 | making the text bold never loses a heading |
| Heading.ProseIsNoHeading | src/document/parsing/heading.rs:78-149 | text containing a prose word is never a heading |
| Heading.LongIsNoHeading | src/document/parsing/heading.rs:78-149 | trimmed text of 100 bytes or more is never a heading |
| HeadingAnalysis.AnalyzeHeadingStructure | src/document/parsing/numbering.rs:222-260 | the scanning loop returns the decision `ShouldAutoNumber` over the body's headings |
| HeadingAnalysis.PositiveIsUsed | src/document/parsing/numbering.rs:222-260 | the number of non-zero level counters equals the number of heading levels in use |
| HeadingAnalysis.CountsAddUp | src/document/parsing/numbering.rs:222-260 | the six level counters add up to the number of headings |
| HeadingAnalysis.OneDeepLevelNotNumbered | src/document/parsing/numbering.rs:222-260 | headings all at one level deeper than the first are not numbered automatically |
| HeadingAnalysis.TwoLevelsNumbered | src/document/parsing/numbering.rs:222-260 | three or more headings on at least two levels, none with a typed number, switch numbering on |
| HeadingAnalysis.TypedNumberDisables | src/document/parsing/numbering.rs:222-260 | any heading with a typed number switches automatic numbering off |
| Lists.ItemByBullet | src/document/parsing/list.rs:8-44 | trimmed text starting with a bullet pattern is a list item, unless it carries the Word list marker |
| Lists.NoItemBy | src/document/parsing/list.rs:8-44 | text matching none of the numbered, bullet or lettered shapes is no list item |
| Lists.BulletIsItem | src/document/parsing/list.rs:8-44 | "• x", "- x" and "* x" are list items |
| Lists.MarkedNoItem | src/document/parsing/list.rs:8-44 | text that already carries the Word list marker is never a list item |
| Lists.ShortNumberNoItem | src/document/parsing/list.rs:8-44 | a digit-dot line whose rest is at most 20 bytes is not taken for a list item |
| Lists.LevelCountsTrimmedBytes | src/document/parsing/list.rs:116-123 | the level is half the number of bytes of leading white space, truncated to u8 |
| Lists.IndentLevel | src/document/parsing/list.rs:116-123 | n pairs of spaces before the text give level n |
| Lists.RemovalCount | src/document/parsing/list.rs:125-202 | corrected: the leading white space and then the prefix are removed, and nothing is removed exactly when the trimmed text has no list prefix |
| Lists.CleanListItemRunsLoop | src/document/parsing/list.rs:125-202 | corrected: the loop returns the prefix removal counted after the indentation, `CleanListItemRuns` |
| Lists.CleanListItemRunsAsWrittenLoop | src/document/parsing/list.rs:125-202 | as written: the loop returns `CleanListItemRunsAsWritten`, which removes as many characters as the prefix has from the untrimmed start |
| Lists.RemoveChars | src/document/parsing/list.rs:125-202 | the run loop drops the first n characters across runs, trimming the start of the run it cuts into |
| Lists.DropCharsText | src/document/parsing/list.rs:125-202 | the remaining text is what follows the dropped characters (start-trimmed) |
| Lists.DropCharsRuns | src/document/parsing/list.rs:125-202 | the remaining runs are a suffix of the input whose first run keeps its formatting |
| Lists.CleanedText | src/document/parsing/list.rs:125-202 | corrected: the text left is what follows the prefix in the start-trimmed text, less the white space after it, and it is empty exactly when the prefix covers that text |
| Lists.CleanedTextAsWritten | src/document/parsing/list.rs:125-202 | as written: the text left is what follows the first prefix-length characters of the untrimmed text, less the white space after them, and it is empty exactly when they cover the text |
| Lists.AsWrittenDrops | src/document/parsing/list.rs:125-202 | the source drops as many characters as the prefix has, counted from the untrimmed start |
| Lists.IndentedBulletKeptAsWritten | src/document/parsing/list.rs:125-202 | as written, "  - item" becomes "- item" |
| Lists.IndentedBulletRemoved | src/document/parsing/list.rs:125-202 | corrected, "  - item" becomes "item" |
| Lists.GroupListItems | src/document/parsing/list.rs:46-114 | the grouping loop returns the rendering of the grouping function; its items use the corrected prefix removal |
| Lists.GroupRoundTrip | src/document/parsing/list.rs:46-114 | ungrouping the groups gives back the original sequence of items and other elements, in order |
| Lists.GroupedListsShape | src/document/parsing/list.rs:46-114 | no group is an empty list, and no two adjacent list groups have the same ordering (runs of items are maximal) |
| Tables.Classify | src/document/parsing/table.rs:272-313 | empty text is Empty; a leading currency sign is Currency; a trailing % is Percentage; booleans, numbers and dates have the stated shapes |
| Tables.DefaultAlignment | src/document/parsing/table.rs:316-324 | numeric types align right, booleans centre, everything else left |
| Tables.NewCell | src/document/parsing/table.rs:187-197 | a new cell has the content, default formatting, the detected type and its default alignment |
| Tables.DetectIgnoresPadding | src/document/parsing/table.rs:272-313 | detection works on the trimmed content |
| Tables.DigitsAreNumber | src/document/parsing/table.rs:272-313 | a string of digits is a Number |
| Tables.ThousandsAreNumber | src/document/parsing/table.rs:272-313 | digits, a comma and digits form a Number |
| Tables.CurrencyBeforePercentage | src/document/parsing/table.rs:272-313 | "$5%" is Currency: the currency test comes first |
| Tables.BooleanAnyCase | src/document/parsing/table.rs:272-313 | "YES" is Boolean |
| Tables.DateOfNumbers | src/document/parsing/table.rs:272-313 | three short digit groups joined by date separators form a Date |
| Tables.AppearsToBeHeader | src/document/parsing/table.rs:93-138 | a header row is non-empty with an average cell length of at most 50 bytes |
| Tables.LongCellsNoHeader | src/document/parsing/table.rs:93-138 | a row whose cells are all longer than 50 bytes is no header |
| Tables.ShortPhrasesAreHeader | src/document/parsing/table.rs:93-138 | a non-empty row of short phrases (at most three words) is a header |
| Tables.NoIndicatorNoHeader | src/document/parsing/table.rs:93-138 | a row with no header indicator in any cell is no header |
| Tables.CalculateColumnWidths | src/document/parsing/table.rs:216-238 | the loops return the specification widths |
| Tables.WidthCoversColumn | src/document/parsing/table.rs:216-238 | each width is at least 3, at least the header's width and at least every cell's width in its column |
| Tables.WidthIsAttained | src/document/parsing/table.rs:216-238 | each width is 3, the header's width or some cell's width |
| Tables.ColumnAlignment | src/document/parsing/table.rs:245-265 | a column is right aligned exactly when more than seven tenths of its cells are numeric, which an empty column never is; a column of numeric cells only is right aligned |
| Tables.DetermineColumnAlignments | src/document/parsing/table.rs:241-269 | the loops return the specification alignments, one `Tables.ColumnAlignment` per header |
| Tables.AllNumericRight | src/document/parsing/table.rs:241-269 | a column whose data cells are all numeric aligns right |
| Tables.EmptyColumnLeft | src/document/parsing/table.rs:241-269 | a column with no data cells aligns left |
| Tables.SeventyPercentIsLeft | src/document/parsing/table.rs:241-269 | seven numeric cells out of ten stay left aligned (the threshold is more than 70%) |
| Tables.NewTableData | src/document/parsing/table.rs:142-167 | the table value is built from the headers, rows, widths and alignments |
| Tables.MetadataConsistent | src/document/parsing/table.rs:142-167 | column count, widths and alignments agree with the header count; the row count is the number of rows; headers exist exactly when there are columns |
| Tables.JoinedBySpace | src/document/parsing/table.rs:11-90 | two text pieces in a cell are joined by one space |
| Tables.FormattingSticks | src/document/parsing/table.rs:11-90 | once a cell's formatting is bold or italic it is kept |
| Tables.ExtractCell | src/document/parsing/table.rs:11-90 | the cell loop returns the specification cell |
| Tables.ExtractRow | src/document/parsing/table.rs:11-90 | a row yields one cell per source cell; empty rows are skipped |
| Tables.ExtractTableData | src/document/parsing/table.rs:11-90 | the extraction loop returns the specification table (first non-empty row as headers) |
| Tables.NoCellsNoTable | src/document/parsing/table.rs:11-90 | rows without cells give no rows at all |
| Tables.RowsCounted | src/document/parsing/table.rs:11-90 | at most one output row per input row, exactly one when no row is empty |
| Cleanup.TwoStopsMakeSentence | src/document/cleanup.rs:8-31 | two occurrences of ". " make text a sentence |
| Cleanup.NotSentence | src/document/cleanup.rs:8-31 | short text with no connector and fewer than two ". " is no sentence |
| Cleanup.EstimatePageCount | src/document/cleanup.rs:33-36 | zero pages exactly for zero words; otherwise the pages are the words divided by 250, rounded up |
| Cleanup.StripMarker | src/document/cleanup.rs:38-92 | the Word list marker is removed when it leads the text; other text is unchanged |
| Cleanup.CleanElement | src/document/cleanup.rs:38-92 | paragraph runs are cleaned one by one, list items keep their level and ordering, other elements are unchanged |
| Cleanup.CleanItem | src/document/cleanup.rs:38-92 | only the first run is cleaned, and only when the item's combined text starts with the marker |
| Cleanup.CleanWordListMarkers | src/document/cleanup.rs:38-92 | one output element per input element, each the cleaned element |
| Cleanup.UnmarkedUnchanged | src/document/cleanup.rs:38-92 | elements without the marker are returned unchanged |
| Latex.MtTextOfElement | src/document/parsing/equation.rs:285-302 | the text of a single `<m:t>x</m:t>` is x |
| Latex.NoMtText | src/document/parsing/equation.rs:285-302 | without `<m:t>` there is no text |
| Latex.ParseSimpleOmml | src/document/parsing/equation.rs:285-302 | the fallback text is the joined `<m:t>` text; the LaTeX is the corrected conversion, or the text when the conversion is empty |
| Latex.EmptyLatexMeansNoText | src/document/parsing/equation.rs:285-302 | the LaTeX is empty exactly when both the converted LaTeX and the `m:t` fallback text are empty |
| Latex.OmmlToLatex | src/document/parsing/equation.rs:304-543 | the conversion loop returns the corrected specification conversion `Latex`, which steps over whole characters |
| Latex.ExtractStep | src/document/parsing/equation.rs:304-543 | one loop step returns the dispatched per-structure step of the corrected conversion |
| Latex.StepAt | src/document/parsing/equation.rs:304-543 | every step of the corrected conversion advances the position, so the loop ends |
| Latex.SkipsOtherText | src/document/parsing/equation.rs:537-540 | corrected: a character that does not open a tag is skipped whole, without output |
| Latex.SliceFromByte | src/document/parsing/equation.rs:308-310 | a slice from a byte index is missing, as a panic, exactly when the index is inside a character or past the end |
| Latex.SliceAfterPrefix | src/document/parsing/equation.rs:308-310 | slicing past the encoding of the first characters slices the rest of the text |
| Latex.ByteStepSplitsCharacter | src/document/parsing/equation.rs:537-540 | as written: the one-byte step over a non-ASCII character leaves an index whose slice panics |
| Latex.AccentValueSplitAsWritten | src/document/parsing/equation.rs:537-540 | as written: the two-byte combining circumflex of an accent's `m:chr` value triggers the panic |
| Latex.CharStepOnBoundary | src/document/parsing/equation.rs:537-540 | corrected: the step over one character ends at the next character's byte index, where the slice exists |
| Latex.ScriptPiece | src/document/parsing/equation.rs:310-357 | a script renders as base, mark and braced script, and renders empty when a part is missing |
| Latex.DelimiterPiece | src/document/parsing/equation.rs:358-368 | a delimiter renders inside `\left(` and `\right)` |
| Latex.FractionRendered | src/document/parsing/equation.rs:369-395 | a fraction renders `\frac{num}{den}`, or `\binom` for a bar-less fraction, and empty when a part is missing |
| Latex.RadicalRendered | src/document/parsing/equation.rs:410-429 | a radical renders `\sqrt`, with `[deg]` unless the degree is missing, empty or 2 |
| Latex.OperatorCommand | src/document/parsing/equation.rs:435-455 | the operator is one of the eight LaTeX commands |
| Latex.NaryDefaultsToSum | src/document/parsing/equation.rs:430-476 | with no operator value the n-ary renders starting with `\sum` |
| Latex.RunSymbol | src/document/parsing/equation.rs:477-521 | a run character outside the table is kept; one inside becomes a backslash command |
| Latex.TextSymbol | src/document/parsing/equation.rs:522-535 | the same for the three-symbol table of bare `<m:t>` text |
| Latex.ConvertSymbols | src/document/parsing/equation.rs:477-535 | the character loop returns the symbol conversion |
| Latex.PlainRunText | src/document/parsing/equation.rs:477-521 | text with no special characters is unchanged |
| Latex.TextStepAsWrittenKeepsBracket | src/document/parsing/equation.rs:522-535 | as written, bare `<m:t>` text starts with the '>' of the opening tag |
| Latex.TextStepExact | src/document/parsing/equation.rs:522-535 | corrected, `<m:t>x</m:t>` yields exactly the converted x and moves past the closing tag |
| Latex.Inner | src/document/parsing/equation.rs:545-604 | no opening tag gives none; otherwise the inner text sits between the first opening tag and its matching (nesting-aware) closing tag |
| Latex.FirstCloseEnds | src/document/parsing/equation.rs:552-578 | with no nested opening tag, the first closing tag matches |
| Latex.NestedPairSkipped | src/document/parsing/equation.rs:552-578 | a nested open/close pair is skipped by the depth count |
| Latex.MatchingClose | src/document/parsing/equation.rs:552-578 | the depth loop returns the specification match position |
| Latex.ExtractLatex | src/document/parsing/equation.rs:545-604 | no tag gives none; plain inner content gives its non-empty `<m:t>` text |
| Latex.ExtractLatexText | src/document/parsing/equation.rs:545-604 | the method returns the specification extraction |
| Latex.ExtractText | src/document/parsing/equation.rs:605-621 | a result is non-empty and sits between the first opening tag and the next closing tag |
| Xml.TrimTextShape | src/document/parsing/equation.rs:183-184 | a trimming reader keeps the markup events in order, and each text it reports is non-empty with no white space at either end |
| Xml.TrimTextIdempotent | src/document/parsing/equation.rs:183-184 | trimming trimmed events changes nothing |
| Xml.TrimTextTrailingSpace | src/document/parsing/equation.rs:183-184 | a text of one character and a trailing space, such as `x ` in an `m:t`, is reported without the space |
| Xml.TrimTextDropsBlank | src/document/parsing/equation.rs:183-184 | a text of XML white space only, between a start and an end tag, is not reported |
| EquationScan.ExtractEquations | src/document/parsing/equation.rs:167-283 | the event loop returns the equations of the specification scan `DisplayRun` |
| EquationScan.OneEquationPerMath | src/document/parsing/equation.rs:167-283 | one equation per `m:oMath` end tag; the paragraph index counts `w:p` start tags |
| EquationScan.EquationsInOrder | src/document/parsing/equation.rs:167-283 | equation paragraph indices never decrease and never exceed the final paragraph count |
| EquationScan.InlineWhenOutsideMathPara | src/document/parsing/equation.rs:203-222 | an `m:oMath` end appends one equation, inline exactly when outside `m:oMathPara`, tagged with the current paragraph |
| EquationScan.CollectsMarkup | src/document/parsing/equation.rs:224-270 | inside math, other events are appended to the collected markup as serialised XML |
| EquationScan.ExtractInlineEquationPositions | src/document/parsing/equation.rs:31-165 | the event loop returns the paragraph map of the specification scan `InlineRun` |
| EquationScan.InlineRunValid | src/document/parsing/equation.rs:31-165 | recorded paragraphs have indices 1 to the current count, are non-empty and hold non-empty text pieces; the index counts `w:p` starts |
| EquationScan.ParagraphRecordedAtEnd | src/document/parsing/equation.rs:70-75 | a `w:p` end with collected content records it under the current paragraph index |
| Omml.ReadElementContent | src/equation.rs:371-412 | the loop collects the element's inner events up to the matching end tag, and the text is their serialisation |
| Omml.ReadContentOfNested | src/equation.rs:371-412 | for properly nested inner events, the content is exactly those events |
| Omml.ReadContentDropsEmpty | src/equation.rs:371-412 | self-closing tags are not collected |
| Omml.ParseStructure | src/equation.rs:150-345 | the structure loop (superscript, subscript, fraction, n-ary, delimiter) returns the specification parse |
| Omml.ParseRun | src/equation.rs:348-368 | the run loop returns the specification parse of the run's text |
| Omml.ParseOmmlElement | src/equation.rs:99-147 | the top-level loop returns the specification parse, which reads a self-closing `m:chr` (corrected); one element stands alone, several form a sequence |
| Omml.ParseAt | src/equation.rs:99-147 | each dispatch step advances and contributes its elements in order; n-ary operators use the corrected `m:chr` reading |
| Omml.ExtractTextFromOmml | src/equation.rs:64-90 | the loop returns the concatenated text of the `m:t` elements |
| Omml.FromOmml | src/equation.rs:51-101 | an equation keeps its markup, together with the Unicode rendering and the text fallback of its trimmed events; the rendering uses the corrected `m:chr` reading |
| Omml.ValAttribute | src/equation.rs:278-300 | the value is found exactly when some attribute is `m:val`, and it is that attribute's value |
| Omml.ParseNaryAsWritten | src/equation.rs:265-317 | as written, the parse yields an n-ary element |
| Omml.ParseNary | src/equation.rs:265-317 | corrected, the parse yields an n-ary element |
| Omml.EmptyChrIgnoredAsWritten | src/equation.rs:278-287 | as written, a self-closing `<m:chr m:val="∫"/>` leaves the operator at ∑ |
| Omml.EmptyChrRead | src/equation.rs:278-287 | corrected, a self-closing `m:chr` sets the operator to its value |
| Omml.NaryDefaultsToSum | src/equation.rs:265-317 | with no `m:chr` the operator is ∑ |
| Omml.StructChild | src/equation.rs:150-262 | a child element fills its slot with its parse |
| Omml.StructChildDropped | src/equation.rs:150-225 | a second base of a script is ignored: the first base is kept |
| Omml.FractionParsed | src/equation.rs:228-262 | a fraction's numerator and denominator are parsed into the fraction |
| Omml.RunParsed | src/equation.rs:348-368 | a run with text x parses to Text(x), renders as x and has fallback x |
| Omml.SimpleFraction | src/equation.rs:552-556 | the fraction 1 over 2 renders as "½" |
| Omml.RenderWrap | src/equation.rs:142-146 | a wrapped sequence renders as the concatenation of its elements |
| Omml.FractionGlyphs | src/equation.rs:429-442 | a glyph identifies its numerator and denominator and is one character; other fractions render as "(num⁄den)" |
| Omml.NaryRendering | src/equation.rs:444-459 | an n-ary renders starting with the operator and ending with the base, and as operator plus base without limits |
| Omml.SuperscriptChanges | src/equation.rs:467-490 | a character changes exactly when it has a superscript form |
| Omml.SubscriptChanges | src/equation.rs:493-531 | a character changes exactly when it has a subscript form |
| Omml.ScriptsAppend | src/equation.rs:467-531 | conversion keeps the length and works character by character |
| Omml.ScriptFormsBeyondAscii | src/equation.rs:467-531 | a changed character becomes a non-ASCII one; non-ASCII characters are unchanged |
| Omml.ScriptsIdempotent | src/equation.rs:467-531 | converting twice equals converting once |
| Omml.ScriptExamples | src/equation.rs:538-550 | "2", "n", "10" become "²", "ⁿ", "¹⁰"; "0", "k", "n-k" become "₀", "ₖ", "ₙ₋ₖ" |
| Omml.FallbackAppend | src/equation.rs:64-90 | the text fallback of concatenated events is the concatenation of their fallbacks, when the first part does not end in an `m:t` start tag |
| DocumentIo.SortedKeys | src/document/io.rs:62-64 | the sorted keys are increasing and are exactly the map's keys |
| DocumentIo.MergeDisplayEquations | src/document/io.rs:54-104 | the merge loop returns the specification merge `Merged` |
| DocumentIo.InsertBefore | src/document/io.rs:66-93 | inserting before each paragraph, heading and list gives the splice of the elements; the counter counts them |
| DocumentIo.AppendRemaining | src/document/io.rs:95-100 | equations with indices past the last counted element are appended in key order |
| DocumentIo.Placement | src/document/io.rs:54-104 | equations for index k go right before the (k+1)-th paragraph, heading or list; the rest go at the end |
| DocumentIo.MergedLength | src/document/io.rs:54-104 | the merge adds exactly the equations of the map |
| DocumentIo.AllEquations | src/document/io.rs:54-104 | every equation of the map appears, ordered by key |
| DocumentIo.MergedKeepsElements | src/document/io.rs:54-104 | the original elements appear in the result in their original order |
| DocumentIo.MergedEmpty | src/document/io.rs:54-104 | an empty map changes nothing |
| DocumentIo.MergeBeforeExample | src/document/io.rs:66-93 | an equation for index 1 goes before the second paragraph, after a table |
| DocumentIo.MergeAfterExample | src/document/io.rs:95-100 | an equation for a large index goes at the end |
| Query.SearchDocument | src/document/query.rs:8-84 | the search loop returns the specification search |
| Query.HitSound | src/document/query.rs:8-84 | a text yields at most one hit, exactly when its lower case contains the lower-cased query |
| Query.SearchSound | src/document/query.rs:8-84 | every result names a real element and a text of that element containing the query |
| Query.SearchComplete | src/document/query.rs:8-84 | every text of every element that contains a non-empty query is found |
| Query.EmptyQuery | src/document/query.rs:8-13 | an empty query finds nothing |
| Query.SearchFromOrdered | src/document/query.rs:8-84 | results come in element order |
| Query.SearchTextCounts | src/document/query.rs:16-81 | headings, paragraphs, images and equations each offer one text, lists one per item, tables their headers and cells, page breaks none |
| Query.SearchCaseInsensitive | src/document/query.rs:8-84 | queries equal up to case give the same results |
| Query.RevenueExample | tests/search_functionality_test.rs:38-50 | "REVENUE", "revenue" and "Revenue" give the same results |
| Query.Title | src/document/query.rs:86-110 | an outline title is the text, preceded by the number and a space when there is one |
| Query.GenerateOutline | src/document/query.rs:86-110 | the loop returns the specification outline |
| Query.OutlineExact | src/document/query.rs:86-110 | every outline item describes a heading, items are in element order, and every heading is listed |
| Query.OutlineLength | src/document/query.rs:86-110 | the outline has one item per heading |
| Loader.IsOrdered | src/document/loader.rs:403-416 | no id means a bullet list; ids other than 1 are ordered; id 1 is ordered at levels 0 to 2 |
| Loader.IsOrderedAlternates | src/document/loader.rs:403-416 | from level 3 on, list 1 alternates: odd levels ordered, even levels bulleted |
| Loader.DetectListFromParagraphNumbering | src/document/loader.rs:393-426 | list info exists exactly when numbering properties exist; the level defaults to 0; ordering follows `IsOrdered` |
| Loader.GetNumberingFormat | src/document/loader.rs:429-458 | the format is never a bullet, and levels 5 and deeper are decimal |
| Loader.NumberingFormats | src/document/loader.rs:429-458 | unknown lists use the default level table; specific entries of lists 1, 4 and 5; list 1 uses five distinct formats for levels 0 to 4 |
| Loader.RunsOf | src/document/loader.rs:125-145 | every collected run has non-empty text |
| Loader.RunsText | src/document/loader.rs:125-145 | the runs' text is the paragraph's direct run text |
| Loader.CollectRuns | src/document/loader.rs:125-145 | the run loop returns the specification runs |
| Loader.RunText | src/document/loader.rs:125-145 | the text loop returns the run's text children joined |
| Loader.PrefixRun | src/document/loader.rs:170-193 | the prefix run has default formatting and holds the marker, two spaces per level and the number |
| Loader.HeadingNumber | src/document/loader.rs:202-212 | a detected number is kept; otherwise a non-empty tracker number is used |
| Loader.BlankSkipped | src/document/loader.rs:147-152 | a blank paragraph yields no element, no words and no counter change |
| Loader.ListFirst | src/document/loader.rs:155-195 | a paragraph with numbering becomes a paragraph led by the prefix run, with the manager's number or the fallback label |
| Loader.StyledHeadingSecond | src/document/loader.rs:197-218 | otherwise a styled heading becomes a heading of its level, with its number or the tracker's |
| Loader.TextHeuristicThird | src/document/loader.rs:219-242 | otherwise the text heuristic decides between a heading and a consolidated paragraph |
| Loader.ClassifyKeepsText | src/document/loader.rs:147-242 | a non-blank paragraph always yields an element that keeps its full text (a heading may keep only the title after its typed number) |
| Loader.Serve | src/document/loader.rs:155-218 | answering a request changes only the counters it concerns and keeps the numbering switch |
| Loader.CountersTouched | src/document/loader.rs:155-218 | list counters change only for list items; heading counters only for styled headings with numbering on |
| Loader.ProcessParagraph | src/document/loader.rs:81-245 | one paragraph yields the specification element and word count, and leaves both numbering objects in the specification state |
| Loader.ServeDemand | src/document/loader.rs:160-213 | the manager or tracker call matches `Serve` |
| Loader.WalkDocument | src/document/loader.rs:81-256 | the body loop returns the specification walk over all children |
| Loader.WalkChild | src/document/loader.rs:246-254 | tables add their extracted table; other children add nothing |
| Loader.WalkParagraph | src/document/loader.rs:81-245 | a paragraph step matches `ParagraphWalk` |
| Loader.WalkCounts | src/document/loader.rs:147-152 | the word count is the sum over paragraphs, and there is at most one element per child |
| Loader.NoAutoNumbering | src/document/loader.rs:65-69 | without automatic numbering the heading counters never change |
| Loader.DisplayMapContents | src/document/loader.rs:264-278 | the map holds exactly the display equations, grouped by paragraph index in order |
| Loader.InlineNotMapped | src/document/loader.rs:264-278 | inline equations are not put into the map |
| Loader.BuildDisplayMap | src/document/loader.rs:264-278 | the loop returns the specification map |
| Loader.SpliceReadsAsPieces | src/document/loader.rs:296-330 | the rebuilt runs read as the pieces, with each equation as `$latex$`, in default formatting |
| Loader.SpliceExample | src/document/loader.rs:296-330 | "x", " = ", an equation a^2 and "." become "x = ", "$a^2$", "." |
| Loader.ReconstructRuns | src/document/loader.rs:296-330 | the loop returns the specification runs |
| Loader.HasEquation | src/document/loader.rs:291-293 | true exactly when some piece is an inline equation |
| Loader.ReplacementText | src/document/loader.rs:285-350 | a paragraph with inline equations becomes one paragraph reading as its pieces; one with inline content but no equation stays, even if display equations share its index; otherwise its display equations replace it, and without any it stays |
| Loader.IntegrateNothing | src/document/loader.rs:280-354 | without inline or display equations the elements are unchanged |
| Loader.IntegratedLength | src/document/loader.rs:280-354 | with no display equations the number of elements is unchanged |
| Loader.IntegrateEquations | src/document/loader.rs:280-354 | the loop returns the specification integration |
| Loader.ReplaceParagraph | src/document/loader.rs:285-350 | one paragraph's replacement matches `Replacement` |
| Loader.FinishElements | src/document/loader.rs:256-364 | equations, list grouping, marker cleanup and the display merge run in the source's order; the inline scan reads the untrimmed events and the display scan the trimmed ones; lists use the corrected prefix removal |
| Loader.LoadDocument | src/document/loader.rs:43-380 | the whole load returns the specification document `Loaded`, built on the corrected list and LaTeX definitions |
| Loader.LoadedMetadata | src/document/loader.rs:366-380 | word count, page estimate, path and size are as computed; the title is the file stem or "Untitled Document" |

## Left out

- Opening the file is not modelled, because the model takes its inputs as values. This covers validate_docx_file (src/document/io.rs:13-48), reading the ZIP archive and `docx_rs::read_docx`, and the file system metadata. The document tree, the XML events of `word/document.xml`, the file stem and the file size are parameters of `Loader.LoadDocument`.
- Errors of the XML reader are not modelled, because the events are given as a finite list. The equation scans end at the end of that list. The loader's `unwrap_or_default` on a failed scan is the empty result.
- Images (src/document/loader.rs:90-122) are not modelled, because they need image decoding and files. Drawings in a paragraph add no element.
- Dates and author (src/document/loader.rs:366-374) are not modelled. The source leaves `created`, `modified` and `author` empty, and so does the model.
- Extracting a run's formatting from the Word run properties is not modelled (src/document/parsing/formatting.rs:68-97). Each Docx run carries its `TextFormatting` value directly, because the properties are opaque to the model.
- Font sizes are floating-point in the source and are kept as opaque integers here. The core only copies and compares them, and never computes with them.
- Case folding and character classes use ASCII only. `to_lowercase`, `is_uppercase`, `is_alphabetic`, `is_numeric` and the regex `\d` are ASCII in the model. Rust's Unicode versions agree on ASCII text.
- `Tables.Classify`: number and date recognition follow the grammar of what Rust's `f64` and `u32` parsers accept. The value is not computed; only the `u32` range check is kept.
- `Tables.ColumnAlignment` and `Tables.DetermineColumnAlignments`: model the f32 test `numeric / total > 0.7` (src/document/parsing/table.rs:263) as the exact `10 * numeric > 7 * total`. The f32 constant 0.7 is slightly below 0.7, so a ratio just above 0.7 can round down and stay left aligned in the source. Counts above 2^24 also lose precision in f32. Both need columns of millions of cells.
- `Cleanup.EstimatePageCount`: models the f32 division and `ceil` as exact integer rounding up. For counts of millions of words, f32 rounding can make the source's result differ.
- `Loader.FallbackLabel`: models `level + 1` without the u8 wrap. The branch is unreachable, because `is_ordered` is false whenever `num_id` is missing (src/document/loader.rs:403-416).
- XML escaping in re-serialised OMML is not modelled: text events are written back as they are. Quoting inside attribute values is not modelled either.
- `Omml.ReadElementContent` and the structure parsers that call it: the content of a child is parsed again from the events collected, not re-read from its re-serialised text as src/equation.rs:371-412 and its callers do. The two differ where re-reading would give other events than those collected. For example, two text events separated only by a self-closing tag, which `Omml.ReadContentDropsEmpty` shows is dropped, would be re-read as one joined text.
- The display-equation step can place an equation twice, and the model keeps this behaviour. A display equation both replaces its paragraph (src/document/loader.rs:338-343) and is merged again by `merge_display_equations` (src/document/loader.rs:364). It is not claimed as a finding, because the paragraph index counts non-blank loader paragraphs while the scan counts XML `w:p` starts, so the two disagree in practice anyway.
- `Tables.Width`: counts Unicode scalar values where `display_width` counts grapheme clusters. Combining marks and emoji sequences count more than once, because grapheme segmentation is not modelled.
- `Lists.RemovalCount`, `Lists.CleanListItemRuns`, `Lists.CleanListItemRunsLoop`, `Lists.CleanedText`, `Lists.ItemOf` and `Lists.GroupListItems`: model the corrected prefix removal, which counts the prefix after the item's indentation. The source counts it from the untrimmed start, so "  - item" keeps "- item" there (Findings, row 1). The as-written removal is `Lists.CleanListItemRunsAsWritten`, with its loop `Lists.CleanListItemRunsAsWrittenLoop`.
- `Latex.TextStep`, `Latex.StepAt`, `Latex.ExtractStep`, `Latex.Latex`, `Latex.OmmlToLatex` and `Latex.ParseSimpleOmml`: model the corrected bare `<m:t>` step, which yields "x" for `<m:t>x</m:t>`. The source yields ">x" (Findings, row 2); the as-written step is `Latex.TextStepAsWritten`.
- `Latex.SkipsOtherText`, `Latex.StepAt`, `Latex.Latex`, `Latex.OmmlToLatex` and `Latex.ParseSimpleOmml`: positions count characters, and an unrecognised character is skipped whole. The source advances a byte index by one and panics at the next slice when the character is not ASCII (Findings, row 3). The model returns a LaTeX string there instead of the panic. Byte positions appear only in `Latex.SliceFromByte` and its lemmas.
- `Omml.StructureOf`, `Omml.ParseAt`, `Omml.ParseOmmlElement` and `Omml.FromOmml`: read the n-ary operator from a self-closing `m:chr` too (corrected). The source reads it only from a start tag, so Word's `<m:chr m:val="∫"/>` gives ∑ there (Findings, row 4). The as-written parse is `Omml.ParseNaryAsWritten`.
- `Loader.Finished`, `Loader.FinishElements`, `Loader.Loaded` and `Loader.LoadDocument`: inherit the corrected list and LaTeX behaviour above.
- `Xml.TrimText`: a trimming reader is modelled as trimming each text event of the untrimmed reader, which assumes both readers split character data into the same text events. `Loader.LoadDocument` takes the untrimmed events once, and the display scan reads their trimmed form.
- Concurrency, terminal rendering, themes, export and the command-line interface are outside the document core and not modelled.

## Findings

| source | as written | input that shows it | evidently intended | confidence | as-written member | corrected member |
|---|---|---|---|---|---|---|
| src/document/parsing/list.rs:125-202 | the list prefix is found in the trimmed text, but that many characters are removed from the untrimmed runs | a run "  - item" | the result "item" | not executed | Lists.IndentedBulletKeptAsWritten | Lists.IndentedBulletRemoved |
| src/document/parsing/equation.rs:522-535 | bare `<m:t>` text is sliced from `i + 4`, which is the '>' of the opening tag | `<m:t>x</m:t>` | the text "x" | not executed | Latex.TextStepAsWrittenKeepsBracket | Latex.TextStepExact |
| src/document/parsing/equation.rs:537-540 | an unrecognised character is skipped by `i += 1` on a byte index, and the next turn slices `omml[i..]` (line 310), which panics inside a multi-byte character | an accent written back as `<m:acc><m:accPr><m:chr m:val="…"/>` whose value is the combining circumflex U+0302, two bytes long | the whole character skipped | not executed | Latex.AccentValueSplitAsWritten | Latex.CharStepOnBoundary |
| src/equation.rs:278-287 | the n-ary operator is read only from a `Start` event for `m:chr`, while Word writes `m:chr` as a self-closing tag | `<m:naryPr><m:chr m:val="∫"/></m:naryPr>` | the operator ∫ | not executed | Omml.EmptyChrIgnoredAsWritten | Omml.EmptyChrRead |
