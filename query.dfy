/**
 * Read-only queries on a loaded document: case-insensitive search over the
 * searchable texts of its elements, and the outline of its headings.
 */
module Query {
  import opened Strings
  import opened Models

  // ---------------------------------------------------------------------------
  // Search
  // ---------------------------------------------------------------------------

  /** The texts of a table's cells, row after row. */
  function Contents(cells: seq<TableCell>): (r: seq<string>)
    ensures |r| == |cells| && forall i :: 0 <= i < |cells| ==> r[i] == cells[i].content
  {
    if cells == [] then [] else Contents(cells[..|cells| - 1]) + [cells[|cells| - 1].content]
  }

  function RowContents(rows: seq<seq<TableCell>>): seq<string>
  {
    if rows == [] then [] else RowContents(rows[..|rows| - 1]) + Contents(rows[|rows| - 1])
  }

  /** The text of each list item: its runs' texts joined. */
  function ItemTexts(items: seq<ListItem>): (r: seq<string>)
    ensures |r| == |items| && forall i :: 0 <= i < |items| ==> r[i] == Texts(items[i].runs)
  {
    if items == [] then [] else ItemTexts(items[..|items| - 1]) + [Texts(items[|items| - 1].runs)]
  }

  /** The texts searched in an element, each giving at most one result. */
  function SearchTexts(e: DocumentElement): seq<string>
  {
    match e
    case Heading(_, text, _) => [text]
    case Paragraph(runs) => [Texts(runs)]
    case List(items, _) => ItemTexts(items)
    case Table(table) => Contents(table.headers) + RowContents(table.rows)
    case Image(description, _, _, _, _) => [description]
    case Equation(latex, _) => [latex]
    case PageBreak => []
  }

  /** The result for one text: the first occurrence of the lower-cased query in
      the lower-cased text, with its byte offsets. */
  function Hit(index: nat, text: string, query: string): (r: seq<SearchResult>)
  {
    match Find(Lower(text), Lower(query))
    case None => []
    case Some(i) =>
      var start := ByteLen(Lower(text)[..i]);
      [SearchResult(index, text, start, start + ByteLen(query))]
  }

  function Hits(index: nat, texts: seq<string>, query: string): seq<SearchResult>
  {
    if texts == [] then [] else Hits(index, texts[..|texts| - 1], query) + Hit(index, texts[|texts| - 1], query)
  }

  function SearchFrom(elements: seq<DocumentElement>, query: string): seq<SearchResult>
  {
    if elements == [] then []
    else
      var n := |elements| - 1;
      SearchFrom(elements[..n], query) + Hits(n, SearchTexts(elements[n]), query)
  }

  /** The results of `search_document`. */
  function Search(elements: seq<DocumentElement>, query: string): seq<SearchResult>
  {
    if query == [] then [] else SearchFrom(elements, query)
  }

  /** `search_document`: one pass over the elements, the items of a list and
      the header and row cells of a table, collecting the texts that contain
      the query regardless of case. */
  method SearchDocument(document: Document, query: string) returns (results: seq<SearchResult>)
    ensures results == Search(document.elements, query)
  {
    results := [];
    if query == [] {
      return;
    }
    var elements := document.elements;
    var i := 0;
    while i < |elements|
      invariant i <= |elements|
      invariant results == SearchFrom(elements[..i], query)
    {
      assert elements[..i + 1][..i] == elements[..i];
      var found := SearchElement(i, elements[i], query);
      results := results + found;
      i := i + 1;
    }
    assert elements[..i] == elements;
  }

  method SearchElement(index: nat, e: DocumentElement, query: string) returns (found: seq<SearchResult>)
    ensures found == Hits(index, SearchTexts(e), query)
  {
    match e {
      case List(items, _) =>
        found := SearchItems(index, items, query);
      case Table(table) =>
        found := SearchTable(index, table, query);
      case PageBreak =>
        found := [];
      case _ =>
        var text := SearchTexts(e)[0];
        assert SearchTexts(e) == [text] && [text][..0] == [];
        found := Hit(index, text, query);
    }
  }

  method SearchTable(index: nat, table: TableData, query: string) returns (found: seq<SearchResult>)
    ensures found == Hits(index, Contents(table.headers) + RowContents(table.rows), query)
  {
    found := SearchCells(index, table.headers, query);
    var inRows := SearchRows(index, table.rows, query);
    HitsAppend(index, Contents(table.headers), RowContents(table.rows), query);
    found := found + inRows;
  }

  method SearchRows(index: nat, rows: seq<seq<TableCell>>, query: string) returns (found: seq<SearchResult>)
    ensures found == Hits(index, RowContents(rows), query)
  {
    found := [];
    var j := 0;
    while j < |rows|
      invariant j <= |rows|
      invariant found == Hits(index, RowContents(rows[..j]), query)
    {
      var inRow := SearchCells(index, rows[j], query);
      RowContentsNext(rows, j);
      HitsAppend(index, RowContents(rows[..j]), Contents(rows[j]), query);
      found := found + inRow;
      j := j + 1;
    }
    assert rows[..j] == rows;
  }

  lemma RowContentsNext(rows: seq<seq<TableCell>>, j: nat)
    requires j < |rows|
    ensures RowContents(rows[..j + 1]) == RowContents(rows[..j]) + Contents(rows[j])
  {
    assert rows[..j + 1][..j] == rows[..j];
  }

  method SearchItems(index: nat, items: seq<ListItem>, query: string) returns (found: seq<SearchResult>)
    ensures found == Hits(index, ItemTexts(items), query)
  {
    found := [];
    var j := 0;
    while j < |items|
      invariant j <= |items|
      invariant found == Hits(index, ItemTexts(items[..j]), query)
    {
      assert items[..j + 1][..j] == items[..j];
      found := found + Hit(index, Texts(items[j].runs), query);
      j := j + 1;
    }
    assert items[..j] == items;
  }

  method SearchCells(index: nat, cells: seq<TableCell>, query: string) returns (found: seq<SearchResult>)
    ensures found == Hits(index, Contents(cells), query)
  {
    found := [];
    var j := 0;
    while j < |cells|
      invariant j <= |cells|
      invariant found == Hits(index, Contents(cells[..j]), query)
    {
      assert cells[..j + 1][..j] == cells[..j];
      found := found + Hit(index, cells[j].content, query);
      j := j + 1;
    }
    assert cells[..j] == cells;
  }

  // ---------------------------------------------------------------------------
  // Search properties
  // ---------------------------------------------------------------------------

  lemma {:induction false} HitsAppend(index: nat, a: seq<string>, b: seq<string>, query: string)
    ensures Hits(index, a + b, query) == Hits(index, a, query) + Hits(index, b, query)
    decreases |b|
  {
    if b == [] {
      assert a + b == a;
    } else {
      assert (a + b)[..|a + b| - 1] == a + b[..|b| - 1];
      HitsAppend(index, a, b[..|b| - 1], query);
    }
  }

  /** ASCII lower-casing keeps the UTF-8 length. */
  lemma {:induction false} LowerByteLen(s: string)
    ensures ByteLen(Lower(s)) == ByteLen(s)
  {
    if s != [] {
      assert Lower(s)[1..] == Lower(s[1..]);
      LowerByteLen(s[1..]);
    }
  }

  /** What one result says: the text contains the query regardless of case,
      the span has the query's byte length and lies within the text. */
  ghost predicate Sound(r: SearchResult, index: nat, texts: seq<string>, query: string)
  {
    && r.elementIndex == index
    && r.text in texts
    && Contains(Lower(r.text), Lower(query))
    && r.endPos - r.startPos == ByteLen(query)
    && r.endPos <= ByteLen(r.text)
  }

  /** A match at character `i` ends within the text, in bytes. */
  lemma SpanWithin(t: string, q: string, i: nat)
    requires i <= |t| && StartsWith(t[i..], q)
    ensures ByteLen(t[..i]) + ByteLen(q) <= ByteLen(t)
  {
    assert t == t[..i] + t[i..];
    ByteLenAppend(t[..i], t[i..]);
    assert t[i..] == q + t[i..][|q|..];
    ByteLenAppend(q, t[i..][|q|..]);
  }

  lemma HitSound(index: nat, text: string, query: string)
    ensures |Hit(index, text, query)| <= 1
    ensures |Hit(index, text, query)| == 1 <==> Contains(Lower(text), Lower(query))
    ensures forall r :: r in Hit(index, text, query) ==> Sound(r, index, [text], query)
  {
    var t, q := Lower(text), Lower(query);
    match Find(t, q) {
      case None =>
      case Some(i) =>
        SpanWithin(t, q, i);
        LowerByteLen(text);
        LowerByteLen(query);
    }
  }

  /** Every text gives at most one result, each result is sound, and results
      come in the order of the texts. */
  lemma {:induction false} HitsSound(index: nat, texts: seq<string>, query: string)
    ensures |Hits(index, texts, query)| <= |texts|
    ensures forall r :: r in Hits(index, texts, query) ==> Sound(r, index, texts, query)
  {
    if texts != [] {
      var init, last := texts[..|texts| - 1], texts[|texts| - 1];
      HitsSound(index, init, query);
      HitSound(index, last, query);
      forall r | r in Hits(index, texts, query) ensures Sound(r, index, texts, query) {
        if r in Hits(index, init, query) {
          assert Sound(r, index, init, query);
          assert r.text in texts by {
            var j :| 0 <= j < |init| && init[j] == r.text;
            assert texts[j] == r.text;
          }
        } else {
          assert Sound(r, index, [last], query);
        }
      }
    }
  }

  /** Every result names an element, and a text of that element containing the
      query regardless of case; its span has the query's byte length. */
  lemma {:induction false} SearchFromSound(elements: seq<DocumentElement>, query: string)
    ensures forall r :: r in SearchFrom(elements, query) ==>
      r.elementIndex < |elements| && Sound(r, r.elementIndex, SearchTexts(elements[r.elementIndex]), query)
  {
    if elements != [] {
      var n := |elements| - 1;
      SearchFromSound(elements[..n], query);
      HitsSound(n, SearchTexts(elements[n]), query);
      forall r | r in SearchFrom(elements, query)
        ensures r.elementIndex < |elements| && Sound(r, r.elementIndex, SearchTexts(elements[r.elementIndex]), query)
      {
        if r in SearchFrom(elements[..n], query) {
          assert elements[..n][r.elementIndex] == elements[r.elementIndex];
        }
      }
    }
  }

  lemma SearchSound(elements: seq<DocumentElement>, query: string)
    ensures forall r :: r in Search(elements, query) ==>
      r.elementIndex < |elements| && Sound(r, r.elementIndex, SearchTexts(elements[r.elementIndex]), query)
  {
    if query != [] { SearchFromSound(elements, query); }
  }

  /** An empty query finds nothing. */
  lemma EmptyQuery(elements: seq<DocumentElement>)
    ensures Search(elements, "") == []
  {
  }

  lemma {:induction false} HitsIndex(index: nat, texts: seq<string>, query: string)
    ensures forall r :: r in Hits(index, texts, query) ==> r.elementIndex == index
  {
    if texts != [] { HitsIndex(index, texts[..|texts| - 1], query); }
  }

  /** Results come in element order. */
  lemma {:induction false} SearchFromOrdered(elements: seq<DocumentElement>, query: string)
    ensures forall i, j :: 0 <= i < j < |SearchFrom(elements, query)| ==>
      SearchFrom(elements, query)[i].elementIndex <= SearchFrom(elements, query)[j].elementIndex
    ensures forall r :: r in SearchFrom(elements, query) ==> r.elementIndex < |elements|
  {
    if elements != [] {
      var n := |elements| - 1;
      var front, back := SearchFrom(elements[..n], query), Hits(n, SearchTexts(elements[n]), query);
      SearchFromOrdered(elements[..n], query);
      HitsIndex(n, SearchTexts(elements[n]), query);
      var all := front + back;
      forall i, j | 0 <= i < j < |all| ensures all[i].elementIndex <= all[j].elementIndex {
        if j >= |front| {
          assert all[j] in back;
          if i < |front| { assert all[i] in front; } else { assert all[i] in back; }
        }
      }
      forall r | r in all ensures r.elementIndex < |elements| {
        if r in front { } else { assert r in back; }
      }
    }
  }

  /** Every searchable text that contains the query regardless of case gives
      a result. */
  lemma {:induction false} HitsComplete(index: nat, texts: seq<string>, query: string, k: nat)
    requires k < |texts| && Contains(Lower(texts[k]), Lower(query))
    ensures exists r :: r in Hits(index, texts, query) && r.text == texts[k]
  {
    var init := texts[..|texts| - 1];
    if k == |texts| - 1 {
      HitSound(index, texts[k], query);
      var r := Hit(index, texts[k], query)[0];
      assert r in Hits(index, texts, query);
    } else {
      assert init[k] == texts[k];
      HitsComplete(index, init, query, k);
    }
  }

  lemma {:induction false} SearchFromComplete(elements: seq<DocumentElement>, query: string, j: nat, k: nat)
    requires j < |elements| && k < |SearchTexts(elements[j])|
    requires Contains(Lower(SearchTexts(elements[j])[k]), Lower(query))
    ensures exists r :: r in SearchFrom(elements, query) && r.elementIndex == j && r.text == SearchTexts(elements[j])[k]
  {
    var n := |elements| - 1;
    if j == n {
      HitsComplete(n, SearchTexts(elements[n]), query, k);
      HitsIndex(n, SearchTexts(elements[n]), query);
    } else {
      assert elements[..n][j] == elements[j];
      SearchFromComplete(elements[..n], query, j, k);
    }
  }

  lemma SearchComplete(elements: seq<DocumentElement>, query: string, j: nat, k: nat)
    requires query != [] && j < |elements| && k < |SearchTexts(elements[j])|
    requires Contains(Lower(SearchTexts(elements[j])[k]), Lower(query))
    ensures exists r :: r in Search(elements, query) && r.elementIndex == j && r.text == SearchTexts(elements[j])[k]
  {
    SearchFromComplete(elements, query, j, k);
  }

  /** Headings, paragraphs, images and equations are searched as one text,
      a list item by item, a table header by header and then cell by cell,
      and a page break not at all. */
  lemma SearchTextCounts(e: DocumentElement)
    ensures (e.Heading? || e.Paragraph? || e.Image? || e.Equation?) ==> |SearchTexts(e)| == 1
    ensures e.List? ==> |SearchTexts(e)| == |e.items|
    ensures e.Table? ==> |SearchTexts(e)| == |e.table.headers| + |RowContents(e.table.rows)|
    ensures e.PageBreak? ==> SearchTexts(e) == []
  {
  }

  /** The query matters only through its lower-cased form. */
  lemma {:induction false} SearchFromCaseInsensitive(elements: seq<DocumentElement>, q1: string, q2: string)
    requires Lower(q1) == Lower(q2)
    ensures SearchFrom(elements, q1) == SearchFrom(elements, q2)
  {
    LowerByteLen(q1);
    LowerByteLen(q2);
    if elements != [] {
      var n := |elements| - 1;
      SearchFromCaseInsensitive(elements[..n], q1, q2);
      HitsCaseInsensitive(n, SearchTexts(elements[n]), q1, q2);
    }
  }

  lemma {:induction false} HitsCaseInsensitive(index: nat, texts: seq<string>, q1: string, q2: string)
    requires Lower(q1) == Lower(q2) && ByteLen(q1) == ByteLen(q2)
    ensures Hits(index, texts, q1) == Hits(index, texts, q2)
  {
    if texts != [] {
      HitsCaseInsensitive(index, texts[..|texts| - 1], q1, q2);
      HitCaseInsensitive(index, texts[|texts| - 1], q1, q2);
    }
  }

  lemma HitCaseInsensitive(index: nat, text: string, q1: string, q2: string)
    requires Lower(q1) == Lower(q2) && ByteLen(q1) == ByteLen(q2)
    ensures Hit(index, text, q1) == Hit(index, text, q2)
  {
  }

  lemma SearchCaseInsensitive(elements: seq<DocumentElement>, q1: string, q2: string)
    requires Lower(q1) == Lower(q2)
    ensures Search(elements, q1) == Search(elements, q2)
  {
    SearchFromCaseInsensitive(elements, q1, q2);
  }

  /** "revenue", "REVENUE" and "Revenue" find the same results. */
  lemma RevenueExample(elements: seq<DocumentElement>)
    ensures Search(elements, "REVENUE") == Search(elements, "revenue") == Search(elements, "Revenue")
  {
    assert Lower("REVENUE") == "revenue" == Lower("revenue") == Lower("Revenue");
    SearchCaseInsensitive(elements, "REVENUE", "revenue");
    SearchCaseInsensitive(elements, "Revenue", "revenue");
  }

  // ---------------------------------------------------------------------------
  // Outline
  // ---------------------------------------------------------------------------

  /** A heading's outline title: its number, a space and its text, or its text. */
  function Title(text: string, number: Option<string>): (r: string)
    ensures number.None? ==> r == text
    ensures number.Some? ==> r == number.value + " " + text
  {
    match number
    case Some(n) => n + " " + text
    case None => text
  }

  function Outline(elements: seq<DocumentElement>): seq<OutlineItem>
  {
    if elements == [] then []
    else
      var n := |elements| - 1;
      var e := elements[n];
      Outline(elements[..n]) + (if e.Heading? then [OutlineItem(Title(e.text, e.number), e.level, n)] else [])
  }

  /** `generate_outline`: one item per heading, in document order. */
  method GenerateOutline(document: Document) returns (outline: seq<OutlineItem>)
    ensures outline == Outline(document.elements)
  {
    outline := [];
    var elements := document.elements;
    var i := 0;
    while i < |elements|
      invariant i <= |elements|
      invariant outline == Outline(elements[..i])
    {
      assert elements[..i + 1][..i] == elements[..i];
      match elements[i] {
        case Heading(level, text, number) =>
          var title := match number case Some(n) => n + " " + text case None => text;
          outline := outline + [OutlineItem(title, level, i)];
        case _ =>
      }
      i := i + 1;
    }
    assert elements[..i] == elements;
  }

  /** The item for a heading. */
  predicate ItemFor(o: OutlineItem, elements: seq<DocumentElement>)
  {
    && o.elementIndex < |elements|
    && elements[o.elementIndex].Heading?
    && o.level == elements[o.elementIndex].level
    && o.title == Title(elements[o.elementIndex].text, elements[o.elementIndex].number)
  }

  /** Each outline item stands for a heading, the items are in strictly
      increasing element order, and every heading has one. */
  lemma {:induction false} OutlineExact(elements: seq<DocumentElement>)
    ensures forall o :: o in Outline(elements) ==> ItemFor(o, elements)
    ensures forall i, j :: 0 <= i < j < |Outline(elements)| ==> Outline(elements)[i].elementIndex < Outline(elements)[j].elementIndex
    ensures forall k :: 0 <= k < |elements| && elements[k].Heading? ==> exists o :: o in Outline(elements) && o.elementIndex == k
  {
    if elements != [] {
      var n := |elements| - 1;
      var front := Outline(elements[..n]);
      OutlineExact(elements[..n]);
      forall o | o in front ensures ItemFor(o, elements) && o.elementIndex < n {
        assert ItemFor(o, elements[..n]);
        assert elements[..n][o.elementIndex] == elements[o.elementIndex];
      }
      forall k | 0 <= k < n && elements[k].Heading? ensures exists o :: o in front && o.elementIndex == k {
        assert elements[..n][k] == elements[k];
      }
      if elements[n].Heading? {
        var e := elements[n];
        assert OutlineItem(Title(e.text, e.number), e.level, n) in Outline(elements);
      }
    }
  }

  /** One item per heading. */
  lemma HeadingIndicesStep(elements: seq<DocumentElement>, n: nat)
    requires n < |elements|
    ensures (set k | 0 <= k < n + 1 && elements[k].Heading?)
         == (set k | 0 <= k < n && elements[..n][k].Heading?) + (if elements[n].Heading? then {n} else {})
  {
    assert forall k :: 0 <= k < n ==> elements[..n][k] == elements[k];
  }

  lemma {:induction false} OutlineLength(elements: seq<DocumentElement>)
    ensures |Outline(elements)| == |set k | 0 <= k < |elements| && elements[k].Heading?|
  {
    if elements != [] {
      var n := |elements| - 1;
      OutlineLength(elements[..n]);
      HeadingIndicesStep(elements, n);
    }
  }
}
