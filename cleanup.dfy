/**
 * Post-processing of the element list: the sentence heuristic that keeps
 * prose out of the headings, the page estimate, and the removal of the
 * marker the loader puts in front of Word-numbered list paragraphs.
 */
module Cleanup {
  import opened Strings
  import opened Models

  /** The marker that opens the first run of a paragraph Word numbered as a list item. */
  const WordListMarker: string := "__WORD_LIST__"

  // ---------------------------------------------------------------------------
  // Sentence heuristic
  // ---------------------------------------------------------------------------

  /** A sentence stop followed by a space. */
  const Stop: string := ". "

  predicate EndsLikeSentence(t: string)
  {
    EndsWith(t, ".") || EndsWith(t, "!") || EndsWith(t, "?")
  }

  predicate HasConnector(t: string)
  {
    Contains(t, " and ") || Contains(t, " but ") || Contains(t, " however ") || Contains(t, " therefore ")
  }

  /** `is_likely_sentence`, on the trimmed text: more than one ". ", or a long
      text with a sentence ending, or one of the connectors. */
  predicate IsLikelySentence(text: string)
  {
    var t := Trim(text);
    CountMatches(t, Stop) > 1 || (ByteLen(t) > 80 && EndsLikeSentence(t)) || HasConnector(t)
  }

  /** Two occurrences of `p` that do not overlap. */
  predicate TwoOccurrences(s: string, p: string, i: nat, j: nat)
  {
    i + |p| <= j <= |s| && StartsWith(s[i..], p) && StartsWith(s[j..], p)
  }

  lemma CountAtLeastOne(s: string, p: string, from: nat, i: nat)
    requires |p| > 0 && from <= i <= |s| && StartsWith(s[i..], p)
    ensures CountFrom(s, p, from) >= 1
  {
  }

  /** Two non-overlapping occurrences are counted twice. */
  lemma CountAtLeastTwo(s: string, p: string, i: nat, j: nat)
    requires |p| > 0 && TwoOccurrences(s, p, i, j)
    ensures CountMatches(s, p) >= 2
  {
    var k := FindFrom(s, p, 0).value;
    assert k <= i;
    CountAtLeastOne(s, p, k + |p|, j);
  }

  /** A count above one means two non-overlapping occurrences. */
  lemma CountTwoGivesOccurrences(s: string, p: string) returns (i: nat, j: nat)
    requires |p| > 0 && CountMatches(s, p) > 1
    ensures TwoOccurrences(s, p, i, j)
  {
    i := FindFrom(s, p, 0).value;
    assert CountFrom(s, p, i + |p|) > 0;
    j := FindFrom(s, p, i + |p|).value;
  }

  /** Text with two separate sentence stops is a sentence. */
  lemma TwoStopsMakeSentence(text: string, i: nat, j: nat)
    requires TwoOccurrences(Trim(text), Stop, i, j)
    ensures IsLikelySentence(text)
  {
    CountAtLeastTwo(Trim(text), Stop, i, j);
  }

  /** Short text without a second sentence stop and without a connector is
      not a sentence. */
  lemma NotSentence(text: string)
    requires var t := Trim(text);
      ByteLen(t) <= 80 && !HasConnector(t)
      && forall i, j :: 0 <= i <= j <= |t| ==> !TwoOccurrences(t, Stop, i, j)
    ensures !IsLikelySentence(text)
  {
    var t := Trim(text);
    if CountMatches(t, Stop) > 1 {
      var i, j := CountTwoGivesOccurrences(t, Stop);
    }
  }

  // ---------------------------------------------------------------------------
  // Page estimate
  // ---------------------------------------------------------------------------

  /** `estimate_page_count`: 250 words a page, rounded up. */
  function EstimatePageCount(wordCount: nat): (pages: nat)
    ensures pages == 0 <==> wordCount == 0
    ensures pages > 0 ==> 250 * (pages - 1) < wordCount <= 250 * pages
  {
    (wordCount + 249) / 250
  }

  // ---------------------------------------------------------------------------
  // Marker removal
  // ---------------------------------------------------------------------------

  /** One copy of the marker removed from the front of a text. */
  function StripMarker(text: string): (r: string)
    ensures StartsWith(text, WordListMarker) ==> text == WordListMarker + r
    ensures !StartsWith(text, WordListMarker) ==> r == text
  {
    if StartsWith(text, WordListMarker) then text[|WordListMarker|..] else text
  }

  function CleanRun(run: FormattedRun): (r: FormattedRun)
    ensures r.formatting == run.formatting
  {
    run.(text := StripMarker(run.text))
  }

  /** A list item loses the marker from its first run, and only when the
      item's text starts with the marker. */
  function CleanItem(item: ListItem): (r: ListItem)
    ensures r.level == item.level && |r.runs| == |item.runs|
    ensures |item.runs| > 0 ==> r.runs[1..] == item.runs[1..]
    ensures |item.runs| > 0 && StartsWith(Texts(item.runs), WordListMarker) ==> r.runs[0] == CleanRun(item.runs[0])
    ensures !StartsWith(Texts(item.runs), WordListMarker) ==> r == item
  {
    if StartsWith(Texts(item.runs), WordListMarker) && |item.runs| > 0 then
      item.(runs := [CleanRun(item.runs[0])] + item.runs[1..])
    else item
  }

  function CleanRuns(runs: seq<FormattedRun>): (r: seq<FormattedRun>)
    ensures |r| == |runs| && forall i :: 0 <= i < |runs| ==> r[i] == CleanRun(runs[i])
  {
    seq(|runs|, i requires 0 <= i < |runs| => CleanRun(runs[i]))
  }

  function CleanItems(items: seq<ListItem>): (r: seq<ListItem>)
    ensures |r| == |items| && forall i :: 0 <= i < |items| ==> r[i] == CleanItem(items[i])
  {
    seq(|items|, i requires 0 <= i < |items| => CleanItem(items[i]))
  }

  /** Two elements of the same variant. */
  predicate SameKind(a: DocumentElement, b: DocumentElement)
  {
    (a.Heading? <==> b.Heading?) && (a.Paragraph? <==> b.Paragraph?) && (a.List? <==> b.List?)
    && (a.Table? <==> b.Table?) && (a.Image? <==> b.Image?) && (a.Equation? <==> b.Equation?)
    && (a.PageBreak? <==> b.PageBreak?)
  }

  function CleanElement(e: DocumentElement): (r: DocumentElement)
    ensures SameKind(e, r)
    ensures !e.Paragraph? && !e.List? ==> r == e
    ensures e.Paragraph? ==> r.runs == CleanRuns(e.runs)
    ensures e.List? ==> r.ordered == e.ordered && r.items == CleanItems(e.items)
  {
    match e
    case Paragraph(runs) => Paragraph(CleanRuns(runs))
    case List(items, ordered) => List(CleanItems(items), ordered)
    case _ => e
  }

  /** `clean_word_list_markers`: element by element, in place. */
  function CleanWordListMarkers(elements: seq<DocumentElement>): (r: seq<DocumentElement>)
    ensures |r| == |elements|
    ensures forall i :: 0 <= i < |elements| ==> r[i] == CleanElement(elements[i])
  {
    seq(|elements|, i requires 0 <= i < |elements| => CleanElement(elements[i]))
  }

  /** No text in the element starts with the marker. */
  predicate Unmarked(e: DocumentElement)
  {
    (e.Paragraph? ==> forall i :: 0 <= i < |e.runs| ==> !StartsWith(e.runs[i].text, WordListMarker))
    && (e.List? ==> forall i :: 0 <= i < |e.items| ==> !StartsWith(Texts(e.items[i].runs), WordListMarker))
  }

  /** Where there is no marker, nothing changes. */
  lemma UnmarkedUnchanged(elements: seq<DocumentElement>)
    requires forall i :: 0 <= i < |elements| ==> Unmarked(elements[i])
    ensures CleanWordListMarkers(elements) == elements
  {
    var r := CleanWordListMarkers(elements);
    forall k | 0 <= k < |elements|
      ensures r[k] == elements[k]
    {
      var e := elements[k];
      if e.Paragraph? {
        assert CleanRuns(e.runs) == e.runs;
      } else if e.List? {
        assert CleanItems(e.items) == e.items;
      }
    }
  }
}
