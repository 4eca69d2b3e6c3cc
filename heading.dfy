/**
 * Heading detection: from the paragraph style ("Heading1" ... "Heading9"),
 * with the heading number taken from the text, from Word's automatic
 * numbering or left out, and from the text and formatting of an ordinary
 * paragraph by conservative heuristics.
 */
module Heading {
  import opened Strings
  import opened Models
  import Docx
  import Numbering
  import Formatting
  import Lists
  import Cleanup

  // ---------------------------------------------------------------------------
  // Headings by style
  // ---------------------------------------------------------------------------

  predicate IsHeadingStyle(style: string)
  {
    StartsWith(style, "Heading") || StartsWith(style, "heading")
  }

  /** The level a heading style names: its last character read as a decimal
      digit and capped at 6, or 1 when the style does not end in a digit. */
  function StyleLevel(style: string): (r: Option<U8>)
    ensures r.Some? <==> IsHeadingStyle(style)
    ensures r.Some? ==> r.value <= 6
    ensures r.Some? && !IsAsciiDigit(style[|style| - 1]) ==> r.value == 1
    ensures r.Some? && IsAsciiDigit(style[|style| - 1]) ==> r.value == Min(DigitValue(style[|style| - 1]), 6)
  {
    if IsHeadingStyle(style) then
      var last := style[|style| - 1];
      if IsAsciiDigit(last) then Some(Min(DigitValue(last), 6)) else Some(1)
    else None
  }

  function Min(a: nat, b: nat): nat { if a <= b then a else b }

  /** `detect_heading_from_paragraph_style`. */
  function DetectHeadingFromParagraphStyle(p: Docx.Paragraph): (r: Option<U8>)
    ensures p.property.style.None? ==> r.None?
    ensures p.property.style.Some? ==> r == StyleLevel(p.property.style.value)
  {
    match p.property.style
    case None => None
    case Some(style) => StyleLevel(style)
  }

  /** "Heading1" to "Heading6" name their own level. */
  lemma StyleLevelOfDigit(style: string, n: nat)
    requires 1 <= n <= 6 && style == "Heading" + [DigitChar(n)]
    ensures StyleLevel(style) == Some(n)
  {
    assert style[..7] == "Heading";
  }

  /** Deeper built-in styles are shown at level 6. */
  lemma StyleLevelCapped(style: string, n: nat)
    requires 6 <= n <= 9 && style == "Heading" + [DigitChar(n)]
    ensures StyleLevel(style) == Some(6)
  {
    assert style[..7] == "Heading";
  }

  /** A heading style whose name does not end in a digit is level 1. */
  lemma StyleLevelPlain(style: string)
    requires style == "Heading"
    ensures StyleLevel(style) == Some(1)
  {
  }

  // ---------------------------------------------------------------------------
  // Heading numbers
  // ---------------------------------------------------------------------------

  /** The numbering of a paragraph, when it has a numbering property with an id. */
  function AutomaticNumbering(p: Docx.Paragraph): Option<Formatting.NumberingInfo>
  {
    match p.property.numberingProperty
    case None => None
    case Some(np) => Formatting.ExtractNumberingInfo(np)
  }

  /** `detect_heading_with_numbering`: a heading by style, numbered first by a
      number typed at the start of its text, then by Word's automatic
      numbering, else not numbered. */
  function DetectHeadingWithNumbering(p: Docx.Paragraph): (r: Option<Numbering.HeadingInfo>)
    ensures r.Some? <==> DetectHeadingFromParagraphStyle(p).Some?
    ensures r.Some? ==> r.value.level == DetectHeadingFromParagraphStyle(p).value
    ensures r.Some? ==> (r.value.number.None? <==> r.value.cleanText.None?)
    ensures r.Some? && Numbering.ExtractHeadingNumberFromText(Formatting.ParagraphText(p)).Some? ==>
      var typed := Numbering.ExtractHeadingNumberFromText(Formatting.ParagraphText(p)).value;
      r.value.number == Some(typed.0) && r.value.cleanText == Some(typed.1)
    ensures (r.Some? && Numbering.ExtractHeadingNumberFromText(Formatting.ParagraphText(p)).None?
             && AutomaticNumbering(p).Some?) ==>
      r.value.number.Some? && r.value.number.value in {"1", "1.1", "1.1.1", "1.1.1.1"}
      && r.value.cleanText == Some(Formatting.ParagraphText(p))
    ensures (r.Some? && Numbering.ExtractHeadingNumberFromText(Formatting.ParagraphText(p)).None?
             && AutomaticNumbering(p).None?) ==> r.value.number.None?
  {
    match DetectHeadingFromParagraphStyle(p)
    case None => None
    case Some(level) =>
      var text := Formatting.ParagraphText(p);
      match Numbering.ExtractHeadingNumberFromText(text)
      case Some((number, remaining)) => Some(Numbering.HeadingInfo(level, Some(number), Some(remaining)))
      case None =>
        match AutomaticNumbering(p)
        case Some((numId, listLevel)) =>
          Some(Numbering.HeadingInfo(level, Some(Formatting.ReconstructHeadingNumber(numId, listLevel, level)), Some(text)))
        case None => Some(Numbering.HeadingInfo(level, None, None))
  }

  /** A number typed in the text wins over Word's numbering: two paragraphs
      that differ only in their numbering property get the same heading. */
  lemma TypedNumberWins(p: Docx.Paragraph, np: Option<Docx.NumberingProperty>)
    requires Numbering.ExtractHeadingNumberFromText(Formatting.ParagraphText(p)).Some?
    ensures DetectHeadingWithNumbering(p.(property := p.property.(numberingProperty := np)))
         == DetectHeadingWithNumbering(p)
  {
    var q := p.(property := p.property.(numberingProperty := np));
    assert Formatting.ParagraphText(q) == Formatting.ParagraphText(p);
    assert DetectHeadingFromParagraphStyle(q) == DetectHeadingFromParagraphStyle(p);
  }

  /** The number of a heading is either read from the start of its trimmed
      text, followed there by the clean text, or one of the reconstructed
      labels, with the text kept whole. */
  lemma NumberOrigin(p: Docx.Paragraph)
    requires DetectHeadingWithNumbering(p).Some? && DetectHeadingWithNumbering(p).value.number.Some?
    ensures var h := DetectHeadingWithNumbering(p).value;
      (StartsWith(Trim(Formatting.ParagraphText(p)), h.number.value) && h.cleanText.value != [])
      || (h.number.value in {"1", "1.1", "1.1.1", "1.1.1.1"} && h.cleanText == Some(Formatting.ParagraphText(p)))
  {
  }

  // ---------------------------------------------------------------------------
  // Headings by text and formatting
  // ---------------------------------------------------------------------------

  /** `determine_heading_level_from_text`: shorter texts are higher headings. */
  function DetermineHeadingLevelFromText(text: string): (r: U8)
    ensures 1 <= r <= 3
    ensures r == 1 <==> ByteLen(text) < 20
    ensures r == 3 <==> ByteLen(text) >= 40
  {
    if ByteLen(text) < 20 then 1 else if ByteLen(text) < 40 then 2 else 3
  }

  /** A longer text never gets a higher (smaller) level. */
  lemma LevelMonotone(a: string, b: string)
    requires ByteLen(a) <= ByteLen(b)
    ensures DetermineHeadingLevelFromText(a) <= DetermineHeadingLevelFromText(b)
  {
  }

  /** Words that mark running prose. */
  predicate HasProseWord(t: string)
  {
    Contains(t, " the ") || Contains(t, " and ") || Contains(t, " with ") || Contains(t, " for ")
  }

  /** What every text-detected heading is: short, one line, neither a list
      item nor a sentence, without prose words. */
  predicate Candidate(t: string)
  {
    ByteLen(t) < 100 && '\n' !in t && !Lists.IsLikelyListItem(t) && !Cleanup.IsLikelySentence(t) && !HasProseWord(t)
  }

  /** Short bold text without closing punctuation. */
  predicate BoldHeading(t: string, f: TextFormatting)
  {
    f.bold && 5 < ByteLen(t) < 60
    && !EndsWith(t, ".") && !EndsWith(t, ",") && !EndsWith(t, ";") && !EndsWith(t, ":")
  }

  /** `is_uppercase() || is_whitespace() || is_numeric() || is_ascii_punctuation()`,
      with upper case and digits on ASCII. */
  predicate CapsChar(c: char)
  {
    IsAsciiUpper(c) || IsWhitespace(c) || IsAsciiDigit(c) || IsAsciiPunctuation(c)
  }

  /** Medium-length text in capitals. */
  predicate CapsHeading(t: string)
  {
    15 < ByteLen(t) < 50 && forall i :: 0 <= i < |t| ==> CapsChar(t[i])
  }

  predicate KeywordHeading(t: string)
  {
    StartsWith(t, "Chapter ") || StartsWith(t, "Section ") || StartsWith(t, "Part ")
  }

  /** A word of more than 3 bytes, all letters. */
  predicate Meaningful(w: string)
  {
    ByteLen(w) > 3 && forall i :: 0 <= i < |w| ==> IsAsciiAlpha(w[i])
  }

  /** A short capitalised phrase of two to five words, one of them meaningful,
      without a final dot, commas, brackets or colons. */
  predicate PhraseHeading(t: string)
  {
    10 < ByteLen(t) < 40 && !EndsWith(t, ".") && ',' !in t && '(' !in t && ':' !in t
    && 2 <= |Words(t)| <= 5 && (exists i :: 0 <= i < |Words(t)| && Meaningful(Words(t)[i]))
    && t != [] && IsAsciiUpper(t[0])
  }

  /** `detect_heading_from_text`, on the trimmed text. */
  function DetectHeadingFromText(text: string, formatting: TextFormatting): (r: Option<U8>)
    ensures var t := Trim(text);
      r.Some? <==> Candidate(t) && (BoldHeading(t, formatting) || CapsHeading(t) || KeywordHeading(t) || PhraseHeading(t))
    ensures r.Some? ==> 1 <= r.value <= 3
    ensures var t := Trim(text);
      r.Some? && !(CapsHeading(t) && !BoldHeading(t, formatting)) ==> r.value == DetermineHeadingLevelFromText(t)
    ensures var t := Trim(text);
      r.Some? && CapsHeading(t) && !BoldHeading(t, formatting) ==> r.value == 1
  {
    var t := Trim(text);
    if ByteLen(t) < 100 && '\n' !in t then
      if Lists.IsLikelyListItem(t) || Cleanup.IsLikelySentence(t) then None
      else if HasProseWord(t) then None
      else if BoldHeading(t, formatting) then Some(DetermineHeadingLevelFromText(t))
      else if CapsHeading(t) then Some(1)
      else if KeywordHeading(t) then Some(DetermineHeadingLevelFromText(t))
      else if PhraseHeading(t) then Some(DetermineHeadingLevelFromText(t))
      else None
    else None
  }

  /** Formatting only matters through boldness. */
  lemma OnlyBoldMatters(text: string, f: TextFormatting, g: TextFormatting)
    requires f.bold == g.bold
    ensures DetectHeadingFromText(text, f) == DetectHeadingFromText(text, g)
  {
  }

  /** Bold never loses a heading: a text detected without bold is detected
      with it too. */
  lemma BoldKeepsHeading(text: string, f: TextFormatting)
    requires DetectHeadingFromText(text, f.(bold := false)).Some?
    ensures DetectHeadingFromText(text, f.(bold := true)).Some?
  {
  }

  /** A prose word rules a heading out, whatever the formatting. */
  lemma ProseIsNoHeading(text: string, f: TextFormatting)
    requires HasProseWord(Trim(text))
    ensures DetectHeadingFromText(text, f).None?
  {
  }

  /** Long text is never a heading. */
  lemma LongIsNoHeading(text: string, f: TextFormatting)
    requires ByteLen(Trim(text)) >= 100
    ensures DetectHeadingFromText(text, f).None?
  {
  }
}
