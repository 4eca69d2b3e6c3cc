/**
 * Lists typed as text: the shape test for a list paragraph, the nesting level
 * from its indentation, the removal of the bullet or number from its runs,
 * and the pass that groups consecutive list paragraphs into `List` elements.
 */
module Lists {
  import opened Strings
  import opened Models
  import Cleanup

  // ---------------------------------------------------------------------------
  // Recognising a list paragraph
  // ---------------------------------------------------------------------------

  /** `starts_with(char::is_numeric)`, on ASCII digits. */
  predicate StartsWithDigit(t: string)
  {
    t != [] && IsAsciiDigit(t[0])
  }

  /** A number followed, after the first dot, by more than 20 bytes of text. */
  predicate NumberedItem(t: string)
  {
    StartsWithDigit(t) &&
    match Find(t, ".")
    case None => false
    case Some(d) => ByteLen(Trim(t[d + 1..])) > 20
  }

  predicate BulletItem(t: string)
  {
    StartsWith(t, "• ") || StartsWith(t, "- ") || StartsWith(t, "* ")
  }

  /** A letter and a dot, in a text of more than 3 bytes. */
  predicate LetteredItem(t: string)
  {
    ByteLen(t) > 3 && |t| >= 2 && t[1] == '.' && IsAsciiAlpha(t[0])
  }

  /** `is_likely_list_item`. */
  predicate IsLikelyListItem(text: string)
  {
    var t := Trim(text);
    !StartsWith(t, Cleanup.WordListMarker) && (NumberedItem(t) || BulletItem(t) || LetteredItem(t))
  }

  /** Whether a list paragraph counts as ordered: its trimmed text starts with a digit. */
  predicate IsOrderedText(text: string)
  {
    StartsWithDigit(Trim(text))
  }

  /** Recognition by a bullet, on the trimmed text. */
  lemma ItemByBullet(text: string)
    requires BulletItem(Trim(text)) && !StartsWith(Trim(text), Cleanup.WordListMarker)
    ensures IsLikelyListItem(text)
  {
  }

  /** No pattern matches the trimmed text. */
  lemma NoItemBy(text: string)
    requires var t := Trim(text); !NumberedItem(t) && !BulletItem(t) && !LetteredItem(t)
    ensures !IsLikelyListItem(text)
  {
  }

  /** Text that does not start with an underscore does not carry the marker. */
  lemma NoMarker(t: string)
    requires t != [] && t[0] != '_'
    ensures !StartsWith(t, Cleanup.WordListMarker)
  {
    assert Cleanup.WordListMarker[0] == '_';
  }

  /** A bullet, a space and a line of text is a list item. */
  lemma BulletIsItem(bullet: string, x: string)
    requires bullet == "• " || bullet == "- " || bullet == "* "
    requires x != [] && !IsWhitespace(x[|x| - 1])
    ensures IsLikelyListItem(bullet + x)
  {
    var t := bullet + x;
    BulletTrimmed(bullet, x);
    assert t[..2] == bullet;
    NoMarker(t);
    ItemByBullet(t);
  }

  lemma BulletTrimmed(bullet: string, x: string)
    requires bullet == "• " || bullet == "- " || bullet == "* "
    requires x != [] && !IsWhitespace(x[|x| - 1])
    ensures Trim(bullet + x) == bullet + x
  {
    var t := bullet + x;
    assert t[|t| - 1] == x[|x| - 1];
    assert t[0] == bullet[0];
    TrimClean(t);
  }

  /** A text that carries the Word list marker is never taken for a list item. */
  lemma MarkedIsNoItem(w: string, x: string)
    requires forall i :: 0 <= i < |w| ==> IsWhitespace(w[i])
    requires x == [] || !IsWhitespace(x[|x| - 1])
    ensures !IsLikelyListItem(w + Cleanup.WordListMarker + x)
  {
    var m := Cleanup.WordListMarker;
    var t := m + x;
    assert w + m + x == w + t;
    MarkedTrimmed(w, x);
    assert t[..|m|] == m;
    MarkedNoItem(w + t);
  }

  lemma MarkedTrimmed(w: string, x: string)
    requires forall i :: 0 <= i < |w| ==> IsWhitespace(w[i])
    requires x == [] || !IsWhitespace(x[|x| - 1])
    ensures Trim(w + (Cleanup.WordListMarker + x)) == Cleanup.WordListMarker + x
  {
    var t := Cleanup.WordListMarker + x;
    assert t[0] == '_';
    TrimStartSkip(w, t);
    assert t[|t| - 1] != ' ' && !IsWhitespace(t[|t| - 1]) by {
      if x == [] { assert t[|t| - 1] == '_'; } else { assert t[|t| - 1] == x[|x| - 1]; }
    }
    TrimClean(t);
  }

  lemma MarkedNoItem(text: string)
    requires StartsWith(Trim(text), Cleanup.WordListMarker)
    ensures !IsLikelyListItem(text)
  {
  }

  /** A digit and a dot followed by at most 20 bytes of text, such as the
      heading "1. Introduction", is not a list item. */
  lemma ShortNumberNoItem(c: char, x: string)
    requires IsAsciiDigit(c) && x != [] && !IsWhitespace(x[|x| - 1])
    requires ByteLen(Trim(x)) <= 20
    ensures !IsLikelyListItem([c, '.'] + x)
  {
    var t := [c, '.'] + x;
    DigitDotTrimmed(c, x);
    ShortNumberNotNumbered(c, x);
    NoItemBy(t);
  }

  lemma DigitDotTrimmed(c: char, x: string)
    requires IsAsciiDigit(c) && x != [] && !IsWhitespace(x[|x| - 1])
    ensures Trim([c, '.'] + x) == [c, '.'] + x
  {
    var t := [c, '.'] + x;
    assert t[|t| - 1] == x[|x| - 1];
    TrimClean(t);
  }

  lemma ShortNumberNotNumbered(c: char, x: string)
    requires IsAsciiDigit(c) && ByteLen(Trim(x)) <= 20
    ensures !NumberedItem([c, '.'] + x) && !BulletItem([c, '.'] + x) && !LetteredItem([c, '.'] + x)
  {
    var t := [c, '.'] + x;
    assert t[0..][..1] == [c];
    assert !StartsWith(t[0..], ".");
    assert StartsWith(t[1..], ".");
    assert Find(t, ".") == Some(1);
    assert t[2..] == x;
  }

  /** An ASCII string has as many bytes as characters. */
  lemma {:induction false} AsciiByteLen(s: string)
    requires forall i :: 0 <= i < |s| ==> Utf8Len(s[i]) == 1
    ensures ByteLen(s) == |s|
  {
    if s != [] {
      AsciiByteLen(s[1..]);
    }
  }

  // ---------------------------------------------------------------------------
  // Nesting level
  // ---------------------------------------------------------------------------

  /** The white space a text starts with. */
  function LeadingWhitespace(text: string): (w: string)
    ensures |w| + |TrimStart(text)| == |text| && w == text[..|w|]
    ensures forall i :: 0 <= i < |w| ==> IsWhitespace(w[i])
  {
    text[..|text| - |TrimStart(text)|]
  }

  /** `calculate_list_level`: half the number of leading white-space bytes,
      cut to 8 bits by the `as u8` cast. */
  function CalculateListLevel(text: string): U8
  {
    (ByteLen(LeadingWhitespace(text)) / 2) % 256
  }

  /** The level counts the bytes that trimming the start removes. */
  lemma LevelCountsTrimmedBytes(text: string)
    ensures ByteLen(TrimStart(text)) <= ByteLen(text)
    ensures CalculateListLevel(text) == ((ByteLen(text) - ByteLen(TrimStart(text))) / 2) % 256
  {
    LeadingSplit(text);
    ByteLenAppend(LeadingWhitespace(text), TrimStart(text));
    LevelFromBytes(text, LeadingWhitespace(text), TrimStart(text));
  }

  lemma LevelFromBytes(text: string, w: string, u: string)
    requires w + u == text && LeadingWhitespace(text) == w && ByteLen(w + u) == ByteLen(w) + ByteLen(u)
    ensures ByteLen(u) <= ByteLen(text) && CalculateListLevel(text) == ((ByteLen(text) - ByteLen(u)) / 2) % 256
  {
  }

  /** Two spaces per level: an item indented by `Repeat("  ", n)` is at level `n`. */
  lemma IndentLevel(n: nat, x: string)
    requires n < 256 && (x == [] || !IsWhitespace(x[0]))
    ensures CalculateListLevel(Repeat("  ", n) + x) == n
  {
    SpacesWhite(n);
    LeadingOf(Repeat("  ", n), x);
    SpacesByteLen(n);
    LevelOf(Repeat("  ", n) + x, Repeat("  ", n), n);
  }

  lemma LevelOf(text: string, w: string, n: nat)
    requires n < 256 && LeadingWhitespace(text) == w && ByteLen(w) == 2 * n
    ensures CalculateListLevel(text) == n
  {
  }

  /** White space followed by a text that does not start with white space. */
  lemma LeadingOf(w: string, x: string)
    requires forall i :: 0 <= i < |w| ==> IsWhitespace(w[i])
    requires x == [] || !IsWhitespace(x[0])
    ensures LeadingWhitespace(w + x) == w
  {
    TrimStartSkip(w, x);
    assert (w + x)[..|w|] == w;
  }

  lemma SpacesWhite(n: nat)
    ensures forall i :: 0 <= i < |Repeat("  ", n)| ==> IsWhitespace(Repeat("  ", n)[i])
  {
    SpacesAreWhitespace(n);
  }

  lemma {:induction false} SpacesAreWhitespace(n: nat)
    ensures |Repeat("  ", n)| == 2 * n
    ensures forall i :: 0 <= i < |Repeat("  ", n)| ==> Repeat("  ", n)[i] == ' '
  {
    if n > 0 {
      SpacesAreWhitespace(n - 1);
    }
  }

  lemma SpacesByteLen(n: nat)
    ensures ByteLen(Repeat("  ", n)) == 2 * n
  {
    SpacesAreWhitespace(n);
    AsciiByteLen(Repeat("  ", n));
  }

  // ---------------------------------------------------------------------------
  // Removing the bullet or number
  // ---------------------------------------------------------------------------

  function PrefixLength(t: string, d: nat): nat
    requires d < |t|
  {
    if d + 1 < |t| && t[d + 1] == ' ' then d + 2 else d + 1
  }

  /** The bullet, number or letter that `clean_list_item_runs` removes, found in
      the trimmed text of the item; "" when there is none. A number is the
      digits up to the first dot, the dot and one space; a letter is the
      letter, the dot and one space. */
  function ListPrefix(t: string): (p: string)
    ensures StartsWith(t, p)
  {
    if StartsWith(t, "• ") then "• "
    else if StartsWith(t, "- ") then "- "
    else if StartsWith(t, "* ") then "* "
    else
      match Find(t, ".")
      case None => ""
      case Some(d) =>
        if forall k :: 0 <= k < d ==> IsAsciiDigit(t[k]) then t[..PrefixLength(t, d)]
        else if |t| > 2 && t[1] == '.' && IsAsciiAlpha(t[0]) then t[..if t[2] == ' ' then 3 else 2]
        else ""
  }

  /** The runs with their first `n` characters removed: runs that lie wholly
      inside them disappear, the run they end in keeps its formatting and loses
      the white space after them, and the later runs stay as they are. */
  function DropChars(runs: seq<FormattedRun>, n: nat): (r: seq<FormattedRun>)
    ensures |r| <= |runs|
    decreases |runs|
  {
    if runs == [] || n == 0 then runs
    else if |runs[0].text| <= n then DropChars(runs[1..], n - |runs[0].text|)
    else [FormattedRun(TrimStart(runs[0].text[n..]), runs[0].formatting)] + runs[1..]
  }

  /** `clean_list_item_runs` as written: the prefix is found in the trimmed
      text, but its length is counted from the start of the untrimmed runs. */
  function CleanListItemRunsAsWritten(runs: seq<FormattedRun>): (r: seq<FormattedRun>)
  {
    if runs == [] then runs
    else
      var p := ListPrefix(Trim(Texts(runs)));
      if p == [] then runs else DropChars(runs, |p|)
  }

  /** How many characters the evidently intended removal drops: the leading
      white space of the item and then the prefix; none without a prefix. */
  function RemovalCount(text: string): (n: nat)
    ensures n == 0 <==> ListPrefix(Trim(text)) == []
  {
    var p := ListPrefix(Trim(text));
    if p == [] then 0 else |LeadingWhitespace(text)| + |p|
  }

  /** The removal the code evidently intends: the prefix counted after the
      leading white space of the item. */
  function CleanListItemRuns(runs: seq<FormattedRun>): (r: seq<FormattedRun>)
  {
    if runs == [] then runs else DropChars(runs, RemovalCount(Texts(runs)))
  }

  /** `clean_list_item_runs`, with the prefix counted after the leading white space. */
  method CleanListItemRunsLoop(runs: seq<FormattedRun>) returns (result: seq<FormattedRun>)
    ensures result == CleanListItemRuns(runs)
  {
    if runs == [] {
      return runs;
    }
    var n := RemovalCount(Texts(runs));
    CleanByCount(runs, n);
    if n == 0 {
      return runs;
    }
    result := RemoveChars(runs, n);
  }

  /** `clean_list_item_runs` as written, with the prefix counted from the start
      of the untrimmed runs. */
  method CleanListItemRunsAsWrittenLoop(runs: seq<FormattedRun>) returns (result: seq<FormattedRun>)
    ensures result == CleanListItemRunsAsWritten(runs)
  {
    if runs == [] {
      return runs;
    }
    var prefix := ListPrefix(Trim(Texts(runs)));
    if prefix == [] {
      return runs;
    }
    AsWrittenDrops(runs, prefix);
    result := RemoveChars(runs, |prefix|);
  }

  /** The loop of `clean_list_item_runs`: runs are dropped while the count of
      characters still to remove covers them, the run the count ends in is cut
      and trimmed at the start, and the rest are copied. */
  method RemoveChars(runs: seq<FormattedRun>, n: nat) returns (result: seq<FormattedRun>)
    ensures result == DropChars(runs, n)
  {
    result := [];
    var charsToRemove: nat := n;
    var i := 0;
    DropCharsStart(runs, n);
    while i < |runs|
      invariant 0 <= i <= |runs|
      invariant DropChars(runs, n) == result + DropChars(runs[i..], charsToRemove)
    {
      DropCharsCons(runs, i, charsToRemove);
      var run := runs[i];
      if charsToRemove == 0 {
        result := result + [run];
      } else if |run.text| <= charsToRemove {
        charsToRemove := charsToRemove - |run.text|;
      } else {
        var keep := run.text[charsToRemove..];
        result := result + [FormattedRun(TrimStart(keep), run.formatting)];
        charsToRemove := 0;
      }
      i := i + 1;
    }
    DropCharsEnd(runs, charsToRemove);
  }

  lemma DropCharsCons(runs: seq<FormattedRun>, i: nat, n: nat)
    requires i < |runs|
    ensures DropChars(runs[i..], n) ==
      if n == 0 then [runs[i]] + DropChars(runs[i + 1..], 0)
      else if |runs[i].text| <= n then DropChars(runs[i + 1..], n - |runs[i].text|)
      else [FormattedRun(TrimStart(runs[i].text[n..]), runs[i].formatting)] + DropChars(runs[i + 1..], 0)
  {
    assert runs[i..][1..] == runs[i + 1..];
    if runs[i + 1..] != [] {
      assert DropChars(runs[i + 1..], 0) == runs[i + 1..];
    }
  }

  lemma DropCharsStart(runs: seq<FormattedRun>, n: nat)
    ensures DropChars(runs, n) == [] + DropChars(runs[0..], n)
  {
    assert runs[0..] == runs;
  }

  lemma DropCharsEnd(runs: seq<FormattedRun>, n: nat)
    ensures DropChars(runs[|runs|..], n) == []
  {
  }

  /** The text of runs, read one run at a time from the front. */
  lemma TextsCons(run: FormattedRun, rest: seq<FormattedRun>)
    ensures Texts([run] + rest) == run.text + Texts(rest)
  {
    TextsAppend([run], rest);
    assert [run][..0] == [];
  }

  lemma {:induction false} TextsAppend(a: seq<FormattedRun>, b: seq<FormattedRun>)
    ensures Texts(a + b) == Texts(a) + Texts(b)
  {
    if b == [] {
      assert a + b == a;
    } else {
      assert (a + b)[..|a + b| - 1] == a + b[..|b| - 1];
      TextsAppend(a, b[..|b| - 1]);
    }
  }

  /** `d` is what remains of `c` after its first `n` characters and some
      white space after them. */
  predicate RestAfter(c: string, n: nat, d: string)
  {
    n + |d| <= |c| && d == c[|c| - |d|..] && forall k :: n <= k < |c| - |d| ==> IsWhitespace(c[k])
  }

  /** `d` is what is left of `c` once its first `n` characters are removed:
      nothing when `n` covers `c`, otherwise a rest after `n`. */
  predicate Remains(c: string, n: nat, d: string)
  {
    (n >= |c| ==> d == []) && (n < |c| ==> RestAfter(c, n, d))
  }

  /** What is left of the text after `DropChars`: nothing when all of it is
      dropped, otherwise the part after the first `n` characters, less some
      white space at its start. */
  lemma {:induction false} DropCharsText(runs: seq<FormattedRun>, n: nat)
    ensures Remains(Texts(runs), n, Texts(DropChars(runs, n)))
    decreases |runs|
  {
    if runs == [] || n == 0 {
      RestWhole(Texts(runs));
    } else if |runs[0].text| <= n {
      var m := n - |runs[0].text|;
      DropCharsText(runs[1..], m);
      SkipStep(runs, n, m);
    } else {
      CutStep(runs, n);
    }
  }

  lemma SkipStep(runs: seq<FormattedRun>, n: nat, m: nat)
    requires runs != [] && n > 0 && |runs[0].text| <= n && m == n - |runs[0].text|
    requires Remains(Texts(runs[1..]), m, Texts(DropChars(runs[1..], m)))
    ensures Remains(Texts(runs), n, Texts(DropChars(runs, n)))
  {
    TextsFront(runs);
    RestAfterShift(runs[0].text, Texts(runs[1..]), m, Texts(DropChars(runs[1..], m)));
  }

  lemma CutStep(runs: seq<FormattedRun>, n: nat)
    requires runs != [] && 0 < n < |runs[0].text|
    ensures Remains(Texts(runs), n, Texts(DropChars(runs, n)))
  {
    var run := runs[0];
    var rest := runs[1..];
    TextsFront(runs);
    TextsCons(FormattedRun(TrimStart(run.text[n..]), run.formatting), rest);
    RestAfterCut(run.text, Texts(rest), n);
  }

  lemma RestWhole(c: string)
    ensures RestAfter(c, 0, c)
  {
    assert c[|c| - |c|..] == c;
  }

  lemma TextsFront(runs: seq<FormattedRun>)
    requires runs != []
    ensures Texts(runs) == runs[0].text + Texts(runs[1..])
  {
    assert runs == [runs[0]] + runs[1..];
    TextsCons(runs[0], runs[1..]);
  }

  lemma RestAfterShift(a: string, c: string, n: nat, d: string)
    requires Remains(c, n, d)
    ensures Remains(a + c, |a| + n, d)
  {
    if n < |c| {
      assert (a + c)[|a + c| - |d|..] == c[|c| - |d|..];
      forall k | |a| + n <= k < |a + c| - |d|
        ensures IsWhitespace((a + c)[k])
      {
        assert (a + c)[k] == c[k - |a|];
      }
    }
  }

  lemma RestAfterCut(text: string, c: string, n: nat)
    requires n < |text|
    ensures RestAfter(text + c, n, TrimStart(text[n..]) + c)
  {
    CutFacts(text, n);
    RestAfterAppend(text, c, n, TrimStart(text[n..]));
  }

  /** What trimming the start after position `n` keeps, stated on `text` itself. */
  lemma CutFacts(text: string, n: nat)
    requires n < |text|
    ensures RestAfter(text, n, TrimStart(text[n..]))
  {
    var u := text[n..];
    var t := TrimStart(u);
    assert text[|text| - |t|..] == u[|u| - |t|..];
    forall k | n <= k < |text| - |t|
      ensures IsWhitespace(text[k])
    {
      assert text[k] == u[k - n];
    }
  }

  /** A rest stays a rest when the same text is appended to both. */
  lemma RestAfterAppend(text: string, c: string, n: nat, t: string)
    requires RestAfter(text, n, t)
    ensures RestAfter(text + c, n, t + c)
  {
    var whole := text + c;
    assert whole[|whole| - |t + c|..] == t + c by {
      assert whole == text[..|text| - |t|] + t + c;
    }
    forall k | n <= k < |whole| - |t + c|
      ensures IsWhitespace(whole[k])
    {
      assert whole[k] == text[k];
    }
  }

  /** Only the first remaining run may have been cut; it keeps the formatting
      of the run it was cut from, and every later run is an input run. */
  lemma {:induction false} DropCharsRuns(runs: seq<FormattedRun>, n: nat)
    ensures var r := DropChars(runs, n);
      r == [] || exists j :: 0 <= j < |runs| && r[0].formatting == runs[j].formatting && r[1..] == runs[j + 1..]
    decreases |runs|
  {
    var r := DropChars(runs, n);
    if runs != [] {
      if n == 0 {
        assert r[0].formatting == runs[0].formatting && r[1..] == runs[1..];
      } else if |runs[0].text| <= n {
        DropCharsRuns(runs[1..], n - |runs[0].text|);
        if r != [] {
          var j :| 0 <= j < |runs[1..]| && r[0].formatting == runs[1..][j].formatting && r[1..] == runs[1..][j + 1..];
          assert runs[1..][j + 1..] == runs[j + 2..];
          assert r[0].formatting == runs[j + 1].formatting;
        }
      } else {
        assert r[0].formatting == runs[0].formatting && r[1..] == runs[1..];
      }
    }
  }

  /** The bullet of an indented list item survives the removal as written. */
  lemma IndentedBulletKeptAsWritten(f: TextFormatting, text: string)
    requires text == "  - item"
    ensures CleanListItemRunsAsWritten([FormattedRun(text, f)]) == [FormattedRun("- item", f)]
  {
    IndentedBulletPieces(text);
    DashPrefix(Trim(text));
    DashKept(text[2..]);
    OneRunAsWritten(FormattedRun(text, f), "- ", "- item");
  }

  /** Counting after the indentation removes the bullet. */
  lemma IndentedBulletRemoved(f: TextFormatting, text: string)
    requires text == "  - item"
    ensures CleanListItemRuns([FormattedRun(text, f)]) == [FormattedRun("item", f)]
  {
    IndentedBulletPieces(text);
    DashPrefix(Trim(text));
    ItemKept(text[4..]);
    OneRunCleaned(FormattedRun(text, f), "- ", 4, "item");
  }

  lemma OneRunAsWritten(run: FormattedRun, p: string, kept: string)
    requires p != [] && ListPrefix(Trim(run.text)) == p && |p| < |run.text| && TrimStart(run.text[|p|..]) == kept
    ensures CleanListItemRunsAsWritten([run]) == [FormattedRun(kept, run.formatting)]
  {
    SingleRunText(run);
    AsWrittenDrops([run], p);
    DropOneRun(run, |p|);
  }

  lemma OneRunCleaned(run: FormattedRun, p: string, n: nat, kept: string)
    requires p != [] && ListPrefix(Trim(run.text)) == p && n == |LeadingWhitespace(run.text)| + |p|
    requires 0 < n < |run.text| && TrimStart(run.text[n..]) == kept
    ensures CleanListItemRuns([run]) == [FormattedRun(kept, run.formatting)]
  {
    SingleRunText(run);
    CleanByPrefix([run], run.text, p, n);
    DropOneRun(run, n);
  }

  lemma IndentedBulletPieces(text: string)
    requires text == "  - item"
    ensures TrimStart(text) == text[2..] && Trim(text) == text[2..] && |LeadingWhitespace(text)| == 2
    ensures StartsWith(Trim(text), "- ") && !StartsWith(Trim(text), "• ")
  {
    TrimStartSkip(text[..2], text[2..]);
    assert text[..2] + text[2..] == text;
    TrimClean(text[2..]);
  }

  lemma DashKept(s: string)
    requires s == "- item"
    ensures TrimStart(s) == "- item"
  {
  }

  lemma ItemKept(s: string)
    requires s == "item"
    ensures TrimStart(s) == "item"
  {
  }

  lemma SingleRunText(run: FormattedRun)
    ensures Texts([run]) == run.text
  {
    assert [run][..0] == [];
  }

  lemma DashPrefix(t: string)
    requires StartsWith(t, "- ") && !StartsWith(t, "• ")
    ensures ListPrefix(t) == "- "
  {
  }

  lemma DropOneRun(run: FormattedRun, n: nat)
    requires 0 < n < |run.text|
    ensures DropChars([run], n) == [FormattedRun(TrimStart(run.text[n..]), run.formatting)]
  {
    assert [run][1..] == [];
  }

  lemma AsWrittenDrops(runs: seq<FormattedRun>, p: string)
    requires runs != [] && p != [] && ListPrefix(Trim(Texts(runs))) == p
    ensures CleanListItemRunsAsWritten(runs) == DropChars(runs, |p|)
  {
  }

  lemma CleanByCount(runs: seq<FormattedRun>, n: nat)
    requires runs != [] && n == RemovalCount(Texts(runs))
    ensures CleanListItemRuns(runs) == DropChars(runs, n)
  {
  }

  lemma CountOfPrefix(text: string, p: string)
    requires p != [] && ListPrefix(Trim(text)) == p
    ensures RemovalCount(text) == |LeadingWhitespace(text)| + |p|
  {
  }

  /** After the corrected removal the text of the item is what follows the
      prefix in the text without its indentation, less the white space that
      followed the prefix; it is empty exactly when nothing follows. */
  lemma CleanedText(runs: seq<FormattedRun>)
    requires runs != []
    ensures var u := TrimStart(Texts(runs)); var p := ListPrefix(Trim(Texts(runs)));
      p != [] ==> Remains(u, |p|, Texts(CleanListItemRuns(runs)))
  {
    var text := Texts(runs);
    var p := ListPrefix(Trim(text));
    if p != [] {
      var w := LeadingWhitespace(text);
      var u := TrimStart(text);
      LeadingSplit(text);
      var n := |w| + |p|;
      CleanByPrefix(runs, text, p, n);
      DroppedText(runs, w, u, |p|, n);
    }
  }

  /** As written, the text of the item is what follows as many characters of
      the untrimmed text as the prefix has, less the white space after them. */
  lemma CleanedTextAsWritten(runs: seq<FormattedRun>)
    requires runs != []
    ensures var p := ListPrefix(Trim(Texts(runs)));
      p != [] ==> Remains(Texts(runs), |p|, Texts(CleanListItemRunsAsWritten(runs)))
  {
    var p := ListPrefix(Trim(Texts(runs)));
    if p != [] {
      AsWrittenDrops(runs, p);
      DropCharsText(runs, |p|);
    }
  }

  lemma CleanByPrefix(runs: seq<FormattedRun>, text: string, p: string, n: nat)
    requires runs != [] && text == Texts(runs) && p != [] && p == ListPrefix(Trim(text))
    requires n == |LeadingWhitespace(text)| + |p|
    ensures CleanListItemRuns(runs) == DropChars(runs, n)
  {
    CountOfPrefix(text, p);
    CleanByCount(runs, n);
  }

  lemma LeadingSplit(text: string)
    ensures LeadingWhitespace(text) + TrimStart(text) == text
  {
    var k := |LeadingWhitespace(text)|;
    SplitAt(text, k);
  }

  lemma SplitAt(s: string, k: nat)
    requires k <= |s|
    ensures s[..k] + s[k..] == s
  {
  }

  /** Dropping the indentation and `k` more characters leaves what follows
      the first `k` characters of the unindented text, less some white space. */
  lemma DroppedText(runs: seq<FormattedRun>, w: string, u: string, k: nat, n: nat)
    requires w + u == Texts(runs) && n == |w| + k
    ensures Remains(u, k, Texts(DropChars(runs, n)))
  {
    DropCharsText(runs, n);
    RestAfterUnshift(w, u, k, Texts(DropChars(runs, n)));
  }

  lemma RestAfterUnshift(w: string, u: string, n: nat, d: string)
    requires Remains(w + u, |w| + n, d)
    ensures Remains(u, n, d)
  {
    if |w| + n < |w + u| {
      assert (w + u)[|w + u| - |d|..] == u[|u| - |d|..];
      forall k | n <= k < |u| - |d|
        ensures IsWhitespace(u[k])
      {
        assert (w + u)[|w| + k] == u[k];
      }
    }
  }

  // ---------------------------------------------------------------------------
  // Grouping consecutive list paragraphs
  // ---------------------------------------------------------------------------

  /** A paragraph whose text looks like a list item. */
  predicate IsListParagraph(e: DocumentElement)
  {
    e.Paragraph? && IsLikelyListItem(Texts(e.runs))
  }

  /** The list item a list paragraph becomes, with the corrected prefix removal. */
  function ItemOf(runs: seq<FormattedRun>): ListItem
  {
    ListItem(CleanListItemRuns(runs), CalculateListLevel(Texts(runs)))
  }

  /** The input seen piece by piece: an element passed through, or a list item
      of a given kind (ordered or not). */
  datatype Piece = Kept(element: DocumentElement) | Item(item: ListItem, ordered: bool)

  function TagOf(e: DocumentElement): Piece
  {
    if IsListParagraph(e) then Item(ItemOf(e.runs), IsOrderedText(Texts(e.runs))) else Kept(e)
  }

  function Tags(elements: seq<DocumentElement>): (r: seq<Piece>)
    ensures |r| == |elements| && forall i :: 0 <= i < |elements| ==> r[i] == TagOf(elements[i])
  {
    seq(|elements|, i requires 0 <= i < |elements| => TagOf(elements[i]))
  }

  /** An output element of the grouping, with the lists it builds told apart
      from the elements it passes through. */
  datatype Grouped = Passed(element: DocumentElement) | Made(items: seq<ListItem>, ordered: bool)

  function RenderOne(g: Grouped): DocumentElement
  {
    match g
    case Passed(e) => e
    case Made(items, ordered) => List(items, ordered)
  }

  function Render(gs: seq<Grouped>): (r: seq<DocumentElement>)
    ensures |r| == |gs| && forall i :: 0 <= i < |gs| ==> r[i] == RenderOne(gs[i])
  {
    seq(|gs|, i requires 0 <= i < |gs| => RenderOne(gs[i]))
  }

  /** The state of the pass: the output so far, the open list and its kind. */
  datatype GroupState = GroupState(done: seq<Grouped>, current: seq<ListItem>, ordered: bool)

  /** The output with the open list, if any, closed. */
  function Flush(s: GroupState): seq<Grouped>
  {
    if s.current != [] then s.done + [Made(s.current, s.ordered)] else s.done
  }

  /** One piece of the pass: a list item joins the open list unless its kind
      differs, which closes the list first; any other element closes the open
      list and is passed through. */
  function GroupStep(s: GroupState, p: Piece): GroupState
  {
    match p
    case Item(item, ordered) =>
      if s.current != [] && ordered != s.ordered then GroupState(s.done + [Made(s.current, s.ordered)], [item], ordered)
      else GroupState(s.done, s.current + [item], ordered)
    case Kept(e) => GroupState(Flush(s) + [Passed(e)], [], s.ordered)
  }

  function GroupFold(ps: seq<Piece>): GroupState
  {
    if ps == [] then GroupState([], [], false)
    else GroupStep(GroupFold(ps[..|ps| - 1]), ps[|ps| - 1])
  }

  function GroupPieces(ps: seq<Piece>): seq<Grouped>
  {
    Flush(GroupFold(ps))
  }

  /** Specification of `group_list_items`. */
  function Grouping(elements: seq<DocumentElement>): seq<Grouped>
  {
    GroupPieces(Tags(elements))
  }

  /** `group_list_items`. */
  method GroupListItems(elements: seq<DocumentElement>) returns (result: seq<DocumentElement>)
    ensures result == Render(Grouping(elements))
  {
    ghost var tags := Tags(elements);
    result := [];
    var currentItems: seq<ListItem> := [];
    var currentOrdered := false;
    var i := 0;
    while i < |elements|
      invariant 0 <= i <= |elements|
      invariant GroupFold(tags[..i]) == GroupState(GroupFold(tags[..i]).done, currentItems, currentOrdered)
      invariant result == Render(GroupFold(tags[..i]).done)
    {
      ghost var before := GroupFold(tags[..i]);
      FoldSnoc(tags, i);
      var element := elements[i];
      if element.Paragraph? && IsLikelyListItem(Texts(element.runs)) {
        var text := Texts(element.runs);
        var isOrdered := IsOrderedText(text);
        if currentItems != [] && isOrdered != currentOrdered {
          RenderSnoc(before.done, Made(currentItems, currentOrdered));
          result := result + [List(currentItems, currentOrdered)];
          currentItems := [];
        }
        currentOrdered := isOrdered;
        var level := CalculateListLevel(text);
        var cleanRuns := CleanListItemRunsLoop(element.runs);
        currentItems := currentItems + [ListItem(cleanRuns, level)];
      } else {
        if currentItems != [] {
          RenderSnoc(before.done, Made(currentItems, currentOrdered));
          result := result + [List(currentItems, currentOrdered)];
          currentItems := [];
        }
        RenderSnoc(Flush(before), Passed(element));
        result := result + [element];
      }
      i := i + 1;
    }
    FoldWhole(tags);
    if currentItems != [] {
      RenderSnoc(GroupFold(tags).done, Made(currentItems, currentOrdered));
      result := result + [List(currentItems, currentOrdered)];
    }
  }

  lemma FoldSnoc(tags: seq<Piece>, i: nat)
    requires i < |tags|
    ensures GroupFold(tags[..i + 1]) == GroupStep(GroupFold(tags[..i]), tags[i])
  {
    assert tags[..i + 1][..i] == tags[..i];
  }

  lemma FoldWhole(tags: seq<Piece>)
    ensures GroupFold(tags[..|tags|]) == GroupFold(tags)
  {
    assert tags[..|tags|] == tags;
  }

  lemma RenderSnoc(gs: seq<Grouped>, g: Grouped)
    ensures Render(gs + [g]) == Render(gs) + [RenderOne(g)]
  {
  }

  // ---------------------------------------------------------------------------
  // Properties of the grouping
  // ---------------------------------------------------------------------------

  function ItemPieces(items: seq<ListItem>, ordered: bool): (r: seq<Piece>)
    ensures |r| == |items| && forall i :: 0 <= i < |items| ==> r[i] == Item(items[i], ordered)
  {
    seq(|items|, i requires 0 <= i < |items| => Item(items[i], ordered))
  }

  function PiecesOf(g: Grouped): seq<Piece>
  {
    match g
    case Passed(e) => [Kept(e)]
    case Made(items, ordered) => ItemPieces(items, ordered)
  }

  /** The output taken apart again into single elements and single items. */
  function Ungroup(gs: seq<Grouped>): seq<Piece>
  {
    if gs == [] then [] else Ungroup(gs[..|gs| - 1]) + PiecesOf(gs[|gs| - 1])
  }

  lemma UngroupSnoc(gs: seq<Grouped>, g: Grouped)
    ensures Ungroup(gs + [g]) == Ungroup(gs) + PiecesOf(g)
  {
    assert (gs + [g])[..|gs|] == gs;
  }

  /** No list in the output is empty. */
  predicate NoEmptyList(gs: seq<Grouped>)
  {
    forall i :: 0 <= i < |gs| ==> gs[i].Made? ==> gs[i].items != []
  }

  /** Lists that follow each other directly are of different kinds. */
  predicate ListsMaximal(gs: seq<Grouped>)
  {
    forall i :: 0 <= i < |gs| - 1 ==> gs[i].Made? && gs[i + 1].Made? ==> gs[i].ordered != gs[i + 1].ordered
  }

  /** What the pass keeps true of its state. */
  predicate GroupInvariant(s: GroupState, ps: seq<Piece>)
  {
    Ungroup(s.done) + ItemPieces(s.current, s.ordered) == ps
    && NoEmptyList(s.done) && ListsMaximal(s.done)
    && (s.done != [] && s.done[|s.done| - 1].Made? ==> s.current != [] && s.done[|s.done| - 1].ordered != s.ordered)
  }

  lemma {:induction false} GroupFoldInvariant(ps: seq<Piece>)
    ensures GroupInvariant(GroupFold(ps), ps)
  {
    if ps == [] {
      assert ItemPieces([], false) == [];
    } else {
      var init := ps[..|ps| - 1];
      GroupFoldInvariant(init);
      assert init + [ps[|ps| - 1]] == ps;
      GroupStepInvariant(GroupFold(init), init, ps[|ps| - 1]);
    }
  }

  lemma GroupStepInvariant(s: GroupState, init: seq<Piece>, p: Piece)
    requires GroupInvariant(s, init)
    ensures GroupInvariant(GroupStep(s, p), init + [p])
  {
    match p
    case Item(item, ordered) =>
      if s.current != [] && ordered != s.ordered {
        StepCloses(s, item, ordered, init);
      } else {
        StepJoins(s, item, ordered, init);
      }
    case Kept(e) =>
      StepPasses(s, init, e);
  }

  lemma StepCloses(s: GroupState, item: ListItem, ordered: bool, init: seq<Piece>)
    requires GroupInvariant(s, init)
    requires s.current != [] && ordered != s.ordered
    ensures GroupInvariant(GroupState(s.done + [Made(s.current, s.ordered)], [item], ordered), init + [Item(item, ordered)])
  {
    var done := s.done + [Made(s.current, s.ordered)];
    UngroupSnoc(s.done, Made(s.current, s.ordered));
    assert ItemPieces([item], ordered) == [Item(item, ordered)];
    assert ListsMaximal(done);
  }

  lemma StepJoins(s: GroupState, item: ListItem, ordered: bool, init: seq<Piece>)
    requires GroupInvariant(s, init)
    requires !(s.current != [] && ordered != s.ordered)
    ensures GroupInvariant(GroupState(s.done, s.current + [item], ordered), init + [Item(item, ordered)])
  {
    assert ItemPieces(s.current + [item], ordered) == ItemPieces(s.current, s.ordered) + [Item(item, ordered)];
  }

  lemma StepPasses(s: GroupState, init: seq<Piece>, e: DocumentElement)
    requires GroupInvariant(s, init)
    ensures GroupInvariant(GroupState(Flush(s) + [Passed(e)], [], s.ordered), init + [Kept(e)])
  {
    FlushInvariant(s, init);
    var f := Flush(s);
    UngroupSnoc(f, Passed(e));
    assert ItemPieces([], s.ordered) == [];
    assert ListsMaximal(f + [Passed(e)]);
  }

  /** Closing the open list keeps the properties of the finished output. */
  lemma FlushInvariant(s: GroupState, ps: seq<Piece>)
    requires GroupInvariant(s, ps)
    ensures Ungroup(Flush(s)) == ps
    ensures NoEmptyList(Flush(s)) && ListsMaximal(Flush(s))
  {
    if s.current != [] {
      UngroupSnoc(s.done, Made(s.current, s.ordered));
      assert ListsMaximal(s.done + [Made(s.current, s.ordered)]);
    } else {
      assert ItemPieces(s.current, s.ordered) == [];
      assert Ungroup(s.done) + [] == Ungroup(s.done);
    }
  }

  /** Nothing is lost or reordered: taking the output apart gives back every
      passed element and every list item, in input order. */
  lemma GroupRoundTrip(elements: seq<DocumentElement>)
    ensures Ungroup(Grouping(elements)) == Tags(elements)
  {
    GroupFoldInvariant(Tags(elements));
    FlushInvariant(GroupFold(Tags(elements)), Tags(elements));
  }

  /** The pass never builds an empty list, and it never leaves two lists of the
      same kind next to each other. */
  lemma GroupedListsShape(elements: seq<DocumentElement>)
    ensures NoEmptyList(Grouping(elements)) && ListsMaximal(Grouping(elements))
  {
    GroupFoldInvariant(Tags(elements));
    FlushInvariant(GroupFold(Tags(elements)), Tags(elements));
  }
}
