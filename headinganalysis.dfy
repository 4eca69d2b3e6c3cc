/**
 * The scan that decides whether heading numbers are generated automatically:
 * only when no heading has a number typed in its text, there are at least
 * three headings, and they use more than one level or level 1 more than once.
 */
module HeadingAnalysis {
  import opened Strings
  import opened Models
  import Docx
  import Numbering
  import Formatting
  import Heading

  /** What the scan needs of one document child: whether it is a heading
      paragraph, at which style level, and whether its text starts with a
      typed number. */
  datatype ChildInfo = NotHeading | HeadingAt(level: U8, typed: bool)

  function InfoOf(child: Docx.DocumentChild): ChildInfo
  {
    if child.DocParagraph? then
      match Heading.DetectHeadingFromParagraphStyle(child.paragraph)
      case None => NotHeading
      case Some(level) =>
        HeadingAt(level, Numbering.ExtractHeadingNumberFromText(Formatting.ParagraphText(child.paragraph)).Some?)
    else NotHeading
  }

  /** The summaries of the children, in order. */
  function Infos(children: seq<Docx.DocumentChild>): (r: seq<ChildInfo>)
    ensures |r| == |children|
  {
    if children == [] then []
    else Infos(children[..|children| - 1]) + [InfoOf(children[|children| - 1])]
  }

  /** The levels of the headings, in order. */
  function HeadingLevels(infos: seq<ChildInfo>): (r: seq<U8>)
    ensures |r| <= |infos|
  {
    if infos == [] then []
    else
      var last := infos[|infos| - 1];
      var init := HeadingLevels(infos[..|infos| - 1]);
      if last.HeadingAt? then init + [last.level] else init
  }

  predicate AnyTypedNumber(infos: seq<ChildInfo>)
  {
    exists i :: 0 <= i < |infos| && infos[i].HeadingAt? && infos[i].typed
  }

  /** How many of the levels count in `slot`. */
  function CountAt(levels: seq<U8>, slot: nat): (n: nat)
    ensures n <= |levels|
  {
    if levels == [] then 0
    else CountAt(levels[..|levels| - 1], slot) + (if Numbering.SlotOf(levels[|levels| - 1]) == slot then 1 else 0)
  }

  /** How many of the slots below `k` hold a heading. */
  function UsedSlots(levels: seq<U8>, k: nat): (n: nat)
    ensures n <= k
  {
    if k == 0 then 0 else UsedSlots(levels, k - 1) + (if CountAt(levels, k - 1) > 0 then 1 else 0)
  }

  /** The decision on the summaries of the children. */
  predicate Decide(infos: seq<ChildInfo>)
  {
    var levels := HeadingLevels(infos);
    !AnyTypedNumber(infos) && |levels| >= 3 && (UsedSlots(levels, 6) > 1 || CountAt(levels, 0) > 1)
  }

  /** When automatic numbering is switched on. */
  predicate ShouldAutoNumber(children: seq<Docx.DocumentChild>)
  {
    Decide(Infos(children))
  }

  /** `analyze_heading_structure`. */
  method AnalyzeHeadingStructure(children: seq<Docx.DocumentChild>) returns (enable: bool)
    ensures enable == ShouldAutoNumber(children)
  {
    ghost var seen: seq<ChildInfo> := [];
    var headingCount := 0;
    var hasExplicitNumbering := false;
    var levelCounts := new nat[6](_ => 0);
    var i := 0;
    while i < |children|
      invariant 0 <= i <= |children|
      invariant seen == Infos(children[..i])
      invariant Scanned(seen, headingCount, hasExplicitNumbering, levelCounts[..])
    {
      ghost var before := (headingCount, hasExplicitNumbering, levelCounts[..]);
      var info := ClassifyChild(children, i);
      if info.HeadingAt? {
        if info.typed {
          hasExplicitNumbering := true;
        }
        headingCount := headingCount + 1;
        var slot := Numbering.SlotOf(info.level);
        levelCounts[slot] := levelCounts[slot] + 1;
      }
      ScanAdvance(seen, info, before.0, before.1, before.2, headingCount, hasExplicitNumbering, levelCounts[..]);
      seen := seen + [info];
      i := i + 1;
    }
    assert children[..i] == children;
    if hasExplicitNumbering || headingCount < 3 {
      return false;
    }
    var used := Positive(levelCounts[..], 6);
    PositiveIsUsed(seen, levelCounts[..], 6);
    enable := used > 1 || levelCounts[0] > 1;
  }

  /** How many of the first `k` counters are above zero. */
  function Positive(counts: seq<nat>, k: nat): (n: nat)
    requires k <= |counts|
    ensures n <= k
  {
    if k == 0 then 0 else Positive(counts, k - 1) + (if counts[k - 1] > 0 then 1 else 0)
  }

  /** The counters above zero are the slots in use. */
  lemma {:induction false} PositiveIsUsed(seen: seq<ChildInfo>, counts: seq<nat>, k: nat)
    requires |counts| == 6 && k <= 6
    requires forall s :: 0 <= s < 6 ==> counts[s] == CountAt(HeadingLevels(seen), s)
    ensures Positive(counts, k) == UsedSlots(HeadingLevels(seen), k)
  {
    if k > 0 {
      PositiveIsUsed(seen, counts, k - 1);
    }
  }

  /** The state of the scan after the children summarised by `seen`: the
      number of headings, whether one of them has a typed number, and the
      headings counted in each of the six slots. */
  predicate Scanned(seen: seq<ChildInfo>, headingCount: nat, typed: bool, counts: seq<nat>)
  {
    var levels := HeadingLevels(seen);
    headingCount == |levels| && typed == AnyTypedNumber(seen)
    && |counts| == 6 && forall s :: 0 <= s < 6 ==> counts[s] == CountAt(levels, s)
  }

  /** One child moves the scan forward: a heading adds one to the count and
      to its slot and may set the typed-number flag; any other child changes
      nothing. */
  lemma ScanAdvance(seen: seq<ChildInfo>, info: ChildInfo, headingCount: nat, typed: bool, counts: seq<nat>,
                    nextCount: nat, nextTyped: bool, nextCounts: seq<nat>)
    requires Scanned(seen, headingCount, typed, counts)
    requires nextCount == headingCount + (if info.HeadingAt? then 1 else 0)
    requires nextTyped == (typed || (info.HeadingAt? && info.typed))
    requires |nextCounts| == 6
    requires forall s :: 0 <= s < 6 ==>
      nextCounts[s] == counts[s] + (if info.HeadingAt? && Numbering.SlotOf(info.level) == s then 1 else 0)
    ensures Scanned(seen + [info], nextCount, nextTyped, nextCounts)
  {
    ScanStep(seen, info);
  }

  /** The part of the scan that reads one child: its heading style and, for
      a heading, whether its text starts with a typed number. */
  method ClassifyChild(children: seq<Docx.DocumentChild>, i: nat) returns (info: ChildInfo)
    requires i < |children|
    ensures Infos(children[..i + 1]) == Infos(children[..i]) + [info]
  {
    InfosStep(children, i);
    var child := children[i];
    info := NotHeading;
    if child.DocParagraph? {
      var level := Heading.DetectHeadingFromParagraphStyle(child.paragraph);
      if level.Some? {
        var text := Formatting.ExtractParagraphText(child.paragraph);
        var typed := Numbering.ExtractHeadingNumberFromText(text).Some?;
        info := HeadingAt(level.value, typed);
      }
    }
  }

  lemma InfosStep(children: seq<Docx.DocumentChild>, i: nat)
    requires i < |children|
    ensures Infos(children[..i + 1]) == Infos(children[..i]) + [InfoOf(children[i])]
  {
    assert children[..i + 1][..i] == children[..i];
  }

  /** What one more child adds to the heading levels, to the typed-number
      flag and to the counters. */
  lemma ScanStep(seen: seq<ChildInfo>, info: ChildInfo)
    ensures HeadingLevels(seen + [info]) ==
      if info.HeadingAt? then HeadingLevels(seen) + [info.level] else HeadingLevels(seen)
    ensures AnyTypedNumber(seen + [info]) <==> AnyTypedNumber(seen) || (info.HeadingAt? && info.typed)
    ensures forall s :: (CountAt(HeadingLevels(seen + [info]), s) ==
      CountAt(HeadingLevels(seen), s) + (if info.HeadingAt? && Numbering.SlotOf(info.level) == s then 1 else 0))
  {
    var all := seen + [info];
    assert all[..|seen|] == seen;
    if AnyTypedNumber(seen) {
      var k :| 0 <= k < |seen| && seen[k].HeadingAt? && seen[k].typed;
      assert all[k] == seen[k];
    }
    if info.HeadingAt? {
      var levels := HeadingLevels(seen) + [info.level];
      assert levels[..|levels| - 1] == HeadingLevels(seen);
    }
  }

  /** Every heading counts in exactly one slot. */
  lemma {:induction false} SlotsCoverHeadings(levels: seq<U8>, k: nat)
    requires k <= 6
    ensures SumCounts(levels, k) + CountFrom(levels, k) == |levels|
  {
    if k > 0 {
      SlotsCoverHeadings(levels, k - 1);
      CountFromSplit(levels, k - 1);
    } else {
      CountFromZero(levels);
    }
  }

  /** The headings counted in the slots below `k`. */
  function SumCounts(levels: seq<U8>, k: nat): nat
  {
    if k == 0 then 0 else SumCounts(levels, k - 1) + CountAt(levels, k - 1)
  }

  /** The headings whose slot is `k` or more. */
  function CountFrom(levels: seq<U8>, k: nat): (n: nat)
    ensures n <= |levels|
  {
    if levels == [] then 0
    else CountFrom(levels[..|levels| - 1], k) + (if Numbering.SlotOf(levels[|levels| - 1]) >= k then 1 else 0)
  }

  lemma {:induction false} CountFromSplit(levels: seq<U8>, k: nat)
    ensures CountFrom(levels, k) == CountAt(levels, k) + CountFrom(levels, k + 1)
  {
    if levels != [] {
      CountFromSplit(levels[..|levels| - 1], k);
    }
  }

  lemma {:induction false} CountFromZero(levels: seq<U8>)
    ensures CountFrom(levels, 0) == |levels|
  {
    if levels != [] {
      CountFromZero(levels[..|levels| - 1]);
    }
  }

  lemma {:induction false} CountFromSix(levels: seq<U8>)
    ensures CountFrom(levels, 6) == 0
  {
    if levels != [] {
      CountFromSix(levels[..|levels| - 1]);
    }
  }

  /** The six counters add up to the number of headings. */
  lemma CountsAddUp(levels: seq<U8>)
    ensures SumCounts(levels, 6) == |levels|
  {
    SlotsCoverHeadings(levels, 6);
    CountFromSix(levels);
  }

  /** Headings that all sit at one level below the top are never numbered
      automatically, however many there are. */
  lemma OneDeepLevelNotNumbered(infos: seq<ChildInfo>, slot: nat)
    requires 0 < slot < 6
    requires forall i :: 0 <= i < |HeadingLevels(infos)| ==> Numbering.SlotOf(HeadingLevels(infos)[i]) == slot
    ensures !Decide(infos)
  {
    var levels := HeadingLevels(infos);
    OneSlotOnly(levels, slot, 6);
    OtherSlotEmpty(levels, slot, 0);
  }

  lemma {:induction false} OtherSlotEmpty(levels: seq<U8>, slot: nat, other: nat)
    requires other != slot
    requires forall i :: 0 <= i < |levels| ==> Numbering.SlotOf(levels[i]) == slot
    ensures CountAt(levels, other) == 0
  {
    if levels != [] {
      OtherSlotEmpty(levels[..|levels| - 1], slot, other);
    }
  }

  lemma {:induction false} OneSlotOnly(levels: seq<U8>, slot: nat, k: nat)
    requires forall i :: 0 <= i < |levels| ==> Numbering.SlotOf(levels[i]) == slot
    ensures UsedSlots(levels, k) <= 1
    ensures slot >= k ==> UsedSlots(levels, k) == 0
  {
    if k > 0 {
      OneSlotOnly(levels, slot, k - 1);
      if k - 1 != slot {
        OtherSlotEmpty(levels, slot, k - 1);
      }
    }
  }

  /** Three or more headings at two different levels, with no typed numbers,
      switch automatic numbering on. */
  lemma TwoLevelsNumbered(infos: seq<ChildInfo>, i: nat, j: nat)
    requires !AnyTypedNumber(infos) && |HeadingLevels(infos)| >= 3
    requires i < |HeadingLevels(infos)| && j < |HeadingLevels(infos)|
    requires Numbering.SlotOf(HeadingLevels(infos)[i]) != Numbering.SlotOf(HeadingLevels(infos)[j])
    ensures Decide(infos)
  {
    var levels := HeadingLevels(infos);
    var a := Numbering.SlotOf(levels[i]);
    var b := Numbering.SlotOf(levels[j]);
    CountPositive(levels, i);
    CountPositive(levels, j);
    TwoUsed(levels, a, b, 6);
  }

  lemma {:induction false} CountPositive(levels: seq<U8>, i: nat)
    requires i < |levels|
    ensures CountAt(levels, Numbering.SlotOf(levels[i])) > 0
  {
    if i < |levels| - 1 {
      CountPositive(levels[..|levels| - 1], i);
      assert levels[..|levels| - 1][i] == levels[i];
    }
  }

  lemma {:induction false} TwoUsed(levels: seq<U8>, a: nat, b: nat, k: nat)
    requires a != b && CountAt(levels, a) > 0 && CountAt(levels, b) > 0
    ensures UsedSlots(levels, k) >= (if a < k then 1 else 0) + (if b < k then 1 else 0)
  {
    if k > 0 {
      TwoUsed(levels, a, b, k - 1);
    }
  }

  /** A typed number anywhere switches automatic numbering off. */
  lemma TypedNumberDisables(infos: seq<ChildInfo>, i: nat)
    requires i < |infos| && infos[i].HeadingAt? && infos[i].typed
    ensures !Decide(infos)
  {
  }
}
