/**
 * Numbering for lists and headings: the per-(numId, level) list counters of
 * `DocumentNumberingManager`, the label formats (decimal, letters, roman
 * numerals), the six-slot `HeadingNumberTracker`, and the recognition of a
 * number typed at the start of a heading's text.
 */
module Numbering {
  import opened Strings
  import opened Models

  datatype NumberingFormat =
    | Decimal
    | LowerLetter
    | UpperLetter
    | LowerRoman
    | UpperRoman
    | ParenLowerLetter
    | ParenLowerRoman
    | Bullet

  /** What the heading detection found: its level, its number, and the text
      with the number removed. */
  datatype HeadingInfo = HeadingInfo(level: U8, number: Option<string>, cleanText: Option<string>)

  // ---------------------------------------------------------------------------
  // Roman numerals
  // ---------------------------------------------------------------------------

  const RomanValues: seq<nat> := [1000, 900, 500, 400, 100, 90, 50, 40, 10, 9, 5, 4, 1]
  const RomanSymbols: seq<string> := ["M", "CM", "D", "CD", "C", "XC", "L", "XL", "X", "IX", "V", "IV", "I"]

  /** The table rows the greedy conversion picks for `n`, trying rows `i..`
      in order and taking a row as often as its value still fits. */
  function RomanRows(n: nat, i: nat): (ks: seq<nat>)
    requires i <= 13
    ensures forall j :: 0 <= j < |ks| ==> i <= ks[j] < 13
    decreases 13 - i, n
  {
    if i == 13 then []
    else if n >= RomanValues[i] then [i] + RomanRows(n - RomanValues[i], i)
    else RomanRows(n, i + 1)
  }

  function Spell(ks: seq<nat>): string
    requires forall j :: 0 <= j < |ks| ==> ks[j] < 13
  {
    if ks == [] then "" else RomanSymbols[ks[0]] + Spell(ks[1..])
  }

  function RowsValue(ks: seq<nat>): nat
    requires forall j :: 0 <= j < |ks| ==> ks[j] < 13
  {
    if ks == [] then 0 else RomanValues[ks[0]] + RowsValue(ks[1..])
  }

  /** The subtractive Roman numeral of `n` (`to_roman`). */
  function Roman(n: nat): string
  {
    Spell(RomanRows(n, 0))
  }

  /** `to_roman`: a greedy loop over the value table. */
  method ToRoman(num: nat) returns (result: string)
    ensures result == Roman(num)
  {
    result := "";
    var n := num;
    var i := 0;
    while i < 13
      invariant 0 <= i <= 13
      invariant result + Spell(RomanRows(n, i)) == Roman(num)
    {
      while n >= RomanValues[i]
        invariant result + Spell(RomanRows(n, i)) == Roman(num)
        decreases n
      {
        assert Spell(RomanRows(n, i)) == RomanSymbols[i] + Spell(RomanRows(n - RomanValues[i], i));
        result := result + RomanSymbols[i];
        n := n - RomanValues[i];
      }
      i := i + 1;
    }
  }

  /** The symbols the conversion emits add up to the number. */
  lemma {:induction false} RomanRowsValue(n: nat, i: nat)
    requires i <= 12
    ensures RowsValue(RomanRows(n, i)) == n
    decreases 13 - i, n
  {
    if n >= RomanValues[i] {
      RomanRowsValue(n - RomanValues[i], i);
    } else if i < 12 {
      RomanRowsValue(n, i + 1);
    }
  }

  /** Symbols are emitted from the largest value down. */
  lemma {:induction false} RomanRowsDescending(n: nat, i: nat)
    requires i <= 13
    ensures forall a, b :: 0 <= a < b < |RomanRows(n, i)| ==> RomanRows(n, i)[a] <= RomanRows(n, i)[b]
    decreases 13 - i, n
  {
    if i < 13 {
      if n >= RomanValues[i] {
        RomanRowsDescending(n - RomanValues[i], i);
      } else {
        RomanRowsDescending(n, i + 1);
      }
    }
  }

  lemma RomanValueIsInput(n: nat)
    ensures RowsValue(RomanRows(n, 0)) == n
  {
    RomanRowsValue(n, 0);
  }

  lemma RomanExamples()
    ensures Roman(0) == ""
    ensures Roman(4) == "IV"
    ensures Roman(9) == "IX"
    ensures Roman(40) == "XL"
    ensures Roman(1994) == "MCMXCIV"
  {
    RomanSkip(0, 0, 13);
    RomanFour();
    RomanNine();
    RomanForty();
    RomanYear();
  }

  lemma RomanFour()
    ensures Roman(4) == "IV"
  {
    RomanFourRows(4);
    assert Spell([11]) == "IV";
  }

  lemma RomanNine()
    ensures Roman(9) == "IX"
  {
    RomanNineRows(9);
    assert Spell([9]) == "IX";
  }

  lemma RomanForty()
    ensures Roman(40) == "XL"
  {
    RomanFortyRows(40);
    assert Spell([7]) == "XL";
  }

  lemma RomanYear()
    ensures Roman(1994) == "MCMXCIV"
  {
    RomanYearRows(1994, 994, 94, 4);
    RomanYearSpell();
  }

  /** One greedy step: a row whose value fits is taken. */
  lemma RomanTake(n: nat, i: nat, m: nat)
    requires i < 13 && n >= RomanValues[i] && m == n - RomanValues[i]
    ensures RomanRows(n, i) == [i] + RomanRows(m, i)
  {
  }

  /** The last row taken leaves nothing. */
  lemma RomanLast(n: nat, i: nat)
    requires i < 13 && n == RomanValues[i]
    requires forall k :: 0 <= k < i ==> n < RomanValues[k]
    ensures RomanRows(n, 0) == [i]
  {
    RomanSkip(n, 0, i);
    RomanTake(n, i, 0);
    RomanSkip(0, i, 13);
  }

  lemma RomanFourRows(n: nat)
    requires n == 4
    ensures RomanRows(n, 0) == [11] && RomanRows(n, 5) == [11]
  {
    RomanLast(n, 11);
    RomanSkip(n, 5, 11);
  }

  lemma RomanNineRows(n: nat)
    requires n == 9
    ensures RomanRows(n, 0) == [9]
  {
    RomanLast(n, 9);
  }

  lemma RomanFortyRows(n: nat)
    requires n == 40
    ensures RomanRows(n, 0) == [7]
  {
    RomanLast(n, 7);
  }

  lemma RomanYearRows(n: nat, b: nat, c: nat, d: nat)
    requires n == 1994 && b == 994 && c == 94 && d == 4
    ensures RomanRows(n, 0) == [0, 1, 5, 11]
  {
    RomanTake(n, 0, b);
    RomanSkip(b, 0, 1);
    RomanTake(b, 1, c);
    RomanSkip(c, 1, 5);
    RomanTake(c, 5, d);
    RomanFourRows(d);
    assert RomanRows(c, 1) == [5, 11];
    assert RomanRows(b, 0) == [1, 5, 11];
  }

  lemma RomanYearSpell()
    ensures Spell([0, 1, 5, 11]) == "MCMXCIV"
  {
    assert Spell([11]) == "IV";
    assert Spell([5, 11]) == "XC" + "IV";
    assert Spell([1, 5, 11]) == "CM" + "XC" + "IV";
  }

  /** Rows whose value exceeds `n` are passed over. */
  lemma {:induction false} RomanSkip(n: nat, i: nat, j: nat)
    requires i <= j <= 13
    requires forall k :: i <= k < j ==> n < RomanValues[k]
    ensures RomanRows(n, i) == RomanRows(n, j)
    decreases j - i
  {
    if i < j {
      RomanSkip(n, i + 1, j);
    }
  }

  // ---------------------------------------------------------------------------
  // Label formats
  // ---------------------------------------------------------------------------

  /** The ASCII lower-case form of a Roman numeral (`to_lowercase`). */
  function LowerRomanOf(n: nat): string { Lower(Roman(n)) }

  function Letter(base: char, counter: nat): char
    requires 1 <= counter <= 26
    requires base == 'a' || base == 'A'
  {
    (base as int + counter - 1) as char
  }

  /** `format_number`. The counter is at least 1: the manager increments before
      it formats. */
  function FormatNumber(counter: nat, format: NumberingFormat): string
    requires counter >= 1
  {
    match format
    case Decimal => NatToString(counter) + ". "
    case LowerLetter =>
      if counter <= 26 then [Letter('a', counter)] + ". " else NatToString(counter) + ". "
    case LowerRoman => LowerRomanOf(counter) + ". "
    case UpperLetter =>
      if counter <= 26 then [Letter('A', counter)] + ". " else NatToString(counter) + ". "
    case UpperRoman => Roman(counter) + ". "
    case ParenLowerLetter =>
      if counter <= 26 then "(" + [Letter('a', counter)] + ")" else "(" + NatToString(counter) + ")"
    case ParenLowerRoman => "(" + LowerRomanOf(counter) + ")"
    case Bullet => "* "
  }

  /** Letter formats give the counter's letter of the alphabet up to 26, and
      the decimal number beyond. */
  lemma LetterFormats(counter: nat)
    requires counter >= 1
    ensures counter <= 26 ==>
      var s := FormatNumber(counter, LowerLetter);
      |s| == 3 && IsAsciiLower(s[0]) && s[0] as int - 'a' as int == counter - 1 && s[1..] == ". "
    ensures counter <= 26 ==>
      var s := FormatNumber(counter, UpperLetter);
      |s| == 3 && IsAsciiUpper(s[0]) && s[0] as int - 'A' as int == counter - 1 && s[1..] == ". "
    ensures counter <= 26 ==>
      var s := FormatNumber(counter, ParenLowerLetter);
      |s| == 3 && s[0] == '(' && IsAsciiLower(s[1]) && s[1] as int - 'a' as int == counter - 1 && s[2] == ')'
    ensures counter > 26 ==>
      FormatNumber(counter, LowerLetter) == NatToString(counter) + ". " &&
      FormatNumber(counter, UpperLetter) == NatToString(counter) + ". " &&
      FormatNumber(counter, ParenLowerLetter) == "(" + NatToString(counter) + ")"
  {
  }

  lemma LetterExamples()
    ensures FormatNumber(1, LowerLetter) == "a. "
    ensures FormatNumber(26, UpperLetter) == "Z. "
    ensures FormatNumber(27, LowerLetter) == "27. "
    ensures FormatNumber(27, ParenLowerLetter) == "(27)"
    ensures FormatNumber(4, ParenLowerRoman) == "(iv)"
  {
    TwentySeven();
    ParenRomanFour();
  }

  lemma TwentySeven()
    ensures FormatNumber(27, LowerLetter) == "27. "
    ensures FormatNumber(27, ParenLowerLetter) == "(27)"
  {
    assert NatToString(27) == NatToString(2) + [DigitChar(7)];
  }

  lemma ParenRomanFour()
    ensures FormatNumber(4, ParenLowerRoman) == "(iv)"
  {
    RomanFour();
  }

  /** The decimal label reads back as the counter. */
  lemma DecimalLabelValue(counter: nat)
    requires counter >= 1
    ensures
      var s := FormatNumber(counter, Decimal);
      |s| >= 3 && s[|s| - 2..] == ". " &&
      (forall i :: 0 <= i < |s| - 2 ==> IsAsciiDigit(s[i])) &&
      ParseDigits(s[..|s| - 2]) == counter
  {
    var s := FormatNumber(counter, Decimal);
    assert s[..|s| - 2] == NatToString(counter);
    ParseNatToString(counter);
  }

  // ---------------------------------------------------------------------------
  // Document numbering manager
  // ---------------------------------------------------------------------------

  type NumberingKey = (int, U8)
  type NumberingCounters = map<NumberingKey, nat>

  function CounterAt(m: NumberingCounters, key: NumberingKey): nat
  {
    if key in m then m[key] else 0
  }

  /** The counters with every level of `numId` deeper than `level` removed. */
  function ResetDeeper(m: NumberingCounters, numId: int, level: U8): NumberingCounters
  {
    map k | k in m && !(k.0 == numId && k.1 > level) :: m[k]
  }

  /** `format_hierarchical_number`: `(4, 1)` is labelled "parent.child. ";
      every other key uses its own format. */
  function FormatHierarchical(m: NumberingCounters, numId: int, level: U8, counter: nat,
                              format: NumberingFormat): string
    requires counter >= 1
  {
    if numId == 4 && level == 1 then
      var parts := (if (numId, 0) in m then [NatToString(m[(numId, 0)])] else []) + [NatToString(counter)];
      Join(parts, ".") + ". "
    else
      FormatNumber(counter, format)
  }

  /** The counters and label after one `generate_number` call. */
  function Generate(m: NumberingCounters, numId: int, level: U8, format: NumberingFormat)
    : (NumberingCounters, string)
  {
    var c := CounterAt(m, (numId, level)) + 1;
    var m' := ResetDeeper(m[(numId, level) := c], numId, level);
    (m', FormatHierarchical(m', numId, level, c, format))
  }

  class DocumentNumberingManager {
    var counters: NumberingCounters

    constructor ()
      ensures counters == map[]
    {
      counters := map[];
    }

    /** `generate_number`: bump the counter of `(numId, level)`, forget the
        deeper levels of that list, and label the new value. */
    method GenerateNumber(numId: int, level: U8, format: NumberingFormat) returns (result: string)
      modifies this
      ensures (counters, result) == Generate(old(counters), numId, level, format)
    {
      var key := (numId, level);
      var counterValue := CounterAt(counters, key) + 1;
      counters := counters[key := counterValue];
      ResetDeeperLevels(numId, level);
      result := FormatHierarchical(counters, numId, level, counterValue, format);
    }

    /** `reset_deeper_levels`: collect the keys to drop, then remove them one by one. */
    method ResetDeeperLevels(numId: int, currentLevel: U8)
      modifies this
      ensures counters == ResetDeeper(old(counters), numId, currentLevel)
    {
      var keysToReset := set k | k in counters && k.0 == numId && k.1 > currentLevel;
      var remaining := keysToReset;
      while remaining != {}
        invariant remaining <= keysToReset
        invariant forall k :: k in counters <==>
          k in old(counters) && (k !in keysToReset || k in remaining)
        invariant forall k :: k in counters ==> counters[k] == old(counters)[k]
        decreases |remaining|
      {
        var key :| key in remaining;
        counters := counters - {key};
        remaining := remaining - {key};
      }
      assert forall k :: k in counters <==> k in ResetDeeper(old(counters), numId, currentLevel);
    }
  }

  /** `generate_number` raises the counter of its key by exactly one, a missing
      key counting as zero. */
  lemma GenerateIncrements(m: NumberingCounters, numId: int, level: U8, format: NumberingFormat)
    ensures
      var m' := Generate(m, numId, level, format).0;
      (numId, level) in m' && m'[(numId, level)] == CounterAt(m, (numId, level)) + 1
  {
  }

  /** After `generate_number` the deeper levels of the same list are gone and
      every other key keeps its value. */
  lemma GenerateResetsDeeper(m: NumberingCounters, numId: int, level: U8, format: NumberingFormat)
    ensures
      var m' := Generate(m, numId, level, format).0;
      (forall l: U8 :: l > level ==> (numId, l) !in m') &&
      (forall k: NumberingKey :: k != (numId, level) && !(k.0 == numId && k.1 > level) ==>
         (k in m' <==> k in m) && (k in m ==> m'[k] == m[k]))
  {
  }

  /** Away from the hard-wired `(4, 1)` key, a decimal list counts 1, 2, 3. */
  lemma DecimalSequence(numId: int, level: U8)
    requires !(numId == 4 && level == 1)
    ensures
      var (m1, s1) := Generate(map[], numId, level, Decimal);
      var (m2, s2) := Generate(m1, numId, level, Decimal);
      var (m3, s3) := Generate(m2, numId, level, Decimal);
      s1 == "1. " && s2 == "2. " && s3 == "3. "
  {
    var (m1, s1) := Generate(map[], numId, level, Decimal);
    GenerateIncrements(map[], numId, level, Decimal);
    var (m2, s2) := Generate(m1, numId, level, Decimal);
    GenerateIncrements(m1, numId, level, Decimal);
    var (m3, s3) := Generate(m2, numId, level, Decimal);
    GenerateIncrements(m2, numId, level, Decimal);
  }

  /** Level 1 of list 4 is labelled with its parent's counter in front when the
      parent exists, and on its own otherwise. */
  lemma HierarchicalLabel(m: NumberingCounters, counter: nat, format: NumberingFormat)
    requires counter >= 1
    ensures (4, 0) in m ==>
      FormatHierarchical(m, 4, 1, counter, format) == NatToString(m[(4, 0)]) + "." + NatToString(counter) + ". "
    ensures (4, 0) !in m ==>
      FormatHierarchical(m, 4, 1, counter, format) == NatToString(counter) + ". "
  {
    if (4, 0) in m {
      var parts := [NatToString(m[(4, 0)])] + [NatToString(counter)];
      assert Join(parts, ".") == parts[0] + "." + Join(parts[1..], ".");
    }
  }

  /** Resetting levels that hold no counter changes nothing. */
  lemma ResetNothing(m: NumberingCounters, numId: int, level: U8)
    requires forall k :: k in m ==> !(k.0 == numId && k.1 > level)
    ensures ResetDeeper(m, numId, level) == m
  {
  }

  lemma FirstParent()
    ensures Generate(map[], 4, 0, Decimal) == (map[(4, 0) := 1], NatToString(1) + ". ")
  {
    ResetNothing(map[(4, 0) := 1], 4, 0);
  }

  /** The first child of parent `a` in list 4 is labelled "a.1. ". */
  lemma FirstChild(a: nat)
    ensures Generate(map[(4, 0) := a], 4, 1, Decimal)
      == (map[(4, 0) := a, (4, 1) := 1], NatToString(a) + "." + NatToString(1) + ". ")
  {
    var m' := map[(4, 0) := a, (4, 1) := 1];
    assert map[(4, 0) := a][(4, 1) := 1] == m';
    ResetNothing(m', 4, 1);
    HierarchicalLabel(m', 1, Decimal);
  }

  /** The next child of parent `a` after child `b` is labelled "a.(b+1). ". */
  lemma NextChild(a: nat, b: nat)
    ensures Generate(map[(4, 0) := a, (4, 1) := b], 4, 1, Decimal)
      == (map[(4, 0) := a, (4, 1) := b + 1], NatToString(a) + "." + NatToString(b + 1) + ". ")
  {
    var m' := map[(4, 0) := a, (4, 1) := b + 1];
    assert map[(4, 0) := a, (4, 1) := b][(4, 1) := b + 1] == m';
    ResetNothing(m', 4, 1);
    HierarchicalLabel(m', b + 1, Decimal);
  }

  /** A new parent forgets the children of the old one. */
  lemma NextParent(a: nat, b: nat)
    ensures Generate(map[(4, 0) := a, (4, 1) := b], 4, 0, Decimal)
      == (map[(4, 0) := a + 1], NatToString(a + 1) + ". ")
  {
    var m := map[(4, 0) := a, (4, 1) := b][(4, 0) := a + 1];
    assert ResetDeeper(m, 4, 0) == map[(4, 0) := a + 1];
  }

  lemma SequenceLabels()
    ensures NatToString(1) + ". " == "1. " && NatToString(2) + ". " == "2. "
    ensures NatToString(1) + "." + NatToString(1) + ". " == "1.1. "
    ensures NatToString(1) + "." + NatToString(2) + ". " == "1.2. "
    ensures NatToString(2) + "." + NatToString(1) + ". " == "2.1. "
  {
    assert NatToString(1) == "1" && NatToString(2) == "2";
  }

  /** "1." then "1.1", "1.2" under it, and a new parent "2." restarts its children. */
  lemma HierarchicalSequence()
    ensures
      var (m1, s1) := Generate(map[], 4, 0, Decimal);
      var (m2, s2) := Generate(m1, 4, 1, Decimal);
      var (m3, s3) := Generate(m2, 4, 1, Decimal);
      var (m4, s4) := Generate(m3, 4, 0, Decimal);
      var (m5, s5) := Generate(m4, 4, 1, Decimal);
      s1 == "1. " && s2 == "1.1. " && s3 == "1.2. " && s4 == "2. " && s5 == "2.1. "
  {
    FirstParent();
    FirstChild(1);
    NextChild(1, 1);
    NextParent(1, 2);
    FirstChild(2);
    SequenceLabels();
  }

  // ---------------------------------------------------------------------------
  // Heading number tracker
  // ---------------------------------------------------------------------------

  /** The slot a heading level counts in: level 0 and 1 share slot 0, levels
      above 6 share slot 5. */
  function SlotOf(level: U8): (slot: nat)
    ensures slot < 6
  {
    if level <= 1 then 0 else if level - 1 > 5 then 5 else level - 1
  }

  /** The slot counters after counting one heading at `slot`. */
  function Bump(cs: seq<nat>, slot: nat): (r: seq<nat>)
    requires |cs| == 6 && slot < 6
    ensures |r| == 6
  {
    cs[..slot] + [cs[slot] + 1] + seq(5 - slot, _ => 0)
  }

  /** The non-zero counters rendered in decimal. */
  function NonZeroParts(cs: seq<nat>): seq<string>
  {
    if cs == [] then []
    else NonZeroParts(cs[..|cs| - 1]) + (if cs[|cs| - 1] > 0 then [NatToString(cs[|cs| - 1])] else [])
  }

  /** The label of a heading at `slot`: the non-zero counters up to it, dot-joined. */
  function TrackerLabel(cs: seq<nat>, slot: nat): string
    requires slot < |cs|
  {
    Join(NonZeroParts(cs[..slot + 1]), ".")
  }

  /** One `get_number` call on enabled counters. */
  function TrackerStep(cs: seq<nat>, level: U8): (seq<nat>, string)
    requires |cs| == 6
  {
    var cs' := Bump(cs, SlotOf(level));
    (cs', TrackerLabel(cs', SlotOf(level)))
  }

  class HeadingNumberTracker {
    var counters: array<nat>
    var autoNumberingEnabled: bool

    ghost predicate Valid()
      reads this
    {
      counters.Length == 6
    }

    constructor ()
      ensures Valid() && fresh(counters)
      ensures counters[..] == [0, 0, 0, 0, 0, 0] && !autoNumberingEnabled
    {
      counters := new nat[6](_ => 0);
      autoNumberingEnabled := false;
    }

    method EnableAutoNumbering()
      modifies this
      ensures autoNumberingEnabled && counters == old(counters)
    {
      autoNumberingEnabled := true;
    }

    /** `get_number`: empty while auto-numbering is off; otherwise count the
        heading in its slot, clear the deeper slots and label it. */
    method GetNumber(level: U8) returns (result: string)
      requires Valid()
      modifies counters
      ensures Valid()
      ensures !autoNumberingEnabled ==> result == "" && counters[..] == old(counters[..])
      ensures autoNumberingEnabled ==> (counters[..], result) == TrackerStep(old(counters[..]), level)
    {
      if !autoNumberingEnabled {
        return "";
      }
      var levelIndex := SlotOf(level);
      counters[levelIndex] := counters[levelIndex] + 1;
      var i := levelIndex + 1;
      while i < 6
        invariant levelIndex + 1 <= i <= 6
        invariant forall j :: 0 <= j < levelIndex ==> counters[j] == old(counters[j])
        invariant counters[levelIndex] == old(counters[levelIndex]) + 1
        invariant forall j :: levelIndex < j < i ==> counters[j] == 0
      {
        counters[i] := 0;
        i := i + 1;
      }
      assert counters[..] == Bump(old(counters[..]), levelIndex);
      var parts: seq<string> := [];
      i := 0;
      while i <= levelIndex
        invariant 0 <= i <= levelIndex + 1
        invariant parts == NonZeroParts(counters[..i])
      {
        assert counters[..i + 1][..i] == counters[..i];
        if counters[i] > 0 {
          parts := parts + [NatToString(counters[i])];
        }
        i := i + 1;
      }
      result := Join(parts, ".");
    }
  }

  lemma LabelOfOne(a: nat)
    requires a > 0
    ensures TrackerLabel([a, 0, 0, 0, 0, 0], 0) == NatToString(a)
  {
    var cs := [a, 0, 0, 0, 0, 0];
    assert cs[..1] == [a];
    assert [a][..0] == [];
    assert NonZeroParts([a]) == NonZeroParts([]) + [NatToString(a)];
    assert Join([NatToString(a)], ".") == NatToString(a);
  }

  lemma LabelOfTwo(a: nat, b: nat)
    requires a > 0 && b > 0
    ensures TrackerLabel([a, b, 0, 0, 0, 0], 1) == NatToString(a) + "." + NatToString(b)
  {
    var cs := [a, b, 0, 0, 0, 0];
    assert cs[..2] == [a, b];
    assert [a, b][..1] == [a];
    assert [a][..0] == [];
    assert NonZeroParts([a]) == NonZeroParts([]) + [NatToString(a)];
    assert NonZeroParts([a, b]) == NonZeroParts([a]) + [NatToString(b)];
    var parts := [NatToString(a), NatToString(b)];
    assert Join(parts, ".") == parts[0] + "." + Join(parts[1..], ".");
  }

  /** Counting headings at levels 1, 2, 2, 1, 2 labels them 1, 1.1, 1.2, 2, 2.1. */
  lemma TrackerSequence()
    ensures
      var (c1, s1) := TrackerStep([0, 0, 0, 0, 0, 0], 1);
      var (c2, s2) := TrackerStep(c1, 2);
      var (c3, s3) := TrackerStep(c2, 2);
      var (c4, s4) := TrackerStep(c3, 1);
      var (c5, s5) := TrackerStep(c4, 2);
      s1 == "1" && s2 == "1.1" && s3 == "1.2" && s4 == "2" && s5 == "2.1"
  {
    TrackerStepTop([0, 0, 0, 0, 0, 0], 1);
    TrackerStepSecond(1, 0);
    TrackerStepSecond(1, 1);
    TrackerStepTop([1, 2, 0, 0, 0, 0], 2);
    TrackerStepSecond(2, 0);
  }

  lemma TrackerStepTop(cs: seq<nat>, a: nat)
    requires |cs| == 6 && a > 0 && a < 10 && cs[0] == a - 1
    ensures TrackerStep(cs, 1) == ([a, 0, 0, 0, 0, 0], [DigitChar(a)])
  {
    assert Bump(cs, 0) == [a, 0, 0, 0, 0, 0];
    LabelOfOne(a);
  }

  lemma TrackerStepSecond(a: nat, b: nat)
    requires 0 < a < 10 && b < 9
    ensures TrackerStep([a, b, 0, 0, 0, 0], 2) == ([a, b + 1, 0, 0, 0, 0], [DigitChar(a), '.', DigitChar(b + 1)])
  {
    assert Bump([a, b, 0, 0, 0, 0], 1) == [a, b + 1, 0, 0, 0, 0];
    LabelOfTwo(a, b + 1);
    assert NatToString(a) == [DigitChar(a)] && NatToString(b + 1) == [DigitChar(b + 1)];
    assert [DigitChar(a)] + "." + [DigitChar(b + 1)] == [DigitChar(a), '.', DigitChar(b + 1)];
  }

  /** The counted slot is non-zero after the step, so an enabled tracker never
      returns an empty label; deeper slots are zero. */
  lemma TrackerStepShape(cs: seq<nat>, level: U8)
    requires |cs| == 6
    ensures
      var (cs', result) := TrackerStep(cs, level);
      var slot := SlotOf(level);
      cs'[slot] == cs[slot] + 1 && result != "" &&
      (forall i :: slot < i < 6 ==> cs'[i] == 0) &&
      (forall i :: 0 <= i < slot ==> cs'[i] == cs[i])
  {
    var (cs', result) := TrackerStep(cs, level);
    var slot := SlotOf(level);
    var pre := cs'[..slot + 1];
    assert pre[..|pre| - 1] == cs'[..slot];
    JoinNonEmpty(NonZeroParts(pre), ".");
  }

  lemma {:induction false} JoinNonEmpty(parts: seq<string>, sep: string)
    requires |parts| > 0 && parts[|parts| - 1] != ""
    ensures Join(parts, sep) != ""
  {
    if |parts| > 1 {
      JoinNonEmpty(parts[1..], sep);
    }
  }

  // ---------------------------------------------------------------------------
  // Numbers typed into heading text
  // ---------------------------------------------------------------------------

  predicate IsDigitOrDot(c: char) { IsAsciiDigit(c) || c == '.' }
  predicate IsRomanLetter(c: char) { c == 'I' || c == 'V' || c == 'X' }

  /** Length of the longest prefix of digits and dots. */
  function DigitDotRun(s: string): (n: nat)
    ensures n <= |s|
    ensures forall i :: 0 <= i < n ==> IsDigitOrDot(s[i])
    ensures n == |s| || !IsDigitOrDot(s[n])
  {
    if s != [] && IsDigitOrDot(s[0]) then 1 + DigitDotRun(s[1..]) else 0
  }

  lemma {:induction false} DigitDotRunOf(d: string, x: string)
    requires forall i :: 0 <= i < |d| ==> IsDigitOrDot(d[i])
    requires x == [] || !IsDigitOrDot(x[0])
    ensures DigitDotRun(d + x) == |d|
  {
    if d == [] {
      assert d + x == x;
    } else {
      assert (d + x)[1..] == d[1..] + x;
      DigitDotRunOf(d[1..], x);
    }
  }

  /** Length of the longest prefix of the letters I, V and X. */
  function RomanRun(s: string): (n: nat)
    ensures n <= |s|
    ensures forall i :: 0 <= i < n ==> IsRomanLetter(s[i])
    ensures n == |s| || !IsRomanLetter(s[n])
  {
    if s != [] && IsRomanLetter(s[0]) then 1 + RomanRun(s[1..]) else 0
  }

  lemma {:induction false} RomanRunOf(d: string, x: string)
    requires forall i :: 0 <= i < |d| ==> IsRomanLetter(d[i])
    requires x == [] || !IsRomanLetter(x[0])
    ensures RomanRun(d + x) == |d|
  {
    if d == [] {
      assert d + x == x;
    } else {
      assert (d + x)[1..] == d[1..] + x;
      RomanRunOf(d[1..], x);
    }
  }

  /** A run of digits and dots of the shape `\d+(\.\d+)*\.?`: it starts with a
      digit and has no two dots in a row. */
  predicate SectionNumberShape(d: string)
  {
    |d| > 0 && IsAsciiDigit(d[0]) && (forall i :: 0 <= i < |d| ==> IsDigitOrDot(d[i]))
    && (forall i :: 0 <= i < |d| - 1 ==> !DoubleDotAt(d, i))
  }

  predicate DoubleDotAt(d: string, i: nat)
    requires i + 1 < |d|
  {
    d[i] == '.' && d[i + 1] == '.'
  }

  /** The shape `\d+(\.\d+)+\.?|\d+\.`: a section number with at least one dot. */
  predicate DottedNumberShape(d: string)
  {
    SectionNumberShape(d) && '.' in d
  }

  /** The common tail `\s+(.+)$` of the four patterns: white space, then a
      non-empty rest without a line feed. Yields the rest. */
  function Tail(s: string): (r: Option<string>)
    ensures r.Some? ==> r.value != [] && '\n' !in r.value
  {
    if s != [] && IsWhitespace(s[0]) then
      var rest := TrimStart(s);
      if rest != [] && '\n' !in rest then Some(rest) else None
    else None
  }

  /** A match of one pattern: the number group and the text group. */
  datatype Groups = Groups(number: string, text: string)

  /** What every pattern guarantees of its match in `t`. */
  predicate Matched(t: string, g: Groups)
  {
    StartsWith(t, g.number) && g.number != [] && g.text != [] && '\n' !in g.text
  }

  function WithNumber(number: string, tail: Option<string>): (r: Option<Groups>)
    ensures r.Some? ==> tail.Some? && r.value == Groups(number, tail.value)
  {
    match tail
    case None => None
    case Some(t) => Some(Groups(number, t))
  }

  /** `^(\d+(?:\.\d+)+\.?|\d+\.)\s+(.+)$` */
  function MatchDecimal(t: string): (r: Option<Groups>)
    ensures r.Some? ==> Matched(t, r.value)
  {
    var d := t[..DigitDotRun(t)];
    if DottedNumberShape(d) then WithNumber(d, Tail(t[|d|..])) else None
  }

  function MatchKeyword(t: string, keyword: string): (r: Option<Groups>)
    requires keyword != []
    ensures r.Some? ==> Matched(t, r.value)
  {
    if StartsWith(t, keyword) then
      assert t == keyword + t[|keyword|..];
      AfterKeyword(keyword, t[|keyword|..])
    else None
  }

  /** What follows a matched prefix `p`: blanks, then the section number. */
  function AfterKeyword(p: string, s: string): (r: Option<Groups>)
    requires p != []
    ensures r.Some? ==> Matched(p + s, r.value)
  {
    var rest := TrimStart(s);
    if |rest| == |s| then None
    else
      var blanks := s[..|s| - |rest|];
      assert p + s == (p + blanks) + rest by {
        assert s == blanks + rest;
      }
      AfterBlanks(p + blanks, rest)
  }

  /** The section number at the start of `rest`, then the tail; the number
      group is the matched prefix `p` and the section number. */
  function AfterBlanks(p: string, rest: string): (r: Option<Groups>)
    requires p != []
    ensures r.Some? ==> Matched(p + rest, r.value)
  {
    var e := DigitDotRun(rest);
    if SectionNumberShape(rest[..e]) then
      assert p + rest == (p + rest[..e]) + rest[e..] by {
        assert rest == rest[..e] + rest[e..];
      }
      WithNumber(p + rest[..e], Tail(rest[e..]))
    else None
  }

  /** `^((?:Section|Chapter|Part)\s+\d+(?:\.\d+)*\.?)\s+(.+)$` */
  function MatchSection(t: string): (r: Option<Groups>)
    ensures r.Some? ==> Matched(t, r.value)
  {
    if StartsWith(t, "Section") then MatchKeyword(t, "Section")
    else if StartsWith(t, "Chapter") then MatchKeyword(t, "Chapter")
    else MatchKeyword(t, "Part")
  }

  /** `^([A-Z]\.)\s+(.+)$` */
  function MatchLetter(t: string): (r: Option<Groups>)
    ensures r.Some? ==> Matched(t, r.value)
  {
    if |t| >= 2 && IsAsciiUpper(t[0]) && t[1] == '.' then WithNumber(t[..2], Tail(t[2..])) else None
  }

  /** `^([IVX]+\.)\s+(.+)$` */
  function MatchRoman(t: string): (r: Option<Groups>)
    ensures r.Some? ==> Matched(t, r.value)
  {
    var k := RomanRun(t);
    if 0 < k < |t| && t[k] == '.' then WithNumber(t[..k + 1], Tail(t[k + 1..])) else None
  }

  /** The number without its trailing dots and the trimmed text, when both are
      non-empty. */
  function Accept(t: string, g: Option<Groups>): (r: Option<(string, string)>)
    requires g.Some? ==> Matched(t, g.value)
    ensures r.Some? ==> r.value.0 != [] && r.value.1 != [] && '\n' !in r.value.1 && StartsWith(t, r.value.0)
  {
    match g
    case None => None
    case Some(Groups(n, x)) =>
      var number := TrimEndChar(n, '.');
      var remaining := Trim(x);
      assert StartsWith(t, number) by {
        assert t[..|number|] == t[..|n|][..|number|];
      }
      assert '\n' !in remaining by {
        var y := TrimStart(x);
        assert forall i :: 0 <= i < |remaining| ==> remaining[i] == y[i] == x[|x| - |y| + i];
      }
      if number != [] && remaining != [] then Some((number, remaining)) else None
  }

  /** `extract_heading_number_from_text`: the first of the four patterns that
      matches the trimmed text, as (number, remaining text). The number is taken
      from the start of the text and the remaining text is one line. */
  function ExtractHeadingNumberFromText(text: string): (r: Option<(string, string)>)
    ensures r.Some? ==>
      r.value.0 != [] && r.value.1 != [] && '\n' !in r.value.1 && StartsWith(Trim(text), r.value.0)
  {
    FirstPattern(Trim(text))
  }

  /** The four patterns in order, on text that is already trimmed. */
  function FirstPattern(t: string): (r: Option<(string, string)>)
    ensures r.Some? ==> r.value.0 != [] && r.value.1 != [] && '\n' !in r.value.1 && StartsWith(t, r.value.0)
  {
    if t == [] then None
    else
      var decimal := Accept(t, MatchDecimal(t));
      if decimal.Some? then decimal
      else
        var section := Accept(t, MatchSection(t));
        if section.Some? then section
        else
          var letter := Accept(t, MatchLetter(t));
          if letter.Some? then letter
          else Accept(t, MatchRoman(t))
  }

  /** A run of blanks and a one-line text after the number. */
  predicate GoodTail(w: string, x: string)
  {
    w != [] && (forall i :: 0 <= i < |w| ==> IsWhitespace(w[i]))
    && x != [] && !IsWhitespace(x[0]) && !IsWhitespace(x[|x| - 1]) && '\n' !in x
  }

  lemma TailOf(w: string, x: string)
    requires GoodTail(w, x)
    ensures Tail(w + x) == Some(x)
  {
    TrimStartSkip(w, x);
  }

  lemma TrimNumbered(d: string, w: string, x: string)
    requires d != [] && !IsWhitespace(d[0]) && GoodTail(w, x)
    ensures Trim(d + w + x) == d + w + x
  {
    var t := d + w + x;
    assert t[0] == d[0] && t[|t| - 1] == x[|x| - 1];
    TrimClean(t);
  }

  lemma AcceptOf(t: string, n: string, x: string)
    requires Matched(t, Groups(n, x)) && n[0] != '.'
    requires !IsWhitespace(x[0]) && !IsWhitespace(x[|x| - 1])
    ensures Accept(t, Some(Groups(n, x))) == Some((TrimEndChar(n, '.'), x))
  {
    TrimClean(x);
  }

  lemma ExtractOfTrimmed(t: string)
    requires Trim(t) == t
    ensures ExtractHeadingNumberFromText(t) == FirstPattern(t)
  {
  }

  lemma NotDecimal(t: string)
    requires t != [] && !IsAsciiDigit(t[0]) && t[0] != '.'
    ensures MatchDecimal(t) == None
  {
    assert DigitDotRun(t) == 0;
  }

  lemma NotStartsWith(t: string, p: string)
    requires |t| >= 2 && |p| >= 2 && (t[0] != p[0] || t[1] != p[1])
    ensures !StartsWith(t, p)
  {
    if |p| <= |t| {
      assert t[..|p|][0] == t[0] && t[..|p|][1] == t[1];
    }
  }

  lemma NotSection(t: string)
    requires |t| >= 2 && t[1] != 'e' && t[1] != 'h' && t[1] != 'a'
    ensures MatchSection(t) == None
  {
    NotStartsWith(t, "Section");
    NotStartsWith(t, "Chapter");
    NotStartsWith(t, "Part");
  }

  // The decimal pattern.

  lemma MatchDecimalOf(d: string, w: string, x: string)
    requires DottedNumberShape(d) && GoodTail(w, x)
    ensures MatchDecimal(d + w + x) == Some(Groups(d, x))
  {
    var t := d + w + x;
    assert t == d + (w + x);
    assert (w + x)[0] == w[0] && IsWhitespace(w[0]);
    DigitDotRunOf(d, w + x);
    assert t[..|d|] == d && t[|d|..] == w + x;
    TailOf(w, x);
  }

  lemma FirstIsDecimal(t: string, n: string, x: string)
    requires t != [] && MatchDecimal(t) == Some(Groups(n, x))
    requires Accept(t, Some(Groups(n, x))) == Some((TrimEndChar(n, '.'), x))
    ensures FirstPattern(t) == Some((TrimEndChar(n, '.'), x))
  {
  }

  lemma DecimalFirst(d: string, w: string, x: string)
    requires DottedNumberShape(d) && GoodTail(w, x)
    ensures FirstPattern(d + w + x) == Some((TrimEndChar(d, '.'), x))
  {
    MatchDecimalOf(d, w, x);
    AcceptOf(d + w + x, d, x);
    FirstIsDecimal(d + w + x, d, x);
  }

  /** The trimmed text is a dotted decimal number, blanks and a one-line text:
      the number loses its trailing dot and the text is the rest. */
  lemma ExtractDecimal(t: string, d: string, w: string, x: string)
    requires t == d + w + x && DottedNumberShape(d) && GoodTail(w, x)
    ensures ExtractHeadingNumberFromText(t) == Some((TrimEndChar(d, '.'), x))
  {
    DecimalFirst(d, w, x);
    TrimNumbered(d, w, x);
    ExtractOfTrimmed(d + w + x);
  }

  // The section pattern.

  /** The pieces of a keyword match: what follows the keyword starts with
      blanks, then the number, then the tail. */
  lemma AfterBlanksOf(p: string, e: string, w: string, x: string)
    requires p != [] && SectionNumberShape(e) && GoodTail(w, x)
    ensures AfterBlanks(p, e + (w + x)) == Some(Groups(p + e, x))
  {
    assert (w + x)[0] == w[0] && IsWhitespace(w[0]);
    DigitDotRunOf(e, w + x);
    Halves(e, w + x);
    TailOf(w, x);
  }

  lemma AfterKeywordOf(p: string, w1: string, rest: string)
    requires p != [] && w1 != [] && forall i :: 0 <= i < |w1| ==> IsWhitespace(w1[i])
    requires rest != [] && !IsWhitespace(rest[0])
    ensures AfterKeyword(p, w1 + rest) == AfterBlanks(p + w1, rest)
  {
    TrimStartSkip(w1, rest);
    Halves(w1, rest);
  }

  lemma MatchKeywordOf(keyword: string, w1: string, e: string, w: string, x: string)
    requires keyword != []
    requires w1 != [] && forall i :: 0 <= i < |w1| ==> IsWhitespace(w1[i])
    requires SectionNumberShape(e) && GoodTail(w, x)
    ensures MatchKeyword(keyword + w1 + e + w + x, keyword) == Some(Groups(keyword + w1 + e, x))
  {
    var t := keyword + w1 + e + w + x;
    Regroup5(keyword, w1, e, w, x);
    Halves(keyword, w1 + (e + (w + x)));
    assert e[0] == (e + (w + x))[0];
    AfterKeywordOf(keyword, w1, e + (w + x));
    AfterBlanksOf(keyword + w1, e, w, x);
  }

  lemma MatchSectionOf(keyword: string, w1: string, e: string, w: string, x: string)
    requires keyword == "Section" || keyword == "Chapter" || keyword == "Part"
    requires w1 != [] && forall i :: 0 <= i < |w1| ==> IsWhitespace(w1[i])
    requires SectionNumberShape(e) && GoodTail(w, x)
    ensures MatchSection(keyword + w1 + e + w + x) == Some(Groups(keyword + w1 + e, x))
  {
    var t := keyword + w1 + e + w + x;
    MatchKeywordOf(keyword, w1, e, w, x);
    Regroup5(keyword, w1, e, w, x);
    Halves(keyword, w1 + (e + (w + x)));
    assert t[0] == keyword[0] && t[1] == keyword[1];
    if keyword != "Section" {
      NotStartsWith(t, "Section");
    }
    if keyword == "Part" {
      NotStartsWith(t, "Chapter");
    }
  }

  lemma FirstIsSection(t: string, n: string, x: string)
    requires t != [] && MatchDecimal(t) == None && MatchSection(t) == Some(Groups(n, x))
    requires Accept(t, Some(Groups(n, x))) == Some((TrimEndChar(n, '.'), x))
    ensures FirstPattern(t) == Some((TrimEndChar(n, '.'), x))
  {
  }

  lemma SectionFirst(keyword: string, w1: string, e: string, w: string, x: string)
    requires keyword == "Section" || keyword == "Chapter" || keyword == "Part"
    requires w1 != [] && forall i :: 0 <= i < |w1| ==> IsWhitespace(w1[i])
    requires SectionNumberShape(e) && GoodTail(w, x)
    ensures FirstPattern(keyword + w1 + e + w + x) == Some((TrimEndChar(keyword + w1 + e, '.'), x))
  {
    var t := keyword + w1 + e + w + x;
    assert t[0] == keyword[0];
    NotDecimal(t);
    MatchSectionOf(keyword, w1, e, w, x);
    AcceptOf(t, keyword + w1 + e, x);
    FirstIsSection(t, keyword + w1 + e, x);
  }

  /** "Section", "Chapter" or "Part", blanks, a number, blanks and a one-line
      text: the number is everything before the second blanks, less its
      trailing dots. */
  lemma ExtractSection(t: string, keyword: string, w1: string, e: string, w: string, x: string)
    requires t == keyword + w1 + e + w + x
    requires keyword == "Section" || keyword == "Chapter" || keyword == "Part"
    requires w1 != [] && forall i :: 0 <= i < |w1| ==> IsWhitespace(w1[i])
    requires SectionNumberShape(e) && GoodTail(w, x)
    ensures ExtractHeadingNumberFromText(t) == Some((TrimEndChar(keyword + w1 + e, '.'), x))
  {
    SectionFirst(keyword, w1, e, w, x);
    assert keyword + w1 + e + w + x == (keyword + w1 + e) + w + x;
    TrimNumbered(keyword + w1 + e, w, x);
    ExtractOfTrimmed(keyword + w1 + e + w + x);
  }

  // The letter pattern.

  lemma MatchLetterOf(c: char, w: string, x: string)
    requires IsAsciiUpper(c) && GoodTail(w, x)
    ensures MatchLetter([c, '.'] + w + x) == Some(Groups([c, '.'], x))
  {
    var t := [c, '.'] + w + x;
    assert t[0] == c && t[1] == '.';
    assert t[2..] == w + x && t[..2] == [c, '.'];
    TailOf(w, x);
  }

  lemma FirstIsLetter(t: string, n: string, x: string)
    requires t != [] && MatchDecimal(t) == None && MatchSection(t) == None
    requires MatchLetter(t) == Some(Groups(n, x))
    requires Accept(t, Some(Groups(n, x))) == Some((TrimEndChar(n, '.'), x))
    ensures FirstPattern(t) == Some((TrimEndChar(n, '.'), x))
  {
  }

  lemma LetterFirst(c: char, w: string, x: string)
    requires IsAsciiUpper(c) && GoodTail(w, x)
    ensures FirstPattern([c, '.'] + w + x) == Some(([c], x))
  {
    LetterNotEarlier(c, w, x);
    LetterMatch(c, w, x);
    FirstIsLetter([c, '.'] + w + x, [c, '.'], x);
  }

  lemma LetterNotEarlier(c: char, w: string, x: string)
    requires IsAsciiUpper(c)
    ensures MatchDecimal([c, '.'] + w + x) == None && MatchSection([c, '.'] + w + x) == None
  {
    var t := [c, '.'] + w + x;
    assert t[0] == c && t[1] == '.';
    NotDecimal(t);
    NotSection(t);
  }

  lemma LetterMatch(c: char, w: string, x: string)
    requires IsAsciiUpper(c) && GoodTail(w, x)
    ensures MatchLetter([c, '.'] + w + x) == Some(Groups([c, '.'], x))
    ensures Accept([c, '.'] + w + x, Some(Groups([c, '.'], x))) == Some((TrimEndChar([c, '.'], '.'), x))
    ensures TrimEndChar([c, '.'], '.') == [c]
  {
    MatchLetterOf(c, w, x);
    AcceptOf([c, '.'] + w + x, [c, '.'], x);
    assert [c, '.'][..1] == [c];
  }

  /** A capital letter and a dot, blanks and a one-line text. */
  lemma ExtractLetter(t: string, c: char, w: string, x: string)
    requires t == [c, '.'] + w + x && IsAsciiUpper(c) && GoodTail(w, x)
    ensures ExtractHeadingNumberFromText(t) == Some(([c], x))
  {
    LetterFirst(c, w, x);
    TrimNumbered([c, '.'], w, x);
    ExtractOfTrimmed([c, '.'] + w + x);
  }

  // The roman pattern.

  lemma MatchRomanOf(r: string, w: string, x: string)
    requires |r| >= 1 && (forall i :: 0 <= i < |r| ==> IsRomanLetter(r[i])) && GoodTail(w, x)
    ensures MatchRoman(r + "." + w + x) == Some(Groups(r + ".", x))
  {
    RomanDotPieces(r, w, x);
    RomanRunOf(r, "." + w + x);
    TailOf(w, x);
    RomanMatchAt(r + "." + w + x, |r|, x);
  }

  /** How `r + "." + w + x` splits around the dot. */
  lemma RomanDotPieces(r: string, w: string, x: string)
    ensures r + "." + w + x == r + ("." + w + x)
    ensures (r + "." + w + x)[|r|] == '.'
    ensures (r + "." + w + x)[..|r| + 1] == r + "." && (r + "." + w + x)[|r| + 1..] == w + x
  {
  }

  lemma RomanMatchAt(t: string, k: nat, x: string)
    requires RomanRun(t) == k && 0 < k < |t| && t[k] == '.' && Tail(t[k + 1..]) == Some(x)
    ensures MatchRoman(t) == Some(Groups(t[..k + 1], x))
  {
  }

  lemma FirstIsRoman(t: string, n: string, x: string)
    requires t != [] && MatchDecimal(t) == None && MatchSection(t) == None && MatchLetter(t) == None
    requires MatchRoman(t) == Some(Groups(n, x))
    requires Accept(t, Some(Groups(n, x))) == Some((TrimEndChar(n, '.'), x))
    ensures FirstPattern(t) == Some((TrimEndChar(n, '.'), x))
  {
  }

  lemma RomanFirst(r: string, w: string, x: string)
    requires |r| >= 2 && (forall i :: 0 <= i < |r| ==> IsRomanLetter(r[i])) && GoodTail(w, x)
    ensures FirstPattern(r + "." + w + x) == Some((r, x))
  {
    RomanNotEarlier(r, w, x);
    RomanMatch(r, w, x);
    FirstIsRoman(r + "." + w + x, r + ".", x);
  }

  lemma RomanNotEarlier(r: string, w: string, x: string)
    requires |r| >= 2 && IsRomanLetter(r[0]) && IsRomanLetter(r[1])
    ensures MatchDecimal(r + "." + w + x) == None && MatchSection(r + "." + w + x) == None
    ensures MatchLetter(r + "." + w + x) == None
  {
    var t := r + "." + w + x;
    assert t[0] == r[0] && t[1] == r[1];
    NotDecimal(t);
    NotSection(t);
  }

  lemma RomanMatch(r: string, w: string, x: string)
    requires |r| >= 2 && (forall i :: 0 <= i < |r| ==> IsRomanLetter(r[i])) && GoodTail(w, x)
    ensures MatchRoman(r + "." + w + x) == Some(Groups(r + ".", x))
    ensures Accept(r + "." + w + x, Some(Groups(r + ".", x))) == Some((TrimEndChar(r + ".", '.'), x))
    ensures TrimEndChar(r + ".", '.') == r
  {
    MatchRomanOf(r, w, x);
    AcceptOf(r + "." + w + x, r + ".", x);
    RomanTrimDot(r);
  }

  lemma RomanTrimDot(r: string)
    requires |r| >= 1 && IsRomanLetter(r[|r| - 1])
    ensures TrimEndChar(r + ".", '.') == r
  {
    assert (r + ".")[..|r|] == r;
  }

  /** Two or more of I, V, X and a dot, blanks and a one-line text. (A single
      letter is taken by the capital-letter pattern before, with the same result.) */
  lemma ExtractRoman(t: string, r: string, w: string, x: string)
    requires t == r + "." + w + x
    requires |r| >= 2 && (forall i :: 0 <= i < |r| ==> IsRomanLetter(r[i])) && GoodTail(w, x)
    ensures ExtractHeadingNumberFromText(t) == Some((r, x))
  {
    RomanFirst(r, w, x);
    TrimNumbered(r + ".", w, x);
    ExtractOfTrimmed(r + "." + w + x);
  }

  /** Without a dot and without a leading keyword there is no number. */
  lemma NoDotNoNumber(text: string)
    requires
      var t := Trim(text);
      '.' !in t && !StartsWith(t, "Section") && !StartsWith(t, "Chapter") && !StartsWith(t, "Part")
    ensures ExtractHeadingNumberFromText(text) == None
  {
    var t := Trim(text);
    if t != [] {
      NoDotNotDecimal(t);
      NoDotNotRoman(t);
      FirstIsNone(t);
    }
  }

  lemma NoDotNotDecimal(t: string)
    requires '.' !in t
    ensures MatchDecimal(t) == None && MatchLetter(t) == None
  {
    var d := t[..DigitDotRun(t)];
    assert '.' !in d;
  }

  lemma NoDotNotRoman(t: string)
    requires '.' !in t
    ensures MatchRoman(t) == None
  {
    var k := RomanRun(t);
    assert k < |t| ==> t[k] != '.';
  }

  lemma FirstIsNone(t: string)
    requires MatchDecimal(t) == None && MatchSection(t) == None
    requires MatchLetter(t) == None && MatchRoman(t) == None
    ensures FirstPattern(t) == None
  {
  }

  /** The cases the heading tests pin down, one text at a time. */
  lemma ExampleDecimalOne(text: string)
    requires text == "1. Introduction"
    ensures ExtractHeadingNumberFromText(text) == Some(("1", "Introduction"))
  {
    DecimalOnePieces(text);
    ExtractDecimal(text, "1.", " ", "Introduction");
    NumberOne();
  }

  lemma DecimalOnePieces(text: string)
    requires text == "1. Introduction"
    ensures text == "1." + " " + "Introduction" && GoodTail(" ", "Introduction")
    ensures DottedNumberShape("1.")
  {
  }

  lemma NumberOne()
    ensures TrimEndChar("1.", '.') == "1"
  {
    assert TrimEndChar("1.", '.') == TrimEndChar("1", '.');
  }

  lemma ExampleDecimalTwo(text: string)
    requires text == "1.1 Project Overview"
    ensures ExtractHeadingNumberFromText(text) == Some(("1.1", "Project Overview"))
  {
    DecimalTwoPieces(text);
    ExtractDecimal(text, "1.1", " ", "Project Overview");
  }

  lemma DecimalTwoPieces(text: string)
    requires text == "1.1 Project Overview"
    ensures text == "1.1" + " " + "Project Overview" && GoodTail(" ", "Project Overview")
    ensures DottedNumberShape("1.1") && TrimEndChar("1.1", '.') == "1.1"
  {
  }

  lemma ExampleDecimalThree(text: string)
    requires text == "2.1.1 Something Important"
    ensures ExtractHeadingNumberFromText(text) == Some(("2.1.1", "Something Important"))
  {
    DecimalThreePieces(text);
    ExtractDecimal(text, "2.1.1", " ", "Something Important");
  }

  lemma DecimalThreePieces(text: string)
    requires text == "2.1.1 Something Important"
    ensures text == "2.1.1" + " " + "Something Important" && GoodTail(" ", "Something Important")
    ensures DottedNumberShape("2.1.1") && TrimEndChar("2.1.1", '.') == "2.1.1"
  {
    var d := "2.1.1";
    assert forall i :: 0 <= i < |d| ==> IsDigitOrDot(d[i]);
    assert forall i :: 0 <= i < |d| - 1 ==> !DoubleDotAt(d, i);
  }

  lemma ExampleLetter(text: string)
    requires text == "A. First Section"
    ensures ExtractHeadingNumberFromText(text) == Some(("A", "First Section"))
  {
    LetterPieces(text);
    ExtractLetter(text, 'A', " ", "First Section");
  }

  lemma LetterPieces(text: string)
    requires text == "A. First Section"
    ensures text == ['A', '.'] + " " + "First Section" && GoodTail(" ", "First Section")
    ensures ['A'] == "A"
  {
  }

  lemma ExampleRoman(text: string)
    requires text == "I. Roman Numeral"
    ensures ExtractHeadingNumberFromText(text) == Some(("I", "Roman Numeral"))
  {
    RomanPieces(text);
    ExtractLetter(text, 'I', " ", "Roman Numeral");
  }

  lemma RomanPieces(text: string)
    requires text == "I. Roman Numeral"
    ensures text == ['I', '.'] + " " + "Roman Numeral" && GoodTail(" ", "Roman Numeral")
    ensures ['I'] == "I"
  {
  }

  lemma ExampleSection(text: string)
    requires text == "Section 1.2 Overview"
    ensures ExtractHeadingNumberFromText(text) == Some(("Section 1.2", "Overview"))
  {
    SectionPieces(text);
    ExtractSection(text, "Section", " ", "1.2", " ", "Overview");
    SectionNumber();
  }

  lemma SectionPieces(text: string)
    requires text == "Section 1.2 Overview"
    ensures text == "Section" + " " + "1.2" + " " + "Overview" && GoodTail(" ", "Overview")
    ensures SectionNumberShape("1.2") && IsWhitespace(" "[0])
  {
  }

  lemma SectionNumber()
    ensures TrimEndChar("Section" + " " + "1.2", '.') == "Section 1.2"
  {
    var n := "Section" + " " + "1.2";
    assert n == "Section 1.2" && n[|n| - 1] == '2';
  }

  lemma ExampleChapter(text: string)
    requires text == "Chapter 5 Summary"
    ensures ExtractHeadingNumberFromText(text) == Some(("Chapter 5", "Summary"))
  {
    ChapterPieces(text);
    ExtractSection(text, "Chapter", " ", "5", " ", "Summary");
    ChapterNumber();
  }

  lemma ChapterPieces(text: string)
    requires text == "Chapter 5 Summary"
    ensures text == "Chapter" + " " + "5" + " " + "Summary" && GoodTail(" ", "Summary")
    ensures SectionNumberShape("5") && IsWhitespace(" "[0])
  {
  }

  lemma ChapterNumber()
    ensures TrimEndChar("Chapter" + " " + "5", '.') == "Chapter 5"
  {
    var n := "Chapter" + " " + "5";
    assert n == "Chapter 5" && n[|n| - 1] == '5';
  }

  /** A text without a number: its own trim, no dot and no leading keyword. */
  lemma PlainPieces(text: string)
    requires text == "Introduction" || text == "Heading 1" || text == "Version 2"
    ensures Trim(text) == text && '.' !in text
  {
    assert text[0] in "IHV" && text[|text| - 1] in "n12";
    assert !IsWhitespace(text[0]) && !IsWhitespace(text[|text| - 1]);
    TrimClean(text);
  }

  lemma PlainNoKeyword(text: string)
    requires text == "Introduction" || text == "Heading 1" || text == "Version 2"
    ensures !StartsWith(text, "Section") && !StartsWith(text, "Chapter") && !StartsWith(text, "Part")
  {
    assert text[0] != 'S' && text[0] != 'C' && text[0] != 'P';
    NotStartsWith(text, "Section");
    NotStartsWith(text, "Chapter");
    NotStartsWith(text, "Part");
  }

  lemma ExampleNoNumber(text: string)
    requires text == "Introduction" || text == "Heading 1" || text == "Version 2"
    ensures ExtractHeadingNumberFromText(text) == None
  {
    PlainPieces(text);
    PlainNoKeyword(text);
    NoDotNoNumber(text);
  }
}
