/**
 * Tables: the data type and alignment of a cell, the header heuristic, the
 * column widths and alignments of `TableData::new`, and the walk over a
 * Word table that turns its rows of cells into a table element.
 */
module Tables {
  import opened Strings
  import opened Models
  import Docx
  import Formatting

  function Max(a: nat, b: nat): nat { if a >= b then a else b }

  // ---------------------------------------------------------------------------
  // Cell data types
  // ---------------------------------------------------------------------------

  /** The characters that mark a currency amount: dollar, euro and pound. */
  const CurrencySigns: set<char> := {'$', '\U{20AC}', '\U{A3}'}

  /** The words read as booleans, compared in lower case. */
  const BooleanWords: set<string> := {"true", "false", "yes", "no", "y", "n"}

  predicate AllDigits(s: string)
  {
    forall i :: 0 <= i < |s| ==> IsAsciiDigit(s[i])
  }

  /** The length of the run of ASCII digits at the start of `s`. */
  function LeadingDigits(s: string): (n: nat)
    ensures n <= |s| && AllDigits(s[..n])
    ensures n < |s| ==> !IsAsciiDigit(s[n])
  {
    if s == [] || !IsAsciiDigit(s[0]) then 0
    else
      var n := 1 + LeadingDigits(s[1..]);
      assert s[..n] == [s[0]] + s[1..][..n - 1];
      n
  }

  /** An exponent `e`/`E`, an optional sign and at least one digit, or nothing. */
  predicate ExponentPart(e: string)
  {
    e == [] ||
    (|e| >= 2 && (e[0] == 'e' || e[0] == 'E')
     && var d := if e[1] == '+' || e[1] == '-' then e[2..] else e[1..];
        d != [] && AllDigits(d))
  }

  /** Digits with an optional fraction and exponent: at least one digit before
      or after the point. */
  predicate DecimalLiteral(u: string)
  {
    var m := LeadingDigits(u);
    var rest := u[m..];
    if rest != [] && rest[0] == '.' then
      var f := LeadingDigits(rest[1..]);
      m + f > 0 && ExponentPart(rest[1..][f..])
    else m > 0 && ExponentPart(rest)
  }

  /** What `str::parse::<f64>` accepts: an optional sign, then `inf`,
      `infinity` or `nan` in any case, or a decimal literal. */
  predicate FloatLiteral(s: string)
  {
    var u := if s != [] && (s[0] == '+' || s[0] == '-') then s[1..] else s;
    Lower(u) in {"inf", "infinity", "nan"} || DecimalLiteral(u)
  }

  /** What `str::parse::<u32>` accepts: an optional `+` and decimal digits
      whose value fits in 32 bits. */
  predicate U32Literal(p: string)
  {
    var d := if p != [] && p[0] == '+' then p[1..] else p;
    d != [] && AllDigits(d) && ParseDigits(d) < 0x1_0000_0000
  }

  /** `s.replace(',', "")`. */
  function RemoveCommas(s: string): (r: string)
    ensures ',' !in r
    ensures ',' !in s ==> r == s
  {
    if s == [] then []
    else (if s[0] == ',' then [] else [s[0]]) + RemoveCommas(s[1..])
  }

  predicate IsDateSeparator(c: char) { c == '/' || c == '-' }

  /** Index of the first `/` or `-` in `s`, or `|s|` when there is none. */
  function FirstSeparator(s: string): (k: nat)
    ensures k <= |s|
    ensures k < |s| ==> IsDateSeparator(s[k])
    ensures forall i :: 0 <= i < k ==> !IsDateSeparator(s[i])
  {
    if s == [] then 0 else if IsDateSeparator(s[0]) then 0 else 1 + FirstSeparator(s[1..])
  }

  /** `s.split(['/', '-'])`. */
  function DateParts(s: string): (r: seq<string>)
    ensures |r| >= 1
    decreases |s|
  {
    var k := FirstSeparator(s);
    if k == |s| then [s] else [s[..k]] + DateParts(s[k + 1..])
  }

  /** Three parts, separated by `/` or `-`, each an unsigned 32-bit number. */
  predicate DateLike(t: string)
  {
    var parts := DateParts(t);
    |parts| == 3 && forall i :: 0 <= i < 3 ==> U32Literal(parts[i])
  }

  /** The cascade of `detect_cell_data_type` on trimmed text: empty, a
      currency sign in front, a percent sign at the end, a boolean word, a
      float once the commas are removed, a date of three numbers, or text. */
  function Classify(t: string): (r: CellDataType)
    ensures r == Empty <==> t == []
    ensures r == Currency <==> t != [] && t[0] in CurrencySigns
    ensures r == Percentage <==> t != [] && t[0] !in CurrencySigns && EndsWith(t, "%")
    ensures r == Boolean ==> Lower(t) in BooleanWords
    ensures r == Number ==> FloatLiteral(RemoveCommas(t))
    ensures r == Date ==> DateLike(t) && !FloatLiteral(RemoveCommas(t))
  {
    if t == [] then Empty
    else if t[0] in CurrencySigns then Currency
    else if EndsWith(t, "%") then Percentage
    else if Lower(t) in BooleanWords then Boolean
    else if FloatLiteral(RemoveCommas(t)) then Number
    else if FirstSeparator(t) < |t| && DateLike(t) then Date
    else Text
  }

  /** `detect_cell_data_type`: the cascade on the trimmed content. */
  function DetectCellDataType(content: string): CellDataType
  {
    Classify(Trim(content))
  }

  /** The numeric types, which are right-aligned. */
  predicate IsNumericType(d: CellDataType)
  {
    d == Number || d == Currency || d == Percentage
  }

  /** `default_alignment_for_type`. */
  function DefaultAlignment(d: CellDataType): (a: TextAlignment)
    ensures a == Right <==> IsNumericType(d)
    ensures a == Center <==> d == Boolean
    ensures a == Left <==> !IsNumericType(d) && d != Boolean
  {
    match d
    case Number => Right
    case Currency => Right
    case Percentage => Right
    case Boolean => Center
    case _ => Left
  }

  /** `TableCell::new`: the type detected from the content, its default
      alignment, and default formatting. */
  function NewCell(content: string): (c: TableCell)
    ensures c.content == content && c.formatting == DefaultFormatting
    ensures c.dataType == DetectCellDataType(content)
    ensures c.alignment == Right <==> IsNumericType(DetectCellDataType(content))
  {
    var d := DetectCellDataType(content);
    TableCell(content, DefaultAlignment(d), DefaultFormatting, d)
  }

  /** Trimming the content first changes nothing: the type is decided on the
      trimmed text. */
  lemma DetectIgnoresPadding(content: string)
    ensures DetectCellDataType(Trim(content)) == DetectCellDataType(content)
  {
    Formatting.TrimBothEnds(content);
    TrimClean(Trim(content));
  }

  /** A string of decimal digits is a number. */
  lemma DigitsAreNumber(s: string)
    requires s != [] && AllDigits(s)
    ensures DetectCellDataType(s) == Number
  {
    TrimClean(s);
    DigitStringIsNumber(s);
  }

  lemma DigitStringIsNumber(s: string)
    requires s != [] && AllDigits(s)
    ensures Classify(s) == Number
  {
    assert ',' !in s;
    DigitsFloat(s);
    NotBoolean(s);
    ClassifyAsNumber(s);
  }

  /** Digits, without sign, point or exponent, parse as a float. */
  lemma DigitsFloat(s: string)
    requires s != [] && AllDigits(s)
    ensures FloatLiteral(s)
  {
    AllDigitsLeading(s);
    assert s[|s|..] == [];
  }

  lemma {:induction false} AllDigitsLeading(s: string)
    requires AllDigits(s)
    ensures LeadingDigits(s) == |s|
  {
    if s != [] {
      AllDigitsLeading(s[1..]);
    }
  }

  /** Text that does not start with a letter is no boolean word. */
  lemma NotBoolean(t: string)
    requires t != [] && !IsAsciiAlpha(t[0])
    ensures Lower(t) !in BooleanWords
  {
    var l := Lower(t);
    assert l[0] == t[0];
    assert l != "true" && l != "false" && l != "yes" && l != "no" && l != "y" && l != "n";
  }

  lemma ClassifyAsNumber(t: string)
    requires t != [] && t[0] !in CurrencySigns && t[|t| - 1] != '%'
    requires Lower(t) !in BooleanWords && FloatLiteral(RemoveCommas(t))
    ensures Classify(t) == Number
  {
  }

  lemma {:induction false} RemoveCommasAppend(a: string, b: string)
    ensures RemoveCommas(a + b) == RemoveCommas(a) + RemoveCommas(b)
  {
    if a == [] {
      assert a + b == b;
    } else {
      assert (a + b)[1..] == a[1..] + b;
      RemoveCommasAppend(a[1..], b);
      var h := if a[0] == ',' then [] else [a[0]];
      assert RemoveCommas(a + b) == h + (RemoveCommas(a[1..]) + RemoveCommas(b));
      assert RemoveCommas(a) == h + RemoveCommas(a[1..]);
      AppendAssoc(h, RemoveCommas(a[1..]), RemoveCommas(b));
    }
  }

  /** Digit groups separated by a thousands comma are a number. */
  lemma ThousandsAreNumber(a: string, b: string)
    requires a != [] && AllDigits(a) && b != [] && AllDigits(b)
    ensures DetectCellDataType(a + "," + b) == Number
  {
    var t := a + "," + b;
    assert t[0] == a[0] && t[|t| - 1] == b[|b| - 1];
    CommasRemoved(a, b);
    DigitsFloat(a + b);
    NumberOf(t);
  }

  /** Text between two digits whose comma-free form parses as a float is a number. */
  lemma NumberOf(t: string)
    requires t != [] && IsAsciiDigit(t[0]) && IsAsciiDigit(t[|t| - 1])
    requires FloatLiteral(RemoveCommas(t))
    ensures DetectCellDataType(t) == Number
  {
    DigitNotWhitespace(t[0]);
    DigitNotWhitespace(t[|t| - 1]);
    TrimClean(t);
    ClassifyNumberOf(t);
  }

  lemma ClassifyNumberOf(t: string)
    requires t != [] && IsAsciiDigit(t[0]) && IsAsciiDigit(t[|t| - 1])
    requires FloatLiteral(RemoveCommas(t))
    ensures Classify(t) == Number
  {
    NotBoolean(t);
    DigitNotCurrency(t[0]);
    ClassifyAsNumber(t);
  }

  lemma DigitNotCurrency(c: char)
    requires IsAsciiDigit(c)
    ensures c !in CurrencySigns
  {
  }

  lemma DigitNotWhitespace(c: char)
    requires IsAsciiDigit(c)
    ensures !IsWhitespace(c)
  {
  }

  lemma CommasRemoved(a: string, b: string)
    requires AllDigits(a) && AllDigits(b)
    ensures RemoveCommas(a + "," + b) == a + b
  {
    RemoveCommasAppend(a + ",", b);
    CommaAtEnd(a);
    NoCommasInDigits(a);
    NoCommasInDigits(b);
  }

  lemma CommaAtEnd(a: string)
    ensures RemoveCommas(a + ",") == RemoveCommas(a)
  {
    RemoveCommasAppend(a, ",");
    assert RemoveCommas(",") == [] by {
      assert ","[1..] == [];
    }
    assert RemoveCommas(a) + [] == RemoveCommas(a);
  }

  lemma NoCommasInDigits(a: string)
    requires AllDigits(a)
    ensures RemoveCommas(a) == a
  {
    assert ',' !in a;
  }

  /** A leading currency sign wins over a trailing percent sign. */
  lemma CurrencyBeforePercentage()
    ensures DetectCellDataType("$5%") == Currency
  {
    TrimClean("$5%");
  }

  /** Boolean words are recognised in any case. */
  lemma BooleanAnyCase()
    ensures DetectCellDataType("YES") == Boolean
  {
    var t := "YES";
    TrimClean(t);
    assert Lower(t) == "yes";
  }

  lemma {:induction false} LeadingDigitsAppend(a: string, x: string)
    requires AllDigits(a) && x != [] && !IsAsciiDigit(x[0])
    ensures LeadingDigits(a + x) == |a|
  {
    if a == [] {
      assert a + x == x;
    } else {
      assert (a + x)[1..] == a[1..] + x;
      LeadingDigitsAppend(a[1..], x);
    }
  }

  lemma {:induction false} FirstSeparatorAppend(a: string, x: string)
    requires AllDigits(a)
    ensures FirstSeparator(a + x) == |a| + FirstSeparator(x)
  {
    if a == [] {
      assert a + x == x;
    } else {
      assert (a + x)[1..] == a[1..] + x;
      FirstSeparatorAppend(a[1..], x);
    }
  }

  /** A number of at most 32 bits. */
  predicate Component(a: string)
  {
    a != [] && AllDigits(a) && ParseDigits(a) < 0x1_0000_0000
  }

  /** Three numbers separated by `/` or `-` make a date. */
  lemma DateOfNumbers(a: string, s1: char, b: string, s2: char, c: string)
    requires Component(a) && Component(b) && Component(c)
    requires IsDateSeparator(s1) && IsDateSeparator(s2)
    ensures DetectCellDataType(a + [s1] + b + [s2] + c) == Date
  {
    var t := a + [s1] + b + [s2] + c;
    DatePartsOf(a, s1, b, s2, c);
    ThreeLiterals(t, a, b, c);
    DateText(a, s1, b, s2, c);
    DateOf(t);
  }

  lemma ThreeLiterals(t: string, a: string, b: string, c: string)
    requires DateParts(t) == [a, b, c]
    requires Component(a) && Component(b) && Component(c)
    ensures DateLike(t)
  {
    ComponentLiteral(a);
    ComponentLiteral(b);
    ComponentLiteral(c);
  }

  /** The characters of a date of three numbers: digits at both ends, no
      comma, and no float. */
  lemma DateText(a: string, s1: char, b: string, s2: char, c: string)
    requires Component(a) && Component(b) && Component(c)
    requires IsDateSeparator(s1) && IsDateSeparator(s2)
    ensures var t := a + [s1] + b + [s2] + c;
      IsAsciiDigit(t[0]) && IsAsciiDigit(t[|t| - 1]) && ',' !in t && !FloatLiteral(t)
  {
    var rest := [s1] + b + [s2] + c;
    var t := a + rest;
    assert t == a + [s1] + b + [s2] + c;
    SeparatorFacts(s1);
    SeparatorFacts(s2);
    assert ',' !in t by {
      assert t == a + [s1] + (b + [s2] + c);
    }
    NotFloat(a, rest);
    assert t[0] == a[0] && t[|t| - 1] == c[|c| - 1];
  }

  /** A component is an unsigned 32-bit literal. */
  lemma ComponentLiteral(a: string)
    requires Component(a)
    ensures U32Literal(a)
  {
    assert a[0] != '+';
  }

  /** A date separator is no comma, point, exponent or digit. */
  lemma SeparatorFacts(s: char)
    requires IsDateSeparator(s)
    ensures s != ',' && s !in {'.', 'e', 'E'} && !IsAsciiDigit(s)
  {
  }

  /** Digits followed by something other than a point or an exponent do not parse as a float. */
  lemma NotFloat(a: string, rest: string)
    requires a != [] && AllDigits(a) && rest != [] && rest[0] !in {'.', 'e', 'E'} && !IsAsciiDigit(rest[0])
    ensures !FloatLiteral(a + rest)
  {
    var t := a + rest;
    assert t[0] == a[0];
    LeadingDigitsAppend(a, rest);
    assert t[|a|..] == rest;
    var l := Lower(t);
    assert l[0] == t[0];
    assert l != "inf" && l != "infinity" && l != "nan";
  }

  /** Text between two digits that is no float but three numbers is a date. */
  lemma DateOf(t: string)
    requires t != [] && IsAsciiDigit(t[0]) && IsAsciiDigit(t[|t| - 1]) && ',' !in t
    requires !FloatLiteral(t) && FirstSeparator(t) < |t| && DateLike(t)
    ensures DetectCellDataType(t) == Date
  {
    DigitNotWhitespace(t[0]);
    DigitNotWhitespace(t[|t| - 1]);
    TrimClean(t);
    ClassifyDateOf(t);
  }

  lemma ClassifyDateOf(t: string)
    requires t != [] && IsAsciiDigit(t[0]) && IsAsciiDigit(t[|t| - 1]) && ',' !in t
    requires !FloatLiteral(t) && FirstSeparator(t) < |t| && DateLike(t)
    ensures Classify(t) == Date
  {
    NotBoolean(t);
    DigitNotCurrency(t[0]);
    ClassifyAsDate(t);
  }

  lemma DatePartsOf(a: string, s1: char, b: string, s2: char, c: string)
    requires AllDigits(a) && AllDigits(b) && AllDigits(c)
    requires IsDateSeparator(s1) && IsDateSeparator(s2)
    ensures var t := a + [s1] + b + [s2] + c;
      FirstSeparator(t) < |t| && DateParts(t) == [a, b, c]
  {
    var u := b + [s2] + c;
    assert a + [s1] + b + [s2] + c == a + [s1] + u;
    SplitAt(a, s1, u);
    SplitAt(b, s2, c);
    LastPart(c);
  }

  /** Splitting at the separator after a run of digits. */
  lemma SplitAt(a: string, s: char, x: string)
    requires AllDigits(a) && IsDateSeparator(s)
    ensures FirstSeparator(a + [s] + x) == |a|
    ensures DateParts(a + [s] + x) == [a] + DateParts(x)
  {
    var t := a + [s] + x;
    assert t == a + ([s] + x);
    FirstSeparatorAppend(a, [s] + x);
    assert t[..|a|] == a && t[|a| + 1..] == x;
  }

  /** Digits alone form one part. */
  lemma LastPart(c: string)
    requires AllDigits(c)
    ensures DateParts(c) == [c]
  {
    FirstSeparatorAppend(c, []);
    assert c + [] == c;
  }

  lemma ClassifyAsDate(t: string)
    requires t != [] && t[0] !in CurrencySigns && t[|t| - 1] != '%'
    requires Lower(t) !in BooleanWords && !FloatLiteral(RemoveCommas(t))
    requires FirstSeparator(t) < |t| && DateLike(t)
    ensures Classify(t) == Date
  {
  }

  // ---------------------------------------------------------------------------
  // Header heuristic
  // ---------------------------------------------------------------------------

  /** The words that mark a header cell, looked for in the lower-cased text. */
  predicate HasHeaderWord(cell: string)
  {
    var l := Lower(cell);
    Contains(l, "name") || Contains(l, "date") || Contains(l, "amount") || Contains(l, "type")
    || Contains(l, "status") || Contains(l, "id") || Contains(l, "description") || Contains(l, "count")
  }

  /** A cell that looks like a header: a short phrase of at most three
      words, not blank, or one with a header word. */
  predicate HeaderIndicator(cell: string)
  {
    (WordCount(cell) <= 3 && Trim(cell) != []) || HasHeaderWord(cell)
  }

  /** The bytes of all cells. */
  function TotalBytes(row: seq<string>): nat
  {
    if row == [] then 0 else TotalBytes(row[..|row| - 1]) + ByteLen(row[|row| - 1])
  }

  /** How many cells look like headers. */
  function Indicators(row: seq<string>): (n: nat)
    ensures n <= |row|
  {
    if row == [] then 0
    else Indicators(row[..|row| - 1]) + (if HeaderIndicator(row[|row| - 1]) then 1 else 0)
  }

  /** The average byte length of the cells, rounded down; 0 for no cells. */
  function AverageBytes(row: seq<string>): nat
  {
    if row == [] then 0 else TotalBytes(row) / |row|
  }

  /** `appears_to_be_header`: short cells on average, and more than half of
      them looking like headers. */
  function AppearsToBeHeader(row: seq<string>): (r: bool)
    ensures r ==> |row| > 0 && AverageBytes(row) <= 50
  {
    if AverageBytes(row) > 50 then false else Indicators(row) > |row| / 2
  }

  /** A row whose every cell is long is never a header. */
  lemma LongCellsNoHeader(row: seq<string>)
    requires forall i :: 0 <= i < |row| ==> ByteLen(row[i]) > 50
    ensures !AppearsToBeHeader(row)
  {
    if row != [] {
      TotalAtLeast(row);
      assert TotalBytes(row) / |row| >= 51 by {
        DivAtLeast(TotalBytes(row), |row|, 51);
      }
    }
  }

  lemma {:induction false} TotalAtLeast(row: seq<string>)
    requires forall i :: 0 <= i < |row| ==> ByteLen(row[i]) > 50
    ensures TotalBytes(row) >= 51 * |row|
  {
    if row != [] {
      TotalAtLeast(row[..|row| - 1]);
    }
  }

  lemma {:induction false} TotalAtMost(row: seq<string>)
    requires forall i :: 0 <= i < |row| ==> ByteLen(row[i]) <= 50
    ensures TotalBytes(row) <= 50 * |row|
  {
    if row != [] {
      TotalAtMost(row[..|row| - 1]);
    }
  }

  lemma DivAtLeast(a: nat, b: nat, k: nat)
    requires b > 0 && a >= k * b
    ensures a / b >= k
  {
    var q := a / b;
    if q < k {
      MulMono(q + 1, k, b);
    }
  }

  lemma DivAtMost(a: nat, b: nat, k: nat)
    requires b > 0 && a <= k * b
    ensures a / b <= k
  {
    var q := a / b;
    if q > k {
      MulMono(k + 1, q, b);
    }
  }

  lemma {:induction false} MulMono(x: nat, y: nat, b: nat)
    requires x <= y
    ensures x * b <= y * b
  {
    if x < y {
      MulMono(x, y - 1, b);
    }
  }

  lemma {:induction false} AllIndicators(row: seq<string>)
    requires forall i :: 0 <= i < |row| ==> HeaderIndicator(row[i])
    ensures Indicators(row) == |row|
  {
    if row != [] {
      AllIndicators(row[..|row| - 1]);
    }
  }

  /** A row of short phrases is a header. */
  lemma ShortPhrasesAreHeader(row: seq<string>)
    requires |row| > 0
    requires forall i :: 0 <= i < |row| ==> ByteLen(row[i]) <= 50 && WordCount(row[i]) <= 3 && Trim(row[i]) != []
    ensures AppearsToBeHeader(row)
  {
    TotalAtMost(row);
    DivAtMost(TotalBytes(row), |row|, 50);
    AllIndicators(row);
  }

  /** Without any header-like cell no row is a header. */
  lemma NoIndicatorNoHeader(row: seq<string>)
    requires forall i :: 0 <= i < |row| ==> !HeaderIndicator(row[i])
    ensures !AppearsToBeHeader(row)
  {
    NoIndicators(row);
  }

  lemma {:induction false} NoIndicators(row: seq<string>)
    requires forall i :: 0 <= i < |row| ==> !HeaderIndicator(row[i])
    ensures Indicators(row) == 0
  {
    if row != [] {
      NoIndicators(row[..|row| - 1]);
    }
  }

  // ---------------------------------------------------------------------------
  // Column widths
  // ---------------------------------------------------------------------------

  /** The display width of a cell: its number of characters. */
  function Width(c: TableCell): nat { |c.content| }

  /** Widening `w` by the cell of `row` in column `j`, if the row has one. */
  function RowStep(w: nat, row: seq<TableCell>, j: nat): (r: nat)
    ensures r >= w
  {
    if j < |row| then Max(w, Width(row[j])) else w
  }

  /** `w` widened by every row's cell in column `j`. */
  function ColumnMax(rows: seq<seq<TableCell>>, j: nat, w: nat): (r: nat)
    ensures r >= w
  {
    if rows == [] then w else RowStep(ColumnMax(rows[..|rows| - 1], j, w), rows[|rows| - 1], j)
  }

  /** The widths `calculate_column_widths` computes: one per header, the
      widest of the header and the cells below it, and at least 3. */
  function ColumnWidths(headers: seq<TableCell>, rows: seq<seq<TableCell>>): (r: seq<nat>)
    ensures |r| == |headers|
  {
    seq(|headers|, j requires 0 <= j < |headers| => Max(ColumnMax(rows, j, Width(headers[j])), 3))
  }

  lemma ColumnMaxStep(rows: seq<seq<TableCell>>, r: nat, j: nat, w: nat)
    requires r < |rows|
    ensures ColumnMax(rows[..r + 1], j, w) == RowStep(ColumnMax(rows[..r], j, w), rows[r], j)
  {
    assert rows[..r + 1][..r] == rows[..r];
  }

  /** `calculate_column_widths`. */
  method CalculateColumnWidths(headers: seq<TableCell>, rows: seq<seq<TableCell>>) returns (result: seq<nat>)
    ensures result == ColumnWidths(headers, rows)
  {
    if |headers| == 0 {
      return [];
    }
    var widths := new nat[|headers|](j requires 0 <= j < |headers| => Width(headers[j]));
    var r := 0;
    while r < |rows|
      invariant 0 <= r <= |rows|
      invariant forall j :: 0 <= j < |headers| ==> widths[j] == ColumnMax(rows[..r], j, Width(headers[j]))
    {
      var row := rows[r];
      var c := 0;
      while c < |row|
        invariant 0 <= c <= |row|
        invariant forall j :: 0 <= j < |headers| ==>
          widths[j] == if j < c then RowStep(ColumnMax(rows[..r], j, Width(headers[j])), row, j)
                       else ColumnMax(rows[..r], j, Width(headers[j]))
      {
        if c < widths.Length {
          widths[c] := Max(widths[c], Width(row[c]));
        }
        c := c + 1;
      }
      forall j | 0 <= j < |headers|
        ensures widths[j] == ColumnMax(rows[..r + 1], j, Width(headers[j]))
      {
        ColumnMaxStep(rows, r, j, Width(headers[j]));
      }
      r := r + 1;
    }
    assert rows[..r] == rows;
    var k := 0;
    while k < widths.Length
      invariant 0 <= k <= widths.Length
      invariant forall j :: 0 <= j < |headers| ==>
        widths[j] == if j < k then Max(ColumnMax(rows, j, Width(headers[j])), 3) else ColumnMax(rows, j, Width(headers[j]))
    {
      widths[k] := Max(widths[k], 3);
      k := k + 1;
    }
    result := widths[..];
  }

  /** A column is at least as wide as its header, as each of its cells, and
      as 3. */
  lemma WidthCoversColumn(headers: seq<TableCell>, rows: seq<seq<TableCell>>, j: nat)
    requires j < |headers|
    ensures ColumnWidths(headers, rows)[j] >= 3
    ensures ColumnWidths(headers, rows)[j] >= Width(headers[j])
    ensures forall k :: 0 <= k < |rows| && j < |rows[k]| ==> ColumnWidths(headers, rows)[j] >= Width(rows[k][j])
  {
    ColumnMaxCovers(rows, j, Width(headers[j]));
  }

  lemma {:induction false} ColumnMaxCovers(rows: seq<seq<TableCell>>, j: nat, w: nat)
    ensures forall k :: 0 <= k < |rows| && j < |rows[k]| ==> ColumnMax(rows, j, w) >= Width(rows[k][j])
  {
    if rows != [] {
      var init := rows[..|rows| - 1];
      ColumnMaxCovers(init, j, w);
      forall k | 0 <= k < |rows| - 1 && j < |rows[k]|
        ensures ColumnMax(rows, j, w) >= Width(rows[k][j])
      {
        assert init[k] == rows[k];
      }
    }
  }

  /** The width is no wider than it must be: it is 3, the header's width or
      the width of one of the column's cells. */
  lemma WidthIsAttained(headers: seq<TableCell>, rows: seq<seq<TableCell>>, j: nat)
    requires j < |headers|
    ensures var w := ColumnWidths(headers, rows)[j];
      w == 3 || w == Width(headers[j]) || exists k :: 0 <= k < |rows| && j < |rows[k]| && w == Width(rows[k][j])
  {
    ColumnMaxAttained(rows, j, Width(headers[j]));
  }

  lemma {:induction false} ColumnMaxAttained(rows: seq<seq<TableCell>>, j: nat, w: nat)
    ensures var m := ColumnMax(rows, j, w);
      m == w || exists k :: 0 <= k < |rows| && j < |rows[k]| && m == Width(rows[k][j])
  {
    if rows != [] {
      var init := rows[..|rows| - 1];
      ColumnMaxAttained(init, j, w);
      var m := ColumnMax(init, j, w);
      if m != w && ColumnMax(rows, j, w) == m {
        var k :| 0 <= k < |init| && j < |init[k]| && m == Width(init[k][j]);
        assert init[k] == rows[k];
      }
    }
  }

  // ---------------------------------------------------------------------------
  // Column alignments
  // ---------------------------------------------------------------------------

  /** The rows that have a cell in column `c`. */
  function CellsIn(rows: seq<seq<TableCell>>, c: nat): (n: nat)
    ensures n <= |rows|
  {
    if rows == [] then 0 else CellsIn(rows[..|rows| - 1], c) + (if c < |rows[|rows| - 1]| then 1 else 0)
  }

  /** The rows whose cell in column `c` is of a numeric type. */
  function NumericIn(rows: seq<seq<TableCell>>, c: nat): (n: nat)
    ensures n <= CellsIn(rows, c)
  {
    if rows == [] then 0
    else
      var last := rows[|rows| - 1];
      NumericIn(rows[..|rows| - 1], c) + (if c < |last| && IsNumericType(last[c].dataType) then 1 else 0)
  }

  /** Right when more than 70% of the column's cells are numeric, the ratio
      compared exactly. The guard against an empty column is redundant: with
      no cells nothing is numeric. A column of numeric cells only is right
      aligned. */
  function ColumnAlignment(rows: seq<seq<TableCell>>, c: nat): (a: TextAlignment)
    ensures a == Right <==> 10 * NumericIn(rows, c) > 7 * CellsIn(rows, c)
    ensures 0 < CellsIn(rows, c) == NumericIn(rows, c) ==> a == Right
    ensures a == Right || a == Left
  {
    if CellsIn(rows, c) > 0 && 10 * NumericIn(rows, c) > 7 * CellsIn(rows, c) then Right else Left
  }

  /** The alignments `determine_column_alignments` computes, one per header. */
  function ColumnAlignments(headers: seq<TableCell>, rows: seq<seq<TableCell>>): (r: seq<TextAlignment>)
    ensures |r| == |headers|
  {
    seq(|headers|, c requires 0 <= c < |headers| => ColumnAlignment(rows, c))
  }

  lemma CountStep(rows: seq<seq<TableCell>>, r: nat, c: nat)
    requires r < |rows|
    ensures CellsIn(rows[..r + 1], c) == CellsIn(rows[..r], c) + (if c < |rows[r]| then 1 else 0)
    ensures NumericIn(rows[..r + 1], c) ==
      NumericIn(rows[..r], c) + (if c < |rows[r]| && IsNumericType(rows[r][c].dataType) then 1 else 0)
  {
    assert rows[..r + 1][..r] == rows[..r];
  }

  /** `determine_column_alignments`. */
  method DetermineColumnAlignments(headers: seq<TableCell>, rows: seq<seq<TableCell>>)
    returns (result: seq<TextAlignment>)
    ensures result == ColumnAlignments(headers, rows)
  {
    var alignments := new TextAlignment[|headers|](_ => Left);
    var col := 0;
    while col < alignments.Length
      invariant 0 <= col <= alignments.Length == |headers|
      invariant forall j :: 0 <= j < col ==> alignments[j] == ColumnAlignment(rows, j)
      invariant forall j :: col <= j < |headers| ==> alignments[j] == Left
    {
      var numericCount := 0;
      var totalCount := 0;
      ghost var before := alignments[..];
      var r := 0;
      while r < |rows|
        invariant 0 <= r <= |rows|
        invariant alignments[..] == before
        invariant totalCount == CellsIn(rows[..r], col)
        invariant numericCount == NumericIn(rows[..r], col)
      {
        CountStep(rows, r, col);
        if col < |rows[r]| {
          totalCount := totalCount + 1;
          if IsNumericType(rows[r][col].dataType) {
            numericCount := numericCount + 1;
          }
        }
        r := r + 1;
      }
      assert rows[..r] == rows;
      if totalCount > 0 && 10 * numericCount > 7 * totalCount {
        alignments[col] := Right;
      }
      col := col + 1;
    }
    result := alignments[..];
  }

  /** A column that every row fills with a numeric cell is right-aligned. */
  lemma {:induction false} AllNumericRight(rows: seq<seq<TableCell>>, c: nat)
    requires |rows| > 0
    requires forall k :: 0 <= k < |rows| ==> c < |rows[k]| && IsNumericType(rows[k][c].dataType)
    ensures ColumnAlignment(rows, c) == Right
  {
    AllNumericCounts(rows, c);
  }

  lemma {:induction false} AllNumericCounts(rows: seq<seq<TableCell>>, c: nat)
    requires forall k :: 0 <= k < |rows| ==> c < |rows[k]| && IsNumericType(rows[k][c].dataType)
    ensures NumericIn(rows, c) == CellsIn(rows, c) == |rows|
  {
    if rows != [] {
      AllNumericCounts(rows[..|rows| - 1], c);
    }
  }

  /** A column no row reaches is left-aligned. */
  lemma {:induction false} EmptyColumnLeft(rows: seq<seq<TableCell>>, c: nat)
    requires forall k :: 0 <= k < |rows| ==> |rows[k]| <= c
    ensures CellsIn(rows, c) == 0 && ColumnAlignment(rows, c) == Left
  {
    if rows != [] {
      EmptyColumnLeft(rows[..|rows| - 1], c);
    }
  }

  /** Exactly 70% numeric is not enough. */
  lemma SeventyPercentIsLeft(rows: seq<seq<TableCell>>, c: nat)
    requires CellsIn(rows, c) == 10 && NumericIn(rows, c) == 7
    ensures ColumnAlignment(rows, c) == Left
  {
  }

  // ---------------------------------------------------------------------------
  // Table data
  // ---------------------------------------------------------------------------

  /** `TableData::new`: the header row, the data rows and their metadata. */
  function TableDataOf(headers: seq<TableCell>, rows: seq<seq<TableCell>>): (t: TableData)
  {
    TableData(headers, rows,
      TableMetadata(|headers|, |rows|, headers != [], ColumnWidths(headers, rows), ColumnAlignments(headers, rows), None))
  }

  /** `TableData::new`, computing widths and alignments. */
  method NewTableData(headers: seq<TableCell>, rows: seq<seq<TableCell>>) returns (t: TableData)
    ensures t == TableDataOf(headers, rows)
  {
    var widths := CalculateColumnWidths(headers, rows);
    var alignments := DetermineColumnAlignments(headers, rows);
    t := TableData(headers, rows, TableMetadata(|headers|, |rows|, |headers| > 0, widths, alignments, None));
  }

  /** The metadata describes the table: one width and one alignment per
      column, as many columns as header cells. */
  lemma MetadataConsistent(headers: seq<TableCell>, rows: seq<seq<TableCell>>)
    ensures var m := TableDataOf(headers, rows).metadata;
      m.columnCount == |m.columnWidths| == |m.columnAlignments| == |headers|
      && m.rowCount == |rows| && (m.hasHeaders <==> m.columnCount > 0)
      && forall j :: 0 <= j < m.columnCount ==> m.columnWidths[j] >= 3
  {
    forall j | 0 <= j < |headers|
      ensures ColumnWidths(headers, rows)[j] >= 3
    {
      WidthCoversColumn(headers, rows, j);
    }
  }

  // ---------------------------------------------------------------------------
  // Cells of a Word table
  // ---------------------------------------------------------------------------

  /** The text and formatting collected while walking a cell. */
  datatype CellScan = CellScan(text: string, formatting: TextFormatting)

  /** One text element added to the cell text, with a space in between
      unless the text so far is empty or ends in one. */
  function AddText(acc: string, t: string): (r: string)
    ensures StartsWith(r, acc)
  {
    if acc != [] && acc[|acc| - 1] != ' ' then acc + " " + t else acc + t
  }

  function ScanRunChildren(acc: string, cs: seq<Docx.RunChild>): string
    decreases |cs|
  {
    if cs == [] then acc
    else ScanRunChildren(if cs[0].TextChild? then AddText(acc, cs[0].text) else acc, cs[1..])
  }

  /** A run: its formatting is taken while the cell is neither bold nor
      italic, and its text elements are added. */
  function ScanRun(st: CellScan, run: Docx.Run): CellScan
  {
    var f := if !st.formatting.bold && !st.formatting.italic then run.formatting else st.formatting;
    CellScan(ScanRunChildren(st.text, run.children), f)
  }

  /** Runs count; tracked insertions and other paragraph children do not. */
  function ScanParagraphChildren(st: CellScan, cs: seq<Docx.ParagraphChild>): CellScan
    decreases |cs|
  {
    if cs == [] then st
    else ScanParagraphChildren(if cs[0].ParagraphRun? then ScanRun(st, cs[0].run) else st, cs[1..])
  }

  /** Paragraphs count; other cell content does not. */
  function ScanContents(st: CellScan, cs: seq<Docx.CellContent>): CellScan
    decreases |cs|
  {
    if cs == [] then st
    else ScanContents(if cs[0].CellParagraph? then ScanParagraphChildren(st, cs[0].paragraph.children) else st, cs[1..])
  }

  /** The table cell a Word cell becomes: its trimmed text, typed and aligned
      by `TableCell::new`, with the collected formatting. */
  function CellOf(cell: Docx.Cell): TableCell
  {
    var st := ScanContents(CellScan("", DefaultFormatting), cell.children);
    NewCell(Trim(st.text)).(formatting := st.formatting)
  }

  /** The text collected so far is never lost. */
  lemma {:induction false} RunChildrenExtend(acc: string, cs: seq<Docx.RunChild>)
    ensures StartsWith(ScanRunChildren(acc, cs), acc)
    decreases |cs|
  {
    if cs != [] {
      var next := if cs[0].TextChild? then AddText(acc, cs[0].text) else acc;
      RunChildrenExtend(next, cs[1..]);
    }
  }

  /** Two text elements are joined by exactly one space. */
  lemma JoinedBySpace(a: string, b: string)
    requires a != [] && a[|a| - 1] != ' '
    ensures ScanRunChildren("", [Docx.TextChild(a), Docx.TextChild(b)]) == a + " " + b
  {
    var cs := [Docx.TextChild(a), Docx.TextChild(b)];
    assert AddText("", a) == a;
    assert cs[1..] == [Docx.TextChild(b)];
    assert ScanRunChildren("", cs) == ScanRunChildren(a, [Docx.TextChild(b)]);
    assert [Docx.TextChild(b)][1..] == [];
    assert ScanRunChildren(a, [Docx.TextChild(b)]) == ScanRunChildren(AddText(a, b), []);
  }

  /** Once the cell is bold or italic its formatting is fixed. */
  lemma {:induction false} FormattingSticks(st: CellScan, cs: seq<Docx.ParagraphChild>)
    requires st.formatting.bold || st.formatting.italic
    ensures ScanParagraphChildren(st, cs).formatting == st.formatting
    decreases |cs|
  {
    if cs != [] {
      var next := if cs[0].ParagraphRun? then ScanRun(st, cs[0].run) else st;
      FormattingSticks(next, cs[1..]);
    }
  }

  lemma ScanContentsStep(st: CellScan, cs: seq<Docx.CellContent>, i: nat)
    requires i < |cs|
    ensures ScanContents(st, cs[i..]) ==
      ScanContents(if cs[i].CellParagraph? then ScanParagraphChildren(st, cs[i].paragraph.children) else st, cs[i + 1..])
  {
    assert cs[i..][1..] == cs[i + 1..];
  }

  lemma ScanParagraphStep(st: CellScan, cs: seq<Docx.ParagraphChild>, i: nat)
    requires i < |cs|
    ensures ScanParagraphChildren(st, cs[i..]) ==
      ScanParagraphChildren(if cs[i].ParagraphRun? then ScanRun(st, cs[i].run) else st, cs[i + 1..])
  {
    assert cs[i..][1..] == cs[i + 1..];
  }

  lemma ScanRunStep(acc: string, cs: seq<Docx.RunChild>, i: nat)
    requires i < |cs|
    ensures ScanRunChildren(acc, cs[i..]) ==
      ScanRunChildren(if cs[i].TextChild? then AddText(acc, cs[i].text) else acc, cs[i + 1..])
  {
    assert cs[i..][1..] == cs[i + 1..];
  }

  /** The text of one run's children added to `acc`. */
  method AddRunText(acc: string, run: Docx.Run) returns (text: string)
    ensures text == ScanRunChildren(acc, run.children)
  {
    text := acc;
    var k := 0;
    while k < |run.children|
      invariant 0 <= k <= |run.children|
      invariant ScanRunChildren(acc, run.children) == ScanRunChildren(text, run.children[k..])
    {
      ScanRunStep(text, run.children, k);
      if run.children[k].TextChild? {
        if text != [] && text[|text| - 1] != ' ' {
          text := text + " ";
        }
        text := text + run.children[k].text;
      }
      k := k + 1;
    }
  }

  /** The walk over one Word cell in `extract_table_data`. */
  method ExtractCell(cell: Docx.Cell) returns (result: TableCell)
    ensures result == CellOf(cell)
  {
    var text := "";
    var formatting := DefaultFormatting;
    var i := 0;
    while i < |cell.children|
      invariant 0 <= i <= |cell.children|
      invariant ScanContents(CellScan("", DefaultFormatting), cell.children)
             == ScanContents(CellScan(text, formatting), cell.children[i..])
    {
      ScanContentsStep(CellScan(text, formatting), cell.children, i);
      if cell.children[i].CellParagraph? {
        var children := cell.children[i].paragraph.children;
        ghost var start := CellScan(text, formatting);
        var j := 0;
        while j < |children|
          invariant 0 <= j <= |children|
          invariant ScanParagraphChildren(start, children) == ScanParagraphChildren(CellScan(text, formatting), children[j..])
        {
          ScanParagraphStep(CellScan(text, formatting), children, j);
          if children[j].ParagraphRun? {
            var run := children[j].run;
            if !formatting.bold && !formatting.italic {
              formatting := run.formatting;
            }
            text := AddRunText(text, run);
          }
          j := j + 1;
        }
      }
      i := i + 1;
    }
    result := NewCell(Trim(text)).(formatting := formatting);
  }

  /** The cells of a row, in order. */
  function RowOf(row: seq<Docx.Cell>): (r: seq<TableCell>)
    ensures |r| == |row|
  {
    if row == [] then [] else RowOf(row[..|row| - 1]) + [CellOf(row[|row| - 1])]
  }

  /** The rows of a Word table that have cells, turned into table cells. */
  function RowsOf(rows: seq<seq<Docx.Cell>>): seq<seq<TableCell>>
  {
    if rows == [] then []
    else
      var last := rows[|rows| - 1];
      RowsOf(rows[..|rows| - 1]) + (if |last| > 0 then [RowOf(last)] else [])
  }

  lemma RowOfStep(row: seq<Docx.Cell>, j: nat)
    requires j < |row|
    ensures RowOf(row[..j + 1]) == RowOf(row[..j]) + [CellOf(row[j])]
  {
    assert row[..j + 1][..j] == row[..j];
  }

  lemma RowsStep(rows: seq<seq<Docx.Cell>>, r: nat, cells: seq<TableCell>)
    requires r < |rows| && cells == RowOf(rows[r])
    ensures RowsOf(rows[..r + 1]) == RowsOf(rows[..r]) + (if |rows[r]| > 0 then [cells] else [])
  {
    assert rows[..r + 1][..r] == rows[..r];
  }

  /** The cells of row `r`, with what the row adds to the table rows. */
  method ExtractRow(rows: seq<seq<Docx.Cell>>, r: nat) returns (rowCells: seq<TableCell>)
    requires r < |rows|
    ensures |rowCells| == |rows[r]|
    ensures RowsOf(rows[..r + 1]) == RowsOf(rows[..r]) + (if |rowCells| > 0 then [rowCells] else [])
  {
    var row := rows[r];
    rowCells := [];
    var j := 0;
    while j < |row|
      invariant 0 <= j <= |row|
      invariant rowCells == RowOf(row[..j])
    {
      RowOfStep(row, j);
      var c := ExtractCell(row[j]);
      rowCells := rowCells + [c];
      j := j + 1;
    }
    assert row[..j] == row;
    RowsStep(rows, r, rowCells);
  }

  /** Where the row loop of `extract_table_data` stands after the rows that
      gave `done`: before the first row with cells nothing is kept; after it,
      either that row is the header and the others are data, or all of them
      are data. */
  predicate RowProgress(done: seq<seq<TableCell>>, isFirstRow: bool, header: seq<TableCell>, data: seq<seq<TableCell>>)
  {
    (done == [] ==> isFirstRow && header == [] && data == [])
    && (done != [] ==>
          !isFirstRow && |done[0]| > 0
          && ((header == done[0] && data == done[1..]) || (header == [] && data == done)))
  }

  /** The contents of a row's cells. */
  function Contents(cells: seq<TableCell>): (r: seq<string>)
    ensures |r| == |cells|
  {
    seq(|cells|, i requires 0 <= i < |cells| => cells[i].content)
  }

  /** The element a Word table becomes: none without rows that have cells;
      otherwise the first such row is the header and the others the data.
      Whether the first row looks like a header does not matter, since a
      first row not taken as header is promoted to header afterwards. */
  function ExtractedTable(table: Docx.Table): Option<DocumentElement>
  {
    var rows := RowsOf(table.rows);
    if rows == [] then None else Some(Table(TableDataOf(rows[0], rows[1..])))
  }

  /** One more row with cells: it becomes the header only when it is the
      first one and looks like a header; otherwise it joins the data. */
  lemma ProgressStep(done: seq<seq<TableCell>>, isFirstRow: bool, header: seq<TableCell>, data: seq<seq<TableCell>>,
                     cells: seq<TableCell>, looksLikeHeader: bool)
    requires RowProgress(done, isFirstRow, header, data)
    ensures |cells| > 0 && isFirstRow && looksLikeHeader ==> RowProgress(done + [cells], false, cells, data)
    ensures |cells| > 0 && !(isFirstRow && looksLikeHeader) ==> RowProgress(done + [cells], false, header, data + [cells])
  {
    var next := done + [cells];
    assert next[..|done|] == done;
    if done != [] {
      assert next[0] == done[0];
      assert next[1..] == done[1..] + [cells];
    }
  }

  /** `extract_table_data`. */
  method ExtractTableData(table: Docx.Table) returns (result: Option<DocumentElement>)
    ensures result == ExtractedTable(table)
  {
    var headerCells: seq<TableCell> := [];
    var dataRows: seq<seq<TableCell>> := [];
    var isFirstRow := true;
    var r := 0;
    while r < |table.rows|
      invariant 0 <= r <= |table.rows|
      invariant RowProgress(RowsOf(table.rows[..r]), isFirstRow, headerCells, dataRows)
    {
      var rowCells := ExtractRow(table.rows, r);
      ProgressStep(RowsOf(table.rows[..r]), isFirstRow, headerCells, dataRows, rowCells, AppearsToBeHeader(Contents(rowCells)));
      if |rowCells| > 0 {
        var rawText := Contents(rowCells);
        if isFirstRow && AppearsToBeHeader(rawText) {
          headerCells := rowCells;
          isFirstRow := false;
        } else {
          dataRows := dataRows + [rowCells];
          isFirstRow := false;
        }
      }
      r := r + 1;
    }
    assert table.rows[..r] == table.rows;
    if |headerCells| == 0 && |dataRows| > 0 {
      headerCells := dataRows[0];
      dataRows := dataRows[1..];
    }
    if |headerCells| > 0 || |dataRows| > 0 {
      var tableData := NewTableData(headerCells, dataRows);
      return Some(Table(tableData));
    }
    return None;
  }

  /** A table without rows that have cells gives no element. */
  lemma {:induction false} NoCellsNoTable(rows: seq<seq<Docx.Cell>>)
    requires forall k :: 0 <= k < |rows| ==> rows[k] == []
    ensures RowsOf(rows) == []
  {
    if rows != [] {
      NoCellsNoTable(rows[..|rows| - 1]);
    }
  }

  /** Every data row keeps the cells of a Word row, in order: the table has
      one header row and as many data rows as the Word table has rows with
      cells, less one. */
  lemma {:induction false} RowsCounted(rows: seq<seq<Docx.Cell>>)
    ensures |RowsOf(rows)| <= |rows|
    ensures (forall k :: 0 <= k < |rows| ==> rows[k] != []) ==> |RowsOf(rows)| == |rows|
  {
    if rows != [] {
      RowsCounted(rows[..|rows| - 1]);
    }
  }
}
