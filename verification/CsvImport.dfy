/**
 * The spreadsheet import of app/utils.py: the ordered column classifier,
 * the cleaning of numeric cells, the delete-then-recreate overwrite of the
 * imported advertisers' spending rows, the sweep that moves non-qualified
 * advertisers to "ours" or "non-market", and the lead-status colour lookup.
 */
module CsvImport {

  import opened Common
  import opened Text
  import opened Models
  import opened Resolver

  // ---------------------------------------------------------------------
  // Column classifier
  // ---------------------------------------------------------------------

  /** The field a spreadsheet column is renamed to. */
  datatype Column = AdvertiserName | YearColumn | Figure(channel: Channel) | GrandTotal

  /** The numeric fields, in the order the fill step lists them. */
  const NumericColumns: seq<Column> := [
    Figure(Cinema), Figure(Billboard), Figure(IndoorTv), Figure(Internet), Figure(Magazines),
    Figure(Newspapers), Figure(OutdoorStatic), Figure(Radio), Figure(Tv), GrandTotal]

  /** `col.lower().strip()` */
  function ColumnKey(col: string): string
  {
    Strip(Lower(col))
  }

  /**
   * The rename rule for one lower-cased, stripped header: the rules are
   * tried in order and the first that matches wins; a header no rule
   * matches keeps its name.
   */
  function ClassifyKey(c: string): Option<Column>
  {
    if Contains(c, "a_adver_e") || Contains(c, "adver") then Some(AdvertiserName)
    else if Contains(c, "year") then Some(YearColumn)
    else if Contains(c, "cinema") then Some(Figure(Cinema))
    else if Contains(c, "fillboard") || Contains(c, "billboard") then Some(Figure(Billboard))
    else if Contains(c, "indoor") then Some(Figure(IndoorTv))
    else if Contains(c, "internet") then Some(Figure(Internet))
    else if Contains(c, "magazine") then Some(Figure(Magazines))
    else if Contains(c, "newspaper") then Some(Figure(Newspapers))
    else if Contains(c, "outdoor") && Contains(c, "static") then Some(Figure(OutdoorStatic))
    else if Contains(c, "radio") then Some(Figure(Radio))
    else if c == "tv" then Some(Figure(Tv))
    else if Contains(c, "grand") && Contains(c, "total") then Some(GrandTotal)
    else None
  }

  /**
   * Any header holding 'adver' is the advertiser column and only those are;
   * only the exact key "tv" is the TV column; the outdoor-static and
   * grand-total columns need both of their words.
   */
  lemma ClassifyKeyRules(c: string)
    ensures Contains(c, "adver") ==> ClassifyKey(c) == Some(AdvertiserName)
    ensures ClassifyKey(c) == Some(AdvertiserName) ==> Contains(c, "adver")
    ensures ClassifyKey(c) == Some(Figure(Tv)) <==> c == "tv"
    ensures ClassifyKey(c) == Some(Figure(OutdoorStatic)) ==> Contains(c, "outdoor") && Contains(c, "static")
    ensures ClassifyKey(c) == Some(GrandTotal) ==> Contains(c, "grand") && Contains(c, "total")
  {
    AdverSubsumesLongForm(c);
    ShortKeyMatchesNoKeyword(c);
  }

  /** The rename rule applied to a header as the spreadsheet spells it. */
  function ClassifyColumn(col: string): Option<Column>
  {
    ClassifyKey(ColumnKey(col))
  }

  /** The long form 'a_adver_e' of the advertiser rule is subsumed by 'adver'. */
  lemma AdverSubsumesLongForm(c: string)
    ensures Contains(c, "a_adver_e") ==> Contains(c, "adver")
  {
    if Contains(c, "a_adver_e") {
      assert OccursAt("a_adver_e", "adver", 2);
      ContainsIffOccurs("a_adver_e", "adver");
      ContainsTransitive(c, "a_adver_e", "adver");
    }
  }

  /** A key that is exactly "tv" is too short for every other keyword. */
  lemma ShortKeyMatchesNoKeyword(c: string)
    ensures c == "tv" ==>
      && !Contains(c, "adver") && !Contains(c, "a_adver_e") && !Contains(c, "year") && !Contains(c, "cinema")
      && !Contains(c, "fillboard") && !Contains(c, "billboard") && !Contains(c, "indoor") && !Contains(c, "internet")
      && !Contains(c, "magazine") && !Contains(c, "newspaper") && !Contains(c, "outdoor") && !Contains(c, "radio")
  {
    if c == "tv" {
      forall w: string | |w| > 2 ensures !Contains(c, w) {
        if Contains(c, w) { ContainsLength(c, w); }
      }
    }
  }

  /** The renamed header: one classification per column, in header order. */
  function Classified(header: seq<string>): (cols: seq<Option<Column>>)
    ensures |cols| == |header|
    decreases |header|
  {
    if header == [] then [] else Classified(header[..|header| - 1]) + [ClassifyColumn(header[|header| - 1])]
  }

  /** Each column of the renamed header is its own header's classification. */
  lemma {:induction false} ClassifiedAt(header: seq<string>, k: nat)
    requires k < |header|
    ensures Classified(header)[k] == ClassifyColumn(header[k])
    decreases |header|
  {
    if k < |header| - 1 {
      ClassifiedAt(header[..|header| - 1], k);
    }
  }

  lemma IndoorTvKey(c: string)
    requires c == "indoor tv"
    ensures ClassifyKey(c) == Some(Figure(IndoorTv))
  {
    MissingChar(c, "adver", 0);
    MissingChar(c, "a_adver_e", 0);
    MissingChar(c, "year", 0);
    MissingChar(c, "cinema", 0);
    MissingChar(c, "fillboard", 0);
    MissingChar(c, "billboard", 0);
    PrefixContained(c, "indoor");
  }

  /** A header that names TV together with another word is not the TV column: "Indoor TV" is indoor TV. */
  lemma IndoorTvIsNotTv(col: string)
    requires col == "Indoor TV"
    ensures ClassifyColumn(col) == Some(Figure(IndoorTv))
  {
    LowerIndoorTv(col);
    StripIndoorTv();
    IndoorTvKey(ColumnKey(col));
  }

  lemma LowerIndoorTv(s: string)
    requires s == "Indoor TV"
    ensures Lower(s) == "indoor tv"
  {
    LowerAscii(s);
    var r := Lower(s);
    assert r[0] == 'i' && r[1] == 'n' && r[2] == 'd' && r[3] == 'o' && r[4] == 'o';
    assert r[5] == 'r' && r[6] == ' ' && r[7] == 't' && r[8] == 'v';
  }

  lemma StripIndoorTv()
    ensures Strip("indoor tv") == "indoor tv"
  {
    var s := "indoor tv";
    assert !IsSpace(s[0]) && TrimLeft(s) == s;
    assert !IsSpace(s[|s| - 1]) && TrimRight(s) == s;
  }

  lemma OutdoorKey(c: string)
    requires c == "outdoor"
    ensures ClassifyKey(c) == None
  {
    OutdoorMissesKeywords(c);
  }

  lemma OutdoorMissesKeywords(c: string)
    requires c == "outdoor"
    ensures !Contains(c, "adver") && !Contains(c, "a_adver_e") && !Contains(c, "year") && !Contains(c, "cinema")
    ensures !Contains(c, "fillboard") && !Contains(c, "billboard") && !Contains(c, "indoor") && !Contains(c, "internet")
    ensures !Contains(c, "magazine") && !Contains(c, "newspaper") && !Contains(c, "static") && !Contains(c, "radio")
    ensures !Contains(c, "grand")
  {
    OutdoorMissesFirstKeywords(c);
    OutdoorMissesLastKeywords(c);
  }

  lemma OutdoorMissesFirstKeywords(c: string)
    requires c == "outdoor"
    ensures !Contains(c, "adver") && !Contains(c, "a_adver_e") && !Contains(c, "year") && !Contains(c, "cinema")
    ensures !Contains(c, "fillboard") && !Contains(c, "billboard")
  {
    MissingChar(c, "adver", 0);
    MissingChar(c, "a_adver_e", 0);
    MissingChar(c, "year", 0);
    MissingChar(c, "cinema", 0);
    MissingChar(c, "fillboard", 0);
    MissingChar(c, "billboard", 0);
  }

  lemma OutdoorMissesLastKeywords(c: string)
    requires c == "outdoor"
    ensures !Contains(c, "indoor") && !Contains(c, "internet")
    ensures !Contains(c, "magazine") && !Contains(c, "newspaper") && !Contains(c, "static") && !Contains(c, "radio")
    ensures !Contains(c, "grand")
  {
    MissingChar(c, "indoor", 0);
    MissingChar(c, "internet", 0);
    MissingChar(c, "magazine", 0);
    MissingChar(c, "newspaper", 0);
    MissingChar(c, "static", 0);
    MissingChar(c, "radio", 1);
    MissingChar(c, "grand", 0);
  }

  /** An outdoor column without 'static' matches no rule and is not renamed. */
  lemma OutdoorAloneIsUnmapped(col: string)
    requires col == "Outdoor"
    ensures ClassifyColumn(col) == None
  {
    LowerOutdoor(col);
    StripOutdoor();
    OutdoorKey(ColumnKey(col));
  }

  lemma LowerOutdoor(s: string)
    requires s == "Outdoor"
    ensures Lower(s) == "outdoor"
  {
    LowerAscii(s);
    var r := Lower(s);
    assert r[0] == 'o' && r[1] == 'u' && r[2] == 't' && r[3] == 'd';
    assert r[4] == 'o' && r[5] == 'o' && r[6] == 'r';
  }

  lemma StripOutdoor()
    ensures Strip("outdoor") == "outdoor"
  {
    var s := "outdoor";
    assert !IsSpace(s[0]) && TrimLeft(s) == s;
    assert !IsSpace(s[|s| - 1]) && TrimRight(s) == s;
  }

  // ---------------------------------------------------------------------
  // Cells and the fill step
  // ---------------------------------------------------------------------

  /** One cell as the reader delivers it: empty (NaN) or its text. */
  datatype Cell = Blank | Text(s: string)

  /** A read spreadsheet: header and data rows (a row may be shorter than the header). */
  datatype Table = Table(header: seq<string>, rows: seq<seq<Cell>>)

  /**
   * The position of the column renamed to `c` (the first one; an upload
   * with two such columns fails before any cell is read).
   */
  function ColumnIndex(cols: seq<Option<Column>>, c: Column): (r: Option<nat>)
    ensures r.Some? ==> r.value < |cols| && cols[r.value] == Some(c)
    ensures r.None? <==> Some(c) !in cols
  {
    First(cols, (o: Option<Column>) => o == Some(c))
  }

  /**
   * Two header columns renamed to the same field. pandas then holds two
   * columns under one label: selecting it yields a frame rather than a
   * column, and the advertiser lookup, the number cleaning or the year
   * conversion raises, so the upload is rolled back.
   */
  predicate RenamedTwice(cols: seq<Option<Column>>)
  {
    exists i, j :: 0 <= i < j < |cols| && cols[i].Some? && cols[i] == cols[j]
  }

  /** The cell of `row` under field `c`; a missing column or a short row reads as empty. */
  function CellOf(cols: seq<Option<Column>>, row: seq<Cell>, c: Column): (r: Cell)
    ensures Some(c) !in cols ==> r == Blank
  {
    match ColumnIndex(cols, c)
    case None => Blank
    case Some(k) => if k < |row| then row[k] else Blank
  }

  /**
   * The text `astype(str)` produces for a numeric field after the fill
   * step: a missing column was added as 0 and an empty cell filled with 0.
   */
  function FilledText(cols: seq<Option<Column>>, row: seq<Cell>, c: Column): string
  {
    match CellOf(cols, row, c)
    case Blank => "0"
    case Text(s) => s
  }

  // ---------------------------------------------------------------------
  // clean_number
  // ---------------------------------------------------------------------

  /** The texts `clean_number` maps to 0 before looking at them. */
  const NullTokens: seq<string> := ["", "nan", "0.0", "None"]

  /** The characters `[\d.,]` keeps (ASCII digits). */
  predicate NumericChar(c: char)
  {
    '0' <= c <= '9' || c == '.' || c == ','
  }

  /** `re.sub(r'[^\d.,]', '', s)` */
  function KeepNumeric(s: string): (r: string)
    ensures |r| <= |s|
    ensures forall k :: 0 <= k < |r| ==> NumericChar(r[k])
  {
    if s == [] then [] else (if NumericChar(s[0]) then [s[0]] else []) + KeepNumeric(s[1..])
  }

  /**
   * The string `clean_number` hands to `float()`: the token checks, the
   * strip, the removal of spaces and of every other non-numeric
   * character; None where it returns 0 without parsing.
   */
  function CleanedText(value: string): (r: Option<string>)
  {
    if value in NullTokens then None
    else
      var v := Strip(value);
      if v == "" || v in NullTokens then None
      else
        var v := RemoveAll(v, " ");
        var v := KeepNumeric(v);
        if v == "" then None else Some(v)
  }

  function DigitValue(c: char): nat
  {
    if '0' <= c <= '9' then c as int - '0' as int else 0
  }

  /** The value of the digits `s` written after the digits whose value is `acc`. */
  function DigitsAfter(acc: nat, s: string): nat
    decreases |s|
  {
    if s == [] then acc else DigitsAfter(10 * acc + DigitValue(s[0]), s[1..])
  }

  /** The value of a run of decimal digits. */
  function DigitsValue(s: string): nat
  {
    DigitsAfter(0, s)
  }

  function Pow10(n: nat): (p: nat)
    ensures p >= 1
  {
    if n == 0 then 1 else 10 * Pow10(n - 1)
  }

  /**
   * Python's `float(s)` on a string of digits, '.' and ',': it parses
   * exactly when there is no comma, at most one point and at least one
   * digit.
   */
  function ParseDecimal(s: string): (r: Option<real>)
    requires forall k :: 0 <= k < |s| ==> NumericChar(s[k])
    ensures r.Some? ==> 0.0 <= r.value
    ensures r.Some? ==> ',' !in s && |SplitOn(s, '.')| <= 2
    ensures r.None? <==> ',' in s || |SplitOn(s, '.')| > 2 || s == "" || s == "."
  {
    var parts := SplitOn(s, '.');
    if ',' in s || |parts| > 2 || s == "" || s == "." then None
    else if |parts| == 1 then Some(DigitsValue(parts[0]) as real)
    else Some(DigitsValue(parts[0]) as real + DigitsValue(parts[1]) as real / Pow10(|parts[1]|) as real)
  }

  /** A failed parse reads as 0. */
  function OrZero(o: Option<real>): real
  {
    if o.Some? then o.value else 0.0
  }

  /** `clean_number` */
  function CleanNumber(value: string): (r: real)
    ensures 0.0 <= r
  {
    match CleanedText(value)
    case None => 0.0
    case Some(v) => OrZero(ParseDecimal(v))
  }

  lemma {:induction false} KeepNumericConcat(a: string, b: string)
    ensures KeepNumeric(a + b) == KeepNumeric(a) + KeepNumeric(b)
  {
    if a == [] {
      assert a + b == b;
    } else {
      var h := if NumericChar(a[0]) then [a[0]] else [];
      assert (a + b)[0] == a[0] && (a + b)[1..] == a[1..] + b;
      KeepNumericConcat(a[1..], b);
      calc {
        KeepNumeric(a + b);
        h + KeepNumeric(a[1..] + b);
        h + (KeepNumeric(a[1..]) + KeepNumeric(b));
        (h + KeepNumeric(a[1..])) + KeepNumeric(b);
      }
    }
  }

  /** Whitespace carries no numeric character. */
  lemma {:induction false} KeepNumericOfSpaces(s: string)
    requires forall k :: 0 <= k < |s| ==> IsSpace(s[k])
    ensures KeepNumeric(s) == ""
  {
    if s != [] {
      assert IsSpace(s[0]);
      KeepNumericOfSpaces(s[1..]);
    }
  }

  lemma KeepNumericTrimLeft(s: string)
    ensures KeepNumeric(TrimLeft(s)) == KeepNumeric(s)
  {
    var l := TrimLeft(s);
    var p := s[..|s| - |l|];
    assert s == p + l;
    KeepNumericConcat(p, l);
    KeepNumericOfSpaces(p);
  }

  lemma KeepNumericTrimRight(s: string)
    ensures KeepNumeric(TrimRight(s)) == KeepNumeric(s)
  {
    var r := TrimRight(s);
    var q := s[|r|..];
    assert s == r + q;
    KeepNumericConcat(r, q);
    assert forall k :: 0 <= k < |q| ==> q[k] == s[|r| + k];
    KeepNumericOfSpaces(q);
  }

  /** Stripping whitespace does not change the numeric characters. */
  lemma KeepNumericStrip(s: string)
    ensures KeepNumeric(Strip(s)) == KeepNumeric(s)
  {
    KeepNumericTrimLeft(s);
    KeepNumericTrimRight(TrimLeft(s));
  }

  /** Removing the spaces does not change the numeric characters. */
  lemma {:induction false} KeepNumericRemoveSpaces(s: string)
    ensures KeepNumeric(RemoveAll(s, " ")) == KeepNumeric(s)
    decreases |s|
  {
    if s != [] {
      KeepNumericRemoveSpaces(s[1..]);
      if " " <= s {
        assert s[0] == ' ';
      } else {
        KeepNumericConcat([s[0]], RemoveAll(s[1..], " "));
      }
    }
  }

  /** What `clean_number` hands to `float()` is exactly the numeric characters of its input. */
  lemma CleanedTextIsNumericPart(value: string)
    ensures CleanedText(value).Some? ==> CleanedText(value).value == KeepNumeric(value) != ""
  {
    KeepNumericStrip(value);
    KeepNumericRemoveSpaces(Strip(value));
  }

  /** Each null token reads as 0 through the numeric characters too. */
  lemma NullTokensReadAsZero(tok: string)
    requires tok in NullTokens
    ensures OrZero(ParseDecimal(KeepNumeric(tok))) == 0.0
  {
    assert tok == "" || tok == "nan" || tok == "0.0" || tok == "None";
    if tok == "0.0" {
      ZeroPointZeroParses();
    } else if tok == "nan" {
      assert KeepNumeric("nan") == "";
    } else if tok == "None" {
      assert KeepNumeric("None") == "";
    }
  }

  lemma ZeroPointZeroParses()
    ensures OrZero(ParseDecimal(KeepNumeric("0.0"))) == 0.0
  {
    assert KeepNumeric("0.0") == "0.0";
    SplitOneSeparator("0", "0", '.');
    assert "0" + ['.'] + "0" == "0.0";
    assert ParseDecimal("0.0") == Some(0.0);
  }

  /**
   * The token checks change nothing: `clean_number` is "parse the numeric
   * characters of the input, or 0 when they do not parse".
   */
  lemma CleanNumberReference(value: string)
    ensures CleanNumber(value) == OrZero(ParseDecimal(KeepNumeric(value)))
  {
    KeepNumericStrip(value);
    var v := Strip(value);
    if value in NullTokens {
      NullTokensReadAsZero(value);
    } else if v in NullTokens {
      NullTokensReadAsZero(v);
    } else {
      KeepNumericRemoveSpaces(v);
      assert CleanedText(value) == if KeepNumeric(value) == "" then None else Some(KeepNumeric(value));
    }
  }

  /** A character `[\d.,]` does not keep is read through wherever it stands. */
  lemma OtherCharIgnored(a: string, c: char, b: string)
    requires !NumericChar(c)
    ensures CleanNumber(a + [c] + b) == CleanNumber(a + b)
  {
    KeepNumericConcat(a + [c], b);
    KeepNumericConcat(a, [c]);
    KeepNumericConcat(a, b);
    assert KeepNumeric([c]) == [] by {
      assert [c][1..] == [];
    }
    assert KeepNumeric(a + [c] + b) == KeepNumeric(a + b);
    CleanNumberReference(a + [c] + b);
    CleanNumberReference(a + b);
  }

  /** Spaces as thousands separators are read through, wherever they stand. */
  lemma SpacedThousands(a: string, b: string)
    ensures CleanNumber(a + " " + b) == CleanNumber(a + b)
  {
    assert " " == [' '];
    OtherCharIgnored(a, ' ', b);
  }

  /** A minus sign is not kept, so a negative figure is read as its magnitude. */
  lemma MinusSignDropped(s: string)
    ensures CleanNumber("-" + s) == CleanNumber(s)
  {
    OtherCharIgnored([], '-', s);
    assert [] + ['-'] + s == "-" + s;
    assert [] + s == s;
  }

  /** A comma anywhere (decimal or thousands) makes `float()` fail, so the cell reads as 0. */
  lemma CommaReadsAsZero(value: string)
    requires ',' in value
    ensures CleanNumber(value) == 0.0
  {
    CleanNumberReference(value);
    var k :| 0 <= k < |value| && value[k] == ',';
    assert value == value[..k] + value[k..];
    KeepNumericConcat(value[..k], value[k..]);
    assert value[k..][1..] == value[k + 1..];
    assert KeepNumeric(value[k..]) == [','] + KeepNumeric(value[k + 1..]);
    assert ',' in KeepNumeric(value);
  }

  /** " 14 722 " reads as 14722. */
  lemma SpacedThousandsExample(value: string)
    requires value == " 14 722 "
    ensures CleanNumber(value) == 14722.0
  {
    CleanNumberReference(value);
    KeepSpacedThousands();
    Parse14722();
  }

  lemma KeepSpacedThousands()
    ensures KeepNumeric(" 14 722 ") == "14722"
  {
  }

  lemma Parse14722()
    ensures ParseDecimal("14722") == Some(14722.0)
  {
    SplitNoSeparator("14722", '.');
    assert DigitsAfter(0, "14722") == DigitsAfter(1, "4722");
    assert DigitsAfter(1, "4722") == DigitsAfter(14, "722");
    assert DigitsAfter(14, "722") == DigitsAfter(147, "22");
    assert DigitsAfter(147, "22") == DigitsAfter(1472, "2");
    assert DigitsAfter(1472, "2") == DigitsAfter(14722, "");
  }

  /** "-250" reads as 250. */
  lemma MinusSignDroppedExample(value: string)
    requires value == "-250"
    ensures CleanNumber(value) == 250.0
  {
    CleanNumberReference(value);
    KeepNegative();
    Parse250();
  }

  lemma KeepNegative()
    ensures KeepNumeric("-250") == "250"
  {
  }

  lemma Parse250()
    ensures ParseDecimal("250") == Some(250.0)
  {
    SplitNoSeparator("250", '.');
    assert DigitsAfter(0, "250") == DigitsAfter(2, "50");
    assert DigitsAfter(2, "50") == DigitsAfter(25, "0");
    assert DigitsAfter(25, "0") == DigitsAfter(250, "");
  }


  // ---------------------------------------------------------------------
  // Rows
  // ---------------------------------------------------------------------

  /** One imported row: the advertiser's name, the year and the ten cleaned figures. */
  datatype CsvRow = CsvRow(
    advertiser: string,
    year: int,
    cinema: real,
    billboard: real,
    indoorTv: real,
    internet: real,
    magazines: real,
    newspapers: real,
    outdoorStatic: real,
    radio: real,
    tv: real,
    grandTotal: real)

  /** A numeric field of a row after the fill step and `clean_number`. */
  function FigureOf(cols: seq<Option<Column>>, row: seq<Cell>, c: Column): real
  {
    CleanNumber(FilledText(cols, row, c))
  }

  /** The text "0" the fill step writes reads back as 0. */
  lemma FilledZeroReadsAsZero()
    ensures CleanNumber("0") == 0.0
  {
    CleanNumberReference("0");
    assert KeepNumeric("0") == "0";
    SplitNoSeparator("0", '.');
    assert DigitsAfter(0, "0") == DigitsAfter(0, "");
  }

  /** After the fill step every numeric field has a value: 0 for a missing column or an empty cell. */
  lemma MissingFiguresAreZero(cols: seq<Option<Column>>, row: seq<Cell>, c: Column)
    requires Some(c) !in cols || CellOf(cols, row, c) == Blank
    ensures FigureOf(cols, row, c) == 0.0
  {
    FilledZeroReadsAsZero();
  }

  /**
   * `int(row['year'])`: a missing year column or an empty (NaN) cell
   * raises; otherwise `readYear` is how the reader typed the cell followed
   * by `int()`.
   */
  function YearOf(cols: seq<Option<Column>>, row: seq<Cell>, readYear: string -> Option<int>): (r: Option<int>)
    ensures Some(YearColumn) !in cols ==> r.None?
  {
    match CellOf(cols, row, YearColumn)
    case Blank => None
    case Text(s) => readYear(s)
  }

  /**
   * One data row as the import loop reads it; None where the loop raises:
   * an empty advertiser name (the flush of a nameless advertiser fails) or
   * a year `int()` rejects.
   */
  function CleanRow(cols: seq<Option<Column>>, row: seq<Cell>, readYear: string -> Option<int>): (r: Option<CsvRow>)
    ensures r.Some? <==> CellOf(cols, row, AdvertiserName).Text? && YearOf(cols, row, readYear).Some?
    ensures r.Some? ==> r.value.advertiser == CellOf(cols, row, AdvertiserName).s && r.value.year == YearOf(cols, row, readYear).value
  {
    match CellOf(cols, row, AdvertiserName)
    case Blank => None
    case Text(name) =>
      match YearOf(cols, row, readYear)
      case None => None
      case Some(y) =>
        Some(CsvRow(name, y,
          FigureOf(cols, row, Figure(Cinema)), FigureOf(cols, row, Figure(Billboard)),
          FigureOf(cols, row, Figure(IndoorTv)), FigureOf(cols, row, Figure(Internet)),
          FigureOf(cols, row, Figure(Magazines)), FigureOf(cols, row, Figure(Newspapers)),
          FigureOf(cols, row, Figure(OutdoorStatic)), FigureOf(cols, row, Figure(Radio)),
          FigureOf(cols, row, Figure(Tv)), FigureOf(cols, row, GrandTotal)))
  }

  /** Every data row read, or None when one of them cannot be. */
  function CleanTable(cols: seq<Option<Column>>, rows: seq<seq<Cell>>, readYear: string -> Option<int>): (r: Option<seq<CsvRow>>)
    ensures r.Some? <==> forall k :: 0 <= k < |rows| ==> CleanRow(cols, rows[k], readYear).Some?
    ensures r.Some? ==> |r.value| == |rows|
  {
    if forall k :: 0 <= k < |rows| ==> CleanRow(cols, rows[k], readYear).Some? then
      Some(seq(|rows|, k requires 0 <= k < |rows| => CleanRow(cols, rows[k], readYear).value))
    else None
  }

  /** `df['advertiser_name'].unique()`: each name once, in order of first appearance. */
  function DistinctNames(rs: seq<CsvRow>): (names: seq<string>)
    ensures forall n :: n in names <==> exists k :: 0 <= k < |rs| && rs[k].advertiser == n
    ensures forall i, j :: 0 <= i < j < |names| ==> names[i] != names[j]
    decreases |rs|
  {
    if rs == [] then []
    else
      var init := DistinctNames(rs[..|rs| - 1]);
      var n := rs[|rs| - 1].advertiser;
      assert forall k :: 0 <= k < |rs| - 1 ==> rs[..|rs| - 1][k] == rs[k];
      if n in init then init else init + [n]
  }

  /** The names the import mentions. */
  function ImportedNames(rs: seq<CsvRow>): set<string>
  {
    set x | x in rs :: x.advertiser
  }

  // ---------------------------------------------------------------------
  // The overwrite
  // ---------------------------------------------------------------------

  /** Everything `DB.Valid` demands except the (advertiser, year) uniqueness of spending rows. */
  ghost predicate Consistent(db: DB)
  {
    && 1 <= db.nextAdvertiserId
    && IdsOrdered(db.advertisers, db.nextAdvertiserId)
    && NamesUnique(db.advertisers)
    && ContactRefsOk(db.contacts, Ids(db.advertisers))
    && ActivityRefsOk(db.activities, Ids(db.advertisers))
    && SpendingRefsOk(db.spending, Ids(db.advertisers))
  }

  /** The ids of the stored advertisers whose names are in `names`. */
  function NamedIds(advs: seq<Advertiser>, names: set<string>): set<nat>
  {
    set a | a in advs && a.name in names :: a.id
  }

  /** The rows not belonging to an advertiser in `ids`, in store order. */
  function Without(rows: seq<SpendingData>, ids: set<nat>): (r: seq<SpendingData>)
    ensures forall x :: x in r <==> x in rows && x.advertiserId !in ids
  {
    if rows == [] then []
    else (if rows[0].advertiserId in ids then [] else [rows[0]]) + Without(rows[1..], ids)
  }

  /** The rows of advertiser `id`, in store order. */
  function SpendingOf(rows: seq<SpendingData>, id: nat): (r: seq<SpendingData>)
    ensures forall x :: x in r <==> x in rows && x.advertiserId == id
  {
    if rows == [] then []
    else (if rows[0].advertiserId == id then [rows[0]] else []) + SpendingOf(rows[1..], id)
  }

  /** The deletion loop: every spending row of a stored advertiser named in the import is gone. */
  function Cleared(db: DB, names: set<string>): DB
  {
    db.(spending := Without(db.spending, NamedIds(db.advertisers, names)))
  }

  /** The spending row the import writes for `x` under advertiser `id`; there is no manual net figure. */
  function RowSpending(id: nat, x: CsvRow): SpendingData
  {
    SpendingData(id, x.year, x.cinema, x.billboard, x.indoorTv, x.internet, x.magazines,
      x.newspapers, x.outdoorStatic, x.radio, x.tv, x.grandTotal, None)
  }

  /** The id of the stored advertiser called `name` (0 when there is none). */
  function IdOf(advs: seq<Advertiser>, name: string): nat
  {
    match ByName(advs, name)
    case None => 0
    case Some(k) => advs[k].id
  }

  /** The rows written for `rs`, each under the advertiser its name finds in `advs`. */
  function Spendings(advs: seq<Advertiser>, rs: seq<CsvRow>): (r: seq<SpendingData>)
    ensures |r| == |rs|
    ensures forall k :: 0 <= k < |rs| ==> r[k] == RowSpending(IdOf(advs, rs[k].advertiser), rs[k])
  {
    seq(|rs|, k requires 0 <= k < |rs| => RowSpending(IdOf(advs, rs[k].advertiser), rs[k]))
  }

  /** The rows the import writes for the advertiser `name`, under its id, in file order. */
  function RowsFor(rs: seq<CsvRow>, name: string, id: nat): seq<SpendingData>
  {
    if rs == [] then []
    else (if rs[0].advertiser == name then [RowSpending(id, rs[0])] else []) + RowsFor(rs[1..], name, id)
  }

  /** One pass of the import loop: get or create the advertiser (as non-qualified), then add the row. */
  function AppendRow(db: DB, x: CsvRow): (r: DB)
    ensures db.advertisers <= r.advertisers && |r.advertisers| <= |db.advertisers| + 1
    ensures r.contacts == db.contacts && r.activities == db.activities
    ensures ByName(r.advertisers, x.advertiser).Some?
    ensures r.spending == db.spending + [RowSpending(IdOf(r.advertisers, x.advertiser), x)]
    ensures |r.advertisers| == |db.advertisers| ==> r.nextAdvertiserId == db.nextAdvertiserId
    ensures |r.advertisers| > |db.advertisers| ==>
              && r.advertisers[|db.advertisers|] == Advertiser(db.nextAdvertiserId, x.advertiser, None, NonQualified)
              && r.nextAdvertiserId == db.nextAdvertiserId + 1
  {
    match ByName(db.advertisers, x.advertiser)
    case Some(k) =>
      db.(spending := db.spending + [RowSpending(db.advertisers[k].id, x)])
    case None =>
      var d := db.WithAdvertiser(x.advertiser, None, NonQualified);
      FirstIsUnique(d.advertisers, (a: Advertiser) => a.name == x.advertiser, |db.advertisers|);
      d.(spending := d.spending + [RowSpending(db.nextAdvertiserId, x)])
  }

  /** Appending a fresh, unused name under the next id keeps ids ordered and names unique. */
  lemma AppendAdvertiserOrdered(advs: seq<Advertiser>, next: nat, name: string)
    requires IdsOrdered(advs, next) && NamesUnique(advs) && NameFree(advs, name) && 1 <= next
    ensures IdsOrdered(advs + [Advertiser(next, name, None, NonQualified)], next + 1)
    ensures NamesUnique(advs + [Advertiser(next, name, None, NonQualified)])
  {
  }

  /** References into a set of ids stay valid in any larger set. */
  lemma RefsGrow(db: DB, ids: set<nat>, more: set<nat>)
    requires ids <= more
    requires ContactRefsOk(db.contacts, ids) && ActivityRefsOk(db.activities, ids) && SpendingRefsOk(db.spending, ids)
    ensures ContactRefsOk(db.contacts, more) && ActivityRefsOk(db.activities, more) && SpendingRefsOk(db.spending, more)
  {
  }

  /** One pass of the import loop keeps every constraint but the spending uniqueness. */
  lemma AppendRowConsistent(db: DB, x: CsvRow)
    requires Consistent(db)
    ensures Consistent(AppendRow(db, x))
  {
    match ByName(db.advertisers, x.advertiser)
    case Some(k) => AppendRowFoundConsistent(db, x, k);
    case None => AppendRowNewConsistent(db, x);
  }

  /** A row for a stored advertiser references that advertiser. */
  lemma AppendRowFoundConsistent(db: DB, x: CsvRow, k: nat)
    requires Consistent(db) && ByName(db.advertisers, x.advertiser) == Some(k)
    ensures Consistent(AppendRow(db, x))
  {
    IdAt(db.advertisers, k);
    assert AppendRow(db, x) == db.(spending := db.spending + [RowSpending(db.advertisers[k].id, x)]);
  }

  /** A row for a new advertiser references the advertiser added for it. */
  lemma AppendRowNewConsistent(db: DB, x: CsvRow)
    requires Consistent(db) && ByName(db.advertisers, x.advertiser).None?
    ensures Consistent(AppendRow(db, x))
  {
    var d := db.WithAdvertiser(x.advertiser, None, NonQualified);
    var r := AppendRow(db, x);
    assert r == d.(spending := d.spending + [RowSpending(db.nextAdvertiserId, x)]);
    AppendAdvertiserOrdered(db.advertisers, db.nextAdvertiserId, x.advertiser);
    RefsGrow(db, Ids(db.advertisers), Ids(d.advertisers));
  }

  /** The import loop over the rows, in file order. */
  function AppendRows(db: DB, rs: seq<CsvRow>): DB
    decreases |rs|
  {
    if rs == [] then db else AppendRow(AppendRows(db, rs[..|rs| - 1]), rs[|rs| - 1])
  }

  /** An advertiser the import created: named in the file, non-qualified, no agency, a fresh id. */
  predicate CreatedByImport(a: Advertiser, rs: seq<CsvRow>, nextId: nat)
  {
    a.name in ImportedNames(rs) && a.leadStatus == NonQualified && a.currentAgency == None && a.id >= nextId
  }

  /** A lookup that succeeds keeps its answer when more advertisers are appended. */
  lemma ByNameExtend(advs: seq<Advertiser>, more: seq<Advertiser>, name: string)
    requires ByName(advs, name).Some?
    ensures ByName(advs + more, name) == ByName(advs, name)
  {
    var k := ByName(advs, name).value;
    FirstIsUnique(advs + more, (a: Advertiser) => a.name == name, k);
  }

  lemma ByNamePrefix(advs: seq<Advertiser>, longer: seq<Advertiser>, name: string)
    requires advs <= longer && ByName(advs, name).Some?
    ensures ByName(longer, name) == ByName(advs, name)
  {
    assert longer == advs + longer[|advs|..];
    ByNameExtend(advs, longer[|advs|..], name);
  }

  /**
   * What the import loop leaves behind, starting from `db`, after the rows
   * `rs`: the old advertisers first, then the ones it created; every name of
   * the file found; contacts and activities untouched; the old spending rows
   * followed by one row per file row, each under the advertiser its name
   * finds at the end.
   */
  ghost predicate ImportedFrom(db: DB, d: DB, rs: seq<CsvRow>)
  {
    && db.advertisers <= d.advertisers
    && db.nextAdvertiserId <= d.nextAdvertiserId
    && d.contacts == db.contacts && d.activities == db.activities
    && (forall x :: x in rs ==> ByName(d.advertisers, x.advertiser).Some?)
    && (forall k :: |db.advertisers| <= k < |d.advertisers| ==> CreatedByImport(d.advertisers[k], rs, db.nextAdvertiserId))
    && d.spending == db.spending + Spendings(d.advertisers, rs)
  }

  /** One pass of the import loop extends what the earlier passes left behind. */
  lemma ImportedStep(db: DB, d: DB, init: seq<CsvRow>, x: CsvRow)
    requires ImportedFrom(db, d, init)
    ensures ImportedFrom(db, AppendRow(d, x), init + [x])
  {
    var rs := init + [x];
    var r := AppendRow(d, x);
    FoundStep(d, init, x, rs);
    SpendingsStep(d, init, x, rs);
    CreatedStep(db, d, r, init, x, rs);
    var row := RowSpending(IdOf(r.advertisers, x.advertiser), x);
    assert r.spending == db.spending + (Spendings(d.advertisers, init) + [row]);
  }

  /** The import loop over `rs` leaves behind what `ImportedFrom` describes. */
  lemma {:induction false} AppendRowsFacts(db: DB, rs: seq<CsvRow>)
    ensures ImportedFrom(db, AppendRows(db, rs), rs)
    decreases |rs|
  {
    if rs == [] {
      assert Spendings(db.advertisers, rs) == [];
    } else {
      var init := rs[..|rs| - 1];
      AppendRowsFacts(db, init);
      ImportedStep(db, AppendRows(db, init), init, rs[|rs| - 1]);
      assert rs == init + [rs[|rs| - 1]];
    }
  }

  /** Names found before a pass of the loop are still found, under the same ids, after it. */
  lemma FoundStep(d: DB, init: seq<CsvRow>, x: CsvRow, rs: seq<CsvRow>)
    requires rs == init + [x]
    requires forall y :: y in init ==> ByName(d.advertisers, y.advertiser).Some?
    ensures forall y :: y in rs ==> ByName(AppendRow(d, x).advertisers, y.advertiser).Some?
  {
    var r := AppendRow(d, x);
    forall y | y in rs ensures ByName(r.advertisers, y.advertiser).Some? {
      if y in init {
        ByNamePrefix(d.advertisers, r.advertisers, y.advertiser);
      }
    }
  }

  /** The rows written before a pass of the loop keep their advertiser ids after it. */
  lemma SpendingsStep(d: DB, init: seq<CsvRow>, x: CsvRow, rs: seq<CsvRow>)
    requires rs == init + [x]
    requires forall y :: y in init ==> ByName(d.advertisers, y.advertiser).Some?
    ensures Spendings(AppendRow(d, x).advertisers, rs) == Spendings(d.advertisers, init) + [RowSpending(IdOf(AppendRow(d, x).advertisers, x.advertiser), x)]
  {
    var r := AppendRow(d, x);
    forall k | 0 <= k < |init| ensures IdOf(r.advertisers, init[k].advertiser) == IdOf(d.advertisers, init[k].advertiser) {
      assert init[k] in init;
      ByNamePrefix(d.advertisers, r.advertisers, init[k].advertiser);
    }
    assert rs[|init|] == x;
  }

  lemma CreatedStep(db: DB, d: DB, r: DB, init: seq<CsvRow>, x: CsvRow, rs: seq<CsvRow>)
    requires rs == init + [x] && r == AppendRow(d, x)
    requires db.advertisers <= d.advertisers && db.nextAdvertiserId <= d.nextAdvertiserId
    requires forall k :: |db.advertisers| <= k < |d.advertisers| ==> CreatedByImport(d.advertisers[k], init, db.nextAdvertiserId)
    ensures forall k :: |db.advertisers| <= k < |r.advertisers| ==> CreatedByImport(r.advertisers[k], rs, db.nextAdvertiserId)
  {
    assert x in rs;
    assert ImportedNames(init) <= ImportedNames(rs);
    forall k | |db.advertisers| <= k < |r.advertisers| ensures CreatedByImport(r.advertisers[k], rs, db.nextAdvertiserId) {
      if k < |d.advertisers| {
        assert r.advertisers[k] == d.advertisers[k];
      }
    }
  }

  /** The import loop keeps every constraint but the spending uniqueness. */
  lemma {:induction false} AppendRowsConsistent(db: DB, rs: seq<CsvRow>)
    requires Consistent(db)
    ensures Consistent(AppendRows(db, rs))
    decreases |rs|
  {
    if rs != [] {
      AppendRowsConsistent(db, rs[..|rs| - 1]);
      AppendRowConsistent(AppendRows(db, rs[..|rs| - 1]), rs[|rs| - 1]);
    }
  }

  /**
   * The database effect of an import: the deletion loop, then the row loop;
   * the commit fails when two rows land on the same (advertiser, year), and
   * the session is rolled back.
   */
  function CsvImported(db: DB, rs: seq<CsvRow>): (r: Outcome)
    ensures r.Raised? <==> !SpendingUnique(AppendRows(Cleared(db, ImportedNames(rs)), rs).spending)
  {
    var d := AppendRows(Cleared(db, ImportedNames(rs)), rs);
    if SpendingUnique(d.spending) then Ok(d) else Raised("UNIQUE constraint failed: spending_data.advertiser_id, spending_data.year")
  }

  lemma {:induction false} SpendingOfConcat(a: seq<SpendingData>, b: seq<SpendingData>, id: nat)
    ensures SpendingOf(a + b, id) == SpendingOf(a, id) + SpendingOf(b, id)
  {
    if a == [] {
      assert a + b == b;
    } else {
      assert (a + b)[1..] == a[1..] + b;
      SpendingOfConcat(a[1..], b, id);
    }
  }

  /** Deleting the rows of `ids` empties an advertiser in `ids` and leaves any other alone. */
  lemma {:induction false} SpendingOfWithout(rows: seq<SpendingData>, ids: set<nat>, id: nat)
    ensures SpendingOf(Without(rows, ids), id) == if id in ids then [] else SpendingOf(rows, id)
  {
    if rows != [] {
      SpendingOfWithout(rows[1..], ids, id);
      var head := if rows[0].advertiserId in ids then [] else [rows[0]];
      SpendingOfConcat(head, Without(rows[1..], ids), id);
    }
  }

  /** An advertiser without rows has none to select. */
  lemma {:induction false} SpendingOfAbsent(rows: seq<SpendingData>, id: nat)
    requires forall k :: 0 <= k < |rows| ==> rows[k].advertiserId != id
    ensures SpendingOf(rows, id) == []
  {
    if rows != [] {
      SpendingOfAbsent(rows[1..], id);
    }
  }

  /** Two advertisers of a store with ordered ids share an id only when they are the same one. */
  lemma IdsDistinct(advs: seq<Advertiser>, next: nat, i: nat, j: nat)
    requires IdsOrdered(advs, next) && i < |advs| && j < |advs|
    ensures advs[i].id == advs[j].id <==> i == j
  {
    if i < j {
      assert advs[i].id < advs[j].id;
    } else if j < i {
      assert advs[j].id < advs[i].id;
    }
  }

  /**
   * With unique names and ids, the rows the loop writes for one stored
   * advertiser are the file's rows with its name, in file order.
   */
  lemma {:induction false} SpendingOfSpendings(advs: seq<Advertiser>, next: nat, rs: seq<CsvRow>, k: nat)
    requires IdsOrdered(advs, next) && NamesUnique(advs) && k < |advs|
    requires forall x :: x in rs ==> ByName(advs, x.advertiser).Some?
    ensures SpendingOf(Spendings(advs, rs), advs[k].id) == RowsFor(rs, advs[k].name, advs[k].id)
  {
    if rs != [] {
      assert Spendings(advs, rs)[1..] == Spendings(advs, rs[1..]);
      assert rs[0] in rs;
      var j := ByName(advs, rs[0].advertiser).value;
      IdsDistinct(advs, next, j, k);
      SpendingOfSpendings(advs, next, rs[1..], k);
    }
  }

  /** A stored advertiser's id is among the named ids exactly when its name is named. */
  lemma NamedIdsOf(advs: seq<Advertiser>, next: nat, names: set<string>, k: nat)
    requires IdsOrdered(advs, next) && k < |advs|
    ensures advs[k].id in NamedIds(advs, names) <==> advs[k].name in names
  {
    if advs[k].id in NamedIds(advs, names) {
      var a :| a in advs && a.name in names && a.id == advs[k].id;
      var j :| 0 <= j < |advs| && advs[j] == a;
      IdsDistinct(advs, next, j, k);
    } else {
      assert advs[k] in advs;
    }
  }

  /** A committed import leaves a valid store. */
  lemma ImportKeepsValid(db: DB, rs: seq<CsvRow>)
    requires db.Valid() && CsvImported(db, rs).Ok?
    ensures CsvImported(db, rs).db.Valid()
  {
    AppendRowsConsistent(Cleared(db, ImportedNames(rs)), rs);
  }

  /**
   * The import overwrites: after a successful import each advertiser named in
   * the file holds exactly the file's rows for it, in file order, and every
   * other advertiser keeps its rows. The store stays valid, no advertiser is
   * lost, and the advertisers it adds are non-qualified with no agency.
   */
  lemma ImportOverwritesSpending(db: DB, rs: seq<CsvRow>)
    requires db.Valid() && CsvImported(db, rs).Ok?
    ensures CsvImported(db, rs).db.Valid()
    ensures db.advertisers <= CsvImported(db, rs).db.advertisers
    ensures CsvImported(db, rs).db.contacts == db.contacts && CsvImported(db, rs).db.activities == db.activities
    ensures forall k :: |db.advertisers| <= k < |CsvImported(db, rs).db.advertisers| ==>
              CreatedByImport(CsvImported(db, rs).db.advertisers[k], rs, db.nextAdvertiserId)
    ensures forall a :: a in CsvImported(db, rs).db.advertisers ==>
              SpendingOf(CsvImported(db, rs).db.spending, a.id) ==
                if a.name in ImportedNames(rs) then RowsFor(rs, a.name, a.id) else SpendingOf(db.spending, a.id)
  {
    var names := ImportedNames(rs);
    var c := Cleared(db, names);
    var r := AppendRows(c, rs);
    AppendRowsFacts(c, rs);
    AppendRowsConsistent(c, rs);
    forall a | a in r.advertisers
      ensures SpendingOf(r.spending, a.id) == if a.name in names then RowsFor(rs, a.name, a.id) else SpendingOf(db.spending, a.id)
    {
      var k :| 0 <= k < |r.advertisers| && r.advertisers[k] == a;
      SpendingAfterImport(db, rs, k);
    }
  }

  /** The rows the advertiser at `k` holds after the import: the file's when it is named there, its old ones otherwise. */
  lemma SpendingAfterImport(db: DB, rs: seq<CsvRow>, k: nat)
    requires db.Valid() && CsvImported(db, rs).Ok? && k < |CsvImported(db, rs).db.advertisers|
    ensures var r := CsvImported(db, rs).db; var a := r.advertisers[k];
      SpendingOf(r.spending, a.id) == if a.name in ImportedNames(rs) then RowsFor(rs, a.name, a.id) else SpendingOf(db.spending, a.id)
  {
    var names := ImportedNames(rs);
    var c := Cleared(db, names);
    var r := AppendRows(c, rs);
    AppendRowsFacts(c, rs);
    AppendRowsConsistent(c, rs);
    var a := r.advertisers[k];
    SpendingOfConcat(c.spending, Spendings(r.advertisers, rs), a.id);
    SpendingOfSpendings(r.advertisers, r.nextAdvertiserId, rs, k);
    SpendingOfWithout(db.spending, NamedIds(db.advertisers, names), a.id);
    if k < |db.advertisers| {
      assert db.advertisers[k] == a;
      NamedIdsOf(db.advertisers, db.nextAdvertiserId, names, k);
      if a.name !in names {
        RowsForAbsent(rs, a.name, a.id);
      }
    } else {
      assert CreatedByImport(a, rs, db.nextAdvertiserId);
      NoRowsOfNewId(db, a.id);
    }
  }

  /** An id the store has not handed out yet holds no rows. */
  lemma NoRowsOfNewId(db: DB, id: nat)
    requires IdsOrdered(db.advertisers, db.nextAdvertiserId) && SpendingRefsOk(db.spending, Ids(db.advertisers))
    requires id >= db.nextAdvertiserId
    ensures SpendingOf(db.spending, id) == []
  {
    forall j | 0 <= j < |db.spending| ensures db.spending[j].advertiserId != id {
      assert db.spending[j].advertiserId in Ids(db.advertisers);
    }
    SpendingOfAbsent(db.spending, id);
  }

  /** A name the file does not hold gets no rows. */
  lemma {:induction false} RowsForAbsent(rs: seq<CsvRow>, name: string, id: nat)
    requires name !in ImportedNames(rs)
    ensures RowsFor(rs, name, id) == []
  {
    if rs != [] {
      assert rs[0] in rs;
      assert ImportedNames(rs[1..]) <= ImportedNames(rs);
      RowsForAbsent(rs[1..], name, id);
    }
  }

  /** Two file rows name the same advertiser for the same year. */
  predicate Repeated(rs: seq<CsvRow>)
  {
    exists i, j :: 0 <= i < j < |rs| && rs[i].advertiser == rs[j].advertiser && rs[i].year == rs[j].year
  }

  /** The rows after the first of a unique table are unique and all differ from the first. */
  lemma UniqueTail(rows: seq<SpendingData>)
    requires rows != [] && SpendingUnique(rows)
    ensures SpendingUnique(rows[1..])
    ensures forall y :: y in rows[1..] ==> y.advertiserId != rows[0].advertiserId || y.year != rows[0].year
  {
    var rest := rows[1..];
    forall i, j | 0 <= i < j < |rest| ensures rest[i].advertiserId != rest[j].advertiserId || rest[i].year != rest[j].year {
      assert rest[i] == rows[i + 1] && rest[j] == rows[j + 1];
    }
    forall y | y in rest ensures y.advertiserId != rows[0].advertiserId || y.year != rows[0].year {
      var j :| 0 <= j < |rest| && rest[j] == y;
      assert y == rows[j + 1];
    }
  }

  /** A row that differs from every row of a unique table can be put in front of it. */
  lemma UniqueCons(h: SpendingData, w: seq<SpendingData>)
    requires SpendingUnique(w)
    requires forall y :: y in w ==> y.advertiserId != h.advertiserId || y.year != h.year
    ensures SpendingUnique([h] + w)
  {
    var all := [h] + w;
    forall i, j | 0 <= i < j < |all| ensures all[i].advertiserId != all[j].advertiserId || all[i].year != all[j].year {
      if i == 0 {
        assert all[j] in w;
      } else {
        assert all[i] == w[i - 1] && all[j] == w[j - 1];
      }
    }
  }

  /** Deleting rows keeps the (advertiser, year) uniqueness. */
  lemma {:induction false} WithoutUnique(rows: seq<SpendingData>, ids: set<nat>)
    requires SpendingUnique(rows)
    ensures SpendingUnique(Without(rows, ids))
  {
    if rows != [] {
      UniqueTail(rows);
      WithoutUnique(rows[1..], ids);
      if rows[0].advertiserId !in ids {
        UniqueCons(rows[0], Without(rows[1..], ids));
      } else {
        assert Without(rows, ids) == Without(rows[1..], ids);
      }
    }
  }

  /** Two blocks of rows are jointly unique when each is and no advertiser has rows in both. */
  lemma UniqueConcat(a: seq<SpendingData>, b: seq<SpendingData>)
    requires SpendingUnique(a)
    requires forall x, y :: x in a && y in b ==> x.advertiserId != y.advertiserId
    ensures SpendingUnique(a + b) <==> SpendingUnique(b)
  {
    var ab := a + b;
    if SpendingUnique(b) {
      forall i, j | 0 <= i < j < |ab| ensures ab[i].advertiserId != ab[j].advertiserId || ab[i].year != ab[j].year {
        if j < |a| {
          assert ab[i] == a[i] && ab[j] == a[j];
        } else if i < |a| {
          assert ab[i] in a && ab[j] in b;
        } else {
          assert ab[i] == b[i - |a|] && ab[j] == b[j - |a|];
        }
      }
    }
    if SpendingUnique(ab) {
      forall i, j | 0 <= i < j < |b| ensures b[i].advertiserId != b[j].advertiserId || b[i].year != b[j].year {
        assert ab[|a| + i] == b[i] && ab[|a| + j] == b[j];
      }
    }
  }

  /** Found names of a store with unique names and ids share an id only when they are equal. */
  lemma IdOfInjective(advs: seq<Advertiser>, next: nat, m: string, n: string)
    requires IdsOrdered(advs, next) && ByName(advs, m).Some? && ByName(advs, n).Some?
    ensures IdOf(advs, m) == IdOf(advs, n) <==> m == n
  {
    IdsDistinct(advs, next, ByName(advs, m).value, ByName(advs, n).value);
  }

  /** The rows the loop writes clash exactly when two file rows repeat an (advertiser, year). */
  lemma SpendingsUniqueIff(advs: seq<Advertiser>, next: nat, rs: seq<CsvRow>)
    requires IdsOrdered(advs, next)
    requires forall x :: x in rs ==> ByName(advs, x.advertiser).Some?
    ensures SpendingUnique(Spendings(advs, rs)) <==> !Repeated(rs)
  {
    var s := Spendings(advs, rs);
    if Repeated(rs) {
      var i, j :| 0 <= i < j < |rs| && rs[i].advertiser == rs[j].advertiser && rs[i].year == rs[j].year;
      assert s[i].advertiserId == s[j].advertiserId;
    } else {
      forall i, j | 0 <= i < j < |s| ensures s[i].advertiserId != s[j].advertiserId || s[i].year != s[j].year {
        assert rs[i] in rs && rs[j] in rs;
        IdOfInjective(advs, next, rs[i].advertiser, rs[j].advertiser);
      }
    }
  }

  /**
   * An import fails at the commit exactly when the file holds two rows for
   * the same advertiser and year; the old rows of the named advertisers are
   * deleted first, so they never clash with the new ones.
   */
  lemma ImportRaisesIffRepeated(db: DB, rs: seq<CsvRow>)
    requires db.Valid()
    ensures CsvImported(db, rs).Raised? <==> Repeated(rs)
  {
    var names := ImportedNames(rs);
    var ids := NamedIds(db.advertisers, names);
    var c := Cleared(db, names);
    var r := AppendRows(c, rs);
    AppendRowsFacts(c, rs);
    AppendRowsConsistent(c, rs);
    WithoutUnique(db.spending, ids);
    var s := Spendings(r.advertisers, rs);
    KeptAndImportedDisjoint(db, rs);
    UniqueConcat(c.spending, s);
    SpendingsUniqueIff(r.advertisers, r.nextAdvertiserId, rs);
  }

  /** No row kept by the deletion belongs to an advertiser the file names. */
  lemma KeptAndImportedDisjoint(db: DB, rs: seq<CsvRow>)
    requires db.Valid()
    ensures var c := Cleared(db, ImportedNames(rs));
      forall x, y :: x in c.spending && y in Spendings(AppendRows(c, rs).advertisers, rs) ==> x.advertiserId != y.advertiserId
  {
    var c := Cleared(db, ImportedNames(rs));
    var s := Spendings(AppendRows(c, rs).advertisers, rs);
    forall x, y | x in c.spending && y in s ensures x.advertiserId != y.advertiserId {
      var j :| 0 <= j < |rs| && s[j] == y;
      KeptNotImported(db, rs, x, j);
    }
  }

  /** A kept row and the row the import writes for `rs[j]` belong to different advertisers. */
  lemma KeptNotImported(db: DB, rs: seq<CsvRow>, x: SpendingData, j: nat)
    requires db.Valid() && j < |rs|
    requires x in Cleared(db, ImportedNames(rs)).spending
    ensures x.advertiserId != Spendings(AppendRows(Cleared(db, ImportedNames(rs)), rs).advertisers, rs)[j].advertiserId
  {
    var c := Cleared(db, ImportedNames(rs));
    var r := AppendRows(c, rs);
    AppendRowsFacts(c, rs);
    assert rs[j] in rs;
    var k := ByName(r.advertisers, rs[j].advertiser).value;
    if k < |db.advertisers| {
      assert r.advertisers[k] == db.advertisers[k];
      KeptNotExisting(db, ImportedNames(rs), x, k);
    } else {
      assert CreatedByImport(r.advertisers[k], rs, db.nextAdvertiserId);
      KeptNotCreated(db, x, r.advertisers[k].id);
    }
  }

  /** A kept row does not belong to an advertiser whose name the file names. */
  lemma KeptNotExisting(db: DB, names: set<string>, x: SpendingData, k: nat)
    requires IdsOrdered(db.advertisers, db.nextAdvertiserId)
    requires k < |db.advertisers| && db.advertisers[k].name in names
    requires x in Cleared(db, names).spending
    ensures x.advertiserId != db.advertisers[k].id
  {
    NamedIdsOf(db.advertisers, db.nextAdvertiserId, names, k);
  }

  /** No stored row belongs to an id the store has not handed out yet. */
  lemma KeptNotCreated(db: DB, x: SpendingData, id: nat)
    requires IdsOrdered(db.advertisers, db.nextAdvertiserId) && SpendingRefsOk(db.spending, Ids(db.advertisers))
    requires x in db.spending && id >= db.nextAdvertiserId
    ensures x.advertiserId != id
  {
    var i :| 0 <= i < |db.spending| && db.spending[i] == x;
    assert x.advertiserId in Ids(db.advertisers);
  }

  // ---------------------------------------------------------------------
  // Lead statuses by agency
  // ---------------------------------------------------------------------

  /** The agencies of the house: their clients are ours. */
  const OurAgencies: seq<string> := [
    "BPN (US) - IPG",
    "Initiate (Open agency) IPG",
    "Media brands digital - IPG",
    "UM (Inspired) IPG"]

  /** Words that mark a public-sector name, in Lithuanian and English. */
  const PublicSectorKeywords: seq<string> := [
    "ministerija", "ministeri", "ministry",
    "savivaldyb", "municipality",
    "departament", "department",
    "tarnyba", "taryba", "service", "council",
    "agent\U{016B}ra", "agency",
    "fondas", "fund",
    "centras", "center", "centre",
    "inspekcija", "inspection",
    "direkcija", "directorate",
    "komisija", "commission",
    "valstybin\U{0117}", "valstybinis", "state",
    "nacionalinis", "national",
    "lietuvos respublikos", "republic of lithuania",
    "vyriausyb\U{0117}", "government",
    "seimas", "parliament"]

  /** `any(keyword in s for keyword in kws)` */
  predicate HasKeyword(s: string, kws: seq<string>)
    decreases |kws|
  {
    kws != [] && (Contains(s, kws[0]) || HasKeyword(s, kws[1..]))
  }

  /** The keyword scan succeeds exactly when some keyword occurs in the text. */
  lemma {:induction false} HasKeywordIff(s: string, kws: seq<string>)
    ensures HasKeyword(s, kws) <==> exists kw :: kw in kws && Contains(s, kw)
    decreases |kws|
  {
    if kws != [] {
      HasKeywordIff(s, kws[1..]);
      if Contains(s, kws[0]) {
        assert kws[0] in kws;
      }
      if exists kw :: kw in kws && Contains(s, kw) {
        var kw :| kw in kws && Contains(s, kw);
        if kw != kws[0] {
          assert kw in kws[1..];
        }
      }
    }
  }

  /** The lower-cased name holds one of the public-sector words. */
  predicate PublicSector(name: string)
  {
    HasKeyword(Lower(name), PublicSectorKeywords)
  }

  /** The bulk update for one agency: its non-qualified clients become ours. */
  function SetOursOne(a: Advertiser, agency: string): Advertiser
  {
    if a.currentAgency == Some(agency) && a.leadStatus == NonQualified then a.(leadStatus := Ours) else a
  }

  function SetOurs(advs: seq<Advertiser>, agency: string): (r: seq<Advertiser>)
    ensures |r| == |advs|
    ensures forall k :: 0 <= k < |advs| ==> r[k] == SetOursOne(advs[k], agency)
  {
    seq(|advs|, k requires 0 <= k < |advs| => SetOursOne(advs[k], agency))
  }

  /** The row count the bulk update for `agency` reports. */
  function MatchCount(advs: seq<Advertiser>, agency: string): nat
  {
    if advs == [] then 0
    else (if SetOursOne(advs[0], agency) != advs[0] then 1 else 0) + MatchCount(advs[1..], agency)
  }

  /**
   * An advertiser after the whole sweep: a non-qualified one whose agency is
   * one of ours becomes ours; a remaining non-qualified one with a
   * public-sector name becomes non-market; every other status stays.
   */
  function SweptStatus(a: Advertiser): LeadStatus
  {
    if a.leadStatus != NonQualified then a.leadStatus
    else if a.currentAgency.Some? && a.currentAgency.value in OurAgencies then Ours
    else if PublicSector(a.name) then NonMarket
    else NonQualified
  }

  function Swept(advs: seq<Advertiser>): (r: seq<Advertiser>)
    ensures |r| == |advs|
    ensures forall k :: 0 <= k < |advs| ==> r[k] == advs[k].(leadStatus := SweptStatus(advs[k]))
  {
    seq(|advs|, k requires 0 <= k < |advs| => advs[k].(leadStatus := SweptStatus(advs[k])))
  }

  /** The number of positions whose lead status differs. */
  function Changes(before: seq<Advertiser>, after: seq<Advertiser>): nat
    requires |before| == |after|
  {
    if before == [] then 0
    else (if before[0].leadStatus != after[0].leadStatus then 1 else 0) + Changes(before[1..], after[1..])
  }

  /**
   * The sweep only promotes non-qualified advertisers, and an agency of ours
   * wins over a public-sector name; names, ids and agencies stay.
   */
  lemma SweepRules(advs: seq<Advertiser>, k: nat)
    requires k < |advs|
    ensures Swept(advs)[k].id == advs[k].id && Swept(advs)[k].name == advs[k].name
    ensures Swept(advs)[k].currentAgency == advs[k].currentAgency
    ensures Swept(advs)[k].leadStatus != advs[k].leadStatus ==> advs[k].leadStatus == NonQualified
    ensures (advs[k].leadStatus == NonQualified && advs[k].currentAgency.Some? && advs[k].currentAgency.value in OurAgencies) ==>
              Swept(advs)[k].leadStatus == Ours
    ensures Swept(advs)[k].leadStatus == NonMarket && advs[k].leadStatus != NonMarket ==> PublicSector(advs[k].name)
    ensures Swept(advs)[k].leadStatus == NonQualified ==> !PublicSector(advs[k].name)
  {
  }

  /** A second sweep changes nothing, so it reports 0 updates. */
  lemma SweepIdempotent(advs: seq<Advertiser>)
    ensures Swept(Swept(advs)) == Swept(advs)
    ensures Changes(Swept(advs), Swept(Swept(advs))) == 0
  {
    var s := Swept(advs);
    assert Swept(s) == s;
    NoChanges(s);
  }

  lemma {:induction false} NoChanges(advs: seq<Advertiser>)
    ensures Changes(advs, advs) == 0
  {
    if advs != [] {
      NoChanges(advs[1..]);
    }
  }

  /** The sweep keeps ids and names, so every constraint of the store still holds. */
  lemma SweptValid(db: DB)
    requires db.Valid()
    ensures db.(advertisers := Swept(db.advertisers)).Valid()
  {
    var s := Swept(db.advertisers);
    forall x ensures x in Ids(s) <==> x in Ids(db.advertisers) {
      if x in Ids(s) {
        var a :| a in s && a.id == x;
        var k :| 0 <= k < |s| && s[k] == a;
        IdAt(db.advertisers, k);
      }
      if x in Ids(db.advertisers) {
        var a :| a in db.advertisers && a.id == x;
        var k :| 0 <= k < |s| && db.advertisers[k] == a;
        IdAt(s, k);
      }
    }
  }

  /** The bulk updates for one more agency add their row count to the changes. */
  lemma {:induction false} ChangesBulk(b: seq<Advertiser>, a: seq<Advertiser>, agency: string)
    requires |b| == |a|
    requires forall k :: 0 <= k < |a| && a[k].leadStatus == NonQualified ==> b[k].leadStatus == NonQualified
    ensures Changes(b, SetOurs(a, agency)) == Changes(b, a) + MatchCount(a, agency)
  {
    if b != [] {
      assert SetOurs(a, agency)[1..] == SetOurs(a[1..], agency);
      ChangesBulk(b[1..], a[1..], agency);
    }
  }

  /** Changing one status that was still as before adds one change. */
  lemma {:induction false} ChangesUpdate(b: seq<Advertiser>, a: seq<Advertiser>, k: nat, v: Advertiser)
    requires |b| == |a| && k < |a|
    requires a[k].leadStatus == b[k].leadStatus && v.leadStatus != b[k].leadStatus
    ensures Changes(b, a[k := v]) == Changes(b, a) + 1
  {
    if k > 0 {
      assert a[k := v][1..] == a[1..][k - 1 := v];
      ChangesUpdate(b[1..], a[1..], k - 1, v);
    }
  }

  // ---------------------------------------------------------------------
  // Lead status colors
  // ---------------------------------------------------------------------

  /** The badge color of a status text; unknown texts get the default "secondary". */
  function LeadStatusColor(status: string): string
  {
    var colors := map[
      "non_qualified" := "secondary",
      "ours" := "success",
      "cold" := "primary",
      "warm" := "warning",
      "hot" := "danger",
      "lost" := "dark",
      "non_market" := "light"];
    if status in colors then colors[status] else "secondary"
  }

  /**
   * Network and get-info advertisers have no color of their own and share
   * "secondary" with non-qualified ones; every other status has a color no
   * other status shares.
   */
  lemma StatusColors(s: LeadStatus, t: LeadStatus)
    ensures LeadStatusColor(StatusName(s)) == "secondary" <==> s in {NonQualified, Network, GetInfo}
    ensures LeadStatusColor(StatusName(s)) == LeadStatusColor(StatusName(t)) && s != t ==>
              s in {NonQualified, Network, GetInfo} && t in {NonQualified, Network, GetInfo}
  {
  }

  // ---------------------------------------------------------------------
  // The upload
  // ---------------------------------------------------------------------

  /** Why an upload failed: no reader could open the file, or processing raised and was rolled back. */
  datatype UploadError = Unreadable | ProcessingError

  /** The upload's report: the counts of its success message, or the failure. */
  datatype Report = Imported(records: nat, advertisers: nat, statusesUpdated: nat) | Failed(error: UploadError)

  datatype Upload = Upload(db: DB, report: Report)

  /**
   * `process_csv_upload` on the table the reader produced (None when every
   * encoding and separator failed): rename the columns, clean the figures,
   * overwrite the named advertisers' spending, commit, then run the
   * lead-status sweep and commit again.
   */
  function CsvUploaded(db: DB, t: Option<Table>, readYear: string -> Option<int>): (u: Upload)
  {
    match t
    case None => Upload(db, Failed(Unreadable))
    case Some(tab) =>
      var cols := Classified(tab.header);
      var rows := CleanTable(cols, tab.rows, readYear);
      if Some(AdvertiserName) !in cols || RenamedTwice(cols) || rows.None? then Upload(db, Failed(ProcessingError))
      else RowsUploaded(db, rows.value)
  }

  /** The upload once the rows are clean: the overwrite, rolled back on a repeated row, then the sweep. */
  function RowsUploaded(db: DB, rs: seq<CsvRow>): (u: Upload)
  {
    match CsvImported(db, rs)
    case Raised(_) => Upload(db, Failed(ProcessingError))
    case Ok(d) =>
      var swept := Swept(d.advertisers);
      Upload(d.(advertisers := swept), Imported(|rs|, |DistinctNames(rs)|, Changes(d.advertisers, swept)))
  }

  /**
   * An upload fails exactly when the file cannot be read, has no advertiser
   * column, renames two columns to one field, has a row without a name or
   * a readable year, or repeats an (advertiser, year).
   */
  lemma UploadFailsIff(db: DB, t: Option<Table>, readYear: string -> Option<int>)
    requires db.Valid()
    ensures t.None? ==> CsvUploaded(db, t, readYear).report == Failed(Unreadable)
    ensures t.Some? ==>
      (CsvUploaded(db, t, readYear).report.Failed? <==>
        || Some(AdvertiserName) !in Classified(t.value.header)
        || RenamedTwice(Classified(t.value.header))
        || (exists k :: 0 <= k < |t.value.rows| && CleanRow(Classified(t.value.header), t.value.rows[k], readYear).None?)
        || Repeated(CleanTable(Classified(t.value.header), t.value.rows, readYear).value))
  {
    if t.Some? {
      var cols := Classified(t.value.header);
      var rows := CleanTable(cols, t.value.rows, readYear);
      if Some(AdvertiserName) in cols && !RenamedTwice(cols) && rows.Some? {
        assert CsvUploaded(db, t, readYear) == RowsUploaded(db, rows.value);
        RowsUploadFailsIff(db, rows.value);
      } else {
        assert CsvUploaded(db, t, readYear) == Upload(db, Failed(ProcessingError));
      }
    }
  }

  /** On clean rows the upload fails exactly when an (advertiser, year) repeats. */
  lemma RowsUploadFailsIff(db: DB, rs: seq<CsvRow>)
    requires db.Valid()
    ensures RowsUploaded(db, rs).report.Failed? <==> Repeated(rs)
  {
    ImportRaisesIffRepeated(db, rs);
  }

  /** On clean rows: a failure leaves the store as it was; a success keeps it valid and counts every row. */
  lemma RowsUploadKeepsValid(db: DB, rs: seq<CsvRow>)
    requires db.Valid()
    ensures RowsUploaded(db, rs).db.Valid()
    ensures RowsUploaded(db, rs).report.Failed? ==> RowsUploaded(db, rs).db == db
    ensures RowsUploaded(db, rs).report.Imported? ==> RowsUploaded(db, rs).report.records == |rs|
  {
    if CsvImported(db, rs).Ok? {
      ImportKeepsValid(db, rs);
      SweptValid(CsvImported(db, rs).db);
    }
  }

  /**
   * A failed upload leaves the store as it was; a successful one keeps it
   * valid and reports one record per data row.
   */
  lemma UploadKeepsValid(db: DB, t: Option<Table>, readYear: string -> Option<int>)
    requires db.Valid()
    ensures CsvUploaded(db, t, readYear).db.Valid()
    ensures CsvUploaded(db, t, readYear).report.Failed? ==> CsvUploaded(db, t, readYear).db == db
    ensures CsvUploaded(db, t, readYear).report.Imported? ==>
      t.Some? && CsvUploaded(db, t, readYear).report.records == |t.value.rows|
  {
    if t.Some? {
      var cols := Classified(t.value.header);
      var rows := CleanTable(cols, t.value.rows, readYear);
      if Some(AdvertiserName) in cols && !RenamedTwice(cols) && rows.Some? {
        assert CsvUploaded(db, t, readYear) == RowsUploaded(db, rows.value);
        RowsUploadKeepsValid(db, rows.value);
      } else {
        assert CsvUploaded(db, t, readYear) == Upload(db, Failed(ProcessingError));
      }
    }
  }

  // ---------------------------------------------------------------------
  // The upload, step by step on the store
  // ---------------------------------------------------------------------

  /** The rename loop over the header. */
  method ClassifyHeader(header: seq<string>) returns (cols: seq<Option<Column>>)
    ensures cols == Classified(header)
  {
    cols := [];
    var i := 0;
    while i < |header|
      invariant 0 <= i <= |header|
      invariant cols == Classified(header[..i])
    {
      assert header[..i + 1][..i] == header[..i];
      cols := cols + [ClassifyColumn(header[i])];
      i := i + 1;
    }
    assert header[..i] == header;
  }

  /** Deleting in two rounds is deleting the union once. */
  lemma {:induction false} WithoutTwice(rows: seq<SpendingData>, a: set<nat>, b: set<nat>)
    ensures Without(Without(rows, a), b) == Without(rows, a + b)
  {
    if rows != [] {
      WithoutTwice(rows[1..], a, b);
      var head := if rows[0].advertiserId in a then [] else [rows[0]];
      WithoutConcat(head, Without(rows[1..], a), b);
    }
  }

  lemma {:induction false} WithoutConcat(x: seq<SpendingData>, y: seq<SpendingData>, ids: set<nat>)
    ensures Without(x + y, ids) == Without(x, ids) + Without(y, ids)
  {
    if x == [] {
      assert x + y == y;
    } else {
      assert (x + y)[1..] == x[1..] + y;
      WithoutConcat(x[1..], y, ids);
    }
  }

  /** Naming one more advertiser adds the id its name finds, if any. */
  lemma NamedIdsAdd(advs: seq<Advertiser>, names: set<string>, n: string)
    requires NamesUnique(advs)
    ensures NamedIds(advs, names + {n}) ==
      NamedIds(advs, names) + (if ByName(advs, n).Some? then {advs[ByName(advs, n).value].id} else {})
  {
    forall a | a in advs && a.name == n ensures ByName(advs, n).Some? && a == advs[ByName(advs, n).value] {
      var j :| 0 <= j < |advs| && advs[j] == a;
      var i := ByName(advs, n).value;
      assert advs[i].name == advs[j].name;
    }
    if ByName(advs, n).Some? {
      assert advs[ByName(advs, n).value] in advs;
    }
  }

  /** The names of a sequence, as a set. */
  function NameSet(names: seq<string>): (r: set<string>)
    ensures forall n :: n in r <==> n in names
  {
    set n | n in names
  }

  /** Deleting no advertiser's rows deletes nothing. */
  lemma {:induction false} WithoutNothing(rows: seq<SpendingData>)
    ensures Without(rows, {}) == rows
  {
    if rows != [] {
      WithoutNothing(rows[1..]);
    }
  }

  /** One pass of the deletion loop deletes the rows of the advertiser the next name finds. */
  lemma ClearedStep(db: DB, names: seq<string>, i: nat)
    requires NamesUnique(db.advertisers) && i < |names|
    ensures ByName(db.advertisers, names[i]).Some? ==>
      Without(Cleared(db, NameSet(names[..i])).spending, {db.advertisers[ByName(db.advertisers, names[i]).value].id})
        == Cleared(db, NameSet(names[..i + 1])).spending
    ensures ByName(db.advertisers, names[i]).None? ==>
      Cleared(db, NameSet(names[..i])) == Cleared(db, NameSet(names[..i + 1]))
  {
    var before := NameSet(names[..i]);
    assert names[..i + 1] == names[..i] + [names[i]];
    assert NameSet(names[..i + 1]) == before + {names[i]};
    NamedIdsAdd(db.advertisers, before, names[i]);
    var found := ByName(db.advertisers, names[i]);
    if found.Some? {
      WithoutTwice(db.spending, NamedIds(db.advertisers, before), {db.advertisers[found.value].id});
    } else {
      assert NamedIds(db.advertisers, before + {names[i]}) == NamedIds(db.advertisers, before);
    }
  }

  /**
   * The deletion loop: for each name of the file, the stored advertiser of
   * that name (if any) loses all its spending rows.
   */
  method DeleteSpendingOf(store: Store, names: seq<string>)
    requires store.Valid()
    modifies store
    ensures store.Value() == Cleared(old(store.Value()), NameSet(names))
  {
    ghost var start := store.Value();
    assert NamedIds(start.advertisers, NameSet(names[..0])) == {};
    WithoutNothing(start.spending);
    var i := 0;
    while i < |names|
      invariant 0 <= i <= |names|
      invariant store.Value() == Cleared(start, NameSet(names[..i]))
    {
      var found := ByName(store.advertisers, names[i]);
      ClearedStep(start, names, i);
      if found.Some? {
        store.spending := Without(store.spending, {store.advertisers[found.value].id});
      }
      i := i + 1;
    }
    assert names[..i] == names;
  }

  /** One row of the import loop: get or create the row's advertiser, then add its spending row. */
  method ImportRow(store: Store, x: CsvRow)
    modifies store
    ensures store.Value() == AppendRow(old(store.Value()), x)
  {
    var found := ByName(store.advertisers, x.advertiser);
    var id: nat;
    if found.None? {
      id := store.nextAdvertiserId;
      store.advertisers := store.advertisers + [Advertiser(id, x.advertiser, None, NonQualified)];
      store.nextAdvertiserId := id + 1;
    } else {
      id := store.advertisers[found.value].id;
    }
    store.spending := store.spending + [RowSpending(id, x)];
  }

  /** The import loop over the rows of the file. */
  method ImportRows(store: Store, rs: seq<CsvRow>)
    modifies store
    ensures store.Value() == AppendRows(old(store.Value()), rs)
  {
    ghost var start := store.Value();
    var i := 0;
    while i < |rs|
      invariant 0 <= i <= |rs|
      invariant store.Value() == AppendRows(start, rs[..i])
    {
      AppendRowsSnoc(start, rs, i);
      ImportRow(store, rs[i]);
      i := i + 1;
    }
    assert rs[..i] == rs;
  }

  lemma AppendRowsSnoc(db: DB, rs: seq<CsvRow>, i: nat)
    requires i < |rs|
    ensures AppendRows(db, rs[..i + 1]) == AppendRow(AppendRows(db, rs[..i]), rs[i])
  {
    assert rs[..i + 1][..i] == rs[..i];
  }

  /** An advertiser after the bulk updates for the agencies `ags`. */
  function OursAfter(a: Advertiser, ags: seq<string>): Advertiser
  {
    if a.leadStatus == NonQualified && a.currentAgency.Some? && a.currentAgency.value in ags then a.(leadStatus := Ours) else a
  }

  /** The bulk updates, one per agency of ours; returns the sum of their row counts. */
  method SetOursForAgencies(store: Store) returns (updated: nat)
    modifies store
    ensures |store.advertisers| == |old(store.advertisers)|
    ensures forall k :: 0 <= k < |store.advertisers| ==> store.advertisers[k] == OursAfter(old(store.advertisers)[k], OurAgencies)
    ensures updated == Changes(old(store.advertisers), store.advertisers)
    ensures store.Value() == old(store.Value()).(advertisers := store.advertisers)
  {
    var advs := store.advertisers;
    ghost var b := advs;
    updated := 0;
    NoChanges(b);
    var i := 0;
    while i < |OurAgencies|
      invariant 0 <= i <= |OurAgencies|
      invariant |advs| == |b|
      invariant forall k :: 0 <= k < |b| ==> advs[k] == OursAfter(b[k], OurAgencies[..i])
      invariant updated == Changes(b, advs)
      invariant unchanged(store)
    {
      var agency := OurAgencies[i];
      ChangesBulk(b, advs, agency);
      updated := updated + MatchCount(advs, agency);
      advs := SetOurs(advs, agency);
      assert OurAgencies[..i + 1] == OurAgencies[..i] + [agency];
      i := i + 1;
    }
    assert OurAgencies[..i] == OurAgencies;
    store.advertisers := advs;
  }

  /** The second pass on one advertiser: a non-qualified name holding one of `kws` becomes non-market. */
  function MarkOne(a: Advertiser, kws: seq<string>): Advertiser
  {
    if a.leadStatus == NonQualified && HasKeyword(Lower(a.name), kws) then a.(leadStatus := NonMarket) else a
  }

  /** The bulk updates followed by the second pass give the swept status. */
  lemma SweptInTwoPasses(a: Advertiser)
    ensures MarkOne(OursAfter(a, OurAgencies), PublicSectorKeywords) == a.(leadStatus := SweptStatus(a))
  {
  }

  /** The second pass over a sequence of advertisers. */
  function Marked(advs: seq<Advertiser>, kws: seq<string>): (r: seq<Advertiser>)
    ensures |r| == |advs|
  {
    if advs == [] then [] else [MarkOne(advs[0], kws)] + Marked(advs[1..], kws)
  }

  /** The number of advertisers the second pass changes. */
  function MarkCount(advs: seq<Advertiser>, kws: seq<string>): nat
  {
    if advs == [] then 0 else (if MarkOne(advs[0], kws) != advs[0] then 1 else 0) + MarkCount(advs[1..], kws)
  }

  lemma {:induction false} MarkedSnoc(advs: seq<Advertiser>, a: Advertiser, kws: seq<string>)
    ensures Marked(advs + [a], kws) == Marked(advs, kws) + [MarkOne(a, kws)]
    ensures MarkCount(advs + [a], kws) == MarkCount(advs, kws) + (if MarkOne(a, kws) != a then 1 else 0)
  {
    if advs == [] {
      assert advs + [a] == [a];
    } else {
      assert (advs + [a])[1..] == advs[1..] + [a];
      MarkedSnoc(advs[1..], a, kws);
    }
  }

  /**
   * After the bulk updates, the second pass completes the sweep, and the
   * changes it makes add up with those of the bulk updates.
   */
  lemma {:induction false} MarkedAfterOurs(b: seq<Advertiser>, ours: seq<Advertiser>)
    requires |b| == |ours|
    requires forall j :: 0 <= j < |b| ==> ours[j] == OursAfter(b[j], OurAgencies)
    ensures Marked(ours, PublicSectorKeywords) == Swept(b)
    ensures Changes(b, Marked(ours, PublicSectorKeywords)) == Changes(b, ours) + MarkCount(ours, PublicSectorKeywords)
  {
    if b != [] {
      MarkedAfterOurs(b[1..], ours[1..]);
      SweptInTwoPasses(b[0]);
      assert Swept(b) == [Swept(b)[0]] + Swept(b[1..]);
    }
  }

  /** One step of the second pass: the advertiser at `k` is replaced by its marked form. */
  lemma MarkStep(ours: seq<Advertiser>, k: nat, kws: seq<string>)
    requires k < |ours|
    ensures (Marked(ours[..k], kws) + ours[k..])[k] == ours[k]
    ensures MarkOne(ours[k], kws) == ours[k] ==>
              Marked(ours[..k + 1], kws) + ours[k + 1..] == Marked(ours[..k], kws) + ours[k..]
    ensures MarkOne(ours[k], kws) != ours[k] ==>
              Marked(ours[..k + 1], kws) + ours[k + 1..] == (Marked(ours[..k], kws) + ours[k..])[k := MarkOne(ours[k], kws)]
    ensures MarkCount(ours[..k + 1], kws) == MarkCount(ours[..k], kws) + (if MarkOne(ours[k], kws) != ours[k] then 1 else 0)
  {
    var a := ours[k];
    assert ours[..k + 1] == ours[..k] + [a];
    assert ours[k..] == [a] + ours[k + 1..];
    MarkedSnoc(ours[..k], a, kws);
    var m := Marked(ours[..k], kws);
    assert (m + ([a] + ours[k + 1..]))[k := MarkOne(a, kws)] == m + [MarkOne(a, kws)] + ours[k + 1..];
  }

  /** The pass over the non-qualified advertisers: names holding a keyword become non-market. */
  method MarkNonMarket(store: Store, kws: seq<string>) returns (count: nat)
    modifies store
    ensures store.Value() == old(store.Value()).(advertisers := Marked(old(store.advertisers), kws))
    ensures count == MarkCount(old(store.advertisers), kws)
  {
    var advs := store.advertisers;
    ghost var ours := advs;
    count := 0;
    var k := 0;
    while k < |advs|
      invariant 0 <= k <= |ours| == |advs|
      invariant advs == Marked(ours[..k], kws) + ours[k..]
      invariant count == MarkCount(ours[..k], kws)
      invariant unchanged(store)
    {
      MarkStep(ours, k, kws);
      var a := advs[k];
      if a.leadStatus == NonQualified && HasKeyword(Lower(a.name), kws) {
        advs := advs[k := a.(leadStatus := NonMarket)];
        count := count + 1;
      }
      k := k + 1;
    }
    assert ours[..k] == ours && ours[k..] == [];
    store.advertisers := advs;
  }

  /**
   * `update_lead_statuses_by_agency`: one bulk update per agency of ours,
   * then a pass over the advertisers still non-qualified that marks
   * public-sector names non-market; returns the number of statuses changed.
   */
  method UpdateLeadStatusesByAgency(store: Store) returns (updated: nat)
    modifies store
    ensures store.Value() == old(store.Value()).(advertisers := Swept(old(store.advertisers)))
    ensures updated == Changes(old(store.advertisers), store.advertisers)
  {
    ghost var b := store.advertisers;
    updated := SetOursForAgencies(store);
    ghost var ours := store.advertisers;
    MarkedAfterOurs(b, ours);
    var marked := MarkNonMarket(store, PublicSectorKeywords);
    updated := updated + marked;
  }

  /**
   * The overwrite inside one transaction: delete the named advertisers'
   * spending, import the rows, and roll back when an (advertiser, year)
   * repeats.
   */
  method ImportSpending(store: Store, rs: seq<CsvRow>) returns (ok: bool)
    requires store.Valid()
    modifies store
    ensures ok <==> CsvImported(old(store.Value()), rs).Ok?
    ensures ok ==> store.Value() == CsvImported(old(store.Value()), rs).db
    ensures !ok ==> store.Value() == old(store.Value())
  {
    var names := DistinctNames(rs);
    var snapshot := store.Value();
    DeleteSpendingOf(store, names);
    assert NameSet(names) == ImportedNames(rs);
    ImportRows(store, rs);
    ok := SpendingUnique(store.spending);
    if !ok {
      store.advertisers, store.contacts, store.activities := snapshot.advertisers, snapshot.contacts, snapshot.activities;
      store.spending, store.nextAdvertiserId := snapshot.spending, snapshot.nextAdvertiserId;
    }
  }

  /**
   * `process_csv_upload`: read, rename, clean, delete, import, commit (or
   * roll back on a repeated row), then sweep the lead statuses.
   */
  method ProcessCsvUpload(store: Store, t: Option<Table>, readYear: string -> Option<int>) returns (report: Report)
    requires store.Valid()
    modifies store
    ensures Upload(store.Value(), report) == CsvUploaded(old(store.Value()), t, readYear)
  {
    if t.None? {
      return Failed(Unreadable);
    }
    var tab := t.value;
    var cols := ClassifyHeader(tab.header);
    var rows := CleanTable(cols, tab.rows, readYear);
    if Some(AdvertiserName) !in cols || RenamedTwice(cols) || rows.None? {
      return Failed(ProcessingError);
    }
    var rs := rows.value;
    var ok := ImportSpending(store, rs);
    if !ok {
      return Failed(ProcessingError);
    }
    var updated := UpdateLeadStatusesByAgency(store);
    report := Imported(|rs|, |DistinctNames(rs)|, updated);
  }
}
