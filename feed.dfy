/** The small pure helpers that turn one row of the case-distribution feed into the six
    fields the viewer keeps: safe division, lenient integer parsing, country-name
    normalisation and the extraction of the important fields. */
module Feed {
  import opened Py
  import Columns

  /** One field of an aggregated row: the feed's text fields, its integer counts (and the
      running totals), and the derived ratios. */
  datatype Cell = Text(s: string) | Whole(n: int) | Ratio(x: real)

  /** A feed row, already split on commas. */
  type Row = seq<string>

  /** A row of the aggregated series: six fields after extraction, twelve after the scan. */
  type Record = seq<Cell>

  // ---------------------------------------------------------------------------------------
  // divide_safe

  /** Division that yields 0 instead of raising when the denominator is 0. */
  function DivideSafe(numerator: real, denominator: real): (r: real)
    ensures denominator == 0.0 ==> r == 0.0
    ensures denominator != 0.0 ==> r * denominator == numerator
  {
    if denominator == 0.0 then 0.0 else numerator / denominator
  }

  // ---------------------------------------------------------------------------------------
  // string_to_int and the integer syntax it accepts

  predicate IsDigit(c: char) {
    '0' <= c <= '9'
  }

  predicate AllDigits(s: string) {
    forall i | 0 <= i < |s| :: IsDigit(s[i])
  }

  function DigitValue(c: char): nat
    requires IsDigit(c)
  {
    c as int - '0' as int
  }

  function DigitChar(d: nat): (c: char)
    requires d < 10
    ensures IsDigit(c) && DigitValue(c) == d
  {
    (d + '0' as int) as char
  }

  /** The value of a string of decimal digits, most significant first. */
  function DigitsValue(s: string): nat
    requires AllDigits(s)
  {
    if s == [] then 0 else DigitsValue(s[..|s| - 1]) * 10 + DigitValue(s[|s| - 1])
  }

  /** `int(s)` on a string: an optional sign followed by at least one decimal digit;
      `None` where Python raises `ValueError`. */
  function ParseInt(s: string): (r: Option<int>)
    ensures r.Some? <==>
      s != [] && AllDigits(s[1..]) && (IsDigit(s[0]) || ((s[0] == '-' || s[0] == '+') && |s| > 1))
    ensures AllDigits(s) && s != [] ==> r == Some(DigitsValue(s))
    ensures r.Some? && s[0] == '-' ==> r.value == -(DigitsValue(s[1..]) as int)
    ensures r.Some? && s[0] == '+' ==> r.value == DigitsValue(s[1..])
  {
    if s != [] && (s[0] == '-' || s[0] == '+') then
      var body := s[1..];
      if body != [] && AllDigits(body) then
        var magnitude: int := DigitsValue(body);
        Some(if s[0] == '-' then -magnitude else magnitude)
      else None
    else if s != [] && AllDigits(s) then Some(DigitsValue(s))
    else None
  }

  /** The decimal spelling of a natural number, without leading zeros. */
  function ShowNat(n: nat): (s: string)
    ensures s != [] && AllDigits(s)
  {
    if n < 10 then [DigitChar(n)] else ShowNat(n / 10) + [DigitChar(n % 10)]
  }

  /** The decimal spelling of an integer, as the feed writes its counts. */
  function ShowInt(n: int): (s: string)
  {
    if n < 0 then "-" + ShowNat(-n) else ShowNat(n)
  }

  lemma {:induction false} DigitsValueOfShowNat(n: nat)
    ensures DigitsValue(ShowNat(n)) == n
  {
    if n >= 10 {
      var s := ShowNat(n);
      assert s[..|s| - 1] == ShowNat(n / 10);
      DigitsValueOfShowNat(n / 10);
    }
  }

  /** Parsing inverts printing. */
  lemma ParseShowInt(n: int)
    ensures ParseInt(ShowInt(n)) == Some(n)
  {
    if n < 0 {
      DigitsValueOfShowNat(-n);
      assert ShowInt(n)[1..] == ShowNat(-n);
    } else {
      DigitsValueOfShowNat(n);
      assert IsDigit(ShowNat(n)[0]);
    }
  }

  /** An empty field counts as 0; anything else must be an integer. */
  function StringToInt(s: string): (r: Result<int>)
    ensures s == "" ==> r == Ok(0)
    ensures s != "" ==> (r.Ok? <==> ParseInt(s).Some?)
    ensures s != "" && r.Ok? ==> r.value == ParseInt(s).value
    ensures r.Err? ==> r.error == ValueError
  {
    if s == "" then Ok(0)
    else match ParseInt(s)
      case Some(n) => Ok(n)
      case None => Err(ValueError)
  }

  /** Every count the feed can print reads back as itself. */
  lemma StringToIntOfShowInt(n: int)
    ensures StringToInt(ShowInt(n)) == Ok(n)
  {
    ParseShowInt(n);
  }

  // ---------------------------------------------------------------------------------------
  // Country-name normalisation: `name.replace('_', ' ').upper()`

  /** Upper-casing of one character (ASCII letters only). */
  function Upper(c: char): (u: char)
  {
    if 'a' <= c <= 'z' then (c as int - 32) as char else c
  }

  /** The display form of a feed country name: underscores become spaces, letters are
      upper-cased. */
  function DisplayName(name: string): (r: string)
    ensures |r| == |name|
    ensures forall i | 0 <= i < |r| :: r[i] != '_' && !('a' <= r[i] <= 'z')
    ensures forall i | 0 <= i < |r| :: name[i] == '_' ==> r[i] == ' '
    ensures forall i | 0 <= i < |r| :: 'a' <= name[i] <= 'z' ==> r[i] as int == name[i] as int - 32
    ensures forall i | 0 <= i < |r| :: name[i] != '_' && !('a' <= name[i] <= 'z') ==> r[i] == name[i]
  {
    seq(|name|, i requires 0 <= i < |name| => if name[i] == '_' then ' ' else Upper(name[i]))
  }

  /** Normalising a normalised name changes nothing. */
  lemma DisplayNameIdempotent(name: string)
    ensures DisplayName(DisplayName(name)) == DisplayName(name)
  {
  }

  // ---------------------------------------------------------------------------------------
  // get_important_data

  /** The shape of an extracted record: name, code and date as text, then the three counts. */
  predicate IsImportant(rec: Record) {
    && |rec| == 6
    && rec[Columns.CountryName].Text? && rec[Columns.CountryCode].Text? && rec[Columns.Date].Text?
    && rec[Columns.NewCases].Whole? && rec[Columns.NewDeaths].Whole? && rec[Columns.Population].Whole?
  }

  function NewCasesOf(rec: Record): int
    requires IsImportant(rec)
  {
    rec[Columns.NewCases].n
  }

  function NewDeathsOf(rec: Record): int
    requires IsImportant(rec)
  {
    rec[Columns.NewDeaths].n
  }

  function PopulationOf(rec: Record): int
    requires IsImportant(rec)
  {
    rec[Columns.Population].n
  }

  /** The country code of a row: the primary code (field 8), or the secondary one (field 7)
      when the primary is empty. */
  function CodeOf(row: Row): string
    requires |row| > 8
  {
    if row[8] != "" then row[8] else row[7]
  }

  /** The six important fields of a feed row, evaluated left to right as the source's list
      display is: a row too short for field 8 or field 9 raises `IndexError`, a count that is
      not an integer raises `ValueError`. */
  function ExtractRow(row: Row): (r: Result<Record>)
    ensures r.Ok? <==>
      && |row| >= 10
      && StringToInt(row[4]).Ok? && StringToInt(row[5]).Ok? && StringToInt(row[9]).Ok?
    ensures r.Ok? ==> IsImportant(r.value)
    ensures r.Err? ==>
      (r.error == IndexError <==>
        |row| < 9 || (|row| == 9 && StringToInt(row[4]).Ok? && StringToInt(row[5]).Ok?))
    ensures r.Err? ==> r.error in {IndexError, ValueError}
  {
    if |row| < 9 then Err(IndexError)
    else
      match StringToInt(row[4])
      case Err(e) => Err(e)
      case Ok(cases) =>
        match StringToInt(row[5])
        case Err(e) => Err(e)
        case Ok(deaths) =>
          if |row| < 10 then Err(IndexError)
          else
            match StringToInt(row[9])
            case Err(e) => Err(e)
            case Ok(population) =>
              Ok([Text(row[6]), Text(CodeOf(row)), Text(row[0]),
                  Whole(cases), Whole(deaths), Whole(population)])
  }

  /** A feed row carrying the given values in the positions the feed uses (date 0, day 1,
      month 2, year 3, new cases 4, new deaths 5, country name 6, secondary code 7, primary
      code 8, population 9), followed by any further fields. */
  function FeedRow(date: string, day: string, month: string, year: string, cases: int, deaths: int,
                   name: string, secondary: string, primary: string, population: int,
                   rest: seq<string>): (row: Row)
    ensures |row| == 10 + |rest| && row[10..] == rest
  {
    [date, day, month, year, ShowInt(cases), ShowInt(deaths), name, secondary, primary, ShowInt(population)]
      + rest
  }

  /** Extraction recovers exactly what a feed row carries, in the order
      name, code, date, new cases, new deaths, population, whatever the other fields hold;
      the code falls back to the secondary field only when the primary one is empty. */
  lemma ExtractFeedRow(date: string, day: string, month: string, year: string, cases: int, deaths: int,
                       name: string, secondary: string, primary: string, population: int,
                       rest: seq<string>)
    ensures ExtractRow(FeedRow(date, day, month, year, cases, deaths, name, secondary, primary, population, rest))
         == Ok([Text(name), Text(if primary != "" then primary else secondary), Text(date),
                Whole(cases), Whole(deaths), Whole(population)])
  {
    var row := FeedRow(date, day, month, year, cases, deaths, name, secondary, primary, population, rest);
    assert row[4] == ShowInt(cases) && row[5] == ShowInt(deaths) && row[9] == ShowInt(population);
    assert row[0] == date && row[6] == name && row[7] == secondary && row[8] == primary;
    StringToIntOfShowInt(cases);
    StringToIntOfShowInt(deaths);
    StringToIntOfShowInt(population);
  }

  /** For every row that extracts, the record holds field 6, the resolved code, field 0 and
      the integers fields 4, 5 and 9 read as, in that order. */
  lemma ExtractedFields(row: Row)
    requires ExtractRow(row).Ok?
    ensures |row| >= 10
    ensures ExtractRow(row).value
         == [Text(row[6]), Text(CodeOf(row)), Text(row[0]),
             Whole(StringToInt(row[4]).value), Whole(StringToInt(row[5]).value), Whole(StringToInt(row[9]).value)]
  {
  }

  /** An empty count field reads as 0. */
  lemma ExtractEmptyCounts(row: Row)
    requires |row| >= 10 && row[4] == "" && row[5] == "" && row[9] == ""
    ensures ExtractRow(row).Ok?
    ensures NewCasesOf(ExtractRow(row).value) == 0 && NewDeathsOf(ExtractRow(row).value) == 0
    ensures PopulationOf(ExtractRow(row).value) == 0
  {
  }

  /** The stored code agrees with the row's primary code exactly when the primary code is
      present or both are empty. */
  lemma StoredCodeIsPrimary(row: Row)
    requires ExtractRow(row).Ok?
    ensures ExtractRow(row).value[Columns.CountryCode] == Text(row[8]) <==> row[8] != "" || row[7] == ""
  {
  }
}
