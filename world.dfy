/** The world dataset: feed rows grouped per country, each group turned into a running-total
    series, the two lookup tables between country names and codes, and the countries whose
    report dates match the reference country's. */
module World {
  import opened Py
  import opened Feed
  import opened Series
  import Columns

  /** The country every other country's dates are compared with. */
  const Reference: string := "USA"

  // ---------------------------------------------------------------------------------------
  // Specification of the grouping loop

  predicate RowOk(row: Row) {
    ExtractRow(row).Ok?
  }

  predicate AllRowsOk(data: seq<Row>) {
    forall i | 0 <= i < |data| :: RowOk(data[i])
  }

  /** The dictionary key a row is filed under: the primary code, with no fallback. */
  function Key(row: Row): string
    requires |row| > 8
  {
    row[8]
  }

  /** The display name a row contributes to the lookup tables. */
  function NameOf(row: Row): string
    requires |row| > 6
  {
    DisplayName(row[6])
  }

  function Important(row: Row): (rec: Record)
    requires RowOk(row)
    ensures IsImportant(rec)
  {
    ExtractRow(row).value
  }

  /** The records of the rows filed under `key`, in feed order. */
  function Select(data: seq<Row>, key: string): (recs: seq<Record>)
    requires AllRowsOk(data)
    ensures |recs| <= |data|
  {
    if data == [] then []
    else
      var row := data[|data| - 1];
      Select(data[..|data| - 1], key) + if Key(row) == key then [Important(row)] else []
  }

  function Reverse<T>(s: seq<T>): (r: seq<T>)
    ensures |r| == |s|
  {
    if s == [] then [] else [s[|s| - 1]] + Reverse(s[..|s| - 1])
  }

  /** The per-country lists after the grouping loop: each row is put at the front of its
      key's list, which is created empty the first time the key is seen. */
  function Groups(data: seq<Row>): (groups: map<string, seq<Record>>)
    requires AllRowsOk(data)
    ensures forall k | k in groups :: groups[k] != [] && AllImportant(groups[k])
  {
    if data == [] then map[]
    else
      var row := data[|data| - 1];
      var groups := Groups(data[..|data| - 1]);
      var key := Key(row);
      groups[key := [Important(row)] + if key in groups then groups[key] else []]
  }

  /** The keys in the order the grouping loop first meets them (the dictionary's order). */
  function KeyOrder(data: seq<Row>): seq<string>
    requires AllRowsOk(data)
  {
    if data == [] then []
    else
      var order := KeyOrder(data[..|data| - 1]);
      var key := Key(data[|data| - 1]);
      if key in order then order else order + [key]
  }

  /** Code to name: every row overwrites the entry of its key. */
  function Names(data: seq<Row>): map<string, string>
    requires AllRowsOk(data)
  {
    if data == [] then map[]
    else
      var row := data[|data| - 1];
      Names(data[..|data| - 1])[Key(row) := NameOf(row)]
  }

  /** Name to code: every row overwrites the entry of its display name. */
  function Codes(data: seq<Row>): map<string, string>
    requires AllRowsOk(data)
  {
    if data == [] then map[]
    else
      var row := data[|data| - 1];
      Codes(data[..|data| - 1])[NameOf(row) := Key(row)]
  }

  /** Every country's list replaced by its running-total series. */
  function AccumulatedMap(groups: map<string, seq<Record>>): (world: map<string, seq<Record>>)
    requires forall k | k in groups :: AllImportant(groups[k])
    ensures world.Keys == groups.Keys
  {
    map k | k in groups :: Accumulated(groups[k])
  }

  lemma AccumulatedMapIsSeries(groups: map<string, seq<Record>>)
    requires forall k | k in groups :: groups[k] != [] && AllImportant(groups[k])
    ensures forall k | k in AccumulatedMap(groups) :: IsSeries(AccumulatedMap(groups)[k])
  {
    forall k | k in groups ensures IsSeries(AccumulatedMap(groups)[k]) {
      AccumulatedIsSeries(groups[k]);
    }
  }

  /** The dataset after the running-total scan. */
  function WorldOf(data: seq<Row>): (world: map<string, seq<Record>>)
    requires AllRowsOk(data)
    ensures world.Keys == Groups(data).Keys
  {
    AccumulatedMap(Groups(data))
  }

  /** A country delivered newest first, as the feed delivers it: its two days end up oldest
      first, the older day's totals are its own counts and the newer day's totals add its
      counts to those (5 then 3 new cases give totals 3 then 8). */
  lemma NewestFirstExample(newer: Row, older: Row)
    requires RowOk(newer) && RowOk(older) && Key(newer) == Key(older)
    ensures var data := [newer, older];
      && AllRowsOk(data) && WorldOf(data).Keys == {Key(newer)} && |WorldOf(data)[Key(newer)]| == 2
      && WorldOf(data)[Key(newer)][0][..6] == Important(older)
      && WorldOf(data)[Key(newer)][1][..6] == Important(newer)
      && WorldOf(data)[Key(newer)][0][Columns.TotalCases] == Whole(NewCasesOf(Important(older)))
      && WorldOf(data)[Key(newer)][1][Columns.TotalCases]
         == Whole(NewCasesOf(Important(older)) + NewCasesOf(Important(newer)))
  {
    var data := [newer, older];
    GroupStep(data, 0);
    GroupStep(data, 1);
    assert data[..0] == [] && data[..2] == data;
    var rows := [Important(older), Important(newer)];
    assert Groups(data)[Key(newer)] == rows;
    assert WorldOf(data)[Key(newer)] == Accumulated(rows);
    AccumulatedRow(rows, 0);
    AccumulatedRow(rows, 1);
    TotalsRecurrence(rows, 0);
    TotalsRecurrence(rows, 1);
  }

  predicate Distinct<T(==)>(s: seq<T>) {
    forall i, j | 0 <= i < j < |s| :: s[i] != s[j]
  }

  lemma PrefixRowsOk(data: seq<Row>, n: nat)
    requires AllRowsOk(data) && n <= |data|
    ensures AllRowsOk(data[..n])
  {
  }

  /** `Reverse` reverses: its i-th element is the i-th from the end. */
  lemma {:induction false} ReverseAt<T>(s: seq<T>, i: nat)
    requires i < |s|
    ensures Reverse(s)[i] == s[|s| - 1 - i]
  {
    if i > 0 {
      ReverseAt(s[..|s| - 1], i - 1);
    }
  }

  /** Grouping files every row under its own key, and a country's list is the reverse of the
      feed order of its rows: a feed listing each country newest first gives oldest-first
      lists. A key has a list exactly when some row carries it. */
  lemma {:induction false} GroupsReverseSelect(data: seq<Row>, key: string)
    requires AllRowsOk(data)
    ensures key in Groups(data) <==> exists i | 0 <= i < |data| :: Key(data[i]) == key
    ensures key in Groups(data) ==> Groups(data)[key] == Reverse(Select(data, key))
    ensures key !in Groups(data) ==> Select(data, key) == []
  {
    if data != [] {
      var prefix := data[..|data| - 1];
      var row := data[|data| - 1];
      PrefixRowsOk(data, |data| - 1);
      GroupsReverseSelect(prefix, key);
      if Key(row) == key {
        var sel := Select(data, key);
        assert sel == Select(prefix, key) + [Important(row)];
        assert sel[..|sel| - 1] == Select(prefix, key);
      } else {
        assert Select(data, key) == Select(prefix, key);
        if exists i | 0 <= i < |data| :: Key(data[i]) == key {
          var i :| 0 <= i < |data| && Key(data[i]) == key;
          assert i < |prefix| && Key(prefix[i]) == key;
        }
      }
    }
  }

  /** The key order lists every key exactly once. */
  lemma {:induction false} KeyOrderIsKeys(data: seq<Row>)
    requires AllRowsOk(data)
    ensures Distinct(KeyOrder(data))
    ensures forall k :: k in KeyOrder(data) <==> k in Groups(data)
  {
    if data != [] {
      PrefixRowsOk(data, |data| - 1);
      KeyOrderIsKeys(data[..|data| - 1]);
    }
  }

  /** The name table is keyed by exactly the grouping keys; every name it holds can be looked
      up in the code table, and every code the code table holds is a grouping key. */
  lemma {:induction false} LookupTablesAgree(data: seq<Row>)
    requires AllRowsOk(data)
    ensures Names(data).Keys == Groups(data).Keys
    ensures Codes(data).Values <= Groups(data).Keys
    ensures Names(data).Values <= Codes(data).Keys
  {
    if data != [] {
      PrefixRowsOk(data, |data| - 1);
      LookupTablesAgree(data[..|data| - 1]);
    }
  }

  /** Later rows overwrite earlier ones: a code's name is the display name of the last row
      filed under that code. */
  lemma {:induction false} NamesLastWins(data: seq<Row>, code: string, j: nat)
    requires AllRowsOk(data) && j < |data| && Key(data[j]) == code
    requires forall j' | j < j' < |data| :: Key(data[j']) != code
    ensures code in Names(data) && Names(data)[code] == NameOf(data[j])
  {
    PrefixRowsOk(data, |data| - 1);
    if j < |data| - 1 {
      NamesLastWins(data[..|data| - 1], code, j);
    }
  }

  /** Later rows overwrite earlier ones: a display name's code is the key of the last row
      carrying that name. */
  lemma {:induction false} CodesLastWins(data: seq<Row>, name: string, j: nat)
    requires AllRowsOk(data) && j < |data| && NameOf(data[j]) == name
    requires forall j' | j < j' < |data| :: NameOf(data[j']) != name
    ensures name in Codes(data) && Codes(data)[name] == Key(data[j])
  {
    PrefixRowsOk(data, |data| - 1);
    if j < |data| - 1 {
      CodesLastWins(data[..|data| - 1], name, j);
    }
  }

  // ---------------------------------------------------------------------------------------
  // Comparable countries and column projection

  /** The set of report dates of a series (the date column, as a set). */
  function Dates(series: seq<Record>): set<Cell>
  {
    set i | 0 <= i < |series| && |series[i]| > Columns.Date :: series[i][Columns.Date]
  }

  /** The countries, in order, whose date set equals `dates`. */
  function SameDates(world: map<string, seq<Record>>, countries: seq<string>, dates: set<Cell>): (r: seq<string>)
    requires forall k | k in countries :: k in world
    ensures forall k :: k in r <==> k in countries && Dates(world[k]) == dates
  {
    if countries == [] then []
    else
      (if Dates(world[countries[0]]) == dates then [countries[0]] else [])
      + SameDates(world, countries[1..], dates)
  }

  /** The comparable countries: the keys whose date set equals the reference country's. With
      at least one key and no reference country, looking the reference up raises `KeyError`. */
  function ComparableOf(world: map<string, seq<Record>>, countries: seq<string>): (r: Result<seq<string>>)
    requires forall k | k in countries :: k in world
    ensures r.Err? <==> countries != [] && Reference !in world
    ensures r.Err? ==> r.error == KeyError
    ensures r.Ok? ==> forall k :: k in r.value <==>
      k in countries && Reference in world && Dates(world[k]) == Dates(world[Reference])
  {
    if countries == [] then Ok([])
    else if Reference !in world then Err(KeyError)
    else Ok(SameDates(world, countries, Dates(world[Reference])))
  }

  /** `[row[c] for row in series]`: one field of every row, or `IndexError` when some row has
      no field `c`. */
  function Column(series: seq<Record>, c: int): (r: Result<seq<Cell>>)
    ensures r.Ok? <==> forall i | 0 <= i < |series| :: Item(series[i], c).Some?
    ensures r.Ok? ==> |r.value| == |series|
    ensures r.Ok? ==> forall i | 0 <= i < |series| :: Item(series[i], c) == Some(r.value[i])
    ensures r.Err? ==> r.error == IndexError
  {
    if series == [] then Ok([])
    else match Item(series[0], c)
      case None => Err(IndexError)
      case Some(x) =>
        match Column(series[1..], c)
        case Err(e) => Err(e)
        case Ok(rest) => Ok([x] + rest)
  }

  /** On an aggregated series every one of the twelve columns (counted from either end) can
      be projected, and the date column holds exactly the series' dates. */
  lemma SeriesColumn(series: seq<Record>, c: int)
    ensures IsSeries(series) ==> (Column(series, c).Ok? <==> -Columns.Width <= c < Columns.Width)
    ensures IsSeries(series) && c == Columns.Date ==>
      forall x :: x in Column(series, c).value <==> x in Dates(series)
  {
    if IsSeries(series) {
      var r := Column(series, c);
      assert |series[0]| == Columns.Width;
      if c == Columns.Date {
        forall x | x in r.value ensures x in Dates(series) {
          var i :| 0 <= i < |r.value| && r.value[i] == x;
          assert Item(series[i], c) == Some(x);
        }
        forall x | x in Dates(series) ensures x in r.value {
          var i :| 0 <= i < |series| && |series[i]| > Columns.Date && series[i][Columns.Date] == x;
          assert Item(series[i], c) == Some(r.value[i]);
        }
      }
    }
  }

  /** The first row of the feed that extraction refuses, if any. */
  function FirstBadRow(data: seq<Row>): (r: Option<nat>)
    ensures r.None? <==> AllRowsOk(data)
    ensures r.Some? ==> r.value < |data| && !RowOk(data[r.value]) && AllRowsOk(data[..r.value])
  {
    if data == [] then None
    else if !RowOk(data[0]) then Some(0)
    else match FirstBadRow(data[1..])
      case None => None
      case Some(i) => (assert data[..i + 1] == [data[0]] + data[1..][..i]; Some(i + 1))
  }

  /** What building the dataset raises, if anything: the error of the first bad row, or
      `KeyError` when the feed has rows but none of them is the reference country's. */
  function LoadError(data: seq<Row>): (r: Option<Failure>)
    ensures r.None? <==> AllRowsOk(data) && (data != [] ==> Reference in Groups(data))
  {
    match FirstBadRow(data)
    case Some(i) => Some(ExtractRow(data[i]).error)
    case None => if data != [] && Reference !in Groups(data) then Some(KeyError) else None
  }

  // ---------------------------------------------------------------------------------------
  // The two loops of the dataset's construction

  /** One step of the grouping loop, as the four prefix specifications see it. */
  lemma GroupStep(data: seq<Row>, i: nat)
    requires AllRowsOk(data) && i < |data|
    ensures AllRowsOk(data[..i]) && AllRowsOk(data[..i + 1])
    ensures Key(data[i]) in KeyOrder(data[..i]) <==> Key(data[i]) in Groups(data[..i])
    ensures var groups, key := Groups(data[..i]), Key(data[i]);
      Groups(data[..i + 1]) == groups[key := [Important(data[i])] + if key in groups then groups[key] else []]
    ensures var order, key := KeyOrder(data[..i]), Key(data[i]);
      KeyOrder(data[..i + 1]) == if key in order then order else order + [key]
    ensures Codes(data[..i + 1]) == Codes(data[..i])[NameOf(data[i]) := Key(data[i])]
    ensures Names(data[..i + 1]) == Names(data[..i])[Key(data[i]) := NameOf(data[i])]
  {
    assert data[..i + 1][..i] == data[..i];
    PrefixRowsOk(data, i);
    PrefixRowsOk(data, i + 1);
    KeyOrderIsKeys(data[..i]);
  }

  /** The body of the grouping loop for one row: the row overwrites the two lookup-table
      entries it touches, its key gets an empty list (and its place in the key order) the
      first time it is seen, and the row's record goes to the front of that list. */
  method FileRow(row: Row, world: map<string, seq<Record>>, order: seq<string>,
                 codes: map<string, string>, names: map<string, string>)
    returns (world': map<string, seq<Record>>, order': seq<string>,
             codes': map<string, string>, names': map<string, string>)
    requires RowOk(row)
    requires Key(row) in order <==> Key(row) in world
    ensures world' == world[Key(row) := [Important(row)] + if Key(row) in world then world[Key(row)] else []]
    ensures order' == if Key(row) in order then order else order + [Key(row)]
    ensures codes' == codes[NameOf(row) := Key(row)] && names' == names[Key(row) := NameOf(row)]
  {
    world', order' := world, order;
    var countryName := DisplayName(row[6]);
    var countryCode := row[8];
    codes' := codes[countryName := countryCode];
    names' := names[countryCode := countryName];
    if countryCode !in world' {
      world' := world'[countryCode := []];
      order' := order' + [countryCode];
    }
    world' := world'[countryCode := [ExtractRow(row).value] + world'[countryCode]];
  }

  /** The grouping loop over the whole feed. */
  method GroupRows(data: seq<Row>)
    returns (world: map<string, seq<Record>>, order: seq<string>,
             codes: map<string, string>, names: map<string, string>)
    requires AllRowsOk(data)
    ensures world == Groups(data) && order == KeyOrder(data)
    ensures codes == Codes(data) && names == Names(data)
  {
    world, order, codes, names := map[], [], map[], map[];
    for i := 0 to |data|
      invariant world == Groups(data[..i]) && order == KeyOrder(data[..i])
      invariant codes == Codes(data[..i]) && names == Names(data[..i])
    {
      GroupStep(data, i);
      world, order, codes, names := FileRow(data[i], world, order, codes, names);
    }
    assert data[..|data|] == data;
  }

  /** The scan loop: every country's list becomes its running-total series. Countries are
      visited in no particular order; each one's series depends on its own list only. */
  method AccumulateAll(groups: map<string, seq<Record>>) returns (world: map<string, seq<Record>>)
    requires forall k | k in groups :: groups[k] != [] && AllImportant(groups[k])
    ensures world == AccumulatedMap(groups)
  {
    world := groups;
    var todo := groups.Keys;
    while todo != {}
      invariant todo <= groups.Keys && world.Keys == groups.Keys
      invariant forall k | k in world :: world[k] == if k in todo then groups[k] else Accumulated(groups[k])
      decreases todo
    {
      var country :| country in todo;
      var rows := Accumulate(world[country]);
      world := world[country := rows];
      todo := todo - {country};
    }
    assert world == AccumulatedMap(groups);
  }

  // ---------------------------------------------------------------------------------------
  // The dataset object

  class WorldData {
    /** Country code to its series. */
    var worldData: map<string, seq<Record>>
    /** The keys of `worldData` in the order they were added. */
    var countries: seq<string>
    /** Display name to country code. */
    var countryCodes: map<string, string>
    /** Country code to display name. */
    var countryNames: map<string, string>
    var comparableCountries: seq<string>

    ghost predicate Valid()
      reads this
    {
      && (forall k :: k in countries <==> k in worldData)
      && Distinct(countries)
      && (forall k | k in worldData :: IsSeries(worldData[k]))
      && countryNames.Keys == worldData.Keys
      && countryCodes.Values <= worldData.Keys
      && countryNames.Values <= countryCodes.Keys
      && ComparableOf(worldData, countries) == Ok(comparableCountries)
    }

    /** Builds the dataset from feed rows that all extract, and that include the reference
        country whenever there are any (otherwise the source raises; see `Load`). */
    constructor (data: seq<Row>)
      requires AllRowsOk(data)
      requires data != [] ==> Reference in Groups(data)
      ensures Valid()
      ensures worldData == WorldOf(data)
      ensures countries == KeyOrder(data)
      ensures countryCodes == Codes(data) && countryNames == Names(data)
      ensures ComparableOf(WorldOf(data), KeyOrder(data)) == Ok(comparableCountries)
    {
      var groups, order, codes, names := GroupRows(data);
      KeyOrderIsKeys(data);
      LookupTablesAgree(data);
      var world := AccumulateAll(groups);
      AccumulatedMapIsSeries(groups);
      worldData := world;
      countries := order;
      countryCodes := codes;
      countryNames := names;
      comparableCountries := ComparableOf(world, order).value;
    }

    /** `get_country_code_by_name`: the code of a display name, or `KeyError`. The code
        returned is always a country of the dataset. */
    function GetCountryCodeByName(name: string): (r: Result<string>)
      reads this
      ensures r.Ok? <==> name in countryCodes
      ensures r.Err? ==> r.error == KeyError
      ensures Valid() && r.Ok? ==> r.value in worldData
    {
      if name in countryCodes then Ok(countryCodes[name]) else Err(KeyError)
    }

    /** `get_country_name_by_code`: the display name of a country, or `KeyError`. On a valid
        dataset it succeeds exactly for the dataset's countries, and the name it returns can
        be looked up again. */
    function GetCountryNameByCode(code: string): (r: Result<string>)
      reads this
      ensures r.Ok? <==> code in countryNames
      ensures r.Err? ==> r.error == KeyError
      ensures Valid() ==> (r.Ok? <==> code in worldData)
      ensures Valid() && r.Ok? ==> GetCountryCodeByName(r.value).Ok?
    {
      if code in countryNames then Ok(countryNames[code]) else Err(KeyError)
    }

    /** `get_column_data`: field `column` of every row of a country, aligned by index with its
        rows; `KeyError` for an unknown country, `IndexError` for a column no row has. */
    function GetColumnData(code: string, column: int): (r: Result<seq<Cell>>)
      reads this
      ensures code !in worldData ==> r == Err(KeyError)
      ensures r.Ok? ==> code in worldData && |r.value| == |worldData[code]|
      ensures r.Ok? ==> forall i | 0 <= i < |r.value| :: Item(worldData[code][i], column) == Some(r.value[i])
      ensures Valid() && code in worldData ==> (r.Ok? <==> -Columns.Width <= column < Columns.Width)
      ensures Valid() && r.Ok? && column == Columns.Date ==> (forall x :: x in r.value <==> x in Dates(worldData[code]))
    {
      if code !in worldData then Err(KeyError)
      else
        SeriesColumn(worldData[code], column);
        Column(worldData[code], column)
    }

    /** The guard of a two-country comparison: it raises unless both countries are
        comparable; when it passes, both countries report on exactly the reference
        country's dates, so their series share one date axis. */
    function CheckComparison(code1: string, code2: string): (r: Outcome)
      reads this
      ensures r.Pass? <==> code1 in comparableCountries && code2 in comparableCountries
      ensures r.Fail? ==> r.error == Raised("Cannot compare the selected countries")
      ensures Valid() && r.Pass? ==>
        && code1 in worldData && code2 in worldData && Reference in worldData
        && Dates(worldData[code1]) == Dates(worldData[Reference])
        && Dates(worldData[code2]) == Dates(worldData[Reference])
    {
      if code1 !in comparableCountries || code2 !in comparableCountries then
        Fail(Raised("Cannot compare the selected countries"))
      else Pass
    }

    /** The reference country is always comparable with itself. */
    lemma ReferenceIsComparable()
      requires Valid() && Reference in worldData
      ensures Reference in comparableCountries
    {
    }
  }

  /** `World_Data(data)`: raises what the source raises (the first bad row's error, or
      `KeyError` for a non-empty feed without the reference country), else builds the dataset. */
  method Load(data: seq<Row>) returns (r: Result<WorldData>)
    ensures r.Err? <==> LoadError(data).Some?
    ensures r.Err? ==> LoadError(data) == Some(r.error)
    ensures r.Ok? ==> fresh(r.value) && r.value.Valid()
    ensures r.Ok? ==> r.value.worldData == WorldOf(data) && r.value.countries == KeyOrder(data)
    ensures r.Ok? ==> r.value.countryCodes == Codes(data) && r.value.countryNames == Names(data)
  {
    var error := LoadError(data);
    if error.Some? {
      return Err(error.value);
    }
    var world := new WorldData(data);
    return Ok(world);
  }
}
