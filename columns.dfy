/** The column layout of an aggregated row and the graph types the menu offers. */
module Columns {
  import opened Py

  // The six fields taken from the feed ...
  const CountryName: int := 0
  const CountryCode: int := 1
  const Date: int := 2
  const NewCases: int := 3
  const NewDeaths: int := 4
  const Population: int := 5
  // ... and the six the running-total scan appends.
  const TotalCases: int := 6
  const TotalDeaths: int := 7
  const DeathRate: int := 8
  const InfectionRate: int := 9
  const CasesPerMillion: int := 10
  const DeathsPerMillion: int := 11

  /** The width of a fully aggregated row. */
  const Width: int := 12

  const Headers: seq<int> := [
    CountryName, CountryCode, Date, NewCases, NewDeaths, Population,
    TotalCases, TotalDeaths, DeathRate, InfectionRate, CasesPerMillion, DeathsPerMillion
  ]

  /** Axis and title labels, for the six plottable columns only. */
  const Labels: map<int, string> := map[
    TotalCases := "Total Cases",
    TotalDeaths := "Total Deaths",
    DeathRate := "Percent of Cases Resulting in Death",
    InfectionRate := "Percent of Population Infected",
    CasesPerMillion := "Number of Cases Per 1 Million Population",
    DeathsPerMillion := "Number of Deaths Per 1 Million Population"
  ]

  /** The graph-type selector typed at the menu, mapped to the column it plots. */
  const ColumnTypes: map<string, int> := map[
    "1" := TotalCases,
    "2" := TotalDeaths,
    "3" := DeathRate,
    "4" := InfectionRate,
    "5" := CasesPerMillion,
    "6" := DeathsPerMillion
  ]

  /** The position of a column in the header list; `ValueError` for anything that is not a column. */
  function GetColumnNum(column: int): (r: Result<nat>)
    ensures r.Ok? <==> column in Headers
    ensures r.Ok? ==> r.value < Width && Headers[r.value] == column
  {
    IndexOf(Headers, column)
  }

  /** The label of a plottable column; `KeyError` for the six feed columns and anything else. */
  function GetLabel(column: int): (r: Result<string>)
    ensures r.Ok? <==> TotalCases <= column <= DeathsPerMillion
    ensures r.Err? ==> r.error == KeyError
  {
    if column in Labels then Ok(Labels[column]) else Err(KeyError)
  }

  /** Every column constant is its own position: `get_column_num` is the identity on 0..11
      and refuses everything else. */
  lemma {:induction false} ColumnNumIsIdentity(column: int)
    ensures 0 <= column < Width ==> GetColumnNum(column) == Ok(column)
    ensures !(0 <= column < Width) ==> GetColumnNum(column) == Err(ValueError)
  {
    assert forall i | 0 <= i < |Headers| :: Headers[i] == i;
    if 0 <= column < Width {
      var r := GetColumnNum(column);
      assert Headers[column] == column;
      assert r.Ok? && Headers[r.value] == column;
    } else {
      assert column !in Headers;
    }
  }

  /** The menu's graph types are exactly the six computed columns, each chosen by one
      selector, and each has a label. */
  lemma ColumnTypesAreLabelledColumns()
    ensures ColumnTypes.Keys == {"1", "2", "3", "4", "5", "6"}
    ensures forall c :: c in ColumnTypes.Values <==> TotalCases <= c <= DeathsPerMillion
    ensures forall t | t in ColumnTypes :: GetLabel(ColumnTypes[t]).Ok?
    ensures forall t, u | t in ColumnTypes && u in ColumnTypes && t != u :: ColumnTypes[t] != ColumnTypes[u]
  {
    assert ColumnTypes.Values == {6, 7, 8, 9, 10, 11} by {
      assert ColumnTypes["1"] == 6 && ColumnTypes["2"] == 7 && ColumnTypes["3"] == 8;
      assert ColumnTypes["4"] == 9 && ColumnTypes["5"] == 10 && ColumnTypes["6"] == 11;
    }
  }
}
