/** The running-total scan over one country's rows: cumulative cases and deaths, and the
    four ratios derived from them. */
module Series {
  import opened Feed
  import Columns

  const Million: real := 1000000.0

  predicate AllImportant(rows: seq<Record>) {
    forall i | 0 <= i < |rows| :: IsImportant(rows[i])
  }

  /** The sum of the new cases of all the rows. */
  function CasesSum(rows: seq<Record>): int
    requires AllImportant(rows)
  {
    if rows == [] then 0 else CasesSum(rows[..|rows| - 1]) + NewCasesOf(rows[|rows| - 1])
  }

  /** The sum of the new deaths of all the rows. */
  function DeathsSum(rows: seq<Record>): int
    requires AllImportant(rows)
  {
    if rows == [] then 0 else DeathsSum(rows[..|rows| - 1]) + NewDeathsOf(rows[|rows| - 1])
  }

  /** The six cells appended to a row with the given population once its running totals are
      known: the two totals, the death rate and infection rate in percent, and cases and
      deaths per million inhabitants. Every division goes through `DivideSafe`. */
  function Metrics(population: int, totalCases: int, totalDeaths: int): (m: seq<Cell>)
    ensures |m| == 6
    ensures m[0] == Whole(totalCases) && m[1] == Whole(totalDeaths)
    ensures m[2].Ratio? && m[3].Ratio? && m[4].Ratio? && m[5].Ratio?
  {
    var millions := population as real / Million;
    [Whole(totalCases), Whole(totalDeaths),
     Ratio(DivideSafe(totalDeaths as real, totalCases as real) * 100.0),
     Ratio(DivideSafe(totalCases as real, population as real) * 100.0),
     Ratio(DivideSafe(totalCases as real, millions)),
     Ratio(DivideSafe(totalDeaths as real, millions))]
  }

  /** What the four ratios mean: the death rate is deaths per hundred cases, the infection
      rate cases per hundred inhabitants, and the per-million figures scale by the population
      in millions; a zero denominator gives 0 instead. */
  lemma MetricsMeaning(population: int, totalCases: int, totalDeaths: int)
    ensures var m := Metrics(population, totalCases, totalDeaths);
      && (totalCases == 0 ==> m[2] == Ratio(0.0))
      && (totalCases != 0 ==> m[2].x * totalCases as real == totalDeaths as real * 100.0)
      && (population == 0 ==> m[3] == Ratio(0.0) && m[4] == Ratio(0.0) && m[5] == Ratio(0.0))
      && (population != 0 ==>
        && m[3].x * population as real == totalCases as real * 100.0
        && m[4].x * population as real == totalCases as real * Million
        && m[5].x * population as real == totalDeaths as real * Million)
  {
    var m := Metrics(population, totalCases, totalDeaths);
    var millions := population as real / Million;
    if population != 0 {
      assert millions * Million == population as real;
      var c := DivideSafe(totalCases as real, millions);
      assert c * millions == totalCases as real;
      assert m[4].x == c;
      calc {
        m[4].x * population as real;
        c * (millions * Million);
        (c * millions) * Million;
        totalCases as real * Million;
      }
      var d := DivideSafe(totalDeaths as real, millions);
      assert d * millions == totalDeaths as real;
      assert m[5].x == d;
      calc {
        m[5].x * population as real;
        d * (millions * Million);
        (d * millions) * Million;
        totalDeaths as real * Million;
      }
    }
  }

  /** A fully aggregated row: the six extracted fields, two integer totals, four ratios. */
  predicate IsComplete(row: Record) {
    && |row| == Columns.Width
    && IsImportant(row[..6])
    && row[Columns.TotalCases].Whole? && row[Columns.TotalDeaths].Whole?
    && row[Columns.DeathRate].Ratio? && row[Columns.InfectionRate].Ratio?
    && row[Columns.CasesPerMillion].Ratio? && row[Columns.DeathsPerMillion].Ratio?
  }

  function TotalCasesOf(row: Record): int
    requires IsComplete(row)
  {
    row[Columns.TotalCases].n
  }

  function TotalDeathsOf(row: Record): int
    requires IsComplete(row)
  {
    row[Columns.TotalDeaths].n
  }

  /** What the scan makes of a country's rows: each row extended with the totals of itself and
      every row before it, and the ratios derived from those totals and its own population. */
  function Accumulated(rows: seq<Record>): (acc: seq<Record>)
    requires AllImportant(rows)
    ensures |acc| == |rows|
  {
    seq(|rows|, i requires 0 <= i < |rows| =>
      rows[i] + Metrics(PopulationOf(rows[i]), CasesSum(rows[..i + 1]), DeathsSum(rows[..i + 1])))
  }

  /** The extracted part of each row of an aggregated series. */
  function Base(series: seq<Record>): (rows: seq<Record>)
    requires forall i | 0 <= i < |series| :: |series[i]| >= 6
    ensures |rows| == |series|
  {
    seq(|series|, i requires 0 <= i < |series| => series[i][..6])
  }

  /** A country's series as the scan leaves it: non-empty, every row complete, and every row
      extended from its own first six fields as `Accumulated` prescribes. */
  predicate IsSeries(series: seq<Record>) {
    && |series| > 0
    && (forall i | 0 <= i < |series| :: IsComplete(series[i]))
    && AllImportant(Base(series))
    && series == Accumulated(Base(series))
  }

  lemma SumsStep(rows: seq<Record>, i: nat)
    requires AllImportant(rows) && i < |rows|
    ensures CasesSum(rows[..i + 1]) == CasesSum(rows[..i]) + NewCasesOf(rows[i])
    ensures DeathsSum(rows[..i + 1]) == DeathsSum(rows[..i]) + NewDeathsOf(rows[i])
  {
    assert rows[..i + 1][..i] == rows[..i];
  }

  /** Every aggregated row has twelve fields of the expected kinds, keeps its six extracted
      fields unchanged in front, and ends with the metrics of its own totals and population. */
  lemma AccumulatedRow(rows: seq<Record>, i: nat)
    requires AllImportant(rows) && i < |rows|
    ensures IsComplete(Accumulated(rows)[i])
    ensures Accumulated(rows)[i][..6] == rows[i]
    ensures Accumulated(rows)[i][6..]
         == Metrics(PopulationOf(rows[i]), TotalCasesOf(Accumulated(rows)[i]), TotalDeathsOf(Accumulated(rows)[i]))
  {
    var row := Accumulated(rows)[i];
    assert row[..6] == rows[i];
    assert IsImportant(row[..6]);
  }

  /** The scan's recurrence: the first row's totals are its own counts, and every later row's
      totals are the previous row's totals plus its own counts. */
  lemma TotalsRecurrence(rows: seq<Record>, i: nat)
    requires AllImportant(rows) && i < |rows|
    ensures IsComplete(Accumulated(rows)[i])
    ensures i == 0 ==>
      && TotalCasesOf(Accumulated(rows)[0]) == NewCasesOf(rows[0])
      && TotalDeathsOf(Accumulated(rows)[0]) == NewDeathsOf(rows[0])
    ensures i > 0 ==>
      && IsComplete(Accumulated(rows)[i - 1])
      && TotalCasesOf(Accumulated(rows)[i]) == TotalCasesOf(Accumulated(rows)[i - 1]) + NewCasesOf(rows[i])
      && TotalDeathsOf(Accumulated(rows)[i]) == TotalDeathsOf(Accumulated(rows)[i - 1]) + NewDeathsOf(rows[i])
  {
    AccumulatedRow(rows, i);
    SumsStep(rows, i);
    if i == 0 {
      assert rows[..0] == [];
    } else {
      AccumulatedRow(rows, i - 1);
    }
  }

  predicate NonNegativeCounts(rows: seq<Record>)
    requires AllImportant(rows)
  {
    forall i | 0 <= i < |rows| :: NewCasesOf(rows[i]) >= 0 && NewDeathsOf(rows[i]) >= 0
  }

  /** With non-negative daily counts, cumulative cases and deaths never decrease along a
      country's series. */
  lemma {:induction false} TotalsMonotone(rows: seq<Record>, i: nat, j: nat)
    requires AllImportant(rows) && NonNegativeCounts(rows)
    requires i <= j < |rows|
    ensures IsComplete(Accumulated(rows)[i]) && IsComplete(Accumulated(rows)[j])
    ensures TotalCasesOf(Accumulated(rows)[i]) <= TotalCasesOf(Accumulated(rows)[j])
    ensures TotalDeathsOf(Accumulated(rows)[i]) <= TotalDeathsOf(Accumulated(rows)[j])
    decreases j - i
  {
    TotalsRecurrence(rows, j);
    AccumulatedRow(rows, i);
    if i < j {
      TotalsMonotone(rows, i, j - 1);
    }
  }

  /** A row whose population is 0 has infection rate and both per-million figures 0, whatever
      its counts. */
  lemma ZeroPopulation(rows: seq<Record>, i: nat)
    requires AllImportant(rows) && i < |rows| && PopulationOf(rows[i]) == 0
    ensures Accumulated(rows)[i][Columns.InfectionRate] == Ratio(0.0)
    ensures Accumulated(rows)[i][Columns.CasesPerMillion] == Ratio(0.0)
    ensures Accumulated(rows)[i][Columns.DeathsPerMillion] == Ratio(0.0)
  {
    AccumulatedRow(rows, i);
    MetricsMeaning(0, TotalCasesOf(Accumulated(rows)[i]), TotalDeathsOf(Accumulated(rows)[i]));
    var row := Accumulated(rows)[i];
    assert row[Columns.InfectionRate] == row[6..][3];
    assert row[Columns.CasesPerMillion] == row[6..][4];
    assert row[Columns.DeathsPerMillion] == row[6..][5];
  }

  /** Aggregating a country's rows yields a series, whose extracted part is those rows. */
  lemma AccumulatedIsSeries(rows: seq<Record>)
    requires AllImportant(rows) && |rows| > 0
    ensures IsSeries(Accumulated(rows))
    ensures Base(Accumulated(rows)) == rows
  {
    var acc := Accumulated(rows);
    forall i | 0 <= i < |acc|
      ensures IsComplete(acc[i]) && acc[i][..6] == rows[i]
    {
      AccumulatedRow(rows, i);
    }
    assert Base(acc) == rows;
  }

  /** The scan as the source runs it: the first row's totals are its own counts, then two
      accumulators carry the totals forward, and each row gets its six new fields appended. */
  method Accumulate(rows: seq<Record>) returns (series: seq<Record>)
    requires AllImportant(rows) && |rows| > 0
    ensures series == Accumulated(rows)
  {
    series := rows;
    var totalCases := NewCasesOf(series[0]);
    var totalDeaths := NewDeathsOf(series[0]);
    var population := PopulationOf(series[0]);
    series := series[0 := series[0] + [Whole(totalCases), Whole(totalDeaths)]];
    series := series[0 := series[0] + [
      Ratio(DivideSafe(totalDeaths as real, totalCases as real) * 100.0),
      Ratio(DivideSafe(totalCases as real, population as real) * 100.0),
      Ratio(DivideSafe(totalCases as real, population as real / Million)),
      Ratio(DivideSafe(totalDeaths as real, population as real / Million))]];
    SumsStep(rows, 0);
    assert rows[..0] == [];
    for i := 1 to |rows|
      invariant |series| == |rows|
      invariant totalCases == CasesSum(rows[..i]) && totalDeaths == DeathsSum(rows[..i])
      invariant forall j | 0 <= j < i :: series[j] == Accumulated(rows)[j]
      invariant forall j | i <= j < |rows| :: series[j] == rows[j]
    {
      var newCases := NewCasesOf(series[i]);
      var newDeaths := NewDeathsOf(series[i]);
      population := PopulationOf(series[i]);
      series := series[i := series[i] + [Whole(totalCases + newCases), Whole(totalDeaths + newDeaths)]];
      totalCases := totalCases + newCases;
      totalDeaths := totalDeaths + newDeaths;
      series := series[i := series[i] + [
        Ratio(DivideSafe(totalDeaths as real, totalCases as real) * 100.0),
        Ratio(DivideSafe(totalCases as real, population as real) * 100.0),
        Ratio(DivideSafe(totalCases as real, population as real / Million)),
        Ratio(DivideSafe(totalDeaths as real, population as real / Million))]];
      SumsStep(rows, i);
    }
  }
}
