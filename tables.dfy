/**
 * The dataset join of `loadData` (js/index.js): five tables of per-country
 * rows are merged into one record per row of the population table.
 */
module Tables {
  import opened Wrappers

  /** The five metrics, keyed in the source by 'population', 'gdp', 'child-mortality', ... */
  datatype Metric = Population | Gdp | ChildMortality | LifeExpectancy | FertilityRate

  /**
   * One parsed CSV row: the identifying columns and the year columns. A year
   * whose value is missing or not a number is absent from `cells`.
   */
  datatype Row = Row(country: string, geo: string, region: string, cells: map<string, real>)

  /** The five loaded tables. */
  datatype Tables = Tables(
    population: seq<Row>,
    gdp: seq<Row>,
    childMortality: seq<Row>,
    lifeExpectancy: seq<Row>,
    fertilityRate: seq<Row>)

  /** One joined record; a sub-record read past the end of its table (or at -1) is `None` (undefined). */
  datatype CountryRecord = CountryRecord(
    country: string,
    geo: string,
    region: string,
    population: Row,
    gdp: Option<Row>,
    childMortality: Option<Row>,
    lifeExpectancy: Option<Row>,
    fertilityRate: Option<Row>)

  /** `data[metric]`: the loaded table of a metric. */
  function MetricTable(t: Tables, m: Metric): seq<Row>
  {
    match m
    case Population => t.population
    case Gdp => t.gdp
    case ChildMortality => t.childMortality
    case LifeExpectancy => t.lifeExpectancy
    case FertilityRate => t.fertilityRate
  }

  /** `d[metric]`: the sub-record of a record; `population` is the row itself. */
  function SubRecord(d: CountryRecord, m: Metric): (r: Option<Row>)
    ensures m == Population ==> r == Some(d.population)
    ensures m == Gdp ==> r == d.gdp
    ensures m == ChildMortality ==> r == d.childMortality
    ensures m == LifeExpectancy ==> r == d.lifeExpectancy
    ensures m == FertilityRate ==> r == d.fertilityRate
  {
    match m
    case Population => Some(d.population)
    case Gdp => d.gdp
    case ChildMortality => d.childMortality
    case LifeExpectancy => d.lifeExpectancy
    case FertilityRate => d.fertilityRate
  }

  /** `row[year]`, already coerced to a number; `None` when missing. */
  function Cell(row: Row, year: string): (r: Option<real>)
    ensures r.Some? <==> year in row.cells
    ensures r.Some? ==> r.value == row.cells[year]
  {
    if year in row.cells then Some(row.cells[year]) else None
  }

  /** `t.findIndex(item => item.geo == geo)`: the first matching position, or -1. */
  function FindIndex(t: seq<Row>, geo: string): (k: int)
    ensures -1 <= k < |t|
    ensures k == -1 <==> forall j :: 0 <= j < |t| ==> t[j].geo != geo
    ensures k >= 0 ==> t[k].geo == geo && forall j :: 0 <= j < k ==> t[j].geo != geo
  {
    if t == [] then -1
    else if t[0].geo == geo then 0
    else
      var k := FindIndex(t[1..], geo);
      assert forall j :: 1 <= j < |t| ==> t[j] == t[1..][j - 1];
      if k == -1 then -1 else k + 1
  }

  /** `t[k]`: JavaScript array indexing, undefined outside `0 <= k < |t|`. */
  function At(t: seq<Row>, k: int): (r: Option<Row>)
    ensures k < 0 || k >= |t| ==> r.None?
    ensures 0 <= k < |t| ==> r == Some(t[k])
  {
    if 0 <= k < |t| then Some(t[k]) else None
  }

  /** The record built for one population row: the gdp match index is reused for the other three tables. */
  function JoinRow(t: Tables, d: Row): (r: CountryRecord)
    ensures r.population == d && r.country == d.country && r.geo == d.geo && r.region == d.region
    ensures r.gdp.None? <==> forall j :: 0 <= j < |t.gdp| ==> t.gdp[j].geo != d.geo
    ensures r.gdp.Some? ==> r.gdp.value.geo == d.geo
    ensures r.gdp.None? ==> r.childMortality.None? && r.lifeExpectancy.None? && r.fertilityRate.None?
  {
    var index := FindIndex(t.gdp, d.geo);
    CountryRecord(d.country, d.geo, d.region, d,
      At(t.gdp, index), At(t.childMortality, index), At(t.lifeExpectancy, index), At(t.fertilityRate, index))
  }

  /** `data.population.map(...)`: one record per population row, in population-table order. */
  function Join(t: Tables): (r: seq<CountryRecord>)
    ensures |r| == |t.population|
    ensures forall i :: 0 <= i < |r| ==>
      && r[i].population == t.population[i]
      && r[i].country == t.population[i].country
      && r[i].geo == t.population[i].geo
      && r[i].region == t.population[i].region
  {
    seq(|t.population|, i requires 0 <= i < |t.population| => JoinRow(t, t.population[i]))
  }

  /**
   * The gdp sub-record is the first gdp row with the record's geo, and is
   * undefined exactly when no gdp row has that geo.
   */
  lemma JoinGdpIsFirstMatch(t: Tables, i: nat)
    requires i < |t.population|
    ensures var d := Join(t)[i];
      && (d.gdp.Some? <==> exists j :: 0 <= j < |t.gdp| && t.gdp[j].geo == d.geo)
      && (d.gdp.Some? ==>
            exists j :: (0 <= j < |t.gdp| && d.gdp.value == t.gdp[j]
              && t.gdp[j].geo == d.geo && forall l :: 0 <= l < j ==> t.gdp[l].geo != d.geo))
  {
    var k := FindIndex(t.gdp, t.population[i].geo);
    if k >= 0 {
      assert Join(t)[i].gdp.value == t.gdp[k];
    }
  }

  /**
   * All four looked-up sub-records come from one shared position of their
   * tables, the gdp match; with no gdp match every one of them is undefined.
   */
  lemma JoinSharesGdpIndex(t: Tables, i: nat)
    requires i < |t.population|
    ensures var d := Join(t)[i]; var k := FindIndex(t.gdp, d.geo);
      && d.gdp == At(t.gdp, k)
      && d.childMortality == At(t.childMortality, k)
      && d.lifeExpectancy == At(t.lifeExpectancy, k)
      && d.fertilityRate == At(t.fertilityRate, k)
  {
    assert Join(t)[i] == JoinRow(t, t.population[i]);
  }

  /**
   * `d[metric]` of a joined record: the population row itself, or the row of
   * the metric's table at the gdp match position, undefined when there is none.
   */
  lemma JoinSubRecord(t: Tables, i: nat, m: Metric)
    requires i < |t.population|
    ensures var d := Join(t)[i];
      SubRecord(d, m) == if m == Population then Some(t.population[i])
        else At(MetricTable(t, m), FindIndex(t.gdp, d.geo))
  {
    assert Join(t)[i] == JoinRow(t, t.population[i]);
  }

  /**
   * A joined record holds another country's row for a metric exactly when the
   * metric's table has a row of a different geo at the gdp match position.
   */
  lemma JoinReadsOtherCountry(t: Tables, i: nat, m: Metric)
    requires i < |t.population|
    ensures var d := Join(t)[i]; var k := FindIndex(t.gdp, d.geo); var table := MetricTable(t, m);
      (SubRecord(d, m).Some? && SubRecord(d, m).value.geo != d.geo)
        <==> (m != Population && 0 <= k < |table| && table[k].geo != d.geo)
  {
    JoinSubRecord(t, i, m);
  }

  /**
   * A table with no row at the gdp match position gives an undefined
   * sub-record, whatever rows it holds for the record's geo elsewhere.
   */
  lemma JoinShortTableUndefined(t: Tables, i: nat)
    requires i < |t.population|
    ensures var d := Join(t)[i]; var k := FindIndex(t.gdp, d.geo);
      && (k >= |t.childMortality| ==> d.childMortality.None?)
      && (k >= |t.lifeExpectancy| ==> d.lifeExpectancy.None?)
      && (k >= |t.fertilityRate| ==> d.fertilityRate.None?)
  {
    assert Join(t)[i] == JoinRow(t, t.population[i]);
  }

  /** The first row of `t` whose geo is `geo`, undefined when there is none. */
  function FirstByGeo(t: seq<Row>, geo: string): (r: Option<Row>)
    ensures r.Some? ==> r.value in t && r.value.geo == geo
    ensures r.None? ==> forall j :: 0 <= j < |t| ==> t[j].geo != geo
  {
    if t == [] then None
    else if t[0].geo == geo then Some(t[0])
    else FirstByGeo(t[1..], geo)
  }

  /** The join that searches every table by geo: every sub-record it finds is a row of the record's country. */
  function JoinByGeo(t: Tables): (r: seq<CountryRecord>)
    ensures |r| == |t.population|
    ensures forall i :: 0 <= i < |r| ==> r[i].population == t.population[i] && r[i].geo == t.population[i].geo
    ensures forall i, m :: 0 <= i < |r| && SubRecord(r[i], m).Some? ==> SubRecord(r[i], m).value.geo == r[i].geo
  {
    seq(|t.population|, i requires 0 <= i < |t.population| =>
      var d := t.population[i];
      CountryRecord(d.country, d.geo, d.region, d,
        FirstByGeo(t.gdp, d.geo), FirstByGeo(t.childMortality, d.geo),
        FirstByGeo(t.lifeExpectancy, d.geo), FirstByGeo(t.fertilityRate, d.geo)))
  }

  /** `u` lists the same geos as `t`, position by position. */
  predicate SameGeos(t: seq<Row>, u: seq<Row>)
  {
    |t| == |u| && forall j :: 0 <= j < |t| ==> t[j].geo == u[j].geo
  }

  /** The three tables read at the gdp index are positionally aligned with the gdp table. */
  predicate Aligned(t: Tables)
  {
    SameGeos(t.gdp, t.childMortality) && SameGeos(t.gdp, t.lifeExpectancy) && SameGeos(t.gdp, t.fertilityRate)
  }

  /** Reading a table at the gdp match index finds that table's first geo match when the two are aligned. */
  lemma {:induction false} AlignedLookup(g: seq<Row>, u: seq<Row>, geo: string)
    requires SameGeos(g, u)
    ensures At(u, FindIndex(g, geo)) == FirstByGeo(u, geo)
  {
    if g != [] && g[0].geo != geo {
      assert SameGeos(g[1..], u[1..]);
      AlignedLookup(g[1..], u[1..], geo);
      assert forall j :: 1 <= j < |u| ==> u[j] == u[1..][j - 1];
    }
  }

  /** Reusing the gdp index gives the search by geo when the tables are positionally aligned. */
  lemma JoinAlignedIsByGeo(t: Tables)
    requires Aligned(t)
    ensures Join(t) == JoinByGeo(t)
  {
    var r, s := Join(t), JoinByGeo(t);
    forall i | 0 <= i < |t.population| ensures r[i] == s[i] {
      var geo := t.population[i].geo;
      AlignedLookup(t.gdp, t.gdp, geo);
      AlignedLookup(t.gdp, t.childMortality, geo);
      AlignedLookup(t.gdp, t.lifeExpectancy, geo);
      AlignedLookup(t.gdp, t.fertilityRate, geo);
    }
  }

  /**
   * Without alignment the reused index reads another country's row: here the
   * child-mortality table lists "can" before "usa", and the "usa" record gets
   * the "can" row.
   */
  lemma JoinMisalignedReadsOtherCountry()
    ensures var usa := Row("United States", "usa", "americas", map[]);
      var can := Row("Canada", "can", "americas", map[]);
      var t := Tables([usa], [usa], [can, usa], [usa], [usa]);
      && Join(t)[0].childMortality == Some(can)
      && JoinByGeo(t)[0].childMortality == Some(usa)
  {
    var usa := Row("United States", "usa", "americas", map[]);
    var can := Row("Canada", "can", "americas", map[]);
    assert usa.geo != can.geo by { assert usa.geo[0] != can.geo[0]; }
    var t := Tables([usa], [usa], [can, usa], [usa], [usa]);
    assert FindIndex(t.gdp, "usa") == 0;
    assert [can, usa][1..] == [usa];
  }

  /**
   * A population row whose gdp row sits at the same position: the record's
   * gdp year value is that row's value.
   */
  lemma JoinReadsGdpYear()
    ensures var pop := Row("United States", "usa", "americas", map["2000" := 282.2]);
      var gdp := Row("United States", "usa", "americas", map["2000" := 500.0]);
      var d := Join(Tables([pop], [gdp], [], [], []))[0];
      d.gdp.Some? && Cell(d.gdp.value, "2000") == Some(500.0) && d.childMortality.None?
  {
    var pop := Row("United States", "usa", "americas", map["2000" := 282.2]);
    var gdp := Row("United States", "usa", "americas", map["2000" := 500.0]);
    assert FindIndex([gdp], "usa") == 0;
  }
}
