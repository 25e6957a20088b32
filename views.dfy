/**
 * The data logic of the two redraws: the per-record value extraction and
 * [min, max] domains of `updateScattePlot`, and the grouping by region,
 * per-region means and [0, max] domain of `updateBar` (js/index.js).
 */
module Views {
  import opened Wrappers
  import opened Tables
  import Stats

  /** Reading a year of an undefined sub-record throws a TypeError. */
  datatype Error = MissingSubRecord(geo: string, metric: Metric)

  /** A scale domain `[lo, hi]`; an end is undefined when d3.min or d3.max found no value. */
  datatype Extent = Extent(lo: Option<real>, hi: Option<real>)

  /** `{region, mean}`: one entry of `regions_key_means`, one bar. */
  datatype RegionMean = RegionMean(region: string, mean: Option<real>)

  /** Every record has a sub-record for metric `m`, so `d[m][year]` does not throw. */
  predicate Covers(data: seq<CountryRecord>, m: Metric)
  {
    forall d :: d in data ==> SubRecord(d, m).Some?
  }

  /** `data.map(d => +d[m][year])`: fails on the first record without a sub-record for `m`. */
  function Extract(data: seq<CountryRecord>, m: Metric, year: string): (r: Result<seq<Option<real>>, Error>)
    ensures r.Success? <==> Covers(data, m)
    ensures r.Success? ==> |r.value| == |data|
    ensures r.Success? ==> forall i {:trigger r.value[i]} :: 0 <= i < |data| ==>
      SubRecord(data[i], m).Some? && r.value[i] == Cell(SubRecord(data[i], m).value, year)
    ensures r.Failure? ==>
      exists i :: 0 <= i < |data| && SubRecord(data[i], m).None? && r.error == MissingSubRecord(data[i].geo, m)
  {
    if data == [] then Success([])
    else
      assert forall d :: d in data <==> d == data[0] || d in data[1..];
      match SubRecord(data[0], m)
      case None => Failure(MissingSubRecord(data[0].geo, m))
      case Some(row) =>
        match Extract(data[1..], m, year)
        case Failure(e) => Failure(e)
        case Success(vs) =>
          assert forall i :: 1 <= i < |data| ==> data[i] == data[1..][i - 1];
          Success([Cell(row, year)] + vs)
  }

  /** The scale domain `[d3.min(vals), d3.max(vals)]`. */
  function ValueExtent(vals: seq<Option<real>>): (e: Extent)
    ensures e.lo.None? <==> forall i :: 0 <= i < |vals| ==> vals[i].None?
    ensures e.hi.None? <==> e.lo.None?
    ensures e.lo.Some? ==> Some(e.lo.value) in vals && Some(e.hi.value) in vals
    ensures forall i :: 0 <= i < |vals| && vals[i].Some? ==> InExtent(vals[i].value, e)
  {
    Extent(Stats.Min(vals), Stats.Max(vals))
  }

  /** `v` lies in the domain `e`. */
  predicate InExtent(v: real, e: Extent)
  {
    e.lo.Some? && e.hi.Some? && e.lo.value <= v <= e.hi.value
  }

  /** Every value a scatter redraw extracts lies in the domain it computes, and both ends are values. */
  lemma ExtractedValuesInExtent(data: seq<CountryRecord>, m: Metric, year: string)
    requires Covers(data, m)
    ensures var vals := Extract(data, m, year).value; var e := ValueExtent(vals);
      && (forall i :: 0 <= i < |data| && vals[i].Some? ==> InExtent(vals[i].value, e))
      && (e.lo.Some? ==> Some(e.lo.value) in vals)
      && (e.hi.Some? ==> Some(e.hi.value) in vals)
      && (e.lo.None? <==> forall i :: 0 <= i < |data| ==> vals[i].None?)
  {
  }

  /** `data.filter(d => d.region == region)`. */
  function InRegion(data: seq<CountryRecord>, region: string): (g: seq<CountryRecord>)
    ensures forall d :: d in g <==> d in data && d.region == region
    ensures forall d :: multiset(g)[d] == if d.region == region then multiset(data)[d] else 0
    ensures |g| <= |data|
  {
    if data == [] then []
    else
      var rest := InRegion(data[1..], region);
      assert data == [data[0]] + data[1..];
      assert forall d :: d in data <==> d == data[0] || d in data[1..];
      if data[0].region == region then [data[0]] + rest else rest
  }

  /** `data.map(d => d.region)`. */
  function RegionColumn(data: seq<CountryRecord>): (rs: seq<string>)
    ensures |rs| == |data|
    ensures forall i {:trigger rs[i]} :: 0 <= i < |data| ==> rs[i] == data[i].region
  {
    if data == [] then [] else [data[0].region] + RegionColumn(data[1..])
  }

  /** `d3.set(data.map(d => d.region)).values()`: the distinct regions in first-seen order. */
  function Regions(data: seq<CountryRecord>): (rs: seq<string>)
    ensures forall i :: 0 <= i < |data| ==> data[i].region in rs
    ensures forall r :: r in rs ==> exists i :: 0 <= i < |data| && data[i].region == r
    ensures Stats.NoDuplicates(rs)
  {
    var column := RegionColumn(data);
    assert forall i :: 0 <= i < |data| ==> data[i].region == column[i];
    Stats.Distinct(column)
  }

  /** `d3.mean(group, d => d[m][year])`: throws when a record of the group lacks the sub-record. */
  function GroupMean(group: seq<CountryRecord>, m: Metric, year: string): (r: Result<Option<real>, Error>)
    ensures r.Success? <==> Covers(group, m)
  {
    var vals := Extract(group, m, year);
    if vals.Failure? then Failure(vals.error) else Success(Stats.Mean(vals.value))
  }

  /** A region's mean lies within the range of its records' values. */
  lemma GroupMeanWithinValues(data: seq<CountryRecord>, region: string, m: Metric, year: string)
    requires Covers(data, m)
    ensures var g := InRegion(data, region); var r := GroupMean(g, m, year);
      r.Success? && (r.value.Some? ==> InExtent(r.value.value, ValueExtent(Extract(g, m, year).value)))
  {
  }

  /** A group that is not covered has a record of the dataset without the sub-record. */
  lemma UncoveredGroup(data: seq<CountryRecord>, region: string, m: Metric)
    requires !Covers(InRegion(data, region), m)
    ensures !Covers(data, m)
  {
    var d :| d in InRegion(data, region) && SubRecord(d, m).None?;
  }

  /** If every region's group is covered, so is the whole dataset: every record is in its region's group. */
  lemma CoveredByRegions(data: seq<CountryRecord>, m: Metric)
    requires forall k :: 0 <= k < |Regions(data)| ==> Covers(InRegion(data, Regions(data)[k]), m)
    ensures Covers(data, m)
  {
    var rs := Regions(data);
    forall d | d in data ensures SubRecord(d, m).Some? {
      var i :| 0 <= i < |data| && data[i] == d;
      assert d.region in rs;
      var k :| 0 <= k < |rs| && rs[k] == d.region;
      assert d in InRegion(data, rs[k]);
    }
  }

  /**
   * The first loop of `updateBar`: for each region in turn, push the mean of
   * `d[m][year]` over the records of that region. Throws (as `Failure`) at the
   * first region with a record that lacks the sub-record.
   */
  method GroupMeans(data: seq<CountryRecord>, regions: seq<string>, m: Metric, year: string)
    returns (r: Result<seq<Option<real>>, Error>)
    ensures r.Failure? ==> !Covers(data, m)
    ensures r.Success? ==> |r.value| == |regions|
    ensures r.Success? ==> forall k :: 0 <= k < |regions| ==>
      GroupMean(InRegion(data, regions[k]), m, year) == Success(r.value[k])
  {
    var means: seq<Option<real>> := [];
    var i := 0;
    while i < |regions|
      invariant 0 <= i <= |regions|
      invariant |means| == i
      invariant forall k :: 0 <= k < i ==> GroupMean(InRegion(data, regions[k]), m, year) == Success(means[k])
    {
      var group := InRegion(data, regions[i]);
      var g := GroupMean(group, m, year);
      if g.Failure? {
        UncoveredGroup(data, regions[i], m);
        return Failure(g.error);
      }
      MeansStep(data, regions, m, year, means, g.value);
      means := means + [g.value];
      i := i + 1;
    }
    r := Success(means);
  }

  /** Appending the next region's mean keeps the means aligned with the regions. */
  lemma MeansStep(data: seq<CountryRecord>, regions: seq<string>, m: Metric, year: string,
                  means: seq<Option<real>>, x: Option<real>)
    requires |means| < |regions|
    requires forall k :: 0 <= k < |means| ==> GroupMean(InRegion(data, regions[k]), m, year) == Success(means[k])
    requires GroupMean(InRegion(data, regions[|means|]), m, year) == Success(x)
    ensures forall k :: 0 <= k <= |means| ==> GroupMean(InRegion(data, regions[k]), m, year) == Success((means + [x])[k])
  {
  }

  /** Entry i of `pairs` is the i-th distinct region with the mean of that region's own records. */
  ghost predicate MeansPerRegion(data: seq<CountryRecord>, m: Metric, year: string, pairs: seq<RegionMean>)
  {
    && |pairs| == |Regions(data)|
    && forall i :: 0 <= i < |pairs| ==>
      && pairs[i].region == Regions(data)[i]
      && GroupMean(InRegion(data, pairs[i].region), m, year) == Success(pairs[i].mean)
  }

  /**
   * The aggregation of `updateBar`: one mean per distinct region, in
   * first-seen order, then each region key paired with the mean at its
   * position. Throws (as `Failure`) when some record lacks the sub-record.
   */
  method RegionMeans(data: seq<CountryRecord>, m: Metric, year: string) returns (r: Result<seq<RegionMean>, Error>)
    ensures r.Success? <==> Covers(data, m)
    ensures r.Success? ==> MeansPerRegion(data, m, year, r.value)
  {
    var keys := Regions(data);
    var values := Regions(data);
    var means := GroupMeans(data, values, m, year);
    if means.Failure? {
      return Failure(means.error);
    }
    CoveredByRegions(data, m);
    var keyMeans := PairKeys(keys, means.value);
    r := Success(keyMeans);
  }

  /** The second loop of `updateBar`: pair the i-th region key with the i-th mean. */
  method PairKeys(keys: seq<string>, means: seq<Option<real>>) returns (pairs: seq<RegionMean>)
    requires |keys| == |means|
    ensures |pairs| == |keys|
    ensures forall i :: 0 <= i < |keys| ==> pairs[i].region == keys[i] && pairs[i].mean == means[i]
  {
    pairs := [];
    var j := 0;
    while j < |keys|
      invariant 0 <= j <= |keys|
      invariant |pairs| == j
      invariant forall k :: 0 <= k < j ==> pairs[k] == RegionMean(keys[k], means[k])
    {
      pairs := pairs + [RegionMean(keys[j], means[j])];
      j := j + 1;
    }
  }

  /** The bar scale domain `[0, d3.max(regions_means)]`. */
  function BarExtent(bars: seq<RegionMean>): (e: Extent)
    ensures e.lo == Some(0.0)
    ensures e.hi.None? <==> forall i :: 0 <= i < |bars| ==> bars[i].mean.None?
    ensures e.hi.Some? ==> exists i :: 0 <= i < |bars| && bars[i].mean == e.hi
    ensures e.hi.Some? ==> forall i :: 0 <= i < |bars| && bars[i].mean.Some? ==> bars[i].mean.value <= e.hi.value
  {
    var means := seq(|bars|, i requires 0 <= i < |bars| => bars[i].mean);
    assert forall i :: 0 <= i < |bars| ==> means[i] == bars[i].mean;
    Extent(Some(0.0), Stats.Max(means))
  }
}
