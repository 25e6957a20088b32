/**
 * The dashboard's view state (js/index.js): the module-level parameters set
 * by the input handlers, the scale domains the two redraws recompute, the
 * rendered marks and their opacities, and the bar-click selection toggle.
 *
 * Each bar redraw removes the bars and appends new SVG elements. A bar
 * element is identified by the render that appended it and its position in
 * that render, so an element removed by a redraw is never equal to one
 * appended later.
 */
module Dashboard {
  import opened Wrappers
  import opened Tables
  import opened Views

  /** `selected`: '' or the bar element last clicked, as (render, position). */
  datatype Selection = NoSelection | Selected(render: nat, index: nat)

  const BAR_SHOWN: real := 1.0
  const BAR_DIMMED: real := 0.4
  const CIRCLE_SHOWN: real := 0.8
  const CIRCLE_HIDDEN: real := 0.0

  /** d3's default domain of a linear or square-root scale. */
  const DEFAULT_EXTENT := Extent(Some(0.0), Some(1.0))

  /** The opacity of bar `j`: with a focused bar, 1 for that bar and 0.4 for the others; with none, 1. */
  function BarOpacity(focus: Option<nat>, j: nat): real
  {
    if focus.None? || focus.value == j then BAR_SHOWN else BAR_DIMMED
  }

  /** The opacity of a circle of `region`: with a highlighted region, 0.8 in it and 0 outside; with none, 0.8. */
  function CircleOpacity(highlight: Option<string>, region: string): real
  {
    if highlight.None? || region == highlight.value then CIRCLE_SHOWN else CIRCLE_HIDDEN
  }

  /** `opacity` gives each of `n` bars, in bar order, its opacity for `focus`. */
  predicate BarsShow(opacity: seq<real>, n: nat, focus: Option<nat>)
  {
    |opacity| == n && forall j {:trigger opacity[j]} :: 0 <= j < n ==> opacity[j] == BarOpacity(focus, j)
  }

  /** `opacity` gives each circle, bound to its record, its opacity for `highlight`, in circle order. */
  predicate CirclesShow(opacity: seq<real>, circles: seq<CountryRecord>, highlight: Option<string>)
  {
    && |opacity| == |circles|
    && forall j {:trigger opacity[j]} :: 0 <= j < |circles| ==> opacity[j] == CircleOpacity(highlight, circles[j].region)
  }

  /** The bar opacities for `focus`, as the click handler and the redraw set them. */
  function BarOpacities(n: nat, focus: Option<nat>): (o: seq<real>)
    ensures BarsShow(o, n, focus)
  {
    seq(n, j requires 0 <= j < n => BarOpacity(focus, j))
  }

  /** The circle opacities for `highlight`, as the click handler and the redraw set them. */
  function CircleOpacities(circles: seq<CountryRecord>, highlight: Option<string>): (o: seq<real>)
    ensures CirclesShow(o, circles, highlight)
  {
    seq(|circles|, j requires 0 <= j < |circles| => CircleOpacity(highlight, circles[j].region))
  }

  /** With bar `k` focused, exactly that bar is at full opacity and all others are dimmed. */
  lemma FocusedBarAlone(opacity: seq<real>, n: nat, k: nat)
    requires BarsShow(opacity, n, Some(k)) && k < n
    ensures forall j :: 0 <= j < n ==> (opacity[j] == BAR_SHOWN <==> j == k)
    ensures forall j :: 0 <= j < n && j != k ==> opacity[j] == BAR_DIMMED
  {
  }

  /** With a region highlighted, a circle is shown exactly when it belongs to that region, else hidden. */
  lemma HighlightedRegionAlone(opacity: seq<real>, circles: seq<CountryRecord>, region: string)
    requires CirclesShow(opacity, circles, Some(region))
    ensures forall j :: 0 <= j < |circles| ==> (opacity[j] == CIRCLE_SHOWN <==> circles[j].region == region)
    ensures forall j :: 0 <= j < |circles| && circles[j].region != region ==> opacity[j] == CIRCLE_HIDDEN
  {
  }

  /** With nothing focused or highlighted, every bar is at 1 and every circle at 0.8. */
  lemma NothingFocusedShowsAll(bars: seq<real>, n: nat, circles: seq<real>, records: seq<CountryRecord>)
    requires BarsShow(bars, n, None) && CirclesShow(circles, records, None)
    ensures forall j :: 0 <= j < n ==> bars[j] == BAR_SHOWN
    ensures forall j :: 0 <= j < |records| ==> circles[j] == CIRCLE_SHOWN
  {
  }

  class Dashboard {
    /** The joined records, built once by `loadData`. */
    const data: seq<CountryRecord>

    var xParam: Metric
    var yParam: Metric
    var rParam: Metric
    var year: string
    var param: Metric
    var selected: Selection

    /** Domains of the x, y and radius scales of the scatter plot. */
    var xDomain: Extent
    var yDomain: Extent
    var rDomain: Extent
    /** Domains of the band (region) and linear (mean) scales of the bar chart. */
    var barRegions: seq<string>
    var barDomain: Extent

    /** The rendered bars: the render that appended them, their bound `{region, mean}` data and opacities. */
    var barRender: nat
    var barData: seq<RegionMean>
    var barOpacity: seq<real>
    /** The rendered circles: their bound records and opacities. */
    var circleData: seq<CountryRecord>
    var circleOpacity: seq<real>

    /** The region whose circles alone are shown, if any. */
    ghost var highlight: Option<string>

    /** The position of the selected bar, when it is still rendered. */
    ghost function Focus(): Option<nat>
      reads this`selected, this`barRender, this`barData
    {
      if selected.Selected? && selected.render == barRender && selected.index < |barData|
      then Some(selected.index)
      else None
    }

    /**
     * The selection never names a future render, and the opacities of the
     * marks always follow the selection: the bars from the focused bar, the
     * circles from the highlighted region.
     */
    ghost predicate Valid()
      reads this`selected, this`barRender, this`barData, this`barOpacity, this`circleData,
        this`circleOpacity, this`highlight
    {
      && (selected.Selected? ==> selected.render <= barRender)
      && BarsShow(barOpacity, |barData|, Focus())
      && CirclesShow(circleOpacity, circleData, highlight)
    }

    /** Every record has the sub-records the scatter plot reads. */
    ghost predicate ScatterCovered()
      reads this`xParam, this`yParam, this`rParam
    {
      Covers(data, xParam) && Covers(data, yParam) && Covers(data, rParam)
    }

    /** The scatter plot shows the current parameters: one circle per record, domains `[min, max]`. */
    ghost predicate ScatterDrawn()
      reads this`xParam, this`yParam, this`rParam, this`year, this`circleData, this`xDomain, this`yDomain,
        this`rDomain
    {
      && ScatterCovered()
      && circleData == data
      && xDomain == ValueExtent(Extract(data, xParam, year).value)
      && yDomain == ValueExtent(Extract(data, yParam, year).value)
      && rDomain == ValueExtent(Extract(data, rParam, year).value)
    }

    /** The bar chart shows the current parameters: one bar per region with its mean, domain `[0, max]`. */
    ghost predicate BarsDrawn()
      reads this`param, this`year, this`barRegions, this`barData, this`barDomain
    {
      && Covers(data, param)
      && barRegions == Regions(data)
      && MeansPerRegion(data, param, year, barData)
      && barDomain == BarExtent(barData)
    }

    /** Changing no field the scatter plot reads leaves it as drawn. */
    twostate lemma ScatterKept()
      requires unchanged(this`xParam, this`yParam, this`rParam, this`year, this`circleData)
      requires unchanged(this`xDomain, this`yDomain, this`rDomain)
      ensures old(ScatterDrawn()) ==> ScatterDrawn()
    {
    }

    /** Changing no field the bar chart reads leaves it as drawn. */
    twostate lemma BarsKept()
      requires unchanged(this`param, this`year, this`barRegions, this`barData, this`barDomain)
      ensures old(BarsDrawn()) ==> BarsDrawn()
    {
    }

    /** The state after the module is loaded, before the first redraw. */
    constructor (data: seq<CountryRecord>)
      ensures Valid() && this.data == data
      ensures xParam == FertilityRate && yParam == ChildMortality && rParam == Gdp
      ensures year == "2000" && param == ChildMortality && selected == NoSelection
      ensures xDomain == DEFAULT_EXTENT && yDomain == DEFAULT_EXTENT && rDomain == DEFAULT_EXTENT
      ensures barRegions == [] && barDomain == DEFAULT_EXTENT
      ensures barData == [] && circleData == []
    {
      this.data := data;
      xParam, yParam, rParam := FertilityRate, ChildMortality, Gdp;
      year, param, selected := "2000", ChildMortality, NoSelection;
      xDomain, yDomain, rDomain := DEFAULT_EXTENT, DEFAULT_EXTENT, DEFAULT_EXTENT;
      barRegions, barDomain := [], DEFAULT_EXTENT;
      barRender, barData, barOpacity := 0, [], [];
      circleData, circleOpacity := [], [];
      highlight := None;
    }

    /**
     * `updateScattePlot`: extract the three value lists, set each domain to
     * `[min, max]`, and replace the circles by one new circle per record at
     * 0.8. Throws, changing nothing, when a record lacks a sub-record.
     */
    method UpdateScatter() returns (o: Outcome<Error>)
      requires Valid()
      modifies this`xDomain, this`yDomain, this`rDomain, this`circleData, this`circleOpacity, this`highlight
      ensures Valid()
      ensures o.Pass? <==> ScatterCovered()
      ensures o.Pass? ==> ScatterDrawn() && highlight.None?
      ensures o.Fail? ==> unchanged(this)
      ensures old(BarsDrawn()) ==> BarsDrawn()
    {
      var valuesX := Extract(data, xParam, year);
      if valuesX.Failure? {
        return Fail(valuesX.error);
      }
      var valuesY := Extract(data, yParam, year);
      if valuesY.Failure? {
        return Fail(valuesY.error);
      }
      var valuesR := Extract(data, rParam, year);
      if valuesR.Failure? {
        return Fail(valuesR.error);
      }
      DrawScatter(ValueExtent(valuesX.value), ValueExtent(valuesY.value), ValueExtent(valuesR.value));
      BarsKept();
      o := Pass;
    }

    /**
     * The rendering half of `updateScattePlot`: set the three domains and
     * redraw one circle per record, every circle shown.
     */
    method DrawScatter(x: Extent, y: Extent, r: Extent)
      requires Valid()
      modifies this`xDomain, this`yDomain, this`rDomain, this`circleData, this`circleOpacity, this`highlight
      ensures Valid()
      ensures xDomain == x && yDomain == y && rDomain == r
      ensures circleData == data && highlight.None?
    {
      xDomain, yDomain, rDomain := x, y, r;
      circleData := data;
      highlight := None;
      circleOpacity := CircleOpacities(circleData, None);
    }

    /**
     * `updateBar`: compute the per-region means, set the band domain to the
     * regions and the linear domain to `[0, max]`, and replace the bars by one
     * new bar per region at full opacity. Throws, changing nothing, when a
     * record lacks the sub-record.
     */
    method UpdateBar() returns (o: Outcome<Error>)
      requires Valid()
      modifies this`barRegions, this`barDomain, this`barRender, this`barData, this`barOpacity
      ensures Valid()
      ensures o.Pass? <==> Covers(data, param)
      ensures o.Pass? ==> BarsDrawn() && Focus().None? && barRender == old(barRender) + 1
      ensures o.Fail? ==> unchanged(this)
      ensures old(ScatterDrawn()) ==> ScatterDrawn()
    {
      var means := RegionMeans(data, param, year);
      if means.Failure? {
        return Fail(means.error);
      }
      DrawBars(Regions(data), means.value);
      ScatterKept();
      o := Pass;
    }

    /**
     * The rendering half of `updateBar`: set the two bar domains and replace
     * the bars by one new bar, at full opacity, per `{region, mean}` entry.
     */
    method DrawBars(regions: seq<string>, pairs: seq<RegionMean>)
      requires Valid()
      modifies this`barRegions, this`barDomain, this`barRender, this`barData, this`barOpacity
      ensures Valid()
      ensures barRegions == regions && barDomain == BarExtent(pairs) && barData == pairs
      ensures barRender == old(barRender) + 1 && Focus().None?
    {
      barRegions := regions;
      barDomain := BarExtent(pairs);
      barData := pairs;
      barRender := barRender + 1;
      barOpacity := BarOpacities(|pairs|, None);
    }

    /**
     * The click handler of bar `k`. A bar other than the selected one becomes
     * selected: it is shown at 1 and every other bar at 0.4, and only the
     * circles of its region are shown, at 0.8. Clicking the selected bar
     * again clears the selection and shows every bar and every circle.
     */
    method ClickBar(k: nat)
      requires Valid() && k < |barData|
      modifies this`selected, this`barOpacity, this`circleOpacity, this`highlight
      ensures Valid()
      ensures old(selected) != Selected(barRender, k) ==>
        && selected == Selected(barRender, k)
        && BarsShow(barOpacity, |barData|, Some(k))
        && CirclesShow(circleOpacity, circleData, Some(barData[k].region))
      ensures old(selected) == Selected(barRender, k) ==>
        && selected == NoSelection
        && BarsShow(barOpacity, |barData|, None)
        && CirclesShow(circleOpacity, circleData, None)
    {
      var bar := Selected(barRender, k);
      if selected != bar {
        selected := bar;
        barOpacity := BarOpacities(|barData|, Some(k));
        var barRegion := barData[k].region;
        highlight := Some(barRegion);
        circleOpacity := CircleOpacities(circleData, Some(barRegion));
      } else {
        selected := NoSelection;
        highlight := None;
        circleOpacity := CircleOpacities(circleData, None);
        barOpacity := BarOpacities(|barData|, None);
      }
    }

    /** The first render once the data is loaded: the bar chart, then the scatter plot. */
    method Start() returns (o: Outcome<Error>)
      requires Valid()
      modifies this`xDomain, this`yDomain, this`rDomain, this`circleData, this`circleOpacity, this`highlight,
        this`barRegions, this`barDomain, this`barRender, this`barData, this`barOpacity
      ensures Valid()
      ensures o.Pass? <==> Covers(data, param) && ScatterCovered()
      ensures o.Pass? ==> BarsDrawn() && ScatterDrawn() && Focus().None? && highlight.None?
      ensures !Covers(data, param) ==> unchanged(this`xDomain, this`yDomain, this`rDomain, this`circleData, this`circleOpacity, this`highlight,
        this`barRegions, this`barDomain, this`barRender, this`barData, this`barOpacity)
      ensures Covers(data, param) && !ScatterCovered() ==> BarsDrawn() && unchanged(this`xDomain, this`yDomain, this`rDomain, this`circleData, this`circleOpacity, this`highlight)
    {
      o := UpdateBar();
      if o.Pass? {
        o := UpdateScatter();
      }
    }

    /** `#range` input: set the year, then redraw the scatter plot and, if that succeeds, the bar chart. */
    method OnYearInput(value: string) returns (o: Outcome<Error>)
      requires Valid()
      modifies this`year, this`xDomain, this`yDomain, this`rDomain, this`circleData, this`circleOpacity,
        this`highlight, this`barRegions, this`barDomain, this`barRender, this`barData, this`barOpacity
      ensures Valid()
      ensures year == value
      ensures o.Pass? <==> ScatterCovered() && Covers(data, param)
      ensures o.Pass? ==> ScatterDrawn() && BarsDrawn() && highlight.None? && Focus().None?
      ensures !ScatterCovered() ==> unchanged(this`xDomain, this`yDomain, this`rDomain, this`circleData, this`circleOpacity, this`highlight,
        this`barRegions, this`barDomain, this`barRender, this`barData, this`barOpacity)
      ensures ScatterCovered() && !Covers(data, param) ==> ScatterDrawn() && highlight.None? && unchanged(this`barRegions, this`barDomain, this`barRender, this`barData, this`barOpacity)
    {
      year := value;
      o := UpdateScatter();
      if o.Pass? {
        o := UpdateBar();
      }
    }

    /** `#radius` change: set the radius parameter and redraw the scatter plot only. */
    method OnRadiusChange(value: Metric) returns (o: Outcome<Error>)
      requires Valid()
      modifies this`rParam, this`xDomain, this`yDomain, this`rDomain, this`circleData, this`circleOpacity,
        this`highlight
      ensures Valid()
      ensures rParam == value
      ensures o.Pass? <==> ScatterCovered()
      ensures o.Pass? ==> ScatterDrawn() && highlight.None?
      ensures o.Fail? ==> unchanged(this`xDomain, this`yDomain, this`rDomain, this`circleData, this`circleOpacity, this`highlight)
      ensures old(BarsDrawn()) ==> BarsDrawn()
    {
      rParam := value;
      o := UpdateScatter();
    }

    /** `#x` change: set the x parameter and redraw the scatter plot only. */
    method OnXChange(value: Metric) returns (o: Outcome<Error>)
      requires Valid()
      modifies this`xParam, this`xDomain, this`yDomain, this`rDomain, this`circleData, this`circleOpacity,
        this`highlight
      ensures Valid()
      ensures xParam == value
      ensures o.Pass? <==> ScatterCovered()
      ensures o.Pass? ==> ScatterDrawn() && highlight.None?
      ensures o.Fail? ==> unchanged(this`xDomain, this`yDomain, this`rDomain, this`circleData, this`circleOpacity, this`highlight)
      ensures old(BarsDrawn()) ==> BarsDrawn()
    {
      xParam := value;
      o := UpdateScatter();
    }

    /** `#y` change: set the y parameter and redraw the scatter plot only. */
    method OnYChange(value: Metric) returns (o: Outcome<Error>)
      requires Valid()
      modifies this`yParam, this`xDomain, this`yDomain, this`rDomain, this`circleData, this`circleOpacity,
        this`highlight
      ensures Valid()
      ensures yParam == value
      ensures o.Pass? <==> ScatterCovered()
      ensures o.Pass? ==> ScatterDrawn() && highlight.None?
      ensures o.Fail? ==> unchanged(this`xDomain, this`yDomain, this`rDomain, this`circleData, this`circleOpacity, this`highlight)
      ensures old(BarsDrawn()) ==> BarsDrawn()
    {
      yParam := value;
      o := UpdateScatter();
    }

    /** `#param` change: set the bar metric and redraw the bar chart only. */
    method OnParamChange(value: Metric) returns (o: Outcome<Error>)
      requires Valid()
      modifies this`param, this`barRegions, this`barDomain, this`barRender, this`barData, this`barOpacity
      ensures Valid()
      ensures param == value
      ensures o.Pass? <==> Covers(data, param)
      ensures o.Pass? ==> BarsDrawn() && Focus().None?
      ensures o.Fail? ==> unchanged(this`barRegions, this`barDomain, this`barRender, this`barData, this`barOpacity)
      ensures old(ScatterDrawn()) ==> ScatterDrawn()
    {
      param := value;
      o := UpdateBar();
    }
  }
}
