# World-data dashboard: a verified Dafny model

This project models the data and interaction logic of a D3 dashboard (`js/index.js`). The dashboard loads five per-country CSV tables:
- population;
- GDP;
- child mortality;
- life expectancy;
- fertility rate.

It joins them into one record per country and draws two linked views:
- a scatter plot of three chosen metrics for a chosen year (x, y and circle radius);
- a bar chart of the mean of a chosen metric per world region.

Clicking a bar selects it: the other bars are dimmed and only the circles of that region stay visible. Clicking the same bar again clears the selection.

The model has five modules:

- `Wrappers` (`wrappers.dfy`): `Option` stands for JavaScript's `undefined`, `Result` for a computation that may throw, and `Outcome` for a state change that may throw.
- `Stats` (`stats.dfy`): the d3 statistics the dashboard uses. `d3.min`, `d3.max` and `d3.mean` skip missing values. `d3.set(...).values()` lists the distinct values in first-seen order.
- `Tables` (`tables.dfy`): the join done by `loadData`. Each population row looks up the first gdp row with the same `geo` and reuses that position for the other three tables. A position that does not exist (-1 included) yields `undefined`.
- `Views` (`views.dfy`): the data half of the two redraws:
  - the per-record values and `[min, max]` domains of `updateScattePlot`;
  - the distinct regions of `updateBar`, with the loop that pushes one mean per region and the loop that pairs region keys with means;
  - the bar domain `[0, max]`.
- `Dashboard` (`dashboard.dfy`): a class holding the script's mutable state:
  - the parameters `xParam`, `yParam`, `rParam`, `year`, `param` and `selected`;
  - the scale domains;
  - the rendered bars and circles with their opacities.

  Its methods are the two redraws, the five input handlers, the initial render and the bar-click toggle. The class invariant `Valid` says that the bar opacities follow the selected bar, and that the circle opacities follow the region of the last bar click until a scatter redraw shows every circle again. The two can disagree: a bar redraw clears the selection but leaves the circles as they were, and a scatter redraw shows every circle but leaves the bars dimmed. The source resets neither.

How a throw is modelled: reading a year of a sub-record that the join left `undefined` throws a TypeError in the source. The model returns `Failure`, or `Fail` for the class methods, and such a redraw changes nothing. In the year handler, a failing scatter redraw also skips the bar redraw.

How bars are identified: `selected` holds a DOM element, and every bar redraw removes the bars and appends new ones. So the model names a bar by the render that appended it and its position in that render. After a redraw the old selection matches no bar, and the next click on any bar selects it.

A bar redraw also leaves the circle opacities as they were. The source does not reset them.

How the join looks rows up: a join could search every table by `geo` (`Tables.JoinByGeo`). `loadData` does not. It searches only the gdp table and reads the other three tables at the gdp position, and `Tables.Join` does the same. `Tables.JoinAlignedIsByGeo` proves that the two joins agree when the tables list the same countries in the same order. `Tables.JoinReadsOtherCountry` states exactly when a record holds another country's row, and `Tables.JoinMisalignedReadsOtherCountry` is an example of it.

## Model

| member | source | states |
|---|---|---|
| Tables.SubRecord | js/index.js:198-202 | `d['population']` is the population row itself and always defined; each other metric gives the record's sub-record for that metric, which may be undefined |
| Tables.Cell | js/index.js:89 | `+row[year]` is defined exactly when the row has a numeric value for the year, and is then that value |
| Tables.FindIndex | js/index.js:193 | `findIndex` returns -1 exactly when no row has the geo; otherwise it returns the first position whose row has the geo |
| Tables.At | js/index.js:199-202 | `t[k]` is undefined for a position outside the table, -1 included, and is the row at `k` otherwise |
| Tables.JoinRow | js/index.js:193-203 | a record carries its population row's country, geo and region; its gdp is undefined exactly when no gdp row has its geo and is otherwise a row with that geo; with no gdp match the other three sub-records are undefined too |
| Tables.Join | js/index.js:192-204 | one record per population row, in order, carrying that row's country, geo and region, with the row itself as `population` |
| Tables.JoinGdpIsFirstMatch | js/index.js:193-199 | a record's gdp is defined exactly when some gdp row has its geo, and it is then the first such row |
| Tables.JoinSharesGdpIndex | js/index.js:193-202 | all four looked-up sub-records are read at the position `findIndex` returns for the record's geo in the gdp table |
| Tables.JoinSubRecord | js/index.js:193-202 | `d[m]` of a joined record is its population row for `population`, and for every other metric the row of that metric's table at the gdp match position, undefined when there is no such row |
| Tables.JoinShortTableUndefined | js/index.js:199-202 | a table with no row at the gdp match position gives an undefined sub-record, whatever rows it has for that geo elsewhere |
| Tables.JoinAlignedIsByGeo | js/index.js:193-202 | when the other tables list the same geos as gdp, position by position, the join equals a search by geo in every table |
| Tables.JoinReadsOtherCountry | js/index.js:193-202 | a record holds another country's row for a metric exactly when that metric's table has a row of a different geo at the gdp match position |
| Tables.JoinMisalignedReadsOtherCountry | js/index.js:199-202 | example: with a child-mortality table that lists "can" before "usa", the reused index gives the "usa" record the "can" row, while the search by geo gives it the "usa" row |
| Tables.JoinReadsGdpYear | js/index.js:192-204 | worked example: with one country, its gdp year value is read from the matching gdp row, and an empty child-mortality table gives undefined |
| Tables.FirstByGeo | js/index.js:193 | reference search by geo: a result is a row of the table with that geo; no result means no row has it |
| Tables.JoinByGeo | js/index.js:192-204 | reference join by geo: one record per population row, and every sub-record it finds belongs to the record's own country |
| Tables.AlignedLookup | js/index.js:193-202 | reading a table at the gdp match position finds that table's first row with the geo when the table lists the same geos as gdp |
| Stats.Present | js/index.js:89 | the values d3 keeps are exactly the present ones, and there are no more of them than inputs |
| Stats.PresentCounts | js/index.js:89 | every present value is kept as many times as it occurs; only missing values are dropped (proved by induction) |
| Stats.Max | js/index.js:99 | `d3.max` is undefined exactly when every value is missing; otherwise it is a present value at least every present value |
| Stats.Min | js/index.js:156-158 | `d3.min` is undefined exactly when every value is missing; otherwise it is a present value at most every present value |
| Stats.Mean | js/index.js:89 | `d3.mean` is undefined exactly when every value is missing; otherwise it is the average of the present values and lies between their minimum and maximum |
| Stats.Average | js/index.js:89 | the average times the number of terms is their sum |
| Stats.MeanExample | js/index.js:89 | worked example: the mean of 10, 20 and 30 is 20 |
| Stats.MeanSkipsMissing | js/index.js:89 | worked example: the mean of 10, a missing value and 30 is 20 |
| Stats.MeanWithinExtent | js/index.js:89 | the mean of the present values lies between their minimum and maximum |
| Stats.AverageBounds | js/index.js:89 | an average of terms that lie between two bounds also lies between them |
| Stats.SumBounds | js/index.js:89 | a sum of n terms between `lo` and `hi` lies between `n*lo` and `n*hi` (proved by induction) |
| Stats.Distinct | js/index.js:80-81 | `d3.set(...).values()` has the same elements as its input and no duplicates |
| Stats.DistinctFirstSeenOrder | js/index.js:80-81 | the distinct values are listed in the order of their first occurrence (proved by induction) |
| Views.Extract | js/index.js:152-154 | `data.map(d => +d[m][year])` succeeds exactly when every record has the sub-record; it then gives each record's year value in record order, and otherwise fails naming a record that lacks the sub-record |
| Views.ValueExtent | js/index.js:156-158 | `[d3.min, d3.max]` is undefined at both ends exactly when every value is missing; otherwise both ends are present values and every present value lies between them |
| Views.ExtractedValuesInExtent | js/index.js:152-158 | every extracted value lies in the domain `[min, max]`, both ends are extracted values, and the domain is undefined exactly when no value is present |
| Views.InRegion | js/index.js:85-88 | `data.filter(d => d.region == r)` keeps every record of region r as often as it occurs in the data, and no other record |
| Views.RegionColumn | js/index.js:81 | `data.map(d => d.region)` gives each record's region, in record order |
| Views.Regions | js/index.js:80-81 | the region list holds every record's region, only those, each once |
| Views.GroupMean | js/index.js:89 | `d3.mean` over a region's records succeeds exactly when every record of the group has the sub-record |
| Views.GroupMeanWithinValues | js/index.js:84-89 | a region's mean lies within the `[min, max]` of its records' values |
| Views.UncoveredGroup | js/index.js:84-89 | a group that throws contains a record of the dataset that lacks the sub-record |
| Views.CoveredByRegions | js/index.js:84-89 | when no region's group throws, every record has the sub-record |
| Views.GroupMeans | js/index.js:83-90 | the push loop yields one mean per region, the i-th being the mean of the i-th region's group; it fails only when some record lacks the sub-record |
| Views.RegionMeans | js/index.js:80-96 | `regions_key_means` exists exactly when every record has the sub-record; entry i pairs the i-th distinct region with the mean of that region's own records |
| Views.PairKeys | js/index.js:92-96 | the pairing loop puts the i-th key with the i-th mean |
| Views.BarExtent | js/index.js:99 | the bar domain starts at 0; its top is undefined exactly when every mean is undefined, and otherwise is one of the means and at least every defined mean |
| Dashboard.FocusedBarAlone | js/index.js:120-126 | with a bar selected, a bar is at opacity 1 exactly when it is the selected one; all others are at 0.4 |
| Dashboard.HighlightedRegionAlone | js/index.js:128-133 | with a region highlighted, a circle is at 0.8 exactly when its record is in that region; all others are at 0 |
| Dashboard.NothingFocusedShowsAll | js/index.js:135-142 | with no selection, every bar is at 1 and every circle at 0.8 |
| Dashboard.Dashboard.constructor | js/index.js:21-28 | the initial parameters are fertility-rate, child-mortality and gdp for x, y and r, year "2000", bar metric child-mortality and no selection; no marks are drawn yet |
| Dashboard.Dashboard.ScatterKept | js/index.js:79-149 | a redraw that changes no field the scatter plot reads leaves it drawn |
| Dashboard.Dashboard.BarsKept | js/index.js:151-176 | a redraw that changes no field the bar chart reads leaves it drawn |
| Dashboard.Dashboard.UpdateScatter | js/index.js:151-176 | succeeds exactly when every record has all three sub-records; it then sets each domain to `[min, max]` of the extracted values and draws one circle per record, all at 0.8; on a throw nothing changes; the bar chart is never touched |
| Dashboard.Dashboard.DrawScatter | js/index.js:156-174 | sets the three domains and redraws one circle per record, bound to that record, all shown, keeping the invariant |
| Dashboard.Dashboard.UpdateBar | js/index.js:79-115 | succeeds exactly when every record has the sub-record; it then draws one new bar per distinct region with that region's mean, sets the domain to `[0, max]`, and leaves no bar selected; on a throw nothing changes; the scatter plot is never touched |
| Dashboard.Dashboard.DrawBars | js/index.js:98-115 | sets the band and linear domains and replaces the bars by new ones, all at opacity 1, so no old selection matches them |
| Dashboard.Dashboard.ClickBar | js/index.js:117-144 | clicking an unselected bar selects it, dims every other bar and shows only its region's circles; clicking the selected bar clears the selection and shows every bar and circle |
| Dashboard.Dashboard.Start | js/index.js:178-179 | the initial render succeeds exactly when every record has the bar metric and the three scatter metrics; both charts are then drawn with nothing selected; a failing bar redraw changes nothing, and a failing scatter redraw leaves the drawn bar chart and the scatter state as they were |
| Dashboard.Dashboard.OnYearInput | js/index.js:52-57 | sets the year, then redraws the scatter plot and, if that succeeds, the bar chart; on success both charts show the new year with nothing selected; a failing scatter redraw changes nothing else, and a failing bar redraw leaves the redrawn scatter plot and the bar state as they were |
| Dashboard.Dashboard.OnRadiusChange | js/index.js:59-62 | sets the radius metric and redraws the scatter plot: on success it is drawn with every circle shown, on a throw the scatter state is unchanged; a drawn bar chart stays drawn |
| Dashboard.Dashboard.OnXChange | js/index.js:64-67 | sets the x metric and redraws the scatter plot: on success it is drawn with every circle shown, on a throw the scatter state is unchanged; a drawn bar chart stays drawn |
| Dashboard.Dashboard.OnYChange | js/index.js:69-72 | sets the y metric and redraws the scatter plot: on success it is drawn with every circle shown, on a throw the scatter state is unchanged; a drawn bar chart stays drawn |
| Dashboard.Dashboard.OnParamChange | js/index.js:74-77 | sets the bar metric and redraws the bar chart: on success it is drawn with no bar selected, on a throw the bar state is unchanged; a drawn scatter plot stays drawn |

## Left out

- Reading the CSV files (`d3.csv`) and the `async`/`await` of `loadData`: the tables are a parameter of `Tables.Join`, and the joined records are a parameter of the `Dashboard.Dashboard` constructor.
- String-to-number coercion: the CSV strings are modelled as already-coerced `real` cells. A missing year, or a value that coerces to NaN, is a missing cell, which d3 skips. Unary `+` turning an empty string into 0 is not modelled.
- Floating point: values, sums and means are exact reals, so rounding in `d3.mean` is not modelled.
- DOM and SVG work: the axes, the pixel positions, widths and heights of the marks, the pixel ranges of the scales, the colour palette, and the colour-scale domain (line 50).
- Transitions: only the opacity a transition ends at is modelled, not its timing. A click during a running transition is not modelled.
- The year label (`yearLable.html(year)`): a DOM write with no effect on the data.
- The line chart and its state (`lineParam`, `highlighted`, `countryName`): declared in the script but not drawn by the modelled code.
- Input values: the select boxes are assumed to hold one of the five metric keys, so the handlers take a `Metric`. The range input's year is any string, and a year absent from the tables gives missing values.
- Bar identity: a DOM element is modelled as (render, position), which is all the click handler's `selected != this` comparison can observe.
