# chartkick.js core, modelled in Dafny

This project models the data-handling core of chartkick.js, a small
JavaScript library. It turns chart data given in several shapes into the
options and tables that Highcharts or Google Charts draw. The model covers
these parts:

- **Option trees** (`tree.dfy`, module `Trees`).
  - The deep merge `extend` / `merge` over JavaScript objects and arrays.
  - An `Options` class whose top-level slots `extend` updates in place.
  - Strict-mode path assignments such as `options.yAxis.min = v`.
- **Chart options** (`backends.dfy`, module `Backends`).
  - `jsOptionsFunc` with the Highcharts and Google Charts defaults.
  - The `hideLegend`, `setMin`, `setMax`, `setBarMin` and `setBarMax` setters.
  - `opts.library || {}`, merged last.
  - The options of the two pie charts.
- **ISO 8601 dates** (`iso8601.dfy`, module `Iso8601`).
  - `parseISO8601`: the unanchored pattern, the field arithmetic and `Date.UTC`.
- **Coercions** (`coerce.dfy`, module `Coerce`).
  - `toStr`, `toFloat`, `toDate` (with its string clean-up), `toArr`, the `for...in` property order and `sortByTime`.
- **Series normalisation** (`normalize.dfy`, module `Normalize`).
  - `processSeries`, `negativeValues` and `processPieData`.
- **Category tables** (`categories.dfy`, module `Categories`).
  - The `rows` dictionary that Highcharts' `renderColumnChart` and Google's `createDataTable` build.
  - The categories, and the `newSeries` / `rows2` they are turned into.
- **Helpers** (`text.dfy`, `sorting.dfy`, `wrappers.dfy`).
  - Decimal spelling and string replacement.
  - The stable sort standing in for `Array.prototype.sort`.
  - `Option` / `Result`, and the "first failure ends the loop" map.

JavaScript exceptions are values: `Result` carries a `TypeError` or a
`RangeError`. The source's loops are methods, and each is proved to compute
exactly its specification function. The properties are proved about those
functions.

The code is followed in four places where a reader might expect other
behaviour:

- Google's `createDataTable` leaves a category that a series has no point for
  as a hole (`undefined`) in the row; it does not fill it with 0.
- The ISO pattern is not anchored. The first position where it matches
  decides the date, and a date without a time of day does not match at all.
- `rows` is a JavaScript array used as a dictionary. The label `"length"`
  and labels that name inherited properties therefore behave differently
  from other labels (see Findings).
- `toDate` returns `null`, arrays and objects unchanged. Within
  `processSeries` the `TypeError` comes only when `sortByTime` calls
  `getTime` on such a key, which happens only when a series has two or
  more points. The Google data table for a datetime column calls
  `getTime` on every point's key (`Categories.KeyOf`), so there a single
  such point already throws.

## Model

| member | source | states |
|---|---|---|
| `Trees.Base` | chartkick.js:29-37 | An object source keeps an existing object or array slot, otherwise `{}`; an array source keeps an existing array, otherwise `[]` |
| `Trees.Extend` | chartkick.js:26-42 | `extend`: the keys afterwards are the target's plus the source's defined keys; a leaf of the source wins, an `undefined` or missing source slot keeps the target's, containers stay containers and arrays stay arrays |
| `Trees.ExtendAt` | chartkick.js:26-42 | One slot of `extend`'s result is the target slot absorbing the source slot |
| `Trees.ExtendOne` | chartkick.js:26-42 | Extending by one defined slot changes only that slot |
| `Trees.ExtendStep` | chartkick.js:27-41 | One more key of the `for...in` loop changes exactly that key's slot, or nothing when it is `undefined` on both sides |
| `Trees.ExtendUntouched` | chartkick.js:27-41 | A key the source lacks keeps the target's value |
| `Trees.ExtendLeafWins` | chartkick.js:38-40 | A leaf of the source at any depth is found at the same path afterwards |
| `Trees.ExtendKeeps` | chartkick.js:26-42 | A path the source does not reach keeps its old leaf, or stays absent |
| `Trees.ExtendNoNew` | chartkick.js:26-42 | No path appears that neither input has |
| `Trees.ExtendKeepsObject` | chartkick.js:29-37 | A container stays a container where the source holds only plain objects along the path |
| `Trees.AbsorbSelf` | chartkick.js:26-42 | Merging a value into itself gives it back |
| `Trees.ExtendIdempotent` | chartkick.js:26-42 | `extend(t, t)` leaves `t` unchanged |
| `Trees.MergeRightWins` | chartkick.js:44-49 | Where `obj2` has a leaf, `merge(obj1, obj2)` has that leaf |
| `Trees.MergeLeftKept` | chartkick.js:44-49 | A leaf of `obj1` that `obj2` does not reach survives `merge` |
| `Trees.MergeUnionExample` | chartkick.js:44-49 | Nested objects are unioned: `{a:{x:1}}` and `{a:{y:2}}` merge to `{a:{x:1,y:2}}` |
| `Trees.SetInFound` | chartkick.js:186-196 | A path assignment succeeds exactly when every slot on the path is an object, and then the value is at `path + [key]` |
| `Trees.SetInElsewhere` | chartkick.js:186-196 | A path assignment changes no path that parts ways with the assigned one |
| `Trees.SetInKeepsPrefix` | chartkick.js:186-196 | The containers along an assigned path stay containers |
| `Trees.Options.constructor` | chartkick.js:45 | A fresh options object is `{}` |
| `Trees.Options.ExtendWith` | chartkick.js:26-42 | The in-place loop leaves the object equal to `Extend` of its old slots and the source |
| `Trees.Options.Set` | chartkick.js:354-372 | A setter either writes the value along its path or throws and leaves the object unchanged |
| `Trees.MergeInto` | chartkick.js:44-49 | `merge` builds a fresh object equal to `Merge(obj1, obj2)` |
| `Backends.StringKeys` | chartkick.js:124 | `opts.library \|\| {}` given a string contributes exactly the index keys `"0"` to `"n-1"` |
| `Backends.StringValues` | chartkick.js:124 | Slot `i` of a string library holds its `i`-th character |
| `Backends.HideLegend` | chartkick.js:186-188 | `options.legend.enabled = false` (Google: `options.legend.position = "none"`, lines 354-356) when `opts.hideLegend` is set, and nothing otherwise; it throws exactly when a slot on the path is not an object, and otherwise the legend slot holds the value, the path stays objects and every slot apart from it is unchanged |
| `Backends.SetMin` | chartkick.js:190-192 | The min setter (Google: `vAxis.viewWindow.min`, lines 358-360) writes `opts.min` when given, else 0 unless some value is negative, else nothing; it throws exactly when a slot on the axis path is not an object, and otherwise leaves the axis an object and every slot apart from "min" unchanged |
| `Backends.SetMax` | chartkick.js:194-196 | The max setter (Google: `vAxis.viewWindow.max`, lines 362-364) writes `opts.max` only when given; it throws exactly when a slot on the axis path is not an object, and otherwise leaves the axis an object and every slot apart from "max" unchanged |
| `Backends.SettersOk` | chartkick.js:104-121 | With sound defaults the three setters never throw |
| `Backends.SettersLegend` | chartkick.js:104-108 | After the setters the legend slot is the hidden value when hidden, and otherwise what the start held |
| `Backends.SettersMin` | chartkick.js:110-116 | After the setters the axis "min" is what `SetMin` writes |
| `Backends.SettersMax` | chartkick.js:118-121 | After the setters the axis "max" is `opts.max` |
| `Backends.JsOptionsOk` | chartkick.js:99-128 | With fitting defaults `jsOptions` never throws |
| `Backends.Legend` | chartkick.js:104-108 | The legend is hidden when asked for, and otherwise keeps the default, unless the library sets it |
| `Backends.AxisMin` | chartkick.js:110-116 | The axis minimum is `opts.min`, else 0 when no value is negative, else absent |
| `Backends.AxisMax` | chartkick.js:118-121 | The axis maximum is `opts.max` when given, else absent |
| `Backends.LibraryWins` | chartkick.js:123-124 | The library is merged last: every leaf that `opts.library \|\| {}` contributes (an object's or array's slots, a string's characters) is what the chart gets |
| `Backends.ChartOptionsWin` | chartkick.js:101-102 | A chart kind's own options override the defaults |
| `Backends.DefaultsKept` | chartkick.js:101-102 | A default that the chart options do not reach is kept |
| `Backends.BuildOptions` | chartkick.js:99-128 | The in-place construction succeeds exactly when `JsOptions` does, and then holds the same options in a fresh object |
| `Backends.PieLibraryWins` | chartkick.js:233-234 | In both pie charts a leaf of the library wins |
| `Backends.GooglePieTop` | chartkick.js:424-431 | Unless the library sets it, the Google pie chart area starts at "10%" |
| `Backends.HighchartsRoom` | chartkick.js:142-184 | The Highcharts defaults have a legend object and a `yAxis` object without "min" or "max" |
| `Backends.HighchartsFits` | chartkick.js:198-217 | The Highcharts defaults, with or without the area chart options, suit the setters |
| `Backends.GoogleRoom` | chartkick.js:314-352 | The Google defaults have a legend object and empty `viewWindow` objects under both axes |
| `Backends.GoogleFits` | chartkick.js:469-475 | The Google defaults, with or without the area chart options, suit the setters |
| `Backends.GoogleBarFits` | chartkick.js:453-461 | The bar chart's options suit `setBarMin` / `setBarMax` on `hAxis.viewWindow` |
| `Iso8601.MatchIso` | chartkick.js:52 | A match at the first character has groups of the pattern's lengths |
| `Iso8601.ZoneBack` | chartkick.js:52 | Each zone alternative is read back from its spelling |
| `Iso8601.RoundTrip` | chartkick.js:52 | Matching the rendering of well-formed groups gives the same groups |
| `Iso8601.Search` | chartkick.js:64 | `input.match`: the first position with a match and its groups; no earlier position matches; nothing when no position matches |
| `Iso8601.SearchNone` | chartkick.js:64 | When no position matches, the search finds nothing |
| `Iso8601.MatchLength` | chartkick.js:52 | A match takes at least ten characters |
| `Iso8601.DateOnlyDoesNotParse` | chartkick.js:52-64 | `YYYY-MM-DD` alone never parses: the hour is required |
| `Iso8601.ParseRendered` | chartkick.js:55-83 | A well-formed rendering parses to the instant of its groups |
| `Iso8601.NoZoneIsUtc` | chartkick.js:72-81 | A string without a zone is read as UTC, exactly like one ending in `Z` |
| `Iso8601.ZoneShift` | chartkick.js:73-80 | An offset `+hh:mm` moves the instant by that many minutes |
| `Iso8601.TwoDigitYear` | chartkick.js:72 | `Date.UTC` reads a year below 100 as a year of the 1900s |
| `Iso8601.YearLength` | chartkick.js:72 | The day count of `Date.UTC` advances by a year's length from one new year to the next |
| `Text.NatToDecimal` | chartkick.js:611-613 | A whole number is spelled in decimal digits with no leading zero |
| `Text.DecimalRoundTrip` | chartkick.js:611-613 | Reading the decimal spelling back gives the number |
| `Text.IndexFrom` | chartkick.js:626 | The first occurrence of a pattern at or after a position, or none |
| `Text.ReplaceFirst` | chartkick.js:626 | `replace` with a string pattern replaces only the first occurrence |
| `Coerce.Join` | chartkick.js:611-613 | `"" + array` is empty for no element and the element itself for one |
| `Coerce.ToStrNat` | chartkick.js:611-613 | `toStr` spells a whole number in decimal, and the digits read back as the number |
| `Coerce.ToFloat` | chartkick.js:615-617 | `toFloat` returns a number unchanged |
| `Coerce.Trunc` | chartkick.js:622 | Rounding toward zero stays within one of the value |
| `Coerce.TimeClip` | chartkick.js:622 | A `Date` is invalid exactly when its time lies beyond 8.64e15 ms |
| `Coerce.FromSeconds` | chartkick.js:620-622 | A number key is read as seconds since the epoch; NaN and infinities give an invalid date |
| `Coerce.ParseIsoValue` | chartkick.js:55-64 | `parseISO8601` returns a Date unchanged, nothing for a non-string, and a date exactly when the pattern matches a string |
| `Coerce.ToDate` | chartkick.js:619-631 | `toDate` keeps Dates, objects, arrays and `null`, reads numbers as seconds and strings as dates, and throws on booleans and `undefined` |
| `Coerce.ToDateIso` | chartkick.js:626-627 | A string the pattern accepts after clean-up is read by `parseISO8601` |
| `Coerce.ToDateFallback` | chartkick.js:627 | A string the pattern rejects goes to `new Date` unchanged |
| `Coerce.CleanSpace` | chartkick.js:626 | `"YYYY-MM-DD hh:mm"` is cleaned to the `T`-separated form |
| `Coerce.ForInOrder` | chartkick.js:636-640 | `for...in` visits every own property exactly once |
| `Coerce.ForInOrderShape` | chartkick.js:636-640 | Array-index keys are visited first in ascending order, then the other keys in creation order |
| `Coerce.ForInOrderPlain` | chartkick.js:636-640 | With no array-index key the visiting order is creation order |
| `Coerce.Enumerate` | chartkick.js:636-640 | An object enumerates its own properties, a string its characters, anything else nothing |
| `Coerce.ToArr` | chartkick.js:633-644 | `toArr` returns an array unchanged; a string gives `[i, s[i]]` for each index; an object (with distinct keys) gives `[k, n[k]]` for each key in `for...in` order, one pair per property; anything else gives no pairs |
| `Coerce.ToArrLoop` | chartkick.js:633-644 | The `for...in` loop computes `ToArr` |
| `Coerce.PushPairs` | chartkick.js:636-640 | The loop body pushes one pair per property, in order |
| `Coerce.Elem` | chartkick.js:668-670 | Indexing `null` or `undefined` throws; an array gives its element |
| `Coerce.Prop` | chartkick.js:665 | Reading a property of `null` or `undefined` throws; a primitive has no own property |
| `Coerce.SortByTime` | chartkick.js:648-650 | Sorting throws exactly when there are two or more points and some key is not a Date; otherwise it is a permutation |
| `Coerce.SortByTimeSorted` | chartkick.js:648-650 | With valid dates the points come out in non-decreasing time order |
| `Sorting.Sort` | chartkick.js:673 | The sort returns a permutation of its input |
| `Sorting.SortSorted` | chartkick.js:673 | Where the comparator is a numeric order on the input, the output is sorted by it |
| `Normalize.PointOf` | chartkick.js:668-670 | A point becomes `[toStr(d[0]), toFloat(d[1])]`, or `[toDate(d[0]), ...]` for time charts; it throws on `null`, `undefined` or a throwing `toDate` |
| `Normalize.SeriesOf` | chartkick.js:664-676 | A processed series keeps its name; a `null` or `undefined` series throws |
| `Normalize.SingleShape` | chartkick.js:656-658 | Single-series input is wrapped as `[{name: "Value", data: series}]`: exactly one series, named "Value", with one point per entry of `toArr(series)` |
| `Normalize.MultiShape` | chartkick.js:659-661 | An array of series objects is used as it is: the series keep their count, their names and one point per entry of their own data |
| `Normalize.LengthKept` | chartkick.js:665-675 | Each series keeps as many points as `toArr` gave |
| `Normalize.CategoryOrderKept` | chartkick.js:664-671 | Without `time`, the points are the coerced input points, in input order |
| `Normalize.TimeSorted` | chartkick.js:672-674 | With `time`, the points are a permutation of the coerced points, in time order when every key is a valid date |
| `Normalize.CoercePoints` | chartkick.js:666-671 | The inner loop computes `PointsOf` |
| `Normalize.SeriesStep` | chartkick.js:665-675 | One turn of the outer loop computes `SeriesOf` |
| `Normalize.SeriesLoop` | chartkick.js:664-676 | The outer loop computes `AllSeries` |
| `Normalize.ProcessSeriesLoop` | chartkick.js:652-679 | `opts.hideLegend` is set exactly for single-series input, the other options are kept, and the result is `ProcessSeries` |
| `Normalize.NegativeValues` | chartkick.js:86-97 | True exactly when some point of some series is below zero |
| `Normalize.NaNIsNotNegative` | chartkick.js:91 | NaN values are never negative |
| `Normalize.SliceOf` | chartkick.js:692 | A pie slice is `[toStr(d[0]), toFloat(d[1])]`; it throws on `null` or `undefined` |
| `Normalize.PieData` | chartkick.js:689-695 | Every entry of `toArr(data)` becomes a slice in order, and the first failing entry fails all |
| `Normalize.ProcessPieData` | chartkick.js:689-695 | The in-place loop computes `PieData` |
| `Categories.PlaceIntended` | chartkick.js:255-258 | On a dictionary, a key's row is created on first use and then only cell `i` of that row changes |
| `Categories.Place` | chartkick.js:255-258 | On an array, the assignment throws exactly for the key "length"; an inherited name leaves `rows` unchanged; any other key acts as on a dictionary |
| `Categories.FillAll` | chartkick.js:250-260 | The nested loops keep `rows` a valid table |
| `Categories.FillIntended` | chartkick.js:250-260 | The dictionary after the writes is a valid table |
| `Categories.KeyOf` | chartkick.js:388 | A category key is the label; a datetime key computes exactly for Dates |
| `Categories.Writes` | chartkick.js:250-260 | The writes stay within the series count |
| `Categories.Categories` | chartkick.js:262-267 | The categories are the own keys of `rows`, each once, in `for...in` order |
| `Categories.Cell` | chartkick.js:274 | `rows[c][i] \|\| 0`: a hole, NaN or 0 becomes 0, any other number stays; the result is never NaN |
| `Categories.Values` | chartkick.js:272-275 | Series `i` gets one value per category, never NaN: a truthy cell is kept, a hole or falsy cell becomes 0 |
| `Categories.AsWrittenAgrees` | chartkick.js:250-260 | Without "length" and inherited names, the array behaves exactly as a dictionary |
| `Categories.FillIntendedKeys` | chartkick.js:250-267 | The dictionary's keys are the written keys, each once, in order of first write |
| `Categories.FillIntendedCells` | chartkick.js:250-260 | Cell `i` under a key holds the last value series `i` wrote there, or a hole |
| `Categories.LastSeries` | chartkick.js:253-259 | The last write of series `i` under a label is its last point with that label |
| `Categories.KeyTimeRoundTrip` | chartkick.js:388-399 | A time value spelled as a key reads back as the same time |
| `Categories.CategoriesCreationOrder` | chartkick.js:262-267 | With no array-index key the categories are in creation order |
| `Categories.IntendedTable` | chartkick.js:250-260 | The dictionary's keys are the distinct labels, and each cell is that series' last value under the label |
| `Categories.ColumnChartIntendedShape` | chartkick.js:244-282 | The intended column chart: the categories are the distinct labels (in first-seen order without index keys); `newSeries` keeps each series' name, and each series has per category its last value there, with a hole (`new Array(n)` starts as holes), NaN or 0 shown as 0 |
| `Categories.AsWrittenTable` | chartkick.js:250-260 | On plain labels `rows` as written is the dictionary |
| `Categories.ColumnChartAgrees` | chartkick.js:244-282 | On plain labels the column chart as written is the intended one |
| `Categories.InheritedLabelDropped` | chartkick.js:255-267 | The label "constructor" loses its category and its value |
| `Categories.SingleLabelDropped` | chartkick.js:255-267 | Any inherited label of a single point gives no category and an empty series |
| `Categories.InheritedLabelIntended` | chartkick.js:244-282 | As a dictionary the same data gives the category and its value |
| `Categories.SingleLabelIntended` | chartkick.js:244-282 | As a dictionary a single non-index label with a truthy value gives one category with that value |
| `Categories.LengthLabelOneSeries` | chartkick.js:255-258 | The label "length" throws a TypeError with one series |
| `Categories.LengthLabelTwoSeries` | chartkick.js:255-258 | The label "length" throws a RangeError with two series |
| `Categories.LengthFirst` | chartkick.js:255-258 | A first write under "length" throws a RangeError for two or more series and a TypeError for one |
| `Categories.FillInherited` | chartkick.js:255-258 | A single write through an inherited name leaves `rows` empty |
| `Categories.StringTableShape` | chartkick.js:377-401 | On plain labels the category data table has one number column per series, named by the series, and one row per distinct label (no label twice, every label of a point present), its label first, then each series' last value under that label or a hole |
| `Categories.TimeRows` | chartkick.js:386-394 | With valid dates `rows` fills without error, as the dictionary would, and every key spells a time value |
| `Categories.TimedKeySeq` | chartkick.js:385-393 | With valid dates every key computes, and the keys written, in order, are the time values of the points spelled by `String` |
| `Categories.LastSeriesTime` | chartkick.js:381-393 | The last write of series `i` under the spelling of a time value is its last point at that time |
| `Categories.IntendedTimeTable` | chartkick.js:381-393 | The dictionary's keys are the distinct spelled time values, and cell `i` under the spelling of a time is series `i`'s last value at that time, or a hole |
| `Categories.TimeRowsShaped` | chartkick.js:396-401 | Before sorting there is one row per distinct time of a point, no time twice, labelled with the Date at that time, then each series' last value at that time or a hole |
| `Categories.PermutedRows` | chartkick.js:402-404 | Reordering the rows keeps one row per distinct time, each row as it was |
| `Categories.SortedValid` | chartkick.js:402-404 | Sorting valid-date rows keeps them valid and puts them in time order |
| `Categories.SortedTimeRows` | chartkick.js:402-404 | Sorting the rows keeps one row per distinct time, each as it was, and puts them in time order |
| `Categories.TimeTableSorted` | chartkick.js:377-404 | The datetime data table of valid dates is built: one number column per series, one row per distinct time of a point (no time twice, every time present), labelled with that Date, holding each series' last value at that time or a hole, the rows in time order |
| `Categories.Assign` | chartkick.js:255-258 | One assignment computes `Place` |
| `Categories.FillPoint` | chartkick.js:254-258 | One point advances the partial table by one write |
| `Categories.FillSeries` | chartkick.js:253-259 | The inner loop computes the fill with series `i`'s writes appended |
| `Categories.FillRows` | chartkick.js:250-260 | The nested loops compute `FillAll` of all the writes |
| `Categories.CategoriesLoop` | chartkick.js:262-267 | The `for...in` loop computes `Categories` |
| `Categories.NewSeriesLoop` | chartkick.js:270-281 | The loops compute `NewSeries` |
| `Categories.RenderColumnChart` | chartkick.js:244-282 | The method computes `ColumnChart` |
| `Categories.RowsLoop` | chartkick.js:396-401 | The loop computes `TableRows` |
| `Categories.CreateDataTableLoop` | chartkick.js:377-404 | The method computes `CreateDataTable` |

## Left out

- The DOM, `getJSON`, `setElement`, `waitForLoaded`, `getSVG`, `resize` and the choice of back end from `window` are left out. They are I/O and browser state.
- The chart constructors, `DataTable.addColumn` / `addRows` and `chart.draw` are left out. They are calls into the charting libraries, which are not part of this model. The model stops at the options and tables handed to them.
- The renderers' own field writes (`options.chart.type`, `renderTo`, `xAxis.type`, `getTime` on line chart points, `marker`) are left out. They do not feed the core's results.
- Floating point is a parameter (`Host`): `parseFloat` of a non-number, the spelling of a non-integer number, `Date.prototype.toString` and the `new Date(string)` fallback parser.
- `Coerce.ToFloat`: states only that a number comes back unchanged. Other values go through the host's `parseFloat`, whose result the model does not fix.
- `Coerce.ToDate`: for a string, states only that the result is a Date. `Coerce.ToDateIso` and `Coerce.ToDateFallback` say which one.
- The ISO pattern is matched by a deterministic greedy matcher at each start position. Strings that only a backtracking engine matches at a position, and where the greedy matcher fails there, are not modelled.
- Milliseconds are the first three fraction digits, read as an integer. The source computes them in floating point.
- Additions to `Object.prototype` or `Array.prototype` by other scripts are left out. An inherited truthy name is a parameter (`inherited`). Index-named inherited properties are not modelled.
- Google's `toFloat` on a value that is already a number is the identity, as for any double.
- `Sorting.Sort`: a stable insertion sort stands in for the engine's `Array.prototype.sort`. Engines may order equal or NaN-comparing keys differently. The model states only that the result is a permutation, and that it is sorted when every key is a valid date.
- Option trees hold no Dates or functions; `null`, booleans, numbers, strings, arrays and objects are modelled.
- `Coerce.Join`: states only the empty and the one-element case. Longer arrays are joined with commas by the body.
- `Normalize.ProcessSeriesLoop`, `Normalize.SeriesStep`, `Normalize.ProcessPieData`: the processed series and slices come back as new values. The source writes them into the caller's objects: `series[i].data = r` (chartkick.js:675) replaces the data of the caller's own series objects when an array of series is passed, and `processPieData` (chartkick.js:690-692) overwrites the caller's array entry by entry when `data` is an array, since `toArr` returns that same array. Other properties of those objects and the aliasing are not captured.
- `Categories.Place`: the label `"__proto__"` is not modelled. `rows["__proto__"]` is `Array.prototype`, so the source writes `Array.prototype[i] = v`. Every array then reads that value through a hole at index `i`: the `\|\| 0` of chartkick.js:274, the cells of chartkick.js:398 and later charts. Putting the name in `inherited` only captures that `rows` itself stays unchanged.
- Objects in chart data (`Raw`) are sequences of entries and may repeat a key; a lookup finds the first entry, while a JavaScript object keeps only the last value written. The contracts that read properties (`Coerce.ToArr`) state their per-key result for distinct keys only (`Coerce.DistinctKeys`), which every JavaScript object has.
- `Coerce.FromSeconds`: multiplies by 1000 in exact real arithmetic. The source multiplies two doubles, so for a fractional number of seconds the rounded product, and hence the millisecond value, may differ.
- `Backends.AxisMin`, `Backends.AxisMax`: state the axis value only for a leaf `opts.min` / `opts.max`. When the key is present but `undefined`, the setter writes `undefined` and the final `merge` drops the slot; an object or array value is deep-copied by that merge. Neither case is stated.

## Findings

| source | as written | input that shows it | evidently intended | confidence | as-written member | corrected member |
|---|---|---|---|---|---|---|
| chartkick.js:255-267 | `if (!rows[d[0]])` reads properties that `rows` inherits as an array. For a label such as "constructor", no row is created, the value is written onto the inherited function, and `hasOwnProperty` then drops the category. | one series `{name: "Sales", data: [["constructor", 5]]}` in a column chart | every label gets its own category and value | not executed | `Categories.InheritedLabelDropped` | `Categories.InheritedLabelIntended` |
| chartkick.js:255-258 | For the label "length", `rows.length` is the array's length (0). With two or more series, `rows.length = new Array(n)` throws a RangeError. With one series, the write into the number 0 throws a TypeError in strict mode. | one series `{name: "a", data: [["length", 1]]}`, or the same with a second series beside it | "length" is an ordinary category | not executed | `Categories.LengthLabelOneSeries` | `Categories.ColumnChartIntendedShape` |

For both rows:

- The corrected behaviour is the dictionary model (`Categories.PlaceIntended`, `Categories.FillIntended`, `Categories.ColumnChartIntended`).
- `Categories.ColumnChartIntendedShape` and `Categories.StringTableShape` prove the intended shape of the tables.
- `Categories.ColumnChartAgrees` and `Categories.AsWrittenAgrees` prove that the code as written gives the same result on every other label.
- The loop methods keep the code as written: `Categories.RenderColumnChart` and `Categories.CreateDataTableLoop`.
- `Categories.LengthLabelTwoSeries` exhibits the RangeError case.
