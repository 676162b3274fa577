/**
 * The chart options the two back ends build: `jsOptionsFunc` with the
 * Highcharts and Google Charts defaults, their `hideLegend`, `setMin`,
 * `setMax` (and the Google bar chart's `setBarMin`, `setBarMax`) setters,
 * the per-chart option overrides and the pie chart options.
 *
 * A setter is the strict-mode assignment `options.p1...pn[key] = v`,
 * i.e. `SetIn` along a fixed path.
 */
module Backends {
  import opened Wrappers
  import opened Trees
  import Text
  import Normalize

  /** What distinguishes one back end (or one chart kind of it). */
  datatype Backend = Backend(
    defaults: map<string, Tree>,
    legendPath: seq<string>, legendKey: string, legendValue: Tree, // hideLegend
    axisPath: seq<string>)                                         // setMin / setMax write "min" / "max" here

  // ---------------------------------------------------------------------
  // The two back ends

  function Leaf(k: string, v: Tree): map<string, Tree> {
    map[k := v]
  }

  function FontStyle(size: string): Tree {
    Obj(map["style" := Obj(map["fontSize" := Str(size)])])
  }

  /** The Highcharts `defaultOptions`. */
  function HighchartsDefaults(): map<string, Tree> {
    map[
      "chart" := Obj(map[]),
      "xAxis" := Obj(map["labels" := FontStyle("12px")]),
      "yAxis" := Obj(map["title" := Obj(Leaf("text", Null)), "labels" := FontStyle("12px")]),
      "title" := Obj(Leaf("text", Null)),
      "credits" := Obj(Leaf("enabled", Bool(false))),
      "legend" := Obj(Leaf("borderWidth", Num(0.0))),
      "tooltip" := FontStyle("12px"),
      "plotOptions" := Obj(map["areaspline" := Obj(map[]), "series" := Obj(map["marker" := Obj(map[])])]),
      "exporting" := Obj(Leaf("enabled", Bool(false)))
    ]
  }

  /** Highcharts: `legend.enabled = false`, the value axis is `yAxis`. */
  function Highcharts(): Backend {
    Backend(HighchartsDefaults(), ["legend"], "enabled", Bool(false), ["yAxis"])
  }

  /** The options `renderAreaChart` passes on to Highcharts' `jsOptions`. */
  function HighchartsAreaOptions(): map<string, Tree> {
    map["plotOptions" := Obj(map[
      "areaspline" := Obj(Leaf("stacking", Str("normal"))),
      "series" := Obj(Leaf("marker", Obj(Leaf("enabled", Bool(false)))))])]
  }

  function TextStyle(color: string): Tree {
    Obj(map["color" := Str(color), "fontSize" := Num(12.0)])
  }

  /** The Google Charts `defaultOptions`. */
  function GoogleDefaults(): map<string, Tree> {
    map[
      "chartArea" := Obj(map[]),
      "fontName" := Str("'Lucida Grande', 'Lucida Sans Unicode', Verdana, Arial, Helvetica, sans-serif"),
      "pointSize" := Num(6.0),
      "legend" := Obj(map["textStyle" := TextStyle("#444"), "alignment" := Str("center"), "position" := Str("right")]),
      "curveType" := Str("function"),
      "hAxis" := Obj(map["textStyle" := TextStyle("#666"), "gridlines" := Obj(Leaf("color", Str("transparent"))),
                         "baselineColor" := Str("#ccc"), "viewWindow" := Obj(map[])]),
      "vAxis" := Obj(map["textStyle" := TextStyle("#666"), "baselineColor" := Str("#ccc"), "viewWindow" := Obj(map[])]),
      "tooltip" := Obj(Leaf("textStyle", TextStyle("#666")))
    ]
  }

  /** Google Charts: `legend.position = "none"`, the value axis window is `vAxis.viewWindow`. */
  function Google(): Backend {
    Backend(GoogleDefaults(), ["legend"], "position", Str("none"), ["vAxis", "viewWindow"])
  }

  /** The Google bar chart uses `setBarMin` / `setBarMax` on `hAxis.viewWindow`. */
  function GoogleBar(): Backend {
    Backend(GoogleDefaults(), ["legend"], "position", Str("none"), ["hAxis", "viewWindow"])
  }

  function GoogleAreaOptions(): map<string, Tree> {
    map["isStacked" := Bool(true), "pointSize" := Num(0.0), "areaOpacity" := Num(0.5)]
  }

  function GoogleBarOptions(): map<string, Tree> {
    map["hAxis" := Obj(Leaf("gridlines", Obj(Leaf("color", Str("#ccc")))))]
  }

  function GooglePieArea(): map<string, Tree> {
    map["chartArea" := Obj(map["top" := Str("10%"), "height" := Str("80%")])]
  }

  // ---------------------------------------------------------------------
  // `opts.library || {}`

  /** The index slots of a string primitive: `"ab"` enumerates as `{0: "a", 1: "b"}`. */
  function StringProps(s: string): map<string, Tree>
    decreases |s|
  {
    if s == [] then map[] else StringProps(s[..|s| - 1])[Text.NatToDecimal(|s| - 1) := Str([s[|s| - 1]])]
  }

  /** One slot per character index. */
  lemma {:induction false} StringKeys(s: string)
    ensures StringProps(s).Keys == Text.Decimals(|s|)
    decreases |s|
  {
    if s != [] {
      var n := |s| - 1;
      StringKeys(s[..n]);
      Text.DecimalsUpTo(n);
    }
  }

  /** The slot of index `i` holds the character at `i`. */
  lemma {:induction false} StringValues(s: string)
    ensures forall i :: 0 <= i < |s| ==> Text.NatToDecimal(i) in StringProps(s) &&
                                         StringProps(s)[Text.NatToDecimal(i)] == Str([s[i]])
    decreases |s|
  {
    if s != [] {
      var n := |s| - 1;
      var init := StringProps(s[..n]);
      StringValues(s[..n]);
      Text.DecimalsDiffer(n);
      forall i | 0 <= i < n
        ensures Text.NatToDecimal(i) in StringProps(s) && StringProps(s)[Text.NatToDecimal(i)] == Str([s[i]])
      {
        assert s[..n][i] == s[i];
        assert init[Text.NatToDecimal(i)] == Str([s[i]]);
      }
    }
  }

  /** The slots `extend` copies from `opts.library || {}`: none from a falsy
    * value or from `true` and non-zero numbers, the slots of an object or
    * array, and one slot per character of a non-empty string. */
  function LibraryProps(lib: Tree): (r: map<string, Tree>)
    ensures IsObject(lib) ==> r == lib.props
    ensures lib.Str? ==> r == StringProps(lib.s)
    ensures !IsObject(lib) && !lib.Str? ==> r == map[]
  {
    match lib
    case Arr(p) => p
    case Obj(p) => p
    case Str(s) => StringProps(s)
    case _ => map[]
  }

  // ---------------------------------------------------------------------
  // `jsOptionsFunc(defaultOptions, hideLegend, setMin, setMax)(series, opts, chartOptions)`

  /** `merge(merge({}, defaultOptions), chartOptions || {})`. */
  function Start(b: Backend, chart: map<string, Tree>): map<string, Tree> {
    Merge(Merge(map[], b.defaults), chart)
  }

  /** `hideLegend`: with the flag set, writes the legend slot; it fails
    * exactly when some slot on the legend path is not an object, and
    * otherwise changes no path that lies apart from the legend slot. */
  function HideLegend(b: Backend, o: map<string, Tree>, hidden: bool): (r: Result<map<string, Tree>>)
    ensures !hidden ==> r == Ok(o)
    ensures hidden ==> (r.Ok? <==> (b.legendPath == [] || ObjectAt(o, b.legendPath)))
    ensures ObjectAt(o, b.legendPath) ==> r.Ok? && ObjectAt(r.value, b.legendPath)
    ensures ObjectAt(o, b.legendPath) && hidden ==>
              Lookup(r.value, b.legendPath + [b.legendKey]) == Some(b.legendValue)
    ensures ObjectAt(o, b.legendPath) ==>
              forall q :: Diverge(b.legendPath + [b.legendKey], q) ==> Lookup(r.value, q) == Lookup(o, q)
  {
    SetInFound(o, b.legendPath, b.legendKey, b.legendValue);
    SetInFrame(o, b.legendPath, b.legendKey, b.legendValue);
    if hidden then SetIn(o, b.legendPath, b.legendKey, b.legendValue) else Ok(o)
  }

  /** The value `setMin` writes, if it writes one: an explicit `opts.min`,
    * else 0 unless some value is negative. */
  function MinWritten(min: Option<Tree>, negative: bool): Option<Tree> {
    if min.Some? then min else if !negative then Some(Num(0.0)) else None
  }

  /** The min step: writes `MinWritten` into the axis' "min" slot, fails
    * exactly when a slot on the axis path is not an object, and otherwise
    * changes no path apart from that slot. */
  function SetMin(b: Backend, o: map<string, Tree>, min: Option<Tree>, negative: bool): (r: Result<map<string, Tree>>)
    ensures MinWritten(min, negative).None? ==> r == Ok(o)
    ensures MinWritten(min, negative).Some? ==> (r.Ok? <==> (b.axisPath == [] || ObjectAt(o, b.axisPath)))
    ensures ObjectAt(o, b.axisPath) ==> r.Ok? && ObjectAt(r.value, b.axisPath)
    ensures ObjectAt(o, b.axisPath) && MinWritten(min, negative).Some? ==>
              Lookup(r.value, b.axisPath + ["min"]) == MinWritten(min, negative)
    ensures ObjectAt(o, b.axisPath) ==>
              forall q :: Diverge(b.axisPath + ["min"], q) ==> Lookup(r.value, q) == Lookup(o, q)
  {
    var w := if min.Some? then min.value else Num(0.0);
    SetInFound(o, b.axisPath, "min", w);
    SetInFrame(o, b.axisPath, "min", w);
    match min
    case Some(m) => SetIn(o, b.axisPath, "min", m)
    case None => if negative then Ok(o) else SetIn(o, b.axisPath, "min", Num(0.0))
  }

  /** The max step: writes an explicit `opts.max` into the axis' "max" slot,
    * with the same failure and frame as the min step. */
  function SetMax(b: Backend, o: map<string, Tree>, max: Option<Tree>): (r: Result<map<string, Tree>>)
    ensures max.None? ==> r == Ok(o)
    ensures max.Some? ==> (r.Ok? <==> (b.axisPath == [] || ObjectAt(o, b.axisPath)))
    ensures ObjectAt(o, b.axisPath) ==> r.Ok? && ObjectAt(r.value, b.axisPath)
    ensures ObjectAt(o, b.axisPath) && max.Some? ==> Lookup(r.value, b.axisPath + ["max"]) == max
    ensures ObjectAt(o, b.axisPath) ==>
              forall q :: Diverge(b.axisPath + ["max"], q) ==> Lookup(r.value, q) == Lookup(o, q)
  {
    var w := if max.Some? then max.value else Num(0.0);
    SetInFound(o, b.axisPath, "max", w);
    SetInFrame(o, b.axisPath, "max", w);
    if max.Some? then SetIn(o, b.axisPath, "max", max.value) else Ok(o)
  }

  /** The options object handed to the charting library. */
  function JsOptions(b: Backend, series: seq<Normalize.Series>, hidden: bool, min: Option<Tree>, max: Option<Tree>,
                     library: Tree, chart: map<string, Tree>): Result<map<string, Tree>>
  {
    var o :- Setters(b, Start(b, chart), hidden, min, Normalize.HasNegative(series), max);
    Ok(Merge(o, LibraryProps(library)))
  }

  /** The three setter steps, applied to `s`. */
  function Setters(b: Backend, s: map<string, Tree>, hidden: bool, min: Option<Tree>, negative: bool, max: Option<Tree>)
    : Result<map<string, Tree>>
  {
    var o1 :- HideLegend(b, s, hidden);
    var o2 :- SetMin(b, o1, min, negative);
    SetMax(b, o2, max)
  }

  /** The setters write where `s` provides objects, into slots it leaves
    * empty, and the legend and the axis lie apart. */
  predicate Sound(b: Backend, s: map<string, Tree>) {
    b.legendPath != [] && b.axisPath != [] && b.legendPath[0] != b.axisPath[0] &&
    IsLeaf(b.legendValue) &&
    ObjectAt(s, b.legendPath) && ObjectAt(s, b.axisPath) &&
    Lookup(s, b.axisPath + ["min"]).None? && Lookup(s, b.axisPath + ["max"]).None?
  }

  /** The defaults, with the chart options merged in, suit the setters. */
  predicate Fits(b: Backend, chart: map<string, Tree>) {
    Sound(b, Start(b, chart))
  }

  // ---------------------------------------------------------------------
  // Path helpers

  lemma DivergeAtHead(a: seq<string>, b: seq<string>)
    requires a != [] && b != [] && a[0] != b[0]
    ensures Diverge(a, b)
  {
  }

  /** Two slots of the same container lie apart. */
  lemma {:induction false} DivergeSiblings(p: seq<string>, x: string, y: string)
    requires x != y
    ensures Diverge(p + [x], p + [y])
    decreases |p|
  {
    if p != [] {
      assert (p + [x])[1..] == p[1..] + [x];
      assert (p + [y])[1..] == p[1..] + [y];
      DivergeSiblings(p[1..], x, y);
    }
  }

  /** The legend slot and anything under the axis lie apart. */
  lemma LegendApart(b: Backend, key: string)
    requires b.legendPath != [] && b.axisPath != [] && b.legendPath[0] != b.axisPath[0]
    ensures Diverge(b.legendPath + [b.legendKey], b.axisPath + [key])
    ensures Diverge(b.axisPath + [key], b.legendPath + [b.legendKey])
  {
    DivergeAtHead(b.legendPath + [b.legendKey], b.axisPath + [key]);
    DivergeAtHead(b.axisPath + [key], b.legendPath + [b.legendKey]);
  }

  /** A path the last merge does not reach keeps a leaf, or stays absent. */
  lemma MergeKeeps(o: map<string, Tree>, lib: map<string, Tree>, path: seq<string>)
    requires Lookup(o, path).None? || IsLeaf(Lookup(o, path).value)
    requires NotReached(lib, path)
    ensures Lookup(Merge(o, lib), path) == Lookup(o, path)
  {
    if Lookup(o, path).None? {
      ExtendNoNew(map[], o, path);
      ExtendKeeps(Extend(map[], o), lib, path);
    } else {
      MergeLeftKept(o, lib, path);
    }
  }

  // ---------------------------------------------------------------------
  // The setters in sequence

  /** The stages of `Setters`, named. */
  lemma Stages(b: Backend, s: map<string, Tree>, hidden: bool, min: Option<Tree>, negative: bool, max: Option<Tree>)
    returns (o1: map<string, Tree>, o2: map<string, Tree>, o3: map<string, Tree>)
    requires Sound(b, s)
    ensures HideLegend(b, s, hidden) == Ok(o1) && ObjectAt(o1, b.axisPath)
    ensures SetMin(b, o1, min, negative) == Ok(o2) && ObjectAt(o2, b.axisPath)
    ensures SetMax(b, o2, max) == Ok(o3)
    ensures Setters(b, s, hidden, min, negative, max) == Ok(o3)
  {
    o1 := HideLegend(b, s, hidden).value;
    DivergeAtHead(b.legendPath + [b.legendKey], b.axisPath);
    o2 := SetMin(b, o1, min, negative).value;
    o3 := SetMax(b, o2, max).value;
  }

  /** On a sound start the setters never fail. */
  lemma SettersOk(b: Backend, s: map<string, Tree>, hidden: bool, min: Option<Tree>, negative: bool, max: Option<Tree>)
    requires Sound(b, s)
    ensures Setters(b, s, hidden, min, negative, max).Ok?
  {
    var o1, o2, o3 := Stages(b, s, hidden, min, negative, max);
  }

  lemma SettersLegend(b: Backend, s: map<string, Tree>, hidden: bool, min: Option<Tree>, negative: bool, max: Option<Tree>)
    requires Sound(b, s)
    ensures Setters(b, s, hidden, min, negative, max).Ok?
    ensures Lookup(Setters(b, s, hidden, min, negative, max).value, b.legendPath + [b.legendKey])
         == if hidden then Some(b.legendValue) else Lookup(s, b.legendPath + [b.legendKey])
  {
    var o1, o2, o3 := Stages(b, s, hidden, min, negative, max);
    LegendApart(b, "min");
    LegendApart(b, "max");
  }

  lemma SettersMin(b: Backend, s: map<string, Tree>, hidden: bool, min: Option<Tree>, negative: bool, max: Option<Tree>)
    requires Sound(b, s)
    ensures Setters(b, s, hidden, min, negative, max).Ok?
    ensures Lookup(Setters(b, s, hidden, min, negative, max).value, b.axisPath + ["min"]) == MinWritten(min, negative)
  {
    var o1, o2, o3 := Stages(b, s, hidden, min, negative, max);
    LegendApart(b, "min");
    DivergeSiblings(b.axisPath, "max", "min");
  }

  lemma SettersMax(b: Backend, s: map<string, Tree>, hidden: bool, min: Option<Tree>, negative: bool, max: Option<Tree>)
    requires Sound(b, s)
    ensures Setters(b, s, hidden, min, negative, max).Ok?
    ensures Lookup(Setters(b, s, hidden, min, negative, max).value, b.axisPath + ["max"]) == max
  {
    var o1, o2, o3 := Stages(b, s, hidden, min, negative, max);
    LegendApart(b, "max");
    DivergeSiblings(b.axisPath, "min", "max");
  }

  // ---------------------------------------------------------------------
  // Properties of jsOptions

  /** With fitting defaults every setter finds its object: building the options never fails. */
  lemma JsOptionsOk(b: Backend, series: seq<Normalize.Series>, hidden: bool, min: Option<Tree>, max: Option<Tree>,
                    library: Tree, chart: map<string, Tree>)
    requires Fits(b, chart)
    ensures JsOptions(b, series, hidden, min, max, library, chart).Ok?
  {
    SettersOk(b, Start(b, chart), hidden, min, Normalize.HasNegative(series), max);
  }

  /** `hideLegend` switches the legend off; otherwise the default setting stays,
    * unless the library sets it. */
  lemma Legend(b: Backend, series: seq<Normalize.Series>, hidden: bool, min: Option<Tree>, max: Option<Tree>,
               library: Tree, chart: map<string, Tree>)
    requires Fits(b, chart)
    requires NotReached(LibraryProps(library), b.legendPath + [b.legendKey])
    requires Lookup(Start(b, chart), b.legendPath + [b.legendKey]).None? ||
             IsLeaf(Lookup(Start(b, chart), b.legendPath + [b.legendKey]).value)
    ensures JsOptions(b, series, hidden, min, max, library, chart).Ok?
    ensures Lookup(JsOptions(b, series, hidden, min, max, library, chart).value, b.legendPath + [b.legendKey])
         == if hidden then Some(b.legendValue) else Lookup(Start(b, chart), b.legendPath + [b.legendKey])
  {
    var s := Start(b, chart);
    var negative := Normalize.HasNegative(series);
    SettersLegend(b, s, hidden, min, negative, max);
    MergeKeeps(Setters(b, s, hidden, min, negative, max).value, LibraryProps(library), b.legendPath + [b.legendKey]);
  }

  /** The min slot after the setters and a library merge that does not reach it. */
  lemma MinMerged(b: Backend, s: map<string, Tree>, hidden: bool, min: Option<Tree>, negative: bool, max: Option<Tree>,
                  lib: map<string, Tree>)
    requires Sound(b, s)
    requires min.Some? ==> IsLeaf(min.value)
    requires NotReached(lib, b.axisPath + ["min"])
    ensures Setters(b, s, hidden, min, negative, max).Ok?
    ensures Lookup(Merge(Setters(b, s, hidden, min, negative, max).value, lib), b.axisPath + ["min"])
         == MinWritten(min, negative)
  {
    SettersMin(b, s, hidden, min, negative, max);
    var o := Setters(b, s, hidden, min, negative, max).value;
    var w := MinWritten(min, negative);
    assert w.None? || IsLeaf(w.value);
    MergeKeeps(o, lib, b.axisPath + ["min"]);
  }

  /** The axis minimum: `opts.min` when given, else 0 when no value is
    * negative, else none; the library, merged last, is not consulted here. */
  lemma AxisMin(b: Backend, series: seq<Normalize.Series>, hidden: bool, min: Option<Tree>, max: Option<Tree>,
                library: Tree, chart: map<string, Tree>)
    requires Fits(b, chart)
    requires min.Some? ==> IsLeaf(min.value)
    requires NotReached(LibraryProps(library), b.axisPath + ["min"])
    ensures JsOptions(b, series, hidden, min, max, library, chart).Ok?
    ensures Lookup(JsOptions(b, series, hidden, min, max, library, chart).value, b.axisPath + ["min"])
         == if min.Some? then min
            else if !Normalize.HasNegative(series) then Some(Num(0.0))
            else None
  {
    MinMerged(b, Start(b, chart), hidden, min, Normalize.HasNegative(series), max, LibraryProps(library));
  }

  /** The axis maximum is `opts.max` when given and absent otherwise. */
  lemma AxisMax(b: Backend, series: seq<Normalize.Series>, hidden: bool, min: Option<Tree>, max: Option<Tree>,
                library: Tree, chart: map<string, Tree>)
    requires Fits(b, chart)
    requires max.Some? ==> IsLeaf(max.value)
    requires NotReached(LibraryProps(library), b.axisPath + ["max"])
    ensures JsOptions(b, series, hidden, min, max, library, chart).Ok?
    ensures Lookup(JsOptions(b, series, hidden, min, max, library, chart).value, b.axisPath + ["max"]) == max
  {
    var s := Start(b, chart);
    var negative := Normalize.HasNegative(series);
    SettersMax(b, s, hidden, min, negative, max);
    MergeKeeps(Setters(b, s, hidden, min, negative, max).value, LibraryProps(library), b.axisPath + ["max"]);
  }

  /** The library is merged last: whatever leaf it holds is what the chart gets. */
  lemma LibraryWins(b: Backend, series: seq<Normalize.Series>, hidden: bool, min: Option<Tree>, max: Option<Tree>,
                    library: Tree, chart: map<string, Tree>, path: seq<string>)
    requires JsOptions(b, series, hidden, min, max, library, chart).Ok?
    requires Lookup(LibraryProps(library), path).Some? && IsLeaf(Lookup(LibraryProps(library), path).value)
    ensures Lookup(JsOptions(b, series, hidden, min, max, library, chart).value, path) == Lookup(LibraryProps(library), path)
  {
    var o := Setters(b, Start(b, chart), hidden, min, Normalize.HasNegative(series), max).value;
    MergeRightWins(o, LibraryProps(library), path);
  }

  /** A chart kind's own options override the back end's defaults. */
  lemma ChartOptionsWin(b: Backend, chart: map<string, Tree>, path: seq<string>)
    requires Lookup(chart, path).Some? && IsLeaf(Lookup(chart, path).value)
    ensures Lookup(Start(b, chart), path) == Lookup(chart, path)
  {
    MergeRightWins(Merge(map[], b.defaults), chart, path);
  }

  /** A default the chart options do not reach is kept. */
  lemma DefaultsKept(b: Backend, chart: map<string, Tree>, path: seq<string>)
    requires Lookup(b.defaults, path).Some? && IsLeaf(Lookup(b.defaults, path).value)
    requires NotReached(chart, path)
    ensures Lookup(Start(b, chart), path) == Lookup(b.defaults, path)
  {
    MergeRightWins(map[], b.defaults, path);
    MergeLeftKept(Merge(map[], b.defaults), chart, path);
  }

  // ---------------------------------------------------------------------
  // The function `jsOptionsFunc` returns, as the source runs it

  /** Merge into fresh objects, write the setters into the options object in
    * place, and merge the library last; a setter's TypeError is the result. */
  method BuildOptions(b: Backend, series: seq<Normalize.Series>, opts: Normalize.Opts, chart: map<string, Tree>)
    returns (r: Result<Options>)
    ensures r.Ok? <==> JsOptions(b, series, opts.hideLegend, opts.min, opts.max, opts.library, chart).Ok?
    ensures r.Ok? ==> fresh(r.value) &&
                      r.value.root == JsOptions(b, series, opts.hideLegend, opts.min, opts.max, opts.library, chart).value
  {
    var options := MergeInto(map[], b.defaults);
    options := MergeInto(options.root, chart);
    ghost var o0 := options.root;
    assert o0 == Start(b, chart);
    var ok := true;
    if opts.hideLegend {
      ok := options.Set(b.legendPath, b.legendKey, b.legendValue);
      if !ok {
        return Err(TypeError);
      }
    }
    ghost var o1 := options.root;
    assert HideLegend(b, o0, opts.hideLegend) == Ok(o1);
    var negative := false;
    if opts.min.Some? {
      ok := options.Set(b.axisPath, "min", opts.min.value);
    } else {
      negative := Normalize.NegativeValues(series);
      if !negative {
        ok := options.Set(b.axisPath, "min", Num(0.0));
      }
    }
    if !ok {
      return Err(TypeError);
    }
    ghost var o2 := options.root;
    assert SetMin(b, o1, opts.min, Normalize.HasNegative(series)) == Ok(o2);
    if opts.max.Some? {
      ok := options.Set(b.axisPath, "max", opts.max.value);
      if !ok {
        return Err(TypeError);
      }
    }
    assert Setters(b, o0, opts.hideLegend, opts.min, Normalize.HasNegative(series), opts.max) == Ok(options.root);
    options := MergeInto(options.root, LibraryProps(opts.library));
    return Ok(options);
  }

  // ---------------------------------------------------------------------
  // Pie charts: no setters, only defaults, chart options and the library

  /** Highcharts' `renderPieChart`: `merge(defaultOptions, opts.library || {})`. */
  function HighchartsPieOptions(library: Tree): map<string, Tree> {
    Merge(HighchartsDefaults(), LibraryProps(library))
  }

  /** Google's `renderPieChart`: the chart area is narrowed before the library is merged. */
  function GooglePieOptions(library: Tree): map<string, Tree> {
    Merge(Merge(GoogleDefaults(), GooglePieArea()), LibraryProps(library))
  }

  /** A leaf of the library wins in both pie charts. */
  lemma PieLibraryWins(library: Tree, path: seq<string>)
    requires Lookup(LibraryProps(library), path).Some? && IsLeaf(Lookup(LibraryProps(library), path).value)
    ensures Lookup(HighchartsPieOptions(library), path) == Lookup(LibraryProps(library), path)
    ensures Lookup(GooglePieOptions(library), path) == Lookup(LibraryProps(library), path)
  {
    MergeRightWins(HighchartsDefaults(), LibraryProps(library), path);
    MergeRightWins(Merge(GoogleDefaults(), GooglePieArea()), LibraryProps(library), path);
  }

  /** Unless the library says otherwise, the Google pie chart area starts 10% down. */
  lemma GooglePieTop(library: Tree)
    requires NotReached(LibraryProps(library), ["chartArea", "top"])
    ensures Lookup(GooglePieOptions(library), ["chartArea", "top"]) == Some(Str("10%"))
  {
    var path := ["chartArea", "top"];
    var area := GooglePieArea();
    assert Lookup(area, path) == Lookup(area["chartArea"].props, ["top"]) by {
      assert path[1..] == ["top"];
    }
    MergeRightWins(GoogleDefaults(), area, path);
    MergeLeftKept(Merge(GoogleDefaults(), area), LibraryProps(library), path);
  }

  // ---------------------------------------------------------------------
  // The concrete back ends fit

  /** `path` leads through plain objects to an object with no "min" or "max" slot. */
  predicate Room(m: map<string, Tree>, path: seq<string>) {
    ObjectAt(m, path) && Transparent(m, path) &&
    Lookup(m, path + ["min"]).None? && Lookup(m, path + ["max"]).None?
  }

  /** `path` is left alone by `m`: at most plain objects lie along it. */
  predicate Clear(m: map<string, Tree>, path: seq<string>) {
    Transparent(m, path) && Lookup(m, path + ["min"]).None? && Lookup(m, path + ["max"]).None?
  }

  /** The slots one level down hold no "min" or "max". */
  lemma RoomAt(m: map<string, Tree>, k: string, p: map<string, Tree>)
    requires k in m && m[k] == Obj(p) && "min" !in p && "max" !in p
    ensures Room(m, [k])
  {
    assert [k] + ["min"] == [k, "min"];
    assert [k] + ["max"] == [k, "max"];
  }

  lemma RoomBelow(m: map<string, Tree>, k: string, j: string, p: map<string, Tree>)
    requires k in m && m[k].Obj? && Room(m[k].props, [j])
    ensures Room(m, [k, j])
  {
    assert [k, j][1..] == [j];
    assert ([k, j] + ["min"])[1..] == [j] + ["min"];
    assert ([k, j] + ["max"])[1..] == [j] + ["max"];
  }

  lemma ClearAbsent(m: map<string, Tree>, k: string, path: seq<string>)
    requires path != [] && path[0] == k && k !in m
    ensures Clear(m, path)
  {
  }

  lemma FitsFrom(b: Backend, chart: map<string, Tree>)
    requires b.legendPath != [] && b.axisPath != [] && b.legendPath[0] != b.axisPath[0] && IsLeaf(b.legendValue)
    requires ObjectAt(b.defaults, b.legendPath) && Transparent(b.defaults, b.legendPath) && Transparent(chart, b.legendPath)
    requires Room(b.defaults, b.axisPath) && Clear(chart, b.axisPath)
    ensures Fits(b, chart)
  {
    assert Start(b, chart) == Merge(Merge(map[], b.defaults), chart);
    StartObject(b.defaults, chart, b.legendPath);
    StartObject(b.defaults, chart, b.axisPath);
    StartEmpty(b.defaults, chart, b.axisPath + ["min"]);
    StartEmpty(b.defaults, chart, b.axisPath + ["max"]);
  }

  lemma HighchartsRoom()
    ensures Room(HighchartsDefaults(), ["legend"]) && Room(HighchartsDefaults(), ["yAxis"])
  {
    var d := HighchartsDefaults();
    RoomAt(d, "legend", Leaf("borderWidth", Num(0.0)));
    RoomAt(d, "yAxis", map["title" := Obj(Leaf("text", Null)), "labels" := FontStyle("12px")]);
  }

  lemma HighchartsFits(chart: map<string, Tree>)
    requires chart == map[] || chart == HighchartsAreaOptions()
    ensures Fits(Highcharts(), chart)
  {
    HighchartsRoom();
    ClearAbsent(chart, "legend", ["legend"]);
    ClearAbsent(chart, "yAxis", ["yAxis"]);
    FitsFrom(Highcharts(), chart);
  }

  lemma GoogleRoom()
    ensures Room(GoogleDefaults(), ["legend"])
    ensures Room(GoogleDefaults(), ["vAxis", "viewWindow"]) && Room(GoogleDefaults(), ["hAxis", "viewWindow"])
  {
    var d := GoogleDefaults();
    RoomAt(d, "legend", map["textStyle" := TextStyle("#444"), "alignment" := Str("center"), "position" := Str("right")]);
    var v := map["textStyle" := TextStyle("#666"), "baselineColor" := Str("#ccc"), "viewWindow" := Obj(map[])];
    RoomAt(v, "viewWindow", map[]);
    RoomBelow(d, "vAxis", "viewWindow", v);
    var h := map["textStyle" := TextStyle("#666"), "gridlines" := Obj(Leaf("color", Str("transparent"))),
                 "baselineColor" := Str("#ccc"), "viewWindow" := Obj(map[])];
    RoomAt(h, "viewWindow", map[]);
    RoomBelow(d, "hAxis", "viewWindow", h);
  }

  lemma GoogleFits(chart: map<string, Tree>)
    requires chart == map[] || chart == GoogleAreaOptions()
    ensures Fits(Google(), chart)
  {
    GoogleRoom();
    ClearAbsent(chart, "legend", ["legend"]);
    ClearAbsent(chart, "vAxis", ["vAxis", "viewWindow"]);
    FitsFrom(Google(), chart);
  }

  lemma GoogleBarFits()
    ensures Fits(GoogleBar(), GoogleBarOptions())
  {
    GoogleRoom();
    var c := GoogleBarOptions();
    ClearAbsent(c, "legend", ["legend"]);
    var g := Leaf("gridlines", Obj(Leaf("color", Str("#ccc"))));
    ClearAbsent(g, "viewWindow", ["viewWindow"]);
    assert Clear(c, ["hAxis", "viewWindow"]) by {
      assert ["hAxis", "viewWindow"][1..] == ["viewWindow"];
      assert (["hAxis", "viewWindow"] + ["min"])[1..] == ["viewWindow"] + ["min"];
      assert (["hAxis", "viewWindow"] + ["max"])[1..] == ["viewWindow"] + ["max"];
    }
    FitsFrom(GoogleBar(), c);
  }

  /** Copying into `{}` keeps a path of plain objects a path of plain objects. */
  lemma {:induction false} CopyKeepsPath(s: map<string, Tree>, path: seq<string>)
    requires ObjectAt(s, path) && Transparent(s, path)
    ensures ObjectAt(Extend(map[], s), path) && Transparent(Extend(map[], s), path)
    decreases |path|
  {
    var k := path[0];
    ExtendAt(map[], s, k);
    AbsorbObject(Undefined, s[k]);
    if |path| > 1 {
      CopyKeepsPath(s[k].props, path[1..]);
    }
  }

  lemma StartObject(d: map<string, Tree>, chart: map<string, Tree>, path: seq<string>)
    requires ObjectAt(d, path) && Transparent(d, path) && Transparent(chart, path)
    ensures ObjectAt(Merge(Merge(map[], d), chart), path)
  {
    assert Extend(map[], map[]) == map[];
    var m1 := Extend(map[], d);
    CopyKeepsPath(d, path);
    CopyKeepsPath(m1, path);
    ExtendKeepsObject(Extend(map[], m1), chart, path);
  }

  lemma StartEmpty(d: map<string, Tree>, chart: map<string, Tree>, path: seq<string>)
    requires Lookup(d, path).None? && Lookup(chart, path).None?
    ensures Lookup(Merge(Merge(map[], d), chart), path).None?
  {
    assert Extend(map[], map[]) == map[];
    var m1 := Extend(map[], d);
    ExtendNoNew(map[], d, path);
    ExtendNoNew(map[], m1, path);
    ExtendNoNew(Extend(map[], m1), chart, path);
  }
}
