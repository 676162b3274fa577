/**
 * Series normalisation: `processSeries`, `negativeValues` and
 * `processPieData` of chartkick.js.
 *
 * The functions say what each operation computes; the methods follow the
 * source's loops and are proved to compute exactly that.
 */
module Normalize {
  import opened Wrappers
  import opened Coerce
  import Sorting
  import Trees

  /** One processed series: its name as given and its coerced points. */
  datatype Series = Series(name: Raw, data: seq<(Key, Float)>)

  /** The chart options object `opts` as far as the core reads or writes it. */
  class Opts {
    var hideLegend: bool
    var min: Option<Trees.Tree> // Some when `"min" in opts`
    var max: Option<Trees.Tree> // Some when `"max" in opts`
    var library: Trees.Tree     // `opts.library`, Undefined when absent

    constructor (min: Option<Trees.Tree>, max: Option<Trees.Tree>, library: Trees.Tree)
      ensures this.min == min && this.max == max && this.library == library
      ensures !hideLegend
    {
      this.min := min;
      this.max := max;
      this.library := library;
      hideLegend := false;
    }
  }

  // ---------------------------------------------------------------------
  // Shape detection

  /** The input is one series unless it is an array whose first element is a
    * non-array object (null and Dates count, `typeof` says "object"). */
  predicate IsSingle(series: Raw) {
    !(series.RList? && |series.items| > 0 &&
      (series.items[0].RNull? || series.items[0].RDate? || series.items[0].RObj?))
  }

  /** The series objects the loop visits: `[{name: "Value", data: series}]`
    * for a single series, the array itself otherwise. */
  function Entries(series: Raw): (r: seq<Raw>)
    ensures IsSingle(series) ==> r == [RObj([("name", RStr("Value")), ("data", series)])]
    ensures !IsSingle(series) ==> r == series.items
  {
    if IsSingle(series) then [RObj([("name", RStr("Value")), ("data", series)])] else series.items
  }

  /** `series[i].name` as the renderers read it afterwards. */
  function NameOf(e: Raw): Raw {
    if e.RObj? then Lookup(e.entries, "name") else RUndefined
  }

  // ---------------------------------------------------------------------
  // The pure specification

  /** `[toStr(d[0]), toFloat(d[1])]`, or `[toDate(d[0]), toFloat(d[1])]` when `time`. */
  function PointOf(d: Raw, time: bool, host: Host): (r: Result<(Key, Float)>)
    ensures r.Err? <==> d.RNull? || d.RUndefined? || (time && ToDate(Elem(d, 0).value, host).Err?)
    ensures r.Ok? ==> r.value.1 == ToFloat(Elem(d, 1).value, host)
    ensures r.Ok? && !time ==> r.value.0 == Label(ToStr(Elem(d, 0).value, host))
    ensures r.Ok? && time ==> r.value.0 == When(ToDate(Elem(d, 0).value, host).value)
  {
    var k :- Elem(d, 0);
    var key :- if time then (match ToDate(k, host) case Ok(st) => Ok(When(st)) case Err(e) => Err(e))
               else Ok(Label(ToStr(k, host)));
    Ok((key, ToFloat(Elem(d, 1).value, host)))
  }

  function PointFn(time: bool, host: Host): Raw -> Result<(Key, Float)> {
    d => PointOf(d, time, host)
  }

  /** The points of one series in input order; the first failing point fails them all. */
  function PointsOf(data: seq<Raw>, time: bool, host: Host): Result<seq<(Key, Float)>> {
    MapResult(data, PointFn(time, host))
  }

  /** One series object: its data run through `toArr` and the point coercions,
    * sorted by time when `time`, and written back (a primitive cannot take it). */
  function SeriesOf(e: Raw, time: bool, host: Host): (r: Result<Series>)
    ensures r.Ok? ==> r.value.name == NameOf(e)
    ensures r.Ok? ==> e.RObj? || e.RList? || e.RDate?
    ensures e.RNull? || e.RUndefined? ==> r.Err?
  {
    var raw :- Prop(e, "data");
    var points :- PointsOf(ToArr(raw), time, host);
    var data :- if time then SortByTime(points) else Ok(points);
    if e.RObj? || e.RList? || e.RDate? then Ok(Series(NameOf(e), data)) else Err(TypeError)
  }

  function SeriesFn(time: bool, host: Host): Raw -> Result<Series> {
    e => SeriesOf(e, time, host)
  }

  lemma SeriesFnIs(time: bool, host: Host, e: Raw)
    ensures SeriesFn(time, host)(e) == SeriesOf(e, time, host)
  {
  }

  function AllSeries(entries: seq<Raw>, time: bool, host: Host): Result<seq<Series>> {
    MapResult(entries, SeriesFn(time, host))
  }

  /** `processSeries(series, opts, time)`: the processed series. */
  function ProcessSeries(series: Raw, time: bool, host: Host): Result<seq<Series>> {
    AllSeries(Entries(series), time, host)
  }

  // ---------------------------------------------------------------------
  // Properties of processSeries

  /** A single series is wrapped as `[{name: "Value", data: series}]`: it
    * comes out as exactly one series named "Value", holding one point per
    * entry of `toArr(series)`. */
  lemma SingleShape(series: Raw, time: bool, host: Host)
    requires IsSingle(series) && ProcessSeries(series, time, host).Ok?
    ensures |ProcessSeries(series, time, host).value| == 1
    ensures ProcessSeries(series, time, host).value[0].name == RStr("Value")
    ensures |ProcessSeries(series, time, host).value[0].data| == |ToArr(series)|
  {
    var e := RObj([("name", RStr("Value")), ("data", series)]);
    var r := ProcessSeries(series, time, host);
    assert Entries(series) == [e];
    SeriesFnIs(time, host, e);
    assert r.value[0] == SeriesOf(e, time, host).value;
    assert Prop(e, "data") == Ok(series);
    LengthKept(e, time, host);
  }

  /** An array of series objects is used as it is: the series keep their
    * count, their names, and one point per entry of their own data. */
  lemma MultiShape(series: Raw, time: bool, host: Host)
    requires !IsSingle(series) && ProcessSeries(series, time, host).Ok?
    ensures |ProcessSeries(series, time, host).value| == |series.items|
    ensures forall i :: 0 <= i < |series.items| ==>
              ProcessSeries(series, time, host).value[i].name == NameOf(series.items[i])
    ensures forall i :: 0 <= i < |series.items| ==>
              !series.items[i].RNull? && !series.items[i].RUndefined? &&
              |ProcessSeries(series, time, host).value[i].data| == |InputData(series.items[i])|
  {
    var r := ProcessSeries(series, time, host).value;
    forall i | 0 <= i < |series.items|
      ensures !series.items[i].RNull? && !series.items[i].RUndefined? && |r[i].data| == |InputData(series.items[i])|
    {
      assert SeriesOf(series.items[i], time, host).Ok?;
      LengthKept(series.items[i], time, host);
    }
  }

  /** The data of a series object, as `toArr` lists it. */
  function InputData(e: Raw): seq<Raw>
    requires !e.RNull? && !e.RUndefined?
  {
    ToArr(Prop(e, "data").value)
  }

  /** Every processed series has as many points as `toArr` gave for its data. */
  lemma LengthKept(e: Raw, time: bool, host: Host)
    requires SeriesOf(e, time, host).Ok?
    ensures |SeriesOf(e, time, host).value.data| == |InputData(e)|
  {
  }

  /** Without `time`, the points are the coerced input points in input order. */
  lemma CategoryOrderKept(e: Raw, host: Host)
    requires SeriesOf(e, false, host).Ok?
    ensures forall j :: 0 <= j < |InputData(e)| ==>
              SeriesOf(e, false, host).value.data[j] == (Label(ToStr(Elem(InputData(e)[j], 0).value, host)),
                                                      ToFloat(Elem(InputData(e)[j], 1).value, host))
  {
    var pts := PointsOf(InputData(e), false, host).value;
    forall j | 0 <= j < |InputData(e)|
      ensures pts[j] == (Label(ToStr(Elem(InputData(e)[j], 0).value, host)),
                         ToFloat(Elem(InputData(e)[j], 1).value, host))
    {
      assert pts[j] == PointOf(InputData(e)[j], false, host).value;
    }
  }

  /** With `time`, the points are a permutation of the coerced input points,
    * in non-decreasing time order when every key is a valid date. */
  lemma TimeSorted(e: Raw, host: Host)
    requires SeriesOf(e, true, host).Ok?
    ensures var pts := PointsOf(InputData(e), true, host).value;
            multiset(SeriesOf(e, true, host).value.data) == multiset(pts)
    ensures var pts := PointsOf(InputData(e), true, host).value;
            (forall j :: 0 <= j < |pts| ==> ValidTime(pts[j])) ==>
              Sorting.SortedBy(SeriesOf(e, true, host).value.data, TimeOf<Float>)
  {
    var pts := PointsOf(InputData(e), true, host).value;
    if forall j :: 0 <= j < |pts| ==> ValidTime(pts[j]) {
      SortByTimeSorted(pts);
    }
  }

  // ---------------------------------------------------------------------
  // The loops

  /** The inner loop of `processSeries`: push one coerced pair per input point. */
  method CoercePoints(data: seq<Raw>, time: bool, host: Host) returns (r: Result<seq<(Key, Float)>>)
    ensures r == PointsOf(data, time, host)
  {
    r := Ok([]);
    var j := 0;
    while j < |data| && r.Ok?
      invariant 0 <= j <= |data|
      invariant PointsOf(data[..j], time, host) == r
    {
      var p := PointOf(data[j], time, host);
      MapResultNext(data, j, PointFn(time, host));
      r := if p.Err? then Err(p.error) else Ok(r.value + [p.value]);
      j := j + 1;
    }
    MapResultDone(data, j, PointFn(time, host));
  }

  /** `processSeries` as the source writes it: set `opts.hideLegend`, then
    * compute each series' new data in a loop; the series come back as new
    * values rather than written into the caller's series objects. */
  method ProcessSeriesLoop(series: Raw, opts: Opts, time: bool, host: Host) returns (r: Result<seq<Series>>)
    modifies opts
    ensures opts.hideLegend == IsSingle(series)
    ensures opts.min == old(opts.min) && opts.max == old(opts.max) && opts.library == old(opts.library)
    ensures r == ProcessSeries(series, time, host)
  {
    opts.hideLegend := IsSingle(series);
    r := SeriesLoop(Entries(series), time, host);
  }

  /** The outer loop of `processSeries` over the series objects. */
  method SeriesLoop(entries: seq<Raw>, time: bool, host: Host) returns (r: Result<seq<Series>>)
    ensures r == AllSeries(entries, time, host)
  {
    r := Ok([]);
    var i := 0;
    while i < |entries| && r.Ok?
      invariant 0 <= i <= |entries|
      invariant AllSeries(entries[..i], time, host) == r
    {
      var s := SeriesStep(entries[i], time, host);
      SeriesFnIs(time, host, entries[i]);
      MapResultNext(entries, i, SeriesFn(time, host));
      r := if s.Err? then Err(s.error) else Ok(r.value + [s.value]);
      i := i + 1;
    }
    MapResultDone(entries, i, SeriesFn(time, host));
  }

  /** One turn of the outer loop: read `data`, coerce it, sort it, write it back. */
  method SeriesStep(e: Raw, time: bool, host: Host) returns (r: Result<Series>)
    ensures r == SeriesOf(e, time, host)
  {
    var raw := Prop(e, "data");
    if raw.Err? {
      return Err(raw.error);
    }
    var data := ToArrLoop(raw.value);
    var points := CoercePoints(data, time, host);
    if points.Err? {
      return Err(points.error);
    }
    var sorted := if time then SortByTime(points.value) else Ok(points.value);
    if sorted.Err? {
      return Err(sorted.error);
    }
    if e.RObj? || e.RList? || e.RDate? {
      r := Ok(Series(NameOf(e), sorted.value));
    } else {
      r := Err(TypeError);  // assigning `data` on a primitive throws in strict mode
    }
  }

  // ---------------------------------------------------------------------
  // negativeValues

  /** Some point of some series has a value below zero. */
  predicate HasNegative(series: seq<Series>) {
    exists i, j :: 0 <= i < |series| && 0 <= j < |series[i].data| && IsNegative(series[i].data[j].1)
  }

  /** `negativeValues(series)`: the nested loops return on the first negative value. */
  method NegativeValues(series: seq<Series>) returns (found: bool)
    ensures found <==> HasNegative(series)
  {
    var i := 0;
    while i < |series|
      invariant 0 <= i <= |series|
      invariant forall a, b :: 0 <= a < i && 0 <= b < |series[a].data| ==> !IsNegative(series[a].data[b].1)
    {
      var data := series[i].data;
      var j := 0;
      while j < |data|
        invariant 0 <= j <= |data|
        invariant forall b :: 0 <= b < j ==> !IsNegative(data[b].1)
      {
        if IsNegative(data[j].1) {
          return true;
        }
        j := j + 1;
      }
      i := i + 1;
    }
    return false;
  }

  /** NaN is never below zero: a series of NaN values has no negative value. */
  lemma NaNIsNotNegative(series: seq<Series>)
    requires forall i, j :: 0 <= i < |series| && 0 <= j < |series[i].data| ==> series[i].data[j].1 == NaN
    ensures !HasNegative(series)
  {
  }

  // ---------------------------------------------------------------------
  // processPieData

  /** `[toStr(d[0]), toFloat(d[1])]` for one slice. */
  function SliceOf(d: Raw, host: Host): (r: Result<(string, Float)>)
    ensures r.Err? <==> d.RNull? || d.RUndefined?
    ensures r.Ok? ==> r.value == (ToStr(Elem(d, 0).value, host), ToFloat(Elem(d, 1).value, host))
  {
    var k :- Elem(d, 0);
    Ok((ToStr(k, host), ToFloat(Elem(d, 1).value, host)))
  }

  /** `processPieData`: every entry of `toArr(data)` becomes a name and a number, in order. */
  function PieData(data: Raw, host: Host): (r: Result<seq<(string, Float)>>)
    ensures r.Ok? <==> forall i :: 0 <= i < |ToArr(data)| ==> SliceOf(ToArr(data)[i], host).Ok?
    ensures r.Ok? ==> |r.value| == |ToArr(data)|
    ensures r.Ok? ==> forall i :: 0 <= i < |r.value| ==> r.value[i] == SliceOf(ToArr(data)[i], host).value
  {
    Slices(ToArr(data), host)
  }

  function SliceFn(host: Host): Raw -> Result<(string, Float)> {
    d => SliceOf(d, host)
  }

  function Slices(items: seq<Raw>, host: Host): Result<seq<(string, Float)>> {
    MapResult(items, SliceFn(host))
  }

  /** `processPieData` as the source writes it: one pass over the entries of
    * `toArr(data)` in order, stopping at the first entry that throws; the
    * converted entries are collected into a new sequence. */
  method ProcessPieData(data: Raw, host: Host) returns (r: Result<seq<(string, Float)>>)
    ensures r == PieData(data, host)
  {
    var items := ToArrLoop(data);
    r := Ok([]);
    var i := 0;
    while i < |items| && r.Ok?
      invariant 0 <= i <= |items|
      invariant Slices(items[..i], host) == r
    {
      var s := SliceOf(items[i], host);
      MapResultNext(items, i, SliceFn(host));
      r := if s.Err? then Err(s.error) else Ok(r.value + [s.value]);
      i := i + 1;
    }
    MapResultDone(items, i, SliceFn(host));
  }
}
