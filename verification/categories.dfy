/**
 * The category table the renderers build from processed series: `rows` in
 * Highcharts' `renderColumnChart` and in Google's `createDataTable`.
 *
 * `rows` is a JavaScript array used as a dictionary from a category key to a
 * row (`new Array(series.length)`, one cell per series).  The categories are
 * its own keys in `for...in` order.  Because `rows` is an array, a key that
 * names an inherited property, or "length", does not behave like the other
 * keys: `Place` says what the source does and `PlaceIntended` what a
 * dictionary would do.
 */
module Categories {
  import opened Wrappers
  import opened Coerce
  import Text
  import Sorting
  import Normalize

  /** The own keys of `rows` in creation order, and the row under each
    * (`None` is a hole left by `new Array(n)`). */
  datatype Table = Table(keys: seq<string>, cells: map<string, seq<Option<Float>>>)

  ghost predicate Distinct(s: seq<string>) {
    forall i, j :: 0 <= i < j < |s| ==> s[i] != s[j]
  }

  /** Every key listed once, exactly the listed keys have a row, every row `n` cells long. */
  ghost predicate Valid(t: Table, n: nat) {
    && Distinct(t.keys)
    && (forall k :: k in t.cells <==> k in t.keys)
    && (forall k :: k in t.cells ==> |t.cells[k]| == n)
  }

  const Empty: Table := Table([], map[])

  /** `new Array(n)`. */
  function Holes(n: nat): (r: seq<Option<Float>>)
    ensures |r| == n && forall i :: 0 <= i < n ==> r[i].None?
  {
    seq(n, _ => None)
  }

  // ---------------------------------------------------------------------
  // One assignment `rows[key][i] = v`

  /** The assignment on a dictionary: the key's row is created, all holes,
    * on its first use, and then cell `i` is set. */
  function PlaceIntended(t: Table, n: nat, i: nat, key: string, v: Float): (r: Table)
    requires Valid(t, n) && i < n
    ensures Valid(r, n)
    ensures r.keys == if key in t.cells then t.keys else t.keys + [key]
    ensures key in r.cells && r.cells[key][i] == Some(v)
    ensures forall k, j :: k in r.cells && 0 <= j < n && (k != key || j != i) ==>
              r.cells[k][j] == (if k in t.cells then t.cells[k][j] else None)
  {
    if key in t.cells then Table(t.keys, t.cells[key := t.cells[key][i := Some(v)]])
    else Table(t.keys + [key], t.cells[key := Holes(n)[i := Some(v)]])
  }

  /** Some own key of `rows` is an array index, so `rows.length` is not 0. */
  predicate HasIndexKey(keys: seq<string>) {
    exists j :: 0 <= j < |keys| && IsArrayIndex(keys[j])
  }

  /** The assignment as the source performs it on an array.
    *
    * The key "length" reads the array's length.  When it is 0 the source sets
    * `rows.length = new Array(n)`, which throws a RangeError for `n >= 2`
    * (the array converts to NaN); otherwise the write `rows.length[i] = v`
    * to a number throws a TypeError in strict mode.  A key in `inherited`
    * (a truthy property `rows` inherits, such as "constructor") makes the
    * source skip the row creation: the write lands on the inherited object
    * and `rows` is left as it was. */
  function Place(t: Table, n: nat, i: nat, key: string, v: Float, inherited: set<string>): (r: Result<Table>)
    requires Valid(t, n) && i < n
    ensures r.Err? <==> key == "length"
    ensures r.Ok? ==> Valid(r.value, n)
    ensures r.Ok? && (key in t.cells || key !in inherited) ==> r.value == PlaceIntended(t, n, i, key, v)
    ensures r.Ok? && key !in t.cells && key in inherited ==> r.value == t
  {
    if key == "length" then Err(if n >= 2 && !HasIndexKey(t.keys) then RangeError else TypeError)
    else if key in t.cells || key !in inherited then Ok(PlaceIntended(t, n, i, key, v))
    else Ok(t)
  }

  // ---------------------------------------------------------------------
  // The writes of the nested loops

  /** `rows[key][series] = value`, the key still to be computed (computing it can throw). */
  datatype Write = Write(series: nat, key: Result<string>, value: Float)

  predicate Within(w: seq<Write>, n: nat) {
    forall j :: 0 <= j < |w| ==> w[j].series < n
  }

  /** Every key computes, none is "length" and none names an inherited property. */
  predicate Plain(w: seq<Write>, inherited: set<string>) {
    forall j :: 0 <= j < |w| ==> w[j].key.Ok? && w[j].key.value != "length" && w[j].key.value !in inherited
  }

  /** `rows` after the writes `w` in order, as the source performs them; the
    * first exception ends the loops. */
  function FillAll(w: seq<Write>, n: nat, inherited: set<string>): (r: Result<Table>)
    requires Within(w, n)
    ensures r.Ok? ==> Valid(r.value, n)
    decreases |w|
  {
    if w == [] then Ok(Empty)
    else
      var x := w[|w| - 1];
      var t :- FillAll(w[..|w| - 1], n, inherited);
      var key :- x.key;
      Place(t, n, x.series, key, x.value, inherited)
  }

  /** The keys of `w`, in order. */
  function KeySeq(w: seq<Write>): (r: seq<string>)
    requires forall j :: 0 <= j < |w| ==> w[j].key.Ok?
    ensures |r| == |w| && forall j :: 0 <= j < |w| ==> r[j] == w[j].key.value
  {
    seq(|w|, j requires 0 <= j < |w| => w[j].key.value)
  }

  /** `rows` after the writes `w` if it were a dictionary. */
  function FillIntended(w: seq<Write>, n: nat): (r: Table)
    requires Within(w, n) && forall j :: 0 <= j < |w| ==> w[j].key.Ok?
    ensures Valid(r, n)
    decreases |w|
  {
    if w == [] then Empty
    else
      var x := w[|w| - 1];
      PlaceIntended(FillIntended(w[..|w| - 1], n), n, x.series, x.key.value, x.value)
  }

  /** The distinct elements of `s` in the order of their first occurrence. */
  function Dedup(s: seq<string>): (r: seq<string>)
    ensures Distinct(r)
    ensures forall k :: k in r <==> k in s
    decreases |s|
  {
    if s == [] then []
    else
      var d := Dedup(s[..|s| - 1]);
      var k := s[|s| - 1];
      assert s == s[..|s| - 1] + [k];
      if k in d then d else d + [k]
  }

  /** The value of the last write by series `i` under key `k`, if there is one. */
  function Last(w: seq<Write>, i: nat, k: string): Option<Float>
    decreases |w|
  {
    if w == [] then None
    else if w[|w| - 1].series == i && w[|w| - 1].key == Ok(k) then Some(w[|w| - 1].value)
    else Last(w[..|w| - 1], i, k)
  }

  /** Every series has label keys, as `processSeries(data, opts, false)` leaves them. */
  predicate Labelled(series: seq<Normalize.Series>) {
    forall i, j :: 0 <= i < |series| && 0 <= j < |series[i].data| ==> series[i].data[j].0.Label?
  }

  /** The key of a point: the label itself in a category table; in a datetime
    * table `d[0].getTime()` used as a property name, which throws unless
    * `d[0]` is a Date. */
  function KeyOf(k: Key, datetime: bool): (r: Result<string>)
    requires !datetime ==> k.Label?
    ensures !datetime ==> r == Ok(k.s)
    ensures datetime ==> (r.Ok? <==> IsDateKey(k))
  {
    if !datetime then Ok(k.s)
    else match k
      case When(Date(At(ms))) => Ok(Text.IntToDecimal(ms))
      case When(Date(Invalid)) => Ok("NaN")
      case _ => Err(TypeError)
  }

  /** The writes of series `i`, one per point, in order. */
  function SeriesWrites(i: nat, data: seq<(Key, Float)>, datetime: bool): (r: seq<Write>)
    requires !datetime ==> forall j :: 0 <= j < |data| ==> data[j].0.Label?
    ensures |r| == |data|
    ensures forall j :: 0 <= j < |data| ==> r[j] == Write(i, KeyOf(data[j].0, datetime), data[j].1)
  {
    seq(|data|, j requires 0 <= j < |data| => Write(i, KeyOf(data[j].0, datetime), data[j].1))
  }

  /** The writes of the nested loops: series by series, point by point. */
  function Writes(series: seq<Normalize.Series>, datetime: bool): (r: seq<Write>)
    requires !datetime ==> Labelled(series)
    ensures Within(r, |series|)
    decreases |series|
  {
    if series == [] then []
    else
      var i := |series| - 1;
      Writes(series[..i], datetime) + SeriesWrites(i, series[i].data, datetime)
  }

  // ---------------------------------------------------------------------
  // Categories and the output tables

  /** The own properties of `rows` in creation order. */
  function Entries(t: Table): (r: seq<(string, seq<Option<Float>>)>)
    requires forall j :: 0 <= j < |t.keys| ==> t.keys[j] in t.cells
    ensures |r| == |t.keys| && forall j :: 0 <= j < |r| ==> r[j] == (t.keys[j], t.cells[t.keys[j]])
  {
    seq(|t.keys|, j requires 0 <= j < |t.keys| => (t.keys[j], t.cells[t.keys[j]]))
  }

  function Names<V>(e: seq<(string, V)>): (r: seq<string>)
    ensures |r| == |e| && forall j :: 0 <= j < |e| ==> r[j] == e[j].0
  {
    seq(|e|, j requires 0 <= j < |e| => e[j].0)
  }

  /** `categories`: the own keys of `rows` as `for...in` visits them, each once. */
  function Categories(t: Table): (r: seq<string>)
    requires forall j :: 0 <= j < |t.keys| ==> t.keys[j] in t.cells
    ensures multiset(r) == multiset(t.keys)
    ensures forall j :: 0 <= j < |r| ==> r[j] in t.cells
  {
    VisitedKeys(t);
    Names(ForInOrder(Entries(t)))
  }

  lemma VisitedKeys(t: Table)
    requires forall j :: 0 <= j < |t.keys| ==> t.keys[j] in t.cells
    ensures multiset(Names(ForInOrder(Entries(t)))) == multiset(t.keys)
    ensures forall j :: 0 <= j < |Names(ForInOrder(Entries(t)))| ==> Names(ForInOrder(Entries(t)))[j] in t.cells
  {
    NamesMultiset(ForInOrder(Entries(t)), Entries(t));
    NamesEntries(t);
    KeysIn(Names(ForInOrder(Entries(t))), t);
  }

  lemma NamesEntries(t: Table)
    requires forall j :: 0 <= j < |t.keys| ==> t.keys[j] in t.cells
    ensures Names(Entries(t)) == t.keys
  {
  }

  lemma KeysIn(r: seq<string>, t: Table)
    requires forall j :: 0 <= j < |t.keys| ==> t.keys[j] in t.cells
    requires multiset(r) == multiset(t.keys)
    ensures forall j :: 0 <= j < |r| ==> r[j] in t.cells
  {
    forall j | 0 <= j < |r| ensures r[j] in t.cells {
      assert r[j] in multiset(t.keys);
    }
  }

  /** `rows[c][i] || 0`: a hole, NaN and 0 all become 0. */
  function Cell(c: Option<Float>): (r: Float)
    ensures r != NaN
    ensures c.Some? && !Falsy(c.value) ==> r == c.value
    ensures c.None? || Falsy(c.value) ==> r == Fin(0.0)
  {
    if c.None? || Falsy(c.value) then Fin(0.0) else c.value
  }

  /** The data of series `i` in Highcharts' `newSeries`: one number per
    * category, never NaN; a category the series has a truthy value for keeps
    * it, a hole or a falsy value reads 0. */
  function Values(t: Table, n: nat, cats: seq<string>, i: nat): (r: seq<Float>)
    requires Valid(t, n) && i < n && forall j :: 0 <= j < |cats| ==> cats[j] in t.cells
    ensures |r| == |cats|
    ensures forall j :: 0 <= j < |cats| ==> r[j] != NaN
    ensures forall j :: 0 <= j < |cats| && t.cells[cats[j]][i].Some? && !Falsy(t.cells[cats[j]][i].value) ==>
              r[j] == t.cells[cats[j]][i].value
    ensures forall j :: 0 <= j < |cats| && (t.cells[cats[j]][i].None? || Falsy(t.cells[cats[j]][i].value)) ==>
              r[j] == Fin(0.0)
  {
    seq(|cats|, j requires 0 <= j < |cats| => Cell(t.cells[cats[j]][i]))
  }

  /** Highcharts' `newSeries`: per series its name and its values. */
  function NewSeries(series: seq<Normalize.Series>, t: Table, cats: seq<string>): (r: seq<(Raw, seq<Float>)>)
    requires Valid(t, |series|) && forall j :: 0 <= j < |cats| ==> cats[j] in t.cells
    ensures |r| == |series|
    ensures forall i :: 0 <= i < |series| ==> r[i] == (series[i].name, Values(t, |series|, cats, i))
  {
    seq(|series|, i requires 0 <= i < |series| => (series[i].name, Values(t, |series|, cats, i)))
  }

  /** What Highcharts' `renderColumnChart` sets as `xAxis.categories` and `series`. */
  function ColumnChart(series: seq<Normalize.Series>, inherited: set<string>)
    : Result<(seq<string>, seq<(Raw, seq<Float>)>)>
    requires Labelled(series)
  {
    var t :- FillAll(Writes(series, false), |series|, inherited);
    var cats := Categories(t);
    Ok((cats, NewSeries(series, t, cats)))
  }

  /** A Google `DataTable`: after the key column, one number column per
    * series name; one row per category, its label first. */
  datatype DataTable = DataTable(columns: seq<Raw>, rows: seq<(Key, seq<Option<Float>>)>)

  /** `new Date(toFloat(key))` for a key spelled by `String` from an integer time value or "NaN". */
  function KeyTime(key: string): Time {
    if |key| > 1 && key[0] == '-' && Text.AllDigits(key[1..]) then TimeClip(-(Text.DecimalValue(key[1..]) as real))
    else if |key| > 0 && Text.AllDigits(key) then TimeClip(Text.DecimalValue(key) as real)
    else Invalid
  }

  /** The first cell of a row: the Date made from the key, or the key itself. */
  function RowLabel(c: string, datetime: bool): Key {
    if datetime then When(Date(KeyTime(c))) else Label(c)
  }

  /** `rows2` before sorting: `[label].concat(rows[c])` per category. */
  function TableRows(t: Table, cats: seq<string>, datetime: bool): (r: seq<(Key, seq<Option<Float>>)>)
    requires forall j :: 0 <= j < |cats| ==> cats[j] in t.cells
    ensures |r| == |cats|
    ensures forall j :: 0 <= j < |cats| ==> r[j] == (RowLabel(cats[j], datetime), t.cells[cats[j]])
  {
    seq(|cats|, j requires 0 <= j < |cats| => (RowLabel(cats[j], datetime), t.cells[cats[j]]))
  }

  function SeriesNames(series: seq<Normalize.Series>): (r: seq<Raw>)
    ensures |r| == |series| && forall i :: 0 <= i < |series| ==> r[i] == series[i].name
  {
    seq(|series|, i requires 0 <= i < |series| => series[i].name)
  }

  /** Google's `createDataTable(series, columnType)`: a datetime table's rows
    * are sorted with `sortByTime`. */
  function CreateDataTable(series: seq<Normalize.Series>, datetime: bool, inherited: set<string>): Result<DataTable>
    requires !datetime ==> Labelled(series)
  {
    var t :- FillAll(Writes(series, datetime), |series|, inherited);
    var rows := TableRows(t, Categories(t), datetime);
    var sorted :- if datetime then SortByTime(rows) else Ok(rows);
    Ok(DataTable(SeriesNames(series), sorted))
  }

  // ---------------------------------------------------------------------
  // Helper lemmas

  /** Permuting entries permutes their names. */
  lemma {:induction false} NamesMultiset<V>(a: seq<(string, V)>, b: seq<(string, V)>)
    requires multiset(a) == multiset(b)
    ensures multiset(Names(a)) == multiset(Names(b))
    decreases |a|
  {
    if a != [] {
      var a', x := a[..|a| - 1], a[|a| - 1];
      assert a == a' + [x];
      assert x in multiset(b);
      var j :| 0 <= j < |b| && b[j] == x;
      var b' := b[..j] + b[j + 1..];
      RemoveOne(a', x, b, j);
      NamesMultiset(a', b');
      NamesAppend(a', [x]);
      NamesRemove(b, j);
    }
  }

  /** The names of `b` are those of `b` without entry `j`, and that entry's name. */
  lemma NamesRemove<V>(b: seq<(string, V)>, j: nat)
    requires j < |b|
    ensures multiset(Names(b)) == multiset(Names(b[..j] + b[j + 1..])) + multiset{b[j].0}
  {
    assert b == b[..j] + [b[j]] + b[j + 1..];
    NamesAppend(b[..j] + [b[j]], b[j + 1..]);
    NamesAppend(b[..j], [b[j]]);
    NamesAppend(b[..j], b[j + 1..]);
  }

  lemma NamesAppend<V>(a: seq<(string, V)>, b: seq<(string, V)>)
    ensures Names(a + b) == Names(a) + Names(b)
  {
  }

  /** Taking the same element out of two permutations of each other leaves permutations. */
  lemma RemoveOne<T>(a': seq<T>, x: T, b: seq<T>, j: nat)
    requires j < |b| && b[j] == x && multiset(a' + [x]) == multiset(b)
    ensures multiset(a') == multiset(b[..j] + b[j + 1..])
  {
    assert b == b[..j] + [x] + b[j + 1..];
    assert multiset(b) == multiset(b[..j] + b[j + 1..]) + multiset{x};
    assert multiset(a' + [x]) == multiset(a') + multiset{x};
    assert multiset(a') == multiset(a' + [x]) - multiset{x};
  }

  /** A permutation of a sequence without repetitions has none either. */
  lemma DistinctPerm<T>(a: seq<T>, b: seq<T>)
    requires multiset(a) == multiset(b)
    requires forall j, j' :: 0 <= j < j' < |b| ==> b[j] != b[j']
    ensures forall j, j' :: 0 <= j < j' < |a| ==> a[j] != a[j']
  {
    forall j, j' | 0 <= j < j' < |a|
      ensures a[j] != a[j']
    {
      CountOnce(b, a[j]);
      CountTwice(a, j, j');
    }
  }

  lemma {:induction false} CountOnce<T>(b: seq<T>, x: T)
    requires forall j, j' :: 0 <= j < j' < |b| ==> b[j] != b[j']
    ensures multiset(b)[x] <= 1
    decreases |b|
  {
    if b != [] {
      var b' := b[1..];
      assert b == [b[0]] + b';
      assert forall j, j' :: 0 <= j < j' < |b'| ==> b'[j] != b'[j'] by {
        forall j, j' | 0 <= j < j' < |b'| ensures b'[j] != b'[j'] {
          assert b'[j] == b[j + 1] && b'[j'] == b[j' + 1];
        }
      }
      CountOnce(b', x);
      assert b[0] !in b' by {
        forall j | 0 <= j < |b'| ensures b'[j] != b[0] {
          assert b'[j] == b[j + 1];
        }
      }
    }
  }

  lemma CountTwice<T>(a: seq<T>, j: nat, j': nat)
    requires j < j' < |a|
    ensures a[j] == a[j'] ==> multiset(a)[a[j]] >= 2
  {
    var rest := a[j + 1..];
    assert a == a[..j] + [a[j]] + rest;
    assert a[j'] == rest[j' - j - 1];
    assert a[j'] in multiset(rest);
  }

  lemma NamesPrefix<V>(e: seq<(string, V)>, x: nat)
    requires x < |e|
    ensures Names(e[..x + 1]) == Names(e[..x]) + [e[x].0]
  {
  }

  /** A key of `rows` was written by a series point whose key passes `good`. */
  lemma {:induction false} WritesKeys(series: seq<Normalize.Series>, datetime: bool, good: string -> bool)
    requires !datetime ==> Labelled(series)
    requires forall i, p :: 0 <= i < |series| && 0 <= p < |series[i].data| ==>
               KeyOf(series[i].data[p].0, datetime).Ok? && good(KeyOf(series[i].data[p].0, datetime).value)
    ensures forall j :: 0 <= j < |Writes(series, datetime)| ==>
              Writes(series, datetime)[j].key.Ok? && good(Writes(series, datetime)[j].key.value)
    decreases |series|
  {
    if series != [] {
      var i := |series| - 1;
      assert forall x :: 0 <= x < i ==> series[..i][x] == series[x];
      WritesKeys(series[..i], datetime, good);
    }
  }

  /** The writes of a series prefix come first. */
  lemma {:induction false} WritesPrefix(series: seq<Normalize.Series>, a: nat, b: nat, datetime: bool)
    requires a <= b <= |series| && (!datetime ==> Labelled(series))
    ensures |Writes(series[..a], datetime)| <= |Writes(series[..b], datetime)|
    ensures Writes(series[..b], datetime)[..|Writes(series[..a], datetime)|] == Writes(series[..a], datetime)
    decreases b - a
  {
    if a < b {
      WritesPrefix(series, a, b - 1, datetime);
      assert series[..b][..b - 1] == series[..b - 1];
    }
  }

  lemma WritesWithin(series: seq<Normalize.Series>, i: nat, datetime: bool)
    requires i <= |series| && (!datetime ==> Labelled(series))
    ensures Within(Writes(series[..i], datetime), |series|)
  {
  }

  lemma WritesSnoc(series: seq<Normalize.Series>, i: nat, datetime: bool)
    requires i < |series| && (!datetime ==> Labelled(series))
    ensures Writes(series[..i + 1], datetime) == Writes(series[..i], datetime) + SeriesWrites(i, series[i].data, datetime)
  {
    assert series[..i + 1][..i] == series[..i];
  }

  /** Once the writes so far have thrown, the whole fill has thrown the same error. */
  lemma {:induction false} FillPrefixFails(w: seq<Write>, k: nat, n: nat, inherited: set<string>)
    requires k <= |w| && Within(w, n) && FillAll(w[..k], n, inherited).Err?
    ensures FillAll(w, n, inherited) == FillAll(w[..k], n, inherited)
    decreases |w|
  {
    if k < |w| {
      assert w[..|w| - 1][..k] == w[..k];
      FillPrefixFails(w[..|w| - 1], k, n, inherited);
    } else {
      assert w[..k] == w;
    }
  }

  /** An error in the writes of the first `i` series is the error of the whole fill. */
  lemma FillStopsAfter(series: seq<Normalize.Series>, i: nat, datetime: bool, inherited: set<string>)
    requires (!datetime ==> Labelled(series)) && i <= |series|
    requires FillAll(Writes(series[..i], datetime), |series|, inherited).Err?
    ensures FillAll(Writes(series, datetime), |series|, inherited) == FillAll(Writes(series[..i], datetime), |series|, inherited)
  {
    WritesPrefix(series, i, |series|, datetime);
    assert series[..|series|] == series;
    FillPrefixFails(Writes(series, datetime), |Writes(series[..i], datetime)|, |series|, inherited);
  }

  // ---------------------------------------------------------------------
  // Properties of the fill

  /** Without "length" and inherited names, the array behaves as a dictionary. */
  lemma {:induction false} AsWrittenAgrees(w: seq<Write>, n: nat, inherited: set<string>)
    requires Within(w, n) && Plain(w, inherited)
    ensures FillAll(w, n, inherited) == Ok(FillIntended(w, n))
    decreases |w|
  {
    if w != [] {
      AsWrittenAgrees(w[..|w| - 1], n, inherited);
    }
  }

  /** The keys of the dictionary are the keys written, once each, in order of first write. */
  lemma {:induction false} FillIntendedKeys(w: seq<Write>, n: nat)
    requires Within(w, n) && forall j :: 0 <= j < |w| ==> w[j].key.Ok?
    ensures FillIntended(w, n).keys == Dedup(KeySeq(w))
    decreases |w|
  {
    if w != [] {
      var w', x := w[..|w| - 1], w[|w| - 1];
      FillIntendedKeys(w', n);
      var t := FillIntended(w', n);
      var s := KeySeq(w);
      assert s[..|w| - 1] == KeySeq(w');
      assert FillIntended(w, n) == PlaceIntended(t, n, x.series, x.key.value, x.value);
      assert x.key.value in t.cells <==> x.key.value in Dedup(KeySeq(w'));
    }
  }

  /** Cell `i` of the row under `k`; a hole when there is no such row. */
  function Get(t: Table, k: string, i: nat): Option<Float> {
    if k in t.cells && i < |t.cells[k]| then t.cells[k][i] else None
  }

  /** Cell `i` of a row holds the last value series `i` wrote under that key, or a hole. */
  lemma {:induction false} FillIntendedCells(w: seq<Write>, n: nat, k: string, i: nat)
    requires Within(w, n) && (forall j :: 0 <= j < |w| ==> w[j].key.Ok?) && i < n
    ensures Get(FillIntended(w, n), k, i) == Last(w, i, k)
    decreases |w|
  {
    if w != [] {
      FillIntendedCells(w[..|w| - 1], n, k, i);
    }
  }

  /** A string `String` produced from a time value reads back as that time. */
  lemma KeyTimeRoundTrip(ms: int)
    requires -MaxTime <= ms as real <= MaxTime
    ensures KeyTime(Text.IntToDecimal(ms)) == At(ms)
  {
    var s := Text.IntToDecimal(ms);
    if ms < 0 {
      Text.DecimalRoundTrip(-ms);
      assert s[1..] == Text.NatToDecimal(-ms);
    } else {
      Text.DecimalRoundTrip(ms);
    }
  }

  // ---------------------------------------------------------------------
  // From writes back to the series

  /** The labels of all points, series by series. */
  function Labels(series: seq<Normalize.Series>): (r: seq<string>)
    requires Labelled(series)
    decreases |series|
  {
    if series == [] then []
    else
      var i := |series| - 1;
      var data := series[i].data;
      Labels(series[..i]) + seq(|data|, p requires 0 <= p < |data| => data[p].0.s)
  }

  /** The value of the last point of `data` labelled `k`, if there is one. */
  function LabelValue(data: seq<(Key, Float)>, k: string): Option<Float>
    decreases |data|
  {
    if data == [] then None
    else if data[|data| - 1].0 == Label(k) then Some(data[|data| - 1].1)
    else LabelValue(data[..|data| - 1], k)
  }

  lemma {:induction false} LabelledKeys(series: seq<Normalize.Series>)
    requires Labelled(series)
    ensures forall j :: 0 <= j < |Writes(series, false)| ==> Writes(series, false)[j].key.Ok?
    ensures KeySeq(Writes(series, false)) == Labels(series)
    decreases |series|
  {
    if series != [] {
      var i := |series| - 1;
      LabelledKeys(series[..i]);
    }
  }

  lemma {:induction false} LastAppend(w1: seq<Write>, w2: seq<Write>, i: nat, k: string)
    ensures Last(w1 + w2, i, k) == if Last(w2, i, k).Some? then Last(w2, i, k) else Last(w1, i, k)
    decreases |w2|
  {
    if w2 == [] {
      assert w1 + w2 == w1;
    } else {
      assert (w1 + w2)[..|w1 + w2| - 1] == w1 + w2[..|w2| - 1];
      LastAppend(w1, w2[..|w2| - 1], i, k);
    }
  }

  lemma {:induction false} LastOwn(i: nat, data: seq<(Key, Float)>, k: string)
    requires forall p :: 0 <= p < |data| ==> data[p].0.Label?
    ensures Last(SeriesWrites(i, data, false), i, k) == LabelValue(data, k)
    decreases |data|
  {
    if data != [] {
      var d' := data[..|data| - 1];
      assert SeriesWrites(i, data, false)[..|data| - 1] == SeriesWrites(i, d', false);
      LastOwn(i, d', k);
    }
  }

  lemma {:induction false} LastOther(i': nat, data: seq<(Key, Float)>, i: nat, k: string, datetime: bool)
    requires i' != i && (!datetime ==> forall p :: 0 <= p < |data| ==> data[p].0.Label?)
    ensures Last(SeriesWrites(i', data, datetime), i, k).None?
    decreases |data|
  {
    if data != [] {
      var d' := data[..|data| - 1];
      assert SeriesWrites(i', data, datetime)[..|data| - 1] == SeriesWrites(i', d', datetime);
      LastOther(i', d', i, k, datetime);
    }
  }

  lemma {:induction false} LastBefore(series: seq<Normalize.Series>, i: nat, k: string, datetime: bool)
    requires (!datetime ==> Labelled(series)) && i >= |series|
    ensures Last(Writes(series, datetime), i, k).None?
    decreases |series|
  {
    if series != [] {
      var m := |series| - 1;
      LastBefore(series[..m], i, k, datetime);
      LastOther(m, series[m].data, i, k, datetime);
      LastAppend(Writes(series[..m], datetime), SeriesWrites(m, series[m].data, datetime), i, k);
    }
  }

  /** The last write of series `i` under a key is the last of its own writes there. */
  lemma {:induction false} LastOwnWrites(series: seq<Normalize.Series>, i: nat, k: string, datetime: bool)
    requires (!datetime ==> Labelled(series)) && i < |series|
    ensures Last(Writes(series, datetime), i, k) == Last(SeriesWrites(i, series[i].data, datetime), i, k)
    decreases |series|
  {
    var m := |series| - 1;
    LastAppend(Writes(series[..m], datetime), SeriesWrites(m, series[m].data, datetime), i, k);
    if i < m {
      LastOwnWrites(series[..m], i, k, datetime);
      LastOther(m, series[m].data, i, k, datetime);
    } else {
      LastBefore(series[..m], i, k, datetime);
    }
  }

  /** The last write of series `i` under a label is its last point with that label. */
  lemma LastSeries(series: seq<Normalize.Series>, i: nat, k: string)
    requires Labelled(series) && i < |series|
    ensures Last(Writes(series, false), i, k) == LabelValue(series[i].data, k)
  {
    LastOwnWrites(series, i, k, false);
    LastOwn(i, series[i].data, k);
  }

  // ---------------------------------------------------------------------
  // Category order

  /** With no array-index key, `for...in` visits the keys in creation order. */
  lemma CategoriesCreationOrder(t: Table)
    requires forall j :: 0 <= j < |t.keys| ==> t.keys[j] in t.cells && !IsArrayIndex(t.keys[j])
    ensures Categories(t) == t.keys
  {
    ForInOrderPlain(Entries(t));
    assert Names(Entries(t)) == t.keys;
  }

  // ---------------------------------------------------------------------
  // Highcharts' column chart

  /** The column chart if `rows` were a dictionary. */
  function ColumnChartIntended(series: seq<Normalize.Series>): (seq<string>, seq<(Raw, seq<Float>)>)
    requires Labelled(series)
  {
    LabelledKeys(series);
    var t := FillIntended(Writes(series, false), |series|);
    var cats := Categories(t);
    (cats, NewSeries(series, t, cats))
  }

  /** The dictionary after the writes of category series: its keys are the
    * distinct labels, and cell `i` under a label is series `i`'s last value
    * under that label. */
  lemma IntendedTable(series: seq<Normalize.Series>)
    requires Labelled(series)
    ensures LabelledWrites(series)
    ensures var t := FillIntended(Writes(series, false), |series|);
            && t.keys == Dedup(Labels(series))
            && forall k, i :: 0 <= i < |series| ==> Get(t, k, i) == LabelValue(series[i].data, k)
  {
    LabelledKeys(series);
    var w := Writes(series, false);
    FillIntendedKeys(w, |series|);
    forall k, i | 0 <= i < |series|
      ensures Get(FillIntended(w, |series|), k, i) == LabelValue(series[i].data, k)
    {
      FillIntendedCells(w, |series|, k, i);
      LastSeries(series, i, k);
    }
  }

  /** Every key of the writes of category series computes. */
  predicate LabelledWrites(series: seq<Normalize.Series>)
    requires Labelled(series)
  {
    forall j :: 0 <= j < |Writes(series, false)| ==> Writes(series, false)[j].key.Ok?
  }

  /** `newSeries` read through a table whose cells are the series' last values. */
  lemma NewSeriesCells(series: seq<Normalize.Series>, t: Table, cats: seq<string>)
    requires Valid(t, |series|) && forall j :: 0 <= j < |cats| ==> cats[j] in t.cells
    requires forall k, i :: 0 <= i < |series| ==> Get(t, k, i) == LabelValue(series[i].data, k)
    ensures forall i, j :: 0 <= i < |series| && 0 <= j < |cats| ==>
              NewSeries(series, t, cats)[i].1[j] == Cell(LabelValue(series[i].data, cats[j]))
  {
    forall i, j | 0 <= i < |series| && 0 <= j < |cats|
      ensures NewSeries(series, t, cats)[i].1[j] == Cell(LabelValue(series[i].data, cats[j]))
    {
      assert Get(t, cats[j], i) == t.cells[cats[j]][i];
    }
  }

  /** The categories are the distinct labels (in first-seen order when none is
    * an array index); series `i` has, per category, its last value under that
    * label, with a missing, NaN or 0 value shown as 0. */
  lemma ColumnChartIntendedShape(series: seq<Normalize.Series>)
    requires Labelled(series)
    ensures var (cats, ns) := ColumnChartIntended(series);
            && multiset(cats) == multiset(Dedup(Labels(series)))
            && ((forall j :: 0 <= j < |Labels(series)| ==> !IsArrayIndex(Labels(series)[j])) ==>
                  cats == Dedup(Labels(series)))
            && |ns| == |series|
            && forall i :: 0 <= i < |series| ==>
                 && ns[i].0 == series[i].name
                 && |ns[i].1| == |cats|
                 && forall j :: 0 <= j < |cats| ==> ns[i].1[j] == Cell(LabelValue(series[i].data, cats[j]))
  {
    IntendedTable(series);
    var t := FillIntended(Writes(series, false), |series|);
    var cats := Categories(t);
    NewSeriesCells(series, t, cats);
    if forall j :: 0 <= j < |Labels(series)| ==> !IsArrayIndex(Labels(series)[j]) {
      CategoriesCreationOrder(t);
    }
  }

  /** Labels that are neither "length" nor inherited names. */
  predicate PlainLabels(series: seq<Normalize.Series>, inherited: set<string>)
    requires Labelled(series)
  {
    forall i, p :: 0 <= i < |series| && 0 <= p < |series[i].data| ==>
      series[i].data[p].0.s != "length" && series[i].data[p].0.s !in inherited
  }

  /** On such labels `rows` as written is the dictionary. */
  lemma AsWrittenTable(series: seq<Normalize.Series>, inherited: set<string>)
    requires Labelled(series) && PlainLabels(series, inherited)
    ensures LabelledWrites(series)
    ensures FillAll(Writes(series, false), |series|, inherited) == Ok(FillIntended(Writes(series, false), |series|))
  {
    WritesKeys(series, false, k => k != "length" && k !in inherited);
    AsWrittenAgrees(Writes(series, false), |series|, inherited);
  }

  /** On such labels the chart as written is the intended chart. */
  lemma ColumnChartAgrees(series: seq<Normalize.Series>, inherited: set<string>)
    requires Labelled(series) && PlainLabels(series, inherited)
    ensures ColumnChart(series, inherited) == Ok(ColumnChartIntended(series))
  {
    AsWrittenTable(series, inherited);
  }

  /** The writes of one series of one point. */
  lemma WritesSingle(name: Raw, k: string, v: Float)
    ensures Writes([Normalize.Series(name, [(Label(k), v)])], false) == [Write(0, Ok(k), v)]
  {
    var s := [Normalize.Series(name, [(Label(k), v)])];
    assert s[..0] == [];
  }

  /** A label naming an inherited property loses its category and its values. */
  lemma InheritedLabelDropped()
    ensures ColumnChart([Normalize.Series(RStr("Sales"), [(Label("constructor"), Fin(5.0))])], {"constructor"})
            == Ok(([], [(RStr("Sales"), [])]))
  {
    SingleLabelDropped(RStr("Sales"), "constructor", Fin(5.0), {"constructor"});
  }

  lemma SingleLabelDropped(name: Raw, k: string, v: Float, inherited: set<string>)
    requires k in inherited && k != "length"
    ensures ColumnChart([Normalize.Series(name, [(Label(k), v)])], inherited) == Ok(([], [(name, [])]))
  {
    WritesSingle(name, k, v);
    FillInherited(k, v, inherited);
    CategoriesCreationOrder(Empty);
    NoCategories(name, [(Label(k), v)]);
  }

  /** The single write through an inherited name leaves `rows` empty. */
  lemma FillInherited(k: string, v: Float, inherited: set<string>)
    requires k in inherited && k != "length"
    ensures FillAll([Write(0, Ok(k), v)], 1, inherited) == Ok(Empty)
  {
    assert [Write(0, Ok(k), v)][..0] == [];
  }

  lemma NoCategories(name: Raw, data: seq<(Key, Float)>)
    ensures NewSeries([Normalize.Series(name, data)], Empty, []) == [(name, [])]
  {
    var ns := NewSeries([Normalize.Series(name, data)], Empty, []);
    assert ns[0].1 == [];
  }

  /** As a dictionary, the same data gives the category and its value. */
  lemma InheritedLabelIntended()
    ensures ColumnChartIntended([Normalize.Series(RStr("Sales"), [(Label("constructor"), Fin(5.0))])])
            == (["constructor"], [(RStr("Sales"), [Fin(5.0)])])
  {
    SingleLabelIntended(RStr("Sales"), "constructor", Fin(5.0));
  }

  lemma SingleLabelIntended(name: Raw, k: string, v: Float)
    requires |k| > 0 && !Text.IsDigit(k[0]) && !Falsy(v)
    ensures ColumnChartIntended([Normalize.Series(name, [(Label(k), v)])]) == ([k], [(name, [v])])
  {
    WritesSingle(name, k, v);
    SingleRowTable(k, v);
    SingleRowCategories(k, v);
    SingleRowSeries(name, k, v);
  }

  lemma SingleRowSeries(name: Raw, k: string, v: Float)
    requires !Falsy(v)
    ensures NewSeries([Normalize.Series(name, [(Label(k), v)])], Table([k], map[k := [Some(v)]]), [k]) == [(name, [v])]
  {
    var ns := NewSeries([Normalize.Series(name, [(Label(k), v)])], Table([k], map[k := [Some(v)]]), [k]);
    assert ns[0].1[0] == v;
    assert ns[0].1 == [v];
    assert |ns| == 1;
  }

  lemma SingleRowTable(k: string, v: Float)
    ensures FillIntended([Write(0, Ok(k), v)], 1) == Table([k], map[k := [Some(v)]])
  {
    assert [Write(0, Ok(k), v)][..0] == [];
    assert Holes(1)[0 := Some(v)] == [Some(v)];
  }

  lemma SingleRowCategories(k: string, v: Float)
    requires |k| > 0 && !Text.IsDigit(k[0])
    ensures Categories(Table([k], map[k := [Some(v)]])) == [k]
  {
    CategoriesCreationOrder(Table([k], map[k := [Some(v)]]));
  }

  /** The label "length" makes the chart throw a TypeError when there is one series, ... */
  lemma LengthLabelOneSeries()
    ensures ColumnChart([Normalize.Series(RStr("a"), [(Label("length"), Fin(1.0))])], {}) == Err(TypeError)
  {
    WritesSingle(RStr("a"), "length", Fin(1.0));
    LengthFirst(Fin(1.0), 1);
  }

  /** ... and a RangeError when there are two. */
  lemma LengthLabelTwoSeries()
    ensures ColumnChart([Normalize.Series(RStr("a"), [(Label("length"), Fin(1.0))]), Normalize.Series(RStr("b"), [])], {})
            == Err(RangeError)
  {
    WritesThenEmpty(RStr("a"), "length", Fin(1.0), RStr("b"));
    LengthFirst(Fin(1.0), 2);
  }

  lemma WritesThenEmpty(name: Raw, k: string, v: Float, other: Raw)
    ensures Writes([Normalize.Series(name, [(Label(k), v)]), Normalize.Series(other, [])], false) == [Write(0, Ok(k), v)]
  {
    var s := [Normalize.Series(name, [(Label(k), v)]), Normalize.Series(other, [])];
    assert s[..1] == [s[0]];
    WritesSingle(name, k, v);
  }

  /** A first write to "length" throws: on an empty `rows` its length is 0. */
  lemma LengthFirst(v: Float, n: nat)
    requires n >= 1
    ensures FillAll([Write(0, Ok("length"), v)], n, {}) == Err(if n >= 2 then RangeError else TypeError)
  {
    var w := [Write(0, Ok("length"), v)];
    assert w[..0] == [];
    assert !HasIndexKey([]);
  }

  // ---------------------------------------------------------------------
  // Google's data table

  /** The row of label `c` in a table whose cells are the series' last values. */
  lemma RowOf(series: seq<Normalize.Series>, t: Table, c: string)
    requires Labelled(series) && Valid(t, |series|) && c in t.cells && c in Labels(series)
    requires forall k, i :: 0 <= i < |series| ==> Get(t, k, i) == LabelValue(series[i].data, k)
    ensures RowShaped(series, (RowLabel(c, false), t.cells[c]))
  {
    forall i | 0 <= i < |series|
      ensures t.cells[c][i] == LabelValue(series[i].data, c)
    {
      assert Get(t, c, i) == t.cells[c][i];
    }
  }

  /** A row labelled by one of the labels, holding each series' last value under it. */
  ghost predicate RowShaped(series: seq<Normalize.Series>, row: (Key, seq<Option<Float>>))
    requires Labelled(series)
  {
    && row.0.Label?
    && row.0.s in Labels(series)
    && |row.1| == |series|
    && forall i :: 0 <= i < |series| ==> row.1[i] == LabelValue(series[i].data, row.0.s)
  }

  /** No two rows carry the same first cell. */
  ghost predicate DistinctRows<V>(rows: seq<(Key, V)>) {
    forall j, j' :: 0 <= j < j' < |rows| ==> rows[j].0 != rows[j'].0
  }

  /** A category data table: one column per series, one row per distinct
    * label (no label twice, every label of a point present), and in the row
    * of label `c` the cell of series `i` holds that series' last value under
    * `c`, or a hole. */
  ghost predicate StringShaped(series: seq<Normalize.Series>, d: DataTable)
    requires Labelled(series)
  {
    && d.columns == SeriesNames(series)
    && |d.rows| == |Dedup(Labels(series))|
    && (forall j :: 0 <= j < |d.rows| ==> RowShaped(series, d.rows[j]))
    && DistinctRows(d.rows)
    && forall c :: c in Labels(series) ==> exists j :: 0 <= j < |d.rows| && d.rows[j].0 == Label(c)
  }

  /** The category table of a dictionary holding the series' last values. */
  lemma RowsShaped(series: seq<Normalize.Series>, t: Table)
    requires Labelled(series) && Valid(t, |series|) && t.keys == Dedup(Labels(series))
    requires forall k, i :: 0 <= i < |series| ==> Get(t, k, i) == LabelValue(series[i].data, k)
    ensures StringShaped(series, DataTable(SeriesNames(series), TableRows(t, Categories(t), false)))
  {
    var cats := Categories(t);
    assert multiset(cats) == multiset(t.keys);
    RowsShapedFrom(series, t, cats);
    var d := DataTable(SeriesNames(series), TableRows(t, cats, false));
    assert StringShaped(series, d);
  }

  lemma RowsShapedFrom(series: seq<Normalize.Series>, t: Table, cats: seq<string>)
    requires Labelled(series) && Valid(t, |series|) && t.keys == Dedup(Labels(series))
    requires forall k, i :: 0 <= i < |series| ==> Get(t, k, i) == LabelValue(series[i].data, k)
    requires multiset(cats) == multiset(t.keys)
    ensures forall j :: 0 <= j < |cats| ==> cats[j] in t.cells
    ensures StringShaped(series, DataTable(SeriesNames(series), TableRows(t, cats, false)))
  {
    assert |cats| == |t.keys| by { assert |multiset(cats)| == |multiset(t.keys)|; }
    forall j | 0 <= j < |cats|
      ensures cats[j] in t.cells && cats[j] in Labels(series)
    {
      assert cats[j] in multiset(t.keys);
    }
    var rows := TableRows(t, cats, false);
    forall j | 0 <= j < |cats|
      ensures RowShaped(series, rows[j])
    {
      RowOf(series, t, cats[j]);
    }
    DistinctPerm(cats, t.keys);
    forall c | c in Labels(series)
      ensures exists j :: 0 <= j < |rows| && rows[j].0 == Label(c)
    {
      assert c in multiset(cats);
      var j :| 0 <= j < |cats| && cats[j] == c;
      assert rows[j].0 == Label(c);
    }
  }

  /** A category table as written, on plain labels, is shaped so. */
  lemma StringTableShape(series: seq<Normalize.Series>, inherited: set<string>)
    requires Labelled(series) && PlainLabels(series, inherited)
    ensures CreateDataTable(series, false, inherited).Ok?
    ensures StringShaped(series, CreateDataTable(series, false, inherited).value)
  {
    IntendedTable(series);
    StringTableIs(series, inherited);
    RowsShaped(series, FillIntended(Writes(series, false), |series|));
  }

  lemma StringTableIs(series: seq<Normalize.Series>, inherited: set<string>)
    requires Labelled(series) && PlainLabels(series, inherited)
    ensures LabelledWrites(series)
    ensures var t := FillIntended(Writes(series, false), |series|);
            CreateDataTable(series, false, inherited) == Ok(DataTable(SeriesNames(series), TableRows(t, Categories(t), false)))
  {
    AsWrittenTable(series, inherited);
  }

  /** Every point has a valid date key. */
  predicate Timed(series: seq<Normalize.Series>) {
    forall i, p :: 0 <= i < |series| && 0 <= p < |series[i].data| ==>
      ValidTime(series[i].data[p]) && -MaxTime <= series[i].data[p].0.stamp.t.ms as real <= MaxTime
  }

  /** No inherited name starts with a digit or a minus sign, as no identifier does. */
  predicate Identifiers(inherited: set<string>) {
    forall k :: k in inherited ==> |k| > 0 && !Text.IsDigit(k[0]) && k[0] != '-'
  }

  /** The key of a valid date is the spelling of its time value. */
  predicate TimeKey(k: string) {
    |k| > 0 && (Text.IsDigit(k[0]) || k[0] == '-') && KeyTime(k).At?
  }

  lemma TimedKeys(series: seq<Normalize.Series>)
    requires Timed(series)
    ensures forall j :: 0 <= j < |Writes(series, true)| ==>
              Writes(series, true)[j].key.Ok? && TimeKey(Writes(series, true)[j].key.value)
  {
    forall i, p | 0 <= i < |series| && 0 <= p < |series[i].data|
      ensures KeyOf(series[i].data[p].0, true).Ok? && TimeKey(KeyOf(series[i].data[p].0, true).value)
    {
      KeyTimeRoundTrip(series[i].data[p].0.stamp.t.ms);
    }
    WritesKeys(series, true, TimeKey);
  }

  /** The time values of a series' points, in order. */
  function TimesOf(data: seq<(Key, Float)>): (r: seq<int>)
    ensures |r| == |data| && forall p :: 0 <= p < |data| ==> r[p] == TimeOf(data[p])
  {
    seq(|data|, p requires 0 <= p < |data| => TimeOf(data[p]))
  }

  /** The time values of all points, series by series. */
  function PointTimes(series: seq<Normalize.Series>): (r: seq<int>)
    decreases |series|
  {
    if series == [] then []
    else
      var i := |series| - 1;
      PointTimes(series[..i]) + TimesOf(series[i].data)
  }

  /** `String` applied to each time value. */
  function Spelled(ms: seq<int>): (r: seq<string>)
    ensures |r| == |ms| && forall j :: 0 <= j < |ms| ==> r[j] == Text.IntToDecimal(ms[j])
  {
    seq(|ms|, j requires 0 <= j < |ms| => Text.IntToDecimal(ms[j]))
  }

  /** The value of the last point of `data` at time `ms`, if there is one. */
  function TimeValue(data: seq<(Key, Float)>, ms: int): Option<Float>
    decreases |data|
  {
    if data == [] then None
    else if data[|data| - 1].0 == When(Date(At(ms))) then Some(data[|data| - 1].1)
    else TimeValue(data[..|data| - 1], ms)
  }

  /** Every key of the writes of a datetime table of valid dates computes. */
  predicate TimedWrites(series: seq<Normalize.Series>) {
    forall j :: 0 <= j < |Writes(series, true)| ==> Writes(series, true)[j].key.Ok?
  }

  /** Every time value of a point lies within the range of a Date. */
  lemma {:induction false} PointTimesBounded(series: seq<Normalize.Series>)
    requires Timed(series)
    ensures forall m :: m in PointTimes(series) ==> -MaxTime <= m as real <= MaxTime
    decreases |series|
  {
    if series != [] {
      var i := |series| - 1;
      assert forall x :: 0 <= x < i ==> series[..i][x] == series[x];
      PointTimesBounded(series[..i]);
      var d := TimesOf(series[i].data);
      forall m | m in PointTimes(series)
        ensures -MaxTime <= m as real <= MaxTime
      {
        if m !in PointTimes(series[..i]) {
          assert m in d;
          var p :| 0 <= p < |d| && d[p] == m;
        }
      }
    }
  }

  /** The keys written, in order, are the spelled time values of the points. */
  lemma {:induction false} TimedKeySeq(series: seq<Normalize.Series>)
    requires Timed(series)
    ensures TimedWrites(series)
    ensures KeySeq(Writes(series, true)) == Spelled(PointTimes(series))
    decreases |series|
  {
    if series != [] {
      var i := |series| - 1;
      assert forall x :: 0 <= x < i ==> series[..i][x] == series[x];
      TimedKeySeq(series[..i]);
      var w0, sw := Writes(series[..i], true), SeriesWrites(i, series[i].data, true);
      SeriesKeySeq(series, i);
      assert Writes(series, true) == w0 + sw;
      KeySeqAppend(w0, sw);
      SpelledAppend(PointTimes(series[..i]), TimesOf(series[i].data));
    }
  }

  lemma SeriesKeySeq(series: seq<Normalize.Series>, i: nat)
    requires Timed(series) && i < |series|
    ensures var sw := SeriesWrites(i, series[i].data, true);
            && (forall j :: 0 <= j < |sw| ==> sw[j].key.Ok?)
            && KeySeq(sw) == Spelled(TimesOf(series[i].data))
  {
  }

  lemma KeySeqAppend(w0: seq<Write>, sw: seq<Write>)
    requires forall j :: 0 <= j < |w0| ==> w0[j].key.Ok?
    requires forall j :: 0 <= j < |sw| ==> sw[j].key.Ok?
    ensures forall j :: 0 <= j < |w0 + sw| ==> (w0 + sw)[j].key.Ok?
    ensures KeySeq(w0 + sw) == KeySeq(w0) + KeySeq(sw)
  {
  }

  lemma SpelledAppend(a: seq<int>, b: seq<int>)
    ensures Spelled(a + b) == Spelled(a) + Spelled(b)
  {
  }

  /** The last write of a series at a time value is its last point at that time. */
  lemma {:induction false} LastOwnTime(i: nat, data: seq<(Key, Float)>, ms: int)
    requires forall p :: 0 <= p < |data| ==> ValidTime(data[p]) && -MaxTime <= data[p].0.stamp.t.ms as real <= MaxTime
    requires -MaxTime <= ms as real <= MaxTime
    ensures Last(SeriesWrites(i, data, true), i, Text.IntToDecimal(ms)) == TimeValue(data, ms)
    decreases |data|
  {
    if data != [] {
      var d' := data[..|data| - 1];
      assert SeriesWrites(i, data, true)[..|data| - 1] == SeriesWrites(i, d', true);
      LastOwnTime(i, d', ms);
      var m := data[|data| - 1].0.stamp.t.ms;
      KeyTimeRoundTrip(m);
      KeyTimeRoundTrip(ms);
    }
  }

  /** The last write of series `i` at a time value is its last point at that time. */
  lemma LastSeriesTime(series: seq<Normalize.Series>, i: nat, ms: int)
    requires Timed(series) && i < |series| && -MaxTime <= ms as real <= MaxTime
    ensures Last(Writes(series, true), i, Text.IntToDecimal(ms)) == TimeValue(series[i].data, ms)
  {
    LastOwnWrites(series, i, Text.IntToDecimal(ms), true);
    LastOwnTime(i, series[i].data, ms);
  }

  /** The dictionary after the writes of a datetime table of valid dates: its
    * keys are the distinct spelled time values, and cell `i` under the
    * spelling of `ms` is series `i`'s last value at time `ms`. */
  lemma IntendedTimeTable(series: seq<Normalize.Series>)
    requires Timed(series)
    ensures TimedWrites(series)
    ensures var t := FillIntended(Writes(series, true), |series|);
            && t.keys == Dedup(Spelled(PointTimes(series)))
            && forall ms, i :: 0 <= i < |series| && -MaxTime <= ms as real <= MaxTime ==>
                 Get(t, Text.IntToDecimal(ms), i) == TimeValue(series[i].data, ms)
  {
    TimedKeySeq(series);
    var w := Writes(series, true);
    FillIntendedKeys(w, |series|);
    forall ms, i | 0 <= i < |series| && -MaxTime <= ms as real <= MaxTime
      ensures Get(FillIntended(w, |series|), Text.IntToDecimal(ms), i) == TimeValue(series[i].data, ms)
    {
      FillIntendedCells(w, |series|, Text.IntToDecimal(ms), i);
      LastSeriesTime(series, i, ms);
    }
  }

  /** A row of a datetime table: a valid date at the time of some point, and
    * in it the cell of series `i` holds that series' last value at that
    * time, or a hole. */
  ghost predicate TimeRowShaped(series: seq<Normalize.Series>, row: (Key, seq<Option<Float>>))
    requires Timed(series)
  {
    && ValidTime(row)
    && row.0.stamp.t.ms in PointTimes(series)
    && |row.1| == |series|
    && forall i :: 0 <= i < |series| ==> row.1[i] == TimeValue(series[i].data, row.0.stamp.t.ms)
  }

  /** Every time of a point has a row. */
  ghost predicate CoversTimes(series: seq<Normalize.Series>, rows: seq<(Key, seq<Option<Float>>)>)
    requires Timed(series)
  {
    forall m :: m in PointTimes(series) ==> exists j :: 0 <= j < |rows| && rows[j].0 == When(Date(At(m)))
  }

  /** The rows of a datetime table, in any order: one per distinct time of a point. */
  ghost predicate TimeRowSet(series: seq<Normalize.Series>, rows: seq<(Key, seq<Option<Float>>)>)
    requires Timed(series)
  {
    && (forall j :: 0 <= j < |rows| ==> TimeRowShaped(series, rows[j]))
    && DistinctRows(rows)
    && CoversTimes(series, rows)
  }

  /** A datetime data table: one column per series, one row per distinct time
    * of a point, holding each series' last value at that time, the rows in
    * time order. */
  ghost predicate TimeShaped(series: seq<Normalize.Series>, d: DataTable)
    requires Timed(series)
  {
    && d.columns == SeriesNames(series)
    && TimeRowSet(series, d.rows)
    && Sorting.SortedBy(d.rows, TimeOf<seq<Option<Float>>>)
  }

  /** A spelled time value of a point reads back as that time value. */
  lemma TimeCategory(series: seq<Normalize.Series>, c: string)
    requires Timed(series) && c in Spelled(PointTimes(series))
    ensures KeyTime(c).At? && KeyTime(c).ms in PointTimes(series) && c == Text.IntToDecimal(KeyTime(c).ms)
  {
    var pt := PointTimes(series);
    var x :| 0 <= x < |pt| && Spelled(pt)[x] == c;
    PointTimesBounded(series);
    assert pt[x] in pt;
    KeyTimeRoundTrip(pt[x]);
  }

  /** The keys of the dictionary of a datetime table of valid dates, as visited. */
  ghost predicate TimeCategories(series: seq<Normalize.Series>, t: Table, cats: seq<string>)
    requires Timed(series)
  {
    && Valid(t, |series|) && t.keys == Dedup(Spelled(PointTimes(series)))
    && multiset(cats) == multiset(t.keys)
  }

  /** The dictionary holds each series' last value at each time. */
  ghost predicate TimeCells(series: seq<Normalize.Series>, t: Table) {
    forall ms, i :: 0 <= i < |series| && -MaxTime <= ms as real <= MaxTime ==>
      Get(t, Text.IntToDecimal(ms), i) == TimeValue(series[i].data, ms)
  }

  lemma CategoriesIn(series: seq<Normalize.Series>, t: Table, cats: seq<string>)
    requires Timed(series) && TimeCategories(series, t, cats)
    ensures |cats| == |t.keys|
    ensures forall j :: 0 <= j < |cats| ==> cats[j] in t.cells && cats[j] in Spelled(PointTimes(series))
  {
    assert |cats| == |t.keys| by { assert |multiset(cats)| == |multiset(t.keys)|; }
    forall j | 0 <= j < |cats|
      ensures cats[j] in t.cells && cats[j] in Spelled(PointTimes(series))
    {
      assert cats[j] in multiset(t.keys);
    }
  }

  /** The unsorted rows of a dictionary holding the series' last values at each time. */
  lemma TimeRowsShaped(series: seq<Normalize.Series>, t: Table, cats: seq<string>)
    requires Timed(series) && TimeCategories(series, t, cats) && TimeCells(series, t)
    ensures forall j :: 0 <= j < |cats| ==> cats[j] in t.cells
    ensures TimeRowSet(series, TableRows(t, cats, true))
  {
    CategoriesIn(series, t, cats);
    TimeRowsEach(series, t, cats);
    TimeRowsDistinct(series, t, cats);
    TimeRowsCover(series, t, cats);
  }

  lemma TimeRowsEach(series: seq<Normalize.Series>, t: Table, cats: seq<string>)
    requires Timed(series) && TimeCategories(series, t, cats) && TimeCells(series, t)
    requires forall j :: 0 <= j < |cats| ==> cats[j] in t.cells && cats[j] in Spelled(PointTimes(series))
    ensures forall j :: 0 <= j < |cats| ==> TimeRowShaped(series, TableRows(t, cats, true)[j])
  {
    var rows := TableRows(t, cats, true);
    PointTimesBounded(series);
    forall j | 0 <= j < |cats|
      ensures TimeRowShaped(series, rows[j])
    {
      TimeCategory(series, cats[j]);
    }
  }

  lemma TimeRowsDistinct(series: seq<Normalize.Series>, t: Table, cats: seq<string>)
    requires Timed(series) && TimeCategories(series, t, cats)
    requires forall j :: 0 <= j < |cats| ==> cats[j] in t.cells && cats[j] in Spelled(PointTimes(series))
    ensures DistinctRows(TableRows(t, cats, true))
  {
    var rows := TableRows(t, cats, true);
    DistinctPerm(cats, t.keys);
    forall j, j' | 0 <= j < j' < |rows|
      ensures rows[j].0 != rows[j'].0
    {
      TimeCategory(series, cats[j]);
      TimeCategory(series, cats[j']);
    }
  }

  lemma TimeRowsCover(series: seq<Normalize.Series>, t: Table, cats: seq<string>)
    requires Timed(series) && TimeCategories(series, t, cats)
    requires forall j :: 0 <= j < |cats| ==> cats[j] in t.cells
    ensures CoversTimes(series, TableRows(t, cats, true))
  {
    PointTimesBounded(series);
    var rows := TableRows(t, cats, true);
    forall m | m in PointTimes(series)
      ensures exists j :: 0 <= j < |rows| && rows[j].0 == When(Date(At(m)))
    {
      var j := TimeCategoryAt(PointTimes(series), t.keys, cats, m);
      KeyTimeRoundTrip(m);
      assert rows[j].0 == When(Date(KeyTime(cats[j])));
    }
  }

  /** A time value of a point has its spelling among the visited keys. */
  lemma TimeCategoryAt(pt: seq<int>, keys: seq<string>, cats: seq<string>, m: int) returns (j: nat)
    requires keys == Dedup(Spelled(pt)) && multiset(cats) == multiset(keys)
    requires m in pt
    ensures j < |cats| && cats[j] == Text.IntToDecimal(m)
  {
    var x :| 0 <= x < |pt| && pt[x] == m;
    var sp := Spelled(pt);
    var c := sp[x];
    assert c in sp;
    assert c in keys;
    assert c in multiset(keys);
    assert c in multiset(cats);
    j :| 0 <= j < |cats| && cats[j] == c;
  }

  /** Reordering the rows keeps them one per distinct time, each as it was. */
  lemma PermutedRows(series: seq<Normalize.Series>, rows: seq<(Key, seq<Option<Float>>)>, sorted: seq<(Key, seq<Option<Float>>)>)
    requires Timed(series) && multiset(rows) == multiset(sorted) && TimeRowSet(series, rows)
    ensures TimeRowSet(series, sorted)
  {
    forall a | 0 <= a < |sorted|
      ensures sorted[a] in rows
    {
      assert sorted[a] in multiset(rows);
    }
    assert forall j, j' :: 0 <= j < j' < |rows| ==> rows[j] != rows[j'];
    DistinctPerm(sorted, rows);
    forall a, b | 0 <= a < b < |sorted|
      ensures sorted[a].0 != sorted[b].0
    {
      var x :| 0 <= x < |rows| && rows[x] == sorted[a];
      var y :| 0 <= y < |rows| && rows[y] == sorted[b];
      assert x != y;
      assert x < y || y < x;
    }
    forall m | m in PointTimes(series)
      ensures exists a :: 0 <= a < |sorted| && sorted[a].0 == When(Date(At(m)))
    {
      var j :| 0 <= j < |rows| && rows[j].0 == When(Date(At(m)));
      assert rows[j] in multiset(sorted);
      var a :| 0 <= a < |sorted| && sorted[a] == rows[j];
    }
  }

  /** `rows` of a datetime table of valid dates is the dictionary, its keys spelled from time values. */
  lemma TimeRows(series: seq<Normalize.Series>, inherited: set<string>)
    requires Timed(series) && Identifiers(inherited)
    ensures TimedWrites(series)
    ensures FillAll(Writes(series, true), |series|, inherited) == Ok(FillIntended(Writes(series, true), |series|))
    ensures var t := FillIntended(Writes(series, true), |series|);
            forall j :: 0 <= j < |t.keys| ==> TimeKey(t.keys[j])
  {
    var w := Writes(series, true);
    var n := |series|;
    TimedKeys(series);
    assert Plain(w, inherited);
    AsWrittenAgrees(w, n, inherited);
    FillIntendedKeys(w, n);
    var t := FillIntended(w, n);
    assert forall j :: 0 <= j < |t.keys| ==> t.keys[j] in KeySeq(w);
  }

  /** The unsorted rows of the dictionary of a datetime table of valid dates. */
  lemma IntendedTimeRows(series: seq<Normalize.Series>)
    requires Timed(series)
    ensures TimedWrites(series)
    ensures var t := FillIntended(Writes(series, true), |series|);
            TimeRowSet(series, TableRows(t, Categories(t), true))
  {
    IntendedTimeTable(series);
    var t := FillIntended(Writes(series, true), |series|);
    var cats := Categories(t);
    assert multiset(cats) == multiset(t.keys);
    TimeRowsShaped(series, t, cats);
  }

  lemma TimeTableFrom(series: seq<Normalize.Series>, inherited: set<string>, t: Table)
    requires Timed(series) && FillAll(Writes(series, true), |series|, inherited) == Ok(t)
    requires TimeRowSet(series, TableRows(t, Categories(t), true))
    ensures CreateDataTable(series, true, inherited).Ok?
    ensures TimeShaped(series, CreateDataTable(series, true, inherited).value)
  {
    var rows := TableRows(t, Categories(t), true);
    SortedTimeRows(series, rows);
    TimeTableIs(series, inherited, t, SortByTime(rows).value);
  }

  lemma TimeTableIs(series: seq<Normalize.Series>, inherited: set<string>, t: Table, sorted: seq<(Key, seq<Option<Float>>)>)
    requires FillAll(Writes(series, true), |series|, inherited) == Ok(t)
    requires SortByTime(TableRows(t, Categories(t), true)) == Ok(sorted)
    ensures CreateDataTable(series, true, inherited) == Ok(DataTable(SeriesNames(series), sorted))
  {
  }

  /** Sorting the rows of a datetime table keeps one row per distinct time, in time order. */
  lemma SortedTimeRows(series: seq<Normalize.Series>, rows: seq<(Key, seq<Option<Float>>)>)
    requires Timed(series) && TimeRowSet(series, rows)
    ensures SortByTime(rows).Ok?
    ensures TimeRowSet(series, SortByTime(rows).value)
    ensures Sorting.SortedBy(SortByTime(rows).value, TimeOf<seq<Option<Float>>>)
  {
    SortedValid(rows);
    PermutedRows(series, rows, SortByTime(rows).value);
  }

  /** Sorting rows of valid dates keeps them valid and puts them in time order. */
  lemma SortedValid<V(!new)>(rows: seq<(Key, V)>)
    requires forall j :: 0 <= j < |rows| ==> ValidTime(rows[j])
    ensures SortByTime(rows).Ok?
    ensures forall j :: 0 <= j < |SortByTime(rows).value| ==> ValidTime(SortByTime(rows).value[j])
    ensures Sorting.SortedBy(SortByTime(rows).value, TimeOf<V>)
  {
    SortByTimeSorted(rows);
    var o := SortByTime(rows).value;
    forall j | 0 <= j < |o|
      ensures ValidTime(o[j])
    {
      assert o[j] in multiset(rows);
    }
  }

  /** A datetime table of valid dates is built: one row per distinct time of
    * a point, labelled with that date, holding each series' last value at
    * that time or a hole, the rows in time order. */
  lemma TimeTableSorted(series: seq<Normalize.Series>, inherited: set<string>)
    requires Timed(series) && Identifiers(inherited)
    ensures CreateDataTable(series, true, inherited).Ok?
    ensures TimeShaped(series, CreateDataTable(series, true, inherited).value)
  {
    TimeRows(series, inherited);
    IntendedTimeRows(series);
    TimeTableFrom(series, inherited, FillIntended(Writes(series, true), |series|));
  }

  // ---------------------------------------------------------------------
  // The loops as the source writes them

  /** The nested loops filling `rows`. */
  method FillRows(series: seq<Normalize.Series>, datetime: bool, inherited: set<string>) returns (r: Result<Table>)
    requires !datetime ==> Labelled(series)
    ensures r == FillAll(Writes(series, datetime), |series|, inherited)
  {
    var n := |series|;
    assert series[..0] == [];
    r := Ok(Empty);
    var i := 0;
    while i < n && r.Ok?
      invariant 0 <= i <= n
      invariant FillAll(Writes(series[..i], datetime), n, inherited) == r
    {
      var done := Writes(series[..i], datetime);
      WritesSnoc(series, i, datetime);
      WritesWithin(series, i, datetime);
      r := FillSeries(r.value, n, i, series[i].data, datetime, inherited, done);
      i := i + 1;
    }
    if r.Err? {
      FillStopsAfter(series, i, datetime, inherited);
    } else {
      assert series[..i] == series;
    }
  }

  /** The inner loop: the points of series `i`, one at a time, until one throws. */
  method FillSeries(rows: Table, n: nat, i: nat, data: seq<(Key, Float)>, datetime: bool, inherited: set<string>,
                    ghost done: seq<Write>) returns (r: Result<Table>)
    requires i < n && Within(done, n) && FillAll(done, n, inherited) == Ok(rows)
    requires !datetime ==> forall j :: 0 <= j < |data| ==> data[j].0.Label?
    ensures r == FillAll(done + SeriesWrites(i, data, datetime), n, inherited)
  {
    PartialStart(done, n, i, data, datetime, inherited);
    r := Ok(rows);
    var j := 0;
    while j < |data| && r.Ok?
      invariant 0 <= j <= |data|
      invariant Partial(done, n, i, data, datetime, inherited, j) == r
    {
      r := FillPoint(r, done, n, i, data, j, datetime, inherited);
      j := j + 1;
    }
    PartialDone(done, n, i, data, datetime, inherited, j);
  }

  /** The table after the first `j` points of series `i`. */
  ghost function Partial(done: seq<Write>, n: nat, i: nat, data: seq<(Key, Float)>, datetime: bool,
                         inherited: set<string>, j: nat): Result<Table>
    requires i < n && Within(done, n) && j <= |data|
    requires !datetime ==> forall j :: 0 <= j < |data| ==> data[j].0.Label?
  {
    var all := done + SeriesWrites(i, data, datetime);
    assert Within(all[..|done| + j], n);
    FillAll(all[..|done| + j], n, inherited)
  }

  lemma PartialStart(done: seq<Write>, n: nat, i: nat, data: seq<(Key, Float)>, datetime: bool, inherited: set<string>)
    requires i < n && Within(done, n)
    requires !datetime ==> forall j :: 0 <= j < |data| ==> data[j].0.Label?
    ensures Partial(done, n, i, data, datetime, inherited, 0) == FillAll(done, n, inherited)
  {
    assert (done + SeriesWrites(i, data, datetime))[..|done|] == done;
  }

  /** The fill is over once the points have run out or one has thrown. */
  lemma PartialDone(done: seq<Write>, n: nat, i: nat, data: seq<(Key, Float)>, datetime: bool,
                    inherited: set<string>, j: nat)
    requires i < n && Within(done, n) && j <= |data|
    requires !datetime ==> forall j :: 0 <= j < |data| ==> data[j].0.Label?
    requires Partial(done, n, i, data, datetime, inherited, j).Err? || j == |data|
    ensures Partial(done, n, i, data, datetime, inherited, j) == FillAll(done + SeriesWrites(i, data, datetime), n, inherited)
  {
    var all := done + SeriesWrites(i, data, datetime);
    assert Within(all, n);
    if Partial(done, n, i, data, datetime, inherited, j).Err? {
      FillPrefixFails(all, |done| + j, n, inherited);
    } else {
      assert all[..|done| + j] == all;
    }
  }

  /** One point: `rows[key][i] = value`, its key computed first. */
  method FillPoint(r: Result<Table>, ghost done: seq<Write>, n: nat, i: nat, data: seq<(Key, Float)>, j: nat,
                   datetime: bool, inherited: set<string>) returns (r': Result<Table>)
    requires i < n && Within(done, n) && j < |data|
    requires !datetime ==> forall j :: 0 <= j < |data| ==> data[j].0.Label?
    requires r == Partial(done, n, i, data, datetime, inherited, j) && r.Ok?
    ensures r' == Partial(done, n, i, data, datetime, inherited, j + 1)
  {
    PartialStep(done, n, i, data, datetime, inherited, j);
    var key := KeyOf(data[j].0, datetime);
    if key.Err? {
      r' := Err(key.error);
    } else {
      r' := Assign(r.value, n, i, key.value, data[j].1, inherited);
    }
  }

  /** Point `j` of series `i`, on top of the points before it. */
  lemma PartialStep(done: seq<Write>, n: nat, i: nat, data: seq<(Key, Float)>, datetime: bool,
                    inherited: set<string>, j: nat)
    requires i < n && Within(done, n) && j < |data|
    requires !datetime ==> forall j :: 0 <= j < |data| ==> data[j].0.Label?
    requires Partial(done, n, i, data, datetime, inherited, j).Ok?
    ensures Partial(done, n, i, data, datetime, inherited, j + 1) ==
            if KeyOf(data[j].0, datetime).Err? then Err(KeyOf(data[j].0, datetime).error)
            else Place(Partial(done, n, i, data, datetime, inherited, j).value, n, i,
                       KeyOf(data[j].0, datetime).value, data[j].1, inherited)
  {
    var all := done + SeriesWrites(i, data, datetime);
    var k := |done| + j;
    assert all[k] == Write(i, KeyOf(data[j].0, datetime), data[j].1);
    assert all[..k + 1] == all[..k] + [all[k]];
    FillSnoc(all[..k], all[k], n, inherited);
  }

  /** One more write. */
  lemma FillSnoc(w: seq<Write>, x: Write, n: nat, inherited: set<string>)
    requires Within(w, n) && x.series < n
    ensures Within(w + [x], n)
    ensures FillAll(w + [x], n, inherited) ==
            if FillAll(w, n, inherited).Err? then FillAll(w, n, inherited)
            else if x.key.Err? then Err(x.key.error)
            else Place(FillAll(w, n, inherited).value, n, x.series, x.key.value, x.value, inherited)
  {
    assert (w + [x])[..|w|] == w;
  }

  /** `if (!rows[k]) rows[k] = new Array(n); rows[k][i] = v`. */
  method Assign(rows: Table, n: nat, i: nat, k: string, v: Float, inherited: set<string>) returns (r: Result<Table>)
    requires Valid(rows, n) && i < n
    ensures r == Place(rows, n, i, k, v, inherited)
  {
    if k == "length" {
      // `rows.length` is 0 exactly when no own key is an array index
      var e := if n >= 2 && !HasIndexKey(rows.keys) then RangeError else TypeError;
      return Err(e);
    }
    var t := rows;
    if k !in t.cells && k !in inherited {
      t := Table(t.keys + [k], t.cells[k := Holes(n)]);
      assert t.cells[k := t.cells[k][i := Some(v)]] == rows.cells[k := Holes(n)[i := Some(v)]];
    }
    if k in t.cells {
      t := t.(cells := t.cells[k := t.cells[k][i := Some(v)]]);
    }
    r := Ok(t);
  }

  /** `for (i in rows) if (rows.hasOwnProperty(i)) categories.push(i)`; the
    * visiting order is the engine's. */
  method CategoriesLoop(rows: Table) returns (categories: seq<string>)
    requires forall j :: 0 <= j < |rows.keys| ==> rows.keys[j] in rows.cells
    ensures categories == Categories(rows)
  {
    var visit := ForInOrder(Entries(rows));
    categories := [];
    for x := 0 to |visit|
      invariant categories == Names(visit[..x])
    {
      NamesPrefix(visit, x);
      categories := categories + [visit[x].0];
    }
    assert visit[..|visit|] == visit;
  }

  /** The loops building `newSeries`. */
  method NewSeriesLoop(series: seq<Normalize.Series>, rows: Table, categories: seq<string>)
    returns (newSeries: seq<(Raw, seq<Float>)>)
    requires Valid(rows, |series|) && forall j :: 0 <= j < |categories| ==> categories[j] in rows.cells
    ensures newSeries == NewSeries(series, rows, categories)
  {
    newSeries := [];
    for i := 0 to |series|
      invariant |newSeries| == i
      invariant forall x :: 0 <= x < i ==> newSeries[x] == (series[x].name, Values(rows, |series|, categories, x))
    {
      var d := [];
      for j := 0 to |categories|
        invariant |d| == j && forall y :: 0 <= y < j ==> d[y] == Cell(rows.cells[categories[y]][i])
      {
        d := d + [Cell(rows.cells[categories[j]][i])];
      }
      assert d == Values(rows, |series|, categories, i);
      newSeries := newSeries + [(series[i].name, d)];
    }
  }

  /** Highcharts' `renderColumnChart`: the categories and the series it hands to the chart. */
  method RenderColumnChart(series: seq<Normalize.Series>, inherited: set<string>)
    returns (r: Result<(seq<string>, seq<(Raw, seq<Float>)>)>)
    requires Labelled(series)
    ensures r == ColumnChart(series, inherited)
  {
    var filled := FillRows(series, false, inherited);
    if filled.Err? {
      return Err(filled.error);
    }
    var rows := filled.value;
    var categories := CategoriesLoop(rows);
    var newSeries := NewSeriesLoop(series, rows, categories);
    r := Ok((categories, newSeries));
  }

  /** The loop building `rows2`. */
  method RowsLoop(rows: Table, categories: seq<string>, datetime: bool)
    returns (rows2: seq<(Key, seq<Option<Float>>)>)
    requires forall j :: 0 <= j < |categories| ==> categories[j] in rows.cells
    ensures rows2 == TableRows(rows, categories, datetime)
  {
    rows2 := [];
    for x := 0 to |categories|
      invariant |rows2| == x
      invariant forall y :: 0 <= y < x ==> rows2[y] == (RowLabel(categories[y], datetime), rows.cells[categories[y]])
    {
      rows2 := rows2 + [(RowLabel(categories[x], datetime), rows.cells[categories[x]])];
    }
  }

  /** Google's `createDataTable`; the sort is the engine's. */
  method CreateDataTableLoop(series: seq<Normalize.Series>, datetime: bool, inherited: set<string>)
    returns (r: Result<DataTable>)
    requires !datetime ==> Labelled(series)
    ensures r == CreateDataTable(series, datetime, inherited)
  {
    var columns := [];
    for i := 0 to |series|
      invariant columns == SeriesNames(series[..i])
    {
      columns := columns + [series[i].name];
    }
    assert series[..|series|] == series;
    var filled := FillRows(series, datetime, inherited);
    if filled.Err? {
      return Err(filled.error);
    }
    var rows := filled.value;
    var categories := CategoriesLoop(rows);
    var rows2 := RowsLoop(rows, categories, datetime);
    if datetime {
      var sorted := SortByTime(rows2);
      if sorted.Err? {
        return Err(sorted.error);
      }
      rows2 := sorted.value;
    }
    r := Ok(DataTable(columns, rows2));
  }
}
