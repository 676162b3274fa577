/**
 * The JavaScript values chart data is made of, and the coercions chartkick.js
 * applies to them: `toStr`, `toFloat`, `toDate`, `toArr` and `sortByTime`.
 *
 * What depends on the JavaScript engine's floating point or on the browser
 * (number formatting for non-integers, `parseFloat`, `Date.prototype.toString`
 * and the `new Date(string)` fallback parser) is a parameter: a `Host`.
 */
module Coerce {
  import opened Wrappers
  import opened Text
  import Iso8601
  import Sorting

  /** An IEEE double as far as the model needs it. */
  datatype Float = NaN | Fin(x: real) | Inf(negative: bool)

  /** The time value inside a `Date`: milliseconds since the epoch, or an invalid date. */
  datatype Time = Invalid | At(ms: int)

  /**
   * A JavaScript value as it arrives in chart data.  An object is its own
   * enumerable properties in creation order (lookups use the first entry for
   * a key).
   */
  datatype Raw =
    | RUndefined
    | RNull
    | RBool(b: bool)
    | RNum(n: Float)
    | RStr(s: string)
    | RDate(t: Time)
    | RList(items: seq<Raw>)
    | RObj(entries: seq<(string, Raw)>)

  /** The engine- and browser-dependent operations. */
  datatype Host = Host(
    parseFloat: string -> Float,        // parseFloat of a string
    numberToString: real -> string,     // String(x) for a non-integer or a magnitude of 10^21 or more
    dateToString: int -> string,        // String(date) for a valid date
    parseDate: string -> Time)          // new Date(string)

  predicate IsNegative(f: Float) {
    (f.Fin? && f.x < 0.0) || f == Inf(true)
  }

  /** The falsy numbers: NaN and zero. */
  predicate Falsy(f: Float) {
    f == NaN || f == Fin(0.0)
  }

  // ---------------------------------------------------------------------
  // toStr

  function Join(parts: seq<string>): (r: string)
    ensures parts == [] ==> r == ""
    ensures |parts| == 1 ==> r == parts[0]
  {
    if parts == [] then ""
    else if |parts| == 1 then parts[0]
    else Join(parts[..|parts| - 1]) + "," + parts[|parts| - 1]
  }

  predicate IsIntegral(x: real) {
    x == x.Floor as real
  }

  function NumberToStr(f: Float, host: Host): string {
    match f
    case NaN => "NaN"
    case Inf(negative) => if negative then "-Infinity" else "Infinity"
    case Fin(x) =>
      if IsIntegral(x) && -1000000000000000000000.0 < x < 1000000000000000000000.0
      then IntToDecimal(x.Floor)
      else host.numberToString(x)
  }

  /** `"" + n`. */
  function ToStr(v: Raw, host: Host): string {
    match v
    case RUndefined => "undefined"
    case RNull => "null"
    case RBool(b) => if b then "true" else "false"
    case RNum(f) => NumberToStr(f, host)
    case RStr(s) => s
    case RDate(t) => if t.Invalid? then "Invalid Date" else host.dateToString(t.ms)
    case RList(items) =>
      // Array.prototype.join: null and undefined elements become empty
      Join(seq(|items|, i requires 0 <= i < |items| =>
        if items[i].RNull? || items[i].RUndefined? then "" else ToStr(items[i], host)))
    case RObj(_) => "[object Object]"
  }

  /** `toStr` spells a whole number in decimal, and reading the digits back gives the number. */
  lemma ToStrNat(n: nat, host: Host)
    requires n < 1000000000000000000000
    ensures ToStr(RNum(Fin(n as real)), host) == NatToDecimal(n)
    ensures DecimalValue(ToStr(RNum(Fin(n as real)), host)) == n
  {
    DecimalRoundTrip(n);
  }

  // ---------------------------------------------------------------------
  // toFloat

  /** `parseFloat(n)`.  A number comes back unchanged, because String(x)
    * spells a double exactly enough to read it back; everything else is
    * parsed from its string form. */
  function ToFloat(v: Raw, host: Host): (r: Float)
    ensures v.RNum? ==> r == v.n
  {
    if v.RNum? then v.n else host.parseFloat(ToStr(v, host))
  }

  // ---------------------------------------------------------------------
  // toDate

  /** Rounding toward zero. */
  function Trunc(x: real): (r: int)
    ensures x >= 0.0 ==> 0.0 <= r as real <= x < r as real + 1.0
    ensures x < 0.0 ==> r as real - 1.0 < x <= r as real <= 0.0
  {
    if x >= 0.0 then x.Floor else -((-x).Floor)
  }

  const MaxTime: real := 8640000000000000.0

  /** ECMAScript TimeClip. */
  function TimeClip(x: real): (r: Time)
    ensures r.Invalid? <==> x > MaxTime || x < -MaxTime
    ensures r.At? ==> -MaxTime <= r.ms as real <= MaxTime
  {
    if x > MaxTime || x < -MaxTime then Invalid else At(Trunc(x))
  }

  /** `new Date(n * 1000)`: `n` is seconds since the epoch. */
  function FromSeconds(f: Float): (r: Time)
    ensures f.Fin? && IsIntegral(f.x) && -MaxTime <= f.x * 1000.0 <= MaxTime ==>
              r == At(f.x.Floor * 1000)
    ensures !f.Fin? ==> r == Invalid
  {
    if f.Fin? then TimeClip(f.x * 1000.0) else Invalid
  }

  /** The clean-up before matching: the first space becomes `T`, the next
    * space is removed, and the first `UTC` becomes `Z`. */
  function Clean(s: string): string {
    ReplaceFirst(ReplaceFirst(ReplaceFirst(s, " ", "T"), " ", ""), "UTC", "Z")
  }

  /** `parseISO8601(input)`: a Date comes back unchanged, anything that is not
    * a string gives nothing, a string gives the instant of its first match. */
  function ParseIsoValue(input: Raw): (r: Option<Time>)
    ensures input.RDate? ==> r == Some(input.t)
    ensures !input.RDate? && !input.RStr? ==> r.None?
    ensures input.RStr? ==> (r.Some? <==> Iso8601.Parse(input.s).Some?)
  {
    match input
    case RDate(t) => Some(t)
    case RStr(s) =>
      (match Iso8601.Parse(s)
       case Some(ms) => Some(TimeClip(ms as real))
       case None => None)
    case _ => None
  }

  /** A series key once `toDate` has run: a date, or an object that was left as it was. */
  datatype Stamp = Date(t: Time) | Other(v: Raw)

  /** `toDate(n)`. */
  function ToDate(v: Raw, host: Host): (r: Result<Stamp>)
    ensures v.RDate? ==> r == Ok(Date(v.t))
    ensures v.RNum? ==> r == Ok(Date(FromSeconds(v.n)))
    ensures v.RBool? || v.RUndefined? ==> r == Err(TypeError)
    ensures v.RNull? || v.RList? || v.RObj? ==> r == Ok(Other(v))
    ensures v.RStr? ==> r.Ok? && r.value.Date?
  {
    match v
    case RNum(f) => Ok(Date(FromSeconds(f)))
    case RStr(s) =>
      var cleaned := Clean(s);
      (match ParseIsoValue(RStr(cleaned))
       case Some(t) => Ok(Date(t))
       case None => Ok(Date(host.parseDate(s))))
    case RBool(_) => Err(TypeError)     // a boolean has no `replace`
    case RUndefined => Err(TypeError)
    case RDate(t) => Ok(Date(t))
    case _ => Ok(Other(v))              // typeof "object": returned as it is
  }

  /** A string the ISO matcher accepts after clean-up is read by it, never by the host's parser. */
  lemma ToDateIso(s: string, host: Host)
    requires Iso8601.Parse(Clean(s)).Some?
    ensures ToDate(RStr(s), host) == Ok(Date(TimeClip(Iso8601.Parse(Clean(s)).value as real)))
  {
    assert ParseIsoValue(RStr(Clean(s))) == Some(TimeClip(Iso8601.Parse(Clean(s)).value as real));
  }

  /** A string the matcher rejects after clean-up goes to the host's parser unchanged. */
  lemma ToDateFallback(s: string, host: Host)
    requires Iso8601.Parse(Clean(s)).None?
    ensures ToDate(RStr(s), host) == Ok(Date(host.parseDate(s)))
  {
    assert ParseIsoValue(RStr(Clean(s))).None?;
  }

  /** A space-separated date and time reads like the `T`-separated one. */
  lemma CleanSpace(d: string, t: string)
    requires forall k: nat :: !OccursAt(d, " ", k)
    requires forall k: nat :: !OccursAt(t, " ", k)
    requires forall k: nat :: !OccursAt(d + "T" + t, "UTC", k)
    ensures Clean(d + " " + t) == d + "T" + t
  {
    var s := d + " " + t;
    forall k: nat | k < |d|
      ensures !OccursAt(s, " ", k)
    {
      assert s[k..k + 1] == d[k..k + 1];
      assert !OccursAt(d, " ", k);
    }
    assert OccursAt(s, " ", |d|);
    assert s[..|d|] == d && s[|d| + 1..] == t;
    var u := d + "T" + t;
    forall k: nat | k + 1 <= |u|
      ensures !OccursAt(u, " ", k)
    {
      if k < |d| {
        assert u[k..k + 1] == d[k..k + 1];
        assert !OccursAt(d, " ", k);
      } else if k > |d| {
        assert u[k..k + 1] == t[k - |d| - 1..k - |d|];
        assert !OccursAt(t, " ", k - |d| - 1);
      } else {
        assert u[k] == 'T';
      }
    }
  }

  // ---------------------------------------------------------------------
  // Property order of for...in and toArr

  /** A canonical array index: the decimal spelling of a number below 2^32 - 1. */
  predicate IsArrayIndex(k: string) {
    |k| > 0 && AllDigits(k) && (k[0] != '0' || k == "0") && DecimalValue(k) < 0xFFFF_FFFF
  }

  function IndexValue(k: string): nat {
    if AllDigits(k) then DecimalValue(k) else 0
  }

  function Filter<T>(s: seq<T>, keep: T -> bool): (r: seq<T>)
    ensures |r| <= |s|
    ensures forall i :: 0 <= i < |r| ==> keep(r[i])
    ensures multiset(r) <= multiset(s)
  {
    if s == [] then []
    else
      assert s == s[..|s| - 1] + [s[|s| - 1]];
      Filter(s[..|s| - 1], keep) + (if keep(s[|s| - 1]) then [s[|s| - 1]] else [])
  }

  /** Splitting a sequence by a test and putting the parts together keeps every element. */
  lemma FilterSplit<T>(s: seq<T>, keep: T -> bool, drop: T -> bool)
    requires forall x :: drop(x) == !keep(x)
    ensures multiset(Filter(s, keep)) + multiset(Filter(s, drop)) == multiset(s)
  {
    if s != [] {
      assert s == s[..|s| - 1] + [s[|s| - 1]];
      FilterSplit(s[..|s| - 1], keep, drop);
    }
  }

  predicate IndexEntry<V>(e: (string, V)) {
    IsArrayIndex(e.0)
  }

  predicate OtherEntry<V>(e: (string, V)) {
    !IsArrayIndex(e.0)
  }

  predicate IndexAfter<V>(a: (string, V), b: (string, V)) {
    IndexValue(a.0) > IndexValue(b.0)
  }

  /** The order in which `for...in` visits own properties: array indices
    * ascending, then the other keys in creation order. */
  function ForInOrder<V>(entries: seq<(string, V)>): (r: seq<(string, V)>)
    ensures multiset(r) == multiset(entries)
  {
    FilterSplit(entries, IndexEntry<V>, OtherEntry<V>);
    Sorting.Sort(Filter(entries, IndexEntry<V>), IndexAfter<V>) + Filter(entries, OtherEntry<V>)
  }

  /** The index keys come first, in ascending numeric order, and the other keys keep their order. */
  lemma ForInOrderShape<V(!new)>(entries: seq<(string, V)>)
    ensures var idx := Filter(entries, IndexEntry<V>);
            var r := ForInOrder(entries);
            && |idx| <= |r|
            && (forall i :: 0 <= i < |idx| ==> IsArrayIndex(r[i].0))
            && Sorting.SortedBy(r[..|idx|], EntryIndex<V>)
            && r[|idx|..] == Filter(entries, OtherEntry<V>)
  {
    var idx := Filter(entries, IndexEntry<V>);
    var sorted := Sorting.Sort(idx, IndexAfter<V>);
    assert Sorting.AgreesOn(AnyEntry<V>, IndexAfter<V>, EntryIndex<V>);
    Sorting.SortSorted(idx, IndexAfter<V>, EntryIndex<V>, AnyEntry<V>);
    Sorting.SortKeepsValid(idx, IndexAfter<V>, IndexEntry<V>);
    assert ForInOrder(entries)[..|idx|] == sorted;
  }

  /** With no array-index key, `for...in` visits the keys in creation order. */
  lemma ForInOrderPlain<V>(entries: seq<(string, V)>)
    requires forall j :: 0 <= j < |entries| ==> !IsArrayIndex(entries[j].0)
    ensures ForInOrder(entries) == entries
  {
    FilterNone(entries, IndexEntry<V>);
    FilterEvery(entries, OtherEntry<V>);
  }

  lemma {:induction false} FilterNone<T>(s: seq<T>, keep: T -> bool)
    requires forall j :: 0 <= j < |s| ==> !keep(s[j])
    ensures Filter(s, keep) == []
    decreases |s|
  {
    if s != [] {
      FilterNone(s[..|s| - 1], keep);
    }
  }

  lemma {:induction false} FilterEvery<T>(s: seq<T>, keep: T -> bool)
    requires forall j :: 0 <= j < |s| ==> keep(s[j])
    ensures Filter(s, keep) == s
    decreases |s|
  {
    if s != [] {
      var init, last := s[..|s| - 1], s[|s| - 1];
      FilterEvery(init, keep);
      assert keep(last);
      assert Filter(s, keep) == Filter(init, keep) + [last];
      assert init + [last] == s;
    }
  }

  function EntryIndex<V>(e: (string, V)): int {
    IndexValue(e.0)
  }

  predicate AnyEntry<V>(e: (string, V)) {
    true
  }

  /** One `[key, value]` pair as `toArr` pushes it. */
  function Pair(k: string, v: Raw): Raw {
    RList([RStr(k), v])
  }

  /** The own enumerable properties of a value that is not an array, in `for...in`
    * order: a string enumerates its characters, a number, boolean, Date, null
    * or undefined nothing. */
  function Enumerate(n: Raw): (r: seq<(string, Raw)>)
    ensures n.RObj? ==> multiset(r) == multiset(n.entries) && |r| == |n.entries|
    ensures n.RStr? ==> |r| == |n.s| && forall i :: 0 <= i < |r| ==> r[i] == (NatToDecimal(i), RStr([n.s[i]]))
    ensures !n.RObj? && !n.RStr? ==> r == []
  {
    match n
    case RObj(entries) =>
      var r := ForInOrder(entries);
      assert |r| == |entries| by { assert |multiset(r)| == |multiset(entries)|; }
      r
    case RStr(s) => seq(|s|, i requires 0 <= i < |s| => (NatToDecimal(i), RStr([s[i]])))
    case _ => []
  }

  /** `toArr(n)`: an array as it is, otherwise one `[key, n[key]]` pair per
    * own enumerable property, in `for...in` order: a string gives its
    * characters under their indices, an object its properties. */
  function ToArr(n: Raw): (r: seq<Raw>)
    ensures n.RList? ==> r == n.items
    ensures n.RStr? ==> |r| == |n.s| && forall i :: 0 <= i < |r| ==> r[i] == Pair(NatToDecimal(i), Elem(n, i).value)
    ensures n.RObj? ==> |r| == |n.entries|
    ensures n.RObj? && DistinctKeys(n.entries) ==>
              forall i :: 0 <= i < |r| ==> r[i] == Pair(Enumerate(n)[i].0, Prop(n, Enumerate(n)[i].0).value)
    ensures !n.RList? && !n.RStr? && !n.RObj? ==> r == []
  {
    if n.RList? then n.items
    else
      var props := Enumerate(n);
      EnumerateReads(n);
      seq(|props|, i requires 0 <= i < |props| => Pair(props[i].0, props[i].1))
  }

  /** No key occurs twice, as in any JavaScript object. */
  predicate DistinctKeys(entries: seq<(string, Raw)>) {
    forall i, j :: 0 <= i < j < |entries| ==> entries[i].0 != entries[j].0
  }

  /** Each enumerated property holds what reading it gives. */
  lemma EnumerateReads(n: Raw)
    ensures n.RObj? && DistinctKeys(n.entries) ==>
              forall i :: 0 <= i < |Enumerate(n)| ==> Prop(n, Enumerate(n)[i].0) == Ok(Enumerate(n)[i].1)
  {
    if n.RObj? && DistinctKeys(n.entries) {
      var props := Enumerate(n);
      forall i | 0 <= i < |props|
        ensures Prop(n, props[i].0) == Ok(props[i].1)
      {
        assert props[i] in multiset(n.entries);
        LookupMember(n.entries, props[i]);
      }
    }
  }

  /** With distinct keys, reading a key finds its entry. */
  lemma {:induction false} LookupMember(entries: seq<(string, Raw)>, e: (string, Raw))
    requires DistinctKeys(entries) && e in entries
    ensures Lookup(entries, e.0) == e.1
    decreases |entries|
  {
    if entries[0] != e {
      var j :| 0 <= j < |entries| && entries[j] == e;
      assert j > 0;
      assert entries[1..][j - 1] == e;
      LookupMember(entries[1..], e);
    }
  }

  /** `toArr` as the source writes it: a `for...in` loop that pushes each pair. */
  method ToArrLoop(n: Raw) returns (arr: seq<Raw>)
    ensures arr == ToArr(n)
  {
    if n.RList? {
      arr := n.items;
    } else {
      arr := PushPairs(Enumerate(n));
    }
  }

  /** The loop body of `toArr`: `arr.push([i, n[i]])` for each property in turn. */
  method PushPairs(props: seq<(string, Raw)>) returns (arr: seq<Raw>)
    ensures |arr| == |props|
    ensures forall j :: 0 <= j < |arr| ==> arr[j] == Pair(props[j].0, props[j].1)
  {
    arr := [];
    var i := 0;
    while i < |props|
      invariant 0 <= i <= |props|
      invariant |arr| == i
      invariant forall j :: 0 <= j < i ==> arr[j] == Pair(props[j].0, props[j].1)
    {
      arr := arr + [Pair(props[i].0, props[i].1)];
      i := i + 1;
    }
  }

  // ---------------------------------------------------------------------
  // Property access on data points

  /** `v[i]`: reading an index of null or undefined throws. */
  function Elem(v: Raw, i: nat): (r: Result<Raw>)
    ensures r.Err? <==> v.RNull? || v.RUndefined?
    ensures v.RList? && i < |v.items| ==> r == Ok(v.items[i])
  {
    match v
    case RNull => Err(TypeError)
    case RUndefined => Err(TypeError)
    case RList(items) => Ok(if i < |items| then items[i] else RUndefined)
    case RStr(s) => Ok(if i < |s| then RStr([s[i]]) else RUndefined)
    case RObj(entries) => Ok(Lookup(entries, NatToDecimal(i)))
    case _ => Ok(RUndefined)
  }

  /** The first entry for `k`, or undefined. */
  function Lookup(entries: seq<(string, Raw)>, k: string): (r: Raw)
    ensures (forall i :: 0 <= i < |entries| ==> entries[i].0 != k) ==> r == RUndefined
    ensures entries != [] && entries[0].0 == k ==> r == entries[0].1
  {
    if entries == [] then RUndefined
    else if entries[0].0 == k then entries[0].1
    else Lookup(entries[1..], k)
  }

  /** `v.name`: reading a property of null or undefined throws; only objects have own properties here. */
  function Prop(v: Raw, name: string): (r: Result<Raw>)
    ensures r.Err? <==> v.RNull? || v.RUndefined?
    ensures !v.RObj? && r.Ok? ==> r.value == RUndefined
  {
    match v
    case RNull => Err(TypeError)
    case RUndefined => Err(TypeError)
    case RObj(entries) => Ok(Lookup(entries, name))
    case _ => Ok(RUndefined)
  }

  // ---------------------------------------------------------------------
  // sortByTime

  /** The key of a data point once `processSeries` has coerced it: a string
    * for category charts, the result of `toDate` for time charts. */
  datatype Key = Label(s: string) | When(stamp: Stamp)

  /** The key has a `getTime` method: it is a Date. */
  predicate IsDateKey(k: Key) {
    k.When? && k.stamp.Date?
  }

  /** `a[0].getTime() - b[0].getTime() > 0`; a NaN difference counts as equal. */
  predicate TimeAfter<V>(a: (Key, V), b: (Key, V)) {
    IsDateKey(a.0) && IsDateKey(b.0) && a.0.stamp.t.At? && b.0.stamp.t.At? &&
    a.0.stamp.t.ms > b.0.stamp.t.ms
  }

  /** A point whose key is a valid date. */
  predicate ValidTime<V>(p: (Key, V)) {
    IsDateKey(p.0) && p.0.stamp.t.At?
  }

  function TimeOf<V>(p: (Key, V)): int {
    if ValidTime(p) then p.0.stamp.t.ms else 0
  }

  /** `r.sort(sortByTime)`: `getTime` on a key that is not a Date throws once
    * the sort compares it, which it does whenever there are two or more points. */
  function SortByTime<V>(r: seq<(Key, V)>): (o: Result<seq<(Key, V)>>)
    ensures o.Err? <==> |r| >= 2 && exists i :: 0 <= i < |r| && !IsDateKey(r[i].0)
    ensures o.Ok? ==> multiset(o.value) == multiset(r) && |o.value| == |r|
  {
    if |r| >= 2 && exists i :: 0 <= i < |r| && !IsDateKey(r[i].0) then Err(TypeError)
    else Ok(Sorting.Sort(r, TimeAfter<V>))
  }

  /** When every key is a valid date the sorted points are in non-decreasing time order. */
  lemma SortByTimeSorted<V(!new)>(r: seq<(Key, V)>)
    requires forall i :: 0 <= i < |r| ==> ValidTime(r[i])
    ensures SortByTime(r).Ok?
    ensures Sorting.SortedBy(SortByTime(r).value, TimeOf<V>)
  {
    assert Sorting.AgreesOn(ValidTime<V>, TimeAfter<V>, TimeOf<V>);
    Sorting.SortSorted(r, TimeAfter<V>, TimeOf<V>, ValidTime<V>);
  }
}
