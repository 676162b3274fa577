/**
 * `parseISO8601` of chartkick.js: the pattern
 *   YYYY[-]MM[-]DD[T]hh[:][mm][:][ss][(.|,)f+]( end | Z | (+|-)hh[:][mm] )
 * (case-insensitive, so `t` and `z` are accepted too), the field arithmetic
 * and `Date.UTC` as integer day counting in the proleptic Gregorian calendar.
 *
 * `MatchIso` is a deterministic matcher anchored at the first character that
 * takes every optional part greedily and never backtracks; whenever it
 * succeeds, its groups are those of the first match a backtracking engine
 * finds for the same pattern.
 */
module Iso8601 {
  import opened Wrappers
  import opened Text

  datatype Zone =
    | AtEnd                                                         // `$`: no zone, read as UTC
    | Zulu(letter: char)                                            // `Z` or `z`
    | Offset(sign: char, hours: string, colon: bool, minutes: Option<string>)

  /** The capture groups of a successful match. */
  datatype IsoMatch = IsoMatch(
    year: string, dash1: bool, month: string, dash2: bool, day: string,
    tee: Option<char>, hour: string, colon1: bool, minute: Option<string>,
    colon2: bool, second: Option<string>, fraction: Option<(char, string)>, zone: Zone)

  // ---------------------------------------------------------------------
  // Matching

  /** The optional one-character group `(a|b)?` at the front of `t`, and what follows it. */
  function TakeChar(t: string, a: char, b: char): (r: (Option<char>, string))
    ensures r.0.Some? ==> r.0.value == a || r.0.value == b
    ensures |r.1| <= |t|
  {
    if t != [] && (t[0] == a || t[0] == b) then (Some(t[0]), t[1..]) else (None, t)
  }

  /** Exactly `n` digits at the front of `t`, and what follows them. */
  function TakeDigits(t: string, n: nat): (r: (Option<string>, string))
    ensures r.0.Some? ==> |r.0.value| == n && AllDigits(r.0.value)
    ensures |r.1| <= |t|
  {
    if |t| >= n && AllDigits(t[..n]) then (Some(t[..n]), t[n..]) else (None, t)
  }

  /** The length of the greedy `\d+` at the front of `t` (0 when there is none). */
  function DigitRun(t: string): (n: nat)
    ensures n <= |t| && AllDigits(t[..n])
    ensures n < |t| ==> !IsDigit(t[n])
  {
    if t != [] && IsDigit(t[0]) then
      var n := 1 + DigitRun(t[1..]);
      assert t[..n] == [t[0]] + t[1..][..n - 1];
      n
    else 0
  }

  /** The optional group `([.,]\d+)?`. */
  function TakeFraction(t: string): (r: (Option<(char, string)>, string))
    ensures r.0.Some? ==> |r.0.value.1| > 0 && AllDigits(r.0.value.1)
  {
    var (sep, u) := TakeChar(t, '.', ',');
    var n := DigitRun(u);
    if sep.Some? && n > 0 then (Some((sep.value, u[..n])), u[n..]) else (None, t)
  }

  /** The zone alternatives `$`, `Z` and `[+-]\d\d:?(\d\d)?`, tried in that order. */
  function ZoneOf(t: string): (r: Option<Zone>)
    ensures r.Some? && r.value.Offset? ==>
      |r.value.hours| == 2 && AllDigits(r.value.hours) &&
      (r.value.minutes.Some? ==> |r.value.minutes.value| == 2 && AllDigits(r.value.minutes.value))
  {
    if t == [] then Some(AtEnd)
    else if t[0] == 'Z' || t[0] == 'z' then Some(Zulu(t[0]))
    else if t[0] == '+' || t[0] == '-' then
      var (hours, u) := TakeDigits(t[1..], 2);
      if hours.None? then None
      else
        var (colon, v) := TakeChar(u, ':', ':');
        Some(Offset(t[0], hours.value, colon.Some?, TakeDigits(v, 2).0))
    else None
  }

  /** The digit groups have the lengths the pattern gives them. */
  predicate Shaped(m: IsoMatch) {
    && |m.year| == 4 && AllDigits(m.year)
    && |m.month| == 2 && AllDigits(m.month)
    && |m.day| == 2 && AllDigits(m.day)
    && |m.hour| == 2 && AllDigits(m.hour)
    && (m.minute.Some? ==> |m.minute.value| == 2 && AllDigits(m.minute.value))
    && (m.second.Some? ==> |m.second.value| == 2 && AllDigits(m.second.value))
    && (m.fraction.Some? ==> |m.fraction.value.1| > 0 && AllDigits(m.fraction.value.1))
    && (m.zone.Offset? ==>
          |m.zone.hours| == 2 && AllDigits(m.zone.hours) &&
          (m.zone.minutes.Some? ==> |m.zone.minutes.value| == 2 && AllDigits(m.zone.minutes.value)))
  }

  /** `input.match(ISO8601_PATTERN)`, for matches that start at the first character. */
  function MatchIso(s: string): (r: Option<IsoMatch>)
    ensures r.Some? ==> Shaped(r.value)
  {
    // each step holds the group it took and the rest of the input
    var year := TakeDigits(s, 4);
    var dash1 := TakeChar(year.1, '-', '-');
    var month := TakeDigits(dash1.1, 2);
    var dash2 := TakeChar(month.1, '-', '-');
    var day := TakeDigits(dash2.1, 2);
    var tee := TakeChar(day.1, 'T', 't');
    var hour := TakeDigits(tee.1, 2);
    var colon1 := TakeChar(hour.1, ':', ':');
    var minute := TakeDigits(colon1.1, 2);
    var colon2 := TakeChar(minute.1, ':', ':');
    var second := TakeDigits(colon2.1, 2);
    var fraction := TakeFraction(second.1);
    if year.0.None? || month.0.None? || day.0.None? || hour.0.None? then None
    else
      match ZoneOf(fraction.1)
      case None => None
      case Some(zone) =>
        Some(IsoMatch(year.0.value, dash1.0.Some?, month.0.value, dash2.0.Some?, day.0.value, tee.0,
                      hour.0.value, colon1.0.Some?, minute.0, colon2.0.Some?, second.0, fraction.0, zone))
  }

  // ---------------------------------------------------------------------
  // Rendering: the partner of the matcher

  function CharStr(o: Option<char>): string {
    if o.Some? then [o.value] else []
  }

  function Mark(present: bool, c: char): Option<char> {
    if present then Some(c) else None
  }

  function Flag(present: bool, c: char): string {
    CharStr(Mark(present, c))
  }

  function OptStr(o: Option<string>): string {
    if o.Some? then o.value else []
  }

  function FractionStr(f: Option<(char, string)>): string {
    if f.Some? then [f.value.0] + f.value.1 else []
  }

  function ZoneStr(z: Zone): string {
    match z
    case AtEnd => []
    case Zulu(c) => [c]
    case Offset(sign, hh, colon, mm) => [sign] + hh + Flag(colon, ':') + OptStr(mm)
  }

  /** The string whose match gives back `m`. */
  function Render(m: IsoMatch): string {
    m.year + (Flag(m.dash1, '-') + (m.month + (Flag(m.dash2, '-') + (m.day + (CharStr(m.tee) +
    (m.hour + (Flag(m.colon1, ':') + (OptStr(m.minute) + (Flag(m.colon2, ':') + (OptStr(m.second) +
    (FractionStr(m.fraction) + ZoneStr(m.zone))))))))))))
  }

  /** The groups a greedy left-to-right match can produce: the separators are
    * the pattern's, and an absent minute is followed by no second, nor by a
    * second colon without a first one (the first colon would take it). */
  predicate WellFormed(m: IsoMatch) {
    && Shaped(m)
    && (m.tee.Some? ==> m.tee.value == 'T' || m.tee.value == 't')
    && (m.minute.None? ==> m.second.None? && (m.colon2 ==> m.colon1))
    && (m.fraction.Some? ==> m.fraction.value.0 == '.' || m.fraction.value.0 == ',')
    && (m.zone.Zulu? ==> m.zone.letter == 'Z' || m.zone.letter == 'z')
    && (m.zone.Offset? ==> m.zone.sign == '+' || m.zone.sign == '-')
  }

  /** A string that does not start with a digit. */
  predicate NoDigitFirst(t: string) {
    t == [] || !IsDigit(t[0])
  }

  lemma TakeCharBack(o: Option<char>, rest: string, a: char, b: char)
    requires o.Some? ==> o.value == a || o.value == b
    requires o.None? ==> rest == [] || (rest[0] != a && rest[0] != b)
    ensures TakeChar(CharStr(o) + rest, a, b) == (o, rest)
  {
    var t := CharStr(o) + rest;
    if o.Some? {
      assert t[0] == o.value && t[1..] == rest;
    } else {
      assert t == rest;
    }
  }

  lemma TakeDigitsBack(o: Option<string>, n: nat, rest: string)
    requires n > 0
    requires o.Some? ==> |o.value| == n && AllDigits(o.value)
    requires o.None? ==> NoDigitFirst(rest)
    ensures TakeDigits(OptStr(o) + rest, n) == (o, rest)
  {
    var t := OptStr(o) + rest;
    if o.Some? {
      assert t[..n] == o.value && t[n..] == rest;
    } else {
      assert t == rest;
      if |t| >= n {
        assert !IsDigit(t[..n][0]);
        assert !AllDigits(t[..n]);
      }
    }
  }

  lemma {:induction false} DigitRunBack(digits: string, rest: string)
    requires AllDigits(digits) && NoDigitFirst(rest)
    ensures DigitRun(digits + rest) == |digits|
    decreases |digits|
  {
    if digits != [] {
      assert (digits + rest)[1..] == digits[1..] + rest;
      DigitRunBack(digits[1..], rest);
    }
  }

  lemma TakeFractionBack(f: Option<(char, string)>, rest: string)
    requires f.Some? ==> (f.value.0 == '.' || f.value.0 == ',') && |f.value.1| > 0 && AllDigits(f.value.1)
    requires f.Some? ==> NoDigitFirst(rest)
    requires f.None? ==> rest == [] || (rest[0] != '.' && rest[0] != ',')
    ensures TakeFraction(FractionStr(f) + rest) == (f, rest)
  {
    var t := FractionStr(f) + rest;
    if f.Some? {
      var (c, digits) := f.value;
      assert t == CharStr(Some(c)) + (digits + rest);
      TakeCharBack(Some(c), digits + rest, '.', ',');
      DigitRunBack(digits, rest);
      assert (digits + rest)[..|digits|] == digits;
      assert (digits + rest)[|digits|..] == rest;
    } else {
      TakeCharBack(None, rest, '.', ',');
    }
  }

  lemma ZoneBack(z: Zone)
    requires z.Zulu? ==> z.letter == 'Z' || z.letter == 'z'
    requires z.Offset? ==> (z.sign == '+' || z.sign == '-') && |z.hours| == 2 && AllDigits(z.hours)
    requires z.Offset? && z.minutes.Some? ==> |z.minutes.value| == 2 && AllDigits(z.minutes.value)
    ensures ZoneOf(ZoneStr(z)) == Some(z)
  {
    if z.Offset? {
      var t := ZoneStr(z);
      var after := Flag(z.colon, ':') + OptStr(z.minutes);
      assert t[1..] == Some(z.hours).value + after;
      TakeDigitsBack(Some(z.hours), 2, after);
      assert z.hours + after == OptStr(Some(z.hours)) + after;
      TakeCharBack(if z.colon then Some(':') else None, OptStr(z.minutes), ':', ':');
      TakeDigitsBack(z.minutes, 2, []);
      assert OptStr(z.minutes) + [] == OptStr(z.minutes);
    }
  }

  /** The matcher's result, read off the results of its steps. */
  lemma MatchSteps(s: string, m: IsoMatch, t1: string, t2: string, t3: string, t4: string, t5: string,
                   t6: string, t7: string, t8: string, t9: string, t10: string, t11: string, t12: string)
    requires TakeDigits(s, 4) == (Some(m.year), t1)
    requires TakeChar(t1, '-', '-') == (Mark(m.dash1, '-'), t2)
    requires TakeDigits(t2, 2) == (Some(m.month), t3)
    requires TakeChar(t3, '-', '-') == (Mark(m.dash2, '-'), t4)
    requires TakeDigits(t4, 2) == (Some(m.day), t5)
    requires TakeChar(t5, 'T', 't') == (m.tee, t6)
    requires TakeDigits(t6, 2) == (Some(m.hour), t7)
    requires TakeChar(t7, ':', ':') == (Mark(m.colon1, ':'), t8)
    requires TakeDigits(t8, 2) == (m.minute, t9)
    requires TakeChar(t9, ':', ':') == (Mark(m.colon2, ':'), t10)
    requires TakeDigits(t10, 2) == (m.second, t11)
    requires TakeFraction(t11) == (m.fraction, t12)
    requires ZoneOf(t12) == Some(m.zone)
    ensures MatchIso(s) == Some(m)
  {
  }

  /** The fraction and zone steps give back the groups of a well-formed match. */
  lemma TailBack(m: IsoMatch, fs: string, zs: string)
    requires WellFormed(m)
    requires zs == ZoneStr(m.zone) && fs == FractionStr(m.fraction) + zs
    ensures TakeFraction(fs) == (m.fraction, zs)
    ensures ZoneOf(zs) == Some(m.zone)
    ensures NoDigitFirst(fs) && (fs == [] || fs[0] != ':')
  {
    ZoneBack(m.zone);
    assert NoDigitFirst(zs) && (zs == [] || (zs[0] != '.' && zs[0] != ',' && zs[0] != ':'));
    TakeFractionBack(m.fraction, zs);
  }

  /** The steps after the hour give back the groups of a well-formed match. */
  lemma ClockBack(m: IsoMatch, c1s: string, mis: string, c2s: string, ss: string, fs: string)
    requires WellFormed(m) && NoDigitFirst(fs) && (fs == [] || fs[0] != ':')
    requires ss == OptStr(m.second) + fs && c2s == Flag(m.colon2, ':') + ss
    requires mis == OptStr(m.minute) + c2s && c1s == Flag(m.colon1, ':') + mis
    ensures TakeChar(c1s, ':', ':') == (Mark(m.colon1, ':'), mis)
    ensures TakeDigits(mis, 2) == (m.minute, c2s)
    ensures TakeChar(c2s, ':', ':') == (Mark(m.colon2, ':'), ss)
    ensures TakeDigits(ss, 2) == (m.second, fs)
  {
    TakeDigitsBack(m.second, 2, fs);
    TakeCharBack(Mark(m.colon2, ':'), ss, ':', ':');
    assert m.minute.None? ==> NoDigitFirst(c2s);
    TakeDigitsBack(m.minute, 2, c2s);
    assert !m.colon1 ==> mis == [] || mis[0] != ':';
    TakeCharBack(Mark(m.colon1, ':'), mis, ':', ':');
  }

  /** Matching the rendering of well-formed groups gives the same groups back. */
  lemma RoundTrip(m: IsoMatch)
    requires WellFormed(m)
    ensures MatchIso(Render(m)) == Some(m)
  {
    var zs := ZoneStr(m.zone);
    var fs := FractionStr(m.fraction) + zs;
    var ss := OptStr(m.second) + fs;
    var c2s := Flag(m.colon2, ':') + ss;
    var mis := OptStr(m.minute) + c2s;
    var c1s := Flag(m.colon1, ':') + mis;
    var hs := m.hour + c1s;
    var ts := CharStr(m.tee) + hs;
    var ds := m.day + ts;
    var d2s := Flag(m.dash2, '-') + ds;
    var mos := m.month + d2s;
    var d1s := Flag(m.dash1, '-') + mos;
    assert Render(m) == m.year + d1s;
    TailBack(m, fs, zs);
    ClockBack(m, c1s, mis, c2s, ss, fs);
    TakeDigitsBack(Some(m.hour), 2, c1s);
    TakeCharBack(m.tee, hs, 'T', 't');
    TakeDigitsBack(Some(m.day), 2, ts);
    TakeCharBack(Mark(m.dash2, '-'), ds, '-', '-');
    TakeDigitsBack(Some(m.month), 2, d2s);
    TakeCharBack(Mark(m.dash1, '-'), mos, '-', '-');
    TakeDigitsBack(Some(m.year), 4, d1s);
    MatchSteps(Render(m), m, d1s, mos, d2s, ds, ts, hs, c1s, mis, c2s, ss, fs, zs);
  }

  // ---------------------------------------------------------------------
  // Date.UTC

  predicate IsLeapYear(y: int) {
    y % 4 == 0 && (y % 100 != 0 || y % 400 == 0)
  }

  function DaysInYear(y: int): int {
    if IsLeapYear(y) then 366 else 365
  }

  /** Days in month `m` (0 = January) of year `y`. */
  function DaysInMonth(y: int, m: int): int
    requires 0 <= m < 12
  {
    if m == 1 then (if IsLeapYear(y) then 29 else 28)
    else if m == 3 || m == 5 || m == 8 || m == 10 then 30
    else 31
  }

  /** Day number of January 1st of year `y`, counted from 1 January 1970
    * (ECMAScript DayFromYear; `/` on int rounds down for a positive divisor). */
  function DaysBeforeYear(y: int): int {
    365 * (y - 1970) + (y - 1969) / 4 - (y - 1901) / 100 + (y - 1601) / 400
  }

  /** Days from January 1st to the first day of month `m` of year `y`. */
  function DaysBeforeMonth(y: int, m: int): int
    requires 0 <= m <= 12
  {
    if m == 0 then 0 else DaysBeforeMonth(y, m - 1) + DaysInMonth(y, m - 1)
  }

  /** ECMAScript MakeDay: a month outside 0..11 carries into the year, a day
    * outside the month carries into the neighbouring months. */
  function MakeDay(y: int, m: int, d: int): int {
    var ym := y + m / 12;
    var mn := m % 12;
    DaysBeforeYear(ym) + DaysBeforeMonth(ym, mn) + d - 1
  }

  function MakeTime(h: int, min: int, s: int, ms: int): int {
    h * 3600000 + min * 60000 + s * 1000 + ms
  }

  /** `Date.UTC(year, month, day, hour, minutes, seconds, ms)`; a year from 0
    * to 99 means 1900 to 1999. */
  function DateUtc(y: int, m: int, d: int, h: int, min: int, s: int, ms: int): int {
    var yr := if 0 <= y <= 99 then 1900 + y else y;
    MakeDay(yr, m, d) * 86400000 + MakeTime(h, min, s, ms)
  }

  // ---------------------------------------------------------------------
  // Assembling the timestamp

  function OptValue(o: Option<string>): nat
    requires o.Some? ==> AllDigits(o.value)
  {
    if o.Some? then DecimalValue(o.value) else 0
  }

  /** Milliseconds of a fraction of a second: its first three digits. */
  function FractionMs(f: Option<(char, string)>): nat
    requires f.Some? ==> |f.value.1| > 0 && AllDigits(f.value.1)
  {
    if f.None? then 0 else
    var padded := f.value.1 + "00";
    assert forall i :: 0 <= i < 3 ==> IsDigit(padded[i]);
    DecimalValue(padded[..3])
  }

  /** The offset east of UTC in minutes, signed. */
  function OffsetMinutes(z: Zone): int
    requires z.Offset? ==> AllDigits(z.hours) && (z.minutes.Some? ==> AllDigits(z.minutes.value))
  {
    if !z.Offset? then 0 else
    var off := DecimalValue(z.hours) * 60 + OptValue(z.minutes);
    if z.sign == '-' then -off else off
  }

  /** The UTC field timestamp of a match, before the zone is applied. */
  function FieldsMs(m: IsoMatch): int
    requires Shaped(m)
  {
    DateUtc(DecimalValue(m.year), DecimalValue(m.month) - 1, DecimalValue(m.day),
            DecimalValue(m.hour), OptValue(m.minute), OptValue(m.second), FractionMs(m.fraction))
  }

  /** The milliseconds since the epoch that a match denotes. */
  function Assemble(m: IsoMatch): int
    requires Shaped(m)
  {
    FieldsMs(m) - OffsetMinutes(m.zone) * 60 * 1000
  }

  /** `input.match(ISO8601_PATTERN)`: the first position from `i` on where the
    * pattern matches, with the groups found there. */
  function Search(s: string, i: nat): (r: Option<(nat, IsoMatch)>)
    ensures r.Some? ==> i <= r.value.0 <= |s| && MatchIso(s[r.value.0..]) == Some(r.value.1)
    ensures r.Some? ==> NoMatchBetween(s, i, r.value.0)
    ensures r.None? ==> NoMatchBetween(s, i, |s| + 1)
    decreases |s| - i
  {
    if i > |s| then None
    else
      var found := MatchIso(s[i..]);
      if found.Some? then Some((i, found.value))
      else
        var r := Search(s, i + 1);
        NoMatchBefore(s, i, if r.Some? then r.value.0 else |s| + 1);
        r
  }

  /** The pattern matches at no position from `lo` up to, not including, `hi`. */
  predicate NoMatchBetween(s: string, lo: nat, hi: nat) {
    forall j :: lo <= j < hi && j <= |s| ==> MatchIso(s[j..]).None?
  }

  lemma NoMatchBefore(s: string, i: nat, hi: nat)
    requires i < hi && i <= |s| && MatchIso(s[i..]).None? && NoMatchBetween(s, i + 1, hi)
    ensures NoMatchBetween(s, i, hi)
  {
  }

  /** `parseISO8601` on a string: the instant, or nothing when the pattern matches nowhere. */
  function Parse(s: string): Option<int> {
    match Search(s, 0)
    case None => None
    case Some((_, m)) => Some(Assemble(m))
  }

  // ---------------------------------------------------------------------
  // Properties

  /** A year is as long as the gap between consecutive new years. */
  lemma YearLength(y: int)
    ensures DaysBeforeYear(y + 1) == DaysBeforeYear(y) + DaysInYear(y)
  {
    DivStep(y - 1969, 4);
    DivStep(y - 1901, 100);
    DivStep(y - 1601, 400);
    ShiftedLeap(y);
  }

  /** One more step of `x / d` crosses a multiple of `d` exactly when `x + 1`
    * is one, for the three divisors of the calendar. */
  lemma DivStep(x: int, d: int)
    requires d == 4 || d == 100 || d == 400
    ensures (x + 1) / d == x / d + (if (x + 1) % d == 0 then 1 else 0)
  {
    if d == 4 {
      assert (x + 1) / 4 == x / 4 + (if (x + 1) % 4 == 0 then 1 else 0);
    } else if d == 100 {
      assert (x + 1) / 100 == x / 100 + (if (x + 1) % 100 == 0 then 1 else 0);
    } else {
      assert (x + 1) / 400 == x / 400 + (if (x + 1) % 400 == 0 then 1 else 0);
    }
  }

  /** The leap-year tests on `y` and on the year shifted to each rule's epoch agree. */
  lemma ShiftedLeap(y: int)
    ensures (y - 1968) % 4 == 0 <==> y % 4 == 0
    ensures (y - 1900) % 100 == 0 <==> y % 100 == 0
    ensures (y - 1600) % 400 == 0 <==> y % 400 == 0
  {
  }

  /** A two-digit year is read as a year of the 1900s. */
  lemma TwoDigitYear(m: IsoMatch)
    requires Shaped(m) && DecimalValue(m.year) <= 99
    ensures Shaped(m.(year := NatToDecimal(1900 + DecimalValue(m.year))))
    ensures Assemble(m) == Assemble(m.(year := NatToDecimal(1900 + DecimalValue(m.year))))
  {
    var y := 1900 + DecimalValue(m.year);
    DecimalRoundTrip(y);
    FourDigits(y);
  }

  /** A year from 1000 to 9999 is spelled with four digits. */
  lemma FourDigits(y: nat)
    requires 1000 <= y <= 9999
    ensures |NatToDecimal(y)| == 4
  {
    assert NatToDecimal(y) == NatToDecimal(y / 10) + [DigitChar(y % 10)];
    assert NatToDecimal(y / 10) == NatToDecimal(y / 100) + [DigitChar(y / 10 % 10)];
    assert NatToDecimal(y / 100) == NatToDecimal(y / 1000) + [DigitChar(y / 100 % 10)];
  }

  /** A string without a zone is read as UTC, exactly like one ending in `Z`. */
  lemma NoZoneIsUtc(m: IsoMatch)
    requires Shaped(m) && m.zone.AtEnd?
    ensures Assemble(m) == Assemble(m.(zone := Zulu('Z')))
    ensures Assemble(m) == FieldsMs(m)
  {
  }

  /** An offset `±hh[:mm]` moves the instant by that many minutes west of the UTC fields. */
  lemma ZoneShift(m: IsoMatch)
    requires Shaped(m) && m.zone.Offset?
    ensures Assemble(m) == Assemble(m.(zone := Zulu('Z')))
              - (if m.zone.sign == '-' then -1 else 1)
                * (DecimalValue(m.zone.hours) * 60 + OptValue(m.zone.minutes)) * 60000
  {
  }

  /** A match takes at least the ten digits of date and hour. */
  lemma MatchLength(t: string)
    requires MatchIso(t).Some?
    ensures |t| >= 10
  {
  }

  /** A string that starts with a well-formed rendering parses to its groups' instant. */
  lemma ParseRendered(m: IsoMatch)
    requires WellFormed(m)
    ensures Parse(Render(m)) == Some(Assemble(m))
  {
    RoundTrip(m);
    assert Render(m)[0..] == Render(m);
  }

  /** A date without a time of day (`YYYY-MM-DD`) matches nowhere: the hour is mandatory. */
  lemma DateOnlyDoesNotParse(s: string)
    requires |s| == 10 && s[4] == '-' && s[7] == '-'
    ensures Parse(s).None?
  {
    forall j | 0 <= j <= |s|
      ensures MatchIso(s[j..]).None?
    {
      if j == 0 {
        assert s[j..] == s;
        DateOnlyDoesNotMatch(s);
      } else if MatchIso(s[j..]).Some? {
        MatchLength(s[j..]);
      }
    }
    SearchNone(s, 0);
  }

  lemma DateOnlyDoesNotMatch(s: string)
    requires |s| == 10 && s[4] == '-' && s[7] == '-'
    ensures MatchIso(s).None?
  {
  }

  /** No match at any position from `i` on: the search finds nothing. */
  lemma SearchNone(s: string, i: nat)
    requires forall j :: i <= j <= |s| ==> MatchIso(s[j..]).None?
    ensures Search(s, i).None?
  {
    if Search(s, i).Some? {
      assert false;
    }
  }
}
