/** The date-aligned KPI chart: a frame of calendar-day keys ending today,
    two series aligned onto it, linear scales onto a 220 x 100 view box, the
    polylines, axis labels and the hover readout. */
module LineGraph {
  import opened Base
  import opened JsText
  import opened Calendar

  // ---------------------------------------------------------------------------
  // Dates. A JavaScript Date built by `ymdToUTC` always falls on midnight UTC,
  // so it is modelled by its day number; `None` is an Invalid Date.
  // ---------------------------------------------------------------------------

  type Instant = Option<int>

  /** ECMAScript's TimeClip bound, 8.64e15 ms, in days. */
  const MaxDay: int := 100000000

  function TimeClip(z: int): (t: Instant)
    ensures t.Some? <==> -MaxDay <= z <= MaxDay
    ensures t.Some? ==> t.value == z
  {
    if -MaxDay <= z <= MaxDay then Some(z) else None
  }

  /** `parseInt(parts[i], 10)`, where a missing part is `undefined` and parses to NaN. */
  function Part(parts: seq<string>, i: nat): Option<int>
  {
    if i < |parts| then ParseInt(parts[i]) else None
  }

  /** `v || fallback` on a parsed number: NaN and 0 are falsy. */
  function OrDefault(v: Option<int>, fallback: int): (r: int)
    ensures v.Some? && v.value != 0 ==> r == v.value
    ensures v.None? || v.value == 0 ==> r == fallback
  {
    if v.Some? && v.value != 0 then v.value else fallback
  }

  /** The year, month and day `ymdToUTC` passes to `Date.UTC`: split on '-',
      parse each part, default an unparseable or zero part to 1970, 1 and 1, and
      read the years 0..99 as 1900..1999 as `Date.UTC` does. */
  function YmdFields(ymd: string): Civil
  {
    var parts := Split(ymd, '-');
    var y := OrDefault(Part(parts, 0), 1970);
    Civil(if 0 <= y <= 99 then 1900 + y else y, OrDefault(Part(parts, 1), 1), OrDefault(Part(parts, 2), 1))
  }

  /** `ymdToUTC`: midnight UTC of the parsed fields, months and days out of
      range carrying over; a real calendar date of a four-digit year is its
      day number, and any result is a valid Date or an Invalid Date. */
  function YmdToUtc(ymd: string): (t: Instant)
    ensures t.Some? ==> -MaxDay <= t.value <= MaxDay
    ensures var f := YmdFields(ymd); ValidCivil(f) && 1000 <= f.year <= 9999 ==> t == Some(DaysFromCivil(f))
  {
    var f := YmdFields(ymd);
    var z := MakeDay(f.year, f.month, f.day);
    assert ValidCivil(f) && 1000 <= f.year <= 9999 ==> -MaxDay <= z <= MaxDay by {
      if ValidCivil(f) && 1000 <= f.year <= 9999 {
        FourDigitYearInRange(f);
      }
    }
    TimeClip(z)
  }

  /** `addDaysUTC`: add whole days; an Invalid Date stays invalid. */
  function AddDaysUtc(t: Instant, n: int): (r: Instant)
    ensures t.None? ==> r.None?
    ensures t.Some? && -MaxDay <= t.value + n <= MaxDay ==> r == Some(t.value + n)
  {
    if t.None? then None else TimeClip(t.value + n)
  }

  /** `String(k).padStart(2, "0")`. */
  function Pad2(k: int): string
  {
    PadStart(IntToString(k), 2, '0')
  }

  /** The `YYYY-MM-DD` text `toYMD` prints for a civil date (the year unpadded). */
  function FormatCivil(c: Civil): string
  {
    IntToString(c.year) + "-" + Pad2(c.month) + "-" + Pad2(c.day)
  }

  /** `toYMD`: the UTC calendar fields of a Date; an Invalid Date prints NaN in
      each field. `ymdToUTC` reads a day of a four-digit year back from its key. */
  function ToYmd(t: Instant): (s: string)
    ensures t.None? ==> s == "NaN-NaN-NaN"
    ensures t.Some? && 1000 <= CivilFromDays(t.value).year <= 9999 ==> YmdToUtc(s) == t
  {
    if t.None? then "NaN-NaN-NaN"
    else
      var c := CivilFromDays(t.value);
      assert 1000 <= c.year <= 9999 ==> YmdToUtc(FormatCivil(c)) == t by {
        if 1000 <= c.year <= 9999 {
          YmdParses(c);
        }
      }
      FormatCivil(c)
  }

  /** A one- or two-digit number padded to two digits reads back as itself. */
  lemma Pad2Digits(k: int)
    requires 0 <= k < 100
    ensures |Pad2(k)| == 2 && AllDigits(Pad2(k)) && DigitsValue(Pad2(k)) == k
  {
    var s := NatToString(k);
    NatToStringDigits(k);
    if k < 10 {
      assert s == [DigitChar(k)];
      assert Pad2(k) == "0" + s;
      LeadingZero(s);
    } else {
      assert NatToString(k / 10) == [DigitChar(k / 10)];
    }
  }

  lemma TwoDigitLength(n: nat)
    requires 10 <= n <= 99
    ensures |NatToString(n)| == 2
  {
  }

  lemma ThreeDigitLength(n: nat)
    requires 100 <= n <= 999
    ensures |NatToString(n)| == 3
  {
    TwoDigitLength(n / 10);
  }

  lemma FourDigits(y: int)
    requires 1000 <= y <= 9999
    ensures |IntToString(y)| == 4 && AllDigits(IntToString(y)) && DigitsValue(IntToString(y)) == y
  {
    ThreeDigitLength(y / 10);
    NatToStringDigits(y);
  }

  lemma DigitsHaveNoDash(s: string)
    requires AllDigits(s)
    ensures forall i :: 0 <= i < |s| ==> s[i] != '-'
  {
  }

  /** Three separator-free strings joined by the separator split back into themselves. */
  lemma SplitThree(a: string, b: string, c: string, sep: char)
    requires forall i :: 0 <= i < |a| ==> a[i] != sep
    requires forall i :: 0 <= i < |b| ==> b[i] != sep
    requires forall i :: 0 <= i < |c| ==> c[i] != sep
    ensures Split(a + [sep] + b + [sep] + c, sep) == [a, b, c]
  {
    assert a + [sep] + b + [sep] + c == a + [sep] + (b + [sep] + c);
    SplitAtFirst(a, sep, b + [sep] + c);
    SplitAtFirst(b, sep, c);
    SplitNoSeparator(c, sep);
  }

  /** `FormatCivil` lays a date out as year, month and day separated by '-'. */
  lemma SplitFormatted(c: Civil)
    requires ValidCivil(c) && 1000 <= c.year <= 9999
    ensures Split(FormatCivil(c), '-') == [IntToString(c.year), Pad2(c.month), Pad2(c.day)]
  {
    FourDigits(c.year);
    Pad2Digits(c.month);
    Pad2Digits(c.day);
    DigitsHaveNoDash(IntToString(c.year));
    DigitsHaveNoDash(Pad2(c.month));
    DigitsHaveNoDash(Pad2(c.day));
    SplitThree(IntToString(c.year), Pad2(c.month), Pad2(c.day), '-');
  }

  lemma ParsesBack(c: Civil)
    requires ValidCivil(c) && 1000 <= c.year <= 9999
    ensures ParseInt(IntToString(c.year)) == Some(c.year)
    ensures ParseInt(Pad2(c.month)) == Some(c.month)
    ensures ParseInt(Pad2(c.day)) == Some(c.day)
  {
    FourDigits(c.year);
    Pad2Digits(c.month);
    Pad2Digits(c.day);
  }

  /** The three parts of a formatted key parse to its year, month and day. */
  lemma FormattedYear(c: Civil)
    requires ValidCivil(c) && 1000 <= c.year <= 9999
    ensures Part(Split(FormatCivil(c), '-'), 0) == Some(c.year)
  {
    SplitFormatted(c);
    ParsesBack(c);
  }

  lemma FormattedMonth(c: Civil)
    requires ValidCivil(c) && 1000 <= c.year <= 9999
    ensures Part(Split(FormatCivil(c), '-'), 1) == Some(c.month)
  {
    SplitFormatted(c);
    ParsesBack(c);
  }

  lemma FormattedDay(c: Civil)
    requires ValidCivil(c) && 1000 <= c.year <= 9999
    ensures Part(Split(FormatCivil(c), '-'), 2) == Some(c.day)
  {
    SplitFormatted(c);
    ParsesBack(c);
  }

  /** `ymdToUTC` reads the fields of every `YYYY-MM-DD` key of a four-digit year. */
  lemma YmdFieldsOfFormatted(c: Civil)
    requires ValidCivil(c) && 1000 <= c.year <= 9999
    ensures YmdFields(FormatCivil(c)) == c
  {
    FormattedYear(c);
    FormattedMonth(c);
    FormattedDay(c);
  }

  /** `ymdToUTC` reads the day number of every `YYYY-MM-DD` key of a four-digit year. */
  lemma YmdParses(c: Civil)
    requires ValidCivil(c) && 1000 <= c.year <= 9999
    ensures YmdToUtc(FormatCivil(c)) == Some(DaysFromCivil(c))
  {
    YmdFieldsOfFormatted(c);
    FourDigitYearInRange(c);
  }

  /** `toYMD(ymdToUTC(s)) == s` for every `YYYY-MM-DD` key of a four-digit year. */
  lemma {:induction false} YmdRoundTrip(c: Civil)
    requires ValidCivil(c) && 1000 <= c.year <= 9999
    ensures ToYmd(YmdToUtc(FormatCivil(c))) == FormatCivil(c)
  {
    YmdParses(c);
    CivilRoundTrip(c);
  }

  /** A key with no parseable part denotes 1970-01-01, day 0. */
  lemma YmdEmptyIsEpoch()
    ensures YmdToUtc("") == Some(0)
  {
    assert Split("", '-') == [""];
  }

  /** A year alone (month and day missing) denotes January 1 of that year. */
  lemma {:induction false} YmdYearOnly(y: int)
    requires 1000 <= y <= 9999
    ensures YmdToUtc(IntToString(y)) == Some(DaysFromCivil(Civil(y, 1, 1)))
  {
    FourDigits(y);
    DigitsHaveNoDash(IntToString(y));
    SplitNoSeparator(IntToString(y), '-');
    assert YmdFields(IntToString(y)) == Civil(y, 1, 1);
    FourDigitYearInRange(Civil(y, 1, 1));
  }

  // ---------------------------------------------------------------------------
  // The calendar frame.
  // ---------------------------------------------------------------------------

  /** The frame size: 7 days for "7d"; 30 for every other window and when none
      is given (the prop defaults to "30d"). */
  function FrameSize(timePeriod: Option<string>): (n: nat)
    ensures n == 7 || n == 30
    ensures n == 7 <==> timePeriod == Some("7d")
  {
    if timePeriod == Some("7d") then 7 else 30
  }

  /** The keys of the `n` days ending at `today`, oldest first. */
  function FrameFrom(today: Instant, n: nat): (keys: seq<string>)
    ensures |keys| == n
  {
    seq(n, j requires 0 <= j < n => ToYmd(AddDaysUtc(today, j - (n - 1))))
  }

  /** The keys `buildFrame(n)` produces when today is `todayYmd`. */
  function Frame(todayYmd: string, n: nat): (keys: seq<string>)
    ensures |keys| == n
  {
    FrameFrom(YmdToUtc(todayYmd), n)
  }

  /** The loop of `buildFrame`: push the keys of today - (n-1), ..., today. The
      source counts `i` down from `n - 1` to 0 and pushes day `-i`; here `k`
      counts up and pushes day `k - (n - 1)`, the same days in the same order. */
  method PushFrameDays(today: Instant, n: nat) returns (out: seq<string>)
    ensures out == FrameFrom(today, n)
  {
    out := [];
    for k := 0 to n
      invariant out == FrameFrom(today, n)[..k]
    {
      FrameFromAt(today, n, k);
      out := out + [ToYmd(AddDaysUtc(today, k - (n - 1)))];
    }
    assert FrameFrom(today, n)[..n] == FrameFrom(today, n);
  }

  /** `buildFrame(n)`, with today's Amsterdam date given as `todayYmd`. */
  method BuildFrame(todayYmd: string, n: nat) returns (out: seq<string>)
    ensures out == Frame(todayYmd, n)
  {
    var today := YmdToUtc(todayYmd);
    out := PushFrameDays(today, n);
  }

  lemma FrameFromAt(t: Instant, n: nat, j: nat)
    requires j < n
    ensures FrameFrom(t, n)[j] == ToYmd(AddDaysUtc(t, j - (n - 1)))
  {
  }

  /** Entry `j` of the frame ending on day `t` prints day `t - (n - 1) + j`. */
  lemma FrameFromEntry(t: int, n: nat, j: nat)
    requires j < n && -MaxDay <= t - (n - 1) + j <= MaxDay
    ensures FrameFrom(Some(t), n)[j] == ToYmd(Some(t - (n - 1) + j))
  {
    FrameFromAt(Some(t), n, j);
  }

  lemma FrameFromLast(t: int, n: nat)
    requires 0 < n && -MaxDay <= t <= MaxDay
    ensures FrameFrom(Some(t), n)[n - 1] == ToYmd(Some(t))
  {
    FrameFromAt(Some(t), n, n - 1);
  }

  lemma ToYmdOfDay(z: int)
    ensures ToYmd(Some(z)) == FormatCivil(CivilFromDays(z))
  {
  }

  lemma FrameFromDay(t: int, n: nat, j: nat)
    requires j < n && -MaxDay <= t - (n - 1) + j <= MaxDay
    ensures FrameFrom(Some(t), n)[j] == FormatCivil(CivilFromDays(t - (n - 1) + j))
  {
    FrameFromEntry(t, n, j);
    ToYmdOfDay(t - (n - 1) + j);
  }

  lemma FrameOfParsed(todayYmd: string, n: nat, t: int)
    requires YmdToUtc(todayYmd) == Some(t)
    ensures Frame(todayYmd, n) == FrameFrom(Some(t), n)
  {
  }

  /** The frame ending on day `t` holds the `n` consecutive calendar days
      ending on `t`, oldest first (so `Frame(todayYmd, n)` does whenever
      `todayYmd` parses to `t`, by `FrameOfParsed`). */
  lemma {:induction false} FrameIsConsecutiveDays(t: int, n: nat)
    requires -MaxDay <= t - n && t <= MaxDay
    ensures forall j :: 0 <= j < n ==>
      FrameFrom(Some(t), n)[j] == FormatCivil(CivilFromDays(t - (n - 1) + j))
  {
    forall j | 0 <= j < n
      ensures FrameFrom(Some(t), n)[j] == FormatCivil(CivilFromDays(t - (n - 1) + j))
    {
      FrameFromDay(t, n, j);
    }
  }

  lemma NextDayAt(z: int, d: int)
    requires d == z + 1
    ensures CivilFromDays(d) == NextDay(CivilFromDays(z))
  {
    NextDayNumber(z);
  }

  lemma FrameStepAt(t: int, n: nat, j: nat)
    requires -MaxDay <= t - n && t <= MaxDay && 1 <= j < n
    ensures FrameFrom(Some(t), n)[j] == FormatCivil(NextDay(CivilFromDays(t - n + j)))
  {
    FrameFromDay(t, n, j);
    NextDayAt(t - n + j, t - (n - 1) + j);
  }

  /** Each frame key is the calendar day after the previous one. */
  lemma {:induction false} FrameStepsOneDay(t: int, n: nat)
    requires -MaxDay <= t - n && t <= MaxDay
    ensures forall j :: 1 <= j < n ==>
      FrameFrom(Some(t), n)[j] == FormatCivil(NextDay(CivilFromDays(t - n + j)))
  {
    forall j | 1 <= j < n
      ensures FrameFrom(Some(t), n)[j] == FormatCivil(NextDay(CivilFromDays(t - n + j)))
    {
      FrameStepAt(t, n, j);
    }
  }

  /** The last frame key is today's key whenever that key is canonical, i.e.
      prints back as itself. */
  lemma {:induction false} FrameEndsToday(todayYmd: string, t: int, n: nat)
    requires YmdToUtc(todayYmd) == Some(t) && ToYmd(Some(t)) == todayYmd && 0 < n
    ensures Frame(todayYmd, n)[n - 1] == todayYmd
  {
    FrameFromLast(t, n);
    FrameOfParsed(todayYmd, n, t);
  }

  /** Every four-digit-year key is canonical, so the frame built on it ends on it. */
  lemma {:induction false} FrameOfDateEndsOnIt(today: Civil, n: nat)
    requires ValidCivil(today) && 1000 <= today.year <= 9999 && 0 < n
    ensures Frame(FormatCivil(today), n)[n - 1] == FormatCivil(today)
  {
    YmdParses(today);
    YmdRoundTrip(today);
    FrameEndsToday(FormatCivil(today), DaysFromCivil(today), n);
  }

  // ---------------------------------------------------------------------------
  // Aligning a series onto the frame.
  // ---------------------------------------------------------------------------

  /** `Number(x) || 0`: NaN (here `None`) becomes 0. */
  function NumberOrZero(x: Option<real>): (r: real)
    ensures x.Some? ==> r == x.value
    ensures r == 0.0 <==> x.None? || x.value == 0.0
  {
    if x.Some? then x.value else 0.0
  }

  /** `(valueDays[i] || "").slice(0, 10)`. */
  function DayKey(k: Option<string>): (key: string)
    ensures |key| <= 10
  {
    Prefix(if k.Some? then k.value else "", 10)
  }

  /** Whether `align` keys the series by date: the day array is as long as the
      values and not empty. */
  predicate DateKeyed(values: seq<Option<real>>, valueDays: seq<Option<string>>)
  {
    |valueDays| == |values| && |valueDays| > 0
  }

  /** The value the map of `align` holds for key `d`: that of the last entry
      whose non-empty key is `d`. */
  function LastKeyed(values: seq<Option<real>>, valueDays: seq<Option<string>>, d: string): (r: Option<real>)
    requires |values| == |valueDays|
    ensures r.Some? ==> d != ""
  {
    if values == [] then None
    else if DayKey(valueDays[|valueDays| - 1]) == d && d != "" then Some(NumberOrZero(values[|values| - 1]))
    else LastKeyed(values[..|values| - 1], valueDays[..|valueDays| - 1], d)
  }

  /** The aligned series: by date key when `DateKeyed`, by position otherwise. */
  function Aligned(values: seq<Option<real>>, valueDays: seq<Option<string>>, frame: seq<string>): (r: seq<real>)
    ensures |r| == |frame|
  {
    if DateKeyed(values, valueDays) then
      seq(|frame|, j requires 0 <= j < |frame| =>
        var v := LastKeyed(values, valueDays, frame[j]); if v.Some? then v.value else 0.0)
    else
      seq(|frame|, j requires 0 <= j < |frame| => if j < |values| then NumberOrZero(values[j]) else 0.0)
  }

  /** `align`: fill a map from day key to value (later entries overwrite earlier
      ones), then read it for every frame day; or fall back to positions. */
  method Align(values: seq<Option<real>>, valueDays: seq<Option<string>>, frame: seq<string>) returns (out: seq<real>)
    ensures out == Aligned(values, valueDays, frame)
  {
    if |valueDays| == |values| && |valueDays| > 0 {
      var m: map<string, real> := map[];
      var i := 0;
      while i < |values|
        invariant 0 <= i <= |values|
        invariant forall d :: d in m <==> LastKeyed(values[..i], valueDays[..i], d).Some?
        invariant forall d :: d in m ==> m[d] == LastKeyed(values[..i], valueDays[..i], d).value
      {
        LastKeyedStep(values, valueDays, i);
        var k := DayKey(valueDays[i]);
        if k != "" {
          m := m[k := NumberOrZero(values[i])];
        }
        i := i + 1;
      }
      assert values[..i] == values && valueDays[..i] == valueDays;
      out := seq(|frame|, j requires 0 <= j < |frame| => if frame[j] in m then m[frame[j]] else 0.0);
    } else {
      out := seq(|frame|, j requires 0 <= j < |frame| => if j < |values| then NumberOrZero(values[j]) else 0.0);
    }
  }

  /** One more entry: its key, when not empty, now maps to its value; every
      other key keeps what it had. */
  lemma LastKeyedStep(values: seq<Option<real>>, valueDays: seq<Option<string>>, i: nat)
    requires |values| == |valueDays| && i < |values|
    ensures forall d ::
              LastKeyed(values[..i + 1], valueDays[..i + 1], d) ==
              if d != "" && DayKey(valueDays[i]) == d then Some(NumberOrZero(values[i]))
              else LastKeyed(values[..i], valueDays[..i], d)
  {
    var v, w := values[..i + 1], valueDays[..i + 1];
    assert v[..i] == values[..i] && w[..i] == valueDays[..i];
    forall d
      ensures LastKeyed(v, w, d) ==
        if d != "" && DayKey(valueDays[i]) == d then Some(NumberOrZero(values[i]))
        else LastKeyed(values[..i], valueDays[..i], d)
    {
      assert v[|v| - 1] == values[i] && w[|w| - 1] == valueDays[i];
    }
  }

  /** Last write wins: the entry a date key maps to is the last one carrying it. */
  lemma {:induction false} LastKeyedIsLastWrite(values: seq<Option<real>>, valueDays: seq<Option<string>>, d: string, i: nat)
    requires |values| == |valueDays| && i < |values|
    requires d != "" && DayKey(valueDays[i]) == d
    requires forall k :: i < k < |values| ==> DayKey(valueDays[k]) != d
    ensures LastKeyed(values, valueDays, d) == Some(NumberOrZero(values[i]))
    decreases |values|
  {
    if i < |values| - 1 {
      LastKeyedIsLastWrite(values[..|values| - 1], valueDays[..|valueDays| - 1], d, i);
    }
  }

  /** A day no entry is keyed by (and the empty key) maps to nothing. */
  lemma {:induction false} LastKeyedMissing(values: seq<Option<real>>, valueDays: seq<Option<string>>, d: string)
    requires |values| == |valueDays|
    requires d == "" || forall k :: 0 <= k < |values| ==> DayKey(valueDays[k]) != d
    ensures LastKeyed(values, valueDays, d) == None
    decreases |values|
  {
    if values != [] {
      LastKeyedMissing(values[..|values| - 1], valueDays[..|valueDays| - 1], d);
    }
  }

  /** Date-keyed alignment: each frame day gets the value of the last entry with
      its key, or 0 when no entry has it. */
  lemma AlignedByDate(values: seq<Option<real>>, valueDays: seq<Option<string>>, frame: seq<string>, j: nat)
    requires DateKeyed(values, valueDays) && j < |frame|
    ensures (exists i :: 0 <= i < |values| && DayKey(valueDays[i]) == frame[j] && frame[j] != "") ==>
      exists i :: 0 <= i < |values| && DayKey(valueDays[i]) == frame[j]
        && (forall k :: i < k < |values| ==> DayKey(valueDays[k]) != frame[j])
        && Aligned(values, valueDays, frame)[j] == NumberOrZero(values[i])
    ensures (frame[j] == "" || forall i :: 0 <= i < |values| ==> DayKey(valueDays[i]) != frame[j]) ==>
      Aligned(values, valueDays, frame)[j] == 0.0
  {
    var d := frame[j];
    if d != "" && exists i :: 0 <= i < |values| && DayKey(valueDays[i]) == d {
      var i := LastIndexOf(valueDays, d);
      LastKeyedIsLastWrite(values, valueDays, d, i);
    } else {
      LastKeyedMissing(values, valueDays, d);
    }
  }

  /** The index of the last entry whose key is `d`. */
  lemma LastIndexOf(valueDays: seq<Option<string>>, d: string) returns (i: nat)
    requires exists i :: 0 <= i < |valueDays| && DayKey(valueDays[i]) == d
    ensures i < |valueDays| && DayKey(valueDays[i]) == d
    ensures forall k :: i < k < |valueDays| ==> DayKey(valueDays[k]) != d
  {
    i := |valueDays| - 1;
    while DayKey(valueDays[i]) != d
      invariant 0 <= i < |valueDays|
      invariant exists k :: 0 <= k <= i && DayKey(valueDays[k]) == d
      invariant forall k :: i < k < |valueDays| ==> DayKey(valueDays[k]) != d
      decreases i
    {
      i := i - 1;
    }
  }

  /** Positional alignment truncates or pads with 0, and turns NaN into 0. */
  lemma AlignedByPosition(values: seq<Option<real>>, valueDays: seq<Option<string>>, frame: seq<string>, j: nat)
    requires !DateKeyed(values, valueDays) && j < |frame|
    ensures j < |values| && values[j].Some? ==> Aligned(values, valueDays, frame)[j] == values[j].value
    ensures j >= |values| || values[j].None? ==> Aligned(values, valueDays, frame)[j] == 0.0
  {
  }

  /** Dated values [5, 9] keyed by the last two days of a three-day frame align to [0, 5, 9]. */
  lemma AlignByDateExample(d1: string, d2: string, d3: string)
    requires |d1| == |d2| == |d3| == 10 && d1 != d2 && d1 != d3 && d2 != d3
    ensures Aligned([Some(5.0), Some(9.0)], [Some(d2), Some(d3)], [d1, d2, d3]) == [0.0, 5.0, 9.0]
  {
    var values, days := [Some(5.0), Some(9.0)], [Some(d2), Some(d3)];
    assert DayKey(Some(d2)) == d2 && DayKey(Some(d3)) == d3;
    LastKeyedMissing(values, days, d1);
    LastKeyedIsLastWrite(values, days, d2, 0);
    LastKeyedIsLastWrite(values, days, d3, 1);
  }

  /** Undated values [1, 2] on a three-day frame align to [1, 2, 0]. */
  lemma AlignByPositionExample(frame: seq<string>)
    requires |frame| == 3
    ensures Aligned([Some(1.0), Some(2.0)], [], frame) == [1.0, 2.0, 0.0]
  {
  }

  // ---------------------------------------------------------------------------
  // Geometry: domain and scales.
  // ---------------------------------------------------------------------------

  const ViewBoxWidth: real := 220.0
  const ViewBoxHeight: real := 100.0
  const PadTop: real := 5.0
  const PadRight: real := 5.0
  const PadBottom: real := 20.0
  const PadLeft: real := 40.0
  const GraphWidth: real := ViewBoxWidth - PadLeft - PadRight
  const GraphHeight: real := ViewBoxHeight - PadTop - PadBottom

  /** `Math.min(...s)` for a non-empty sequence. */
  function MinOf(s: seq<real>): (r: real)
    requires |s| > 0
    ensures forall i :: 0 <= i < |s| ==> r <= s[i]
    ensures exists i :: 0 <= i < |s| && r == s[i]
  {
    if |s| == 1 then s[0]
    else
      var m := MinOf(s[..|s| - 1]);
      if s[|s| - 1] < m then s[|s| - 1] else m
  }

  /** `Math.max(...s)` for a non-empty sequence. */
  function MaxOf(s: seq<real>): (r: real)
    requires |s| > 0
    ensures forall i :: 0 <= i < |s| ==> s[i] <= r
    ensures exists i :: 0 <= i < |s| && r == s[i]
  {
    if |s| == 1 then s[0]
    else
      var m := MaxOf(s[..|s| - 1]);
      if s[|s| - 1] > m then s[|s| - 1] else m
  }

  /** The value domain shared by both series; `effMax` replaces a flat maximum. */
  datatype Domain = Domain(min: real, max: real, effMax: real)

  /** The domain of the two aligned series: their minimum and maximum (0 and 1
      when both are empty), widened by 1 when flat. */
  function ComputeDomain(curr: seq<real>, prev: seq<real>): (d: Domain)
    ensures d.min < d.effMax
    ensures d.min <= d.max <= d.effMax
    ensures forall i :: 0 <= i < |curr| ==> d.min <= curr[i] <= d.max
    ensures forall i :: 0 <= i < |prev| ==> d.min <= prev[i] <= d.max
    ensures |curr + prev| > 0 ==> d.min in curr + prev && d.max in curr + prev
    ensures d.max == d.min ==> d.effMax == d.min + 1.0
  {
    var all := curr + prev;
    assert forall i :: 0 <= i < |curr| ==> curr[i] == all[i];
    assert forall i :: 0 <= i < |prev| ==> prev[i] == all[|curr| + i];
    var minVal := if |all| > 0 then MinOf(all) else 0.0;
    var maxVal := if |all| > 0 then MaxOf(all) else 1.0;
    Domain(minVal, maxVal, if maxVal == minVal then minVal + 1.0 else maxVal)
  }

  /** `yScale`: values onto the plot height, inverted (larger values higher up). */
  function YScale(d: Domain, v: real): (y: real)
    requires d.min < d.effMax
    ensures v == d.min ==> y == GraphHeight
    ensures v == d.effMax ==> y == 0.0
  {
    assert (d.effMax - d.min) / (d.effMax - d.min) == 1.0;
    GraphHeight - ((v - d.min) / (d.effMax - d.min)) * GraphHeight
  }

  /** The value a fraction `t` of the way up the domain lies `t` of the way up the plot. */
  lemma YScaleFraction(d: Domain, t: real)
    requires d.min < d.effMax
    ensures YScale(d, d.min + (d.effMax - d.min) * t) == GraphHeight - t * GraphHeight
  {
    var span := d.effMax - d.min;
    assert (d.min + span * t - d.min) / span == t;
  }

  /** The bottom of the domain maps to the plot's bottom, its top to 0, and the
      scale is strictly decreasing; values within the domain stay in [0, 75]. */
  lemma YScaleProperties(d: Domain, v: real, w: real)
    requires d.min < d.effMax
    ensures YScale(d, d.min) == 75.0 && YScale(d, d.effMax) == 0.0
    ensures v < w ==> YScale(d, w) < YScale(d, v)
    ensures d.min <= v <= d.effMax ==> 0.0 <= YScale(d, v) <= 75.0
  {
    var span := d.effMax - d.min;
    assert (d.effMax - d.min) / span == 1.0;
    if v < w {
      assert (v - d.min) / span < (w - d.min) / span by {
        assert (w - d.min) / span - (v - d.min) / span == (w - v) / span;
      }
    }
    if d.min <= v <= d.effMax {
      assert 0.0 <= (v - d.min) / span <= 1.0 by {
        assert (v - d.min) / span <= span / span;
      }
    }
  }

  /** `xScale`: the horizontal step between consecutive points. */
  function XScale(len: nat): (s: real)
    ensures len > 1 ==> s > 0.0 && (len - 1) as real * s == GraphWidth
    ensures len <= 1 ==> s == 0.0
  {
    if len > 1 then GraphWidth / (len - 1) as real else 0.0
  }

  /** The x coordinate of point `i`. */
  function XAt(i: int, xScale: real): real
  {
    i as real * xScale + PadLeft
  }

  /** The points of a series lie inside the plot area, the first at its left
      edge and the last at its right edge. */
  lemma PointInPlotArea(len: nat, i: nat, d: Domain, v: real)
    requires i < len && d.min < d.effMax && d.min <= v <= d.effMax
    ensures 40.0 <= XAt(i, XScale(len)) <= 215.0
    ensures i == 0 ==> XAt(i, XScale(len)) == 40.0
    ensures len > 1 && i == len - 1 ==> XAt(i, XScale(len)) == 215.0
    ensures 5.0 <= YScale(d, v) + PadTop <= 80.0
  {
    YScaleProperties(d, v, v);
    if len > 1 {
      assert i as real * XScale(len) <= (len - 1) as real * XScale(len);
    }
  }

  // ---------------------------------------------------------------------------
  // The polylines.
  // ---------------------------------------------------------------------------

  /** The commands of an SVG path: one move, then straight lines. */
  datatype PathCommand = MoveTo(x: real, y: real) | LineTo(x: real, y: real)

  /** The path of a series of at least two points: a move to the first point
      and a line to each further one, spaced by the series' own x step. */
  predicate DrawnAlong(path: seq<PathCommand>, arr: seq<real>, d: Domain)
    requires d.min < d.effMax
  {
    && |arr| >= 2 && |path| == |arr|
    && path[0] == MoveTo(PadLeft, YScale(d, arr[0]) + PadTop)
    && forall i :: 1 <= i < |arr| ==> path[i] == LineTo(XAt(i, XScale(|arr|)), YScale(d, arr[i]) + PadTop)
  }

  /** `pathD`: nothing for fewer than two points; otherwise a move to the first
      point and a line to each further point. */
  method PathD(arr: seq<real>, xScale: real, d: Domain) returns (path: seq<PathCommand>)
    requires d.min < d.effMax
    ensures |arr| < 2 ==> path == []
    ensures |arr| >= 2 ==> |path| == |arr|
    ensures |arr| >= 2 ==> path[0] == MoveTo(PadLeft, YScale(d, arr[0]) + PadTop)
    ensures |arr| >= 2 ==> forall i :: 1 <= i < |arr| ==> path[i] == LineTo(XAt(i, xScale), YScale(d, arr[i]) + PadTop)
  {
    if |arr| < 2 {
      return [];
    }
    path := [MoveTo(PadLeft, YScale(d, arr[0]) + PadTop)];
    var i := 1;
    while i < |arr|
      invariant 1 <= i <= |arr| && |path| == i
      invariant path[0] == MoveTo(PadLeft, YScale(d, arr[0]) + PadTop)
      invariant forall k :: 1 <= k < i ==> path[k] == LineTo(XAt(k, xScale), YScale(d, arr[k]) + PadTop)
    {
      path := path + [LineTo(XAt(i, xScale), YScale(d, arr[i]) + PadTop)];
      i := i + 1;
    }
  }

  // ---------------------------------------------------------------------------
  // Axis labels.
  // ---------------------------------------------------------------------------

  /** A number printed with `toFixed(digits)`; only the digit count is modelled. */
  datatype FixedText = FixedText(value: real, digits: nat)

  /** A number with the unit text placed before and after it. */
  datatype UnitText = UnitText(prefix: string, number: FixedText, suffix: string)

  /** A y-axis label and its gridline height. */
  datatype YTick = YTick(y: real, text: UnitText)

  /** The y-axis label text: "€" before the number, "%" after it, nothing otherwise. */
  function AxisText(unit: string, v: real): (t: UnitText)
    ensures t.number == FixedText(v, 0)
    ensures t.prefix == (if unit == "€" then unit else "")
    ensures t.suffix == (if unit == "%" then unit else "")
  {
    if unit == "€" then UnitText(unit, FixedText(v, 0), "")
    else if unit == "%" then UnitText("", FixedText(v, 0), unit)
    else UnitText("", FixedText(v, 0), "")
  }

  /** The three gridlines: the top of the domain at the top of the plot, its
      middle halfway down, its bottom at the bottom. */
  method YAxisLabels(d: Domain, unit: string) returns (ticks: seq<YTick>)
    requires d.min < d.effMax
    ensures |ticks| == 3
    ensures ticks[0] == YTick(5.0, AxisText(unit, d.effMax))
    ensures ticks[1] == YTick(42.5, AxisText(unit, (d.min + d.effMax) / 2.0))
    ensures ticks[2] == YTick(80.0, AxisText(unit, d.min))
  {
    ticks := [];
    for i := 0 to 3
      invariant |ticks| == i
      invariant forall k :: 0 <= k < i ==>
        ticks[k] == YTick(YScale(d, d.min + (d.effMax - d.min) * (1.0 - k as real / 2.0)) + PadTop,
                          AxisText(unit, d.min + (d.effMax - d.min) * (1.0 - k as real / 2.0)))
    {
      var v := d.min + (d.effMax - d.min) * (1.0 - i as real / 2.0);
      var y := YScale(d, v) + PadTop;
      ticks := ticks + [YTick(y, AxisText(unit, v))];
    }
    YScaleFraction(d, 1.0);
    YScaleFraction(d, 0.5);
    YScaleFraction(d, 0.0);
    assert 1.0 - 0 as real / 2.0 == 1.0 && 1.0 - 1 as real / 2.0 == 0.5 && 1.0 - 2 as real / 2.0 == 0.0;
  }

  /** The frame positions that get an x-axis label. */
  function XIdxs(len: nat): (r: seq<nat>)
    ensures len <= 3 ==> |r| == len
    ensures len > 3 ==> |r| == 3 && r[1] == len / 2
    ensures forall i :: 0 <= i < |r| ==> r[i] < len
    ensures forall i, j :: 0 <= i < j < |r| ==> r[i] < r[j]
    ensures len > 0 ==> r[0] == 0 && r[|r| - 1] == len - 1
  {
    if len <= 3 then seq(len, i requires 0 <= i < len => i as nat) else [0, len / 2, len - 1]
  }

  const MonthNames: seq<string> :=
    ["Jan", "Feb", "Mar", "Apr", "May", "Jun", "Jul", "Aug", "Sep", "Oct", "Nov", "Dec"]

  /** Whether a string matches `^(\d{4})-(\d{2})-(\d{2})$`. */
  predicate IsYmdShape(s: string)
  {
    |s| == 10 && AllDigits(s[..4]) && s[4] == '-' && AllDigits(s[5..7]) && s[7] == '-' && AllDigits(s[8..])
  }

  /** `fmtLabel`: a `YYYY-MM-DD` key becomes the short month name (the month
      clamped to Jan..Dec) and the day without leading zeros; anything else is
      returned unchanged. */
  function FmtLabel(ymd: string): (r: string)
    ensures !IsYmdShape(ymd) ==> r == ymd
    ensures IsYmdShape(ymd) ==> |r| >= 5 && r[..3] in MonthNames && r[3] == ' '
    ensures IsYmdShape(ymd) ==> r[4..] == NatToString(DigitsValue(ymd[8..]))
    ensures IsYmdShape(ymd) && 1 <= DigitsValue(ymd[5..7]) <= 12 ==> r[..3] == MonthNames[DigitsValue(ymd[5..7]) - 1]
    ensures IsYmdShape(ymd) && DigitsValue(ymd[5..7]) == 0 ==> r[..3] == "Jan"
    ensures IsYmdShape(ymd) && DigitsValue(ymd[5..7]) > 12 ==> r[..3] == "Dec"
  {
    if !IsYmdShape(ymd) then ymd
    else
      var mm := DigitsValue(ymd[5..7]);
      var dd := DigitsValue(ymd[8..]);
      var k := if mm - 1 < 0 then 0 else if mm - 1 > 11 then 11 else mm - 1;
      var r := MonthNames[k] + " " + NatToString(dd);
      assert r[..3] == MonthNames[k] && r[4..] == NatToString(dd);
      r
  }

  /** Four digits, two digits and two digits joined by '-' match the key pattern,
      and the pattern's groups are those parts. */
  lemma YmdShapeParts(y: string, m: string, d: string)
    requires |y| == 4 && |m| == 2 && |d| == 2 && AllDigits(y) && AllDigits(m) && AllDigits(d)
    ensures IsYmdShape(y + "-" + m + "-" + d)
    ensures (y + "-" + m + "-" + d)[5..7] == m && (y + "-" + m + "-" + d)[8..] == d
  {
    var s := y + "-" + m + "-" + d;
    assert s[..4] == y;
    assert s[5..7] == m;
    assert s[8..] == d;
  }

  /** The label of a frame key is its own month name and day of the month. */
  lemma {:induction false} FmtLabelOfDate(c: Civil)
    requires ValidCivil(c) && 1000 <= c.year <= 9999
    ensures FmtLabel(FormatCivil(c)) == MonthNames[c.month - 1] + " " + NatToString(c.day)
  {
    FourDigits(c.year);
    Pad2Digits(c.month);
    Pad2Digits(c.day);
    YmdShapeParts(IntToString(c.year), Pad2(c.month), Pad2(c.day));
  }

  /** An x-axis label: its position and text. */
  datatype XTick = XTick(x: real, text: string)

  /** `frameDays[i]`, which is `undefined` (printed as "") past the end. */
  function FrameDay(frame: seq<string>, i: nat): string
  {
    if i < |frame| then frame[i] else ""
  }

  /** The x-axis labels at `XIdxs`, the first nudged right and the last left by 5. */
  function XAxisLabels(len: nat, xScale: real, frame: seq<string>): (ticks: seq<XTick>)
    ensures |ticks| == |XIdxs(len)|
    ensures forall n :: 0 <= n < |ticks| ==> ticks[n].text == FmtLabel(FrameDay(frame, XIdxs(len)[n]))
  {
    var idxs := XIdxs(len);
    seq(|idxs|, n requires 0 <= n < |idxs| =>
      XTick(XAt(idxs[n], xScale) + (if n == 0 then 5.0 else if n == |idxs| - 1 then -5.0 else 0.0),
            FmtLabel(FrameDay(frame, idxs[n]))))
  }

  // ---------------------------------------------------------------------------
  // Hover.
  // ---------------------------------------------------------------------------

  function Abs(r: real): real
  {
    if r < 0.0 then -r else r
  }

  /** The loop of `onMove`: the first index whose x position is nearest `scaledX`
      (`best` starts at Infinity, here `None`). */
  method NearestIndex(len: nat, xScale: real, scaledX: real) returns (idx: nat)
    requires len > 0
    ensures idx < len
    ensures forall j :: 0 <= j < len ==> Abs(scaledX - XAt(idx, xScale)) <= Abs(scaledX - XAt(j, xScale))
    ensures forall j :: 0 <= j < idx ==> Abs(scaledX - XAt(idx, xScale)) < Abs(scaledX - XAt(j, xScale))
  {
    idx := 0;
    var best: Option<real> := None;
    for i := 0 to len
      invariant i == 0 <==> best.None?
      invariant i > 0 ==> idx < i && best == Some(Abs(scaledX - XAt(idx, xScale)))
      invariant forall j :: 0 <= j < i ==> Abs(scaledX - XAt(idx, xScale)) <= Abs(scaledX - XAt(j, xScale))
      invariant forall j :: 0 <= j < idx ==> Abs(scaledX - XAt(idx, xScale)) < Abs(scaledX - XAt(j, xScale))
    {
      var dist := Abs(scaledX - XAt(i, xScale));
      if best.None? || dist < best.value {
        best := Some(dist);
        idx := i;
      }
    }
  }

  /** A pointer exactly over point `k` selects `k`: with more than one point the
      x positions are distinct, so `k` is the only nearest index. */
  lemma PointerOverPointIsNearest(len: nat, k: nat, idx: nat)
    requires k < len && idx < len
    requires forall j :: 0 <= j < len ==>
      Abs(XAt(k, XScale(len)) - XAt(idx, XScale(len))) <= Abs(XAt(k, XScale(len)) - XAt(j, XScale(len)))
    ensures idx == k
  {
    assert Abs(XAt(k, XScale(len)) - XAt(idx, XScale(len))) <= Abs(XAt(k, XScale(len)) - XAt(k, XScale(len)));
  }

  /** The hover readout. */
  datatype HoverPoint = HoverPoint(index: nat, value: real, previousValue: Option<real>,
                                   x: real, y: real, dateLabel: string)

  /** The tooltip's number: two decimals for "€", none otherwise, with the unit
      before or after it as `unitPosition` says. */
  function TooltipText(unit: string, unitPosition: string, v: real): (t: UnitText)
    ensures t.number.digits == (if unit == "€" then 2 else 0) && t.number.value == v
    ensures t.prefix == (if unitPosition == "prefix" then unit else "")
    ensures t.suffix == (if unitPosition == "suffix" then unit else "")
  {
    UnitText(if unitPosition == "prefix" then unit else "",
             FixedText(v, if unit == "€" then 2 else 0),
             if unitPosition == "suffix" then unit else "")
  }

  /** A rendered chart: the aligned series and what `onMove`/`onLeave` update. */
  class Chart {
    const frameDays: seq<string>
    const currVals: seq<real>
    const prevVals: seq<real>
    const domain: Domain
    const xScale: real
    var hoveredPoint: Option<HoverPoint>

    ghost predicate Valid()
    {
      domain == ComputeDomain(currVals, prevVals) && xScale == XScale(|currVals|)
    }

    constructor(frameDays: seq<string>, currVals: seq<real>, prevVals: seq<real>)
      ensures Valid() && hoveredPoint == None
      ensures this.frameDays == frameDays && this.currVals == currVals && this.prevVals == prevVals
    {
      this.frameDays := frameDays;
      this.currVals := currVals;
      this.prevVals := prevVals;
      this.domain := ComputeDomain(currVals, prevVals);
      this.xScale := XScale(|currVals|);
      this.hoveredPoint := None;
    }

    /** `onMove` with the pointer at `scaledX` in view-box units. */
    method OnMove(scaledX: real)
      requires Valid()
      modifies this`hoveredPoint
      ensures |currVals| == 0 ==> hoveredPoint == None
      ensures |currVals| > 0 ==> hoveredPoint.Some?
      ensures hoveredPoint.Some? ==>
        var h := hoveredPoint.value;
        && h.index < |currVals|
        && (forall j :: 0 <= j < |currVals| ==> Abs(scaledX - h.x) <= Abs(scaledX - XAt(j, xScale)))
        && (forall j :: 0 <= j < h.index ==> Abs(scaledX - h.x) < Abs(scaledX - XAt(j, xScale)))
        && h.x == XAt(h.index, xScale)
        && h.value == currVals[h.index]
        && h.previousValue == (if h.index < |prevVals| then Some(prevVals[h.index]) else None)
        && h.y == YScale(domain, currVals[h.index]) + PadTop
        && h.dateLabel == FmtLabel(FrameDay(frameDays, h.index))
    {
      if |currVals| == 0 {
        hoveredPoint := None;
        return;
      }
      var idx := NearestIndex(|currVals|, xScale, scaledX);
      var x := XAt(idx, xScale);
      var y := YScale(domain, currVals[idx]) + PadTop;
      hoveredPoint := Some(HoverPoint(idx, currVals[idx],
                                      if idx < |prevVals| then Some(prevVals[idx]) else None,
                                      x, y, FmtLabel(FrameDay(frameDays, idx))));
    }

    /** `onLeave`: the readout disappears. */
    method OnLeave()
      modifies this`hoveredPoint
      ensures hoveredPoint == None
    {
      hoveredPoint := None;
    }
  }

  // ---------------------------------------------------------------------------
  // The component.
  // ---------------------------------------------------------------------------

  /** The props of `LineGraph`; `None` marks a prop that is not an array (or
      not given). Entries of `currentData` that are not numbers are `None`. */
  datatype Props = Props(
    currentData: Option<seq<Option<real>>>,
    previousData: Option<seq<Option<real>>>,
    days: Option<seq<Option<string>>>,
    previousDays: Option<seq<Option<string>>>,
    unit: string,
    timePeriod: Option<string>,
    unitPosition: string)

  /** `Array.isArray(a) ? a : []`. */
  function ArrayOrEmpty<T>(a: Option<seq<T>>): seq<T>
  {
    if a.Some? then a.value else []
  }

  /** What the component renders: the "No data" placeholder or the plot. */
  datatype View =
    | NoData
    | Plot(frame: seq<string>, currVals: seq<real>, prevVals: seq<real>, domain: Domain,
           currPath: seq<PathCommand>, prevPath: seq<PathCommand>,
           yTicks: seq<YTick>, xTicks: seq<XTick>)

  /** The whole render, with today's `YYYY-MM-DD` key in Europe/Amsterdam as a
      parameter. The aligned series are always frame-long (7 or 30 points), so
      the "No data" placeholder is never shown. */
  method Render(props: Props, todayYmd: string) returns (view: View)
    ensures view.Plot?
    ensures |view.frame| == FrameSize(props.timePeriod)
    ensures view.frame == Frame(todayYmd, FrameSize(props.timePeriod))
    ensures view.currVals == Aligned(ArrayOrEmpty(props.currentData), ArrayOrEmpty(props.days), view.frame)
    ensures view.prevVals == Aligned(ArrayOrEmpty(props.previousData), ArrayOrEmpty(props.previousDays), view.frame)
    ensures |view.currPath| == |view.prevPath| == |view.frame| && |view.yTicks| == 3
    ensures view.domain == ComputeDomain(view.currVals, view.prevVals)
    ensures view.xTicks == XAxisLabels(|view.frame|, XScale(|view.frame|), view.frame)
    ensures DrawnAlong(view.currPath, view.currVals, view.domain)
    ensures DrawnAlong(view.prevPath, view.prevVals, view.domain)
  {
    var frameDays := BuildFrame(todayYmd, FrameSize(props.timePeriod));
    var currVals := Align(ArrayOrEmpty(props.currentData), ArrayOrEmpty(props.days), frameDays);
    var prevVals := Align(ArrayOrEmpty(props.previousData), ArrayOrEmpty(props.previousDays), frameDays);
    var domain := ComputeDomain(currVals, prevVals);
    var xScale := XScale(|currVals|);
    if |currVals| == 0 {
      return NoData;
    }
    var currPath := PathD(currVals, xScale, domain);
    var prevPath := PathD(prevVals, xScale, domain);
    assert DrawnAlong(currPath, currVals, domain);
    assert DrawnAlong(prevPath, prevVals, domain);
    var yTicks := YAxisLabels(domain, props.unit);
    var xTicks := XAxisLabels(|currVals|, xScale, frameDays);
    view := Plot(frameDays, currVals, prevVals, domain, currPath, prevPath, yTicks, xTicks);
  }
}
