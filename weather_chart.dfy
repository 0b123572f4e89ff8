/** The weather forecast chart's data: the three-hourly forecast entries
    are grouped by date, the first date is skipped, and for each of the
    next five dates the entry closest to noon gives the plotted value.
    The weekday label, which the page formats from the entry's timestamp
    in the vi-VN locale, is the timestamp itself here; measurements are
    integers. */
module WeatherChart {
  import opened Common

  /** A forecast entry: its text timestamp, the hour read from it, its Unix
      timestamp and its measurements. */
  datatype Entry = Entry(dtTxt: string, hour: int, dt: int, temp: int, humidity: int, windSpeed: int,
                         rain3h: Option<int>)

  datatype Forecast = Forecast(list: Option<seq<Entry>>)

  datatype Kind = Temperature | Rainfall | Humidity | Wind

  /** A plotted point: the day (as its timestamp) and the value. */
  datatype Point = Point(day: int, value: int)

  /** `dt_txt.split(" ")[0]`: the text before the first space. */
  function DatePart(s: string): (r: string)
    ensures |r| <= |s| && r == s[..|r|]
    ensures ' ' !in r
  {
    if s == [] || s[0] == ' ' then [] else [s[0]] + DatePart(s[1..])
  }

  /** The dates of the entries in order of first appearance, which is the
      order of `Object.keys` over the groups. */
  function Days(list: seq<Entry>): seq<string>
  {
    if list == [] then []
    else
      var front := Days(list[..|list| - 1]);
      var day := DatePart(list[|list| - 1].dtTxt);
      if day in front then front else front + [day]
  }

  /** No date is listed twice. */
  lemma {:induction false} DaysDistinct(list: seq<Entry>)
    ensures forall i, j :: 0 <= i < j < |Days(list)| ==> Days(list)[i] != Days(list)[j]
  {
    if list != [] {
      DaysDistinct(list[..|list| - 1]);
    }
  }

  /** The entries of one date, in order. */
  function OfDay(list: seq<Entry>, day: string): (r: seq<Entry>)
    ensures |r| <= |list|
  {
    if list == [] then []
    else
      var front := OfDay(list[..|list| - 1], day);
      var last := list[|list| - 1];
      if DatePart(last.dtTxt) == day then front + [last] else front
  }

  /** Every listed date has entries. */
  lemma {:induction false} DayHasEntries(list: seq<Entry>, day: string)
    requires day in Days(list)
    ensures |OfDay(list, day)| > 0
  {
    var front := list[..|list| - 1];
    if day in Days(front) {
      DayHasEntries(front, day);
    }
  }

  /** How far an entry's hour is from noon. */
  function NoonDistance(e: Entry): nat
  {
    if e.hour < 12 then 12 - e.hour else e.hour - 12
  }

  /** The index the loop over a date's entries settles on: a later entry
      replaces the current one only when strictly closer to noon. */
  function NoonIndex(items: seq<Entry>): (k: nat)
    requires |items| > 0
    ensures k < |items|
  {
    if |items| == 1 then 0
    else
      var k := NoonIndex(items[..|items| - 1]);
      if NoonDistance(items[|items| - 1]) < NoonDistance(items[..|items| - 1][k]) then |items| - 1 else k
  }

  /** The chosen entry is the closest to noon, and the earliest among the
      equally close ones. */
  lemma {:induction false} NoonIndexIsFirstClosest(items: seq<Entry>)
    requires |items| > 0
    ensures forall j :: 0 <= j < |items| ==> NoonDistance(items[NoonIndex(items)]) <= NoonDistance(items[j])
    ensures forall j :: 0 <= j < NoonIndex(items) ==> NoonDistance(items[j]) > NoonDistance(items[NoonIndex(items)])
  {
    if |items| > 1 {
      var front := items[..|items| - 1];
      NoonIndexIsFirstClosest(front);
      assert forall j :: 0 <= j < |front| ==> front[j] == items[j];
    }
  }

  /** The value plotted for an entry: the rainfall of the last three hours
      defaults to 0. */
  function Value(e: Entry, kind: Kind): int
  {
    match kind
    case Temperature => e.temp
    case Rainfall => if e.rain3h.Some? then e.rain3h.value else 0
    case Humidity => e.humidity
    case Wind => e.windSpeed
  }

  /** `Object.keys(groups).slice(1, 6)`. */
  function ShownDays(days: seq<string>): (r: seq<string>)
    ensures |r| == if |days| <= 1 then 0 else if |days| >= 6 then 5 else |days| - 1
    ensures |days| > 1 ==> r == days[1..if |days| < 6 then |days| else 6]
    ensures forall d :: d in r ==> d in days
  {
    if |days| <= 1 then [] else days[1..if |days| < 6 then |days| else 6]
  }

  /** The point of a date: from its entry closest to noon. */
  function PointOf(list: seq<Entry>, day: string, kind: Kind): Point
    requires day in Days(list)
  {
    DayHasEntries(list, day);
    var items := OfDay(list, day);
    var target := items[NoonIndex(items)];
    Point(target.dt, Value(target, kind))
  }

  /** `buildChartData`: nothing without a forecast or entries; otherwise a
      point per shown date. */
  function ChartData(forecast: Option<Forecast>, kind: Kind): (r: seq<Point>)
  {
    if forecast.None? || forecast.value.list.None? || forecast.value.list.value == [] then []
    else
      var list := forecast.value.list.value;
      var days := ShownDays(Days(list));
      seq(|days|, i requires 0 <= i < |days| => PointOf(list, days[i], kind))
  }

  /** The chart has a point for each of at most five dates after the first,
      each from an entry of that date. */
  lemma ChartShape(forecast: Option<Forecast>, kind: Kind, i: int)
    ensures forecast.None? || forecast.value.list.None? || forecast.value.list == Some([]) ==>
      ChartData(forecast, kind) == []
    ensures forecast.Some? && forecast.value.list.Some? ==>
      var n := |Days(forecast.value.list.value)|;
      |ChartData(forecast, kind)| == if n <= 1 then 0 else if n >= 6 then 5 else n - 1
    ensures forecast.Some? && forecast.value.list.Some? && 0 <= i < |ChartData(forecast, kind)| ==>
      var list := forecast.value.list.value;
      exists k :: 0 <= k < |list| && DatePart(list[k].dtTxt) == Days(list)[i + 1]
                  && ChartData(forecast, kind)[i] == Point(list[k].dt, Value(list[k], kind))
  {
    if forecast.Some? && forecast.value.list.Some? && 0 <= i < |ChartData(forecast, kind)| {
      var list := forecast.value.list.value;
      var day := ShownDays(Days(list))[i];
      assert day == Days(list)[i + 1];
      DayHasEntries(list, day);
      var items := OfDay(list, day);
      var e := items[NoonIndex(items)];
      var k := OfDayFrom(list, day, NoonIndex(items));
      assert list[k] == e;
    }
  }

  /** Every entry of a date's group comes from the list, with that date. */
  lemma {:induction false} OfDayFrom(list: seq<Entry>, day: string, j: int) returns (k: int)
    requires 0 <= j < |OfDay(list, day)|
    ensures 0 <= k < |list| && list[k] == OfDay(list, day)[j] && DatePart(list[k].dtTxt) == day
  {
    var front := list[..|list| - 1];
    if j < |OfDay(front, day)| {
      k := OfDayFrom(front, day, j);
    } else {
      k := |list| - 1;
    }
  }

  /** A date that is not listed has no entries. */
  lemma {:induction false} UnlistedDayEmpty(list: seq<Entry>, day: string)
    requires day !in Days(list)
    ensures OfDay(list, day) == []
  {
    if list != [] {
      UnlistedDayEmpty(list[..|list| - 1], day);
    }
  }

  /** The groups of a prefix of the entries: the keys in order of first
      appearance, and each key's entries in order. */
  ghost predicate GroupedUpTo(list: seq<Entry>, i: int, keys: seq<string>, groups: map<string, seq<Entry>>)
    requires 0 <= i <= |list|
  {
    && keys == Days(list[..i])
    && (forall d :: d in groups <==> d in keys)
    && (forall d :: d in groups ==> groups[d] == OfDay(list[..i], d))
  }

  /** The entry at `i` is pushed onto its date's group, which is created
      first when missing. */
  lemma GroupStep(list: seq<Entry>, i: int, keys: seq<string>, groups: map<string, seq<Entry>>)
    requires 0 <= i < |list| && GroupedUpTo(list, i, keys, groups)
    ensures var day := DatePart(list[i].dtTxt);
      var keys' := if day in groups then keys else keys + [day];
      var group := if day in groups then groups[day] else [];
      GroupedUpTo(list, i + 1, keys', groups[day := group + [list[i]]])
  {
    var day := DatePart(list[i].dtTxt);
    assert list[..i + 1][..i] == list[..i];
    if day !in groups {
      UnlistedDayEmpty(list[..i], day);
    }
  }

  /** One turn of the `forEach`: the entry at `i` is pushed onto its date's
      group, which is created first when missing. */
  method Push(list: seq<Entry>, i: int, keys: seq<string>, groups: map<string, seq<Entry>>)
    returns (keys': seq<string>, groups': map<string, seq<Entry>>)
    requires 0 <= i < |list| && GroupedUpTo(list, i, keys, groups)
    ensures GroupedUpTo(list, i + 1, keys', groups')
  {
    GroupStep(list, i, keys, groups);
    var day := DatePart(list[i].dtTxt);
    var group := [];
    keys' := keys;
    if day in groups {
      group := groups[day];
    } else {
      keys' := keys + [day];
    }
    groups' := groups[day := group + [list[i]]];
  }

  /** The `forEach` that builds the groups. */
  method GroupByDay(list: seq<Entry>) returns (keys: seq<string>, groups: map<string, seq<Entry>>)
    ensures GroupedUpTo(list, |list|, keys, groups)
  {
    keys := [];
    groups := map[];
    for i := 0 to |list|
      invariant GroupedUpTo(list, i, keys, groups)
    {
      keys, groups := Push(list, i, keys, groups);
    }
  }

  /** The loop that keeps the entry closest to noon; `minDiff` starts above
      every distance, as `Infinity` does. */
  method ClosestToNoon(items: seq<Entry>) returns (target: Entry)
    requires |items| > 0
    ensures target == items[NoonIndex(items)]
  {
    target := items[0];
    var minDiff: int := -1;
    for i := 0 to |items|
      invariant i == 0 ==> minDiff == -1 && target == items[0]
      invariant i > 0 ==> target == items[NoonIndex(items[..i])] && minDiff == NoonDistance(target)
    {
      assert items[..i + 1][..i] == items[..i];
      var diff := NoonDistance(items[i]);
      if minDiff == -1 || diff < minDiff {
        minDiff := diff;
        target := items[i];
      }
    }
    assert items[..|items|] == items;
  }

  /** The `map` over the shown dates. */
  method PlotDays(list: seq<Entry>, groups: map<string, seq<Entry>>, days: seq<string>, kind: Kind)
    returns (r: seq<Point>)
    requires forall d :: d in days ==> d in Days(list) && d in groups && groups[d] == OfDay(list, d)
    ensures |r| == |days| && forall j :: 0 <= j < |days| ==> r[j] == PointOf(list, days[j], kind)
  {
    r := [];
    for i := 0 to |days|
      invariant |r| == i && forall j :: 0 <= j < i ==> r[j] == PointOf(list, days[j], kind)
    {
      DayHasEntries(list, days[i]);
      var target := ClosestToNoon(groups[days[i]]);
      r := r + [Point(target.dt, Value(target, kind))];
    }
  }

  /** `buildChartData`. */
  method BuildChartData(forecast: Option<Forecast>, kind: Kind) returns (r: seq<Point>)
    ensures r == ChartData(forecast, kind)
  {
    if forecast.None? || forecast.value.list.None? || forecast.value.list.value == [] {
      return [];
    }
    var list := forecast.value.list.value;
    var keys, groups := GroupByDay(list);
    assert list[..|list|] == list;
    var days := ShownDays(keys);
    r := PlotDays(list, groups, days, kind);
  }
}
