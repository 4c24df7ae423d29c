/**
 * The outdoor-temperature forecast the MPC controller consumes: how many
 * steps the horizon holds, the readings taken from a weather entity's
 * forecast attribute, their interpolation onto the controller's time grid,
 * and the constant fallback built from the current outdoor temperature.
 *
 * Home Assistant's state machine is a map from entity id to state; each
 * forecast item's date is given as hours from now, since parsing dates and
 * reading the clock are library calls.
 */
module Forecast {
  import opened Base

  /** The temperature used when neither the sensor nor the weather entity gives one [°C]. */
  const DEFAULT_OUTDOOR_TEMPERATURE: real := 10.0

  /** A value read from an attribute, and what `float(value)` makes of it. */
  datatype Field = Missing | Parsed(v: real) | Unparseable

  /**
   * The "datetime" of a forecast item: absent, a date without a UTC offset
   * (given as hours from now), a date with a UTC offset (every string
   * ending in "Z" is one once "Z" becomes "+00:00"), or not a readable date.
   * The provider's `now` is `datetime.now()` without a time zone, and
   * subtracting it from a date with an offset raises `TypeError`, so an
   * `Aware` date never gives a reading.
   */
  datatype Stamp = NoStamp | At(hoursFromNow: real) | Aware(hoursFromNow: real) | Unreadable

  /** One entry of the "forecast" attribute. */
  datatype ForecastItem = ForecastItem(temperature: Field, temp: Field, datetime: Stamp)

  /**
   * An entity's state: its state string with what `float` makes of it,
   * and the attributes the provider reads.
   */
  datatype State = State(state: string, parsedState: Option<real>, temperature: Field,
                         forecast: Option<seq<ForecastItem>>)

  /** `ForecastProvider(weather_entity, outdoor_temp_entity)`. */
  datatype ForecastProvider = ForecastProvider(weatherEntity: Option<string>, outdoorTempEntity: Option<string>)

  /** `int(hours·3600 / dt)`; a zero step divides by zero. */
  function NSteps(hours: real, dt: real): (r: Result<int>)
    ensures r.Failure? <==> dt == 0.0
    ensures r.Success? && hours >= 0.0 && dt > 0.0 ==>
      r.value >= 0 && r.value as real <= hours * 3600.0 / dt < r.value as real + 1.0
  {
    if dt == 0.0 then Failure("float division by zero") else Success(Trunc(hours * 3600.0 / dt))
  }

  // ---------------------------------------------------------------------
  // Forecast readings
  // ---------------------------------------------------------------------

  /** `item.get("temperature")`, or `item.get("temp")` when that is None. */
  function ItemTemperature(item: ForecastItem): Field
  {
    if item.temperature.Missing? then item.temp else item.temperature
  }

  /**
   * What one item contributes: nothing when it lacks a temperature or a
   * datetime, when the datetime is unreadable or carries a UTC offset (the
   * subtraction from the naive `now` raises), when it lies outside
   * [0, maxHours] hours from now, or when its temperature does not convert
   * to a float; otherwise (temperature, hours from now).
   */
  function Reading(item: ForecastItem, maxHours: real): (r: Option<(real, real)>)
    ensures r.Some? <==>
      ItemTemperature(item).Parsed? && item.datetime.At? && 0.0 <= item.datetime.hoursFromNow <= maxHours
    ensures r.Some? ==> r.value == (ItemTemperature(item).v, item.datetime.hoursFromNow)
  {
    var temp := ItemTemperature(item);
    if temp.Missing? then None
    else if item.datetime.NoStamp? || item.datetime.Unreadable? || item.datetime.Aware? then None
    else if !(0.0 <= item.datetime.hoursFromNow <= maxHours) then None
    else if temp.Unparseable? then None
    else Some((temp.v, item.datetime.hoursFromNow))
  }

  /** The temperatures and times of the items' readings, in item order. */
  function Readings(items: seq<ForecastItem>, maxHours: real): (r: (seq<real>, seq<real>))
    ensures |r.0| == |r.1| <= |items|
    decreases |items|
  {
    if |items| == 0 then ([], [])
    else
      var prefix := Readings(items[..|items| - 1], maxHours);
      var reading := Reading(items[|items| - 1], maxHours);
      if reading.Some? then (prefix.0 + [reading.value.0], prefix.1 + [reading.value.1]) else prefix
  }

  /** The reading of some item. */
  predicate ReadFrom(items: seq<ForecastItem>, maxHours: real, reading: (real, real))
  {
    exists i :: 0 <= i < |items| && Reading(items[i], maxHours) == Some(reading)
  }

  /**
   * Every reading comes from an item, and every time lies within
   * [0, maxHours].
   */
  lemma {:induction false} ReadingsFromItems(items: seq<ForecastItem>, maxHours: real)
    ensures forall j :: 0 <= j < |Readings(items, maxHours).1| ==>
      0.0 <= Readings(items, maxHours).1[j] <= maxHours
    ensures forall j :: 0 <= j < |Readings(items, maxHours).0| ==>
      ReadFrom(items, maxHours, (Readings(items, maxHours).0[j], Readings(items, maxHours).1[j]))
    decreases |items|
  {
    if |items| > 0 {
      var init := items[..|items| - 1];
      ReadingsFromItems(init, maxHours);
      var r := Readings(items, maxHours);
      var prefix := Readings(init, maxHours);
      forall j | 0 <= j < |r.0|
        ensures ReadFrom(items, maxHours, (r.0[j], r.1[j]))
      {
        if j < |prefix.0| {
          assert r.0[j] == prefix.0[j] && r.1[j] == prefix.1[j];
          assert ReadFrom(init, maxHours, (prefix.0[j], prefix.1[j]));
          var i :| 0 <= i < |init| && Reading(init[i], maxHours) == Some((prefix.0[j], prefix.1[j]));
          assert items[i] == init[i];
        } else {
          assert Reading(items[|items| - 1], maxHours) == Some((r.0[j], r.1[j]));
        }
      }
    }
  }

  /** The indices of the items that have a reading. */
  ghost function Usable(items: seq<ForecastItem>, maxHours: real): set<int>
  {
    set i | 0 <= i < |items| && Reading(items[i], maxHours).Some?
  }

  lemma UsableStep(items: seq<ForecastItem>, maxHours: real)
    requires |items| > 0
    ensures |Usable(items, maxHours)| ==
      |Usable(items[..|items| - 1], maxHours)| + (if Reading(items[|items| - 1], maxHours).Some? then 1 else 0)
  {
    var n := |items|;
    var init := items[..n - 1];
    var before := Usable(init, maxHours);
    var last: set<int> := if Reading(items[n - 1], maxHours).Some? then {n - 1} else {};
    forall i | 0 <= i < n ensures i in Usable(items, maxHours) <==> i in before + last {
      if i < n - 1 {
        assert init[i] == items[i];
      }
    }
    assert Usable(items, maxHours) == before + last;
    assert n - 1 !in before;
  }

  /** Every item that has a reading contributes it: nothing usable is dropped. */
  lemma {:induction false} ReadingsKeepUsableItems(items: seq<ForecastItem>, maxHours: real)
    ensures |Readings(items, maxHours).0| == |Usable(items, maxHours)|
    decreases |items|
  {
    if |items| > 0 {
      ReadingsKeepUsableItems(items[..|items| - 1], maxHours);
      UsableStep(items, maxHours);
    }
  }

  /** `_extract_forecast_data`: the loop that appends each usable reading. */
  method ExtractForecastData(items: seq<ForecastItem>, maxHours: real) returns (temps: seq<real>, times: seq<real>)
    ensures (temps, times) == Readings(items, maxHours)
  {
    temps, times := [], [];
    var k := 0;
    while k < |items|
      invariant 0 <= k <= |items|
      invariant (temps, times) == Readings(items[..k], maxHours)
    {
      assert items[..k + 1][..k] == items[..k];
      var reading := Reading(items[k], maxHours);
      if reading.Some? {
        temps := temps + [reading.value.0];
        times := times + [reading.value.1];
      }
      k := k + 1;
    }
    assert items[..k] == items;
  }

  // ---------------------------------------------------------------------
  // Interpolation onto the controller grid
  // ---------------------------------------------------------------------

  /** (time, temperature) pairs. */
  function Points(temps: seq<real>, times: seq<real>): (r: seq<(real, real)>)
    requires |temps| == |times|
    ensures |r| == |temps| && forall j :: 0 <= j < |r| ==> r[j] == (times[j], temps[j])
  {
    seq(|temps|, j requires 0 <= j < |temps| => (times[j], temps[j]))
  }

  function InsertByTime(p: (real, real), s: seq<(real, real)>): seq<(real, real)>
    decreases |s|
  {
    if |s| == 0 || p.0 <= s[0].0 then [p] + s else [s[0]] + InsertByTime(p, s[1..])
  }

  /** The points ordered by time: `np.argsort(times)` applied to both lists. */
  function SortByTime(s: seq<(real, real)>): seq<(real, real)>
    decreases |s|
  {
    if |s| == 0 then [] else InsertByTime(s[0], SortByTime(s[1..]))
  }

  predicate TimeOrdered(s: seq<(real, real)>)
  {
    forall i, j :: 0 <= i <= j < |s| ==> s[i].0 <= s[j].0
  }

  lemma {:induction false} InsertByTimeSpec(p: (real, real), s: seq<(real, real)>)
    requires TimeOrdered(s)
    ensures TimeOrdered(InsertByTime(p, s))
    ensures InsertByTime(p, s)[0] == p || InsertByTime(p, s)[0] == s[0]
    decreases |s|
  {
    if |s| > 0 && p.0 > s[0].0 {
      InsertByTimeSpec(p, s[1..]);
      OrderedCons(s[0], InsertByTime(p, s[1..]));
    }
  }

  /** Insertion adds the point and keeps every other. */
  lemma {:induction false} InsertByTimeKeeps(p: (real, real), s: seq<(real, real)>)
    ensures multiset(InsertByTime(p, s)) == multiset(s) + multiset{p}
    decreases |s|
  {
    if |s| > 0 && p.0 > s[0].0 {
      InsertByTimeKeeps(p, s[1..]);
      assert s == [s[0]] + s[1..];
    }
  }

  /** A point no later than the head of an ordered sequence can go in front of it. */
  lemma OrderedCons(p: (real, real), s: seq<(real, real)>)
    requires TimeOrdered(s) && |s| > 0 && p.0 <= s[0].0
    ensures TimeOrdered([p] + s)
  {
    forall i, j | 0 <= i <= j < |s| + 1 ensures ([p] + s)[i].0 <= ([p] + s)[j].0 {
      if i == 0 && j > 0 {
        assert s[0].0 <= s[j - 1].0;
      }
    }
  }

  /** Sorting orders the points by time and keeps exactly the same points. */
  lemma {:induction false} SortByTimeSpec(s: seq<(real, real)>)
    ensures TimeOrdered(SortByTime(s))
    ensures multiset(SortByTime(s)) == multiset(s)
    decreases |s|
  {
    if |s| > 0 {
      SortByTimeSpec(s[1..]);
      InsertByTimeSpec(s[0], SortByTime(s[1..]));
      InsertByTimeKeeps(s[0], SortByTime(s[1..]));
      assert s == [s[0]] + s[1..];
    }
  }

  function TimesOf(s: seq<(real, real)>): (r: seq<real>)
    ensures |r| == |s| && forall j :: 0 <= j < |s| ==> r[j] == s[j].0
  {
    seq(|s|, j requires 0 <= j < |s| => s[j].0)
  }

  function TempsOf(s: seq<(real, real)>): (r: seq<real>)
    ensures |r| == |s| && forall j :: 0 <= j < |s| ==> r[j] == s[j].1
  {
    seq(|s|, j requires 0 <= j < |s| => s[j].1)
  }

  /** The time of step i of the controller grid, in hours: `np.arange(n_steps) * dt / 3600`. */
  function TargetTime(i: nat, dt: real): real
  {
    i as real * (dt / 3600.0)
  }

  /**
   * `_interpolate_forecast`: raises on an empty forecast; otherwise the
   * n_steps grid values of the forecast sorted by time, linearly
   * interpolated, each held at the first or last sorted value outside the
   * forecast's time range and never outside the range of the forecast
   * temperatures. A negative step count gives an empty grid.
   */
  function InterpolateForecast(temps: seq<real>, times: seq<real>, dt: real, nSteps: int): (r: Result<seq<real>>)
    requires |temps| == |times|
    ensures r.Failure? <==> |temps| == 0
    ensures r.Success? ==>
      var sorted := SortByTime(Points(temps, times));
      |sorted| == |temps| &&
      |r.value| == (if nSteps < 0 then 0 else nSteps) &&
      forall i :: 0 <= i < |r.value| ==>
        SeqMin(temps) <= r.value[i] <= SeqMax(temps) &&
        (TargetTime(i, dt) < sorted[0].0 ==> r.value[i] == sorted[0].1) &&
        (TargetTime(i, dt) >= sorted[|sorted| - 1].0 ==> r.value[i] == sorted[|sorted| - 1].1)
  {
    if |temps| == 0 then Failure("Empty forecast data")
    else
      var sorted := SortByTime(Points(temps, times));
      SortedPointsInRange(temps, times);
      var xp, fp := TimesOf(sorted), TempsOf(sorted);
      var n := if nSteps < 0 then 0 else nSteps;
      Success(seq(n, i requires 0 <= i < n => Interp(TargetTime(i, dt), xp, fp)))
  }

  /**
   * The sorted points have non-decreasing times and their temperatures
   * stay within the range of the original temperatures.
   */
  lemma SortedPointsInRange(temps: seq<real>, times: seq<real>)
    requires |temps| == |times| > 0
    ensures var sorted := SortByTime(Points(temps, times));
      |sorted| == |temps| && NonDecreasing(TimesOf(sorted)) &&
      SeqMin(temps) <= SeqMin(TempsOf(sorted)) && SeqMax(TempsOf(sorted)) <= SeqMax(temps)
  {
    var points := Points(temps, times);
    var sorted := SortByTime(points);
    SortByTimeSpec(points);
    assert |sorted| == |multiset(sorted)| == |multiset(points)| == |temps|;
    var fp := TempsOf(sorted);
    SeqMinBounds(temps);
    SeqMaxBounds(temps);
    SeqMinBounds(fp);
    SeqMaxBounds(fp);
    var lo :| 0 <= lo < |fp| && fp[lo] == SeqMin(fp);
    var hi :| 0 <= hi < |fp| && fp[hi] == SeqMax(fp);
    assert sorted[lo] in multiset(points);
    var a :| 0 <= a < |points| && points[a] == sorted[lo];
    assert sorted[hi] in multiset(points);
    var b :| 0 <= b < |points| && points[b] == sorted[hi];
    assert fp[lo] == temps[a] && fp[hi] == temps[b];
  }

  // ---------------------------------------------------------------------
  // The provider
  // ---------------------------------------------------------------------

  /**
   * `_get_current_outdoor_temperature`: the outdoor sensor's state when it
   * is configured, present, not "unknown"/"unavailable" and numeric; else
   * the weather entity's "temperature" attribute when configured, present
   * and numeric; else 10 °C.
   */
  function CurrentOutdoorTemperature(p: ForecastProvider, states: map<string, State>): (t: real)
    ensures var sensor := SensorReading(p, states);
      var weather := WeatherReading(p, states);
      (sensor.Some? ==> t == sensor.value) &&
      (sensor.None? && weather.Some? ==> t == weather.value) &&
      (sensor.None? && weather.None? ==> t == DEFAULT_OUTDOOR_TEMPERATURE)
  {
    if Given(p.outdoorTempEntity) && p.outdoorTempEntity.value in states &&
       states[p.outdoorTempEntity.value].state != "unknown" && states[p.outdoorTempEntity.value].state != "unavailable" &&
       states[p.outdoorTempEntity.value].parsedState.Some?
    then states[p.outdoorTempEntity.value].parsedState.value
    else if Given(p.weatherEntity) && p.weatherEntity.value in states &&
            states[p.weatherEntity.value].temperature.Parsed?
    then states[p.weatherEntity.value].temperature.v
    else DEFAULT_OUTDOOR_TEMPERATURE
  }

  /** A usable reading of the outdoor sensor, if there is one. */
  function SensorReading(p: ForecastProvider, states: map<string, State>): Option<real>
  {
    if !Given(p.outdoorTempEntity) || p.outdoorTempEntity.value !in states then None
    else
      var s := states[p.outdoorTempEntity.value];
      if s.state in ["unknown", "unavailable"] then None else s.parsedState
  }

  /** A usable current temperature of the weather entity, if there is one. */
  function WeatherReading(p: ForecastProvider, states: map<string, State>): Option<real>
  {
    if !Given(p.weatherEntity) || p.weatherEntity.value !in states then None
    else
      var t := states[p.weatherEntity.value].temperature;
      if t.Parsed? then Some(t.v) else None
  }

  /**
   * `_get_weather_forecast`: None when the weather entity is missing, has
   * no (or an empty) forecast attribute, or none of its items gives a
   * reading; otherwise the readings interpolated onto the grid.
   */
  function WeatherForecast(p: ForecastProvider, states: map<string, State>, hours: real, dt: real, nSteps: int)
    : (r: Option<seq<real>>)
    requires Given(p.weatherEntity)
    ensures r.Some? <==>
      p.weatherEntity.value in states && states[p.weatherEntity.value].forecast.Some? &&
      |Readings(states[p.weatherEntity.value].forecast.value, hours).0| > 0
    ensures r.Some? ==>
      var (temps, times) := Readings(states[p.weatherEntity.value].forecast.value, hours);
      InterpolateForecast(temps, times, dt, nSteps) == Success(r.value)
  {
    var id := p.weatherEntity.value;
    if id !in states then None
    else
      var attr := states[id].forecast;
      if attr.None? || |attr.value| == 0 then None
      else
        var (temps, times) := Readings(attr.value, hours);
        if |temps| == 0 then None
        else Some(InterpolateForecast(temps, times, dt, nSteps).value)
  }

  /**
   * `get_outdoor_temperature_forecast`: a zero step raises; the weather
   * forecast when there is one; otherwise n_steps copies of the current
   * outdoor temperature, which `np.full` refuses for a negative count.
   */
  function OutdoorTemperatureForecast(p: ForecastProvider, states: map<string, State>, hours: real, dt: real)
    : (r: Result<seq<real>>)
    ensures r.Failure? <==> (dt == 0.0 ||
      (NSteps(hours, dt).value < 0 && (!Given(p.weatherEntity) || WeatherForecast(p, states, hours, dt, NSteps(hours, dt).value).None?)))
    ensures r.Success? ==> |r.value| == (if NSteps(hours, dt).value < 0 then 0 else NSteps(hours, dt).value)
    ensures r.Success? && (!Given(p.weatherEntity) || WeatherForecast(p, states, hours, dt, NSteps(hours, dt).value).None?) ==>
      r.value == Repeat(CurrentOutdoorTemperature(p, states), |r.value|)
  {
    var n := NSteps(hours, dt);
    if n.Failure? then Failure(n.error)
    else
      var weather := if Given(p.weatherEntity) then WeatherForecast(p, states, hours, dt, n.value) else None;
      if weather.Some? then Success(weather.value)
      else if n.value < 0 then Failure("negative dimensions are not allowed")
      else Success(Repeat(CurrentOutdoorTemperature(p, states), n.value))
  }

  /**
   * Without a weather forecast the controller sees a flat forecast: every
   * step holds the same temperature.
   */
  lemma FallbackIsFlat(p: ForecastProvider, states: map<string, State>, hours: real, dt: real)
    requires !Given(p.weatherEntity)
    ensures var r := OutdoorTemperatureForecast(p, states, hours, dt);
      r.Success? ==> forall i, j :: 0 <= i < |r.value| && 0 <= j < |r.value| ==> r.value[i] == r.value[j]
  {
  }

  /** Items whose dates all carry a UTC offset give no readings. */
  lemma {:induction false} OffsetDatesGiveNoReadings(items: seq<ForecastItem>, maxHours: real)
    requires forall i :: 0 <= i < |items| ==> items[i].datetime.Aware?
    ensures Readings(items, maxHours) == ([], [])
    decreases |items|
  {
    if |items| > 0 {
      OffsetDatesGiveNoReadings(items[..|items| - 1], maxHours);
    }
  }

  /**
   * A weather entity whose forecast dates all carry a UTC offset (the ISO
   * strings Home Assistant's weather entities publish) gives no forecast,
   * so the controller gets n_steps copies of the current outdoor
   * temperature.
   */
  lemma OffsetDatesFallBackToFlat(p: ForecastProvider, states: map<string, State>, hours: real, dt: real)
    requires Given(p.weatherEntity) && p.weatherEntity.value in states
    requires var f := states[p.weatherEntity.value].forecast;
      f.Some? && forall i :: 0 <= i < |f.value| ==> f.value[i].datetime.Aware?
    ensures var r := OutdoorTemperatureForecast(p, states, hours, dt);
      r.Success? ==> r.value == Repeat(CurrentOutdoorTemperature(p, states), |r.value|)
  {
    OffsetDatesGiveNoReadings(states[p.weatherEntity.value].forecast.value, hours);
  }

  /** `get_solar_forecast`: n_steps zeros. */
  function SolarForecast(hours: real, dt: real): (r: Result<seq<real>>)
    ensures r.Failure? <==> dt == 0.0 || NSteps(hours, dt).value < 0
    ensures r.Success? ==> |r.value| == NSteps(hours, dt).value && forall i :: 0 <= i < |r.value| ==> r.value[i] == 0.0
  {
    var n := NSteps(hours, dt);
    if n.Failure? then Failure(n.error)
    else if n.value < 0 then Failure("negative dimensions are not allowed")
    else Success(Repeat(0.0, n.value))
  }
}
