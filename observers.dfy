/**
 * What the weather displays print, and the forecast trend rule both weather
 * stations share: the tightly coupled one calls three fixed displays, the
 * refactored one keeps a registry. Floats are `real`: comparisons only, no
 * rounding and no NaN.
 */
module Weather {

  /** The four forecasts. The refactored display also prints the reading it has no trend for. */
  datatype Trend = Improving | MoreOfTheSame | Rainy | NeedMoreData | NeedMoreDataInitial(reading: real)

  /** One console line of either weather example. */
  datatype Line =
    | MeasurementsSet(temperature: real, humidity: real)
    | NewMeasurements
    | CurrentConditions(temperature: real, humidity: real)
    | Statistics(lastTemperature: real)
    | Forecast(trend: Trend)
    | HeatIndexShown
    | Registering(name: string)
    | Removing(name: string)
    | Notifying(count: nat)

  /** The tightly coupled `ForecastDisplay.display`: three guarded comparisons, then the fallback. */
  function PreTrend(last: real, current: real): (t: Trend)
    ensures t == NeedMoreData <==> last == -1.0
    ensures last != -1.0 ==> (t == Improving <==> current > last)
    ensures last != -1.0 ==> (t == MoreOfTheSame <==> current == last)
    ensures last != -1.0 ==> (t == Rainy <==> current < last)
  {
    if current > last && last != -1.0 then Improving
    else if current == last && last != -1.0 then MoreOfTheSame
    else if current < last && last != -1.0 then Rainy
    else NeedMoreData
  }

  /** `ForecastDisplayRefactored.display`: the -1 guard first, then the three-way comparison. */
  function PostTrend(last: real, current: real): (t: Trend)
    ensures t.NeedMoreDataInitial? <==> last == -1.0
    ensures t.NeedMoreDataInitial? ==> t.reading == current
    ensures last != -1.0 ==> (t == Improving <==> current > last)
    ensures last != -1.0 ==> (t == MoreOfTheSame <==> current == last)
    ensures last != -1.0 ==> (t == Rainy <==> current < last)
  {
    if last != -1.0 then
      if current > last then Improving
      else if current == last then MoreOfTheSame
      else Rainy
    else NeedMoreDataInitial(current)
  }

  /** The nested and the flat rule agree, except that the refactored fallback also shows the reading. */
  lemma TrendsAgree(last: real, current: real)
    ensures last != -1.0 ==> PreTrend(last, current) == PostTrend(last, current)
    ensures last == -1.0 ==> PreTrend(last, current) == NeedMoreData && PostTrend(last, current) == NeedMoreDataInitial(current)
  {
  }

  /**
   * (last, current) humidity of a forecast display after a series of readings:
   * the fields start at -1 and 0, and each `update` shifts current into last.
   */
  function HumidityAfter(readings: seq<real>): (r: (real, real))
    ensures readings == [] ==> r == (-1.0, 0.0)
    ensures |readings| >= 1 ==> r.1 == readings[|readings| - 1]
    ensures |readings| == 1 ==> r.0 == 0.0
    ensures |readings| >= 2 ==> r.0 == readings[|readings| - 2]
  {
    if readings == [] then (-1.0, 0.0)
    else (HumidityAfter(readings[..|readings| - 1]).1, readings[|readings| - 1])
  }

  /**
   * The first update already compares against the initial 0, so "need more
   * data" is shown only when the previous reading was exactly -1.
   */
  lemma NeedMoreDataOnlyAfterMinusOne(readings: seq<real>)
    requires |readings| >= 1
    ensures PreTrend(HumidityAfter(readings).0, HumidityAfter(readings).1) == NeedMoreData
      <==> |readings| >= 2 && readings[|readings| - 2] == -1.0
    ensures PostTrend(HumidityAfter(readings).0, HumidityAfter(readings).1).NeedMoreDataInitial?
      <==> |readings| >= 2 && readings[|readings| - 2] == -1.0
  {
  }

  /** After the very first reading the trend is the sign of the humidity. */
  lemma FirstUpdateComparesWithZero(h: real)
    ensures PreTrend(HumidityAfter([h]).0, HumidityAfter([h]).1) == (if h > 0.0 then Improving else if h == 0.0 then MoreOfTheSame else Rainy)
    ensures PostTrend(HumidityAfter([h]).0, HumidityAfter([h]).1) == PreTrend(HumidityAfter([h]).0, HumidityAfter([h]).1)
  {
    assert HumidityAfter([h]) == (0.0, h);
  }
}

/** The tightly coupled weather station and its three concrete displays. */
module WeatherPre {
  import opened Weather

  class CurrentConditionsDisplay {
    var temperature: real
    var humidity: real

    constructor ()
      ensures temperature == 0.0 && humidity == 0.0
    {
      temperature, humidity := 0.0, 0.0;
    }

    /** `update`: keeps both values and shows them. */
    method Update(temperature: real, humidity: real) returns (line: Line)
      modifies this
      ensures this.temperature == temperature && this.humidity == humidity
      ensures line == CurrentConditions(temperature, humidity)
    {
      this.temperature, this.humidity := temperature, humidity;
      line := CurrentConditions(this.temperature, this.humidity);
    }
  }

  class StatisticsDisplay {
    var lastTemperature: real

    constructor ()
      ensures lastTemperature == 0.0
    {
      lastTemperature := 0.0;
    }

    /** `update`: keeps the temperature only. */
    method Update(temperature: real, humidity: real) returns (line: Line)
      modifies this
      ensures lastTemperature == temperature && line == Statistics(temperature)
    {
      lastTemperature := temperature;
      line := Statistics(lastTemperature);
    }
  }

  class ForecastDisplay {
    var currentHumidity: real
    var lastHumidity: real

    constructor ()
      ensures (lastHumidity, currentHumidity) == HumidityAfter([])
    {
      currentHumidity, lastHumidity := 0.0, -1.0;
    }

    /** `update`: the current humidity becomes the last one, then the trend between them is shown. */
    method Update(temperature: real, humidity: real) returns (line: Line)
      modifies this
      ensures lastHumidity == old(currentHumidity) && currentHumidity == humidity
      ensures line == Forecast(PreTrend(old(currentHumidity), humidity))
    {
      lastHumidity := currentHumidity;
      currentHumidity := humidity;
      line := Forecast(PreTrend(lastHumidity, currentHumidity));
    }
  }

  /** `WeatherStation`: three fixed display references, any of them possibly null. */
  class WeatherStation {
    var temperature: real
    var humidity: real
    const currentDisplay: CurrentConditionsDisplay?
    const statsDisplay: StatisticsDisplay?
    const forecastDisplay: ForecastDisplay?

    constructor (current: CurrentConditionsDisplay?, stats: StatisticsDisplay?, forecast: ForecastDisplay?)
      ensures currentDisplay == current && statsDisplay == stats && forecastDisplay == forecast
      ensures temperature == 0.0 && humidity == 0.0
    {
      currentDisplay, statsDisplay, forecastDisplay := current, stats, forecast;
      temperature, humidity := 0.0, 0.0;
    }

    /** `measurementsChanged`: current, statistics, forecast, in that order, skipping null ones. */
    method MeasurementsChanged() returns (lines: seq<Line>)
      modifies currentDisplay, statsDisplay, forecastDisplay
      ensures currentDisplay != null ==> currentDisplay.temperature == temperature && currentDisplay.humidity == humidity
      ensures statsDisplay != null ==> statsDisplay.lastTemperature == temperature
      ensures forecastDisplay != null ==>
        forecastDisplay.lastHumidity == old(forecastDisplay.currentHumidity) && forecastDisplay.currentHumidity == humidity
      ensures lines == [NewMeasurements]
        + (if currentDisplay != null then [CurrentConditions(temperature, humidity)] else [])
        + (if statsDisplay != null then [Statistics(temperature)] else [])
        + (if forecastDisplay != null then [Forecast(PreTrend(old(forecastDisplay.currentHumidity), humidity))] else [])
    {
      lines := [NewMeasurements];
      if currentDisplay != null {
        var line := currentDisplay.Update(temperature, humidity);
        lines := lines + [line];
      }
      if statsDisplay != null {
        var line := statsDisplay.Update(temperature, humidity);
        lines := lines + [line];
      }
      if forecastDisplay != null {
        var line := forecastDisplay.Update(temperature, humidity);
        lines := lines + [line];
      }
    }

    /** `setMeasurements`: stores both values, then notifies; the getters then return them. */
    method SetMeasurements(temperature: real, humidity: real) returns (lines: seq<Line>)
      modifies this, currentDisplay, statsDisplay, forecastDisplay
      ensures this.temperature == temperature && this.humidity == humidity
      ensures currentDisplay != null ==> currentDisplay.temperature == temperature && currentDisplay.humidity == humidity
      ensures statsDisplay != null ==> statsDisplay.lastTemperature == temperature
      ensures forecastDisplay != null ==>
        forecastDisplay.lastHumidity == old(forecastDisplay.currentHumidity) && forecastDisplay.currentHumidity == humidity
      ensures lines == [MeasurementsSet(temperature, humidity), NewMeasurements]
        + (if currentDisplay != null then [CurrentConditions(temperature, humidity)] else [])
        + (if statsDisplay != null then [Statistics(temperature)] else [])
        + (if forecastDisplay != null then [Forecast(PreTrend(old(forecastDisplay.currentHumidity), humidity))] else [])
    {
      this.temperature, this.humidity := temperature, humidity;
      var changed := MeasurementsChanged();
      lines := [MeasurementsSet(temperature, humidity)] + changed;
    }
  }
}

/** The refactored weather station: a registry of displays without nulls or duplicates. */
module WeatherPost {
  import opened Weather
  import opened JavaList

  /** The four `Observer` implementations. */
  datatype Kind = CurrentConditionsKind | StatisticsKind | ForecastKind | HeatIndexKind

  /** `getClass().getSimpleName()`. */
  function SimpleName(k: Kind): string
  {
    match k
    case CurrentConditionsKind => "CurrentConditionsDisplayRefactored"
    case StatisticsKind => "StatisticsDisplayRefactored"
    case ForecastKind => "ForecastDisplayRefactored"
    case HeatIndexKind => "HeatIndexDisplay"
  }

  /** The fields of a display; each kind uses its own, the others stay at their initial values. */
  datatype DisplayState = DisplayState(
    kind: Kind, temperature: real, humidity: real, lastTemperature: real,
    currentHumidity: real, lastHumidity: real)

  /** A display's fields after `update(t, h)`. */
  function Next(s: DisplayState, t: real, h: real): (r: DisplayState)
    ensures r.kind == s.kind
    ensures s.kind == CurrentConditionsKind ==> r == s.(temperature := t, humidity := h)
    ensures s.kind == StatisticsKind ==> r == s.(lastTemperature := t)
    ensures s.kind == ForecastKind ==> r == s.(lastHumidity := s.currentHumidity, currentHumidity := h)
    ensures s.kind == HeatIndexKind ==> r == s
  {
    match s.kind
    case CurrentConditionsKind => s.(temperature := t, humidity := h)
    case StatisticsKind => s.(lastTemperature := t)
    case ForecastKind => s.(lastHumidity := s.currentHumidity, currentHumidity := h)
    case HeatIndexKind => s
  }

  /** What `display` prints from a display's fields. */
  function Shown(s: DisplayState): (r: Line)
    ensures r.CurrentConditions? <==> s.kind == CurrentConditionsKind
    ensures r.Statistics? <==> s.kind == StatisticsKind
    ensures r.Forecast? <==> s.kind == ForecastKind
    ensures r.HeatIndexShown? <==> s.kind == HeatIndexKind
  {
    match s.kind
    case CurrentConditionsKind => CurrentConditions(s.temperature, s.humidity)
    case StatisticsKind => Statistics(s.lastTemperature)
    case ForecastKind => Forecast(PostTrend(s.lastHumidity, s.currentHumidity))
    case HeatIndexKind => HeatIndexShown
  }

  function NextAll(ss: seq<DisplayState>, t: real, h: real): (r: seq<DisplayState>)
    ensures |r| == |ss| && forall i :: 0 <= i < |ss| ==> r[i] == Next(ss[i], t, h)
  {
    seq(|ss|, i requires 0 <= i < |ss| => Next(ss[i], t, h))
  }

  function ShownAll(ss: seq<DisplayState>): (r: seq<Line>)
    ensures |r| == |ss| && forall i :: 0 <= i < |ss| ==> r[i] == Shown(ss[i])
  {
    seq(|ss|, i requires 0 <= i < |ss| => Shown(ss[i]))
  }

  /** The lines of one more updated display: the lines so far and its own. */
  lemma ShownNextStep(ss: seq<DisplayState>, i: nat, t: real, h: real)
    requires i < |ss|
    ensures ShownAll(NextAll(ss[..i + 1], t, h)) == ShownAll(NextAll(ss[..i], t, h)) + [Shown(Next(ss[i], t, h))]
  {
    var a, b := ShownAll(NextAll(ss[..i + 1], t, h)), ShownAll(NextAll(ss[..i], t, h));
    assert |a| == |b| + 1;
    forall k | 0 <= k < |a|
      ensures a[k] == (b + [Shown(Next(ss[i], t, h))])[k]
    {
      assert ss[..i + 1][k] == if k < i then ss[..i][k] else ss[i];
    }
  }

  /** One observer; `kind` stands for its class. */
  class Display {
    const kind: Kind
    var temperature: real
    var humidity: real
    var lastTemperature: real
    var currentHumidity: real
    var lastHumidity: real

    function State(): DisplayState
      reads this
    {
      DisplayState(kind, temperature, humidity, lastTemperature, currentHumidity, lastHumidity)
    }

    constructor (kind: Kind)
      ensures State() == DisplayState(kind, 0.0, 0.0, 0.0, 0.0, -1.0)
    {
      this.kind := kind;
      temperature, humidity, lastTemperature, currentHumidity, lastHumidity := 0.0, 0.0, 0.0, 0.0, -1.0;
    }

    /** `update`, then `display`. */
    method Update(t: real, h: real) returns (line: Line)
      modifies this
      ensures State() == Next(old(State()), t, h)
      ensures line == Shown(State())
    {
      match kind {
        case CurrentConditionsKind =>
          temperature, humidity := t, h;
        case StatisticsKind =>
          lastTemperature := t;
        case ForecastKind =>
          lastHumidity := currentHumidity;
          currentHumidity := h;
        case HeatIndexKind =>
      }
      line := Shown(State());
    }
  }

  /** The fields of each display in a list. */
  function States(ds: seq<Display>): (r: seq<DisplayState>)
    reads set d | d in ds
    ensures |r| == |ds| && forall i :: 0 <= i < |ds| ==> r[i] == ds[i].State()
  {
    if ds == [] then [] else States(ds[..|ds| - 1]) + [ds[|ds| - 1].State()]
  }

  /** `WeatherStationRefactored`. */
  class WeatherStationRefactored {
    var observers: seq<Display>
    var temperature: real
    var humidity: real

    /** Registration keeps out nulls (by type) and duplicates. */
    ghost predicate Valid()
      reads this
    {
      Distinct(observers)
    }

    constructor ()
      ensures observers == [] && temperature == 0.0 && humidity == 0.0
      ensures Valid()
    {
      observers, temperature, humidity := [], 0.0, 0.0;
    }

    /** `registerObserver`: ignores null and an observer already registered. */
    method RegisterObserver(o: Display?) returns (lines: seq<Line>)
      requires Valid()
      modifies this
      ensures Valid()
      ensures o == null || o in old(observers) ==> observers == old(observers) && lines == []
      ensures o != null && o !in old(observers) ==> observers == old(observers) + [o] && lines == [Registering(SimpleName(o.kind))]
      ensures temperature == old(temperature) && humidity == old(humidity)
    {
      lines := [];
      if o != null && o !in observers {
        lines := [Registering(SimpleName(o.kind))];
        observers := observers + [o];
      }
    }

    /** `removeObserver`: removes a registered observer; any other argument changes nothing. */
    method RemoveObserver(o: Display?) returns (lines: seq<Line>)
      requires Valid()
      modifies this
      ensures Valid()
      ensures o == null || o !in old(observers) ==> observers == old(observers) && lines == []
      ensures o != null && o in old(observers) ==>
        observers == RemoveFirst(old(observers), o as Display) && o !in observers && lines == [Removing(SimpleName(o.kind))]
      ensures temperature == old(temperature) && humidity == old(humidity)
    {
      lines := [];
      if o != null {
        var d: Display := o;
        RemoveFirstDistinct(observers, d);
        var removed := d in observers;
        observers := RemoveFirst(observers, d);
        if removed {
          lines := [Removing(SimpleName(d.kind))];
        }
      }
    }

    /** `notifyObservers`: one `update` per registered display, in registration order. */
    method NotifyObservers() returns (lines: seq<Line>)
      requires Valid()
      modifies observers
      ensures States(observers) == NextAll(old(States(observers)), temperature, humidity)
      ensures lines == [Notifying(|observers|)] + ShownAll(NextAll(old(States(observers)), temperature, humidity))
    {
      ghost var s0 := States(observers);
      lines := [Notifying(|observers|)];
      for i := 0 to |observers|
        invariant forall j :: 0 <= j < i ==> observers[j].State() == Next(s0[j], temperature, humidity)
        invariant forall j :: i <= j < |observers| ==> observers[j].State() == s0[j]
        invariant lines == [Notifying(|observers|)] + ShownAll(NextAll(s0[..i], temperature, humidity))
      {
        var line := observers[i].Update(temperature, humidity);
        ShownNextStep(s0, i, temperature, humidity);
        lines := lines + [line];
      }
      assert s0[..|observers|] == s0;
    }

    /** `setMeasurements`: stores both values, then notifies every registered display once. */
    method SetMeasurements(t: real, h: real) returns (lines: seq<Line>)
      requires Valid()
      modifies this, observers
      ensures Valid() && observers == old(observers)
      ensures temperature == t && humidity == h
      ensures States(observers) == NextAll(old(States(observers)), t, h)
      ensures lines == [MeasurementsSet(t, h), NewMeasurements, Notifying(|observers|)] + ShownAll(NextAll(old(States(observers)), t, h))
    {
      ghost var s0 := States(observers);
      temperature, humidity := t, h;
      assert States(observers) == s0;
      var notified := NotifyObservers();
      lines := [MeasurementsSet(t, h), NewMeasurements] + notified;
      assert lines == [MeasurementsSet(t, h), NewMeasurements, Notifying(|observers|)] + ShownAll(NextAll(s0, t, h));
    }
  }
  /** Once removed, a display is left alone by later measurements. */
  method RemoveThenMeasure(station: WeatherStationRefactored, o: Display, t: real, h: real) returns (lines: seq<Line>)
    requires station.Valid() && o in station.observers
    modifies station, station.observers
    ensures station.Valid() && o !in station.observers
    ensures o.State() == old(o.State())
  {
    var removal := station.RemoveObserver(o);
    ghost var before := old(station.observers);
    forall k | 0 <= k < |station.observers| ensures station.observers[k] in before {
      assert station.observers[k] in station.observers;
    }
    var measured := station.SetMeasurements(t, h);
    lines := removal + measured;
  }

  /** The registrations of `PostObserverMain`: four new displays, one of each kind. */
  method ExampleRegistrations() returns (station: WeatherStationRefactored, c: Display, s: Display, f: Display, x: Display)
    ensures fresh(station) && fresh(c) && fresh(s) && fresh(f) && fresh(x)
    ensures station.Valid() && station.observers == [c, s, f, x]
    ensures c.kind == CurrentConditionsKind && s.kind == StatisticsKind && x.kind == HeatIndexKind
    ensures f.State() == DisplayState(ForecastKind, 0.0, 0.0, 0.0, 0.0, -1.0)
  {
    station := new WeatherStationRefactored();
    c := new Display(CurrentConditionsKind);
    s := new Display(StatisticsKind);
    f := new Display(ForecastKind);
    x := new Display(HeatIndexKind);
    RegisterAll(station, c, s, f, x);
  }

  /** Registering four different displays on an empty station lists them in that order. */
  method RegisterAll(station: WeatherStationRefactored, c: Display, s: Display, f: Display, x: Display)
    requires station.Valid() && station.observers == []
    requires c != s && c != f && c != x && s != f && s != x && f != x
    modifies station
    ensures station.Valid() && station.observers == [c, s, f, x]
  {
    var _ := station.RegisterObserver(c);
    var _ := station.RegisterObserver(s);
    assert station.observers == [c, s];
    var _ := station.RegisterObserver(f);
    assert station.observers == [c, s, f];
    var _ := station.RegisterObserver(x);
  }

  /** One measurement; what it does to the display at position `k`, and the line that display prints. */
  method MeasureAt(station: WeatherStationRefactored, k: nat, t: real, h: real) returns (line: Line)
    requires station.Valid() && k < |station.observers|
    modifies station, station.observers
    ensures station.Valid() && station.observers == old(station.observers)
    ensures station.observers[k].State() == Next(old(station.observers[k].State()), t, h)
    ensures line == Shown(station.observers[k].State())
  {
    var lines := station.SetMeasurements(t, h);
    line := lines[3 + k];
  }

  /** The first two readings of `PostObserverMain`, all four displays registered. */
  method ExampleFirstReadings(station: WeatherStationRefactored, c: Display, s: Display, f: Display, x: Display)
    returns (firstForecast: Line, forecast: DisplayState)
    requires station.Valid() && station.observers == [c, s, f, x]
    requires f.State() == DisplayState(ForecastKind, 0.0, 0.0, 0.0, 0.0, -1.0)
    modifies station, c, s, f, x
    ensures station.Valid() && station.observers == [c, s, f, x]
    ensures firstForecast == Forecast(Improving)
    ensures forecast == f.State() && forecast.lastHumidity == 65.0 && forecast.currentHumidity == 70.0
  {
    firstForecast := MeasureAt(station, 2, 80.0, 65.0);
    var _ := MeasureAt(station, 2, 82.0, 70.0);
    forecast := f.State();
  }

  /** Removes the display at position `k` of a registry without duplicates. */
  method RemoveAt(station: WeatherStationRefactored, k: nat) returns (removed: Display)
    requires station.Valid() && k < |station.observers|
    modifies station
    ensures station.Valid() && removed == old(station.observers[k])
    ensures station.observers == old(station.observers[..k] + station.observers[k + 1..])
  {
    removed := station.observers[k];
    assert removed !in station.observers[..k];
    RemoveFirstAt(station.observers, removed, k);
    var _ := station.RemoveObserver(removed);
  }

  /**
   * The run of `PostObserverMain`: the forecast's first line is a trend (0
   * against 65), not "need more data"; the forecast misses the third reading
   * and the statistics miss the fourth.
   */
  method Example() returns (firstForecast: Line, current: DisplayState, stats: DisplayState, forecast: DisplayState)
    ensures firstForecast == Forecast(Improving)
    ensures current.temperature == 90.0 && current.humidity == 75.0
    ensures stats.lastTemperature == 78.0
    ensures forecast.lastHumidity == 65.0 && forecast.currentHumidity == 70.0
  {
    var station, c, s, f, x := ExampleRegistrations();
    firstForecast, forecast := ExampleFirstReadings(station, c, s, f, x);

    var _ := RemoveAt(station, 2);
    assert station.observers == [c, s, x];
    var _ := MeasureAt(station, 1, 78.0, 68.0);
    stats := s.State();

    var _ := RemoveAt(station, 1);
    assert station.observers == [c, x];
    var _ := MeasureAt(station, 0, 90.0, 75.0);
    current := c.State();
  }
}

/** The `Subject` of the second observer example, with the one observer class it shows. */
module SubjectExample {

  /** One `update` call: the observer and the state it read from its subject. */
  datatype Update = Update(observer: HexObserver, state: int)

  class Subject {
    var state: int
    var observers: seq<HexObserver>

    constructor ()
      ensures state == 0 && observers == []
    {
      state, observers := 0, [];
    }

    /** `attach`: appends, duplicates included. */
    method Attach(o: HexObserver)
      modifies this
      ensures observers == old(observers) + [o] && state == old(state)
    {
      observers := observers + [o];
    }

    /** `notifyAllObservers`: one `update` per attached entry, in attach order; nothing changes. */
    method NotifyAllObservers() returns (updates: seq<Update>)
      ensures updates == Updates(observers)
    {
      updates := [];
      for i := 0 to |observers|
        invariant updates == Updates(observers[..i])
      {
        assert observers[..i + 1][..i] == observers[..i];
        updates := updates + [Update(observers[i], observers[i].subject.state)];
      }
      assert observers[..|observers|] == observers;
    }

    /** `setState`: stores the state first, so each observer reading its subject sees the new value. */
    method SetState(state: int) returns (updates: seq<Update>)
      modifies this
      ensures this.state == state && observers == old(observers)
      ensures updates == Updates(observers)
    {
      this.state := state;
      updates := NotifyAllObservers();
    }
  }

  /** `HexObserver`: attaches itself to its subject when built. */
  class HexObserver {
    const subject: Subject

    constructor (subject: Subject)
      modifies subject
      ensures this.subject == subject
      ensures subject.observers == old(subject.observers) + [this] && subject.state == old(subject.state)
    {
      this.subject := subject;
      new;
      subject.Attach(this);
    }
  }

  /** The `update` calls for a list of attached entries: each reads its own subject's state. */
  function Updates(observers: seq<HexObserver>): (r: seq<Update>)
    reads set o | o in observers :: o.subject
    ensures |r| == |observers|
    ensures forall i :: 0 <= i < |observers| ==> r[i] == Update(observers[i], observers[i].subject.state)
  {
    if observers == [] then [] else Updates(observers[..|observers| - 1]) + [Update(observers[|observers| - 1], observers[|observers| - 1].subject.state)]
  }

  /** The observers of a series of `update` calls, in call order. */
  function Callees(updates: seq<Update>): seq<HexObserver>
  {
    seq(|updates|, i requires 0 <= i < |updates| => updates[i].observer)
  }

  /** Each attached entry is updated once, in order: an observer attached twice is updated twice. */
  lemma UpdatesPerEntry(observers: seq<HexObserver>)
    ensures Callees(Updates(observers)) == observers
    ensures multiset(Callees(Updates(observers))) == multiset(observers)
  {
  }
}
