/**
 * The metric projection: each location's reply becomes fifteen gauges that
 * share one resource and one one-minute window ending at the reported time.
 */
module Metrics {
  import opened Wrappers
  import opened Numbers
  import opened Telemetry
  import opened OpenMeteo
  import opened JavaTime
  import LocationModel

  /** The measurements that become metrics, in the order the projection emits them. */
  const Table: seq<Field> := [
    ApparentTemperature, CloudCover, IsDay, Percipitation, PressureMsl, Rain, RelativeHumidity2m,
    Showers, Snowfall, SurfacePressure, Temperature2m, WeatherCode, WindDirection10m, WindGusts10m,
    WindSpeed10m
  ]

  /** The metric name given to each measurement. */
  function MetricName(f: Field): string {
    match f
    case ApparentTemperature => "apparent_temperature"
    case CloudCover => "cloud_cover"
    case IsDay => "is_day"
    case Percipitation => "precipitation"
    case PressureMsl => "pressure_msl"
    case Rain => "rain"
    case RelativeHumidity2m => "relative_humidity_2m"
    case Showers => "showers"
    case Snowfall => "snowfall"
    case SurfacePressure => "surface_pressure"
    case Temperature2m => "temperature_2m"
    case WeatherCode => "weather_code"
    case WindDirection10m => "wind_direction_10m"
    case WindGusts10m => "wind_gusts_10m"
    case WindSpeed10m => "wind_speed_10m"
    case Time => ""
  }

  /** The unit of each metric (UCUM annotations in braces). */
  function Unit(f: Field): string {
    match f
    case ApparentTemperature => "{Celsius}"
    case CloudCover => "%"
    case IsDay => ""
    case Percipitation => "mm"
    case PressureMsl => "hPa"
    case Rain => "mm"
    case RelativeHumidity2m => "%"
    case Showers => "mm"
    case Snowfall => "cm"
    case SurfacePressure => "hPa"
    case Temperature2m => "{Celsius}"
    case WeatherCode => "{WMO Code}"
    case WindDirection10m => "{Degree}"
    case WindGusts10m => "km/h"
    case WindSpeed10m => "km/h"
    case Time => ""
  }

  /** The metrics created with `createLongGauge`; all others are double gauges. */
  predicate IsLongGauge(f: Field) {
    f == CloudCover || f == IsDay || f == RelativeHumidity2m || f == WeatherCode
  }

  /** A gauge point's value: a long or a double. */
  datatype PointValue = LongValue(n: int) | DoubleValue(d: Double)

  /**
   * `ImmutableMetricData` with a one-point gauge: the resource, the measurement
   * it carries (which fixes name and unit), and the point's window and value.
   */
  datatype MetricData = MetricData(resource: Resource, measure: Field, start: Int64, end: Int64, value: PointValue)

  /** Every metric has instrumentation scope "meteodata" and an empty description. */
  const Scope: string := "meteodata"
  const Description: string := ""

  /** The metric's name and unit, fixed by its measurement. */
  function Name(m: MetricData): string {
    MetricName(m.measure)
  }

  function UnitOf(m: MetricData): string {
    Unit(m.measure)
  }

  /** `MetricDataType.name()` of a gauge. */
  function TypeName(m: MetricData): string {
    if m.value.LongValue? then "LONG_GAUGE" else "DOUBLE_GAUGE"
  }

  /** The window's end: the timestamp itself. */
  function EndEpochNanos(ts: Int64): Int64 {
    ts
  }

  /** The window's start: one minute earlier, in wrapping `long` arithmetic. */
  function StartEpochNanos(ts: Int64): Int64 {
    Wrap64(ts - 60 * 1_000_000_000)
  }

  /** `instant.getEpochSecond() * 1_000_000_000 + instant.getNano()` in wrapping `long` arithmetic. */
  function EpochNanos(i: Instant): Int64 {
    Wrap64(Wrap64(i.epochSecond * 1_000_000_000) + i.nano)
  }

  /** Between the years 1677 and 2262 the nanosecond count is exact. */
  lemma EpochNanosExact(i: Instant)
    requires -9_223_372_036 <= i.epochSecond <= 9_223_372_035 && i.nano < 1_000_000_000
    ensures EpochNanos(i) == i.epochSecond * 1_000_000_000 + i.nano
  {
  }

  /**
   * Every window is one minute long modulo 2^64, and exactly one minute
   * unless the start underflows.
   */
  lemma WindowLength(ts: Int64)
    ensures (EndEpochNanos(ts) - StartEpochNanos(ts)) % TWO_64 == 60_000_000_000
    ensures ts >= -0x8000_0000_0000_0000 + 60_000_000_000 ==>
      EndEpochNanos(ts) - StartEpochNanos(ts) == 60_000_000_000
  {
  }

  /** The point of one measurement: the value of its getter, as a long or a double gauge point. */
  function PointOf(c: Current, f: Field): PointValue {
    match f
    case ApparentTemperature => DoubleValue(c.apparentTemperature)
    case CloudCover => LongValue(c.cloudCover)
    case IsDay => LongValue(c.isDay)
    case Percipitation => DoubleValue(c.percipitation)
    case PressureMsl => DoubleValue(c.pressureMsl)
    case Rain => DoubleValue(c.rain)
    case RelativeHumidity2m => LongValue(c.relativeHumidity2m)
    case Showers => DoubleValue(c.showers)
    case Snowfall => DoubleValue(c.snowfall)
    case SurfacePressure => DoubleValue(c.surfacePressure)
    case Temperature2m => DoubleValue(c.temperature2m)
    case WeatherCode => LongValue(c.weatherCode)
    case WindDirection10m => DoubleValue(c.windDirection10m)
    case WindGusts10m => DoubleValue(c.windGusts10m)
    case WindSpeed10m => DoubleValue(c.windSpeed10m)
    case Time => DoubleValue(c.temperature2m)
  }

  /**
   * Each point carries the value of the getter of its own measurement, and
   * the long gauges are exactly the measurements of integer type.
   */
  lemma PointIsGetterValue(c: Current, f: Field)
    requires f != Time
    ensures PointOf(c, f).LongValue? <==> IsLongGauge(f)
    ensures PointOf(c, f).LongValue? ==> Get(c, f) == WholeValue(PointOf(c, f).n)
    ensures PointOf(c, f).DoubleValue? ==> Get(c, f) == RealValue(PointOf(c, f).d)
  {
  }

  /** The metric of one measurement of one location. */
  function MetricFor(resource: Resource, ts: Int64, c: Current, f: Field): MetricData {
    MetricData(resource, f, StartEpochNanos(ts), EndEpochNanos(ts), PointOf(c, f))
  }

  /** The fifteen metrics `processLocation` returns, in table order. */
  function LocationMetrics(resource: Resource, ts: Int64, c: Current): (r: seq<MetricData>)
    ensures |r| == |Table| == 15
  {
    seq(15, j requires 0 <= j < 15 => MetricFor(resource, ts, c, Table[j]))
  }

  /** Metric j of a location is measurement j of the table, with the location's resource and window. */
  lemma LocationMetricsAt(resource: Resource, ts: Int64, c: Current, j: nat)
    requires j < |Table|
    ensures LocationMetrics(resource, ts, c)[j] == MetricFor(resource, ts, c, Table[j])
  {
  }

  /** `processLocation`: fifteen successive `add` calls. */
  method ProcessLocation(resource: Resource, ts: Int64, c: Current) returns (metricData: seq<MetricData>)
    ensures metricData == LocationMetrics(resource, ts, c)
  {
    metricData := [];
    metricData := metricData + [MetricFor(resource, ts, c, ApparentTemperature)];
    metricData := metricData + [MetricFor(resource, ts, c, CloudCover)];
    metricData := metricData + [MetricFor(resource, ts, c, IsDay)];
    metricData := metricData + [MetricFor(resource, ts, c, Percipitation)];
    metricData := metricData + [MetricFor(resource, ts, c, PressureMsl)];
    metricData := metricData + [MetricFor(resource, ts, c, Rain)];
    metricData := metricData + [MetricFor(resource, ts, c, RelativeHumidity2m)];
    metricData := metricData + [MetricFor(resource, ts, c, Showers)];
    metricData := metricData + [MetricFor(resource, ts, c, Snowfall)];
    metricData := metricData + [MetricFor(resource, ts, c, SurfacePressure)];
    metricData := metricData + [MetricFor(resource, ts, c, Temperature2m)];
    metricData := metricData + [MetricFor(resource, ts, c, WeatherCode)];
    metricData := metricData + [MetricFor(resource, ts, c, WindDirection10m)];
    metricData := metricData + [MetricFor(resource, ts, c, WindGusts10m)];
    metricData := metricData + [MetricFor(resource, ts, c, WindSpeed10m)];
  }

  /** Every measurement but the time stamp has a place in the table. */
  lemma InTable(f: Field)
    requires f != Time
    ensures f in Table
  {
  }

  /** Each metric is named after the JSON member it is read from. */
  lemma MetricNamesAreJsonNames(j: nat)
    requires j < |Table|
    ensures MetricName(Table[j]) == JsonName(Table[j]) && Table[j] != Time
  {
  }

  /** The table holds fifteen different measurements, so no two metrics of a location share a name. */
  lemma MetricNamesDistinct(j: nat, k: nat)
    requires j < |Table| && k < |Table| && j != k
    ensures MetricName(Table[j]) != MetricName(Table[k])
  {
    MetricNamesAreJsonNames(j);
    MetricNamesAreJsonNames(k);
    if JsonName(Table[j]) == JsonName(Table[k]) {
      JsonNamesDistinct(Table[j], Table[k]);
    }
  }

  /** Every variable the request asks for becomes a metric of the same name, and nothing else does. */
  lemma MetricsCoverRequest(n: string)
    ensures n in RequestedVariables <==> exists j :: 0 <= j < |Table| && MetricName(Table[j]) == n
  {
    if n in RequestedVariables {
      RequestedAreMeasurements(Time);
      var f := FieldNamed(n).value;
      InTable(f);
      var j :| 0 <= j < |Table| && Table[j] == f;
      MetricNamesAreJsonNames(j);
      assert MetricName(Table[j]) == n;
    }
    if exists j :: 0 <= j < |Table| && MetricName(Table[j]) == n {
      var j :| 0 <= j < |Table| && MetricName(Table[j]) == n;
      MetricNamesAreJsonNames(j);
      RequestedAreMeasurements(Table[j]);
    }
  }

  /** The resource of one location: its name and coordinates, the reply's elevation, and the SDK name. */
  function LocationResource(l: LocationModel.Location, r: OpenMeteoResponse, sdkName: string): Resource {
    Resource([
      ("location.name", StringAttr(l.name)),
      ("location.latitude", DoubleAttr(l.latitude)),
      ("location.longitude", DoubleAttr(l.longitude)),
      ("location.elevation", DoubleAttr(r.elevation)),
      ("telemetry.sdk.name", StringAttr(sdkName))])
  }

  /** What stops the projection: a reply list shorter than the location list, a null `current`, a bad time. */
  datatype ProjectionError = IndexOutOfBounds | NullCurrent | UnparsableTime

  /** One loop iteration, once the reply exists: the reported time with `":00Z"`, then the fifteen metrics. */
  function ProjectOne(l: LocationModel.Location, r: OpenMeteoResponse, sdkName: string): (m: Result<seq<MetricData>, ProjectionError>)
    ensures m.Ok? <==> r.current.Some? && ParseInstant(r.current.value.time + ":00Z").Some?
    ensures m.Ok? ==> m.value == LocationMetrics(LocationResource(l, r, sdkName),
      EpochNanos(ParseInstant(r.current.value.time + ":00Z").value), r.current.value)
  {
    if r.current.None? then Err(NullCurrent)
    else match ParseInstant(r.current.value.time + ":00Z")
      case None => Err(UnparsableTime)
      case Some(instant) => Ok(LocationMetrics(LocationResource(l, r, sdkName), EpochNanos(instant), r.current.value))
  }

  /** The outcome of one loop iteration as a value. */
  type Attempt = Result<seq<MetricData>, ProjectionError>

  /** Iteration k: reply k must exist (`List.get` throws otherwise), then it is projected. */
  function AttemptAt(locs: seq<LocationModel.Location>, responses: seq<OpenMeteoResponse>, sdkName: string, k: nat): Attempt
    requires k < |locs|
  {
    if k < |responses| then ProjectOne(locs[k], responses[k], sdkName) else Err(IndexOutOfBounds)
  }

  /** Every iteration of the loop, one per location. */
  function Attempts(locs: seq<LocationModel.Location>, responses: seq<OpenMeteoResponse>, sdkName: string): (a: seq<Attempt>)
    ensures |a| == |locs|
    ensures forall k :: 0 <= k < |a| ==> a[k] == AttemptAt(locs, responses, sdkName, k)
  {
    seq(|locs|, k requires 0 <= k < |locs| => AttemptAt(locs, responses, sdkName, k))
  }

  /** Metrics produced so far, put in front of the outcome of the rest of the loop. */
  function Prepend(done: seq<MetricData>, rest: Attempt): Attempt {
    if rest.Ok? then Ok(done + rest.value) else rest
  }

  lemma PrependPrepend(a: seq<MetricData>, b: seq<MetricData>, rest: Attempt)
    ensures Prepend(a, Prepend(b, rest)) == Prepend(a + b, rest)
  {
    if rest.Ok? {
      assert a + (b + rest.value) == (a + b) + rest.value;
    }
  }

  lemma PrependNil(a: seq<MetricData>, rest: Attempt)
    ensures Prepend([], rest) == rest && Prepend(a, Ok([])) == Ok(a)
  {
    if rest.Ok? {
      assert [] + rest.value == rest.value;
    }
    assert a + [] == a;
  }

  /**
   * The loop from iteration `i` on: the metrics of every iteration in order,
   * or the error of the first iteration that throws.
   */
  function Collect(attempts: seq<Attempt>, i: nat): Attempt
    requires i <= |attempts|
    decreases |attempts| - i
  {
    if i == |attempts| then Ok([])
    else match attempts[i]
      case Err(e) => Err(e)
      case Ok(m) => Prepend(m, Collect(attempts, i + 1))
  }

  /** `prepareMetricData`'s loop over all locations. */
  function Project(locs: seq<LocationModel.Location>, responses: seq<OpenMeteoResponse>, sdkName: string): Attempt {
    Collect(Attempts(locs, responses, sdkName), 0)
  }

  /**
   * `prepareMetricData`'s (and `emitMetrics`') index loop: pairs location i
   * with reply i and appends that location's fifteen metrics.
   */
  method PrepareMetricData(locs: seq<LocationModel.Location>, responses: seq<OpenMeteoResponse>, sdkName: string)
    returns (r: Attempt)
    ensures r == Project(locs, responses, sdkName)
  {
    ghost var attempts := Attempts(locs, responses, sdkName);
    var metricData: seq<MetricData> := [];
    var i := 0;
    PrependNil(metricData, Project(locs, responses, sdkName));
    while i < |locs|
      invariant 0 <= i <= |locs|
      invariant Project(locs, responses, sdkName) == Prepend(metricData, Collect(attempts, i))
    {
      if i >= |responses| {
        assert attempts[i] == Err(IndexOutOfBounds);
        return Err(IndexOutOfBounds);
      }
      var location, weatherData := locs[i], responses[i];
      var resource := LocationResource(location, weatherData, sdkName);
      if weatherData.current.None? {
        assert attempts[i] == Err(NullCurrent);
        return Err(NullCurrent);
      }
      var instant := ParseInstant(weatherData.current.value.time + ":00Z");
      if instant.None? {
        assert attempts[i] == Err(UnparsableTime);
        return Err(UnparsableTime);
      }
      var epochNanos := EpochNanos(instant.value);
      var m := ProcessLocation(resource, epochNanos, weatherData.current.value);
      assert attempts[i] == Ok(m);
      PrependPrepend(metricData, m, Collect(attempts, i + 1));
      metricData := metricData + m;
      i := i + 1;
    }
    PrependNil(metricData, Ok([]));
    return Ok(metricData);
  }

  /** The loop from `i` succeeds iff no remaining iteration throws. */
  lemma {:induction false} CollectOkIff(attempts: seq<Attempt>, i: nat)
    requires i <= |attempts|
    ensures Collect(attempts, i).Ok? <==> forall k :: i <= k < |attempts| ==> attempts[k].Ok?
    decreases |attempts| - i
  {
    if i < |attempts| {
      CollectOkIff(attempts, i + 1);
      if Collect(attempts, i).Ok? {
        forall k | i <= k < |attempts|
          ensures attempts[k].Ok?
        {
        }
      }
    }
  }

  /** The error reported is that of the first iteration that throws. */
  lemma {:induction false} CollectFirstError(attempts: seq<Attempt>, i: nat, k: nat)
    requires i <= k < |attempts| && attempts[k].Err?
    requires forall p :: i <= p < k ==> attempts[p].Ok?
    ensures Collect(attempts, i) == Err(attempts[k].error)
    decreases k - i
  {
    if i < k {
      CollectFirstError(attempts, i + 1, k);
    }
  }

  /**
   * When every iteration yields fifteen metrics, metric 15·(k - i) + j of the
   * loop from `i` is metric j of iteration k.
   */
  lemma {:induction false} CollectAt(attempts: seq<Attempt>, i: nat, k: nat, j: nat)
    requires i <= k < |attempts| && j < 15
    requires forall p :: 0 <= p < |attempts| && attempts[p].Ok? ==> |attempts[p].value| == 15
    requires Collect(attempts, i).Ok?
    ensures attempts[k].Ok? && |Collect(attempts, i).value| == 15 * (|attempts| - i)
    ensures Collect(attempts, i).value[15 * (k - i) + j] == attempts[k].value[j]
    decreases k - i
  {
    CollectLength(attempts, i);
    if k > i {
      CollectAt(attempts, i + 1, k, j);
    }
  }

  lemma {:induction false} CollectLength(attempts: seq<Attempt>, i: nat)
    requires i <= |attempts|
    requires forall p :: 0 <= p < |attempts| && attempts[p].Ok? ==> |attempts[p].value| == 15
    requires Collect(attempts, i).Ok?
    ensures |Collect(attempts, i).value| == 15 * (|attempts| - i)
    decreases |attempts| - i
  {
    if i < |attempts| {
      CollectLength(attempts, i + 1);
    }
  }

  /** Location k has its reply, and that reply projects. */
  predicate Projects(locs: seq<LocationModel.Location>, responses: seq<OpenMeteoResponse>, sdkName: string, k: nat)
    requires k < |locs|
  {
    k < |responses| && ProjectOne(locs[k], responses[k], sdkName).Ok?
  }

  /**
   * The projection succeeds iff there is a reply for every location and each
   * reply has a `current` block with a parsable time.
   */
  lemma ProjectOkIff(locs: seq<LocationModel.Location>, responses: seq<OpenMeteoResponse>, sdkName: string)
    ensures Project(locs, responses, sdkName).Ok? <==> forall k :: 0 <= k < |locs| ==> Projects(locs, responses, sdkName, k)
  {
    var attempts := Attempts(locs, responses, sdkName);
    CollectOkIff(attempts, 0);
    assert forall k :: 0 <= k < |locs| ==> (attempts[k].Ok? <==> Projects(locs, responses, sdkName, k));
  }

  /** A reply list shorter than the location list always fails the projection. */
  lemma ShortRepliesFail(locs: seq<LocationModel.Location>, responses: seq<OpenMeteoResponse>, sdkName: string)
    requires |responses| < |locs|
    ensures Project(locs, responses, sdkName).Err?
  {
    ProjectOkIff(locs, responses, sdkName);
    assert !Projects(locs, responses, sdkName, |responses|);
  }

  /** The projection reports the error of the first location that fails. */
  lemma ProjectFirstError(locs: seq<LocationModel.Location>, responses: seq<OpenMeteoResponse>, sdkName: string, k: nat)
    requires k < |locs| && !Projects(locs, responses, sdkName, k)
    requires forall p :: 0 <= p < k ==> Projects(locs, responses, sdkName, p)
    ensures Project(locs, responses, sdkName) == Err(AttemptAt(locs, responses, sdkName, k).error)
  {
    var attempts := Attempts(locs, responses, sdkName);
    assert forall p :: 0 <= p < |locs| ==> (attempts[p].Ok? <==> Projects(locs, responses, sdkName, p));
    CollectFirstError(attempts, 0, k);
  }

  /**
   * Metric 15·k + j of a successful projection is measurement j of location
   * k: location k's resource, the window of reply k's time, reply k's value.
   */
  lemma ProjectAt(locs: seq<LocationModel.Location>, responses: seq<OpenMeteoResponse>, sdkName: string, k: nat, j: nat)
    requires k < |locs| && j < 15 && Project(locs, responses, sdkName).Ok?
    ensures |Project(locs, responses, sdkName).value| == 15 * |locs|
    ensures k < |responses| && responses[k].current.Some?
    ensures ParseInstant(responses[k].current.value.time + ":00Z").Some?
    ensures Project(locs, responses, sdkName).value[15 * k + j]
      == MetricFor(LocationResource(locs[k], responses[k], sdkName),
                   EpochNanos(ParseInstant(responses[k].current.value.time + ":00Z").value),
                   responses[k].current.value, Table[j])
  {
    var attempts := Attempts(locs, responses, sdkName);
    assert forall p :: 0 <= p < |attempts| && attempts[p].Ok? ==> |attempts[p].value| == 15;
    CollectAt(attempts, 0, k, j);
    assert attempts[k] == AttemptAt(locs, responses, sdkName, k);
    var c := responses[k].current.value;
    var ts := EpochNanos(ParseInstant(c.time + ":00Z").value);
    LocationMetricsAt(LocationResource(locs[k], responses[k], sdkName), ts, c, j);
  }
}
