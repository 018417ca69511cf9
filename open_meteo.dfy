/** `OpenMeteoResponse` and its `Current` block: one location's reply from the forecast API. */
module OpenMeteo {
  import opened Wrappers
  import opened Text
  import opened Numbers

  /**
   * The `current` block. Each member keeps the Java field's type; the field for
   * JSON "precipitation" is spelled `percipitation`, as in the source.
   */
  datatype Current = Current(
    time: string,
    temperature2m: Double,
    relativeHumidity2m: Int64,
    apparentTemperature: Double,
    isDay: Int32,
    percipitation: Double,
    rain: Double,
    showers: Double,
    snowfall: Double,
    weatherCode: Int32,
    cloudCover: Int32,
    pressureMsl: Double,
    surfacePressure: Double,
    windSpeed10m: Double,
    windDirection10m: Double,
    windGusts10m: Double)

  /** The reply for one location; a reply without a `current` member has it null. */
  datatype OpenMeteoResponse = OpenMeteoResponse(latitude: Double, longitude: Double, elevation: Double, current: Option<Current>)

  /** The constructor parameters of `Current`, in declaration order. */
  datatype Field =
    | Time | Temperature2m | RelativeHumidity2m | ApparentTemperature | IsDay | Percipitation
    | Rain | Showers | Snowfall | WeatherCode | CloudCover | PressureMsl | SurfacePressure
    | WindSpeed10m | WindDirection10m | WindGusts10m

  /** The `@JsonProperty` name each parameter is bound to. */
  function JsonName(f: Field): string {
    match f
    case Time => "time"
    case Temperature2m => "temperature_2m"
    case RelativeHumidity2m => "relative_humidity_2m"
    case ApparentTemperature => "apparent_temperature"
    case IsDay => "is_day"
    case Percipitation => "precipitation"
    case Rain => "rain"
    case Showers => "showers"
    case Snowfall => "snowfall"
    case WeatherCode => "weather_code"
    case CloudCover => "cloud_cover"
    case PressureMsl => "pressure_msl"
    case SurfacePressure => "surface_pressure"
    case WindSpeed10m => "wind_speed_10m"
    case WindDirection10m => "wind_direction_10m"
    case WindGusts10m => "wind_gusts_10m"
  }

  /** The parameter a JSON member of the block binds to, if any. */
  function FieldNamed(n: string): (r: Option<Field>)
    ensures r.Some? ==> JsonName(r.value) == n
  {
    if n == "time" then Some(Time)
    else if n == "temperature_2m" then Some(Temperature2m)
    else if n == "relative_humidity_2m" then Some(RelativeHumidity2m)
    else if n == "apparent_temperature" then Some(ApparentTemperature)
    else if n == "is_day" then Some(IsDay)
    else if n == "precipitation" then Some(Percipitation)
    else if n == "rain" then Some(Rain)
    else if n == "showers" then Some(Showers)
    else if n == "snowfall" then Some(Snowfall)
    else if n == "weather_code" then Some(WeatherCode)
    else if n == "cloud_cover" then Some(CloudCover)
    else if n == "pressure_msl" then Some(PressureMsl)
    else if n == "surface_pressure" then Some(SurfacePressure)
    else if n == "wind_speed_10m" then Some(WindSpeed10m)
    else if n == "wind_direction_10m" then Some(WindDirection10m)
    else if n == "wind_gusts_10m" then Some(WindGusts10m)
    else None
  }

  /** The binding is one-to-one: every parameter is found again under its JSON name. */
  lemma FieldNamedJsonName(f: Field)
    ensures FieldNamed(JsonName(f)) == Some(f)
  {
    match f
    case Time =>
    case Temperature2m =>
    case RelativeHumidity2m =>
    case ApparentTemperature =>
    case IsDay =>
    case Percipitation =>
    case Rain =>
    case Showers =>
    case Snowfall =>
    case WeatherCode =>
    case CloudCover =>
    case PressureMsl =>
    case SurfacePressure =>
    case WindSpeed10m =>
    case WindDirection10m =>
    case WindGusts10m =>
  }

  /** No two parameters share a JSON name. */
  lemma JsonNamesDistinct(f: Field, g: Field)
    requires JsonName(f) == JsonName(g)
    ensures f == g
  {
    FieldNamedJsonName(f);
    FieldNamedJsonName(g);
  }

  /** A typed value read through a getter: `String`, `int`/`long`, or `double`. */
  datatype Value = TextValue(s: string) | WholeValue(n: int) | RealValue(d: Double)

  /** The getter of each parameter (`getPercipitation` for JSON "precipitation"). */
  function Get(c: Current, f: Field): (v: Value)
    ensures f == Time <==> v.TextValue?
    ensures v.WholeValue? <==> f in {RelativeHumidity2m, IsDay, WeatherCode, CloudCover}
    ensures f == RelativeHumidity2m ==> v == WholeValue(c.relativeHumidity2m)
    ensures f == Percipitation ==> v == RealValue(c.percipitation)
  {
    match f
    case Time => TextValue(c.time)
    case Temperature2m => RealValue(c.temperature2m)
    case RelativeHumidity2m => WholeValue(c.relativeHumidity2m)
    case ApparentTemperature => RealValue(c.apparentTemperature)
    case IsDay => WholeValue(c.isDay)
    case Percipitation => RealValue(c.percipitation)
    case Rain => RealValue(c.rain)
    case Showers => RealValue(c.showers)
    case Snowfall => RealValue(c.snowfall)
    case WeatherCode => WholeValue(c.weatherCode)
    case CloudCover => WholeValue(c.cloudCover)
    case PressureMsl => RealValue(c.pressureMsl)
    case SurfacePressure => RealValue(c.surfacePressure)
    case WindSpeed10m => RealValue(c.windSpeed10m)
    case WindDirection10m => RealValue(c.windDirection10m)
    case WindGusts10m => RealValue(c.windGusts10m)
  }

  /** The variables asked for in the `current` query parameter, in request order, five at a time. */
  const FirstVariables: seq<string> := ["temperature_2m", "relative_humidity_2m", "apparent_temperature", "is_day", "precipitation"]
  const MiddleVariables: seq<string> := ["rain", "showers", "snowfall", "weather_code", "cloud_cover"]
  const LastVariables: seq<string> := ["pressure_msl", "surface_pressure", "wind_speed_10m", "wind_direction_10m", "wind_gusts_10m"]
  const RequestedVariables: seq<string> := FirstVariables + (MiddleVariables + LastVariables)

  /** The `current` query parameter value, a string constant written in pieces. */
  const CurrentQuery: string :=
    ("temperature_2m" + "," + ("relative_humidity_2m" + "," + ("apparent_temperature" + "," + ("is_day" + "," + ("precipitation"))))) + ","
    + (("rain" + "," + ("showers" + "," + ("snowfall" + "," + ("weather_code" + "," + ("cloud_cover"))))) + ","
    + ("pressure_msl" + "," + ("surface_pressure" + "," + ("wind_speed_10m" + "," + ("wind_direction_10m" + "," + ("wind_gusts_10m"))))))

  lemma FirstJoined()
    ensures Join(FirstVariables, ",") == "temperature_2m" + "," + ("relative_humidity_2m" + "," + ("apparent_temperature" + "," + ("is_day" + "," + ("precipitation"))))
  {
  }

  lemma MiddleJoined()
    ensures Join(MiddleVariables, ",") == "rain" + "," + ("showers" + "," + ("snowfall" + "," + ("weather_code" + "," + ("cloud_cover"))))
  {
  }

  lemma LastJoined()
    ensures Join(LastVariables, ",") == "pressure_msl" + "," + ("surface_pressure" + "," + ("wind_speed_10m" + "," + ("wind_direction_10m" + "," + ("wind_gusts_10m"))))
  {
  }

  /** The query parameter is the requested variables joined with commas. */
  lemma CurrentQueryJoined()
    ensures CurrentQuery == Join(RequestedVariables, ",")
  {
    FirstJoined();
    MiddleJoined();
    LastJoined();
    JoinAppend(MiddleVariables, LastVariables, ",");
    JoinAppend(FirstVariables, MiddleVariables + LastVariables, ",");
  }

  /** The query parameter reads back as exactly the requested variables. */
  lemma CurrentQueryVariables()
    ensures Split(CurrentQuery, ',') == RequestedVariables
  {
    CurrentQueryJoined();
    forall i | 0 <= i < |RequestedVariables| ensures ',' !in RequestedVariables[i] { }
    SplitJoin(RequestedVariables, ',');
  }

  /**
   * The request asks for exactly the measurements the block binds: every
   * requested variable has a parameter, and every parameter but `time` is requested.
   */
  lemma RequestedAreMeasurements(f: Field)
    ensures f != Time <==> JsonName(f) in RequestedVariables
    ensures forall n :: n in RequestedVariables ==> FieldNamed(n).Some? && FieldNamed(n) != Some(Time)
  {
  }

  /** `Current.toString()`, with `Double.toString` supplied as `showDouble`. */
  function CurrentToString(c: Current, showDouble: Double -> string): string {
    "Current{time='" + c.time + "'"
      + ", temperature2m=" + showDouble(c.temperature2m)
      + ", apparentTemperature=" + showDouble(c.apparentTemperature)
      + ", isDay=" + IntToString(c.isDay)
      + ", percipitation=" + showDouble(c.percipitation)
      + ", rain=" + showDouble(c.rain)
      + ", showers=" + showDouble(c.showers)
      + ", snowfall=" + showDouble(c.snowfall)
      + ", weatherCode=" + IntToString(c.weatherCode)
      + ", cloudCover=" + IntToString(c.cloudCover)
      + ", pressureMsl=" + showDouble(c.pressureMsl)
      + ", surfacePressure=" + showDouble(c.surfacePressure)
      + ", windSpeed10m=" + showDouble(c.windSpeed10m)
      + ", windDirection10m=" + showDouble(c.windDirection10m)
      + ", windGusts10m=" + showDouble(c.windGusts10m)
      + "}"
  }

  /** The rendering leaves out the relative humidity: blocks differing only there look the same. */
  lemma HumidityNotRendered(c: Current, h: Int64, showDouble: Double -> string)
    ensures CurrentToString(c.(relativeHumidity2m := h), showDouble) == CurrentToString(c, showDouble)
  {
  }

  /** `OpenMeteoResponse.toString()`. */
  function ToString(r: OpenMeteoResponse, showDouble: Double -> string): string {
    "OpenMeteoResponse{latitude=" + showDouble(r.latitude)
      + ", longitude=" + showDouble(r.longitude)
      + ", elevation=" + showDouble(r.elevation)
      + ", current=" + (if r.current.Some? then CurrentToString(r.current.value, showDouble) else "null")
      + "}"
  }

  /** `List.toString()` of a list of replies. */
  function ListText(rs: seq<OpenMeteoResponse>, showDouble: Double -> string): string {
    Text.ListText(rs, r => ToString(r, showDouble))
  }
}
