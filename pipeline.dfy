/**
 * What each stage of the function's reactive pipeline computes, as pure
 * functions: the requests it sends, the `log` calls it makes, the value it
 * passes on (or that it ends the pipeline empty or with an error signal),
 * and the status the whole run reports.
 */
module Pipeline {
  import opened Wrappers
  import opened Text
  import opened Numbers
  import opened Headers
  import opened Http
  import opened Logging
  import opened Telemetry
  import ConfigModel
  import ConfigResponse
  import LocationModel
  import LocationResponse
  import OpenMeteo
  import Metrics

  /** What a stage's `Flux` does: emit one value, complete empty, or signal an error. */
  datatype Outcome<T> = Emit(value: T) | Empty | Error

  /**
   * Values whose `toString` comes from the HTTP client or the OpenTelemetry
   * SDK (or is `Object.toString`); their rendering is supplied as `show`.
   */
  datatype Shown =
    | HeadersShown(headers: Headers)                              // `HttpHeaders.asMap()`
    | RequestShown(request: Request)                              // the `HttpRequest`
    | RequestHeadersShown(request: Request)                       // its `getHeaders().asMap()`
    | StatusShown(status: int)                                    // `HttpStatus`
    | LocationPageShown(page: LocationResponse.LocationResponseWrapper)  // no own `toString`
    | MetricExporterShown(exporter: Exporter)
    | LogExporterShown(exporter: Exporter)
    | ResourceShown(resource: Resource)
    | GaugeShown(metric: Metrics.MetricData)                      // `getData()`
    | LogRecordShown(record: LogRecord)                           // shows the creation time too

  const ConfigPath: string := "v1/objects/meteodata:meteoConfig/meteodata:config"
  const LocationsPath: string := "v1/objects/meteodata:meteoLocation"
  const ForecastUrl: string := "https://api.open-meteo.com/v1/forecast"
  /** The `telemetry.sdk.name` of the locations' resources. */
  const SdkName: string := "SOLUTION_PREFIX"

  // ---------------------------------------------------------------------------
  // Requests
  // ---------------------------------------------------------------------------

  /** A knowledge-store listing: `max=999`, the propagated headers, JSON accepted. */
  function KnowledgeRequest(jsonStoreUrl: string, path: string, h: Headers): Request {
    Request(jsonStoreUrl, path, [("max", "999")], Propagated(h), ApplicationJson)
  }

  function Latitudes(locs: seq<LocationModel.Location>, showDouble: Double -> string): (r: seq<string>)
    ensures |r| == |locs| && forall i :: 0 <= i < |locs| ==> r[i] == showDouble(locs[i].latitude)
  {
    seq(|locs|, i requires 0 <= i < |locs| => showDouble(locs[i].latitude))
  }

  function Longitudes(locs: seq<LocationModel.Location>, showDouble: Double -> string): (r: seq<string>)
    ensures |r| == |locs| && forall i :: 0 <= i < |locs| ==> r[i] == showDouble(locs[i].longitude)
  {
    seq(|locs|, i requires 0 <= i < |locs| => showDouble(locs[i].longitude))
  }

  /** The forecast request: all locations in one batch, coordinates joined with commas; no headers. */
  function WeatherRequest(locs: seq<LocationModel.Location>, showDouble: Double -> string): Request {
    Request(ForecastUrl, "", [
      ("latitude", Join(Latitudes(locs, showDouble), ",")),
      ("longitude", Join(Longitudes(locs, showDouble), ",")),
      ("current", OpenMeteo.CurrentQuery)], [], ApplicationJson)
  }

  /**
   * The batch request can be read back: splitting the coordinate parameters at
   * the commas gives the i-th location's coordinates at position i (as long as
   * no rendered number contains a comma), and it asks for every measurement.
   */
  lemma WeatherRequestReadBack(locs: seq<LocationModel.Location>, showDouble: Double -> string)
    requires |locs| >= 1
    requires forall i :: 0 <= i < |locs| ==> ',' !in showDouble(locs[i].latitude) && ',' !in showDouble(locs[i].longitude)
    ensures Split(WeatherRequest(locs, showDouble).query[0].1, ',') == Latitudes(locs, showDouble)
    ensures Split(WeatherRequest(locs, showDouble).query[1].1, ',') == Longitudes(locs, showDouble)
    ensures Split(WeatherRequest(locs, showDouble).query[2].1, ',') == OpenMeteo.RequestedVariables
  {
    SplitJoin(Latitudes(locs, showDouble), ',');
    SplitJoin(Longitudes(locs, showDouble), ',');
    OpenMeteo.CurrentQueryVariables();
  }

  // ---------------------------------------------------------------------------
  // Log calls shared by the stages
  // ---------------------------------------------------------------------------

  /** A stage's opening call, then the request and its headers. */
  function RequestEntries(show: Shown -> string, stage: string, requestMessage: string, headersMessage: string,
                          req: Request): seq<Entry> {
    [ Entry(DEBUG, stage, []),
      Entry(DEBUG, requestMessage, [("request", show(RequestShown(req)))]),
      Entry(DEBUG, headersMessage, [("headers", show(RequestHeadersShown(req)))]) ]
  }

  function StatusEntry(show: Shown -> string, message: string, status: int): Entry {
    Entry(DEBUG, message, [("status", show(StatusShown(status)))])
  }

  // ---------------------------------------------------------------------------
  // fetchConfig
  // ---------------------------------------------------------------------------

  const ConfigError: Entry := Entry(ERROR, "config response error", [])

  /**
   * The calls after the config exchange: a failed exchange, a missing body
   * (`Map.of` refuses null) and a page without `data` (`Flux.just` refuses
   * null) all end in the error handler's call.
   */
  function ConfigReplyEntries(show: Shown -> string, reply: Exchange<ConfigResponse.ConfigResponseWrapper>): seq<Entry> {
    match reply
    case Failed => [ConfigError]
    case Received(Response(status, None)) => [StatusEntry(show, "config response status", status), ConfigError]
    case Received(Response(status, Some(w))) =>
      [ StatusEntry(show, "config response status", status),
        Entry(DEBUG, "config response body", [("body", ConfigResponse.ToString(w))]) ]
      + (if w.config.None? then [ConfigError] else [])
  }

  function ConfigEntries(show: Shown -> string, req: Request, reply: Exchange<ConfigResponse.ConfigResponseWrapper>): seq<Entry> {
    RequestEntries(show, "fetchConfig", "config request", "config request headers", req) + ConfigReplyEntries(show, reply)
  }

  /** The configuration passed on: only a received page whose `data` decoded to a configuration. */
  function ConfigOutcome(reply: Exchange<ConfigResponse.ConfigResponseWrapper>): (o: Outcome<ConfigModel.Config>)
    ensures !o.Error?
    ensures o.Emit? <==> reply.Received? && reply.response.body.Some? && reply.response.body.value.config.Some?
    ensures o.Emit? ==> o.value == reply.response.body.value.config.value
  {
    match reply
    case Received(Response(_, Some(w))) => if w.config.Some? then Emit(w.config.value) else Empty
    case _ => Empty
  }

  /** The context's configuration afterwards: set from every received page, even one without `data`. */
  function ConfigAfter(before: Option<ConfigModel.Config>, reply: Exchange<ConfigResponse.ConfigResponseWrapper>): Option<ConfigModel.Config> {
    if reply.Received? && reply.response.body.Some? then reply.response.body.value.config else before
  }

  /** A configuration is passed on exactly when the context holds it afterwards. */
  lemma ConfigOutcomeInContext(before: Option<ConfigModel.Config>, reply: Exchange<ConfigResponse.ConfigResponseWrapper>)
    ensures ConfigOutcome(reply).Emit? ==> ConfigAfter(before, reply) == Some(ConfigOutcome(reply).value)
    ensures before.None? ==> (ConfigOutcome(reply).Emit? <==> ConfigAfter(before, reply).Some?)
  {
  }

  /** The error handler's record closes every path that passes nothing on. */
  lemma ConfigErrorLogged(show: Shown -> string, reply: Exchange<ConfigResponse.ConfigResponseWrapper>)
    ensures ConfigOutcome(reply).Empty? <==> ConfigError in ConfigReplyEntries(show, reply)
  {
    match reply
    case Failed =>
    case Received(Response(status, None)) =>
    case Received(Response(status, Some(w))) =>
      var e := ConfigReplyEntries(show, reply);
      assert e[0].level == DEBUG && e[1].level == DEBUG;
      if w.config.Some? {
        assert |e| == 2;
      } else {
        assert e[2] == ConfigError;
      }
  }

  // ---------------------------------------------------------------------------
  // initLogging
  // ---------------------------------------------------------------------------

  /** Logging is enabled by every level but OFF. */
  predicate LoggingEnabled(c: ConfigModel.Config) {
    c.logLevel != ConfigModel.OFF
  }

  // ---------------------------------------------------------------------------
  // fetchLocations
  // ---------------------------------------------------------------------------

  const LocationsError: Entry := Entry(ERROR, "locations response error", [])

  function LocationsReplyEntries(show: Shown -> string, showDouble: Double -> string,
                                 reply: Exchange<LocationResponse.LocationResponseWrapper>): seq<Entry> {
    match reply
    case Failed => [LocationsError]
    case Received(Response(status, None)) => [StatusEntry(show, "locations response status", status), LocationsError]
    case Received(Response(status, Some(page))) =>
      [ StatusEntry(show, "locations response status", status),
        Entry(DEBUG, "locations response body", [("body", show(LocationPageShown(page)))]),
        Entry(INFO, "received locations",
          [("locations", LocationModel.ListText(LocationResponse.Locations(page.items), showDouble))]) ]
  }

  function LocationsEntries(show: Shown -> string, showDouble: Double -> string, req: Request,
                            reply: Exchange<LocationResponse.LocationResponseWrapper>): seq<Entry> {
    RequestEntries(show, "fetchLocations", "locations request", "locations request headers", req) + LocationsReplyEntries(show, showDouble, reply)
  }

  /** The locations passed on: those of a received page, or none at all after any error. */
  function LocationsOutcome(reply: Exchange<LocationResponse.LocationResponseWrapper>): (r: seq<LocationModel.Location>)
    ensures reply.Failed? || reply.response.body.None? ==> r == []
    ensures reply.Received? && reply.response.body.Some? ==>
      |r| == |reply.response.body.value.items|
  {
    match reply
    case Received(Response(_, Some(page))) => LocationResponse.Locations(page.items)
    case _ => []
  }

  /** The context's locations afterwards: set only from a received page. */
  function LocationsAfter(before: Option<seq<LocationModel.Location>>, reply: Exchange<LocationResponse.LocationResponseWrapper>)
    : (r: Option<seq<LocationModel.Location>>)
    ensures reply.Received? && reply.response.body.Some? ==> r == Some(LocationsOutcome(reply))
    ensures !(reply.Received? && reply.response.body.Some?) ==> r == before
  {
    match reply
    case Received(Response(_, Some(page))) => Some(LocationResponse.Locations(page.items))
    case _ => before
  }

  // ---------------------------------------------------------------------------
  // fetchOpenMeteoData
  // ---------------------------------------------------------------------------

  /**
   * The single-location reply reshaped into a list (`body(List.of(body))`):
   * a missing body makes `List.of` throw, which turns the reply into an error signal.
   */
  function AsList(single: Exchange<OpenMeteo.OpenMeteoResponse>): (r: Exchange<seq<OpenMeteo.OpenMeteoResponse>>)
    ensures Retrieve(r).Some? <==> Retrieve(single).Some?
    ensures Retrieve(r).Some? ==> Retrieve(r).value == [Retrieve(single).value]
    ensures r.Received? ==> r.response.body.Some?
  {
    match single
    case Received(Response(status, Some(body))) => Received(Response(status, Some([body])))
    case _ => Failed
  }

  /**
   * The calls in the `flatMap` over a list reply: status, body and received
   * data; a reply without a body fails (in `Map.of`) after the status call.
   */
  function ListReplyEntries(show: Shown -> string, showDouble: Double -> string,
                            reply: Exchange<seq<OpenMeteo.OpenMeteoResponse>>): seq<Entry> {
    match reply
    case Failed => []
    case Received(Response(status, None)) => [StatusEntry(show, "open meteo response status", status)]
    case Received(Response(status, Some(rs))) =>
      [ StatusEntry(show, "open meteo response status", status),
        Entry(DEBUG, "open meteo response body", [("body", OpenMeteo.ListText(rs, showDouble))]),
        Entry(INFO, "received open meteo data", [("locations", OpenMeteo.ListText(rs, showDouble))]) ]
  }

  /**
   * The list reply the stage works on: none without locations, the single
   * reply (as a list) for one location, the batch reply for more.
   */
  function ListReply(n: nat, single: Exchange<OpenMeteo.OpenMeteoResponse>,
                     batch: Exchange<seq<OpenMeteo.OpenMeteoResponse>>): Exchange<seq<OpenMeteo.OpenMeteoResponse>>
    requires n > 0
  {
    if n == 1 then AsList(single) else batch
  }

  function WeatherEntries(show: Shown -> string, showDouble: Double -> string, locs: seq<LocationModel.Location>,
                          single: Exchange<OpenMeteo.OpenMeteoResponse>,
                          batch: Exchange<seq<OpenMeteo.OpenMeteoResponse>>): seq<Entry> {
    RequestEntries(show, "fetchOpenMeteoData", "open meteo request", "open meteo request headers", WeatherRequest(locs, showDouble))
    + (if |locs| == 0 then [] else ListReplyEntries(show, showDouble, ListReply(|locs|, single, batch)))
  }

  /**
   * The replies passed on: none are asked for without locations; one location
   * uses the single-reply call, wrapped in a list; more use the batch call.
   * A failed exchange or a missing body is an error either way.
   */
  function WeatherOutcome(n: nat, single: Exchange<OpenMeteo.OpenMeteoResponse>,
                          batch: Exchange<seq<OpenMeteo.OpenMeteoResponse>>): (o: Outcome<seq<OpenMeteo.OpenMeteoResponse>>)
    ensures n == 0 <==> o.Empty?
    ensures n == 1 && o.Emit? ==> Retrieve(single).Some? && o.value == [Retrieve(single).value]
    ensures n == 1 ==> (o.Error? <==> Retrieve(single).None?)
    ensures n > 1 ==> (o.Error? <==> Retrieve(batch).None?)
    ensures n > 1 && o.Emit? ==> Retrieve(batch).Some? && o.value == Retrieve(batch).value
  {
    if n == 0 then Empty
    else
      var reply := ListReply(n, single, batch);
      if Retrieve(reply).Some? then Emit(Retrieve(reply).value) else Error
  }

  // ---------------------------------------------------------------------------
  // prepareMetricData
  // ---------------------------------------------------------------------------

  const PrepareEntries: seq<Entry> := [Entry(DEBUG, "prepareMetricData", []), Entry(DEBUG, "generating metric data", [])]

  /** The metrics passed on: the projection of the context's locations; no locations at all is an error. */
  function PrepareOutcome(locations: Option<seq<LocationModel.Location>>, responses: seq<OpenMeteo.OpenMeteoResponse>)
    : (o: Outcome<seq<Metrics.MetricData>>)
    ensures !o.Empty?
    ensures o.Emit? <==> locations.Some? && Metrics.Project(locations.value, responses, SdkName).Ok?
    ensures o.Emit? ==> o.value == Metrics.Project(locations.value, responses, SdkName).value
  {
    if locations.None? then Error
    else match Metrics.Project(locations.value, responses, SdkName)
      case Ok(md) => Emit(md)
      case Err(_) => Error
  }

  // ---------------------------------------------------------------------------
  // exportMetricData
  // ---------------------------------------------------------------------------

  function ResourceEntry(show: Shown -> string, r: Resource): Entry {
    Entry(DEBUG, "", [("resource", show(ResourceShown(r)))])
  }

  function GaugeEntry(show: Shown -> string, m: Metrics.MetricData): Entry {
    Entry(DEBUG, "", [
      ("metric", Metrics.Name(m)), ("type", Metrics.TypeName(m)),
      ("unit", Metrics.UnitOf(m)), ("data", show(GaugeShown(m)))])
  }

  /** The call for one exported metric, preceded by its resource when that differs from the previous metric's. */
  function MetricEntry(show: Shown -> string, md: seq<Metrics.MetricData>, i: nat): seq<Entry>
    requires i < |md|
  {
    (if i == 0 || md[i - 1].resource != md[i].resource then [ResourceEntry(show, md[i].resource)] else [])
    + [GaugeEntry(show, md[i])]
  }

  /** The calls for the first `n` exported metrics. */
  function MetricEntries(show: Shown -> string, md: seq<Metrics.MetricData>, n: nat): (r: seq<Entry>)
    requires n <= |md|
    ensures n <= |r| <= 2 * n
  {
    if n == 0 then [] else MetricEntries(show, md, n - 1) + MetricEntry(show, md, n - 1)
  }

  /** All metrics sharing one resource log it once, before the first of them. */
  lemma {:induction false} MetricEntriesOneResource(show: Shown -> string, md: seq<Metrics.MetricData>, n: nat)
    requires 1 <= n <= |md|
    requires forall i :: 0 <= i < n ==> md[i].resource == md[0].resource
    ensures |MetricEntries(show, md, n)| == n + 1
    ensures MetricEntries(show, md, n)[0] == ResourceEntry(show, md[0].resource)
  {
    if n > 1 {
      MetricEntriesOneResource(show, md, n - 1);
    }
  }

  /** The calls after an accepted metric export. */
  function ExportedDataEntries(show: Shown -> string, md: seq<Metrics.MetricData>): seq<Entry> {
    [Entry(DEBUG, "exported data --- start", [])] + MetricEntries(show, md, |md|) + [Entry(DEBUG, "exported data --- end", [])]
  }

  function MetricExportOpening(show: Shown -> string, e: Exporter, md: seq<Metrics.MetricData>): seq<Entry> {
    [ Entry(DEBUG, "exportMetricData", []),
      Entry(DEBUG, "exporting metric data", []),
      Entry(DEBUG, "metrics export", [("exporter", show(MetricExporterShown(e))), ("metrics.count", IntToString(|md|))]) ]
  }

  /** The calls after the export: its failure message (a null message makes `Map.of` throw first), or the exported data. */
  function MetricReplyEntries(show: Shown -> string, md: seq<Metrics.MetricData>, reply: ExportReply): seq<Entry> {
    match reply
    case Throws(Some(message)) => [Entry(DEBUG, "error exporting data", [("message", message)])]
    case Throws(None) => []
    case Accepted => ExportedDataEntries(show, md)
  }

  function MetricExportEntries(show: Shown -> string, e: Exporter, md: seq<Metrics.MetricData>, reply: ExportReply): seq<Entry> {
    MetricExportOpening(show, e, md) + MetricReplyEntries(show, md, reply)
  }

  /** The metric export passes "ok" on when the exporter takes the batch and rethrows otherwise. */
  function MetricExportOutcome(reply: ExportReply): (o: Outcome<string>)
    ensures o.Emit? <==> reply.Accepted?
    ensures !o.Empty?
  {
    if reply.Accepted? then Emit("ok") else Error
  }

  // ---------------------------------------------------------------------------
  // exportLogs
  // ---------------------------------------------------------------------------

  function ExportedLogEntries(show: Shown -> string, batch: seq<LogRecord>): (r: seq<Entry>)
    ensures |r| == |batch|
    ensures forall i :: 0 <= i < |batch| ==> r[i] == Entry(DEBUG, "exported log message", [("log", show(LogRecordShown(batch[i])))])
  {
    seq(|batch|, i requires 0 <= i < |batch| => Entry(DEBUG, "exported log message", [("log", show(LogRecordShown(batch[i])))]))
  }

  /** The calls after the buffer snapshot: the export, one call per exported record, and a failure call. */
  function LogExportEntries(show: Shown -> string, e: Exporter, batch: seq<LogRecord>, reply: ExportReply): seq<Entry> {
    [Entry(DEBUG, "logs export", [("exporter", show(LogExporterShown(e))), ("log.count", IntToString(|batch|))])]
    + ExportedLogEntries(show, batch)
    + (if reply.Accepted? then [] else [Entry(ERROR, "export logs error", [])])
  }

  /**
   * The log export's value: "error" without an exporter or when the export
   * throws; a missing configuration is an error signal.
   */
  function LogExportOutcome(exporter: Option<Exporter>, config: Option<ConfigModel.Config>, reply: ExportReply): (o: Outcome<string>)
    ensures !o.Empty?
    ensures o == Emit("ok") <==> exporter.Some? && config.Some? && reply.Accepted?
    ensures o.Error? <==> exporter.Some? && config.None?
  {
    if exporter.None? then Emit("error")
    else if config.None? then Error
    else if reply.Accepted? then Emit("ok")
    else Emit("error")
  }

  // ---------------------------------------------------------------------------
  // The whole run
  // ---------------------------------------------------------------------------

  /** The forecast, metric and export outcomes once the locations are known. */
  function AfterLocations(locs: seq<LocationModel.Location>, single: Exchange<OpenMeteo.OpenMeteoResponse>,
                          batch: Exchange<seq<OpenMeteo.OpenMeteoResponse>>, metricReply: ExportReply): Option<string> {
    match WeatherOutcome(|locs|, single, batch)
    case Empty => None
    case Error => Some("error")
    case Emit(rs) =>
      match PrepareOutcome(Some(locs), rs)
      case Error => Some("error")
      case Empty => None
      case Emit(_) => if MetricExportOutcome(metricReply).Emit? then Some("ok") else Some("error")
  }

  /**
   * The value `reportMeteoData` emits: nothing when the configuration or the
   * locations are missing, "ok" when the metrics are exported, "error" when
   * a later stage signals an error. Whether the log export succeeds does not
   * matter.
   */
  function RunStatus(configReply: Exchange<ConfigResponse.RawConfigResponse>,
                     locationsReply: Exchange<LocationResponse.LocationResponseWrapper>,
                     single: Exchange<OpenMeteo.OpenMeteoResponse>,
                     batch: Exchange<seq<OpenMeteo.OpenMeteoResponse>>,
                     metricReply: ExportReply): Option<string> {
    if !ConfigOutcome(DecodeConfigExchange(configReply)).Emit? then None
    else AfterLocations(LocationsOutcome(locationsReply), single, batch, metricReply)
  }

  /** The metrics the run exports, when it gets that far. */
  function RunMetrics(locs: seq<LocationModel.Location>, single: Exchange<OpenMeteo.OpenMeteoResponse>,
                      batch: Exchange<seq<OpenMeteo.OpenMeteoResponse>>): seq<Metrics.MetricData> {
    var w := WeatherOutcome(|locs|, single, batch);
    if w.Emit? && PrepareOutcome(Some(locs), w.value).Emit? then PrepareOutcome(Some(locs), w.value).value else []
  }

  /** A configuration that is missing, undecodable or without `data` ends the run without a value. */
  lemma ConfigFailureEndsEmpty(configReply: Exchange<ConfigResponse.RawConfigResponse>,
                               locationsReply: Exchange<LocationResponse.LocationResponseWrapper>,
                               single: Exchange<OpenMeteo.OpenMeteoResponse>,
                               batch: Exchange<seq<OpenMeteo.OpenMeteoResponse>>, metricReply: ExportReply)
    requires Retrieve(DecodeConfigExchange(configReply)).None? || Retrieve(DecodeConfigExchange(configReply)).value.config.None?
    ensures RunStatus(configReply, locationsReply, single, batch, metricReply) == None
  {
  }

  /** A failed location listing, or an empty one, ends the run without a value and without a forecast request. */
  lemma NoLocationsEndsEmpty(configReply: Exchange<ConfigResponse.RawConfigResponse>,
                             locationsReply: Exchange<LocationResponse.LocationResponseWrapper>,
                             single: Exchange<OpenMeteo.OpenMeteoResponse>,
                             batch: Exchange<seq<OpenMeteo.OpenMeteoResponse>>, metricReply: ExportReply)
    requires LocationsOutcome(locationsReply) == []
    ensures RunStatus(configReply, locationsReply, single, batch, metricReply) == None
  {
  }

  /**
   * With a configuration and at least one location the run always reports a
   * status, and it is "ok" exactly when the forecast arrives, projects and is
   * exported.
   */
  lemma RunOkIff(configReply: Exchange<ConfigResponse.RawConfigResponse>,
                 locationsReply: Exchange<LocationResponse.LocationResponseWrapper>,
                 single: Exchange<OpenMeteo.OpenMeteoResponse>,
                 batch: Exchange<seq<OpenMeteo.OpenMeteoResponse>>, metricReply: ExportReply)
    requires ConfigOutcome(DecodeConfigExchange(configReply)).Emit?
    requires LocationsOutcome(locationsReply) != []
    ensures RunStatus(configReply, locationsReply, single, batch, metricReply).Some?
    ensures var locs := LocationsOutcome(locationsReply);
      var w := WeatherOutcome(|locs|, single, batch);
      RunStatus(configReply, locationsReply, single, batch, metricReply) == Some("ok")
      <==> w.Emit? && Metrics.Project(locs, w.value, SdkName).Ok? && metricReply.Accepted?
  {
  }

  /** More locations than forecasts is an error, whatever else happens. */
  lemma ShortForecastIsError(configReply: Exchange<ConfigResponse.RawConfigResponse>,
                             locationsReply: Exchange<LocationResponse.LocationResponseWrapper>,
                             single: Exchange<OpenMeteo.OpenMeteoResponse>,
                             batch: Exchange<seq<OpenMeteo.OpenMeteoResponse>>, metricReply: ExportReply)
    requires ConfigOutcome(DecodeConfigExchange(configReply)).Emit?
    requires |LocationsOutcome(locationsReply)| > 1 && Retrieve(batch).Some?
    requires |Retrieve(batch).value| < |LocationsOutcome(locationsReply)|
    ensures RunStatus(configReply, locationsReply, single, batch, metricReply) == Some("error")
  {
    Metrics.ShortRepliesFail(LocationsOutcome(locationsReply), Retrieve(batch).value, SdkName);
  }
  /** The requests a run sends, in order: the configuration, then the locations, then one forecast batch. */
  function RunRequests(jsonStoreUrl: string, h: Headers, showDouble: Double -> string,
                       configReply: Exchange<ConfigResponse.RawConfigResponse>,
                       locationsReply: Exchange<LocationResponse.LocationResponseWrapper>): (r: seq<Request>)
    ensures 1 <= |r| <= 3
    ensures r[0] == KnowledgeRequest(jsonStoreUrl, ConfigPath, h)
  {
    var locs := LocationsOutcome(locationsReply);
    [KnowledgeRequest(jsonStoreUrl, ConfigPath, h)]
    + (if !ConfigOutcome(DecodeConfigExchange(configReply)).Emit? then []
       else [KnowledgeRequest(jsonStoreUrl, LocationsPath, h)] + (if locs == [] then [] else [WeatherRequest(locs, showDouble)]))
  }

  /**
   * The trigger's headers go to the knowledge store only: every request to
   * it carries exactly the propagated headers, and the forecast request none.
   */
  lemma HeadersStayInside(jsonStoreUrl: string, h: Headers, showDouble: Double -> string,
                          configReply: Exchange<ConfigResponse.RawConfigResponse>,
                          locationsReply: Exchange<LocationResponse.LocationResponseWrapper>)
    requires jsonStoreUrl != ForecastUrl
    ensures forall r :: r in RunRequests(jsonStoreUrl, h, showDouble, configReply, locationsReply) ==>
      if r.base == ForecastUrl then r.headers == []
      else r.base == jsonStoreUrl && r.headers == Propagated(h) && r.query == [("max", "999")]
  {
  }
}
