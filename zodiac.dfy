/**
 * `MeteoZodiacFunction`: the cron-triggered function that reads its
 * configuration and locations from the knowledge store, fetches the current
 * weather for all locations in one batch, turns it into OpenTelemetry gauges,
 * exports them, and, when the configuration enables logging, exports the log
 * records the run buffered in its request context.
 */
module Zodiac {
  import opened Wrappers
  import opened Text
  import opened Numbers
  import opened Headers
  import opened Http
  import opened Logging
  import opened Telemetry
  import opened Pipeline
  import opened Context
  import ConfigModel
  import ConfigResponse
  import LocationModel
  import LocationResponse
  import OpenMeteo
  import Metrics

  /** Concatenation is associative (used to gather consecutive `log` calls). */
  lemma Assoc<T>(a: seq<T>, b: seq<T>, c: seq<T>)
    ensures (a + b) + c == a + (b + c)
  {
  }

  /** One more run of `log` calls after those already buffered. */
  lemma Appended(l0: seq<LogRecord>, exporter: Option<Exporter>, resource: Option<Resource>,
                 done: seq<Entry>, next: seq<Entry>, logs: seq<LogRecord>)
    requires logs == l0 + Buffered(exporter, resource, done) + Buffered(exporter, resource, next)
    ensures logs == l0 + Buffered(exporter, resource, done + next)
  {
    BufferedAppend(exporter, resource, done, next);
    Assoc(l0, Buffered(exporter, resource, done), Buffered(exporter, resource, next));
  }

  class MeteoZodiacFunction {
    const client: HttpClient
    const ingestion: Ingestion
    const context: MeteoContext
    /** `meteo-zodiac.json-store-url`. */
    const jsonStoreUrl: string
    /** `meteo-zodiac.cis-url`. */
    const cisUrl: string
    /** `toString` of the HTTP and OpenTelemetry values put into log calls. */
    const show: Shown -> string
    /** `Double.toString`. */
    const showDouble: Double -> string

    constructor (client: HttpClient, ingestion: Ingestion, context: MeteoContext, jsonStoreUrl: string, cisUrl: string,
                 show: Shown -> string, showDouble: Double -> string)
      ensures this.client == client && this.ingestion == ingestion && this.context == context
      ensures this.jsonStoreUrl == jsonStoreUrl && this.cisUrl == cisUrl
      ensures this.show == show && this.showDouble == showDouble
    {
      this.client := client;
      this.ingestion := ingestion;
      this.context := context;
      this.jsonStoreUrl := jsonStoreUrl;
      this.cisUrl := cisUrl;
      this.show := show;
      this.showDouble := showDouble;
    }

    /** `log(level, message, content, exception)`: a record joins the buffer only while a log record exporter is set. */
    method Log(e: Entry)
      modifies context`logs
      ensures context.logs == old(context.logs) + Buffered(context.logRecordExporter, context.logResource, [e])
    {
      if context.logRecordExporter.Some? {
        context.AddLogRecord(Record(context.logResource, e.level, e.message, e.content));
      }
    }

    /** The `HttpRequest.GET` of a knowledge-store listing, its headers added by `addPropagatedHeaders`. */
    method KnowledgeGet(path: string) returns (req: Request)
      requires context.headers.Some?
      ensures req == KnowledgeRequest(jsonStoreUrl, path, context.headers.value)
    {
      var entries := new HeaderSink();
      AddPropagatedHeaders(entries, context.headers.value);
      assert [] + Propagated(context.headers.value) == Propagated(context.headers.value);
      req := Request(jsonStoreUrl, path, [("max", "999")], entries.entries, ApplicationJson);
    }

    /** The opening call of a stage that sends a request, then the request and its headers. */
    method LogRequest(stage: string, requestMessage: string, headersMessage: string, req: Request)
      modifies context`logs
      ensures context.logs == old(context.logs)
        + Buffered(context.logRecordExporter, context.logResource, RequestEntries(show, stage, requestMessage, headersMessage, req))
    {
      ghost var l0, ex, res := context.logs, context.logRecordExporter, context.logResource;
      var e0, e1, e2 := Entry(DEBUG, stage, []),
        Entry(DEBUG, requestMessage, [("request", show(RequestShown(req)))]),
        Entry(DEBUG, headersMessage, [("headers", show(RequestHeadersShown(req)))]);
      Log(e0);
      Log(e1);
      Appended(l0, ex, res, [e0], [e1], context.logs);
      Log(e2);
      Appended(l0, ex, res, [e0, e1], [e2], context.logs);
      assert [e0, e1] + [e2] == RequestEntries(show, stage, requestMessage, headersMessage, req);
    }

    /** The `flatMap` over the config reply and its `onErrorResume`. */
    method OnConfigReply(reply: Exchange<ConfigResponse.ConfigResponseWrapper>) returns (o: Outcome<ConfigModel.Config>)
      modifies context`logs, context`config
      ensures o == ConfigOutcome(reply)
      ensures context.config == ConfigAfter(old(context.config), reply)
      ensures context.logs == old(context.logs) + Buffered(context.logRecordExporter, context.logResource, ConfigReplyEntries(show, reply))
    {
      ghost var l0, ex, res := context.logs, context.logRecordExporter, context.logResource;
      match reply {
        case Failed =>
          Log(ConfigError);
          o := Empty;
        case Received(Response(status, body)) =>
          var statusEntry := StatusEntry(show, "config response status", status);
          Log(statusEntry);
          if body.None? {
            Log(ConfigError);
            Appended(l0, ex, res, [statusEntry], [ConfigError], context.logs);
            o := Empty;
          } else {
            o := OnConfigPage(body.value);
            ghost var pageEntries := [Entry(DEBUG, "config response body", [("body", ConfigResponse.ToString(body.value))])]
              + (if body.value.config.None? then [ConfigError] else []);
            Appended(l0, ex, res, [statusEntry], pageEntries, context.logs);
            assert [statusEntry] + pageEntries == ConfigReplyEntries(show, reply);
          }
      }
    }

    /** The config page of a received reply: logged, its configuration kept in the context and passed on. */
    method OnConfigPage(page: ConfigResponse.ConfigResponseWrapper) returns (o: Outcome<ConfigModel.Config>)
      modifies context`logs, context`config
      ensures o == (if page.config.Some? then Emit(page.config.value) else Empty)
      ensures context.config == page.config
      ensures context.logs == old(context.logs) + Buffered(context.logRecordExporter, context.logResource,
        [Entry(DEBUG, "config response body", [("body", ConfigResponse.ToString(page))])]
        + (if page.config.None? then [ConfigError] else []))
    {
      ghost var l0, ex, res := context.logs, context.logRecordExporter, context.logResource;
      var bodyEntry := Entry(DEBUG, "config response body", [("body", ConfigResponse.ToString(page))]);
      Log(bodyEntry);
      context.SetConfig(page.config);
      if page.config.None? {
        Log(ConfigError);
        Appended(l0, ex, res, [bodyEntry], [ConfigError], context.logs);
        o := Empty;
      } else {
        assert [bodyEntry] + [] == [bodyEntry];
        o := Emit(page.config.value);
      }
    }

    /** `fetchConfig`. */
    method FetchConfig() returns (o: Outcome<ConfigModel.Config>)
      requires context.headers.Some?
      modifies context`logs, context`config, client`issued
      ensures client.issued == old(client.issued) + [KnowledgeRequest(jsonStoreUrl, ConfigPath, context.headers.value)]
      ensures o == ConfigOutcome(DecodeConfigExchange(client.configReply))
      ensures context.config == ConfigAfter(old(context.config), DecodeConfigExchange(client.configReply))
      ensures context.logRecordExporter.None? ==> context.logs == old(context.logs)
      ensures context.logRecordExporter.Some? ==> context.logs == old(context.logs) + Buffered(context.logRecordExporter, context.logResource,
        ConfigEntries(show, KnowledgeRequest(jsonStoreUrl, ConfigPath, context.headers.value), DecodeConfigExchange(client.configReply)))
    {
      ghost var l0, ex, res := context.logs, context.logRecordExporter, context.logResource;
      var req := KnowledgeGet(ConfigPath);
      LogRequest("fetchConfig", "config request", "config request headers", req);
      var reply := client.ExchangeConfig(req);
      o := OnConfigReply(reply);
      Appended(l0, ex, res, RequestEntries(show, "fetchConfig", "config request", "config request headers", req),
        ConfigReplyEntries(show, reply), context.logs);
    }
    /** `initLogging`: every level but OFF sets the log record exporter and the log resource. */
    method InitLogging(config: ConfigModel.Config) returns (o: Outcome<string>)
      requires context.headers.Some?
      modifies context`logs, context`logRecordExporter, context`logResource
      ensures o == Emit("ok")
      ensures context.logs == old(context.logs)
        + Buffered(old(context.logRecordExporter), old(context.logResource), [Entry(DEBUG, "initLogging", [])])
      ensures LoggingEnabled(config) ==>
        context.logRecordExporter == Some(ExporterFor(context.headers.value, cisUrl)) && context.logResource == Some(LogResource)
      ensures !LoggingEnabled(config) ==>
        context.logRecordExporter == old(context.logRecordExporter) && context.logResource == old(context.logResource)
    {
      Log(Entry(DEBUG, "initLogging", []));
      ghost var logged := context.logs;
      if config.logLevel != ConfigModel.OFF {
        var exporter := BuildExporter(context.headers.value, cisUrl);
        context.SetLogRecordExporter(exporter);
        var resource := LogResource;
        context.SetLogResource(resource);
      }
      assert context.logs == logged;
      o := Emit("ok");
    }

    /** The `flatMap` over the locations reply and its `onErrorResume`. */
    method OnLocationsReply(reply: Exchange<LocationResponse.LocationResponseWrapper>) returns (locs: seq<LocationModel.Location>)
      modifies context`logs, context`locations
      ensures locs == LocationsOutcome(reply)
      ensures context.locations == LocationsAfter(old(context.locations), reply)
      ensures context.logs == old(context.logs)
        + Buffered(context.logRecordExporter, context.logResource, LocationsReplyEntries(show, showDouble, reply))
    {
      ghost var l0, ex, res := context.logs, context.logRecordExporter, context.logResource;
      match reply {
        case Failed =>
          Log(LocationsError);
          locs := [];
        case Received(Response(status, body)) =>
          var statusEntry := StatusEntry(show, "locations response status", status);
          Log(statusEntry);
          if body.None? {
            Log(LocationsError);
            Appended(l0, ex, res, [statusEntry], [LocationsError], context.logs);
            locs := [];
          } else {
            locs := OnLocationsPage(body.value);
            ghost var pageEntries := [ Entry(DEBUG, "locations response body", [("body", show(LocationPageShown(body.value)))]),
              Entry(INFO, "received locations", [("locations", LocationModel.ListText(locs, showDouble))]) ];
            Appended(l0, ex, res, [statusEntry], pageEntries, context.logs);
            assert [statusEntry] + pageEntries == LocationsReplyEntries(show, showDouble, reply);
          }
      }
    }

    /** The locations page of a received reply: logged, kept in the context, and passed on. */
    method OnLocationsPage(page: LocationResponse.LocationResponseWrapper) returns (locs: seq<LocationModel.Location>)
      modifies context`logs, context`locations
      ensures locs == LocationResponse.Locations(page.items)
      ensures context.locations == Some(locs)
      ensures context.logs == old(context.logs) + Buffered(context.logRecordExporter, context.logResource,
        [ Entry(DEBUG, "locations response body", [("body", show(LocationPageShown(page)))]),
          Entry(INFO, "received locations", [("locations", LocationModel.ListText(locs, showDouble))]) ])
    {
      ghost var l0, ex, res := context.logs, context.logRecordExporter, context.logResource;
      var bodyEntry := Entry(DEBUG, "locations response body", [("body", show(LocationPageShown(page)))]);
      Log(bodyEntry);
      context.SetLocations(LocationResponse.Locations(page.items));
      locs := context.locations.value;
      var receivedEntry := Entry(INFO, "received locations", [("locations", LocationModel.ListText(locs, showDouble))]);
      Log(receivedEntry);
      Appended(l0, ex, res, [bodyEntry], [receivedEntry], context.logs);
    }

    /** `fetchLocations`: the locations objects of the knowledge store, or none after any error. */
    method FetchLocations() returns (locs: seq<LocationModel.Location>)
      requires context.headers.Some?
      modifies context`logs, context`locations, client`issued
      ensures client.issued == old(client.issued) + [KnowledgeRequest(jsonStoreUrl, LocationsPath, context.headers.value)]
      ensures locs == LocationsOutcome(client.locationsReply)
      ensures context.locations == LocationsAfter(old(context.locations), client.locationsReply)
      ensures context.logRecordExporter.None? ==> context.logs == old(context.logs)
      ensures context.logRecordExporter.Some? ==> context.logs == old(context.logs) + Buffered(context.logRecordExporter, context.logResource,
        LocationsEntries(show, showDouble, KnowledgeRequest(jsonStoreUrl, LocationsPath, context.headers.value), client.locationsReply))
    {
      ghost var l0, ex, res := context.logs, context.logRecordExporter, context.logResource;
      var req := KnowledgeGet(LocationsPath);
      LogRequest("fetchLocations", "locations request", "locations request headers", req);
      var reply := client.ExchangeLocations(req);
      locs := OnLocationsReply(reply);
      Appended(l0, ex, res, RequestEntries(show, "fetchLocations", "locations request", "locations request headers", req),
        LocationsReplyEntries(show, showDouble, reply), context.logs);
    }

    /** The inner `flatMap` over a list reply of the forecast API. */
    method OnWeatherReply(reply: Exchange<seq<OpenMeteo.OpenMeteoResponse>>) returns (o: Outcome<seq<OpenMeteo.OpenMeteoResponse>>)
      modifies context`logs
      ensures o == (if Retrieve(reply).Some? then Emit(Retrieve(reply).value) else Error)
      ensures context.logs == old(context.logs)
        + Buffered(context.logRecordExporter, context.logResource, ListReplyEntries(show, showDouble, reply))
    {
      ghost var l0, ex, res := context.logs, context.logRecordExporter, context.logResource;
      match reply {
        case Failed =>
          assert l0 + [] == l0;
          o := Error;
        case Received(Response(status, body)) =>
          var statusEntry := StatusEntry(show, "open meteo response status", status);
          Log(statusEntry);
          if body.None? {
            o := Error;
          } else {
            var bodyEntry := Entry(DEBUG, "open meteo response body", [("body", OpenMeteo.ListText(body.value, showDouble))]);
            Log(bodyEntry);
            Appended(l0, ex, res, [statusEntry], [bodyEntry], context.logs);
            var receivedEntry := Entry(INFO, "received open meteo data", [("locations", OpenMeteo.ListText(body.value, showDouble))]);
            Log(receivedEntry);
            Appended(l0, ex, res, [statusEntry, bodyEntry], [receivedEntry], context.logs);
            assert [statusEntry, bodyEntry] + [receivedEntry] == ListReplyEntries(show, showDouble, reply);
            o := Emit(body.value);
          }
      }
    }

    /**
     * `fetchOpenMeteoData`: one request for all locations, the coordinates
     * rendered by `Double.toString` and joined with commas; none without locations.
     */
    method FetchOpenMeteoData(locs: seq<LocationModel.Location>) returns (o: Outcome<seq<OpenMeteo.OpenMeteoResponse>>)
      modifies context`logs, client`issued
      ensures client.issued == old(client.issued) + (if |locs| == 0 then [] else [WeatherRequest(locs, showDouble)])
      ensures o == WeatherOutcome(|locs|, client.weatherReply, client.weatherListReply)
      ensures context.logRecordExporter.None? ==> context.logs == old(context.logs)
      ensures context.logRecordExporter.Some? ==> context.logs == old(context.logs) + Buffered(context.logRecordExporter, context.logResource,
        WeatherEntries(show, showDouble, locs, client.weatherReply, client.weatherListReply))
    {
      ghost var l0, ex, res := context.logs, context.logRecordExporter, context.logResource;
      var latitudes := Join(Latitudes(locs, showDouble), ",");
      var longitudes := Join(Longitudes(locs, showDouble), ",");
      var req := Request(ForecastUrl, "", [("latitude", latitudes), ("longitude", longitudes), ("current", OpenMeteo.CurrentQuery)],
        [], ApplicationJson);
      LogRequest("fetchOpenMeteoData", "open meteo request", "open meteo request headers", req);
      ghost var opening := RequestEntries(show, "fetchOpenMeteoData", "open meteo request", "open meteo request headers", req);
      if |locs| > 1 {
        var reply := client.ExchangeWeatherList(req);
        o := OnWeatherReply(reply);
        Appended(l0, ex, res, opening, ListReplyEntries(show, showDouble, reply), context.logs);
      } else if |locs| == 1 {
        var single := client.ExchangeWeather(req);
        var reply := AsList(single);
        o := OnWeatherReply(reply);
        Appended(l0, ex, res, opening, ListReplyEntries(show, showDouble, reply), context.logs);
      } else {
        assert opening + [] == opening;
        o := Empty;
      }
    }

    /** `prepareMetricData`: the metrics of all locations, from the locations the context holds. */
    method PrepareMetricData(responses: seq<OpenMeteo.OpenMeteoResponse>) returns (o: Outcome<seq<Metrics.MetricData>>)
      modifies context`logs
      ensures o == PrepareOutcome(context.locations, responses)
      ensures context.logRecordExporter.None? ==> context.logs == old(context.logs)
      ensures context.logRecordExporter.Some? ==> context.logs == old(context.logs) + Buffered(context.logRecordExporter, context.logResource, PrepareEntries)
    {
      ghost var l0, ex, res := context.logs, context.logRecordExporter, context.logResource;
      Log(Entry(DEBUG, "prepareMetricData", []));
      Log(Entry(DEBUG, "generating metric data", []));
      Appended(l0, ex, res, [Entry(DEBUG, "prepareMetricData", [])], [Entry(DEBUG, "generating metric data", [])], context.logs);
      if context.locations.None? {
        o := Error;
      } else {
        var r := Metrics.PrepareMetricData(context.locations.value, responses, SdkName);
        o := if r.Ok? then Emit(r.value) else Error;
      }
    }
    /**
     * The calls after an accepted export: start, then for each metric its
     * resource when it changes and the metric itself, then end.
     */
    method LogExportedMetrics(md: seq<Metrics.MetricData>)
      modifies context`logs
      ensures context.logs == old(context.logs)
        + Buffered(context.logRecordExporter, context.logResource, ExportedDataEntries(show, md))
    {
      ghost var l0, ex, res := context.logs, context.logRecordExporter, context.logResource;
      var start := Entry(DEBUG, "exported data --- start", []);
      Log(start);
      ghost var l1 := context.logs;
      assert l1 + [] == l1;
      var current: Option<Resource> := None;
      var i := 0;
      while i < |md|
        invariant 0 <= i <= |md|
        invariant current == (if i == 0 then None else Some(md[i - 1].resource))
        invariant context.logs == l1 + Buffered(ex, res, MetricEntries(show, md, i))
      {
        ghost var before := context.logs;
        var gauge := GaugeEntry(show, md[i]);
        if current != Some(md[i].resource) {
          var resource := ResourceEntry(show, md[i].resource);
          Log(resource);
          Log(gauge);
          Appended(before, ex, res, [resource], [gauge], context.logs);
          assert before + Buffered(ex, res, []) == before;
          assert [resource] + [gauge] == MetricEntry(show, md, i);
          current := Some(md[i].resource);
        } else {
          Log(gauge);
          assert [gauge] == MetricEntry(show, md, i);
        }
        Appended(l1, ex, res, MetricEntries(show, md, i), MetricEntry(show, md, i), context.logs);
        i := i + 1;
      }
      Appended(l0, ex, res, [start], MetricEntries(show, md, |md|), context.logs);
      var end := Entry(DEBUG, "exported data --- end", []);
      Log(end);
      Appended(l0, ex, res, [start] + MetricEntries(show, md, |md|), [end], context.logs);
    }

    /** `exportMetricData`: a metric exporter built for this run, and the export of every metric. */
    method ExportMetricData(md: seq<Metrics.MetricData>) returns (o: Outcome<string>)
      requires context.headers.Some?
      modifies context`logs, ingestion`metricBatches
      ensures o == MetricExportOutcome(ingestion.metricReply)
      ensures ingestion.metricBatches == old(ingestion.metricBatches)
        + (if ingestion.metricReply.Accepted? then [(ExporterFor(context.headers.value, cisUrl), md)] else [])
      ensures context.logRecordExporter.None? ==> context.logs == old(context.logs)
      ensures context.logRecordExporter.Some? ==> context.logs == old(context.logs) + Buffered(context.logRecordExporter, context.logResource,
        MetricExportEntries(show, ExporterFor(context.headers.value, cisUrl), md, ingestion.metricReply))
    {
      ghost var l0, ex, res := context.logs, context.logRecordExporter, context.logResource;
      var e0, e1 := Entry(DEBUG, "exportMetricData", []), Entry(DEBUG, "exporting metric data", []);
      Log(e0);
      Log(e1);
      Appended(l0, ex, res, [e0], [e1], context.logs);
      var exporter := BuildExporter(context.headers.value, cisUrl);
      var e2 := Entry(DEBUG, "metrics export", [("exporter", show(MetricExporterShown(exporter))), ("metrics.count", IntToString(|md|))]);
      Log(e2);
      Appended(l0, ex, res, [e0, e1], [e2], context.logs);
      ghost var opening := MetricExportOpening(show, exporter, md);
      assert [e0, e1] + [e2] == opening;
      ghost var l1 := context.logs;
      var reply := ingestion.ExportMetrics(exporter, md);
      match reply {
        case Throws(message) =>
          if message.Some? {
            Log(Entry(DEBUG, "error exporting data", [("message", message.value)]));
          } else {
            assert l1 + [] == l1;
          }
          o := Error;
        case Accepted =>
          LogExportedMetrics(md);
          o := Emit("ok");
      }
      assert context.logs == l1 + Buffered(ex, res, MetricReplyEntries(show, md, reply));
      Appended(l0, ex, res, opening, MetricReplyEntries(show, md, reply), context.logs);
    }

    /** The call for each record of the exported batch. */
    method LogExportedRecords(batch: seq<LogRecord>)
      modifies context`logs
      ensures context.logs == old(context.logs)
        + Buffered(context.logRecordExporter, context.logResource, ExportedLogEntries(show, batch))
    {
      ghost var l0, ex, res := context.logs, context.logRecordExporter, context.logResource;
      var i := 0;
      assert l0 + [] == l0;
      while i < |batch|
        invariant 0 <= i <= |batch|
        invariant context.logs == l0 + Buffered(ex, res, ExportedLogEntries(show, batch[..i]))
      {
        var entry := Entry(DEBUG, "exported log message", [("log", show(LogRecordShown(batch[i])))]);
        Log(entry);
        Appended(l0, ex, res, ExportedLogEntries(show, batch[..i]), [entry], context.logs);
        assert ExportedLogEntries(show, batch[..i]) + [entry] == ExportedLogEntries(show, batch[..i + 1]);
        i := i + 1;
      }
      assert batch[..i] == batch;
    }

    /**
     * `exportLogs`: with logging enabled, the buffer (as it is after this
     * stage's opening call) filtered by the configured level goes to the log
     * record exporter; "error" without an exporter or when the export throws.
     */
    method ExportLogs() returns (o: Outcome<string>)
      modifies context`logs, ingestion`logBatches
      ensures o == LogExportOutcome(context.logRecordExporter, context.config, ingestion.logReply)
      ensures var ex, res := context.logRecordExporter, context.logResource;
        var snapshot := old(context.logs) + Buffered(ex, res, [Entry(DEBUG, "exportLogs", [])]);
        if ex.Some? && context.config.Some? then
          var batch := SelectForExport(context.config.value.logLevel, snapshot);
          && context.logs == snapshot + Buffered(ex, res, LogExportEntries(show, ex.value, batch, ingestion.logReply))
          && ingestion.logBatches == old(ingestion.logBatches) + (if ingestion.logReply.Accepted? then [(ex.value, batch)] else [])
        else
          context.logs == snapshot && ingestion.logBatches == old(ingestion.logBatches)
      ensures |ingestion.logBatches| == |old(ingestion.logBatches)|
        + (if context.logRecordExporter.Some? && context.config.Some? && ingestion.logReply.Accepted? then 1 else 0)
      ensures forall k :: |old(ingestion.logBatches)| <= k < |ingestion.logBatches| ==>
        Some(ingestion.logBatches[k].0) == context.logRecordExporter && context.config.Some?
        && forall r :: r in ingestion.logBatches[k].1 ==> Selected(context.config.value.logLevel, r)
    {
      ghost var ex, res := context.logRecordExporter, context.logResource;
      Log(Entry(DEBUG, "exportLogs", []));
      if context.logRecordExporter.None? {
        o := Emit("error");
        return;
      }
      if context.config.None? {
        o := Error;
        return;
      }
      var level := context.config.value.logLevel;
      var logs := SelectForExport(level, context.logs);
      var exporter := context.logRecordExporter.value;
      ghost var l1 := context.logs;
      var opening := Entry(DEBUG, "logs export", [("exporter", show(LogExporterShown(exporter))), ("log.count", IntToString(|logs|))]);
      Log(opening);
      LogExportedRecords(logs);
      Appended(l1, ex, res, [opening], ExportedLogEntries(show, logs), context.logs);
      ghost var done := [opening] + ExportedLogEntries(show, logs);
      var reply := ingestion.ExportLogs(exporter, logs);
      if reply.Accepted? {
        assert done + [] == done;
        o := Emit("ok");
      } else {
        Log(Entry(ERROR, "export logs error", []));
        Appended(l1, ex, res, done, [Entry(ERROR, "export logs error", [])], context.logs);
        o := Emit("error");
      }
    }
    /** The pipeline from `exportLogs` on: its value is replaced by "ok", its error signal kept. */
    method FromExportLogs() returns (result: Outcome<string>)
      requires context.config.Some?
      modifies context`logs, ingestion`logBatches
      ensures result == Emit("ok")
      ensures context.logRecordExporter.None? ==>
        context.logs == old(context.logs) && ingestion.logBatches == old(ingestion.logBatches)
      ensures |ingestion.logBatches| == |old(ingestion.logBatches)|
        + (if context.logRecordExporter.Some? && ingestion.logReply.Accepted? then 1 else 0)
      ensures forall k :: |old(ingestion.logBatches)| <= k < |ingestion.logBatches| ==>
        Some(ingestion.logBatches[k].0) == context.logRecordExporter
        && forall r :: r in ingestion.logBatches[k].1 ==> Selected(context.config.value.logLevel, r)
    {
      var logsExported := ExportLogs();
      result := if logsExported.Emit? then Emit("ok") else Error;
    }

    /** The pipeline from `exportMetricData` on. */
    method FromExportMetricData(md: seq<Metrics.MetricData>) returns (result: Outcome<string>)
      requires context.headers.Some? && context.config.Some?
      modifies context`logs, ingestion`metricBatches, ingestion`logBatches
      ensures result == (if ingestion.metricReply.Accepted? then Emit("ok") else Error)
      ensures ingestion.metricBatches == old(ingestion.metricBatches)
        + (if result.Emit? then [(ExporterFor(context.headers.value, cisUrl), md)] else [])
      ensures context.logRecordExporter.None? ==>
        context.logs == old(context.logs) && ingestion.logBatches == old(ingestion.logBatches)
      ensures |ingestion.logBatches| == |old(ingestion.logBatches)|
        + (if result.Emit? && context.logRecordExporter.Some? && ingestion.logReply.Accepted? then 1 else 0)
      ensures forall k :: |old(ingestion.logBatches)| <= k < |ingestion.logBatches| ==>
        Some(ingestion.logBatches[k].0) == context.logRecordExporter
        && forall r :: r in ingestion.logBatches[k].1 ==> Selected(context.config.value.logLevel, r)
    {
      var exported := ExportMetricData(md);
      if !exported.Emit? {
        result := Error;
      } else {
        result := FromExportLogs();
      }
    }

    /** The pipeline from `prepareMetricData` on, for the forecasts received. */
    method FromPrepareMetricData(responses: seq<OpenMeteo.OpenMeteoResponse>) returns (result: Outcome<string>)
      requires context.headers.Some? && context.config.Some?
      modifies context`logs, ingestion`metricBatches, ingestion`logBatches
      ensures var p := PrepareOutcome(context.locations, responses);
        result == (if p.Emit? && ingestion.metricReply.Accepted? then Emit("ok") else Error)
      ensures ingestion.metricBatches == old(ingestion.metricBatches) + (if result.Emit?
        then [(ExporterFor(context.headers.value, cisUrl), PrepareOutcome(context.locations, responses).value)]
        else [])
      ensures context.logRecordExporter.None? ==>
        context.logs == old(context.logs) && ingestion.logBatches == old(ingestion.logBatches)
      ensures |ingestion.logBatches| == |old(ingestion.logBatches)|
        + (if result.Emit? && context.logRecordExporter.Some? && ingestion.logReply.Accepted? then 1 else 0)
      ensures forall k :: |old(ingestion.logBatches)| <= k < |ingestion.logBatches| ==>
        Some(ingestion.logBatches[k].0) == context.logRecordExporter
        && forall r :: r in ingestion.logBatches[k].1 ==> Selected(context.config.value.logLevel, r)
    {
      var md := PrepareMetricData(responses);
      if !md.Emit? {
        result := Error;
      } else {
        result := FromExportMetricData(md.value);
      }
    }

    /** The pipeline from `fetchOpenMeteoData` on, for the locations just fetched. */
    method FromFetchOpenMeteoData(locs: seq<LocationModel.Location>) returns (result: Outcome<string>)
      requires context.headers.Some? && context.config.Some?
      requires locs != [] ==> context.locations == Some(locs)
      modifies context`logs, client`issued, ingestion`metricBatches, ingestion`logBatches
      ensures var status := AfterLocations(locs, client.weatherReply, client.weatherListReply, ingestion.metricReply);
        && (result.Empty? <==> status.None?)
        && (result.Error? <==> status == Some("error"))
        && (result.Emit? <==> status == Some("ok"))
        && (result.Emit? ==> result.value == "ok")
      ensures client.issued == old(client.issued) + (if locs == [] then [] else [WeatherRequest(locs, showDouble)])
      ensures ingestion.metricBatches == old(ingestion.metricBatches) + (if result.Emit?
        then [(ExporterFor(context.headers.value, cisUrl), RunMetrics(locs, client.weatherReply, client.weatherListReply))]
        else [])
      ensures context.logRecordExporter.None? ==>
        context.logs == old(context.logs) && ingestion.logBatches == old(ingestion.logBatches)
      ensures |ingestion.logBatches| == |old(ingestion.logBatches)|
        + (if result.Emit? && context.logRecordExporter.Some? && ingestion.logReply.Accepted? then 1 else 0)
      ensures forall k :: |old(ingestion.logBatches)| <= k < |ingestion.logBatches| ==>
        Some(ingestion.logBatches[k].0) == context.logRecordExporter
        && forall r :: r in ingestion.logBatches[k].1 ==> Selected(context.config.value.logLevel, r)
    {
      var weather := FetchOpenMeteoData(locs);
      if weather.Empty? {
        result := Empty;
      } else if weather.Error? {
        result := Error;
      } else {
        assert context.locations == Some(locs);
        result := FromPrepareMetricData(weather.value);
      }
    }

    /** The pipeline from `fetchLocations` on, once logging is set up. */
    method FromFetchLocations() returns (result: Outcome<string>)
      requires context.headers.Some? && context.config.Some? && context.locations.None?
      modifies context`logs, context`locations, client`issued, ingestion`metricBatches, ingestion`logBatches
      ensures var status := AfterLocations(LocationsOutcome(client.locationsReply), client.weatherReply, client.weatherListReply,
          ingestion.metricReply);
        && (result.Empty? <==> status.None?)
        && (result.Error? <==> status == Some("error"))
        && (result.Emit? <==> status == Some("ok"))
        && (result.Emit? ==> result.value == "ok")
      ensures var locs := LocationsOutcome(client.locationsReply);
        client.issued == old(client.issued) + [KnowledgeRequest(jsonStoreUrl, LocationsPath, context.headers.value)]
          + (if locs == [] then [] else [WeatherRequest(locs, showDouble)])
      ensures ingestion.metricBatches == old(ingestion.metricBatches) + (if result.Emit?
        then [(ExporterFor(context.headers.value, cisUrl),
               RunMetrics(LocationsOutcome(client.locationsReply), client.weatherReply, client.weatherListReply))]
        else [])
      ensures context.logRecordExporter.None? ==>
        context.logs == old(context.logs) && ingestion.logBatches == old(ingestion.logBatches)
      ensures |ingestion.logBatches| == |old(ingestion.logBatches)|
        + (if result.Emit? && context.logRecordExporter.Some? && ingestion.logReply.Accepted? then 1 else 0)
      ensures forall k :: |old(ingestion.logBatches)| <= k < |ingestion.logBatches| ==>
        Some(ingestion.logBatches[k].0) == context.logRecordExporter
        && forall r :: r in ingestion.logBatches[k].1 ==> Selected(context.config.value.logLevel, r)
    {
      var locs := FetchLocations();
      result := FromFetchOpenMeteoData(locs);
    }

    /**
     * The stages after `fetchConfig`, from `initLogging` to the final `Flux.just("ok")`:
     * they run only on a configuration passed on, and an error passes through.
     */
    method FromInitLogging(config: Outcome<ConfigModel.Config>) returns (result: Outcome<string>)
      requires context.headers.Some? && (config.Emit? ==> context.config == Some(config.value))
      requires context.locations.None? && context.logRecordExporter.None? && context.logResource.None?
      modifies context`logs, context`logRecordExporter, context`logResource, context`locations, client`issued
      modifies ingestion`metricBatches, ingestion`logBatches
      ensures var status := if config.Error? then Some("error")
          else if config.Empty? then None
          else AfterLocations(LocationsOutcome(client.locationsReply), client.weatherReply, client.weatherListReply, ingestion.metricReply);
        && (result.Empty? <==> status.None?)
        && (result.Error? <==> status == Some("error"))
        && (result.Emit? <==> status == Some("ok"))
        && (result.Emit? ==> result.value == "ok")
      ensures var locs := LocationsOutcome(client.locationsReply);
        client.issued == old(client.issued) + (if !config.Emit? then [] else
          [KnowledgeRequest(jsonStoreUrl, LocationsPath, context.headers.value)]
          + (if locs == [] then [] else [WeatherRequest(locs, showDouble)]))
      ensures ingestion.metricBatches == old(ingestion.metricBatches) + (if result.Emit?
        then [(ExporterFor(context.headers.value, cisUrl),
               RunMetrics(LocationsOutcome(client.locationsReply), client.weatherReply, client.weatherListReply))]
        else [])
      ensures context.logRecordExporter.Some? <==> config.Emit? && LoggingEnabled(config.value)
      ensures context.logRecordExporter.Some? ==>
        context.logRecordExporter == Some(ExporterFor(context.headers.value, cisUrl)) && context.logResource == Some(LogResource)
      ensures context.logRecordExporter.None? ==>
        context.logs == old(context.logs) && context.logResource.None? && ingestion.logBatches == old(ingestion.logBatches)
      ensures |ingestion.logBatches| == |old(ingestion.logBatches)|
        + (if result.Emit? && context.logRecordExporter.Some? && ingestion.logReply.Accepted? then 1 else 0)
      ensures forall k :: |old(ingestion.logBatches)| <= k < |ingestion.logBatches| ==>
        ingestion.logBatches[k].0 == ExporterFor(context.headers.value, cisUrl)
        && forall r :: r in ingestion.logBatches[k].1 ==> config.Emit? && Selected(config.value.logLevel, r)
    {
      match config {
        case Empty =>
          result := Empty;
        case Error =>
          result := Error;
        case Emit(c) =>
          var _ := InitLogging(c);
          result := FromFetchLocations();
      }
    }

    /** The whole pipeline after the trigger's first record: `fetchConfig`, then the stages after it. */
    method FromFetchConfig() returns (result: Outcome<string>)
      requires context.headers.Some? && context.config.None? && context.locations.None?
      requires context.logRecordExporter.None? && context.logResource.None?
      modifies context`logs, context`config, context`logRecordExporter, context`logResource, context`locations, client`issued
      modifies ingestion`metricBatches, ingestion`logBatches
      ensures var status := RunStatus(client.configReply, client.locationsReply, client.weatherReply, client.weatherListReply,
          ingestion.metricReply);
        && (result.Empty? <==> status.None?)
        && (result.Error? <==> status == Some("error"))
        && (result.Emit? <==> status == Some("ok"))
        && (result.Emit? ==> result.value == "ok")
      ensures client.issued == old(client.issued)
        + RunRequests(jsonStoreUrl, context.headers.value, showDouble, client.configReply, client.locationsReply)
      ensures ingestion.metricBatches == old(ingestion.metricBatches) + (if result.Emit?
        then [(ExporterFor(context.headers.value, cisUrl),
               RunMetrics(LocationsOutcome(client.locationsReply), client.weatherReply, client.weatherListReply))]
        else [])
      ensures var c := ConfigOutcome(DecodeConfigExchange(client.configReply));
        context.logRecordExporter.Some? <==> c.Emit? && LoggingEnabled(c.value)
      ensures context.logRecordExporter.Some? ==>
        context.logRecordExporter == Some(ExporterFor(context.headers.value, cisUrl)) && context.logResource == Some(LogResource)
      ensures context.logRecordExporter.None? ==> context.logs == old(context.logs) && ingestion.logBatches == old(ingestion.logBatches)
      ensures |ingestion.logBatches| == |old(ingestion.logBatches)|
        + (if result.Emit? && context.logRecordExporter.Some? && ingestion.logReply.Accepted? then 1 else 0)
      ensures forall k :: |old(ingestion.logBatches)| <= k < |ingestion.logBatches| ==>
        ingestion.logBatches[k].0 == ExporterFor(context.headers.value, cisUrl)
        && forall r :: r in ingestion.logBatches[k].1 ==>
          ConfigOutcome(DecodeConfigExchange(client.configReply)).Emit?
          && Selected(ConfigOutcome(DecodeConfigExchange(client.configReply)).value.logLevel, r)
    {
      ghost var issued0 := client.issued;
      var config := FetchConfig();
      ConfigOutcomeInContext(None, DecodeConfigExchange(client.configReply));
      result := FromInitLogging(config);
      Assoc(issued0, [KnowledgeRequest(jsonStoreUrl, ConfigPath, context.headers.value)],
        if !config.Emit? then [] else
          [KnowledgeRequest(jsonStoreUrl, LocationsPath, context.headers.value)]
          + (if LocationsOutcome(client.locationsReply) == [] then []
             else [WeatherRequest(LocationsOutcome(client.locationsReply), showDouble)]));
    }

    /**
     * `reportMeteoData`, the cron job's entry point, on a fresh request
     * context; `None` is a run that completes without a value.
     */
    method ReportMeteoData(h: Headers) returns (status: Option<string>)
      requires context.config.None? && context.headers.None? && context.locations.None?
      requires context.logRecordExporter.None? && context.logs == [] && context.logResource.None?
      modifies context, client`issued, ingestion`metricBatches, ingestion`logBatches
      ensures status == RunStatus(client.configReply, client.locationsReply, client.weatherReply, client.weatherListReply,
        ingestion.metricReply)
      ensures client.issued == old(client.issued)
        + RunRequests(jsonStoreUrl, h, showDouble, client.configReply, client.locationsReply)
      ensures ingestion.metricBatches == old(ingestion.metricBatches) + (if status == Some("ok")
        then [(ExporterFor(h, cisUrl), RunMetrics(LocationsOutcome(client.locationsReply), client.weatherReply, client.weatherListReply))]
        else [])
      ensures context.headers == Some(h)
      ensures var c := ConfigOutcome(DecodeConfigExchange(client.configReply));
        context.logRecordExporter.Some? <==> c.Emit? && LoggingEnabled(c.value)
      ensures context.logRecordExporter.Some? ==> context.logRecordExporter == Some(ExporterFor(h, cisUrl))
      ensures context.logRecordExporter.None? ==> context.logs == [] && ingestion.logBatches == old(ingestion.logBatches)
      ensures |ingestion.logBatches| == |old(ingestion.logBatches)|
        + (if status == Some("ok") && context.logRecordExporter.Some? && ingestion.logReply.Accepted? then 1 else 0)
      ensures forall k :: |old(ingestion.logBatches)| <= k < |ingestion.logBatches| ==>
        ingestion.logBatches[k].0 == ExporterFor(h, cisUrl)
        && forall r :: r in ingestion.logBatches[k].1 ==>
          ConfigOutcome(DecodeConfigExchange(client.configReply)).Emit?
          && Selected(ConfigOutcome(DecodeConfigExchange(client.configReply)).value.logLevel, r)
      ensures status == Some("error") && context.logRecordExporter.Some? ==>
        context.logs != [] && context.logs[|context.logs| - 1] == Record(Some(LogResource), ERROR, "processing error", [])
    {
      context.SetHeaders(h);
      Log(Entry(INFO, "trigger received", [("headers", show(HeadersShown(h)))]));
      var result := FromFetchConfig();
      match result {
        case Error =>
          Log(Entry(ERROR, "processing error", []));
          status := Some("error");
        case Emit(s) =>
          status := Some(s);
        case Empty =>
          status := None;
      }
    }
  }
}
