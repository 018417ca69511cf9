/**
 * The function's outside world: the reactive HTTP client that talks to the
 * knowledge store and the forecast API, and the OTLP ingestion endpoint that
 * the metric and log exporters send to. The network is not modelled; each
 * endpoint's reply is fixed when the client is made, and every request and
 * every accepted export is recorded.
 */
module Http {
  import opened Wrappers
  import opened Headers
  import ConfigResponse
  import LocationResponse
  import OpenMeteo
  import Telemetry
  import Metrics
  import Logging

  /** An outbound GET: base URL, path, query parameters in order, headers and the `Accept` media type. */
  datatype Request = Request(base: string, path: string, query: seq<(string, string)>, headers: seq<OutHeader>, accept: string)

  const ApplicationJson: string := "application/json"

  /**
   * The status of a reply `exchange` hands on: the client signals an error
   * instead for every status of 400 or more.
   */
  type ClientStatus = s: int | 200 <= s < 400 witness 200

  /** A received reply: its status code and its decoded body, which may be absent (null). */
  datatype Response<T> = Response(status: ClientStatus, body: Option<T>)

  /**
   * What `exchange` emits: an error signal (connection failure, a status of
   * 400 or more, or a body that cannot be decoded), or the reply.
   */
  datatype Exchange<T> = Failed | Received(response: Response<T>)

  /**
   * Decoding the configuration page: a `logLevel` the `Config` constructor
   * refuses makes the decoding, and so the exchange, fail.
   */
  function DecodeConfigExchange(raw: Exchange<ConfigResponse.RawConfigResponse>): (r: Exchange<ConfigResponse.ConfigResponseWrapper>)
    ensures raw.Failed? ==> r.Failed?
    ensures raw.Received? && raw.response.body.None? ==> r == Received(Response(raw.response.status, None))
    ensures raw.Received? && raw.response.body.Some? ==>
      (r.Received? <==> ConfigResponse.Decode(raw.response.body.value).Some?)
    ensures r.Received? && r.response.body.Some? ==>
      raw.Received? && raw.response.body.Some? && ConfigResponse.Decode(raw.response.body.value) == r.response.body
  {
    match raw
    case Failed => Failed
    case Received(Response(status, None)) => Received(Response(status, None))
    case Received(Response(status, Some(page))) =>
      match ConfigResponse.Decode(page)
      case None => Failed
      case Some(w) => Received(Response(status, Some(w)))
  }

  /**
   * `retrieve`: the body of a reply, or an error signal when the exchange
   * fails or the reply has no body.
   */
  function Retrieve<T>(e: Exchange<T>): (r: Option<T>)
    ensures r.Some? <==> e.Received? && e.response.body.Some?
    ensures r.Some? ==> r.value == e.response.body.value
  {
    if e.Received? && e.response.body.Some? then Some(e.response.body.value) else None
  }

  /** `ReactorHttpClient` with the reply of each endpoint fixed, recording what was sent. */
  class HttpClient {
    const configReply: Exchange<ConfigResponse.RawConfigResponse>
    const locationsReply: Exchange<LocationResponse.LocationResponseWrapper>
    const weatherReply: Exchange<OpenMeteo.OpenMeteoResponse>
    const weatherListReply: Exchange<seq<OpenMeteo.OpenMeteoResponse>>
    /** Every request sent, in order. */
    var issued: seq<Request>

    constructor (configReply: Exchange<ConfigResponse.RawConfigResponse>,
                 locationsReply: Exchange<LocationResponse.LocationResponseWrapper>,
                 weatherReply: Exchange<OpenMeteo.OpenMeteoResponse>,
                 weatherListReply: Exchange<seq<OpenMeteo.OpenMeteoResponse>>)
      ensures this.configReply == configReply && this.locationsReply == locationsReply
      ensures this.weatherReply == weatherReply && this.weatherListReply == weatherListReply
      ensures issued == []
    {
      this.configReply := configReply;
      this.locationsReply := locationsReply;
      this.weatherReply := weatherReply;
      this.weatherListReply := weatherListReply;
      issued := [];
    }

    /** `exchange(req, ConfigResponseWrapper.class)`. */
    method ExchangeConfig(req: Request) returns (r: Exchange<ConfigResponse.ConfigResponseWrapper>)
      modifies this`issued
      ensures issued == old(issued) + [req]
      ensures r == DecodeConfigExchange(configReply)
    {
      issued := issued + [req];
      r := DecodeConfigExchange(configReply);
    }

    /** `exchange(req, LocationResponseWrapper.class)`. */
    method ExchangeLocations(req: Request) returns (r: Exchange<LocationResponse.LocationResponseWrapper>)
      modifies this`issued
      ensures issued == old(issued) + [req]
      ensures r == locationsReply
    {
      issued := issued + [req];
      r := locationsReply;
    }

    /** `exchange(req, OpenMeteoResponse.class)`: the forecast of a single location. */
    method ExchangeWeather(req: Request) returns (r: Exchange<OpenMeteo.OpenMeteoResponse>)
      modifies this`issued
      ensures issued == old(issued) + [req]
      ensures r == weatherReply
    {
      issued := issued + [req];
      r := weatherReply;
    }

    /** `exchange(req, Argument.listOf(OpenMeteoResponse.class))`: the forecasts of several locations. */
    method ExchangeWeatherList(req: Request) returns (r: Exchange<seq<OpenMeteo.OpenMeteoResponse>>)
      modifies this`issued
      ensures issued == old(issued) + [req]
      ensures r == weatherListReply
    {
      issued := issued + [req];
      r := weatherListReply;
    }
  }

  /** What an exporter's `export` call does: hand the batch over, or throw (with a message or without one). */
  datatype ExportReply = Accepted | Throws(message: Option<string>)

  /** The ingestion endpoint as the exporters see it, recording every batch it accepts. */
  class Ingestion {
    const metricReply: ExportReply
    const logReply: ExportReply
    var metricBatches: seq<(Telemetry.Exporter, seq<Metrics.MetricData>)>
    var logBatches: seq<(Telemetry.Exporter, seq<Logging.LogRecord>)>

    constructor (metricReply: ExportReply, logReply: ExportReply)
      ensures this.metricReply == metricReply && this.logReply == logReply
      ensures metricBatches == [] && logBatches == []
    {
      this.metricReply := metricReply;
      this.logReply := logReply;
      metricBatches := [];
      logBatches := [];
    }

    /** `OtlpGrpcMetricExporter.export`. */
    method ExportMetrics(e: Telemetry.Exporter, batch: seq<Metrics.MetricData>) returns (r: ExportReply)
      modifies this`metricBatches
      ensures r == metricReply
      ensures metricBatches == old(metricBatches) + (if r.Accepted? then [(e, batch)] else [])
    {
      r := metricReply;
      if r.Accepted? {
        metricBatches := metricBatches + [(e, batch)];
      }
    }

    /** `OtlpGrpcLogRecordExporter.export`. */
    method ExportLogs(e: Telemetry.Exporter, batch: seq<Logging.LogRecord>) returns (r: ExportReply)
      modifies this`logBatches
      ensures r == logReply
      ensures logBatches == old(logBatches) + (if r.Accepted? then [(e, batch)] else [])
    {
      r := logReply;
      if r.Accepted? {
        logBatches := logBatches + [(e, batch)];
      }
    }
  }
}
