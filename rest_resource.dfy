/**
 * `RestResource`: the older, controller-based variant of the function. A
 * `POST /` lists the locations of the knowledge store, fetches their weather
 * in one batch and exports the fifteen gauges per location, with no
 * configuration stage, no log buffering and a status gate on the listing.
 *
 * `KnowledgeResponseWrapper` and `KnowledgeLocation` are not part of this
 * model; the listing is decoded here with the shape of `LocationResponseWrapper`
 * and `Location`, the same items and the same three location members.
 */
module Rest {
  import opened Wrappers
  import opened Text
  import opened Numbers
  import opened Headers
  import opened Http
  import opened Telemetry
  import opened Pipeline
  import LocationModel
  import LocationResponse
  import OpenMeteo
  import Metrics

  /** The `telemetry.sdk.name` this variant puts on every location's resource. */
  const RestSdkName: string := "meteodata"

  /** The locations of a listing that passed the gate: a received status-200 reply with a body. */
  function GatedLocations(reply: Exchange<LocationResponse.LocationResponseWrapper>): Option<seq<LocationModel.Location>> {
    if reply.Received? && reply.response.status == 200 && reply.response.body.Some?
    then Some(LocationResponse.Locations(reply.response.body.value.items))
    else None
  }

  /**
   * What the `map` over a status-200 listing emits: nothing without
   * locations, an error when the forecast fails or the projection throws,
   * else "ok", whatever the export itself does.
   */
  function ListingOutcome(locs: seq<LocationModel.Location>, single: Exchange<OpenMeteo.OpenMeteoResponse>,
                          batch: Exchange<seq<OpenMeteo.OpenMeteoResponse>>): (o: Outcome<string>)
    ensures o.Empty? <==> locs == []
    ensures o.Emit? ==> o.value == "ok"
  {
    match WeatherOutcome(|locs|, single, batch)
    case Empty => Empty
    case Error => Error
    case Emit(rs) => if Metrics.Project(locs, rs, RestSdkName).Ok? then Emit("ok") else Error
  }

  /**
   * What `postRoot` emits. A failed listing (including every status of 400 or
   * more) and a status-200 reply without a body are errors, any other received
   * status is "not ok", and a status-200 listing goes on to the forecast.
   */
  function PostRootOutcome(reply: Exchange<LocationResponse.LocationResponseWrapper>,
                           single: Exchange<OpenMeteo.OpenMeteoResponse>,
                           batch: Exchange<seq<OpenMeteo.OpenMeteoResponse>>): (o: Outcome<string>)
    ensures o.Emit? ==> o.value in {"ok", "not ok"}
  {
    match reply
    case Failed => Error
    case Received(Response(status, body)) =>
      if status != 200 then Emit("not ok")
      else if body.None? then Error
      else ListingOutcome(LocationResponse.Locations(body.value.items), single, batch)
  }

  /** The requests `postRoot` sends: the listing, then the forecast batch only for a gated, non-empty listing. */
  function PostRootRequests(jsonStoreUrl: string, h: Headers, showDouble: Double -> string,
                            reply: Exchange<LocationResponse.LocationResponseWrapper>): seq<Request> {
    var gated := GatedLocations(reply);
    [KnowledgeRequest(jsonStoreUrl, LocationsPath, h)]
    + (if gated.Some? && gated.value != [] then [WeatherRequest(gated.value, showDouble)] else [])
  }

  /** The gauges the `map` over a status-200 listing hands to the exporter, when it gets that far. */
  function ListingMetrics(locs: seq<LocationModel.Location>, single: Exchange<OpenMeteo.OpenMeteoResponse>,
                          batch: Exchange<seq<OpenMeteo.OpenMeteoResponse>>): seq<Metrics.MetricData> {
    var w := WeatherOutcome(|locs|, single, batch);
    if w.Emit? && Metrics.Project(locs, w.value, RestSdkName).Ok? then Metrics.Project(locs, w.value, RestSdkName).value else []
  }

  /** The gauges `postRoot` hands to the exporter: those of a gated listing, none otherwise. */
  function PostRootMetrics(reply: Exchange<LocationResponse.LocationResponseWrapper>,
                           single: Exchange<OpenMeteo.OpenMeteoResponse>,
                           batch: Exchange<seq<OpenMeteo.OpenMeteoResponse>>): seq<Metrics.MetricData> {
    var gated := GatedLocations(reply);
    if gated.Some? then ListingMetrics(gated.value, single, batch) else []
  }

  /**
   * A received status other than 200 (one below 400, since the client fails
   * the exchange for the rest) is "not ok", and the forecast API is not called.
   */
  lemma NotOkSkipsForecast(jsonStoreUrl: string, h: Headers, showDouble: Double -> string,
                           reply: Exchange<LocationResponse.LocationResponseWrapper>,
                           single: Exchange<OpenMeteo.OpenMeteoResponse>,
                           batch: Exchange<seq<OpenMeteo.OpenMeteoResponse>>)
    requires reply.Received? && reply.response.status != 200
    ensures PostRootOutcome(reply, single, batch) == Emit("not ok")
    ensures PostRootRequests(jsonStoreUrl, h, showDouble, reply) == [KnowledgeRequest(jsonStoreUrl, LocationsPath, h)]
  {
  }

  /**
   * "not ok" is emitted exactly for a received listing whose status is not
   * 200: a 2xx or 3xx status the client hands on; a status of 400 or more
   * fails the exchange and is an error instead.
   */
  lemma NotOkIff(reply: Exchange<LocationResponse.LocationResponseWrapper>,
                 single: Exchange<OpenMeteo.OpenMeteoResponse>,
                 batch: Exchange<seq<OpenMeteo.OpenMeteoResponse>>)
    ensures PostRootOutcome(reply, single, batch) == Emit("not ok") <==> reply.Received? && reply.response.status != 200
  {
  }

  /** A gated listing without locations emits nothing and sends nothing more. */
  lemma NoLocationsEmitNothing(jsonStoreUrl: string, h: Headers, showDouble: Double -> string,
                               reply: Exchange<LocationResponse.LocationResponseWrapper>,
                               single: Exchange<OpenMeteo.OpenMeteoResponse>,
                               batch: Exchange<seq<OpenMeteo.OpenMeteoResponse>>)
    requires GatedLocations(reply) == Some([])
    ensures PostRootOutcome(reply, single, batch) == Empty
    ensures PostRootRequests(jsonStoreUrl, h, showDouble, reply) == [KnowledgeRequest(jsonStoreUrl, LocationsPath, h)]
  {
  }

  /**
   * "ok" is emitted exactly when the listing passes the gate with at least one
   * location, the forecast arrives and every location projects.
   */
  lemma OkIff(reply: Exchange<LocationResponse.LocationResponseWrapper>,
              single: Exchange<OpenMeteo.OpenMeteoResponse>,
              batch: Exchange<seq<OpenMeteo.OpenMeteoResponse>>)
    ensures PostRootOutcome(reply, single, batch) == Emit("ok") <==>
      var gated := GatedLocations(reply);
      var w := if gated.Some? then WeatherOutcome(|gated.value|, single, batch) else Empty;
      gated.Some? && gated.value != [] && w.Emit? && Metrics.Project(gated.value, w.value, RestSdkName).Ok?
  {
  }

  /** More locations than forecasts is an error, not "ok". */
  lemma ShortForecastIsError(reply: Exchange<LocationResponse.LocationResponseWrapper>,
                             single: Exchange<OpenMeteo.OpenMeteoResponse>,
                             batch: Exchange<seq<OpenMeteo.OpenMeteoResponse>>)
    requires GatedLocations(reply).Some? && |GatedLocations(reply).value| > 1
    requires Retrieve(batch).Some? && |Retrieve(batch).value| < |GatedLocations(reply).value|
    ensures PostRootOutcome(reply, single, batch) == Error
  {
    Metrics.ShortRepliesFail(GatedLocations(reply).value, Retrieve(batch).value, RestSdkName);
  }

  /**
   * Gauge 15·k + j of a successful projection in this variant is measurement j
   * of location k, on location k's resource, which carries the SDK name "meteodata".
   */
  lemma MetricsTaggedMeteodata(locs: seq<LocationModel.Location>, rs: seq<OpenMeteo.OpenMeteoResponse>, k: nat, j: nat)
    requires Metrics.Project(locs, rs, RestSdkName).Ok? && k < |locs| && j < 15
    ensures |Metrics.Project(locs, rs, RestSdkName).value| == 15 * |locs| && k < |rs|
    ensures Metrics.Project(locs, rs, RestSdkName).value[15 * k + j].resource == Metrics.LocationResource(locs[k], rs[k], RestSdkName)
    ensures Metrics.Project(locs, rs, RestSdkName).value[15 * k + j].resource.attributes[4] == ("telemetry.sdk.name", StringAttr("meteodata"))
    ensures Metrics.Project(locs, rs, RestSdkName).value[15 * k + j].measure == Metrics.Table[j]
  {
    Metrics.ProjectAt(locs, rs, RestSdkName, k, j);
  }

  /** The controller, its HTTP client, the ingestion endpoint and its two configured addresses. */
  class RestResource {
    const client: HttpClient
    const ingestion: Ingestion
    /** `restotelproxy.json-store-url`. */
    const jsonStoreUrl: string
    /** `restotelproxy.cis-url`. */
    const cisUrl: string
    /** `Double.toString`. */
    const showDouble: Double -> string

    constructor (client: HttpClient, ingestion: Ingestion, jsonStoreUrl: string, cisUrl: string, showDouble: Double -> string)
      ensures this.client == client && this.ingestion == ingestion
      ensures this.jsonStoreUrl == jsonStoreUrl && this.cisUrl == cisUrl && this.showDouble == showDouble
    {
      this.client := client;
      this.ingestion := ingestion;
      this.jsonStoreUrl := jsonStoreUrl;
      this.cisUrl := cisUrl;
      this.showDouble := showDouble;
    }

    /** `GET /`. */
    method GetRoot() returns (s: string)
      ensures s == "ok"
    {
      s := "ok";
    }

    /**
     * `emitMetrics`: the exporter for the trigger's headers, the index loop
     * over the locations, then the export, whose exception is caught.
     */
    method EmitMetrics(h: Headers, weatherResponse: seq<OpenMeteo.OpenMeteoResponse>, locations: seq<LocationModel.Location>)
      returns (o: Outcome<string>)
      modifies ingestion`metricBatches
      ensures o == (if Metrics.Project(locations, weatherResponse, RestSdkName).Ok? then Emit("ok") else Error)
      ensures ingestion.metricBatches == old(ingestion.metricBatches)
        + (if o.Emit? && ingestion.metricReply.Accepted?
           then [(ExporterFor(h, cisUrl), Metrics.Project(locations, weatherResponse, RestSdkName).value)]
           else [])
    {
      var exporter := BuildExporter(h, cisUrl);
      var metricData := Metrics.PrepareMetricData(locations, weatherResponse, RestSdkName);
      if metricData.Err? {
        return Error;
      }
      var _ := ingestion.ExportMetrics(exporter, metricData.value);
      o := Emit("ok");
    }

    /** The `map` over a status-200 listing: the forecast request, dispatched on the number of locations, then `emitMetrics`. */
    method OnListing(h: Headers, locations: seq<LocationModel.Location>) returns (o: Outcome<string>)
      modifies client`issued, ingestion`metricBatches
      ensures o == ListingOutcome(locations, client.weatherReply, client.weatherListReply)
      ensures client.issued == old(client.issued) + (if locations == [] then [] else [WeatherRequest(locations, showDouble)])
      ensures ingestion.metricBatches == old(ingestion.metricBatches)
        + (if o.Emit? && ingestion.metricReply.Accepted?
           then [(ExporterFor(h, cisUrl), ListingMetrics(locations, client.weatherReply, client.weatherListReply))]
           else [])
    {
      var latitudes := Join(Latitudes(locations, showDouble), ",");
      var longitudes := Join(Longitudes(locations, showDouble), ",");
      var meteoReq := Request(ForecastUrl, "", [("latitude", latitudes), ("longitude", longitudes),
        ("current", OpenMeteo.CurrentQuery)], [], ApplicationJson);
      var weather: Option<seq<OpenMeteo.OpenMeteoResponse>>;
      if |locations| > 1 {
        var list := client.ExchangeWeatherList(meteoReq);
        weather := Retrieve(list);
      } else if |locations| == 1 {
        var one := client.ExchangeWeather(meteoReq);
        weather := Retrieve(AsList(one));
      } else {
        return Empty;
      }
      if weather.None? {
        o := Error;
      } else {
        o := EmitMetrics(h, weather.value, locations);
      }
    }

    /** `postRoot`: the listing with the propagated headers, the status gate, then the forecast. */
    method PostRoot(h: Headers) returns (o: Outcome<string>)
      modifies client`issued, ingestion`metricBatches
      ensures o == PostRootOutcome(client.locationsReply, client.weatherReply, client.weatherListReply)
      ensures client.issued == old(client.issued) + PostRootRequests(jsonStoreUrl, h, showDouble, client.locationsReply)
      ensures ingestion.metricBatches == old(ingestion.metricBatches)
        + (if o == Emit("ok") && ingestion.metricReply.Accepted?
           then [(ExporterFor(h, cisUrl), PostRootMetrics(client.locationsReply, client.weatherReply, client.weatherListReply))]
           else [])
    {
      var entries := new HeaderSink();
      AddPropagatedHeaders(entries, h);
      assert [] + Propagated(h) == Propagated(h);
      var req := Request(jsonStoreUrl, LocationsPath, [("max", "999")], entries.entries, ApplicationJson);
      var reply := client.ExchangeLocations(req);
      match reply {
        case Failed =>
          o := Error;
        case Received(Response(status, body)) =>
          if status != 200 {
            o := Emit("not ok");
          } else if body.None? {
            o := Error;
          } else {
            var locations := LocationResponse.Locations(body.value.items);
            o := OnListing(h, locations);
            assert GatedLocations(reply) == Some(locations);
          }
      }
    }
  }
}
