/** OpenTelemetry values the function builds: resources and exporter configurations. */
module Telemetry {
  import opened Wrappers
  import opened Numbers
  import opened Headers

  /** An attribute value put into a resource: a string or a double. */
  datatype AttrValue = StringAttr(s: string) | DoubleAttr(d: Double)

  /** A `Resource`, as its builder's `put` calls produced it: the attributes in put order. */
  datatype Resource = Resource(attributes: seq<(string, AttrValue)>)

  /** The resource attached to every buffered log record. */
  const LogResource: Resource :=
    Resource([("meteodata.name", StringAttr("meteodata")), ("telemetry.sdk.name", StringAttr("SOLUTION_PREFIX"))])

  /** An OTLP gRPC exporter (metrics or logs) as built: the `addHeader` calls and the endpoint. */
  datatype Exporter = Exporter(headers: seq<OutHeader>, endpoint: string)

  /**
   * The exporter every stage builds: the propagated headers, then the three
   * identity headers, sent to `http://` followed by the ingestion address.
   */
  function ExporterFor(h: Headers, cisUrl: string): (e: Exporter)
    ensures e.headers == ExporterHeaders(h) && e.endpoint == "http://" + cisUrl
  {
    Exporter(ExporterHeaders(h), "http://" + cisUrl)
  }

  /**
   * The exporter's layout: every propagated header in order, then `appd-pid`,
   * `appd-pty` and `appd-tid` carrying the first inbound `appd-cpid`,
   * `appd-cpty` and `layer-id` values, and the `http://` endpoint.
   */
  lemma ExporterLayout(h: Headers, cisUrl: string)
    ensures var e := ExporterFor(h, cisUrl);
      |e.headers| == |Propagated(h)| + 3
      && e.headers[..|Propagated(h)|] == Propagated(h)
      && e.headers[|Propagated(h)|] == OutHeader("appd-pid", FirstValue(h, "appd-cpid"))
      && e.headers[|Propagated(h)| + 1] == OutHeader("appd-pty", FirstValue(h, "appd-cpty"))
      && e.headers[|Propagated(h)| + 2] == OutHeader("appd-tid", FirstValue(h, "layer-id"))
      && e.endpoint[..7] == "http://" && e.endpoint[7..] == cisUrl
  {
    ExporterHeadersShape(h);
  }

  /** `OtlpGrpc*Exporter.builder()`, its header loops and `setEndpoint(...).build()`. */
  method BuildExporter(h: Headers, cisUrl: string) returns (e: Exporter)
    ensures e == ExporterFor(h, cisUrl)
  {
    var builder := new HeaderSink();
    AddPropagatedHeaders(builder, h);
    ghost var propagated := builder.entries;
    assert propagated == Propagated(h) by { assert [] + Propagated(h) == Propagated(h); }
    AddIdentityHeaders(builder, h);
    var added := builder.entries;
    assert added == propagated + IdentityHeaders(h);
    e := Exporter(added, "http://" + cisUrl);
  }
}
