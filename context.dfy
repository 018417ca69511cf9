/**
 * `MeteoContext`: the request-scoped holder of what one run has learnt so
 * far, from the trigger's headers to the buffered log records.
 */
module Context {
  import opened Wrappers
  import opened Headers
  import ConfigModel
  import LocationModel
  import Telemetry
  import Logging

  class MeteoContext {
    var config: Option<ConfigModel.Config>
    var headers: Option<Headers>
    var locations: Option<seq<LocationModel.Location>>
    /** The log record exporter; logging is enabled exactly when it is set. */
    var logRecordExporter: Option<Telemetry.Exporter>
    /** The buffered records, oldest first (the deque is only ever appended to). */
    var logs: seq<Logging.LogRecord>
    var logResource: Option<Telemetry.Resource>

    /** A fresh context: every reference null and the buffer empty. */
    constructor ()
      ensures config.None? && headers.None? && locations.None?
      ensures logRecordExporter.None? && logs == [] && logResource.None?
    {
      config := None;
      headers := None;
      locations := None;
      logRecordExporter := None;
      logs := [];
      logResource := None;
    }

    method SetConfig(c: Option<ConfigModel.Config>)
      modifies this`config
      ensures config == c
    {
      config := c;
    }

    method SetHeaders(h: Headers)
      modifies this`headers
      ensures headers == Some(h)
    {
      headers := Some(h);
    }

    method SetLocations(l: seq<LocationModel.Location>)
      modifies this`locations
      ensures locations == Some(l)
    {
      locations := Some(l);
    }

    method SetLogRecordExporter(e: Telemetry.Exporter)
      modifies this`logRecordExporter
      ensures logRecordExporter == Some(e)
    {
      logRecordExporter := Some(e);
    }

    method SetLogResource(r: Telemetry.Resource)
      modifies this`logResource
      ensures logResource == Some(r)
    {
      logResource := Some(r);
    }

    method AddLogRecord(r: Logging.LogRecord)
      modifies this`logs
      ensures logs == old(logs) + [r]
    {
      logs := logs + [r];
    }
  }
}
