# Meteodata zodiac function and bank service, modelled in Dafny

This project models two small services.

**The meteodata zodiac function.** A Micronaut function triggered by a cron job. On each run it does the following:

1. It reads its configuration (a tenant log level) and a list of locations from the knowledge store.
2. It asks the Open-Meteo forecast API for the current weather at every location in one batch.
3. It turns each location's reply into fifteen OpenTelemetry gauges that share one resource and a one-minute window.
4. It exports those gauges to the ingestion endpoint.
5. When the configuration enables logging, it also exports the log records it buffered in its request-scoped `MeteoContext`, filtered by the configured level.

Inbound headers are propagated by a case-insensitive allow-list. The propagation targets are the knowledge-store requests and the exporters. `RestResource` is an older controller variant of the same projection. It differs in these ways:

- a status-200 gate and a "not ok" reply;
- a different `telemetry.sdk.name`;
- an export exception that is caught.

**The bank service.** A Go CloudEvents receiver. It keeps a wrapping 32-bit balance that each received transaction credits or debits. After every transaction it sends an audit event carrying the new balance.

## How the model is organised

| File | Module | Content |
|---|---|---|
| `wrappers.dfy` | `Wrappers` | `Option` and `Result` |
| `numbers.dfy` | `Numbers` | Java `int`/`long` and Go `int32`/`int`, with explicit two's-complement wrap-around; `Double` as an opaque 64-bit pattern |
| `text.dfy` | `Text` | ASCII case mapping, `Collectors.joining` and its inverse, `isBlank`, decimal rendering of integers |
| `config.dfy`, `config_response.dfy` | `ConfigModel`, `ConfigResponse` | `Config` with its level parse and `toString`; the `data`/`patch` reply wrapper |
| `location.dfy`, `location_response.dfy` | `LocationModel`, `LocationResponse` | `Location` and the `items`/`total` listing page |
| `open_meteo.dfy` | `OpenMeteo` | `OpenMeteoResponse`/`Current`, the JSON binding of the block's members, the `current` query |
| `headers.dfy` | `Headers` | the allow-list filter, `addPropagatedHeaders` as loops over a `HeaderSink`, `HttpHeaders.get`, the identity headers |
| `telemetry.dfy` | `Telemetry` | resources and the exporter every stage builds |
| `http.dfy` | `Http` | the HTTP client and ingestion endpoint as classes with fixed replies that record what they are sent |
| `context.dfy` | `Context` | `MeteoContext` as a class with its setters and the log buffer |
| `java_time.dfy` | `JavaTime` | `Instant.parse` of `yyyy-MM-ddTHH:mm:ssZ` with a days-from-civil epoch-day count |
| `logging.dfy` | `Logging` | severities, the record one `log` call buffers, the export filter, the observed time |
| `metrics.dfy` | `Metrics` | the fifteen-gauge table, `processLocation`, the window helpers, the index loop of `prepareMetricData`/`emitMetrics` |
| `pipeline.dfy` | `Pipeline` | what each stage of the reactive chain computes, logs and passes on, as pure functions; the run's status and requests |
| `zodiac.dfy` | `Zodiac` | `MeteoZodiacFunction` as a class whose stage methods act on the context, client and ingestion objects, proved against `Pipeline` |
| `rest_resource.dfy` | `Rest` | `RestResource` |
| `bank_common.dfy` | `BankCommon` | `Transaction` with its `encoding/json` binding, and `getEnv` |
| `bank.dfy` | `Bank` | the balance update, the audit event and the service's package-level state as a class |

**Stage outcomes and the pipeline.** Each reactive stage's `Flux` is an `Outcome`: `Emit(v)`, `Empty` (completes without a value) or `Error` (the error signal). The chain of `flatMap`s is modelled faithfully:

- `Empty` ends the run without a status;
- `Error` reaches the final `onErrorResume` and becomes "error".

Each stage is a method of `Zodiac.MeteoZodiacFunction` that calls the next one. Its contract ties the new state of the context, the client and the ingestion endpoint to `Pipeline`'s functions. `ReportMeteoData` then states the whole run:

- its status, `Pipeline.RunStatus`;
- its requests;
- the metric batch it exports;
- that every exported log record passes the configured level.

**Parameters instead of foreign code.**

- `Double.toString` is the parameter `showDouble`.
- The `toString` of Micronaut and OpenTelemetry values put into log calls is the parameter `show`.
- The network is the replies fixed when `Http.HttpClient` and `Http.Ingestion` are constructed.
- The Go process environment is the map given to `Bank.BankService`'s constructor.

**RestResource's types.** `RestResource` reads the listing as `KnowledgeResponseWrapper` and `KnowledgeLocation`, which are not part of this model. They have the same `items`/`data` shape and accessors as `LocationResponseWrapper` and `Location`, which the model uses in their place. The controller's `processLocation` and window helpers (`RestResource.java:256-452`) are the same as the function's. They are modelled once, in `Metrics`, whose projection takes the `telemetry.sdk.name` as a parameter:

- `"SOLUTION_PREFIX"` in the function;
- `"meteodata"` in the controller.

**Where the code and the design description differ, the model follows the code.**

- A failed or undecodable configuration fetch ends the run with no value at all. The run does not go on with logging disabled (`MeteoZodiacFunction.java:167-170`).
- Zero locations also end the run with no value, not "ok" (`MeteoZodiacFunction.java:310`).
- A failed forecast exchange or a reply without a body is an error signal, so the run reports "error".
- The log buffer is never drained.
- The status of the run does not depend on the log export's own result.

## Model

| member | source | states |
|---|---|---|
| Text.ToLowerOfToUpper | example/meteodata/open-meteo-zodiac/src/main/java/com/pavelbucek/zodiac/openmeteo/MeteoZodiacFunction.java:714 | lowercasing a name forgets its original ASCII casing, so an upper-cased header name lowercases like the original |
| Text.ToLowerIdempotent | example/meteodata/open-meteo-zodiac/src/main/java/com/pavelbucek/zodiac/openmeteo/MeteoZodiacFunction.java:714 | lowercasing an already lowercased name changes nothing |
| Text.Split | example/meteodata/open-meteo-zodiac/src/main/java/com/pavelbucek/zodiac/openmeteo/MeteoZodiacFunction.java:273-278 | splitting always gives at least one piece (the reading-back partner of `Collectors.joining`) |
| Text.SplitJoin | example/meteodata/open-meteo-zodiac/src/main/java/com/pavelbucek/zodiac/openmeteo/MeteoZodiacFunction.java:273-278 | a `Collectors.joining` with a one-character separator that occurs in no part is undone by splitting at that character |
| Text.JoinAppend | example/meteodata/open-meteo-zodiac/src/main/java/com/pavelbucek/zodiac/openmeteo/MeteoZodiacFunction.java:273-278 | joining two runs of parts is joining the two joined runs with one more separator |
| Text.JoinLength | example/meteodata/open-meteo-zodiac/src/main/java/com/pavelbucek/zodiac/openmeteo/MeteoZodiacFunction.java:273-278 | the joined string adds exactly one separator between consecutive parts and nothing else |
| Text.ListToString | example/meteodata/open-meteo-zodiac/src/main/java/com/pavelbucek/zodiac/openmeteo/MeteoZodiacFunction.java:250 | `List.toString()` is bracketed by `[` and `]`, is `[]` for no items, is as long as the items plus two characters each, and starts with the first item right after `[` |
| Text.JoinAt | example/meteodata/open-meteo-zodiac/src/main/java/com/pavelbucek/zodiac/openmeteo/MeteoZodiacFunction.java:250 | part i of a joined string sits after all earlier parts and one separator each, followed by a separator unless it is the last |
| Text.ListItemAt | example/meteodata/open-meteo-zodiac/src/main/java/com/pavelbucek/zodiac/openmeteo/MeteoZodiacFunction.java:250 | every item appears in order in `List.toString()`, at offset one plus the earlier items' lengths plus two per earlier item, each but the last followed by `, ` |
| Text.ListText | example/meteodata/open-meteo-zodiac/src/main/java/com/pavelbucek/zodiac/openmeteo/MeteoZodiacFunction.java:250 | `List.toString()` of rendered elements: bracketed, `[]` when empty, its exact length, and the first element's text right after `[` |
| Text.ListTextAt | example/meteodata/open-meteo-zodiac/src/main/java/com/pavelbucek/zodiac/openmeteo/MeteoZodiacFunction.java:324 | every element's text appears in order at its offset in `List.toString()`, separated by `, ` |
| Text.IntToStringRoundTrip | example/custom-service-messaging/services/bank/bank.go:32 | the decimal rendering of an integer (`fmt.Sprint`, `Integer.toString`) reads back to the same integer |
| Numbers.Wrap32 | example/custom-service-messaging/services/bank/bank.go:27-29 | Go `int32(x)` and 32-bit atomic addition: the result is congruent to x modulo 2^32 and equals x when x fits |
| Numbers.Wrap64 | example/meteodata/open-meteo-zodiac/src/main/java/com/pavelbucek/zodiac/openmeteo/MeteoZodiacFunction.java:368 | Java `long` arithmetic: the result is congruent to x modulo 2^64 and equals x when x fits |
| Numbers.Wrap32Congruent | example/custom-service-messaging/services/bank/bank.go:27-29 | values congruent modulo 2^32 wrap to the same `int32` |
| Numbers.Wrap64Congruent | example/meteodata/open-meteo-zodiac/src/main/java/com/pavelbucek/zodiac/openmeteo/MeteoZodiacFunction.java:368 | values congruent modulo 2^64 wrap to the same `long` |
| ConfigModel.ParseLogLevel | example/meteodata/open-meteo-zodiac/src/main/java/com/pavelbucek/zodiac/openmeteo/model/Config.java:20 | a null level throws NullPointerException; otherwise the result is the level whose name is the upper-cased text, or IllegalArgumentException when no level has that name |
| ConfigModel.NewConfig | example/meteodata/open-meteo-zodiac/src/main/java/com/pavelbucek/zodiac/openmeteo/model/Config.java:16-21 | the constructor succeeds exactly when the level parses, keeps the name, and throws the level parser's exception otherwise |
| ConfigModel.LevelAcceptedInAnyCase | example/meteodata/open-meteo-zodiac/src/main/java/com/pavelbucek/zodiac/openmeteo/model/Config.java:20 | any spelling whose upper-casing is a level name parses to that level |
| ConfigModel.LowerCaseLevelsParse | example/meteodata/open-meteo-zodiac/src/main/java/com/pavelbucek/zodiac/openmeteo/model/Config.java:20 | the lower-case spelling of each level parses to that level |
| ConfigModel.UnknownLevelsRefused | example/meteodata/open-meteo-zodiac/src/main/java/com/pavelbucek/zodiac/openmeteo/model/Config.java:20 | "", "WARN" and null are refused: there is no default level |
| ConfigModel.ToString | example/meteodata/open-meteo-zodiac/src/main/java/com/pavelbucek/zodiac/openmeteo/model/Config.java:37-43 | `toString` has the expected length and begins with `Config{name='` followed by the name |
| ConfigModel.ToStringInjective | example/meteodata/open-meteo-zodiac/src/main/java/com/pavelbucek/zodiac/openmeteo/model/Config.java:37-43 | two configurations with the same rendering are equal |
| ConfigResponse.DecodeMember | example/meteodata/open-meteo-zodiac/src/main/java/com/pavelbucek/zodiac/openmeteo/model/ConfigResponseWrapper.java:15-20 | a null member stays null, and any other member goes through the `Config` constructor and succeeds exactly when it does |
| ConfigResponse.Decode | example/meteodata/open-meteo-zodiac/src/main/java/com/pavelbucek/zodiac/openmeteo/model/ConfigResponseWrapper.java:15-20 | the reply decodes exactly when both `data` and `patch` construct, and then carries both |
| ConfigResponse.BadPatchRejects | example/meteodata/open-meteo-zodiac/src/main/java/com/pavelbucek/zodiac/openmeteo/model/ConfigResponseWrapper.java:15-20 | an unparsable level in the `patch` alone rejects the whole reply |
| ConfigResponse.ConfigIgnoresPatch | example/meteodata/open-meteo-zodiac/src/main/java/com/pavelbucek/zodiac/openmeteo/model/ConfigResponseWrapper.java:22-24 | `getConfig` does not depend on the patch |
| ConfigResponse.ToString | example/meteodata/open-meteo-zodiac/src/main/java/com/pavelbucek/zodiac/openmeteo/model/ConfigResponseWrapper.java:30-36 | `toString` has the expected length and is `ConfigResponseWrapper{config=`, the configuration's text, `, configPatch=`, the patch's text and `}`, each at its position |
| ConfigResponse.ConfigTextInjective | example/meteodata/open-meteo-zodiac/src/main/java/com/pavelbucek/zodiac/openmeteo/model/ConfigResponseWrapper.java:30-36 | distinct configurations, or a configuration and null, print differently |
| ConfigResponse.MemberReadBack | example/meteodata/open-meteo-zodiac/src/main/java/com/pavelbucek/zodiac/openmeteo/model/ConfigResponseWrapper.java:30-36 | two wrappers that agree on one member and print alike are equal: the text gives back the other member |
| ConfigResponse.EmptyWrapperText | example/meteodata/open-meteo-zodiac/src/main/java/com/pavelbucek/zodiac/openmeteo/model/ConfigResponseWrapper.java:30-36 | a reply without configurations renders both members as null |
| LocationModel.TakeUntilPrefix | example/meteodata/open-meteo-zodiac/src/main/java/com/pavelbucek/zodiac/openmeteo/model/Location.java:38-44 | reading up to the first quote gives back a quote-free prefix |
| LocationModel.ToString | example/meteodata/open-meteo-zodiac/src/main/java/com/pavelbucek/zodiac/openmeteo/model/Location.java:38-44 | the rendering starts with `KnowledgeLocation{name='` |
| LocationModel.NameReadBack | example/meteodata/open-meteo-zodiac/src/main/java/com/pavelbucek/zodiac/openmeteo/model/Location.java:38-44 | a name without a quote can be read back from the rendering |
| LocationResponse.Locations | example/meteodata/open-meteo-zodiac/src/main/java/com/pavelbucek/zodiac/openmeteo/model/LocationResponseWrapper.java:44-46 | the locations are the items' `data` members, one per item, in reply order |
| LocationResponse.LocationsAppend | example/meteodata/open-meteo-zodiac/src/main/java/com/pavelbucek/zodiac/openmeteo/MeteoZodiacFunction.java:246-248 | collecting the locations of two runs of items is concatenating their locations |
| OpenMeteo.FieldNamed | example/meteodata/open-meteo-zodiac/src/main/java/com/pavelbucek/zodiac/openmeteo/model/OpenMeteoResponse.java:67-83 | a JSON member binds to the parameter whose `@JsonProperty` name it is |
| OpenMeteo.FieldNamedJsonName | example/meteodata/open-meteo-zodiac/src/main/java/com/pavelbucek/zodiac/openmeteo/model/OpenMeteoResponse.java:67-83 | every parameter is found again under its JSON name |
| OpenMeteo.JsonNamesDistinct | example/meteodata/open-meteo-zodiac/src/main/java/com/pavelbucek/zodiac/openmeteo/model/OpenMeteoResponse.java:67-83 | no two parameters share a JSON name |
| OpenMeteo.Get | example/meteodata/open-meteo-zodiac/src/main/java/com/pavelbucek/zodiac/openmeteo/model/OpenMeteoResponse.java:102-164 | `time` is the only text getter; the integer getters are exactly those of humidity, is_day, weather code and cloud cover; `getPercipitation` returns the `precipitation` member |
| OpenMeteo.CurrentQueryJoined | example/meteodata/open-meteo-zodiac/src/main/java/com/pavelbucek/zodiac/openmeteo/MeteoZodiacFunction.java:283-289 | the `current` query parameter is the fifteen requested variables joined with commas |
| OpenMeteo.CurrentQueryVariables | example/meteodata/open-meteo-zodiac/src/main/java/com/pavelbucek/zodiac/openmeteo/MeteoZodiacFunction.java:283-289 | splitting the `current` parameter at its commas gives exactly the fifteen requested variables |
| OpenMeteo.RequestedAreMeasurements | example/meteodata/open-meteo-zodiac/src/main/java/com/pavelbucek/zodiac/openmeteo/model/OpenMeteoResponse.java:67-83 | every requested variable binds to a parameter other than `time`, and every parameter but `time` is requested |
| OpenMeteo.HumidityNotRendered | example/meteodata/open-meteo-zodiac/src/main/java/com/pavelbucek/zodiac/openmeteo/model/OpenMeteoResponse.java:167-185 | `Current.toString` leaves out the relative humidity: blocks differing only there render alike |
| Headers.Filter | example/meteodata/open-meteo-zodiac/src/main/java/com/pavelbucek/zodiac/openmeteo/MeteoZodiacFunction.java:714 | the filtered multimap holds exactly the inbound headers whose lowercased name is on the allow-list |
| Headers.PropagatedAppend | example/meteodata/open-meteo-zodiac/src/main/java/com/pavelbucek/zodiac/openmeteo/MeteoZodiacFunction.java:712-719 | propagating two runs of inbound headers propagates each in turn |
| Headers.PropagatedStep | example/meteodata/open-meteo-zodiac/src/main/java/com/pavelbucek/zodiac/openmeteo/MeteoZodiacFunction.java:713-717 | one more inbound header adds its own `add` calls after those of the headers before it |
| Headers.ValuesOfAppend | example/meteodata/open-meteo-zodiac/src/main/java/com/pavelbucek/zodiac/openmeteo/MeteoZodiacFunction.java:715 | the values of a header are added in order |
| Headers.ValuesOfMember | example/meteodata/open-meteo-zodiac/src/main/java/com/pavelbucek/zodiac/openmeteo/MeteoZodiacFunction.java:715 | a header value is added exactly when it is one of the header's values, under the header's own name |
| Headers.PropagatedMember | example/meteodata/open-meteo-zodiac/src/main/java/com/pavelbucek/zodiac/openmeteo/MeteoZodiacFunction.java:712-719 | a (name, value) pair is propagated if and only if some inbound header of that name passes the allow-list and carries the value |
| Headers.PropagatedNonNull | example/meteodata/open-meteo-zodiac/src/main/java/com/pavelbucek/zodiac/openmeteo/MeteoZodiacFunction.java:712-719 | every propagated header has a value and a name on the allow-list |
| Headers.FilterIdempotent | example/meteodata/open-meteo-zodiac/src/main/java/com/pavelbucek/zodiac/openmeteo/MeteoZodiacFunction.java:714 | filtering twice is filtering once |
| Headers.PropagatedOfFilter | example/meteodata/open-meteo-zodiac/src/main/java/com/pavelbucek/zodiac/openmeteo/MeteoZodiacFunction.java:712-719 | propagating from the filtered headers gives the same calls as from all of them |
| Headers.UpperCaseNamesPropagate | example/meteodata/open-meteo-zodiac/src/main/java/com/pavelbucek/zodiac/openmeteo/MeteoZodiacFunction.java:714 | the allow-list ignores the casing of a name |
| Headers.SameLowerSamePropagation | example/meteodata/open-meteo-zodiac/src/main/java/com/pavelbucek/zodiac/openmeteo/MeteoZodiacFunction.java:714 | names that differ only in ASCII case are treated alike |
| Headers.FirstValue | example/meteodata/open-meteo-zodiac/src/main/java/com/pavelbucek/zodiac/openmeteo/MeteoZodiacFunction.java:408-410 | `HttpHeaders.get` is the first value of the first header whose name matches ignoring case, or null when there is none |
| Headers.FirstValueAnyCase | example/meteodata/open-meteo-zodiac/src/main/java/com/pavelbucek/zodiac/openmeteo/MeteoZodiacFunction.java:408-410 | a header sent under an upper-case name is found under its lower-case name |
| Headers.ExporterHeadersShape | example/meteodata/open-meteo-zodiac/src/main/java/com/pavelbucek/zodiac/openmeteo/MeteoZodiacFunction.java:399-412 | an exporter gets all propagated headers first, then appd-pid, appd-pty and appd-tid taken from appd-cpid, appd-cpty and layer-id |
| Headers.HeaderSink.Add | example/meteodata/open-meteo-zodiac/src/main/java/com/pavelbucek/zodiac/openmeteo/MeteoZodiacFunction.java:715 | one `add` call appends one header entry |
| Headers.AddValues | example/meteodata/open-meteo-zodiac/src/main/java/com/pavelbucek/zodiac/openmeteo/MeteoZodiacFunction.java:715 | the inner `forEach` appends one entry per value, in order |
| Headers.AddPropagatedHeaders | example/meteodata/open-meteo-zodiac/src/main/java/com/pavelbucek/zodiac/openmeteo/MeteoZodiacFunction.java:712-719 | the sink gains exactly the propagated headers, in inbound order |
| Headers.AddIdentityHeaders | example/meteodata/open-meteo-zodiac/src/main/java/com/pavelbucek/zodiac/openmeteo/MeteoZodiacFunction.java:408-410 | the three identity headers are appended |
| Telemetry.ExporterLayout | example/meteodata/open-meteo-zodiac/src/main/java/com/pavelbucek/zodiac/openmeteo/MeteoZodiacFunction.java:399-412 | the exporter carries every propagated header in order, then appd-pid, appd-pty and appd-tid with the first appd-cpid, appd-cpty and layer-id values, and the endpoint `http://` followed by the ingestion address |
| Telemetry.BuildExporter | example/meteodata/open-meteo-zodiac/src/main/java/com/pavelbucek/zodiac/openmeteo/MeteoZodiacFunction.java:399-412 | building an exporter gives `ExporterFor` of the trigger headers |
| Http.DecodeConfigExchange | example/meteodata/open-meteo-zodiac/src/main/java/com/pavelbucek/zodiac/openmeteo/model/ConfigResponseWrapper.java:15-20 | a reply whose `data` or `patch` the `Config` constructor refuses fails the exchange; otherwise the status and the decoded page are kept |
| Http.Retrieve | example/meteodata/open-meteo-zodiac/src/main/java/com/pavelbucek/zodiac/openmeteo/RestResource.java:155-157 | `retrieve` yields the body exactly when the exchange succeeds with a body |
| Http.HttpClient.ExchangeConfig | example/meteodata/open-meteo-zodiac/src/main/java/com/pavelbucek/zodiac/openmeteo/MeteoZodiacFunction.java:154 | the request is recorded and the decoded config reply returned |
| Http.HttpClient.ExchangeLocations | example/meteodata/open-meteo-zodiac/src/main/java/com/pavelbucek/zodiac/openmeteo/MeteoZodiacFunction.java:235 | the request is recorded and the locations reply returned |
| Http.HttpClient.ExchangeWeather | example/meteodata/open-meteo-zodiac/src/main/java/com/pavelbucek/zodiac/openmeteo/MeteoZodiacFunction.java:304 | the request is recorded and the single-location reply returned |
| Http.HttpClient.ExchangeWeatherList | example/meteodata/open-meteo-zodiac/src/main/java/com/pavelbucek/zodiac/openmeteo/MeteoZodiacFunction.java:302 | the request is recorded and the batch reply returned |
| Http.Ingestion.ExportMetrics | example/meteodata/open-meteo-zodiac/src/main/java/com/pavelbucek/zodiac/openmeteo/MeteoZodiacFunction.java:420 | an accepted batch is recorded with its exporter; a throwing export records nothing |
| Http.Ingestion.ExportLogs | example/meteodata/open-meteo-zodiac/src/main/java/com/pavelbucek/zodiac/openmeteo/MeteoZodiacFunction.java:489 | an accepted batch is recorded with its exporter; a throwing export records nothing |
| Context.MeteoContext.constructor | example/meteodata/open-meteo-zodiac/src/main/java/com/pavelbucek/zodiac/openmeteo/MeteoContext.java:24-29 | a fresh context holds nulls and an empty buffer |
| Context.MeteoContext.SetConfig | example/meteodata/open-meteo-zodiac/src/main/java/com/pavelbucek/zodiac/openmeteo/MeteoContext.java:35-37 | the configuration is replaced |
| Context.MeteoContext.SetHeaders | example/meteodata/open-meteo-zodiac/src/main/java/com/pavelbucek/zodiac/openmeteo/MeteoContext.java:43-45 | the headers are replaced |
| Context.MeteoContext.SetLocations | example/meteodata/open-meteo-zodiac/src/main/java/com/pavelbucek/zodiac/openmeteo/MeteoContext.java:51-53 | the locations are replaced |
| Context.MeteoContext.SetLogRecordExporter | example/meteodata/open-meteo-zodiac/src/main/java/com/pavelbucek/zodiac/openmeteo/MeteoContext.java:59-61 | the log record exporter is replaced |
| Context.MeteoContext.SetLogResource | example/meteodata/open-meteo-zodiac/src/main/java/com/pavelbucek/zodiac/openmeteo/MeteoContext.java:63-65 | the log resource is replaced |
| Context.MeteoContext.AddLogRecord | example/meteodata/open-meteo-zodiac/src/main/java/com/pavelbucek/zodiac/openmeteo/MeteoContext.java:71-73 | the record is appended to the buffer |
| JavaTime.DaysInMonth | example/meteodata/open-meteo-zodiac/src/main/java/com/pavelbucek/zodiac/openmeteo/MeteoZodiacFunction.java:367 | every month has 28 to 31 days |
| JavaTime.NextDay | example/meteodata/open-meteo-zodiac/src/main/java/com/pavelbucek/zodiac/openmeteo/MeteoZodiacFunction.java:367 | the day after a valid date is a valid date |
| JavaTime.EpochDayOrigin | example/meteodata/open-meteo-zodiac/src/main/java/com/pavelbucek/zodiac/openmeteo/MeteoZodiacFunction.java:367 | 1970-01-01 is epoch day 0 |
| JavaTime.YearLength | example/meteodata/open-meteo-zodiac/src/main/java/com/pavelbucek/zodiac/openmeteo/MeteoZodiacFunction.java:367 | a year has 366 days when it is a leap year and 365 otherwise |
| JavaTime.EpochDayNext | example/meteodata/open-meteo-zodiac/src/main/java/com/pavelbucek/zodiac/openmeteo/MeteoZodiacFunction.java:367 | consecutive calendar days have consecutive epoch days |
| JavaTime.ParseInstant | example/meteodata/open-meteo-zodiac/src/main/java/com/pavelbucek/zodiac/openmeteo/MeteoZodiacFunction.java:367 | only a well-formed `yyyy-MM-ddTHH:mm:ssZ` text parses, and the instant has no fraction of a second |
| JavaTime.MinuteText | example/meteodata/open-meteo-zodiac/src/main/java/com/pavelbucek/zodiac/openmeteo/MeteoZodiacFunction.java:367 | the forecast API's minute-precision time is sixteen characters |
| JavaTime.MinuteTextFields | example/meteodata/open-meteo-zodiac/src/main/java/com/pavelbucek/zodiac/openmeteo/MeteoZodiacFunction.java:367 | the time completed with `:00Z` is well formed and each field reads back as written |
| JavaTime.MinuteTextParses | example/meteodata/open-meteo-zodiac/src/main/java/com/pavelbucek/zodiac/openmeteo/MeteoZodiacFunction.java:367 | a valid minute completed with `:00Z` parses to the second it names since the epoch, in UTC |
| JavaTime.NewYear2024 | example/meteodata/open-meteo-zodiac/src/main/java/com/pavelbucek/zodiac/openmeteo/MeteoZodiacFunction.java:367 | 2024-01-01T10:00 parses to epoch second 1704103200 |
| JavaTime.SecondsTwiceRefused | example/meteodata/open-meteo-zodiac/src/main/java/com/pavelbucek/zodiac/openmeteo/MeteoZodiacFunction.java:367 | every 19-character time, one that already carries seconds, is refused once `:00Z` is appended |
| JavaTime.LeapDayChecked | example/meteodata/open-meteo-zodiac/src/main/java/com/pavelbucek/zodiac/openmeteo/MeteoZodiacFunction.java:367 | 29 February of a reported minute parses exactly when the year is a leap year |
| Logging.SeverityNumber | example/meteodata/open-meteo-zodiac/src/main/java/com/pavelbucek/zodiac/openmeteo/MeteoZodiacFunction.java:758 | each level maps to the severity number of the OpenTelemetry severity of the same name, one of 1, 5, 9, 13 and 17 |
| Logging.SeverityOrdered | example/meteodata/open-meteo-zodiac/src/main/java/com/pavelbucek/zodiac/openmeteo/MeteoZodiacFunction.java:758 | TRACE, DEBUG and INFO have increasing severity numbers, so the INFO filter at severity 9 drops exactly TRACE and DEBUG |
| Logging.MakeBody | example/meteodata/open-meteo-zodiac/src/main/java/com/pavelbucek/zodiac/openmeteo/MeteoZodiacFunction.java:779 | a blank text gives an empty body; any other text is kept as it is |
| Logging.AttributesOf | example/meteodata/open-meteo-zodiac/src/main/java/com/pavelbucek/zodiac/openmeteo/MeteoZodiacFunction.java:753-754 | the record has an attribute for every content key and for nothing else |
| Logging.ParamsColon | example/meteodata/open-meteo-zodiac/src/main/java/com/pavelbucek/zodiac/openmeteo/MeteoZodiacFunction.java:749-751 | the parameter text of non-empty content has a colon right after the first key |
| Logging.BodyEmptyIff | example/meteodata/open-meteo-zodiac/src/main/java/com/pavelbucek/zodiac/openmeteo/MeteoZodiacFunction.java:760 | the body is empty exactly when the message is empty and there is no content; a non-empty message gives `message; params` |
| Logging.SelectForExport | example/meteodata/open-meteo-zodiac/src/main/java/com/pavelbucek/zodiac/openmeteo/MeteoZodiacFunction.java:468-477 | the exported batch holds exactly the buffered records the level lets through (at INFO those of severity 9 and above, at DEBUG all of them) and is never longer than the buffer |
| Logging.SelectAppend | example/meteodata/open-meteo-zodiac/src/main/java/com/pavelbucek/zodiac/openmeteo/MeteoZodiacFunction.java:468-477 | filtering keeps the buffer's order |
| Logging.SelectIdempotent | example/meteodata/open-meteo-zodiac/src/main/java/com/pavelbucek/zodiac/openmeteo/MeteoZodiacFunction.java:468-477 | filtering an exported batch again changes nothing |
| Logging.DebugDroppedAtInfo | example/meteodata/open-meteo-zodiac/src/main/java/com/pavelbucek/zodiac/openmeteo/MeteoZodiacFunction.java:471-473 | at INFO the debug and trace records are dropped and the others kept |
| Logging.Buffered | example/meteodata/open-meteo-zodiac/src/main/java/com/pavelbucek/zodiac/openmeteo/MeteoZodiacFunction.java:746-761 | a run of `log` calls buffers one record per call while an exporter is set and nothing otherwise |
| Logging.BufferedAppend | example/meteodata/open-meteo-zodiac/src/main/java/com/pavelbucek/zodiac/openmeteo/MeteoZodiacFunction.java:746-761 | buffering two runs of calls in turn is buffering the joined run |
| Logging.ObservedNanos | example/meteodata/open-meteo-zodiac/src/main/java/com/pavelbucek/zodiac/openmeteo/MeteoZodiacFunction.java:798-800 | the corrected observed time is the epoch second times 10^9, exact between 1677 and 2262 |
| Logging.ObservedNanosSeconds | example/meteodata/open-meteo-zodiac/src/main/java/com/pavelbucek/zodiac/openmeteo/MeteoZodiacFunction.java:798-800 | the corrected observed time reads back as the clock's second |
| Logging.ObservedNanosAsWrittenIsMicroseconds | example/meteodata/open-meteo-zodiac/src/main/java/com/pavelbucek/zodiac/openmeteo/MeteoZodiacFunction.java:798-800 | as written, a record made at 2024-01-01T10:00:00Z reports an observed time under twenty days after the epoch, unlike the corrected value |
| Metrics.EpochNanosExact | example/meteodata/open-meteo-zodiac/src/main/java/com/pavelbucek/zodiac/openmeteo/MeteoZodiacFunction.java:368 | between 1677 and 2262 the nanosecond timestamp is exact |
| Metrics.WindowLength | example/meteodata/open-meteo-zodiac/src/main/java/com/pavelbucek/zodiac/openmeteo/MeteoZodiacFunction.java:704-710 | every gauge window is one minute long modulo 2^64, and exactly one minute unless the start underflows |
| Metrics.PointIsGetterValue | example/meteodata/open-meteo-zodiac/src/main/java/com/pavelbucek/zodiac/openmeteo/MeteoZodiacFunction.java:514-701 | each gauge point carries the value of its own getter, and the long gauges are exactly the integer measurements |
| Metrics.LocationMetrics | example/meteodata/open-meteo-zodiac/src/main/java/com/pavelbucek/zodiac/openmeteo/MeteoZodiacFunction.java:514-701 | `processLocation` returns fifteen metrics |
| Metrics.LocationMetricsAt | example/meteodata/open-meteo-zodiac/src/main/java/com/pavelbucek/zodiac/openmeteo/MeteoZodiacFunction.java:514-701 | metric j of a location is measurement j of the table, with the location's resource and window |
| Metrics.ProcessLocation | example/meteodata/open-meteo-zodiac/src/main/java/com/pavelbucek/zodiac/openmeteo/MeteoZodiacFunction.java:514-701 | the fifteen `add` calls produce `LocationMetrics` |
| Metrics.InTable | example/meteodata/open-meteo-zodiac/src/main/java/com/pavelbucek/zodiac/openmeteo/MeteoZodiacFunction.java:514-701 | every measurement but the time stamp becomes a metric |
| Metrics.MetricNamesAreJsonNames | example/meteodata/open-meteo-zodiac/src/main/java/com/pavelbucek/zodiac/openmeteo/MeteoZodiacFunction.java:514-701 | each metric is named after the JSON member it is read from |
| Metrics.MetricNamesDistinct | example/meteodata/open-meteo-zodiac/src/main/java/com/pavelbucek/zodiac/openmeteo/MeteoZodiacFunction.java:514-701 | no two metrics of a location share a name |
| Metrics.MetricsCoverRequest | example/meteodata/open-meteo-zodiac/src/main/java/com/pavelbucek/zodiac/openmeteo/MeteoZodiacFunction.java:283-289 | a variable is requested if and only if a metric of that name is emitted |
| Metrics.ProjectOne | example/meteodata/open-meteo-zodiac/src/main/java/com/pavelbucek/zodiac/openmeteo/MeteoZodiacFunction.java:359-370 | one iteration succeeds exactly when the reply has a `current` block whose time parses, and gives that location's fifteen metrics |
| Metrics.Attempts | example/meteodata/open-meteo-zodiac/src/main/java/com/pavelbucek/zodiac/openmeteo/MeteoZodiacFunction.java:352-371 | one attempt per location, iteration k pairing location k with reply k |
| Metrics.PrepareMetricData | example/meteodata/open-meteo-zodiac/src/main/java/com/pavelbucek/zodiac/openmeteo/MeteoZodiacFunction.java:347-377 | the index loop computes the projection: all metrics in location order, or the first exception |
| Metrics.CollectOkIff | example/meteodata/open-meteo-zodiac/src/main/java/com/pavelbucek/zodiac/openmeteo/MeteoZodiacFunction.java:352-371 | the loop succeeds if and only if no iteration throws |
| Metrics.CollectFirstError | example/meteodata/open-meteo-zodiac/src/main/java/com/pavelbucek/zodiac/openmeteo/MeteoZodiacFunction.java:373-374 | the error reported is that of the first iteration that throws |
| Metrics.CollectAt | example/meteodata/open-meteo-zodiac/src/main/java/com/pavelbucek/zodiac/openmeteo/MeteoZodiacFunction.java:352-371 | metric 15·k + j of the loop is metric j of iteration k |
| Metrics.CollectLength | example/meteodata/open-meteo-zodiac/src/main/java/com/pavelbucek/zodiac/openmeteo/MeteoZodiacFunction.java:352-371 | a successful loop yields fifteen metrics per iteration |
| Metrics.ProjectOkIff | example/meteodata/open-meteo-zodiac/src/main/java/com/pavelbucek/zodiac/openmeteo/MeteoZodiacFunction.java:352-371 | the projection succeeds if and only if every location has a reply with a `current` block and a parsable time |
| Metrics.ShortRepliesFail | example/meteodata/open-meteo-zodiac/src/main/java/com/pavelbucek/zodiac/openmeteo/MeteoZodiacFunction.java:354 | fewer replies than locations always fail the projection |
| Metrics.ProjectFirstError | example/meteodata/open-meteo-zodiac/src/main/java/com/pavelbucek/zodiac/openmeteo/MeteoZodiacFunction.java:373-374 | the projection reports the error of the first location that fails |
| Metrics.ProjectAt | example/meteodata/open-meteo-zodiac/src/main/java/com/pavelbucek/zodiac/openmeteo/MeteoZodiacFunction.java:359-370 | metric 15·k + j of a successful projection is measurement j of location k, with location k's resource and the window of reply k's time |
| Pipeline.Latitudes | example/meteodata/open-meteo-zodiac/src/main/java/com/pavelbucek/zodiac/openmeteo/MeteoZodiacFunction.java:273-275 | the latitudes are the rendered coordinates of the locations, one per location, in order |
| Pipeline.Longitudes | example/meteodata/open-meteo-zodiac/src/main/java/com/pavelbucek/zodiac/openmeteo/MeteoZodiacFunction.java:276-278 | the longitudes are the rendered coordinates of the locations, one per location, in order |
| Pipeline.WeatherRequestReadBack | example/meteodata/open-meteo-zodiac/src/main/java/com/pavelbucek/zodiac/openmeteo/MeteoZodiacFunction.java:280-291 | the batch request's coordinates split back into each location's own, and it asks for every measurement |
| Pipeline.ConfigOutcome | example/meteodata/open-meteo-zodiac/src/main/java/com/pavelbucek/zodiac/openmeteo/MeteoZodiacFunction.java:156-170 | a configuration is passed on exactly for a received page whose `data` decoded; otherwise the stage completes empty, never with an error |
| Pipeline.ConfigOutcomeInContext | example/meteodata/open-meteo-zodiac/src/main/java/com/pavelbucek/zodiac/openmeteo/MeteoZodiacFunction.java:163-165 | a configuration passed on is the one the context holds afterwards |
| Pipeline.ConfigErrorLogged | example/meteodata/open-meteo-zodiac/src/main/java/com/pavelbucek/zodiac/openmeteo/MeteoZodiacFunction.java:167-170 | the stage completes empty exactly when the error handler's record is logged |
| Pipeline.LocationsOutcome | example/meteodata/open-meteo-zodiac/src/main/java/com/pavelbucek/zodiac/openmeteo/MeteoZodiacFunction.java:237-258 | the locations of a received page are passed on; after any error an empty list |
| Pipeline.LocationsAfter | example/meteodata/open-meteo-zodiac/src/main/java/com/pavelbucek/zodiac/openmeteo/MeteoZodiacFunction.java:246-248 | the context's locations are set only from a received page |
| Pipeline.AsList | example/meteodata/open-meteo-zodiac/src/main/java/com/pavelbucek/zodiac/openmeteo/MeteoZodiacFunction.java:304-308 | the single reply reshaped into a one-element list; a missing body is an error |
| Pipeline.WeatherOutcome | example/meteodata/open-meteo-zodiac/src/main/java/com/pavelbucek/zodiac/openmeteo/MeteoZodiacFunction.java:301-311 | no locations completes empty; one location uses the single call wrapped in a list; more use the batch call; a failed exchange or missing body is an error |
| Pipeline.PrepareOutcome | example/meteodata/open-meteo-zodiac/src/main/java/com/pavelbucek/zodiac/openmeteo/MeteoZodiacFunction.java:340-379 | the metrics passed on are the projection of the context's locations; null locations or a failing projection is an error |
| Pipeline.MetricEntries | example/meteodata/open-meteo-zodiac/src/main/java/com/pavelbucek/zodiac/openmeteo/MeteoZodiacFunction.java:431-442 | each exported metric gets one or two log calls |
| Pipeline.MetricEntriesOneResource | example/meteodata/open-meteo-zodiac/src/main/java/com/pavelbucek/zodiac/openmeteo/MeteoZodiacFunction.java:431-442 | metrics sharing one resource log it once, before the first of them |
| Pipeline.MetricExportOutcome | example/meteodata/open-meteo-zodiac/src/main/java/com/pavelbucek/zodiac/openmeteo/MeteoZodiacFunction.java:419-450 | the metric export passes "ok" on exactly when the exporter accepts the batch, and signals an error otherwise |
| Pipeline.ExportedLogEntries | example/meteodata/open-meteo-zodiac/src/main/java/com/pavelbucek/zodiac/openmeteo/MeteoZodiacFunction.java:485-487 | one log call per exported record, in batch order |
| Pipeline.LogExportOutcome | example/meteodata/open-meteo-zodiac/src/main/java/com/pavelbucek/zodiac/openmeteo/MeteoZodiacFunction.java:460-505 | "ok" exactly with an exporter, a configuration and an accepted export; an error signal with an exporter but no configuration; "error" otherwise |
| Pipeline.ConfigFailureEndsEmpty | example/meteodata/open-meteo-zodiac/src/main/java/com/pavelbucek/zodiac/openmeteo/MeteoZodiacFunction.java:116-127 | a missing, undecodable or `data`-less configuration ends the run without a value |
| Pipeline.NoLocationsEndsEmpty | example/meteodata/open-meteo-zodiac/src/main/java/com/pavelbucek/zodiac/openmeteo/MeteoZodiacFunction.java:116-127 | a failed or empty location listing ends the run without a value |
| Pipeline.RunOkIff | example/meteodata/open-meteo-zodiac/src/main/java/com/pavelbucek/zodiac/openmeteo/MeteoZodiacFunction.java:116-127 | with a configuration and locations the run always reports a status, "ok" exactly when the forecast arrives, projects and is exported |
| Pipeline.ShortForecastIsError | example/meteodata/open-meteo-zodiac/src/main/java/com/pavelbucek/zodiac/openmeteo/MeteoZodiacFunction.java:354 | more locations than forecasts ends the run with "error" |
| Pipeline.RunRequests | example/meteodata/open-meteo-zodiac/src/main/java/com/pavelbucek/zodiac/openmeteo/MeteoZodiacFunction.java:138-311 | the run sends the config request first, then the locations request, then at most one forecast batch |
| Pipeline.HeadersStayInside | example/meteodata/open-meteo-zodiac/src/main/java/com/pavelbucek/zodiac/openmeteo/MeteoZodiacFunction.java:144-149 | every knowledge-store request carries exactly the propagated headers and `max=999`; the forecast request carries none |
| Zodiac.MeteoZodiacFunction.Log | example/meteodata/open-meteo-zodiac/src/main/java/com/pavelbucek/zodiac/openmeteo/MeteoZodiacFunction.java:721-765 | a `log` call buffers its record exactly while an exporter is set |
| Zodiac.MeteoZodiacFunction.KnowledgeGet | example/meteodata/open-meteo-zodiac/src/main/java/com/pavelbucek/zodiac/openmeteo/MeteoZodiacFunction.java:144-149 | the built request is the knowledge-store listing with the propagated headers |
| Zodiac.MeteoZodiacFunction.LogRequest | example/meteodata/open-meteo-zodiac/src/main/java/com/pavelbucek/zodiac/openmeteo/MeteoZodiacFunction.java:140-152 | the stage's opening call, the request and its headers are buffered |
| Zodiac.MeteoZodiacFunction.OnConfigReply | example/meteodata/open-meteo-zodiac/src/main/java/com/pavelbucek/zodiac/openmeteo/MeteoZodiacFunction.java:156-170 | the reply handler passes on `ConfigOutcome`, updates the context's configuration and logs the status, body and error calls |
| Zodiac.MeteoZodiacFunction.OnConfigPage | example/meteodata/open-meteo-zodiac/src/main/java/com/pavelbucek/zodiac/openmeteo/MeteoZodiacFunction.java:161-165 | a received page is logged, its configuration stored in the context and passed on when not null |
| Zodiac.MeteoZodiacFunction.FetchConfig | example/meteodata/open-meteo-zodiac/src/main/java/com/pavelbucek/zodiac/openmeteo/MeteoZodiacFunction.java:138-171 | one config request is sent; the outcome is `ConfigOutcome` of the decoded reply and the context is updated accordingly |
| Zodiac.MeteoZodiacFunction.InitLogging | example/meteodata/open-meteo-zodiac/src/main/java/com/pavelbucek/zodiac/openmeteo/MeteoZodiacFunction.java:181-212 | every level but OFF sets the log exporter for the trigger headers and the log resource; OFF leaves both unset; the stage always passes "ok" |
| Zodiac.MeteoZodiacFunction.OnLocationsReply | example/meteodata/open-meteo-zodiac/src/main/java/com/pavelbucek/zodiac/openmeteo/MeteoZodiacFunction.java:237-258 | the reply handler passes on `LocationsOutcome` and updates the context's locations |
| Zodiac.MeteoZodiacFunction.OnLocationsPage | example/meteodata/open-meteo-zodiac/src/main/java/com/pavelbucek/zodiac/openmeteo/MeteoZodiacFunction.java:240-253 | a received page is logged, its locations stored in the context and passed on |
| Zodiac.MeteoZodiacFunction.FetchLocations | example/meteodata/open-meteo-zodiac/src/main/java/com/pavelbucek/zodiac/openmeteo/MeteoZodiacFunction.java:219-259 | one locations request is sent; the outcome is `LocationsOutcome` of the reply |
| Zodiac.MeteoZodiacFunction.OnWeatherReply | example/meteodata/open-meteo-zodiac/src/main/java/com/pavelbucek/zodiac/openmeteo/MeteoZodiacFunction.java:315-330 | a reply with a body passes it on; otherwise an error |
| Zodiac.MeteoZodiacFunction.FetchOpenMeteoData | example/meteodata/open-meteo-zodiac/src/main/java/com/pavelbucek/zodiac/openmeteo/MeteoZodiacFunction.java:267-332 | one forecast request for all locations, none without locations; the outcome is `WeatherOutcome` |
| Zodiac.MeteoZodiacFunction.PrepareMetricData | example/meteodata/open-meteo-zodiac/src/main/java/com/pavelbucek/zodiac/openmeteo/MeteoZodiacFunction.java:340-379 | the outcome is the projection of the context's locations |
| Zodiac.MeteoZodiacFunction.LogExportedMetrics | example/meteodata/open-meteo-zodiac/src/main/java/com/pavelbucek/zodiac/openmeteo/MeteoZodiacFunction.java:429-444 | the exported data is logged between start and end markers |
| Zodiac.MeteoZodiacFunction.ExportMetricData | example/meteodata/open-meteo-zodiac/src/main/java/com/pavelbucek/zodiac/openmeteo/MeteoZodiacFunction.java:387-453 | the metrics go to the exporter for the trigger headers; "ok" exactly when accepted |
| Zodiac.MeteoZodiacFunction.LogExportedRecords | example/meteodata/open-meteo-zodiac/src/main/java/com/pavelbucek/zodiac/openmeteo/MeteoZodiacFunction.java:485-487 | one call per exported record |
| Zodiac.MeteoZodiacFunction.ExportLogs | example/meteodata/open-meteo-zodiac/src/main/java/com/pavelbucek/zodiac/openmeteo/MeteoZodiacFunction.java:460-505 | with an exporter the level-filtered buffer is exported, and every exported record passes the configured level |
| Zodiac.MeteoZodiacFunction.FromExportLogs | example/meteodata/open-meteo-zodiac/src/main/java/com/pavelbucek/zodiac/openmeteo/MeteoZodiacFunction.java:122-123 | the stage's value is replaced by "ok" |
| Zodiac.MeteoZodiacFunction.FromExportMetricData | example/meteodata/open-meteo-zodiac/src/main/java/com/pavelbucek/zodiac/openmeteo/MeteoZodiacFunction.java:121-123 | "ok" exactly when the metric export is accepted |
| Zodiac.MeteoZodiacFunction.FromPrepareMetricData | example/meteodata/open-meteo-zodiac/src/main/java/com/pavelbucek/zodiac/openmeteo/MeteoZodiacFunction.java:120-123 | the pipeline's value after the projection, and the batch exported |
| Zodiac.MeteoZodiacFunction.FromFetchOpenMeteoData | example/meteodata/open-meteo-zodiac/src/main/java/com/pavelbucek/zodiac/openmeteo/MeteoZodiacFunction.java:119-123 | the pipeline's value follows `AfterLocations`; at most one forecast request |
| Zodiac.MeteoZodiacFunction.FromFetchLocations | example/meteodata/open-meteo-zodiac/src/main/java/com/pavelbucek/zodiac/openmeteo/MeteoZodiacFunction.java:118-123 | the pipeline's value after the locations listing |
| Zodiac.MeteoZodiacFunction.FromInitLogging | example/meteodata/open-meteo-zodiac/src/main/java/com/pavelbucek/zodiac/openmeteo/MeteoZodiacFunction.java:117-127 | the stages after `fetchConfig` run only on a configuration passed on; logging is enabled exactly for a level other than OFF |
| Zodiac.MeteoZodiacFunction.FromFetchConfig | example/meteodata/open-meteo-zodiac/src/main/java/com/pavelbucek/zodiac/openmeteo/MeteoZodiacFunction.java:116-127 | the pipeline's value is `RunStatus`, the requests are `RunRequests`, and every exported log record passes the configured level |
| Zodiac.MeteoZodiacFunction.constructor | example/meteodata/open-meteo-zodiac/src/main/java/com/pavelbucek/zodiac/openmeteo/MeteoZodiacFunction.java:97-101 | the function keeps the injected client and context and the configured addresses |
| Zodiac.MeteoZodiacFunction.ReportMeteoData | example/meteodata/open-meteo-zodiac/src/main/java/com/pavelbucek/zodiac/openmeteo/MeteoZodiacFunction.java:110-128 | the run reports `RunStatus`, sends `RunRequests`, exports the metrics only on "ok", and exports only records that pass the configured level |
| Rest.ListingOutcome | example/meteodata/open-meteo-zodiac/src/main/java/com/pavelbucek/zodiac/openmeteo/RestResource.java:154-163 | no locations completes empty; otherwise "ok" or an error |
| Rest.PostRootOutcome | example/meteodata/open-meteo-zodiac/src/main/java/com/pavelbucek/zodiac/openmeteo/RestResource.java:120-170 | the value emitted is "ok" or "not ok", or the run ends empty or in error |
| Rest.NotOkSkipsForecast | example/meteodata/open-meteo-zodiac/src/main/java/com/pavelbucek/zodiac/openmeteo/RestResource.java:165-167 | a received status other than 200 (a 2xx or 3xx one, since the client fails the exchange from 400 on) is "not ok" and the forecast API is not called |
| Rest.NotOkIff | example/meteodata/open-meteo-zodiac/src/main/java/com/pavelbucek/zodiac/openmeteo/RestResource.java:121-167 | "not ok" exactly for a received listing whose status is not 200, which for a received reply means a 2xx or 3xx status other than 200 |
| Rest.NoLocationsEmitNothing | example/meteodata/open-meteo-zodiac/src/main/java/com/pavelbucek/zodiac/openmeteo/RestResource.java:158-160 | a status-200 listing without locations emits nothing and sends no forecast request |
| Rest.OkIff | example/meteodata/open-meteo-zodiac/src/main/java/com/pavelbucek/zodiac/openmeteo/RestResource.java:120-171 | "ok" exactly when the listing passes the gate with locations, the forecast arrives and every location projects |
| Rest.ShortForecastIsError | example/meteodata/open-meteo-zodiac/src/main/java/com/pavelbucek/zodiac/openmeteo/RestResource.java:207-209 | more locations than forecasts is an error, not "ok" |
| Rest.MetricsTaggedMeteodata | example/meteodata/open-meteo-zodiac/src/main/java/com/pavelbucek/zodiac/openmeteo/RestResource.java:213-219 | gauge 15·k + j is measurement j on location k's resource, whose SDK name is "meteodata" |
| Rest.RestResource.constructor | example/meteodata/open-meteo-zodiac/src/main/java/com/pavelbucek/zodiac/openmeteo/RestResource.java:80-83 | the controller keeps the injected client and the configured addresses |
| Rest.RestResource.GetRoot | example/meteodata/open-meteo-zodiac/src/main/java/com/pavelbucek/zodiac/openmeteo/RestResource.java:85-88 | `GET /` answers "ok" |
| Rest.RestResource.EmitMetrics | example/meteodata/open-meteo-zodiac/src/main/java/com/pavelbucek/zodiac/openmeteo/RestResource.java:182-247 | "ok" exactly when the projection succeeds, whatever the export does; the batch is exported with the exporter for the trigger headers |
| Rest.RestResource.OnListing | example/meteodata/open-meteo-zodiac/src/main/java/com/pavelbucek/zodiac/openmeteo/RestResource.java:124-163 | one forecast request for a non-empty listing, then the outcome and export of `emitMetrics` |
| Rest.RestResource.PostRoot | example/meteodata/open-meteo-zodiac/src/main/java/com/pavelbucek/zodiac/openmeteo/RestResource.java:97-171 | the value is `PostRootOutcome`, the requests are the listing plus an optional forecast, and the metrics are exported only on "ok" |
| BankCommon.Encode | example/custom-service-messaging/services/bank/common.go:5-8 | a transaction serialises as the members "amount" and "op", in that order |
| BankCommon.Member | example/custom-service-messaging/services/bank/common.go:5-8 | only keys that match "amount" or "op" ignoring case touch the transaction, and each touches only its own field |
| BankCommon.Decode | example/custom-service-messaging/services/bank/bank.go:20-23 | unparsable data gives the zero transaction and a syntax error; no data or null gives the zero transaction without error |
| BankCommon.DecodeEncode | example/custom-service-messaging/services/bank/common.go:5-8 | decoding what is encoded gives the transaction back without error |
| BankCommon.MembersAppend | example/custom-service-messaging/services/bank/bank.go:21 | members are decoded in document order |
| BankCommon.LastAmountWins | example/custom-service-messaging/services/bank/bank.go:21 | a later "amount" member overrides earlier ones |
| BankCommon.WrongTypeKeepsField | example/custom-service-messaging/services/bank/bank.go:21 | a wrongly typed member leaves the field as it was and records an error |
| BankCommon.KeysMatchUpToCase | example/custom-service-messaging/services/bank/common.go:6-7 | keys bind regardless of ASCII case |
| BankCommon.UnknownKeysSkipped | example/custom-service-messaging/services/bank/bank.go:21 | members with other keys are ignored |
| BankCommon.GetEnvLookup | example/custom-service-messaging/services/bank/common.go:10-17 | a set variable is returned, even when empty; an unset one gives the default; other variables do not matter |
| BankCommon.DefaultsWhenUnset | example/custom-service-messaging/services/bank/bank.go:56-59 | without environment the gateway is http://localhost:8081/ and the address :8080 |
| Bank.UpdatedCongruent | example/custom-service-messaging/services/bank/bank.go:26-30 | every update equals the unbounded credit or debit taken modulo 2^32 |
| Bank.UpdatedExact | example/custom-service-messaging/services/bank/bank.go:26-30 | without overflow a credit adds and a debit subtracts its amount exactly |
| Bank.CreditThenDebit | example/custom-service-messaging/services/bank/bank.go:26-30 | a debit undoes a credit of the same amount, for every amount and balance |
| Bank.OtherOperationsIgnored | example/custom-service-messaging/services/bank/bank.go:26-30 | operations other than "credit" and "debit", and the zero transaction, leave the balance unchanged |
| Bank.UndecodableIgnored | example/custom-service-messaging/services/bank/bank.go:20-23 | a payload that does not decode leaves the balance unchanged |
| Bank.ReplayIsSumModulo | example/custom-service-messaging/services/bank/bank.go:26-30 | after any run of transactions the balance is the starting balance plus all credits minus all debits, modulo 2^32 |
| Bank.AuditOf | example/custom-service-messaging/services/bank/bank.go:41-46 | the audit event has source s2sqdemo.bank, type s2sqdemo:audit, data {"balance": e} and the gateway as target |
| Bank.AuditReadsBack | example/custom-service-messaging/services/bank/bank.go:32 | the audited balance text reads back as the balance |
| Bank.BankService.constructor | example/custom-service-messaging/services/bank/bank.go:56-59 | `init` reads the two settings with their defaults; the counter starts at zero |
| Bank.BankService.Audit | example/custom-service-messaging/services/bank/bank.go:35-54 | one audit event is sent to the gateway |
| Bank.BankService.Receive | example/custom-service-messaging/services/bank/bank.go:19-33 | the balance becomes `Updated` of the decoded transaction, and one audit event with the new balance is sent |

## Left out

- SLF4J console output (`LOGGER.*`, including the level dispatch in `log` and the `LOGGER` calls of `RestResource`): side output only. The "Can't access request context" warning path of `log` is not modelled either; with a context always present it cannot occur.
- The `whenComplete` callbacks of both exports: they run asynchronously after the stage has finished, so their log calls are not part of the modelled buffer.
- `RestResource.postRoot`'s `doOnSuccess`/`doOnError` and the `LOGGER` calls in `emitMetrics`: console output only.
- Resource identity: `exportMetricData` compares resources by reference (`MeteoZodiacFunction.java:432`). The model compares them by value. This agrees with the code because each location's gauges share one resource object and consecutive locations build distinct objects. Two locations with equal attributes would log one resource line in the model where the code logs two.
- `Map.of` iteration order is unspecified. Log content is kept in the order the source writes its entries.
- `Double.toString` and the rendering of Micronaut and OpenTelemetry objects: supplied as the parameters `showDouble` and `show`.
- Floating-point values: they are opaque and only carried.
- The clock: `LogRecord`'s `ZonedDateTime.now()` is not modelled. The observed-time getter is modelled on an epoch second given as a parameter.
- The network: replies are fixed per endpoint when the client is made. Timeouts, retries and a reply that changes between calls are not modelled.
- Reactor scheduling: the chain is modelled as sequential calls.
- Concurrency: the `ConcurrentLinkedDeque` buffer and Go's `atomic.Int32` are modelled as sequential state.
- JSON text: payloads are modelled at the level of parsed values.
  - For the Java DTOs, a reply is the decoded object.
  - For the bank's `Transaction`, a payload is the parsed JSON value or `Malformed`. Number syntax with fractions or exponents, booleans and arrays are one `JOther` case.
- Null lists: a null `items` list, a null location inside a list and a null reply element are not modelled. A null `current` block, a null configuration and a missing body are modelled.
- Case mapping: `toUpperCase` and `toLowerCase` are ASCII only. Locale-sensitive and non-ASCII mappings are left out. The same holds for Go's case-insensitive key match in `encoding/json`; for the tags "amount" and "op" the ASCII match gives the same answer.
- `Instant.parse`: only the `yyyy-MM-ddTHH:mm:ssZ` layout with a four-digit year is modelled. Other offsets, fractions of a second and extended years are refused, which errs on the side of the projection failing.
- The bank's zerolog calls. `log.Info().Any(...)`, `log.Debug().Any(...)` and `log.Fatal().Any(...)` without `.Msg` emit nothing (`bank.go:24-25`, `31`, `49`), so an undelivered audit event neither logs nor exits.
- The bank's `fmt.Printf` of a decode error and the `log.Printf` lines after a send: console output only.
- The bank's `cloudevents.NewClientHTTP` failure (`bank.go:36-39`): a failure to create the client would end the process.
- The CloudEvents id and time the SDK adds to each event are not modelled.
- The bank's server code (`index`, `healthz`, `cloudEventsHandler`, `main`) and `client.go`: framework wiring, and a random ticker that sends transactions.
- `KnowledgeResponseWrapper`, `KnowledgeLocation` and `Application.java` are not part of this model.
- A null `name`: the model's `Config` and `Location` always carry a name. A JSON reply without one builds an object whose `toString` shows `name='null'` (`Config.java:17-19`, `Location.java:18-21`). A location's resource then gets no `location.name` attribute, because `ResourceBuilder.put` skips a null value (`MeteoZodiacFunction.java:358`). `Metrics.LocationResource` always adds it.
- The content type of a bank event: `event.DataAs(t)` (`bank.go:21`) picks its codec from the event's data content type. That is XML for `application/xml`, and an error for a type without a codec. `BankCommon.Decode` always decodes JSON, as for the `application/json` events the client sends.
- Micronaut's redirect handling: a received reply is modelled by its final status, which is below 400 (statuses from 400 on make `exchange` signal an error, see `Http.ClientStatus`). Which 3xx replies the client follows itself is not modelled.
- Bank.BankService.Audit: does not model the result of `c.Send`. An undelivered event is still recorded as sent, because the code ignores the result apart from a log call that emits nothing.
- Logging.SeverityNumber: states only that the severity is one of 1, 5, 9, 13 and 17 and that TRACE < DEBUG < INFO. The exact value per level is in its body, as the OpenTelemetry Logs Data Model assigns it.

## Findings

| source | as written | input that shows it | evidently intended | confidence | as-written member | corrected member |
|---|---|---|---|---|---|---|
| example/meteodata/open-meteo-zodiac/src/main/java/com/pavelbucek/zodiac/openmeteo/MeteoZodiacFunction.java:798-800 | `getObservedTimestampEpochNanos` returns the epoch second times 1,000,000, which is microseconds | a record made at 2024-01-01T10:00:00Z reports 1,704,103,200,000,000 ns, which is 1970-01-20 | the epoch second times 1,000,000,000, which is nanoseconds, as the getter's name says | not executed | Logging.ObservedNanosAsWritten (lemma Logging.ObservedNanosAsWrittenIsMicroseconds) | Logging.ObservedNanos (lemma Logging.ObservedNanosSeconds) |
