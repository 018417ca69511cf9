/**
 * The function's log buffering: the record built for each `log` call, and
 * the level filter applied to the buffer when it is exported.
 */
module Logging {
  import opened Wrappers
  import opened Text
  import opened Telemetry
  import Numbers
  import ConfigModel

  /** `org.slf4j.event.Level`, the level passed to `log`. */
  datatype Level = TRACE | DEBUG | INFO | WARN | ERROR

  /**
   * The OpenTelemetry severity of the same name (`Severity.valueOf(level.name())`)
   * as its SeverityNumber in the OpenTelemetry Logs Data Model.
   */
  function SeverityNumber(l: Level): (n: nat)
    ensures 1 <= n <= 17 && n % 4 == 1
  {
    match l
    case TRACE => 1
    case DEBUG => 5
    case INFO => 9
    case WARN => 13
    case ERROR => 17
  }

  /** A more severe level has a larger severity number. */
  lemma SeverityOrdered()
    ensures SeverityNumber(TRACE) < SeverityNumber(DEBUG) < SeverityNumber(INFO)
      < SeverityNumber(WARN) < SeverityNumber(ERROR)
  {
  }

  /** A log record body: `Body.empty()` or `Body.string(text)`. */
  datatype Body = EmptyBody | StringBody(text: string)

  /** A buffered record; its observed time comes from the clock and is not modelled. */
  datatype LogRecord = LogRecord(resource: Option<Resource>, severity: Level, attributes: map<string, string>, body: Body)

  /** The `content` map of a `log` call, each value already rendered by `String.valueOf`. */
  type Content = seq<(string, string)>

  /** One entry of the parameter text: `key: {value}`. */
  function Param(e: (string, string)): string {
    e.0 + ": {" + e.1 + "}"
  }

  /** The parameter text: the entries as `key: {value}`, joined with ", ". */
  function LogParams(content: Content): string {
    Join(seq(|content|, i requires 0 <= i < |content| => Param(content[i])), ", ")
  }

  /** The body text: the parameter text alone after an empty message, else the message, "; " and the parameter text. */
  function BodyText(message: string, content: Content): string {
    if message == "" then LogParams(content) else message + "; " + LogParams(content)
  }

  /** The `LogRecord` constructor's body rule: a blank text is an empty body. */
  function MakeBody(text: string): (b: Body)
    ensures b.EmptyBody? <==> IsBlank(text)
    ensures b.StringBody? ==> b.text == text
  {
    if IsBlank(text) then EmptyBody else StringBody(text)
  }

  /** The record's attributes: every content entry, its value as a string. */
  function AttributesOf(content: Content): (m: map<string, string>)
    ensures forall k :: k in m <==> exists i :: 0 <= i < |content| && content[i].0 == k
    decreases |content|
  {
    if content == [] then map[]
    else
      var rest := content[..|content| - 1];
      var m := AttributesOf(rest)[content[|content| - 1].0 := content[|content| - 1].1];
      assert forall i :: 0 <= i < |rest| ==> rest[i] == content[i];
      m
  }

  /** The record one `log(level, message, content, exception)` call buffers. */
  function Record(resource: Option<Resource>, level: Level, message: string, content: Content): LogRecord {
    LogRecord(resource, level, AttributesOf(content), MakeBody(BodyText(message, content)))
  }

  /** The parameter text of a non-empty content has a ':' right after the first key. */
  lemma {:induction false} ParamsColon(content: Content)
    requires content != []
    ensures |LogParams(content)| > |content[0].0| && LogParams(content)[|content[0].0|] == ':'
  {
    var parts := seq(|content|, i requires 0 <= i < |content| => Param(content[i]));
    assert parts[0] == Param(content[0]);
    if |parts| > 1 {
      assert Join(parts, ", ") == parts[0] + ", " + Join(parts[1..], ", ");
    }
  }

  /**
   * A record's body is empty exactly when the message is empty and there is
   * no content; otherwise the body text is kept as it is.
   */
  lemma {:induction false} BodyEmptyIff(resource: Option<Resource>, level: Level, message: string, content: Content)
    ensures Record(resource, level, message, content).body.EmptyBody? <==> message == "" && content == []
    ensures message != "" ==>
      Record(resource, level, message, content).body == StringBody(message + "; " + LogParams(content))
  {
    var t := BodyText(message, content);
    if message != "" {
      assert t[|message|] == ';';
      assert !IsJavaWhitespace(t[|message|]);
    } else if content != [] {
      ParamsColon(content);
      assert !IsJavaWhitespace(t[|content[0].0|]);
    }
  }

  /** The export filter of one record: at INFO only severity 9 and above, at any other level everything. */
  predicate Selected(level: ConfigModel.LogLevel, r: LogRecord) {
    level == ConfigModel.INFO ==> SeverityNumber(r.severity) >= 9
  }

  /** The batch handed to the log exporter: the buffer filtered by `Selected`, in buffer order. */
  function SelectForExport(level: ConfigModel.LogLevel, logs: seq<LogRecord>): (r: seq<LogRecord>)
    ensures |r| <= |logs|
    ensures level != ConfigModel.INFO ==> r == logs
    ensures forall x :: x in r <==> x in logs && Selected(level, x)
    decreases |logs|
  {
    if logs == [] then []
    else
      var rest := SelectForExport(level, logs[..|logs| - 1]);
      var last := logs[|logs| - 1];
      assert logs == logs[..|logs| - 1] + [last];
      if Selected(level, last) then rest + [last] else rest
  }

  /** The filter keeps the buffer's order: filtering a concatenation concatenates the filtered parts. */
  lemma {:induction false} SelectAppend(level: ConfigModel.LogLevel, a: seq<LogRecord>, b: seq<LogRecord>)
    ensures SelectForExport(level, a + b) == SelectForExport(level, a) + SelectForExport(level, b)
    decreases |b|
  {
    if b == [] {
      assert a + b == a;
    } else {
      var b' := b[..|b| - 1];
      assert (a + b)[..|a + b| - 1] == a + b';
      assert (a + b)[|a + b| - 1] == b[|b| - 1];
      SelectAppend(level, a, b');
    }
  }

  /** Filtering an exported batch again changes nothing. */
  lemma {:induction false} SelectIdempotent(level: ConfigModel.LogLevel, logs: seq<LogRecord>)
    ensures SelectForExport(level, SelectForExport(level, logs)) == SelectForExport(level, logs)
    decreases |logs|
  {
    if logs != [] {
      var init := logs[..|logs| - 1];
      var last := logs[|logs| - 1];
      SelectIdempotent(level, init);
      if Selected(level, last) {
        SelectAppend(level, SelectForExport(level, init), [last]);
      }
    }
  }

  /** At INFO the debug and trace records are dropped and all others kept. */
  lemma DebugDroppedAtInfo(r: LogRecord)
    ensures SelectForExport(ConfigModel.INFO, [r]) == (if r.severity in {TRACE, DEBUG} then [] else [r])
  {
  }

  /** One `log(level, message, content, exception)` call; the exception only reaches the SLF4J output. */
  datatype Entry = Entry(level: Level, message: string, content: Content)

  /**
   * What a run of `log` calls adds to the buffer: one record per call while a
   * log record exporter is set, nothing while it is not.
   */
  function Buffered(exporter: Option<Exporter>, resource: Option<Resource>, entries: seq<Entry>): (r: seq<LogRecord>)
    ensures exporter.None? ==> r == []
    ensures exporter.Some? ==> |r| == |entries|
    ensures exporter.Some? ==> forall i :: 0 <= i < |entries| ==>
      r[i] == Record(resource, entries[i].level, entries[i].message, entries[i].content)
  {
    if exporter.None? then []
    else seq(|entries|, i requires 0 <= i < |entries| => Record(resource, entries[i].level, entries[i].message, entries[i].content))
  }

  /** Buffering two runs of calls in turn is buffering the joined run. */
  lemma BufferedAppend(exporter: Option<Exporter>, resource: Option<Resource>, a: seq<Entry>, b: seq<Entry>)
    ensures Buffered(exporter, resource, a + b) == Buffered(exporter, resource, a) + Buffered(exporter, resource, b)
  {
    if exporter.Some? {
      var l, x, y := Buffered(exporter, resource, a + b), Buffered(exporter, resource, a), Buffered(exporter, resource, b);
      assert forall i :: 0 <= i < |a| ==> (a + b)[i] == a[i];
      assert forall i :: |a| <= i < |a + b| ==> (a + b)[i] == b[i - |a|];
      assert l == x + y;
    }
  }

  /**
   * `LogRecord.getObservedTimestampEpochNanos` as written: the clock's epoch
   * second times 10^6, in wrapping `long` arithmetic.
   */
  function ObservedNanosAsWritten(epochSecond: Numbers.Int64): Numbers.Int64 {
    Numbers.Wrap64(epochSecond * 1_000_000)
  }

  /** The observed time in nanoseconds, as the getter's name and contract promise. */
  function ObservedNanos(epochSecond: Numbers.Int64): (n: Numbers.Int64)
    ensures -9_223_372_036 <= epochSecond <= 9_223_372_036 ==> n == epochSecond * 1_000_000_000
  {
    Numbers.Wrap64(epochSecond * 1_000_000_000)
  }

  /** Between 1677 and 2262 the corrected getter reads back the clock's second exactly. */
  lemma ObservedNanosSeconds(epochSecond: Numbers.Int64)
    requires -9_223_372_036 <= epochSecond <= 9_223_372_036
    ensures ObservedNanos(epochSecond) / 1_000_000_000 == epochSecond
    ensures ObservedNanos(epochSecond) % 1_000_000_000 == 0
  {
  }

  /**
   * A record made at 2024-01-01T10:00:00Z reports, as written, an observed
   * time of 1,704,103,200,000,000 ns: under twenty days after the epoch.
   */
  lemma ObservedNanosAsWrittenIsMicroseconds()
    ensures ObservedNanosAsWritten(1_704_103_200) == 1_704_103_200_000_000
    ensures ObservedNanosAsWritten(1_704_103_200) / 1_000_000_000 == 1_704_103
    ensures ObservedNanos(1_704_103_200) == 1_704_103_200_000_000_000
    ensures ObservedNanosAsWritten(1_704_103_200) != ObservedNanos(1_704_103_200)
  {
  }
}
