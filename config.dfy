/** The tenant configuration object `Config` and its log level. */
module ConfigModel {
  import opened Wrappers
  import opened Text

  /** `Config.LogLevel`. */
  datatype LogLevel = OFF | INFO | DEBUG

  /** An immutable configuration: `getName` and `getLogLevel` are the two fields. */
  datatype Config = Config(name: string, logLevel: LogLevel)

  /** What the constructor throws. */
  datatype ConstructionError = NullPointerException | IllegalArgumentException

  /** `LogLevel.name()`. */
  function LevelName(l: LogLevel): string {
    match l
    case OFF => "OFF"
    case INFO => "INFO"
    case DEBUG => "DEBUG"
  }

  /** `LogLevel.valueOf(logLevel.toUpperCase())`; a null string throws before `valueOf` is reached. */
  function ParseLogLevel(raw: Option<string>): (r: Result<LogLevel, ConstructionError>)
    ensures raw.None? <==> r == Err(NullPointerException)
    ensures raw.Some? && r.Ok? ==> LevelName(r.value) == ToUpper(raw.value)
    ensures raw.Some? && r.Err? ==>
      (r.error == IllegalArgumentException && forall l: LogLevel :: LevelName(l) != ToUpper(raw.value))
  {
    if raw.None? then Err(NullPointerException)
    else
      var up := ToUpper(raw.value);
      if up == "OFF" then Ok(OFF)
      else if up == "INFO" then Ok(INFO)
      else if up == "DEBUG" then Ok(DEBUG)
      else Err(IllegalArgumentException)
  }

  /** The `@JsonCreator` constructor: keeps the name, parses the level; there is no default level. */
  function NewConfig(name: string, logLevel: Option<string>): (r: Result<Config, ConstructionError>)
    ensures r.Ok? <==> ParseLogLevel(logLevel).Ok?
    ensures r.Ok? ==> r.value.name == name && r.value.logLevel == ParseLogLevel(logLevel).value
    ensures r.Err? ==> r.error == ParseLogLevel(logLevel).error
  {
    match ParseLogLevel(logLevel)
    case Ok(l) => Ok(Config(name, l))
    case Err(e) => Err(e)
  }

  /** Every level name is accepted in any ASCII letter casing. */
  lemma {:induction false} LevelAcceptedInAnyCase(l: LogLevel, s: string)
    requires ToUpper(s) == LevelName(l)
    ensures ParseLogLevel(Some(s)) == Ok(l)
  {
  }

  /** Parsing a lowercase spelling gives the same level as the canonical name. */
  lemma LowerCaseLevelsParse(l: LogLevel)
    ensures ParseLogLevel(Some(ToLower(LevelName(l)))) == Ok(l)
  {
    ToUpperOfToLower(LevelName(l));
    assert ToUpper(LevelName(l)) == LevelName(l) by {
      match l
      case OFF => assert ToUpper("OFF") == "OFF";
      case INFO => assert ToUpper("INFO") == "INFO";
      case DEBUG => assert ToUpper("DEBUG") == "DEBUG";
    }
  }

  /** Concrete strings outside the three names are refused: there is no fallback to OFF. */
  lemma UnknownLevelsRefused()
    ensures ParseLogLevel(Some("")) == Err(IllegalArgumentException)
    ensures ParseLogLevel(Some("WARN")) == Err(IllegalArgumentException)
    ensures ParseLogLevel(None) == Err(NullPointerException)
  {
    assert ToUpper("WARN") == "WARN";
  }

  /** `Config.toString()`. */
  function ToString(c: Config): (s: string)
    ensures |s| == |c.name| + |LevelName(c.logLevel)| + 26
    ensures s[..13] == "Config{name='" && s[13..13 + |c.name|] == c.name
  {
    "Config{name='" + c.name + "', logLevel=" + LevelName(c.logLevel) + "}"
  }

  /** The rendering tells configurations apart: equal strings mean equal configurations. */
  lemma {:induction false} ToStringInjective(a: Config, b: Config)
    requires ToString(a) == ToString(b)
    ensures a == b
  {
    var s := ToString(a);
    // The character before the closing brace is F, O or G for OFF, INFO, DEBUG.
    assert s[|s| - 2] == LevelName(a.logLevel)[|LevelName(a.logLevel)| - 1];
    assert s[|s| - 2] == LevelName(b.logLevel)[|LevelName(b.logLevel)| - 1];
    assert a.logLevel == b.logLevel;
    assert |a.name| == |b.name|;
    assert a.name == s[13..13 + |a.name|] == b.name;
  }
}
