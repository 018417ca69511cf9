/** `ConfigResponseWrapper`: the knowledge-store reply holding the `data` and `patch` configurations. */
module ConfigResponse {
  import opened Wrappers
  import opened Text
  import opened ConfigModel

  /** A configuration object as it appears in JSON, before the constructor runs. */
  datatype RawConfig = RawConfig(name: string, logLevel: Option<string>)

  /** The reply body as it appears in JSON: either member may be absent (null). */
  datatype RawConfigResponse = RawConfigResponse(data: Option<RawConfig>, patch: Option<RawConfig>)

  /** The immutable wrapper: `getConfig` is the `data` member, `getConfigPatch` the `patch` member. */
  datatype ConfigResponseWrapper = ConfigResponseWrapper(config: Option<Config>, configPatch: Option<Config>)

  /** One nested member: null stays null, anything else goes through the `Config` constructor. */
  function DecodeMember(raw: Option<RawConfig>): (r: Result<Option<Config>, ConstructionError>)
    ensures raw.None? ==> r == Ok(None)
    ensures raw.Some? ==> (r.Ok? <==> NewConfig(raw.value.name, raw.value.logLevel).Ok?)
    ensures raw.Some? && r.Ok? ==> r.value == Some(NewConfig(raw.value.name, raw.value.logLevel).value)
  {
    if raw.None? then Ok(None)
    else match NewConfig(raw.value.name, raw.value.logLevel)
      case Ok(c) => Ok(Some(c))
      case Err(e) => Err(e)
  }

  /**
   * Deserialisation of the reply body; `None` when either member's constructor
   * throws, which fails the whole exchange.
   */
  function Decode(raw: RawConfigResponse): (r: Option<ConfigResponseWrapper>)
    ensures r.Some? <==> DecodeMember(raw.data).Ok? && DecodeMember(raw.patch).Ok?
    ensures r.Some? ==>
      (r.value.config == DecodeMember(raw.data).value && r.value.configPatch == DecodeMember(raw.patch).value)
  {
    match (DecodeMember(raw.data), DecodeMember(raw.patch))
    case (Ok(c), Ok(p)) => Some(ConfigResponseWrapper(c, p))
    case _ => None
  }

  /** An unparsable log level in the patch alone is enough to reject the reply. */
  lemma BadPatchRejects(data: Option<RawConfig>, name: string)
    ensures Decode(RawConfigResponse(data, Some(RawConfig(name, Some("verbose"))))).None?
  {
    assert ToUpper("verbose") == "VERBOSE";
  }

  /** `getConfig` never consults the patch: replies that differ only in an accepted patch carry the same configuration. */
  lemma {:induction false} ConfigIgnoresPatch(data: Option<RawConfig>, p1: Option<RawConfig>, p2: Option<RawConfig>)
    requires Decode(RawConfigResponse(data, p1)).Some? && Decode(RawConfigResponse(data, p2)).Some?
    ensures Decode(RawConfigResponse(data, p1)).value.config == Decode(RawConfigResponse(data, p2)).value.config
  {
  }

  /** String concatenation of a configuration that may be null. */
  function ConfigText(c: Option<Config>): string {
    if c.Some? then ConfigModel.ToString(c.value) else "null"
  }

  /** `ConfigResponseWrapper.toString()`. */
  function ToString(w: ConfigResponseWrapper): (s: string)
    ensures |s| == |ConfigText(w.config)| + |ConfigText(w.configPatch)| + 44
    ensures s[..29] == "ConfigResponseWrapper{config="
    ensures s[29..29 + |ConfigText(w.config)|] == ConfigText(w.config)
    ensures s[29 + |ConfigText(w.config)|..43 + |ConfigText(w.config)|] == ", configPatch="
    ensures s[43 + |ConfigText(w.config)|..|s| - 1] == ConfigText(w.configPatch)
    ensures s[|s| - 1] == '}'
  {
    "ConfigResponseWrapper{config=" + ConfigText(w.config) + ", configPatch=" + ConfigText(w.configPatch) + "}"
  }

  /** Distinct configurations, or a configuration and null, print differently. */
  lemma ConfigTextInjective(a: Option<Config>, b: Option<Config>)
    requires ConfigText(a) == ConfigText(b)
    ensures a == b
  {
    if a.Some? && b.Some? {
      ConfigModel.ToStringInjective(a.value, b.value);
    }
  }

  /**
   * The printed wrapper gives back either member once the other is known:
   * two wrappers that agree on one member and print alike are equal.
   */
  lemma MemberReadBack(a: ConfigResponseWrapper, b: ConfigResponseWrapper)
    requires ToString(a) == ToString(b)
    requires a.config == b.config || a.configPatch == b.configPatch
    ensures a == b
  {
    var s := ToString(a);
    if a.config == b.config {
      assert ConfigText(a.configPatch) == s[43 + |ConfigText(a.config)|..|s| - 1] == ConfigText(b.configPatch);
      ConfigTextInjective(a.configPatch, b.configPatch);
    } else {
      assert |ConfigText(a.config)| == |ConfigText(b.config)|;
      assert ConfigText(a.config) == s[29..29 + |ConfigText(a.config)|] == ConfigText(b.config);
      ConfigTextInjective(a.config, b.config);
    }
  }

  /** A reply without configurations renders both members as null. */
  lemma EmptyWrapperText()
    ensures ToString(ConfigResponseWrapper(None, None)) == "ConfigResponseWrapper{config=null, configPatch=null}"
  {
  }
}
