/**
 * The configuration of a BatteryHandyman as values: what the constructor accepts, what it
 * stores, and the configuration-dictionary round trip (battery_handyman_class.py).
 */
module Config {
  import opened Wrappers
  import opened Constants
  import opened Text
  import opened Values
  import opened Util

  /** request_data_mapping: placeholder name -> (raw value -> value sent instead). */
  type DataMapping = map<string, map<Scalar, Scalar>>

  /** A value of a configuration section, as the YAML loader produces it. */
  datatype Value = IntValue(i: int) | StrValue(s: string) | MappingValue(m: DataMapping) | OtherValue

  /** A configuration section (a namespace of named values). */
  type Section = map<string, Value>

  /** The configuration dictionary: section name -> section. */
  type ConfigDict = map<string, Section>

  /** Everything the constructor stores, apart from the scheduler. */
  datatype EngineConfig = EngineConfig(
    charged: int,
    low: int,
    checkInterval: int,
    remoteAddress: string,
    requestTemplate: string,
    requestMethod: string,
    requestDataMapping: DataMapping)

  /** The exceptions construction can raise. */
  datatype ConfigError =
    | MissingReaction                             // TypeError: no reaction section given
    | MissingAttribute(name: string)              // AttributeError: a required field is absent
    | WrongType(name: string)                     // a field holds a value of the wrong kind
    | InvalidLimit(property: string, value: int)  // ValueError from a battery limit setter
    | UndefinedDefault(name: string)              // AttributeError: the default constant does not exist
    | MalformedConfiguration                      // the one ValueError init_from_config_dict_mapping raises

  /** The range a battery limit setter accepts. */
  predicate InLimitRange(v: int)
  {
    BatteryLimitValueMinimal <= v <= BatteryLimitValueMaximal
  }

  /** The address with every trailing '/' removed. */
  function TrimTrailingSlashes(s: string): (r: string)
    ensures r <= s && !EndsWithSlash(r)
    ensures forall i :: |r| <= i < |s| ==> s[i] == '/'
  {
    if EndsWithSlash(s) then TrimTrailingSlashes(s[..|s| - 1]) else s
  }

  /** The three properties above determine the trimmed address. */
  lemma {:induction false} TrimTrailingSlashesUnique(s: string, r: string)
    requires r <= s && !EndsWithSlash(r)
    requires forall i :: |r| <= i < |s| ==> s[i] == '/'
    ensures r == TrimTrailingSlashes(s)
    decreases |s|
  {
    if |r| < |s| {
      assert EndsWithSlash(s);
      assert r <= s[..|s| - 1];
      TrimTrailingSlashesUnique(s[..|s| - 1], r);
    } else {
      assert r == s;
    }
  }

  /** An address without a trailing '/' is left as it is. */
  lemma TrimTrailingSlashesKeeps(s: string)
    requires !EndsWithSlash(s)
    ensures TrimTrailingSlashes(s) == s
  {
  }

  /** The key list the request_template setter derives: none for an empty template. */
  function KeyListFor(template: string): (r: Option<seq<string>>)
    ensures r.None? <==> template == ""
    ensures r.Some? ==> r.value == ParseRequestDataKeyList(template)
  {
    if template == "" then None else Some(ParseRequestDataKeyList(template))
  }

  // ---------------------------------------------------------------------------
  // Construction (__init__)

  /** section.name, which raises AttributeError when the field is absent. */
  function Attribute(section: Section, name: string): (r: Result<Value, ConfigError>)
  {
    if name in section then Ok(section[name]) else Err(MissingAttribute(name))
  }

  /** section.name inside `try ... except AttributeError`: absent when the section or the field is. */
  function OptionalAttribute(section: Option<Section>, name: string): Option<Value>
  {
    if section.Some? && name in section.value then Some(section.value[name]) else None
  }

  /** A battery limit from its section, or its default when the section or the field is absent. */
  function LimitValue(section: Option<Section>, name: string, default: int): Result<int, ConfigError>
  {
    match OptionalAttribute(section, name)
    case None => Ok(default)
    case Some(IntValue(v)) => Ok(v)
    case Some(_) => Err(WrongType(name))
  }

  /**
   * The check interval from its section; when it is absent the constructor reads the default
   * constant, which is None when that constant does not exist.
   */
  function CheckIntervalValue(section: Option<Section>, intervalDefault: Option<int>): Result<int, ConfigError>
  {
    match OptionalAttribute(section, "check_interval")
    case None => if intervalDefault.Some? then Ok(intervalDefault.value) else Err(UndefinedDefault(CheckIntervalDefaultName))
    case Some(IntValue(v)) => Ok(v)
    case Some(_) => Err(WrongType("check_interval"))
  }

  /** The charge limits and the check interval, as the constructor assigns them. */
  datatype Limits = Limits(charged: int, low: int, checkInterval: int)

  /** A configured battery limit the setter accepts: absent (its default applies) or an integer in [0, 100]. */
  predicate AcceptedLimit(a: Option<Value>)
  {
    a.None? || (a.value.IntValue? && InLimitRange(a.value.i))
  }

  /** A check interval that can be read: an integer, or absent while the default exists. */
  predicate AvailableInterval(a: Option<Value>, intervalDefault: Option<int>)
  {
    if a.None? then intervalDefault.Some? else a.value.IntValue?
  }

  /** v is the configured integer, or the default when nothing is configured. */
  predicate StoredOrDefault(a: Option<Value>, v: int, default: Option<int>)
  {
    if a.None? then default == Some(v) else a.value == IntValue(v)
  }

  /** The battery_limit_config and check_config part of __init__: charged, then low, then the interval. */
  function ReadLimits(battery: Option<Section>, check: Option<Section>, intervalDefault: Option<int>): (r: Result<Limits, ConfigError>)
    ensures r.Ok? <==>
              && AcceptedLimit(OptionalAttribute(battery, "charged"))
              && AcceptedLimit(OptionalAttribute(battery, "low"))
              && AvailableInterval(OptionalAttribute(check, "check_interval"), intervalDefault)
    ensures r.Ok? ==> InLimitRange(r.value.charged) && InLimitRange(r.value.low)
    ensures r.Ok? ==>
              && StoredOrDefault(OptionalAttribute(battery, "charged"), r.value.charged, Some(BatteryLimitValueDefaultCharged))
              && StoredOrDefault(OptionalAttribute(battery, "low"), r.value.low, Some(BatteryLimitValueDefaultLow))
              && StoredOrDefault(OptionalAttribute(check, "check_interval"), r.value.checkInterval, intervalDefault)
    ensures var a := OptionalAttribute(battery, "charged");
            a.Some? && a.value.IntValue? && !InLimitRange(a.value.i) ==> r == Err(InvalidLimit("battery_limit_charged", a.value.i))
    ensures var a := OptionalAttribute(battery, "low");
            AcceptedLimit(OptionalAttribute(battery, "charged")) && a.Some? && a.value.IntValue? && !InLimitRange(a.value.i)
            ==> r == Err(InvalidLimit("battery_limit_low", a.value.i))
    ensures AcceptedLimit(OptionalAttribute(battery, "charged")) && AcceptedLimit(OptionalAttribute(battery, "low"))
            && OptionalAttribute(check, "check_interval").None? && intervalDefault.None?
            ==> r == Err(UndefinedDefault(CheckIntervalDefaultName))
  {
    var charged :- LimitValue(battery, "charged", BatteryLimitValueDefaultCharged);
    if !InLimitRange(charged) then Err(InvalidLimit("battery_limit_charged", charged))
    else
      var low :- LimitValue(battery, "low", BatteryLimitValueDefaultLow);
      if !InLimitRange(low) then Err(InvalidLimit("battery_limit_low", low))
      else
        var interval :- CheckIntervalValue(check, intervalDefault);
        Ok(Limits(charged, low, interval))
  }

  /** The request fields, as the constructor assigns them after the address. */
  datatype RequestFields = RequestFields(template: string, verb: string, mapping: DataMapping)

  /** The remote_request_config part of __init__ after the limits: the template, then the method, then the mapping. */
  function ReadRequest(template: Value, section: Section, mapping: Value): (r: Result<RequestFields, ConfigError>)
    ensures r.Ok? <==>
              template.StrValue? && "request_method" in section && section["request_method"].StrValue? && mapping.MappingValue?
    ensures r.Ok? ==>
              && template == StrValue(r.value.template)
              && section["request_method"] == StrValue(r.value.verb)
              && mapping == MappingValue(r.value.mapping)
    ensures !template.StrValue? ==> r == Err(WrongType("request_template"))
    ensures template.StrValue? && "request_method" !in section ==> r == Err(MissingAttribute("request_method"))
  {
    if !template.StrValue? then Err(WrongType("request_template"))
    else
      var verb :- Attribute(section, "request_method");
      if !verb.StrValue? then Err(WrongType("request_method"))
      else if !mapping.MappingValue? then Err(WrongType("request_data_mapping"))
      else Ok(RequestFields(template.s, verb.s, mapping.m))
  }

  /** __init__, step by step, with the default check interval given as intervalDefault. */
  function InitWith(battery: Option<Section>, check: Option<Section>, remote: Option<Section>,
                    intervalDefault: Option<int>): (r: Result<EngineConfig, ConfigError>)
    ensures remote.None? ==> r == Err(MissingReaction)
    ensures r.Ok? ==> InLimitRange(r.value.charged) && InLimitRange(r.value.low)
    ensures r.Ok? ==> remote.Some? && "remote_address" in remote.value && remote.value["remote_address"].StrValue?
                      && r.value.remoteAddress == TrimTrailingSlashes(remote.value["remote_address"].s)
                      && !EndsWithSlash(r.value.remoteAddress)
    ensures r.Ok? && OptionalAttribute(battery, "charged").None? ==> r.value.charged == BatteryLimitValueDefaultCharged
    ensures r.Ok? && OptionalAttribute(battery, "low").None? ==> r.value.low == BatteryLimitValueDefaultLow
    ensures r.Ok? && OptionalAttribute(check, "check_interval").None? ==> Some(r.value.checkInterval) == intervalDefault
    ensures r.Ok? ==> ReadLimits(battery, check, intervalDefault) == Ok(Limits(r.value.charged, r.value.low, r.value.checkInterval))
    ensures r.Ok? ==>
              && CompleteRemoteSection(remote.value)
              && remote.value["request_template"] == StrValue(r.value.requestTemplate)
              && remote.value["request_method"] == StrValue(r.value.requestMethod)
              && remote.value["request_data_mapping"] == MappingValue(r.value.requestDataMapping)
    ensures remote.Some? && CompleteRemoteSection(remote.value) ==>
              && (r.Ok? <==> ReadLimits(battery, check, intervalDefault).Ok?)
              && (r.Err? ==> r.error == ReadLimits(battery, check, intervalDefault).error)
    ensures remote.Some? && "remote_address" !in remote.value ==> r == Err(MissingAttribute("remote_address"))
  {
    if remote.None? then Err(MissingReaction)
    else
      var section := remote.value;
      var address :- Attribute(section, "remote_address");
      var template :- Attribute(section, "request_template");
      var mapping :- Attribute(section, "request_data_mapping");
      if !address.StrValue? then Err(WrongType("remote_address"))
      else
        var limits :- ReadLimits(battery, check, intervalDefault);
        var request :- ReadRequest(template, section, mapping);
        Ok(EngineConfig(limits.charged, limits.low, limits.checkInterval, TrimTrailingSlashes(address.s),
                        request.template, request.verb, request.mapping))
  }

  /** The constructor as written: constants.py has no CHECK_INTERVAL_IN_SECONDS_DEFAULT. */
  function InitAsWritten(battery: Option<Section>, check: Option<Section>, remote: Option<Section>): (r: Result<EngineConfig, ConfigError>)
    ensures OptionalAttribute(check, "check_interval").None? ==> r.Err?
    ensures remote.Some? && CompleteRemoteSection(remote.value) && OptionalAttribute(check, "check_interval").None?
            && AcceptedLimit(OptionalAttribute(battery, "charged")) && AcceptedLimit(OptionalAttribute(battery, "low"))
            ==> r == Err(UndefinedDefault(CheckIntervalDefaultName))
  {
    InitWith(battery, check, remote, None)
  }

  /** The constructor as intended: a missing check interval falls back to the default. */
  function Init(battery: Option<Section>, check: Option<Section>, remote: Option<Section>, intervalDefault: int): (r: Result<EngineConfig, ConfigError>)
    ensures OptionalAttribute(check, "check_interval").Some? ==> r == InitAsWritten(battery, check, remote)
    ensures r.Ok? && OptionalAttribute(check, "check_interval").None? ==> r.value.checkInterval == intervalDefault
  {
    InitWith(battery, check, remote, Some(intervalDefault))
  }

  /** A remote request section holding every field, each of the kind the engine needs. */
  predicate CompleteRemoteSection(section: Section)
  {
    && "remote_address" in section && section["remote_address"].StrValue?
    && "request_template" in section && section["request_template"].StrValue?
    && "request_method" in section && section["request_method"].StrValue?
    && "request_data_mapping" in section && section["request_data_mapping"].MappingValue?
  }

  /** Without the battery and check sections, a complete remote section yields 90, 40 and the default interval. */
  lemma InitDefaults(section: Section, intervalDefault: int)
    requires CompleteRemoteSection(section)
    ensures Init(None, None, Some(section), intervalDefault)
         == Ok(EngineConfig(BatteryLimitValueDefaultCharged, BatteryLimitValueDefaultLow, intervalDefault,
                            TrimTrailingSlashes(section["remote_address"].s), section["request_template"].s,
                            section["request_method"].s, section["request_data_mapping"].m))
  {
  }

  /** A battery limit outside [0, 100] makes construction fail with the setter's ValueError. */
  lemma InitRejectsInvalidLimit(battery: Section, check: Option<Section>, section: Section, intervalDefault: int)
    requires CompleteRemoteSection(section)
    requires "charged" in battery && battery["charged"].IntValue? && !InLimitRange(battery["charged"].i)
    ensures Init(Some(battery), check, Some(section), intervalDefault)
         == Err(InvalidLimit("battery_limit_charged", battery["charged"].i))
  {
  }

  /** The same holds for the low limit once the charged limit is acceptable. */
  lemma InitRejectsInvalidLow(battery: Section, check: Option<Section>, section: Section, intervalDefault: int)
    requires CompleteRemoteSection(section)
    requires "charged" !in battery || (battery["charged"].IntValue? && InLimitRange(battery["charged"].i))
    requires "low" in battery && battery["low"].IntValue? && !InLimitRange(battery["low"].i)
    ensures Init(Some(battery), check, Some(section), intervalDefault)
         == Err(InvalidLimit("battery_limit_low", battery["low"].i))
  {
  }

  /** As written, a configuration without a check interval cannot be constructed at all. */
  lemma MissingCheckIntervalRejectedAsWritten(battery: Option<Section>, section: Section)
    requires CompleteRemoteSection(section)
    requires battery.None?
    ensures InitAsWritten(battery, None, Some(section)) == Err(UndefinedDefault(CheckIntervalDefaultName))
  {
  }

  /** As intended, the same configuration is constructed with the default interval. */
  lemma MissingCheckIntervalUsesDefault(battery: Option<Section>, section: Section, intervalDefault: int)
    requires CompleteRemoteSection(section)
    requires battery.None?
    ensures Init(battery, None, Some(section), intervalDefault).Ok?
    ensures Init(battery, None, Some(section), intervalDefault).value.checkInterval == intervalDefault
  {
  }

  // ---------------------------------------------------------------------------
  // The configuration dictionary

  /** to_config_dict_mapping: the three sections; the remote one is always present. */
  function ToConfigDict(c: EngineConfig): (d: ConfigDict)
    ensures d.Keys == {ConfigNameBatteryLimit, ConfigNameCheck, ConfigNameRemoteRequest}
    ensures d[ConfigNameBatteryLimit] == map["charged" := IntValue(c.charged), "low" := IntValue(c.low)]
    ensures d[ConfigNameCheck] == map["check_interval" := IntValue(c.checkInterval)]
    ensures d[ConfigNameRemoteRequest]
         == map["remote_address" := StrValue(c.remoteAddress), "request_data_mapping" := MappingValue(c.requestDataMapping),
                "request_method" := StrValue(c.requestMethod), "request_template" := StrValue(c.requestTemplate)]
    ensures CompleteRemoteSection(d[ConfigNameRemoteRequest])
  {
    map[
      ConfigNameBatteryLimit := map["charged" := IntValue(c.charged), "low" := IntValue(c.low)],
      ConfigNameCheck := map["check_interval" := IntValue(c.checkInterval)],
      ConfigNameRemoteRequest := map[
        "remote_address" := StrValue(c.remoteAddress),
        "request_data_mapping" := MappingValue(c.requestDataMapping),
        "request_method" := StrValue(c.requestMethod),
        "request_template" := StrValue(c.requestTemplate)]]
  }

  function SectionOf(d: ConfigDict, name: string): Option<Section>
  {
    if name in d then Some(d[name]) else None
  }

  /**
   * init_from_config_dict_mapping: every section becomes a keyword argument of __init__ (an unknown
   * section name is a TypeError), and every error becomes one ValueError.
   */
  function FromConfigDict(d: ConfigDict, intervalDefault: int): (r: Result<EngineConfig, ConfigError>)
    ensures r.Err? ==> r.error == MalformedConfiguration
    ensures !(d.Keys <= {ConfigNameBatteryLimit, ConfigNameCheck, ConfigNameRemoteRequest}) ==> r.Err?
    ensures d.Keys <= {ConfigNameBatteryLimit, ConfigNameCheck, ConfigNameRemoteRequest} ==>
              var c := Init(SectionOf(d, ConfigNameBatteryLimit), SectionOf(d, ConfigNameCheck),
                            SectionOf(d, ConfigNameRemoteRequest), intervalDefault);
              (r.Ok? <==> c.Ok?) && (r.Ok? ==> r.value == c.value)
  {
    if !(d.Keys <= {ConfigNameBatteryLimit, ConfigNameCheck, ConfigNameRemoteRequest}) then Err(MalformedConfiguration)
    else
      match Init(SectionOf(d, ConfigNameBatteryLimit), SectionOf(d, ConfigNameCheck),
                 SectionOf(d, ConfigNameRemoteRequest), intervalDefault)
      case Ok(c) => Ok(c)
      case Err(_) => Err(MalformedConfiguration)
  }

  /** The configurations the round trip reproduces: valid limits and an address without a trailing '/'. */
  predicate RoundTrips(c: EngineConfig)
  {
    InLimitRange(c.charged) && InLimitRange(c.low) && !EndsWithSlash(c.remoteAddress)
  }

  /** Re-initialising from the produced dictionary gives back the same configuration, exactly for RoundTrips. */
  lemma ConfigDictRoundTrip(c: EngineConfig, intervalDefault: int)
    ensures FromConfigDict(ToConfigDict(c), intervalDefault) == Ok(c) <==> RoundTrips(c)
  {
    var d := ToConfigDict(c);
    var r := Init(SectionOf(d, ConfigNameBatteryLimit), SectionOf(d, ConfigNameCheck),
                  SectionOf(d, ConfigNameRemoteRequest), intervalDefault);
    if RoundTrips(c) {
      TrimTrailingSlashesKeeps(c.remoteAddress);
      assert r == Ok(c);
    }
  }

  /** Hence the dictionary produced again equals the one re-initialised from. */
  lemma ConfigDictStable(c: EngineConfig, intervalDefault: int)
    requires RoundTrips(c)
    ensures FromConfigDict(ToConfigDict(c), intervalDefault).Ok?
    ensures ToConfigDict(FromConfigDict(ToConfigDict(c), intervalDefault).value) == ToConfigDict(c)
  {
    ConfigDictRoundTrip(c, intervalDefault);
  }

  /** Every configuration construction produces is one the round trip reproduces. */
  lemma InitRoundTrips(battery: Option<Section>, check: Option<Section>, remote: Option<Section>, intervalDefault: int)
    requires Init(battery, check, remote, intervalDefault).Ok?
    ensures RoundTrips(Init(battery, check, remote, intervalDefault).value)
  {
  }
}
