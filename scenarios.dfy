/**
 * The send_request cases with a "/power/{needs_charging}"-style template and a boolean-to-0/1
 * mapping, as exercised in tests/test_battery_handyman_class.py.
 */
module Scenarios {
  import opened Wrappers
  import opened Constants
  import opened Text
  import opened Values
  import opened Util
  import opened TemplateFormat
  import opened Config
  import opened Requester

  /** needs_charging: False becomes 0 and True becomes 1. */
  const OnOffMapping: DataMapping := map[RequestDataKeyNeedsCharging := map[Bool(false) := Int(0), Bool(true) := Int(1)]]

  /** A template made of a brace-free path and the single needs_charging placeholder. */
  predicate PowerTemplate(c: EngineConfig, p: string)
  {
    NoBraces(p) && c.requestTemplate == p + "{" + RequestDataKeyNeedsCharging + "}" && c.requestDataMapping == OnOffMapping
  }

  /** The request line for a decision: False becomes "0" and True becomes "1" after the path. */
  lemma PowerRequestLine(c: EngineConfig, p: string, needsCharging: bool)
    requires PowerTemplate(c, p)
    ensures RequestLine(c.remoteAddress, c.requestTemplate,
                        Remapped(map[RequestDataKeyNeedsCharging := Bool(needsCharging)], c.requestDataMapping))
         == Ok(c.remoteAddress + p + (if needsCharging then "1" else "0"))
  {
    var key := RequestDataKeyNeedsCharging;
    var n := Int(if needsCharging then 1 else 0);
    assert Remapped(map[key := Bool(needsCharging)], c.requestDataMapping) == map[key := n];
    assert !IsPositional(key) by {
      assert !('0' <= key[0] <= '9');
    }
    SingleFieldRequestLine(c.remoteAddress, p, key, n);
    assert ScalarToString(n) == if needsCharging then "1" else "0";
  }

  /** The key list of such a template is exactly the one whitelisted key. */
  lemma PowerKeyList(c: EngineConfig, p: string)
    requires PowerTemplate(c, p)
    ensures KeyListFor(c.requestTemplate) == Some([RequestDataKeyNeedsCharging])
  {
    assert p + "{" + RequestDataKeyNeedsCharging + "}" == p + "{needs_charging}";
    ParsePlainPrefixThenNeedsCharging(p);
  }

  /**
   * With limits below 100 and above 1: a discharged battery switches the charger on, a charged one
   * switches it off, the two middle cases send nothing, 404 is a rejected request and a connection
   * error is only a transport failure.
   */
  lemma PowerScenarios(c: EngineConfig, p: string)
    requires PowerTemplate(c, p)
    requires 1 <= c.charged < 100 && 1 < c.low <= 100
    ensures SendRequest(c, BatteryInfo(false, 1), Responded(200)) == Sent(c.requestMethod, c.remoteAddress + p + "1", Delivered(200))
    ensures SendRequest(c, BatteryInfo(true, 1), Responded(200)) == NotSent(DoNotToogleCharging(MsgChargingMustNotToBeToogled))
    ensures SendRequest(c, BatteryInfo(true, 100), Responded(200)) == Sent(c.requestMethod, c.remoteAddress + p + "0", Delivered(200))
    ensures SendRequest(c, BatteryInfo(false, 100), Responded(200)) == NotSent(DoNotToogleCharging(MsgChargingMustNotToBeToogled))
    ensures SendRequest(c, BatteryInfo(false, 1), Responded(404)) == Sent(c.requestMethod, c.remoteAddress + p + "1", Rejected(404))
    ensures SendRequest(c, BatteryInfo(false, 1), ConnectionFailed) == Sent(c.requestMethod, c.remoteAddress + p + "1", TransportFailure)
  {
    PowerKeyList(c, p);
    PowerRequestLine(c, p, true);
    PowerRequestLine(c, p, false);
  }

  /** The default template "/power/{needs_charging}" (PowerTemplate with "/power/") behind an address configured with a trailing '/'. */
  lemma DefaultTemplateScenarios(c: EngineConfig, host: string)
    requires PowerTemplate(c, "/power/")
    requires !EndsWithSlash(host) && c.remoteAddress == TrimTrailingSlashes(host + "/")
    requires 1 <= c.charged < 100 && 1 < c.low <= 100
    ensures SendRequest(c, BatteryInfo(false, 1), Responded(200)) == Sent(c.requestMethod, host + "/power/1", Delivered(200))
    ensures SendRequest(c, BatteryInfo(true, 100), Responded(200)) == Sent(c.requestMethod, host + "/power/0", Delivered(200))
  {
    var p := "/power/";
    var a := host + "/";
    assert host <= a && a[|host|] == '/';
    TrimTrailingSlashesUnique(a, host);
    assert c.remoteAddress == host;
    PowerKeyList(c, p);
    PowerRequestLine(c, p, true);
    PowerRequestLine(c, p, false);
    assert host + p + "1" == host + "/power/1";
    assert host + p + "0" == host + "/power/0";
  }

  /** The same template with an empty request_data_mapping: the booleans are sent as str() renders them. */
  predicate UnmappedPowerTemplate(c: EngineConfig, p: string)
  {
    NoBraces(p) && c.requestTemplate == p + "{" + RequestDataKeyNeedsCharging + "}" && c.requestDataMapping == map[]
  }

  /** A template of one named placeholder after a brace-free path yields the address, the path and str() of the value. */
  lemma SingleFieldRequestLine(address: string, p: string, key: string, v: Scalar)
    requires NoBraces(p) && |key| > 0 && NoBraces(key) && !IsPositional(key)
    ensures RequestLine(address, p + "{" + key + "}", map[key := v]) == Ok(address + p + ScalarToString(v))
  {
    var data := map[key := v];
    SinglePlaceholderTemplate(p, key, "", data);
    assert p + "{" + key + "}" + "" == p + "{" + key + "}";
    assert p + ScalarToString(v) + "" == p + ScalarToString(v);
    var line := RequestLine(address, p + "{" + key + "}", data);
    assert line.value == line.value[..|address|] + line.value[|address|..];
    assert line.value == address + (p + ScalarToString(v)) == address + p + ScalarToString(v);
  }

  /** Without a mapping the request line ends in "False" or "True". */
  lemma UnmappedRequestLine(c: EngineConfig, p: string, needsCharging: bool)
    requires UnmappedPowerTemplate(c, p)
    ensures RequestLine(c.remoteAddress, c.requestTemplate,
                        Remapped(map[RequestDataKeyNeedsCharging := Bool(needsCharging)], c.requestDataMapping))
         == Ok(c.remoteAddress + p + (if needsCharging then "True" else "False"))
  {
    var key := RequestDataKeyNeedsCharging;
    RemappedWithoutEntries(map[key := Bool(needsCharging)], c.requestDataMapping);
    assert !IsPositional(key) by {
      assert !('0' <= key[0] <= '9');
    }
    SingleFieldRequestLine(c.remoteAddress, p, key, Bool(needsCharging));
  }

  /** The two toggling decisions, sent unmapped. */
  lemma UnmappedScenarios(c: EngineConfig, p: string)
    requires UnmappedPowerTemplate(c, p)
    requires 1 <= c.charged < 100 && 1 < c.low <= 100
    ensures SendRequest(c, BatteryInfo(false, 1), Responded(200)) == Sent(c.requestMethod, c.remoteAddress + p + "True", Delivered(200))
    ensures SendRequest(c, BatteryInfo(true, 100), Responded(200)) == Sent(c.requestMethod, c.remoteAddress + p + "False", Delivered(200))
  {
    assert p + "{" + RequestDataKeyNeedsCharging + "}" == p + "{needs_charging}";
    ParsePlainPrefixThenNeedsCharging(p);
    UnmappedRequestLine(c, p, true);
    UnmappedRequestLine(c, p, false);
  }

  /** An empty template leaves the key list None, so send_request raises the TypeError. */
  lemma EmptyTemplateRaises(c: EngineConfig, info: BatteryInfo, response: Response)
    requires c.requestTemplate == ""
    ensures SendRequest(c, info, response) == Raised(KeyListIsNone)
  {
  }

  /** A single placeholder other than needs_charging leaves needs_charging out of the key list. */
  lemma UnknownPlaceholderKeyList(p: string, name: string)
    requires NoBraces(p) && |name| > 0 && NoBraces(name) && !IsPositional(name) && name != RequestDataKeyNeedsCharging
    ensures RequestDataKeyNeedsCharging !in ParseRequestDataKeyList(p + "{" + name + "}")
  {
    SinglePlaceholderTemplate(p, name, "", map[]);
    assert p + "{" + name + "}" + "" == p + "{" + name + "}";
    NeedsChargingKeyIff(p + "{" + name + "}");
  }

  /** Formatting such a template with empty data is the KeyError naming the placeholder. */
  lemma UnknownPlaceholderFormat(p: string, name: string)
    requires NoBraces(p) && |name| > 0 && NoBraces(name) && !IsPositional(name)
    ensures Format(p + "{" + name + "}", map[]) == Err(MissingKey(name))
  {
    var data: map<string, Scalar> := map[];
    FormatPlainPrefix(p, "{" + name + "}", data);
    assert p + "{" + name + "}" == p + ("{" + name + "}");
    FormatField(name, "", data);
    assert "{" + name + "}" + "" == "{" + name + "}";
  }

  /** A placeholder the request data does not hold is the KeyError of str.format, whatever the reading and the response. */
  lemma UnknownPlaceholderRaises(c: EngineConfig, p: string, name: string, info: BatteryInfo, response: Response)
    requires NoBraces(p) && |name| > 0 && NoBraces(name) && !IsPositional(name) && name != RequestDataKeyNeedsCharging
    requires c.requestTemplate == p + "{" + name + "}"
    ensures SendRequest(c, info, response) == Raised(TemplateError(MissingKey(name)))
  {
    UnknownPlaceholderKeyList(p, name);
    UnknownPlaceholderFormat(p, name);
    var empty: RequestData := map[];
    assert ExtractRequestData(KeyListFor(c.requestTemplate), c.charged, c.low, info) == Data(empty);
    assert Remapped(empty, c.requestDataMapping) == empty;
  }
}
