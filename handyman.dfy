/**
 * The BatteryHandyman class of battery_handyman_class.py: its validated properties, its
 * construction, the requester pipeline over its fields, and the check cycle on its scheduler.
 */
module Handyman {
  import opened Wrappers
  import opened Constants
  import opened Text
  import opened Values
  import opened Util
  import opened TemplateFormat
  import opened Config
  import opened Requester
  import opened Sched

  /** The stripping loop of the constructor: drop the last character while it is '/'. */
  method StripTrailingSlashes(address: string) returns (r: string)
    ensures r <= address && !EndsWithSlash(r)
    ensures forall i :: |r| <= i < |address| ==> address[i] == '/'
    ensures r == TrimTrailingSlashes(address)
  {
    r := address;
    while EndsWithSlash(r)
      invariant r <= address
      invariant forall i :: |r| <= i < |address| ==> address[i] == '/'
      decreases |r|
    {
      r := r[..|r| - 1];
    }
    TrimTrailingSlashesUnique(address, r);
  }

  class BatteryHandyman {
    var batteryLimitCharged: int
    var batteryLimitLow: int
    var checkInterval: int
    var remoteAddress: string
    var requestTemplate: string
    /** The whitelisted placeholders of requestTemplate; None for an empty template. */
    var requestDataKeyList: Option<seq<string>>
    var requestMethod: string
    var requestDataMapping: DataMapping
    const scheduler: Scheduler

    /** What every setter keeps: limits in range, the key list derived from the template. */
    ghost predicate Valid()
      reads this, scheduler
    {
      && InLimitRange(batteryLimitCharged) && InLimitRange(batteryLimitLow)
      && requestDataKeyList == KeyListFor(requestTemplate)
      && scheduler.Valid()
    }

    /** The stored configuration. */
    function State(): EngineConfig
      reads this
    {
      EngineConfig(batteryLimitCharged, batteryLimitLow, checkInterval, remoteAddress,
                   requestTemplate, requestMethod, requestDataMapping)
    }

    /** A fresh engine with its own empty scheduler, before the constructor assigns its properties. */
    constructor ()
      ensures Valid() && fresh(scheduler) && scheduler.queue == []
      ensures batteryLimitCharged == BatteryLimitValueDefaultCharged && batteryLimitLow == BatteryLimitValueDefaultLow
    {
      batteryLimitCharged := BatteryLimitValueDefaultCharged;
      batteryLimitLow := BatteryLimitValueDefaultLow;
      checkInterval := 0;
      remoteAddress := "";
      requestTemplate := "";
      requestDataKeyList := None;
      requestMethod := "";
      requestDataMapping := map[];
      scheduler := new Scheduler();
    }

    // -------------------------------------------------------------------------
    // Properties

    /** The battery_limit_charged setter: a value outside [0, 100] is a ValueError and is not stored. */
    method SetBatteryLimitCharged(value: int) returns (r: Outcome<ConfigError>)
      requires Valid()
      modifies this`batteryLimitCharged
      ensures Valid()
      ensures r.Pass? <==> InLimitRange(value)
      ensures r.Fail? ==> r.error == InvalidLimit("battery_limit_charged", value)
      ensures batteryLimitCharged == if r.Pass? then value else old(batteryLimitCharged)
    {
      if value < BatteryLimitValueMinimal || value > BatteryLimitValueMaximal {
        return Fail(InvalidLimit("battery_limit_charged", value));
      }
      batteryLimitCharged := value;
      r := Pass;
    }

    /** The battery_limit_low setter: a value outside [0, 100] is a ValueError and is not stored. */
    method SetBatteryLimitLow(value: int) returns (r: Outcome<ConfigError>)
      requires Valid()
      modifies this`batteryLimitLow
      ensures Valid()
      ensures r.Pass? <==> InLimitRange(value)
      ensures r.Fail? ==> r.error == InvalidLimit("battery_limit_low", value)
      ensures batteryLimitLow == if r.Pass? then value else old(batteryLimitLow)
    {
      if value < BatteryLimitValueMinimal || value > BatteryLimitValueMaximal {
        return Fail(InvalidLimit("battery_limit_low", value));
      }
      batteryLimitLow := value;
      r := Pass;
    }

    method SetCheckInterval(value: int)
      requires Valid()
      modifies this`checkInterval
      ensures Valid() && checkInterval == value
    {
      checkInterval := value;
    }

    method SetRemoteAddress(value: string)
      requires Valid()
      modifies this`remoteAddress
      ensures Valid() && remoteAddress == value
    {
      remoteAddress := value;
    }

    /** The request_template setter also re-derives the key list. */
    method SetRequestTemplate(value: string)
      requires Valid()
      modifies this`requestTemplate, this`requestDataKeyList
      ensures Valid() && requestTemplate == value
      ensures requestDataKeyList == if value == "" then None else Some(ParseRequestDataKeyList(value))
    {
      requestDataKeyList := None;
      if value != "" {
        requestDataKeyList := Some(ParseRequestDataKeyList(value));
      }
      requestTemplate := value;
    }

    method SetRequestMethod(value: string)
      requires Valid()
      modifies this`requestMethod
      ensures Valid() && requestMethod == value
    {
      requestMethod := value;
    }

    method SetRequestDataMapping(value: DataMapping)
      requires Valid()
      modifies this`requestDataMapping
      ensures Valid() && requestDataMapping == value
    {
      requestDataMapping := value;
    }

    // -------------------------------------------------------------------------
    // Construction and the configuration dictionary

    /** The limit and interval assignments of __init__, each through its setter, stopping at the first error. */
    method AssignLimits(batteryLimitConfig: Option<Section>, checkConfig: Option<Section>, intervalDefault: Option<int>)
      returns (r: Outcome<ConfigError>)
      requires Valid()
      modifies this`batteryLimitCharged, this`batteryLimitLow, this`checkInterval
      ensures Valid()
      ensures r.Pass? <==> ReadLimits(batteryLimitConfig, checkConfig, intervalDefault).Ok?
      ensures r.Fail? ==> r.error == ReadLimits(batteryLimitConfig, checkConfig, intervalDefault).error
      ensures r.Pass? ==> ReadLimits(batteryLimitConfig, checkConfig, intervalDefault).value
                          == Limits(batteryLimitCharged, batteryLimitLow, checkInterval)
    {
      var charged := LimitValue(batteryLimitConfig, "charged", BatteryLimitValueDefaultCharged);
      if charged.Err? { return Fail(charged.error); }
      r := SetBatteryLimitCharged(charged.value);
      if r.Fail? { return; }
      var low := LimitValue(batteryLimitConfig, "low", BatteryLimitValueDefaultLow);
      if low.Err? { return Fail(low.error); }
      r := SetBatteryLimitLow(low.value);
      if r.Fail? { return; }
      var interval := CheckIntervalValue(checkConfig, intervalDefault);
      if interval.Err? { return Fail(interval.error); }
      SetCheckInterval(interval.value);
    }

    /** The template, method and mapping assignments of __init__, each through its setter, stopping at the first error. */
    method AssignRequest(template: Value, section: Section, mapping: Value) returns (r: Outcome<ConfigError>)
      requires Valid()
      modifies this`requestTemplate, this`requestDataKeyList, this`requestMethod, this`requestDataMapping
      ensures Valid()
      ensures r.Pass? <==> ReadRequest(template, section, mapping).Ok?
      ensures r.Fail? ==> r.error == ReadRequest(template, section, mapping).error
      ensures r.Pass? ==> ReadRequest(template, section, mapping).value
                          == RequestFields(requestTemplate, requestMethod, requestDataMapping)
    {
      if !template.StrValue? { return Fail(WrongType("request_template")); }
      SetRequestTemplate(template.s);
      var verb := Attribute(section, "request_method");
      if verb.Err? { return Fail(verb.error); }
      if !verb.value.StrValue? { return Fail(WrongType("request_method")); }
      SetRequestMethod(verb.value.s);
      if !mapping.MappingValue? { return Fail(WrongType("request_data_mapping")); }
      SetRequestDataMapping(mapping.m);
      r := Pass;
    }

    /** __init__: read the reaction section, strip the address, then assign every property through its setter. */
    static method Create(batteryLimitConfig: Option<Section>, checkConfig: Option<Section>,
                         remoteRequestConfig: Option<Section>, intervalDefault: int)
      returns (r: Result<BatteryHandyman, ConfigError>)
      ensures r.Ok? <==> Init(batteryLimitConfig, checkConfig, remoteRequestConfig, intervalDefault).Ok?
      ensures r.Err? ==> r.error == Init(batteryLimitConfig, checkConfig, remoteRequestConfig, intervalDefault).error
      ensures r.Ok? ==> && fresh(r.value) && fresh(r.value.scheduler) && r.value.Valid()
                        && r.value.State() == Init(batteryLimitConfig, checkConfig, remoteRequestConfig, intervalDefault).value
                        && r.value.scheduler.queue == []
    {
      if remoteRequestConfig.None? {
        return Err(MissingReaction);
      }
      var section := remoteRequestConfig.value;
      var address := Attribute(section, "remote_address");
      if address.Err? { return Err(address.error); }
      var template := Attribute(section, "request_template");
      if template.Err? { return Err(template.error); }
      var mapping := Attribute(section, "request_data_mapping");
      if mapping.Err? { return Err(mapping.error); }
      if !address.value.StrValue? { return Err(WrongType("remote_address")); }
      var stripped := StripTrailingSlashes(address.value.s);

      var h := new BatteryHandyman();
      var outcome := h.AssignLimits(batteryLimitConfig, checkConfig, Some(intervalDefault));
      if outcome.Fail? { return Err(outcome.error); }

      h.SetRemoteAddress(stripped);
      outcome := h.AssignRequest(template.value, section, mapping.value);
      if outcome.Fail? { return Err(outcome.error); }
      r := Ok(h);
    }

    /** init_from_config_dict_mapping on a fresh object: any failure is the one ValueError. */
    static method FromConfigDictMapping(d: ConfigDict, intervalDefault: int) returns (r: Result<BatteryHandyman, ConfigError>)
      ensures r.Ok? <==> FromConfigDict(d, intervalDefault).Ok?
      ensures r.Err? ==> r.error == MalformedConfiguration
      ensures r.Ok? ==> && fresh(r.value) && r.value.Valid() && r.value.State() == FromConfigDict(d, intervalDefault).value
                        && r.value.scheduler.queue == []
    {
      if !(d.Keys <= {ConfigNameBatteryLimit, ConfigNameCheck, ConfigNameRemoteRequest}) {
        return Err(MalformedConfiguration);
      }
      r := Create(SectionOf(d, ConfigNameBatteryLimit), SectionOf(d, ConfigNameCheck),
                  SectionOf(d, ConfigNameRemoteRequest), intervalDefault);
      if r.Err? {
        r := Err(MalformedConfiguration);
      }
    }

    /** to_config_dict_mapping */
    function ToConfigDictMapping(): (d: ConfigDict)
      reads this
      ensures d.Keys == {ConfigNameBatteryLimit, ConfigNameCheck, ConfigNameRemoteRequest}
      ensures d == ToConfigDict(State())
      ensures d[ConfigNameBatteryLimit] == map["charged" := IntValue(batteryLimitCharged), "low" := IntValue(batteryLimitLow)]
      ensures d[ConfigNameCheck] == map["check_interval" := IntValue(checkInterval)]
      ensures d[ConfigNameRemoteRequest]
           == map["remote_address" := StrValue(remoteAddress), "request_data_mapping" := MappingValue(requestDataMapping),
                  "request_method" := StrValue(requestMethod), "request_template" := StrValue(requestTemplate)]
    {
      ToConfigDict(State())
    }

    /** An engine whose address has no trailing '/' re-initialises from its own dictionary to the same dictionary. */
    lemma ReinitialisingReproducesMapping(intervalDefault: int)
      requires Valid() && !EndsWithSlash(remoteAddress)
      ensures FromConfigDict(ToConfigDictMapping(), intervalDefault) == Ok(State())
      ensures ToConfigDict(FromConfigDict(ToConfigDictMapping(), intervalDefault).value) == ToConfigDictMapping()
    {
      ConfigDictRoundTrip(State(), intervalDefault);
    }

    // -------------------------------------------------------------------------
    // Requester

    /** map_request_data_inplace: one pass over the keys, replacing the values the mapping knows. */
    method MapRequestDataInplace(data: RequestData) returns (r: RequestData)
      ensures r == Remapped(data, requestDataMapping)
    {
      r := data;
      var pending := data.Keys;
      while pending != {}
        invariant pending <= data.Keys && r.Keys == data.Keys
        invariant forall k :: k in data && k !in pending ==> r[k] == Remapped(data, requestDataMapping)[k]
        invariant forall k :: k in pending ==> r[k] == data[k]
        decreases pending
      {
        var k :| k in pending;
        if k in requestDataMapping {
          var valueMapping := requestDataMapping[k];
          if data[k] in valueMapping {
            r := r[k := valueMapping[data[k]]];
          }
        }
        pending := pending - {k};
      }
    }

    /** send_request, with response standing for what requests.request does with the request line. */
    method SendRequest(info: BatteryInfo, response: Response) returns (r: SendResult)
      requires Valid()
      ensures r == Requester.SendRequest(State(), info, response)
    {
      var extraction := ExtractRequestData(requestDataKeyList, batteryLimitCharged, batteryLimitLow, info);
      if extraction.KeyListMissing? {
        return Raised(KeyListIsNone);
      }
      if extraction.NotToggled? {
        return NotSent(extraction.signal);
      }
      var data := MapRequestDataInplace(extraction.data);
      var line := RequestLine(remoteAddress, requestTemplate, data);
      if line.Err? {
        return Raised(TemplateError(line.error));
      }
      match response
      case ConnectionFailed => r := Sent(requestMethod, line.value, TransportFailure);
      case RequestFailed => r := Raised(RequestException);
      case Responded(status) => r := Sent(requestMethod, line.value, Classify(status));
    }

    // -------------------------------------------------------------------------
    // Checker

    /** schedule_new_check: an entry for the check, due now, or checkInterval after now. */
    method ScheduleNewCheck(initial: bool, now: int)
      requires Valid()
      modifies scheduler
      ensures Valid()
      ensures scheduler.queue == Insert(old(scheduler.queue),
                                        Event(now + (if initial then 0 else checkInterval), 1, old(scheduler.nextSequence), Action.PerformCheck))
      ensures scheduler.nextSequence == old(scheduler.nextSequence) + 1
    {
      var _ := scheduler.Enter(if initial then 0 else checkInterval, 1, Action.PerformCheck, now);
    }

    /**
     * perform_check: send_request on the sensor reading, then the next check, which is entered
     * after "do not toggle" too, and is not entered when another exception escapes.
     */
    method PerformCheck(info: BatteryInfo, response: Response, now: int) returns (r: SendResult)
      requires Valid()
      modifies scheduler
      ensures Valid()
      ensures r == Requester.SendRequest(State(), info, response)
      ensures r.Raised? ==> scheduler.queue == old(scheduler.queue) && scheduler.nextSequence == old(scheduler.nextSequence)
      ensures !r.Raised? ==>
                && scheduler.queue == Insert(old(scheduler.queue), Event(now + checkInterval, 1, old(scheduler.nextSequence), Action.PerformCheck))
                && scheduler.nextSequence == old(scheduler.nextSequence) + 1
    {
      r := SendRequest(info, response);
      if r.Raised? {
        return;
      }
      ScheduleNewCheck(false, now);
    }

    /** start: the first check is entered with delay 0 (running the scheduler is RunDue, step by step). */
    method Start(now: int)
      requires Valid()
      modifies scheduler
      ensures Valid()
      ensures scheduler.queue == Insert(old(scheduler.queue), Event(now, 1, old(scheduler.nextSequence), Action.PerformCheck))
      ensures scheduler.nextSequence == old(scheduler.nextSequence) + 1
    {
      ScheduleNewCheck(true, now);
    }

    /**
     * One step of the scheduler's run loop: when the earliest entry is due at now, it is taken off
     * the queue and the check runs; finishedAt is the clock reading when the check enters the next one.
     */
    method RunDue(now: int, info: BatteryInfo, response: Response, finishedAt: int) returns (r: Option<SendResult>)
      requires Valid()
      modifies scheduler
      ensures Valid()
      ensures r.Some? <==> old(scheduler.queue) != [] && old(scheduler.queue)[0].time <= now
      ensures r.None? ==> scheduler.queue == old(scheduler.queue) && scheduler.nextSequence == old(scheduler.nextSequence)
      ensures r.Some? ==> r.value == Requester.SendRequest(State(), info, response)
      ensures r.Some? && !r.value.Raised? ==>
                && scheduler.queue == Insert(old(scheduler.queue)[1..],
                                             Event(finishedAt + checkInterval, 1, old(scheduler.nextSequence), Action.PerformCheck))
                && scheduler.nextSequence == old(scheduler.nextSequence) + 1
      ensures r.Some? && r.value.Raised? ==>
                scheduler.queue == old(scheduler.queue)[1..] && scheduler.nextSequence == old(scheduler.nextSequence)
    {
      ghost var config := State();
      var due := scheduler.PopDue(now);
      if due.None? {
        return None;
      }
      assert State() == config;
      var result := PerformCheck(info, response, finishedAt);
      r := Some(result);
    }

    /** stop: cancel every pending entry; on an empty queue nothing happens. */
    method Stop()
      requires Valid()
      modifies scheduler
      ensures Valid() && scheduler.queue == []
      ensures scheduler.nextSequence == old(scheduler.nextSequence)
    {
      var empty := scheduler.Empty();
      if !empty {
        var pending := scheduler.queue;
        var i := 0;
        while i < |pending|
          invariant 0 <= i <= |pending|
          invariant scheduler.Valid() && scheduler.queue == pending[i..]
          invariant scheduler.nextSequence == old(scheduler.nextSequence)
        {
          RemoveHead(pending[i..]);
          var _ := scheduler.Cancel(pending[i]);
          assert pending[i..][1..] == pending[i + 1..];
          i := i + 1;
        }
      }
    }
  }
}
