/**
 * The requester section of battery_handyman_class.py as values: the decision policy
 * (extract_request_data), the remapping (map_request_data_inplace), the request line and the
 * classification of the response (send_request).
 */
module Requester {
  import opened Wrappers
  import opened Constants
  import opened Text
  import opened Values
  import opened Util
  import opened TemplateFormat
  import opened Config

  /** The values for the template's placeholders. */
  type RequestData = map<string, Scalar>

  /** What extract_request_data does: fail, signal "do not toggle", or return the request data. */
  datatype Extraction =
    | KeyListMissing                        // TypeError: the key list is None (empty template)
    | NotToggled(signal: DoNotToogleCharging)
    | Data(data: RequestData)

  /** The policy: stop charging above `charged`, start charging below `low`, else leave it. */
  function ExtractRequestData(keyList: Option<seq<string>>, charged: int, low: int, info: BatteryInfo): (r: Extraction)
    ensures r.KeyListMissing? <==> keyList.None?
    ensures r.NotToggled? ==> r.signal.message == MsgChargingMustNotToBeToogled
    ensures keyList.Some? && RequestDataKeyNeedsCharging !in keyList.value ==> r == Data(map[])
    ensures keyList.Some? && RequestDataKeyNeedsCharging in keyList.value ==>
              && (r == Data(map[RequestDataKeyNeedsCharging := Bool(false)]) <==> info.isCharging && info.leftInPercents > charged)
              && (r == Data(map[RequestDataKeyNeedsCharging := Bool(true)]) <==> !info.isCharging && info.leftInPercents < low)
              && (r.NotToggled? <==>
                    !(info.isCharging && info.leftInPercents > charged) && !(!info.isCharging && info.leftInPercents < low))
  {
    var disable := map[RequestDataKeyNeedsCharging := Bool(false)];
    var enable := map[RequestDataKeyNeedsCharging := Bool(true)];
    assert disable[RequestDataKeyNeedsCharging] != enable[RequestDataKeyNeedsCharging];
    match keyList
    case None => KeyListMissing
    case Some(keys) =>
      if RequestDataKeyNeedsCharging !in keys then Data(map[])
      else if info.isCharging && info.leftInPercents > charged then
        Data(disable)
      else if !info.isCharging && info.leftInPercents < low then
        Data(enable)
      else NotToggled(NewDoNotToogleCharging(None))
  }

  /** Strict comparisons: a level equal to a limit never toggles; one step past it does. */
  lemma DecisionBoundaries(keys: seq<string>, charged: int, low: int)
    requires RequestDataKeyNeedsCharging in keys
    ensures ExtractRequestData(Some(keys), charged, low, BatteryInfo(true, charged)).NotToggled?
    ensures ExtractRequestData(Some(keys), charged, low, BatteryInfo(true, charged + 1))
         == Data(map[RequestDataKeyNeedsCharging := Bool(false)])
    ensures ExtractRequestData(Some(keys), charged, low, BatteryInfo(false, low)).NotToggled?
    ensures ExtractRequestData(Some(keys), charged, low, BatteryInfo(false, low - 1))
         == Data(map[RequestDataKeyNeedsCharging := Bool(true)])
  {
  }

  /** The request data only ever holds keys of the template's key list. */
  lemma ExtractedKeysAreTemplateKeys(keyList: Option<seq<string>>, charged: int, low: int, info: BatteryInfo)
    ensures ExtractRequestData(keyList, charged, low, info).Data? ==>
              forall k :: k in ExtractRequestData(keyList, charged, low, info).data ==> keyList.Some? && k in keyList.value
  {
  }

  /**
   * map_request_data_inplace: every key stays; a value is replaced exactly when the mapping has an
   * entry for its key and that entry has the raw value.
   */
  function Remapped(data: RequestData, mapping: DataMapping): (r: RequestData)
    ensures r.Keys == data.Keys
    ensures forall k :: k in data && k in mapping && data[k] in mapping[k] ==> r[k] == mapping[k][data[k]]
    ensures forall k :: k in data && !(k in mapping && data[k] in mapping[k]) ==> r[k] == data[k]
  {
    map k | k in data :: if k in mapping && data[k] in mapping[k] then mapping[k][data[k]] else data[k]
  }

  /** Remapping with a table that knows none of the keys changes nothing. */
  lemma RemappedWithoutEntries(data: RequestData, mapping: DataMapping)
    requires forall k :: k in data ==> k !in mapping
    ensures Remapped(data, mapping) == data
  {
  }

  /** remote_address + request_template.format(**request_data). */
  function RequestLine(address: string, template: string, data: RequestData): (r: Result<string, FormatError>)
    ensures r.Ok? <==> Format(template, data).Ok?
    ensures r.Ok? ==> |r.value| >= |address| && r.value[..|address|] == address
    ensures r.Ok? ==> r.value[|address|..] == Format(template, data).value
  {
    match Format(template, data)
    case Ok(path) => Ok(address + path)
    case Err(e) => Err(e)
  }

  /** What requests.request did: answered with a status, failed to connect, or raised another error. */
  datatype Response = Responded(status: int) | ConnectionFailed | RequestFailed

  /** How send_request classifies a request it made. */
  datatype Delivery = Delivered(status: int) | Rejected(status: int) | TransportFailure

  /** A status up to RESPONSE_STATUS_CODE_SUCCESS_MAX is a success, any other an error. */
  function Classify(status: int): (d: Delivery)
    ensures d.Delivered? || d.Rejected?
    ensures d.status == status
    ensures d.Delivered? <==> status <= ResponseStatusCodeSuccessMax
  {
    if status <= ResponseStatusCodeSuccessMax then Delivered(status) else Rejected(status)
  }

  /** The exceptions that escape send_request. */
  datatype CheckError =
    | KeyListIsNone                      // TypeError from extract_request_data
    | TemplateError(error: FormatError)  // from request_template.format
    | RequestException                   // a requests error other than ConnectionError

  /** The effect of one send_request call. */
  datatype SendResult =
    | NotSent(signal: DoNotToogleCharging)                           // DoNotToogleChargingException
    | Sent(requestMethod: string, requestLine: string, delivery: Delivery)  // the request was made
    | Raised(error: CheckError)                                      // another exception escaped

  /** send_request on an engine configured as c, with the sensor reading info and the transport's response. */
  function SendRequest(c: EngineConfig, info: BatteryInfo, response: Response): (r: SendResult)
    ensures c.requestTemplate == "" ==> r == Raised(KeyListIsNone)
    ensures r.NotSent? ==> r.signal.message == MsgChargingMustNotToBeToogled
    ensures r.Sent? ==>
              && r.requestMethod == c.requestMethod
              && |r.requestLine| >= |c.remoteAddress| && r.requestLine[..|c.remoteAddress|] == c.remoteAddress
    ensures r.Sent? && response.Responded? ==> r.delivery == Classify(response.status)
    ensures r.Sent? && response.ConnectionFailed? ==> r.delivery == TransportFailure
    ensures response.RequestFailed? ==> !r.Sent?
    ensures var e := ExtractRequestData(KeyListFor(c.requestTemplate), c.charged, c.low, info);
            e.Data? ==>
              var l := RequestLine(c.remoteAddress, c.requestTemplate, Remapped(e.data, c.requestDataMapping));
              && (l.Ok? && !response.RequestFailed? ==> r.Sent? && r.requestLine == l.value)
              && (l.Ok? && response.RequestFailed? ==> r == Raised(RequestException))
              && (l.Err? ==> r == Raised(TemplateError(l.error)))
  {
    match ExtractRequestData(KeyListFor(c.requestTemplate), c.charged, c.low, info)
    case KeyListMissing => Raised(KeyListIsNone)
    case NotToggled(signal) => NotSent(signal)
    case Data(data) =>
      match RequestLine(c.remoteAddress, c.requestTemplate, Remapped(data, c.requestDataMapping))
      case Err(e) => Raised(TemplateError(e))
      case Ok(line) =>
        match response
        case Responded(status) => Sent(c.requestMethod, line, Classify(status))
        case ConnectionFailed => Sent(c.requestMethod, line, TransportFailure)
        case RequestFailed => Raised(RequestException)
  }

  /** A request is sent with the configured method to the address followed by the formatted template. */
  lemma SentRequestLine(c: EngineConfig, info: BatteryInfo, response: Response)
    requires SendRequest(c, info, response).Sent?
    ensures var extraction := ExtractRequestData(KeyListFor(c.requestTemplate), c.charged, c.low, info);
            && extraction.Data?
            && var path := Format(c.requestTemplate, Remapped(extraction.data, c.requestDataMapping));
            && path.Ok?
            && SendRequest(c, info, response).requestMethod == c.requestMethod
            && SendRequest(c, info, response).requestLine == c.remoteAddress + path.value
  {
    var extraction := ExtractRequestData(KeyListFor(c.requestTemplate), c.charged, c.low, info);
    var line := RequestLine(c.remoteAddress, c.requestTemplate, Remapped(extraction.data, c.requestDataMapping));
    assert line.value == line.value[..|c.remoteAddress|] + line.value[|c.remoteAddress|..];
  }

  /** Nothing is sent, and the signal is raised, exactly when the template asks for needs_charging and the policy keeps still. */
  lemma NotSentIff(c: EngineConfig, info: BatteryInfo, response: Response)
    ensures SendRequest(c, info, response).NotSent? <==>
              && c.requestTemplate != ""
              && RequestDataKeyNeedsCharging in FindAll(c.requestTemplate)
              && !(info.isCharging && info.leftInPercents > c.charged)
              && !(!info.isCharging && info.leftInPercents < c.low)
  {
    NeedsChargingKeyIff(c.requestTemplate);
  }

  /** The transport's answer decides only the classification, never whether a request is made. */
  lemma ResponseOnlyClassifies(c: EngineConfig, info: BatteryInfo, status: int)
    requires SendRequest(c, info, Responded(status)).Sent?
    ensures SendRequest(c, info, Responded(status)).delivery == Classify(status)
    ensures SendRequest(c, info, ConnectionFailed)
         == Sent(c.requestMethod, SendRequest(c, info, Responded(status)).requestLine, TransportFailure)
    ensures SendRequest(c, info, RequestFailed) == Raised(RequestException)
    ensures forall s :: SendRequest(c, info, Responded(s))
                     == Sent(c.requestMethod, SendRequest(c, info, Responded(status)).requestLine, Classify(s))
  {
  }
}
