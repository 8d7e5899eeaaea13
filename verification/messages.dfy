/**
 * Push payload parsing and mobile-originated messages
 * (Pod/Classes/Models/MMMessage.swift).
 */
module Messages {
  import opened Wrappers
  import opened Payload

  // The `MMAPIKeys` constants. Their values are not part of this model;
  // these literals stand for them, and the proofs rely only on the keys
  // of one dictionary being distinct.
  const kMessageId := "messageId"
  const kAps := "aps"
  const kInternalData := "internalData"
  const kSilent := "silent"
  const kCustomPayload := "customPayload"
  const kGeo := "geo"
  const kBody := "body"
  const kTitle := "title"
  const kSound := "sound"
  const kAlert := "alert"
  const kMODestination := "destination"
  const kMOText := "text"
  const kMOCustomPayload := "customPayload"
  const kMOMessageId := "messageId"
  const kMOMessageSentStatusCode := "messageSentStatusCode"

  // ---------------------------------------------------------------------
  // MMMessage

  /** `MMAPS`: the native `aps` dictionary, or the one merged with silent parameters. */
  datatype APS = NativeAPS(dict: Dict) | SilentAPS(dict: Dict)

  datatype MMMessage = MMMessage(
    isSilent: bool,
    messageId: string,
    originalPayload: Dict,
    customPayload: Option<Dict>,
    aps: APS,
    silentData: Option<Dict>,
    geoRegions: Option<seq<Dict>>)

  /** `payload[internalData]?[silent] as? [String: AnyObject]` */
  function SilentDict(payload: Dict): (r: Option<Dict>)
    ensures r.Some? <==> DictAt(payload, kInternalData).Some? && DictAt(DictAt(payload, kInternalData).value, kSilent).Some?
    ensures r.Some? ==> payload[kInternalData] == VDict(payload[kInternalData].entries) &&
                        payload[kInternalData].entries[kSilent] == VDict(r.value)
  {
    match NestedAt(payload, kInternalData, kSilent)
    case Some(VDict(d)) => Some(d)
    case _ => None
  }

  /** `checkIfSilent`: the APNS-originated silent dictionary, else the server-originated flag, else false. */
  function CheckIfSilent(payload: Option<Dict>): (r: bool)
    ensures r <==> payload.Some? && (SilentDict(payload.value).Some? || BoolAt(payload.value, kSilent) == Some(true))
    ensures payload.Some? && SilentDict(payload.value).None? ==> r == BoolAt(payload.value, kSilent).GetOr(false)
  {
    match payload
    case None => false
    case Some(p) =>
      if SilentDict(p).Some? then true
      else BoolAt(p, kSilent).GetOr(false)
  }

  /** The `alert` dictionary built from the silent parameters: `body` and `title` when they are strings. */
  function SilentAlert(silentAPS: Dict): (alert: Dict)
    ensures alert.Keys <= {kBody, kTitle}
    ensures kBody in alert <==> StringAt(silentAPS, kBody).Some?
    ensures kTitle in alert <==> StringAt(silentAPS, kTitle).Some?
    ensures kBody in alert ==> alert[kBody] == VString(StringAt(silentAPS, kBody).value)
    ensures kTitle in alert ==> alert[kTitle] == VString(StringAt(silentAPS, kTitle).value)
  {
    (match StringAt(silentAPS, kBody) case Some(b) => map[kBody := VString(b)] case None => map[]) +
    (match StringAt(silentAPS, kTitle) case Some(t) => map[kTitle := VString(t)] case None => map[])
  }

  /**
   * What `mergeApsWithSilentParameters` returns: the native `aps`, with
   * `alert` replaced by the silent alert and `sound` overridden by a silent
   * string `sound`.
   */
  function MergedAps(nativeAPS: Dict, silentAPS: Dict): (r: Dict)
    ensures r.Keys == nativeAPS.Keys + {kAlert} + (if StringAt(silentAPS, kSound).Some? then {kSound} else {})
    ensures r[kAlert] == VDict(SilentAlert(silentAPS))
    ensures StringAt(silentAPS, kSound).Some? ==> r[kSound] == VString(StringAt(silentAPS, kSound).value)
    ensures forall k :: k in nativeAPS && k != kAlert && (k != kSound || StringAt(silentAPS, kSound).None?) ==>
                          r[k] == nativeAPS[k]
  {
    var withAlert := nativeAPS[kAlert := VDict(SilentAlert(silentAPS))];
    match StringAt(silentAPS, kSound)
    case Some(sound) => withAlert[kSound := VString(sound)]
    case None => withAlert
  }

  /** `mergeApsWithSilentParameters`, building the result dictionary step by step. */
  method MergeApsWithSilentParameters(nativeAPS: Dict, silentAPS: Dict) returns (resultAps: Dict)
    ensures resultAps == MergedAps(nativeAPS, silentAPS)
  {
    resultAps := map[];
    var alert: Dict := map[];
    resultAps := resultAps + nativeAPS;
    if kBody in silentAPS && silentAPS[kBody].VString? {
      alert := alert[kBody := silentAPS[kBody]];
    }
    if kTitle in silentAPS && silentAPS[kTitle].VString? {
      alert := alert[kTitle := silentAPS[kTitle]];
    }
    assert alert == SilentAlert(silentAPS);
    assert resultAps == nativeAPS;
    resultAps := resultAps[kAlert := VDict(alert)];
    if kSound in silentAPS && silentAPS[kSound].VString? {
      resultAps := resultAps[kSound := silentAPS[kSound]];
    }
  }

  /** `init?(payload:)`. */
  function ParseMessage(payload: Dict): (r: Option<MMMessage>)
    ensures r.Some? <==> StringAt(payload, kMessageId).Some? && DictAt(payload, kAps).Some?
    ensures r.Some? ==> r.value.messageId == StringAt(payload, kMessageId).value
    ensures r.Some? ==> r.value.originalPayload == payload
    ensures r.Some? ==> r.value.isSilent == CheckIfSilent(Some(payload))
    ensures r.Some? ==> r.value.silentData == SilentDict(payload)
    ensures r.Some? ==> r.value.customPayload == DictAt(payload, kCustomPayload)
    ensures r.Some? ==> r.value.geoRegions == (match NestedAt(payload, kInternalData, kGeo)
                                              case Some(v) => AsDictArray(v)
                                              case None => None)
  {
    match (StringAt(payload, kMessageId), DictAt(payload, kAps))
    case (Some(messageId), Some(nativeAPS)) =>
      var isSilent := CheckIfSilent(Some(payload));
      var aps :=
        if isSilent then
          match SilentDict(payload)
          case Some(silentAPS) => SilentAPS(MergedAps(nativeAPS, silentAPS))
          case None => NativeAPS(nativeAPS)
        else NativeAPS(nativeAPS);
      var geoRegions :=
        match NestedAt(payload, kInternalData, kGeo)
        case Some(v) => AsDictArray(v)
        case None => None;
      Some(MMMessage(isSilent, messageId, payload, DictAt(payload, kCustomPayload), aps, SilentDict(payload), geoRegions))
    case _ => None
  }

  /**
   * The merged `aps` is used exactly when an `internalData.silent`
   * dictionary exists; a message silent only through the top-level flag
   * keeps its native `aps`.
   */
  lemma SilentApsExactlyWithSilentDict(payload: Dict)
    requires ParseMessage(payload).Some?
    ensures ParseMessage(payload).value.aps.SilentAPS? <==> SilentDict(payload).Some?
    ensures SilentDict(payload).Some? ==>
              ParseMessage(payload).value.aps ==
              SilentAPS(MergedAps(DictAt(payload, kAps).value, SilentDict(payload).value))
    ensures SilentDict(payload).None? ==> ParseMessage(payload).value.aps == NativeAPS(DictAt(payload, kAps).value)
    ensures ParseMessage(payload).value.isSilent && ParseMessage(payload).value.aps.NativeAPS? ==>
              BoolAt(payload, kSilent) == Some(true)
  {
  }

  /** `init?(json:)`: a JSON value that is not a dictionary gives no message. */
  function MessageFromJson(json: Value): (r: Option<MMMessage>)
    ensures r.Some? <==> json.VDict? && StringAt(json.entries, kMessageId).Some? && DictAt(json.entries, kAps).Some?
    ensures r.Some? ==> r.value.originalPayload == json.entries
    ensures r.Some? ==> r.value.messageId == StringAt(json.entries, kMessageId).value
  {
    if json.VDict? then ParseMessage(json.entries) else None
  }

  // ---------------------------------------------------------------------
  // MOMessage

  /** `MOMessageSentStatus`. */
  datatype MOMessageSentStatus = Undefined | SentSuccessfully | SentWithFailure

  function StatusRawValue(s: MOMessageSentStatus): (raw: int)
    ensures s == Undefined <==> raw == -1
    ensures s == SentSuccessfully <==> raw == 0
    ensures s == SentWithFailure <==> raw == 1
  {
    match s
    case Undefined => -1
    case SentSuccessfully => 0
    case SentWithFailure => 1
  }

  /** `MOMessageSentStatus(rawValue:)`. */
  function StatusFromRawValue(raw: int): (r: Option<MOMessageSentStatus>)
    ensures r.Some? <==> raw in {-1, 0, 1}
    ensures r.Some? ==> StatusRawValue(r.value) == raw
  {
    if raw == -1 then Some(Undefined)
    else if raw == 0 then Some(SentSuccessfully)
    else if raw == 1 then Some(SentWithFailure)
    else None
  }

  lemma StatusRawValueRoundTrip(s: MOMessageSentStatus)
    ensures StatusFromRawValue(StatusRawValue(s)) == Some(s)
    ensures StatusRawValue(s) in {-1, 0, 1}
  {
  }

  /** The values `CustomPayloadSupportedTypes` admits: `NSString` and `NSNull`. */
  datatype CustomValue = CString(str: string) | CNull

  function CustomToValue(c: CustomValue): Value {
    match c
    case CString(s) => VString(s)
    case CNull => VNull
  }

  /** A custom payload as it appears in a dictionary. */
  function CustomPayloadValue(cp: map<string, CustomValue>): Value {
    VDict(map k | k in cp :: CustomToValue(cp[k]))
  }

  /** `v as? [String: CustomPayloadSupportedTypes]`. */
  function AsCustomPayload(v: Value): (r: Option<map<string, CustomValue>>)
    ensures r.Some? <==> v.VDict? && forall k :: k in v.entries ==> v.entries[k].VString? || v.entries[k].VNull?
    ensures r.Some? ==> CustomPayloadValue(r.value) == v
  {
    if v.VDict? && forall k :: k in v.entries ==> v.entries[k].VString? || v.entries[k].VNull? then
      var cp := map k | k in v.entries :: if v.entries[k].VString? then CString(v.entries[k].str) else CNull;
      assert CustomPayloadValue(cp).entries == v.entries;
      Some(cp)
    else None
  }

  datatype MOMessage = MOMessage(
    destination: Option<string>,
    text: string,
    customPayload: Option<map<string, CustomValue>>,
    messageId: string,
    status: MOMessageSentStatus)

  /**
   * The public initialisers: `init(destination:text:customPayload:)` (whose
   * `messageId` is a fresh UUID, an input here) and
   * `init(messageId:destination:text:customPayload:)`.
   */
  function NewMOMessage(messageId: string, destination: Option<string>, text: string,
                        customPayload: Option<map<string, CustomValue>>): (m: MOMessage)
    ensures m.status == Undefined && StatusRawValue(m.status) == -1
    ensures m.messageId == messageId && m.destination == destination
    ensures m.text == text && m.customPayload == customPayload
  {
    MOMessage(destination, text, customPayload, messageId, Undefined)
  }

  /** `init?(dictionary:)`. */
  function ParseMODictionary(d: Dict): (r: Option<MOMessage>)
    ensures r.Some? <==> StringAt(d, kMOMessageId).Some? && StringAt(d, kMOText).Some? &&
                         IntAt(d, kMOMessageSentStatusCode).Some?
    ensures r.Some? ==> r.value.messageId == StringAt(d, kMOMessageId).value && r.value.text == StringAt(d, kMOText).value
    ensures r.Some? ==> r.value.destination == StringAt(d, kMODestination)
    ensures r.Some? ==> (r.value.customPayload.Some? <==>
                           kMOCustomPayload in d && AsCustomPayload(d[kMOCustomPayload]).Some?)
    ensures r.Some? && r.value.customPayload.Some? ==>
              CustomPayloadValue(r.value.customPayload.value) == d[kMOCustomPayload]
    ensures r.Some? ==> var code := IntAt(d, kMOMessageSentStatusCode).value;
                        if code in {-1, 0, 1} then StatusRawValue(r.value.status) == code else r.value.status == Undefined
  {
    match (StringAt(d, kMOMessageId), StringAt(d, kMOText), IntAt(d, kMOMessageSentStatusCode))
    case (Some(messageId), Some(text), Some(status)) =>
      var customPayload := if kMOCustomPayload in d then AsCustomPayload(d[kMOCustomPayload]) else None;
      Some(MOMessage(StringAt(d, kMODestination), text, customPayload, messageId,
                     StatusFromRawValue(status).GetOr(Undefined)))
    case _ => None
  }

  /** `convenience init?(json:)`. */
  function MOMessageFromJson(json: Value): (r: Option<MOMessage>)
    ensures r.Some? <==> json.VDict? && StringAt(json.entries, kMOMessageId).Some? &&
                         StringAt(json.entries, kMOText).Some? && IntAt(json.entries, kMOMessageSentStatusCode).Some?
    ensures r.Some? ==> r.value.messageId == StringAt(json.entries, kMOMessageId).value
    ensures r.Some? ==> r.value.text == StringAt(json.entries, kMOText).value
  {
    if json.VDict? then ParseMODictionary(json.entries) else None
  }

  /**
   * `dictRepresentation`, built step by step. It carries no status code, so
   * it does not parse back by itself; with the status code added it parses
   * back to the same message.
   */
  method DictRepresentation(m: MOMessage) returns (result: Dict)
    ensures result.Keys == {kMOText, kMOMessageId} +
                           (if m.destination.Some? then {kMODestination} else {}) +
                           (if m.customPayload.Some? then {kMOCustomPayload} else {})
    ensures result[kMOText] == VString(m.text) && result[kMOMessageId] == VString(m.messageId)
    ensures m.destination.Some? ==> result[kMODestination] == VString(m.destination.value)
    ensures m.customPayload.Some? ==> result[kMOCustomPayload] == CustomPayloadValue(m.customPayload.value)
    ensures ParseMODictionary(result) == None
    ensures ParseMODictionary(result[kMOMessageSentStatusCode := VInt(StatusRawValue(m.status))]) == Some(m)
  {
    result := map[];
    if m.destination.Some? {
      result := result[kMODestination := VString(m.destination.value)];
    }
    result := result[kMOText := VString(m.text)];
    if m.customPayload.Some? {
      result := result[kMOCustomPayload := CustomPayloadValue(m.customPayload.value)];
    }
    result := result[kMOMessageId := VString(m.messageId)];
    CustomPayloadRoundTrip(m.customPayload);
    StatusRawValueRoundTrip(m.status);
  }

  lemma CustomPayloadRoundTrip(cp: Option<map<string, CustomValue>>)
    ensures cp.Some? ==> AsCustomPayload(CustomPayloadValue(cp.value)) == cp
  {
    if cp.Some? {
      var v := CustomPayloadValue(cp.value);
      var r := AsCustomPayload(v);
      assert r.Some?;
      assert r.value == cp.value by {
        assert r.value.Keys == cp.value.Keys;
        forall k | k in cp.value ensures r.value[k] == cp.value[k] {
          assert CustomToValue(r.value[k]) == v.entries[k] == CustomToValue(cp.value[k]);
        }
      }
    }
  }
}
