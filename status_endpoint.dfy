/**
 * The `/status` route: a fresh `getHealth` classification, the three
 * `getSlot` calls of `fetchSlots`, the helper's uptime and the connection
 * flag, spread into one JSON object. The HTTP server and the RPC calls are
 * the caller's: their replies and the clock reading are parameters.
 */
module StatusEndpoint {
  import opened Wrappers
  import opened JsValues
  import opened Env
  import opened Health
  import opened Helper
  import opened Socket

  /** One `getSlot` call: it threw, or it returned a body whose `result` may be absent. */
  datatype SlotReply = SlotTransportFailure | SlotResult(result: Option<nat>)

  /** `getSlotWithCommitment`: `null` on a failed call, otherwise `response.data.result`. */
  function GetSlotWithCommitment(reply: SlotReply): (v: JsValue)
    ensures v == JNull <==> reply.SlotTransportFailure?
    ensures reply.SlotResult? && reply.result.Some? ==> v == JNum(reply.result.value)
    ensures reply.SlotResult? && reply.result.None? ==> v == JUndefined
  {
    match reply
    case SlotTransportFailure => JNull
    case SlotResult(result) => if result.Some? then JNum(result.value) else JUndefined
  }

  datatype Slots = Slots(finalizedSlot: JsValue, confirmedSlot: JsValue, processedSlot: JsValue)

  /** `fetchSlots`: each commitment level's value comes from its own call alone. */
  function FetchSlots(finalized: SlotReply, confirmed: SlotReply, processed: SlotReply): (s: Slots)
    ensures s.finalizedSlot == JNull <==> finalized.SlotTransportFailure?
    ensures s.confirmedSlot == JNull <==> confirmed.SlotTransportFailure?
    ensures s.processedSlot == JNull <==> processed.SlotTransportFailure?
    ensures s.finalizedSlot == GetSlotWithCommitment(finalized)
    ensures s.confirmedSlot == GetSlotWithCommitment(confirmed)
    ensures s.processedSlot == GetSlotWithCommitment(processed)
  {
    Slots(GetSlotWithCommitment(finalized), GetSlotWithCommitment(confirmed), GetSlotWithCommitment(processed))
  }

  /** One failed call blanks its own field and leaves the other two with their values. */
  lemma OneFailedFetch(confirmed: nat, processed: nat)
    ensures FetchSlots(SlotTransportFailure, SlotResult(Some(confirmed)), SlotResult(Some(processed))) ==
      Slots(JNull, JNum(confirmed), JNum(processed))
  {
  }

  /** The keys the response object can carry. */
  datatype Key = StatusKey | MessageKey | NumSlotsBehindKey
               | FinalizedSlotKey | ConfirmedSlotKey | ProcessedSlotKey | UptimeKey | WebsocketKey

  /** The JSON name of each key. */
  function KeyName(k: Key): string
  {
    match k
    case StatusKey => "status"
    case MessageKey => "message"
    case NumSlotsBehindKey => "numSlotsBehind"
    case FinalizedSlotKey => "finalizedSlot"
    case ConfirmedSlotKey => "confirmedSlot"
    case ProcessedSlotKey => "processedSlot"
    case UptimeKey => "uptime"
    case WebsocketKey => "websocket"
  }

  /** An object as a map from its keys to their values; `a + b` is `{...a, ...b}`. */
  type JsObject = map<Key, JsValue>

  /** `...healthStatus`: the keys the classified status object carries. */
  function HealthObject(h: HealthStatus): (o: JsObject)
    ensures StatusKey in o && o[StatusKey] == JStr(StatusName(h.status))
    ensures MessageKey in o <==> h.message.Some?
    ensures h.message.Some? ==> o[MessageKey] == JStr(h.message.value)
    ensures NumSlotsBehindKey in o <==> h.numSlotsBehind.Some?
    ensures h.numSlotsBehind.Some? ==> o[NumSlotsBehindKey] == JNum(h.numSlotsBehind.value)
    ensures o.Keys <= {StatusKey, MessageKey, NumSlotsBehindKey}
  {
    map[StatusKey := JStr(StatusName(h.status))]
    + (if h.message.Some? then map[MessageKey := JStr(h.message.value)] else map[])
    + (if h.numSlotsBehind.Some? then map[NumSlotsBehindKey := JNum(h.numSlotsBehind.value)] else map[])
  }

  /** `...fetchedSlots`. */
  function SlotsObject(s: Slots): JsObject
  {
    map[FinalizedSlotKey := s.finalizedSlot, ConfirmedSlotKey := s.confirmedSlot, ProcessedSlotKey := s.processedSlot]
  }

  /** `...(healthStatus.numSlotsBehind > 0 && {numSlotsBehind})`: spreading `false` adds nothing. */
  function PositiveLagSpread(h: HealthStatus): JsObject
  {
    if h.numSlotsBehind.Some? && h.numSlotsBehind.value > 0 then map[NumSlotsBehindKey := JNum(h.numSlotsBehind.value)]
    else map[]
  }

  function WebsocketText(connected: bool): string
  {
    if connected then "connected" else "disconnected"
  }

  /** The response object, spread by spread: a later key overrides an earlier one. */
  function BuildResponse(h: HealthStatus, slots: Slots, uptime: string, connected: bool): (r: JsObject)
    ensures StatusKey in r && r[StatusKey] == JStr(StatusName(h.status))
    ensures MessageKey in r <==> h.message.Some?
    ensures h.message.Some? ==> r[MessageKey] == JStr(h.message.value)
    ensures NumSlotsBehindKey in r <==> h.numSlotsBehind.Some?
    ensures h.numSlotsBehind.Some? ==> r[NumSlotsBehindKey] == JNum(h.numSlotsBehind.value)
    ensures FinalizedSlotKey in r && r[FinalizedSlotKey] == slots.finalizedSlot
    ensures ConfirmedSlotKey in r && r[ConfirmedSlotKey] == slots.confirmedSlot
    ensures ProcessedSlotKey in r && r[ProcessedSlotKey] == slots.processedSlot
    ensures UptimeKey in r && r[UptimeKey] == JStr(uptime)
    ensures WebsocketKey in r && (r[WebsocketKey] == JStr("connected") <==> connected)
    ensures r[WebsocketKey] == JStr("disconnected") <==> !connected
  {
    var health := HealthObject(h);
    var base := health + SlotsObject(slots);
    var withLag := base + PositiveLagSpread(h);
    assert withLag == base;
    assert NumSlotsBehindKey in base <==> NumSlotsBehindKey in health;
    assert MessageKey in base <==> MessageKey in health;
    assert base[StatusKey] == health[StatusKey];
    withLag + map[UptimeKey := JStr(uptime), WebsocketKey := JStr(WebsocketText(connected))]
  }

  /**
   * The conditional spread changes nothing: `...healthStatus` has already put
   * the same `numSlotsBehind` there, so a lagging status with zero (or a
   * negative count) still reports it.
   */
  lemma PositiveLagSpreadIsRedundant(h: HealthStatus, slots: Slots, uptime: string, connected: bool)
    ensures BuildResponse(h, slots, uptime, connected) ==
      HealthObject(h) + SlotsObject(slots) + map[UptimeKey := JStr(uptime), WebsocketKey := JStr(WebsocketText(connected))]
  {
    var base := HealthObject(h) + SlotsObject(slots);
    assert base + PositiveLagSpread(h) == base;
  }

  /** The `/status` handler on the replies of its four RPC calls, the clock and the connection state. */
  function HandleStatus(
    healthReply: HealthReply,
    finalized: SlotReply, confirmed: SlotReply, processed: SlotReply,
    now: int, helperUptimeStart: int, socket: SocketState): (r: JsObject)
    ensures StatusKey in r && (r[StatusKey] == JStr(StatusName(Offline)) <==> healthReply.TransportFailure?)
    ensures NumSlotsBehindKey in r <==> GetHealth(healthReply).status == Lagging
    ensures FinalizedSlotKey in r && (r[FinalizedSlotKey] == JNull <==> finalized.SlotTransportFailure?)
    ensures ConfirmedSlotKey in r && (r[ConfirmedSlotKey] == JNull <==> confirmed.SlotTransportFailure?)
    ensures ProcessedSlotKey in r && (r[ProcessedSlotKey] == JNull <==> processed.SlotTransportFailure?)
    ensures UptimeKey in r && (r[UptimeKey].JStr? && ParseUptime(r[UptimeKey].s) == Some(Parts(now, helperUptimeStart)))
    ensures WebsocketKey in r && (r[WebsocketKey] == JStr("connected") <==> socket.isWebSocketConnected)
    ensures r == BuildResponse(GetHealth(healthReply), FetchSlots(finalized, confirmed, processed),
                               GetUptime(now, helperUptimeStart), socket.isWebSocketConnected)
  {
    var h := GetHealth(healthReply);
    var slots := FetchSlots(finalized, confirmed, processed);
    var r := BuildResponse(h, slots, GetUptime(now, helperUptimeStart), socket.isWebSocketConnected);
    assert r[StatusKey] == JStr(StatusName(Offline)) <==> h.status == Offline by {
      StatusNameInjective(h.status, Offline);
    }
    r
  }

  /**
   * The reported uptime is the helper's, measured from its own load time: the
   * open handler's reset of the connection's `uptimeStart` never reaches it.
   */
  lemma ReportedUptimeIgnoresSocketReset(
    healthReply: HealthReply,
    finalized: SlotReply, confirmed: SlotReply, processed: SlotReply,
    now: int, helperUptimeStart: int, socket: SocketState, openedAt: int)
    ensures var before := HandleStatus(healthReply, finalized, confirmed, processed, now, helperUptimeStart, socket);
      var after := HandleStatus(healthReply, finalized, confirmed, processed, now, helperUptimeStart, Step(socket, OpenEvent(openedAt)));
      after[UptimeKey] == before[UptimeKey] == JStr(GetUptime(now, helperUptimeStart))
  {
  }
}
