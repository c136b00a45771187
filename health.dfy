/**
 * `getHealth`: one `getHealth` JSON-RPC call, abstracted to the reply it
 * produced, classified into one of the four statuses.
 */
module Health {
  import opened Wrappers
  import opened Env

  /** The error object of a JSON-RPC reply: `message` and `data.numSlotsBehind`, each possibly absent. */
  datatype RpcError = RpcError(message: Option<string>, numSlotsBehind: Option<int>)

  /**
   * What the HTTP call produced: it threw (network failure, non-2xx reply,
   * unreadable body), or it returned a body with an optional `result` and an
   * optional `error`.
   */
  datatype HealthReply =
    | TransportFailure
    | Reply(result: Option<string>, error: Option<RpcError>)

  /** The object `getHealth` resolves to; `message` and `numSlotsBehind` are optional keys. */
  datatype HealthStatus = HealthStatus(status: StatusKind, message: Option<string>, numSlotsBehind: Option<int>)

  const UnhealthyMessage: string := "Node is unhealthy"

  /** The shape every classified status has: only a lagging status counts slots behind. */
  predicate WellFormed(h: HealthStatus)
  {
    (h.numSlotsBehind.Some? <==> h.status == Lagging) &&
    (h.status in {Healthy, Offline} ==> h.message.None?)
  }

  function GetHealth(reply: HealthReply): (h: HealthStatus)
    ensures WellFormed(h)
    ensures h.status == Offline <==> reply.TransportFailure?
    ensures h.status == Healthy <==> reply.Reply? && reply.result == Some("ok")
    ensures h.status == Lagging <==>
      reply.Reply? && reply.result != Some("ok") && reply.error.Some? &&
      reply.error.value.message != Some(UnhealthyMessage)
    ensures h.status == HealthyUnknown <==>
      reply.Reply? && reply.result != Some("ok") &&
      (reply.error.None? || reply.error.value.message == Some(UnhealthyMessage))
    ensures h.status == Lagging ==>
      h.message == reply.error.value.message &&
      h.numSlotsBehind == Some(reply.error.value.numSlotsBehind.GetOr(0))
    ensures h.status == HealthyUnknown ==>
      h.message == if reply.error.Some? then Some(UnhealthyMessage) else None
  {
    match reply
    case TransportFailure => HealthStatus(Offline, None, None)
    case Reply(result, error) =>
      if result == Some("ok") then HealthStatus(Healthy, None, None)
      else if error.Some? then
        if error.value.message == Some(UnhealthyMessage) then
          HealthStatus(HealthyUnknown, Some(UnhealthyMessage), None)
        else
          HealthStatus(Lagging, error.value.message, Some(error.value.numSlotsBehind.GetOr(0)))
      else HealthStatus(HealthyUnknown, None, None)
  }

  /** An error with no slot count still classifies as lagging, with zero slots behind. */
  lemma LaggingWithZeroSlots(message: string)
    requires message != UnhealthyMessage
    ensures GetHealth(Reply(None, Some(RpcError(Some(message), None)))) ==
      HealthStatus(Lagging, Some(message), Some(0))
  {
  }

  /** A `result` of "ok" wins even when the body also carries an `error`. */
  lemma OkResultOverridesError(error: RpcError)
    ensures GetHealth(Reply(Some("ok"), Some(error))) == HealthStatus(Healthy, None, None)
  {
  }
}
