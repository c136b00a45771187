/**
 * `monitorValidatorStatus`: one cycle of the alerting loop. It classifies the
 * node, decides whether to alert, picks the alert text, and updates the two
 * module variables `lastValidatorStatus` and `lastAlertTime`. The clock
 * reading is a parameter; the alert text is what is handed to the sender.
 */
module Monitor {
  import opened Wrappers
  import opened JsValues
  import opened Env
  import opened Health

  const HealthyAlert: string := "\U{2705} Status: " + StatusName(Healthy)
  const LaggingAlertPrefix: string := "\U{26A0}\U{FE0F} Status: " + StatusName(Lagging) + "\n\U{1F4AC} "
  const HealthyUnknownAlert: string := "\U{274C} Status: " + StatusName(HealthyUnknown)
  const OfflineAlert: string := "\U{274C} Status: " + StatusName(Offline)

  /** The text of the one alert a cycle sends; a lagging alert also carries the node's message. */
  function AlertText(h: HealthStatus): (t: string)
    ensures StatusOfAlert(t) == Some(h.status)
    ensures h.status == Lagging ==>
      |LaggingAlertPrefix| <= |t| && t[|LaggingAlertPrefix|..] == TemplateText(h.message)
  {
    match h.status
    case Healthy => HealthyAlert
    case Lagging =>
      var t := LaggingAlertPrefix + TemplateText(h.message);
      assert t[0] == '\U{26A0}';
      assert t[|LaggingAlertPrefix|..] == TemplateText(h.message);
      t
    case HealthyUnknown => HealthyUnknownAlert
    case Offline =>
      assert OfflineAlert[0] != HealthyAlert[0] && OfflineAlert[10] != HealthyUnknownAlert[10];
      OfflineAlert
  }

  /** Reads the status back from an alert text, by its fixed text or its fixed prefix. */
  function StatusOfAlert(t: string): Option<StatusKind>
  {
    if t == HealthyAlert then Some(Healthy)
    else if t == HealthyUnknownAlert then Some(HealthyUnknown)
    else if t == OfflineAlert then Some(Offline)
    else if LaggingAlertPrefix <= t then Some(Lagging)
    else None
  }

  /** Two cycles that alert with the same text alerted about the same status. */
  lemma AlertTextDeterminesStatus(h1: HealthStatus, h2: HealthStatus)
    requires AlertText(h1) == AlertText(h2)
    ensures h1.status == h2.status
  {
  }

  /** The module variables the monitor keeps between cycles. */
  datatype AlertMemory = AlertMemory(lastValidatorStatus: Option<StatusKind>, lastAlertTime: int)

  /** `lastValidatorStatus = null`, `lastAlertTime = 0` at load. */
  const InitialMemory: AlertMemory := AlertMemory(None, 0)

  /** What one cycle leaves behind: the new memory and the alert text it sent, if any. */
  datatype Cycle = Cycle(memory: AlertMemory, sent: Option<string>)

  /** The send decision: a change from a known earlier status, or any lagging status. */
  predicate ShouldSend(last: Option<StatusKind>, current: StatusKind)
  {
    (last.Some? && last.value != current) || current == Lagging
  }

  function MonitorStep(m: AlertMemory, h: HealthStatus, now: int): (c: Cycle)
    ensures c.sent.Some? <==> (m.lastValidatorStatus.Some? && m.lastValidatorStatus.value != h.status) || h.status == Lagging
    ensures c.sent.Some? ==> c.sent.value == AlertText(h) && StatusOfAlert(c.sent.value) == Some(h.status)
    ensures c.memory.lastValidatorStatus == Some(h.status)
    ensures c.memory.lastAlertTime == if c.sent.Some? then now else m.lastAlertTime
  {
    if ShouldSend(m.lastValidatorStatus, h.status) then
      Cycle(AlertMemory(Some(h.status), now), Some(AlertText(h)))
    else
      Cycle(AlertMemory(Some(h.status), m.lastAlertTime), None)
  }

  /** On the very first cycle only a lagging node alerts. */
  lemma FirstCycleAlertsOnlyWhenLagging(h: HealthStatus, now: int)
    ensures MonitorStep(InitialMemory, h, now).sent.Some? <==> h.status == Lagging
  {
  }

  /** One cycle's input: the classified health and the clock reading. */
  datatype Observation = Observation(health: HealthStatus, now: int)

  /** The memory after a run of cycles and the alert (or none) of each cycle. */
  datatype Trace = Trace(memory: AlertMemory, sent: seq<Option<string>>)

  function Run(m: AlertMemory, obs: seq<Observation>): (r: Trace)
    ensures |r.sent| == |obs|
    decreases |obs|
  {
    if obs == [] then Trace(m, [])
    else
      var c := MonitorStep(m, obs[0].health, obs[0].now);
      var rest := Run(c.memory, obs[1..]);
      Trace(rest.memory, [c.sent] + rest.sent)
  }

  /** The status in memory when cycle `i` of a run starts. */
  function StatusBefore(m: AlertMemory, obs: seq<Observation>, i: nat): Option<StatusKind>
    requires i < |obs|
  {
    if i == 0 then m.lastValidatorStatus else Some(obs[i - 1].health.status)
  }

  /**
   * Cycle `i` of a run alerts exactly when its status differs from the
   * previous cycle's (from memory, for the first), or is lagging; and then
   * with the text of its own status.
   */
  lemma {:induction false} RunAlertsExactlyWhen(m: AlertMemory, obs: seq<Observation>, i: nat)
    requires i < |obs|
    ensures Run(m, obs).sent[i].Some? <==> ShouldSend(StatusBefore(m, obs, i), obs[i].health.status)
    ensures Run(m, obs).sent[i].Some? ==> Run(m, obs).sent[i].value == AlertText(obs[i].health)
    decreases i
  {
    var c := MonitorStep(m, obs[0].health, obs[0].now);
    if i > 0 {
      RunAlertsExactlyWhen(c.memory, obs[1..], i - 1);
      assert Run(m, obs).sent[i] == Run(c.memory, obs[1..]).sent[i - 1];
      assert obs[1..][i - 1] == obs[i];
      assert StatusBefore(c.memory, obs[1..], i - 1) == StatusBefore(m, obs, i);
    }
  }

  /** A run is its first cycle followed by the run from the memory that cycle leaves. */
  lemma RunUnfold(m: AlertMemory, obs: seq<Observation>)
    requires obs != []
    ensures var c := MonitorStep(m, obs[0].health, obs[0].now);
      var r, rt := Run(m, obs), Run(c.memory, obs[1..]);
      r.memory == rt.memory && r.sent[0] == c.sent &&
      forall k | 0 <= k < |obs| - 1 :: r.sent[k + 1] == rt.sent[k] && obs[1..][k] == obs[k + 1]
  {
  }

  /** After a run, memory holds the last cycle's status. */
  lemma {:induction false} RunFinalStatus(m: AlertMemory, obs: seq<Observation>)
    requires obs != []
    ensures Run(m, obs).memory.lastValidatorStatus == Some(obs[|obs| - 1].health.status)
    decreases |obs|
  {
    var c := MonitorStep(m, obs[0].health, obs[0].now);
    RunUnfold(m, obs);
    if |obs| > 1 {
      RunFinalStatus(c.memory, obs[1..]);
    }
  }

  /** A run in which no cycle alerts leaves `lastAlertTime` as it was. */
  lemma {:induction false} QuietRunKeepsAlertTime(m: AlertMemory, obs: seq<Observation>)
    requires forall i | 0 <= i < |obs| :: Run(m, obs).sent[i].None?
    ensures Run(m, obs).memory.lastAlertTime == m.lastAlertTime
    decreases |obs|
  {
    if obs != [] {
      var c := MonitorStep(m, obs[0].health, obs[0].now);
      RunUnfold(m, obs);
      assert Run(m, obs).sent[0].None?;
      forall k | 0 <= k < |obs| - 1 ensures Run(c.memory, obs[1..]).sent[k].None? {
        assert Run(m, obs).sent[k + 1].None?;
      }
      QuietRunKeepsAlertTime(c.memory, obs[1..]);
    }
  }

  /** `lastAlertTime` after a run is the clock reading of its last alerting cycle. */
  lemma {:induction false} RunLastAlertTime(m: AlertMemory, obs: seq<Observation>, i: nat)
    requires i < |obs| && Run(m, obs).sent[i].Some?
    requires forall j | i < j < |obs| :: Run(m, obs).sent[j].None?
    ensures Run(m, obs).memory.lastAlertTime == obs[i].now
    decreases i
  {
    var c := MonitorStep(m, obs[0].health, obs[0].now);
    var tail := obs[1..];
    RunUnfold(m, obs);
    if i == 0 {
      forall k | 0 <= k < |tail| ensures Run(c.memory, tail).sent[k].None? {
        assert Run(m, obs).sent[k + 1].None?;
      }
      QuietRunKeepsAlertTime(c.memory, tail);
    } else {
      forall j | i - 1 < j < |tail| ensures Run(c.memory, tail).sent[j].None? {
        assert Run(m, obs).sent[j + 1].None?;
      }
      RunLastAlertTime(c.memory, tail, i - 1);
    }
  }

  /**
   * A run whose every cycle reports the same non-lagging status the memory
   * already holds sends nothing at all.
   */
  lemma SteadyStatusIsSilent(m: AlertMemory, obs: seq<Observation>, k: StatusKind)
    requires k != Lagging && m.lastValidatorStatus == Some(k)
    requires forall i | 0 <= i < |obs| :: obs[i].health.status == k
    ensures forall i | 0 <= i < |obs| :: Run(m, obs).sent[i].None?
  {
    forall i | 0 <= i < |obs| ensures Run(m, obs).sent[i].None? {
      RunAlertsExactlyWhen(m, obs, i);
    }
  }

  /**
   * A healthy node that then reports "Node is unhealthy": the first cycle is
   * silent (memory was empty), the change alerts once.
   */
  lemma HealthyThenUnhealthy(t1: int, t2: int)
    ensures var obs := [Observation(GetHealth(Reply(Some("ok"), None)), t1),
                        Observation(GetHealth(Reply(None, Some(RpcError(Some(UnhealthyMessage), None)))), t2)];
      Run(InitialMemory, obs) == Trace(AlertMemory(Some(HealthyUnknown), t2), [None, Some(HealthyUnknownAlert)])
  {
    var obs := [Observation(GetHealth(Reply(Some("ok"), None)), t1),
                Observation(GetHealth(Reply(None, Some(RpcError(Some(UnhealthyMessage), None)))), t2)];
    var first := MonitorStep(InitialMemory, obs[0].health, t1);
    assert first == Cycle(AlertMemory(Some(Healthy), 0), None);
    assert obs[1..] == [obs[1]];
    assert Run(first.memory, obs[1..]) == Trace(AlertMemory(Some(HealthyUnknown), t2), [Some(HealthyUnknownAlert)]);
  }

  /** The same lagging reply twice alerts twice: lagging alerts on every cycle. */
  lemma LaggingRepeats(message: string, behind: int, t1: int, t2: int)
    requires message != UnhealthyMessage
    ensures var h := GetHealth(Reply(None, Some(RpcError(Some(message), Some(behind)))));
      Run(InitialMemory, [Observation(h, t1), Observation(h, t2)]).sent ==
        [Some(LaggingAlertPrefix + message), Some(LaggingAlertPrefix + message)]
  {
  }

  /** `monitorValidatorStatus`'s module variables, as an object. */
  class AlertMonitor {
    var lastValidatorStatus: Option<StatusKind>
    var lastAlertTime: int

    function Memory(): AlertMemory
      reads this
    {
      AlertMemory(lastValidatorStatus, lastAlertTime)
    }

    constructor ()
      ensures Memory() == InitialMemory
    {
      lastValidatorStatus := None;
      lastAlertTime := 0;
    }

    /** One cycle on the reply of the `getHealth` call, at clock reading `now`. */
    method MonitorValidatorStatus(reply: HealthReply, now: int) returns (sent: Option<string>)
      modifies this
      ensures var c := MonitorStep(old(Memory()), GetHealth(reply), now);
        Memory() == c.memory && sent == c.sent
    {
      var healthStatus := GetHealth(reply);
      var sendMessage := ShouldSend(lastValidatorStatus, healthStatus.status);
      sent := None;
      if sendMessage {
        sent := Some(AlertText(healthStatus));
        lastAlertTime := now;
      }
      lastValidatorStatus := Some(healthStatus.status);
    }
  }
}
