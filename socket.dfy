/**
 * `connectWebSocket` and its `open`, `close` and `error` handlers: the
 * module variables they update and the reconnect delay the close handler
 * schedules. Event delivery and timers are the caller's: each handler is a
 * method the environment calls, and the scheduled retry is a later `Connect`.
 */
module Socket {
  import opened Wrappers
  import Env
  import JsValues
  import Telegram
  import Monitor

  /** `ws.readyState` of the current socket, as the handlers see it. */
  datatype ReadyState = Connecting | Open | Closed

  const BaseDelay: nat := 5000
  const MaxDelay: nat := 30000

  function Pow2(k: nat): (p: nat)
    ensures p >= 1
  {
    if k == 0 then 1 else 2 * Pow2(k - 1)
  }

  lemma {:induction false} Pow2Monotone(j: nat, k: nat)
    requires j <= k
    ensures Pow2(j) <= Pow2(k)
    decreases k
  {
    if j < k {
      Pow2Monotone(j, k - 1);
    }
  }

  /** `Math.min(5000 * Math.pow(2, attempts), 30000)`. */
  function ReconnectDelay(attempts: nat): (d: nat)
    ensures BaseDelay <= d <= MaxDelay
    ensures attempts >= 3 ==> d == MaxDelay
  {
    assert attempts >= 3 ==> Pow2(attempts) >= 8 by {
      if attempts >= 3 {
        Pow2Monotone(3, attempts);
      }
    }
    if BaseDelay * Pow2(attempts) < MaxDelay then BaseDelay * Pow2(attempts) else MaxDelay
  }

  /** The first three retries wait 5, 10 and 20 seconds. */
  lemma DelaySchedule()
    ensures ReconnectDelay(0) == 5000 && ReconnectDelay(1) == 10000 && ReconnectDelay(2) == 20000
  {
  }

  /** More failed attempts never shorten the wait. */
  lemma DelayMonotone(j: nat, k: nat)
    requires j <= k
    ensures ReconnectDelay(j) <= ReconnectDelay(k)
  {
    Pow2Monotone(j, k);
  }

  /** The module variables of the connection: `ws`, the flag, the attempt count, `uptimeStart`, the last delay. */
  datatype SocketState = SocketState(
    ws: Option<ReadyState>,
    isWebSocketConnected: bool,
    wsReconnectAttempts: nat,
    uptimeStart: int,
    lastDelay: Option<nat>)

  /** A call of `connectWebSocket`, or one of the three handlers firing. */
  datatype SocketEvent = ConnectCall | OpenEvent(now: int) | CloseEvent | ErrorEvent

  /** At load: no socket, disconnected, no attempts, `uptimeStart = Date.now()`. */
  function Initial(loadTime: int): SocketState
  {
    SocketState(None, false, 0, loadTime, None)
  }

  /**
   * The flag mirrors whether the socket is open, an open socket has no
   * failed attempts, and a positive count was set by a close that scheduled
   * the delay for one attempt fewer.
   */
  predicate Inv(s: SocketState)
  {
    (s.isWebSocketConnected <==> s.ws == Some(Open)) &&
    (s.isWebSocketConnected ==> s.wsReconnectAttempts == 0) &&
    (s.wsReconnectAttempts > 0 ==> s.lastDelay == Some(ReconnectDelay(s.wsReconnectAttempts - 1)))
  }

  function Step(s: SocketState, e: SocketEvent): (t: SocketState)
    ensures Inv(s) ==> Inv(t)
  {
    match e
    case ConnectCall => if s.ws == Some(Open) then s else s.(ws := Some(Connecting))
    case OpenEvent(now) =>
      s.(ws := Some(Open), isWebSocketConnected := true, uptimeStart := now, wsReconnectAttempts := 0)
    case CloseEvent =>
      s.(ws := Some(Closed), isWebSocketConnected := false,
         lastDelay := Some(ReconnectDelay(s.wsReconnectAttempts)),
         wsReconnectAttempts := s.wsReconnectAttempts + 1)
    case ErrorEvent => s
  }

  lemma InitialInv(loadTime: int)
    ensures Inv(Initial(loadTime))
  {
  }

  function Replay(s: SocketState, events: seq<SocketEvent>): SocketState
    decreases |events|
  {
    if events == [] then s else Replay(Step(s, events[0]), events[1..])
  }

  lemma {:induction false} ReplayAppend(s: SocketState, a: seq<SocketEvent>, b: seq<SocketEvent>)
    ensures Replay(s, a + b) == Replay(Replay(s, a), b)
    decreases |a|
  {
    if a != [] {
      assert (a + b)[0] == a[0] && (a + b)[1..] == a[1..] + b;
      ReplayAppend(Step(s, a[0]), a[1..], b);
    } else {
      assert a + b == b;
    }
  }

  function CountCloses(events: seq<SocketEvent>): nat
  {
    if events == [] then 0 else (if events[0].CloseEvent? then 1 else 0) + CountCloses(events[1..])
  }

  /**
   * With no open event, every close adds one attempt and nothing else ever
   * resets the count or touches `uptimeStart`.
   */
  lemma {:induction false} ReplayWithoutOpen(s: SocketState, events: seq<SocketEvent>)
    requires forall j | 0 <= j < |events| :: !events[j].OpenEvent?
    ensures Replay(s, events).wsReconnectAttempts == s.wsReconnectAttempts + CountCloses(events)
    ensures Replay(s, events).uptimeStart == s.uptimeStart
    decreases |events|
  {
    if events != [] {
      assert !events[0].OpenEvent?;
      ReplayWithoutOpen(Step(s, events[0]), events[1..]);
    }
  }

  /**
   * After any history, the attempt count is the number of closes since the
   * last open event, and `uptimeStart` is that open event's clock reading.
   */
  lemma AttemptsCountClosesSinceLastOpen(s: SocketState, events: seq<SocketEvent>, k: nat)
    requires k < |events| && events[k].OpenEvent?
    requires forall j | k < j < |events| :: !events[j].OpenEvent?
    ensures Replay(s, events).wsReconnectAttempts == CountCloses(events[k + 1..])
    ensures Replay(s, events).uptimeStart == events[k].now
  {
    assert events == events[..k] + [events[k]] + events[k + 1..];
    ReplayAppend(s, events[..k] + [events[k]], events[k + 1..]);
    ReplayAppend(s, events[..k], [events[k]]);
    var afterOpen := Replay(Replay(s, events[..k]), [events[k]]);
    assert afterOpen.wsReconnectAttempts == 0 && afterOpen.uptimeStart == events[k].now;
    ReplayWithoutOpen(afterOpen, events[k + 1..]);
  }

  /** `n` failed reconnections: each a close followed by the scheduled `connectWebSocket` call. */
  function Retries(n: nat): (r: seq<SocketEvent>)
    ensures |r| == 2 * n
  {
    if n == 0 then [] else [CloseEvent, ConnectCall] + Retries(n - 1)
  }

  /**
   * There is no attempt budget: after any number of failed reconnections the
   * manager is dialing again, has counted every one, and last waited the
   * delay for one attempt fewer than it has now.
   */
  lemma {:induction false} RetriesNeverStop(s: SocketState, n: nat)
    requires n > 0
    ensures Replay(s, Retries(n)).ws == Some(Connecting)
    ensures !Replay(s, Retries(n)).isWebSocketConnected
    ensures Replay(s, Retries(n)).wsReconnectAttempts == s.wsReconnectAttempts + n
    ensures Replay(s, Retries(n)).lastDelay == Some(ReconnectDelay(s.wsReconnectAttempts + n - 1))
    decreases n
  {
    var dialed := Step(Step(s, CloseEvent), ConnectCall);
    assert Replay(s, Retries(n)) == Replay(dialed, Retries(n - 1));
    if n > 1 {
      RetriesNeverStop(dialed, n - 1);
    }
  }

  /** The connection's module variables, as an object. */
  class WebSocketManager {
    var ws: Option<ReadyState>
    var isWebSocketConnected: bool
    var wsReconnectAttempts: nat
    var uptimeStart: int
    var lastDelay: Option<nat>

    function State(): SocketState
      reads this
    {
      SocketState(ws, isWebSocketConnected, wsReconnectAttempts, uptimeStart, lastDelay)
    }

    predicate Valid()
      reads this
    {
      Inv(State())
    }

    constructor (loadTime: int)
      ensures Valid() && State() == Initial(loadTime)
    {
      ws := None;
      isWebSocketConnected := false;
      wsReconnectAttempts := 0;
      uptimeStart := loadTime;
      lastDelay := None;
    }

    /** `connectWebSocket`: a no-op while the socket is open, otherwise it dials a new one. */
    method Connect() returns (dialed: bool)
      requires Valid()
      modifies this
      ensures Valid() && State() == Step(old(State()), ConnectCall)
      ensures dialed <==> old(ws) != Some(Open)
      ensures !dialed ==> State() == old(State())
      ensures dialed ==> State() == old(State()).(ws := Some(Connecting))
    {
      if ws == Some(Open) {
        dialed := false;
        return;
      }
      ws := Some(Connecting);
      dialed := true;
    }

    /** The open handler, at clock reading `now`. */
    method OnOpen(now: int)
      requires Valid()
      modifies this
      ensures Valid() && State() == Step(old(State()), OpenEvent(now))
      ensures ws == Some(Open) && isWebSocketConnected && uptimeStart == now && wsReconnectAttempts == 0
      ensures lastDelay == old(lastDelay)
    {
      ws := Some(Open);
      isWebSocketConnected := true;
      uptimeStart := now;
      wsReconnectAttempts := 0;
    }

    /** The close handler; returns the delay after which it schedules `connectWebSocket`. */
    method OnClose() returns (delay: nat)
      requires Valid()
      modifies this
      ensures Valid() && State() == Step(old(State()), CloseEvent)
      ensures delay == ReconnectDelay(old(wsReconnectAttempts)) && lastDelay == Some(delay)
      ensures ws == Some(Closed) && !isWebSocketConnected
      ensures wsReconnectAttempts == old(wsReconnectAttempts) + 1 && uptimeStart == old(uptimeStart)
    {
      ws := Some(Closed);
      isWebSocketConnected := false;
      delay := ReconnectDelay(wsReconnectAttempts);
      lastDelay := Some(delay);
      wsReconnectAttempts := wsReconnectAttempts + 1;
    }

    /**
     * The error handler: changes no state; it hands the offline alert to
     * `sendTelegramMessage`, whose guard as written posts it unless both the
     * token and the chat id are missing.
     */
    method OnError(cfg: Telegram.TelegramConfig) returns (alert: string, request: Option<Telegram.TelegramRequest>)
      ensures alert == Monitor.OfflineAlert
      ensures Monitor.StatusOfAlert(alert) == Some(Env.Offline)
      ensures request.Some? <==> JsValues.Truthy(cfg.botToken) || JsValues.Truthy(cfg.chatId)
      ensures request.Some? ==> request.value == Telegram.RequestFor(cfg, alert)
    {
      alert := Monitor.OfflineAlert;
      assert Monitor.OfflineAlert[0] != Monitor.HealthyAlert[0];
      assert Monitor.OfflineAlert[10] != Monitor.HealthyUnknownAlert[10];
      request := Telegram.SendAsWritten(cfg, alert);
    }
  }
}
