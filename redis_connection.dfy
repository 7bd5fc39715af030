/**
 * The server-side Redis connection manager (`RedisConnectionManager`): a
 * connect-once gate shared by concurrent callers, a reconnect strategy with
 * a linear, capped delay and a 5-second cooldown, the client's `error` and
 * `connect` events, and a process-wide single instance.
 */
module RedisConnection {
  import opened Seqs

  const ReconnectCooldown: int := 5000
  const MaxReconnectDelay: int := 3000

  /** The reconnect strategy's answer: give up (`Too many reconnection attempts`) or retry after a delay in milliseconds. */
  datatype Reconnect = StopReconnecting | Delay(ms: int)

  /** What a `getClient` call does: throw in a browser, start the connect, await the pending connect, or return the connected client. */
  datatype ClientOutcome = ServerSideOnly | StartedConnect | AwaitedConnect | Connected

  /**
   * `client` is set, `isConnected`, `connectionPromise` is pending, and
   * `lastReconnectAttempt`.
   */
  datatype ConnState = ConnState(hasClient: bool, isConnected: bool, connecting: bool, lastReconnectAttempt: int)

  /** `min(retries * 100, 3000)`. */
  function ReconnectDelay(retries: nat): int {
    Min(retries * 100, MaxReconnectDelay)
  }

  /** Within the cooldown of the last recorded attempt it gives up without recording; otherwise it records `now`. */
  function Strategy(s: ConnState, retries: nat, now: int): (ConnState, Reconnect) {
    if now - s.lastReconnectAttempt < ReconnectCooldown then (s, StopReconnecting)
    else (s.(lastReconnectAttempt := now), Delay(ReconnectDelay(retries)))
  }

  /** `getClient`: a connect starts only when neither connected nor connecting. */
  function GetClient(s: ConnState, inBrowser: bool): (ConnState, ClientOutcome) {
    if inBrowser then (s, ServerSideOnly)
    else
      var s1 := s.(hasClient := true);
      if !s1.isConnected && !s1.connecting then (s1.(connecting := true), StartedConnect)
      else if s1.connecting then (s1, AwaitedConnect)
      else (s1, Connected)
  }

  /** The pending connect settles: success (connect and ping) marks the manager connected; either way nothing is pending. */
  function SettleConnect(s: ConnState, ok: bool): ConnState
    requires s.connecting
  {
    if ok then s.(isConnected := true, connecting := false) else s.(connecting := false)
  }

  /** `disconnect`: only an open client is closed, which marks the manager disconnected. */
  function Disconnect(s: ConnState, isOpen: bool): ConnState {
    if s.hasClient && isOpen then s.(isConnected := false) else s
  }

  class RedisConnectionManager {
    var hasClient: bool
    var isConnected: bool
    var connecting: bool
    var lastReconnectAttempt: int

    function State(): ConnState
      reads this
    {
      ConnState(hasClient, isConnected, connecting, lastReconnectAttempt)
    }

    /** The client is created up front only on the server with `REDIS_URL` set. */
    constructor (serverSideWithUrl: bool)
      ensures State() == ConnState(serverSideWithUrl, false, false, 0)
    {
      hasClient := serverSideWithUrl;
      isConnected := false;
      connecting := false;
      lastReconnectAttempt := 0;
    }

    method ReconnectStrategy(retries: nat, now: int) returns (r: Reconnect)
      modifies this
      ensures (State(), r) == Strategy(old(State()), retries, now)
    {
      if now - lastReconnectAttempt < ReconnectCooldown {
        return StopReconnecting;
      }
      lastReconnectAttempt := now;
      r := Delay(Min(retries * 100, MaxReconnectDelay));
    }

    method OnError()
      modifies this
      ensures State() == old(State()).(isConnected := false)
    {
      isConnected := false;
    }

    method OnConnect()
      modifies this
      ensures State() == old(State()).(isConnected := true)
    {
      isConnected := true;
    }

    method GetClientStep(inBrowser: bool) returns (o: ClientOutcome)
      modifies this
      ensures (State(), o) == GetClient(old(State()), inBrowser)
    {
      if inBrowser {
        return ServerSideOnly;
      }
      if !hasClient {
        hasClient := true;
      }
      if !isConnected && !connecting {
        connecting := true;
        return StartedConnect;
      }
      if connecting {
        return AwaitedConnect;
      }
      return Connected;
    }

    method SettleConnectStep(ok: bool)
      requires connecting
      modifies this
      ensures State() == SettleConnect(old(State()), ok)
    {
      if ok {
        isConnected := true;
      }
      connecting := false;
    }

    method DisconnectStep(isOpen: bool)
      modifies this
      ensures State() == Disconnect(old(State()), isOpen)
    {
      if hasClient && isOpen {
        isConnected := false;
      }
    }
  }

  /** The process-wide slot `getInstance` fills once. */
  class ManagerRegistry {
    var instance: RedisConnectionManager?

    constructor ()
      ensures instance == null
    {
      instance := null;
    }

    method GetInstance(serverSideWithUrl: bool) returns (m: RedisConnectionManager)
      modifies this
      ensures old(instance) != null ==> m == old(instance)
      ensures old(instance) == null ==> fresh(m) && m.State() == ConnState(serverSideWithUrl, false, false, 0)
      ensures instance == m
    {
      if instance == null {
        instance := new RedisConnectionManager(serverSideWithUrl);
      }
      m := instance;
    }
  }

  // ---------------------------------------------------------------------------
  // Properties

  /** The delay is between 0 and 3000, grows with the retry count, and never exceeds 100 ms per retry: linear and capped, not exponential. */
  lemma ReconnectDelayShape(retries: nat, more: nat)
    requires retries <= more
    ensures 0 <= ReconnectDelay(retries) <= MaxReconnectDelay
    ensures ReconnectDelay(retries) <= ReconnectDelay(more)
    ensures ReconnectDelay(retries) <= 100 * retries
    ensures retries <= 30 ==> ReconnectDelay(retries) == 100 * retries
  {
  }

  /** Inside the cooldown the strategy gives up and records nothing; outside it records the attempt and delays. */
  lemma StrategyCooldown(s: ConnState, retries: nat, now: int)
    ensures now - s.lastReconnectAttempt < ReconnectCooldown ==> Strategy(s, retries, now) == (s, StopReconnecting)
    ensures now - s.lastReconnectAttempt >= ReconnectCooldown ==>
              Strategy(s, retries, now).0.lastReconnectAttempt == now && Strategy(s, retries, now).1.Delay?
  {
  }

  /** After a retry is granted, every request within the next 5 seconds is refused, however many retries it reports. */
  lemma NoTwoRetriesWithinCooldown(s: ConnState, r1: nat, now: int, r2: nat, later: int)
    requires Strategy(s, r1, now).1.Delay?
    requires later - now < ReconnectCooldown
    ensures Strategy(Strategy(s, r1, now).0, r2, later).1 == StopReconnecting
  {
  }

  /** In a browser `getClient` throws before touching any state. */
  lemma BrowserTouchesNothing(s: ConnState)
    ensures GetClient(s, true) == (s, ServerSideOnly)
  {
  }

  /** While a connect is pending, later callers await it instead of starting another. */
  lemma ConnectStartsOnce(s: ConnState)
    requires GetClient(s, false).1 == StartedConnect
    ensures GetClient(GetClient(s, false).0, false) == (GetClient(s, false).0, AwaitedConnect)
  {
  }

  /** A connect that succeeds leaves the manager connected with nothing pending, so later callers get the client at once. */
  lemma SuccessfulConnectIsReused(s: ConnState)
    requires GetClient(s, false).1 == StartedConnect
    ensures var s1 := SettleConnect(GetClient(s, false).0, true);
            s1.isConnected && !s1.connecting && GetClient(s1, false).1 == Connected
  {
  }

  /** A connect that fails leaves nothing pending and the manager not connected, so the next caller starts a fresh attempt. */
  lemma FailedConnectIsRetried(s: ConnState)
    requires GetClient(s, false).1 == StartedConnect
    ensures var s1 := SettleConnect(GetClient(s, false).0, false);
            !s1.isConnected && !s1.connecting && GetClient(s1, false).1 == StartedConnect
  {
  }

  /** A connect that fails after the `connect` event fired leaves the manager marked connected: the failure path does not reset it. */
  lemma FailedConnectAfterConnectEvent(s: ConnState)
    requires GetClient(s, false).1 == StartedConnect
    ensures var s1 := SettleConnect(GetClient(s, false).0.(isConnected := true), false);
            s1.isConnected && GetClient(s1, false).1 == Connected
  {
  }

  /** `disconnect` acts only on an open client, and leaves the manager not connected. */
  lemma DisconnectOnlyWhenOpen(s: ConnState, isOpen: bool)
    ensures (s.hasClient && isOpen) ==> !Disconnect(s, isOpen).isConnected
    ensures !(s.hasClient && isOpen) ==> Disconnect(s, isOpen) == s
  {
  }
}
