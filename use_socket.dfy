/**
 * The connection bookkeeping of the `useSocket` hook: whether the socket is
 * connected, the last connection error, the reconnect-attempt counter and
 * the slot holding the pending reconnect timer, driven by the socket's
 * lifecycle events.
 *
 * Timers are not run: scheduling one records its handle and delay in
 * `scheduled`, and `clearTimeout` removes it from there. What a timer's
 * callback would do when it fires is not modelled.
 */
module UseSocket {
  import opened Base

  /** `maxReconnectAttempts`. */
  const MaxReconnectAttempts: nat := 5
  /** The disconnect reason that makes the hook schedule its own retry. */
  const ServerDisconnect: string := "io server disconnect"
  /** The error the hook records when the socket gives up reconnecting. */
  const ReconnectFailedError: string := "Failed to reconnect to server"

  /** `Math.pow(2, n)` for a non-negative integer exponent. */
  function Pow2(n: nat): (p: nat)
    ensures p >= 1
  {
    if n == 0 then 1 else 2 * Pow2(n - 1)
  }

  /** `Math.min(1000 * Math.pow(2, attempts), 5000)`, in milliseconds. */
  function ReconnectDelay(attempts: nat): (d: nat)
    ensures 1000 <= d <= 5000
  {
    var raw := 1000 * Pow2(attempts);
    if raw < 5000 then raw else 5000
  }

  /** The four delays the backoff can produce. */
  predicate IsBackoffDelay(d: nat) {
    d == 1000 || d == 2000 || d == 4000 || d == 5000
  }

  lemma {:induction false} Pow2AtLeastEight(n: nat)
    requires n >= 3
    ensures Pow2(n) >= 8
  {
    if n > 3 { Pow2AtLeastEight(n - 1); }
  }

  /** The backoff schedule: 1000, 2000 and 4000 ms for attempts 0 to 2, then 5000 ms. */
  lemma DelaySchedule(attempts: nat)
    ensures ReconnectDelay(attempts) ==
      if attempts == 0 then 1000 else if attempts == 1 then 2000 else if attempts == 2 then 4000 else 5000
    ensures IsBackoffDelay(ReconnectDelay(attempts))
  {
    if attempts >= 3 { Pow2AtLeastEight(attempts); }
  }

  /** More attempts never shorten the delay. */
  lemma DelayMonotone(m: nat, n: nat)
    requires m <= n
    ensures ReconnectDelay(m) <= ReconnectDelay(n)
  {
    DelaySchedule(m);
    DelaySchedule(n);
  }

  /** A scheduled `setTimeout`: its handle and its delay in milliseconds. */
  datatype Timer = Timer(handle: nat, delayMs: nat)

  /** A `socket.emit(event, data)` that was actually sent. */
  datatype Emission = Emission(event: string, data: string)

  /**
   * The hook's state: the `socket` state value (present or still null), the
   * `isConnected` and `connectionError` state values, the two refs, the
   * timers that were scheduled and not cleared, the next handle `setTimeout`
   * returns, and what was emitted.
   */
  datatype SocketState = SocketState(
    hasSocket: bool,
    isConnected: bool,
    connectionError: Option<string>,
    attempts: nat,
    timerSlot: Option<nat>,
    scheduled: seq<Timer>,
    nextHandle: nat,
    emitted: seq<Emission>)

  /** The socket lifecycle events the hook listens to. */
  datatype SocketEvent =
    | Connect
    | Disconnect(reason: string)
    | ConnectError(message: string)
    | Reconnect(attemptNumber: nat)
    | ReconnectAttempt(attemptNumber: nat)
    | ReconnectError(message: string)
    | ReconnectFailed

  function Initial(): SocketState {
    SocketState(false, false, None, 0, None, [], 1, [])
  }

  /** `clearTimeout(handle)`: drop the timer with that handle. */
  function Cancel(ts: seq<Timer>, handle: nat): seq<Timer> {
    if ts == [] then []
    else
      var rest := Cancel(ts[1..], handle);
      if ts[0].handle == handle then rest else [ts[0]] + rest
  }

  /** Clearing a handle keeps exactly the timers with other handles. */
  lemma {:induction false} CancelMembers(ts: seq<Timer>, handle: nat)
    ensures forall t :: t in Cancel(ts, handle) <==> t in ts && t.handle != handle
  {
    if ts != [] {
      CancelMembers(ts[1..], handle);
      assert ts == [ts[0]] + ts[1..];
    }
  }

  /** Handles of scheduled timers increase in scheduling order (so they are distinct). */
  ghost predicate Increasing(ts: seq<Timer>) {
    forall i, j :: 0 <= i < j < |ts| ==> ts[i].handle < ts[j].handle
  }

  /**
   * The invariant the hook keeps: handles are positive, distinct, below the
   * next handle; every delay is one of the backoff delays; and the slot, when
   * set, names the most recently scheduled timer.
   */
  ghost predicate Valid(s: SocketState) {
    && s.nextHandle >= 1
    && Increasing(s.scheduled)
    && (forall i :: 0 <= i < |s.scheduled| ==>
          1 <= s.scheduled[i].handle < s.nextHandle && IsBackoffDelay(s.scheduled[i].delayMs))
    && (s.timerSlot.Some? ==>
          s.scheduled != [] && s.scheduled[|s.scheduled| - 1].handle == s.timerSlot.value)
  }

  /** `setSocket(newSocket)` at the end of the mount effect. */
  function Mounted(s: SocketState): SocketState {
    s.(hasSocket := true)
  }

  /**
   * `handleReconnect`: below the attempt cap, schedule a timer with the backoff
   * delay and store its handle in the slot, overwriting whatever was there.
   * The attempt counter is read, never written.
   */
  function RetryScheduled(s: SocketState): SocketState {
    if s.attempts < MaxReconnectAttempts then
      s.(timerSlot := Some(s.nextHandle),
         scheduled := s.scheduled + [Timer(s.nextHandle, ReconnectDelay(s.attempts))],
         nextHandle := s.nextHandle + 1)
    else s
  }

  /** The `connect` handler. */
  function OnConnect(s: SocketState): SocketState {
    var s1 := s.(isConnected := true, connectionError := None, attempts := 0);
    if s.timerSlot.Some? then
      s1.(scheduled := Cancel(s.scheduled, s.timerSlot.value), timerSlot := None)
    else s1
  }

  /** One event applied to the hook's state. */
  function Step(s: SocketState, e: SocketEvent): SocketState {
    match e
    case Connect => OnConnect(s)
    case Disconnect(reason) =>
      var s1 := s.(isConnected := false);
      if reason == ServerDisconnect then RetryScheduled(s1) else s1
    case ConnectError(message) =>
      RetryScheduled(s.(connectionError := Some(message), isConnected := false))
    case Reconnect(_) => s.(isConnected := true, connectionError := None, attempts := 0)
    case ReconnectAttempt(n) => s.(attempts := n)
    case ReconnectError(message) => s.(connectionError := Some(message))
    case ReconnectFailed => s.(connectionError := Some(ReconnectFailedError), isConnected := false)
  }

  /** A sequence of events, in delivery order. */
  function Run(s: SocketState, es: seq<SocketEvent>): SocketState
    decreases |es|
  {
    if es == [] then s else Run(Step(s, es[0]), es[1..])
  }

  /** The `emit` helper: forward only when a socket exists and is connected. */
  function Emitted(s: SocketState, event: string, data: string): SocketState {
    if s.hasSocket && s.isConnected then s.(emitted := s.emitted + [Emission(event, data)]) else s
  }

  // ---------------------------------------------------------------------
  // Properties

  lemma RetryScheduledValid(s: SocketState)
    requires Valid(s)
    ensures Valid(RetryScheduled(s))
  {
    DelaySchedule(s.attempts);
  }

  /** Every event keeps the invariant. */
  lemma StepValid(s: SocketState, e: SocketEvent)
    requires Valid(s)
    ensures Valid(Step(s, e))
  {
    match e
    case Connect => ConnectValid(s);
    case Disconnect(_) => RetryScheduledValid(s.(isConnected := false));
    case ConnectError(m) => RetryScheduledValid(s.(connectionError := Some(m), isConnected := false));
    case _ =>
  }

  lemma ConnectValid(s: SocketState)
    requires Valid(s)
    ensures Valid(OnConnect(s))
  {
    if s.timerSlot.Some? {
      CancelLast(s.scheduled);
      var kept := s.scheduled[..|s.scheduled| - 1];
      assert forall i :: 0 <= i < |kept| ==> kept[i] == s.scheduled[i];
    }
  }

  /** Any run of events keeps the invariant: in particular every recorded delay is a backoff delay. */
  lemma {:induction false} RunValid(s: SocketState, es: seq<SocketEvent>)
    requires Valid(s)
    ensures Valid(Run(s, es))
    decreases |es|
  {
    if es != [] {
      StepValid(s, es[0]);
      RunValid(Step(s, es[0]), es[1..]);
    }
  }

  /**
   * Only `reconnect_attempt` sets the counter, to the reported number, and
   * `connect`/`reconnect` reset it; every other event, including the ones
   * that call `handleReconnect`, leaves it alone.
   */
  lemma AttemptsChangedOnlyBy(s: SocketState, e: SocketEvent)
    ensures Step(s, e).attempts ==
      match e
      case Connect => 0
      case Reconnect(_) => 0
      case ReconnectAttempt(n) => n
      case _ => s.attempts
  {
  }

  /** At the cap no timer is scheduled and nothing else about the timers changes. */
  lemma NoTimerAtCap(s: SocketState)
    requires s.attempts >= MaxReconnectAttempts
    ensures RetryScheduled(s) == s
  {
  }

  /** Below the cap exactly one timer is added, with the backoff delay, and the slot names it. */
  lemma TimerBelowCap(s: SocketState)
    requires s.attempts < MaxReconnectAttempts
    ensures var t := RetryScheduled(s);
      && t.scheduled == s.scheduled + [Timer(s.nextHandle, ReconnectDelay(s.attempts))]
      && t.timerSlot == Some(s.nextHandle)
      && t.attempts == s.attempts
  {
  }

  /**
   * `connect` marks the socket connected with no error, resets the counter,
   * empties the slot and clears only the timer the slot named.
   */
  lemma ConnectEffect(s: SocketState)
    requires Valid(s)
    ensures var t := Step(s, Connect);
      && t.isConnected && t.connectionError.None? && t.attempts == 0 && t.timerSlot.None?
      && (s.timerSlot.None? ==> t.scheduled == s.scheduled)
      && (s.timerSlot.Some? ==> t.scheduled == s.scheduled[..|s.scheduled| - 1])
  {
    if s.timerSlot.Some? {
      CancelLast(s.scheduled);
    }
  }

  /** Clearing the newest timer of an increasing list drops just that one. */
  lemma {:induction false} CancelLast(ts: seq<Timer>)
    requires ts != [] && Increasing(ts)
    ensures Cancel(ts, ts[|ts| - 1].handle) == ts[..|ts| - 1]
  {
    var h := ts[|ts| - 1].handle;
    if |ts| > 1 {
      var rest := ts[1..];
      assert rest[|rest| - 1].handle == h;
      IncreasingTail(ts);
      CancelLast(rest);
      assert ts[..|ts| - 1] == [ts[0]] + rest[..|rest| - 1];
    }
  }

  lemma IncreasingTail(ts: seq<Timer>)
    requires |ts| > 1 && Increasing(ts)
    ensures Increasing(ts[1..]) && ts[0].handle < ts[|ts| - 1].handle
  {
  }

  /** `disconnect` always marks the socket disconnected and schedules a retry only for a server-initiated one. */
  lemma DisconnectEffect(s: SocketState, reason: string)
    ensures var t := Step(s, Disconnect(reason));
      && !t.isConnected
      && t.connectionError == s.connectionError
      && (|t.scheduled| > |s.scheduled| <==> reason == ServerDisconnect && s.attempts < MaxReconnectAttempts)
  {
  }

  /** `connect_error` records the message, marks the socket disconnected and runs `handleReconnect`. */
  lemma ConnectErrorEffect(s: SocketState, message: string)
    ensures var t := Step(s, ConnectError(message));
      && !t.isConnected
      && t.connectionError == Some(message)
      && t.attempts == s.attempts
      && (|t.scheduled| > |s.scheduled| <==> s.attempts < MaxReconnectAttempts)
  {
  }

  /** `reconnect_failed` sets the fixed error and disconnects; `reconnect_error` only sets the error. */
  lemma ReconnectErrorEffects(s: SocketState, message: string)
    ensures Step(s, ReconnectFailed) == s.(connectionError := Some(ReconnectFailedError), isConnected := false)
    ensures Step(s, ReconnectError(message)) == s.(connectionError := Some(message))
  {
  }

  /**
   * Two connection errors in a row schedule two timers; the `connect` that
   * follows clears only the second, because the first handle was overwritten
   * in the slot without being cleared.
   */
  lemma OverwrittenTimerStaysScheduled(s: SocketState, e1: string, e2: string)
    requires Valid(s) && s.attempts < MaxReconnectAttempts
    ensures var t := Run(s, [ConnectError(e1), ConnectError(e2), Connect]);
      && t.scheduled == s.scheduled + [Timer(s.nextHandle, ReconnectDelay(s.attempts))]
      && t.timerSlot.None?
  {
    var s1 := Step(s, ConnectError(e1));
    var s2 := Step(s1, ConnectError(e2));
    StepValid(s, ConnectError(e1));
    StepValid(s1, ConnectError(e2));
    ConnectEffect(s2);
    assert [ConnectError(e1), ConnectError(e2), Connect][1..] == [ConnectError(e2), Connect];
    assert [ConnectError(e2), Connect][1..] == [Connect];
    assert Run(s, [ConnectError(e1), ConnectError(e2), Connect]) == Run(s2, [Connect]);
    assert s2.scheduled[..|s2.scheduled| - 1] == s.scheduled + [Timer(s.nextHandle, ReconnectDelay(s.attempts))];
  }

  /** `emit` sends exactly one event when a socket exists and is connected, and nothing otherwise. */
  lemma EmitGuard(s: SocketState, event: string, data: string)
    ensures var t := Emitted(s, event, data);
      && (s.hasSocket && s.isConnected ==> t.emitted == s.emitted + [Emission(event, data)])
      && (!(s.hasSocket && s.isConnected) ==> t == s)
  {
  }

  // ---------------------------------------------------------------------
  // The hook

  /** The hook's state values and refs; each method is one event handler. */
  class SocketHook {
    var hasSocket: bool
    var isConnected: bool
    var connectionError: Option<string>
    var attempts: nat
    var timerSlot: Option<nat>
    var scheduled: seq<Timer>
    var nextHandle: nat
    var emitted: seq<Emission>

    function State(): SocketState
      reads this
    {
      SocketState(hasSocket, isConnected, connectionError, attempts, timerSlot, scheduled,
                  nextHandle, emitted)
    }

    constructor ()
      ensures State() == Initial() && Valid(State())
    {
      hasSocket, isConnected, connectionError := false, false, None;
      attempts, timerSlot, scheduled, nextHandle := 0, None, [], 1;
      emitted := [];
    }

    /** The end of the mount effect: the socket object now exists. */
    method Mount()
      modifies this
      ensures State() == Mounted(old(State()))
    {
      hasSocket := true;
    }

    /** `setTimeout(callback, delay)`: record the timer and return its handle. */
    method SetTimeout(delay: nat) returns (handle: nat)
      modifies this
      ensures handle == old(nextHandle) && nextHandle == old(nextHandle) + 1
      ensures scheduled == old(scheduled) + [Timer(handle, delay)]
      ensures hasSocket == old(hasSocket) && isConnected == old(isConnected)
      ensures connectionError == old(connectionError) && attempts == old(attempts)
      ensures timerSlot == old(timerSlot) && emitted == old(emitted)
    {
      handle := nextHandle;
      scheduled := scheduled + [Timer(handle, delay)];
      nextHandle := nextHandle + 1;
    }

    /** `handleReconnect`. */
    method HandleReconnect()
      requires Valid(State())
      modifies this
      ensures State() == RetryScheduled(old(State()))
      ensures Valid(State())
    {
      RetryScheduledValid(State());
      if attempts < MaxReconnectAttempts {
        var delay := ReconnectDelay(attempts);
        var handle := SetTimeout(delay);
        timerSlot := Some(handle);
      }
    }

    /** The handler registered for `e`. */
    method Handle(e: SocketEvent)
      requires Valid(State())
      modifies this
      ensures State() == Step(old(State()), e)
      ensures Valid(State())
    {
      StepValid(State(), e);
      match e {
        case Connect =>
          isConnected := true;
          connectionError := None;
          attempts := 0;
          if timerSlot.Some? {
            scheduled := Cancel(scheduled, timerSlot.value);
            timerSlot := None;
          }
        case Disconnect(reason) =>
          isConnected := false;
          if reason == ServerDisconnect {
            HandleReconnect();
          }
        case ConnectError(message) =>
          connectionError := Some(message);
          isConnected := false;
          HandleReconnect();
        case Reconnect(_) =>
          isConnected := true;
          connectionError := None;
          attempts := 0;
        case ReconnectAttempt(n) =>
          attempts := n;
        case ReconnectError(message) =>
          connectionError := Some(message);
        case ReconnectFailed =>
          connectionError := Some(ReconnectFailedError);
          isConnected := false;
      }
    }

    /** `emit(event, data)`; returns whether the event was forwarded to the socket. */
    method Emit(event: string, data: string) returns (sent: bool)
      modifies this
      ensures sent == (old(hasSocket) && old(isConnected))
      ensures State() == Emitted(old(State()), event, data)
    {
      sent := hasSocket && isConnected;
      if sent {
        emitted := emitted + [Emission(event, data)];
      }
    }
  }
}
