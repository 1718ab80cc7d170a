/**
 * src/bluetooth/supervisor.rs as a state machine: supervisor fields, session engine and transport resources together.
 * The class `Supervision` (SupervisorLoop.dfy) is proved to implement these functions.
 */
module Supervisor {
  import opened Bytes
  import opened Codec
  import opened Collections
  import S = Session
  import T = Transport
  import opened Interruptions

  /** Seconds. */
  const BACKOFF: seq<nat> := [1, 2, 5, 10, 30]
  const PASSIVE_REFRESH_RECONCILES: seq<nat> := [3, 6]
  const SUBSCRIPTION_FAILURES_BEFORE_REFRESH: nat := 2

  datatype RuntimeState =
    | Unconfigured | WaitingForBluez | WaitingForAdapter | Advertising | WaitingForPhone | WaitingForServices
    | WaitingForAuthorization | Subscribing | Ready | Backoff | Error

  datatype Reason = AdapterPoweredOff | BluezUnavailable | ConfiguredDeviceNotBonded | SubscribeFailed

  datatype Snapshot = Snapshot(state: RuntimeState, reason: Option<Reason>, lastError: Option<S.ErrorCode>,
                               connected: bool, servicesResolved: bool, ancsAvailable: bool, subscribed: bool,
                               delivered: nat, errors: nat)

  /**
   * History kept for the proofs only. `backoffs` are the backoff sleeps since the last Ready; the other counters
   * count errors recorded by the supervisor itself, observations, failed subscriptions and refreshes by cause.
   */
  datatype Log = Log(ownErrors: nat, backoffs: seq<nat>, waits: nat, stallRefreshes: nat, disconnectRefreshes: nat,
                     failedSubscriptions: nat, failureRefreshes: nat)

  datatype State = State(
    world: S.World, held: T.Resources, snapshot: Snapshot, observedErrors: nat, backoffIndex: nat, active: bool,
    waiting: nat, refreshIndex: nat, failures: nat, published: seq<Snapshot>, log: Log)

  const CREATED: State :=
    State(S.INITIAL, T.RELEASED, Snapshot(WaitingForBluez, None, None, false, false, false, false, 0, 0),
          0, 0, false, 0, 0, 0, [], Log(0, [], 0, 0, 0, 0, 0))

  function Min(a: nat, b: nat): nat {
    if a < b then a else b
  }

  function CurrentBackoff(s: State): nat {
    BACKOFF[Min(s.backoffIndex, 4)]
  }

  function RecordError(s: State, code: S.ErrorCode): State {
    s.(snapshot := s.snapshot.(lastError := Some(code), errors := s.snapshot.errors + 1),
       log := s.log.(ownErrors := s.log.ownErrors + 1))
  }

  function PublishCurrent(s: State): State {
    s.(published := s.published + [s.snapshot])
  }

  /** Publishes only when state or reason changes. */
  function Publish(s: State, state: RuntimeState, reason: Option<Reason>): State {
    var s1 := s.(snapshot := s.snapshot.(state := state, reason := reason));
    if s.snapshot.state != state || s.snapshot.reason != reason then PublishCurrent(s1) else s1
  }

  function SyncSessionMetadata(s: State): State {
    var m := s.world.meta;
    var snap := s.snapshot.(delivered := m.delivered);
    s.(snapshot := if m.errors > s.observedErrors
                   then snap.(errors := snap.errors + (m.errors - s.observedErrors), lastError := m.lastError) else snap,
       observedErrors := m.errors)
  }

  predicate MetadataChanged(s: State) {
    s.snapshot.delivered != s.world.meta.delivered || s.observedErrors != s.world.meta.errors
  }

  function EndSession(env: S.Env, s: State): State
    requires S.DrainsAll(env)
  {
    var s1 := if s.active then s.(world := S.End(env, s.world), active := false) else s;
    var s2 := SyncSessionMetadata(s1.(held := T.EndAncsSession(s1.held)));
    s2.(snapshot := s2.snapshot.(subscribed := false, ancsAvailable := false))
  }

  function Connection(s: State, connected: bool, servicesResolved: bool): State {
    s.(snapshot := s.snapshot.(connected := connected, servicesResolved := servicesResolved))
  }

  function ResetRecoveryTracking(s: State): State {
    s.(waiting := 0, refreshIndex := 0, failures := 0)
  }

  /** One more reconcile without the phone, in a saturating octet. */
  function CountWait(s: State): State {
    s.(waiting := Min(s.waiting + 1, 255))
  }

  predicate NeedsRefresh(s: State) {
    s.waiting >= PASSIVE_REFRESH_RECONCILES[Min(s.refreshIndex, 1)]
  }

  function RefreshBluezSession(s: State): State {
    s.(held := T.ResetBluezSession(s.held), waiting := 0, failures := 0, refreshIndex := Min(s.refreshIndex + 1, 1))
  }

  function ReconcileFailed(env: S.Env, s: State): State
    requires S.DrainsAll(env)
  {
    var s1 := EndSession(env, s);
    var s2 := ResetRecoveryTracking(s1.(held := T.ResetBluezSession(s1.held)));
    Publish(Connection(RecordError(s2, S.BluezUnavailable), false, false), Backoff, Some(BluezUnavailable))
  }

  /** Recovery while the phone is away: at once after a session, else after enough waiting. */
  function PhoneMissing(s: State, hadActiveSession: bool): State {
    var s1 := s.(log := s.log.(waits := s.log.waits + 1));
    var counted := CountWait(s1);
    if hadActiveSession then
      RefreshBluezSession(s1.(log := s1.log.(disconnectRefreshes := s1.log.disconnectRefreshes + 1)))
    else if NeedsRefresh(counted) then
      RefreshBluezSession(counted.(log := counted.log.(stallRefreshes := counted.log.stallRefreshes + 1)))
    else counted
  }

  function NoPhone(env: S.Env, s: State): State
    requires S.DrainsAll(env)
  {
    Publish(Connection(PhoneMissing(EndSession(env, s), s.active), false, false), WaitingForPhone, None)
  }

  function EnterReady(s: State): State {
    var s1 := s.(active := true, backoffIndex := 0, log := s.log.(backoffs := []));
    Publish(ResetRecoveryTracking(s1.(snapshot := s1.snapshot.(subscribed := true))), Ready, None)
  }

  function CountFailure(s: State): State {
    var s1 := s.(failures := Min(s.failures + 1, 255), log := s.log.(failedSubscriptions := s.log.failedSubscriptions + 1));
    if s1.failures >= SUBSCRIPTION_FAILURES_BEFORE_REFRESH
    then RefreshBluezSession(s1.(log := s1.log.(failureRefreshes := s1.log.failureRefreshes + 1))) else s1
  }

  function SubscriptionFailed(env: S.Env, s: State): State
    requires S.DrainsAll(env)
  {
    Publish(CountFailure(RecordError(EndSession(env, s), S.SubscribeFailed)), WaitingForAuthorization,
      Some(SubscribeFailed))
  }

  function TrySubscribe(env: S.Env, s: State, a: T.SubscribeAnswers): State
    requires S.DrainsAll(env)
  {
    var s1 := Connection(s.(waiting := 0), true, true);
    var s2 := Publish(s1.(snapshot := s1.snapshot.(ancsAvailable := true)), Subscribing, None);
    var tried := T.Subscribe(s2.held, a);
    var s3 := s2.(held := tried.held);
    if tried.answer.Gives? then EnterReady(s3) else SubscriptionFailed(env, s3)
  }

  function EndAndPublish(env: S.Env, s: State, connected: bool, servicesResolved: bool, state: RuntimeState,
                         reason: Option<Reason>): State
    requires S.DrainsAll(env)
  {
    var s1 := EndSession(env, s);
    Publish(Connection(s1.(waiting := 0), connected, servicesResolved), state, reason)
  }

  function ReconcileOnce(env: S.Env, s: State, b: T.Bus, a: T.SubscribeAnswers): State
    requires S.DrainsAll(env)
  {
    var seen := T.Reconcile(s.held, b);
    var s1 := s.(held := seen.held);
    if seen.answer.Fails? then ReconcileFailed(env, s1)
    else
      match seen.answer.value
      case AdapterPoweredOff => EndAndPublish(env, s1, false, false, WaitingForAdapter, Some(AdapterPoweredOff))
      case Advertising => EndAndPublish(env, s1, false, false, Advertising, None)
      case DeviceNotBonded => NotBonded(env, s1)
      case WaitingForPhone => NoPhone(env, s1)
      case WaitingForServices => EndAndPublish(env, s1, true, false, WaitingForServices, None)
      case WaitingForAuthorization => EndAndPublish(env, s1, true, true, WaitingForAuthorization, None)
      case Available => TrySubscribe(env, s1, a)
      case Ready =>
        var s2 := Connection(s1, true, true);
        EnterReady(s2.(snapshot := s2.snapshot.(ancsAvailable := true)))
  }

  function NotBonded(env: S.Env, s: State): State
    requires S.DrainsAll(env)
  {
    var s1 := RecordError(EndSession(env, s).(waiting := 0), S.ConfiguredDeviceNotBonded);
    Publish(Connection(s1, false, false), Error, Some(ConfiguredDeviceNotBonded))
  }

  // ----- the main loop -----

  datatype Packet = NotificationSource(octets: seq<byte>) | DataSource(octets: seq<byte>)

  /**
   * What ends the wait of a Ready turn with an empty queue: the reconcile timer, a stream failure, a packet handled
   * to the end with `later` to come, or the timer while a Notification Source packet is being handled, which is then
   * dropped and leaves the engine as `left`.
   */
  datatype Await =
    | TimerFirst
    | StreamFails
    | Arrives(packet: Packet, later: seq<S.Input>)
    | TimerDuringPacket(octets: seq<byte>, later: seq<S.Input>, left: S.World)

  datatype Turn = Turn(bus: T.Bus, subscribe: T.SubscribeAnswers, later: seq<S.Input>, await: Await)

  function ProcessOnePending(env: S.Env, s: State): State {
    var s1 := s.(world := S.ProcessNext(env, s.world).w);
    if MetadataChanged(s1) then PublishCurrent(SyncSessionMetadata(s1)) else s1
  }

  function HandleOnePacket(env: S.Env, s: State, packet: Packet): State {
    if packet.DataSource? then PublishCurrent(RecordError(s, S.UnsolicitedDataSource))
    else
      match ParseEvent(packet.octets)
      case Err(_) => PublishCurrent(RecordError(s, S.MalformedNotificationSource))
      case Ok(event) => ProcessOnePending(env, s.(world := S.Ingest(env, s.world, event)))
  }

  function StreamFailed(env: S.Env, s: State): State
    requires S.DrainsAll(env)
  {
    PublishCurrent(EndSession(env, RecordError(s, S.AncsStreamFailed)))
  }

  function Upcoming(s: State, later: seq<S.Input>): State {
    s.(world := s.world.(inbox := later))
  }

  function AwaitPacket(env: S.Env, s: State, await: Await): State
    requires S.DrainsAll(env)
  {
    match await
    case TimerFirst => s
    case StreamFails => StreamFailed(env, s)
    case Arrives(packet, later) => HandleOnePacket(env, Upcoming(s, later), packet)
    case TimerDuringPacket(octets, later, left) =>
      var s1 := Upcoming(s, later);
      if InHandling(env, s1.world, octets, left) then s1.(world := left)
      else HandleOnePacket(env, s1, NotificationSource(octets))
  }

  function SleepBackoff(s: State): State {
    s.(backoffIndex := Min(s.backoffIndex + 1, 4), log := s.log.(backoffs := s.log.backoffs + [CurrentBackoff(s)]))
  }

  /** What the loop does after a reconcile. */
  function AfterReconcile(env: S.Env, s: State, t: Turn): State
    requires S.DrainsAll(env)
  {
    if s.snapshot.state == Backoff then SleepBackoff(s)
    else if s.snapshot.state != Ready then s
    else if S.PendingLen(s.world) > 0 then ProcessOnePending(env, Upcoming(s, t.later))
    else AwaitPacket(env, s, t.await)
  }

  function RunTurn(env: S.Env, s: State, t: Turn): State
    requires S.DrainsAll(env)
  {
    AfterReconcile(env, ReconcileOnce(env, s, t.bus, t.subscribe), t)
  }

  function RunTurns(env: S.Env, s: State, turns: seq<Turn>): State
    requires S.DrainsAll(env)
    decreases |turns|
  {
    if turns == [] then s else RunTurns(env, RunTurn(env, s, turns[0]), turns[1..])
  }

  /** `shutdown`, which releases everything the transport holds. */
  function Shutdown(env: S.Env, s: State): State
    requires S.DrainsAll(env)
  {
    var s1 := SyncSessionMetadata(if s.active then s.(world := S.End(env, s.world), active := false) else s);
    s1.(snapshot := s1.snapshot.(subscribed := false, ancsAvailable := false), held := T.ResetBluezSession(s1.held))
  }
}
