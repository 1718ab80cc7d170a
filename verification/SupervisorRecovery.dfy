/** Recovery counters of the supervisor: they depend on observations alone, and bound how often BlueZ is refreshed. */
module SupervisorRecovery {
  import opened Codec
  import opened Collections
  import opened Supervisor
  import opened SupervisorInvariants
  import S = Session
  import T = Transport
  import opened Interruptions

  // ----- recovery counters -----

  datatype Counters = Counters(waiting: nat, refreshIndex: nat, failures: nat, backoffIndex: nat, backoffs: seq<nat>,
                               waits: nat, stalls: nat, failedSubscriptions: nat, failureRefreshes: nat)

  function CountersOf(s: State): Counters {
    Counters(s.waiting, s.refreshIndex, s.failures, s.backoffIndex, s.log.backoffs, s.log.waits, s.log.stallRefreshes,
             s.log.failedSubscriptions, s.log.failureRefreshes)
  }

  function Refreshed(c: Counters): Counters {
    c.(waiting := 0, failures := 0, refreshIndex := Min(c.refreshIndex + 1, 1))
  }

  function FailedSubscription(c: Counters): Counters {
    var c1 := c.(failures := Min(c.failures + 1, 255), failedSubscriptions := c.failedSubscriptions + 1);
    if c1.failures >= SUBSCRIPTION_FAILURES_BEFORE_REFRESH
    then Refreshed(c1.(failureRefreshes := c1.failureRefreshes + 1)) else c1
  }

  /** The counters after an observation, as a function of nothing but the counters, the observation and its outcome. */
  function NextCounters(c: Counters, active: bool, seen: T.Answer<T.Observation>, subscribed: bool): Counters {
    if seen.Fails? then c.(waiting := 0, refreshIndex := 0, failures := 0)
    else if seen.value == T.Ready || (seen.value == T.Available && subscribed) then
      c.(waiting := 0, refreshIndex := 0, failures := 0, backoffIndex := 0, backoffs := [])
    else if seen.value == T.Available then FailedSubscription(c.(waiting := 0))
    else if seen.value == T.WaitingForPhone then
      var c1 := c.(waits := c.waits + 1);
      if active then Refreshed(c1)
      else
        var c2 := c1.(waiting := Min(c1.waiting + 1, 255));
        if c2.waiting >= PASSIVE_REFRESH_RECONCILES[Min(c2.refreshIndex, 1)]
        then Refreshed(c2.(stalls := c2.stalls + 1)) else c2
    else c.(waiting := 0)
  }

  function NextRuntimeState(seen: T.Answer<T.Observation>, subscribed: bool): RuntimeState {
    if seen.Fails? then Backoff
    else
      match seen.value
      case AdapterPoweredOff => WaitingForAdapter
      case Advertising => Advertising
      case DeviceNotBonded => Error
      case WaitingForPhone => WaitingForPhone
      case WaitingForServices => WaitingForServices
      case WaitingForAuthorization => WaitingForAuthorization
      case Available => if subscribed then Ready else WaitingForAuthorization
      case Ready => Ready
  }

  lemma EndSessionFrame(env: S.Env, s: State)
    requires S.DrainsAll(env)
    ensures var e := EndSession(env, s);
            CountersOf(e) == CountersOf(s) && (!s.active ==> e.world == s.world) && !e.active
            && e.snapshot.state == s.snapshot.state
  {}

  lemma PublishFrame(s: State, state: RuntimeState, reason: Option<Reason>)
    ensures var p := Publish(s, state, reason);
            CountersOf(p) == CountersOf(s) && p.world == s.world && p.snapshot.state == state && p.active == s.active
            && p.held == s.held
  {}

  /** What a branch of the reconciliation must do: counters, state, and leaving the engine alone without a session. */
  predicate Branch(s: State, r: State, seen: T.Answer<T.Observation>, subscribed: bool) {
    && CountersOf(r) == NextCounters(CountersOf(s), s.active, seen, subscribed)
    && r.snapshot.state == NextRuntimeState(seen, subscribed)
    && (!s.active ==> r.world == s.world)
    && (seen == T.Gives(T.Ready) ==> r.world == s.world && r.active)
  }

  lemma FailedBranch(env: S.Env, s: State)
    requires S.DrainsAll(env)
    ensures Branch(s, ReconcileFailed(env, s), T.Fails, false)
  {}

  lemma EndBranch(env: S.Env, s: State, connected: bool, servicesResolved: bool, state: RuntimeState,
                  reason: Option<Reason>)
    requires S.DrainsAll(env)
    ensures var r := EndAndPublish(env, s, connected, servicesResolved, state, reason);
            && CountersOf(r) == CountersOf(s).(waiting := 0) && r.snapshot.state == state
            && (!s.active ==> r.world == s.world)
  {}

  lemma NotBondedBranch(env: S.Env, s: State)
    requires S.DrainsAll(env)
    ensures Branch(s, NotBonded(env, s), T.Gives(T.DeviceNotBonded), false)
  {}

  lemma NoPhoneBranch(env: S.Env, s: State)
    requires S.DrainsAll(env)
    ensures Branch(s, NoPhone(env, s), T.Gives(T.WaitingForPhone), false)
  {
    hide EndSession, Publish, S.DrainsAll;
    EndSessionFrame(env, s);
    var s3 := PhoneMissing(EndSession(env, s), s.active);
    PublishFrame(Connection(s3, false, false), WaitingForPhone, None);
  }

  lemma EnterReadyFrame(s: State)
    ensures var r := EnterReady(s);
            && CountersOf(r) == CountersOf(s).(waiting := 0, refreshIndex := 0, failures := 0, backoffIndex := 0,
              backoffs := [])
            && r.snapshot.state == Ready && r.world == s.world && r.active
  {}

  lemma SubscriptionFailedFrame(env: S.Env, s: State)
    requires S.DrainsAll(env)
    ensures var r := SubscriptionFailed(env, s);
            && CountersOf(r) == FailedSubscription(CountersOf(s))
            && r.snapshot.state == WaitingForAuthorization && (!s.active ==> r.world == s.world)
  {}

  lemma SubscribeBranch(env: S.Env, s: State, a: T.SubscribeAnswers)
    requires S.DrainsAll(env)
    ensures Branch(s, TrySubscribe(env, s, a), T.Gives(T.Available), T.Subscribe(s.held, a).answer.Gives?)
  {
    hide EndSession, Publish, S.DrainsAll, EnterReady, SubscriptionFailed, T.Subscribe;
    var s1 := Connection(s.(waiting := 0), true, true);
    var ready := s1.(snapshot := s1.snapshot.(ancsAvailable := true));
    PublishFrame(ready, Subscribing, None);
    var s2 := Publish(ready, Subscribing, None);
    var s3 := s2.(held := T.Subscribe(s2.held, a).held);
    EnterReadyFrame(s3);
    SubscriptionFailedFrame(env, s3);
  }

  /** Counters, state and engine after one reconciliation are determined by the observation alone. */
  lemma ReconcileCounters(env: S.Env, s: State, b: T.Bus, a: T.SubscribeAnswers)
    requires S.DrainsAll(env)
    ensures var seen := T.Reconcile(s.held, b);
            Branch(s, ReconcileOnce(env, s, b, a), seen.answer,
                   seen.answer == T.Gives(T.Available) && T.Subscribe(seen.held, a).answer.Gives?)
  {
    hide T.Reconcile, S.DrainsAll, EndSession, Publish, ReconcileFailed, NotBonded, NoPhone, TrySubscribe, EnterReady,
         EndAndPublish,
         T.Subscribe;
    var seen := T.Reconcile(s.held, b);
    var s1 := s.(held := seen.held);
    if seen.answer.Fails? {
      FailedBranch(env, s1);
    } else {
      match seen.answer.value
      case AdapterPoweredOff => EndBranch(env, s1, false, false, WaitingForAdapter, Some(AdapterPoweredOff));
      case Advertising => EndBranch(env, s1, false, false, Advertising, None);
      case DeviceNotBonded => NotBondedBranch(env, s1);
      case WaitingForPhone => NoPhoneBranch(env, s1);
      case WaitingForServices => EndBranch(env, s1, true, false, WaitingForServices, None);
      case WaitingForAuthorization => EndBranch(env, s1, true, true, WaitingForAuthorization, None);
      case Available => SubscribeBranch(env, s1, a);
      case Ready =>
        var s2 := Connection(s1, true, true);
        EnterReadyFrame(s2.(snapshot := s2.snapshot.(ancsAvailable := true)));
    }
  }

  lemma BoundaryIsLoopHead(s: State)
    requires AtBoundary(s)
    ensures AtLoopHead(s) && (s.snapshot.state == Ready <==> s.active)
  {}

  // ----- backoff -----

  /** The j-th backoff sleep since the last Ready lasts BACKOFF[min(j, 4)] seconds, counting from zero. */
  predicate BackoffTracked(c: Counters) {
    && c.backoffIndex == Min(|c.backoffs|, 4)
    && forall j :: 0 <= j < |c.backoffs| ==> c.backoffs[j] == BACKOFF[Min(j, 4)]
  }

  lemma NextKeepsBackoff(c: Counters, active: bool, seen: T.Answer<T.Observation>, subscribed: bool)
    requires BackoffTracked(c)
    ensures BackoffTracked(NextCounters(c, active, seen, subscribed))
  {}

  lemma SleepKeepsBackoff(s: State)
    requires BackoffTracked(CountersOf(s))
    ensures BackoffTracked(CountersOf(SleepBackoff(s)))
  {}

  lemma ProcessFrame(env: S.Env, s: State)
    ensures CountersOf(ProcessOnePending(env, s)) == CountersOf(s)
  {}

  lemma PacketFrame(env: S.Env, s: State, packet: Packet)
    ensures CountersOf(HandleOnePacket(env, s, packet)) == CountersOf(s)
  {
    hide ParseEvent, S.Ingest, ProcessOnePending;
    if packet.NotificationSource? && ParseEvent(packet.octets).Ok? {
      ProcessFrame(env, s.(world := S.Ingest(env, s.world, ParseEvent(packet.octets).value)));
    }
  }

  lemma AwaitFrame(env: S.Env, s: State, await: Await)
    requires S.DrainsAll(env)
    ensures CountersOf(AwaitPacket(env, s, await)) == CountersOf(s)
  {
    hide ParseEvent, S.Ingest, HandleOnePacket, InHandling, EndSession, S.DrainsAll;
    match await
    case TimerFirst =>
    case StreamFails => EndSessionFrame(env, RecordError(s, S.AncsStreamFailed));
    case Arrives(packet, later) => PacketFrame(env, Upcoming(s, later), packet);
    case TimerDuringPacket(octets, later, left) => PacketFrame(env, Upcoming(s, later), NotificationSource(octets));
  }

  /** Nothing but a backoff sleep changes the counters between two reconciliations. */
  lemma AfterReconcileFrame(env: S.Env, s: State, t: Turn)
    requires S.DrainsAll(env)
    ensures CountersOf(AfterReconcile(env, s, t)) == CountersOf(if s.snapshot.state == Backoff then SleepBackoff(s) else s)
  {
    hide AwaitPacket, ProcessOnePending, S.PendingLen, S.DrainsAll;
    AwaitFrame(env, s, t.await);
    ProcessFrame(env, Upcoming(s, t.later));
  }

  lemma TurnKeepsBackoff(env: S.Env, s: State, t: Turn)
    requires S.DrainsAll(env) && BackoffTracked(CountersOf(s))
    ensures BackoffTracked(CountersOf(RunTurn(env, s, t)))
  {
    hide ReconcileOnce, AfterReconcile, SleepBackoff, S.DrainsAll, T.Reconcile, T.Subscribe, NextRuntimeState, NextCounters,
         BackoffTracked, CountersOf;
    var r := ReconcileOnce(env, s, t.bus, t.subscribe);
    var seen := T.Reconcile(s.held, t.bus);
    var subscribed := seen.answer == T.Gives(T.Available) && T.Subscribe(seen.held, t.subscribe).answer.Gives?;
    ReconcileCounters(env, s, t.bus, t.subscribe);
    NextKeepsBackoff(CountersOf(s), s.active, seen.answer, subscribed);
    SleepKeepsBackoff(r);
    AfterReconcileFrame(env, r, t);
  }

  /** Started afresh or from any state that satisfies it, every run keeps to the backoff table. */
  lemma {:induction false} BackoffFollowsTheTable(env: S.Env, s: State, turns: seq<Turn>)
    requires S.DrainsAll(env) && BackoffTracked(CountersOf(s))
    ensures BackoffTracked(CountersOf(RunTurns(env, s, turns)))
    decreases |turns|
  {
    hide BackoffTracked, RunTurn, S.DrainsAll, CountersOf;
    if turns != [] {
      TurnKeepsBackoff(env, s, turns[0]);
      BackoffFollowsTheTable(env, RunTurn(env, s, turns[0]), turns[1..]);
    }
  }

  lemma EveryBackoffFollowsTheTable(env: S.Env, turns: seq<Turn>)
    requires S.DrainsAll(env)
    ensures BackoffTracked(CountersOf(RunTurns(env, PublishCurrent(CREATED), turns)))
  {
    hide RunTurns, S.DrainsAll;
    BackoffFollowsTheTable(env, PublishCurrent(CREATED), turns);
  }

  // ----- passive refresh -----

  predicate TrackingReset(c: Counters) {
    c.waiting == 0 && c.refreshIndex == 0 && c.failures == 0
  }

  /** Every turn ends neither Ready nor in Backoff. */
  predicate Disconnected(env: S.Env, s: State, turns: seq<Turn>)
    requires S.DrainsAll(env)
    decreases |turns|
  {
    turns == [] ||
    (Quiet(ReconcileOnce(env, s, turns[0].bus, turns[0].subscribe))
      && Disconnected(env, RunTurn(env, s, turns[0]), turns[1..]))
  }

  predicate Quiet(s: State) {
    s.snapshot.state != Ready && s.snapshot.state != Backoff
  }

  /** Account of the refreshes between two points: `w` waits and `f` failed subscriptions paid for the refreshes. */
  predicate RefreshesPaid(start: Counters, c: Counters) {
    var w := c.waits - start.waits;
    var f := c.failedSubscriptions - start.failedSubscriptions;
    var stalls := c.stalls - start.stalls;
    var failed := c.failureRefreshes - start.failureRefreshes;
    && c.refreshIndex <= 1 && c.failures < 2 && w >= 0 && f >= 0 && stalls >= 0 && failed >= 0
    && 2 * failed + c.failures <= f
    && (if c.refreshIndex == 0 then stalls == 0 && c.waiting <= w && c.waiting < 3
        else 6 * stalls + c.waiting <= w + 3 && c.waiting < 6)
  }

  /** An observation that leads neither to Ready nor to Backoff is paid for. */
  lemma NextKeepsPaid(start: Counters, c: Counters, seen: T.Answer<T.Observation>, subscribed: bool)
    requires RefreshesPaid(start, c)
    requires NextRuntimeState(seen, subscribed) != Ready && NextRuntimeState(seen, subscribed) != Backoff
    ensures RefreshesPaid(start, NextCounters(c, false, seen, subscribed))
  {}

  /** A turn without Ready or Backoff is nothing but its reconciliation, and stays without a session. */
  lemma QuietTurn(env: S.Env, s: State, t: Turn)
    requires S.DrainsAll(env) && AtLoopHead(s) && Quiet(ReconcileOnce(env, s, t.bus, t.subscribe))
    ensures RunTurn(env, s, t) == ReconcileOnce(env, s, t.bus, t.subscribe)
    ensures AtLoopHead(RunTurn(env, s, t)) && !RunTurn(env, s, t).active
  {
    ReconcileReachesBoundary(env, s, t.bus, t.subscribe);
    BoundaryIsLoopHead(ReconcileOnce(env, s, t.bus, t.subscribe));
    hide ReconcileOnce, AtLoopHead, AtBoundary, S.DrainsAll;
  }

  lemma {:induction false} RefreshAccount(env: S.Env, start: Counters, s: State, turns: seq<Turn>)
    requires S.DrainsAll(env) && AtLoopHead(s) && !s.active
    requires RefreshesPaid(start, CountersOf(s)) && Disconnected(env, s, turns)
    ensures RefreshesPaid(start, CountersOf(RunTurns(env, s, turns)))
    decreases |turns|
  {
    hide ReconcileOnce, RunTurn, AtLoopHead, T.Reconcile, T.Subscribe, S.DrainsAll, NextRuntimeState, NextCounters,
         RefreshesPaid, CountersOf;
    if turns != [] {
      var t := turns[0];
      var seen := T.Reconcile(s.held, t.bus);
      var subscribed := seen.answer == T.Gives(T.Available) && T.Subscribe(seen.held, t.subscribe).answer.Gives?;
      ReconcileCounters(env, s, t.bus, t.subscribe);
      QuietTurn(env, s, t);
      NextKeepsPaid(start, CountersOf(s), seen.answer, subscribed);
      RefreshAccount(env, start, RunTurn(env, s, t), turns[1..]);
    }
  }

  /**
   * Passive recovery is bounded: W waits cause at most (W+3)/6 stall refreshes, F failed subscriptions at most F/2
   * more.
   */
  lemma PassiveRefreshIsBounded(env: S.Env, s: State, turns: seq<Turn>)
    requires S.DrainsAll(env) && AtLoopHead(s) && !s.active && TrackingReset(CountersOf(s)) && Disconnected(env, s, turns)
    ensures var e := RunTurns(env, s, turns);
            && e.log.stallRefreshes - s.log.stallRefreshes <= (e.log.waits - s.log.waits + 3) / 6
            && e.log.failureRefreshes - s.log.failureRefreshes <= (e.log.failedSubscriptions - s.log.failedSubscriptions) / 2
  {
    RefreshAccount(env, CountersOf(s), s, turns);
    hide RunTurns, Disconnected, AtLoopHead, S.DrainsAll;
  }
}
