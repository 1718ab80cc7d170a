/** What one reconciliation publishes, records, ends and releases, as a table over observations. */
module SupervisorEffects {
  import opened Collections
  import opened Supervisor
  import opened SupervisorRecovery
  import S = Session
  import T = Transport

  function NextReason(seen: T.Answer<T.Observation>, subscribed: bool): Option<Reason> {
    if seen.Fails? then Some(BluezUnavailable)
    else if seen.value.AdapterPoweredOff? then Some(AdapterPoweredOff)
    else if seen.value.DeviceNotBonded? then Some(ConfiguredDeviceNotBonded)
    else if seen.value.Available? && !subscribed then Some(SubscribeFailed)
    else None
  }

  /** The error that the supervisor records itself. */
  function OwnError(seen: T.Answer<T.Observation>, subscribed: bool): Option<S.ErrorCode> {
    if seen.Fails? then Some(S.BluezUnavailable)
    else if seen.value.DeviceNotBonded? then Some(S.ConfiguredDeviceNotBonded)
    else if seen.value.Available? && !subscribed then Some(S.SubscribeFailed)
    else None
  }

  predicate StaysSubscribed(seen: T.Answer<T.Observation>, subscribed: bool) {
    seen.Gives? && (seen.value.Ready? || (seen.value.Available? && subscribed))
  }

  /** The BlueZ session is recreated: when the phone left a session, after enough waiting, or after enough failures. */
  predicate Refreshes(c: Counters, active: bool, seen: T.Answer<T.Observation>, subscribed: bool) {
    seen.Gives? &&
    if seen.value.WaitingForPhone?
    then active || Min(c.waiting + 1, 255) >= PASSIVE_REFRESH_RECONCILES[Min(c.refreshIndex, 1)]
    else seen.value.Available? && !subscribed && Min(c.failures + 1, 255) >= SUBSCRIPTION_FAILURES_BEFORE_REFRESH
  }

  function NextHeld(held: T.Resources, c: Counters, active: bool, seen: T.Answer<T.Observation>,
                    subscribed: bool): T.Resources {
    if seen.Fails? || Refreshes(c, active, seen, subscribed) then T.RELEASED
    else if !StaysSubscribed(seen, subscribed) then T.EndAncsSession(held)
    else if seen.value.Ready? then held
    else held.(subscriptions := true)
  }

  ghost predicate Effects(env: S.Env, s: State, r: State, seen: T.Answer<T.Observation>, subscribed: bool)
    requires S.DrainsAll(env)
  {
    && r.snapshot.reason == NextReason(seen, subscribed)
    && r.held == NextHeld(s.held, CountersOf(s), s.active, seen, subscribed)
    && r.active == StaysSubscribed(seen, subscribed)
    && r.world == (if s.active && !r.active then S.End(env, s.world) else s.world)
    && (match OwnError(seen, subscribed)
        case Some(code) => r.snapshot.lastError == Some(code) && r.log.ownErrors == s.log.ownErrors + 1
        case None => r.log.ownErrors == s.log.ownErrors)
  }

  lemma EndEffects(env: S.Env, s: State)
    requires S.DrainsAll(env)
    ensures var e := EndSession(env, s);
            && e.world == (if s.active then S.End(env, s.world) else s.world)
            && e.held == T.EndAncsSession(s.held) && !e.active && e.log == s.log && CountersOf(e) == CountersOf(s)
  {
    hide S.End;
  }

  lemma PublishEffects(s: State, state: RuntimeState, reason: Option<Reason>)
    ensures var p := Publish(s, state, reason);
            && p == s.(snapshot := p.snapshot, published := p.published)
            && p.snapshot == s.snapshot.(state := state, reason := reason)
  {}

  lemma NoPhoneEffects(env: S.Env, s: State)
    requires S.DrainsAll(env)
    ensures Effects(env, s, NoPhone(env, s), T.Gives(T.WaitingForPhone), false)
  {
    hide EndSession, Publish, S.End, S.DrainsAll;
    EndEffects(env, s);
    PublishEffects(Connection(PhoneMissing(EndSession(env, s), s.active), false, false), WaitingForPhone, None);
  }

  lemma EndAndPublishEffects(env: S.Env, s: State, connected: bool, servicesResolved: bool, state: RuntimeState,
                             reason: Option<Reason>)
    requires S.DrainsAll(env)
    ensures var r := EndAndPublish(env, s, connected, servicesResolved, state, reason);
            && r.snapshot.reason == reason && r.held == T.EndAncsSession(s.held) && !r.active
              && r.log.ownErrors == s.log.ownErrors
            && r.world == (if s.active then S.End(env, s.world) else s.world)
  {
    hide EndSession, Publish, S.End, S.DrainsAll;
    EndEffects(env, s);
    PublishEffects(Connection(EndSession(env, s).(waiting := 0), connected, servicesResolved), state, reason);
  }

  lemma NotBondedEffects(env: S.Env, s: State)
    requires S.DrainsAll(env)
    ensures Effects(env, s, NotBonded(env, s), T.Gives(T.DeviceNotBonded), false)
  {
    hide EndSession, Publish, S.End, S.DrainsAll;
    EndEffects(env, s);
    var s1 := RecordError(EndSession(env, s).(waiting := 0), S.ConfiguredDeviceNotBonded);
    PublishEffects(Connection(s1, false, false), Error, Some(ConfiguredDeviceNotBonded));
  }

  lemma FailedEffects(env: S.Env, s: State)
    requires S.DrainsAll(env)
    ensures Effects(env, s, ReconcileFailed(env, s), T.Fails, false)
  {
    hide EndSession, Publish, S.End, S.DrainsAll;
    EndEffects(env, s);
    var e := EndSession(env, s);
    var s2 := ResetRecoveryTracking(e.(held := T.ResetBluezSession(e.held)));
    PublishEffects(Connection(RecordError(s2, S.BluezUnavailable), false, false), Backoff, Some(BluezUnavailable));
  }

  lemma ReadyEffects(env: S.Env, s: State)
    requires S.DrainsAll(env)
    ensures var r := EnterReady(s);
            && r.snapshot.reason == None && r.held == s.held && r.active && r.world == s.world
              && r.log.ownErrors == s.log.ownErrors
  {
    hide Publish;
    var s1 := s.(active := true, backoffIndex := 0, log := s.log.(backoffs := []));
    PublishEffects(ResetRecoveryTracking(s1.(snapshot := s1.snapshot.(subscribed := true))), Ready, None);
  }

  lemma SubscriptionFailedEffects(env: S.Env, s: State)
    requires S.DrainsAll(env)
    ensures var r := SubscriptionFailed(env, s);
            && r.snapshot.reason == Some(SubscribeFailed) && r.snapshot.lastError == Some(S.SubscribeFailed)
            && r.held == (if Min(s.failures + 1, 255) >= SUBSCRIPTION_FAILURES_BEFORE_REFRESH then T.RELEASED
              else T.EndAncsSession(s.held))
            && !r.active && r.world == (if s.active then S.End(env, s.world) else s.world)
            && r.log.ownErrors == s.log.ownErrors + 1
  {
    hide EndSession, Publish, S.End, S.DrainsAll;
    EndEffects(env, s);
    PublishEffects(CountFailure(RecordError(EndSession(env, s), S.SubscribeFailed)), WaitingForAuthorization,
      Some(SubscribeFailed));
  }

  lemma SubscribeEffects(env: S.Env, s: State, a: T.SubscribeAnswers)
    requires S.DrainsAll(env)
    ensures Effects(env, s, TrySubscribe(env, s, a), T.Gives(T.Available), T.Subscribe(s.held, a).answer.Gives?)
  {
    hide EndSession, Publish, S.End, S.DrainsAll, EnterReady, SubscriptionFailed;
    var s1 := Connection(s.(waiting := 0), true, true);
    var ready := s1.(snapshot := s1.snapshot.(ancsAvailable := true));
    PublishEffects(ready, Subscribing, None);
    var s2 := Publish(ready, Subscribing, None);
    var s3 := s2.(held := T.Subscribe(s2.held, a).held);
    ReadyEffects(env, s3);
    SubscriptionFailedEffects(env, s3);
  }

  /**
   * One reconciliation ends the session exactly if it was active and does not stay subscribed, releases everything
   * exactly on a failure or a refresh and the ANCS session otherwise, records exactly the error of its observation,
   * and gives its reason.
   */
  lemma ReconcileEffects(env: S.Env, s: State, b: T.Bus, a: T.SubscribeAnswers)
    requires S.DrainsAll(env)
    ensures var seen := T.Reconcile(s.held, b);
            Effects(env, s.(held := seen.held), ReconcileOnce(env, s, b, a), seen.answer,
                    seen.answer == T.Gives(T.Available) && T.Subscribe(seen.held, a).answer.Gives?)
  {
    hide T.Reconcile, S.DrainsAll, S.End, EndSession, Publish, ReconcileFailed, NotBonded, NoPhone, TrySubscribe,
         EnterReady,
         EndAndPublish, T.Subscribe;
    var seen := T.Reconcile(s.held, b);
    var s1 := s.(held := seen.held);
    if seen.answer.Fails? {
      FailedEffects(env, s1);
    } else {
      match seen.answer.value
      case AdapterPoweredOff => EndAndPublishEffects(env, s1, false, false, WaitingForAdapter, Some(AdapterPoweredOff));
      case Advertising => EndAndPublishEffects(env, s1, false, false, Advertising, None);
      case DeviceNotBonded => NotBondedEffects(env, s1);
      case WaitingForPhone => NoPhoneEffects(env, s1);
      case WaitingForServices => EndAndPublishEffects(env, s1, true, false, WaitingForServices, None);
      case WaitingForAuthorization => EndAndPublishEffects(env, s1, true, true, WaitingForAuthorization, None);
      case Available => SubscribeEffects(env, s1, a);
      case Ready =>
        var s2 := Connection(s1, true, true);
        ReadyEffects(env, s2.(snapshot := s2.snapshot.(ancsAvailable := true)));
    }
  }
}
