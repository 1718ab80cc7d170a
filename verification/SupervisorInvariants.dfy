/** The product invariant of supervisor, engine and transport, what is published, and the error account. */
module SupervisorInvariants {
  import opened Bytes
  import opened Codec
  import opened Collections
  import Decoder
  import opened Supervisor
  import opened Interruptions
  import S = Session
  import T = Transport
  import SessionRuns

  datatype Flags = Flags(connected: bool, servicesResolved: bool, ancsAvailable: bool, subscribed: bool)

  function FlagsOf(s: Snapshot): Flags {
    Flags(s.connected, s.servicesResolved, s.ancsAvailable, s.subscribed)
  }

  /** The flags a state stands for. */
  function MeaningOf(state: RuntimeState): Flags {
    match state
    case WaitingForServices => Flags(true, false, false, false)
    case WaitingForAuthorization => Flags(true, true, false, false)
    case Subscribing => Flags(true, true, true, false)
    case Ready => Flags(true, true, true, true)
    case _ => Flags(false, false, false, false)
  }

  /** Subscribed needs ANCS, ANCS needs resolved services, those need a connection. */
  predicate Layered(s: Snapshot) {
    (s.subscribed ==> s.ancsAvailable) && (s.ancsAvailable ==> s.servicesResolved) && (s.servicesResolved ==> s.connected)
  }

  /** State, reason and flags as last published are the current ones. */
  predicate LastPublished(s: State) {
    s.published != [] &&
    var last := s.published[|s.published| - 1];
    last.state == s.snapshot.state && last.reason == s.snapshot.reason && FlagsOf(last) == FlagsOf(s.snapshot)
  }

  predicate AllLayered(published: seq<Snapshot>) {
    forall i :: 0 <= i < |published| ==> Layered(published[i])
  }

  /** Errors shown are those recorded here plus those taken over from the session. */
  predicate ErrorsAdd(s: State) {
    s.snapshot.errors == s.log.ownErrors + s.observedErrors && s.observedErrors <= s.world.meta.errors
  }

  predicate Synced(s: State) {
    s.observedErrors == s.world.meta.errors && s.snapshot.delivered == s.world.meta.delivered
  }

  /** One session: supervisor, transport and snapshot agree, and without it the engine holds nothing. */
  predicate OneSession(s: State) {
    && T.Consistent(s.held)
    && (s.active <==> s.held.subscriptions)
    && (s.active <==> s.snapshot.subscribed)
    && (!s.active ==> SessionRuns.Empty(s.world))
  }

  /**
   * Holds whenever the loop reconciles; after a stream failure the state is still Ready although nothing is
   * subscribed.
   */
  predicate AtLoopHead(s: State) {
    && OneSession(s)
    && s.snapshot.state != Subscribing
    && (s.snapshot.state == Ready ==>
          s.snapshot.connected && s.snapshot.servicesResolved && (s.snapshot.ancsAvailable <==> s.active))
    && (s.snapshot.state != Ready ==> !s.active && FlagsOf(s.snapshot) == MeaningOf(s.snapshot.state))
    && LastPublished(s) && AllLayered(s.published) && ErrorsAdd(s)
  }

  /**
   * After every reconciliation, state Ready, an active session, the subscribed flag and held subscriptions coincide.
   */
  predicate AtBoundary(s: State) {
    && OneSession(s)
    && (s.snapshot.state == Ready <==> s.active)
    && s.snapshot.state != Subscribing
    && FlagsOf(s.snapshot) == MeaningOf(s.snapshot.state)
    && LastPublished(s) && AllLayered(s.published) && ErrorsAdd(s)
  }

  lemma StartIsAtLoopHead()
    ensures AtLoopHead(PublishCurrent(CREATED)) && Synced(PublishCurrent(CREATED))
  {}

  // ----- session errors only grow -----

  lemma {:induction false} CloseAllGrows(env: S.Env, w: S.World, handles: map<S.Uid, S.Handle>, order: seq<S.Uid>)
    requires forall uid :: uid in order ==> uid in handles
    ensures var r := S.CloseAll(env, w, handles, order); r.meta.errors >= w.meta.errors && r.handles == w.handles
    decreases |order|
  {
    if order != [] {
      CloseAllGrows(env, S.CloseHandle(env, w, handles[order[0]]), handles, order[1..]);
    }
  }

  lemma IngestGrows(env: S.Env, w: S.World, event: NotificationEvent)
    ensures S.Ingest(env, w, event).meta.errors >= w.meta.errors
  {
    hide Without, S.WaitingLen;
  }

  lemma {:induction false} WaitGrows(env: S.Env, w: S.World)
    ensures S.Wait(env, w).w.meta.errors >= w.meta.errors
    decreases |w.inbox|
  {
    hide S.Ingest, ParseEvent;
    if w.inbox != [] && !w.inbox[0].Timeout? && !w.inbox[0].StreamFailure? {
      var w1 := w.(inbox := w.inbox[1..]);
      match w.inbox[0]
      case DataSource(fragment) =>
        var p := Decoder.Feed(w1.decoder, fragment);
        if p.outcome == Ok([]) { WaitGrows(env, w1.(decoder := p.after)); }
      case NotificationSource(packet) =>
        if ParseEvent(packet).Ok? { IngestGrows(env, w1, ParseEvent(packet).value); }
        WaitGrows(env, S.IngestPacket(env, w1, packet));
    }
  }

  lemma FetchGrows(env: S.Env, w: S.World, expected: Expectation, request: seq<byte>)
    ensures S.Fetch(env, w, expected, request).w.meta.errors >= w.meta.errors
  {
    hide S.Wait;
    WaitGrows(env, S.WriteControl(env, w.(decoder := Decoder.Expecting(w.decoder, expected)), request).w);
  }

  lemma {:induction false} EvictGrows(env: S.Env, w: S.World)
    ensures S.EvictHandles(env, w).meta.errors >= w.meta.errors
    decreases |w.handleOrder|
  {
    if |w.handles| > S.MAX_ACTIVE_NOTIFICATIONS && w.handleOrder != [] {
      var oldest := w.handleOrder[0];
      var w1 := w.(handleOrder := w.handleOrder[1..]);
      EvictGrows(env, if oldest in w.handles
                      then S.CloseHandle(env, w1.(handles := w.handles - {oldest}), w.handles[oldest]) else w1);
    }
  }

  lemma DeliverGrows(env: S.Env, w: S.World, uid: S.Uid, payload: S.Payload)
    ensures S.Deliver(env, w, uid, payload).meta.errors >= w.meta.errors
  {
    var n := |w.calls|;
    var ok := env.sinkOk(n);
    var known := uid in w.handles;
    var c :=
      if known then S.Replace(w.handles[uid], payload, ok)
      else S.Create(payload, if ok then Some(env.newId(n)) else None);
    var id := if known then w.handles[uid] else env.newId(n);
    EvictGrows(env, w.(calls := w.calls + [c], handles := w.handles[uid := id],
                       handleOrder := if known then w.handleOrder else w.handleOrder + [uid]));
    hide S.EvictHandles;
  }

  lemma ProcessGrows(env: S.Env, w: S.World)
    ensures S.ProcessNext(env, w).w.meta.errors >= w.meta.errors
  {
    if w.pendingOrder != [] && w.pendingOrder[0] in w.pendingKind {
      var uid := w.pendingOrder[0];
      FetchGrows(env, S.Take(w), ExpectNotification(uid), NotificationAttributesRequest(uid));
      var r := S.AttributesReply(env, w);
      hide S.Fetch, S.AttributesReply;
      SettleGrows(env, uid, r);
      hide S.Settle;
    }
  }

  lemma SettleGrows(env: S.Env, uid: S.Uid, r: S.Reply)
    ensures S.Settle(env, uid, r).meta.errors >= r.w.meta.errors
  {
    hide S.Fetch, S.Deliver, S.EvictApps;
    if r.got.Some? && r.got.value.NotificationAttributes? {
      var app := r.got.value.appIdentifier;
      var w := r.w.(outstanding := None, canceled := r.w.canceled - {uid});
      if AppAttributesRequest(app).Ok? {
        FetchGrows(env, w, ExpectApp(app), AppAttributesRequest(app).value);
      }
      var n := S.AppName(env, w, app);
      DeliverGrows(env, n.w, uid, S.Payload(n.name, r.got.value.title, r.got.value.message));
    }
  }

  // ----- a dropped packet -----

  lemma {:induction false} WaitInterruptedGrows(env: S.Env, w: S.World, left: S.World)
    requires InWait(env, w, left)
    ensures left.meta.errors >= w.meta.errors
    decreases |w.inbox|
  {
    hide S.Ingest, ParseEvent, Decoder.Feed, S.Withdraw;
    if left != w {
      var w1 := w.(inbox := w.inbox[1..]);
      match w.inbox[0]
      case DataSource(fragment) =>
        WaitInterruptedGrows(env, w1.(decoder := Decoder.Feed(w1.decoder, fragment).after), left);
      case NotificationSource(packet) =>
        if InPacket(env, w1, packet, left) {
          WithdrawKeepsMeta(w1, ParseEvent(packet).value.uid);
        } else {
          if ParseEvent(packet).Ok? { IngestGrows(env, w1, ParseEvent(packet).value); }
          WaitInterruptedGrows(env, S.IngestPacket(env, w1, packet), left);
        }
    }
  }

  lemma WithdrawKeepsMeta(w: S.World, uid: S.Uid)
    ensures S.Withdraw(w, uid).meta == w.meta
  {
    hide Without, S.Mark;
  }

  lemma FetchInterruptedGrows(env: S.Env, w: S.World, expected: Expectation, request: seq<byte>, left: S.World)
    requires InFetch(env, w, expected, request, left)
    ensures left.meta.errors >= w.meta.errors
  {
    hide InWait;
    var sent := S.WriteControl(env, w.(decoder := Decoder.Expecting(w.decoder, expected)), request);
    if left != sent.w {
      WaitInterruptedGrows(env, sent.w, left);
    }
  }

  lemma {:induction false} EvictInterruptedGrows(env: S.Env, w: S.World, left: S.World)
    requires InEvict(env, w, left)
    ensures left.meta.errors >= w.meta.errors
    decreases |w.handleOrder|
  {
    var oldest := w.handleOrder[0];
    var w1 := w.(handleOrder := w.handleOrder[1..]);
    if oldest !in w.handles {
      EvictInterruptedGrows(env, w1, left);
    } else {
      var w2 := w1.(handles := w.handles - {oldest});
      if left != CloseSent(env, w2, w.handles[oldest]) {
        EvictInterruptedGrows(env, S.CloseHandle(env, w2, w.handles[oldest]), left);
      }
    }
  }

  lemma AppNameGrows(env: S.Env, w: S.World, app: seq<byte>)
    ensures S.AppName(env, w, app).w.meta.errors >= w.meta.errors
  {
    hide S.Fetch, S.EvictApps;
    if AppAttributesRequest(app).Ok? {
      FetchGrows(env, w, ExpectApp(app), AppAttributesRequest(app).value);
    }
  }

  lemma PresentInterruptedGrows(env: S.Env, w: S.World, uid: S.Uid, app: seq<byte>, title: seq<byte>, message: seq<byte>,
                                left: S.World)
    requires InPresent(env, w, uid, app, title, message, left)
    ensures left.meta.errors >= w.meta.errors
  {
    hide InFetch, InEvict, S.AppName;
    var n := S.AppName(env, w, app);
    var payload := S.Payload(n.name, title, message);
    AppNameGrows(env, w, app);
    if InAppName(env, w, app, left) {
      FetchInterruptedGrows(env, w, ExpectApp(app), AppAttributesRequest(app).value, left);
    } else if left != Called(env, n.w, uid, payload) {
      EvictInterruptedGrows(env, Mapped(env, n.w, uid, payload), left);
    }
  }

  lemma ProcessInterruptedGrows(env: S.Env, w: S.World, left: S.World)
    requires InProcess(env, w, left)
    ensures left.meta.errors >= w.meta.errors
  {
    hide InFetch, InPresent, S.Fetch, NotificationAttributesRequest, S.Mark;
    var uid, r := w.pendingOrder[0], S.AttributesReply(env, w);
    if InFetch(env, S.Take(w), ExpectNotification(uid), NotificationAttributesRequest(uid), left) {
      FetchInterruptedGrows(env, S.Take(w), ExpectNotification(uid), NotificationAttributesRequest(uid), left);
    } else {
      FetchGrows(env, S.Take(w), ExpectNotification(uid), NotificationAttributesRequest(uid));
      PresentInterruptedGrows(env, r.w.(outstanding := None, canceled := r.w.canceled - {uid}), uid,
                              r.got.value.appIdentifier, r.got.value.title, r.got.value.message, left);
    }
  }

  lemma HandlingGrows(env: S.Env, w: S.World, packet: seq<byte>, left: S.World)
    requires InHandling(env, w, packet, left)
    ensures left.meta.errors >= w.meta.errors
  {
    hide ParseEvent, S.Ingest, InProcess, S.Withdraw;
    var event := ParseEvent(packet).value;
    if InIngest(env, w, event, left) {
      WithdrawKeepsMeta(w, event.uid);
    } else {
      IngestGrows(env, w, event);
      ProcessInterruptedGrows(env, S.Ingest(env, w, event), left);
    }
  }

  // ----- building blocks -----

  lemma EndSessionEffect(env: S.Env, s: State)
    requires S.DrainsAll(env) && T.Consistent(s.held) && ErrorsAdd(s) && (!s.active ==> SessionRuns.Empty(s.world))
    ensures var e := EndSession(env, s);
            && !e.active && !e.held.subscriptions && T.Consistent(e.held) && SessionRuns.Empty(e.world)
            && ErrorsAdd(e) && Synced(e)
            && e.snapshot.state == s.snapshot.state && e.snapshot.reason == s.snapshot.reason
            && FlagsOf(e.snapshot) == Flags(s.snapshot.connected, s.snapshot.servicesResolved, false, false)
            && e.published == s.published
            && e.waiting == s.waiting && e.refreshIndex == s.refreshIndex && e.failures == s.failures
            && e.backoffIndex == s.backoffIndex && e.log == s.log
  {
    if s.active {
      CloseAllGrows(env, s.world.(handles := map[]), s.world.handles, env.drain(|s.world.calls|, s.world.handles.Keys));
    }
    hide S.CloseAll;
  }

  /**
   * From a state whose last publication is current, publishing keeps it so if an unchanged state has unchanged flags.
   */
  lemma PublishKeeps(before: State, s: State, state: RuntimeState, reason: Option<Reason>)
    requires LastPublished(before) && AllLayered(before.published) && s.published == before.published
    requires s.snapshot.state == before.snapshot.state && s.snapshot.reason == before.snapshot.reason
    requires before.snapshot.state == state ==> FlagsOf(s.snapshot) == FlagsOf(before.snapshot)
    requires FlagsOf(s.snapshot) == MeaningOf(state)
    ensures var p := Publish(s, state, reason);
            LastPublished(p) && AllLayered(p.published) && p.snapshot.state == state
              && FlagsOf(p.snapshot) == MeaningOf(state)
            && p == s.(snapshot := p.snapshot, published := p.published)
            && p.snapshot == s.snapshot.(state := state, reason := reason)
  {}

  lemma QuietEndKeeps(env: S.Env, s: State, connected: bool, servicesResolved: bool, state: RuntimeState,
                      reason: Option<Reason>)
    requires S.DrainsAll(env) && AtLoopHeadBut(s) && !(s.snapshot.state == state == Ready)
    requires MeaningOf(state) == Flags(connected, servicesResolved, false, false)
    ensures AtBoundary(EndAndPublish(env, s, connected, servicesResolved, state, reason))
    ensures Synced(EndAndPublish(env, s, connected, servicesResolved, state, reason))
  {
    hide SessionRuns.Empty, T.Consistent, EndSession, AllLayered, S.DrainsAll, LastPublished, Publish;
    EndSessionEffect(env, s);
    var e := EndSession(env, s);
    PublishKeeps(s, Connection(e.(waiting := 0), connected, servicesResolved), state, reason);
  }

  /** `AtLoopHead` after the transport has reconciled, when it may have let its subscriptions go. */
  predicate AtLoopHeadBut(s: State) {
    && T.Consistent(s.held)
    && (s.held.subscriptions ==> s.active)
    && (s.active <==> s.snapshot.subscribed)
    && (!s.active ==> SessionRuns.Empty(s.world))
    && s.snapshot.state != Subscribing
    && (s.snapshot.state == Ready ==>
          s.snapshot.connected && s.snapshot.servicesResolved && (s.snapshot.ancsAvailable <==> s.active))
    && (s.snapshot.state != Ready ==> !s.active && FlagsOf(s.snapshot) == MeaningOf(s.snapshot.state))
    && LastPublished(s) && AllLayered(s.published) && ErrorsAdd(s)
  }

  lemma FailedReconcileKeeps(env: S.Env, s: State)
    requires S.DrainsAll(env) && AtLoopHeadBut(s)
    ensures AtBoundary(ReconcileFailed(env, s)) && Synced(ReconcileFailed(env, s))
  {
    hide SessionRuns.Empty, EndSession, AllLayered, S.DrainsAll;
    EndSessionEffect(env, s);
    var e := EndSession(env, s);
    var s2 := ResetRecoveryTracking(e.(held := T.ResetBluezSession(e.held)));
    PublishKeeps(s, Connection(RecordError(s2, S.BluezUnavailable), false, false), Backoff, Some(BluezUnavailable));
  }

  lemma NotBondedKeeps(env: S.Env, s: State)
    requires S.DrainsAll(env) && AtLoopHeadBut(s)
    ensures AtBoundary(NotBonded(env, s)) && Synced(NotBonded(env, s))
  {
    hide SessionRuns.Empty, T.Consistent, EndSession, AllLayered, S.DrainsAll;
    EndSessionEffect(env, s);
    var s1 := RecordError(EndSession(env, s).(waiting := 0), S.ConfiguredDeviceNotBonded);
    PublishKeeps(s, Connection(s1, false, false), Error, Some(ConfiguredDeviceNotBonded));
  }

  lemma NoPhoneKeeps(env: S.Env, s: State)
    requires S.DrainsAll(env) && AtLoopHeadBut(s)
    ensures AtBoundary(NoPhone(env, s)) && Synced(NoPhone(env, s))
  {
    hide SessionRuns.Empty, EndSession, AllLayered, S.DrainsAll, NeedsRefresh, LastPublished, Publish;
    EndSessionEffect(env, s);
    var s3 := PhoneMissing(EndSession(env, s), s.active);
    PublishKeeps(s, Connection(s3, false, false), WaitingForPhone, None);
  }

  lemma ReadyKeeps(before: State, s: State)
    requires LastPublished(before) && AllLayered(before.published) && s.published == before.published
    requires s.snapshot.state == before.snapshot.state && s.snapshot.reason == before.snapshot.reason
    requires T.Consistent(s.held) && s.held.subscriptions && ErrorsAdd(s)
    requires s.snapshot.connected && s.snapshot.servicesResolved && s.snapshot.ancsAvailable
    requires before.snapshot.state == Ready ==> FlagsOf(before.snapshot) == MeaningOf(Ready)
    ensures AtBoundary(EnterReady(s)) && EnterReady(s).active
    ensures Synced(s) ==> Synced(EnterReady(s))
  {
    hide SessionRuns.Empty, T.Consistent, AllLayered;
    var s1 := s.(active := true, backoffIndex := 0, log := s.log.(backoffs := []));
    PublishKeeps(before, ResetRecoveryTracking(s1.(snapshot := s1.snapshot.(subscribed := true))), Ready, None);
  }

  lemma SubscribingIsPublished(s: State)
    requires AtLoopHeadBut(s) && !s.active
    ensures var s1 := Connection(s.(waiting := 0), true, true);
            var s2 := Publish(s1.(snapshot := s1.snapshot.(ancsAvailable := true)), Subscribing, None);
            && LastPublished(s2) && AllLayered(s2.published) && FlagsOf(s2.snapshot) == MeaningOf(Subscribing)
            && s2.snapshot.state == Subscribing
            && s2 == s1.(snapshot := s2.snapshot, published := s2.published)
            && s2.snapshot.errors == s.snapshot.errors && s2.snapshot.delivered == s.snapshot.delivered
  {
    hide SessionRuns.Empty, T.Consistent, AllLayered;
    var s1 := Connection(s.(waiting := 0), true, true);
    PublishKeeps(s, s1.(snapshot := s1.snapshot.(ancsAvailable := true)), Subscribing, None);
  }

  lemma FailedSubscriptionKeeps(env: S.Env, s: State)
    requires S.DrainsAll(env) && T.Consistent(s.held) && !s.held.subscriptions && !s.active && ErrorsAdd(s)
    requires SessionRuns.Empty(s.world) && s.snapshot.state == Subscribing && FlagsOf(s.snapshot) == MeaningOf(Subscribing)
    requires LastPublished(s) && AllLayered(s.published)
    ensures AtBoundary(SubscriptionFailed(env, s)) && Synced(SubscriptionFailed(env, s))
  {
    hide SessionRuns.Empty, EndSession, AllLayered, S.DrainsAll;
    EndSessionEffect(env, s);
    var s1 := RecordError(EndSession(env, s), S.SubscribeFailed);
    var s3 := CountFailure(s1);
    PublishKeeps(s, s3, WaitingForAuthorization, Some(SubscribeFailed));
  }

  lemma SubscribeKeeps(env: S.Env, s: State, a: T.SubscribeAnswers)
    requires S.DrainsAll(env) && AtLoopHeadBut(s) && !s.active && !s.held.subscriptions && s.held.characteristics
             && s.held.registrations
    ensures AtBoundary(TrySubscribe(env, s, a))
    ensures Synced(s) || !TrySubscribe(env, s, a).active ==> Synced(TrySubscribe(env, s, a))
  {
    hide SessionRuns.Empty, AllLayered, S.DrainsAll, EnterReady, SubscriptionFailed, Publish, LastPublished;
    SubscribingIsPublished(s);
    var s1 := Connection(s.(waiting := 0), true, true);
    var s2 := Publish(s1.(snapshot := s1.snapshot.(ancsAvailable := true)), Subscribing, None);
    var s3 := s2.(held := T.Subscribe(s2.held, a).held);
    SamePublication(s2, s3);
    if T.Subscribe(s2.held, a).answer.Gives? {
      ReadyKeeps(s2, s3);
    } else {
      FailedSubscriptionKeeps(env, s3);
    }
  }

  lemma SamePublication(s: State, t: State)
    requires s.published == t.published && s.snapshot == t.snapshot
    ensures LastPublished(s) <==> LastPublished(t)
  {}

  /** One reconciliation, whatever BlueZ answers, leads from the loop head to the boundary. */
  lemma ReconcileReachesBoundary(env: S.Env, s: State, b: T.Bus, a: T.SubscribeAnswers)
    requires S.DrainsAll(env) && AtLoopHead(s)
    ensures AtBoundary(ReconcileOnce(env, s, b, a))
    ensures Synced(s) || !ReconcileOnce(env, s, b, a).active ==> Synced(ReconcileOnce(env, s, b, a))
  {
    T.ReconcileKeepsResources(s.held, b);
    hide SessionRuns.Empty, T.Consistent, AllLayered, S.DrainsAll, EnterReady, T.Reconcile, EndAndPublish, NoPhone,
         TrySubscribe,
         ReconcileFailed, NotBonded, AtBoundary, LastPublished;
    var seen := T.Reconcile(s.held, b);
    var s1 := s.(held := seen.held);
    SamePublication(s, s1);
    assert AtLoopHeadBut(s1);
    if seen.answer.Fails? {
      FailedReconcileKeeps(env, s1);
    } else {
      match seen.answer.value
      case AdapterPoweredOff => QuietEndKeeps(env, s1, false, false, WaitingForAdapter, Some(AdapterPoweredOff));
      case Advertising => QuietEndKeeps(env, s1, false, false, Advertising, None);
      case DeviceNotBonded => NotBondedKeeps(env, s1);
      case WaitingForPhone => NoPhoneKeeps(env, s1);
      case WaitingForServices => QuietEndKeeps(env, s1, true, false, WaitingForServices, None);
      case WaitingForAuthorization => QuietEndKeeps(env, s1, true, true, WaitingForAuthorization, None);
      case Available => SubscribeKeeps(env, s1, a);
      case Ready =>
        var s2 := Connection(s1, true, true);
        ReadyKeeps(s, s2.(snapshot := s2.snapshot.(ancsAvailable := true)));
    }
  }
}
