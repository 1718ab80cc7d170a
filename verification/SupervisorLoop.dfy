/** The imperative supervisor of src/bluetooth/supervisor.rs, proved to implement the functions of module Supervisor. */
module SupervisorLoop {
  import opened Codec
  import opened Collections
  import opened Supervisor
  import opened SessionEngine
  import opened BluezTransport
  import opened Interruptions
  import S = Session
  import T = Transport

  /** A packet during whose handling the timer may fire is handled to the end, or dropped somewhere. */
  predicate HappensAs(await: Await, done: Await) {
    if await.TimerDuringPacket?
    then done == Arrives(NotificationSource(await.octets), await.later)
         || (done.TimerDuringPacket? && done.octets == await.octets && done.later == await.later)
    else done == await
  }

  predicate TurnHappensAs(t: Turn, done: Turn) {
    done == t || (done == t.(await := done.await) && HappensAs(t.await, done.await))
  }

  lemma {:induction false} RunTurnsOneMore(env: S.Env, s: State, turns: seq<Turn>, last: Turn)
    requires S.DrainsAll(env)
    ensures RunTurns(env, s, turns + [last]) == Supervisor.RunTurn(env, RunTurns(env, s, turns), last)
    decreases |turns|
  {
    hide Supervisor.RunTurn, S.DrainsAll;
    if turns == [] {
      assert ([] + [last])[1..] == [];
    } else {
      assert (turns + [last])[1..] == turns[1..] + [last];
      RunTurnsOneMore(env, Supervisor.RunTurn(env, s, turns[0]), turns[1..], last);
    }
  }

  class Supervision {
    const session: Engine
    const transport: BluerTransport
    var snapshot: Snapshot
    var observedErrors: nat
    var backoffIndex: nat
    var active: bool
    var waiting: nat
    var refreshIndex: nat
    var failures: nat
    /** What the status writer was given, oldest first. */
    var published: seq<Snapshot>
    ghost var log: Log

    ghost function View(): State
      reads this, session, session.sink, session.link, session.decoder, transport
    {
      State(session.State(), transport.State(), snapshot, observedErrors, backoffIndex, active,
                  waiting, refreshIndex, failures, published, log)
    }

    ghost predicate Valid()
      reads this, session
    {
      session.Valid() && S.DrainsAll(session.env)
    }

    constructor (session: Engine, transport: BluerTransport)
      requires session.Valid() && S.DrainsAll(session.env)
      requires session.State() == S.INITIAL && transport.State() == T.RELEASED
      ensures this.session == session && this.transport == transport
      ensures Valid() && View() == CREATED
    {
      this.session, this.transport := session, transport;
      snapshot := Snapshot(WaitingForBluez, None, None, false, false, false, false, 0, 0);
      observedErrors, backoffIndex, active, waiting, refreshIndex, failures := 0, 0, false, 0, 0, 0;
      published, log := [], Log(0, [], 0, 0, 0, 0, 0);
    }

    method RecordError(code: S.ErrorCode)
      modifies this`snapshot, this`log
      ensures View() == Supervisor.RecordError(old(View()), code)
    {
      snapshot := snapshot.(lastError := Some(code), errors := snapshot.errors + 1);
      log := log.(ownErrors := log.ownErrors + 1);
    }

    method PublishCurrent()
      modifies this`published
      ensures View() == Supervisor.PublishCurrent(old(View()))
    {
      published := published + [snapshot];
    }

    method Publish(state: RuntimeState, reason: Option<Reason>)
      modifies this`snapshot, this`published
      ensures View() == Supervisor.Publish(old(View()), state, reason)
    {
      var transition := snapshot.state != state || snapshot.reason != reason;
      snapshot := snapshot.(state := state, reason := reason);
      if transition {
        PublishCurrent();
      }
    }

    method SyncSessionMetadata() returns (changed: bool)
      modifies this`snapshot, this`observedErrors
      ensures View() == Supervisor.SyncSessionMetadata(old(View())) && changed == MetadataChanged(old(View()))
    {
      var m := session.meta;
      changed := snapshot.delivered != m.delivered || observedErrors != m.errors;
      if m.errors > observedErrors {
        snapshot := snapshot.(delivered := m.delivered, errors := snapshot.errors + (m.errors - observedErrors),
                              lastError := m.lastError);
      } else {
        snapshot := snapshot.(delivered := m.delivered);
      }
      observedErrors := m.errors;
    }

    method EndSession()
      requires Valid()
      modifies this`active, this`snapshot, this`observedErrors, session, session.sink, session.decoder, transport
      ensures Valid() && View() == Supervisor.EndSession(session.env, old(View()))
    {
      hide S.End, S.DrainsAll;
      if active {
        session.End();
        active := false;
      }
      transport.EndAncsSession();
      var _ := SyncSessionMetadata();
      snapshot := snapshot.(subscribed := false, ancsAvailable := false);
    }

    method ResetRecoveryTracking()
      modifies this`waiting, this`refreshIndex, this`failures
      ensures View() == Supervisor.ResetRecoveryTracking(old(View()))
    {
      waiting, refreshIndex, failures := 0, 0, 0;
    }

    method WaitingForPhoneNeedsRefresh() returns (stalled: bool)
      modifies this`waiting
      ensures View() == CountWait(old(View())) && stalled == NeedsRefresh(View())
    {
      waiting := Min(waiting + 1, 255);
      stalled := waiting >= PASSIVE_REFRESH_RECONCILES[Min(refreshIndex, 1)];
    }

    method RefreshBluezSession()
      modifies this`waiting, this`refreshIndex, this`failures, transport
      ensures View() == Supervisor.RefreshBluezSession(old(View()))
    {
      transport.ResetBluezSession();
      waiting, failures, refreshIndex := 0, 0, Min(refreshIndex + 1, 1);
    }

    method ShowConnection(connected: bool, servicesResolved: bool)
      modifies this`snapshot
      ensures View() == Connection(old(View()), connected, servicesResolved)
    {
      snapshot := snapshot.(connected := connected, servicesResolved := servicesResolved);
    }

    method ReconcileFailed()
      requires Valid()
      modifies this, session, session.sink, session.decoder, transport
      ensures Valid() && View() == Supervisor.ReconcileFailed(session.env, old(View()))
    {
      hide Supervisor.EndSession, Supervisor.Publish, S.DrainsAll;
      EndSession();
      transport.ResetBluezSession();
      ResetRecoveryTracking();
      RecordError(S.BluezUnavailable);
      ShowConnection(false, false);
      Publish(Backoff, Some(BluezUnavailable));
    }

    method EndAndPublish(connected: bool, servicesResolved: bool, state: RuntimeState, reason: Option<Reason>)
      requires Valid()
      modifies this, session, session.sink, session.decoder, transport
      ensures Valid()
      ensures View() == Supervisor.EndAndPublish(session.env, old(View()), connected, servicesResolved, state, reason)
    {
      hide Supervisor.EndSession, Supervisor.Publish, S.DrainsAll;
      EndSession();
      waiting := 0;
      ShowConnection(connected, servicesResolved);
      Publish(state, reason);
    }

    method NotBonded()
      requires Valid()
      modifies this, session, session.sink, session.decoder, transport
      ensures Valid() && View() == Supervisor.NotBonded(session.env, old(View()))
    {
      hide Supervisor.EndSession, Supervisor.Publish, S.DrainsAll;
      EndSession();
      waiting := 0;
      RecordError(S.ConfiguredDeviceNotBonded);
      ShowConnection(false, false);
      Publish(Error, Some(ConfiguredDeviceNotBonded));
    }

    method PhoneMissing(hadActiveSession: bool)
      modifies this`waiting, this`refreshIndex, this`failures, this`log, transport
      ensures View() == Supervisor.PhoneMissing(old(View()), hadActiveSession)
    {
      hide Supervisor.RefreshBluezSession;
      log := log.(waits := log.waits + 1);
      if hadActiveSession {
        log := log.(disconnectRefreshes := log.disconnectRefreshes + 1);
        RefreshBluezSession();
      } else {
        var stalled := WaitingForPhoneNeedsRefresh();
        if stalled {
          log := log.(stallRefreshes := log.stallRefreshes + 1);
          RefreshBluezSession();
        }
      }
    }

    method NoPhone()
      requires Valid()
      modifies this, session, session.sink, session.decoder, transport
      ensures Valid() && View() == Supervisor.NoPhone(session.env, old(View()))
    {
      hide Supervisor.EndSession, Supervisor.Publish, Supervisor.PhoneMissing, S.DrainsAll;
      var hadActiveSession := active;
      EndSession();
      PhoneMissing(hadActiveSession);
      ShowConnection(false, false);
      Publish(WaitingForPhone, None);
    }

    method EnterReady()
      modifies this
      ensures View() == Supervisor.EnterReady(old(View()))
    {
      hide Supervisor.Publish;
      active := true;
      snapshot := snapshot.(subscribed := true);
      backoffIndex, log := 0, log.(backoffs := []);
      ResetRecoveryTracking();
      Publish(Ready, None);
    }

    method CountFailure()
      modifies this`waiting, this`refreshIndex, this`failures, this`log, transport
      ensures View() == Supervisor.CountFailure(old(View()))
    {
      hide Supervisor.RefreshBluezSession;
      failures, log := Min(failures + 1, 255), log.(failedSubscriptions := log.failedSubscriptions + 1);
      if failures >= SUBSCRIPTION_FAILURES_BEFORE_REFRESH {
        log := log.(failureRefreshes := log.failureRefreshes + 1);
        RefreshBluezSession();
      }
    }

    method SubscriptionFailed()
      requires Valid()
      modifies this, session, session.sink, session.decoder, transport
      ensures Valid() && View() == Supervisor.SubscriptionFailed(session.env, old(View()))
    {
      hide Supervisor.EndSession, Supervisor.Publish, Supervisor.CountFailure, S.DrainsAll;
      EndSession();
      RecordError(S.SubscribeFailed);
      CountFailure();
      Publish(WaitingForAuthorization, Some(SubscribeFailed));
    }

    method TrySubscribe(a: T.SubscribeAnswers)
      requires Valid()
      modifies this, session, session.sink, session.decoder, transport
      ensures Valid() && View() == Supervisor.TrySubscribe(session.env, old(View()), a)
    {
      hide Supervisor.EnterReady, Supervisor.SubscriptionFailed, Supervisor.Publish, S.DrainsAll, T.Subscribe;
      waiting := 0;
      ShowConnection(true, true);
      snapshot := snapshot.(ancsAvailable := true);
      Publish(Subscribing, None);
      var ok := transport.Subscribe(a);
      if ok {
        EnterReady();
      } else {
        SubscriptionFailed();
      }
    }

    /** One layer of BlueZ state. */
    method ReconcileOnce(b: T.Bus, a: T.SubscribeAnswers)
      requires Valid()
      modifies this, session, session.sink, session.decoder, transport
      ensures Valid() && View() == Supervisor.ReconcileOnce(session.env, old(View()), b, a)
    {
      hide T.Reconcile, S.DrainsAll, Supervisor.ReconcileFailed, Supervisor.EndAndPublish, Supervisor.NotBonded,
           Supervisor.NoPhone, Supervisor.TrySubscribe, Supervisor.EnterReady;
      var seen := transport.Reconcile(b);
      if seen.Fails? {
        ReconcileFailed();
        return;
      }
      match seen.value {
        case AdapterPoweredOff => EndAndPublish(false, false, WaitingForAdapter, Some(AdapterPoweredOff));
        case Advertising => EndAndPublish(false, false, Advertising, None);
        case DeviceNotBonded => NotBonded();
        case WaitingForPhone => NoPhone();
        case WaitingForServices => EndAndPublish(true, false, WaitingForServices, None);
        case WaitingForAuthorization => EndAndPublish(true, true, WaitingForAuthorization, None);
        case Available => TrySubscribe(a);
        case Ready =>
          ShowConnection(true, true);
          snapshot := snapshot.(ancsAvailable := true);
          EnterReady();
      }
    }

    method ProcessOnePending(mayDrop: bool) returns (dropped: bool)
      requires Valid()
      modifies this`snapshot, this`observedErrors, this`published, session, session.sink, session.link, session.decoder
      ensures Valid() && (!dropped ==> View() == Supervisor.ProcessOnePending(session.env, old(View())))
      ensures dropped ==> mayDrop && InProcess(session.env, old(session.State()), session.State())
                          && View() == old(View()).(world := session.State())
    {
      hide S.ProcessNext, S.DrainsAll, InProcess;
      var worked;
      worked, dropped := session.ProcessNext(mayDrop);
      if dropped {
        return;
      }
      var changed := SyncSessionMetadata();
      if changed {
        PublishCurrent();
      }
    }

    /** Only packets of the Notification Source are awaited for: the status writer never suspends. */
    method HandleOnePacket(packet: Packet, mayDrop: bool) returns (dropped: bool)
      requires Valid()
      modifies this, session, session.sink, session.link, session.decoder
      ensures Valid() && (!dropped ==> View() == Supervisor.HandleOnePacket(session.env, old(View()), packet))
      ensures dropped ==> mayDrop && packet.NotificationSource?
                          && InHandling(session.env, old(session.State()), packet.octets, session.State())
                          && View() == old(View()).(world := session.State())
    {
      hide Supervisor.ProcessOnePending, S.Ingest, ParseEvent, S.DrainsAll, InIngest, InProcess;
      dropped := false;
      match packet {
        case DataSource(_) =>
          RecordError(S.UnsolicitedDataSource);
          PublishCurrent();
        case NotificationSource(octets) =>
          match ParseEvent(octets) {
            case Ok(event) =>
              dropped := session.Ingest(event, mayDrop);
              if !dropped {
                dropped := ProcessOnePending(mayDrop);
              }
            case Err(_) =>
              RecordError(S.MalformedNotificationSource);
              PublishCurrent();
          }
      }
    }

    method StreamFailed()
      requires Valid()
      modifies this, session, session.sink, session.decoder, transport
      ensures Valid() && View() == Supervisor.StreamFailed(session.env, old(View()))
    {
      hide Supervisor.EndSession, S.DrainsAll;
      RecordError(S.AncsStreamFailed);
      EndSession();
      PublishCurrent();
    }

    /** Which of the two it was, if the timer may fire while a packet is being handled. */
    method AwaitPacket(await: Await) returns (ghost done: Await)
      requires Valid()
      modifies this, session, session.sink, session.link, session.decoder, transport
      ensures Valid() && HappensAs(await, done)
      ensures View() == Supervisor.AwaitPacket(session.env, old(View()), done)
    {
      hide Supervisor.HandleOnePacket, Supervisor.StreamFailed, S.DrainsAll, InHandling;
      done := await;
      match await {
        case TimerFirst =>
        case StreamFails =>
          StreamFailed();
        case Arrives(packet, later) =>
          session.link.inbox := later;
          var _ := HandleOnePacket(packet, false);
        case TimerDuringPacket(octets, later, _) =>
          session.link.inbox := later;
          var dropped := HandleOnePacket(NotificationSource(octets), true);
          done := if dropped then TimerDuringPacket(octets, later, session.State())
                  else Arrives(NotificationSource(octets), later);
      }
    }

    /** One iteration of the endless loop of `run`. */
    method RunTurn(t: Turn) returns (ghost done: Turn)
      requires Valid()
      modifies this, session, session.sink, session.link, session.decoder, transport
      ensures Valid() && TurnHappensAs(t, done)
      ensures View() == Supervisor.RunTurn(session.env, old(View()), done)
    {
      hide Supervisor.ReconcileOnce, Supervisor.AwaitPacket, Supervisor.ProcessOnePending, S.DrainsAll, S.WaitingLen;
      done := t;
      ReconcileOnce(t.bus, t.subscribe);
      match snapshot.state {
        case Backoff =>
          log := log.(backoffs := log.backoffs + [BACKOFF[Min(backoffIndex, 4)]]);
          backoffIndex := Min(backoffIndex + 1, 4);
        case Ready =>
          var waiting := session.PendingLen();
          if waiting > 0 {
            session.link.inbox := t.later;
            var _ := ProcessOnePending(false);
          } else {
            ghost var happened := AwaitPacket(t.await);
            done := t.(await := happened);
          }
        case _ =>
      }
    }

    /** `run` for as many iterations as the environment scripts. */
    method Run(turns: seq<Turn>) returns (ghost done: seq<Turn>)
      requires Valid()
      modifies this, session, session.sink, session.link, session.decoder, transport
      ensures Valid() && |done| == |turns| && forall i :: 0 <= i < |turns| ==> TurnHappensAs(turns[i], done[i])
      ensures View() == RunTurns(session.env, Supervisor.PublishCurrent(old(View())), done)
    {
      hide Supervisor.RunTurn, S.DrainsAll;
      PublishCurrent();
      ghost var start := View();
      done := [];
      var i := 0;
      while i < |turns|
        invariant Valid() && 0 <= i <= |turns| && |done| == i
        invariant forall j :: 0 <= j < i ==> TurnHappensAs(turns[j], done[j])
        invariant View() == RunTurns(session.env, start, done)
      {
        ghost var happened := RunTurn(turns[i]);
        RunTurnsOneMore(session.env, start, done, happened);
        done := done + [happened];
        i := i + 1;
      }
    }

    method Shutdown()
      requires Valid()
      modifies this, session, session.sink, session.decoder, transport
      ensures Valid() && View() == Supervisor.Shutdown(session.env, old(View()))
    {
      hide S.End, S.DrainsAll;
      if active {
        session.End();
        active := false;
      }
      var _ := SyncSessionMetadata();
      snapshot := snapshot.(subscribed := false, ancsAvailable := false);
      transport.Shutdown();
    }
  }
}
