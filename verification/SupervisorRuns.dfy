/** The supervisor over whole runs of its loop, for every behaviour of BlueZ, phone, desktop and timers. */
module SupervisorRuns {
  import opened Codec
  import opened Supervisor
  import opened SupervisorInvariants
  import opened SupervisorRecovery
  import S = Session
  import T = Transport
  import SessionRuns
  import opened Interruptions

  // ----- one turn -----

  lemma ReadyPublication(s: State)
    requires AllLayered(s.published) && Layered(s.snapshot)
    ensures LastPublished(PublishCurrent(s)) && AllLayered(PublishCurrent(s).published)
  {}

  lemma ProcessPendingKeeps(env: S.Env, s: State)
    requires AtLoopHead(s) && s.active
    ensures AtLoopHead(ProcessOnePending(env, s)) && ProcessOnePending(env, s).active && Synced(ProcessOnePending(env, s))
  {
    ProcessGrows(env, s.world);
    hide S.ProcessNext, T.Consistent, SessionRuns.Empty, AllLayered, LastPublished;
    var s1 := s.(world := S.ProcessNext(env, s.world).w);
    SamePublication(s, s1);
    if MetadataChanged(s1) {
      ReadyPublication(SyncSessionMetadata(s1));
    }
  }

  lemma PacketKeeps(env: S.Env, s: State, packet: Packet)
    requires AtLoopHead(s) && s.active
    ensures AtLoopHead(HandleOnePacket(env, s, packet)) && HandleOnePacket(env, s, packet).active
    ensures Synced(s) ==> Synced(HandleOnePacket(env, s, packet))
  {
    hide ParseEvent, ProcessOnePending, S.Ingest, T.Consistent, SessionRuns.Empty, AllLayered, LastPublished;
    if packet.DataSource? || ParseEvent(packet.octets).Err? {
      var code := if packet.DataSource? then S.UnsolicitedDataSource else S.MalformedNotificationSource;
      ReadyPublication(RecordError(s, code));
    } else {
      var event := ParseEvent(packet.octets).value;
      IngestGrows(env, s.world, event);
      var s1 := s.(world := S.Ingest(env, s.world, event));
      SamePublication(s, s1);
      ProcessPendingKeeps(env, s1);
    }
  }

  lemma StreamFailureKeeps(env: S.Env, s: State)
    requires S.DrainsAll(env) && AtLoopHead(s) && s.active
    ensures AtLoopHead(StreamFailed(env, s)) && Synced(StreamFailed(env, s))
  {
    hide SessionRuns.Empty, T.Consistent, EndSession, AllLayered, LastPublished, S.DrainsAll;
    var s1 := RecordError(s, S.AncsStreamFailed);
    EndSessionEffect(env, s1);
    ReadyPublication(EndSession(env, s1));
  }

  lemma AwaitKeeps(env: S.Env, s: State, await: Await)
    requires S.DrainsAll(env) && AtLoopHead(s) && s.active
    ensures AtLoopHead(AwaitPacket(env, s, await))
    ensures (Synced(s) && !await.TimerDuringPacket?) || !AwaitPacket(env, s, await).active
            ==> Synced(AwaitPacket(env, s, await))
  {
    hide SessionRuns.Empty, T.Consistent, AllLayered, LastPublished, S.DrainsAll, ParseEvent, S.Ingest,
         HandleOnePacket, StreamFailed, InHandling;
    match await
    case TimerFirst =>
    case StreamFails => StreamFailureKeeps(env, s);
    case Arrives(packet, later) =>
      SamePublication(s, Upcoming(s, later));
      PacketKeeps(env, Upcoming(s, later), packet);
    case TimerDuringPacket(octets, later, left) =>
      var s1 := Upcoming(s, later);
      SamePublication(s, s1);
      PacketKeeps(env, s1, NotificationSource(octets));
      if InHandling(env, s1.world, octets, left) {
        HandlingGrows(env, s1.world, octets, left);
        SamePublication(s, s1.(world := left));
      }
  }

  /** Every turn of the loop leads from the loop head back to the loop head. */
  lemma TurnKeeps(env: S.Env, s: State, t: Turn)
    requires S.DrainsAll(env) && AtLoopHead(s)
    ensures AtLoopHead(RunTurn(env, s, t))
    ensures (Synced(s) && !t.await.TimerDuringPacket?) || !RunTurn(env, s, t).active ==> Synced(RunTurn(env, s, t))
  {
    ReconcileReachesBoundary(env, s, t.bus, t.subscribe);
    var r := ReconcileOnce(env, s, t.bus, t.subscribe);
    BoundaryIsLoopHead(r);
    hide SessionRuns.Empty, T.Consistent, AllLayered, LastPublished, S.DrainsAll, ReconcileOnce, ProcessOnePending,
         AwaitPacket, S.PendingLen;
    SamePublication(r, Upcoming(r, t.later));
    SamePublication(r, SleepBackoff(r));
    if r.active {
      ProcessPendingKeeps(env, Upcoming(r, t.later));
      AwaitKeeps(env, r, t.await);
    }
  }

  /** Turns in which a packet may be dropped. */
  function DropsIn(turns: seq<Turn>): nat {
    if turns == [] then 0 else (if turns[0].await.TimerDuringPacket? then 1 else 0) + DropsIn(turns[1..])
  }

  lemma {:induction false} TurnsKeep(env: S.Env, s: State, turns: seq<Turn>)
    requires S.DrainsAll(env) && AtLoopHead(s) && (!s.active ==> Synced(s))
    ensures var r := RunTurns(env, s, turns);
            AtLoopHead(r) && ((Synced(s) && DropsIn(turns) == 0) || !r.active ==> Synced(r))
    decreases |turns|
  {
    hide AtLoopHead, Synced, RunTurn, S.DrainsAll;
    if turns != [] {
      TurnKeeps(env, s, turns[0]);
      TurnsKeep(env, RunTurn(env, s, turns[0]), turns[1..]);
    }
  }

  /** Loop heads the daemon can reach. */
  ghost predicate Reachable(env: S.Env, s: State)
    requires S.DrainsAll(env)
  {
    exists turns :: s == RunTurns(env, PublishCurrent(CREATED), turns)
  }

  lemma ReachableIsAtLoopHead(env: S.Env, s: State)
    requires S.DrainsAll(env) && Reachable(env, s)
    ensures AtLoopHead(s)
  {
    hide AtLoopHead, Synced, RunTurns, S.DrainsAll;
    var turns :| s == RunTurns(env, PublishCurrent(CREATED), turns);
    StartIsAtLoopHead();
    TurnsKeep(env, PublishCurrent(CREATED), turns);
  }

  // ----- what holds after every reconciliation of every run -----

  /**
   * State Ready, an active session, the subscribed flag and held subscriptions are one and the same thing; without them
   * the engine is completely empty, so a session always starts with no stale UID, handle, cached app or decoder octet.
   */
  lemma SessionMatchesTransport(env: S.Env, s: State, b: T.Bus, a: T.SubscribeAnswers)
    requires S.DrainsAll(env) && Reachable(env, s)
    ensures var r := ReconcileOnce(env, s, b, a);
            && (r.snapshot.state == Ready <==> r.active)
            && (r.active <==> r.snapshot.subscribed)
            && (r.active <==> r.held.subscriptions)
            && (!r.active ==> SessionRuns.Empty(r.world))
            && (r.active && !s.active ==> SessionRuns.Empty(s.world) && r.world == s.world)
  {
    ReachableIsAtLoopHead(env, s);
    ReconcileReachesBoundary(env, s, b, a);
    ReconcileCounters(env, s, b, a);
    hide ReconcileOnce, Reachable, SessionRuns.Empty, AllLayered, LastPublished, ErrorsAdd, T.Reconcile, T.Subscribe,
         NextCounters, NextRuntimeState;
  }

  /** The last publication always shows the current state, reason and flags, and no publication skips a layer. */
  lemma PublicationIsCurrent(env: S.Env, s: State, b: T.Bus, a: T.SubscribeAnswers)
    requires S.DrainsAll(env) && Reachable(env, s)
    ensures LastPublished(ReconcileOnce(env, s, b, a)) && AllLayered(ReconcileOnce(env, s, b, a).published)
    ensures LastPublished(s) && AllLayered(s.published)
  {
    ReachableIsAtLoopHead(env, s);
    ReconcileReachesBoundary(env, s, b, a);
    hide ReconcileOnce, Reachable, SessionRuns.Empty, AllLayered, LastPublished, ErrorsAdd;
  }

  /**
   * The errors shown are the supervisor's own plus those of the session that it has seen, never more than there are.
   * It has seen all of them, and every delivery, whenever no session is active or no packet has been dropped.
   */
  lemma ErrorsAreConserved(env: S.Env, turns: seq<Turn>)
    requires S.DrainsAll(env)
    ensures var s := RunTurns(env, PublishCurrent(CREATED), turns);
            && s.snapshot.errors == s.log.ownErrors + s.observedErrors && s.observedErrors <= s.world.meta.errors
            && (!s.active || DropsIn(turns) == 0 ==>
                  s.observedErrors == s.world.meta.errors && s.snapshot.delivered == s.world.meta.delivered)
  {
    StartIsAtLoopHead();
    hide RunTurns, S.DrainsAll, SessionRuns.Empty, AllLayered, LastPublished, OneSession;
    TurnsKeep(env, PublishCurrent(CREATED), turns);
  }

  /** A shutdown ends the session, empties the engine and releases every resource. */
  lemma ShutdownReleasesEverything(env: S.Env, s: State)
    requires S.DrainsAll(env) && Reachable(env, s)
    ensures var d := Shutdown(env, s);
            d.held == T.RELEASED && !d.active && !d.snapshot.subscribed && SessionRuns.Empty(d.world)
  {
    ReachableIsAtLoopHead(env, s);
    EndSessionEffect(env, s);
    hide Reachable, AllLayered, LastPublished, S.CloseAll;
    if s.active {
      CloseAllGrows(env, s.world.(handles := map[]), s.world.handles, env.drain(|s.world.calls|, s.world.handles.Keys));
    }
  }
}
