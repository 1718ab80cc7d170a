/** The engine under the supervisor: what its own theorems say about every run of the daemon, up to the shutdown. */
module SupervisedEngine {
  import opened Bytes
  import opened Codec
  import opened Collections
  import opened Supervisor
  import opened SupervisorInvariants
  import opened SupervisorRuns
  import opened SupervisorEffects
  import opened Interruptions
  import opened SessionInvariants
  import opened Survival
  import opened SessionDrops
  import opened QueueOrder
  import S = Session
  import T = Transport
  import SessionRuns
  import Theorems = SessionTheorems

  /** The same engine, whatever the phone will send next. */
  predicate Alike(v: S.World, w: S.World) {
    v == w.(inbox := v.inbox)
  }

  /** A run of engine operations with at most so many dropped packets leads to `w`. */
  ghost predicate Driven(env: S.Env, w: S.World, drops: nat)
    requires S.DrainsAll(env)
  {
    exists steps :: Drops(steps) <= drops && Alike(RunWithDrops(env, S.INITIAL, steps), w)
  }

  lemma {:induction false} RunOneMore(env: S.Env, w: S.World, steps: seq<DropStep>, last: DropStep)
    requires S.DrainsAll(env)
    ensures RunWithDrops(env, w, steps + [last]) == DoOrDrop(env, RunWithDrops(env, w, steps), last)
    ensures Drops(steps + [last]) == Drops(steps) + if last.Dropped? then 1 else 0
    decreases |steps|
  {
    hide DoOrDrop, S.DrainsAll;
    if steps == [] {
      RunOne(env, w, last);
      assert [] + [last] == [last];
    } else {
      assert (steps + [last])[1..] == steps[1..] + [last];
      RunOneMore(env, DoOrDrop(env, w, steps[0]), steps[1..], last);
    }
  }

  lemma DrivenOneMore(env: S.Env, steps: seq<DropStep>, last: DropStep, w: S.World, drops: nat)
    requires S.DrainsAll(env) && Drops(steps) + (if last.Dropped? then 1 else 0) <= drops
    requires Alike(DoOrDrop(env, RunWithDrops(env, S.INITIAL, steps), last), w)
    ensures Driven(env, w, drops)
  {
    hide DoOrDrop, S.DrainsAll, RunWithDrops, Alike;
    RunOneMore(env, S.INITIAL, steps, last);
  }

  lemma InitialIsDriven(env: S.Env)
    requires S.DrainsAll(env)
    ensures Driven(env, S.INITIAL, 0)
  {
    hide S.DrainsAll;
    assert Alike(RunWithDrops(env, S.INITIAL, []), S.INITIAL);
  }

  lemma DrivenInbox(env: S.Env, w: S.World, inbox: seq<S.Input>, drops: nat, more: nat)
    requires S.DrainsAll(env) && Driven(env, w, drops) && drops <= more
    ensures Driven(env, w.(inbox := inbox), more)
  {
    hide S.DrainsAll, RunWithDrops;
    var steps :| Drops(steps) <= drops && Alike(RunWithDrops(env, S.INITIAL, steps), w);
    assert Alike(RunWithDrops(env, S.INITIAL, steps), w.(inbox := inbox));
  }

  // ----- operations -----

  lemma AlikeAgrees(v: S.World, w: S.World)
    requires Alike(v, w)
    ensures v.pendingKind == w.pendingKind && v.outstanding == w.outstanding && v.handles == w.handles
    ensures S.PendingLen(v) == S.PendingLen(w)
  {}

  lemma WithdrawIgnoresInbox(v: S.World, w: S.World, uid: S.Uid)
    requires Alike(v, w)
    ensures Alike(S.Withdraw(v, uid), S.Withdraw(w, uid))
  {
    hide Without, S.Mark;
  }

  lemma CloseIgnoresInbox(env: S.Env, v: S.World, w: S.World, uid: S.Uid, h: S.Handle)
    requires Alike(v, w)
    ensures Alike(S.CloseHandle(env, S.ForgetHandle(v, uid), h), S.CloseHandle(env, S.ForgetHandle(w, uid), h))
  {
    hide Without;
  }

  lemma EnqueueIgnoresInbox(v: S.World, w: S.World, uid: S.Uid, kind: EventKind)
    requires Alike(v, w)
    ensures Alike(S.Enqueue(v, uid, kind), S.Enqueue(w, uid, kind))
    ensures Alike(v.(pendingKind := v.pendingKind[uid := kind]), w.(pendingKind := w.pendingKind[uid := kind]))
    ensures Alike(S.CountDropped(v), S.CountDropped(w))
  {}

  lemma RemoveIgnoresInbox(env: S.Env, v: S.World, w: S.World, uid: S.Uid)
    requires Alike(v, w)
    ensures Alike(S.Remove(env, v, uid), S.Remove(env, w, uid))
  {
    WithdrawIgnoresInbox(v, w, uid);
    var v1, w1 := S.Withdraw(v, uid), S.Withdraw(w, uid);
    AlikeAgrees(v1, w1);
    if uid in w1.handles {
      CloseIgnoresInbox(env, v1, w1, uid, w1.handles[uid]);
    }
    hide Alike, S.Withdraw, S.CloseHandle, S.ForgetHandle;
  }

  lemma IngestIgnoresInbox(env: S.Env, v: S.World, w: S.World, event: NotificationEvent)
    requires Alike(v, w)
    ensures Alike(S.Ingest(env, v, event), S.Ingest(env, w, event))
  {
    AlikeAgrees(v, w);
    RemoveIgnoresInbox(env, v, w, event.uid);
    EnqueueIgnoresInbox(v, w, event.uid, Modified);
    EnqueueIgnoresInbox(v, w, event.uid, event.kind);
    hide Alike, S.Remove, S.Enqueue, S.CountDropped, S.PendingLen;
  }

  lemma {:induction false} CloseAllIgnoresInbox(env: S.Env, v: S.World, w: S.World, handles: map<S.Uid, S.Handle>,
                                                order: seq<S.Uid>)
    requires Alike(v, w) && forall uid :: uid in order ==> uid in handles
    ensures Alike(S.CloseAll(env, v, handles, order), S.CloseAll(env, w, handles, order))
    decreases |order|
  {
    if order != [] {
      CloseAllIgnoresInbox(env, S.CloseHandle(env, v, handles[order[0]]), S.CloseHandle(env, w, handles[order[0]]),
                           handles, order[1..]);
    }
  }

  lemma EndIgnoresInbox(env: S.Env, v: S.World, w: S.World)
    requires S.DrainsAll(env) && Alike(v, w)
    ensures Alike(S.End(env, v), S.End(env, w))
  {
    CloseAllIgnoresInbox(env, v.(handles := map[]), w.(handles := map[]), w.handles,
                         env.drain(|w.calls|, w.handles.Keys));
    hide S.CloseAll, S.DiscardAll;
  }

  lemma DrivenIngest(env: S.Env, w: S.World, event: NotificationEvent, drops: nat)
    requires S.DrainsAll(env) && Driven(env, w, drops)
    ensures Driven(env, S.Ingest(env, w, event), drops)
  {
    hide S.DrainsAll, S.Ingest, RunWithDrops, Alike;
    var steps :| Drops(steps) <= drops && Alike(RunWithDrops(env, S.INITIAL, steps), w);
    var v := RunWithDrops(env, S.INITIAL, steps);
    IngestIgnoresInbox(env, v, w, event);
    DrivenOneMore(env, steps, Whole(S.IngestStep(event)), S.Ingest(env, w, event), drops);
  }

  lemma DrivenEnd(env: S.Env, w: S.World, drops: nat)
    requires S.DrainsAll(env) && Driven(env, w, drops)
    ensures Driven(env, S.End(env, w), drops)
  {
    hide S.DrainsAll, S.End, RunWithDrops, Alike;
    var steps :| Drops(steps) <= drops && Alike(RunWithDrops(env, S.INITIAL, steps), w);
    var v := RunWithDrops(env, S.INITIAL, steps);
    EndIgnoresInbox(env, v, w);
    DrivenOneMore(env, steps, Whole(S.EndStep), S.End(env, w), drops);
  }

  lemma DrivenProcess(env: S.Env, w: S.World, drops: nat)
    requires S.DrainsAll(env) && Driven(env, w, drops)
    ensures Driven(env, S.ProcessNext(env, w).w, drops)
  {
    hide S.DrainsAll, S.ProcessNext, RunWithDrops;
    var steps :| Drops(steps) <= drops && Alike(RunWithDrops(env, S.INITIAL, steps), w);
    var v := RunWithDrops(env, S.INITIAL, steps);
    assert v.(inbox := w.inbox) == w;
    DrivenOneMore(env, steps, Whole(S.ProcessStep(w.inbox)), S.ProcessNext(env, w).w, drops);
  }

  lemma DrivenDrop(env: S.Env, w: S.World, packet: seq<byte>, left: S.World, drops: nat)
    requires S.DrainsAll(env) && Driven(env, w, drops) && InHandling(env, w, packet, left)
    ensures Driven(env, left, drops + 1)
  {
    hide S.DrainsAll, InHandling, RunWithDrops;
    var steps :| Drops(steps) <= drops && Alike(RunWithDrops(env, S.INITIAL, steps), w);
    var v := RunWithDrops(env, S.INITIAL, steps);
    assert v.(inbox := w.inbox) == w;
    DrivenOneMore(env, steps, Dropped(packet, w.inbox, left), left, drops + 1);
  }

  // ----- turns -----

  lemma DrivenReconcile(env: S.Env, s: State, b: T.Bus, a: T.SubscribeAnswers, drops: nat)
    requires S.DrainsAll(env) && Driven(env, s.world, drops)
    ensures Driven(env, ReconcileOnce(env, s, b, a).world, drops)
  {
    hide S.DrainsAll, S.End, ReconcileOnce, Driven, T.Reconcile, T.Subscribe;
    ReconcileEffects(env, s, b, a);
    DrivenEnd(env, s.world, drops);
  }

  lemma DrivenPending(env: S.Env, s: State, drops: nat)
    requires S.DrainsAll(env) && Driven(env, s.world, drops)
    ensures Driven(env, ProcessOnePending(env, s).world, drops)
  {
    hide S.DrainsAll, S.ProcessNext, Driven;
    DrivenProcess(env, s.world, drops);
  }

  lemma DrivenPacket(env: S.Env, s: State, packet: Packet, drops: nat)
    requires S.DrainsAll(env) && Driven(env, s.world, drops)
    ensures Driven(env, HandleOnePacket(env, s, packet).world, drops)
  {
    hide S.DrainsAll, S.Ingest, Driven, ProcessOnePending, ParseEvent;
    if packet.NotificationSource? && ParseEvent(packet.octets).Ok? {
      var event := ParseEvent(packet.octets).value;
      DrivenIngest(env, s.world, event, drops);
      DrivenPending(env, s.(world := S.Ingest(env, s.world, event)), drops);
    }
  }

  lemma DrivenAwait(env: S.Env, s: State, await: Await, drops: nat)
    requires S.DrainsAll(env) && Driven(env, s.world, drops)
    ensures Driven(env, AwaitPacket(env, s, await).world, drops + if await.TimerDuringPacket? then 1 else 0)
  {
    hide S.DrainsAll, S.End, Driven, HandleOnePacket, InHandling;
    match await
    case TimerFirst =>
    case StreamFails => DrivenEnd(env, s.world, drops);
    case Arrives(packet, later) =>
      DrivenInbox(env, s.world, later, drops, drops);
      DrivenPacket(env, Upcoming(s, later), packet, drops);
    case TimerDuringPacket(octets, later, left) =>
      var s1 := Upcoming(s, later);
      DrivenInbox(env, s.world, later, drops, drops);
      DrivenInbox(env, s.world, later, drops, drops + 1);
      DrivenPacket(env, s1, NotificationSource(octets), drops + 1);
      if InHandling(env, s1.world, octets, left) {
        DrivenDrop(env, s1.world, octets, left, drops);
      }
  }

  lemma DrivenTurn(env: S.Env, s: State, t: Turn, drops: nat)
    requires S.DrainsAll(env) && Driven(env, s.world, drops)
    ensures Driven(env, RunTurn(env, s, t).world, drops + if t.await.TimerDuringPacket? then 1 else 0)
  {
    hide S.DrainsAll, Driven, ReconcileOnce, AwaitPacket, ProcessOnePending, S.PendingLen;
    var r := ReconcileOnce(env, s, t.bus, t.subscribe);
    var more := drops + if t.await.TimerDuringPacket? then 1 else 0;
    DrivenReconcile(env, s, t.bus, t.subscribe, drops);
    DrivenInbox(env, r.world, r.world.inbox, drops, more);
    assert r.world.(inbox := r.world.inbox) == r.world;
    DrivenInbox(env, r.world, t.later, drops, more);
    DrivenPending(env, Upcoming(r, t.later), more);
    DrivenAwait(env, r, t.await, drops);
  }

  lemma {:induction false} DrivenTurns(env: S.Env, s: State, turns: seq<Turn>, drops: nat)
    requires S.DrainsAll(env) && Driven(env, s.world, drops)
    ensures Driven(env, RunTurns(env, s, turns).world, drops + DropsIn(turns))
    decreases |turns|
  {
    hide S.DrainsAll, Driven, RunTurn;
    if turns != [] {
      var d := if turns[0].await.TimerDuringPacket? then 1 else 0;
      DrivenTurn(env, s, turns[0], drops);
      DrivenTurns(env, RunTurn(env, s, turns[0]), turns[1..], drops + d);
      assert drops + d + DropsIn(turns[1..]) == drops + DropsIn(turns);
    }
  }

  // ----- what the engine's theorems say about the daemon -----

  /**
   * The engine of every supervised run is where a run of its own operations leads, with no more drops than turns that
   * drop.
   */
  lemma SupervisionDrivesTheEngine(env: S.Env, turns: seq<Turn>)
    requires S.DrainsAll(env)
    ensures Driven(env, RunTurns(env, PublishCurrent(CREATED), turns).world, DropsIn(turns))
  {
    hide S.DrainsAll, Driven, RunTurns;
    InitialIsDriven(env);
    DrivenTurns(env, PublishCurrent(CREATED), turns, 0);
  }

  lemma {:induction false} NothingDropped(env: S.Env, w: S.World, steps: seq<DropStep>) returns (whole: seq<S.Step>)
    requires S.DrainsAll(env) && Drops(steps) == 0
    ensures RunWithDrops(env, w, steps) == S.Run(env, w, whole)
    decreases |steps|
  {
    hide S.Do, S.DrainsAll;
    if steps == [] {
      whole := [];
    } else {
      var rest := NothingDropped(env, DoOrDrop(env, w, steps[0]), steps[1..]);
      whole := [steps[0].step] + rest;
      assert whole[1..] == rest;
    }
  }

  /** Without dropped packets every theorem about reachable engines speaks about the supervised one. */
  lemma SupervisedEngineIsReachable(env: S.Env, turns: seq<Turn>) returns (v: S.World)
    requires S.DrainsAll(env) && DropsIn(turns) == 0
    ensures Theorems.Reachable(env, v) && Alike(v, RunTurns(env, PublishCurrent(CREATED), turns).world)
  {
    SupervisionDrivesTheEngine(env, turns);
    var w := RunTurns(env, PublishCurrent(CREATED), turns).world;
    hide S.DrainsAll, RunTurns, RunWithDrops, S.Run, Alike;
    var steps :| Drops(steps) <= 0 && Alike(RunWithDrops(env, S.INITIAL, steps), w);
    var whole := NothingDropped(env, S.INITIAL, steps);
    v := RunWithDrops(env, S.INITIAL, steps);
  }

  /**
   * Without dropped packets the published counters are the trace: deliveries are the sink calls that presented
   * something, and errors are the failed sink calls, requests and packets together with the supervisor's own.
   */
  lemma StatusCountsWhatHappened(env: S.Env, turns: seq<Turn>)
    requires S.GoodEnv(env) && DropsIn(turns) == 0
    ensures var s := RunTurns(env, PublishCurrent(CREATED), turns);
            && s.snapshot.delivered == Deliveries(s.world.calls)
            && s.snapshot.errors == s.log.ownErrors + FailedCalls(s.world.calls) + s.world.past.attributeFailures
                                    + s.world.past.appFailures + s.world.past.malformed
  {
    var v := SupervisedEngineIsReachable(env, turns);
    ErrorsAreConserved(env, turns);
    hide S.DrainsAll, S.FreshIds, RunTurns, Theorems.Reachable, Deliveries, FailedCalls, AttributesRequests, Attempts;
    Theorems.WorkIsConserved(env, v);
  }

  lemma DrivenSurvives(env: S.Env, w: S.World, drops: nat) returns (suspects: set<S.Uid>, lost: set<S.Handle>)
    requires S.GoodEnv(env) && Driven(env, w, drops)
    ensures Survives(env, w, drops, suspects, lost) && |suspects| <= drops && |lost| <= drops
  {
    hide S.DrainsAll, S.FreshIds, RunWithDrops, Survives;
    var steps :| Drops(steps) <= drops && Alike(RunWithDrops(env, S.INITIAL, steps), w);
    var v := RunWithDrops(env, S.INITIAL, steps);
    suspects, lost := ReachedSurvives(env, steps);
    MoreSurvives(env, v, Drops(steps), drops, suspects, suspects, lost);
    InboxSurvives(env, v, w.inbox, drops, suspects, lost);
    assert v.(inbox := w.inbox) == w;
  }

  /**
   * From start to shutdown the calls on every handle form one life, and every handle ever created has had exactly its
   * one close attempt, but for at most one handle for each dropped packet.
   */
  lemma ShutdownClosesEveryHandle(env: S.Env, turns: seq<Turn>, h: S.Handle, open: set<S.Handle>)
    requires S.GoodEnv(env)
    requires var d := Shutdown(env, RunTurns(env, PublishCurrent(CREATED), turns));
             forall g :: g in open ==> Open(d.world.calls, g)
    ensures var d := Shutdown(env, RunTurns(env, PublishCurrent(CREATED), turns));
            && Theorems.OneLife(Theorems.OnHandle(d.world.calls, h))
            && |open| <= DropsIn(turns)
            && (DropsIn(turns) == 0 ==>
                  Theorems.OnHandle(d.world.calls, h) == [] || Theorems.Ended(Theorems.OnHandle(d.world.calls, h)))
  {
    var s := RunTurns(env, PublishCurrent(CREATED), turns);
    var d := Shutdown(env, s);
    SupervisionDrivesTheEngine(env, turns);
    ShutdownReleasesEverything(env, s);
    DrivenEnd(env, s.world, DropsIn(turns));
    hide S.DrainsAll, S.FreshIds, S.End, RunTurns, Survives, Driven, Theorems.OneLife, Theorems.OnHandle;
    assert d.world == if s.active then S.End(env, s.world) else s.world;
    var suspects, lost := DrivenSurvives(env, d.world, DropsIn(turns));
    LivesOf(env, d.world, DropsIn(turns), suspects, lost, h);
    forall g | g in open ensures g in lost {
      LivesOf(env, d.world, DropsIn(turns), suspects, lost, g);
    }
    SubsetSize(open, lost);
  }

  /** Whatever is dropped, the supervised engine keeps its bounds and asks for UIDs in the order of their acceptance. */
  lemma SupervisionKeepsOrderAndBounds(env: S.Env, turns: seq<Turn>)
    requires S.GoodEnv(env)
    ensures var w := RunTurns(env, PublishCurrent(CREATED), turns).world;
            && Agree(w.pendingOrder, w.pendingKind) && Agree(w.handleOrder, w.handles) && Agree(w.appOrder, w.appNames)
            && S.PendingLen(w) <= S.MAX_PENDING_UIDS && |w.handles| <= S.MAX_ACTIVE_NOTIFICATIONS
            && |w.appNames| <= S.MAX_CACHED_APPS && |w.decoder.expected| <= DropsIn(turns)
            && RequestedUids(w.writes) == UidsOf(w.past.journal, S.Requested) && InOrder(w.past.journal)
            && w.pendingOrder == UidsOf(w.past.journal, S.Waiting)
  {
    SupervisionDrivesTheEngine(env, turns);
    var w := RunTurns(env, PublishCurrent(CREATED), turns).world;
    hide S.DrainsAll, S.FreshIds, RunTurns, Driven, Agree, HandlesBut, UidsOf, RequestedUids, InOrder, Holds, Recent;
    var suspects, lost := DrivenSurvives(env, w, DropsIn(turns));
    AgreeSize(w.appOrder, w.appNames);
  }

  // ----- starvation, seen from the loop -----

  /** Every reconciliation of the run leaves the session active. */
  ghost predicate SessionStays(env: S.Env, s: State, turns: seq<Turn>)
    requires S.DrainsAll(env)
    decreases |turns|
  {
    turns != [] ==>
      && ReconcileOnce(env, s, turns[0].bus, turns[0].subscribe).active
      && SessionStays(env, RunTurn(env, s, turns[0]), turns[1..])
  }

  /** A starved turn takes the queue branch, whatever packet is waiting, and leaves the engine as it is. */
  lemma StarvedTurnReadsNothing(env: S.Env, s: State, t: Turn, await: Await)
    requires S.DrainsAll(env) && AtLoopHead(s) && s.active && Starved(s.world)
    requires ReconcileOnce(env, s, t.bus, t.subscribe).active
    ensures var next := RunTurn(env, s, t);
            next.active && Alike(s.world, next.world) && next == RunTurn(env, s, t.(await := await))
  {
    ReconcileReachesBoundary(env, s, t.bus, t.subscribe);
    ReconcileEffects(env, s, t.bus, t.subscribe);
    hide S.DrainsAll, ReconcileOnce, T.Reconcile, T.Subscribe, S.End, LastPublished, AllLayered, T.Consistent, ErrorsAdd,
         SessionRuns.Empty, AwaitPacket, S.Settle, S.AttributesReply;
  }

  /**
   * A starved engine stays starved, and no packet is read, for as long as the session lasts: only a reconciliation
   * that ends the session helps.
   */
  lemma {:induction false} StarvedUntilTheSessionEnds(env: S.Env, s: State, turns: seq<Turn>)
    requires S.DrainsAll(env) && AtLoopHead(s) && s.active && Starved(s.world) && SessionStays(env, s, turns)
    ensures var last := RunTurns(env, s, turns); last.active && Alike(s.world, last.world)
    decreases |turns|
  {
    hide S.DrainsAll, AtLoopHead, ReconcileOnce, RunTurn;
    if turns != [] {
      StarvedTurnReadsNothing(env, s, turns[0], turns[0].await);
      TurnKeeps(env, s, turns[0]);
      StarvedUntilTheSessionEnds(env, RunTurn(env, s, turns[0]), turns[1..]);
    }
  }

  lemma NothingPending(w: S.World)
    requires S.PendingLen(w) == 0 && Agree(w.pendingOrder, w.pendingKind)
    ensures w.pendingOrder == [] && w.pendingKind == map[] && w.outstanding == None
  {
    AgreeSize(w.pendingOrder, w.pendingKind);
  }

  /**
   * In every run, with or without earlier drops, every turn that waits for a packet can starve the loop: whichever
   * acceptable event arrives, the timer can drop it so that the engine stays as it is left for as long as the session
   * lasts.
   */
  lemma AnyWaitingTurnCanStarve(env: S.Env, turns: seq<Turn>, t: Turn, octets: seq<byte>, later: seq<S.Input>)
    returns (left: S.World)
    requires S.GoodEnv(env)
    requires var r := ReconcileOnce(env, RunTurns(env, PublishCurrent(CREATED), turns), t.bus, t.subscribe);
             r.active && S.PendingLen(r.world) == 0
    requires var event := ParseEvent(octets); event.Ok? && event.value.kind != Removed && !event.value.PreExisting()
    ensures Starved(left)
    ensures var starved := RunTurn(env, RunTurns(env, PublishCurrent(CREATED), turns),
                                   t.(await := TimerDuringPacket(octets, later, left)));
            forall more :: SessionStays(env, starved, more) ==>
              var last := RunTurns(env, starved, more); last.active && Alike(left, last.world)
  {
    var s := RunTurns(env, PublishCurrent(CREATED), turns);
    var r := ReconcileOnce(env, s, t.bus, t.subscribe);
    StartIsAtLoopHead();
    TurnsKeep(env, PublishCurrent(CREATED), turns);
    ReconcileReachesBoundary(env, s, t.bus, t.subscribe);
    SupervisionDrivesTheEngine(env, turns);
    DrivenReconcile(env, s, t.bus, t.subscribe, DropsIn(turns));
    var w := Upcoming(r, later).world;
    left := DroppedWhileWaiting(env, r.world, w, octets, DropsIn(turns));
    DroppedTurn(env, s, t, octets, later, left);
    hide *;
    var starved := RunTurn(env, s, t.(await := TimerDuringPacket(octets, later, left)));
    forall more | SessionStays(env, starved, more)
      ensures RunTurns(env, starved, more).active && Alike(left, RunTurns(env, starved, more).world)
    {
      StarvedUntilTheSessionEnds(env, starved, more);
    }
  }

  /** BlueZ answers everything well. */
  const WELL: T.Bus :=
    T.Bus(true, true, T.Gives(true), T.Gives(1), true, true, T.Gives(0), true, true,
          T.Gives(true), T.Fails, T.Gives(true), T.Gives(true), T.Gives(true), T.Gives(true))

  /** Such turns exist: when all goes well, the second turn of the daemon waits for a packet. */
  lemma SecondTurnWaits(env: S.Env)
    requires S.DrainsAll(env)
    ensures var t := Turn(WELL, T.SubscribeAnswers(true, true), [], TimerFirst);
            var r := ReconcileOnce(env, RunTurns(env, PublishCurrent(CREATED), [t]), WELL, t.subscribe);
            r.active && r.world == S.INITIAL && S.PendingLen(r.world) == 0
  {
    var t := Turn(WELL, T.SubscribeAnswers(true, true), [], TimerFirst);
    var start := PublishCurrent(CREATED);
    assert T.Reconcile(start.held, WELL).answer == T.Gives(T.Advertising);
    ReconcileEffects(env, start, WELL, t.subscribe);
    var r := ReconcileOnce(env, start, WELL, t.subscribe);
    FirstTurnAdvertises(env, t);
    assert T.Reconcile(r.held, WELL).answer == T.Gives(T.Available);
    ReconcileEffects(env, r, WELL, t.subscribe);
    hide S.DrainsAll, S.End, ReconcileOnce;
  }

  lemma FirstTurnAdvertises(env: S.Env, t: Turn)
    requires S.DrainsAll(env) && t.bus == WELL
    ensures var start := PublishCurrent(CREATED);
            RunTurns(env, start, [t]) == ReconcileOnce(env, start, WELL, t.subscribe)
  {
    var start := PublishCurrent(CREATED);
    assert ReconcileOnce(env, start, WELL, t.subscribe).snapshot.state == Advertising by {
      assert T.Reconcile(start.held, WELL).answer == T.Gives(T.Advertising);
      hide EndSession, S.DrainsAll, T.Reconcile;
    }
    hide ReconcileOnce, S.DrainsAll;
    assert [t][1..] == [];
    assert RunTurns(env, RunTurn(env, start, t), []) == RunTurn(env, start, t);
  }

  lemma DroppedTurnForm(env: S.Env, s: State, t: Turn, octets: seq<byte>, later: seq<S.Input>, left: S.World)
    requires S.DrainsAll(env)
    requires var r := ReconcileOnce(env, s, t.bus, t.subscribe);
             && r.snapshot.state == Ready && S.PendingLen(r.world) == 0
             && InHandling(env, Upcoming(r, later).world, octets, left)
    ensures var r := ReconcileOnce(env, s, t.bus, t.subscribe);
            RunTurn(env, s, t.(await := TimerDuringPacket(octets, later, left))) == r.(world := left)
  {
    hide S.DrainsAll, ReconcileOnce, InHandling, S.PendingLen, HandleOnePacket, ProcessOnePending, SleepBackoff,
         StreamFailed;
  }

  lemma DroppedTurn(env: S.Env, s: State, t: Turn, octets: seq<byte>, later: seq<S.Input>, left: S.World)
    requires S.DrainsAll(env) && AtLoopHead(s)
    requires var r := ReconcileOnce(env, s, t.bus, t.subscribe);
             r.active && S.PendingLen(r.world) == 0 && InHandling(env, Upcoming(r, later).world, octets, left)
    ensures var next := RunTurn(env, s, t.(await := TimerDuringPacket(octets, later, left)));
            AtLoopHead(next) && next.active && next.world == left
  {
    TurnKeeps(env, s, t.(await := TimerDuringPacket(octets, later, left)));
    ReconcileReachesBoundary(env, s, t.bus, t.subscribe);
    var r := ReconcileOnce(env, s, t.bus, t.subscribe);
    assert r.snapshot.state == Ready;
    hide *;
    DroppedTurnForm(env, s, t, octets, later, left);
  }

  lemma DroppedWhileWaiting(env: S.Env, v: S.World, w: S.World, octets: seq<byte>, drops: nat) returns (left: S.World)
    requires S.GoodEnv(env) && Driven(env, v, drops) && S.PendingLen(v) == 0 && Alike(w, v)
    requires var event := ParseEvent(octets); event.Ok? && event.value.kind != Removed && !event.value.PreExisting()
    ensures InHandling(env, w, octets, left) && Starved(left)
  {
    var suspects, lost := DrivenSurvives(env, v, drops);
    NothingPending(v);
    hide S.GoodEnv, S.DrainsAll, InHandling, Starved, ParseEvent, Driven;
    left := AnyAcceptedPacketCanStarve(env, w, octets);
  }
}
