/**
 * Runs in which the handling of packets is dropped at any await: what survives of the engine's guarantees, by how
 * much the rest can grow, and what no longer holds.
 */
module SessionDrops {
  import opened Bytes
  import opened Codec
  import opened Decoder
  import opened Collections
  import opened Session
  import opened SessionInvariants
  import opened Requests
  import opened SessionTheorems
  import opened QueueOrder
  import opened Interruptions
  import opened Survival
  import opened StaleAnswers

  lemma InitialSurvives(env: Env)
    ensures Survives(env, INITIAL, 0, {}, {})
  {}

  lemma ReachedSurvives(env: Env, steps: seq<DropStep>) returns (suspects: set<Uid>, lost: set<Handle>)
    requires GoodEnv(env)
    ensures Survives(env, RunWithDrops(env, INITIAL, steps), Drops(steps), suspects, lost)
    ensures |suspects| <= Drops(steps) && |lost| <= Drops(steps)
  {
    hide Survives, RunWithDrops, FreshIds, DrainsAll, Outlives;
    InitialSurvives(env);
    RunOutlives(env, INITIAL, steps, 0, {}, {});
    suspects, lost := WhatOutlives(env, RunWithDrops(env, INITIAL, steps), 0, 0, {}, Drops(steps));
  }

  lemma SubsetSize<T>(a: set<T>, b: set<T>)
    requires a <= b
    ensures |a| <= |b|
  {
    assert |b| == |a| + |b - a| by { assert a + (b - a) == b; }
  }

  function OutstandingSet(w: World): set<Uid> {
    if w.outstanding.Some? then {w.outstanding.value} else {}
  }

  /**
   * Whatever is dropped and wherever: queues agree with their maps, the four bounds hold, and each drop leaves at
   * most one more expectation and one more UID outstanding or cancelled.
   */
  lemma DropsKeepBounds(env: Env, steps: seq<DropStep>)
    requires GoodEnv(env)
    ensures var w := RunWithDrops(env, INITIAL, steps);
            && Agree(w.pendingOrder, w.pendingKind) && Agree(w.handleOrder, w.handles) && Agree(w.appOrder, w.appNames)
            && PendingLen(w) <= MAX_PENDING_UIDS && |w.handles| <= MAX_ACTIVE_NOTIFICATIONS
            && |w.appNames| <= MAX_CACHED_APPS
            && |w.decoder.bytes| <= MAX_RESPONSE_BYTES
            && |w.decoder.expected| <= Drops(steps) && |w.canceled + OutstandingSet(w)| <= Drops(steps)
  {
    var suspects, lost := ReachedSurvives(env, steps);
    var w := RunWithDrops(env, INITIAL, steps);
    hide RunWithDrops, HandlesBut, Fifo, Agree, GoodEnv;
    SubsetSize(w.canceled + OutstandingSet(w), suspects);
    AgreeSize(w.appOrder, w.appNames);
  }

  /**
   * First in, first out: the UIDs requested are those accepted, in the order of their acceptance, but for those
   * withdrawn or discarded while they waited; none overtakes another, and what still waits is the queue.
   */
  lemma FirstInFirstOut(env: Env, steps: seq<DropStep>)
    requires GoodEnv(env)
    ensures var w := RunWithDrops(env, INITIAL, steps);
            && RequestedUids(w.writes) == UidsOf(w.past.journal, Requested)
            && w.pendingOrder == UidsOf(w.past.journal, Waiting)
            && InOrder(w.past.journal)
  {
    var suspects, lost := ReachedSurvives(env, steps);
    hide RunWithDrops, HandlesBut, UidsOf, RequestedUids, InOrder, GoodEnv, QueueSound, CacheSound, Agree;
  }

  // ----- handles -----

  predicate Open(calls: seq<SinkCall>, h: Handle) {
    OnHandle(calls, h) != [] && !Ended(OnHandle(calls, h))
  }

  /** The calls on every handle still form one life; an open handle is mapped, or it is one of the lost. */
  lemma LivesOf(env: Env, w: World, e: nat, suspects: set<Uid>, lost: set<Handle>, h: Handle)
    requires Survives(env, w, e, suspects, lost)
    ensures OneLife(OnHandle(w.calls, h))
    ensures Open(w.calls, h) <==> h in w.handles.Values || h in lost
    ensures h in lost ==> h !in w.handles.Values
  {
    hide QueueSound, CacheSound, Fifo, Agree, OneLife, OnHandle, PhaseOf;
    PhaseIsLife(w.calls, h);
    if h in w.handles.Values {
      var uid :| uid in w.handles && w.handles[uid] == h;
    }
  }

  /** Drops do not break the life of a handle, and at most one open handle a drop is mapped by nothing. */
  lemma DropsKeepHandleLives(env: Env, steps: seq<DropStep>, h: Handle, unmapped: set<Handle>)
    requires GoodEnv(env)
    requires var w := RunWithDrops(env, INITIAL, steps);
             forall g :: g in unmapped ==> Open(w.calls, g) && g !in w.handles.Values
    ensures var w := RunWithDrops(env, INITIAL, steps);
            OneLife(OnHandle(w.calls, h)) && (h in w.handles.Values ==> Open(w.calls, h))
    ensures |unmapped| <= Drops(steps)
  {
    var suspects, lost := ReachedSurvives(env, steps);
    var w := RunWithDrops(env, INITIAL, steps);
    hide RunWithDrops, Survives, GoodEnv, OneLife, Open;
    LivesOf(env, w, Drops(steps), suspects, lost, h);
    forall g | g in unmapped ensures g in lost {
      LivesOf(env, w, Drops(steps), suspects, lost, g);
    }
    SubsetSize(unmapped, lost);
  }

  /**
   * A handle that is open and unmapped stays so: nothing that happens later closes or replaces it, no session end
   * either.
   */
  lemma LostHandlesStayOpen(env: Env, steps: seq<DropStep>, later: seq<DropStep>, h: Handle)
    requires GoodEnv(env)
    requires var w := RunWithDrops(env, INITIAL, steps); Open(w.calls, h) && h !in w.handles.Values
    ensures var w := RunWithDrops(env, RunWithDrops(env, INITIAL, steps), later);
            Open(w.calls, h) && h !in w.handles.Values
  {
    var suspects, lost := ReachedSurvives(env, steps);
    var w := RunWithDrops(env, INITIAL, steps);
    var last := RunWithDrops(env, w, later);
    hide RunWithDrops, Survives, GoodEnv, OneLife, Open, Outlives;
    LivesOf(env, w, Drops(steps), suspects, lost, h);
    RunOutlives(env, w, later, Drops(steps), suspects, lost);
    var who, more := WhatOutlives(env, last, Drops(steps), |suspects|, lost, Drops(later));
    LivesOf(env, last, Drops(steps) + Drops(later), who, more, h);
  }

  /** After a session end at most one handle a drop is still open. */
  lemma EndLeavesOnlyLostHandlesOpen(env: Env, steps: seq<DropStep>, open: set<Handle>)
    requires GoodEnv(env)
    requires forall g :: g in open ==> Open(End(env, RunWithDrops(env, INITIAL, steps)).calls, g)
    ensures |open| <= Drops(steps)
  {
    var suspects, lost := ReachedSurvives(env, steps);
    var w := RunWithDrops(env, INITIAL, steps);
    hide RunWithDrops, Survives, OneLife, Open, End, DrainsAll;
    EndSurvives(env, w, Drops(steps), 0, suspects, {}, lost);
    forall g | g in open ensures g in lost {
      LivesOf(env, End(env, w), 0, {}, lost, g);
    }
    SubsetSize(open, lost);
  }

  /** A delivery dropped before its outcome is known loses a handle exactly if it creates one. */
  lemma DroppedDeliveryLosesExactly(env: Env, w: World, uid: Uid, payload: Payload)
    requires FreshIds(env) && HandlesSound(env, w.calls, w.handles)
    ensures var left := Called(env, w, uid, payload);
            && InDeliver(env, w, uid, payload, left)
            && (HandlesSound(env, left.calls, left.handles) <==> !(uid !in w.handles && env.sinkOk(|w.calls|)))
            && HandlesBut(env, left.calls, left.handles, LostBy(env, w, uid))
  {
    var ok := env.sinkOk(|w.calls|);
    if uid in w.handles {
      OtherCallKeepsLives(env, w.calls, w.handles, {}, Replace(w.handles[uid], payload, ok));
    } else if ok {
      CreateKeepsLives(env, w.calls, w.handles, {}, payload);
      assert {} + {env.newId(|w.calls|)} == {env.newId(|w.calls|)};
      var left := Called(env, w, uid, payload);
      assert env.newId(|w.calls|) in LostBy(env, w, uid);
    } else {
      OtherCallKeepsLives(env, w.calls, w.handles, {}, Create(payload, None));
    }
    hide PhaseOf, UsedIdsKnown;
  }

  /** The last call created a handle that nothing maps and that is not among those lost before. */
  ghost predicate LosesCreated(w: World, lost: set<Handle>) {
    exists h :: JustCreated(w.calls, h) && h !in w.handles.Values && h !in lost
  }

  /**
   * Wherever in the handling of a packet it happens, a drop loses a handle if and only if the last sink call made has
   * just created one that is not mapped yet; and then it loses that one. A drop at any other await loses nothing.
   */
  lemma DroppedHandlingLosesExactly(env: Env, w: World, packet: seq<byte>, left: World, e: nat, suspects: set<Uid>,
                                    lost: set<Handle>)
    requires FreshIds(env) && Survives(env, w, e, suspects, lost) && InHandling(env, w, packet, left)
    ensures HandlesBut(env, left.calls, left.handles, lost) <==> !LosesCreated(left, lost)
    ensures LosesCreated(left, lost) ==>
              exists h ::
                JustCreated(left.calls, h) && h !in lost && HandlesBut(env, left.calls, left.handles, lost + {h})
  {
    var uid := HandlingRemains(env, w, packet, left, e, suspects, lost);
    hide InHandling, FreshIds, QueueSound, CacheSound, Fifo, Agree, Suspects, Buffered;
    if Survives(env, left, e + 1, suspects + {uid}, lost) {
      CreatedIsKnown(env, left, lost);
    } else {
      var h :| h !in lost && JustCreated(left.calls, h) && Survives(env, left, e + 1, suspects + {uid}, lost + {h});
      assert HandlesBut(env, left.calls, left.handles, lost + {h});
      hide Survives;
      UnmappedIsLost(env, left, lost, h);
    }
  }

  /** A handle just created is alive, so where every handle has its place it is mapped or lost. */
  lemma CreatedIsKnown(env: Env, w: World, lost: set<Handle>)
    requires HandlesBut(env, w.calls, w.handles, lost)
    ensures !LosesCreated(w, lost)
  {
    hide UsedIdsKnown;
    forall h | JustCreated(w.calls, h) ensures h in w.handles.Values || h in lost {
      assert PhaseOf(w.calls, h) == Live;
    }
  }

  lemma UnmappedIsLost(env: Env, w: World, lost: set<Handle>, h: Handle)
    requires HandlesBut(env, w.calls, w.handles, lost + {h}) && h !in lost && JustCreated(w.calls, h)
    ensures !HandlesBut(env, w.calls, w.handles, lost) && LosesCreated(w, lost)
  {
    hide UsedIdsKnown, PhaseOf;
    assert h in lost + {h};
  }

  // ----- the cancellation set -----

  lemma {:induction false} WaitCancelsOutstanding(env: Env, w: World)
    ensures Wait(env, w).w.canceled == w.canceled || Wait(env, w).w.canceled == w.canceled + OutstandingSet(w)
    decreases |w.inbox|
  {
    hide Feed, Ingest, ParseEvent;
    if w.inbox != [] {
      var w1 := w.(inbox := w.inbox[1..]);
      match w.inbox[0]
      case Timeout =>
      case StreamFailure =>
      case DataSource(fragment) => WaitCancelsOutstanding(env, w1.(decoder := Feed(w1.decoder, fragment).after));
      case NotificationSource(packet) =>
        if ParseEvent(packet).Ok? {
          IngestCancelsOutstanding(env, w1, ParseEvent(packet).value);
          assert w1.canceled + {} == w1.canceled;
        }
        WaitCancelsOutstanding(env, IngestPacket(env, w1, packet));
    }
  }

  lemma PresentCancelsNothing(env: Env, w: World, uid: Uid, app: Text, title: Text, message: Text)
    requires w.outstanding == None && uid !in w.canceled
    ensures Present(env, w, uid, app, title, message).canceled == w.canceled
    ensures Present(env, w, uid, app, title, message).outstanding == None
  {
    var n := AppName(env, w, app);
    AppNameCancelsNothing(env, w, app);
    hide AppName, EvictHandles;
    DeliverKeepsCanceled(env, n.w, uid, Payload(n.name, title, message));
    AppNameKeepsOutstanding(env, w, app);
    hide Deliver;
  }

  lemma AppNameKeepsOutstanding(env: Env, w: World, app: Text)
    ensures AppName(env, w, app).w.outstanding == w.outstanding
  {
    hide Fetch, EvictApps;
  }

  lemma DeliverKeepsCanceled(env: Env, w: World, uid: Uid, payload: Payload)
    ensures var r := Deliver(env, w, uid, payload); r.canceled == w.canceled && r.outstanding == w.outstanding
  {
    DeliverIsCallThenMap(env, w, uid, payload);
    EvictKeepsCanceled(env, Mapped(env, w, uid, payload));
    hide EvictHandles, Deliver;
  }

  lemma {:induction false} EvictKeepsCanceled(env: Env, w: World)
    ensures var r := EvictHandles(env, w); r.canceled == w.canceled && r.outstanding == w.outstanding
    decreases |w.handleOrder|
  {
    if |w.handles| > MAX_ACTIVE_NOTIFICATIONS && w.handleOrder != [] {
      var oldest := w.handleOrder[0];
      var w1 := w.(handleOrder := w.handleOrder[1..]);
      EvictKeepsCanceled(env, if oldest in w.handles
                              then CloseHandle(env, w1.(handles := w.handles - {oldest}), w.handles[oldest]) else w1);
    }
  }

  /**
   * A completed `process_next` takes out of the cancellation set the UID it processed and no other. So the set may
   * outgrow the outstanding UID: it is left non-empty exactly if it held another UID before, such as one whose
   * request was dropped after its removal had been ingested.
   */
  lemma ProcessClearsOnlyItsOwn(env: Env, w: World)
    requires w.pendingOrder != [] && w.pendingOrder[0] in w.pendingKind
    ensures var uid, next := w.pendingOrder[0], ProcessNext(env, w).w;
            && next.outstanding == None && next.canceled == w.canceled - {uid}
            && (next.canceled != {} <==> exists other :: other in w.canceled && other != uid)
  {
    var uid, r := w.pendingOrder[0], AttributesReply(env, w);
    ReplyCancelsOutstanding(env, w);
    OnlyItsOwn(w.canceled, uid);
    SettleForms(env, uid, r);
    hide AttributesReply, Present, Settle;
    if r.got.Some? && r.got.value.NotificationAttributes? && uid !in r.w.canceled {
      PresentCancelsNothing(env, r.w.(outstanding := None, canceled := r.w.canceled - {uid}), uid,
                            r.got.value.appIdentifier, r.got.value.title, r.got.value.message);
    }
  }

  lemma ReplyCancelsOutstanding(env: Env, w: World)
    requires w.pendingOrder != []
    ensures var uid, r := w.pendingOrder[0], AttributesReply(env, w);
            r.w.canceled - {uid} == w.canceled - {uid} && r.w.outstanding == Some(uid)
  {
    hide Wait, NotificationAttributesRequest, Mark;
    var uid := w.pendingOrder[0];
    WaitCancelsOutstanding(env, WriteControl(env, Take(w).(decoder := Expecting(w.decoder, ExpectNotification(uid))),
                                             NotificationAttributesRequest(uid)).w);
  }

  lemma OnlyItsOwn(canceled: set<Uid>, uid: Uid)
    ensures canceled - {uid} != {} <==> exists other :: other in canceled && other != uid
  {
    if exists other :: other in canceled && other != uid {
      var other :| other in canceled && other != uid;
      assert other in canceled - {uid};
    }
  }

  // ----- the loop spins -----

  /** A UID is outstanding, and nothing is queued. */
  predicate Starved(w: World) {
    w.outstanding.Some? && w.pendingOrder == []
  }

  /**
   * The main loop takes its queue branch while `pending_len() > 0`. That branch does no work, and changes nothing,
   * exactly when a dropped request is still outstanding and the queue is empty.
   */
  lemma LoopSpinsExactly(env: Env, w: World)
    requires Agree(w.pendingOrder, w.pendingKind)
    ensures PendingLen(w) > 0 && !ProcessNext(env, w).worked <==> Starved(w)
    ensures !ProcessNext(env, w).worked ==> ProcessNext(env, w).w == w
    ensures Starved(w) ==> PendingLen(w) == 1
  {
    AgreeSize(w.pendingOrder, w.pendingKind);
    hide AttributesReply, Settle;
  }

  /** The queue branch, once for each of some inboxes. */
  function QueueBranches(inboxes: seq<seq<Input>>): seq<DropStep> {
    seq(|inboxes|, i requires 0 <= i < |inboxes| => Whole(ProcessStep(inboxes[i])))
  }

  /** However often the queue branch is taken and whatever arrives meanwhile, a starved engine stays as it is. */
  lemma {:induction false} StarvedForever(env: Env, w: World, inboxes: seq<seq<Input>>)
    requires DrainsAll(env) && Starved(w)
    ensures var r := RunWithDrops(env, w, QueueBranches(inboxes)); r == w.(inbox := r.inbox)
    decreases |inboxes|
  {
    hide AttributesReply, Settle, DrainsAll;
    if inboxes != [] {
      assert QueueBranches(inboxes)[1..] == QueueBranches(inboxes[1..]);
      StarvedForever(env, w.(inbox := inboxes[0]), inboxes[1..]);
    }
  }

  lemma {:induction false} WaitKeepsRequest(env: Env, w: World, left: World)
    requires InWait(env, w, left)
    ensures left.outstanding == w.outstanding && left.decoder.expected == w.decoder.expected
    decreases |w.inbox|
  {
    hide Feed, Withdraw, ParseEvent;
    if left != w {
      var w1 := w.(inbox := w.inbox[1..]);
      match w.inbox[0]
      case DataSource(fragment) =>
        FeedAnswersOldest(w1.decoder, fragment);
        WaitKeepsRequest(env, w1.(decoder := Feed(w1.decoder, fragment).after), left);
      case NotificationSource(packet) =>
        if InPacket(env, w1, packet, left) {
          WithdrawKeepsRequest(w1, ParseEvent(packet).value.uid);
        } else {
          WaitKeepsRequest(env, IngestPacket(env, w1, packet), left);
        }
    }
  }

  lemma WithdrawKeepsRequest(w: World, uid: Uid)
    ensures Withdraw(w, uid).outstanding == w.outstanding && Withdraw(w, uid).decoder == w.decoder
  {
    hide Without, Mark;
  }

  /** `process_next` is dropped while it waits for the attributes of the oldest queued UID. */
  predicate DropsRequest(env: Env, w: World, left: World) {
    w.pendingOrder != [] && w.pendingOrder[0] in w.pendingKind
    && InFetch(env, Take(w), ExpectNotification(w.pendingOrder[0]),
               NotificationAttributesRequest(w.pendingOrder[0]), left)
  }

  /**
   * Dropped at any input of its wait, a request leaves its UID outstanding and its expectation behind all earlier
   * ones.
   */
  lemma DropLeavesRequestOpen(env: Env, w: World, left: World)
    requires DropsRequest(env, w, left)
    ensures InProcess(env, w, left)
    ensures left.outstanding == Some(w.pendingOrder[0])
    ensures left.decoder.expected == w.decoder.expected + [ExpectNotification(w.pendingOrder[0])]
  {
    hide InPresent, AttributesReply, NotificationAttributesRequest, InWait, Mark;
    var uid := w.pendingOrder[0];
    var sent := WriteControl(env, Take(w).(decoder := Expecting(w.decoder, ExpectNotification(uid))),
                             NotificationAttributesRequest(uid));
    if left != sent.w {
      WaitKeepsRequest(env, sent.w, left);
    }
  }

  lemma WithdrawCancels(w: World, uid: Uid, gone: Uid)
    requires w.outstanding == Some(uid)
    ensures uid in Withdraw(w, gone).canceled <==> uid in w.canceled || gone == uid
    ensures Withdraw(w, gone).inbox == w.inbox
  {
    hide Without, Mark;
  }

  /** Also in a wait that is dropped, exactly a removal among the inputs taken cancels the outstanding UID. */
  lemma {:induction false} DroppedWaitCancels(env: Env, w: World, left: World, uid: Uid)
    requires InWait(env, w, left) && w.outstanding == Some(uid)
    ensures |left.inbox| <= |w.inbox|
    ensures uid in left.canceled <==> uid in w.canceled || RemovedIn(Taken(w.inbox, left.inbox), uid)
    decreases |w.inbox|
  {
    hide Feed, Ingest, Withdraw, ParseEvent;
    if left == w {
      assert Taken(w.inbox, w.inbox) == [];
    } else {
      var w1 := w.(inbox := w.inbox[1..]);
      match w.inbox[0] {
        case DataSource(fragment) =>
          DroppedWaitCancels(env, w1.(decoder := Feed(w1.decoder, fragment).after), left, uid);
        case NotificationSource(packet) =>
          if InPacket(env, w1, packet, left) {
            WithdrawCancels(w1, uid, ParseEvent(packet).value.uid);
            assert Taken(w1.inbox, w1.inbox) == [];
          } else {
            if ParseEvent(packet).Ok? { IngestCancels(env, w1, ParseEvent(packet).value, uid); }
            DroppedWaitCancels(env, IngestPacket(env, w1, packet), left, uid);
          }
      }
      TakenStep(w.inbox, left.inbox);
    }
  }

  lemma DroppedRequestCancels(env: Env, w: World, left: World)
    requires DropsRequest(env, w, left)
    ensures |left.inbox| <= |w.inbox|
    ensures w.pendingOrder[0] in left.canceled <==> RemovedIn(Taken(w.inbox, left.inbox), w.pendingOrder[0])
  {
    hide NotificationAttributesRequest, InWait, Mark, RemovedIn;
    var uid := w.pendingOrder[0];
    var sent := WriteControl(env, Take(w).(decoder := Expecting(w.decoder, ExpectNotification(uid))),
                             NotificationAttributesRequest(uid));
    NothingTaken(w.inbox, uid);
    if left != sent.w {
      DroppedWaitCancels(env, sent.w, left, uid);
    }
  }

  lemma NothingTaken(inbox: seq<Input>, uid: Uid)
    ensures !RemovedIn(Taken(inbox, inbox), uid)
  {
    assert Taken(inbox, inbox) == [];
  }

  /**
   * After the next UID has been processed nothing is outstanding any more, yet the dropped UID is still cancelled if
   * and only if its removal was among the inputs taken before the drop, and the next UID was not the same one again.
   */
  lemma CancellationLeaksExactly(env: Env, w: World, left: World, later: seq<Input>)
    requires DropsRequest(env, w, left) && left.pendingOrder != [] && left.pendingOrder[0] in left.pendingKind
    ensures |left.inbox| <= |w.inbox|
    ensures var dropped, next := w.pendingOrder[0], ProcessNext(env, left.(inbox := later)).w;
            && next.outstanding == None
            && (dropped in next.canceled <==>
                  RemovedIn(Taken(w.inbox, left.inbox), dropped) && left.pendingOrder[0] != dropped)
  {
    hide DropsRequest, ProcessNext, RemovedIn;
    DroppedRequestCancels(env, w, left);
    ProcessClearsOnlyItsOwn(env, left.(inbox := later));
  }

  /** A request dropped at any input starves the engine if and only if nothing has been queued meanwhile. */
  lemma DropOfLastRequestSpins(env: Env, w: World, left: World, inboxes: seq<seq<Input>>)
    requires DrainsAll(env) && DropsRequest(env, w, left)
    ensures Starved(left) <==> left.pendingOrder == []
    ensures left.pendingOrder == [] ==>
              var r := RunWithDrops(env, left, QueueBranches(inboxes)); r == left.(inbox := r.inbox)
  {
    DropLeavesRequestOpen(env, w, left);
    hide DropsRequest, RunWithDrops, DrainsAll;
    if left.pendingOrder == [] {
      StarvedForever(env, left, inboxes);
    }
  }

  /** From rest with an empty queue, every packet whose event is accepted can end up starving the engine. */
  lemma AnyAcceptedPacketCanStarve(env: Env, w: World, packet: seq<byte>) returns (left: World)
    requires w.pendingOrder == [] && w.pendingKind == map[] && w.outstanding == None
    requires ParseEvent(packet).Ok? && ParseEvent(packet).value.kind != Removed && !ParseEvent(packet).value.PreExisting()
    ensures InHandling(env, w, packet, left) && Starved(left)
    ensures DropsRequest(env, Ingest(env, w, ParseEvent(packet).value), left)
  {
    var event := ParseEvent(packet).value;
    var w1 := Ingest(env, w, event);
    assert w1 == Enqueue(w, event.uid, event.kind);
    left := WriteControl(env, Take(w1).(decoder := Expecting(w1.decoder, ExpectNotification(event.uid))),
                         NotificationAttributesRequest(event.uid)).w;
    hide ParseEvent, InPresent, AttributesReply, NotificationAttributesRequest, InWait, Mark;
  }

  // ----- a late answer is taken for the next request's -----

  /**
   * In any reachable state the request for the oldest UID is dropped, at any input of its wait. Whatever arrives
   * later, if the request for the next UID gets an answer then it is the dropped one's, so it is its own if and only
   * if the same UID was queued again; and it is presented on the handle of the UID taken, unless that one is removed
   * meanwhile.
   */
  lemma DropShowsOneNotificationAsAnother(env: Env, w: World, left: World, later: seq<Input>)
    requires GoodEnv(env) && Reachable(env, w) && DropsRequest(env, w, left) && left.pendingOrder != []
    ensures var dropped, d := w.pendingOrder[0], left.(inbox := later);
            var uid, reply := d.pendingOrder[0], AttributesReply(env, d);
            reply.got.Some? ==>
              && reply.got.value.NotificationAttributes? && reply.got.value.uid == dropped
              && (reply.got.value.uid == uid <==> dropped == uid)
              && (!RemovedIn(Taken(later, reply.w.inbox), uid) ==>
                    PresentedOn(|reply.w.calls|, reply.got.value.title, reply.got.value.message,
                                ProcessNext(env, d).w, uid))
  {
    var dropped, d := w.pendingOrder[0], left.(inbox := later);
    DropLeavesRequestOpen(env, w, left);
    ReachableIsQuiet(env, w);
    QuietQueue(env, w);
    assert d.decoder.expected == [ExpectNotification(dropped)];
    ReachableSurvives(env, w);
    hide InProcess, ProcessNext, AttributesReply, RemovedIn, PresentedOn, GoodEnv, Reachable, Quiet, Survives, InFetch,
         NotificationAttributesRequest;
    StaleAttributes(env, d, dropped);
    ReplySurvives(env, w, 0, {}, {});
    InboxSurvives(env, left, later, 1, {} + {dropped}, {});
    StaleAttributesAreShown(env, d, dropped, 1, {} + {dropped}, {});
  }

  function WholeSteps(steps: seq<Step>): seq<DropStep> {
    if steps == [] then [] else [Whole(steps[0])] + WholeSteps(steps[1..])
  }

  /** A run without drops is a run with drops that has none. */
  lemma {:induction false} WholeRun(env: Env, w: World, steps: seq<Step>)
    requires DrainsAll(env)
    ensures RunWithDrops(env, w, WholeSteps(steps)) == Run(env, w, steps) && Drops(WholeSteps(steps)) == 0
    decreases |steps|
  {
    hide Do, DrainsAll;
    if steps != [] {
      assert WholeSteps(steps)[1..] == WholeSteps(steps[1..]);
      WholeRun(env, Do(env, w, steps[0]), steps[1..]);
    }
  }

  lemma ReachableSurvives(env: Env, w: World)
    requires GoodEnv(env) && Reachable(env, w)
    ensures Survives(env, w, 0, {}, {})
  {
    hide Survives, Run, RunWithDrops, FreshIds, DrainsAll;
    var steps :| w == Run(env, INITIAL, steps);
    WholeRun(env, INITIAL, steps);
    var suspects, lost := ReachedSurvives(env, WholeSteps(steps));
    assert suspects == {} && lost == {};
  }

  lemma RunOne(env: Env, w: World, s: DropStep)
    requires DrainsAll(env)
    ensures RunWithDrops(env, w, [s]) == DoOrDrop(env, w, s)
  {
    hide DoOrDrop, DrainsAll;
    assert RunWithDrops(env, DoOrDrop(env, w, s), [s][1..]) == DoOrDrop(env, w, s);
  }
}
