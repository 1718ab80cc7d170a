/** What the engine keeps over runs in which packets are dropped at any await. */
module Survival {
  import opened Bytes
  import opened Codec
  import opened Decoder
  import opened Collections
  import opened Session
  import opened SessionInvariants
  import opened SessionRuns
  import opened QueueOrder
  import opened Interruptions

  /** The cancellation set and the outstanding UID hold nothing but suspects. */
  predicate Suspects(canceled: set<Uid>, outstanding: Option<Uid>, suspects: set<Uid>) {
    canceled <= suspects && (outstanding.Some? ==> outstanding.value in suspects)
  }

  predicate Buffered(b: Buffer, expectations: nat) {
    |b.bytes| <= MAX_RESPONSE_BYTES && |b.expected| <= expectations
  }

  /**
   * Queues agree with their maps and all bounds hold, UIDs are requested in order, the cache is what was looked up, and
   * every handle's calls form one life, as without drops. What grows with each drop: UIDs that may stay outstanding or
   * cancelled (`suspects`), expectations without a request, and handles that nothing maps any more (`lost`).
   */
  ghost predicate Survives(env: Env, w: World, expectations: nat, suspects: set<Uid>, lost: set<Handle>) {
    && Unevicted(env, w, expectations, suspects, lost)
    && |w.handles| <= MAX_ACTIVE_NOTIFICATIONS
  }

  ghost predicate Unevicted(env: Env, w: World, expectations: nat, suspects: set<Uid>, lost: set<Handle>) {
    && QueueSound(w.pendingOrder, w.pendingKind, w.outstanding, {})
    && Suspects(w.canceled, w.outstanding, suspects)
    && HandlesBut(env, w.calls, w.handles, lost) && Agree(w.handleOrder, w.handles)
    && CacheSound(w.appNames, w.appOrder, w.past.lookups)
    && Buffered(w.decoder, expectations)
    && Fifo(w.past.journal, w.writes, w.pendingOrder)
  }

  lemma Assemble(env: Env, w: World, e: nat, suspects: set<Uid>, lost: set<Handle>)
    requires QueueSound(w.pendingOrder, w.pendingKind, w.outstanding, {}) && Suspects(w.canceled, w.outstanding, suspects)
    requires HandlesBut(env, w.calls, w.handles, lost) && Agree(w.handleOrder, w.handles)
    requires |w.handles| <= MAX_ACTIVE_NOTIFICATIONS
    requires CacheSound(w.appNames, w.appOrder, w.past.lookups) && Buffered(w.decoder, e)
    requires Fifo(w.past.journal, w.writes, w.pendingOrder)
    ensures Survives(env, w, e, suspects, lost)
  {
    hide QueueSound, HandlesBut, CacheSound, Fifo, Agree, Suspects, Buffered;
  }

  lemma MoreSurvives(env: Env, w: World, e1: nat, e2: nat, s1: set<Uid>, s2: set<Uid>, lost: set<Handle>)
    requires Survives(env, w, e1, s1, lost) && e1 <= e2 && s1 <= s2
    ensures Survives(env, w, e2, s2, lost)
  {
    hide QueueSound, HandlesBut, CacheSound, Fifo, Agree;
  }

  // ----- ingesting -----

  lemma WithdrawSurvives(env: Env, w: World, uid: Uid, e: nat, suspects: set<Uid>, lost: set<Handle>)
    requires Survives(env, w, e, suspects, lost)
    ensures Survives(env, Withdraw(w, uid), e, suspects, lost)
  {
    WithdrawKeepsQueue(w.pendingOrder, w.pendingKind, w.outstanding, {}, uid);
    WithdrawKeepsFifo(w.past.journal, w.writes, w.pendingOrder, uid);
    var w1 := Withdraw(w, uid);
    assert QueueSound(w1.pendingOrder, w1.pendingKind, w1.outstanding, {});
    hide QueueSound, HandlesBut, CacheSound, Fifo, Agree, Mark, Without;
  }

  lemma CloseSentSurvives(env: Env, w: World, uid: Uid, e: nat, suspects: set<Uid>, lost: set<Handle>)
    requires Survives(env, w, e, suspects, lost) && uid in w.handles
    ensures Survives(env, CloseSent(env, ForgetHandle(w, uid), w.handles[uid]), e, suspects, lost)
    ensures Survives(env, CloseHandle(env, ForgetHandle(w, uid), w.handles[uid]), e, suspects, lost)
  {
    hide QueueSound, HandlesBut, CacheSound, Fifo;
    AgreeWithout(w.handleOrder, w.handles, uid);
    CloseKeepsLives(env, w.calls, w.handles, lost, uid, env.sinkOk(|w.calls|));
    hide Agree, Without;
  }

  lemma EnqueueKeepsQueue(order: seq<Uid>, kinds: map<Uid, EventKind>, outstanding: Option<Uid>, uid: Uid,
                          kind: EventKind)
    requires QueueSound(order, kinds, outstanding, {})
    requires uid !in kinds && (outstanding == Some(uid) || WaitingLen(kinds, outstanding) < MAX_PENDING_UIDS)
    ensures QueueSound(order + [uid], kinds[uid := kind], outstanding, {})
  {
    AgreePush(order, kinds, uid, kind);
    assert |kinds[uid := kind]| == |kinds| + 1;
    hide Agree;
  }

  lemma EnqueueSurvives(env: Env, w: World, uid: Uid, kind: EventKind, e: nat, suspects: set<Uid>, lost: set<Handle>)
    requires Survives(env, w, e, suspects, lost)
    requires uid !in w.pendingKind && (w.outstanding == Some(uid) || PendingLen(w) < MAX_PENDING_UIDS)
    ensures Survives(env, Enqueue(w, uid, kind), e, suspects, lost)
  {
    EnqueueKeepsQueue(w.pendingOrder, w.pendingKind, w.outstanding, uid, kind);
    EnqueueKeepsFifo(w.past.journal, w.writes, w.pendingOrder, uid);
    hide QueueSound, HandlesBut, CacheSound, Fifo, Agree;
  }

  lemma MarkModifiedSurvives(env: Env, w: World, uid: Uid, e: nat, suspects: set<Uid>, lost: set<Handle>)
    requires Survives(env, w, e, suspects, lost) && uid in w.pendingKind
    ensures Survives(env, w.(pendingKind := w.pendingKind[uid := Modified]), e, suspects, lost)
  {
    hide HandlesBut, CacheSound, Fifo;
    assert w.pendingKind[uid := Modified].Keys == w.pendingKind.Keys;
  }

  lemma IngestSurvives(env: Env, w: World, event: NotificationEvent, e: nat, suspects: set<Uid>, lost: set<Handle>)
    requires Survives(env, w, e, suspects, lost)
    ensures Survives(env, Ingest(env, w, event), e, suspects, lost)
    ensures forall left :: InIngest(env, w, event, left) ==> Survives(env, left, e, suspects, lost)
  {
    var uid := event.uid;
    hide QueueSound, HandlesBut, CacheSound, Fifo, Agree, Buffered, Suspects;
    if event.kind == Removed {
      WithdrawSurvives(env, w, uid, e, suspects, lost);
      hide Withdraw, ForgetHandle, CloseHandle, CloseSent;
      if uid in Withdraw(w, uid).handles {
        CloseSentSurvives(env, Withdraw(w, uid), uid, e, suspects, lost);
      }
    } else if event.PreExisting() {
    } else if uid in w.pendingKind {
      MarkModifiedSurvives(env, w, uid, e, suspects, lost);
    } else if w.outstanding == Some(uid) || PendingLen(w) < MAX_PENDING_UIDS {
      EnqueueSurvives(env, w, uid, if w.outstanding == Some(uid) then Modified else event.kind, e, suspects, lost);
      hide Enqueue;
    }
  }

  lemma PacketSurvives(env: Env, w: World, packet: seq<byte>, e: nat, suspects: set<Uid>, lost: set<Handle>)
    requires Survives(env, w, e, suspects, lost)
    ensures Survives(env, IngestPacket(env, w, packet), e, suspects, lost)
    ensures forall left :: InPacket(env, w, packet, left) ==> Survives(env, left, e, suspects, lost)
  {
    hide ParseEvent, Ingest, InIngest, QueueSound, HandlesBut, CacheSound, Fifo, Agree;
    if ParseEvent(packet).Ok? {
      IngestSurvives(env, w, ParseEvent(packet).value, e, suspects, lost);
    }
  }

  // ----- requests -----

  lemma FeedSurvives(b: Buffer, fragment: seq<byte>, expectations: nat)
    requires Buffered(b, expectations)
    ensures Buffered(Feed(b, fragment).after, expectations)
    ensures var p := Feed(b, fragment);
            p.outcome.Ok? && p.outcome.value != [] ==> expectations > 0 && Buffered(p.after, expectations - 1)
  {
    BufferStaysBounded(b, fragment);
    var b1 := b.(bytes := b.bytes + fragment);
    DrainShrinks(b1);
    DrainPops(b1);
    hide Drain;
  }

  lemma DrainPops(b: Buffer)
    ensures Drain(b).decoded != [] ==> |Drain(b).rest.expected| < |b.expected|
  {
    hide Parse;
    if b.expected != [] && Parse(b.bytes, b.expected[0]).Done? {
      DrainShrinks(Buffer(b.bytes[Parse(b.bytes, b.expected[0]).consumed..], b.expected[1..]));
    }
  }

  /** Waiting keeps everything; an answer uses up at least one expectation. */
  lemma {:induction false} WaitSurvives(env: Env, w: World, e: nat, suspects: set<Uid>, lost: set<Handle>)
    requires Survives(env, w, e, suspects, lost)
    ensures Survives(env, Wait(env, w).w, e, suspects, lost)
    ensures Wait(env, w).got.Some? ==> e > 0 && Survives(env, Wait(env, w).w, e - 1, suspects, lost)
    ensures forall left :: InWait(env, w, left) ==> Survives(env, left, e, suspects, lost)
    decreases |w.inbox|
  {
    hide QueueSound, HandlesBut, CacheSound, Fifo, Agree, Suspects, IngestPacket, InPacket, Feed;
    if w.inbox != [] {
      var w1 := w.(inbox := w.inbox[1..]);
      match w.inbox[0]
      case Timeout =>
      case StreamFailure =>
      case DataSource(fragment) =>
        FeedSurvives(w.decoder, fragment, e);
        var p := Feed(w1.decoder, fragment);
        if p.outcome == Ok([]) {
          WaitSurvives(env, w1.(decoder := p.after), e, suspects, lost);
        }
      case NotificationSource(packet) =>
        PacketSurvives(env, w1, packet, e, suspects, lost);
        WaitSurvives(env, IngestPacket(env, w1, packet), e, suspects, lost);
    }
  }

  lemma ClearSurvives(env: Env, w: World, e1: nat, e2: nat, suspects: set<Uid>, lost: set<Handle>)
    requires Survives(env, w, e1, suspects, lost)
    ensures Survives(env, w.(decoder := CLEAR), e2, suspects, lost)
  {
    hide QueueSound, HandlesBut, CacheSound, Fifo, Agree, Suspects;
  }

  /** A request that ends leaves no more expectations than before; one that is dropped leaves one more. */
  lemma SentSurvives(env: Env, w: World, expected: Expectation, request: seq<byte>, e: nat, suspects: set<Uid>,
                     lost: set<Handle>)
    requires Survives(env, WriteControl(env, w.(decoder := Expecting(w.decoder, expected)), request).w, e + 1, suspects,
                      lost)
    ensures Survives(env, Fetch(env, w, expected, request).w, e, suspects, lost)
    ensures forall left :: InFetch(env, w, expected, request, left) ==> Survives(env, left, e + 1, suspects, lost)
  {
    var sent := WriteControl(env, w.(decoder := Expecting(w.decoder, expected)), request);
    hide Survives, Wait, InWait, WriteControl;
    WaitSurvives(env, sent.w, e + 1, suspects, lost);
    ClearSurvives(env, sent.w, e + 1, e, suspects, lost);
    ClearSurvives(env, Wait(env, sent.w).w, e + 1, e, suspects, lost);
  }

  lemma ExpectingSurvives(env: Env, w: World, expected: Expectation, e: nat, suspects: set<Uid>, lost: set<Handle>)
    requires Survives(env, w, e, suspects, lost)
    ensures Survives(env, w.(decoder := Expecting(w.decoder, expected)), e + 1, suspects, lost)
  {
    hide QueueSound, HandlesBut, CacheSound, Fifo, Agree, Suspects;
  }

  // ----- app names -----

  lemma AppSentSurvives(env: Env, w: World, app: Text, request: seq<byte>, e: nat, suspects: set<Uid>, lost: set<Handle>)
    requires Survives(env, w, e, suspects, lost) && !IsAttributesRequest(request)
    ensures Survives(env, WriteControl(env, w.(decoder := Expecting(w.decoder, ExpectApp(app))), request).w, e + 1,
                     suspects, lost)
  {
    ExpectingSurvives(env, w, ExpectApp(app), e, suspects, lost);
    RequestedPush(w.writes, request);
    hide QueueSound, HandlesBut, CacheSound, Agree, Suspects, Buffered, UidsOf, RequestedUids, InOrder;
  }

  lemma RetainSurvives(env: Env, w: World, app: Text, name: Text, e: nat, suspects: set<Uid>, lost: set<Handle>)
    requires Survives(env, w, e, suspects, lost) && app !in w.appNames
    ensures Survives(env, RetainAppName(w, app, name), e, suspects, lost)
  {
    hide QueueSound, HandlesBut, Fifo, Agree, Suspects, Buffered, EvictApps;
    RetainKeepsCache(w.appNames, w.appOrder, w.past.lookups, app, name);
    hide CacheSound;
  }

  lemma AppNameSurvives(env: Env, w: World, app: Text, e: nat, suspects: set<Uid>, lost: set<Handle>)
    requires Survives(env, w, e, suspects, lost)
    ensures Survives(env, AppName(env, w, app).w, e, suspects, lost)
    ensures forall left :: InAppName(env, w, app, left) ==> Survives(env, left, e + 1, suspects, lost)
  {
    hide Survives, Fetch, RetainAppName, InFetch;
    if app !in w.appNames && AppAttributesRequest(app).Ok? {
      var request := AppAttributesRequest(app).value;
      AppSentSurvives(env, w, app, request, e, suspects, lost);
      SentSurvives(env, w, ExpectApp(app), request, e, suspects, lost);
      var r := Fetch(env, w, ExpectApp(app), request);
      FetchFrame(env, w, ExpectApp(app), request);
      FailureSurvives(env, r.w, e, suspects, lost);
      if r.got.Some? && r.got.value.AppAttributes? {
        RetainSurvives(env, r.w, app, r.got.value.displayName, e, suspects, lost);
      }
    } else {
      FailureSurvives(env, w, e, suspects, lost);
    }
    hide *;
  }

  lemma FailureSurvives(env: Env, w: World, e: nat, suspects: set<Uid>, lost: set<Handle>)
    requires Survives(env, w, e, suspects, lost)
    ensures Survives(env, NoteAppFailure(w), e, suspects, lost) && Survives(env, NoteAttributeFailure(w), e, suspects, lost)
    ensures Survives(env, NoteCancelled(w), e, suspects, lost)
    ensures Survives(env, NoteError(w, DesktopDeliveryFailed), e, suspects, lost)
    ensures Survives(env, CountDelivered(w), e, suspects, lost)
  {
    hide QueueSound, HandlesBut, CacheSound, Fifo, Agree, Suspects, Buffered;
  }

  lemma InboxSurvives(env: Env, w: World, inbox: seq<Input>, e: nat, suspects: set<Uid>, lost: set<Handle>)
    requires Survives(env, w, e, suspects, lost)
    ensures Survives(env, w.(inbox := inbox), e, suspects, lost)
  {
    hide QueueSound, HandlesBut, CacheSound, Fifo, Agree, Suspects, Buffered;
  }

  // ----- delivery -----

  lemma {:induction false} EvictSurvives(env: Env, w: World, e: nat, suspects: set<Uid>, lost: set<Handle>)
    requires Unevicted(env, w, e, suspects, lost) && |w.handles| <= MAX_ACTIVE_NOTIFICATIONS + 1
    ensures Survives(env, EvictHandles(env, w), e, suspects, lost)
    ensures forall left :: InEvict(env, w, left) ==> Survives(env, left, e, suspects, lost)
  {
    hide QueueSound, HandlesBut, CacheSound, Fifo, Agree, Suspects, Buffered;
    if |w.handles| > MAX_ACTIVE_NOTIFICATIONS {
      AgreeSize(w.handleOrder, w.handles);
      AgreePop(w.handleOrder, w.handles);
      var oldest := w.handleOrder[0];
      var w2 := w.(handleOrder := w.handleOrder[1..], handles := w.handles - {oldest});
      CloseKeepsLives(env, w.calls, w.handles, lost, oldest, env.sinkOk(|w.calls|));
      assert |w2.handles| == |w.handles| - 1;
      var closed := CloseHandle(env, w2, w.handles[oldest]);
      assert EvictHandles(env, closed) == closed;
      assert forall left :: !InEvict(env, closed, left);
      assert Survives(env, CloseSent(env, w2, w.handles[oldest]), e, suspects, lost);
    }
  }

  lemma MappedSurvives(env: Env, w: World, uid: Uid, payload: Payload, e: nat, suspects: set<Uid>, lost: set<Handle>)
    requires FreshIds(env) && Survives(env, w, e, suspects, lost) && env.sinkOk(|w.calls|)
    ensures Unevicted(env, Mapped(env, w, uid, payload), e, suspects, lost)
    ensures |Mapped(env, w, uid, payload).handles| <= MAX_ACTIVE_NOTIFICATIONS + 1
  {
    hide QueueSound, HandlesBut, CacheSound, Fifo, Agree, Suspects, Buffered;
    if uid in w.handles {
      OtherCallKeepsLives(env, w.calls, w.handles, lost, Replace(w.handles[uid], payload, true));
      assert w.handles[uid := w.handles[uid]] == w.handles;
    } else {
      CreateAndMapKeepsLives(env, w.calls, w.handles, lost, uid, payload);
      AgreePush(w.handleOrder, w.handles, uid, env.newId(|w.calls|));
      assert |w.handles[uid := env.newId(|w.calls|)]| == |w.handles| + 1;
    }
  }

  /** The handle that is lost if a delivery is dropped before its outcome is looked at. */
  function LostBy(env: Env, w: World, uid: Uid): set<Handle> {
    if uid !in w.handles && env.sinkOk(|w.calls|) then {env.newId(|w.calls|)} else {}
  }

  lemma CalledSurvives(env: Env, w: World, uid: Uid, payload: Payload, e: nat, suspects: set<Uid>, lost: set<Handle>)
    requires FreshIds(env) && Survives(env, w, e, suspects, lost)
    ensures Survives(env, Called(env, w, uid, payload), e, suspects, lost + LostBy(env, w, uid))
    ensures LostBy(env, w, uid) != {} ==>
              env.newId(|w.calls|) !in lost && JustCreated(Called(env, w, uid, payload).calls, env.newId(|w.calls|))
  {
    hide QueueSound, HandlesBut, CacheSound, Fifo, Agree, Suspects, Buffered;
    var ok := env.sinkOk(|w.calls|);
    assert lost + {} == lost;
    if uid in w.handles {
      OtherCallKeepsLives(env, w.calls, w.handles, lost, Replace(w.handles[uid], payload, ok));
    } else if ok {
      CreateKeepsLives(env, w.calls, w.handles, lost, payload);
    } else {
      OtherCallKeepsLives(env, w.calls, w.handles, lost, Create(payload, None));
    }
    hide Survives, Unevicted;
    Assemble(env, Called(env, w, uid, payload), e, suspects, lost + LostBy(env, w, uid));
  }

  lemma DeliverIsCallThenMap(env: Env, w: World, uid: Uid, payload: Payload)
    ensures Deliver(env, w, uid, payload)
         == if env.sinkOk(|w.calls|) then CountDelivered(EvictHandles(env, Mapped(env, w, uid, payload)))
            else NoteError(Called(env, w, uid, payload), DesktopDeliveryFailed)
  {}

  lemma DeliverSurvives(env: Env, w: World, uid: Uid, payload: Payload, e: nat, suspects: set<Uid>, lost: set<Handle>)
    requires FreshIds(env) && Survives(env, w, e, suspects, lost)
    ensures Survives(env, Deliver(env, w, uid, payload), e, suspects, lost)
  {
    DeliverIsCallThenMap(env, w, uid, payload);
    var mapped := Mapped(env, w, uid, payload);
    hide Survives, Unevicted, EvictHandles, Mapped, Called, Deliver, NoteError, CountDelivered, FreshIds;
    if env.sinkOk(|w.calls|) {
      MappedSurvives(env, w, uid, payload, e, suspects, lost);
      EvictSurvives(env, mapped, e, suspects, lost);
      FailureSurvives(env, EvictHandles(env, mapped), e, suspects, lost);
    } else {
      CalledSurvives(env, w, uid, payload, e, suspects, lost);
      assert lost + LostBy(env, w, uid) == lost;
      FailureSurvives(env, Called(env, w, uid, payload), e, suspects, lost);
    }
  }

  /** The last call of all created the handle. */
  predicate JustCreated(calls: seq<SinkCall>, h: Handle) {
    calls != [] && calls[|calls| - 1].Create? && calls[|calls| - 1].made == Some(h)
  }

  /** What a dropped operation leaves: nothing worse, or the handle just created is lost. */
  ghost predicate Remains(env: Env, left: World, e: nat, suspects: set<Uid>, lost: set<Handle>) {
    Survives(env, left, e, suspects, lost)
    || exists h :: h !in lost && JustCreated(left.calls, h) && Survives(env, left, e, suspects, lost + {h})
  }

  // ----- one queued UID -----

  lemma DeliverRemains(env: Env, w: World, uid: Uid, payload: Payload, left: World, e: nat, suspects: set<Uid>,
                       lost: set<Handle>)
    requires FreshIds(env) && Survives(env, w, e, suspects, lost) && InDeliver(env, w, uid, payload, left)
    ensures Remains(env, left, e, suspects, lost)
  {
    hide Survives, Unevicted, InEvict, Mapped, Called, FreshIds;
    if left == Called(env, w, uid, payload) {
      CalledSurvives(env, w, uid, payload, e, suspects, lost);
      assert lost + {} == lost;
    } else {
      MappedSurvives(env, w, uid, payload, e, suspects, lost);
      EvictSurvives(env, Mapped(env, w, uid, payload), e, suspects, lost);
    }
  }

  lemma PresentSurvives(env: Env, w: World, uid: Uid, app: Text, title: Text, message: Text, e: nat, suspects: set<Uid>,
                        lost: set<Handle>)
    requires FreshIds(env) && Survives(env, w, e, suspects, lost)
    ensures Survives(env, Present(env, w, uid, app, title, message), e, suspects, lost)
  {
    var n := AppName(env, w, app);
    hide Survives, AppName, Deliver, FreshIds;
    AppNameSurvives(env, w, app, e, suspects, lost);
    if uid in n.w.canceled {
      UncancelSurvives(env, n.w, uid, e, suspects, lost);
    } else {
      DeliverSurvives(env, n.w, uid, Payload(n.name, title, message), e, suspects, lost);
    }
  }

  lemma PresentRemains(env: Env, w: World, uid: Uid, app: Text, title: Text, message: Text, left: World, e: nat,
                       suspects: set<Uid>, lost: set<Handle>)
    requires FreshIds(env) && Survives(env, w, e, suspects, lost) && InPresent(env, w, uid, app, title, message, left)
    ensures Remains(env, left, e + 1, suspects, lost)
  {
    var n := AppName(env, w, app);
    hide Survives, AppName, InAppName, InDeliver, Remains, FreshIds;
    AppNameSurvives(env, w, app, e, suspects, lost);
    if InAppName(env, w, app, left) {
      SurvivorRemains(env, left, e + 1, suspects, lost);
    } else {
      DeliverRemains(env, n.w, uid, Payload(n.name, title, message), left, e, suspects, lost);
      MoreRemains(env, left, e, e + 1, suspects, suspects, lost);
    }
  }

  lemma SurvivorRemains(env: Env, left: World, e: nat, suspects: set<Uid>, lost: set<Handle>)
    requires Survives(env, left, e, suspects, lost)
    ensures Remains(env, left, e, suspects, lost)
  {
    hide Survives;
  }

  lemma UncancelSurvives(env: Env, w: World, uid: Uid, e: nat, suspects: set<Uid>, lost: set<Handle>)
    requires Survives(env, w, e, suspects, lost)
    ensures Survives(env, w.(canceled := w.canceled - {uid}), e, suspects, lost)
  {
    hide QueueSound, HandlesBut, CacheSound, Fifo, Agree, Buffered;
  }

  lemma ReleaseSurvives(env: Env, w: World, uid: Uid, e: nat, suspects: set<Uid>, lost: set<Handle>)
    requires Survives(env, w, e, suspects + {uid}, lost)
    ensures Survives(env, w.(outstanding := None, canceled := w.canceled - {uid}), e, suspects, lost)
  {
    hide HandlesBut, CacheSound, Fifo, Agree, Buffered;
  }

  lemma SettleForms(env: Env, uid: Uid, r: Reply)
    ensures var w := r.w.(outstanding := None, canceled := r.w.canceled - {uid});
            Settle(env, uid, r) ==
              if r.got.None? || !r.got.value.NotificationAttributes? then NoteAttributeFailure(w)
              else if uid in r.w.canceled then NoteCancelled(w)
              else Present(env, w, uid, r.got.value.appIdentifier, r.got.value.title, r.got.value.message)
  {
    hide Present, NoteAttributeFailure, NoteCancelled;
  }

  lemma SettleSurvives(env: Env, uid: Uid, r: Reply, e: nat, suspects: set<Uid>, lost: set<Handle>)
    requires FreshIds(env) && Survives(env, r.w, e, suspects + {uid}, lost)
    ensures Survives(env, Settle(env, uid, r), e, suspects, lost)
  {
    var w := r.w.(outstanding := None, canceled := r.w.canceled - {uid});
    SettleForms(env, uid, r);
    ReleaseSurvives(env, r.w, uid, e, suspects, lost);
    hide *;
    if r.got.Some? && r.got.value.NotificationAttributes? {
      PresentSurvives(env, w, uid, r.got.value.appIdentifier, r.got.value.title, r.got.value.message, e, suspects, lost);
    }
    FailureSurvives(env, w, e, suspects, lost);
  }

  lemma TakeKeepsBound(order: seq<Uid>, kinds: map<Uid, EventKind>, outstanding: Option<Uid>)
    requires QueueSound(order, kinds, outstanding, {}) && order != []
    ensures order[0] in kinds && Distinct(order) && QueueSound(order[1..], kinds - {order[0]}, Some(order[0]), {})
  {
    AgreePop(order, kinds);
    assert |kinds - {order[0]}| == |kinds| - 1;
  }

  lemma TakenSurvives(env: Env, w: World, e: nat, suspects: set<Uid>, lost: set<Handle>)
    requires Survives(env, w, e, suspects, lost) && w.pendingOrder != []
    ensures var uid := w.pendingOrder[0];
            && uid in w.pendingKind
            && Survives(env, WriteControl(env, Take(w).(decoder := Expecting(w.decoder, ExpectNotification(uid))),
                                          NotificationAttributesRequest(uid)).w, e + 1, suspects + {uid}, lost)
  {
    var uid := w.pendingOrder[0];
    TakenParts(w, suspects, e);
    hide QueueSound, HandlesBut, CacheSound, Fifo, Agree, Suspects, Buffered, Mark, NotificationAttributesRequest, Distinct,
         WriteControl, Take, Expecting;
    TakenSent(env, w);
    Assemble(env, WriteControl(env, Take(w).(decoder := Expecting(w.decoder, ExpectNotification(uid))),
                               NotificationAttributesRequest(uid)).w, e + 1, suspects + {uid}, lost);
  }

  lemma TakenParts(w: World, suspects: set<Uid>, e: nat)
    requires QueueSound(w.pendingOrder, w.pendingKind, w.outstanding, {}) && w.pendingOrder != []
    requires Fifo(w.past.journal, w.writes, w.pendingOrder)
    requires Suspects(w.canceled, w.outstanding, suspects) && Buffered(w.decoder, e)
    ensures var uid := w.pendingOrder[0];
            && uid in w.pendingKind && QueueSound(w.pendingOrder[1..], w.pendingKind - {uid}, Some(uid), {})
            && Fifo(Mark(w.past.journal, uid, Requested), w.writes + [NotificationAttributesRequest(uid)],
                    w.pendingOrder[1..])
            && Suspects(w.canceled - {uid}, Some(uid), suspects + {uid})
            && Buffered(Expecting(w.decoder, ExpectNotification(uid)), e + 1)
  {
    hide Fifo, NotificationAttributesRequest, Mark;
    TakeKeepsBound(w.pendingOrder, w.pendingKind, w.outstanding);
    TakeKeepsFifo(w.past.journal, w.writes, w.pendingOrder);
  }

  lemma TakenSent(env: Env, w: World)
    requires w.pendingOrder != []
    ensures var uid := w.pendingOrder[0];
            WriteControl(env, Take(w).(decoder := Expecting(w.decoder, ExpectNotification(uid))),
                         NotificationAttributesRequest(uid)).w
            == w.(pendingOrder := w.pendingOrder[1..], pendingKind := w.pendingKind - {uid}, outstanding := Some(uid),
                  canceled := w.canceled - {uid}, decoder := Expecting(w.decoder, ExpectNotification(uid)),
                  writes := w.writes + [NotificationAttributesRequest(uid)],
                  past := w.past.(journal := Mark(w.past.journal, uid, Requested)))
  {
    hide NotificationAttributesRequest, Mark;
  }

  lemma ReplySurvives(env: Env, w: World, e: nat, suspects: set<Uid>, lost: set<Handle>)
    requires Survives(env, w, e, suspects, lost) && w.pendingOrder != []
    ensures var uid := w.pendingOrder[0];
            && uid in w.pendingKind && Survives(env, AttributesReply(env, w).w, e, suspects + {uid}, lost)
            && forall left :: InFetch(env, Take(w), ExpectNotification(uid), NotificationAttributesRequest(uid), left) ==>
                 Survives(env, left, e + 1, suspects + {uid}, lost)
  {
    var uid := w.pendingOrder[0];
    TakenSurvives(env, w, e, suspects, lost);
    TakeKeepsDecoder(w);
    hide Survives, Fetch, InFetch, Take, NotificationAttributesRequest, WriteControl;
    SentSurvives(env, Take(w), ExpectNotification(uid), NotificationAttributesRequest(uid), e, suspects + {uid}, lost);
  }

  lemma TakeKeepsDecoder(w: World)
    requires w.pendingOrder != []
    ensures Take(w).decoder == w.decoder
  {}

  /** A completed `process_next` adds nothing to what earlier drops have left. */
  lemma ProcessSurvives(env: Env, w: World, e: nat, suspects: set<Uid>, lost: set<Handle>)
    requires FreshIds(env) && Survives(env, w, e, suspects, lost)
    ensures Survives(env, ProcessNext(env, w).w, e, suspects, lost)
  {
    hide Survives, AttributesReply, Settle, FreshIds;
    if w.pendingOrder != [] {
      ReplySurvives(env, w, e, suspects, lost);
      SettleSurvives(env, w.pendingOrder[0], AttributesReply(env, w), e, suspects, lost);
    }
  }

  lemma ProcessNeedsQueue(env: Env, w: World, left: World)
    requires InProcess(env, w, left)
    ensures w.pendingOrder != []
  {
    hide InFetch, InPresent, AttributesReply;
  }

  lemma ProcessRemains(env: Env, w: World, left: World, e: nat, suspects: set<Uid>, lost: set<Handle>)
    requires FreshIds(env) && Survives(env, w, e, suspects, lost) && InProcess(env, w, left)
    ensures Remains(env, left, e + 1, suspects + {w.pendingOrder[0]}, lost)
  {
    hide Survives, InFetch, InPresent, AttributesReply, Take, NotificationAttributesRequest, Remains, FreshIds;
    var uid, r := w.pendingOrder[0], AttributesReply(env, w);
    ReplySurvives(env, w, e, suspects, lost);
    if InFetch(env, Take(w), ExpectNotification(uid), NotificationAttributesRequest(uid), left) {
      SurvivorRemains(env, left, e + 1, suspects + {uid}, lost);
    } else {
      ReleaseSurvives(env, r.w, uid, e, suspects, lost);
      PresentRemains(env, r.w.(outstanding := None, canceled := r.w.canceled - {uid}), uid,
                     r.got.value.appIdentifier, r.got.value.title, r.got.value.message, left, e, suspects, lost);
      MoreRemains(env, left, e + 1, e + 1, suspects, suspects + {uid}, lost);
    }
  }

  lemma MoreRemains(env: Env, left: World, e1: nat, e2: nat, s1: set<Uid>, s2: set<Uid>, lost: set<Handle>)
    requires Remains(env, left, e1, s1, lost) && e1 <= e2 && s1 <= s2
    ensures Remains(env, left, e2, s2, lost)
  {
    hide Survives;
    if Survives(env, left, e1, s1, lost) {
      MoreSurvives(env, left, e1, e2, s1, s2, lost);
    } else {
      var h :| h !in lost && JustCreated(left.calls, h) && Survives(env, left, e1, s1, lost + {h});
      MoreSurvives(env, left, e1, e2, s1, s2, lost + {h});
    }
  }

  /**
   * Dropping the handling of a packet, wherever it stands, adds at most one suspect, one expectation and one lost
   * handle.
   */
  lemma HandlingRemains(env: Env, w: World, packet: seq<byte>, left: World, e: nat, suspects: set<Uid>, lost: set<Handle>)
    returns (uid: Uid)
    requires FreshIds(env) && Survives(env, w, e, suspects, lost) && InHandling(env, w, packet, left)
    ensures Remains(env, left, e + 1, suspects + {uid}, lost)
  {
    hide ParseEvent, Ingest, InIngest, InProcess, Survives, Remains, FreshIds;
    var event := ParseEvent(packet).value;
    IngestSurvives(env, w, event, e, suspects, lost);
    var w1 := Ingest(env, w, event);
    if InIngest(env, w, event, left) {
      MoreSurvives(env, left, e, e + 1, suspects, suspects + {event.uid}, lost);
      uid := event.uid;
      SurvivorRemains(env, left, e + 1, suspects + {uid}, lost);
    } else {
      ProcessNeedsQueue(env, w1, left);
      uid := w1.pendingOrder[0];
      ProcessRemains(env, w1, left, e, suspects, lost);
    }
  }

  // ----- end of a session -----

  lemma {:induction false} CloseAllKeepsLives(env: Env, w: World, handles: map<Uid, Handle>, remaining: map<Uid, Handle>,
                                              order: seq<Uid>, lost: set<Handle>)
    requires forall uid :: uid in remaining ==> uid in handles && handles[uid] == remaining[uid]
    requires Lists(order, remaining.Keys) && HandlesBut(env, w.calls, remaining, lost)
    ensures var r := CloseAll(env, w, handles, order);
            r == w.(calls := r.calls, meta := r.meta) && HandlesBut(env, r.calls, map[], lost)
    decreases |order|
  {
    hide HandlesBut;
    if order == [] {
      ListsSize(order, remaining.Keys);
      assert remaining == map[];
    } else {
      var uid := order[0];
      CloseKeepsLives(env, w.calls, remaining, lost, uid, env.sinkOk(|w.calls|));
      AgreePop(order, remaining);
      CloseAllKeepsLives(env, CloseHandle(env, w, handles[uid]), handles, remaining - {uid}, order[1..], lost);
    }
  }

  /** Ending the session clears everything but the lost handles, which nothing closes. */
  lemma EndSurvives(env: Env, w: World, e1: nat, e2: nat, s1: set<Uid>, s2: set<Uid>, lost: set<Handle>)
    requires DrainsAll(env) && Survives(env, w, e1, s1, lost)
    ensures Survives(env, End(env, w), e2, s2, lost) && Empty(End(env, w))
  {
    var order := env.drain(|w.calls|, w.handles.Keys);
    CloseAllKeepsLives(env, w.(handles := map[]), w.handles, w.handles, order, lost);
    EndKeepsFifo(w.past.journal, w.writes, w.pendingOrder);
    EmptyIsSound(env);
    EndForm(env, w);
    assert Suspects({}, None, s2) && Buffered(CLEAR, e2);
    hide QueueSound, HandlesBut, CacheSound, Fifo, Agree, CloseAll, DiscardAll, DrainsAll, Survives, Unevicted, End,
         Suspects, Buffered;
    Assemble(env, End(env, w), e2, s2, lost);
  }

  lemma EndForm(env: Env, w: World)
    requires DrainsAll(env)
    ensures var closed := CloseAll(env, w.(handles := map[]), w.handles, env.drain(|w.calls|, w.handles.Keys));
            closed.past == w.past && closed.writes == w.writes && closed.handles == map[]
            ==> var r := End(env, w);
                && r.pendingOrder == [] && r.pendingKind == map[] && r.outstanding == None && r.canceled == {}
                && r.calls == closed.calls && r.handles == map[] && r.handleOrder == []
                && r.appNames == map[] && r.appOrder == [] && r.past.lookups == [] && r.decoder == CLEAR
                && r.past.journal == DiscardAll(w.past.journal) && r.writes == w.writes
  {
    hide CloseAll, DiscardAll;
  }

  // ----- runs -----

  lemma StepSurvives(env: Env, w: World, step: Step, e: nat, suspects: set<Uid>, lost: set<Handle>)
    requires GoodEnv(env) && Survives(env, w, e, suspects, lost)
    ensures Survives(env, Do(env, w, step), e, suspects, lost)
  {
    hide Survives, Ingest, ProcessNext, End;
    match step
    case IngestStep(event) => IngestSurvives(env, w, event, e, suspects, lost);
    case ProcessStep(inbox) =>
      InboxSurvives(env, w, inbox, e, suspects, lost);
      ProcessSurvives(env, w.(inbox := inbox), e, suspects, lost);
    case EndStep => EndSurvives(env, w, e, e, suspects, suspects, lost);
  }

  /** What `drops` drops can have added to a world that survived with `lost`. */
  ghost predicate Outlives(env: Env, w: World, e: nat, suspects: nat, lost: set<Handle>, drops: nat) {
    exists who, more ::
      Survives(env, w, e + drops, who, more) && |who| <= suspects + drops && lost <= more && |more| <= |lost| + drops
  }

  lemma DropOutlives(env: Env, w: World, s: DropStep, e: nat, suspects: set<Uid>, lost: set<Handle>)
    requires GoodEnv(env) && Survives(env, w, e, suspects, lost)
    ensures Outlives(env, DoOrDrop(env, w, s), e, |suspects|, lost, if s.Dropped? then 1 else 0)
  {
    hide Survives, Do, InHandling, Remains, DrainsAll, FreshIds;
    match s
    case Whole(step) =>
      StepSurvives(env, w, step, e, suspects, lost);
      SurvivorOutlives(env, Do(env, w, step), e, 0, suspects, lost, |suspects|, lost);
    case Dropped(packet, inbox, left) =>
      if Possible(env, w, s) {
        InboxSurvives(env, w, inbox, e, suspects, lost);
        var uid := HandlingRemains(env, w.(inbox := inbox), packet, left, e, suspects, lost);
        RemainsOutlives(env, left, e, suspects, uid, lost);
      } else {
        MoreSurvives(env, w, e, e + 1, suspects, suspects, lost);
        SurvivorOutlives(env, w, e, 1, suspects, lost, |suspects|, lost);
      }
  }

  lemma SurvivorOutlives(env: Env, w: World, e: nat, drops: nat, who: set<Uid>, more: set<Handle>, suspects: nat,
                         lost: set<Handle>)
    requires Survives(env, w, e + drops, who, more)
    requires |who| <= suspects + drops && lost <= more && |more| <= |lost| + drops
    ensures Outlives(env, w, e, suspects, lost, drops)
  {
    hide Survives;
  }

  lemma WhatOutlives(env: Env, w: World, e: nat, suspects: nat, lost: set<Handle>, drops: nat)
    returns (who: set<Uid>, more: set<Handle>)
    requires Outlives(env, w, e, suspects, lost, drops)
    ensures Survives(env, w, e + drops, who, more)
    ensures |who| <= suspects + drops && lost <= more && |more| <= |lost| + drops
  {
    hide Survives;
    who, more :|
      Survives(env, w, e + drops, who, more) && |who| <= suspects + drops && lost <= more && |more| <= |lost| + drops;
  }

  lemma RemainsOutlives(env: Env, left: World, e: nat, suspects: set<Uid>, uid: Uid, lost: set<Handle>)
    requires Remains(env, left, e + 1, suspects + {uid}, lost)
    ensures Outlives(env, left, e, |suspects|, lost, 1)
  {
    hide Survives;
    assert |suspects + {uid}| <= |suspects| + 1;
    if Survives(env, left, e + 1, suspects + {uid}, lost) {
      SurvivorOutlives(env, left, e, 1, suspects + {uid}, lost, |suspects|, lost);
    } else {
      var h :| h !in lost && JustCreated(left.calls, h) && Survives(env, left, e + 1, suspects + {uid}, lost + {h});
      assert |lost + {h}| <= |lost| + 1;
      SurvivorOutlives(env, left, e, 1, suspects + {uid}, lost + {h}, |suspects|, lost);
    }
  }

  /** Any run, with any packets dropped anywhere. */
  lemma {:induction false} RunOutlives(env: Env, w: World, steps: seq<DropStep>, e: nat, suspects: set<Uid>,
                                       lost: set<Handle>)
    requires GoodEnv(env) && Survives(env, w, e, suspects, lost)
    ensures Outlives(env, RunWithDrops(env, w, steps), e, |suspects|, lost, Drops(steps))
    decreases |steps|
  {
    hide Survives, DoOrDrop, DrainsAll, FreshIds, Outlives;
    if steps == [] {
      SurvivorOutlives(env, w, e, 0, suspects, lost, |suspects|, lost);
    } else {
      var d := if steps[0].Dropped? then 1 else 0;
      var w1 := DoOrDrop(env, w, steps[0]);
      DropOutlives(env, w, steps[0], e, suspects, lost);
      var who, more := WhatOutlives(env, w1, e, |suspects|, lost, d);
      RunOutlives(env, w1, steps[1..], e + d, who, more);
      var last := RunWithDrops(env, w1, steps[1..]);
      var who2, more2 := WhatOutlives(env, last, e + d, |who|, more, Drops(steps[1..]));
      assert e + d + Drops(steps[1..]) == e + Drops(steps);
      SurvivorOutlives(env, last, e, Drops(steps), who2, more2, |suspects|, lost);
    }
  }
}
