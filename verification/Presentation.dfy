/** What a removal takes away, and that what is shown for a UID is what was fetched for that UID. */
module Presentation {
  import opened Bytes
  import opened Codec
  import opened Decoder
  import opened Collections
  import opened Session
  import opened SessionInvariants
  import opened Requests
  import opened SessionRuns

  // ----- ingesting -----

  /**
   * A removal leaves nothing of its UID behind, closes exactly the handle that was its own, and touches no other UID.
   */
  lemma RemovalForgets(env: Env, w: World, event: NotificationEvent, other: Uid)
    requires event.kind == Removed && other != event.uid && Agree(w.pendingOrder, w.pendingKind)
    ensures var uid, r := event.uid, Ingest(env, w, event);
            && uid !in r.pendingOrder && uid !in r.pendingKind && uid !in r.handles
            && (w.outstanding == Some(uid) ==> uid in r.canceled)
            && r.calls == (if uid in w.handles then w.calls + [Close(w.handles[uid], env.sinkOk(|w.calls|))] else w.calls)
            && (other in r.pendingOrder <==> other in w.pendingOrder)
            && (other in r.handles <==> other in w.handles) && (other in w.handles ==> r.handles[other] == w.handles[other])
            && (other in r.canceled <==> other in w.canceled)
  {}

  // ----- presenting -----

  lemma {:induction false} WaitKeepsLookups(env: Env, w: World)
    ensures Wait(env, w).w.past.lookups == w.past.lookups
    decreases |w.inbox|
  {
    hide Feed, ParseEvent;
    if w.inbox != [] && !w.inbox[0].Timeout? && !w.inbox[0].StreamFailure? {
      var w1 := w.(inbox := w.inbox[1..]);
      match w.inbox[0]
      case DataSource(fragment) => WaitKeepsLookups(env, w1.(decoder := Feed(w1.decoder, fragment).after));
      case NotificationSource(packet) =>
        IngestKeepsLookups(env, w1, packet);
        WaitKeepsLookups(env, IngestPacket(env, w1, packet));
    }
    hide Ingest, IngestPacket;
  }

  lemma IngestKeepsLookups(env: Env, w: World, packet: seq<byte>)
    ensures IngestPacket(env, w, packet).past.lookups == w.past.lookups
  {
    hide ParseEvent, Without, WaitingLen;
  }

  lemma FetchKeepsLookups(env: Env, w: World, expected: Expectation, request: seq<byte>)
    ensures Fetch(env, w, expected, request).w.past.lookups == w.past.lookups
  {
    hide Wait;
    WaitKeepsLookups(env, WriteControl(env, w.(decoder := Expecting(w.decoder, expected)), request).w);
  }

  lemma CachedWasLookedUp(names: map<Text, Text>, order: seq<Text>, lookups: seq<(Text, Text)>, app: Text)
    requires CacheSound(names, order, lookups) && app in names
    ensures (app, names[app]) in lookups
  {}

  /**
   * The name for an app is a cached one that was looked up in this session, or the one whose encoding was just
   * received, which is then remembered, or, if the lookup failed, the identifier itself.
   */
  lemma NameIsLookedUp(env: Env, w: World, app: Text)
    requires CacheSound(w.appNames, w.appOrder, w.past.lookups) && w.decoder == CLEAR
    ensures var n := AppName(env, w, app);
            || (n.w == w && (app, n.name) in w.past.lookups)
            || (n.name == app && n.w.past.lookups == w.past.lookups)
            || (n.w.past.lookups == w.past.lookups + [(app, n.name)] && |n.w.inbox| <= |w.inbox|
                && Encodable(AppAttributes(app, n.name))
                && Encode(AppAttributes(app, n.name)) == Received(Taken(w.inbox, n.w.inbox)))
  {
    if app in w.appNames {
      CachedWasLookedUp(w.appNames, w.appOrder, w.past.lookups, app);
    } else if AppAttributesRequest(app).Ok? {
      var request := AppAttributesRequest(app).value;
      FetchKeepsLookups(env, w, ExpectApp(app), request);
      FetchIsExact(env, w, ExpectApp(app), request);
    }
    hide Fetch, CacheSound, Encode, Received, EvictApps;
  }

  lemma {:induction false} EvictKeepsPast(env: Env, w: World)
    ensures EvictHandles(env, w).past == w.past
    decreases |w.handleOrder|
  {
    if |w.handles| > MAX_ACTIVE_NOTIFICATIONS && w.handleOrder != [] {
      var oldest := w.handleOrder[0];
      var w1 := w.(handleOrder := w.handleOrder[1..]);
      EvictKeepsPast(env, if oldest in w.handles
                          then CloseHandle(env, w1.(handles := w.handles - {oldest}), w.handles[oldest]) else w1);
    }
  }

  lemma {:induction false} EvictExtends(env: Env, w: World)
    ensures w.calls <= EvictHandles(env, w).calls
    decreases |w.handleOrder|
  {
    if |w.handles| > MAX_ACTIVE_NOTIFICATIONS && w.handleOrder != [] {
      var oldest := w.handleOrder[0];
      var w1 := w.(handleOrder := w.handleOrder[1..]);
      if oldest in w.handles {
        var closed := CloseHandle(env, w1.(handles := w.handles - {oldest}), w.handles[oldest]);
        assert w.calls <= closed.calls;
        EvictExtends(env, closed);
      } else {
        EvictExtends(env, w1);
      }
    }
  }

  /** The payload of the first sink call of a delivery, and the UID it is filed under. */
  lemma DeliveryShows(env: Env, w: World, uid: Uid, payload: Payload)
    ensures var next := Deliver(env, w, uid, payload);
            && |next.calls| > |w.calls|
            && (var c := next.calls[|w.calls|];
                if uid in w.handles then c == Replace(w.handles[uid], payload, env.sinkOk(|w.calls|))
                else c.Create? && c.payload == payload)
  {
    var n := |w.calls|;
    var ok := env.sinkOk(n);
    var known := uid in w.handles;
    var c :=
      if known then Replace(w.handles[uid], payload, ok)
      else Create(payload, if ok then Some(env.newId(n)) else None);
    var id := if known then w.handles[uid] else env.newId(n);
    EvictExtends(env, w.(calls := w.calls + [c], handles := w.handles[uid := id],
                         handleOrder := if known then w.handleOrder else w.handleOrder + [uid]));
    hide EvictHandles;
  }

  /** Making room evicts the oldest notification, never the one just shown. */
  lemma EvictKeepsNewest(env: Env, w: World, uid: Uid)
    requires Agree(w.handleOrder, w.handles) && uid in w.handles && |w.handles| <= MAX_ACTIVE_NOTIFICATIONS + 1
    requires w.handleOrder[|w.handleOrder| - 1] == uid || |w.handles| <= MAX_ACTIVE_NOTIFICATIONS
    ensures var r := EvictHandles(env, w); uid in r.handles && r.handles[uid] == w.handles[uid]
  {}

  /** A call presents `payload`, and if it succeeds its handle is the one mapped to the UID. */
  predicate Presents(c: SinkCall, payload: Payload, handles: map<Uid, Handle>, uid: Uid) {
    match c
    case Create(p, made) => p == payload && (made.Some? ==> uid in handles && handles[uid] == made.value)
    case Replace(h, p, _) => p == payload && uid in handles && handles[uid] == h
    case Close(_, _) => false
  }

  lemma DeliverPresents(env: Env, w: World, uid: Uid, payload: Payload)
    requires Agree(w.handleOrder, w.handles) && |w.handles| <= MAX_ACTIVE_NOTIFICATIONS
    ensures var next := Deliver(env, w, uid, payload);
            |next.calls| > |w.calls| && Presents(next.calls[|w.calls|], payload, next.handles, uid) && next.past == w.past
  {
    DeliveryShows(env, w, uid, payload);
    var n := |w.calls|;
    var known := uid in w.handles;
    var id := if known then w.handles[uid] else env.newId(n);
    var c :=
      if known then Replace(id, payload, env.sinkOk(n))
      else Create(payload, if env.sinkOk(n) then Some(id) else None);
    var w1 := w.(calls := w.calls + [c], handles := w.handles[uid := id],
                 handleOrder := if known then w.handleOrder else w.handleOrder + [uid]);
    if known {
      AgreeUpdate(w.handleOrder, w.handles, uid, id);
    } else {
      AgreePush(w.handleOrder, w.handles, uid, id);
    }
    if env.sinkOk(n) {
      EvictKeepsPast(env, w1);
      EvictExtends(env, w1);
      EvictKeepsNewest(env, w1, uid);
    }
    hide EvictHandles, Agree;
  }

  /**
   * From sink call number `from` on, the title and message fetched for `uid` are presented under the name of their
   * app.
   */
  ghost predicate Shown(from: nat, got: Response, next: World, uid: Uid)
    requires got.NotificationAttributes?
  {
    exists i, name ::
      && from <= i < |next.calls| && Presents(next.calls[i], Payload(name, got.title, got.message), next.handles, uid)
      && (name == got.appIdentifier || (got.appIdentifier, name) in next.past.lookups)
  }

  lemma PresentShows(env: Env, w: World, uid: Uid, got: Response)
    requires Sound(env, w, 0, 1) && w.outstanding == None && w.decoder == CLEAR && got.NotificationAttributes?
    ensures Shown(|w.calls|, got, Present(env, w, uid, got.appIdentifier, got.title, got.message), uid)
  {
    hide AppName, Deliver, CacheSound, HandlesSound, Agree, Presents, Encode, Received, Encodable, QueueSound, Balanced,
         Taken;
    var n := AppName(env, w, got.appIdentifier);
    AppNameKeeps(env, w, got.appIdentifier, 1);
    AppNameExtends(env, w, got.appIdentifier);
    NameIsLookedUp(env, w, got.appIdentifier);
    UncancelledAtRest(env, n.w, uid);
    DeliverPresents(env, n.w, uid, Payload(n.name, got.title, got.message));
    hide Sound;
    var next := Present(env, w, uid, got.appIdentifier, got.title, got.message);
    assert next == Deliver(env, n.w, uid, Payload(n.name, got.title, got.message));
    assert Presents(next.calls[|n.w.calls|], Payload(n.name, got.title, got.message), next.handles, uid);
  }

  lemma UncancelledAtRest(env: Env, w: World, uid: Uid)
    requires Sound(env, w, 0, 1) && w.outstanding == None
    ensures uid !in w.canceled
  {
    hide Agree, HandlesSound, CacheSound, Balanced;
  }

  lemma {:induction false} WaitExtends(env: Env, w: World)
    ensures |Wait(env, w).w.calls| >= |w.calls|
    decreases |w.inbox|
  {
    hide Feed, IngestPacket;
    if w.inbox != [] && !w.inbox[0].Timeout? && !w.inbox[0].StreamFailure? {
      var w1 := w.(inbox := w.inbox[1..]);
      match w.inbox[0]
      case DataSource(fragment) => WaitExtends(env, w1.(decoder := Feed(w1.decoder, fragment).after));
      case NotificationSource(packet) =>
        PacketExtends(env, w1, packet);
        WaitExtends(env, IngestPacket(env, w1, packet));
    }
  }

  lemma PacketExtends(env: Env, w: World, packet: seq<byte>)
    ensures |IngestPacket(env, w, packet).calls| >= |w.calls|
  {
    hide ParseEvent, Without, WaitingLen, Mark;
  }

  lemma AppNameExtends(env: Env, w: World, app: Text)
    ensures |AppName(env, w, app).w.calls| >= |w.calls|
  {
    if AppAttributesRequest(app).Ok? {
      WaitExtends(env, WriteControl(env, w.(decoder := Expecting(w.decoder, ExpectApp(app))),
        AppAttributesRequest(app).value).w);
    }
    hide Wait;
  }

  lemma SettleShows(env: Env, uid: Uid, r: Reply)
    requires Sound(env, r.w, 0, 1) && r.w.outstanding == Some(uid) && r.w.decoder == CLEAR && uid !in r.w.canceled
    requires r.got.Some? && r.got.value.NotificationAttributes?
    ensures Shown(|r.w.calls|, r.got.value, Settle(env, uid, r), uid)
  {
    ReleaseKeeps(env, r.w, uid);
    hide Sound, Present, Shown;
    PresentShows(env, r.w.(outstanding := None, canceled := r.w.canceled - {uid}), uid, r.got.value);
  }

  /**
   * What is shown for a UID is what was fetched for it: unless it was removed meanwhile, the attributes received for
   * the oldest queued UID are presented with their own title and message, under a name looked up for their app, on
   * the handle of that UID.
   */
  lemma ShowsWhatWasFetched(env: Env, w: World)
    requires Quiet(env, w) && w.pendingOrder != []
    ensures var uid, reply := w.pendingOrder[0], AttributesReply(env, w);
            reply.got.Some? && !RemovedIn(Taken(w.inbox, reply.w.inbox), uid) ==>
              && reply.got.value.NotificationAttributes? && reply.got.value.uid == uid
              && Shown(|reply.w.calls|, reply.got.value, ProcessNext(env, w).w, uid)
  {
    var uid, reply := w.pendingOrder[0], AttributesReply(env, w);
    ReplyIsSound(env, w);
    FetchCancels(env, Take(w), ExpectNotification(uid), NotificationAttributesRequest(uid), uid);
    hide Sound, Fetch, Settle, RemovedIn, Shown;
    if reply.got.Some? && uid !in reply.w.canceled {
      SettleShows(env, uid, reply);
    }
  }
}
