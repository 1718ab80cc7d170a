/** What the engine guarantees over every run, and exactly where its guarantees end. */
module SessionTheorems {
  import opened Bytes
  import opened Codec
  import opened Decoder
  import opened Collections
  import opened Session
  import opened SessionInvariants
  import opened Requests
  import opened SessionRuns

  /** States in which a run of completed operations can leave the engine. */
  ghost predicate Reachable(env: Env, w: World)
    requires DrainsAll(env)
  {
    exists steps :: w == Run(env, INITIAL, steps)
  }

  lemma ReachableIsQuiet(env: Env, w: World)
    requires GoodEnv(env) && Reachable(env, w)
    ensures Quiet(env, w)
  {
    hide Quiet, Run;
    var steps :| w == Run(env, INITIAL, steps);
    InitialIsQuiet(env);
    RunKeeps(env, INITIAL, steps);
  }

  // ----- the life of a handle, read off the calls themselves -----

  predicate About(c: SinkCall, h: Handle) {
    match c
    case Create(_, made) => made == Some(h)
    case Replace(g, _, _) => g == h
    case Close(g, _) => g == h
  }

  function OnHandle(calls: seq<SinkCall>, h: Handle): seq<SinkCall>
    decreases |calls|
  {
    if calls == [] then []
    else OnHandle(calls[..|calls| - 1], h) + if About(calls[|calls| - 1], h) then [calls[|calls| - 1]] else []
  }

  /** Nothing, or one Create, then Replaces, then at most one Close. */
  ghost predicate OneLife(p: seq<SinkCall>) {
    p == [] || (p[0].Create? && forall i :: 0 < i < |p| ==> p[i].Replace? || (p[i].Close? && i == |p| - 1))
  }

  predicate Ended(p: seq<SinkCall>) {
    p != [] && p[|p| - 1].Close?
  }

  lemma LifeGrows(p: seq<SinkCall>, c: SinkCall)
    requires c.Create? || c.Replace? || c.Close?
    ensures OneLife(p + [c]) <==> OneLife(p) && (if p == [] then c.Create? else !Ended(p) && !c.Create?)
  {
    var q := p + [c];
    assert q[|p|] == c;
    assert forall i :: 0 <= i < |p| ==> p[i] == q[i];
  }

  /** The phase automaton recognises exactly the calls that form one life. */
  lemma {:induction false} PhaseIsLife(calls: seq<SinkCall>, h: Handle)
    ensures var p := OnHandle(calls, h);
            && (PhaseOf(calls, h) != Broken <==> OneLife(p))
            && (PhaseOf(calls, h) == Unborn <==> p == [])
            && (PhaseOf(calls, h) == Gone <==> OneLife(p) && Ended(p))
    decreases |calls|
  {
    if calls != [] {
      var before, c := calls[..|calls| - 1], calls[|calls| - 1];
      PhaseIsLife(before, h);
      var p := OnHandle(before, h);
      if About(c, h) {
        LifeGrows(p, c);
        assert OnHandle(calls, h) == p + [c];
      } else {
        assert OnHandle(calls, h) == p + [] == p;
      }
      hide OneLife;
    }
  }

  /** At any reachable point the calls on each handle form one life, and the mapped handles are those not yet closed. */
  lemma HandleDiscipline(env: Env, w: World, h: Handle)
    requires GoodEnv(env) && Reachable(env, w)
    ensures OneLife(OnHandle(w.calls, h))
    ensures h in w.handles.Values <==> OnHandle(w.calls, h) != [] && !Ended(OnHandle(w.calls, h))
    ensures forall u, v :: u in w.handles && v in w.handles && w.handles[u] == w.handles[v] ==> u == v
  {
    ReachableIsQuiet(env, w);
    hide Reachable, QueueSound, CacheSound, Balanced, OneLife, OnHandle, PhaseOf;
    PhaseIsLife(w.calls, h);
    if h in w.handles.Values {
      var uid :| uid in w.handles && w.handles[uid] == h;
    }
  }

  /** Once a session has ended every handle that was ever created has had exactly its one close attempt. */
  lemma EveryHandleIsClosedAtEnd(env: Env, w: World, h: Handle)
    requires GoodEnv(env) && Reachable(env, w)
    ensures var p := OnHandle(End(env, w).calls, h); p == [] || (OneLife(p) && Ended(p))
  {
    ReachableIsQuiet(env, w);
    EndKeeps(env, w, 0);
    var e := End(env, w);
    hide Reachable, QueueSound, CacheSound, Balanced, OneLife, OnHandle, PhaseOf, End, Agree;
    PhaseIsLife(e.calls, h);
    assert h !in e.handles.Values;
  }

  /** Bounds, agreement of queues and maps, and the meaning of a positive `pending_len` at rest. */
  lemma ContainersAtRest(env: Env, w: World)
    requires GoodEnv(env) && Reachable(env, w)
    ensures Agree(w.pendingOrder, w.pendingKind) && Agree(w.handleOrder, w.handles) && Agree(w.appOrder, w.appNames)
    ensures PendingLen(w) <= MAX_PENDING_UIDS && |w.handles| <= MAX_ACTIVE_NOTIFICATIONS && |w.appNames| <= MAX_CACHED_APPS
    ensures w.outstanding == None && w.canceled == {} && w.decoder == CLEAR
    ensures PendingLen(w) == |w.pendingOrder|
  {
    ReachableIsQuiet(env, w);
    hide Reachable, HandlesSound, Balanced, Agree;
    AgreeSize(w.pendingOrder, w.pendingKind);
    AgreeSize(w.appOrder, w.appNames);
  }

  /** The cache is the last hundred successful lookups of the session, under distinct keys, each with its own name. */
  lemma CacheIsTheLastHundredLookups(env: Env, w: World)
    requires GoodEnv(env) && Reachable(env, w)
    ensures var recent := Recent(w.past.lookups);
            && |w.appOrder| == |recent| && Distinct(w.appOrder)
            && (forall app :: app in w.appNames <==> app in w.appOrder)
            && (forall i :: 0 <= i < |recent| ==> w.appOrder[i] == recent[i].0
                                                  && w.appOrder[i] in w.appNames
                                                    && w.appNames[w.appOrder[i]] == recent[i].1)
  {
    ReachableIsQuiet(env, w);
    hide Reachable, HandlesSound, QueueSound, Balanced, Recent;
  }

  /** Conservation of work: nothing enqueued, requested or failed is lost or counted twice. */
  lemma WorkIsConserved(env: Env, w: World)
    requires GoodEnv(env) && Reachable(env, w)
    ensures w.past.accepted == AttributesRequests(w.writes) + w.past.withdrawn + w.past.discarded + |w.pendingOrder|
    ensures AttributesRequests(w.writes) == Attempts(w.calls) + w.past.cancelled + w.past.attributeFailures
    ensures w.meta.delivered == Deliveries(w.calls)
    ensures w.meta.errors == FailedCalls(w.calls) + w.past.attributeFailures + w.past.appFailures + w.past.malformed
  {
    ReachableIsQuiet(env, w);
    hide Reachable, HandlesSound, QueueSound, CacheSound, Attempts, Deliveries, FailedCalls, AttributesRequests;
  }

  /**
   * The attributes request for the oldest queued UID returns an answer exactly when an uninterrupted prefix of what
   * arrives carries its encoding; the answer names that UID, accounts for every octet received, and leaves no octet
   * over.
   */
  lemma AttributesAreExact(env: Env, w: World, answer: Response)
    requires GoodEnv(env) && Quiet(env, w) && w.pendingOrder != []
    ensures var uid := w.pendingOrder[0];
            var r := AttributesReply(env, w);
            && r.w.decoder == CLEAR
            && (r.got.Some? ==> r.got.value.NotificationAttributes? && r.got.value.uid == uid
                                && Encodable(r.got.value) && Encode(r.got.value) == Received(Taken(w.inbox, r.w.inbox)))
            && (r.got == Some(answer) <==>
                  env.writeOk(|w.writes|) && exists k :: Delivers(w.inbox, k, [], ExpectNotification(uid), answer))
  {
    var uid := w.pendingOrder[0];
    ReplyIsSound(env, w);
    hide Sound, Fetch, Parse, Delivers, Encode, Received;
    FetchIsExact(env, Take(w), ExpectNotification(uid), NotificationAttributesRequest(uid));
    FetchSucceedsExactly(env, Take(w), ExpectNotification(uid), NotificationAttributesRequest(uid), answer);
  }

  // ----- a removal during the app lookup is lost -----

  /** The three packets: attributes of `uid`, its removal, then the name of its app. */
  function LateRemoval(uid: Uid, app: Text, title: Text, message: Text, name: Text): seq<Input>
    requires Encodable(NotificationAttributes(uid, app, title, message)) && Encodable(AppAttributes(app, name))
  {
    [DataSource(Encode(NotificationAttributes(uid, app, title, message))),
     NotificationSource(EncodeEvent(NotificationEvent(Removed, 0, Other, 1, uid))),
     DataSource(Encode(AppAttributes(app, name)))]
  }

  lemma WaitForWholeAnswer(env: Env, w: World, expected: Expectation, answer: Response)
    requires w.decoder == Buffer([], [expected]) && Answers(answer, expected)
    requires w.inbox != [] && w.inbox[0] == DataSource(Encode(answer))
    ensures Wait(env, w) == Reply(w.(inbox := w.inbox[1..], decoder := CLEAR), Some(answer))
  {
    AnswersFitTheBuffer(answer, expected);
    hide Parse, Answers, Feed, Encode;
    var octets := Encode(answer);
    assert [] + octets == octets;
    FeedWhole([], expected, octets, answer);
  }

  lemma WaitTakesEvent(env: Env, w: World, event: NotificationEvent)
    requires CanonicalEvent(event) && w.inbox != [] && w.inbox[0] == NotificationSource(EncodeEvent(event))
    ensures Wait(env, w) == Wait(env, Ingest(env, w.(inbox := w.inbox[1..]), event))
  {
    EventCodecIsBijective(EncodeEvent(event), event);
    hide ParseEvent, EncodeEvent, Ingest, Feed;
  }

  lemma RemovalAtRest(env: Env, w: World, event: NotificationEvent)
    requires event.kind == Removed && w.outstanding == None && event.uid !in w.handles
    ensures var r := Ingest(env, w, event);
            r.calls == w.calls && r.handles == w.handles && r.canceled == w.canceled && r.appNames == w.appNames
            && r.outstanding == None && r.handleOrder == w.handleOrder
  {}

  lemma FetchWholeAnswer(env: Env, w: World, expected: Expectation, request: seq<byte>, answer: Response)
    requires w.decoder == CLEAR && Answers(answer, expected) && env.writeOk(|w.writes|)
    requires w.inbox != [] && w.inbox[0] == DataSource(Encode(answer))
    ensures Fetch(env, w, expected, request)
         == Reply(w.(inbox := w.inbox[1..], writes := w.writes + [request]), Some(answer))
  {
    hide Parse, Answers, Feed, Encode;
    var sent := WriteControl(env, w.(decoder := Expecting(w.decoder, expected)), request);
    assert sent.w.decoder == Buffer([], [expected]);
    WaitForWholeAnswer(env, sent.w, expected, answer);
  }

  lemma WholeAttributesAtOnce(env: Env, w: World, answer: Response)
    requires w.pendingOrder != [] && w.decoder == CLEAR && env.writeOk(|w.writes|)
    requires Answers(answer, ExpectNotification(w.pendingOrder[0]))
    requires w.inbox != [] && w.inbox[0] == DataSource(Encode(answer))
    ensures var r := AttributesReply(env, w);
            r.got == Some(answer)
            && exists request :: r.w == Take(w).(inbox := w.inbox[1..], writes := w.writes + [request])
  {
    hide Answers, Encode, Fetch, NotificationAttributesRequest;
    var uid := w.pendingOrder[0];
    FetchWholeAnswer(env, Take(w), ExpectNotification(uid), NotificationAttributesRequest(uid), answer);
  }

  /** A lookup during which a removal of an unmapped UID arrives still succeeds and cancels nothing. */
  lemma LookupIgnoresRemoval(env: Env, w: World, app: Text, name: Text, removal: NotificationEvent)
    requires w.decoder == CLEAR && w.outstanding == None && removal.uid !in w.handles && app !in w.appNames && app != []
    requires Answers(AppAttributes(app, name), ExpectApp(app)) && removal.kind == Removed && CanonicalEvent(removal)
    requires w.inbox == [NotificationSource(EncodeEvent(removal)), DataSource(Encode(AppAttributes(app, name)))]
    requires env.writeOk(|w.writes|)
    ensures var n := AppName(env, w, app);
            n.name == name && n.w.inbox == [] && n.w.canceled == w.canceled && n.w.calls == w.calls
            && n.w.handles == w.handles && n.w.handleOrder == w.handleOrder
  {
    var answer := AppAttributes(app, name);
    assert 0 !in app;
    var request := AppAttributesRequest(app).value;
    var sent := WriteControl(env, w.(decoder := Expecting(w.decoder, ExpectApp(app))), request).w;
    assert sent.decoder == Buffer([], [ExpectApp(app)]);
    var noted := Ingest(env, sent.(inbox := sent.inbox[1..]), removal);
    hide Parse, Answers, Feed, Encode, EncodeEvent, Ingest, EvictApps, Wait;
    WaitTakesEvent(env, sent, removal);
    RemovalAtRest(env, sent.(inbox := sent.inbox[1..]), removal);
    WaitForWholeAnswer(env, noted, ExpectApp(app), answer);
    assert Fetch(env, w, ExpectApp(app), request) == Reply(noted.(inbox := [], decoder := CLEAR), Some(answer));
    hide Fetch;
  }

  lemma FirstDelivery(env: Env, w: World, uid: Uid, payload: Payload)
    requires uid !in w.handles && |w.handles| < MAX_ACTIVE_NOTIFICATIONS && env.sinkOk(|w.calls|)
    ensures var next := Deliver(env, w, uid, payload);
            && next.calls == w.calls + [Create(payload, Some(env.newId(|w.calls|)))]
            && next.handles == w.handles[uid := env.newId(|w.calls|)]
            && next.inbox == w.inbox
  {}

  /** Attributes that were not cancelled are presented under the UID that was taken from the queue. */
  lemma UncancelledIsPresented(env: Env, w: World, got: Response)
    requires w.pendingOrder != [] && w.pendingOrder[0] in w.pendingKind && got.NotificationAttributes?
    requires AttributesReply(env, w).got == Some(got) && w.pendingOrder[0] !in AttributesReply(env, w).w.canceled
    ensures ProcessNext(env, w).w
         == Present(env, AttributesReply(env, w).w.(outstanding := None), w.pendingOrder[0],
                    got.appIdentifier, got.title, got.message)
  {
    hide AttributesReply, Present;
    var r := AttributesReply(env, w);
    assert r.w.canceled - {w.pendingOrder[0]} == r.w.canceled;
  }

  /**
   * A removal that arrives while the app name is looked up cancels nothing: the notification is created afterwards
   * and stays mapped, although the phone has removed it.
   */
  lemma RemovalDuringAppLookupIsLost(env: Env, w: World, app: Text, title: Text, message: Text, name: Text)
    requires Quiet(env, w) && w.pendingOrder != []
    requires var uid := w.pendingOrder[0];
             && Answers(NotificationAttributes(uid, app, title, message), ExpectNotification(uid))
             && Answers(AppAttributes(app, name), ExpectApp(app)) && app != []
             && uid !in w.handles && |w.handles| < MAX_ACTIVE_NOTIFICATIONS && app !in w.appNames
             && w.inbox == LateRemoval(uid, app, title, message, name)
    requires env.writeOk(|w.writes|) && env.writeOk(|w.writes| + 1) && env.sinkOk(|w.calls|)
    ensures var uid := w.pendingOrder[0];
            var next := ProcessNext(env, w).w;
            && next.inbox == []
            && next.calls == w.calls + [Create(Payload(name, title, message), Some(env.newId(|w.calls|)))]
            && uid in next.handles && next.handles[uid] == env.newId(|w.calls|)
  {
    var uid := w.pendingOrder[0];
    hide Answers, Encode, Sound, ProcessNext, AttributesReply, EncodeEvent;
    QuietQueue(env, w);
    var attributes := NotificationAttributes(uid, app, title, message);
    WholeAttributesAtOnce(env, w, attributes);
    UncancelledIsPresented(env, w, attributes);
    var w1 := AttributesReply(env, w).w.(outstanding := None);
    var removal := NotificationEvent(Removed, 0, Other, 1, uid);
    assert w1.inbox == [NotificationSource(EncodeEvent(removal)), DataSource(Encode(AppAttributes(app, name)))];
    LookupIgnoresRemoval(env, w1, app, name, removal);
    hide AppName, Deliver;
    FirstDelivery(env, AppName(env, w1, app).w, uid, Payload(name, title, message));
  }

  /** The event that announces a new notification. */
  function AddedEvent(uid: Uid): NotificationEvent {
    NotificationEvent(Added, 0, Other, 1, uid)
  }

  lemma AddedArrives(env: Env, w: World, uid: Uid)
    requires uid !in w.pendingKind && w.outstanding != Some(uid) && PendingLen(w) < MAX_PENDING_UIDS
    ensures ParseEvent(EncodeEvent(AddedEvent(uid))) == Ok(AddedEvent(uid))
    ensures Ingest(env, w, AddedEvent(uid)) == Enqueue(w, uid, Added)
    ensures IngestPacket(env, w, EncodeEvent(AddedEvent(uid))) == Enqueue(w, uid, Added)
  {
    EventCodecIsBijective(EncodeEvent(AddedEvent(uid)), AddedEvent(uid));
    hide ParseEvent, EncodeEvent, WaitingLen;
  }

  /**
   * It happens in the first two operations of a session: the UID is announced, then processed while its removal arrives
   * during the lookup.
   */
  lemma RemovalIsLostFromTheStart(uid: Uid, app: Text, title: Text, message: Text, name: Text) returns (env: Env)
    requires Answers(NotificationAttributes(uid, app, title, message), ExpectNotification(uid))
    requires Answers(AppAttributes(app, name), ExpectApp(app)) && app != []
    ensures GoodEnv(env)
    ensures var steps := [IngestStep(AddedEvent(uid)), ProcessStep(LateRemoval(uid, app, title, message, name))];
            var w := Run(env, INITIAL, steps);
            w.inbox == [] && uid in w.handles && w.calls == [Create(Payload(name, title, message), Some(w.handles[uid]))]
  {
    env := EnvironmentsExist((n: nat) => true, (n: nat) => true);
    var inbox := LateRemoval(uid, app, title, message, name);
    AddedArrives(env, INITIAL, uid);
    FirstIsQueued(env, uid, inbox);
    hide Answers, Encode, EncodeEvent, Quiet, ProcessNext, LateRemoval, FreshIds, DrainsAll, Ingest;
    var w1 := Enqueue(INITIAL, uid, Added).(inbox := inbox);
    RemovalDuringAppLookupIsLost(env, w1, app, title, message, name);
    RunTwo(env, INITIAL, IngestStep(AddedEvent(uid)), ProcessStep(inbox));
  }

  lemma FirstIsQueued(env: Env, uid: Uid, inbox: seq<Input>)
    requires GoodEnv(env)
    ensures Quiet(env, Enqueue(INITIAL, uid, Added).(inbox := inbox))
  {
    hide Quiet, Ingest, FreshIds, DrainsAll, EncodeEvent, ParseEvent, Enqueue;
    InitialIsQuiet(env);
    StepKeeps(env, INITIAL, IngestStep(AddedEvent(uid)));
    AddedArrives(env, INITIAL, uid);
    QuietInbox(env, Enqueue(INITIAL, uid, Added), inbox);
  }

  lemma QuietInbox(env: Env, w: World, inbox: seq<Input>)
    requires Quiet(env, w)
    ensures Quiet(env, w.(inbox := inbox))
  {
    hide QueueSound, HandlesSound, CacheSound, Agree, Attempts, Deliveries, FailedCalls, AttributesRequests;
  }

  lemma RunTwo(env: Env, w: World, first: Step, second: Step)
    requires DrainsAll(env)
    ensures Run(env, w, [first, second]) == Do(env, Do(env, w, first), second)
  {
    hide Do, DrainsAll;
    assert [first, second][1..] == [second];
    assert Run(env, Do(env, w, first), [second]) == Do(env, Do(env, w, first), second);
  }

  lemma QuietQueue(env: Env, w: World)
    requires Quiet(env, w)
    ensures w.canceled == {} && w.outstanding == None && w.decoder == CLEAR
    ensures w.pendingOrder != [] ==> w.pendingOrder[0] in w.pendingKind
  {}
}
