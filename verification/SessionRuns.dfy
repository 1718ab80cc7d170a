/** The engine over whole runs: every operation, and so every run, keeps `Quiet`. */
module SessionRuns {
  import opened Bytes
  import opened Codec
  import opened Decoder
  import opened Collections
  import opened Session
  import opened SessionInvariants
  import opened Requests

  lemma InitialIsQuiet(env: Env)
    ensures Quiet(env, INITIAL)
  {}

  // ----- requests -----

  lemma {:induction false} WaitKeeps(env: Env, w: World, unsent: nat, open: nat)
    requires Sound(env, w, unsent, open)
    ensures Sound(env, Wait(env, w).w, unsent, open)
    decreases |w.inbox|
  {
    hide QueueSound, HandlesSound, CacheSound, Attempts, Deliveries, FailedCalls, AttributesRequests, IngestPacket, Feed;
    if w.inbox != [] {
      var w1 := w.(inbox := w.inbox[1..]);
      match w.inbox[0]
      case Timeout =>
      case StreamFailure =>
      case DataSource(fragment) =>
        var p := Feed(w1.decoder, fragment);
        if p.outcome == Ok([]) { WaitKeeps(env, w1.(decoder := p.after), unsent, open); }
      case NotificationSource(packet) =>
        PacketKeeps(env, w1, packet, unsent, open);
        WaitKeeps(env, IngestPacket(env, w1, packet), unsent, open);
    }
  }

  lemma WriteCounts(writes: seq<seq<byte>>, request: seq<byte>)
    ensures AttributesRequests(writes + [request]) == AttributesRequests(writes) + if IsAttributesRequest(request)
            then 1 else 0
  {}

  /** Writing an attributes request moves the popped UID from `unsent` to `open`; any other write moves nothing. */
  lemma FetchKeeps(env: Env, w: World, expected: Expectation, request: seq<byte>, unsent: nat, open: nat)
    requires Sound(env, w, unsent, open)
    requires IsAttributesRequest(request) ==> unsent == 1
    ensures var moved := if IsAttributesRequest(request) then 1 else 0;
            Sound(env, Fetch(env, w, expected, request).w, unsent - moved, open + moved)
  {
    hide QueueSound, HandlesSound, CacheSound, Attempts, Deliveries, FailedCalls, AttributesRequests, Wait;
    WriteCounts(w.writes, request);
    var moved := if IsAttributesRequest(request) then 1 else 0;
    var sent := WriteControl(env, w.(decoder := Expecting(w.decoder, expected)), request);
    assert Sound(env, sent.w, unsent - moved, open + moved);
    WaitKeeps(env, sent.w, unsent - moved, open + moved);
  }

  // ----- app names -----

  lemma NewestLookups(lookups: seq<(Text, Text)>, entry: (Text, Text))
    ensures Recent(lookups + [entry]) ==
            if |lookups| < MAX_CACHED_APPS then Recent(lookups) + [entry] else Recent(lookups)[1..] + [entry]
  {}

  lemma HoldsPush(names: map<Text, Text>, order: seq<Text>, recent: seq<(Text, Text)>, app: Text, name: Text)
    requires Holds(names, order, recent) && app !in names
    ensures Holds(names[app := name], order + [app], recent + [(app, name)])
  {}

  lemma HoldsPop(names: map<Text, Text>, order: seq<Text>, recent: seq<(Text, Text)>)
    requires Holds(names, order, recent) && Agree(order, names) && order != []
    ensures Holds(names - {order[0]}, order[1..], recent[1..])
  {}

  /** A lookup of an uncached app appends it and drops at most the oldest entry: the cache stays the last hundred. */
  lemma RetainKeepsCache(names: map<Text, Text>, order: seq<Text>, lookups: seq<(Text, Text)>, app: Text, name: Text)
    requires CacheSound(names, order, lookups) && app !in names
    ensures var kept := EvictApps(names[app := name], order + [app]);
            CacheSound(kept.0, kept.1, lookups + [(app, name)])
  {
    var recent := Recent(lookups);
    var more, longer, later := names[app := name], order + [app], recent + [(app, name)];
    assert |order| == |recent| <= MAX_CACHED_APPS;
    AgreeSize(order, names);
    NewestLookups(lookups, (app, name));
    hide Agree, Holds, Recent, Lists;
    HoldsPush(names, order, recent, app, name);
    AgreePush(order, names, app, name);
    if |more| > MAX_CACHED_APPS {
      AgreePop(longer, more);
      HoldsPop(more, longer, later);
      AgreeSize(longer[1..], more - {longer[0]});
      assert EvictApps(more - {longer[0]}, longer[1..]) == (more - {longer[0]}, longer[1..]);
      assert later[1..] == recent[1..] + [(app, name)];
    }
  }

  lemma AppNameKeeps(env: Env, w: World, app: Text, open: nat)
    requires Sound(env, w, 0, open) && w.outstanding == None && w.decoder == CLEAR
    ensures var n := AppName(env, w, app).w;
            Sound(env, n, 0, open) && n.outstanding == None && n.decoder == CLEAR && Attempts(n.calls) == Attempts(w.calls)
  {
    hide QueueSound, HandlesSound, Attempts, Deliveries, FailedCalls, AttributesRequests, Fetch;
    if app !in w.appNames && AppAttributesRequest(app).Ok? {
      var request := AppAttributesRequest(app).value;
      FetchKeeps(env, w, ExpectApp(app), request, 0, open);
      FetchIsExact(env, w, ExpectApp(app), request);
      FetchFrame(env, w, ExpectApp(app), request);
      var r := Fetch(env, w, ExpectApp(app), request);
      if r.got.Some? && r.got.value.AppAttributes? {
        RetainKeeps(env, r.w, app, r.got.value.displayName, open);
      }
    }
    hide CacheSound, RetainAppName;
  }

  lemma RetainKeeps(env: Env, w: World, app: Text, name: Text, open: nat)
    requires Sound(env, w, 0, open) && app !in w.appNames
    ensures var r := RetainAppName(w, app, name);
            Sound(env, r, 0, open) && r.outstanding == w.outstanding && r.decoder == w.decoder && r.calls == w.calls
  {
    hide QueueSound, HandlesSound, Attempts, Deliveries, FailedCalls, AttributesRequests, EvictApps;
    RetainKeepsCache(w.appNames, w.appOrder, w.past.lookups, app, name);
    hide CacheSound;
  }

  lemma IngestFrame(env: Env, w: World, event: NotificationEvent)
    ensures var r := Ingest(env, w, event);
            r.appNames == w.appNames && r.writes == w.writes && Attempts(r.calls) == Attempts(w.calls)
  {
    hide Without, WaitingLen;
    if event.uid in w.handles {
      CountsPushed(w.calls, Close(w.handles[event.uid], env.sinkOk(|w.calls|)));
    }
    hide Attempts;
  }

  /** While a request waits the cache does not change, nothing is written and nothing is presented. */
  lemma {:induction false} WaitFrame(env: Env, w: World)
    ensures var r := Wait(env, w).w;
            r.appNames == w.appNames && r.writes == w.writes && Attempts(r.calls) == Attempts(w.calls)
    decreases |w.inbox|
  {
    hide Feed, Ingest, Attempts;
    if w.inbox != [] {
      var w1 := w.(inbox := w.inbox[1..]);
      match w.inbox[0]
      case Timeout =>
      case StreamFailure =>
      case DataSource(fragment) =>
        var p := Feed(w1.decoder, fragment);
        if p.outcome == Ok([]) { WaitFrame(env, w1.(decoder := p.after)); }
      case NotificationSource(packet) =>
        if ParseEvent(packet).Ok? { IngestFrame(env, w1, ParseEvent(packet).value); }
        WaitFrame(env, IngestPacket(env, w1, packet));
    }
  }

  lemma FetchFrame(env: Env, w: World, expected: Expectation, request: seq<byte>)
    ensures var r := Fetch(env, w, expected, request).w;
            r.appNames == w.appNames && r.writes == w.writes + [request] && Attempts(r.calls) == Attempts(w.calls)
  {
    hide Wait, Attempts;
    WaitFrame(env, WriteControl(env, w.(decoder := Expecting(w.decoder, expected)), request).w);
  }

  // ----- delivery -----

  /** Everything `Sound` says except the bound on the number of mapped notifications. */
  ghost predicate Unbounded(env: Env, w: World, unsent: nat, open: nat) {
    && QueueSound(w.pendingOrder, w.pendingKind, w.outstanding, w.canceled)
    && HandlesSound(env, w.calls, w.handles)
    && Agree(w.handleOrder, w.handles)
    && CacheSound(w.appNames, w.appOrder, w.past.lookups)
    && Balanced(w, unsent, open)
  }

  lemma {:induction false} EvictKeeps(env: Env, w: World, unsent: nat, open: nat)
    requires Unbounded(env, w, unsent, open)
    ensures var r := EvictHandles(env, w);
            Sound(env, r, unsent, open) && r.outstanding == w.outstanding && r.decoder == w.decoder
    decreases |w.handleOrder|
  {
    hide QueueSound, HandlesSound, CacheSound, Agree, Attempts, Deliveries, FailedCalls, AttributesRequests;
    if |w.handles| > MAX_ACTIVE_NOTIFICATIONS {
      AgreeSize(w.handleOrder, w.handles);
      var oldest := w.handleOrder[0];
      AgreePop(w.handleOrder, w.handles);
      var ok := env.sinkOk(|w.calls|);
      CountsPushed(w.calls, Close(w.handles[oldest], ok));
      CloseKeepsHandles(env, w.calls, w.handles, oldest, ok);
      EvictKeeps(env, CloseHandle(env, w.(handleOrder := w.handleOrder[1..], handles := w.handles - {oldest}),
                                  w.handles[oldest]), unsent, open);
    }
  }

  lemma DeliverKeeps(env: Env, w: World, uid: Uid, payload: Payload)
    requires FreshIds(env) && Sound(env, w, 0, 1)
    ensures var r := Deliver(env, w, uid, payload);
            Sound(env, r, 0, 0) && r.outstanding == w.outstanding && r.decoder == w.decoder
  {
    hide QueueSound, HandlesSound, CacheSound, Agree, Attempts, Deliveries, FailedCalls, AttributesRequests, EvictHandles;
    var n := |w.calls|;
    var ok := env.sinkOk(n);
    if uid in w.handles {
      var h := w.handles[uid];
      var c := Replace(h, payload, ok);
      CountsPushed(w.calls, c);
      OtherCallKeepsHandles(env, w.calls, w.handles, c);
      if ok {
        assert w.handles[uid := h] == w.handles;
        EvictKeepsDelivered(env, w.(calls := w.calls + [c]), 0);
      }
    } else if ok {
      var id := env.newId(n);
      CountsPushed(w.calls, Create(payload, Some(id)));
      CreateKeepsHandles(env, w.calls, w.handles, uid, payload);
      AgreePush(w.handleOrder, w.handles, uid, id);
      EvictKeepsDelivered(env, w.(calls := w.calls + [Create(payload, Some(id))], handles := w.handles[uid := id],
                                  handleOrder := w.handleOrder + [uid]), 0);
    } else {
      CountsPushed(w.calls, Create(payload, None));
      OtherCallKeepsHandles(env, w.calls, w.handles, Create(payload, None));
    }
  }

  /** Eviction commutes with counting the delivery, so the account is balanced once both are done. */
  lemma EvictKeepsDelivered(env: Env, w: World, unsent: nat)
    requires Unbounded(env, CountDelivered(w), unsent, 0)
    ensures var r := CountDelivered(EvictHandles(env, w));
            Sound(env, r, unsent, 0) && r.outstanding == w.outstanding && r.decoder == w.decoder
  {
    hide QueueSound, HandlesSound, CacheSound, Agree, EvictHandles, Balanced;
    EvictCommutes(env, w);
    EvictKeeps(env, CountDelivered(w), unsent, 0);
  }

  lemma CloseCommutes(env: Env, w: World, h: Handle)
    ensures CloseHandle(env, CountDelivered(w), h) == CountDelivered(CloseHandle(env, w, h))
  {}

  lemma {:induction false} EvictCommutes(env: Env, w: World)
    ensures EvictHandles(env, CountDelivered(w)) == CountDelivered(EvictHandles(env, w))
    decreases |w.handleOrder|
  {
    if |w.handles| > MAX_ACTIVE_NOTIFICATIONS && w.handleOrder != [] {
      var oldest := w.handleOrder[0];
      var w1 := w.(handleOrder := w.handleOrder[1..]);
      if oldest in w.handles {
        var w2 := w1.(handles := w.handles - {oldest});
        var h := w.handles[oldest];
        CloseCommutes(env, w2, h);
        assert CountDelivered(w).(handleOrder := w.handleOrder[1..], handles := w.handles - {oldest}) == CountDelivered(w2);
        var closed := CloseHandle(env, w2, h);
        hide CloseHandle, CountDelivered;
        EvictCommutes(env, closed);
      } else {
        EvictCommutes(env, w1);
      }
    }
  }

  // ----- one queued UID -----

  lemma TakeKeepsQueue(order: seq<Uid>, kinds: map<Uid, EventKind>, canceled: set<Uid>)
    requires QueueSound(order, kinds, None, canceled) && order != []
    ensures order[0] in kinds && QueueSound(order[1..], kinds - {order[0]}, Some(order[0]), canceled - {order[0]})
  {}

  /** The state in which the attributes request of the oldest queued UID ends. */
  lemma ReplyIsSound(env: Env, w: World)
    requires Quiet(env, w) && w.pendingOrder != []
    ensures w.pendingOrder[0] in w.pendingKind
    ensures var r := AttributesReply(env, w);
            Sound(env, r.w, 0, 1) && r.w.outstanding == Some(w.pendingOrder[0]) && r.w.decoder == CLEAR
            && Attempts(r.w.calls) == Attempts(w.calls)
            && (r.got.Some? ==> r.got.value.NotificationAttributes? && r.got.value.uid == w.pendingOrder[0])
  {
    hide QueueSound, HandlesSound, CacheSound, Attempts, Deliveries, FailedCalls, AttributesRequests, Fetch;
    var uid := w.pendingOrder[0];
    var expected, request := ExpectNotification(uid), NotificationAttributesRequest(uid);
    TakeKeepsQueue(w.pendingOrder, w.pendingKind, w.canceled);
    FetchKeeps(env, Take(w), expected, request, 1, 0);
    FetchIsExact(env, Take(w), expected, request);
    FetchFrame(env, Take(w), expected, request);
  }

  lemma PresentKeeps(env: Env, w: World, uid: Uid, app: Text, title: Text, message: Text)
    requires FreshIds(env) && Sound(env, w, 0, 1) && w.outstanding == None && w.decoder == CLEAR
    ensures Quiet(env, Present(env, w, uid, app, title, message))
    ensures Attempts(Present(env, w, uid, app, title, message).calls) == Attempts(w.calls) + 1
  {
    AppNameKeeps(env, w, app, 1);
    var n := AppName(env, w, app);
    assert n.w.canceled == {};
    hide QueueSound, HandlesSound, CacheSound, Attempts, Deliveries, FailedCalls, AttributesRequests, AppName, Deliver;
    var payload := Payload(n.name, title, message);
    DeliverKeeps(env, n.w, uid, payload);
    DeliverAttempts(env, n.w, uid, payload);
  }

  lemma {:induction false} EvictAttempts(env: Env, w: World)
    ensures Attempts(EvictHandles(env, w).calls) == Attempts(w.calls)
    decreases |w.handleOrder|
  {
    hide Attempts;
    if |w.handles| > MAX_ACTIVE_NOTIFICATIONS && w.handleOrder != [] {
      var oldest := w.handleOrder[0];
      var w1 := w.(handleOrder := w.handleOrder[1..]);
      if oldest in w.handles {
        CountsPushed(w.calls, Close(w.handles[oldest], env.sinkOk(|w.calls|)));
        EvictAttempts(env, CloseHandle(env, w1.(handles := w.handles - {oldest}), w.handles[oldest]));
      } else {
        EvictAttempts(env, w1);
      }
    }
  }

  lemma DeliverAttempts(env: Env, w: World, uid: Uid, payload: Payload)
    ensures Attempts(Deliver(env, w, uid, payload).calls) == Attempts(w.calls) + 1
  {
    hide Attempts, EvictHandles;
    var n := |w.calls|;
    var ok := env.sinkOk(n);
    var known := uid in w.handles;
    var c :=
      if known then Replace(w.handles[uid], payload, ok)
      else Create(payload, if ok then Some(env.newId(n)) else None);
    CountsPushed(w.calls, c);
    var id := if known then w.handles[uid] else env.newId(n);
    EvictAttempts(env, w.(calls := w.calls + [c], handles := w.handles[uid := id],
                          handleOrder := if known then w.handleOrder else w.handleOrder + [uid]));
  }

  lemma ReleaseKeeps(env: Env, w: World, uid: Uid)
    requires Sound(env, w, 0, 1) && w.outstanding == Some(uid)
    ensures Sound(env, w.(outstanding := None, canceled := w.canceled - {uid}), 0, 1)
  {}

  lemma SettleKeeps(env: Env, uid: Uid, r: Reply)
    requires FreshIds(env) && Sound(env, r.w, 0, 1) && r.w.outstanding == Some(uid) && r.w.decoder == CLEAR
    requires r.got.Some? ==> r.got.value.NotificationAttributes?
    ensures var next := Settle(env, uid, r);
            Quiet(env, next)
            && Attempts(next.calls) == Attempts(r.w.calls) + if r.got.Some? && uid !in r.w.canceled then 1 else 0
  {
    ReleaseKeeps(env, r.w, uid);
    hide QueueSound, HandlesSound, CacheSound, Attempts, Deliveries, FailedCalls, AttributesRequests, Present;
    if r.got.Some? && uid !in r.w.canceled {
      PresentKeeps(env, r.w.(outstanding := None, canceled := r.w.canceled - {uid}), uid,
                   r.got.value.appIdentifier, r.got.value.title, r.got.value.message);
    }
  }

  /**
   * Processing the oldest queued UID returns to rest, and presents it (one create or replace call) exactly when the
   * write succeeds and what arrives carries its attributes, undisturbed and before any removal of it.
   */
  lemma ProcessPresentsExactly(env: Env, w: World)
    requires FreshIds(env) && Quiet(env, w) && w.pendingOrder != []
    ensures var uid := w.pendingOrder[0];
            var next := ProcessNext(env, w).w;
            Quiet(env, next)
            && Attempts(next.calls) == Attempts(w.calls)
               + if env.writeOk(|w.writes|) && AnsweredUnremoved(w.inbox, uid) then 1 else 0
  {
    hide Sound, Attempts, Fetch, Settle, RemovedIn, AnsweredUnremoved;
    var uid := w.pendingOrder[0];
    var r := AttributesReply(env, w);
    ReplyIsSound(env, w);
    FetchCancels(env, Take(w), ExpectNotification(uid), NotificationAttributesRequest(uid), uid);
    AnsweredUnremovedExactly(env, Take(w), uid, NotificationAttributesRequest(uid));
    SettleKeeps(env, uid, r);
  }

  // ----- end of a session -----

  /** Closing all remaining handles, in any order that lists them, leaves none alive. */
  lemma {:induction false} CloseAllKeeps(env: Env, w: World, handles: map<Uid, Handle>, remaining: map<Uid, Handle>,
                                         order: seq<Uid>)
    requires forall uid :: uid in remaining ==> uid in handles && handles[uid] == remaining[uid]
    requires Lists(order, remaining.Keys)
    requires HandlesSound(env, w.calls, remaining)
    ensures var r := CloseAll(env, w, handles, order);
            && r == w.(calls := r.calls, meta := r.meta)
            && HandlesSound(env, r.calls, map[])
            && Attempts(r.calls) == Attempts(w.calls)
            && Deliveries(r.calls) == Deliveries(w.calls) && r.meta.delivered == w.meta.delivered
            && r.meta.errors - FailedCalls(r.calls) == w.meta.errors - FailedCalls(w.calls)
    decreases |order|
  {
    if order == [] {
      assert remaining == map[];
    } else {
      var uid := order[0];
      var ok := env.sinkOk(|w.calls|);
      AgreePop(order, remaining);
      CountsPushed(w.calls, Close(handles[uid], ok));
      CloseKeepsHandles(env, w.calls, remaining, uid, ok);
      hide HandlesSound, Attempts, Deliveries, FailedCalls;
      CloseAllKeeps(env, CloseHandle(env, w, handles[uid]), handles, remaining - {uid}, order[1..]);
    }
  }

  lemma EmptyIsSound(env: Env)
    ensures QueueSound([], map[], None, {}) && Agree<Uid, Handle>([], map[]) && CacheSound(map[], [], [])
  {}

  /** Ending a session empties the engine and leaves no live handle, whatever was going on. */
  lemma EndKeeps(env: Env, w: World, open: nat)
    requires DrainsAll(env) && Sound(env, w, 0, open)
    ensures Sound(env, End(env, w), 0, open) && Empty(End(env, w))
  {
    EmptyIsSound(env);
    CloseAllKeeps(env, w.(handles := map[]), w.handles, w.handles, env.drain(|w.calls|, w.handles.Keys));
    hide QueueSound, HandlesSound, CacheSound, Attempts, Deliveries, FailedCalls, AttributesRequests, CloseAll;
  }

  /** Nothing of a session is left. */
  predicate Empty(w: World) {
    && w.pendingOrder == [] && w.pendingKind == map[] && w.outstanding == None && w.canceled == {}
    && w.handles == map[] && w.handleOrder == [] && w.appNames == map[] && w.appOrder == [] && w.decoder == CLEAR
  }

  // ----- runs -----

  lemma StepKeeps(env: Env, w: World, step: Step)
    requires GoodEnv(env) && Quiet(env, w)
    ensures Quiet(env, Do(env, w, step))
    ensures step.EndStep? ==> Empty(Do(env, w, step))
  {
    hide QueueSound, HandlesSound, CacheSound, Attempts, Deliveries, FailedCalls, AttributesRequests, ProcessNext,
         Ingest, End;
    match step
    case IngestStep(event) => IngestKeeps(env, w, event, 0, 0);
    case ProcessStep(inbox) =>
      if w.pendingOrder != [] {
        ProcessPresentsExactly(env, w.(inbox := inbox));
      } else {
        IdleProcess(env, w.(inbox := inbox));
      }
    case EndStep => EndKeeps(env, w, 0);
  }

  lemma IdleProcess(env: Env, w: World)
    requires w.pendingOrder == []
    ensures ProcessNext(env, w) == Processed(w, false)
  {}

  lemma {:induction false} RunKeeps(env: Env, w: World, steps: seq<Step>)
    requires GoodEnv(env) && Quiet(env, w)
    ensures Quiet(env, Run(env, w, steps))
    decreases |steps|
  {
    hide Quiet, Do;
    if steps != [] {
      StepKeeps(env, w, steps[0]);
      RunKeeps(env, Do(env, w, steps[0]), steps[1..]);
    }
  }
}
