/** The imperative engine of src/ancs/session.rs, proved to implement the functions of module Session. */
module SessionEngine {
  import opened Bytes
  import opened Codec
  import opened Decoder
  import opened Collections
  import opened Session
  import opened Interruptions

  /** The notification sink: every call is recorded with the outcome the environment gives it. */
  class NotificationSink {
    const env: Env
    var calls: seq<SinkCall>

    constructor (env: Env)
      ensures this.env == env && calls == []
    {
      this.env, calls := env, [];
    }

    method CreateNotification(payload: Payload) returns (made: Option<Handle>)
      modifies this
      ensures made == if env.sinkOk(|old(calls)|) then Some(env.newId(|old(calls)|)) else None
      ensures calls == old(calls) + [Create(payload, made)]
    {
      made := if env.sinkOk(|calls|) then Some(env.newId(|calls|)) else None;
      calls := calls + [Create(payload, made)];
    }

    method ReplaceNotification(handle: Handle, payload: Payload) returns (ok: bool)
      modifies this
      ensures ok == env.sinkOk(|old(calls)|)
      ensures calls == old(calls) + [Replace(handle, payload, ok)]
    {
      ok := env.sinkOk(|calls|);
      calls := calls + [Replace(handle, payload, ok)];
    }

    method CloseNotification(handle: Handle) returns (ok: bool)
      modifies this
      ensures ok == env.sinkOk(|old(calls)|)
      ensures calls == old(calls) + [Close(handle, ok)]
    {
      ok := env.sinkOk(|calls|);
      calls := calls + [Close(handle, ok)];
    }
  }

  /** Control Point and packet streams of the phone; the request timer is the input `Timeout`. */
  class PhoneLink {
    const env: Env
    var writes: seq<seq<byte>>
    var inbox: seq<Input>

    constructor (env: Env)
      ensures this.env == env && writes == [] && inbox == []
    {
      this.env, writes, inbox := env, [], [];
    }

    method WriteControl(request: seq<byte>) returns (ok: bool)
      modifies this`writes
      ensures ok == env.writeOk(|old(writes)|) && writes == old(writes) + [request]
    {
      ok := env.writeOk(|writes|);
      writes := writes + [request];
    }

    method NextInput() returns (input: Input)
      modifies this`inbox
      ensures old(inbox) == [] ==> input == Timeout && inbox == []
      ensures old(inbox) != [] ==> input == old(inbox)[0] && inbox == old(inbox)[1..]
    {
      if inbox == [] {
        return Timeout;
      }
      input, inbox := inbox[0], inbox[1..];
    }
  }

  /**
   * An operation that is given `mayDrop` may be dropped by its caller at any of its awaits, which nobody can foresee.
   * It then returns `dropped` and leaves the engine where that await left it.
   */
  class Engine {
    const env: Env
    const sink: NotificationSink
    const link: PhoneLink
    const decoder: DataSourceDecoder
    var pendingOrder: seq<Uid>
    var pendingKind: map<Uid, EventKind>
    var outstanding: Option<Uid>
    var canceled: set<Uid>
    var handles: map<Uid, Handle>
    var handleOrder: seq<Uid>
    var appNames: map<Text, Text>
    var appOrder: seq<Text>
    var meta: Metadata
    ghost var past: History

    ghost function State(): World
      reads this, sink, link, decoder
    {
      World(pendingOrder, pendingKind, outstanding, canceled, handles, handleOrder, appNames, appOrder,
            decoder.State(), meta, sink.calls, link.writes, link.inbox, past)
    }

    /** Sink and link belong to one environment; the cache's queue and map agree, so its eviction loop ends. */
    ghost predicate Valid()
      reads this
    {
      sink.env == env && link.env == env && Agree(appOrder, appNames)
    }

    constructor (env: Env, sink: NotificationSink, link: PhoneLink)
      requires sink.env == env && link.env == env && sink.calls == [] && link.writes == [] && link.inbox == []
      ensures this.env == env && this.sink == sink && this.link == link && fresh(decoder)
      ensures Valid() && State() == INITIAL
    {
      this.env, this.sink, this.link := env, sink, link;
      decoder := new DataSourceDecoder();
      pendingOrder, pendingKind, outstanding, canceled := [], map[], None, {};
      handles, handleOrder, appNames, appOrder := map[], [], map[], [];
      meta, past := Metadata(0, 0, 0, 0, None), History(0, 0, 0, 0, 0, 0, 0, [], []);
    }

    /** Whether the caller drops the operation at this await. */
    method AwaitDropped(mayDrop: bool) returns (dropped: bool)
      ensures dropped ==> mayDrop
    {
      dropped := *;
      dropped := dropped && mayDrop;
    }

    method NoteError(code: ErrorCode)
      modifies this`meta
      ensures State() == Session.NoteError(old(State()), code)
    {
      meta := meta.(errors := meta.errors + 1, lastError := Some(code));
    }

    method CloseHandle(h: Handle, mayDrop: bool) returns (dropped: bool)
      requires Valid()
      modifies this`meta, sink
      ensures !dropped ==> State() == Session.CloseHandle(env, old(State()), h)
      ensures dropped ==> mayDrop && State() == CloseSent(env, old(State()), h)
    {
      var ok := sink.CloseNotification(h);
      dropped := AwaitDropped(mayDrop);
      if !dropped && !ok {
        NoteError(DesktopCloseFailed);
      }
    }

    method Retain(order: seq<Uid>, gone: Uid) returns (kept: seq<Uid>)
      ensures kept == Without(order, gone)
    {
      kept := [];
      var i := 0;
      while i < |order|
        invariant 0 <= i <= |order|
        invariant kept + Without(order[i..], gone) == Without(order, gone)
      {
        if order[i] != gone {
          kept := kept + [order[i]];
        }
        i := i + 1;
      }
    }

    method Ingest(event: NotificationEvent, mayDrop: bool) returns (dropped: bool)
      requires Valid()
      modifies this`pendingOrder, this`pendingKind, this`canceled, this`handles, this`handleOrder, this`meta, this`past,
        sink
      ensures !dropped ==> State() == Session.Ingest(env, old(State()), event)
      ensures dropped ==> mayDrop && InIngest(env, old(State()), event, State())
    {
      var uid := event.uid;
      dropped := false;
      if event.PreExisting() && event.kind != Removed {
        meta := meta.(dropped := meta.dropped + 1);
        return;
      }
      if event.kind == Removed {
        dropped := Remove(uid, mayDrop);
        return;
      }
      if uid in pendingKind {
        if event.kind == Modified {
          pendingKind := pendingKind[uid := Modified];
        }
        return;
      }
      if outstanding == Some(uid) {
        if event.kind == Modified {
          Push(uid, Modified);
        }
        return;
      }
      var waiting := PendingLen();
      if waiting >= MAX_PENDING_UIDS {
        meta := meta.(dropped := meta.dropped + 1);
        return;
      }
      Push(uid, event.kind);
    }

    method Withdraw(uid: Uid)
      modifies this`pendingOrder, this`pendingKind, this`canceled, this`past
      ensures State() == Session.Withdraw(old(State()), uid)
    {
      past := past.(withdrawn := past.withdrawn + if uid in pendingKind then 1 else 0,
                    journal := Mark(past.journal, uid, Withdrawn));
      pendingKind := pendingKind - {uid};
      pendingOrder := Retain(pendingOrder, uid);
      if outstanding == Some(uid) {
        canceled := canceled + {uid};
      }
    }

    method Remove(uid: Uid, mayDrop: bool) returns (dropped: bool)
      requires Valid()
      modifies this`pendingOrder, this`pendingKind, this`canceled, this`handles, this`handleOrder, this`meta, this`past,
        sink
      ensures !dropped ==> State() == Session.Remove(env, old(State()), uid)
      ensures dropped ==> mayDrop && InIngest(env, old(State()), NotificationEvent(Removed, 0, Other, 0, uid), State())
    {
      dropped := false;
      Withdraw(uid);
      if uid in handles {
        var h := handles[uid];
        handles := handles - {uid};
        handleOrder := Retain(handleOrder, uid);
        dropped := CloseHandle(h, mayDrop);
      }
    }

    method Push(uid: Uid, kind: EventKind)
      modifies this`pendingOrder, this`pendingKind, this`past
      ensures State() == Enqueue(old(State()), uid, kind)
    {
      pendingKind := pendingKind[uid := kind];
      pendingOrder := pendingOrder + [uid];
      past := past.(accepted := past.accepted + 1, journal := past.journal + [Entry(uid, Waiting)]);
    }

    method PendingLen() returns (n: nat)
      ensures n == Session.PendingLen(State())
    {
      n := |pendingKind|;
      if outstanding.Some? && outstanding.value !in pendingKind {
        n := n + 1;
      }
    }

    method IngestPacket(packet: seq<byte>, mayDrop: bool) returns (dropped: bool)
      requires Valid()
      modifies this`pendingOrder, this`pendingKind, this`canceled, this`handles, this`handleOrder, this`meta, this`past,
        sink
      ensures !dropped ==> State() == Session.IngestPacket(env, old(State()), packet)
      ensures dropped ==> mayDrop && InPacket(env, old(State()), packet, State())
    {
      hide ParseEvent, Session.Ingest, InIngest;
      match ParseEvent(packet) {
        case Ok(event) =>
          dropped := Ingest(event, mayDrop);
        case Err(_) =>
          dropped := false;
          past := past.(malformed := past.malformed + 1);
          NoteError(MalformedNotificationSource);
      }
    }

    method WaitForResponse(mayDrop: bool) returns (got: Option<Response>, dropped: bool)
      requires Valid()
      modifies this`pendingOrder, this`pendingKind, this`canceled, this`handles, this`handleOrder, this`meta, this`past,
               sink, link`inbox, decoder
      ensures !dropped ==> Reply(State(), got) == Wait(env, old(State()))
      ensures dropped ==> mayDrop && InWait(env, old(State()), State())
    {
      hide Feed, Session.IngestPacket, InPacket;
      ghost var start := State();
      got, dropped := None, false;
      while true
        invariant Wait(env, State()) == Wait(env, start)
        invariant forall left :: InWait(env, State(), left) ==> InWait(env, start, left)
        invariant !dropped
        decreases |link.inbox|
      {
        ghost var turn := State();
        dropped := AwaitDropped(mayDrop);
        if dropped {
          return;
        }
        var input := link.NextInput();
        match input {
          case Timeout =>
            decoder.Clear();
            meta := meta.(timedOut := meta.timedOut + 1);
            return;
          case StreamFailure =>
            return;
          case DataSource(fragment) =>
            var pushed := decoder.Push(fragment);
            if pushed.Err? {
              return;
            }
            if pushed.value != [] {
              got := Some(pushed.value[0]);
              return;
            }
            assert State() == turn.(inbox := turn.inbox[1..], decoder := Feed(turn.decoder, fragment).after);
          case NotificationSource(packet) =>
            dropped := IngestPacket(packet, mayDrop);
            if dropped {
              return;
            }
        }
      }
    }

    method Request(expected: Expectation, request: seq<byte>, mayDrop: bool)
      returns (got: Option<Response>, dropped: bool)
      requires Valid()
      modifies this`pendingOrder, this`pendingKind, this`canceled, this`handles, this`handleOrder, this`meta, this`past,
               sink, link, decoder
      ensures !dropped ==> Reply(State(), got) == Fetch(env, old(State()), expected, request)
      ensures dropped ==> mayDrop && InFetch(env, old(State()), expected, request, State())
    {
      hide Wait, InWait;
      got, dropped := None, false;
      decoder.Expect(expected);
      var ok := link.WriteControl(request);
      ghost var sent := State();
      assert sent == WriteControl(env, old(State()).(decoder := Expecting(old(State()).decoder, expected)), request).w;
      dropped := AwaitDropped(mayDrop);
      if dropped {
        return;
      }
      if !ok {
        decoder.Clear();
        return;
      }
      got, dropped := WaitForResponse(mayDrop);
      if !dropped && got.None? {
        decoder.Clear();
      }
    }

    method RetainAppName(app: Text, name: Text)
      requires Valid()
      modifies this`appNames, this`appOrder, this`past
      ensures Valid() && State() == Session.RetainAppName(old(State()), app, name)
    {
      hide Agree, Session.EvictApps;
      if app !in appNames {
        AgreePush(appOrder, appNames, app, name);
        appOrder := appOrder + [app];
      } else {
        AgreeUpdate(appOrder, appNames, app, name);
      }
      appNames := appNames[app := name];
      EvictApps();
      past := past.(lookups := past.lookups + [(app, name)]);
    }

    /** The source's loop has no exit for an empty queue; it ends because queue and map agree. */
    method EvictApps()
      requires Agree(appOrder, appNames)
      modifies this`appNames, this`appOrder
      ensures Agree(appOrder, appNames) && (appNames, appOrder) == Session.EvictApps(old(appNames), old(appOrder))
    {
      hide Agree;
      while |appNames| > MAX_CACHED_APPS
        invariant Agree(appOrder, appNames)
        invariant Session.EvictApps(appNames, appOrder) == Session.EvictApps(old(appNames), old(appOrder))
        decreases |appNames|
      {
        AgreeSize(appOrder, appNames);
        AgreePop(appOrder, appNames);
        var oldest := appOrder[0];
        appOrder := appOrder[1..];
        appNames := appNames - {oldest};
      }
    }

    method AppName(app: Text, mayDrop: bool) returns (name: Text, dropped: bool)
      requires Valid()
      modifies this, sink, link, decoder
      ensures Valid()
      ensures !dropped ==> Named(State(), name) == Session.AppName(env, old(State()), app)
      ensures dropped ==> mayDrop && InAppName(env, old(State()), app, State())
    {
      hide Fetch, InFetch;
      name, dropped := app, false;
      if app in appNames {
        name := appNames[app];
        return;
      }
      match AppAttributesRequest(app) {
        case Err(_) =>
        case Ok(request) =>
          var got;
          got, dropped := Request(ExpectApp(app), request, mayDrop);
          if dropped {
            return;
          }
          if got.Some? && got.value.AppAttributes? {
            RetainAppName(app, got.value.displayName);
            name := got.value.displayName;
            return;
          }
      }
      past := past.(appFailures := past.appFailures + 1);
      NoteError(AppAttributesFailed);
    }

    method RetainHandle(uid: Uid, h: Handle, mayDrop: bool) returns (dropped: bool)
      requires Valid()
      modifies this`handles, this`handleOrder, this`meta, sink
      ensures !dropped ==> State() == Session.RetainHandle(env, old(State()), uid, h)
      ensures dropped ==> mayDrop && InEvict(env, Retained(old(State()), uid, h), State())
    {
      dropped := false;
      if uid !in handles {
        handleOrder := handleOrder + [uid];
      }
      handles := handles[uid := h];
      ghost var start := State();
      while |handles| > MAX_ACTIVE_NOTIFICATIONS
        invariant EvictHandles(env, State()) == EvictHandles(env, start) && !dropped
        invariant forall left :: InEvict(env, State(), left) ==> InEvict(env, start, left)
        decreases |handleOrder|
      {
        if handleOrder == [] {
          break;
        }
        var oldest := handleOrder[0];
        handleOrder := handleOrder[1..];
        if oldest in handles {
          var evicted := handles[oldest];
          handles := handles - {oldest};
          dropped := CloseHandle(evicted, mayDrop);
          if dropped {
            return;
          }
        }
      }
    }

    method Deliver(uid: Uid, payload: Payload, mayDrop: bool) returns (dropped: bool)
      requires Valid()
      modifies this`handles, this`handleOrder, this`meta, sink
      ensures !dropped ==> State() == Session.Deliver(env, old(State()), uid, payload)
      ensures dropped ==> mayDrop && InDeliver(env, old(State()), uid, payload, State())
    {
      hide EvictHandles, InEvict;
      var delivered: Option<Handle>;
      if uid in handles {
        var h := handles[uid];
        var ok := sink.ReplaceNotification(h, payload);
        delivered := if ok then Some(h) else None;
      } else {
        delivered := sink.CreateNotification(payload);
      }
      dropped := AwaitDropped(mayDrop);
      if dropped {
        return;
      }
      match delivered {
        case Some(h) =>
          dropped := RetainHandle(uid, h, mayDrop);
          if dropped {
            return;
          }
          meta := meta.(delivered := meta.delivered + 1);
        case None =>
          NoteError(DesktopDeliveryFailed);
      }
    }

    method ProcessNext(mayDrop: bool) returns (worked: bool, dropped: bool)
      requires Valid()
      modifies this, sink, link, decoder
      ensures Valid()
      ensures !dropped ==> Processed(State(), worked) == Session.ProcessNext(env, old(State()))
      ensures dropped ==> mayDrop && InProcess(env, old(State()), State())
    {
      hide Fetch, InFetch, InPresent, NotificationAttributesRequest, Session.Settle;
      worked, dropped := false, false;
      if pendingOrder == [] {
        return;
      }
      worked := true;
      var uid := pendingOrder[0];
      ghost var before := State();
      pendingOrder := pendingOrder[1..];
      if uid !in pendingKind {
        return;
      }
      pendingKind := pendingKind - {uid};
      outstanding := Some(uid);
      canceled := canceled - {uid};
      past := past.(journal := Mark(past.journal, uid, Requested));
      assert State() == Take(before);
      var got;
      got, dropped := Request(ExpectNotification(uid), NotificationAttributesRequest(uid), mayDrop);
      if !dropped {
        dropped := Settle(uid, got, mayDrop);
      }
    }

    method Settle(uid: Uid, got: Option<Response>, mayDrop: bool) returns (dropped: bool)
      requires Valid()
      modifies this, sink, link, decoder
      ensures Valid()
      ensures !dropped ==> State() == Session.Settle(env, uid, Reply(old(State()), got))
      ensures dropped ==>
                mayDrop && got.Some? && got.value.NotificationAttributes? && uid !in old(canceled)
                && InPresent(env, old(State()).(outstanding := None, canceled := old(canceled) - {uid}), uid,
                             got.value.appIdentifier, got.value.title, got.value.message, State())
    {
      hide Present, InPresent;
      dropped := false;
      var wasCanceled := uid in canceled;
      outstanding := None;
      canceled := canceled - {uid};
      if got.None? || !got.value.NotificationAttributes? {
        past := past.(attributeFailures := past.attributeFailures + 1);
        NoteError(NotificationAttributesFailed);
        return;
      }
      if wasCanceled {
        past := past.(cancelled := past.cancelled + 1);
        return;
      }
      dropped := Show(uid, got.value.appIdentifier, got.value.title, got.value.message, mayDrop);
    }

    /** The part of `process_next` after the attributes have arrived. */
    method Show(uid: Uid, app: Text, title: Text, message: Text, mayDrop: bool) returns (dropped: bool)
      requires Valid()
      modifies this, sink, link, decoder
      ensures Valid()
      ensures !dropped ==> State() == Present(env, old(State()), uid, app, title, message)
      ensures dropped ==> mayDrop && InPresent(env, old(State()), uid, app, title, message, State())
    {
      hide Session.AppName, InAppName, Session.Deliver, InDeliver;
      var name;
      name, dropped := AppName(app, mayDrop);
      if dropped {
        return;
      }
      if uid in canceled {
        canceled := canceled - {uid};
        return;
      }
      dropped := Deliver(uid, Payload(name, title, message), mayDrop);
    }

    method End()
      requires Valid() && DrainsAll(env)
      modifies this, sink, decoder
      ensures Valid()
      ensures State() == Session.End(env, old(State()))
    {
      var drained := handles;
      var order := env.drain(|sink.calls|, handles.Keys);
      handles := map[];
      CloseDrained(drained, order);
      past := past.(discarded := past.discarded + |pendingOrder|, lookups := [], journal := DiscardAll(past.journal));
      pendingOrder, pendingKind, outstanding, canceled := [], map[], None, {};
      appNames, appOrder, handleOrder := map[], [], [];
      decoder.Clear();
    }

    method CloseDrained(drained: map<Uid, Handle>, order: seq<Uid>)
      requires Valid() && forall uid :: uid in order ==> uid in drained
      modifies this`meta, sink
      ensures State() == CloseAll(env, old(State()), drained, order)
    {
      ghost var start := State();
      var i := 0;
      while i < |order|
        invariant 0 <= i <= |order|
        invariant CloseAll(env, State(), drained, order[i..]) == CloseAll(env, start, drained, order)
      {
        var _ := CloseHandle(drained[order[i]], false);
        i := i + 1;
      }
    }
  }
}
