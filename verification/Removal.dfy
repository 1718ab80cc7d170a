/** A removed UID is gone for good: it comes back only if the phone announces it again. */
module Removal {
  import opened Bytes
  import opened Codec
  import opened Decoder
  import opened Collections
  import opened Session
  import opened SessionRuns
  import opened SessionTheorems
  import opened Presentation
  import opened Survival
  import opened Interruptions

  predicate Announces(event: NotificationEvent, uid: Uid) {
    event.uid == uid && event.kind != Removed
  }

  predicate Announced(input: Input, uid: Uid) {
    input.NotificationSource? && ParseEvent(input.packet).Ok? && Announces(ParseEvent(input.packet).value, uid)
  }

  predicate Unannounced(inbox: seq<Input>, uid: Uid) {
    forall i :: 0 <= i < |inbox| ==> !Announced(inbox[i], uid)
  }

  predicate StepLeavesOut(step: Step, uid: Uid) {
    match step
    case IngestStep(event) => !Announces(event, uid)
    case ProcessStep(inbox) => Unannounced(inbox, uid)
    case EndStep => true
  }

  /** Neither queued, nor outstanding, nor mapped, nor asked for since control write number `since`. */
  predicate Gone(w: World, uid: Uid, since: nat) {
    && uid !in w.pendingOrder && uid !in w.pendingKind && uid !in w.handles && w.outstanding != Some(uid)
    && since <= |w.writes|
    && forall i :: since <= i < |w.writes| ==> w.writes[i] != NotificationAttributesRequest(uid)
  }

  lemma RemoveKeepsGone(env: Env, w: World, other: Uid, uid: Uid, since: nat)
    requires Gone(w, uid, since)
    ensures Gone(Remove(env, w, other), uid, since)
  {
    hide NotificationAttributesRequest, Mark;
  }

  lemma EnqueueKeepsGone(w: World, other: Uid, kind: EventKind, uid: Uid, since: nat)
    requires Gone(w, uid, since) && other != uid
    ensures Gone(Enqueue(w, other, kind), uid, since) && Gone(CountDropped(w), uid, since)
    ensures Gone(w.(pendingKind := w.pendingKind[other := kind]), uid, since)
  {
    hide NotificationAttributesRequest;
  }

  lemma IngestKeepsGone(env: Env, w: World, event: NotificationEvent, uid: Uid, since: nat)
    requires Gone(w, uid, since) && !Announces(event, uid)
    ensures Gone(Ingest(env, w, event), uid, since)
  {
    RemoveKeepsGone(env, w, event.uid, uid, since);
    var other := if event.uid == uid then if uid == 0 then 1 else 0 else event.uid;
    EnqueueKeepsGone(w, other, Modified, uid, since);
    EnqueueKeepsGone(w, other, event.kind, uid, since);
    hide Gone, PendingLen, Remove, Enqueue, CountDropped;
  }

  lemma PacketKeepsGone(env: Env, w: World, packet: seq<byte>, uid: Uid, since: nat)
    requires Gone(w, uid, since) && !Announced(NotificationSource(packet), uid)
    ensures Gone(IngestPacket(env, w, packet), uid, since)
  {
    hide NotificationAttributesRequest, Ingest, ParseEvent;
    if ParseEvent(packet).Ok? {
      IngestKeepsGone(env, w, ParseEvent(packet).value, uid, since);
    }
  }

  lemma {:induction false} WaitKeepsGone(env: Env, w: World, uid: Uid, since: nat)
    requires Gone(w, uid, since) && Unannounced(w.inbox, uid)
    ensures Gone(Wait(env, w).w, uid, since) && Unannounced(Wait(env, w).w.inbox, uid)
    decreases |w.inbox|
  {
    hide NotificationAttributesRequest, Feed, Announced, IngestPacket;
    if w.inbox != [] {
      var w1 := w.(inbox := w.inbox[1..]);
      assert Unannounced(w1.inbox, uid);
      match w.inbox[0]
      case Timeout =>
      case StreamFailure =>
      case DataSource(fragment) =>
        if Feed(w1.decoder, fragment).outcome == Ok([]) {
          WaitKeepsGone(env, w1.(decoder := Feed(w1.decoder, fragment).after), uid, since);
        }
      case NotificationSource(packet) =>
        PacketKeepsGone(env, w1, packet, uid, since);
        WaitKeepsGone(env, IngestPacket(env, w1, packet), uid, since);
    }
  }

  lemma FetchKeepsGone(env: Env, w: World, expected: Expectation, request: seq<byte>, uid: Uid, since: nat)
    requires Gone(w, uid, since) && Unannounced(w.inbox, uid) && request != NotificationAttributesRequest(uid)
    ensures var r := Fetch(env, w, expected, request).w; Gone(r, uid, since) && Unannounced(r.inbox, uid)
  {
    hide NotificationAttributesRequest, Wait, Announced;
    var sent := WriteControl(env, w.(decoder := Expecting(w.decoder, expected)), request);
    WaitKeepsGone(env, sent.w, uid, since);
  }

  lemma AppNameKeepsGone(env: Env, w: World, app: Text, uid: Uid, since: nat)
    requires Gone(w, uid, since) && Unannounced(w.inbox, uid)
    ensures Gone(AppName(env, w, app).w, uid, since)
  {
    if AppAttributesRequest(app).Ok? {
      assert AppAttributesRequest(app).value[0] != NotificationAttributesRequest(uid)[0];
      FetchKeepsGone(env, w, ExpectApp(app), AppAttributesRequest(app).value, uid, since);
    }
    hide NotificationAttributesRequest, Fetch, AppAttributesRequest, EvictApps;
  }

  lemma {:induction false} EvictKeepsGone(env: Env, w: World, uid: Uid, since: nat)
    requires Gone(w, uid, since)
    ensures Gone(EvictHandles(env, w), uid, since)
    decreases |w.handleOrder|
  {
    hide NotificationAttributesRequest;
    if |w.handles| > MAX_ACTIVE_NOTIFICATIONS && w.handleOrder != [] {
      var oldest := w.handleOrder[0];
      var w1 := w.(handleOrder := w.handleOrder[1..]);
      EvictKeepsGone(env, if oldest in w.handles
                          then CloseHandle(env, w1.(handles := w.handles - {oldest}), w.handles[oldest]) else w1,
                     uid, since);
    }
  }

  lemma DeliverKeepsGone(env: Env, w: World, other: Uid, payload: Payload, uid: Uid, since: nat)
    requires Gone(w, uid, since) && other != uid
    ensures Gone(Deliver(env, w, other, payload), uid, since)
  {
    DeliverIsCallThenMap(env, w, other, payload);
    EvictKeepsGone(env, Mapped(env, w, other, payload), uid, since);
    hide NotificationAttributesRequest, EvictHandles, Deliver;
  }

  lemma OtherRequest(uid: Uid, other: Uid)
    requires uid != other
    ensures NotificationAttributesRequest(uid) != NotificationAttributesRequest(other)
  {
    var r1, r2 := NotificationAttributesRequest(uid), NotificationAttributesRequest(other);
    assert r1[1..5] == U32ToLe(uid) && r2[1..5] == U32ToLe(other);
  }

  lemma ProcessKeepsGone(env: Env, w: World, uid: Uid, since: nat)
    requires Gone(w, uid, since) && Unannounced(w.inbox, uid)
    ensures Gone(ProcessNext(env, w).w, uid, since)
  {
    if w.pendingOrder != [] {
      var other, r := w.pendingOrder[0], AttributesReply(env, w);
      assert uid != other;
      OtherRequest(uid, other);
      TakeKeepsGone(w, uid, since);
      hide NotificationAttributesRequest, Fetch, Settle, Present, Take, Unannounced;
      FetchKeepsGone(env, Take(w), ExpectNotification(other), NotificationAttributesRequest(other), uid, since);
      SettleForms(env, other, r);
      if r.got.Some? && r.got.value.NotificationAttributes? {
        PresentKeepsGone(env, r.w.(outstanding := None, canceled := r.w.canceled - {other}), other,
                         r.got.value.appIdentifier, r.got.value.title, r.got.value.message, uid, since);
      }
    }
  }

  lemma TakeKeepsGone(w: World, uid: Uid, since: nat)
    requires Gone(w, uid, since) && w.pendingOrder != []
    ensures Gone(Take(w), uid, since) && Take(w).inbox == w.inbox
  {
    hide NotificationAttributesRequest, Mark;
  }

  lemma PresentKeepsGone(env: Env, w: World, other: Uid, app: Text, title: Text, message: Text, uid: Uid, since: nat)
    requires Gone(w, uid, since) && Unannounced(w.inbox, uid) && other != uid
    ensures Gone(Present(env, w, other, app, title, message), uid, since)
  {
    hide NotificationAttributesRequest, AppName, Deliver, Announced;
    AppNameKeepsGone(env, w, app, uid, since);
    var n := AppName(env, w, app);
    DeliverKeepsGone(env, n.w, other, Payload(n.name, title, message), uid, since);
  }

  lemma {:induction false} RunKeepsGone(env: Env, w: World, steps: seq<Step>, uid: Uid, since: nat)
    requires DrainsAll(env) && Gone(w, uid, since) && forall i :: 0 <= i < |steps| ==> StepLeavesOut(steps[i], uid)
    ensures Gone(Run(env, w, steps), uid, since)
    decreases |steps|
  {
    hide NotificationAttributesRequest, Ingest, ProcessNext, CloseAll, DiscardAll, Unannounced, DrainsAll;
    if steps != [] {
      match steps[0] {
        case IngestStep(event) => IngestKeepsGone(env, w, event, uid, since);
        case ProcessStep(inbox) => ProcessKeepsGone(env, w.(inbox := inbox), uid, since);
        case EndStep => EndKeepsWrites(env, w);
      }
      RunKeepsGone(env, Do(env, w, steps[0]), steps[1..], uid, since);
    }
  }

  lemma {:induction false} CloseAllKeepsWrites(env: Env, w: World, handles: map<Uid, Handle>, order: seq<Uid>)
    requires forall uid :: uid in order ==> uid in handles
    ensures CloseAll(env, w, handles, order).writes == w.writes && CloseAll(env, w, handles, order).handles == w.handles
    decreases |order|
  {
    if order != [] {
      CloseAllKeepsWrites(env, CloseHandle(env, w, handles[order[0]]), handles, order[1..]);
    }
  }

  lemma EndKeepsWrites(env: Env, w: World)
    requires DrainsAll(env)
    ensures End(env, w).writes == w.writes && Empty(End(env, w))
  {
    CloseAllKeepsWrites(env, w.(handles := map[]), w.handles, env.drain(|w.calls|, w.handles.Keys));
    hide CloseAll, DiscardAll;
  }

  /**
   * After a removal at rest, and over every later run, whatever else arrives: unless the phone announces the UID
   * again it is never queued, never asked for and never mapped to a notification.
   */
  lemma RemovedStaysAway(env: Env, w: World, removal: NotificationEvent, steps: seq<Step>)
    requires GoodEnv(env) && Reachable(env, w) && removal.kind == Removed
    requires forall i :: 0 <= i < |steps| ==> StepLeavesOut(steps[i], removal.uid)
    ensures Gone(Run(env, Ingest(env, w, removal), steps), removal.uid, |w.writes|)
  {
    ContainersAtRest(env, w);
    IngestFrame(env, w, removal);
    var w1 := Ingest(env, w, removal);
    RemovalForgets(env, w, removal, if removal.uid == 0 then 1 else 0);
    hide Reachable, Run, Ingest, NotificationAttributesRequest, DrainsAll, FreshIds, Agree, StepLeavesOut;
    RunKeepsGone(env, w1, steps, removal.uid, |w.writes|);
  }
}
