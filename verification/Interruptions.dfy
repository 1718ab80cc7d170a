/**
 * `handle_one_packet` loses the race against the reconcile timer (src/bluetooth/supervisor.rs:351-353) and is dropped
 * at one of its awaits: while a control write or an answer is awaited, or while a call of the notification sink is.
 * The call or write has been sent by then, only its outcome is lost. Each predicate says that an operation, started
 * in `w`, can be dropped so that it leaves the engine as `left`.
 */
module Interruptions {
  import opened Bytes
  import opened Codec
  import opened Decoder
  import opened Collections
  import opened Session

  function CloseSent(env: Env, w: World, h: Handle): World {
    w.(calls := w.calls + [Close(h, env.sinkOk(|w.calls|))])
  }

  /** While the notification of a removed UID is being closed. */
  predicate InIngest(env: Env, w: World, event: NotificationEvent, left: World) {
    event.kind == Removed &&
    var w1 := Withdraw(w, event.uid);
    event.uid in w1.handles && left == CloseSent(env, ForgetHandle(w1, event.uid), w1.handles[event.uid])
  }

  predicate InPacket(env: Env, w: World, packet: seq<byte>, left: World) {
    ParseEvent(packet).Ok? && InIngest(env, w, ParseEvent(packet).value, left)
  }

  /** While the next input of a wait is awaited, or while one is being ingested. */
  predicate InWait(env: Env, w: World, left: World)
    decreases |w.inbox|
  {
    left == w ||
    (w.inbox != [] &&
     var w1 := w.(inbox := w.inbox[1..]);
     match w.inbox[0]
     case DataSource(fragment) =>
       var p := Feed(w1.decoder, fragment);
       p.outcome.Ok? && p.outcome.value == [] && InWait(env, w1.(decoder := p.after), left)
     case NotificationSource(packet) => InPacket(env, w1, packet, left) || InWait(env, IngestPacket(env, w1, packet), left)
     case _ => false)
  }

  /** While the control write or the answer is awaited. */
  predicate InFetch(env: Env, w: World, expected: Expectation, request: seq<byte>, left: World) {
    var sent := WriteControl(env, w.(decoder := Expecting(w.decoder, expected)), request);
    left == sent.w || (sent.ok && InWait(env, sent.w, left))
  }

  predicate InAppName(env: Env, w: World, app: Text, left: World) {
    app !in w.appNames && AppAttributesRequest(app).Ok?
    && InFetch(env, w, ExpectApp(app), AppAttributesRequest(app).value, left)
  }

  /** While an evicted notification is being closed. */
  predicate InEvict(env: Env, w: World, left: World)
    decreases |w.handleOrder|
  {
    |w.handles| > MAX_ACTIVE_NOTIFICATIONS && w.handleOrder != [] &&
    var oldest := w.handleOrder[0];
    var w1 := w.(handleOrder := w.handleOrder[1..]);
    if oldest !in w.handles then InEvict(env, w1, left)
    else
      var w2 := w1.(handles := w.handles - {oldest});
      left == CloseSent(env, w2, w.handles[oldest]) || InEvict(env, CloseHandle(env, w2, w.handles[oldest]), left)
  }

  /** The notification is created or replaced, and nobody has looked at the outcome yet. */
  function Called(env: Env, w: World, uid: Uid, payload: Payload): World {
    var n := |w.calls|;
    var ok := env.sinkOk(n);
    w.(calls := w.calls + [if uid in w.handles then Replace(w.handles[uid], payload, ok)
                           else Create(payload, if ok then Some(env.newId(n)) else None)])
  }

  function Retained(w: World, uid: Uid, h: Handle): World {
    w.(handles := w.handles[uid := h], handleOrder := if uid in w.handles then w.handleOrder else w.handleOrder + [uid])
  }

  /** The handle of a successful call is mapped, and nothing has been evicted yet. */
  function Mapped(env: Env, w: World, uid: Uid, payload: Payload): World {
    Retained(Called(env, w, uid, payload), uid, if uid in w.handles then w.handles[uid] else env.newId(|w.calls|))
  }

  predicate InDeliver(env: Env, w: World, uid: Uid, payload: Payload, left: World) {
    left == Called(env, w, uid, payload)
    || (env.sinkOk(|w.calls|) && InEvict(env, Mapped(env, w, uid, payload), left))
  }

  predicate InPresent(env: Env, w: World, uid: Uid, app: Text, title: Text, message: Text, left: World) {
    InAppName(env, w, app, left)
    || (var n := AppName(env, w, app);
        uid !in n.w.canceled && InDeliver(env, n.w, uid, Payload(n.name, title, message), left))
  }

  predicate InProcess(env: Env, w: World, left: World) {
    w.pendingOrder != [] && w.pendingOrder[0] in w.pendingKind &&
    var uid := w.pendingOrder[0];
    InFetch(env, Take(w), ExpectNotification(uid), NotificationAttributesRequest(uid), left)
    || (var r := AttributesReply(env, w);
        r.got.Some? && r.got.value.NotificationAttributes? && uid !in r.w.canceled
        && InPresent(env, r.w.(outstanding := None, canceled := r.w.canceled - {uid}), uid,
                     r.got.value.appIdentifier, r.got.value.title, r.got.value.message, left))
  }

  /** While a Notification Source packet is being handled. */
  predicate InHandling(env: Env, w: World, packet: seq<byte>, left: World) {
    ParseEvent(packet).Ok?
    && (InIngest(env, w, ParseEvent(packet).value, left)
        || InProcess(env, Ingest(env, w, ParseEvent(packet).value), left))
  }

  // ----- runs in which packets may be dropped -----

  /** A whole operation of the engine, or the handling of a packet that is dropped and leaves `left`. */
  datatype DropStep = Whole(step: Step) | Dropped(packet: seq<byte>, inbox: seq<Input>, left: World)

  predicate Possible(env: Env, w: World, s: DropStep) {
    s.Dropped? ==> InHandling(env, w.(inbox := s.inbox), s.packet, s.left)
  }

  function DoOrDrop(env: Env, w: World, s: DropStep): World
    requires DrainsAll(env)
  {
    match s
    case Whole(step) => Do(env, w, step)
    case Dropped(_, _, left) => if Possible(env, w, s) then left else w
  }

  function RunWithDrops(env: Env, w: World, steps: seq<DropStep>): World
    requires DrainsAll(env)
    decreases |steps|
  {
    if steps == [] then w else RunWithDrops(env, DoOrDrop(env, w, steps[0]), steps[1..])
  }

  function Drops(steps: seq<DropStep>): nat {
    if steps == [] then 0 else (if steps[0].Dropped? then 1 else 0) + Drops(steps[1..])
  }
}
