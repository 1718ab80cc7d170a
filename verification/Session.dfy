/**
 * src/ancs/session.rs as a state machine over values. `World` holds the engine's containers, what the
 * desktop and the phone have been sent so far, and what the phone will send next. The class
 * `SessionEngine` (SessionEngine.dfy) is proved to implement these functions.
 */
module Session {
  import opened Bytes
  import opened Codec
  import opened Decoder
  import opened Collections

  const MAX_PENDING_UIDS: nat := 100
  const MAX_ACTIVE_NOTIFICATIONS: nat := 100
  const MAX_CACHED_APPS: nat := 100

  type Uid = u32
  type Handle = nat

  datatype Payload = Payload(appName: Text, title: Text, message: Text)

  /** One call of the notification sink together with its outcome. */
  datatype SinkCall =
    | Create(payload: Payload, made: Option<Handle>)
    | Replace(handle: Handle, payload: Payload, ok: bool)
    | Close(handle: Handle, ok: bool)

  /** What ends one round of the wait for a response; an exhausted inbox also times out. */
  datatype Input =
    | Timeout
    | StreamFailure
    | DataSource(fragment: seq<byte>)
    | NotificationSource(packet: seq<byte>)

  datatype ErrorCode =
    | DesktopCloseFailed | NotificationAttributesFailed | AppAttributesFailed | DesktopDeliveryFailed
    | MalformedNotificationSource
    | UnsolicitedDataSource | AncsStreamFailed | BluezUnavailable | ConfiguredDeviceNotBonded | SubscribeFailed

  datatype Metadata = Metadata(delivered: nat, errors: nat, dropped: nat, timedOut: nat, lastError: Option<ErrorCode>)

  /**
   * The environment: whether the n-th sink call and the n-th control write succeed, the identifier the
   * desktop gives to the n-th sink call if that call creates, and the order in which the handle map is drained.
   */
  datatype Env = Env(sinkOk: nat -> bool, newId: nat -> Handle, writeOk: nat -> bool,
                     drain: (nat, set<Uid>) -> seq<Uid>)

  /** A drain visits every key once. */
  ghost predicate DrainsAll(env: Env) {
    forall n, s :: Lists(env.drain(n, s), s)
  }

  /** Created identifiers are fresh. */
  ghost predicate FreshIds(env: Env) {
    forall i, j :: env.newId(i) == env.newId(j) ==> i == j
  }

  ghost predicate GoodEnv(env: Env) {
    FreshIds(env) && DrainsAll(env)
  }

  /** Such environments exist, whichever calls and writes are to succeed. */
  lemma EnvironmentsExist(sinkOk: nat -> bool, writeOk: nat -> bool) returns (env: Env)
    ensures GoodEnv(env) && env.sinkOk == sinkOk && env.writeOk == writeOk
  {
    env := Env(sinkOk, (n: nat) => n, writeOk, (n: nat, s: set<Uid>) => Listing(s));
  }

  /** What became of an accepted UID: one entry for each time it joined the queue. */
  datatype Fate = Waiting | Requested | Withdrawn | Discarded

  datatype Entry = Entry(uid: Uid, fate: Fate)

  /** Gives a fate to the entry that waits for `uid`. */
  function Mark(journal: seq<Entry>, uid: Uid, fate: Fate): seq<Entry> {
    if journal == [] then []
    else [if journal[0] == Entry(uid, Waiting) then Entry(uid, fate) else journal[0]] + Mark(journal[1..], uid, fate)
  }

  function DiscardAll(journal: seq<Entry>): seq<Entry> {
    if journal == [] then []
    else [if journal[0].fate.Waiting? then Entry(journal[0].uid, Discarded) else journal[0]] + DiscardAll(journal[1..])
  }

  /**
   * History kept for the proofs only: no function below reads it to decide anything. `journal` lists accepted UIDs in
   * the order in which they joined the queue.
   */
  datatype History = History(accepted: nat, withdrawn: nat, discarded: nat, cancelled: nat,
                             attributeFailures: nat, appFailures: nat, malformed: nat, lookups: seq<(Text, Text)>,
                             journal: seq<Entry>)

  datatype World = World(
    pendingOrder: seq<Uid>, pendingKind: map<Uid, EventKind>,
    outstanding: Option<Uid>, canceled: set<Uid>,
    handles: map<Uid, Handle>, handleOrder: seq<Uid>,
    appNames: map<Text, Text>, appOrder: seq<Text>,
    decoder: Buffer, meta: Metadata,
    calls: seq<SinkCall>, writes: seq<seq<byte>>, inbox: seq<Input>, past: History)

  const INITIAL: World :=
    World([], map[], None, {}, map[], [], map[], [], CLEAR, Metadata(0, 0, 0, 0, None), [], [], [],
          History(0, 0, 0, 0, 0, 0, 0, [], []))

  /** Queued UIDs plus the outstanding one, unless that one is queued again. */
  function WaitingLen(kind: map<Uid, EventKind>, outstanding: Option<Uid>): nat {
    |kind| + if outstanding.Some? && outstanding.value !in kind then 1 else 0
  }

  function PendingLen(w: World): nat {
    WaitingLen(w.pendingKind, w.outstanding)
  }

  function NoteError(w: World, code: ErrorCode): World {
    w.(meta := w.meta.(errors := w.meta.errors + 1, lastError := Some(code)))
  }

  function CountDropped(w: World): World {
    w.(meta := w.meta.(dropped := w.meta.dropped + 1))
  }

  function CloseHandle(env: Env, w: World, h: Handle): World {
    var ok := env.sinkOk(|w.calls|);
    var w1 := w.(calls := w.calls + [Close(h, ok)]);
    if ok then w1 else NoteError(w1, DesktopCloseFailed)
  }

  function Withdraw(w: World, uid: Uid): World {
    w.(pendingKind := w.pendingKind - {uid},
       pendingOrder := Without(w.pendingOrder, uid),
       canceled := if w.outstanding == Some(uid) then w.canceled + {uid} else w.canceled,
       past := w.past.(withdrawn := w.past.withdrawn + if uid in w.pendingKind then 1 else 0,
                       journal := Mark(w.past.journal, uid, Withdrawn)))
  }

  function ForgetHandle(w: World, uid: Uid): World {
    w.(handles := w.handles - {uid}, handleOrder := Without(w.handleOrder, uid))
  }

  function Enqueue(w: World, uid: Uid, kind: EventKind): World {
    w.(pendingKind := w.pendingKind[uid := kind], pendingOrder := w.pendingOrder + [uid],
       past := w.past.(accepted := w.past.accepted + 1, journal := w.past.journal + [Entry(uid, Waiting)]))
  }

  function Remove(env: Env, w: World, uid: Uid): World {
    var w1 := Withdraw(w, uid);
    if uid in w1.handles then CloseHandle(env, ForgetHandle(w1, uid), w1.handles[uid]) else w1
  }

  function Ingest(env: Env, w: World, event: NotificationEvent): (r: World)
    ensures r.inbox == w.inbox && r.decoder == w.decoder && r.outstanding == w.outstanding
  {
    var uid := event.uid;
    if event.PreExisting() && event.kind != Removed then CountDropped(w)
    else if event.kind == Removed then Remove(env, w, uid)
    else if uid in w.pendingKind then
      if event.kind == Modified then w.(pendingKind := w.pendingKind[uid := Modified]) else w
    else if w.outstanding == Some(uid) then
      if event.kind == Modified then Enqueue(w, uid, Modified) else w
    else if PendingLen(w) >= MAX_PENDING_UIDS then CountDropped(w)
    else Enqueue(w, uid, event.kind)
  }

  datatype Reply = Reply(w: World, got: Option<Response>)

  function NoteMalformed(w: World): World {
    NoteError(w.(past := w.past.(malformed := w.past.malformed + 1)), MalformedNotificationSource)
  }

  function IngestPacket(env: Env, w: World, packet: seq<byte>): (r: World)
    ensures r.inbox == w.inbox && r.decoder == w.decoder && r.outstanding == w.outstanding
  {
    match ParseEvent(packet)
    case Ok(event) => Ingest(env, w, event)
    case Err(_) => NoteMalformed(w)
  }

  function Wait(env: Env, w: World): (r: Reply)
    ensures |r.w.inbox| <= |w.inbox| && r.w.outstanding == w.outstanding
    decreases |w.inbox|
  {
    if w.inbox == [] || w.inbox[0] == Timeout then
      Reply(w.(inbox := if w.inbox == [] then [] else w.inbox[1..], decoder := CLEAR,
               meta := w.meta.(timedOut := w.meta.timedOut + 1)), None)
    else
      var w1 := w.(inbox := w.inbox[1..]);
      match w.inbox[0]
      case StreamFailure => Reply(w1, None)
      case DataSource(fragment) =>
        var p := Feed(w1.decoder, fragment);
        var w2 := w1.(decoder := p.after);
        if p.outcome.Err? then Reply(w2, None)
        else if p.outcome.value != [] then Reply(w2, Some(p.outcome.value[0]))
        else Wait(env, w2)
      case NotificationSource(packet) => Wait(env, IngestPacket(env, w1, packet))
  }

  datatype Written = Written(w: World, ok: bool)

  function WriteControl(env: Env, w: World, request: seq<byte>): Written {
    Written(w.(writes := w.writes + [request]), env.writeOk(|w.writes|))
  }

  /** One request: announce the expected answer, write, wait. Failures clear the decoder. */
  function Fetch(env: Env, w: World, expected: Expectation, request: seq<byte>): (r: Reply)
    ensures |r.w.inbox| <= |w.inbox| && r.w.outstanding == w.outstanding
  {
    var sent := WriteControl(env, w.(decoder := Expecting(w.decoder, expected)), request);
    if !sent.ok then Reply(sent.w.(decoder := CLEAR), None)
    else
      var r := Wait(env, sent.w);
      if r.got.None? then r.(w := r.w.(decoder := CLEAR)) else r
  }

  /** Drops oldest entries while the cache is over its bound. */
  function EvictApps(names: map<Text, Text>, order: seq<Text>): (map<Text, Text>, seq<Text>)
    decreases |order|
  {
    if |names| > MAX_CACHED_APPS && order != [] then EvictApps(names - {order[0]}, order[1..]) else (names, order)
  }

  function RetainAppName(w: World, app: Text, name: Text): World {
    var order := if app in w.appNames then w.appOrder else w.appOrder + [app];
    var kept := EvictApps(w.appNames[app := name], order);
    w.(appNames := kept.0, appOrder := kept.1, past := w.past.(lookups := w.past.lookups + [(app, name)]))
  }

  datatype Named = Named(w: World, name: Text)

  function AppName(env: Env, w: World, app: Text): Named {
    if app in w.appNames then Named(w, w.appNames[app])
    else
      match AppAttributesRequest(app)
      case Err(_) => Named(NoteAppFailure(w), app)
      case Ok(request) =>
        var r := Fetch(env, w, ExpectApp(app), request);
        if r.got.Some? && r.got.value.AppAttributes?
        then Named(RetainAppName(r.w, app, r.got.value.displayName), r.got.value.displayName)
        else Named(NoteAppFailure(r.w), app)
  }

  function NoteAppFailure(w: World): World {
    NoteError(w.(past := w.past.(appFailures := w.past.appFailures + 1)), AppAttributesFailed)
  }

  /** Closes and forgets oldest notifications while there are more than the bound. */
  function EvictHandles(env: Env, w: World): World
    decreases |w.handleOrder|
  {
    if |w.handles| <= MAX_ACTIVE_NOTIFICATIONS || w.handleOrder == [] then w
    else
      var oldest := w.handleOrder[0];
      var w1 := w.(handleOrder := w.handleOrder[1..]);
      if oldest in w.handles
      then EvictHandles(env, CloseHandle(env, w1.(handles := w.handles - {oldest}), w.handles[oldest]))
      else EvictHandles(env, w1)
  }

  function RetainHandle(env: Env, w: World, uid: Uid, h: Handle): World {
    EvictHandles(env, w.(handles := w.handles[uid := h],
                         handleOrder := if uid in w.handles then w.handleOrder else w.handleOrder + [uid]))
  }

  function CountDelivered(w: World): World {
    w.(meta := w.meta.(delivered := w.meta.delivered + 1))
  }

  function Deliver(env: Env, w: World, uid: Uid, payload: Payload): World {
    var n := |w.calls|;
    var ok := env.sinkOk(n);
    if uid in w.handles then
      var h := w.handles[uid];
      var w1 := w.(calls := w.calls + [Replace(h, payload, ok)]);
      if ok then CountDelivered(RetainHandle(env, w1, uid, h)) else NoteError(w1, DesktopDeliveryFailed)
    else
      var w1 := w.(calls := w.calls + [Create(payload, if ok then Some(env.newId(n)) else None)]);
      if ok then CountDelivered(RetainHandle(env, w1, uid, env.newId(n))) else NoteError(w1, DesktopDeliveryFailed)
  }

  /** The second cancellation check of the source is kept, although it never fires. */
  function Present(env: Env, w: World, uid: Uid, app: Text, title: Text, message: Text): World {
    var n := AppName(env, w, app);
    if uid in n.w.canceled then n.w.(canceled := n.w.canceled - {uid})
    else Deliver(env, n.w, uid, Payload(n.name, title, message))
  }

  function NoteAttributeFailure(w: World): World {
    NoteError(w.(past := w.past.(attributeFailures := w.past.attributeFailures + 1)), NotificationAttributesFailed)
  }

  function NoteCancelled(w: World): World {
    w.(past := w.past.(cancelled := w.past.cancelled + 1))
  }

  function Settle(env: Env, uid: Uid, r: Reply): World {
    var w := r.w.(outstanding := None, canceled := r.w.canceled - {uid});
    if r.got.None? || !r.got.value.NotificationAttributes? then NoteAttributeFailure(w)
    else if uid in r.w.canceled then NoteCancelled(w)
    else Present(env, w, uid, r.got.value.appIdentifier, r.got.value.title, r.got.value.message)
  }

  /** The next queued UID becomes the outstanding one. */
  function Take(w: World): World
    requires w.pendingOrder != []
  {
    var uid := w.pendingOrder[0];
    w.(pendingOrder := w.pendingOrder[1..], pendingKind := w.pendingKind - {uid},
       outstanding := Some(uid), canceled := w.canceled - {uid},
       past := w.past.(journal := Mark(w.past.journal, uid, Requested)))
  }

  function AttributesReply(env: Env, w: World): Reply
    requires w.pendingOrder != []
  {
    var uid := w.pendingOrder[0];
    Fetch(env, Take(w), ExpectNotification(uid), NotificationAttributesRequest(uid))
  }

  datatype Processed = Processed(w: World, worked: bool)

  function ProcessNext(env: Env, w: World): Processed {
    if w.pendingOrder == [] then Processed(w, false)
    else if w.pendingOrder[0] !in w.pendingKind then Processed(w.(pendingOrder := w.pendingOrder[1..]), true)
    else Processed(Settle(env, w.pendingOrder[0], AttributesReply(env, w)), true)
  }

  function CloseAll(env: Env, w: World, handles: map<Uid, Handle>, order: seq<Uid>): World
    requires forall uid :: uid in order ==> uid in handles
    decreases |order|
  {
    if order == [] then w else CloseAll(env, CloseHandle(env, w, handles[order[0]]), handles, order[1..])
  }

  function End(env: Env, w: World): World
    requires DrainsAll(env)
  {
    var closed := CloseAll(env, w.(handles := map[]), w.handles, env.drain(|w.calls|, w.handles.Keys));
    closed.(pendingOrder := [], pendingKind := map[], outstanding := None, canceled := {},
            appNames := map[], appOrder := [], handleOrder := [], decoder := CLEAR,
            past := closed.past.(discarded := closed.past.discarded + |w.pendingOrder|, lookups := [],
                                 journal := DiscardAll(closed.past.journal)))
  }

  // ----- whole runs -----

  datatype Step = IngestStep(event: NotificationEvent) | ProcessStep(inbox: seq<Input>) | EndStep

  function Do(env: Env, w: World, step: Step): World
    requires DrainsAll(env)
  {
    match step
    case IngestStep(event) => Ingest(env, w, event)
    case ProcessStep(inbox) => ProcessNext(env, w.(inbox := inbox)).w
    case EndStep => End(env, w)
  }

  function Run(env: Env, w: World, steps: seq<Step>): World
    requires DrainsAll(env)
    decreases |steps|
  {
    if steps == [] then w else Run(env, Do(env, w, steps[0]), steps[1..])
  }
}
