/** What every engine operation keeps. */
module SessionInvariants {
  import opened Bytes
  import opened Codec
  import opened Decoder
  import opened Collections
  import opened Session

  // ----- pending queue -----

  ghost predicate QueueSound(order: seq<Uid>, kind: map<Uid, EventKind>, outstanding: Option<Uid>, canceled: set<Uid>) {
    && Agree(order, kind)
    && WaitingLen(kind, outstanding) <= MAX_PENDING_UIDS
    && canceled <= (if outstanding.Some? then {outstanding.value} else {})
  }

  // ----- app-name cache -----

  function Recent(lookups: seq<(Text, Text)>): seq<(Text, Text)> {
    if |lookups| <= MAX_CACHED_APPS then lookups else lookups[|lookups| - MAX_CACHED_APPS..]
  }

  /** Queue and map tell the same names for a list of lookups. */
  ghost predicate Holds(names: map<Text, Text>, order: seq<Text>, recent: seq<(Text, Text)>) {
    |order| == |recent| &&
    forall i :: 0 <= i < |recent| ==> order[i] == recent[i].0 && order[i] in names && names[order[i]] == recent[i].1
  }

  /** The cache holds exactly the last hundred successful lookups, oldest first, each with the name it returned. */
  ghost predicate CacheSound(names: map<Text, Text>, order: seq<Text>, lookups: seq<(Text, Text)>) {
    Agree(order, names) && Holds(names, order, Recent(lookups))
  }

  // ----- life of a desktop handle -----

  datatype Phase = Unborn | Live | Gone | Broken

  function NextPhase(p: Phase, c: SinkCall, h: Handle): Phase {
    match c
    case Create(_, made) => if made != Some(h) then p else if p == Unborn then Live else Broken
    case Replace(g, _, _) => if g != h then p else if p == Live then Live else Broken
    case Close(g, _) => if g != h then p else if p == Live then Gone else Broken
  }

  function PhaseOf(calls: seq<SinkCall>, h: Handle): Phase
    decreases |calls|
  {
    if calls == [] then Unborn else NextPhase(PhaseOf(calls[..|calls| - 1], h), calls[|calls| - 1], h)
  }

  ghost predicate UsedIdsKnown(env: Env, calls: seq<SinkCall>) {
    forall h :: PhaseOf(calls, h) != Unborn ==> exists n :: 0 <= n < |calls| && env.newId(n) == h
  }

  /** No handle is misused, and the live handles are exactly the mapped ones, one for each UID, and the `lost` ones. */
  ghost predicate HandlesBut(env: Env, calls: seq<SinkCall>, handles: map<Uid, Handle>, lost: set<Handle>) {
    && (forall h :: PhaseOf(calls, h) != Broken)
    && (forall uid :: uid in handles ==> PhaseOf(calls, handles[uid]) == Live)
    && (forall h :: PhaseOf(calls, h) == Live ==> h in handles.Values || h in lost)
    && (forall h :: h in lost ==> PhaseOf(calls, h) == Live && h !in handles.Values)
    && (forall u, v :: u in handles && v in handles && handles[u] == handles[v] ==> u == v)
    && UsedIdsKnown(env, calls)
  }

  /** No handle is lost. */
  ghost predicate HandlesSound(env: Env, calls: seq<SinkCall>, handles: map<Uid, Handle>) {
    HandlesBut(env, calls, handles, {})
  }

  // ----- accounts -----

  predicate IsAttempt(c: SinkCall) {
    c.Create? || c.Replace?
  }

  predicate IsDelivery(c: SinkCall) {
    (c.Create? && c.made.Some?) || (c.Replace? && c.ok)
  }

  predicate IsFailedCall(c: SinkCall) {
    (c.Create? && c.made.None?) || (c.Replace? && !c.ok) || (c.Close? && !c.ok)
  }

  predicate IsAttributesRequest(request: seq<byte>) {
    request != [] && request[0] == GET_NOTIFICATION_ATTRIBUTES
  }

  function Attempts(calls: seq<SinkCall>): nat {
    Count(calls, IsAttempt)
  }

  function Deliveries(calls: seq<SinkCall>): nat {
    Count(calls, IsDelivery)
  }

  function FailedCalls(calls: seq<SinkCall>): nat {
    Count(calls, IsFailedCall)
  }

  function AttributesRequests(writes: seq<seq<byte>>): nat {
    Count(writes, IsAttributesRequest)
  }

  /**
   * Enqueued UIDs are requested, withdrawn, discarded or still queued (`unsent` is 1 between pop and write);
   * requested UIDs are presented, cancelled or failed (`open` is 1 while one is being processed);
   * the two counters are what the traces say.
   */
  predicate Balanced(w: World, unsent: nat, open: nat) {
    && w.past.accepted == AttributesRequests(w.writes) + unsent + w.past.withdrawn + w.past.discarded + |w.pendingOrder|
    && AttributesRequests(w.writes) == Attempts(w.calls) + w.past.cancelled + w.past.attributeFailures + open
    && w.meta.delivered == Deliveries(w.calls)
    && w.meta.errors == FailedCalls(w.calls) + w.past.attributeFailures + w.past.appFailures + w.past.malformed
  }

  ghost predicate Sound(env: Env, w: World, unsent: nat, open: nat) {
    && QueueSound(w.pendingOrder, w.pendingKind, w.outstanding, w.canceled)
    && HandlesSound(env, w.calls, w.handles)
    && Agree(w.handleOrder, w.handles) && |w.handles| <= MAX_ACTIVE_NOTIFICATIONS
    && CacheSound(w.appNames, w.appOrder, w.past.lookups)
    && Balanced(w, unsent, open)
  }

  /** Between two operations nothing is outstanding and the decoder is empty. */
  ghost predicate Quiet(env: Env, w: World) {
    Sound(env, w, 0, 0) && w.outstanding == None && w.decoder == CLEAR
  }

  // ----- effect of one sink call -----

  lemma PhasesPushed(calls: seq<SinkCall>, c: SinkCall)
    ensures forall h :: PhaseOf(calls + [c], h) == NextPhase(PhaseOf(calls, h), c, h)
  {}

  lemma CountsPushed(calls: seq<SinkCall>, c: SinkCall)
    ensures Attempts(calls + [c]) == Attempts(calls) + if IsAttempt(c) then 1 else 0
    ensures Deliveries(calls + [c]) == Deliveries(calls) + if IsDelivery(c) then 1 else 0
    ensures FailedCalls(calls + [c]) == FailedCalls(calls) + if IsFailedCall(c) then 1 else 0
  {}

  lemma UsedIdsGrow(env: Env, calls: seq<SinkCall>, c: SinkCall)
    requires UsedIdsKnown(env, calls)
    requires c.Create? && c.made.Some? ==> c.made.value == env.newId(|calls|)
    requires (c.Replace? || c.Close?) ==> PhaseOf(calls, c.handle) == Live
    ensures UsedIdsKnown(env, calls + [c])
  {}

  /** Closing the handle of a UID that leaves the map keeps every handle's life in order. */
  lemma CloseKeepsLives(env: Env, calls: seq<SinkCall>, handles: map<Uid, Handle>, lost: set<Handle>, uid: Uid, ok: bool)
    requires HandlesBut(env, calls, handles, lost) && uid in handles
    ensures HandlesBut(env, calls + [Close(handles[uid], ok)], handles - {uid}, lost)
  {
    var c := Close(handles[uid], ok);
    PhasesPushed(calls, c);
    UsedIdsGrow(env, calls, c);
    hide PhaseOf, UsedIdsKnown;
    var rest := handles - {uid};
    forall h | PhaseOf(calls + [c], h) == Live ensures h in rest.Values || h in lost {
      if h !in lost {
        var v :| v in handles && handles[v] == h;
        assert v in rest && rest[v] == h;
      }
    }
    forall h | h in lost ensures PhaseOf(calls + [c], h) == Live && h !in rest.Values {
      assert handles[uid] in handles.Values;
      assert forall v :: v in rest ==> rest[v] in handles.Values;
    }
  }

  lemma CloseKeepsHandles(env: Env, calls: seq<SinkCall>, handles: map<Uid, Handle>, uid: Uid, ok: bool)
    requires HandlesSound(env, calls, handles) && uid in handles
    ensures HandlesSound(env, calls + [Close(handles[uid], ok)], handles - {uid})
  {
    hide HandlesBut;
    CloseKeepsLives(env, calls, handles, {}, uid, ok);
  }

  /** A created handle is unused; whether it is mapped or lost, it is alive from now on. */
  lemma CreateKeepsLives(env: Env, calls: seq<SinkCall>, handles: map<Uid, Handle>, lost: set<Handle>, payload: Payload)
    requires FreshIds(env) && HandlesBut(env, calls, handles, lost)
    ensures var id := env.newId(|calls|);
            && HandlesBut(env, calls + [Create(payload, Some(id))], handles, lost + {id})
            && id !in handles.Values && id !in lost
  {
    var id := env.newId(|calls|);
    var c := Create(payload, Some(id));
    PhasesPushed(calls, c);
    UsedIdsGrow(env, calls, c);
    hide PhaseOf;
    assert PhaseOf(calls, id) == Unborn;
  }

  lemma MapKeepsLives(env: Env, calls: seq<SinkCall>, handles: map<Uid, Handle>, lost: set<Handle>, uid: Uid, id: Handle)
    requires HandlesBut(env, calls, handles, lost) && id in lost && uid !in handles
    ensures HandlesBut(env, calls, handles[uid := id], lost - {id})
  {
    hide PhaseOf, UsedIdsKnown;
    var more := handles[uid := id];
    assert uid in more && more[uid] == id;
    forall h | PhaseOf(calls, h) == Live ensures h in more.Values || h in lost - {id} {
      if h != id && h !in lost {
        var v :| v in handles && handles[v] == h;
        assert v in more && more[v] == h;
      }
    }
    forall h | h in lost - {id} ensures h !in more.Values {
      assert forall v :: v in handles ==> handles[v] in handles.Values;
    }
    forall v | v in handles ensures handles[v] != id {
      assert handles[v] in handles.Values;
    }
  }

  lemma CreateKeepsHandles(env: Env, calls: seq<SinkCall>, handles: map<Uid, Handle>, uid: Uid, payload: Payload)
    requires FreshIds(env) && HandlesSound(env, calls, handles) && uid !in handles
    ensures var id := env.newId(|calls|); HandlesSound(env, calls + [Create(payload, Some(id))], handles[uid := id])
  {
    CreateAndMapKeepsLives(env, calls, handles, {}, uid, payload);
    hide HandlesBut;
  }

  lemma CreateAndMapKeepsLives(env: Env, calls: seq<SinkCall>, handles: map<Uid, Handle>, lost: set<Handle>, uid: Uid,
                               payload: Payload)
    requires FreshIds(env) && HandlesBut(env, calls, handles, lost) && uid !in handles
    ensures var id := env.newId(|calls|); HandlesBut(env, calls + [Create(payload, Some(id))], handles[uid := id], lost)
  {
    hide HandlesBut;
    var id := env.newId(|calls|);
    CreateKeepsLives(env, calls, handles, lost, payload);
    MapKeepsLives(env, calls + [Create(payload, Some(id))], handles, lost + {id}, uid, id);
    assert lost + {id} - {id} == lost;
  }

  lemma OtherCallKeepsLives(env: Env, calls: seq<SinkCall>, handles: map<Uid, Handle>, lost: set<Handle>, c: SinkCall)
    requires HandlesBut(env, calls, handles, lost)
    requires (c.Create? && c.made.None?) || (c.Replace? && exists uid :: uid in handles && handles[uid] == c.handle)
    ensures HandlesBut(env, calls + [c], handles, lost)
  {
    PhasesPushed(calls, c);
    UsedIdsGrow(env, calls, c);
    hide PhaseOf, UsedIdsKnown;
  }

  lemma OtherCallKeepsHandles(env: Env, calls: seq<SinkCall>, handles: map<Uid, Handle>, c: SinkCall)
    requires HandlesSound(env, calls, handles)
    requires (c.Create? && c.made.None?) || (c.Replace? && exists uid :: uid in handles && handles[uid] == c.handle)
    ensures HandlesSound(env, calls + [c], handles)
  {
    OtherCallKeepsLives(env, calls, handles, {}, c);
    hide HandlesBut;
  }

  // ----- ingest -----

  lemma WithdrawKeepsQueue(order: seq<Uid>, kinds: map<Uid, EventKind>, outstanding: Option<Uid>, canceled: set<Uid>,
                           uid: Uid)
    requires QueueSound(order, kinds, outstanding, canceled)
    ensures QueueSound(Without(order, uid), kinds - {uid}, outstanding,
                       if outstanding == Some(uid) then canceled + {uid} else canceled)
    ensures |Without(order, uid)| == |order| - if uid in kinds then 1 else 0
  {
    AgreeWithout(order, kinds, uid);
    ListsSize(order, kinds.Keys);
    ListsSize(Without(order, uid), (kinds - {uid}).Keys);
    hide Agree;
  }

  lemma WithdrawKeeps(env: Env, w: World, uid: Uid, unsent: nat, open: nat)
    requires Sound(env, w, unsent, open)
    ensures Sound(env, Withdraw(w, uid), unsent, open)
  {
    hide HandlesSound, CacheSound, QueueSound, Attempts, Deliveries, FailedCalls, AttributesRequests;
    WithdrawKeepsQueue(w.pendingOrder, w.pendingKind, w.outstanding, w.canceled, uid);
  }

  lemma EnqueueKeeps(env: Env, w: World, uid: Uid, kind: EventKind, unsent: nat, open: nat)
    requires Sound(env, w, unsent, open)
    requires uid !in w.pendingKind && (w.outstanding == Some(uid) || PendingLen(w) < MAX_PENDING_UIDS)
    ensures Sound(env, Enqueue(w, uid, kind), unsent, open)
  {}

  lemma ForgetKeeps(env: Env, w: World, uid: Uid, unsent: nat, open: nat)
    requires Sound(env, w, unsent, open) && uid in w.handles
    ensures Sound(env, CloseHandle(env, ForgetHandle(w, uid), w.handles[uid]), unsent, open)
  {
    hide HandlesSound, CacheSound, QueueSound, Attempts, Deliveries, FailedCalls, AttributesRequests;
    var ok := env.sinkOk(|w.calls|);
    AgreeWithout(w.handleOrder, w.handles, uid);
    CountsPushed(w.calls, Close(w.handles[uid], ok));
    CloseKeepsHandles(env, w.calls, w.handles, uid, ok);
  }

  lemma MarkModifiedKeeps(env: Env, w: World, uid: Uid, unsent: nat, open: nat)
    requires Sound(env, w, unsent, open) && uid in w.pendingKind
    ensures Sound(env, w.(pendingKind := w.pendingKind[uid := Modified]), unsent, open)
  {
    hide HandlesSound, CacheSound, Attempts, Deliveries, FailedCalls, AttributesRequests;
    assert w.pendingKind[uid := Modified].Keys == w.pendingKind.Keys;
  }

  /** Every event, at rest or during a request, keeps containers, bounds, handle lives and accounts. */
  lemma IngestKeeps(env: Env, w: World, event: NotificationEvent, unsent: nat, open: nat)
    requires Sound(env, w, unsent, open)
    ensures Sound(env, Ingest(env, w, event), unsent, open)
  {
    var uid := event.uid;
    hide HandlesSound, CacheSound, QueueSound, Attempts, Deliveries, FailedCalls, AttributesRequests;
    if event.PreExisting() && event.kind != Removed {
    } else if event.kind == Removed {
      WithdrawKeeps(env, w, uid, unsent, open);
      hide Withdraw;
      if uid in Withdraw(w, uid).handles {
        ForgetKeeps(env, Withdraw(w, uid), uid, unsent, open);
      }
    } else if uid in w.pendingKind {
      MarkModifiedKeeps(env, w, uid, unsent, open);
    } else if w.outstanding == Some(uid) || PendingLen(w) < MAX_PENDING_UIDS {
      EnqueueKeeps(env, w, uid, if w.outstanding == Some(uid) then Modified else event.kind, unsent, open);
    }
  }

  lemma PacketKeeps(env: Env, w: World, packet: seq<byte>, unsent: nat, open: nat)
    requires Sound(env, w, unsent, open)
    ensures Sound(env, IngestPacket(env, w, packet), unsent, open)
  {
    hide ParseEvent, Ingest, HandlesSound, CacheSound, QueueSound;
    if ParseEvent(packet).Ok? {
      IngestKeeps(env, w, ParseEvent(packet).value, unsent, open);
    }
  }
}
