/**
 * Whose answers requests get over runs with dropped packets: the expectations that are left over are always those of
 * the last requests sent, so answers lag behind by that many requests until one fails.
 */
module AnswerLag {
  import opened Bytes
  import opened Codec
  import opened Decoder
  import opened Collections
  import opened Session
  import opened SessionInvariants
  import opened SessionRuns
  import opened QueueOrder
  import opened Interruptions
  import opened Survival
  import opened StaleAnswers
  import opened SessionDrops

  /** The octets that ask for what is expected. */
  function RequestOf(e: Expectation): seq<byte> {
    match e
    case ExpectNotification(uid) => NotificationAttributesRequest(uid)
    case ExpectApp(app) => [GET_APP_ATTRIBUTES] + app + [0, DISPLAY_NAME]
  }

  predicate Suffix<T(==)>(a: seq<T>, b: seq<T>) {
    |a| <= |b| && a == b[|b| - |a|..]
  }

  /** What is still expected was asked for last, in this order. */
  predicate AskedLast(expected: seq<Expectation>, writes: seq<seq<byte>>) {
    |expected| <= |writes|
    && forall i :: 0 <= i < |expected| ==> writes[|writes| - |expected| + i] == RequestOf(expected[i])
  }

  predicate Lagging(w: World) {
    AskedLast(w.decoder.expected, w.writes)
  }

  lemma SuffixAsked(a: seq<Expectation>, b: seq<Expectation>, writes: seq<seq<byte>>)
    requires Suffix(a, b) && AskedLast(b, writes)
    ensures AskedLast(a, writes)
  {
    hide RequestOf;
    forall i | 0 <= i < |a| ensures writes[|writes| - |a| + i] == RequestOf(a[i]) {
      assert a[i] == b[|b| - |a| + i];
    }
  }

  lemma OneMoreAsked(expected: seq<Expectation>, writes: seq<seq<byte>>, e: Expectation)
    requires AskedLast(expected, writes)
    ensures AskedLast(expected + [e], writes + [RequestOf(e)])
  {
    hide RequestOf;
  }

  // ----- one operation -----

  lemma {:induction false} DrainLeavesSuffix(b: Buffer)
    ensures Suffix(Drain(b).rest.expected, b.expected)
    decreases |b.expected|
  {
    hide Parse;
    if b.expected != [] && Parse(b.bytes, b.expected[0]).Done? {
      DrainLeavesSuffix(Buffer(b.bytes[Parse(b.bytes, b.expected[0]).consumed..], b.expected[1..]));
    }
  }

  lemma FeedLeavesSuffix(b: Buffer, fragment: seq<byte>)
    ensures Suffix(Feed(b, fragment).after.expected, b.expected)
  {
    DrainLeavesSuffix(b.(bytes := b.bytes + fragment));
    hide Drain;
  }

  lemma {:induction false} WaitLags(env: Env, w: World)
    requires Lagging(w)
    ensures Lagging(Wait(env, w).w)
    ensures forall left :: InWait(env, w, left) ==> Lagging(left) && left.writes == w.writes
    decreases |w.inbox|
  {
    hide Feed, AskedLast, IngestPacket, InPacket;
    ClearLags(w.writes);
    if w.inbox != [] {
      var w1 := w.(inbox := w.inbox[1..]);
      match w.inbox[0]
      case Timeout =>
      case StreamFailure =>
      case DataSource(fragment) =>
        FeedLeavesSuffix(w.decoder, fragment);
        SuffixAsked(Feed(w.decoder, fragment).after.expected, w.decoder.expected, w.writes);
        if Feed(w.decoder, fragment).outcome == Ok([]) {
          WaitLags(env, w1.(decoder := Feed(w.decoder, fragment).after));
        }
      case NotificationSource(packet) =>
        PacketKeepsWrites(env, w1, packet);
        WaitLags(env, IngestPacket(env, w1, packet));
    }
  }

  lemma ClearLags(writes: seq<seq<byte>>)
    ensures AskedLast(CLEAR.expected, writes)
  {}

  lemma IngestKeepsWrites(env: Env, w: World, event: NotificationEvent)
    ensures Ingest(env, w, event).writes == w.writes && Ingest(env, w, event).decoder == w.decoder
    ensures forall left :: InIngest(env, w, event, left) ==> left.writes == w.writes && left.decoder == w.decoder
  {
    IngestFrame(env, w, event);
    hide Without, WaitingLen, Ingest, Mark;
  }

  lemma PacketKeepsWrites(env: Env, w: World, packet: seq<byte>)
    ensures IngestPacket(env, w, packet).writes == w.writes && IngestPacket(env, w, packet).decoder == w.decoder
    ensures forall left :: InPacket(env, w, packet, left) ==> left.writes == w.writes && left.decoder == w.decoder
  {
    hide ParseEvent, Ingest, InIngest;
    if ParseEvent(packet).Ok? {
      IngestKeepsWrites(env, w, ParseEvent(packet).value);
    }
  }

  lemma FetchLags(env: Env, w: World, expected: Expectation)
    requires Lagging(w)
    ensures Lagging(Fetch(env, w, expected, RequestOf(expected)).w)
    ensures forall left :: InFetch(env, w, expected, RequestOf(expected), left) ==> Lagging(left)
  {
    hide Wait, InWait, RequestOf, AskedLast;
    OneMoreAsked(w.decoder.expected, w.writes, expected);
    var sent := WriteControl(env, w.(decoder := Expecting(w.decoder, expected)), RequestOf(expected));
    WaitLags(env, sent.w);
    ClearLags(sent.w.writes);
    ClearLags(Wait(env, sent.w).w.writes);
  }

  lemma AppNameLags(env: Env, w: World, app: Text)
    requires Lagging(w)
    ensures Lagging(AppName(env, w, app).w)
    ensures forall left :: InAppName(env, w, app, left) ==> Lagging(left)
  {
    hide Fetch, InFetch, AskedLast, EvictApps;
    FetchLags(env, w, ExpectApp(app));
  }

  lemma {:induction false} EvictKeepsDecoder(env: Env, w: World)
    ensures var r := EvictHandles(env, w);
            r.decoder == w.decoder && r.writes == w.writes && r.pendingOrder == w.pendingOrder && r.appNames == w.appNames
    ensures forall left :: InEvict(env, w, left) ==> left.decoder == w.decoder && left.writes == w.writes
    decreases |w.handleOrder|
  {
    if |w.handles| > MAX_ACTIVE_NOTIFICATIONS && w.handleOrder != [] {
      var oldest := w.handleOrder[0];
      var w1 := w.(handleOrder := w.handleOrder[1..]);
      EvictKeepsDecoder(env, if oldest in w.handles
                             then CloseHandle(env, w1.(handles := w.handles - {oldest}), w.handles[oldest]) else w1);
    }
  }

  lemma DeliverKeepsDecoder(env: Env, w: World, uid: Uid, payload: Payload)
    ensures var r := Deliver(env, w, uid, payload);
            r.decoder == w.decoder && r.writes == w.writes && r.pendingOrder == w.pendingOrder && r.appNames == w.appNames
    ensures forall left :: InDeliver(env, w, uid, payload, left) ==> left.decoder == w.decoder && left.writes == w.writes
  {
    DeliverIsCallThenMap(env, w, uid, payload);
    EvictKeepsDecoder(env, Mapped(env, w, uid, payload));
    hide EvictHandles, InEvict, Deliver;
  }

  lemma PresentLags(env: Env, w: World, uid: Uid, app: Text, title: Text, message: Text)
    requires Lagging(w)
    ensures Lagging(Present(env, w, uid, app, title, message))
    ensures forall left :: InPresent(env, w, uid, app, title, message, left) ==> Lagging(left)
  {
    hide AppName, InAppName, Deliver, InDeliver, AskedLast;
    AppNameLags(env, w, app);
    var n := AppName(env, w, app);
    DeliverKeepsDecoder(env, n.w, uid, Payload(n.name, title, message));
  }

  lemma ProcessLags(env: Env, w: World)
    requires Lagging(w)
    ensures Lagging(ProcessNext(env, w).w)
    ensures forall left :: InProcess(env, w, left) ==> Lagging(left)
  {
    if w.pendingOrder != [] {
      var uid, r := w.pendingOrder[0], AttributesReply(env, w);
      TakeKeepsDecoder(w);
      FetchLags(env, Take(w), ExpectNotification(uid));
      SettleForms(env, uid, r);
      hide Fetch, InFetch, AskedLast, Settle, Present, InPresent, NotificationAttributesRequest;
      if r.got.Some? && r.got.value.NotificationAttributes? {
        PresentLags(env, r.w.(outstanding := None, canceled := r.w.canceled - {uid}), uid,
                    r.got.value.appIdentifier, r.got.value.title, r.got.value.message);
      }
    }
  }

  lemma HandlingLags(env: Env, w: World, packet: seq<byte>, left: World)
    requires Lagging(w) && InHandling(env, w, packet, left)
    ensures Lagging(left)
  {
    hide ParseEvent, Ingest, InIngest, InProcess, AskedLast;
    IngestKeepsWrites(env, w, ParseEvent(packet).value);
    ProcessLags(env, Ingest(env, w, ParseEvent(packet).value));
  }

  lemma StepLags(env: Env, w: World, s: DropStep)
    requires DrainsAll(env) && Lagging(w)
    ensures Lagging(DoOrDrop(env, w, s))
  {
    hide Ingest, ProcessNext, InHandling, CloseAll, DiscardAll, DrainsAll, AskedLast;
    match s
    case Dropped(packet, inbox, left) =>
      if Possible(env, w, s) {
        HandlingLags(env, w.(inbox := inbox), packet, left);
      }
    case Whole(step) =>
      match step
      case IngestStep(event) => IngestKeepsWrites(env, w, event);
      case ProcessStep(inbox) => ProcessLags(env, w.(inbox := inbox));
      case EndStep => ClearLags(End(env, w).writes);
  }

  lemma {:induction false} RunLags(env: Env, w: World, steps: seq<DropStep>)
    requires DrainsAll(env) && Lagging(w)
    ensures Lagging(RunWithDrops(env, w, steps))
    decreases |steps|
  {
    hide DoOrDrop, DrainsAll, Lagging;
    if steps != [] {
      StepLags(env, w, steps[0]);
      RunLags(env, DoOrDrop(env, w, steps[0]), steps[1..]);
    }
  }

  // ----- over runs -----

  lemma OneRequest(e1: Expectation, e2: Expectation)
    requires RequestOf(e1) == RequestOf(e2)
    ensures e1 == e2
  {
    var r1, r2 := RequestOf(e1), RequestOf(e2);
    assert r1[0] == r2[0];
    if e1.ExpectApp? {
      assert e1.app == r1[1..|r1| - 2] == r2[1..|r2| - 2];
    } else {
      assert U32ToLe(e1.uid) == r1[1..5] == r2[1..5];
    }
  }

  /** With so many expectations left over, the answer taken is one to the request sent that many requests earlier. */
  lemma LaggingAnswer(env: Env, w: World, expected: Expectation) returns (answered: Expectation)
    requires Lagging(w)
    ensures var lag, r := |w.decoder.expected|, Fetch(env, w, expected, RequestOf(expected));
            && lag <= |w.writes|
            && var earlier := (w.writes + [RequestOf(expected)])[|w.writes| - lag];
            && RequestOf(answered) == earlier
            && (r.got.Some? ==>
                  && Answers(r.got.value, answered)
                  && (Answers(r.got.value, expected) <==> earlier == RequestOf(expected)))
  {
    answered := Oldest(w, expected);
    AnswersItsOwnRequestExactly(env, w, expected, RequestOf(expected));
    hide RequestOf, Fetch, Answers;
    OneMoreAsked(w.decoder.expected, w.writes, expected);
    assert answered == (w.decoder.expected + [expected])[0];
    if RequestOf(answered) == RequestOf(expected) {
      OneRequest(answered, expected);
    }
  }

  /**
   * After any run with any drops, as many expectations are left over as answers lag behind: whatever is asked next
   * and whatever arrives, the answer taken is one to the request sent that many requests earlier. So it is the
   * request's own if and only if that one asked the same.
   */
  lemma AnswersLagBehind(env: Env, steps: seq<DropStep>, inbox: seq<Input>, expected: Expectation)
    returns (answered: Expectation)
    requires GoodEnv(env)
    ensures var w := RunWithDrops(env, INITIAL, steps).(inbox := inbox);
            var lag, r := |w.decoder.expected|, Fetch(env, w, expected, RequestOf(expected));
            && lag <= Drops(steps) && lag <= |w.writes|
            && var earlier := (w.writes + [RequestOf(expected)])[|w.writes| - lag];
            && RequestOf(answered) == earlier
            && (r.got.Some? ==>
                  && Answers(r.got.value, answered)
                  && (Answers(r.got.value, expected) <==> earlier == RequestOf(expected)))
  {
    hide RunWithDrops, DrainsAll, FreshIds, RequestOf, Fetch, Answers, Agree, AskedLast;
    DropsKeepBounds(env, steps);
    ClearLags(INITIAL.writes);
    RunLags(env, INITIAL, steps);
    answered := LaggingAnswer(env, RunWithDrops(env, INITIAL, steps).(inbox := inbox), expected);
  }

  /** Without a further drop the lag never grows, and a request that gets no answer ends it. */
  lemma LagEndsWithAFailure(env: Env, steps: seq<DropStep>, inbox: seq<Input>)
    requires GoodEnv(env)
    requires RunWithDrops(env, INITIAL, steps).pendingOrder != []
    ensures var w := RunWithDrops(env, INITIAL, steps).(inbox := inbox);
            var next := ProcessNext(env, w).w;
            && |next.decoder.expected| <= |w.decoder.expected|
            && (AttributesReply(env, w).got.None? ==> next.decoder == CLEAR)
  {
    hide RunWithDrops, DrainsAll, FreshIds, Survives, ProcessNext, AttributesReply;
    var suspects, lost := ReachedSurvives(env, steps);
    LagShrinks(env, RunWithDrops(env, INITIAL, steps), inbox, Drops(steps), suspects, lost);
  }

  lemma LagShrinks(env: Env, v: World, inbox: seq<Input>, e: nat, suspects: set<Uid>, lost: set<Handle>)
    requires FreshIds(env) && Survives(env, v, e, suspects, lost) && v.pendingOrder != []
    ensures var w := v.(inbox := inbox);
            var next := ProcessNext(env, w).w;
            && |next.decoder.expected| <= |w.decoder.expected|
            && (AttributesReply(env, w).got.None? ==> next.decoder == CLEAR)
  {
    hide FreshIds, Survives, ProcessNext, AttributesReply;
    var w, lag := v.(inbox := inbox), |v.decoder.expected|;
    SharpSurvives(env, v, e, suspects, lost);
    InboxSurvives(env, v, inbox, lag, suspects, lost);
    ProcessSurvives(env, w, lag, suspects, lost);
    ExpectationsBounded(env, ProcessNext(env, w).w, lag, suspects, lost);
    QueuedIsPending(env, w, lag, suspects, lost);
    if AttributesReply(env, w).got.None? {
      SilenceClears(env, w);
    }
  }

  lemma SharpSurvives(env: Env, w: World, e: nat, suspects: set<Uid>, lost: set<Handle>)
    requires Survives(env, w, e, suspects, lost)
    ensures Survives(env, w, |w.decoder.expected|, suspects, lost)
  {
    hide QueueSound, HandlesBut, CacheSound, Fifo, Agree, Suspects;
  }

  lemma ExpectationsBounded(env: Env, w: World, e: nat, suspects: set<Uid>, lost: set<Handle>)
    requires Survives(env, w, e, suspects, lost)
    ensures |w.decoder.expected| <= e
  {
    hide QueueSound, HandlesBut, CacheSound, Fifo, Agree, Suspects;
  }

  lemma QueuedIsPending(env: Env, w: World, e: nat, suspects: set<Uid>, lost: set<Handle>)
    requires Survives(env, w, e, suspects, lost) && w.pendingOrder != []
    ensures w.pendingOrder[0] in w.pendingKind
  {
    hide HandlesBut, CacheSound, Fifo, Suspects, Buffered;
  }

  lemma SilenceClears(env: Env, w: World)
    requires w.pendingOrder != [] && w.pendingOrder[0] in w.pendingKind && AttributesReply(env, w).got.None?
    ensures ProcessNext(env, w).w.decoder == CLEAR
  {
    hide Wait, NotificationAttributesRequest, Present;
  }

  // ----- names -----

  lemma DrainLeavesFewer(b: Buffer)
    ensures Drain(b).decoded != [] ==> b.expected != [] && Suffix(Drain(b).rest.expected, b.expected[1..])
  {
    hide Parse;
    if b.expected != [] && Parse(b.bytes, b.expected[0]).Done? {
      DrainLeavesSuffix(Buffer(b.bytes[Parse(b.bytes, b.expected[0]).consumed..], b.expected[1..]));
    }
  }

  /** An answer uses up the oldest expectation, and those that were answered in the same fragment. */
  lemma {:induction false} WaitUsesUp(env: Env, w: World)
    ensures var r := Wait(env, w);
            r.got.Some? ==> w.decoder.expected != [] && Suffix(r.w.decoder.expected, w.decoder.expected[1..])
    decreases |w.inbox|
  {
    hide Drain, IngestPacket, Suffix;
    if w.inbox != [] {
      var w1 := w.(inbox := w.inbox[1..]);
      match w.inbox[0]
      case Timeout =>
      case StreamFailure =>
      case DataSource(fragment) =>
        FeedAnswersOldest(w.decoder, fragment);
        DrainLeavesFewer(w.decoder.(bytes := w.decoder.bytes + fragment));
        if Feed(w.decoder, fragment).outcome == Ok([]) {
          hide Feed;
          WaitUsesUp(env, w1.(decoder := Feed(w.decoder, fragment).after));
        }
      case NotificationSource(packet) => WaitUsesUp(env, IngestPacket(env, w1, packet));
    }
  }

  /**
   * With at most one expectation left over, a lookup that follows the attributes of a UID remembers a name only if it
   * was sent for the app asked for.
   */
  lemma NameIsItsOwn(env: Env, w: World, later: World, app: Text)
    requires w.pendingOrder != [] && |w.decoder.expected| <= 1 && AttributesReply(env, w).got.Some?
    requires later.decoder == AttributesReply(env, w).w.decoder
    ensures var got := Fetch(env, later, ExpectApp(app), RequestOf(ExpectApp(app))).got;
            got.Some? && got.value.AppAttributes? ==> got.value.app == app
  {
    var uid := w.pendingOrder[0];
    TakeKeepsDecoder(w);
    hide NotificationAttributesRequest, RequestOf, Wait, Encodable, Encode, ValidUtf8;
    WaitUsesUp(env, WriteControl(env, Take(w).(decoder := Expecting(w.decoder, ExpectNotification(uid))),
                                 NotificationAttributesRequest(uid)).w);
    AnswersItsOwnRequestExactly(env, later, ExpectApp(app), RequestOf(ExpectApp(app)));
    hide Fetch;
  }

  /** In every run with at most one drop: whichever name is found for an app was sent for that app. */
  lemma OneDropLeavesNamesRight(env: Env, steps: seq<DropStep>, inbox: seq<Input>, app: Text)
    requires GoodEnv(env) && Drops(steps) <= 1 && RunWithDrops(env, INITIAL, steps).pendingOrder != []
    ensures var d := RunWithDrops(env, INITIAL, steps).(inbox := inbox);
            var uid, r := d.pendingOrder[0], AttributesReply(env, d);
            var w := r.w.(outstanding := None, canceled := r.w.canceled - {uid});
            var got := Fetch(env, w, ExpectApp(app), RequestOf(ExpectApp(app))).got;
            r.got.Some? && got.Some? && got.value.AppAttributes? ==> got.value.app == app
  {
    DropsKeepBounds(env, steps);
    var d := RunWithDrops(env, INITIAL, steps).(inbox := inbox);
    hide RunWithDrops, GoodEnv, AttributesReply, Fetch, Agree, RequestOf;
    var uid, r := d.pendingOrder[0], AttributesReply(env, d);
    if r.got.Some? {
      NameIsItsOwn(env, d, r.w.(outstanding := None, canceled := r.w.canceled - {uid}), app);
    }
  }

  // ----- a phone that answers one request late -----

  function OnlyAnswer(answer: Response): seq<Input>
    requires Encodable(answer)
  {
    [DataSource(Encode(answer))]
  }

  /** The engine still expects the attributes of `last`, with nothing buffered. */
  predicate OneBehind(w: World, last: Uid) {
    w.decoder == Buffer([], [ExpectNotification(last)])
  }

  /**
   * Each answer is the one to the request before: the first is for `last`, the next for the first queued UID, and so
   * on; the names of their apps are known.
   */
  predicate AnswersLate(queue: seq<Uid>, names: map<Text, Text>, last: Uid, answers: seq<Response>) {
    && |answers| <= |queue|
    && (forall i :: 0 <= i < |answers| ==>
          && Answers(answers[i], ExpectNotification(if i == 0 then last else queue[i - 1]))
          && answers[i].NotificationAttributes? && answers[i].appIdentifier in names)
  }

  predicate AllAttributes(answers: seq<Response>) {
    forall i :: 0 <= i < |answers| ==> Encodable(answers[i]) && answers[i].NotificationAttributes?
  }

  lemma LateAnswersAreAttributes(queue: seq<Uid>, names: map<Text, Text>, last: Uid, answers: seq<Response>)
    requires AnswersLate(queue, names, last, answers)
    ensures AllAttributes(answers)
    ensures answers != [] ==>
              && queue != [] && Answers(answers[0], ExpectNotification(last)) && answers[0].appIdentifier in names
              && AnswersLate(queue[1..], names, queue[0], answers[1..])
  {
    hide Encode, ValidUtf8, Encodable;
    forall i | 0 <= i < |answers| ensures Encodable(answers[i]) && answers[i].NotificationAttributes? {
      assert Answers(answers[i], ExpectNotification(if i == 0 then last else queue[i - 1]));
    }
  }

  /** Each of the UIDs processed gets the answer of the one before it, which is presented on its handle. */
  ghost predicate EachShowsThePrevious(env: Env, w: World, answers: seq<Response>)
    requires AllAttributes(answers)
    decreases |answers|
  {
    answers != [] ==>
      var d := w.(inbox := OnlyAnswer(answers[0]));
      d.pendingOrder != [] &&
      var uid, next := d.pendingOrder[0], ProcessNext(env, d).w;
      && AttributesReply(env, d).got == Some(answers[0])
      && PresentedOn(|d.calls|, answers[0].title, answers[0].message, next, uid)
      && OneBehind(next, uid)
      && EachShowsThePrevious(env, next, answers[1..])
  }

  /** The request for the oldest UID, when the first input is a whole answer to the oldest expectation. */
  lemma WholeReply(env: Env, d: World, answer: Response)
    requires d.pendingOrder != [] && env.writeOk(|d.writes|) && d.decoder.bytes == []
    requires Answers(answer, (d.decoder.expected + [ExpectNotification(d.pendingOrder[0])])[0])
    requires d.inbox != [] && d.inbox[0] == DataSource(Encode(answer))
    ensures var uid := d.pendingOrder[0];
            AttributesReply(env, d)
            == Reply(Take(d).(inbox := d.inbox[1..], writes := d.writes + [NotificationAttributesRequest(uid)],
                              decoder := Buffer([], (d.decoder.expected + [ExpectNotification(uid)])[1..])), Some(answer))
  {
    var uid := d.pendingOrder[0];
    TakeKeepsDecoder(d);
    hide NotificationAttributesRequest, Answers, Encode, Mark, Fetch;
    WholeFetch(env, Take(d), ExpectNotification(uid), NotificationAttributesRequest(uid), answer);
  }

  lemma WholeFetch(env: Env, w: World, expected: Expectation, request: seq<byte>, answer: Response)
    requires env.writeOk(|w.writes|) && w.decoder.bytes == []
    requires Answers(answer, (w.decoder.expected + [expected])[0])
    requires w.inbox != [] && w.inbox[0] == DataSource(Encode(answer))
    ensures Fetch(env, w, expected, request)
         == Reply(w.(inbox := w.inbox[1..], writes := w.writes + [request],
                     decoder := Buffer([], (w.decoder.expected + [expected])[1..])), Some(answer))
  {
    assert Encodable(answer);
    hide Encode, Answers, Encodable, Feed;
    FeedOldest(w.decoder.expected + [expected], answer);
    var sent := WriteControl(env, w.(decoder := Expecting(w.decoder, expected)), request);
    assert Wait(env, sent.w).got == Some(answer);
    hide Wait;
  }

  lemma OneBehindReply(env: Env, d: World, last: Uid, answer: Response)
    requires OneBehind(d, last) && d.pendingOrder != [] && env.writeOk(|d.writes|)
    requires Answers(answer, ExpectNotification(last)) && d.inbox == OnlyAnswer(answer)
    ensures var uid := d.pendingOrder[0];
            AttributesReply(env, d)
            == Reply(Take(d).(inbox := [], writes := d.writes + [NotificationAttributesRequest(uid)],
                              decoder := Buffer([], [ExpectNotification(uid)])), Some(answer))
  {
    var both := d.decoder.expected + [ExpectNotification(d.pendingOrder[0])];
    assert both[0] == ExpectNotification(last) && both[1..] == [ExpectNotification(d.pendingOrder[0])];
    assert d.inbox[1..] == [];
    hide AttributesReply, NotificationAttributesRequest, Answers, Encode, Mark;
    WholeReply(env, d, answer);
  }

  lemma LateStep(env: Env, d: World, last: Uid, answer: Response, e: nat, suspects: set<Uid>, lost: set<Handle>)
    requires Survives(env, d, e, suspects, lost) && OneBehind(d, last) && d.pendingOrder != []
    requires env.writeOk(|d.writes|) && Answers(answer, ExpectNotification(last)) && d.inbox == OnlyAnswer(answer)
    requires answer.appIdentifier in d.appNames
    ensures var uid, next := d.pendingOrder[0], ProcessNext(env, d).w;
            && AttributesReply(env, d).got == Some(answer) && OneBehind(next, uid)
            && PresentedOn(|d.calls|, answer.title, answer.message, next, uid)
            && next.pendingOrder == d.pendingOrder[1..] && next.appNames == d.appNames
  {
    var uid, r := d.pendingOrder[0], AttributesReply(env, d);
    QueuedIsPending(env, d, e, suspects, lost);
    OneBehindReply(env, d, last, answer);
    ReplySurvives(env, d, e, suspects, lost);
    ReleaseSurvives(env, r.w, uid, e, suspects, lost);
    var w := r.w.(outstanding := None, canceled := r.w.canceled - {uid});
    LateForm(env, d, last, answer);
    hide *;
    PresentPresents(env, w, uid, answer.appIdentifier, answer.title, answer.message, e, suspects, lost);
    KnownIsDelivered(env, w, uid, answer);
  }

  /** What is left to do once the late answer has been taken. */
  lemma LateForm(env: Env, d: World, last: Uid, answer: Response)
    requires OneBehind(d, last) && d.pendingOrder != [] && d.pendingOrder[0] in d.pendingKind && env.writeOk(|d.writes|)
    requires Answers(answer, ExpectNotification(last)) && d.inbox == OnlyAnswer(answer)
    ensures var uid, r := d.pendingOrder[0], AttributesReply(env, d);
            var w := r.w.(outstanding := None, canceled := r.w.canceled - {uid});
            && w.outstanding == None && uid !in w.canceled && w.calls == d.calls && w.appNames == d.appNames
            && w.pendingOrder == d.pendingOrder[1..] && OneBehind(w, uid)
            && ProcessNext(env, d).w == Present(env, w, uid, answer.appIdentifier, answer.title, answer.message)
  {
    OneBehindReply(env, d, last, answer);
    SettleForms(env, d.pendingOrder[0], AttributesReply(env, d));
    hide AttributesReply, Settle, Present, Encode, Mark, NotificationAttributesRequest;
  }

  lemma KnownIsDelivered(env: Env, w: World, uid: Uid, answer: Response)
    requires answer.NotificationAttributes? && answer.appIdentifier in w.appNames && uid !in w.canceled
    ensures var next := Present(env, w, uid, answer.appIdentifier, answer.title, answer.message);
            next.decoder == w.decoder && next.writes == w.writes && next.pendingOrder == w.pendingOrder
            && next.appNames == w.appNames
  {
    DeliverKeepsDecoder(env, w, uid, Payload(w.appNames[answer.appIdentifier], answer.title, answer.message));
    hide Deliver;
  }

  /**
   * The shift persists for as long as the phone answers: once one request behind, every UID of the queue, however long,
   * is shown under the title and message of the UID requested before it.
   */
  lemma {:induction false} ShiftPersists(env: Env, w: World, last: Uid, answers: seq<Response>, e: nat,
                                         suspects: set<Uid>, lost: set<Handle>)
    requires FreshIds(env) && Survives(env, w, e, suspects, lost) && forall n :: env.writeOk(n)
    requires OneBehind(w, last) && AnswersLate(w.pendingOrder, w.appNames, last, answers)
    ensures AllAttributes(answers) && EachShowsThePrevious(env, w, answers)
    decreases |answers|
  {
    LateAnswersAreAttributes(w.pendingOrder, w.appNames, last, answers);
    hide Survives, ProcessNext, AttributesReply, Answers, Encode, FreshIds, PresentedOn, AnswersLate, AllAttributes,
         OnlyAnswer, Encodable;
    if answers != [] {
      var d := w.(inbox := OnlyAnswer(answers[0]));
      InboxSurvives(env, w, OnlyAnswer(answers[0]), e, suspects, lost);
      LateStep(env, d, last, answers[0], e, suspects, lost);
      ProcessSurvives(env, d, e, suspects, lost);
      var next := ProcessNext(env, d).w;
      ShiftPersists(env, next, d.pendingOrder[0], answers[1..], e, suspects, lost);
    }
  }
}
