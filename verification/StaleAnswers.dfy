/**
 * Whose answer a request gets when a dropped request has left its expectation behind: always the oldest expectation's,
 * so exactly the requests sent with an empty list of expectations are sure of their own.
 */
module StaleAnswers {
  import opened Bytes
  import opened Codec
  import opened Decoder
  import opened Collections
  import opened Session
  import opened SessionInvariants
  import opened Requests
  import opened SessionRuns
  import opened Survival
  import opened Presentation
  import opened QueueOrder

  lemma FeedAnswersOldest(b: Buffer, fragment: seq<byte>)
    ensures var p := Feed(b, fragment);
            p.outcome.Ok? ==>
              && (p.outcome.value == [] ==> p.after.expected == b.expected)
              && (p.outcome.value != [] ==> b.expected != [] && Answers(p.outcome.value[0], b.expected[0]))
  {
    hide Parse, Answers;
    var all := b.bytes + fragment;
    if b.expected != [] && Parse(all, b.expected[0]).Done? {
      var r := Parse(all, b.expected[0]);
      DecodesExactly(all, b.expected[0], r.value, r.consumed);
    }
  }

  lemma {:induction false} WaitAnswersOldest(env: Env, w: World)
    ensures var got := Wait(env, w).got;
            got.Some? ==> w.decoder.expected != [] && Answers(got.value, w.decoder.expected[0])
    decreases |w.inbox|
  {
    hide Feed, IngestPacket, Answers;
    if w.inbox != [] {
      var w1 := w.(inbox := w.inbox[1..]);
      match w.inbox[0]
      case Timeout =>
      case StreamFailure =>
      case DataSource(fragment) =>
        FeedAnswersOldest(w.decoder, fragment);
        var p := Feed(w1.decoder, fragment);
        if p.outcome == Ok([]) {
          WaitAnswersOldest(env, w1.(decoder := p.after));
        }
      case NotificationSource(packet) => WaitAnswersOldest(env, IngestPacket(env, w1, packet));
    }
  }

  lemma OneQuestion(answer: Response, e1: Expectation, e2: Expectation)
    requires Answers(answer, e1) && Answers(answer, e2)
    ensures e1 == e2
  {
    hide Encodable, Encode, ValidUtf8;
  }

  /** The expectation that the next answer will be taken to meet. */
  function Oldest(w: World, expected: Expectation): Expectation {
    (w.decoder.expected + [expected])[0]
  }

  /**
   * For every decoder, buffered octets, fragmentation and inbox: an answer answers the oldest expectation, and so it
   * answers the request just sent if and only if that is the oldest.
   */
  lemma AnswersItsOwnRequestExactly(env: Env, w: World, expected: Expectation, request: seq<byte>)
    ensures var got := Fetch(env, w, expected, request).got;
            got.Some? ==>
              && Answers(got.value, Oldest(w, expected))
              && (Answers(got.value, expected) <==> Oldest(w, expected) == expected)
  {
    hide Wait, Answers;
    var sent := WriteControl(env, w.(decoder := Expecting(w.decoder, expected)), request);
    WaitAnswersOldest(env, sent.w);
    var r := Fetch(env, w, expected, request);
    if r.got.Some? && Answers(r.got.value, expected) {
      OneQuestion(r.got.value, expected, Oldest(w, expected));
    }
  }

  /**
   * After a request for `dropped` was dropped, the next attributes are those of `dropped`, whichever UID they are
   * asked for.
   */
  lemma StaleAttributes(env: Env, w: World, dropped: Uid)
    requires w.pendingOrder != [] && w.decoder.expected != [] && w.decoder.expected[0] == ExpectNotification(dropped)
    ensures var got := AttributesReply(env, w).got;
            got.Some? ==> got.value.NotificationAttributes? && got.value.uid == dropped
                          && (got.value.uid == w.pendingOrder[0] <==> dropped == w.pendingOrder[0])
  {
    var uid := w.pendingOrder[0];
    AnswersItsOwnRequestExactly(env, Take(w), ExpectNotification(uid), NotificationAttributesRequest(uid));
    hide Fetch, Encodable, Encode, ValidUtf8, NotificationAttributesRequest;
  }

  /** After a lookup was dropped, the next attributes request fails, whatever arrives, and nothing is presented. */
  lemma StaleLookupFailsAttributes(env: Env, w: World)
    requires w.pendingOrder != [] && w.pendingOrder[0] in w.pendingKind
    requires w.decoder.expected != [] && w.decoder.expected[0].ExpectApp?
    ensures var next := ProcessNext(env, w).w;
            && Attempts(next.calls) == Attempts(w.calls)
            && next.meta.lastError == Some(NotificationAttributesFailed)
            && next.past.attributeFailures == AttributesReply(env, w).w.past.attributeFailures + 1
  {
    var uid := w.pendingOrder[0];
    AnswersItsOwnRequestExactly(env, Take(w), ExpectNotification(uid), NotificationAttributesRequest(uid));
    FetchFrame(env, Take(w), ExpectNotification(uid), NotificationAttributesRequest(uid));
    hide Fetch, Encodable, Encode, ValidUtf8, NotificationAttributesRequest, Attempts, Mark, Present;
  }

  /**
   * With expectations left over, a lookup remembers a name only if the oldest of them is an app's, and then under the
   * app asked for now. One drop does not lead there, because a request for attributes comes before every lookup.
   */
  lemma StaleName(env: Env, w: World, app: Text)
    requires app !in w.appNames && w.decoder.expected != []
    ensures var n := AppName(env, w, app);
            n.w.past.lookups != w.past.lookups ==>
              && w.decoder.expected[0].ExpectApp?
              && Answers(AppAttributes(w.decoder.expected[0].app, n.name), w.decoder.expected[0])
              && n.w.past.lookups == w.past.lookups + [(app, n.name)]
  {
    hide Fetch, Encodable, Encode, ValidUtf8, EvictApps;
    if AppAttributesRequest(app).Ok? {
      var request := AppAttributesRequest(app).value;
      AnswersItsOwnRequestExactly(env, w, ExpectApp(app), request);
      FetchKeepsLookups(env, w, ExpectApp(app), request);
    }
  }

  // ----- what is shown -----

  lemma IngestCancelsOutstanding(env: Env, w: World, event: NotificationEvent)
    ensures Ingest(env, w, event).canceled
         == w.canceled + if event.kind == Removed && w.outstanding == Some(event.uid) then {event.uid} else {}
  {
    hide Without, WaitingLen, Mark;
    assert w.canceled + {} == w.canceled;
  }

  /** Without an outstanding UID nothing is cancelled. */
  lemma {:induction false} WaitCancelsNothing(env: Env, w: World)
    requires w.outstanding == None
    ensures Wait(env, w).w.canceled == w.canceled
    decreases |w.inbox|
  {
    hide Feed, Ingest, ParseEvent;
    if w.inbox != [] {
      var w1 := w.(inbox := w.inbox[1..]);
      match w.inbox[0]
      case Timeout =>
      case StreamFailure =>
      case DataSource(fragment) => WaitCancelsNothing(env, w1.(decoder := Feed(w1.decoder, fragment).after));
      case NotificationSource(packet) =>
        if ParseEvent(packet).Ok? {
          IngestCancelsOutstanding(env, w1, ParseEvent(packet).value);
          assert w1.canceled + {} == w1.canceled;
        }
        WaitCancelsNothing(env, IngestPacket(env, w1, packet));
    }
  }

  lemma AppNameCancelsNothing(env: Env, w: World, app: Text)
    requires w.outstanding == None
    ensures AppName(env, w, app).w.canceled == w.canceled
  {
    hide Wait, EvictApps;
    if AppAttributesRequest(app).Ok? {
      WaitCancelsNothing(env, WriteControl(env, w.(decoder := Expecting(w.decoder, ExpectApp(app))),
                                           AppAttributesRequest(app).value).w);
    }
  }

  /** From sink call number `from` on, `title` and `message` are presented on the handle of `uid`, under some name. */
  ghost predicate PresentedOn(from: nat, title: Text, message: Text, next: World, uid: Uid) {
    exists i, name ::
      from <= i < |next.calls| && Presents(next.calls[i], Payload(name, title, message), next.handles, uid)
  }

  lemma PresentPresents(env: Env, w: World, uid: Uid, app: Text, title: Text, message: Text, e: nat, suspects: set<Uid>,
                        lost: set<Handle>)
    requires Survives(env, w, e, suspects, lost) && w.outstanding == None && uid !in w.canceled
    ensures PresentedOn(|w.calls|, title, message, Present(env, w, uid, app, title, message), uid)
  {
    var n := AppName(env, w, app);
    AppNameSurvives(env, w, app, e, suspects, lost);
    AppNameCancelsNothing(env, w, app);
    AppNameExtends(env, w, app);
    DeliverPresents(env, n.w, uid, Payload(n.name, title, message));
    hide AppName, Deliver, Presents, QueueSound, HandlesBut, CacheSound, Fifo, Agree;
    var next := Present(env, w, uid, app, title, message);
    assert next == Deliver(env, n.w, uid, Payload(n.name, title, message));
    assert Presents(next.calls[|n.w.calls|], Payload(n.name, title, message), next.handles, uid);
  }

  /**
   * In any state that a run with drops can reach: if a stale expectation for `dropped` is the oldest, the title and
   * message of `dropped` are presented on the handle of the UID now taken from the queue, unless that one is removed
   * meanwhile.
   */
  lemma StaleAttributesAreShown(env: Env, w: World, dropped: Uid, e: nat, suspects: set<Uid>, lost: set<Handle>)
    requires Survives(env, w, e, suspects, lost)
    requires w.pendingOrder != [] && w.decoder.expected != [] && w.decoder.expected[0] == ExpectNotification(dropped)
    ensures var uid, reply := w.pendingOrder[0], AttributesReply(env, w);
            reply.got.Some? && !RemovedIn(Taken(w.inbox, reply.w.inbox), uid) ==>
              && reply.got.value.NotificationAttributes? && reply.got.value.uid == dropped
              && PresentedOn(|reply.w.calls|, reply.got.value.title, reply.got.value.message, ProcessNext(env, w).w, uid)
  {
    var uid, reply := w.pendingOrder[0], AttributesReply(env, w);
    StaleAttributes(env, w, dropped);
    ReplySurvives(env, w, e, suspects, lost);
    FetchCancels(env, Take(w), ExpectNotification(uid), NotificationAttributesRequest(uid), uid);
    TakeUncancels(w);
    hide Survives, Fetch, Settle, RemovedIn, PresentedOn, AttributesReply, Take;
    if reply.got.Some? && uid !in reply.w.canceled {
      SettleForms(env, uid, reply);
      ReleaseSurvives(env, reply.w, uid, e, suspects, lost);
      hide Present;
      PresentPresents(env, reply.w.(outstanding := None, canceled := reply.w.canceled - {uid}), uid,
                      reply.got.value.appIdentifier, reply.got.value.title, reply.got.value.message, e, suspects, lost);
    }
  }

  lemma TakeUncancels(w: World)
    requires w.pendingOrder != []
    ensures w.pendingOrder[0] !in Take(w).canceled
    ensures Take(w).outstanding == Some(w.pendingOrder[0]) && Take(w).inbox == w.inbox
  {}
}
