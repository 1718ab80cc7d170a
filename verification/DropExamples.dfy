/** Runs from a new engine in which a dropped packet does each of the harms that it can do. */
module DropExamples {
  import opened Bytes
  import opened Codec
  import opened Decoder
  import opened Collections
  import opened Session
  import opened SessionInvariants
  import opened SessionTheorems
  import opened Interruptions
  import opened Survival
  import opened StaleAnswers
  import opened SessionDrops
  import opened AnswerLag

  lemma KindOf(answer: Response, expected: Expectation)
    requires Answers(answer, expected)
    ensures Encodable(answer) && (answer.NotificationAttributes? <==> expected.ExpectNotification?)
  {
    hide Encode, ValidUtf8;
  }

  function AddedPacket(uid: Uid): seq<byte> {
    EncodeEvent(AddedEvent(uid))
  }

  lemma RunMore(env: Env, w: World, s: DropStep, rest: seq<DropStep>)
    requires DrainsAll(env)
    ensures RunWithDrops(env, w, [s] + rest) == RunWithDrops(env, DoOrDrop(env, w, s), rest)
  {
    hide DoOrDrop, DrainsAll;
    assert ([s] + rest)[1..] == rest;
  }

  /** Nothing is pending, cancelled or mapped, so the next UID announced is the next one asked for. */
  predicate Idle(w: World) {
    w.pendingOrder == [] && w.pendingKind == map[] && w.outstanding == None && w.canceled == {} && w.decoder.bytes == []
  }

  lemma AnnouncedIsQueued(env: Env, w: World, uid: Uid)
    requires Idle(w)
    ensures ParseEvent(AddedPacket(uid)) == Ok(AddedEvent(uid))
    ensures Ingest(env, w, AddedEvent(uid)) == w.(pendingOrder := [uid], pendingKind := map[uid := Added],
                                                  past := Enqueue(w, uid, Added).past)
  {
    AddedArrives(env, w, uid);
    hide EncodeEvent, ParseEvent;
  }

  lemma DroppedFirst(env: Env, packet: seq<byte>, inbox: seq<Input>, left: World, rest: seq<DropStep>)
    requires DrainsAll(env) && InHandling(env, INITIAL.(inbox := inbox), packet, left)
    ensures RunWithDrops(env, INITIAL, [Dropped(packet, inbox, left)] + rest) == RunWithDrops(env, left, rest)
  {
    hide InHandling, DrainsAll, RunWithDrops;
    RunMore(env, INITIAL, Dropped(packet, inbox, left), rest);
  }

  /** An announcement and the processing that follows it, as one packet handled to its end does it. */
  function Handled(uid: Uid, inbox: seq<Input>): seq<DropStep> {
    [Whole(IngestStep(AddedEvent(uid)))] + [Whole(ProcessStep(inbox))]
  }

  lemma RunHandled(env: Env, w: World, uid: Uid, inbox: seq<Input>, rest: seq<DropStep>)
    requires DrainsAll(env)
    ensures RunWithDrops(env, w, Handled(uid, inbox) + rest)
         == RunWithDrops(env, ProcessNext(env, Ingest(env, w, AddedEvent(uid)).(inbox := inbox)).w, rest)
  {
    hide DrainsAll, Ingest, ProcessNext, RunWithDrops;
    var first, second := Whole(IngestStep(AddedEvent(uid))), Whole(ProcessStep(inbox));
    assert Handled(uid, inbox) + rest == [first] + ([second] + rest);
    RunMore(env, w, first, [second] + rest);
    RunMore(env, Ingest(env, w, AddedEvent(uid)), second, rest);
  }

  lemma NoMore(env: Env, w: World)
    requires DrainsAll(env)
    ensures RunWithDrops(env, w, []) == w
  {
    hide DrainsAll;
  }

  /** An idle engine has asked for the attributes of a UID just announced, and waits. */
  lemma AskedFor(env: Env, w: World, uid: Uid) returns (sent: World)
    requires Idle(w) && env.writeOk(|w.writes|)
    ensures sent.pendingOrder == [] && sent.pendingKind == map[] && sent.outstanding == Some(uid) && sent.canceled == {}
    ensures sent.decoder == Expecting(w.decoder, ExpectNotification(uid)) && sent.inbox == w.inbox
    ensures sent.handles == w.handles && |sent.writes| == |w.writes| + 1
    ensures forall left :: InWait(env, sent, left) ==> InHandling(env, w, AddedPacket(uid), left)
  {
    hide EncodeEvent, ParseEvent, NotificationAttributesRequest, Mark, AttributesReply, InPresent, InWait;
    AnnouncedIsQueued(env, w, uid);
    var w1 := Ingest(env, w, AddedEvent(uid));
    sent := WriteControl(env, Take(w1).(decoder := Expecting(w1.decoder, ExpectNotification(uid))),
                         NotificationAttributesRequest(uid)).w;
    forall left | InWait(env, sent, left) ensures InHandling(env, w, AddedPacket(uid), left) {
      assert InProcess(env, w1, left);
    }
  }

  /** While something is awaited, a new UID arrives and is queued. */
  lemma AnotherArrives(env: Env, w: World, uid: Uid) returns (queued: World)
    requires w.pendingOrder == [] && w.pendingKind == map[] && w.outstanding.Some? && w.outstanding.value != uid
    requires w.inbox != [] && w.inbox[0] == NotificationSource(AddedPacket(uid))
    ensures queued == w.(inbox := w.inbox[1..], pendingOrder := [uid], pendingKind := map[uid := Added],
                        past := queued.past)
    ensures forall left :: InWait(env, queued, left) ==> InWait(env, w, left)
  {
    hide EncodeEvent, ParseEvent, InPacket;
    var w1 := w.(inbox := w.inbox[1..]);
    AddedArrives(env, w1, uid);
    queued := Enqueue(w1, uid, Added);
    assert queued == IngestPacket(env, w1, w.inbox[0].packet);
    hide IngestPacket;
  }

  // ----- an answer for another UID -----

  /**
   * UID 1 is announced, UID 2 arrives while the attributes of 1 are awaited, the timer fires, and the late answer for
   * 1 is then taken for the attributes of 2.
   */
  lemma MisattributionHappens(late: Response) returns (env: Env, left: World)
    requires Answers(late, ExpectNotification(1))
    ensures GoodEnv(env)
    ensures RunWithDrops(env, INITIAL, [Dropped(AddedPacket(1), [NotificationSource(AddedPacket(2))], left)]) == left
    ensures left.pendingOrder == [2] && AttributesReply(env, left.(inbox := [DataSource(Encode(late))])).got == Some(late)
  {
    env := EnvironmentsExist((n: nat) => true, (n: nat) => true);
    var meanwhile := [NotificationSource(AddedPacket(2))];
    var sent := AskedFor(env, INITIAL.(inbox := meanwhile), 1);
    left := AnotherArrives(env, sent, 2);
    assert InWait(env, left, left);
    hide EncodeEvent, Answers, Encode, FreshIds, DrainsAll, InHandling, RunWithDrops, InWait, AttributesReply;
    RunOne(env, INITIAL, Dropped(AddedPacket(1), meanwhile, left));
    assert ([ExpectNotification(1)] + [ExpectNotification(2)])[0] == ExpectNotification(1);
    WholeReply(env, left.(inbox := [DataSource(Encode(late))]), late);
  }

  // ----- a handle that is never closed -----

  lemma LookupTimesOut(env: Env, w: World, app: Text)
    requires w.inbox == []
    ensures var n := AppName(env, w, app);
            n.w.calls == w.calls && n.w.handles == w.handles && n.w.canceled == w.canceled
  {
    hide Feed, EvictApps;
  }

  /** The packet is dropped while the notification is being created; after the session has ended it is still shown. */
  lemma LostHandleHappens(answer: Response) returns (env: Env, left: World, h: Handle)
    requires Answers(answer, ExpectNotification(1))
    ensures GoodEnv(env)
    ensures var inbox := [DataSource(Encode(answer))];
            var w := RunWithDrops(env, INITIAL, [Dropped(AddedPacket(1), inbox, left)] + [Whole(EndStep)]);
            w.calls == left.calls && Open(w.calls, h) && w.handles == map[]
  {
    env := EnvironmentsExist((n: nat) => true, (n: nat) => true);
    var inbox := [DataSource(Encode(answer))];
    var w0 := INITIAL.(inbox := inbox);
    left := CreationDropped(env, w0, 1, answer);
    h := env.newId(0);
    hide Answers, Encode, EncodeEvent, FreshIds, DrainsAll, InHandling, RunWithDrops;
    DroppedFirst(env, AddedPacket(1), inbox, left, [Whole(EndStep)]);
    RunOne(env, left, Whole(EndStep));
    OpenAfterCreate(left.calls[0], h);
    NothingToClose(env, left);
  }

  lemma OpenAfterCreate(c: SinkCall, h: Handle)
    requires c.Create? && c.made == Some(h)
    ensures Open([c], h)
  {
    assert OnHandle([c][..0], h) == [];
    assert OnHandle([c], h) == [] + [c];
  }

  lemma NothingToClose(env: Env, w: World)
    requires DrainsAll(env) && w.handles == map[]
    ensures End(env, w).calls == w.calls && End(env, w).handles == map[]
  {
    assert w.handles.Keys == {};
    hide DiscardAll;
  }

  lemma CreationDropped(env: Env, w: World, uid: Uid, answer: Response) returns (left: World)
    requires Idle(w) && w.decoder == CLEAR && w.handles == map[] && w.calls == []
    requires Answers(answer, ExpectNotification(uid)) && w.inbox == [DataSource(Encode(answer))]
    requires env.writeOk(|w.writes|) && env.sinkOk(0)
    ensures InHandling(env, w, AddedPacket(uid), left)
    ensures |left.calls| == 1 && left.calls[0].Create? && left.calls[0].made == Some(env.newId(0))
    ensures left.handles == map[]
  {
    hide Answers, Encode, EncodeEvent, ParseEvent, NotificationAttributesRequest, Mark, AppName, AttributesReply,
         InAppName, InFetch;
    AnnouncedIsQueued(env, w, uid);
    var w1 := Ingest(env, w, AddedEvent(uid));
    assert ([] + [ExpectNotification(uid)])[0] == ExpectNotification(uid);
    WholeReply(env, w1, answer);
    var r := AttributesReply(env, w1);
    var w2 := r.w.(outstanding := None, canceled := r.w.canceled - {uid});
    KindOf(answer, ExpectNotification(uid));
    LookupTimesOut(env, w2, answer.appIdentifier);
    var n := AppName(env, w2, answer.appIdentifier);
    left := Called(env, n.w, uid, Payload(n.name, answer.title, answer.message));
    assert InProcess(env, w1, left);
  }

  // ----- a cancellation that stays -----

  /**
   * UID 2 and the removal of UID 1 arrive while UID 1 is awaited; after the drop and UID 2, UID 1 is still cancelled.
   */
  lemma LeakHappens(inbox: seq<Input>) returns (env: Env, left: World)
    ensures GoodEnv(env)
    ensures var removal := NotificationEvent(Removed, 0, Other, 1, 1);
            var meanwhile := [NotificationSource(AddedPacket(2)), NotificationSource(EncodeEvent(removal))];
            var w := RunWithDrops(env, INITIAL, [Dropped(AddedPacket(1), meanwhile, left)] + [Whole(ProcessStep(inbox))]);
            w.outstanding == None && w.canceled == {1}
  {
    env := EnvironmentsExist((n: nat) => true, (n: nat) => true);
    var removal := NotificationEvent(Removed, 0, Other, 1, 1);
    var meanwhile := [NotificationSource(AddedPacket(2)), NotificationSource(EncodeEvent(removal))];
    assert DrainsAll(env);
    left := RemovedThenDropped(env, INITIAL.(inbox := meanwhile));
    hide *;
    DroppedFirst(env, AddedPacket(1), meanwhile, left, [Whole(ProcessStep(inbox))]);
    OneStaysCancelled(env, left, inbox);
  }

  lemma OneStaysCancelled(env: Env, left: World, inbox: seq<Input>)
    requires DrainsAll(env) && left.canceled == {1} && left.pendingOrder == [2] && 2 in left.pendingKind
    ensures var w := RunWithDrops(env, left, [Whole(ProcessStep(inbox))]); w.outstanding == None && w.canceled == {1}
  {
    hide DrainsAll, RunWithDrops, ProcessNext;
    RunOne(env, left, Whole(ProcessStep(inbox)));
    ProcessClearsOnlyItsOwn(env, left.(inbox := inbox));
    assert {1} - {2} == {1};
  }

  lemma RemovedThenDropped(env: Env, w: World) returns (left: World)
    requires w == INITIAL.(inbox := w.inbox)
    requires w.inbox == [NotificationSource(AddedPacket(2)),
                         NotificationSource(EncodeEvent(NotificationEvent(Removed, 0, Other, 1, 1)))]
    requires env.writeOk(0)
    ensures InHandling(env, w, AddedPacket(1), left)
    ensures left.outstanding == Some(1) && left.canceled == {1} && left.pendingOrder == [2] && 2 in left.pendingKind
  {
    var removal := NotificationEvent(Removed, 0, Other, 1, 1);
    EventCodecIsBijective(EncodeEvent(removal), removal);
    var sent := AskedFor(env, w, 1);
    var queued := AnotherArrives(env, sent, 2);
    hide EncodeEvent, ParseEvent, InPacket, InHandling, Ingest;
    var last := queued.(inbox := queued.inbox[1..]);
    left := Ingest(env, last, removal);
    OutstandingIsRemoved(env, last);
    assert queued.inbox[0] == NotificationSource(EncodeEvent(removal));
    assert InWait(env, left, left);
    assert InWait(env, queued, left);
  }

  lemma OutstandingIsRemoved(env: Env, w: World)
    requires w.outstanding == Some(1) && w.pendingOrder == [2] && 2 in w.pendingKind
    requires w.handles == map[] && w.canceled == {}
    ensures var r := Ingest(env, w, NotificationEvent(Removed, 0, Other, 1, 1));
            r.outstanding == Some(1) && r.canceled == {1} && r.pendingOrder == [2] && 2 in r.pendingKind
  {
    assert Without([2], 1) == [2] by { assert [2][1..] == []; }
    hide Mark;
  }

  // ----- a name that is taken for something else -----

  /**
   * An idle engine handles the packet of a new UID, takes the whole answer to its oldest expectation, and is dropped
   * while the name of that answer's app is awaited.
   */
  lemma LookupDropped(env: Env, w: World, uid: Uid, answer: Response) returns (left: World)
    requires Idle(w) && forall n :: env.writeOk(n)
    requires Answers(answer, (w.decoder.expected + [ExpectNotification(uid)])[0]) && answer.NotificationAttributes?
    requires w.inbox == OnlyAnswer(answer)
    requires answer.appIdentifier !in w.appNames && AppAttributesRequest(answer.appIdentifier).Ok?
    ensures InHandling(env, w, AddedPacket(uid), left)
    ensures Idle(left) && left.appNames == w.appNames && left.appOrder == w.appOrder && left.calls == w.calls
    ensures left.decoder.expected
         == (w.decoder.expected + [ExpectNotification(uid)])[1..] + [ExpectApp(answer.appIdentifier)]
  {
    hide Answers, Encode, EncodeEvent, ParseEvent, NotificationAttributesRequest, Mark, AttributesReply, InWait,
         InDeliver, AppAttributesRequest;
    AnnouncedIsQueued(env, w, uid);
    var w1 := Ingest(env, w, AddedEvent(uid));
    WholeReply(env, w1, answer);
    var r := AttributesReply(env, w1);
    var w2 := r.w.(outstanding := None, canceled := r.w.canceled - {uid});
    var app := answer.appIdentifier;
    left := WriteControl(env, w2.(decoder := Expecting(w2.decoder, ExpectApp(app))), AppAttributesRequest(app).value).w;
    assert InAppName(env, w2, app, left);
    assert InProcess(env, w1, left);
  }

  /**
   * The packet of UID 1 is dropped while the name of its app is awaited. Then UID 2 is not shown, whatever arrives
   * while its attributes are awaited.
   */
  lemma FailureHappens(answer: Response) returns (env: Env, left: World)
    requires Answers(answer, ExpectNotification(1)) && AppAttributesRequest(answer.appIdentifier).Ok?
    ensures GoodEnv(env)
    ensures forall inbox ::
              var first := Dropped(AddedPacket(1), OnlyAnswer(answer), left);
              var w := RunWithDrops(env, INITIAL, [first] + Handled(2, inbox));
              Attempts(w.calls) == 0 && w.meta.lastError == Some(NotificationAttributesFailed)
  {
    env := EnvironmentsExist((n: nat) => true, (n: nat) => true);
    assert ([] + [ExpectNotification(1)])[0] == ExpectNotification(1);
    assert ([] + [ExpectNotification(1)])[1..] + [ExpectApp(answer.appIdentifier)] == [ExpectApp(answer.appIdentifier)];
    left := LookupDropped(env, INITIAL.(inbox := OnlyAnswer(answer)), 1, answer);
    hide Answers, Encode, EncodeEvent, FreshIds, DrainsAll, InHandling, RunWithDrops, ProcessNext, AppAttributesRequest;
    forall inbox
      ensures var first := Dropped(AddedPacket(1), OnlyAnswer(answer), left);
              var w := RunWithDrops(env, INITIAL, [first] + Handled(2, inbox));
              Attempts(w.calls) == 0 && w.meta.lastError == Some(NotificationAttributesFailed)
    {
      NextRequestFails(env, answer, left, inbox);
    }
  }

  lemma NextRequestFails(env: Env, answer: Response, left: World, inbox: seq<Input>)
    requires DrainsAll(env) && Encodable(answer)
    requires InHandling(env, INITIAL.(inbox := OnlyAnswer(answer)), AddedPacket(1), left)
    requires Idle(left) && left.calls == [] && left.decoder.expected != [] && left.decoder.expected[0].ExpectApp?
    ensures var first := Dropped(AddedPacket(1), OnlyAnswer(answer), left);
            var w := RunWithDrops(env, INITIAL, [first] + Handled(2, inbox));
            Attempts(w.calls) == 0 && w.meta.lastError == Some(NotificationAttributesFailed)
  {
    hide Encode, EncodeEvent, DrainsAll, InHandling, RunWithDrops, ProcessNext, OnlyAnswer, Handled;
    DroppedFirst(env, AddedPacket(1), OnlyAnswer(answer), left, Handled(2, inbox));
    AnnouncedIsQueued(env, left, 2);
    var queued := Ingest(env, left, AddedEvent(2));
    assert Handled(2, inbox) + [] == Handled(2, inbox);
    RunHandled(env, left, 2, inbox, []);
    NoMore(env, ProcessNext(env, queued.(inbox := inbox)).w);
    StaleLookupFailsAttributes(env, queued.(inbox := inbox));
  }

  /** An idle engine announces a UID to itself, asks for it, and takes a late name for the answer, which then fails. */
  lemma NameTakenForAttributes(env: Env, w: World, uid: Uid, name: Response)
    requires Idle(w) && (forall n :: env.writeOk(n)) && name.AppAttributes? && w.decoder.expected != []
    requires Answers(name, w.decoder.expected[0])
    ensures var next := ProcessNext(env, Ingest(env, w, AddedEvent(uid)).(inbox := OnlyAnswer(name))).w;
            Idle(next) && next.appNames == w.appNames && next.appOrder == w.appOrder
            && next.decoder.expected == (w.decoder.expected + [ExpectNotification(uid)])[1..]
  {
    AnnouncedIsQueued(env, w, uid);
    var d := Ingest(env, w, AddedEvent(uid)).(inbox := OnlyAnswer(name));
    assert (w.decoder.expected + [ExpectNotification(uid)])[0] == w.decoder.expected[0];
    hide Answers, Encode, EncodeEvent, Mark, AttributesReply, NotificationAttributesRequest, Ingest, Present;
    WholeReply(env, d, name);
  }

  /**
   * With the attributes of one UID and the name of one app to come, both are taken for those of the next UID and its
   * app.
   */
  lemma NameTakenForAnother(env: Env, w: World, uid: Uid, answer: Response, name: Response)
    requires Idle(w) && w.appNames == map[] && w.appOrder == [] && (forall n :: env.writeOk(n))
    requires |w.decoder.expected| == 2 && answer.NotificationAttributes? && name.AppAttributes?
    requires Answers(answer, w.decoder.expected[0]) && Answers(name, w.decoder.expected[1])
    requires AppAttributesRequest(answer.appIdentifier).Ok?
    ensures var d := Ingest(env, w, AddedEvent(uid)).(inbox := OnlyAnswer(answer) + OnlyAnswer(name));
            ProcessNext(env, d).w.appNames == map[answer.appIdentifier := name.displayName]
  {
    AnnouncedIsQueued(env, w, uid);
    var d := Ingest(env, w, AddedEvent(uid)).(inbox := OnlyAnswer(answer) + OnlyAnswer(name));
    assert (w.decoder.expected + [ExpectNotification(uid)])[0] == w.decoder.expected[0];
    hide Answers, Encode, EncodeEvent, Mark, AttributesReply, NotificationAttributesRequest, Ingest, Present, AppName,
         AppAttributesRequest;
    WholeReply(env, d, answer);
    var r := AttributesReply(env, d);
    SettleForms(env, uid, r);
    var w2 := r.w.(outstanding := None, canceled := r.w.canceled - {uid});
    assert w2.inbox == OnlyAnswer(name);
    assert w2.decoder.expected[0] == w.decoder.expected[1];
    OtherNameIsRemembered(env, w2, answer.appIdentifier, name);
    PresentKeepsNames(env, w2, uid, answer.appIdentifier, answer.title, answer.message);
  }

  lemma PresentKeepsNames(env: Env, w: World, uid: Uid, app: Text, title: Text, message: Text)
    ensures Present(env, w, uid, app, title, message).appNames == AppName(env, w, app).w.appNames
  {
    var n := AppName(env, w, app);
    DeliverKeepsDecoder(env, n.w, uid, Payload(n.name, title, message));
    hide AppName, Deliver;
  }

  lemma OtherNameIsRemembered(env: Env, w: World, app: Text, name: Response)
    requires w.appNames == map[] && w.appOrder == [] && env.writeOk(|w.writes|) && AppAttributesRequest(app).Ok?
    requires w.decoder.bytes == [] && w.decoder.expected != [] && name.AppAttributes?
    requires Answers(name, w.decoder.expected[0]) && w.inbox == OnlyAnswer(name)
    ensures AppName(env, w, app).w.appNames == map[app := name.displayName]
  {
    hide Answers, Encode, Fetch, AppAttributesRequest;
    assert (w.decoder.expected + [ExpectApp(app)])[0] == w.decoder.expected[0];
    WholeFetch(env, w, ExpectApp(app), AppAttributesRequest(app).value, name);
    assert map[][app := name.displayName] == map[app := name.displayName];
  }

  /** Two packets are dropped, and after each of them one is handled to its end. */
  function TwoDrops(one: seq<Input>, left1: World, two: seq<Input>, three: seq<Input>, left2: World,
                    four: seq<Input>): seq<DropStep> {
    [Dropped(AddedPacket(1), one, left1)]
    + (Handled(2, two) + ([Dropped(AddedPacket(3), three, left2)] + (Handled(4, four) + [])))
  }

  lemma RunTwoDrops(env: Env, one: seq<Input>, left1: World, two: seq<Input>, w2: World, three: seq<Input>, left2: World,
                    four: seq<Input>)
    requires DrainsAll(env)
    requires InHandling(env, INITIAL.(inbox := one), AddedPacket(1), left1)
    requires w2 == ProcessNext(env, Ingest(env, left1, AddedEvent(2)).(inbox := two)).w
    requires InHandling(env, w2.(inbox := three), AddedPacket(3), left2)
    ensures RunWithDrops(env, INITIAL, TwoDrops(one, left1, two, three, left2, four))
         == ProcessNext(env, Ingest(env, left2, AddedEvent(4)).(inbox := four)).w
  {
    hide DrainsAll, InHandling, ProcessNext, Ingest, RunWithDrops, Handled, EncodeEvent;
    var dropped := Dropped(AddedPacket(3), three, left2);
    DroppedFirst(env, AddedPacket(1), one, left1, Handled(2, two) + ([dropped] + (Handled(4, four) + [])));
    RunHandled(env, left1, 2, two, [dropped] + (Handled(4, four) + []));
    RunMore(env, w2, dropped, Handled(4, four) + []);
    RunHandled(env, left2, 4, four, []);
    NoMore(env, ProcessNext(env, Ingest(env, left2, AddedEvent(4)).(inbox := four)).w);
  }

  /**
   * A name is remembered for the wrong app after two drops, both while a name is awaited. The late name of the first
   * app is taken for the attributes of UID 2, which fails; so the late attributes of 2 are taken for those of UID 3,
   * whose lookup is dropped; and then UID 4 gets the attributes of 3, and the app of 3 the name of the app of 2.
   */
  lemma WrongNameIsRemembered(first: Response, name1: Response, second: Response, name2: Response, third: Response)
    returns (env: Env, left1: World, left2: World)
    requires Answers(first, ExpectNotification(1)) && AppAttributesRequest(first.appIdentifier).Ok?
    requires Answers(second, ExpectNotification(2)) && AppAttributesRequest(second.appIdentifier).Ok?
    requires Answers(third, ExpectNotification(3)) && AppAttributesRequest(third.appIdentifier).Ok?
    requires Answers(name1, ExpectApp(first.appIdentifier)) && Answers(name2, ExpectApp(second.appIdentifier))
    ensures GoodEnv(env)
    ensures var steps := TwoDrops(OnlyAnswer(first), left1, OnlyAnswer(name1),
                                  OnlyAnswer(second), left2, OnlyAnswer(third) + OnlyAnswer(name2));
            RunWithDrops(env, INITIAL, steps).appNames == map[third.appIdentifier := name2.displayName]
  {
    env := EnvironmentsExist((n: nat) => true, (n: nat) => true);
    hide Answers, Encode, EncodeEvent, FreshIds, InHandling, RunWithDrops, ProcessNext, AppAttributesRequest, Ingest,
         Encodable, DrainsAll, OnlyAnswer, TwoDrops, Idle;
    KindOf(first, ExpectNotification(1));
    KindOf(name1, ExpectApp(first.appIdentifier));
    KindOf(second, ExpectNotification(2));
    KindOf(name2, ExpectApp(second.appIdentifier));
    KindOf(third, ExpectNotification(3));
    InitialIsIdle(OnlyAnswer(first));
    var w2;
    left1, w2 := DroppedThenFailed(env, INITIAL.(inbox := OnlyAnswer(first)), 1, first, 2, name1);
    IdleInbox(w2, OnlyAnswer(second));
    left2 := DroppedAgain(env, w2.(inbox := OnlyAnswer(second)), second);
    NameTakenForAnother(env, left2, 4, third, name2);
    RunTwoDrops(env, OnlyAnswer(first), left1, OnlyAnswer(name1), w2, OnlyAnswer(second), left2,
                OnlyAnswer(third) + OnlyAnswer(name2));
  }

  lemma InitialIsIdle(inbox: seq<Input>)
    ensures var w := INITIAL.(inbox := inbox);
            Idle(w) && w.decoder.expected == [] && w.appNames == map[] && w.appOrder == []
  {}

  lemma IdleInbox(w: World, inbox: seq<Input>)
    requires Idle(w)
    ensures Idle(w.(inbox := inbox))
  {}

  /** A lookup is dropped, and then its late name makes the next request fail. */
  lemma DroppedThenFailed(env: Env, w: World, uid: Uid, answer: Response, next: Uid, name: Response)
    returns (left: World, failed: World)
    requires Idle(w) && w.decoder.expected == [] && w.appNames == map[] && w.appOrder == [] && forall n :: env.writeOk(n)
    requires Answers(answer, ExpectNotification(uid)) && AppAttributesRequest(answer.appIdentifier).Ok?
    requires Answers(name, ExpectApp(answer.appIdentifier)) && w.inbox == OnlyAnswer(answer)
    ensures InHandling(env, w, AddedPacket(uid), left)
    ensures failed == ProcessNext(env, Ingest(env, left, AddedEvent(next)).(inbox := OnlyAnswer(name))).w
    ensures Idle(failed) && failed.decoder.expected == [ExpectNotification(next)]
    ensures failed.appNames == map[] && failed.appOrder == []
  {
    hide Answers, Encode, EncodeEvent, InHandling, ProcessNext, AppAttributesRequest, Ingest, Encodable, OnlyAnswer, Idle;
    KindOf(answer, ExpectNotification(uid));
    KindOf(name, ExpectApp(answer.appIdentifier));
    assert ([] + [ExpectNotification(uid)])[0] == ExpectNotification(uid);
    left := LookupDropped(env, w, uid, answer);
    assert left.decoder.expected == [ExpectApp(answer.appIdentifier)];
    NameTakenForAttributes(env, left, next, name);
    failed := ProcessNext(env, Ingest(env, left, AddedEvent(next)).(inbox := OnlyAnswer(name))).w;
    assert failed.decoder.expected == [ExpectNotification(next)];
  }

  lemma DroppedAgain(env: Env, w: World, answer: Response) returns (left: World)
    requires Idle(w) && w.decoder.expected == [ExpectNotification(2)] && w.appNames == map[] && w.appOrder == []
    requires Answers(answer, ExpectNotification(2)) && AppAttributesRequest(answer.appIdentifier).Ok?
    requires w.inbox == OnlyAnswer(answer) && forall n :: env.writeOk(n)
    ensures InHandling(env, w, AddedPacket(3), left)
    ensures Idle(left) && left.decoder.expected == [ExpectNotification(3), ExpectApp(answer.appIdentifier)]
    ensures left.appNames == map[] && left.appOrder == []
  {
    hide Answers, Encode, EncodeEvent, InHandling, AppAttributesRequest, Encodable, OnlyAnswer, Idle;
    KindOf(answer, ExpectNotification(2));
    assert ([ExpectNotification(2)] + [ExpectNotification(3)])[0] == ExpectNotification(2);
    left := LookupDropped(env, w, 3, answer);
    assert left.decoder.expected == [ExpectNotification(3), ExpectApp(answer.appIdentifier)];
  }

  function ShortAttributes(uid: Uid, app: byte): Response {
    NotificationAttributes(uid, [app], [], [])
  }

  function ShortName(app: byte, name: byte): Response {
    AppAttributes([app], [name])
  }

  /** With apps `a`, `b` and `c` whose names are `A` and `B`: app `c` is remembered as `B`. */
  lemma WrongNameHappens() returns (env: Env, steps: seq<DropStep>)
    ensures GoodEnv(env) && Drops(steps) == 2
    ensures RunWithDrops(env, INITIAL, steps).appNames == map[[99] := [66]]
  {
    hide *;
    ShortAnswers(1, 97, 65);
    ShortAnswers(2, 98, 66);
    ShortAnswers(3, 99, 66);
    var first, second, third := ShortAttributes(1, 97), ShortAttributes(2, 98), ShortAttributes(3, 99);
    var name1, name2 := ShortName(97, 65), ShortName(98, 66);
    var left1, left2;
    env, left1, left2 := WrongNameIsRemembered(first, name1, second, name2, third);
    steps := TwoDrops(OnlyAnswer(first), left1, OnlyAnswer(name1), OnlyAnswer(second), left2,
                      OnlyAnswer(third) + OnlyAnswer(name2));
    TwoAreDropped(OnlyAnswer(first), left1, OnlyAnswer(name1), OnlyAnswer(second), left2,
                  OnlyAnswer(third) + OnlyAnswer(name2));
  }

  lemma ShortIsValid(b: byte)
    requires 0 < b <= 0x7F
    ensures ValidUtf8([b]) && ValidUtf8([])
  {
    assert [b][1..] == [];
  }

  lemma ShortAnswers(uid: Uid, app: byte, name: byte)
    requires 0 < app <= 0x7F && 0 < name <= 0x7F
    ensures var a := ShortAttributes(uid, app);
            Answers(a, ExpectNotification(uid)) && Encodable(a) && a.NotificationAttributes? && a.appIdentifier == [app]
    ensures var n := ShortName(app, name);
            Answers(n, ExpectApp([app])) && Encodable(n) && n.AppAttributes? && n.displayName == [name]
    ensures AppAttributesRequest([app]).Ok?
  {
    ShortIsValid(app);
    ShortIsValid(name);
    hide ValidUtf8;
  }

  lemma {:induction false} DropsAdd(a: seq<DropStep>, b: seq<DropStep>)
    ensures Drops(a + b) == Drops(a) + Drops(b)
    decreases |a|
  {
    if a == [] {
      assert a + b == b;
    } else {
      assert (a + b)[1..] == a[1..] + b;
      DropsAdd(a[1..], b);
    }
  }

  lemma HandledDropsNothing(uid: Uid, inbox: seq<Input>)
    ensures Drops(Handled(uid, inbox)) == 0
  {
    var first, second := Whole(IngestStep(AddedEvent(uid))), Whole(ProcessStep(inbox));
    assert Drops([first]) == 0 by { assert [first][1..] == []; }
    assert Drops([second]) == 0 by { assert [second][1..] == []; }
    DropsAdd([first], [second]);
  }

  lemma OneDrops(s: DropStep)
    requires s.Dropped?
    ensures Drops([s]) == 1
  {
    assert [s][1..] == [];
  }

  lemma TwoAreDropped(one: seq<Input>, left1: World, two: seq<Input>, three: seq<Input>, left2: World, four: seq<Input>)
    ensures Drops(TwoDrops(one, left1, two, three, left2, four)) == 2
  {
    hide Drops, Handled, EncodeEvent;
    var d1, d2 := Dropped(AddedPacket(1), one, left1), Dropped(AddedPacket(3), three, left2);
    var last := Handled(4, four) + [];
    assert last == Handled(4, four);
    OneDrops(d1);
    OneDrops(d2);
    HandledDropsNothing(2, two);
    HandledDropsNothing(4, four);
    DropsAdd([d2], last);
    DropsAdd(Handled(2, two), [d2] + last);
    DropsAdd([d1], Handled(2, two) + ([d2] + last));
  }
}
