/** One request and its answer: what a successful wait received, when it succeeds and when it is cancelled. */
module Requests {
  import opened Bytes
  import opened Codec
  import opened Decoder
  import opened Collections
  import opened Session

  /** The Data Source octets among some inputs, in order. */
  function Received(inputs: seq<Input>): seq<byte> {
    if inputs == [] then []
    else (if inputs[0].DataSource? then inputs[0].fragment else []) + Received(inputs[1..])
  }

  predicate Undisturbed(inputs: seq<Input>) {
    forall i :: 0 <= i < |inputs| ==> !inputs[i].Timeout? && !inputs[i].StreamFailure?
  }

  /** Some input is a well-formed Removed event for the UID. */
  predicate RemovedIn(inputs: seq<Input>, uid: Uid) {
    exists i :: 0 <= i < |inputs| && IsRemoval(inputs[i], uid)
  }

  predicate IsRemoval(input: Input, uid: Uid) {
    input.NotificationSource? && ParseEvent(input.packet).Ok?
    && ParseEvent(input.packet).value.kind == Removed && ParseEvent(input.packet).value.uid == uid
  }

  /** What a wait took from the inbox. */
  function Taken(before: seq<Input>, after: seq<Input>): seq<Input>
    requires |after| <= |before|
  {
    before[..|before| - |after|]
  }

  // ----- feeding a decoder that expects one answer -----

  lemma FeedOne(bytes: seq<byte>, expected: Expectation, fragment: seq<byte>)
    ensures var p := Feed(Buffer(bytes, [expected]), fragment);
            p.outcome.Ok? && p.outcome.value != [] ==>
              p.after == CLEAR && Answers(p.outcome.value[0], expected) && Encode(p.outcome.value[0]) == bytes + fragment
    ensures var p := Feed(Buffer(bytes, [expected]), fragment);
            p.outcome == Ok([]) ==>
              p.after == Buffer(bytes + fragment, [expected]) && Parse(bytes + fragment, expected).Incomplete?
  {
    hide Parse, Answers;
    var all := bytes + fragment;
    var r := Parse(all, expected);
    if r.Done? {
      DecodesExactly(all, expected, r.value, r.consumed);
      assert Drain(Buffer(all[r.consumed..], [expected][1..])) == Drained(Buffer(all[r.consumed..], []), [], Ok(()));
      assert Encode(r.value) == all[..r.consumed];
    }
  }

  lemma FeedWhole(bytes: seq<byte>, expected: Expectation, fragment: seq<byte>, answer: Response)
    requires Answers(answer, expected) && Encode(answer) == bytes + fragment
    ensures Feed(Buffer(bytes, [expected]), fragment) == Pushed(CLEAR, Ok([answer]))
  {
    hide Parse, Answers;
    var all := bytes + fragment;
    assert |all| <= MAX_RESPONSE_BYTES by { AnswersFitTheBuffer(answer, expected); }
    DecodesExactly(all, expected, answer, |all|);
    assert Drain(Buffer(all[|all|..], [expected][1..])) == Drained(CLEAR, [], Ok(()));
    assert [answer] + [] == [answer];
  }

  lemma AnswersFitTheBuffer(answer: Response, expected: Expectation)
    requires Answers(answer, expected)
    ensures Encodable(answer) && |Encode(answer)| <= MAX_RESPONSE_BYTES
  {}

  lemma FeedPart(bytes: seq<byte>, expected: Expectation, fragment: seq<byte>, rest: seq<byte>, answer: Response)
    requires Answers(answer, expected) && Encode(answer) == bytes + fragment + rest && rest != []
    ensures Feed(Buffer(bytes, [expected]), fragment) == Pushed(Buffer(bytes + fragment, [expected]), Ok([]))
    ensures Parse(bytes + fragment, expected).Incomplete?
  {
    hide Parse, Answers;
    AnswersFitTheBuffer(answer, expected);
    var all := bytes + fragment;
    DecodesExactly(all + rest, expected, answer, |all + rest|);
    if !Parse(all, expected).Incomplete? {
      DecisionIsStable(all, rest, expected);
    }
  }

  // ----- waiting -----

  /** While `expected` is awaited and `bytes` are buffered, the wait takes a prefix of the inbox. */
  ghost predicate Awaiting(w: World, bytes: seq<byte>, expected: Expectation) {
    w.decoder == Buffer(bytes, [expected]) && Parse(bytes, expected).Incomplete?
  }

  lemma TakenStep(before: seq<Input>, after: seq<Input>)
    requires |after| < |before|
    ensures Taken(before, after) == [before[0]] + Taken(before[1..], after)
    ensures Received(Taken(before, after))
         == (if before[0].DataSource? then before[0].fragment else []) + Received(Taken(before[1..], after))
    ensures Undisturbed(Taken(before, after))
       <==> !before[0].Timeout? && !before[0].StreamFailure? && Undisturbed(Taken(before[1..], after))
    ensures forall uid :: RemovedIn(Taken(before, after), uid)
                     <==> IsRemoval(before[0], uid) || RemovedIn(Taken(before[1..], after), uid)
  {}

  /**
   * If there is an answer then it is what the octets taken encode, nothing interrupted them and the decoder is empty.
   */
  ghost predicate ExactReply(inbox: seq<Input>, bytes: seq<byte>, expected: Expectation, r: Reply) {
    && |r.w.inbox| <= |inbox|
    && (r.got.Some? ==>
          && r.w.decoder == CLEAR
          && Answers(r.got.value, expected)
          && Encode(r.got.value) == bytes + Received(Taken(inbox, r.w.inbox))
          && Undisturbed(Taken(inbox, r.w.inbox)))
  }

  lemma ExactStep(inbox: seq<Input>, bytes: seq<byte>, expected: Expectation, r: Reply)
    requires inbox != [] && !inbox[0].Timeout? && !inbox[0].StreamFailure?
    requires ExactReply(inbox[1..], bytes + (if inbox[0].DataSource? then inbox[0].fragment else []), expected, r)
    ensures ExactReply(inbox, bytes, expected, r)
  {
    TakenStep(inbox, r.w.inbox);
    hide Answers, Encode, Received, Taken, Undisturbed;
    var rest := Received(Taken(inbox[1..], r.w.inbox));
    var first: seq<byte> := if inbox[0].DataSource? then inbox[0].fragment else [];
    assert bytes + (first + rest) == bytes + first + rest;
  }

  /** An answer is returned only for octets that are exactly its encoding, and leaves the decoder empty. */
  lemma {:induction false} WaitIsExact(env: Env, w: World, bytes: seq<byte>, expected: Expectation)
    requires Awaiting(w, bytes, expected)
    ensures ExactReply(w.inbox, bytes, expected, Wait(env, w))
    decreases |w.inbox|
  {
    hide Parse, Answers, Feed, IngestPacket;
    if w.inbox != [] && !w.inbox[0].Timeout? && !w.inbox[0].StreamFailure? {
      var w1 := w.(inbox := w.inbox[1..]);
      var r := Wait(env, w);
      match w.inbox[0] {
        case DataSource(fragment) =>
          FeedOne(bytes, expected, fragment);
          var p := Feed(w1.decoder, fragment);
          if p.outcome == Ok([]) {
            WaitIsExact(env, w1.(decoder := p.after), bytes + fragment, expected);
          } else if p.outcome.Ok? {
            assert Taken(w1.inbox, w1.inbox) == [];
            assert bytes + fragment + [] == bytes + fragment;
          }
        case NotificationSource(packet) =>
          assert bytes + [] == bytes;
          WaitIsExact(env, IngestPacket(env, w1, packet), bytes, expected);
      }
      hide ExactReply;
      ExactStep(w.inbox, bytes, expected, r);
    }
  }

  /** The first `k` inputs carry exactly the encoding of the answer and nothing interrupts them. */
  ghost predicate Delivers(inbox: seq<Input>, k: nat, bytes: seq<byte>, expected: Expectation, answer: Response) {
    k <= |inbox| && Undisturbed(inbox[..k]) && Answers(answer, expected) && Encode(answer) == bytes + Received(inbox[..k])
  }

  lemma {:induction false} WaitCompletes(env: Env, w: World, bytes: seq<byte>, expected: Expectation, answer: Response,
                                         k: nat)
    requires Awaiting(w, bytes, expected) && Delivers(w.inbox, k, bytes, expected, answer)
    ensures Wait(env, w).got == Some(answer) && |Wait(env, w).w.inbox| >= |w.inbox| - k
    decreases k
  {
    hide Parse, Answers, Feed, IngestPacket;
    if k == 0 {
      assert bytes + [] == bytes;
      DecodesExactly(bytes, expected, answer, |bytes|);
      assert false;
    } else {
      assert w.inbox[..k] == [w.inbox[0]] + w.inbox[1..][..k - 1];
      assert w.inbox[..k][1..] == w.inbox[1..][..k - 1];
      var later := w.inbox[1..][..k - 1];
      forall i | 0 <= i < |later| ensures !later[i].Timeout? && !later[i].StreamFailure? {
        assert later[i] == w.inbox[..k][i + 1];
      }
      assert w.inbox[..k][0] == w.inbox[0];
      var w1 := w.(inbox := w.inbox[1..]);
      var rest := Received(w1.inbox[..k - 1]);
      match w.inbox[0]
      case DataSource(fragment) =>
        assert bytes + (fragment + rest) == bytes + fragment + rest;
        if rest == [] {
          assert bytes + fragment + [] == bytes + fragment;
          FeedWhole(bytes, expected, fragment, answer);
        } else {
          FeedPart(bytes, expected, fragment, rest, answer);
          WaitCompletes(env, w1.(decoder := Buffer(bytes + fragment, [expected])), bytes + fragment, expected, answer,
            k - 1);
        }
      case NotificationSource(packet) =>
        assert [] + rest == rest;
        WaitCompletes(env, IngestPacket(env, w1, packet), bytes, expected, answer, k - 1);
    }
  }

  // ----- fetching with an empty decoder -----

  /**
   * A request whose write succeeded returns an answer exactly when some prefix of what arrives, free of timeout
   * and stream failure, carries in its Data Source fragments exactly the encoding of an in-limit answer to it.
   */
  lemma FetchSucceedsExactly(env: Env, w: World, expected: Expectation, request: seq<byte>, answer: Response)
    requires w.decoder == CLEAR
    ensures Fetch(env, w, expected, request).got == Some(answer)
       <==> env.writeOk(|w.writes|) && exists k :: Delivers(w.inbox, k, [], expected, answer)
  {
    hide Parse, Answers, Wait, Delivers, ExactReply, Undisturbed, Received;
    EmptyInputIsIncomplete(expected);
    var sent := WriteControl(env, w.(decoder := Expecting(w.decoder, expected)), request);
    assert sent.w.decoder == Buffer([], [expected]);
    if sent.ok {
      WaitIsExact(env, sent.w, [], expected);
      var r := Wait(env, sent.w);
      if r.got == Some(answer) {
        ExactTaken(w.inbox, expected, r);
      }
      if exists k :: Delivers(w.inbox, k, [], expected, answer) {
        var k :| Delivers(w.inbox, k, [], expected, answer);
        WaitCompletes(env, sent.w, [], expected, answer, k);
      }
    }
  }

  /** The octets received during a successful request are the encoding of what it returned, and nothing is left over. */
  lemma FetchIsExact(env: Env, w: World, expected: Expectation, request: seq<byte>)
    requires w.decoder == CLEAR
    ensures var r := Fetch(env, w, expected, request);
            && r.w.decoder == CLEAR
            && (r.got.Some? ==> Answers(r.got.value, expected)
                                && Encode(r.got.value) == Received(Taken(w.inbox, r.w.inbox)))
  {
    hide Parse, Answers, Wait;
    EmptyInputIsIncomplete(expected);
    var sent := WriteControl(env, w.(decoder := Expecting(w.decoder, expected)), request);
    assert sent.w.decoder == Buffer([], [expected]);
    WaitIsExact(env, sent.w, [], expected);
    assert forall s: seq<byte> :: [] + s == s;
  }

  // ----- cancellation -----

  lemma IngestCancels(env: Env, w: World, event: NotificationEvent, uid: Uid)
    requires w.outstanding == Some(uid)
    ensures uid in Ingest(env, w, event).canceled <==> uid in w.canceled || (event.kind == Removed && event.uid == uid)
  {
    hide Without, WaitingLen;
  }

  /** The outstanding UID becomes cancelled exactly when a removal of it arrives during the wait. */
  lemma {:induction false} WaitCancels(env: Env, w: World, uid: Uid)
    requires w.outstanding == Some(uid)
    ensures var r := Wait(env, w);
            uid in r.w.canceled <==> uid in w.canceled || RemovedIn(Taken(w.inbox, r.w.inbox), uid)
    decreases |w.inbox|
  {
    hide Feed, Ingest, ParseEvent;
    var r := Wait(env, w);
    if w.inbox == [] {
    } else {
      TakenStep(w.inbox, r.w.inbox);
      var w1 := w.(inbox := w.inbox[1..]);
      match w.inbox[0]
      case Timeout => assert Taken(w1.inbox, w1.inbox) == [];
      case StreamFailure => assert Taken(w1.inbox, w1.inbox) == [];
      case DataSource(fragment) =>
        var p := Feed(w1.decoder, fragment);
        if p.outcome == Ok([]) {
          WaitCancels(env, w1.(decoder := p.after), uid);
        } else {
          assert Taken(w1.inbox, w1.inbox) == [];
        }
      case NotificationSource(packet) =>
        if ParseEvent(packet).Ok? { IngestCancels(env, w1, ParseEvent(packet).value, uid); }
        WaitCancels(env, IngestPacket(env, w1, packet), uid);
    }
  }

  lemma FetchCancels(env: Env, w: World, expected: Expectation, request: seq<byte>, uid: Uid)
    requires w.outstanding == Some(uid)
    ensures var r := Fetch(env, w, expected, request);
            uid in r.w.canceled <==> uid in w.canceled || RemovedIn(Taken(w.inbox, r.w.inbox), uid)
  {
    hide Wait;
    var sent := WriteControl(env, w.(decoder := Expecting(w.decoder, expected)), request);
    WaitCancels(env, sent.w, uid);
    assert Taken(w.inbox, w.inbox) == [];
  }

  // ----- answered and not cancelled -----

  /** Some undisturbed prefix of the inbox carries an answer to the request for the UID, and no removal of the UID. */
  ghost predicate AnsweredUnremoved(inbox: seq<Input>, uid: Uid) {
    exists k: nat, answer :: Delivers(inbox, k, [], ExpectNotification(uid), answer) && !RemovedIn(inbox[..k], uid)
  }

  lemma RemovedSooner(inbox: seq<Input>, k: nat, n: nat, uid: Uid)
    requires k <= n <= |inbox| && RemovedIn(inbox[..k], uid)
    ensures RemovedIn(inbox[..n], uid)
  {
    hide IsRemoval;
    var i :| 0 <= i < k && IsRemoval(inbox[..k][i], uid);
    assert inbox[..n][i] == inbox[..k][i];
  }

  /**
   * A request returns an answer before any removal of its UID exactly when what arrives carries one before any
   * removal.
   */
  lemma AnsweredUnremovedExactly(env: Env, w: World, uid: Uid, request: seq<byte>)
    requires w.decoder == CLEAR
    ensures var r := Fetch(env, w, ExpectNotification(uid), request);
            r.got.Some? && !RemovedIn(Taken(w.inbox, r.w.inbox), uid)
            <==> env.writeOk(|w.writes|) && AnsweredUnremoved(w.inbox, uid)
  {
    hide Parse, Answers, Wait, ExactReply, Undisturbed, Received, RemovedIn, Encode;
    var expected := ExpectNotification(uid);
    EmptyInputIsIncomplete(expected);
    var sent := WriteControl(env, w.(decoder := Expecting(w.decoder, expected)), request);
    assert sent.w.decoder == Buffer([], [expected]);
    if sent.ok {
      WaitIsExact(env, sent.w, [], expected);
      var r := Wait(env, sent.w);
      if r.got.Some? && !RemovedIn(Taken(w.inbox, r.w.inbox), uid) {
        ExactTaken(w.inbox, expected, r);
      }
      if AnsweredUnremoved(w.inbox, uid) {
        var k: nat, answer :|
          k <= |w.inbox| && Delivers(w.inbox, k, [], expected, answer) && !RemovedIn(w.inbox[..k], uid);
        WaitCompletes(env, sent.w, [], expected, answer, k);
        if RemovedIn(Taken(w.inbox, r.w.inbox), uid) {
          RemovedSooner(w.inbox, |w.inbox| - |r.w.inbox|, k, uid);
        }
      }
    }
  }

  lemma ExactTaken(inbox: seq<Input>, expected: Expectation, r: Reply)
    requires ExactReply(inbox, [], expected, r) && r.got.Some?
    ensures Delivers(inbox, |inbox| - |r.w.inbox|, [], expected, r.got.value)
  {
    hide Answers, Encode, Received, Undisturbed;
  }
}
