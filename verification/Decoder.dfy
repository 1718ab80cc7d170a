/** `DataSourceDecoder` of src/ancs/codec.rs: the incremental decoder and its independence of fragmentation. */
module Decoder {
  import opened Bytes
  import opened Codec
  import opened Collections

  /** Octets not yet decoded and the answers still expected, oldest first. */
  datatype Buffer = Buffer(bytes: seq<byte>, expected: seq<Expectation>)

  const CLEAR: Buffer := Buffer([], [])

  function Expecting(b: Buffer, e: Expectation): Buffer {
    b.(expected := b.expected + [e])
  }

  datatype Drained = Drained(rest: Buffer, decoded: seq<Response>, failure: Result<(), CodecError>)

  /** Decodes answers from the front until one is incomplete, one is malformed or none is expected. */
  function Drain(b: Buffer): Drained
    decreases |b.expected|
  {
    if b.expected == [] then Drained(b, [], Ok(()))
    else
      match Parse(b.bytes, b.expected[0])
      case Incomplete => Drained(b, [], Ok(()))
      case Bad(e) => Drained(b, [], Err(e))
      case Done(value, consumed) =>
        var d := Drain(Buffer(b.bytes[consumed..], b.expected[1..]));
        d.(decoded := [value] + d.decoded)
  }

  datatype Pushed = Pushed(after: Buffer, outcome: Result<seq<Response>, CodecError>)

  function Feed(b: Buffer, fragment: seq<byte>): Pushed {
    if |b.bytes| + |fragment| > MAX_RESPONSE_BYTES then Pushed(CLEAR, Err(Oversized))
    else
      var d := Drain(b.(bytes := b.bytes + fragment));
      if d.failure.Err? then Pushed(d.rest, Err(d.failure.error))
      else if d.rest.expected == [] && d.rest.bytes != [] then Pushed(CLEAR, Err(UnexpectedTrailingData))
      else Pushed(d.rest, Ok(d.decoded))
  }

  /** One push for each fragment, stopping at the first error. */
  function FeedAll(b: Buffer, fragments: seq<seq<byte>>): Pushed
    decreases |fragments|
  {
    if fragments == [] then Pushed(b, Ok([]))
    else
      var first := Feed(b, fragments[0]);
      if first.outcome.Err? then first
      else
        var others := FeedAll(first.after, fragments[1..]);
        if others.outcome.Err? then others
        else Pushed(others.after, Ok(first.outcome.value + others.outcome.value))
  }

  function Concat<T>(parts: seq<seq<T>>): seq<T> {
    if parts == [] then [] else parts[0] + Concat(parts[1..])
  }

  // ----- the imperative decoder -----

  class DataSourceDecoder {
    var bytes: seq<byte>
    var expected: seq<Expectation>

    function State(): Buffer
      reads this
    {
      Buffer(bytes, expected)
    }

    constructor ()
      ensures State() == CLEAR
    {
      bytes, expected := [], [];
    }

    method Expect(e: Expectation)
      modifies this
      ensures bytes == old(bytes) && expected == old(expected) + [e]
    {
      expected := expected + [e];
    }

    method Clear()
      modifies this
      ensures State() == CLEAR
    {
      bytes, expected := [], [];
    }

    method Push(fragment: seq<byte>) returns (r: Result<seq<Response>, CodecError>)
      modifies this
      ensures Pushed(State(), r) == Feed(old(State()), fragment)
    {
      hide Drain;
      if |bytes| + |fragment| > MAX_RESPONSE_BYTES {
        Clear();
        return Err(Oversized);
      }
      bytes := bytes + fragment;
      r := DecodeBuffered();
      if r.Ok? && expected == [] && bytes != [] {
        Clear();
        return Err(UnexpectedTrailingData);
      }
    }

    /** The loop of `push`: on an error the answers decoded before it are discarded, the octets are not. */
    method DecodeBuffered() returns (r: Result<seq<Response>, CodecError>)
      modifies this
      ensures var d := Drain(old(State()));
              State() == d.rest && r == if d.failure.Err? then Err(d.failure.error) else Ok(d.decoded)
    {
      hide Parse;
      ghost var start := State();
      var decoded: seq<Response> := [];
      var more := true;
      while more && expected != []
        invariant Drain(start) == (var d := Drain(State()); d.(decoded := decoded + d.decoded))
        invariant !more ==> Drain(State()) == Drained(State(), [], Ok(()))
        decreases |expected| + if more then 1 else 0
      {
        match Parse(bytes, expected[0])
        case Bad(e) =>
          return Err(e);
        case Incomplete =>
          more := false;
        case Done(value, consumed) =>
          ghost var tail := Drain(Buffer(bytes[consumed..], expected[1..])).decoded;
          assert decoded + ([value] + tail) == decoded + [value] + tail;
          bytes, expected := bytes[consumed..], expected[1..];
          decoded := decoded + [value];
      }
      assert decoded + [] == decoded;
      return Ok(decoded);
    }
  }

  // ----- bounds -----

  lemma DrainShrinks(b: Buffer)
    ensures |Drain(b).rest.bytes| <= |b.bytes| && |Drain(b).rest.expected| <= |b.expected|
    decreases |b.expected|
  {
    hide Parse;
  }

  /** The buffer never holds more than 65,536 octets, whatever is pushed and whether or not it succeeds. */
  lemma BufferStaysBounded(b: Buffer, fragment: seq<byte>)
    ensures |Feed(b, fragment).after.bytes| <= MAX_RESPONSE_BYTES
  {
    hide Parse, Drain;
    DrainShrinks(b.(bytes := b.bytes + fragment));
  }

  // ----- fragmentation -----

  /** Draining more octets continues where draining fewer stopped; an error found early stays the error. */
  lemma {:induction false} DrainContinues(b: Buffer, more: seq<byte>)
    ensures var d := Drain(b); var whole := Drain(b.(bytes := b.bytes + more));
            if d.failure.Err? then whole.failure == d.failure
            else var d2 := Drain(d.rest.(bytes := d.rest.bytes + more));
                 whole == d2.(decoded := d.decoded + d2.decoded)
    decreases |b.expected|
  {
    hide Parse;
    if b.expected != [] && !Parse(b.bytes, b.expected[0]).Incomplete? {
      DecisionIsStable(b.bytes, more, b.expected[0]);
      match Parse(b.bytes, b.expected[0])
      case Bad(e) =>
      case Done(value, consumed) =>
        var b1 := Buffer(b.bytes[consumed..], b.expected[1..]);
        assert (b.bytes + more)[consumed..] == b1.bytes + more;
        DrainContinues(b1, more);
        var d := Drain(b1);
        if d.failure.Ok? {
          var d2 := Drain(d.rest.(bytes := d.rest.bytes + more));
          assert [value] + (d.decoded + d2.decoded) == [value] + d.decoded + d2.decoded;
        }
    } else {
      var d2 := Drain(b.(bytes := b.bytes + more));
      assert [] + d2.decoded == d2.decoded;
    }
  }

  /** When octets stay buffered with nothing expected, draining more leaves at least as many. */
  lemma DrainSettles(b: Buffer)
    ensures var d := Drain(b); d.rest.expected == [] ==>
              forall more :: var longer := d.rest.(bytes := d.rest.bytes + more); Drain(longer) == Drained(longer, [], Ok(()))
    decreases |b.expected|
  {}

  /** One push of two pieces succeeds exactly when pushing them in turn does and the buffer can hold both. */
  lemma SplitPush(b: Buffer, first: seq<byte>, second: seq<byte>)
    ensures var whole, p1 := Feed(b, first + second), Feed(b, first);
            whole.outcome.Ok? <==> p1.outcome.Ok? && Feed(p1.after, second).outcome.Ok?
                                   && |b.bytes| + |first| + |second| <= MAX_RESPONSE_BYTES
    ensures var whole, p1 := Feed(b, first + second), Feed(b, first);
            whole.outcome.Ok? ==>
              var p2 := Feed(p1.after, second);
              whole == Pushed(p2.after, Ok(p1.outcome.value + p2.outcome.value))
  {
    hide Parse, Drain;
    var b1 := b.(bytes := b.bytes + first);
    assert b1.bytes + second == b.bytes + (first + second);
    DrainContinues(b1, second);
    DrainShrinks(b1);
    DrainSettles(b1);
  }

  /**
   * Fragmentation independence. If one push of a byte string succeeds, then pushing the string in any
   * fragments succeeds, yields the same answers in the same order and ends in the same state.
   */
  lemma {:induction false} FragmentationIndependence(b: Buffer, fragments: seq<seq<byte>>)
    requires fragments != []
    requires Feed(b, Concat(fragments)).outcome.Ok?
    ensures FeedAll(b, fragments) == Feed(b, Concat(fragments))
    decreases |fragments|
  {
    hide Feed;
    var first, others := fragments[0], fragments[1..];
    if others == [] {
      SingleFragment(b, fragments);
    } else {
      SplitPush(b, first, Concat(others));
      FragmentationIndependence(Feed(b, first).after, others);
    }
  }

  lemma SingleFragment(b: Buffer, fragments: seq<seq<byte>>)
    requires |fragments| == 1
    ensures Concat(fragments) == fragments[0]
    ensures FeedAll(b, fragments) == Feed(b, fragments[0])
  {
    hide Feed;
    assert Concat(fragments[1..]) == [];
    var p := Feed(b, fragments[0]);
    if p.outcome.Ok? {
      assert FeedAll(p.after, fragments[1..]) == Pushed(p.after, Ok([]));
      assert p.outcome.value + [] == p.outcome.value;
    }
  }

  /** The converse, for strings the buffer can hold: fragments that succeed also succeed as one push. */
  lemma {:induction false} Reassembly(b: Buffer, fragments: seq<seq<byte>>)
    requires fragments != []
    requires FeedAll(b, fragments).outcome.Ok?
    requires |b.bytes| + |Concat(fragments)| <= MAX_RESPONSE_BYTES
    ensures Feed(b, Concat(fragments)) == FeedAll(b, fragments)
    decreases |fragments|
  {
    var first, others := fragments[0], fragments[1..];
    PushGrowsBy(b, first);
    hide Feed;
    if others == [] {
      SingleFragment(b, fragments);
    } else {
      Reassembly(Feed(b, first).after, others);
      SplitPush(b, first, Concat(others));
    }
  }

  lemma PushGrowsBy(b: Buffer, fragment: seq<byte>)
    ensures |Feed(b, fragment).after.bytes| <= |b.bytes| + |fragment|
  {
    hide Parse, Drain;
    DrainShrinks(b.(bytes := b.bytes + fragment));
  }

  // ----- whole answers -----

  lemma EmptyDrains(expected: seq<Expectation>)
    ensures Drain(Buffer([], expected)) == Drained(Buffer([], expected), [], Ok(()))
  {}

  /** The whole answer to the oldest expectation, pushed into an empty buffer, is returned and nothing else happens. */
  lemma FeedOldest(expected: seq<Expectation>, answer: Response)
    requires expected != [] && Answers(answer, expected[0])
    ensures Feed(Buffer([], expected), Encode(answer)) == Pushed(Buffer([], expected[1..]), Ok([answer]))
  {
    assert Encodable(answer) && |Encode(answer)| <= MAX_RESPONSE_BYTES;
    hide Answers, Encode, Parse;
    var octets := Encode(answer);
    DecodesExactly(octets, expected[0], answer, |octets|);
    EmptyDrains(expected[1..]);
    assert [] + octets == octets && octets[|octets|..] == [];
    assert [answer] + [] == [answer];
    assert Drain(Buffer(octets, expected)) == Drained(Buffer([], expected[1..]), [answer], Ok(()));
    hide Drain;
  }

  // ----- the size guard of the converse is needed -----

  lemma {:induction false} AsciiIsUtf8(n: nat)
    ensures ValidUtf8(seq(n, _ => 0x61))
    decreases n
  {
    if n > 0 {
      var s: seq<byte> := seq(n, _ => 0x61);
      assert s[1..] == seq(n - 1, _ => 0x61);
      AsciiIsUtf8(n - 1);
    }
  }

  lemma SameAnswerTwice(e: Expectation, answer: Response)
    requires Answers(answer, e)
    ensures FeedAll(Buffer([], [e, e]), [Encode(answer), Encode(answer)]).outcome.Ok?
  {
    FeedOldest([e, e], answer);
    FeedOldest([e], answer);
    hide Answers, Encode, Feed;
    var octets := Encode(answer);
    var one, two := [octets], [octets, octets];
    assert [e, e][1..] == [e] && two[1..] == one && one[1..] == [];
    assert FeedAll(Buffer([], [e]), one).outcome.Ok?;
  }

  lemma Overflow(b: Buffer, fragment: seq<byte>)
    requires |b.bytes| + |fragment| > MAX_RESPONSE_BYTES
    ensures Feed(b, fragment) == Pushed(CLEAR, Err(Oversized))
  {}

  lemma LongAnswerExists()
    ensures exists answer :: Answers(answer, ExpectNotification(1)) && 2 * |Encode(answer)| > MAX_RESPONSE_BYTES
  {
    var long: Text := seq(40000, _ => 0x61);
    AsciiIsUtf8(40000);
    hide ValidUtf8;
    var answer := NotificationAttributes(1, long, [], []);
    assert ValidUtf8([]) by { AsciiIsUtf8(0); var none: Text := seq(0, _ => 0x61); assert none == []; }
    assert Answers(answer, ExpectNotification(1));
  }

  /** Two long answers that are decoded one after the other do not fit the buffer together. */
  lemma LongAnswersMustComeApart()
    ensures exists b, first, second ::
              FeedAll(b, [first, second]).outcome.Ok? && Feed(b, first + second).outcome == Err(Oversized)
  {
    LongAnswerExists();
    hide Encode, FeedAll, Feed, ValidUtf8;
    var e := ExpectNotification(1);
    var answer :| Answers(answer, e) && 2 * |Encode(answer)| > MAX_RESPONSE_BYTES;
    var octets := Encode(answer);
    SameAnswerTwice(e, answer);
    Overflow(Buffer([], [e, e]), octets + octets);
  }
}
