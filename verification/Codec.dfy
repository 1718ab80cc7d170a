/** src/ancs/codec.rs: event parser, request builders and the two response parsers. */
module Codec {
  import opened Bytes
  import opened Collections

  const TITLE_MAX_BYTES: nat := 256
  const MESSAGE_MAX_BYTES: nat := 2048
  const MAX_RESPONSE_BYTES: nat := 64 * 1024

  const GET_NOTIFICATION_ATTRIBUTES: byte := 0
  const GET_APP_ATTRIBUTES: byte := 1
  const APP_IDENTIFIER: byte := 0
  const TITLE: byte := 1
  const MESSAGE: byte := 3
  const DISPLAY_NAME: byte := 0

  datatype CodecError =
    | InvalidEventLength(length: nat)
    | InvalidEvent(value: byte)
    | InvalidAppIdentifier
    | UnexpectedCommand(command: byte)
    | WrongUid(expected: u32, actual: u32)
    | WrongAppIdentifier
    | InvalidAttribute(expectedId: byte, actualId: byte)
    | InvalidLength
    | InvalidUtf8
    | UnexpectedTrailingData
    | Oversized

  datatype EventKind = Added | Modified | Removed

  datatype Category =
    | Other | IncomingCall | MissedCall | Voicemail | Social | Schedule | Email | News
    | HealthAndFitness | BusinessAndFinance | Location | Entertainment | Reserved(raw: byte)

  datatype NotificationEvent =
    NotificationEvent(kind: EventKind, flags: byte, category: Category, categoryCount: byte, uid: u32)
  {
    /** Bit 2 of the flags. */
    predicate PreExisting() {
      (flags / 4) % 2 == 1
    }
  }

  function CategoryFromByte(b: byte): Category {
    match b
    case 0 => Other
    case 1 => IncomingCall
    case 2 => MissedCall
    case 3 => Voicemail
    case 4 => Social
    case 5 => Schedule
    case 6 => Email
    case 7 => News
    case 8 => HealthAndFitness
    case 9 => BusinessAndFinance
    case 10 => Location
    case 11 => Entertainment
    case _ => Reserved(b)
  }

  function ParseEvent(bytes: seq<byte>): Result<NotificationEvent, CodecError> {
    if |bytes| != 8 then Err(InvalidEventLength(|bytes|))
    else if bytes[0] > 2 then Err(InvalidEvent(bytes[0]))
    else
      Ok(NotificationEvent(
           if bytes[0] == 0 then Added else if bytes[0] == 1 then Modified else Removed,
           bytes[1],
           CategoryFromByte(bytes[2]),
           bytes[3],
           U32FromLe(bytes[4], bytes[5], bytes[6], bytes[7])))
  }

  // ----- reference encoder of Notification Source events -----

  function CategoryToByte(c: Category): byte {
    match c
    case Other => 0
    case IncomingCall => 1
    case MissedCall => 2
    case Voicemail => 3
    case Social => 4
    case Schedule => 5
    case Email => 6
    case News => 7
    case HealthAndFitness => 8
    case BusinessAndFinance => 9
    case Location => 10
    case Entertainment => 11
    case Reserved(b) => b
  }

  /** The named categories 0..11 never appear as `Reserved`. */
  predicate CanonicalEvent(e: NotificationEvent) {
    e.category.Reserved? ==> e.category.raw > 11
  }

  function EncodeEvent(e: NotificationEvent): seq<byte> {
    [match e.kind case Added => 0 case Modified => 1 case Removed => 2,
     e.flags, CategoryToByte(e.category), e.categoryCount] + U32ToLe(e.uid)
  }

  /** Event parser and encoder are inverse bijections between the accepted octets and the canonical events. */
  lemma EventCodecIsBijective(bytes: seq<byte>, e: NotificationEvent)
    ensures ParseEvent(bytes) == Ok(e) <==> CanonicalEvent(e) && bytes == EncodeEvent(e)
  {
    if |bytes| == 8 {
      U32LeUnique(bytes[4], bytes[5], bytes[6], bytes[7]);
      assert bytes == bytes[..4] + bytes[4..];
      assert bytes[..4] == [bytes[0], bytes[1], bytes[2], bytes[3]];
      assert bytes[4..] == [bytes[4], bytes[5], bytes[6], bytes[7]];
      assert CategoryToByte(CategoryFromByte(bytes[2])) == bytes[2];
    }
    var enc := EncodeEvent(e);
    assert enc[4..] == U32ToLe(e.uid);
    assert enc[4] == U32ToLe(e.uid)[0] && enc[5] == U32ToLe(e.uid)[1] && enc[6] == U32ToLe(e.uid)[2]
           && enc[7] == U32ToLe(e.uid)[3];
  }

  // ----- Control Point requests -----

  function NotificationAttributesRequest(uid: u32): seq<byte> {
    [GET_NOTIFICATION_ATTRIBUTES] + U32ToLe(uid) + [APP_IDENTIFIER, TITLE] + U16ToLe(TITLE_MAX_BYTES)
    + [MESSAGE] + U16ToLe(MESSAGE_MAX_BYTES)
  }

  function AppAttributesRequest(app: Text): Result<seq<byte>, CodecError> {
    if app == [] || 0 in app then Err(InvalidAppIdentifier)
    else Ok([GET_APP_ATTRIBUTES] + app + [0, DISPLAY_NAME])
  }

  // ----- responses -----

  datatype Expectation = ExpectNotification(uid: u32) | ExpectApp(app: Text)

  datatype Response =
    | NotificationAttributes(uid: u32, appIdentifier: Text, title: Text, message: Text)
    | AppAttributes(app: Text, displayName: Text)

  /** `Incomplete` is the source's `Ok(None)`, `Done` its `Ok(Some((value, consumed)))`. */
  datatype Parsed<+T> = Incomplete | Done(value: T, consumed: nat) | Bad(error: CodecError)

  /** On `Done`, `consumed` is the advanced cursor. */
  function ParseAttribute(bytes: seq<byte>, cursor: nat, id: byte, maximum: nat): (r: Parsed<Text>)
    ensures r.Done? ==> cursor < r.consumed <= |bytes|
  {
    if |bytes| < cursor + 3 then Incomplete
    else if bytes[cursor] != id then Bad(InvalidAttribute(id, bytes[cursor]))
    else
      var length := U16FromLe(bytes[cursor + 1], bytes[cursor + 2]);
      var start := cursor + 3;
      var end := start + length;
      if length > maximum then Bad(InvalidLength)
      else if end > MAX_RESPONSE_BYTES then Bad(InvalidLength)
      else if end > |bytes| then Incomplete
      else if !ValidUtf8(bytes[start..end]) then Bad(InvalidUtf8)
      else Done(bytes[start..end], end)
  }

  function ParseNotification(bytes: seq<byte>, uid: u32): (r: Parsed<Response>)
    ensures r.Done? ==> 0 < r.consumed <= |bytes|
  {
    if |bytes| < 5 then Incomplete
    else if bytes[0] != GET_NOTIFICATION_ATTRIBUTES then Bad(UnexpectedCommand(bytes[0]))
    else
      var actual := U32FromLe(bytes[1], bytes[2], bytes[3], bytes[4]);
      if actual != uid then Bad(WrongUid(uid, actual))
      else
        match ParseAttribute(bytes, 5, APP_IDENTIFIER, MAX_RESPONSE_BYTES)
        case Bad(e) => Bad(e)
        case Incomplete => Incomplete
        case Done(app, c1) =>
          match ParseAttribute(bytes, c1, TITLE, TITLE_MAX_BYTES)
          case Bad(e) => Bad(e)
          case Incomplete => Incomplete
          case Done(title, c2) =>
            match ParseAttribute(bytes, c2, MESSAGE, MESSAGE_MAX_BYTES)
            case Bad(e) => Bad(e)
            case Incomplete => Incomplete
            case Done(message, c3) => Done(NotificationAttributes(actual, app, title, message), c3)
  }

  /** Position of the first zero octet at or after `from`; the length of `bytes` when there is none. */
  function ZeroAt(bytes: seq<byte>, from: nat): (p: nat)
    requires from <= |bytes|
    ensures from <= p <= |bytes|
    ensures forall i :: from <= i < p ==> bytes[i] != 0
    ensures p < |bytes| ==> bytes[p] == 0
    decreases |bytes| - from
  {
    if from == |bytes| || bytes[from] == 0 then from else ZeroAt(bytes, from + 1)
  }

  function ParseApp(bytes: seq<byte>, expected: Text): (r: Parsed<Response>)
    ensures r.Done? ==> 0 < r.consumed <= |bytes|
  {
    if bytes == [] then Incomplete
    else if bytes[0] != GET_APP_ATTRIBUTES then Bad(UnexpectedCommand(bytes[0]))
    else
      var end := ZeroAt(bytes, 1);
      if end == |bytes| then Incomplete
      else if !ValidUtf8(bytes[1..end]) then Bad(InvalidUtf8)
      else if bytes[1..end] != expected then Bad(WrongAppIdentifier)
      else
        match ParseAttribute(bytes, end + 1, DISPLAY_NAME, MAX_RESPONSE_BYTES)
        case Bad(e) => Bad(e)
        case Incomplete => Incomplete
        case Done(name, c) => Done(AppAttributes(bytes[1..end], name), c)
  }

  function Parse(bytes: seq<byte>, expected: Expectation): (r: Parsed<Response>)
    ensures r.Done? ==> 0 < r.consumed <= |bytes|
  {
    match expected
    case ExpectNotification(uid) => ParseNotification(bytes, uid)
    case ExpectApp(app) => ParseApp(bytes, app)
  }

  // ----- reference encoder of responses -----

  function EncodeAttribute(id: byte, value: Text): (s: seq<byte>)
    requires |value| < 0x1_0000
    ensures |s| == 3 + |value|
  {
    [id] + U16ToLe(|value|) + value
  }

  predicate Encodable(r: Response) {
    match r
    case NotificationAttributes(_, app, title, message) =>
      |app| < 0x1_0000 && |title| < 0x1_0000 && |message| < 0x1_0000
    case AppAttributes(_, name) => |name| < 0x1_0000
  }

  function Encode(r: Response): (s: seq<byte>)
    requires Encodable(r)
    ensures s != []
  {
    match r
    case NotificationAttributes(uid, app, title, message) =>
      [GET_NOTIFICATION_ATTRIBUTES] + U32ToLe(uid) + EncodeAttribute(APP_IDENTIFIER, app)
      + EncodeAttribute(TITLE, title) + EncodeAttribute(MESSAGE, message)
    case AppAttributes(app, name) =>
      [GET_APP_ATTRIBUTES] + app + [0] + EncodeAttribute(DISPLAY_NAME, name)
  }

  /** The response is one the phone may send for this request, within the limits that were asked for. */
  predicate Answers(r: Response, expected: Expectation) {
    Encodable(r) && |Encode(r)| <= MAX_RESPONSE_BYTES &&
    match (r, expected)
    case (NotificationAttributes(uid, app, title, message), ExpectNotification(wanted)) =>
      uid == wanted && ValidUtf8(app) && ValidUtf8(title) && ValidUtf8(message)
      && |title| <= TITLE_MAX_BYTES && |message| <= MESSAGE_MAX_BYTES
    case (AppAttributes(app, name), ExpectApp(wanted)) =>
      app == wanted && ValidUtf8(app) && 0 !in app && ValidUtf8(name)
    case _ => false
  }

  lemma AttributeDecodesExactly(bytes: seq<byte>, cursor: nat, id: byte, maximum: nat, value: Text, end: nat)
    requires maximum <= MAX_RESPONSE_BYTES
    ensures ParseAttribute(bytes, cursor, id, maximum) == Done(value, end)
       <==> |value| <= maximum && |value| < 0x1_0000 && ValidUtf8(value) && end == cursor + 3 + |value|
            && end <= |bytes| && end <= MAX_RESPONSE_BYTES && bytes[cursor..end] == EncodeAttribute(id, value)
  {
    if |bytes| >= cursor + 3 {
      U16LeUnique(bytes[cursor + 1], bytes[cursor + 2]);
      var r := ParseAttribute(bytes, cursor, id, maximum);
      if r.Done? {
        var got := bytes[cursor..r.consumed];
        assert got == [bytes[cursor], bytes[cursor + 1], bytes[cursor + 2]] + bytes[cursor + 3..r.consumed];
        assert got == EncodeAttribute(id, r.value);
      }
      if |value| < 0x1_0000 && end == cursor + 3 + |value| && end <= |bytes|
        && bytes[cursor..end] == EncodeAttribute(id, value) {
        var enc := EncodeAttribute(id, value);
        assert enc[0] == bytes[cursor] && enc[1] == bytes[cursor + 1] && enc[2] == bytes[cursor + 2];
        assert bytes[cursor + 3..end] == bytes[cursor..end][3..] == value;
      }
    }
  }

  lemma AcceptedHeadIsCanonical(bytes: seq<byte>, uid: u32)
    requires |bytes| >= 5 && bytes[0] == GET_NOTIFICATION_ATTRIBUTES
             && U32FromLe(bytes[1], bytes[2], bytes[3], bytes[4]) == uid
    ensures bytes[..5] == [GET_NOTIFICATION_ATTRIBUTES] + U32ToLe(uid)
  {
    U32LeUnique(bytes[1], bytes[2], bytes[3], bytes[4]);
  }

  lemma FourParts(bytes: seq<byte>, c1: nat, c2: nat, n: nat)
    requires 5 <= c1 <= c2 <= n <= |bytes|
    ensures bytes[..5] + bytes[5..c1] + bytes[c1..c2] + bytes[c2..n] == bytes[..n]
  {}

  lemma AcceptedNotificationIsCanonical(bytes: seq<byte>, uid: u32, r: Response, n: nat)
    requires ParseNotification(bytes, uid) == Done(r, n)
    ensures Answers(r, ExpectNotification(uid)) && n == |Encode(r)| && Encode(r) <= bytes
  {
    hide ValidUtf8, EncodeAttribute, ParseAttribute, U32ToLe, U32FromLe;
    var c1 := ParseAttribute(bytes, 5, APP_IDENTIFIER, MAX_RESPONSE_BYTES).consumed;
    var c2 := ParseAttribute(bytes, c1, TITLE, TITLE_MAX_BYTES).consumed;
    AttributeDecodesExactly(bytes, 5, APP_IDENTIFIER, MAX_RESPONSE_BYTES, r.appIdentifier, c1);
    AttributeDecodesExactly(bytes, c1, TITLE, TITLE_MAX_BYTES, r.title, c2);
    AttributeDecodesExactly(bytes, c2, MESSAGE, MESSAGE_MAX_BYTES, r.message, n);
    AcceptedHeadIsCanonical(bytes, uid);
    FourParts(bytes, c1, c2, n);
    assert Encode(r) == bytes[..n];
  }

  lemma SliceOfPrefix(whole: seq<byte>, prefix: seq<byte>, before: seq<byte>, part: seq<byte>, after: seq<byte>)
    requires prefix == before + part + after && prefix <= whole
    ensures |before + part| <= |whole| && whole[|before|..|before + part|] == part
  {}

  lemma EncodedAttributeIsAccepted(bytes: seq<byte>, before: seq<byte>, id: byte, maximum: nat, value: Text,
                                   after: seq<byte>)
    requires |value| < 0x1_0000 && |value| <= maximum <= MAX_RESPONSE_BYTES && ValidUtf8(value)
    requires before + EncodeAttribute(id, value) + after <= bytes
    requires |before| + 3 + |value| <= MAX_RESPONSE_BYTES
    ensures ParseAttribute(bytes, |before|, id, maximum) == Done(value, |before| + 3 + |value|)
  {
    hide ValidUtf8, EncodeAttribute, ParseAttribute;
    SliceOfPrefix(bytes, before + EncodeAttribute(id, value) + after, before, EncodeAttribute(id, value), after);
    AttributeDecodesExactly(bytes, |before|, id, maximum, value, |before| + 3 + |value|);
  }

  lemma EncodedHeadIsAccepted(bytes: seq<byte>, uid: u32, after: seq<byte>)
    requires [GET_NOTIFICATION_ATTRIBUTES] + U32ToLe(uid) + after <= bytes
    ensures |bytes| >= 5 && bytes[0] == GET_NOTIFICATION_ATTRIBUTES
            && U32FromLe(bytes[1], bytes[2], bytes[3], bytes[4]) == uid
  {}

  lemma EncodedNotificationIsAccepted(bytes: seq<byte>, uid: u32, r: Response)
    requires Answers(r, ExpectNotification(uid)) && Encode(r) <= bytes
    ensures ParseNotification(bytes, uid) == Done(r, |Encode(r)|)
  {
    hide ValidUtf8, EncodeAttribute, ParseAttribute, U32ToLe, U32FromLe;
    var head := [GET_NOTIFICATION_ATTRIBUTES] + U32ToLe(uid);
    var a := EncodeAttribute(APP_IDENTIFIER, r.appIdentifier);
    var t := EncodeAttribute(TITLE, r.title);
    var m := EncodeAttribute(MESSAGE, r.message);
    var enc := Encode(r);
    assert enc == head + a + t + m;
    assert enc == head + (a + t + m);
    EncodedHeadIsAccepted(bytes, uid, a + t + m);
    assert enc == head + a + (t + m);
    EncodedAttributeIsAccepted(bytes, head, APP_IDENTIFIER, MAX_RESPONSE_BYTES, r.appIdentifier, t + m);
    EncodedAttributeIsAccepted(bytes, head + a, TITLE, TITLE_MAX_BYTES, r.title, m);
    assert enc == (head + a + t) + m + [];
    EncodedAttributeIsAccepted(bytes, head + a + t, MESSAGE, MESSAGE_MAX_BYTES, r.message, []);
  }

  lemma {:induction false} ZeroIsFirst(bytes: seq<byte>, from: nat, p: nat)
    requires from <= p < |bytes| && bytes[p] == 0 && forall i :: from <= i < p ==> bytes[i] != 0
    ensures ZeroAt(bytes, from) == p
    decreases p - from
  {}

  lemma AcceptedAppIsCanonical(bytes: seq<byte>, app: Text, r: Response, n: nat)
    requires ParseApp(bytes, app) == Done(r, n)
    ensures Answers(r, ExpectApp(app)) && n == |Encode(r)| && Encode(r) <= bytes
  {
    hide ValidUtf8;
    var end := ZeroAt(bytes, 1);
    AttributeDecodesExactly(bytes, end + 1, DISPLAY_NAME, MAX_RESPONSE_BYTES, r.displayName, n);
    assert [bytes[0]] + bytes[1..end] + [bytes[end]] == bytes[..end + 1];
    assert Encode(r) == bytes[..end + 1] + bytes[end + 1..n] == bytes[..n];
  }

  lemma EncodedAppIsAccepted(bytes: seq<byte>, app: Text, r: Response)
    requires Answers(r, ExpectApp(app)) && Encode(r) <= bytes
    ensures ParseApp(bytes, app) == Done(r, |Encode(r)|)
  {
    hide ValidUtf8, EncodeAttribute, ParseAttribute;
    var enc := Encode(r);
    var d := EncodeAttribute(DISPLAY_NAME, r.displayName);
    var before := [GET_APP_ATTRIBUTES] + app + [0];
    var end := 1 + |app|;
    assert bytes[..|enc|] == enc;
    assert enc == before + d + [];
    EncodedAttributeIsAccepted(bytes, before, DISPLAY_NAME, MAX_RESPONSE_BYTES, r.displayName, []);
    assert bytes[0] == enc[0] && bytes[end] == enc[end] == 0;
    assert bytes[1..end] == enc[1..end] == app;
    forall i | 1 <= i < end ensures bytes[i] != 0 {
      assert bytes[i] == enc[i] == app[i - 1];
    }
    ZeroIsFirst(bytes, 1, end);
  }

  /**
   * Decoding succeeds with `(r, n)` exactly when the octets start with the `n`-octet encoding of an in-limit answer.
   */
  lemma DecodesExactly(bytes: seq<byte>, expected: Expectation, r: Response, n: nat)
    ensures Parse(bytes, expected) == Done(r, n) <==> Answers(r, expected) && n == |Encode(r)| && Encode(r) <= bytes
  {
    match expected
    case ExpectNotification(uid) =>
      if ParseNotification(bytes, uid) == Done(r, n) { AcceptedNotificationIsCanonical(bytes, uid, r, n); }
      if Answers(r, expected) && Encode(r) <= bytes { EncodedNotificationIsAccepted(bytes, uid, r); }
    case ExpectApp(app) =>
      if ParseApp(bytes, app) == Done(r, n) { AcceptedAppIsCanonical(bytes, app, r, n); }
      if Answers(r, expected) && Encode(r) <= bytes { EncodedAppIsAccepted(bytes, app, r); }
  }

  /** The encodings of the answers to one request are prefix-free, so a decoded value is the only possible one. */
  lemma EncodingsArePrefixFree(expected: Expectation, r1: Response, r2: Response)
    requires Answers(r1, expected) && Answers(r2, expected) && Encode(r1) <= Encode(r2)
    ensures r1 == r2
  {
    DecodesExactly(Encode(r2), expected, r1, |Encode(r1)|);
    DecodesExactly(Encode(r2), expected, r2, |Encode(r2)|);
  }

  // ----- a decision once taken is not changed by later octets -----

  lemma AttributeDecisionIsStable(bytes: seq<byte>, more: seq<byte>, cursor: nat, id: byte, maximum: nat)
    requires !ParseAttribute(bytes, cursor, id, maximum).Incomplete?
    ensures ParseAttribute(bytes + more, cursor, id, maximum) == ParseAttribute(bytes, cursor, id, maximum)
  {
    var end := cursor + 3 + U16FromLe(bytes[cursor + 1], bytes[cursor + 2]);
    if end <= |bytes| {
      assert (bytes + more)[cursor + 3..end] == bytes[cursor + 3..end];
    }
  }

  lemma ZeroIsStable(bytes: seq<byte>, more: seq<byte>, from: nat)
    requires from <= |bytes| && ZeroAt(bytes, from) < |bytes|
    ensures ZeroAt(bytes + more, from) == ZeroAt(bytes, from)
  {
    var p := ZeroAt(bytes, from);
    ZeroIsFirst(bytes + more, from, p);
  }

  /** The value, consumed length or error of a parse is unchanged by appending octets. */
  lemma DecisionIsStable(bytes: seq<byte>, more: seq<byte>, expected: Expectation)
    requires !Parse(bytes, expected).Incomplete?
    ensures Parse(bytes + more, expected) == Parse(bytes, expected)
  {
    match expected
    case ExpectNotification(uid) =>
      if bytes[0] == GET_NOTIFICATION_ATTRIBUTES && U32FromLe(bytes[1], bytes[2], bytes[3], bytes[4]) == uid {
        AttributeDecisionIsStable(bytes, more, 5, APP_IDENTIFIER, MAX_RESPONSE_BYTES);
        var a := ParseAttribute(bytes, 5, APP_IDENTIFIER, MAX_RESPONSE_BYTES);
        if a.Done? {
          AttributeDecisionIsStable(bytes, more, a.consumed, TITLE, TITLE_MAX_BYTES);
          var t := ParseAttribute(bytes, a.consumed, TITLE, TITLE_MAX_BYTES);
          if t.Done? {
            AttributeDecisionIsStable(bytes, more, t.consumed, MESSAGE, MESSAGE_MAX_BYTES);
          }
        }
      }
    case ExpectApp(app) =>
      if bytes[0] == GET_APP_ATTRIBUTES {
        ZeroIsStable(bytes, more, 1);
        var end := ZeroAt(bytes, 1);
        assert (bytes + more)[1..end] == bytes[1..end];
        if ValidUtf8(bytes[1..end]) && bytes[1..end] == app {
          AttributeDecisionIsStable(bytes, more, end + 1, DISPLAY_NAME, MAX_RESPONSE_BYTES);
        }
      }
  }

  lemma EmptyInputIsIncomplete(expected: Expectation)
    ensures Parse([], expected).Incomplete?
  {}
}
