/** Control packets as values: what Write puts on the wire, what Unpack and ReadPacket make of bytes. */
module Packets {
  import opened Bytes
  import opened Length
  import opened PacketBits

  const CONNECT: Byte := 1
  const CONNACK: Byte := 2
  const PUBLISH: Byte := 3
  const PUBACK: Byte := 4
  const PUBREC: Byte := 5
  const PUBREL: Byte := 6
  const PUBCOMP: Byte := 7
  const SUBSCRIBE: Byte := 8
  const SUBACK: Byte := 9
  const UNSUBSCRIBE: Byte := 10
  const UNSUBACK: Byte := 11
  const PINGREQ: Byte := 12
  const PINGRESP: Byte := 13
  const DISCONNECT: Byte := 14

  datatype Packet =
    | Connect(h: Header, protocolName: seq<Byte>, version: Byte, flags: Flags, reservedBit: Byte, keepalive: nat,
              clientId: seq<Byte>, willTopic: seq<Byte>, willMessage: seq<Byte>, username: seq<Byte>,
              password: seq<Byte>)
    | Connack(h: Header, compression: Byte, returnCode: Byte)
    | Publish(h: Header, topic: seq<Byte>, messageId: nat, payload: seq<Byte>)
    | IdOnly(h: Header, messageId: nat) // PUBACK, PUBREC, PUBREL, PUBCOMP, UNSUBACK
    | Subscribe(h: Header, messageId: nat, topics: seq<seq<Byte>>, qoss: seq<Byte>)
    | Suback(h: Header, messageId: nat, granted: seq<Byte>)
    | Unsubscribe(h: Header, messageId: nat, topics: seq<seq<Byte>>)
    | Empty(h: Header) // PINGREQ, PINGRESP, DISCONNECT

  // ---------------------------------------------------------------------------
  // Writing.

  function OptionalField(present: bool, field: seq<Byte>): seq<Byte>
  {
    if present then EncodeField(field) else []
  }

  /** The optional tail of CONNECT. */
  function ConnectTail(f: Flags, willTopic: seq<Byte>, willMessage: seq<Byte>, username: seq<Byte>,
                       password: seq<Byte>): seq<Byte>
  {
    OptionalField(f.will, willTopic)
    + (OptionalField(f.will, willMessage) + (OptionalField(f.username, username) + OptionalField(f.password, password)))
  }

  function Pairs(topics: seq<seq<Byte>>, qoss: seq<Byte>): seq<Byte>
    requires |topics| == |qoss|
  {
    if topics == [] then [] else EncodeField(topics[0]) + ([qoss[0]] + Pairs(topics[1..], qoss[1..]))
  }

  function Fields(topics: seq<seq<Byte>>): seq<Byte>
  {
    if topics == [] then [] else EncodeField(topics[0]) + Fields(topics[1..])
  }

  /** Write walks Topics and indexes Qoss in step. */
  predicate Writable(p: Packet)
  {
    p.Subscribe? ==> |p.topics| == |p.qoss|
  }

  function Body(p: Packet): seq<Byte>
    requires Writable(p)
  {
    match p
    case Connect(_, name, version, flags, _, keepalive, clientId, willTopic, willMessage, username, password) =>
      EncodeField(name) + ([version, FlagByte(flags)] + (EncodeUint16(keepalive)
        + (EncodeField(clientId) + ConnectTail(flags, willTopic, willMessage, username, password))))
    case Connack(_, compression, returnCode) => [compression, returnCode]
    case Publish(h, topic, messageId, payload) =>
      EncodeField(topic) + ((if h.qos > 0 then EncodeUint16(messageId) else []) + payload)
    case IdOnly(_, messageId) => EncodeUint16(messageId)
    case Subscribe(_, messageId, topics, qoss) => EncodeUint16(messageId) + Pairs(topics, qoss)
    case Suback(_, messageId, granted) => EncodeUint16(messageId) + granted
    case Unsubscribe(_, messageId, topics) => EncodeUint16(messageId) + Fields(topics)
    case Empty(_) => []
  }

  /** Write sets RemainingLength, except on the packets that have no body. */
  function Written(p: Packet): Packet
    requires Writable(p)
  {
    if p.Empty? then p else p.(h := p.h.(remainingLength := |Body(p)|))
  }

  function Write(p: Packet): seq<Byte>
    requires Writable(p)
  {
    [HeaderByte(p.h)] + (Digits(Written(p).h.remainingLength) + Body(p))
  }

  // ---------------------------------------------------------------------------
  // Reading.

  function OptionalAt(present: bool, s: seq<Byte>, was: seq<Byte>): seq<Byte>
  {
    if present then FieldAt(s) else was
  }

  function AfterOptional(present: bool, s: seq<Byte>): seq<Byte>
  {
    if present then AfterField(s) else s
  }

  /** CONNECT's optional fields are read only where their flag says so. */
  function UnpackConnectTail(p: Packet, s: seq<Byte>): Packet
    requires p.Connect?
  {
    var s1 := AfterOptional(p.flags.will, s);
    var s2 := AfterOptional(p.flags.will, s1);
    var s3 := AfterOptional(p.flags.username, s2);
    p.(willTopic := OptionalAt(p.flags.will, s, p.willTopic),
       willMessage := OptionalAt(p.flags.will, s1, p.willMessage),
       username := OptionalAt(p.flags.username, s2, p.username),
       password := OptionalAt(p.flags.password, s3, p.password))
  }

  /** The fixed part of CONNECT, and what follows it. */
  function UnpackConnectHead(p: Packet, s: seq<Byte>): (Packet, seq<Byte>)
    requires p.Connect?
  {
    var s1 := AfterField(s);
    var s2 := Left(s1, 1);
    var options := Taken(s2, 1)[0];
    var s3 := Left(s2, 1);
    var s4 := Left(s3, 2);
    (p.(protocolName := FieldAt(s), version := Taken(s1, 1)[0], flags := FlagsOf(options), reservedBit := options % 2,
        keepalive := Uint16At(s3), clientId := FieldAt(s4)),
     AfterField(s4))
  }

  function UnpackConnect(p: Packet, s: seq<Byte>): Packet
    requires p.Connect?
  {
    var head := UnpackConnectHead(p, s);
    UnpackConnectTail(head.0, head.1)
  }

  /** SUBSCRIBE's loop is driven by the counted-down payload length, not by the buffer. */
  function PairsAt(s: seq<Byte>, payloadLength: int): (r: (seq<seq<Byte>>, seq<Byte>))
    ensures |r.0| == |r.1|
    decreases payloadLength
  {
    if payloadLength <= 0 then ([], [])
    else
      var topic := FieldAt(s);
      var s1 := AfterField(s);
      var rest := PairsAt(Left(s1, 1), payloadLength - (2 + |topic| + 1));
      ([topic] + rest.0, [Taken(s1, 1)[0]] + rest.1)
  }

  /** UNSUBSCRIBE's loop stops at the first empty string; past the end of the buffer every string is empty. */
  function FieldsAt(s: seq<Byte>): seq<seq<Byte>>
    decreases |s|
  {
    if FieldAt(s) == [] then []
    else
      FieldConsumes(s);
      [FieldAt(s)] + FieldsAt(AfterField(s))
  }

  /** The payload length PUBLISH computes by subtraction; when negative, making the slice ends the process. */
  function PayloadLength(p: Packet, topic: seq<Byte>): int
    requires p.Publish?
  {
    p.h.remainingLength - (|topic| + if p.h.qos > 0 then 4 else 2)
  }

  predicate UnpackPanics(p: Packet, s: seq<Byte>)
  {
    p.Publish? && PayloadLength(p, FieldAt(s)) < 0
  }

  function UnpackPublish(p: Packet, s: seq<Byte>): Packet
    requires p.Publish? && !UnpackPanics(p, s)
  {
    var topic, s1 := FieldAt(s), AfterField(s);
    if p.h.qos > 0 then p.(topic := topic, messageId := Uint16At(s1),
                           payload := Taken(Left(s1, 2), PayloadLength(p, topic)))
    else p.(topic := topic, payload := Taken(s1, PayloadLength(p, topic)))
  }

  function UnpackSubscribe(p: Packet, s: seq<Byte>): Packet
    requires p.Subscribe?
  {
    var pairs := PairsAt(Left(s, 2), p.h.remainingLength - 2);
    Subscribe(p.h, Uint16At(s), p.topics + pairs.0, p.qoss + pairs.1)
  }

  function UnpackUnsubscribe(p: Packet, s: seq<Byte>): Packet
    requires p.Unsubscribe?
  {
    Unsubscribe(p.h, Uint16At(s), p.topics + FieldsAt(Left(s, 2)))
  }

  function Unpack(p: Packet, s: seq<Byte>): Packet
    requires !UnpackPanics(p, s)
  {
    match p
    case Connect(_, _, _, _, _, _, _, _, _, _, _) => UnpackConnect(p, s)
    case Connack(h, _, _) => Connack(h, Taken(s, 1)[0], Taken(Left(s, 1), 1)[0])
    case Publish(_, _, _, _) => UnpackPublish(p, s)
    case IdOnly(h, _) => IdOnly(h, Uint16At(s))
    case Subscribe(_, _, _, _) => UnpackSubscribe(p, s)
    case Suback(h, _, _) => Suback(h, Uint16At(s), Left(s, 2))
    case Unsubscribe(_, _, _) => UnpackUnsubscribe(p, s)
    case Empty(_) => p
  }

  predicate KnownType(t: Byte) { CONNECT <= t <= DISCONNECT }

  /** The empty packet of the type its header names. */
  function Blank(h: Header): Packet
    requires KnownType(h.messageType)
  {
    var t := h.messageType;
    if t == CONNECT then Connect(h, [], 0, Flags(false, false, 0, false, false, false), 0, 0, [], [], [], [], [])
    else if t == CONNACK then Connack(h, 0, 0)
    else if t == PUBLISH then Publish(h, [], 0, [])
    else if t == SUBSCRIBE then Subscribe(h, 0, [], [])
    else if t == SUBACK then Suback(h, 0, [])
    else if t == UNSUBSCRIBE then Unsubscribe(h, 0, [])
    else if t == PUBACK || t == PUBREC || t == PUBREL || t == PUBCOMP || t == UNSUBACK then IdOnly(h, 0)
    else Empty(h)
  }

  datatype Outcome =
    | Got(packet: Packet, rest: seq<Byte>)
    | Failed // an error is returned
    | Panics // the process ends
    | Hangs  // decodeLength never stops

  function ReadPacket(s: seq<Byte>): Outcome
  {
    if s == [] then Failed
    else if !LengthHalts(s[1..]) then Hangs
    else
      var length := LengthAt(s[1..]);
      var h := HeaderOf(s[0], length.value);
      if !KnownType(h.messageType) || |length.rest| < length.value then Failed
      else
        var body := length.rest[..length.value];
        if UnpackPanics(Blank(h), body) then Panics
        else Got(Unpack(Blank(h), body), length.rest[length.value..])
  }

  // ---------------------------------------------------------------------------
  // Round trips.

  /** An absent optional field is empty, a present one fits its length prefix. */
  predicate FieldFits(present: bool, field: seq<Byte>)
  {
    if present then |field| < 65536 else field == []
  }

  lemma OptionalRoundTrip(present: bool, field: seq<Byte>, rest: seq<Byte>)
    requires FieldFits(present, field)
    ensures OptionalAt(present, OptionalField(present, field) + rest, []) == field
    ensures AfterOptional(present, OptionalField(present, field) + rest) == rest
  {
    if present {
      FieldRoundTrip(field, rest);
    } else {
      assert [] + rest == rest;
    }
  }

  lemma ConnectTailRoundTrip(p: Packet)
    requires p.Connect? && FieldFits(p.flags.will, p.willTopic) && FieldFits(p.flags.will, p.willMessage)
    requires FieldFits(p.flags.username, p.username) && FieldFits(p.flags.password, p.password)
    ensures UnpackConnectTail(p.(willTopic := [], willMessage := [], username := [], password := []),
              ConnectTail(p.flags, p.willTopic, p.willMessage, p.username, p.password)) == p
  {
    var f := p.flags;
    var s3 := OptionalField(f.password, p.password);
    var s2 := OptionalField(f.username, p.username) + s3;
    var s1 := OptionalField(f.will, p.willMessage) + s2;
    OptionalRoundTrip(f.will, p.willTopic, s1);
    OptionalRoundTrip(f.will, p.willMessage, s2);
    OptionalRoundTrip(f.username, p.username, s3);
    OptionalRoundTrip(f.password, p.password, []);
    assert s3 + [] == s3;
  }

  /** The fixed part of CONNECT, field by field, in front of any tail. */
  lemma ConnectHeadRoundTrip(name: seq<Byte>, version: Byte, options: Byte, keepalive: nat, clientId: seq<Byte>,
                             tail: seq<Byte>)
    requires |name| < 65536 && keepalive < 65536 && |clientId| < 65536
    ensures var s := EncodeField(name)
      + ([version, options] + (EncodeUint16(keepalive) + (EncodeField(clientId) + tail)));
      var s1 := AfterField(s);
      var s3 := Left(Left(s1, 1), 1);
      FieldAt(s) == name && Taken(s1, 1)[0] == version && Taken(Left(s1, 1), 1)[0] == options
      && Uint16At(s3) == keepalive && FieldAt(Left(s3, 2)) == clientId && AfterField(Left(s3, 2)) == tail
  {
    var s4 := EncodeField(clientId) + tail;
    var s3 := EncodeUint16(keepalive) + s4;
    var s1 := [version, options] + s3;
    FieldRoundTrip(name, s1);
    assert s1[1..] == [options] + s3 && ([options] + s3)[1..] == s3;
    Uint16Exact(keepalive, s4);
    FieldRoundTrip(clientId, tail);
  }

  /** CONNECT comes back whole: every flag, and exactly the optional fields whose flags are set. */
  lemma ConnectRoundTrip(p: Packet)
    requires p.Connect? && WellFormed(p)
    ensures Unpack(Blank(Written(p).h), Body(p)) == Written(p)
  {
    var tail := ConnectTail(p.flags, p.willTopic, p.willMessage, p.username, p.password);
    ConnectHeadRoundTrip(p.protocolName, p.version, FlagByte(p.flags), p.keepalive, p.clientId, tail);
    FlagsRoundTrip(p.flags);
    var q := Written(p);
    ConnectTailRoundTrip(q);
    assert UnpackConnect(Blank(q.h), Body(p))
        == UnpackConnectTail(q.(willTopic := [], willMessage := [], username := [], password := []), tail);
  }

  lemma PublishRoundTrip(p: Packet)
    requires p.Publish? && WellFormed(p)
    ensures !UnpackPanics(Blank(Written(p).h), Body(p)) && Unpack(Blank(Written(p).h), Body(p)) == Written(p)
  {
    var tail := (if p.h.qos > 0 then EncodeUint16(p.messageId) else []) + p.payload;
    FieldRoundTrip(p.topic, tail);
    if p.h.qos > 0 {
      Uint16Exact(p.messageId, p.payload);
    } else {
      assert tail == p.payload;
    }
  }

  /** Every topic fits its length prefix. */
  predicate AllShort(topics: seq<seq<Byte>>)
  {
    forall i :: 0 <= i < |topics| ==> |topics[i]| < 65536
  }

  /** One turn of SUBSCRIBE's loop. */
  lemma FirstPair(topics: seq<seq<Byte>>, qoss: seq<Byte>)
    requires |topics| == |qoss| > 0 && |topics[0]| < 65536
    ensures var pairs, tail := Pairs(topics, qoss), Pairs(topics[1..], qoss[1..]);
      var rest := PairsAt(tail, |tail|);
      PairsAt(pairs, |pairs|).0 == [topics[0]] + rest.0 && PairsAt(pairs, |pairs|).1 == [qoss[0]] + rest.1
  {
    var topic, qos, tail := topics[0], qoss[0], Pairs(topics[1..], qoss[1..]);
    var pairs := EncodeField(topic) + ([qos] + tail);
    assert pairs == Pairs(topics, qoss);
    FieldRoundTrip(topic, [qos] + tail);
    assert ([qos] + tail)[1..] == tail;
    assert |pairs| - (2 + |topic| + 1) == |tail|;
  }

  /** The counted-down length reaches exactly 0 at the last pair, for lists of any length. */
  lemma {:induction false} PairsRoundTrip(topics: seq<seq<Byte>>, qoss: seq<Byte>)
    requires |topics| == |qoss| && AllShort(topics)
    ensures var read := PairsAt(Pairs(topics, qoss), |Pairs(topics, qoss)|); read.0 == topics && read.1 == qoss
    decreases |topics|
  {
    if topics != [] {
      FirstPair(topics, qoss);
      PairsRoundTrip(topics[1..], qoss[1..]);
    }
  }

  lemma NothingBefore<T>(s: seq<T>)
    ensures [] + s == s
  {
  }

  lemma ReadPairs(h: Header, topics: seq<seq<Byte>>, qoss: seq<Byte>, s: seq<Byte>, n: int)
    requires n == h.remainingLength - 2
    requires PairsAt(Left(s, 2), n).0 == topics && PairsAt(Left(s, 2), n).1 == qoss
    ensures UnpackSubscribe(Subscribe(h, 0, [], []), s) == Subscribe(h, Uint16At(s), topics, qoss)
  {
    NothingBefore(topics);
    NothingBefore(qoss);
  }

  lemma SubscribeBody(h: Header, id: nat, topics: seq<seq<Byte>>, qoss: seq<Byte>)
    requires id < 65536 && |topics| == |qoss| && AllShort(topics)
    requires h.remainingLength == 2 + |Pairs(topics, qoss)|
    ensures UnpackSubscribe(Subscribe(h, 0, [], []), EncodeUint16(id) + Pairs(topics, qoss))
      == Subscribe(h, id, topics, qoss)
  {
    var pairs := Pairs(topics, qoss);
    Uint16Exact(id, pairs);
    PairsRoundTrip(topics, qoss);
    ReadPairs(h, topics, qoss, EncodeUint16(id) + pairs, |pairs|);
  }

  lemma SubscribeRoundTrip(p: Packet)
    requires p.Subscribe? && WellFormed(p)
    ensures Unpack(Blank(Written(p).h), Body(p)) == Written(p)
  {
    SubscribeBody(Written(p).h, p.messageId, p.topics, p.qoss);
  }

  /** The topics before the first empty one. */
  function NonEmptyPrefix(topics: seq<seq<Byte>>): seq<seq<Byte>>
  {
    if topics == [] || topics[0] == [] then [] else [topics[0]] + NonEmptyPrefix(topics[1..])
  }

  lemma {:induction false} FieldsRoundTrip(topics: seq<seq<Byte>>)
    requires AllShort(topics)
    ensures FieldsAt(Fields(topics)) == NonEmptyPrefix(topics)
  {
    if topics == [] {
      assert Zeros(1) == [0] && Zeros(2) == [0, 0];
    } else {
      FieldRoundTrip(topics[0], Fields(topics[1..]));
      FieldsRoundTrip(topics[1..]);
    }
  }

  lemma {:induction false} NonEmptyPrefixIsAll(topics: seq<seq<Byte>>)
    ensures NonEmptyPrefix(topics) == topics <==> [] !in topics
  {
    if topics != [] {
      NonEmptyPrefixIsAll(topics[1..]);
      if topics[0] != [] {
        assert [] in topics <==> [] in topics[1..];
        assert topics == [topics[0]] + topics[1..];
      }
    }
  }

  /** UNSUBSCRIBE recovers the topics before the first empty one: all of them exactly when none is empty. */
  lemma UnsubscribeRoundTrip(p: Packet)
    requires p.Unsubscribe? && HeaderFits(p) && p.messageId < 65536 && AllShort(p.topics)
    ensures Unpack(Blank(Written(p).h), Body(p)) == Unsubscribe(Written(p).h, p.messageId, NonEmptyPrefix(p.topics))
    ensures Unpack(Blank(Written(p).h), Body(p)) == Written(p) <==> [] !in p.topics
  {
    Uint16Exact(p.messageId, Fields(p.topics));
    FieldsRoundTrip(p.topics);
    NonEmptyPrefixIsAll(p.topics);
  }

  /** The header's type is the packet's own, and its QoS fits two bits. */
  predicate HeaderFits(p: Packet)
  {
    var t := p.h.messageType;
    p.h.qos < 4
    && match p
       case Connect(_, _, _, _, _, _, _, _, _, _, _) => t == CONNECT
       case Connack(_, _, _) => t == CONNACK
       case Publish(_, _, _, _) => t == PUBLISH
       case IdOnly(_, _) => t == PUBACK || t == PUBREC || t == PUBREL || t == PUBCOMP || t == UNSUBACK
       case Subscribe(_, _, _, _) => t == SUBSCRIBE
       case Suback(_, _, _) => t == SUBACK
       case Unsubscribe(_, _, _) => t == UNSUBSCRIBE
       case Empty(_) => t == PINGREQ || t == PINGRESP || t == DISCONNECT
  }

  predicate WellFormed(p: Packet)
  {
    HeaderFits(p)
    && match p
       case Connect(_, name, _, flags, reservedBit, keepalive, clientId, willTopic, willMessage, username, password) =>
         flags.willQos < 4 && reservedBit == 0 && keepalive < 65536 && |name| < 65536 && |clientId| < 65536
         && FieldFits(flags.will, willTopic) && FieldFits(flags.will, willMessage)
         && FieldFits(flags.username, username) && FieldFits(flags.password, password)
       case Connack(_, _, _) => true
       case Publish(h, topic, messageId, payload) =>
         |topic| < 65536 && messageId < 65536 && (h.qos == 0 ==> messageId == 0) && |Body(p)| < WORD
       case IdOnly(_, messageId) => messageId < 65536
       case Subscribe(_, messageId, topics, qoss) =>
         messageId < 65536 && |topics| == |qoss| && AllShort(topics) && |Body(p)| < WORD
       case Suback(_, messageId, granted) => messageId < 65536 && |Body(p)| < WORD
       case Unsubscribe(_, messageId, topics) =>
         messageId < 65536 && AllShort(topics) && [] !in topics && |Body(p)| < WORD
       case Empty(h) => h.remainingLength == 0
  }

  /** What Unpack makes of a well-formed packet's body is the packet. */
  lemma BodyRoundTrip(p: Packet)
    requires WellFormed(p)
    ensures !UnpackPanics(Blank(Written(p).h), Body(p)) && Unpack(Blank(Written(p).h), Body(p)) == Written(p)
    ensures |Body(p)| < WORD
  {
    match p
    case Connect(_, _, _, _, _, _, _, _, _, _, _) => ConnectRoundTrip(p);
    case Connack(_, _, _) =>
      assert Body(p)[1..] == [p.returnCode];
    case Publish(_, _, _, _) => PublishRoundTrip(p);
    case IdOnly(_, _) =>
      Uint16Exact(p.messageId, []);
      assert EncodeUint16(p.messageId) + [] == Body(p);
    case Subscribe(_, _, _, _) => SubscribeRoundTrip(p);
    case Suback(_, _, _) => Uint16Exact(p.messageId, p.granted);
    case Unsubscribe(_, _, _) => UnsubscribeRoundTrip(p);
    case Empty(_) =>
  }

  lemma AfterFirst(first: Byte, length: seq<Byte>, body: seq<Byte>, rest: seq<Byte>)
    ensures ([first] + (length + body) + rest)[1..] == length + (body + rest)
  {
  }

  lemma LengthThenBody(first: Byte, body: seq<Byte>, rest: seq<Byte>, s: seq<Byte>)
    requires |body| < WORD && s == [first] + (Digits(|body|) + body) + rest
    ensures s[0] == first && LengthHalts(s[1..]) && LengthAt(s[1..]) == Decoded(|body|, body + rest)
    ensures (body + rest)[..|body|] == body && (body + rest)[|body|..] == rest
  {
    AfterFirst(first, Digits(|body|), body, rest);
    LengthIdentity(|body|, body + rest);
  }

  lemma KnownWritten(p: Packet)
    requires HeaderFits(p)
    ensures KnownType(p.h.messageType) && p.h.messageType < 16
  {
  }

  /** ReadPacket takes exactly one packet off a stream that starts with a well-formed packet's bytes. */
  lemma ReadWritten(p: Packet, rest: seq<Byte>)
    requires WellFormed(p)
    ensures ReadPacket(Write(p) + rest) == Got(Written(p), rest)
  {
    var body := Body(p);
    BodyRoundTrip(p);
    LengthThenBody(HeaderByte(p.h), body, rest, Write(p) + rest);
    KnownWritten(p);
    HeaderRoundTrip(p.h, |body|);
    assert Written(p).h == HeaderOf(HeaderByte(p.h), |body|);
  }

  // ---------------------------------------------------------------------------
  // The converse: no other packet comes back.

  /** What Unpack can make of any bytes: lengths and ids that fit sixteen bits, absent fields empty. */
  predicate Readable(p: Packet)
  {
    HeaderFits(p)
    && match p
       case Connect(_, name, _, flags, _, keepalive, clientId, willTopic, willMessage, username, password) =>
         flags.willQos < 4 && keepalive < 65536 && |name| < 65536 && |clientId| < 65536
         && FieldFits(flags.will, willTopic) && FieldFits(flags.will, willMessage)
         && FieldFits(flags.username, username) && FieldFits(flags.password, password)
       case Connack(_, _, _) => true
       case Publish(h, topic, messageId, _) => |topic| < 65536 && messageId < 65536 && (h.qos == 0 ==> messageId == 0)
       case IdOnly(_, messageId) => messageId < 65536
       case Subscribe(_, messageId, topics, qoss) =>
         messageId < 65536 && |topics| == |qoss| && AllShort(topics)
       case Suback(_, messageId, _) => messageId < 65536
       case Unsubscribe(_, messageId, topics) => messageId < 65536 && AllShort(topics) && [] !in topics
       case Empty(_) => true
  }

  lemma {:induction false} PairsAreReadable(s: seq<Byte>, n: int)
    ensures AllShort(PairsAt(s, n).0)
    decreases n
  {
    if n > 0 {
      PairsAreReadable(Left(AfterField(s), 1), n - (2 + |FieldAt(s)| + 1));
    }
  }

  lemma {:induction false} FieldsAreReadable(s: seq<Byte>)
    ensures AllShort(FieldsAt(s)) && [] !in FieldsAt(s)
    decreases |s|
  {
    if FieldAt(s) != [] {
      FieldConsumes(s);
      FieldsAreReadable(AfterField(s));
    }
  }

  lemma UnpackIsReadable(h: Header, s: seq<Byte>)
    requires KnownType(h.messageType) && h.qos < 4 && !UnpackPanics(Blank(h), s)
    ensures Readable(Unpack(Blank(h), s)) && Unpack(Blank(h), s).h == h
  {
    match Blank(h)
    case Subscribe(_, _, _, _) =>
      PairsAreReadable(Left(s, 2), h.remainingLength - 2);
      NothingBefore(PairsAt(Left(s, 2), h.remainingLength - 2).0);
    case Unsubscribe(_, _, _) =>
      FieldsAreReadable(Left(s, 2));
      NothingBefore(FieldsAt(Left(s, 2)));
    case _ =>
  }

  lemma {:induction false} LengthIsWord(s: seq<Byte>, sum: nat, multiplier: nat)
    requires Ends(s) && sum < WORD
    ensures LengthFrom(s, sum, multiplier).value < WORD
    decreases |s|
  {
    AccumulateIsWord(sum, s[0], multiplier);
    if s[0] >= 128 {
      var i :| 0 <= i < |s| && s[i] < 128;
      assert s[1..][i - 1] == s[i];
      LengthIsWord(s[1..], Accumulate(sum, s[0], multiplier), (multiplier + 7) % WORD);
    }
  }

  lemma AccumulateIsWord(sum: nat, digit: Byte, multiplier: nat)
    requires sum < WORD
    ensures Accumulate(sum, digit, multiplier) < WORD
  {
    var k := 25 + 7; // 32; the verifier would unroll Pow2(32) for the literal
    Pow2Times128(25);
    Pow2Times128(18);
    Pow2Times128(11);
    Pow2Times128(4);
    assert Pow2(4) == 16;
    BitOrBound(sum, if multiplier < 32 then ShiftLeft(digit % 128, multiplier) % WORD else 0, k);
  }

  lemma GotIsReadable(s: seq<Byte>)
    requires ReadPacket(s).Got?
    ensures var p := ReadPacket(s).packet; Readable(p) && p.h.remainingLength < WORD
  {
    if Ends(s[1..]) {
      LengthIsWord(s[1..], 0, 0);
    }
    var length := LengthAt(s[1..]);
    UnpackIsReadable(HeaderOf(s[0], length.value), length.rest[..length.value]);
  }

  lemma ReadableIsWellFormed(p: Packet)
    requires Writable(p) && Readable(Written(p)) && Written(p).h.remainingLength < WORD
    requires (p.Connect? ==> p.reservedBit == 0) && (p.Empty? ==> p.h.remainingLength == 0)
    ensures WellFormed(p)
  {
  }

  /** The reserved bit is not written. */
  lemma ReservedBitIsZero(p: Packet)
    requires p.Connect? && Readable(p)
    ensures Unpack(Blank(Written(p).h), Body(p)).reservedBit == 0
  {
    var tail := ConnectTail(p.flags, p.willTopic, p.willMessage, p.username, p.password);
    ConnectHeadRoundTrip(p.protocolName, p.version, FlagByte(p.flags), p.keepalive, p.clientId, tail);
    FlagsRoundTrip(p.flags);
  }

  /** A packet without a body comes back only if it announces none. */
  lemma ReadBackEmpty(p: Packet, rest: seq<Byte>)
    requires p.Empty? && p.h.remainingLength < WORD && ReadPacket(Write(p) + rest) == Got(p, rest)
    ensures p.h.remainingLength == 0
  {
    AnnouncedLength(HeaderByte(p.h), p.h.remainingLength, rest, Write(p) + rest);
  }

  lemma AnnouncedLength(first: Byte, n: nat, rest: seq<Byte>, s: seq<Byte>)
    requires n < WORD && s == [first] + (Digits(n) + []) + rest
    ensures s[0] == first && LengthHalts(s[1..]) && LengthAt(s[1..]) == Decoded(n, rest)
  {
    AfterFirst(first, Digits(n), [], rest);
    assert [] + rest == rest;
    LengthIdentity(n, rest);
  }

  lemma ReadBack(p: Packet, rest: seq<Byte>)
    requires !p.Empty? && Writable(p) && |Body(p)| < WORD && HeaderFits(p)
    requires ReadPacket(Write(p) + rest) == Got(Written(p), rest)
    ensures !UnpackPanics(Blank(Written(p).h), Body(p)) && Written(p) == Unpack(Blank(Written(p).h), Body(p))
  {
    KnownWritten(p);
    HeaderRoundTrip(p.h, |Body(p)|);
    LengthThenBody(HeaderByte(p.h), Body(p), rest, Write(p) + rest);
    assert HeaderOf(HeaderByte(p.h), |Body(p)|) == Written(p).h;
  }

  /** ReadPacket gives back what was written, and what followed it, exactly for the well-formed packets. */
  lemma ReadWrittenExactly(p: Packet, rest: seq<Byte>)
    requires Writable(p)
    ensures ReadPacket(Write(p) + rest) == Got(Written(p), rest) <==> WellFormed(p)
  {
    if WellFormed(p) {
      ReadWritten(p, rest);
    } else if ReadPacket(Write(p) + rest) == Got(Written(p), rest) {
      GotIsReadable(Write(p) + rest);
      if p.Empty? {
        ReadBackEmpty(p, rest);
      } else {
        ReadBack(p, rest);
      }
      if p.Connect? {
        ReservedBitIsZero(p);
      }
      ReadableIsWellFormed(p);
    }
  }

  // ---------------------------------------------------------------------------
  // Streams.

  function WriteAll(ps: seq<Packet>): seq<Byte>
    requires forall p :: p in ps ==> Writable(p)
  {
    if ps == [] then [] else Write(ps[0]) + WriteAll(ps[1..])
  }

  datatype Stream = AllRead(packets: seq<Packet>) | Stopped(packets: seq<Packet>, why: Outcome)

  lemma ReadConsumes(s: seq<Byte>)
    ensures ReadPacket(s).Got? ==> |ReadPacket(s).rest| < |s|
  {
    if s != [] && Ends(s[1..]) {
      LengthConsumes(s[1..], 0, 0);
    }
  }

  lemma {:induction false} LengthConsumes(s: seq<Byte>, sum: nat, multiplier: nat)
    requires Ends(s)
    ensures |LengthFrom(s, sum, multiplier).rest| < |s|
    decreases |s|
  {
    if s[0] >= 128 {
      var i :| 0 <= i < |s| && s[i] < 128;
      assert s[1..][i - 1] == s[i];
      LengthConsumes(s[1..], Accumulate(sum, s[0], multiplier), (multiplier + 7) % WORD);
    }
  }

  /** Repeated ReadPacket, until the stream is used up or a read does not yield a packet. */
  function ReadAll(s: seq<Byte>): Stream
    decreases |s|
  {
    if s == [] then AllRead([])
    else
      var r := ReadPacket(s);
      if !r.Got? then Stopped([], r)
      else
        ReadConsumes(s);
        var more := ReadAll(r.rest);
        more.(packets := [r.packet] + more.packets)
  }

  function WrittenAll(ps: seq<Packet>): (qs: seq<Packet>)
    requires forall p :: p in ps ==> Writable(p)
    ensures |qs| == |ps| && forall i :: 0 <= i < |ps| ==> qs[i] == Written(ps[i])
  {
    if ps == [] then [] else [Written(ps[0])] + WrittenAll(ps[1..])
  }

  lemma ReadFirst(p: Packet, rest: seq<Byte>)
    requires WellFormed(p) && Writable(p) && ReadAll(rest).AllRead?
    ensures ReadAll(Write(p) + rest) == AllRead([Written(p)] + ReadAll(rest).packets)
  {
    ReadWritten(p, rest);
  }

  /** Any list of well-formed packets, written one after the other, is read back in order to the last byte. */
  lemma {:induction false} StreamRoundTrip(ps: seq<Packet>)
    requires forall p :: p in ps ==> WellFormed(p) && Writable(p)
    ensures ReadAll(WriteAll(ps)) == AllRead(WrittenAll(ps))
  {
    if ps != [] {
      assert ps[0] in ps;
      StreamRoundTrip(ps[1..]);
      ReadFirst(ps[0], WriteAll(ps[1..]));
    }
  }
}
