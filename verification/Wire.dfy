/** What the packets are on the wire, in the numbers of MQTT 3.1.1 (sections 2.2 and 3.1 to 3.14). */
module Wire {
  import opened Bytes
  import opened Length
  import opened PacketBits
  import opened Packets

  // ---------------------------------------------------------------------------
  // The layout of each packet.

  /** A number below 65536, high byte first. */
  function TwoBytes(x: nat): seq<Byte>
    requires x < 65536
  {
    [x / 256, x % 256]
  }

  /** A field after its length. */
  function Prefixed(field: seq<Byte>): seq<Byte>
    requires |field| < 65536
  {
    TwoBytes(|field|) + field
  }

  function Bit(b: bool): nat { if b then 1 else 0 }

  /** The first n topics, each with its QoS. */
  function PairsOnWire(topics: seq<seq<Byte>>, qoss: seq<Byte>, n: nat): seq<Byte>
    requires n <= |topics| == |qoss| && AllShort(topics)
  {
    if n == 0 then [] else PairsOnWire(topics, qoss, n - 1) + Prefixed(topics[n - 1]) + [qoss[n - 1]]
  }

  function FieldsOnWire(topics: seq<seq<Byte>>, n: nat): seq<Byte>
    requires n <= |topics| && AllShort(topics)
  {
    if n == 0 then [] else FieldsOnWire(topics, n - 1) + Prefixed(topics[n - 1])
  }

  /** CONNECT's flags: reserved, clean session, will, will QoS (two bits), will retain, password, user name. */
  function FlagsOnWire(f: Flags): nat
  {
    2 * Bit(f.cleanSession) + 4 * Bit(f.will) + 8 * f.willQos + 32 * Bit(f.willRetain) + 64 * Bit(f.password)
    + 128 * Bit(f.username)
  }

  /** The variable header and payload. */
  function BodyOnWire(p: Packet): seq<int>
    requires WellFormed(p)
  {
    match p
    case Connect(_, name, version, f, _, keepalive, clientId, willTopic, willMessage, username, password) =>
      Prefixed(name) + [version] + [FlagsOnWire(f)] + TwoBytes(keepalive) + Prefixed(clientId)
      + (if f.will then Prefixed(willTopic) + Prefixed(willMessage) else [])
      + (if f.username then Prefixed(username) else [])
      + (if f.password then Prefixed(password) else [])
    case Connack(_, compression, returnCode) => [compression, returnCode]
    case Publish(h, topic, messageId, payload) =>
      Prefixed(topic) + (if h.qos == 0 then [] else TwoBytes(messageId)) + payload
    case IdOnly(_, messageId) => TwoBytes(messageId)
    case Subscribe(_, messageId, topics, qoss) => TwoBytes(messageId) + PairsOnWire(topics, qoss, |topics|)
    case Suback(_, messageId, granted) => TwoBytes(messageId) + granted
    case Unsubscribe(_, messageId, topics) => TwoBytes(messageId) + FieldsOnWire(topics, |topics|)
    case Empty(_) => []
  }

  /** The packet's type number is its kind's. */
  predicate RightType(p: Packet)
  {
    var t := p.h.messageType;
    match p
    case Connect(_, _, _, _, _, _, _, _, _, _, _) => t == 1
    case Connack(_, _, _) => t == 2
    case Publish(_, _, _, _) => t == 3
    case IdOnly(_, _) => t == 4 || t == 5 || t == 6 || t == 7 || t == 11
    case Subscribe(_, _, _, _) => t == 8
    case Suback(_, _, _) => t == 9
    case Unsubscribe(_, _, _) => t == 10
    case Empty(_) => t == 12 || t == 13 || t == 14
  }

  // ---------------------------------------------------------------------------
  // What is written has that layout.

  lemma FieldOnWire(field: seq<Byte>)
    requires |field| < 65536
    ensures EncodeField(field) == Prefixed(field)
  {
  }

  lemma {:induction false} PairsAfter(topics: seq<seq<Byte>>, qoss: seq<Byte>, n: nat)
    requires n <= |topics| == |qoss| && AllShort(topics)
    ensures Pairs(topics, qoss) == PairsOnWire(topics, qoss, n) + Pairs(topics[n..], qoss[n..])
  {
    if n == 0 {
      assert topics[0..] == topics && qoss[0..] == qoss;
    } else {
      var m := n - 1;
      PairsAfter(topics, qoss, m);
      assert topics[m..][1..] == topics[n..] && qoss[m..][1..] == qoss[n..];
      FieldOnWire(topics[m]);
      assert Pairs(topics[m..], qoss[m..]) == Prefixed(topics[m]) + ([qoss[m]] + Pairs(topics[n..], qoss[n..]));
    }
  }

  lemma {:induction false} FieldsAfter(topics: seq<seq<Byte>>, n: nat)
    requires n <= |topics| && AllShort(topics)
    ensures Fields(topics) == FieldsOnWire(topics, n) + Fields(topics[n..])
  {
    if n == 0 {
      assert topics[0..] == topics;
    } else {
      var m := n - 1;
      FieldsAfter(topics, m);
      assert topics[m..][1..] == topics[n..];
      FieldOnWire(topics[m]);
      assert Fields(topics[m..]) == Prefixed(topics[m]) + Fields(topics[n..]);
    }
  }

  lemma NothingMore(s: seq<Byte>)
    ensures s + [] == s
  {
  }

  lemma FlagByteOnWire(f: Flags)
    requires f.willQos < 4
    ensures FlagByte(f) == FlagsOnWire(f)
  {
    FlagByteSum(f);
  }

  lemma OptionalOnWire(present: bool, field: seq<Byte>)
    requires present ==> |field| < 65536
    ensures OptionalField(present, field) == if present then Prefixed(field) else []
  {
    if present { FieldOnWire(field); }
  }

  lemma TailOnWire(f: Flags, willTopic: seq<Byte>, willMessage: seq<Byte>, username: seq<Byte>, password: seq<Byte>)
    requires f.will ==> |willTopic| < 65536 && |willMessage| < 65536
    requires f.username ==> |username| < 65536
    requires f.password ==> |password| < 65536
    ensures ConnectTail(f, willTopic, willMessage, username, password)
         == (if f.will then Prefixed(willTopic) + Prefixed(willMessage) else [])
            + (if f.username then Prefixed(username) else [])
            + (if f.password then Prefixed(password) else [])
  {
    OptionalOnWire(f.will, willTopic);
    OptionalOnWire(f.will, willMessage);
    OptionalOnWire(f.username, username);
    OptionalOnWire(f.password, password);
    ToTheLeft(OptionalField(f.will, willTopic), OptionalField(f.will, willMessage),
              OptionalField(f.username, username), OptionalField(f.password, password));
  }

  lemma ToTheLeft(a: seq<Byte>, b: seq<Byte>, c: seq<Byte>, d: seq<Byte>)
    ensures a + (b + (c + d)) == a + b + c + d
  {
  }

  lemma Flatten(a: seq<Byte>, v: Byte, f: Byte, k: seq<Byte>, b: seq<Byte>, w: seq<Byte>, u: seq<Byte>, q: seq<Byte>)
    ensures a + ([v, f] + (k + (b + (w + u + q)))) == a + [v] + [f] + k + b + w + u + q
  {
  }

  lemma ConnectOnWire(p: Packet)
    requires p.Connect? && WellFormed(p)
    ensures Body(p) == BodyOnWire(p)
  {
    var f := p.flags;
    var w := if f.will then Prefixed(p.willTopic) + Prefixed(p.willMessage) else [];
    var u, q := if f.username then Prefixed(p.username) else [], if f.password then Prefixed(p.password) else [];
    FlagByteOnWire(f);
    TailOnWire(f, p.willTopic, p.willMessage, p.username, p.password);
    FieldOnWire(p.protocolName);
    FieldOnWire(p.clientId);
    ConnectBody(p, w + u + q);
    Flatten(Prefixed(p.protocolName), p.version, FlagByte(f), TwoBytes(p.keepalive), Prefixed(p.clientId), w, u, q);
  }

  lemma ConnectBody(p: Packet, tail: seq<Byte>)
    requires p.Connect? && p.keepalive < 65536
    requires tail == ConnectTail(p.flags, p.willTopic, p.willMessage, p.username, p.password)
    ensures Body(p) == EncodeField(p.protocolName) + ([p.version, FlagByte(p.flags)]
                       + (TwoBytes(p.keepalive) + (EncodeField(p.clientId) + tail)))
  {
  }

  lemma PublishOnWire(p: Packet)
    requires p.Publish? && WellFormed(p)
    ensures Body(p) == BodyOnWire(p)
  {
    FieldOnWire(p.topic);
    var id: seq<Byte> := if p.h.qos == 0 then [] else TwoBytes(p.messageId);
    assert Prefixed(p.topic) + (id + p.payload) == Prefixed(p.topic) + id + p.payload;
  }

  lemma AllPairs(topics: seq<seq<Byte>>, qoss: seq<Byte>)
    requires |topics| == |qoss| && AllShort(topics)
    ensures Pairs(topics, qoss) == PairsOnWire(topics, qoss, |topics|)
  {
    var n := |topics|;
    PairsAfter(topics, qoss, n);
    assert topics[n..] == [] && qoss[n..] == [];
    NothingMore(PairsOnWire(topics, qoss, n));
  }

  lemma AllFields(topics: seq<seq<Byte>>)
    requires AllShort(topics)
    ensures Fields(topics) == FieldsOnWire(topics, |topics|)
  {
    var n := |topics|;
    FieldsAfter(topics, n);
    assert topics[n..] == [];
    NothingMore(FieldsOnWire(topics, n));
  }

  lemma SubscribeOnWire(p: Packet)
    requires p.Subscribe? && WellFormed(p)
    ensures Body(p) == BodyOnWire(p)
  {
    AllPairs(p.topics, p.qoss);
    assert Body(p) == TwoBytes(p.messageId) + Pairs(p.topics, p.qoss);
  }

  lemma UnsubscribeOnWire(p: Packet)
    requires p.Unsubscribe? && WellFormed(p)
    ensures Body(p) == BodyOnWire(p)
  {
    AllFields(p.topics);
    assert Body(p) == TwoBytes(p.messageId) + Fields(p.topics);
  }

  lemma FixedOnWire(p: Packet)
    requires (p.Connack? || p.IdOnly? || p.Suback? || p.Empty?) && WellFormed(p)
    ensures Body(p) == BodyOnWire(p)
  {
  }

  lemma BodyIsOnWire(p: Packet)
    requires WellFormed(p)
    ensures Body(p) == BodyOnWire(p)
  {
    match p
    case Connect(_, _, _, _, _, _, _, _, _, _, _) => ConnectOnWire(p);
    case Publish(_, _, _, _) => PublishOnWire(p);
    case Subscribe(_, _, _, _) => SubscribeOnWire(p);
    case Unsubscribe(_, _, _) => UnsubscribeOnWire(p);
    case Connack(_, _, _) => FixedOnWire(p);
    case IdOnly(_, _) => FixedOnWire(p);
    case Suback(_, _, _) => FixedOnWire(p);
    case Empty(_) => FixedOnWire(p);
  }

  /** Every digit but the last has its top bit set. */
  predicate AllButLastGoOn(digits: seq<Byte>)
  {
    digits != [] && forall i :: 0 <= i < |digits| ==> (digits[i] >= 128 <==> i < |digits| - 1)
  }

  lemma {:induction false} IsNumeral(digits: seq<Byte>)
    ensures Numeral(digits) <==> AllButLastGoOn(digits)
    decreases |digits|
  {
    if |digits| > 1 {
      var others := digits[1..];
      IsNumeral(others);
      if AllButLastGoOn(digits) {
        forall i | 0 <= i < |others| ensures others[i] >= 128 <==> i < |others| - 1 {
          assert others[i] == digits[i + 1];
        }
      }
      if digits[0] >= 128 && AllButLastGoOn(others) {
        forall i | 0 <= i < |digits| ensures digits[i] >= 128 <==> i < |digits| - 1 {
          if i > 0 { assert others[i - 1] == digits[i]; }
        }
      }
    }
  }

  /** The bytes of a length add up to it in base 128, least significant digit first. */
  lemma LengthOnWire(n: nat)
    ensures Value(Digits(n)) == n && AllButLastGoOn(Digits(n))
  {
    DigitsAreNumeral(n);
    IsNumeral(Digits(n));
  }

  /** A well-formed packet on the wire: type, flags, length, body, in the standard's numbers. */
  lemma PacketOnWire(p: Packet) returns (length: seq<Byte>)
    requires WellFormed(p)
    ensures RightType(p)
    ensures Write(p) == [16 * p.h.messageType + 8 * Bit(p.h.dup) + 2 * p.h.qos + Bit(p.h.retain)]
                        + (length + BodyOnWire(p))
    ensures Value(length) == |BodyOnWire(p)| && AllButLastGoOn(length)
  {
    BodyIsOnWire(p);
    HeaderByteSum(p.h);
    length := Digits(|Body(p)|);
    LengthOnWire(|Body(p)|);
  }

  // ---------------------------------------------------------------------------
  // What is read.

  /** The bytes before the end of the buffer, zeros after it. */
  function ByteAt(s: seq<Byte>, i: nat): Byte
  {
    if i < |s| then s[i] else 0
  }

  lemma ZerosAreZero(n: nat, i: nat)
    requires i < n
    ensures Zeros(n)[i] == 0
    decreases n
  {
    if i > 0 {
      ZerosAreZero(n - 1, i - 1);
    }
  }

  lemma NumberAt(s: seq<Byte>)
    ensures Uint16At(s) == 256 * ByteAt(s, 0) + ByteAt(s, 1)
  {
    if |s| < 2 {
      ZerosAreZero(2 - |s|, 0);
      if |s| == 0 { ZerosAreZero(2, 1); }
    }
  }

  /** A field is as long as its first two bytes say, high byte first, and reads zeros past the end of the buffer. */
  lemma FieldRead(s: seq<Byte>)
    ensures |FieldAt(s)| == 256 * ByteAt(s, 0) + ByteAt(s, 1)
    ensures forall i :: 0 <= i < |FieldAt(s)| ==> FieldAt(s)[i] == ByteAt(s, 2 + i)
    ensures forall i: nat :: ByteAt(AfterField(s), i) == ByteAt(s, 2 + |FieldAt(s)| + i)
  {
    NumberAt(s);
    var n := |FieldAt(s)|;
    forall i | 0 <= i < n ensures FieldAt(s)[i] == ByteAt(s, 2 + i) {
      TakenAt(Left(s, 2), n, i);
    }
  }

  lemma TakenAt(s: seq<Byte>, n: nat, i: nat)
    requires i < n
    ensures Taken(s, n)[i] == ByteAt(s, i)
  {
    if |s| <= i { ZerosAreZero(n - |s|, i - |s|); }
  }

  /** The topic, id and payload of a PUBLISH, of whatever bytes it was read. */
  lemma PublishRead(s: seq<Byte>)
    requires ReadPacket(s).Got? && s[0] / 16 == 3
    ensures s != [] && LengthHalts(s[1..]) && LengthAt(s[1..]).value <= |LengthAt(s[1..]).rest|
    ensures var p, length := ReadPacket(s).packet, LengthAt(s[1..]);
      var body, id := length.rest[..length.value], if s[0] / 2 % 4 > 0 then 2 else 0;
      p.Publish? && |p.topic| == 256 * ByteAt(body, 0) + ByteAt(body, 1)
      && (forall i :: 0 <= i < |p.topic| ==> p.topic[i] == ByteAt(body, 2 + i))
      && 2 + |p.topic| + id + |p.payload| == |body|
      && (id == 2 ==> p.messageId == 256 * ByteAt(body, 2 + |p.topic|) + ByteAt(body, 3 + |p.topic|))
      && (forall i :: 0 <= i < |p.payload| ==> p.payload[i] == ByteAt(body, 2 + |p.topic| + id + i))
  {
    KindRead(s);
    var body := LengthAt(s[1..]).rest[..LengthAt(s[1..]).value];
    BodyRead(ReadPacket(s).packet.h, body);
  }

  lemma BodyRead(h: Header, s: seq<Byte>)
    requires !UnpackPanics(Publish(h, [], 0, []), s) && h.remainingLength == |s|
    ensures var p, id := UnpackPublish(Publish(h, [], 0, []), s), if h.qos > 0 then 2 else 0;
      p.topic == FieldAt(s) && 2 + |p.topic| + id + |p.payload| == |s|
      && |p.topic| == 256 * ByteAt(s, 0) + ByteAt(s, 1)
      && (forall i :: 0 <= i < |p.topic| ==> p.topic[i] == ByteAt(s, 2 + i))
      && (id == 2 ==> p.messageId == 256 * ByteAt(s, 2 + |p.topic|) + ByteAt(s, 3 + |p.topic|))
      && (forall i :: 0 <= i < |p.payload| ==> p.payload[i] == ByteAt(s, 2 + |p.topic| + id + i))
  {
    var p, s1 := UnpackPublish(Publish(h, [], 0, []), s), AfterField(s);
    FieldRead(s);
    NumberAt(s1);
    assert ByteAt(s1, 0) == ByteAt(s, 2 + |p.topic| + 0) && ByteAt(s1, 1) == ByteAt(s, 2 + |p.topic| + 1);
    forall i | 0 <= i < |p.payload|
      ensures p.payload[i] == ByteAt(s, 2 + |p.topic| + (if h.qos > 0 then 2 else 0) + i)
    {
      TakenAt(if h.qos > 0 then Left(s1, 2) else s1, |p.payload|, i);
    }
  }

  /** The id of every packet that is only an id. */
  lemma IdRead(s: seq<Byte>)
    requires ReadPacket(s).Got? && ReadPacket(s).packet.IdOnly?
    ensures s != [] && LengthHalts(s[1..]) && LengthAt(s[1..]).value <= |LengthAt(s[1..]).rest|
    ensures var length := LengthAt(s[1..]);
      var body := length.rest[..length.value];
      ReadPacket(s).packet.messageId == 256 * ByteAt(body, 0) + ByteAt(body, 1)
  {
    KindRead(s);
    NumberAt(LengthAt(s[1..]).rest[..LengthAt(s[1..]).value]);
  }

  /** What ReadPacket makes of any bytes: an error on no input, an unknown type, or fewer bytes than announced; a
      panic on a PUBLISH that announces less than its topic and id take; and otherwise a packet, with what follows
      the announced bytes left. */
  lemma ReadOutcome(s: seq<Byte>)
    ensures s == [] ==> ReadPacket(s).Failed?
    ensures s != [] && !LengthHalts(s[1..]) ==> ReadPacket(s).Hangs?
    ensures s != [] && LengthHalts(s[1..]) ==>
      var t, length := s[0] / 16, LengthAt(s[1..]);
      var n, more := length.value, length.rest;
      if t == 0 || t == 15 || |more| < n then ReadPacket(s).Failed?
      else
        var body := more[..n];
        if t == 3 && n < 2 + 256 * ByteAt(body, 0) + ByteAt(body, 1) + (if s[0] / 2 % 4 > 0 then 2 else 0) then
          ReadPacket(s).Panics?
        else ReadPacket(s).Got? && ReadPacket(s).rest == more[n..]
  {
    if s != [] && LengthHalts(s[1..]) {
      var length := LengthAt(s[1..]);
      if length.value <= |length.rest| { FieldRead(length.rest[..length.value]); }
    }
  }

  /** Any digits are read as their sum modulo 2^32, and nothing after them is taken. */
  lemma LengthRead(digits: seq<Byte>, rest: seq<Byte>)
    requires AllButLastGoOn(digits) && 7 * |digits| < 4294967296
    ensures LengthHalts(digits + rest) && LengthAt(digits + rest) == Decoded(Value(digits) % 4294967296, rest)
  {
    IsNumeral(digits);
    LengthMeaning(digits, rest);
  }

  /** The kind of packet the first byte makes, by its type number, and the header. */
  lemma KindRead(s: seq<Byte>)
    requires ReadPacket(s).Got?
    ensures s != [] && LengthHalts(s[1..])
    ensures var p, t := ReadPacket(s).packet, s[0] / 16;
      (p.Connect? <==> t == 1) && (p.Connack? <==> t == 2) && (p.Publish? <==> t == 3)
      && (p.IdOnly? <==> t == 4 || t == 5 || t == 6 || t == 7 || t == 11)
      && (p.Subscribe? <==> t == 8) && (p.Suback? <==> t == 9) && (p.Unsubscribe? <==> t == 10)
      && (p.Empty? <==> t == 12 || t == 13 || t == 14)
    ensures var h := ReadPacket(s).packet.h;
      h.messageType == s[0] / 16 && (h.dup <==> s[0] / 8 % 2 == 1) && h.qos == s[0] / 2 % 4
      && (h.retain <==> s[0] % 2 == 1) && h.remainingLength == LengthAt(s[1..]).value
  {
  }

  /** The SUBSCRIBE 82 06 00 01 00 01 61 00: id 1, topic "a", QoS 0. */
  lemma StandardSubscribe()
    ensures ReadPacket([0x82, 6, 0, 1, 0, 1, 0x61, 0])
         == Got(Subscribe(Header(8, false, 1, false, 6), 1, [[0x61]], [0]), [])
  {
    var p := Subscribe(Header(8, false, 1, false, 6), 1, [[0x61]], [0]);
    OnePair([0x61], 0);
    assert Body(p) == [0, 1, 0, 1, 0x61, 0];
    assert WellFormed(p);
    var length := PacketOnWire(p);
    assert Digits(6) == [6];
    ReadWritten(p, []);
    HeaderByteSum(p.h);
    assert Write(p) + [] == [0x82, 6, 0, 1, 0, 1, 0x61, 0];
  }

  lemma OnePair(topic: seq<Byte>, qos: Byte)
    ensures Pairs([topic], [qos]) == EncodeField(topic) + [qos]
  {
    assert [topic][1..] == [] && [qos][1..] == [];
    assert [qos] + Pairs([], []) == [qos];
  }
}
