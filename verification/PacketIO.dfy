/** The packet objects: Write and Unpack as methods that update their packet and consume their reader. */
module PacketIO {
  import opened Bytes
  import opened Length
  import opened PacketBits
  import opened Packets

  method Pack(h: Header) returns (header: seq<Byte>)
    ensures header == [HeaderByte(h)] + Digits(h.remainingLength)
  {
    var length := EncodeLength(h.remainingLength);
    header := [HeaderByte(h)] + length;
  }

  lemma Regroup(first: Byte, length: seq<Byte>, body: seq<Byte>)
    ensures [first] + length + body == [first] + (length + body)
  {
  }

  lemma RegroupRight(a: seq<Byte>, b: seq<Byte>, c: seq<Byte>)
    ensures a + b + c == a + (b + c)
  {
  }

  lemma PublishBody(p: Packet, front: seq<Byte>)
    requires p.Publish? && front == EncodeField(p.topic) + if p.h.qos > 0 then EncodeUint16(p.messageId) else []
    ensures front + p.payload == Body(p)
  {
  }

  class ConnectPacket {
    var h: Header
    var protocolName: seq<Byte>
    var version: Byte
    var flags: Flags
    var reservedBit: Byte
    var keepalive: nat
    var clientId: seq<Byte>
    var willTopic: seq<Byte>
    var willMessage: seq<Byte>
    var username: seq<Byte>
    var password: seq<Byte>

    ghost function View(): Packet
      reads this
    {
      Connect(h, protocolName, version, flags, reservedBit, keepalive, clientId, willTopic, willMessage, username,
              password)
    }

    constructor (fh: Header)
      requires fh.messageType == CONNECT
      ensures View() == Blank(fh)
    {
      h := fh;
      protocolName, version, flags, reservedBit := [], 0, Flags(false, false, 0, false, false, false), 0;
      keepalive, clientId, willTopic, willMessage, username, password := 0, [], [], [], [], [];
    }

    method Write() returns (packet: seq<Byte>)
      modifies `h
      ensures packet == Packets.Write(old(View())) && View() == Written(old(View()))
    {
      var tail := [];
      if flags.will {
        tail := EncodeField(willTopic) + EncodeField(willMessage);
      }
      if flags.username {
        tail := tail + EncodeField(username);
      }
      if flags.password {
        tail := tail + EncodeField(password);
      }
      assert tail == ConnectTail(flags, willTopic, willMessage, username, password);
      var body := EncodeField(protocolName)
        + ([version, FlagByte(flags)] + (EncodeUint16(keepalive) + (EncodeField(clientId) + tail)));
      h := h.(remainingLength := |body|);
      var header := Pack(h);
      Regroup(HeaderByte(h), Digits(|body|), body);
      packet := header + body;
    }

    method Unpack(b: Reader)
      modifies this, b
      ensures View() == UnpackConnect(old(View()), old(b.rest))
    {
      UnpackFixed(b);
      UnpackOptional(b);
    }

    /** The start of Unpack: the fields every CONNECT has. */
    method UnpackFixed(b: Reader)
      modifies this, b
      ensures (View(), b.rest) == UnpackConnectHead(old(View()), old(b.rest))
    {
      protocolName := b.DecodeField();
      version := b.DecodeByte();
      var options := b.DecodeByte();
      reservedBit := options % 2;
      flags := FlagsOf(options);
      keepalive := b.DecodeUint16();
      clientId := b.DecodeField();
    }

    /** The end of Unpack: the fields whose flags are set. */
    method UnpackOptional(b: Reader)
      modifies this, b
      ensures View() == UnpackConnectTail(old(View()), old(b.rest))
    {
      if flags.will {
        willTopic := b.DecodeField();
        willMessage := b.DecodeField();
      }
      if flags.username {
        username := b.DecodeField();
      }
      if flags.password {
        password := b.DecodeField();
      }
    }
  }

  class PublishPacket {
    var h: Header
    var topicName: seq<Byte>
    var messageId: nat
    var payload: seq<Byte>

    ghost function View(): Packet
      reads this
    {
      Publish(h, topicName, messageId, payload)
    }

    constructor (fh: Header)
      requires fh.messageType == PUBLISH
      ensures View() == Blank(fh)
    {
      h, topicName, messageId, payload := fh, [], 0, [];
    }

    method Write() returns (packet: seq<Byte>)
      modifies `h
      ensures packet == Packets.Write(old(View())) && View() == Written(old(View()))
    {
      var body := EncodeField(topicName);
      if h.qos > 0 {
        body := body + EncodeUint16(messageId);
      } else {
        NothingAfter(body);
      }
      PublishBody(View(), body);
      h := h.(remainingLength := |body| + |payload|);
      var header := Pack(h);
      Regroup(HeaderByte(h), Digits(h.remainingLength), body + payload);
      RegroupRight(header, body, payload);
      packet := header + body + payload;
    }

    /** ok is false when the payload length comes out negative, which ends the process. */
    method Unpack(b: Reader) returns (ok: bool)
      modifies this, b
      ensures ok <==> !UnpackPanics(old(View()), old(b.rest))
      ensures ok ==> View() == UnpackPublish(old(View()), old(b.rest))
    {
      var payloadLength := h.remainingLength;
      topicName := b.DecodeField();
      if h.qos > 0 {
        messageId := b.DecodeUint16();
        payloadLength := payloadLength - (|topicName| + 4);
      } else {
        payloadLength := payloadLength - (|topicName| + 2);
      }
      if payloadLength < 0 {
        return false;
      }
      payload := b.Read(payloadLength);
      ok := true;
    }
  }

  class SubscribePacket {
    var h: Header
    var messageId: nat
    var topics: seq<seq<Byte>>
    var qoss: seq<Byte>

    ghost function View(): Packet
      reads this
    {
      Subscribe(h, messageId, topics, qoss)
    }

    constructor (fh: Header)
      requires fh.messageType == SUBSCRIBE
      ensures View() == Blank(fh)
    {
      h, messageId, topics, qoss := fh, 0, [], [];
    }

    method Write() returns (packet: seq<Byte>)
      requires Writable(View())
      modifies `h
      ensures packet == Packets.Write(old(View())) && View() == Written(old(View()))
    {
      var body := EncodeUint16(messageId);
      var i := 0;
      while i < |topics|
        invariant 0 <= i <= |topics| && unchanged(this)
        invariant body + Pairs(topics[i..], qoss[i..]) == Body(View())
      {
        assert topics[i..][1..] == topics[i + 1..] && qoss[i..][1..] == qoss[i + 1..];
        ghost var tail := Pairs(topics[i + 1..], qoss[i + 1..]);
        assert body + (EncodeField(topics[i]) + ([qoss[i]] + tail)) == body + EncodeField(topics[i]) + [qoss[i]] + tail;
        body := body + EncodeField(topics[i]) + [qoss[i]];
        i := i + 1;
      }
      assert body + [] == body;
      h := h.(remainingLength := |body|);
      var header := Pack(h);
      Regroup(HeaderByte(h), Digits(|body|), body);
      packet := header + body;
    }

    /** The loop ends on every buffer, truncated ones included: each turn takes at least 3 off the count. */
    method Unpack(b: Reader)
      modifies this, b
      ensures View() == UnpackSubscribe(old(View()), old(b.rest))
    {
      messageId := b.DecodeUint16();
      var payloadLength := h.remainingLength - 2;
      ghost var all := PairsAt(b.rest, payloadLength);
      while payloadLength > 0
        invariant h == old(h) && messageId == Uint16At(old(b.rest))
        invariant topics + PairsAt(b.rest, payloadLength).0 == old(topics) + all.0
        invariant qoss + PairsAt(b.rest, payloadLength).1 == old(qoss) + all.1
        decreases payloadLength
      {
        ghost var left := PairsAt(b.rest, payloadLength);
        var topic := b.DecodeField();
        var qos := b.DecodeByte();
        payloadLength := payloadLength - (2 + |topic| + 1);
        ghost var rest := PairsAt(b.rest, payloadLength);
        assert left.0 == [topic] + rest.0 && left.1 == [qos] + rest.1;
        MoveOne(topics, topic, rest.0);
        MoveOne(qoss, qos, rest.1);
        topics := topics + [topic];
        qoss := qoss + [qos];
      }
      NothingAfter(topics);
      NothingAfter(qoss);
    }
  }

  lemma MoveOne<T>(before: seq<T>, x: T, after: seq<T>)
    ensures before + ([x] + after) == before + [x] + after
  {
  }

  lemma NothingAfter<T>(s: seq<T>)
    ensures s + [] == s
  {
  }

  class UnsubscribePacket {
    var h: Header
    var messageId: nat
    var topics: seq<seq<Byte>>

    ghost function View(): Packet
      reads this
    {
      Unsubscribe(h, messageId, topics)
    }

    constructor (fh: Header)
      requires fh.messageType == UNSUBSCRIBE
      ensures View() == Blank(fh)
    {
      h, messageId, topics := fh, 0, [];
    }

    method Write() returns (packet: seq<Byte>)
      modifies `h
      ensures packet == Packets.Write(old(View())) && View() == Written(old(View()))
    {
      var body := EncodeUint16(messageId);
      var i := 0;
      while i < |topics|
        invariant 0 <= i <= |topics| && unchanged(this)
        invariant body + Fields(topics[i..]) == Body(View())
      {
        assert topics[i..][1..] == topics[i + 1..];
        ghost var tail := Fields(topics[i + 1..]);
        assert body + (EncodeField(topics[i]) + tail) == body + EncodeField(topics[i]) + tail;
        body := body + EncodeField(topics[i]);
        i := i + 1;
      }
      assert body + [] == body;
      h := h.(remainingLength := |body|);
      var header := Pack(h);
      Regroup(HeaderByte(h), Digits(|body|), body);
      packet := header + body;
    }

    /** The loop ends on every buffer, truncated ones included: a non-empty string has consumed a byte. */
    method Unpack(b: Reader)
      modifies this, b
      ensures View() == UnpackUnsubscribe(old(View()), old(b.rest))
    {
      messageId := b.DecodeUint16();
      ghost var all := FieldsAt(b.rest);
      FieldConsumes(b.rest);
      var topic := b.DecodeField();
      while topic != []
        invariant h == old(h) && messageId == Uint16At(old(b.rest))
        invariant topics + (if topic == [] then [] else [topic] + FieldsAt(b.rest)) == old(topics) + all
        decreases if topic == [] then 0 else |b.rest| + 1
      {
        MoveOne(topics, topic, FieldsAt(b.rest));
        topics := topics + [topic];
        FieldConsumes(b.rest);
        topic := b.DecodeField();
      }
      NothingAfter(topics);
    }
  }

  /** ReadPacket on a connection. Where the source's decodeLength would loop for ever, having met neither a last
      digit nor the end of input, the method answers Hangs in its place. */
  method ReadPacket(r: Reader) returns (out: Outcome)
    modifies r
    ensures out == Packets.ReadPacket(old(r.rest))
    ensures out.Got? ==> r.rest == out.rest
  {
    if r.rest == [] {
      return Failed;
    }
    ghost var s := r.rest;
    var first := r.DecodeByte();
    assert r.rest == s[1..];
    if !LengthHalts(r.rest) {
      return Hangs;
    }
    var length := DecodeLength(r);
    var fh := HeaderOf(first, length);
    if !KnownType(fh.messageType) || |r.rest| < length {
      return Failed;
    }
    var packetBytes := r.Read(length);
    var b := new Reader(packetBytes);
    var t := fh.messageType;
    if t == CONNECT {
      var cp := new ConnectPacket(fh);
      cp.Unpack(b);
      out := Got(Connect(cp.h, cp.protocolName, cp.version, cp.flags, cp.reservedBit, cp.keepalive, cp.clientId,
                         cp.willTopic, cp.willMessage, cp.username, cp.password), r.rest);
    } else if t == PUBLISH {
      var pp := new PublishPacket(fh);
      var ok := pp.Unpack(b);
      if !ok {
        return Panics;
      }
      out := Got(Publish(pp.h, pp.topicName, pp.messageId, pp.payload), r.rest);
    } else if t == SUBSCRIBE {
      var sp := new SubscribePacket(fh);
      sp.Unpack(b);
      out := Got(Subscribe(sp.h, sp.messageId, sp.topics, sp.qoss), r.rest);
    } else if t == UNSUBSCRIBE {
      var up := new UnsubscribePacket(fh);
      up.Unpack(b);
      out := Got(Unsubscribe(up.h, up.messageId, up.topics), r.rest);
    } else {
      out := Got(Packets.Unpack(Blank(fh), packetBytes), r.rest);
    }
  }
}
