/** The bit-packed bytes: the first byte of every packet and the flags of CONNECT. */
module PacketBits {
  import opened Bytes

  datatype Header = Header(messageType: Byte, dup: bool, qos: Byte, retain: bool, remainingLength: nat)

  datatype Flags = Flags(
    cleanSession: bool, will: bool, willQos: Byte, willRetain: bool, password: bool, username: bool)

  // ---------------------------------------------------------------------------
  // Packed bits.

  /** x << k in a byte. */
  function Shl8(x: nat, k: nat): Byte { ShiftLeft(x, k) % 256 }

  lemma {:induction false} BitOrBound(x: nat, y: nat, k: nat)
    requires x < Pow2(k) && y < Pow2(k)
    ensures BitOr(x, y) < Pow2(k)
    decreases k
  {
    if k > 0 && x > 0 && y > 0 {
      BitOrBound(x / 2, y / 2, k - 1);
    }
  }

  function Or8(x: Byte, y: Byte): Byte
  {
    BitOrBound(x, y, 8);
    BitOr(x, y)
  }

  /** parts[0] | parts[1] | ... */
  function OrAll(parts: seq<Byte>): Byte
    requires |parts| > 0
  {
    if |parts| == 1 then parts[0] else Or8(OrAll(parts[..|parts| - 1]), parts[|parts| - 1])
  }

  function HeaderByte(h: Header): Byte
  {
    OrAll([Shl8(h.messageType, 4), Shl8(BoolToByte(h.dup), 3), Shl8(h.qos, 1), BoolToByte(h.retain)])
  }

  /** unpack: the type, flags and QoS of a first byte. */
  function HeaderOf(b: Byte, remainingLength: nat): Header
  {
    Header(b / 16, b / 8 % 2 > 0, b / 2 % 4, b % 2 > 0, remainingLength)
  }

  /** One more part, all of whose bits lie below those of the earlier ones. */
  lemma PartBelow(parts: seq<Byte>, sum: nat, high: nat, k: nat, x: Byte)
    requires |parts| > 0 && OrAll(parts) == sum == ShiftLeft(high, k) && x < Pow2(k)
    ensures OrAll(parts + [x]) == sum + x
  {
    assert (parts + [x])[..|parts|] == parts;
    BitOrDisjoint(high, k, x);
  }

  /** One more part, all of whose bits lie above those of the earlier ones. */
  lemma PartAbove(parts: seq<Byte>, sum: nat, high: nat, k: nat, x: Byte)
    requires |parts| > 0 && OrAll(parts) == sum < Pow2(k) && x == ShiftLeft(high, k)
    ensures OrAll(parts + [x]) == sum + x
  {
    assert (parts + [x])[..|parts|] == parts;
    BitOrDisjoint(high, k, sum);
  }

  // The places of the flags, as bit number and weight.
  ghost predicate Weighs(k: nat, w: nat)
  {
    Pow2(k) == w && forall x: nat {:trigger ShiftLeft(x, k)} :: ShiftLeft(x, k) == w * x
  }

  lemma NextWeight(k: nat, w: nat)
    requires Weighs(k, w)
    ensures Weighs(k + 1, 2 * w)
  {
    forall x: nat ensures ShiftLeft(x, k + 1) == 2 * w * x {
      assert ShiftLeft(x, k + 1) == 2 * ShiftLeft(x, k);
      assert 2 * (w * x) == 2 * w * x;
    }
  }

  lemma Weights()
    ensures Weighs(1, 2) && Weighs(2, 4) && Weighs(3, 8)
    ensures Weighs(4, 16) && Weighs(5, 32) && Weighs(6, 64) && Weighs(7, 128)
  {
    assert Weighs(0, 1);
    NextWeight(0, 1);
    NextWeight(1, 2);
    NextWeight(2, 4);
    NextWeight(3, 8);
    NextWeight(4, 16);
    NextWeight(5, 32);
    NextWeight(6, 64);
  }

  lemma HeaderParts(t: Byte, d: Byte, q: Byte, r: Byte)
    requires t < 16 && d < 2 && q < 4 && r < 2
    ensures OrAll([16 * t, 8 * d, 2 * q, r]) == 16 * t + 8 * d + 2 * q + r
  {
    var a: Byte, b: Byte, c: Byte := 16 * t, 8 * d, 2 * q;
    Weights();
    assert ShiftLeft(t, 4) == a && ShiftLeft(2 * t + d, 3) == a + b && ShiftLeft(8 * t + 4 * d + q, 1) == a + b + c;
    PartBelow([a], a, t, 4, b);
    assert [a] + [b] == [a, b];
    PartBelow([a, b], a + b, 2 * t + d, 3, c);
    assert [a, b] + [c] == [a, b, c];
    PartBelow([a, b, c], a + b + c, 8 * t + 4 * d + q, 1, r);
    assert [a, b, c] + [r] == [a, b, c, r];
  }

  lemma HeaderByteSum(h: Header)
    requires h.messageType < 16 && h.qos < 4
    ensures HeaderByte(h) == 16 * h.messageType + 8 * BoolToByte(h.dup) + 2 * h.qos + BoolToByte(h.retain)
  {
    ShiftedHeader(h.messageType, BoolToByte(h.dup), h.qos);
    HeaderParts(h.messageType, BoolToByte(h.dup), h.qos, BoolToByte(h.retain));
  }

  lemma ShiftedHeader(t: Byte, d: Byte, q: Byte)
    requires t < 16 && d < 2 && q < 4
    ensures Shl8(t, 4) == 16 * t && Shl8(d, 3) == 8 * d && Shl8(q, 1) == 2 * q
  {
    Weights();
  }

  /** The first byte keeps type, DUP, QoS and RETAIN exactly when type and QoS fit their bits. */
  lemma HeaderRoundTrip(h: Header, n: nat)
    ensures HeaderOf(HeaderByte(h), n) == h.(remainingLength := n) <==> h.messageType < 16 && h.qos < 4
  {
    if h.messageType < 16 && h.qos < 4 {
      HeaderByteSum(h);
      HeaderBits(h.messageType, BoolToByte(h.dup), h.qos, BoolToByte(h.retain));
    }
  }

  lemma HeaderBits(t: nat, d: nat, q: nat, r: nat)
    requires t < 16 && d < 2 && q < 4 && r < 2
    ensures var b := 16 * t + 8 * d + 2 * q + r;
      b / 16 == t && b / 8 % 2 == d && b / 2 % 4 == q && b % 2 == r && b < 256
  {
    var b := 16 * t + 8 * d + 2 * q + r;
    assert b / 8 == 2 * t + d && b / 2 == 8 * t + 4 * d + q;
  }

  function FlagByte(f: Flags): Byte
  {
    OrAll([Shl8(BoolToByte(f.cleanSession), 1), Shl8(BoolToByte(f.will), 2), Shl8(f.willQos, 3),
           Shl8(BoolToByte(f.willRetain), 5), Shl8(BoolToByte(f.password), 6), Shl8(BoolToByte(f.username), 7)])
  }

  function FlagsOf(options: Byte): Flags
  {
    Flags(options / 2 % 2 > 0, options / 4 % 2 > 0, options / 8 % 4, options / 32 % 2 > 0, options / 64 % 2 > 0,
          options / 128 % 2 > 0)
  }

  lemma LowFlagParts(c: Byte, w: Byte, q: Byte)
    requires c < 2 && w < 2 && q < 4
    ensures OrAll([2 * c, 4 * w, 8 * q]) == 2 * c + 4 * w + 8 * q
  {
    Weights();
    PartAbove([2 * c], 2 * c, w, 2, 4 * w);
    assert [2 * c] + [4 * w] == [2 * c, 4 * w];
    PartAbove([2 * c, 4 * w], 2 * c + 4 * w, q, 3, 8 * q);
    assert [2 * c, 4 * w] + [8 * q] == [2 * c, 4 * w, 8 * q];
  }

  lemma HighFlagParts(low: seq<Byte>, sum: nat, r: Byte, p: Byte, u: Byte)
    requires |low| > 0 && OrAll(low) == sum < 32 && r < 2 && p < 2 && u < 2
    ensures OrAll(low + [32 * r, 64 * p, 128 * u]) == sum + 32 * r + 64 * p + 128 * u
  {
    Weights();
    PartAbove(low, sum, r, 5, 32 * r);
    PartAbove(low + [32 * r], sum + 32 * r, p, 6, 64 * p);
    PartAbove(low + [32 * r] + [64 * p], sum + 32 * r + 64 * p, u, 7, 128 * u);
    assert low + [32 * r] + [64 * p] + [128 * u] == low + [32 * r, 64 * p, 128 * u];
  }

  lemma FlagByteSum(f: Flags)
    requires f.willQos < 4
    ensures FlagByte(f) == 2 * BoolToByte(f.cleanSession) + 4 * BoolToByte(f.will) + 8 * f.willQos
                           + 32 * BoolToByte(f.willRetain) + 64 * BoolToByte(f.password) + 128 * BoolToByte(f.username)
  {
    var c, w, q, r, p, u := BoolToByte(f.cleanSession), BoolToByte(f.will), f.willQos,
      BoolToByte(f.willRetain), BoolToByte(f.password), BoolToByte(f.username);
    LowFlagParts(c, w, q);
    HighFlagParts([2 * c, 4 * w, 8 * q], 2 * c + 4 * w + 8 * q, r, p, u);
    ShiftedFlags(c, w, q, r, p, u);
    assert [2 * c, 4 * w, 8 * q] + [32 * r, 64 * p, 128 * u] == [2 * c, 4 * w, 8 * q, 32 * r, 64 * p, 128 * u];
  }

  lemma ShiftedFlags(c: Byte, w: Byte, q: Byte, r: Byte, p: Byte, u: Byte)
    requires c < 2 && w < 2 && q < 4 && r < 2 && p < 2 && u < 2
    ensures Shl8(c, 1) == 2 * c && Shl8(w, 2) == 4 * w && Shl8(q, 3) == 8 * q
    ensures Shl8(r, 5) == 32 * r && Shl8(p, 6) == 64 * p && Shl8(u, 7) == 128 * u
  {
    Weights();
  }

  lemma FlagBits(c: nat, w: nat, q: nat, r: nat, p: nat, u: nat)
    requires c < 2 && w < 2 && q < 4 && r < 2 && p < 2 && u < 2
    ensures var b := 2 * c + 4 * w + 8 * q + 32 * r + 64 * p + 128 * u;
      b % 2 == 0 && b / 2 % 2 == c && b / 4 % 2 == w && b / 8 % 4 == q && b / 32 % 2 == r && b / 64 % 2 == p
        && b / 128 % 2 == u
  {
    var b := 2 * c + 4 * w + 8 * q + 32 * r + 64 * p + 128 * u;
    assert b / 128 == u && b / 64 == p + 2 * u && b / 32 == r + 2 * p + 4 * u;
    assert b / 8 == q + 4 * (r + 2 * p + 4 * u);
    assert b / 4 == w + 2 * (q + 4 * (r + 2 * p + 4 * u));
    assert b / 2 == c + 2 * (w + 2 * (q + 4 * (r + 2 * p + 4 * u)));
  }

  /** The CONNECT flags byte keeps every flag exactly when the will QoS fits its two bits; the reserved bit stays 0. */
  lemma FlagsRoundTrip(f: Flags)
    ensures FlagsOf(FlagByte(f)) == f <==> f.willQos < 4
    ensures f.willQos < 4 ==> FlagByte(f) % 2 == 0
  {
    if f.willQos < 4 {
      FlagByteSum(f);
      FlagBits(BoolToByte(f.cleanSession), BoolToByte(f.will), f.willQos,
               BoolToByte(f.willRetain), BoolToByte(f.password), BoolToByte(f.username));
    }
  }
}
