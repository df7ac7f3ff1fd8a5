/** Bytes, Go's unsigned shifts and ors on them, and reads from a buffer that may run short. */
module Bytes {

  type Byte = b: int | 0 <= b < 256

  const WORD := 0x1_0000_0000 // uint32 arithmetic is modulo this

  function Pow2(k: nat): (p: nat)
    ensures p > 0
  {
    if k == 0 then 1 else 2 * Pow2(k - 1)
  }

  /** x << k, before it is cut to the width of its type: k doublings. */
  function ShiftLeft(x: nat, k: nat): nat
  {
    if k == 0 then x else 2 * ShiftLeft(x, k - 1)
  }

  lemma {:induction false} ShiftLeftAdds(x: nat, y: nat, k: nat)
    ensures ShiftLeft(x + y, k) == ShiftLeft(x, k) + ShiftLeft(y, k)
  {
    if k > 0 {
      ShiftLeftAdds(x, y, k - 1);
    }
  }

  lemma {:induction false} ShiftLeftBy7(x: nat, k: nat)
    ensures ShiftLeft(128 * x, k) == ShiftLeft(x, k + 7)
  {
    if k > 0 {
      ShiftLeftBy7(x, k - 1);
    } else {
      assert ShiftLeft(x, k + 3) == 2 * ShiftLeft(x, k + 2) == 4 * ShiftLeft(x, k + 1) == 8 * ShiftLeft(x, k);
      assert ShiftLeft(x, k + 5) == 2 * ShiftLeft(x, k + 4) == 4 * ShiftLeft(x, k + 3);
      assert ShiftLeft(x, k + 7) == 2 * ShiftLeft(x, k + 6) == 4 * ShiftLeft(x, k + 5);
    }
  }

  lemma {:induction false} ShiftLeftBound(x: nat, j: nat, k: nat)
    requires x < Pow2(j)
    ensures ShiftLeft(x, k) <= Pow2(j + k) - Pow2(k)
  {
    if k > 0 {
      ShiftLeftBound(x, j, k - 1);
    }
  }

  lemma {:induction false} Pow2IsShift(k: nat)
    ensures Pow2(k) == ShiftLeft(1, k)
  {
    if k > 0 {
      Pow2IsShift(k - 1);
    }
  }

  lemma Pow2Times128(k: nat)
    ensures Pow2(k + 7) == 128 * Pow2(k)
  {
    Pow2IsShift(k);
    Pow2IsShift(k + 7);
    ShiftLeftBy7(1, k);
    ShiftLeftTimes128(1, k);
  }

  lemma SevenBitPowers()
    ensures Pow2(0) == 1 && Pow2(7) == 128 && Pow2(14) == 16384 && Pow2(21) == 2097152
    ensures Pow2(28) == 268435456 && Pow2(35) == 34359738368
  {
    Pow2Times128(0);
    Pow2Times128(7);
    Pow2Times128(14);
    Pow2Times128(21);
    Pow2Times128(28);
  }

  lemma {:induction false} ShiftLeftTimes128(x: nat, k: nat)
    ensures ShiftLeft(128 * x, k) == 128 * ShiftLeft(x, k)
  {
    if k > 0 {
      ShiftLeftTimes128(x, k - 1);
    }
  }

  lemma WordRemainder(low: nat, q: nat)
    requires low < WORD
    ensures (low + WORD * q) % WORD == low
  {
  }

  /** Shifted left by 28, only the low four bits stay below 2^32. The shift is a variable equal to 28, since
      the verifier would unroll the function for a literal. */
  lemma ShiftLeft28(x: nat, k: nat)
    requires 27 < k < 29
    ensures ShiftLeft(x, k) == ShiftLeft(x % 16, k) + WORD * (x / 16)
    ensures ShiftLeft(x, k) % WORD == ShiftLeft(x % 16, k) < WORD
  {
    TwoTo28(x, k);
    TwoTo28(x % 16, k);
    assert x == x % 16 + 16 * (x / 16);
    WordRemainder(ShiftLeft(x % 16, k), x / 16);
  }

  lemma TwoTo28(x: nat, k: nat)
    requires 27 < k < 29
    ensures ShiftLeft(x, k) == 268435456 * x
  {
    ShiftLeftBy7(x, k - 7);
    ShiftLeftBy7(128 * x, k - 14);
    ShiftLeftBy7(16384 * x, k - 21);
    ShiftLeftBy7(2097152 * x, k - 28);
  }

  /** x | y. */
  function BitOr(x: nat, y: nat): nat
  {
    if x == 0 then y
    else if y == 0 then x
    else (if x % 2 == 1 || y % 2 == 1 then 1 else 0) + 2 * BitOr(x / 2, y / 2)
  }

  lemma {:induction false} BitOrCommutes(x: nat, y: nat)
    ensures BitOr(x, y) == BitOr(y, x)
  {
    if x > 0 && y > 0 {
      BitOrCommutes(x / 2, y / 2);
    }
  }

  /** Values without a common bit: or is addition. */
  lemma {:induction false} BitOrDisjoint(high: nat, k: nat, low: nat)
    requires low < Pow2(k)
    ensures BitOr(ShiftLeft(high, k), low) == ShiftLeft(high, k) + low
    ensures BitOr(low, ShiftLeft(high, k)) == ShiftLeft(high, k) + low
    decreases k
  {
    var h := ShiftLeft(high, k);
    if k > 0 && h > 0 && low > 0 {
      BitOrDisjoint(high, k - 1, low / 2);
    }
    BitOrCommutes(h, low);
  }

  function BoolToByte(b: bool): Byte { if b then 1 else 0 }

  /** A fresh slice. */
  function Zeros(n: nat): (z: seq<Byte>)
    ensures |z| == n
  {
    if n == 0 then [] else [0] + Zeros(n - 1)
  }

  /** What reading n bytes into a fresh slice leaves in it: a short read leaves zeros. */
  function Taken(s: seq<Byte>, n: nat): (t: seq<Byte>)
    ensures |t| == n
  {
    if n <= |s| then s[..n] else s + Zeros(n - |s|)
  }

  function Left(s: seq<Byte>, n: nat): seq<Byte>
  {
    if n <= |s| then s[n..] else []
  }

  function Uint16At(s: seq<Byte>): (x: nat)
    ensures x < 65536
  {
    (Taken(s, 2)[0] as int) * 256 + Taken(s, 2)[1]
  }

  /** A length-prefixed field, and what follows it. */
  function FieldAt(s: seq<Byte>): seq<Byte>
  {
    Taken(Left(s, 2), Uint16At(s))
  }

  function AfterField(s: seq<Byte>): seq<Byte>
  {
    Left(Left(s, 2), Uint16At(s))
  }

  function EncodeUint16(x: nat): seq<Byte>
  {
    [(x / 256) % 256, x % 256]
  }

  /** encodeString and encodeBytes: the length is cut to sixteen bits, the field is not. */
  function EncodeField(field: seq<Byte>): seq<Byte>
  {
    EncodeUint16(|field|) + field
  }

  lemma HighAndLow(x: nat)
    ensures x / 256 % 256 * 256 + x % 256 == x % 65536
  {
    assert x == x % 65536 + 65536 * (x / 65536);
    assert x / 256 == x % 65536 / 256 + 256 * (x / 65536);
  }

  lemma Uint16RoundTrip(x: nat, rest: seq<Byte>)
    ensures Uint16At(EncodeUint16(x) + rest) == x % 65536
    ensures Left(EncodeUint16(x) + rest, 2) == rest
  {
    var s, e := EncodeUint16(x) + rest, EncodeUint16(x);
    assert Taken(s, 2) == s[..2] == e && Left(s, 2) == s[2..] == rest;
    HighAndLow(x);
  }

  lemma Uint16Exact(x: nat, rest: seq<Byte>)
    requires x < 65536
    ensures Uint16At(EncodeUint16(x) + rest) == x && Left(EncodeUint16(x) + rest, 2) == rest
  {
    Uint16RoundTrip(x, rest);
  }

  /** A field comes back whole, with what followed it, exactly when its length fits sixteen bits. */
  lemma FieldRoundTrip(field: seq<Byte>, rest: seq<Byte>)
    ensures |field| < 65536 <==> FieldAt(EncodeField(field) + rest) == field
    ensures |field| < 65536 ==> AfterField(EncodeField(field) + rest) == rest
  {
    var s := EncodeField(field) + rest;
    assert s == EncodeUint16(|field|) + (field + rest);
    Uint16RoundTrip(|field|, field + rest);
  }

  /** A field that is not empty has consumed at least one byte. */
  lemma FieldConsumes(s: seq<Byte>)
    ensures FieldAt(s) != [] ==> |AfterField(s)| < |s|
  {
    if s == [] {
      assert Zeros(1) == [0] && Zeros(2) == [0, 0];
    }
  }

  /** The buffer a packet is unpacked from, or the connection it is read from. */
  class Reader {
    var rest: seq<Byte>

    constructor (s: seq<Byte>)
      ensures rest == s
    {
      rest := s;
    }

    method Read(n: nat) returns (field: seq<Byte>)
      modifies this
      ensures field == Taken(old(rest), n) && rest == Left(old(rest), n)
    {
      if n <= |rest| {
        field, rest := rest[..n], rest[n..];
      } else {
        field, rest := rest + Zeros(n - |rest|), [];
      }
    }

    method DecodeByte() returns (b: Byte)
      modifies this
      ensures b == Taken(old(rest), 1)[0] && rest == Left(old(rest), 1)
    {
      var num := Read(1);
      b := num[0];
    }

    method DecodeUint16() returns (x: nat)
      modifies this
      ensures x == Uint16At(old(rest)) && rest == Left(old(rest), 2)
    {
      var num := Read(2);
      x := (num[0] as int) * 256 + num[1];
    }

    method DecodeField() returns (field: seq<Byte>)
      modifies this
      ensures field == FieldAt(old(rest)) && rest == AfterField(old(rest))
    {
      var n := DecodeUint16();
      field := Read(n);
    }
  }
}
