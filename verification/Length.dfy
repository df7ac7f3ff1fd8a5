/** The variable-length Remaining Length field. */
module Length {
  import opened Bytes

  /** Base 128, least significant digit first, bit 7 set on every digit but the last. */
  function Digits(n: nat): (d: seq<Byte>)
    ensures |d| >= 1
  {
    if n < 128 then [n] else [128 + n % 128] + Digits(n / 128)
  }

  lemma ContinuationBit(digit: Byte)
    requires digit < 128
    ensures BitOr(digit, 0x80) == digit + 128
  {
    SevenBitPowers();
    BitOrDisjoint(1, 7, digit);
  }

  method EncodeLength(length: nat) returns (encLength: seq<Byte>)
    ensures encLength == Digits(length)
  {
    encLength := [];
    var left := length;
    while true
      invariant encLength + Digits(left) == Digits(length)
      decreases left
    {
      var digit: Byte := left % 128;
      ghost var was := left;
      left := left / 128;
      if left > 0 {
        ContinuationBit(digit);
        digit := BitOr(digit, 0x80);
        assert Digits(was) == [digit] + Digits(left);
      }
      encLength := encLength + [digit];
      if left == 0 {
        break;
      }
    }
  }

  // ---------------------------------------------------------------------------
  // Decoding.

  datatype Decoded = Decoded(value: nat, rest: seq<Byte>)

  /** Some byte without the continuation bit lies ahead. */
  predicate Ends(s: seq<Byte>)
  {
    exists i :: 0 <= i < |s| && s[i] < 128
  }

  /** The decoding loop's accumulation of one digit. Go's shift by 32 or more gives 0. */
  function Accumulate(rLength: nat, digit: Byte, multiplier: nat): nat
  {
    BitOr(rLength, if multiplier < 32 then ShiftLeft(digit % 128, multiplier) % WORD else 0)
  }

  function LengthFrom(s: seq<Byte>, rLength: nat, multiplier: nat): Decoded
    requires Ends(s)
  {
    var sum := Accumulate(rLength, s[0], multiplier);
    if s[0] < 128 then Decoded(sum, s[1..])
    else
      assert Ends(s[1..]) by { var i :| 0 <= i < |s| && s[i] < 128; assert s[1..][i - 1] == s[i]; }
      LengthFrom(s[1..], sum, (multiplier + 7) % WORD)
  }

  /** At the end of the input the one-byte buffer keeps its old content, which is 0 only at first. */
  predicate LengthHalts(s: seq<Byte>)
  {
    s == [] || Ends(s)
  }

  function LengthAt(s: seq<Byte>): Decoded
    requires LengthHalts(s)
  {
    if s == [] then Decoded(0, []) else LengthFrom(s, 0, 0)
  }

  /** How far ahead the last digit lies. */
  ghost function Distance(s: seq<Byte>): nat
    requires Ends(s)
  {
    if s[0] < 128 then 0
    else
      assert Ends(s[1..]) by { var i :| 0 <= i < |s| && s[i] < 128; assert s[1..][i - 1] == s[i]; }
      1 + Distance(s[1..])
  }

  method DecodeLength(r: Reader) returns (length: nat)
    requires LengthHalts(r.rest)
    modifies r
    ensures Decoded(length, r.rest) == LengthAt(old(r.rest))
  {
    var rLength: nat, multiplier: nat := 0, 0;
    var digit: Byte := 0;
    ghost var empty := r.rest == [];
    while true
      invariant empty ==> r.rest == [] && rLength == 0 && digit == 0 && multiplier == 0
      invariant !empty ==> Ends(r.rest) && LengthFrom(r.rest, rLength, multiplier) == LengthAt(old(r.rest))
      decreases if empty then 0 else Distance(r.rest)
    {
      if r.rest != [] {
        digit, r.rest := r.rest[0], r.rest[1..];
      }
      rLength := Accumulate(rLength, digit, multiplier);
      if digit < 128 {
        break;
      }
      multiplier := (multiplier + 7) % WORD;
    }
    length := rLength;
  }

  // One turn of the decoding loop, for the inputs on which it never stops.
  datatype Turn = Turn(rest: seq<Byte>, digit: Byte, halted: bool)

  function Turned(t: Turn): Turn
  {
    if t.halted then t
    else
      var digit := if t.rest == [] then t.digit else t.rest[0];
      Turn(if t.rest == [] then [] else t.rest[1..], digit, digit < 128)
  }

  function Turns(t: Turn, n: nat): Turn
    decreases n
  {
    if n == 0 then t else Turns(Turned(t), n - 1)
  }

  lemma {:induction false} TurnsHalt(s: seq<Byte>, digit: Byte)
    requires Ends(s)
    ensures Turns(Turn(s, digit, false), Distance(s) + 1).halted
    decreases |s|
  {
    if s[0] >= 128 {
      TurnsHalt(s[1..], s[0]);
    }
  }

  lemma {:induction false} TurnsGoOn(t: Turn, n: nat)
    requires !t.halted && (forall b :: b in t.rest ==> b >= 128) && (t.rest == [] ==> t.digit >= 128)
    ensures !Turns(t, n).halted
    decreases n
  {
    if n > 0 {
      var t' := Turned(t);
      if t.rest != [] {
        assert t.rest[0] in t.rest;
        assert forall b :: b in t.rest[1..] ==> b in t.rest;
      }
      TurnsGoOn(t', n - 1);
    }
  }

  /** decodeLength stops exactly when the input is empty or a byte below 128 lies ahead. */
  lemma DecodeLengthHaltsExactly(s: seq<Byte>)
    ensures LengthHalts(s) <==> exists n: nat :: Turns(Turn(s, 0, false), n).halted
  {
    if s == [] {
      assert Turns(Turn(s, 0, false), 1).halted;
    } else if Ends(s) {
      TurnsHalt(s, 0);
    } else {
      forall n: nat ensures !Turns(Turn(s, 0, false), n).halted {
        TurnsGoOn(Turn(s, 0, false), n);
      }
    }
  }

  // ---------------------------------------------------------------------------
  // The round trip, modulo 2^32.

  /** One number in base 128: every digit but the last has its top bit set. */
  predicate Numeral(ds: seq<Byte>)
  {
    ds != [] && if |ds| == 1 then ds[0] < 128 else ds[0] >= 128 && Numeral(ds[1..])
  }

  /** The number, least significant digit first. */
  function Value(ds: seq<Byte>): nat
  {
    if ds == [] then 0 else ds[0] % 128 + 128 * Value(ds[1..])
  }

  lemma {:induction false} DigitsAreNumeral(n: nat)
    ensures Numeral(Digits(n)) && Value(Digits(n)) == n
    decreases n
  {
    if n >= 128 {
      DigitsAreNumeral(n / 128);
      assert Digits(n)[1..] == Digits(n / 128);
    }
  }

  lemma {:induction false} NumeralEnds(ds: seq<Byte>, rest: seq<Byte>)
    requires Numeral(ds)
    ensures Ends(ds + rest)
    decreases |ds|
  {
    var s := ds + rest;
    if |ds| == 1 {
      assert s[0] < 128;
    } else {
      NumeralEnds(ds[1..], rest);
      var t := ds[1..] + rest;
      var i :| 0 <= i < |t| && t[i] < 128;
      assert s[i + 1] == t[i];
    }
  }

  /** Where the first five digits go. */
  predicate FieldStart(k: nat)
  {
    k <= 28 && k % 7 == 0
  }

  /** A digit whose place lies below 2^32 is added. */
  lemma AccumulateLow(sum: nat, digit: Byte, k: nat)
    requires k <= 21 && sum < Pow2(k)
    ensures Accumulate(sum, digit, k) == sum + ShiftLeft(digit % 128, k) < Pow2(k + 7)
  {
    var d := digit % 128;
    SevenBitPowers();
    ShiftLeftBound(d, 7, k);
    Pow2Monotonic(k + 7, 28);
    WordRemainder(ShiftLeft(d, k), 0);
    BitOrDisjoint(d, k, sum);
  }

  lemma {:induction false} Pow2Monotonic(j: nat, k: nat)
    requires j <= k
    ensures Pow2(j) <= Pow2(k)
    decreases k - j
  {
    if j < k {
      Pow2Monotonic(j + 1, k);
    }
  }

  /** Of the fifth digit only four bits are left. */
  lemma AccumulateFifth(sum: nat, ds: seq<Byte>, k: nat)
    requires ds != [] && 21 < k && FieldStart(k) && sum < Pow2(k)
    ensures Accumulate(sum, ds[0], k) == sum + ShiftLeft(Value(ds) % 16, k)
  {
    var d := ds[0] % 128;
    FirstDigitModulo(ds);
    ShiftLeft28(d, k);
    BitOrDisjoint(d % 16, k, sum);
  }

  lemma FirstDigitModulo(ds: seq<Byte>)
    requires ds != []
    ensures Value(ds) % 128 == ds[0] % 128 && Value(ds) % 16 == ds[0] % 128 % 16
    ensures Value(ds) / 128 == Value(ds[1..])
  {
    LowDigit(ds[0] % 128, Value(ds[1..]));
  }

  lemma LowDigit(d: nat, m: nat)
    requires d < 128
    ensures (d + 128 * m) % 128 == d && (d + 128 * m) / 128 == m && (d + 128 * m) % 16 == d % 16
  {
    LowBits(d % 16, d / 16 + 8 * m);
  }

  lemma LowBits(r: nat, q: nat)
    requires r < 16
    ensures (r + 16 * q) % 16 == r
  {
  }

  /** One turn of the decoding loop over a number. */
  lemma LengthFromNumeral(ds: seq<Byte>, rest: seq<Byte>, sum: nat, multiplier: nat)
    requires Numeral(ds) && multiplier + 7 < WORD
    ensures Ends(ds + rest)
    ensures var next := Accumulate(sum, ds[0], multiplier);
      if |ds| == 1 then LengthFrom(ds + rest, sum, multiplier) == Decoded(next, rest)
      else Ends(ds[1..] + rest)
           && LengthFrom(ds + rest, sum, multiplier) == LengthFrom(ds[1..] + rest, next, multiplier + 7)
  {
    NumeralEnds(ds, rest);
    var s := ds + rest;
    if |ds| == 1 {
      assert s[1..] == rest;
    } else {
      NumeralEnds(ds[1..], rest);
      assert s[1..] == ds[1..] + rest;
    }
  }

  /** Digits past the fifth are shifted out. */
  lemma {:induction false} HighDigitsVanish(ds: seq<Byte>, rest: seq<Byte>, sum: nat, multiplier: nat)
    requires Numeral(ds) && 32 <= multiplier && multiplier + 7 * |ds| < WORD
    ensures Ends(ds + rest) && LengthFrom(ds + rest, sum, multiplier) == Decoded(sum, rest)
    decreases |ds|
  {
    LengthFromNumeral(ds, rest, sum, multiplier);
    if |ds| > 1 {
      HighDigitsVanish(ds[1..], rest, sum, multiplier + 7);
    }
  }

  lemma DecodeFromFifth(ds: seq<Byte>, rest: seq<Byte>, sum: nat, k: nat)
    requires Numeral(ds) && 21 < k && FieldStart(k) && sum < Pow2(k) && k + 7 * |ds| < WORD
    ensures Ends(ds + rest)
    ensures LengthFrom(ds + rest, sum, k) == Decoded(sum + ShiftLeft(Value(ds) % 16, k), rest)
  {
    LengthFromNumeral(ds, rest, sum, k);
    AccumulateFifth(sum, ds, k);
    if |ds| > 1 {
      HighDigitsVanish(ds[1..], rest, Accumulate(sum, ds[0], k), k + 7);
    }
  }

  /** sum plus n placed at bit k, modulo 2^32. */
  ghost predicate Places(value: nat, sum: nat, n: nat, k: nat)
  {
    value == (sum + ShiftLeft(n, k)) % WORD
  }

  lemma PlacesFifth(sum: nat, n: nat, k: nat)
    requires 21 < k && FieldStart(k) && sum < Pow2(k)
    ensures Places(sum + ShiftLeft(n % 16, k), sum, n, k)
  {
    SevenBitPowers();
    ShiftLeft28(n, k);
    TwoTo28(n % 16, k);
    WordRemainder(sum + ShiftLeft(n % 16, k), n / 16);
  }

  lemma PlacesNext(value: nat, sum: nat, n: nat, k: nat)
    requires Places(value, sum + ShiftLeft(n % 128, k), n / 128, k + 7)
    ensures Places(value, sum, n, k)
  {
    ShiftLeftAdds(n % 128, 128 * (n / 128), k);
    ShiftLeftBy7(n / 128, k);
    assert n % 128 + 128 * (n / 128) == n;
  }

  lemma PlacesLast(sum: nat, n: nat, k: nat)
    requires n < 128 && k <= 21 && sum < Pow2(k)
    ensures Places(sum + ShiftLeft(n, k), sum, n, k)
  {
    SevenBitPowers();
    ShiftLeftBound(n, 7, k);
    Pow2Monotonic(k + 7, 28);
    WordRemainder(sum + ShiftLeft(n, k), 0);
  }

  ghost predicate DecodesTo(ds: seq<Byte>, rest: seq<Byte>, sum: nat, k: nat)
  {
    Ends(ds + rest)
    && var d := LengthFrom(ds + rest, sum, k); d.rest == rest && Places(d.value, sum, Value(ds), k)
  }

  lemma DecodeLast(ds: seq<Byte>, rest: seq<Byte>, sum: nat, k: nat)
    requires Numeral(ds) && |ds| == 1 && k <= 21 && sum < Pow2(k)
    ensures DecodesTo(ds, rest, sum, k)
  {
    var n := ds[0];
    assert n % 128 == n == Value(ds);
    LengthFromNumeral(ds, rest, sum, k);
    AccumulateLow(sum, n, k);
    PlacesLast(sum, n, k);
    assert LengthFrom(ds + rest, sum, k) == Decoded(sum + ShiftLeft(n, k), rest);
  }

  lemma DecodeMore(ds: seq<Byte>, rest: seq<Byte>, sum: nat, k: nat, next: nat)
    requires Numeral(ds) && |ds| > 1 && k <= 21 && sum < Pow2(k) && next == Accumulate(sum, ds[0], k)
    requires DecodesTo(ds[1..], rest, next, k + 7)
    ensures DecodesTo(ds, rest, sum, k)
  {
    LengthFromNumeral(ds, rest, sum, k);
    FirstDigitModulo(ds);
    AccumulateLow(sum, ds[0], k);
    PlacesNext(LengthFrom(ds[1..] + rest, next, k + 7).value, sum, Value(ds), k);
  }

  lemma DecodeFifth(ds: seq<Byte>, rest: seq<Byte>, sum: nat, k: nat)
    requires Numeral(ds) && 21 < k && FieldStart(k) && sum < Pow2(k) && k + 7 * |ds| < WORD
    ensures DecodesTo(ds, rest, sum, k)
  {
    DecodeFromFifth(ds, rest, sum, k);
    PlacesFifth(sum, Value(ds), k);
  }

  lemma {:induction false} DecodeFromDigit(ds: seq<Byte>, rest: seq<Byte>, sum: nat, k: nat)
    requires Numeral(ds) && FieldStart(k) && sum < Pow2(k) && k + 7 * |ds| < WORD
    ensures DecodesTo(ds, rest, sum, k)
    decreases |ds|
  {
    if k > 21 {
      DecodeFifth(ds, rest, sum, k);
    } else if |ds| == 1 {
      DecodeLast(ds, rest, sum, k);
    } else {
      var next := Accumulate(sum, ds[0], k);
      AccumulateLow(sum, ds[0], k);
      DecodeFromDigit(ds[1..], rest, next, k + 7);
      DecodeMore(ds, rest, sum, k, next);
    }
  }

  /** Whatever bytes a length is written in, encoded by the broker or not: the loop adds up its digits modulo 2^32
      and takes no byte more. */
  lemma LengthMeaning(ds: seq<Byte>, rest: seq<Byte>)
    requires Numeral(ds) && 7 * |ds| < WORD
    ensures LengthHalts(ds + rest) && LengthAt(ds + rest) == Decoded(Value(ds) % WORD, rest)
  {
    DecodeFromDigit(ds, rest, 0, 0);
  }

  lemma {:induction false} DigitsCount(n: nat, k: nat)
    requires k >= 1
    ensures |Digits(n)| <= k <==> n < Pow2(7 * k)
    decreases n
  {
    assert Pow2(7) == 128;
    if k > 1 {
      var j := 7 * (k - 1);
      Pow2Times128(j);
      Pow2Monotonic(7, j + 7);
      if n >= 128 {
        DigitsCount(n / 128, k - 1);
      }
    }
  }

  /** For every Go int, encoding then decoding yields the length modulo 2^32 and consumes exactly the encoding. */
  lemma LengthRoundTrip(n: nat, rest: seq<Byte>)
    requires n < Pow2(63)
    ensures LengthHalts(Digits(n) + rest) && LengthAt(Digits(n) + rest) == Decoded(n % WORD, rest)
  {
    DigitsCount(n, 9);
    DigitsAreNumeral(n);
    LengthMeaning(Digits(n), rest);
  }

  /** Below 2^32, then, decoding is the inverse of encoding. */
  lemma LengthIdentity(n: nat, rest: seq<Byte>)
    requires n < WORD
    ensures LengthHalts(Digits(n) + rest) && LengthAt(Digits(n) + rest) == Decoded(n, rest)
  {
    SevenBitPowers();
    Pow2Monotonic(35, 63);
    LengthRoundTrip(n, rest);
    WordRemainder(n, 0);
  }

  /** One to four bytes, the standard's limit (section 2.2.3 of MQTT 3.1.1), up to 268435455 exactly. */
  lemma FourBytesExactly(n: nat)
    ensures 1 <= |Digits(n)| <= 4 <==> n <= 268435455
  {
    DigitsCount(n, 4);
    SevenBitPowers();
  }

  lemma {:induction false} ValueBound(s: seq<Byte>, sum: nat, k: nat)
    requires Ends(s) && LengthFrom(s, sum, k).rest == [] && k + 7 * |s| <= 28 && sum < Pow2(k)
    ensures LengthFrom(s, sum, k).value < Pow2(k + 7 * |s|)
    decreases |s|
  {
    var next := Accumulate(sum, s[0], k);
    AccumulateLow(sum, s[0], k);
    if s[0] >= 128 {
      LengthFromTail(s, sum, k);
      ValueBound(s[1..], next, k + 7);
    } else {
      assert |s| == 1;
    }
  }

  lemma LengthFromTail(s: seq<Byte>, sum: nat, k: nat)
    requires Ends(s) && s[0] >= 128 && k + 7 < WORD
    ensures Ends(s[1..]) && LengthFrom(s, sum, k) == LengthFrom(s[1..], Accumulate(sum, s[0], k), k + 7)
  {
    var i :| 0 <= i < |s| && s[i] < 128;
    assert s[1..][i - 1] == s[i];
  }

  /** No byte string that decodes to n is shorter than the encoding of n. */
  lemma EncodingIsMinimal(s: seq<Byte>, n: nat)
    requires n < WORD && Ends(s) && LengthAt(s) == Decoded(n, [])
    ensures |Digits(n)| <= |s|
  {
    SevenBitPowers();
    DigitsCount(n, 5);
    if |s| <= 4 {
      ValueBound(s, 0, 0);
      DigitsCount(n, |s|);
    }
  }
}
