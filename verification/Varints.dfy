/** Base 128 varints as pkg/command/commandpb/command.pb.go writes and reads them.  Values are unsigned 64-bit numbers
    written as integers; every wrap-around is explicit. */
module Varints {
  type Byte = x: int | 0 <= x < 256

  type Bytes = seq<Byte>

  const TWO63 := 0x8000_0000_0000_0000
  const TWO64 := 0x1_0000_0000_0000_0000

  type u64 = x: int | 0 <= x < TWO64

  /** The encoding: seven bits a byte, lowest first, the top bit set on all but the last. */
  function Varint(v: nat): (s: Bytes)
    ensures |s| >= 1
  {
    if v < 128 then [v] else [v % 128 + 128] + Varint(v / 128)
  }

  // ----- sovCommand

  /** math_bits.Len64. */
  function Len(v: nat): nat {
    if v == 0 then 0 else 1 + Len(v / 2)
  }

  /** x | 1. */
  function OrOne(v: nat): nat {
    if v % 2 == 0 then v + 1 else v
  }

  function Sov(v: nat): nat {
    (Len(OrOne(v)) + 6) / 7
  }

  lemma LenOrOne(v: nat)
    requires v > 0
    ensures Len(OrOne(v)) == Len(v)
  {
  }

  lemma LenStep(v: nat)
    requires v >= 128
    ensures Len(v) == Len(v / 128) + 7
  {
    var a := v / 2;
    var b := a / 2;
    var c := b / 2;
    var d := c / 2;
    var e := d / 2;
    var g := e / 2;
    assert Len(v) == 1 + Len(a) && Len(a) == 1 + Len(b) && Len(b) == 1 + Len(c);
    assert Len(c) == 1 + Len(d) && Len(d) == 1 + Len(e) && Len(e) == 1 + Len(g);
    assert Len(g) == 1 + Len(g / 2) && g / 2 == v / 128;
  }

  lemma LenSmall(v: nat)
    requires 0 < v < 128
    ensures 1 <= Len(v) <= 7
  {
  }

  /** sovCommand is the length of the encoding. */
  lemma {:induction false} SovIsLength(v: nat)
    ensures Sov(v) == |Varint(v)|
  {
    if v < 128 {
      LenSmall(OrOne(v));
    } else {
      SovIsLength(v / 128);
      LenStep(v);
      LenOrOne(v);
      LenOrOne(v / 128);
    }
  }

  lemma {:induction false} VarintLength(v: nat, k: nat)
    requires v < Pow(7 * k) && k >= 1
    ensures |Varint(v)| <= k
    decreases k
  {
    if v >= 128 {
      PowAdd(7 * (k - 1), 7);
      assert Pow(7) == 128;
      if k == 1 {
        assert false;
      }
      assert v / 128 < Pow(7 * (k - 1));
      VarintLength(v / 128, k - 1);
    }
  }

  /** One to ten bytes. */
  lemma SovBounds(v: u64)
    ensures 1 <= Sov(v) <= 10
  {
    SovIsLength(v);
    PowAdd(64, 6);
    PowValues();
    VarintLength(v, 10);
  }

  function Pow(k: nat): (p: nat)
    ensures p > 0
  {
    if k == 0 then 1 else 2 * Pow(k - 1)
  }

  lemma {:induction false} PowAdd(a: nat, b: nat)
    ensures Pow(a + b) == Pow(a) * Pow(b)
    decreases b
  {
    if b > 0 {
      PowAdd(a, b - 1);
      assert Pow(a + b) == 2 * Pow(a + b - 1);
    }
  }

  lemma PowValues()
    ensures Pow(7) == 128 && Pow(63) == TWO63 && Pow(64) == TWO64
  {
    assert Pow(7) == 128;
    assert Pow(8) == 256;
    PowAdd(8, 8);
    PowAdd(16, 16);
    PowAdd(32, 32);
    assert Pow(64) == 2 * Pow(63);
  }

  // ----- the decode loop

  datatype Error = IntOverflow | UnexpectedEOF | InvalidLength | EndGroup | IllegalTag | WrongWireType | UnexpectedEndOfGroup | IllegalWireType

  datatype Decoded = Value(v: u64, next: nat) | Failed(error: Error)

  /** The loop at shift, having read acc: the bits below shift.  Bits shifted beyond 64 are lost. */
  function DecodeFrom(data: Bytes, i: nat, shift: nat, acc: u64): (r: Decoded)
    requires i <= |data|
    ensures r.Value? ==> i < r.next <= |data|
    decreases 70 - shift
  {
    if shift >= 64 then Failed(IntOverflow)
    else if i >= |data| then Failed(UnexpectedEOF)
    else
      var b := data[i];
      var wire := (acc + b % 128 * Pow(shift)) % TWO64;
      if b < 128 then Value(wire, i + 1) else DecodeFrom(data, i + 1, shift + 7, wire)
  }

  function Decode(data: Bytes, i: nat): (r: Decoded)
    requires i <= |data|
    ensures r.Value? ==> i < r.next <= |data|
  {
    DecodeFrom(data, i, 0, 0)
  }

  lemma SplitByte(v: nat, p: nat)
    ensures v % 128 * p + v / 128 * (128 * p) == v * p
  {
  }

  lemma PowSeven(shift: nat)
    ensures Pow(shift + 7) == 128 * Pow(shift)
  {
    PowAdd(shift, 7);
    assert Pow(7) == 128;
  }

  lemma {:induction false} DecodeVarint(data: Bytes, i: nat, shift: nat, acc: u64, v: nat)
    requires i + |Varint(v)| <= |data| && data[i..i + |Varint(v)|] == Varint(v)
    requires acc < Pow(shift) && v * Pow(shift) + acc < TWO64 && shift < 64
    ensures DecodeFrom(data, i, shift, acc) == Value(acc + v * Pow(shift), i + |Varint(v)|)
    decreases v
  {
    FirstByte(data, i, v);
    hide Pow, Varint, DecodeFrom;
    if v < 128 {
      DecodeStep(data, i, shift, acc, v);
    } else {
      var next := MoreBytes(data, i, shift, acc, v);
      DecodeVarint(data, i + 1, shift + 7, next, v / 128);
    }
  }

  /** A byte that is not the last leaves a smaller value to read. */
  lemma MoreBytes(data: Bytes, i: nat, shift: nat, acc: u64, v: nat) returns (next: u64)
    requires i < |data| && 128 <= data[i] && data[i] % 128 == v % 128 && v >= 128
    requires acc < Pow(shift) && v * Pow(shift) + acc < TWO64 && shift < 64
    ensures DecodeFrom(data, i, shift, acc) == DecodeFrom(data, i + 1, shift + 7, next)
    ensures shift + 7 < 64 && next < Pow(shift + 7) && v / 128 * Pow(shift + 7) + next == v * Pow(shift) + acc
  {
    hide Pow, DecodeFrom;
    var low := v % 128 * Pow(shift);
    SplitByte(v, Pow(shift));
    PowSeven(shift);
    assert 0 <= low && 0 <= v / 128 * Pow(shift + 7);
    BelowNext(acc, v % 128, Pow(shift));
    StillBelow(v, shift);
    DecodeStep(data, i, shift, acc, v % 128);
    next := acc + low;
  }

  /** The first byte of an encoding, and where the rest stands. */
  lemma FirstByte(data: Bytes, i: nat, v: nat)
    requires i + |Varint(v)| <= |data| && data[i..i + |Varint(v)|] == Varint(v)
    ensures data[i] % 128 == v % 128 && (data[i] < 128 <==> v < 128) && (v < 128 ==> |Varint(v)| == 1)
    ensures v >= 128 ==>
      var rest := Varint(v / 128);
      |Varint(v)| == 1 + |rest| && data[i + 1..i + 1 + |rest|] == rest
  {
    assert data[i] == data[i..i + |Varint(v)|][0] == Varint(v)[0];
    if v >= 128 {
      var rest := Varint(v / 128);
      assert Varint(v) == [v % 128 + 128] + rest;
      assert data[i + 1..i + 1 + |rest|] == data[i..i + |Varint(v)|][1..] == rest;
    }
  }

  /** One turn of the loop that loses no bits. */
  lemma DecodeStep(data: Bytes, i: nat, shift: nat, acc: u64, d: nat)
    requires i < |data| && shift < 64 && data[i] % 128 == d && acc + d * Pow(shift) < TWO64
    ensures DecodeFrom(data, i, shift, acc) ==
      if data[i] < 128 then Value(acc + d * Pow(shift), i + 1) else DecodeFrom(data, i + 1, shift + 7, acc + d * Pow(shift))
  {
  }

  lemma BelowNext(acc: nat, d: nat, p: nat)
    requires acc < p && d < 128
    ensures acc + d * p < 128 * p
  {
  }

  /** A value of more than one byte has not used up the 64 bits. */
  lemma StillBelow(v: nat, shift: nat)
    requires v >= 128 && v * Pow(shift) < TWO64
    ensures shift + 7 < 64
  {
    if shift >= 57 {
      PowAdd(57, shift - 57);
      PowAdd(57, 7);
      PowValues();
      assert Pow(shift) >= Pow(57) by {
        assert Pow(shift - 57) >= 1;
        Grows(Pow(57), Pow(shift - 57));
      }
      assert 128 * Pow(57) == TWO64;
      assert v * Pow(shift) >= 128 * Pow(57) by {
        Product(v, 128, Pow(shift), Pow(57));
      }
    }
  }

  lemma Grows(a: nat, b: nat)
    requires b >= 1
    ensures a * b >= a
  {
  }

  lemma Product(a: nat, b: nat, c: nat, d: nat)
    requires a >= b && c >= d
    ensures a * c >= b * d
  {
  }

  /** Every 64-bit value is read back, wherever it stands. */
  lemma RoundTrip(pre: Bytes, v: u64, post: Bytes)
    ensures Decode(pre + Varint(v) + post, |pre|) == Value(v, |pre| + |Varint(v)|)
  {
    var data := pre + Varint(v) + post;
    assert data[|pre|..|pre| + |Varint(v)|] == Varint(v);
    DecodeVarint(data, |pre|, 0, 0, v);
  }

  // ----- encodeVarintCommand, which fills the buffer in front of offset

  method Encode(a: array<Byte>, offset: nat, v: u64) returns (base: nat)
    requires Sov(v) <= offset <= a.Length
    modifies a
    ensures base == offset - Sov(v) && a[..] == old(a[..base]) + Varint(v) + old(a[offset..])
  {
    SovIsLength(v);
    base := offset - Sov(v);
    var i, w := base, v;
    ghost var was := a[..];
    ghost var done: Bytes := [];
    assert was == was[..base] + done + was[i..];
    while w >= 128
      invariant base <= i < offset && w >= 0 && |done| == i - base
      invariant done + Varint(w) == Varint(v) && i + |Varint(w)| == offset
      invariant a[..] == was[..base] + done + was[i..]
      decreases w
    {
      More(was, base, done, i, w % 128 + 128);
      NextByte(done, w, v);
      hide Varint;
      a[i] := w % 128 + 128;
      done := done + [w % 128 + 128];
      w := w / 128;
      i := i + 1;
    }
    More(was, base, done, i, w);
    a[i] := w;
  }

  /** One byte more behind what has been written. */
  lemma More(was: Bytes, base: nat, done: Bytes, i: nat, b: Byte)
    requires base <= i < |was| && |done| == i - base
    ensures (was[..base] + done + was[i..])[i := b] == was[..base] + (done + [b]) + was[i + 1..]
  {
  }

  lemma NextByte(done: Bytes, w: nat, v: nat)
    requires w >= 128 && done + Varint(w) == Varint(v)
    ensures done + [w % 128 + 128] + Varint(w / 128) == Varint(v) && |Varint(w)| == 1 + |Varint(w / 128)|
  {
  }

  /** The decode loop as a loop. */
  method ReadVarint(data: Bytes, start: nat) returns (r: Decoded)
    requires start <= |data|
    ensures r == Decode(data, start)
  {
    var shift: nat, i: nat, wire: u64 := 0, start, 0;
    while true
      invariant i <= |data|
      invariant Decode(data, start) == DecodeFrom(data, i, shift, wire)
      decreases 70 - shift
    {
      if shift >= 64 {
        return Failed(IntOverflow);
      }
      if i >= |data| {
        return Failed(UnexpectedEOF);
      }
      var b := data[i];
      i := i + 1;
      wire := (wire + b % 128 * Pow(shift)) % TWO64;
      if b < 128 {
        return Value(wire, i);
      }
      shift := shift + 7;
    }
  }
}
