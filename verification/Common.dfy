/** A value or nothing; also what a C++ `std::optional` or a null pointer stands for. */
module Options {
  datatype Option<+T> = None | Some(value: T) {
    predicate IsFailure() { None? }

    function PropagateFailure<U>(): Option<U>
      requires None?
    {
      None
    }

    function Extract(): T
      requires Some?
    {
      value
    }
  }
}

/** Unsigned integers of the widths the sources use, and their little-endian byte forms. */
module Words {
  type Byte = x: int | 0 <= x < 0x100
  type U32 = x: int | 0 <= x < 0x1_0000_0000
  type U64 = x: int | 0 <= x < 0x1_0000_0000_0000_0000
  type I64 = x: int | -0x8000_0000_0000_0000 <= x < 0x8000_0000_0000_0000

  function LeU32(v: U32): (r: seq<Byte>)
    ensures |r| == 4
  {
    [v % 0x100, v / 0x100 % 0x100, v / 0x1_0000 % 0x100, v / 0x100_0000]
  }

  function LeU64(v: U64): (r: seq<Byte>)
    ensures |r| == 8
  {
    LeU32(v % 0x1_0000_0000) + LeU32(v / 0x1_0000_0000)
  }

  function U32At(s: seq<Byte>, at: nat): U32
    requires at + 4 <= |s|
  {
    var b0: int, b1: int, b2: int, b3: int := s[at], s[at + 1], s[at + 2], s[at + 3];
    b0 + 0x100 * b1 + 0x1_0000 * b2 + 0x100_0000 * b3
  }

  function U64At(s: seq<Byte>, at: nat): U64
    requires at + 8 <= |s|
  {
    var low: int, high: int := U32At(s, at), U32At(s, at + 4);
    low + 0x1_0000_0000 * high
  }

  lemma Digits(b0: Byte, b1: Byte, b2: Byte, b3: Byte, v: int)
    requires v == b0 + 0x100 * b1 + 0x1_0000 * b2 + 0x100_0000 * b3
    ensures v % 0x100 == b0 && v / 0x100 % 0x100 == b1 && v / 0x1_0000 % 0x100 == b2 && v / 0x100_0000 == b3
  {
    assert v / 0x100 == b1 + 0x100 * b2 + 0x1_0000 * b3;
    assert v / 0x1_0000 == b2 + 0x100 * b3;
  }

  lemma LeU32Back(v: U32)
    ensures U32At(LeU32(v), 0) == v
  {
    var high := v / 0x1_0000;
    assert v == high * 0x1_0000 + v / 0x100 % 0x100 * 0x100 + v % 0x100;
    assert high == v / 0x100_0000 * 0x100 + high % 0x100;
  }

  lemma U32Back(s: seq<Byte>)
    requires |s| == 4
    ensures LeU32(U32At(s, 0)) == s
  {
    Digits(s[0], s[1], s[2], s[3], U32At(s, 0));
  }

  lemma LeU32Inverse(v: U32, s: seq<Byte>)
    requires |s| == 4
    ensures U32At(LeU32(v), 0) == v && LeU32(U32At(s, 0)) == s
  {
    hide LeU32, U32At;
    LeU32Back(v);
    U32Back(s);
  }

  // The least significant byte comes first.
  lemma LeU32Bytes(v: U32)
    ensures var s := LeU32(v);
      var b0: int, b1: int, b2: int, b3: int := s[0], s[1], s[2], s[3];
      v == b0 + 0x100 * b1 + 0x1_0000 * b2 + 0x100_0000 * b3
  {
    LeU32Inverse(v, LeU32(v));
  }

  lemma LeU64Halves(v: U64)
    ensures LeU64(v)[..4] == LeU32(v % 0x1_0000_0000) && LeU64(v)[4..] == LeU32(v / 0x1_0000_0000)
  {
  }

  lemma LeU64Inverse(v: U64, s: seq<Byte>)
    requires |s| == 8
    ensures U64At(LeU64(v), 0) == v && LeU64(U64At(s, 0)) == s
  {
    hide LeU32;
    LeU32Inverse(v % 0x1_0000_0000, s[..4]);
    LeU32Inverse(v / 0x1_0000_0000, s[4..]);
    var low, high := LeU32(v % 0x1_0000_0000), LeU32(v / 0x1_0000_0000);
    assert U32At(low + high, 0) == U32At(low, 0);
    assert U32At(low + high, 4) == U32At(high, 0);
    assert U32At(s, 0) == U32At(s[..4], 0) && U32At(s, 4) == U32At(s[4..], 0);
    assert s == s[..4] + s[4..];
  }

  // `qint64(u)` of an unsigned 64-bit value, and `quint64(i)` back.
  function ToSigned(u: U64): I64 { if u < 0x8000_0000_0000_0000 then u else u - 0x1_0000_0000_0000_0000 }

  function ToUnsigned(i: I64): U64 { i % 0x1_0000_0000_0000_0000 }
}
