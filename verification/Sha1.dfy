/** SHA-1 as FIPS 180-4 defines it: the schedule first, then eighty rounds, over the padded message. */
module Fips180 {

  datatype Chain = Chain(a: bv32, b: bv32, c: bv32, d: bv32, e: bv32)

  const INITIAL := Chain(0x67452301, 0xefcdab89, 0x98badcfe, 0x10325476, 0xc3d2e1f0)

  // The three rotations the algorithm uses; constant shift amounts stay within bit-vector arithmetic.
  function RotL(x: bv32, n: nat): bv32
    requires n == 1 || n == 5 || n == 30
  {
    if n == 1 then (x << 1) | (x >> 31) else if n == 5 then (x << 5) | (x >> 27) else (x << 30) | (x >> 2)
  }

  // Section 4.1.1.
  function Ch(x: bv32, y: bv32, z: bv32): bv32 { (x & y) ^ (!x & z) }
  function Parity(x: bv32, y: bv32, z: bv32): bv32 { x ^ y ^ z }
  function Maj(x: bv32, y: bv32, z: bv32): bv32 { (x & y) ^ (x & z) ^ (y & z) }

  function F(t: nat, x: bv32, y: bv32, z: bv32): bv32 {
    if t < 20 then Ch(x, y, z) else if t < 40 then Parity(x, y, z) else if t < 60 then Maj(x, y, z) else Parity(x, y, z)
  }

  // Section 4.2.1.
  function K(t: nat): bv32 {
    if t < 20 then 0x5a827999 else if t < 40 then 0x6ed9eba1 else if t < 60 then 0x8f1bbcdc else 0xca62c1d6
  }

  // Section 6.1.2, step 1.
  function Schedule(block: seq<bv32>, t: nat): bv32
    requires |block| == 16
  {
    if t < 16 then block[t]
    else RotL(Schedule(block, t - 3) ^ Schedule(block, t - 8) ^ Schedule(block, t - 14) ^ Schedule(block, t - 16), 1)
  }

  function Mix(a: bv32, f: bv32, e: bv32, k: bv32, w: bv32): bv32 { RotL(a, 5) + f + e + k + w }

  function Step(v: Chain, f: bv32, k: bv32, w: bv32): Chain {
    Chain(Mix(v.a, f, v.e, k, w), v.a, RotL(v.b, 30), v.c, v.d)
  }

  function Round(v: Chain, t: nat, w: bv32): Chain {
    Step(v, F(t, v.b, v.c, v.d), K(t), w)
  }

  // Section 6.1.2, steps 2 and 3: the working variables after the first `t` rounds.
  function Rounds(h: Chain, block: seq<bv32>, t: nat): Chain
    requires |block| == 16
  {
    if t == 0 then h else Round(Rounds(h, block, t - 1), t - 1, Schedule(block, t - 1))
  }

  // Section 6.1.2, step 4.
  function Compress(h: Chain, block: seq<bv32>): Chain
    requires |block| == 16
  {
    Sum(h, Rounds(h, block, 80))
  }

  function Sum(h: Chain, v: Chain): Chain {
    Chain(Plus(h.a, v.a), Plus(h.b, v.b), Plus(h.c, v.c), Plus(h.d, v.d), Plus(h.e, v.e))
  }

  function Plus(x: bv32, y: bv32): bv32 { x + y }

  function Word(b0: bv8, b1: bv8, b2: bv8, b3: bv8): bv32 {
    ((b0 as bv32) << 24) | ((b1 as bv32) << 16) | ((b2 as bv32) << 8) | (b3 as bv32)
  }

  function WordAt(bytes: seq<bv8>, i: nat): bv32
    requires 4 * i + 4 <= |bytes|
  {
    Word(bytes[4 * i], bytes[4 * i + 1], bytes[4 * i + 2], bytes[4 * i + 3])
  }

  // Section 5.2.1: block number `n` as sixteen big-endian words.
  function Block(bytes: seq<bv8>, n: nat): (block: seq<bv32>)
    requires 64 * n + 64 <= |bytes|
    ensures |block| == 16
  {
    seq(16, i requires 0 <= i < 16 => WordAt(bytes, 16 * n + i))
  }

  // Section 6.1.2: the hash value after the first `n` blocks.
  function HashBlocks(bytes: seq<bv8>, n: nat): Chain
    requires 64 * n <= |bytes|
  {
    if n == 0 then INITIAL else Compress(HashBlocks(bytes, n - 1), Block(bytes, n - 1))
  }

  function WordBytes(w: bv32): (r: seq<bv8>)
    ensures |r| == 4
  {
    [((w >> 24) & 0xFF) as bv8, ((w >> 16) & 0xFF) as bv8, ((w >> 8) & 0xFF) as bv8, (w & 0xFF) as bv8]
  }

  function ZeroCount(n: nat): (z: nat)
    ensures z < 64 && (n + 1 + z) % 64 == 56
  {
    (119 - n % 64) % 64
  }

  // The length in bits, 8n, as two 32-bit words.
  function LengthHigh(n: nat): bv32
    requires n < 0x2000_0000_0000_0000
  {
    (8 * n / 0x1_0000_0000) as bv32
  }

  function LengthLow(n: nat): bv32 { (8 * n % 0x1_0000_0000) as bv32 }

  function PadWith(m: seq<bv8>, high: bv32, low: bv32): (p: seq<bv8>)
    ensures |p| % 64 == 0 && |p| == |m| + 1 + ZeroCount(|m|) + 8
  {
    m + [0x80] + seq(ZeroCount(|m|), _ => 0) + WordBytes(high) + WordBytes(low)
  }

  // Section 5.1.1: one bit, zeros up to 448 modulo 512, then the length in bits as one 64-bit block.
  function Pad(m: seq<bv8>): (p: seq<bv8>)
    requires |m| < 0x2000_0000_0000_0000
    ensures |p| % 64 == 0 && |p| == |m| + 1 + ZeroCount(|m|) + 8
  {
    PadWith(m, LengthHigh(|m|), LengthLow(|m|))
  }

  function ChainBytes(h: Chain): (r: seq<bv8>)
    ensures |r| == 20
  {
    WordBytes(h.a) + WordBytes(h.b) + WordBytes(h.c) + WordBytes(h.d) + WordBytes(h.e)
  }

  function DigestOf(padded: seq<bv8>): (r: seq<bv8>)
    requires |padded| % 64 == 0
    ensures |r| == 20
  {
    ChainBytes(HashBlocks(padded, |padded| / 64))
  }

  function Sha1(m: seq<bv8>): (r: seq<bv8>)
    requires |m| < 0x2000_0000_0000_0000
    ensures |r| == 20
  {
    DigestOf(Pad(m))
  }
}

/** The packer's SHA-1: schedule words made inside the rounds, the tail assembled in the same word array. */
module PackerSha1 {
  import opened Fips180

  // What the code appends: the high half of the length field stays zero, whatever the length.
  function PackedPad(m: seq<bv8>): (p: seq<bv8>)
    requires |m| < 0x1_0000_0000
    ensures |p| % 64 == 0 && |p| == |m| + 1 + ZeroCount(|m|) + 8
  {
    PadWith(m, 0, LengthLow(|m|))
  }

  lemma HighWordZero(n: nat)
    requires n < 0x1_0000_0000
    ensures LengthHigh(n) == 0 <==> n < 0x2000_0000
  {
    var h := 8 * n / 0x1_0000_0000;
    assert h == 0 || h == 1 || h == 2 || h == 3 || h == 4 || h == 5 || h == 6 || h == 7;
  }

  lemma WordBytesInverse(w: bv32)
    ensures var s := WordBytes(w); Word(s[0], s[1], s[2], s[3]) == w
  {
  }

  // The packer pads as the standard does exactly for messages below 2^29 bytes.
  lemma PaddingIsStandard(m: seq<bv8>)
    requires |m| < 0x1_0000_0000
    ensures PackedPad(m) == Pad(m) <==> |m| < 0x2000_0000
  {
    HighWordZero(|m|);
    var p, q := PackedPad(m), Pad(m);
    var at := |m| + 1 + ZeroCount(|m|);
    assert p[at..at + 4] == WordBytes(0);
    assert q[at..at + 4] == WordBytes(LengthHigh(|m|));
    if p == q {
      WordBytesInverse(0);
      WordBytesInverse(LengthHigh(|m|));
    }
  }

  lemma OrIsXor(b: bv32, c: bv32, d: bv32)
    ensures (b & c) | (!b & d) == (b & c) ^ (!b & d)
    ensures (b & c) | (b & d) | (c & d) == (b & c) ^ (b & d) ^ (c & d)
  {
  }

  // The code combines with "or" where the standard combines with "exclusive or".
  method Choose(b: bv32, c: bv32, d: bv32) returns (f: bv32)
    ensures f == Ch(b, c, d)
  {
    OrIsXor(b, c, d);
    f := (b & c) | (!b & d);
  }

  method Majority(b: bv32, c: bv32, d: bv32) returns (f: bv32)
    ensures f == Maj(b, c, d)
  {
    OrIsXor(b, c, d);
    f := (b & c) | (b & d) | (c & d);
  }

  function ChainOf(sha: seq<bv32>): Chain
    requires |sha| == 5
  {
    Chain(sha[0], sha[1], sha[2], sha[3], sha[4])
  }

  ghost predicate Scheduled(temp: seq<bv32>, block: seq<bv32>, n: nat)
    requires |block| == 16 && n <= |temp|
  {
    forall i :: 0 <= i < n ==> temp[i] == Schedule(block, i)
  }

  method ShiftSwap(a: bv32, b: bv32, c: bv32, d: bv32, e: bv32, f: bv32, v: bv32, w: bv32)
    returns (a': bv32, b': bv32, c': bv32, d': bv32, e': bv32)
    ensures Chain(a', b', c', d', e') == Step(Chain(a, b, c, d, e), f, v, w)
  {
    var t := RotL(a, 5) + f + e + v + w;
    e' := d;
    d' := c;
    c' := RotL(b, 30);
    b' := a;
    a' := t;
  }

  method ScheduleWord(temp: array<bv32>, ghost block: seq<bv32>, round: nat)
    requires temp.Length == 80 && |block| == 16 && 16 <= round < 80
    requires Scheduled(temp[..], block, round)
    modifies temp
    ensures Scheduled(temp[..], block, round + 1)
  {
    temp[round] := RotL(temp[round - 3] ^ temp[round - 8] ^ temp[round - 14] ^ temp[round - 16], 1);
  }

  method AddTo(sha: array<bv32>, a: bv32, b: bv32, c: bv32, d: bv32, e: bv32)
    requires sha.Length == 5
    modifies sha
    ensures ChainOf(sha[..]) == Sum(ChainOf(old(sha[..])), Chain(a, b, c, d, e))
  {
    sha[0] := Plus(sha[0], a);
    sha[1] := Plus(sha[1], b);
    sha[2] := Plus(sha[2], c);
    sha[3] := Plus(sha[3], d);
    sha[4] := Plus(sha[4], e);
  }

  method RunRounds(sha: array<bv32>, temp: array<bv32>) returns (a: bv32, b: bv32, c: bv32, d: bv32, e: bv32)
    requires sha.Length == 5 && temp.Length == 80 && sha != temp
    modifies temp
    ensures Chain(a, b, c, d, e) == Rounds(ChainOf(sha[..]), old(temp[..16]), 80)
  {
    ghost var h, block := ChainOf(sha[..]), temp[..16];
    a, b, c, d, e := sha[0], sha[1], sha[2], sha[3], sha[4];
    var round := 0;
    while round < 16
      invariant 0 <= round <= 16 && temp[..16] == block && Chain(a, b, c, d, e) == Rounds(h, block, round)
      modifies {}
    {
      assert temp[round] == block[round];
      var f := Choose(b, c, d);
      a, b, c, d, e := ShiftSwap(a, b, c, d, e, f, 0x5a827999, temp[round]);
      round := round + 1;
    }
    while round < 20
      invariant 16 <= round <= 20 && Scheduled(temp[..], block, round)
      invariant Chain(a, b, c, d, e) == Rounds(h, block, round)
      modifies temp
    {
      ScheduleWord(temp, block, round);
      var f := Choose(b, c, d);
      a, b, c, d, e := ShiftSwap(a, b, c, d, e, f, 0x5a827999, temp[round]);
      round := round + 1;
    }
    while round < 40
      invariant 20 <= round <= 40 && Scheduled(temp[..], block, round)
      invariant Chain(a, b, c, d, e) == Rounds(h, block, round)
      modifies temp
    {
      ScheduleWord(temp, block, round);
      a, b, c, d, e := ShiftSwap(a, b, c, d, e, Parity(b, c, d), 0x6ed9eba1, temp[round]);
      round := round + 1;
    }
    while round < 60
      invariant 40 <= round <= 60 && Scheduled(temp[..], block, round)
      invariant Chain(a, b, c, d, e) == Rounds(h, block, round)
      modifies temp
    {
      ScheduleWord(temp, block, round);
      var f := Majority(b, c, d);
      a, b, c, d, e := ShiftSwap(a, b, c, d, e, f, 0x8f1bbcdc, temp[round]);
      round := round + 1;
    }
    while round < 80
      invariant 60 <= round <= 80 && Scheduled(temp[..], block, round)
      invariant Chain(a, b, c, d, e) == Rounds(h, block, round)
      modifies temp
    {
      ScheduleWord(temp, block, round);
      a, b, c, d, e := ShiftSwap(a, b, c, d, e, Parity(b, c, d), 0xca62c1d6, temp[round]);
      round := round + 1;
    }
  }

  method Sha1PartHash(sha: array<bv32>, temp: array<bv32>)
    requires sha.Length == 5 && temp.Length == 80 && sha != temp
    modifies sha, temp
    ensures ChainOf(sha[..]) == Compress(ChainOf(old(sha[..])), old(temp[..16]))
  {
    var a, b, c, d, e := RunRounds(sha, temp);
    AddTo(sha, a, b, c, d, e);
  }

  function Zeros(n: nat): (r: seq<bv8>)
    ensures |r| == n
  {
    seq(n, _ => 0)
  }

  // The word array holds these 64 bytes, four to a word, most significant first.
  ghost predicate Holds(temp: seq<bv32>, bytes: seq<bv8>)
    requires |temp| >= 16 && |bytes| == 64
  {
    forall i :: 0 <= i < 16 ==> temp[i] == WordAt(bytes, i)
  }

  lemma HoldsBlock(temp: seq<bv32>, p: seq<bv8>, n: nat)
    requires |temp| >= 16 && 64 * n + 64 <= |p|
    requires Holds(temp, p[64 * n..64 * n + 64])
    ensures temp[..16] == Block(p, n)
  {
    forall i | 0 <= i < 16 ensures temp[i] == Block(p, n)[i] {
      assert temp[i] == WordAt(p[64 * n..64 * n + 64], i) == WordAt(p, 16 * n + i);
    }
  }

  method Pack(b0: bv8, b1: bv8, b2: bv8, b3: bv8) returns (w: bv32)
    ensures w == Word(b0, b1, b2, b3)
  {
    w := (b3 as bv32) | ((b2 as bv32) << 8) | ((b1 as bv32) << 16) | ((b0 as bv32) << 24);
  }

  // Or-ing one byte into a place that is still zero; the shift (3 - k % 4) * 8 takes these four values.
  method OrFirst(w: bv32, ghost b1: bv8, ghost b2: bv8, ghost b3: bv8, x: bv8) returns (r: bv32)
    requires w == Word(0, b1, b2, b3)
    ensures r == Word(x, b1, b2, b3)
  {
    r := w | ((x as bv32) << 24);
  }

  method OrSecond(w: bv32, ghost b0: bv8, ghost b2: bv8, ghost b3: bv8, x: bv8) returns (r: bv32)
    requires w == Word(b0, 0, b2, b3)
    ensures r == Word(b0, x, b2, b3)
  {
    r := w | ((x as bv32) << 16);
  }

  method OrThird(w: bv32, ghost b0: bv8, ghost b1: bv8, ghost b3: bv8, x: bv8) returns (r: bv32)
    requires w == Word(b0, b1, 0, b3)
    ensures r == Word(b0, b1, x, b3)
  {
    r := w | ((x as bv32) << 8);
  }

  method OrFourth(w: bv32, ghost b0: bv8, ghost b1: bv8, ghost b2: bv8, x: bv8) returns (r: bv32)
    requires w == Word(b0, b1, b2, 0)
    ensures r == Word(b0, b1, b2, x)
  {
    r := w | (x as bv32);
  }

  lemma OtherWord(bytes: seq<bv8>, k: nat, x: bv8, i: nat)
    requires |bytes| == 64 && k < 64 && i < 16 && i != k / 4
    ensures WordAt(bytes[k := x], i) == WordAt(bytes, i)
  {
    var to := bytes[k := x];
    assert to[4 * i] == bytes[4 * i] && to[4 * i + 1] == bytes[4 * i + 1];
    assert to[4 * i + 2] == bytes[4 * i + 2] && to[4 * i + 3] == bytes[4 * i + 3];
  }

  method OrWord(w: bv32, ghost b: seq<bv8>, k: nat, x: bv8) returns (r: bv32)
    requires |b| == 4 && k < 4 && b[k] == 0 && w == WordAt(b, 0)
    ensures r == WordAt(b[k := x], 0)
  {
    if k == 0 {
      r := OrFirst(w, b[1], b[2], b[3], x);
    } else if k == 1 {
      r := OrSecond(w, b[0], b[2], b[3], x);
    } else if k == 2 {
      r := OrThird(w, b[0], b[1], b[3], x);
    } else {
      r := OrFourth(w, b[0], b[1], b[2], x);
    }
  }

  method OrByte(temp: array<bv32>, ghost bytes: seq<bv8>, k: nat, x: bv8)
    requires temp.Length == 80 && |bytes| == 64 && k < 64 && bytes[k] == 0
    requires Holds(temp[..], bytes)
    modifies temp
    ensures Holds(temp[..], bytes[k := x])
  {
    ghost var q, to := 4 * (k / 4), bytes[k := x];
    assert to[q..q + 4] == bytes[q..q + 4][k % 4 := x];
    var w := OrWord(temp[k / 4], bytes[q..q + 4], k % 4, x);
    assert w == WordAt(to, k / 4);
    forall i | 0 <= i < 16 && i != k / 4 ensures WordAt(to, i) == WordAt(bytes, i) {
      OtherWord(bytes, k, x, i);
    }
    temp[k / 4] := w;
  }

  method Clear(temp: array<bv32>)
    requires temp.Length == 80
    modifies temp
    ensures Holds(temp[..], Zeros(64))
  {
    for i := 0 to 16
      invariant forall j :: 0 <= j < i ==> temp[j] == 0
    {
      temp[i] := 0;
    }
    assert Word(0, 0, 0, 0) == 0;
  }

  method LoadBlock(data: array<bv8>, start: nat, temp: array<bv32>)
    requires temp.Length == 80 && start + 64 <= data.Length
    modifies temp
    ensures Holds(temp[..], data[start..start + 64])
  {
    var block, i := start, 0;
    while block < start + 64
      invariant 0 <= i <= 16 && block == start + 4 * i
      invariant forall j :: 0 <= j < i ==> temp[j] == WordAt(data[start..start + 64], j)
    {
      temp[i] := Pack(data[block], data[block + 1], data[block + 2], data[block + 3]);
      i, block := i + 1, block + 4;
    }
  }

  // The unfinished block: what is left of the message, the 0x80 byte and zeros.
  function TailBlock(rest: seq<bv8>): (r: seq<bv8>)
    requires |rest| < 64
    ensures |r| == 64
  {
    rest + [0x80] + Zeros(63 - |rest|)
  }

  method LoadTail(data: array<bv8>, block: nat, temp: array<bv32>)
    requires temp.Length == 80 && block <= data.Length < block + 64
    modifies temp
    ensures Holds(temp[..], TailBlock(data[block..]))
  {
    Clear(temp);
    var end, last := data.Length - block, 0;
    ghost var bytes := Zeros(64);
    while last < end
      invariant 0 <= last <= end && bytes == data[block..block + last] + Zeros(64 - last)
      invariant Holds(temp[..], bytes)
    {
      OrByte(temp, bytes, last, data[last + block]);
      bytes := bytes[last := data[last + block]];
      last := last + 1;
    }
    OrByte(temp, bytes, last, 0x80);
    assert bytes[last := 0x80] == TailBlock(data[block..]);
  }

  function LengthBytes(low: bv32): (r: seq<bv8>)
    ensures |r| == 8
  {
    WordBytes(0) + WordBytes(low)
  }

  // The length lands in the last word of a block whose last eight bytes are still zero.
  lemma LengthWord(temp: seq<bv32>, head: seq<bv8>, low: bv32)
    requires |head| == 56 && |temp| >= 16 && Holds(temp, head + Zeros(8))
    ensures Holds(temp[15 := low], head + LengthBytes(low))
  {
    WordBytesInverse(low);
    var from, to := head + Zeros(8), head + LengthBytes(low);
    assert forall i :: 0 <= i < 60 ==> to[i] == from[i];
    forall i | 0 <= i < 15 ensures temp[15 := low][i] == WordAt(to, i) {
      assert temp[i] == WordAt(from, i);
    }
  }

  // The padding of a message whose unfinished block has room for the length.
  lemma PadLayoutShort(m: seq<bv8>, low: bv32, block: nat)
    requires block % 64 == 0 && block <= |m| < block + 56
    ensures var head := m[block..] + [0x80] + Zeros(block + 55 - |m|);
            && PadWith(m, 0, low) == m[..block] + (head + LengthBytes(low))
            && TailBlock(m[block..]) == head + Zeros(8)
  {
    assert ZeroCount(|m|) == block + 55 - |m|;
    assert m == m[..block] + m[block..];
  }

  // The padding of a message whose length needs a block of its own.
  lemma PadLayoutLong(m: seq<bv8>, low: bv32, block: nat)
    requires block % 64 == 0 && block + 56 <= |m| < block + 64
    ensures PadWith(m, 0, low) == m[..block] + TailBlock(m[block..]) + (Zeros(56) + LengthBytes(low))
  {
    var rest := |m| - block;
    assert ZeroCount(|m|) == 119 - rest;
    assert Zeros(119 - rest) == Zeros(63 - rest) + Zeros(56);
    assert m == m[..block] + m[block..];
  }

  method HashBlock(sha: array<bv32>, temp: array<bv32>, ghost p: seq<bv8>, ghost n: nat)
    requires sha.Length == 5 && temp.Length == 80 && sha != temp
    requires 64 * n + 64 <= |p| && Holds(temp[..], p[64 * n..64 * n + 64])
    requires ChainOf(sha[..]) == HashBlocks(p, n)
    modifies sha, temp
    ensures ChainOf(sha[..]) == HashBlocks(p, n + 1)
  {
    HoldsBlock(temp[..], p, n);
    Sha1PartHash(sha, temp);
  }

  method HashLast(sha: array<bv32>, temp: array<bv32>, low: bv32, ghost p: seq<bv8>, ghost n: nat, ghost head: seq<bv8>)
    requires sha.Length == 5 && temp.Length == 80 && sha != temp
    requires |head| == 56 && Holds(temp[..], head + Zeros(8))
    requires |p| == 64 * n + 64 && p[64 * n..] == head + LengthBytes(low)
    requires ChainOf(sha[..]) == HashBlocks(p, n)
    modifies sha, temp
    ensures ChainOf(sha[..]) == HashBlocks(p, n + 1)
  {
    LengthWord(temp[..], head, low);
    temp[15] := low;
    assert p[64 * n..64 * n + 64] == p[64 * n..];
    HashBlock(sha, temp, p, n);
  }

  // The last one or two blocks, which carry the padding.
  method HashTail(data: array<bv8>, block: nat, sha: array<bv32>, temp: array<bv32>, low: bv32)
    requires sha.Length == 5 && temp.Length == 80 && sha != temp
    requires block % 64 == 0 && block <= data.Length < block + 64
    requires ChainOf(sha[..]) == HashBlocks(PadWith(data[..], 0, low), block / 64)
    modifies sha, temp
    ensures ChainOf(sha[..]) == var p := PadWith(data[..], 0, low); HashBlocks(p, |p| / 64)
  {
    ghost var m, p := data[..], PadWith(data[..], 0, low);
    LoadTail(data, block, temp);
    assert data[block..] == m[block..];
    if data.Length - block >= 56 {
      PadLayoutLong(m, low, block);
      HashBlock(sha, temp, p, block / 64);
      Clear(temp);
      assert Zeros(64) == Zeros(56) + Zeros(8);
      HashLast(sha, temp, low, p, block / 64 + 1, Zeros(56));
    } else {
      PadLayoutShort(m, low, block);
      HashLast(sha, temp, low, p, block / 64, m[block..] + [0x80] + Zeros(block + 55 - |m|));
    }
  }

  method HashAll(data: array<bv8>, sha: array<bv32>, temp: array<bv32>, low: bv32)
    requires sha.Length == 5 && temp.Length == 80 && sha != temp
    requires ChainOf(sha[..]) == INITIAL
    modifies sha, temp
    ensures ChainOf(sha[..]) == var p := PadWith(data[..], 0, low); HashBlocks(p, |p| / 64)
  {
    ghost var p := PadWith(data[..], 0, low);
    var block, len := 0, data.Length;
    while block + 64 <= len
      invariant 0 <= block <= len && block % 64 == 0 && ChainOf(sha[..]) == HashBlocks(p, block / 64)
    {
      LoadBlock(data, block, temp);
      assert data[block..block + 64] == p[block..block + 64];
      HashBlock(sha, temp, p, block / 64);
      block := block + 64;
    }
    HashTail(data, block, sha, temp, low);
  }

  // Byte `k` of word `w`, most significant first.
  function ByteOf(w: bv32, k: nat): bv8
    requires k < 4
  {
    WordBytes(w)[k]
  }

  lemma ConcatAt(s: seq<seq<bv8>>, k: nat)
    requires |s| == 5 && k < 20 && forall i :: 0 <= i < 5 ==> |s[i]| == 4
    ensures (s[0] + s[1] + s[2] + s[3] + s[4])[k] == s[k / 4][k % 4]
  {
  }

  method WriteDigest(sha: array<bv32>, dest: array<bv8>)
    requires sha.Length == 5 && dest.Length >= 20
    modifies dest
    ensures dest[..] == ChainBytes(ChainOf(sha[..])) + old(dest[20..])
  {
    var i := 20;
    while i > 0
      invariant 0 <= i <= 20
      invariant forall k :: i <= k < 20 ==> dest[k] == ByteOf(sha[k / 4], k % 4)
      invariant dest[20..] == old(dest[20..])
    {
      i := i - 1;
      dest[i] := ByteOf(sha[i / 4], i % 4);
    }
    forall k | 0 <= k < 20 ensures dest[k] == ChainBytes(ChainOf(sha[..]))[k] {
      var h := ChainOf(sha[..]);
      ConcatAt([WordBytes(h.a), WordBytes(h.b), WordBytes(h.c), WordBytes(h.d), WordBytes(h.e)], k);
    }
  }

  // `len` counts in 32 bits and `block + 64` must not wrap, which bounds the length the code can be given.
  method HashSha1(data: array<bv8>, dest: array<bv8>)
    requires dest.Length >= 20 && data != dest && data.Length < 0xFFFF_FFC0
    modifies dest
    ensures dest[..20] == DigestOf(PackedPad(data[..])) && dest[20..] == old(dest[20..])
    ensures data.Length < 0x2000_0000 ==> dest[..20] == Sha1(data[..])
  {
    var temp := new bv32[80];
    var sha := new bv32[] [0x67452301, 0xefcdab89, 0x98badcfe, 0x10325476, 0xc3d2e1f0];
    HashAll(data, sha, temp, LengthLow(data.Length));
    WriteDigest(sha, dest);
    PaddingIsStandard(data[..]);
  }
}
