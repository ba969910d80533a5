/** Binary meshes: three lists of floats and the corners of the triangles, big-endian. */
module BinobjFormat {
  import opened Options
  import opened Words

  type I32 = x: int | -0x8000_0000 <= x < 0x8000_0000

  datatype Corner = Corner(position: int, uv: int, normal: int)

  // Floats are their bits.
  datatype Mesh = Mesh(positions: seq<U32>, uvs: seq<U32>, normals: seq<U32>, corners: seq<Corner>)

  const EMPTY := Mesh([], [], [], [])

  function Be32(v: int): (r: seq<Byte>)
    requires 0 <= v < 0x1_0000_0000
    ensures |r| == 4
  {
    [v / 0x100_0000, v / 0x1_0000 % 0x100, v / 0x100 % 0x100, v % 0x100]
  }

  function Word(s: seq<Byte>): (v: U32)
    requires |s| == 4
  {
    var b0: int, b1: int, b2: int, b3: int := s[0], s[1], s[2], s[3];
    b0 * 0x100_0000 + b1 * 0x1_0000 + b2 * 0x100 + b3
  }

  lemma Be32Back(v: U32)
    ensures Word(Be32(v)) == v
  {
    var high := v / 0x1_0000;
    assert v == high * 0x1_0000 + v / 0x100 % 0x100 * 0x100 + v % 0x100;
    assert high == v / 0x100_0000 * 0x100 + high % 0x100;
  }

  lemma WordBack(s: seq<Byte>)
    requires |s| == 4
    ensures Be32(Word(s)) == s
  {
    Words.Digits(s[3], s[2], s[1], s[0], Word(s));
  }

  lemma Be32Inverse(v: U32, s: seq<Byte>)
    requires |s| == 4
    ensures Word(Be32(v)) == v && Be32(Word(s)) == s
  {
    hide Be32, Word;
    Be32Back(v);
    WordBack(s);
  }

  predicate Fits(x: int) { -0x8000_0000 <= x < 0x8000_0000 }

  function BeI32(x: I32): (r: seq<Byte>)
    ensures |r| == 4
  {
    Be32(if x < 0 then x + 0x1_0000_0000 else x)
  }

  function Int(s: seq<Byte>): (x: I32)
    requires |s| == 4
  {
    var v := Word(s);
    if v < 0x8000_0000 then v else v - 0x1_0000_0000
  }

  lemma BeI32Inverse(x: I32, s: seq<Byte>)
    requires |s| == 4
    ensures Int(BeI32(x)) == x && BeI32(Int(s)) == s
  {
    hide Be32, Word;
    Be32Inverse(if x < 0 then x + 0x1_0000_0000 else x, s);
  }

  function FloatBytes(xs: seq<U32>): (r: seq<Byte>)
    ensures |r| == 4 * |xs|
  {
    if xs == [] then [] else FloatBytes(xs[..|xs| - 1]) + Be32(xs[|xs| - 1])
  }

  predicate CornerFits(c: Corner) { Fits(c.position) && Fits(c.uv) && Fits(c.normal) }

  predicate CornersFit(cs: seq<Corner>) { forall i :: 0 <= i < |cs| ==> CornerFits(cs[i]) }

  function CornerBytes(cs: seq<Corner>): (r: seq<Byte>)
    requires CornersFit(cs)
    ensures |r| == 12 * |cs|
  {
    if cs == [] then []
    else
      var c := cs[|cs| - 1];
      CornerBytes(cs[..|cs| - 1]) + (BeI32(c.position) + BeI32(c.uv) + BeI32(c.normal))
  }

  // What can be packed.
  predicate Packable(m: Mesh) {
    |m.positions| < 0x8000_0000 && |m.uvs| < 0x8000_0000 && |m.normals| < 0x8000_0000 && |m.corners| < 0x8000_0000
    && CornersFit(m.corners)
  }

  function Section(xs: seq<U32>): seq<Byte>
    requires |xs| < 0x8000_0000
  {
    BeI32(|xs|) + FloatBytes(xs)
  }

  function CornerSection(cs: seq<Corner>): seq<Byte>
    requires |cs| < 0x8000_0000 && CornersFit(cs)
  {
    BeI32(|cs|) + CornerBytes(cs)
  }

  function Packed(m: Mesh): seq<Byte>
    requires Packable(m)
  {
    Section(m.positions) + Section(m.uvs) + Section(m.normals) + CornerSection(m.corners)
  }

  // Reading.

  function FloatsAt(s: seq<Byte>, at: nat, count: nat): (xs: seq<U32>)
    requires at + 4 * count <= |s|
    ensures |xs| == count
  {
    if count == 0 then [] else FloatsAt(s, at, count - 1) + [Word(s[at + 4 * (count - 1)..at + 4 * count])]
  }

  function CornerAt(s: seq<Byte>, at: nat): Corner
    requires at + 12 <= |s|
  {
    Corner(Int(s[at..at + 4]), Int(s[at + 4..at + 8]), Int(s[at + 8..at + 12]))
  }

  function CornersAt(s: seq<Byte>, at: nat, count: nat): (cs: seq<Corner>)
    requires at + 12 * count <= |s|
    ensures |cs| == count && CornersFit(cs)
  {
    if count == 0 then [] else CornersAt(s, at, count - 1) + [CornerAt(s, at + 12 * (count - 1))]
  }

  // A count and as many floats, and where they end.
  function SectionAt(s: seq<Byte>, at: nat): Option<(seq<U32>, nat)> {
    if at + 4 > |s| then None
    else
      var count := Int(s[at..at + 4]);
      if count < 0 || at + 4 + 4 * count > |s| then None
      else Some((FloatsAt(s, at + 4, count), at + 4 + 4 * count))
  }

  function Unpacked(s: seq<Byte>): Option<Mesh> {
    var (positions, a) :- SectionAt(s, 0);
    var (uvs, b) :- SectionAt(s, a);
    var (normals, c) :- SectionAt(s, b);
    if c + 4 > |s| then None
    else
      var count := Int(s[c..c + 4]);
      if count < 0 || c + 4 + 12 * count != |s| then None
      else Some(Mesh(positions, uvs, normals, CornersAt(s, c + 4, count)))
  }

  lemma Slices(s: seq<Byte>, at: nat, n: nat, i: nat, j: nat)
    requires i <= j <= n && at + n <= |s|
    ensures s[at..at + n][i..j] == s[at + i..at + j]
  {
    var part := s[at..at + n];
    forall k | 0 <= k < j - i ensures part[i..j][k] == s[at + i..at + j][k] {
      assert part[i..j][k] == part[i + k] == s[at + i + k];
    }
  }

  lemma {:induction false} FloatsInverse(s: seq<Byte>, at: nat, count: nat)
    requires at + 4 * count <= |s|
    ensures FloatBytes(FloatsAt(s, at, count)) == s[at..at + 4 * count]
  {
    hide Be32, Word;
    if count > 0 {
      FloatsInverse(s, at, count - 1);
      var last := s[at + 4 * (count - 1)..at + 4 * count];
      Be32Inverse(0, last);
      assert s[at..at + 4 * count] == s[at..at + 4 * (count - 1)] + last;
    }
  }

  // Where two pieces lie one after the other, each is found.
  lemma Apart(s: seq<Byte>, at: nat, a: seq<Byte>, b: seq<Byte>)
    requires at + |a| + |b| <= |s| && s[at..at + |a| + |b|] == a + b
    ensures s[at..at + |a|] == a && s[at + |a|..at + |a| + |b|] == b
  {
    Slices(s, at, |a| + |b|, 0, |a|);
    Slices(s, at, |a| + |b|, |a|, |a| + |b|);
    assert (a + b)[0..|a|] == a && (a + b)[|a|..|a| + |b|] == b;
  }

  lemma FloatBytesOf(xs: seq<U32>)
    requires xs != []
    ensures FloatBytes(xs) == FloatBytes(xs[..|xs| - 1]) + Be32(xs[|xs| - 1])
  {
    hide Be32;
  }

  lemma {:induction false} FloatsBack(xs: seq<U32>, s: seq<Byte>, at: nat)
    requires at + 4 * |xs| <= |s| && s[at..at + 4 * |xs|] == FloatBytes(xs)
    ensures FloatsAt(s, at, |xs|) == xs
  {
    hide Be32, Word, FloatBytes;
    if xs != [] {
      var n := |xs|;
      FloatBytesOf(xs);
      Apart(s, at, FloatBytes(xs[..n - 1]), Be32(xs[n - 1]));
      FloatsBack(xs[..n - 1], s, at);
      Be32Inverse(xs[n - 1], Be32(xs[n - 1]));
    }
  }

  lemma CornerInverse(s: seq<Byte>, at: nat)
    requires at + 12 <= |s|
    ensures var c := CornerAt(s, at);
            CornerFits(c) && BeI32(c.position) + BeI32(c.uv) + BeI32(c.normal) == s[at..at + 12]
  {
    hide BeI32, Int;
    BeI32Inverse(0, s[at..at + 4]);
    BeI32Inverse(0, s[at + 4..at + 8]);
    BeI32Inverse(0, s[at + 8..at + 12]);
  }

  lemma CornerBack(c: Corner, s: seq<Byte>, at: nat)
    requires CornerFits(c) && at + 12 <= |s|
    requires s[at..at + 12] == BeI32(c.position) + BeI32(c.uv) + BeI32(c.normal)
    ensures CornerAt(s, at) == c
  {
    hide BeI32, Int;
    var all := s[at..at + 12];
    Slices(s, at, 12, 0, 4);
    Slices(s, at, 12, 4, 8);
    Slices(s, at, 12, 8, 12);
    assert all[0..4] == BeI32(c.position) && all[4..8] == BeI32(c.uv) && all[8..12] == BeI32(c.normal);
    BeI32Inverse(c.position, BeI32(c.position));
    BeI32Inverse(c.uv, BeI32(c.uv));
    BeI32Inverse(c.normal, BeI32(c.normal));
  }

  lemma {:induction false} CornersInverse(s: seq<Byte>, at: nat, count: nat)
    requires at + 12 * count <= |s|
    ensures CornerBytes(CornersAt(s, at, count)) == s[at..at + 12 * count]
  {
    hide BeI32, Int, CornerAt;
    if count > 0 {
      CornersInverse(s, at, count - 1);
      CornerInverse(s, at + 12 * (count - 1));
      assert s[at..at + 12 * count] == s[at..at + 12 * (count - 1)] + s[at + 12 * (count - 1)..at + 12 * count];
      var cs := CornersAt(s, at, count);
      assert cs[..|cs| - 1] == CornersAt(s, at, count - 1);
    }
  }

  lemma CornerBytesOf(cs: seq<Corner>)
    requires CornersFit(cs) && cs != []
    ensures var c := cs[|cs| - 1];
            CornerBytes(cs) == CornerBytes(cs[..|cs| - 1]) + (BeI32(c.position) + BeI32(c.uv) + BeI32(c.normal))
  {
    hide BeI32;
  }

  lemma {:induction false} CornersBack(cs: seq<Corner>, s: seq<Byte>, at: nat)
    requires CornersFit(cs) && at + 12 * |cs| <= |s| && s[at..at + 12 * |cs|] == CornerBytes(cs)
    ensures CornersAt(s, at, |cs|) == cs
  {
    hide BeI32, Int, CornerAt, CornerBytes;
    if cs != [] {
      var n := |cs|;
      var c := cs[n - 1];
      CornerBytesOf(cs);
      Apart(s, at, CornerBytes(cs[..n - 1]), BeI32(c.position) + BeI32(c.uv) + BeI32(c.normal));
      CornersBack(cs[..n - 1], s, at);
      CornerBack(cs[n - 1], s, at + 12 * (n - 1));
    }
  }

  lemma SectionExactly(s: seq<Byte>, at: nat, xs: seq<U32>, end: nat)
    ensures SectionAt(s, at) == Some((xs, end)) <==>
            |xs| < 0x8000_0000 && end == at + 4 + 4 * |xs| && end <= |s| && s[at..end] == Section(xs)
  {
    hide BeI32, Int, FloatsAt, FloatBytes;
    if SectionAt(s, at) == Some((xs, end)) {
      var count := Int(s[at..at + 4]);
      BeI32Inverse(0, s[at..at + 4]);
      FloatsInverse(s, at + 4, count);
      assert s[at..end] == s[at..at + 4] + s[at + 4..end];
    }
    if |xs| < 0x8000_0000 && end == at + 4 + 4 * |xs| && end <= |s| && s[at..end] == Section(xs) {
      assert s[at..at + 4] == s[at..end][..4] == BeI32(|xs|) && s[at + 4..end] == s[at..end][4..] == FloatBytes(xs);
      BeI32Inverse(|xs|, BeI32(|xs|));
      FloatsBack(xs, s, at + 4);
    }
  }

  lemma CornerSectionExactly(s: seq<Byte>, at: nat, cs: seq<Corner>)
    ensures (at + 4 <= |s| && var count := Int(s[at..at + 4]);
             count >= 0 && at + 4 + 12 * count == |s| && CornersAt(s, at + 4, count) == cs) <==>
            (at <= |s| && |cs| < 0x8000_0000 && CornersFit(cs) && s[at..] == CornerSection(cs))
  {
    hide BeI32, Int, CornersAt, CornerBytes;
    if at + 4 <= |s| && Int(s[at..at + 4]) >= 0 && at + 4 + 12 * Int(s[at..at + 4]) == |s| {
      var count: int := Int(s[at..at + 4]);
      BeI32Inverse(0, s[at..at + 4]);
      CornersInverse(s, at + 4, count);
      assert s[at + 4..at + 4 + 12 * count] == s[at + 4..];
      assert s[at..] == s[at..at + 4] + s[at + 4..];
    }
    if at <= |s| && |cs| < 0x8000_0000 && CornersFit(cs) && s[at..] == CornerSection(cs) {
      assert |s[at..]| == 4 + 12 * |cs|;
      assert s[at..at + 4] == s[at..][..4] == BeI32(|cs|);
      assert s[at + 4..at + 4 + 12 * |cs|] == s[at..][4..] == CornerBytes(cs);
      BeI32Inverse(|cs|, BeI32(|cs|));
      CornersBack(cs, s, at + 4);
    }
  }

  // A binary mesh is read exactly if it is what the mesh that is read is packed into, with nothing left over.
  lemma UnpackedExactly(s: seq<Byte>, m: Mesh)
    ensures Unpacked(s) == Some(m) <==> Packable(m) && s == Packed(m)
  {
    hide SectionAt, Section, CornerSection, CornersAt, Int;
    var a := 4 + 4 * |m.positions|;
    var b := a + 4 + 4 * |m.uvs|;
    var c := b + 4 + 4 * |m.normals|;
    SectionExactly(s, 0, m.positions, a);
    SectionExactly(s, a, m.uvs, b);
    SectionExactly(s, b, m.normals, c);
    CornerSectionExactly(s, c, m.corners);
    if Unpacked(s) == Some(m) {
      var p := SectionAt(s, 0).value;
      SectionExactly(s, 0, p.0, p.1);
      var u := SectionAt(s, p.1).value;
      SectionExactly(s, p.1, u.0, u.1);
      var n := SectionAt(s, u.1).value;
      SectionExactly(s, u.1, n.0, n.1);
      assert s == s[0..a] + s[a..b] + s[b..c] + s[c..];
    }
    if Packable(m) && s == Packed(m) {
      PackedParts(m, s);
    }
  }

  // Where everything is in the file, and in which bytes.

  predicate BigEndianAt(s: seq<Byte>, at: nat, v: int) {
    at + 4 <= |s| &&
    var b0: int, b1: int, b2: int, b3: int := s[at], s[at + 1], s[at + 2], s[at + 3];
    b0 * 0x100_0000 + b1 * 0x1_0000 + b2 * 0x100 + b3 == v
  }

  // A number below zero is its complement.
  predicate SignedAt(s: seq<Byte>, at: nat, x: int) {
    if x < 0 then BigEndianAt(s, at, x + 0x1_0000_0000) else BigEndianAt(s, at, x)
  }

  lemma BeI32At(x: I32, s: seq<Byte>, at: nat)
    requires at + 4 <= |s| && s[at..at + 4] == BeI32(x)
    ensures SignedAt(s, at, x)
  {
    hide Be32;
    Be32Back(if x < 0 then x + 0x1_0000_0000 else x);
    assert s[at..at + 4] == [s[at], s[at + 1], s[at + 2], s[at + 3]];
  }

  lemma Be32At(v: U32, s: seq<Byte>, at: nat)
    requires at + 4 <= |s| && s[at..at + 4] == Be32(v)
    ensures BigEndianAt(s, at, v)
  {
    hide Be32;
    Be32Back(v);
    assert s[at..at + 4] == [s[at], s[at + 1], s[at + 2], s[at + 3]];
  }

  lemma {:induction false} FloatBytesAt(xs: seq<U32>, s: seq<Byte>, at: nat, i: nat)
    requires at + 4 * |xs| <= |s| && s[at..at + 4 * |xs|] == FloatBytes(xs) && i < |xs|
    ensures BigEndianAt(s, at + 4 * i, xs[i])
  {
    hide Be32, FloatBytes, BigEndianAt;
    var n := |xs|;
    FloatBytesOf(xs);
    Apart(s, at, FloatBytes(xs[..n - 1]), Be32(xs[n - 1]));
    if i < n - 1 {
      FloatBytesAt(xs[..n - 1], s, at, i);
    } else {
      Be32At(xs[i], s, at + 4 * i);
    }
  }

  predicate CornerBytesAt(s: seq<Byte>, at: nat, c: Corner) {
    SignedAt(s, at, c.position) && SignedAt(s, at + 4, c.uv) && SignedAt(s, at + 8, c.normal)
  }

  lemma OneCornerAt(c: Corner, s: seq<Byte>, at: nat)
    requires CornerFits(c) && at + 12 <= |s|
    requires s[at..at + 12] == BeI32(c.position) + BeI32(c.uv) + BeI32(c.normal)
    ensures CornerBytesAt(s, at, c)
  {
    hide BeI32, SignedAt;
    var all := s[at..at + 12];
    Slices(s, at, 12, 0, 4);
    Slices(s, at, 12, 4, 8);
    Slices(s, at, 12, 8, 12);
    assert all[0..4] == BeI32(c.position) && all[4..8] == BeI32(c.uv) && all[8..12] == BeI32(c.normal);
    BeI32At(c.position, s, at);
    BeI32At(c.uv, s, at + 4);
    BeI32At(c.normal, s, at + 8);
  }

  lemma {:induction false} CornersInBytes(cs: seq<Corner>, s: seq<Byte>, at: nat, i: nat)
    requires CornersFit(cs) && at + 12 * |cs| <= |s| && s[at..at + 12 * |cs|] == CornerBytes(cs) && i < |cs|
    ensures CornerBytesAt(s, at + 12 * i, cs[i])
  {
    hide BeI32, CornerBytes, CornerBytesAt;
    var n := |cs|;
    var c := cs[n - 1];
    CornerBytesOf(cs);
    Apart(s, at, CornerBytes(cs[..n - 1]), BeI32(c.position) + BeI32(c.uv) + BeI32(c.normal));
    if i < n - 1 {
      CornersInBytes(cs[..n - 1], s, at, i);
    } else {
      OneCornerAt(c, s, at + 12 * i);
    }
  }

  lemma SectionLayout(xs: seq<U32>, s: seq<Byte>, at: nat)
    requires |xs| < 0x8000_0000 && at + 4 + 4 * |xs| <= |s| && s[at..at + 4 + 4 * |xs|] == Section(xs)
    ensures BigEndianAt(s, at, |xs|)
    ensures forall i :: 0 <= i < |xs| ==> BigEndianAt(s, at + 4 + 4 * i, xs[i])
  {
    hide BeI32, FloatBytes, BigEndianAt;
    Apart(s, at, BeI32(|xs|), FloatBytes(xs));
    BeI32At(|xs|, s, at);
    forall i | 0 <= i < |xs| ensures BigEndianAt(s, at + 4 + 4 * i, xs[i]) {
      FloatBytesAt(xs, s, at + 4, i);
    }
  }

  // Four counts, most significant byte first, each before what it counts: positions, texture coordinates and normals
  // of four bytes each, then corners of three numbers.
  lemma PackedLayout(m: Mesh)
    requires Packable(m)
    ensures var s, a := Packed(m), 4 + 4 * |m.positions|;
      var b := a + 4 + 4 * |m.uvs|;
      var c := b + 4 + 4 * |m.normals|;
      && |s| == c + 4 + 12 * |m.corners|
      && BigEndianAt(s, 0, |m.positions|) && BigEndianAt(s, a, |m.uvs|) && BigEndianAt(s, b, |m.normals|)
      && BigEndianAt(s, c, |m.corners|)
      && (forall i :: 0 <= i < |m.positions| ==> BigEndianAt(s, 4 + 4 * i, m.positions[i]))
      && (forall i :: 0 <= i < |m.uvs| ==> BigEndianAt(s, a + 4 + 4 * i, m.uvs[i]))
      && (forall i :: 0 <= i < |m.normals| ==> BigEndianAt(s, b + 4 + 4 * i, m.normals[i]))
      && (forall i :: 0 <= i < |m.corners| ==> CornerBytesAt(s, c + 4 + 12 * i, m.corners[i]))
  {
    hide BeI32, FloatBytes, CornerBytes, BigEndianAt, SignedAt, CornerBytesAt, Section, CornerSection;
    var s, a := Packed(m), 4 + 4 * |m.positions|;
    var b := a + 4 + 4 * |m.uvs|;
    var c := b + 4 + 4 * |m.normals|;
    PackedParts(m, s);
    SectionLayout(m.positions, s, 0);
    SectionLayout(m.uvs, s, a);
    SectionLayout(m.normals, s, b);
    CornerSectionLayout(m.corners, s, c);
  }

  lemma CornerSectionLayout(cs: seq<Corner>, s: seq<Byte>, at: nat)
    requires |cs| < 0x8000_0000 && CornersFit(cs) && at <= |s| && s[at..] == CornerSection(cs)
    ensures |s| == at + 4 + 12 * |cs| && BigEndianAt(s, at, |cs|)
    ensures forall i :: 0 <= i < |cs| ==> CornerBytesAt(s, at + 4 + 12 * i, cs[i])
  {
    hide BeI32, CornerBytes, BigEndianAt, CornerBytesAt;
    assert |s[at..]| == 4 + 12 * |cs|;
    assert s[at..at + 4 + 12 * |cs|] == s[at..];
    Apart(s, at, BeI32(|cs|), CornerBytes(cs));
    BeI32At(|cs|, s, at);
    forall i | 0 <= i < |cs| ensures CornerBytesAt(s, at + 4 + 12 * i, cs[i]) {
      CornersInBytes(cs, s, at + 4, i);
    }
  }

  lemma PackedParts(m: Mesh, s: seq<Byte>)
    requires Packable(m) && s == Packed(m)
    ensures var a := 4 + 4 * |m.positions|; var b := a + 4 + 4 * |m.uvs|; var c := b + 4 + 4 * |m.normals|;
      && c <= |s| && s[0..a] == Section(m.positions) && s[a..b] == Section(m.uvs) && s[b..c] == Section(m.normals)
      && s[c..] == CornerSection(m.corners)
  {
    hide BeI32, FloatBytes, CornerBytes;
  }
}

/** Meshes as Wavefront text. */
module ObjFormat {
  import opened Options
  import opened Words
  import opened BinobjFormat

  // How numbers are written and read; a float that was read is rounded to 32 bits.
  datatype Numbers = Numbers(showFloat: U32 -> string, readFloat: string -> Option<U32>,
                             showInt: int -> string, readInt: string -> Option<int>)

  predicate IsSpace(c: char) { c == ' ' || '\t' <= c <= '\r' || '\U{1c}' <= c <= '\U{1f}' }

  // Without spaces or slashes, so that it stays in one piece.
  predicate IsPiece(s: string) { s != "" && forall i :: 0 <= i < |s| ==> !IsSpace(s[i]) && s[i] != '/' }

  predicate IsNaN(bits: U32) { bits / 0x80_0000 % 0x100 == 0xFF && bits % 0x80_0000 != 0 }

  // The patterns of all ones in the exponent and some in the fraction, of either sign.
  lemma NaNExactly(bits: U32)
    ensures IsNaN(bits) <==> 0x7F80_0000 < bits < 0x8000_0000 || 0xFF80_0000 < bits
  {
  }

  ghost predicate Lossless(n: Numbers) {
    && (forall x: U32 :: !IsNaN(x) ==> IsPiece(n.showFloat(x)) && n.readFloat(n.showFloat(x)) == Some(x))
    && (forall i :: IsPiece(n.showInt(i)) && n.readInt(n.showInt(i)) == Some(i))
  }

  // The words of a line.

  function FirstSpace(s: string): (i: nat)
    ensures i <= |s| && (forall j :: 0 <= j < i ==> !IsSpace(s[j])) && (i < |s| ==> IsSpace(s[i]))
  {
    if s == "" || IsSpace(s[0]) then 0 else 1 + FirstSpace(s[1..])
  }

  function Split(s: string): (r: seq<string>)
    decreases |s|
  {
    if s == "" then []
    else if IsSpace(s[0]) then Split(s[1..])
    else var i := FirstSpace(s); [s[..i]] + Split(s[i..])
  }

  // Words with one space after each, and a new line after the last.
  function Line(words: seq<string>): string {
    if words == [] then ""
    else if |words| == 1 then words[0] + "\n"
    else words[0] + " " + Line(words[1..])
  }

  ghost predicate AllSolid(words: seq<string>) {
    forall i :: 0 <= i < |words| ==> words[i] != "" && forall j :: 0 <= j < |words[i]| ==> !IsSpace(words[i][j])
  }

  lemma {:induction false} FirstSpaceAt(s: string, i: nat)
    requires i < |s| && IsSpace(s[i]) && forall j :: 0 <= j < i ==> !IsSpace(s[j])
    ensures FirstSpace(s) == i
  {
    if i > 0 {
      FirstSpaceAt(s[1..], i - 1);
    }
  }

  lemma FirstWord(word: string, rest: string)
    requires word != "" && (forall j :: 0 <= j < |word| ==> !IsSpace(word[j])) && rest != "" && IsSpace(rest[0])
    ensures Split(word + rest) == [word] + Split(rest[1..])
  {
    hide IsSpace, FirstSpace;
    var s := word + rest;
    FirstSpaceAt(s, |word|);
    assert s[0] == word[0] && s[..|word|] == word && s[|word|..] == rest;
  }

  lemma {:induction false} SplitLine(words: seq<string>)
    requires AllSolid(words)
    ensures Split(Line(words)) == words
  {
    hide IsSpace, Split;
    NoWords();
    if |words| == 1 {
      FirstWord(words[0], "\n");
      assert words[0] + "\n" == Line(words);
      assert "\n"[1..] == "" && words == [words[0]] + [];
    } else if words != [] {
      SplitLine(words[1..]);
      FirstWord(words[0], " " + Line(words[1..]));
      assert (" " + Line(words[1..]))[1..] == Line(words[1..]);
      assert words[0] + (" " + Line(words[1..])) == Line(words);
      assert words == [words[0]] + words[1..];
    }
  }

  lemma NoWords()
    ensures Split("") == [] && IsSpace(' ') && IsSpace('\n')
  {
  }

  // Splitting at spaces, in any number: this is all of it.

  lemma {:induction false} SplitAtSpace(a: string, c: char, b: string)
    requires IsSpace(c)
    ensures Split(a + [c] + b) == Split(a) + Split(b)
    decreases |a|
  {
    hide IsSpace, FirstSpace;
    var s := a + [c] + b;
    if a == "" {
      assert s[1..] == b;
    } else if IsSpace(a[0]) {
      assert s[1..] == a[1..] + [c] + b;
      SplitAtSpace(a[1..], c, b);
    } else {
      var i := FirstSpace(a);
      FirstSpaceAt(s, i);
      if i == |a| {
        assert s[..i] == a && s[i..][1..] == b && s[i..][0] == c;
        assert Split(s[i..]) == Split(b);
        SplitWord(a);
      } else {
        assert s[..i] == a[..i] && s[i..] == a[i..] + [c] + b;
        SplitAtSpace(a[i..], c, b);
      }
    }
  }

  lemma SplitWord(word: string)
    requires word != "" && forall j :: 0 <= j < |word| ==> !IsSpace(word[j])
    ensures Split(word) == [word] && Split("") == []
  {
    hide IsSpace;
    assert FirstSpace(word) == |word| && word[..|word|] == word && word[|word|..] == "";
    assert Split("") == [] && Split(word) == [word] + Split("");
  }

  lemma SpacesExactly(c: char)
    ensures IsSpace(c) <==> c as int in {9, 10, 11, 12, 13, 28, 29, 30, 31, 32}
  {
  }

  // The fields of a vertex.

  function FirstSlash(s: string): (i: nat)
    ensures i <= |s| && (forall j :: 0 <= j < i ==> s[j] != '/') && (i < |s| ==> s[i] == '/')
  {
    if s == "" || s[0] == '/' then 0 else 1 + FirstSlash(s[1..])
  }

  function Fields(s: string): (r: seq<string>)
    ensures r != []
    decreases |s|
  {
    var i := FirstSlash(s);
    if i == |s| then [s] else [s[..i]] + Fields(s[i + 1..])
  }

  function Slashed(a: string, b: string, c: string): string { a + "/" + b + "/" + c }

  lemma FieldsOf(a: string, b: string, c: string)
    requires IsPiece(a) && IsPiece(b) && IsPiece(c)
    ensures Fields(Slashed(a, b, c)) == [a, b, c]
  {
    hide IsSpace, Fields;
    FirstField(a, b + "/" + c);
    FirstField(b, c);
    LastField(c);
    assert a + "/" + (b + "/" + c) == Slashed(a, b, c);
  }

  lemma {:induction false} FirstSlashAt(s: string, i: nat)
    requires i <= |s| && (i < |s| ==> s[i] == '/') && forall j :: 0 <= j < i ==> s[j] != '/'
    ensures FirstSlash(s) == i
  {
    if i > 0 {
      FirstSlashAt(s[1..], i - 1);
    }
  }

  lemma FirstField(a: string, rest: string)
    requires IsPiece(a)
    ensures Fields(a + "/" + rest) == [a] + Fields(rest)
  {
    hide IsSpace, FirstSlash;
    var s := a + "/" + rest;
    FirstSlashAt(s, |a|);
    assert s[..|a|] == a && s[|a| + 1..] == rest;
  }

  lemma LastField(a: string)
    requires IsPiece(a)
    ensures Fields(a) == [a]
  {
    hide IsSpace, FirstSlash;
    FirstSlashAt(a, |a|);
  }

  // Splitting at slashes: pieces without slashes that are the text again when joined by them.

  function Joined(pieces: seq<string>): string
    requires pieces != []
  {
    if |pieces| == 1 then pieces[0] else pieces[0] + "/" + Joined(pieces[1..])
  }

  lemma {:induction false} FieldsJoin(s: string)
    ensures Joined(Fields(s)) == s && forall k :: 0 <= k < |Fields(s)| ==> '/' !in Fields(s)[k]
    decreases |s|
  {
    hide FirstSlash;
    var i := FirstSlash(s);
    if i < |s| {
      var rest := s[i + 1..];
      FieldsJoin(rest);
      assert Fields(s)[1..] == Fields(rest);
      assert s == s[..i] + "/" + rest;
    }
  }

  // Faces.

  // All triangles that share the first vertex.
  function Fan(face: seq<Corner>): seq<Corner> {
    if |face| < 3 then [] else Fan(face[..|face| - 1]) + [face[0], face[|face| - 2], face[|face| - 1]]
  }

  // A face of n vertices makes n - 2 triangles; each joins the first vertex and two neighbours. A triangle stays
  // itself.
  lemma {:induction false} FanTriangles(face: seq<Corner>)
    requires |face| >= 2
    ensures |Fan(face)| == 3 * (|face| - 2)
    ensures forall i :: 0 <= i < |face| - 2 ==>
      Fan(face)[3 * i] == face[0] && Fan(face)[3 * i + 1] == face[i + 1] && Fan(face)[3 * i + 2] == face[i + 2]
    ensures |face| == 3 ==> Fan(face) == face
  {
    if |face| > 2 {
      FanTriangles(face[..|face| - 1]);
    }
  }

  function ReadIndex(n: Numbers, field: string): Option<int> {
    if field == "" then Some(-1) else var i :- n.readInt(field); Some(i - 1)
  }

  function ReadVertex(n: Numbers, vertex: string): Option<Corner> {
    var fields := Fields(vertex) + ["", ""];
    var position :- ReadIndex(n, fields[0]);
    var uv :- ReadIndex(n, fields[1]);
    var normal :- ReadIndex(n, fields[2]);
    Some(Corner(position, uv, normal))
  }

  function ReadFace(n: Numbers, vertices: seq<string>): Option<seq<Corner>> {
    if vertices == [] then Some([])
    else
      var init :- ReadFace(n, vertices[..|vertices| - 1]);
      var last :- ReadVertex(n, vertices[|vertices| - 1]);
      Some(init + [last])
  }

  // The first so many floats after the tag.
  function ReadFloats(n: Numbers, parts: seq<string>, count: nat): Option<seq<U32>> {
    if count == 0 then Some([])
    else
      var init :- ReadFloats(n, parts, count - 1);
      if count >= |parts| then None
      else
        var last :- n.readFloat(parts[count]);
        Some(init + [last])
  }

  function ReadLine(n: Numbers, m: Mesh, line: string): Option<Mesh> {
    var parts := Split(line);
    if parts == [] || (parts[0] != "" && parts[0][0] == '#') then Some(m)
    else if parts[0] == "v" then
      var xs :- ReadFloats(n, parts, 3);
      Some(m.(positions := m.positions + xs))
    else if parts[0] == "vt" then
      var xs :- ReadFloats(n, parts, 2);
      Some(m.(uvs := m.uvs + xs))
    else if parts[0] == "vn" then
      var xs :- ReadFloats(n, parts, 3);
      Some(m.(normals := m.normals + xs))
    else if parts[0] == "f" then
      var face :- ReadFace(n, parts[1..]);
      Some(m.(corners := m.corners + Fan(face)))
    else Some(m)
  }

  function ReadLines(n: Numbers, m: Mesh, lines: seq<string>): Option<Mesh> {
    if lines == [] then Some(m)
    else
      var before :- ReadLines(n, m, lines[..|lines| - 1]);
      ReadLine(n, before, lines[|lines| - 1])
  }

  // What a vertex and a line mean, whichever way they were written.

  // The number in a field, one lower; -1 if the field is empty or not there.
  predicate IndexIn(n: Numbers, fields: seq<string>, k: nat, x: int) {
    if k < |fields| && fields[k] != "" then n.readInt(fields[k]) == Some(x + 1) else x == -1
  }

  lemma VertexMeans(n: Numbers, vertex: string, c: Corner)
    ensures var fields := Fields(vertex);
      ReadVertex(n, vertex) == Some(c) <==>
      IndexIn(n, fields, 0, c.position) && IndexIn(n, fields, 1, c.uv) && IndexIn(n, fields, 2, c.normal)
  {
    hide Fields;
    var fields := Fields(vertex);
    var padded := fields + ["", ""];
    forall k | 0 <= k < 3 ensures k < |padded| && padded[k] == if k < |fields| then fields[k] else "" {
    }
  }

  // The middle field may be empty, and the last two may be missing.
  lemma EmptyFields(n: Numbers, a: string, c: string, x: int, z: int)
    requires IsPiece(a) && IsPiece(c) && n.readInt(a) == Some(x) && n.readInt(c) == Some(z)
    ensures ReadVertex(n, a + "//" + c) == Some(Corner(x - 1, -1, z - 1))
    ensures ReadVertex(n, a + "/" + c) == Some(Corner(x - 1, z - 1, -1))
    ensures ReadVertex(n, a) == Some(Corner(x - 1, -1, -1))
  {
    hide ReadVertex, Fields, IsSpace;
    assert a + "//" + c == a + "/" + ("/" + c);
    FirstField(a, "/" + c);
    EmptyFirst(c);
    LastField(c);
    FirstField(a, c);
    LastField(a);
    assert Fields(a + "//" + c) == [a, "", c] && Fields(a + "/" + c) == [a, c] && Fields(a) == [a];
    VertexMeans(n, a + "//" + c, Corner(x - 1, -1, z - 1));
    VertexMeans(n, a + "/" + c, Corner(x - 1, z - 1, -1));
    VertexMeans(n, a, Corner(x - 1, -1, -1));
  }

  lemma EmptyFirst(rest: string)
    ensures Fields("/" + rest) == [""] + Fields(rest)
  {
    FirstSlashAt("/" + rest, 0);
    assert ("/" + rest)[1..] == rest;
  }

  lemma {:induction false} FaceMeans(n: Numbers, vertices: seq<string>, face: seq<Corner>)
    ensures ReadFace(n, vertices) == Some(face) <==>
            |face| == |vertices| && forall i :: 0 <= i < |face| ==> ReadVertex(n, vertices[i]) == Some(face[i])
  {
    hide ReadVertex;
    if vertices != [] {
      var init, last := vertices[..|vertices| - 1], vertices[|vertices| - 1];
      if face != [] {
        FaceMeans(n, init, face[..|face| - 1]);
        assert face == face[..|face| - 1] + [face[|face| - 1]];
      }
      if ReadFace(n, vertices) == Some(face) {
        assert ReadFace(n, init).Some? && face == ReadFace(n, init).value + [ReadVertex(n, last).value];
      }
    }
  }

  // So many floats after the tag.
  ghost predicate FloatsAfter(n: Numbers, parts: seq<string>, count: nat, xs: seq<U32>) {
    count < |parts| && |xs| == count && forall i :: 0 <= i < count ==> n.readFloat(parts[1 + i]) == Some(xs[i])
  }

  lemma {:induction false} FloatsMean(n: Numbers, parts: seq<string>, count: nat, xs: seq<U32>)
    requires parts != []
    ensures ReadFloats(n, parts, count) == Some(xs) <==> FloatsAfter(n, parts, count, xs)
  {
    if count > 0 {
      if xs != [] {
        FloatsMean(n, parts, count - 1, xs[..|xs| - 1]);
        assert xs == xs[..|xs| - 1] + [xs[|xs| - 1]];
      }
    }
  }

  // A line adds the floats or the triangles it holds to the list its tag tells, and is no mesh if they cannot be read;
  // comments, empty lines and other tags add nothing.
  lemma LineMeans(n: Numbers, m: Mesh, line: string, xs: seq<U32>, face: seq<Corner>)
    ensures var parts, read := Split(line), ReadLine(n, m, line);
      if parts == [] || (parts[0] != "" && parts[0][0] == '#') then read == Some(m)
      else if parts[0] == "v" then
        && (FloatsAfter(n, parts, 3, xs) ==> read == Some(m.(positions := m.positions + xs)))
        && (read.Some? ==> exists ys :: FloatsAfter(n, parts, 3, ys))
      else if parts[0] == "vt" then
        && (FloatsAfter(n, parts, 2, xs) ==> read == Some(m.(uvs := m.uvs + xs)))
        && (read.Some? ==> exists ys :: FloatsAfter(n, parts, 2, ys))
      else if parts[0] == "vn" then
        && (FloatsAfter(n, parts, 3, xs) ==> read == Some(m.(normals := m.normals + xs)))
        && (read.Some? ==> exists ys :: FloatsAfter(n, parts, 3, ys))
      else if parts[0] == "f" then
        && (ReadFace(n, parts[1..]) == Some(face) ==> read == Some(m.(corners := m.corners + Fan(face))))
        && (read.Some? ==> ReadFace(n, parts[1..]).Some?)
      else read == Some(m)
  {
    hide Split, ReadFloats, ReadFace, Fan, FloatsAfter;
    var parts := Split(line);
    if parts != [] {
      FloatsMean(n, parts, 2, xs);
      FloatsMean(n, parts, 3, xs);
      if ReadFloats(n, parts, 2).Some? {
        FloatsMean(n, parts, 2, ReadFloats(n, parts, 2).value);
      }
      if ReadFloats(n, parts, 3).Some? {
        FloatsMean(n, parts, 3, ReadFloats(n, parts, 3).value);
      }
    }
  }

  // Printing.

  function Row2(n: Numbers, tag: string, xs: seq<U32>, i: nat): string
    requires 2 * i + 2 <= |xs|
  {
    Line([tag, n.showFloat(xs[2 * i]), n.showFloat(xs[2 * i + 1])])
  }

  function Row3(n: Numbers, tag: string, xs: seq<U32>, i: nat): string
    requires 3 * i + 3 <= |xs|
  {
    Line([tag, n.showFloat(xs[3 * i]), n.showFloat(xs[3 * i + 1]), n.showFloat(xs[3 * i + 2])])
  }

  function ShowVertex(n: Numbers, c: Corner): string {
    Slashed(n.showInt(c.position + 1), n.showInt(c.uv + 1), n.showInt(c.normal + 1))
  }

  function FaceRow(n: Numbers, cs: seq<Corner>, t: nat): string
    requires 3 * t + 3 <= |cs|
  {
    Line(["f", ShowVertex(n, cs[3 * t]), ShowVertex(n, cs[3 * t + 1]), ShowVertex(n, cs[3 * t + 2])])
  }

  function Rows2(n: Numbers, tag: string, xs: seq<U32>, k: nat): seq<string>
    requires 2 * k <= |xs|
  {
    if k == 0 then [] else Rows2(n, tag, xs, k - 1) + [Row2(n, tag, xs, k - 1)]
  }

  function Rows3(n: Numbers, tag: string, xs: seq<U32>, k: nat): seq<string>
    requires 3 * k <= |xs|
  {
    if k == 0 then [] else Rows3(n, tag, xs, k - 1) + [Row3(n, tag, xs, k - 1)]
  }

  function FaceRows(n: Numbers, cs: seq<Corner>, k: nat): seq<string>
    requires 3 * k <= |cs|
  {
    if k == 0 then [] else FaceRows(n, cs, k - 1) + [FaceRow(n, cs, k - 1)]
  }

  function Comment(text: string): string { "#" + text + "\n" }

  function AboutSource(): string {
    " 3D mesh decoded from .binobj (source of truth; baked back to .binobj at build time)."
  }

  function AboutUvs(): string { " UVs are stored raw here; the V coordinate is flipped (1-v) at load time." }

  function Header(): seq<string> { [Comment(AboutSource()), Comment(AboutUvs())] }

  function Printed(n: Numbers, m: Mesh): seq<string> {
    Header()
    + Rows3(n, "v", m.positions, |m.positions| / 3)
    + Rows2(n, "vt", m.uvs, |m.uvs| / 2)
    + Rows3(n, "vn", m.normals, |m.normals| / 3)
    + FaceRows(n, m.corners, |m.corners| / 3)
  }

  ghost predicate NoNaNs(xs: seq<U32>) { forall i :: 0 <= i < |xs| ==> !IsNaN(xs[i]) }

  // Reading back what was printed.

  lemma {:induction false} ReadMore(n: Numbers, m: Mesh, a: seq<string>, b: seq<string>)
    ensures ReadLines(n, m, a + b) ==
      match ReadLines(n, m, a)
      case Some(before) => ReadLines(n, before, b)
      case None => None
  {
    hide ReadLine;
    if b == [] {
      assert a + b == a;
    } else {
      ReadMore(n, m, a, b[..|b| - 1]);
      assert (a + b)[..|a + b| - 1] == a + b[..|b| - 1];
    }
  }

  lemma HeaderIgnored(n: Numbers, m: Mesh)
    ensures ReadLines(n, m, Header()) == Some(m)
  {
    hide AboutSource, AboutUvs, ReadLine, Comment;
    var first, second := Comment(AboutSource()), Comment(AboutUvs());
    CommentIgnored(n, m, AboutSource());
    CommentIgnored(n, m, AboutUvs());
    assert [first, second][..1] == [first] && [first][..0] == [];
    assert ReadLines(n, m, []) == Some(m);
    assert ReadLines(n, m, [first]) == Some(m);
  }

  lemma CommentIgnored(n: Numbers, m: Mesh, text: string)
    ensures ReadLine(n, m, Comment(text)) == Some(m)
  {
    hide ReadFloats, ReadFace, Fan;
    var line := Comment(text);
    assert line[0] == '#';
    assert Split(line)[0] == line[..FirstSpace(line)];
  }

  lemma FloatPiece(n: Numbers, x: U32)
    requires Lossless(n) && !IsNaN(x)
    ensures var s := n.showFloat(x);
            s != "" && (forall j :: 0 <= j < |s| ==> !IsSpace(s[j])) && n.readFloat(s) == Some(x)
  {
    hide IsSpace;
  }

  lemma NextFloat(n: Numbers, parts: seq<string>, count: nat, before: seq<U32>, x: U32, after: seq<U32>)
    requires ReadFloats(n, parts, count) == Some(before)
    requires count + 1 < |parts| && n.readFloat(parts[count + 1]) == Some(x)
    requires after == before + [x]
    ensures ReadFloats(n, parts, count + 1) == Some(after)
  {
  }

  lemma NextVertex(n: Numbers, before: seq<string>, face: seq<Corner>, vertex: string, c: Corner,
                   after: seq<string>, grown: seq<Corner>)
    requires ReadFace(n, before) == Some(face) && ReadVertex(n, vertex) == Some(c)
    requires after == before + [vertex] && grown == face + [c]
    ensures ReadFace(n, after) == Some(grown)
  {
    hide ReadVertex;
    assert after[..|before|] == before;
  }

  lemma NextLine(n: Numbers, m: Mesh, lines: seq<string>, before: Mesh, line: string)
    requires ReadLines(n, m, lines) == Some(before)
    ensures ReadLines(n, m, lines + [line]) == ReadLine(n, before, line)
  {
    hide ReadLine;
    assert (lines + [line])[..|lines|] == lines;
  }

  lemma Row2Read(n: Numbers, xs: seq<U32>, i: nat)
    requires Lossless(n) && 2 * i + 2 <= |xs| && NoNaNs(xs)
    ensures var parts := Split(Row2(n, "vt", xs, i));
            parts != [] && parts[0] == "vt" && ReadFloats(n, parts, 2) == Some(xs[2 * i..2 * i + 2])
  {
    hide Lossless, Split, IsNaN, Line;
    var words := ["vt", n.showFloat(xs[2 * i]), n.showFloat(xs[2 * i + 1])];
    FloatPiece(n, xs[2 * i]);
    FloatPiece(n, xs[2 * i + 1]);
    assert AllSolid(words);
    SplitLine(words);
    NextFloat(n, words, 0, [], xs[2 * i], [xs[2 * i]]);
    NextFloat(n, words, 1, [xs[2 * i]], xs[2 * i + 1], xs[2 * i..2 * i + 2]);
  }

  lemma Row3Read(n: Numbers, tag: string, xs: seq<U32>, i: nat)
    requires Lossless(n) && 3 * i + 3 <= |xs| && NoNaNs(xs) && (tag == "v" || tag == "vn")
    ensures var parts := Split(Row3(n, tag, xs, i));
            parts != [] && parts[0] == tag && ReadFloats(n, parts, 3) == Some(xs[3 * i..3 * i + 3])
  {
    hide Lossless, Split, IsNaN, Line;
    var words := [tag, n.showFloat(xs[3 * i]), n.showFloat(xs[3 * i + 1]), n.showFloat(xs[3 * i + 2])];
    FloatPiece(n, xs[3 * i]);
    FloatPiece(n, xs[3 * i + 1]);
    FloatPiece(n, xs[3 * i + 2]);
    assert AllSolid(words);
    SplitLine(words);
    NextFloat(n, words, 0, [], xs[3 * i], [xs[3 * i]]);
    NextFloat(n, words, 1, [xs[3 * i]], xs[3 * i + 1], xs[3 * i..3 * i + 2]);
    NextFloat(n, words, 2, xs[3 * i..3 * i + 2], xs[3 * i + 2], xs[3 * i..3 * i + 3]);
  }

  lemma VertexRead(n: Numbers, c: Corner)
    requires Lossless(n)
    ensures var s := ShowVertex(n, c);
            s != "" && (forall j :: 0 <= j < |s| ==> !IsSpace(s[j])) && ReadVertex(n, s) == Some(c)
  {
    hide IsSpace, Fields;
    SlashIsNoSpace();
    FieldsOf(n.showInt(c.position + 1), n.showInt(c.uv + 1), n.showInt(c.normal + 1));
  }

  lemma SlashIsNoSpace()
    ensures !IsSpace('/')
  {
  }

  lemma FaceRead(n: Numbers, cs: seq<Corner>, t: nat)
    requires Lossless(n) && 3 * t + 3 <= |cs|
    ensures var parts := Split(FaceRow(n, cs, t));
            parts != [] && parts[0] == "f" && ReadFace(n, parts[1..]) == Some(cs[3 * t..3 * t + 3])
  {
    hide Lossless, Split, Line, ShowVertex, ReadVertex;
    var a, b, c := ShowVertex(n, cs[3 * t]), ShowVertex(n, cs[3 * t + 1]), ShowVertex(n, cs[3 * t + 2]);
    VertexRead(n, cs[3 * t]);
    VertexRead(n, cs[3 * t + 1]);
    VertexRead(n, cs[3 * t + 2]);
    assert AllSolid(["f", a, b, c]);
    SplitLine(["f", a, b, c]);
    assert ["f", a, b, c][1..] == [a, b, c];
    var x, y, z := cs[3 * t], cs[3 * t + 1], cs[3 * t + 2];
    NextVertex(n, [], [], a, x, [a], [x]);
    NextVertex(n, [a], [x], b, y, [a, b], [x, y]);
    NextVertex(n, [a, b], [x, y], c, z, [a, b, c], cs[3 * t..3 * t + 3]);
  }

  lemma UvRowRead(n: Numbers, m: Mesh, xs: seq<U32>, i: nat)
    requires Lossless(n) && 2 * i + 2 <= |xs| && NoNaNs(xs)
    ensures ReadLine(n, m, Row2(n, "vt", xs, i)) == Some(m.(uvs := m.uvs + xs[2 * i..2 * i + 2]))
  {
    hide Lossless, Split, Row2, ReadFloats, ReadFace, NoNaNs, Fan;
    Row2Read(n, xs, i);
  }

  lemma RowRead(n: Numbers, m: Mesh, tag: string, xs: seq<U32>, i: nat)
    requires Lossless(n) && 3 * i + 3 <= |xs| && NoNaNs(xs) && (tag == "v" || tag == "vn")
    ensures ReadLine(n, m, Row3(n, tag, xs, i)) == Some(WithRows(m, tag, xs[3 * i..3 * i + 3]))
  {
    hide Lossless, Split, Row3, ReadFloats, ReadFace, NoNaNs, Fan;
    Row3Read(n, tag, xs, i);
  }

  lemma FaceRowRead(n: Numbers, m: Mesh, cs: seq<Corner>, t: nat)
    requires Lossless(n) && 3 * t + 3 <= |cs|
    ensures ReadLine(n, m, FaceRow(n, cs, t)) == Some(m.(corners := m.corners + cs[3 * t..3 * t + 3]))
  {
    hide Lossless, Split, FaceRow, ReadFloats, ReadFace, Fan;
    FaceRead(n, cs, t);
    FanTriangles(cs[3 * t..3 * t + 3]);
  }

  lemma {:induction false} UvRowsRead(n: Numbers, m: Mesh, xs: seq<U32>, k: nat)
    requires Lossless(n) && 2 * k <= |xs| && NoNaNs(xs)
    ensures ReadLines(n, m, Rows2(n, "vt", xs, k)) == Some(m.(uvs := m.uvs + xs[..2 * k]))
  {
    hide Lossless, Row2, ReadLine, NoNaNs;
    if k == 0 {
      assert m.uvs + xs[..0] == m.uvs;
    } else {
      UvRowsRead(n, m, xs, k - 1);
      var before := m.(uvs := m.uvs + xs[..2 * (k - 1)]);
      UvRowRead(n, before, xs, k - 1);
      NextLine(n, m, Rows2(n, "vt", xs, k - 1), before, Row2(n, "vt", xs, k - 1));
      assert m.uvs + xs[..2 * k] == before.uvs + xs[2 * (k - 1)..2 * k];
    }
  }

  function WithRows(m: Mesh, tag: string, xs: seq<U32>): Mesh {
    if tag == "v" then m.(positions := m.positions + xs) else m.(normals := m.normals + xs)
  }

  lemma {:induction false} RowsRead(n: Numbers, m: Mesh, tag: string, xs: seq<U32>, k: nat)
    requires Lossless(n) && 3 * k <= |xs| && NoNaNs(xs) && (tag == "v" || tag == "vn")
    ensures ReadLines(n, m, Rows3(n, tag, xs, k)) == Some(WithRows(m, tag, xs[..3 * k]))
  {
    hide Lossless, Row3, ReadLine, NoNaNs, WithRows;
    if k == 0 {
      NoRows(m, tag);
      assert xs[..0] == [];
    } else {
      RowsRead(n, m, tag, xs, k - 1);
      var before, last := WithRows(m, tag, xs[..3 * (k - 1)]), xs[3 * (k - 1)..3 * k];
      RowRead(n, before, tag, xs, k - 1);
      NextLine(n, m, Rows3(n, tag, xs, k - 1), before, Row3(n, tag, xs, k - 1));
      MoreRows(m, tag, xs[..3 * (k - 1)], last, xs[..3 * k]);
    }
  }

  lemma NoRows(m: Mesh, tag: string)
    ensures WithRows(m, tag, []) == m
  {
    assert m.positions + [] == m.positions && m.normals + [] == m.normals;
  }

  lemma MoreRows(m: Mesh, tag: string, a: seq<U32>, b: seq<U32>, both: seq<U32>)
    requires both == a + b
    ensures WithRows(WithRows(m, tag, a), tag, b) == WithRows(m, tag, both)
  {
    assert m.positions + a + b == m.positions + both && m.normals + a + b == m.normals + both;
  }

  lemma {:induction false} FaceRowsRead(n: Numbers, m: Mesh, cs: seq<Corner>, k: nat)
    requires Lossless(n) && 3 * k <= |cs|
    ensures ReadLines(n, m, FaceRows(n, cs, k)) == Some(m.(corners := m.corners + cs[..3 * k]))
  {
    hide Lossless, FaceRow, ReadLine;
    if k == 0 {
      assert m.corners + cs[..0] == m.corners;
    } else {
      FaceRowsRead(n, m, cs, k - 1);
      var before := m.(corners := m.corners + cs[..3 * (k - 1)]);
      FaceRowRead(n, before, cs, k - 1);
      NextLine(n, m, FaceRows(n, cs, k - 1), before, FaceRow(n, cs, k - 1));
      assert m.corners + cs[..3 * k] == before.corners + cs[3 * (k - 1)..3 * k];
    }
  }

  // The printed text, line by line.

  function FloatsText2(n: Numbers, tag: string, xs: seq<U32>, i: nat): string
    requires 2 * i + 2 <= |xs|
  {
    tag + " " + n.showFloat(xs[2 * i]) + " " + n.showFloat(xs[2 * i + 1]) + "\n"
  }

  function FloatsText3(n: Numbers, tag: string, xs: seq<U32>, i: nat): string
    requires 3 * i + 3 <= |xs|
  {
    tag + " " + n.showFloat(xs[3 * i]) + " " + n.showFloat(xs[3 * i + 1]) + " " + n.showFloat(xs[3 * i + 2]) + "\n"
  }

  function VertexText(n: Numbers, c: Corner): string {
    n.showInt(c.position + 1) + "/" + n.showInt(c.uv + 1) + "/" + n.showInt(c.normal + 1)
  }

  function FaceText(n: Numbers, cs: seq<Corner>, i: nat): string
    requires 3 * i + 3 <= |cs|
  {
    "f " + VertexText(n, cs[3 * i]) + " " + VertexText(n, cs[3 * i + 1]) + " " + VertexText(n, cs[3 * i + 2]) + "\n"
  }

  // Two comments, then positions, texture coordinates, normals and faces, as many as there are whole ones, in order.
  lemma PrintedLines(n: Numbers, m: Mesh)
    ensures var lines, p, u, v := Printed(n, m), |m.positions| / 3, |m.uvs| / 2, |m.normals| / 3;
      && |lines| == 2 + p + u + v + |m.corners| / 3
      && lines[0] == "#" + AboutSource() + "\n" && lines[1] == "#" + AboutUvs() + "\n"
      && (forall i :: 0 <= i < p ==> lines[2 + i] == FloatsText3(n, "v", m.positions, i))
      && (forall i :: 0 <= i < u ==> lines[2 + p + i] == FloatsText2(n, "vt", m.uvs, i))
      && (forall i :: 0 <= i < v ==> lines[2 + p + u + i] == FloatsText3(n, "vn", m.normals, i))
      && (forall i :: 0 <= i < |m.corners| / 3 ==> lines[2 + p + u + v + i] == FaceText(n, m.corners, i))
  {
    hide Rows2, Rows3, FaceRows, FloatsText2, FloatsText3, FaceText, AboutSource, AboutUvs;
    Rows3At(n, "v", m.positions, |m.positions| / 3);
    Rows2At(n, "vt", m.uvs, |m.uvs| / 2);
    Rows3At(n, "vn", m.normals, |m.normals| / 3);
    FaceRowsAt(n, m.corners, |m.corners| / 3);
  }

  lemma LineOf2(tag: string, a: string, b: string)
    ensures Line([tag, a, b]) == tag + " " + a + " " + b + "\n"
  {
    assert [tag, a, b][1..] == [a, b] && [a, b][1..] == [b];
    assert Line([b]) == b + "\n";
    assert Line([a, b]) == a + " " + Line([b]);
    assert Line([tag, a, b]) == tag + " " + Line([a, b]);
  }

  lemma LineOf3(tag: string, a: string, b: string, c: string)
    ensures Line([tag, a, b, c]) == tag + " " + a + " " + b + " " + c + "\n"
  {
    assert [tag, a, b, c][1..] == [a, b, c];
    LineOf2(a, b, c);
    assert Line([tag, a, b, c]) == tag + " " + Line([a, b, c]);
  }

  lemma {:induction false} Rows2At(n: Numbers, tag: string, xs: seq<U32>, k: nat)
    requires 2 * k <= |xs|
    ensures |Rows2(n, tag, xs, k)| == k
    ensures forall i :: 0 <= i < k ==> Rows2(n, tag, xs, k)[i] == FloatsText2(n, tag, xs, i)
  {
    hide Line;
    if k > 0 {
      Rows2At(n, tag, xs, k - 1);
      LineOf2(tag, n.showFloat(xs[2 * (k - 1)]), n.showFloat(xs[2 * (k - 1) + 1]));
    }
  }

  lemma {:induction false} Rows3At(n: Numbers, tag: string, xs: seq<U32>, k: nat)
    requires 3 * k <= |xs|
    ensures |Rows3(n, tag, xs, k)| == k
    ensures forall i :: 0 <= i < k ==> Rows3(n, tag, xs, k)[i] == FloatsText3(n, tag, xs, i)
  {
    hide Line;
    if k > 0 {
      Rows3At(n, tag, xs, k - 1);
      var j := 3 * (k - 1);
      LineOf3(tag, n.showFloat(xs[j]), n.showFloat(xs[j + 1]), n.showFloat(xs[j + 2]));
    }
  }

  lemma FaceRowAt(n: Numbers, cs: seq<Corner>, i: nat)
    requires 3 * i + 3 <= |cs|
    ensures FaceRow(n, cs, i) == FaceText(n, cs, i)
  {
    hide Line, ShowVertex, VertexText;
    VertexTexts(n, cs[3 * i]);
    VertexTexts(n, cs[3 * i + 1]);
    VertexTexts(n, cs[3 * i + 2]);
    assert "f" + " " == "f ";
    LineOf3("f", ShowVertex(n, cs[3 * i]), ShowVertex(n, cs[3 * i + 1]), ShowVertex(n, cs[3 * i + 2]));
  }

  lemma VertexTexts(n: Numbers, c: Corner)
    ensures ShowVertex(n, c) == VertexText(n, c)
  {
  }

  lemma {:induction false} FaceRowsAt(n: Numbers, cs: seq<Corner>, k: nat)
    requires 3 * k <= |cs|
    ensures |FaceRows(n, cs, k)| == k
    ensures forall i :: 0 <= i < k ==> FaceRows(n, cs, k)[i] == FaceText(n, cs, i)
  {
    hide FaceRow, FaceText;
    if k > 0 {
      FaceRowsAt(n, cs, k - 1);
      FaceRowAt(n, cs, k - 1);
    }
  }

  // The mesh without what does not make a whole row.
  function Whole(m: Mesh): Mesh {
    Mesh(m.positions[..|m.positions| / 3 * 3], m.uvs[..|m.uvs| / 2 * 2], m.normals[..|m.normals| / 3 * 3],
         m.corners[..|m.corners| / 3 * 3])
  }

  // Reading back what was printed gives the mesh, but for what does not make a whole row.
  lemma PrintedRead(n: Numbers, m: Mesh)
    requires Lossless(n) && NoNaNs(m.positions) && NoNaNs(m.uvs) && NoNaNs(m.normals)
    ensures ReadLines(n, EMPTY, Printed(n, m)) == Some(Whole(m))
  {
    hide Lossless, ReadLines, Rows2, Rows3, FaceRows, NoNaNs, Header;
    var p, u, v := |m.positions| / 3, |m.uvs| / 2, |m.normals| / 3;
    var w := Whole(m);
    HeaderIgnored(n, EMPTY);
    var m1 := EMPTY.(positions := w.positions);
    var m2 := m1.(uvs := w.uvs);
    var m3 := m2.(normals := w.normals);
    assert WithRows(EMPTY, "v", w.positions) == m1 by { assert [] + w.positions == w.positions; }
    assert m1.uvs + w.uvs == w.uvs && m3.corners + w.corners == w.corners;
    assert WithRows(m2, "vn", w.normals) == m3 by { assert [] + w.normals == w.normals; }
    RowsRead(n, EMPTY, "v", m.positions, p);
    UvRowsRead(n, m1, m.uvs, u);
    RowsRead(n, m2, "vn", m.normals, v);
    FaceRowsRead(n, m3, m.corners, |m.corners| / 3);
    var a := Header() + Rows3(n, "v", m.positions, p);
    var b := a + Rows2(n, "vt", m.uvs, u);
    ReadMore(n, EMPTY, Header(), Rows3(n, "v", m.positions, p));
    ReadMore(n, EMPTY, a, Rows2(n, "vt", m.uvs, u));
    ReadMore(n, EMPTY, b, Rows3(n, "vn", m.normals, v));
    ReadMore(n, EMPTY, b + Rows3(n, "vn", m.normals, v), FaceRows(n, m.corners, |m.corners| / 3));
  }

  predicate WholeRows(m: Mesh) {
    |m.positions| % 3 == 0 && |m.uvs| % 2 == 0 && |m.normals| % 3 == 0 && |m.corners| % 3 == 0
  }

  // A binary mesh printed and packed again is the same to the byte exactly if all its rows are whole.
  lemma RoundTrip(n: Numbers, data: seq<Byte>, m: Mesh)
    requires Lossless(n) && Unpacked(data) == Some(m) && NoNaNs(m.positions) && NoNaNs(m.uvs) && NoNaNs(m.normals)
    ensures var again := ReadLines(n, EMPTY, Printed(n, m));
            again.Some? && Packable(again.value) && (Packed(again.value) == data <==> WholeRows(m))
  {
    hide Lossless, ReadLines, Printed, Unpacked, Packed, NoNaNs;
    PrintedRead(n, m);
    UnpackedExactly(data, m);
    UnpackedExactly(data, Whole(m));
    assert Whole(m) == m <==> WholeRows(m) by { WholeExactly(m); }
  }

  lemma WholeExactly(m: Mesh)
    ensures Whole(m) == m <==> WholeRows(m)
  {
  }

  // There are ways to write numbers without loss, if not short ones.

  function Marks(i: int): (s: string)
    ensures s != "" && forall k :: 0 <= k < |s| ==> s[k] == if i < 0 then '-' else '+'
  {
    if i < 0 then seq(-i, _ => '-') else seq(i + 1, _ => '+')
  }

  function ReadMarks(s: string): Option<int> {
    if s == "" then None else if s[0] == '-' then Some(-|s|) else Some(|s| - 1)
  }

  function ReadFloatMarks(s: string): Option<U32> {
    if 0 < |s| <= 0x1_0000_0000 then Some(|s| - 1) else None
  }

  lemma MarksBack(i: int)
    ensures IsPiece(Marks(i)) && ReadMarks(Marks(i)) == Some(i)
    ensures 0 <= i < 0x1_0000_0000 ==> ReadFloatMarks(Marks(i)) == Some(i)
  {
  }

  lemma LosslessIsPossible() returns (n: Numbers)
    ensures Lossless(n)
  {
    hide Marks, ReadMarks, ReadFloatMarks, IsPiece, IsNaN;
    n := Numbers((x: U32) => Marks(x), s => ReadFloatMarks(s), i => Marks(i), s => ReadMarks(s));
    forall x: U32 ensures IsPiece(n.showFloat(x)) && n.readFloat(n.showFloat(x)) == Some(x) {
      MarksBack(x);
    }
    forall i ensures IsPiece(n.showInt(i)) && n.readInt(n.showInt(i)) == Some(i) {
      MarksBack(i);
    }
  }
}

/** The tools that turn binary meshes into text and back. */
module MeshTools {
  import opened Options
  import opened Words
  import opened BinobjFormat
  import opened ObjFormat

  class Reader {
    const data: seq<Byte>
    var offset: nat

    constructor (data: seq<Byte>)
      ensures this.data == data && offset == 0
    {
      this.data, offset := data, 0;
    }

    method ReadInt() returns (value: Option<int>)
      modifies this
      ensures value == if old(offset) + 4 <= |data| then Some(Int(data[old(offset)..old(offset) + 4])) else None
      ensures value.Some? ==> offset == old(offset) + 4
    {
      if offset + 4 > |data| {
        return None;
      }
      value := Some(Int(data[offset..offset + 4]));
      offset := offset + 4;
    }

    method ReadFloats(count: int) returns (values: Option<seq<U32>>)
      modifies this
      ensures values ==
        if count >= 0 && old(offset) + 4 * count <= |data| then Some(FloatsAt(data, old(offset), count)) else None
      ensures values.Some? ==> offset == old(offset) + 4 * count
    {
      if count < 0 || offset + 4 * count > |data| {
        return None;
      }
      var xs: seq<U32> := [];
      for i := 0 to count
        invariant xs == FloatsAt(data, offset, i)
      {
        xs := xs + [Word(data[offset + 4 * i..offset + 4 * i + 4])];
      }
      offset := offset + 4 * count;
      return Some(xs);
    }

    // A count and so many floats.
    method ReadList() returns (values: Option<seq<U32>>)
      modifies this
      ensures values == match SectionAt(data, old(offset)) { case Some(r) => Some(r.0) case None => None }
      ensures values.Some? ==> offset == SectionAt(data, old(offset)).value.1
    {
      hide Int, FloatsAt;
      var count := ReadInt();
      if count.None? {
        return None;
      }
      values := ReadFloats(count.value);
    }
  }

  // The rows of the text of a mesh.
  method PrintMesh(n: Numbers, m: Mesh) returns (lines: seq<string>)
    ensures lines == Printed(n, m)
  {
    hide Row2, Row3, FaceRow, AboutSource, AboutUvs;
    lines := Header();
    ghost var header := lines;
    for i := 0 to |m.positions| / 3
      invariant lines == header + Rows3(n, "v", m.positions, i)
    {
      lines := lines + [Row3(n, "v", m.positions, i)];
    }
    ghost var vs := lines;
    for i := 0 to |m.uvs| / 2
      invariant lines == vs + Rows2(n, "vt", m.uvs, i)
    {
      lines := lines + [Row2(n, "vt", m.uvs, i)];
    }
    ghost var vts := lines;
    for i := 0 to |m.normals| / 3
      invariant lines == vts + Rows3(n, "vn", m.normals, i)
    {
      lines := lines + [Row3(n, "vn", m.normals, i)];
    }
    ghost var vns := lines;
    for t := 0 to |m.corners| / 3
      invariant lines == vns + FaceRows(n, m.corners, t)
    {
      lines := lines + [FaceRow(n, m.corners, t)];
    }
  }

  method Binobj2Obj(n: Numbers, data: seq<Byte>) returns (lines: Option<seq<string>>)
    ensures lines == match Unpacked(data) { case Some(m) => Some(Printed(n, m)) case None => None }
  {
    hide SectionAt, Int, CornerAt, Printed;
    var reader := new Reader(data);
    var positions := reader.ReadList();
    if positions.None? {
      return None;
    }
    var uvs := reader.ReadList();
    if uvs.None? {
      return None;
    }
    var normals := reader.ReadList();
    if normals.None? {
      return None;
    }
    var cornerCount := reader.ReadInt();
    if cornerCount.None? {
      return None;
    }
    var offset := reader.offset;
    var corners := [];
    var i := 0;
    while i < cornerCount.value
      invariant 0 <= i && (cornerCount.value >= 0 ==> i <= cornerCount.value)
      invariant offset + 12 * i <= |data| && corners == CornersAt(data, offset, i)
    {
      if offset + 12 * i + 12 > |data| {
        return None;
      }
      corners := corners + [CornerAt(data, offset + 12 * i)];
      i := i + 1;
    }
    if offset + 12 * cornerCount.value != |data| {
      return None;
    }
    var printed := PrintMesh(n, Mesh(positions.value, uvs.value, normals.value, corners));
    return Some(printed);
  }

  method Triangulate(face: seq<Corner>) returns (corners: seq<Corner>)
    ensures corners == Fan(face)
  {
    corners := [];
    var i := 1;
    while i < |face| - 1
      invariant 1 <= i && (i < |face| || |face| < 2)
      invariant corners == if i < |face| then Fan(face[..i + 1]) else []
    {
      assert face[..i + 2][..i + 1] == face[..i + 1];
      corners := corners + [face[0], face[i], face[i + 1]];
      i := i + 1;
    }
    assert face[..|face|] == face;
  }

  method ParseFace(n: Numbers, vertices: seq<string>) returns (face: Option<seq<Corner>>)
    ensures face == ReadFace(n, vertices)
  {
    hide ReadVertex;
    var read := [];
    for i := 0 to |vertices|
      invariant ReadFace(n, vertices[..i]) == Some(read)
      invariant forall j :: 0 <= j < i ==> ReadVertex(n, vertices[j]).Some?
    {
      var vertex := ReadVertex(n, vertices[i]);
      assert vertices[..i + 1][..i] == vertices[..i];
      if vertex.None? {
        FaceStops(n, vertices, i);
        return None;
      }
      read := read + [vertex.value];
    }
    assert vertices[..|vertices|] == vertices;
    return Some(read);
  }

  lemma {:induction false} FaceStops(n: Numbers, vertices: seq<string>, i: nat)
    requires i < |vertices| && ReadVertex(n, vertices[i]).None?
    ensures ReadFace(n, vertices).None?
  {
    hide ReadVertex;
    if i < |vertices| - 1 {
      FaceStops(n, vertices[..|vertices| - 1], i);
    }
  }

  lemma {:induction false} LinesStop(n: Numbers, m: Mesh, lines: seq<string>, i: nat)
    requires i <= |lines| && ReadLines(n, m, lines[..i]).None?
    ensures ReadLines(n, m, lines).None?
  {
    hide ReadLine;
    if i < |lines| {
      assert lines[..|lines| - 1][..i] == lines[..i];
      LinesStop(n, m, lines[..|lines| - 1], i);
    } else {
      assert lines[..i] == lines;
    }
  }

  method ParseLine(n: Numbers, m: Mesh, line: string) returns (r: Option<Mesh>)
    ensures r == ReadLine(n, m, line)
  {
    hide Split, ReadFloats, ReadFace, Fan;
    var parts := Split(line);
    if parts == [] || (parts[0] != "" && parts[0][0] == '#') {
      return Some(m);
    }
    var tag := parts[0];
    if tag == "v" {
      var xs := ReadFloats(n, parts, 3);
      return if xs.Some? then Some(m.(positions := m.positions + xs.value)) else None;
    } else if tag == "vt" {
      var xs := ReadFloats(n, parts, 2);
      return if xs.Some? then Some(m.(uvs := m.uvs + xs.value)) else None;
    } else if tag == "vn" {
      var xs := ReadFloats(n, parts, 3);
      return if xs.Some? then Some(m.(normals := m.normals + xs.value)) else None;
    } else if tag == "f" {
      var face := ParseFace(n, parts[1..]);
      if face.None? {
        return None;
      }
      var corners := Triangulate(face.value);
      return Some(m.(corners := m.corners + corners));
    }
    return Some(m);
  }

  // Packs a mesh, if its numbers fit.
  method WriteMesh(m: Mesh) returns (out: Option<seq<Byte>>)
    ensures out == if Packable(m) then Some(Packed(m)) else None
  {
    hide BeI32, FloatBytes;
    if |m.positions| >= 0x8000_0000 || |m.uvs| >= 0x8000_0000 || |m.normals| >= 0x8000_0000 {
      return None;
    }
    var bytes := BeI32(|m.positions|) + FloatBytes(m.positions);
    bytes := bytes + (BeI32(|m.uvs|) + FloatBytes(m.uvs));
    bytes := bytes + (BeI32(|m.normals|) + FloatBytes(m.normals));
    if |m.corners| >= 0x8000_0000 {
      return None;
    }
    var corners := [];
    for i := 0 to |m.corners|
      invariant CornersFit(m.corners[..i]) && corners == CornerBytes(m.corners[..i])
    {
      var c := m.corners[i];
      assert m.corners[..i + 1][..i] == m.corners[..i];
      if !CornerFits(c) {
        return None;
      }
      corners := corners + (BeI32(c.position) + BeI32(c.uv) + BeI32(c.normal));
    }
    assert m.corners[..|m.corners|] == m.corners;
    return Some(bytes + (BeI32(|m.corners|) + corners));
  }

  method Obj2Binobj(n: Numbers, lines: seq<string>) returns (out: Option<seq<Byte>>)
    ensures out ==
      match ReadLines(n, EMPTY, lines)
      case Some(m) => if Packable(m) then Some(Packed(m)) else None
      case None => None
  {
    hide ReadLine, Packable, Packed;
    var m := EMPTY;
    for i := 0 to |lines|
      invariant ReadLines(n, EMPTY, lines[..i]) == Some(m)
    {
      assert lines[..i + 1][..i] == lines[..i];
      var read := ParseLine(n, m, lines[i]);
      if read.None? {
        LinesStop(n, EMPTY, lines, i + 1);
        return None;
      }
      m := read.value;
    }
    assert lines[..|lines|] == lines;
    out := WriteMesh(m);
  }
}
