/** UTF-8 as RFC 3629 defines it. */
module Utf8 {
  import opened Words

  // Section 3: the values that have an encoding.
  predicate IsScalar(p: int) { 0 <= p <= 0xD7FF || 0xE000 <= p <= 0x10FFFF }

  type Scalar = p: int | 0 <= p <= 0xD7FF || 0xE000 <= p <= 0x10FFFF

  // The value without its six low bits, and those bits.

  function High(p: nat): nat { p / 0x40 }

  function Low(p: nat): nat { p % 0x40 }

  // Section 3: the octets of a value.
  function Encode(p: Scalar): (s: seq<Byte>)
    ensures 1 <= |s| <= 4
  {
    if p < 0x80 then [p]
    else if p < 0x800 then [0xC0 + High(p), 0x80 + Low(p)]
    else if p < 0x1_0000 then [0xE0 + High(High(p)), 0x80 + Low(High(p)), 0x80 + Low(p)]
    else [0xF0 + High(High(High(p))), 0x80 + Low(High(High(p))), 0x80 + Low(High(p)), 0x80 + Low(p)]
  }

  // Section 4: the syntax of one character.

  predicate IsTail(b: Byte) { 0x80 <= b <= 0xBF }

  predicate WellFormed(s: seq<Byte>) {
    match |s|
    case 1 => s[0] <= 0x7F
    case 2 => 0xC2 <= s[0] <= 0xDF && IsTail(s[1])
    case 3 =>
      || (s[0] == 0xE0 && 0xA0 <= s[1] <= 0xBF && IsTail(s[2]))
      || (0xE1 <= s[0] <= 0xEC && IsTail(s[1]) && IsTail(s[2]))
      || (s[0] == 0xED && 0x80 <= s[1] <= 0x9F && IsTail(s[2]))
      || (0xEE <= s[0] <= 0xEF && IsTail(s[1]) && IsTail(s[2]))
    case 4 =>
      || (s[0] == 0xF0 && 0x90 <= s[1] <= 0xBF && IsTail(s[2]) && IsTail(s[3]))
      || (0xF1 <= s[0] <= 0xF3 && IsTail(s[1]) && IsTail(s[2]) && IsTail(s[3]))
      || (s[0] == 0xF4 && 0x80 <= s[1] <= 0x8F && IsTail(s[2]) && IsTail(s[3]))
    case _ => false
  }

  // The bits that the octets carry, most significant first.
  function Bits(s: seq<Byte>): int
    requires WellFormed(s)
  {
    match |s|
    case 1 => s[0]
    case 2 => Joined(s[0] - 0xC0, s[1])
    case 3 => Joined(Joined(s[0] - 0xE0, s[1]), s[2])
    case 4 => Joined(Joined(Joined(s[0] - 0xF0, s[1]), s[2]), s[3])
  }

  function Joined(high: int, b: Byte): int { high * 0x40 + (b - 0x80) }

  lemma Split(p: nat, b: Byte)
    requires b == 0x80 + Low(p)
    ensures Joined(High(p), b) == p && IsTail(b)
  {
  }

  lemma Join(high: nat, b: Byte)
    requires IsTail(b)
    ensures Joined(high, b) >= 0 && High(Joined(high, b)) == high && 0x80 + Low(Joined(high, b)) == b
  {
  }

  // Decoding an encoding gives the value back.
  lemma EncodeDecodes(p: Scalar)
    ensures WellFormed(Encode(p)) && Bits(Encode(p)) == p
  {
    if p >= 0x80 {
      Split(p, 0x80 + Low(p));
      if p >= 0x800 {
        Split(High(p), 0x80 + Low(High(p)));
        assert p == High(High(p)) * 0x1000 + Low(High(p)) * 0x40 + Low(p);
        if p >= 0x1_0000 {
          Split(High(High(p)), 0x80 + Low(High(High(p))));
        }
      }
    }
  }

  lemma TwoBack(s: seq<Byte>)
    requires WellFormed(s) && |s| == 2
    ensures IsScalar(Bits(s)) && Encode(Bits(s)) == s
  {
    hide High, Low, Joined;
    Join(s[0] - 0xC0, s[1]);
    JoinedIs(s[0] - 0xC0, s[1]);
  }

  lemma ThreeBack(s: seq<Byte>)
    requires WellFormed(s) && |s| == 3
    ensures IsScalar(Bits(s)) && Encode(Bits(s)) == s
  {
    hide High, Low, Joined;
    var high := Joined(s[0] - 0xE0, s[1]);
    Join(s[0] - 0xE0, s[1]);
    JoinedIs(s[0] - 0xE0, s[1]);
    Join(high, s[2]);
    JoinedIs(high, s[2]);
  }

  lemma FourBack(s: seq<Byte>)
    requires WellFormed(s) && |s| == 4
    ensures IsScalar(Bits(s)) && Encode(Bits(s)) == s
  {
    hide High, Low, Joined;
    var high := Joined(s[0] - 0xF0, s[1]);
    var middle := Joined(high, s[2]);
    Join(s[0] - 0xF0, s[1]);
    JoinedIs(s[0] - 0xF0, s[1]);
    Join(high, s[2]);
    JoinedIs(high, s[2]);
    Join(middle, s[3]);
    JoinedIs(middle, s[3]);
  }

  lemma JoinedIs(high: int, b: Byte)
    ensures Joined(high, b) == high * 0x40 + (b - 0x80)
  {
  }

  // The characters of the syntax are encodings, of the value of their bits.
  lemma DecodeEncodes(s: seq<Byte>)
    requires WellFormed(s)
    ensures IsScalar(Bits(s)) && Encode(Bits(s)) == s
  {
    hide High, Low, Joined;
    if |s| == 2 {
      TwoBack(s);
    } else if |s| == 3 {
      ThreeBack(s);
    } else if |s| == 4 {
      FourBack(s);
    }
  }

  // How many octets a character has, as its first one tells.
  function Length(first: Byte): nat {
    if first <= 0x7F then 1
    else if 0xC2 <= first <= 0xDF then 2
    else if 0xE0 <= first <= 0xEF then 3
    else if 0xF0 <= first <= 0xF4 then 4
    else 0
  }

  lemma WellFormedLength(s: seq<Byte>)
    requires WellFormed(s)
    ensures |s| == Length(s[0]) && forall i :: 1 <= i < |s| ==> IsTail(s[i])
  {
  }

  // The bits of octets, whether or not they make a character.
  function AnyBits(s: seq<Byte>, lead: int): int
    requires s != []
  {
    if |s| == 1 then s[0] - lead else Joined(AnyBits(s[..|s| - 1], lead), s[|s| - 1])
  }

  function Lead(length: nat): int { if length == 2 then 0xC0 else if length == 3 then 0xE0 else 0xF0 }

  function Minimum(length: nat): int { if length == 2 then 0x80 else if length == 3 then 0x800 else 0x1_0000 }

  // A first octet and as many tails as it asks for are a character if they are not longer than their value needs,
  // and that value is a scalar one.
  lemma WellFormedValue(s: seq<Byte>)
    requires |s| > 1 && |s| == Length(s[0]) && forall i :: 1 <= i < |s| ==> IsTail(s[i])
    ensures WellFormed(s) <==>
      var v := AnyBits(s, Lead(|s|)); Minimum(|s|) <= v <= 0x10FFFF && !(0xD800 <= v <= 0xDFFF)
    ensures WellFormed(s) ==> Bits(s) == AnyBits(s, Lead(|s|))
  {
    var lead := Lead(|s|);
    assert AnyBits(s[..1], lead) == s[0] - lead;
    assert s[..2][..1] == s[..1];
    assert AnyBits(s[..2], lead) == Joined(s[0] - lead, s[1]);
    if |s| == 2 {
      assert s[..2] == s;
    } else {
      assert s[..3][..2] == s[..2];
      assert AnyBits(s[..3], lead) == Joined(AnyBits(s[..2], lead), s[2]);
      if |s| == 3 {
        assert s[..3] == s;
      } else {
        assert s[..4] == s && s[..4][..3] == s[..3];
      }
    }
  }

  // Of the octets at one place at most one prefix is a character.
  lemma OnePrefix(s: seq<Byte>, m: nat, n: nat)
    requires m <= |s| && n <= |s| && WellFormed(s[..m]) && WellFormed(s[..n])
    ensures m == n
  {
    assert s[..m][0] == s[0] == s[..n][0];
  }

  function EncodeAll(points: seq<Scalar>): seq<Byte> {
    if points == [] then [] else Encode(points[0]) + EncodeAll(points[1..])
  }

  lemma {:induction false} EncodeAllInjective(p: seq<Scalar>, q: seq<Scalar>)
    requires EncodeAll(p) == EncodeAll(q)
    ensures p == q
  {
    hide Encode, WellFormed, Bits;
    if p != [] && q != [] {
      var s := EncodeAll(p);
      EncodeDecodes(p[0]);
      EncodeDecodes(q[0]);
      assert s[..|Encode(p[0])|] == Encode(p[0]) && s[..|Encode(q[0])|] == Encode(q[0]);
      OnePrefix(s, |Encode(p[0])|, |Encode(q[0])|);
      assert EncodeAll(p[1..]) == s[|Encode(p[0])|..] == EncodeAll(q[1..]);
      EncodeAllInjective(p[1..], q[1..]);
      assert p == [p[0]] + p[1..] && q == [q[0]] + q[1..];
    }
  }
}

/** Cyrillic letters in Latin ones. */
module Transliteration {
  import opened Options
  import opened Utf8

  const BASIC_LOWER_FIRST := 0x0430
  const BASIC_LOWER: seq<string> :=
    ["a", "b", "v", "g", "d", "e", "zh", "z"]
    + ["i", "y", "k", "l", "m", "n", "o", "p"]
    + ["r", "s", "t", "u", "f", "kh", "ts", "ch"]
    + ["sh", "sch", "", "y", "", "e", "yu", "ya"]
    + ["e", "yo", "dj", "g", "ye", "dz", "i", "yi"]
    + ["j", "lj", "nj", "c", "k", "i", "w", "dz"]

  function LowercaseCyrillic(point: int): int {
    if 0x0400 <= point <= 0x040F then point + 0x50
    else if 0x0410 <= point <= 0x042F then point + 0x20
    else if point == 0x0490 then 0x0491
    else point
  }

  function TransliterateCyrillic(lowercase: int): Option<string> {
    if BASIC_LOWER_FIRST <= lowercase < BASIC_LOWER_FIRST + |BASIC_LOWER| then
      Some(BASIC_LOWER[lowercase - BASIC_LOWER_FIRST])
    else if lowercase == 0x0491 then Some("g")
    else None
  }

  // What one character of a word turns into.
  function MapPoint(point: Scalar): Option<string> {
    if point < 0x80 then Some([point as char]) else TransliterateCyrillic(LowercaseCyrillic(point))
  }

  // Exactly ASCII, the Cyrillic letters up to U+045F and ghe with upturn have Latin forms; the case does not matter.
  lemma MappedExactly(point: Scalar)
    ensures MapPoint(point).Some? <==> point < 0x80 || 0x0400 <= point <= 0x045F || point == 0x0490 || point == 0x0491
    ensures var lower := LowercaseCyrillic(point); IsScalar(lower) && MapPoint(lower) == MapPoint(point)
  {
    assert |BASIC_LOWER| == 48;
  }

  // Upper and lower case letters pair up: the 32 of the alphabet, the 16 others, and ghe with upturn.
  lemma CasesPair(k: nat)
    ensures k < 32 ==> MapPoint(0x0410 + k) == MapPoint(0x0430 + k)
    ensures k < 16 ==> MapPoint(0x0400 + k) == MapPoint(0x0450 + k)
    ensures MapPoint(0x0490) == MapPoint(0x0491) == Some("g")
  {
    assert |BASIC_LOWER| == 48;
  }

  // Some of the Latin forms, from both ends of the alphabet and of the other letters.
  lemma SomeForms()
    ensures MapPoint(0x0430) == Some("a") && MapPoint(0x044F) == Some("ya")
    ensures MapPoint(0x0450) == Some("e") && MapPoint(0x045F) == Some("dz")
    ensures MapPoint(0x044A) == Some("") && MapPoint(0x044C) == Some("")
    ensures MapPoint(0x0436) == Some("zh") && MapPoint(0x0449) == Some("sch") && MapPoint(0x0451) == Some("yo")
    ensures MapPoint(0x0041) == Some("A")
  {
  }

  ghost predicate AllMapped(points: seq<Scalar>) {
    forall i :: 0 <= i < |points| ==> MapPoint(points[i]).Some?
  }

  function Mapped(points: seq<Scalar>): string
    requires AllMapped(points)
  {
    if points == [] then "" else Mapped(points[..|points| - 1]) + MapPoint(points[|points| - 1]).value
  }
}

/** The tool that writes the passcode dictionary in Latin letters. */
module ZxcvbnTranslit {
  import opened Options
  import opened Words
  import opened Utf8
  import opened Transliteration

  const MINIMUM_MAPPED_LENGTH := 2

  datatype Decoded = Decoded(point: int, length: nat)

  const NOT_DECODED := Decoded(0, 0)

  method ByteAt(text: seq<Byte>, index: nat) returns (b: Byte)
    ensures b == if index < |text| then text[index] else 0
  {
    b := if index < |text| then text[index] else 0;
  }

  lemma NoCharacter(text: seq<Byte>, from: nat)
    requires from < |text|
    requires var length := Length(text[from]);
      || length == 0 || from + length > |text| || !WellFormed(text[from..from + length])
      || exists i :: from < i < from + length && !IsTail(text[i])
    ensures forall n :: from <= n <= |text| ==> !WellFormed(text[from..n])
  {
    hide WellFormed, Length, IsTail;
    forall n | from <= n <= |text| && WellFormed(text[from..n]) ensures false {
      CharacterIsFine(text, from, n);
    }
  }

  lemma CharacterIsFine(text: seq<Byte>, from: nat, n: nat)
    requires from <= n <= |text| && WellFormed(text[from..n])
    ensures from < |text| && n == from + Length(text[from]) && n != from
    ensures forall i :: from < i < n ==> IsTail(text[i])
  {
    hide IsTail;
    var s := text[from..n];
    WellFormedLength(s);
    forall i | from < i < n ensures IsTail(text[i]) {
      assert text[i] == s[i - from];
    }
  }

  method DecodeUtf8(text: seq<Byte>, from: nat) returns (d: Decoded)
    requires from < |text|
    ensures d.length != 0 ==>
      && from + d.length <= |text| && WellFormed(text[from..from + d.length])
      && d.point == Bits(text[from..from + d.length])
    ensures d.length == 0 ==> forall n :: from <= n <= |text| ==> !WellFormed(text[from..n])
  {
    hide WellFormed, Bits, AnyBits;
    var first := ByteAt(text, from);
    var length, minimum, point: int;
    if first < 0x80 {
      Ascii(first);
      assert text[from..from + 1] == [first];
      return Decoded(first, 1);
    } else if first >= 0xC2 && first <= 0xDF {
      length, minimum, point := 2, 0x80, first % 0x20;
    } else if first >= 0xE0 && first <= 0xEF {
      length, minimum, point := 3, 0x800, first % 0x10;
    } else if first >= 0xF0 && first <= 0xF4 {
      length, minimum, point := 4, 0x1_0000, first % 0x08;
    } else {
      NoCharacter(text, from);
      return NOT_DECODED;
    }
    ghost var lead := Lead(length);
    OneOctet(text[from..from + 1], lead);
    for i := 1 to length
      invariant from + i <= |text| && forall j :: from < j < from + i ==> IsTail(text[j])
      invariant point == AnyBits(text[from..from + i], lead)
    {
      var next := ByteAt(text, from + i);
      if next < 0x80 || next > 0xBF {
        NoCharacter(text, from);
        return NOT_DECODED;
      }
      point := point * 0x40 + next % 0x40;
      OneMore(text[from..from + i], next, lead);
      assert text[from..from + i] + [next] == text[from..from + i + 1];
    }
    WellFormedValue(text[from..from + length]);
    var surrogate := point >= 0xD800 && point <= 0xDFFF;
    if point < minimum || surrogate || point > 0x10FFFF {
      NoCharacter(text, from);
      return NOT_DECODED;
    }
    return Decoded(point, length);
  }

  lemma Ascii(b: Byte)
    requires b < 0x80
    ensures WellFormed([b]) && Bits([b]) == b
  {
  }

  lemma OneOctet(s: seq<Byte>, lead: int)
    requires |s| == 1
    ensures AnyBits(s, lead) == s[0] - lead
  {
  }

  lemma OneMore(s: seq<Byte>, b: Byte, lead: int)
    requires s != []
    ensures AnyBits(s + [b], lead) == Joined(AnyBits(s, lead), b)
  {
    assert (s + [b])[..|s|] == s;
  }

  // The values of a text, if it is well-formed.
  function Points(text: seq<Byte>): Option<seq<Scalar>> {
    if text == [] then Some([])
    else
      var length := Length(text[0]);
      if length == 0 || length > |text| || !WellFormed(text[..length]) then None
      else
        DecodeEncodes(text[..length]);
        match Points(text[length..])
        case Some(rest) => Some([Bits(text[..length]) as Scalar] + rest)
        case None => None
  }

  // A text has these values exactly if it is their encoding.
  lemma {:induction false} PointsExactly(text: seq<Byte>, points: seq<Scalar>)
    ensures Points(text) == Some(points) <==> text == EncodeAll(points)
    decreases |text|
  {
    hide WellFormed, Bits, Encode;
    if text != [] {
      if Points(text).Some? {
        var length := Length(text[0]);
        DecodeEncodes(text[..length]);
        PointsExactly(text[length..], Points(text).value[1..]);
        assert text == text[..length] + text[length..];
        if text == EncodeAll(points) {
          EncodeAllInjective(points, Points(text).value);
        }
      }
      if text == EncodeAll(points) {
        EncodeDecodes(points[0]);
        var s := Encode(points[0]);
        WellFormedLength(s);
        assert text[..|s|] == s && text[|s|..] == EncodeAll(points[1..]);
        PointsExactly(text[|s|..], points[1..]);
        assert points == [points[0]] + points[1..];
      }
    }
  }

  // The values of the word are those already seen and those of its rest.
  ghost predicate SeenUpTo(word: seq<Byte>, from: nat, seen: seq<Scalar>)
    requires from <= |word|
  {
    Points(word) ==
      match Points(word[from..])
      case Some(rest) => Some(seen + rest)
      case None => None
  }

  lemma NothingSeen(word: seq<Byte>)
    ensures SeenUpTo(word, 0, [])
  {
    hide Points;
    assert word[0..] == word;
    assert Points(word).Some? ==> [] + Points(word).value == Points(word).value;
  }

  lemma AllSeen(word: seq<Byte>, seen: seq<Scalar>)
    requires SeenUpTo(word, |word|, seen)
    ensures Points(word) == Some(seen)
  {
    assert word[|word|..] == [] && Points([]) == Some([]);
    assert seen + [] == seen;
  }

  lemma SeenOneMore(word: seq<Byte>, from: nat, seen: seq<Scalar>, n: nat)
    requires from + n <= |word| && SeenUpTo(word, from, seen) && WellFormed(word[from..from + n])
    ensures var point := Bits(word[from..from + n]);
      && IsScalar(point) && SeenUpTo(word, from + n, seen + [point])
      && (Points(word).Some? ==> |seen| < |Points(word).value| && Points(word).value[|seen|] == point)
  {
    hide Bits, Encode, WellFormed;
    var left := word[from..];
    assert left[..n] == word[from..from + n] && left[n..] == word[from + n..];
    WellFormedLength(left[..n]);
    DecodeEncodes(left[..n]);
    if Points(left[n..]).Some? {
      var point, rest := Bits(left[..n]), Points(left[n..]).value;
      assert seen + ([point] + rest) == seen + [point] + rest;
    }
  }

  lemma SeenNoMore(word: seq<Byte>, from: nat, seen: seq<Scalar>)
    requires from < |word| && SeenUpTo(word, from, seen)
    requires forall n :: from <= n <= |word| ==> !WellFormed(word[from..n])
    ensures Points(word) == None
  {
    hide WellFormed, Length;
    var left := word[from..];
    var length := Length(left[0]);
    assert length <= |left| ==> left[..length] == word[from..from + length];
  }

  lemma MappedOneMore(seen: seq<Scalar>, point: Scalar)
    requires AllMapped(seen) && MapPoint(point).Some?
    ensures AllMapped(seen + [point]) && Mapped(seen + [point]) == Mapped(seen) + MapPoint(point).value
  {
    hide MapPoint;
    assert (seen + [point])[..|seen|] == seen;
  }

  // A word is mapped exactly if it is well-formed, each of its characters has a Latin form, and these make
  // at least two letters; the result is these forms in order.
  method MapWord(word: seq<Byte>) returns (ok: bool, mapped: string)
    ensures ok <==>
      Points(word).Some? && AllMapped(Points(word).value) && |Mapped(Points(word).value)| >= MINIMUM_MAPPED_LENGTH
    ensures ok ==> mapped == Mapped(Points(word).value)
  {
    hide WellFormed, Bits, MapPoint, Points, SeenUpTo, Mapped;
    mapped := "";
    var from := 0;
    ghost var seen: seq<Scalar> := [];
    NothingSeen(word);
    NothingMapped();
    while from < |word|
      invariant from <= |word| && SeenUpTo(word, from, seen) && AllMapped(seen) && mapped == Mapped(seen)
    {
      var decoded := DecodeUtf8(word, from);
      if decoded.length == 0 {
        SeenNoMore(word, from, seen);
        return false, mapped;
      }
      SeenOneMore(word, from, seen, decoded.length);
      WhatIsMapped(decoded.point);
      from := from + decoded.length;
      if decoded.point < 0x80 {
        mapped := mapped + [decoded.point as char];
      } else {
        var latin := TransliterateCyrillic(LowercaseCyrillic(decoded.point));
        if latin.None? {
          return false, mapped;
        }
        mapped := mapped + latin.value;
      }
      MappedOneMore(seen, decoded.point);
      seen := seen + [decoded.point];
    }
    AllSeen(word, seen);
    ok := |mapped| >= MINIMUM_MAPPED_LENGTH;
  }

  lemma NothingMapped()
    ensures Mapped([]) == ""
  {
  }

  lemma WhatIsMapped(point: Scalar)
    ensures MapPoint(point) ==
      if point < 0x80 then Some([point as char]) else TransliterateCyrillic(LowercaseCyrillic(point))
  {
  }
}
