/** The layout of an update package: what a complete, left-to-right decoder accepts and returns. */
module EnvelopeFormat {
  import opened Options
  import opened Words

  datatype Channel = Stable | Beta | CanaryPublic | CanaryPrivate
  datatype Os = Windows | Mac | Linux
  datatype Arch = X86 | X64 | Arm
  datatype Signature = Signature(keyId: seq<Byte>, bytes: seq<Byte>)

  datatype Header = Header(channel: Channel, os: Os, arch: Arch, version: U64, created: I64)

  datatype Envelope = Envelope(
    header: Header,
    manifest: seq<Byte>,
    manifestSignature: seq<Byte>,
    signatures: seq<Signature>,
    payload: seq<Byte>)

  const MAGIC: seq<Byte> := [0x54, 0x44, 0x55, 0x50] // "TDUP"
  const FORMAT: U32 := 2
  const MAX_MANIFEST: nat := 256 * 1024
  const MAX_MANIFEST_SIGNATURE: nat := 256
  const MAX_SIGNATURES: nat := 16
  const MAX_KEY_ID: nat := 64
  const MAX_SIGNATURE: nat := 512
  const MAX_PAYLOAD: nat := 256 * 1024 * 1024

  function ChannelCode(c: Channel): Byte {
    match c case Stable => 0 case Beta => 1 case CanaryPublic => 2 case CanaryPrivate => 3
  }
  function OsCode(o: Os): Byte { match o case Windows => 0 case Mac => 1 case Linux => 2 }
  function ArchCode(a: Arch): Byte { match a case X86 => 0 case X64 => 1 case Arm => 2 }

  function ChannelOf(b: Byte): Option<Channel> {
    if b == 0 then Some(Stable) else if b == 1 then Some(Beta) else if b == 2 then Some(CanaryPublic)
    else if b == 3 then Some(CanaryPrivate) else None
  }
  function OsOf(b: Byte): Option<Os> {
    if b == 0 then Some(Windows) else if b == 1 then Some(Mac) else if b == 2 then Some(Linux) else None
  }
  function ArchOf(b: Byte): Option<Arch> {
    if b == 0 then Some(X86) else if b == 1 then Some(X64) else if b == 2 then Some(Arm) else None
  }

  // Encoding: each piece goes in front of what follows it.

  function PutU32(v: U32, t: seq<Byte>): seq<Byte> { LeU32(v) + t }

  function PutU64(v: U64, t: seq<Byte>): seq<Byte> { LeU64(v) + t }

  // `quint32(bytes.size())` followed by the bytes: the size keeps only 32 bits.
  function PutField(b: seq<Byte>, t: seq<Byte>): seq<Byte> { PutU32(|b| % 0x1_0000_0000, b + t) }

  function PutSignatures(s: seq<Signature>, t: seq<Byte>): seq<Byte> {
    if s == [] then t else PutField(s[0].keyId, PutField(s[0].bytes, PutSignatures(s[1..], t)))
  }

  function PutCodes(h: Header, t: seq<Byte>): seq<Byte> {
    [ChannelCode(h.channel), OsCode(h.os), ArchCode(h.arch)] + t
  }

  function PutHeader(h: Header, t: seq<Byte>): seq<Byte> {
    MAGIC + PutU32(FORMAT, PutCodes(h, PutU64(h.version, PutU64(ToUnsigned(h.created), t))))
  }

  function PutTail(e: Envelope): seq<Byte> {
    PutField(e.manifestSignature,
      PutU32(|e.signatures| % 0x1_0000_0000, PutSignatures(e.signatures, PutField(e.payload, []))))
  }

  function Encode(e: Envelope): seq<Byte> { PutHeader(e.header, PutField(e.manifest, PutTail(e))) }

  // Everything a signature covers besides the payload hash: magic to the end of the manifest.
  function SignedRegion(e: Envelope): seq<Byte> { PutHeader(e.header, PutField(e.manifest, [])) }

  predicate SizeWithin(b: seq<Byte>, max: nat) { 0 < |b| <= max }

  ghost predicate SignaturesWithin(list: seq<Signature>) {
    forall i :: 0 <= i < |list| ==>
      SizeWithin(list[i].keyId, MAX_KEY_ID) && SizeWithin(list[i].bytes, MAX_SIGNATURE)
  }

  ghost predicate WithinLimits(e: Envelope) {
    && SizeWithin(e.manifest, MAX_MANIFEST)
    && SizeWithin(e.manifestSignature, MAX_MANIFEST_SIGNATURE)
    && |e.signatures| <= MAX_SIGNATURES
    && SignaturesWithin(e.signatures)
    && SizeWithin(e.payload, MAX_PAYLOAD)
  }

  // Decoding: each step takes its piece off the front and returns the rest.

  function TakeU32(s: seq<Byte>): Option<(U32, seq<Byte>)> {
    if |s| < 4 then None else Some((U32At(s, 0), s[4..]))
  }

  function TakeU64(s: seq<Byte>): Option<(U64, seq<Byte>)> {
    if |s| < 8 then None else Some((U64At(s, 0), s[8..]))
  }

  function TakeField(s: seq<Byte>, max: nat): Option<(seq<Byte>, seq<Byte>)> {
    var (n, t) :- TakeU32(s);
    if n == 0 || n > max || n > |t| then None else Some((t[..n], t[n..]))
  }

  function TakeSignatures(s: seq<Byte>, count: nat): Option<(seq<Signature>, seq<Byte>)> {
    if count == 0 then Some(([], s)) else
      var (id, t) :- TakeField(s, MAX_KEY_ID);
      var (bytes, u) :- TakeField(t, MAX_SIGNATURE);
      var (rest, v) :- TakeSignatures(u, count - 1);
      Some(([Signature(id, bytes)] + rest, v))
  }

  function TakeHeader(s: seq<Byte>): Option<(Header, seq<Byte>)> {
    if |s| < 4 || s[..4] != MAGIC then None else
      var (format, t) :- TakeU32(s[4..]);
      if format != FORMAT || |t| < 3 then None else
        var channel :- ChannelOf(t[0]);
        var os :- OsOf(t[1]);
        var arch :- ArchOf(t[2]);
        var (version, u) :- TakeU64(t[3..]);
        var (created, v) :- TakeU64(u);
        Some((Header(channel, os, arch, version, ToSigned(created)), v))
  }

  function TakeBody(h: Header, s: seq<Byte>): Option<Envelope> {
    var (manifest, t) :- TakeField(s, MAX_MANIFEST);
    var (manifestSignature, u) :- TakeField(t, MAX_MANIFEST_SIGNATURE);
    var (count, v) :- TakeU32(u);
    if count > MAX_SIGNATURES then None else
      var (signatures, w) :- TakeSignatures(v, count);
      var (payload, x) :- TakeField(w, MAX_PAYLOAD);
      if x != [] then None else Some(Envelope(h, manifest, manifestSignature, signatures, payload))
  }

  function Decode(s: seq<Byte>): Option<Envelope> {
    var (h, t) :- TakeHeader(s);
    TakeBody(h, t)
  }

  lemma TakeU32Exact(s: seq<Byte>, v: U32, t: seq<Byte>)
    ensures TakeU32(s) == Some((v, t)) <==> s == PutU32(v, t)
  {
    if |s| >= 4 {
      LeU32Inverse(v, s[..4]);
      assert s == s[..4] + s[4..];
    }
  }

  lemma TakeU64Exact(s: seq<Byte>, v: U64, t: seq<Byte>)
    ensures TakeU64(s) == Some((v, t)) <==> s == PutU64(v, t)
  {
    if |s| >= 8 {
      LeU64Inverse(v, s[..8]);
      assert s == s[..8] + s[8..];
      assert U64At(s, 0) == U64At(s[..8], 0);
    }
  }

  lemma TakeFieldExact(s: seq<Byte>, max: nat, b: seq<Byte>, t: seq<Byte>)
    requires max < 0x1_0000_0000
    ensures TakeField(s, max) == Some((b, t)) <==> SizeWithin(b, max) && s == PutField(b, t)
  {
    TakeU32Exact(s, |b| % 0x1_0000_0000, b + t);
    if TakeField(s, max) == Some((b, t)) {
      var (n, u) := TakeU32(s).value;
      assert u == b + t;
    }
  }

  lemma TakeHeaderExact(s: seq<Byte>, h: Header, t: seq<Byte>)
    ensures TakeHeader(s) == Some((h, t)) <==> s == PutHeader(h, t)
  {
    hide TakeU32, PutU32, TakeU64, PutU64;
    var v := PutU64(ToUnsigned(h.created), t);
    var u := PutU64(h.version, v);
    var w := PutCodes(h, u);
    TakeU32Exact(PutU32(FORMAT, w), FORMAT, w);
    TakeU64Exact(u, h.version, v);
    TakeU64Exact(v, ToUnsigned(h.created), t);
    if s == PutHeader(h, t) {
      assert s[..4] == MAGIC && s[4..] == PutU32(FORMAT, w);
      assert w[3..] == u;
    }
    if TakeHeader(s) == Some((h, t)) {
      var (format, w') := TakeU32(s[4..]).value;
      TakeU32Exact(s[4..], format, w');
      var (version, v') := TakeU64(w'[3..]).value;
      var (created, t') := TakeU64(v').value;
      TakeU64Exact(w'[3..], version, v');
      TakeU64Exact(v', created, t');
      assert w' == w'[..3] + w'[3..];
      assert w'[..3] == [ChannelCode(h.channel), OsCode(h.os), ArchCode(h.arch)];
      assert s == s[..4] + s[4..];
    }
  }

  lemma {:induction false} TakeSignaturesOfPut(list: seq<Signature>, t: seq<Byte>)
    requires SignaturesWithin(list)
    ensures TakeSignatures(PutSignatures(list, t), |list|) == Some((list, t))
  {
    hide TakeField, PutField;
    if list != [] {
      var v := PutSignatures(list[1..], t);
      var u := PutField(list[0].bytes, v);
      TakeFieldExact(PutField(list[0].keyId, u), MAX_KEY_ID, list[0].keyId, u);
      TakeFieldExact(u, MAX_SIGNATURE, list[0].bytes, v);
      TakeSignaturesOfPut(list[1..], t);
      assert [list[0]] + list[1..] == list;
    }
  }

  lemma {:induction false} TakenSignaturesPut(s: seq<Byte>, count: nat)
    requires TakeSignatures(s, count).Some?
    ensures var (list, t) := TakeSignatures(s, count).value;
            |list| == count && SignaturesWithin(list) && s == PutSignatures(list, t)
    decreases count
  {
    hide TakeField, PutField;
    if count > 0 {
      var (id, u) := TakeField(s, MAX_KEY_ID).value;
      var (bytes, v) := TakeField(u, MAX_SIGNATURE).value;
      TakeFieldExact(s, MAX_KEY_ID, id, u);
      TakeFieldExact(u, MAX_SIGNATURE, bytes, v);
      TakenSignaturesPut(v, count - 1);
    }
  }

  lemma BodyRoundTrip(e: Envelope)
    requires WithinLimits(e)
    ensures TakeBody(e.header, PutField(e.manifest, PutTail(e))) == Some(e)
  {
    hide TakeField, PutField, TakeU32, PutU32, TakeSignatures, PutSignatures;
    var w := PutField(e.payload, []);
    var v := PutSignatures(e.signatures, w);
    var u := PutU32(|e.signatures|, v);
    var t := PutTail(e);
    TakeFieldExact(PutField(e.manifest, t), MAX_MANIFEST, e.manifest, t);
    TakeFieldExact(t, MAX_MANIFEST_SIGNATURE, e.manifestSignature, u);
    TakeU32Exact(u, |e.signatures|, v);
    TakeSignaturesOfPut(e.signatures, w);
    TakeFieldExact(w, MAX_PAYLOAD, e.payload, []);
  }

  lemma TakenBodyPut(h: Header, s: seq<Byte>)
    requires TakeBody(h, s).Some?
    ensures var e := TakeBody(h, s).value; e.header == h && WithinLimits(e) && s == PutField(e.manifest, PutTail(e))
  {
    hide TakeField, PutField, TakeU32, PutU32, TakeSignatures, PutSignatures;
    var e := TakeBody(h, s).value;
    var (manifest, t) := TakeField(s, MAX_MANIFEST).value;
    var (manifestSignature, u) := TakeField(t, MAX_MANIFEST_SIGNATURE).value;
    var (count, v) := TakeU32(u).value;
    var (signatures, w) := TakeSignatures(v, count).value;
    TakeFieldExact(s, MAX_MANIFEST, manifest, t);
    TakeFieldExact(t, MAX_MANIFEST_SIGNATURE, manifestSignature, u);
    TakeU32Exact(u, count, v);
    TakenSignaturesPut(v, count);
    var (payload, x) := TakeField(w, MAX_PAYLOAD).value;
    TakeFieldExact(w, MAX_PAYLOAD, payload, x);
    assert e == Envelope(h, manifest, manifestSignature, signatures, payload);
  }

  // The decoder accepts exactly the encodings of envelopes within the limits, and returns that envelope.
  lemma DecodeExact(s: seq<Byte>, e: Envelope)
    ensures Decode(s) == Some(e) <==> WithinLimits(e) && s == Encode(e)
  {
    if WithinLimits(e) && s == Encode(e) {
      TakeHeaderExact(s, e.header, PutField(e.manifest, PutTail(e)));
      BodyRoundTrip(e);
    }
    if Decode(s) == Some(e) {
      var (h, t) := TakeHeader(s).value;
      TakeHeaderExact(s, h, t);
      TakenBodyPut(h, t);
    }
  }

  // The limits in numbers.
  lemma LimitsMean(e: Envelope)
    ensures WithinLimits(e) <==>
      && 0 < |e.manifest| <= 262144 && 0 < |e.manifestSignature| <= 256 && 0 < |e.payload| <= 268435456
      && |e.signatures| <= 16
      && forall i :: 0 <= i < |e.signatures| ==>
           0 < |e.signatures[i].keyId| <= 64 && 0 < |e.signatures[i].bytes| <= 512
  {
  }

  // A piece that begins at a place, and what follows it.
  predicate FieldAt(s: seq<Byte>, at: nat, b: seq<Byte>) {
    at + 4 + |b| <= |s| && s[at..at + 4] == LeU32(|b| % 0x1_0000_0000) && s[at + 4..at + 4 + |b|] == b
  }

  // The signatures one after another, each a key id and its bytes, up to `end`.
  predicate SignaturesAt(s: seq<Byte>, at: nat, list: seq<Signature>, end: nat)
    decreases |list|
  {
    if list == [] then at == end
    else
      var bytesAt := at + 4 + |list[0].keyId|;
      && FieldAt(s, at, list[0].keyId) && FieldAt(s, bytesAt, list[0].bytes)
      && SignaturesAt(s, bytesAt + 4 + |list[0].bytes|, list[1..], end)
  }

  // A file begins with `TDUP`, the format 2, a byte each for channel, system and processor, the version and the time.
  lemma HeaderLayout(e: Envelope)
    ensures var s, h := Encode(e), e.header;
      && |s| >= 27 && s[..4] == [0x54, 0x44, 0x55, 0x50] && s[4..8] == [2, 0, 0, 0]
      && s[8] == (match h.channel case Stable => 0 case Beta => 1 case CanaryPublic => 2 case CanaryPrivate => 3)
      && s[9] == (match h.os case Windows => 0 case Mac => 1 case Linux => 2)
      && s[10] == (match h.arch case X86 => 0 case X64 => 1 case Arm => 2)
      && s[11..19] == LeU64(h.version)
      && s[19..27] == LeU64(if h.created < 0 then h.created + 0x1_0000_0000_0000_0000 else h.created)
      && s[27..] == PutField(e.manifest, PutTail(e))
  {
    hide LeU64, PutField, PutTail;
    var h, t := e.header, PutField(e.manifest, PutTail(e));
    var first := MAGIC + [2, 0, 0, 0] + [ChannelCode(h.channel), OsCode(h.os), ArchCode(h.arch)];
    HeaderParts(h, t);
    ThreeParts(first, LeU64(h.version), LeU64(ToUnsigned(h.created)), t);
    assert first[..4] == MAGIC && first[4..8] == [2, 0, 0, 0];
  }

  lemma HeaderParts(h: Header, t: seq<Byte>)
    ensures PutHeader(h, t) ==
      MAGIC + [2, 0, 0, 0] + [ChannelCode(h.channel), OsCode(h.os), ArchCode(h.arch)]
      + LeU64(h.version) + LeU64(ToUnsigned(h.created)) + t
  {
    hide LeU64, ChannelCode, OsCode, ArchCode;
    assert LeU32(FORMAT) == [2, 0, 0, 0];
  }

  lemma ThreeParts(a: seq<Byte>, b: seq<Byte>, c: seq<Byte>, t: seq<Byte>)
    requires |a| == 11 && |b| == |c| == 8
    ensures var s := a + b + c + t;
      |s| >= 27 && s[11..19] == b && s[19..27] == c && s[27..] == t && forall i :: 0 <= i < 11 ==> s[i] == a[i]
    ensures var s := a + b + c + t; s[..4] == a[..4] && s[4..8] == a[4..8]
  {
  }

  // After that come the manifest, its signature, the count of signatures and they themselves, and last the payload.
  lemma BodyLayout(e: Envelope) returns (payloadAt: nat)
    ensures var s, signatureAt := Encode(e), 31 + |e.manifest|;
      var countAt := signatureAt + 4 + |e.manifestSignature|;
      && FieldAt(s, 27, e.manifest) && FieldAt(s, signatureAt, e.manifestSignature)
      && countAt + 4 <= |s| && s[countAt..countAt + 4] == LeU32(|e.signatures| % 0x1_0000_0000)
      && SignaturesAt(s, countAt + 4, e.signatures, payloadAt)
      && FieldAt(s, payloadAt, e.payload) && |s| == payloadAt + 4 + |e.payload|
  {
    hide LeU32, PutHeader, PutU32, FieldAt, SignaturesAt;
    var s, signatureAt := Encode(e), 31 + |e.manifest|;
    var countAt := signatureAt + 4 + |e.manifestSignature|;
    HeaderLayout(e);
    FieldLayout(s, 27, e.manifest, PutTail(e));
    var u := PutU32(|e.signatures| % 0x1_0000_0000, PutSignatures(e.signatures, PutField(e.payload, [])));
    FieldLayout(s, signatureAt, e.manifestSignature, u);
    CountLayout(s, countAt, |e.signatures| % 0x1_0000_0000, PutSignatures(e.signatures, PutField(e.payload, [])));
    payloadAt := SignaturesLayout(s, countAt + 4, e.signatures, PutField(e.payload, []));
    FieldLayout(s, payloadAt, e.payload, []);
  }

  lemma CountLayout(s: seq<Byte>, at: nat, v: U32, t: seq<Byte>)
    requires at <= |s| && s[at..] == PutU32(v, t)
    ensures at + 4 <= |s| && s[at..at + 4] == LeU32(v) && s[at + 4..] == t
  {
    hide LeU32;
    assert |s[at..]| == 4 + |t|;
    assert s[at..at + 4] == s[at..][..4] && s[at + 4..] == s[at..][4..];
  }

  lemma FieldLayout(s: seq<Byte>, at: nat, b: seq<Byte>, t: seq<Byte>)
    requires at <= |s| && s[at..] == PutField(b, t)
    ensures FieldAt(s, at, b) && s[at + 4 + |b|..] == t && |s| == at + 4 + |b| + |t|
  {
    hide LeU32, PutU32;
    CountLayout(s, at, |b| % 0x1_0000_0000, b + t);
    assert s[at + 4..at + 4 + |b|] == s[at + 4..][..|b|] == b;
    assert s[at + 4 + |b|..] == s[at + 4..][|b|..] == t;
  }

  lemma {:induction false} SignaturesLayout(s: seq<Byte>, at: nat, list: seq<Signature>, t: seq<Byte>)
    returns (end: nat)
    requires at <= |s| && s[at..] == PutSignatures(list, t)
    ensures SignaturesAt(s, at, list, end) && end <= |s| && s[end..] == t
    decreases |list|
  {
    hide PutField, FieldAt;
    if list == [] {
      end := at;
    } else {
      var u := PutSignatures(list[1..], t);
      FieldLayout(s, at, list[0].keyId, PutField(list[0].bytes, u));
      FieldLayout(s, at + 4 + |list[0].keyId|, list[0].bytes, u);
      end := SignaturesLayout(s, at + 8 + |list[0].keyId| + |list[0].bytes|, list[1..], t);
    }
  }

  // All that encoding itself needs: sizes that the 32-bit length fields can hold.
  ghost predicate SizesFit(e: Envelope) {
    && |e.manifest| < 0x1_0000_0000 && |e.manifestSignature| < 0x1_0000_0000
    && |e.signatures| < 0x1_0000_0000 && |e.payload| < 0x1_0000_0000
    && SignatureSizesFit(e.signatures)
  }

  ghost predicate SignatureSizesFit(list: seq<Signature>) {
    forall i :: 0 <= i < |list| ==> |list[i].keyId| < 0x1_0000_0000 && |list[i].bytes| < 0x1_0000_0000
  }

  lemma PutU32Injective(v: U32, t: seq<Byte>, v': U32, t': seq<Byte>)
    requires PutU32(v, t) == PutU32(v', t')
    ensures v == v' && t == t'
  {
    hide PutU32;
    TakeU32Exact(PutU32(v, t), v, t);
    TakeU32Exact(PutU32(v, t), v', t');
  }

  lemma PutFieldInjective(b: seq<Byte>, t: seq<Byte>, b': seq<Byte>, t': seq<Byte>)
    requires |b| < 0x1_0000_0000 && |b'| < 0x1_0000_0000 && PutField(b, t) == PutField(b', t')
    ensures b == b' && t == t'
  {
    hide PutU32;
    PutU32Injective(|b|, b + t, |b'|, b' + t');
    assert b == (b + t)[..|b|] && t == (b + t)[|b|..];
    assert b' == (b' + t')[..|b|] && t' == (b' + t')[|b|..];
  }

  lemma {:induction false} PutSignaturesInjective(s: seq<Signature>, t: seq<Byte>, s': seq<Signature>, t': seq<Byte>)
    requires |s| == |s'| && SignatureSizesFit(s) && SignatureSizesFit(s')
    requires PutSignatures(s, t) == PutSignatures(s', t')
    ensures s == s' && t == t'
  {
    hide PutField;
    if s != [] {
      var u, u' := PutSignatures(s[1..], t), PutSignatures(s'[1..], t');
      PutFieldInjective(s[0].keyId, PutField(s[0].bytes, u), s'[0].keyId, PutField(s'[0].bytes, u'));
      PutFieldInjective(s[0].bytes, u, s'[0].bytes, u');
      PutSignaturesInjective(s[1..], t, s'[1..], t');
      assert s == [s[0]] + s[1..] && s' == [s'[0]] + s'[1..];
    }
  }

  lemma PutHeaderInjective(h: Header, t: seq<Byte>, h': Header, t': seq<Byte>)
    requires PutHeader(h, t) == PutHeader(h', t')
    ensures h == h' && t == t'
  {
    hide PutHeader;
    TakeHeaderExact(PutHeader(h, t), h, t);
    TakeHeaderExact(PutHeader(h, t), h', t');
  }

  // No two envelopes share their bytes, far beyond the limits the decoder sets.
  lemma EncodeInjective(e: Envelope, e': Envelope)
    requires SizesFit(e) && SizesFit(e') && Encode(e) == Encode(e')
    ensures e == e'
  {
    hide PutHeader, PutField, PutU32, PutSignatures;
    var w, w' := PutField(e.payload, []), PutField(e'.payload, []);
    var v, v' := PutSignatures(e.signatures, w), PutSignatures(e'.signatures, w');
    var u, u' := PutU32(|e.signatures|, v), PutU32(|e'.signatures|, v');
    PutHeaderInjective(e.header, PutField(e.manifest, PutTail(e)), e'.header, PutField(e'.manifest, PutTail(e')));
    PutFieldInjective(e.manifest, PutTail(e), e'.manifest, PutTail(e'));
    PutFieldInjective(e.manifestSignature, u, e'.manifestSignature, u');
    PutU32Injective(|e.signatures|, v, |e'.signatures|, v');
    PutSignaturesInjective(e.signatures, w, e'.signatures, w');
    PutFieldInjective(e.payload, [], e'.payload, []);
  }

  lemma SignedRegionIsPrefix(e: Envelope)
    ensures Encode(e) == SignedRegion(e) + PutTail(e)
  {
    hide LeU32, LeU64, PutTail;
    var t := PutTail(e);
    assert PutField(e.manifest, t) == PutField(e.manifest, []) + t;
    var m := PutField(e.manifest, []);
    var v, v' := PutU64(ToUnsigned(e.header.created), m + t), PutU64(ToUnsigned(e.header.created), m);
    assert v == v' + t;
    var u, u' := PutU64(e.header.version, v), PutU64(e.header.version, v');
    assert u == u' + t;
    assert PutCodes(e.header, u) == PutCodes(e.header, u') + t;
  }

  // Replacing the signatures of a decoded package keeps every other field and the very bytes that get signed.
  lemma ResigningKeepsTheRest(data: seq<Byte>, e: Envelope, signatures: seq<Signature>)
    requires Decode(data) == Some(e)
    ensures var e' := e.(signatures := signatures); var n := |SignedRegion(e)|;
            && n <= |data| && n <= |Encode(e')| && Encode(e')[..n] == data[..n] == SignedRegion(e)
            && (Decode(Encode(e')) == Some(e') <==> |signatures| <= MAX_SIGNATURES && SignaturesWithin(signatures))
  {
    hide SignedRegion, PutTail, Encode, Decode;
    var e' := e.(signatures := signatures);
    DecodeExact(data, e);
    DecodeExact(Encode(e'), e');
    SignedRegionIsPrefix(e);
    SignedRegionIsPrefix(e');
    SameSignedRegion(e, e');
  }

  lemma SameSignedRegion(e: Envelope, e': Envelope)
    requires e.header == e'.header && e.manifest == e'.manifest
    ensures SignedRegion(e) == SignedRegion(e')
  {
  }
}

/** The packer's writer. */
module Packer {
  import opened Options
  import opened Words
  import opened EnvelopeFormat

  method AppendLeU32(to: seq<Byte>, value: U32, ghost rest: seq<Byte>) returns (r: seq<Byte>)
    ensures r + rest == to + PutU32(value, rest)
  {
    r := to + [value % 0x100, value / 0x100 % 0x100, value / 0x1_0000 % 0x100, value / 0x100_0000 % 0x100];
  }

  method AppendLeU64(to: seq<Byte>, value: U64, ghost rest: seq<Byte>) returns (r: seq<Byte>)
    ensures r + rest == to + PutU64(value, rest)
  {
    hide LeU32;
    ghost var low, high := LeU32(value % 0x1_0000_0000), LeU32(value / 0x1_0000_0000);
    r := AppendLeU32(to, value % 0x1_0000_0000, high + rest);
    assert r == to + low by {
      assert to + (low + (high + rest)) == (to + low) + (high + rest);
      assert r == (r + (high + rest))[..|r|] && to + low == ((to + low) + (high + rest))[..|r|];
    }
    ghost var to' := r;
    r := AppendLeU32(r, value / 0x1_0000_0000, rest);
    assert r + rest == to' + (high + rest) == to + ((low + high) + rest);
  }

  method AppendField(to: seq<Byte>, bytes: seq<Byte>, ghost rest: seq<Byte>) returns (r: seq<Byte>)
    ensures r + rest == to + PutField(bytes, rest)
  {
    hide LeU32;
    r := AppendLeU32(to, |bytes| % 0x1_0000_0000, bytes + rest);
    ghost var to' := r;
    r := r + bytes;
    assert r + rest == to' + (bytes + rest);
  }

  method BuildV2Envelope(header: Header, manifest: seq<Byte>, manifestSignature: seq<Byte>,
                         signatures: seq<Signature>, payload: seq<Byte>) returns (result: seq<Byte>)
    ensures result == Encode(Envelope(header, manifest, manifestSignature, signatures, payload))
  {
    hide PutField, PutU32, PutU64;
    ghost var e := Envelope(header, manifest, manifestSignature, signatures, payload);
    ghost var w := PutField(payload, []);
    ghost var v := PutSignatures(signatures, w);
    ghost var t := PutTail(e);
    ghost var m := PutField(manifest, t);
    ghost var c := PutU64(ToUnsigned(header.created), m);
    ghost var n := PutU64(header.version, c);
    result := MAGIC;
    result := AppendLeU32(result, FORMAT, PutCodes(header, n));
    assert result + PutCodes(header, n) == Encode(e);
    ghost var before := result;
    result := result + [ChannelCode(header.channel)] + [OsCode(header.os)] + [ArchCode(header.arch)];
    assert result + n == before + PutCodes(header, n);
    result := AppendLeU64(result, header.version, c);
    result := AppendLeU64(result, ToUnsigned(header.created), m);
    result := AppendField(result, manifest, t);
    result := AppendField(result, manifestSignature, PutU32(|signatures| % 0x1_0000_0000, v));
    result := AppendLeU32(result, |signatures| % 0x1_0000_0000, v);
    var i := 0;
    assert signatures[0..] == signatures;
    while i < |signatures|
      invariant 0 <= i <= |signatures|
      invariant result + PutSignatures(signatures[i..], w) == Encode(e)
    {
      ghost var rest := PutSignatures(signatures[i + 1..], w);
      assert signatures[i..][0] == signatures[i] && signatures[i..][1..] == signatures[i + 1..];
      result := AppendField(result, signatures[i].keyId, PutField(signatures[i].bytes, rest));
      result := AppendField(result, signatures[i].bytes, rest);
      i := i + 1;
    }
    result := AppendField(result, payload, []);
    assert result == result + [];
  }

  datatype Parsed = Parsed(envelope: Envelope, signedRegion: seq<Byte>)

  class Reader {
    const data: seq<Byte>
    var offset: nat

    ghost predicate Valid()
      reads this
    {
      offset <= |data|
    }

    ghost function Rest(): seq<Byte>
      reads this
      requires Valid()
    {
      data[offset..]
    }

    constructor (data: seq<Byte>, offset: nat)
      requires offset <= |data|
      ensures Valid() && this.data == data && this.offset == offset
    {
      this.data := data;
      this.offset := offset;
    }

    method ReadU8() returns (r: Option<Byte>)
      requires Valid()
      modifies this
      ensures Valid() && old(offset) <= offset
      ensures r == if |old(Rest())| < 1 then None else Some(old(Rest())[0])
      ensures r.Some? ==> Rest() == old(Rest())[1..]
    {
      if 1 > |data| - offset {
        return None;
      }
      offset := offset + 1;
      return Some(data[offset - 1]);
    }

    method ReadU32() returns (r: Option<U32>)
      requires Valid()
      modifies this
      ensures Valid() && old(offset) <= offset
      ensures r.None? <==> TakeU32(old(Rest())).None?
      ensures r.Some? ==> TakeU32(old(Rest())) == Some((r.value, Rest()))
    {
      if 4 > |data| - offset {
        return None;
      }
      var b0: int, b1: int, b2: int, b3: int := data[offset], data[offset + 1], data[offset + 2], data[offset + 3];
      offset := offset + 4;
      return Some(b0 + b1 * 0x100 + b2 * 0x1_0000 + b3 * 0x100_0000);
    }

    method ReadU64() returns (r: Option<U64>)
      requires Valid()
      modifies this
      ensures Valid() && old(offset) <= offset
      ensures r.None? <==> TakeU64(old(Rest())).None?
      ensures r.Some? ==> TakeU64(old(Rest())) == Some((r.value, Rest()))
    {
      ghost var s := Rest();
      var low := ReadU32();
      assert low.Some? ==> Rest() == s[4..];
      var high := ReadU32();
      assert |s| >= 8 ==> s[4..][4..] == s[8..] && U32At(s[4..], 0) == U32At(s, 4);
      if low.None? || high.None? {
        return None;
      }
      var l: int, h: int := low.value, high.value;
      return Some(l + h * 0x1_0000_0000);
    }

    method ReadBytes(count: U32) returns (r: Option<seq<Byte>>)
      requires Valid()
      modifies this
      ensures Valid() && old(offset) <= offset
      ensures r == if count > |old(Rest())| then None else Some(old(Rest())[..count])
      ensures r.Some? ==> Rest() == old(Rest())[count..]
    {
      if count > |data| - offset {
        return None;
      }
      assert data[offset..offset + count] == Rest()[..count];
      r := Some(data[offset..offset + count]);
      offset := offset + count;
    }

    // A length that must be between 1 and `max`, and that many bytes.
    method ReadField(max: nat) returns (r: Option<seq<Byte>>)
      requires Valid()
      modifies this
      ensures Valid() && old(offset) <= offset
      ensures r.None? <==> TakeField(old(Rest()), max).None?
      ensures r.Some? ==> TakeField(old(Rest()), max) == Some((r.value, Rest()))
    {
      hide TakeU32;
      var length := ReadU32();
      if length.None? || length.value == 0 || length.value > max {
        return None;
      }
      r := ReadBytes(length.value);
    }

    method ReadSignatures(count: nat) returns (r: Option<seq<Signature>>)
      requires Valid()
      modifies this
      ensures Valid() && old(offset) <= offset
      ensures r.None? <==> TakeSignatures(old(Rest()), count).None?
      ensures r.Some? ==> TakeSignatures(old(Rest()), count) == Some((r.value, Rest()))
    {
      hide TakeField;
      var i, list := 0, [];
      assert forall more: seq<Signature> :: [] + more == more;
      while i < count
        invariant 0 <= i <= count && Valid() && old(offset) <= offset
        invariant TakeSignatures(old(Rest()), count) ==
                    match TakeSignatures(Rest(), count - i)
                    case None => None
                    case Some((more, t)) => Some((list + more, t))
      {
        ghost var before := Rest();
        var id := ReadField(MAX_KEY_ID);
        if id.None? {
          return None;
        }
        var bytes := ReadField(MAX_SIGNATURE);
        if bytes.None? {
          return None;
        }
        ghost var later := TakeSignatures(Rest(), count - i - 1);
        assert later.Some? ==>
            list + ([Signature(id.value, bytes.value)] + later.value.0)
              == list + [Signature(id.value, bytes.value)] + later.value.0;
        list := list + [Signature(id.value, bytes.value)];
        i := i + 1;
      }
      assert list + [] == list;
      return Some(list);
    }
  }

  method ParseHeader(reader: Reader) returns (r: Option<Header>)
    requires reader.Valid() && reader.offset == 0
    modifies reader
    ensures reader.Valid()
    ensures r.None? <==> TakeHeader(reader.data).None?
    ensures r.Some? ==> TakeHeader(reader.data) == Some((r.value, reader.Rest()))
  {
    hide TakeU32, TakeU64;
    if |reader.data| < 4 || reader.data[..4] != MAGIC {
      return None;
    }
    reader.offset := 4;
    var format := reader.ReadU32();
    if format.None? || format.value != FORMAT {
      return None;
    }
    ghost var codes := reader.Rest();
    var channel := reader.ReadU8();
    if channel.None? || ChannelOf(channel.value).None? {
      return None;
    }
    var os := reader.ReadU8();
    if os.None? || OsOf(os.value).None? {
      return None;
    }
    var arch := reader.ReadU8();
    if arch.None? || ArchOf(arch.value).None? {
      return None;
    }
    assert reader.Rest() == codes[3..];
    var version := reader.ReadU64();
    if version.None? {
      return None;
    }
    var created := reader.ReadU64();
    if created.None? {
      return None;
    }
    return Some(Header(ChannelOf(channel.value).value, OsOf(os.value).value, ArchOf(arch.value).value,
                       version.value, ToSigned(created.value)));
  }

  // The tail left after the manifest begins exactly where the signed region ends.
  lemma RegionAt(data: seq<Byte>, e: Envelope, tail: seq<Byte>, n: nat)
    requires Decode(data) == Some(e) && n <= |data| && tail == data[n..]
    requires TakeField(TakeHeader(data).value.1, MAX_MANIFEST) == Some((e.manifest, tail))
    ensures data[..n] == SignedRegion(e)
  {
    hide PutHeader, PutField, PutTail, TakeField, TakeHeader, SignedRegion;
    var (h, t) := TakeHeader(data).value;
    DecodeExact(data, e);
    TakeHeaderExact(data, h, t);
    TakeFieldExact(t, MAX_MANIFEST, e.manifest, tail);
    PutHeaderInjective(h, t, e.header, PutField(e.manifest, PutTail(e)));
    PutFieldInjective(e.manifest, tail, e.manifest, PutTail(e));
    SignedRegionIsPrefix(e);
    assert data[..n] == (SignedRegion(e) + tail)[..n];
  }

  method ParseEnvelope(data: seq<Byte>) returns (r: Option<Parsed>)
    ensures r == match Decode(data) case None => None case Some(e) => Some(Parsed(e, SignedRegion(e)))
  {
    hide TakeHeader, TakeField, TakeU32, TakeSignatures, SignedRegion;
    var reader := new Reader(data, 0);
    var header := ParseHeader(reader);
    if header.None? {
      return None;
    }
    var manifest := reader.ReadField(MAX_MANIFEST);
    if manifest.None? {
      return None;
    }
    var region := data[..reader.offset];
    ghost var tail := reader.Rest();
    var manifestSignature := reader.ReadField(MAX_MANIFEST_SIGNATURE);
    if manifestSignature.None? {
      return None;
    }
    var count := reader.ReadU32();
    if count.None? || count.value > MAX_SIGNATURES {
      return None;
    }
    var signatures := reader.ReadSignatures(count.value);
    if signatures.None? {
      return None;
    }
    var payload := reader.ReadField(MAX_PAYLOAD);
    if payload.None? || reader.offset != |data| {
      return None;
    }
    var e := Envelope(header.value, manifest.value, manifestSignature.value, signatures.value, payload.value);
    assert Decode(data) == Some(e);
    RegionAt(data, e, tail, |region|);
    return Some(Parsed(e, region));
  }

  // The embed pass: only an unsigned package of the expected channel gets the signatures, and only a file that the
  // clients' own check (`verify`, for the package's channel and target) accepts leaves it.
  method EmbedV2Signatures(data: seq<Byte>, expected: Option<Channel>, signatures: seq<Signature>,
                           verify: (seq<Byte>, Header) -> bool)
    returns (r: Option<seq<Byte>>)
    ensures r.Some? <==> && Decode(data).Some? && Decode(data).value.signatures == []
                         && (expected.Some? ==> expected.value == Decode(data).value.header.channel)
                         && signatures != []
                         && var signed := Decode(data).value.(signatures := signatures);
                            verify(Encode(signed), signed.header)
    ensures r.Some? ==> r.value == Encode(Decode(data).value.(signatures := signatures))
  {
    hide Decode, Encode;
    var parsed := ParseEnvelope(data);
    if parsed.None? {
      return None;
    }
    var e := parsed.value.envelope;
    if e.signatures != [] || (expected.Some? && expected.value != e.header.channel) || signatures == [] {
      return None;
    }
    var result := BuildV2Envelope(e.header, e.manifest, e.manifestSignature, signatures, e.payload);
    return if verify(result, e.header) then Some(result) else None;
  }
}
