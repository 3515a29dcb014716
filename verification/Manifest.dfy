/** Release manifests: structure, acceptance, and the bytes that are signed. */
module Manifest {
  import opened Common

  newtype byte = x: int | 0 <= x < 256
  type Bytes = seq<byte>

  const MAX_ARTIFACT_BYTES := 0x10_0000_0000
  type U64 = x: int | 0 <= x < 0x1_0000_0000_0000_0000
  type I64 = x: int | -0x8000_0000_0000_0000 <= x < 0x8000_0000_0000_0000

  datatype Manifest = Manifest(
    version: byte, artifact: Bytes, digest: Bytes, sizeBytes: U64, target: Bytes,
    securityRevision: U64, issuedAt: I64, expiresAt: I64, keyID: Bytes, signature: Bytes)

  /** `sha256:` in ASCII. */
  const DIGEST_PREFIX: Bytes := [0x73, 0x68, 0x61, 0x32, 0x35, 0x36, 0x3a]
  /** `TOS-AI-UPDATE-MANIFEST` in ASCII, followed by a zero byte. */
  const DOMAIN: Bytes := [
    0x54, 0x4f, 0x53, 0x2d, 0x41, 0x49, 0x2d, 0x55, 0x50, 0x44, 0x41, 0x54, 0x45, 0x2d,
    0x4d, 0x41, 0x4e, 0x49, 0x46, 0x45, 0x53, 0x54, 0x00]

  predicate HexByte(b: byte) {
    0x30 <= b <= 0x39 || 0x61 <= b <= 0x66 || 0x41 <= b <= 0x46
  }

  predicate Structured(m: Manifest) {
    && m.version == 1
    && 0 < |m.artifact| <= 512 && 0 < |m.target| <= 256 && 0 < |m.keyID| <= 512
    && |m.digest| == 71 && m.digest[..7] == DIGEST_PREFIX && (forall i :: 7 <= i < 71 ==> HexByte(m.digest[i]))
    && 0 < m.sizeBytes <= MAX_ARTIFACT_BYTES && m.issuedAt < m.expiresAt
  }

  // ------------------------------------------------------------ signed layout

  /** The low `k` bytes of `n`, most significant first. */
  function BigEndian(n: nat, k: nat): (r: Bytes)
    ensures |r| == k
  {
    if k == 0 then [] else BigEndian(n / 256, k - 1) + [(n % 256) as byte]
  }

  function FromBigEndian(bs: Bytes): nat {
    if bs == [] then 0 else FromBigEndian(bs[..|bs| - 1]) * 256 + bs[|bs| - 1] as int
  }

  function Power256(k: nat): nat { if k == 0 then 1 else 256 * Power256(k - 1) }

  lemma {:induction false} BigEndianInverts(n: nat, k: nat)
    requires n < Power256(k)
    ensures FromBigEndian(BigEndian(n, k)) == n
    decreases k
  {
    if k > 0 {
      BigEndianInverts(n / 256, k - 1);
      var bs := BigEndian(n, k);
      assert bs[..|bs| - 1] == BigEndian(n / 256, k - 1);
    }
  }

  lemma Powers()
    ensures Power256(4) == 0x1_0000_0000 && Power256(8) == 0x1_0000_0000_0000_0000
  {
    assert Power256(2) == 0x1_0000 && Power256(3) == 0x100_0000 && Power256(4) == 0x1_0000_0000;
    assert Power256(5) == 0x100_0000_0000 && Power256(6) == 0x1_0000_0000_0000 && Power256(7) == 0x100_0000_0000_0000;
  }

  /** Two's complement. */
  function Unsigned(x: I64): U64 { if x < 0 then x + 0x1_0000_0000_0000_0000 else x }
  function Signed(x: U64): I64 { if x < 0x8000_0000_0000_0000 then x else x - 0x1_0000_0000_0000_0000 }

  /** A 32-bit length, which wraps for longer values, then the bytes. */
  function StringField(s: Bytes): Bytes { BigEndian(|s| % 0x1_0000_0000, 4) + s }
  function Word(x: U64): Bytes { BigEndian(x, 8) }

  function Body(m: Manifest): Bytes {
    StringField(m.artifact) + (StringField(m.digest) + (Word(m.sizeBytes) + (StringField(m.target)
      + (Word(m.securityRevision)
         + (Word(Unsigned(m.issuedAt)) + (Word(Unsigned(m.expiresAt)) + StringField(m.keyID)))))))
  }

  function Encode(m: Manifest): Bytes { DOMAIN + [m.version] + Body(m) }

  function TakeWord(bs: Bytes): Option<(nat, Bytes)> {
    if |bs| < 8 then None else Some((FromBigEndian(bs[..8]), bs[8..]))
  }

  function TakeString(bs: Bytes): Option<(Bytes, Bytes)> {
    if |bs| < 4 then None
    else
      var n := FromBigEndian(bs[..4]);
      if |bs| - 4 < n then None else Some((bs[4..4 + n], bs[4 + n..]))
  }

  /** A reader of the layout, written against the format rather than the writer. */
  function Decode(bs: Bytes, signature: Bytes): Option<Manifest> {
    if |bs| < 24 || bs[..23] != DOMAIN then None else DecodeBody(bs[24..], bs[23], signature)
  }

  function DecodeBody(bs: Bytes, version: byte, signature: Bytes): Option<Manifest> {
    match TakeString(bs) case None => None case Some((artifact, b1)) =>
    match TakeString(b1) case None => None case Some((digest, b2)) =>
    match TakeWord(b2) case None => None case Some((size, b3)) =>
    match TakeString(b3) case None => None case Some((target, b4)) =>
    match TakeWord(b4) case None => None case Some((revision, b5)) =>
    match TakeWord(b5) case None => None case Some((issued, b6)) =>
    match TakeWord(b6) case None => None case Some((expires, b7)) =>
    match TakeString(b7) case None => None case Some((keyID, rest)) =>
      if rest != [] || size >= 0x1_0000_0000_0000_0000 || revision >= 0x1_0000_0000_0000_0000
         || issued >= 0x1_0000_0000_0000_0000 || expires >= 0x1_0000_0000_0000_0000 then None
      else Some(Manifest(version, artifact, digest, size, target, revision, Signed(issued), Signed(expires), keyID,
                         signature))
  }

  lemma TakesWord(x: U64, rest: Bytes)
    ensures TakeWord(Word(x) + rest) == Some((x, rest))
  {
    Powers();
    BigEndianInverts(x, 8);
    assert (Word(x) + rest)[..8] == Word(x) && (Word(x) + rest)[8..] == rest;
  }

  lemma TakesString(s: Bytes, rest: Bytes)
    requires |s| < 0x1_0000_0000
    ensures TakeString(StringField(s) + rest) == Some((s, rest))
  {
    Powers();
    BigEndianInverts(|s|, 4);
    var bs := StringField(s) + rest;
    assert bs[..4] == BigEndian(|s|, 4);
    assert bs[4..4 + |s|] == s && bs[4 + |s|..] == rest;
  }

  /** Every string length fits its 32-bit prefix. */
  predicate Encodable(m: Manifest) {
    |m.artifact| < 0x1_0000_0000 && |m.digest| < 0x1_0000_0000 && |m.target| < 0x1_0000_0000
    && |m.keyID| < 0x1_0000_0000
  }

  lemma BodyInverts(m: Manifest)
    requires Encodable(m)
    ensures DecodeBody(Body(m), m.version, m.signature) == Some(m)
  {
    hide StringField, Word, TakeWord, TakeString;
    var b7 := StringField(m.keyID);
    var b6 := Word(Unsigned(m.expiresAt)) + b7;
    var b5 := Word(Unsigned(m.issuedAt)) + b6;
    var b4 := Word(m.securityRevision) + b5;
    var b3 := StringField(m.target) + b4;
    var b2 := Word(m.sizeBytes) + b3;
    var b1 := StringField(m.digest) + b2;
    TakesString(m.artifact, b1);
    TakesString(m.digest, b2);
    TakesWord(m.sizeBytes, b3);
    TakesString(m.target, b4);
    TakesWord(m.securityRevision, b5);
    TakesWord(Unsigned(m.issuedAt), b6);
    TakesWord(Unsigned(m.expiresAt), b7);
    TakesString(m.keyID, []);
    assert StringField(m.keyID) + [] == b7;
  }

  /** The signed bytes determine every field except the signature. */
  lemma DecodeInverts(m: Manifest)
    requires Encodable(m)
    ensures Decode(Encode(m), m.signature) == Some(m)
  {
    hide Body, DecodeBody;
    BodyInverts(m);
    assert Encode(m)[..23] == DOMAIN && Encode(m)[23] == m.version && Encode(m)[24..] == Body(m);
  }

  lemma SignatureIsNotSigned(m: Manifest)
    ensures Encode(m.(signature := [])) == Encode(m)
  {
    hide StringField, Word;
  }

  /** Two structurally valid manifests have equal signing bytes exactly when they
      agree on everything but the signature. */
  lemma SigningBytesAreInjective(m: Manifest, n: Manifest)
    requires Structured(m) && Structured(n)
    ensures Encode(m) == Encode(n) <==> m.(signature := []) == n.(signature := [])
  {
    hide Encode, Decode;
    DecodeInverts(m.(signature := []));
    DecodeInverts(n.(signature := []));
    SignatureIsNotSigned(m);
    SignatureIsNotSigned(n);
  }

  method WriteString(output: Bytes, value: Bytes) returns (r: Bytes)
    ensures r == output + StringField(value)
  {
    r := output + BigEndian(|value| % 0x1_0000_0000, 4);
    r := r + value;
  }

  lemma Regroup(a: Bytes, b: Bytes, c: Bytes)
    ensures (a + b) + c == a + (b + c)
  {
  }

  /** The buffer the signature is computed over. */
  method SigningMessage(m: Manifest) returns (output: Bytes)
    ensures output == Encode(m)
  {
    hide StringField, Word;
    ghost var b7 := StringField(m.keyID);
    ghost var b6 := Word(Unsigned(m.expiresAt)) + b7;
    ghost var b5 := Word(Unsigned(m.issuedAt)) + b6;
    ghost var b4 := Word(m.securityRevision) + b5;
    ghost var b3 := StringField(m.target) + b4;
    ghost var b2 := Word(m.sizeBytes) + b3;
    ghost var b1 := StringField(m.digest) + b2;
    output := DOMAIN;
    output := output + [m.version];
    Regroup(output, StringField(m.artifact), b1);
    output := WriteString(output, m.artifact);
    Regroup(output, StringField(m.digest), b2);
    output := WriteString(output, m.digest);
    Regroup(output, Word(m.sizeBytes), b3);
    output := output + Word(m.sizeBytes);
    Regroup(output, StringField(m.target), b4);
    output := WriteString(output, m.target);
    Regroup(output, Word(m.securityRevision), b5);
    output := output + Word(m.securityRevision);
    Regroup(output, Word(Unsigned(m.issuedAt)), b6);
    output := output + Word(Unsigned(m.issuedAt));
    Regroup(output, Word(Unsigned(m.expiresAt)), b7);
    output := output + Word(Unsigned(m.expiresAt));
    output := WriteString(output, m.keyID);
  }
}
