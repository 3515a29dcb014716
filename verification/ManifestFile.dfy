/** A manifest on disk: its length as JSON text, and what reading it returns. The
    encoder replaces bytes that are not UTF-8, and the reader has a size limit. */
module ManifestFile {
  import opened Common
  import opened JsonText
  import opened Manifest

  const MAX_FILE := 16384

  /** The replacement character. */
  const REPLACEMENT: Bytes := [0xef, 0xbf, 0xbd]

  predicate Between(b: byte, lo: byte, hi: byte) { lo <= b <= hi }
  predicate Continues(b: byte) { Between(b, 0x80, 0xbf) }

  /** The second byte that may follow a leading byte. */
  predicate Follows(b: byte, c: byte) {
    if b == 0xe0 then Between(c, 0xa0, 0xbf)
    else if b == 0xed then Between(c, 0x80, 0x9f)
    else if b == 0xf0 then Between(c, 0x90, 0xbf)
    else if b == 0xf4 then Between(c, 0x80, 0x8f)
    else Continues(c)
  }

  /** The length of the UTF-8 character a text begins with; zero if there is none. */
  function RuneSize(s: Bytes): (n: nat)
    requires s != []
    ensures n <= 4 && n <= |s|
  {
    var b := s[0];
    if b < 0x80 then 1
    else if Between(b, 0xc2, 0xdf) && |s| >= 2 && Continues(s[1]) then 2
    else if Between(b, 0xe0, 0xef) && |s| >= 3 && Follows(b, s[1]) && Continues(s[2]) then 3
    else if Between(b, 0xf0, 0xf4) && |s| >= 4 && Follows(b, s[1]) && Continues(s[2]) && Continues(s[3]) then 4
    else 0
  }

  predicate Utf8(s: Bytes) {
    s == [] || (RuneSize(s) > 0 && Utf8(s[RuneSize(s)..]))
  }

  /** What a text reads back as: every stray byte becomes a replacement. */
  function Clean(s: Bytes): Bytes {
    if s == [] then []
    else if RuneSize(s) == 0 then REPLACEMENT + Clean(s[1..])
    else s[..RuneSize(s)] + Clean(s[RuneSize(s)..])
  }

  /** The bytes one ASCII byte takes inside a JSON string. */
  function AsciiLength(b: byte): nat {
    if b in {0x22, 0x5c, 0x0a, 0x0d, 0x09, 0x08, 0x0c} then 2
    else if b < 0x20 || b in {0x3c, 0x3e, 0x26} then 6
    else 1
  }

  /** The bytes a text takes inside a JSON string. */
  function EscapedLength(s: Bytes): nat {
    if s == [] then 0
    else
      var n := RuneSize(s);
      if n == 0 then 6 + EscapedLength(s[1..])
      else if n == 1 then AsciiLength(s[0]) + EscapedLength(s[1..])
      else if s[..n] == [0xe2, 0x80, 0xa8] || s[..n] == [0xe2, 0x80, 0xa9] then 6 + EscapedLength(s[n..])
      else n + EscapedLength(s[n..])
  }

  const FRAME := "{\"version\":,\"artifact\":\"\",\"digest\":\"\",\"sizeBytes\":,\"target\":\"\"," +
                 "\"securityRevision\":,\"issuedAt\":,\"expiresAt\":,\"keyId\":\"\",\"signature\":\"\"}"

  function FileSize(m: Manifest): nat {
    |FRAME| + NumberLength(m.version as int) + EscapedLength(m.artifact) + EscapedLength(m.digest)
    + NumberLength(m.sizeBytes) + EscapedLength(m.target) + NumberLength(m.securityRevision)
    + NumberLength(m.issuedAt) + NumberLength(m.expiresAt) + EscapedLength(m.keyID) + EscapedLength(m.signature)
  }

  function CleanManifest(m: Manifest): Manifest {
    m.(artifact := Clean(m.artifact), digest := Clean(m.digest), target := Clean(m.target),
       keyID := Clean(m.keyID), signature := Clean(m.signature))
  }

  /** Reading the file a manifest was written to. */
  function ReadBack(m: Manifest): Option<Manifest> {
    if FileSize(m) <= MAX_FILE then Some(CleanManifest(m)) else None
  }

  // --------------------------------------------------------------------- laws

  /** A text survives the file exactly when it is UTF-8. */
  lemma {:induction false} CleanKeepsExactly(s: Bytes)
    ensures Clean(s) == s <==> Utf8(s)
  {
    if s != [] {
      var n := RuneSize(s);
      if n == 0 {
        StrayIsReplaced(s);
      } else {
        CleanKeepsExactly(s[n..]);
        assert s == s[..n] + s[n..];
        if Clean(s) == s {
          assert Clean(s)[n..] == Clean(s[n..]);
        }
      }
    }
  }

  lemma StrayIsReplaced(s: Bytes)
    requires s != [] && RuneSize(s) == 0
    ensures Clean(s) != s
  {
    var t := Clean(s);
    assert |t| >= 3 && t[0] == 0xef && t[1] == 0xbf && t[2] == 0xbd;
  }

  predicate Ascii(s: Bytes) { forall i :: 0 <= i < |s| ==> s[i] < 0x80 }

  lemma {:induction false} AsciiIsUtf8(s: Bytes)
    requires Ascii(s)
    ensures Utf8(s)
  {
    if s != [] { AsciiIsUtf8(s[1..]); }
  }

  /** ASCII text costs the sum of its parts. */
  lemma {:induction false} AsciiAdds(a: Bytes, b: Bytes)
    requires Ascii(a)
    ensures EscapedLength(a + b) == EscapedLength(a) + EscapedLength(b)
  {
    if a == [] {
      assert a + b == b;
    } else {
      AsciiAdds(a[1..], b);
      assert (a + b)[1..] == a[1..] + b && (a + b)[0] == a[0];
    }
  }

  function Newlines(n: nat): Bytes { seq(n, _ => 0x0a) }

  lemma {:induction false} NewlinesCostTwo(n: nat)
    ensures EscapedLength(Newlines(n)) == 2 * n
  {
    if n > 0 {
      NewlinesCostTwo(n - 1);
      assert Newlines(n)[1..] == Newlines(n - 1) && Newlines(n)[0] == 0x0a;
    }
  }

  lemma {:induction false} EscapesAreBounded(s: Bytes)
    ensures EscapedLength(s) <= 6 * |s|
  {
    if s != [] {
      var n := if RuneSize(s) == 0 then 1 else RuneSize(s);
      EscapesAreBounded(s[n..]);
    }
  }

  lemma DigestIsAscii(m: Manifest)
    requires Structured(m)
    ensures Ascii(m.digest)
  {
    forall i | 0 <= i < |m.digest| ensures m.digest[i] < 0x80 {
      if i < 7 {
        assert m.digest[..7][i] == DIGEST_PREFIX[i];
      } else {
        assert HexByte(m.digest[i]);
      }
    }
  }

  // --------------------------------------------------------------- signatures

  /** The URL-safe base64 alphabet; the decoder skips line breaks. */
  predicate Base64Letter(b: byte) {
    Between(b, 0x41, 0x5a) || Between(b, 0x61, 0x7a) || Between(b, 0x30, 0x39) || b == 0x2d || b == 0x5f
  }

  predicate LineBreak(b: byte) { b == 0x0a || b == 0x0d }

  predicate Base64Text(s: Bytes) { forall i :: 0 <= i < |s| ==> Base64Letter(s[i]) || LineBreak(s[i]) }

  function Unbroken(s: Bytes): Bytes {
    if s == [] then [] else Unbroken(s[..|s| - 1]) + if LineBreak(s[|s| - 1]) then [] else [s[|s| - 1]]
  }

  /** Line breaks after a signature change nothing about it. */
  lemma {:induction false} PaddingIsSkipped(s: Bytes, n: nat)
    ensures Unbroken(s + Newlines(n)) == Unbroken(s)
    ensures Base64Text(s) ==> Base64Text(s + Newlines(n))
  {
    if n == 0 {
      assert s + Newlines(0) == s;
    } else {
      PaddingIsSkipped(s, n - 1);
      var t := s + Newlines(n);
      assert t[..|t| - 1] == s + Newlines(n - 1) && t[|t| - 1] == 0x0a;
    }
  }

  lemma Base64IsAscii(s: Bytes)
    requires Base64Text(s)
    ensures Ascii(s)
  {
    forall i | 0 <= i < |s| ensures s[i] < 0x80 {
      assert Base64Letter(s[i]) || LineBreak(s[i]);
    }
  }

  /** A valid manifest comes back unchanged exactly when it fits the file and its
      three free texts are UTF-8. */
  lemma ReadsBackExactly(m: Manifest)
    requires Structured(m) && Base64Text(m.signature)
    ensures ReadBack(m) == Some(m) <==>
            FileSize(m) <= MAX_FILE && Utf8(m.artifact) && Utf8(m.target) && Utf8(m.keyID)
  {
    hide FileSize, Clean, Utf8, EscapedLength;
    DigestIsAscii(m);
    Base64IsAscii(m.signature);
    AsciiIsUtf8(m.digest);
    AsciiIsUtf8(m.signature);
    CleanKeepsExactly(m.artifact);
    CleanKeepsExactly(m.digest);
    CleanKeepsExactly(m.target);
    CleanKeepsExactly(m.keyID);
    CleanKeepsExactly(m.signature);
  }

  /** Enough line breaks after any signature make the file unreadable. */
  lemma PaddingOverflows(m: Manifest, n: nat)
    requires Base64Text(m.signature) && 2 * n > MAX_FILE
    ensures ReadBack(m.(signature := m.signature + Newlines(n))).None?
  {
    Base64IsAscii(m.signature);
    AsciiAdds(m.signature, Newlines(n));
    NewlinesCostTwo(n);
    hide EscapedLength, NumberLength;
  }
}
