/** Vocabulary shared by every component: options, the outcome of a durable
    write, byte-wise string order and the digest syntax. */
module Common {

  datatype Option<+T> = None | Some(value: T)

  /** What an atomic replace (temporary file, rename, directory sync) can leave
      behind. An error can come before the rename, so the old content stays, or
      from the directory sync after it, so the new content is already in place. */
  datatype Write = Written | FailedOld | FailedNew

  /** The strict byte-wise order used by string comparison and sorting. */
  predicate StrLess(a: string, b: string) {
    |b| > 0 && (|a| == 0 || a[0] < b[0] || (a[0] == b[0] && StrLess(a[1..], b[1..])))
  }

  lemma {:induction false} StrLessTotal(a: string, b: string)
    ensures StrLess(a, b) || a == b || StrLess(b, a)
    ensures !(StrLess(a, b) && StrLess(b, a))
    ensures a == b ==> !StrLess(a, b)
  {
    if |a| > 0 && |b| > 0 && a[0] == b[0] {
      StrLessTotal(a[1..], b[1..]);
      assert a == [a[0]] + a[1..] && b == [b[0]] + b[1..];
    }
  }

  lemma {:induction false} StrLessTransitive(a: string, b: string, c: string)
    requires StrLess(a, b) && StrLess(b, c)
    ensures StrLess(a, c)
  {
    if |a| > 0 && a[0] == b[0] == c[0] {
      StrLessTransitive(a[1..], b[1..], c[1..]);
    }
  }

  predicate HexDigit(c: char) {
    '0' <= c <= '9' || 'a' <= c <= 'f' || 'A' <= c <= 'F'
  }

  /** `sha256:` followed by 64 hexadecimal digits. */
  predicate ValidDigest(s: string) {
    |s| == 71 && s[..7] == "sha256:" && forall i :: 7 <= i < 71 ==> HexDigit(s[i])
  }

  predicate LowerHex(s: string) {
    forall i :: 0 <= i < |s| ==> '0' <= s[i] <= '9' || 'a' <= s[i] <= 'f'
  }

  /** The stricter digest syntax of journals and outboxes: lower-case only. */
  predicate DigestPattern(s: string) { |s| == 71 && s[..7] == "sha256:" && LowerHex(s[7..]) }

  /** The bytes of a text in UTF-8. */
  function Utf8Length(s: string): nat {
    if s == [] then 0
    else
      var c := s[|s| - 1];
      var width := if c < '\U{80}' then 1 else if c < '\U{800}' then 2 else if c < '\U{10000}' then 3 else 4;
      Utf8Length(s[..|s| - 1]) + width
  }

  lemma {:induction false} SubsetSize<T>(a: set<T>, b: set<T>)
    requires a <= b
    ensures |a| <= |b|
  {
    if a != {} {
      var x :| x in a;
      SubsetSize(a - {x}, b - {x});
    }
  }
}
