/** How long values become as JSON text, with the escapes the encoder uses. */
module JsonText {

  /** Quotes, backslashes and the common controls take two bytes; other controls,
      angle brackets, ampersands and the two line separators become six-byte
      escapes; everything else is its UTF-8 encoding. */
  function CharLength(c: char): nat {
    if c in {'"', '\\', '\n', '\r', '\t', '\U{8}', '\U{C}'} then 2
    else if c < ' ' || c in {'<', '>', '&', '\U{2028}', '\U{2029}'} then 6
    else if c < '\U{80}' then 1
    else if c < '\U{800}' then 2
    else if c < '\U{10000}' then 3
    else 4
  }

  function TextLength(s: string): nat {
    if s == [] then 0 else TextLength(s[..|s| - 1]) + CharLength(s[|s| - 1])
  }

  function QuotedLength(s: string): nat { 2 + TextLength(s) }

  function NatLength(n: nat): nat { if n < 10 then 1 else 1 + NatLength(n / 10) }
  function NumberLength(n: int): nat { if n < 0 then 1 + NatLength(-n) else NatLength(n) }

  /** A byte string, padded base64 between quotes. */
  function Base64Length(n: nat): nat { 2 + 4 * ((n + 2) / 3) }

  /** Plain text costs one byte per character. */
  lemma {:induction false} PlainLength(n: nat, s: string)
    requires s == seq(n, _ => 'c')
    ensures TextLength(s) == n
  {
    if n > 0 {
      var rest := seq(n - 1, _ => 'c');
      assert s[..n - 1] == rest;
      PlainLength(n - 1, rest);
      assert s[n - 1] == 'c';
    }
  }
}
