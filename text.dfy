/** The string primitives the wizard relies on, as Rust's `str` and `char`
    define them: UTF-8 byte length (`str::len`), `str::trim_end` and
    `char::to_ascii_uppercase`. A Dafny `char` is a Unicode scalar value. */
module Text {

  /** Number of bytes `c` takes in UTF-8. */
  function Utf8Len(c: char): (n: nat)
    ensures 1 <= n <= 4
  {
    if c as int < 0x80 then 1
    else if c as int < 0x800 then 2
    else if c as int < 0x1_0000 then 3
    else 4
  }

  /** `str::len`: the length of `s` in bytes, not in characters. */
  function ByteLen(s: string): (n: nat)
    ensures |s| <= n <= 4 * |s|
  {
    if s == [] then 0 else Utf8Len(s[0]) + ByteLen(s[1..])
  }

  /** A string is one byte long exactly when it is one ASCII character. */
  lemma ByteLenIsOne(s: string)
    ensures ByteLen(s) == 1 <==> |s| == 1 && s[0] as int < 0x80
  {
    if s != [] {
      assert ByteLen(s) == Utf8Len(s[0]) + ByteLen(s[1..]);
    }
  }

  /** `char::is_whitespace`: the Unicode White_Space property. */
  predicate IsWhitespace(c: char) {
    var n := c as int;
    (0x09 <= n <= 0x0D) || n == 0x20 || n == 0x85 || n == 0xA0 || n == 0x1680
    || (0x2000 <= n <= 0x200A) || n == 0x2028 || n == 0x2029 || n == 0x202F
    || n == 0x205F || n == 0x3000
  }

  /** The length of `s[..n]` once its trailing whitespace is dropped. */
  function TrimmedLen(s: string, n: nat): (k: nat)
    requires n <= |s|
    ensures k <= n
  {
    if n > 0 && IsWhitespace(s[n - 1]) then TrimmedLen(s, n - 1) else n
  }

  /** `str::trim_end`: `s` without its trailing whitespace. */
  function TrimEnd(s: string): (r: string)
    ensures r <= s
  {
    s[..TrimmedLen(s, |s|)]
  }

  /** What `TrimEnd` returns is the prefix of `s` that leaves only
      whitespace behind and does not itself end in whitespace, which
      determines it uniquely. */
  lemma {:induction false} TrimEndSpec(s: string)
    ensures TrimEnd(s) <= s
    ensures TrimEnd(s) == [] || !IsWhitespace(TrimEnd(s)[|TrimEnd(s)| - 1])
    ensures forall i :: |TrimEnd(s)| <= i < |s| ==> IsWhitespace(s[i])
  {
    TrimmedLenSpec(s, |s|);
  }

  lemma {:induction false} TrimmedLenSpec(s: string, n: nat)
    requires n <= |s|
    ensures var k := TrimmedLen(s, n);
      (k == 0 || !IsWhitespace(s[k - 1])) && forall i :: k <= i < n ==> IsWhitespace(s[i])
  {
    if n > 0 && IsWhitespace(s[n - 1]) {
      TrimmedLenSpec(s, n - 1);
    }
  }

  /** `char::to_ascii_uppercase`: 'a'..'z' become 'A'..'Z', every other
      character is left as it is. */
  function AsciiUpper(c: char): (u: char)
    ensures !('a' <= u <= 'z')
    ensures u != c <==> 'a' <= c <= 'z'
    ensures 'a' <= c <= 'z' ==> u as int == c as int - ('a' as int - 'A' as int)
    ensures (u as int < 0x80) == (c as int < 0x80)
  {
    if 'a' <= c <= 'z' then (c as int - 32) as char else c
  }
}
