/*
 * The C string operations the display-name setter relies on: the length of
 * a string up to its first NUL, and strncpy into a fixed buffer.
 */
module CString {
  import opened Wire

  /** strlen of s.c_str(): the bytes before the first NUL (all of s if none). */
  function CLength(s: seq<Byte>): (n: nat)
    ensures n <= |s|
    ensures forall i | 0 <= i < n :: s[i] != NUL
    ensures n < |s| ==> s[n] == NUL
  {
    if |s| == 0 || s[0] == NUL then 0 else 1 + CLength(s[1..])
  }

  /** strncpy(dest, src, n), written as the C library's reference loop:
      copy bytes of src until its NUL or n of them, then pad with NUL
      up to n. Bytes of dest from n on are left as they were. */
  function StrNCopy(dest: seq<Byte>, src: seq<Byte>, n: nat): (r: seq<Byte>)
    requires n <= |dest|
    ensures |r| == |dest|
    ensures forall i | 0 <= i < |dest| ::
              r[i] == if n <= i then dest[i] else if i < CLength(src) then src[i] else NUL
    decreases n
  {
    if n == 0 then dest
    else if |src| == 0 || src[0] == NUL then seq(n, _ => NUL) + dest[n..]
    else [src[0]] + StrNCopy(dest[1..], src[1..], n - 1)
  }
}
