/**
 A C string is a character buffer whose text ends at its first NUL.
 This module gives the two C library routines the clipboard relies on:
 `strlen` as the specification function StrLen, and `strcpy` as the
 in-place method StrCpy, proved against StrLen and CText.
 */
module CString {

  const NUL: char := '\0'

  /** `strlen`: the index of the first NUL in `s`. */
  function StrLen(s: seq<char>): (n: nat)
    requires NUL in s
    ensures n < |s| && s[n] == NUL
    ensures forall i :: 0 <= i < n ==> s[i] != NUL
  {
    if s[0] == NUL then 0 else 1 + StrLen(s[1..])
  }

  /** The text a C string holds: everything before its first NUL. */
  function CText(s: seq<char>): (t: seq<char>)
    requires NUL in s
    ensures NUL !in t
    ensures t + [NUL] <= s
  {
    var n := StrLen(s);
    assert s[..n + 1] == s[..n] + [NUL];
    s[..n]
  }

  /** A buffer that starts with a NUL-free text and a NUL holds exactly that text. */
  lemma {:induction false} TerminatedText(t: seq<char>, rest: seq<char>)
    requires NUL !in t
    ensures NUL in t + [NUL] + rest
    ensures StrLen(t + [NUL] + rest) == |t|
    ensures CText(t + [NUL] + rest) == t
  {
    var s := t + [NUL] + rest;
    assert s[|t|] == NUL;
  }

  /**
   What `strcpy(dst, src)` leaves in `dst`: the text of `src` and its NUL at
   the front, the rest of `dst` as it was. `dst` must have room for them.
   */
  function Copied(dst: seq<char>, src: seq<char>): (r: seq<char>)
    requires NUL in src && StrLen(src) < |dst|
    ensures |r| == |dst| && NUL in r
    ensures StrLen(r) == StrLen(src) && CText(r) == CText(src)
    ensures r[StrLen(src) + 1..] == dst[StrLen(src) + 1..]
  {
    var n := StrLen(src);
    TerminatedText(CText(src), dst[n + 1..]);
    CText(src) + [NUL] + dst[n + 1..]
  }

  /** `strcpy(dst, src)` on an array, one character at a time. */
  method StrCpy(dst: array<char>, src: seq<char>)
    requires NUL in src
    requires StrLen(src) < dst.Length
    modifies dst
    ensures dst[..] == Copied(old(dst[..]), src)
  {
    ghost var n := StrLen(src);
    var i := 0;
    while src[i] != NUL
      invariant 0 <= i <= n
      invariant dst[..i] == src[..i]
      invariant dst[n + 1..] == old(dst[n + 1..])
      decreases n - i
    {
      dst[i] := src[i];
      i := i + 1;
    }
    dst[i] := NUL;
    assert dst[..] == dst[..n] + [NUL] + dst[n + 1..];
  }
}
