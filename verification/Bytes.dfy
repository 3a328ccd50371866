/** Bytes, C strings and the option type shared by every component. */
module Bytes {
  type byte = b: int | 0 <= b < 256

  type bytes = seq<byte>

  /** A fixed array of 256 bytes, as every string field of the program is. */
  type Block = b: bytes | |b| == 256 witness seq(256, i => 0)

  function Zeros(n: nat): (s: bytes)
    ensures |s| == n && forall i :: 0 <= i < n ==> s[i] == 0
  {
    seq(n, i => 0)
  }

  datatype Option<+T> = None | Some(value: T)

  /** A C string, by value: the bytes before its terminator. */
  ghost predicate IsCString(s: bytes) {
    0 !in s
  }

  /** What `strlen` and `strcmp` see of a character array: everything before the first NUL. */
  function CStr(s: bytes): (r: bytes)
    ensures r <= s && IsCString(r)
    ensures |r| < |s| ==> s[|r|] == 0
    ensures IsCString(s) ==> r == s
  {
    if s == [] || s[0] == 0 then [] else [s[0]] + CStr(s[1..])
  }

  /** A terminator written at `k` after `k` bytes without one makes exactly those bytes the string. */
  lemma {:induction false} CStrAt(s: bytes, k: nat)
    requires k < |s| && s[k] == 0
    ensures CStr(s) == CStr(s[..k])
    decreases k
  {
    if k > 0 && s[0] != 0 {
      CStrAt(s[1..], k - 1);
      assert s[1..][..k - 1] == s[..k][1..];
    }
  }

  const BLANK: Block := Zeros(256)

  function Clipped(src: bytes): bytes {
    if |src| < 256 then src else src[..255]
  }

  /** `strncpy(dst, src, 255)` and a terminator in the last byte: long strings are cut, the rest is zeros. */
  function Stored(src: bytes): Block {
    if |src| < 256 then src + Zeros(256 - |src|) else src[..255] + [0]
  }

  lemma StoredString(src: bytes)
    requires IsCString(src)
    ensures CStr(Stored(src)) == Clipped(src)
  {
    CStrAt(Stored(src), |Clipped(src)|);
    assert Stored(src)[..|Clipped(src)|] == Clipped(src);
  }

  /** Concatenation of a list of chunks. */
  function Flatten(chunks: seq<bytes>): bytes {
    if chunks == [] then [] else chunks[0] + Flatten(chunks[1..])
  }
}
