/** Requests and responses of the monitoring protocol as bytes, src/shared/mon_protocol.c. */
module MonProtocol {
  import opened Bytes

  const VERSION: byte := 1
  const MAX_ARGS: nat := 2
  const HEADER_LEN: nat := 4

  type uint16 = v: int | 0 <= v < 0x1_0000

  type Lens = s: bytes | |s| == MAX_ARGS witness [0, 0]
  type Args = s: seq<Block> | |s| == MAX_ARGS witness [BLANK, BLANK]

  /** `struct mon_request`, whose encoder needs `nargs` to be within its arrays. */
  datatype Request = Request(version: byte, cmd: byte, nargs: byte, lens: Lens, args: Args)

  /** The first `n` arguments, each cut at its length. */
  function ArgsOf(r: Request, n: nat): seq<bytes>
    requires n <= MAX_ARGS
  {
    seq(n, i requires 0 <= i < n => r.args[i][..r.lens[i]])
  }

  function Joined(r: Request, n: nat): bytes
    requires n <= MAX_ARGS
  {
    if n == 0 then [] else Joined(r, n - 1) + r.args[n - 1][..r.lens[n - 1]]
  }

  function RequestBytes(r: Request): bytes
    requires r.nargs as nat <= MAX_ARGS
  {
    [r.version, r.cmd, r.nargs] + r.lens[..r.nargs] + Joined(r, r.nargs)
  }

  /** `memcpy(dst + at, src, |src|)` */
  method Copy(dst: array<byte>, at: nat, src: bytes)
    requires at + |src| <= dst.Length
    modifies dst
    ensures dst[..] == old(dst[..at]) + src + old(dst[at + |src|..])
  {
    for i := 0 to |src|
      invariant dst[at..at + i] == src[..i]
      invariant dst[..at] == old(dst[..at]) && dst[at + i..] == old(dst[at + i..])
    {
      dst[at + i] := src[i];
    }
    assert dst[..] == dst[..at] + dst[at..at + |src|] + dst[at + |src|..];
  }

  /** The array `before` once `done` has been written at `at`. */
  ghost predicate Holds(now: bytes, before: bytes, at: nat, done: bytes) {
    at + |done| <= |before| && now == before[..at] + done + before[at + |done|..]
  }

  lemma HoldsNothing(before: bytes, at: nat)
    requires at <= |before|
    ensures Holds(before, before, at, [])
  {
  }

  /** `Copy` right after what has been written. */
  method Append(dst: array<byte>, at: nat, off: nat, src: bytes, ghost done: bytes, ghost before: bytes)
    requires at + off + |src| <= dst.Length == |before| && off == |done|
    requires Holds(dst[..], before, at, done)
    modifies dst
    ensures Holds(dst[..], before, at, done + src)
  {
    Copy(dst, at + off, src);
    assert (before[..at] + done + before[at + off..])[..at + off] == before[..at] + done;
    assert (before[..at] + done + before[at + off..])[at + off + |src|..] == before[at + off + |src|..];
  }

  /** What the encoder has written before its `k`-th length byte, and before its `k`-th argument. */
  function Head(r: Request, k: nat): bytes
    requires k <= MAX_ARGS
  {
    [r.version, r.cmd, r.nargs] + r.lens[..k]
  }

  function Written(r: Request, k: nat): (s: bytes)
    requires r.nargs as nat <= MAX_ARGS && k <= r.nargs as nat
    ensures |s| == 3 + r.nargs + |Joined(r, k)|
  {
    Head(r, r.nargs) + Joined(r, k)
  }

  lemma WrittenMore(r: Request, k: nat)
    requires r.nargs as nat <= MAX_ARGS && k < r.nargs as nat
    ensures Written(r, k) + r.args[k][..r.lens[k]] == Written(r, k + 1)
    ensures |Written(r, k + 1)| <= |Written(r, r.nargs)|
  {
  }

  lemma NothingYet(r: Request)
    requires r.nargs as nat <= MAX_ARGS
    ensures Written(r, 0) == Head(r, r.nargs) && Written(r, r.nargs) == RequestBytes(r)
    ensures |Written(r, 0)| <= |Written(r, r.nargs)|
  {
  }

  /** `mon_request_encode` into the `len` bytes at `buf + at`. */
  method EncodeRequest(r: Request, buf: array<byte>, at: nat, len: nat) returns (n: int)
    requires r.nargs as nat <= MAX_ARGS && at + len <= buf.Length
    modifies buf
    ensures var s := RequestBytes(r);
            if len < |s| then n == -1 && buf[..] == old(buf[..])
            else n == |s| && Holds(buf[..], old(buf[..]), at, s)
  {
    hide Joined, Written, RequestBytes, Holds;
    NothingYet(r);
    var total: nat := 3 + r.nargs;
    for i := 0 to r.nargs
      invariant total == |Written(r, i)| && buf[..] == old(buf[..])
    {
      WrittenMore(r, i);
      total := total + r.lens[i];
    }
    if len < total {
      return -1;
    }
    ghost var before := buf[..];
    HoldsNothing(before, at);
    Append(buf, at, 0, [r.version, r.cmd, r.nargs], [], before);
    assert [] + [r.version, r.cmd, r.nargs] == Head(r, 0);
    var off: nat := 3;
    for i := 0 to r.nargs
      invariant off == 3 + i && Holds(buf[..], before, at, Head(r, i))
    {
      Append(buf, at, off, [r.lens[i]], Head(r, i), before);
      assert Head(r, i) + [r.lens[i]] == Head(r, i + 1);
      off := off + 1;
    }
    for k := 0 to r.nargs
      invariant off == |Written(r, k)| <= total && Holds(buf[..], before, at, Written(r, k))
    {
      WrittenMore(r, k);
      Append(buf, at, off, r.args[k][..r.lens[k]], Written(r, k), before);
      off := off + r.lens[k];
    }
    n := off;
  }

  /** `struct mon_response`; a payload pointer that is not NULL points to at least `len` bytes. */
  datatype Response = Response(version: byte, status: byte, len: uint16, payload: Option<bytes>) {
    predicate Readable() {
      payload.Some? ==> len <= |payload.value|
    }

    /** Whether the payload announced is a payload there is. */
    predicate Honest() {
      len == 0 || payload.Some?
    }

    /** As its receiver sees it: the payload cut at its length, and none when that is 0. */
    function Received(): Response
      requires Readable() && Honest()
    {
      this.(payload := if len > 0 then Some(payload.value[..len]) else None)
    }
  }

  function Be16(v: uint16): bytes {
    [v / 256, v % 256]
  }

  function ResponseBytes(r: Response): bytes
    requires r.Readable()
  {
    [r.version, r.status] + Be16(r.len) + if r.len > 0 && r.payload.Some? then r.payload.value[..r.len] else []
  }

  /** `mon_response_encode` into the `len` bytes at `buf + at`; room is checked for the announced length. */
  method EncodeResponse(r: Response, buf: array<byte>, at: nat, len: nat) returns (n: int)
    requires r.Readable() && at + len <= buf.Length
    modifies buf
    ensures var s := ResponseBytes(r);
            if len < HEADER_LEN + r.len then n == -1 && buf[..] == old(buf[..])
            else n == |s| && Holds(buf[..], old(buf[..]), at, s)
  {
    var total := HEADER_LEN + r.len;
    if len < total {
      return -1;
    }
    ghost var before := buf[..];
    HoldsNothing(before, at);
    Append(buf, at, 0, [r.version, r.status] + Be16(r.len), [], before);
    assert [] + ([r.version, r.status] + Be16(r.len)) == [r.version, r.status] + Be16(r.len);
    var off: nat := 4;
    if r.len > 0 && r.payload.Some? {
      Append(buf, at, off, r.payload.value[..r.len], [r.version, r.status] + Be16(r.len), before);
      off := off + r.len;
    } else {
      assert ResponseBytes(r) == [r.version, r.status] + Be16(r.len);
    }
    n := off;
  }

  datatype Decoded = Ok(response: Response, consumed: nat) | NeedMore | Error

  function Announced(s: bytes): uint16
    requires |s| >= HEADER_LEN
  {
    s[2] as int * 256 + s[3] as int
  }

  function Decode(s: bytes): (d: Decoded)
    ensures d.Error? <==> |s| >= HEADER_LEN && s[0] != VERSION
    ensures d.NeedMore? <==> |s| < HEADER_LEN || (s[0] == VERSION && |s| < HEADER_LEN + Announced(s))
    ensures d.Ok? ==> d.response.Readable() && d.response.Honest() && d.consumed <= |s|
  {
    if |s| < HEADER_LEN then NeedMore
    else if s[0] != VERSION then Error
    else
      var len := Announced(s);
      if |s| < HEADER_LEN + len then NeedMore
      else Ok(Response(s[0], s[1], len, if len > 0 then Some(s[HEADER_LEN..HEADER_LEN + len]) else None), HEADER_LEN + len)
  }

  /** `mon_response_decode` of the `len` bytes at `buf + at`. */
  method DecodeResponse(buf: array<byte>, at: nat, len: nat) returns (d: Decoded)
    requires at + len <= buf.Length
    ensures d == Decode(buf[at..at + len])
  {
    ghost var s := buf[at..at + len];
    if len < HEADER_LEN {
      return NeedMore;
    }
    if buf[at] != VERSION {
      return Error;
    }
    var n: nat := buf[at + 2] as int * 256 + buf[at + 3] as int;
    var total := HEADER_LEN + n;
    if len < total {
      return NeedMore;
    }
    assert n > 0 ==> buf[at + HEADER_LEN..at + total] == s[HEADER_LEN..total];
    d := Ok(Response(buf[at], buf[at + 1], n, if n > 0 then Some(buf[at + HEADER_LEN..at + total]) else None), total);
  }

  /**
   * Decoding undoes encoding, whatever follows, exactly for the responses of
   * this version that hold the payload they announce.
   */
  lemma DecodeInvertsEncode(r: Response)
    requires r.Readable()
    ensures (r.version == VERSION && r.Honest()) <==> Decode(ResponseBytes(r)).Ok?
    ensures r.version == VERSION && r.Honest() ==>
              forall rest :: Decode(ResponseBytes(r) + rest) == Ok(r.Received(), |ResponseBytes(r)|)
  {
    var s := ResponseBytes(r);
    assert s[2] == r.len / 256 && s[3] == r.len % 256;
    assert Announced(s) == r.len;
    forall rest | r.version == VERSION && r.Honest() ensures Decode(s + rest) == Ok(r.Received(), |s|) {
      assert Announced(s + rest) == r.len;
      if r.len > 0 { assert (s + rest)[HEADER_LEN..HEADER_LEN + r.len] == r.payload.value[..r.len]; }
    }
    assert s + [] == s;
  }

  /** A response whose payload pointer is NULL but whose length is not 0 is never understood on its own. */
  lemma NullPayloadIsLost()
    ensures var r := Response(VERSION, 0, 1, None);
            r.Readable() && !r.Honest() && Decode(ResponseBytes(r)) == NeedMore
  {
    DecodeInvertsEncode(Response(VERSION, 0, 1, None));
  }

  /** Until the whole response is there, its receiver asks for more. */
  lemma EveryStrictPrefixNeedsMore(r: Response, n: nat)
    requires r.Readable() && r.Honest() && r.version == VERSION && n < |ResponseBytes(r)|
    ensures Decode(ResponseBytes(r)[..n]) == NeedMore
  {
    var s := ResponseBytes(r);
    assert s[2] == r.len / 256 && s[3] == r.len % 256;
    if n >= HEADER_LEN { assert Announced(s[..n]) == r.len; }
  }

  /** What is decoded is what was there, and bytes that follow make no difference. */
  lemma EncodeInvertsDecode(s: bytes, rest: bytes)
    requires Decode(s).Ok?
    ensures var d := Decode(s);
            && d.response.Readable() && ResponseBytes(d.response) == s[..d.consumed]
            && Decode(s + rest) == d
  {
    var d := Decode(s);
    assert Announced(s + rest) == Announced(s);
    assert Be16(d.response.len) == s[2..4];
    if d.response.len > 0 { assert (s + rest)[HEADER_LEN..d.consumed] == s[HEADER_LEN..d.consumed]; }
  }
}
