/** Username and password negotiation, src/server/auth.c (section 2 of RFC 1929). */
module Auth {
  import opened Bytes
  import opened Pipes
  import opened Buffers
  import opened Chunks

  const VERSION: byte := 1
  const SUCCESS: byte := 0
  const FAILURE: byte := 1

  datatype State = Version | ULen | UName | PLen | Passwd | Done | ErrorVersion

  /** The parser; both credential arrays have 256 bytes and every index is a byte, so no index is out of range. */
  datatype Parser = Parser(state: State, ulen: byte, plen: byte, i: byte, uname: Block, passwd: Block)

  function Feed(p: Parser, b: byte): Parser {
    match p.state
    case Version => p.(state := if b == VERSION then ULen else ErrorVersion)
    case ULen => p.(ulen := b, i := 0, state := if b == 0 then PLen else UName)
    case UName =>
      var i: byte := (p.i + 1) % 256;
      var uname: Block := p.uname[p.i := b];
      if i == p.ulen then p.(i := i, uname := uname[i := 0], state := PLen) else p.(i := i, uname := uname)
    case PLen =>
      if b == 0 then p.(plen := b, i := 0, passwd := p.passwd[0 := 0], state := Done)
      else p.(plen := b, i := 0, state := Passwd)
    case Passwd =>
      var i: byte := (p.i + 1) % 256;
      var passwd: Block := p.passwd[p.i := b];
      if i == p.plen then p.(i := i, passwd := passwd[i := 0], state := Done) else p.(i := i, passwd := passwd)
    case _ => p
  }

  predicate IsDone(p: Parser) {
    p.state.Done? || p.state.ErrorVersion?
  }

  /** `auth_parser_init` */
  function Reinit(p: Parser): (q: Parser)
    ensures Initial(q)
  {
    Parser(Version, 0, 0, 0, p.uname[0 := 0], p.passwd[0 := 0])
  }

  /** A parser just initialised: the arrays keep what they held, except for a terminator at the front of each. */
  ghost predicate Initial(p: Parser) {
    p.state.Version? && p.ulen == p.plen == p.i == 0 && p.uname[0] == 0 && p.passwd[0] == 0
  }

  datatype Message = More | Bad(n: nat) | Credentials(user: bytes, pass: bytes, n: nat)

  function Grammar(s: bytes): Message {
    if |s| == 0 then More
    else if s[0] != VERSION then Bad(1)
    else if |s| == 1 then More
    else
      var u: nat := s[1];
      if |s| < 3 + u then More
      else
        var p: nat := s[2 + u];
        if |s| < 3 + u + p then More else Credentials(s[2..2 + u], s[3 + u..3 + u + p], 3 + u + p)
  }

  /** The announced length of the name in a message that has got that far. */
  function NameLen(pre: bytes): nat
    requires |pre| >= 2
  {
    pre[1]
  }

  ghost predicate Tracks(p: Parser, pre: bytes) {
    match p.state
    case Version => pre == [] && p.uname[0] == 0
    case ULen => pre == [VERSION] && p.uname[0] == 0
    case UName =>
      && |pre| >= 2 && |pre| - 2 == p.i && pre[0] == VERSION && pre[1] == p.ulen && p.i < p.ulen
      && p.uname[..p.i] == pre[2..]
    case PLen => |pre| >= 2 && |pre| == 2 + NameLen(pre) && pre[0] == VERSION && CStr(p.uname) == CStr(pre[2..])
    case Passwd =>
      && |pre| >= 2 && |pre| - 3 - NameLen(pre) == p.i && pre[0] == VERSION
      && pre[2 + NameLen(pre)] == p.plen && p.i < p.plen
      && CStr(p.uname) == CStr(pre[2..2 + NameLen(pre)])
      && p.passwd[..p.i] == pre[3 + NameLen(pre)..]
    case _ => false
  }

  /** As the program compares them: as C strings. */
  ghost predicate Agrees(r: (Parser, nat), m: Message, base: nat, size: nat) {
    match m
    case More => !IsDone(r.0) && r.1 == size
    case Bad(n) => r.0.state == ErrorVersion && base + r.1 == n
    case Credentials(user, pass, n) =>
      r.0.state == Done && base + r.1 == n && CStr(r.0.uname) == CStr(user) && CStr(r.0.passwd) == CStr(pass)
  }

  /** One byte: a parser that is not done keeps tracking, one that is done agrees with the grammar whatever follows. */
  ghost predicate StepOk(p: Parser, pre: bytes, b: byte, rest: bytes) {
    var q := Feed(p, b);
    if IsDone(q) then Agrees((q, 1), Grammar(pre + [b] + rest), |pre|, 1 + |rest|) else Tracks(q, pre + [b])
  }

  lemma StepName(p: Parser, pre: bytes, b: byte, rest: bytes)
    requires Tracks(p, pre) && p.state.UName?
    ensures StepOk(p, pre, b, rest)
  {
    var q := Feed(p, b);
    var pre' := pre + [b];
    hide CStr, Grammar, Agrees;
    assert pre'[2..] == pre[2..] + [b];
    assert q.uname[..p.i] == p.uname[..p.i];
    assert p.i + 1 == q.i;
    if q.state == PLen {
      CStrAt(q.uname, q.i);
      assert q.uname[..q.i] == pre'[2..];
    } else {
      assert q.uname[..q.i] == pre'[2..];
    }
  }

  lemma StepPLen(p: Parser, pre: bytes, b: byte, rest: bytes)
    requires Tracks(p, pre) && p.state.PLen?
    ensures StepOk(p, pre, b, rest)
  {
    var q := Feed(p, b);
    var u := NameLen(pre);
    var pre' := pre + [b];
    assert pre'[2..2 + u] == pre[2..];
    assert (pre' + rest)[2..2 + u] == pre[2..];
    if b == 0 {
      CStrAt(q.passwd, 0);
      assert (pre' + rest)[3 + u..3 + u] == [] == q.passwd[..0];
    }
    hide CStr;
  }

  /** The grammar on a message whose last byte has arrived, whatever follows it. */
  lemma Complete(s: bytes, rest: bytes, u: nat, n: nat)
    requires |s| == 3 + u + n && s[0] == VERSION && s[1] as int == u && s[2 + u] as int == n
    ensures Grammar(s + rest) == Credentials(s[2..2 + u], s[3 + u..], |s|)
  {
    var all := s + rest;
    assert all[2..2 + u] == s[2..2 + u];
    assert all[3 + u..3 + u + n] == s[3 + u..];
  }

  lemma StepPasswd(p: Parser, pre: bytes, b: byte, rest: bytes)
    requires Tracks(p, pre) && p.state.Passwd?
    ensures StepOk(p, pre, b, rest)
  {
    hide CStr, Grammar;
    var q := Feed(p, b);
    var u := NameLen(pre);
    var pre' := pre + [b];
    assert pre'[2..2 + u] == pre[2..2 + u];
    assert pre'[3 + u..] == pre[3 + u..] + [b];
    assert q.passwd[..p.i] == p.passwd[..p.i];
    assert q.i == p.i + 1;
    assert q.passwd[..q.i] == pre'[3 + u..];
    if q.state == Done {
      CStrAt(q.passwd, q.i);
      Complete(pre', rest, u, p.plen);
    }
  }

  lemma Step(p: Parser, pre: bytes, b: byte, rest: bytes)
    requires Tracks(p, pre)
    ensures StepOk(p, pre, b, rest)
  {
    match p.state {
      case UName => StepName(p, pre, b, rest);
      case PLen => StepPLen(p, pre, b, rest);
      case Passwd => StepPasswd(p, pre, b, rest);
      case _ =>
    }
  }

  lemma TracksMore(p: Parser, pre: bytes)
    requires Tracks(p, pre)
    ensures !IsDone(p) && Grammar(pre) == More
  {
    hide CStr;
    match p.state {
      case Passwd => PartPasswd(p, pre);
      case _ =>
    }
  }

  lemma PartPasswd(p: Parser, pre: bytes)
    requires Tracks(p, pre) && p.state.Passwd?
    ensures Grammar(pre) == More
  {
    hide CStr;
    assert |pre| < 3 + NameLen(pre) + p.plen;
  }

  lemma {:induction false} Parses(p: Parser, pre: bytes, s: bytes)
    requires Tracks(p, pre)
    ensures Agrees(Consume(Feed, IsDone, p, s), Grammar(pre + s), |pre|, |s|)
    decreases |s|
  {
    hide Tracks, Grammar;
    if s == [] {
      assert pre + s == pre;
      TracksMore(p, pre);
    } else {
      Step(p, pre, s[0], s[1..]);
      assert pre + s == pre + [s[0]] + s[1..];
      hide Feed;
      if !IsDone(Feed(p, s[0])) { Parses(Feed(p, s[0]), pre + [s[0]], s[1..]); }
    }
  }

  lemma MeetsGrammar(p: Parser, s: bytes)
    requires Initial(p)
    ensures Agrees(Consume(Feed, IsDone, p, s), Grammar(s), 0, |s|)
  {
    Parses(p, [], s);
    assert [] + s == s;
  }

  /** However the stream is split into reads, the message found and the bytes left over are the grammar's. */
  lemma AnySplit(p: Parser, chunks: seq<bytes>)
    requires Initial(p)
    ensures Agrees(Deliver(Feed, IsDone, p, chunks), Grammar(Flatten(chunks)), 0, |Flatten(chunks)|)
  {
    ChunkIndependence(Feed, IsDone, p, chunks);
    MeetsGrammar(p, Flatten(chunks));
  }

  function Reply(status: byte): bytes {
    [VERSION, status]
  }

  class AuthParser {
    var state: State
    var ulen: byte
    var plen: byte
    var i: byte
    const uname: array<byte>
    const passwd: array<byte>

    ghost predicate Valid()
      reads this
    {
      uname.Length == passwd.Length == 256 && uname != passwd
    }

    ghost function View(): Parser
      reads this, uname, passwd
      requires Valid()
    {
      Parser(state, ulen, plen, i, uname[..], passwd[..])
    }

    constructor ()
      ensures Valid() && fresh(uname) && fresh(passwd)
    {
      uname := new byte[256];
      passwd := new byte[256];
      state, ulen, plen, i := Version, 0, 0, 0;
    }

    /** `auth_parser_init` */
    method Init()
      requires Valid()
      modifies this, uname, passwd
      ensures Valid() && Initial(View())
      ensures View() == Reinit(old(View()))
    {
      state, ulen, plen, i := Version, 0, 0, 0;
      uname[0] := 0;
      passwd[0] := 0;
    }

    method FeedByte(b: byte)
      requires Valid()
      modifies this, uname, passwd
      ensures Valid() && View() == Feed(old(View()), b)
    {
      match state {
        case Version => state := if b == VERSION then ULen else ErrorVersion;
        case ULen =>
          ulen, i := b, 0;
          state := if b == 0 then PLen else UName;
        case UName =>
          uname[i] := b;
          i := (i + 1) % 256;
          if i == ulen {
            uname[i] := 0;
            state := PLen;
          }
        case PLen =>
          plen, i := b, 0;
          if b == 0 {
            passwd[0] := 0;
            state := Done;
          } else {
            state := Passwd;
          }
        case Passwd =>
          passwd[i] := b;
          i := (i + 1) % 256;
          if i == plen {
            passwd[i] := 0;
            state := Done;
          }
        case Done =>
        case ErrorVersion =>
      }
    }

    /** `auth_consume` */
    method ConsumeFrom(b: Buffer) returns (error: bool)
      requires Valid() && b.Valid() && b.data != uname && b.data != passwd
      modifies this, uname, passwd, b, b.data
      ensures Valid() && b.Valid()
      ensures Consumed(Feed, IsDone, old(View()), old(b.View()), View(), b.View())
      ensures error == (old(b.View()).pending != [] && View().state == ErrorVersion)
    {
      hide Looping, Consumed, Feed, Consume;
      ghost var pipe, p := b.View(), View();
      error := false;
      var more := b.CanRead();
      LoopBegins(Feed, IsDone, p, pipe);
      while more
        invariant Valid() && b.Valid() && more == (b.View().pending != []) && !error
        invariant Looping(Feed, IsDone, p, pipe, View(), b.View())
        decreases |b.View().pending|
      {
        LoopTakes(Feed, IsDone, p, pipe, View(), b.View());
        var c := b.ReadByte();
        FeedByte(c);
        if state == Done || state == ErrorVersion {
          error := state == ErrorVersion;
          return;
        }
        more := b.CanRead();
      }
      LoopEnds(Feed, IsDone, p, pipe, View(), b.View());
    }
  }

  /** `auth_marshall`; -1 means the buffer had no room. */
  method Marshall(b: Buffer, status: byte) returns (r: int)
    requires b.Valid()
    modifies b`write, b.data
    ensures b.Valid()
    ensures if old(b.View()).room < 2 then r == -1 && b.View() == old(b.View())
            else r == 2 && b.View() == old(b.View()).Put(Reply(status))
  {
    if b.data.Length - b.write < 2 {
      return -1;
    }
    b.Deliver([VERSION, status]);
    r := 2;
  }
}
