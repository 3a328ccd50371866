/** CONNECT requests and their replies, src/server/request.c (sections 4 to 6 of RFC 1928). */
module Request {
  import opened Bytes
  import opened Pipes
  import opened Buffers
  import opened Chunks

  const VERSION: byte := 5
  const CONNECT: byte := 1
  const IPV4: byte := 1
  const DOMAINNAME: byte := 3
  const IPV6: byte := 4

  const SUCCEEDED: byte := 0
  const GENERAL_FAILURE: byte := 1
  const NETWORK_UNREACHABLE: byte := 3
  const HOST_UNREACHABLE: byte := 4
  const CONNECTION_REFUSED: byte := 5
  const COMMAND_NOT_SUPPORTED: byte := 7
  const ADDRESS_TYPE_NOT_SUPPORTED: byte := 8

  type Port = s: bytes | |s| == 2 witness [0, 0]

  datatype State = Version | Command | Reserved | Atyp | DstAddr | DstPort | Done | ErrorVersion | ErrorAtyp

  datatype Fields = Fields(state: State, command: byte, atyp: byte, address: Block, addressLen: byte,
                           addressIndex: byte, port: Port, portIndex: byte)

  /** The port index never leaves its array; the address index cannot, being a byte. */
  type Parser = p: Fields | p.state.DstPort? ==> p.portIndex < 2
    witness Fields(Version, 0, 0, seq(256, i => 0), 0, 0, [0, 0], 0)

  function Feed(p: Parser, b: byte): Parser {
    match p.state
    case Version => p.(state := if b == VERSION then Command else ErrorVersion)
    case Command => p.(command := b, state := Reserved)
    case Reserved => p.(state := if b == 0 then Atyp else ErrorVersion)
    case Atyp =>
      var q := p.(atyp := b, addressIndex := 0);
      if b == IPV4 then q.(addressLen := 4, state := DstAddr)
      else if b == IPV6 then q.(addressLen := 16, state := DstAddr)
      else if b == DOMAINNAME then q.(addressLen := 0, state := DstAddr)
      else q.(state := ErrorAtyp)
    case DstAddr =>
      if p.atyp == DOMAINNAME && p.addressLen == 0 then
        p.(addressLen := b, state := if b == 0 then ErrorAtyp else DstAddr)
      else
        var i: byte := (p.addressIndex + 1) % 256;
        var q := p.(address := p.address[p.addressIndex := b], addressIndex := i);
        if i == p.addressLen then q.(portIndex := 0, state := DstPort) else q
    case DstPort =>
      p.(port := p.port[p.portIndex := b], portIndex := p.portIndex + 1,
         state := if p.portIndex + 1 == 2 then Done else DstPort)
    case _ => p
  }

  predicate IsDone(p: Parser) {
    p.state.Done? || p.state.ErrorVersion? || p.state.ErrorAtyp?
  }

  /** `request_parser_init` */
  function Reinit(p: Parser): (q: Parser)
    ensures Initial(q)
  {
    Fields(Version, 0, 0, p.address, 0, 0, [0, 0], 0)
  }

  /** A parser just initialised: the address keeps what it held. */
  ghost predicate Initial(p: Parser) {
    p.state.Version? && p.command == p.atyp == p.addressLen == p.addressIndex == p.portIndex == 0 && p.port == [0, 0]
  }

  datatype Message =
    | More
    | BadVersion(n: nat)
    | BadAtyp(n: nat)
    | Request(command: byte, atyp: byte, address: bytes, port: bytes, n: nat)

  /** Where the address of a message with a good header starts, and how long it is. */
  predicate Headed(s: bytes) {
    && |s| >= 4 && s[0] == VERSION && s[2] == 0
    && (s[3] == IPV4 || s[3] == IPV6 || (s[3] == DOMAINNAME && |s| >= 5 && s[4] != 0))
  }

  function Offset(s: bytes): nat
    requires Headed(s)
  {
    if s[3] == DOMAINNAME then 5 else 4
  }

  function Length(s: bytes): nat
    requires Headed(s)
  {
    if s[3] == DOMAINNAME then s[4] else if s[3] == IPV4 then 4 else 16
  }

  function Grammar(s: bytes): Message {
    if |s| == 0 then More
    else if s[0] != VERSION then BadVersion(1)
    else if |s| < 3 then More
    else if s[2] != 0 then BadVersion(3)
    else if |s| < 4 then More
    else if s[3] == DOMAINNAME && |s| == 4 then More
    else if s[3] == DOMAINNAME && s[4] == 0 then BadAtyp(5)
    else if !Headed(s) then BadAtyp(4)
    else Body(s, Offset(s), Length(s))
  }

  function Body(s: bytes, at: nat, len: nat): Message
    requires |s| >= 4
  {
    if |s| < at + len + 2 then More
    else Request(s[1], s[3], s[at..at + len], s[at + len..at + len + 2], at + len + 2)
  }

  ghost predicate Tracks(p: Parser, pre: bytes) {
    match p.state
    case Version => pre == []
    case Command => pre == [VERSION]
    case Reserved => |pre| == 2 && pre[0] == VERSION && pre[1] == p.command
    case Atyp => |pre| == 3 && pre[0] == VERSION && pre[1] == p.command && pre[2] == 0
    case DstAddr =>
      && |pre| >= 4 && pre[0] == VERSION && pre[1] == p.command && pre[2] == 0 && pre[3] == p.atyp
      && if p.atyp == DOMAINNAME && p.addressLen == 0 then |pre| == 4 && p.addressIndex == 0 else TracksAddress(p, pre)
    case DstPort => Headed(pre) && pre[1] == p.command && pre[3] == p.atyp && TracksPort(p, pre)
    case _ => false
  }

  ghost predicate TracksAddress(p: Parser, pre: bytes) {
    && Headed(pre) && p.addressLen == Length(pre) && |pre| == Offset(pre) + p.addressIndex
    && p.addressIndex < p.addressLen && p.address[..p.addressIndex] == pre[Offset(pre)..]
  }

  ghost predicate TracksPort(p: Parser, pre: bytes)
    requires Headed(pre) && p.portIndex < 2
  {
    && p.addressLen == Length(pre) && |pre| == Offset(pre) + p.addressLen + p.portIndex
    && p.address[..p.addressLen] == pre[Offset(pre)..Offset(pre) + p.addressLen]
    && p.port[..p.portIndex] == pre[Offset(pre) + p.addressLen..]
  }

  ghost predicate Agrees(r: (Parser, nat), m: Message, base: nat, size: nat) {
    match m
    case More => !IsDone(r.0) && r.1 == size
    case BadVersion(n) => r.0.state == ErrorVersion && base + r.1 == n
    case BadAtyp(n) => r.0.state == ErrorAtyp && base + r.1 == n
    case Request(command, atyp, address, port, n) =>
      && r.0.state == Done && base + r.1 == n
      && r.0.command == command && r.0.atyp == atyp
      && r.0.addressLen == |address| && r.0.address[..r.0.addressLen] == address && r.0.port == port
  }

  ghost predicate StepOk(p: Parser, pre: bytes, b: byte, rest: bytes) {
    var q := Feed(p, b);
    if IsDone(q) then Agrees((q, 1), Grammar(pre + [b] + rest), |pre|, 1 + |rest|) else Tracks(q, pre + [b])
  }

  lemma StepAddress(p: Parser, pre: bytes, b: byte, rest: bytes)
    requires Tracks(p, pre) && p.state.DstAddr? && !(p.atyp == DOMAINNAME && p.addressLen == 0)
    ensures StepOk(p, pre, b, rest)
  {
    hide Grammar, Agrees;
    var q := Feed(p, b);
    var pre' := pre + [b];
    var o := Offset(pre);
    assert Headed(pre') && Offset(pre') == o && Length(pre') == Length(pre);
    assert q.address[..p.addressIndex] == p.address[..p.addressIndex];
    assert q.addressIndex == p.addressIndex + 1;
    assert q.address[..q.addressIndex] == pre'[o..];
    if q.state == DstPort {
      assert pre'[o..o + q.addressLen] == pre'[o..];
      assert pre'[o + q.addressLen..] == [];
    }
  }

  lemma Complete(s: bytes, rest: bytes)
    requires Headed(s) && |s| == Offset(s) + Length(s) + 2
    ensures Grammar(s + rest)
            == Request(s[1], s[3], s[Offset(s)..Offset(s) + Length(s)], s[Offset(s) + Length(s)..], |s|)
  {
    var all, at, len := s + rest, Offset(s), Length(s);
    assert all[at..at + len] == s[at..at + len];
    assert all[at + len..at + len + 2] == s[at + len..];
  }

  lemma StepPort(p: Parser, pre: bytes, b: byte, rest: bytes)
    requires Tracks(p, pre) && p.state.DstPort?
    ensures StepOk(p, pre, b, rest)
  {
    hide Grammar;
    var q := Feed(p, b);
    var pre' := pre + [b];
    var o, len := Offset(pre), p.addressLen as nat;
    assert Headed(pre') && Offset(pre') == o && Length(pre') == Length(pre);
    assert pre'[o..o + len] == pre[o..o + len];
    assert pre'[o + len..] == pre[o + len..] + [b];
    assert q.port[..q.portIndex] == pre'[o + len..];
    if q.state == Done { Complete(pre', rest); }
  }

  lemma Step(p: Parser, pre: bytes, b: byte, rest: bytes)
    requires Tracks(p, pre)
    ensures StepOk(p, pre, b, rest)
  {
    match p.state {
      case DstAddr => if !(p.atyp == DOMAINNAME && p.addressLen == 0) { StepAddress(p, pre, b, rest); }
      case DstPort => StepPort(p, pre, b, rest);
      case _ =>
    }
  }

  lemma TracksMore(p: Parser, pre: bytes)
    requires Tracks(p, pre)
    ensures !IsDone(p) && Grammar(pre) == More
  {
  }

  lemma {:induction false} Parses(p: Parser, pre: bytes, s: bytes)
    requires Tracks(p, pre)
    ensures Agrees(Consume(Feed, IsDone, p, s), Grammar(pre + s), |pre|, |s|)
    decreases |s|
  {
    hide Tracks, Grammar;
    if s == [] {
      assert pre + s == pre;
      TracksMore(p, pre);
    } else {
      Step(p, pre, s[0], s[1..]);
      assert pre + s == pre + [s[0]] + s[1..];
      hide Feed;
      if !IsDone(Feed(p, s[0])) { Parses(Feed(p, s[0]), pre + [s[0]], s[1..]); }
    }
  }

  lemma MeetsGrammar(p: Parser, s: bytes)
    requires Initial(p)
    ensures Agrees(Consume(Feed, IsDone, p, s), Grammar(s), 0, |s|)
  {
    Parses(p, [], s);
    assert [] + s == s;
  }

  /** However the stream is split into reads, the message found and the bytes left over are the grammar's. */
  lemma AnySplit(p: Parser, chunks: seq<bytes>)
    requires Initial(p)
    ensures Agrees(Deliver(Feed, IsDone, p, chunks), Grammar(Flatten(chunks)), 0, |Flatten(chunks)|)
  {
    ChunkIndependence(Feed, IsDone, p, chunks);
    MeetsGrammar(p, Flatten(chunks));
  }

  // Replies.

  datatype Family = Inet | Inet6 | OtherFamily

  type Addr4 = s: bytes | |s| == 4 witness [0, 0, 0, 0]
  type Addr6 = s: bytes | |s| == 16 witness seq(16, i => 0)

  /** A `struct sockaddr` seen through its family, and the length the caller vouches for. */
  datatype Sockaddr = Sockaddr(family: Family, v4: Addr4, v6: Addr6, port: Port, len: nat)

  const SOCKADDR_IN: nat := 16
  const SOCKADDR_IN6: nat := 28

  datatype Endpoint = Endpoint(atyp: byte, address: bytes, port: bytes)

  /**
   * What a reply says of the bound endpoint: the address and port of an IPv4 or
   * an IPv6 socket address given whole, and zeros for anything else.
   */
  ghost predicate Tells(atyp: byte, address: bytes, port: bytes, a: Option<Sockaddr>) {
    if a.Some? && a.value.family.Inet? && a.value.len >= 16 then atyp == 1 && address == a.value.v4 && port == a.value.port
    else if a.Some? && a.value.family.Inet6? && a.value.len >= 28 then
      atyp == 4 && address == a.value.v6 && port == a.value.port
    else atyp == 1 && address == [0, 0, 0, 0] && port == [0, 0]
  }

  function Bound(a: Option<Sockaddr>): (e: Endpoint)
    ensures |e.port| == 2 && |e.address| == if e.atyp == IPV6 then 16 else 4
    ensures e.atyp == IPV4 || e.atyp == IPV6
    ensures Tells(e.atyp, e.address, e.port, a)
  {
    if a.Some? && a.value.family.Inet? && a.value.len >= SOCKADDR_IN then Endpoint(IPV4, a.value.v4, a.value.port)
    else if a.Some? && a.value.family.Inet6? && a.value.len >= SOCKADDR_IN6 then Endpoint(IPV6, a.value.v6, a.value.port)
    else Endpoint(IPV4, [0, 0, 0, 0], [0, 0])
  }

  function Reply(code: byte, e: Endpoint): bytes {
    [VERSION, code, 0, e.atyp] + e.address + e.port
  }

  /** Replies have the layout of requests: the request parser reads back the code and the endpoint of any reply. */
  lemma ReadsBack(p: Parser, code: byte, a: Option<Sockaddr>, rest: bytes)
    requires Initial(p)
    ensures var e := Bound(a);
            var (q, n) := Consume(Feed, IsDone, p, Reply(code, e) + rest);
            && q.state == Done && n == |Reply(code, e)|
            && q.command == code && q.atyp == e.atyp && q.address[..q.addressLen] == e.address && q.port == e.port
            && Tells(q.atyp, q.address[..q.addressLen], q.port, a)
  {
    var e := Bound(a);
    var s := Reply(code, e);
    hide Consume, Feed, IsDone;
    MeetsGrammar(p, s + rest);
    assert s[4..4 + |e.address|] == e.address && s[4 + |e.address|..] == e.port;
    Complete(s, rest);
  }

  class RequestParser {
    var state: State
    var command: byte
    var atyp: byte
    const address: array<byte>
    var addressLen: byte
    var addressIndex: byte
    const port: array<byte>
    var portIndex: byte

    ghost predicate Valid()
      reads this
    {
      address.Length == 256 && port.Length == 2 && (state.DstPort? ==> portIndex < 2)
    }

    ghost function View(): Parser
      reads this, address, port
      requires Valid()
    {
      Fields(state, command, atyp, address[..], addressLen, addressIndex, port[..], portIndex)
    }

    constructor ()
      ensures Valid() && fresh(address) && fresh(port)
    {
      address := new byte[256];
      port := new byte[2];
      state, command, atyp, addressLen, addressIndex, portIndex := Version, 0, 0, 0, 0, 0;
    }

    /** `request_parser_init` */
    method Init()
      requires Valid()
      modifies this, port
      ensures Valid() && Initial(View())
      ensures View() == Reinit(old(View()))
    {
      state, command, atyp, addressLen, addressIndex, portIndex := Version, 0, 0, 0, 0, 0;
      port[0], port[1] := 0, 0;
    }

    method FeedByte(b: byte)
      requires Valid()
      modifies this, address, port
      ensures Valid() && View() == Feed(old(View()), b)
    {
      match state {
        case Version => state := if b == VERSION then Command else ErrorVersion;
        case Command =>
          command := b;
          state := Reserved;
        case Reserved => state := if b == 0 then Atyp else ErrorVersion;
        case Atyp =>
          atyp, addressIndex := b, 0;
          if b == IPV4 {
            addressLen, state := 4, DstAddr;
          } else if b == IPV6 {
            addressLen, state := 16, DstAddr;
          } else if b == DOMAINNAME {
            addressLen, state := 0, DstAddr;
          } else {
            state := ErrorAtyp;
          }
        case DstAddr =>
          if atyp == DOMAINNAME && addressLen == 0 {
            addressLen := b;
            if addressLen == 0 { state := ErrorAtyp; }
          } else {
            address[addressIndex] := b;
            addressIndex := (addressIndex + 1) % 256;
            if addressIndex == addressLen {
              portIndex := 0;
              state := DstPort;
            }
          }
        case DstPort =>
          port[portIndex] := b;
          portIndex := portIndex + 1;
          if portIndex == 2 { state := Done; }
        case Done =>
        case ErrorVersion =>
        case ErrorAtyp =>
      }
    }

    /** `request_consume` */
    method ConsumeFrom(b: Buffer) returns (error: bool)
      requires Valid() && b.Valid() && b.data != address && b.data != port
      modifies this, address, port, b, b.data
      ensures Valid() && b.Valid()
      ensures Consumed(Feed, IsDone, old(View()), old(b.View()), View(), b.View())
      ensures error == (old(b.View()).pending != [] && (View().state == ErrorVersion || View().state == ErrorAtyp))
    {
      hide Looping, Consumed, Feed, Consume;
      ghost var pipe, p := b.View(), View();
      error := false;
      var more := b.CanRead();
      LoopBegins(Feed, IsDone, p, pipe);
      while more
        invariant Valid() && b.Valid() && more == (b.View().pending != []) && !error
        invariant Looping(Feed, IsDone, p, pipe, View(), b.View())
        decreases |b.View().pending|
      {
        LoopTakes(Feed, IsDone, p, pipe, View(), b.View());
        var c := b.ReadByte();
        FeedByte(c);
        if state == Done || state == ErrorVersion || state == ErrorAtyp {
          error := state != Done;
          return;
        }
        more := b.CanRead();
      }
      LoopEnds(Feed, IsDone, p, pipe, View(), b.View());
    }
  }

  /** `request_marshall_reply`; -1 means the buffer had no room. */
  method Marshall(b: Buffer, code: byte, a: Option<Sockaddr>) returns (r: int)
    requires b.Valid()
    modifies b`write, b.data
    ensures b.Valid()
    ensures var reply := Reply(code, Bound(a));
            if old(b.View()).room < |reply| then r == -1 && b.View() == old(b.View())
            else r == |reply| && b.View() == old(b.View()).Put(reply)
  {
    var atyp := IPV4;
    var addrLen := 4;
    var address: bytes := [0, 0, 0, 0];
    var port: bytes := [0, 0];
    if a.Some? && a.value.family.Inet? && a.value.len >= SOCKADDR_IN {
      address, port := a.value.v4, a.value.port;
    } else if a.Some? && a.value.family.Inet6? && a.value.len >= SOCKADDR_IN6 {
      atyp, addrLen := IPV6, 16;
      address, port := a.value.v6, a.value.port;
    }
    var replyLen := 4 + addrLen + 2;
    if b.data.Length - b.write < replyLen {
      return -1;
    }
    b.Deliver([VERSION, code, 0, atyp] + address + port);
    r := replyLen;
  }
}
