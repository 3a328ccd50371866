/** Method negotiation, src/server/hello.c (section 3 of RFC 1928). */
module Hello {
  import opened Bytes
  import opened Pipes
  import opened Buffers
  import opened Chunks

  const VERSION: byte := 5
  const USERNAME_PASSWORD: byte := 2
  const NO_ACCEPTABLE_METHODS: byte := 0xFF

  datatype State = Version | NMethods | Methods | Done | ErrorVersion

  /** The parser and the method its callback has selected. */
  datatype Parser = Parser(state: State, remaining: byte, selected: byte)

  const Init: Parser := Parser(Version, 0, NO_ACCEPTABLE_METHODS)

  function Feed(p: Parser, b: byte): Parser {
    match p.state
    case Version => p.(state := if b == VERSION then NMethods else ErrorVersion)
    case NMethods => p.(remaining := b, state := if b == 0 then Done else Methods)
    case Methods =>
      var left: byte := (p.remaining + 255) % 256;
      Parser(if left == 0 then Done else Methods, left, if b == USERNAME_PASSWORD then b else p.selected)
    case _ => p
  }

  predicate IsDone(p: Parser) {
    p.state.Done? || p.state.ErrorVersion?
  }

  /** What a byte string holds, read as a method negotiation message. */
  datatype Message = More | Bad(n: nat) | Offer(methods: bytes, n: nat)

  function Grammar(s: bytes): Message {
    if |s| == 0 then More
    else if s[0] != VERSION then Bad(1)
    else if |s| == 1 || |s| - 2 < s[1] then More
    else var n: nat := s[1]; Offer(s[2..2 + n], 2 + n)
  }

  function Choice(methods: bytes): byte {
    if USERNAME_PASSWORD in methods then USERNAME_PASSWORD else NO_ACCEPTABLE_METHODS
  }

  /** A parser that took `pre` and is not done. */
  ghost predicate Tracks(p: Parser, pre: bytes) {
    match p.state
    case Version => pre == [] && p.selected == NO_ACCEPTABLE_METHODS
    case NMethods => pre == [VERSION] && p.selected == NO_ACCEPTABLE_METHODS
    case Methods =>
      && |pre| >= 2 && pre[0] == VERSION && 0 < p.remaining && |pre| - 2 + p.remaining == pre[1]
      && p.selected == Choice(pre[2..])
    case _ => false
  }

  ghost predicate Agrees(r: (Parser, nat), m: Message, base: nat, size: nat) {
    match m
    case More => !IsDone(r.0) && r.1 == size
    case Bad(n) => r.0.state == ErrorVersion && base + r.1 == n
    case Offer(methods, n) => r.0.state == Done && base + r.1 == n && r.0.selected == Choice(methods)
  }

  lemma {:induction false} Parses(p: Parser, pre: bytes, s: bytes)
    requires Tracks(p, pre)
    ensures Agrees(Consume(Feed, IsDone, p, s), Grammar(pre + s), |pre|, |s|)
    ensures !IsDone(Consume(Feed, IsDone, p, s).0) ==> Tracks(Consume(Feed, IsDone, p, s).0, pre + s)
    decreases |s|
  {
    if s == [] {
      assert pre + s == pre;
    } else {
      var q := Feed(p, s[0]);
      var pre' := pre + [s[0]];
      assert pre + s == pre' + s[1..];
      if IsDone(q) {
        if p.state == Methods {
          assert pre'[2..] == pre[2..] + [s[0]];
          assert (pre + s)[2..2 + pre[1]] == pre'[2..];
        }
      } else {
        if p.state == Methods { assert pre'[2..] == pre[2..] + [s[0]]; }
        Parses(q, pre', s[1..]);
      }
    }
  }

  /** The byte-at-a-time parser reads exactly what the grammar says, and takes exactly that many bytes. */
  lemma MeetsGrammar(s: bytes)
    ensures Agrees(Consume(Feed, IsDone, Init, s), Grammar(s), 0, |s|)
  {
    Parses(Init, [], s);
    assert [] + s == s;
  }

  /** However the stream is split into reads, the message found and the bytes left over are the grammar's. */
  lemma AnySplit(chunks: seq<bytes>)
    ensures Agrees(Deliver(Feed, IsDone, Init, chunks), Grammar(Flatten(chunks)), 0, |Flatten(chunks)|)
  {
    ChunkIndependence(Feed, IsDone, Init, chunks);
    MeetsGrammar(Flatten(chunks));
  }

  function Reply(chosen: byte): bytes {
    [VERSION, chosen]
  }

  class HelloParser {
    var state: State
    var remaining: byte
    var selected: byte

    ghost function View(): Parser
      reads this
    {
      Parser(state, remaining, selected)
    }

    constructor ()
      ensures View() == Init
    {
      state, remaining, selected := Version, 0, NO_ACCEPTABLE_METHODS;
    }

    /** `hello_read_init`, which also resets the method selected. */
    method Reset()
      modifies this
      ensures View() == Init
    {
      state, remaining, selected := Version, 0, NO_ACCEPTABLE_METHODS;
    }

    method FeedByte(b: byte)
      modifies this
      ensures View() == Feed(old(View()), b)
    {
      match state {
        case Version => state := if b == VERSION then NMethods else ErrorVersion;
        case NMethods =>
          remaining := b;
          state := if b == 0 then Done else Methods;
        case Methods =>
          if b == USERNAME_PASSWORD { selected := b; }
          remaining := (remaining + 255) % 256;
          if remaining == 0 { state := Done; }
        case Done =>
        case ErrorVersion =>
      }
    }

    /** `hello_consume` */
    method ConsumeFrom(b: Buffer) returns (error: bool)
      requires b.Valid()
      modifies this, b, b.data
      ensures b.Valid()
      ensures Consumed(Feed, IsDone, old(View()), old(b.View()), View(), b.View())
      ensures error == (old(b.View()).pending != [] && View().state == ErrorVersion)
    {
      hide Looping, Consumed, Feed, Consume;
      ghost var pipe, p := b.View(), View();
      error := false;
      var more := b.CanRead();
      LoopBegins(Feed, IsDone, p, pipe);
      while more
        invariant b.Valid() && more == (b.View().pending != []) && !error
        invariant Looping(Feed, IsDone, p, pipe, View(), b.View())
        decreases |b.View().pending|
      {
        LoopTakes(Feed, IsDone, p, pipe, View(), b.View());
        var c := b.ReadByte();
        FeedByte(c);
        if state == Done || state == ErrorVersion {
          error := state == ErrorVersion;
          return;
        }
        more := b.CanRead();
      }
      LoopEnds(Feed, IsDone, p, pipe, View(), b.View());
    }
  }

  /** `hello_marshall`; -1 means the buffer had no room. */
  method Marshall(b: Buffer, chosen: byte) returns (r: int)
    requires b.Valid()
    modifies b`write, b.data
    ensures b.Valid()
    ensures if old(b.View()).room < 2 then r == -1 && b.View() == old(b.View())
            else r == 2 && b.View() == old(b.View()).Put(Reply(chosen))
  {
    if b.data.Length - b.write < 2 {
      return -1;
    }
    b.Deliver([VERSION, chosen]);
    r := 2;
  }
}
