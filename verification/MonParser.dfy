/** The server's incremental parser of monitoring requests, src/server/mon_parser.c. */
module MonParser {
  import opened Bytes
  import opened Pipes
  import opened Buffers
  import opened Chunks
  import opened MonProtocol

  datatype State = Version | Cmd | NArgs | ArgLen | ArgData | Done | Failed

  datatype Fields = Fields(state: State, request: Request, current: byte, offset: byte)

  /** The argument index stays within the announced arguments, the offset within the argument being read. */
  predicate InBounds(p: Fields) {
    && p.request.nargs as nat <= MAX_ARGS
    && (p.state.ArgLen? ==> p.current < p.request.nargs)
    && (p.state.ArgData? ==> p.current < p.request.nargs && p.offset < p.request.lens[p.current])
  }

  const NO_REQUEST: Request := MonProtocol.Request(0, 0, 0, [0, 0], [BLANK, BLANK])

  type Parser = p: Fields | InBounds(p)
    witness Fields(Version, NO_REQUEST, 0, 0)

  /** The skipping loop: arguments of length 0 are terminated at once. */
  function Skip(r: Request, current: byte): (s: (Request, byte))
    requires r.nargs as nat <= MAX_ARGS && current <= r.nargs
    ensures current <= s.1 <= r.nargs && s.0 == r.(args := s.0.args)
    ensures s.1 < r.nargs ==> r.lens[s.1] != 0
    ensures forall i :: 0 <= i < MAX_ARGS ==>
              s.0.args[i] == if current as int <= i < s.1 as int then r.args[i][0 := 0] else r.args[i]
    ensures forall i: nat :: current as int <= i < s.1 as int ==> r.lens[i] == 0
    decreases r.nargs - current
  {
    if current < r.nargs && r.lens[current] == 0 then
      Skip(r.(args := r.args[current := r.args[current][0 := 0]]), current + 1)
    else (r, current)
  }

  /** Where the parser goes once an argument, or the last length, has ended. */
  function NextArg(r: Request, current: byte): Parser
    requires r.nargs as nat <= MAX_ARGS && current <= r.nargs
  {
    var s := Skip(r, current);
    Fields(if s.1 >= r.nargs then Done else ArgData, s.0, s.1, 0)
  }

  function Feed(p: Parser, b: byte): Parser {
    var r := p.request;
    match p.state
    case Version => if b != VERSION then p.(state := Failed) else p.(state := Cmd, request := r.(version := b))
    case Cmd => p.(state := NArgs, request := r.(cmd := b))
    case NArgs =>
      if b as nat > MAX_ARGS then p.(state := Failed)
      else p.(state := if b == 0 then Done else ArgLen, request := r.(nargs := b), current := 0)
    case ArgLen =>
      var r' := r.(lens := r.lens[p.current := b]);
      if p.current + 1 >= r.nargs then NextArg(r', 0) else p.(request := r', current := p.current + 1)
    case ArgData =>
      var filled: Block := r.args[p.current][p.offset := b];
      if p.offset + 1 >= r.lens[p.current] then
        NextArg(r.(args := r.args[p.current := filled[p.offset + 1 := 0]]), p.current + 1)
      else p.(request := r.(args := r.args[p.current := filled]), offset := p.offset + 1)
    case _ => p
  }

  predicate IsDone(p: Parser) {
    p.state.Done? || p.state.Failed?
  }

  /** `mon_parser_init`: lengths and arguments keep what they held. */
  ghost predicate Initial(p: Parser) {
    p.state.Version? && p.current == p.offset == p.request.version == p.request.cmd == p.request.nargs == 0
  }

  datatype Message = More | Bad(n: nat) | Command(cmd: byte, args: seq<bytes>, n: nat)

  predicate Headed(s: bytes) {
    |s| >= 3 && s[0] == VERSION && s[2] as nat <= MAX_ARGS
  }

  /** Where argument `i` starts in a message; the one past the last starts where the message ends. */
  function ArgAt(s: bytes, i: nat): nat
    requires Headed(s) && i <= s[2] as nat && |s| >= 3 + s[2] as nat
  {
    if i == 0 then 3 + s[2] as nat else ArgAt(s, i - 1) + s[3 + i - 1] as nat
  }

  function Grammar(s: bytes): Message {
    if |s| == 0 then More
    else if s[0] != VERSION then Bad(1)
    else if |s| < 3 then More
    else if !Headed(s) then Bad(3)
    else
      var n: nat := s[2];
      if |s| < 3 + n || |s| < ArgAt(s, n) then More
      else Command(s[1], if n == 0 then [] else if n == 1 then [Arg(s, 0)] else [Arg(s, 0), Arg(s, 1)], ArgAt(s, n))
  }

  function Arg(s: bytes, i: nat): (r: bytes)
    requires Headed(s) && i < s[2] as nat && |s| >= 3 + s[2] as nat && |s| >= ArgAt(s, i + 1)
    ensures |r| == s[3 + i] as int
  {
    s[ArgAt(s, i)..ArgAt(s, i + 1)]
  }

  /** Argument `i` has been read: its bytes and, right after them, a terminator. */
  ghost predicate HasArg(r: Request, i: nat, arg: bytes)
    requires i < MAX_ARGS
  {
    && r.lens[i] as int == |arg| && |arg| < 256
    && r.args[i][..|arg|] == arg && r.args[i][|arg|] == 0
  }

  ghost predicate Reads(r: Request, pre: bytes) {
    Headed(pre) && pre[1] == r.cmd && pre[2] == r.nargs && r.version == VERSION
  }

  ghost predicate TracksLens(p: Parser, pre: bytes) {
    && Reads(p.request, pre) && |pre| == 3 + p.current as nat && p.current < p.request.nargs
    && p.request.lens[..p.current] == pre[3..]
  }

  /** The first `n` arguments have been read. */
  ghost predicate HasArgs(r: Request, pre: bytes, n: nat) {
    && Reads(r, pre) && n <= r.nargs as nat <= |pre| - 3
    && r.lens[..r.nargs] == pre[3..3 + r.nargs as nat]
    && ArgAt(pre, n) <= |pre|
    && (n >= 1 ==> ArgAt(pre, 1) <= |pre| && HasArg(r, 0, Arg(pre, 0)))
    && (n >= 2 ==> ArgAt(pre, 2) <= |pre| && HasArg(r, 1, Arg(pre, 1)))
  }

  ghost predicate TracksData(p: Parser, pre: bytes)
    requires p.state.ArgData?
  {
    && HasArgs(p.request, pre, p.current)
    && |pre| == ArgAt(pre, p.current) + p.offset as int
    && p.request.args[p.current][..p.offset] == pre[ArgAt(pre, p.current)..]
  }

  ghost predicate Tracks(p: Parser, pre: bytes) {
    match p.state
    case Version => pre == []
    case Cmd => pre == [VERSION] && p.request.version == VERSION
    case NArgs => |pre| == 2 && pre[0] == VERSION && pre[1] == p.request.cmd && p.request.version == VERSION
    case ArgLen => TracksLens(p, pre)
    case ArgData => TracksData(p, pre)
    case _ => false
  }

  ghost predicate Carries(r: Request, cmd: byte, args: seq<bytes>) {
    && r.version == VERSION && r.cmd == cmd && r.nargs as int == |args| <= MAX_ARGS
    && (forall i :: 0 <= i < |args| ==> HasArg(r, i, args[i]))
  }

  ghost predicate Agrees(r: (Parser, nat), m: Message, base: nat, size: nat) {
    match m
    case More => !IsDone(r.0) && r.1 == size
    case Bad(n) => r.0.state == Failed && base + r.1 == n
    case Command(cmd, args, n) => r.0.state == Done && base + r.1 == n && Carries(r.0.request, cmd, args)
  }

  ghost predicate StepOk(p: Parser, pre: bytes, b: byte, rest: bytes) {
    var q := Feed(p, b);
    if IsDone(q) then Agrees((q, 1), Grammar(pre + [b] + rest), |pre|, 1 + |rest|) else Tracks(q, pre + [b])
  }

  lemma ArgAtMore(s: bytes, t: bytes, i: nat)
    requires Headed(s) && i <= s[2] as nat && |s| >= 3 + s[2] as nat
    ensures Headed(s + t) && ArgAt(s + t, i) == ArgAt(s, i)
  {
    if i > 0 { ArgAtMore(s, t, i - 1); }
  }

  lemma HasArgsMore(r: Request, pre: bytes, t: bytes, n: nat)
    requires HasArgs(r, pre, n)
    ensures HasArgs(r, pre + t, n)
  {
    var s := pre + t;
    assert s[3..3 + r.nargs as nat] == pre[3..3 + r.nargs as nat];
    ArgAtMore(pre, t, n);
    if n >= 1 {
      ArgAtMore(pre, t, 0);
      ArgAtMore(pre, t, 1);
      assert Arg(s, 0) == Arg(pre, 0);
    }
    if n >= 2 {
      ArgAtMore(pre, t, 2);
      assert Arg(s, 1) == Arg(pre, 1);
    }
  }

  /** An argument of length 0 is read as soon as the one before it. */
  lemma EmptyArg(r: Request, pre: bytes, n: nat)
    requires HasArgs(r, pre, n) && n < r.nargs as nat <= MAX_ARGS && r.lens[n] == 0 && |pre| == ArgAt(pre, n)
    ensures HasArgs(r.(args := r.args[n := r.args[n][0 := 0]]), pre, n + 1) && |pre| == ArgAt(pre, n + 1)
  {
    assert pre[3..3 + r.nargs as nat][n] == r.lens[n];
    assert ArgAt(pre, n + 1) == ArgAt(pre, n);
    assert Arg(pre, n) == [];
  }

  lemma {:induction false} Skips(r: Request, current: byte, pre: bytes, rest: bytes)
    requires HasArgs(r, pre, current) && r.nargs as nat <= MAX_ARGS && |pre| == ArgAt(pre, current)
    ensures var q := NextArg(r, current);
            if q.state == Done
            then Grammar(pre + rest).Command? && Grammar(pre + rest).n == |pre|
                 && Carries(q.request, Grammar(pre + rest).cmd, Grammar(pre + rest).args)
            else Tracks(q, pre)
    decreases r.nargs - current
  {
    if current < r.nargs && r.lens[current] == 0 {
      EmptyArg(r, pre, current);
      Skips(r.(args := r.args[current := r.args[current][0 := 0]]), current + 1, pre, rest);
    } else if current >= r.nargs {
      HasArgsMore(r, pre, rest, current);
      AllRead(r, pre, rest);
    }
  }

  lemma AllRead(r: Request, pre: bytes, rest: bytes)
    requires HasArgs(r, pre, r.nargs as nat) && r.nargs as nat <= MAX_ARGS && |pre| == ArgAt(pre, r.nargs as nat)
    ensures var m := Grammar(pre + rest); m.Command? && m.n == |pre| && Carries(r, m.cmd, m.args)
  {
    HasArgsMore(r, pre, rest, r.nargs as nat);
    ArgAtMore(pre, rest, r.nargs as nat);
  }

  lemma StepLen(p: Parser, pre: bytes, b: byte, rest: bytes)
    requires Tracks(p, pre) && p.state.ArgLen?
    ensures StepOk(p, pre, b, rest)
  {
    hide Grammar, Skip, Carries;
    var r := p.request;
    var r' := r.(lens := r.lens[p.current := b]);
    var pre' := pre + [b];
    assert r'.lens[..p.current + 1] == pre'[3..] by {
      assert r'.lens[..p.current] == r.lens[..p.current];
    }
    if p.current + 1 >= r.nargs {
      assert pre'[3..3 + r.nargs as nat] == pre'[3..];
      assert ArgAt(pre', 0) == 3 + r.nargs as nat;
      Skips(r', 0, pre', rest);
    }
  }

  /** The byte of an argument that completes it. */
  lemma LastByte(p: Parser, pre: bytes, b: byte)
    requires Tracks(p, pre) && p.state.ArgData? && p.offset + 1 >= p.request.lens[p.current]
    ensures var r := p.request;
            var r' := r.(args := r.args[p.current := r.args[p.current][p.offset := b][p.offset + 1 := 0]]);
            && HasArgs(r', pre + [b], p.current as nat + 1)
            && |pre + [b]| == ArgAt(pre + [b], p.current as nat + 1)
  {
    hide Grammar, Skip, Carries;
    var r, c := p.request, p.current as nat;
    var block: Block := r.args[c][p.offset := b][p.offset + 1 := 0];
    var r' := r.(args := r.args[c := block]);
    var pre' := pre + [b];
    HasArgsMore(r, pre, [b], c);
    ArgAtMore(pre, [b], c);
    assert pre'[3..3 + r.nargs as nat][c] == r.lens[c];
    assert ArgAt(pre', c + 1) == |pre'|;
    assert Arg(pre', c) == pre[ArgAt(pre, c)..] + [b];
    assert block[..p.offset] == r.args[c][..p.offset];
    assert block[..p.offset + 1] == Arg(pre', c);
    assert HasArg(r', c, Arg(pre', c));
  }

  lemma InnerByte(p: Parser, pre: bytes, b: byte)
    requires Tracks(p, pre) && p.state.ArgData? && p.offset + 1 < p.request.lens[p.current]
    ensures Tracks(Feed(p, b), pre + [b])
  {
    var r, c := p.request, p.current as nat;
    var q := Feed(p, b);
    var pre' := pre + [b];
    HasArgsMore(r, pre, [b], c);
    ArgAtMore(pre, [b], c);
    assert pre'[ArgAt(pre, c)..] == pre[ArgAt(pre, c)..] + [b];
    assert q.request.args[c][..p.offset] == r.args[c][..p.offset];
  }

  lemma StepData(p: Parser, pre: bytes, b: byte, rest: bytes)
    requires Tracks(p, pre) && p.state.ArgData?
    ensures StepOk(p, pre, b, rest)
  {
    hide Grammar, Skip, TracksData, HasArgs, Carries;
    if p.offset + 1 >= p.request.lens[p.current] {
      LastByte(p, pre, b);
      var r := p.request;
      var block: Block := r.args[p.current][p.offset := b][p.offset + 1 := 0];
      Skips(r.(args := r.args[p.current := block]), p.current + 1, pre + [b], rest);
    } else {
      InnerByte(p, pre, b);
    }
  }

  lemma Step(p: Parser, pre: bytes, b: byte, rest: bytes)
    requires Tracks(p, pre)
    ensures StepOk(p, pre, b, rest)
  {
    match p.state {
      case ArgLen => StepLen(p, pre, b, rest);
      case ArgData => StepData(p, pre, b, rest);
      case _ =>
    }
  }

  lemma TracksMore(p: Parser, pre: bytes)
    requires Tracks(p, pre)
    ensures !IsDone(p) && Grammar(pre) == More
  {
    if p.state.ArgData? {
      var n, c := p.request.nargs as nat, p.current as nat;
      assert pre[3..3 + n][c] == p.request.lens[c];
      assert ArgAt(pre, c + 1) > |pre|;
    }
  }

  lemma {:induction false} Parses(p: Parser, pre: bytes, s: bytes)
    requires Tracks(p, pre)
    ensures Agrees(Consume(Feed, IsDone, p, s), Grammar(pre + s), |pre|, |s|)
    decreases |s|
  {
    hide Tracks, Grammar, Carries;
    if s == [] {
      assert pre + s == pre;
      TracksMore(p, pre);
    } else {
      Step(p, pre, s[0], s[1..]);
      assert pre + s == pre + [s[0]] + s[1..];
      hide Feed;
      if !IsDone(Feed(p, s[0])) { Parses(Feed(p, s[0]), pre + [s[0]], s[1..]); }
    }
  }

  /** The byte-at-a-time parser, its skipping loops included, reads what the grammar says. */
  lemma MeetsGrammar(p: Parser, s: bytes)
    requires Initial(p)
    ensures Agrees(Consume(Feed, IsDone, p, s), Grammar(s), 0, |s|)
  {
    Parses(p, [], s);
    assert [] + s == s;
  }

  lemma AnySplit(p: Parser, chunks: seq<bytes>)
    requires Initial(p)
    ensures Agrees(Deliver(Feed, IsDone, p, chunks), Grammar(Flatten(chunks)), 0, |Flatten(chunks)|)
  {
    ChunkIndependence(Feed, IsDone, p, chunks);
    MeetsGrammar(p, Flatten(chunks));
  }

  // The encoder and the parser undo each other.

  lemma RequestGrammar(r: Request, rest: bytes)
    requires r.version == VERSION && r.nargs as nat <= MAX_ARGS
    ensures Grammar(RequestBytes(r) + rest) == Command(r.cmd, ArgsOf(r, r.nargs as nat), |RequestBytes(r)|)
  {
    var s := RequestBytes(r);
    var all := s + rest;
    var n: nat := r.nargs;
    assert s[3..3 + n] == r.lens[..n];
    assert n >= 1 ==> all[3] == s[3..3 + n][0] == r.lens[0];
    assert n == 2 ==> all[4] == s[3..3 + n][1] == r.lens[1];
    if n == 0 {
      assert ArgAt(all, 0) == |s|;
      assert ArgsOf(r, 0) == [];
    } else if n == 1 {
      FirstArg(r, rest);
      assert ArgAt(all, 1) == ArgAt(all, 0) + r.lens[0] as nat == |s|;
      assert ArgsOf(r, 1) == [Arg(all, 0)];
    } else {
      FirstArg(r, rest);
      SecondArg(r, rest);
      assert ArgAt(all, 1) == ArgAt(all, 0) + r.lens[0] as nat;
      assert ArgAt(all, 2) == ArgAt(all, 1) + r.lens[1] as nat == |s|;
      assert ArgsOf(r, 2) == [Arg(all, 0), Arg(all, 1)];
    }
  }

  lemma FirstArg(r: Request, rest: bytes)
    requires r.version == VERSION && 1 <= r.nargs as nat <= MAX_ARGS
    ensures var all, at := RequestBytes(r) + rest, 3 + r.nargs as nat;
            && at + r.lens[0] as nat <= |RequestBytes(r)|
            && (r.nargs == 1 ==> at + r.lens[0] as nat == |RequestBytes(r)|)
            && all[at..at + r.lens[0] as nat] == r.args[0][..r.lens[0]]
  {
    var head := [r.version, r.cmd, r.nargs] + r.lens[..r.nargs];
    var a0 := r.args[0][..r.lens[0]];
    assert Joined(r, 0) + a0 == a0;
    assert r.nargs == 2 ==> Joined(r, 2) == a0 + r.args[1][..r.lens[1]];
    assert a0 <= Joined(r, r.nargs as nat);
  }

  lemma SecondArg(r: Request, rest: bytes)
    requires r.version == VERSION && r.nargs as nat == 2
    ensures var all, at := RequestBytes(r) + rest, 5 + r.lens[0] as nat;
            at + r.lens[1] as nat == |RequestBytes(r)| && all[at..at + r.lens[1] as nat] == r.args[1][..r.lens[1]]
  {
    var a0 := r.args[0][..r.lens[0]];
    assert Joined(r, 0) + a0 == a0;
    assert Joined(r, 2) == a0 + r.args[1][..r.lens[1]];
  }

  /** Parsing an encoded request, empty arguments included, gives it back and takes exactly its bytes. */
  lemma ParseInvertsEncode(p: Parser, r: Request, rest: bytes)
    requires Initial(p) && r.version == VERSION && r.nargs as nat <= MAX_ARGS
    ensures var (q, n) := Consume(Feed, IsDone, p, RequestBytes(r) + rest);
            q.state == Done && n == |RequestBytes(r)| && Carries(q.request, r.cmd, ArgsOf(r, r.nargs as nat))
  {
    RequestGrammar(r, rest);
    MeetsGrammar(p, RequestBytes(r) + rest);
  }

  function Row(a: array2<byte>, i: nat): (r: Block)
    reads a
    requires i < a.Length0 && a.Length1 == 256
  {
    seq(256, j requires 0 <= j < 256 reads a => a[i, j])
  }

  lemma SkipOne(r: Request, current: byte)
    requires r.nargs as nat <= MAX_ARGS && current < r.nargs && r.lens[current] == 0
    ensures Skip(r, current) == Skip(r.(args := r.args[current := r.args[current][0 := 0]]), current + 1)
  {
  }

  lemma SkipNone(r: Request, current: byte)
    requires r.nargs as nat <= MAX_ARGS && current <= r.nargs && (current < r.nargs ==> r.lens[current] != 0)
    ensures Skip(r, current) == (r, current)
  {
  }

  class RequestReader {
    var state: State
    var version: byte
    var cmd: byte
    var nargs: byte
    const lens: array<byte>
    const args: array2<byte>
    var current: byte
    var offset: byte

    ghost function AsRequest(): Request
      reads this, lens, args
      requires lens.Length == args.Length0 == MAX_ARGS && args.Length1 == 256
    {
      MonProtocol.Request(version, cmd, nargs, lens[..], [Row(args, 0), Row(args, 1)])
    }

    ghost predicate Valid()
      reads this, lens, args
    {
      && lens.Length == args.Length0 == MAX_ARGS && args.Length1 == 256
      && InBounds(Fields(state, AsRequest(), current, offset))
    }

    ghost function View(): Parser
      reads this, lens, args
      requires Valid()
    {
      Fields(state, AsRequest(), current, offset)
    }

    constructor ()
      ensures Valid() && fresh(lens) && fresh(args)
    {
      lens := new byte[MAX_ARGS];
      args := new byte[MAX_ARGS, 256];
      state, version, cmd, nargs, current, offset := Version, 0, 0, 0, 0, 0;
    }

    /** `mon_parser_init` */
    method Init()
      requires Valid()
      modifies this
      ensures Valid() && Initial(View())
    {
      state, version, cmd, nargs, current, offset := Version, 0, 0, 0, 0, 0;
    }

    method SetArg(i: byte, j: byte, b: byte)
      requires lens.Length == args.Length0 == MAX_ARGS && args.Length1 == 256 && i as nat < MAX_ARGS
      modifies args
      ensures var r := old(AsRequest()); AsRequest() == r.(args := r.args[i := r.args[i][j := b]])
    {
      args[i, j] := b;
      assert Row(args, i as nat) == old(Row(args, i as nat))[j := b];
      assert Row(args, 1 - i as nat) == old(Row(args, 1 - i as nat));
    }

    /** The loop over the arguments of length 0, and what follows it. */
    method SkipEmpty()
      requires lens.Length == args.Length0 == MAX_ARGS && args.Length1 == 256
      requires nargs as nat <= MAX_ARGS && current <= nargs && offset == 0
      modifies this`current, this`state, args
      ensures Valid() && View() == NextArg(old(AsRequest()), old(current))
    {
      hide Skip;
      ghost var r, c := AsRequest(), current;
      while current < nargs && lens[current] == 0
        invariant current <= nargs && AsRequest().nargs == nargs && AsRequest().lens == r.lens
        invariant Skip(AsRequest(), current) == Skip(r, c)
        decreases nargs - current
      {
        SkipOne(AsRequest(), current);
        SetArg(current, 0, 0);
        current := current + 1;
      }
      SkipNone(AsRequest(), current);
      state := if current >= nargs then Done else ArgData;
    }

    method TakeData(b: byte)
      requires Valid() && state.ArgData?
      modifies this, args
      ensures Valid() && View() == Feed(old(View()), b)
    {
      hide Skip;
      SetArg(current, offset, b);
      offset := offset + 1;
      if offset >= lens[current] {
        SetArg(current, offset, 0);
        current, offset := current + 1, 0;
        SkipEmpty();
      }
    }

    method FeedByte(b: byte)
      requires Valid()
      modifies this, lens, args
      ensures Valid() && View() == Feed(old(View()), b)
    {
      hide Skip;
      match state {
        case Version =>
          if b != VERSION {
            state := Failed;
          } else {
            version, state := b, Cmd;
          }
        case Cmd => cmd, state := b, NArgs;
        case NArgs =>
          if b as nat > MAX_ARGS {
            state := Failed;
          } else {
            nargs, current := b, 0;
            state := if b == 0 then Done else ArgLen;
          }
        case ArgLen =>
          lens[current] := b;
          current := current + 1;
          if current >= nargs {
            current, offset := 0, 0;
            SkipEmpty();
          }
        case ArgData =>
          TakeData(b);
        case Done =>
        case Failed =>
      }
    }

    /** `mon_parser_consume` */
    method ConsumeFrom(b: Buffer) returns (error: bool)
      requires Valid() && b.Valid() && b.data != lens
      modifies this, lens, args, b, b.data
      ensures Valid() && b.Valid()
      ensures Consumed(Feed, IsDone, old(View()), old(b.View()), View(), b.View())
      ensures error == (old(b.View()).pending != [] && View().state == Failed)
    {
      hide Looping, Consumed, Feed, Consume, InBounds;
      ghost var pipe, p := b.View(), View();
      error := false;
      var more := b.CanRead();
      LoopBegins(Feed, IsDone, p, pipe);
      while more
        invariant Valid() && b.Valid() && more == (b.View().pending != []) && !error
        invariant Looping(Feed, IsDone, p, pipe, View(), b.View())
        decreases |b.View().pending|
      {
        LoopTakes(Feed, IsDone, p, pipe, View(), b.View());
        var c := b.ReadByte();
        FeedByte(c);
        if state == Done || state == Failed {
          error := state == Failed;
          return;
        }
        more := b.CanRead();
      }
      LoopEnds(Feed, IsDone, p, pipe, View(), b.View());
    }
  }
}
