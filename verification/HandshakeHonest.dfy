/**
 * An honest client ends up being relayed for: whatever pieces its messages
 * arrive in, whatever pieces the replies leave in, whether its destination is
 * an address or a name, and whatever other addresses of the name fail first.
 */
module HandshakeHonest {
  import opened Bytes
  import opened Pipes
  import opened Chunks
  import RelaySpec
  import H = Hello
  import A = Auth
  import R = Request
  import U = UserTable
  import opened HandshakeSpec
  import opened HandshakeRuns

  /**
   * What the client says, a user table that knows it, what its destination's
   * name is resolved to if it is a name, and the addresses that accept
   * connections.
   */
  datatype Job = Job(hello: bytes, auth: bytes, request: bytes, users: U.Slots, names: seq<Info>, up: set<Addr>)

  function Messages(j: Job): seq<bytes> {
    [j.hello, j.auth, j.request]
  }

  predicate AsksByName(j: Job) {
    R.Grammar(j.request).Request? && R.Grammar(j.request).atyp == R.DOMAINNAME
  }

  /** The address of a destination that is not a name. */
  function Destination(j: Job): Addr {
    match R.Grammar(j.request)
    case Request(_, atyp, address, port, _) => Direct(atyp, address, port)
    case _ => Direct(0, [], [])
  }

  /** Some address of the list accepts connections. */
  ghost predicate CanReach(up: set<Addr>, l: seq<Info>) {
    exists i :: i in l && i.stream && i.addr in up
  }

  ghost predicate WholeHello(m: bytes) {
    H.Grammar(m).Offer? && H.Grammar(m).n == |m| && H.USERNAME_PASSWORD in H.Grammar(m).methods
  }

  ghost predicate WholeAuth(m: bytes) {
    A.Grammar(m).Credentials? && A.Grammar(m).n == |m|
  }

  ghost predicate WholeRequest(m: bytes) {
    R.Grammar(m).Request? && R.Grammar(m).n == |m| && R.Grammar(m).command == R.CONNECT
  }

  /** Whole messages that ask for a destination that can be reached. */
  ghost predicate GoodJob(j: Job) {
    && WholeHello(j.hello) && WholeAuth(j.auth) && WholeRequest(j.request)
    && U.Valid(j.users) && StatusOf(Some(j.users), j.auth) == A.SUCCESS
    && if AsksByName(j) then CanReach(j.up, j.names) else Destination(j) in j.up
  }

  predicate Accepts(a: Attempt) {
    a == Now(true) || a == Later(true)
  }

  /** Attempts at addresses that accept connections connect, at once or later; the others do anything. */
  predicate Accepted(up: set<Addr>, l: seq<Info>, attempts: seq<Attempt>)
    requires |attempts| >= |l|
  {
    forall k :: 0 <= k < |l| && l[k].stream && l[k].addr in up ==> Accepts(attempts[k])
  }

  ghost predicate GoodWorld(j: Job, c: Conn, w: World) {
    && WorldOk(c, w) && StatusOf(Some(w.users), j.auth) == A.SUCCESS && w.dnsStart == 0
    && if AsksByName(j) then Accepted(j.up, c.dnsNext, w.attempts) else Accepts(w.attempts[0])
  }

  /** The message being sent, and nothing after the last. */
  function Current(j: Job, c: Conn): bytes {
    if |c.heard| < 3 then Messages(j)[|c.heard|] else []
  }

  /** The address dialled last accepts connections. */
  predicate DialsUp(up: set<Addr>, c: Conn) {
    c.tried != [] && c.tried[|c.tried| - 1] in up
  }

  /**
   * The events that get on: some bytes of the current message arrive, some bytes
   * of a reply leave, names are found, a connect settles as its address does.
   */
  ghost predicate Willing(j: Job, c: Conn, e: Event) {
    && Legal(c, e)
    && match e
       case Readable(r, w) => r.Data? && c.taken + r.got <= Current(j, c) && GoodWorld(j, c, w)
       case Writable(r) => r.Wrote? && r.n > 0
       case OriginWritable(error, w) => GoodWorld(j, c, w) && (DialsUp(j.up, c) ==> error == 0)
       case WorkerStores(error, found, queued) => error == 0 && found == Some(j.names) && queued
       case BlockDone(w) => GoodWorld(j, c, w)
  }

  ghost predicate WillingRun(j: Job, c: Conn, es: seq<Event>)
    decreases |es|
  {
    es != [] ==> Willing(j, c, es[0]) && WillingRun(j, Step(c, es[0]), es[1..])
  }

  // Messages arriving in pieces.

  lemma HelloPart(m: bytes, whole: bytes)
    requires WholeHello(whole) && m <= whole
    ensures m == whole || H.Grammar(m).More?
  {
    assert forall k :: 0 <= k < |m| ==> m[k] == whole[k];
  }

  lemma AuthPart(m: bytes, whole: bytes)
    requires WholeAuth(whole) && m <= whole
    ensures m == whole || A.Grammar(m).More?
  {
    assert forall k :: 0 <= k < |m| ==> m[k] == whole[k];
  }

  lemma RequestPart(m: bytes, whole: bytes)
    requires WholeRequest(whole) && m <= whole
    ensures m == whole || R.Grammar(m).More?
  {
    assert forall k :: 0 <= k < |m| ==> m[k] == whole[k];
  }

  /** The parser takes all of a piece, and is done exactly when the message is whole. */
  lemma HelloPiece(p: H.Parser, t: bytes, got: bytes, whole: bytes)
    requires p == Consume(H.Feed, H.IsDone, H.Init, t).0 && !H.IsDone(p) && WholeHello(whole) && t + got <= whole
    ensures var (q, n) := Consume(H.Feed, H.IsDone, p, got);
            n == |got| && if t + got == whole then q.state.Done? else !H.IsDone(q)
  {
    hide H.Grammar, Consume, H.Feed;
    ConsumeSplit(H.Feed, H.IsDone, H.Init, t, got);
    H.MeetsGrammar(t + got);
    HelloPart(t + got, whole);
  }

  lemma AuthPiece(i: A.Parser, p: A.Parser, t: bytes, got: bytes, whole: bytes)
    requires A.Initial(i) && p == Consume(A.Feed, A.IsDone, i, t).0 && !A.IsDone(p) && WholeAuth(whole) && t + got <= whole
    ensures var (q, n) := Consume(A.Feed, A.IsDone, p, got);
            n == |got| && if t + got == whole then q.state.Done? else !A.IsDone(q)
  {
    hide A.Grammar, Consume, A.Feed, CStr;
    ConsumeSplit(A.Feed, A.IsDone, i, t, got);
    A.MeetsGrammar(i, t + got);
    AuthPart(t + got, whole);
  }

  /** The parser holds the destination of the message. */
  predicate Holds(q: R.Parser, m: R.Message) {
    m.Request? && q.atyp == m.atyp && q.addressLen == |m.address| && q.address[..q.addressLen] == m.address && q.port == m.port
  }

  lemma RequestPiece(i: R.Parser, p: R.Parser, t: bytes, got: bytes, whole: bytes)
    requires R.Initial(i) && p == Consume(R.Feed, R.IsDone, i, t).0 && !R.IsDone(p)
    requires WholeRequest(whole) && t + got <= whole
    ensures var (q, n) := Consume(R.Feed, R.IsDone, p, got);
            && n == |got| && (if t + got == whole then q.state.Done? else !R.IsDone(q))
            && (t + got == whole ==> q.command == R.CONNECT && Holds(q, R.Grammar(whole)))
  {
    hide R.Grammar, Consume, R.Feed;
    ConsumeSplit(R.Feed, R.IsDone, i, t, got);
    R.MeetsGrammar(i, t + got);
    RequestPart(t + got, whole);
  }

  // Connecting.

  lemma {:induction false} DialReaches(up: set<Addr>, c: Conn, last: nat, attempts: seq<Attempt>)
    requires |attempts| >= |c.dnsNext| && (forall a :: a in attempts ==> AttemptOk(a)) && Fault(last)
    requires c.origin.NoOrigin? && c.originInterest == NOOP && CanReach(up, c.dnsNext) && Accepted(up, c.dnsNext, attempts)
    ensures var (d, status) := DialNext(c, last, attempts);
            status == 0 || (status == EINPROGRESS && (DialsUp(up, d) || CanReach(up, d.dnsNext)))
    decreases |c.dnsNext|
  {
    hide Dial;
    var info, rest := c.dnsNext[0], c.dnsNext[1..];
    var c1 := c.(dnsNext := rest);
    assert forall a :: a in attempts[1..] ==> a in attempts;
    var i :| i in c.dnsNext && i.stream && i.addr in up;
    assert i == info || i in rest;
    assert Accepted(up, rest, attempts[1..]);
    if !info.stream {
      assert CanReach(up, rest);
      DialReaches(up, c1, last, attempts[1..]);
    } else {
      assert attempts[0] in attempts;
      DialOnce(c1, info.addr, attempts[0]);
      var (c2, status) := Dial(c1, info.addr, attempts[0]);
      if info.addr in up {
        DialAccepted(c1, info.addr, attempts[0]);
      } else {
        assert CanReach(up, rest);
        if status != 0 && status != EINPROGRESS { DialReaches(up, c2, status, attempts[1..]); }
      }
    }
  }

  lemma DialAccepted(c: Conn, addr: Addr, a: Attempt)
    requires Accepts(a)
    ensures var (d, status) := Dial(c, addr, a);
            && (status == 0 || status == EINPROGRESS) && d.tried == c.tried + [addr] && d.dnsNext == c.dnsNext
  {
  }

  /** Names have been asked for, or found, or an address can still be reached. */
  ghost predicate Hopeful(j: Job, c: Conn) {
    match c.dns
    case Asked(_) => true
    case Stored => c.dnsError == 0 && c.dnsResult == Some(j.names)
    case _ => c.origin.Pending? && (DialsUp(j.up, c) || CanReach(j.up, c.dnsNext))
  }

  /** The connection is carrying out the client's request. */
  ghost predicate Serves(j: Job, c: Conn) {
    R.Grammar(j.request).Request? && c.request.atyp == R.Grammar(j.request).atyp && (Literal(c) ==> Target(c) == Destination(j))
  }

  /** How much connecting may still take. */
  function Ahead(j: Job, c: Conn): nat {
    match c.dns
    case Asked(_) => |j.names| + 2
    case Stored => |j.names| + 1
    case _ => |c.dnsNext| + 1
  }

  lemma ConnectReaches(j: Job, c: Conn, w: World)
    requires GoodJob(j) && Serves(j, c) && Ready(c) && GoodWorld(j, c, w)
    requires c.dns.Answered? ==> c.dnsError == 0 && c.dnsResult == Some(j.names) && c.dnsNext == j.names
    ensures var (d, status) := ConnectToOrigin(c, w);
            && OnlyConnects(c, d)
            && (status == 0 || (status == EINPROGRESS && Hopeful(j, d) && !d.dns.Stored?
                                && (c.dns.Answered? ==> !d.dns.Asked?) && Ahead(j, d) <= |j.names| + if d.dns.Asked? then 2 else 1))
            && (c.dns.Answered? && status != 0 ==> Ahead(j, d) <= |j.names|)
  {
    hide R.Grammar, U.Valid, StatusOf, DialNext, Dial, Target, Wanted, Destination, Dialled;
    ConnectEffect(c, w);
    if Literal(c) {
      hide OnlyConnects;
      DialAccepted(c, Target(c), w.attempts[0]);
    } else if c.dns.Answered? {
      DialsInOrder(c, EHOSTUNREACH, w.attempts);
      DialsLeave(c, EHOSTUNREACH, w.attempts);
      DialReaches(j.up, c, EHOSTUNREACH, w.attempts);
    }
  }

  // Every willing event keeps this, and gets on.

  /** Nothing was sent ahead, the current message is under way, and nothing has been refused. */
  ghost predicate Stage(j: Job, c: Conn) {
    && c.input == Fresh(CAPACITY)
    && match if c.current.Some? then c.current.value else HelloRead
       case HelloRead => c.taken < Current(j, c)
       case AuthRead => c.taken < Current(j, c)
       case RequestRead => c.taken < Current(j, c)
       case HelloWrite => c.taken == [] && |c.output.pending| <= 2
       case AuthWrite => c.taken == [] && |c.output.pending| <= 2
       case Connecting => c.taken == [] && Serves(j, c) && Hopeful(j, c)
       case RequestWrite => c.taken == [] && c.reply == R.SUCCEEDED && |c.output.pending| <= 22
       case _ => false
  }

  /** What has been heard is what the client said, and its credentials were accepted. */
  ghost predicate Trusts(j: Job, c: Conn) {
    c.heard <= Messages(j) && (|c.heard| >= 2 ==> StatusOf(c.users, j.auth) == A.SUCCESS)
  }

  ghost predicate Honest(j: Job, c: Conn) {
    Inv(c) && c.open && Trusts(j, c) && if c.relaying then |c.heard| == 3 else Stage(j, c)
  }

  /** Bytes not yet heard, bytes not yet sent, and what connecting may still take. */
  function Left(j: Job, c: Conn): int {
    var serving := |j.names| + 24;
    match if c.relaying then Relay else if c.current.Some? then c.current.value else HelloRead
    case HelloRead => |j.hello| + |j.auth| + |j.request| - |c.taken| + serving + 4
    case HelloWrite => |j.auth| + |j.request| + |c.output.pending| + serving + 2
    case AuthRead => |j.auth| + |j.request| - |c.taken| + serving + 2
    case AuthWrite => |j.request| + |c.output.pending| + serving
    case RequestRead => |j.request| - |c.taken| + serving
    case Connecting => 22 + Ahead(j, c)
    case RequestWrite => |c.output.pending|
    case _ => 0
  }

  ghost predicate GetsOn(j: Job, c: Conn, d: Conn) {
    && d.open && Trusts(j, d) && (if d.relaying then |d.heard| == 3 else Stage(j, d))
    && 0 <= Left(j, d) < Left(j, c)
  }

  lemma FirstRead(c: Conn, got: bytes, w: World)
    requires |got| <= c.input.room && |w.attempts| >= |c.dnsNext| && |w.attempts| >= 1
    ensures OnReadable(c, RelaySpec.Data(got), w) == OnReadable(First(c), RelaySpec.Data(got), w)
  {
    hide Dispatch, Apply;
  }

  /** What reading a piece of the negotiation does. */
  lemma NegotiationRead(c: Conn, got: bytes, w: World, q: H.Parser)
    requires c.current == Some(HelloRead) && c.input == c.output == Fresh(CAPACITY) && |got| <= CAPACITY
    requires c.open && !c.relaying && !c.aborted && |w.attempts| >= |c.dnsNext| && |w.attempts| >= 1
    requires Consume(H.Feed, H.IsDone, c.hello, got) == (q, |got|) && !q.state.ErrorVersion?
    ensures var d := OnReadable(c, RelaySpec.Data(got), w);
            && d.open && !d.relaying && d.input == Fresh(CAPACITY)
            && if q.state.Done? then
                 d.current == Some(HelloWrite) && d.heard == c.heard + [c.taken + got] && d.taken == [] && |d.output.pending| == 2
               else d.current == c.current && d.heard == c.heard && d.taken == c.taken + got
  {
    hide Consume, H.Feed;
    assert [] + got == got && got[..|got|] == got;
  }

  lemma HearsHello(j: Job, c: Conn, got: bytes, w: World)
    requires GoodJob(j) && Honest(j, c) && Willing(j, c, Readable(RelaySpec.Data(got), w))
    requires c.current.None? || c.current == Some(HelloRead)
    ensures GetsOn(j, c, OnReadable(c, RelaySpec.Data(got), w))
  {
    hide Hist, H.Grammar, A.Grammar, R.Grammar, Consume, H.Feed, StatusOf, U.Valid, Hopeful, WholeHello, OnReadable;
    assert H.Init == Consume(H.Feed, H.IsDone, H.Init, []).0 by { NoBytes(); }
    FirstRead(c, got, w);
    var b := First(c);
    HelloPiece(b.hello, b.taken, got, j.hello);
    NegotiationRead(b, got, w, Consume(H.Feed, H.IsDone, b.hello, got).0);
  }

  lemma NoBytes()
    ensures Consume(H.Feed, H.IsDone, H.Init, []).0 == H.Init
  {
  }

  /** What reading a piece of the credentials does. */
  lemma CredentialsRead(c: Conn, got: bytes, w: World, q: A.Parser)
    requires c.current == Some(AuthRead) && c.input == c.output == Fresh(CAPACITY) && |got| <= CAPACITY
    requires c.open && !c.relaying && !c.aborted && |w.attempts| >= |c.dnsNext| && |w.attempts| >= 1
    requires Consume(A.Feed, A.IsDone, c.auth, got) == (q, |got|) && !q.state.ErrorVersion?
    ensures var d := OnReadable(c, RelaySpec.Data(got), w);
            && d.open && !d.relaying && d.input == Fresh(CAPACITY)
            && if q.state.Done? then
                 && d.current == Some(AuthWrite) && d.heard == c.heard + [c.taken + got] && d.taken == []
                 && d.users == Some(w.users) && |d.output.pending| == 2
               else d.current == c.current && d.heard == c.heard && d.taken == c.taken + got && d.users == c.users
  {
    hide Consume, A.Feed, U.Lookup, CStr;
    assert [] + got == got && got[..|got|] == got;
  }

  lemma HearsAuth(j: Job, c: Conn, got: bytes, w: World)
    requires GoodJob(j) && Honest(j, c) && Willing(j, c, Readable(RelaySpec.Data(got), w))
    requires c.current == Some(AuthRead)
    ensures GetsOn(j, c, OnReadable(c, RelaySpec.Data(got), w))
  {
    hide Hist, H.Grammar, A.Grammar, R.Grammar, Consume, A.Feed, StatusOf, U.Valid, CStr, Hopeful, WholeAuth, OnReadable;
    ReadState(c, c);
    var i :| A.Initial(i) && c.auth == Consume(A.Feed, A.IsDone, i, c.taken).0;
    AuthPiece(i, c.auth, c.taken, got, j.auth);
    CredentialsRead(c, got, w, Consume(A.Feed, A.IsDone, c.auth, got).0);
  }

  /** Part of the request has arrived. */
  lemma HearsPart(j: Job, c: Conn, d: Conn)
    requires Honest(j, c) && c.current == Some(RequestRead) && !c.relaying
    requires d.open && !d.relaying && d.current == c.current && d.heard == c.heard && d.users == c.users
    requires d.input == Fresh(CAPACITY) && c.taken < d.taken < j.request
    ensures GetsOn(j, c, d)
  {
    hide Hist, H.Grammar, A.Grammar, R.Grammar, Consume, StatusOf;
  }

  /** The request is whole, and is carried out. */
  lemma CarriedOut(j: Job, c: Conn, d: Conn)
    requires Honest(j, c) && c.current == Some(RequestRead) && !c.relaying
    requires d.open && !d.relaying && d.heard == c.heard + [j.request] && d.users == c.users
    requires d.input == Fresh(CAPACITY) && d.taken == []
    requires if d.current == Some(Connecting) then Serves(j, d) && Hopeful(j, d) && Ahead(j, d) <= |j.names| + 2
             else d.current == Some(RequestWrite) && d.reply == R.SUCCEEDED && |d.output.pending| <= 22
    ensures GetsOn(j, c, d)
  {
    hide Hist, H.Grammar, A.Grammar, R.Grammar, Consume, StatusOf, Hopeful, Serves, Ahead;
  }

  /** A piece of the request has arrived and the parser, at `q`, has taken all of it. */
  function Piece(c: Conn, got: bytes, q: R.Parser): Conn {
    c.(request := q, taken := c.taken + got, input := Fresh(CAPACITY), received := c.received + got)
  }

  lemma PieceReady(c: Conn, got: bytes, w: World, q: R.Parser)
    requires c.input == Fresh(CAPACITY) && |got| <= CAPACITY && |w.attempts| >= |c.dnsNext| && |w.attempts| >= 1
    requires Consume(R.Feed, R.IsDone, c.request, got) == (q, |got|) && (R.IsDone(q) ==> q.state.Done? && q.command == R.CONNECT)
    ensures var c1 := Piece(c, got, q);
            RequestReady(c.(input := c.input.Put(got), received := c.received + got), w) ==
            if !q.state.Done? then (c1, RequestRead)
            else
              var (c2, status) := ConnectToOrigin(Heard(c1), w);
              if status == EINPROGRESS then (c2, Connecting) else MarshallReply(c2.(reply := ReplyFor(status)), w)
  {
    hide Consume, R.Feed, ConnectToOrigin, MarshallReply, ReplyFor, Heard, Piece;
    PieceTaken(c, got, q);
  }

  lemma PieceTaken(c: Conn, got: bytes, q: R.Parser)
    requires c.input == Fresh(CAPACITY) && |got| <= CAPACITY
    ensures var c0 := c.(input := c.input.Put(got), received := c.received + got);
            && c0.input.pending == got
            && c0.(request := q, taken := c0.taken + got[..|got|], input := c0.input.Take(|got|)) == Piece(c, got, q)
  {
    assert got[..|got|] == got && [] + got == got;
  }

  /** What reading a piece of the request does. */
  lemma PieceRead(c: Conn, got: bytes, w: World)
    requires c.current == Some(RequestRead) && |got| <= c.input.room
    requires |w.attempts| >= |c.dnsNext| && |w.attempts| >= 1
    ensures var (c1, s) := RequestReady(c.(input := c.input.Put(got), received := c.received + got), w);
            OnReadable(c, RelaySpec.Data(got), w) == if Jump(c1, s).aborted then Jump(c1, s) else Apply(Jump(c1, s), s)
  {
    hide RequestReady, Jump, Apply;
  }

  /** Connecting has succeeded or is under way. */
  lemma HearsWhole(j: Job, c: Conn, c1: Conn, w: World, d: Conn)
    requires GoodJob(j) && Honest(j, c) && c.current == Some(RequestRead) && !c.relaying && GoodWorld(j, c1, w)
    requires c1.current == c.current && c1.heard == c.heard + [j.request] && c1.taken == [] && c1.users == c.users
    requires c1.input == Fresh(CAPACITY) && c1.open && !c1.relaying && Ready(c1) && Quiet(c1) && Serves(j, c1)
    requires PipesOk(c1) && Drained(c1) && |w.attempts| >= |c1.dnsNext| && |w.attempts| >= 1
    requires d == var (c2, status) := ConnectToOrigin(c1, w);
                  var (c3, s) := if status == EINPROGRESS then (c2, Connecting) else MarshallReply(c2.(reply := ReplyFor(status)), w);
                  if Jump(c3, s).aborted then Jump(c3, s) else Apply(Jump(c3, s), s)
    ensures GetsOn(j, c, d)
  {
    hide Inv, GoodJob, GoodWorld, Trusts, Stage, CanReach, ConnectToOrigin, MarshallReply, GetsOn, A.Reinit, R.Reinit;
    ConnectReaches(j, c1, w);
    var (c2, status) := ConnectToOrigin(c1, w);
    if status == 0 { MarshalsShort(c2.(reply := R.SUCCEEDED), w); }
    CarriedOut(j, c, d);
  }

  lemma HearsRequest(j: Job, c: Conn, got: bytes, w: World)
    requires GoodJob(j) && Honest(j, c) && Willing(j, c, Readable(RelaySpec.Data(got), w))
    requires c.current == Some(RequestRead)
    ensures GetsOn(j, c, OnReadable(c, RelaySpec.Data(got), w))
  {
    hide Hist, H.Grammar, A.Grammar, R.Grammar, Consume, R.Feed, StatusOf, U.Valid, WholeRequest, ConnectToOrigin, MarshallReply,
         Serves, Holds, GetsOn, CanReach, OnReadable, Jump, Apply;
    ReadState(c, c);
    var i :| R.Initial(i) && c.request == Consume(R.Feed, R.IsDone, i, c.taken).0;
    RequestPiece(i, c.request, c.taken, got, j.request);
    var q := Consume(R.Feed, R.IsDone, c.request, got).0;
    PieceRead(c, got, w);
    PieceReady(c, got, w, q);
    var d := OnReadable(c, RelaySpec.Data(got), w);
    if c.taken + got == j.request {
      WholeRequestIs(j.request);
      ServesIt(j, Heard(Piece(c, got, q)));
      HearsWhole(j, c, Heard(Piece(c, got, q)), w, d);
    } else {
      StillReading(Piece(c, got, q));
      HearsPart(j, c, d);
    }
  }

  lemma ServesIt(j: Job, c: Conn)
    requires Holds(c.request, R.Grammar(j.request))
    ensures Serves(j, c)
  {
  }

  lemma StillReading(c: Conn)
    requires Drained(c) && c.current == Some(RequestRead)
    ensures Jump(c, RequestRead) == c && Apply(c, RequestRead) == c.(client := READ)
  {
  }

  lemma WholeRequestIs(m: bytes)
    requires WholeRequest(m)
    ensures R.Grammar(m).Request?
    ensures R.Grammar(m).atyp == R.IPV4 || R.Grammar(m).atyp == R.IPV6 || R.Grammar(m).atyp == R.DOMAINNAME
  {
  }

  lemma MarshalsShort(c: Conn, w: World)
    requires PipesOk(c) && Drained(c)
    ensures var (c1, s) := MarshallReply(c, w);
            && s == RequestWrite && c1 == c.(output := c1.output, answer := c1.answer) && 0 < |c1.output.pending| <= 22
            && c1.answer != []
  {
    Marshalled(c, w);
  }

  lemma NotEmpty(j: Job)
    requires GoodJob(j)
    ensures j.hello != [] && j.auth != [] && j.request != []
    ensures AsksByName(j) ==> j.names != []
  {
  }

  /** Some bytes of a reply have left. */
  lemma RepliesPart(j: Job, c: Conn, n: nat)
    requires Honest(j, c) && Willing(j, c, Writable(RelaySpec.Wrote(n))) && n < |c.output.pending|
    ensures GetsOn(j, c, OnWritable(c, RelaySpec.Wrote(n)))
  {
    hide Hist, Consume, StatusOf, U.Valid, H.Grammar, A.Grammar, R.Grammar, Hopeful;
    WritableState(c);
  }

  lemma AllHeard(c: Conn)
    requires Inv(c) && c.open && !c.relaying && c.current == Some(RequestWrite) && c.reply == R.SUCCEEDED
    ensures |c.heard| == 3
  {
    hide HeardOk, Received, Said, CodeFits, Admitted;
  }

  lemma RepliesHello(j: Job, c: Conn)
    requires GoodJob(j) && Honest(j, c) && !c.relaying && c.current == Some(HelloWrite) && !c.aborted
    ensures GetsOn(j, c, OnWritable(c, RelaySpec.Wrote(|c.output.pending|)))
  {
    hide Hist, StatusOf, U.Valid, A.Grammar, R.Grammar;
    NotEmpty(j);
    assert c.heard[0] == Messages(j)[0];
  }

  lemma RepliesAuth(j: Job, c: Conn)
    requires GoodJob(j) && Honest(j, c) && !c.relaying && c.current == Some(AuthWrite) && !c.aborted
    ensures GetsOn(j, c, OnWritable(c, RelaySpec.Wrote(|c.output.pending|)))
  {
    hide Hist, StatusOf, U.Valid, H.Grammar, A.Grammar, R.Grammar;
    NotEmpty(j);
    assert c.heard[1] == Messages(j)[1];
  }

  lemma RepliesRequest(j: Job, c: Conn)
    requires GoodJob(j) && Honest(j, c) && !c.relaying && c.current == Some(RequestWrite) && !c.aborted
    ensures GetsOn(j, c, OnWritable(c, RelaySpec.Wrote(|c.output.pending|)))
  {
    hide Hist, StatusOf, U.Valid, H.Grammar, A.Grammar, R.Grammar;
    AllHeard(c);
  }

  lemma RepliesLast(j: Job, c: Conn)
    requires GoodJob(j) && Honest(j, c) && Willing(j, c, Writable(RelaySpec.Wrote(|c.output.pending|)))
    ensures GetsOn(j, c, OnWritable(c, RelaySpec.Wrote(|c.output.pending|)))
  {
    hide Inv, Stage, Trusts, GoodJob, GetsOn, OnWritable;
    WritableState(c);
    if c.current == Some(HelloWrite) { RepliesHello(j, c); }
    else if c.current == Some(AuthWrite) { RepliesAuth(j, c); }
    else { RepliesRequest(j, c); }
  }

  /** The connect that was waited for succeeded. */
  lemma SettledUp(j: Job, c: Conn, w: World)
    requires GoodJob(j) && Honest(j, c) && Willing(j, c, OriginWritable(0, w))
    ensures GetsOn(j, c, OnOriginWritable(c, 0, w))
  {
    hide Hist, StatusOf, U.Valid, H.Grammar, A.Grammar, R.Grammar, Hopeful, MarshallReply;
    OriginState(c);
    MarshalsShort(c.(reply := ReplyFor(0), originInterest := NOOP, origin := Up), w);
  }

  /** It failed, so its address is not one that accepts and another is still to be dialled. */
  lemma StillHopeful(j: Job, c: Conn, error: nat, w: World)
    requires GoodJob(j) && Honest(j, c) && Willing(j, c, OriginWritable(error, w)) && error != 0
    ensures Fine(c) && InConnecting(c) && c.answer == [] && c.current == Some(Connecting) && c.dnsError == 0 && c.dnsResult.Some?
    ensures ByName(c) && c.dnsNext != [] && CanReach(j.up, c.dnsNext) && |w.attempts| >= |c.dnsNext|
    ensures Accepted(j.up, c.dnsNext, w.attempts) && forall a :: a in w.attempts ==> AttemptOk(a)
  {
    hide Hist, StatusOf, U.Valid, H.Grammar, A.Grammar, R.Grammar, Accepted, Streams;
    OriginState(c);
    OriginFine(c, Failing(c, error));
  }

  lemma SettledDown(j: Job, c: Conn, error: nat, w: World)
    requires GoodJob(j) && Honest(j, c) && Willing(j, c, OriginWritable(error, w)) && error != 0
    ensures GetsOn(j, c, OnOriginWritable(c, error, w))
  {
    hide Hist, StatusOf, U.Valid, H.Grammar, A.Grammar, R.Grammar, DialNext, MarshallReply, Accepted;
    StillHopeful(j, c, error, w);
    var c1 := c.(reply := ReplyFor(error), origin := NoOrigin, originInterest := NOOP, lastError := error, waited := true);
    DialsInOrder(c1, EHOSTUNREACH, w.attempts);
    DialsLeave(c1, EHOSTUNREACH, w.attempts);
    DialReaches(j.up, c1, EHOSTUNREACH, w.attempts);
    var (c2, status) := DialNext(c1, EHOSTUNREACH, w.attempts);
    if status == 0 { MarshalsShort(c2.(reply := R.SUCCEEDED), w); }
  }

  lemma NamesStored(j: Job, c: Conn)
    requires GoodJob(j) && Honest(j, c) && Willing(j, c, WorkerStores(0, Some(j.names), true))
    ensures GetsOn(j, c, Step(c, WorkerStores(0, Some(j.names), true)))
  {
    hide Hist, StatusOf, H.Grammar, A.Grammar, R.Grammar;
    OriginState(c);
  }

  lemma NamesFound(j: Job, c: Conn, w: World)
    requires GoodJob(j) && Honest(j, c) && Willing(j, c, BlockDone(w))
    ensures GetsOn(j, c, Step(c, BlockDone(w)))
  {
    hide Hist, StatusOf, U.Valid, H.Grammar, A.Grammar, R.Grammar, ConnectToOrigin, MarshallReply;
    OriginState(c);
    var c1 := c.(dns := Answered);
    ConnectReaches(j, c1, w);
    var (d, status) := ConnectToOrigin(c1, w);
    if status == 0 { MarshalsShort(d.(reply := R.SUCCEEDED), w); }
  }

  lemma WillingStep(j: Job, c: Conn, e: Event)
    requires GoodJob(j) && Honest(j, c) && Willing(j, c, e)
    ensures Honest(j, Step(c, e)) && 0 <= Left(j, Step(c, e)) < Left(j, c)
  {
    StepInv(c, e);
    hide Inv, Stage, Left, GoodJob, Trusts, Step;
    StepGetsOn(j, c, e);
  }

  lemma StepGetsOn(j: Job, c: Conn, e: Event)
    requires GoodJob(j) && Honest(j, c) && Willing(j, c, e)
    ensures GetsOn(j, c, Step(c, e))
  {
    hide Honest, GoodJob, GetsOn, GoodWorld, OnReadable, OnWritable, OnOriginWritable, OnBlockDone;
    match e {
      case Readable(r, w) => Hears(j, c, r.got, w);
      case Writable(r) => if r.n < |c.output.pending| { RepliesPart(j, c, r.n); } else { RepliesLast(j, c); }
      case OriginWritable(error, w) => if error == 0 { SettledUp(j, c, w); } else { SettledDown(j, c, error, w); }
      case WorkerStores(_, _, _) => NamesStored(j, c);
      case BlockDone(w) => NamesFound(j, c, w);
    }
  }

  lemma Hears(j: Job, c: Conn, got: bytes, w: World)
    requires GoodJob(j) && Honest(j, c) && Willing(j, c, Readable(RelaySpec.Data(got), w))
    ensures GetsOn(j, c, OnReadable(c, RelaySpec.Data(got), w))
  {
    hide Honest, GoodJob, GetsOn, OnReadable;
    ReadsNext(j, c);
    if c.current == Some(AuthRead) {
      HearsAuth(j, c, got, w);
    } else if c.current == Some(RequestRead) {
      HearsRequest(j, c, got, w);
    } else {
      HearsHello(j, c, got, w);
    }
  }

  lemma ReadsNext(j: Job, c: Conn)
    requires Honest(j, c) && !c.relaying && c.client.read
    ensures c.current.None? || c.current.value.HelloRead? || c.current.value.AuthRead? || c.current.value.RequestRead?
  {
    hide Inv, Stage, Trusts;
    ReadableState(c);
  }

  // Something can always happen, until the relay begins.

  /** A world in which everything works, for a client with `n` addresses left. */
  function Kind(j: Job, n: nat): World {
    World(j.users, 0, seq(n + 1, _ => Now(true)), None)
  }

  lemma KindIsGood(j: Job, c: Conn)
    requires GoodJob(j)
    ensures GoodWorld(j, c, Kind(j, |c.dnsNext|))
  {
    hide R.Grammar, H.Grammar, A.Grammar, StatusOf, U.Valid;
  }

  lemma SomethingHappens(j: Job, c: Conn) returns (e: Event)
    requires GoodJob(j) && Honest(j, c) && !c.relaying
    ensures Willing(j, c, e)
  {
    hide Hist, Consume, StatusOf, U.Valid, H.Grammar, A.Grammar, R.Grammar, GoodWorld, Kind;
    NotEmpty(j);
    KindIsGood(j, c);
    var w := Kind(j, |c.dnsNext|);
    WorldIsOk(j, c, w);
    match if c.current.Some? then c.current.value else HelloRead {
      case HelloRead => e := NextByte(j, c, w);
      case AuthRead => e := NextByte(j, c, w);
      case RequestRead => e := NextByte(j, c, w);
      case Connecting =>
        e := if c.dns.Asked? then WorkerStores(0, Some(j.names), true)
             else if c.dns.Stored? then BlockDone(w) else OriginWritable(0, w);
        if c.dns.Asked? { AsksNames(j, c); }
      case _ => e := Writable(RelaySpec.Wrote(|c.output.pending|));
    }
  }

  lemma WorldIsOk(j: Job, c: Conn, w: World)
    requires GoodWorld(j, c, w)
    ensures WorldOk(c, w)
  {
  }

  lemma AsksNames(j: Job, c: Conn)
    requires GoodJob(j) && Honest(j, c) && !c.relaying && c.dns.Asked?
    ensures j.names != []
  {
    hide Hist, Consume, StatusOf, U.Valid, H.Grammar, A.Grammar, R.Grammar;
    NotEmpty(j);
    OriginState(c);
  }

  lemma NextByte(j: Job, c: Conn, w: World) returns (e: Event)
    requires Honest(j, c) && !c.relaying && c.client.read && c.taken < Current(j, c) && GoodWorld(j, c, w)
    ensures Willing(j, c, e)
  {
    hide Hist, Live, StatusOf, WorldOk, Accepted;
    var t, m := c.taken, Current(j, c);
    e := Readable(RelaySpec.Data([m[|t|]]), w);
    assert t + [m[|t|]] == m[..|t| + 1];
  }

  lemma StartHonest(j: Job, c: Conn)
    requires GoodJob(j) && Starts(c)
    ensures Honest(j, c) && Left(j, c) == |j.hello| + |j.auth| + |j.request| + |j.names| + 28
  {
    StartInv(c);
    NotEmpty(j);
  }

  lemma {:induction false} WillingRunEnds(j: Job, c: Conn, es: seq<Event>)
    requires GoodJob(j) && Honest(j, c) && 0 <= Left(j, c) && WillingRun(j, c, es)
    ensures Run(c, es) && Honest(j, After(c, es)) && |es| + Left(j, After(c, es)) <= Left(j, c) && 0 <= Left(j, After(c, es))
    decreases |es|
  {
    hide Honest, GoodJob, Left, Step, Legal;
    if es != [] {
      WillingStep(j, c, es[0]);
      WillingRunEnds(j, Step(c, es[0]), es[1..]);
    }
  }

  lemma Heard3(j: Job, c: Conn)
    requires Honest(j, c) && c.relaying
    ensures c.open && c.heard == Messages(j)
  {
    hide Inv, StatusOf;
  }

  /**
   * A client that offers username and password, gives credentials of the table
   * and asks for a destination that can be reached, at an address that accepts
   * or by a name with such an address among those found, is relayed for: every
   * run of events that get on is a run of the proxy, is no longer than so many
   * bytes and addresses, and can go on unless the connection relays, which it
   * does having heard exactly the client's three messages.
   */
  lemma HonestClientIsRelayed(j: Job, c: Conn, es: seq<Event>)
    requires GoodJob(j) && Starts(c) && WillingRun(j, c, es)
    ensures Run(c, es) && |es| <= |j.hello| + |j.auth| + |j.request| + |j.names| + 28
    ensures var d := After(c, es);
            d.open && if d.relaying then d.heard == Messages(j) else exists e :: Willing(j, d, e)
  {
    hide Honest, Left, Willing, GoodJob, Starts, Run;
    StartHonest(j, c);
    WillingRunEnds(j, c, es);
    var d := After(c, es);
    HonestOpen(j, d);
    if d.relaying { Heard3(j, d); } else { var e := SomethingHappens(j, d); }
  }

  lemma HonestOpen(j: Job, c: Conn)
    requires Honest(j, c)
    ensures c.open
  {
  }

  /** Any such run can be carried on until the connection relays. */
  lemma {:induction false} Completes(j: Job, c: Conn) returns (es: seq<Event>)
    requires GoodJob(j) && Honest(j, c) && 0 <= Left(j, c)
    ensures WillingRun(j, c, es) && Run(c, es) && After(c, es).relaying
    decreases Left(j, c)
  {
    hide Honest, GoodJob, Left, Step, Legal;
    if c.relaying {
      es := [];
    } else {
      var e := SomethingHappens(j, c);
      WillingStep(j, c, e);
      var rest := Completes(j, Step(c, e));
      es := [e] + rest;
      assert es[1..] == rest;
    }
  }
}
