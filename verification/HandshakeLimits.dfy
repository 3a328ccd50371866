/**
 * Three things a reader might expect of the handshake and does not get: exactly
 * when, and a run that gets there.
 */
module HandshakeLimits {
  import opened Bytes
  import opened Pipes
  import opened Chunks
  import RelaySpec
  import H = Hello
  import A = Auth
  import R = Request
  import U = UserTable
  import opened HandshakeSpec
  import opened HandshakeRuns
  import opened HandshakeTheorems
  import opened HandshakeHonest

  // Runs.

  lemma {:induction false} RunThen(c: Conn, es: seq<Event>, e: Event)
    requires Run(c, es) && Legal(After(c, es), e)
    ensures Run(c, es + [e]) && After(c, es + [e]) == Step(After(c, es), e)
    decreases |es|
  {
    hide Legal, Step;
    if es == [] {
      assert es + [e] == [e] && [e][1..] == [];
    } else {
      RunThen(Step(c, es[0]), es[1..], e);
      assert (es + [e])[1..] == es[1..] + [e];
    }
  }

  /** The request has not been read yet. */
  predicate Early(c: Conn) {
    !c.relaying && c.dns.NotAsked? && (c.current.Some? ==> !c.current.value.Connecting? && !c.current.value.RequestWrite?)
  }

  /** Reading the first two messages does not touch name resolution. */
  lemma ReadKeepsDns(c: Conn, w: World)
    requires c.current == Some(HelloRead) || c.current == Some(AuthRead)
    requires |w.attempts| >= |c.dnsNext| && |w.attempts| >= 1
    ensures var (d, s) := Dispatch(c, w);
            d.dns == c.dns && d.relaying == c.relaying && d.current == Some(s) && !s.Connecting? && !s.RequestWrite?
  {
    hide HelloReady, AuthReady, Jump;
    HelloKeepsDns(c);
    AuthKeepsDns(c, w);
    JumpKeepsDns(HelloReady(c).0, HelloReady(c).1);
    JumpKeepsDns(AuthReady(c, w).0, AuthReady(c, w).1);
  }

  lemma HelloKeepsDns(c: Conn)
    ensures var (d, s) := HelloReady(c); d.dns == c.dns && d.relaying == c.relaying && !s.Connecting? && !s.RequestWrite?
  {
    hide Consume;
  }

  lemma AuthKeepsDns(c: Conn, w: World)
    ensures var (d, s) := AuthReady(c, w); d.dns == c.dns && d.relaying == c.relaying && !s.Connecting? && !s.RequestWrite?
  {
    hide Consume, U.Lookup, CStr;
  }

  lemma JumpKeepsDns(c: Conn, s: State)
    ensures Jump(c, s).dns == c.dns && Jump(c, s).relaying == c.relaying && Jump(c, s).current == Some(s)
  {
  }

  lemma ReadableKeepsDns(c: Conn, r: RelaySpec.ReadResult, w: World)
    requires Inv(c) && Legal(c, Readable(r, w)) && c.current != Some(RequestRead)
    ensures var d := OnReadable(c, r, w); d.dns == c.dns && !d.relaying && (c.dns.NotAsked? ==> Early(d))
  {
    hide Hist, Live, Dispatch, WorldOk;
    ReadableState(c);
    if r.Data? {
      var c0 := First(c.(input := c.input.Put(r.got), received := c.received + r.got));
      WorldIs(c, w);
      ReadKeepsDns(c0, w);
    }
  }

  lemma WorldIs(c: Conn, w: World)
    requires WorldOk(c, w)
    ensures |w.attempts| >= |c.dnsNext| && |w.attempts| >= 1 && forall a :: a in w.attempts ==> AttemptOk(a)
  {
  }

  /** The name has been asked for. */
  predicate Asks(c: Conn) {
    !c.relaying && c.dns.Asked?
  }

  lemma AsksFor(j: Job, c: Conn, got: bytes, w: World)
    requires GoodJob(j) && AsksByName(j) && Honest(j, c) && Early(c) && Willing(j, c, Readable(RelaySpec.Data(got), w))
    requires c.current == Some(RequestRead)
    ensures var d := OnReadable(c, RelaySpec.Data(got), w); Early(d) || Asks(d)
  {
    hide Hist, H.Grammar, A.Grammar, R.Grammar, Consume, R.Feed, StatusOf, U.Valid, WholeRequest, MarshallReply, Accepted, OnReadable,
         ConnectToOrigin, Jump, Apply, Asks, Early;
    ReadState(c, c);
    var i :| R.Initial(i) && c.request == Consume(R.Feed, R.IsDone, i, c.taken).0;
    RequestPiece(i, c.request, c.taken, got, j.request);
    PieceRead(c, got, w);
    var q := Consume(R.Feed, R.IsDone, c.request, got).0;
    PieceReady(c, got, w, q);
    if q.state.Done? {
      EarlyIs(c);
      StartsAsking(Heard(Piece(c, got, q)), w);
    } else {
      StillReading(Piece(c, got, q));
      StaysEarly(c, got, q);
    }
  }

  lemma EarlyIs(c: Conn)
    requires Inv(c) && c.open && !c.relaying && c.current == Some(RequestRead)
    ensures c.dns.NotAsked? && c.dnsError == 0 && c.dnsResult.None? && !c.aborted
  {
    hide Hist, Consume, StatusOf;
  }

  lemma StaysEarly(c: Conn, got: bytes, q: R.Parser)
    requires Early(c) && c.current == Some(RequestRead)
    ensures Early(Piece(c, got, q).(client := READ))
  {
  }

  /** A name that is not known yet is looked up. */
  lemma StartsAsking(c: Conn, w: World)
    requires ByName(c) && c.dns.NotAsked? && c.dnsError == 0 && c.dnsResult.None? && w.dnsStart == 0 && !c.relaying && !c.aborted
    requires |w.attempts| >= |c.dnsNext| && |w.attempts| >= 1
    ensures var (d, s) := ConnectToOrigin(c, w);
            && s == EINPROGRESS && !Jump(d, Connecting).aborted && Asks(Apply(Jump(d, Connecting), Connecting))
  {
  }

  lemma FirstHandlers(c: Conn)
    requires c.current == Some(HelloWrite) || c.current == Some(AuthWrite)
    ensures var (d, s) := HandlerWrite(c);
            d.dns == c.dns && d.relaying == c.relaying && d.current == Some(s) && !s.Connecting? && !s.RequestWrite?
  {
    hide Jump;
    forall s { JumpKeepsDns(c, s); }
  }

  /** Answering the first two messages does not touch name resolution. */
  lemma FirstWrites(c: Conn, r: RelaySpec.WriteResult)
    requires c.current == Some(HelloWrite) || c.current == Some(AuthWrite)
    requires !c.relaying && RelaySpec.WriteFits(r, c.output)
    ensures var d := OnWritable(c, r);
            d.dns == c.dns && !d.relaying && d.current.Some? && !d.current.value.Connecting? && !d.current.value.RequestWrite?
  {
    hide HandlerWrite;
    if r.Wrote? && r.n == |c.output.pending| {
      FirstHandlers(c.(output := c.output.Take(r.n), sent := c.sent + c.output.pending[..r.n]));
    }
  }

  lemma JumpsPlainly(c: Conn, s: State)
    requires s.Done? || s.Relay?
    ensures Jump(c, s) == c.(current := Some(s))
  {
  }

  lemma LastHandler(c: Conn)
    requires c.current == Some(RequestWrite)
    ensures var d := HandlerWrite(c).0;
            && d.current.Some? && (d.current.value.RequestWrite? || d.current.value.Relay? || d.current.value.Done?)
            && d.origin == c.origin && d.dns == c.dns && d.dnsResult == c.dnsResult && d.dnsError == c.dnsError
  {
    hide LogEntry, Jump, RelaySpec.Start;
    JumpsPlainly(c, Done);
    JumpsPlainly(StartRelay(c.(logged := c.logged + [LogEntry(c)])), Relay);
  }

  lemma ApplyKeepsDns(c: Conn, s: State)
    ensures Apply(c, s).dns == c.dns && Apply(c, s).current == c.current
  {
  }

  /** Nor does answering the request. */
  lemma LastWrites(c: Conn, r: RelaySpec.WriteResult)
    requires c.current == Some(RequestWrite) && RelaySpec.WriteFits(r, c.output)
    ensures var d := OnWritable(c, r); d.dns == c.dns && d.current.Some? && !d.current.value.Connecting?
  {
    hide HandlerWrite, Apply;
    if r.Wrote? && r.n == |c.output.pending| {
      var c1 := c.(output := c.output.Take(r.n), sent := c.sent + c.output.pending[..r.n]);
      LastHandler(c1);
      ApplyKeepsDns(HandlerWrite(c1).0, HandlerWrite(c1).1);
    }
  }

  lemma EarlyWrites(c: Conn, r: RelaySpec.WriteResult)
    requires Inv(c) && Early(c) && Legal(c, Writable(r))
    ensures Early(OnWritable(c, r))
  {
    hide Inv, OnWritable;
    WritableState(c);
    FirstWrites(c, r);
  }

  lemma EarlyStep(j: Job, c: Conn, e: Event)
    requires GoodJob(j) && AsksByName(j) && Honest(j, c) && Early(c) && Willing(j, c, e)
    ensures Early(Step(c, e)) || Asks(Step(c, e))
  {
    WillingStep(j, c, e);
    HonestInv(j, c);
    hide Inv, Honest, GoodJob, Early, AsksByName, OnReadable, OnWritable, OnOriginWritable, OnBlockDone, Left;
    match e {
      case Readable(r, w) =>
        if c.current == Some(RequestRead) { AsksFor(j, c, r.got, w); } else { ReadableKeepsDns(c, r, w); }
      case Writable(r) => EarlyWrites(c, r);
      case _ => EarlyIsQuiet(j, c);
    }
  }

  lemma HonestInv(j: Job, c: Conn)
    requires Honest(j, c)
    ensures Inv(c)
  {
  }

  lemma EarlyIsQuiet(j: Job, c: Conn)
    requires Honest(j, c) && Early(c)
    ensures !c.origin.Pending? && c.dns.NotAsked?
  {
    hide Hist, Stage, Consume, StatusOf, Methods;
  }

  /** A client that asks by name gets its name asked for. */
  lemma {:induction false} GetsToAsking(j: Job, c: Conn) returns (es: seq<Event>)
    requires GoodJob(j) && AsksByName(j) && Honest(j, c) && 0 <= Left(j, c) && (Early(c) || Asks(c))
    ensures Run(c, es) && Honest(j, After(c, es)) && Asks(After(c, es))
    decreases Left(j, c)
  {
    hide Honest, GoodJob, AsksByName, Left, Step, Legal;
    if Asks(c) {
      es := [];
    } else {
      var e := SomethingHappens(j, c);
      WillingStep(j, c, e);
      EarlyStep(j, c, e);
      var rest := GetsToAsking(j, Step(c, e));
      es := [e] + rest;
      assert es[1..] == rest;
    }
  }

  // A notification that cannot be queued.

  /** The names have been stored, and nobody was told. */
  predicate Stuck(c: Conn) {
    c.open && !c.relaying && c.current == Some(Connecting) && c.dns.Answered? && c.origin.NoOrigin?
  }

  function NoUsers(): U.Slots {
    [None, None, None, None, None, None, None, None, None, None]
  }

  function AnyWorld(n: nat): World {
    World(NoUsers(), 0, seq(n + 1, _ => Now(true)), None)
  }

  lemma AnyWorldIsOk(c: Conn)
    ensures WorldOk(c, AnyWorld(|c.dnsNext|))
  {
  }

  lemma SomeEvent(d: Conn)
    requires Inv(d) && d.open && !d.relaying && !Stuck(d)
    ensures exists e :: Legal(d, e)
  {
    hide Hist, Consume, StatusOf, Methods, WorldOk, AnyWorld;
    AnyWorldIsOk(d);
    var w := AnyWorld(|d.dnsNext|);
    if d.client.read {
      assert Legal(d, Readable(RelaySpec.Eof, w));
    } else if d.client.write {
      assert Legal(d, Writable(RelaySpec.WriteAgain));
    } else if d.dns.Asked? {
      assert Legal(d, WorkerStores(1, None, true));
    } else if d.dns.Stored? {
      assert Legal(d, BlockDone(w));
    } else {
      assert Legal(d, OriginWritable(0, w));
    }
  }

  lemma NoEvent(d: Conn)
    requires Inv(d) && Stuck(d)
    ensures forall e :: !Legal(d, e)
  {
    hide Hist, Consume, StatusOf, Methods, WorldOk;
  }

  /** An open connection that has not reached its relay can go on unless its names were stored and nobody was told. */
  lemma StuckExactly(c: Conn, es: seq<Event>)
    requires Starts(c) && Run(c, es) && After(c, es).open && !After(c, es).relaying
    ensures Stuck(After(c, es)) <==> forall e :: !Legal(After(c, es), e)
  {
    Reached(c, es);
    hide Inv, Legal;
    if Stuck(After(c, es)) { NoEvent(After(c, es)); } else { SomeEvent(After(c, es)); }
  }

  /** And the only way there is a worker's answer whose notification could not be queued. */
  lemma StuckOnlyByLoss(c: Conn, es: seq<Event>, e: Event)
    requires Starts(c) && Run(c, es) && Legal(After(c, es), e)
    ensures Stuck(Step(After(c, es), e)) <==> e.WorkerStores? && !e.queued
  {
    Reached(c, es);
    hide Inv, Legal, Step, Stuck;
    LossSticks(After(c, es), e);
  }

  lemma LossSticks(d: Conn, e: Event)
    requires Inv(d) && Legal(d, e)
    ensures Stuck(Step(d, e)) <==> e.WorkerStores? && !e.queued
  {
    hide Hist, OnReadable, OnWritable, OnOriginWritable, OnBlockDone, StatusOf, Methods, Consume;
    if e.WorkerStores? {
      OriginState(d);
    } else {
      NeverSilent(d, e);
    }
  }

  lemma NeverSilent(d: Conn, e: Event)
    requires Inv(d) && Legal(d, e) && !e.WorkerStores?
    ensures !Stuck(Step(d, e))
  {
    hide Inv, OnReadable, OnWritable, OnOriginWritable, OnBlockDone;
    match e {
      case Readable(r, w) => ReadAsks(d, r, w);
      case Writable(r) => WriteNotSilent(d, r);
      case OriginWritable(error, w) => OriginNotSilent(d, error, w);
      case BlockDone(w) => BlockNotSilent(d, w);
    }
  }

  lemma ConnectAsks(c: Conn, w: World)
    requires |w.attempts| >= |c.dnsNext| && |w.attempts| >= 1 && Quiet(c)
    ensures var d := ConnectToOrigin(c, w).0; d.dns.NotAsked? || d.dns.Asked?
  {
  }

  lemma MarshallKeepsDns(c: Conn, w: World)
    ensures MarshallReply(c, w).0.dns == c.dns
  {
  }

  lemma RequestAsks(c: Conn, w: World)
    requires |w.attempts| >= |c.dnsNext| && |w.attempts| >= 1 && Quiet(c)
    ensures var d := RequestReady(c, w).0; d.dns.NotAsked? || d.dns.Asked?
  {
    hide Consume, ConnectToOrigin, MarshallReply;
    var (q, n) := Consume(R.Feed, R.IsDone, c.request, c.input.pending);
    var c1 := c.(request := q, taken := c.taken + c.input.pending[..n], input := c.input.Take(n));
    MarshallKeepsDns(c1.(reply := R.ADDRESS_TYPE_NOT_SUPPORTED), w);
    MarshallKeepsDns(c1.(reply := R.GENERAL_FAILURE), w);
    MarshallKeepsDns(Heard(c1).(reply := R.COMMAND_NOT_SUPPORTED), w);
    ConnectAsks(Heard(c1), w);
    var (c2, status) := ConnectToOrigin(Heard(c1), w);
    MarshallKeepsDns(c2.(reply := ReplyFor(status)), w);
  }

  /** Reading finds no name asked for, and asks for one at most. */
  lemma ReadAsks(d: Conn, r: RelaySpec.ReadResult, w: World)
    requires Inv(d) && Legal(d, Readable(r, w))
    ensures d.dns.NotAsked? && var d' := OnReadable(d, r, w); d'.dns.NotAsked? || d'.dns.Asked?
  {
    hide Hist, Consume, StatusOf, Methods, WorldOk, RequestReady, Jump, HandlerRead;
    ReadableState(d);
    if d.current != Some(RequestRead) {
      ReadableKeepsDns(d, r, w);
    } else if r.Data? {
      WorldIs(d, w);
      RequestReadAsks(d, r.got, w);
    }
  }

  lemma RequestReadAsks(d: Conn, got: bytes, w: World)
    requires Quiet(d) && d.current == Some(RequestRead) && |got| <= d.input.room && WorldOk(d, w)
    requires |w.attempts| >= |d.dnsNext| && |w.attempts| >= 1
    ensures var d' := OnReadable(d, RelaySpec.Data(got), w); d'.dns.NotAsked? || d'.dns.Asked?
  {
    hide WorldOk, RequestReady, Jump;
    var c0 := d.(input := d.input.Put(got), received := d.received + got);
    RequestAsks(c0, w);
    var (c1, s) := RequestReady(c0, w);
    JumpKeepsDns(c1, s);
  }

  lemma WriteNotSilent(d: Conn, r: RelaySpec.WriteResult)
    requires Inv(d) && Legal(d, Writable(r))
    ensures !Stuck(OnWritable(d, r))
  {
    hide Inv, OnWritable;
    WritableState(d);
    if d.current == Some(RequestWrite) { LastWrites(d, r); } else { FirstWrites(d, r); }
  }

  lemma OriginNotSilent(d: Conn, error: nat, w: World)
    requires Inv(d) && Legal(d, OriginWritable(error, w))
    ensures !Stuck(OnOriginWritable(d, error, w))
  {
    hide Hist, DialNext, MarshallReply, WorldOk;
    WorldIs(d, w);
    var c1 := d.(reply := ReplyFor(error), origin := NoOrigin, originInterest := NOOP, lastError := error, waited := true);
    DialsInOrder(c1, EHOSTUNREACH, w.attempts);
  }

  lemma BlockNotSilent(d: Conn, w: World)
    requires Inv(d) && Legal(d, BlockDone(w))
    ensures !Stuck(OnBlockDone(d, w))
  {
    hide Hist, DialNext, MarshallReply, WorldOk;
    OriginState(d);
    WorldIs(d, w);
    DialsInOrder(d.(dns := Answered), EHOSTUNREACH, w.attempts);
  }

  lemma StuckIsReached(j: Job, c: Conn) returns (es: seq<Event>)
    requires GoodJob(j) && AsksByName(j) && Starts(c)
    ensures Run(c, es) && Stuck(After(c, es))
  {
    hide Honest, GoodJob, AsksByName, Starts, Left;
    StartHonest(j, c);
    StartsEarly(c);
    es := GetsToAsking(j, c);
    var d := After(c, es);
    var e := WorkerStores(0, Some([Info(Resolved(1), true)]), false);
    AskingIsLegal(j, d, e);
    RunThen(c, es, e);
    StuckOnlyByLoss(c, es, e);
    es := es + [e];
  }

  lemma StartsEarly(c: Conn)
    requires Starts(c)
    ensures Early(c)
  {
  }

  lemma AskingIsLegal(j: Job, d: Conn, e: Event)
    requires Honest(j, d) && Asks(d) && e.WorkerStores? && e.failure == 0 && e.found.Some? && e.found.value != []
    ensures Legal(d, e)
  {
    hide Hist;
  }

  // A read with no room.

  /**
   * A read is offered no room only when the client has sent more than has been
   * asked of it: bytes have been received that no parser has taken.  Such a
   * read gives nothing, which is taken for an end of stream.
   */
  lemma NoRoomOnlyAhead(c: Conn, es: seq<Event>)
    requires Starts(c) && Run(c, es)
    requires var d := After(c, es); d.open && !d.relaying && d.input.room == 0
    ensures var d := After(c, es);
            && d.input.pending != [] && |Flatten(d.heard)| + |d.taken| < |d.received|
            && forall r, w :: Legal(d, Readable(r, w)) ==> !Step(d, Readable(r, w)).open
  {
    Reached(c, es);
    hide HeardOk, Said, FallbackOk, Live, HandlerRead;
  }

  lemma StillHandshake(d: Conn, d': Conn)
    requires Inv(d) && Inv(d') && !d'.relaying
    ensures |d'.received| == |Flatten(d'.heard)| + |d'.taken| + |d'.input.pending|
    ensures d'.input.Valid() && d.input.Valid() && d'.input.capacity == CAPACITY
  {
    hide HeardOk, Said, FallbackOk, Live;
  }

  /** How many of the bytes there are the current parser takes. */
  function Takes(c: Conn): (n: nat)
    ensures n <= |c.input.pending|
  {
    if c.current == Some(AuthRead) then Consume(A.Feed, A.IsDone, c.auth, c.input.pending).1
    else if c.current == Some(RequestRead) then Consume(R.Feed, R.IsDone, c.request, c.input.pending).1
    else Consume(H.Feed, H.IsDone, c.hello, c.input.pending).1
  }

  /** Bytes have arrived, and the first state has been entered if it had not been. */
  function Arrived(d: Conn, got: bytes): Conn
    requires |got| <= d.input.room
  {
    First(d.(input := d.input.Put(got), received := d.received + got))
  }

  /** What a read leaves is what there was and what arrived, less what the parser took from the front; it writes nothing. */
  lemma ReadsInto(d: Conn, got: bytes, w: World)
    requires Inv(d) && Legal(d, Readable(RelaySpec.Data(got), w))
    ensures Takes(Arrived(d, got)) <= |d.input.pending| + |got|
    ensures var d' := OnReadable(d, RelaySpec.Data(got), w);
            && !d'.relaying && d'.sent == d.sent && d'.received == d.received + got
            && d'.input == d.input.Put(got).Take(Takes(Arrived(d, got)))
  {
    hide Hist, Live, WorldOk, Dispatch, Takes;
    ReadableState(d);
    WorldIs(d, w);
    assert Takes(Arrived(d, got)) <= |Arrived(d, got).input.pending|;
    TakesSome(Arrived(d, got), w);
  }

  /**
   * A read leaves no room exactly when it fills what there was and the current
   * parser needs fewer bytes than there then are, which is exactly when bytes
   * have been received that no parser has taken.
   */
  lemma RoomExactly(c: Conn, es: seq<Event>, got: bytes, w: World)
    requires Starts(c) && Run(c, es) && Legal(After(c, es), Readable(RelaySpec.Data(got), w))
    requires Step(After(c, es), Readable(RelaySpec.Data(got), w)).open
    ensures var d := After(c, es);
            var d' := Step(d, Readable(RelaySpec.Data(got), w));
            && (d'.input.room == 0 <==> |got| == d.input.room && Takes(Arrived(d, got)) < |d.input.pending| + |got|)
            && (d'.input.room == 0 <==> |got| == d.input.room && |Flatten(d'.heard)| + |d'.taken| < |d'.received|)
  {
    Reached(c, es);
    hide Inv, OnReadable, Takes, Arrived;
    var d := After(c, es);
    StepInv(d, Readable(RelaySpec.Data(got), w));
    ReadsInto(d, got, w);
    StillHandshake(d, OnReadable(d, RelaySpec.Data(got), w));
  }

  lemma DialKeepsInput(c: Conn, addr: Addr, a: Attempt)
    ensures var d := Dial(c, addr, a).0;
            d.input == c.input && d.sent == c.sent && d.received == c.received && d.relaying == c.relaying && d.dnsNext == c.dnsNext
  {
  }

  lemma {:induction false} DialsKeepInput(c: Conn, last: nat, attempts: seq<Attempt>)
    requires |attempts| >= |c.dnsNext|
    ensures var d := DialNext(c, last, attempts).0;
            d.input == c.input && d.sent == c.sent && d.received == c.received && d.relaying == c.relaying
    decreases |c.dnsNext|
  {
    if c.dnsNext != [] {
      hide Dial;
      var c1 := c.(dnsNext := c.dnsNext[1..]);
      DialsKeepInput(c1, last, attempts[1..]);
      DialKeepsInput(c1, c.dnsNext[0].addr, attempts[0]);
      var (c2, status) := Dial(c1, c.dnsNext[0].addr, attempts[0]);
      DialsKeepInput(c2, status, attempts[1..]);
    }
  }

  lemma ConnectKeepsInput(c: Conn, w: World)
    requires |w.attempts| >= |c.dnsNext| && |w.attempts| >= 1
    ensures var d := ConnectToOrigin(c, w).0; d.input == c.input && d.sent == c.sent && d.received == c.received && d.relaying == c.relaying
  {
    hide DialNext;
    DialsKeepInput(c, EHOSTUNREACH, w.attempts);
  }

  lemma MarshallKeepsInput(c: Conn, w: World)
    ensures var d := MarshallReply(c, w).0; d.input == c.input && d.sent == c.sent && d.received == c.received && d.relaying == c.relaying
  {
  }

  lemma RequestTakes(c: Conn, w: World)
    requires c.current == Some(RequestRead) && |w.attempts| >= |c.dnsNext| && |w.attempts| >= 1
    ensures var d := RequestReady(c, w).0;
            d.relaying == c.relaying && d.sent == c.sent && d.received == c.received && d.input == c.input.Take(Takes(c))
  {
    hide Consume, ConnectToOrigin, MarshallReply;
    var (q, n) := Consume(R.Feed, R.IsDone, c.request, c.input.pending);
    var c1 := c.(request := q, taken := c.taken + c.input.pending[..n], input := c.input.Take(n));
    MarshallKeepsInput(c1.(reply := R.ADDRESS_TYPE_NOT_SUPPORTED), w);
    MarshallKeepsInput(c1.(reply := R.GENERAL_FAILURE), w);
    MarshallKeepsInput(Heard(c1).(reply := R.COMMAND_NOT_SUPPORTED), w);
    ConnectKeepsInput(Heard(c1), w);
    var (c2, status) := ConnectToOrigin(Heard(c1), w);
    MarshallKeepsInput(c2.(reply := ReplyFor(status)), w);
  }

  lemma JumpKeepsInput(c: Conn, s: State)
    ensures var d := Jump(c, s); d.input == c.input && d.sent == c.sent && d.received == c.received && d.relaying == c.relaying
  {
  }

  lemma HelloTakes(c: Conn)
    requires c.current == Some(HelloRead)
    ensures var d := HelloReady(c).0;
            d.relaying == c.relaying && d.sent == c.sent && d.received == c.received && d.input == c.input.Take(Takes(c))
  {
    hide Consume;
  }

  lemma AuthTakes(c: Conn, w: World)
    requires c.current == Some(AuthRead)
    ensures var d := AuthReady(c, w).0;
            d.relaying == c.relaying && d.sent == c.sent && d.received == c.received && d.input == c.input.Take(Takes(c))
  {
    hide Consume, U.Lookup, CStr;
  }

  lemma TakesSome(c: Conn, w: World)
    requires c.current == Some(HelloRead) || c.current == Some(AuthRead) || c.current == Some(RequestRead)
    requires |w.attempts| >= |c.dnsNext| && |w.attempts| >= 1
    ensures var (d, s) := Dispatch(c, w);
            d.relaying == c.relaying && d.sent == c.sent && d.received == c.received && d.input == c.input.Take(Takes(c))
  {
    hide Takes, HelloReady, AuthReady, RequestReady, Jump;
    if c.current == Some(RequestRead) {
      RequestTakes(c, w);
      JumpKeepsInput(RequestReady(c, w).0, RequestReady(c, w).1);
    } else if c.current == Some(AuthRead) {
      AuthTakes(c, w);
      JumpKeepsInput(AuthReady(c, w).0, AuthReady(c, w).1);
    } else {
      HelloTakes(c);
      JumpKeepsInput(HelloReady(c).0, HelloReady(c).1);
    }
  }

  /** More than the first message: it is whole, and every byte of room is used. */
  function Eager(): bytes {
    [H.VERSION, 1, H.USERNAME_PASSWORD] + Zeros(CAPACITY - 3)
  }

  lemma EagerHello()
    ensures |Eager()| == CAPACITY
    ensures var (q, n) := Consume(H.Feed, H.IsDone, H.Init, Eager());
            q.state.Done? && n == 3 && q.selected == H.USERNAME_PASSWORD
  {
    hide Consume, H.Feed;
    H.MeetsGrammar(Eager());
    assert Eager()[2..3] == [H.USERNAME_PASSWORD];
  }

  /** The first message has been heard and answered, with the rest of what was sent still there. */
  lemma EagerHeard(c: Conn)
    requires Starts(c)
    ensures var e := Readable(RelaySpec.Data(Eager()), AnyWorld(0));
            && Legal(c, e)
            && var d := Step(c, e);
               && d.current == Some(HelloWrite) && d.open && !d.relaying && d.client == WRITE && d.input.room == 0
               && d.input.pending != [] && d.hello.selected == H.USERNAME_PASSWORD
               && |d.output.pending| == 2
  {
    EagerHello();
    hide Eager, Consume, H.Feed, WorldOk, AnyWorld;
    AnyWorldIsOk(c);
    assert [] + Eager() == Eager();
  }

  lemma EagerWaits(c: Conn)
    requires c.current == Some(HelloWrite) && c.open && !c.relaying && !c.aborted && c.client == WRITE && c.input.room == 0
    requires c.hello.selected == H.USERNAME_PASSWORD && |c.output.pending| == 2
    ensures var e := Writable(RelaySpec.Wrote(2));
            && Legal(c, e)
            && var d := Step(c, e); d.current == Some(AuthRead) && d.open && !d.relaying && d.client.read && d.input.room == 0
  {
  }

  /** A client that sends 4093 bytes ahead gets there. */
  lemma NoRoomIsReached(c: Conn) returns (es: seq<Event>)
    requires Starts(c)
    ensures Run(c, es)
    ensures var d := After(c, es); d.open && !d.relaying && d.client.read && d.input.room == 0
    ensures es != [] && es[0].Readable? && es[0].result.Data? && |es[0].result.got| == 4096
  {
    hide Starts, Legal, Step, Inv, Eager;
    EagerHello();
    EagerHeard(c);
    var e1, e2 := Readable(RelaySpec.Data(Eager()), AnyWorld(0)), Writable(RelaySpec.Wrote(2));
    RunThen(c, [], e1);
    es := [] + [e1];
    NeverAborts(c, es);
    EagerWaits(After(c, es));
    RunThen(c, es, e2);
    es := es + [e2];
  }

  // A failure that is not named.

  function SlowWorld(): World {
    World(NoUsers(), 0, [Later(true), Later(true)], None)
  }

  /** A name resolved to an entry that is a stream and one that is not is dialled once. */
  lemma DialsFirst(d: Conn)
    requires Inv(d) && d.open && !d.relaying && d.dns.Stored? && d.dnsError == 0
    requires d.dnsResult == Some([Info(Resolved(1), true), Info(Resolved(2), false)])
    ensures Legal(d, BlockDone(SlowWorld()))
    ensures var d' := Step(d, BlockDone(SlowWorld()));
            && d'.origin.Pending? && d'.originInterest == WRITE && d'.dnsNext == [Info(Resolved(2), false)] && ByName(d')
            && d'.open && !d'.relaying
  {
    hide Hist;
    OriginState(d);
  }

  lemma ThenRefuses(d: Conn)
    requires Inv(d) && d.open && !d.relaying && d.origin.Pending? && d.originInterest == WRITE
    requires ByName(d) && d.dnsNext == [Info(Resolved(2), false)]
    ensures var e := OriginWritable(ECONNREFUSED, SlowWorld());
            Legal(d, e) && Step(d, e).answer != [] && Step(d, e).reply == R.HOST_UNREACHABLE
  {
    hide Hist, MarshallReply;
    OriginState(d);
    var c1 := d.(reply := ReplyFor(ECONNREFUSED), origin := NoOrigin, originInterest := NOOP, lastError := ECONNREFUSED, waited := true);
    DialNone(c1, EHOSTUNREACH, SlowWorld().attempts);
    var (c2, status) := DialNext(c1, EHOSTUNREACH, SlowWorld().attempts);
    MarshalsShort(c2.(reply := ReplyFor(status)), SlowWorld());
  }

  lemma DialNone(c: Conn, last: nat, attempts: seq<Attempt>)
    requires c.dnsNext == [Info(Resolved(2), false)] && |attempts| >= 1
    ensures DialNext(c, last, attempts) == (c.(dnsNext := []), last)
  {
    assert c.dnsNext[1..] == [];
  }

  /** A refused connection is answered with host unreachable. */
  lemma MaskedIsReached(j: Job, c: Conn) returns (es: seq<Event>)
    requires GoodJob(j) && AsksByName(j) && Starts(c)
    ensures Run(c, es)
    ensures var d, e := After(c, es), OriginWritable(ECONNREFUSED, SlowWorld());
            Legal(d, e) && Step(d, e).answer != [] && Step(d, e).reply == R.HOST_UNREACHABLE
  {
    hide Honest, GoodJob, AsksByName, Starts, Left, Inv, Step, Legal;
    StartHonest(j, c);
    StartsEarly(c);
    es := GetsToAsking(j, c);
    var e1 := WorkerStores(0, Some([Info(Resolved(1), true), Info(Resolved(2), false)]), true);
    Reached(c, es);
    AskingIsLegal(j, After(c, es), e1);
    RunThen(c, es, e1);
    StoresBoth(After(c, es), e1);
    es := es + [e1];
    Reached(c, es);
    DialsFirst(After(c, es));
    RunThen(c, es, BlockDone(SlowWorld()));
    es := es + [BlockDone(SlowWorld())];
    Reached(c, es);
    ThenRefuses(After(c, es));
  }

  lemma StoresBoth(d: Conn, e: Event)
    requires Legal(d, e) && e == WorkerStores(0, Some([Info(Resolved(1), true), Info(Resolved(2), false)]), true)
    ensures var d' := Step(d, e);
            d'.dns.Stored? && d'.dnsError == 0 && d'.dnsResult == e.found && d'.open && !d'.relaying
  {
  }

  // And there is such a client.

  function Someone(): Job {
    Job([H.VERSION, 1, H.USERNAME_PASSWORD], [A.VERSION, 1, 97, 1, 98], [R.VERSION, R.CONNECT, 0, R.DOMAINNAME, 1, 120, 0, 80],
        NoUsers()[0 := Some(U.User([97], [98]))], [Info(Resolved(1), true)], {Resolved(1)})
  }

  lemma SomeoneSpeaks()
    ensures var j := Someone(); WholeHello(j.hello) && WholeRequest(j.request) && AsksByName(j)
    ensures A.Grammar(Someone().auth) == A.Credentials([97], [98], 5)
  {
    var j := Someone();
    assert j.hello[2..3] == [H.USERNAME_PASSWORD];
    assert j.auth[2..3] == [97] && j.auth[4..5] == [98];
  }

  lemma SomeoneIsKnown()
    ensures U.Valid(Someone().users) && U.Lookup(Someone().users, CStr([97]), CStr([98]))
  {
    assert IsCString([97]) && IsCString([98]);
    var t := Someone().users;
    assert t[0] == Some(U.User([97], [98])) && forall k :: 0 < k < |t| ==> t[k] == None;
    assert U.Find(t, [97]) == 0;
  }

  lemma SomeoneAsksByName()
    ensures GoodJob(Someone()) && AsksByName(Someone())
  {
    hide H.Grammar, R.Grammar, A.Grammar, U.Lookup, U.Valid, CStr, WholeHello, WholeRequest;
    SomeoneSpeaks();
    SomeoneIsKnown();
    assert Info(Resolved(1), true) in Someone().names;
  }
}
