/** What a monitoring client is shown is what the server computed, over every run. */
module MonRuns {
  import opened Bytes
  import opened Pipes
  import opened Chunks
  import opened MonProtocol
  import P = MonParser
  import opened AccessLog
  import opened MonPayload
  import U = UserTable
  import opened MonSession

  /** One request the server completed. */
  datatype Exchange = Exchange(before: World, authed: bool, cmd: byte, args: seq<bytes>, after: World, reply: Reply)

  /**
   * Client, server connection and the bytes in flight each way.  `base` is the
   * server's parser when it last began a request, `asked` what it took since,
   * `exchanges` the requests it completed; no step reads these three.
   */
  datatype System = System(client: Client, up: bytes, down: bytes, conn: Conn, world: World,
                           base: P.Parser, asked: bytes, exchanges: seq<Exchange>)

  datatype Step =
    | ClientWrites(n: nat)
    | ServerReads(n: nat)
    | ServerWrites(n: nat)
    | ClientReads(n: nat)
    | Elsewhere(w: World)    // other connections, clients and the clock

  ghost predicate Legal(s: System, t: Step) {
    match t
    case ClientWrites(n) => s.client.state.Sending? && n <= |s.client.output.pending|
    case ServerReads(n) => s.conn.open && !s.conn.writing && 0 < n <= |s.up| && n <= s.conn.input.room && Sane(s.world)
    case ServerWrites(n) => s.conn.open && s.conn.writing && 0 < n <= |s.conn.output.pending|
    case ClientReads(n) =>
      && s.client.state.Receiving? && n <= |s.down| && n <= s.client.input.room
      && (n == 0 ==> s.client.input.room == 0)
    case Elsewhere(w) => Sane(w)
  }

  ghost function Next(j: Job, s: System, t: Step): System
    requires Legal(s, t)
  {
    match t
    case ClientWrites(n) =>
      s.(up := s.up + s.client.output.pending[..n], client := ClientSend(s.client, n))
    case ServerReads(n) =>
      var (c, w) := Receive(s.conn, s.world, s.up[..n]);
      var s' := s.(up := s.up[n..], conn := c, world := w, asked := s.asked + s.up[..n]);
      if c.writing then
        var r := c.parser.request;
        s'.(exchanges := s.exchanges + [Exchange(s.world, s.conn.authed, r.cmd, Strings(r), w,
                                                 Respond(s.world, s.conn.authed, r.cmd, Strings(r)).2)])
      else s'
    case ServerWrites(n) =>
      var c := Send(s.conn, n);
      var s' := s.(down := s.down + s.conn.output.pending[..n], conn := c);
      if c.writing then s' else s'.(base := c.parser, asked := [])
    case ClientReads(n) => s.(down := s.down[n..], client := ClientReceive(s.client, j, s.down[..n]))
    case Elsewhere(w) => s.(world := w)
  }

  /** A connected client, a freshly accepted connection, any shared state. */
  ghost predicate Starts(j: Job, s: System) {
    && s.client == Connected(j) && s.up == s.down == s.asked == [] && s.exchanges == []
    && s.conn == Conn(s.base, Fresh(SERVER_BUF), Fresh(SERVER_BUF), false, true, false)
    && P.Initial(s.base) && Sane(s.world)
  }

  ghost predicate Run(j: Job, s: System, ts: seq<Step>)
    decreases |ts|
  {
    ts != [] ==> Legal(s, ts[0]) && Run(j, Next(j, s, ts[0]), ts[1..])
  }

  ghost function After(j: Job, s: System, ts: seq<Step>): System
    requires Run(j, s, ts)
    decreases |ts|
  {
    if ts == [] then s else After(j, Next(j, s, ts[0]), ts[1..])
  }

  // The invariant.

  ghost function Question(j: Job, k: nat): bytes
    requires RequestOf(j, k).Some?
  {
    RequestBytes(RequestOf(j, k).value)
  }

  ghost function Answer(e: Exchange): bytes
    requires e.reply.payload.Some? ==> |e.reply.payload.value| < 0x1_0000
  {
    ResponseBytes(ResponseOf(e.reply))
  }

  /** An exchange is request `k` of the job, answered as the server answers it. */
  ghost predicate ExchangeOk(j: Job, k: nat, e: Exchange) {
    && Sane(e.before) && (e.cmd, e.args) == Asks(j, k) && e.authed == (k == 1) && !TooLong(j, k)
    && Respond(e.before, e.authed, e.cmd, e.args).0 == e.after
    && Respond(e.before, e.authed, e.cmd, e.args).2 == e.reply
    && (e.reply.payload.Some? ==> |e.reply.payload.value| <= PAYLOAD_MAX)
  }

  ghost predicate Idle(p: Pipe, capacity: nat) {
    p == Fresh(capacity)
  }

  /** The client is asking question `k` and the server has not seen all of it. */
  ghost predicate Asking(j: Job, s: System, k: nat) {
    && |s.exchanges| == k && RequestOf(j, k).Some?
    && (s.client.state == if s.client.output.pending == [] then Receiving(k) else Sending(k))
    && s.client.output.Valid() && s.client.output.capacity == CLIENT_WRITE_BUF
    && Idle(s.client.input, CLIENT_READ_BUF) && s.down == []
    && !s.conn.writing && s.conn.authed == (k == 1)
    && Idle(s.conn.input, SERVER_BUF) && Idle(s.conn.output, SERVER_BUF)
    && s.asked + s.up + s.client.output.pending == Question(j, k) && s.asked != Question(j, k)
    && P.Initial(s.base) && s.conn.parser == Consume(P.Feed, P.IsDone, s.base, s.asked).0
  }

  /** The server has answered question `k` and the client has not seen all of the answer. */
  ghost predicate Answering(j: Job, s: System, k: nat) {
    && |s.exchanges| == k + 1 && ExchangeOk(j, k, s.exchanges[k])
    && s.client.state == Receiving(k) && Idle(s.client.output, CLIENT_WRITE_BUF) && s.up == []
    && s.client.input.Valid() && s.client.input.capacity == CLIENT_READ_BUF
    && s.client.input.room + |s.client.input.pending| == CLIENT_READ_BUF
    && s.client.input.pending + s.down + s.conn.output.pending == Answer(s.exchanges[k])
    && s.client.input.pending != Answer(s.exchanges[k])
    && (s.exchanges[k].reply.status == OK ==> s.conn.authed)
    && (s.conn.writing <==> s.conn.output.pending != [])
    && s.conn.output.Valid() && s.conn.output.capacity == SERVER_BUF
    && Idle(s.conn.input, SERVER_BUF)
    && (!s.conn.writing ==> P.Initial(s.base) && s.conn.parser == s.base && s.asked == [])
  }

  /** What the answer to the job's command says of the shared state it was computed from. */
  ghost function Truth(c: Command, w: World): Shown
    requires Sane(w)
  {
    match c
    case ShowMetrics => Numbers([w.historic, w.current, w.transferred])
    case ListUsers => Lines(U.Names(w.users))
    case ShowLog => Accesses(Last(w.log, LongestFit(w.log)))
    case AddUser(_, _) => Added
    case DelUser(_) => Deleted
  }

  /** How a client may end: never for a response it could not read. */
  ghost predicate EndedWell(j: Job, s: System) {
    match s.client.state
    case Done =>
      && |s.exchanges| == 2 && s.exchanges[0].reply.status == OK && s.exchanges[1].reply.status == OK
      && ExchangeOk(j, 1, s.exchanges[1]) && s.client.shown == Truth(j.command, s.exchanges[1].before)
    case Failed(code) =>
      || (code == 3 && |s.exchanges| == 1 && s.exchanges[0].reply.status == AUTH_FAIL)
      || (code == 4 && |s.exchanges| == 2 && s.exchanges[1].reply.status != OK)
      || (code == 2 && |s.exchanges| < 2 && TooLong(j, |s.exchanges|)
          && (|s.exchanges| == 1 ==> s.exchanges[0].reply.status == OK))
    case _ => false
  }

  ghost predicate Talking(c: Client) {
    c.state.Sending? || c.state.Receiving?
  }

  ghost predicate Inv(j: Job, s: System) {
    && Sane(s.world) && s.conn.open && |s.exchanges| <= 2
    && (forall k :: 0 <= k < |s.exchanges| ==> ExchangeOk(j, k, s.exchanges[k]))
    && if Talking(s.client)
       then && s.client.state.k < 2 && (Asking(j, s, s.client.state.k) || Answering(j, s, s.client.state.k))
            && (s.client.state.k == 1 ==> s.exchanges != [] && s.exchanges[0].reply.status == OK)
       else EndedWell(j, s) && s.up == [] && s.down == [] && !s.conn.writing
  }

  // Requests.

  lemma BuildGives(cmd: byte, args: seq<bytes>)
    requires |args| <= MAX_ARGS && Build(cmd, args).Some? && forall a :: a in args ==> IsCString(a)
    ensures var r := Build(cmd, args).value;
            && r.cmd == cmd && r.nargs as nat == |args| && ArgsOf(r, r.nargs as nat) == args
            && |RequestBytes(r)| <= 3 + MAX_ARGS * 256 && |RequestBytes(r)| > 0
  {
    var r := Build(cmd, args).value;
    forall i | 0 <= i < |args| ensures r.args[i][..r.lens[i]] == args[i] {
      assert args[i] in args;
      assert Stored(args[i]) == args[i] + Zeros(256 - |args[i]|);
    }
    assert ArgsOf(r, r.nargs as nat) == args;
    assert Joined(r, 0) == [];
    assert |Joined(r, r.nargs as nat)| <= 255 * MAX_ARGS;
  }

  lemma AsksTyped(j: Job, k: nat)
    requires Typed(j)
    ensures forall a :: a in Asks(j, k).1 ==> IsCString(a)
  {
  }

  lemma QuestionIs(j: Job, k: nat)
    requires Typed(j) && RequestOf(j, k).Some?
    ensures var r := RequestOf(j, k).value;
            && (r.cmd, ArgsOf(r, r.nargs as nat)) == Asks(j, k)
            && 0 < |Question(j, k)| <= 3 + MAX_ARGS * 256
  {
    AsksTyped(j, k);
    BuildGives(Asks(j, k).0, Asks(j, k).1);
  }

  /** The server's C strings are the arguments sent, which have no NUL in them. */
  lemma StringsAreArgs(r: Request, cmd: byte, args: seq<bytes>)
    requires P.Carries(r, cmd, args) && forall a :: a in args ==> IsCString(a)
    ensures Strings(r) == args
  {
    forall i | 0 <= i < |args| ensures CStr(r.args[i]) == args[i] {
      assert P.HasArg(r, i, args[i]);
      CStrAt(r.args[i], |args[i]|);
      assert args[i] in args;
    }
  }

  /** A parser that has not had the whole request is not done. */
  lemma PartialRequest(p: P.Parser, r: Request, a: bytes, b: bytes)
    requires P.Initial(p) && r.version == VERSION && r.nargs as nat <= MAX_ARGS && a + b == RequestBytes(r) && b != []
    ensures !P.IsDone(Consume(P.Feed, P.IsDone, p, a).0)
  {
    hide Consume, P.Feed, P.Carries;
    P.ParseInvertsEncode(p, r, []);
    assert RequestBytes(r) + [] == a + b;
    ConsumeSplit(P.Feed, P.IsDone, p, a, b);
  }

  lemma WholeRequest(p: P.Parser, r: Request)
    requires P.Initial(p) && r.version == VERSION && r.nargs as nat <= MAX_ARGS
    ensures var (q, n) := Consume(P.Feed, P.IsDone, p, RequestBytes(r));
            q.state == P.Done && n == |RequestBytes(r)| && P.Carries(q.request, r.cmd, ArgsOf(r, r.nargs as nat))
  {
    P.ParseInvertsEncode(p, r, []);
    assert RequestBytes(r) + [] == RequestBytes(r);
  }

  /** Parsing what just arrived continues the parse of what had. */
  lemma ContinuedParse(p: P.Parser, r: Request, a: bytes, got: bytes, rest: bytes)
    requires P.Initial(p) && r.version == VERSION && r.nargs as nat <= MAX_ARGS
    requires a + got + rest == RequestBytes(r) && got != []
    ensures var q := Consume(P.Feed, P.IsDone, p, a).0;
            var (q', n) := Consume(P.Feed, P.IsDone, q, got);
            && n == |got| && q' == Consume(P.Feed, P.IsDone, p, a + got).0
            && (if rest != [] then !P.IsDone(q')
                else q'.state == P.Done && P.Carries(q'.request, r.cmd, ArgsOf(r, r.nargs as nat)))
  {
    hide Consume, P.Feed, P.Carries;
    var q := Consume(P.Feed, P.IsDone, p, a).0;
    assert a + (got + rest) == a + got + rest;
    PartialRequest(p, r, a, got + rest);
    ConsumeSplit(P.Feed, P.IsDone, p, a, got);
    ConsumedAll(p, a);
    if rest != [] {
      PartialRequest(p, r, a + got, rest);
      ConsumedAll(q, got);
    } else {
      assert a + got == RequestBytes(r);
      WholeRequest(p, r);
    }
  }

  lemma ConsumedAll(p: P.Parser, s: bytes)
    requires !P.IsDone(Consume(P.Feed, P.IsDone, p, s).0)
    ensures Consume(P.Feed, P.IsDone, p, s).1 == |s|
  {
  }

  // Each step keeps the invariant.

  lemma AskingFrom(j: Job, s: System, c: Client, k: nat)
    requires Typed(j) && Idle(c.input, CLIENT_READ_BUF) && Idle(c.output, CLIENT_WRITE_BUF)
    requires s.client == Ask(c, j, k) && RequestOf(j, k).Some? && |s.exchanges| == k
    requires s.up == s.down == s.asked == [] && P.Initial(s.base) && s.conn.parser == s.base
    requires Idle(s.conn.input, SERVER_BUF) && Idle(s.conn.output, SERVER_BUF)
    requires !s.conn.writing && s.conn.authed == (k == 1)
    ensures Asking(j, s, k) && s.client.state == Sending(k)
  {
    hide P.Feed;
    QuestionIs(j, k);
    assert [] + Question(j, k) == Question(j, k);
  }

  lemma StartInv(j: Job, s: System)
    requires Typed(j) && Starts(j, s)
    ensures Inv(j, s)
  {
    hide Asking;
    if RequestOf(j, 0).Some? {
      AskingFrom(j, s, Client(Sending(0), Fresh(CLIENT_READ_BUF), Fresh(CLIENT_WRITE_BUF), Nothing), 0);
    }
  }

  lemma ClientWritesInv(j: Job, s: System, n: nat)
    requires Inv(j, s) && Legal(s, ClientWrites(n))
    ensures Inv(j, Next(j, s, ClientWrites(n)))
  {
    hide ExchangeOk, EndedWell, Answering, Consume, P.Feed, Question, RequestOf, Sane;
    var k := s.client.state.k;
    var out := s.client.output;
    NotAnswering(j, s, k);
    assert out.pending == out.pending[..n] + out.pending[n..];
    assert s.asked + (s.up + out.pending[..n]) + out.pending[n..] == s.asked + s.up + out.pending;
  }

  lemma NotAnswering(j: Job, s: System, k: nat)
    requires s.client.state.Sending? || |s.exchanges| == k || s.up != []
    ensures !Answering(j, s, k)
  {
  }

  lemma NotAsking(j: Job, s: System, k: nat)
    requires s.conn.writing || s.down != []
    ensures !Asking(j, s, k)
  {
  }

  lemma ServerReadsInv(j: Job, s: System, n: nat)
    requires Typed(j) && Inv(j, s) && Legal(s, ServerReads(n))
    ensures Inv(j, Next(j, s, ServerReads(n)))
  {
    hide ExchangeOk, EndedWell, Answering, Consume, P.Feed, Question, RequestOf, Sane, Receive, Respond;
    var k := s.client.state.k;
    NotAnswering(j, s, k);
    var got, rest := s.up[..n], s.up[n..] + s.client.output.pending;
    assert s.up == got + s.up[n..];
    assert s.asked + got + rest == Question(j, k) by { assert s.asked + s.up + s.client.output.pending == s.asked + got + rest; }
    if rest != [] {
      ServerReadsPart(j, s, n, k);
    } else {
      assert s.asked + got == s.asked + got + rest;
      ServerReadsAll(j, s, n, k);
    }
  }

  lemma ServerReadsPart(j: Job, s: System, n: nat, k: nat)
    requires Asking(j, s, k) && Legal(s, ServerReads(n)) && s.conn.open && k < 2
    requires var rest := s.up[n..] + s.client.output.pending; rest != [] && s.asked + s.up[..n] + rest == Question(j, k)
    ensures var s' := Next(j, s, ServerReads(n));
            && Asking(j, s', k) && s'.client == s.client && s'.exchanges == s.exchanges
            && s'.world == s.world && s'.conn.open
  {
    hide Consume, P.Feed, RequestOf, Sane, Respond;
    var got, rest := s.up[..n], s.up[n..] + s.client.output.pending;
    ContinuedParse(s.base, RequestOf(j, k).value, s.asked, got, rest);
    assert s.conn.input.Put(got).pending == got;
    assert s.asked + got != Question(j, k);
    assert s.asked + got + s.up[n..] + s.client.output.pending == Question(j, k) by {
      assert s.asked + got + s.up[n..] + s.client.output.pending == s.asked + got + rest;
    }
  }

  lemma AnswerFits(w: World, authed: bool, cmd: byte, args: seq<bytes>)
    requires Sane(w) && forall a :: a in args ==> IsCString(a)
    ensures var reply := Respond(w, authed, cmd, args).2;
            && (reply.payload.Some? ==> 0 < |reply.payload.value| <= PAYLOAD_MAX)
            && 4 <= |ResponseBytes(ResponseOf(reply))| <= SERVER_BUF
            && Queue(Fresh(SERVER_BUF), reply)
               == Pipe(ResponseBytes(ResponseOf(reply)), SERVER_BUF - |ResponseBytes(ResponseOf(reply))|, SERVER_BUF)
  {
    hide Respond, Sane;
    RepliesFit(w, authed, cmd, args);
  }

  lemma ServerReadsAll(j: Job, s: System, n: nat, k: nat)
    requires Typed(j) && Inv(j, s) && Asking(j, s, k) && Legal(s, ServerReads(n)) && k < 2 && s.client.state.k == k
    requires s.up[n..] == s.client.output.pending == [] && s.asked + s.up[..n] == Question(j, k)
    ensures Inv(j, Next(j, s, ServerReads(n)))
  {
    hide Consume, P.Feed, RequestOf, TooLong, Sane, Respond, P.Carries, Strings, EndedWell, Fits, Longest;
    RefusesExactly(j, k);
    var got := s.up[..n];
    var r := RequestOf(j, k).value;
    QuestionIs(j, k);
    assert s.asked + got + [] == Question(j, k);
    ContinuedParse(s.base, r, s.asked, got, []);
    assert s.conn.input.Put(got).pending == got;
    var q := Consume(P.Feed, P.IsDone, s.conn.parser, got).0;
    AsksTyped(j, k);
    CarriesStrings(q.request, r.cmd, ArgsOf(r, r.nargs as nat));
    AnswerFits(s.world, s.conn.authed, r.cmd, Asks(j, k).1);
    RepliesFit(s.world, s.conn.authed, r.cmd, Asks(j, k).1);
    var s' := Next(j, s, ServerReads(n));
    assert s'.exchanges[k] == s'.exchanges[|s.exchanges|];
    assert [] + [] + Answer(s'.exchanges[k]) == Answer(s'.exchanges[k]);
  }

  lemma CarriesStrings(r: Request, cmd: byte, args: seq<bytes>)
    requires P.Carries(r, cmd, args) && forall a :: a in args ==> IsCString(a)
    ensures r.nargs as nat <= MAX_ARGS && r.cmd == cmd && Strings(r) == args
  {
    StringsAreArgs(r, cmd, args);
  }

  lemma ServerWritesInv(j: Job, s: System, n: nat)
    requires Inv(j, s) && Legal(s, ServerWrites(n))
    ensures Inv(j, Next(j, s, ServerWrites(n)))
  {
    hide ExchangeOk, EndedWell, Asking, Consume, P.Feed, Question, RequestOf, Sane, Answer;
    var k := s.client.state.k;
    NotAsking(j, s, k);
    var out := s.conn.output.pending;
    assert out == out[..n] + out[n..];
    assert s.client.input.pending + (s.down + out[..n]) + out[n..] == s.client.input.pending + s.down + out;
  }

  lemma WholeAnswer(e: Exchange)
    requires e.reply.payload.Some? ==> 0 < |e.reply.payload.value| < 0x1_0000
    ensures Decode(Answer(e)) == Ok(ResponseOf(e.reply), |Answer(e)|)
    ensures forall i :: 0 <= i < |Answer(e)| ==> Decode(Answer(e)[..i]) == NeedMore
  {
    var r := ResponseOf(e.reply);
    DecodeInvertsEncode(r);
    assert Answer(e) + [] == Answer(e);
    assert r.payload.Some? ==> r.payload.value[..r.len] == r.payload.value;
    forall i | 0 <= i < |Answer(e)| ensures Decode(Answer(e)[..i]) == NeedMore {
      EveryStrictPrefixNeedsMore(r, i);
    }
  }

  /** What the client shows of an answer with status OK is the truth. */
  lemma ShowsTruth(j: Job, e: Exchange)
    requires ExchangeOk(j, 1, e) && e.reply.status == OK
    ensures Show(j.command, e.reply.payload) == Truth(j.command, e.before) && !Show(j.command, e.reply.payload).Nothing?
  {
    hide U.Valid, U.Lookup, U.Add, U.Remove, Fits, Longest, ReadLog, ReadUsers, ReadMetrics;
    var w := e.before;
    match j.command {
      case ShowMetrics => MetricsRoundTrip(w.historic, w.current, w.transferred);
      case ListUsers =>
        ListFits(w.users);
        UsersRoundTrip(U.Names(w.users));
      case ShowLog =>
        LogFits(w.log);
        LogRoundTrip(Last(w.log, LongestFit(w.log)));
      case _ =>
    }
  }

  lemma AuthReplies(j: Job, e: Exchange)
    requires ExchangeOk(j, 0, e)
    ensures e.reply.status == OK || e.reply.status == AUTH_FAIL
  {
  }

  lemma AnswerPayload(j: Job, k: nat, e: Exchange)
    requires Typed(j) && ExchangeOk(j, k, e)
    ensures (e.reply.payload.Some? ==> 0 < |e.reply.payload.value| <= PAYLOAD_MAX) && |Answer(e)| <= SERVER_BUF
  {
    hide Respond, Sane;
    AsksTyped(j, k);
    AnswerFits(e.before, e.authed, e.cmd, e.args);
  }

  lemma ClientReadsInv(j: Job, s: System, n: nat)
    requires Typed(j) && Inv(j, s) && Legal(s, ClientReads(n))
    ensures Inv(j, Next(j, s, ClientReads(n)))
  {
    hide ExchangeOk, EndedWell, Consume, P.Feed, Question, RequestOf, Sane, Answer, Decode, OnReply;
    var k := s.client.state.k;
    RoomToRead(j, s, k);
    NotAsking(j, s, k);
    ClientReadsAnswer(j, s, n, k);
  }

  lemma RoomToRead(j: Job, s: System, k: nat)
    requires Typed(j) && (Asking(j, s, k) || Answering(j, s, k))
    ensures s.client.input.room > 0
  {
    hide ExchangeOk, Answer;
    if Answering(j, s, k) { AnswerPayload(j, k, s.exchanges[k]); }
  }

  lemma ClientReadsAnswer(j: Job, s: System, n: nat, k: nat)
    requires Typed(j) && Inv(j, s) && Answering(j, s, k) && k < 2 && Legal(s, ClientReads(n)) && s.client.state.k == k
    ensures Inv(j, Next(j, s, ClientReads(n)))
  {
    hide ExchangeOk, EndedWell, Asking, Consume, P.Feed, Question, RequestOf, Sane, Answer, Decode, OnReply, Inv;
    RoomToRead(j, s, k);
    var e := s.exchanges[k];
    AnswerPayload(j, k, e);
    WholeAnswer(e);
    var got, rest := s.down[..n], s.down[n..] + s.conn.output.pending;
    var have := s.client.input.pending + got;
    assert have + rest == Answer(e) by {
      assert s.down == got + s.down[n..];
      assert s.client.input.pending + s.down + s.conn.output.pending == have + rest;
    }
    if rest != [] {
      assert Answer(e)[..|have|] == have;
      ClientReadsPart(j, s, n, k);
    } else {
      assert have + rest == have;
      ClientReadsAll(j, s, n, k);
    }
  }

  lemma ClientReadsPart(j: Job, s: System, n: nat, k: nat)
    requires Inv(j, s) && Answering(j, s, k) && k < 2 && Legal(s, ClientReads(n)) && s.client.state.k == k
    requires s.client.input.room > 0 && Decode(s.client.input.pending + s.down[..n]) == NeedMore
    requires s.client.input.pending + s.down[..n] + (s.down[n..] + s.conn.output.pending) == Answer(s.exchanges[k])
    requires s.down[n..] + s.conn.output.pending != []
    ensures Inv(j, Next(j, s, ClientReads(n)))
  {
    hide ExchangeOk, EndedWell, Asking, Question, RequestOf, Sane, Answer, Decode;
    var s' := Next(j, s, ClientReads(n));
    assert s'.client.input.pending + s'.down + s'.conn.output.pending
           == s.client.input.pending + s.down[..n] + (s.down[n..] + s.conn.output.pending);
    assert Answering(j, s', k);
  }

  lemma ClientReadsAll(j: Job, s: System, n: nat, k: nat)
    requires Typed(j) && Inv(j, s) && Answering(j, s, k) && k < 2 && Legal(s, ClientReads(n)) && s.client.state.k == k
    requires s.client.input.room > 0 && s.down[n..] == s.conn.output.pending == []
    requires s.client.input.pending + s.down[..n] == Answer(s.exchanges[k])
    requires Decode(Answer(s.exchanges[k])) == Ok(ResponseOf(s.exchanges[k].reply), |Answer(s.exchanges[k])|)
    ensures Inv(j, Next(j, s, ClientReads(n)))
  {
    hide ExchangeOk, Asking, Question, RequestOf, TooLong, Sane, Answer, Decode, Show, Truth;
    RefusesExactly(j, 1);
    var e := s.exchanges[k];
    var s' := Next(j, s, ClientReads(n));
    var c := s.client.(input := Fresh(CLIENT_READ_BUF));
    assert s'.client == OnReply(c, j, k, ResponseOf(e.reply));
    if k == 0 {
      AuthReplies(j, e);
      if e.reply.status == OK && RequestOf(j, 1).Some? { AskingFrom(j, s', c, 1); }
    } else if e.reply.status == OK {
      ShowsTruth(j, e);
    }
  }

  lemma StepInv(j: Job, s: System, t: Step)
    requires Typed(j) && Inv(j, s) && Legal(s, t)
    ensures Inv(j, Next(j, s, t))
  {
    if !t.Elsewhere? { hide Inv; }
    match t {
      case ClientWrites(n) => ClientWritesInv(j, s, n);
      case ServerReads(n) => ServerReadsInv(j, s, n);
      case ServerWrites(n) => ServerWritesInv(j, s, n);
      case ClientReads(n) => ClientReadsInv(j, s, n);
      case Elsewhere(_) =>
    }
  }

  lemma {:induction false} RunInv(j: Job, s: System, ts: seq<Step>)
    requires Typed(j) && Inv(j, s) && Run(j, s, ts)
    ensures Inv(j, After(j, s, ts))
    decreases |ts|
  {
    hide Inv;
    if ts != [] {
      StepInv(j, s, ts[0]);
      RunInv(j, Next(j, s, ts[0]), ts[1..]);
    }
  }

  // Main results, for every job, every cut of the streams and whatever other connections do.

  /**
   * The server completes each of the client's two requests at most once, in
   * order, with the arguments the client was given, and never closes on it.  A
   * client that ends normally shows what was true when its command was
   * processed; one that fails was refused, or was given a string too long to send.
   */
  lemma ClientShowsTheTruth(j: Job, s: System, ts: seq<Step>)
    requires Typed(j) && Starts(j, s) && Run(j, s, ts)
    ensures var s' := After(j, s, ts);
            && s'.conn.open && |s'.exchanges| <= 2
            && (forall k :: 0 <= k < |s'.exchanges| ==> ExchangeOk(j, k, s'.exchanges[k]))
            && (if Talking(s'.client) then !TooLong(j, s'.client.state.k) else EndedWell(j, s'))
  {
    StartInv(j, s);
    RunInv(j, s, ts);
    var s' := After(j, s, ts);
    if Talking(s'.client) { RefusesExactly(j, s'.client.state.k); }
  }

  /** In particular the branches for malformed and oversized responses are never taken. */
  lemma NeverMalformed(j: Job, s: System, ts: seq<Step>)
    requires Typed(j) && Starts(j, s) && Run(j, s, ts)
    ensures var s' := After(j, s, ts);
            && s'.client.state != Failed(EXIT_MALFORMED)
            && (s'.client.state.Receiving? ==> s'.client.input.room > 0)
  {
    StartInv(j, s);
    RunInv(j, s, ts);
    var s' := After(j, s, ts);
    if s'.client.state.Receiving? { RoomToRead(j, s', s'.client.state.k); }
  }

  /** Authentication answers OK exactly for a user of the table with that password. */
  lemma AuthenticationMeans(j: Job, e: Exchange)
    requires ExchangeOk(j, 0, e)
    ensures e.reply.status == OK
            <==> j.user in U.Users(e.before.users) && U.Users(e.before.users)[j.user] == j.pass
  {
    U.LookupLaw(e.before.users, j.user, j.pass);
  }

  /** What each command's OK means for the users there were and the users there are. */
  lemma CommandMeans(j: Job, e: Exchange)
    requires Typed(j) && ExchangeOk(j, 1, e)
    ensures var before, after := U.Users(e.before.users), U.Users(e.after.users);
            match j.command
            case AddUser(u, p) =>
              && (e.reply.status == OK <==>
                    1 <= |u| <= 255 && 1 <= |p| <= 255 && u !in before && |before| < 10)
              && after == if e.reply.status == OK then before[u := p] else before
            case DelUser(u) => (e.reply.status == OK <==> u in before) && after == before - {u}
            case ListUsers =>
              && e.reply.status == OK && after == before && Truth(ListUsers, e.before).Lines?
              && U.Distinct(Truth(ListUsers, e.before).names)
              && (forall n :: n in Truth(ListUsers, e.before).names <==> n in before)
            case _ => e.reply.status == OK && e.after == e.before
  {
    hide U.Valid, U.Lookup, U.Add, U.Remove, U.Users, U.Names, Fits, Longest;
    match j.command {
      case AddUser(u, p) => U.AddLaw(e.before.users, u, p);
      case DelUser(u) => U.RemoveLaw(e.before.users, u);
      case ListUsers => U.ListsEveryUserOnce(e.before.users);
      case _ =>
    }
  }

  // Every session ends.

  predicate Moves(t: Step) {
    !t.Elsewhere? && t.n > 0
  }

  /** Moves to come, counted from above. */
  ghost function Left(j: Job, s: System): nat {
    if !Talking(s.client) || s.client.state.k >= 2 then 0
    else if |s.exchanges| == s.client.state.k then
      (2 - s.client.state.k) * 20000 + 10000 + 2 * |s.client.output.pending| + |s.up|
    else (2 - s.client.state.k) * 20000 + 2 * |s.conn.output.pending| + |s.down|
  }

  lemma SomethingMoves(j: Job, s: System) returns (t: Step)
    requires Typed(j) && Inv(j, s) && Talking(s.client)
    ensures Legal(s, t) && Moves(t)
  {
    hide ExchangeOk, EndedWell, Consume, P.Feed, Question, RequestOf, Sane, Answer;
    var k := s.client.state.k;
    RoomToRead(j, s, k);
    if s.client.output.pending != [] {
      NotAnswering(j, s, k);
      t := ClientWrites(1);
    } else if s.conn.writing {
      NotAsking(j, s, k);
      t := ServerWrites(1);
    } else if s.up != [] {
      NotAnswering(j, s, k);
      t := ServerReads(1);
    } else {
      SomethingIsLeft(j, s, k);
      t := ClientReads(1);
    }
  }

  lemma SomethingIsLeft(j: Job, s: System, k: nat)
    requires Asking(j, s, k) || Answering(j, s, k)
    requires s.client.output.pending == [] && !s.conn.writing && s.up == []
    ensures s.down != []
  {
    hide ExchangeOk, Question, RequestOf, Answer, Consume, P.Feed;
    assert s.asked + [] + [] == s.asked && s.client.input.pending + [] + [] == s.client.input.pending;
  }

  lemma MovesCount(j: Job, s: System, t: Step)
    requires Typed(j) && Inv(j, s) && Legal(s, t)
    ensures if Moves(t) then Left(j, Next(j, s, t)) < Left(j, s) else Left(j, Next(j, s, t)) <= Left(j, s)
  {
    hide ExchangeOk, EndedWell, Sane, Asking, Answering, Left, Next;
    StepInv(j, s, t);
    if t.Elsewhere? {
      ElsewhereCount(j, s, t);
    } else if Talking(s.client) {
      var k := s.client.state.k;
      match t {
        case ClientWrites(n) =>
          NotAnswering(j, s, k);
          ClientWritesCount(j, s, n, k);
        case ServerReads(n) =>
          NotAnswering(j, s, k);
          ServerReadsCount(j, s, n, k);
        case ServerWrites(n) =>
          NotAsking(j, s, k);
          ServerWritesCount(j, s, n, k);
        case ClientReads(n) =>
          RoomToRead(j, s, k);
          NotAsking(j, s, k);
          ClientReadsCount(j, s, n, k);
      }
    } else {
      NobodyMoves(j, s, t);
    }
  }

  lemma ElsewhereCount(j: Job, s: System, t: Step)
    requires Legal(s, t) && t.Elsewhere?
    ensures Left(j, Next(j, s, t)) == Left(j, s)
  {
    hide Sane;
  }

  lemma NobodyMoves(j: Job, s: System, t: Step)
    requires Inv(j, s) && Legal(s, t) && !Talking(s.client)
    ensures t.Elsewhere?
  {
    hide ExchangeOk, EndedWell, Sane;
  }

  lemma ClientWritesCount(j: Job, s: System, n: nat, k: nat)
    requires Asking(j, s, k) && Legal(s, ClientWrites(n)) && k < 2 && s.client.state.k == k
    ensures var left := Left(j, Next(j, s, ClientWrites(n))); if n > 0 then left < Left(j, s) else left <= Left(j, s)
  {
    hide Consume, P.Feed, Question, RequestOf;
  }

  lemma ServerWritesCount(j: Job, s: System, n: nat, k: nat)
    requires Answering(j, s, k) && Legal(s, ServerWrites(n)) && k < 2 && s.client.state.k == k
    ensures Left(j, Next(j, s, ServerWrites(n))) < Left(j, s)
  {
    hide ExchangeOk, Answer;
  }

  lemma ServerReadsCount(j: Job, s: System, n: nat, k: nat)
    requires Typed(j) && Inv(j, s) && Asking(j, s, k) && Legal(s, ServerReads(n)) && k < 2 && s.client.state.k == k
    requires Inv(j, Next(j, s, ServerReads(n)))
    ensures Left(j, Next(j, s, ServerReads(n))) < Left(j, s)
  {
    hide ExchangeOk, EndedWell, Consume, P.Feed, Question, RequestOf, Sane, Answer, Receive;
    var s' := Next(j, s, ServerReads(n));
    if |s'.exchanges| != k { AnswerBound(j, s', k); }
  }

  lemma AnswerBound(j: Job, s: System, k: nat)
    requires Typed(j) && (Asking(j, s, k) || Answering(j, s, k)) && |s.exchanges| != k
    ensures |s.conn.output.pending| + |s.down| <= SERVER_BUF
  {
    hide ExchangeOk, Answer;
    AnswerPayload(j, k, s.exchanges[k]);
  }

  lemma ClientReadsCount(j: Job, s: System, n: nat, k: nat)
    requires Typed(j) && Inv(j, s) && Answering(j, s, k) && Legal(s, ClientReads(n)) && k < 2 && s.client.state.k == k
    requires n > 0 && s.client.input.room > 0 && Inv(j, Next(j, s, ClientReads(n)))
    ensures Left(j, Next(j, s, ClientReads(n))) < Left(j, s)
  {
    hide ExchangeOk, EndedWell, Consume, P.Feed, Question, RequestOf, Sane, Answer, Decode;
    var s' := Next(j, s, ClientReads(n));
    if Talking(s'.client) && s'.client.state.k != k { QuestionBound(j, s', 1); }
  }

  lemma QuestionBound(j: Job, s: System, k: nat)
    requires Typed(j) && RequestOf(j, k).Some? && Talking(s.client) && s.client.state.k == k && |s.exchanges| == k
    requires Asking(j, s, k) || Answering(j, s, k)
    ensures |s.client.output.pending| + |s.up| <= 3 + MAX_ARGS * 256
  {
    hide ExchangeOk, Answer, Consume, P.Feed;
    QuestionIs(j, k);
  }

  ghost function MovesIn(ts: seq<Step>): nat
    decreases |ts|
  {
    if ts == [] then 0 else (if Moves(ts[0]) then 1 else 0) + MovesIn(ts[1..])
  }

  lemma {:induction false} MovesBound(j: Job, s: System, ts: seq<Step>)
    requires Typed(j) && Inv(j, s) && Run(j, s, ts)
    ensures MovesIn(ts) + Left(j, After(j, s, ts)) <= Left(j, s)
    decreases |ts|
  {
    hide Inv, Left;
    if ts != [] {
      StepInv(j, s, ts[0]);
      MovesCount(j, s, ts[0]);
      MovesBound(j, Next(j, s, ts[0]), ts[1..]);
    }
  }

  /** Bytes keep moving while the client has not ended, and only so many moves can be made before it has. */
  lemma SessionEnds(j: Job, s: System, ts: seq<Step>)
    requires Typed(j) && Starts(j, s) && Run(j, s, ts)
    ensures MovesIn(ts) <= 51030
    ensures Talking(After(j, s, ts).client) ==> exists t :: Legal(After(j, s, ts), t) && Moves(t)
  {
    StartInv(j, s);
    RunInv(j, s, ts);
    MovesBound(j, s, ts);
    if RequestOf(j, 0).Some? { QuestionIs(j, 0); }
    if Talking(After(j, s, ts).client) { var t := SomethingMoves(j, After(j, s, ts)); }
  }
}
