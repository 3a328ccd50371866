/**
 * What the monitoring port does for any peer, whatever bytes it sends and
 * however they are cut (src/server/mon_nio.c): what every request is answered,
 * and that a peer which has not authenticated changes nothing.
 */
module MonPeers {
  import opened Bytes
  import opened Pipes
  import opened Chunks
  import opened MonProtocol
  import P = MonParser
  import opened AccessLog
  import opened MonPayload
  import U = UserTable
  import opened MonSession

  /**
   * A connection and what all connections share.  `base` is the parser when it
   * last began a request, `asked` all that arrived since, `sent` all that ever
   * left; no step reads these three.
   */
  datatype Peer = Peer(conn: Conn, world: World, base: P.Parser, asked: bytes, sent: bytes)

  datatype Event =
    | Arrives(got: bytes)
    | Leaves(n: nat)
    | Elsewhere(w: World)    // other connections, clients and the clock
    | Breaks                 // `recv` or `send` gave nothing or failed

  ghost predicate Legal(d: Peer, e: Event) {
    && Sane(d.world)
    && match e
       case Arrives(got) => d.conn.open && !d.conn.writing && 0 < |got| <= d.conn.input.room
       case Leaves(n) => d.conn.open && d.conn.writing && 0 < n <= |d.conn.output.pending|
       case Elsewhere(w) => Sane(w)
       case Breaks => d.conn.open
  }

  ghost function Step(d: Peer, e: Event): Peer
    requires Legal(d, e)
  {
    match e
    case Arrives(got) =>
      var (c, w) := Receive(d.conn, d.world, got);
      d.(conn := c, world := w, asked := d.asked + got)
    case Leaves(n) =>
      var c := Send(d.conn, n);
      var d' := d.(conn := c, sent := d.sent + d.conn.output.pending[..n]);
      if c.writing then d' else d'.(base := c.parser, asked := [])
    case Elsewhere(w) => d.(world := w)
    case Breaks => d.(conn := d.conn.(open := false))
  }

  /** A connection just accepted. */
  ghost predicate Starts(d: Peer) {
    && d.conn == Conn(d.base, Fresh(SERVER_BUF), Fresh(SERVER_BUF), false, true, false)
    && P.Initial(d.base) && Sane(d.world) && d.asked == d.sent == []
  }

  ghost predicate Run(d: Peer, es: seq<Event>)
    decreases |es|
  {
    es != [] ==> Legal(d, es[0]) && Run(Step(d, es[0]), es[1..])
  }

  ghost function After(d: Peer, es: seq<Event>): Peer
    requires Run(d, es)
    decreases |es|
  {
    if es == [] then d else After(Step(d, es[0]), es[1..])
  }

  // What a request is answered.

  /** A response on the wire. */
  function Framed(status: byte, payload: bytes): bytes
    requires |payload| < 0x1_0000
  {
    [1, status, |payload| / 256, |payload| % 256] + payload
  }

  /** The listing reads back as the names of the users, each once. */
  ghost predicate TellsUsers(out: bytes, users: map<bytes, bytes>) {
    && 4 < |out| <= 4096 && out == Framed(0, out[4..])
    && var l := ReadUsers(Some(out[4..])); l.ok && U.Distinct(l.lines) && forall n :: n in l.lines <==> n in users
  }

  /** The metrics read back. */
  predicate TellsMetrics(out: bytes, w: World) {
    |out| == 28 && out == Framed(0, out[4..]) && ReadMetrics(Some(out[4..])) == Listing([w.historic, w.current, w.transferred], true)
  }

  /** The log reads back as the newest entries, all of them or as many as there is room for. */
  ghost predicate TellsLog(out: bytes, log: seq<Entry>) {
    && 6 <= |out| <= 4096 && out == Framed(0, out[4..])
    && var l := ReadLog(Some(out[4..]));
       && l.ok && |l.lines| <= |log| && l.lines == log[|log| - |l.lines|..]
       && (|l.lines| < |log| ==> var e := log[|log| - |l.lines| - 1]; |out| + 12 + |e.user| + |e.addr| > 4096)
  }

  /**
   * How a request is to be answered: what becomes of the shared state, whether
   * the peer is authenticated afterwards, and the bytes of the response.
   */
  ghost predicate Told(w: World, authed: bool, cmd: byte, args: seq<bytes>, w': World, authed': bool, out: bytes) {
    var users := U.Users(w.users);
    if cmd == 0 then
      && w' == w
      && if |args| == 2 && args[0] in users && users[args[0]] == args[1] then authed' && out == Framed(0, [])
         else authed' == authed && out == Framed(1, [])
    else if !authed then w' == w && !authed' && out == Framed(1, [])
    else authed' && w' == w.(users := w'.users) && if cmd == 1 then
      if |args| < 2 then w' == w && out == Framed(5, [])
      else if 1 <= |args[0]| <= 255 && 1 <= |args[1]| <= 255 && args[0] !in users && |users| < 10 then
        U.Users(w'.users) == users[args[0] := args[1]] && out == Framed(0, [])
      else w' == w && out == Framed(3, [])
    else if cmd == 2 then
      if |args| < 1 then w' == w && out == Framed(5, [])
      else if args[0] in users then U.Users(w'.users) == users - {args[0]} && out == Framed(0, [])
      else w' == w && out == Framed(4, [])
    else
      && w' == w
      && if cmd == 3 then TellsUsers(out, users)
         else if cmd == 4 then TellsMetrics(out, w)
         else if cmd == 5 then TellsLog(out, w.log)
         else out == Framed(2, [])
  }

  ghost function Out(r: Reply): bytes
    requires r.payload.Some? ==> |r.payload.value| < 0x1_0000
  {
    ResponseBytes(ResponseOf(r))
  }

  lemma Frames(r: Reply)
    requires r.payload.Some? ==> 0 < |r.payload.value| < 0x1_0000
    ensures Out(r) == Framed(r.status, if r.payload.Some? then r.payload.value else [])
    ensures r.payload.Some? ==> Out(r)[4..] == r.payload.value
  {
    if r.payload.Some? { assert r.payload.value[..|r.payload.value|] == r.payload.value; }
  }

  lemma ListTells(w: World)
    requires Sane(w)
    ensures Short(U.Names(w.users)) && |U.Names(w.users)| < 256
    ensures var p := UsersPayload(U.Names(w.users)); 0 < |p| <= 4092 && TellsUsers(Out(Reply(OK, Some(p))), U.Users(w.users))
  {
    hide U.Valid, U.Names, U.Users, ReadUsers;
    ListFits(w.users);
    UsersRoundTrip(U.Names(w.users));
    U.ListsEveryUserOnce(w.users);
    Frames(Reply(OK, Some(UsersPayload(U.Names(w.users)))));
  }

  lemma MetricsTells(w: World)
    ensures var p := MetricsPayload(w.historic, w.current, w.transferred); |p| == 24 && TellsMetrics(Out(Reply(OK, Some(p))), w)
  {
    hide Be, ReadMetrics;
    MetricsRoundTrip(w.historic, w.current, w.transferred);
    Frames(Reply(OK, Some(MetricsPayload(w.historic, w.current, w.transferred))));
  }

  lemma LogTells(log: seq<Entry>)
    requires AllSized(log)
    ensures LongestFit(log) <= 340
    ensures var p := LogPayload(Last(log, LongestFit(log))); 2 <= |p| <= 4092 && TellsLog(Out(Reply(OK, Some(p))), log)
  {
    hide ReadLog, Be;
    var k := LongestFit(log);
    LogFits(log);
    var p := LogPayload(Last(log, k));
    LogRoundTrip(Last(log, k));
    Frames(Reply(OK, Some(p)));
    assert Fits(log, k) && !Fits(log, k + 1);
    if k < |log| { OneMore(log, k); }
  }

  /** The program's answer is the table's. */
  lemma RespondTells(w: World, authed: bool, cmd: byte, args: seq<bytes>)
    requires Sane(w) && |args| <= 2 && forall a :: a in args ==> IsCString(a)
    ensures var (w', authed', reply) := Respond(w, authed, cmd, args);
            && (reply.payload.Some? ==> 0 < |reply.payload.value| <= PAYLOAD_MAX)
            && Told(w, authed, cmd, args, w', authed', Out(reply))
  {
    hide U.Valid, U.Lookup, U.Add, U.Remove, U.Users, Fits, Longest, TellsUsers, TellsMetrics, TellsLog, ReadUsers, ReadLog;
    RepliesFit(w, authed, cmd, args);
    forall status { Frames(Reply(status, None)); }
    if cmd == 0 && |args| == 2 { U.LookupLaw(w.users, args[0], args[1]); }
    if cmd == 1 && |args| == 2 { U.AddLaw(w.users, args[0], args[1]); }
    if cmd == 2 && |args| >= 1 { U.RemoveLaw(w.users, args[0]); }
    ListTells(w);
    MetricsTells(w);
    LogTells(w.log);
  }

  // Every run.

  ghost predicate Inv(d: Peer) {
    Sane(d.world) && P.Initial(d.base) && (d.conn.open ==> if d.conn.writing then Replying(d.conn) else Waiting(d))
  }

  ghost predicate Waiting(d: Peer) {
    && d.conn.input == d.conn.output == Fresh(SERVER_BUF)
    && d.conn.parser == Consume(P.Feed, P.IsDone, d.base, d.asked).0 && !P.IsDone(d.conn.parser)
  }

  ghost predicate Replying(c: Conn) {
    c.output.Valid() && c.output.capacity == c.input.capacity == SERVER_BUF && c.output.pending != []
  }

  /** The arguments of a request, as the server sees them. */
  function Seen(args: seq<bytes>): (s: seq<bytes>)
    ensures |s| == |args| && forall i :: 0 <= i < |args| ==> s[i] == CStr(args[i])
    ensures forall a :: a in s ==> IsCString(a)
  {
    seq(|args|, i requires 0 <= i < |args| => CStr(args[i]))
  }

  lemma SeenStrings(r: Request, cmd: byte, args: seq<bytes>)
    requires P.Carries(r, cmd, args)
    ensures r.cmd == cmd && r.nargs as nat <= MAX_ARGS && Strings(r) == Seen(args)
  {
    forall i | 0 <= i < |args| ensures CStr(r.args[i]) == CStr(args[i]) {
      assert P.HasArg(r, i, args[i]);
      CStrAt(r.args[i], |args[i]|);
    }
  }

  /** What has arrived is parsed as if it had arrived at once. */
  lemma ParsesOn(d: Peer, got: bytes)
    requires Waiting(d) && P.Initial(d.base) && |got| <= SERVER_BUF
    ensures var c := Parsed(d.conn, got);
            && c == d.conn.(parser := c.parser, input := c.input) && c.input.capacity == SERVER_BUF
            && c.parser == Consume(P.Feed, P.IsDone, d.base, d.asked + got).0
            && match P.Grammar(d.asked + got)
               case More => !P.IsDone(c.parser) && c.input == Fresh(SERVER_BUF)
               case Bad(_) => c.parser.state.Failed?
               case Command(cmd, args, _) => c.parser.state.Done? && P.Carries(c.parser.request, cmd, args)
  {
    hide Consume, P.Feed, P.Grammar, P.Carries, Parsed;
    P.MeetsGrammar(d.base, d.asked + got);
    ConsumeSplit(P.Feed, P.IsDone, d.base, d.asked, got);
    ParsedIs(d.conn, got);
    var q := Consume(P.Feed, P.IsDone, d.conn.parser, got).0;
    if !P.IsDone(q) { TakesAll(d.conn.parser, got); }
  }

  lemma ParsedIs(c: Conn, got: bytes)
    requires c.input == Fresh(SERVER_BUF) && |got| <= SERVER_BUF
    ensures var (q, n) := Consume(P.Feed, P.IsDone, c.parser, got);
            var c' := Parsed(c, got);
            && c' == c.(parser := q, input := c'.input) && c'.input.capacity == SERVER_BUF
            && (n == |got| ==> c'.input == Fresh(SERVER_BUF))
  {
    hide Consume, P.Feed;
    assert [] + got == got;
  }

  lemma TakesAll(p: P.Parser, s: bytes)
    requires !P.IsDone(Consume(P.Feed, P.IsDone, p, s).0)
    ensures Consume(P.Feed, P.IsDone, p, s).1 == |s|
  {
  }

  /** What the peer's bytes come to once `got` has arrived. */
  ghost predicate ComesTo(d: Peer, got: bytes, d': Peer) {
    match P.Grammar(d.asked + got)
    case More => d'.conn.open && !d'.conn.writing && d'.conn.authed == d.conn.authed && d'.world == d.world && d'.conn.output.pending == []
    case Bad(_) => !d'.conn.open && d'.conn.authed == d.conn.authed && d'.world == d.world && d'.conn.output.pending == []
    case Command(cmd, args, _) =>
      && d'.conn.open && d'.conn.writing
      && Told(d.world, d.conn.authed, cmd, Seen(args), d'.world, d'.conn.authed, d'.conn.output.pending)
  }

  lemma ArrivesInv(d: Peer, got: bytes)
    requires Inv(d) && Legal(d, Arrives(got))
    ensures Inv(Step(d, Arrives(got))) && ComesTo(d, got, Step(d, Arrives(got)))
  {
    hide Consume, P.Feed, P.Grammar, P.Carries, Sane, Parsed, Processed, Told;
    ParsesOn(d, got);
    var c := Parsed(d.conn, got);
    match P.Grammar(d.asked + got) {
      case More =>
      case Bad(_) =>
      case Command(cmd, args, _) => Answers(c, d.world, cmd, args);
    }
  }

  lemma Answers(c: Conn, w: World, cmd: byte, args: seq<bytes>)
    requires Sane(w) && c.output == Fresh(SERVER_BUF) && c.input.capacity == SERVER_BUF && P.Carries(c.parser.request, cmd, args)
    ensures var (c', w') := Processed(c, w);
            && c' == c.(authed := c'.authed, output := c'.output, writing := true) && Replying(c') && Sane(w')
            && Told(w, c.authed, cmd, Seen(args), w', c'.authed, c'.output.pending)
  {
    hide P.Carries, Sane, Respond, Told, Strings;
    SeenStrings(c.parser.request, cmd, args);
    assert |Seen(args)| <= 2 by { ArgCount(c.parser.request, cmd, args); }
    RespondTells(w, c.authed, cmd, Seen(args));
    RepliesFit(w, c.authed, cmd, Seen(args));
    var (w', authed', reply) := Respond(w, c.authed, cmd, Seen(args));
    Queues(reply);
  }

  lemma ArgCount(r: Request, cmd: byte, args: seq<bytes>)
    requires P.Carries(r, cmd, args)
    ensures |args| <= 2
  {
  }

  lemma Queues(r: Reply)
    requires r.payload.Some? ==> 0 < |r.payload.value| <= PAYLOAD_MAX
    ensures var q := Queue(Fresh(SERVER_BUF), r); q.Valid() && q.capacity == SERVER_BUF && q.pending == Out(r) != []
  {
    assert [] + Out(r) == Out(r);
  }

  lemma StepInv(d: Peer, e: Event)
    requires Inv(d) && Legal(d, e)
    ensures Inv(Step(d, e))
  {
    hide Sane, P.Feed;
    if e.Arrives? { ArrivesInv(d, e.got); }
  }

  lemma StartInv(d: Peer)
    requires Starts(d)
    ensures Inv(d)
  {
  }

  lemma {:induction false} RunInv(d: Peer, es: seq<Event>)
    requires Inv(d) && Run(d, es)
    ensures Inv(After(d, es))
    decreases |es|
  {
    hide Inv;
    if es != [] {
      StepInv(d, es[0]);
      RunInv(Step(d, es[0]), es[1..]);
    }
  }

  /**
   * Whatever a peer has sent and however it was cut, what it sends next either
   * leaves its request incomplete, or closes the connection because no request
   * starts like that, or is answered as the table says.
   */
  lemma AnsweredAsTold(d: Peer, es: seq<Event>, got: bytes)
    requires Starts(d) && Run(d, es) && Legal(After(d, es), Arrives(got))
    ensures ComesTo(After(d, es), got, Step(After(d, es), Arrives(got)))
  {
    hide Inv, Starts, Legal, Step, ComesTo;
    StartInv(d);
    RunInv(d, es);
    ArrivesInv(After(d, es), got);
  }

  /** What has arrived is an AUTH whose credentials the table holds. */
  ghost predicate Identifies(d: Peer, e: Event) {
    && e.Arrives?
    && match P.Grammar(d.asked + e.got)
       case Command(cmd, args, _) =>
         && cmd == 0 && |args| == 2
         && CStr(args[0]) in U.Users(d.world.users) && U.Users(d.world.users)[CStr(args[0])] == CStr(args[1])
       case _ => false
  }

  /** Some event of a run was such an AUTH. */
  ghost predicate Identified(d: Peer, es: seq<Event>)
    requires Run(d, es)
    decreases |es|
  {
    es != [] && (Identifies(d, es[0]) || Identified(Step(d, es[0]), es[1..]))
  }

  /** What others have made of the shared state. */
  function Others(w: World, es: seq<Event>): World
    decreases |es|
  {
    if es == [] then w else Others(if es[0].Elsewhere? then es[0].w else w, es[1..])
  }

  /** Nothing but whole refusals. */
  predicate Refusals(s: bytes) {
    |s| % 4 == 0 && forall i :: 0 <= i < |s| ==> s[i] == if i % 4 < 2 then 1 else 0
  }

  lemma ArrivesFrom(d: Peer, got: bytes)
    requires Inv(d) && Legal(d, Arrives(got))
    ensures var d' := Step(d, Arrives(got));
            && d'.conn.authed == (d.conn.authed || Identifies(d, Arrives(got))) && d'.sent == d.sent && d.conn.output.pending == []
            && (!d'.conn.authed ==> d'.world == d.world && (d'.conn.output.pending == [] || d'.conn.output.pending == [1, 1, 0, 0]))
  {
    hide P.Grammar, U.Users, TellsUsers, TellsMetrics, TellsLog, Receive, Sane;
    ArrivesInv(d, got);
  }

  lemma StepFrom(d: Peer, e: Event)
    requires Inv(d) && Legal(d, e)
    ensures var d' := Step(d, e);
            && d'.conn.authed == (d.conn.authed || Identifies(d, e))
            && (!d'.conn.authed ==>
                  && d'.world == (if e.Elsewhere? then e.w else d.world)
                  && (Refusals(d.sent + d.conn.output.pending) ==> Refusals(d'.sent + d'.conn.output.pending)))
  {
    hide Inv, Sane, P.Grammar, P.Feed, Receive;
    match e {
      case Arrives(got) =>
        ArrivesFrom(d, got);
        assert d.sent + [] == d.sent;
      case Leaves(n) =>
        var p := d.conn.output.pending;
        assert p == p[..n] + p[n..];
        assert d.sent + p[..n] + p[n..] == d.sent + p;
      case _ =>
    }
  }

  lemma {:induction false} RunFrom(d: Peer, es: seq<Event>)
    requires Inv(d) && Run(d, es)
    ensures var d' := After(d, es);
            && d'.conn.authed == (d.conn.authed || Identified(d, es))
            && (!d'.conn.authed ==>
                  && d'.world == Others(d.world, es)
                  && (Refusals(d.sent + d.conn.output.pending) ==> Refusals(d'.sent + d'.conn.output.pending)))
    decreases |es|
  {
    hide Inv, Legal, Step, Identifies, Refusals;
    if es != [] {
      StepInv(d, es[0]);
      StepFrom(d, es[0]);
      RunFrom(Step(d, es[0]), es[1..]);
    }
  }

  /**
   * A peer is authenticated exactly once it has sent an AUTH whose credentials
   * the table held.  Until then it has changed nothing, and all it has been
   * told is AUTH_FAIL, however often and without payload.
   */
  lemma OutsidersChangeNothing(d: Peer, es: seq<Event>)
    requires Starts(d) && Run(d, es)
    ensures var d' := After(d, es);
            && (d'.conn.authed <==> Identified(d, es))
            && (!Identified(d, es) ==> d'.world == Others(d.world, es) && Refusals(d'.sent + d'.conn.output.pending))
  {
    hide Inv;
    StartInv(d);
    RunFrom(d, es);
  }

  // The messages, with their bytes written out.

  /** AUTH "a" "b", DEL_USER "bob" and LIST_USERS, and what cannot be a request. */
  lemma RequestsWritten()
    ensures P.Grammar([1, 0, 2, 1, 1, 97, 98]) == P.Command(0, [[97], [98]], 7)
    ensures P.Grammar([1, 2, 1, 3, 98, 111, 98]) == P.Command(2, [[98, 111, 98]], 7)
    ensures P.Grammar([1, 3, 0]) == P.Command(3, [], 3)
    ensures P.Grammar([2]).Bad? && P.Grammar([1, 1, 3]).Bad?
  {
    var m, l := [1, 0, 2, 1, 1, 97, 98], [1, 2, 1, 3, 98, 111, 98];
    assert P.ArgAt(m, 0) == 5 && P.ArgAt(m, 1) == 6 && P.ArgAt(m, 2) == 7;
    assert P.ArgAt(l, 0) == 4 && P.ArgAt(l, 1) == 7;
    assert m[5..6] == [97] && m[6..7] == [98] && l[4..7] == [98, 111, 98];
  }

  /** What the client sends to delete "bob" as "a" with password "b". */
  lemma QuestionsWritten()
    ensures var j := Job([97], [98], DelUser([98, 111, 98]));
            && RequestOf(j, 0).Some? && RequestBytes(RequestOf(j, 0).value) == [1, 0, 2, 1, 1, 97, 98]
            && RequestOf(j, 1).Some? && RequestBytes(RequestOf(j, 1).value) == [1, 2, 1, 3, 98, 111, 98]
  {
    var j := Job([97], [98], DelUser([98, 111, 98]));
    var a, b := RequestOf(j, 0).value, RequestOf(j, 1).value;
    JoinedTwo(a);
    JoinedTwo(b);
    assert a.args[0][..1] == [97] && a.args[1][..1] == [98] && b.args[0][..3] == [98, 111, 98];
  }

  lemma JoinedTwo(r: Request)
    ensures Joined(r, 1) == r.args[0][..r.lens[0]]
    ensures Joined(r, 2) == r.args[0][..r.lens[0]] + r.args[1][..r.lens[1]]
  {
    assert Joined(r, 0) == [];
  }

  /** The payloads of a listing of "ab", of metrics, and of one log entry. */
  lemma PayloadsWritten()
    ensures UsersPayload([[97, 98]]) == [1, 2, 97, 98]
    ensures MetricsPayload(1, 256, 65538)
            == [0, 0, 0, 0, 0, 0, 0, 1] + [0, 0, 0, 0, 0, 0, 1, 0] + [0, 0, 0, 0, 0, 1, 0, 2]
    ensures LogPayload([Entry([97], [98, 99], 443, 258)])
            == [0, 1] + [0, 0, 0, 0, 0, 0, 1, 2] + [1, 187] + [1, 97] + [2, 98, 99]
  {
    hide Be;
    forall v: nat | v < 0x100_0000 ensures Be(v, 8) == [0, 0, 0, 0, 0, v / 65536, v / 256 % 256, v % 256] { LongBe(v); }
    ShortBe(443);
    ShortBe(1);
    var e := Entry([97], [98, 99], 443, 258);
    assert [[97, 98]][..0] == [] && [e][..0] == [];
    assert NamesBody([[97, 98]]) == [] + Prefixed([97, 98]);
    assert LogBody([e]) == [] + EntryBytes(e);
  }

  lemma ShortBe(v: nat)
    requires v < 0x1_0000
    ensures Be(v, 2) == [v / 256, v % 256]
  {
    assert Be(v / 256, 1) == Be(v / 256 / 256, 0) + [v / 256 % 256];
    assert Be(v, 2) == Be(v / 256, 1) + [v % 256];
  }

  lemma LongBe(v: nat)
    requires v < 0x100_0000
    ensures Be(v, 8) == [0, 0, 0, 0, 0, v / 65536, v / 256 % 256, v % 256]
  {
    NoBe(5);
    assert Be(v / 65536, 6) == Be(0, 5) + [v / 65536];
    assert Be(v / 256, 7) == Be(v / 65536, 6) + [v / 256 % 256];
    assert Be(v, 8) == Be(v / 256, 7) + [v % 256];
  }

  lemma {:induction false} NoBe(n: nat)
    ensures Be(0, n) == Zeros(n)
  {
    if n > 0 { NoBe(n - 1); }
  }
}
