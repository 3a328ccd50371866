/**
 * One monitoring connection end to end: the server's handlers
 * (src/server/mon_nio.c), the client's state machine (src/client/mon_client.c)
 * and the lossless byte streams between them, cut anywhere.
 */
module MonSession {
  import opened Bytes
  import opened Pipes
  import opened Chunks
  import opened MonProtocol
  import P = MonParser
  import opened AccessLog
  import opened MonPayload
  import U = UserTable

  const CMD_AUTH: byte := 0
  const CMD_ADD_USER: byte := 1
  const CMD_DEL_USER: byte := 2
  const CMD_LIST_USERS: byte := 3
  const CMD_GET_METRICS: byte := 4
  const CMD_GET_ACCESS_LOG: byte := 5

  const OK: byte := 0
  const AUTH_FAIL: byte := 1
  const UNKNOWN_CMD: byte := 2
  const USER_EXISTS: byte := 3
  const USER_NOT_FOUND: byte := 4
  const INTERNAL_ERROR: byte := 5

  const SERVER_BUF: nat := 4096
  const CLIENT_READ_BUF: nat := 4 + 0x1_0000
  const CLIENT_WRITE_BUF: nat := 1024

  // The server.

  /** What every connection of the server shares. */
  datatype World = World(users: U.Slots, historic: uint64, current: uint64, transferred: uint64, log: seq<Entry>)

  ghost predicate Sane(w: World) {
    U.Valid(w.users) && AllSized(w.log)
  }

  datatype Reply = Reply(status: byte, payload: Option<bytes>)

  lemma ListFits(t: U.Slots)
    requires U.Valid(t)
    ensures Short(U.Names(t)) && |U.Names(t)| <= 10 && |NamesBody(U.Names(t))| <= 256 * |U.Names(t)|
  {
    U.ListsEveryUserOnce(t);
    forall n | n in U.Names(t) ensures |n| < 256 {
      U.UsersAt(t, n);
      assert t[U.Find(t, n)].Some?;
    }
    NamesBodyBound(U.Names(t));
  }

  lemma {:induction false} NamesBodyBound(ns: seq<bytes>)
    requires Short(ns)
    ensures |NamesBody(ns)| <= 256 * |ns|
    decreases |ns|
  {
    if ns != [] { NamesBodyBound(ns[..|ns| - 1]); }
  }

  /** `mon_process_request`: the new shared state, whether the peer is authenticated now, and the reply. */
  ghost function Respond(w: World, authed: bool, cmd: byte, args: seq<bytes>): (World, bool, Reply)
    requires Sane(w)
  {
    if !authed && cmd != CMD_AUTH then (w, authed, Reply(AUTH_FAIL, None))
    else if cmd == CMD_AUTH then
      if |args| < 2 || !U.Lookup(w.users, args[0], args[1]) then (w, authed, Reply(AUTH_FAIL, None))
      else (w, true, Reply(OK, None))
    else if cmd == CMD_ADD_USER then
      if |args| < 2 then (w, authed, Reply(INTERNAL_ERROR, None))
      else
        var (t, ok) := U.Add(w.users, args[0], args[1]);
        (w.(users := t), authed, Reply(if ok then OK else USER_EXISTS, None))
    else if cmd == CMD_DEL_USER then
      if |args| < 1 then (w, authed, Reply(INTERNAL_ERROR, None))
      else
        var (t, ok) := U.Remove(w.users, args[0]);
        (w.(users := t), authed, Reply(if ok then OK else USER_NOT_FOUND, None))
    else if cmd == CMD_LIST_USERS then
      ListFits(w.users);
      (w, authed, Reply(OK, Some(UsersPayload(U.Names(w.users)))))
    else if cmd == CMD_GET_METRICS then
      (w, authed, Reply(OK, Some(MetricsPayload(w.historic, w.current, w.transferred))))
    else if cmd == CMD_GET_ACCESS_LOG then
      FitsDown(w.log, LongestFit(w.log), 0);
      (w, authed, Reply(OK, Some(LogPayload(Last(w.log, LongestFit(w.log))))))
    else (w, authed, Reply(UNKNOWN_CMD, None))
  }

  /** No reply outgrows its response: encoding never fails and no listing is cut short. */
  lemma RepliesFit(w: World, authed: bool, cmd: byte, args: seq<bytes>)
    requires Sane(w) && forall a :: a in args ==> IsCString(a)
    ensures var (w', authed', reply) := Respond(w, authed, cmd, args);
            && Sane(w')
            && (reply.payload.Some? ==> 0 < |reply.payload.value| <= PAYLOAD_MAX && reply.status == OK)
            && (reply.status == OK ==> authed')
  {
    hide U.Valid, U.Lookup, U.Add, U.Remove, Fits, Longest;
    ListFits(w.users);
    if cmd == CMD_ADD_USER && |args| >= 2 { U.AddLaw(w.users, args[0], args[1]); }
    if cmd == CMD_DEL_USER && |args| >= 1 { U.RemoveLaw(w.users, args[0]); }
    LogFits(w.log);
  }

  lemma LogFits(log: seq<Entry>)
    requires AllSized(log)
    ensures LongestFit(log) <= 340 && |LogPayload(Last(log, LongestFit(log)))| <= PAYLOAD_MAX
  {
    FitsDown(log, LongestFit(log), 0);
    assert Fits(log, LongestFit(log));
  }

  function ResponseOf(r: Reply): Response
    requires r.payload.Some? ==> |r.payload.value| < 0x1_0000
  {
    Response(VERSION, r.status, if r.payload.Some? then |r.payload.value| else 0, r.payload)
  }

  /** The arguments as the server uses them: C strings in the parser's arrays. */
  function Strings(r: Request): seq<bytes>
    requires r.nargs as nat <= MAX_ARGS
  {
    seq(r.nargs as nat, i requires 0 <= i < r.nargs as nat => CStr(r.args[i]))
  }

  datatype Conn = Conn(parser: P.Parser, input: Pipe, output: Pipe, authed: bool, open: bool, writing: bool)

  /** `send_response` into a write buffer. */
  function Queue(output: Pipe, r: Reply): Pipe
    requires r.payload.Some? ==> |r.payload.value| < 0x1_0000
  {
    var s := ResponseBytes(ResponseOf(r));
    if |s| <= output.room then output.Put(s) else output
  }

  /** What arrived is stored and parsed. */
  function Parsed(c: Conn, got: bytes): Conn
    requires |got| <= c.input.room
  {
    var input := c.input.Put(got);
    var (p, n) := Consume(P.Feed, P.IsDone, c.parser, input.pending);
    c.(parser := p, input := input.Take(n))
  }

  /** A request that is complete is processed at once. */
  ghost function Processed(c: Conn, w: World): (Conn, World)
    requires Sane(w)
  {
    var r := c.parser.request;
    StringsAre(r);
    RepliesFit(w, c.authed, r.cmd, Strings(r));
    var (w', authed, reply) := Respond(w, c.authed, r.cmd, Strings(r));
    (c.(authed := authed, output := Queue(c.output, reply), writing := true), w')
  }

  /** `mon_read` when bytes arrived. */
  ghost function Receive(c: Conn, w: World, got: bytes): (Conn, World)
    requires Sane(w) && |got| <= c.input.room
  {
    var c' := Parsed(c, got);
    if c'.parser.state.Failed? then (c'.(open := false), w)
    else if c'.parser.state.Done? then Processed(c', w)
    else (c', w)
  }

  lemma StringsAre(r: Request)
    requires r.nargs as nat <= MAX_ARGS
    ensures forall a :: a in Strings(r) ==> IsCString(a)
  {
  }

  /** `mon_parser_init` */
  function Reinit(p: P.Parser): (q: P.Parser)
    ensures P.Initial(q)
  {
    P.Fields(P.Version, p.request.(version := 0, cmd := 0, nargs := 0), 0, 0)
  }

  /** `mon_write` when `n` bytes left. */
  function Send(c: Conn, n: nat): Conn
    requires n <= |c.output.pending|
  {
    var output := c.output.Take(n);
    if output.pending != [] then c.(output := output)
    else c.(output := Fresh(output.capacity), input := Fresh(c.input.capacity), parser := Reinit(c.parser), writing := false)
  }

  // The client.

  datatype Command = ShowMetrics | ListUsers | ShowLog | AddUser(user: bytes, pass: bytes) | DelUser(user: bytes)

  /** The command line: who asks, and for what. */
  datatype Job = Job(user: bytes, pass: bytes, command: Command)

  /** Command-line strings are C strings. */
  ghost predicate Typed(j: Job) {
    && IsCString(j.user) && IsCString(j.pass)
    && (j.command.AddUser? ==> IsCString(j.command.user) && IsCString(j.command.pass))
    && (j.command.DelUser? ==> IsCString(j.command.user))
  }

  /** `fill_arg` for each string, over a zeroed request; it fails for a string of more than 255 bytes. */
  function Build(cmd: byte, args: seq<bytes>): Option<Request>
    requires |args| <= MAX_ARGS
  {
    if exists a :: a in args && |a| > 255 then None
    else
      var a0 := if |args| > 0 then args[0] else [];
      var a1 := if |args| > 1 then args[1] else [];
      Some(MonProtocol.Request(VERSION, cmd, |args|, [|a0|, |a1|], [Stored(a0), Stored(a1)]))
  }

  function CmdOf(c: Command): byte {
    match c
    case ShowMetrics => CMD_GET_METRICS
    case ListUsers => CMD_LIST_USERS
    case ShowLog => CMD_GET_ACCESS_LOG
    case AddUser(_, _) => CMD_ADD_USER
    case DelUser(_) => CMD_DEL_USER
  }

  function ArgsOfCommand(c: Command): (s: seq<bytes>)
    ensures |s| <= MAX_ARGS
  {
    match c
    case AddUser(u, p) => [u, p]
    case DelUser(u) => [u]
    case _ => []
  }

  /** Command and arguments of the client's first request, then of its second. */
  function Asks(j: Job, k: nat): (r: (byte, seq<bytes>))
    ensures |r.1| <= MAX_ARGS
  {
    if k == 0 then (CMD_AUTH, [j.user, j.pass]) else (CmdOf(j.command), ArgsOfCommand(j.command))
  }

  function RequestOf(j: Job, k: nat): (r: Option<Request>)
    ensures r.Some? ==> r.value.version == VERSION && r.value.nargs as nat <= MAX_ARGS
  {
    Build(Asks(j, k).0, Asks(j, k).1)
  }

  /** Some string of request `k` does not fit an argument of 255 bytes: the credentials first, then the command's strings. */
  predicate TooLong(j: Job, k: nat) {
    if k == 0 then |j.user| > 255 || |j.pass| > 255
    else match j.command
      case AddUser(u, p) => |u| > 255 || |p| > 255
      case DelUser(u) => |u| > 255
      case _ => false
  }

  /** The client refuses to send a request exactly when one of its strings is too long. */
  lemma RefusesExactly(j: Job, k: nat)
    ensures RequestOf(j, k).None? <==> TooLong(j, k)
  {
    var args := Asks(j, k).1;
    assert TooLong(j, k) ==> |args| > 0 && (|args[0]| > 255 || (|args| > 1 && |args[1]| > 255));
    assert forall i :: 0 <= i < |args| ==> args[i] in args;
    assert forall a :: a in args ==> a == args[0] || (|args| > 1 && a == args[1]);
  }

  /** Exit codes of the client. */
  const EXIT_IO: nat := 2
  const EXIT_AUTH: nat := 3
  const EXIT_CMD: nat := 4
  const EXIT_MALFORMED: nat := 5

  datatype Shown = Nothing | Numbers(ns: seq<nat>) | Lines(names: seq<bytes>) | Accesses(es: seq<Entry>) | Added | Deleted

  datatype ClientState = Sending(k: nat) | Receiving(k: nat) | Done | Failed(code: nat)

  datatype Client = Client(state: ClientState, input: Pipe, output: Pipe, shown: Shown)

  /** Building and queueing request `k`, on arrival at its sending state. */
  function Ask(c: Client, j: Job, k: nat): Client {
    var r := RequestOf(j, k);
    if r.Some? && |RequestBytes(r.value)| <= c.output.room
    then c.(output := c.output.Put(RequestBytes(r.value)), state := Sending(k))
    else c.(state := Failed(EXIT_IO))
  }

  function Initial(): Client {
    Client(Sending(0), Fresh(CLIENT_READ_BUF), Fresh(CLIENT_WRITE_BUF), Nothing)
  }

  /** The client once its connect has succeeded. */
  function Connected(j: Job): Client {
    Ask(Initial(), j, 0)
  }

  /** `send_buffer` */
  function ClientSend(c: Client, n: nat): Client
    requires c.state.Sending? && n <= |c.output.pending|
  {
    var c' := c.(output := c.output.Take(n));
    if c'.output.pending == [] then c'.(state := Receiving(c.state.k)) else c'
  }

  /** `on_cmd_ok`: what is printed, or nothing for a payload that is not well formed. */
  function Show(c: Command, payload: Option<bytes>): Shown {
    match c
    case ShowMetrics => var l := ReadMetrics(payload); if l.ok then Numbers(l.lines) else Nothing
    case ListUsers => var l := ReadUsers(payload); if l.ok then Lines(l.lines) else Nothing
    case ShowLog => var l := ReadLog(payload); if l.ok then Accesses(l.lines) else Nothing
    case AddUser(_, _) => Added
    case DelUser(_) => Deleted
  }

  function OnReply(c: Client, j: Job, k: nat, r: Response): Client {
    if k == 0 then
      if r.status != OK then c.(state := Failed(EXIT_AUTH)) else Ask(c, j, 1)
    else if r.status != OK then c.(state := Failed(EXIT_CMD))
    else
      var shown := Show(j.command, r.payload);
      if shown.Nothing? then c.(state := Failed(EXIT_MALFORMED)) else c.(state := Done, shown := shown)
  }

  /** `recv_response` when there is no room to read into, or bytes arrived. */
  function ClientReceive(c: Client, j: Job, got: bytes): Client
    requires c.state.Receiving? && |got| <= c.input.room
  {
    if c.input.room == 0 then c.(state := Failed(EXIT_MALFORMED))
    else
      var input := c.input.Put(got);
      match Decode(input.pending)
      case NeedMore => c.(input := input)
      case Error => c.(input := input, state := Failed(EXIT_MALFORMED))
      case Ok(r, consumed) => OnReply(c.(input := input.Take(consumed)), j, c.state.k, r)
  }
}
