/**
 * The handshake of one connection on values: what each event the loop can
 * dispatch before the relay starts does to its state machine
 * (src/shared/stm.c), its handlers (src/server/socks5.c, src/server/connect.c)
 * and its interests (src/server/socks5nio.c).
 *
 * A handler that does not exist is not a precondition here: calling it aborts
 * the process, and sets `aborted`.  Opening an origin descriptor while one is
 * open sets it too.  Fields marked "history" are not in the program, and no
 * step reads them.
 */
module HandshakeSpec {
  import opened Bytes
  import opened Pipes
  import opened Chunks
  import RelaySpec
  import H = Hello
  import A = Auth
  import R = Request
  import U = UserTable

  type Interest = RelaySpec.Interest

  const NOOP: Interest := RelaySpec.Interest.Interest(false, false)
  const READ: Interest := RelaySpec.Interest.Interest(true, false)
  const WRITE: Interest := RelaySpec.Interest.Interest(false, true)

  const CAPACITY: nat := 4096

  datatype State =
    | HelloRead | HelloWrite | AuthRead | AuthWrite | RequestRead | Connecting | RequestWrite | Relay | Done | Error

  /** A socket address: one made of the bytes of a request, or one that `getaddrinfo` gave. */
  datatype Addr = Direct(atyp: byte, address: bytes, port: bytes) | Resolved(n: nat)

  /** One entry of what `getaddrinfo` found. */
  datatype Info = Info(addr: Addr, stream: bool)

  /** The host and the service that `getaddrinfo` is given. */
  datatype Query = Query(host: bytes, service: nat)

  /** Whose name resolution is where: the worker's part is one store and one notification. */
  datatype Dns = NotAsked | Asked(job: Query) | Stored | Answered

  datatype Origin = NoOrigin | Pending | Up

  /** The destination `access_log_add` is given: a name, the text of a numeric address, or NULL. */
  datatype Destination = Named(name: bytes) | Numeric(atyp: byte, address: bytes) | Null

  /** The arguments of `access_log_add`. */
  datatype Access = Access(user: bytes, dest: Destination, port: nat)

  datatype Conn = Conn(
    current: Option<State>,        // stm.current, None for NULL
    input: Pipe,
    output: Pipe,
    hello: H.Parser,
    auth: A.Parser,
    request: R.Parser,
    authStatus: byte,
    reply: byte,
    client: Interest,
    origin: Origin,
    originInterest: Interest,
    dns: Dns,
    dnsError: int,
    dnsResult: Option<seq<Info>>,
    dnsNext: seq<Info>,
    relaying: bool,
    open: bool,
    aborted: bool,
    logged: seq<Access>,           // what the access log was given
    received: bytes,               // history: every byte read from the client
    sent: bytes,                   // history: every byte written to it
    heard: seq<bytes>,             // history: the messages whose parsers are done
    taken: bytes,                  // history: what the current message's parser has taken
    users: Option<U.Slots>,        // history: the user table when credentials were compared
    tried: seq<Addr>,              // history: addresses dialled, in order
    lastError: nat,                // history: the errno of what failed last on the way to the origin
    waited: bool,                  // history: whether that was a connect that had been waited for
    answer: bytes)                 // history: the reply to the request, once marshalled

  // System calls.

  /** `register_origin_connect`: its calls in order, up to the first that fails. */
  datatype Attempt =
    | NoSocket(e: nat)             // socket() or fcntl() failed
    | Fails(e: nat)                // connect() failed
    | Now(registered: bool)        // connected at once
    | Later(registered: bool)      // EINPROGRESS

  const EINPROGRESS: nat := 115
  const ENETUNREACH: nat := 101
  const EHOSTUNREACH: nat := 113
  const ECONNREFUSED: nat := 111

  /** An errno that reports a failure. */
  predicate Fault(e: nat) {
    e != 0 && e != EINPROGRESS
  }

  /** What an attempt that failed failed with; a selector that refuses the descriptor counts as a refused connection. */
  function Errno(a: Attempt): nat {
    match a
    case NoSocket(e) => e
    case Fails(e) => e
    case _ => ECONNREFUSED
  }

  predicate AttemptOk(a: Attempt) {
    a.NoSocket? || a.Fails? ==> Fault(a.e)
  }

  /** What the outside world answers while one event is handled. */
  datatype World = World(
    users: U.Slots,                // the user table
    dnsStart: nat,                 // 0 once dns_resolve_start has a worker running, else its errno
    attempts: seq<Attempt>,        // of each connection attempt the handler makes
    local: Option<R.Sockaddr>)     // getsockname of the origin socket

  datatype Event =
    | Readable(result: RelaySpec.ReadResult, w: World)
    | Writable(written: RelaySpec.WriteResult)
    | OriginWritable(error: nat, w: World)                              // SO_ERROR, or getsockopt's errno
    | WorkerStores(failure: int, found: Option<seq<Info>>, queued: bool) // queued: its malloc succeeds
    | BlockDone(w: World)

  // connect.c

  /** `connect_reply_from_errno` */
  function ReplyFor(e: nat): (r: byte)
    ensures (r == 0 <==> e == 0) && (r == 3 <==> e == 101) && (r == 4 <==> e == 113) && (r == 5 <==> e == 111)
    ensures r == 0 || r == 1 || 3 <= r <= 5
  {
    if e == 0 then R.SUCCEEDED
    else if e == ENETUNREACH then R.NETWORK_UNREACHABLE
    else if e == EHOSTUNREACH then R.HOST_UNREACHABLE
    else if e == ECONNREFUSED then R.CONNECTION_REFUSED
    else R.GENERAL_FAILURE
  }

  /** `register_origin_connect` */
  function Dial(c: Conn, addr: Addr, a: Attempt): (Conn, nat) {
    var c1 := c.(tried := c.tried + [addr], aborted := c.aborted || !c.origin.NoOrigin?);
    var failed := c1.(lastError := Errno(a), waited := false);
    match a
    case NoSocket(e) => (failed, e)
    case Fails(e) => (failed, e)
    case Now(registered) =>
      if registered then (c1.(origin := Up, originInterest := NOOP, reply := R.SUCCEEDED), 0)
      else (failed, ECONNREFUSED)
    case Later(registered) =>
      if registered then (c1.(origin := Pending, originInterest := WRITE), EINPROGRESS)
      else (failed, ECONNREFUSED)
  }

  /** The loop of `start_resolved_connect`, from `dns_next`; `last` is the error it would return. */
  function DialNext(c: Conn, last: nat, attempts: seq<Attempt>): (Conn, nat)
    requires |attempts| >= |c.dnsNext|
    decreases |c.dnsNext|
  {
    if c.dnsNext == [] then (c, last)
    else
      var info := c.dnsNext[0];
      var c1 := c.(dnsNext := c.dnsNext[1..]);
      if !info.stream then DialNext(c1, last, attempts[1..])
      else
        var (c2, status) := Dial(c1, info.addr, attempts[0]);
        if status == 0 || status == EINPROGRESS then (c2, status) else DialNext(c2, status, attempts[1..])
  }

  /** `start_resolved_connect` */
  function StartResolved(c: Conn, w: World): (Conn, nat)
    requires |w.attempts| >= |c.dnsNext|
  {
    if c.dnsError != 0 || c.dnsResult.None? then (c, EHOSTUNREACH) else DialNext(c, EHOSTUNREACH, w.attempts)
  }

  /** The address that `start_ipv4_connect` and `start_ipv6_connect` dial. */
  function Target(c: Conn): Addr {
    Direct(c.request.atyp, c.request.address[..if c.request.atyp == R.IPV4 then 4 else 16], c.request.port)
  }

  /** What `dns_resolve_start` has a worker look up. */
  function Wanted(c: Conn): Query {
    Query(CStr(c.request.address[..c.request.addressLen]), c.request.port[0] as nat * 256 + c.request.port[1] as nat)
  }

  /** `connect_to_origin`; a literal address is one attempt. */
  function ConnectToOrigin(c: Conn, w: World): (Conn, nat)
    requires |w.attempts| >= |c.dnsNext| && |w.attempts| >= 1
  {
    if c.request.atyp == R.IPV4 || c.request.atyp == R.IPV6 then Dial(c, Target(c), w.attempts[0])
    else if c.request.atyp != R.DOMAINNAME then (c, 97)
    else if c.dns.Asked? then (c, EINPROGRESS)
    else if c.dnsResult.Some? || c.dnsError != 0 then StartResolved(c, w)
    else if w.dnsStart != 0 then (c.(lastError := w.dnsStart, waited := false), w.dnsStart)
    else (c.(dns := Asked(Wanted(c)), dnsError := 0, dnsResult := None, dnsNext := []), EINPROGRESS)
  }

  /** `connect_marshall_reply` */
  function MarshallReply(c: Conn, w: World): (Conn, State) {
    var bytes := R.Reply(c.reply, R.Bound(if c.reply == R.SUCCEEDED && !c.origin.NoOrigin? then w.local else None));
    if |bytes| <= c.output.room then (c.(output := c.output.Put(bytes), answer := bytes), RequestWrite) else (c, Error)
  }

  // The state machine.

  /** The `on_arrival` handlers. */
  function Arrive(c: Conn, s: State): Conn {
    match s
    case HelloRead => c.(hello := H.Init)
    case AuthRead =>
      c.(authStatus := A.FAILURE, auth := A.Reinit(c.auth), taken := [])
    case RequestRead =>
      c.(reply := R.GENERAL_FAILURE, request := R.Reinit(c.request), taken := [])
    case _ => c
  }

  /** `handle_first` */
  function First(c: Conn): Conn {
    if c.current.None? then Arrive(c.(current := Some(HelloRead)), HelloRead) else c
  }

  /** `jump` */
  function Jump(c: Conn, next: State): Conn {
    if c.current == Some(next) then c else Arrive(c.(current := Some(next)), next)
  }

  /** The message whose parser is done joins those heard. */
  function Heard(c: Conn): Conn {
    c.(heard := c.heard + [c.taken], taken := [])
  }

  function HelloReady(c: Conn): (Conn, State) {
    var (p, n) := Consume(H.Feed, H.IsDone, c.hello, c.input.pending);
    var c1 := c.(hello := p, taken := c.taken + c.input.pending[..n], input := c.input.Take(n));
    if p.state.ErrorVersion? then (c1, Error)
    else if !p.state.Done? then (c1, HelloRead)
    else if c1.output.room < 2 then (c1, Error)
    else (Heard(c1).(output := c1.output.Put(H.Reply(p.selected))), HelloWrite)
  }

  /** The credentials parser has taken what it needed of what there was. */
  function AuthTook(c: Conn): Conn {
    var (p, n) := Consume(A.Feed, A.IsDone, c.auth, c.input.pending);
    c.(auth := p, taken := c.taken + c.input.pending[..n], input := c.input.Take(n))
  }

  /** Credentials that have been read are compared and answered. */
  function AuthAnswer(c: Conn, users: U.Slots): (Conn, State) {
    var status := if U.Lookup(users, CStr(c.auth.uname), CStr(c.auth.passwd)) then A.SUCCESS else A.FAILURE;
    if c.output.room < 2 then (c.(authStatus := status), Error)
    else (Heard(c).(authStatus := status, users := Some(users), output := c.output.Put(A.Reply(status))), AuthWrite)
  }

  function AuthReady(c: Conn, w: World): (Conn, State) {
    var c1 := AuthTook(c);
    if c1.auth.state.ErrorVersion? then (c1, Error)
    else if !c1.auth.state.Done? then (c1, AuthRead)
    else AuthAnswer(c1, w.users)
  }

  function RequestReady(c: Conn, w: World): (Conn, State)
    requires |w.attempts| >= |c.dnsNext| && |w.attempts| >= 1
  {
    var (p, n) := Consume(R.Feed, R.IsDone, c.request, c.input.pending);
    var c1 := c.(request := p, taken := c.taken + c.input.pending[..n], input := c.input.Take(n));
    if p.state.ErrorAtyp? then MarshallReply(c1.(reply := R.ADDRESS_TYPE_NOT_SUPPORTED), w)
    else if p.state.ErrorVersion? then MarshallReply(c1.(reply := R.GENERAL_FAILURE), w)
    else if !p.state.Done? then (c1, RequestRead)
    else if p.command != R.CONNECT then MarshallReply(Heard(c1).(reply := R.COMMAND_NOT_SUPPORTED), w)
    else
      var (c2, status) := ConnectToOrigin(Heard(c1), w);
      if status == EINPROGRESS then (c2, Connecting) else MarshallReply(c2.(reply := ReplyFor(status)), w)
  }

  /** The read handler of the current state, and the jump to the state it returns. */
  function Dispatch(c: Conn, w: World): (Conn, State)
    requires c.current.Some? && |w.attempts| >= |c.dnsNext| && |w.attempts| >= 1
  {
    match c.current.value
    case HelloRead => var (c1, s) := HelloReady(c); (Jump(c1, s), s)
    case AuthRead => var (c1, s) := AuthReady(c, w); (Jump(c1, s), s)
    case RequestRead => var (c1, s) := RequestReady(c, w); (Jump(c1, s), s)
    case s => (c.(aborted := true), s)
  }

  /** `stm_handler_read`; the second result is the state returned. */
  function HandlerRead(c: Conn, w: World): (Conn, State)
    requires |w.attempts| >= |c.dnsNext| && |w.attempts| >= 1
  {
    Dispatch(First(c), w)
  }

  /** `start_relay` */
  function StartRelay(c: Conn): Conn {
    c.(relaying := true, input := Fresh(c.input.capacity), output := Fresh(c.output.capacity),
       client := RelaySpec.Start(0).clientInterest, originInterest := RelaySpec.Start(0).originInterest)
  }

  /** The access log entry of a connection about to relay. */
  function LogEntry(c: Conn): Access {
    Access(CStr(c.auth.uname),
           if c.request.atyp == R.DOMAINNAME then Named(CStr(c.request.address[..c.request.addressLen]))
           else if c.request.atyp == R.IPV4 then Numeric(R.IPV4, c.request.address[..4])
           else if c.request.atyp == R.IPV6 then Numeric(R.IPV6, c.request.address[..16])
           else Null,
           c.request.port[0] as nat * 256 + c.request.port[1] as nat)
  }

  function HandlerWrite(c: Conn): (Conn, State) {
    var c0 := First(c);
    var more := c0.output.pending != [];
    match c0.current.value
    case HelloWrite =>
      var s := if more then HelloWrite else if c0.hello.selected == H.NO_ACCEPTABLE_METHODS then Error else AuthRead;
      (Jump(c0, s), s)
    case AuthWrite =>
      var s := if more then AuthWrite else if c0.authStatus == A.SUCCESS then RequestRead else Error;
      (Jump(c0, s), s)
    case RequestWrite =>
      if more then (c0, RequestWrite)
      else if c0.reply != R.SUCCEEDED then (Jump(c0, Done), Done)
      else (Jump(StartRelay(c0.(logged := c0.logged + [LogEntry(c0)])), Relay), Relay)
    case s => (c0.(aborted := true), s)
  }

  // socks5nio.c

  /** `socks5_connection_close` */
  function Close(c: Conn): Conn {
    c.(open := false, client := NOOP, origin := NoOrigin, originInterest := NOOP)
  }

  /** `socks5_handle_read`'s and `socks5_handle_write`'s choice of action, applied. */
  function Apply(c: Conn, s: State): Conn {
    match s
    case Error => Close(c)
    case Done => Close(c)
    case Connecting => c.(client := NOOP)
    case Relay => c
    case _ => c.(client := if c.output.pending != [] then WRITE else READ)
  }

  function OnReadable(c: Conn, r: RelaySpec.ReadResult, w: World): Conn
    requires r.Data? ==> |r.got| <= c.input.room
    requires |w.attempts| >= |c.dnsNext| && |w.attempts| >= 1
  {
    match r
    case Data(got) =>
      var (c1, s) := HandlerRead(c.(input := c.input.Put(got), received := c.received + got), w);
      if c1.aborted then c1 else Apply(c1, s)
    case Eof => Close(c)
    case ReadAgain => c.(client := READ)
    case ReadFailed => Close(c)
  }

  function OnWritable(c: Conn, r: RelaySpec.WriteResult): Conn
    requires RelaySpec.WriteFits(r, c.output)
  {
    match r
    case Wrote(n) =>
      if n == 0 then Close(c)
      else
        var c1 := c.(output := c.output.Take(n), sent := c.sent + c.output.pending[..n]);
        if c1.output.pending != [] then c1.(client := WRITE)
        else
          var (c2, s) := HandlerWrite(c1);
          if c2.aborted then c2 else Apply(c2, s)
    case WriteAgain => c.(client := WRITE)
    case WriteFailed => Close(c)
  }

  /** The end of `origin_connect_write_handler`: it sets `stm.current` and the client's interest itself. */
  function Announce(c: Conn, w: World): Conn {
    var (c1, s) := MarshallReply(c, w);
    if s.Error? then c1.(current := Some(Error), client := READ)
    else c1.(current := Some(RequestWrite), client := WRITE)
  }

  /** `origin_connect_write_handler` */
  function OnOriginWritable(c: Conn, error: nat, w: World): Conn
    requires |w.attempts| >= |c.dnsNext|
  {
    if error == 0 then Announce(c.(reply := ReplyFor(0), originInterest := NOOP, origin := Up), w)
    else
      var c1 := c.(reply := ReplyFor(error), origin := NoOrigin, originInterest := NOOP, lastError := error, waited := true);
      if c1.request.atyp == R.DOMAINNAME && c1.dnsNext != [] then
        var (c2, status) := StartResolved(c1, w);
        if status == EINPROGRESS then c2 else Announce(c2.(reply := ReplyFor(status)), w)
      else Announce(c1, w)
  }

  /** `socks5_handle_block_done`, with the action it returns applied. */
  function OnBlockDone(c: Conn, w: World): Conn
    requires |w.attempts| >= |c.dnsNext| && |w.attempts| >= 1
  {
    var (c1, status) := ConnectToOrigin(c.(dns := Answered), w);
    if status == EINPROGRESS then c1.(current := Some(Connecting), client := NOOP)
    else
      var (c2, s) := MarshallReply(c1.(reply := ReplyFor(status)), w);
      if s.Error? then Close(c2.(current := Some(Error))) else c2.(current := Some(RequestWrite), client := WRITE)
  }

  ghost predicate WorldOk(c: Conn, w: World) {
    && U.Valid(w.users)
    && |w.attempts| >= |c.dnsNext| && |w.attempts| >= 1
    && (forall a :: a in w.attempts ==> AttemptOk(a))
    && (w.dnsStart != 0 ==> Fault(w.dnsStart))
  }

  /**
   * The events that can be dispatched before the relay: interest allows them,
   * system calls keep their contracts, a read with no room returns 0, and
   * `getaddrinfo` gives a non-empty list or an error.
   */
  ghost predicate Legal(c: Conn, e: Event) {
    && c.open && !c.relaying && !c.aborted
    && match e
       case Readable(r, w) =>
         && c.client.read && WorldOk(c, w)
         && (c.input.room == 0 ==> r == RelaySpec.Eof)
         && (r.Data? ==> 0 < |r.got| <= c.input.room)
       case Writable(r) => c.client.write && RelaySpec.WriteFits(r, c.output)
       case OriginWritable(error, w) =>
         c.origin.Pending? && c.originInterest.write && WorldOk(c, w) && (error != 0 ==> Fault(error))
       case WorkerStores(error, result, _) =>
         c.dns.Asked? && (error == 0 <==> result.Some?) && (result.Some? ==> result.value != [])
       case BlockDone(w) => c.dns.Stored? && WorldOk(c, w)
  }

  ghost function Step(c: Conn, e: Event): Conn
    requires Legal(c, e)
  {
    match e
    case Readable(r, w) => OnReadable(c, r, w)
    case Writable(r) => OnWritable(c, r)
    case OriginWritable(error, w) => OnOriginWritable(c, error, w)
    case WorkerStores(error, result, queued) =>
      c.(dns := if queued then Stored else Answered, dnsError := error, dnsResult := result,
         dnsNext := if result.Some? then result.value else [])
    case BlockDone(w) => OnBlockDone(c, w)
  }

  /** An accepted connection: memory zeroed, client registered for reading. */
  ghost predicate Starts(c: Conn) {
    && c.current.None? && c.input == c.output == Fresh(CAPACITY)
    && c.client == READ && c.origin.NoOrigin? && c.originInterest == NOOP
    && c.dns.NotAsked? && c.dnsError == 0 && c.dnsResult.None? && c.dnsNext == []
    && !c.relaying && c.open && !c.aborted
    && c.logged == [] && c.received == c.sent == c.taken == c.answer == [] && c.heard == [] && c.users.None?
    && c.tried == [] && c.lastError == 0 && !c.waited
  }

  ghost predicate Run(c: Conn, es: seq<Event>)
    decreases |es|
  {
    es != [] ==> Legal(c, es[0]) && Run(Step(c, es[0]), es[1..])
  }

  ghost function After(c: Conn, es: seq<Event>): Conn
    requires Run(c, es)
    decreases |es|
  {
    if es == [] then c else After(Step(c, es[0]), es[1..])
  }
}
