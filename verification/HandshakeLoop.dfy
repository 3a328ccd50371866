/**
 * The handshake handlers over real buffers and parsers.  Each changes the
 * object exactly as HandshakeSpec says, and so does a run of events
 * (`HandleAll`, `Serve`), so what HandshakeTheorems proves of runs holds of it.
 */
module HandshakeLoop {
  import opened Bytes
  import opened Pipes
  import opened Buffers
  import opened Chunks
  import RelaySpec
  import H = Hello
  import A = Auth
  import R = Request
  import U = UserTable
  import opened HandshakeSpec
  import opened HandshakeRuns

  class Handshake {
    const readBuffer: Buffer
    const writeBuffer: Buffer
    const hello: H.HelloParser
    const auth: A.AuthParser
    const request: R.RequestParser
    var current: Option<State>
    var authStatus: byte
    var reply: byte
    var client: Interest
    var origin: Origin
    var originInterest: Interest
    var dns: Dns
    var dnsError: int
    var dnsResult: Option<seq<Info>>
    var dnsNext: seq<Info>
    var relaying: bool
    var open: bool
    var aborted: bool
    var logged: seq<Access>
    ghost var received: bytes
    ghost var sent: bytes
    ghost var heard: seq<bytes>
    ghost var taken: bytes
    ghost var users: Option<U.Slots>
    ghost var tried: seq<Addr>
    ghost var lastError: nat
    ghost var waited: bool
    ghost var answer: bytes

    ghost predicate Valid()
      reads this, readBuffer, writeBuffer, auth, request
    {
      && readBuffer.Valid() && writeBuffer.Valid() && auth.Valid() && request.Valid()
      && readBuffer != writeBuffer && readBuffer.data != writeBuffer.data
      && readBuffer.data != auth.uname && readBuffer.data != auth.passwd
      && readBuffer.data != request.address && readBuffer.data != request.port
      && writeBuffer.data != auth.uname && writeBuffer.data != auth.passwd
      && writeBuffer.data != request.address && writeBuffer.data != request.port
      && auth.uname != request.address && auth.uname != request.port
      && auth.passwd != request.address && auth.passwd != request.port
    }

    ghost function Repr(): set<object> {
      {this, readBuffer, readBuffer.data, writeBuffer, writeBuffer.data, hello,
       auth, auth.uname, auth.passwd, request, request.address, request.port}
    }

    ghost function View(): Conn
      reads this, readBuffer, readBuffer.data, writeBuffer, writeBuffer.data, hello,
            auth, auth.uname, auth.passwd, request, request.address, request.port
      requires Valid()
    {
      Conn(current, readBuffer.View(), writeBuffer.View(), hello.View(), auth.View(), request.View(), authStatus, reply,
           client, origin, originInterest, dns, dnsError, dnsResult, dnsNext, relaying, open, aborted, logged,
           received, sent, heard, taken, users, tried, lastError, waited, answer)
    }

    /** `socks5_init` and the registration of an accepted client. */
    constructor ()
      ensures Valid() && Blank() && fresh(Repr())
    {
      hide Buffer.View;
      readBuffer := new Buffer(CAPACITY);
      writeBuffer := new Buffer(CAPACITY);
      hello := new H.HelloParser();
      auth := new A.AuthParser();
      request := new R.RequestParser();
      current, authStatus, reply := None, 0, 0;
      client, origin, originInterest := READ, NoOrigin, NOOP;
      dns, dnsError, dnsResult, dnsNext := NotAsked, 0, None, [];
      relaying, open, aborted, logged := false, true, false, [];
      received, sent, heard, taken, users, tried, answer := [], [], [], [], None, [], [];
      lastError, waited := 0, false;
    }

    /** The memory of a connection just accepted. */
    ghost predicate Blank()
      reads this, readBuffer, readBuffer.data, writeBuffer, writeBuffer.data, auth, request
      requires Valid()
    {
      && readBuffer.View() == writeBuffer.View() == Fresh(CAPACITY)
      && current.None? && client == READ && origin.NoOrigin? && originInterest == NOOP
      && dns.NotAsked? && dnsError == 0 && dnsResult.None? && dnsNext == [] && !relaying && open && !aborted
      && logged == [] && received == sent == taken == answer == [] && heard == [] && users.None? && tried == []
      && lastError == 0 && !waited
    }

    lemma BlankStarts()
      requires Valid() && Blank()
      ensures Starts(View())
    {
      hide Buffer.View, A.AuthParser.View, R.RequestParser.View, H.HelloParser.View;
    }

    /** What the fields say, the view says. */
    lemma Seen()
      requires Valid()
      ensures var c := View();
              && c.current == current && c.reply == reply && c.authStatus == authStatus
              && c.origin == origin && c.dns == dns && c.dnsError == dnsError && c.dnsResult == dnsResult
              && c.dnsNext == dnsNext && c.aborted == aborted && c.open == open && c.relaying == relaying
              && c.received == received && c.sent == sent && c.heard == heard && c.taken == taken
              && c.input == readBuffer.View() && c.output == writeBuffer.View()
              && c.hello == hello.View() && c.auth == auth.View() && c.request == request.View()
    {
      hide Buffer.View, A.AuthParser.View, R.RequestParser.View, H.HelloParser.View;
    }

    /** What the parsers' fields say, the view says. */
    lemma Parsers()
      requires Valid()
      ensures var c := View();
              && c.hello.selected == hello.selected && c.hello.state == hello.state
              && c.logged == logged && c.request.address == request.address[..] && c.request.port == request.port[..]
              && c.request.addressLen == request.addressLen
              && c.auth.state == auth.state && c.auth.uname == auth.uname[..] && c.auth.passwd == auth.passwd[..]
              && c.request.state == request.state && c.request.command == request.command && c.request.atyp == request.atyp
    {
      hide Buffer.View;
    }

    // The state machine engine.

    method SetAuthStatus(v: byte)
      requires Valid()
      modifies this`authStatus
      ensures Valid() && View() == old(View()).(authStatus := v)
    {
      hide Buffer.View, A.AuthParser.View, R.RequestParser.View, H.HelloParser.View;
      authStatus := v;
    }

    method SetTaken(ghost v: bytes)
      requires Valid()
      modifies this`taken
      ensures Valid() && View() == old(View()).(taken := v)
    {
      hide Buffer.View, A.AuthParser.View, R.RequestParser.View, H.HelloParser.View;
      taken := v;
    }

    method InitAuth()
      requires Valid()
      modifies auth, auth.uname, auth.passwd
      ensures Valid() && View() == old(View()).(auth := A.Reinit(old(View()).auth))
    {
      hide Buffer.View, A.AuthParser.View, R.RequestParser.View, H.HelloParser.View;
      auth.Init();
    }

    method InitRequest()
      requires Valid()
      modifies request, request.port
      ensures Valid() && View() == old(View()).(request := R.Reinit(old(View()).request))
    {
      hide Buffer.View, A.AuthParser.View, R.RequestParser.View, H.HelloParser.View;
      request.Init();
    }

    /** `hello_read_init` */
    method ArriveHello()
      requires Valid()
      modifies hello
      ensures Valid() && View() == Arrive(old(View()), HelloRead)
    {
      hide Buffer.View, A.AuthParser.View, R.RequestParser.View, H.HelloParser.View;
      hello.Reset();
    }

    /** `auth_read_init` */
    method ArriveAuth()
      requires Valid()
      modifies this`authStatus, this`taken, auth, auth.uname, auth.passwd
      ensures Valid() && View() == Arrive(old(View()), AuthRead)
    {
      hide View;
      SetAuthStatus(A.FAILURE);
      InitAuth();
      SetTaken([]);
    }

    /** `request_read_init` */
    method ArriveRequest()
      requires Valid()
      modifies this`reply, this`taken, request, request.port
      ensures Valid() && View() == Arrive(old(View()), RequestRead)
    {
      hide View;
      SetReply(R.GENERAL_FAILURE);
      InitRequest();
      SetTaken([]);
    }

    /** The arrival handler of a state, where it has one. */
    method Arrived(s: State)
      requires Valid()
      modifies this`authStatus, this`reply, this`taken, hello, auth, auth.uname, auth.passwd, request, request.port
      ensures Valid() && View() == Arrive(old(View()), s)
    {
      hide Buffer.View, A.AuthParser.View, R.RequestParser.View, H.HelloParser.View, A.Reinit, R.Reinit;
      match s {
        case HelloRead => ArriveHello();
        case AuthRead => ArriveAuth();
        case RequestRead => ArriveRequest();
        case _ =>
      }
    }

    method SetCurrent(s: State)
      requires Valid()
      modifies this`current
      ensures Valid() && View() == old(View()).(current := Some(s))
    {
      hide Buffer.View, A.AuthParser.View, R.RequestParser.View, H.HelloParser.View;
      current := Some(s);
    }

    /** `handle_first` */
    method HandleFirst()
      requires Valid()
      modifies this`current, this`authStatus, this`reply, this`taken, hello, auth, auth.uname, auth.passwd, request, request.port
      ensures Valid() && View() == First(old(View())) && current.Some?
    {
      hide View, Arrive;
      Seen();
      if current.None? {
        SetCurrent(HelloRead);
        Arrived(HelloRead);
      }
    }

    /** `jump` */
    method JumpTo(next: State)
      requires Valid()
      modifies this`current, this`authStatus, this`reply, this`taken, hello, auth, auth.uname, auth.passwd, request, request.port
      ensures Valid() && View() == Jump(old(View()), next)
    {
      hide View, Arrive;
      Seen();
      if current != Some(next) {
        SetCurrent(next);
        Arrived(next);
      }
    }

    // connect.c

    /** `socket`, about to be connected to `addr`. */
    method OpenSocket(addr: Addr)
      requires Valid()
      modifies this`tried, this`aborted
      ensures Valid()
      ensures View() == old(View()).(tried := old(View()).tried + [addr],
                                     aborted := old(View()).aborted || !old(View()).origin.NoOrigin?)
    {
      hide Buffer.View, A.AuthParser.View, R.RequestParser.View, H.HelloParser.View;
      tried := tried + [addr];
      aborted := aborted || !origin.NoOrigin?;
    }

    method SetFailure(ghost e: nat, ghost byWaiting: bool)
      requires Valid()
      modifies this`lastError, this`waited
      ensures Valid() && View() == old(View()).(lastError := e, waited := byWaiting)
    {
      hide Buffer.View, A.AuthParser.View, R.RequestParser.View, H.HelloParser.View;
      lastError, waited := e, byWaiting;
    }

    method SetOrigin(o: Origin, i: Interest)
      requires Valid()
      modifies this`origin, this`originInterest
      ensures Valid() && View() == old(View()).(origin := o, originInterest := i)
    {
      hide Buffer.View, A.AuthParser.View, R.RequestParser.View, H.HelloParser.View;
      origin, originInterest := o, i;
    }

    method SetReply(code: byte)
      requires Valid()
      modifies this`reply
      ensures Valid() && View() == old(View()).(reply := code)
    {
      hide Buffer.View, A.AuthParser.View, R.RequestParser.View, H.HelloParser.View;
      reply := code;
    }

    method SetClient(i: Interest)
      requires Valid()
      modifies this`client
      ensures Valid() && View() == old(View()).(client := i)
    {
      hide Buffer.View, A.AuthParser.View, R.RequestParser.View, H.HelloParser.View;
      client := i;
    }

    /** `register_origin_connect` */
    method Register(addr: Addr, a: Attempt) returns (status: nat)
      requires Valid()
      modifies this`tried, this`aborted, this`origin, this`originInterest, this`reply, this`lastError, this`waited
      ensures Valid() && (View(), status) == Dial(old(View()), addr, a)
    {
      hide View;
      OpenSocket(addr);
      match a {
        case NoSocket(e) => status := e;
        case Fails(e) => status := e;
        case Now(registered) =>
          if registered {
            SetOrigin(Up, NOOP);
            SetReply(R.SUCCEEDED);
            return 0;
          }
          status := ECONNREFUSED;
        case Later(registered) =>
          if registered {
            SetOrigin(Pending, WRITE);
            return EINPROGRESS;
          }
          status := ECONNREFUSED;
      }
      SetFailure(Errno(a), false);
    }

    /** `start_resolved_connect` */
    method ConnectResolved(w: World) returns (status: nat)
      requires Valid() && |w.attempts| >= |dnsNext|
      modifies this`dnsNext, this`tried, this`aborted, this`origin, this`originInterest, this`reply, this`lastError, this`waited
      ensures Valid() && View().dnsNext == dnsNext && old(View()).dnsNext == old(dnsNext)
      ensures (View(), status) == StartResolved(old(View()), w)
    {
      hide View, DialNext;
      Seen();
      if dnsError != 0 || dnsResult.None? {
        return EHOSTUNREACH;
      }
      status := DialLeft(w);
    }

    method DialLeft(w: World) returns (status: nat)
      requires Valid() && |w.attempts| >= |dnsNext|
      modifies this`dnsNext, this`tried, this`aborted, this`origin, this`originInterest, this`reply, this`lastError, this`waited
      ensures Valid() && View().dnsNext == dnsNext && old(View()).dnsNext == old(dnsNext)
      ensures (View(), status) == DialNext(old(View()), EHOSTUNREACH, w.attempts)
    {
      hide View, DialNext, Dial;
      Seen();
      status := EHOSTUNREACH;
      var i := 0;
      ghost var c := View();
      assert w.attempts[0..] == w.attempts;
      while dnsNext != []
        invariant Valid() && i <= |w.attempts| && |w.attempts| - i >= |dnsNext| && View().dnsNext == dnsNext
        invariant DialNext(View(), status, w.attempts[i..]) == DialNext(c, EHOSTUNREACH, w.attempts)
        decreases |dnsNext|
      {
        DialOne(View(), status, w.attempts[i..]);
        var info, a := dnsNext[0], w.attempts[i];
        SetDnsNext(dnsNext[1..]);
        Seen();
        assert w.attempts[i..][1..] == w.attempts[i + 1..];
        i := i + 1;
        if info.stream {
          status := Register(info.addr, a);
          Seen();
          if status == 0 || status == EINPROGRESS {
            return;
          }
        }
      }
      DialNone(View(), status, w.attempts[i..]);
    }

    method SetDns(v: Dns)
      requires Valid()
      modifies this`dns
      ensures Valid() && View() == old(View()).(dns := v)
    {
      hide Buffer.View, A.AuthParser.View, R.RequestParser.View, H.HelloParser.View;
      dns := v;
    }

    method SetAnswer(error: int, found: Option<seq<Info>>)
      requires Valid()
      modifies this`dnsError, this`dnsResult
      ensures Valid() && View() == old(View()).(dnsError := error, dnsResult := found)
    {
      hide Buffer.View, A.AuthParser.View, R.RequestParser.View, H.HelloParser.View;
      dnsError, dnsResult := error, found;
    }

    method SetDnsNext(v: seq<Info>)
      requires Valid()
      modifies this`dnsNext
      ensures Valid() && View() == old(View()).(dnsNext := v) && dnsNext == v
    {
      hide Buffer.View, A.AuthParser.View, R.RequestParser.View, H.HelloParser.View;
      dnsNext := v;
    }

    /** `dns_resolve_start` once its worker is running. */
    method StartDns()
      requires Valid()
      modifies this`dns, this`dnsError, this`dnsResult, this`dnsNext
      ensures Valid()
      ensures View() == old(View()).(dns := Asked(Wanted(old(View()))), dnsError := 0, dnsResult := None, dnsNext := [])
    {
      hide View, CStr;
      Parsers();
      var host := CStr(request.address[..request.addressLen]);
      SetDns(Asked(Query(host, request.port[0] as nat * 256 + request.port[1] as nat)));
      SetAnswer(0, None);
      SetDnsNext([]);
    }

    /** `connect_to_origin` */
    method Connect(w: World) returns (status: nat)
      requires Valid() && |w.attempts| >= |dnsNext| && |w.attempts| >= 1
      modifies this
      ensures Valid() && View().dnsNext == dnsNext && old(View()).dnsNext == old(dnsNext)
      ensures (View(), status) == ConnectToOrigin(old(View()), w)
    {
      hide View, Dial, StartResolved;
      Seen();
      if request.atyp == R.IPV4 {
        var to := Direct(R.IPV4, request.address[..4], request.port[..]);
        status := Register(to, w.attempts[0]);
      } else if request.atyp == R.IPV6 {
        var to := Direct(R.IPV6, request.address[..16], request.port[..]);
        status := Register(to, w.attempts[0]);
      } else if request.atyp != R.DOMAINNAME {
        status := 97;
      } else if dns.Asked? {
        status := EINPROGRESS;
      } else if dnsResult.Some? || dnsError != 0 {
        status := ConnectResolved(w);
      } else if w.dnsStart != 0 {
        status := w.dnsStart;
        SetFailure(status, false);
      } else {
        StartDns();
        status := EINPROGRESS;
      }
      Seen();
    }

    /** `connect_marshall_reply` */
    method Marshall(w: World) returns (s: State)
      requires Valid()
      modifies this`answer, writeBuffer`write, writeBuffer.data
      ensures Valid() && (View(), s) == MarshallReply(old(View()), w)
    {
      hide Buffer.View, A.AuthParser.View, R.RequestParser.View, H.HelloParser.View, R.Reply, R.Bound;
      var local := if reply == R.SUCCEEDED && !origin.NoOrigin? then w.local else None;
      var n := R.Marshall(writeBuffer, reply, local);
      if n == -1 {
        return Error;
      }
      answer := R.Reply(reply, R.Bound(local));
      s := RequestWrite;
    }

    // socks5.c, the read handlers.

    method SetUsers(ghost v: Option<U.Slots>)
      requires Valid()
      modifies this`users
      ensures Valid() && View() == old(View()).(users := v)
    {
      hide Buffer.View, A.AuthParser.View, R.RequestParser.View, H.HelloParser.View;
      users := v;
    }

    /** The parser is done with its message. */
    method Hear()
      requires Valid()
      modifies this`heard, this`taken
      ensures Valid() && View() == Heard(old(View()))
    {
      hide Buffer.View, A.AuthParser.View, R.RequestParser.View, H.HelloParser.View;
      heard, taken := heard + [taken], [];
    }

    method ConsumeHello() returns (error: bool)
      requires Valid()
      modifies hello, readBuffer, readBuffer.data
      ensures Valid()
      ensures var (p, n) := Consume(H.Feed, H.IsDone, old(View()).hello, old(View()).input.pending);
              && View() == old(View()).(hello := p, input := old(View()).input.Take(n))
              && error == (old(View()).input.pending != [] && p.state.ErrorVersion?)
    {
      hide Buffer.View, A.AuthParser.View, R.RequestParser.View, H.HelloParser.View;
      error := hello.ConsumeFrom(readBuffer);
    }

    method ConsumeAuth() returns (error: bool)
      requires Valid()
      modifies auth, auth.uname, auth.passwd, readBuffer, readBuffer.data
      ensures Valid()
      ensures var (p, n) := Consume(A.Feed, A.IsDone, old(View()).auth, old(View()).input.pending);
              && View() == old(View()).(auth := p, input := old(View()).input.Take(n))
              && error == (old(View()).input.pending != [] && p.state.ErrorVersion?)
    {
      hide Buffer.View, A.AuthParser.View, R.RequestParser.View, H.HelloParser.View;
      error := auth.ConsumeFrom(readBuffer);
    }

    method ConsumeRequest() returns (error: bool)
      requires Valid()
      modifies request, request.address, request.port, readBuffer, readBuffer.data
      ensures Valid()
      ensures var (p, n) := Consume(R.Feed, R.IsDone, old(View()).request, old(View()).input.pending);
              && View() == old(View()).(request := p, input := old(View()).input.Take(n))
              && error == (old(View()).input.pending != [] && (p.state.ErrorVersion? || p.state.ErrorAtyp?))
    {
      hide Buffer.View, A.AuthParser.View, R.RequestParser.View, H.HelloParser.View;
      error := request.ConsumeFrom(readBuffer);
    }

    method PutHello() returns (r: int)
      requires Valid()
      modifies writeBuffer`write, writeBuffer.data
      ensures Valid() && (r == -1 <==> old(View()).output.room < 2)
      ensures View() == if r == -1 then old(View())
                        else old(View()).(output := old(View()).output.Put(H.Reply(old(View()).hello.selected)))
    {
      hide Buffer.View, A.AuthParser.View, R.RequestParser.View, H.HelloParser.View;
      Parsers();
      r := H.Marshall(writeBuffer, hello.selected);
    }

    method PutAuth(status: byte) returns (r: int)
      requires Valid()
      modifies writeBuffer`write, writeBuffer.data
      ensures Valid() && (r == -1 <==> old(View()).output.room < 2)
      ensures View() == if r == -1 then old(View())
                        else old(View()).(output := old(View()).output.Put(A.Reply(status)))
    {
      hide Buffer.View, A.AuthParser.View, R.RequestParser.View, H.HelloParser.View;
      r := A.Marshall(writeBuffer, status);
    }

    /** `hello_read` */
    method ReadHello() returns (s: State)
      requires Valid() && readBuffer.View().pending != []
      modifies this`heard, this`taken, hello, readBuffer, readBuffer.data, writeBuffer`write, writeBuffer.data
      ensures Valid() && (View(), s) == HelloReady(old(View()))
    {
      hide View, Consume, H.Feed;
      Seen();
      ghost var c := View();
      var error := ConsumeHello();
      SetTaken(c.taken + c.input.pending[..Consume(H.Feed, H.IsDone, c.hello, c.input.pending).1]);
      Parsers();
      if error {
        return Error;
      }
      if hello.state != H.Done {
        return HelloRead;
      }
      var r := PutHello();
      if r == -1 {
        return Error;
      }
      Hear();
      s := HelloWrite;
    }

    method AnswerAuth(status: byte, ghost t: U.Slots) returns (s: State)
      requires Valid()
      requires status == if U.Lookup(t, CStr(View().auth.uname), CStr(View().auth.passwd)) then A.SUCCESS else A.FAILURE
      modifies this`heard, this`taken, this`authStatus, this`users, writeBuffer`write, writeBuffer.data
      ensures Valid() && (View(), s) == AuthAnswer(old(View()), t)
    {
      hide View, A.Reply, U.Lookup, CStr;
      SetAuthStatus(status);
      var r := PutAuth(status);
      if r == -1 {
        return Error;
      }
      Hear();
      SetUsers(Some(t));
      s := AuthWrite;
    }

    /** `credentials_match`: the C strings the parser left are looked up in the table. */
    method CompareCredentials(table: U.Table) returns (status: byte)
      requires Valid() && table.Ok()
      ensures status == if U.Lookup(table.View(), CStr(View().auth.uname), CStr(View().auth.passwd)) then A.SUCCESS
                        else A.FAILURE
    {
      hide U.Lookup, U.Valid, CStr, View;
      Parsers();
      var known := table.Check(CStr(auth.uname[..]), CStr(auth.passwd[..]));
      status := if known then A.SUCCESS else A.FAILURE;
    }

    method TakeAuth() returns (error: bool)
      requires Valid() && readBuffer.View().pending != []
      modifies this`taken, auth, auth.uname, auth.passwd, readBuffer, readBuffer.data
      ensures Valid() && View() == AuthTook(old(View()))
      ensures error == View().auth.state.ErrorVersion? && View().auth.state == auth.state
    {
      hide View, Consume, A.Feed;
      Seen();
      ghost var c := View();
      error := ConsumeAuth();
      SetTaken(c.taken + c.input.pending[..Consume(A.Feed, A.IsDone, c.auth, c.input.pending).1]);
      Parsers();
    }

    /** `auth_read` */
    method ReadAuth(table: U.Table, ghost w: World) returns (s: State)
      requires Valid() && readBuffer.View().pending != [] && table.Ok() && w.users == table.View()
      modifies this`heard, this`taken, this`authStatus, this`users,
               auth, auth.uname, auth.passwd, readBuffer, readBuffer.data, writeBuffer`write, writeBuffer.data
      ensures Valid() && (View(), s) == AuthReady(old(View()), w)
    {
      hide View, AuthTook, AuthAnswer, U.Lookup, CStr, U.Table.Ok;
      var error := TakeAuth();
      if error {
        return Error;
      }
      if auth.state != A.Done {
        return AuthRead;
      }
      var status := CompareCredentials(table);
      s := AnswerAuth(status, w.users);
    }

    method TakeRequest() returns (error: bool)
      requires Valid() && readBuffer.View().pending != []
      modifies this`taken, request, request.address, request.port, readBuffer, readBuffer.data
      ensures Valid()
      ensures var c := old(View());
              var (q, n) := Consume(R.Feed, R.IsDone, c.request, c.input.pending);
              && View() == c.(request := q, taken := c.taken + c.input.pending[..n], input := c.input.Take(n))
              && error == (q.state.ErrorVersion? || q.state.ErrorAtyp?)
              && request.state == q.state && request.command == q.command
    {
      hide View, Consume, R.Feed;
      Seen();
      ghost var c := View();
      error := ConsumeRequest();
      SetTaken(c.taken + c.input.pending[..Consume(R.Feed, R.IsDone, c.request, c.input.pending).1]);
      Parsers();
    }

    /** `request_read` */
    method ReadRequest(w: World) returns (s: State)
      requires Valid() && readBuffer.View().pending != [] && |w.attempts| >= |dnsNext| && |w.attempts| >= 1
      modifies this, request, request.address, request.port, readBuffer, readBuffer.data, writeBuffer`write, writeBuffer.data
      ensures Valid() && old(View()).dnsNext == old(dnsNext) && (View(), s) == RequestReady(old(View()), w)
    {
      hide View, Consume, R.Feed, ConnectToOrigin, MarshallReply, ReplyFor;
      Seen();
      var error := TakeRequest();
      if error {
        SetReply(if request.state == R.ErrorAtyp then R.ADDRESS_TYPE_NOT_SUPPORTED else R.GENERAL_FAILURE);
      } else if request.state != R.Done {
        return RequestRead;
      } else if request.command != R.CONNECT {
        Hear();
        SetReply(R.COMMAND_NOT_SUPPORTED);
      } else {
        Hear();
        var status := Connect(w);
        if status == EINPROGRESS {
          return Connecting;
        }
        SetReply(ReplyFor(status));
      }
      s := Marshall(w);
    }

    /** The read handler of the current state; a state without one aborts the process. */
    method DispatchRead(table: U.Table, w: World) returns (s: State)
      requires Valid() && readBuffer.View().pending != [] && table.Ok() && w.users == table.View() && current.Some?
      requires |w.attempts| >= |dnsNext| && |w.attempts| >= 1
      modifies this, readBuffer, readBuffer.data, writeBuffer, writeBuffer.data, hello,
               auth, auth.uname, auth.passwd, request, request.address, request.port
      ensures Valid() && old(View()).dnsNext == old(dnsNext) && old(View()).current == old(current)
      ensures (View(), s) == Dispatch(old(View()), w)
    {
      hide View, Jump, HelloReady, AuthReady, RequestReady, U.Table.Ok, Buffer.View, CStr;
      Seen();
      if current == Some(HelloRead) {
        s := ReadHello();
        JumpTo(s);
      } else if current == Some(AuthRead) {
        s := ReadAuth(table, w);
        JumpTo(s);
      } else if current == Some(RequestRead) {
        s := ReadRequest(w);
        JumpTo(s);
      } else {
        s := current.value;
        SetAborted(true);
      }
    }

    /** `stm_handler_read` */
    method HandleRead(table: U.Table, w: World) returns (s: State)
      requires Valid() && readBuffer.View().pending != [] && table.Ok() && w.users == table.View()
      requires |w.attempts| >= |dnsNext| && |w.attempts| >= 1
      modifies this, readBuffer, readBuffer.data, writeBuffer, writeBuffer.data, hello,
               auth, auth.uname, auth.passwd, request, request.address, request.port
      ensures Valid() && old(View()).dnsNext == old(dnsNext) && (View(), s) == HandlerRead(old(View()), w)
    {
      hide View, First, Dispatch, U.Table.Ok;
      Seen();
      HandleFirst();
      s := DispatchRead(table, w);
    }

    // socks5.c, the write handlers.

    method SetAborted(v: bool)
      requires Valid()
      modifies this`aborted
      ensures Valid() && View() == old(View()).(aborted := v)
    {
      hide Buffer.View, A.AuthParser.View, R.RequestParser.View, H.HelloParser.View;
      aborted := v;
    }

    method SetOpen(v: bool)
      requires Valid()
      modifies this`open
      ensures Valid() && View() == old(View()).(open := v)
    {
      hide Buffer.View, A.AuthParser.View, R.RequestParser.View, H.HelloParser.View;
      open := v;
    }

    method ResetInput()
      requires Valid()
      modifies readBuffer
      ensures Valid() && View() == old(View()).(input := Fresh(old(View()).input.capacity))
    {
      hide A.AuthParser.View, R.RequestParser.View, H.HelloParser.View;
      readBuffer.Reset();
    }

    method ResetOutput()
      requires Valid()
      modifies writeBuffer
      ensures Valid() && View() == old(View()).(output := Fresh(old(View()).output.capacity))
    {
      hide A.AuthParser.View, R.RequestParser.View, H.HelloParser.View;
      writeBuffer.Reset();
    }

    method Watch(clientSide: Interest, originSide: Interest)
      requires Valid()
      modifies this`client, this`originInterest
      ensures Valid() && View() == old(View()).(client := clientSide, originInterest := originSide)
    {
      hide Buffer.View, A.AuthParser.View, R.RequestParser.View, H.HelloParser.View;
      client, originInterest := clientSide, originSide;
    }

    method SetRelaying()
      requires Valid()
      modifies this`relaying
      ensures Valid() && View() == old(View()).(relaying := true)
    {
      hide Buffer.View, A.AuthParser.View, R.RequestParser.View, H.HelloParser.View;
      relaying := true;
    }

    /** `start_relay`; both sides then have room and nothing pending. */
    method BeginRelay()
      requires Valid()
      modifies this`relaying, this`client, this`originInterest, readBuffer, writeBuffer
      ensures Valid() && View() == StartRelay(old(View()))
    {
      hide View;
      ResetInput();
      ResetOutput();
      SetRelaying();
      Watch(RelaySpec.Start(0).clientInterest, RelaySpec.Start(0).originInterest);
    }

    method SetLogged(v: seq<Access>)
      requires Valid()
      modifies this`logged
      ensures Valid() && View() == old(View()).(logged := v)
    {
      hide Buffer.View, A.AuthParser.View, R.RequestParser.View, H.HelloParser.View;
      logged := v;
    }

    /** The success branch of `request_write`: the access log is told, and the relay starts. */
    method LogAndRelay()
      requires Valid()
      modifies this`logged, this`relaying, this`client, this`originInterest, readBuffer, writeBuffer
      ensures Valid()
      ensures View() == StartRelay(old(View()).(logged := old(View()).logged + [LogEntry(old(View()))]))
    {
      hide View, CStr;
      Parsers();
      var port := request.port[0] as nat * 256 + request.port[1] as nat;
      var dest := Null;
      if request.atyp == R.DOMAINNAME {
        dest := Named(CStr(request.address[..request.addressLen]));
      } else if request.atyp == R.IPV4 {
        dest := Numeric(R.IPV4, request.address[..4]);
      } else if request.atyp == R.IPV6 {
        dest := Numeric(R.IPV6, request.address[..16]);
      }
      assert forall n :: 0 <= n <= 256 ==> request.address[..][..n] == request.address[..n];
      SetLogged(logged + [Access(CStr(auth.uname[..]), dest, port)]);
      BeginRelay();
    }

    /** `stm_handler_write` with its three handlers. */
    method HandleWrite() returns (s: State)
      requires Valid()
      modifies this, readBuffer, readBuffer.data, writeBuffer, writeBuffer.data, hello,
               auth, auth.uname, auth.passwd, request, request.address, request.port
      ensures Valid() && (View(), s) == HandlerWrite(old(View()))
    {
      hide View, Arrive, StartRelay, LogEntry, Jump, First;
      HandleFirst();
      Seen();
      Parsers();
      var more := writeBuffer.CanRead();
      match current.value {
        case HelloWrite =>
          s := if more then HelloWrite else if hello.selected == H.NO_ACCEPTABLE_METHODS then Error else AuthRead;
          JumpTo(s);
        case AuthWrite =>
          s := if more then AuthWrite else if authStatus == A.SUCCESS then RequestRead else Error;
          JumpTo(s);
        case RequestWrite =>
          if more {
            return RequestWrite;
          }
          if reply != R.SUCCEEDED {
            JumpTo(Done);
            return Done;
          }
          LogAndRelay();
          JumpTo(Relay);
          s := Relay;
        case other =>
          SetAborted(true);
          s := other;
      }
    }

    // socks5nio.c

    /** `socks5_connection_close`, as far as the handshake sees it. */
    method CloseConnection()
      requires Valid()
      modifies this`open, this`client, this`origin, this`originInterest
      ensures Valid() && View() == Close(old(View()))
    {
      hide View;
      SetOpen(false);
      SetClient(NOOP);
      SetOrigin(NoOrigin, NOOP);
    }

    /** `socksv5_apply_action` of the action for the state returned. */
    method ApplyAction(s: State)
      requires Valid()
      modifies this`open, this`client, this`origin, this`originInterest
      ensures Valid() && View() == Apply(old(View()), s)
    {
      hide View, Close, Buffer.View;
      Seen();
      if s == Error || s == Done {
        CloseConnection();
      } else if s == Connecting {
        SetClient(NOOP);
      } else if s != Relay {
        var more := writeBuffer.CanRead();
        SetClient(if more then WRITE else READ);
      }
    }

    method Store(got: bytes)
      requires Valid() && |got| <= readBuffer.View().room
      modifies this`received, readBuffer`write, readBuffer.data
      ensures Valid()
      ensures View() == old(View()).(input := old(View()).input.Put(got), received := old(View()).received + got)
    {
      hide Buffer.View, A.AuthParser.View, R.RequestParser.View, H.HelloParser.View;
      readBuffer.Deliver(got);
      received := received + got;
    }

    method Drain(n: nat)
      requires Valid() && n <= |writeBuffer.View().pending|
      modifies this`sent, writeBuffer, writeBuffer.data
      ensures Valid()
      ensures var c := old(View());
              && n <= |c.output.pending|
              && View() == c.(output := c.output.Take(n), sent := c.sent + c.output.pending[..n])
    {
      hide Buffer.View, A.AuthParser.View, R.RequestParser.View, H.HelloParser.View;
      ghost var put := writeBuffer.View().pending[..n];
      writeBuffer.ReadAdv(n);
      sent := sent + put;
    }

    /** `socksv5_read` before the relay. */
    method OnClientReadable(r: RelaySpec.ReadResult, table: U.Table, w: World)
      requires Valid() && (r.Data? ==> 0 < |r.got| <= readBuffer.View().room) && table.Ok() && w.users == table.View()
      requires |w.attempts| >= |dnsNext| && |w.attempts| >= 1
      modifies this, readBuffer, readBuffer.data, writeBuffer, writeBuffer.data, hello,
               auth, auth.uname, auth.passwd, request, request.address, request.port
      ensures Valid() && old(View()).dnsNext == old(dnsNext) && old(View()).input == old(readBuffer.View())
      ensures View() == OnReadable(old(View()), r, w)
    {
      hide View, HandlerRead, Apply, Close, U.Table.Ok;
      Seen();
      match r {
        case Data(got) =>
          Store(got);
          Seen();
          var s := HandleRead(table, w);
          Seen();
          if !aborted { ApplyAction(s); }
        case Eof => CloseConnection();
        case ReadAgain => SetClient(READ);
        case ReadFailed => CloseConnection();
      }
    }

    /** `socksv5_write` before the relay. */
    method OnClientWritable(r: RelaySpec.WriteResult)
      requires Valid() && RelaySpec.WriteFits(r, writeBuffer.View())
      modifies this, readBuffer, readBuffer.data, writeBuffer, writeBuffer.data, hello,
               auth, auth.uname, auth.passwd, request, request.address, request.port
      ensures Valid() && old(View()).output == old(writeBuffer.View()) && View() == OnWritable(old(View()), r)
    {
      hide View, HandlerWrite, Apply, Close;
      Seen();
      match r {
        case Wrote(n) =>
          if n == 0 {
            CloseConnection();
            return;
          }
          Drain(n);
          Seen();
          var more := writeBuffer.CanRead();
          if more {
            SetClient(WRITE);
            return;
          }
          var s := HandleWrite();
          Seen();
          if !aborted { ApplyAction(s); }
        case WriteAgain => SetClient(WRITE);
        case WriteFailed => CloseConnection();
      }
    }

    // connect.c, the origin's side.

    /** The end of `origin_connect_write_handler`. */
    method AnnounceOutcome(w: World)
      requires Valid()
      modifies this`answer, this`current, this`client, writeBuffer`write, writeBuffer.data
      ensures Valid() && View() == Announce(old(View()), w)
    {
      hide View, MarshallReply;
      var s := Marshall(w);
      if s == Error {
        SetCurrent(Error);
        SetClient(READ);
      } else {
        SetCurrent(RequestWrite);
        SetClient(WRITE);
      }
    }

    /** `origin_connect_write_handler` */
    method OnOriginReady(error: nat, w: World)
      requires Valid() && |w.attempts| >= |dnsNext|
      modifies this, readBuffer, readBuffer.data, writeBuffer, writeBuffer.data, hello,
               auth, auth.uname, auth.passwd, request, request.address, request.port
      ensures Valid() && old(View()).dnsNext == old(dnsNext) && View() == OnOriginWritable(old(View()), error, w)
    {
      hide View, Announce, StartResolved;
      Seen();
      Parsers();
      SetReply(ReplyFor(error));
      if error == 0 {
        SetOrigin(Up, NOOP);
      } else {
        SetOrigin(NoOrigin, NOOP);
        SetFailure(error, true);
        if request.atyp == R.DOMAINNAME && dnsNext != [] {
          var status := ConnectResolved(w);
          if status == EINPROGRESS {
            return;
          }
          SetReply(ReplyFor(status));
        }
      }
      AnnounceOutcome(w);
    }

    /** `socks5_handle_block_done` and the action it asks for. */
    method OnNamesFound(w: World)
      requires Valid() && |w.attempts| >= |dnsNext| && |w.attempts| >= 1
      modifies this, readBuffer, readBuffer.data, writeBuffer, writeBuffer.data, hello,
               auth, auth.uname, auth.passwd, request, request.address, request.port
      ensures Valid() && old(View()).dnsNext == old(dnsNext) && View() == OnBlockDone(old(View()), w)
    {
      hide View, ConnectToOrigin, MarshallReply, Close;
      Seen();
      SetDns(Answered);
      var status := Connect(w);
      if status == EINPROGRESS {
        SetCurrent(Connecting);
        SetClient(NOOP);
        return;
      }
      SetReply(ReplyFor(status));
      var s := Marshall(w);
      if s == Error {
        SetCurrent(Error);
        CloseConnection();
      } else {
        SetCurrent(RequestWrite);
        SetClient(WRITE);
      }
    }

    /** The worker's part: one store, and a notification if there is memory for it. */
    method OnWorkerStores(failure: int, found: Option<seq<Info>>, queued: bool)
      requires Valid()
      modifies this`dns, this`dnsError, this`dnsResult, this`dnsNext
      ensures Valid()
      ensures View() == old(View()).(dns := if queued then Stored else Answered, dnsError := failure, dnsResult := found,
                                     dnsNext := if found.Some? then found.value else [])
    {
      hide View;
      SetDns(if queued then Stored else Answered);
      SetAnswer(failure, found);
      SetDnsNext(if found.Some? then found.value else []);
    }

    // Any run.

    /** The world an event is handled in has the user table there is. */
    ghost predicate Knows(e: Event, table: U.Table)
      reads table, table.entries
    {
      table.Ok() && (e.Readable? ==> e.w.users == table.View())
    }

    /** The handler the loop calls for an event. */
    method Handle(e: Event, table: U.Table)
      requires Valid() && Inv(View()) && Legal(View(), e) && Knows(e, table)
      modifies this, readBuffer, readBuffer.data, writeBuffer, writeBuffer.data, hello,
               auth, auth.uname, auth.passwd, request, request.address, request.port
      ensures Valid() && old(Legal(View(), e)) && View() == Step(old(View()), e) && Inv(View())
    {
      hide View, Inv, WorldOk, U.Table.Ok, OnReadable, OnWritable, OnOriginWritable, OnBlockDone;
      ghost var c := View();
      Seen();
      Worlds(c, e);
      match e {
        case Readable(r, w) => OnClientReadable(r, table, w);
        case Writable(r) => OnClientWritable(r);
        case OriginWritable(error, w) => OnOriginReady(error, w);
        case WorkerStores(failure, found, queued) => OnWorkerStores(failure, found, queued);
        case BlockDone(w) => OnNamesFound(w);
      }
      StepInv(c, e);
    }

    /**
     * A run of events ends where the run of the model ends, and nothing a run is
     * proved to keep is lost on the way.  The user table may change between two
     * events: `tables[i]` holds what it holds when `es[i]` is handled.
     */
    method HandleAll(es: seq<Event>, tables: seq<U.Table>)
      requires Valid() && Inv(View()) && Run(View(), es)
      requires |tables| == |es| && forall i :: 0 <= i < |es| ==> Knows(es[i], tables[i])
      modifies this, readBuffer, readBuffer.data, writeBuffer, writeBuffer.data, hello,
               auth, auth.uname, auth.passwd, request, request.address, request.port
      ensures Valid() && old(Run(View(), es)) && View() == After(old(View()), es) && Inv(View())
    {
      hide View, Inv, Legal, Step, Valid, U.Table.Ok;
      ghost var c := View();
      var i := 0;
      assert es[0..] == es;
      while i < |es|
        invariant i <= |es| && Valid() && Inv(View()) && Run(View(), es[i..]) && After(View(), es[i..]) == After(c, es)
        invariant forall k :: 0 <= k < |es| ==> Knows(es[k], tables[k])
      {
        assert es[i..][0] == es[i] && es[i..][1..] == es[i + 1..];
        Handle(es[i], tables[i]);
        i := i + 1;
      }
    }

    lemma BlankInv()
      requires Valid() && Blank()
      ensures Starts(View()) && Inv(View())
    {
      BlankStarts();
      StartInv(View());
    }
  }

  /** An accepted connection and all that happens to it before its relay, or some of it. */
  method Serve(es: seq<Event>, tables: seq<U.Table>) returns (h: Handshake)
    requires |tables| == |es|
    requires forall i :: 0 <= i < |es| ==> tables[i].Ok() && (es[i].Readable? ==> es[i].w.users == tables[i].View())
    requires forall c :: Starts(c) ==> Run(c, es)
    ensures fresh(h) && h.Valid() && Inv(h.View())
    ensures exists c :: Starts(c) && Run(c, es) && h.View() == After(c, es)
  {
    hide Handshake.View, Handshake.Blank, Starts, Inv, Run, After;
    h := new Handshake();
    h.BlankInv();
    h.HandleAll(es, tables);
  }

  lemma DialNone(c: Conn, last: nat, attempts: seq<Attempt>)
    requires c.dnsNext == []
    ensures DialNext(c, last, attempts) == (c, last)
  {
  }

  lemma DialOne(c: Conn, last: nat, attempts: seq<Attempt>)
    requires |attempts| >= |c.dnsNext| && c.dnsNext != []
    ensures var info := c.dnsNext[0];
            var c1 := c.(dnsNext := c.dnsNext[1..]);
            DialNext(c, last, attempts) ==
            if !info.stream then DialNext(c1, last, attempts[1..])
            else
              var (c2, status) := Dial(c1, info.addr, attempts[0]);
              if status == 0 || status == EINPROGRESS then (c2, status) else DialNext(c2, status, attempts[1..])
  {
  }

  lemma Worlds(c: Conn, e: Event)
    requires Legal(c, e)
    ensures var ws := match e
                      case Readable(_, w) => [w]
                      case OriginWritable(_, w) => [w]
                      case BlockDone(w) => [w]
                      case _ => [];
            forall w :: w in ws ==> |w.attempts| >= |c.dnsNext| && |w.attempts| >= 1
  {
  }
}
