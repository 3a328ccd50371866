/** The handshake's main results, for every run from an accepted connection. */
module HandshakeTheorems {
  import opened Bytes
  import opened Pipes
  import opened Chunks
  import RelaySpec
  import H = Hello
  import A = Auth
  import R = Request
  import U = UserTable
  import opened HandshakeSpec
  import opened HandshakeRuns

  lemma Reached(c: Conn, es: seq<Event>)
    requires Starts(c) && Run(c, es)
    ensures Inv(After(c, es))
  {
    StartInv(c);
    RunInv(c, es);
  }

  /** What the client's interest is in each state a connection can be in between two events. */
  ghost predicate Watched(c: Conn) {
    match if c.current.Some? then c.current.value else HelloRead
    case HelloRead => c.client == READ
    case AuthRead => c.client == READ
    case RequestRead => c.client == READ
    case HelloWrite => c.client == WRITE
    case AuthWrite => c.client == WRITE
    case RequestWrite => c.client == WRITE
    case Connecting => c.client == NOOP
    case _ => false
  }

  /**
   * No missing handler is ever called, nor a second origin descriptor opened,
   * and an open connection is never in the error state: the client's interest
   * always agrees with the state, bytes are waiting exactly when it is watched
   * for writing, and the origin is watched exactly while its connect is pending.
   */
  lemma NeverAborts(c: Conn, es: seq<Event>)
    requires Starts(c) && Run(c, es)
    ensures var d := After(c, es);
            && !d.aborted
            && (d.open && !d.relaying ==>
                  && Watched(d) && (d.client.write <==> d.output.pending != [])
                  && (d.originInterest.write <==> d.origin.Pending?))
  {
    Reached(c, es);
    hide Live, Hist, RelayOk;
    var d := After(c, es);
    if d.open && !d.relaying { LiveWatched(d); }
  }

  lemma LiveWatched(d: Conn)
    requires Live(d)
    ensures Watched(d) && (d.client.write <==> d.output.pending != [])
    ensures d.originInterest.write <==> d.origin.Pending?
  {
    hide Consume, StatusOf, Methods;
  }

  /** A reply is always marshalled into an empty buffer, so it always fits and the error state is not reached by it. */
  lemma RepliesFit(c: Conn, es: seq<Event>, w: World)
    requires Starts(c) && Run(c, es)
    requires var d := After(c, es); d.open && !d.relaying && !d.client.write
    ensures MarshallReply(After(c, es), w).1 == RequestWrite
  {
    Reached(c, es);
    hide Hist;
    ReadsDrained(After(c, es));
    Marshalled(After(c, es), w);
  }

  lemma ReadsDrained(c: Conn)
    requires Inv(c) && c.open && !c.relaying && !c.client.write
    ensures PipesOk(c) && Drained(c)
  {
    hide Hist;
  }

  /**
   * A connection relays only after the client offered username and password and
   * was told so, its credentials matched the user table when they were compared
   * and it was told so, and its CONNECT was answered with success: these three
   * messages, whole and in this order, are the first thing it sent, and these
   * three replies are all it has been sent.  The relay then starts afresh.
   */
  lemma RelaysOnlyAfterHandshake(c: Conn, es: seq<Event>)
    requires Starts(c) && Run(c, es) && After(c, es).relaying
    ensures var d := After(c, es);
            && |d.heard| == 3 && d.heard[0] + d.heard[1] + d.heard[2] <= d.received
            && H.Grammar(d.heard[0]) == H.Offer(Methods(d.heard[0]), |d.heard[0]|)
            && H.USERNAME_PASSWORD in Methods(d.heard[0])
            && Matches(d.users, d.heard[1])
            && R.Grammar(d.heard[2]) == R.Message.Request(R.CONNECT, d.request.atyp,
                                                          d.request.address[..d.request.addressLen], d.request.port,
                                                          |d.heard[2]|)
            && (exists a :: d.sent == [5, H.USERNAME_PASSWORD] + [1, A.SUCCESS] + R.Reply(R.SUCCEEDED, R.Bound(a)))
            && d.origin.Up? && LogsThe(d)
            && RelaySpec.Half(d.input, false, false) == RelaySpec.Start(0).up
            && RelaySpec.Half(d.output, false, false) == RelaySpec.Start(0).down
            && d.client == RelaySpec.Start(0).clientInterest && d.originInterest == RelaySpec.Start(0).originInterest
  {
    Reached(c, es);
    var d := After(c, es);
    RelayFacts(d);
    RelayLogs(d);
    hide Hist, Inv, LogsThe;
    assert d.heard[0] + d.heard[1] + d.heard[2] == Flatten(d.heard) by { FlattenThree(d.heard); }
  }

  /** The destination a request message names, as it is logged. */
  function Noted(atyp: byte, address: bytes): Destination {
    if atyp == R.DOMAINNAME then Named(CStr(address)) else Numeric(atyp, address)
  }

  /** The access log was given one entry: the authenticated user, and the destination of the CONNECT. */
  ghost predicate LogsThe(c: Conn) {
    && |c.heard| == 3 && A.Grammar(c.heard[1]).Credentials? && R.Grammar(c.heard[2]).Request? && |R.Grammar(c.heard[2]).port| == 2
    && var m := R.Grammar(c.heard[2]);
       c.logged == [Access(CStr(A.Grammar(c.heard[1]).user), Noted(m.atyp, m.address),
                           m.port[0] as nat * 256 + m.port[1] as nat)]
  }

  lemma RelayLogs(d: Conn)
    requires Inv(d) && d.relaying
    ensures LogsThe(d)
  {
    hide H.Grammar, A.Grammar, R.Grammar, Flatten, StatusOf, Methods, CStr, Received, Said, FallbackOk;
    ConnectsTo(d);
    AddressLengths(d.heard[2]);
  }

  lemma AddressLengths(m: bytes)
    requires R.Grammar(m).Request?
    ensures |R.Grammar(m).port| == 2
    ensures R.Grammar(m).atyp == R.IPV4 ==> |R.Grammar(m).address| == 4
    ensures R.Grammar(m).atyp == R.IPV6 ==> |R.Grammar(m).address| == 16
  {
  }

  /** The message holds credentials that the table knows. */
  ghost predicate Matches(users: Option<U.Slots>, m: bytes) {
    && users.Some?
    && match A.Grammar(m)
       case Credentials(u, p, n) =>
         n == |m| && CStr(u) in U.Users(users.value) && U.Users(users.value)[CStr(u)] == CStr(p)
       case _ => false
  }

  lemma FlattenThree(ms: seq<bytes>)
    requires |ms| == 3
    ensures Flatten(ms) == ms[0] + ms[1] + ms[2]
  {
    var m1, m2 := ms[1..], ms[2..];
    assert m1[1..] == m2 && m2[1..] == [] && Flatten([]) == [];
    assert Flatten(m2) == ms[2] + [] == ms[2];
    assert Flatten(m1) == ms[1] + ms[2];
    assert ms[0] + (ms[1] + ms[2]) == ms[0] + ms[1] + ms[2];
  }

  lemma SuccessMatches(users: Option<U.Slots>, m: bytes)
    requires StatusOf(users, m) == A.SUCCESS && A.Grammar(m).Credentials? && A.Grammar(m).n == |m|
    ensures Matches(users, m)
  {
    hide A.Grammar, CStr, U.Lookup, U.Users;
    var g := A.Grammar(m);
    U.LookupLaw(users.value, CStr(g.user), CStr(g.pass));
  }

  lemma RelayFacts(d: Conn)
    requires Inv(d) && d.relaying
    ensures |d.heard| == 3 && Flatten(d.heard) <= d.received && HeardOk(d) && RelayOk(d)
    ensures H.Grammar(d.heard[0]) == H.Offer(Methods(d.heard[0]), |d.heard[0]|)
    ensures Matches(d.users, d.heard[1])
    ensures exists a :: d.sent == [5, H.USERNAME_PASSWORD] + [1, A.SUCCESS] + R.Reply(R.SUCCEEDED, R.Bound(a))
  {
    hide H.Grammar, A.Grammar, R.Grammar, Flatten, StatusOf;
    SuccessMatches(d.users, d.heard[1]);
    assert H.Grammar(d.heard[0]).Offer?;
    assert d.sent + [] == d.sent;
    assert IsReply(d.reply, d.answer);
    var a :| d.answer == R.Reply(d.reply, R.Bound(a));
    assert d.sent == [5, H.USERNAME_PASSWORD] + [1, A.SUCCESS] + R.Reply(R.SUCCEEDED, R.Bound(a));
  }

  /**
   * At every moment, open or closed, what has been sent is a prefix of the
   * method reply, the authentication reply and the request's reply, each there
   * only once the message it answers has been heard and saying what it should.
   */
  lemma SaysOnlyReplies(c: Conn, es: seq<Event>)
    requires Starts(c) && Run(c, es)
    ensures var d := After(c, es);
            && d.sent <= MethodReply(d) + AuthReply(d) + d.answer
            && (|d.heard| >= 1 ==> MethodReply(d) == [5, if 2 in Methods(d.heard[0]) then 2 else 255])
            && (|d.heard| >= 2 ==> AuthReply(d) == [1, if Matches(d.users, d.heard[1]) then 0 else 1])
            && (d.answer != [] ==> IsReply(d.reply, d.answer) && CodeFits(d))
            && (d.answer != [] && d.reply != R.SUCCEEDED && Connects(d) && (Literal(d) || AllStreams(d)) ==>
                  d.reply == ReplyFor(d.lastError))
            && (d.answer != [] && d.reply == R.SUCCEEDED ==> Connects(d))
            && (d.answer != [] || |d.heard| == 3 ==> Admitted(d))
  {
    Reached(c, es);
    var d := After(c, es);
    if Literal(d) || AllStreams(d) { BlamesLast(d); }
    hide Inv, Blamed, Methods, Matches, StatusOf;
    SaidSoFar(d);
    if |d.heard| >= 2 { RepliesSay(d); }
  }

  lemma RepliesSay(d: Conn)
    requires Inv(d) && |d.heard| >= 2
    ensures StatusOf(d.users, d.heard[1]) == (if Matches(d.users, d.heard[1]) then 0 else 1)
  {
    hide A.Grammar, H.Grammar, R.Grammar, CStr, U.Lookup, U.Users, U.Valid, Received, Said, FallbackOk, Live;
    var g := A.Grammar(d.heard[1]);
    U.LookupLaw(d.users.value, CStr(g.user), CStr(g.pass));
  }

  /** The name was resolved, to entries that can all be dialled. */
  predicate AllStreams(c: Conn) {
    c.dnsError == 0 && c.dnsResult.Some? && c.dnsResult.value != [] && forall i :: i in c.dnsResult.value ==> i.stream
  }

  lemma BlamesLast(d: Conn)
    requires Literal(d) || AllStreams(d)
    ensures Blamed(d) == d.lastError
  {
    if AllStreams(d) {
      var l := d.dnsResult.value;
      assert l[0] in l && l[|l| - 1] in l;
    }
  }

  lemma SaidSoFar(d: Conn)
    requires Inv(d)
    ensures d.sent <= MethodReply(d) + AuthReply(d) + d.answer
    ensures d.answer != [] ==> IsReply(d.reply, d.answer) && Admitted(d) && CodeFits(d)
    ensures d.answer != [] && d.reply == R.SUCCEEDED ==> Connects(d)
    ensures |d.heard| == 3 ==> Admitted(d)
  {
    hide H.Grammar, A.Grammar, R.Grammar, Flatten, StatusOf, Methods, Live, RelayOk, MethodReply, AuthReply;
    assert d.sent <= d.sent + d.output.pending;
  }

  /**
   * What is dialled is what was asked for: the address and port of the CONNECT,
   * or the addresses found for its name, in the order found and each at most
   * once, the name and port looked up being those of the CONNECT.  A failure is
   * reported only when none is left, success only while an origin is connected.
   */
  lemma DialsInOrderOnce(c: Conn, es: seq<Event>)
    requires Starts(c) && Run(c, es)
    ensures var d := After(c, es);
            && (Connects(d) && ByName(d) ==> d.tried <= Streams(Found(d)))
            && (Connects(d) && !ByName(d) ==> d.tried <= [Requested(d)])
            && (!Connects(d) ==> d.tried == [])
            && (d.open && !d.relaying && d.dns.Asked? ==> Connects(d) && ByName(d) && LooksUp(d))
            && (d.answer != [] && d.reply != R.SUCCEEDED && Connects(d) ==>
                  d.tried == if ByName(d) then Streams(Found(d)) else [Requested(d)])
            && (d.answer != [] && d.reply == R.SUCCEEDED ==> d.tried != [])
            && (d.answer != [] && d.open ==> (d.reply == R.SUCCEEDED <==> d.origin.Up?))
  {
    Reached(c, es);
    hide Inv, Dialled;
    var d := After(c, es);
    DialFacts(d);
    if d.answer != [] && d.open { OutcomeFacts(d); }
    if d.open && !d.relaying && d.dns.Asked? { AskingFor(d); }
  }

  /** The address and port of the CONNECT that was heard. */
  function Requested(d: Conn): Addr
    requires |d.heard| == 3
  {
    match R.Grammar(d.heard[2])
    case Request(_, atyp, address, port, _) => Direct(atyp, address, port)
    case _ => Direct(0, [], [])
  }

  /** The worker's job is the name and the port of the CONNECT that was heard. */
  predicate LooksUp(d: Conn)
    requires |d.heard| == 3
  {
    && d.dns.Asked? && R.Grammar(d.heard[2]).Request? && |R.Grammar(d.heard[2]).port| == 2
    && var m := R.Grammar(d.heard[2]);
       m.atyp == 3 && d.dns.job == Query(CStr(m.address), m.port[0] as nat * 256 + m.port[1] as nat)
  }

  lemma RequestedIs(d: Conn)
    requires Inv(d) && Connects(d) && !ByName(d)
    ensures Target(d) == Requested(d)
  {
    hide Received, Said, FallbackOk, StatusOf, Methods, Live, RelayOk, H.Grammar, A.Grammar, R.Grammar;
    ConnectsTo(d);
    AddressLengths(d.heard[2]);
  }

  lemma AskingFor(d: Conn)
    requires Inv(d) && d.open && !d.relaying && d.dns.Asked?
    ensures Connects(d) && ByName(d) && LooksUp(d)
  {
    hide Received, Said, FallbackOk, StatusOf, Methods, H.Grammar, A.Grammar, R.Grammar, CStr, Consume;
    OriginState(d);
    AddressLengths(d.heard[2]);
  }

  lemma DialFacts(d: Conn)
    requires Inv(d)
    ensures Connects(d) && ByName(d) ==> d.tried <= Streams(Found(d))
    ensures Connects(d) && !ByName(d) ==> d.tried <= [Requested(d)]
    ensures !Connects(d) ==> d.tried == []
    ensures d.answer != [] && d.reply != R.SUCCEEDED && Connects(d) ==>
              d.tried == if ByName(d) then Streams(Found(d)) else [Requested(d)]
    ensures d.answer != [] && d.reply == R.SUCCEEDED ==> d.tried != []
  {
    hide Received, Said, StatusOf, Methods, Live, RelayOk, H.Grammar, A.Grammar;
    if Connects(d) {
      ConnectsTo(d);
      if !ByName(d) { RequestedIs(d); }
      assert d.tried + [] == d.tried;
    }
  }

  lemma OutcomeFacts(d: Conn)
    requires Inv(d) && d.answer != [] && d.open
    ensures d.reply == R.SUCCEEDED <==> d.origin.Up?
  {
    hide HeardOk, Received, FallbackOk, StatusOf, Methods, Consume;
  }

  lemma ConnectsTo(d: Conn)
    requires Inv(d) && Connects(d)
    ensures ByName(d) || Literal(d)
  {
    hide Received, Said, FallbackOk, StatusOf, Methods, Live, RelayOk, H.Grammar, A.Grammar;
  }

  /** Moving on to another address uses up at least one of those left. */
  lemma FallbackShrinks(c: Conn, es: seq<Event>, error: nat, w: World)
    requires Starts(c) && Run(c, es) && Legal(After(c, es), OriginWritable(error, w)) && error != 0
    ensures var d := After(c, es);
            var d' := Step(d, OriginWritable(error, w));
            if d'.origin.Pending? then |d'.dnsNext| < |d.dnsNext| && |d'.tried| > |d.tried| else d'.answer != []
  {
    Reached(c, es);
    hide Inv;
    OriginState(After(c, es));
    Shrinks(After(c, es), error, w);
  }

  lemma Shrinks(d: Conn, error: nat, w: World)
    requires Fine(d) && InConnecting(d) && Legal(d, OriginWritable(error, w)) && error != 0
    ensures var d' := OnOriginWritable(d, error, w);
            if d'.origin.Pending? then |d'.dnsNext| < |d.dnsNext| && |d'.tried| > |d.tried| else d'.answer != []
  {
    hide Hist, MarshallReply, U.Valid, Streams, DialNext;
    var c1 := d.(reply := ReplyFor(error), origin := NoOrigin, originInterest := NOOP, lastError := error, waited := true);
    if ByName(d) && d.dnsNext != [] {
      DialsInOrder(c1, EHOSTUNREACH, w.attempts);
      DialsLeave(c1, EHOSTUNREACH, w.attempts);
      var (c2, status) := DialNext(c1, EHOSTUNREACH, w.attempts);
      if status == EINPROGRESS { StreamsSome(c2.dnsNext, c1.dnsNext); }
      Marshalled(c2.(reply := ReplyFor(status)), w);
    } else {
      Marshalled(c1, w);
    }
  }
}
