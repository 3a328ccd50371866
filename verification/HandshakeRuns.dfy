/** What holds of every run of the handshake. */
module HandshakeRuns {
  import opened Bytes
  import opened Pipes
  import opened Chunks
  import RelaySpec
  import H = Hello
  import A = Auth
  import R = Request
  import U = UserTable
  import opened HandshakeSpec

  // What has been said and heard.

  function Methods(s: bytes): bytes {
    match H.Grammar(s)
    case Offer(m, _) => m
    case _ => []
  }

  /** What the credentials of a message are worth against a user table. */
  function StatusOf(users: Option<U.Slots>, s: bytes): byte {
    match A.Grammar(s)
    case Credentials(u, p, _) => if users.Some? && U.Lookup(users.value, CStr(u), CStr(p)) then A.SUCCESS else A.FAILURE
    case _ => A.FAILURE
  }

  function MethodReply(c: Conn): bytes {
    if |c.heard| >= 1 then H.Reply(H.Choice(Methods(c.heard[0]))) else []
  }

  function AuthReply(c: Conn): bytes {
    if |c.heard| >= 2 then A.Reply(StatusOf(c.users, c.heard[1])) else []
  }

  /** A reply with this code, which names a bound endpoint only if it reports success. */
  ghost predicate IsReply(code: byte, t: bytes) {
    exists a: Option<R.Sockaddr> :: t == R.Reply(code, R.Bound(a)) && (code != R.SUCCEEDED ==> a.None?)
  }

  predicate Answering(s: State) {
    s.RequestWrite? || s.Relay? || s.Done?
  }

  ghost predicate Said(c: Conn) {
    && c.sent + c.output.pending == MethodReply(c) + AuthReply(c) + c.answer
    && if c.current.Some? && Answering(c.current.value) then IsReply(c.reply, c.answer) else c.answer == []
  }

  /** The three messages, each whole, in order, and nothing else heard. */
  ghost predicate HeardOk(c: Conn) {
    && |c.heard| <= 3
    && (|c.heard| >= 1 ==> H.Grammar(c.heard[0]).Offer? && H.Grammar(c.heard[0]).n == |c.heard[0]|)
    && (|c.heard| >= 2 ==>
          && H.USERNAME_PASSWORD in Methods(c.heard[0]) && c.users.Some? && U.Valid(c.users.value)
          && A.Grammar(c.heard[1]).Credentials? && A.Grammar(c.heard[1]).n == |c.heard[1]|
          && CStr(c.auth.uname) == CStr(A.Grammar(c.heard[1]).user))
    && (|c.heard| == 3 ==>
          && StatusOf(c.users, c.heard[1]) == A.SUCCESS
          && R.Grammar(c.heard[2]) == R.Message.Request(c.request.command, c.request.atyp,
                                                        c.request.address[..c.request.addressLen], c.request.port,
                                                        |c.heard[2]|))
  }

  ghost predicate Received(c: Conn) {
    if c.relaying then Flatten(c.heard) <= c.received
    else c.received == Flatten(c.heard) + c.taken + c.input.pending
  }

  // Fallback.

  function Streams(l: seq<Info>): seq<Addr> {
    if l == [] then [] else (if l[0].stream then [l[0].addr] else []) + Streams(l[1..])
  }

  predicate ByName(c: Conn) {
    c.request.atyp == R.DOMAINNAME
  }

  function Found(c: Conn): seq<Info> {
    if c.dnsResult.Some? then c.dnsResult.value else []
  }

  predicate Suffix(l: seq<Info>, all: seq<Info>) {
    |l| <= |all| && l == all[|all| - |l|..]
  }

  /** What has been dialled, then what is left to dial, is what was found, in its order. */
  predicate Dialled(c: Conn) {
    if ByName(c) then Suffix(c.dnsNext, Found(c)) && c.tried + Streams(c.dnsNext) == Streams(Found(c))
    else c.dnsNext == [] && (c.tried == [] || c.tried == [Target(c)])
  }

  /** The entry before those left is the one that was dialled. */
  predicate JustDialled(left: seq<Info>, all: seq<Info>) {
    |left| < |all| && all[|all| - |left| - 1].stream
  }

  predicate Connects(c: Conn) {
    |c.heard| == 3 && c.request.command == R.CONNECT
  }

  ghost predicate FallbackOk(c: Conn) {
    && (if Connects(c) then Dialled(c) else c.tried == [] && c.dnsNext == [])
    && (c.answer != [] && c.reply != R.SUCCEEDED ==>
          c.dnsNext == [] && (Connects(c) && !ByName(c) && Literal(c) ==> c.tried == [Target(c)]))
    && (c.answer != [] && c.reply == R.SUCCEEDED ==> Connects(c) && c.tried != [])
  }

  predicate Literal(c: Conn) {
    c.request.atyp == R.IPV4 || c.request.atyp == R.IPV6
  }

  /** The credentials have been accepted. */
  ghost predicate Admitted(c: Conn) {
    |c.heard| >= 2 && StatusOf(c.users, c.heard[1]) == A.SUCCESS
  }

  /** The last address waited for failed with entries left, none of which can be dialled. */
  predicate Masked(c: Conn) {
    ByName(c) && c.waited && Found(c) != [] && !Found(c)[|Found(c)| - 1].stream
  }

  /** The errno that the reply to a CONNECT which could not be carried out reports. */
  function Blamed(c: Conn): nat {
    if ByName(c) && (c.dnsError != 0 || (c.dnsResult.Some? && Streams(Found(c)) == [])) then EHOSTUNREACH
    else if Masked(c) then EHOSTUNREACH
    else c.lastError
  }

  /** The reply code is the one for what was wrong with the request. */
  ghost predicate CodeFits(c: Conn) {
    if |c.heard| == 3 then
      && (c.request.command != R.CONNECT ==> c.reply == R.COMMAND_NOT_SUPPORTED)
      && (Connects(c) && c.reply != R.SUCCEEDED ==> c.reply == ReplyFor(Blamed(c)))
    else
      || (R.Grammar(c.taken).BadAtyp? && c.reply == R.ADDRESS_TYPE_NOT_SUPPORTED)
      || (R.Grammar(c.taken).BadVersion? && c.reply == R.GENERAL_FAILURE)
  }

  ghost predicate Hist(c: Conn) {
    && HeardOk(c) && Received(c) && Said(c) && FallbackOk(c)
    && (c.answer != [] ==> Admitted(c) && CodeFits(c))
  }

  ghost predicate PipesOk(c: Conn) {
    c.input.Valid() && c.output.Valid() && c.input.capacity == c.output.capacity == CAPACITY
  }

  /** Nothing has been asked of any origin. */
  predicate Quiet(c: Conn) {
    && c.origin.NoOrigin? && c.originInterest == NOOP && c.dns.NotAsked?
    && c.dnsError == 0 && c.dnsResult.None? && c.dnsNext == [] && c.tried == []
  }

  predicate Drained(c: Conn) {
    c.output == Fresh(CAPACITY)
  }

  ghost predicate InHello(c: Conn) {
    && c.heard == [] && Quiet(c) && Drained(c) && c.client == READ
    && c.hello == Consume(H.Feed, H.IsDone, H.Init, c.taken).0 && !H.IsDone(c.hello)
  }

  ghost predicate InAuth(c: Conn) {
    && |c.heard| == 1 && H.USERNAME_PASSWORD in Methods(c.heard[0]) && Quiet(c) && Drained(c) && c.client == READ
    && !A.IsDone(c.auth)
    && exists p :: A.Initial(p) && c.auth == Consume(A.Feed, A.IsDone, p, c.taken).0
  }

  ghost predicate InRequest(c: Conn) {
    && |c.heard| == 2 && StatusOf(c.users, c.heard[1]) == A.SUCCESS && Quiet(c) && Drained(c) && c.client == READ
    && !R.IsDone(c.request)
    && exists p :: R.Initial(p) && c.request == Consume(R.Feed, R.IsDone, p, c.taken).0
  }

  /** Waiting for a connect to finish, or for names. */
  ghost predicate InConnecting(c: Conn) {
    Connects(c) && Drained(c) && c.client == NOOP && Awaits(c)
  }

  predicate Awaits(c: Conn) {
    (if c.origin.Pending? then
          c.originInterest == WRITE && !c.dns.Asked? && !c.dns.Stored? && c.tried != []
          && (ByName(c) ==> c.dnsResult.Some? && c.dnsError == 0 && JustDialled(c.dnsNext, Found(c)))
        else
          && c.origin.NoOrigin? && c.originInterest == NOOP && ByName(c) && c.tried == [] && !c.dns.NotAsked?
          && (if c.dns.Asked? then c.dns.job == Wanted(c) && c.dnsResult.None? && c.dnsError == 0 && c.dnsNext == []
              else c.dnsNext == Found(c) && (c.dnsError == 0 <==> c.dnsResult.Some?)))
  }

  ghost predicate InReply(c: Conn) {
    && c.client == WRITE && c.output.pending != [] && c.answer != []
    && !c.origin.Pending? && !c.originInterest.write && (c.reply == R.SUCCEEDED <==> c.origin.Up?)
    && !c.dns.Asked? && !c.dns.Stored?
  }

  ghost predicate Live(c: Conn) {
    if c.current.None? then
      c.heard == [] && c.taken == c.input.pending == [] && Quiet(c) && Drained(c) && c.client == READ
    else match c.current.value
      case HelloRead => InHello(c)
      case HelloWrite =>
        && |c.heard| == 1 && c.taken == [] && Quiet(c) && c.client == WRITE && c.output.pending != []
        && c.hello.selected == H.Choice(Methods(c.heard[0]))
      case AuthRead => InAuth(c)
      case AuthWrite =>
        && |c.heard| == 2 && c.taken == [] && Quiet(c) && c.client == WRITE && c.output.pending != []
        && c.authStatus == StatusOf(c.users, c.heard[1])
      case RequestRead => InRequest(c)
      case Connecting => InConnecting(c)
      case RequestWrite => InReply(c)
      case _ => false
  }

  ghost predicate RelayOk(c: Conn) {
    && c.logged == [LogEntry(c)] && c.open && c.current == Some(Relay) && Connects(c) && c.reply == R.SUCCEEDED && c.origin.Up?
    && c.input == c.output == Fresh(CAPACITY)
    && c.client == RelaySpec.Start(0).clientInterest && c.originInterest == RelaySpec.Start(0).originInterest
  }

  ghost predicate Inv(c: Conn) {
    && PipesOk(c) && !c.aborted && Hist(c)
    && (if c.relaying then RelayOk(c) else c.logged == [])
    && (c.open && !c.relaying ==> Live(c))
  }

  // Messages.

  lemma {:induction false} FlattenSnoc(ms: seq<bytes>, m: bytes)
    ensures Flatten(ms + [m]) == Flatten(ms) + m
  {
    if ms == [] {
      assert [m][1..] == [];
    } else {
      FlattenSnoc(ms[1..], m);
      assert (ms + [m])[1..] == ms[1..] + [m];
    }
  }

  /** A parser that has taken bytes of a stream and put aside what it did not need keeps the stream whole. */
  lemma TakenMore(c: Conn, n: nat)
    requires !c.relaying && Received(c) && n <= |c.input.pending|
    ensures c.received == Flatten(c.heard) + (c.taken + c.input.pending[..n]) + c.input.pending[n..]
    ensures c.input.Take(n).pending == c.input.pending[n..]
    ensures c.received == Flatten(c.heard + [c.taken + c.input.pending[..n]]) + [] + c.input.pending[n..]
  {
    hide Flatten;
    FlattenSnoc(c.heard, c.taken + c.input.pending[..n]);
    var p := c.input.pending;
    assert p == p[..n] + p[n..];
    assert Flatten(c.heard) + c.taken + p == Flatten(c.heard) + (c.taken + p[..n]) + p[n..];
  }

  lemma HelloMessage(c: Conn)
    requires InHello(c)
    ensures var (q, n) := Consume(H.Feed, H.IsDone, c.hello, c.input.pending);
            var m := c.taken + c.input.pending[..n];
            && q == Consume(H.Feed, H.IsDone, H.Init, m).0
            && (q.state.Done? ==> H.Grammar(m) == H.Offer(Methods(m), |m|) && q.selected == H.Choice(Methods(m)))
  {
    var (q, n) := Consume(H.Feed, H.IsDone, c.hello, c.input.pending);
    var m := c.taken + c.input.pending[..n];
    hide Consume, H.Feed, H.Grammar;
    Resume(H.Feed, H.IsDone, H.Init, c.taken, c.input.pending);
    H.MeetsGrammar(m);
  }

  lemma AuthMessage(c: Conn, p: A.Parser)
    requires A.Initial(p) && c.auth == Consume(A.Feed, A.IsDone, p, c.taken).0 && !A.IsDone(c.auth)
    ensures var (q, n) := Consume(A.Feed, A.IsDone, c.auth, c.input.pending);
            var m := c.taken + c.input.pending[..n];
            && q == Consume(A.Feed, A.IsDone, p, m).0
            && (q.state.Done? ==>
                  && A.Grammar(m).Credentials? && A.Grammar(m).n == |m|
                  && CStr(q.uname) == CStr(A.Grammar(m).user) && CStr(q.passwd) == CStr(A.Grammar(m).pass))
  {
    var (q, n) := Consume(A.Feed, A.IsDone, c.auth, c.input.pending);
    var m := c.taken + c.input.pending[..n];
    hide Consume, A.Feed, A.Grammar, CStr;
    Resume(A.Feed, A.IsDone, p, c.taken, c.input.pending);
    A.MeetsGrammar(p, m);
  }

  lemma RequestMessage(c: Conn, p: R.Parser)
    requires R.Initial(p) && c.request == Consume(R.Feed, R.IsDone, p, c.taken).0 && !R.IsDone(c.request)
    ensures var (q, n) := Consume(R.Feed, R.IsDone, c.request, c.input.pending);
            var m := c.taken + c.input.pending[..n];
            && q == Consume(R.Feed, R.IsDone, p, m).0
            && (q.state.ErrorAtyp? ==> R.Grammar(m).BadAtyp?)
            && (q.state.ErrorVersion? ==> R.Grammar(m).BadVersion?)
            && (q.state.Done? ==>
                  && R.Grammar(m) == R.Message.Request(q.command, q.atyp, q.address[..q.addressLen], q.port, |m|)
                  && (q.atyp == R.IPV4 || q.atyp == R.IPV6 || q.atyp == R.DOMAINNAME))
  {
    var (q, n) := Consume(R.Feed, R.IsDone, c.request, c.input.pending);
    var m := c.taken + c.input.pending[..n];
    hide Consume, R.Feed;
    Resume(R.Feed, R.IsDone, p, c.taken, c.input.pending);
    R.MeetsGrammar(p, m);
  }

  // Client events.

  /** Everything but the per-state part of the invariant. */
  ghost predicate Fine(c: Conn) {
    PipesOk(c) && !c.aborted && Hist(c) && c.open && !c.relaying && c.logged == []
  }

  lemma Got(c: Conn, got: bytes)
    requires Fine(c) && |got| <= c.input.room
    ensures Fine(c.(input := c.input.Put(got), received := c.received + got))
  {
    hide H.Grammar, A.Grammar, R.Grammar, StatusOf, Methods, Flatten, Streams, CStr;
    assert c.received + got == Flatten(c.heard) + c.taken + (c.input.pending + got);
  }

  lemma HelloStep(c: Conn)
    requires Fine(c) && c.current == Some(HelloRead) && InHello(c)
    ensures var (c1, s) := HelloReady(c); Inv(Apply(Jump(c1, s), s))
  {
    hide Consume, H.Feed, H.Grammar, Hist, Methods;
    NotAnswered(c);
    var (q, n) := Consume(H.Feed, H.IsDone, c.hello, c.input.pending);
    HelloMessage(c);
    var c1 := c.(hello := q, taken := c.taken + c.input.pending[..n], input := c.input.Take(n));
    HelloTaken(c, c1, n);
    if q.state.ErrorVersion? {
      Ends(c1, Error);
    } else if q.state.Done? {
      HelloHeard(c1);
    } else {
      Watches(c1, READ);
    }
  }

  lemma HelloTaken(c: Conn, c1: Conn, n: nat)
    requires Fine(c) && |c.heard| < 2 && n <= |c.input.pending|
    requires c1 == c.(hello := c1.hello, taken := c.taken + c.input.pending[..n], input := c.input.Take(n))
    ensures Fine(c1)
  {
    hide H.Grammar, A.Grammar, R.Grammar, Flatten, StatusOf, Methods;
    TakenMore(c, n);
  }

  /** The negotiation has been read and answered. */
  lemma HelloHeard(c: Conn)
    requires Fine(c) && c.heard == [] && Quiet(c) && Drained(c) && c.current == Some(HelloRead) && c.answer == []
    requires H.Grammar(c.taken) == H.Offer(Methods(c.taken), |c.taken|) && c.hello.selected == H.Choice(Methods(c.taken))
    ensures Inv(Heard(c).(output := c.output.Put(H.Reply(c.hello.selected)), current := Some(HelloWrite), client := WRITE))
  {
    hide H.Grammar, A.Grammar, R.Grammar, Flatten, StatusOf, Methods, Streams;
    FlattenSnoc(c.heard, c.taken);
    assert c.sent + [] == c.sent;
  }

  /** The status the handler computes is the status of the message. */
  lemma StatusIs(users: U.Slots, m: bytes, q: A.Parser)
    requires A.Grammar(m).Credentials?
    requires CStr(q.uname) == CStr(A.Grammar(m).user) && CStr(q.passwd) == CStr(A.Grammar(m).pass)
    ensures StatusOf(Some(users), m)
            == if U.Lookup(users, CStr(q.uname), CStr(q.passwd)) then A.SUCCESS else A.FAILURE
  {
    hide CStr, U.Lookup, A.Grammar;
  }

  /** The credentials have been read and answered. */
  lemma AuthHeard(c: Conn, d: Conn, status: byte)
    requires Fine(c) && |c.heard| == 1 && H.USERNAME_PASSWORD in Methods(c.heard[0]) && c.answer == [] && Drained(c)
    requires c.current == Some(AuthRead)
    requires A.Grammar(c.taken).Credentials? && A.Grammar(c.taken).n == |c.taken|
    requires CStr(c.auth.uname) == CStr(A.Grammar(c.taken).user)
    requires d.users.Some? && U.Valid(d.users.value) && status == StatusOf(d.users, c.taken)
    requires d == Heard(c).(authStatus := status, users := d.users, output := c.output.Put(A.Reply(status)))
    ensures Fine(d) && d.output.pending != []
  {
    hide A.Grammar, H.Grammar, R.Grammar, Flatten, Methods, U.Valid, StatusOf, CStr;
    FlattenSnoc(c.heard, c.taken);
    assert d.received == Flatten(d.heard) + d.taken + d.input.pending;
    assert c.sent + [] == c.sent && MethodReply(c) + [] + [] == MethodReply(c);
    assert d.sent + d.output.pending == MethodReply(d) + AuthReply(d) + [];
  }

  lemma AuthTaken(c: Conn, c1: Conn, n: nat)
    requires Fine(c) && |c.heard| < 2 && n <= |c.input.pending|
    requires c1 == c.(auth := c1.auth, taken := c.taken + c.input.pending[..n], input := c.input.Take(n))
    ensures Fine(c1)
  {
    hide H.Grammar, A.Grammar, R.Grammar, Flatten, StatusOf, Methods;
    TakenMore(c, n);
  }

  lemma AuthStep(c: Conn, w: World)
    requires Fine(c) && c.current == Some(AuthRead) && InAuth(c) && U.Valid(w.users)
    ensures var (c1, s) := AuthReady(c, w); Inv(Apply(Jump(c1, s), s))
  {
    hide Consume, A.Feed, A.Grammar, Hist, Methods, CStr, U.Lookup, U.Valid, StatusOf;
    NotAnswered(c);
    var p :| A.Initial(p) && c.auth == Consume(A.Feed, A.IsDone, p, c.taken).0;
    var (q, n) := Consume(A.Feed, A.IsDone, c.auth, c.input.pending);
    AuthMessage(c, p);
    var c1 := c.(auth := q, taken := c.taken + c.input.pending[..n], input := c.input.Take(n));
    AuthTaken(c, c1, n);
    if q.state.ErrorVersion? {
      Ends(c1, Error);
    } else if q.state.Done? {
      StatusIs(w.users, c1.taken, q);
      var (d, s) := AuthReady(c, w);
      AuthHeard(c1, d, d.authStatus);
      AuthAnswered(d);
    } else {
      Watches(c1, READ);
    }
  }

  lemma AuthAnswered(d: Conn)
    requires Fine(d) && d.current == Some(AuthRead) && |d.heard| == 2 && d.taken == [] && Quiet(d)
    requires d.output.pending != [] && d.authStatus == StatusOf(d.users, d.heard[1])
    ensures Inv(d.(current := Some(AuthWrite), client := WRITE))
  {
    hide H.Grammar, A.Grammar, R.Grammar, Flatten, StatusOf, Methods;
  }

  // Connecting.

  /** Dialling touches nothing else. */
  predicate OnlyDials(c: Conn, d: Conn) {
    d == c.(tried := d.tried, dnsNext := d.dnsNext, origin := d.origin, originInterest := d.originInterest, reply := d.reply,
            lastError := d.lastError, waited := d.waited)
  }

  /** How a round of dialling may end. */
  predicate Settles(d: Conn, status: nat) {
    if status == 0 then d.origin.Up? && d.originInterest == NOOP && d.tried != []
    else if status == EINPROGRESS then d.origin.Pending? && d.originInterest == WRITE && d.tried != []
    else d.origin.NoOrigin? && d.originInterest == NOOP && d.dnsNext == []
  }

  lemma StreamsNext(l: seq<Info>)
    ensures l == [] ==> Streams(l) == []
    ensures l != [] && l[0].stream ==> Streams(l) == [l[0].addr] + Streams(l[1..])
    ensures l != [] && !l[0].stream ==> Streams(l) == Streams(l[1..])
  {
  }

  lemma {:induction false} StreamsLast(l: seq<Info>)
    requires l != [] && Streams(l) == []
    ensures !l[|l| - 1].stream
  {
    if |l| > 1 { StreamsLast(l[1..]); }
  }

  /** A round of dialling has ended with these entries left, out of those. */
  predicate Leaves(c: Conn, d: Conn, last: nat, status: nat) {
    && Suffix(d.dnsNext, c.dnsNext)
    && if status == 0 || status == EINPROGRESS then JustDialled(d.dnsNext, c.dnsNext)
       else if Streams(c.dnsNext) == [] then status == last && d.lastError == c.lastError && d.waited == c.waited
       else status == d.lastError && !d.waited
  }

  /** The first entry has been dealt with, and then the others. */
  lemma LeavesMore(c: Conn, c1: Conn, d: Conn, last: nat, status: nat)
    requires c.dnsNext != [] && c1.dnsNext == c.dnsNext[1..] && c1.lastError == c.lastError && c1.waited == c.waited
    requires !c.dnsNext[0].stream && Leaves(c1, d, last, status)
    ensures Leaves(c, d, last, status)
  {
  }

  lemma LeavesAfter(c: Conn, c2: Conn, d: Conn, last: nat, status: nat, status': nat)
    requires c.dnsNext != [] && c2.dnsNext == c.dnsNext[1..] && c2.lastError == status && !c2.waited
    requires c.dnsNext[0].stream && Leaves(c2, d, status, status')
    ensures Leaves(c, d, last, status')
  {
  }

  lemma OnlyDialsTwice(c: Conn, d: Conn, e: Conn)
    requires OnlyDials(c, d) && OnlyDials(d, e)
    ensures OnlyDials(c, e)
  {
  }

  /** One attempt. */
  lemma DialOnce(c: Conn, addr: Addr, a: Attempt)
    requires AttemptOk(a) && c.origin.NoOrigin? && c.originInterest == NOOP
    ensures var (d, status) := Dial(c, addr, a);
            && d.dnsNext == c.dnsNext && d.tried == c.tried + [addr] && (!c.aborted ==> OnlyDials(c, d) && !d.aborted)
            && (if status == 0 || status == EINPROGRESS then Settles(d, status)
                else d.lastError == status && !d.waited && d.origin.NoOrigin? && d.originInterest == NOOP && Fault(status))
  {
    hide OnlyDials;
    if !c.aborted { DialOnlyDials(c, addr, a); }
  }

  lemma DialOnlyDials(c: Conn, addr: Addr, a: Attempt)
    requires c.origin.NoOrigin? && !c.aborted
    ensures var d := Dial(c, addr, a).0; OnlyDials(c, d) && !d.aborted
  {
  }

  lemma SkipOnlyDials(c: Conn)
    requires c.dnsNext != []
    ensures OnlyDials(c, c.(dnsNext := c.dnsNext[1..]))
  {
  }

  lemma SameOnlyDials(c: Conn)
    ensures OnlyDials(c, c)
  {
  }

  lemma {:induction false} DialsInOrder(c: Conn, last: nat, attempts: seq<Attempt>)
    requires |attempts| >= |c.dnsNext| && (forall a :: a in attempts ==> AttemptOk(a)) && Fault(last)
    requires c.origin.NoOrigin? && c.originInterest == NOOP && !c.aborted
    ensures var (d, status) := DialNext(c, last, attempts);
            && OnlyDials(c, d) && Settles(d, status)
            && d.tried + Streams(d.dnsNext) == c.tried + Streams(c.dnsNext)
            && |d.dnsNext| <= |c.dnsNext|
    decreases |c.dnsNext|
  {
    hide Streams, OnlyDials, Dial;
    StreamsNext(c.dnsNext);
    if c.dnsNext == [] {
      SameOnlyDials(c);
    } else {
      var info, rest := c.dnsNext[0], c.dnsNext[1..];
      var c1 := c.(dnsNext := rest);
      SkipOnlyDials(c);
      assert forall a :: a in attempts[1..] ==> a in attempts;
      if !info.stream {
        DialsInOrder(c1, last, attempts[1..]);
        OnlyDialsTwice(c, c1, DialNext(c1, last, attempts[1..]).0);
      } else {
        var (c2, status) := Dial(c1, info.addr, attempts[0]);
        assert attempts[0] in attempts;
        DialOnce(c1, info.addr, attempts[0]);
        OnlyDialsTwice(c, c1, c2);
        assert c.tried + [info.addr] + Streams(rest) == c.tried + ([info.addr] + Streams(rest));
        if status != 0 && status != EINPROGRESS {
          DialsInOrder(c2, status, attempts[1..]);
          OnlyDialsTwice(c, c2, DialNext(c2, status, attempts[1..]).0);
        }
      }
    }
  }

  /** What is left of a list after a round of dialling, and the error the round reports. */
  lemma {:induction false} DialsLeave(c: Conn, last: nat, attempts: seq<Attempt>)
    requires |attempts| >= |c.dnsNext| && (forall a :: a in attempts ==> AttemptOk(a)) && Fault(last)
    requires c.origin.NoOrigin? && c.originInterest == NOOP
    ensures var (d, status) := DialNext(c, last, attempts); Leaves(c, d, last, status)
    decreases |c.dnsNext|
  {
    hide Streams, Leaves, Dial;
    if c.dnsNext != [] {
      var info, rest := c.dnsNext[0], c.dnsNext[1..];
      var c1 := c.(dnsNext := rest);
      assert forall a :: a in attempts[1..] ==> a in attempts;
      if !info.stream {
        DialsLeave(c1, last, attempts[1..]);
        var (d, status) := DialNext(c1, last, attempts[1..]);
        LeavesMore(c, c1, d, last, status);
      } else {
        assert attempts[0] in attempts;
        DialOnce(c1, info.addr, attempts[0]);
        var (c2, status) := Dial(c1, info.addr, attempts[0]);
        if status != 0 && status != EINPROGRESS {
          DialsLeave(c2, status, attempts[1..]);
          var (d, status') := DialNext(c2, status, attempts[1..]);
          LeavesAfter(c, c2, d, last, status, status');
        } else {
          LeavesNow(c, c2, last, status);
        }
      }
    } else {
      LeavesAll(c, last);
    }
  }

  lemma LeavesNow(c: Conn, d: Conn, last: nat, status: nat)
    requires c.dnsNext != [] && c.dnsNext[0].stream && d.dnsNext == c.dnsNext[1..] && (status == 0 || status == EINPROGRESS)
    ensures Leaves(c, d, last, status)
  {
  }

  lemma LeavesAll(c: Conn, last: nat)
    requires c.dnsNext == [] && Fault(last)
    ensures Leaves(c, c, last, last)
  {
  }

  /** A CONNECT about to be carried out: nothing dialled yet, names not asked for or just answered. */
  predicate Ready(c: Conn) {
    && (Literal(c) || ByName(c)) && c.origin.NoOrigin? && c.originInterest == NOOP && c.tried == [] && !c.aborted
    && (Quiet(c)
        || (ByName(c) && c.dns.Answered? && c.dnsNext == Found(c) && (c.dnsError == 0 <==> c.dnsResult.Some?)))
  }

  predicate OnlyConnects(c: Conn, d: Conn) {
    d == c.(tried := d.tried, dnsNext := d.dnsNext, origin := d.origin, originInterest := d.originInterest, reply := d.reply,
            dns := d.dns, dnsError := d.dnsError, dnsResult := d.dnsResult, lastError := d.lastError, waited := d.waited)
  }

  lemma ConnectEffect(c: Conn, w: World)
    requires Ready(c) && WorldOk(c, w)
    ensures var (d, status) := ConnectToOrigin(c, w);
            && OnlyConnects(c, d) && Dialled(d)
            && (if status == EINPROGRESS then Awaits(d)
                else Settles(d, status) && !d.dns.Asked? && !d.dns.Stored?
                     && (Literal(c) ==> d.tried == [Target(c)])
                     && (status != 0 ==> status == Blamed(d)))
  {
    hide Streams, ConnectToOrigin, Suffix, JustDialled, Blamed;
    if Literal(c) {
      ConnectsLiteral(c, w);
    } else if c.dns.Answered? && c.dnsError == 0 {
      ConnectsResolved(c, w);
    } else {
      ConnectsUnresolved(c, w);
    }
  }

  lemma ConnectsUnresolved(c: Conn, w: World)
    requires Ready(c) && WorldOk(c, w) && ByName(c) && (Quiet(c) || c.dnsError != 0)
    ensures var (d, status) := ConnectToOrigin(c, w);
            && OnlyConnects(c, d) && Dialled(d)
            && (if status == EINPROGRESS then Awaits(d)
                else Settles(d, status) && !d.dns.Asked? && !d.dns.Stored? && status != 0 && status == Blamed(d))
  {
    hide DialNext, Dial;
    assert Streams([]) == [];
    var (d, status) := ConnectToOrigin(c, w);
    assert Found(d) == [] && d.dnsNext == [];
    if c.dnsError != 0 {
      assert status == EHOSTUNREACH;
    } else if w.dnsStart != 0 {
      assert status == d.lastError;
    }
  }

  /** The first round of dialling what a name was resolved to. */
  lemma FirstRound(c: Conn, d: Conn, status: nat)
    requires ByName(c) && c.dnsError == 0 && c.dnsResult.Some? && c.dnsNext == Found(c) && c.tried == []
    requires OnlyDials(c, d) && Leaves(c, d, EHOSTUNREACH, status) && Settles(d, status)
    requires d.tried + Streams(d.dnsNext) == c.tried + Streams(c.dnsNext)
    ensures Dialled(d) && (status == 0 || status == EINPROGRESS ==> JustDialled(d.dnsNext, Found(d)))
    ensures status != 0 && status != EINPROGRESS ==> status == Blamed(d)
  {
    hide Streams;
    assert [] + Streams(c.dnsNext) == Streams(c.dnsNext);
  }

  lemma ConnectsLiteral(c: Conn, w: World)
    requires Ready(c) && WorldOk(c, w) && Literal(c)
    ensures var (d, status) := ConnectToOrigin(c, w);
            && OnlyConnects(c, d) && Dialled(d)
            && (if status == EINPROGRESS then Awaits(d)
                else Settles(d, status) && !d.dns.Asked? && !d.dns.Stored? && d.tried == [Target(c)]
                     && (status != 0 ==> status == Blamed(d)))
  {
    hide Streams, Dial;
    assert w.attempts[0] in w.attempts;
    DialOnce(c, Target(c), w.attempts[0]);
  }

  lemma ConnectsResolved(c: Conn, w: World)
    requires Ready(c) && WorldOk(c, w) && ByName(c) && c.dns.Answered? && c.dnsError == 0
    ensures var (d, status) := ConnectToOrigin(c, w);
            && OnlyDials(c, d) && Dialled(d) && Settles(d, status)
            && (if status == EINPROGRESS then Awaits(d) else status != 0 ==> status == Blamed(d))
  {
    hide Streams, DialNext;
    var (d, status) := DialNext(c, EHOSTUNREACH, w.attempts);
    DialsInOrder(c, EHOSTUNREACH, w.attempts);
    DialsLeave(c, EHOSTUNREACH, w.attempts);
    FirstRound(c, d, status);
  }

  /** A connection whose request can be answered with the reply code it holds. */
  ghost predicate Answerable(c: Conn) {
    && Fine(c) && Drained(c) && c.answer == [] && Admitted(c) && CodeFits(c)
    && !c.origin.Pending? && !c.originInterest.write && !c.dns.Asked? && !c.dns.Stored?
    && (c.reply == R.SUCCEEDED <==> c.origin.Up?)
    && (c.reply == R.SUCCEEDED ==> Connects(c) && c.tried != [])
    && (c.reply != R.SUCCEEDED ==> c.dnsNext == [] && (Connects(c) && !ByName(c) && Literal(c) ==> c.tried == [Target(c)]))
  }

  lemma Marshalled(c: Conn, w: World)
    requires PipesOk(c) && Drained(c)
    ensures var (c1, s) := MarshallReply(c, w);
            && s == RequestWrite && c1 == c.(output := c1.output, answer := c1.answer)
            && c1.output.Valid() && c1.output.capacity == CAPACITY
            && c1.output.pending == c1.answer != [] && IsReply(c.reply, c1.answer)
  {
    var a := if c.reply == R.SUCCEEDED && !c.origin.NoOrigin? then w.local else None;
    var bytes := R.Reply(c.reply, R.Bound(a));
    assert [] + bytes == bytes;
  }

  lemma SaidAll(c: Conn, d: Conn)
    requires Said(c) && c.output.pending == [] && c.answer == []
    requires d == c.(output := d.output, answer := d.answer, current := Some(RequestWrite), client := d.client)
    requires d.output.pending == d.answer && IsReply(c.reply, d.answer)
    ensures Said(d)
  {
    assert c.sent + [] == c.sent && MethodReply(c) + AuthReply(c) + [] == MethodReply(c) + AuthReply(c);
  }

  lemma AnsweredHist(c: Conn, d: Conn)
    requires HeardOk(c) && Received(c)
    requires d == c.(output := d.output, answer := d.answer, current := d.current, client := d.client)
    ensures HeardOk(d) && Received(d)
  {
    hide H.Grammar, A.Grammar, R.Grammar, Flatten, StatusOf, Methods;
  }

  lemma AnsweredFits(c: Conn, d: Conn)
    requires Answerable(c) && d == c.(output := d.output, answer := d.answer, current := d.current, client := d.client)
    ensures FallbackOk(d) && Admitted(d) && CodeFits(d)
  {
    hide HeardOk, Received, Said, R.Grammar, StatusOf, Streams;
  }

  /** The write buffer is empty whenever a reply is marshalled, so marshalling never fails. */
  lemma Answers(c: Conn, w: World)
    requires Answerable(c)
    ensures var (c1, s) := MarshallReply(c, w);
            && s == RequestWrite && c1.output.pending != [] && c1.output.Valid() && c1.answer == c1.output.pending
            && c1 == c.(output := c1.output, answer := c1.answer)
            && Inv(c1.(current := Some(RequestWrite), client := WRITE))
  {
    hide HeardOk, Received, Said, FallbackOk, Admitted, CodeFits, MarshallReply, IsReply;
    Marshalled(c, w);
    var d := MarshallReply(c, w).0.(current := Some(RequestWrite), client := WRITE);
    SaidAll(c, d);
    AnsweredHist(c, d);
    AnsweredFits(c, d);
  }

  /** The request's parser has run over what arrived. */
  ghost predicate Parsed(c: Conn, c1: Conn, n: nat) {
    && n <= |c.input.pending|
    && c1 == c.(request := c1.request, taken := c.taken + c.input.pending[..n], input := c.input.Take(n))
  }

  lemma ParsedFine(c: Conn, c1: Conn, n: nat)
    requires Fine(c) && |c.heard| == 2 && Parsed(c, c1, n) && c.answer == []
    requires !(c.current.Some? && Answering(c.current.value))
    ensures Fine(c1)
  {
    hide H.Grammar, A.Grammar, R.Grammar, Flatten, StatusOf, Methods, Said;
    TakenMore(c, n);
    assert Said(c1) by { SaidSame(c, c1); }
  }

  lemma SaidSame(c: Conn, d: Conn)
    requires Said(c) && c.answer == [] && d.answer == [] && d.sent == c.sent && d.output == c.output
    requires d.users == c.users && |d.heard| >= 2 && |c.heard| >= 2 && d.heard[..2] == c.heard[..2]
    requires d.current.Some? ==> !Answering(d.current.value)
    ensures Said(d)
  {
    assert d.heard[0] == d.heard[..2][0] && c.heard[0] == c.heard[..2][0];
    assert d.heard[1] == d.heard[..2][1] && c.heard[1] == c.heard[..2][1];
  }

  lemma HeardFine(c: Conn)
    requires Fine(c) && |c.heard| == 2 && c.answer == [] && Quiet(c) && !(c.current.Some? && Answering(c.current.value))
    requires StatusOf(c.users, c.heard[1]) == A.SUCCESS
    requires R.Grammar(c.taken) == R.Message.Request(c.request.command, c.request.atyp,
                                                     c.request.address[..c.request.addressLen], c.request.port, |c.taken|)
    ensures Fine(Heard(c))
  {
    hide H.Grammar, A.Grammar, R.Grammar, Flatten, StatusOf, Methods, Said;
    FlattenSnoc(c.heard, c.taken);
    var d := Heard(c);
    assert d.received == Flatten(d.heard) + d.taken + d.input.pending;
    assert d.heard[..2] == c.heard[..2];
    SaidSame(c, d);
  }

  lemma NoAnswerYet(c: Conn)
    requires Fine(c) && c.current == Some(RequestRead)
    ensures c.answer == []
  {
  }

  lemma RequestStep(c: Conn, w: World)
    requires Fine(c) && c.current == Some(RequestRead) && InRequest(c) && WorldOk(c, w)
    ensures var (c1, s) := RequestReady(c, w); Inv(Apply(Jump(c1, s), s))
  {
    hide Consume, R.Feed, Hist, StatusOf, ConnectToOrigin, MarshallReply, Inv, U.Valid;
    NoAnswerYet(c);
    var p :| R.Initial(p) && c.request == Consume(R.Feed, R.IsDone, p, c.taken).0;
    RequestMessage(c, p);
    var (q, n) := Consume(R.Feed, R.IsDone, c.request, c.input.pending);
    var c1 := c.(request := q, taken := c.taken + c.input.pending[..n], input := c.input.Take(n));
    ParsedFine(c, c1, n);
    if q.state.ErrorAtyp? {
      Refuses(c1, R.ADDRESS_TYPE_NOT_SUPPORTED, w);
    } else if q.state.ErrorVersion? {
      Refuses(c1, R.GENERAL_FAILURE, w);
    } else if !q.state.Done? {
      assert InRequest(c1);
      Continues(c1);
    } else {
      HeardFine(c1);
      if q.command != R.CONNECT {
        Refuses(Heard(c1), R.COMMAND_NOT_SUPPORTED, w);
      } else {
        CarriesOut(Heard(c1), w);
      }
    }
  }

  lemma Continues(c: Conn)
    requires Fine(c) && c.current == Some(RequestRead) && InRequest(c)
    ensures Inv(Apply(Jump(c, RequestRead), RequestRead))
  {
    hide Hist, Consume, R.Feed, StatusOf;
  }

  /** A request refused without an origin. */
  lemma Refuses(c: Conn, code: byte, w: World)
    requires Fine(c) && Quiet(c) && Drained(c) && c.answer == [] && code != R.SUCCEEDED && !Connects(c) && Admitted(c)
    requires CodeFits(c.(reply := code))
    requires c.current == Some(RequestRead)
    ensures var (c1, s) := MarshallReply(c.(reply := code), w); Inv(Apply(Jump(c1, s), s))
  {
    hide MarshallReply, Inv;
    var d := c.(reply := code);
    Recoded(c, code);
    Answers(d, w);
  }

  lemma Recoded(c: Conn, code: byte)
    requires Fine(c) && c.answer == [] && !(c.current.Some? && Answering(c.current.value))
    ensures Fine(c.(reply := code))
  {
    hide H.Grammar, A.Grammar, R.Grammar, Flatten, StatusOf, Methods, Streams;
  }

  /** What connecting changed leaves the rest of the history alone. */
  lemma ConnectedFine(c: Conn, d: Conn)
    requires Fine(c) && c.answer == [] && OnlyConnects(c, d) && Dialled(d) && Connects(c)
    ensures Fine(d)
  {
    hide H.Grammar, A.Grammar, R.Grammar, Flatten, StatusOf, Methods, Streams;
  }

  lemma CarriesOut(c: Conn, w: World)
    requires Fine(c) && Quiet(c) && Drained(c) && c.answer == [] && Connects(c) && (Literal(c) || ByName(c))
    requires c.current == Some(RequestRead) && WorldOk(c, w)
    ensures var (c2, status) := ConnectToOrigin(c, w);
            if status == EINPROGRESS then Inv(Apply(Jump(c2, Connecting), Connecting))
            else var (c3, s) := MarshallReply(c2.(reply := ReplyFor(status)), w); Inv(Apply(Jump(c3, s), s))
  {
    hide Hist, ConnectToOrigin, MarshallReply, U.Valid, Inv;
    ConnectEffect(c, w);
    var (c2, status) := ConnectToOrigin(c, w);
    ConnectedFine(c, c2);
    if status == EINPROGRESS {
      Awaiting(c2);
    } else {
      Outcome(c2, status, w);
    }
  }

  lemma Awaiting(c: Conn)
    requires Fine(c) && Drained(c) && Connects(c) && Awaits(c) && c.answer == []
    requires !(c.current.Some? && Answering(c.current.value))
    ensures Inv(c.(current := Some(Connecting), client := NOOP))
  {
    hide Suffix, JustDialled, Blamed, H.Grammar, A.Grammar, R.Grammar, Flatten, StatusOf, Methods, Streams;
  }

  lemma CodeIs(c: Conn, status: nat)
    requires Connects(c) && (status == 0 || status == Blamed(c))
    ensures CodeFits(c.(reply := ReplyFor(status)))
  {
  }

  lemma KnownUser(c: Conn)
    requires HeardOk(c) && |c.heard| == 3
    ensures forall code :: Admitted(c.(reply := code))
  {
    hide H.Grammar, A.Grammar, R.Grammar, StatusOf, Methods;
  }

  /** A round of dialling that ended without waiting is answered. */
  lemma Outcome(c: Conn, status: nat, w: World)
    requires Fine(c) && Drained(c) && c.answer == [] && Connects(c) && Settles(c, status) && status != EINPROGRESS
    requires !(c.current.Some? && Answering(c.current.value))
    requires !c.dns.Asked? && !c.dns.Stored? && (Literal(c) ==> c.tried == [Target(c)])
    requires status == 0 || status == Blamed(c)
    ensures var (c1, s) := MarshallReply(c.(reply := ReplyFor(status)), w);
            && s == RequestWrite && c1.output.pending != []
            && Inv(c1.(current := Some(RequestWrite), client := WRITE))
  {
    hide MarshallReply, Inv, HeardOk, Received, Said, FallbackOk, Admitted, CodeFits, Blamed;
    Recoded(c, ReplyFor(status));
    CodeIs(c, status);
    KnownUser(c);
    Answers(c.(reply := ReplyFor(status)), w);
  }

  /** The read handler of an open connection with bytes, and what is made of the state it returns. */
  lemma DispatchInv(c: Conn, w: World)
    requires Fine(c) && WorldOk(c, w) && c.current.Some?
    requires c.current.value.HelloRead? || c.current.value.AuthRead? || c.current.value.RequestRead?
    requires c.current == Some(HelloRead) ==> InHello(c)
    requires c.current == Some(AuthRead) ==> InAuth(c)
    requires c.current == Some(RequestRead) ==> InRequest(c)
    ensures var (c1, s) := Dispatch(c, w); !c1.aborted && Inv(Apply(c1, s))
  {
    hide Hist, InHello, InAuth, InRequest, HelloReady, AuthReady, RequestReady, Apply;
    if c.current == Some(HelloRead) {
      HelloStep(c);
      NoAbort(Jump(HelloReady(c).0, HelloReady(c).1), HelloReady(c).1);
    } else if c.current == Some(AuthRead) {
      AuthStep(c, w);
      NoAbort(Jump(AuthReady(c, w).0, AuthReady(c, w).1), AuthReady(c, w).1);
    } else {
      RequestStep(c, w);
      NoAbort(Jump(RequestReady(c, w).0, RequestReady(c, w).1), RequestReady(c, w).1);
    }
  }

  lemma NoAbort(c: Conn, s: State)
    requires Inv(Apply(c, s))
    ensures !c.aborted
  {
    hide Hist, Live, RelayOk;
  }

  lemma ReadInv(c: Conn, r: RelaySpec.ReadResult, w: World)
    requires Inv(c) && Legal(c, Readable(r, w))
    ensures Inv(OnReadable(c, r, w))
  {
    hide Hist, InHello, InAuth, InRequest, Dispatch, U.Valid;
    match r {
      case Data(got) =>
        var d := c.(input := c.input.Put(got), received := c.received + got);
        Got(c, got);
        ReadableState(c);
        ReadState(c, d);
        Begun(d);
        DispatchInv(First(d), w);
      case ReadAgain => ReadableState(c);
      case _ => Closes(c);
    }
  }

  lemma ReadableState(c: Conn)
    requires Inv(c) && c.open && !c.relaying && c.client.read
    ensures c.client == READ
    ensures c.current.None? || c.current.value.HelloRead? || c.current.value.AuthRead? || c.current.value.RequestRead?
  {
    hide Hist, Consume, StatusOf, Methods;
  }

  lemma ReadState(c: Conn, d: Conn)
    requires Inv(c) && c.open && !c.relaying && c.client.read
    requires d == c.(input := d.input, received := d.received)
    ensures d.current.None? ==> d.heard == [] && d.taken == [] && Quiet(d) && Drained(d) && d.client == READ
    ensures d.current == Some(HelloRead) ==> InHello(d)
    ensures d.current == Some(AuthRead) ==> InAuth(d)
    ensures d.current == Some(RequestRead) ==> InRequest(d)
  {
    hide Hist, Consume, StatusOf;
  }

  lemma Begun(c: Conn)
    requires Fine(c)
    requires c.current.None? ==> c.heard == [] && c.taken == [] && Quiet(c) && Drained(c) && c.client == READ
    ensures Fine(First(c)) && First(c).current.Some?
    ensures c.current.None? ==> First(c).current == Some(HelloRead) && InHello(First(c))
    ensures c.current.Some? ==> First(c) == c
  {
    hide H.Grammar, A.Grammar, R.Grammar, StatusOf, Methods;
  }

  lemma Closes(c: Conn)
    requires Inv(c) && !c.relaying
    ensures Inv(Close(c))
  {
    hide H.Grammar, A.Grammar, R.Grammar, StatusOf, Methods, Flatten, Streams, Live;
  }

  lemma SentHist(c: Conn, d: Conn)
    requires Hist(c) && d == c.(output := d.output, sent := d.sent)
    requires d.sent + d.output.pending == c.sent + c.output.pending
    ensures Hist(d)
  {
    hide H.Grammar, A.Grammar, R.Grammar, StatusOf, Methods, Flatten, Streams;
  }

  lemma Writes(c: Conn, n: nat)
    requires Fine(c) && n <= |c.output.pending|
    ensures Fine(c.(output := c.output.Take(n), sent := c.sent + c.output.pending[..n]))
    ensures c.output.Take(n).pending == c.output.pending[n..]
    ensures c.output.Take(n).pending == [] ==> c.output.Take(n) == Fresh(CAPACITY)
  {
    hide Hist;
    var p := c.output.pending;
    assert p == p[..n] + p[n..];
    assert c.sent + p[..n] + p[n..] == c.sent + p;
    SentHist(c, c.(output := c.output.Take(n), sent := c.sent + p[..n]));
  }

  lemma WriteInv(c: Conn, r: RelaySpec.WriteResult)
    requires Inv(c) && Legal(c, Writable(r))
    ensures Inv(OnWritable(c, r))
  {
    hide Hist, Consume, StatusOf, U.Valid;
    match r {
      case Wrote(n) =>
        if n == 0 {
          Closes(c);
        } else {
          WritableState(c);
          Writes(c, n);
          var c1 := c.(output := c.output.Take(n), sent := c.sent + c.output.pending[..n]);
          match c1.current.value {
            case HelloWrite => if c1.output.pending == [] { HelloSent(c1); }
            case AuthWrite => if c1.output.pending == [] { AuthSent(c1); }
            case _ => if c1.output.pending == [] { ReplySent(c1); }
          }
        }
      case WriteAgain => WritableState(c);
      case WriteFailed => Closes(c);
    }
  }

  lemma WritableState(c: Conn)
    requires Inv(c) && c.open && !c.relaying && c.client.write
    ensures c.client == WRITE && c.current.Some?
    ensures c.current.value.HelloWrite? || c.current.value.AuthWrite? || c.current.value.RequestWrite?
  {
    hide Hist, Consume, StatusOf, Methods;
  }

  /** A message has been answered and the next parser has just been initialised. */
  lemma NextMessage(c: Conn, s: State)
    requires Fine(c) && c.taken == [] && c.answer == [] && (s.AuthRead? || s.RequestRead?)
    requires |c.heard| == if s.AuthRead? then 1 else 2
    requires c.current.Some? && c.current.value != s
    ensures Fine(Jump(c, s))
  {
    hide H.Grammar, A.Grammar, R.Grammar, StatusOf, Methods, Flatten, Streams;
  }

  lemma Watches(c: Conn, i: Interest)
    requires Fine(c)
    ensures Fine(c.(client := i))
  {
    hide H.Grammar, A.Grammar, R.Grammar, StatusOf, Methods, Flatten, Streams;
  }

  lemma HelloSent(c: Conn)
    requires Fine(c) && c.current == Some(HelloWrite) && Drained(c)
    requires |c.heard| == 1 && c.taken == [] && Quiet(c) && c.hello.selected == H.Choice(Methods(c.heard[0]))
    ensures var (c2, s) := HandlerWrite(c); Inv(Apply(c2, s))
  {
    hide Hist, Methods;
    NotAnswered(c);
    if c.hello.selected == H.NO_ACCEPTABLE_METHODS {
      Ends(c, Error);
    } else {
      NextMessage(c, AuthRead);
      var d := Jump(c, AuthRead);
      Watches(d, READ);
      assert A.Initial(d.auth) && d.auth == Consume(A.Feed, A.IsDone, d.auth, d.taken).0;
    }
  }

  lemma NotAnswered(c: Conn)
    requires Fine(c) && !(c.current.Some? && Answering(c.current.value))
    ensures c.answer == []
  {
  }

  /** A failure before the request was answered. */
  lemma Ends(c: Conn, s: State)
    requires Fine(c) && c.answer == [] && s.Error? && !(c.current.Some? && Answering(c.current.value))
    ensures Inv(Apply(Jump(c, s), s))
  {
    hide Inv, Hist;
    EndsHist(c, Close(c.(current := Some(Error))));
    Ended(Close(c.(current := Some(Error))));
  }

  lemma EndsHist(c: Conn, d: Conn)
    requires Hist(c) && c.answer == [] && !c.relaying && !(c.current.Some? && Answering(c.current.value))
    requires d == c.(current := Some(Error), open := false, client := d.client, origin := d.origin, originInterest := d.originInterest)
    ensures Hist(d)
  {
    hide H.Grammar, A.Grammar, R.Grammar, StatusOf, Methods, Flatten, Streams, CodeFits, Admitted;
  }

  lemma Ended(c: Conn)
    requires PipesOk(c) && !c.aborted && Hist(c) && !c.open && !c.relaying && c.logged == []
    ensures Inv(c)
  {
    hide Hist, PipesOk;
  }

  lemma AuthSent(c: Conn)
    requires Fine(c) && c.current == Some(AuthWrite) && Drained(c)
    requires |c.heard| == 2 && c.taken == [] && Quiet(c) && c.authStatus == StatusOf(c.users, c.heard[1])
    ensures var (c2, s) := HandlerWrite(c); Inv(Apply(c2, s))
  {
    hide Hist, StatusOf;
    NotAnswered(c);
    if c.authStatus != A.SUCCESS {
      Ends(c, Error);
    } else {
      NextMessage(c, RequestRead);
      var d := Jump(c, RequestRead);
      Watches(d, READ);
      assert R.Initial(d.request) && d.request == Consume(R.Feed, R.IsDone, d.request, d.taken).0;
    }
  }

  lemma ReplySent(c: Conn)
    requires Fine(c) && c.current == Some(RequestWrite) && Drained(c) && c.answer != []
    requires c.reply == R.SUCCEEDED <==> c.origin.Up?
    ensures var (c2, s) := HandlerWrite(c); Inv(Apply(c2, s))
  {
    hide Inv, Hist;
    if c.reply == R.SUCCEEDED { RelayBegins(c); } else { RefusalSent(c); }
  }

  lemma RelayBegins(c: Conn)
    requires Fine(c) && c.current == Some(RequestWrite) && Drained(c) && c.answer != []
    requires c.reply == R.SUCCEEDED && c.origin.Up?
    ensures Inv(StartRelay(c.(logged := c.logged + [LogEntry(c)])).(current := Some(Relay)))
  {
    hide H.Grammar, A.Grammar, R.Grammar, StatusOf, Methods, Flatten, Streams, CStr;
    var d := StartRelay(c.(logged := c.logged + [LogEntry(c)])).(current := Some(Relay));
    assert d.logged == [LogEntry(d)];
  }

  lemma RefusalSent(c: Conn)
    requires Fine(c) && c.current == Some(RequestWrite) && Drained(c) && c.answer != []
    ensures Inv(Close(c.(current := Some(Done))))
  {
    hide H.Grammar, A.Grammar, R.Grammar, StatusOf, Methods, Flatten, Streams, CStr;
  }

  // Origin events.

  lemma OriginState(c: Conn)
    requires Inv(c) && c.open && !c.relaying && (c.origin.Pending? || c.dns.Asked? || c.dns.Stored?)
    ensures Fine(c) && c.current == Some(Connecting) && InConnecting(c) && c.answer == []
  {
    hide Consume, Hist, StatusOf, Methods;
    assert c.current == Some(Connecting);
    NotAnswered(c);
  }

  lemma {:induction false} StreamsSome(l: seq<Info>, all: seq<Info>)
    requires Suffix(l, all) && JustDialled(l, all)
    ensures |Streams(l)| < |Streams(all)|
  {
    if |all| > |l| + 1 { StreamsSome(l, all[1..]); } else { assert all[1..] == l; }
  }

  /** A connect that was waited for failed, and nothing is left. */
  lemma Alone(d: Conn)
    requires d.waited && (ByName(d) ==> d.dnsError == 0 && d.dnsNext == [] && Dialled(d) && JustDialled([], Found(d)))
    ensures Blamed(d) == d.lastError
  {
    if ByName(d) { StreamsSome([], Found(d)); }
  }

  /** A connect that was waited for failed, and what was left has been gone through. */
  lemma LeftOver(c: Conn, d: Conn, status: nat)
    requires ByName(c) && c.dnsError == 0 && c.waited && c.dnsNext != [] && Dialled(c) && JustDialled(c.dnsNext, Found(c))
    requires OnlyDials(c, d) && Leaves(c, d, EHOSTUNREACH, status)
    requires d.tried + Streams(d.dnsNext) == c.tried + Streams(c.dnsNext)
    ensures Dialled(d) && (status == 0 || status == EINPROGRESS ==> JustDialled(d.dnsNext, Found(d)))
    ensures status != 0 && status != EINPROGRESS ==> status == Blamed(d)
  {
    var f, l := Found(c), c.dnsNext;
    StreamsSome(l, f);
    assert f[|f| - 1] == l[|l| - 1];
    if Streams(l) == [] { StreamsLast(l); }
    assert forall k :: 0 <= k < |l| ==> l[k] == f[|f| - |l| + k];
  }

  lemma OriginInv(c: Conn, error: nat, w: World)
    requires Inv(c) && Legal(c, OriginWritable(error, w))
    ensures Inv(OnOriginWritable(c, error, w))
  {
    hide Inv, Fine, U.Valid, InConnecting, OnOriginWritable;
    OriginState(c);
    if error == 0 {
      OriginUps(c, w);
    } else if ByName(c) && c.dnsNext != [] {
      OriginFallsBack(c, error, w);
    } else {
      OriginDowns(c, error, w);
    }
  }

  lemma OriginUps(c: Conn, w: World)
    requires Fine(c) && InConnecting(c) && c.answer == [] && c.current == Some(Connecting) && c.origin.Pending?
    requires |w.attempts| >= |c.dnsNext|
    ensures Inv(OnOriginWritable(c, 0, w))
  {
    hide Hist, MarshallReply, Inv;
    var d := c.(originInterest := NOOP, origin := Up);
    OriginFine(c, d);
    Outcome(d, 0, w);
    assert c.(reply := ReplyFor(0), originInterest := NOOP, origin := Up) == d.(reply := ReplyFor(0));
  }

  /** A connect that was waited for failed, and its connection is no longer connecting. */
  function Failing(c: Conn, error: nat): Conn {
    c.(origin := NoOrigin, originInterest := NOOP, lastError := error, waited := true)
  }

  lemma OriginDowns(c: Conn, error: nat, w: World)
    requires Fine(c) && InConnecting(c) && c.answer == [] && c.current == Some(Connecting) && c.origin.Pending?
    requires Fault(error) && !(ByName(c) && c.dnsNext != []) && |w.attempts| >= |c.dnsNext|
    ensures Inv(OnOriginWritable(c, error, w))
  {
    hide Hist, MarshallReply, Inv, ReplyFor;
    var d := Failing(c, error);
    OriginFine(c, d);
    assert error == Blamed(d) by { Alone(d); }
    Outcome(d, error, w);
    assert d.(reply := ReplyFor(error))
        == c.(reply := ReplyFor(error), origin := NoOrigin, originInterest := NOOP, lastError := error, waited := true);
  }

  lemma OriginFallsBack(c: Conn, error: nat, w: World)
    requires Fine(c) && InConnecting(c) && c.answer == [] && c.current == Some(Connecting) && c.origin.Pending?
    requires Fault(error) && ByName(c) && c.dnsNext != [] && WorldOk(c, w) && |w.attempts| >= |c.dnsNext|
    ensures Inv(OnOriginWritable(c, error, w))
  {
    hide Hist, MarshallReply, U.Valid, Inv, ReplyFor, DialNext, Streams;
    var d := Failing(c, error);
    OriginFine(c, d);
    var c1 := d.(reply := ReplyFor(error));
    assert c1 == c.(reply := ReplyFor(error), origin := NoOrigin, originInterest := NOOP, lastError := error, waited := true);
    Recoded(d, ReplyFor(error));
    DialsInOrder(c1, EHOSTUNREACH, w.attempts);
    DialsLeave(c1, EHOSTUNREACH, w.attempts);
    var (c2, status) := DialNext(c1, EHOSTUNREACH, w.attempts);
    LeftOver(c1, c2, status);
    ConnectedFine(c1, c2);
    if status == EINPROGRESS { Awaiting(c2); } else { Outcome(c2, status, w); }
  }

  lemma OriginFine(c: Conn, d: Conn)
    requires Fine(c) && c.answer == [] && Connects(c)
    requires d == c.(origin := d.origin, originInterest := d.originInterest, lastError := d.lastError, waited := d.waited)
    ensures Fine(d) && Dialled(d)
  {
    hide H.Grammar, A.Grammar, R.Grammar, StatusOf, Methods, Flatten, Streams;
  }

  lemma StoreInv(c: Conn, e: Event)
    requires Inv(c) && Legal(c, e) && e.WorkerStores?
    ensures Inv(Step(c, e))
  {
    hide HeardOk, Received, Said, FallbackOk, InConnecting, CodeFits, Admitted, OnReadable, OnWritable, OnOriginWritable, OnBlockDone;
    OriginState(c);
    var d := Step(c, e);
    StoredHist(c, d);
    StoredNames(c, d);
  }

  lemma StoredNames(c: Conn, d: Conn)
    requires InConnecting(c) && FallbackOk(c) && c.answer == [] && c.dns.Asked?
    requires d == c.(dns := d.dns, dnsError := d.dnsError, dnsResult := d.dnsResult, dnsNext := Found(d))
    requires (d.dns.Stored? || d.dns.Answered?) && (d.dnsError == 0 <==> d.dnsResult.Some?)
    ensures InConnecting(d) && FallbackOk(d)
  {
    assert [] + Streams(d.dnsNext) == Streams(d.dnsNext);
  }

  lemma StoredHist(c: Conn, d: Conn)
    requires HeardOk(c) && Received(c) && Said(c)
    requires d == c.(dns := d.dns, dnsError := d.dnsError, dnsResult := d.dnsResult, dnsNext := d.dnsNext)
    ensures HeardOk(d) && Received(d) && Said(d)
  {
    hide H.Grammar, A.Grammar, R.Grammar, StatusOf, Methods, Flatten;
  }

  lemma BlockInv(c: Conn, w: World)
    requires Inv(c) && Legal(c, BlockDone(w))
    ensures Inv(OnBlockDone(c, w))
  {
    hide Hist, MarshallReply, U.Valid, Inv, ConnectToOrigin;
    OriginState(c);
    var d := c.(dns := Answered);
    AnsweredFine(c, d);
    ConnectEffect(d, w);
    var (c1, status) := ConnectToOrigin(d, w);
    ConnectedFine(d, c1);
    if status == EINPROGRESS { Awaiting(c1); } else { Outcome(c1, status, w); }
  }

  lemma AnsweredFine(c: Conn, d: Conn)
    requires Fine(c) && c.answer == [] && d == c.(dns := d.dns)
    ensures Fine(d)
  {
    hide CodeFits, H.Grammar, A.Grammar, R.Grammar, StatusOf, Methods, Flatten, Streams;
  }

  lemma StepInv(c: Conn, e: Event)
    requires Inv(c) && Legal(c, e)
    ensures Inv(Step(c, e))
  {
    hide Inv;
    match e {
      case Readable(r, w) => ReadInv(c, r, w);
      case Writable(r) => WriteInv(c, r);
      case OriginWritable(error, w) => OriginInv(c, error, w);
      case WorkerStores(_, _, _) => StoreInv(c, e);
      case BlockDone(w) => BlockInv(c, w);
    }
  }

  lemma StartInv(c: Conn)
    requires Starts(c)
    ensures Inv(c)
  {
  }

  lemma {:induction false} RunInv(c: Conn, es: seq<Event>)
    requires Inv(c) && Run(c, es)
    ensures Inv(After(c, es))
    decreases |es|
  {
    hide Inv;
    if es != [] {
      StepInv(c, es[0]);
      RunInv(Step(c, es[0]), es[1..]);
    }
  }
}
