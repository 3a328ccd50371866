/**
 * What the client is told, exactly: which errno a refused CONNECT names, what
 * endpoint a reply carries, and when the proxy closes instead of answering.
 * Everything here is said in terms of what the system calls returned and what
 * the client sent.
 */
module HandshakeAnswers {
  import opened Bytes
  import opened Pipes
  import opened Chunks
  import RelaySpec
  import H = Hello
  import A = Auth
  import R = Request
  import U = UserTable
  import opened HandshakeSpec
  import opened HandshakeRuns
  import opened HandshakeTheorems
  import HH = HandshakeHonest
  import HL = HandshakeLimits

  // A round of dialling.

  predicate Good(l: seq<Info>, attempts: seq<Attempt>, k: nat)
    requires k < |l| <= |attempts|
  {
    l[k].stream && (attempts[k] == Now(true) || attempts[k] == Later(true))
  }

  /** The first entry whose attempt connects or waits, or the number of entries. */
  function FirstGood(l: seq<Info>, attempts: seq<Attempt>): (k: nat)
    requires |attempts| >= |l|
    ensures k <= |l| && (k < |l| ==> Good(l, attempts, k))
    ensures forall i :: 0 <= i < k ==> !Good(l, attempts, i)
  {
    if l == [] then 0
    else if Good(l, attempts, 0) then 0
    else
      var k := FirstGood(l[1..], attempts[1..]);
      assert forall i :: 0 < i < |l| ==> Good(l, attempts, i) == Good(l[1..], attempts[1..], i - 1);
      k + 1
  }

  /** The last entry that can be dialled. */
  function LastStream(l: seq<Info>): (k: nat)
    requires Streams(l) != []
    ensures k < |l| && l[k].stream && forall i :: k < i < |l| ==> !l[i].stream
  {
    if Streams(l[1..]) == [] then NoStreams(l[1..]); 0 else LastStream(l[1..]) + 1
  }

  lemma {:induction false} NoStreams(l: seq<Info>)
    requires Streams(l) == []
    ensures forall i :: 0 <= i < |l| ==> !l[i].stream
  {
    if l != [] { NoStreams(l[1..]); }
  }

  /** The errno a round of dialling is to report when nothing connects or waits. */
  function RoundError(l: seq<Info>, attempts: seq<Attempt>, last: nat): nat
    requires |attempts| >= |l|
  {
    if Streams(l) == [] then last else Errno(attempts[LastStream(l)])
  }

  /** What one attempt comes to: 0, EINPROGRESS or an errno. */
  function Verdict(a: Attempt): nat {
    if a == Now(true) then 0 else if a == Later(true) then EINPROGRESS else Errno(a)
  }

  /** What a round of dialling comes to. */
  function RoundVerdict(l: seq<Info>, attempts: seq<Attempt>, last: nat): nat
    requires |attempts| >= |l|
  {
    var k := FirstGood(l, attempts);
    if k < |l| then Verdict(attempts[k]) else RoundError(l, attempts, last)
  }

  lemma DialVerdict(c: Conn, addr: Addr, a: Attempt)
    requires AttemptOk(a) && c.origin.NoOrigin?
    ensures var (d, status) := Dial(c, addr, a);
            && status == Verdict(a) && d.dnsNext == c.dnsNext && d.tried == c.tried + [addr]
            && d.origin == (if status == 0 then Up else if status == EINPROGRESS then Pending else NoOrigin)
  {
  }

  lemma RoundEnds(attempts: seq<Attempt>, last: nat)
    ensures FirstGood([], attempts) == 0 && RoundVerdict([], attempts, last) == last
  {
  }

  lemma RoundGoes(l: seq<Info>, attempts: seq<Attempt>, last: nat)
    requires l != [] && |attempts| >= |l| && AttemptOk(attempts[0])
    ensures var v := Verdict(attempts[0]);
            if l[0].stream && (v == 0 || v == EINPROGRESS) then
              FirstGood(l, attempts) == 0 && RoundVerdict(l, attempts, last) == v
            else
              && FirstGood(l, attempts) == FirstGood(l[1..], attempts[1..]) + 1
              && RoundVerdict(l, attempts, last) == RoundVerdict(l[1..], attempts[1..], if l[0].stream then v else last)
  {
  }

  /**
   * A round of dialling stops at the first address whose connect succeeds or has
   * to be waited for; when there is none it reports the last address's error.
   */
  lemma {:induction false} RoundMeans(c: Conn, last: nat, attempts: seq<Attempt>)
    requires |attempts| >= |c.dnsNext| && (forall a :: a in attempts ==> AttemptOk(a)) && Fault(last)
    requires c.origin.NoOrigin?
    ensures var (d, status) := DialNext(c, last, attempts);
            var k := FirstGood(c.dnsNext, attempts);
            && status == RoundVerdict(c.dnsNext, attempts, last)
            && d.dnsNext == (if k < |c.dnsNext| then c.dnsNext[k + 1..] else [])
            && d.origin == (if status == 0 then Up else if status == EINPROGRESS then Pending else NoOrigin)
    decreases |c.dnsNext|
  {
    hide Dial, FirstGood, RoundVerdict, Verdict;
    if c.dnsNext == [] {
      RoundEnds(attempts, last);
    } else {
      assert attempts[0] in attempts;
      RoundGoes(c.dnsNext, attempts, last);
      var info, rest := c.dnsNext[0], c.dnsNext[1..];
      var c1 := c.(dnsNext := rest);
      assert forall a :: a in attempts[1..] ==> a in attempts;
      if !info.stream {
        RoundMeans(c1, last, attempts[1..]);
      } else {
        DialVerdict(c1, info.addr, attempts[0]);
        var (c2, status) := Dial(c1, info.addr, attempts[0]);
        if status != 0 && status != EINPROGRESS { RoundMeans(c2, status, attempts[1..]); }
      }
    }
  }

  // Answering a CONNECT.

  /** What the bytes of a refusal are. */
  function Refusal(code: byte): bytes {
    [5, code, 0, 1, 0, 0, 0, 0, 0, 0]
  }

  /** What is written for a CONNECT that came to `v`: success with the bound endpoint, or the code of an errno. */
  function AnswerTo(v: nat, w: World): bytes {
    if v == 0 then R.Reply(0, R.Bound(w.local)) else Refusal(ReplyFor(v))
  }

  lemma MarshallsExactly(c: Conn, v: nat, w: World)
    requires PipesOk(c) && Drained(c) && (v == 0 ==> c.origin.Up?)
    ensures var (d, s) := MarshallReply(c.(reply := ReplyFor(v)), w);
            && s == RequestWrite && d.answer == d.output.pending == AnswerTo(v, w) && d.reply == ReplyFor(v)
            && d == c.(reply := ReplyFor(v), output := d.output, answer := d.answer)
            && d.output.pending != []
  {
    var bytes := AnswerTo(v, w);
    assert R.Reply(ReplyFor(v), R.Bound(if v == 0 then w.local else None)) == bytes;
    assert [] + bytes == bytes && |bytes| <= 22;
  }

  /** `connect_to_origin` for a CONNECT that has just been read, or whose names have just been found. */
  lemma ConnectVerdict(c: Conn, w: World)
    requires Ready(c) && WorldOk(c, w)
    ensures var (d, status) := ConnectToOrigin(c, w);
            && status == (if Literal(c) then Verdict(w.attempts[0])
                          else if !c.dns.Answered? then if w.dnsStart != 0 then w.dnsStart else EINPROGRESS
                          else if c.dnsError != 0 then EHOSTUNREACH
                          else RoundVerdict(c.dnsNext, w.attempts, EHOSTUNREACH))
            && (status == 0 ==> d.origin.Up?)
  {
    hide Dial, DialNext, RoundVerdict;
    HL.WorldIs(c, w);
    assert w.attempts[0] in w.attempts;
    if Literal(c) {
      DialVerdict(c, Target(c), w.attempts[0]);
    } else if c.dns.Answered? && c.dnsError == 0 {
      RoundMeans(c, EHOSTUNREACH, w.attempts);
    }
  }

  /** The event has answered the CONNECT that came to `v`, or the connection waits. */
  predicate Told(d: Conn, v: nat, w: World) {
    && d.open
    && if v == EINPROGRESS then d.answer == [] && d.output.pending == [] && d.current == Some(Connecting)
       else d.answer == d.output.pending == AnswerTo(v, w) && d.reply == ReplyFor(v) && d.current == Some(RequestWrite)
  }

  lemma BlockVerdict(d: Conn, w: World)
    requires Inv(d) && Legal(d, BlockDone(w)) && |w.attempts| >= |d.dnsNext| && |w.attempts| >= 1
    ensures var v := if d.dnsError != 0 then EHOSTUNREACH else RoundVerdict(d.dnsNext, w.attempts, EHOSTUNREACH);
            Told(OnBlockDone(d, w), v, w)
  {
    hide Hist, ConnectToOrigin, MarshallReply, AnswerTo, RoundVerdict, ReplyFor, U.Valid;
    OriginState(d);
    var c := d.(dns := Answered);
    ConnectVerdict(c, w);
    ConnectEffect(c, w);
    var (c1, status) := ConnectToOrigin(c, w);
    if status != EINPROGRESS { MarshallsExactly(c1, status, w); }
  }

  lemma OriginVerdict(d: Conn, error: nat, w: World)
    requires Inv(d) && Legal(d, OriginWritable(error, w)) && |w.attempts| >= |d.dnsNext|
    ensures var v := if error != 0 && ByName(d) && d.dnsNext != [] then RoundVerdict(d.dnsNext, w.attempts, EHOSTUNREACH) else error;
            Told(OnOriginWritable(d, error, w), v, w)
  {
    hide Hist, DialNext, MarshallReply, AnswerTo, RoundVerdict, ReplyFor, U.Valid;
    OriginState(d);
    if error == 0 {
      var c := d.(originInterest := NOOP, origin := Up);
      assert d.(reply := ReplyFor(0), originInterest := NOOP, origin := Up) == c.(reply := ReplyFor(0));
      MarshallsExactly(c, 0, w);
    } else {
      var c := Failing(d, error);
      assert d.(reply := ReplyFor(error), origin := NoOrigin, originInterest := NOOP, lastError := error, waited := true)
          == c.(reply := ReplyFor(error));
      if ByName(d) && d.dnsNext != [] {
        var c1 := c.(reply := ReplyFor(error));
        RoundMeans(c1, EHOSTUNREACH, w.attempts);
        DialsInOrder(c1, EHOSTUNREACH, w.attempts);
        var (c2, status) := DialNext(c1, EHOSTUNREACH, w.attempts);
        if status != EINPROGRESS { MarshallsExactly(c2, status, w); }
      } else {
        MarshallsExactly(c, error, w);
      }
    }
  }

  // Reading the request.

  /** All that has been received of the message being read, once `got` has. */
  function Arriving(d: Conn, got: bytes): bytes {
    d.taken + (d.input.pending + got)
  }

  /** The parser over what has just arrived stands where it would over the whole message. */
  lemma RequestSoFar(d: Conn, got: bytes)
    requires InRequest(d)
    ensures var q := Consume(R.Feed, R.IsDone, d.request, d.input.pending + got).0;
            match R.Grammar(Arriving(d, got))
            case More => !R.IsDone(q)
            case BadVersion(_) => q.state.ErrorVersion?
            case BadAtyp(_) => q.state.ErrorAtyp?
            case Request(command, atyp, _, _, _) =>
              q.state.Done? && q.command == command && q.atyp == atyp && (atyp == R.IPV4 || atyp == R.IPV6 || atyp == R.DOMAINNAME)
  {
    hide Consume, R.Feed;
    var i :| R.Initial(i) && d.request == Consume(R.Feed, R.IsDone, i, d.taken).0;
    ConsumeSplit(R.Feed, R.IsDone, i, d.taken, d.input.pending + got);
    R.MeetsGrammar(i, Arriving(d, got));
  }

  /** What a request that has been received this far comes to. */
  ghost predicate RequestComesTo(d: Conn, got: bytes, d': Conn, w: World)
    requires |w.attempts| >= 1
  {
    match R.Grammar(Arriving(d, got))
    case More => d'.answer == [] && d'.current == Some(RequestRead) && d'.client == READ
    case BadVersion(_) => d'.answer == d'.output.pending == Refusal(1) && d'.reply == 1 && d'.current == Some(RequestWrite)
    case BadAtyp(_) => d'.answer == d'.output.pending == Refusal(8) && d'.reply == 8 && d'.current == Some(RequestWrite)
    case Request(command, atyp, _, _, _) =>
      if command != 1 then d'.answer == d'.output.pending == Refusal(7) && d'.reply == 7 && d'.current == Some(RequestWrite)
      else
        Told(d', if atyp != 3 then Verdict(w.attempts[0]) else if w.dnsStart != 0 then w.dnsStart else EINPROGRESS, w)
  }

  lemma RefusesExactly(c: Conn, code: byte, w: World)
    requires PipesOk(c) && Drained(c) && code != 0
    ensures var (d, s) := MarshallReply(c.(reply := code), w);
            && s == RequestWrite && d.answer == d.output.pending == Refusal(code) && d.reply == code
            && d == c.(reply := code, output := d.output, answer := d.answer) && d.output.pending != []
  {
    assert R.Reply(code, R.Bound(None)) == Refusal(code);
    assert [] + Refusal(code) == Refusal(code);
  }

  /** What `request_read` returns, told from the grammar. */
  lemma ReadyComesTo(d: Conn, c: Conn, got: bytes, w: World)
    requires Inv(d) && d.open && !d.relaying && d.current == Some(RequestRead) && WorldOk(d, w)
    requires |got| <= d.input.room && c == d.(input := d.input.Put(got), received := d.received + got)
    requires |w.attempts| >= |d.dnsNext| && |w.attempts| >= 1
    ensures var (d', s) := RequestReady(c, w);
            && (s == RequestWrite || s == RequestRead || s == Connecting)
            && (s == RequestRead <==> R.Grammar(Arriving(d, got)).More?)
            && (s == RequestRead ==> d'.answer == [] && Drained(d'))
            && d'.current == Some(RequestRead) && d'.open && !d'.aborted
            && RequestComesTo(d, got, d'.(current := Some(s), client := if s == RequestRead then READ else d'.client), w)
            && (s == RequestWrite ==> d'.output.pending != [])
  {
    hide Hist, Consume, R.Feed, R.Grammar, ConnectToOrigin, MarshallReply, StatusOf, U.Valid, AnswerTo, ReplyFor, Verdict;
    Opened(d);
    NotAnswered(d);
    RequestSoFar(d, got);
    var (q, n) := Consume(R.Feed, R.IsDone, c.request, c.input.pending);
    var c1 := c.(request := q, taken := c.taken + c.input.pending[..n], input := c.input.Take(n));
    if q.state.ErrorAtyp? {
      RefusesExactly(c1, 8, w);
    } else if q.state.ErrorVersion? {
      RefusesExactly(c1, 1, w);
    } else if q.state.Done? {
      var c2 := Heard(c1);
      if q.command != R.CONNECT {
        RefusesExactly(c2, 7, w);
      } else {
        SameWorld(d, c2, w);
        ConnectVerdict(c2, w);
        ConnectEffect(c2, w);
        var (c3, status) := ConnectToOrigin(c2, w);
        if status != EINPROGRESS { MarshallsExactly(c3, status, w); }
      }
    }
  }

  lemma Opened(d: Conn)
    requires Inv(d) && d.open && !d.relaying
    ensures Fine(d)
  {
  }

  lemma SameWorld(c: Conn, d: Conn, w: World)
    requires WorldOk(c, w) && d.dnsNext == c.dnsNext
    ensures WorldOk(d, w)
  {
  }

  /** Reading in the state that waits for a request. */
  lemma RequestReads(d: Conn, got: bytes, w: World)
    requires Inv(d) && Legal(d, Readable(RelaySpec.Data(got), w)) && d.current == Some(RequestRead)
    ensures var d' := Step(d, Readable(RelaySpec.Data(got), w));
            RequestComesTo(d, got, d', w) && d'.open
  {
    hide Inv, WorldOk, RequestReady, R.Grammar, OnReadable, Told, AnswerTo, Verdict, Refusal;
    HL.WorldIs(d, w);
    var c := d.(input := d.input.Put(got), received := d.received + got);
    ReadyComesTo(d, c, got, w);
    HH.PieceRead(d, got, w);
    var (c1, s) := RequestReady(c, w);
    MovesOn(c1, s);
    ComesToSame(d, got, c1.(current := Some(s), client := if s == RequestRead then READ else c1.client), Apply(Jump(c1, s), s), w);
  }

  lemma MovesOn(c: Conn, s: State)
    requires c.current == Some(RequestRead) && (s == RequestWrite || s == RequestRead || s == Connecting)
    requires s == RequestRead ==> Drained(c)
    ensures Jump(c, s) == c.(current := Some(s))
    ensures var d := Apply(Jump(c, s), s); d == c.(current := Some(s), client := d.client) && (s == RequestRead ==> d.client == READ)
  {
  }

  lemma ComesToSame(d: Conn, got: bytes, a: Conn, b: Conn, w: World)
    requires |w.attempts| >= 1 && RequestComesTo(d, got, a, w)
    requires b == a.(client := b.client) && (a.current == Some(RequestRead) ==> b.client == a.client)
    ensures RequestComesTo(d, got, b, w)
  {
    hide R.Grammar, AnswerTo, Verdict, Refusal;
  }

  /**
   * What the client is told, whatever it sends: when a read leaves the request
   * whole, and what it then comes to, is told by the grammar and by what the
   * system calls answer.
   */
  lemma RequestAnswered(c: Conn, es: seq<Event>, got: bytes, w: World)
    requires Starts(c) && Run(c, es) && Legal(After(c, es), Readable(RelaySpec.Data(got), w))
    requires |After(c, es).heard| == 2
    ensures var d := After(c, es);
            && d.received + got == Flatten(d.heard) + Arriving(d, got)
            && RequestComesTo(d, got, Step(d, Readable(RelaySpec.Data(got), w)), w)
  {
    hide Inv, Step, Legal, RequestComesTo, Starts, Run;
    Reached(c, es);
    WaitsForRequest(After(c, es), got, w);
    RequestReads(After(c, es), got, w);
  }

  lemma WaitsForRequest(d: Conn, got: bytes, w: World)
    requires Inv(d) && Legal(d, Readable(RelaySpec.Data(got), w)) && |d.heard| == 2
    ensures d.current == Some(RequestRead) && d.received + got == Flatten(d.heard) + Arriving(d, got)
  {
    hide Inv, WorldOk;
    ReceivedSo(d);
    assert Flatten(d.heard) + d.taken + d.input.pending + got == Flatten(d.heard) + (d.taken + (d.input.pending + got));
  }

  lemma ReceivedSo(d: Conn)
    requires Inv(d) && d.open && !d.relaying && d.client.read
    ensures d.received == Flatten(d.heard) + d.taken + d.input.pending
    ensures d.current.None? || d.current == Some(HelloRead) <==> |d.heard| == 0
    ensures d.current == Some(AuthRead) <==> |d.heard| == 1
    ensures d.current == Some(RequestRead) <==> |d.heard| == 2
  {
    hide HeardOk, Said, FallbackOk, Consume, StatusOf, Methods;
  }

  /** A connect that was waited for is over: the answer is its error's, or that of the addresses left if there are any. */
  lemma OriginAnswered(c: Conn, es: seq<Event>, error: nat, w: World)
    requires Starts(c) && Run(c, es) && Legal(After(c, es), OriginWritable(error, w))
    requires |w.attempts| >= |After(c, es).dnsNext|
    ensures var d := After(c, es);
            && |d.heard| == 3 && R.Grammar(d.heard[2]).Request?
            && var fallsBack := error != 0 && R.Grammar(d.heard[2]).atyp == 3 && d.dnsNext != [];
               Told(Step(d, OriginWritable(error, w)),
                       if fallsBack then RoundVerdict(d.dnsNext, w.attempts, EHOSTUNREACH) else error, w)
  {
    Reached(c, es);
    hide Inv, OnOriginWritable, Told, RoundVerdict;
    var d := After(c, es);
    AsksFor(d);
    OriginVerdict(d, error, w);
  }

  lemma AsksFor(d: Conn)
    requires Inv(d) && d.open && !d.relaying && (d.origin.Pending? || d.dns.Asked? || d.dns.Stored?)
    ensures |d.heard| == 3 && R.Grammar(d.heard[2]).Request? && R.Grammar(d.heard[2]).atyp == d.request.atyp
    ensures R.Grammar(d.heard[2]).command == R.CONNECT
  {
    OriginState(d);
    hide Received, Said, FallbackOk, R.Grammar, Live;
  }

  /** The errno of the last connect to fail: the one that was waited for, or the last of those tried after it. */
  function LastFailure(d: Conn, error: nat, attempts: seq<Attempt>): nat
    requires |attempts| >= |d.dnsNext|
  {
    if Streams(d.dnsNext) == [] then error else Errno(attempts[LastStream(d.dnsNext)])
  }

  lemma OnlyNamesAreLeft(d: Conn)
    requires Inv(d) && d.open && !d.relaying && d.origin.Pending?
    ensures d.dnsNext != [] ==> ByName(d)
  {
    OriginState(d);
    hide HeardOk, Received, Said, Streams, Live;
  }

  /**
   * A connect that was waited for fails and the client is refused.  The reply's
   * code is that of the last connect to fail, except exactly when entries were
   * left of which none is a stream: then it is that of an unreachable host.
   */
  lemma RefusalNamesTheFailure(c: Conn, es: seq<Event>, error: nat, w: World)
    requires Starts(c) && Run(c, es) && Legal(After(c, es), OriginWritable(error, w)) && error != 0
    requires |w.attempts| >= |After(c, es).dnsNext|
    requires var d' := Step(After(c, es), OriginWritable(error, w)); d'.answer != [] && d'.reply != 0
    ensures var d := After(c, es);
            var d' := Step(d, OriginWritable(error, w));
            && (d'.reply == ReplyFor(LastFailure(d, error, w.attempts)) <==> d.dnsNext == [] || Streams(d.dnsNext) != [] || error == 113)
            && (d.dnsNext != [] && Streams(d.dnsNext) == [] ==> d'.reply == 4)
  {
    hide Inv, OnOriginWritable, FirstGood, LastStream, Streams, Starts, Run, AnswerTo;
    Reached(c, es);
    var d := After(c, es);
    OnlyNamesAreLeft(d);
    OriginVerdict(d, error, w);
    assert d.dnsNext == [] ==> Streams(d.dnsNext) == [] by { StreamsNext(d.dnsNext); }
  }

  /** A worker has looked the name up and the loop is told: the answer is that of the addresses it found. */
  lemma NamesAnswered(c: Conn, es: seq<Event>, failure: int, found: Option<seq<Info>>, w: World)
    requires Starts(c) && Run(c, es) && Legal(After(c, es), WorkerStores(failure, found, true))
    requires Legal(Step(After(c, es), WorkerStores(failure, found, true)), BlockDone(w))
    requires failure == 0 ==> found.Some? && |w.attempts| >= |found.value|
    ensures var d := Step(After(c, es), WorkerStores(failure, found, true));
            Told(Step(d, BlockDone(w)),
                    if failure != 0 then EHOSTUNREACH else RoundVerdict(found.value, w.attempts, EHOSTUNREACH), w)
  {
    hide Inv, Legal, OnBlockDone, OnReadable, OnWritable, OnOriginWritable, Told, RoundVerdict, Starts, Run, After;
    Reached(c, es);
    StepInv(After(c, es), WorkerStores(failure, found, true));
    Offered(Step(After(c, es), WorkerStores(failure, found, true)), w);
    BlockVerdict(Step(After(c, es), WorkerStores(failure, found, true)), w);
  }

  lemma Offered(d: Conn, w: World)
    requires Legal(d, BlockDone(w))
    ensures |w.attempts| >= |d.dnsNext| && |w.attempts| >= 1
  {
  }

  // When the proxy closes.

  /** The bytes of the message under way cannot be part of one. */
  predicate Unreadable(d: Conn, got: bytes) {
    if |d.heard| == 0 then H.Grammar(Arriving(d, got)).Bad? else |d.heard| == 1 && A.Grammar(Arriving(d, got)).Bad?
  }

  /** The reply under way turns the client away. */
  predicate TurnsAway(d: Conn) {
    if |d.heard| == 1 then 2 !in Methods(d.heard[0])
    else if d.answer == [] then |d.heard| == 2 && StatusOf(d.users, d.heard[1]) != A.SUCCESS
    else d.reply != 0
  }

  /** What ends a connection before the relay. */
  predicate Fatal(d: Conn, e: Event) {
    match e
    case Readable(Data(got), _) => Unreadable(d, got)
    case Readable(ReadAgain, _) => false
    case Readable(_, _) => true
    case Writable(Wrote(n)) => n == 0 || (n == |d.output.pending| && TurnsAway(d))
    case Writable(WriteAgain) => false
    case Writable(WriteFailed) => true
    case _ => false
  }

  lemma HelloSoFar(d: Conn, got: bytes)
    requires InHello(d)
    ensures Consume(H.Feed, H.IsDone, d.hello, d.input.pending + got).0.state.ErrorVersion? <==> H.Grammar(Arriving(d, got)).Bad?
  {
    hide Consume, H.Feed, H.Grammar;
    ConsumeSplit(H.Feed, H.IsDone, H.Init, d.taken, d.input.pending + got);
    H.MeetsGrammar(Arriving(d, got));
  }

  lemma AuthSoFar(d: Conn, got: bytes)
    requires InAuth(d)
    ensures Consume(A.Feed, A.IsDone, d.auth, d.input.pending + got).0.state.ErrorVersion? <==> A.Grammar(Arriving(d, got)).Bad?
  {
    hide Consume, A.Feed, A.Grammar, CStr;
    var i :| A.Initial(i) && d.auth == Consume(A.Feed, A.IsDone, i, d.taken).0;
    ConsumeSplit(A.Feed, A.IsDone, i, d.taken, d.input.pending + got);
    A.MeetsGrammar(i, Arriving(d, got));
  }

  /** Reading while the negotiation is under way closes only what the grammar refuses. */
  lemma HelloCloses(d: Conn, got: bytes, w: World)
    requires Inv(d) && Legal(d, Readable(RelaySpec.Data(got), w)) && |d.heard| == 0
    ensures OnReadable(d, RelaySpec.Data(got), w).open <==> !H.Grammar(Arriving(d, got)).Bad?
  {
    hide Hist, Consume, H.Feed, H.Grammar, WorldOk;
    HL.WorldIs(d, w);
    HH.NoBytes();
    ReadableState(d);
    ReceivedSo(d);
    HH.FirstRead(d, got, w);
    HelloSoFar(First(d), got);
  }

  lemma AuthCloses(d: Conn, got: bytes, w: World)
    requires Inv(d) && Legal(d, Readable(RelaySpec.Data(got), w)) && |d.heard| == 1
    ensures OnReadable(d, RelaySpec.Data(got), w).open <==> !A.Grammar(Arriving(d, got)).Bad?
  {
    hide Hist, Consume, A.Feed, A.Grammar, WorldOk, U.Lookup, CStr;
    HL.WorldIs(d, w);
    ReceivedSo(d);
    AuthSoFar(d, got);
  }

  lemma ReadCloses(d: Conn, got: bytes, w: World)
    requires Inv(d) && Legal(d, Readable(RelaySpec.Data(got), w))
    ensures OnReadable(d, RelaySpec.Data(got), w).open <==> !Unreadable(d, got)
  {
    hide Inv, OnReadable, WorldOk, H.Grammar, A.Grammar, RequestComesTo;
    HL.WorldIs(d, w);
    ReadableState(d);
    ReceivedSo(d);
    if |d.heard| == 0 {
      HelloCloses(d, got, w);
    } else if |d.heard| == 1 {
      AuthCloses(d, got, w);
    } else {
      RequestReads(d, got, w);
    }
  }

  lemma WriteCloses(d: Conn, n: nat)
    requires Inv(d) && Legal(d, Writable(RelaySpec.Wrote(n))) && 0 < n
    ensures OnWritable(d, RelaySpec.Wrote(n)).open <==> !(n == |d.output.pending| && TurnsAway(d))
  {
    hide Hist, Consume, StatusOf, Methods;
    WritableState(d);
    WritesFor(d);
  }

  lemma WritesFor(d: Conn)
    requires Inv(d) && d.open && !d.relaying && d.client.write
    ensures d.current == Some(HelloWrite) ==> |d.heard| == 1 && (d.hello.selected == H.NO_ACCEPTABLE_METHODS <==> TurnsAway(d))
    ensures d.current == Some(AuthWrite) ==> |d.heard| == 2 && (d.authStatus != A.SUCCESS <==> TurnsAway(d))
    ensures d.current == Some(RequestWrite) ==> (d.reply != R.SUCCEEDED <==> TurnsAway(d))
  {
    hide HeardOk, Received, FallbackOk, StatusOf, H.Grammar, A.Grammar, R.Grammar, MethodReply, AuthReply;
  }

  lemma OriginStays(d: Conn, error: nat, w: World)
    requires Inv(d) && Legal(d, OriginWritable(error, w)) && |w.attempts| >= |d.dnsNext|
    ensures OnOriginWritable(d, error, w).open
  {
    hide Inv, Legal, RoundVerdict, AnswerTo;
    OriginVerdict(d, error, w);
  }

  lemma BlockStays(d: Conn, w: World)
    requires Inv(d) && Legal(d, BlockDone(w)) && |w.attempts| >= |d.dnsNext| && |w.attempts| >= 1
    ensures OnBlockDone(d, w).open
  {
    hide Inv, Legal, RoundVerdict, AnswerTo;
    BlockVerdict(d, w);
  }

  /**
   * An event closes a connection exactly when the client ended its stream or a
   * call failed, when what it sent cannot be a negotiation or credentials, or
   * when the whole of a reply that turns it away has been written.
   */
  lemma ClosesExactly(c: Conn, es: seq<Event>, e: Event)
    requires Starts(c) && Run(c, es) && Legal(After(c, es), e)
    ensures !Step(After(c, es), e).open <==> Fatal(After(c, es), e)
  {
    hide Inv, OnOriginWritable, OnBlockDone, Unreadable, TurnsAway, Starts, Run, After, WorldOk, Told;
    Reached(c, es);
    var d := After(c, es);
    match e {
      case Readable(r, w) => if r.Data? { ReadCloses(d, r.got, w); }
      case Writable(r) => if r.Wrote? && r.n != 0 { WriteCloses(d, r.n); }
      case OriginWritable(error, w) =>
        HL.WorldIs(d, w);
        OriginStays(d, error, w);
      case WorkerStores(_, _, _) =>
      case BlockDone(w) =>
        HL.WorldIs(d, w);
        BlockStays(d, w);
    }
  }

  // What is read and written.

  function Incoming(e: Event): bytes {
    if e.Readable? && e.result.Data? then e.result.got else []
  }

  function Outgoing(d: Conn, e: Event): bytes
    requires e.Writable? ==> RelaySpec.WriteFits(e.written, d.output)
  {
    if e.Writable? && e.written.Wrote? then d.output.pending[..e.written.n] else []
  }

  lemma WriteKeeps(c: Conn)
    ensures var d := HandlerWrite(c).0; d.received == c.received && d.sent == c.sent
  {
    hide LogEntry, First, Jump, StartRelay;
    FirstKeeps(c);
    var c0 := First(c);
    match c0.current.value {
      case HelloWrite => HL.JumpKeepsInput(c0, HandlerWrite(c).1);
      case AuthWrite => HL.JumpKeepsInput(c0, HandlerWrite(c).1);
      case RequestWrite =>
        var c1 := c0.(logged := c0.logged + [LogEntry(c0)]);
        StartKeeps(c1);
        HL.JumpKeepsInput(StartRelay(c1), Relay);
        HL.JumpKeepsInput(c0, Done);
      case _ =>
    }
  }

  lemma FirstKeeps(c: Conn)
    ensures First(c).current.Some? && First(c).received == c.received && First(c).sent == c.sent
  {
  }

  lemma StartKeeps(c: Conn)
    ensures StartRelay(c).received == c.received && StartRelay(c).sent == c.sent
  {
  }

  lemma WriteTransfers(d: Conn, r: RelaySpec.WriteResult)
    requires RelaySpec.WriteFits(r, d.output)
    ensures var d' := OnWritable(d, r); d'.received == d.received && d'.sent == d.sent + if r.Wrote? then d.output.pending[..r.n] else []
  {
    hide HandlerWrite;
    if r.Wrote? { WriteKeeps(d.(output := d.output.Take(r.n), sent := d.sent + d.output.pending[..r.n])); }
  }

  lemma AnnounceKeeps(c: Conn, w: World)
    ensures var d := Announce(c, w); d.received == c.received && d.sent == c.sent
  {
    hide MarshallReply;
    HL.MarshallKeepsInput(c, w);
  }

  lemma OriginTransfers(d: Conn, error: nat, w: World)
    requires |w.attempts| >= |d.dnsNext|
    ensures var d' := OnOriginWritable(d, error, w); d'.received == d.received && d'.sent == d.sent
  {
    hide Announce, DialNext, ReplyFor;
    if error == 0 {
      AnnounceKeeps(d.(reply := ReplyFor(0), originInterest := NOOP, origin := Up), w);
    } else {
      var c1 := d.(reply := ReplyFor(error), origin := NoOrigin, originInterest := NOOP, lastError := error, waited := true);
      AnnounceKeeps(c1, w);
      HL.DialsKeepInput(c1, EHOSTUNREACH, w.attempts);
      var (c2, status) := StartResolved(c1, w);
      AnnounceKeeps(c2.(reply := ReplyFor(status)), w);
    }
  }

  lemma BlockTransfers(d: Conn, w: World)
    requires |w.attempts| >= |d.dnsNext| && |w.attempts| >= 1
    ensures var d' := OnBlockDone(d, w); d'.received == d.received && d'.sent == d.sent
  {
    hide ConnectToOrigin, MarshallReply, ReplyFor;
    var c := d.(dns := Answered);
    HL.ConnectKeepsInput(c, w);
    var (c1, status) := ConnectToOrigin(c, w);
    HL.MarshallKeepsInput(c1.(reply := ReplyFor(status)), w);
  }

  /** An event reads exactly what its read returned, and writes exactly as much of what waits as its write took. */
  lemma TransfersExactly(c: Conn, es: seq<Event>, e: Event)
    requires Starts(c) && Run(c, es) && Legal(After(c, es), e)
    ensures var d := After(c, es);
            var d' := Step(d, e);
            d'.received == d.received + Incoming(e) && d'.sent == d.sent + Outgoing(d, e)
  {
    hide Inv, OnReadable, OnWritable, OnOriginWritable, OnBlockDone, Starts, Run, After, WorldOk;
    Reached(c, es);
    var d := After(c, es);
    match e {
      case Readable(r, w) => if r.Data? { HL.ReadsInto(d, r.got, w); } else { ClosesQuietly(d, r, w); }
      case Writable(r) => WriteTransfers(d, r);
      case OriginWritable(error, w) =>
        HL.WorldIs(d, w);
        OriginTransfers(d, error, w);
      case WorkerStores(_, _, _) =>
      case BlockDone(w) =>
        HL.WorldIs(d, w);
        BlockTransfers(d, w);
    }
  }

  lemma ClosesQuietly(d: Conn, r: RelaySpec.ReadResult, w: World)
    requires !r.Data? && WorldOk(d, w)
    ensures |w.attempts| >= |d.dnsNext| && |w.attempts| >= 1
    ensures var d' := OnReadable(d, r, w); d'.received == d.received && d'.sent == d.sent
  {
  }
}
