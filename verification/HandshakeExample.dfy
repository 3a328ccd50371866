/**
 * One conversation with every byte written out: a client offers username and
 * password, authenticates as "a" with password "b", and asks for 10.0.0.1:80.
 */
module HandshakeExample {
  import opened Bytes
  import opened Pipes
  import opened Chunks
  import RelaySpec
  import H = Hello
  import A = Auth
  import R = Request
  import U = UserTable
  import opened HandshakeSpec
  import opened HandshakeRuns
  import opened HandshakeTheorems
  import HH = HandshakeHonest
  import HL = HandshakeLimits
  import opened HandshakeAnswers

  /** The table knows the user, the origin's socket is bound to 192.168.1.10:40000, and the connect is `a`. */
  function Around(a: Attempt): World {
    World(HL.Someone().users, 0, [a], Some(R.Sockaddr(R.Inet, [192, 168, 1, 10], Zeros(16), [156, 64], 16)))
  }

  function Offers(a: Attempt): Event {
    Readable(RelaySpec.Data([5, 1, 2]), Around(a))
  }

  function Authenticates(a: Attempt): Event {
    Readable(RelaySpec.Data([1, 1, 97, 1, 98]), Around(a))
  }

  function Asks(a: Attempt): Event {
    Readable(RelaySpec.Data([5, 1, 0, 1, 10, 0, 0, 1, 0, 80]), Around(a))
  }

  function Script(a: Attempt): seq<Event> {
    [Offers(a), Writable(RelaySpec.Wrote(2))]
    + ([Authenticates(a), Writable(RelaySpec.Wrote(2))] + [Asks(a), Writable(RelaySpec.Wrote(10))])
  }

  lemma AroundIsOk(c: Conn, a: Attempt)
    requires AttemptOk(a) && c.dnsNext == []
    ensures WorldOk(c, Around(a)) && |Around(a).attempts| == 1
  {
    HL.SomeoneIsKnown();
  }

  // Writing a reply.

  /** The reply has been written, and the client is heard next or relayed for. */
  predicate GoesOn(d: Conn, d': Conn) {
    && d'.open && d'.heard == d.heard && d'.users == d.users && d'.dnsNext == d.dnsNext
    && if d.current == Some(RequestWrite) then d'.relaying
       else
         && !d'.relaying && d'.input == d.input && d'.output == Fresh(CAPACITY) && d'.taken == []
         && d'.current == Some(if d.current == Some(HelloWrite) then AuthRead else RequestRead)
  }

  lemma HelloGoes(d: Conn)
    requires d.current == Some(HelloWrite) && d.open && !d.relaying && !d.aborted && d.output.pending != []
    requires d.output.Take(|d.output.pending|) == Fresh(CAPACITY)
    ensures var d' := OnWritable(d, RelaySpec.Wrote(|d.output.pending|));
            && d'.sent == d.sent + d.output.pending && !d'.relaying
            && if d.hello.selected == H.NO_ACCEPTABLE_METHODS then !d'.open else GoesOn(d, d')
  {
    var p := d.output.pending;
    assert p[..|p|] == p;
  }

  lemma AuthGoes(d: Conn)
    requires d.current == Some(AuthWrite) && d.open && !d.relaying && !d.aborted && d.output.pending != []
    requires d.output.Take(|d.output.pending|) == Fresh(CAPACITY)
    ensures var d' := OnWritable(d, RelaySpec.Wrote(|d.output.pending|));
            && d'.sent == d.sent + d.output.pending && !d'.relaying
            && if d.authStatus != A.SUCCESS then !d'.open else GoesOn(d, d')
  {
    var p := d.output.pending;
    assert p[..|p|] == p;
  }

  lemma RequestGoes(d: Conn)
    requires d.current == Some(RequestWrite) && d.open && !d.relaying && !d.aborted && d.output.pending != []
    requires d.output.Take(|d.output.pending|) == Fresh(CAPACITY)
    ensures var d' := OnWritable(d, RelaySpec.Wrote(|d.output.pending|));
            && d'.sent == d.sent + d.output.pending
            && if d.reply != R.SUCCEEDED then !d'.open && !d'.relaying else GoesOn(d, d')
  {
    hide LogEntry;
    var p := d.output.pending;
    assert p[..|p|] == p;
  }

  lemma Holds(d: Conn)
    requires Inv(d) && d.open && !d.relaying && d.client.write
    ensures !d.aborted && d.output.pending != [] && d.output.Take(|d.output.pending|) == Fresh(CAPACITY)
  {
    hide Hist, Consume, StatusOf, Methods;
  }

  /** A reply is written whole. */
  lemma WritesAll(d: Conn)
    requires Inv(d) && d.open && !d.relaying && d.client.write
    ensures Legal(d, Writable(RelaySpec.Wrote(|d.output.pending|)))
    ensures var d' := Step(d, Writable(RelaySpec.Wrote(|d.output.pending|)));
            && d'.sent == d.sent + d.output.pending
            && if TurnsAway(d) then !d'.open && !d'.relaying else GoesOn(d, d')
  {
    hide Inv, TurnsAway, OnWritable, GoesOn;
    Holds(d);
    WritableState(d);
    WritesFor(d);
    if d.current == Some(HelloWrite) { HelloGoes(d); }
    else if d.current == Some(AuthWrite) { AuthGoes(d); }
    else { RequestGoes(d); }
  }

  // The conversation, event by event.

  /** What has been said in full is what was to be said. */
  lemma Saying(d: Conn)
    requires Inv(d) && d.open && !d.relaying && d.current.Some? && !d.current.value.RequestWrite?
    ensures d.sent + d.output.pending == MethodReply(d) + AuthReply(d)
  {
    hide HeardOk, Received, FallbackOk, Consume, StatusOf, Methods, MethodReply, AuthReply;
  }

  lemma FirstIs(d: Conn)
    requires |d.heard| >= 1 && d.heard[0] == [5, 1, 2]
    ensures MethodReply(d) == [5, 2] && (|d.heard| == 1 ==> !TurnsAway(d))
  {
    assert [5, 1, 2][2..3] == [2];
  }

  lemma SecondIs(d: Conn)
    requires |d.heard| == 2 && d.heard[1] == [1, 1, 97, 1, 98] && d.users == Some(HL.Someone().users)
    ensures AuthReply(d) == [1, 0] && StatusOf(d.users, d.heard[1]) == 0
  {
    hide U.Lookup, CStr;
    HL.SomeoneSpeaks();
    HL.SomeoneIsKnown();
  }

  /** Heard so far, answered and written, and waiting for more. */
  ghost predicate Idle(d: Conn, s: State, sent: bytes) {
    && Inv(d) && d.open && !d.relaying && d.current == Some(s) && d.taken == [] && d.input == d.output == Fresh(CAPACITY)
    && d.sent == sent
  }

  lemma OffersIs(c: Conn, a: Attempt)
    requires Starts(c) && AttemptOk(a)
    ensures Legal(c, Offers(a))
    ensures var d := Step(c, Offers(a));
            && d.open && !d.relaying && d.current == Some(HelloWrite) && d.heard == [[5, 1, 2]] && d.input == Fresh(CAPACITY)
            && d.sent == []
  {
    hide Consume, H.Feed, WorldOk, Around;
    AroundIsOk(c, a);
    H.MeetsGrammar([5, 1, 2]);
    HH.FirstRead(c, [5, 1, 2], Around(a));
    HH.NegotiationRead(First(c), [5, 1, 2], Around(a), Consume(H.Feed, H.IsDone, H.Init, [5, 1, 2]).0);
    assert [] + [5, 1, 2] == [5, 1, 2];
    StartInv(c);
    HL.ReadsInto(c, [5, 1, 2], Around(a));
  }

  lemma Rests(d: Conn, d': Conn, s: State, sent: bytes)
    requires Inv(d') && GoesOn(d, d') && d.input == Fresh(CAPACITY) && d'.current == Some(s) && !d'.relaying && d'.sent == sent
    requires d.current != Some(RequestWrite)
    ensures Idle(d', s, sent) && d'.heard == d.heard
  {
    hide Inv;
  }

  lemma IdleLegal(d: Conn, s: State, sent: bytes, got: bytes, a: Attempt)
    requires Idle(d, s, sent) && (s.AuthRead? || s.RequestRead?) && 0 < |got| <= CAPACITY && AttemptOk(a)
    ensures Legal(d, Readable(RelaySpec.Data(got), Around(a))) && d.dnsNext == []
    ensures s.AuthRead? ==> exists p :: A.Initial(p) && d.auth == Consume(A.Feed, A.IsDone, p, []).0
  {
    hide Hist, StatusOf, Methods, Consume, WorldOk, Around;
    AroundIsOk(d.(dnsNext := []), a);
    assert Quiet(d);
    SameWorld(d.(dnsNext := []), d, Around(a));
  }

  lemma AuthenticatesIs(d: Conn, a: Attempt)
    requires Idle(d, AuthRead, [5, 2]) && d.heard == [[5, 1, 2]] && AttemptOk(a)
    ensures Legal(d, Authenticates(a))
    ensures var d' := Step(d, Authenticates(a));
            && d'.open && !d'.relaying && d'.current == Some(AuthWrite) && d'.heard == [[5, 1, 2], [1, 1, 97, 1, 98]]
            && d'.users == Some(HL.Someone().users) && d'.input == Fresh(CAPACITY) && d'.sent == [5, 2]
  {
    hide Inv, Consume, A.Feed, WorldOk, Legal, A.Initial, OnReadable, HL.Takes, HL.Arrived, HL.Someone;
    var got := [1, 1, 97, 1, 98];
    IdleLegal(d, AuthRead, [5, 2], got, a);
    var p :| A.Initial(p) && d.auth == Consume(A.Feed, A.IsDone, p, []).0;
    CredentialsParse(p);
    NotAborted(d);
    HH.CredentialsRead(d, got, Around(a), Consume(A.Feed, A.IsDone, p, got).0);
    assert [] + got == got;
    HL.ReadsInto(d, got, Around(a));
  }

  lemma CredentialsParse(p: A.Parser)
    requires A.Initial(p)
    ensures Consume(A.Feed, A.IsDone, p, []) == (p, 0)
    ensures var (q, n) := Consume(A.Feed, A.IsDone, p, [1, 1, 97, 1, 98]); q.state.Done? && n == 5
  {
    assert Consume(A.Feed, A.IsDone, p, []) == (p, 0);
    hide Consume, A.Feed, CStr;
    A.MeetsGrammar(p, [1, 1, 97, 1, 98]);
    assert A.Grammar([1, 1, 97, 1, 98]).Credentials? && A.Grammar([1, 1, 97, 1, 98]).n == 5;
  }

  lemma NotAborted(d: Conn)
    requires Inv(d)
    ensures !d.aborted
  {
  }

  lemma AsksIs(d: Conn, a: Attempt)
    requires Idle(d, RequestRead, [5, 2, 1, 0]) && AttemptOk(a)
    ensures Legal(d, Asks(a))
    ensures var d' := Step(d, Asks(a)); Told(d', Verdict(a), Around(a)) && d'.sent == [5, 2, 1, 0] && !d'.relaying
  {
    hide Inv, Legal, Told, Verdict, OnReadable, RequestComesTo, R.Grammar, HL.Takes, HL.Arrived, WorldOk;
    var got := [5, 1, 0, 1, 10, 0, 0, 1, 0, 80];
    IdleLegal(d, RequestRead, [5, 2, 1, 0], got, a);
    assert Arriving(d, got) == got;
    AskedFor();
    RequestReads(d, got, Around(a));
    IsTold(d, got, Step(d, Asks(a)), a);
    HL.ReadsInto(d, got, Around(a));
  }

  lemma AskedFor()
    ensures R.Grammar([5, 1, 0, 1, 10, 0, 0, 1, 0, 80]) == R.Request(1, 1, [10, 0, 0, 1], [0, 80], 10)
  {
    var m := [5, 1, 0, 1, 10, 0, 0, 1, 0, 80];
    assert m[4..8] == [10, 0, 0, 1] && m[8..10] == [0, 80];
  }

  lemma IsTold(d: Conn, got: bytes, d': Conn, a: Attempt)
    requires RequestComesTo(d, got, d', Around(a)) && R.Grammar(Arriving(d, got)) == R.Request(1, 1, [10, 0, 0, 1], [0, 80], 10)
    ensures Told(d', Verdict(a), Around(a))
  {
    hide R.Grammar, Told, Verdict;
  }

  /** Two events later. */
  lemma Twice(c: Conn, e: Event, f: Event, rest: seq<Event>)
    requires Legal(c, e) && Legal(Step(c, e), f) && Run(Step(Step(c, e), f), rest)
    ensures Run(c, [e, f] + rest) && After(c, [e, f] + rest) == After(Step(Step(c, e), f), rest)
  {
    hide Legal, Step;
    var es := [e, f] + rest;
    assert es[1..] == [f] + rest && es[1..][1..] == rest;
  }

  /** The negotiation is over. */
  lemma Negotiates(c: Conn, a: Attempt)
    requires Starts(c) && AttemptOk(a)
    ensures Legal(c, Offers(a)) && Legal(Step(c, Offers(a)), Writable(RelaySpec.Wrote(2)))
    ensures var d := Step(Step(c, Offers(a)), Writable(RelaySpec.Wrote(2)));
            Idle(d, AuthRead, [5, 2]) && d.heard == [[5, 1, 2]]
  {
    hide Starts, Inv, Legal, Step, TurnsAway, MethodReply;
    OffersIs(c, a);
    StartInv(c);
    StepInv(c, Offers(a));
    var d := Step(c, Offers(a));
    Saying(d);
    FirstIs(d);
    Pending(d, HelloWrite, [], [5, 2]);
    StepInv(d, Writable(RelaySpec.Wrote(2)));
    Rests(d, Step(d, Writable(RelaySpec.Wrote(2))), AuthRead, [5, 2]);
  }

  /** What is waiting to be written, and what there is once it has been. */
  lemma Pending(d: Conn, s: State, sent: bytes, next: bytes)
    requires Inv(d) && d.open && !d.relaying && d.current == Some(s) && d.sent == sent && d.sent + d.output.pending == sent + next
    requires s.HelloWrite? || s.AuthWrite? || s.RequestWrite?
    ensures d.output.pending == next && d.client.write && Legal(d, Writable(RelaySpec.Wrote(|next|)))
    ensures var d' := Step(d, Writable(RelaySpec.Wrote(|next|)));
            && d'.sent == sent + next
            && if TurnsAway(d) then !d'.open && !d'.relaying else GoesOn(d, d')
  {
    hide Inv, Legal, Step, TurnsAway, GoesOn;
    assert d.output.pending == (d.sent + d.output.pending)[|sent|..];
    Watching(d);
    WritesAll(d);
  }

  lemma Watching(d: Conn)
    requires Inv(d) && d.open && !d.relaying && d.current.Some?
    requires d.current.value.HelloWrite? || d.current.value.AuthWrite? || d.current.value.RequestWrite?
    ensures d.client.write
  {
    hide Hist, Consume, StatusOf, Methods;
  }

  lemma IdleInv(d: Conn, s: State, sent: bytes)
    requires Idle(d, s, sent)
    ensures Inv(d)
  {
    hide Inv;
  }

  /** The credentials have been heard, and their acceptance is written. */
  lemma IsAccepted(d: Conn)
    requires Inv(d) && d.open && !d.relaying && d.current == Some(AuthWrite) && d.heard == [[5, 1, 2], [1, 1, 97, 1, 98]]
    requires d.users == Some(HL.Someone().users) && d.input == Fresh(CAPACITY) && d.sent == [5, 2]
    ensures Legal(d, Writable(RelaySpec.Wrote(2))) && Idle(Step(d, Writable(RelaySpec.Wrote(2))), RequestRead, [5, 2, 1, 0])
  {
    hide Inv, Legal, Step, MethodReply, AuthReply, TurnsAway, StatusOf;
    Saying(d);
    FirstIs(d);
    SecondIs(d);
    AuthPending(d);
    Pending(d, AuthWrite, [5, 2], [1, 0]);
    StepInv(d, Writable(RelaySpec.Wrote(2)));
    hide Idle;
    Rests(d, Step(d, Writable(RelaySpec.Wrote(2))), RequestRead, [5, 2, 1, 0]);
  }

  lemma LogsIn(c: Conn, a: Attempt)
    requires Idle(c, AuthRead, [5, 2]) && c.heard == [[5, 1, 2]] && AttemptOk(a)
    ensures Legal(c, Authenticates(a)) && Legal(Step(c, Authenticates(a)), Writable(RelaySpec.Wrote(2)))
    ensures Idle(Step(Step(c, Authenticates(a)), Writable(RelaySpec.Wrote(2))), RequestRead, [5, 2, 1, 0])
  {
    hide Inv, Legal, Step, Idle, Around;
    IdleInv(c, AuthRead, [5, 2]);
    AuthenticatesIs(c, a);
    StepInv(c, Authenticates(a));
    IsAccepted(Step(c, Authenticates(a)));
  }

  lemma AuthPending(d: Conn)
    requires Inv(d) && d.open && !d.relaying && d.current == Some(AuthWrite) && StatusOf(d.users, d.heard[1]) == 0 && |d.heard| == 2
    ensures !TurnsAway(d)
  {
    hide HeardOk, Received, FallbackOk, StatusOf, Methods;
  }

  lemma IsAnswered(c: Conn, a: Attempt, answer: bytes)
    requires Idle(c, RequestRead, [5, 2, 1, 0]) && AttemptOk(a) && (a == Now(true) || a == Fails(101))
    requires answer == AnswerTo(Verdict(a), Around(a)) && |answer| == 10
    ensures Legal(c, Asks(a)) && Legal(Step(c, Asks(a)), Writable(RelaySpec.Wrote(10)))
    ensures var d := Step(Step(c, Asks(a)), Writable(RelaySpec.Wrote(10)));
            && d.sent == [5, 2, 1, 0] + answer && (d.relaying <==> a == Now(true)) && (d.open <==> a == Now(true))
  {
    hide Inv, Legal, Step;
    AsksIs(c, a);
    StepInv(c, Asks(a));
    var d := Step(c, Asks(a));
    Watching(d);
    WritesFor(d);
    Pending(d, RequestWrite, [5, 2, 1, 0], answer);
  }

  lemma AnswerIs(a: Attempt)
    requires a == Now(true) || a == Fails(101)
    ensures AnswerTo(Verdict(a), Around(a))
            == if a == Now(true) then [5, 0, 0, 1, 192, 168, 1, 10, 156, 64] else [5, 3, 0, 1, 0, 0, 0, 0, 0, 0]
  {
  }

  lemma Last(c: Conn, a: Attempt)
    requires Idle(c, RequestRead, [5, 2, 1, 0]) && (a == Now(true) || a == Fails(101))
    ensures var es := [Asks(a), Writable(RelaySpec.Wrote(10))];
            && Run(c, es)
            && var d := After(c, es);
               if a == Now(true) then d.relaying && d.sent == [5, 2, 1, 0, 5, 0, 0, 1, 192, 168, 1, 10, 156, 64]
               else !d.open && d.sent == [5, 2, 1, 0, 5, 3, 0, 1, 0, 0, 0, 0, 0, 0]
  {
    hide Legal, Step, Idle, AnswerTo;
    var es := [Asks(a), Writable(RelaySpec.Wrote(10))];
    AnswerIs(a);
    IsAnswered(c, a, AnswerTo(Verdict(a), Around(a)));
    assert es + [] == es;
    Twice(c, Asks(a), Writable(RelaySpec.Wrote(10)), []);
  }

  /**
   * The conversation: the method 2 is chosen, the credentials are accepted, and
   * the answer gives 192.168.1.10:40000 if the connect succeeds, and the code of
   * an unreachable network if it fails with ENETUNREACH.
   */
  lemma Conversation(c: Conn, a: Attempt)
    requires Starts(c) && (a == Now(true) || a == Fails(101))
    ensures Run(c, Script(a))
    ensures var d := After(c, Script(a));
            if a == Now(true) then d.relaying && d.sent == [5, 2, 1, 0, 5, 0, 0, 1, 192, 168, 1, 10, 156, 64]
            else !d.open && d.sent == [5, 2, 1, 0, 5, 3, 0, 1, 0, 0, 0, 0, 0, 0]
  {
    hide Starts, Legal, Step, Idle, Run, After;
    Negotiates(c, a);
    var c2 := Step(Step(c, Offers(a)), Writable(RelaySpec.Wrote(2)));
    LogsIn(c2, a);
    var c4 := Step(Step(c2, Authenticates(a)), Writable(RelaySpec.Wrote(2)));
    var last := [Asks(a), Writable(RelaySpec.Wrote(10))];
    Last(c4, a);
    Twice(c2, Authenticates(a), Writable(RelaySpec.Wrote(2)), last);
    Twice(c, Offers(a), Writable(RelaySpec.Wrote(2)), [Authenticates(a), Writable(RelaySpec.Wrote(2))] + last);
  }
}
