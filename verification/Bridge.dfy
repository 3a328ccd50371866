/**
 * How the handshake looks to the life cycle.  A connection's face is what the
 * two models both know of it; every step of the handshake changes the face as
 * one of a few moves does, and each of those moves is a run of the life cycle.
 */
module Bridge {
  import opened Bytes
  import Pipes
  import Chunks
  import RelaySpec
  import A = Auth
  import R = Request
  import HS = HandshakeSpec
  import HR = HandshakeRuns
  import HL = HandshakeLimits
  import HH = HandshakeHonest
  import HT = HandshakeTheorems
  import L = Lifecycle
  import LI = LifecycleInv
  import LS = LifecycleSteps
  import LT = LifecycleTheorems

  datatype Face = Face(phase: L.Phase, origin: bool, pending: bool, resolved: bool)

  function OfHandshake(c: HS.Conn): Face {
    var phase := if c.current.None? then L.Reading
                 else match c.current.value
                      case Connecting => L.Connecting
                      case RequestWrite => L.Settled
                      case Relay => L.Settled
                      case Done => L.Settled
                      case Error => L.Settled
                      case _ => L.Reading;
    Face(phase, !c.origin.NoOrigin?, c.dns.Asked?, c.dnsResult.Some? || c.dnsError != 0)
  }

  function OfLifecycle(c: L.Conn): Face {
    Face(c.phase, c.origin.Some?, c.pending, c.resolved)
  }

  datatype Move =
    | Stays
    | Refuses                              // answered without an origin
    | Dials(sync: bool)                    // a literal address
    | Asks                                 // a worker is started for a name
    | Resolves                             // the worker stores what it found
    | DialsName(sync: bool)                // the notification dials
    | GivesUp                              // or answers without an origin
    | Connects                             // a connect that was waited for succeeded
    | Fails(next: bool, sync: bool)        // or failed, and another address was dialled or not

  /** What a move makes of a face it can be made from. */
  function Effect(f: Face, m: Move): Option<Face> {
    match m
    case Stays => Some(f)
    case Refuses => if f.phase.Reading? then Some(f.(phase := L.Settled)) else None
    case Dials(sync) =>
      if f.phase.Reading? && !f.origin then Some(f.(phase := if sync then L.Settled else L.Connecting, origin := true)) else None
    case Asks =>
      if f.phase.Reading? && !f.pending && !f.resolved then Some(f.(phase := L.Connecting, pending := true)) else None
    case Resolves => if f.phase.Connecting? && f.pending then Some(f.(pending := false, resolved := true)) else None
    case DialsName(sync) =>
      if f.phase.Connecting? && !f.pending && f.resolved && !f.origin
      then Some(f.(phase := if sync then L.Settled else L.Connecting, origin := true)) else None
    case GivesUp =>
      if f.phase.Connecting? && !f.pending && f.resolved && !f.origin then Some(f.(phase := L.Settled)) else None
    case Connects => if f.phase.Connecting? && f.origin then Some(f.(phase := L.Settled)) else None
    case Fails(next, sync) =>
      if f.phase.Connecting? && f.origin
      then Some(f.(phase := if next && !sync then L.Connecting else L.Settled, origin := next)) else None
  }

  // The life cycle makes every move.

  /** The sections that make a move for `a`; `fd` is a new descriptor, `i` the connection's worker. */
  function Sections(m: Move, a: L.Addr, fd: L.Fd, i: nat): seq<L.Step> {
    match m
    case Stays => []
    case Refuses => [L.Refuse(a)]
    case Dials(sync) => [L.Direct(a, fd, sync)]
    case Asks => [L.AskDns(a), L.Main(L.Plain), L.Main(L.Plain), L.Main(L.Plain), L.Main(L.Plain)]
    case Resolves => [L.Work(i, true)]
    case DialsName(sync) => [L.Main(L.Dial(fd, sync))]
    case GivesUp => [L.Main(L.Plain)]
    case Connects => [L.OriginUp(a)]
    case Fails(next, sync) => [L.OriginDown(a, if next then Some(fd) else None, sync)]
  }

  /** The thread that makes the move is where it makes it. */
  predicate InPlace(s: L.State, m: Move, a: L.Addr, fd: L.Fd, i: nat) {
    && a in s.conns && fd !in s.open
    && match m
       case Stays => true
       case Resolves =>
         i < |s.workers| && s.workers[i].conn == a && s.workers[i].pc == L.Locked && !s.conns[a].cancelled
       case DialsName(_) => s.main == L.Handle(L.DoneConnect, a)
       case GivesUp => s.main == L.Handle(L.DoneConnect, a)
       case _ => L.Dispatched(s, a) && s.conns[a].lock.Free?
  }

  lemma NoSection(s: L.State)
    ensures L.Run(s, []) && L.After(s, []) == s
  {
  }

  lemma Section(s: L.State, t: L.Step, ts: seq<L.Step>)
    requires L.Enabled(s, t) && L.Run(L.Next(s, t), ts)
    ensures L.Run(s, [t] + ts) && L.After(s, [t] + ts) == L.After(L.Next(s, t), ts)
  {
    hide L.Next, L.Enabled;
    assert ([t] + ts)[1..] == ts;
  }

  lemma OneSection(s: L.State, t: L.Step)
    requires L.Enabled(s, t)
    ensures L.Run(s, [t]) && L.After(s, [t]) == L.Next(s, t)
  {
    NoSection(L.Next(s, t));
    Section(s, t, []);
    assert [t] + [] == [t];
  }

  /** A main thread's section. */
  function Main(s: L.State): L.State
    requires L.Enabled(s, L.Main(L.Plain))
  {
    L.Next(s, L.Main(L.Plain))
  }

  /** Asking for a name, until the main thread has marked it pending. */
  lemma StartsDns(s: L.State, a: L.Addr)
    requires a in s.conns && L.Dispatched(s, a) && s.conns[a].lock.Free? && s.conns[a].phase.Reading?
    requires !s.conns[a].pending && !s.conns[a].resolved
    ensures L.Enabled(s, L.AskDns(a))
    ensures L.Enabled(L.Next(s, L.AskDns(a)), L.Main(L.Plain))
    ensures L.Enabled(Main(L.Next(s, L.AskDns(a))), L.Main(L.Plain))
    ensures var t := Main(Main(L.Next(s, L.AskDns(a))));
            && t.main == L.Start(L.StartRef, a, L.ToLoop) && a in t.conns
            && t.conns[a] == s.conns[a].(pending := true, resolved := false)
  {
  }

  /** And until the worker runs. */
  lemma StartsWorker(s: L.State, a: L.Addr)
    requires a in s.conns && s.main == L.Start(L.StartRef, a, L.ToLoop) && s.conns[a].client.Some?
    ensures L.Enabled(s, L.Main(L.Plain)) && L.Enabled(Main(s), L.Main(L.Plain)) && a in Main(Main(s)).conns
    ensures OfLifecycle(Main(Main(s)).conns[a]) == OfLifecycle(s.conns[a]).(phase := L.Connecting)
  {
  }

  lemma AskingRun(s: L.State, a: L.Addr)
    requires a in s.conns && L.Dispatched(s, a) && s.conns[a].lock.Free? && s.conns[a].phase.Reading?
    requires !s.conns[a].pending && !s.conns[a].resolved && s.conns[a].client.Some?
    ensures var ts := Sections(Asks, a, 0, 0);
            && L.Run(s, ts) && a in L.After(s, ts).conns
            && OfLifecycle(L.After(s, ts).conns[a]) == OfLifecycle(s.conns[a]).(phase := L.Connecting, pending := true)
  {
    hide L.Next, L.Enabled, L.Run, L.After, L.Dispatched;
    var p := L.Main(L.Plain);
    StartsDns(s, a);
    var s1 := L.Next(s, L.AskDns(a));
    var s2 := Main(s1);
    var s3 := Main(s2);
    StartsWorker(s3, a);
    OneSection(Main(s3), p);
    Section(s3, p, [p]);
    Section(s2, p, [p] + [p]);
    Section(s1, p, [p] + ([p] + [p]));
    Section(s, L.AskDns(a), [p] + ([p] + ([p] + [p])));
    assert [L.AskDns(a)] + ([p] + ([p] + ([p] + [p]))) == [L.AskDns(a), p, p, p, p];
  }

  lemma AskingSections(s: L.State, a: L.Addr, fd: L.Fd, i: nat)
    requires LI.Inv(s) && InPlace(s, Asks, a, fd, i) && Effect(OfLifecycle(s.conns[a]), Asks).Some?
    ensures var ts := Sections(Asks, a, fd, i);
            && L.Run(s, ts) && a in L.After(s, ts).conns
            && Some(OfLifecycle(L.After(s, ts).conns[a])) == Effect(OfLifecycle(s.conns[a]), Asks)
  {
    hide LI.Inv, L.Run, L.After;
    ClientIsThere(s, a);
    AskingRun(s, a);
  }

  lemma ClientIsThere(s: L.State, a: L.Addr)
    requires LI.Inv(s) && a in s.conns && L.Dispatched(s, a)
    ensures s.conns[a].client.Some?
  {
    LS.ConnFacts(s, a);
    hide LI.Inv, LI.RefInv, LI.LockInv, LI.PhaseInv, LI.OwnInv, LI.MainInv, LI.GlobalInv;
  }

  /** A registered origin leaves the selector, and its connection is told so. */
  lemma UnregistersOrigin(s: L.State, a: L.Addr, fd: L.Fd)
    requires s.alive && fd in s.items && s.items[fd] == L.Item(a, L.Origin) && a in s.conns && fd in s.open
    ensures var t := L.Unregister(s, fd);
            && a in t.conns && t.open == s.open && fd !in t.items
            && t.conns[a] == s.conns[a].(originReg := if s.conns[a].origin == Some(fd) then false else s.conns[a].originReg)
  {
  }

  lemma FailingSection(s: L.State, a: L.Addr, next: Option<L.Fd>, sync: bool)
    requires LI.Inv(s) && a in s.conns && L.Dispatched(s, a) && s.conns[a].phase.Connecting? && s.conns[a].origin.Some?
    requires next.Some? ==> next.value !in s.open
    ensures var t := L.OriginDown(a, next, sync);
            && L.Enabled(s, t) && a in L.Next(s, t).conns
            && var c := L.Next(s, t).conns[a];
               OfLifecycle(c) == OfLifecycle(s.conns[a]).(phase := if next.Some? && !sync then L.Connecting else L.Settled,
                                                          origin := next.Some?)
  {
    hide LI.Inv, L.Unregister;
    var c := s.conns[a];
    OriginIsThere(s, a);
    UnregistersOrigin(L.Put(s, a, c.(originReg := false)), a, c.origin.value);
  }

  lemma OriginIsThere(s: L.State, a: L.Addr)
    requires LI.Inv(s) && a in s.conns && L.Dispatched(s, a) && s.conns[a].origin.Some?
    ensures s.alive && s.conns[a].origin.value in s.open && s.conns[a].origin.value in s.items
    ensures s.items[s.conns[a].origin.value] == L.Item(a, L.Origin)
  {
    LS.ConnFacts(s, a);
    hide LI.Inv, LI.RefInv, LI.LockInv, LI.PhaseInv, LI.OwnInv, LI.MainInv;
  }

  /** In a state where the thread that makes a move is where it makes it, the move is a run of the life cycle. */
  lemma LifecycleMoves(s: L.State, m: Move, a: L.Addr, fd: L.Fd, i: nat)
    requires LI.Inv(s) && InPlace(s, m, a, fd, i) && Effect(OfLifecycle(s.conns[a]), m).Some?
    ensures var ts := Sections(m, a, fd, i);
            && L.Run(s, ts) && a in L.After(s, ts).conns
            && Some(OfLifecycle(L.After(s, ts).conns[a])) == Effect(OfLifecycle(s.conns[a]), m)
  {
    hide LI.Inv, L.Run, L.After;
    match m {
      case Stays => assert L.Run(s, []) && L.After(s, []) == s by { NoSection(s); }
      case Asks => AskingSections(s, a, fd, i);
      case Fails(next, sync) =>
        FailingSection(s, a, if next then Some(fd) else None, sync);
        OneSection(s, L.OriginDown(a, if next then Some(fd) else None, sync));
      case Resolves => OneSection(s, L.Work(i, true));
      case _ => OneSection(s, Sections(m, a, fd, i)[0]);
    }
  }

  // The handshake makes no other.

  /** The moves a handler may make. */
  predicate Fits(e: HS.Event, m: Move) {
    match e
    case Readable(_, _) => m.Stays? || m.Refuses? || m.Dials? || m.Asks?
    case Writable(_) => m.Stays?
    case OriginWritable(error, _) => if error == 0 then m.Connects? else m.Fails?
    case WorkerStores(_, _, _) => m.Resolves?
    case BlockDone(_) => m.DialsName? || m.GivesUp?
  }

  predicate Makes(c: HS.Conn, d: HS.Conn, m: Move) {
    Effect(OfHandshake(c), m) == Some(OfHandshake(d))
  }

  ghost predicate Moves(c: HS.Conn, e: HS.Event, d: HS.Conn) {
    exists m :: Fits(e, m) && Makes(c, d, m)
  }

  const AT_FIRST: Face := Face(L.Reading, false, false, false)

  lemma EarlyFace(c: HS.Conn)
    requires HR.Inv(c) && c.open && !c.relaying
    requires c.current.Some? ==> !c.current.value.Connecting? && !c.current.value.RequestWrite?
    ensures OfHandshake(c) == AT_FIRST
  {
    hide HR.Hist, HR.StatusOf, HR.Methods;
  }

  lemma ConnectMakes(c: HS.Conn, w: HS.World)
    requires HR.Quiet(c) && HS.WorldOk(c, w)
    ensures var d := HS.ConnectToOrigin(c, w).0; d.dnsResult.None? && d.dnsError == 0
  {
    hide HS.Dial;
    HL.WorldIs(c, w);
    DialKeepsNames(c, HS.Target(c), w.attempts[0]);
  }

  lemma DialKeepsNames(c: HS.Conn, addr: HS.Addr, a: HS.Attempt)
    ensures var d := HS.Dial(c, addr, a).0; d.dnsResult == c.dnsResult && d.dnsError == c.dnsError && d.dns == c.dns
  {
  }

  lemma MarshallKeepsNames(c: HS.Conn, w: HS.World)
    ensures var d := HS.MarshallReply(c, w).0; d.dnsResult == c.dnsResult && d.dnsError == c.dnsError
  {
  }

  lemma RequestMakes(c: HS.Conn, w: HS.World)
    requires HR.Quiet(c) && HS.WorldOk(c, w) && |w.attempts| >= |c.dnsNext| && |w.attempts| >= 1
    ensures var d := HS.RequestReady(c, w).0; d.dnsResult.None? && d.dnsError == 0
  {
    hide Chunks.Consume, HS.ConnectToOrigin, HS.MarshallReply, HS.WorldOk;
    var (q, n) := Chunks.Consume(R.Feed, R.IsDone, c.request, c.input.pending);
    var c1 := c.(request := q, taken := c.taken + c.input.pending[..n], input := c.input.Take(n));
    MarshallKeepsNames(c1.(reply := R.ADDRESS_TYPE_NOT_SUPPORTED), w);
    MarshallKeepsNames(c1.(reply := R.GENERAL_FAILURE), w);
    MarshallKeepsNames(HS.Heard(c1).(reply := R.COMMAND_NOT_SUPPORTED), w);
    SameWorld(c, HS.Heard(c1), w);
    ConnectMakes(HS.Heard(c1), w);
    var (c2, status) := HS.ConnectToOrigin(HS.Heard(c1), w);
    MarshallKeepsNames(c2.(reply := HS.ReplyFor(status)), w);
  }

  lemma SameWorld(c: HS.Conn, d: HS.Conn, w: HS.World)
    requires HS.WorldOk(c, w) && d.dnsNext == c.dnsNext
    ensures HS.WorldOk(d, w)
  {
  }

  lemma JumpKeepsNames(c: HS.Conn, s: HS.State)
    ensures var d := HS.Jump(c, s); d.dnsResult == c.dnsResult && d.dnsError == c.dnsError
  {
  }

  lemma RequestKnowsNothing(c: HS.Conn, got: bytes, w: HS.World)
    requires HR.Inv(c) && c.current == Some(HS.RequestRead) && HS.Legal(c, HS.Readable(RelaySpec.Data(got), w))
    ensures var d := HS.OnReadable(c, RelaySpec.Data(got), w); d.dnsResult.None? && d.dnsError == 0
  {
    hide HR.Hist, HS.WorldOk, HS.RequestReady, HS.Jump, HR.StatusOf, Chunks.Consume;
    HL.WorldIs(c, w);
    var c0 := c.(input := c.input.Put(got), received := c.received + got);
    SameWorld(c, c0, w);
    RequestMakes(c0, w);
    var (c1, s) := HS.RequestReady(c0, w);
    JumpKeepsNames(c1, s);
  }

  /** What an open connection that has just read its request looks like. */
  lemma RequestFace(c: HS.Conn, e: HS.Event, d: HS.Conn)
    requires OfHandshake(c) == AT_FIRST && e.Readable?
    requires HR.Inv(d) && d.open && !d.relaying && d.dnsResult.None? && d.dnsError == 0
    ensures Moves(c, e, d)
  {
    hide HR.Hist, HR.StatusOf, HR.Methods, HR.InHello, HR.InAuth, HR.InRequest;
    var f := OfHandshake(d);
    if d.current == Some(HS.Connecting) {
      assert Makes(c, d, if f.origin then Dials(false) else Asks);
    } else if d.current == Some(HS.RequestWrite) {
      assert Makes(c, d, if f.origin then Dials(true) else Refuses);
    } else {
      EarlyFace(d);
      assert Makes(c, d, Stays);
    }
  }

  lemma ReadMoves(c: HS.Conn, r: RelaySpec.ReadResult, w: HS.World)
    requires HR.Inv(c) && HS.Legal(c, HS.Readable(r, w)) && HS.OnReadable(c, r, w).open && HR.Inv(HS.OnReadable(c, r, w))
    ensures Moves(c, HS.Readable(r, w), HS.OnReadable(c, r, w))
  {
    hide HR.Hist, HR.Live, HS.HandlerRead, HS.WorldOk, OfHandshake, Effect;
    HL.WorldIs(c, w);
    var e, d := HS.Readable(r, w), HS.OnReadable(c, r, w);
    HR.ReadableState(c);
    EarlyFace(c);
    if r.Data? {
      if c.current == Some(HS.RequestRead) {
        RequestKnowsNothing(c, r.got, w);
        HL.ReadsInto(c, r.got, w);
        RequestFace(c, e, d);
      } else {
        HL.ReadableKeepsDns(c, r, w);
        FirstReadFace(c, r, w);
        EarlyFace(d);
        StaysAt(c, d);
        assert Makes(c, d, Stays);
      }
    } else {
      EarlyFace(d);
      StaysAt(c, d);
      assert Makes(c, d, Stays);
    }
  }

  lemma StaysAt(c: HS.Conn, d: HS.Conn)
    requires OfHandshake(c) == OfHandshake(d)
    ensures Makes(c, d, Stays)
  {
  }

  lemma FirstReadFace(c: HS.Conn, r: RelaySpec.ReadResult, w: HS.World)
    requires HR.Inv(c) && HS.Legal(c, HS.Readable(r, w)) && c.current != Some(HS.RequestRead)
    ensures var d := HS.OnReadable(c, r, w); HL.Early(d)
  {
    hide HR.Hist, HS.OnReadable, HS.WorldOk, HR.StatusOf, HR.Methods, Chunks.Consume;
    HR.ReadableState(c);
    HL.ReadableKeepsDns(c, r, w);
  }

  /** Applying the action of a state changes nothing but the client's interest, unless it closes. */
  lemma ApplyKeeps(c: HS.Conn, s: HS.State)
    requires HS.Apply(c, s).open
    ensures OfHandshake(HS.Apply(c, s)) == OfHandshake(c)
  {
  }

  lemma LastFace(c: HS.Conn, d: HS.Conn)
    requires c.current == Some(HS.RequestWrite) && d.current.Some?
    requires d.current.value.RequestWrite? || d.current.value.Relay? || d.current.value.Done?
    requires d.origin == c.origin && d.dns == c.dns && d.dnsResult == c.dnsResult && d.dnsError == c.dnsError
    ensures OfHandshake(d) == OfHandshake(c)
  {
  }

  lemma LastWrites(c: HS.Conn, r: RelaySpec.WriteResult)
    requires c.current == Some(HS.RequestWrite) && RelaySpec.WriteFits(r, c.output) && HS.OnWritable(c, r).open
    ensures OfHandshake(HS.OnWritable(c, r)) == OfHandshake(c)
  {
    hide HS.HandlerWrite, HS.Apply, OfHandshake;
    if r.Wrote? && r.n > 0 {
      var c1 := c.(output := c.output.Take(r.n), sent := c.sent + c.output.pending[..r.n]);
      if c1.output.pending == [] {
        HL.LastHandler(c1);
        var (d, s) := HS.HandlerWrite(c1);
        LastFace(c, d);
        if !d.aborted { ApplyKeeps(d, s); }
      } else {
        LastFace(c, c1.(client := HS.WRITE));
      }
    } else {
      LastFace(c, c.(client := HS.WRITE));
    }
  }

  lemma WriteMoves(c: HS.Conn, r: RelaySpec.WriteResult)
    requires HR.Inv(c) && HS.Legal(c, HS.Writable(r)) && HS.OnWritable(c, r).open && HR.Inv(HS.OnWritable(c, r))
    ensures Moves(c, HS.Writable(r), HS.OnWritable(c, r))
  {
    hide HR.Inv, HS.OnWritable, OfHandshake;
    HR.WritableState(c);
    if c.current == Some(HS.RequestWrite) {
      LastWrites(c, r);
    } else {
      HL.FirstWrites(c, r);
      EarlyFace(c);
      EarlyFace(HS.OnWritable(c, r));
    }
    StaysAt(c, HS.OnWritable(c, r));
  }

  lemma UpMoves(c: HS.Conn, w: HS.World)
    requires HR.Inv(c) && HS.Legal(c, HS.OriginWritable(0, w))
    ensures Moves(c, HS.OriginWritable(0, w), HS.OnOriginWritable(c, 0, w))
  {
    hide HR.Hist, HS.MarshallReply, HS.WorldOk;
    HR.OriginState(c);
    HL.WorldIs(c, w);
    HH.MarshalsShort(c.(reply := HS.ReplyFor(0), originInterest := HS.NOOP, origin := HS.Up), w);
    assert Makes(c, HS.OnOriginWritable(c, 0, w), Connects);
  }

  /** How a connect that failed leaves the connection. */
  lemma DownLeaves(c: HS.Conn, error: nat, w: HS.World)
    requires HR.Inv(c) && HS.Legal(c, HS.OriginWritable(error, w)) && error != 0
    ensures HR.PipesOk(c) && HR.Drained(c) && |w.attempts| >= |c.dnsNext|
    ensures var d := HS.OnOriginWritable(c, error, w);
            && d.dns == c.dns && d.dnsResult == c.dnsResult && d.dnsError == c.dnsError
            && d.current == if d.origin.Pending? then c.current else Some(HS.RequestWrite)
  {
    hide HR.Hist, HS.DialNext, HS.MarshallReply, HS.WorldOk, HS.ReplyFor;
    HR.OriginState(c);
    HL.WorldIs(c, w);
    var c1 := c.(reply := HS.ReplyFor(error), origin := HS.NoOrigin, originInterest := HS.NOOP, lastError := error, waited := true);
    if HR.ByName(c) && c.dnsNext != [] {
      HR.DialsInOrder(c1, HS.EHOSTUNREACH, w.attempts);
      var (c2, status) := HS.DialNext(c1, HS.EHOSTUNREACH, w.attempts);
      if status != HS.EINPROGRESS { HH.MarshalsShort(c2.(reply := HS.ReplyFor(status)), w); }
    } else {
      HH.MarshalsShort(c1, w);
    }
  }

  lemma OriginMoves(c: HS.Conn, error: nat, w: HS.World)
    requires HR.Inv(c) && HS.Legal(c, HS.OriginWritable(error, w)) && |w.attempts| >= |c.dnsNext|
    ensures Moves(c, HS.OriginWritable(error, w), HS.OnOriginWritable(c, error, w))
  {
    hide HR.Hist, HS.WorldOk, HS.OnOriginWritable;
    if error == 0 {
      UpMoves(c, w);
    } else {
      HR.OriginState(c);
      DownLeaves(c, error, w);
      var d := HS.OnOriginWritable(c, error, w);
      assert Makes(c, d, Fails(!d.origin.NoOrigin?, !d.origin.Pending?));
    }
  }

  lemma StoreMoves(c: HS.Conn, e: HS.Event)
    requires HR.Inv(c) && HS.Legal(c, e) && e.WorkerStores?
    ensures Moves(c, e, HS.Step(c, e))
  {
    hide HR.Hist;
    HR.OriginState(c);
    assert Makes(c, HS.Step(c, e), Resolves);
  }

  /** How the notification's handler leaves the connection. */
  lemma BlockLeaves(c: HS.Conn, w: HS.World)
    requires HR.Inv(c) && HS.Legal(c, HS.BlockDone(w)) && |w.attempts| >= |c.dnsNext| && |w.attempts| >= 1
    ensures OfHandshake(c) == Face(L.Connecting, false, false, true)
    ensures var d := HS.OnBlockDone(c, w);
            && d.dns == HS.Answered && d.dnsResult == c.dnsResult && d.dnsError == c.dnsError
            && d.current == Some(if d.origin.Pending? then HS.Connecting else HS.RequestWrite)
  {
    hide HR.Hist, HS.DialNext, HS.MarshallReply, HS.WorldOk, HS.ReplyFor;
    HR.OriginState(c);
    HL.WorldIs(c, w);
    var c1 := c.(dns := HS.Answered);
    HR.DialsInOrder(c1, HS.EHOSTUNREACH, w.attempts);
    var (c2, status) := HS.ConnectToOrigin(c1, w);
    if status != HS.EINPROGRESS { HH.MarshalsShort(c2.(reply := HS.ReplyFor(status)), w); }
  }

  lemma BlockMoves(c: HS.Conn, w: HS.World)
    requires HR.Inv(c) && HS.Legal(c, HS.BlockDone(w)) && |w.attempts| >= |c.dnsNext| && |w.attempts| >= 1
    ensures Moves(c, HS.BlockDone(w), HS.OnBlockDone(c, w))
  {
    hide HR.Inv, HS.Legal, HS.OnBlockDone;
    BlockLeaves(c, w);
    var d := HS.OnBlockDone(c, w);
    assert Makes(c, d, if d.origin.NoOrigin? then GivesUp else DialsName(d.origin.Up?));
  }

  /** Every step of the handshake either closes the connection or makes one of its handler's moves. */
  lemma HandshakeMoves(c: HS.Conn, es: seq<HS.Event>, e: HS.Event)
    requires HS.Starts(c) && HS.Run(c, es) && HS.Legal(HS.After(c, es), e)
    ensures var d := HS.After(c, es); var d' := HS.Step(d, e); d'.open ==> Moves(d, e, d')
  {
    HT.Reached(c, es);
    hide HR.Inv, Moves, HS.Step, HS.Legal;
    if HS.Step(HS.After(c, es), e).open { StepMoves(HS.After(c, es), e); }
  }

  lemma StepMoves(d: HS.Conn, e: HS.Event)
    requires HR.Inv(d) && HS.Legal(d, e) && HS.Step(d, e).open
    ensures Moves(d, e, HS.Step(d, e))
  {
    HR.StepInv(d, e);
    hide HR.Inv, Moves, HS.OnReadable, HS.OnWritable, HS.OnOriginWritable, HS.OnBlockDone;
    match e {
      case Readable(r, w) => ReadMoves(d, r, w);
      case Writable(r) => WriteMoves(d, r);
      case OriginWritable(error, w) =>
        HL.WorldIs(d, w);
        OriginMoves(d, error, w);
      case WorkerStores(_, _, _) => StoreMoves(d, e);
      case BlockDone(w) =>
        HL.WorldIs(d, w);
        BlockMoves(d, w);
    }
  }

  /** The life cycle can follow: from a reachable state with the same face, in place for the move, it gets to the same face. */
  ghost predicate Follows(d: HS.Conn, e: HS.Event, d': HS.Conn, s: L.State, a: L.Addr, fd: L.Fd, i: nat, m: Move) {
    && Fits(e, m) && Makes(d, d', m)
    && (InPlace(s, m, a, fd, i) ==>
          var ts := Sections(m, a, fd, i);
          L.Run(s, ts) && a in L.After(s, ts).conns && OfLifecycle(L.After(s, ts).conns[a]) == OfHandshake(d'))
  }

  /**
   * Simulation.  A step of the handshake that leaves the connection open is one
   * of its handler's moves, and wherever the life cycle stands with the same
   * face and the thread in place, its sections for that move lead to the same
   * face: the phases, origins and resolutions it reasons about are the program's.
   */
  lemma LifecycleFollows(c: HS.Conn, es: seq<HS.Event>, e: HS.Event, s: L.State, a: L.Addr, fd: L.Fd, i: nat)
    requires HS.Starts(c) && HS.Run(c, es) && HS.Legal(HS.After(c, es), e) && HS.Step(HS.After(c, es), e).open
    requires L.Reachable(s) && a in s.conns && OfLifecycle(s.conns[a]) == OfHandshake(HS.After(c, es))
    ensures exists m :: Follows(HS.After(c, es), e, HS.Step(HS.After(c, es), e), s, a, fd, i, m)
  {
    hide HS.Starts, HS.Run, HS.Legal, HS.Step, L.Run, L.After, LI.Inv, OfHandshake, OfLifecycle, Effect, Sections, InPlace, L.Reachable;
    HandshakeMoves(c, es, e);
    LT.ReachableInv(s);
    var d, d' := HS.After(c, es), HS.Step(HS.After(c, es), e);
    var m :| Fits(e, m) && Makes(d, d', m);
    if InPlace(s, m, a, fd, i) { LifecycleMoves(s, m, a, fd, i); }
    assert Follows(d, e, d', s, a, fd, i, m);
  }
}
