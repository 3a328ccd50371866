/**
 * Every run of the handshake is one of the life cycle.  From the empty proxy,
 * an accepted connection is taken by the main thread's and its worker's
 * sections through every state the handshake goes through.
 */
module BridgeRuns {
  import opened Bytes
  import HS = HandshakeSpec
  import HR = HandshakeRuns
  import HL = HandshakeLimits
  import L = Lifecycle
  import opened Bridge

  // Runs of the life cycle.

  lemma {:induction false} RunOn(s: L.State, ts: seq<L.Step>, us: seq<L.Step>)
    requires L.Run(s, ts) && L.Run(L.After(s, ts), us)
    ensures L.Run(s, ts + us) && L.After(s, ts + us) == L.After(L.After(s, ts), us)
    decreases |ts|
  {
    hide L.Next, L.Enabled;
    if ts == [] {
      assert ts + us == us;
    } else {
      RunOn(L.Next(s, ts[0]), ts[1..], us);
      assert (ts + us)[1..] == ts[1..] + us;
    }
  }

  /** One state can be reached from another. */
  ghost predicate Gets(s: L.State, t: L.State) {
    exists ts :: L.Run(s, ts) && L.After(s, ts) == t
  }

  lemma GetsSame(s: L.State)
    ensures Gets(s, s)
  {
    NoSection(s);
  }

  lemma GetsBy(s: L.State, x: L.Step)
    requires L.Enabled(s, x)
    ensures Gets(s, L.Next(s, x))
  {
    hide L.Next, L.Enabled, L.Run, L.After;
    OneSection(s, x);
  }

  lemma GetsOn(s: L.State, t: L.State, u: L.State)
    requires Gets(s, t) && Gets(t, u)
    ensures Gets(s, u)
  {
    hide L.Run, L.After;
    var ts :| L.Run(s, ts) && L.After(s, ts) == t;
    var us :| L.Run(t, us) && L.After(t, us) == u;
    RunOn(s, ts, us);
  }

  // The proxy with one connection.

  /** Where the connection's resolution stands: Lost is an answer whose notification could not be queued. */
  datatype Stage = Idle | Working | Queued | Handled | Lost

  function StageOf(c: HS.Conn): Stage {
    match c.dns
    case NotAsked => Idle
    case Asked(_) => Working
    case Stored => Queued
    case Answered => if HL.Stuck(c) then Lost else Handled
  }

  function Registered(origin: bool): map<L.Fd, L.Item> {
    if origin then map[0 := L.Item(0, L.Client), 1 := L.Item(0, L.Origin)] else map[0 := L.Item(0, L.Client)]
  }

  /** Connection 0 with this face, its descriptors 0 and 1. */
  function Conn0(f: Face, refs: nat, lock: L.Holder, worker: Option<nat>): L.Conn {
    L.Conn(refs, false, false, Some(0), true, if f.origin then Some(1) else None, f.origin, f.pending, f.resolved, f.phase,
           lock, true, worker)
  }

  /** The proxy with connection 0 alone, and its only worker if it has one. */
  function Alone(c: L.Conn, ws: seq<L.Worker>, pc: L.Pc, res: L.Holder, jobs: seq<L.Job>, cursor: nat): L.State {
    var items := Registered(c.origin.Some?);
    L.State(map[0 := c], ws, pc, res, jobs, cursor, [0], 1, items, items, true, false)
  }

  function Worker0(pc: L.WorkPc, pushed: bool, cleaned: nat): seq<L.Worker> {
    [L.Worker(0, 0, pc, pushed, cleaned)]
  }

  /** Between two handlers. */
  function Canon(f: Face, g: Stage): L.State {
    match g
    case Idle => Alone(Conn0(f, 1, L.Free, None), [], L.Loop, L.Free, [], 0)
    case Working => Alone(Conn0(f, 2, L.Free, Some(0)), Worker0(L.Resolving, false, 0), L.Loop, L.Free, [], 0)
    case Queued => Alone(Conn0(f, 2, L.Free, Some(0)), Worker0(L.Done, true, 0), L.Loop, L.Free, [L.Job(0, 0, 0)], 0)
    case Handled => Alone(Conn0(f, 1, L.Free, Some(0)), Worker0(L.Done, true, 1), L.Loop, L.Free, [], 0)
    case Lost => Alone(Conn0(f, 1, L.Free, Some(0)), Worker0(L.Done, false, 0), L.Loop, L.Free, [], 0)
  }

  lemma AcceptRun()
    ensures Gets(L.Init, Canon(AT_FIRST, Idle))
  {
    GetsBy(L.Init, L.Accept(0, 0));
    assert L.Next(L.Init, L.Accept(0, 0)) == Canon(AT_FIRST, Idle);
  }

  lemma PutAlone(c: L.Conn, d: L.Conn, ws: seq<L.Worker>, pc: L.Pc, res: L.Holder, jobs: seq<L.Job>, cursor: nat)
    requires c.origin.Some? == d.origin.Some?
    ensures L.Put(Alone(c, ws, pc, res, jobs, cursor), 0, d) == Alone(d, ws, pc, res, jobs, cursor)
  {
    assert map[0 := c][0 := d] == map[0 := d];
  }

  // The moves of the main thread between two handlers.

  lemma RefuseRun(f: Face)
    requires f.phase.Reading?
    ensures Gets(Canon(f, Idle), Canon(f.(phase := L.Settled), Idle))
  {
    var c := Conn0(f, 1, L.Free, None);
    GetsBy(Canon(f, Idle), L.Refuse(0));
    PutAlone(c, c.(phase := L.Settled), [], L.Loop, L.Free, [], 0);
  }

  lemma DialRun(f: Face, sync: bool)
    requires f.phase.Reading? && !f.origin
    ensures Gets(Canon(f, Idle), Canon(f.(phase := if sync then L.Settled else L.Connecting, origin := true), Idle))
  {
    var s := Canon(f, Idle);
    GetsBy(s, L.Direct(0, 1, sync));
    OpensOrigin(Conn0(f, 1, L.Free, None), [], L.Loop, L.Free, [], 0, sync);
  }

  /** Dialling for connection 0 gives it descriptor 1. */
  lemma OpensOrigin(c: L.Conn, ws: seq<L.Worker>, pc: L.Pc, res: L.Holder, jobs: seq<L.Job>, cursor: nat, sync: bool)
    requires c.origin.None?
    ensures L.OpenOrigin(Alone(c, ws, pc, res, jobs, cursor), 0, 1, sync)
            == Alone(c.(origin := Some(1), originReg := true, phase := if sync then L.Settled else L.Connecting),
                     ws, pc, res, jobs, cursor)
  {
    assert Registered(false)[1 := L.Item(0, L.Origin)] == Registered(true);
  }

  /** Its origin, still open, leaves the selector. */
  function Unwatched(s: L.State): L.State {
    s.(items := Registered(false))
  }

  lemma OriginLeaves(c: L.Conn, ws: seq<L.Worker>, jobs: seq<L.Job>)
    requires c.origin == Some(1) && !c.originReg
    ensures L.Unregister(Alone(c, ws, L.Loop, L.Free, jobs, 0), 1) == Unwatched(Alone(c, ws, L.Loop, L.Free, jobs, 0))
  {
    assert map[0 := c][0 := c] == map[0 := c];
    assert Registered(true) - {1} == Registered(false);
  }

  lemma OriginCloses(c: L.Conn, ws: seq<L.Worker>, jobs: seq<L.Job>)
    requires c.origin == Some(1)
    ensures var s := Unwatched(Alone(c, ws, L.Loop, L.Free, jobs, 0));
            L.CloseFd(L.Put(s, 0, c.(origin := None)), 1) == Alone(c.(origin := None), ws, L.Loop, L.Free, jobs, 0)
  {
    assert map[0 := c][0 := c.(origin := None)] == map[0 := c.(origin := None)];
    assert Registered(true) - {1} == Registered(false);
  }

  lemma OriginFails(c: L.Conn, ws: seq<L.Worker>, jobs: seq<L.Job>, next: bool, sync: bool)
    requires c.origin == Some(1) && c.originReg
    ensures L.DoOriginDown(Alone(c, ws, L.Loop, L.Free, jobs, 0), 0, if next then Some(1) else None, sync)
            == Alone(c.(origin := if next then Some(1) else None, originReg := next,
                        phase := if next && !sync then L.Connecting else L.Settled), ws, L.Loop, L.Free, jobs, 0)
  {
    hide L.Unregister, L.CloseFd, Alone, L.Put, L.OpenOrigin;
    var c1 := c.(originReg := false);
    var c2 := c1.(origin := None);
    AloneConns(c, ws, L.Loop, L.Free, jobs, 0);
    AloneConns(c1, ws, L.Loop, L.Free, jobs, 0);
    AloneConns(c2, ws, L.Loop, L.Free, jobs, 0);
    PutAlone(c, c1, ws, L.Loop, L.Free, jobs, 0);
    OriginLeaves(c1, ws, jobs);
    OriginCloses(c1, ws, jobs);
    if next {
      OpensOrigin(c2, ws, L.Loop, L.Free, jobs, 0, sync);
    } else {
      PutAlone(c2, c2.(phase := L.Settled), ws, L.Loop, L.Free, jobs, 0);
    }
  }

  lemma AloneConns(c: L.Conn, ws: seq<L.Worker>, pc: L.Pc, res: L.Holder, jobs: seq<L.Job>, cursor: nat)
    ensures Alone(c, ws, pc, res, jobs, cursor).conns == map[0 := c]
  {
  }

  lemma CanonIs(f: Face, g: Stage)
    ensures Canon(f, g) == Alone(Canon(f, g).conns[0], Canon(f, g).workers, L.Loop, L.Free, Canon(f, g).jobs, 0)
    ensures Canon(f, g).conns[0] == Conn0(f, Canon(f, g).conns[0].refs, L.Free, Canon(f, g).conns[0].worker)
  {
  }

  /** Another face, with the resolution where it stands. */
  lemma CanonWith(f: Face, g: Stage, f': Face)
    ensures var s, c := Canon(f, g), Canon(f, g).conns[0];
            Canon(f', g) == Alone(Conn0(f', c.refs, L.Free, c.worker), s.workers, L.Loop, L.Free, s.jobs, 0)
  {
  }

  lemma ConnectRun(f: Face, g: Stage)
    requires f.phase.Connecting? && f.origin
    ensures Gets(Canon(f, g), Canon(f.(phase := L.Settled), g))
  {
    var s, c := Canon(f, g), Canon(f, g).conns[0];
    CanonIs(f, g);
    CanonWith(f, g, f.(phase := L.Settled));
    PutAlone(c, c.(phase := L.Settled), s.workers, L.Loop, L.Free, s.jobs, 0);
    hide Canon;
    GetsBy(s, L.OriginUp(0));
  }

  lemma FailRun(f: Face, g: Stage, next: bool, sync: bool)
    requires f.phase.Connecting? && f.origin
    ensures Gets(Canon(f, g), Canon(f.(phase := if next && !sync then L.Connecting else L.Settled, origin := next), g))
  {
    var s, c := Canon(f, g), Canon(f, g).conns[0];
    CanonIs(f, g);
    CanonWith(f, g, f.(phase := if next && !sync then L.Connecting else L.Settled, origin := next));
    hide Canon, Gets, Alone, L.Next, L.Enabled;
    OriginDowns(c, s.workers, s.jobs, next, sync);
    GetsBy(s, L.OriginDown(0, if next then Some(1) else None, sync));
  }

  lemma OriginDowns(c: L.Conn, ws: seq<L.Worker>, jobs: seq<L.Job>, next: bool, sync: bool)
    requires c.origin == Some(1) && c.originReg && c.clientReg && c.phase == L.Connecting
    ensures var s, x := Alone(c, ws, L.Loop, L.Free, jobs, 0), L.OriginDown(0, if next then Some(1) else None, sync);
            && L.Enabled(s, x)
            && L.Next(s, x) == Alone(c.(origin := if next then Some(1) else None, originReg := next,
                                        phase := if next && !sync then L.Connecting else L.Settled), ws, L.Loop, L.Free, jobs, 0)
  {
    hide L.DoOriginDown;
    OriginFails(c, ws, jobs, next, sync);
  }

  // The worker's sections.

  /** The main thread is between two handlers, and the worker there. */
  function At(c: L.Conn, w: L.WorkPc, pushed: bool, res: L.Holder, jobs: seq<L.Job>): L.State {
    Alone(c, Worker0(w, pushed, 0), L.Loop, res, jobs, 0)
  }

  lemma WorkerLocks(c: L.Conn, ok: bool)
    requires c.lock == L.Free
    ensures Gets(At(c, L.Resolving, false, L.Free, []), At(c.(lock := L.ByWorker(0)), L.Locked, false, L.Free, []))
  {
    var s, t := At(c, L.Resolving, false, L.Free, []), At(c.(lock := L.ByWorker(0)), L.Locked, false, L.Free, []);
    PutAlone(c, c.(lock := L.ByWorker(0)), s.workers, L.Loop, L.Free, [], 0);
    assert L.Next(s, L.Work(0, ok)) == t;
    GetsBy(s, L.Work(0, ok));
  }

  /** It stores what it found, and goes on to queue a notification if there is memory for one. */
  lemma WorkerStores(c: L.Conn, ok: bool)
    requires !c.cancelled
    ensures Gets(At(c, L.Locked, false, L.Free, []),
                 At(c.(pending := false, resolved := true), if ok then L.WantRes else L.DropUnlock, false, L.Free, []))
  {
    var s, c' := At(c, L.Locked, false, L.Free, []), c.(pending := false, resolved := true);
    PutAlone(c, c', s.workers, L.Loop, L.Free, [], 0);
    assert L.Next(s, L.Work(0, ok)) == At(c', if ok then L.WantRes else L.DropUnlock, false, L.Free, []);
    GetsBy(s, L.Work(0, ok));
  }

  lemma WorkerPushes(c: L.Conn)
    ensures Gets(At(c, L.WantRes, false, L.Free, []), At(c, L.Pushed, true, L.ByWorker(0), [L.Job(0, 0, 0)]))
  {
    var s, t := At(c, L.WantRes, false, L.Free, []), At(c, L.Pushing, false, L.ByWorker(0), []);
    var u := At(c, L.Pushed, true, L.ByWorker(0), [L.Job(0, 0, 0)]);
    assert L.Next(s, L.Work(0, true)) == t && L.Next(t, L.Work(0, true)) == u;
    GetsBy(s, L.Work(0, true));
    GetsBy(t, L.Work(0, true));
    GetsOn(s, t, u);
  }

  lemma WorkerSignals(c: L.Conn, jobs: seq<L.Job>)
    ensures Gets(At(c, L.Pushed, true, L.ByWorker(0), jobs), At(c, L.Unlock, true, L.Free, jobs))
  {
    var s, t, u := At(c, L.Pushed, true, L.ByWorker(0), jobs), At(c, L.Signal, true, L.Free, jobs), At(c, L.Unlock, true, L.Free, jobs);
    assert L.Next(s, L.Work(0, true)) == t && L.Next(t, L.Work(0, true)) == u;
    GetsBy(s, L.Work(0, true));
    GetsBy(t, L.Work(0, true));
    GetsOn(s, t, u);
  }

  lemma WorkerUnlocks(c: L.Conn, jobs: seq<L.Job>)
    ensures Gets(At(c, L.Unlock, true, L.Free, jobs), At(c.(lock := L.Free), L.Done, true, L.Free, jobs))
  {
    var s, t := At(c, L.Unlock, true, L.Free, jobs), At(c.(lock := L.Free), L.Done, true, L.Free, jobs);
    PutAlone(c, c.(lock := L.Free), s.workers, L.Loop, L.Free, jobs, 0);
    assert L.Next(s, L.Work(0, true)) == t;
    GetsBy(s, L.Work(0, true));
  }

  lemma WorkerLetsGo(c: L.Conn)
    ensures Gets(At(c, L.DropUnlock, false, L.Free, []), At(c.(lock := L.Free), L.Drop, false, L.Free, []))
  {
    var s, t := At(c, L.DropUnlock, false, L.Free, []), At(c.(lock := L.Free), L.Drop, false, L.Free, []);
    PutAlone(c, c.(lock := L.Free), s.workers, L.Loop, L.Free, [], 0);
    assert L.Next(s, L.Work(0, true)) == t;
    GetsBy(s, L.Work(0, true));
  }

  /** Without a notification it releases its reference itself. */
  lemma WorkerDrops(c: L.Conn)
    requires c.refs == 2
    ensures Gets(At(c, L.Drop, false, L.Free, []), At(c.(refs := 1), L.Done, false, L.Free, []))
  {
    var s, t := At(c, L.Drop, false, L.Free, []), At(c.(refs := 1), L.Done, false, L.Free, []);
    PutAlone(c, c.(refs := 1), s.workers, L.Loop, L.Free, [], 0);
    assert L.Next(s, L.Work(0, true)) == t;
    GetsBy(s, L.Work(0, true));
  }

  lemma ResolveRun(f: Face, queued: bool)
    requires f.pending
    ensures Gets(Canon(f, Working), Canon(f.(pending := false, resolved := true), if queued then Queued else Lost))
  {
    hide Gets;
    var c := Conn0(f, 2, L.Free, Some(0));
    var c1 := c.(lock := L.ByWorker(0));
    var c2 := c1.(pending := false, resolved := true);
    var s, s1 := At(c, L.Resolving, false, L.Free, []), At(c1, L.Locked, false, L.Free, []);
    var s2 := At(c2, if queued then L.WantRes else L.DropUnlock, false, L.Free, []);
    WorkerLocks(c, queued);
    WorkerStores(c1, queued);
    GetsOn(s, s1, s2);
    if queued {
      var jobs := [L.Job(0, 0, 0)];
      var s3, s4 := At(c2, L.Pushed, true, L.ByWorker(0), jobs), At(c2, L.Unlock, true, L.Free, jobs);
      WorkerPushes(c2);
      WorkerSignals(c2, jobs);
      WorkerUnlocks(c2, jobs);
      GetsOn(s, s2, s3);
      GetsOn(s, s3, s4);
      GetsOn(s, s4, At(c2.(lock := L.Free), L.Done, true, L.Free, jobs));
    } else {
      WorkerLetsGo(c2);
      WorkerDrops(c2.(lock := L.Free));
      GetsOn(s, s2, At(c2.(lock := L.Free), L.Drop, false, L.Free, []));
      GetsOn(s, At(c2.(lock := L.Free), L.Drop, false, L.Free, []), At(c2.(lock := L.Free, refs := 1), L.Done, false, L.Free, []));
    }
  }

  // Asking for a name.

  /** The main thread is in `dns_resolve_start`. */
  function Starting(c: L.Conn, p: L.StartPt): L.State {
    Alone(c, [], L.Start(p, 0, L.ToLoop), L.Free, [], 0)
  }

  lemma StartLocks(c: L.Conn)
    requires c.lock == L.Free && c.phase == L.Reading && !c.pending && !c.resolved && c.clientReg
    ensures Gets(Alone(c, [], L.Loop, L.Free, [], 0), Starting(c.(lock := L.ByMain), L.StartSet))
  {
    var s, t, u := Alone(c, [], L.Loop, L.Free, [], 0), Starting(c, L.StartLock), Starting(c.(lock := L.ByMain), L.StartSet);
    PutAlone(c, c.(lock := L.ByMain), [], L.Start(L.StartLock, 0, L.ToLoop), L.Free, [], 0);
    assert L.Next(s, L.AskDns(0)) == t && L.Next(t, L.Main(L.Plain)) == u;
    GetsBy(s, L.AskDns(0));
    GetsBy(t, L.Main(L.Plain));
    GetsOn(s, t, u);
  }

  lemma StartSets(c: L.Conn)
    ensures Gets(Starting(c, L.StartSet), Starting(c.(pending := true, resolved := false, lock := L.Free), L.StartRef))
  {
    var s, c1 := Starting(c, L.StartSet), c.(pending := true, resolved := false, lock := L.Free);
    PutAlone(c, c1, [], s.main, L.Free, [], 0);
    assert L.Next(s, L.Main(L.Plain)) == Starting(c1, L.StartRef);
    GetsBy(s, L.Main(L.Plain));
  }

  lemma StartTakes(c: L.Conn)
    ensures Gets(Starting(c, L.StartRef), Starting(c.(refs := c.refs + 1), L.StartThread))
  {
    var s := Starting(c, L.StartRef);
    PutAlone(c, c.(refs := c.refs + 1), [], s.main, L.Free, [], 0);
    assert L.Next(s, L.Main(L.Plain)) == Starting(c.(refs := c.refs + 1), L.StartThread);
    GetsBy(s, L.Main(L.Plain));
  }

  lemma StartRuns(c: L.Conn)
    requires c.client == Some(0)
    ensures Gets(Starting(c, L.StartThread), At(c.(phase := L.Connecting, worker := Some(0)), L.Resolving, false, L.Free, []))
  {
    var s, c1 := Starting(c, L.StartThread), c.(phase := L.Connecting, worker := Some(0));
    PutAlone(c, c1, [], s.main, L.Free, [], 0);
    assert L.Next(s, L.Main(L.Plain)) == At(c1, L.Resolving, false, L.Free, []);
    GetsBy(s, L.Main(L.Plain));
  }

  lemma AskRun(f: Face)
    requires f.phase.Reading? && !f.pending && !f.resolved
    ensures Gets(Canon(f, Idle), Canon(f.(phase := L.Connecting, pending := true), Working))
  {
    hide Gets;
    var c := Conn0(f, 1, L.Free, None);
    var c1 := c.(pending := true);
    var c2 := c1.(refs := 2);
    var s, s1, s2 := Canon(f, Idle), Starting(c.(lock := L.ByMain), L.StartSet), Starting(c1, L.StartRef);
    var s3 := Starting(c2, L.StartThread);
    StartLocks(c);
    StartSets(c.(lock := L.ByMain));
    StartTakes(c1);
    StartRuns(c2);
    GetsOn(s, s1, s2);
    GetsOn(s, s2, s3);
    GetsOn(s, s3, At(c2.(phase := L.Connecting, worker := Some(0)), L.Resolving, false, L.Free, []));
  }

  // The notification.

  /** The main thread handles the notification. */
  function Draining(c: L.Conn, pc: L.Pc): L.State {
    Alone(c, Worker0(L.Done, true, 0), pc, L.ByMain, [L.Job(0, 0, 0)], 0)
  }

  lemma DrainBegins(c: L.Conn)
    ensures Gets(Alone(c, Worker0(L.Done, true, 0), L.Loop, L.Free, [L.Job(0, 0, 0)], 0), Draining(c, L.DrainNext))
  {
    var s := Alone(c, Worker0(L.Done, true, 0), L.Loop, L.Free, [L.Job(0, 0, 0)], 0);
    var t, u := L.At(s, L.DrainLock), Draining(c, L.DrainNext);
    assert L.Next(s, L.Drain) == t && L.Next(t, L.Main(L.Plain)) == u;
    GetsBy(s, L.Drain);
    GetsBy(t, L.Main(L.Plain));
    GetsOn(s, t, u);
  }

  lemma DrainFinds(c: L.Conn)
    requires c.lock == L.Free
    ensures Gets(Draining(c, L.DrainNext), Draining(c.(lock := L.ByMain), L.Handle(L.DoneClear, 0)))
  {
    var s, t, u := Draining(c, L.DrainNext), Draining(c, L.Handle(L.DoneLock, 0)), Draining(c.(lock := L.ByMain), L.Handle(L.DoneClear, 0));
    PutAlone(c, c.(lock := L.ByMain), s.workers, t.main, L.ByMain, s.jobs, 0);
    assert L.Next(s, L.Main(L.Plain)) == t && L.Next(t, L.Main(L.Plain)) == u;
    GetsBy(s, L.Main(L.Plain));
    GetsBy(t, L.Main(L.Plain));
    GetsOn(s, t, u);
  }

  lemma DoneClears(c: L.Conn)
    ensures Gets(Draining(c, L.Handle(L.DoneClear, 0)), Draining(c.(pending := false, lock := L.Free), L.Handle(L.DoneConnect, 0)))
  {
    var s, c1 := Draining(c, L.Handle(L.DoneClear, 0)), c.(pending := false, lock := L.Free);
    PutAlone(c, c1, s.workers, s.main, L.ByMain, s.jobs, 0);
    assert L.Next(s, L.Main(L.Plain)) == Draining(c1, L.Handle(L.DoneConnect, 0));
    GetsBy(s, L.Main(L.Plain));
  }

  lemma DoneDials(c: L.Conn, sync: bool)
    requires !c.pending && c.resolved && c.origin.None?
    ensures Gets(Draining(c, L.Handle(L.DoneConnect, 0)),
                 Draining(c.(origin := Some(1), originReg := true, phase := if sync then L.Settled else L.Connecting), L.Clean))
  {
    var s := Draining(c, L.Handle(L.DoneConnect, 0));
    OpensOrigin(c, s.workers, s.main, L.ByMain, s.jobs, 0, sync);
    GetsBy(s, L.Main(L.Dial(1, sync)));
  }

  lemma DoneGivesUp(c: L.Conn)
    requires !c.pending && c.resolved
    ensures Gets(Draining(c, L.Handle(L.DoneConnect, 0)), Draining(c.(phase := L.Settled), L.Clean))
  {
    var s := Draining(c, L.Handle(L.DoneConnect, 0));
    PutAlone(c, c.(phase := L.Settled), s.workers, s.main, L.ByMain, s.jobs, 0);
    GetsBy(s, L.Main(L.Plain));
  }

  /** The notification's reference is released and the list emptied. */
  lemma DrainEnds(c: L.Conn)
    requires c.refs == 2
    ensures Gets(Draining(c, L.Clean), Alone(c.(refs := 1), Worker0(L.Done, true, 1), L.Loop, L.Free, [], 0))
  {
    var s := Draining(c, L.Clean);
    var t := Alone(c.(refs := 1), Worker0(L.Done, true, 1), L.DrainNext, L.ByMain, s.jobs, 1);
    var u := Alone(c.(refs := 1), Worker0(L.Done, true, 1), L.Loop, L.Free, [], 0);
    PutAlone(c, c.(refs := 1), s.workers, s.main, L.ByMain, s.jobs, 0);
    assert L.Next(s, L.Main(L.Plain)) == t && L.Next(t, L.Main(L.Plain)) == u;
    GetsBy(s, L.Main(L.Plain));
    GetsBy(t, L.Main(L.Plain));
    GetsOn(s, t, u);
  }

  lemma DoneRun(f: Face, m: Move)
    requires f.phase.Connecting? && !f.pending && f.resolved && !f.origin && (m.DialsName? || m.GivesUp?)
    ensures Gets(Canon(f, Queued), Canon(Effect(f, m).value, Handled))
  {
    hide Gets;
    var c := Conn0(f, 2, L.Free, Some(0));
    var c1 := if m.GivesUp? then c.(phase := L.Settled)
              else c.(origin := Some(1), originReg := true, phase := if m.sync then L.Settled else L.Connecting);
    var s, s1, s2 := Canon(f, Queued), Draining(c, L.DrainNext), Draining(c.(lock := L.ByMain), L.Handle(L.DoneClear, 0));
    var s3, s4 := Draining(c, L.Handle(L.DoneConnect, 0)), Draining(c1, L.Clean);
    DrainBegins(c);
    DrainFinds(c);
    DoneClears(c.(lock := L.ByMain));
    if m.GivesUp? { DoneGivesUp(c); } else { DoneDials(c, m.sync); }
    DrainEnds(c1);
    GetsOn(s, s1, s2);
    GetsOn(s, s2, s3);
    GetsOn(s, s3, s4);
    GetsOn(s, s4, Alone(c1.(refs := 1), Worker0(L.Done, true, 1), L.Loop, L.Free, [], 0));
  }

  // The handshake's steps.

  /** How an event moves a connection's resolution on. */
  predicate Resolving(c: HS.Conn, e: HS.Event, d: HS.Conn) {
    match e
    case Readable(_, _) => c.dns.NotAsked? && (d.dns.NotAsked? || d.dns.Asked?)
    case Writable(_) => d.dns == c.dns
    case OriginWritable(_, _) => d.dns == c.dns
    case WorkerStores(_, _, queued) => c.dns.Asked? && d.dns == if queued then HS.Stored else HS.Answered
    case BlockDone(_) => c.dns.Stored? && d.dns.Answered?
  }

  lemma OriginKeepsDns(c: HS.Conn, error: nat, w: HS.World)
    requires HR.Inv(c) && HS.Legal(c, HS.OriginWritable(error, w)) && |w.attempts| >= |c.dnsNext|
    ensures HS.OnOriginWritable(c, error, w).dns == c.dns
  {
    if error == 0 {
      hide HR.Inv, HS.WorldOk, HS.MarshallReply;
      HL.MarshallKeepsDns(c.(reply := HS.ReplyFor(0), originInterest := HS.NOOP, origin := HS.Up), w);
    } else {
      hide HR.Inv, HS.OnOriginWritable, HS.WorldOk;
      DownLeaves(c, error, w);
    }
  }

  lemma StepResolves(c: HS.Conn, e: HS.Event)
    requires HR.Inv(c) && HS.Legal(c, e)
    ensures Resolving(c, e, HS.Step(c, e))
  {
    hide HR.Inv, HS.OnReadable, HS.OnWritable, HS.OnOriginWritable, HS.OnBlockDone;
    match e {
      case Readable(r, w) => HL.ReadAsks(c, r, w);
      case Writable(r) =>
        HR.WritableState(c);
        if c.current == Some(HS.RequestWrite) { HL.LastWrites(c, r); } else { HL.FirstWrites(c, r); }
      case OriginWritable(error, w) =>
        HL.WorldIs(c, w);
        OriginKeepsDns(c, error, w);
      case WorkerStores(_, _, _) =>
      case BlockDone(w) =>
        HL.WorldIs(c, w);
        BlockLeaves(c, w);
    }
  }

  lemma NotStuck(c: HS.Conn, e: HS.Event)
    requires HR.Inv(c) && HS.Legal(c, e)
    ensures !HL.Stuck(c)
  {
    hide HR.Inv, HS.Legal;
    if HL.Stuck(c) { HL.NoEvent(c); }
  }

  /** The life cycle's sections for a step of the handshake. */
  lemma MoveRun(c: HS.Conn, e: HS.Event, d: HS.Conn, m: Move)
    requires Fits(e, m) && Makes(c, d, m) && Resolving(c, e, d) && !HL.Stuck(c)
    requires HL.Stuck(d) <==> e.WorkerStores? && !e.queued
    ensures Gets(Canon(OfHandshake(c), StageOf(c)), Canon(OfHandshake(d), StageOf(d)))
  {
    hide Gets, Canon, HL.Stuck;
    var f := OfHandshake(c);
    match m {
      case Stays => GetsSame(Canon(f, StageOf(c)));
      case Refuses => RefuseRun(f);
      case Dials(sync) => DialRun(f, sync);
      case Asks => AskRun(f);
      case Resolves => ResolveRun(f, e.queued);
      case DialsName(_) => DoneRun(f, m);
      case GivesUp => DoneRun(f, m);
      case Connects => ConnectRun(f, StageOf(c));
      case Fails(next, sync) => FailRun(f, StageOf(c), next, sync);
    }
  }

  lemma StepRun(c: HS.Conn, e: HS.Event)
    requires HR.Inv(c) && HS.Legal(c, e) && HS.Step(c, e).open
    ensures Gets(Canon(OfHandshake(c), StageOf(c)), Canon(OfHandshake(HS.Step(c, e)), StageOf(HS.Step(c, e))))
  {
    hide HR.Inv, HS.Legal, HS.Step, Gets, Canon, HL.Stuck, Resolving, Fits, Makes, OfHandshake, StageOf;
    StepMoves(c, e);
    StepResolves(c, e);
    NotStuck(c, e);
    HL.LossSticks(c, e);
    var m :| Fits(e, m) && Makes(c, HS.Step(c, e), m);
    MoveRun(c, e, HS.Step(c, e), m);
  }

  lemma OpenBefore(c: HS.Conn, es: seq<HS.Event>)
    requires HS.Run(c, es) && HS.After(c, es).open
    ensures c.open
  {
  }

  lemma {:induction false} RunFollows(c: HS.Conn, es: seq<HS.Event>)
    requires HR.Inv(c) && HS.Run(c, es) && HS.After(c, es).open
    ensures Gets(Canon(OfHandshake(c), StageOf(c)), Canon(OfHandshake(HS.After(c, es)), StageOf(HS.After(c, es))))
    decreases |es|
  {
    hide HR.Inv, HS.Legal, HS.Step, Gets, Canon, OfHandshake, StageOf;
    var d := HS.After(c, es);
    if es == [] {
      GetsSame(Canon(OfHandshake(c), StageOf(c)));
    } else {
      var b := HS.Step(c, es[0]);
      OpenBefore(b, es[1..]);
      HR.StepInv(c, es[0]);
      StepRun(c, es[0]);
      RunFollows(b, es[1..]);
      GetsOn(Canon(OfHandshake(c), StageOf(c)), Canon(OfHandshake(b), StageOf(b)), Canon(OfHandshake(d), StageOf(d)));
    }
  }

  lemma StartsAtFirst(c: HS.Conn)
    requires HS.Starts(c)
    ensures OfHandshake(c) == AT_FIRST && StageOf(c) == Idle
  {
  }

  lemma CanonFace(f: Face, g: Stage)
    ensures 0 in Canon(f, g).conns && OfLifecycle(Canon(f, g).conns[0]) == f
  {
  }

  /**
   * The life cycle abstracts the handshake: whatever run brings an accepted
   * connection to a state in which it is open, some run of the life cycle from
   * the empty proxy brings a connection to the same phase, origin and
   * resolution, with its worker and notification where they should be.
   */
  lemma LifecycleAbstracts(c: HS.Conn, es: seq<HS.Event>) returns (ts: seq<L.Step>)
    requires HS.Starts(c) && HS.Run(c, es) && HS.After(c, es).open
    ensures L.Run(L.Init, ts) && L.After(L.Init, ts) == Canon(OfHandshake(HS.After(c, es)), StageOf(HS.After(c, es)))
    ensures var s := L.After(L.Init, ts); 0 in s.conns && OfLifecycle(s.conns[0]) == OfHandshake(HS.After(c, es))
  {
    var d := HS.After(c, es);
    HR.StartInv(c);
    StartsAtFirst(c);
    hide HS.Starts, HR.Inv, HS.Run, HS.After, Canon, OfHandshake, OfLifecycle, StageOf, L.Run, L.After;
    AcceptRun();
    RunFollows(c, es);
    GetsOn(L.Init, Canon(AT_FIRST, Idle), Canon(OfHandshake(d), StageOf(d)));
    ts :| L.Run(L.Init, ts) && L.After(L.Init, ts) == Canon(OfHandshake(d), StageOf(d));
    CanonFace(OfHandshake(d), StageOf(d));
  }
}
