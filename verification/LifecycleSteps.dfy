/** Every step of the life cycle keeps the invariant. */
module LifecycleSteps {
  import opened Bytes
  import opened Lifecycle
  import opened LifecycleInv

  // What a step leaves alone.

  /** A worker that will still touch its connection, or whose notification will. */
  predicate Needs(w: Worker) {
    !w.pc.Done? || (w.pushed && w.cleaned == 0)
  }

  /** What a worker relies on in its connection. */
  predicate SameForWorkers(c: Conn, c': Conn) {
    && c'.worker == c.worker
    && (c'.client == c.client || c'.client.None?)
    && (c.lock.ByWorker? ==> c'.lock == c.lock && (c.owned && !c.cancelled ==> c'.owned && !c'.cancelled))
    && (c.resolved ==> c'.resolved)
  }

  predicate KeptFor(s: State, s': State, i: nat)
    requires i < |s.workers|
  {
    var w := s.workers[i];
    Needs(w) && w.conn in s.conns ==> w.conn in s'.conns && SameForWorkers(s.conns[w.conn], s'.conns[w.conn])
  }

  lemma KeepWorkers(s: State, s': State)
    requires Inv(s)
    requires |s.workers| <= |s'.workers| && s'.jobs == s.jobs && s'.cursor == s.cursor
    requires forall i :: 0 <= i < |s.workers| ==> s'.workers[i] == s.workers[i] && KeptFor(s, s', i)
    requires s'.res == s.res || (!s.res.ByWorker? && !s'.res.ByWorker?)
    ensures forall i :: 0 <= i < |s.workers| ==> WorkerInv(s', i)
    ensures forall k :: s'.cursor <= k < |s'.jobs| ==> JobInv(s', k)
  {
    forall i | 0 <= i < |s.workers| ensures WorkerInv(s', i) {
      assert WorkerInv(s, i) && KeptFor(s, s', i);
      if s.workers[i].pushed && s.workers[i].cleaned == 0 {
        var k :| s.cursor <= k < |s.jobs| && s.jobs[k].w == i;
        assert s'.jobs[k].w == i;
      }
    }
    forall k | s'.cursor <= k < |s'.jobs| ensures JobInv(s', k) {
      assert JobInv(s, k);
    }
  }

  predicate SameFd(s: State, s': State, o: Option<Fd>) {
    o.Some? && o.value in s.open ==>
      && o.value in s'.open && s'.open[o.value] == s.open[o.value]
      && (o.value in s'.items <==> o.value in s.items)
  }

  predicate SameShare(s: State, s': State, o: Option<nat>) {
    o.Some? && o.value < |s.workers| ==> o.value < |s'.workers| && s'.workers[o.value] == s.workers[o.value]
  }

  /** A step about other connections keeps what concerns `x`. */
  lemma KeepOther(s: State, s': State, x: Addr)
    requires x in s.conns && ConnInv(s, x) && x in s'.conns && s'.conns[x] == s.conns[x]
    requires s.main.Clean? && s.cursor < |s.jobs| && s.conns[x].worker == Some(s.jobs[s.cursor].w) ==>
               s'.main == s.main && s'.jobs == s.jobs && s'.cursor == s.cursor
    requires SameShare(s, s', s.conns[x].worker)
    requires x in s'.pool <==> x in s.pool
    requires SameFd(s, s', s.conns[x].client) && SameFd(s, s', s.conns[x].origin)
    requires s'.main == s.main || (About(s.main) != Some(x) && About(s'.main) != Some(x))
    ensures ConnInv(s', x)
  {
    assert RefInv(s', x);
    assert OwnInv(s', x);
    assert FdInv(s', x);
    assert LockInv(s', x);
    assert PhaseInv(s', x);
  }

  predicate Untouched(s: State, s': State, x: Addr)
    requires x in s.conns
  {
    && x in s'.conns && s'.conns[x] == s.conns[x]
    && (x in s'.pool <==> x in s.pool)
  }

  /** Descriptors of other connections stay open and registered as they were. */
  predicate FdsKept(s: State, s': State, a: Addr) {
    forall fd :: fd in s.open && s.open[fd].data != a ==>
      fd in s'.open && s'.open[fd] == s.open[fd] && (fd in s'.items <==> fd in s.items)
  }

  lemma OwnFds(s: State, s': State, a: Addr, x: Addr)
    requires Inv(s) && x in s.conns && x != a && FdsKept(s, s', a)
    ensures SameFd(s, s', s.conns[x].client) && SameFd(s, s', s.conns[x].origin)
  {
    ConnFacts(s, x);
  }

  /** A step that touches at most connection `a` and starts no worker keeps the invariant if it does so for `a`. */
  lemma ChangeInv(s: State, s': State, a: Addr)
    requires Inv(s) && !s.main.Clean?
    requires s'.workers == s.workers && s'.jobs == s.jobs && s'.cursor == s.cursor
    requires s'.res == s.res || (!s.res.ByWorker? && !s'.res.ByWorker?)
    requires forall i :: 0 <= i < |s.workers| ==> KeptFor(s, s', i)
    requires forall x :: x in s.conns && x != a ==> Untouched(s, s', x)
    requires forall x :: x in s'.conns && x != a ==> x in s.conns
    requires FdsKept(s, s', a)
    requires About(s.main) == None || About(s.main) == Some(a)
    requires About(s'.main) == None || About(s'.main) == Some(a)
    requires s'.cursor > 0 ==> MainHoldsRes(s'.main) || s'.main.DestroyDrain?
    requires s'.main == Over ==> s.main == Over
    requires GlobalInv(s') && MainInv(s')
    requires a in s'.conns ==> ConnInv(s', a)
    ensures Inv(s')
  {
    hide ConnInv, WorkerInv, JobInv, GlobalInv, MainInv;
    KeepWorkers(s, s');
    forall x | x in s'.conns ensures ConnInv(s', x) {
      if x != a {
        assert Untouched(s, s', x);
        OwnFds(s, s', a, x);
        KeepOther(s, s', x);
      }
    }
  }

  /** The main thread updates one connection and moves on; its descriptors, workers and list position stay. */
  lemma PutInv(s: State, a: Addr, c': Conn, pc': Pc)
    requires Inv(s) && GlobalInv(s) && a in s.conns && !s.main.Clean? && !Ending(s.main) && !Ending(pc')
    requires About(s.main) == None || About(s.main) == Some(a)
    requires About(pc') == None || About(pc') == Some(a)
    requires MainHoldsRes(pc') == MainHoldsRes(s.main)
    requires var c := s.conns[a];
             && SameForWorkers(c, c') && c'.clientReg == c.clientReg && c'.client == c.client
             && c'.origin == c.origin && c'.originReg == c.originReg
    requires MainInv(At(Put(s, a, c'), pc')) && ConnInv(At(Put(s, a, c'), pc'), a)
    ensures Inv(At(Put(s, a, c'), pc'))
  {
    hide ConnInv, WorkerInv, JobInv, GlobalInv;
    PutGlobal(s, a, c', pc');
    ChangeInv(s, At(Put(s, a, c'), pc'), a);
  }

  lemma PutGlobal(s: State, a: Addr, c': Conn, pc': Pc)
    requires GlobalInv(s) && a in s.conns && !Ending(s.main) && !Ending(pc')
    requires MainHoldsRes(pc') == MainHoldsRes(s.main)
    requires c'.client == s.conns[a].client && c'.origin == s.conns[a].origin
    ensures GlobalInv(At(Put(s, a, c'), pc'))
  {
    forall fd | fd in s.open ensures Owns(At(Put(s, a, c'), pc'), s.open[fd], fd) {
      assert Owns(s, s.open[fd], fd);
    }
  }

  lemma InitInv()
    ensures Inv(Init)
  {
  }

  /** What the invariant says of one connection. */
  lemma ConnFacts(s: State, a: Addr)
    requires Inv(s) && a in s.conns
    ensures ConnInv(s, a) && MainInv(s) && GlobalInv(s)
  {
  }

  // dns_resolve_start

  lemma StartLocks(s: State, a: Addr, r: Ret, ch: Choice)
    requires Inv(s) && a in s.conns && CanLock(s, a)
    ensures s.main == Start(StartLock, a, r) ==> Inv(StartAt(s, StartLock, a, r, ch))
    ensures s.main == Start(StartLock2, a, r) ==> Inv(StartAt(s, StartLock2, a, r, ch))
  {
    hide Inv, GlobalInv, ConnInv, MainInv;
    ConnFacts(s, a);
    if s.main == Start(StartLock, a, r) {
      LocksTo(s, a, Start(StartSet, a, r));
    } else if s.main == Start(StartLock2, a, r) {
      LocksTo(s, a, Start(StartClear, a, r));
    }
  }

  /** Inside `dns_resolve_start`, the connection's mutex is taken. */
  lemma LocksTo(s: State, a: Addr, pc': Pc)
    requires Inv(s) && a in s.conns && s.conns[a].lock == Free
    requires GlobalInv(s) && ConnInv(s, a) && MainInv(s)
    requires s.main.Start? && s.main.a == a && (s.main.sp.StartLock? || s.main.sp.StartLock2?)
    requires pc' == Start(if s.main.sp.StartLock? then StartSet else StartClear, a, s.main.r)
    ensures Inv(At(LockFor(s, a, ByMain), pc'))
  {
    hide Inv, GlobalInv;
    PutInv(s, a, s.conns[a].(lock := ByMain), pc');
  }

  lemma StartSections(s: State, p: StartPt, a: Addr, r: Ret, ch: Choice)
    requires Inv(s) && a in s.conns && s.main == Start(p, a, r)
    requires p.StartSet? || p.StartRef? || p.StartDrop? || p.StartClear?
    ensures Inv(StartAt(s, p, a, r, ch))
  {
    hide Inv, GlobalInv;
    ConnFacts(s, a);
    var c := s.conns[a];
    match p {
      case StartSet => PutInv(s, a, c.(pending := true, resolved := false, lock := Free), Start(StartRef, a, r));
      case StartRef => PutInv(s, a, c.(refs := c.refs + 1), Start(StartThread, a, r));
      case StartDrop => PutInv(s, a, c.(refs := c.refs - 1), Start(StartLock2, a, r));
      case StartClear => PutInv(s, a, c.(pending := false, phase := Settled, lock := Free), Loop);
      case _ =>
    }
  }

  /** A worker is born: it inherits the reference the main thread took for it. */
  lemma StartThreadInv(s: State, a: Addr, r: Ret, ch: Choice)
    requires Inv(s) && a in s.conns && s.main == Start(StartThread, a, r)
    ensures Inv(StartAt(s, StartThread, a, r, ch))
  {
    hide Inv;
    ConnFacts(s, a);
    var c := s.conns[a];
    if ch.ThreadFails? {
      assert Put(s, a, c) == s;
      PutInv(s, a, c, Start(StartDrop, a, r));
    } else {
      Born(s, a, r);
    }
  }

  lemma Born(s: State, a: Addr, r: Ret)
    requires Inv(s) && a in s.conns && s.main == Start(StartThread, a, r)
    ensures Inv(StartAt(s, StartThread, a, r, Plain))
  {
    hide ConnInv, WorkerInv, JobInv, GlobalInv, KeptFor;
    var s' := StartAt(s, StartThread, a, r, Plain);
    BornOne(s, a, r);
    BornGlobal(s, a, r);
    BornKeeps(s, a, r);
    KeepWorkers(s, s');
    forall x | x in s'.conns ensures ConnInv(s', x) {
      if x != a { KeepOther(s, s', x); }
    }
  }

  lemma BornGlobal(s: State, a: Addr, r: Ret)
    requires Inv(s) && a in s.conns && s.main == Start(StartThread, a, r)
    ensures GlobalInv(StartAt(s, StartThread, a, r, Plain))
  {
    hide Inv, ConnInv;
    ConnFacts(s, a);
    BornOne(s, a, r);
  }

  lemma BornKeeps(s: State, a: Addr, r: Ret)
    requires Inv(s) && a in s.conns && s.main == Start(StartThread, a, r)
    ensures forall i :: 0 <= i < |s.workers| ==> KeptFor(s, StartAt(s, StartThread, a, r, Plain), i)
  {
    hide ConnInv, WorkerInv, JobInv, GlobalInv;
    var s' := StartAt(s, StartThread, a, r, Plain);
    BornOne(s, a, r);
    forall i | 0 <= i < |s.workers| ensures KeptFor(s, s', i) {
      NoWorkerYet(s, a, i);
    }
  }

  lemma NoWorkerYet(s: State, a: Addr, i: nat)
    requires Inv(s) && a in s.conns && s.conns[a].phase == Reading && i < |s.workers|
    ensures s.workers[i].conn == a ==> !Needs(s.workers[i])
  {
    assert ConnInv(s, a) && WorkerInv(s, i);
  }

  lemma BornOne(s: State, a: Addr, r: Ret)
    requires Inv(s) && a in s.conns && s.main == Start(StartThread, a, r)
    ensures var s' := StartAt(s, StartThread, a, r, Plain);
            && s'.main == Loop && !s'.fault && s'.conns[a].client == s.conns[a].client && s'.conns[a].clientReg
            && |s'.workers| == |s.workers| + 1 && s'.workers[..|s.workers|] == s.workers
            && WorkerInv(s', |s.workers|) && ConnInv(s', a)
  {
    hide Inv;
    ConnFacts(s, a);
  }

  // socks5_connection_close

  lemma CloseTestInv(s: State, a: Addr, r: Ret)
    requires Inv(s) && a in s.conns && s.main == CloseTest(a, r)
    ensures Inv(MainNext(s, Plain))
  {
    hide Inv, GlobalInv;
    ConnFacts(s, a);
    PutInv(s, a, s.conns[a].(closing := true), Closing(CancelLock, a, r));
  }

  lemma CancelInv(s: State, p: ClosePt, a: Addr, r: Ret)
    requires Inv(s) && a in s.conns && s.main == Closing(p, a, r)
    requires (p.CancelLock? && CanLock(s, a)) || p.CancelSet?
    ensures Inv(CloseAt(s, p, a, r))
  {
    hide Inv, GlobalInv, ConnInv;
    if p.CancelLock? {
      CancelTakes(s, a, r);
    } else {
      CancelSets(s, a, r);
    }
  }

  lemma CancelTakes(s: State, a: Addr, r: Ret)
    requires Inv(s) && a in s.conns && s.main == Closing(CancelLock, a, r) && CanLock(s, a)
    ensures Inv(CloseAt(s, CancelLock, a, r))
  {
    hide Inv, GlobalInv;
    ConnFacts(s, a);
    PutInv(s, a, s.conns[a].(lock := ByMain), Closing(CancelSet, a, r));
  }

  lemma CancelSets(s: State, a: Addr, r: Ret)
    requires Inv(s) && a in s.conns && s.main == Closing(CancelSet, a, r)
    ensures Inv(CloseAt(s, CancelSet, a, r))
  {
    hide Inv, GlobalInv;
    ConnFacts(s, a);
    PutInv(s, a, s.conns[a].(cancelled := true, lock := Free), Closing(UnregClient, a, r));
  }

  lemma {:induction false} WithoutSpec(pool: seq<Addr>, a: Addr)
    requires a in pool && forall i, j :: 0 <= i < j < |pool| ==> pool[i] != pool[j]
    ensures var p := Without(pool, a);
            && |p| == |pool| - 1
            && (forall x :: x in p <==> x in pool && x != a)
            && (forall i, j :: 0 <= i < j < |p| ==> p[i] != p[j])
  {
    assert pool[0] !in pool[1..];
    assert pool == [pool[0]] + pool[1..];
    if pool[0] != a {
      WithoutSpec(pool[1..], a);
      var q := Without(pool[1..], a);
      assert pool[0] !in q;
    }
  }

  function ClientGone(s: State, a: Addr, fd: Fd, r: Ret): State
    requires a in s.conns && s.current > 0
  {
    At(Put(s, a, s.conns[a].(clientReg := false))
       .(pool := Without(s.pool, a), current := s.current - 1, items := s.items - {fd}), Closing(CloseClient, a, r))
  }

  lemma UnregClientEffect(s: State, a: Addr, r: Ret)
    requires Inv(s) && a in s.conns && s.main == Closing(UnregClient, a, r)
    ensures s.conns[a].client.Some? && s.current > 0 && a in s.pool
    ensures CloseAt(s, UnregClient, a, r) == ClientGone(s, a, s.conns[a].client.value, r)
  {
    hide Inv;
    ConnFacts(s, a);
    ClosingClient(s, a, r);
    hide ConnInv, MainInv, GlobalInv;
    ClientUnregisters(s, a, r);
  }

  /** What closing finds of the client's descriptor. */
  lemma ClosingClient(s: State, a: Addr, r: Ret)
    requires a in s.conns && ConnInv(s, a) && MainInv(s) && GlobalInv(s) && s.main == Closing(UnregClient, a, r)
    ensures s.alive && s.current > 0 && a in s.pool && (forall x :: x in s.pool ==> x in s.conns)
    ensures var c := s.conns[a];
            c.clientReg && c.closing && c.client.Some? && c.client.value in s.items && s.items[c.client.value] == Item(a, Client)
  {
    hide RefInv, LockInv, PhaseInv;
  }

  lemma ClientUnregisters(s: State, a: Addr, r: Ret)
    requires a in s.conns && s.alive && s.current > 0 && a in s.pool && (forall x :: x in s.pool ==> x in s.conns)
    requires var c := s.conns[a];
             c.clientReg && c.closing && c.client.Some? && c.client.value in s.items && s.items[c.client.value] == Item(a, Client)
    ensures CloseAt(s, UnregClient, a, r) == ClientGone(s, a, s.conns[a].client.value, r)
  {
    hide PoolRemove;
    var c1 := s.conns[a].(clientReg := false);
    assert s.conns[a := c1][a := c1] == s.conns[a := c1];
    PoolLoses(Put(s, a, c1), a);
  }

  lemma PoolLoses(s: State, a: Addr)
    requires a in s.pool && s.current > 0 && forall x :: x in s.pool ==> x in s.conns
    ensures PoolRemove(s, a) == s.(pool := Without(s.pool, a), current := s.current - 1)
  {
  }

  lemma UnregClientGlobal(s: State, a: Addr, r: Ret)
    requires GlobalInv(s) && a in s.conns && ConnInv(s, a) && s.main == Closing(UnregClient, a, r)
    requires s.conns[a].client.Some? && s.current > 0 && a in s.pool
    ensures var s' := ClientGone(s, a, s.conns[a].client.value, r);
            GlobalInv(s') && FdsKept(s, s', a) && forall x :: x in s.conns && x != a ==> Untouched(s, s', x)
  {
    hide RefInv, LockInv, OwnInv, PhaseInv, Without;
    WithoutSpec(s.pool, a);
    ClientGoneOpen(s, a, r);
  }

  lemma ClientGoneOpen(s: State, a: Addr, r: Ret)
    requires GlobalInv(s) && a in s.conns && s.conns[a].client.Some? && s.current > 0
    ensures var s' := ClientGone(s, a, s.conns[a].client.value, r); forall fd :: fd in s'.open ==> Owns(s', s'.open[fd], fd)
  {
    hide Without;
    var s' := ClientGone(s, a, s.conns[a].client.value, r);
    forall fd | fd in s'.open ensures Owns(s', s'.open[fd], fd) {
      assert Owns(s, s.open[fd], fd);
    }
  }

  lemma UnregClientConn(s: State, a: Addr, r: Ret)
    requires GlobalInv(s) && MainInv(s) && a in s.conns && ConnInv(s, a) && s.main == Closing(UnregClient, a, r)
    requires s.conns[a].client.Some? && s.current > 0 && a in s.pool
    ensures var s' := ClientGone(s, a, s.conns[a].client.value, r); ConnInv(s', a) && MainInv(s')
  {
    PoolDistinct(s, a);
    hide GlobalInv;
    WithoutSpec(s.pool, a);
    assert s.conns[a].origin.Some? ==> s.conns[a].origin.value != s.conns[a].client.value;
  }

  lemma PoolDistinct(s: State, a: Addr)
    requires GlobalInv(s)
    ensures forall i, j :: 0 <= i < j < |s.pool| ==> s.pool[i] != s.pool[j]
  {
  }

  lemma UnregClientLocal(s: State, a: Addr, r: Ret)
    requires Inv(s) && a in s.conns && s.main == Closing(UnregClient, a, r)
    requires s.conns[a].client.Some? && s.current > 0 && a in s.pool
    ensures var s' := ClientGone(s, a, s.conns[a].client.value, r);
            GlobalInv(s') && ConnInv(s', a) && FdsKept(s, s', a) && MainInv(s')
            && forall x :: x in s.conns && x != a ==> Untouched(s, s', x)
  {
    hide Inv, GlobalInv, ConnInv, FdsKept, MainInv, Untouched;
    ConnFacts(s, a);
    UnregClientGlobal(s, a, r);
    UnregClientConn(s, a, r);
  }

  lemma UnregClientInv(s: State, a: Addr, r: Ret)
    requires Inv(s) && a in s.conns && s.main == Closing(UnregClient, a, r)
    ensures Inv(CloseAt(s, UnregClient, a, r))
  {
    hide ConnInv, WorkerInv, JobInv, GlobalInv, MainInv;
    UnregClientEffect(s, a, r);
    UnregClientLocal(s, a, r);
    ChangeInv(s, ClientGone(s, a, s.conns[a].client.value, r), a);
  }

  function FdClosed(s: State, a: Addr, c': Conn, fd: Fd, pc': Pc): State {
    At(Put(s, a, c').(open := s.open - {fd}), pc')
  }

  lemma CloseClientGlobal(s: State, a: Addr, r: Ret, s': State)
    requires GlobalInv(s) && MainInv(s) && a in s.conns && ConnInv(s, a) && s.main == Closing(CloseClient, a, r) && s.conns[a].client.Some?
    requires s' == FdClosed(s, a, s.conns[a].(client := None), s.conns[a].client.value, Closing(UnregOrigin, a, r))
    ensures GlobalInv(s') && FdsKept(s, s', a)
  {
    hide RefInv, LockInv, OwnInv, PhaseInv;
  }

  lemma CloseClientConn(s: State, a: Addr, r: Ret, s': State)
    requires MainInv(s) && a in s.conns && ConnInv(s, a) && s.main == Closing(CloseClient, a, r) && s.conns[a].client.Some?
    requires s' == FdClosed(s, a, s.conns[a].(client := None), s.conns[a].client.value, Closing(UnregOrigin, a, r))
    ensures ConnInv(s', a) && MainInv(s')
  {
  }

  lemma CloseClientLocal(s: State, a: Addr, r: Ret, s': State)
    requires Inv(s) && a in s.conns && s.main == Closing(CloseClient, a, r) && s.conns[a].client.Some?
    requires s' == FdClosed(s, a, s.conns[a].(client := None), s.conns[a].client.value, Closing(UnregOrigin, a, r))
    ensures CloseAt(s, CloseClient, a, r) == s'
    ensures GlobalInv(s') && ConnInv(s', a) && FdsKept(s, s', a) && MainInv(s')
  {
    hide Inv, ConnInv, FdsKept;
    ConnFacts(s, a);
    CloseClientOpen(s, a);
    CloseClientGlobal(s, a, r, s');
    CloseClientConn(s, a, r, s');
  }

  lemma CloseClientOpen(s: State, a: Addr)
    requires GlobalInv(s) && a in s.conns && ConnInv(s, a) && s.main.Closing? && s.main.a == a && s.main.cp == CloseClient && MainInv(s)
    requires s.conns[a].client.Some?
    ensures s.conns[a].client.value in s.open && s.conns[a].client.value !in s.items
  {
    hide RefInv, LockInv, OwnInv, PhaseInv;
  }

  lemma CloseClientInv(s: State, a: Addr, r: Ret)
    requires Inv(s) && a in s.conns && s.main == Closing(CloseClient, a, r)
    ensures Inv(CloseAt(s, CloseClient, a, r))
  {
    hide ConnInv, WorkerInv, JobInv, GlobalInv;
    var s' := FdClosed(s, a, s.conns[a].(client := None), s.conns[a].client.value, Closing(UnregOrigin, a, r));
    CloseClientLocal(s, a, r, s');
    ChangeInv(s, s', a);
  }

  /** The main thread moves on without touching anything. */
  lemma StayInv(s: State, a: Addr, pc': Pc)
    requires Inv(s) && GlobalInv(s) && a in s.conns && !s.main.Clean? && !Ending(s.main) && !Ending(pc')
    requires About(s.main) == Some(a) && About(pc') == Some(a) && MainHoldsRes(pc') == MainHoldsRes(s.main)
    requires MainInv(At(s, pc')) && ConnInv(At(s, pc'), a)
    ensures Inv(At(s, pc'))
  {
    hide Inv, ConnInv, MainInv;
    assert Put(s, a, s.conns[a]) == s;
    PutInv(s, a, s.conns[a], pc');
  }

  function OriginGone(s: State, a: Addr, fd: Fd, r: Ret): State
    requires a in s.conns
  {
    At(Put(s, a, s.conns[a].(originReg := false)).(items := s.items - {fd}), Closing(CloseOrigin, a, r))
  }

  lemma UnregOriginEffect(s: State, a: Addr, r: Ret)
    requires Inv(s) && a in s.conns && s.main == Closing(UnregOrigin, a, r)
    requires s.conns[a].originReg && s.conns[a].origin.Some?
    ensures CloseAt(s, UnregOrigin, a, r) == OriginGone(s, a, s.conns[a].origin.value, r)
  {
    hide Inv;
    ConnFacts(s, a);
  }

  lemma UnregOriginLocal(s: State, a: Addr, r: Ret)
    requires Inv(s) && a in s.conns && s.main == Closing(UnregOrigin, a, r)
    requires s.conns[a].originReg && s.conns[a].origin.Some?
    ensures var s' := OriginGone(s, a, s.conns[a].origin.value, r);
            GlobalInv(s') && ConnInv(s', a) && FdsKept(s, s', a) && MainInv(s')
  {
    hide Inv, GlobalInv, ConnInv, MainInv;
    ConnFacts(s, a);
    UnregOriginConn(s, a, r);
    UnregOriginGlobal(s, a, r);
  }

  lemma UnregOriginConn(s: State, a: Addr, r: Ret)
    requires a in s.conns && ConnInv(s, a) && MainInv(s) && s.main == Closing(UnregOrigin, a, r)
    requires s.conns[a].originReg && s.conns[a].origin.Some?
    ensures var s' := OriginGone(s, a, s.conns[a].origin.value, r);
            ConnInv(s', a) && FdsKept(s, s', a) && MainInv(s')
  {
  }

  lemma UnregOriginGlobal(s: State, a: Addr, r: Ret)
    requires a in s.conns && GlobalInv(s) && s.main == Closing(UnregOrigin, a, r) && s.conns[a].origin.Some?
    ensures GlobalInv(OriginGone(s, a, s.conns[a].origin.value, r))
  {
    var s' := OriginGone(s, a, s.conns[a].origin.value, r);
    forall fd | fd in s.open ensures Owns(s', s.open[fd], fd) {
      assert Owns(s, s.open[fd], fd);
    }
  }

  lemma UnregOriginInv(s: State, a: Addr, r: Ret)
    requires Inv(s) && a in s.conns && s.main == Closing(UnregOrigin, a, r)
    ensures Inv(CloseAt(s, UnregOrigin, a, r))
  {
    hide ConnInv, WorkerInv, JobInv, GlobalInv, MainInv;
    var c := s.conns[a];
    if c.originReg && c.origin.Some? {
      UnregOriginEffect(s, a, r);
      UnregOriginLocal(s, a, r);
      ChangeInv(s, OriginGone(s, a, c.origin.value, r), a);
    } else {
      NoOrigin(s, a, r);
    }
  }

  lemma NoOrigin(s: State, a: Addr, r: Ret)
    requires Inv(s) && a in s.conns
    ensures s.main == Closing(UnregOrigin, a, r) && !(s.conns[a].originReg && s.conns[a].origin.Some?) ==>
              Inv(CloseAt(s, UnregOrigin, a, r))
    ensures s.main == Closing(CloseOrigin, a, r) && s.conns[a].origin.None? ==> Inv(CloseAt(s, CloseOrigin, a, r))
  {
    hide Inv, GlobalInv;
    ConnFacts(s, a);
    if s.main == Closing(UnregOrigin, a, r) && !(s.conns[a].originReg && s.conns[a].origin.Some?) {
      StayInv(s, a, Closing(CloseOrigin, a, r));
    } else if s.main == Closing(CloseOrigin, a, r) && s.conns[a].origin.None? {
      StayInv(s, a, Closing(Disown, a, r));
    }
  }

  lemma CloseOriginGlobal(s: State, a: Addr, r: Ret, s': State)
    requires GlobalInv(s) && MainInv(s) && a in s.conns && ConnInv(s, a) && s.main == Closing(CloseOrigin, a, r) && s.conns[a].origin.Some?
    requires s' == FdClosed(s, a, s.conns[a].(origin := None), s.conns[a].origin.value, Closing(Disown, a, r))
    ensures GlobalInv(s') && FdsKept(s, s', a)
  {
    hide RefInv, LockInv, OwnInv, PhaseInv;
  }

  lemma CloseOriginConn(s: State, a: Addr, r: Ret, s': State)
    requires MainInv(s) && a in s.conns && ConnInv(s, a) && s.main == Closing(CloseOrigin, a, r) && s.conns[a].origin.Some?
    requires s' == FdClosed(s, a, s.conns[a].(origin := None), s.conns[a].origin.value, Closing(Disown, a, r))
    ensures ConnInv(s', a) && MainInv(s')
  {
  }

  lemma CloseOriginLocal(s: State, a: Addr, r: Ret, s': State)
    requires Inv(s) && a in s.conns && s.main == Closing(CloseOrigin, a, r) && s.conns[a].origin.Some?
    requires s' == FdClosed(s, a, s.conns[a].(origin := None), s.conns[a].origin.value, Closing(Disown, a, r))
    ensures CloseAt(s, CloseOrigin, a, r) == s'
    ensures GlobalInv(s') && ConnInv(s', a) && FdsKept(s, s', a) && MainInv(s')
  {
    hide Inv, ConnInv, FdsKept;
    ConnFacts(s, a);
    CloseOriginOpen(s, a);
    CloseOriginGlobal(s, a, r, s');
    CloseOriginConn(s, a, r, s');
  }

  lemma CloseOriginOpen(s: State, a: Addr)
    requires GlobalInv(s) && a in s.conns && ConnInv(s, a) && s.main.Closing? && s.main.a == a && s.main.cp == CloseOrigin && MainInv(s)
    requires s.conns[a].origin.Some?
    ensures s.conns[a].origin.value in s.open && s.conns[a].origin.value !in s.items
  {
    hide RefInv, LockInv, OwnInv, PhaseInv;
  }

  lemma CloseOriginInv(s: State, a: Addr, r: Ret)
    requires Inv(s) && a in s.conns && s.main == Closing(CloseOrigin, a, r)
    ensures Inv(CloseAt(s, CloseOrigin, a, r))
  {
    hide ConnInv, WorkerInv, JobInv, GlobalInv, MainInv;
    if s.conns[a].origin.Some? {
      var s' := FdClosed(s, a, s.conns[a].(origin := None), s.conns[a].origin.value, Closing(Disown, a, r));
      CloseOriginLocal(s, a, r, s');
      ChangeInv(s, s', a);
    } else {
      NoOrigin(s, a, r);
    }
  }

  /** The owner's reference goes; with it goes the connection, unless a worker or its notification is left. */
  lemma DisownLocal(s: State, a: Addr, r: Ret, s': State)
    requires a in s.conns && ConnInv(s, a) && MainInv(s) && !s.fault
    requires s.main == Closing(Disown, a, r) && s' == CloseAt(s, Disown, a, r)
    requires s.conns[a].lock.ByWorker? ==> WorkerShare(s, s.conns[a])
    ensures s'.conns == s.conns - {a} || (a in s'.conns && s'.conns == s.conns[a := s'.conns[a]])
    ensures a in s'.conns ==> SameForWorkers(s.conns[a], s'.conns[a])
    ensures a !in s'.conns ==> !WorkerShare(s, s.conns[a]) && !JobShare(s, s.conns[a])
    ensures s'.workers == s.workers && s'.jobs == s.jobs && s'.cursor == s.cursor && s'.res == s.res
    ensures MainInv(s')
    ensures s'.pool == s.pool && s'.items == s.items && s'.open == s.open && s'.current == s.current
    ensures s'.alive == s.alive && s'.fault == s.fault
  {
  }

  lemma DisownKept(s: State, a: Addr, r: Ret, s': State)
    requires a in s.conns && ConnInv(s, a) && s.main == Closing(Disown, a, r) && ClosingInv(Disown, s.conns[a])
    requires s' == CloseAt(s, Disown, a, r) && s.conns[a].refs > 1
    ensures ConnInv(s', a)
  {
  }

  /** A worker that still holds the mutex of a cancelled connection still holds its reference. */
  lemma LockedShare(s: State, a: Addr)
    requires Inv(s) && a in s.conns && s.conns[a].cancelled && s.conns[a].lock.ByWorker?
    ensures WorkerShare(s, s.conns[a])
  {
    ConnFacts(s, a);
    assert WorkerInv(s, s.conns[a].lock.i);
  }

  /** A connection without descriptors owns nothing and is in no list. */
  lemma Bare(s: State, a: Addr)
    requires Inv(s) && a in s.conns && s.conns[a].client.None? && s.conns[a].origin.None?
    ensures a !in s.pool && forall fd :: fd in s.open ==> s.open[fd].data != a
  {
    hide WorkerInv, JobInv;
    ConnFacts(s, a);
    forall fd | fd in s.open ensures s.open[fd].data != a {
      assert Owns(s, s.open[fd], fd);
    }
  }

  lemma FreedGlobal(s: State, a: Addr, s': State)
    requires GlobalInv(s) && a in s.conns
    requires a !in s.pool && forall fd :: fd in s.open ==> s.open[fd].data != a
    requires s'.pool == s.pool && s'.items == s.items && s'.open == s.open && s'.current == s.current
    requires s'.alive == s.alive && s'.fault == s.fault && s'.res == s.res && |s'.workers| == |s.workers|
    requires Ending(s'.main) == Ending(s.main) && MainHoldsRes(s'.main) == MainHoldsRes(s.main)
    requires s'.main.DestroyDrain? == s.main.DestroyDrain? && s'.main.Over? == s.main.Over?
    requires s'.conns == s.conns - {a} || (a in s'.conns && s'.conns == s.conns[a := s'.conns[a]])
    ensures GlobalInv(s')
  {
    forall fd | fd in s'.open ensures Owns(s', s'.open[fd], fd) {
      assert Owns(s, s.open[fd], fd);
    }
  }

  /** A connection with no share left has no worker that needs it. */
  lemma Unneeded(s: State, a: Addr, i: nat)
    requires Inv(s) && a in s.conns && i < |s.workers| && s.workers[i].conn == a
    requires !WorkerShare(s, s.conns[a]) && !JobShare(s, s.conns[a])
    requires s.conns[a].lock != ByWorker(i)
    ensures !Needs(s.workers[i])
  {
    hide ConnInv, JobInv;
    assert WorkerInv(s, i);
  }

  lemma BareAtDisown(s: State, a: Addr, r: Ret)
    requires Inv(s) && a in s.conns && s.main == Closing(Disown, a, r)
    ensures ConnInv(s, a) && MainInv(s) && GlobalInv(s) && !s.fault && ClosingInv(Disown, s.conns[a])
    ensures s.conns[a].lock.ByWorker? ==> WorkerShare(s, s.conns[a])
    ensures a !in s.pool && forall fd :: fd in s.open ==> s.open[fd].data != a
    ensures MainHoldsRes(CloseAt(s, Disown, a, r).main) == MainHoldsRes(s.main)
    ensures !Ending(CloseAt(s, Disown, a, r).main) && About(CloseAt(s, Disown, a, r).main) in [None, Some(a)]
  {
    hide Inv, ConnInv, WorkerInv, JobInv;
    ConnFacts(s, a);
    Bare(s, a);
    if s.conns[a].lock.ByWorker? { LockedShare(s, a); }
    hide GlobalInv;
  }

  lemma DisownInv(s: State, a: Addr, r: Ret)
    requires Inv(s) && a in s.conns && s.main == Closing(Disown, a, r)
    ensures Inv(CloseAt(s, Disown, a, r))
  {
    hide ConnInv, WorkerInv, JobInv, GlobalInv, MainInv;
    var s' := CloseAt(s, Disown, a, r);
    BareAtDisown(s, a, r);
    DisownLocal(s, a, r, s');
    if s.conns[a].refs > 1 { DisownKept(s, a, r, s'); }
    FreedGlobal(s, a, s');
    forall i | 0 <= i < |s.workers| ensures KeptFor(s, s', i) {
      if s.workers[i].conn == a && a !in s'.conns { Unneeded(s, a, i); }
    }
    ChangeInv(s, s', a);
  }

  // handle_block_notifications, in a handler

  lemma HandleInv(s: State, p: DonePt, a: Addr, ch: Choice)
    requires Inv(s) && a in s.conns && s.main == Handle(p, a)
    requires p.DoneLock? ==> CanLock(s, a)
    requires p.DoneConnect? ==> !ch.Dial?
    ensures Inv(DoneAt(s, p, a, ch))
  {
    hide Inv, GlobalInv;
    ConnFacts(s, a);
    var c := s.conns[a];
    match p {
      case DoneLock => PutInv(s, a, c.(lock := ByMain), Handle(DoneClear, a));
      case DoneClear => PutInv(s, a, c.(pending := false, lock := Free), Handle(DoneConnect, a));
      case DoneConnect => HandleConnect(s, a, ch);
    }
  }

  lemma HandleConnect(s: State, a: Addr, ch: Choice)
    requires Inv(s) && a in s.conns && s.main == Handle(DoneConnect, a) && !ch.Dial?
    ensures Inv(DoneAt(s, DoneConnect, a, ch))
  {
    hide Inv, GlobalInv;
    ConnFacts(s, a);
    var c := s.conns[a];
    JobResolved(s, a);
    assert Put(s, a, c) == s;
    if ch.GiveUp? {
      PutInv(s, a, c, CloseTest(a, ToClean));
    } else {
      PutInv(s, a, c.(phase := Settled), Clean);
    }
  }

  /** The notification being handled belongs to the connection's worker, which stored its result first. */
  lemma JobResolved(s: State, a: Addr)
    requires Inv(s) && a in s.conns && AtJob(s, a)
    ensures var w := s.jobs[s.cursor].w;
            && s.conns[a].worker == Some(w) && s.conns[a].resolved
            && w < |s.workers| && s.workers[w].pushed && s.workers[w].cleaned == 0 && s.workers[w].conn == a
  {
    assert JobInv(s, s.cursor);
    assert WorkerInv(s, s.jobs[s.cursor].w);
  }

  // socksv5_pool_force_shutdown

  lemma ShutInv(s: State, p: ShutPt, a: Addr)
    requires Inv(s) && a in s.conns && s.main == Shutting(p, a)
    requires (p.ShutLock? && CanLock(s, a)) || p.ShutSet?
    ensures Inv(ShutAt(s, p, a))
  {
    hide Inv, GlobalInv;
    ConnFacts(s, a);
    if p.ShutLock? { ShutLocks(s, a); } else { ShutSets(s, a); }
  }

  lemma ShutLocks(s: State, a: Addr)
    requires Inv(s) && a in s.conns && s.main == Shutting(ShutLock, a) && CanLock(s, a)
    requires GlobalInv(s) && ConnInv(s, a) && MainInv(s)
    ensures Inv(ShutAt(s, ShutLock, a))
  {
    hide Inv, GlobalInv;
    PutInv(s, a, s.conns[a].(lock := ByMain), Shutting(ShutSet, a));
  }

  lemma ShutSets(s: State, a: Addr)
    requires Inv(s) && a in s.conns && s.main == Shutting(ShutSet, a)
    requires GlobalInv(s) && ConnInv(s, a) && MainInv(s)
    ensures Inv(ShutAt(s, ShutSet, a))
  {
    hide Inv, GlobalInv;
    PutInv(s, a, s.conns[a].(cancelled := true, lock := Free), CloseTest(a, ToShut));
  }

  // The main thread between connections

  /** A step that changes no connection, worker, descriptor or list entry. */
  lemma ChangeNone(s: State, s': State)
    requires Inv(s) && !s.main.Clean?
    requires s'.conns == s.conns && s'.workers == s.workers && s'.jobs == s.jobs && s'.cursor == s.cursor
    requires s'.pool == s.pool && s'.items == s.items && s'.open == s.open && s'.current == s.current
    requires s'.res == s.res || (!s.res.ByWorker? && !s'.res.ByWorker?)
    requires About(s.main) == None || About(s'.main) == About(s.main)
    requires GlobalInv(s') && MainInv(s') && JobsHead(s')
    requires About(s'.main).Some? && About(s'.main).value in s.conns ==> ConnInv(s', About(s'.main).value)
    ensures Inv(s')
  {
    hide ConnInv, WorkerInv, JobInv, GlobalInv, MainInv;
    KeepWorkers(s, s');
    forall x | x in s'.conns ensures ConnInv(s', x) {
      if About(s'.main) != Some(x) { KeepOther(s, s', x); }
    }
  }

  predicate JobsHead(s: State) {
    (s.cursor > 0 ==> MainHoldsRes(s.main) || s.main.DestroyDrain?) && (s.main == Over ==> s.jobs == [])
  }

  lemma DrainLockInv(s: State)
    requires Inv(s) && s.main == DrainLock && s.res == Free
    ensures Inv(MainNext(s, Plain))
  {
    hide ConnInv, WorkerInv, JobInv;
    ChangeNone(s, MainNext(s, Plain));
  }

  /** The list has been gone through: nothing in it is left to clean, and it is emptied. */
  lemma JobsDone(s: State, s': State)
    requires Inv(s) && s.cursor == |s.jobs| && !s.main.Clean?
    requires s'.conns == s.conns && s'.workers == s.workers && s'.jobs == [] && s'.cursor == 0
    requires s'.pool == s.pool && s'.items == s.items && s'.open == s.open && s'.current == s.current
    requires s'.res == s.res || (!s.res.ByWorker? && !s'.res.ByWorker?)
    requires About(s.main) == None && About(s'.main) == None
    requires GlobalInv(s') && MainInv(s')
    ensures Inv(s')
  {
    hide ConnInv, JobInv, GlobalInv, MainInv;
    forall i | 0 <= i < |s'.workers| ensures WorkerInv(s', i) {
      assert WorkerInv(s, i);
    }
    forall x | x in s'.conns ensures ConnInv(s', x) {
      KeepOther(s, s', x);
    }
  }

  lemma DrainNextInv(s: State)
    requires Inv(s) && s.main == DrainNext
    ensures Inv(DrainNextAt(s))
  {
    hide ConnInv, WorkerInv, JobInv;
    var s' := DrainNextAt(s);
    if s.cursor >= |s.jobs| {
      JobsDone(s, s');
    } else {
      DrainTarget(s);
      ChangeNone(s, s');
    }
  }

  lemma DrainTarget(s: State)
    requires Inv(s) && s.main == DrainNext && s.cursor < |s.jobs|
    ensures var s' := DrainNextAt(s);
            MainInv(s') && (s'.main.Handle? && s'.main.a in s.conns ==> ConnInv(s', s'.main.a))
  {
    hide ConnInv, WorkerInv, JobInv;
    var j := s.jobs[s.cursor];
    if j.fd in s.items && s.items[j.fd] == Item(j.data, Client) {
      assert s.open[j.fd] == s.items[j.fd];
      assert Owns(s, s.open[j.fd], j.fd);
      TargetOwn(s, j.data, j.fd);
    }
  }

  lemma TargetOwn(s: State, a: Addr, fd: Fd)
    requires Inv(s) && s.main == DrainNext && a in s.conns && s.conns[a].client == Some(fd) && fd in s.items
    ensures Live(s, a) && ConnInv(At(s, Handle(DoneLock, a)), a)
  {
    hide Inv, GlobalInv;
    ConnFacts(s, a);
  }

  /** A notification whose connection is still open finds its handler: the job names the connection's own descriptor. */
  lemma OpenIsHandled(s: State)
    requires Inv(s) && s.main == DrainNext && s.cursor < |s.jobs|
    requires Live(s, s.jobs[s.cursor].data)
    ensures DrainNextAt(s).main == Handle(DoneLock, s.jobs[s.cursor].data)
  {
    var j := s.jobs[s.cursor];
    assert JobInv(s, s.cursor);
    assert WorkerInv(s, j.w);
    ConnFacts(s, j.data);
  }

  lemma DialInv(s: State, a: Addr, fd: Fd, sync: bool)
    requires Inv(s) && a in s.conns && s.main == Handle(DoneConnect, a) && fd !in s.open
    ensures Inv(At(OpenOrigin(s, a, fd, sync), Clean))
  {
    hide ConnInv, WorkerInv, JobInv, GlobalInv;
    ConnFacts(s, a);
    JobResolved(s, a);
    DialLocal(s, a, fd, sync, Clean);
    ChangeInv(s, At(OpenOrigin(s, a, fd, sync), Clean), a);
  }

  /** A connection about to be dialled for has no origin yet. */
  lemma DialNoOrigin(s: State, a: Addr, fd: Fd, pc': Pc)
    requires a in s.conns && ConnInv(s, a) && GlobalInv(s) && Live(s, a) && fd !in s.open
    requires if s.main == Loop then s.main == pc' && s.conns[a].phase == Reading
             else s.main == Handle(DoneConnect, a) && pc' == Clean && JobShare(s, s.conns[a])
                  && s.cursor < |s.jobs| && s.conns[a].worker == Some(s.jobs[s.cursor].w)
    ensures s.conns[a].origin.None? && !(fd in s.items)
  {
    hide RefInv, LockInv, OwnInv;
  }

  lemma DialGlobal(s: State, a: Addr, fd: Fd, sync: bool, pc': Pc)
    requires a in s.conns && ConnInv(s, a) && GlobalInv(s) && Live(s, a) && fd !in s.open
    requires if s.main == Loop then s.main == pc' && s.conns[a].phase == Reading
             else s.main == Handle(DoneConnect, a) && pc' == Clean && JobShare(s, s.conns[a])
                  && s.cursor < |s.jobs| && s.conns[a].worker == Some(s.jobs[s.cursor].w)
    requires s.conns[a].origin.None? && !(fd in s.items)
    ensures GlobalInv(At(OpenOrigin(s, a, fd, sync), pc'))
  {
    hide ConnInv;
  }

  lemma DialFds(s: State, a: Addr, fd: Fd, sync: bool, pc': Pc)
    requires a in s.conns && fd !in s.open
    ensures FdsKept(s, At(OpenOrigin(s, a, fd, sync), pc'), a)
  {
  }

  lemma DialConn(s: State, a: Addr, fd: Fd, sync: bool, pc': Pc)
    requires a in s.conns && ConnInv(s, a) && GlobalInv(s) && Live(s, a) && fd !in s.open
    requires if s.main == Loop then s.main == pc' && s.conns[a].phase == Reading
             else s.main == Handle(DoneConnect, a) && pc' == Clean && JobShare(s, s.conns[a])
                  && s.cursor < |s.jobs| && s.conns[a].worker == Some(s.jobs[s.cursor].w)
    ensures ConnInv(At(OpenOrigin(s, a, fd, sync), pc'), a)
  {
    hide GlobalInv;
    assert s.conns[a].client.Some? ==> s.conns[a].client.value != fd;
  }

  lemma DialLocal(s: State, a: Addr, fd: Fd, sync: bool, pc': Pc)
    requires a in s.conns && ConnInv(s, a) && GlobalInv(s) && Live(s, a) && fd !in s.open
    requires if s.main == Loop then s.main == pc' && s.conns[a].phase == Reading
             else s.main == Handle(DoneConnect, a) && pc' == Clean && JobShare(s, s.conns[a])
                  && s.cursor < |s.jobs| && s.conns[a].worker == Some(s.jobs[s.cursor].w)
    ensures s.conns[a].origin.None?
    ensures var s' := At(OpenOrigin(s, a, fd, sync), pc');
            GlobalInv(s') && ConnInv(s', a) && FdsKept(s, s', a)
  {
    hide GlobalInv, ConnInv, FdsKept;
    DialNoOrigin(s, a, fd, pc');
    DialGlobal(s, a, fd, sync, pc');
    DialFds(s, a, fd, sync, pc');
    DialConn(s, a, fd, sync, pc');
  }

  lemma ShutNextInv(s: State)
    requires Inv(s) && s.main == ShutNext
    ensures Inv(MainNext(s, Plain))
  {
    hide ConnInv, WorkerInv, JobInv;
    if s.pool != [] {
      assert s.pool[0] in s.pool;
      ShutTarget(s, s.pool[0]);
    }
    ChangeNone(s, MainNext(s, Plain));
  }

  lemma ShutTarget(s: State, a: Addr)
    requires Inv(s) && s.main == ShutNext && a in s.pool && a in s.conns
    ensures Live(s, a) && ConnInv(At(s, Shutting(ShutLock, a)), a)
  {
    hide Inv, GlobalInv;
    ConnFacts(s, a);
  }

  lemma ShutPopInv(s: State, a: Addr)
    requires Inv(s) && s.main == Shutting(ShutPop, a)
    ensures Inv(MainNext(s, Plain))
  {
    hide ConnInv, WorkerInv, JobInv;
    assert s.pool != [] ==> s.pool[0] in s.pool;
    ShutPopNone(s, a);
  }

  lemma ShutPopNone(s: State, a: Addr)
    requires Inv(s) && s.main == Shutting(ShutPop, a)
    ensures Inv(At(s, ShutNext))
  {
    hide WorkerInv, JobInv, ConnInv;
    var s' := At(s, ShutNext);
    KeepWorkers(s, s');
    forall x | x in s'.conns ensures ConnInv(s', x) {
      if x == a { PopOwn(s, a); } else { KeepOther(s, s', x); }
    }
  }

  lemma PopOwn(s: State, a: Addr)
    requires Inv(s) && s.main == Shutting(ShutPop, a) && a in s.conns
    ensures ConnInv(At(s, ShutNext), a)
  {
    hide Inv;
    ConnFacts(s, a);
  }

  // selector_destroy

  /** Once the pool is empty and the loop is over, every connection has been closed. */
  lemma NoneOwned(s: State, a: Addr)
    requires Inv(s) && Ending(s.main) && a in s.conns
    ensures !s.conns[a].owned
  {
    hide WorkerInv, JobInv;
    ConnFacts(s, a);
  }

  lemma NothingOpen(s: State)
    requires Inv(s) && Ending(s.main)
    ensures s.items == map[] && s.open == map[]
  {
    hide ConnInv, WorkerInv, JobInv;
    if fd :| fd in s.open {
      assert Owns(s, s.open[fd], fd);
      NoneOwned(s, s.open[fd].data);
      ConnFacts(s, s.open[fd].data);
      ClosedBare(s, s.open[fd].data);
      assert false;
    }
  }

  lemma ClosedBare(s: State, a: Addr)
    requires a in s.conns && ConnInv(s, a) && !s.conns[a].owned
    ensures s.conns[a].client.None? && s.conns[a].origin.None?
  {
  }

  /** No worker is between its cancellation test and the end of its signal. */
  lemma NoSelectorUser(s: State, i: nat)
    requires Inv(s) && Ending(s.main) && i < |s.workers|
    ensures !UsesSelector(s.workers[i].pc)
  {
    hide ConnInv, JobInv;
    assert WorkerInv(s, i);
    if UsesSelector(s.workers[i].pc) { NoneOwned(s, s.workers[i].conn); }
  }

  lemma DestroyInv(s: State)
    requires Inv(s) && s.main == Destroy
    ensures Inv(MainNext(s, Plain))
  {
    hide ConnInv, JobInv;
    NothingOpen(s);
    if s.res.ByWorker? {
      assert WorkerInv(s, s.res.i);
      NoSelectorUser(s, s.res.i);
    }
    hide WorkerInv;
    ChangeNone(s, MainNext(s, Plain));
  }

  // Cleaning a notification up, by the loop or by selector_destroy

  /**
   * The next notification holds a reference of its connection; if it is the last
   * one the connection is closed, nobody holds its mutex and its worker is done.
   */
  ghost predicate Cleanable(s: State) {
    && s.cursor < |s.jobs|
    && var j := s.jobs[s.cursor];
    && j.w < |s.workers| && s.workers[j.w].conn == j.data && s.workers[j.w].pushed && s.workers[j.w].cleaned == 0
    && j.data in s.conns
    && var c := s.conns[j.data];
    && c.worker == Some(j.w) && c.refs > 0
    && (c.refs == 1 ==> !c.owned && c.lock == Free && s.workers[j.w].pc.Done?)
  }

  function Cleaned(s: State, next: Pc): State
    requires Cleanable(s)
  {
    var j := s.jobs[s.cursor];
    var c := s.conns[j.data];
    s.(conns := if c.refs == 1 then s.conns - {j.data} else s.conns[j.data := c.(refs := c.refs - 1)],
       main := next, cursor := s.cursor + 1,
       workers := s.workers[j.w := s.workers[j.w].(cleaned := 1)])
  }

  lemma CleanTarget(s: State)
    requires Inv(s) && s.cursor < |s.jobs| && (s.main.Clean? || s.main.DestroyDrain?)
    ensures Cleanable(s)
  {
    var j := s.jobs[s.cursor];
    assert JobInv(s, s.cursor);
    assert WorkerInv(s, j.w);
    ConnFacts(s, j.data);
    hide Inv;
  }

  lemma CleanWorker(s: State, next: Pc, i: nat)
    requires Cleanable(s) && i < |s.workers| && WorkerInv(s, i)
    ensures WorkerInv(Cleaned(s, next), i)
  {
    var s' := Cleaned(s, next);
    if i != s.jobs[s.cursor].w && s.workers[i].pushed && s.workers[i].cleaned == 0 {
      var k :| s.cursor <= k < |s.jobs| && s.jobs[k].w == i;
      assert s'.jobs[k].w == i;
    }
  }

  predicate Onward(s: State, next: Pc) {
    (s.main == Clean && next == DrainNext) || (s.main == DestroyDrain && next == DestroyDrain)
  }

  lemma CleanConn(s: State, next: Pc, x: Addr)
    requires Cleanable(s) && Onward(s, next) && x in s.conns && ConnInv(s, x) && x in Cleaned(s, next).conns
    ensures ConnInv(Cleaned(s, next), x)
  {
    if x != s.jobs[s.cursor].data { KeepOther(s, Cleaned(s, next), x); }
  }

  lemma CleanGlobal(s: State, next: Pc)
    requires Inv(s) && Cleanable(s) && Onward(s, next)
    ensures GlobalInv(Cleaned(s, next))
  {
    hide ConnInv, WorkerInv, JobInv;
    var a := s.jobs[s.cursor].data;
    if s.conns[a].refs == 1 {
      ConnFacts(s, a);
      ClosedBare(s, a);
      Bare(s, a);
    }
    hide Inv;
    CleanedGlobal(s, next);
  }

  lemma CleanedGlobal(s: State, next: Pc)
    requires Cleanable(s) && GlobalInv(s) && Onward(s, next)
    requires var a := s.jobs[s.cursor].data;
             s.conns[a].refs == 1 ==> a !in s.pool && forall fd :: fd in s.open ==> s.open[fd].data != a
    ensures GlobalInv(Cleaned(s, next))
  {
    forall fd | fd in s.open ensures Owns(Cleaned(s, next), s.open[fd], fd) {
      assert Owns(s, s.open[fd], fd);
    }
  }

  lemma CleanJobs(s: State, next: Pc)
    requires Inv(s) && Cleanable(s) && Onward(s, next)
    ensures JobsInv(Cleaned(s, next))
  {
    hide ConnInv, WorkerInv, GlobalInv;
    var s' := Cleaned(s, next);
    forall k | s'.cursor <= k < |s'.jobs| ensures JobInv(s', k) {
      assert JobInv(s, k);
    }
  }

  lemma CleanInv(s: State, next: Pc)
    requires Inv(s) && s.cursor < |s.jobs| && Onward(s, next)
    ensures Inv(CleanJob(s, next))
  {
    hide ConnInv, WorkerInv, GlobalInv, JobInv;
    CleanTarget(s);
    var s' := Cleaned(s, next);
    assert CleanJob(s, next) == s';
    forall i | 0 <= i < |s'.workers| ensures WorkerInv(s', i) { CleanWorker(s, next, i); }
    forall x | x in s'.conns ensures ConnInv(s', x) { CleanConn(s, next, x); }
    CleanGlobal(s, next);
    CleanJobs(s, next);
  }

  lemma DestroyDrainInv(s: State)
    requires Inv(s) && s.main == DestroyDrain
    ensures Inv(MainNext(s, Plain))
  {
    hide ConnInv, WorkerInv, JobInv;
    if s.cursor >= |s.jobs| {
      JobsDone(s, MainNext(s, Plain));
    } else {
      CleanInv(s, DestroyDrain);
    }
  }
}
