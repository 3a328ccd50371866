/** The workers' steps and the handlers dispatched by the loop keep the invariant. */
module LifecycleWork {
  import opened Bytes
  import opened Lifecycle
  import opened LifecycleInv
  import opened LifecycleSteps

  // Workers

  /** What a step of worker `i` leaves alone. */
  ghost predicate OnlyWorker(s: State, s': State, i: nat)
    requires i < |s.workers|
  {
    var a := s.workers[i].conn;
    && |s'.workers| == |s.workers|
    && (forall j :: 0 <= j < |s.workers| && j != i ==> s'.workers[j] == s.workers[j])
    && s'.workers[i].conn == a && s'.workers[i].fd == s.workers[i].fd && s'.workers[i].cleaned == s.workers[i].cleaned
    && s'.main == s.main && s'.cursor == s.cursor && s'.pool == s.pool && s'.current == s.current
    && s'.items == s.items && s'.open == s.open && s'.alive == s.alive && s'.fault == s.fault
    && (forall x :: x in s.conns && x != a ==> x in s'.conns && s'.conns[x] == s.conns[x])
    && (forall x :: x in s'.conns && x != a ==> x in s.conns)
    && (forall j :: j != i ==> (s'.res == ByWorker(j) <==> s.res == ByWorker(j)))
    && (s'.res == ByMain <==> s.res == ByMain)
    && (s'.res.ByWorker? ==> s'.res.i < |s.workers|)
  }

  /** Another worker of the same connection would already be done with it. */
  lemma OtherWorker(s: State, s': State, i: nat, j: nat)
    requires i < |s.workers| && j < |s.workers| && i != j
    requires WorkerInv(s, i) && WorkerInv(s, j) && Needs(s.workers[i]) && OnlyWorker(s, s', i)
    requires Queued(s, j) ==> Queued(s', j)
    ensures WorkerInv(s', j)
  {
  }

  lemma WorkChange(s: State, s': State, i: nat)
    requires Inv(s) && i < |s.workers| && Needs(s.workers[i]) && OnlyWorker(s, s', i)
    requires s'.jobs == s.jobs && s'.workers[i].pushed == s.workers[i].pushed
    requires WorkerInv(s', i) && GlobalInv(s') && MainInv(s')
    requires s.workers[i].conn in s'.conns ==> ConnInv(s', s.workers[i].conn)
    ensures Inv(s')
  {
    hide ConnInv, WorkerInv, GlobalInv, MainInv;
    WorkConns(s, s', i);
    forall j | 0 <= j < |s.workers| ensures WorkerInv(s', j) {
      if j != i {
        assert WorkerInv(s, j) && WorkerInv(s, i);
        assert Queued(s, j) ==> Queued(s', j);
        OtherWorker(s, s', i, j);
      }
    }
    forall k | s'.cursor <= k < |s'.jobs| ensures JobInv(s', k) {
      assert JobInv(s, k);
    }
  }

  lemma WorkConns(s: State, s': State, i: nat)
    requires Inv(s) && i < |s.workers| && OnlyWorker(s, s', i)
    requires !s.main.Clean? || s'.jobs == s.jobs
    requires s.workers[i].conn in s'.conns ==> ConnInv(s', s.workers[i].conn)
    ensures forall x :: x in s'.conns ==> ConnInv(s', x)
  {
    hide ConnInv, WorkerInv, JobInv, GlobalInv, MainInv;
    forall x | x in s'.conns ensures ConnInv(s', x) {
      if x != s.workers[i].conn {
        OtherConn(s, x, i);
        KeepOther(s, s', x);
      }
    }
  }

  lemma OtherConn(s: State, x: Addr, i: nat)
    requires x in s.conns && ConnInv(s, x) && i < |s.workers| && s.workers[i].conn != x
    ensures s.conns[x].worker != Some(i)
  {
  }

  /** What the invariant says of one worker and its connection. */
  lemma WorkerFacts(s: State, i: nat)
    requires Inv(s) && i < |s.workers|
    ensures WorkerInv(s, i) && GlobalInv(s) && MainInv(s)
    ensures Needs(s.workers[i]) ==> s.workers[i].conn in s.conns && ConnInv(s, s.workers[i].conn)
  {
    hide ConnInv, JobInv;
    assert WorkerInv(s, i);
  }

  /** The fields a worker writes. */
  predicate WorkerWrites(c: Conn, c': Conn) {
    c' == c.(lock := c'.lock, pending := c'.pending, resolved := c'.resolved) && (c'.pending ==> c.pending)
  }

  lemma ConnStepGlobal(s: State, i: nat, c': Conn, pc': WorkPc)
    requires i < |s.workers| && GlobalInv(s) && MainInv(s) && s.workers[i].conn in s.conns
    requires WorkerWrites(s.conns[s.workers[i].conn], c')
    ensures var s' := Moved(Put(s, s.workers[i].conn, c'), i, pc'); GlobalInv(s') && MainInv(s') && OnlyWorker(s, s', i)
  {
    var s' := Moved(Put(s, s.workers[i].conn, c'), i, pc');
    ConnStepOnly(s, i, c', pc');
    ConnStepMain(s, i, c', pc');
    hide GlobalInv, MainInv, OnlyWorker;
    OnlyWorkerGlobal(s, s', i);
  }

  lemma ConnStepOnly(s: State, i: nat, c': Conn, pc': WorkPc)
    requires i < |s.workers| && GlobalInv(s) && s.workers[i].conn in s.conns
    ensures OnlyWorker(s, Moved(Put(s, s.workers[i].conn, c'), i, pc'), i)
  {
  }

  lemma ConnStepMain(s: State, i: nat, c': Conn, pc': WorkPc)
    requires i < |s.workers| && MainInv(s) && s.workers[i].conn in s.conns
    requires WorkerWrites(s.conns[s.workers[i].conn], c')
    ensures MainInv(Moved(Put(s, s.workers[i].conn, c'), i, pc'))
  {
  }

  /** Connections that are where they were, and one that is, or is gone with nothing of its own left. */
  lemma OnlyWorkerGlobal(s: State, s': State, i: nat)
    requires i < |s.workers| && GlobalInv(s) && OnlyWorker(s, s', i) && s.workers[i].conn in s.conns
    requires var a := s.workers[i].conn;
             if a in s'.conns then s'.conns[a].client == s.conns[a].client && s'.conns[a].origin == s.conns[a].origin
             else a !in s.pool && forall fd :: fd in s.open ==> s.open[fd].data != a
    ensures GlobalInv(s')
  {
    forall fd | fd in s.open ensures Owns(s', s.open[fd], fd) {
      assert Owns(s, s.open[fd], fd);
    }
  }

  /** A section on the connection alone. */
  lemma ConnStep(s: State, i: nat, c': Conn, pc': WorkPc)
    requires Inv(s) && i < |s.workers| && Needs(s.workers[i]) && s.workers[i].conn in s.conns
    requires WorkerWrites(s.conns[s.workers[i].conn], c')
    requires var s' := Moved(Put(s, s.workers[i].conn, c'), i, pc');
             WorkerInv(s', i) && ConnInv(s', s.workers[i].conn)
    ensures Inv(Moved(Put(s, s.workers[i].conn, c'), i, pc'))
  {
    hide ConnInv, WorkerInv;
    WorkerFacts(s, i);
    hide Inv, GlobalInv, MainInv;
    ConnStepGlobal(s, i, c', pc');
    WorkChange(s, Moved(Put(s, s.workers[i].conn, c'), i, pc'), i);
  }

  lemma QueueKept(s: State, s': State, i: nat)
    requires s'.jobs == s.jobs && s'.cursor == s.cursor
    ensures Queued(s, i) == Queued(s', i)
  {
  }

  lemma ResolvingInv(s: State, i: nat, ok: bool)
    requires Inv(s) && i < |s.workers| && s.workers[i].pc.Resolving? && s.workers[i].conn in s.conns
    requires CanLock(s, s.workers[i].conn)
    ensures Inv(WorkOn(s, i, ok))
  {
    hide Inv, GlobalInv, MainInv, ConnInv, WorkerInv;
    WorkerFacts(s, i);
    ResolvingLocks(s, i);
    ConnStep(s, i, s.conns[s.workers[i].conn].(lock := ByWorker(i)), Locked);
  }

  lemma ResolvingLocks(s: State, i: nat)
    requires i < |s.workers| && s.workers[i].pc.Resolving? && s.workers[i].conn in s.conns
    requires WorkerInv(s, i) && ConnInv(s, s.workers[i].conn) && s.conns[s.workers[i].conn].lock == Free
    ensures var s' := Moved(LockFor(s, s.workers[i].conn, ByWorker(i)), i, Locked);
            WorkerInv(s', i) && ConnInv(s', s.workers[i].conn)
  {
  }

  lemma LockedInv(s: State, i: nat, ok: bool)
    requires Inv(s) && i < |s.workers| && s.workers[i].pc.Locked? && s.workers[i].conn in s.conns
    ensures Inv(WorkOn(s, i, ok))
  {
    hide Inv, GlobalInv, MainInv, ConnInv, WorkerInv;
    if s.conns[s.workers[i].conn].cancelled {
      LockedCancelled(s, i);
    } else {
      LockedStores(s, i, if ok then WantRes else DropUnlock);
    }
  }

  lemma LockedCancelled(s: State, i: nat)
    requires Inv(s) && i < |s.workers| && s.workers[i].pc.Locked? && s.workers[i].conn in s.conns
    ensures Inv(Moved(Put(s, s.workers[i].conn, s.conns[s.workers[i].conn].(pending := false)), i, DropUnlock))
  {
    hide Inv, GlobalInv, MainInv;
    WorkerFacts(s, i);
    ConnStep(s, i, s.conns[s.workers[i].conn].(pending := false), DropUnlock);
  }

  lemma LockedStores(s: State, i: nat, pc': WorkPc)
    requires Inv(s) && i < |s.workers| && s.workers[i].pc.Locked? && s.workers[i].conn in s.conns
    requires !s.conns[s.workers[i].conn].cancelled && pc' in [WantRes, DropUnlock]
    ensures Inv(Moved(Put(s, s.workers[i].conn, s.conns[s.workers[i].conn].(pending := false, resolved := true)), i, pc'))
  {
    hide Inv, GlobalInv, MainInv;
    WorkerFacts(s, i);
    LockedOwned(s, i);
    ConnStep(s, i, s.conns[s.workers[i].conn].(pending := false, resolved := true), pc');
  }

  /** A connection that was not cancelled still has its owner, and is no longer being read. */
  lemma LockedOwned(s: State, i: nat)
    requires i < |s.workers| && WorkerInv(s, i) && s.workers[i].conn in s.conns && ConnInv(s, s.workers[i].conn)
    requires Needs(s.workers[i]) && !s.conns[s.workers[i].conn].cancelled
    ensures s.conns[s.workers[i].conn].owned && s.conns[s.workers[i].conn].phase != Reading
  {
  }

  lemma UnlockInv(s: State, i: nat, ok: bool)
    requires Inv(s) && i < |s.workers| && s.workers[i].pc.Unlock? && s.workers[i].conn in s.conns
    ensures Inv(WorkOn(s, i, ok))
  {
    hide Inv, GlobalInv, MainInv;
    WorkerFacts(s, i);
    QueueKept(s, WorkOn(s, i, ok), i);
    ConnStep(s, i, s.conns[s.workers[i].conn].(lock := Free), Done);
  }

  lemma DropUnlockInv(s: State, i: nat, ok: bool)
    requires Inv(s) && i < |s.workers| && s.workers[i].pc.DropUnlock? && s.workers[i].conn in s.conns
    ensures Inv(WorkOn(s, i, ok))
  {
    hide Inv, GlobalInv, MainInv, ConnInv, WorkerInv;
    WorkerFacts(s, i);
    DropUnlocks(s, i);
    ConnStep(s, i, s.conns[s.workers[i].conn].(lock := Free), Drop);
  }

  lemma DropUnlocks(s: State, i: nat)
    requires i < |s.workers| && s.workers[i].pc.DropUnlock? && s.workers[i].conn in s.conns
    requires WorkerInv(s, i) && ConnInv(s, s.workers[i].conn)
    ensures var s' := Moved(LockFor(s, s.workers[i].conn, Free), i, Drop);
            WorkerInv(s', i) && ConnInv(s', s.workers[i].conn)
  {
  }

  /** A section on the selector that leaves the job list alone: taking or releasing its mutex, signalling. */
  lemma SelectorStep(s: State, i: nat, res': Holder, pc': WorkPc)
    requires Inv(s) && i < |s.workers| && s.workers[i].conn in s.conns && ConnInv(s, s.workers[i].conn)
    requires Needs(s.workers[i]) && HoldsRef(pc') == HoldsRef(s.workers[i].pc) && HoldsLock(pc') == HoldsLock(s.workers[i].pc)
    requires s.res != ByMain && res' != ByMain && (res'.ByWorker? ==> res'.i == i)
    requires s.res.ByWorker? && s.res.i != i ==> res' == s.res
    requires WorkerInv(Moved(s.(res := res'), i, pc'), i)
    ensures Inv(Moved(s.(res := res'), i, pc'))
  {
    hide WorkerInv, ConnInv;
    var s' := Moved(s.(res := res'), i, pc');
    WorkerFacts(s, i);
    SelectorConn(s, i, res', pc');
    hide Inv;
    forall fd | fd in s.open ensures Owns(s', s.open[fd], fd) {
      assert Owns(s, s.open[fd], fd);
    }
    WorkChange(s, s', i);
  }

  lemma SelectorConn(s: State, i: nat, res': Holder, pc': WorkPc)
    requires i < |s.workers| && s.workers[i].conn in s.conns && ConnInv(s, s.workers[i].conn)
    requires HoldsRef(pc') == HoldsRef(s.workers[i].pc) && HoldsLock(pc') == HoldsLock(s.workers[i].pc)
    ensures ConnInv(Moved(s.(res := res'), i, pc'), s.workers[i].conn)
  {
  }

  lemma WantResInv(s: State, i: nat)
    requires Inv(s) && i < |s.workers| && s.workers[i].pc.WantRes? && s.res == Free
    ensures Inv(WorkSelector(s, i))
  {
    hide Inv, ConnInv, GlobalInv, MainInv;
    WorkerFacts(s, i);
    SelectorStep(s, i, ByWorker(i), Pushing);
  }

  lemma PushedInv(s: State, i: nat)
    requires Inv(s) && i < |s.workers| && s.workers[i].pc.Pushed?
    ensures Inv(WorkSelector(s, i))
  {
    hide Inv, ConnInv, GlobalInv, MainInv;
    WorkerFacts(s, i);
    QueueKept(s, WorkSelector(s, i), i);
    SelectorStep(s, i, Free, Signal);
  }

  lemma SignalInv(s: State, i: nat)
    requires Inv(s) && i < |s.workers| && s.workers[i].pc.Signal?
    ensures Inv(WorkSelector(s, i))
  {
    hide Inv, ConnInv, GlobalInv, MainInv;
    WorkerFacts(s, i);
    QueueKept(s, WorkSelector(s, i), i);
    var s' := Moved(s, i, Unlock);
    assert WorkerInv(s', i);
    SignalRest(s, i);
  }

  lemma SignalRest(s: State, i: nat)
    requires Inv(s) && i < |s.workers| && s.workers[i].pc.Signal? && WorkerInv(Moved(s, i, Unlock), i)
    ensures Inv(Moved(s, i, Unlock))
  {
    hide WorkerInv, ConnInv;
    var s' := Moved(s, i, Unlock);
    WorkerFacts(s, i);
    assert Needs(s.workers[i]);
    SelectorConn(s, i, s.res, Unlock);
    assert Moved(s.(res := s.res), i, Unlock) == s';
    hide Inv;
    forall fd | fd in s.open ensures Owns(s', s.open[fd], fd) {
      assert Owns(s, s.open[fd], fd);
    }
    WorkChange(s, s', i);
  }

  /** The notification is queued: the reference the worker held is now the notification's. */
  lemma PushingInv(s: State, i: nat)
    requires Inv(s) && i < |s.workers| && s.workers[i].pc.Pushing?
    ensures Inv(WorkSelector(s, i))
  {
    hide ConnInv, WorkerInv, JobInv, GlobalInv, MainInv;
    WorkerFacts(s, i);
    PushingOwn(s, i);
    var s' := WorkSelector(s, i);
    WorkConns(s, s', i);
    forall j | 0 <= j < |s.workers| ensures WorkerInv(s', j) {
      if j != i {
        assert WorkerInv(s, j);
        PushKeepsQueued(s, s', i, j);
        OtherWorker(s, s', i, j);
      }
    }
    PushingJobs(s, i);
    PushingGlobal(s, i);
  }

  lemma PushKeepsQueued(s: State, s': State, i: nat, j: nat)
    requires i < |s.workers| && s.cursor == 0 && s' == WorkSelector(s, i) && s.workers[i].pc.Pushing?
    ensures Queued(s, j) ==> Queued(s', j)
  {
    if Queued(s, j) {
      var k :| s.cursor <= k < |s.jobs| && s.jobs[k].w == j;
      assert s'.jobs[k + 1].w == j;
    }
  }

  lemma PushingOwn(s: State, i: nat)
    requires Inv(s) && i < |s.workers| && s.workers[i].pc.Pushing?
    ensures var s' := WorkSelector(s, i);
            && s.cursor == 0 && !s.main.Clean? && s.main != Over && Needs(s.workers[i]) && OnlyWorker(s, s', i)
            && WorkerInv(s', i) && ConnInv(s', s.workers[i].conn)
  {
    hide Inv, MainInv, ConnInv, WorkerInv;
    WorkerFacts(s, i);
    PushingMain(s, i);
    PushingWorker(s, i);
    PushingConn(s, i);
    hide JobInv;
  }

  /** While a worker pushes, the main thread is not draining and the selector is there. */
  lemma PushingMain(s: State, i: nat)
    requires Inv(s) && i < |s.workers| && s.workers[i].pc.Pushing?
    ensures s.cursor == 0 && !s.main.Clean? && s.main != Over
  {
    hide ConnInv, JobInv;
    WorkerFacts(s, i);
    if Ending(s.main) { NoSelectorUser(s, i); }
  }

  lemma PushingWorker(s: State, i: nat)
    requires i < |s.workers| && s.workers[i].pc.Pushing? && WorkerInv(s, i) && s.cursor == 0
    ensures WorkerInv(WorkSelector(s, i), i)
  {
    assert WorkSelector(s, i).jobs[0].w == i;
  }

  lemma PushingConn(s: State, i: nat)
    requires i < |s.workers| && s.workers[i].pc.Pushing? && WorkerInv(s, i)
    requires s.workers[i].conn in s.conns && ConnInv(s, s.workers[i].conn)
    ensures ConnInv(WorkSelector(s, i), s.workers[i].conn)
  {
  }

  lemma PushingJobs(s: State, i: nat)
    requires Inv(s) && i < |s.workers| && s.workers[i].pc.Pushing? && s.cursor == 0 && s.main != Over
    ensures JobsInv(WorkSelector(s, i))
  {
    hide ConnInv, GlobalInv, MainInv;
    var s' := WorkSelector(s, i);
    assert WorkerInv(s, i);
    forall k | 0 <= k < |s'.jobs| ensures JobInv(s', k) {
      if k > 0 { assert JobInv(s, k - 1); }
    }
    forall k, l | 0 <= k < l < |s'.jobs| ensures s'.jobs[k].w != s'.jobs[l].w {
      assert JobInv(s, l - 1);
    }
  }

  lemma PushingGlobal(s: State, i: nat)
    requires Inv(s) && i < |s.workers| && s.workers[i].pc.Pushing?
    ensures GlobalInv(WorkSelector(s, i)) && MainInv(WorkSelector(s, i))
  {
    hide ConnInv, JobInv;
    assert WorkerInv(s, i);
    var s' := WorkSelector(s, i);
    forall fd | fd in s.open ensures Owns(s', s.open[fd], fd) {
      assert Owns(s, s.open[fd], fd);
    }
  }

  /** A worker that queued nothing gives its own reference back. */
  lemma DropInv(s: State, i: nat)
    requires Inv(s) && i < |s.workers| && s.workers[i].pc.Drop?
    ensures Inv(Moved(Release(s, s.workers[i].conn), i, Done))
  {
    hide ConnInv, WorkerInv, GlobalInv, MainInv;
    WorkerFacts(s, i);
    DropOwn(s, i);
    DropGlobal(s, i);
    var s' := Moved(Release(s, s.workers[i].conn), i, Done);
    if s.workers[i].conn in s'.conns { DropKept(s, i); }
    WorkChange(s, s', i);
  }

  lemma DropOwn(s: State, i: nat)
    requires Inv(s) && i < |s.workers| && s.workers[i].pc.Drop?
    ensures s.workers[i].conn in s.conns && Needs(s.workers[i]) && ConnInv(s, s.workers[i].conn)
    ensures var s' := Moved(Release(s, s.workers[i].conn), i, Done);
            && OnlyWorker(s, s', i) && WorkerInv(s', i) && MainInv(s')
            && (s.workers[i].conn !in s'.conns ==> !s.conns[s.workers[i].conn].owned)
            && (s.workers[i].conn in s'.conns ==> s.conns[s.workers[i].conn].refs > 1)
  {
    hide ConnInv, GlobalInv, MainInv, WorkerInv, JobInv;
    WorkerFacts(s, i);
    DropNeeds(s, i);
    hide Inv;
    DropRefs(s, i);
    DropMain(s, i);
    DropWorker(s, i);
  }

  lemma DropNeeds(s: State, i: nat)
    requires Inv(s) && i < |s.workers| && s.workers[i].pc.Drop?
    ensures !s.workers[i].pushed && (s.res.ByWorker? ==> s.res.i < |s.workers|)
  {
    hide ConnInv, JobInv;
    assert WorkerInv(s, i);
  }

  lemma DropMain(s: State, i: nat)
    requires i < |s.workers| && s.workers[i].conn in s.conns && MainInv(s)
    requires var c := s.conns[s.workers[i].conn];
             && c.refs > 0 && (c.refs == 1 ==> !c.owned && c.lock == Free)
             && (!c.owned && About(s.main) == Some(s.workers[i].conn) ==> s.main == Shutting(ShutPop, s.workers[i].conn))
    ensures MainInv(Moved(Release(s, s.workers[i].conn), i, Done))
  {
    var a := s.workers[i].conn;
    if s.conns[a].refs > 1 {
      assert Release(s, a) == Put(s, a, s.conns[a].(refs := s.conns[a].refs - 1));
      hide Release;
    } else {
      assert Release(s, a) == s.(conns := s.conns - {a});
      hide Release;
    }
  }

  lemma DropWorker(s: State, i: nat)
    requires i < |s.workers| && s.workers[i].conn in s.conns && WorkerInv(s, i)
    requires s.workers[i].pc.Drop? && !s.workers[i].pushed && (s.res.ByWorker? ==> s.res.i < |s.workers|)
    requires var c := s.conns[s.workers[i].conn]; c.refs > 0 && (c.refs == 1 ==> !c.owned && c.lock == Free)
    ensures var s' := Moved(Release(s, s.workers[i].conn), i, Done);
            && OnlyWorker(s, s', i) && WorkerInv(s', i)
            && (s.workers[i].conn !in s'.conns ==> !s.conns[s.workers[i].conn].owned)
            && (s.workers[i].conn in s'.conns ==> s.conns[s.workers[i].conn].refs > 1)
  {
  }

  /** The last reference to go is the worker's only after the owner's; nobody holds the mutex by then. */
  lemma DropRefs(s: State, i: nat)
    requires i < |s.workers| && s.workers[i].pc.Drop? && WorkerInv(s, i) && MainInv(s)
    requires s.workers[i].conn in s.conns && ConnInv(s, s.workers[i].conn)
    ensures var c := s.conns[s.workers[i].conn];
            && c.refs > 0 && (c.owned ==> c.refs > 1) && (c.refs == 1 ==> c.lock == Free)
            && (!c.owned && About(s.main) == Some(s.workers[i].conn) ==> s.main == Shutting(ShutPop, s.workers[i].conn))
  {
  }

  lemma DropKept(s: State, i: nat)
    requires i < |s.workers| && s.workers[i].pc.Drop? && s.workers[i].conn in s.conns
    requires WorkerInv(s, i) && ConnInv(s, s.workers[i].conn) && s.conns[s.workers[i].conn].refs > 1
    ensures ConnInv(Moved(Release(s, s.workers[i].conn), i, Done), s.workers[i].conn)
  {
  }

  lemma DropGlobal(s: State, i: nat)
    requires Inv(s) && i < |s.workers| && s.workers[i].pc.Drop? && s.workers[i].conn in s.conns
    requires OnlyWorker(s, Moved(Release(s, s.workers[i].conn), i, Done), i)
    requires s.workers[i].conn !in Moved(Release(s, s.workers[i].conn), i, Done).conns ==> !s.conns[s.workers[i].conn].owned
    ensures GlobalInv(Moved(Release(s, s.workers[i].conn), i, Done))
  {
    hide Inv, GlobalInv, ConnInv, WorkerInv, JobInv, Release;
    var a := s.workers[i].conn;
    ReleasedFds(s, a);
    var s' := Moved(Release(s, a), i, Done);
    ConnFacts(s, a);
    if a !in s'.conns {
      ClosedBare(s, a);
      Bare(s, a);
    }
    hide OnlyWorker;
    OnlyWorkerGlobal(s, s', i);
  }

  lemma ReleasedFds(s: State, a: Addr)
    requires a in s.conns
    ensures var t := Release(s, a);
            t.workers == s.workers && (a in t.conns ==> t.conns[a].client == s.conns[a].client && t.conns[a].origin == s.conns[a].origin)
  {
  }

  lemma WorkInv(s: State, i: nat, ok: bool)
    requires Inv(s) && Enabled(s, Work(i, ok))
    ensures Inv(WorkNext(s, i, ok))
  {
    hide ConnInv, GlobalInv, MainInv, JobInv;
    WorkerFacts(s, i);
    assert s.workers[i].conn in s.conns;
    if UsesSelector(s.workers[i].pc) { AliveFor(s, i); }
    hide Inv, WorkerInv;
    match s.workers[i].pc {
      case Resolving => ResolvingInv(s, i, ok);
      case Locked => LockedInv(s, i, ok);
      case WantRes => WantResInv(s, i);
      case Pushing => PushingInv(s, i);
      case Pushed => PushedInv(s, i);
      case Signal => SignalInv(s, i);
      case Unlock => UnlockInv(s, i, ok);
      case DropUnlock => DropUnlockInv(s, i, ok);
      case Drop => DropInv(s, i);
      case Done =>
    }
  }

  lemma AliveFor(s: State, i: nat)
    requires Inv(s) && i < |s.workers| && UsesSelector(s.workers[i].pc)
    ensures s.alive
  {
    hide ConnInv, JobInv, WorkerInv;
    if !s.alive { NoSelectorUser(s, i); }
  }

  // Handlers dispatched by the loop

  lemma AcceptInv(s: State, a: Addr, fd: Fd)
    requires Inv(s) && s.main == Loop && a !in s.conns && fd !in s.open
    ensures Inv(DoAccept(s, a, fd))
  {
    hide ConnInv, WorkerInv, JobInv, GlobalInv;
    NotNeeded(s, a);
    AcceptGlobal(s, a, fd);
    AcceptConn(s, a, fd);
    ChangeInv(s, DoAccept(s, a, fd), a);
  }

  /** A fresh address is not one a worker could still use. */
  lemma NotNeeded(s: State, a: Addr)
    requires Inv(s) && a !in s.conns
    ensures forall i :: 0 <= i < |s.workers| && s.workers[i].conn == a ==> !Needs(s.workers[i])
  {
    hide ConnInv, JobInv, GlobalInv, MainInv;
    forall i | 0 <= i < |s.workers| && s.workers[i].conn == a ensures !Needs(s.workers[i]) {
      assert WorkerInv(s, i);
    }
  }

  lemma AcceptGlobal(s: State, a: Addr, fd: Fd)
    requires GlobalInv(s) && s.main == Loop && a !in s.conns && fd !in s.open
    ensures var s' := DoAccept(s, a, fd); GlobalInv(s') && FdsKept(s, s', a)
  {
    var s' := DoAccept(s, a, fd);
    assert a !in s.pool;
    assert forall i :: 0 < i < |s'.pool| ==> s'.pool[i] == s.pool[i - 1];
    forall f | f in s'.open ensures Owns(s', s'.open[f], f) {
      if f != fd { assert Owns(s, s.open[f], f); }
    }
  }

  lemma AcceptConn(s: State, a: Addr, fd: Fd)
    requires s.main == Loop && a !in s.conns && fd !in s.open
    ensures ConnInv(DoAccept(s, a, fd), a)
  {
  }

  /** The loop dispatches to connections that are registered and not being closed. */
  lemma DispatchedLive(s: State, a: Addr)
    requires Inv(s) && Dispatched(s, a)
    ensures Live(s, a) && !s.conns[a].cancelled && ConnInv(s, a) && GlobalInv(s)
    ensures s.conns[a].lock != ByMain
  {
    hide WorkerInv, JobInv;
    ConnFacts(s, a);
  }

  lemma PhaseStep(s: State, a: Addr, phase: Phase)
    requires Inv(s) && Dispatched(s, a) && phase != Reading
    ensures Inv(Put(s, a, s.conns[a].(phase := phase)))
  {
    hide Inv, GlobalInv;
    DispatchedLive(s, a);
    PutInv(s, a, s.conns[a].(phase := phase), Loop);
  }

  lemma AskDnsInv(s: State, a: Addr)
    requires Inv(s) && Dispatched(s, a) && s.conns[a].phase == Reading
    ensures Inv(DoAskDns(s, a)) && DoAskDns(s, a).main == Start(StartLock, a, ToLoop)
  {
    hide Inv, GlobalInv;
    DispatchedLive(s, a);
    assert Put(s, a, s.conns[a]) == s;
    PutInv(s, a, s.conns[a], Start(StartLock, a, ToLoop));
  }

  lemma CloseInv(s: State, a: Addr)
    requires Inv(s) && Dispatched(s, a)
    ensures Inv(At(s, CloseTest(a, ToLoop)))
  {
    hide Inv, GlobalInv;
    DispatchedLive(s, a);
    assert Put(s, a, s.conns[a]) == s;
    PutInv(s, a, s.conns[a], CloseTest(a, ToLoop));
  }

  lemma DirectInv(s: State, a: Addr, fd: Fd, sync: bool)
    requires Inv(s) && Dispatched(s, a) && s.conns[a].phase == Reading && fd !in s.open
    ensures Inv(OpenOrigin(s, a, fd, sync))
  {
    hide ConnInv, WorkerInv, JobInv, GlobalInv;
    DispatchedLive(s, a);
    DialLocal(s, a, fd, sync, Loop);
    assert At(OpenOrigin(s, a, fd, sync), Loop) == OpenOrigin(s, a, fd, sync);
    ChangeInv(s, OpenOrigin(s, a, fd, sync), a);
  }

  lemma TurnInv(s: State, pc': Pc)
    requires Inv(s) && s.main == Loop && pc' in [DrainLock, ShutNext]
    ensures Inv(At(s, pc'))
  {
    hide ConnInv, WorkerInv, JobInv;
    ChangeNone(s, At(s, pc'));
  }

  // A failed origin

  function OriginClosed(s: State, a: Addr): State
    requires a in s.conns && s.conns[a].origin.Some?
  {
    var fd := s.conns[a].origin.value;
    Put(s, a, s.conns[a].(originReg := false, origin := None)).(items := s.items - {fd}, open := s.open - {fd})
  }

  lemma OriginClosedEffect(s: State, a: Addr)
    requires Inv(s) && Dispatched(s, a) && s.conns[a].origin.Some?
    ensures var s1 := Unregister(Put(s, a, s.conns[a].(originReg := false)), s.conns[a].origin.value);
            && a in s1.conns
            && CloseFd(Put(s1, a, s1.conns[a].(origin := None)), s.conns[a].origin.value) == OriginClosed(s, a)
  {
    hide Inv;
    DispatchedLive(s, a);
  }

  lemma OriginClosedLocal(s: State, a: Addr)
    requires Inv(s) && Dispatched(s, a) && s.conns[a].origin.Some?
    ensures var s' := OriginClosed(s, a);
            GlobalInv(s') && ConnInv(s', a) && FdsKept(s, s', a)
  {
    hide Inv, GlobalInv, ConnInv, FdsKept, MainInv;
    DispatchedLive(s, a);
    ConnFacts(s, a);
    OriginClosedGlobal(s, a);
    OriginClosedConn(s, a);
  }

  lemma OriginClosedGlobal(s: State, a: Addr)
    requires a in s.conns && GlobalInv(s) && ConnInv(s, a) && s.main == Loop && s.conns[a].origin.Some?
    ensures GlobalInv(OriginClosed(s, a)) && FdsKept(s, OriginClosed(s, a), a)
  {
    hide RefInv, LockInv, OwnInv;
  }

  lemma OriginClosedConn(s: State, a: Addr)
    requires a in s.conns && GlobalInv(s) && ConnInv(s, a) && s.main == Loop && s.conns[a].origin.Some?
    ensures ConnInv(OriginClosed(s, a), a)
  {
    assert s.conns[a].client.Some? ==> s.conns[a].client.value != s.conns[a].origin.value;
    hide GlobalInv;
  }

  lemma OriginClosedInv(s: State, a: Addr)
    requires Inv(s) && Dispatched(s, a) && s.conns[a].origin.Some?
    ensures Inv(OriginClosed(s, a))
  {
    hide ConnInv, WorkerInv, JobInv, GlobalInv;
    OriginClosedLocal(s, a);
    ChangeInv(s, OriginClosed(s, a), a);
  }

  /** A connection whose origin was just closed, and whose notification was answered, may be dialled for again. */
  lemma RedialInv(s: State, a: Addr, fd: Fd, sync: bool)
    requires Inv(s) && Dispatched(s, a) && s.conns[a].origin.Some? && fd !in OriginClosed(s, a).open
    ensures Inv(OpenOrigin(OriginClosed(s, a), a, fd, sync))
  {
    hide ConnInv, WorkerInv, JobInv, GlobalInv;
    var s1 := OriginClosed(s, a);
    OriginClosedInv(s, a);
    RedialLocal(s, a, fd, sync);
    ChangeInv(s1, OpenOrigin(s1, a, fd, sync), a);
  }

  lemma RedialLocal(s: State, a: Addr, fd: Fd, sync: bool)
    requires Inv(s) && Dispatched(s, a) && s.conns[a].origin.Some? && fd !in OriginClosed(s, a).open
    requires Inv(OriginClosed(s, a))
    ensures var s1 := OriginClosed(s, a);
            var s' := OpenOrigin(s1, a, fd, sync);
            GlobalInv(s') && ConnInv(s', a) && FdsKept(s1, s', a)
  {
    hide Inv, ConnInv, GlobalInv;
    DispatchedLive(s, a);
    DispatchedLive(OriginClosed(s, a), a);
    AnsweredBefore(s, a);
    RedialOwn(OriginClosed(s, a), a, fd, sync);
    RedialGlobal(OriginClosed(s, a), a, fd, sync);
  }

  lemma AnsweredBefore(s: State, a: Addr)
    requires a in s.conns && s.main == Loop && ConnInv(s, a) && s.conns[a].origin.Some?
    ensures !JobShare(s, s.conns[a]) && s.conns[a].phase != Reading
    ensures s.conns[a].worker.Some? ==> s.workers[s.conns[a].worker.value].pushed
  {
  }

  lemma RedialOwn(s: State, a: Addr, fd: Fd, sync: bool)
    requires a in s.conns && s.main == Loop && ConnInv(s, a) && Live(s, a) && s.conns[a].origin.None? && fd !in s.open
    requires !JobShare(s, s.conns[a]) && s.conns[a].phase != Reading
    requires s.conns[a].worker.Some? ==> s.workers[s.conns[a].worker.value].pushed
    ensures ConnInv(OpenOrigin(s, a, fd, sync), a)
  {
  }

  lemma RedialGlobal(s: State, a: Addr, fd: Fd, sync: bool)
    requires a in s.conns && s.main == Loop && GlobalInv(s) && s.conns[a].origin.None? && fd !in s.open
    ensures GlobalInv(OpenOrigin(s, a, fd, sync)) && FdsKept(s, OpenOrigin(s, a, fd, sync), a)
  {
    forall f | f in s.open ensures Owns(OpenOrigin(s, a, fd, sync), s.open[f], f) {
      assert Owns(s, s.open[f], f);
    }
  }

  lemma OriginDownInv(s: State, a: Addr, next: Option<Fd>, sync: bool)
    requires Inv(s) && Dispatched(s, a) && s.conns[a].origin.Some?
    requires next.Some? ==> next.value !in s.open || next == s.conns[a].origin
    ensures Inv(DoOriginDown(s, a, next, sync))
  {
    hide Inv, ConnInv, WorkerInv, JobInv, GlobalInv;
    OriginClosedEffect(s, a);
    OriginClosedInv(s, a);
    var s1 := OriginClosed(s, a);
    if next.Some? {
      RedialInv(s, a, next.value, sync);
    } else {
      PhaseStep(s1, a, Settled);
    }
  }

  // All steps

  lemma MainStep(s: State, ch: Choice)
    requires Inv(s) && Enabled(s, Main(ch))
    ensures Inv(MainNext(s, ch))
  {
    hide ConnInv, WorkerInv, JobInv, GlobalInv;
    match s.main {
      case Loop =>
      case Start(p, a, r) =>
        match p {
          case StartLock => StartLocks(s, a, r, ch);
          case StartLock2 => StartLocks(s, a, r, ch);
          case StartThread => StartThreadInv(s, a, r, ch);
          case _ => StartSections(s, p, a, r, ch);
        }
      case CloseTest(a, r) => CloseTestInv(s, a, r);
      case Closing(p, a, r) =>
        match p {
          case CancelLock => CancelInv(s, p, a, r);
          case CancelSet => CancelInv(s, p, a, r);
          case UnregClient => UnregClientInv(s, a, r);
          case CloseClient => CloseClientInv(s, a, r);
          case UnregOrigin => UnregOriginInv(s, a, r);
          case CloseOrigin => CloseOriginInv(s, a, r);
          case Disown => DisownInv(s, a, r);
        }
      case DrainLock => DrainLockInv(s);
      case DrainNext => DrainNextInv(s);
      case Handle(p, a) =>
        if p.DoneConnect? && ch.Dial? { HandleDial(s, a, ch); } else { HandleInv(s, p, a, ch); }
      case Clean => CleanInv(s, DrainNext);
      case ShutNext => ShutNextInv(s);
      case Shutting(p, a) => if p.ShutPop? { ShutPopInv(s, a); } else { ShutInv(s, p, a); }
      case Destroy => DestroyInv(s);
      case DestroyDrain => DestroyDrainInv(s);
      case Over =>
    }
  }

  lemma HandleDial(s: State, a: Addr, ch: Choice)
    requires Inv(s) && a in s.conns && s.main == Handle(DoneConnect, a) && ch.Dial? && ch.fd !in s.open
    ensures Inv(DoneAt(s, DoneConnect, a, ch))
  {
    hide ConnInv, WorkerInv, JobInv, GlobalInv;
    JobResolved(s, a);
    DialInv(s, a, ch.fd, ch.sync);
  }

  lemma StepInv(s: State, t: Step)
    requires Inv(s) && Enabled(s, t)
    ensures Inv(Next(s, t))
  {
    hide Inv, ConnInv, WorkerInv, JobInv, GlobalInv;
    match t {
      case Accept(a, fd) => AcceptInv(s, a, fd);
      case AskDns(a) => AskDnsInv(s, a);
      case Direct(a, fd, sync) => DirectInv(s, a, fd, sync);
      case Refuse(a) => PhaseStep(s, a, Settled);
      case OriginUp(a) => PhaseStep(s, a, Settled);
      case OriginDown(a, next, sync) => OriginDownInv(s, a, next, sync);
      case Close(a) => CloseInv(s, a);
      case Drain => TurnInv(s, DrainLock);
      case Shutdown => TurnInv(s, ShutNext);
      case Main(ch) => MainStep(s, ch);
      case Work(i, ok) => WorkInv(s, i, ok);
    }
  }
}
