/** What every interleaving of the main thread and any number of workers guarantees. */
module LifecycleTheorems {
  import opened Bytes
  import opened Lifecycle
  import opened LifecycleInv
  import opened LifecycleSteps
  import opened LifecycleWork

  lemma {:induction false} RunInv(s: State, ts: seq<Step>)
    requires Inv(s) && Run(s, ts)
    ensures Inv(After(s, ts))
    decreases |ts|
  {
    hide Inv;
    if ts != [] {
      StepInv(s, ts[0]);
      RunInv(Next(s, ts[0]), ts[1..]);
    }
  }

  lemma ReachableInv(s: State)
    requires Reachable(s)
    ensures Inv(s)
  {
    var ts :| Run(Init, ts) && After(Init, ts) == s;
    InitInv();
    RunInv(Init, ts);
  }

  /**
   * No step touches a freed connection or a destroyed selector, releases a
   * reference that is not there, frees a locked connection, or closes a
   * descriptor twice or while it is registered.
   */
  lemma NoFault(s: State)
    requires Reachable(s)
    ensures !s.fault
  {
    hide ConnInv, WorkerInv, JobInv, MainInv;
    ReachableInv(s);
  }

  /**
   * A notification reaches its handler exactly when its connection is still
   * registered and nobody has begun to close it, and then it is that
   * connection's; otherwise it is only cleaned up.
   */
  lemma HandledExactly(s: State)
    requires Reachable(s) && s.main == DrainNext && s.cursor < |s.jobs|
    ensures var a := s.jobs[s.cursor].data;
            DrainNextAt(s).main == if Live(s, a) then Handle(DoneLock, a) else Clean
  {
    ReachableInv(s);
    hide Inv;
    if Live(s, s.jobs[s.cursor].data) { OpenIsHandled(s); } else { DrainTarget(s); }
  }

  // References

  /** The workers that hold a reference to `a`, and the notifications that do. */
  ghost function Holders(s: State, a: Addr): set<nat> {
    set i: nat | i < |s.workers| && s.workers[i].conn == a && HoldsRef(s.workers[i].pc)
  }

  ghost function Notifications(s: State, a: Addr): set<nat> {
    set k: nat | s.cursor <= k < |s.jobs| && s.jobs[k].data == a
  }

  lemma HoldersAre(s: State, a: Addr)
    requires Inv(s) && a in s.conns
    ensures |Holders(s, a)| == One(WorkerShare(s, s.conns[a]))
  {
    hide JobInv;
    ConnFacts(s, a);
    forall i | i in Holders(s, a) ensures s.conns[a].worker == Some(i) {
      assert WorkerInv(s, i);
    }
    hide Inv;
    var c := s.conns[a];
    if WorkerShare(s, c) {
      assert Holders(s, a) == {c.worker.value};
    } else {
      assert Holders(s, a) == {};
    }
  }

  lemma NotificationsAre(s: State, a: Addr)
    requires Inv(s) && a in s.conns
    ensures |Notifications(s, a)| == One(JobShare(s, s.conns[a]))
  {
    ConnFacts(s, a);
    hide ConnInv;
    var c := s.conns[a];
    forall k | k in Notifications(s, a) ensures JobShare(s, c) && c.worker == Some(s.jobs[k].w) {
      assert JobInv(s, k);
      assert WorkerInv(s, s.jobs[k].w);
    }
    if JobShare(s, c) {
      OwnWorker(s, a);
      assert WorkerInv(s, c.worker.value);
      var k :| s.cursor <= k < |s.jobs| && s.jobs[k].w == c.worker.value;
      assert JobInv(s, k);
      assert Notifications(s, a) == {k};
    } else {
      assert Notifications(s, a) == {};
    }
  }

  lemma OwnWorker(s: State, a: Addr)
    requires a in s.conns && ConnInv(s, a) && s.conns[a].worker.Some?
    ensures s.conns[a].worker.value < |s.workers| && s.workers[s.conns[a].worker.value].conn == a
  {
  }

  /**
   * The reference count of a live connection is exactly the owner's share, one
   * for each worker that holds it and one for each notification still queued,
   * plus the one in the main thread's hands while it creates a worker.
   */
  lemma ReferencesAreShares(s: State, a: Addr)
    requires Reachable(s) && a in s.conns
    ensures s.conns[a].refs
            == One(s.conns[a].owned) + |Holders(s, a)| + |Notifications(s, a)| + One(MainShare(s, a))
    ensures s.conns[a].refs > 0
  {
    hide Inv, FdInv, LockInv, PhaseInv, OwnInv;
    ReachableInv(s);
    HoldersAre(s, a);
    NotificationsAre(s, a);
    ConnFacts(s, a);
  }

  /** A connection never starts a second resolution. */
  lemma StartsOnce(s: State)
    requires Reachable(s) && s.main.Start?
    ensures s.main.a in s.conns && s.conns[s.main.a].worker.None? && Holders(s, s.main.a) == {}
  {
    hide WorkerInv, JobInv;
    ReachableInv(s);
    var a := s.main.a;
    ConnFacts(s, a);
    HoldersAre(s, a);
    assert s.conns[a].worker.None?;
  }

  // Waiting

  datatype Thread = MainThread | WorkThread(i: nat)

  datatype Mutex = Dns(a: Addr) | Resolution

  function Wants(s: State, t: Thread): Option<Mutex> {
    match t
    case MainThread =>
      if s.main == DrainLock then Some(Resolution)
      else if MainWants(s.main).Some? then Some(Dns(MainWants(s.main).value)) else None
    case WorkThread(i) =>
      if i >= |s.workers| then None
      else if s.workers[i].pc == Resolving then Some(Dns(s.workers[i].conn))
      else if s.workers[i].pc == WantRes then Some(Resolution)
      else None
  }

  function HolderOf(s: State, m: Mutex): Holder {
    match m
    case Resolution => s.res
    case Dns(a) => if a in s.conns then s.conns[a].lock else Free
  }

  function AsHolder(t: Thread): Holder {
    match t case MainThread => ByMain case WorkThread(i) => ByWorker(i)
  }

  /** `t` waits for a mutex that `u` holds. */
  predicate WaitsFor(s: State, t: Thread, u: Thread) {
    Wants(s, t).Some? && HolderOf(s, Wants(s, t).value) == AsHolder(u)
  }

  /** A holder of resolution_mutex is a worker that waits for nothing, or the main thread. */
  lemma ResolutionHolder(s: State, i: nat)
    requires Inv(s) && s.res == ByWorker(i)
    ensures Wants(s, WorkThread(i)).None?
  {
    hide ConnInv, JobInv;
    assert WorkerInv(s, i);
  }

  /** A worker that waits for a dns_mutex waits for the main thread alone, and not while that thread waits. */
  lemma DnsHolder(s: State, t: Thread, a: Addr, u: Thread)
    requires Inv(s) && Wants(s, t) == Some(Dns(a)) && WaitsFor(s, t, u)
    ensures u.MainThread? ==> Wants(s, u).None?
    ensures u.WorkThread? && t.WorkThread? ==> u == t
    ensures u.WorkThread? && t.MainThread? ==> u.i < |s.workers| && s.conns[a].worker == Some(u.i)
  {
    hide JobInv, Inv, GlobalInv;
    ConnFacts(s, a);
    if t.WorkThread? {
      WorkerFacts(s, t.i);
    }
  }

  lemma OwnLockIsNotWaited(s: State, i: nat, u: Thread)
    requires Inv(s) && WaitsFor(s, WorkThread(i), u)
    ensures u != WorkThread(i)
  {
    hide ConnInv, JobInv;
    WorkerFacts(s, i);
    if u == WorkThread(i) && s.workers[i].pc == Resolving { LockPc(s, i); }
  }

  lemma LockPc(s: State, i: nat)
    requires Inv(s) && i < |s.workers| && s.workers[i].conn in s.conns && s.conns[s.workers[i].conn].lock == ByWorker(i)
    ensures HoldsLock(s.workers[i].pc)
  {
    hide WorkerInv, JobInv;
    ConnFacts(s, s.workers[i].conn);
  }

  /** While the main thread goes through the notifications it waits only for workers that queued theirs already. */
  lemma DrainWaitsForDone(s: State, i: nat)
    requires Inv(s) && MainHoldsRes(s.main) && WaitsFor(s, MainThread, WorkThread(i))
    ensures Wants(s, WorkThread(i)).None?
  {
    hide ConnInv;
    var a := MainWants(s.main).value;
    DnsHolder(s, MainThread, a, WorkThread(i));
    assert AtJob(s, a);
    JobResolved(s, a);
    assert WorkerInv(s, i);
  }

  /** Following who waits for whom, the third thread at the latest is not waiting. */
  lemma WaitsEnd(s: State, t: Thread, u: Thread, v: Thread)
    requires Inv(s) && WaitsFor(s, t, u) && WaitsFor(s, u, v)
    ensures Wants(s, v).None?
  {
    hide Inv;
    match Wants(s, t).value {
      case Dns(a) =>
        DnsHolder(s, t, a, u);
        if t.WorkThread? { OwnLockIsNotWaited(s, t.i, u); }
        match Wants(s, u).value {
          case Dns(b) => HolderHasLock(s, a, u);
          case Resolution => WorkerWaits(s, t, u, v);
        }
      case Resolution =>
        if u.WorkThread? {
          ResolutionHolder(s, u.i);
        } else {
          MainInDrain(s, u, v);
        }
    }
  }

  lemma HolderHasLock(s: State, a: Addr, u: Thread)
    requires Inv(s) && a in s.conns && u.WorkThread? && s.conns[a].lock == ByWorker(u.i)
    ensures u.i < |s.workers| && HoldsLock(s.workers[u.i].pc) && s.workers[u.i].conn == a
  {
    hide WorkerInv, JobInv;
    ConnFacts(s, a);
  }

  lemma WorkerWaits(s: State, t: Thread, u: Thread, v: Thread)
    requires Inv(s) && t.MainThread? && u.WorkThread? && WaitsFor(s, t, u) && WaitsFor(s, u, v)
    requires Wants(s, u) == Some(Resolution)
    ensures Wants(s, v).None?
  {
    hide ConnInv, WorkerInv, JobInv;
    if v.WorkThread? {
      ResolutionHolder(s, v.i);
    } else {
      DrainWaitsForDone(s, u.i);
    }
  }

  lemma MainInDrain(s: State, u: Thread, v: Thread)
    requires Inv(s) && u.MainThread? && s.res == ByMain && WaitsFor(s, u, v)
    ensures Wants(s, v).None?
  {
    hide ConnInv, WorkerInv, JobInv;
    var a := MainWants(s.main).value;
    DnsHolder(s, u, a, v);
    if v.WorkThread? { DrainWaitsForDone(s, v.i); }
  }

  predicate WaitCycle(s: State, ts: seq<Thread>) {
    ts != [] && forall i {:trigger ts[i]} :: 0 <= i < |ts| ==> WaitsFor(s, ts[i], ts[(i + 1) % |ts|])
  }

  lemma NextInCycle(s: State, ts: seq<Thread>, i: nat) returns (j: nat)
    requires WaitCycle(s, ts) && (i == 0 || i < |ts|)
    ensures i < |ts| && j < |ts| && WaitsFor(s, ts[i], ts[j])
  {
    j := (i + 1) % |ts|;
    assert WaitsFor(s, ts[i], ts[j]);
  }

  /** No reachable state is a deadlock: threads never wait for one another in a circle. */
  lemma NoDeadlock(s: State, ts: seq<Thread>)
    requires Reachable(s)
    ensures !WaitCycle(s, ts)
  {
    hide Inv, WaitCycle;
    ReachableInv(s);
    if WaitCycle(s, ts) {
      var j := NextInCycle(s, ts, 0);
      var k := NextInCycle(s, ts, j);
      var l := NextInCycle(s, ts, k);
      WaitsEnd(s, ts[0], ts[j], ts[k]);
    }
  }

  /** As long as the main thread is inside a section or a worker is alive, one of them can take its next step. */
  lemma SomeoneMoves(s: State) returns (t: Step)
    requires Reachable(s)
    requires (s.main != Loop && s.main != Over) || exists i :: 0 <= i < |s.workers| && s.workers[i].pc != Done
    ensures (t.Main? || t.Work?) && Enabled(s, t)
  {
    hide Inv;
    ReachableInv(s);
    if s.main != Loop && s.main != Over && Wants(s, MainThread).None? {
      t := Main(Plain);
    } else if s.main != Loop && s.main != Over {
      t := Unblocked(s, MainThread);
    } else {
      var i :| 0 <= i < |s.workers| && s.workers[i].pc != Done;
      t := Unblocked(s, WorkThread(i));
    }
  }

  predicate Running(s: State, t: Thread) {
    match t
    case MainThread => s.main != Loop && s.main != Over
    case WorkThread(i) => i < |s.workers| && s.workers[i].pc != Done
  }

  function StepOf(t: Thread): Step {
    match t case MainThread => Main(Plain) case WorkThread(i) => Work(i, true)
  }

  lemma NotHeldUp(s: State, t: Thread)
    requires Running(s, t)
    requires Wants(s, t).Some? ==> HolderOf(s, Wants(s, t).value) == Free
    ensures Enabled(s, StepOf(t))
  {
  }

  /** The holder of a mutex is a running thread. */
  lemma HolderRuns(s: State, t: Thread, u: Thread)
    requires Inv(s) && WaitsFor(s, t, u)
    ensures Running(s, u)
  {
    hide ConnInv, JobInv;
    match Wants(s, t).value {
      case Resolution => if u.WorkThread? { assert WorkerInv(s, u.i); }
      case Dns(a) => DnsHolderRuns(s, a, u);
    }
  }

  lemma DnsHolderRuns(s: State, a: Addr, u: Thread)
    requires Inv(s) && HolderOf(s, Dns(a)) == AsHolder(u)
    ensures Running(s, u)
  {
    hide WorkerInv, JobInv;
    ConnFacts(s, a);
  }

  function ThreadOf(h: Holder): Thread
    requires h != Free
  {
    match h case ByMain => MainThread case ByWorker(i) => WorkThread(i)
  }

  /** Following the chain of waiting threads from a running one leads to one that can move. */
  lemma Unblocked(s: State, t: Thread) returns (m: Step)
    requires Inv(s) && Running(s, t)
    ensures (m.Main? || m.Work?) && Enabled(s, m)
  {
    hide Inv;
    m := StepOf(t);
    if Wants(s, t).None? || HolderOf(s, Wants(s, t).value) == Free {
      NotHeldUp(s, t);
      return;
    }
    var u := ThreadOf(HolderOf(s, Wants(s, t).value));
    HolderRuns(s, t, u);
    m := StepOf(u);
    if Wants(s, u).None? || HolderOf(s, Wants(s, u).value) == Free {
      NotHeldUp(s, u);
      return;
    }
    var v := ThreadOf(HolderOf(s, Wants(s, u).value));
    HolderRuns(s, u, v);
    WaitsEnd(s, t, u, v);
    m := StepOf(v);
    NotHeldUp(s, v);
  }

  // Cancellation

  /** Cancellation of `a` and the end of worker `i` are final. */
  predicate Onwards(s: State, s': State, a: Addr, i: nat) {
    && (a in s.conns && a in s'.conns && s.conns[a].cancelled ==> s'.conns[a].cancelled)
    && (i < |s.workers| ==>
          && i < |s'.workers| && s'.workers[i].conn == s.workers[i].conn
          && (s.workers[i].pc == Done ==> s'.workers[i].pc == Done))
  }

  lemma OnwardsUnregister(s: State, s1: State, fd: Fd, a: Addr, i: nat)
    requires Onwards(s, s1, a, i)
    ensures Onwards(s, Unregister(s1, fd), a, i)
  {
  }

  lemma OnwardsRelease(s: State, s1: State, x: Addr, a: Addr, i: nat)
    requires Onwards(s, s1, a, i)
    ensures Onwards(s, Release(s1, x), a, i)
  {
  }

  lemma OnwardsCloseFd(s: State, s1: State, fd: Fd, a: Addr, i: nat)
    requires Onwards(s, s1, a, i)
    ensures Onwards(s, CloseFd(s1, fd), a, i)
  {
  }

  lemma OnwardsPut(s: State, x: Addr, c: Conn, a: Addr, i: nat)
    requires x in s.conns && (s.conns[x].cancelled ==> c.cancelled)
    ensures Onwards(s, Put(s, x, c), a, i)
  {
  }

  lemma OnwardsAt(s: State, s1: State, pc: Pc, a: Addr, i: nat)
    requires Onwards(s, s1, a, i)
    ensures Onwards(s, At(s1, pc), a, i)
  {
  }

  lemma OnwardsNone(s: State, a: Addr, i: nat)
    ensures Onwards(s, s, a, i)
  {
  }

  lemma OnwardsClose(s: State, p: ClosePt, x: Addr, r: Ret, a: Addr, i: nat)
    requires x in s.conns
    ensures Onwards(s, CloseAt(s, p, x, r), a, i)
  {
    hide Unregister, Release, CloseFd, Onwards, Put;
    var c := s.conns[x];
    OnwardsNone(s, a, i);
    match p {
      case CancelLock =>
        OnwardsPut(s, x, c.(lock := ByMain), a, i);
        OnwardsAt(s, LockFor(s, x, ByMain), Closing(CancelSet, x, r), a, i);
      case CancelSet =>
        OnwardsPut(s, x, c.(cancelled := true, lock := Free), a, i);
        OnwardsAt(s, Put(s, x, c.(cancelled := true, lock := Free)), Closing(UnregClient, x, r), a, i);
      case UnregClient =>
        OnwardsPut(s, x, c.(clientReg := false), a, i);
        if c.client.Some? { OnwardsUnregister(s, Put(s, x, c.(clientReg := false)), c.client.value, a, i); }
        var s1 := if c.clientReg && c.client.Some? then Unregister(Put(s, x, c.(clientReg := false)), c.client.value) else s;
        OnwardsAt(s, s1, Closing(CloseClient, x, r), a, i);
      case CloseClient =>
        OnwardsPut(s, x, c.(client := None), a, i);
        if c.client.Some? { OnwardsCloseFd(s, Put(s, x, c.(client := None)), c.client.value, a, i); }
        var s1 := if c.client.Some? then CloseFd(Put(s, x, c.(client := None)), c.client.value) else s;
        OnwardsAt(s, s1, Closing(UnregOrigin, x, r), a, i);
      case UnregOrigin =>
        OnwardsPut(s, x, c.(originReg := false), a, i);
        if c.origin.Some? { OnwardsUnregister(s, Put(s, x, c.(originReg := false)), c.origin.value, a, i); }
        var s1 := if c.originReg && c.origin.Some? then Unregister(Put(s, x, c.(originReg := false)), c.origin.value) else s;
        OnwardsAt(s, s1, Closing(CloseOrigin, x, r), a, i);
      case CloseOrigin =>
        OnwardsPut(s, x, c.(origin := None), a, i);
        if c.origin.Some? { OnwardsCloseFd(s, Put(s, x, c.(origin := None)), c.origin.value, a, i); }
        var s1 := if c.origin.Some? then CloseFd(Put(s, x, c.(origin := None)), c.origin.value) else s;
        OnwardsAt(s, s1, Closing(Disown, x, r), a, i);
      case Disown =>
        OnwardsPut(s, x, c.(owned := false), a, i);
        OnwardsRelease(s, Put(s, x, c.(owned := false)), x, a, i);
        var s1 := Release(Put(s, x, c.(owned := false)), x);
        OnwardsAt(s, s1, match r case ToLoop => Loop case ToClean => Clean case ToShut => Shutting(ShutPop, x), a, i);
    }
  }

  lemma OnwardsStart(s: State, p: StartPt, x: Addr, r: Ret, ch: Choice, a: Addr, i: nat)
    requires x in s.conns
    ensures Onwards(s, StartAt(s, p, x, r, ch), a, i)
  {
  }

  lemma OnwardsDone(s: State, p: DonePt, x: Addr, ch: Choice, a: Addr, i: nat)
    requires x in s.conns
    ensures Onwards(s, DoneAt(s, p, x, ch), a, i)
  {
  }

  lemma OnwardsClean(s: State, next: Pc, a: Addr, i: nat)
    ensures Onwards(s, CleanJob(s, next), a, i)
  {
    hide Release;
    if s.cursor < |s.jobs| {
      var s1 := Release(s, s.jobs[s.cursor].data);
      OnwardsRelease(s, s, s.jobs[s.cursor].data, a, i);
      ReleaseKeepsWorkers(s, s.jobs[s.cursor].data);
      assert At(s1, next).(cursor := s.cursor + 1).conns == s1.conns;
    }
  }

  lemma ReleaseKeepsWorkers(s: State, x: Addr)
    ensures Release(s, x).workers == s.workers
  {
  }

  lemma OnwardsShut(s: State, p: ShutPt, x: Addr, a: Addr, i: nat)
    requires x in s.conns
    ensures Onwards(s, ShutAt(s, p, x), a, i)
  {
  }

  lemma OnwardsMain(s: State, ch: Choice, a: Addr, i: nat)
    ensures Onwards(s, MainNext(s, ch), a, i)
  {
    hide StartAt, CloseAt, DoneAt, CleanJob, ShutAt, DrainNextAt, Return, Put, Onwards;
    OnwardsNone(s, a, i);
    OnwardsSame(s, MainNext(s, ch), a, i);
    match s.main {
      case Start(p, x, r) => if x in s.conns { OnwardsStart(s, p, x, r, ch, a, i); }
      case Closing(p, x, r) => if x in s.conns { OnwardsClose(s, p, x, r, a, i); }
      case Handle(p, x) => if x in s.conns { OnwardsDone(s, p, x, ch, a, i); }
      case Shutting(p, x) => if x in s.conns { OnwardsShut(s, p, x, a, i); }
      case Clean => OnwardsClean(s, DrainNext, a, i);
      case DestroyDrain => OnwardsClean(s, DestroyDrain, a, i);
      case DrainNext => OnwardsDrain(s, a, i);
      case CloseTest(x, r) => OnwardsTest(s, ch, a, i);
      case _ =>
    }
  }

  lemma OnwardsSame(s: State, s': State, a: Addr, i: nat)
    ensures s'.conns == s.conns && s'.workers == s.workers ==> Onwards(s, s', a, i)
  {
  }

  lemma OnwardsTest(s: State, ch: Choice, a: Addr, i: nat)
    requires s.main.CloseTest?
    ensures Onwards(s, MainNext(s, ch), a, i)
  {
  }

  lemma OnwardsDrain(s: State, a: Addr, i: nat)
    ensures Onwards(s, DrainNextAt(s), a, i)
  {
  }

  lemma OnwardsWork(s: State, j: nat, ok: bool, a: Addr, i: nat)
    requires j < |s.workers|
    ensures Onwards(s, WorkNext(s, j, ok), a, i)
    ensures WorkNext(s, j, ok).main == s.main && WorkNext(s, j, ok).pool == s.pool
  {
    hide WorkOn, WorkSelector;
    if s.workers[j].pc != Done {
      if s.workers[j].conn in s.conns { OnwardsOnConn(s, j, ok, a, i); }
      OnwardsSelector(s, j, a, i);
    }
  }

  lemma OnwardsOnConn(s: State, j: nat, ok: bool, a: Addr, i: nat)
    requires j < |s.workers| && s.workers[j].conn in s.conns && s.workers[j].pc != Done
    ensures Onwards(s, WorkOn(s, j, ok), a, i)
    ensures WorkOn(s, j, ok).main == s.main && WorkOn(s, j, ok).pool == s.pool
  {
  }

  lemma OnwardsSelector(s: State, j: nat, a: Addr, i: nat)
    requires j < |s.workers| && s.workers[j].pc != Done
    ensures Onwards(s, WorkSelector(s, j), a, i)
    ensures WorkSelector(s, j).main == s.main && WorkSelector(s, j).pool == s.pool
  {
  }

  lemma OnwardsOrigin(s: State, x: Addr, next: Option<Fd>, sync: bool, a: Addr, i: nat)
    requires x in s.conns && s.conns[x].origin.Some?
    ensures Onwards(s, DoOriginDown(s, x, next, sync), a, i)
  {
    hide Unregister, CloseFd, OpenOrigin, Put, Onwards;
    var fd := s.conns[x].origin.value;
    OnwardsPut(s, x, s.conns[x].(originReg := false), a, i);
    OnwardsUnregister(s, Put(s, x, s.conns[x].(originReg := false)), fd, a, i);
    var s1 := Unregister(Put(s, x, s.conns[x].(originReg := false)), fd);
    OnwardsFault(s, s1, a, i);
    if x in s1.conns {
      OnwardsAfter(s, s1, x, s1.conns[x].(origin := None), a, i);
      var s2 := CloseFd(Put(s1, x, s1.conns[x].(origin := None)), fd);
      OnwardsCloseFd(s, Put(s1, x, s1.conns[x].(origin := None)), fd, a, i);
      OnwardsFault(s, s2, a, i);
      if x in s2.conns {
        OnwardsAfter(s, s2, x, s2.conns[x].(phase := Settled), a, i);
        if next.Some? { OnwardsOpen(s, s2, x, next.value, sync, a, i); }
      }
    }
  }

  lemma OnwardsFault(s: State, s1: State, a: Addr, i: nat)
    requires Onwards(s, s1, a, i)
    ensures Onwards(s, Fault(s1), a, i)
  {
  }

  lemma OnwardsAfter(s: State, s1: State, x: Addr, c: Conn, a: Addr, i: nat)
    requires Onwards(s, s1, a, i) && x in s1.conns && (s1.conns[x].cancelled ==> c.cancelled)
    ensures Onwards(s, Put(s1, x, c), a, i)
  {
  }

  lemma OnwardsOpen(s: State, s1: State, x: Addr, fd: Fd, sync: bool, a: Addr, i: nat)
    requires Onwards(s, s1, a, i) && x in s1.conns
    ensures Onwards(s, OpenOrigin(s1, x, fd, sync), a, i)
  {
  }

  lemma OnwardsStep(s: State, t: Step, a: Addr, i: nat)
    requires Enabled(s, t)
    ensures Onwards(s, Next(s, t), a, i)
  {
    hide MainNext, WorkNext, DoOriginDown;
    match t {
      case Main(ch) => OnwardsMain(s, ch, a, i);
      case Work(j, ok) => OnwardsWork(s, j, ok, a, i);
      case OriginDown(x, next, sync) => OnwardsOrigin(s, x, next, sync, a, i);
      case _ =>
    }
  }

  /** Worker `i` has nothing more to do with the selector. */
  ghost predicate Silenced(s: State, i: nat) {
    && i < |s.workers|
    && (s.workers[i].pc != Done ==> s.workers[i].conn in s.conns && s.conns[s.workers[i].conn].cancelled)
  }

  lemma SilencedIs(s: State, i: nat)
    requires Inv(s) && Silenced(s, i)
    ensures !UsesSelector(s.workers[i].pc)
  {
    hide ConnInv, JobInv;
    assert WorkerInv(s, i);
  }

  lemma SilencedStays(s: State, t: Step, i: nat)
    requires Inv(s) && Enabled(s, t) && Silenced(s, i)
    ensures Silenced(Next(s, t), i)
  {
    hide Inv, Next;
    OnwardsStep(s, t, s.workers[i].conn, i);
    StepInv(s, t);
    WorkerFacts(s, i);
    WorkerFacts(Next(s, t), i);
  }

  lemma {:induction false} SilencedRun(s: State, ts: seq<Step>, i: nat)
    requires Inv(s) && Run(s, ts) && Silenced(s, i)
    ensures i < |After(s, ts).workers| && !UsesSelector(After(s, ts).workers[i].pc)
    decreases |ts|
  {
    hide Inv, Next;
    if ts == [] {
      SilencedIs(s, i);
    } else {
      StepInv(s, ts[0]);
      SilencedStays(s, ts[0], i);
      SilencedRun(Next(s, ts[0]), ts[1..], i);
    }
  }

  /**
   * Once the cancellation of a connection has been recorded, the worker it
   * started never touches the selector again, whatever happens next.
   */
  lemma CancelledWorkerIsSilent(s: State, ts: seq<Step>, a: Addr)
    requires Reachable(s) && Run(s, ts) && a in s.conns && s.conns[a].cancelled && s.conns[a].worker.Some?
    ensures var i := s.conns[a].worker.value;
            && i < |s.workers| && s.workers[i].conn == a
            && i < |After(s, ts).workers| && !UsesSelector(After(s, ts).workers[i].pc)
  {
    hide Inv;
    ReachableInv(s);
    ConnFacts(s, a);
    OwnWorker(s, a);
    SilencedRun(s, ts, s.conns[a].worker.value);
  }

  // Notifications and the end

  /** A queued notification is cleaned up at most once, and exactly once by the time the program ends. */
  lemma CleanedOnce(s: State, i: nat)
    requires Reachable(s) && i < |s.workers|
    ensures s.workers[i].cleaned <= One(s.workers[i].pushed)
    ensures s.main == Over ==> s.workers[i].cleaned == One(s.workers[i].pushed)
  {
    hide ConnInv, JobInv;
    ReachableInv(s);
    assert WorkerInv(s, i);
    if s.main == Over { NoJobs(s); }
  }

  /** Nothing is queued any more when selector_destroy has returned. */
  lemma NoJobs(s: State)
    requires Reachable(s) && s.main == Over
    ensures s.jobs == []
  {
    hide ConnInv, WorkerInv, JobInv;
    ReachableInv(s);
  }

  /** Nothing leaks: after the end, once the workers are done, every connection is freed and every descriptor closed. */
  lemma NothingLeaks(s: State)
    requires Reachable(s) && s.main == Over && forall i :: 0 <= i < |s.workers| ==> s.workers[i].pc == Done
    ensures s.conns == map[] && s.open == map[] && s.items == map[] && s.pool == [] && s.current == 0
  {
    hide ConnInv, WorkerInv, JobInv;
    ReachableInv(s);
    NothingOpen(s);
    if a :| a in s.conns {
      NoneOwned(s, a);
      ReferencesAreShares(s, a);
      NoShares(s, a);
      assert false;
    }
  }

  lemma NoShares(s: State, a: Addr)
    requires Reachable(s) && s.main == Over && forall i :: 0 <= i < |s.workers| ==> s.workers[i].pc == Done
    ensures Holders(s, a) == {} && Notifications(s, a) == {}
  {
    hide Inv;
    NoJobs(s);
  }

  // The ledger

  /**
   * The pool holds each registered connection once and nothing else, the metric
   * is its size, every connection in it has its own open registered descriptor,
   * and every open descriptor belongs to exactly one live connection.
   */
  lemma LedgerAgrees(s: State)
    requires Reachable(s)
    ensures s.current == |s.pool|
    ensures forall i, j :: 0 <= i < j < |s.pool| ==> s.pool[i] != s.pool[j]
    ensures forall a :: a in s.pool <==> a in s.conns && s.conns[a].clientReg
    ensures forall a :: a in s.pool ==>
              s.conns[a].client.Some? && s.conns[a].client.value in s.items && s.items[s.conns[a].client.value] == Item(a, Client)
    ensures forall fd :: fd in s.items ==> fd in s.open && s.open[fd] == s.items[fd]
    ensures forall fd :: fd in s.open ==> Owns(s, s.open[fd], fd)
  {
    hide WorkerInv, JobInv;
    ReachableInv(s);
    forall a ensures a in s.pool <==> a in s.conns && s.conns[a].clientReg {
      if a in s.conns { ConnFacts(s, a); }
    }
    forall a | a in s.pool
      ensures s.conns[a].client.Some? && s.conns[a].client.value in s.items
              && s.items[s.conns[a].client.value] == Item(a, Client)
    {
      ConnFacts(s, a);
    }
  }

  // Forced shutdown

  /** Inside socksv5_pool_force_shutdown. */
  predicate InShutdown(pc: Pc) {
    match pc
    case ShutNext => true
    case Shutting(_, _) => true
    case CloseTest(_, r) => r == ToShut
    case Closing(_, _, r) => r == ToShut
    case _ => false
  }

  /** Sections of the main thread left, at most, before the pool is found empty. */
  function ShutdownLeft(s: State): int
    requires InShutdown(s.main)
  {
    13 * |s.pool| +
    match s.main
    case ShutNext => 1
    case Shutting(ShutLock, _) => 0
    case Shutting(ShutSet, _) => -1
    case Shutting(ShutPop, _) => 2
    case CloseTest(_, _) => -2
    case Closing(CancelLock, _, _) => -3
    case Closing(CancelSet, _, _) => -4
    case Closing(UnregClient, _, _) => -5
    case Closing(CloseClient, _, _) => 7
    case Closing(UnregOrigin, _, _) => 6
    case Closing(CloseOrigin, _, _) => 5
    case Closing(Disown, _, _) => 4
  }

  lemma ShutdownClose(s: State, a: Addr, r: Ret)
    requires Inv(s) && s.main == Closing(UnregClient, a, r)
    ensures a in s.pool && |CloseAt(s, UnregClient, a, r).pool| == |s.pool| - 1
    ensures CloseAt(s, UnregClient, a, r).main == Closing(CloseClient, a, r)
  {
    UnregClientEffect(s, a, r);
    hide ConnInv, WorkerInv, JobInv;
    WithoutSpec(s.pool, a);
  }

  /**
   * Forced shutdown terminates: each section of the main thread brings it closer
   * to finding the pool empty, and the workers cannot push it back.
   */
  lemma ShutdownTerminates(s: State, t: Step)
    requires Reachable(s) && InShutdown(s.main) && Enabled(s, t)
    ensures ShutdownLeft(s) > 0
    ensures t.Work? ==> InShutdown(Next(s, t).main) && ShutdownLeft(Next(s, t)) == ShutdownLeft(s)
    ensures t.Main? ==> if s.main == ShutNext && s.pool == [] then Next(s, t).main == Destroy
                        else InShutdown(Next(s, t).main) && ShutdownLeft(Next(s, t)) < ShutdownLeft(s)
  {
    hide Inv, WorkNext, MainNext;
    ReachableInv(s);
    PoolNonempty(s);
    match t {
      case Main(ch) => ShutdownSection(s, ch);
      case Work(i, ok) => OnwardsWork(s, i, ok, 0, 0);
      case _ =>
    }
  }

  lemma PoolNonempty(s: State)
    requires Inv(s) && InShutdown(s.main)
    ensures ShutdownLeft(s) > 0
  {
    hide WorkerInv, JobInv;
    if s.main != ShutNext && s.main.a in s.conns { ConnFacts(s, s.main.a); }
  }

  lemma ShutdownSection(s: State, ch: Choice)
    requires Inv(s) && InShutdown(s.main) && !MainBlocked(s)
    ensures if s.main == ShutNext && s.pool == [] then MainNext(s, ch).main == Destroy
            else InShutdown(MainNext(s, ch).main) && ShutdownLeft(MainNext(s, ch)) < ShutdownLeft(s)
  {
    hide ConnInv, WorkerInv, JobInv, ShutAt, CloseAt;
    match s.main {
      case Closing(p, a, r) => ShutdownClosing(s, p, a, r);
      case ShutNext =>
      case CloseTest(a, r) =>
      case Shutting(p, a) => ShutdownShutting(s, p, a, ch);
      case _ =>
    }
  }

  lemma ShutdownClosing(s: State, p: ClosePt, a: Addr, r: Ret)
    requires Inv(s) && InShutdown(s.main) && s.main == Closing(p, a, r)
    ensures a in s.conns && var s' := CloseAt(s, p, a, r); InShutdown(s'.main) && ShutdownLeft(s') < ShutdownLeft(s)
  {
    hide ConnInv, WorkerInv, JobInv, GlobalInv, Unregister, Release, CloseFd;
    if p.UnregClient? { ShutdownClose(s, a, r); } else { ClosingKeepsPool(s, p, a, r); }
    ClosingNext(s, p, a, r);
  }

  /** Where each section of a close leads. */
  lemma ClosingNext(s: State, p: ClosePt, a: Addr, r: Ret)
    requires a in s.conns
    ensures CloseAt(s, p, a, r).main ==
            match p
            case CancelLock => Closing(CancelSet, a, r)
            case CancelSet => Closing(UnregClient, a, r)
            case UnregClient => Closing(CloseClient, a, r)
            case CloseClient => Closing(UnregOrigin, a, r)
            case UnregOrigin => Closing(CloseOrigin, a, r)
            case CloseOrigin => Closing(Disown, a, r)
            case Disown => match r case ToLoop => Loop case ToClean => Clean case ToShut => Shutting(ShutPop, a)
  {
    hide Unregister, Release, CloseFd;
  }

  lemma ShutdownShutting(s: State, p: ShutPt, a: Addr, ch: Choice)
    requires Inv(s) && s.main == Shutting(p, a)
    ensures InShutdown(MainNext(s, ch).main) && ShutdownLeft(MainNext(s, ch)) < ShutdownLeft(s)
  {
    hide ConnInv, WorkerInv, JobInv, PoolRemove;
  }

  lemma ClosingKeepsPool(s: State, p: ClosePt, a: Addr, r: Ret)
    requires Inv(s) && s.main == Closing(p, a, r) && !p.UnregClient?
    ensures CloseAt(s, p, a, r).pool == s.pool
  {
    hide WorkerInv, JobInv;
    ConnFacts(s, a);
    hide Inv;
  }
}
