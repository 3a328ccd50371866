/** The inductive invariant of the connection life cycle, and its proof step by step. */
module LifecycleInv {
  import opened Bytes
  import opened Lifecycle

  predicate HoldsRef(pc: WorkPc) {
    pc.Resolving? || pc.Locked? || pc.WantRes? || pc.Pushing? || pc.DropUnlock? || pc.Drop?
  }

  predicate HoldsLock(pc: WorkPc) {
    pc.Locked? || pc.WantRes? || pc.Pushing? || pc.Pushed? || pc.Signal? || pc.Unlock? || pc.DropUnlock?
  }

  predicate HoldsRes(pc: WorkPc) {
    pc.Pushing? || pc.Pushed?
  }

  predicate MainHoldsLock(pc: Pc) {
    match pc
    case Start(p, _, _) => p.StartSet? || p.StartClear?
    case Closing(p, _, _) => p.CancelSet?
    case Handle(p, _) => p.DoneClear?
    case Shutting(p, _) => p.ShutSet?
    case _ => false
  }

  predicate MainHoldsRes(pc: Pc) {
    match pc
    case Start(_, _, r) => r == ToClean
    case CloseTest(_, r) => r == ToClean
    case Closing(_, _, r) => r == ToClean
    case DrainNext => true
    case Clean => true
    case Handle(_, _) => true
    case _ => false
  }

  /** The connection the main thread's next section is about. */
  function About(pc: Pc): Option<Addr> {
    if pc.Start? || pc.CloseTest? || pc.Closing? || pc.Handle? || pc.Shutting? then Some(pc.a) else None
  }

  predicate Ending(pc: Pc) {
    pc.Destroy? || pc.DestroyDrain? || pc.Over?
  }

  function One(b: bool): nat {
    if b then 1 else 0
  }

  /** The worker recorded for `c` still holds its reference. */
  predicate WorkerShare(s: State, c: Conn) {
    c.worker.Some? && c.worker.value < |s.workers| && HoldsRef(s.workers[c.worker.value].pc)
  }

  /** The worker recorded for `c` queued a notification that has not been cleaned up. */
  predicate JobShare(s: State, c: Conn) {
    && c.worker.Some? && c.worker.value < |s.workers|
    && s.workers[c.worker.value].pushed && s.workers[c.worker.value].cleaned == 0
  }

  predicate MainShare(s: State, a: Addr) {
    s.main.Start? && s.main.a == a && (s.main.sp.StartThread? || s.main.sp.StartDrop?)
  }

  ghost predicate RefInv(s: State, a: Addr)
    requires a in s.conns
  {
    var c := s.conns[a];
    && c.refs == One(c.owned) + One(WorkerShare(s, c)) + One(JobShare(s, c)) + One(MainShare(s, a))
    && c.refs > 0
    && (c.worker.Some? ==> c.worker.value < |s.workers| && s.workers[c.worker.value].conn == a)
  }

  ghost predicate OwnInv(s: State, a: Addr)
    requires a in s.conns
  {
    var c := s.conns[a];
    && (!c.owned ==> c.closing && c.cancelled && c.client.None? && c.origin.None? && !c.clientReg && !c.originReg)
    && (c.owned && !c.closing ==> c.clientReg)
    && (c.owned && c.closing ==> s.main.Closing? && s.main.a == a)
    && (c.cancelled && !c.closing ==> s.main == CloseTest(a, ToShut))
  }

  ghost predicate FdInv(s: State, a: Addr)
    requires a in s.conns
  {
    var c := s.conns[a];
    && (a in s.pool <==> c.clientReg)
    && (c.clientReg ==> c.client.Some? && c.owned)
    && (c.originReg ==> c.origin.Some? && c.owned)
    && (c.client.Some? ==>
          && c.client.value in s.open && s.open[c.client.value] == Item(a, Client)
          && (c.client.value in s.items <==> c.clientReg)
          && (!c.clientReg ==> s.main.Closing? && s.main.a == a && s.main.cp.CloseClient?))
    && (c.origin.Some? ==>
          && c.origin.value in s.open && s.open[c.origin.value] == Item(a, Origin)
          && (c.origin.value in s.items <==> c.originReg)
          && (!c.originReg ==> s.main.Closing? && s.main.a == a && s.main.cp.CloseOrigin?))
  }

  ghost predicate LockInv(s: State, a: Addr)
    requires a in s.conns
  {
    var c := s.conns[a];
    && (c.lock == ByMain <==> MainHoldsLock(s.main) && About(s.main) == Some(a))
    && (c.lock.ByWorker? ==> c.worker == Some(c.lock.i) && c.lock.i < |s.workers| && HoldsLock(s.workers[c.lock.i].pc))
  }

  /** One job per connection, started while it was being read; no origin until that job is answered. */
  ghost predicate PhaseInv(s: State, a: Addr)
    requires a in s.conns
  {
    var c := s.conns[a];
    && (c.phase == Reading ==>
          c.worker.None? && c.origin.None? && !c.resolved && (c.pending ==> s.main.Start? && s.main.a == a))
    && (c.worker.Some? && c.origin.Some? && c.worker.value < |s.workers| ==>
          var w := s.workers[c.worker.value];
          w.pushed && (w.cleaned > 0 || (s.main == Clean && s.cursor < |s.jobs| && s.jobs[s.cursor].w == c.worker.value)))
  }

  ghost predicate ConnInv(s: State, a: Addr)
    requires a in s.conns
  {
    RefInv(s, a) && OwnInv(s, a) && FdInv(s, a) && LockInv(s, a) && PhaseInv(s, a)
  }

  ghost predicate Queued(s: State, i: nat) {
    exists k :: s.cursor <= k < |s.jobs| && s.jobs[k].w == i
  }

  ghost predicate WorkerInv(s: State, i: nat)
    requires i < |s.workers|
  {
    var w := s.workers[i];
    && (!w.pc.Done? || (w.pushed && w.cleaned == 0) ==> w.conn in s.conns && s.conns[w.conn].worker == Some(i))
    && (!w.pc.Done? || (w.pushed && w.cleaned == 0) ==> s.conns[w.conn].client in [None, Some(w.fd)])
    && (HoldsLock(w.pc) ==> s.conns[w.conn].lock == ByWorker(i))
    && (UsesSelector(w.pc) || w.pc.Unlock? ==> s.conns[w.conn].owned && !s.conns[w.conn].cancelled)
    && (UsesSelector(w.pc) || w.pc.Unlock? || (w.pushed && w.cleaned == 0) ==> s.conns[w.conn].resolved)
    && (HoldsRes(w.pc) <==> s.res == ByWorker(i))
    && (w.pushed ==> w.pc.Pushed? || w.pc.Signal? || w.pc.Unlock? || w.pc.Done?)
    && (w.pc.Pushed? || w.pc.Signal? || w.pc.Unlock? ==> w.pushed)
    && w.cleaned <= One(w.pushed)
    && (w.pushed && w.cleaned == 0 ==> Queued(s, i))
  }

  ghost predicate JobInv(s: State, k: nat)
    requires k < |s.jobs|
  {
    var j := s.jobs[k];
    && j.w < |s.workers|
    && s.workers[j.w].pushed && s.workers[j.w].cleaned == 0
    && s.workers[j.w].conn == j.data && s.workers[j.w].fd == j.fd
  }

  ghost predicate JobsInv(s: State) {
    && s.cursor <= |s.jobs|
    && (s.cursor > 0 ==> MainHoldsRes(s.main) || s.main.DestroyDrain?)
    && (s.main == Over ==> s.jobs == [])
    && (forall k :: s.cursor <= k < |s.jobs| ==> JobInv(s, k))
    && (forall k, l :: s.cursor <= k < l < |s.jobs| ==> s.jobs[k].w != s.jobs[l].w)
  }

  predicate Owns(s: State, it: Item, fd: Fd) {
    && it.data in s.conns
    && (if it.kind.Client? then s.conns[it.data].client else s.conns[it.data].origin) == Some(fd)
  }

  ghost predicate GlobalInv(s: State) {
    && !s.fault
    && (s.res == ByMain <==> MainHoldsRes(s.main))
    && (s.res.ByWorker? ==> s.res.i < |s.workers|)
    && (s.alive <==> !s.main.DestroyDrain? && !s.main.Over?)
    && (Ending(s.main) ==> s.pool == [])
    && s.current == |s.pool|
    && (forall x :: x in s.pool ==> x in s.conns)
    && (forall i, j :: 0 <= i < j < |s.pool| ==> s.pool[i] != s.pool[j])
    && (forall fd :: fd in s.items ==> fd in s.open && s.open[fd] == s.items[fd])
    && (forall fd :: fd in s.open ==> Owns(s, s.open[fd], fd))
  }

  /** The notification being handled is the connection's own. */
  predicate AtJob(s: State, a: Addr) {
    s.cursor < |s.jobs| && s.jobs[s.cursor].data == a
  }

  ghost predicate ClosingInv(p: ClosePt, c: Conn) {
    && c.owned && c.closing
    && (p.CancelLock? || p.CancelSet? || c.cancelled)
    && (p.CancelLock? || p.CancelSet? || p.UnregClient? <==> c.clientReg)
    && (p.UnregOrigin? || p.CloseOrigin? || p.Disown? <==> c.client.None?)
    && (p.CloseOrigin? ==> !c.originReg)
    && (p.Disown? ==> c.origin.None?)
  }

  /** A registered connection that nobody has begun to close. */
  predicate Live(s: State, a: Addr) {
    a in s.conns && s.conns[a].clientReg && !s.conns[a].closing
  }

  ghost predicate MainInv(s: State) {
    match s.main
    case Start(_, a, r) => Live(s, a) && r == ToLoop && s.conns[a].phase == Reading
    case CloseTest(a, r) =>
      Live(s, a) && (s.conns[a].cancelled <==> r == ToShut) && (r == ToClean ==> AtJob(s, a))
    case Closing(p, a, r) => a in s.conns && ClosingInv(p, s.conns[a]) && (r == ToClean ==> AtJob(s, a))
    case Clean => s.cursor < |s.jobs|
    case Handle(p, a) => Live(s, a) && AtJob(s, a) && (p.DoneConnect? ==> !s.conns[a].pending)
    case Shutting(p, a) => if p.ShutPop? then a !in s.pool else Live(s, a)
    case _ => true
  }

  ghost predicate Inv(s: State) {
    && GlobalInv(s) && MainInv(s) && JobsInv(s)
    && (forall a :: a in s.conns ==> ConnInv(s, a))
    && (forall i :: 0 <= i < |s.workers| ==> WorkerInv(s, i))
  }
}
