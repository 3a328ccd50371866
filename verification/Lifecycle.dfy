/**
 * The life of a connection shared by the event loop, its name-resolution worker
 * and a queued notification (src/server/socks5.c, src/server/dns_resolver.c,
 * src/shared/selector.c, src/server/socks5nio.c).
 *
 * A transition system: a step is one atomic section of the main thread or of
 * one worker, and any interleaving is a run.  Steps are not guarded by what
 * they are supposed to preserve.  Touching a freed connection, releasing a
 * reference that is not there, closing a descriptor twice or while it is
 * registered, using the selector after its destruction or destroying a held
 * mutex all happen in the model, and set `fault`.
 *
 * Fields marked "history" are not in the program; no step reads them.
 */
module Lifecycle {
  import opened Bytes

  type Addr = nat
  type Fd = nat

  datatype Holder = Free | ByMain | ByWorker(i: nat)

  /** Handshake before its CONNECT is answered for, waiting for the origin or for names, and after. */
  datatype Phase = Reading | Connecting | Settled

  datatype Kind = Client | Origin

  datatype Item = Item(data: Addr, kind: Kind)

  datatype Conn = Conn(
    refs: nat,
    closing: bool,
    cancelled: bool,
    client: Option<Fd>,
    clientReg: bool,
    origin: Option<Fd>,
    originReg: bool,
    pending: bool,
    resolved: bool,           // dns_result != NULL || dns_error != 0
    phase: Phase,
    lock: Holder,             // dns_mutex
    owned: bool,              // history: connection_close has not released its reference yet
    worker: Option<nat>)      // history: the last worker started for it

  datatype WorkPc =
    | Resolving               // in getaddrinfo, then waiting for dns_mutex
    | Locked                  // holds dns_mutex
    | WantRes                 // holds dns_mutex, waits for resolution_mutex
    | Pushing                 // holds both
    | Pushed                  // holds both, notification queued
    | Signal                  // holds dns_mutex, about to signal the selector's thread
    | Unlock                  // holds dns_mutex, about to release it
    | DropUnlock              // holds dns_mutex, no notification queued
    | Drop                    // about to release its reference
    | Done

  datatype Worker = Worker(conn: Addr, fd: Fd, pc: WorkPc,
                           pushed: bool,     // history: it queued a notification
                           cleaned: nat)     // history: times that notification was cleaned up

  datatype Job = Job(fd: Fd, data: Addr, w: nat)   // w is history

  /** Where connection_close or dns_resolve_start returns to. */
  datatype Ret = ToLoop | ToClean | ToShut

  /** dns_resolve_start */
  datatype StartPt = StartLock | StartSet | StartRef | StartThread | StartDrop | StartLock2 | StartClear

  /** socks5_connection_close, once `closing` is set */
  datatype ClosePt = CancelLock | CancelSet | UnregClient | CloseClient | UnregOrigin | CloseOrigin | Disown

  /** socks5_handle_block_done */
  datatype DonePt = DoneLock | DoneClear | DoneConnect

  /** One round of socksv5_pool_force_shutdown */
  datatype ShutPt = ShutLock | ShutSet | ShutPop

  /** Where the main thread is. */
  datatype Pc =
    | Loop                                        // between two handlers
    | Start(sp: StartPt, a: Addr, r: Ret)
    | CloseTest(a: Addr, r: Ret)                  // connection_close, at its `closing` test
    | Closing(cp: ClosePt, a: Addr, r: Ret)
    | DrainLock | DrainNext | Clean               // handle_block_notifications
    | Handle(dp: DonePt, a: Addr)                 // ... in the handler of one
    | ShutNext                                    // socksv5_pool_force_shutdown
    | Shutting(hp: ShutPt, a: Addr)
    | Destroy | DestroyDrain | Over               // selector_destroy, and the end

  datatype State = State(
    conns: map<Addr, Conn>,   // the live struct socks5 objects, by address
    workers: seq<Worker>,
    main: Pc,
    res: Holder,              // resolution_mutex
    jobs: seq<Job>,           // resolution_jobs, head first
    cursor: nat,              // how many of them the main thread has already cleaned up
    pool: seq<Addr>,          // socksv5_pool, head first
    current: nat,             // the current_connections metric
    items: map<Fd, Item>,     // the selector's used items
    open: map<Fd, Item>,      // open descriptors; whose they are is history
    alive: bool,              // the selector has not been destroyed
    fault: bool)

  /** What the outside world decides for the main thread's next atomic section. */
  datatype Choice = Plain | ThreadFails | Dial(fd: Fd, sync: bool) | GiveUp

  datatype Step =
    | Accept(a: Addr, fd: Fd)                       // socksv5_passive_accept
    | AskDns(a: Addr)                               // a CONNECT to a domain name was parsed
    | Direct(a: Addr, fd: Fd, sync: bool)           // a CONNECT to a literal address was dialled
    | Refuse(a: Addr)                               // a request answered without an origin
    | OriginUp(a: Addr)                             // a pending connect succeeded
    | OriginDown(a: Addr, next: Option<Fd>, sync: bool)   // it failed; the next address may be dialled
    | Close(a: Addr)                                // any handler that closes the connection
    | Drain                                         // the loop turns to its notifications
    | Shutdown                                      // forced shutdown
    | Main(choice: Choice)                          // the main thread's next section
    | Work(i: nat, ok: bool)                        // worker i's next section; ok: its malloc succeeds

  const Init: State := State(map[], [], Loop, Free, [], 0, [], 0, map[], map[], true, false)

  // Effects.

  function Fault(s: State): State {
    s.(fault := true)
  }

  function Put(s: State, a: Addr, c: Conn): State {
    s.(conns := s.conns[a := c])
  }

  function At(s: State, pc: Pc): State {
    s.(main := pc)
  }

  function Return(s: State, a: Addr, r: Ret): State {
    At(s, match r case ToLoop => Loop case ToClean => Clean case ToShut => Shutting(ShutPop, a))
  }

  /** `socks5_release` */
  function Release(s: State, a: Addr): State {
    if a !in s.conns || s.conns[a].refs == 0 then Fault(s)
    else if s.conns[a].refs > 1 then Put(s, a, s.conns[a].(refs := s.conns[a].refs - 1))
    else if s.conns[a].lock != Free then Fault(s)
    else s.(conns := s.conns - {a})
  }

  function Without(pool: seq<Addr>, a: Addr): seq<Addr> {
    if pool == [] then [] else if pool[0] == a then pool[1..] else [pool[0]] + Without(pool[1..], a)
  }

  /** `socksv5_pool_remove`, which walks live connections only. */
  function PoolRemove(s: State, a: Addr): State {
    if exists x :: x in s.pool && x !in s.conns then Fault(s)
    else if a in s.pool then s.(pool := Without(s.pool, a), current := if s.current > 0 then s.current - 1 else 0)
    else s
  }

  /**
   * `selector_unregister_fd`, with the item's close callback.  For a client item
   * that is `socksv5_close`, which calls back into connection_close: with
   * `closing` set that returns at once, and without it the model faults.
   */
  function Unregister(s: State, fd: Fd): State {
    if !s.alive then Fault(s)
    else if fd !in s.items then s
    else if s.items[fd].data !in s.conns then Fault(s)
    else
      var a := s.items[fd].data;
      var c := s.conns[a];
      var s1 := if s.items[fd].kind.Client? then
                  if !c.closing then Fault(s)
                  else PoolRemove(Put(s, a, if c.client == Some(fd) then c.(clientReg := false) else c), a)
                else
                  Put(s, a, if c.origin == Some(fd) then c.(originReg := false) else c);
      s1.(items := s1.items - {fd})
  }

  /** `close(fd)`: the descriptor must be open and must have left the selector. */
  function CloseFd(s: State, fd: Fd): State {
    if fd !in s.open || fd in s.items then Fault(s) else s.(open := s.open - {fd})
  }

  function OpenOrigin(s: State, a: Addr, fd: Fd, sync: bool): State
    requires a in s.conns
  {
    Put(s, a, s.conns[a].(origin := Some(fd), originReg := true, phase := if sync then Settled else Connecting))
    .(open := s.open[fd := Item(a, Origin)], items := s.items[fd := Item(a, Origin)])
  }

  function LockFor(s: State, a: Addr, h: Holder): State
    requires a in s.conns
  {
    Put(s, a, s.conns[a].(lock := h))
  }

  /** The connection whose dns_mutex the main thread waits for. */
  function MainWants(pc: Pc): Option<Addr> {
    match pc
    case Start(StartLock, a, _) => Some(a)
    case Start(StartLock2, a, _) => Some(a)
    case Closing(CancelLock, a, _) => Some(a)
    case Handle(DoneLock, a) => Some(a)
    case Shutting(ShutLock, a) => Some(a)
    case _ => None
  }

  // The main thread's sections about a connection `a`, which is live.

  function StartAt(s: State, p: StartPt, a: Addr, r: Ret, ch: Choice): State
    requires a in s.conns
  {
    var c := s.conns[a];
    match p
    case StartLock => At(LockFor(s, a, ByMain), Start(StartSet, a, r))
    case StartSet => At(Put(s, a, c.(pending := true, resolved := false, lock := Free)), Start(StartRef, a, r))
    case StartRef => At(Put(s, a, c.(refs := c.refs + 1)), Start(StartThread, a, r))
    case StartThread =>
      if ch.ThreadFails? then At(s, Start(StartDrop, a, r))
      else if c.client.None? then Fault(s)
      else
        Return(Put(s, a, c.(phase := Connecting, worker := Some(|s.workers|)))
               .(workers := s.workers + [Worker(a, c.client.value, Resolving, false, 0)]), a, r)
    case StartDrop => At(Release(s, a), Start(StartLock2, a, r))
    case StartLock2 => At(LockFor(s, a, ByMain), Start(StartClear, a, r))
    case StartClear => Return(Put(s, a, c.(pending := false, phase := Settled, lock := Free)), a, r)
  }

  function CloseAt(s: State, p: ClosePt, a: Addr, r: Ret): State
    requires a in s.conns
  {
    var c := s.conns[a];
    match p
    case CancelLock => At(LockFor(s, a, ByMain), Closing(CancelSet, a, r))
    case CancelSet => At(Put(s, a, c.(cancelled := true, lock := Free)), Closing(UnregClient, a, r))
    case UnregClient =>
      At(if c.clientReg && c.client.Some? then Unregister(Put(s, a, c.(clientReg := false)), c.client.value) else s,
         Closing(CloseClient, a, r))
    case CloseClient =>
      At(if c.client.Some? then CloseFd(Put(s, a, c.(client := None)), c.client.value) else s,
         Closing(UnregOrigin, a, r))
    case UnregOrigin =>
      At(if c.originReg && c.origin.Some? then Unregister(Put(s, a, c.(originReg := false)), c.origin.value) else s,
         Closing(CloseOrigin, a, r))
    case CloseOrigin =>
      At(if c.origin.Some? then CloseFd(Put(s, a, c.(origin := None)), c.origin.value) else s, Closing(Disown, a, r))
    case Disown => Return(Release(Put(s, a, c.(owned := false)), a), a, r)
  }

  function DoneAt(s: State, p: DonePt, a: Addr, ch: Choice): State
    requires a in s.conns
  {
    var c := s.conns[a];
    match p
    case DoneLock => At(LockFor(s, a, ByMain), Handle(DoneClear, a))
    case DoneClear => At(Put(s, a, c.(pending := false, lock := Free)), Handle(DoneConnect, a))
    case DoneConnect =>
      // connect_to_origin for a domain name, then socksv5_apply_action
      if c.pending then At(s, Clean)
      else if !c.resolved then At(s, Start(StartLock, a, ToClean))
      else (match ch
            case Dial(fd, sync) => At(OpenOrigin(s, a, fd, sync), Clean)
            case GiveUp => At(s, CloseTest(a, ToClean))
            case _ => At(Put(s, a, c.(phase := Settled)), Clean))
  }

  function ShutAt(s: State, p: ShutPt, a: Addr): State
    requires a in s.conns
  {
    match p
    case ShutLock => At(LockFor(s, a, ByMain), Shutting(ShutSet, a))
    case ShutSet => At(Put(s, a, s.conns[a].(cancelled := true, lock := Free)), CloseTest(a, ToShut))
    case ShutPop => At(PoolRemove(s, a), ShutNext)
  }

  /** One notification is cleaned up: its reference is released and the cursor moves on. */
  function CleanJob(s: State, next: Pc): State {
    if s.cursor >= |s.jobs| then Fault(s)
    else
      var j := s.jobs[s.cursor];
      var s1 := At(Release(s, j.data), next).(cursor := s.cursor + 1);
      if j.w < |s.workers|
      then s1.(workers := s.workers[j.w := s.workers[j.w].(cleaned := s.workers[j.w].cleaned + 1)])
      else s1
  }

  function DrainNextAt(s: State): State {
    if s.cursor >= |s.jobs| then At(s.(jobs := [], cursor := 0, res := Free), Loop)
    else
      var j := s.jobs[s.cursor];
      At(s, if j.fd in s.items && s.items[j.fd] == Item(j.data, Client) then Handle(DoneLock, j.data) else Clean)
  }

  function MainNext(s: State, ch: Choice): State {
    match s.main
    case Loop => s
    case Start(p, a, r) => if a in s.conns then StartAt(s, p, a, r, ch) else Fault(s)
    case CloseTest(a, r) =>
      if a !in s.conns then Fault(s)
      else if s.conns[a].closing then Return(s, a, r)
      else At(Put(s, a, s.conns[a].(closing := true)), Closing(CancelLock, a, r))
    case Closing(p, a, r) => if a in s.conns then CloseAt(s, p, a, r) else Fault(s)
    case DrainLock => if !s.alive then Fault(s) else At(s.(res := ByMain), DrainNext)
    case DrainNext => DrainNextAt(s)
    case Handle(p, a) => if a in s.conns then DoneAt(s, p, a, ch) else Fault(s)
    case Clean => CleanJob(s, DrainNext)
    case ShutNext => At(s, if s.pool == [] then Destroy else Shutting(ShutLock, s.pool[0]))
    case Shutting(p, a) =>
      // after a close the connection is only looked at when it is still in the pool
      if p.ShutPop? && (s.pool == [] || s.pool[0] != a) then At(s, ShutNext)
      else if a in s.conns then ShutAt(s, p, a)
      else Fault(s)
    case Destroy =>
      // any connection item left would go through the nested close path
      if s.items != map[] || s.res != Free then Fault(s) else At(s.(alive := false), DestroyDrain)
    case DestroyDrain =>
      if s.cursor >= |s.jobs| then At(s.(jobs := [], cursor := 0), Over) else CleanJob(s, DestroyDrain)
    case Over => s
  }

  function Moved(s: State, i: nat, pc: WorkPc): State
    requires i < |s.workers|
  {
    s.(workers := s.workers[i := s.workers[i].(pc := pc)])
  }

  /** A worker's section that touches its connection, which is live. */
  function WorkOn(s: State, i: nat, ok: bool): State
    requires i < |s.workers| && s.workers[i].conn in s.conns
  {
    var w := s.workers[i];
    var c := s.conns[w.conn];
    match w.pc
    case Resolving => Moved(LockFor(s, w.conn, ByWorker(i)), i, Locked)
    case Locked =>
      if c.cancelled then Moved(Put(s, w.conn, c.(pending := false)), i, DropUnlock)
      else Moved(Put(s, w.conn, c.(pending := false, resolved := true)), i, if ok then WantRes else DropUnlock)
    case Unlock => Moved(LockFor(s, w.conn, Free), i, Done)
    case DropUnlock => Moved(LockFor(s, w.conn, Free), i, Drop)
    case _ => s
  }

  /** A worker's section that touches the selector, which has not been destroyed. */
  function WorkSelector(s: State, i: nat): State
    requires i < |s.workers|
  {
    var w := s.workers[i];
    match w.pc
    case WantRes => Moved(s.(res := ByWorker(i)), i, Pushing)
    case Pushing =>
      Moved(s.(jobs := [Job(w.fd, w.conn, i)] + s.jobs, workers := s.workers[i := w.(pushed := true)]), i, Pushed)
    case Pushed => Moved(s.(res := Free), i, Signal)
    case Signal => Moved(s, i, Unlock)
    case _ => s
  }

  predicate UsesSelector(pc: WorkPc) {
    pc.WantRes? || pc.Pushing? || pc.Pushed? || pc.Signal?
  }

  function WorkNext(s: State, i: nat, ok: bool): State
    requires i < |s.workers|
  {
    var w := s.workers[i];
    if w.pc.Done? then s
    else if w.pc.Drop? then Moved(Release(s, w.conn), i, Done)
    else if UsesSelector(w.pc) then if s.alive then WorkSelector(s, i) else Fault(s)
    else if w.conn in s.conns then WorkOn(s, i, ok) else Fault(s)
  }

  /** A mutex of a connection can be taken when it is free; reaching for a freed one is not prevented. */
  predicate CanLock(s: State, a: Addr) {
    a in s.conns ==> s.conns[a].lock == Free
  }

  predicate MainBlocked(s: State) {
    || (s.main == DrainLock && s.res != Free)
    || (MainWants(s.main).Some? && !CanLock(s, MainWants(s.main).value))
  }

  predicate WorkBlocked(s: State, i: nat)
    requires i < |s.workers|
  {
    || (s.workers[i].pc == Resolving && !CanLock(s, s.workers[i].conn))
    || (s.workers[i].pc == WantRes && s.res != Free)
  }

  /** The selector dispatches to the handlers of a registered connection between two handlers. */
  predicate Dispatched(s: State, a: Addr) {
    s.main == Loop && a in s.pool && a in s.conns && s.conns[a].clientReg
  }

  predicate Enabled(s: State, t: Step) {
    match t
    case Accept(a, fd) => s.main == Loop && a !in s.conns && fd !in s.open
    case AskDns(a) => Dispatched(s, a) && s.conns[a].phase == Reading
    case Direct(a, fd, _) => Dispatched(s, a) && s.conns[a].phase == Reading && fd !in s.open
    case Refuse(a) => Dispatched(s, a) && s.conns[a].phase == Reading
    case OriginUp(a) => Dispatched(s, a) && s.conns[a].phase == Connecting && s.conns[a].origin.Some?
    case OriginDown(a, next, _) =>
      && Dispatched(s, a) && s.conns[a].phase == Connecting && s.conns[a].origin.Some?
      && (next.Some? ==> next.value !in s.open || next == s.conns[a].origin)
    case Close(a) => Dispatched(s, a)
    case Drain => s.main == Loop
    case Shutdown => s.main == Loop
    case Main(ch) => !s.main.Loop? && !s.main.Over? && !MainBlocked(s) && (ch.Dial? ==> ch.fd !in s.open)
    case Work(i, _) => i < |s.workers| && !s.workers[i].pc.Done? && !WorkBlocked(s, i)
  }

  function DoAccept(s: State, a: Addr, fd: Fd): State {
    var c := Conn(1, false, false, Some(fd), true, None, false, false, false, Reading, Free, true, None);
    Put(s, a, c).(items := s.items[fd := Item(a, Client)], open := s.open[fd := Item(a, Client)],
                  pool := [a] + s.pool, current := s.current + 1)
  }

  function DoAskDns(s: State, a: Addr): State
    requires a in s.conns
  {
    if s.conns[a].pending then Put(s, a, s.conns[a].(phase := Connecting))
    else if s.conns[a].resolved then Put(s, a, s.conns[a].(phase := Settled))
    else At(s, Start(StartLock, a, ToLoop))
  }

  /** The failed origin leaves the selector and is closed; then the next address is dialled, or none is left. */
  function DoOriginDown(s: State, a: Addr, next: Option<Fd>, sync: bool): State
    requires a in s.conns && s.conns[a].origin.Some?
  {
    var fd := s.conns[a].origin.value;
    var s1 := Unregister(Put(s, a, s.conns[a].(originReg := false)), fd);
    if a !in s1.conns then Fault(s1)
    else
      var s2 := CloseFd(Put(s1, a, s1.conns[a].(origin := None)), fd);
      if a !in s2.conns then Fault(s2)
      else if next.Some? then OpenOrigin(s2, a, next.value, sync)
      else Put(s2, a, s2.conns[a].(phase := Settled))
  }

  function Next(s: State, t: Step): State
    requires Enabled(s, t)
  {
    match t
    case Accept(a, fd) => DoAccept(s, a, fd)
    case AskDns(a) => DoAskDns(s, a)
    case Direct(a, fd, sync) => OpenOrigin(s, a, fd, sync)
    case Refuse(a) => Put(s, a, s.conns[a].(phase := Settled))
    case OriginUp(a) => Put(s, a, s.conns[a].(phase := Settled))
    case OriginDown(a, next, sync) => DoOriginDown(s, a, next, sync)
    case Close(a) => At(s, CloseTest(a, ToLoop))
    case Drain => At(s, DrainLock)
    case Shutdown => At(s, ShutNext)
    case Main(ch) => MainNext(s, ch)
    case Work(i, ok) => WorkNext(s, i, ok)
  }

  ghost predicate Run(s: State, ts: seq<Step>)
    decreases |ts|
  {
    ts != [] ==> Enabled(s, ts[0]) && Run(Next(s, ts[0]), ts[1..])
  }

  ghost function After(s: State, ts: seq<Step>): State
    requires Run(s, ts)
    decreases |ts|
  {
    if ts == [] then s else After(Next(s, ts[0]), ts[1..])
  }

  ghost predicate Reachable(s: State) {
    exists ts :: Run(Init, ts) && After(Init, ts) == s
  }
}
