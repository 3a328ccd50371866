/** Safety and termination of the relay over all runs. */
module RelayRuns {
  import opened Bytes
  import opened Pipes
  import opened RelaySpec

  /** One direction agrees with the trace. */
  ghost predicate HalfInv(r: Relay, s: Side) {
    var h := r.From(s);
    && h.pipe.Valid() && h.pipe.capacity == CAPACITY
    && ReceivedFrom(r.trace, s) == SentTo(r.trace, s.Peer()) + h.pipe.pending
    && h.eof == Seen(r.trace, Ended(s))
    && h.shut == Seen(r.trace, Shut(s.Peer()))
    && (h.shut ==> h.eof && h.pipe.pending == [])
  }

  ghost predicate Core(r: Relay, base: nat) {
    && HalfInv(r, Client) && HalfInv(r, Origin)
    && r.metric == base + |SentTo(r.trace, Client)| + |SentTo(r.trace, Origin)|
    && WellOrdered(r.trace)
  }

  ghost predicate Inv(r: Relay, base: nat) {
    && Core(r, base)
    && (r.open ==> r == UpdateInterests(r) && !Finished(r))
    && (r.open ==> forall s :: r.From(s).eof && r.From(s).pipe.pending == [] ==> r.From(s).shut)
  }

  lemma Extend(t: seq<Op>, op: Op)
    ensures forall s :: ReceivedFrom(t + [op], s) ==
                        ReceivedFrom(t, s) + if op.Received? && op.from == s then op.got else []
    ensures forall s: Side :: SentTo(t + [op], s) == SentTo(t, s) + if op.Sent? && op.to == s then op.put else []
    ensures forall o :: Seen(t + [op], o) == (Seen(t, o) || o == op)
    ensures WellOrdered(t) && MayFollow(t, op) ==> WellOrdered(t + [op])
  {
    var u := t + [op];
    assert u[..|u| - 1] == t;
    forall i | WellOrdered(t) && MayFollow(t, op) && 0 <= i < |u| ensures MayFollow(u[..i], u[i]) {
      assert u[..i] == t[..i];
      assert i == |t| ==> t[..i] == t;
    }
  }

  lemma StartInv(base: nat)
    ensures Inv(Start(base), base)
  {
  }

  /** The direction an operation belongs to, named by its source. */
  function Concerns(op: Op): Side {
    match op
    case Received(s, _) => s
    case Ended(s) => s
    case Sent(s, _) => s.Peer()
    case Shut(s) => s.Peer()
  }

  lemma OtherHalf(r: Relay, r': Relay, op: Op)
    requires r'.trace == r.trace + [op]
    requires HalfInv(r, Concerns(op).Peer()) && r'.From(Concerns(op).Peer()) == r.From(Concerns(op).Peer())
    ensures HalfInv(r', Concerns(op).Peer())
  {
    Extend(r.trace, op);
  }

  /** Core survives an operation when it is in order, it is counted, and its own direction still agrees. */
  lemma LogCore(r: Relay, r': Relay, op: Op, base: nat)
    requires Core(r, base) && MayFollow(r.trace, op)
    requires r'.trace == r.trace + [op]
    requires r'.From(Concerns(op).Peer()) == r.From(Concerns(op).Peer())
    requires r'.metric == r.metric + if op.Sent? then |op.put| else 0
    requires HalfInv(r', Concerns(op))
    ensures Core(r', base)
  {
    var s := Concerns(op);
    assert s.Client? || s.Origin?;
    OtherHalf(r, r', op);
    Extend(r.trace, op);
  }

  lemma ReceiveCore(r: Relay, s: Side, got: bytes, base: nat)
    requires Core(r, base) && |got| <= r.From(s).pipe.room && got != [] && !r.From(s).eof
    ensures Core(Receive(r, s, got), base)
  {
    hide ReceivedFrom, SentTo, Seen, WellOrdered;
    Extend(r.trace, Received(s, got));
    var sent, pending := SentTo(r.trace, s.Peer()), r.From(s).pipe.pending;
    assert sent + pending + got == sent + (pending + got);
    LogCore(r, Receive(r, s, got), Received(s, got), base);
  }

  lemma EndCore(r: Relay, s: Side, base: nat)
    requires Core(r, base) && !r.From(s).eof
    ensures Core(r.With(s, r.From(s).(eof := true)).Log(Ended(s)), base)
  {
    hide ReceivedFrom, SentTo, Seen, WellOrdered;
    Extend(r.trace, Ended(s));
    LogCore(r, r.With(s, r.From(s).(eof := true)).Log(Ended(s)), Ended(s), base);
  }

  lemma SentHalf(r: Relay, s: Side, n: nat)
    requires HalfInv(r, s) && 0 < n <= |r.From(s).pipe.pending|
    ensures HalfInv(Flush(r, s, Wrote(n)).0, s)
  {
    hide ReceivedFrom, SentTo, Seen;
    var p := r.From(s).pipe;
    var put, rest, sent := p.pending[..n], p.Take(n).pending, SentTo(r.trace, s.Peer());
    Extend(r.trace, Sent(s.Peer(), put));
    assert p.pending == put + rest;
    assert sent + (put + rest) == (sent + put) + rest;
  }

  lemma FlushCore(r: Relay, s: Side, w: WriteResult, base: nat)
    requires Core(r, base) && WriteFits(w, r.From(s).pipe)
    ensures Core(Flush(r, s, w).0, base)
  {
    var p := r.From(s).pipe;
    if p.pending != [] && w.Wrote? && w.n > 0 {
      SentHalf(r, s, w.n);
      LogCore(r, Flush(r, s, w).0, Sent(s.Peer(), p.pending[..w.n]), base);
    }
  }

  lemma HalfCloseCore(r: Relay, s: Side, base: nat)
    requires Core(r, base)
    ensures Core(HalfClose(r, s), base)
  {
    hide ReceivedFrom, SentTo, Seen, WellOrdered;
    var r' := HalfClose(r, s);
    if r' != r {
      Extend(r.trace, Shut(s.Peer()));
      LogCore(r, r', Shut(s.Peer()), base);
    }
  }

  lemma SettleInv(r: Relay, base: nat)
    requires Core(r, base) && r.open
    ensures Inv(Settle(r), base)
  {
    hide ReceivedFrom, SentTo, Seen, WellOrdered;
    HalfCloseCore(r, Client, base);
    HalfCloseCore(HalfClose(r, Client), Origin, base);
  }

  lemma StepInv(r: Relay, e: Event, base: nat)
    requires Inv(r, base) && Legal(r, e)
    ensures Inv(Step(r, e), base)
  {
    hide ReceivedFrom, SentTo, Seen, WellOrdered, Settle;
    match e {
      case Readable(s, rr, w) =>
        match rr {
          case Data(got) =>
            ReceiveCore(r, s, got, base);
            FlushCore(Receive(r, s, got), s, w, base);
            var (r', ok) := Flush(Receive(r, s, got), s, w);
            if ok { SettleInv(r', base); }
          case Eof =>
            EndCore(r, s, base);
            SettleInv(r.With(s, r.From(s).(eof := true)).Log(Ended(s)), base);
          case ReadAgain => SettleInv(r, base);
          case ReadFailed =>
        }
      case Writable(s, w) =>
        FlushCore(r, s.Peer(), w, base);
        var (r', ok) := Flush(r, s.Peer(), w);
        if ok { SettleInv(r', base); }
    }
  }

  lemma {:induction false} RunInv(r: Relay, es: seq<Event>, base: nat)
    requires Inv(r, base) && Run(r, es)
    ensures Inv(After(r, es), base)
    decreases |es|
  {
    if es != [] {
      StepInv(r, es[0], base);
      RunInv(Step(r, es[0]), es[1..], base);
    }
  }

  // Main results, for every run from `start_relay`.

  /** Bytes in equal bytes out followed by the bytes buffered, in order; the metric counts every byte sent. */
  lemma StreamIntegrity(base: nat, es: seq<Event>)
    requires Run(Start(base), es)
    ensures var r := After(Start(base), es);
            && (forall s :: ReceivedFrom(r.trace, s) == SentTo(r.trace, s.Peer()) + r.From(s).pipe.pending)
            && (forall s :: |r.From(s).pipe.pending| + r.From(s).pipe.room <= 4096)
            && r.metric == base + |SentTo(r.trace, Client)| + |SentTo(r.trace, Origin)|
  {
    StartInv(base);
    RunInv(Start(base), es, base);
    assert forall s: Side :: s.Client? || s.Origin?;
  }

  /** A side is shut at most once, after its peer's end and last byte, and is never written to again. */
  lemma HalfCloseOrder(base: nat, es: seq<Event>)
    requires Run(Start(base), es)
    ensures WellOrdered(After(Start(base), es).trace)
  {
    StartInv(base);
    RunInv(Start(base), es, base);
  }

  /**
   * An open relay watches for reading exactly the sides that have not ended and
   * have room, and for writing exactly those that bytes wait for, so it always
   * watches something.
   */
  lemma NeverStalls(base: nat, es: seq<Event>)
    requires Run(Start(base), es)
    requires After(Start(base), es).open
    ensures var r := After(Start(base), es);
            && (forall s :: r.InterestOf(s).read <==> !Seen(r.trace, Ended(s)) && r.From(s).pipe.room > 0)
            && (forall s: Side :: r.InterestOf(s.Peer()).write <==> SentTo(r.trace, s.Peer()) != ReceivedFrom(r.trace, s))
            && (forall s :: r.From(s).pipe.pending == [] && !r.From(s).eof ==> r.InterestOf(s).read)
            && (exists s :: r.InterestOf(s).read || r.InterestOf(s).write)
  {
    hide ReceivedFrom, SentTo, Seen, WellOrdered;
    StartInv(base);
    RunInv(Start(base), es, base);
    var r := After(Start(base), es);
    assert forall s: Side :: s.Client? || s.Origin?;
    forall s: Side ensures r.InterestOf(s.Peer()).write <==> SentTo(r.trace, s.Peer()) != ReceivedFrom(r.trace, s) {
      Delivered(r, s);
    }
    if r.up.pipe.pending != [] {
      assert r.InterestOf(Origin).write;
    } else if r.down.pipe.pending != [] {
      assert r.InterestOf(Client).write;
    } else if !r.up.eof {
      assert r.InterestOf(Client).read;
    } else {
      assert r.InterestOf(Origin).read;
    }
  }

  lemma Delivered(r: Relay, s: Side)
    requires HalfInv(r, s)
    ensures r.From(s).pipe.pending == [] <==> SentTo(r.trace, s.Peer()) == ReceivedFrom(r.trace, s)
    ensures r.From(s).eof == Seen(r.trace, Ended(s)) && r.From(s).shut == Seen(r.trace, Shut(s.Peer()))
  {
    var sent := SentTo(r.trace, s.Peer());
    assert |sent + r.From(s).pipe.pending| == |sent| + |r.From(s).pipe.pending|;
  }

  /** So an end of stream is recorded only when the socket really ended: there was room to read into. */
  lemma EofIsNotAFullBuffer(base: nat, es: seq<Event>, e: Event)
    requires Run(Start(base), es) && Legal(After(Start(base), es), e) && e.Readable? && e.r == Eof
    ensures After(Start(base), es).From(e.side).pipe.room > 0
  {
    NeverStalls(base, es);
  }

  // What one event does, told by what the calls returned.

  /** The bytes the handler of an event has to write. */
  function Outgoing(r: Relay, e: Event): bytes {
    match e
    case Readable(s, Data(got), _) => r.From(s).pipe.pending + got
    case Readable(_, _, _) => []
    case Writable(s, _) => r.From(s.Peer()).pipe.pending
  }

  function Sink(e: Event): Side {
    if e.Readable? then e.side.Peer() else e.side
  }

  function Incoming(e: Event, s: Side): bytes {
    if e.Readable? && e.side == s && e.r.Data? then e.r.got else []
  }

  /** A read failed, or a write that was attempted. */
  predicate Broken(r: Relay, e: Event) {
    (e.Readable? && e.r.ReadFailed?) || (Outgoing(r, e) != [] && e.w.WriteFailed?)
  }

  /** A side has ended and its peer has been sent all of it. */
  ghost predicate Done(t: seq<Op>, s: Side) {
    Seen(t, Ended(s)) && SentTo(t, s.Peer()) == ReceivedFrom(t, s)
  }

  /** The trace grows by what was read, by what was written, and by an end that was seen. */
  ghost predicate Records(r: Relay, e: Event, t: seq<Op>)
    requires Legal(r, e)
  {
    && (forall s :: ReceivedFrom(t, s) == ReceivedFrom(r.trace, s) + Incoming(e, s))
    && (forall s :: SentTo(t, s) == SentTo(r.trace, s)
                                    + if s == Sink(e) && e.w.Wrote? && Outgoing(r, e) != [] then Outgoing(r, e)[..e.w.n] else [])
    && (forall s :: Seen(t, Ended(s)) <==> Seen(r.trace, Ended(s)) || (e.Readable? && e.side == s && e.r.Eof?))
  }

  lemma HalfCloseRecords(r: Relay, s: Side)
    ensures var t := HalfClose(r, s).trace;
            forall x :: ReceivedFrom(t, x) == ReceivedFrom(r.trace, x) && SentTo(t, x) == SentTo(r.trace, x)
                        && Seen(t, Ended(x)) == Seen(r.trace, Ended(x))
  {
    hide ReceivedFrom, SentTo, Seen, WellOrdered;
    Extend(r.trace, Shut(s.Peer()));
  }

  lemma SettleRecords(r: Relay)
    ensures var t := Settle(r).trace;
            forall x :: ReceivedFrom(t, x) == ReceivedFrom(r.trace, x) && SentTo(t, x) == SentTo(r.trace, x)
                        && Seen(t, Ended(x)) == Seen(r.trace, Ended(x))
  {
    hide ReceivedFrom, SentTo, Seen;
    HalfCloseRecords(r, Client);
    HalfCloseRecords(HalfClose(r, Client), Origin);
  }

  lemma FlushRecords(r: Relay, s: Side, w: WriteResult)
    requires WriteFits(w, r.From(s).pipe)
    ensures var t, p := Flush(r, s, w).0.trace, r.From(s).pipe.pending;
            forall x :: ReceivedFrom(t, x) == ReceivedFrom(r.trace, x) && Seen(t, Ended(x)) == Seen(r.trace, Ended(x))
                        && SentTo(t, x) == SentTo(r.trace, x) + if x == s.Peer() && w.Wrote? && p != [] then p[..w.n] else []
    ensures Flush(r, s, w).1 <==> !(r.From(s).pipe.pending != [] && w.WriteFailed?)
    ensures Flush(r, s, w).0.open == r.open
  {
    hide ReceivedFrom, SentTo, Seen, WellOrdered;
    var p := r.From(s).pipe.pending;
    if p != [] && w.Wrote? && w.n > 0 { Extend(r.trace, Sent(s.Peer(), p[..w.n])); }
  }

  lemma StepRecords(r: Relay, e: Event)
    requires Legal(r, e)
    ensures Records(r, e, Step(r, e).trace)
  {
    hide ReceivedFrom, SentTo, Seen, WellOrdered, Settle, Flush;
    match e {
      case Readable(s, rr, w) =>
        match rr {
          case Data(got) =>
            var r1 := Receive(r, s, got);
            Extend(r.trace, Received(s, got));
            FlushRecords(r1, s, w);
            SettleRecords(Flush(r1, s, w).0);
          case Eof =>
            Extend(r.trace, Ended(s));
            SettleRecords(r.With(s, r.From(s).(eof := true)).Log(Ended(s)));
          case ReadAgain => SettleRecords(r);
          case ReadFailed =>
        }
      case Writable(s, w) =>
        FlushRecords(r, s.Peer(), w);
        SettleRecords(Flush(r, s.Peer(), w).0);
    }
  }

  /** What settling leaves is closed exactly when it is finished. */
  lemma SettlesOpen(r: Relay)
    requires r.open
    ensures Settle(r).open <==> !Finished(Settle(r))
    ensures forall s :: Settle(r).From(s).eof && Settle(r).From(s).pipe.pending == [] ==> Settle(r).From(s).shut
  {
  }

  /** An event breaks the relay, or it is settled. */
  lemma StepSettles(r: Relay, e: Event)
    requires Legal(r, e)
    ensures var r' := Step(r, e);
            if Broken(r, e) then !r'.open
            else && (r'.open <==> !Finished(r'))
                 && (forall s :: r'.From(s).eof && r'.From(s).pipe.pending == [] ==> r'.From(s).shut)
  {
    hide ReceivedFrom, SentTo, Seen, Settle, Flush, Finished;
    match e {
      case Readable(s, rr, w) =>
        match rr {
          case Data(got) =>
            var r1 := Receive(r, s, got);
            FlushRecords(r1, s, w);
            if Flush(r1, s, w).1 { SettlesOpen(Flush(r1, s, w).0); }
          case Eof => SettlesOpen(r.With(s, r.From(s).(eof := true)).Log(Ended(s)));
          case ReadAgain => SettlesOpen(r);
          case ReadFailed =>
        }
      case Writable(s, w) =>
        FlushRecords(r, s.Peer(), w);
        if Flush(r, s.Peer(), w).1 { SettlesOpen(Flush(r, s.Peer(), w).0); }
    }
  }

  /**
   * An event records what the calls it makes return, and closes the relay
   * exactly when its read failed, when the write it attempted failed, or when
   * both sides have ended and each has been sent all that the other sent.
   * Otherwise a side is shut exactly once that is so of its peer.
   */
  lemma ClosesExactly(base: nat, es: seq<Event>, e: Event)
    requires Run(Start(base), es) && Legal(After(Start(base), es), e)
    ensures var r := After(Start(base), es);
            var r' := Step(r, e);
            && Records(r, e, r'.trace)
            && (!r'.open <==> Broken(r, e) || (Done(r'.trace, Client) && Done(r'.trace, Origin)))
            && (!Broken(r, e) ==> forall s: Side :: Seen(r'.trace, Shut(s.Peer())) <==> Done(r'.trace, s))
  {
    hide ReceivedFrom, SentTo, Seen, WellOrdered, Step, Legal;
    StartInv(base);
    RunInv(Start(base), es, base);
    var r := After(Start(base), es);
    var r' := Step(r, e);
    StepInv(r, e, base);
    StepRecords(r, e);
    StepSettles(r, e);
    Delivered(r', Client);
    Delivered(r', Origin);
    assert forall s: Side :: s.Client? || s.Origin?;
  }

  // Termination: finite sources, sockets that do what their readiness announced.

  /** What each side has still to send. */
  datatype Sources = Sources(client: bytes, origin: bytes) {
    function Left(s: Side): bytes {
      if s.Client? then client else origin
    }

    function Consume(s: Side, n: nat): Sources
      requires n <= |Left(s)|
    {
      if s.Client? then this.(client := client[n..]) else this.(origin := origin[n..])
    }
  }

  /** A readable socket gives bytes or its end, a writable one takes at least one byte, nothing fails. */
  predicate Willing(r: Relay, q: Sources, e: Event) {
    && Legal(r, e)
    && !e.w.WriteFailed?
    && match e
       case Readable(s, rr, _) => (rr.Data? && rr.got <= q.Left(s)) || (rr.Eof? && q.Left(s) == [])
       case Writable(_, w) => w.Wrote? && w.n > 0
  }

  function Remaining(q: Sources, e: Event): (q': Sources)
    requires e.Readable? && e.r.Data? ==> e.r.got <= q.Left(e.side)
  {
    if e.Readable? && e.r.Data? then q.Consume(e.side, |e.r.got|) else q
  }

  /** Every unread byte has two moves to make, every buffered byte one, every unseen end of stream one. */
  function Measure(r: Relay, q: Sources): nat {
    2 * (|q.client| + |q.origin|) + |r.up.pipe.pending| + |r.down.pipe.pending|
    + (if r.up.eof then 0 else 1) + (if r.down.eof then 0 else 1)
  }

  ghost predicate WillingRun(r: Relay, q: Sources, es: seq<Event>)
    decreases |es|
  {
    es != [] ==> Willing(r, q, es[0]) && WillingRun(Step(r, es[0]), Remaining(q, es[0]), es[1..])
  }

  lemma SettleKeeps(r: Relay)
    ensures forall s :: Settle(r).From(s).pipe == r.From(s).pipe && Settle(r).From(s).eof == r.From(s).eof
  {
  }

  /** Settling moves no byte. */
  lemma SettleMeasure(r: Relay, q: Sources)
    ensures Measure(Settle(r), q) == Measure(r, q)
  {
    hide Settle;
    SettleKeeps(r);
    assert Settle(r).up == Settle(r).From(Client) && Settle(r).down == Settle(r).From(Origin);
  }

  lemma FlushMeasure(r: Relay, q: Sources, s: Side, w: WriteResult)
    requires WriteFits(w, r.From(s).pipe)
    ensures Measure(Flush(r, s, w).0, q) <= Measure(r, q)
    ensures r.From(s).pipe.pending != [] && w.Wrote? && w.n > 0 ==> Measure(Flush(r, s, w).0, q) < Measure(r, q)
  {
  }

  lemma ReceiveMeasure(r: Relay, q: Sources, s: Side, got: bytes)
    requires got != [] && |got| <= r.From(s).pipe.room && got <= q.Left(s)
    ensures Measure(Receive(r, s, got), q.Consume(s, |got|)) < Measure(r, q)
  {
  }

  lemma MeasureDecreases(r: Relay, q: Sources, e: Event, base: nat)
    requires Inv(r, base) && Willing(r, q, e)
    ensures Measure(Step(r, e), Remaining(q, e)) < Measure(r, q)
  {
    hide Core, Settle, Measure, Flush;
    match e {
      case Readable(s, rr, w) =>
        if rr.Data? {
          var r1 := Receive(r, s, rr.got);
          ReceiveMeasure(r, q, s, rr.got);
          FlushMeasure(r1, q.Consume(s, |rr.got|), s, w);
          FlushOpens(r1, s, w);
          SettleMeasure(Flush(r1, s, w).0, q.Consume(s, |rr.got|));
        } else {
          EndMeasure(r, q, s, base);
          SettleMeasure(r.With(s, r.From(s).(eof := true)).Log(Ended(s)), q);
        }
      case Writable(s, w) =>
        PendingToWrite(r, s, base);
        FlushMeasure(r, q, s.Peer(), w);
        FlushOpens(r, s.Peer(), w);
        SettleMeasure(Flush(r, s.Peer(), w).0, q);
    }
  }

  lemma FlushOpens(r: Relay, s: Side, w: WriteResult)
    requires WriteFits(w, r.From(s).pipe) && !w.WriteFailed?
    ensures Flush(r, s, w).1
  {
  }

  lemma EndMeasure(r: Relay, q: Sources, s: Side, base: nat)
    requires Inv(r, base) && r.open && r.InterestOf(s).read
    ensures Measure(r.With(s, r.From(s).(eof := true)).Log(Ended(s)), q) < Measure(r, q)
  {
    hide ReceivedFrom, SentTo, Seen, WellOrdered;
  }

  lemma PendingToWrite(r: Relay, s: Side, base: nat)
    requires Inv(r, base) && r.open && r.InterestOf(s).write
    ensures r.From(s.Peer()).pipe.pending != []
  {
    hide Core;
  }

  /** What is left to come, for every side, is what has not been received; an ended side has nothing left. */
  ghost predicate Accounts(r: Relay, q: Sources, all: Sources) {
    forall s :: ReceivedFrom(r.trace, s) + q.Left(s) == all.Left(s) && (r.From(s).eof ==> q.Left(s) == [])
  }

  lemma HalfCloseReceives(r: Relay, s: Side)
    ensures forall x :: ReceivedFrom(HalfClose(r, s).trace, x) == ReceivedFrom(r.trace, x)
    ensures forall x :: HalfClose(r, s).From(x).eof == r.From(x).eof
  {
    hide ReceivedFrom, SentTo, Seen;
    Extend(r.trace, Shut(s.Peer()));
  }

  lemma SettleReceives(r: Relay)
    ensures forall x :: ReceivedFrom(Settle(r).trace, x) == ReceivedFrom(r.trace, x)
    ensures forall x :: Settle(r).From(x).eof == r.From(x).eof
  {
    HalfCloseReceives(r, Client);
    HalfCloseReceives(HalfClose(r, Client), Origin);
  }

  lemma FlushReceives(r: Relay, s: Side, w: WriteResult)
    requires WriteFits(w, r.From(s).pipe)
    ensures forall x :: ReceivedFrom(Flush(r, s, w).0.trace, x) == ReceivedFrom(r.trace, x)
    ensures forall x :: Flush(r, s, w).0.From(x).eof == r.From(x).eof
  {
    hide ReceivedFrom, SentTo, Seen;
    var p := r.From(s).pipe;
    if p.pending != [] && w.Wrote? && w.n > 0 {
      Extend(r.trace, Sent(s.Peer(), p.pending[..w.n]));
    }
  }

  lemma ReceiveAccounts(r: Relay, q: Sources, all: Sources, s: Side, got: bytes)
    requires Accounts(r, q, all) && got <= q.Left(s) && |got| <= r.From(s).pipe.room && !r.From(s).eof
    ensures Accounts(Receive(r, s, got), q.Consume(s, |got|), all)
  {
    hide ReceivedFrom, SentTo, Seen;
    Extend(r.trace, Received(s, got));
    var before, left := ReceivedFrom(r.trace, s), q.Left(s);
    assert left == got + left[|got|..];
    assert before + (got + left[|got|..]) == (before + got) + left[|got|..];
  }

  lemma EndAccounts(r: Relay, q: Sources, all: Sources, s: Side)
    requires Accounts(r, q, all) && q.Left(s) == []
    ensures Accounts(r.With(s, r.From(s).(eof := true)).Log(Ended(s)), q, all)
  {
    hide ReceivedFrom, SentTo, Seen;
    Extend(r.trace, Ended(s));
  }

  /** Neither flushing nor settling receives anything. */
  lemma SendsAccount(r: Relay, q: Sources, all: Sources, s: Side, w: WriteResult)
    requires Accounts(r, q, all) && WriteFits(w, r.From(s).pipe)
    ensures Accounts(Flush(r, s, w).0, q, all)
  {
    hide ReceivedFrom, Flush;
    FlushReceives(r, s, w);
  }

  lemma SettlesAccount(r: Relay, q: Sources, all: Sources)
    requires Accounts(r, q, all)
    ensures Accounts(Settle(r), q, all)
  {
    hide ReceivedFrom, Settle;
    SettleReceives(r);
  }

  lemma StepAccounts(r: Relay, q: Sources, all: Sources, e: Event, base: nat)
    requires Inv(r, base) && Accounts(r, q, all) && Willing(r, q, e)
    ensures Accounts(Step(r, e), Remaining(q, e), all)
  {
    hide Core, Settle, Flush, Accounts;
    match e {
      case Readable(s, rr, w) =>
        if rr.Data? {
          var r1 := Receive(r, s, rr.got);
          var q1 := q.Consume(s, |rr.got|);
          ReceiveAccounts(r, q, all, s, rr.got);
          SendsAccount(r1, q1, all, s, w);
          FlushOpens(r1, s, w);
          SettlesAccount(Flush(r1, s, w).0, q1, all);
        } else {
          EndAccounts(r, q, all, s);
          SettlesAccount(r.With(s, r.From(s).(eof := true)).Log(Ended(s)), q, all);
        }
      case Writable(s, w) =>
        SendsAccount(r, q, all, s.Peer(), w);
        FlushOpens(r, s.Peer(), w);
        SettlesAccount(Flush(r, s.Peer(), w).0, q, all);
    }
  }

  /** While the relay is open some willing event can happen, whatever is left to read. */
  lemma SomethingCanHappen(r: Relay, q: Sources, base: nat) returns (e: Event)
    requires Inv(r, base) && r.open && forall s :: r.From(s).eof ==> q.Left(s) == []
    ensures Willing(r, q, e)
  {
    if r.up.pipe.pending != [] {
      e := Writable(Origin, Wrote(1));
    } else if r.down.pipe.pending != [] {
      e := Writable(Client, Wrote(1));
    } else {
      var s := if !r.up.eof then Client else Origin;
      assert r.InterestOf(s).read;
      e := Readable(s, if q.Left(s) == [] then Eof else Data(q.Left(s)[..1]), WriteAgain);
    }
  }

  /** A willing relay that closes has seen both ends and holds nothing. */
  lemma ClosesFinished(r: Relay, q: Sources, e: Event, base: nat)
    requires Inv(r, base) && Willing(r, q, e)
    ensures !Step(r, e).open ==> Finished(Step(r, e))
  {
    hide Inv, Settle;
    forall r' { SettleFinishes(r'); }
  }

  lemma SettleFinishes(r: Relay)
    ensures r.open && !Settle(r).open ==> Finished(Settle(r))
  {
  }

  lemma {:induction false} WillingRunEnds(r: Relay, q: Sources, all: Sources, es: seq<Event>, base: nat)
    requires Inv(r, base) && Accounts(r, q, all) && WillingRun(r, q, es) && (!r.open ==> Finished(r))
    ensures Run(r, es) && |es| <= Measure(r, q)
    ensures var r' := After(r, es);
            && (!r'.open ==> Finished(r'))
            && (exists q' :: Accounts(r', q', all))
            && (r'.open ==> exists e, q' :: Willing(r', q', e) && Accounts(r', q', all))
    decreases |es|
  {
    if es == [] {
      if r.open {
        assert forall s :: r.From(s).eof ==> q.Left(s) == [];
        var e := SomethingCanHappen(r, q, base);
      }
    } else {
      var e := es[0];
      StepInv(r, e, base);
      MeasureDecreases(r, q, e, base);
      StepAccounts(r, q, all, e, base);
      ClosesFinished(r, q, e, base);
      WillingRunEnds(Step(r, e), Remaining(q, e), all, es[1..], base);
    }
  }

  lemma FinishedDelivers(r: Relay, q: Sources, all: Sources, s: Side, base: nat)
    requires Core(r, base) && Accounts(r, q, all) && Finished(r)
    ensures SentTo(r.trace, s.Peer()) == all.Left(s)
  {
    assert HalfInv(r, s);
    assert r.From(s).eof;
  }

  /**
   * Termination.  With finite sources and willing sockets no run is longer than
   * two moves per byte and one per side; a run that cannot go on is one whose
   * relay has closed, and then each side was sent exactly what the other sent.
   */
  lemma RelayTerminates(base: nat, all: Sources, es: seq<Event>)
    requires WillingRun(Start(base), all, es)
    ensures Run(Start(base), es)
    ensures |es| <= 2 * (|all.client| + |all.origin|) + 2
    ensures var r := After(Start(base), es);
            && (r.open ==> exists e, q :: Willing(r, q, e) && Accounts(r, q, all))
            && (!r.open ==> forall s: Side :: SentTo(r.trace, s.Peer()) == all.Left(s))
  {
    StartInv(base);
    assert Accounts(Start(base), all, all);
    WillingRunEnds(Start(base), all, all, es, base);
    RunInv(Start(base), es, base);
    var r := After(Start(base), es);
    if !r.open {
      var q :| Accounts(r, q, all);
      forall s: Side ensures SentTo(r.trace, s.Peer()) == all.Left(s) {
        FinishedDelivers(r, q, all, s, base);
      }
    }
  }
}
