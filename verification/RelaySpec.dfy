/**
 * The relay of src/server/socks5.c and src/server/connect.c on values: what one
 * readiness event does to the two buffers, the half-close flags, the interests
 * and the `bytes_transferred` metric.  `trace` lists every effect the relay has
 * had on the two sockets since `start_relay`.
 */
module RelaySpec {
  import opened Bytes
  import opened Pipes

  const CAPACITY: nat := 4096

  datatype Side = Client | Origin {
    function Peer(): Side {
      if Client? then Origin else Client
    }
  }

  /** The possible results of `read` and of `write` on a non-blocking socket. */
  datatype ReadResult = Data(got: bytes) | Eof | ReadAgain | ReadFailed
  datatype WriteResult = Wrote(n: nat) | WriteAgain | WriteFailed

  /** A socket became ready; `w` is the result of the write the handler attempts, if it attempts one. */
  datatype Event = Readable(side: Side, r: ReadResult, w: WriteResult) | Writable(side: Side, w: WriteResult)

  datatype Op = Received(from: Side, got: bytes) | Ended(from: Side) | Sent(to: Side, put: bytes) | Shut(to: Side)

  datatype Interest = Interest(read: bool, write: bool)

  /** One direction: its buffer, whether its source has ended, whether its sink was shut for writing. */
  datatype Half = Half(pipe: Pipe, eof: bool, shut: bool)

  datatype Relay = Relay(up: Half, down: Half, open: bool, metric: nat,
                         clientInterest: Interest, originInterest: Interest, trace: seq<Op>)
  {
    /** The direction that `s` feeds. */
    function From(s: Side): Half {
      if s.Client? then up else down
    }

    function With(s: Side, h: Half): Relay {
      if s.Client? then this.(up := h) else this.(down := h)
    }

    function InterestOf(s: Side): Interest {
      if s.Client? then clientInterest else originInterest
    }

    function Log(op: Op): Relay {
      this.(trace := trace + [op])
    }
  }

  /** `start_relay`: both buffers are reset, no side has ended, interests are computed afresh. */
  function Start(metric: nat): Relay {
    var half := Half(Fresh(CAPACITY), false, false);
    UpdateInterests(Relay(half, half, true, metric, Interest(false, false), Interest(false, false), []))
  }

  function UpdateInterests(r: Relay): Relay {
    r.(clientInterest := Interest(!r.up.eof && r.up.pipe.room > 0, r.down.pipe.pending != []),
       originInterest := Interest(!r.down.eof && r.down.pipe.room > 0, r.up.pipe.pending != []))
  }

  /** The legal results of writing out a buffer: at most what it holds. */
  predicate WriteFits(w: WriteResult, p: Pipe) {
    w.Wrote? ==> w.n <= |p.pending|
  }

  /** `relay_flush` of the direction fed by `s`; false in the result is a fatal write error. */
  function Flush(r: Relay, s: Side, w: WriteResult): (Relay, bool)
    requires WriteFits(w, r.From(s).pipe)
  {
    var h := r.From(s);
    if h.pipe.pending == [] then (r, true)
    else match w
      case Wrote(n) =>
        if n == 0 then (r, true)
        else
          (r.With(s, h.(pipe := h.pipe.Take(n))).(metric := r.metric + n).Log(Sent(s.Peer(), h.pipe.pending[..n])), true)
      case WriteAgain => (r, true)
      case WriteFailed => (r, false)
  }

  /** Propagation of one side's end of stream: its peer is shut for writing once everything was delivered. */
  function HalfClose(r: Relay, s: Side): Relay {
    var h := r.From(s);
    if h.eof && h.pipe.pending == [] && !h.shut then r.With(s, h.(shut := true)).Log(Shut(s.Peer())) else r
  }

  predicate Finished(r: Relay) {
    r.up.eof && r.down.eof && r.up.pipe.pending == [] && r.down.pipe.pending == []
  }

  /** The common tail of every relay handler: `relay_should_close`, then close or new interests. */
  function Settle(r: Relay): Relay {
    var r' := HalfClose(HalfClose(r, Client), Origin);
    if Finished(r) then r'.(open := false) else UpdateInterests(r')
  }

  function Receive(r: Relay, s: Side, got: bytes): Relay
    requires |got| <= r.From(s).pipe.room
  {
    var h := r.From(s);
    r.With(s, h.(pipe := h.pipe.Put(got))).Log(Received(s, got))
  }

  /**
   * The events the loop can dispatch: the socket's interest allows it and the
   * system calls keep their contracts.  A read with no room returns 0, which
   * the handlers cannot tell from an end of stream.
   */
  predicate Legal(r: Relay, e: Event) {
    && r.open
    && match e
       case Readable(s, rr, w) =>
         && r.InterestOf(s).read
         && (r.From(s).pipe.room == 0 ==> rr == Eof)
         && (rr.Data? ==> 0 < |rr.got| <= r.From(s).pipe.room && WriteFits(w, r.From(s).pipe.Put(rr.got)))
       case Writable(s, w) =>
         && r.InterestOf(s).write
         && WriteFits(w, r.From(s.Peer()).pipe)
  }

  function Step(r: Relay, e: Event): Relay
    requires Legal(r, e)
  {
    match e
    case Readable(s, rr, w) =>
      (match rr
       case Data(got) =>
         var (r', ok) := Flush(Receive(r, s, got), s, w);
         if ok then Settle(r') else r'.(open := false)
       case Eof => Settle(r.With(s, r.From(s).(eof := true)).Log(Ended(s)))
       case ReadAgain => Settle(r)
       case ReadFailed => r.(open := false))
    case Writable(s, w) =>
      var (r', ok) := Flush(r, s.Peer(), w);
      if ok then Settle(r') else r'.(open := false)
  }

  ghost predicate Run(r: Relay, es: seq<Event>)
    decreases |es|
  {
    es != [] ==> Legal(r, es[0]) && Run(Step(r, es[0]), es[1..])
  }

  ghost function After(r: Relay, es: seq<Event>): Relay
    requires Run(r, es)
    decreases |es|
  {
    if es == [] then r else After(Step(r, es[0]), es[1..])
  }

  // What a trace says about each stream.

  ghost function ReceivedFrom(t: seq<Op>, s: Side): bytes {
    if t == [] then []
    else ReceivedFrom(t[..|t| - 1], s) + var op := t[|t| - 1]; if op.Received? && op.from == s then op.got else []
  }

  ghost function SentTo(t: seq<Op>, s: Side): bytes {
    if t == [] then []
    else SentTo(t[..|t| - 1], s) + var op := t[|t| - 1]; if op.Sent? && op.to == s then op.put else []
  }

  ghost predicate Seen(t: seq<Op>, op: Op) {
    t != [] && (t[|t| - 1] == op || Seen(t[..|t| - 1], op))
  }

  /**
   * Whether `op` may follow the trace `before`.  A side is shut for writing only
   * once, only after its peer ended and all its peer's bytes were delivered to
   * it, and nothing is sent to it afterwards.
   */
  ghost predicate MayFollow(before: seq<Op>, op: Op) {
    match op
    case Shut(s) =>
      !Seen(before, Shut(s)) && Seen(before, Ended(s.Peer())) && SentTo(before, s) == ReceivedFrom(before, s.Peer())
    case Sent(s, _) => !Seen(before, Shut(s))
    case Received(s, _) => !Seen(before, Ended(s))
    case Ended(s) => !Seen(before, Ended(s))
  }

  ghost predicate WellOrdered(t: seq<Op>) {
    forall i :: 0 <= i < |t| ==> MayFollow(t[..i], t[i])
  }
}
