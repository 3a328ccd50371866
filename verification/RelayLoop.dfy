/**
 * The relay handlers of src/server/socks5.c and src/server/connect.c over real
 * buffers.  Each handler changes the object exactly as `RelaySpec.Step` says.
 */
module RelayLoop {
  import opened Bytes
  import opened Pipes
  import opened Buffers
  import opened RelaySpec

  class RelayState {
    const toOrigin: Buffer
    const toClient: Buffer
    var clientEof: bool
    var originEof: bool
    var clientShut: bool
    var originShut: bool
    var open: bool
    var metric: nat
    var clientInterest: Interest
    var originInterest: Interest
    ghost var trace: seq<Op>

    ghost predicate Valid()
      reads this, toOrigin, toClient
    {
      && toOrigin != toClient && toOrigin.data != toClient.data
      && toOrigin.Valid() && toClient.Valid()
      && toOrigin.data.Length == toClient.data.Length == CAPACITY
    }

    ghost function Repr(): set<object> {
      {this, toOrigin, toOrigin.data, toClient, toClient.data}
    }

    ghost function View(): Relay
      reads this, toOrigin, toOrigin.data, toClient, toClient.data
      requires Valid()
    {
      Relay(Half(toOrigin.View(), clientEof, originShut), Half(toClient.View(), originEof, clientShut),
            open, metric, clientInterest, originInterest, trace)
    }

    /** `start_relay` on the two buffers of a connection that has finished its handshake. */
    constructor (toOrigin: Buffer, toClient: Buffer, metric: nat)
      requires toOrigin != toClient && toOrigin.data != toClient.data
      requires toOrigin.Valid() && toClient.Valid()
      requires toOrigin.data.Length == toClient.data.Length == CAPACITY
      modifies toOrigin, toClient
      ensures Valid() && this.toOrigin == toOrigin && this.toClient == toClient
      ensures View() == Start(metric)
    {
      this.toOrigin, this.toClient := toOrigin, toClient;
      this.clientEof, this.originEof, this.clientShut, this.originShut := false, false, false, false;
      this.open, this.metric := true, metric;
      this.clientInterest, this.originInterest := Interest(false, false), Interest(false, false);
      this.trace := [];
      new;
      toOrigin.Reset();
      toClient.Reset();
      SetInterests();
    }

    method Watch(client: Interest, origin: Interest)
      requires Valid()
      modifies this`clientInterest, this`originInterest
      ensures Valid() && View() == old(View()).(clientInterest := client, originInterest := origin)
    {
      hide Buffer.View;
      clientInterest, originInterest := client, origin;
    }

    /** `relay_update_interests` */
    method SetInterests()
      requires Valid()
      modifies this`clientInterest, this`originInterest
      ensures Valid() && View() == UpdateInterests(old(View()))
    {
      var roomUp := toOrigin.CanWrite();
      var roomDown := toClient.CanWrite();
      var pendingUp := toOrigin.CanRead();
      var pendingDown := toClient.CanRead();
      Watch(Interest(!clientEof && roomUp, pendingDown), Interest(!originEof && roomDown, pendingUp));
    }

    /** `relay_should_close`: shuts the drained directions, then says whether the tunnel is finished. */
    method ShouldClose() returns (r: bool)
      requires Valid()
      modifies this`originShut, this`clientShut, this`trace
      ensures Valid() && r == Finished(old(View()))
      ensures View() == HalfClose(HalfClose(old(View()), Client), Origin)
    {
      var pendingUp := toOrigin.CanRead();
      var pendingDown := toClient.CanRead();
      if clientEof && !pendingUp && !originShut {
        originShut := true;
        trace := trace + [Shut(Origin)];
      }
      if originEof && !pendingDown && !clientShut {
        clientShut := true;
        trace := trace + [Shut(Client)];
      }
      r := clientEof && originEof && !pendingUp && !pendingDown;
    }

    /** What follows a handler's I/O: `w` is the result of the last write, or of none. */
    method Finish(ok: bool)
      requires Valid()
      modifies this
      ensures Valid()
      ensures View() == if ok then Settle(old(View())) else old(View()).(open := false)
    {
      if !ok {
        open := false;
        return;
      }
      var done := ShouldClose();
      if done {
        open := false;
      } else {
        SetInterests();
      }
    }

    /** `relay_flush` of the buffer that `from` fills. */
    method FlushFrom(from: Side, w: WriteResult) returns (ok: bool)
      requires Valid() && WriteFits(w, View().From(from).pipe)
      modifies this`metric, this`trace, toOrigin, toOrigin.data, toClient, toClient.data
      ensures Valid() && (View(), ok) == Flush(old(View()), from, w)
    {
      hide Buffer.View;
      var buf := if from.Client? then toOrigin else toClient;
      var more := buf.CanRead();
      if !more {
        return true;
      }
      match w {
        case Wrote(n) =>
          if n > 0 {
            ghost var put := buf.View().pending[..n];
            buf.ReadAdv(n);
            metric := metric + n;
            trace := trace + [Sent(from.Peer(), put)];
          }
          ok := true;
        case WriteAgain => ok := true;
        case WriteFailed => ok := false;
      }
    }

    /** `socks5_relay_client_read` and `origin_read`, which differ only in the sides they name. */
    method OnReadable(from: Side, r: ReadResult, w: WriteResult)
      requires Valid() && Legal(View(), Readable(from, r, w))
      modifies Repr()
      ensures Valid() && View() == Step(old(View()), Readable(from, r, w))
    {
      hide Buffer.View, Settle, Flush;
      var ok := true;
      match r {
        case Data(got) =>
          if from.Client? {
            toOrigin.Deliver(got);
          } else {
            toClient.Deliver(got);
          }
          trace := trace + [Received(from, got)];
          assert View() == Receive(old(View()), from, got);
          ok := FlushFrom(from, w);
        case Eof =>
          if from.Client? {
            clientEof := true;
          } else {
            originEof := true;
          }
          trace := trace + [Ended(from)];
        case ReadAgain =>
        case ReadFailed => ok := false;
      }
      Finish(ok);
    }

    /** `socks5_relay_client_write` and `origin_write` once relaying. */
    method OnWritable(to: Side, w: WriteResult)
      requires Valid() && Legal(View(), Writable(to, w))
      modifies Repr()
      ensures Valid() && View() == Step(old(View()), Writable(to, w))
    {
      var ok := FlushFrom(to.Peer(), w);
      Finish(ok);
    }
  }
}
