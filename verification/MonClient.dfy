/** The monitoring client over real buffers, src/client/mon_client.c; each handler does what MonSession says. */
module MonClient {
  import opened Bytes
  import opened Pipes
  import opened Buffers
  import opened MonProtocol
  import opened AccessLog
  import opened MonPayload
  import opened MonSession

  /** `be_u64`, which shifts in 64 bits and loses nothing. */
  method BeU64(p: bytes) returns (v: nat)
    requires |p| == 8
    ensures v == Unbe(p)
  {
    v := 0;
    Powers();
    for i := 0 to 8
      invariant v == Unbe(p[..i]) && v < Pow(i)
    {
      assert p[..i + 1][..i] == p[..i];
      UnbeBound(p[..i + 1]);
      PowersGrow(i + 1, 8);
      v := (v * 256 + p[i]) % 0x1_0000_0000_0000_0000;
    }
    assert p[..8] == p;
  }

  lemma {:induction false} PowersGrow(i: nat, n: nat)
    requires i <= n
    ensures Pow(i) <= Pow(n)
    decreases n - i
  {
    if i < n { PowersGrow(i + 1, n); }
  }

  /** `be_u16` */
  function BeU16(hi: byte, lo: byte): (v: uint16)
    ensures v == Unbe([hi, lo])
  {
    assert [hi][..0] == [] && Unbe([hi]) == hi;
    assert [hi, lo][..1] == [hi];
    hi as int * 256 + lo as int
  }

  /** `mon_format_metrics` */
  method FormatMetrics(payload: Option<bytes>) returns (l: Listing<nat>)
    ensures l == ReadMetrics(payload)
  {
    if payload.None? || |payload.value| != METRICS_LEN {
      return Listing([], false);
    }
    var p := payload.value;
    var historic := BeU64(p[..8]);
    var current := BeU64(p[8..16]);
    var transferred := BeU64(p[16..]);
    l := Listing([historic, current, transferred], true);
  }

  /** A listing with lines already printed before it. */
  ghost function After<T>(out: seq<T>, l: Listing<T>): Listing<T> {
    Listing(out + l.lines, l.ok)
  }

  lemma MoreLines<T>(out: seq<T>, line: T, l: Listing<T>)
    ensures After(out, Listing([line] + l.lines, l.ok)) == After(out + [line], l)
    ensures After(out, Listing([], l.ok)) == Listing(out, l.ok)
  {
    assert out + ([line] + l.lines) == out + [line] + l.lines;
    assert out + [] == out;
  }

  lemma NamesNext(s: bytes, off: nat, n: nat)
    ensures n == 0 ==> Names(s, off, n) == Listing([], true)
    ensures n > 0 && (off >= |s| || off + 1 + s[off] as nat > |s|) ==> Names(s, off, n) == Listing([], false)
    ensures n > 0 && off < |s| && off + 1 + s[off] as nat <= |s| ==>
              var next: nat := off + 1 + s[off] as nat;
              Names(s, off, n) == Listing([s[off + 1..next]] + Names(s, next, n - 1).lines, Names(s, next, n - 1).ok)
  {
  }

  lemma EntriesNext(s: bytes, off: nat, n: nat)
    ensures n == 0 ==> Entries(s, off, n) == Listing([], true)
    ensures n > 0 ==>
              Entries(s, off, n) ==
              match EntryAt(s, off)
              case Bad => Listing([], false)
              case Cut(e, next) => Listing([e] + Entries(s, next, n - 1).lines, Entries(s, next, n - 1).ok)
  {
    hide EntryAt;
  }

  /** `mon_format_users`: what is printed before a fault is found stays printed. */
  method FormatUsers(payload: Option<bytes>) returns (l: Listing<bytes>)
    ensures l == ReadUsers(payload)
  {
    hide Names;
    if payload.None? || |payload.value| < 1 {
      return Listing([], false);
    }
    var p := payload.value;
    var count: nat := p[0];
    var off: nat := 1;
    var out: seq<bytes> := [];
    for i := 0 to count
      invariant ReadUsers(payload) == After(out, Names(p, off, count - i))
    {
      NamesNext(p, off, count - i);
      if off >= |p| {
        return Listing(out, false);
      }
      var nl: nat := p[off];
      off := off + 1;
      if off + nl > |p| {
        return Listing(out, false);
      }
      MoreLines(out, p[off..off + nl], Names(p, off + nl, count - i - 1));
      out := out + [p[off..off + nl]];
      off := off + nl;
    }
    NamesNext(p, off, 0);
    l := Listing(out, true);
  }

  /** `mon_format_access_log` */
  method FormatLog(payload: Option<bytes>) returns (l: Listing<Entry>)
    ensures l == ReadLog(payload)
  {
    hide EntryAt, Unbe, Entries;
    if payload.None? || |payload.value| < 2 {
      return Listing([], false);
    }
    var p := payload.value;
    var count: nat := BeU16(p[0], p[1]);
    assert p[..2] == [p[0], p[1]];
    var off: nat := 2;
    var out: seq<Entry> := [];
    for i := 0 to count
      invariant ReadLog(payload) == After(out, Entries(p, off, count - i))
    {
      EntriesNext(p, off, count - i);
      var c := FormatEntry(p, off);
      match c {
        case Bad => return Listing(out, false);
        case Cut(e, next) =>
          MoreLines(out, e, Entries(p, next, count - i - 1));
          out := out + [e];
          off := next;
      }
    }
    EntriesNext(p, off, 0);
    l := Listing(out, true);
  }

  /** One round of that loop. */
  method FormatEntry(p: bytes, at: nat) returns (c: Cut)
    ensures c == EntryAt(p, at)
  {
    hide Unbe;
    var off := at;
    if off + 8 + 2 + 1 > |p| {
      return Bad;
    }
    var ts := BeU64(p[off..off + 8]);
    Powers();
    UnbeBound(p[off..off + 8]);
    off := off + 8;
    var port := BeU16(p[off], p[off + 1]);
    assert p[off..off + 2] == [p[off], p[off + 1]];
    off := off + 2;
    var ul: nat := p[off];
    off := off + 1;
    if off + ul + 1 > |p| {
      return Bad;
    }
    var user := p[off..off + ul];
    off := off + ul;
    var al: nat := p[off];
    off := off + 1;
    if off + al > |p| {
      return Bad;
    }
    c := Cut(Entry(user, p[off..off + al], port, ts), off + al);
  }

  class MonClient {
    const job: Job
    const input: Buffer
    const output: Buffer
    var state: ClientState
    var shown: Shown

    ghost predicate Valid()
      reads this, input, output
    {
      input.Valid() && output.Valid() && input != output && input.data != output.data
    }

    ghost function View(): Client
      reads this, input, input.data, output, output.data
      requires Valid()
    {
      Client(state, input.View(), output.View(), shown)
    }

    /** `mon_client_init` */
    constructor (job: Job)
      ensures Valid() && this.job == job && View() == Initial()
    {
      hide Buffer.View;
      this.job := job;
      input := new Buffer(CLIENT_READ_BUF);
      output := new Buffer(CLIENT_WRITE_BUF);
      state, shown := Sending(0), Nothing;
    }

    /** `on_connecting` once the socket is connected. */
    method OnConnected()
      requires Valid() && View() == Initial()
      modifies this`state, output`write, output.data
      ensures Valid() && View() == Connected(job)
    {
      hide View, Ask, Initial;
      AskServer(0);
    }

    /** `queue_request` of what `build_auth_request` or `build_cmd_request` built. */
    method AskServer(k: nat)
      requires Valid()
      modifies this`state, output`write, output.data
      ensures Valid() && View() == Ask(old(View()), job, k)
    {
      hide RequestBytes, Build;
      var r := RequestOf(job, k);
      if r.None? {
        state := Failed(EXIT_IO);
        return;
      }
      var tmp := new byte[3 + MAX_ARGS * 256];
      ghost var before := tmp[..];
      var n := EncodeRequest(r.value, tmp, 0, tmp.Length);
      FitsScratch(r.value);
      if n < 0 {
        assert false;
      }
      assert tmp[..n] == RequestBytes(r.value);
      if n > output.data.Length - output.write {
        state := Failed(EXIT_IO);
        return;
      }
      output.Deliver(tmp[..n]);
      state := Sending(k);
    }

    /** `send_buffer` when `send` took `n` bytes. */
    method OnWritable(n: nat)
      requires Valid() && state.Sending? && n <= |output.View().pending|
      modifies this`state, output, output.data
      ensures Valid() && View() == ClientSend(old(View()), n)
    {
      hide Buffer.View;
      ghost var c := View();
      output.ReadAdv(n);
      assert View() == c.(output := c.output.Take(n));
      var more := output.CanRead();
      if !more {
        state := Receiving(state.k);
      }
    }

    /** Storing what arrived and trying to decode what there is. */
    method Take(got: bytes) returns (d: Decoded)
      requires Valid() && |got| <= input.View().room
      modifies input`write, input.data
      ensures Valid() && View() == old(View()).(input := old(input.View()).Put(got))
      ensures d == Decode(input.View().pending)
    {
      hide Decode;
      input.Deliver(got);
      d := DecodeResponse(input.data, input.read, input.write - input.read);
    }

    /** `recv_response` when `recv` gave bytes, or had no room to. */
    method OnReadable(got: bytes)
      requires Valid() && state.Receiving? && |got| <= input.View().room
      modifies this, input, input.data, output, output.data
      ensures Valid() && View() == ClientReceive(old(View()), job, got)
    {
      hide Decode, OnReply;
      if input.data.Length - input.write == 0 {
        state := Failed(EXIT_MALFORMED);
        return;
      }
      var d := Take(got);
      match d {
        case NeedMore =>
        case Error => state := Failed(EXIT_MALFORMED);
        case Ok(r, consumed) =>
          input.ReadAdv(consumed);
          HandleReply(r);
      }
    }

    /** `on_auth_ok` and `on_cmd_ok` */
    method HandleReply(r: Response)
      requires Valid() && state.Receiving?
      modifies this, output`write, output.data
      ensures Valid() && View() == OnReply(old(View()), job, old(state.k), r)
    {
      hide Show, Ask;
      if state.k == 0 {
        if r.status != OK {
          state := Failed(EXIT_AUTH);
        } else {
          AskServer(1);
        }
        return;
      }
      if r.status != OK {
        state := Failed(EXIT_CMD);
        return;
      }
      ShowReply(r.payload);
    }

    /** The switch of `on_cmd_ok`. */
    method ShowReply(payload: Option<bytes>)
      requires Valid()
      modifies this`state, this`shown
      ensures Valid()
      ensures var s := Show(job.command, payload);
              View() == if s.Nothing? then old(View()).(state := Failed(EXIT_MALFORMED))
                        else old(View()).(state := Done, shown := s)
    {
      hide ReadUsers, ReadLog, ReadMetrics, Buffer.View;
      match job.command {
        case ShowMetrics =>
          var l := FormatMetrics(payload);
          if l.ok { state, shown := Done, Numbers(l.lines); } else { state := Failed(EXIT_MALFORMED); }
        case ListUsers =>
          var l := FormatUsers(payload);
          if l.ok { state, shown := Done, Lines(l.lines); } else { state := Failed(EXIT_MALFORMED); }
        case ShowLog =>
          var l := FormatLog(payload);
          if l.ok { state, shown := Done, Accesses(l.lines); } else { state := Failed(EXIT_MALFORMED); }
        case AddUser(_, _) => state, shown := Done, Added;
        case DelUser(_) => state, shown := Done, Deleted;
      }
    }
  }

  lemma FitsScratch(r: Request)
    requires r.nargs as nat <= MAX_ARGS
    ensures |RequestBytes(r)| <= 3 + MAX_ARGS * 256
  {
    assert |Joined(r, 0)| == 0;
    assert |Joined(r, r.nargs as nat)| <= 255 * MAX_ARGS;
  }
}
