/** The server's handlers over real buffers and arrays, src/server/mon_nio.c; each does what MonSession says. */
module MonServer {
  import opened Bytes
  import opened Pipes
  import opened Buffers
  import opened Chunks
  import opened MonProtocol
  import P = MonParser
  import opened AccessLog
  import opened MonPayload
  import U = UserTable
  import opened MonSession

  lemma Multiple(d: int, k: int)
    requires d >= 0
    ensures k >= 1 ==> d * k >= d
    ensures k <= -1 ==> d * k <= -d
  {
    if k >= 1 {
      assert d * (k - 1) >= 0;
    } else if k <= -1 {
      assert d * (-1 - k) >= 0;
    }
  }

  lemma Quotient(v: nat, d: nat, q: nat, r: nat)
    requires d > 0 && v == d * q + r && r < d
    ensures v / d == q
  {
    assert v == d * (v / d) + v % d;
    assert d * (v / d - q) == r - v % d;
    Multiple(d, v / d - q);
  }

  /** Shifting by a byte and then by `k` of them is shifting by `k + 1`. */
  lemma Shifts(v: nat, c: nat)
    requires c > 0
    ensures v / 256 / c == v / (256 * c)
  {
    var u := v / 256;
    var q, r, m := u / c, u % c, v % 256;
    assert u == c * q + r;
    assert v == 256 * c * q + (256 * r + m);
    Quotient(v, 256 * c, q, 256 * r + m);
  }

  /** Byte `i` of `n` is the integer shifted right by the bytes after it. */
  lemma {:induction false} BeAt(v: nat, n: nat, i: nat)
    requires i < n
    ensures Be(v, n)[i] == v / Pow(n - 1 - i) % 256
    decreases n
  {
    if i < n - 1 {
      BeAt(v / 256, n - 1, i);
      Shifts(v, Pow(n - 2 - i));
    }
  }

  /** `put_be` */
  method PutBe(dst: array<byte>, at: nat, v: nat, n: nat)
    requires at + n <= dst.Length
    modifies dst
    ensures Holds(dst[..], old(dst[..]), at, Be(v, n))
  {
    hide Holds, Be, Pow;
    ghost var before := dst[..];
    HoldsNothing(before, at);
    assert Be(v, n)[..0] == [];
    for i := 0 to n
      invariant Holds(dst[..], before, at, Be(v, n)[..i])
    {
      BeAt(v, n, i);
      Append(dst, at, i, [v / Pow(n - 1 - i) % 256], Be(v, n)[..i], before);
      assert Be(v, n)[..i] + [Be(v, n)[i]] == Be(v, n)[..i + 1];
    }
    assert Be(v, n)[..n] == Be(v, n);
  }

  /** `PutBe` right after what has been written. */
  method AppendBe(dst: array<byte>, at: nat, off: nat, v: nat, n: nat, ghost done: bytes, ghost before: bytes)
    requires at + off + n <= dst.Length == |before| && off == |done|
    requires Holds(dst[..], before, at, done)
    modifies dst
    ensures Holds(dst[..], before, at, done + Be(v, n))
  {
    PutBe(dst, at + off, v, n);
    assert (before[..at] + done + before[at + off..])[..at + off] == before[..at] + done;
    assert (before[..at] + done + before[at + off..])[at + off + n..] == before[at + off + n..];
  }

  /** The counters of src/server/metrics.c. */
  class Metrics {
    var historic: uint64
    var current: uint64
    var transferred: uint64
  }

  lemma {:induction false} NamesSnoc(t: U.Slots, i: nat)
    requires i < |t|
    ensures U.Names(t[..i + 1]) == U.Names(t[..i]) + if t[i].Some? then [t[i].value.name] else []
  {
    if i == 0 {
      assert t[..1][1..] == [] && t[..0] == [];
    } else {
      NamesSnoc(t[1..], i - 1);
      assert t[..i + 1][1..] == t[1..][..i] && t[..i][1..] == t[1..][..i - 1];
    }
  }

  lemma NamesBodyMore(ns: seq<bytes>, n: bytes)
    requires Short(ns) && |n| < 256
    ensures Short(ns + [n]) && NamesBody(ns + [n]) == NamesBody(ns) + Prefixed(n)
  {
    assert (ns + [n])[..|ns|] == ns;
  }

  lemma LogBodyMore(es: seq<Entry>, e: Entry)
    requires AllSized(es) && Sized(e)
    ensures AllSized(es + [e]) && LogBody(es + [e]) == LogBody(es) + EntryBytes(e)
  {
    assert (es + [e])[..|es|] == es;
  }

  /** The room the names of some of the slots take. */
  lemma PrefixFits(t: U.Slots, i: nat)
    requires U.Valid(t) && i <= |t|
    ensures Short(U.Names(t[..i])) && |U.Names(t[..i])| <= 10 && |NamesBody(U.Names(t[..i]))| <= 2560
  {
    forall n | n in U.Names(t[..i]) ensures |n| < 256 {
      U.InNames(t[..i], n);
      var k := U.Find(t[..i], n);
      assert t[k].Some? && t[k].value.name == n;
    }
    NamesBodyBound(U.Names(t[..i]));
  }

  lemma HeldPrefix(now: bytes, before: bytes, at: nat, done: bytes)
    requires Holds(now, before, at, done)
    ensures now[at..at + |done|] == done && now[..at] == before[..at] && |now| == |before|
  {
  }

  /** `user_table_list` with `list_user_cb`; the payload always has room for a name. */
  method ListPayload(table: U.Table) returns (payload: array<byte>, offset: nat)
    requires table.Ok()
    ensures fresh(payload) && offset <= payload.Length == PAYLOAD_MAX
    ensures Short(U.Names(table.View())) && |U.Names(table.View())| < 256
    ensures payload[..offset] == UsersPayload(U.Names(table.View()))
  {
    hide Holds, U.Valid, U.Names, NamesBody, CStr;
    payload := new byte[PAYLOAD_MAX];
    ghost var t := table.View();
    ghost var before := payload[..];
    offset := 1;
    var count: nat := 0;
    assert t[..0] == [] && U.Names([]) == [] by { NoNames(); }
    NamesBodyEmpty();
    HoldsNothing(before, 1);
    for i := 0 to U.MAX_USERS
      invariant table.Ok() && table.View() == t && fresh(payload)
      invariant Short(U.Names(t[..i])) && count == |U.Names(t[..i])| <= i
      invariant offset == 1 + |NamesBody(U.Names(t[..i]))|
      invariant Holds(payload[..], before, 1, NamesBody(U.Names(t[..i])))
    {
      NamesSnoc(t, i);
      PrefixFits(t, i);
      PrefixFits(t, i + 1);
      assert t[i] == U.Slot(table.entries[i]);
      if table.entries[i].active {
        var name := CStr(table.entries[i].name);
        OneName(t, i);
        NamesBodyMore(U.Names(t[..i]), name);
        var len := |name|;
        if len > 255 { len := 255; }
        if offset + len + 1 <= PAYLOAD_MAX {
          assert [len] + name[..len] == Prefixed(name);
          Append(payload, 1, offset - 1, [len] + name[..len], NamesBody(U.Names(t[..i])), before);
          offset := offset + 1 + len;
          if count < 255 { count := count + 1; }
        } else {
          assert false;
        }
      } else {
        assert U.Names(t[..i]) + [] == U.Names(t[..i]);
      }
    }
    PrefixFits(t, U.MAX_USERS);
    assert t[..U.MAX_USERS] == t;
    HeldPrefix(payload[..], before, 1, NamesBody(U.Names(t)));
    payload[0] := count;
    assert payload[..offset] == [count as byte] + payload[1..offset];
  }

  lemma NoNames()
    ensures U.Names([]) == []
  {
  }

  lemma NamesBodyEmpty()
    ensures NamesBody([]) == []
  {
  }

  lemma OneName(t: U.Slots, i: nat)
    requires U.Valid(t) && i < |t| && t[i].Some?
    ensures |t[i].value.name| < 256
  {
  }

  /** The log as its reader sees it: `oldest` is the slot of the first entry held. */
  ghost predicate ReadsAs(es: seq<Record>, oldest: nat, held: seq<Entry>) {
    && |es| == MAX_LOG_ENTRIES && |held| <= MAX_LOG_ENTRIES && oldest < MAX_LOG_ENTRIES && AllSized(held)
    && (forall i :: 0 <= i < |held| ==> EntryOf(es[(oldest + i) % MAX_LOG_ENTRIES]) == held[i])
  }

  lemma ReadsAsAt(es: seq<Record>, oldest: nat, held: seq<Entry>, i: nat)
    requires ReadsAs(es, oldest, held) && i < |held|
    ensures EntryOf(es[(oldest + i) % MAX_LOG_ENTRIES]) == held[i] && Sized(held[i])
  {
  }

  /** Walking back from the newest entry is indexing from the oldest. */
  lemma WalkBack(oldest: nat, count: nat, encoded: nat)
    requires encoded < count <= MAX_LOG_ENTRIES
    ensures ((oldest + count) % MAX_LOG_ENTRIES + MAX_LOG_ENTRIES - 1 - encoded) % MAX_LOG_ENTRIES
            == (oldest + (count - 1 - encoded)) % MAX_LOG_ENTRIES
  {
  }

  lemma WalkOn(oldest: nat, from: nat, i: nat)
    ensures ((oldest + from) % MAX_LOG_ENTRIES + i) % MAX_LOG_ENTRIES == (oldest + (from + i)) % MAX_LOG_ENTRIES
  {
  }

  /** `access_log_entry_encoded_len` */
  function EncodedLen(r: Record): nat {
    12 + |CStr(r.user)| + |CStr(r.addr)|
  }

  lemma ReadsAsBounds(es: seq<Record>, oldest: nat, held: seq<Entry>)
    requires ReadsAs(es, oldest, held)
    ensures |es| == MAX_LOG_ENTRIES && |held| <= MAX_LOG_ENTRIES && oldest < MAX_LOG_ENTRIES && AllSized(held)
  {
  }

  ghost function Used(held: seq<Entry>, k: nat): nat
    requires AllSized(held) && k <= |held|
  {
    2 + |LogBody(Last(held, k))|
  }

  lemma UsedMore(held: seq<Entry>, k: nat, r: Record)
    requires AllSized(held) && k < |held| && EntryOf(r) == held[|held| - k - 1]
    ensures Used(held, k + 1) == Used(held, k) + EncodedLen(r)
    ensures Fits(held, k + 1) <==> Used(held, k + 1) <= PAYLOAD_MAX
  {
    OneMore(held, k);
  }

  lemma UsedNothing(held: seq<Entry>)
    requires AllSized(held)
    ensures Used(held, 0) == 2 && Fits(held, 0) && !Fits(held, |held| + 1)
  {
    FitsNothing(held);
    assert Last(held, 0) == [];
  }

  /** The first pass: from the newest entry back, for as long as the next one fits. */
  method CountFitting(entries: array<Record>, oldest: nat, count: nat, ghost held: seq<Entry>)
    returns (start: nat, encoded: nat)
    requires ReadsAs(entries[..], oldest, held) && count == |held|
    ensures AllSized(held)
    ensures encoded == LongestFit(held) && start == (oldest + (count - encoded)) % MAX_LOG_ENTRIES
  {
    hide ReadsAs, Fits, Longest, EntryOf, EncodedLen, Used, AllSized;
    ReadsAsBounds(entries[..], oldest, held);
    var newest := (oldest + count) % MAX_LOG_ENTRIES;
    var off := 2;
    start, encoded := newest, 0;
    UsedNothing(held);
    while encoded < count
      invariant encoded <= count && off == Used(held, encoded) && Fits(held, encoded)
      invariant start == (oldest + (count - encoded)) % MAX_LOG_ENTRIES
    {
      var idx := (newest + MAX_LOG_ENTRIES - 1 - encoded) % MAX_LOG_ENTRIES;
      WalkBack(oldest, count, encoded);
      ReadsAsAt(entries[..], oldest, held, count - 1 - encoded);
      UsedMore(held, encoded, entries[idx]);
      var len := EncodedLen(entries[idx]);
      if off + len > PAYLOAD_MAX {
        break;
      }
      off, start, encoded := off + len, idx, encoded + 1;
    }
    LongestIs(held, encoded);
    LongestUnique(held, encoded, LongestFit(held));
  }

  /** One round of the second pass. */
  method WriteEntry(payload: array<byte>, at: nat, off: nat, r: Record, ghost done: bytes, ghost before: bytes)
    returns (next: nat)
    requires Sized(EntryOf(r)) && at + off + |EntryBytes(EntryOf(r))| <= payload.Length == |before| && off == |done|
    requires Holds(payload[..], before, at, done)
    modifies payload
    ensures Holds(payload[..], before, at, done + EntryBytes(EntryOf(r))) && next == |done + EntryBytes(EntryOf(r))|
  {
    hide Holds, CStr, Be;
    var user, addr := CStr(r.user), CStr(r.addr);
    ghost var d1 := done + Be(r.time, 8);
    ghost var d2 := d1 + Be(r.port, 2);
    ghost var d3 := d2 + Prefixed(user);
    AppendBe(payload, at, off, r.time, 8, done, before);
    AppendBe(payload, at, off + 8, r.port, 2, d1, before);
    Append(payload, at, off + 10, [|user|] + user, d2, before);
    Append(payload, at, off + 11 + |user|, [|addr|] + addr, d3, before);
    next := off + 12 + |user| + |addr|;
    assert d3 + Prefixed(addr) == done + EntryBytes(EntryOf(r));
  }

  lemma PrefixShort(es: seq<Entry>, i: nat)
    requires AllSized(es) && i < |es|
    ensures AllSized(es[..i]) && AllSized(es[..i + 1]) && Sized(es[i])
    ensures LogBody(es[..i + 1]) == LogBody(es[..i]) + EntryBytes(es[i])
    ensures |LogBody(es[..i + 1])| <= |LogBody(es)|
  {
    assert es[..i + 1] == es[..i] + [es[i]];
    LogBodyMore(es[..i], es[i]);
    assert es == es[..i + 1] + es[i + 1..];
    LogBodySplit(es[..i + 1], es[i + 1..]);
  }

  lemma RecentAt(es: seq<Record>, oldest: nat, held: seq<Entry>, k: nat, i: nat)
    requires ReadsAs(es, oldest, held) && i < k <= |held|
    ensures EntryOf(es[((oldest + (|held| - k)) % MAX_LOG_ENTRIES + i) % MAX_LOG_ENTRIES]) == Last(held, k)[i]
    ensures AllSized(Last(held, k))
  {
    hide ReadsAs, EntryOf;
    ReadsAsBounds(es, oldest, held);
    WalkOn(oldest, |held| - k, i);
    ReadsAsAt(es, oldest, held, |held| - k + i);
  }

  /** The second pass: the entries counted, in chronological order. */
  method WriteEntries(payload: array<byte>, entries: array<Record>, oldest: nat, start: nat, encoded: nat,
                      ghost held: seq<Entry>, ghost before: bytes) returns (off: nat)
    requires payload.Length == PAYLOAD_MAX && payload[..] == before
    requires ReadsAs(entries[..], oldest, held) && entries.Length == MAX_LOG_ENTRIES && encoded <= |held|
    requires start == (oldest + (|held| - encoded)) % MAX_LOG_ENTRIES
    requires AllSized(Last(held, encoded)) && 2 + |LogBody(Last(held, encoded))| <= PAYLOAD_MAX
    modifies payload
    ensures off == |LogBody(Last(held, encoded))| && Holds(payload[..], before, 2, LogBody(Last(held, encoded)))
  {
    hide ReadsAs, Holds, EntryOf, EntryBytes, LogBody, AllSized, Last;
    ghost var recent := Last(held, encoded);
    LastLength(held, encoded);
    off := 0;
    HoldsNothing(before, 2);
    LogBodyEmpty();
    assert recent[..0] == [];
    for i := 0 to encoded
      invariant AllSized(recent[..i]) && off == |LogBody(recent[..i])|
      invariant Holds(payload[..], before, 2, LogBody(recent[..i]))
      invariant entries[..] == old(entries[..])
    {
      var idx := (start + i) % MAX_LOG_ENTRIES;
      RecentAt(entries[..], oldest, held, encoded, i);
      PrefixShort(recent, i);
      off := WriteEntry(payload, 2, off, entries[idx], LogBody(recent[..i]), before);
    }
    assert recent[..encoded] == recent;
  }

  lemma LastLength(es: seq<Entry>, k: nat)
    requires k <= |es|
    ensures |Last(es, k)| == k
  {
  }

  lemma LogBodyEmpty()
    ensures AllSized([]) && LogBody([]) == []
  {
  }

  lemma HistorySized(log: seq<Entry>)
    requires forall e :: e in log ==> WellFormed(e)
    ensures AllSized(log) && AllSized(Held(log))
  {
  }

  /** The MON_CMD_GET_ACCESS_LOG case: two passes over the ring. */
  method LogReply(log: Log) returns (payload: array<byte>, offset: nat)
    requires log.Valid()
    ensures AllSized(log.history) && LongestFit(log.history) <= 340
    ensures fresh(payload) && offset <= payload.Length
    ensures payload[..offset] == LogPayload(Last(log.history, LongestFit(log.history)))
  {
    hide EntryOf, EntryBytes, LogBody, AllSized, Last, Longest, WellFormed, Ring, Held, ReadsAs;
    HistorySized(log.history);
    RingIsLongEnough(log.history);
    LogFits(log.history);
    ghost var held := Held(log.history);
    var count := log.count;
    var oldest := log.OldestIndex();
    IsReadAs(log.entries[..], oldest, held);
    var start, encoded := CountFitting(log.entries, oldest, count, held);
    LastSized(held, encoded);
    payload := new byte[PAYLOAD_MAX];
    ghost var before := payload[..];
    var n := WriteEntries(payload, log.entries, oldest, start, encoded, held, before);
    ghost var body := LogBody(Last(held, encoded));
    HeldPrefix(payload[..], before, 2, body);
    ghost var written := payload[..];
    PutBe(payload, 0, encoded, 2);
    HeldPrefix(payload[..], written, 0, Be(encoded, 2));
    offset := n + 2;
    TwoParts(payload[..], written, Be(encoded, 2), body);
    LastLength(held, encoded);
  }

  lemma IsReadAs(es: seq<Record>, oldest: nat, held: seq<Entry>)
    requires |es| == MAX_LOG_ENTRIES && |held| <= MAX_LOG_ENTRIES && oldest < MAX_LOG_ENTRIES && AllSized(held)
    requires forall i :: 0 <= i < |held| ==> EntryOf(es[(oldest + i) % MAX_LOG_ENTRIES]) == held[i]
    ensures ReadsAs(es, oldest, held)
  {
  }

  lemma LastSized(es: seq<Entry>, k: nat)
    requires AllSized(es) && k <= |es| && Longest(es, k)
    ensures AllSized(Last(es, k)) && 2 + |LogBody(Last(es, k))| <= PAYLOAD_MAX
  {
    assert Fits(es, k);
  }

  /** The count, written over the first two bytes, leaves the body behind it. */
  lemma TwoParts(now: bytes, written: bytes, count: bytes, body: bytes)
    requires Holds(now, written, 0, count) && |count| == 2
    requires 2 + |body| <= |written| && written[2..2 + |body|] == body
    ensures now[..2 + |body|] == count + body
  {
  }

  /** A connection, with the process-wide state its handlers use. */
  class MonConn {
    const input: Buffer
    const output: Buffer
    const parser: P.RequestReader
    const table: U.Table
    const log: Log
    const metrics: Metrics
    var authed: bool
    var open: bool
    var writing: bool

    ghost predicate Valid()
      reads this, input, output, parser, parser.lens, parser.args, table, table.entries, log, log.entries
    {
      && input.Valid() && output.Valid() && parser.Valid() && table.Ok() && log.Valid()
      && input != output && input.data != output.data && parser.lens != input.data && parser.lens != output.data
      && U.Valid(table.View())
    }

    ghost function Own(): set<object> {
      {this, input, input.data, output, output.data, parser, parser.lens, parser.args, table, table.entries}
    }

    ghost function Shared(): (w: World)
      reads this, input, output, parser, parser.lens, parser.args, table, table.entries, log, log.entries, metrics
      requires Valid()
      ensures Sane(w)
    {
      HistorySized(log.history);
      World(table.View(), metrics.historic, metrics.current, metrics.transferred, log.history)
    }

    ghost function View(): Conn
      reads this, input, input.data, output, output.data, parser, parser.lens, parser.args, table, table.entries, log, log.entries
      requires Valid()
    {
      Conn(parser.View(), input.View(), output.View(), authed, open, writing)
    }

    /** `mon_passive_accept` after its allocation. */
    constructor (table: U.Table, log: Log, metrics: Metrics)
      requires table.Ok() && log.Valid()
      ensures Valid() && this.table == table && this.log == log && this.metrics == metrics
      ensures View() == Conn(parser.View(), Fresh(SERVER_BUF), Fresh(SERVER_BUF), false, true, false)
      ensures P.Initial(parser.View())
    {
      this.table, this.log, this.metrics := table, log, metrics;
      hide Buffer.View, U.Valid, Ring, Keeps, U.Names, P.InBounds;
      authed, open, writing := false, true, false;
      input := new Buffer(SERVER_BUF);
      output := new Buffer(SERVER_BUF);
      parser := new P.RequestReader();
      new;
      parser.Init();
    }

    /** Argument `i` of the parsed request, as a C string. */
    method Argument(i: nat) returns (s: bytes)
      requires Valid() && i < parser.nargs as nat
      ensures s == Strings(parser.View().request)[i] && IsCString(s)
    {
      hide U.Valid, Ring, Keeps, U.Names, CStr, Buffer.View;
      assert Strings(parser.View().request)[i] == CStr(P.Row(parser.args, i));
      s := CStr(P.Row(parser.args, i));
    }

    /** The cases of `mon_process_request`: what to answer. */
    method Decide() returns (status: byte, payload: Option<bytes>)
      requires Valid()
      modifies this`authed, table`count, table.entries
      ensures Valid()
      ensures (Shared(), authed, Reply(status, payload))
              == Respond(old(Shared()), old(authed), parser.cmd, old(Strings(parser.View().request)))
    {
      hide U.Valid, U.Find, U.Names, P.InBounds, Fits, Longest, Holds, WellFormed, Keeps, AllSized, Be;
      var cmd := parser.cmd;
      payload := None;
      if !authed && cmd != CMD_AUTH {
        return AUTH_FAIL, None;
      }
      if cmd == CMD_AUTH {
        status := Authenticate();
      } else if cmd == CMD_ADD_USER {
        status := AddUser();
      } else if cmd == CMD_DEL_USER {
        status := RemoveUser();
      } else if cmd == CMD_LIST_USERS {
        var buf, n := ListPayload(table);
        status, payload := OK, Some(buf[..n]);
      } else if cmd == CMD_GET_METRICS {
        var buf := MetricsReply();
        status, payload := OK, Some(buf[..]);
      } else if cmd == CMD_GET_ACCESS_LOG {
        var buf, n := LogReply(log);
        status, payload := OK, Some(buf[..n]);
      } else {
        status := UNKNOWN_CMD;
      }
    }

    method Authenticate() returns (status: byte)
      requires Valid() && parser.cmd == CMD_AUTH
      modifies this`authed
      ensures Valid() && Shared() == old(Shared())
      ensures (Shared(), authed, Reply(status, None))
              == Respond(old(Shared()), old(authed), CMD_AUTH, Strings(parser.View().request))
    {
      hide U.Valid, U.Find, U.Names, P.InBounds, WellFormed, Keeps, AllSized;
      if parser.nargs < 2 {
        return AUTH_FAIL;
      }
      var user := Argument(0);
      var pass := Argument(1);
      var known := table.Check(user, pass);
      if !known {
        return AUTH_FAIL;
      }
      authed := true;
      status := OK;
    }

    method AddUser() returns (status: byte)
      requires Valid() && authed && parser.cmd == CMD_ADD_USER
      modifies table`count, table.entries
      ensures Valid()
      ensures (Shared(), authed, Reply(status, None))
              == Respond(old(Shared()), authed, CMD_ADD_USER, Strings(parser.View().request))
    {
      hide U.Valid, U.Find, U.Names, P.InBounds, WellFormed, Keeps, AllSized, U.Add;
      if parser.nargs < 2 {
        return INTERNAL_ERROR;
      }
      var user := Argument(0);
      var pass := Argument(1);
      var added := table.TryAdd(Some(user), Some(pass));
      status := if added then OK else USER_EXISTS;
    }

    method RemoveUser() returns (status: byte)
      requires Valid() && authed && parser.cmd == CMD_DEL_USER
      modifies table`count, table.entries
      ensures Valid()
      ensures (Shared(), authed, Reply(status, None))
              == Respond(old(Shared()), authed, CMD_DEL_USER, Strings(parser.View().request))
    {
      hide U.Valid, U.Find, U.Names, P.InBounds, WellFormed, Keeps, AllSized, U.Remove;
      if parser.nargs < 1 {
        return INTERNAL_ERROR;
      }
      var user := Argument(0);
      var removed := table.TryRemove(user);
      status := if removed then OK else USER_NOT_FOUND;
    }

    method MetricsReply() returns (buf: array<byte>)
      ensures fresh(buf) && buf[..] == MetricsPayload(metrics.historic, metrics.current, metrics.transferred)
    {
      hide Be, Holds;
      buf := new byte[METRICS_LEN];
      ghost var before := buf[..];
      HoldsNothing(before, 0);
      AppendBe(buf, 0, 0, metrics.historic, 8, [], before);
      AppendBe(buf, 0, 8, metrics.current, 8, [] + Be(metrics.historic, 8), before);
      AppendBe(buf, 0, 16, metrics.transferred, 8, [] + Be(metrics.historic, 8) + Be(metrics.current, 8), before);
      HeldPrefix(buf[..], before, 0, [] + Be(metrics.historic, 8) + Be(metrics.current, 8) + Be(metrics.transferred, 8));
      assert buf[0..24] == buf[..];
    }

    /** `mon_process_request` */
    method ProcessRequest()
      requires Valid()
      modifies this`authed, this`writing, table`count, table.entries, output`write, output.data
      ensures Valid() && (View(), Shared()) == Processed(old(View()), old(Shared()))
    {
      hide Respond, U.Valid, Keeps, Queue, P.Feed, Buffer.View, U.Names, CStr;
      StringsAre(parser.View().request);
      RepliesFit(Shared(), authed, parser.cmd, Strings(parser.View().request));
      var status, payload := Decide();
      SendResponse(output, status, payload, if payload.Some? then |payload.value| else 0);
      writing := true;
    }

    /** Storing what arrived and parsing it. */
    method Parse(got: bytes) returns (error: bool)
      requires Valid() && got != [] && |got| <= input.View().room
      modifies input, input.data, parser, parser.lens, parser.args
      ensures Valid() && Shared() == old(Shared())
      ensures View() == Parsed(old(View()), got) && error == View().parser.state.Failed?
    {
      hide P.InBounds, U.Valid, Keeps, P.Feed, Consume, Buffer.View, U.Names;
      ghost var c := View();
      input.Deliver(got);
      assert View() == c.(input := c.input.Put(got));
      error := parser.ConsumeFrom(input);
      assert View() == c.(parser := parser.View(), input := input.View());
      assert Shared() == old(Shared());
    }

    /** `mon_read` when `recv` gave bytes. */
    method OnReadable(got: bytes)
      requires Valid() && open && !writing && 0 < |got| <= input.View().room
      modifies this, Own()
      ensures Valid() && (View(), Shared()) == Receive(old(View()), old(Shared()), got)
    {
      hide Processed, Parsed, P.InBounds, U.Valid, Keeps;
      var error := Parse(got);
      if error {
        open := false;
        return;
      }
      if parser.state == P.Done {
        ProcessRequest();
      }
    }

    /** `mon_write` when `send` took `n` bytes. */
    method OnWritable(n: nat)
      requires Valid() && open && writing && 0 < n <= |output.View().pending|
      modifies this, Own()
      ensures Valid() && View() == Send(old(View()), n) && Shared() == old(Shared())
    {
      hide P.InBounds, U.Valid, Keeps;
      output.ReadAdv(n);
      var more := output.CanRead();
      if !more {
        input.Reset();
        output.Reset();
        parser.Init();
        writing := false;
      }
    }
  }

  /** `send_response`: encodes into the room left in the buffer; without room nothing is written. */
  method SendResponse(output: Buffer, status: byte, payload: Option<bytes>, len: uint16)
    requires output.Valid() && len == if payload.Some? then |payload.value| else 0
    modifies output`write, output.data
    ensures output.Valid() && output.View() == Queue(old(output.View()), Reply(status, payload))
  {
    var r := Response(VERSION, status, len, payload);
    ghost var s := ResponseBytes(r);
    ghost var before := output.data[..];
    var n := EncodeResponse(r, output.data, output.write, output.data.Length - output.write);
    if n > 0 {
      HeldPrefix(output.data[..], before, output.write, s);
      assert output.data[output.read..output.write] == output.data[..][..output.write][output.read..];
      assert before[output.read..output.write] == before[..output.write][output.read..];
      output.WriteAdv(n);
    } else {
      assert output.data[..] == before;
      assert output.data[output.read..output.write] == before[output.read..output.write];
    }
  }
}
