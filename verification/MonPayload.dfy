/**
 * Response payloads, as src/server/mon_nio.c writes them and as the formatters
 * of src/client/mon_client.c read them.  Both sides are given as functions
 * here; the loops that compute them are in MonServer and MonClient.
 */
module MonPayload {
  import opened Bytes
  import opened MonProtocol
  import opened AccessLog

  const PAYLOAD_MAX: nat := 4092
  const METRICS_LEN: nat := 24

  // Big-endian integers.

  function Pow(n: nat): (p: nat)
    ensures p > 0
  {
    if n == 0 then 1 else 256 * Pow(n - 1)
  }

  function Be(v: nat, n: nat): (s: bytes)
    ensures |s| == n
  {
    if n == 0 then [] else Be(v / 256, n - 1) + [v % 256]
  }

  function Unbe(s: bytes): nat {
    if s == [] then 0 else Unbe(s[..|s| - 1]) * 256 + s[|s| - 1]
  }

  /** An integer that fits in `n` bytes survives them. */
  lemma {:induction false} UnbeBe(v: nat, n: nat)
    requires v < Pow(n)
    ensures Unbe(Be(v, n)) == v
    decreases n
  {
    if n > 0 {
      UnbeBe(v / 256, n - 1);
      assert Be(v, n)[..n - 1] == Be(v / 256, n - 1);
    }
  }

  lemma Powers()
    ensures Pow(2) == 0x1_0000 && Pow(8) == 0x1_0000_0000_0000_0000
  {
    assert Pow(4) == 0x1_0000_0000;
    assert Pow(8) == 256 * (256 * (256 * (256 * Pow(4))));
  }

  lemma {:induction false} UnbeBound(s: bytes)
    ensures Unbe(s) < Pow(|s|)
    decreases |s|
  {
    if s != [] { UnbeBound(s[..|s| - 1]); }
  }

  lemma {:induction false} BeUnbe(s: bytes)
    ensures Be(Unbe(s), |s|) == s
    decreases |s|
  {
    if s != [] {
      BeUnbe(s[..|s| - 1]);
      assert s == s[..|s| - 1] + [s[|s| - 1]];
    }
  }

  // Server side.

  function Prefixed(s: bytes): bytes
    requires |s| < 256
  {
    [|s|] + s
  }

  ghost predicate Short(names: seq<bytes>) {
    forall n :: n in names ==> |n| < 256
  }

  ghost function NamesBody(names: seq<bytes>): bytes
    requires Short(names)
  {
    if names == [] then [] else NamesBody(names[..|names| - 1]) + Prefixed(names[|names| - 1])
  }

  ghost function UsersPayload(names: seq<bytes>): bytes
    requires Short(names) && |names| < 256
  {
    [|names|] + NamesBody(names)
  }

  function MetricsPayload(historic: uint64, current: uint64, transferred: uint64): bytes {
    Be(historic, 8) + Be(current, 8) + Be(transferred, 8)
  }

  predicate Sized(e: Entry) {
    |e.user| <= 255 && |e.addr| <= 255
  }

  ghost predicate AllSized(es: seq<Entry>) {
    forall e :: e in es ==> Sized(e)
  }

  function EntryBytes(e: Entry): (s: bytes)
    requires Sized(e)
    ensures |s| == 12 + |e.user| + |e.addr|
  {
    Be(e.time, 8) + Be(e.port, 2) + Prefixed(e.user) + Prefixed(e.addr)
  }

  ghost function LogBody(es: seq<Entry>): (s: bytes)
    requires AllSized(es)
  {
    if es == [] then [] else LogBody(es[..|es| - 1]) + EntryBytes(es[|es| - 1])
  }

  ghost function LogPayload(es: seq<Entry>): bytes
    requires AllSized(es) && |es| < 0x1_0000
  {
    Be(|es|, 2) + LogBody(es)
  }

  function Last(es: seq<Entry>, k: nat): seq<Entry>
    requires k <= |es|
  {
    es[|es| - k..]
  }

  /** Whether the last `k` entries can be sent in one response. */
  ghost predicate Fits(es: seq<Entry>, k: nat)
    requires AllSized(es)
  {
    k <= |es| && 2 + |LogBody(Last(es, k))| <= PAYLOAD_MAX
  }

  lemma {:induction false} LogBodySplit(a: seq<Entry>, b: seq<Entry>)
    requires AllSized(a) && AllSized(b)
    ensures AllSized(a + b) && LogBody(a + b) == LogBody(a) + LogBody(b)
    decreases |b|
  {
    if b == [] {
      assert a + b == a;
    } else {
      var n := |b| - 1;
      assert (a + b)[..|a + b| - 1] == a + b[..n];
      LogBodySplit(a, b[..n]);
      assert LogBody(a) + (LogBody(b[..n]) + EntryBytes(b[n])) == LogBody(a) + LogBody(b[..n]) + EntryBytes(b[n]);
    }
  }

  lemma {:induction false} LogBodyLength(es: seq<Entry>)
    requires AllSized(es)
    ensures |LogBody(es)| >= 12 * |es|
    decreases |es|
  {
    if es != [] { LogBodyLength(es[..|es| - 1]); }
  }

  /** One more entry from the end costs its own encoded length. */
  lemma OneMore(es: seq<Entry>, k: nat)
    requires AllSized(es) && k < |es|
    ensures |LogBody(Last(es, k + 1))| == |EntryBytes(es[|es| - k - 1])| + |LogBody(Last(es, k))|
  {
    var e := es[|es| - k - 1];
    assert Last(es, k + 1) == [e] + Last(es, k);
    LogBodySplit([e], Last(es, k));
    assert [e][..0] == [];
  }

  lemma {:induction false} FitsDown(es: seq<Entry>, k: nat, j: nat)
    requires AllSized(es) && Fits(es, k) && j <= k
    ensures Fits(es, j) && k <= 340
    decreases k - j
  {
    LogBodyLength(Last(es, k));
    if j < k {
      OneMore(es, k - 1);
      FitsDown(es, k - 1, j);
    }
  }

  /** `k` is the length of the longest suffix that fits. */
  ghost predicate Longest(es: seq<Entry>, k: nat)
    requires AllSized(es)
  {
    forall j: nat :: Fits(es, j) <==> j <= k
  }

  lemma LongestIs(es: seq<Entry>, k: nat)
    requires AllSized(es) && Fits(es, k) && !Fits(es, k + 1)
    ensures Longest(es, k)
  {
    forall j: nat ensures Fits(es, j) <==> j <= k {
      if j <= k {
        FitsDown(es, k, j);
      } else if Fits(es, j) {
        FitsDown(es, j, k + 1);
      }
    }
  }

  lemma LongestUnique(es: seq<Entry>, j: nat, k: nat)
    requires AllSized(es) && Longest(es, j) && Longest(es, k)
    ensures j == k
  {
    assert Fits(es, j) && Fits(es, k);
  }

  lemma FitsNothing(es: seq<Entry>)
    requires AllSized(es)
    ensures Fits(es, 0)
  {
    assert Last(es, 0) == [];
  }

  lemma {:induction false} LongestExists(es: seq<Entry>, k: nat)
    requires AllSized(es) && Fits(es, k)
    ensures exists r: nat :: Longest(es, r)
    decreases |es| - k
  {
    if Fits(es, k + 1) { LongestExists(es, k + 1); } else { LongestIs(es, k); }
  }

  ghost function LongestFit(es: seq<Entry>): (k: nat)
    requires AllSized(es)
    ensures Longest(es, k) && k <= |es|
  {
    FitsNothing(es);
    LongestExists(es, 0);
    var r: nat :| Longest(es, r);
    assert Fits(es, r);
    r
  }

  /** The ring forgets nothing that could have been sent: at most 340 entries fit in a response. */
  lemma RingIsLongEnough(history: seq<Entry>)
    requires AllSized(history)
    ensures AllSized(Held(history)) && LongestFit(Held(history)) == LongestFit(history)
    ensures Last(Held(history), LongestFit(history)) == Last(history, LongestFit(history))
  {
    var h := Held(history);
    if |history| > MAX_LOG_ENTRIES {
      forall k: nat ensures Fits(history, k) <==> Fits(h, k) {
        if k <= |h| { assert Last(history, k) == Last(h, k); }
        if Fits(history, k) { FitsDown(history, k, 0); }
      }
      LongestUnique(h, LongestFit(h), LongestFit(history));
      FitsDown(history, LongestFit(history), 0);
    }
  }

  // Client side: what each formatter prints, and whether it found the payload well formed.

  datatype Listing<T> = Listing(lines: seq<T>, ok: bool)

  function Names(s: bytes, off: nat, n: nat): Listing<bytes>
    decreases n
  {
    if n == 0 then Listing([], true)
    else if off >= |s| || off + 1 + s[off] as nat > |s| then Listing([], false)
    else
      var next: nat := off + 1 + s[off] as nat;
      var rest := Names(s, next, n - 1);
      rest.(lines := [s[off + 1..next]] + rest.lines)
  }

  /** `mon_format_users` */
  function ReadUsers(payload: Option<bytes>): Listing<bytes> {
    if payload.None? || payload.value == [] then Listing([], false)
    else Names(payload.value, 1, payload.value[0])
  }

  datatype Cut = Cut(entry: Entry, next: nat) | Bad

  /** One entry of an access log payload. */
  function EntryAt(s: bytes, off: nat): (c: Cut)
    ensures c.Cut? ==> off < c.next <= |s|
  {
    if off + 11 > |s| then Bad
    else
      var ul: nat := s[off + 10];
      if off + 11 + ul + 1 > |s| then Bad
      else
        var al: nat := s[off + 11 + ul];
        if off + 12 + ul + al > |s| then Bad
        else
          Powers();
          UnbeBound(s[off..off + 8]);
          UnbeBound(s[off + 8..off + 10]);
          Cut(Entry(s[off + 11..off + 11 + ul], s[off + 12 + ul..off + 12 + ul + al],
                    Unbe(s[off + 8..off + 10]), Unbe(s[off..off + 8])), off + 12 + ul + al)
  }

  function Entries(s: bytes, off: nat, n: nat): Listing<Entry>
    decreases n
  {
    if n == 0 then Listing([], true)
    else match EntryAt(s, off)
      case Bad => Listing([], false)
      case Cut(e, next) => var rest := Entries(s, next, n - 1); rest.(lines := [e] + rest.lines)
  }

  /** `mon_format_access_log` */
  function ReadLog(payload: Option<bytes>): Listing<Entry> {
    if payload.None? || |payload.value| < 2 then Listing([], false)
    else Entries(payload.value, 2, Unbe(payload.value[..2]))
  }

  /** `mon_format_metrics` */
  function ReadMetrics(payload: Option<bytes>): Listing<nat> {
    if payload.None? || |payload.value| != METRICS_LEN then Listing([], false)
    else
      var p := payload.value;
      Listing([Unbe(p[..8]), Unbe(p[8..16]), Unbe(p[16..])], true)
  }

  // The client reads what the server wrote.

  lemma {:induction false} NamesBodySplit(n: bytes, names: seq<bytes>)
    requires Short([n] + names)
    ensures Short(names) && NamesBody([n] + names) == Prefixed(n) + NamesBody(names)
    decreases |names|
  {
    var all := [n] + names;
    assert forall x :: x in names ==> x in all;
    if names == [] {
      assert all[..0] == [] && all == [n];
    } else {
      var m := |names| - 1;
      assert all[..|all| - 1] == [n] + names[..m];
      assert Short([n] + names[..m]);
      NamesBodySplit(n, names[..m]);
    }
  }

  lemma {:induction false} ReadsNames(s: bytes, off: nat, names: seq<bytes>)
    requires Short(names) && off <= |s| && s[off..] == NamesBody(names)
    ensures Names(s, off, |names|) == Listing(names, true)
    decreases |names|
  {
    hide NamesBody;
    if names != [] {
      var n, rest := names[0], names[1..];
      assert names == [n] + rest;
      NamesBodySplit(n, rest);
      var t := s[off..];
      assert t == Prefixed(n) + NamesBody(rest);
      assert s[off] == t[0] == |n|;
      assert s[off + 1..off + 1 + |n|] == t[1..1 + |n|] == n;
      assert s[off + 1 + |n|..] == t[1 + |n|..];
      ReadsNames(s, off + 1 + |n|, rest);
    }
  }

  lemma UsersRoundTrip(names: seq<bytes>)
    requires Short(names) && |names| < 256
    ensures ReadUsers(Some(UsersPayload(names))) == Listing(names, true)
  {
    var p := UsersPayload(names);
    assert p[1..] == NamesBody(names);
    ReadsNames(p, 1, names);
  }

  lemma MetricsRoundTrip(historic: uint64, current: uint64, transferred: uint64)
    ensures ReadMetrics(Some(MetricsPayload(historic, current, transferred)))
            == Listing([historic, current, transferred], true)
  {
    Powers();
    UnbeBe(historic, 8);
    UnbeBe(current, 8);
    UnbeBe(transferred, 8);
    var p := MetricsPayload(historic, current, transferred);
    assert p[..8] == Be(historic, 8) && p[8..16] == Be(current, 8) && p[16..] == Be(transferred, 8);
  }

  lemma ReadsEntry(s: bytes, off: nat, e: Entry)
    requires Sized(e) && off <= |s| && EntryBytes(e) <= s[off..]
    ensures EntryAt(s, off) == Cut(e, off + |EntryBytes(e)|)
  {
    hide Be, Unbe;
    var t, u := EntryBytes(e), |e.user|;
    Powers();
    UnbeBe(e.time, 8);
    UnbeBe(e.port, 2);
    assert forall i :: 0 <= i < |t| ==> s[off + i] == s[off..][i] == t[i];
    assert s[off..off + 8] == Be(e.time, 8);
    assert s[off + 8..off + 10] == Be(e.port, 2);
    assert s[off + 10] == u;
    assert s[off + 11..off + 11 + u] == e.user;
    assert s[off + 11 + u] == |e.addr|;
    assert s[off + 12 + u..off + 12 + u + |e.addr|] == e.addr;
  }

  lemma {:induction false} ReadsEntries(s: bytes, off: nat, es: seq<Entry>)
    requires AllSized(es) && off <= |s| && s[off..] == LogBody(es)
    ensures Entries(s, off, |es|) == Listing(es, true)
    decreases |es|
  {
    hide EntryAt, EntryBytes;
    if es != [] {
      var e, rest := es[0], es[1..];
      assert es == [e] + rest;
      LogBodySplit([e], rest);
      assert [e][..0] == [];
      assert LogBody([e]) == EntryBytes(e);
      ReadsEntry(s, off, e);
      var next := off + |EntryBytes(e)|;
      assert s[next..] == s[off..][|EntryBytes(e)|..];
      ReadsEntries(s, next, rest);
    }
  }

  lemma LogRoundTrip(es: seq<Entry>)
    requires AllSized(es) && |es| < 0x1_0000
    ensures ReadLog(Some(LogPayload(es))) == Listing(es, true)
  {
    hide Entries, Be, Unbe;
    Powers();
    UnbeBe(|es|, 2);
    var p := LogPayload(es);
    assert p[..2] == Be(|es|, 2) && p[2..] == LogBody(es);
    ReadsEntries(p, 2, es);
  }

  // And reads nothing into a payload that is not there.

  lemma NamesPrepend(n: bytes, ns: seq<bytes>, all: bytes, rest: bytes)
    requires |n| < 256 && Short(ns) && NamesBody(ns) <= rest && Prefixed(n) + rest == all
    ensures Short([n] + ns) && NamesBody([n] + ns) <= all
  {
    NamesBodySplit(n, ns);
  }

  lemma {:induction false} NamesAreThere(s: bytes, off: nat, n: nat)
    requires off <= |s| && Names(s, off, n).ok
    ensures var ns := Names(s, off, n).lines; Short(ns) && |ns| == n && NamesBody(ns) <= s[off..]
    decreases n
  {
    if n > 0 {
      var next: nat := off + 1 + s[off] as nat;
      var n0 := s[off + 1..next];
      assert Names(s, off, n).lines == [n0] + Names(s, next, n - 1).lines;
      NamesAreThere(s, next, n - 1);
      assert Prefixed(n0) + s[next..] == s[off..];
      NamesPrepend(n0, Names(s, next, n - 1).lines, s[off..], s[next..]);
    }
  }

  /** A listing is accepted only if the payload starts with the encoding of exactly what is printed. */
  lemma UsersAreThere(payload: Option<bytes>)
    requires ReadUsers(payload).ok
    ensures var ns := ReadUsers(payload).lines;
            payload.Some? && Short(ns) && |ns| < 256 && UsersPayload(ns) <= payload.value
  {
    var p := payload.value;
    NamesAreThere(p, 1, p[0]);
    assert [p[0]] + p[1..] == p;
  }

  lemma EntryIsThere(s: bytes, off: nat)
    requires EntryAt(s, off).Cut?
    ensures var c := EntryAt(s, off); Sized(c.entry) && EntryBytes(c.entry) + s[c.next..] == s[off..]
  {
    hide Be, Unbe;
    var c := EntryAt(s, off);
    BeUnbe(s[off..off + 8]);
    BeUnbe(s[off + 8..off + 10]);
    var u := |c.entry.user|;
    assert s[off..] == s[off..off + 8] + s[off + 8..off + 10] + [s[off + 10]] + s[off + 11..off + 11 + u]
                       + [s[off + 11 + u]] + s[off + 12 + u..c.next] + s[c.next..];
  }

  lemma {:induction false} EntriesAreThere(s: bytes, off: nat, n: nat)
    requires off <= |s| && Entries(s, off, n).ok
    ensures var es := Entries(s, off, n).lines; AllSized(es) && |es| == n && LogBody(es) <= s[off..]
    decreases n
  {
    hide EntryAt, EntryBytes;
    if n > 0 {
      var c := EntryAt(s, off);
      EntryIsThere(s, off);
      EntriesAreThere(s, c.next, n - 1);
      var es := Entries(s, c.next, n - 1).lines;
      LogBodySplit([c.entry], es);
      assert [c.entry][..0] == [];
      assert LogBody([c.entry]) == EntryBytes(c.entry);
    }
  }

  lemma LogIsThere(payload: Option<bytes>)
    requires ReadLog(payload).ok
    ensures var es := ReadLog(payload).lines;
            payload.Some? && AllSized(es) && |es| < 0x1_0000 && LogPayload(es) <= payload.value
  {
    hide Entries, Be, Unbe;
    var p := payload.value;
    Powers();
    UnbeBound(p[..2]);
    BeUnbe(p[..2]);
    EntriesAreThere(p, 2, Unbe(p[..2]));
    assert p[..2] + p[2..] == p;
  }
}
