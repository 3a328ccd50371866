/** The circular access log of src/server/access_log.c. */
module AccessLog {
  import opened Bytes
  import opened MonProtocol

  const MAX_LOG_ENTRIES: nat := 1024

  type uint64 = v: int | 0 <= v < 0x1_0000_0000_0000_0000

  /** What a log entry says. */
  datatype Entry = Entry(user: bytes, addr: bytes, port: uint16, time: uint64)

  /** What a slot of the ring stores. */
  datatype Record = Record(user: Block, addr: Block, port: uint16, time: uint64)

  function EntryOf(r: Record): Entry {
    Entry(CStr(r.user), CStr(r.addr), r.port, r.time)
  }

  const DASH: bytes := [45]

  /** What is kept of a string passed in: 255 bytes, and a dash for NULL. */
  function Kept(s: Option<bytes>): bytes {
    Clipped(if s.Some? then s.value else DASH)
  }

  /** The entries the log still holds of everything ever added. */
  function Held(history: seq<Entry>): (held: seq<Entry>)
    ensures |held| <= MAX_LOG_ENTRIES
  {
    if |history| <= MAX_LOG_ENTRIES then history else history[|history| - MAX_LOG_ENTRIES..]
  }

  /** These are the newest 1024. */
  lemma HoldsTheNewest(history: seq<Entry>)
    ensures |Held(history)| == if |history| < 1024 then |history| else 1024
    ensures Held(history) == history[|history| - |Held(history)|..]
  {
  }

  ghost predicate WellFormed(e: Entry) {
    IsCString(e.user) && |e.user| <= 255 && IsCString(e.addr) && |e.addr| <= 255
  }

  /** Entry number `k` of the history is in slot `k % 1024` for as long as it is held. */
  ghost predicate Ring(es: seq<Record>, history: seq<Entry>) {
    && |es| == MAX_LOG_ENTRIES
    && forall k :: |history| - |Held(history)| <= k < |history| ==> EntryOf(es[k % MAX_LOG_ENTRIES]) == history[k]
  }

  /** Two entries held at once are in different slots. */
  lemma Slots(n: nat, k: nat)
    requires k < n && n - k < MAX_LOG_ENTRIES
    ensures k % MAX_LOG_ENTRIES != n % MAX_LOG_ENTRIES
  {
  }

  lemma RingAdd(es: seq<Record>, history: seq<Entry>, r: Record)
    requires Ring(es, history)
    ensures Ring(es[|history| % MAX_LOG_ENTRIES := r], history + [EntryOf(r)])
  {
    hide EntryOf;
    var n := |history|;
    var es', h' := es[n % MAX_LOG_ENTRIES := r], history + [EntryOf(r)];
    forall k | |h'| - |Held(h')| <= k < |h'| ensures EntryOf(es'[k % MAX_LOG_ENTRIES]) == h'[k] {
      if k < n { Slots(n, k); }
    }
  }

  lemma RingRead(es: seq<Record>, history: seq<Entry>, r: nat, i: nat)
    requires Ring(es, history) && i < |Held(history)| && r == (|history| - |Held(history)|) % MAX_LOG_ENTRIES
    ensures EntryOf(es[(r + i) % MAX_LOG_ENTRIES]) == Held(history)[i]
  {
    hide EntryOf;
    RingIndex(|history| - |Held(history)|, i);
  }

  lemma RingIndex(from: nat, i: nat)
    ensures (from % MAX_LOG_ENTRIES + i) % MAX_LOG_ENTRIES == (from + i) % MAX_LOG_ENTRIES
  {
  }

  lemma StoredEntry(user: Option<bytes>, addr: Option<bytes>, port: uint16, time: uint64)
    requires (user.Some? ==> IsCString(user.value)) && (addr.Some? ==> IsCString(addr.value))
    ensures var u := if user.Some? then user.value else DASH;
            var a := if addr.Some? then addr.value else DASH;
            var e := Entry(Kept(user), Kept(addr), port, time);
            EntryOf(Record(Stored(u), Stored(a), port, time)) == e && WellFormed(e)
  {
    hide Stored, CStr;
    StoredString(if user.Some? then user.value else DASH);
    StoredString(if addr.Some? then addr.value else DASH);
  }

  /** The ring and its two counters, for this history. */
  ghost predicate Keeps(es: seq<Record>, count: nat, next: nat, history: seq<Entry>) {
    && Ring(es, history) && count == |Held(history)| && next == |history| % MAX_LOG_ENTRIES
    && (forall e :: e in history ==> WellFormed(e))
  }

  lemma KeepsOneMore(es: seq<Record>, count: nat, next: nat, history: seq<Entry>, r: Record)
    requires Keeps(es, count, next, history) && WellFormed(EntryOf(r)) && |es| == MAX_LOG_ENTRIES
    ensures next < MAX_LOG_ENTRIES
    ensures Keeps(es[next := r], if count < MAX_LOG_ENTRIES then count + 1 else count, (next + 1) % MAX_LOG_ENTRIES,
                  history + [EntryOf(r)])
  {
    hide EntryOf, Ring, WellFormed, Held;
    HoldsTheNewest(history);
    HoldsTheNewest(history + [EntryOf(r)]);
    RingIndex(|history|, 1);
    RingAdd(es, history, r);
  }

  class Log {
    const entries: array<Record>
    var count: nat
    var next: nat
    ghost var history: seq<Entry>

    ghost predicate Valid()
      reads this, entries
    {
      entries.Length == MAX_LOG_ENTRIES && Keeps(entries[..], count, next, history)
    }

    /** `access_log_init` */
    constructor ()
      ensures Valid() && history == [] && fresh(entries)
    {
      entries := new Record[MAX_LOG_ENTRIES](i => Record(BLANK, BLANK, 0, 0));
      count, next, history := 0, 0, [];
    }

    method Put(i: nat, r: Record)
      requires i < entries.Length
      modifies entries
      ensures entries[..] == old(entries[..])[i := r]
    {
      entries[i] := r;
    }

    /** `access_log_add`; the clock is a parameter. */
    method Add(user: Option<bytes>, addr: Option<bytes>, port: uint16, time: uint64)
      requires Valid() && (user.Some? ==> IsCString(user.value)) && (addr.Some? ==> IsCString(addr.value))
      modifies this, entries
      ensures Valid() && history == old(history) + [Entry(Kept(user), Kept(addr), port, time)]
    {
      hide EntryOf, Keeps, Kept, WellFormed, Stored;
      var u := if user.Some? then user.value else DASH;
      var a := if addr.Some? then addr.value else DASH;
      ghost var r := Record(Stored(u), Stored(a), port, time);
      ghost var e := Entry(Kept(user), Kept(addr), port, time);
      StoredEntry(user, addr, port, time);
      KeepsOneMore(entries[..], count, next, history, r);
      Put(next, Record(Stored(u), Stored(a), port, time));
      next := (next + 1) % MAX_LOG_ENTRIES;
      if count < MAX_LOG_ENTRIES {
        count := count + 1;
      }
      history := history + [e];
    }

    /** `access_log_oldest_index`: read from there, the ring holds the last entries in chronological order. */
    method OldestIndex() returns (r: nat)
      requires Valid()
      ensures r < MAX_LOG_ENTRIES && r == (|history| - count) % MAX_LOG_ENTRIES
      ensures forall i :: 0 <= i < count ==> EntryOf(entries[(r + i) % MAX_LOG_ENTRIES]) == Held(history)[i]
    {
      r := if count < MAX_LOG_ENTRIES then 0 else next;
      forall i | 0 <= i < count ensures EntryOf(entries[(r + i) % MAX_LOG_ENTRIES]) == Held(history)[i] {
        RingRead(entries[..], history, r, i);
      }
    }
  }
}
