/** The item table of the event loop, src/shared/selector.c. */
module Selector {
  import opened Bytes

  const FD_UNUSED: int := -1
  const ITEMS_MAX_SIZE: nat := 1024

  // What the table means: the descriptors registered, with their interest and attachment.

  datatype Entry = Entry(read: bool, write: bool, data: nat)

  type Table = map<int, Entry>

  ghost function Readers(t: Table): set<int> {
    set fd | fd in t && t[fd].read
  }

  ghost function Writers(t: Table): set<int> {
    set fd | fd in t && t[fd].write
  }

  /** `m` is the largest registered descriptor, or 0 when there is none. */
  ghost predicate IsTop(t: Table, m: int) {
    (forall fd :: fd in t ==> fd <= m) && (m == 0 || m in t) && 0 <= m
  }

  predicate InvalidFd(fd: int) {
    fd < 0 || fd >= ITEMS_MAX_SIZE
  }

  /** What a caller of the selector may do; a close callback may do more of the same before its item goes. */
  datatype Op =
    | Register(fd: int, entry: Entry, memory: bool)     // memory: the table can be made larger if it has to be
    | Unregister(fd: int, callback: seq<Op>)
    | SetInterest(fd: int, read: bool, write: bool)

  /** What an operation means: in a table without limits, a callback first and then the item it was called for. */
  function Effect(t: Table, op: Op): Table
    decreases op
  {
    match op
    case Register(fd, e, _) => if InvalidFd(fd) || fd in t then t else t[fd := e]
    case Unregister(fd, callback) => if InvalidFd(fd) || fd !in t then t else Effects(t, callback) - {fd}
    case SetInterest(fd, r, w) => if InvalidFd(fd) || fd !in t then t else t[fd := t[fd].(read := r, write := w)]
  }

  function Effects(t: Table, ops: seq<Op>): Table
    decreases ops
  {
    if ops == [] then t else Effects(Effect(t, ops[0]), ops[1..])
  }

  /** No operation in the list, nor in any callback of it, unregisters `fd`. */
  predicate Spares(ops: seq<Op>, fd: int)
    decreases ops
  {
    ops == [] || (SparesOne(ops[0], fd) && Spares(ops[1..], fd))
  }

  predicate SparesOne(op: Op, fd: int)
    decreases op
  {
    op.Unregister? ==> op.fd != fd && Spares(op.callback, fd)
  }

  /** No close callback unregisters the item it is being called for. */
  predicate Tame(ops: seq<Op>)
    decreases ops
  {
    ops == [] || (TameOne(ops[0]) && Tame(ops[1..]))
  }

  predicate TameOne(op: Op)
    decreases op
  {
    op.Unregister? ==> Spares(op.callback, op.fd) && Tame(op.callback)
  }

  lemma {:induction false} SparedStays(t: Table, op: Op, fd: int)
    requires SparesOne(op, fd) && fd in t
    ensures fd in Effect(t, op)
    decreases op
  {
    if op.Unregister? && !InvalidFd(op.fd) && op.fd in t {
      SparedAllStays(t, op.callback, fd);
    }
  }

  lemma {:induction false} SparedAllStays(t: Table, ops: seq<Op>, fd: int)
    requires Spares(ops, fd) && fd in t
    ensures fd in Effects(t, ops)
    decreases ops
  {
    if ops != [] {
      SparedStays(t, ops[0], fd);
      SparedAllStays(Effect(t, ops[0]), ops[1..], fd);
    }
  }

  // Sizes.

  function Pow2(n: nat): (p: nat)
    ensures p >= 1
  {
    if n == 0 then 1 else 2 * Pow2(n - 1)
  }

  /** How many bits `n` takes. */
  function Bits(n: nat): nat {
    if n == 0 then 0 else 1 + Bits(n / 2)
  }

  /** `1 << bits` is the first power of two above `n`. */
  lemma {:induction false} PowerAbove(n: nat)
    ensures n < Pow2(Bits(n)) && (n > 0 ==> Pow2(Bits(n)) <= 2 * n)
  {
    if n > 0 { PowerAbove(n / 2); }
  }

  /** What `next_capacity` returns. */
  function Capacity(n: nat): nat {
    (if Pow2(Bits(n)) > ITEMS_MAX_SIZE then ITEMS_MAX_SIZE else Pow2(Bits(n))) + 1
  }

  /** There is always room for `n`, for every `n` the platform allows. */
  lemma CapacityExceeds(n: nat)
    ensures n <= 1024 ==> n < Capacity(n) <= 1025
    ensures n >= 1024 ==> Capacity(n) == 1025
  {
    PowerAbove(n);
  }

  // What the operations do to a table of a given size.

  datatype Sized = Sized(table: Table, size: nat)

  /**
   * One operation; None is an access outside the table's memory.  Registering
   * indexes the table at its end, changing an interest and unregistering
   * anywhere past it, since none of them tests for that; and unregistering goes
   * on with a pointer that a callback has made stale by growing the table, or
   * clears the bit of descriptor -1 if the callback unregistered the same item.
   */
  function Do(s: Sized, op: Op): Option<Sized>
    decreases op
  {
    if InvalidFd(op.fd) then Some(s)
    else
      match op
      case Register(fd, e, memory) =>
        if fd == s.size then None
        else if fd > s.size then if memory then Some(Sized(s.table[fd := e], Capacity(fd))) else Some(s)
        else Some(if fd in s.table then s else s.(table := s.table[fd := e]))
      case SetInterest(fd, r, w) =>
        if fd >= s.size then None
        else Some(if fd in s.table then s.(table := s.table[fd := s.table[fd].(read := r, write := w)]) else s)
      case Unregister(fd, callback) =>
        if fd >= s.size then None
        else if fd !in s.table then Some(s)
        else
          match DoAll(s, callback)
          case None => None
          case Some(q) => if q.size != s.size || fd !in q.table then None else Some(q.(table := q.table - {fd}))
  }

  function DoAll(s: Sized, ops: seq<Op>): Option<Sized>
    decreases ops
  {
    if ops == [] then Some(s)
    else
      match Do(s, ops[0])
      case None => None
      case Some(q) => DoAll(q, ops[1..])
  }

  /** Exactly which operations go outside by themselves. */
  lemma OutsideExactly(s: Sized, op: Op)
    requires op.Unregister? ==> op.callback == []
    ensures Do(s, op).None? <==> !InvalidFd(op.fd) && if op.Register? then op.fd == s.size else op.fd >= s.size
  {
  }

  /** A callback that unregisters its own item, or makes the table larger, makes unregistering go outside. */
  lemma CallbacksGoOutside(s: Sized, fd: int, other: int, e: Entry)
    requires fd in s.table && 0 <= fd < s.size && s.size < other < 1024
    ensures Do(s, Unregister(fd, [Unregister(fd, [])])).None?
    ensures Do(s, Unregister(fd, [Register(other, e, true)])).None?
  {
    CapacityExceeds(other);
    var own, grows := Unregister(fd, []), Register(other, e, true);
    var gone, grown := s.(table := s.table - {fd}), Sized(s.table[other := e], Capacity(other));
    assert DoAll(s, []) == Some(s) && [own][1..] == [] && [grows][1..] == [];
    assert Do(s, own) == Some(gone) && Do(s, grows) == Some(grown);
    assert DoAll(s, [own]) == DoAll(gone, []) == Some(gone);
    assert DoAll(s, [grows]) == DoAll(grown, []) == Some(grown);
  }

  /** Every descriptor named, in callbacks too, is one the selector refuses or has a slot. */
  predicate Within(ops: seq<Op>, size: nat)
    decreases ops
  {
    ops == [] || (WithinOne(ops[0], size) && Within(ops[1..], size))
  }

  predicate WithinOne(op: Op, size: nat)
    decreases op
  {
    (InvalidFd(op.fd) || op.fd < size) && (op.Unregister? ==> Within(op.callback, size))
  }

  lemma {:induction false} FullIsWithin(ops: seq<Op>)
    ensures Within(ops, ITEMS_MAX_SIZE)
    decreases ops
  {
    if ops != [] {
      if ops[0].Unregister? { FullIsWithin(ops[0].callback); }
      FullIsWithin(ops[1..]);
    }
  }

  /**
   * With a slot for every descriptor named, and callbacks that leave their own
   * item alone, the table's memory is all that is accessed and the operations
   * mean what they should.
   */
  lemma {:induction false} StaysInside(s: Sized, op: Op)
    requires WithinOne(op, s.size) && TameOne(op)
    ensures Do(s, op) == Some(Sized(Effect(s.table, op), s.size))
    decreases op
  {
    if op.Unregister? && !InvalidFd(op.fd) && op.fd in s.table {
      AllStayInside(s, op.callback);
      SparedAllStays(s.table, op.callback, op.fd);
    }
  }

  lemma {:induction false} AllStayInside(s: Sized, ops: seq<Op>)
    requires Within(ops, s.size) && Tame(ops)
    ensures DoAll(s, ops) == Some(Sized(Effects(s.table, ops), s.size))
    decreases ops
  {
    if ops != [] {
      StaysInside(s, ops[0]);
      AllStayInside(Sized(Effect(s.table, ops[0]), s.size), ops[1..]);
    }
  }

  /** So in the server's table, whatever descriptors are named. */
  lemma FullStaysInside(t: Table, ops: seq<Op>)
    requires Tame(ops)
    ensures DoAll(Sized(t, 1025), ops) == Some(Sized(Effects(t, ops), 1025))
  {
    FullIsWithin(ops);
    WithinMore(ops, ITEMS_MAX_SIZE, 1025);
    AllStayInside(Sized(t, 1025), ops);
  }

  lemma {:induction false} WithinMore(ops: seq<Op>, n: nat, m: nat)
    requires Within(ops, n) && n <= m
    ensures Within(ops, m)
    decreases ops
  {
    if ops != [] {
      if ops[0].Unregister? { WithinMore(ops[0].callback, n, m); }
      WithinMore(ops[1..], n, m);
    }
  }

  /** `next_capacity`, a shifting loop. */
  method NextCapacity(n: nat) returns (c: nat)
    ensures c == Capacity(n)
  {
    var bits: nat := 0;
    var tmp: nat := n;
    while tmp != 0
      invariant bits + Bits(tmp) == Bits(n)
    {
      tmp := tmp / 2;
      bits := bits + 1;
    }
    tmp := Pow2(bits);
    if tmp > ITEMS_MAX_SIZE {
      tmp := ITEMS_MAX_SIZE;
    }
    c := tmp + 1;
  }

  datatype Status = Success | Args | MaxFd | NoMemory | InUse | Overrun

  /** An item of the table; only its `fd` means anything while it is unused. */
  datatype Item = Item(fd: int, read: bool, write: bool, data: nat)

  function TableOf(es: seq<Item>): Table {
    map i: int | 0 <= i < |es| && es[i].fd != FD_UNUSED :: Entry(es[i].read, es[i].write, es[i].data)
  }

  ghost predicate SelfIndexed(es: seq<Item>) {
    forall i :: 0 <= i < |es| ==> es[i].fd == FD_UNUSED || es[i].fd == i
  }

  lemma Occupied(es: seq<Item>, fd: int, e: Entry)
    requires 0 <= fd < |es| && SelfIndexed(es)
    ensures var es' := es[fd := Item(fd, e.read, e.write, e.data)]; TableOf(es') == TableOf(es)[fd := e] && SelfIndexed(es')
  {
  }

  lemma Emptied(es: seq<Item>, fd: int, item: Item)
    requires 0 <= fd < |es| && SelfIndexed(es) && item.fd == FD_UNUSED
    ensures TableOf(es[fd := item]) == TableOf(es) - {fd} && SelfIndexed(es[fd := item])
  {
  }

  /** Unused items added at the end change nothing. */
  lemma GrownTable(es: seq<Item>, es': seq<Item>)
    requires SelfIndexed(es) && |es| <= |es'| && es'[..|es|] == es && forall k :: |es| <= k < |es'| ==> es'[k].fd == FD_UNUSED
    ensures TableOf(es') == TableOf(es) && SelfIndexed(es')
  {
    assert forall k :: 0 <= k < |es| ==> es'[k] == es'[..|es|][k];
  }

  /** Adding or changing one entry changes the fd sets at that descriptor only. */
  lemma SetsWith(t: Table, fd: int, e: Entry)
    ensures Readers(t[fd := e]) == Readers(t) - {fd} + if e.read then {fd} else {}
    ensures Writers(t[fd := e]) == Writers(t) - {fd} + if e.write then {fd} else {}
  {
  }

  lemma SetsWithout(t: Table, fd: int)
    ensures Readers(t - {fd}) == Readers(t) - {fd} && Writers(t - {fd}) == Writers(t) - {fd}
  {
  }

  lemma TopWith(t: Table, fd: int, e: Entry, m: int)
    requires IsTop(t, m) && fd >= 0
    ensures IsTop(t[fd := e], if fd > m then fd else m)
  {
  }

  lemma AboveTop(es: seq<Item>, m: int, i: int)
    requires IsTop(TableOf(es), m) && m < i < |es|
    ensures es[i].fd == FD_UNUSED
  {
    assert i !in TableOf(es);
  }

  lemma KnownFd(es: seq<Item>, fd: int)
    requires SelfIndexed(es) && fd in TableOf(es)
    ensures 0 <= fd < |es| && es[fd].fd == fd
  {
  }

  lemma TopBounds(es: seq<Item>, m: int)
    requires IsTop(TableOf(es), m) && |es| >= 1
    ensures 0 <= m < |es|
  {
  }

  class FdSelector {
    var fds: array<Item>
    var maxFd: int
    var masterR: set<int>
    var masterW: set<int>

    ghost function View(): Table
      reads this, fds
    {
      TableOf(fds[..])
    }

    ghost function Contents(): Sized
      reads this, fds
    {
      Sized(View(), fds.Length)
    }

    /** Items know their own index, the fd sets are the interests, and `max_fd` is the true maximum. */
    ghost predicate Valid()
      reads this, fds
    {
      && fds.Length >= 1
      && SelfIndexed(fds[..])
      && masterR == Readers(View()) && masterW == Writers(View())
      && IsTop(View(), maxFd)
    }

    /** The server's table, which has a slot for every descriptor `select` can watch. */
    ghost predicate Full()
      reads this
    {
      fds.Length == ITEMS_MAX_SIZE + 1
    }

    /** `selector_new`, once memory was found for `initial` elements. */
    constructor (initial: nat)
      requires initial <= ITEMS_MAX_SIZE
      ensures Valid() && fresh(fds) && View() == map[] && fds.Length == Capacity(initial)
      ensures initial == ITEMS_MAX_SIZE ==> Full()
    {
      CapacityExceeds(initial);
      var size := NextCapacity(initial);
      fds := new Item[size](i => Item(FD_UNUSED, false, false, 0));
      maxFd, masterR, masterW := 0, {}, {};
    }

    /** `items_init` and `realloc`: items are kept, and the ones added are unused. */
    method EnsureCapacity(n: nat, memory: bool) returns (s: Status)
      requires Valid()
      modifies this`fds
      ensures Valid() && View() == old(View()) && (fds == old(fds) || fresh(fds))
      ensures s == if n < old(fds.Length) then Success else if n > ITEMS_MAX_SIZE then MaxFd
                   else if memory then Success else NoMemory
      ensures if s == Success && n >= old(fds.Length) then fds.Length == Capacity(n) > n else fds == old(fds)
    {
      CapacityExceeds(n);
      if n < fds.Length {
        return Success;
      }
      if n > ITEMS_MAX_SIZE {
        return MaxFd;
      }
      var size := NextCapacity(n);
      if !memory {
        return NoMemory;
      }
      var grown := Realloc(size);
      GrownTable(fds[..], grown[..]);
      fds := grown;
      s := Success;
    }

    /** `realloc` and `items_init`. */
    method Realloc(size: nat) returns (grown: array<Item>)
      requires fds.Length <= size
      ensures fresh(grown) && grown.Length == size && grown[..fds.Length] == fds[..]
      ensures forall k :: fds.Length <= k < size ==> grown[k].fd == FD_UNUSED
    {
      grown := new Item[size](i => Item(0, false, false, 0));
      for i := 0 to fds.Length
        invariant grown[..i] == fds[..i]
      {
        grown[i] := fds[i];
      }
      for i := fds.Length to size
        invariant grown[..fds.Length] == fds[..]
        invariant forall k :: fds.Length <= k < i ==> grown[k].fd == FD_UNUSED
      {
        grown[i] := grown[i].(fd := FD_UNUSED);
      }
    }

    /** `items_update_fdset_for_fd` */
    method UpdateSets(item: Item)
      modifies this`masterR, this`masterW
      ensures masterR == old(masterR) - {item.fd} + if item.fd != FD_UNUSED && item.read then {item.fd} else {}
      ensures masterW == old(masterW) - {item.fd} + if item.fd != FD_UNUSED && item.write then {item.fd} else {}
    {
      masterR := masterR - {item.fd};
      masterW := masterW - {item.fd};
      if item.fd != FD_UNUSED {
        if item.read { masterR := masterR + {item.fd}; }
        if item.write { masterW := masterW + {item.fd}; }
      }
    }

    /**
     * `selector_register`.  The test made before the table is indexed lets
     * `fd == fd_size` through; `Overrun` is the access past its end that follows.
     */
    method Add(fd: int, e: Entry, memory: bool) returns (s: Status)
      requires Valid()
      modifies this, fds
      ensures Valid() && (fds == old(fds) || (fresh(fds) && fds.Length > old(fds.Length))) && (old(Full()) ==> fds == old(fds))
      ensures s == if InvalidFd(fd) then Args
                   else if fd == old(fds.Length) then Overrun
                   else if fd > old(fds.Length) && !memory then NoMemory
                   else if fd in old(View()) then InUse
                   else Success
      ensures View() == if s == Success then old(View())[fd := e] else old(View())
      ensures fds.Length == if s == Success && fd > old(fds.Length) then Capacity(fd) else old(fds.Length)
    {
      hide SelfIndexed, IsTop, Readers, Writers;
      if InvalidFd(fd) {
        return Args;
      }
      if fd > fds.Length {
        s := EnsureCapacity(fd, memory);
        if s != Success {
          return;
        }
      }
      if fd >= fds.Length {
        return Overrun;
      }
      if fds[fd].fd != FD_UNUSED {
        return InUse;
      }
      Occupy(fd, e);
      if fd > maxFd {
        maxFd := fd;
      }
      s := Success;
    }

    /** An item is written and the fd sets follow. */
    method Occupy(fd: int, e: Entry)
      requires SelfIndexed(fds[..]) && masterR == Readers(View()) && masterW == Writers(View()) && 0 <= fd < fds.Length
      requires IsTop(View(), maxFd)
      modifies this`masterR, this`masterW, fds
      ensures SelfIndexed(fds[..]) && masterR == Readers(View()) && masterW == Writers(View())
      ensures View() == old(View())[fd := e] && IsTop(View(), if fd > maxFd then fd else maxFd)
    {
      hide SelfIndexed, TableOf, IsTop, Readers, Writers;
      ghost var before := fds[..];
      Occupied(before, fd, e);
      SetsWith(TableOf(before), fd, e);
      TopWith(TableOf(before), fd, e, maxFd);
      fds[fd] := Item(fd, e.read, e.write, e.data);
      assert fds[..] == before[fd := Item(fd, e.read, e.write, e.data)];
      UpdateSets(fds[fd]);
    }

    lemma InTable(fd: int)
      requires Valid() && 0 <= fd < fds.Length && fds[fd].fd != FD_UNUSED
      ensures fds[fd].fd == fd && fd in View() && fd <= maxFd
      ensures View()[fd] == Entry(fds[fd].read, fds[fd].write, fds[fd].data)
    {
      assert fds[..][fd] == fds[fd];
    }

    /** `selector_set_interest` */
    method SetItem(fd: int, read: bool, write: bool) returns (s: Status)
      requires Valid()
      modifies this, fds
      ensures Valid() && fds == old(fds)
      ensures s == if InvalidFd(fd) then Args
                   else if fd >= fds.Length then Overrun
                   else if fd !in old(View()) then Args
                   else Success
      ensures View() == if s == Success then old(View())[fd := old(View())[fd].(read := read, write := write)] else old(View())
    {
      if InvalidFd(fd) {
        return Args;
      }
      if fd >= fds.Length {
        return Overrun;
      }
      if fds[fd].fd == FD_UNUSED {
        return Args;
      }
      InTable(fd);
      Occupy(fd, Entry(read, write, fds[fd].data));
      s := Success;
    }

    /** `items_max_fd` */
    method LargestFd() returns (m: int)
      requires 0 <= maxFd < fds.Length
      requires SelfIndexed(fds[..])
      requires forall i :: maxFd < i < fds.Length ==> fds[i].fd == FD_UNUSED
      ensures IsTop(View(), m)
    {
      m := 0;
      for i := 0 to maxFd + 1
        invariant 0 <= m && (m == 0 || m in View())
        invariant forall k :: 0 <= k < i && fds[k].fd != FD_UNUSED ==> k <= m
      {
        if fds[i].fd != FD_UNUSED {
          if fds[i].fd > m { m := fds[i].fd; }
        }
      }
    }

    /** What `selector_unregister_fd` does once the close callback has returned. */
    method Clear(fd: int)
      requires Valid() && fd in View()
      modifies this, fds
      ensures Valid() && fds == old(fds) && View() == old(View()) - {fd}
    {
      hide SelfIndexed, TableOf, IsTop, Readers, Writers;
      ghost var before := fds[..];
      KnownFd(before, fd);
      TopBounds(before, maxFd);
      SetsWithout(TableOf(before), fd);
      Emptied(before, fd, Item(FD_UNUSED, false, false, 0));
      forall i | maxFd < i < fds.Length ensures before[i].fd == FD_UNUSED {
        AboveTop(before, maxFd, i);
      }
      UpdateSets(fds[fd].(read := false, write := false));
      fds[fd] := Item(FD_UNUSED, false, false, 0);
      assert fds[..] == before[fd := Item(FD_UNUSED, false, false, 0)];
      maxFd := LargestFd();
    }

    /**
     * `selector_unregister_fd`: the item is still registered while its callback
     * runs.  It answers whether the table's memory is all that was accessed.
     */
    method Remove(fd: int, callback: seq<Op>) returns (inside: bool)
      requires Valid()
      modifies this, fds
      ensures Valid() && (fds == old(fds) || (fresh(fds) && fds.Length > old(fds.Length)))
      ensures inside <==> Do(old(Contents()), Unregister(fd, callback)).Some?
      ensures inside ==> Do(old(Contents()), Unregister(fd, callback)) == Some(Contents())
      decreases callback, 1
    {
      hide IsTop, Readers, Writers;
      if InvalidFd(fd) {
        return true;
      }
      if fd >= fds.Length {
        return false;
      }
      if fds[fd].fd == FD_UNUSED {
        return true;
      }
      var table := fds;
      inside := RunAll(callback);
      if inside {
        if fds != table || fds[fd].fd == FD_UNUSED {
          return false;
        }
        Clear(fd);
      }
    }

    /** Any sequence of operations, callbacks included, up to the first that goes outside. */
    method RunAll(ops: seq<Op>) returns (inside: bool)
      requires Valid()
      modifies this, fds
      ensures Valid() && (fds == old(fds) || (fresh(fds) && fds.Length > old(fds.Length)))
      ensures inside <==> DoAll(old(Contents()), ops).Some?
      ensures inside ==> DoAll(old(Contents()), ops) == Some(Contents())
      decreases ops, 0
    {
      hide IsTop, Readers, Writers, Do, TableOf, SelfIndexed;
      if ops == [] {
        return true;
      }
      inside := RunOne(ops[0]);
      if inside {
        inside := RunAll(ops[1..]);
      }
    }

    method RunOne(op: Op) returns (inside: bool)
      requires Valid()
      modifies this, fds
      ensures Valid() && (fds == old(fds) || (fresh(fds) && fds.Length > old(fds.Length)))
      ensures inside <==> Do(old(Contents()), op).Some?
      ensures inside ==> Do(old(Contents()), op) == Some(Contents())
      decreases op, 0
    {
      hide IsTop, Readers, Writers;
      inside := true;
      match op {
        case Register(fd, e, memory) =>
          var s := Add(fd, e, memory);
          inside := s != Overrun;
        case Unregister(fd, callback) =>
          inside := Remove(fd, callback);
        case SetInterest(fd, r, w) =>
          var s := SetItem(fd, r, w);
          inside := s != Overrun;
      }
    }
  }

  /**
   * That case exists: a selector made for 16 elements, as the client's is, has
   * 33 slots, and registering descriptor 33 is let through to a 34th.
   */
  method OverrunExample() returns (s: Status)
    ensures s == Overrun
  {
    assert Bits(16) == 1 + Bits(8) && Bits(8) == 1 + Bits(4) && Bits(4) == 3;
    assert Pow2(5) == 32;
    var selector := new FdSelector(16);
    s := selector.Add(33, Entry(false, true, 0), true);
  }
}
