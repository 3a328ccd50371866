/**
 * The pool of connections as the linked list it is, and closing one through the
 * selector's callbacks, which call back into the close (src/server/socks5nio.c,
 * src/server/socks5.c).
 */
module Pool {
  datatype Kind = Client | Origin

  class Connection {
    var poolNext: Connection?
    var closing: bool
    var cancelled: bool
    var clientFd: int
    var originFd: int
    var clientRegistered: bool
    var originRegistered: bool

    /** `socks5_init` with an accepted descriptor. */
    constructor (fd: nat)
      ensures poolNext == null && !closing && !cancelled && clientFd == fd && originFd == -1
      ensures !clientRegistered && !originRegistered
    {
      poolNext, closing, cancelled := null, false, false;
      clientFd, originFd, clientRegistered, originRegistered := fd, -1, false, false;
    }
  }

  datatype Item = Item(conn: Connection, kind: Kind)

  ghost function Without(s: seq<Connection>, c: Connection): (r: seq<Connection>)
    ensures forall x :: x in r ==> x in s
    ensures c !in s ==> r == s
  {
    if s == [] then [] else if s[0] == c then s[1..] else [s[0]] + Without(s[1..], c)
  }

  lemma {:induction false} WithoutAt(s: seq<Connection>, k: nat)
    requires k < |s| && forall i :: 0 <= i < k ==> s[i] != s[k]
    ensures Without(s, s[k]) == Skipping(s, k)
  {
    if k > 0 {
      WithoutAt(s[1..], k - 1);
      assert s[1..][..k - 1] == s[..k][1..] && s[1..][k..] == s[k + 1..];
    }
  }

  ghost predicate Distinct(s: seq<Connection>) {
    forall i, j :: 0 <= i < j < |s| ==> s[i] != s[j]
  }

  /** The connection after position `k`, or null. */
  ghost function Nth(s: seq<Connection>, k: nat): Connection? {
    if k < |s| then s[k] else null
  }

  /** A list with its element `k` left out. */
  ghost function Skipping(s: seq<Connection>, k: nat): seq<Connection>
    requires k < |s|
  {
    s[..k] + s[k + 1..]
  }

  lemma SkippingIs(s: seq<Connection>, k: nat)
    requires k < |s| && Distinct(s)
    ensures Distinct(Skipping(s, k)) && |Skipping(s, k)| == |s| - 1 && s[k] !in Skipping(s, k)
    ensures forall i :: 0 <= i < |s| - 1 ==> Skipping(s, k)[i] == s[if i < k then i else i + 1]
    ensures Nth(Skipping(s, k), 0) == if k == 0 then Nth(s, 1) else Nth(s, 0)
  {
    var t := Skipping(s, k);
    forall i, j | 0 <= i < j < |t| ensures t[i] != t[j] {
      assert t[i] == s[if i < k then i else i + 1] && t[j] == s[if j < k then j else j + 1];
    }
  }

  lemma SkippingNext(s: seq<Connection>, k: nat, i: nat)
    requires k < |s| && i < |s| - 1
    ensures Nth(Skipping(s, k), i + 1) == if i + 1 < k then Nth(s, i + 1) else Nth(s, i + 2)
  {
  }

  class Proxy {
    var head: Connection?                 // socksv5_pool
    var size: nat                         // socksv5_pool_size
    var current: nat                      // the current_connections metric
    var items: map<int, Item>             // the selector's items in use
    ghost var list: seq<Connection>
    ghost var open: set<int>              // descriptors open
    ghost var closes: seq<int>            // descriptors closed, in order

    ghost predicate Chain()
      reads this`head, this`size, this`current, this`list, list`poolNext
    {
      && size == current == |list| && Distinct(list)
      && head == Nth(list, 0)
      && forall i :: 0 <= i < |list| ==> list[i].poolNext == Nth(list, i + 1)
    }

    /** A connection in the pool, whose descriptors are open, its own, and registered for it. */
    ghost predicate Member(c: Connection)
      reads this`items, this`open, c`closing, c`clientRegistered, c`clientFd, c`originRegistered, c`originFd
    {
      && !c.closing && c.clientRegistered && c.clientFd >= 0
      && c.clientFd in items && items[c.clientFd] == Item(c, Client) && c.clientFd in open
      && (c.originRegistered <==> c.originFd >= 0)
      && (c.originRegistered ==> c.originFd in items && items[c.originFd] == Item(c, Origin) && c.originFd in open)
    }

    predicate Owns(it: Item, fd: int)
      reads it.conn`clientFd, it.conn`originFd
    {
      (if it.kind.Client? then it.conn.clientFd else it.conn.originFd) == fd
    }

    /** The item watches a connection in the pool, by its own descriptor. */
    ghost predicate Watches(fd: int)
      requires fd in items
      reads this`items, this`list, list`clientFd, list`originFd
    {
      fd >= 0 && items[fd].conn in list && Owns(items[fd], fd)
    }

    ghost predicate Valid()
      reads this`head, this`size, this`current, this`list, this`items, this`open, list`poolNext,
            list`closing, list`clientRegistered, list`clientFd, list`originRegistered, list`originFd
    {
      Chain() && (forall c :: c in list ==> Member(c)) && (forall fd :: fd in items ==> Watches(fd)) && open == items.Keys
    }

    constructor ()
      ensures Valid() && list == [] && closes == []
    {
      head, size, current, items := null, 0, 0, map[];
      list, open, closes := [], {}, [];
    }

    /** `socksv5_pool_add` */
    method Add(c: Connection)
      requires Chain() && c !in list
      modifies this`head, this`size, this`current, this`list, c`poolNext
      ensures Chain() && list == [c] + old(list)
    {
      c.poolNext := head;
      head := c;
      size := size + 1;
      current := current + 1;
      list := [c] + list;
    }

    /** `socksv5_passive_accept` of a descriptor the kernel has just given out, once registered. */
    method Accept(c: Connection)
      requires Valid() && c !in list && c.clientFd >= 0 && c.clientFd !in open
      requires !c.closing && !c.clientRegistered && !c.originRegistered && c.originFd == -1
      modifies this, c
      ensures Valid() && list == [c] + old(list) && open == old(open) + {c.clientFd}
    {
      hide Chain;
      items := items[c.clientFd := Item(c, Client)];
      open := open + {c.clientFd};
      c.clientRegistered := true;
      Add(c);
    }

    /** The link that leads to `c`, which is `prev`'s or the pool's own, is made to skip it. */
    method Unlink(prev: Connection?, c: Connection, ghost k: nat)
      requires Chain() && k < |list| && list[k] == c && prev == (if k == 0 then null else list[k - 1])
      modifies this`head, this`size, this`current, this`list, list`poolNext
      ensures Chain() && list == Skipping(old(list), k)
    {
      hide Nth, Distinct, Skipping;
      ghost var before := list;
      SkippingIs(before, k);
      assert c.poolNext == Nth(before, k + 1) && (prev == null ==> k == 0);
      assert forall i :: 0 <= i < |before| && i != k ==> before[i] != c by { Others(before, k); }
      assert forall i :: 0 <= i < |before| && i + 1 != k ==> before[i] != prev by { if k > 0 { Others(before, k - 1); } }
      if prev == null {
        head := c.poolNext;
      } else {
        prev.poolNext := c.poolNext;
      }
      c.poolNext := null;
      size := size - 1;
      if current > 0 {
        current := current - 1;
      }
      list := Skipping(before, k);
      forall i | 0 <= i < |list| ensures list[i].poolNext == Nth(list, i + 1) {
        SkippingNext(before, k, i);
      }
    }

    lemma Others(s: seq<Connection>, k: nat)
      requires k < |s| && Distinct(s)
      ensures forall i :: 0 <= i < |s| && i != k ==> s[i] != s[k]
    {
    }

    /** `socksv5_pool_remove`: `prev` is the connection whose link is followed, or null for the pool's own head. */
    method Remove(c: Connection)
      requires Chain()
      modifies this`head, this`size, this`current, this`list, list`poolNext
      ensures Chain() && list == Without(old(list), c)
    {
      var prev: Connection? := null;
      var cur := head;
      ghost var k := 0;
      while cur != null
        invariant k <= |list| && cur == Nth(list, k)
        invariant prev == (if k == 0 then null else list[k - 1])
        invariant forall i :: 0 <= i < k ==> list[i] != c
        decreases |list| - k
      {
        if cur == c {
          WithoutAt(list, k);
          Unlink(prev, c, k);
          return;
        }
        prev := cur;
        cur := cur.poolNext;
        k := k + 1;
      }
    }

    // Closing.

    predicate OwnsClient(c: Connection, fd: int)
      reads c`clientFd
    {
      fd == c.clientFd && fd >= 0
    }

    predicate OwnsOrigin(c: Connection, fd: int)
      reads c`originFd
    {
      fd == c.originFd && fd >= 0
    }

    /**
     * Half-way through closing `c`: everything is in order but for `c`, whose
     * client item is there if `cl` and origin item if `og`, and which is in the
     * pool as long as its client item is there.
     */
    ghost predicate Between(c: Connection, cl: bool, og: bool)
      reads this, list, c
    {
      && Chain() && c.closing && (c in list <==> cl)
      && (forall x :: x in list && x != c ==> Member(x))
      && (cl ==> c.clientFd in items && items[c.clientFd] == Item(c, Client))
      && (og ==> c.originFd in items && items[c.originFd] == Item(c, Origin))
      && (forall fd :: fd in items && items[fd].conn == c ==>
            if items[fd].kind.Client? then cl && OwnsClient(c, fd) else og && OwnsOrigin(c, fd))
      && (forall fd :: fd in items && items[fd].conn != c ==> Watches(fd))
      && (forall fd :: fd in open <==> fd in items || OwnsClient(c, fd) || OwnsOrigin(c, fd))
      && (c.clientFd >= 0 && c.originFd >= 0 ==> c.clientFd != c.originFd)
    }

    /** `close(fd)`: only of a descriptor that is open and that the selector no longer watches. */
    method CloseFd(fd: int)
      requires fd in open && fd !in items
      modifies this`open, this`closes
      ensures open == old(open) - {fd} && closes == old(closes) + [fd]
    {
      open := open - {fd};
      closes := closes + [fd];
    }

    /** `socksv5_close`, the close callback of a client item: it calls back into the close it was called from. */
    method OnClientClose(c: Connection, fd: int, ghost og: bool)
      requires Between(c, true, og) && fd == c.clientFd
      modifies this`head, this`size, this`current, this`list, list`poolNext, c
      ensures Chain() && list == Without(old(list), c) && c !in list
      ensures c.clientFd == old(c.clientFd) && c.originFd == old(c.originFd) && c.originRegistered == old(c.originRegistered)
      ensures c.closing && !c.clientRegistered && c.cancelled == old(c.cancelled)
      decreases 0, 2
    {
      hide Member, Watches, Nth, Skipping, Without, Owns;
      if c.clientFd == fd {
        c.clientRegistered := false;
      }
      Remove(c);
      Gone(old(list), c);
      Close(c);
    }

    lemma Gone(s: seq<Connection>, c: Connection)
      requires Distinct(s)
      ensures c !in Without(s, c)
      ensures forall x :: x in s && x != c ==> x in Without(s, c)
      ensures c in s ==> |Without(s, c)| == |s| - 1
    {
      if c in s {
        var k :| 0 <= k < |s| && s[k] == c;
        WithoutAt(s, k);
        SkippingIs(s, k);
        forall x | x in s && x != c ensures x in Without(s, c) {
          var j :| 0 <= j < |s| && s[j] == x;
          assert Skipping(s, k)[if j < k then j else j - 1] == x;
        }
      }
    }

    /** `selector_unregister_fd` of the client, with its callback. */
    method UnregisterClient(c: Connection, fd: int, ghost og: bool)
      requires Between(c, true, og) && fd == c.clientFd
      modifies this`head, this`size, this`current, this`list, this`items, list`poolNext, c
      ensures Between(c, false, og) && list == Without(old(list), c) && items == old(items) - {fd}
      ensures c.clientFd == old(c.clientFd) && c.originFd == old(c.originFd) && c.originRegistered == old(c.originRegistered)
      ensures c.cancelled == old(c.cancelled)
      decreases 0, 3
    {
      hide Chain, Distinct, Without, Skipping, Nth, Owns;
      ghost var before := list;
      ChainDistinct();
      OnClientClose(c, fd, og);
      Gone(before, c);
      items := items - {fd};
    }

    lemma ChainDistinct()
      requires Chain()
      ensures Distinct(list)
    {
    }

    /** The client's descriptor is closed once nothing watches it. */
    method CloseClientFd(c: Connection, fd: int, ghost og: bool)
      requires Between(c, false, og) && fd == c.clientFd && fd >= 0 && fd !in items
      modifies this`open, this`closes, c`clientFd
      ensures Between(c, false, og) && c.clientFd == -1
      ensures closes == old(closes) + [old(c.clientFd)]
    {
      hide Chain, Owns;
      CloseFd(fd);
      if c.clientFd == fd { c.clientFd := -1; }
    }

    /** `client_close` */
    method CloseClient(c: Connection, ghost og: bool)
      requires Between(c, true, og) && c.clientRegistered
      modifies this, list`poolNext, c
      ensures Between(c, false, og) && list == Without(old(list), c) && items == old(items) - {old(c.clientFd)}
      ensures closes == old(closes) + [old(c.clientFd)] && c.clientFd == -1
      ensures c.originFd == old(c.originFd) && c.originRegistered == old(c.originRegistered) && c.cancelled == old(c.cancelled)
      decreases 0, 4
    {
      hide Chain, Member, Watches, Owns, Without;
      var fd := c.clientFd;
      if c.clientRegistered && c.clientFd >= 0 {
        c.clientRegistered := false;
        UnregisterClient(c, fd, og);
      }
      if fd >= 0 {
        CloseClientFd(c, fd, og);
      }
    }

    /** `origin_close`, with the origin item's callback. */
    method CloseOrigin(c: Connection)
      requires Between(c, false, c.originRegistered) && c.clientFd == -1 && (c.originRegistered <==> c.originFd >= 0)
      modifies this`items, this`open, this`closes, c
      ensures Between(c, false, false) && c.originFd < 0 && c.clientFd == -1 && c.cancelled == old(c.cancelled)
      ensures items == old(items) - {old(c.originFd)}
      ensures closes == old(closes) + if old(c.originFd) >= 0 then [old(c.originFd)] else []
    {
      hide Chain;
      var fd := c.originFd;
      if c.originRegistered && c.originFd >= 0 {
        c.originRegistered := false;
        if c.originFd == fd { c.originRegistered := false; }
        items := items - {fd};
      }
      if fd >= 0 {
        CloseFd(fd);
        if c.originFd == fd { c.originFd := -1; }
      }
    }

    /**
     * `socks5_connection_close`.  A connection already being closed is left
     * alone, which is what the close callback of its own client item finds.  Of
     * any other each descriptor is closed exactly once, after it has left the
     * selector, the connection leaves the pool, and no other is touched.
     */
    method Close(c: Connection)
      requires c.closing || (Valid() && c in list)
      modifies if c.closing then {} else {this, c}, (if c.closing then [] else list)`poolNext
      ensures !old(c.closing) ==>
                && Valid() && list == Without(old(list), c) && c !in list && c.closing && c.cancelled
                && items == old(items) - {old(c.clientFd), old(c.originFd)}
                && closes == old(closes) + [old(c.clientFd)] + if old(c.originFd) >= 0 then [old(c.originFd)] else []
      decreases if c.closing then 0 else 1, 0
    {
      hide Chain;
      if c.closing {
        return;
      }
      c.closing := true;
      c.cancelled := true;
      CloseClient(c, c.originRegistered);
      CloseOrigin(c);
      assert forall fd :: fd in open <==> fd in items;
      assert open == items.Keys;
    }

    /** `socks5_cancel` */
    method Cancel(c: Connection)
      modifies c`cancelled
      ensures c.cancelled && (old(Valid()) ==> Valid())
    {
      hide Valid;
      c.cancelled := true;
    }

    lemma FirstIs()
      requires Chain()
      ensures head != null ==> list != [] && list[0] == head
      ensures head == null ==> list == [] && size == current == 0
    {
    }

    /** One round of the forced shutdown. */
    method ShutFirst()
      requires Valid() && head != null
      modifies this, set x | x in list
      ensures Valid() && |list| < |old(list)| && (forall x :: x in list ==> x in old(list))
      ensures forall fd :: fd in old(items) ==> fd in closes || fd in items
      ensures forall fd :: fd in old(closes) ==> fd in closes
    {
      hide Chain, Without, Distinct;
      var c := head;
      FirstIs();
      ChainDistinct();
      Gone(list, c);
      Cancel(c);
      Close(c);
      FirstIs();
      if head == c {
        // the program would remove it here, but its close callback already has
        assert false;
      }
    }

    /** `socksv5_pool_force_shutdown`: it ends, with the pool empty and every descriptor there was closed. */
    method ForceShutdown()
      requires Valid()
      modifies this, set x | x in list
      ensures Valid() && list == [] && items == map[] && open == {} && size == current == 0
      ensures forall fd :: fd in old(open) ==> fd in closes
    {
      hide Chain;
      while head != null
        invariant Valid() && (forall x :: x in list ==> x in old(list))
        invariant forall fd :: fd in old(open) ==> fd in closes || fd in items
        decreases |list|
      {
        ShutFirst();
      }
      FirstIs();
      assert forall fd :: fd !in items;
      assert items.Keys == {};
    }
  }
}
