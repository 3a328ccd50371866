/**
 * The loop every parser of this program is driven by: take a byte, feed it,
 * stop when the parser is done.  Whatever the parser, splitting its input
 * differently changes neither what it ends as nor how much it takes.
 */
module Chunks {
  import opened Bytes
  import opened Pipes

  /** The parser after its consume loop over a buffer holding `s`, and how many bytes it took. */
  function Consume<P>(feed: (P, byte) -> P, done: P -> bool, p: P, s: bytes): (r: (P, nat))
    ensures r.1 <= |s|
    ensures !done(r.0) ==> r.1 == |s|
  {
    if s == [] then (p, 0)
    else
      var q := feed(p, s[0]);
      if done(q) then (q, 1) else var r := Consume(feed, done, q, s[1..]); (r.0, r.1 + 1)
  }

  /** The loop that started from `p` over `s` has taken `k` bytes and stands at `q`, not done unless it did not start. */
  ghost predicate Stands<P>(feed: (P, byte) -> P, done: P -> bool, p: P, s: bytes, q: P, k: nat) {
    && k <= |s|
    && (k > 0 ==> !done(q))
    && Consume(feed, done, p, s) == (Consume(feed, done, q, s[k..]).0, k + Consume(feed, done, q, s[k..]).1)
  }

  lemma Begin<P>(feed: (P, byte) -> P, done: P -> bool, p: P, s: bytes)
    ensures Stands(feed, done, p, s, p, 0)
  {
    assert s[0..] == s;
  }

  lemma Advance<P>(feed: (P, byte) -> P, done: P -> bool, p: P, s: bytes, q: P, k: nat)
    requires Stands(feed, done, p, s, q, k) && k < |s|
    ensures var q' := feed(q, s[k]);
            if done(q') then Consume(feed, done, p, s) == (q', k + 1) else Stands(feed, done, p, s, q', k + 1)
  {
    hide Consume;
    ConsumeFirst(feed, done, q, s[k..]);
    assert s[k..][1..] == s[k + 1..];
  }

  lemma ConsumeFirst<P>(feed: (P, byte) -> P, done: P -> bool, p: P, s: bytes)
    requires s != []
    ensures var q := feed(p, s[0]);
            Consume(feed, done, p, s)
            == if done(q) then (q, 1) else (Consume(feed, done, q, s[1..]).0, Consume(feed, done, q, s[1..]).1 + 1)
  {
  }

  lemma Stop<P>(feed: (P, byte) -> P, done: P -> bool, p: P, s: bytes, q: P)
    requires Stands(feed, done, p, s, q, |s|)
    ensures Consume(feed, done, p, s) == (q, |s|) && (s != [] ==> !done(q))
  {
  }

  /** A consume loop that started from `p` over the buffer `pipe` stands at `q` over `now`. */
  ghost predicate Looping<P>(feed: (P, byte) -> P, done: P -> bool, p: P, pipe: Pipe, q: P, now: Pipe) {
    exists k: nat :: LoopingAt(feed, done, p, pipe, q, now, k)
  }

  ghost predicate LoopingAt<P>(feed: (P, byte) -> P, done: P -> bool, p: P, pipe: Pipe, q: P, now: Pipe, k: nat) {
    && pipe.Valid() && k <= |pipe.pending| && now == pipe.Take(k) && now.pending == pipe.pending[k..]
    && Stands(feed, done, p, pipe.pending, q, k)
  }

  /** What the loop must have done when it ends. */
  ghost predicate Consumed<P>(feed: (P, byte) -> P, done: P -> bool, p: P, pipe: Pipe, q: P, now: Pipe) {
    var (r, n) := Consume(feed, done, p, pipe.pending);
    q == r && now == pipe.Take(n)
  }

  lemma LoopBegins<P>(feed: (P, byte) -> P, done: P -> bool, p: P, pipe: Pipe)
    requires pipe.Valid()
    ensures Looping(feed, done, p, pipe, p, pipe)
  {
    hide Stands, Consume;
    Begin(feed, done, p, pipe.pending);
    assert pipe.pending[0..] == pipe.pending;
    assert LoopingAt(feed, done, p, pipe, p, pipe, 0);
  }

  lemma LoopTakes<P>(feed: (P, byte) -> P, done: P -> bool, p: P, pipe: Pipe, q: P, now: Pipe)
    requires Looping(feed, done, p, pipe, q, now) && now.pending != []
    ensures var q', now' := feed(q, now.pending[0]), now.Take(1);
            if done(q') then Consumed(feed, done, p, pipe, q', now') else Looping(feed, done, p, pipe, q', now')
  {
    hide Stands, Consume;
    var k: nat :| LoopingAt(feed, done, p, pipe, q, now, k);
    TakeOneMore(pipe, k);
    Advance(feed, done, p, pipe.pending, q, k);
    var q', now' := feed(q, now.pending[0]), now.Take(1);
    assert now.pending[0] == pipe.pending[k];
    assert now'.pending == pipe.pending[k + 1..];
    if !done(q') { assert LoopingAt(feed, done, p, pipe, q', now', k + 1); }
  }

  lemma LoopEnds<P>(feed: (P, byte) -> P, done: P -> bool, p: P, pipe: Pipe, q: P, now: Pipe)
    requires Looping(feed, done, p, pipe, q, now) && now.pending == []
    ensures Consumed(feed, done, p, pipe, q, now) && (pipe.pending != [] ==> !done(q))
  {
    hide Stands, Consume;
    var k: nat :| LoopingAt(feed, done, p, pipe, q, now, k);
    assert k == |pipe.pending|;
    Stop(feed, done, p, pipe.pending, q);
  }

  lemma {:induction false} ConsumeSplit<P>(feed: (P, byte) -> P, done: P -> bool, p: P, a: bytes, b: bytes)
    requires !done(p)
    ensures var (q, n) := Consume(feed, done, p, a);
            Consume(feed, done, p, a + b)
            == if done(q) then (q, n) else (Consume(feed, done, q, b).0, n + Consume(feed, done, q, b).1)
    decreases |a|
  {
    if a == [] {
      assert a + b == b;
    } else {
      assert (a + b)[1..] == a[1..] + b;
      var q := feed(p, a[0]);
      if !done(q) { ConsumeSplit(feed, done, q, a[1..], b); }
    }
  }

  /** The bytes taken are all that mattered. */
  lemma {:induction false} ConsumeExact<P>(feed: (P, byte) -> P, done: P -> bool, p: P, s: bytes)
    ensures var (q, n) := Consume(feed, done, p, s); Consume(feed, done, p, s[..n]) == (q, n)
    decreases |s|
  {
    if s != [] {
      var q := feed(p, s[0]);
      if !done(q) {
        ConsumeExact(feed, done, q, s[1..]);
        var n := Consume(feed, done, q, s[1..]).1;
        assert s[..n + 1][1..] == s[1..][..n];
      }
    }
  }

  /** Taking more bytes after `a` is taking them after `a`'s, whatever else was there to take. */
  lemma Resume<P>(feed: (P, byte) -> P, done: P -> bool, p: P, a: bytes, s: bytes)
    requires !done(p) && !done(Consume(feed, done, p, a).0)
    ensures var (q, n) := Consume(feed, done, Consume(feed, done, p, a).0, s);
            Consume(feed, done, p, a + s[..n]) == (q, |a| + n)
  {
    var (q, n) := Consume(feed, done, Consume(feed, done, p, a).0, s);
    ConsumeSplit(feed, done, p, a, s[..n]);
    ConsumeExact(feed, done, Consume(feed, done, p, a).0, s);
  }

  /** The parser over successive reads: each chunk lands in a drained buffer and is consumed at once. */
  function Deliver<P>(feed: (P, byte) -> P, done: P -> bool, p: P, chunks: seq<bytes>): (P, nat) {
    if chunks == [] then (p, 0)
    else
      var (q, n) := Consume(feed, done, p, chunks[0]);
      if done(q) then (q, n) else var r := Deliver(feed, done, q, chunks[1..]); (r.0, n + r.1)
  }

  /** Any split of a stream gives the same parser and leaves the same suffix unconsumed. */
  lemma {:induction false} ChunkIndependence<P>(feed: (P, byte) -> P, done: P -> bool, p: P, chunks: seq<bytes>)
    requires !done(p)
    ensures Deliver(feed, done, p, chunks) == Consume(feed, done, p, Flatten(chunks))
    decreases |chunks|
  {
    if chunks != [] {
      ConsumeSplit(feed, done, p, chunks[0], Flatten(chunks[1..]));
      var (q, n) := Consume(feed, done, p, chunks[0]);
      if !done(q) { ChunkIndependence(feed, done, q, chunks[1..]); }
    }
  }
}
