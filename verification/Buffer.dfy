/**
 * The byte buffer of src/shared/buffer.c: one array, a read index and a write
 * index, automatic compaction when the buffer drains and in-place compaction
 * on demand.  A `Pipe` is what the rest of the program can see of a buffer:
 * the bytes pending and the room left after the write index.
 */
module Pipes {
  import opened Bytes

  datatype Pipe = Pipe(pending: bytes, room: nat, capacity: nat) {
    /** An empty buffer always offers its whole capacity: a drained buffer has been compacted. */
    ghost predicate Valid() {
      && |pending| + room <= capacity
      && (pending == [] ==> room == capacity)
    }

    function Put(s: bytes): Pipe
      requires |s| <= room
    {
      this.(pending := pending + s, room := room - |s|)
    }

    function Take(n: nat): Pipe
      requires n <= |pending|
    {
      if n == |pending| then Pipe([], capacity, capacity) else this.(pending := pending[n..])
    }
  }

  function Fresh(capacity: nat): (p: Pipe)
    ensures p.Valid()
  {
    Pipe([], capacity, capacity)
  }

  /** Taking bytes one at a time or all at once leaves the same buffer. */
  lemma TakeOneMore(p: Pipe, k: nat)
    requires p.Valid() && k < |p.pending|
    ensures p.Take(0) == p
    ensures p.Take(k).pending == p.pending[k..] && p.Take(k).Take(1) == p.Take(k + 1)
  {
  }

}

module Buffers {
  import opened Bytes
  import opened Pipes

  class Buffer {
    const data: array<byte>
    var read: nat
    var write: nat

    ghost predicate Valid()
      reads this
    {
      && read <= write <= data.Length
      && (read == write ==> read == 0)
    }

    ghost function View(): (p: Pipe)
      reads this, data
      requires Valid()
      ensures p.Valid()
    {
      Pipe(data[read..write], data.Length - write, data.Length)
    }

    constructor (capacity: nat)
      ensures Valid() && fresh(data) && View() == Fresh(capacity)
    {
      data := new byte[capacity];
      read, write := 0, 0;
    }

    method Reset()
      requires Valid()
      modifies this
      ensures Valid() && View() == Fresh(data.Length)
    {
      read, write := 0, 0;
    }

    method CanWrite() returns (r: bool)
      requires Valid()
      ensures r == (View().room > 0)
    {
      r := data.Length - write > 0;
    }

    method CanRead() returns (r: bool)
      requires Valid()
      ensures r == (View().pending != [])
    {
      r := write - read > 0;
    }

    /** The kernel's part of `read(fd, ptr, count)`: bytes land after the write index, which does not move. */
    method Store(s: bytes)
      requires Valid() && |s| <= View().room
      modifies data
      ensures Valid() && View() == old(View())
      ensures data[write..write + |s|] == s
    {
      for i := 0 to |s|
        invariant data[write..write + i] == s[..i]
        invariant data[..write] == old(data[..write])
      {
        data[write + i] := s[i];
      }
      assert data[read..write] == data[..write][read..];
    }

    method WriteAdv(n: nat)
      requires Valid() && n <= View().room
      modifies this`write
      ensures Valid() && View() == old(View()).Put(old(data[write..write + n]))
    {
      write := write + n;
    }

    /** A successful `read` into the buffer followed by `buffer_write_adv`. */
    method Deliver(s: bytes)
      requires Valid() && |s| <= View().room
      modifies this`write, data
      ensures Valid() && View() == old(View()).Put(s)
    {
      Store(s);
      WriteAdv(|s|);
    }

    /** `memmove` of the pending bytes to the start of the array, which the two regions may share. */
    method Compact()
      requires read <= write <= data.Length
      modifies this, data
      ensures Valid()
      ensures View() == Pipe(old(data[read..write]), data.Length - old(write - read), data.Length)
    {
      if read == 0 {
        return;
      }
      if read == write {
        read, write := 0, 0;
        return;
      }
      var n := write - read;
      for i := 0 to n
        modifies data
        invariant data[..i] == old(data[read..read + i])
        invariant forall k :: read + i <= k < write ==> data[k] == old(data[k])
      {
        data[i] := data[read + i];
      }
      read, write := 0, n;
    }

    method ReadAdv(n: nat)
      requires Valid() && n <= |View().pending|
      modifies this, data
      ensures Valid() && View() == old(View()).Take(n)
    {
      ghost var before := data[read..write];
      read := read + n;
      assert data[read..write] == before[n..];
      if read == write {
        Compact();
      }
    }

    method ReadByte() returns (b: byte)
      requires Valid()
      modifies this, data
      ensures Valid()
      ensures old(View()).pending != [] ==> b == old(View()).pending[0] && View() == old(View()).Take(1)
      ensures old(View()).pending == [] ==> b == 0 && View() == old(View())
    {
      var more := CanRead();
      if more {
        b := data[read];
        ReadAdv(1);
      } else {
        b := 0;
      }
    }

    method WriteByte(c: byte)
      requires Valid()
      modifies this`write, data
      ensures Valid()
      ensures View() == if old(View()).room > 0 then old(View()).Put([c]) else old(View())
    {
      if data.Length - write > 0 {
        data[write] := c;
        write := write + 1;
        assert data[read..write - 1] == old(data[read..write]);
      }
    }
  }
}
