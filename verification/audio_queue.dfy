// The audio FIFO between the media thread and the application thread: a
// fixed-capacity byte buffer that appends on write and hands out a prefix on
// read, shifting what is left to the front, wrapped in a queue that counts the
// bytes that went through it (app-unimrcp/audio_queue.c).

module AudioQueue {
  import opened Text

  /** One second of 16 kHz, 16-bit audio. */
  const AUDIO_QUEUE_SIZE: nat := 16000 * 2

  function Min(a: nat, b: nat): nat {
    if a <= b then a else b
  }

  function Concat(chunks: seq<seq<byte>>): seq<byte> {
    if chunks == [] then [] else chunks[0] + Concat(chunks[1..])
  }

  // ---------------------------------------------------------------------------
  // Specification of the buffer over its contents

  /**
   * `audio_buffer_write` on a buffer holding `c` out of `capacity` bytes:
   * the new contents and the value returned (0 means the write was refused).
   */
  function BufferWrite(c: seq<byte>, capacity: nat, d: seq<byte>): (r: (seq<byte>, nat))
    requires |c| <= capacity
    ensures |r.0| <= capacity
    ensures r.0 == c || r.0 == c + d
    ensures r.1 == 0 || r.1 == |r.0|
  {
    if |d| == 0 then (c, |c|)
    else if capacity - |c| < |d| then (c, 0)
    else (c + d, |c| + |d|)
  }

  /**
   * `audio_buffer_read` of at most `datalen` bytes from a buffer holding `c`:
   * the bytes handed out and the contents left behind.
   */
  function BufferRead(c: seq<byte>, datalen: nat): (r: (seq<byte>, seq<byte>))
    ensures r.0 + r.1 == c
    ensures |r.0| == Min(|c|, datalen)
  {
    if datalen == 0 || |c| == 0 then ([], c)
    else
      var n := Min(|c|, datalen);
      assert c[..n] + c[n..] == c;
      (c[..n], c[n..])
  }

  /** A write is accepted, and appends, exactly when the bytes fit in the free space. */
  lemma WriteAppendsIffFits(c: seq<byte>, capacity: nat, d: seq<byte>)
    requires |c| <= capacity
    ensures |d| <= capacity - |c| ==> BufferWrite(c, capacity, d).0 == c + d
    ensures |d| > capacity - |c| ==> BufferWrite(c, capacity, d) == (c, 0)
    ensures |d| > 0 ==> (BufferWrite(c, capacity, d).1 > 0 <==> |d| <= capacity - |c|)
    ensures |d| == 0 ==> BufferWrite(c, capacity, d) == (c, |c|)
  {
    if |d| == 0 {
      assert c + d == c;
    }
  }

  /** Writing to an empty buffer and then reading as many bytes gives the same bytes back and empties it. */
  lemma WriteThenReadRoundTrip(capacity: nat, d: seq<byte>)
    requires 0 < |d| <= capacity
    ensures BufferWrite([], capacity, d) == (d, |d|)
    ensures BufferRead(BufferWrite([], capacity, d).0, |d|) == (d, [])
  {
    assert [] + d == d;
    assert d[..|d|] == d && d[|d|..] == [];
  }

  /**
   * Successive reads hand out the contents in order: the chunks read, joined,
   * followed by what is left, are the original contents.
   */
  function ReadChunks(c: seq<byte>, sizes: seq<nat>): (r: (seq<seq<byte>>, seq<byte>))
    ensures |r.0| == |sizes|
    ensures Concat(r.0) + r.1 == c
    decreases |sizes|
  {
    if sizes == [] then ([], c)
    else
      var (first, rest) := BufferRead(c, sizes[0]);
      var (more, left) := ReadChunks(rest, sizes[1..]);
      assert Concat([first] + more) == first + Concat(more);
      ([first] + more, left)
  }

  /**
   * Successive writes that all fit: the buffer ends up holding the old
   * contents followed by every chunk, in order.
   */
  function WriteChunks(c: seq<byte>, capacity: nat, chunks: seq<seq<byte>>): (r: seq<byte>)
    requires |c| + |Concat(chunks)| <= capacity
    ensures r == c + Concat(chunks)
    decreases |chunks|
  {
    if chunks == [] then c
    else
      assert Concat(chunks) == chunks[0] + Concat(chunks[1..]);
      WriteAppendsIffFits(c, capacity, chunks[0]);
      WriteChunks(BufferWrite(c, capacity, chunks[0]).0, capacity, chunks[1..])
  }

  /** First in, first out: bytes already queued are read before the bytes written after them. */
  lemma {:induction false} OlderBytesFirst(c: seq<byte>, capacity: nat, d: seq<byte>)
    requires |c| + |d| <= capacity
    ensures BufferRead(BufferWrite(c, capacity, d).0, |c|).0 == c
    ensures BufferRead(BufferWrite(c, capacity, d).0, |c|).1 == d
  {
    WriteAppendsIffFits(c, capacity, d);
    var all := c + d;
    if |c| > 0 {
      assert all[..|c|] == c;
      assert all[|c|..] == d;
    } else {
      assert all == d;
    }
  }

  // ---------------------------------------------------------------------------
  // The buffer (audio_buffer_t)

  class AudioBuffer {
    const data: array<byte>
    var used: nat

    ghost predicate Valid()
      reads this
    {
      0 < data.Length && used <= data.Length
    }

    /** The bytes queued, oldest first. */
    ghost function Contents(): seq<byte>
      reads this, data
      requires Valid()
    {
      data[..used]
    }

    constructor (maxLen: nat)
      requires maxLen > 0
      ensures Valid() && fresh(data)
      ensures data.Length == maxLen && Contents() == []
    {
      data := new byte[maxLen](_ => 0);
      used := 0;
    }

    /** `audio_buffer_create`: only a positive size gives a buffer, which starts empty. */
    static method Create(maxLen: int) returns (status: int, b: AudioBuffer?)
      ensures maxLen <= 0 ==> status == -1 && b == null
      ensures maxLen > 0 ==> status == 0 && b != null && fresh(b) && fresh(b.data)
      ensures b != null ==> b.Valid() && b.data.Length == maxLen && b.Contents() == []
    {
      if maxLen > 0 {
        b := new AudioBuffer(maxLen);
        status := 0;
      } else {
        b := null;
        status := -1;
      }
    }

    /** `audio_buffer_inuse` */
    function InUse(): (n: nat)
      reads this, data
      requires Valid()
      ensures n == |Contents()| && n <= data.Length
    {
      used
    }

    /** `audio_buffer_zero` */
    method Zero()
      requires Valid()
      modifies this`used
      ensures Valid() && Contents() == []
    {
      used := 0;
    }

    /**
     * `audio_buffer_write`: append `src` if it fits; returns the new fill
     * level, the unchanged fill level for an empty write, or 0 when refused.
     */
    method Write(src: seq<byte>) returns (r: nat)
      requires Valid()
      modifies this`used, data
      ensures Valid()
      ensures (Contents(), r) == BufferWrite(old(Contents()), data.Length, src)
    {
      if |src| == 0 {
        return used;
      }
      if data.Length - used < |src| {
        return 0;
      }
      var i := 0;
      while i < |src|
        invariant 0 <= i <= |src| && used == old(used) && used + |src| <= data.Length
        invariant data[..used] == old(data[..used])
        invariant data[used..used + i] == src[..i]
        invariant data[used + |src|..] == old(data[used + |src|..])
      {
        data[used + i] := src[i];
        i := i + 1;
      }
      assert data[used..used + |src|] == src;
      assert data[..used + |src|] == data[..used] + data[used..used + |src|];
      used := used + |src|;
      r := used;
    }

    /**
     * `audio_buffer_read`: copy the first min(used, datalen) bytes into `dst`
     * and move the rest to the front of the buffer.
     */
    method Read(dst: array<byte>, datalen: nat) returns (n: nat)
      requires Valid() && dst != data && datalen <= dst.Length
      modifies this`used, data, dst
      ensures Valid()
      ensures n <= datalen
      ensures (dst[..n], Contents()) == BufferRead(old(Contents()), datalen)
      ensures dst[n..] == old(dst[n..])
    {
      if datalen == 0 {
        return 0;
      }
      if used < 1 {
        used := 0;
        return 0;
      }
      n := if used >= datalen then datalen else used;
      ghost var before := data[..used];
      var i := 0;
      while i < n
        invariant 0 <= i <= n && n <= used == |before|
        invariant data[..used] == before
        invariant dst[..i] == before[..i]
        invariant dst[n..] == old(dst[n..])
      {
        dst[i] := data[i];
        i := i + 1;
      }
      used := used - n;
      ghost var moved := data[..];
      var j := 0;
      while j < used
        invariant 0 <= j <= used && used + n == |before| <= data.Length
        invariant dst[..n] == before[..n] && dst[n..] == old(dst[n..])
        invariant forall k :: 0 <= k < j ==> data[k] == before[n + k]
        invariant forall k :: j <= k < data.Length ==> data[k] == moved[k]
      {
        data[j] := data[j + n];
        j := j + 1;
      }
      assert data[..used] == before[n..];
    }
  }

  // ---------------------------------------------------------------------------
  // The queue (audio_queue_t)

  class Queue {
    const buffer: AudioBuffer
    var name: string
    var readBytes: nat
    var writeBytes: nat
    var waiting: nat

    ghost predicate Valid()
      reads this, buffer
    {
      buffer.Valid() && buffer.data.Length == AUDIO_QUEUE_SIZE
    }

    ghost function Contents(): seq<byte>
      reads this, buffer, buffer.data
      requires Valid()
    {
      buffer.Contents()
    }

    /** `audio_queue_create`: an empty queue of AUDIO_QUEUE_SIZE bytes with zeroed counters. */
    constructor (name: string)
      ensures Valid() && fresh(buffer) && fresh(buffer.data)
      ensures Contents() == [] && this.name == name
      ensures readBytes == 0 && writeBytes == 0 && waiting == 0
    {
      buffer := new AudioBuffer(AUDIO_QUEUE_SIZE);
      this.name := name;
      readBytes := 0;
      writeBytes := 0;
      waiting := 0;
    }

    /** `audio_queue_clear`: drop the queued bytes; the counters are kept. */
    method Clear() returns (status: int)
      requires Valid()
      modifies buffer`used
      ensures Valid() && Contents() == [] && status == 0
    {
      buffer.Zero();
      status := 0;
    }

    /**
     * `audio_queue_write`: on success the bytes are queued and counted and 0
     * is returned; otherwise the length is set to 0, -1 is returned and the
     * queue is unchanged.
     */
    method Write(src: seq<byte>) returns (status: int, len: nat)
      requires Valid()
      modifies this`writeBytes, buffer`used, buffer.data
      ensures Valid()
      ensures var (after, r) := BufferWrite(old(Contents()), AUDIO_QUEUE_SIZE, src);
        (status == 0 <==> r > 0) &&
        (status == 0 ==> Contents() == after && len == |src| && writeBytes == old(writeBytes) + |src|) &&
        (status != 0 ==> status == -1 && len == 0 && Contents() == old(Contents()) && writeBytes == old(writeBytes))
    {
      var r := buffer.Write(src);
      if r > 0 {
        writeBytes := writeBytes + |src|;
        status, len := 0, |src|;
      } else {
        status, len := -1, 0;
      }
    }

    /**
     * `audio_queue_read`: a blocking read that finds fewer than `requested`
     * bytes waits for the producer, whose write of `arrived` is taken as what
     * happened during the wait. The request is then clamped to the bytes
     * queued; nothing queued gives length 0 and -1, otherwise the bytes are
     * read and counted.
     */
    method Read(dst: array<byte>, requested: nat, block: bool, arrived: seq<byte>)
      returns (status: int, len: nat)
      requires Valid() && dst != buffer.data && requested <= dst.Length
      modifies this`waiting, this`readBytes, this`writeBytes, buffer`used, buffer.data, dst
      ensures Valid() && waiting == (if block then 0 else old(waiting))
      ensures var waited := block && |old(Contents())| < requested;
        var w := BufferWrite(old(Contents()), AUDIO_QUEUE_SIZE, arrived);
        var available := if waited && w.1 > 0 then w.0 else old(Contents());
        var n := Min(|available|, requested);
        (status == -1 <==> n == 0) &&
        (status == 0 || status == -1) &&
        len == n &&
        (dst[..len], Contents()) == BufferRead(available, n) &&
        readBytes == old(readBytes) + len &&
        writeBytes == old(writeBytes) + (if waited && w.1 > 0 then |arrived| else 0)
    ensures dst[len..] == old(dst[len..])
    {
      if block {
        if buffer.InUse() < requested {
          waiting := requested;
          var _, _ := Write(arrived);
        }
        waiting := 0;
      }
      var n := requested;
      if buffer.InUse() < n {
        n := buffer.InUse();
      }
      if n == 0 {
        status, len := -1, 0;
        assert BufferRead(Contents(), 0) == ([], Contents());
      } else {
        len := buffer.Read(dst, n);
        readBytes := readBytes + len;
        status := 0;
      }
    }
  }

  /**
   * A queue write succeeds exactly when the bytes fit, except that an empty
   * write succeeds only while something is queued (the buffer then reports
   * its non-zero fill level).
   */
  lemma QueueWriteSucceeds(c: seq<byte>, d: seq<byte>)
    requires |c| <= AUDIO_QUEUE_SIZE
    ensures BufferWrite(c, AUDIO_QUEUE_SIZE, d).1 > 0 <==>
      (|d| > 0 && |c| + |d| <= AUDIO_QUEUE_SIZE) || (|d| == 0 && |c| > 0)
  {
  }
}
