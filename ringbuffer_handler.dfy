/**
 * The bounded byte queue behind each direction of a ring-buffer handler (RingbufV2).
 *
 * Only its observable behaviour is modelled: a FIFO of bytes with a fixed capacity.
 * A write accepts as many bytes as fit and drops the rest, a read takes bytes from
 * the front, a peek returns the same bytes without taking them.
 */
module Ringbuf {
  import opened Wrappers

  newtype Byte = b: int | 0 <= b < 256

  /** How many of the bytes `data` a write accepts into a queue `q` of capacity `cap`. */
  function Accepted(q: seq<Byte>, cap: nat, data: seq<Byte>): (n: nat)
    requires |q| <= cap
    ensures n <= |data| && |q| + n <= cap
    ensures n < |data| ==> |q| + n == cap
  {
    Min(|data|, cap - |q|)
  }

  /** The queue after writing `data`: the accepted prefix of `data` joins the back. */
  function AfterWrite(q: seq<Byte>, cap: nat, data: seq<Byte>): (r: seq<Byte>)
    requires |q| <= cap
    ensures |q| <= |r| <= cap && r[..|q|] == q
  {
    q + data[..Accepted(q, cap, data)]
  }

  /** The bytes a read or a peek of at most `sz` bytes returns: the front of the queue. */
  function Front(q: seq<Byte>, sz: nat): seq<Byte>
  {
    q[..Min(sz, |q|)]
  }

  /** The queue after a read of at most `sz` bytes. */
  function AfterRead(q: seq<Byte>, sz: nat): seq<Byte>
  {
    q[Min(sz, |q|)..]
  }

  /** The queue after a sequence of writes, one chunk after the other. */
  function WriteAll(q: seq<Byte>, cap: nat, chunks: seq<seq<Byte>>): (r: seq<Byte>)
    requires |q| <= cap
    decreases |chunks|
  {
    if chunks == [] then q else WriteAll(AfterWrite(q, cap, chunks[0]), cap, chunks[1..])
  }

  function Flatten(chunks: seq<seq<Byte>>): seq<Byte>
  {
    if chunks == [] then [] else chunks[0] + Flatten(chunks[1..])
  }

  /** Writes that together fit are all accepted, in the order they were made. */
  lemma {:induction false} WritesThatFitAreQueuedInOrder(q: seq<Byte>, cap: nat, chunks: seq<seq<Byte>>)
    requires |q| + |Flatten(chunks)| <= cap
    ensures WriteAll(q, cap, chunks) == q + Flatten(chunks)
    decreases |chunks|
  {
    if chunks != [] {
      assert |Flatten(chunks)| == |chunks[0]| + |Flatten(chunks[1..])|;
      assert AfterWrite(q, cap, chunks[0]) == q + chunks[0];
      WritesThatFitAreQueuedInOrder(q + chunks[0], cap, chunks[1..]);
    }
  }

  /**
   * From an empty queue, writes totalling W <= C bytes are read back, all W of them,
   * in write order.
   */
  lemma ReadBackIsFifo(cap: nat, chunks: seq<seq<Byte>>)
    requires |Flatten(chunks)| <= cap
    ensures Front(WriteAll([], cap, chunks), |Flatten(chunks)|) == Flatten(chunks)
  {
    WritesThatFitAreQueuedInOrder([], cap, chunks);
  }

  /** A single write larger than the capacity into an empty queue keeps exactly its first C bytes. */
  lemma OversizedWriteTruncates(cap: nat, data: seq<Byte>)
    requires |data| > cap
    ensures Accepted([], cap, data) == cap
    ensures AfterWrite([], cap, data) == data[..cap]
  {
  }

  /** A peek returns what a read of the same size would take, and a read loses nothing. */
  lemma PeekMatchesRead(q: seq<Byte>, sz: nat)
    ensures Front(q, sz) + AfterRead(q, sz) == q
  {
  }

  class RingbufV2 {
    const capacity: nat
    var queue: seq<Byte>

    ghost predicate Valid()
      reads this
    {
      |queue| <= capacity
    }

    constructor (capacity: nat)
      ensures Valid() && this.capacity == capacity && queue == []
    {
      this.capacity := capacity;
      queue := [];
    }

    method Size() returns (n: nat)
      ensures n == capacity
    {
      n := capacity;
    }

    method Used() returns (n: nat)
      ensures n == |queue|
    {
      n := |queue|;
    }

    method Available() returns (n: nat)
      requires Valid()
      ensures n + |queue| == capacity
    {
      n := capacity - |queue|;
    }

    /** Append as much of `data` as fits; `n` is how much that was. Never fails. */
    method Write(data: seq<Byte>) returns (n: nat)
      requires Valid()
      modifies this
      ensures Valid()
      ensures n == Accepted(old(queue), capacity, data)
      ensures queue == AfterWrite(old(queue), capacity, data)
    {
      n := Min(|data|, capacity - |queue|);
      queue := queue + data[..n];
    }

    /** Take up to `sz` bytes from the front. */
    method Read(sz: nat) returns (bytes: seq<Byte>)
      requires Valid()
      modifies this
      ensures Valid()
      ensures bytes == Front(old(queue), sz) && queue == AfterRead(old(queue), sz)
    {
      var n := Min(sz, |queue|);
      bytes, queue := queue[..n], queue[n..];
    }

    /** Copy up to `sz` bytes from the front without taking them. */
    method Peek(sz: nat) returns (bytes: seq<Byte>)
      ensures bytes == Front(queue, sz)
    {
      bytes := queue[..Min(sz, |queue|)];
    }
  }
}

/**
 * A duplex ring-buffer handler (RingbufferHandler in ringbuffer_handler.cc).
 *
 * It owns an optional read buffer and an optional write buffer; a size of 0 at
 * construction leaves that direction absent, and every query or transfer on an absent
 * direction answers 0. Putting data into a direction notifies the observer registered
 * for that direction with the number of bytes accepted; the calls made to observers
 * are recorded, in order, in the ghost log `notifications`.
 */
module BufferHandler {
  import opened Ringbuf

  /** An observer of one direction (a RingbufferInterface); only its identity matters here. */
  class RingbufferInterface {
    constructor ()
    {
    }
  }

  /** One call made to an observer: ReadBufferFilled(count) or WriteBufferFilled(count). */
  datatype Notification =
    | ReadBufferFilled(observer: RingbufferInterface, count: nat)
    | WriteBufferFilled(observer: RingbufferInterface, count: nat)

  class RingbufferHandler {
    const readBuffer: RingbufV2?
    const writeBuffer: RingbufV2?
    var rbufNotify: RingbufferInterface?
    var wbufNotify: RingbufferInterface?
    /** Every observer call made so far, oldest first. */
    ghost var notifications: seq<Notification>

    ghost predicate Valid()
      reads this, readBuffer, writeBuffer
    {
      (readBuffer != null ==> readBuffer.Valid()) &&
      (writeBuffer != null ==> writeBuffer.Valid()) &&
      (readBuffer != null && writeBuffer != null ==> readBuffer != writeBuffer)
    }

    /** Capacity of the read direction; 0 when it is absent. */
    ghost function ReadCapacity(): nat
      reads this
    {
      if readBuffer == null then 0 else readBuffer.capacity
    }

    /** Capacity of the write direction; 0 when it is absent. */
    ghost function WriteCapacity(): nat
      reads this
    {
      if writeBuffer == null then 0 else writeBuffer.capacity
    }

    /** Bytes queued in the read direction; none when it is absent. */
    ghost function ReadContents(): seq<Byte>
      reads this, readBuffer
    {
      if readBuffer == null then [] else readBuffer.queue
    }

    /** Bytes queued in the write direction; none when it is absent. */
    ghost function WriteContents(): seq<Byte>
      reads this, writeBuffer
    {
      if writeBuffer == null then [] else writeBuffer.queue
    }

    /** A buffer size of 0 leaves that direction absent; otherwise it is an empty buffer of that size. */
    constructor (rBufferSz: nat, wBufferSz: nat)
      ensures Valid()
      ensures (readBuffer == null) == (rBufferSz == 0) && (writeBuffer == null) == (wBufferSz == 0)
      ensures readBuffer != null ==> fresh(readBuffer)
      ensures writeBuffer != null ==> fresh(writeBuffer)
      ensures ReadCapacity() == rBufferSz && WriteCapacity() == wBufferSz
      ensures ReadContents() == [] && WriteContents() == []
      ensures rbufNotify == null && wbufNotify == null && notifications == []
    {
      if rBufferSz != 0 {
        readBuffer := new RingbufV2(rBufferSz);
      } else {
        readBuffer := null;
      }
      if wBufferSz != 0 {
        writeBuffer := new RingbufV2(wBufferSz);
      } else {
        writeBuffer := null;
      }
      rbufNotify, wbufNotify := null, null;
      notifications := [];
    }

    method GetReadBufferSize() returns (n: nat)
      requires Valid()
      ensures n == ReadCapacity()
      ensures readBuffer == null ==> n == 0
    {
      if readBuffer != null {
        n := readBuffer.Size();
        return;
      }
      n := 0;
    }

    method GetWriteBufferSize() returns (n: nat)
      requires Valid()
      ensures n == WriteCapacity()
      ensures writeBuffer == null ==> n == 0
    {
      if writeBuffer != null {
        n := writeBuffer.Size();
        return;
      }
      n := 0;
    }

    method GetReadBufferUsed() returns (n: nat)
      requires Valid()
      ensures n == |ReadContents()| && n <= ReadCapacity()
      ensures readBuffer == null ==> n == 0
    {
      if readBuffer != null {
        n := readBuffer.Used();
        return;
      }
      n := 0;
    }

    method GetWriteBufferUsed() returns (n: nat)
      requires Valid()
      ensures n == |WriteContents()| && n <= WriteCapacity()
      ensures writeBuffer == null ==> n == 0
    {
      if writeBuffer != null {
        n := writeBuffer.Used();
        return;
      }
      n := 0;
    }

    method GetReadBufferFree() returns (n: nat)
      requires Valid()
      ensures n + |ReadContents()| == ReadCapacity()
      ensures readBuffer == null ==> n == 0
    {
      if readBuffer != null {
        n := readBuffer.Available();
        return;
      }
      n := 0;
    }

    method GetWriteBufferFree() returns (n: nat)
      requires Valid()
      ensures n + |WriteContents()| == WriteCapacity()
      ensures writeBuffer == null ==> n == 0
    {
      if writeBuffer != null {
        n := writeBuffer.Available();
        return;
      }
      n := 0;
    }

    /** Consume up to `sz` bytes from the read direction; nothing from an absent one. */
    method GetReadBufferData(sz: nat) returns (n: nat, bytes: seq<Byte>)
      requires Valid()
      modifies readBuffer
      ensures Valid()
      ensures bytes == Front(old(ReadContents()), sz) && n == |bytes|
      ensures ReadContents() == AfterRead(old(ReadContents()), sz)
      ensures readBuffer == null ==> n == 0
    {
      if readBuffer != null {
        bytes := readBuffer.Read(sz);
        return |bytes|, bytes;
      }
      n, bytes := 0, [];
    }

    /** Consume up to `sz` bytes from the write direction; nothing from an absent one. */
    method GetWriteBufferData(sz: nat) returns (n: nat, bytes: seq<Byte>)
      requires Valid()
      modifies writeBuffer
      ensures Valid()
      ensures bytes == Front(old(WriteContents()), sz) && n == |bytes|
      ensures WriteContents() == AfterRead(old(WriteContents()), sz)
      ensures writeBuffer == null ==> n == 0
    {
      if writeBuffer != null {
        bytes := writeBuffer.Read(sz);
        return |bytes|, bytes;
      }
      n, bytes := 0, [];
    }

    /** Copy up to `sz` bytes from the front of the read direction, leaving it unchanged. */
    method PeekReadBufferData(sz: nat) returns (n: nat, bytes: seq<Byte>)
      requires Valid()
      ensures bytes == Front(ReadContents(), sz) && n == |bytes|
      ensures readBuffer == null ==> n == 0
    {
      if readBuffer != null {
        bytes := readBuffer.Peek(sz);
        return |bytes|, bytes;
      }
      n, bytes := 0, [];
    }

    /** Copy up to `sz` bytes from the front of the write direction, leaving it unchanged. */
    method PeekWriteBufferData(sz: nat) returns (n: nat, bytes: seq<Byte>)
      requires Valid()
      ensures bytes == Front(WriteContents(), sz) && n == |bytes|
      ensures writeBuffer == null ==> n == 0
    {
      if writeBuffer != null {
        bytes := writeBuffer.Peek(sz);
        return |bytes|, bytes;
      }
      n, bytes := 0, [];
    }

    /**
     * Queue `data` in the read direction, then tell the read observer, if any, how many
     * bytes were accepted. An absent direction accepts nothing and notifies no one.
     */
    method PutReadBufferData(data: seq<Byte>) returns (n: nat)
      requires Valid()
      modifies readBuffer, this`notifications
      ensures Valid()
      ensures readBuffer == null ==> n == 0
      ensures readBuffer != null ==> n == Accepted(old(ReadContents()), ReadCapacity(), data)
      ensures ReadContents() == (if readBuffer == null then [] else AfterWrite(old(ReadContents()), ReadCapacity(), data))
      ensures WriteContents() == old(WriteContents())
      ensures notifications == old(notifications) +
        (if readBuffer != null && rbufNotify != null then [ReadBufferFilled(rbufNotify, n)] else [])
    {
      if readBuffer == null {
        return 0;
      }
      n := readBuffer.Write(data);
      if rbufNotify != null {
        notifications := notifications + [ReadBufferFilled(rbufNotify, n)];
      }
    }

    /**
     * Queue `data` in the write direction, then tell the write observer, if any, how many
     * bytes were accepted. An absent direction accepts nothing and notifies no one.
     */
    method PutWriteBufferData(data: seq<Byte>) returns (n: nat)
      requires Valid()
      modifies writeBuffer, this`notifications
      ensures Valid()
      ensures writeBuffer == null ==> n == 0
      ensures writeBuffer != null ==> n == Accepted(old(WriteContents()), WriteCapacity(), data)
      ensures WriteContents() == (if writeBuffer == null then [] else AfterWrite(old(WriteContents()), WriteCapacity(), data))
      ensures ReadContents() == old(ReadContents())
      ensures notifications == old(notifications) +
        (if writeBuffer != null && wbufNotify != null then [WriteBufferFilled(wbufNotify, n)] else [])
    {
      if writeBuffer == null {
        return 0;
      }
      n := writeBuffer.Write(data);
      if wbufNotify != null {
        notifications := notifications + [WriteBufferFilled(wbufNotify, n)];
      }
    }

    method SetReadBufferInterface(observer: RingbufferInterface?)
      modifies this`rbufNotify
      ensures rbufNotify == observer
    {
      rbufNotify := observer;
    }

    method SetWriteBufferInterface(observer: RingbufferInterface?)
      modifies this`wbufNotify
      ensures wbufNotify == observer
    {
      wbufNotify := observer;
    }

    method RemoveReadBufferInterface()
      modifies this`rbufNotify
      ensures rbufNotify == null
    {
      rbufNotify := null;
    }

    method RemoveWriteBufferInterface()
      modifies this`wbufNotify
      ensures wbufNotify == null
    {
      wbufNotify := null;
    }
  }

  /** After the read observer is removed, putting read data notifies no one. */
  method RemovedObserverIsNotNotified(h: RingbufferHandler, data: seq<Byte>) returns (n: nat)
    requires h.Valid()
    modifies h, h.readBuffer
    ensures h.notifications == old(h.notifications)
  {
    h.RemoveReadBufferInterface();
    n := h.PutReadBufferData(data);
  }

  /** After an observer is set, a put on a present direction notifies exactly it, once, with the count put. */
  method SetObserverIsNotified(h: RingbufferHandler, observer: RingbufferInterface, data: seq<Byte>) returns (n: nat)
    requires h.Valid() && h.readBuffer != null
    modifies h, h.readBuffer
    ensures h.notifications == old(h.notifications) + [ReadBufferFilled(observer, n)]
    ensures n <= |data| && h.ReadContents() == old(h.ReadContents()) + data[..n]
  {
    h.SetReadBufferInterface(observer);
    n := h.PutReadBufferData(data);
  }

  /** A direction constructed with size 0 reports 0 for size, used and free, and a put on it returns 0. */
  method AbsentDirectionAnswersZero(data: seq<Byte>, wSize: nat) returns (size: nat, used: nat, free: nat, put: nat)
    ensures size == 0 && used == 0 && free == 0 && put == 0
  {
    var h := new RingbufferHandler(0, wSize);
    size := h.GetReadBufferSize();
    used := h.GetReadBufferUsed();
    free := h.GetReadBufferFree();
    put := h.PutReadBufferData(data);
  }
}
