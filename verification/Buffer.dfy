/** net/Buffer.h and net/Buffer.cpp: a byte queue in one growing, compacting vector. */
module Buffers {

  newtype Byte = x: int | 0 <= x < 256

  const CHEAP_PREPEND: nat := 8
  const INITIAL_SIZE: nat := 1024

  /** Size of the on-stack overflow area of readFd. */
  const EXTRA_SIZE: nat := 65536

  // ---- The three indices, apart from the bytes ----

  datatype Shape = Shape(capacity: nat, reader: nat, writer: nat) {
    predicate Ok() {
      CHEAP_PREPEND <= reader <= writer <= capacity
    }

    function Readable(): nat
      requires Ok()
    {
      writer - reader
    }

    function Writable(): nat
      requires Ok()
    {
      capacity - writer
    }

    /** ensureWritableBytes: nothing, growth to an exact fit, or compaction to the front. */
    function Reserved(len: nat): Shape
      requires Ok()
    {
      if Writable() >= len then this
      else if Writable() + reader < len + CHEAP_PREPEND then Shape(writer + len, reader, writer)
      else Shape(capacity, CHEAP_PREPEND, CHEAP_PREPEND + Readable())
    }

    function Appended(len: nat): Shape
      requires Ok()
    {
      var s := Reserved(len);
      s.(writer := s.writer + len)
    }

    function Retrieved(len: nat): Shape
      requires Ok() && len <= Readable()
    {
      if len < Readable() then this.(reader := reader + len)
      else Shape(capacity, CHEAP_PREPEND, CHEAP_PREPEND)
    }

    function Unwritten(len: nat): Shape
      requires Ok() && len <= Readable()
    {
      this.(writer := writer - len)
    }

    /** readFd after readv returned `n` bytes: the tail is filled first, the rest is appended. */
    function Filled(n: nat): Shape
      requires Ok()
    {
      if n <= Writable() then this.(writer := writer + n)
      else Shape(capacity, reader, capacity).Appended(n - Writable())
    }
  }

  class Buffer {
    var buffer: array<Byte>
    var readerIndex: nat
    var writerIndex: nat
    /** Whether the constructor's assert on writableBytes() passed. */
    const assertHeld: bool

    ghost predicate Valid()
      reads this
    {
      CHEAP_PREPEND <= readerIndex <= writerIndex <= buffer.Length
    }

    ghost function Contents(): seq<Byte>
      reads this, buffer
      requires Valid()
    {
      buffer[readerIndex..writerIndex]
    }

    ghost function Shaped(): (s: Shape)
      reads this
      requires Valid()
      ensures s.Ok()
    {
      Shape(buffer.Length, readerIndex, writerIndex)
    }

    /** The vector is allocated for INITIAL_SIZE whatever is asked; the assert on the room left passes exactly when
        that was asked. */
    constructor (initialSize: nat)
      ensures Valid() && fresh(buffer)
      ensures assertHeld <==> initialSize == INITIAL_SIZE
      ensures Contents() == [] && Shaped() == Shape(CHEAP_PREPEND + INITIAL_SIZE, CHEAP_PREPEND, CHEAP_PREPEND)
    {
      var vector := new Byte[CHEAP_PREPEND + INITIAL_SIZE](_ => 0);
      buffer := vector;
      readerIndex := CHEAP_PREPEND;
      writerIndex := CHEAP_PREPEND;
      assertHeld := vector.Length - CHEAP_PREPEND == initialSize;
    }

    method ReadableBytes() returns (n: nat)
      requires Valid()
      ensures n == |Contents()|
    {
      n := writerIndex - readerIndex;
    }

    method Retrieve(len: nat)
      requires Valid() && len <= |Contents()|
      modifies this
      ensures Valid() && buffer == old(buffer)
      ensures Contents() == old(Contents())[len..]
      ensures Shaped() == old(Shaped()).Retrieved(len)
    {
      if len < writerIndex - readerIndex {
        readerIndex := readerIndex + len;
      } else {
        RetrieveAll();
      }
    }

    method RetrieveAll()
      requires Valid()
      modifies this
      ensures Valid() && buffer == old(buffer)
      ensures Contents() == []
      ensures Shaped() == Shape(buffer.Length, CHEAP_PREPEND, CHEAP_PREPEND)
    {
      readerIndex := CHEAP_PREPEND;
      writerIndex := CHEAP_PREPEND;
    }

    method RetrieveAsString(len: nat) returns (result: seq<Byte>)
      requires Valid() && len <= |Contents()|
      modifies this
      ensures Valid() && buffer == old(buffer)
      ensures result == old(Contents())[..len] && result + Contents() == old(Contents())
      ensures Shaped() == old(Shaped()).Retrieved(len)
    {
      result := buffer[readerIndex..readerIndex + len];
      Retrieve(len);
    }

    method Unwrite(len: nat)
      requires Valid() && len <= |Contents()|
      modifies this
      ensures Valid() && buffer == old(buffer)
      ensures Contents() == old(Contents())[..|old(Contents())| - len]
      ensures Shaped() == old(Shaped()).Unwritten(len)
    {
      writerIndex := writerIndex - len;
    }

    /** vector::resize to a larger size: a new block with the old bytes first and zeroes after them. */
    method Resize(size: nat)
      requires Valid() && size >= buffer.Length
      modifies this`buffer
      ensures Valid() && fresh(buffer) && buffer.Length == size
      ensures buffer[..old(buffer.Length)] == old(buffer[..])
      ensures Contents() == old(Contents())
    {
      var block := new Byte[size](_ => 0);
      forall i | 0 <= i < buffer.Length {
        block[i] := buffer[i];
      }
      buffer := block;
      assert buffer[..old(buffer.Length)] == old(buffer[..]);
      assert Contents() == buffer[..old(buffer.Length)][readerIndex..writerIndex];
    }

    /** std::copy of the readable bytes down to the front, over an overlapping range. */
    method MoveToFront()
      requires Valid() && CHEAP_PREPEND < readerIndex
      modifies this, buffer
      ensures Valid() && buffer == old(buffer)
      ensures readerIndex == CHEAP_PREPEND && Contents() == old(Contents())
    {
      var readable := writerIndex - readerIndex;
      ghost var was, shift := buffer[..], readerIndex - CHEAP_PREPEND;
      var i := 0;
      while i < readable
        invariant 0 <= i <= readable
        invariant buffer == old(buffer) && readerIndex == old(readerIndex) && writerIndex == old(writerIndex)
        invariant forall k :: CHEAP_PREPEND <= k < CHEAP_PREPEND + i ==> buffer[k] == was[k + shift]
        invariant forall k :: CHEAP_PREPEND + i <= k < buffer.Length ==> buffer[k] == was[k]
      {
        buffer[CHEAP_PREPEND + i] := buffer[readerIndex + i];
        i := i + 1;
      }
      readerIndex := CHEAP_PREPEND;
      writerIndex := readerIndex + readable;
    }

    method MakeSpace(len: nat)
      requires Valid() && buffer.Length - writerIndex < len
      modifies this, buffer
      ensures Valid() && (buffer == old(buffer) || fresh(buffer))
      ensures Contents() == old(Contents())
      ensures Shaped() == old(Shaped()).Reserved(len)
    {
      if buffer.Length - writerIndex + readerIndex < len + CHEAP_PREPEND {
        Resize(writerIndex + len);
      } else {
        assert CHEAP_PREPEND < readerIndex;
        MoveToFront();
      }
    }

    method EnsureWritableBytes(len: nat)
      requires Valid()
      modifies this, buffer
      ensures Valid() && (buffer == old(buffer) || fresh(buffer))
      ensures Contents() == old(Contents())
      ensures Shaped() == old(Shaped()).Reserved(len) && Shaped().Writable() >= len
    {
      if buffer.Length - writerIndex < len {
        MakeSpace(len);
      }
    }

    method Append(data: seq<Byte>)
      requires Valid()
      modifies this, buffer
      ensures Valid() && (buffer == old(buffer) || fresh(buffer))
      ensures Contents() == old(Contents()) + data
      ensures Shaped() == old(Shaped()).Appended(|data|)
    {
      EnsureWritableBytes(|data|);
      StoreAtWriter(data);
      writerIndex := writerIndex + |data|;
    }

    /** std::copy to beginWrite(). */
    method StoreAtWriter(data: seq<Byte>)
      requires Valid() && writerIndex + |data| <= buffer.Length
      modifies buffer
      ensures buffer[..writerIndex] == old(buffer[..writerIndex])
      ensures buffer[writerIndex..writerIndex + |data|] == data
    {
      forall i | 0 <= i < |data| {
        buffer[writerIndex + i] := data[i];
      }
    }

    /** readFd. `incoming` is what readv delivered: at most the tail, plus the overflow area when the tail
        is smaller than it; None is a failed call. The result is the error flag. */
    method ReadFd(incoming: seq<Byte>, failed: bool) returns (n: int)
      requires Valid()
      requires |incoming| <= Shaped().Writable() + (if Shaped().Writable() < EXTRA_SIZE then EXTRA_SIZE else 0)
      modifies this, buffer
      ensures Valid() && (buffer == old(buffer) || fresh(buffer))
      ensures failed ==> n == -1 && Contents() == old(Contents()) && Shaped() == old(Shaped())
      ensures !failed ==> n == |incoming| && Contents() == old(Contents()) + incoming
      ensures !failed ==> Shaped() == old(Shaped()).Filled(|incoming|)
    {
      if failed {
        return -1;
      }
      var writable := buffer.Length - writerIndex;
      if |incoming| <= writable {
        StoreAtWriter(incoming);
        writerIndex := writerIndex + |incoming|;
      } else {
        StoreAtWriter(incoming[..writable]);
        writerIndex := buffer.Length;
        assert Contents() == old(Contents()) + incoming[..writable];
        Append(incoming[writable..]);
        assert incoming == incoming[..writable] + incoming[writable..];
      }
      n := |incoming|;
    }
  }

  // ---- Growth ----

  /** makeSpace compacts only a buffer whose reader has moved, and always makes room. */
  lemma ReserveMakesRoom(s: Shape, len: nat)
    requires s.Ok()
    ensures var r := s.Reserved(len);
      && r.Ok() && r.Readable() == s.Readable() && r.Writable() >= len
      && (s.Writable() < len && r.capacity == s.capacity ==> CHEAP_PREPEND < s.reader)
  {
  }

  /** Appending onto `r` readable bytes never takes more than r + 2 * len + 7 bytes of capacity. */
  lemma AppendCapacity(s: Shape, len: nat)
    requires s.Ok()
    ensures var a := s.Appended(len);
      && a.Ok() && a.Readable() == s.Readable() + len && s.capacity <= a.capacity
      && (a.capacity <= s.capacity || a.capacity <= s.Readable() + 2 * len + 7)
  {
  }

  datatype Op = AppendOp(len: nat) | RetrieveOp(len: nat) | UnwriteOp(len: nat) | ReadFdOp(n: nat)

  predicate Allowed(s: Shape, op: Op)
    requires s.Ok()
  {
    match op
    case AppendOp(_) => true
    case RetrieveOp(len) => len <= s.Readable()
    case UnwriteOp(len) => len <= s.Readable()
    case ReadFdOp(n) => n <= s.Writable() + (if s.Writable() < EXTRA_SIZE then EXTRA_SIZE else 0)
  }

  function Apply(s: Shape, op: Op): (r: Shape)
    requires s.Ok() && Allowed(s, op)
    ensures r.Ok()
  {
    match op
    case AppendOp(len) => s.Appended(len)
    case RetrieveOp(len) => s.Retrieved(len)
    case UnwriteOp(len) => s.Unwritten(len)
    case ReadFdOp(n) => s.Filled(n)
  }

  /** `ops`, run from `s`, keep at most `readable` bytes waiting and append at most `chunk` bytes at a time. */
  predicate Within(s: Shape, ops: seq<Op>, readable: nat, chunk: nat)
    requires s.Ok()
    decreases |ops|
  {
    if |ops| == 0 then true
    else
      && Allowed(s, ops[0])
      && (ops[0].AppendOp? ==> ops[0].len <= chunk)
      && (ops[0].ReadFdOp? ==> EXTRA_SIZE <= chunk)
      && Apply(s, ops[0]).Readable() <= readable
      && Within(Apply(s, ops[0]), ops[1..], readable, chunk)
  }

  function Run(s: Shape, ops: seq<Op>, readable: nat, chunk: nat): (r: Shape)
    requires s.Ok() && Within(s, ops, readable, chunk)
    ensures r.Ok()
    decreases |ops|
  {
    if |ops| == 0 then s else Run(Apply(s, ops[0]), ops[1..], readable, chunk)
  }

  lemma StepCapacity(s: Shape, op: Op, readable: nat, chunk: nat)
    requires s.Ok() && Within(s, [op], readable, chunk)
    ensures var cap := Apply(s, op).capacity; cap <= s.capacity || cap <= readable + chunk + 7
  {
  }

  /** However long it runs, a buffer never holds more than its starting size, or the most it had to keep
      plus one chunk and seven bytes: draining stops growth for good. */
  lemma {:induction false} CapacityStaysBounded(s: Shape, ops: seq<Op>, readable: nat, chunk: nat)
    requires s.Ok() && Within(s, ops, readable, chunk)
    ensures var cap := Run(s, ops, readable, chunk).capacity;
      s.capacity <= cap && (cap <= s.capacity || cap <= readable + chunk + 7)
    decreases |ops|
  {
    if |ops| == 0 {
    } else {
      StepCapacity(s, ops[0], readable, chunk);
      CapacityStaysBounded(Apply(s, ops[0]), ops[1..], readable, chunk);
    }
  }
}
