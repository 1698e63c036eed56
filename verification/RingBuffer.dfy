/** The receive buffer of RingBuffer.cpp: an array written in place that holds a sequence of bytes of
    bounded length. */
module RingBuffers {
  import opened Bytes
  import opened Ring

  class RingBuffer {
    const buffer: array<byte>      // m_pBuffer, of m_capacity bytes
    var front: int
    var rear: int

    ghost predicate Valid() reads this {
      0 <= front < buffer.Length && 0 <= rear < buffer.Length
    }

    /** The bytes in the buffer, oldest first. */
    ghost function Contents(): seq<byte>
      reads this, buffer
      requires Valid()
    {
      Used(buffer[..], front, rear)
    }

    /** The bytes behind them that may be written. */
    ghost function Free(): seq<byte>
      reads this, buffer
      requires Valid()
    {
      Spare(buffer[..], front, rear)
    }

    constructor (bufferSize: nat)
      ensures Valid() && fresh(buffer) && buffer.Length == bufferSize + 1 && Contents() == []
    {
      buffer := new byte[bufferSize + 1];
      front := 0;
      rear := 0;
    }

    function GetUseSize(): (n: nat)
      reads this, buffer
      requires Valid()
      ensures n == |Contents()|
    {
      if rear >= front then rear - front else buffer.Length - (front - rear)
    }

    function GetFreeSize(): (n: nat)
      reads this, buffer
      requires Valid()
      ensures n == |Free()| == buffer.Length - 1 - |Contents()|
    {
      buffer.Length - 1 - GetUseSize()
    }

    /** As many of the first `size` bytes as fit. */
    method Enqueue(data: array?<byte>, size: int) returns (n: nat)
      requires Valid() && (data != null ==> data != buffer && size <= data.Length)
      modifies this`rear, buffer
      ensures Valid()
      ensures n == if data == null || size <= 0 then 0 else Min(size, old(GetFreeSize()))
      ensures Contents() == old(Contents()) + if n == 0 then [] else data[..n]
    {
      if data == null || size <= 0 { return 0; }
      var free := GetFreeSize();
      if free <= 0 { return 0; }
      n := Min(free, size);
      var first := Min(buffer.Length - rear, n);
      Write(data, n, first);
      Advance(n);
    }

    /** The two `memcpy` of `Enqueue`, and of a receive into the regions of `RecvPost`. */
    method Write(data: array<byte>, n: nat, first: nat)
      requires Valid() && data != buffer && n <= data.Length && n <= |Free()| && first == Min(buffer.Length - rear, n)
      modifies buffer
      ensures Contents() == old(Contents()) && Free()[..n] == data[..n]
    {
      hide Used, Spare, Put;
      Sizes(buffer[..], front, rear);
      ghost var b := buffer[..];
      Copy(buffer, rear, data, 0, first);
      if n - first > 0 {
        WrittenTwice(b, front, rear, data[0..first], data[first..n]);
        assert data[0..first] + data[first..n] == data[..n];
        Copy(buffer, 0, data, first, n - first);
      } else {
        assert data[0..first] == data[..n];
        WrittenOnce(b, front, rear, data[..n]);
      }
    }

    /** `m_rear = (m_rear + n) % m_capacity`. */
    method Advance(n: nat)
      requires Valid() && n <= |Free()|
      modifies this`rear
      ensures Valid() && Contents() == old(Contents()) + old(Free())[..n]
    {
      Sizes(buffer[..], front, rear);
      hide Used, Spare;
      RearMoves(buffer[..], front, rear, n);
      WrapIsMod(rear + n, buffer.Length);
      rear := (rear + n) % buffer.Length;
    }

    /** The oldest `size` bytes, or nothing at all. */
    method Peek(dest: array?<byte>, at: nat, size: int) returns (n: nat)
      requires Valid() && (dest != null ==> dest != buffer && at + size <= dest.Length)
      modifies dest
      ensures Valid() && n == if dest == null || size <= 0 || |Contents()| < size then 0 else size
      ensures dest != null ==>
                dest[..] == if n == 0 then old(dest[..]) else Put(old(dest[..]), at, Contents()[..n])
    {
      if dest == null || size <= 0 { return 0; }
      if GetUseSize() < size { return 0; }
      hide Used, Put, Around;
      Oldest(buffer[..], front, rear, size);
      CopyOut(dest, at, size);
      n := size;
    }

    /** The copy of `Peek`, in one piece or in two. */
    method CopyOut(dest: array<byte>, at: nat, size: nat)
      requires Valid() && dest != buffer && at + size <= dest.Length && size <= buffer.Length
      modifies dest
      ensures dest[..] == Put(old(dest[..]), at, Around(buffer[..], front, size))
    {
      hide Put;
      var first := Min(buffer.Length - front, size);
      if size - first > 0 { InPieces(buffer[..], front, size, dest[..], at); }
      Copy(dest, at, buffer, front, first);
      if size - first > 0 {
        Copy(dest, at + first, buffer, 0, size - first);
      }
    }

    /** The oldest `size` bytes leave the buffer, or nothing at all. */
    method Dequeue(dest: array?<byte>, at: nat, size: int) returns (n: nat)
      requires Valid() && (dest != null ==> dest != buffer && at + size <= dest.Length)
      modifies this`front, dest
      ensures Valid()
      ensures n == if dest == null || size <= 0 || |old(Contents())| < size then 0 else size
      ensures Contents() == old(Contents())[n..]
      ensures dest != null ==>
                dest[..] == if n == 0 then old(dest[..]) else Put(old(dest[..]), at, old(Contents())[..n])
    {
      hide Used, Put;
      n := Peek(dest, at, size);
      Retreat(n);
    }

    /** `m_front = (m_front + n) % m_capacity`. */
    method Retreat(n: nat)
      requires Valid() && n <= |Contents()|
      modifies this`front
      ensures Valid() && Contents() == old(Contents())[n..]
    {
      Sizes(buffer[..], front, rear);
      hide Used, Spare;
      FrontMoves(buffer[..], front, rear, n);
      WrapIsMod(front + n, buffer.Length);
      front := (front + n) % buffer.Length;
    }

    method ClearBuffer()
      requires Valid()
      modifies this
      ensures Valid() && Contents() == []
    {
      front := 0;
      rear := 0;
    }

    /** How much can be written at `rear` in one piece; the rest of the free space is at the start of
        the array. */
    method DirectEnqueueSize() returns (n: nat)
      requires Valid()
      ensures n <= GetFreeSize() && rear + n <= buffer.Length
      ensures Free() == buffer[rear..rear + n] + buffer[..GetFreeSize() - n]
      ensures n == Min(buffer.Length - rear, GetFreeSize())
    {
      var free := GetFreeSize();
      if free <= 0 { return 0; }
      if front <= rear { return Min(buffer.Length - rear, free); }
      return front - rear - 1;
    }

    /** How much can be read at `front` in one piece. */
    method DirectDequeueSize() returns (n: nat)
      requires Valid()
      ensures n <= GetUseSize() && front + n <= buffer.Length
      ensures Contents() == buffer[front..front + n] + buffer[..GetUseSize() - n]
    {
      var use := GetUseSize();
      if use <= 0 { return 0; }
      if front < rear { return use; }
      return buffer.Length - front;
    }

    /** The oldest bytes leave the buffer, at most all.  A negative size moves the front back, and out of
        the array unless it stays at the start or beyond it by whole rounds. */
    method MoveFront(size: int) returns (n: int)
      requires Valid()
      modifies this`front
      ensures n == Min(size, old(GetUseSize()))
      ensures n >= 0 ==> Valid() && Contents() == old(Contents())[n..]
      ensures n < 0 ==> front == Remainder(old(front) + n, buffer.Length)
      ensures Valid() <==> -size <= old(front) || (-size - old(front)) % buffer.Length == 0
    {
      n := Min(size, GetUseSize());
      if n >= 0 {
        Retreat(n);
      } else {
        front := Remainder(front + n, buffer.Length);
      }
    }

    /** Bytes written behind the contents become part of them.  A negative size moves the rear back, as in
        `MoveFront`. */
    method MoveRear(size: int) returns (n: int)
      requires Valid()
      modifies this`rear
      ensures n == Min(size, old(GetFreeSize()))
      ensures n >= 0 ==> Valid() && Contents() == old(Contents()) + old(Free())[..n]
      ensures n < 0 ==> rear == Remainder(old(rear) + n, buffer.Length)
      ensures Valid() <==> -size <= old(rear) || (-size - old(rear)) % buffer.Length == 0
    {
      n := Min(size, GetFreeSize());
      if n >= 0 {
        Advance(n);
      } else {
        rear := Remainder(rear + n, buffer.Length);
      }
    }

    /** A completed receive: the kernel fills the regions that `RecvPost` gave it, one after the other. */
    method Scatter(data: array<byte>)
      requires Valid() && data != buffer && data.Length <= GetFreeSize()
      modifies buffer
      ensures Contents() == old(Contents()) && Free()[..data.Length] == data[..]
    {
      var direct := DirectEnqueueSize();
      Write(data, data.Length, Min(direct, data.Length));
      assert data[..data.Length] == data[..];
    }
  }
}
