/** The packet buffer of PacketBuffer.h and PacketBuffer.cpp: five bytes reserved for a header, then
    the payload, which is written at one end and read at the other. */
module Packets {
  import opened Bytes
  import opened Words
  import opened Codec

  class Packet {
    const buffer: array<byte>      // m_chpBuffer, of m_iBufferSize bytes
    var readPos: nat
    var writePos: nat
    var headerSize: nat
    var encoded: bool

    ghost predicate Valid() reads this {
      HEADER <= readPos <= writePos <= buffer.Length && headerSize <= HEADER
    }

    /** The payload that is not read yet. */
    ghost function Data(): seq<byte>
      reads this, buffer
      requires Valid()
    {
      buffer[readPos..writePos]
    }

    /** The whole payload, as `SetNetHeader` sees it. */
    ghost function Body(): seq<byte>
      reads this, buffer
      requires Valid()
    {
      buffer[HEADER..writePos]
    }

    /** `GetSendPtr` and `GetSendSize`: what goes to `WSASend`. */
    ghost function Sent(): seq<byte>
      reads this, buffer
      requires Valid()
    {
      buffer[HEADER - headerSize..writePos]
    }

    /** The constructor without arguments, and `Alloc`, which clears a recycled packet. */
    constructor ()
      ensures Valid() && fresh(buffer) && buffer.Length == DEFAULT_BUFFER + HEADER
      ensures Data() == [] && readPos == HEADER && !encoded && headerSize == 0
    {
      buffer := new byte[DEFAULT_BUFFER + HEADER];
      new;
      Clear();
    }

    method Clear()
      requires buffer.Length >= HEADER
      modifies this
      ensures Valid() && Data() == [] && readPos == HEADER && !encoded && headerSize == 0
    {
      readPos, writePos, headerSize, encoded := HEADER, HEADER, 0, false;
    }

    function FreeSize(): nat
      reads this
      requires Valid()
    {
      buffer.Length - writePos
    }

    method MoveWritePos(size: int) returns (n: nat)
      requires Valid()
      modifies this`writePos
      ensures Valid() && n == if size <= 0 then 0 else Min(size, old(FreeSize()))
      ensures Data() == old(Data()) + buffer[old(writePos)..old(writePos) + n]
    {
      if size <= 0 { return 0; }
      n := Min(size, FreeSize());
      writePos := writePos + n;
    }

    /** Once all is read, both positions go back to the start. */
    method Rewind()
      requires Valid()
      modifies this`readPos, this`writePos
      ensures Valid() && Data() == old(Data())
      ensures if old(Data()) == [] then readPos == writePos == HEADER
              else readPos == old(readPos) && writePos == old(writePos)
    {
      if writePos == readPos {
        writePos := HEADER;
        readPos := HEADER;
      }
    }

    method MoveReadPos(size: int) returns (n: nat)
      requires Valid()
      modifies this`readPos, this`writePos
      ensures Valid() && n == if size <= 0 then 0 else Min(size, |old(Data())|)
      ensures Data() == old(Data())[n..]
      ensures size > 0 && Data() == [] ==> readPos == HEADER
    {
      if size <= 0 { return 0; }
      n := Min(size, writePos - readPos);
      readPos := readPos + n;
      Rewind();
    }

    /** As many bytes as there are, up to `size`. */
    method GetData(dest: array<byte>, size: int) returns (n: nat)
      requires Valid() && dest != buffer && size <= dest.Length
      modifies this`readPos, this`writePos, dest
      ensures Valid() && n == if size <= 0 then 0 else Min(size, |old(Data())|)
      ensures dest[..] == Put(old(dest[..]), 0, old(Data())[..n]) && Data() == old(Data())[n..]
    {
      hide Put;
      NothingTaken(Data(), dest[..]);
      if size <= 0 { return 0; }
      n := Min(size, writePos - readPos);
      SliceParts(buffer[..], readPos, writePos, n);
      Copy(dest, 0, buffer, readPos, n);
      readPos := readPos + n;
      Rewind();
    }

    /** As many bytes as fit. */
    method PutData(src: array<byte>, size: int) returns (n: nat)
      requires Valid() && src != buffer && size <= src.Length
      modifies this`writePos, buffer
      ensures Valid() && n == if size <= 0 then 0 else Min(size, old(FreeSize()))
      ensures Data() == old(Data()) + src[..n] && Body() == old(Body()) + src[..n]
    {
      if size <= 0 { return 0; }
      n := Min(size, FreeSize());
      Copy(buffer, writePos, src, 0, n);
      writePos := writePos + n;
    }

    /** `_Push`, under every `<<`: all the bytes or none. */
    method Push(src: array<byte>) returns (ok: bool)
      requires Valid() && src != buffer
      modifies this`writePos, buffer
      ensures Valid() && (ok <==> src.Length <= old(FreeSize()))
      ensures Data() == old(Data()) + (if ok then src[..] else [])
      ensures Body() == old(Body()) + (if ok then src[..] else [])
    {
      if src.Length <= 0 { return true; }
      if FreeSize() < src.Length { return false; }
      Copy(buffer, writePos, src, 0, src.Length);
      writePos := writePos + src.Length;
      ok := true;
    }

    /** `_Pop`, under every `>>`: all the bytes or none, and then the variable keeps its value. */
    method Pop(dest: array<byte>) returns (ok: bool)
      requires Valid() && dest != buffer
      modifies this`readPos, this`writePos, dest
      ensures Valid() && (ok <==> dest.Length <= |old(Data())|)
      ensures dest[..] == if ok then old(Data())[..dest.Length] else old(dest[..])
      ensures Data() == if ok then old(Data())[dest.Length..] else old(Data())
    {
      hide Put;
      NothingTaken(Data(), dest[..]);
      if dest.Length <= 0 { return true; }
      if writePos - readPos < dest.Length { return false; }
      SliceParts(buffer[..], readPos, writePos, dest.Length);
      PutAll(dest[..], buffer[readPos..readPos + dest.Length]);
      Copy(dest, 0, buffer, readPos, dest.Length);
      readPos := readPos + dest.Length;
      Rewind();
      ok := true;
    }

    // ---------------------------------------------------------------- header and encoding

    /** Writes header and code once; a second call changes nothing. */
    method SetNetHeader(key: byte)
      requires Valid() && writePos - HEADER < 0x1_0000 && (encoded ==> headerSize == HEADER)
      modifies this`headerSize, this`encoded, buffer
      ensures Valid() && encoded && headerSize == HEADER
      ensures Sent() == if old(encoded) then old(Sent()) else Frame(old(Body()), key)
    {
      hide CheckSum, Frame;
      if encoded { return; }
      var len := writePos - HEADER;
      var sum := Summed(HEADER, writePos);
      MakeFrame(len, key, sum);
      headerSize := HEADER;
      encoded := true;
      assert Sent() == buffer[..HEADER + len];
    }

    /** Header and encoding of the first `len` bytes of payload. */
    method MakeFrame(len: nat, key: byte, sum: byte)
      requires len < 0x1_0000 && HEADER + len <= buffer.Length && sum == CheckSum(buffer[HEADER..HEADER + len])
      modifies buffer
      ensures buffer[..HEADER + len] == Frame(old(buffer[HEADER..HEADER + len]), key)
    {
      hide Put, Encoded, CheckSum, Header, Frame, FrameLen;
      ghost var was := buffer[..];
      assert was[HEADER..HEADER + len] == buffer[HEADER..HEADER + len];
      HeaderMakesFrame(was, len, key);
      WriteHeader(len, key, sum);
      Encode();
      assert buffer[..HEADER + len] == buffer[..][..HEADER + len];
    }

    method WriteHeader(len: nat, key: byte, sum: byte)
      requires buffer.Length >= HEADER && len < 0x1_0000
      modifies buffer
      ensures buffer[..] == Put(old(buffer[..]), 0, Header(len, key, sum))
    {
      hide LenBytes;
      buffer[0] := PACKET_CODE;
      buffer[1] := LenBytes(len)[0];
      buffer[2] := LenBytes(len)[1];
      buffer[3] := key;
      buffer[4] := sum;
    }

    /** The checksum loops. */
    method Summed(from: nat, to: nat) returns (sum: byte)
      requires from <= to <= buffer.Length
      ensures sum == CheckSum(buffer[from..to])
    {
      sum := 0;
      var i := from;
      while i < to
        invariant from <= i <= to && sum == CheckSum(buffer[from..i])
      {
        assert buffer[from..i + 1][..i - from] == buffer[from..i];
        sum := sum + buffer[i];
        i := i + 1;
      }
    }

    method Encode()
      requires buffer.Length >= HEADER && HEADER + FrameLen(buffer[..]) <= buffer.Length
      modifies buffer
      ensures var was := old(buffer[..]);
              buffer[..] == Put(was, 4, Encoded(was[4..HEADER + FrameLen(was)], 0, 0, 0, was[3]))
    {
      hide Put, Encoded, Xor, Mask, LenOf;
      ghost var was, done := buffer[..], [];
      var size := LenOf(buffer[1], buffer[2]) + 1;
      ghost var data := was[4..4 + size];
      var key := buffer[3];
      var p: byte, e: byte := 0, 0;
      var i := 0;
      PutNothing(was, 4);
      assert data[0..] == data;
      while i < size
        invariant i == |done| <= size && buffer[..] == Put(was, 4, done)
        invariant Encoded(data, 0, 0, 0, key) == done + Encoded(data[i..], i, p, e, key)
      {
        EncodeStep(data, done, i, p, e, key);
        p := Xor(buffer[4 + i], Mask(p, key, i));
        e := Xor(p, Mask(e, FIXED_KEY, i));
        PutNext(was, 4, done, e);
        buffer[4 + i] := e;
        done := done + [e];
        i := i + 1;
      }
      NothingToCode(data[size..], size, p, e, key);
      assert Encoded(data, 0, 0, 0, key) == done;
    }

    /** Decodes a frame that was received into the buffer; `beyond` if the length field reaches beyond it,
        which the source does not look at. */
    method Decode() returns (ok: bool, beyond: bool)
      requires buffer.Length >= HEADER
      modifies buffer
      ensures beyond <==> HEADER + FrameLen(old(buffer[..])) > buffer.Length
      ensures var was := old(buffer[..]);
              if beyond then buffer[..] == was else buffer[..] == Put(was, 4, Opened(was)) && (ok <==> Intact(was))
    {
      hide LenOf, Opened, Intact, Put;
      ok := false;
      beyond := HEADER + LenOf(buffer[1], buffer[2]) > buffer.Length;
      if !beyond {
        ok := DecodeFrame();
      }
    }

    /** `Decode` of a frame that lies inside the buffer. */
    method DecodeFrame() returns (ok: bool)
      requires buffer.Length >= HEADER && HEADER + FrameLen(buffer[..]) <= buffer.Length
      modifies buffer
      ensures var was := old(buffer[..]);
              && buffer[..] == Put(was, 4, Opened(was))
              && (ok <==> Intact(was))
    {
      hide Put, Decoded, CheckSum, LenOf;
      ghost var was := buffer[..];
      var size := LenOf(buffer[1], buffer[2]) + 1;
      DecodeTail(size);
      var sum := Summed(HEADER, 4 + size);
      ok := sum == buffer[4];
      PutThere(was, 4, Opened(was));
      assert buffer[4..4 + size] == Opened(was);
      assert buffer[HEADER..4 + size] == buffer[4..4 + size][1..];
    }

    /** The first loop of `Decode`. */
    method DecodeTail(size: nat)
      requires 0 < size && 4 + size <= buffer.Length
      modifies buffer
      ensures var was := old(buffer[..]); buffer[..] == Put(was, 4, Decoded(was[4..4 + size], 0, 0, 0, was[3]))
    {
      hide Put, Decoded, Xor, Mask;
      ghost var was, done := buffer[..], [];
      ghost var data := was[4..4 + size];
      var key := buffer[3];
      var prevP: byte, prevE: byte := 0, 0;
      var i := 0;
      PutNothing(was, 4);
      assert data[0..] == data;
      while i < size
        invariant i == |done| <= size && buffer[..] == Put(was, 4, done)
        invariant Decoded(data, 0, 0, 0, key) == done + Decoded(data[i..], i, prevP, prevE, key)
      {
        PutNext(was, 4, done, 0);
        assert buffer[4 + i] == data[i];
        DecodeStep(data, done, i, prevP, prevE, key);
        var e := buffer[4 + i];
        var p := Xor(e, Mask(prevE, FIXED_KEY, i));
        var d := Xor(p, Mask(prevP, key, i));
        PutNext(was, 4, done, d);
        buffer[4 + i] := d;
        done := done + [d];
        prevP := p;
        prevE := e;
        i := i + 1;
      }
      NothingToCode(data[size..], size, prevP, prevE, key);
      assert Decoded(data, 0, 0, 0, key) == done;
    }

    /** `SendPacket` to several sessions: only the first call encodes, so all get the same frame. */
    method SendToAll(keys: seq<byte>) returns (sent: seq<seq<byte>>)
      requires Valid() && writePos - HEADER < 0x1_0000 && !encoded
      modifies this`headerSize, this`encoded, buffer
      ensures |sent| == |keys|
      ensures forall i :: 0 <= i < |sent| ==> sent[i] == Frame(old(Body()), keys[0])
    {
      hide Frame;
      ghost var body := Body();
      sent := [];
      while |sent| < |keys|
        invariant Valid() && writePos == old(writePos) && |sent| <= |keys|
        invariant if sent == [] then !encoded && Body() == body
                  else encoded && headerSize == HEADER && Sent() == Frame(body, keys[0])
        invariant forall i :: 0 <= i < |sent| ==> sent[i] == Frame(body, keys[0])
      {
        SetNetHeader(keys[|sent|]);
        sent := sent + [buffer[HEADER - headerSize..writePos]];
      }
    }
  }
}
