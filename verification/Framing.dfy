/** From byte stream to packets: the receive loop of CNetServer.cpp, against a parser of streams. */
module Framing {
  import opened Bytes
  import opened Words
  import opened Codec
  import opened CodecLaws
  import opened Packets
  import opened Ring
  import opened RingBuffers

  const RECV_BUFFER_SIZE: nat := 2000

  // ---------------------------------------------------------------- what a stream means

  /** A receive ends with another one posted, with the session given up, or at a frame that does not
      fit into a packet. */
  datatype End = Waiting | Closed | Overrun

  /** The payloads delivered, the bytes kept, and the end. */
  datatype Parsed = Parsed(delivered: seq<seq<byte>>, rest: seq<byte>, end: End)

  predicate Complete(s: seq<byte>) {
    |s| >= HEADER && |s| >= HEADER + FrameLen(s)
  }

  function Tail(s: seq<byte>): (r: seq<byte>)
    requires Complete(s)
    ensures |r| < |s|
  {
    s[HEADER + FrameLen(s)..]
  }

  /** A complete frame with the right code whose payload is longer than a packet buffer. */
  predicate Oversize(s: seq<byte>) {
    Complete(s) && s[0] == PACKET_CODE && FrameLen(s) > DEFAULT_BUFFER
  }

  /** A frame that is delivered. */
  predicate Good(s: seq<byte>) {
    Complete(s) && s[0] == PACKET_CODE && FrameLen(s) <= DEFAULT_BUFFER && Intact(s)
  }

  /** The length is looked at before the packet code: an incomplete frame is kept whatever it is. */
  function Parse(s: seq<byte>): Parsed {
    if !Complete(s) then Parsed([], s, Waiting)
    else if s[0] != PACKET_CODE then Parsed([], s, Closed)
    else if FrameLen(s) > DEFAULT_BUFFER then Parsed([], s, Overrun)
    else if !Intact(s) then Parsed([], Tail(s), Closed)
    else After([Opened(s)[1..]], Parse(Tail(s)))
  }

  function After(first: seq<seq<byte>>, more: Parsed): Parsed {
    more.(delivered := first + more.delivered)
  }

  lemma AfterAfter(a: seq<seq<byte>>, b: seq<seq<byte>>, p: Parsed)
    ensures After(a, After(b, p)) == After(a + b, p)
  {
  }

  /** Taking one good frame off a stream. */
  lemma FrameParses(s: seq<byte>)
    requires Good(s)
    ensures Parse(s) == After([Opened(s)[1..]], Parse(Tail(s)))
  {
    hide Opened, Intact, FrameLen;
  }

  lemma NothingParsed(s: seq<byte>)
    ensures !Complete(s) ==> Parse(s) == Parsed([], s, Waiting)
    ensures Complete(s) && s[0] != PACKET_CODE ==> Parse(s) == Parsed([], s, Closed)
    ensures Oversize(s) ==> Parse(s) == Parsed([], s, Overrun)
    ensures Complete(s) && s[0] == PACKET_CODE && !Oversize(s) && !Intact(s) ==> Parse(s) == Parsed([], Tail(s), Closed)
    ensures After([], Parse(s)) == Parse(s)
  {
    hide Opened, Intact, FrameLen;
  }

  // ---------------------------------------------------------------- RecvProc

  /** One completed receive of `n` bytes.  `Closed` is where the source returns the session without
      posting another receive, `Overrun` where it would copy a frame past the end of a packet. */
  method RecvProc(ring: RingBuffer, n: nat) returns (delivered: seq<seq<byte>>, end: End)
    requires ring.Valid() && n <= |ring.Free()|
    modifies ring`front, ring`rear
    ensures ring.Valid()
    ensures Parse(old(ring.Contents() + ring.Free()[..n])) == Parsed(delivered, ring.Contents(), end)
  {
    hide Opened, Intact, FrameLen, Parse, Tail, Used, Spare;
    delivered, end := [], Waiting;
    ghost var s := ring.Contents() + ring.Free()[..n];
    var moved := ring.MoveRear(n);
    NothingParsed(s);
    while true
      invariant ring.Valid() && end == Waiting
      invariant Parse(s) == After(delivered, Parse(ring.Contents()))
      decreases |ring.Contents()|
    {
      ghost var now := ring.Contents();
      NothingParsed(now);
      var useSize := ring.GetUseSize();
      if useSize < HEADER { break; }
      var code, len := PeekHeader(ring);
      if useSize < HEADER + len { break; }
      if code != PACKET_CODE {
        end := Closed;
        return;
      }
      if len > DEFAULT_BUFFER {
        end := Overrun;
        return;
      }
      var ok, payload := TakeFrame(ring, len);
      if !ok {
        end := Closed;
        return;
      }
      FrameParses(now);
      AfterAfter(delivered, [payload], Parse(Tail(now)));
      delivered := delivered + [payload];
    }
  }

  // ---------------------------------------------------------------- frames that are too long

  /** What is left of a stream after `k` good frames, or nothing if there are fewer. */
  function Beyond(s: seq<byte>, k: nat): seq<byte> {
    if k == 0 then s else if Good(s) then Beyond(Tail(s), k - 1) else []
  }

  lemma {:induction false} OverrunFound(s: seq<byte>) returns (k: nat)
    requires Parse(s).end == Overrun
    ensures Oversize(Beyond(s, k))
  {
    hide Opened, Intact, FrameLen;
    NothingParsed(s);
    if Good(s) {
      FrameParses(s);
      var j := OverrunFound(Tail(s));
      k := j + 1;
    } else {
      k := 0;
    }
  }

  lemma {:induction false} OverrunAt(s: seq<byte>, k: nat)
    requires Oversize(Beyond(s, k))
    ensures Parse(s).end == Overrun
  {
    hide Opened, Intact, FrameLen;
    NothingParsed(s);
    if k > 0 {
      assert Good(s);
      FrameParses(s);
      OverrunAt(Tail(s), k - 1);
    }
  }

  /** Exactly when a receive overruns a packet: behind some number of good frames stands a complete
      frame with the right code and more payload than a packet holds. */
  lemma OverrunIff(s: seq<byte>)
    ensures Parse(s).end == Overrun <==> exists k: nat :: Oversize(Beyond(s, k))
  {
    hide Parse, Oversize, Beyond;
    if Parse(s).end == Overrun {
      var k := OverrunFound(s);
    }
    forall k: nat | Oversize(Beyond(s, k)) ensures Parse(s).end == Overrun {
      OverrunAt(s, k);
    }
  }

  /** How many good frames a stream starts with. */
  function GoodFrames(s: seq<byte>): nat {
    if Good(s) then 1 + GoodFrames(Tail(s)) else 0
  }

  /** What parsing delivers are the payloads of the good frames at the start of a stream, as many as there
      are and in order, and what stands behind them decides what is kept and how it ends. */
  lemma {:induction false} ParseIsExact(s: seq<byte>)
    ensures var n, p := GoodFrames(s), Parse(s);
            && |p.delivered| == n
            && (forall k :: 0 <= k < n ==> Good(Beyond(s, k)) && p.delivered[k] == Opened(Beyond(s, k))[1..])
            && !Good(Beyond(s, n))
            && p == Parse(Beyond(s, n)).(delivered := p.delivered)
  {
    hide Opened, Intact, FrameLen, Parse, Good;
    if Good(s) {
      GoodParses(s);
      ParseIsExact(Tail(s));
      var p, q := Parse(s), Parse(Tail(s));
      forall k | 0 <= k < |p.delivered|
        ensures Good(Beyond(s, k)) && Complete(Beyond(s, k)) && p.delivered[k] == Opened(Beyond(s, k))[1..]
      {
        if k > 0 {
          assert Beyond(s, k) == Beyond(Tail(s), k - 1);
          GoodIsComplete(Beyond(s, k));
          assert p.delivered[k] == q.delivered[k - 1];
        }
      }
    } else {
      NothingParsed(s);
      NothingGood(s);
    }
  }

  lemma GoodIsComplete(s: seq<byte>)
    requires Good(s)
    ensures Complete(s)
  {
  }

  lemma GoodParses(s: seq<byte>)
    requires Good(s)
    ensures Complete(s) && Parse(s) == After([Opened(s)[1..]], Parse(Tail(s)))
  {
    hide Opened, Intact, FrameLen;
    FrameParses(s);
  }

  lemma NothingGood(s: seq<byte>)
    requires !Good(s)
    ensures Parse(s).delivered == []
  {
    hide Opened, Intact, FrameLen;
  }

  /** A complete frame that ends the session: its code is not 0x77, or its first decoded byte is not the
      sum of its payload modulo 256. */
  predicate Bad(s: seq<byte>) {
    && Complete(s)
    && (s[0] != 0x77 || (FrameLen(s) <= DEFAULT_BUFFER && Nat(Opened(s)[0]) != Total(Opened(s)[1..]) % 256))
  }

  /** Exactly when a stream closes its session: behind the good frames stands a bad one. */
  lemma ClosedIff(s: seq<byte>)
    ensures Parse(s).end == Closed <==> Bad(Beyond(s, GoodFrames(s)))
  {
    hide Opened, Intact, FrameLen, Parse, Beyond, GoodFrames;
    ParseIsExact(s);
    BadEnds(Beyond(s, GoodFrames(s)));
  }

  lemma BadEnds(s: seq<byte>)
    requires !Good(s)
    ensures Parse(s).end == Closed <==> Bad(s)
  {
    hide Opened, Intact, FrameLen, Nat, Total, Parse;
    NothingParsed(s);
    if Complete(s) { IntactIff(s); }
  }

  /** A frame whose payload differs in one byte from the one that was summed is not delivered. */
  lemma DamageCloses(s: seq<byte>, payload: seq<byte>, k: nat, b: byte)
    requires Complete(s) && s[0] == 0x77 && FrameLen(s) <= DEFAULT_BUFFER
    requires k < |payload| && b != payload[k] && Opened(s) == [CheckSum(payload)] + payload[k := b]
    ensures Parse(s) == Parsed([], Tail(s), Closed)
  {
    hide Opened, Intact, FrameLen, CheckSum;
    OneByteWrong(s, payload, k, b);
    NothingParsed(s);
  }

  /** Of the frames that are too long, those of at most 1996 bytes fit into the receive buffer and
      overrun a packet; longer ones never get complete and leave no room to receive. */
  lemma LongFrames(s: seq<byte>)
    requires |s| <= RECV_BUFFER_SIZE + 1
    ensures Oversize(s) ==> 1401 <= FrameLen(s) <= 1996
    ensures |s| == RECV_BUFFER_SIZE + 1 && FrameLen(s) > 1996 ==> Parse(s) == Parsed([], s, Waiting)
  {
    hide Opened, Intact, LenOf;
  }

  /** Each of these lengths occurs: such a frame, as `SetNetHeader` would make it from a longer packet,
      fits into the receive buffer and overruns the packet it is copied to. */
  lemma OverrunWitness(payload: seq<byte>, key: byte)
    requires 1401 <= |payload| <= 1996
    ensures |Frame(payload, key)| <= RECV_BUFFER_SIZE + 1 && Oversize(Frame(payload, key))
    ensures Parse(Frame(payload, key)) == Parsed([], Frame(payload, key), Overrun)
  {
    hide Encoded, Decoded, CheckSum, LenOf, LenBytes, Opened, Intact;
    FrameOpens(payload, key, []);
    assert Frame(payload, key) + [] == Frame(payload, key);
    NothingParsed(Frame(payload, key));
  }

  method PeekHeader(ring: RingBuffer) returns (code: byte, len: nat)
    requires ring.Valid() && |ring.Contents()| >= HEADER
    ensures code == ring.Contents()[0] && len == FrameLen(ring.Contents())
  {
    hide LenOf;
    var header := new byte[HEADER];
    var n := ring.Peek(header, 0, HEADER);
    assert header[..] == ring.Contents()[..HEADER];
    assert header[0] == header[..][0] && header[1] == header[..][1] && header[2] == header[..][2];
    code, len := header[0], LenOf(header[1], header[2]);
  }

  /** A frame copied to the start of a buffer is the same frame there. */
  lemma CopiedFrame(s: seq<byte>, b: seq<byte>)
    requires Complete(s) && HEADER + FrameLen(s) <= |b|
    ensures var w := Put(b, 0, s[..HEADER + FrameLen(s)]);
            Complete(w) && FrameLen(w) == FrameLen(s) && Opened(w) == Opened(s) && Intact(w) == Intact(s)
  {
    hide LenOf;
    var w := Put(b, 0, s[..HEADER + FrameLen(s)]);
    assert w[4..HEADER + FrameLen(s)] == s[4..HEADER + FrameLen(s)];
  }

  /** A packet is allocated and filled. */
  method FillPacket(ring: RingBuffer, len: nat) returns (packet: Packet)
    requires ring.Valid() && Complete(ring.Contents()) && len == FrameLen(ring.Contents()) <= DEFAULT_BUFFER
    modifies ring`front
    ensures fresh(packet) && fresh(packet.buffer) && packet.buffer != ring.buffer
    ensures ring.Valid() && ring.Contents() == Tail(old(ring.Contents()))
    ensures packet.Valid() && packet.readPos == HEADER && packet.writePos == HEADER + len
    ensures var w, s := packet.buffer[..], old(ring.Contents());
            Complete(w) && FrameLen(w) == len && Opened(w) == Opened(s) && Intact(w) == Intact(s)
  {
    hide Opened, Intact, FrameLen, Put;
    packet := new Packet();
    CopiedFrame(ring.Contents(), packet.buffer[..]);
    var n := ring.Dequeue(packet.buffer, 0, HEADER + len);
    n := packet.MoveWritePos(len);
  }

  /** and decoded. */
  method TakeFrame(ring: RingBuffer, len: nat) returns (ok: bool, payload: seq<byte>)
    requires ring.Valid() && Complete(ring.Contents()) && len == FrameLen(ring.Contents()) <= DEFAULT_BUFFER
    modifies ring`front
    ensures ring.Valid() && ring.Contents() == Tail(old(ring.Contents()))
    ensures ok <==> Intact(old(ring.Contents()))
    ensures payload == Opened(old(ring.Contents()))[1..]
  {
    hide Opened, Intact, FrameLen, Put;
    ghost var s := ring.Contents();
    var packet := FillPacket(ring, len);
    ghost var b := packet.buffer[..];
    var beyond;
    ok, beyond := packet.Decode();
    PutThere(b, 4, Opened(b));
    assert packet.buffer[4..HEADER + len] == Opened(s);
    assert packet.buffer[HEADER..HEADER + len] == packet.buffer[4..HEADER + len][1..];
    payload := packet.buffer[packet.readPos..packet.writePos];
  }

  // ---------------------------------------------------------------- end to end

  /** Payloads and keys that `SetNetHeader` may see: no longer than a packet buffer. */
  predicate Sendable(payloads: seq<seq<byte>>, keys: seq<byte>) {
    |payloads| == |keys| && forall i :: 0 <= i < |payloads| ==> |payloads[i]| <= DEFAULT_BUFFER
  }

  /** The bytes that the packets make on the wire. */
  function Stream(payloads: seq<seq<byte>>, keys: seq<byte>): seq<byte>
    requires Sendable(payloads, keys)
  {
    if payloads == [] then [] else Frame(payloads[0], keys[0]) + Stream(payloads[1..], keys[1..])
  }

  function Concat(chunks: seq<seq<byte>>): seq<byte> {
    if chunks == [] then [] else chunks[0] + Concat(chunks[1..])
  }

  /** Parsing what has come, and later what was left of it with what comes then, is parsing it all. */
  lemma {:induction false} ParseInPieces(s: seq<byte>, t: seq<byte>)
    requires Parse(s).end == Waiting
    ensures Parse(s + t) == After(Parse(s).delivered, Parse(Parse(s).rest + t))
  {
    hide Opened, Intact, FrameLen;
    if Complete(s) {
      LongerStream(s, t);
      ParseInPieces(Tail(s), t);
      AfterAfter([Opened(s)[1..]], Parse(Tail(s)).delivered, Parse(Parse(Tail(s)).rest + t));
    }
  }

  lemma LongerStream(s: seq<byte>, t: seq<byte>)
    requires Complete(s)
    ensures Complete(s + t) && (s + t)[0] == s[0] && Tail(s + t) == Tail(s) + t
    ensures Opened(s + t) == Opened(s) && Intact(s + t) == Intact(s)
  {
    hide LenOf;
    assert (s + t)[4..HEADER + FrameLen(s)] == s[4..HEADER + FrameLen(s)];
  }

  /** The first frame of a stream is still incomplete, or it is the first payload. */
  lemma FirstFrame(payload: seq<byte>, key: byte, more: seq<byte>, s: seq<byte>, t: seq<byte>)
    requires |payload| <= DEFAULT_BUFFER && s + t == Frame(payload, key) + more
    ensures |s| < HEADER + |payload| ==> !Complete(s)
    ensures |s| >= HEADER + |payload| ==>
              Complete(s) && s[0] == PACKET_CODE && FrameLen(s) == |payload| && Intact(s)
              && Opened(s)[1..] == payload && Tail(s) + t == more
  {
    var n := HEADER + |payload|;
    FrameOpens(payload, key, more);
    hide Frame, Opened, Intact, LenOf;
    if |s| >= HEADER {
      assert s[1] == (s + t)[1] && s[2] == (s + t)[2];
      if |s| >= n {
        LongerStream(s, t);
      }
    }
  }

  /** However a stream of frames is cut, the packets that are complete have been delivered in order,
      the session is open, and less than one longest frame is kept. */
  lemma {:induction false} CutAnywhere(payloads: seq<seq<byte>>, keys: seq<byte>, s: seq<byte>, t: seq<byte>)
    returns (k: nat)
    requires Sendable(payloads, keys) && s + t == Stream(payloads, keys)
    ensures Parse(s).end == Waiting && |Parse(s).rest| < HEADER + DEFAULT_BUFFER
    ensures k <= |payloads| && Parse(s).delivered == payloads[..k]
    ensures Parse(s).rest + t == Stream(payloads[k..], keys[k..])
    ensures t == [] ==> k == |payloads| && Parse(s).rest == []
  {
    hide Frame, Opened, Intact, FrameLen;
    if payloads == [] {
      k := 0;
    } else {
      var more := Stream(payloads[1..], keys[1..]);
      FirstFrame(payloads[0], keys[0], more, s, t);
      if |s| < HEADER + |payloads[0]| {
        k := 0;
      } else {
        var j := CutAnywhere(payloads[1..], keys[1..], Tail(s), t);
        k := j + 1;
        assert payloads[k..] == payloads[1..][j..] && keys[k..] == keys[1..][j..];
        assert payloads[..k] == [payloads[0]] + payloads[1..][..j];
      }
    }
  }

  /** Every receive brings something and fits into the free space that is left then. */
  predicate Receivable(chunks: seq<seq<byte>>, rest: seq<byte>) {
    chunks != [] ==>
      && 0 < |chunks[0]| <= RECV_BUFFER_SIZE + 1 - |rest|
      && Receivable(chunks[1..], Parse(rest + chunks[0]).rest)
  }

  lemma {:induction false} ConcatSnoc(chunks: seq<seq<byte>>, i: nat)
    requires i < |chunks|
    ensures Concat(chunks[..i + 1]) == Concat(chunks[..i]) + chunks[i]
  {
    if i > 0 {
      assert chunks[..i + 1][1..] == chunks[1..][..i] && chunks[..i][1..] == chunks[1..][..i - 1];
      ConcatSnoc(chunks[1..], i - 1);
    } else {
      assert chunks[..1][1..] == [] && chunks[..1] == [chunks[0]];
    }
  }

  lemma {:induction false} ConcatSplit(chunks: seq<seq<byte>>, i: nat)
    requires i <= |chunks|
    ensures Concat(chunks) == Concat(chunks[..i]) + Concat(chunks[i..])
    decreases |chunks| - i
  {
    if i < |chunks| {
      ConcatSplit(chunks, i + 1);
      ConcatSnoc(chunks, i);
      assert chunks[i..][1..] == chunks[i + 1..];
    } else {
      assert chunks[..i] == chunks;
    }
  }

  /** One more receive of a stream of frames. */
  lemma NextReceive(chunks: seq<seq<byte>>, i: nat, payloads: seq<seq<byte>>, keys: seq<byte>, done: Parsed)
    requires i < |chunks| && Sendable(payloads, keys) && Concat(chunks) == Stream(payloads, keys)
    requires Parse(Concat(chunks[..i])) == done && done.end == Waiting
    ensures var s := done.rest + chunks[i];
            && Parse(s).end == Waiting && |Parse(s).rest| < HEADER + DEFAULT_BUFFER
            && Parse(Concat(chunks[..i + 1])) == After(done.delivered, Parse(s))
  {
    hide Parse, Stream, Concat;
    ConcatSplit(chunks, i);
    ConcatSplit(chunks[i..], 1);
    ConcatSnoc(chunks[i..], 0);
    ConcatSnoc(chunks, i);
    var before, later := Concat(chunks[..i]), Concat(chunks[i..][1..]);
    var j := CutAnywhere(payloads, keys, before, Concat(chunks[i..]));
    NothingConcats(chunks[i..]);
    assert done.rest + Concat(chunks[i..]) == done.rest + chunks[i] + later;
    var k := CutAnywhere(payloads[j..], keys[j..], done.rest + chunks[i], later);
    ParseInPieces(before, chunks[i]);
  }

  lemma NothingConcats(chunks: seq<seq<byte>>)
    requires chunks != []
    ensures Concat(chunks[..1]) == chunks[0]
  {
  }

  /** What was sent is what is delivered, however the stream is split into receives; and after every
      receive there is room for at least 597 more bytes.  The buffer may hold bytes of an earlier
      session, which `Session::Init` clears. */
  method ReceiveAll(ring: RingBuffer, chunks: seq<seq<byte>>, ghost payloads: seq<seq<byte>>, ghost keys: seq<byte>)
    returns (delivered: seq<seq<byte>>, free: seq<nat>)
    requires ring.Valid() && ring.buffer.Length == RECV_BUFFER_SIZE + 2
    requires Sendable(payloads, keys) && Concat(chunks) == Stream(payloads, keys) && Receivable(chunks, [])
    modifies ring, ring.buffer
    ensures delivered == payloads
    ensures ring.Valid() && ring.Contents() == []
    ensures |free| == |chunks| && forall i :: 0 <= i < |free| ==> free[i] >= 597
  {
    hide Parse, Stream, Used, Spare;
    ring.ClearBuffer();
    delivered, free := [], [];
    NothingParses();
    while |free| < |chunks|
      invariant |free| <= |chunks| && ring.Valid()
      invariant Parse(Concat(chunks[..|free|])) == Parsed(delivered, ring.Contents(), Waiting)
      invariant Receivable(chunks[|free|..], ring.Contents())
      invariant forall i :: 0 <= i < |free| ==> free[i] >= 597
    {
      var i := |free|;
      NextReceive(chunks, i, payloads, keys, Parsed(delivered, ring.Contents(), Waiting));
      var room := ring.GetFreeSize();
      var more := OneReceive(ring, chunks[i]);
      assert chunks[i..][1..] == chunks[i + 1..];
      delivered := delivered + more;
      room := ring.GetFreeSize();
      free := free + [room];
    }
    assert chunks[..|chunks|] == chunks;
    ghost var k := CutAnywhere(payloads, keys, Concat(chunks), []);
  }

  lemma NothingParses()
    ensures Parse(Concat([])) == Parsed([], [], Waiting)
  {
  }

  /** A receive completes with the bytes `data`. */
  method OneReceive(ring: RingBuffer, data: seq<byte>) returns (delivered: seq<seq<byte>>)
    requires ring.Valid() && 0 < |data| <= |ring.Free()|
    requires Parse(ring.Contents() + data).end == Waiting
    modifies ring`front, ring`rear, ring.buffer
    ensures ring.Valid()
    ensures Parse(old(ring.Contents()) + data) == Parsed(delivered, ring.Contents(), Waiting)
  {
    var a := new byte[|data|](i requires 0 <= i < |data| => data[i]);
    assert a[..] == data;
    ring.Scatter(a);
    var end;
    delivered, end := RecvProc(ring, |data|);
  }
}
