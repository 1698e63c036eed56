/** The wire format of PacketBuffer.cpp: a five-byte header, of which the checksum and the payload
    behind it are chained by two XOR stages. */
module Codec {
  import opened Bytes
  import opened Words

  const PACKET_CODE: byte := 0x77
  const FIXED_KEY: byte := 0x32
  const HEADER: nat := 5
  const DEFAULT_BUFFER: nat := 1400

  /** The position counter, from 1, in a byte. */
  function Number(i: nat): byte {
    ((i + 1) % 256) as byte
  }

  function CheckSum(data: seq<byte>): byte {
    if data == [] then 0 else CheckSum(data[..|data| - 1]) + data[|data| - 1]
  }

  function Xor(a: byte, b: byte): byte {
    a ^ b
  }

  /** What a stage adds to a byte: its last output, its key and the position. */
  function Mask(last: byte, key: byte, i: nat): byte {
    last + key + Number(i)
  }

  /** Encoding from position `i` on; `p` and `e` are the last outputs of the two stages. */
  function Encoded(data: seq<byte>, i: nat, p: byte, e: byte, key: byte): (r: seq<byte>)
    ensures |r| == |data|
  {
    if data == [] then [] else
      var p' := Xor(data[0], Mask(p, key, i));
      var e' := Xor(p', Mask(e, FIXED_KEY, i));
      [e'] + Encoded(data[1..], i + 1, p', e', key)
  }

  function Decoded(data: seq<byte>, i: nat, p: byte, e: byte, key: byte): (r: seq<byte>)
    ensures |r| == |data|
  {
    if data == [] then [] else
      var p' := Xor(data[0], Mask(e, FIXED_KEY, i));
      [Xor(p', Mask(p, key, i))] + Decoded(data[1..], i + 1, p', data[0], key)
  }

  lemma XorTwice(a: byte, b: byte)
    ensures Xor(Xor(a, b), b) == a
  {
  }

  /** Decoding undoes encoding, whatever the key and the state of the chain. */
  lemma {:induction false} DecodeAfterEncode(data: seq<byte>, i: nat, p: byte, e: byte, key: byte)
    ensures Decoded(Encoded(data, i, p, e, key), i, p, e, key) == data
  {
    hide Xor, Mask;
    if data != [] {
      var p' := Xor(data[0], Mask(p, key, i));
      var e' := Xor(p', Mask(e, FIXED_KEY, i));
      XorTwice(data[0], Mask(p, key, i));
      XorTwice(p', Mask(e, FIXED_KEY, i));
      assert Encoded(data, i, p, e, key)[1..] == Encoded(data[1..], i + 1, p', e', key);
      DecodeAfterEncode(data[1..], i + 1, p', e', key);
    }
  }

  /** Encoding undoes decoding, so every byte string is the encoding of exactly one other. */
  lemma {:induction false} EncodeAfterDecode(data: seq<byte>, i: nat, p: byte, e: byte, key: byte)
    ensures Encoded(Decoded(data, i, p, e, key), i, p, e, key) == data
  {
    hide Xor, Mask;
    if data != [] {
      var p' := Xor(data[0], Mask(e, FIXED_KEY, i));
      XorTwice(p', Mask(p, key, i));
      XorTwice(data[0], Mask(e, FIXED_KEY, i));
      assert Decoded(data, i, p, e, key)[1..] == Decoded(data[1..], i + 1, p', data[0], key);
      EncodeAfterDecode(data[1..], i + 1, p', data[0], key);
    }
  }

  /** The output of the first stage at position `k`, from the encoded bytes. */
  function Middle(code: seq<byte>, i: nat, e: byte, k: nat): byte
    requires k < |code|
  {
    Xor(code[k], Mask(if k == 0 then e else code[k - 1], FIXED_KEY, i + k))
  }

  /** The code position by position: each encoded byte hides the output of the first stage under the
      encoded byte before it, and that output hides the plain byte under the output before it. */
  lemma {:induction false} EncodedAt(data: seq<byte>, i: nat, p: byte, e: byte, key: byte, k: nat)
    requires k < |data|
    ensures var code := Encoded(data, i, p, e, key);
            data[k] == Xor(Middle(code, i, e, k), Mask(if k == 0 then p else Middle(code, i, e, k - 1), key, i + k))
  {
    hide Xor, Mask;
    var p' := Xor(data[0], Mask(p, key, i));
    var e' := Xor(p', Mask(e, FIXED_KEY, i));
    XorTwice(data[0], Mask(p, key, i));
    XorTwice(p', Mask(e, FIXED_KEY, i));
    if k > 0 {
      EncodedAt(data[1..], i + 1, p', e', key, k - 1);
    }
  }

  // ---------------------------------------------------------------- frames

  /** What `SetNetHeader` makes of a payload. */
  function Frame(payload: seq<byte>, key: byte): (r: seq<byte>)
    requires |payload| < 0x1_0000
    ensures |r| == HEADER + |payload|
  {
    [PACKET_CODE] + LenBytes(|payload|) + [key] + Encoded([CheckSum(payload)] + payload, 0, 0, 0, key)
  }

  /** The length field at the start of a stream. */
  function FrameLen(s: seq<byte>): nat
    requires |s| >= HEADER
  {
    LenOf(s[1], s[2])
  }

  /** The checksum and the payload of the frame at the start of a stream, decoded. */
  function Opened(s: seq<byte>): (r: seq<byte>)
    requires |s| >= HEADER && |s| >= HEADER + FrameLen(s)
    ensures |r| == 1 + FrameLen(s)
  {
    Decoded(s[4..HEADER + FrameLen(s)], 0, 0, 0, s[3])
  }

  predicate Intact(s: seq<byte>)
    requires |s| >= HEADER && |s| >= HEADER + FrameLen(s)
  {
    CheckSum(Opened(s)[1..]) == Opened(s)[0]
  }

  /** A stream that starts with a frame has its code, its length and its payload, and passes the check. */
  lemma FrameOpens(payload: seq<byte>, key: byte, rest: seq<byte>)
    requires |payload| < 0x1_0000
    ensures var s := Frame(payload, key) + rest;
            && s[0] == PACKET_CODE && FrameLen(s) == |payload|
            && Intact(s) && Opened(s)[1..] == payload && s[HEADER + |payload|..] == rest
  {
    hide Encoded, Decoded, CheckSum, LenOf, LenBytes;
    var s := Frame(payload, key) + rest;
    LenRoundTrip(|payload|);
    FrameParts(payload, key, rest);
    DecodeAfterEncode([CheckSum(payload)] + payload, 0, 0, 0, key);
  }

  lemma FrameParts(payload: seq<byte>, key: byte, rest: seq<byte>)
    requires |payload| < 0x1_0000
    ensures var s := Frame(payload, key) + rest;
            && s[0] == PACKET_CODE && s[1] == LenBytes(|payload|)[0] && s[2] == LenBytes(|payload|)[1] && s[3] == key
            && s[4..HEADER + |payload|] == Encoded([CheckSum(payload)] + payload, 0, 0, 0, key)
            && s[HEADER + |payload|..] == rest
  {
    hide Encoded, CheckSum, LenBytes;
  }

  // ---------------------------------------------------------------- in steps

  /** One round of the loop of `Encode`. */
  lemma EncodeStep(data: seq<byte>, done: seq<byte>, i: nat, p: byte, e: byte, key: byte)
    requires i < |data| && Encoded(data, 0, 0, 0, key) == done + Encoded(data[i..], i, p, e, key)
    ensures var p' := Xor(data[i], Mask(p, key, i));
            var e' := Xor(p', Mask(e, FIXED_KEY, i));
            Encoded(data, 0, 0, 0, key) == done + [e'] + Encoded(data[i + 1..], i + 1, p', e', key)
  {
    hide Xor, Mask;
    assert data[i..][1..] == data[i + 1..];
  }

  /** One round of the loop of `Decode`. */
  lemma DecodeStep(data: seq<byte>, done: seq<byte>, i: nat, p: byte, e: byte, key: byte)
    requires i < |data| && Decoded(data, 0, 0, 0, key) == done + Decoded(data[i..], i, p, e, key)
    ensures var p' := Xor(data[i], Mask(e, FIXED_KEY, i));
            Decoded(data, 0, 0, 0, key)
              == done + [Xor(p', Mask(p, key, i))] + Decoded(data[i + 1..], i + 1, p', data[i], key)
  {
    hide Xor, Mask;
    assert data[i..][1..] == data[i + 1..];
  }

  lemma PutNext(s: seq<byte>, at: nat, done: seq<byte>, x: byte)
    requires at + |done| < |s|
    ensures Put(s, at, done)[at + |done| := x] == Put(s, at, done + [x])
    ensures Put(s, at, done)[at + |done|] == s[at + |done|]
  {
  }

  lemma NothingToCode(data: seq<byte>, i: nat, p: byte, e: byte, key: byte)
    requires data == []
    ensures Encoded(data, i, p, e, key) == [] && Decoded(data, i, p, e, key) == []
  {
  }

  function Header(n: nat, key: byte, sum: byte): (r: seq<byte>)
    requires n < 0x1_0000
    ensures |r| == HEADER
  {
    [PACKET_CODE] + LenBytes(n) + [key, sum]
  }

  lemma HeaderFields(n: nat, key: byte, sum: byte)
    requires n < 0x1_0000
    ensures var h := Header(n, key, sum);
            FrameLen(h) == n && h[3] == key && h[4] == sum && h[..4] == [PACKET_CODE] + LenBytes(n) + [key]
  {
    LenRoundTrip(n);
    assert Header(n, key, sum)[1] == LenBytes(n)[0] && Header(n, key, sum)[2] == LenBytes(n)[1];
  }

  lemma FrontWritten(was: seq<byte>, h: seq<byte>, n: nat)
    requires |h| == HEADER && HEADER + n <= |was|
    ensures var b := Put(was, 0, h);
            && |b| == |was| && b[1] == h[1] && b[2] == h[2] && b[3] == h[3] && b[..4] == h[..4]
            && b[4..HEADER + n] == [h[4]] + was[HEADER..HEADER + n]
  {
    assert Put(was, 0, h) == h + was[HEADER..];
  }

  /** A buffer with a header written at its start. */
  lemma HeaderWritten(was: seq<byte>, n: nat, key: byte, sum: byte)
    requires n < 0x1_0000 && HEADER + n <= |was|
    ensures var b := Put(was, 0, Header(n, key, sum));
            && |b| == |was| && FrameLen(b) == n && b[3] == key && b[4..HEADER + n] == [sum] + was[HEADER..HEADER + n]
            && b[..4] == [PACKET_CODE] + LenBytes(n) + [key]
  {
    hide Header, LenOf, LenBytes, Put;
    HeaderFields(n, key, sum);
    FrontWritten(was, Header(n, key, sum), n);
  }

  /** The buffer of a packet once its header is written and its tail is encoded. */
  lemma HeaderMakesFrame(was: seq<byte>, n: nat, key: byte)
    requires n < 0x1_0000 && HEADER + n <= |was|
    ensures var body := was[HEADER..HEADER + n];
            var b := Put(was, 0, Header(n, key, CheckSum(body)));
            && FrameLen(b) == n && b[3] == key
            && Put(b, 4, Encoded(b[4..HEADER + n], 0, 0, 0, key))[..HEADER + n] == Frame(body, key)
  {
    hide Encoded, CheckSum, Header, Put, LenBytes, FrameLen;
    var body := was[HEADER..HEADER + n];
    HeaderWritten(was, n, key, CheckSum(body));
    var b := Put(was, 0, Header(n, key, CheckSum(body)));
    TailWritten(b, Encoded([CheckSum(body)] + body, 0, 0, 0, key));
  }

  lemma TailWritten(b: seq<byte>, x: seq<byte>)
    requires 4 + |x| <= |b|
    ensures Put(b, 4, x)[..4 + |x|] == b[..4] + x
  {
  }
}
