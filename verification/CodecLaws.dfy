/** What the wire format of PacketBuffer.cpp looks like from outside, byte by byte, and what the checksum
    is good for. */
module CodecLaws {
  import opened Bytes
  import opened Words
  import opened Codec

  // ---------------------------------------------------------------- the checksum

  /** The sum of the bytes as numbers. */
  function Total(data: seq<byte>): nat {
    if data == [] then 0 else Nat(data[0]) + Total(data[1..])
  }

  lemma {:induction false} TotalSnoc(data: seq<byte>, b: byte)
    ensures Total(data + [b]) == Total(data) + Nat(b)
  {
    hide Nat;
    if data == [] {
      assert [b][1..] == [];
    } else {
      assert (data + [b])[1..] == data[1..] + [b];
      TotalSnoc(data[1..], b);
    }
  }

  // Small steps over bytes, so that the solver sees either numbers or bits.

  function Plus(a: byte, b: byte): byte {
    a + b
  }

  function Nat(b: byte): (n: nat)
    ensures n < 256
  {
    b as nat
  }

  lemma NatOfNext(b: byte)
    ensures b != 255 ==> Nat(b + 1) == Nat(b) + 1
    ensures b == 255 ==> Nat(b + 1) == 0 && Nat(b) == 255
    ensures b == 0 ==> Nat(b) == 0
  {
    if b != 255 {
      Successor(b);
    }
  }

  lemma PlusNext(a: byte, c: byte)
    ensures Plus(a, c + 1) == Plus(a, c) + 1 && Plus(a, 0) == a
  {
  }

  lemma Predecessor(b: byte)
    ensures b - 1 + 1 == b
    ensures b != 0 ==> b - 1 != 255
  {
  }

  lemma {:induction false} NatOfPlus(a: byte, b: byte)
    ensures Nat(Plus(a, b)) == if Nat(a) + Nat(b) < 256 then Nat(a) + Nat(b) else Nat(a) + Nat(b) - 256
    decreases Nat(b)
  {
    hide Nat, Plus;
    NatOfNext(b);
    if b == 0 {
      PlusNext(a, b);
    } else {
      var c := b - 1;
      Predecessor(b);
      NatOfNext(c);
      NatOfPlus(a, c);
      PlusNext(a, c);
      NatOfNext(Plus(a, c));
    }
  }

  lemma OneMore(sum: byte, n: nat, b: byte)
    requires Nat(sum) == n % 256
    ensures Nat(Plus(sum, b)) == (n + Nat(b)) % 256
  {
    hide Nat, Plus;
    NatOfPlus(sum, b);
  }

  lemma CheckSumSplits(data: seq<byte>)
    requires data != []
    ensures CheckSum(data) == Plus(CheckSum(data[..|data| - 1]), data[|data| - 1])
  {
  }

  /** The checksum is the sum of all bytes, modulo 256. */
  lemma {:induction false} CheckSumIsTotal(data: seq<byte>)
    ensures Nat(CheckSum(data)) == Total(data) % 256
  {
    if data == [] {
      NatOfNext(0);
    } else {
      hide CheckSum, Nat, Plus;
      var rest, last := data[..|data| - 1], data[|data| - 1];
      CheckSumIsTotal(rest);
      assert data == rest + [last];
      TotalSnoc(rest, last);
      OneMore(CheckSum(rest), Total(rest), last);
      CheckSumSplits(data);
    }
  }

  lemma AddsApart(a: byte, b: byte, c: byte)
    ensures Plus(a, c) == Plus(b, c) <==> a == b
    ensures Plus(c, a) == Plus(c, b) <==> a == b
  {
  }

  /** The checksum tells any change of one byte. */
  lemma {:induction false} OneByteChanged(data: seq<byte>, k: nat, b: byte)
    requires k < |data|
    ensures CheckSum(data[k := b]) == CheckSum(data) <==> b == data[k]
  {
    hide CheckSum, Plus;
    var rest, last := data[..|data| - 1], data[|data| - 1];
    var data' := data[k := b];
    CheckSumSplits(data);
    CheckSumSplits(data');
    if k == |data| - 1 {
      assert data'[..|data'| - 1] == rest;
      AddsApart(b, last, CheckSum(rest));
    } else {
      assert data'[..|data'| - 1] == rest[k := b];
      OneByteChanged(rest, k, b);
      AddsApart(CheckSum(rest[k := b]), CheckSum(rest), last);
    }
  }

  /** A frame passes the check exactly if its first decoded byte is the sum of the others, modulo 256. */
  lemma IntactIff(s: seq<byte>)
    requires |s| >= HEADER && |s| >= HEADER + FrameLen(s)
    ensures Intact(s) <==> Nat(Opened(s)[0]) == Total(Opened(s)[1..]) % 256
  {
    hide CheckSum, Nat, Opened;
    CheckSumIsTotal(Opened(s)[1..]);
    SameByte(CheckSum(Opened(s)[1..]), Opened(s)[0]);
  }

  lemma SameByte(a: byte, b: byte)
    ensures Nat(a) == Nat(b) <==> a == b
  {
    ThereAndBack(a);
    ThereAndBack(b);
  }

  /** A frame whose payload differs in one byte from the one that was summed does not pass. */
  lemma OneByteWrong(s: seq<byte>, payload: seq<byte>, k: nat, b: byte)
    requires |s| >= HEADER && |s| >= HEADER + FrameLen(s) && k < |payload| && b != payload[k]
    requires Opened(s) == [CheckSum(payload)] + payload[k := b]
    ensures !Intact(s)
  {
    hide CheckSum;
    assert Opened(s)[1..] == payload[k := b];
    OneByteChanged(payload, k, b);
  }

  // ---------------------------------------------------------------- bytes on the wire

  /** Numbers of two bytes travel low byte first. */
  lemma LowByteFirst(n: nat)
    requires n < 0x1_0000
    ensures LenBytes(n)[0] as nat == n % 256 && LenBytes(n)[1] as nat == n / 256
  {
    ByteRoundTrip(n % 256);
    ByteRoundTrip(n / 256);
  }

  /** The header of a frame. */
  lemma HeaderOnWire(payload: seq<byte>, key: byte)
    requires |payload| < 0x1_0000
    ensures var s := Frame(payload, key);
            && |s| == 5 + |payload| && s[0] == 0x77 && s[3] == key
            && s[1] as nat == |payload| % 256 && s[2] as nat == |payload| / 256
  {
    hide LenBytes, Encoded, CheckSum;
    FrameParts(payload, key, []);
    LowByteFirst(|payload|);
  }

  /** One stage on one byte: the last output, the key and the position together cover it. */
  function Stage(a: byte, last: byte, key: byte, here: byte): byte {
    a ^ (last + key + here)
  }

  /** The checksum travels under both stages: the first has the fixed key 0x32, the second the key of the
      packet, and the position counts from 1. */
  lemma ChecksumOnWire(payload: seq<byte>, key: byte, here: byte)
    requires |payload| < 0x1_0000 && Nat(here) == 1
    ensures var s := Frame(payload, key);
            Stage(Stage(s[4], 0, 0x32, here), 0, key, here) == CheckSum(payload)
  {
    hide LenBytes, Encoded, CheckSum, Xor, Mask, Nat, Stage, Frame;
    var data := [CheckSum(payload)] + payload;
    var code := Encoded(data, 0, 0, 0, key);
    CodeOnWire(payload, key, 0);
    EncodedAt(data, 0, 0, 0, key, 0);
    Spelled(code[0], 0, FIXED_KEY, 0, here);
    Spelled(Middle(code, 0, 0, 0), 0, key, 0, here);
  }

  /** Byte `k` of the payload, from 1, travels under both stages: in the first the last output is the byte
      sent before it, in the second what the first made of that byte; the position is kept in a byte. */
  lemma ByteOnWire(payload: seq<byte>, key: byte, k: nat, here: byte, there: byte)
    requires |payload| < 0x1_0000 && 1 <= k <= |payload|
    requires Nat(here) == (k + 1) % 256 && Nat(there) == k % 256
    ensures var s := Frame(payload, key);
            var earlier: byte := if k == 1 then 0 else s[2 + k];
            var first := Stage(s[4 + k], s[3 + k], 0x32, here);
            var last := Stage(s[3 + k], earlier, 0x32, there);
            Stage(first, last, key, here) == payload[k - 1]
  {
    hide LenBytes, Encoded, CheckSum, Xor, Mask, Nat, Stage, Frame;
    var data := [CheckSum(payload)] + payload;
    var code := Encoded(data, 0, 0, 0, key);
    CodeOnWire(payload, key, k);
    CodeOnWire(payload, key, k - 1);
    if k >= 2 { CodeOnWire(payload, key, k - 2); }
    var earlier: byte := if k == 1 then 0 else code[k - 2];
    EncodedAt(data, 0, 0, 0, key, k);
    Spelled(code[k], code[k - 1], FIXED_KEY, k, here);
    Spelled(code[k - 1], earlier, FIXED_KEY, k - 1, there);
    Spelled(Middle(code, 0, 0, k), Middle(code, 0, 0, k - 1), key, k, here);
  }

  lemma CodeOnWire(payload: seq<byte>, key: byte, k: nat)
    requires |payload| < 0x1_0000 && k <= |payload|
    ensures Frame(payload, key)[4 + k] == Encoded([CheckSum(payload)] + payload, 0, 0, 0, key)[k]
  {
    hide LenBytes, Encoded, CheckSum;
    FrameParts(payload, key, []);
    var s := Frame(payload, key);
    assert s + [] == s;
    assert s[4 + k] == s[4..HEADER + |payload|][k];
  }

  lemma NumberIs(k: nat, here: byte)
    requires Nat(here) == (k + 1) % 256
    ensures Number(k) == here
  {
    ThereAndBack(here);
  }

  lemma Spelled(a: byte, last: byte, key: byte, k: nat, here: byte)
    requires Nat(here) == (k + 1) % 256
    ensures Xor(a, Mask(last, key, k)) == Stage(a, last, key, here)
  {
    hide Nat, Number;
    NumberIs(k, here);
  }
}
