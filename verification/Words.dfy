/** 16-bit numbers as two bytes. */
module Words {

  /** A 16-bit number, low byte first. */
  function LenBytes(n: nat): (r: seq<bv8>)
    requires n < 0x1_0000
    ensures |r| == 2
  {
    [(n % 256) as bv8, (n / 256) as bv8]
  }

  function LenOf(lo: bv8, hi: bv8): (n: nat)
    ensures n < 0x1_0000
  {
    lo as nat + 256 * (hi as nat)
  }

  lemma ByteOf(n: nat) returns (b: bv8)
    requires n < 256
    ensures b as nat == n
  {
    b := 0;
    if n > 0 {
      b := ByteOf(n - 1);
      Successor(b);
      b := b + 1;
    }
  }

  lemma Successor(b: bv8)
    requires b != 255
    ensures (b + 1) as nat == b as nat + 1
  {
  }

  lemma ThereAndBack(b: bv8)
    ensures b as nat as bv8 == b
  {
  }

  lemma ByteRoundTrip(n: nat)
    requires n < 256
    ensures n as bv8 as nat == n
  {
    var b := ByteOf(n);
    ThereAndBack(b);
  }

  lemma LenRoundTrip(n: nat)
    requires n < 0x1_0000
    ensures LenOf(LenBytes(n)[0], LenBytes(n)[1]) == n
  {
    ByteRoundTrip(n % 256);
    ByteRoundTrip(n / 256);
  }
}
