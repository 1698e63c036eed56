/** The tagged words that every lock-free structure compares and swaps.

    A 64-bit word packs a 17-bit tag above a 47-bit address.  Words are numbers below 2^64, so
    the source's masks with 2^k - 1 are remainders and its shifts by 47 are products and quotients;
    Masks proves that of 64-bit vectors.
    The rest of the project works on `Stamped` words, whose write counter is never truncated,
    and sees the hardware word only through `Bits`. */
module TaggedPointer {

  // ---------------------------------------------------------------- the 64-bit layout

  const ADDRESSES: nat := 0x8000_0000_0000
  const TAGS: nat := 0x2_0000

  /** A node address; 0 is the null pointer. */
  type Ptr = p: nat | p < ADDRESSES

  const NULL: Ptr := 0

  function GetPointer(word: nat): Ptr {
    word % ADDRESSES
  }

  function GetTag(word: nat): nat {
    word / ADDRESSES % TAGS
  }

  function MakeTagged(tag: nat, ptr: Ptr): nat {
    tag % TAGS * ADDRESSES + ptr
  }

  /** Both halves can be read back; a tag that outgrew its 17 bits wraps to zero. */
  lemma Unpack(tag: nat, ptr: Ptr)
    ensures GetTag(MakeTagged(tag, ptr)) == tag % TAGS
    ensures GetPointer(MakeTagged(tag, ptr)) == ptr
    ensures MakeTagged(tag, ptr) < TAGS * ADDRESSES
  {
    assert (tag % TAGS * ADDRESSES + ptr) / ADDRESSES == tag % TAGS;
  }

  /** `GetTag` of the chunk stack works on a signed word: it copies the sign bit down before it
      masks.  The mask removes the copies, so both versions read the same tag. */
  lemma SignedTagAgrees(word: nat)
    requires word < TAGS * ADDRESSES
    ensures var signed := if word < TAGS / 2 * ADDRESSES then word else word - TAGS * ADDRESSES;
            signed / ADDRESSES % TAGS == GetTag(word)
  {
    if word >= TAGS / 2 * ADDRESSES {
      assert (word - TAGS * ADDRESSES) / ADDRESSES == word / ADDRESSES - TAGS;
    }
  }

  // ---------------------------------------------------------------- versions

  /** A tagged word together with the number of times it has been written. */
  datatype Stamped = Stamped(ver: nat, ptr: Ptr)

  /** What the hardware stores of a stamped word. */
  function Bits(w: Stamped): nat {
    MakeTagged(w.ver, w.ptr)
  }

  /** The source always writes `MakeTagged(GetTag(prev) + 1, ptr)` over `prev`. */
  function Rewrite(prev: Stamped, ptr: Ptr): Stamped {
    Stamped(prev.ver + 1, ptr)
  }

  lemma RewriteBits(prev: Stamped, ptr: Ptr)
    ensures Bits(Rewrite(prev, ptr)) == MakeTagged(GetTag(Bits(prev)) + 1, ptr)
  {
    Unpack(prev.ver, prev.ptr);
  }

  /** `snap` was read from a location that now holds `cur` and gets a new version on each write. */
  predicate NotNewer(snap: Stamped, cur: Stamped) {
    snap.ver <= cur.ver && (snap.ver == cur.ver ==> snap == cur)
  }

  /** The snapshot is fewer than 2^17 writes old. */
  predicate InWindow(snap: Stamped, cur: Stamped) {
    cur.ver < snap.ver + TAGS
  }

  /** Exactly when two writes of one location are indistinguishable to a CAS. */
  lemma SameBitsIff(a: Stamped, b: Stamped)
    ensures Bits(a) == Bits(b) <==> a.ptr == b.ptr && (a.ver - b.ver) % TAGS == 0
  {
    Unpack(a.ver, a.ptr);
    Unpack(b.ver, b.ptr);
    assert Bits(a) == Bits(b) <==> a.ptr == b.ptr && a.ver % TAGS == b.ver % TAGS;
  }

  /** Inside the window a CAS succeeds only if nothing was written since the snapshot. */
  lemma CasMeansUnchanged(snap: Stamped, cur: Stamped)
    requires NotNewer(snap, cur) && InWindow(snap, cur)
    ensures Bits(snap) == Bits(cur) <==> snap == cur
  {
    SameBitsIff(cur, snap);
  }

  /** At the edge of the window the protection is gone: 2^17 writes later the CAS is fooled. */
  lemma WindowIsTight(snap: Stamped)
    ensures var cur := Stamped(snap.ver + TAGS, snap.ptr);
            NotNewer(snap, cur) && !InWindow(snap, cur) && Bits(snap) == Bits(cur) && snap != cur
  {
    SameBitsIff(snap, Stamped(snap.ver + TAGS, snap.ptr));
  }
}
