/** The masks and shifts that pack a tag above an address, on 64-bit words: they are the remainders,
    quotients and products that TaggedPointer works with. */
module Masks {

  const PTR_MASK: bv64 := 0x00007fffffffffff
  const TAG_MASK: bv64 := 0x1ffff

  function GetPointer(word: bv64): bv64 {
    word & PTR_MASK
  }

  function GetTag(word: bv64): bv64 {
    (word >> 47) & TAG_MASK
  }

  function MakeTagged(tag: bv64, ptr: bv64): bv64 {
    ((tag & TAG_MASK) << 47) | (ptr & PTR_MASK)
  }

  lemma PointerIsRemainder(word: bv64)
    ensures GetPointer(word) == word % 0x8000_0000_0000
  {
  }

  lemma TagIsQuotient(word: bv64)
    ensures GetTag(word) == word / 0x8000_0000_0000 % 0x2_0000
  {
  }

  lemma TaggedIsSum(tag: bv64, ptr: bv64)
    ensures MakeTagged(tag, ptr) == tag % 0x2_0000 * 0x8000_0000_0000 + ptr % 0x8000_0000_0000
  {
  }
}
