/** Light codes are bitmasks; JavaScript's `|` works on 32-bit integers. */
module LightBits {

  type LightCode = bv32

  /** Bitwise OR of two light codes: every bit of either is kept. */
  function BitUnion(a: LightCode, b: LightCode): (r: LightCode)
    ensures r & a == a
    ensures r & b == b
  {
    a | b
  }

  /** The empty code adds no bits. */
  lemma UnionWithNone(a: LightCode)
    ensures BitUnion(a, 0) == a
  {
  }

  /** A bit is in the OR of two codes exactly when it is in either. */
  lemma UnionBitIff(a: LightCode, b: LightCode, bit: LightCode)
    ensures (a | b) & bit != 0 <==> a & bit != 0 || b & bit != 0
  {
  }
}
