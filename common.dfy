/** Types shared by every part of the parking-lot model. */
module Common {

  /** A value that may be missing: the card reader reports either no card or an identifier. */
  datatype Option<+T> = None | Some(value: T)

  /** A card identifier: the four UID bytes the reader returns (`uint8_t current_uid[4]`). */
  type Uid = s: seq<bv8> | |s| == 4 witness [0, 0, 0, 0]

  const U32_MODULUS: nat := 0x1_0000_0000

  /** A value of C type `uint32_t`. */
  type U32 = x: nat | x < U32_MODULUS

  /**
   * The unsigned difference `now - since` of two `uint32_t` values, which
   * wraps around modulo 2^32 when the tick counter has overflowed.
   */
  function Elapsed(now: U32, since: U32): (d: U32)
    ensures since <= now ==> d == now - since
    ensures now < since ==> d == now + U32_MODULUS - since
  {
    (now - since) % U32_MODULUS
  }
}
