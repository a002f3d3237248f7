/**
 * 128-bit universally unique identifiers, as the store uses them for keys:
 * sixteen bytes, the all-zero Nil identifier (the zero value of an identifier
 * variable) and the random, version 4 identifiers that new records receive
 * (RFC 4122, section 4.4).
 */
module Uuids {

  /** Sixteen bytes, most significant first. */
  type Uuid = s: seq<bv8> | |s| == 16
    witness [0, 0, 0, 0, 0, 0, 0, 0, 0, 0, 0, 0, 0, 0, 0, 0]

  /** The identifier whose bytes are all zero. */
  const Nil: Uuid := [0, 0, 0, 0, 0, 0, 0, 0, 0, 0, 0, 0, 0, 0, 0, 0]

  /**
   * An identifier of version 4 (random) in the RFC 4122 variant: the high
   * nibble of byte 6 is 4 and the two high bits of byte 8 are 1 then 0.
   */
  predicate IsV4(u: Uuid) {
    u[6] & 0xF0 == 0x40 && u[8] & 0xC0 == 0x80
  }

  /**
   * A fresh identifier made from sixteen random bytes: the version and variant
   * bits are forced and the other 122 bits are the random ones.
   */
  function NewV4(random: Uuid): (u: Uuid)
    ensures IsV4(u)
    ensures u != Nil
    ensures forall i :: 0 <= i < 16 && i != 6 && i != 8 ==> u[i] == random[i]
    ensures u[6] & 0x0F == random[6] & 0x0F && u[8] & 0x3F == random[8] & 0x3F
  {
    random[6 := (random[6] & 0x0F) | 0x40][8 := (random[8] & 0x3F) | 0x80]
  }

  /** No version 4 identifier is the Nil identifier. */
  lemma V4IsNotNil(u: Uuid)
    requires IsV4(u)
    ensures u != Nil
  {
  }
}
