/** The one place where a number becomes a byte, and where bytes are combined bit by bit. */
module Octets {
  /** The cast to a byte, by counting: the form the solver reasons about cheaply. */
  function Small(m: nat): (b: bv8)
    requires m < 256
    ensures b as nat == m
  {
    if m == 0 then 0 else Small(m - 1) + 1
  }

  function Low(n: nat): (b: bv8)
    ensures b as nat == n % 256
  {
    Small(n % 256)
  }

  lemma XorTwice(b: bv8, k: bv8)
    ensures (b ^ k) ^ k == b
  {}
}
