/** Resource handles (tpm-emulator/tpm/tpm_handles.c). */
module Handles {
  const RT_KEY: nat := 1
  const MAX_KEYS: nat := 10

  const KH_SRK: nat := 0x4000_0000
  const KH_OWNER: nat := 0x4000_0001
  const KH_OPERATOR: nat := 0x4000_0004

  function Index(h: nat): nat {
    h % 0x100_0000
  }

  function Resource(h: nat): nat {
    h / 0x100_0000
  }

  function HandleOf(resource: nat, i: nat): nat {
    resource * 0x100_0000 + i
  }

  /** The handle may name a key: the SRK or a key slot, none of the other reserved handles. */
  predicate Keyable(h: nat) {
    h == KH_SRK || (Resource(h) == RT_KEY && Index(h) < MAX_KEYS)
  }
}
