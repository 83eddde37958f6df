# A verified model of the TPM 1.2 / MTM emulator

This project models the hard core of `tpm-emulator/` in Dafny and proves what the code is for:
the equations of the DAA protocol over whole runs, RSA with CRT and its message encodings,
SHA-1, HMAC and RC4 against their specifications, and the run-long guarantees of sessions, saved
contexts, delegation, monotonic counters, platform configuration registers and RIM certificates.

## How it is organised

| files | what they model |
|---|---|
| `NumberTheory`, `Fermat`, `Bytes`, `Octets`, `Wrappers` | powers, congruences, Fermat's little theorem, big-number import and export |
| `Handles`, `Runs` | resource handles; runs of a transition system and properties of all their steps |
| `Rsa`, `RsaPadding`, `RsaScheme` | `crypto/rsa.c`: the two operations, the encodings in their buffers, encrypt/decrypt/sign/verify |
| `EncodingLaws` | what each encoding puts in each byte of its buffer |
| `Sha1Spec`, `Sha1Transform`, `Sha1Stream` | FIPS 180-4 and RFC 2104, and `crypto/sha1.c` and `crypto/hmac.c` refining them |
| `Rc4` | `crypto/rc4.c` and the context encryption of `tpm/tpm_context.c` |
| `CipherLaws` | the steps of RC4, SHA-1 and HMAC in terms of table entries, bits and bytes |
| `Daa`, `DaaMachine` | the 25 Join and 16 Sign stages of `tpm/tpm_daa.c`, as functions and in place |
| `DaaRun`, `DaaAlgebra`, `DaaTheorems`, `DaaSign`, `DaaJoinSign`, `DaaBlob` | runs of DAA calls and what they guarantee |
| `DaaVouched`, `DaaTranscript`, `DaaGuards` | what a Join and a Sign have checked and what their digests bind, over runs |
| `DaaHonest`, `DaaHonestSign`, `DaaSample` | honest hosts complete Join and Sign; one that does so without a collision |
| `Sessions`, `SessionMachine`, `SessionRuns`, `SessionLaws` | sessions and saved contexts |
| `Delegation`, `DelegationMachine`, `DelegationRuns`, `DelegationLaws` | families, delegate rows and delegation blobs |
| `Counters`, `CounterLaws`, `Pcr`, `PcrLaws` | monotonic counters; registers and their logs |
| `Rim`, `RimMachine`, `RimLaws` | RIM certificates, their wire format, and rolled-back certificates |

Code that changes state is a class whose methods work on arrays and fields in place, as the
source does. The theorems are lemmas over every run (a sequence of calls with arbitrary inputs)
of transition functions. The classes of `SessionMachine` and `DelegationMachine` carry the history
of their calls in ghost fields, and their `Valid()` is the invariant of the runs; `Counters.Tpm`
carries the counters incremented in the boot cycle. Their methods therefore promise the caller
what the runs guarantee (a nonce never used before, a blob never loaded before, a covering parent)
and not only what the step computes.

The modules named `Laws` (and `DaaGuards`) say once more what each command accepts, refuses and
changes, with the constants of the headers written out and none of the functions that the commands
are built from: when a call succeeds, with which code it fails first, and which fields differ
afterwards. They are what the transition functions are checked against.

`TPM_DSAP` appears in two of these models because it touches two tables that hardly meet: the
session model takes the outcome of the delegation checks as an input and follows nonces and saved
contexts, the delegation model computes that outcome from families, rows and blobs and leaves
nonces out.

Modelling decisions a reader should know:

* Cryptographic idealisations are hypotheses of the theorems that need them, and only about the
  strings a run touches: `CollisionFree` (in DAA runs `Collisionless`) says that no two of them
  collide, only issued blobs pass the integrity check, fresh nonces do not repeat. In the classes
  the last two are requirements on the arguments `genuine` and `even`, `next`. The hash, the mask
  generation, the keyed digest and the random generator are parameters there; SHA-1, HMAC, MGF1
  and RC4 are verified on their own.
* Big numbers are unbounded, with GMP's conventions: nothing is exported for zero, and `powm` and
  `mod` with modulus zero are undefined. A DAA stage whose C behaviour is undefined (zero modulus,
  or a number that does not fit its buffer) ends in the reply UNDEFINED, and nothing is claimed
  for it. Widths of `UINT32` and `uint8_t` values are written out as remainders.
* DAA sizes and exponent splits are parameters (`Sizes`), so the theorems hold for every choice;
  `SOURCE_SIZES` holds the values of the emulator.
* Where the verifier would be drowned in the definition of a byte encoding or a round function,
  the definition is passed as a function value whose law sits behind a marker predicate
  (`Now`, `Inside`, `Bytewise`, `Reads`); the concrete instances are proved to satisfy the laws
  (`Sha1Spec.CompressorIs`, `Rim.BigEndianSound`, `DaaBlob.WrappingUnwraps`).

What turned out different from what one might expect of the code:

* `rsa_public` and `rsa_private` leave the last output byte untouched when the result is zero
  (`Rsa.ExportedIsFixed` says exactly when the buffer is right), and the test `!key->p` never
  holds, so the CRT path is always taken.
* An early return of `TPM_OSAP` or `TPM_DSAP` leaves its slot typed with what was in it before,
  the even nonce included. Each even nonce authorizes at most one command as long as every early
  return leaves a session that can authorize nothing, or whose nonce nobody else can use
  (`SessionRuns.AuthorizedOnce`). This condition is exact: any other early return has a
  continuation in which the nonce authorizes twice (`SessionRuns.HarmfulRepeats`,
  `SessionRuns.HarmlessExactly`). `SessionRuns.NonceReused` is such a run, with an OSAP session on
  the SRK, for every keyed digest; with a refused `TPM_DSAP` in place of the malformed `TPM_OSAP`
  it is harmless, because the slot holds no permissions (`SessionRuns.RefusedInstead`). What a
  session can authorize is computed from its type, handle and permissions as `tpm_verify_auth`
  does (`Sessions.TablesAgree` says that this is the rule of the delegation model too); for which
  handles and ordinals some command calls `tpm_verify_auth` is a parameter
  (`called` in `SessionRuns.Setting`), and the theorems hold for every choice. The all-zero nonce
  of a slot never used counts as drawn.
* A refused `TPM_DSAP` likewise leaves a delegated session with the permissions that were in the
  slot. These are always backed by an issued blob unless a reload has filled them in from memory,
  which `TPM_LoadContext` does for sessions other than DSAP because their permissions are not
  marshalled (`DelegationRuns.CleanHarmless`). Otherwise the chain of delegations can break, as the
  run of `DelegationRuns.ChainBroken` does. `DelegationRuns.HarmlessExactly` says exactly when: if
  and only if the contents taken are not backed, permit the creating command of their own type with
  a fitting handle, and name a family that is not gone. Family IDs are 32 bits wide and come round
  after 2^32 creations; where runs may go on that long (`reuse`), no family is gone for good and
  the third condition falls away.
* A delegated session that was swapped out survives the invalidation of its family and can be
  reloaded, but nothing can be delegated with it (`DelegationRuns.NeverIssues`).
* A Join whose v0 is zero cannot be continued: Sign stage 13 refuses the empty blob
  (`DaaJoinSign.V0Accepted`), and stage 15 refuses a v1 that is zero or too large
  (`DaaJoinSign.PrivateAccepted`).
* Join stage 1 takes a key for the first one whenever the scratch register is all zero, so a key of
  256 zero bytes lets the next key in unsigned; `DaaVouched.JoinVouched` follows the chain from the
  last such place, and `DaaVouched.VouchedByFirst` from the first key if no key is zero.
* The protection against rolled-back RIM certificates ends where a counter wraps
  (`RimLaws.LoweredExactly`, `RimLaws.WrappedAccepted`), and internal certificates have none.
* Sign stage 1 does not look at the context digest, so a session opened by Join stage 0 may go on
  as a Sign session; from stage 2 on the two cannot be mixed (`DaaRun.RunInvariant`).
* The check of an internal RIM certificate does not cover the bytes of pcrSelect beyond
  sizeOfSelect (`Rim.TailNotCovered`), and such certificates are accepted without a look at the
  counters (`Rim.InstalledTravels`).
* A disabled TPM clears one byte of the output digest of `TPM_Extend`, not twenty
  (`Pcr.Tpm.ExtendPcr`). A failed `TPM_CreateCounter` keeps its slot (`Counters.Tpm.CreateCounter`).
* `TPM_KEY_DELEGATE_Unbind` is defined but missing from the table of delegable key commands; the
  model follows the table.

## Model

| member | source | states |
|---|---|---|
| Rsa.PrivateCrt | tpm-emulator/crypto/rsa.c:46-95 | the CRT shortcut equals x^d mod n, for every valid key and every x |
| Rsa.OperationsInverse | tpm-emulator/crypto/rsa.c:21-95 | the public and the private operation undo each other on every x below n |
| Rsa.TestKey | tpm-emulator/crypto/rsa.c:97-116 | the self test accepts a key exactly when both orders of the exponents recover the test value, which for a valid key is exactly when the value is below the modulus |
| Rsa.ImportKey | tpm-emulator/crypto/rsa.c:118-165 | an imported key has the given n, e, size and primes in ascending order and passes the self test; when the values given are one or both primes of n and the inverses exist, import succeeds exactly above the test value and the key is valid |
| Rsa.FindPrimes | tpm-emulator/crypto/rsa.c:141-148 | the result is ascending and holds the values given and the quotient for a missing one; given one or both primes of n it is the two primes |
| Rsa.ExportResult | tpm-emulator/crypto/rsa.c:28-43 | the result is written exactly when it fits, and the buffer is untouched otherwise |
| Rsa.ExportedIsFixed | tpm-emulator/crypto/rsa.c:33-40 | the buffer is the left-padded number exactly when the number is not zero or the last byte was zero |
| Rsa.PublicOp | tpm-emulator/crypto/rsa.c:21-44 | buffer contents and success of the public operation for every input |
| Rsa.PrivateOp | tpm-emulator/crypto/rsa.c:46-95 | buffer contents and success of the private operation for every input |
| RsaPadding.MaskGeneration | tpm-emulator/crypto/rsa.c:361-378 | masks exactly the given part of the buffer with the MGF1 mask of the seed |
| RsaPadding.MaskedTwice | tpm-emulator/crypto/rsa.c:361-378 | masking twice is the identity |
| RsaPadding.EncodeMessage | tpm-emulator/crypto/rsa.c:380-459 | fills the buffer with the encoding of the scheme exactly when the message is short enough |
| RsaPadding.DecodeMessage | tpm-emulator/crypto/rsa.c:461-510 | returns in place what the decoding function finds, or fails |
| RsaPadding.Pkcs15RoundTrip | tpm-emulator/crypto/rsa.c:469-477 | PKCS#1 v1.5 decoding of an encoding is the message, for every nonzero padding |
| RsaPadding.Pkcs15DecodeSound | tpm-emulator/crypto/rsa.c:469-477 | whatever is decoded was encoded with some nonzero padding |
| RsaPadding.OaepRoundTrip | tpm-emulator/crypto/rsa.c:478-500 | OAEP decoding of an encoding is the message, for every seed |
| RsaPadding.OaepDecodeSound | tpm-emulator/crypto/rsa.c:478-500 | whatever is decoded is the OAEP encoding of the result under some seed |
| EncodingLaws.SignatureBytes | tpm-emulator/crypto/rsa.c:388-417 | the encoding of a signature is 00 01, bytes ff, 00, the DER header of SHA-1 and the digest, or the DER data given |
| EncodingLaws.OaepBytes | tpm-emulator/crypto/rsa.c:428-448 | each byte of an OAEP encoding, in terms of the message, the seed, the digest of "TCPA" and the digests of seed and counter |
| EncodingLaws.Pkcs15Bytes | tpm-emulator/crypto/rsa.c:418-427 | the encoding is 00 02, at least eight nonzero bytes, 00 and the message |
| EncodingLaws.DecodesExactly | tpm-emulator/crypto/rsa.c:461-510 | PKCS#1 v1.5 decoding gives a message exactly for a buffer of that form; signature schemes decode nothing |
| EncodingLaws.MaskByte | tpm-emulator/crypto/rsa.c:361-378 | byte i of a mask is byte i mod 20 of the digest of the seed and the 32-bit number of its block |
| EncodingLaws.FirstWeighsMost | tpm-emulator/crypto/bn_gmp.c:59-69 | an imported number is the sum of its bytes times powers of 256, the first byte weighing most |
| RsaScheme.BuffersInverse | tpm-emulator/crypto/rsa.c:512-562 | on fixed-length buffers each operation undoes the other, leading zeros included |
| RsaScheme.Encrypt | tpm-emulator/crypto/rsa.c:552-562 | succeeds exactly on encodable messages; the buffer then holds the e-th power of the encoding for every scheme, with the old last byte when that power is zero |
| RsaScheme.Decrypt | tpm-emulator/crypto/rsa.c:539-550 | refuses wrong lengths, and otherwise yields exactly what the decoder makes of the buffer with the d-th power, the zero power included |
| RsaScheme.EncryptThenDecrypt | tpm-emulator/crypto/rsa.c:539-562 | for every message, seed, padding and previous contents of the output buffer, decrypting a ciphertext gives exactly the message if the encoding is nonzero and below the modulus, which a modulus of full length ensures; for a zero encoding it gives what the decoder makes of zeros and the old last byte, the message if that byte is zero |
| RsaScheme.ComesBack | tpm-emulator/crypto/rsa.c:539-562 | what both operations make of any buffer, for moduli with leading zero bytes too: itself below the modulus, the remainder above it, and the old last byte for zero |
| RsaScheme.Pkcs15NonZero | tpm-emulator/crypto/rsa.c:418-427 | PKCS#1 v1.5 encodings are never zero, so all of them are covered |
| RsaScheme.Sign | tpm-emulator/crypto/rsa.c:512-522 | for every scheme the buffer holds the d-th power of the encoded message exactly when there is one; it is never zero for a signature scheme and a modulus of full length |
| RsaScheme.Verify | tpm-emulator/crypto/rsa.c:524-537 | for every scheme accepts exactly when the buffer with the e-th power equals the encoded message; with a signature scheme whatever the buffer held before |
| RsaScheme.SignThenVerify | tpm-emulator/crypto/rsa.c:512-537 | the signature made is accepted exactly when the encoding is below the modulus, which a modulus of full length ensures |
| RsaScheme.SignatureUnique | tpm-emulator/crypto/rsa.c:524-537 | the accepted signature of an encoded message is the one that signing makes |
| Sha1Transform.F0IsChoose | tpm-emulator/crypto/sha1.c:35-35 | the rewritten choice function is the one of FIPS 180-4 |
| Sha1Transform.F2IsMajority | tpm-emulator/crypto/sha1.c:37-37 | the rewritten majority function is the one of FIPS 180-4 |
| Sha1Transform.B1 | tpm-emulator/crypto/sha1.c:33-34 | the 16-word circular buffer yields word i of the 80-word schedule and keeps the window |
| Sha1Transform.AllRounds | tpm-emulator/crypto/sha1.c:44-78 | eighty unrolled rounds with renamed registers are the eighty rounds of the standard |
| Sha1Transform.Transform | tpm-emulator/crypto/sha1.c:44-86 | the state becomes the compression of section 6.1.2 of FIPS 180-4, on hosts of either byte order |
| Sha1Stream.CountUp | tpm-emulator/crypto/sha1.c:117-121 | the two count words hold 8 times the length modulo 2^64 |
| Sha1Stream.Context.Update | tpm-emulator/crypto/sha1.c:100-122 | the context of a message becomes that of the message extended by any data, empty data included |
| Sha1Stream.Context.Pad | tpm-emulator/crypto/sha1.c:144-149 | the padding loop ends after exactly the zeros of section 5.1.1 of FIPS 180-4 |
| Sha1Stream.Context.Final | tpm-emulator/crypto/sha1.c:135-156 | the digest is the one-shot hash of everything hashed, and the context is cleared |
| Sha1Stream.HashPieces | tpm-emulator/crypto/sha1.c:89-156 | every way of cutting a message into updates gives SHA-1 of the message |
| Sha1Stream.HmacContext.Init | tpm-emulator/crypto/hmac.c:20-47 | the inner hash and the outer pad are set up for keys of every length |
| Sha1Stream.HmacContext.Final | tpm-emulator/crypto/hmac.c:55-64 | the result is HMAC of section 2 of RFC 2104 |
| Sha1Stream.HmacPieces | tpm-emulator/crypto/hmac.c:20-64 | for every key and every cutting of the text, the result is HMAC-SHA1 of key and text |
| CipherLaws.ScheduleWord | tpm-emulator/crypto/sha1.c:33-34 | each word of the schedule, as bytes of the block or as a rotated combination of four words before it |
| CipherLaws.RoundConstants | tpm-emulator/crypto/sha1.c:38-42 | the four round constants are the square roots of 2, 3, 5 and 10, scaled by 2^30 and cut |
| CipherLaws.PaddedMessage | tpm-emulator/crypto/sha1.c:135-156 | 80, fewest zero bytes, and the bit length, to a multiple of 64 bytes |
| CipherLaws.HmacIs | tpm-emulator/crypto/hmac.c:20-64 | the inner and outer block are the key, hashed if longer than a block, padded and combined with 36 and 5c |
| Rc4.Context.Init | tpm-emulator/crypto/rc4.c:19-41 | the state is that of the key schedule with 256 key bytes dropped |
| Rc4.Context.Crypt | tpm-emulator/crypto/rc4.c:43-61 | output and state after any text, also in place |
| Rc4.KeyedPermutes | tpm-emulator/crypto/rc4.c:19-61 | after any key and any stream the table is a permutation of 0 to 255 |
| Rc4.CryptedConcat | tpm-emulator/crypto/rc4.c:43-61 | encrypting a concatenation is encrypting the pieces in turn |
| Rc4.CryptedTwice | tpm-emulator/crypto/rc4.c:43-61 | two contexts in the same state undo each other |
| CipherLaws.GeneratorStep | tpm-emulator/crypto/rc4.c:43-61 | both indices, the exchanged entries and the key byte of one step |
| CipherLaws.ScheduleStep | tpm-emulator/crypto/rc4.c:19-41 | the schedule starts from the ordered table and exchanges entries by table and key, the key used cyclically |
| Rc4.EncryptContext | tpm-emulator/tpm/tpm_context.c:126-130 | the marshalled context is encrypted in place under the context key and the fresh bytes |
| Rc4.DecryptContext | tpm-emulator/tpm/tpm_context.c:143-147 | whatever was encrypted under the same keys is recovered |
| Rc4.EncryptThenDecrypt | tpm-emulator/tpm/tpm_context.c:110-154 | decrypting recovers exactly the marshalled context |
| DaaMachine.Slot.StoreScratch | tpm-emulator/tpm/tpm_daa.c:743-747 | the scratch register holds the number, least significant byte first, the rest zero |
| DaaMachine.Slot.LoadScratch | tpm-emulator/tpm/tpm_daa.c:831-834 | the number in the scratch register |
| DaaMachine.Slot.Multiply | tpm-emulator/tpm/tpm_daa.c:852-917 | a returned number is below n and congruent to the power times the register modulo n, with base and modulus the ones the issuer settings name by digest |
| DaaMachine.Slot.CheckWitness | tpm-emulator/tpm/tpm_daa.c:1410-1453 | on success the register holds w, its q-th power is 1 modulo gamma, and gamma has the digest of the issuer settings |
| DaaMachine.Slot.ReturnS2 | tpm-emulator/tpm/tpm_daa.c:1864-1901 | the number returned is the remainder of r2 + c v by 2^power1 |
| DaaMachine.Slot.StoreS12 | tpm-emulator/tpm/tpm_daa.c:1927-1967 | the register keeps the quotient of r2 + c v by 2^power1, so that with ReturnS2 nothing is lost |
| DaaMachine.Slot.ReturnS3 | tpm-emulator/tpm/tpm_daa.c:1990-2028 | the number returned is the blind plus c v plus the kept quotient, and the register is cleared |
| DaaMachine.Slot.WrapV0 | tpm-emulator/tpm/tpm_daa.c:2051-2147 | the wrapped v0 and the register together make up u2 + u0, v0 + 2^power1 times the register, and the settings hold the digest of v0 |
| DaaMachine.Slot.WrapV1 | tpm-emulator/tpm/tpm_daa.c:2169-2257 | the wrapped v1 is u3 + u1 plus the kept quotient, the settings hold its digest, and the register is cleared |
| DaaMachine.Slot.Command | tpm-emulator/tpm/tpm_daa.c:338-387 | every Join or Sign call takes exactly the step of the transition system, errors and wipes included; one that succeeds has passed every test of its stage, the issuer's signatures included, and stages 9, 10 and 16 hash exactly nonce, selector, message or identity key into the challenge |
| DaaRun.AdvanceOrWipe | tpm-emulator/tpm/tpm_daa.c:388-2345 | a stage call that reaches the session succeeds only at the expected stage and moves it on, or wipes it |
| DaaRun.JoinMoves | tpm-emulator/tpm/tpm_daa.c:451-2345 | a successful Join stage advances by one (stage 1 when the count runs out) and re-seals the context |
| DaaRun.SignMoves | tpm-emulator/tpm/tpm_daa.c:2464-3684 | a successful Sign stage advances by one and keeps the context sealed |
| DaaRun.RunInvariant | tpm-emulator/tpm/tpm_daa.c:48-232 | over every run without a collision, sessions swapped out and in at will, the successful calls of a session come in the one expected order: Join stage 1 exactly DAA_count times, from stage 2 on all Join or all Sign |
| DaaAlgebra.Verification | tpm-emulator/tpm/tpm_daa.c:1681-2031 | responses split at a power of two satisfy A^s0 B^s1 C^s2 D^s3 ≡ T V^c |
| DaaAlgebra.Pseudonym | tpm-emulator/tpm/tpm_daa.c:1533-1843 | split responses satisfy w^(s0 + 2^power0 s1) ≡ E1 E^c although r was reduced modulo q |
| DaaTheorems.JoinProducts | tpm-emulator/tpm/tpm_daa.c:668-1387 | U and U~ returned by stages 7 and 12 are the products of four powers built over four calls |
| DaaTheorems.JoinEquation | tpm-emulator/tpm/tpm_daa.c:668-2031 | over every run without a collision, swaps included, the outputs of a Join satisfy R0^s0 R1^s1 S0^s2 S1^s3 ≡ U~ U^c (mod n) |
| DaaTheorems.JoinPseudonym | tpm-emulator/tpm/tpm_daa.c:1388-1843 | over every run without a collision, swaps included, w^(s0 + 2^power0 s1) ≡ E1 E^c (mod gamma) in Join |
| DaaSign.SignProducts | tpm-emulator/tpm/tpm_daa.c:2525-2827 | T returned by stage 5 is R0^r0 R1^r1 S0^r2 S1^r4 modulo n |
| DaaSign.SignEquation | tpm-emulator/tpm/tpm_daa.c:2525-3684 | over every run without a collision, swaps included, a Sign satisfies the verification equation against T and R0^f0 R1^f1 S0^v0 S1^v1 |
| DaaSign.SignPseudonym | tpm-emulator/tpm/tpm_daa.c:2828-3368 | over every run without a collision, swaps included, w^(s0 + 2^power0 s1) ≡ E1 E^c (mod gamma) in Sign |
| DaaJoinSign.JoinConserves | tpm-emulator/tpm/tpm_daa.c:2032-2196 | v0 + 2^power1 v1 = (u2 + u0) + 2^power1 (u3 + u1) |
| DaaJoinSign.JoinThenSign | tpm-emulator/tpm/tpm_daa.c:2060-2196 | a Sign on the blobs of a Join uses the same v0, v1 and f, and verifies against U S0^u2 S1^u3 raised to c |
| DaaJoinSign.PrivateAccepted | tpm-emulator/tpm/tpm_daa.c:3404-3435 | a private-value blob is accepted exactly when the value is not zero and fits its field |
| DaaJoinSign.V0Accepted | tpm-emulator/tpm/tpm_daa.c:3404-3435 | with the emulator's sizes zero is the only v0 that stops Sign |
| DaaJoinSign.RunForms | tpm-emulator/tpm/tpm_daa.c:388-3684 | in every reachable session, the saved ones included, the settings structures have the sizes their marshalling needs |
| DaaJoinSign.SpecificRoundTrip | tpm-emulator/tpm/tpm_daa.c:2295-2310 | DAA_tpmSpecific survives marshalling into the settings blob |
| DaaVouched.JoinVouched | tpm-emulator/tpm/tpm_daa.c:451-614 | over every run without a collision in which a Join has passed stage 2: as many keys were taken as announced, each signed under the one before it unless the register was empty, and the settings taken are signed, together with the digest of the key at which the chain begins, under the last key |
| DaaVouched.VouchedByFirst | tpm-emulator/tpm/tpm_daa.c:451-614 | if no key is zero, the chain begins with the first key and every other key is signed under the one before it |
| DaaVouched.GenericsVouched | tpm-emulator/tpm/tpm_daa.c:668-1620 | over every run the bases and moduli given to stages 4 to 15 are those whose digests stand in the settings that were signed |
| DaaTranscript.SignChallenge | tpm-emulator/tpm/tpm_daa.c:3058-3207 | over every run the challenge of a Sign is SHA-1(SHA-1(host nonce, NT), selector, message digest or identity key modulus), all as given to and returned by the recorded calls |
| DaaTranscript.SignBinds | tpm-emulator/tpm/tpm_daa.c:3058-3207 | two Signs of any two runs have equal challenges exactly when selector, message or identity key, host nonce and NT are equal, unless the strings of stages 9 and 10 collide |
| DaaTranscript.JoinSecretIs | tpm-emulator/tpm/tpm_daa.c:481-740 | over every run the secret f of a Join is made from the DAA seed, the key at which the chain of keys begins and the count given to stage 3, modulo the order that the issuer signed |
| DaaTranscript.JoinEndorsed | tpm-emulator/tpm/tpm_daa.c:923-1076 | over every run the answer of stage 8 is SHA-1(SHA-1(U, count, n0), decrypted), over what the recorded calls were given and returned |
| DaaTranscript.JoinBinds | tpm-emulator/tpm/tpm_daa.c:923-1076 | two Joins have equal answers exactly when U, count, n0 and the decrypted secret are equal, unless the strings collide |
| DaaTranscript.JoinChallenge | tpm-emulator/tpm/tpm_daa.c:1621-1969 | over every run the challenge returned at stage 20 is the hash of the host nonce and the nonce that stage 16 returned |
| DaaTranscript.JoinChallengeBinds | tpm-emulator/tpm/tpm_daa.c:1621-1969 | and two of them are equal exactly when both nonces are, unless the strings collide |
| DaaGuards.JoinChecked | tpm-emulator/tpm/tpm_daa.c:539-2345 | over every run each recorded Join stage found its own number, the sealed settings and context, inputs of the right size or digest, the issuer's signature, an endorsement blob that decrypts, and a w of order q |
| DaaGuards.SignChecked | tpm-emulator/tpm/tpm_daa.c:2464-3684 | over every run each recorded Sign stage found the same, and private values that match the digests in the settings |
| DaaGuards.JoinRefuses | tpm-emulator/tpm/tpm_daa.c:451-2345 | for every Join stage and input, which error is returned, in the order of the tests |
| DaaGuards.SignRefuses | tpm-emulator/tpm/tpm_daa.c:2464-3684 | for every Sign stage and input, which error is returned, in the order of the tests |
| DaaGuards.CallsReach | tpm-emulator/tpm/tpm_daa.c:338-387 | a call finds the session under its own or the current handle, and is refused without effect otherwise |
| DaaGuards.Labels | tpm-emulator/tpm/tpm_daa.c:1122-1128 | each blinding value is drawn from the context seed under its own label and size |
| DaaBlob.MarshalParses | tpm-emulator/tpm/tpm_daa.c:306-327 | a marshalled blob parses back to its parts |
| DaaBlob.WrapRoundTrip | tpm-emulator/tpm/tpm_daa.c:246-327 | opening a blob under the keys it was made with gives back its kind and contents |
| DaaBlob.WrappingUnwraps | tpm-emulator/tpm/tpm_daa.c:246-327 | RC4 wrapping with the keyed digest satisfies what Join followed by Sign assumes |
| DaaBlob.OpensGenuine | tpm-emulator/tpm/tpm_daa.c:2472-2496 | a blob that opens carries the keyed digest of all its other bytes, and its contents are what it decrypts to under the DAA key |
| DaaBlob.NotAltered | tpm-emulator/tpm/tpm_daa.c:302-327 | two blobs that open under the same digest are the same, unless their bytes collide |
| DaaHonest.JoinCompletes | tpm-emulator/tpm/tpm_daa.c:338-2345 | for every hash, mask generation and wrapping, a host that sends inputs with the digests of the issuer settings completes all 25 stages of Join, every number fitting its buffer |
| DaaHonestSign.HonestCompletes | tpm-emulator/tpm/tpm_daa.c:2361-3684 | for every hash, mask generation and wrapping, an honest host that completed its Join completes a Sign on the blobs of that Join, provided v0 and v1 are not zero and fit |
| DaaHonestSign.HonestVerifies | tpm-emulator/tpm/tpm_daa.c:338-3684 | and if the strings they hash do not collide, the signature of the Sign verifies against the credential of the Join |
| DaaSample.CompletedRunExists | tpm-emulator/tpm/tpm_daa.c:338-3684 | for the sizes of the emulator among others there is a hash with 20-byte digests and a run in which a Join and a Sign on its blobs complete without a collision, so the hypotheses of the theorems can be met |
| SessionMachine.Tpm.InvalidateSessions | tpm-emulator/tpm/tpm_context.c:42-54 | every session of type OSAP, DSAP or transport on the handle is wiped, and every other slot is unchanged |
| SessionMachine.Tpm.OpenOiap | tpm-emulator/tpm/tpm_authorization.c:153-166 | a new session is in a slot that was free, under the handle returned and with the fresh nonce, nothing else changes, and the run invariant is kept; refused only when every slot is in use |
| SessionMachine.Tpm.OpenOsap | tpm-emulator/tpm/tpm_authorization.c:168-240 | opens a session exactly with a free slot, no ADIP byte and an entity that has a secret; the session is bound to KH_OWNER for types 02 and 0D, to KH_SRK for 04, and to the given value for 01 (not KH_OPERATOR), 0A and 0B, with the fresh nonce and the shared secret; after any other type the slot holds its old nonce, and nonces stay sound exactly when the session left can authorize nothing or nobody else can use the nonce |
| SessionMachine.Tpm.OpenDsap | tpm-emulator/tpm/tpm_authorization.c:242-375 | a granted call opens a session with the handle, permissions and shared secret of the delegation and the fresh nonce; after a refusal nonces stay sound exactly when the session left, by its permissions, can authorize nothing or nobody else can use the nonce |
| SessionMachine.Tpm.VerifyAuth | tpm-emulator/tpm/tpm_authorization.c:519-578 | authorizes exactly when the session named is bound to the entity, its permissions allow the ordinal if it is delegated, and the keyed digest over its nonce is right; in a harmless history the nonce never authorized before, and no usable session or loadable blob holds it afterwards |
| SessionMachine.Tpm.SaveContext | tpm-emulator/tpm/tpm_context.c:177-280 | exactly with a session there, counts left and a free list entry, a blob never issued before carries the session away under a count above the whole list |
| SessionMachine.Tpm.LoadContext | tpm-emulator/tpm/tpm_context.c:332-430 | only an issued blob that was never loaded, with its key there, comes back, into a slot that was free, and it cannot be loaded again |
| SessionMachine.Tpm.FlushSpecific | tpm-emulator/tpm/tpm_eviction.c:43-103 | the context, session, DAA session or key named is gone; with a key that is released or a DAA session every OSAP, DSAP and transport session on its handle is wiped and every other slot unchanged; the SRK and owner-controlled keys are refused, and no session appears or changes |
| SessionLaws.OsapOpens | tpm-emulator/tpm/tpm_authorization.c:168-240 | for which entities a session is opened, the handle it is bound to, and every field of its slot |
| SessionLaws.OsapRefuses | tpm-emulator/tpm/tpm_authorization.c:177-225 | which error an early return gives, and that the slot keeps its fields under the new type, or is wiped if the entity has no secret |
| SessionLaws.OsapServesEntity | tpm-emulator/tpm/tpm_authorization.c:168-578 | over every run, from its opening to its end an OSAP session authorizes exactly the commands on its own entity with the digest under the shared secret: an owner session those on KH_OWNER, an SRK session those on KH_SRK |
| SessionLaws.DsapServesGrant | tpm-emulator/tpm/tpm_authorization.c:242-578 | over every run a DSAP session authorizes exactly the commands on its entity that its permissions include, with that digest |
| SessionLaws.SessionContinues | tpm-emulator/tpm/tpm_authorization.c:153-578 | no command turns a live session into one of another type, entity or secret |
| SessionLaws.AuthorizesExactly | tpm-emulator/tpm/tpm_authorization.c:519-578 | when an authorization succeeds, for each type of session, and how the session changes |
| SessionLaws.AuthorizationFails | tpm-emulator/tpm/tpm_authorization.c:519-578 | which error a failed authorization gives; at most the secret of the session changes |
| SessionLaws.FlushReleases | tpm-emulator/tpm/tpm_eviction.c:43-103 | a flush of a key or a DAA session: the reply, and that every OSAP, DSAP and transport session on the handle is wiped and no other slot touched |
| SessionLaws.FlushDrops | tpm-emulator/tpm/tpm_eviction.c:43-103 | a flush of anything else: the one slot or list entry that is cleared, or the error |
| SessionLaws.InvalidatedReleases | tpm-emulator/tpm/tpm_context.c:42-54 | after tpm_invalidate_sessions no session of type OSAP, DSAP or transport has the handle, and the other slots are unchanged |
| SessionLaws.SavesExactly | tpm-emulator/tpm/tpm_context.c:177-280 | when a save succeeds, every field of the blob, and what is left of the session, the list and the counter |
| SessionLaws.LoadsSession | tpm-emulator/tpm/tpm_context.c:332-430 | which slot and handle a loaded session gets, and when there is none |
| SessionRuns.LoadedOnce | tpm-emulator/tpm/tpm_context.c:177-430 | over every run, startups included, list entries stay distinct and at most the count, which never wraps, and no blob loads twice |
| SessionRuns.LoadWrites | tpm-emulator/tpm/tpm_context.c:332-430 | a load writes exactly the saved data into one slot that was free |
| SessionRuns.AuthorizedOnce | tpm-emulator/tpm/tpm_authorization.c:153-578 | over every run whose early returns leave sessions that can authorize nothing or whose nonces nobody else can use, each even nonce authorizes at most one command, swaps and startups included |
| SessionRuns.HarmfulRepeats | tpm-emulator/tpm/tpm_authorization.c:177-208 | an early return that leaves a session able to authorize some command, on a nonce that is spent or that another usable session or loadable blob holds, has a continuation in which it authorizes twice |
| SessionRuns.HarmlessExactly | tpm-emulator/tpm/tpm_authorization.c:153-578 | no point of a run has a continuation of completed calls in which a nonce authorizes twice, if and only if all early returns of the run are harmless |
| SessionRuns.RevivedSlot | tpm-emulator/tpm/tpm_authorization.c:177-208 | in one step, an early return keeps the nonces of usable sessions sound exactly when the session it leaves can authorize nothing or nobody else can use its nonce |
| SessionRuns.NonceReused | tpm-emulator/tpm/tpm_authorization.c:181-187 | for every keyed digest and secret, and if some command authorizes with the SRK, a run with an SRK session, a save and a malformed TPM_OSAP in which one nonce authorizes twice |
| SessionRuns.RefusedInstead | tpm-emulator/tpm/tpm_authorization.c:541-556 | the same run with a refused TPM_DSAP in place of the malformed TPM_OSAP is harmless |
| DelegationMachine.Tpm.DelegateManage | tpm-emulator/tpm/tpm_delegation.c:136-237 | a created family gets an ID above all others, an invalidated one is gone, enabling and locking change one field of the named row; a command that gets past its checks wipes all other sessions but transport sessions |
| DelegationMachine.Tpm.OpenDsap | tpm-emulator/tpm/tpm_authorization.c:242-375 | a session opened has exactly the permissions of some issued blob, of a family that is there and, for a blob, with a count that is not passed; a refusal is harmless exactly when the contents of the slot are backed or could create no delegation |
| DelegationMachine.Tpm.CreateKeyDelegation | tpm-emulator/tpm/tpm_delegation.c:239-321 | the blob has the requested permissions and is in the log; one from a delegated session is covered by an earlier blob, and every one by a blob issued outside delegation |
| DelegationMachine.Tpm.CreateOwnerDelegation | tpm-emulator/tpm/tpm_delegation.c:323-401 | as for keys; with an increment the blobs with the count before are revoked and all other sessions but transport sessions wiped |
| DelegationMachine.Tpm.LoadOwnerDelegation | tpm-emulator/tpm/tpm_delegation.c:403-485 | a row is written only with an issued blob of a family that is there, and then other sessions are wiped; otherwise nothing changes |
| DelegationMachine.Tpm.UpdateVerification | tpm-emulator/tpm/tpm_delegation.c:556-593 | the row gets the count of its family and is up to date; what it grants and all else stay |
| DelegationLaws.OwnerAllows | tpm-emulator/tpm/tpm_authorization.c:385-453 | the i-th owner command is permitted by its bit, for all 31 of them |
| DelegationLaws.KeyAllows | tpm-emulator/tpm/tpm_authorization.c:455-517 | the same for the key commands above the missing bit of TPM_UnBind |
| DelegationLaws.NothingElse | tpm-emulator/tpm/tpm_authorization.c:385-517 | no other command is permitted by any permissions |
| DelegationLaws.DsapExactly | tpm-emulator/tpm/tpm_authorization.c:242-375 | TPM_DSAP opens a session exactly on good evidence of an enabled family with the same count, and every field of the slot in both cases |
| DelegationLaws.ManagesExactly | tpm-emulator/tpm/tpm_delegation.c:136-237 | what each operation changes once the checks are passed; the other sessions are wiped even if the operation then fails |
| DelegationLaws.ManageRefuses | tpm-emulator/tpm/tpm_delegation.c:136-172 | a command that fails its checks changes nothing |
| DelegationLaws.KeyExactly | tpm-emulator/tpm/tpm_delegation.c:239-321 | when a key delegation is issued, and the blob |
| DelegationLaws.OwnerExactly | tpm-emulator/tpm/tpm_delegation.c:323-401 | when an owner delegation is issued, the blob, the count and the sessions left |
| DelegationLaws.LoadsExactly | tpm-emulator/tpm/tpm_delegation.c:403-485 | when a row is written, and what the command leaves |
| DelegationLaws.UpdatesExactly | tpm-emulator/tpm/tpm_delegation.c:556-593 | when a row is brought up to date, and with which count |
| DelegationRuns.RunSound | tpm-emulator/tpm/tpm_delegation.c:239-401 | over every run whose refusals are harmless, reloads included, sessions and saved sessions that can create delegations, and rows, hold only what some issued blob grants, and delegated blobs have a covering parent |
| DelegationRuns.ChainsEnd | tpm-emulator/tpm/tpm_delegation.c:239-401 | over every run whose refused TPM_DSAP calls take contents that are backed, or cannot create delegations of their type, or name a family that is gone, every issued blob has an undelegated ancestor of the same family and type that covers it and allows every command it allows |
| DelegationRuns.HarmlessExactly | tpm-emulator/tpm/tpm_authorization.c:242-375 | no point of a run has a completed continuation that issues a delegated blob without a parent, if and only if no refused TPM_DSAP of the run takes contents that are not backed, permit the creating command of their own type (owner, or key with a key handle) and name a family that is not gone |
| DelegationRuns.CleanHarmless | tpm-emulator/tpm/tpm_marshalling.c:1730-1744 | all refusals are harmless in runs without reloads, or whose reloads find no permissions in memory |
| DelegationRuns.HarmfulIssues | tpm-emulator/tpm/tpm_authorization.c:242-343 | after such a refusal there is a continuation of completed commands, the session swapped out while its family is created and enabled, that issues an owner or key blob without a parent |
| DelegationRuns.ChainBroken | tpm-emulator/tpm/tpm_authorization.c:242-343 | a run in which a reload from memory and a refused TPM_DSAP let a delegated session issue a blob although nothing was ever delegated |
| DelegationRuns.PermittedWithin | tpm-emulator/tpm/tpm_authorization.c:383-517 | contained permissions allow no further command |
| DelegationRuns.RunFamilies | tpm-emulator/tpm/tpm_delegation.c:29-237 | over every run of fewer than 2^32 commands valid rows have distinct IDs |
| DelegationRuns.RevokedForever | tpm-emulator/tpm/tpm_delegation.c:125-237 | a family that is gone, or whose count has passed a value, stays so over every run of fewer than 2^32 commands |
| DelegationRuns.RevokedRefuses | tpm-emulator/tpm/tpm_authorization.c:268-343 | a revoked blob, or a row of a family that is gone, opens no session |
| DelegationRuns.NeverOpens | tpm-emulator/tpm/tpm_authorization.c:268-343 | once a blob is revoked no later TPM_DSAP of the run opens a session for it, and once a family is gone none does for a row of it |
| DelegationRuns.NeverIssues | tpm-emulator/tpm/tpm_delegation.c:226-401 | once a family is gone, no later command of the run issues a blob for it, in reloaded sessions neither |
| DelegationRuns.InvalidateRevokes | tpm-emulator/tpm/tpm_delegation.c:226-231 | invalidation makes the family go |
| DelegationRuns.IncrementRevokes | tpm-emulator/tpm/tpm_delegation.c:364-374 | a delegation with increment revokes the blobs with the count before it |
| Counters.Tpm.Largest | tpm-emulator/tpm/tpm_counter.c:26-36 | the maximum over the valid counters |
| Counters.Tpm.CreateCounter | tpm-emulator/tpm/tpm_counter.c:50-78 | below the limit the new counter exceeds every valid one, no valid counter changes, and a failed authorization keeps the slot |
| Counters.Tpm.IncrementCounter | tpm-emulator/tpm/tpm_counter.c:80-99 | succeeds exactly for an authorized existing counter when no other counter incremented in this boot cycle is still there; adds one below the limit, wraps at it, and moves no other counter |
| Counters.Tpm.ReleaseCounter | tpm-emulator/tpm/tpm_counter.c:112-146 | exactly an authorized release removes the counter; it frees the boot cycle if the counter was the incremented one, and touches no other |
| Counters.Tpm.MobileReleaseCounter | tpm-emulator/mtm/mtm_counter.c:21-45 | the three reserved counters survive every call, and every other counter is released exactly on an authorized call |
| Counters.Tpm.IncrementBootstrapCounter | tpm-emulator/mtm/mtm_verification.c:499-509 | the bootstrap counter takes the new value exactly when that is not lower, and nothing else changes |
| Counters.NeverDecreases | tpm-emulator/tpm/tpm_counter.c:50-146 | over every run below the limit a counter that is not released stays valid and never goes down |
| Counters.CreatedExceeds | tpm-emulator/tpm/tpm_counter.c:26-78 | a created counter exceeds all valid ones exactly when they are below the limit |
| Counters.IncrementWraps | tpm-emulator/tpm/tpm_counter.c:94-97 | an increment raises the counter exactly below the limit |
| Counters.ReleaseBetween | tpm-emulator/tpm/tpm_counter.c:80-128 | increments of two counters in one boot cycle have a release of the first between them |
| Counters.BootstrapNeverLowered | tpm-emulator/mtm/mtm_counter.c:21-45 | over every run of the mobile build the bootstrap counter is never released or lowered |
| CounterLaws.CreatesExactly | tpm-emulator/tpm/tpm_counter.c:26-78 | slot, handle, value, name and secret of a created counter, and what a failed creation leaves |
| CounterLaws.IncrementsExactly | tpm-emulator/tpm/tpm_counter.c:80-99 | reply and state for every increment |
| CounterLaws.ReleasesExactly | tpm-emulator/tpm/tpm_counter.c:112-146 | reply and state for every release, guarded or not |
| CounterLaws.CountsIncrements | tpm-emulator/tpm/tpm_counter.c:50-146 | over every run without a release of it a counter has moved by exactly the number of its successful increments modulo 2^32 |
| Pcr.Tpm.ExtendPcr | tpm-emulator/tpm/tpm_integrity.c:38-58 | new register, untouched others, error codes, and the output digest |
| Pcr.Tpm.ResetPcrs | tpm-emulator/tpm/tpm_integrity.c:129-152 | two passes compute the reset function with its error codes |
| Pcr.Tpm.StartupClear | tpm-emulator/tpm/tpm_startup.c:55-61 | every register gets its start value |
| Pcr.Tpm.ComputeDigest | tpm-emulator/tpm/tpm_integrity.c:154-196 | the composite digest of the selected registers, or an error |
| Pcr.ResetAtomic | tpm-emulator/tpm/tpm_integrity.c:129-152 | all selected registers are cleared and no other, or nothing changes; success exactly when all may be reset |
| Pcr.RunLogged | tpm-emulator/tpm/tpm_integrity.c:38-152 | after any run every register is the hash fold of the digests extended since its last reset |
| Pcr.LogsEqual | tpm-emulator/tpm/tpm_integrity.c:38-58 | equal registers with equal starts mean equal logs, without a collision |
| Pcr.CompositeBinds | tpm-emulator/tpm/tpm_integrity.c:154-196 | composite digests agree exactly when both selections are empty, or selections and selected registers agree |
| Pcr.QuotesBindLogs | tpm-emulator/tpm/tpm_integrity.c:88-127 | two runs with the same composite digest have the same selection and the same logs |
| PcrLaws.RegisterIs | tpm-emulator/tpm/tpm_integrity.c:38-152 | over every run a register is the hash fold of the digests of the extensions permitted at their locality, since its last startup or permitted reset, computed from the commands alone |
| PcrLaws.ExtendRefuses | tpm-emulator/tpm/tpm_integrity.c:38-51 | when an extension is refused, by register number and locality bit |
| PcrLaws.ResetRefuses | tpm-emulator/tpm/tpm_integrity.c:129-143 | the first selected register that may not be reset decides the error |
| PcrLaws.CompositeLayout | tpm-emulator/tpm/tpm_integrity.c:154-196 | the hashed string: size of the selection, selection, size of the values, and each selected register at its rank |
| Rim.DecodeEncode | tpm-emulator/mtm/mtm_marshalling.c:87-123 | unmarshalling gives the certificate back up to unsent bytes and consumes exactly the declared size |
| Rim.EncodeDecode | tpm-emulator/mtm/mtm_marshalling.c:87-123 | marshalling again gives exactly the bytes consumed |
| Rim.EncodeInjective | tpm-emulator/mtm/mtm_marshalling.c:87-104 | equal bytes mean equal fields |
| Rim.EncodeSize | tpm-emulator/mtm/mtm_structures.h:128-132 | the declared size is the size written |
| Rim.InstalledTravels | tpm-emulator/mtm/mtm_verification.c:225-263 | every certificate issued, marshalled, followed by anything and unmarshalled over any buffer, is accepted, whatever keys and counters are then |
| Rim.InstalledKeeps | tpm-emulator/mtm/mtm_verification.c:239-255 | the issued certificate keeps every field but counter, parent and check |
| Rim.SameCheck | tpm-emulator/mtm/mtm_verification.c:81-128 | two accepted internal certificates have the same check exactly when all fields that are sent agree |
| Rim.TailNotCovered | tpm-emulator/mtm/mtm_verification.c:81-106 | unsent bytes of pcrSelect can be changed under the same check, and only then do certificates differ |
| Rim.BigEndianSound | tpm-emulator/tpm/tpm_marshalling.h:58-107 | big-endian integers read back what was written, in both directions |
| RimMachine.Writer.PutCertificate | tpm-emulator/mtm/mtm_marshalling.c:87-104 | succeeds exactly with a valid selection and enough room, appends the encoding and moves the cursor by its size |
| RimMachine.Reader.GetCertificate | tpm-emulator/mtm/mtm_marshalling.c:106-123 | reads what the decoding function reads and stops at its end |
| RimMachine.Certificate.ComputeHmac | tpm-emulator/mtm/mtm_verification.c:81-106 | the keyed digest with the check size cleared, and the check size restored on every path |
| RimMachine.Certificate.VerifyCertificate | tpm-emulator/mtm/mtm_verification.c:401-446 | a certificate with a parent key is accepted exactly when tag and selection are right, the named key is its parent and may sign certificates, the parent is there, is RSA and its signature holds, and the counter it refers to has not passed it; an internal one exactly when its check begins with the keyed digest |
| RimMachine.InstallRim | tpm-emulator/mtm/mtm_verification.c:225-263 | issues exactly for the right tag and a valid selection; the certificate issued is internal, refers to the RIMProtect counter plus one unless it refers to none, and carries the keyed digest of its bytes |
| RimLaws.SignedAccepted | tpm-emulator/mtm/mtm_verification.c:401-446 | acceptance of a certificate with a parent key, as one equivalence over its fields, the two keys and the two counters |
| RimLaws.InternalAccepted | tpm-emulator/mtm/mtm_verification.c:412-413 | acceptance of an internal certificate, whatever keys and counters are |
| RimLaws.RefusedBecause | tpm-emulator/mtm/mtm_verification.c:401-446 | for each error code, exactly when it is returned |
| RimLaws.InstalledFields | tpm-emulator/mtm/mtm_verification.c:225-263 | when a certificate is issued, and every field of it |
| RimLaws.WireOffsets | tpm-emulator/mtm/mtm_marshalling.c:87-104 | where each field is on the wire |
| RimLaws.DecodesExactly | tpm-emulator/mtm/mtm_marshalling.c:106-123 | a buffer is read exactly if it holds the declared sizes and what they declare, each field from its place |
| RimLaws.LoweredExactly | tpm-emulator/tpm/tpm_counter.c:50-99 | one command of the mobile build lowers a reserved counter exactly when it increments it at the limit, or creates it when a value to exceed is at the limit |
| RimLaws.ReservedNeverLowered | tpm-emulator/mtm/mtm_counter.c:21-45 | over every run of the mobile build a reserved counter that does not wrap is never lowered |
| RimLaws.RolledBackRefused | tpm-emulator/mtm/mtm_verification.c:430-444 | a certificate below its counter is refused by every later call, whatever keys are loaded by then, as long as that counter does not wrap; with BAD_COUNTER if all else is right |
| RimLaws.WrappedAccepted | tpm-emulator/mtm/mtm_verification.c:440-444 | the condition is needed: after a wrap a certificate below the old value is accepted |

## Left out

- Everything outside `tpm-emulator/` (OpenStack, Horizon and OpenAttestation files): packaging and glue.
- `TPM_PCRRead`: it overwrites registers from a host file, which would break every statement about logs.
- Prime generation and the random generator: random bytes are arbitrary inputs; the loop that redraws zero bytes of PKCS#1 v1.5 padding is replaced by its result, a padding without zero bytes.
- RSA_ES_PLAIN decoding into a different buffer.
- Rsa.ImportKey: validity of the key is stated when the values given are primes of n with the inverses the code computes; for other values import only runs the self test, and the contract says no more than that.
- The OpenSSL big-number back end: it ignores byte order; the model follows GMP.
- Allocation failures, logging, persistent storage and the command wrappers: plumbing.
- The one-time reload of DAA sessions inside DAA runs: there a saved session may come back any number of times, so the DAA theorems do not depend on it; `SessionRuns.LoadedOnce` proves it.
- Issuer signatures, endorsement-key decryption and identity-key lookup inside the DAA stages are parameters; RSA itself is verified separately.
- The key branch of `TPM_LoadContext`, `TPM_SaveAuthContext`, transport sessions, NV storage, TakeOwnership and LoadKey.
- The context list inside delegation runs: there a saved session may come back any number of times and without its key, which only adds runs (the continuation that DelegationRuns.HarmfulIssues builds saves one delegated session and reloads it once); TPM_Startup is the closing of every session.
- Blob output of `TPM_Delegate_UpdateVerification`: the recomputed digest is not stored, so the output is not accepted anywhere. The branches of `TPM_Delegate_Manage` and `TPM_Delegate_LoadOwnerDelegation` without authorization are unreachable, because their handle value never names a session.
- `MTM_LoadVerificationKey`, MTM_PERMANENT_DATA and MTM_KEY_DATA: key slots are arbitrary state, and their codecs would repeat the one of the certificates.
- RimMachine.Certificate.VerifyCertificate: a certificate whose integrity data is shorter than a digest is refused, because the source reads past it, which has no meaning to model.
- `tpm_sha1_update_be32`, capability reporting and the audit lists: they would only add easy members.
- Rc4.EncryptContext: the marshalling of the context structure before the encryption is not modelled; its bytes are arbitrary.
- Rc4.DecryptContext: states recovery for texts encrypted under the same keys; the unmarshalling of the context structure after it is not modelled.
- SessionRuns.AuthorizedOnce: restricted to runs whose early returns of TPM_OSAP and TPM_DSAP are harmless, because the claim is false otherwise; SessionRuns.HarmlessExactly shows that nothing more is excluded.
- DelegationRuns.ChainsEnd: restricted to runs whose refusals are harmless, because the claim is false otherwise; DelegationRuns.HarmlessExactly shows that nothing more is excluded.
- SessionMachine.Tpm.FlushSpecific: which keys there are is an input, so that a flushed key is released is not part of its contract; the sessions bound to it are.
- DelegationRuns.RevokedForever: restricted to fewer than 2^32 commands, because family IDs and verification counts wrap there; the same holds for NeverOpens and NeverIssues.
