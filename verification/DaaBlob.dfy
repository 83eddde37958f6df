/** TPM_DAA_BLOB (tpm-emulator/tpm/tpm_daa.c): marshalling, RC4 encryption under the DAA key and
    the fresh bytes of the blob, and the integrity digest over the blob with that field zeroed. */
module DaaBlob {
  import opened Bytes
  import opened NumberTheory
  import opened Daa
  import opened DaaJoinSign
  import Rc4

  const TAG_BLOB: nat := 0x002C
  const SYM_KEY_SIZE: nat := 32

  /** TPM_DAA_BLOB without its two length fields. */
  datatype Parts = Parts(tag: seq<byte>, resource: seq<byte>, name: seq<byte>, digest: seq<byte>,
                         additional: seq<byte>, sensitive: seq<byte>)

  function Marshal(p: Parts): seq<byte> {
    p.tag + p.resource + p.name + p.digest
      + (Be(|p.additional|, 4) + (p.additional + (Be(|p.sensitive|, 4) + p.sensitive)))
  }

  /** `tpm_unmarshal_TPM_DAA_BLOB`, with nothing left over; the tag may be any. */
  predicate Parses(b: seq<byte>) {
    && |b| >= 46
    && 46 + OfBytes(b[42..46]) + 4 <= |b|
    && var at := 46 + OfBytes(b[42..46]);
       at + 4 + OfBytes(b[at..at + 4]) == |b|
  }

  function PartsOf(b: seq<byte>): Parts
    requires Parses(b)
  {
    var at := 46 + OfBytes(b[42..46]);
    Parts(b[0..2], b[2..6], b[6..22], b[22..42], b[46..at], b[at + 4..])
  }

  ghost predicate Sized(p: Parts) {
    && |p.tag| == 2 && |p.resource| == 4 && |p.name| == 16 && |p.digest| == DIGEST
    && |p.additional| < 0x1_0000_0000 && |p.sensitive| < 0x1_0000_0000
  }

  lemma Header(tag: seq<byte>, r: seq<byte>, l: seq<byte>, d: seq<byte>, rest: seq<byte>)
    requires |tag| == 2 && |r| == 4 && |l| == 16 && |d| == 20
    ensures var b := tag + r + l + d + rest;
      b[0..2] == tag && b[2..6] == r && b[6..22] == l && b[22..42] == d && b[42..] == rest
  {}

  lemma Tail(b: seq<byte>, head: seq<byte>, size: seq<byte>, additional: seq<byte>, size2: seq<byte>, data: seq<byte>)
    requires |head| == 42 && |size| == 4 && |size2| == 4 && b == head + (size + (additional + (size2 + data)))
    ensures var at := 46 + |additional|;
      b[42..46] == size && b[46..at] == additional && b[at..at + 4] == size2 && b[at + 4..] == data
      && |b| == at + 4 + |data|
  {}

  lemma MarshalParses(p: Parts)
    requires Sized(p)
    ensures Parses(Marshal(p)) && PartsOf(Marshal(p)) == p
  {
    SmallPowers();
    OfBe(|p.additional|, 4);
    OfBe(|p.sensitive|, 4);
    var size, size2 := Be(|p.additional|, 4), Be(|p.sensitive|, 4);
    Header(p.tag, p.resource, p.name, p.digest, size + (p.additional + (size2 + p.sensitive)));
    Tail(Marshal(p), p.tag + p.resource + p.name + p.digest, size, p.additional, size2, p.sensitive);
  }

  /** Marshalling what was parsed gives the bytes back. */
  lemma ParsesMarshal(b: seq<byte>)
    requires Parses(b)
    ensures Sized(PartsOf(b)) && Marshal(PartsOf(b)) == b
  {
    var at := 46 + OfBytes(b[42..46]);
    BeOf(b[42..46]);
    BeOf(b[at..at + 4]);
    FieldBound(b[42..46]);
    FieldBound(b[at..at + 4]);
    Rejoin(b, at);
  }

  lemma FieldBound(s: seq<byte>)
    requires |s| == 4
    ensures OfBytes(s) < 0x1_0000_0000
  {
    OfBytesBound(s);
    SmallPowers();
  }

  lemma Rejoin(b: seq<byte>, at: nat)
    requires 46 <= at && at + 4 <= |b|
    ensures b == b[0..2] + b[2..6] + b[6..22] + b[22..42] + (b[42..46] + (b[46..at] + (b[at..at + 4] + b[at + 4..])))
  {}

  // ---- the encrypted part

  /** TPM_DAA_SENSITIVE. */
  function Sensitive(data: seq<byte>): seq<byte> {
    Be(TAG_SENSITIVE, 2) + (Be(|data|, 4) + data)
  }

  /** `tpm_unmarshal_TPM_DAA_SENSITIVE`; bytes after the data are ignored. */
  predicate SensitiveParses(b: seq<byte>) {
    |b| >= 6 && 6 + OfBytes(b[2..6]) <= |b|
  }

  lemma SensitiveRoundTrip(data: seq<byte>)
    requires |data| < 0x1_0000_0000
    ensures var b := Sensitive(data);
      SensitiveParses(b) && OfBytes(b[..2]) == TAG_SENSITIVE && b[6..6 + OfBytes(b[2..6])] == data
  {
    SmallPowers();
    OfBe(|data|, 4);
    OfBe(TAG_SENSITIVE, 2);
    ThreeParts(Be(TAG_SENSITIVE, 2), Be(|data|, 4), data);
  }

  lemma ThreeParts(tag: seq<byte>, size: seq<byte>, data: seq<byte>)
    requires |tag| == 2 && |size| == 4
    ensures var b := tag + (size + data); b[..2] == tag && b[2..6] == size && b[6..6 + |data|] == data
  {}

  // ---- wrapping

  /** The label of the settings blob spells DAA_tpmSpecific, the others are empty. */
  function Label(resource: nat): (l: seq<byte>)
    ensures |l| == 16
  {
    if resource == RT_DAA_TPM then
      [0x44, 0x41, 0x41, 0x5f, 0x74, 0x70, 0x6d, 0x53, 0x70, 0x65, 0x63, 0x69, 0x66, 0x69, 0x63, 0]
    else Zeros(16)
  }

  type Mac = seq<byte> -> seq<byte>

  /** The digest field counts as zero while the integrity digest is computed. */
  function Protected(p: Parts): seq<byte> {
    Marshal(p.(digest := Zeros(DIGEST)))
  }

  function Wrapping(key: seq<byte>, mac: Mac, resource: nat, data: seq<byte>, iv: seq<byte>): seq<byte>
    requires |key| == SYM_KEY_SIZE
  {
    var p := WrappedParts(key, resource, data, Field(iv, SYM_KEY_SIZE));
    Marshal(p.(digest := mac(Protected(p))))
  }

  function Unwrapping(key: seq<byte>, mac: Mac, b: seq<byte>): Blob
    requires |key| == SYM_KEY_SIZE
  {
    if !Parses(b) then BadFormat
    else
      var p := PartsOf(b);
      var plain := Rc4.Crypted(Rc4.Keyed(key + p.additional), p.sensitive);
      if !SensitiveParses(plain) then BadDecryption
      else if mac(Protected(p)) != p.digest then BadIntegrity
      else Opened(OfBytes(p.resource), OfBytes(plain[..2]), plain[6..6 + OfBytes(plain[2..6])])
  }

  /** The parts of a wrapped blob. */
  function WrappedParts(key: seq<byte>, resource: nat, data: seq<byte>, fresh32: seq<byte>): Parts
    requires |key| == SYM_KEY_SIZE
  {
    Parts(Be(TAG_BLOB, 2), Be(resource, 4), Label(resource), Zeros(DIGEST), fresh32,
          Rc4.Crypted(Rc4.Keyed(key + fresh32), Sensitive(data)))
  }

  /** Opening well-formed parts with the right digest. */
  lemma OpenParts(key: seq<byte>, mac: Mac, p: Parts, data: seq<byte>)
    requires |key| == SYM_KEY_SIZE && Sized(p) && mac(Protected(p)) == p.digest
    requires |data| < 0x1_0000_0000 && p.sensitive == Rc4.Crypted(Rc4.Keyed(key + p.additional), Sensitive(data))
    ensures Unwrapping(key, mac, Marshal(p)) == Opened(OfBytes(p.resource), TAG_SENSITIVE, data)
  {
    MarshalParses(p);
    Rc4.CryptedTwice(Rc4.Keyed(key + p.additional), Sensitive(data));
    SensitiveRoundTrip(data);
  }

  /** Opening a blob under the keys it was made with gives back its kind and contents. */
  lemma WrapRoundTrip(key: seq<byte>, mac: Mac, resource: nat, data: seq<byte>, iv: seq<byte>)
    requires |key| == SYM_KEY_SIZE && (forall x :: |mac(x)| == DIGEST)
    requires resource <= RT_DAA_V1 && |data| <= 0xffff_0000
    ensures Unwrapping(key, mac, Wrapping(key, mac, resource, data, iv)) == Opened(resource, TAG_SENSITIVE, data)
  {
    var p := WrappedParts(key, resource, data, Field(iv, SYM_KEY_SIZE));
    var sealed := p.(digest := mac(Protected(p)));
    assert sealed.(digest := Zeros(DIGEST)) == p;
    SensitiveSize(data);
    OpenParts(key, mac, sealed, data);
    ResourceRead(resource);
  }

  /** The bytes of a blob with the digest field zeroed. */
  function Zeroed(b: seq<byte>): seq<byte>
    requires |b| >= 42
  {
    b[..22] + Zeros(20) + b[42..]
  }

  lemma ProtectedIs(b: seq<byte>)
    requires Parses(b)
    ensures Protected(PartsOf(b)) == Zeroed(b)
  {
    var p := PartsOf(b);
    ParsesMarshal(b);
    SameFrame(b, p.tag + p.resource + p.name, p.digest, p.tag + p.resource + p.name, Zeros(DIGEST),
      Be(|p.additional|, 4) + (p.additional + (Be(|p.sensitive|, 4) + p.sensitive)));
  }

  lemma SameFrame(b: seq<byte>, head: seq<byte>, d: seq<byte>, top: seq<byte>, z: seq<byte>, rest: seq<byte>)
    requires b == head + d + rest && |head| == 22 && |d| == 20 && top == head
    ensures top + z + rest == b[..22] + z + b[42..]
  {
    assert b[..22] == head && b[42..] == rest;
  }

  /** Whatever opens carries the digest of all its bytes but the digest itself, and its contents are
      what the part behind decrypts to under the DAA key and the part before it. */
  lemma OpensGenuine(key: seq<byte>, mac: Mac, b: seq<byte>)
    requires |key| == SYM_KEY_SIZE && Unwrapping(key, mac, b).Opened?
    ensures |b| >= 50 && 50 + OfBytes(b[42..46]) <= |b| && b[22..42] == mac(b[..22] + Zeros(20) + b[42..])
    ensures OpensTo(Unwrapping(key, mac, b), b, Rc4.Crypted(Rc4.Keyed(key + First(b)), Second(b)))
  {
    OpensParsed(key, mac, b);
    ProtectedIs(b);
  }

  /** The two parts of variable length behind their sizes: the fresh bytes and the encrypted part. */
  function First(b: seq<byte>): seq<byte>
    requires |b| >= 50 && 50 + OfBytes(b[42..46]) <= |b|
  {
    b[46..46 + OfBytes(b[42..46])]
  }

  function Second(b: seq<byte>): seq<byte>
    requires |b| >= 50 && 50 + OfBytes(b[42..46]) <= |b|
  {
    b[50 + OfBytes(b[42..46])..]
  }

  /** The resource type is the one in the blob, tag and data are those of the decrypted part. */
  predicate OpensTo(r: Blob, b: seq<byte>, plain: seq<byte>) {
    && r.Opened? && |b| >= 6 && r.resource == OfBytes(b[2..6]) && |plain| >= 6
    && 6 + OfBytes(plain[2..6]) <= |plain|
    && r.tag == OfBytes(plain[..2]) && r.data == plain[6..6 + OfBytes(plain[2..6])]
  }

  lemma OpensParsed(key: seq<byte>, mac: Mac, b: seq<byte>)
    requires |key| == SYM_KEY_SIZE && Unwrapping(key, mac, b).Opened?
    ensures Parses(b) && mac(Protected(PartsOf(b))) == PartsOf(b).digest
    ensures OpensTo(Unwrapping(key, mac, b), b, Rc4.Crypted(Rc4.Keyed(key + First(b)), Second(b)))
  {}

  /** And what does not open is malformed, does not decrypt to a structure, or has a wrong digest. */
  lemma RefusesForged(key: seq<byte>, mac: Mac, b: seq<byte>)
    requires |key| == SYM_KEY_SIZE && Parses(b) && b[22..42] != mac(b[..22] + Zeros(20) + b[42..])
    ensures Unwrapping(key, mac, b).BadDecryption? || Unwrapping(key, mac, b).BadIntegrity?
  {
    ProtectedIs(b);
  }

  /** Two blobs that open under the same digest are the same, unless their bytes collide. */
  lemma NotAltered(key: seq<byte>, mac: Mac, b: seq<byte>, c: seq<byte>)
    requires |key| == SYM_KEY_SIZE && Unwrapping(key, mac, b).Opened? && Unwrapping(key, mac, c).Opened?
    requires b[22..42] == c[22..42] && CollisionFree(mac, {Zeroed(b), Zeroed(c)})
    ensures b == c
  {
    DigestOver(key, mac, b);
    DigestOver(key, mac, c);
    ZeroedDetermines(b, c);
  }

  lemma DigestOver(key: seq<byte>, mac: Mac, b: seq<byte>)
    requires |key| == SYM_KEY_SIZE && Unwrapping(key, mac, b).Opened?
    ensures |b| >= 42 && b[22..42] == mac(Zeroed(b))
  {
    OpensGenuine(key, mac, b);
  }

  lemma ZeroedDetermines(b: seq<byte>, c: seq<byte>)
    requires |b| >= 42 && |c| >= 42 && b[22..42] == c[22..42] && Zeroed(b) == Zeroed(c)
    ensures b == c
  {
    ZeroedParts(b);
    ZeroedParts(c);
  }

  lemma ZeroedParts(b: seq<byte>)
    requires |b| >= 42
    ensures Zeroed(b)[..22] == b[..22] && Zeroed(b)[42..] == b[42..] && b == b[..22] + b[22..42] + b[42..]
  {}

  /** The label of the settings blob, byte by byte. */
  lemma LabelSpells(i: nat)
    requires i < 15
    ensures Label(8)[i] as int == "DAA_tpmSpecific"[i] as int && Label(8)[15] == 0
    ensures Label(9) == Label(10) == seq(16, _ => 0)
  {
    assert Zeros(16) == seq(16, _ => 0);
  }

  /** What wrapping puts in front of the data. */
  lemma WrappedBytes(key: seq<byte>, mac: Mac, resource: nat, data: seq<byte>, iv: seq<byte>)
    requires |key| == SYM_KEY_SIZE && (forall x :: |mac(x)| == DIGEST)
    requires resource <= RT_DAA_V1 && |data| <= 0xffff_0000 && |iv| == 32
    ensures var b := Wrapping(key, mac, resource, data, iv);
      && |b| == 88 + |data| && OfBytes(b[0..2]) == 0x2c && OfBytes(b[2..6]) == resource
      && b[6..22] == Label(resource) && OfBytes(b[42..46]) == 32 && b[46..78] == iv
  {
    var p := WrappedParts(key, resource, data, iv);
    var sealed := p.(digest := mac(Protected(p)));
    SensitiveSize(data);
    MarshalParses(sealed);
    ParsesMarshal(Marshal(sealed));
    ResourceRead(resource);
    SizesRead();
    var size, size2 := Be(32, 4), Be(|p.sensitive|, 4);
    Header(sealed.tag, sealed.resource, sealed.name, sealed.digest, size + (iv + (size2 + p.sensitive)));
    Tail(Marshal(sealed), sealed.tag + sealed.resource + sealed.name + sealed.digest, size, iv, size2, p.sensitive);
  }

  lemma SizesRead()
    ensures OfBytes(Be(TAG_BLOB, 2)) == 0x2c && OfBytes(Be(32, 4)) == 32
  {
    SmallPowers();
    OfBe(TAG_BLOB, 2);
    OfBe(32, 4);
  }

  lemma SensitiveSize(data: seq<byte>)
    ensures |Sensitive(data)| == 6 + |data|
  {}

  lemma ResourceRead(resource: nat)
    requires resource <= RT_DAA_V1
    ensures OfBytes(Be(resource, 4)) == resource
  {
    SmallPowers();
    OfBe(resource, 4);
  }

  /** An environment that wraps its blobs this way satisfies what Join followed by Sign needs. */
  lemma WrappingUnwraps(e: Env, key: seq<byte>, mac: Mac)
    requires |key| == SYM_KEY_SIZE && (forall x :: |mac(x)| == DIGEST)
    requires forall r: nat, d, v {:trigger e.wrap(r, d, v)} :: e.wrap(r, d, v) == Wrapping(key, mac, r, d, v)
    requires forall b {:trigger e.unwrap(b)} :: e.unwrap(b) == Unwrapping(key, mac, b)
    ensures Unwraps(e)
  {
    forall r: nat, d, v {:trigger e.wrap(r, d, v)} | r <= RT_DAA_V1 && |d| <= 0xffff_0000
      ensures e.unwrap(e.wrap(r, d, v)) == Opened(r, TAG_SENSITIVE, d)
    {
      WrapRoundTrip(key, mac, r, d, v);
    }
  }
}
