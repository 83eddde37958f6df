/** RIM certificates (tpm-emulator/mtm/mtm_verification.c) and their wire format
    (tpm-emulator/mtm/mtm_marshalling.c). */
module Rim {
  import opened Wrappers
  import opened Bytes
  import opened NumberTheory

  const TAG: nat := 0x0302
  const DIGEST: nat := 20
  const SELECT_BYTES: nat := 3
  const ID_NONE: nat := 0xffff_ffff
  const ID_INTERNAL: nat := 0xffff_fffe
  const SELECT_NONE: nat := 0
  const BOOTSTRAP: nat := 1
  const RIMPROTECT: nat := 2
  const SELECT_MAX: nat := 3
  const TWO32: nat := 0x1_0000_0000

  /** TPM_RIM_CERTIFICATE; `select` is the whole pcrSelect array, of which selectSize bytes
      count, and `check` the integrity data, of which checkSize bytes count. */
  datatype Cert = Cert(tag: nat, name: seq<byte>, version: nat, selection: nat, counter: nat,
                       selectSize: nat, select: seq<byte>, locality: nat, release: seq<byte>,
                       index: nat, value: seq<byte>, parent: nat, extension: seq<byte>,
                       checkSize: nat, check: seq<byte>)

  /** What the C types guarantee. */
  predicate Formed(c: Cert) {
    && c.tag < 0x1_0000 && |c.name| == 8 && c.version < TWO32 && c.selection < 0x100 && c.counter < TWO32
    && c.selectSize < 0x1_0000 && |c.select| == SELECT_BYTES && c.locality < 0x100 && |c.release| == DIGEST
    && c.index < TWO32 && |c.value| == DIGEST && c.parent < TWO32 && |c.extension| < 0x100
    && c.checkSize < TWO32 && c.checkSize <= |c.check|
  }

  // ---- wire format

  /** How numbers are written into a given number of bytes, and read. */
  datatype Wire = Wire(be: (nat, nat) -> seq<byte>, of: seq<byte> -> nat)

  /** Marks a number whose bytes are read back. */
  predicate Reads(v: nat, k: nat) {
    true
  }

  /** Marks bytes that are read and written back. */
  predicate Writes(s: seq<byte>) {
    true
  }

  ghost predicate Sound(w: Wire) {
    && (forall v: nat, k: nat {:trigger w.be(v, k)} :: |w.be(v, k)| == k)
    && (forall v: nat, k: nat {:trigger Reads(v, k)} :: Reads(v, k) && v < Pow(256, k) ==> w.of(w.be(v, k)) == v)
    && (forall s {:trigger Writes(s)} :: Writes(s) ==> w.of(s) < Pow(256, |s|) && w.be(w.of(s), |s|) == s)
  }

  /** The emulator's wire format. */
  function BigEndian(): Wire {
    Wire((v: nat, k: nat) => Be(v, k), (s: seq<byte>) => OfBytes(s))
  }

  lemma BigEndianSound()
    ensures Sound(BigEndian())
  {
    forall v: nat, k: nat {:trigger Reads(v, k)} | Reads(v, k) && v < Pow(256, k)
      ensures BigEndian().of(BigEndian().be(v, k)) == v
    {
      OfBe(v, k);
    }
    forall s {:trigger Writes(s)} | Writes(s)
      ensures BigEndian().of(s) < Pow(256, |s|) && BigEndian().be(BigEndian().of(s), |s|) == s
    {
      OfBytesBound(s);
      BeOf(s);
    }
  }

  function HeadBytes(w: Wire, c: Cert): seq<byte> {
    w.be(c.tag, 2) + c.name + w.be(c.version, 4) + w.be(c.selection, 1) + w.be(c.counter, 4)
  }

  function SelectBytes(w: Wire, c: Cert): seq<byte>
    requires c.selectSize <= |c.select|
  {
    w.be(c.selectSize, 2) + c.select[..c.selectSize]
  }

  function MiddleBytes(w: Wire, c: Cert): seq<byte> {
    w.be(c.locality, 1) + c.release + w.be(c.index, 4) + c.value + w.be(c.parent, 4)
  }

  function ExtensionBytes(w: Wire, c: Cert): seq<byte> {
    w.be(|c.extension|, 1) + c.extension
  }

  function CheckBytes(w: Wire, c: Cert): seq<byte>
    requires c.checkSize <= |c.check|
  {
    w.be(c.checkSize, 4) + c.check[..c.checkSize]
  }

  /** `tpm_marshal_TPM_RIM_CERTIFICATE` succeeds on these, given room. */
  predicate Encodable(c: Cert) {
    Formed(c) && c.selectSize <= SELECT_BYTES
  }

  function Encode(w: Wire, c: Cert): seq<byte>
    requires Encodable(c)
  {
    HeadBytes(w, c) + SelectBytes(w, c) + MiddleBytes(w, c) + ExtensionBytes(w, c) + CheckBytes(w, c)
  }

  /** `sizeof_TPM_RIM_CERTIFICATE`. */
  function Size(c: Cert): nat {
    2 + 8 + 4 + (1 + 4) + (2 + c.selectSize + 1 + 20) + 4 + 20 + 4 + 1 + |c.extension| + 4 + c.checkSize
  }

  lemma EncodeSize(w: Wire, c: Cert)
    requires Sound(w) && Encodable(c)
    ensures |Encode(w, c)| == Size(c)
  {}

  /** Where the variable parts of a wire certificate end, if the buffer is long enough. */
  function SelectEnd(w: Wire, b: seq<byte>): Option<nat> {
    if |b| < 21 || w.of(b[19..21]) > SELECT_BYTES || |b| < 21 + w.of(b[19..21]) then None
    else Some(21 + w.of(b[19..21]))
  }

  function ExtensionEnd(w: Wire, b: seq<byte>): Option<nat> {
    match SelectEnd(w, b)
    case None => None
    case Some(s) =>
      if |b| < s + 50 || |b| < s + 50 + w.of(b[s + 49..s + 50]) then None
      else Some(s + 50 + w.of(b[s + 49..s + 50]))
  }

  function CheckEnd(w: Wire, b: seq<byte>): Option<nat> {
    match ExtensionEnd(w, b)
    case None => None
    case Some(x) =>
      if |b| < x + 4 || |b| < x + 4 + w.of(b[x..x + 4]) then None
      else Some(x + 4 + w.of(b[x..x + 4]))
  }

  lemma Ends(w: Wire, b: seq<byte>)
    requires CheckEnd(w, b).Some?
    ensures SelectEnd(w, b).Some? && ExtensionEnd(w, b).Some?
    ensures 21 <= SelectEnd(w, b).value <= 24 && SelectEnd(w, b).value + 50 <= ExtensionEnd(w, b).value
    ensures ExtensionEnd(w, b).value + 4 <= CheckEnd(w, b).value <= |b|
  {}

  /** `tpm_unmarshal_TPM_RIM_CERTIFICATE`; the part of pcrSelect that is not on the wire is
      whatever was in memory. */
  function Decode(w: Wire, b: seq<byte>, residue: seq<byte>): Option<Cert>
    requires |residue| == SELECT_BYTES
  {
    if CheckEnd(w, b).None? then None
    else
      Ends(w, b);
      var s, x, z := SelectEnd(w, b).value, ExtensionEnd(w, b).value, CheckEnd(w, b).value;
      Some(Cert(w.of(b[0..2]), b[2..10], w.of(b[10..14]), w.of(b[14..15]), w.of(b[15..19]),
                s - 21, b[21..s] + residue[s - 21..],
                w.of(b[s..s + 1]), b[s + 1..s + 21], w.of(b[s + 21..s + 25]), b[s + 25..s + 45],
                w.of(b[s + 45..s + 49]), b[s + 50..x], z - (x + 4), b[x + 4..z]))
  }

  /** Equal in everything that goes over the wire except the integrity check. */
  predicate Agree(c: Cert, d: Cert) {
    && c.tag == d.tag && c.name == d.name && c.version == d.version && c.selection == d.selection
    && c.counter == d.counter && c.selectSize == d.selectSize
    && (c.selectSize <= |c.select| && d.selectSize <= |d.select| ==>
          c.select[..c.selectSize] == d.select[..d.selectSize])
    && c.locality == d.locality && c.release == d.release && c.index == d.index && c.value == d.value
    && c.parent == d.parent && c.extension == d.extension
  }

  predicate AgreeCheck(c: Cert, d: Cert) {
    c.checkSize == d.checkSize && (c.checkSize <= |c.check| && d.checkSize <= |d.check| ==>
      c.check[..c.checkSize] == d.check[..d.checkSize])
  }

  // ---- decoding undoes encoding

  lemma HeadParts(a: seq<byte>, b: seq<byte>, c: seq<byte>, d: seq<byte>, e: seq<byte>, rest: seq<byte>)
    requires |a| == 2 && |b| == 8 && |c| == 4 && |d| == 1 && |e| == 4
    ensures var s := a + b + c + d + e + rest;
      s[0..2] == a && s[2..10] == b && s[10..14] == c && s[14..15] == d && s[15..19] == e && s[19..] == rest
  {}

  lemma MiddleParts(a: seq<byte>, b: seq<byte>, c: seq<byte>, d: seq<byte>, e: seq<byte>, rest: seq<byte>)
    requires |a| == 1 && |b| == 20 && |c| == 4 && |d| == 20 && |e| == 4
    ensures var s := a + b + c + d + e + rest;
      s[0..1] == a && s[1..21] == b && s[21..25] == c && s[25..45] == d && s[45..49] == e && s[49..] == rest
  {}

  /** The five parts, each found behind the ones before it. */
  lemma Parts(h: seq<byte>, s: seq<byte>, m: seq<byte>, x: seq<byte>, t: seq<byte>, rest: seq<byte>)
    ensures var b := h + s + m + x + t + rest; var i, j, k := |h| + |s|, |h| + |s| + |m|, |h| + |s| + |m| + |x|;
      b[..|h|] == h && b[|h|..i] == s && b[i..j] == m && b[j..k] == x && b[k..k + |t|] == t
  {}

  /** A slice that is a concatenation, and its two parts. */
  lemma SplitSlice(b: seq<byte>, i: nat, j: nat, p: seq<byte>, q: seq<byte>)
    requires i <= j <= |b| && b[i..j] == p + q
    ensures b[i..i + |p|] == p && b[i + |p|..j] == q
  {
    assert b[i..i + |p|] == b[i..j][..|p|] && b[i + |p|..j] == b[i..j][|p|..];
  }

  /** The buffer starts with the five parts of the certificate. */
  ghost predicate Holds(w: Wire, c: Cert, b: seq<byte>)
    requires Encodable(c)
  {
    var n, m, k := c.selectSize, |c.extension|, c.checkSize;
    && |b| >= 75 + n + m + k && b[..19] == HeadBytes(w, c) && b[19..21 + n] == SelectBytes(w, c)
    && b[21 + n..70 + n] == MiddleBytes(w, c) && b[70 + n..71 + n + m] == ExtensionBytes(w, c)
    && b[71 + n + m..75 + n + m + k] == CheckBytes(w, c)
  }

  lemma EncodeHolds(w: Wire, c: Cert, rest: seq<byte>)
    requires Sound(w) && Encodable(c)
    ensures Holds(w, c, Encode(w, c) + rest)
  {
    Parts(HeadBytes(w, c), SelectBytes(w, c), MiddleBytes(w, c), ExtensionBytes(w, c), CheckBytes(w, c), rest);
  }

  /** The declared sizes, where the decoder looks for them. */
  predicate SizesAt(w: Wire, b: seq<byte>, n: nat, m: nat, k: nat) {
    && n <= SELECT_BYTES && |b| >= 75 + n + m + k
    && w.of(b[19..21]) == n && w.of(b[70 + n..71 + n]) == m && w.of(b[71 + n + m..75 + n + m]) == k
  }

  lemma EndsAre(w: Wire, b: seq<byte>, n: nat, m: nat, k: nat)
    requires SizesAt(w, b, n, m, k)
    ensures SelectEnd(w, b) == Some(21 + n) && ExtensionEnd(w, b) == Some(71 + n + m)
    ensures CheckEnd(w, b) == Some(75 + n + m + k)
  {
    var s, x := 21 + n, 71 + n + m;
    assert b[s + 49..s + 50] == b[70 + n..71 + n] && b[x..x + 4] == b[71 + n + m..75 + n + m];
  }

  lemma SizeField(w: Wire, b: seq<byte>, i: nat, j: nat, v: nat, k: nat, q: seq<byte>)
    requires Sound(w) && i <= j <= |b| && b[i..j] == w.be(v, k) + q && v < Pow(256, k)
    ensures i + k <= j && w.of(b[i..i + k]) == v && b[i + k..j] == q
  {
    SplitSlice(b, i, j, w.be(v, k), q);
    assert Reads(v, k);
  }

  /** The variable parts with their declared sizes. */
  lemma VariableParts(w: Wire, b: seq<byte>, p: seq<byte>, q: seq<byte>, r: seq<byte>)
    requires Sound(w) && |p| <= SELECT_BYTES && |q| < 0x100 && |r| < TWO32 && |b| >= 75 + |p| + |q| + |r|
    requires b[19..21 + |p|] == w.be(|p|, 2) + p && b[70 + |p|..71 + |p| + |q|] == w.be(|q|, 1) + q
    requires b[71 + |p| + |q|..75 + |p| + |q| + |r|] == w.be(|r|, 4) + r
    ensures SizesAt(w, b, |p|, |q|, |r|) && b[21..21 + |p|] == p && b[71 + |p|..71 + |p| + |q|] == q
    ensures b[75 + |p| + |q|..75 + |p| + |q| + |r|] == r
  {
    SmallPowers();
    SizeField(w, b, 19, 21 + |p|, |p|, 2, p);
    SizeField(w, b, 70 + |p|, 71 + |p| + |q|, |q|, 1, q);
    SizeField(w, b, 71 + |p| + |q|, 75 + |p| + |q| + |r|, |r|, 4, r);
  }

  lemma SlicePrefix(b: seq<byte>, k: nat, i: nat, j: nat)
    requires i <= j <= k <= |b|
    ensures b[..k][i..j] == b[i..j]
  {
    assert forall t :: 0 <= t < j - i ==> b[..k][i..j][t] == b[i + t];
  }

  lemma SliceInside(b: seq<byte>, o: nat, e: nat, i: nat, j: nat)
    requires o <= e <= |b| && i <= j <= e - o
    ensures b[o..e][i..j] == b[o + i..o + j]
  {
    assert forall t :: 0 <= t < j - i ==> b[o..e][i..j][t] == b[o + i + t];
  }

  /** The fixed fields before the selection. */
  lemma DecodeHead(w: Wire, c: Cert, b: seq<byte>)
    requires Sound(w) && Formed(c) && |b| >= 19 && b[..19] == HeadBytes(w, c)
    ensures w.of(b[0..2]) == c.tag && b[2..10] == c.name && w.of(b[10..14]) == c.version
    ensures w.of(b[14..15]) == c.selection && w.of(b[15..19]) == c.counter
  {
    SmallPowers();
    assert Reads(c.tag, 2);
    assert Reads(c.version, 4);
    assert Reads(c.selection, 1);
    assert Reads(c.counter, 4);
    HeadParts(w.be(c.tag, 2), c.name, w.be(c.version, 4), w.be(c.selection, 1), w.be(c.counter, 4), []);
    assert HeadBytes(w, c) + [] == HeadBytes(w, c);
    SlicePrefix(b, 19, 0, 2);
    SlicePrefix(b, 19, 2, 10);
    SlicePrefix(b, 19, 10, 14);
    SlicePrefix(b, 19, 14, 15);
    SlicePrefix(b, 19, 15, 19);
  }

  /** The fixed fields behind it. */
  lemma DecodeMiddle(w: Wire, c: Cert, b: seq<byte>, s: nat)
    requires Sound(w) && Formed(c) && s + 49 <= |b| && b[s..s + 49] == MiddleBytes(w, c)
    ensures w.of(b[s..s + 1]) == c.locality && b[s + 1..s + 21] == c.release && w.of(b[s + 21..s + 25]) == c.index
    ensures b[s + 25..s + 45] == c.value && w.of(b[s + 45..s + 49]) == c.parent
  {
    SmallPowers();
    assert Reads(c.locality, 1);
    assert Reads(c.index, 4);
    assert Reads(c.parent, 4);
    MiddleParts(w.be(c.locality, 1), c.release, w.be(c.index, 4), c.value, w.be(c.parent, 4), []);
    assert MiddleBytes(w, c) + [] == MiddleBytes(w, c);
    SliceInside(b, s, s + 49, 0, 1);
    SliceInside(b, s, s + 49, 1, 21);
    SliceInside(b, s, s + 49, 21, 25);
    SliceInside(b, s, s + 49, 25, 45);
    SliceInside(b, s, s + 49, 45, 49);
  }

  /** Everything the decoder reads, in terms of the certificate. */
  ghost predicate Fields(w: Wire, c: Cert, b: seq<byte>)
    requires Encodable(c)
  {
    var n, m, k := c.selectSize, |c.extension|, c.checkSize;
    && SizesAt(w, b, n, m, k) && b[21..21 + n] == c.select[..n] && b[71 + n..71 + n + m] == c.extension
    && b[75 + n + m..75 + n + m + k] == c.check[..k]
    && w.of(b[0..2]) == c.tag && b[2..10] == c.name && w.of(b[10..14]) == c.version
    && w.of(b[14..15]) == c.selection && w.of(b[15..19]) == c.counter
    && w.of(b[21 + n..22 + n]) == c.locality && b[22 + n..42 + n] == c.release && w.of(b[42 + n..46 + n]) == c.index
    && b[46 + n..66 + n] == c.value && w.of(b[66 + n..70 + n]) == c.parent
  }

  lemma HeldFields(w: Wire, c: Cert, b: seq<byte>)
    requires Sound(w) && Encodable(c) && Holds(w, c, b)
    ensures Fields(w, c, b)
  {
    VariableParts(w, b, c.select[..c.selectSize], c.extension, c.check[..c.checkSize]);
    DecodeHead(w, c, b);
    DecodeMiddle(w, c, b, 21 + c.selectSize);
  }

  lemma DecodeFields(w: Wire, c: Cert, b: seq<byte>, residue: seq<byte>)
    requires Encodable(c) && Fields(w, c, b) && |residue| == SELECT_BYTES
    ensures CheckEnd(w, b) == Some(Size(c))
    ensures var d := Decode(w, b, residue);
      d.Some? && Agree(c, d.value) && AgreeCheck(c, d.value)
      && d.value.select == c.select[..c.selectSize] + residue[c.selectSize..]
  {
    EndsAre(w, b, c.selectSize, |c.extension|, c.checkSize);
  }

  /** Decoding what was encoded gives the certificate back, up to the bytes of pcrSelect that are
      not sent, and consumes exactly the declared size, whatever follows. */
  lemma DecodeEncode(w: Wire, c: Cert, rest: seq<byte>, residue: seq<byte>)
    requires Sound(w) && Encodable(c) && |residue| == SELECT_BYTES
    ensures var b := Encode(w, c) + rest; var d := Decode(w, b, residue);
      && CheckEnd(w, b) == Some(Size(c)) && d.Some? && Agree(c, d.value) && AgreeCheck(c, d.value)
      && d.value.select == c.select[..c.selectSize] + residue[c.selectSize..]
  {
    EncodeHolds(w, c, rest);
    HeldFields(w, c, Encode(w, c) + rest);
    DecodeFields(w, c, Encode(w, c) + rest, residue);
  }

  /** Two certificates with the same bytes agree on everything that is sent. */
  lemma EncodeInjective(w: Wire, c: Cert, d: Cert)
    requires Sound(w) && Encodable(c) && Encodable(d) && Encode(w, c) == Encode(w, d)
    ensures Agree(c, d) && AgreeCheck(c, d)
  {
    DecodeEncode(w, c, [], Zeros(SELECT_BYTES));
    DecodeEncode(w, d, [], Zeros(SELECT_BYTES));
  }

  /** And two that agree have the same bytes. */
  lemma EncodeAgree(w: Wire, c: Cert, d: Cert)
    requires Encodable(c) && Encodable(d) && Agree(c, d) && AgreeCheck(c, d)
    ensures Encode(w, c) == Encode(w, d)
  {}

  // ---- encoding undoes decoding

  lemma Rejoin(b: seq<byte>, i: nat, j: nat, k: nat)
    requires i <= j <= k <= |b|
    ensures b[i..j] + b[j..k] == b[i..k]
  {}

  lemma RejoinFive(b: seq<byte>, i: nat, j: nat, k: nat, l: nat, m: nat, n: nat)
    requires i <= j <= k <= l <= m <= n <= |b|
    ensures b[i..j] + b[j..k] + b[k..l] + b[l..m] + b[m..n] == b[i..n]
  {}

  lemma RewriteNumber(w: Wire, b: seq<byte>, i: nat, j: nat)
    requires Sound(w) && i <= j <= |b|
    ensures w.of(b[i..j]) < Pow(256, j - i) && w.be(w.of(b[i..j]), j - i) == b[i..j]
  {
    assert Writes(b[i..j]);
  }

  lemma RewriteHead(w: Wire, b: seq<byte>, c: Cert)
    requires Sound(w) && |b| >= 19 && c.tag == w.of(b[0..2]) && c.name == b[2..10] && c.version == w.of(b[10..14])
    requires c.selection == w.of(b[14..15]) && c.counter == w.of(b[15..19])
    ensures HeadBytes(w, c) == b[0..19]
    ensures c.tag < 0x1_0000 && c.version < TWO32 && c.selection < 0x100 && c.counter < TWO32
  {
    SmallPowers();
    RewriteNumber(w, b, 0, 2);
    RewriteNumber(w, b, 10, 14);
    RewriteNumber(w, b, 14, 15);
    RewriteNumber(w, b, 15, 19);
    RejoinFive(b, 0, 2, 10, 14, 15, 19);
  }

  lemma RewriteMiddle(w: Wire, b: seq<byte>, s: nat, c: Cert)
    requires Sound(w) && |b| >= s + 49 && c.locality == w.of(b[s..s + 1]) && c.release == b[s + 1..s + 21]
    requires c.index == w.of(b[s + 21..s + 25]) && c.value == b[s + 25..s + 45] && c.parent == w.of(b[s + 45..s + 49])
    ensures MiddleBytes(w, c) == b[s..s + 49] && c.locality < 0x100 && c.index < TWO32 && c.parent < TWO32
  {
    SmallPowers();
    RewriteNumber(w, b, s, s + 1);
    RewriteNumber(w, b, s + 21, s + 25);
    RewriteNumber(w, b, s + 45, s + 49);
    RejoinFive(b, s, s + 1, s + 21, s + 25, s + 45, s + 49);
  }

  lemma RewriteSized(w: Wire, b: seq<byte>, i: nat, k: nat, n: nat)
    requires Sound(w) && i + k + n <= |b| && w.of(b[i..i + k]) == n
    ensures w.be(n, k) + b[i + k..i + k + n] == b[i..i + k + n] && n < Pow(256, k)
  {
    RewriteNumber(w, b, i, i + k);
    Rejoin(b, i, i + k, i + k + n);
  }

  /** The variable parts of a decoded certificate. */
  lemma DecodedSizes(w: Wire, b: seq<byte>)
    requires Sound(w) && CheckEnd(w, b).Some?
    ensures SelectEnd(w, b).Some? && ExtensionEnd(w, b).Some?
    ensures var s, x, z := SelectEnd(w, b).value, ExtensionEnd(w, b).value, CheckEnd(w, b).value;
      && 21 <= s <= 24 && s + 50 <= x && x + 4 <= z <= |b| && x - (s + 50) < 0x100 && z - (x + 4) < TWO32
      && w.be(s - 21, 2) + b[21..s] == b[19..s] && w.be(x - (s + 50), 1) + b[s + 50..x] == b[s + 49..x]
      && w.be(z - (x + 4), 4) + b[x + 4..z] == b[x..z]
  {
    Ends(w, b);
    var s, x, z := SelectEnd(w, b).value, ExtensionEnd(w, b).value, CheckEnd(w, b).value;
    SmallPowers();
    RewriteSized(w, b, 19, 2, s - 21);
    RewriteSized(w, b, s + 49, 1, x - (s + 50));
    RewriteSized(w, b, x, 4, z - (x + 4));
  }

  /** Encoding what was decoded gives back exactly the bytes that were consumed. */
  lemma EncodeDecode(w: Wire, b: seq<byte>, residue: seq<byte>)
    requires Sound(w) && |residue| == SELECT_BYTES && Decode(w, b, residue).Some?
    ensures var c := Decode(w, b, residue).value;
      Encodable(c) && CheckEnd(w, b).Some? && Size(c) == CheckEnd(w, b).value <= |b| && Encode(w, c) == b[..Size(c)]
  {
    var c := Decode(w, b, residue).value;
    DecodedSizes(w, b);
    var s, x, z := SelectEnd(w, b).value, ExtensionEnd(w, b).value, CheckEnd(w, b).value;
    RewriteHead(w, b, c);
    RewriteMiddle(w, b, s, c);
    assert c.select[..c.selectSize] == b[21..s];
    assert c.check[..c.checkSize] == b[x + 4..z];
    assert c.extension == b[s + 50..x];
    RejoinFive(b, 0, 19, s, s + 49, x, z);
  }

  // ---- the integrity check

  type Mac = seq<byte> -> seq<byte>

  /** The bytes that the check covers: the certificate with integrityCheckSize set to zero. */
  function Covered(w: Wire, c: Cert): seq<byte>
    requires Encodable(c)
  {
    Encode(w, c.(checkSize := 0))
  }

  datatype Code = BAD_PARAMETER | AUTHFAIL | FAIL | KEYNOTFOUND | INVALID_KEYUSAGE | BAD_COUNTER | BAD_SCHEME

  datatype Reply = Accepted | Refused(code: Code)

  /** `verify_rim_certificate` on an internal certificate. */
  function VerifyInternal(w: Wire, mac: Mac, c: Cert): Reply
    requires Formed(c)
  {
    if !Encodable(c) then Refused(FAIL)
    else if |c.check| < DIGEST || mac(Covered(w, c)) != c.check[..DIGEST] then Refused(AUTHFAIL)
    else Accepted
  }

  /** A stored verification key, and what it says about the signature of the certificate. */
  datatype Key = Key(id: nat, signs: bool, rsa: bool, signed: bool)

  /** `verify_rim_certificate` on a certificate with a parent key. */
  function VerifySigned(c: Cert, parent: Option<Key>): Reply
    requires Formed(c)
  {
    if parent.None? then Refused(KEYNOTFOUND)
    else if !Encodable(c) then Refused(FAIL)
    else if !parent.value.rsa then Refused(BAD_SCHEME)
    else if !parent.value.signed then Refused(AUTHFAIL)
    else Accepted
  }

  function CounterFits(c: Cert, bootstrap: nat, rimProtect: nat): Reply {
    if c.selection > SELECT_MAX then Refused(BAD_COUNTER)
    else if c.selection == BOOTSTRAP && c.counter < bootstrap then Refused(BAD_COUNTER)
    else if c.selection == RIMPROTECT && c.counter < rimProtect then Refused(BAD_COUNTER)
    else Accepted
  }

  /** MTM_VerifyRIMCert: `named` is the key of the given handle, `parent` that of the parent ID.
      An internal certificate is accepted without a look at the counters. */
  function Verify(w: Wire, mac: Mac, c: Cert, named: Option<Key>, parent: Option<Key>, bootstrap: nat, rimProtect: nat):
    Reply
    requires Formed(c)
  {
    if c.tag != TAG then Refused(BAD_PARAMETER)
    else if c.parent == ID_NONE then Refused(AUTHFAIL)
    else if c.parent == ID_INTERNAL then VerifyInternal(w, mac, c)
    else if named.None? then Refused(KEYNOTFOUND)
    else if !named.value.signs then Refused(INVALID_KEYUSAGE)
    else if c.parent != named.value.id then Refused(AUTHFAIL)
    else
      match VerifySigned(c, parent)
      case Refused(code) => Refused(code)
      case Accepted => CounterFits(c, bootstrap, rimProtect)
  }

  datatype Installed = Rejected(code: Code) | Issued(cert: Cert)

  /** What MTM_InstallRIM changes before it computes the check. */
  function Internalized(c: Cert, rimProtect: nat): Cert {
    c.(counter := if c.selection != SELECT_NONE then (rimProtect + 1) % TWO32 else 0,
       selection := if c.selection != SELECT_NONE then RIMPROTECT else SELECT_NONE,
       parent := ID_INTERNAL, checkSize := DIGEST)
  }

  /** MTM_InstallRIM after authorization. */
  function Install(w: Wire, mac: Mac, c: Cert, rimProtect: nat): Installed
    requires Formed(c)
  {
    if c.tag != TAG then Rejected(BAD_PARAMETER)
    else if c.selectSize > SELECT_BYTES then Rejected(FAIL)
    else
      var d := Internalized(c, rimProtect).(check := Zeros(DIGEST));
      Issued(d.(check := mac(Encode(w, d.(checkSize := 0)))))
  }

  ghost predicate IsMac(mac: Mac) {
    forall x :: |mac(x)| == DIGEST
  }

  /** Every certificate that MTM_InstallRIM issues is accepted by MTM_VerifyRIMCert, whatever the
      keys and counters are by then. */
  lemma InstalledVerifies(w: Wire, mac: Mac, c: Cert, rimProtect: nat, named: Option<Key>, parent: Option<Key>,
                          bootstrap: nat, later: nat)
    requires Formed(c) && IsMac(mac) && Install(w, mac, c, rimProtect).Issued?
    ensures var d := Install(w, mac, c, rimProtect).cert;
      Formed(d) && Verify(w, mac, d, named, parent, bootstrap, later) == Accepted
  {
    var d := Install(w, mac, c, rimProtect).cert;
    var e := Internalized(c, rimProtect).(check := Zeros(DIGEST));
    CoveredAgree(w, d, e);
    assert d.check[..DIGEST] == d.check;
  }

  /** The check covers neither its own fields nor the unused bytes of pcrSelect. */
  lemma CoveredAgree(w: Wire, c: Cert, d: Cert)
    requires Encodable(c) && Encodable(d) && Agree(c, d)
    ensures Covered(w, c) == Covered(w, d)
  {
    EncodeAgree(w, c.(checkSize := 0), d.(checkSize := 0));
  }

  /** Also over the wire: whatever follows the marshalled certificate and whatever the buffer of
      pcrSelect held before, unmarshalling gives a certificate with the same fields that
      MTM_VerifyRIMCert accepts. */
  lemma InstalledTravels(w: Wire, mac: Mac, c: Cert, rimProtect: nat, rest: seq<byte>, residue: seq<byte>,
                         named: Option<Key>, parent: Option<Key>, bootstrap: nat, later: nat)
    requires Sound(w) && Formed(c) && IsMac(mac) && Install(w, mac, c, rimProtect).Issued?
    requires |residue| == SELECT_BYTES
    ensures var d := Install(w, mac, c, rimProtect).cert;
      && Encodable(d) && var got := Decode(w, Encode(w, d) + rest, residue);
      && got.Some? && Formed(got.value) && Agree(d, got.value) && AgreeCheck(d, got.value)
      && Verify(w, mac, got.value, named, parent, bootstrap, later) == Accepted
  {
    var d := Install(w, mac, c, rimProtect).cert;
    InstalledVerifies(w, mac, c, rimProtect, named, parent, bootstrap, later);
    DecodeEncode(w, d, rest, residue);
    EncodeDecode(w, Encode(w, d) + rest, residue);
    CoveredAgree(w, d, Decode(w, Encode(w, d) + rest, residue).value);
  }

  /** What the caller handed in is what is issued, apart from counter, parent and check. */
  lemma InstalledKeeps(w: Wire, mac: Mac, c: Cert, rimProtect: nat)
    requires Formed(c) && Install(w, mac, c, rimProtect).Issued?
    ensures var d := Install(w, mac, c, rimProtect).cert;
      Agree(c.(counter := d.counter, selection := d.selection, parent := ID_INTERNAL), d)
      && (c.selection == SELECT_NONE ==> d.selection == SELECT_NONE && d.counter == 0)
      && (c.selection != SELECT_NONE ==> d.selection == RIMPROTECT && d.counter == (rimProtect + 1) % TWO32)
  {}

  /** Two accepted internal certificates have the same check exactly when they agree on every
      field that is sent, provided their covered bytes do not collide. */
  lemma SameCheck(w: Wire, mac: Mac, c: Cert, d: Cert)
    requires Sound(w) && Formed(c) && Formed(d) && c.parent == d.parent == ID_INTERNAL
    requires VerifyInternal(w, mac, c) == Accepted && VerifyInternal(w, mac, d) == Accepted
    requires mac(Covered(w, c)) == mac(Covered(w, d)) ==> Covered(w, c) == Covered(w, d)
    ensures c.check[..DIGEST] == d.check[..DIGEST] <==> Agree(c, d)
  {
    if Agree(c, d) {
      CoveredAgree(w, c, d);
    } else if c.check[..DIGEST] == d.check[..DIGEST] {
      EncodeInjective(w, c.(checkSize := 0), d.(checkSize := 0));
    }
  }

  /** So a byte of pcrSelect beyond sizeOfSelect can be changed under the same check: agreement on
      all fields is false in general, and holds exactly when those bytes are equal too. */
  lemma TailNotCovered(w: Wire, mac: Mac, c: Cert, tail: seq<byte>)
    requires Formed(c) && VerifyInternal(w, mac, c) == Accepted && |tail| == SELECT_BYTES - c.selectSize
    ensures var d := c.(select := c.select[..c.selectSize] + tail);
      Formed(d) && VerifyInternal(w, mac, d) == Accepted && d.check == c.check
      && (d == c <==> tail == c.select[c.selectSize..])
  {
    var d := c.(select := c.select[..c.selectSize] + tail);
    CoveredAgree(w, c, d);
    assert c.select == c.select[..c.selectSize] + c.select[c.selectSize..];
    if d == c {
      assert tail == d.select[c.selectSize..];
    }
  }
}
