/** Marshalling of RIM certificates in the form of the source: a cursor with a remaining length
    that moves through a buffer, and a certificate object whose check size is cleared while the
    keyed digest is computed. */
module RimMachine {
  import opened Wrappers
  import opened Bytes
  import opened Rim

  /** The pair (ptr, length) of the marshalling functions. */
  class Writer {
    const buf: array<byte>
    var pos: nat
    var left: nat

    ghost predicate Valid()
      reads this
    {
      pos + left == buf.Length
    }

    constructor (size: nat)
      ensures Valid() && pos == 0 && left == size && fresh(buf)
    {
      buf := new byte[size];
      pos, left := 0, size;
    }

    /** What has been written. */
    function Written(): seq<byte>
      requires Valid()
      reads this, buf
    {
      buf[..pos]
    }

    /** `tpm_marshal_BYTE_ARRAY`, `tpm_marshal_BLOB` and, on the bytes of a number, the integers. */
    method Put(s: seq<byte>) returns (ok: bool)
      requires Valid()
      modifies this, buf
      ensures Valid() && ok == (|s| <= old(left))
      ensures ok ==> Written() == old(Written()) + s && left == old(left) - |s|
      ensures !ok ==> Written() == old(Written()) && left == old(left)
    {
      if left < |s| { return false; }
      Write(buf, pos, s);
      pos := pos + |s|;
      left := left - |s|;
      ok := true;
    }

    /** Two fields in a row. */
    method PutTwo(a: seq<byte>, b: seq<byte>) returns (ok: bool)
      requires Valid()
      modifies this, buf
      ensures Valid() && ok == (|a| + |b| <= old(left))
      ensures ok ==> Written() == old(Written()) + (a + b) && left == old(left) - |a| - |b|
    {
      ok := Put(a);
      if ok { ok := Put(b); }
    }

    method PutFive(a: seq<byte>, b: seq<byte>, c: seq<byte>, d: seq<byte>, e: seq<byte>) returns (ok: bool)
      requires Valid()
      modifies this, buf
      ensures Valid() && ok == (|a| + |b| + |c| + |d| + |e| <= old(left))
      ensures ok ==> Written() == old(Written()) + (a + b + c + d + e)
      ensures ok ==> left == old(left) - |a| - |b| - |c| - |d| - |e|
    {
      ghost var start := Written();
      ok := PutTwo(a, b);
      if ok { ok := PutTwo(c, d); }
      if ok {
        ok := Put(e);
        if ok { FiveJoined(start, a, b, c, d, e); }
      }
    }

    method PutHead(w: Wire, c: Cert) returns (ok: bool)
      requires Valid() && Sound(w) && Formed(c)
      modifies this, buf
      ensures Valid() && ok == (19 <= old(left))
      ensures ok ==> Written() == old(Written()) + HeadBytes(w, c) && left == old(left) - 19
    {
      ok := PutFive(w.be(c.tag, 2), c.name, w.be(c.version, 4), w.be(c.selection, 1), w.be(c.counter, 4));
    }

    /** The selection: its size is written before the size is checked. */
    method PutSelect(w: Wire, c: Cert) returns (ok: bool)
      requires Valid() && Sound(w) && Formed(c)
      modifies this, buf
      ensures Valid() && ok == (c.selectSize <= SELECT_BYTES && 2 + c.selectSize <= old(left))
      ensures ok ==> Written() == old(Written()) + SelectBytes(w, c) && left == old(left) - 2 - c.selectSize
    {
      ok := Put(w.be(c.selectSize, 2));
      if !ok { return; }
      if c.selectSize > SELECT_BYTES { return false; }
      ok := Put(c.select[..c.selectSize]);
    }

    method PutMiddle(w: Wire, c: Cert) returns (ok: bool)
      requires Valid() && Sound(w) && Formed(c)
      modifies this, buf
      ensures Valid() && ok == (49 <= old(left))
      ensures ok ==> Written() == old(Written()) + MiddleBytes(w, c) && left == old(left) - 49
    {
      ok := PutFive(w.be(c.locality, 1), c.release, w.be(c.index, 4), c.value, w.be(c.parent, 4));
    }

    /** A size in `k` bytes, then the data unless it is empty. */
    method PutSized(w: Wire, k: nat, data: seq<byte>) returns (ok: bool)
      requires Valid() && Sound(w)
      modifies this, buf
      ensures Valid() && ok == (k + |data| <= old(left))
      ensures ok ==> Written() == old(Written()) + (w.be(|data|, k) + data) && left == old(left) - k - |data|
    {
      ok := Put(w.be(|data|, k));
      if ok && |data| > 0 { ok := Put(data); }
    }

    /** `tpm_marshal_TPM_RIM_CERTIFICATE`: it succeeds exactly when the selection is valid and the
        buffer has room for the declared size, of which it uses every byte. */
    method PutCertificate(w: Wire, c: Cert) returns (ok: bool)
      requires Valid() && Sound(w) && Formed(c)
      modifies this, buf
      ensures Valid() && ok == (c.selectSize <= SELECT_BYTES && Size(c) <= old(left))
      ensures ok ==> Written() == old(Written()) + Encode(w, c) && left == old(left) - Size(c)
    {
      ghost var start := Written();
      ok := PutHead(w, c);
      if ok { ok := PutSelect(w, c); }
      if ok { ok := PutMiddle(w, c); }
      if ok { ok := PutSized(w, 1, c.extension); }
      if ok {
        ok := PutSized(w, 4, c.check[..c.checkSize]);
        if ok {
          FiveAppended(start, HeadBytes(w, c), SelectBytes(w, c), MiddleBytes(w, c), ExtensionBytes(w, c),
            CheckBytes(w, c));
        }
      }
    }
  }

  lemma FiveJoined(s: seq<byte>, a: seq<byte>, b: seq<byte>, c: seq<byte>, d: seq<byte>, e: seq<byte>)
    ensures s + (a + b) + (c + d) + e == s + (a + b + c + d + e)
  {}

  lemma FiveAppended(s: seq<byte>, a: seq<byte>, b: seq<byte>, c: seq<byte>, d: seq<byte>, e: seq<byte>)
    ensures s + a + b + c + d + e == s + (a + b + c + d + e)
  {}

  /** The pair (ptr, length) of the unmarshalling functions. */
  class Reader {
    const buf: seq<byte>
    var pos: nat

    ghost predicate Valid()
      reads this
    {
      pos <= |buf|
    }

    constructor (b: seq<byte>)
      ensures buf == b && pos == 0 && Valid()
    {
      buf := b;
      pos := 0;
    }

    /** The next `k` bytes, or nothing. */
    method Get(k: nat) returns (s: Option<seq<byte>>)
      requires Valid()
      modifies this
      ensures Valid() && s.Some? == (old(pos) + k <= |buf|)
      ensures s.Some? ==> pos == old(pos) + k && s.value == buf[pos - k..pos]
      ensures s.None? ==> pos == old(pos)
    {
      if |buf| - pos < k { return None; }
      s := Some(buf[pos..pos + k]);
      pos := pos + k;
    }

    /** Five fields in a row, cut at the given offsets. */
    method GetFive(i: nat, j: nat, k: nat, l: nat, m: nat) returns (ok: bool, f: seq<seq<byte>>)
      requires Valid() && i <= j <= k <= l <= m
      modifies this
      ensures Valid() && |f| == 5 && ok == (old(pos) + m <= |buf|)
      ensures ok ==> pos == old(pos) + m && var p := old(pos);
        f == [buf[p..p + i], buf[p + i..p + j], buf[p + j..p + k], buf[p + k..p + l], buf[p + l..p + m]]
    {
      f := [[], [], [], [], []];
      var a := Get(i);
      if a.None? { return false, f; }
      var b := Get(j - i);
      if b.None? { return false, f; }
      var c := Get(k - j);
      if c.None? { return false, f; }
      var d := Get(l - k);
      if d.None? { return false, f; }
      var e := Get(m - l);
      if e.None? { return false, f; }
      ok, f := true, [a.value, b.value, c.value, d.value, e.value];
    }

    /** The selection behind the first 19 bytes. */
    method GetSelect(w: Wire) returns (select: Option<seq<byte>>)
      requires Valid() && pos == 19
      modifies this
      ensures Valid() && select.Some? == SelectEnd(w, buf).Some?
      ensures select.Some? ==> SelectEnd(w, buf) == Some(pos) && 21 <= pos && select.value == buf[21..pos]
    {
      var size := Get(2);
      if size.None? { return None; }
      var n := w.of(size.value);
      if n > SELECT_BYTES { return None; }
      select := Get(n);
    }

    /** The extension digest behind the fixed fields. */
    method GetExtension(w: Wire, ghost s: nat) returns (extension: Option<seq<byte>>)
      requires Valid() && SelectEnd(w, buf) == Some(s) && pos == s + 49
      modifies this
      ensures Valid() && extension.Some? == ExtensionEnd(w, buf).Some?
      ensures extension.Some? ==>
        ExtensionEnd(w, buf) == Some(pos) && s + 50 <= pos && extension.value == buf[s + 50..pos]
    {
      var size := Get(1);
      if size.None? { return None; }
      extension := Get(w.of(size.value));
    }

    /** The integrity check at the end. */
    method GetCheck(w: Wire, ghost x: nat) returns (check: Option<seq<byte>>)
      requires Valid() && ExtensionEnd(w, buf) == Some(x) && pos == x
      modifies this
      ensures Valid() && check.Some? == CheckEnd(w, buf).Some?
      ensures check.Some? ==> CheckEnd(w, buf) == Some(pos) && x + 4 <= pos && check.value == buf[x + 4..pos]
    {
      var size := Get(4);
      if size.None? { return None; }
      check := Get(w.of(size.value));
    }

    /** `tpm_unmarshal_TPM_RIM_CERTIFICATE` from the start of the buffer. */
    method GetCertificate(w: Wire, residue: seq<byte>) returns (c: Option<Cert>)
      requires Valid() && pos == 0 && |residue| == SELECT_BYTES
      modifies this
      ensures Valid() && c == Decode(w, buf, residue)
      ensures c.Some? ==> CheckEnd(w, buf) == Some(pos)
    {
      var ok, h := GetFive(2, 10, 14, 15, 19);
      if !ok { return None; }
      var select := GetSelect(w);
      if select.None? { return None; }
      var s := pos;
      var okay, m := GetFive(1, 21, 25, 45, 49);
      if !okay { return None; }
      var extension := GetExtension(w, s);
      if extension.None? { return None; }
      var check := GetCheck(w, pos);
      if check.None? { return None; }
      c := Some(Cert(w.of(h[0]), h[1], w.of(h[2]), w.of(h[3]), w.of(h[4]),
                     |select.value|, select.value + residue[|select.value|..],
                     w.of(m[0]), m[1], w.of(m[2]), m[3], w.of(m[4]), extension.value, |check.value|, check.value));
    }
  }

  // ---- the certificate object

  class Certificate {
    var cert: Cert

    constructor (c: Cert)
      ensures cert == c
    {
      cert := c;
    }

    /** `compute_rim_certificate_hmac`: the check size is zero while the certificate is marshalled
        and comes back afterwards, on every path. */
    method ComputeHmac(w: Wire, mac: Mac) returns (digest: Option<seq<byte>>)
      requires Sound(w) && Formed(cert)
      modifies this
      ensures cert == old(cert)
      ensures digest == if Encodable(cert) then Some(mac(Covered(w, cert))) else None
    {
      var size := cert.checkSize;
      cert := cert.(checkSize := 0);
      var writer := new Writer(Size(cert));
      var ok := writer.PutCertificate(w, cert);
      digest := None;
      if ok {
        assert writer.Written() == Encode(w, cert);
        digest := Some(mac(writer.Written()));
      }
      cert := cert.(checkSize := size);
    }

    /** `verify_rim_certificate` for an internal certificate. */
    method VerifyInternally(w: Wire, mac: Mac) returns (r: Reply)
      requires Sound(w) && Formed(cert)
      modifies this
      ensures cert == old(cert) && r == VerifyInternal(w, mac, cert)
    {
      var digest := ComputeHmac(w, mac);
      if digest.None? { return Refused(FAIL); }
      if |cert.check| < DIGEST || digest.value != cert.check[..DIGEST] { return Refused(AUTHFAIL); }
      r := Accepted;
    }

    /** `verify_rim_certificate` for a certificate with a parent key, whose signature check needs
        the digest of the marshalled certificate. */
    method VerifyWithKey(parent: Option<Key>) returns (r: Reply)
      requires Formed(cert)
      ensures r == VerifySigned(cert, parent)
      ensures r == Accepted <==>
        parent.Some? && parent.value.rsa && parent.value.signed && cert.selectSize <= 3
    {
      if parent.None? { return Refused(KEYNOTFOUND); }
      if cert.selectSize > SELECT_BYTES { return Refused(FAIL); }
      if !parent.value.rsa { return Refused(BAD_SCHEME); }
      r := if parent.value.signed then Accepted else Refused(AUTHFAIL);
    }

    /** `MTM_VerifyRIMCert`. A certificate with a parent key is accepted exactly when the named key
        is that parent and may sign certificates, the parent's signature holds, and the counter
        that the certificate refers to has not passed it. */
    method VerifyCertificate(w: Wire, mac: Mac, named: Option<Key>, parent: Option<Key>, bootstrap: nat,
                             rimProtect: nat) returns (r: Reply)
      requires Sound(w) && Formed(cert)
      modifies this
      ensures cert == old(cert) && r == Verify(w, mac, cert, named, parent, bootstrap, rimProtect)
      ensures cert.parent != 0xffff_fffe ==>
        (r == Accepted <==>
          && cert.tag == 0x0302 && cert.parent != 0xffff_ffff && cert.selectSize <= 3
          && named.Some? && named.value.signs && named.value.id == cert.parent
          && parent.Some? && parent.value.rsa && parent.value.signed
          && cert.selection <= 3 && (cert.selection == 1 ==> cert.counter >= bootstrap)
          && (cert.selection == 2 ==> cert.counter >= rimProtect))
      ensures cert.parent == 0xffff_fffe ==>
        (r == Accepted <==>
          && cert.tag == 0x0302 && cert.selectSize <= 3 && |cert.check| >= 20
          && cert.check[..20] == mac(Encode(w, cert.(checkSize := 0))))
    {
      if cert.tag != TAG { return Refused(BAD_PARAMETER); }
      if cert.parent == ID_NONE { return Refused(AUTHFAIL); }
      if cert.parent == ID_INTERNAL {
        r := VerifyInternally(w, mac);
        return;
      }
      if named.None? { return Refused(KEYNOTFOUND); }
      if !named.value.signs { return Refused(INVALID_KEYUSAGE); }
      if cert.parent != named.value.id { return Refused(AUTHFAIL); }
      r := VerifyWithKey(parent);
      if r != Accepted { return; }
      if cert.selection > SELECT_MAX { return Refused(BAD_COUNTER); }
      if cert.selection == BOOTSTRAP {
        if cert.counter < bootstrap { return Refused(BAD_COUNTER); }
      }
      if cert.selection == RIMPROTECT {
        if cert.counter < rimProtect { return Refused(BAD_COUNTER); }
      }
    }
  }

  /** `MTM_InstallRIM` after authorization. */
  method InstallRim(w: Wire, mac: Mac, input: Certificate, rimProtect: nat) returns (r: Installed)
    requires Sound(w) && IsMac(mac) && Formed(input.cert)
    modifies input
    ensures r == Install(w, mac, old(input.cert), rimProtect)
    ensures r.Issued? <==> old(input.cert).tag == 0x0302 && old(input.cert).selectSize <= 3
    ensures r.Issued? ==>
      && r.cert.parent == 0xffff_fffe && r.cert.check == mac(Encode(w, r.cert.(checkSize := 0)))
      && r.cert.selection == (if old(input.cert).selection == 0 then 0 else 2)
      && r.cert.counter == (if old(input.cert).selection == 0 then 0 else (rimProtect + 1) % 0x1_0000_0000)
    ensures input.cert == if old(input.cert).tag != TAG then old(input.cert) else old(input.cert).(checkSize := DIGEST)
  {
    if input.cert.tag != TAG { return Rejected(BAD_PARAMETER); }
    input.cert := input.cert.(checkSize := DIGEST);
    var output := new Certificate(input.cert.(check := Zeros(DIGEST)));
    if input.cert.selection != SELECT_NONE {
      output.cert := output.cert.(counter := (rimProtect + 1) % TWO32);
      output.cert := output.cert.(selection := RIMPROTECT);
    } else {
      output.cert := output.cert.(counter := 0);
    }
    output.cert := output.cert.(parent := ID_INTERNAL);
    var digest := output.ComputeHmac(w, mac);
    if digest.None? { return Rejected(FAIL); }
    output.cert := output.cert.(check := digest.value);
    r := Issued(output.cert);
  }
}
