/** metrics/utils.go: splitting a PEM blob into its certificates and reading the
    validity end of each. The PEM decoder and the X.509 parser are library code and
    appear as the two functions of a `Codec`. */
module Certificates {
  import opened Common
  import opened Text

  /** `pem.Block`, reduced to its payload, which may be nil. */
  datatype Block = Block(bytes: Option<seq<bv8>>)

  /** The two library calls: `decode` is `pem.Decode` (the block at the start of the
      data, if any, and the data after it); `parse` is `x509.ParseCertificate` followed
      by reading `NotAfter` as seconds since the epoch. */
  datatype Codec = Codec(decode: string -> (Option<Block>, string), parse: seq<bv8> -> Result<int>)

  /** What the loop needs of `pem.Decode`: a block that is found is consumed, so the
      rest is strictly shorter than the data. */
  ghost predicate Consumes(c: Codec) {
    forall d :: c.decode(d).0.Some? ==> |c.decode(d).1| < |d|
  }

  /** `certificate`: the position of a block in its blob, and its validity end when it
      could be read. */
  datatype Certificate = Certificate(index: nat, notAfter: Option<int>)

  /** The pair `processCertificates` returns. */
  datatype Processed = Processed(certs: seq<Certificate>, err: Option<Error>)

  /** The error of a block that does not decode. */
  const InvalidPem: Error := Error("invalid pem decode")

  /** The outcome of the first block of non-empty data: its expiry, or the error that
      stops the loop (a missing block or payload, or a parse failure). */
  function FirstExpiry(c: Codec, data: string): Result<int> {
    var block := c.decode(data).0;
    if block.None? || block.value.bytes.None? then Err(InvalidPem) else c.parse(block.value.bytes.value)
  }

  /** What the loop goes on with: the rest after the first block, whitespace-trimmed.
      After a readable block it is strictly shorter than the data. */
  function Remainder(c: Codec, data: string): (r: string)
    requires Consumes(c)
    ensures FirstExpiry(c, data).Ok? ==> |r| < |data|
  {
    TrimSpace(c.decode(data).1)
  }

  /** The certificates of `data`, numbered from `idx`: either an entry without expiry
      and the error that stops the loop, or the first block's expiry followed by the
      certificates of the remainder. */
  function ProcessFrom(c: Codec, data: string, idx: nat): Processed
    requires Consumes(c)
    decreases |data|
  {
    if |data| == 0 then Processed([], None)
    else match FirstExpiry(c, data)
      case Err(e) => Processed([Certificate(idx, None)], Some(e))
      case Ok(t) =>
        var tail := ProcessFrom(c, Remainder(c, data), idx + 1);
        Processed([Certificate(idx, Some(t))] + tail.certs, tail.err)
  }

  /** `res` in front of what is still to come. */
  function Prefixed(res: seq<Certificate>, p: Processed): Processed {
    Processed(res + p.certs, p.err)
  }

  /** Indices are consecutive from `idx`, in blob order. */
  lemma {:induction false} ProcessIndices(c: Codec, data: string, idx: nat)
    requires Consumes(c)
    ensures forall i :: 0 <= i < |ProcessFrom(c, data, idx).certs| ==> ProcessFrom(c, data, idx).certs[i].index == idx + i
    decreases |data|
  {
    if |data| != 0 {
      if FirstExpiry(c, data).Ok? {
        var t := FirstExpiry(c, data).value;
        var tail := ProcessFrom(c, Remainder(c, data), idx + 1);
        ProcessIndices(c, Remainder(c, data), idx + 1);
        var certs := [Certificate(idx, Some(t))] + tail.certs;
        assert ProcessFrom(c, data, idx).certs == certs;
        forall i | 0 <= i < |certs|
          ensures certs[i].index == idx + i
        {
          if i > 0 { assert certs[i] == tail.certs[i - 1]; }
        }
      }
    }
  }

  /** At most one entry per character of the data; empty data gives no entry and no error. */
  lemma {:induction false} ProcessBound(c: Codec, data: string, idx: nat)
    requires Consumes(c)
    ensures |ProcessFrom(c, data, idx).certs| <= |data|
    ensures |data| == 0 ==> ProcessFrom(c, data, idx) == Processed([], None)
    decreases |data|
  {
    if |data| != 0 {
      if FirstExpiry(c, data).Ok? {
        ProcessBound(c, Remainder(c, data), idx + 1);
      }
    }
  }

  /** Without an error every entry carries an expiry. */
  lemma {:induction false} ProcessNoError(c: Codec, data: string, idx: nat)
    requires Consumes(c)
    ensures var p := ProcessFrom(c, data, idx);
      p.err.None? ==> forall i :: 0 <= i < |p.certs| ==> p.certs[i].notAfter.Some?
    decreases |data|
  {
    if |data| != 0 {
      if FirstExpiry(c, data).Ok? {
        var t := FirstExpiry(c, data).value;
        var tail := ProcessFrom(c, Remainder(c, data), idx + 1);
        ProcessNoError(c, Remainder(c, data), idx + 1);
        var certs := [Certificate(idx, Some(t))] + tail.certs;
        assert ProcessFrom(c, data, idx) == Processed(certs, tail.err);
        if tail.err.None? {
          forall i | 0 <= i < |certs|
            ensures certs[i].notAfter.Some?
          {
            if i > 0 { assert certs[i] == tail.certs[i - 1]; }
          }
        }
      } else {
        assert ProcessFrom(c, data, idx).err.Some?;
      }
    }
  }

  /** An error comes with a last entry that has no expiry, after entries that all have one. */
  lemma {:induction false} ProcessErrorLast(c: Codec, data: string, idx: nat)
    requires Consumes(c)
    ensures var p := ProcessFrom(c, data, idx);
      p.err.Some? ==> |p.certs| > 0 && p.certs[|p.certs| - 1].notAfter.None?
                      && forall i :: 0 <= i < |p.certs| - 1 ==> p.certs[i].notAfter.Some?
    decreases |data|
  {
    if |data| != 0 {
      if FirstExpiry(c, data).Ok? {
        var t := FirstExpiry(c, data).value;
        var tail := ProcessFrom(c, Remainder(c, data), idx + 1);
        ProcessErrorLast(c, Remainder(c, data), idx + 1);
        var certs := [Certificate(idx, Some(t))] + tail.certs;
        assert ProcessFrom(c, data, idx) == Processed(certs, tail.err);
        if tail.err.Some? {
          assert certs[|certs| - 1] == tail.certs[|tail.certs| - 1];
          forall i | 0 <= i < |certs| - 1
            ensures certs[i].notAfter.Some?
          {
            if i > 0 { assert certs[i] == tail.certs[i - 1]; }
          }
        }
      } else {
        assert ProcessFrom(c, data, idx).certs == [Certificate(idx, None)];
      }
    }
  }

  /** There is no error exactly when every entry carries an expiry. */
  lemma ProcessExpiry(c: Codec, data: string, idx: nat)
    requires Consumes(c)
    ensures var p := ProcessFrom(c, data, idx);
      p.err.None? <==> forall i :: 0 <= i < |p.certs| ==> p.certs[i].notAfter.Some?
  {
    ProcessNoError(c, data, idx);
    ProcessErrorLast(c, data, idx);
  }

  /** `processCertificates`: decode, trim, check, parse and append, block after block,
      while data remains; the first decode or parse failure appends an entry without
      expiry and returns with the error. */
  method ProcessCertificates(c: Codec, content: string) returns (certs: seq<Certificate>, err: Option<Error>)
    requires Consumes(c)
    ensures Processed(certs, err) == ProcessFrom(c, content, 0)
  {
    var res: seq<Certificate> := [];
    var data := content;
    var idx: nat := 0;
    assert Prefixed([], ProcessFrom(c, data, idx)).certs == ProcessFrom(c, data, idx).certs;
    while |data| != 0
      invariant ProcessFrom(c, content, 0) == Prefixed(res, ProcessFrom(c, data, idx))
      decreases |data|
    {
      var (block, rest) := c.decode(data);
      var dataStr := Remainder(c, data);
      ghost var before := data;
      data := dataStr;
      if block.None? || block.value.bytes.None? {
        res := res + [Certificate(idx, None)];
        return res, Some(InvalidPem);
      }
      var cert := c.parse(block.value.bytes.value);
      if cert.Err? {
        res := res + [Certificate(idx, None)];
        return res, Some(cert.error);
      }
      assert ProcessFrom(c, before, idx).certs == [Certificate(idx, Some(cert.value))] + ProcessFrom(c, data, idx + 1).certs;
      assert res + ProcessFrom(c, before, idx).certs == (res + [Certificate(idx, Some(cert.value))]) + ProcessFrom(c, data, idx + 1).certs;
      res := res + [Certificate(idx, Some(cert.value))];
      idx := idx + 1;
    }
    assert res + [] == res;
    return res, None;
  }
}
