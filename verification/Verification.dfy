/** The two tamper checks: the sender's, which re-hashes the stored copy
    (apps/api/src/modules/signature-requests/signature-requests.service.ts), and the public one,
    which is asked about a fingerprint (apps/api/src/modules/verify/verify.service.ts). */
module Verification {
  import opened Wrappers
  import opened JsText
  import opened Seal
  import opened Completion

  const MAX_VERIFY_BYTES := 64 * 1024 * 1024

  datatype VerifyError = TooLarge

  datatype VerifyResult = VerifyResult(
    valid: bool, computedHash: Option<JsString>, recordedHash: Option<JsString>,
    hashMatches: bool, sealValid: bool, sealKid: Option<string>)

  /** The verdict on `bytes` as the stored copy of request `id`. */
  function Verdict(id: JsString, c: Columns, completedAt: Option<int>, ring: Ring, bytes: Bytes)
    : Result<VerifyResult, VerifyError>
  {
    if c.pdfKey.None? || c.documentHash.None? || c.mark.None? || c.kid.None? || completedAt.None? then
      Ok(VerifyResult(false, None, c.documentHash, false, false, c.kid))
    else if |bytes| > MAX_VERIFY_BYTES then Err(TooLarge)
    else
      var computed := Sha256Hex(bytes);
      var hashMatches := computed == c.documentHash.value;
      var sealValid := VerifyMark(ring, Payload(id, completedAt.value, computed), c.mark.value, c.kid.value);
      Ok(VerifyResult(hashMatches && sealValid, Some(computed), c.documentHash, hashMatches, sealValid, c.kid))
  }

  /** Whatever is on the row, lifted from elsewhere or not: the copy is valid exactly when its
      fingerprint is the recorded one and the recorded seal is one a key of the ring made for this
      request, this moment and this fingerprint. */
  lemma VerdictMeaning(id: JsString, c: Columns, completedAt: Option<int>, ring: Ring, bytes: Bytes)
    ensures var answer := Verdict(id, c, completedAt, ring, bytes);
            (answer.Ok? && answer.value.valid)
            <==> && |bytes| <= MAX_VERIFY_BYTES && c.pdfKey.Some? && c.documentHash == Some(Sha256Hex(bytes))
                 && completedAt.Some? && c.kid.Some? && c.kid.value in ring
                 && c.mark == Some(Mark(ring[c.kid.value],
                                        CanonicalBytes(Payload(id, completedAt.value, Sha256Hex(bytes)))))
  {
    hide Sha256Hex, CanonicalBytes;
  }

  function Concat(chunks: seq<Bytes>): Bytes {
    if chunks == [] then [] else Concat(chunks[..|chunks| - 1]) + chunks[|chunks| - 1]
  }

  lemma {:induction false} ConcatLength(chunks: seq<Bytes>, n: nat)
    requires n <= |chunks|
    ensures |Concat(chunks[..n])| <= |Concat(chunks)|
    decreases |chunks|
  {
    var init := if chunks == [] then [] else chunks[..|chunks| - 1];
    if n < |chunks| {
      ConcatLength(init, n);
      assert init[..n] == chunks[..n];
    } else {
      assert chunks[..n] == chunks;
    }
  }

  /** `verify`: the stored copy is hashed as it streams, and given up on past the cap. */
  method Verify(id: JsString, c: Columns, completedAt: Option<int>, ring: Ring, stream: seq<Bytes>)
    returns (result: Result<VerifyResult, VerifyError>)
    ensures result == Verdict(id, c, completedAt, ring, Concat(stream))
  {
    if c.pdfKey.None? || c.documentHash.None? || c.mark.None? || c.kid.None? || completedAt.None? {
      return Ok(VerifyResult(false, None, c.documentHash, false, false, c.kid));
    }
    var read := 0;
    var digested: Bytes := [];
    for i := 0 to |stream|
      invariant digested == Concat(stream[..i])
      invariant read == |digested| <= MAX_VERIFY_BYTES
    {
      assert stream[..i + 1][..i] == stream[..i];
      read := read + |stream[i]|;
      if read > MAX_VERIFY_BYTES {
        ConcatLength(stream, i + 1);
        return Err(TooLarge);
      }
      digested := digested + stream[i];
    }
    assert stream[..|stream|] == stream;
    var computedHash := Sha256Hex(digested);
    var hashMatches := computedHash == c.documentHash.value;
    var sealValid := VerifyMark(ring, Payload(id, completedAt.value, computedHash), c.mark.value, c.kid.value);
    return Ok(VerifyResult(hashMatches && sealValid, Some(computedHash), c.documentHash,
                           hashMatches, sealValid, c.kid));
  }

  // ----- the public check

  datatype SealRow = SealRow(request: JsString, completedAt: int, mark: Mark, kid: string)

  datatype PublicResult = PublicResult(verified: bool, sealedAt: Option<int>, sealKid: Option<string>)

  /** `byHash`, given the row its one query found, if any. */
  function ByHash(found: Option<SealRow>, documentHash: JsString, ring: Ring): PublicResult {
    if found.None? then PublicResult(false, None, None)
    else
      var row := found.value;
      if VerifyMark(ring, Payload(row.request, row.completedAt, documentHash), row.mark, row.kid)
      then PublicResult(true, Some(row.completedAt), Some(row.kid))
      else PublicResult(false, None, None)
  }

  /** Whatever row the lookup came back with, the answer is yes exactly when its seal is one a key
      of the ring made for that row's request and moment and for this very fingerprint. */
  lemma PublicVerdictMeaning(found: Option<SealRow>, documentHash: JsString, ring: Ring)
    ensures var answer := ByHash(found, documentHash, ring);
            && (answer.verified <==>
                  && found.Some? && found.value.kid in ring
                  && found.value.mark ==
                     Mark(ring[found.value.kid],
                          CanonicalBytes(Payload(found.value.request, found.value.completedAt, documentHash))))
            && (answer.verified ==>
                  answer.sealedAt == Some(found.value.completedAt) && answer.sealKid == Some(found.value.kid))
            && (!answer.verified ==> answer.sealedAt.None? && answer.sealKid.None?)
  {
    hide CanonicalBytes;
  }

  /** So a row that carries the seal of another document, request or moment is never verified. */
  lemma LiftedSealIsRefused(row: SealRow, documentHash: JsString, q: Payload, ring: Ring)
    requires row.kid in ring && row.mark == Mark(ring[row.kid], CanonicalBytes(q)) && IsClean(q)
    requires IsClean(Payload(row.request, row.completedAt, documentHash))
    ensures ByHash(Some(row), documentHash, ring).verified <==> q == Payload(row.request, row.completedAt, documentHash)
  {
    hide CanonicalBytes, IsClean;
    if ByHash(Some(row), documentHash, ring).verified {
      CanonicalBytesInjective(Payload(row.request, row.completedAt, documentHash), q);
    }
  }
}
