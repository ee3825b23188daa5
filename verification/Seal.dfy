/** The document seal (packages/crypto/src/seal.ts) over an ideal signature scheme: a signature
    is the pair of the private key and the message, so it verifies for that key and that message
    and for nothing else (section 5.1 of RFC 8032 is the scheme it stands for). */
module Seal {
  import opened Wrappers
  import opened JsText
  import opened IsoTime

  // ----- bytes and their fingerprint

  type Byte = b: int | 0 <= b < 256

  type Bytes = seq<Byte>

  function HexDigit(n: int): Unit
    requires 0 <= n < 16
  {
    if n < 10 then 0x30 + n else 0x57 + n
  }

  /** A collision-free digest in lower-case hex: the bytes themselves, written out. */
  function Sha256Hex(bytes: Bytes): JsString {
    seq(2 * |bytes|, i requires 0 <= i < 2 * |bytes| =>
      HexDigit(if i % 2 == 0 then bytes[i / 2] / 16 else bytes[i / 2] % 16))
  }

  lemma DigestInjective(a: Bytes, b: Bytes)
    requires Sha256Hex(a) == Sha256Hex(b)
    ensures a == b
  {
    assert |a| == |b| by {
      assert |Sha256Hex(a)| == |Sha256Hex(b)|;
    }
    forall i | 0 <= i < |a| ensures a[i] == b[i] {
      assert Sha256Hex(a)[2 * i] == HexDigit(a[i] / 16) && Sha256Hex(b)[2 * i] == HexDigit(b[i] / 16);
      assert (2 * i + 1) % 2 == 1 && (2 * i + 1) / 2 == i;
      assert Sha256Hex(a)[2 * i + 1] == HexDigit(a[i] % 16) && Sha256Hex(b)[2 * i + 1] == HexDigit(b[i] % 16);
    }
  }

  // ----- the signed message

  datatype Payload = Payload(requestId: JsString, signedAt: int, documentHash: JsString)

  const BAR: Unit := 0x7C

  /** `docflow-seal-v1`. */
  const VERSION: JsString :=
    [0x64, 0x6F, 0x63, 0x66, 0x6C, 0x6F, 0x77, 0x2D, 0x73, 0x65, 0x61, 0x6C, 0x2D, 0x76, 0x31]

  function CanonicalBytes(p: Payload): JsString {
    VERSION + [BAR] + (p.requestId + ([BAR] + (IsoString(p.signedAt) + ([BAR] + p.documentHash))))
  }

  /** A uuid and a hex digest hold no delimiter, and a Date's year fits its text. */
  predicate IsClean(p: Payload) {
    BAR !in p.requestId && BAR !in p.documentHash && InRange(p.signedAt)
  }

  /** Splitting at the first delimiter is unambiguous. */
  lemma {:induction false} SplitAtBar(a: JsString, x: JsString, b: JsString, y: JsString)
    requires BAR !in a && BAR !in b && a + ([BAR] + x) == b + ([BAR] + y)
    ensures a == b && x == y
  {
    FirstBarIsNoLater(a, x, b, y);
    FirstBarIsNoLater(b, y, a, x);
    var s, r := a + ([BAR] + x), b + ([BAR] + y);
    assert a == s[..|a|] && b == r[..|b|];
    assert x == s[|a| + 1..] && y == r[|b| + 1..];
  }

  lemma FirstBarIsNoLater(a: JsString, x: JsString, b: JsString, y: JsString)
    requires BAR !in b && a + ([BAR] + x) == b + ([BAR] + y)
    ensures |b| <= |a|
  {
    var s, r := a + ([BAR] + x), b + ([BAR] + y);
    assert s[|a|] == BAR;
    assert forall i :: 0 <= i < |b| ==> r[i] == b[i];
    assert forall i :: 0 <= i < |b| ==> r[i] != BAR;
  }

  /** The signed bytes determine what they sign. */
  lemma CanonicalBytesInjective(p: Payload, q: Payload)
    requires IsClean(p) && IsClean(q) && CanonicalBytes(p) == CanonicalBytes(q)
    ensures p == q
  {
    hide IsoString, InRange;
    var n := |VERSION| + 1;
    var pRest := p.requestId + ([BAR] + (IsoString(p.signedAt) + ([BAR] + p.documentHash)));
    var qRest := q.requestId + ([BAR] + (IsoString(q.signedAt) + ([BAR] + q.documentHash)));
    assert CanonicalBytes(p)[n..] == pRest && CanonicalBytes(q)[n..] == qRest;
    SplitAtBar(p.requestId, IsoString(p.signedAt) + ([BAR] + p.documentHash),
               q.requestId, IsoString(q.signedAt) + ([BAR] + q.documentHash));
    IsoStringHasNoBar(p.signedAt);
    IsoStringHasNoBar(q.signedAt);
    SplitAtBar(IsoString(p.signedAt), p.documentHash, IsoString(q.signedAt), q.documentHash);
    IsoStringInjective(p.signedAt, q.signedAt);
  }

  /** For one request and one moment the signed bytes tell documents apart. */
  lemma SameButDocument(id: JsString, signedAt: int, a: JsString, b: JsString)
    requires CanonicalBytes(Payload(id, signedAt, a)) == CanonicalBytes(Payload(id, signedAt, b))
    ensures a == b
  {
    hide IsoString;
    var iso := IsoString(signedAt);
    var n := |VERSION| + 1 + |id| + 1 + |iso| + 1;
    assert CanonicalBytes(Payload(id, signedAt, a))[n..] == a;
    assert CanonicalBytes(Payload(id, signedAt, b))[n..] == b;
  }

  lemma DigestHasNoBar(bytes: Bytes)
    ensures BAR !in Sha256Hex(bytes)
  {
  }

  // ----- the key ring

  datatype KeyState = Active | Retiring

  datatype SealKey = SealKey(kid: string, privateKey: nat, isEd25519: bool, state: KeyState)

  datatype RingError = DuplicateKid | WrongKeyType | TwoActiveKeys | NoActiveKey

  datatype Mark = Mark(privateKey: nat, message: JsString)

  type Ring = map<string, nat>

  function VerifyMark(ring: Ring, p: Payload, mark: Mark, kid: string): bool {
    kid in ring && mark == Mark(ring[kid], CanonicalBytes(p))
  }

  // What a list of keys amounts to.

  function RingOf(keys: seq<SealKey>): Ring {
    if keys == [] then map[]
    else
      var n := |keys| - 1;
      RingOf(keys[..n])[keys[n].kid := keys[n].privateKey]
  }

  function ActiveKids(keys: seq<SealKey>): seq<string> {
    if keys == [] then []
    else
      var n := |keys| - 1;
      ActiveKids(keys[..n]) + (if keys[n].state == Active then [keys[n].kid] else [])
  }

  predicate HasDistinctKids(keys: seq<SealKey>) {
    forall i, j :: 0 <= i < j < |keys| ==> keys[i].kid != keys[j].kid
  }

  predicate IsSoundRing(keys: seq<SealKey>) {
    && HasDistinctKids(keys)
    && (forall i :: 0 <= i < |keys| ==> keys[i].isEd25519)
    && |ActiveKids(keys)| == 1 && ActiveKids(keys)[0] != ""
  }

  lemma {:induction false} RingOfKeys(keys: seq<SealKey>)
    ensures forall kid :: kid in RingOf(keys) <==> exists i :: 0 <= i < |keys| && keys[i].kid == kid
    ensures HasDistinctKids(keys) ==>
              forall i :: 0 <= i < |keys| ==> RingOf(keys)[keys[i].kid] == keys[i].privateKey
  {
    if keys != [] {
      var n := |keys| - 1;
      RingOfKeys(keys[..n]);
      assert keys == keys[..n] + [keys[n]];
      forall kid ensures kid in RingOf(keys) <==> exists i :: 0 <= i < |keys| && keys[i].kid == kid {
        if kid in RingOf(keys[..n]) {
          var i :| 0 <= i < n && keys[..n][i].kid == kid;
          assert keys[i].kid == kid;
        } else if kid == keys[n].kid {
          assert keys[n].kid == kid;
        } else {
          forall i | 0 <= i < |keys| ensures keys[i].kid != kid {
            assert i < n ==> keys[..n][i] == keys[i];
          }
        }
      }
    }
  }

  lemma {:induction false} ActiveKidsAreActive(keys: seq<SealKey>)
    ensures forall kid :: kid in ActiveKids(keys) <==>
              exists i :: 0 <= i < |keys| && keys[i].kid == kid && keys[i].state == Active
  {
    if keys != [] {
      var n := |keys| - 1;
      var init := keys[..n];
      ActiveKidsAreActive(init);
      forall i | 0 <= i < n && keys[i].state == Active ensures keys[i].kid in ActiveKids(init) {
        assert init[i] == keys[i];
      }
      forall kid | kid in ActiveKids(keys)
        ensures exists i :: 0 <= i < |keys| && keys[i].kid == kid && keys[i].state == Active
      {
        if kid in ActiveKids(init) {
          var i :| 0 <= i < |init| && init[i].kid == kid && init[i].state == Active;
          assert keys[i].kid == kid;
        } else {
          assert keys[n].kid == kid;
        }
      }
    }
  }

  class SealService {
    const entries: Ring
    const activeKid: string

    constructor (entries: Ring, activeKid: string)
      ensures this.entries == entries && this.activeKid == activeKid
    {
      this.entries := entries;
      this.activeKid := activeKid;
    }

    /** The constructor of the source, which throws where this answers with an error. */
    static method Build(keys: seq<SealKey>) returns (built: Result<SealService, RingError>)
      ensures built.Ok? <==> IsSoundRing(keys)
      ensures built.Ok? ==> built.value.entries == RingOf(keys) && [built.value.activeKid] == ActiveKids(keys)
      ensures built.Ok? ==> built.value.activeKid in built.value.entries
    {
      hide RingOf, ActiveKids, HasDistinctKids;
      var entries: Ring := map[];
      var active: Option<string> := None;
      NoKeysYet(keys);
      for i := 0 to |keys|
        invariant entries == RingOf(keys[..i])
        invariant HasDistinctKids(keys[..i])
        invariant forall k :: 0 <= k < i ==> keys[k].isEd25519
        invariant ActiveKids(keys[..i]) == if active.Some? then [active.value] else []
      {
        var entry := keys[i];
        NextKey(keys, i);
        if entry.kid in entries {
          return Err(DuplicateKid);
        }
        if !entry.isEd25519 {
          return Err(WrongKeyType);
        }
        entries := entries[entry.kid := entry.privateKey];
        if entry.state == Active {
          if active.Some? {
            MoreActive(keys, i + 1);
            return Err(TwoActiveKeys);
          }
          active := Some(entry.kid);
        }
      }
      assert keys[..|keys|] == keys;
      if active.None? || active.value == "" {
        return Err(NoActiveKey);
      }
      var service := new SealService(entries, active.value);
      ActiveIsInRing(keys, active.value);
      return Ok(service);
    }

    /** `seal`: only the active key signs. */
    method Sign(p: Payload) returns (mark: Mark, kid: string)
      requires activeKid in entries
      ensures kid == activeKid && mark == Mark(entries[kid], CanonicalBytes(p))
      ensures VerifyMark(entries, p, mark, kid)
    {
      kid := activeKid;
      mark := Mark(entries[kid], CanonicalBytes(p));
    }

    /** `verify`: an unknown key is a no, never an error. */
    method Verify(p: Payload, mark: Mark, kid: string) returns (valid: bool)
      ensures valid == VerifyMark(entries, p, mark, kid)
    {
      if kid !in entries {
        return false;
      }
      valid := mark.privateKey == entries[kid] && mark.message == CanonicalBytes(p);
    }
  }

  /** The loop's next key: it repeats a kid exactly when the ring already holds it. */
  lemma NextKey(keys: seq<SealKey>, i: nat)
    requires i < |keys| && HasDistinctKids(keys[..i])
    ensures keys[i].kid in RingOf(keys[..i]) ==> !HasDistinctKids(keys)
    ensures keys[i].kid !in RingOf(keys[..i]) ==> HasDistinctKids(keys[..i + 1])
    ensures RingOf(keys[..i + 1]) == RingOf(keys[..i])[keys[i].kid := keys[i].privateKey]
    ensures ActiveKids(keys[..i + 1]) ==
            ActiveKids(keys[..i]) + if keys[i].state == Active then [keys[i].kid] else []
  {
    assert keys[..i + 1][..i] == keys[..i];
    RingOfKeys(keys[..i]);
    if keys[i].kid in RingOf(keys[..i]) {
      var j :| 0 <= j < i && keys[..i][j].kid == keys[i].kid;
      assert keys[j].kid == keys[i].kid;
    } else {
      forall k, l | 0 <= k < l < i + 1 ensures keys[k].kid != keys[l].kid {
        assert l < i ==> keys[..i][k].kid != keys[..i][l].kid;
        assert l == i ==> keys[..i][k].kid != keys[l].kid;
      }
    }
  }

  lemma NoKeysYet(keys: seq<SealKey>)
    ensures RingOf(keys[..0]) == map[] && ActiveKids(keys[..0]) == [] && HasDistinctKids(keys[..0])
  {
  }

  lemma ActiveIsInRing(keys: seq<SealKey>, kid: string)
    requires ActiveKids(keys) == [kid]
    ensures kid in RingOf(keys)
  {
    hide RingOf, ActiveKids;
    ActiveKidsAreActive(keys);
    RingOfKeys(keys);
    assert kid in ActiveKids(keys);
  }

  /** Active keys only add up. */
  lemma {:induction false} MoreActive(keys: seq<SealKey>, n: nat)
    requires n <= |keys|
    ensures |ActiveKids(keys[..n])| <= |ActiveKids(keys)|
    decreases |keys|
  {
    if n < |keys| {
      var init := keys[..|keys| - 1];
      MoreActive(init, n);
      assert init[..n] == keys[..n];
    } else {
      assert keys[..n] == keys;
    }
  }

  // ----- what a seal is good for

  /** A ring may gain keys and retire them, but never lose or replace one. */
  predicate RingGrows(ring: Ring, later: Ring) {
    forall kid :: kid in ring ==> kid in later && later[kid] == ring[kid]
  }

  /** Retiring keys, activating others and adding new ones: the ring grows. */
  lemma RotationGrowsTheRing(keys: seq<SealKey>, later: seq<SealKey>)
    requires HasDistinctKids(keys) && HasDistinctKids(later)
    requires forall i :: 0 <= i < |keys| ==>
               exists j :: 0 <= j < |later| && later[j].kid == keys[i].kid && later[j].privateKey == keys[i].privateKey
    ensures RingGrows(RingOf(keys), RingOf(later))
  {
    RingOfKeys(keys);
    RingOfKeys(later);
  }

  /** A seal keeps verifying on every later ring, and on any ring it verifies for no other
      request, no other moment and no other document. */
  lemma SealIsBoundAndLasting(ring: Ring, later: Ring, p: Payload, q: Payload, mark: Mark, kid: string)
    requires VerifyMark(ring, p, mark, kid) && RingGrows(ring, later) && IsClean(p) && IsClean(q)
    ensures VerifyMark(later, q, mark, kid) <==> q == p
  {
    hide CanonicalBytes, IsClean;
    if VerifyMark(later, q, mark, kid) {
      CanonicalBytesInjective(p, q);
    }
  }
}
