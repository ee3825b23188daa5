/** What the completion pipeline makes of an envelope (apps/api/src/modules/signing/completion.ts):
    the stamped document, the certificate, the seal, and the people who are sent the pair. A
    saved PDF is its bytes together with what it shows: two saves of the same thing may differ
    in bytes, and a fingerprint covers the bytes. */
module Completion {
  import opened Wrappers
  import opened JsText
  import opened Seal
  import opened Envelope
  import FieldRules
  import FieldValues

  datatype Pass = Pass(fields: seq<FieldRules.Field>, values: FieldValues.Values, image: ObjectKey)

  datatype Listing = Listing(email: string, viewedAt: Option<int>, consentAt: Option<int>, signedAt: Option<int>)

  datatype Content =
    | Stamped(passes: seq<Pass>)
    | Certificate(signers: seq<Listing>, sealed: Payload, mark: Mark, kid: string)

  datatype Pdf = Pdf(bytes: Bytes, shows: Content)

  datatype Artifacts = Artifacts(
    pdfKey: ObjectKey, certificateKey: ObjectKey, documentHash: JsString, mark: Mark, kid: string)

  /** The five artifact columns of a request's row. */
  datatype Columns = Columns(
    pdfKey: Option<ObjectKey>, certificateKey: Option<ObjectKey>, documentHash: Option<JsString>,
    mark: Option<Mark>, kid: Option<string>)

  const UNSEALED := Columns(None, None, None, None, None)

  function Sealing(a: Artifacts): Columns {
    Columns(Some(a.pdfKey), Some(a.certificateKey), Some(a.documentHash), Some(a.mark), Some(a.kid))
  }

  // ----- the rows a query may return

  /** Every row once. */
  predicate IsEveryone(n: nat, order: seq<nat>) {
    && (forall k :: 0 <= k < |order| ==> order[k] < n)
    && (forall k, l :: 0 <= k < l < |order| ==> order[k] != order[l])
    && (forall i: nat :: i < n ==> i in order)
  }

  /** Every row once, by routing order; rows of one group come in any order. */
  predicate IsInRoutingOrder(people: seq<Recipient>, order: seq<nat>) {
    && IsEveryone(|people|, order)
    && (forall k, l :: 0 <= k < l < |order| ==> people[order[k]].order <= people[order[l]].order)
  }

  predicate InRows(people: seq<Recipient>, order: seq<nat>) {
    forall k :: 0 <= k < |order| ==> order[k] < |people|
  }

  function SignersIn(people: seq<Recipient>, order: seq<nat>): (signers: seq<nat>)
    requires InRows(people, order)
    ensures InRows(people, signers)
  {
    if order == [] then []
    else (if people[order[0]].role == Signer then [order[0]] else []) + SignersIn(people, order[1..])
  }

  predicate HasStampableSignature(r: Recipient) {
    r.role == Signer && r.status == Completed && r.image.Some?
  }

  function PassOf(q: Request, r: Recipient): Pass
    requires HasStampableSignature(r)
  {
    Pass(FieldsOf(q, r.key), r.values, r.image.value)
  }

  /** One pass per person who has signed: their own fields, values and mark. */
  function PassesFor(q: Request, people: seq<Recipient>, order: seq<nat>): seq<Pass>
    requires InRows(people, order)
  {
    if order == [] then []
    else
      var r := people[order[0]];
      (if HasStampableSignature(r) then [PassOf(q, r)] else [])
      + PassesFor(q, people, order[1..])
  }

  function ListingOf(r: Recipient): Listing {
    Listing(r.email, r.viewedAt, r.consentAt, r.completedAt)
  }

  function ListingsFor(people: seq<Recipient>, order: seq<nat>): seq<Listing>
    requires InRows(people, order)
  {
    if order == [] then []
    else
      var r := people[order[0]];
      (if r.role == Signer then [ListingOf(r)] else []) + ListingsFor(people, order[1..])
  }

  // ----- signers, passes and listings go together

  lemma {:induction false} SignersInOrder(people: seq<Recipient>, order: seq<nat>)
    requires InRows(people, order)
    requires forall k, l :: 0 <= k < l < |order| ==> order[k] != order[l]
    requires forall k, l :: 0 <= k < l < |order| ==> people[order[k]].order <= people[order[l]].order
    ensures var signers := SignersIn(people, order);
            && (forall i: nat :: i in signers <==> i in order && people[i].role == Signer)
            && (forall k, l :: 0 <= k < l < |signers| ==> signers[k] != signers[l])
            && (forall k, l :: 0 <= k < l < |signers| ==> people[signers[k]].order <= people[signers[l]].order)
  {
    if order != [] {
      SignersInOrder(people, order[1..]);
      assert order == [order[0]] + order[1..];
    }
  }

  /** What a pass stamps for one signer: exactly the fields the sender gave them, in layout order,
      with the values and the mark of their row. */
  predicate IsPassOf(q: Request, r: Recipient, pass: Pass) {
    IsSelection(q.fields, r.key, pass.fields) && pass.values == r.values && Some(pass.image) == r.image
  }

  /** What a certificate says of one signer: the address and the moments of their row. */
  predicate IsListingOf(r: Recipient, listing: Listing) {
    && listing.email == r.email && listing.viewedAt == r.viewedAt
    && listing.consentAt == r.consentAt && listing.signedAt == r.completedAt
  }

  lemma PassMeaning(q: Request, r: Recipient)
    requires HasStampableSignature(r)
    ensures IsPassOf(q, r, PassOf(q, r)) && IsListingOf(r, ListingOf(r))
  {
    hide IsSelection, FieldsOf;
    FieldsOfMeaning(q, r.key);
  }

  lemma {:induction false} OnePassAndListingEach(q: Request, people: seq<Recipient>, order: seq<nat>)
    requires InRows(people, order)
    requires forall i :: 0 <= i < |people| && people[i].role == Signer ==> HasStampableSignature(people[i])
    ensures var signers := SignersIn(people, order);
            && |PassesFor(q, people, order)| == |ListingsFor(people, order)| == |signers|
            && (forall k :: 0 <= k < |signers| ==>
                  && IsPassOf(q, people[signers[k]], PassesFor(q, people, order)[k])
                  && IsListingOf(people[signers[k]], ListingsFor(people, order)[k]))
  {
    hide PassOf, ListingOf, IsPassOf, IsListingOf;
    if order != [] {
      var rest, r := order[1..], people[order[0]];
      OnePassAndListingEach(q, people, rest);
      if r.role == Signer {
        PassMeaning(q, r);
      }
      if r.role == Signer {
        assert SignersIn(people, order) == [order[0]] + SignersIn(people, rest);
        assert PassesFor(q, people, order) == [PassOf(q, r)] + PassesFor(q, people, rest);
        assert ListingsFor(people, order) == [ListingOf(r)] + ListingsFor(people, rest);
      } else {
        assert SignersIn(people, order) == SignersIn(people, rest);
        assert PassesFor(q, people, order) == PassesFor(q, people, rest);
        assert ListingsFor(people, order) == ListingsFor(people, rest);
      }
    }
  }

  /** Rows that agree on their signers give the same document and the same certificate. */
  lemma {:induction false} OnlySignersMatter(q: Request, a: seq<Recipient>, b: seq<Recipient>, order: seq<nat>)
    requires |a| == |b| && InRows(a, order)
    requires forall i :: 0 <= i < |a| ==> b[i].role == a[i].role && (a[i].role == Signer ==> b[i] == a[i])
    ensures InRows(b, order)
    ensures PassesFor(q, b, order) == PassesFor(q, a, order) && ListingsFor(b, order) == ListingsFor(a, order)
  {
    if order != [] {
      OnlySignersMatter(q, a, b, order[1..]);
    }
  }

  // ----- who is sent the pair

  function LowerUnit(c: char): char {
    if 'A' <= c <= 'Z' then (c as int + 32) as char else c
  }

  /** `toLowerCase` on the characters an address can hold. */
  function Lower(s: string): string {
    seq(|s|, i requires 0 <= i < |s| => LowerUnit(s[i]))
  }

  /** The same letters, in either case. */
  predicate IsSameButCase(a: string, b: string) {
    && |a| == |b|
    && forall i :: 0 <= i < |a| ==>
         || a[i] == b[i]
         || ('A' <= a[i] <= 'Z' && b[i] as int == a[i] as int + 32)
         || ('A' <= b[i] <= 'Z' && a[i] as int == b[i] as int + 32)
  }

  lemma LowerMeaning(a: string, b: string)
    ensures Lower(a) == Lower(b) <==> IsSameButCase(a, b)
  {
    forall i | 0 <= i < |a| == |b|
      ensures Lower(a)[i] == Lower(b)[i]
         <==> || a[i] == b[i]
              || ('A' <= a[i] <= 'Z' && b[i] as int == a[i] as int + 32)
              || ('A' <= b[i] <= 'Z' && a[i] as int == b[i] as int + 32)
    {
    }
    if Lower(a) == Lower(b) {
      assert |a| == |Lower(a)| == |Lower(b)| == |b|;
    }
  }

  /** The recipients' addresses in row order, each person once. */
  function Copies(people: seq<Recipient>, order: seq<nat>, seen: set<string>): seq<string>
    requires InRows(people, order)
  {
    if order == [] then []
    else
      var email := people[order[0]].email;
      if Lower(email) in seen then Copies(people, order[1..], seen)
      else [email] + Copies(people, order[1..], seen + {Lower(email)})
  }

  function LowerSet(addresses: seq<string>): set<string> {
    set address | address in addresses :: Lower(address)
  }

  /** Everyone on the envelope, then the sender unless they already were. */
  function Audience(people: seq<Recipient>, order: seq<nat>, sender: Option<string>): seq<string>
    requires InRows(people, order)
  {
    var copies := Copies(people, order, {});
    if sender.Some? && sender.value != "" && Lower(sender.value) !in LowerSet(copies)
    then copies + [sender.value]
    else copies
  }

  predicate IsOwedACopy(people: seq<Recipient>, sender: Option<string>, address: string) {
    || (exists i :: 0 <= i < |people| && people[i].email == address)
    || (sender == Some(address) && address != "")
  }

  predicate HasDistinctReaders(addresses: seq<string>) {
    forall k, l :: 0 <= k < l < |addresses| ==> Lower(addresses[k]) != Lower(addresses[l])
  }

  lemma {:induction false} CopiesAreOnTheRows(people: seq<Recipient>, order: seq<nat>, seen: set<string>)
    requires InRows(people, order)
    ensures forall address :: address in Copies(people, order, seen) ==>
              exists i :: 0 <= i < |people| && people[i].email == address
  {
    hide Lower;
    if order != [] {
      var email := people[order[0]].email;
      CopiesAreOnTheRows(people, order[1..], seen);
      CopiesAreOnTheRows(people, order[1..], seen + {Lower(email)});
    }
  }

  lemma {:induction false} CopiesMeaning(people: seq<Recipient>, order: seq<nat>, seen: set<string>)
    requires InRows(people, order)
    ensures var copies := Copies(people, order, seen);
            && HasDistinctReaders(copies)
            && (forall k :: 0 <= k < |copies| ==> Lower(copies[k]) !in seen)
            && (forall k :: 0 <= k < |order| ==>
                  Lower(people[order[k]].email) in seen || Lower(people[order[k]].email) in LowerSet(copies))
  {
    hide Lower;
    if order != [] {
      var email := people[order[0]].email;
      var rest := order[1..];
      var copies := Copies(people, order, seen);
      if Lower(email) in seen {
        CopiesMeaning(people, rest, seen);
      } else {
        CopiesMeaning(people, rest, seen + {Lower(email)});
        var later := Copies(people, rest, seen + {Lower(email)});
        assert copies[0] == email && forall address :: address in later ==> address in copies;
      }
      forall k | 0 <= k < |order|
        ensures Lower(people[order[k]].email) in seen || Lower(people[order[k]].email) in LowerSet(copies)
      {
        assert k > 0 ==> rest[k - 1] == order[k];
      }
    }
  }

  /** Everyone who is owed a copy is sent one, nobody else is, and nobody is sent two. */
  lemma AudienceMeaning(people: seq<Recipient>, order: seq<nat>, sender: Option<string>)
    requires IsEveryone(|people|, order)
    ensures var list := Audience(people, order, sender);
            && HasDistinctReaders(list)
            && (forall address :: address in list ==> IsOwedACopy(people, sender, address))
            && (forall address :: IsOwedACopy(people, sender, address) ==> Lower(address) in LowerSet(list))
  {
    hide Lower;
    CopiesMeaning(people, order, {});
    CopiesAreOnTheRows(people, order, {});
    var copies, list := Copies(people, order, {}), Audience(people, order, sender);
    assert LowerSet(copies) <= LowerSet(list);
    if list != copies {
      assert list[|copies|] == sender.value;
    }
    forall address | IsOwedACopy(people, sender, address) ensures Lower(address) in LowerSet(list) {
      if i :| 0 <= i < |people| && people[i].email == address {
        assert i in order;
      } else if list != copies {
        assert list[|copies|] == address;
      }
    }
  }
}
