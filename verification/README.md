# E-SIGNSOFT: verified core

A Dafny model of the parts of E-SIGNSOFT that have to be right for a signature to mean
something and for a payment to buy what it says: the signing protocol of an envelope with many
recipients, the pipeline that seals and delivers the finished document, the ledger of paid
periods behind two payment providers, and the smaller pieces of arithmetic and text handling
these rest on. `dafny verify dfyconfig.toml` checks everything.

## How it is laid out

| area | files |
|---|---|
| Calendar and text | `Calendar`, `IsoTime`, `JsText` |
| Fields, on both sides of the wire | `FieldRules`, `FieldValues`, `SignFields`, `TypedText` |
| The envelope | `Envelope` (what each transaction makes of the rows), `EnvelopeRows` (the rows, updated in place) |
| The signing protocol | `SigningRun` (the state machine), `SigningInvariant`, `SigningSafety`, `SigningLinks`, `SigningProgress`, `SigningStall` |
| Sealing and delivery | `Seal`, `Completion`, `CompletionRun`, `CompletionInvariant`, `CompletionSafety`, `CompletionProgress`, `CompletionJob`, `Verification` |
| Money | `Billing`, `BillingService`, `Ledger`, `PaymeApi`, `ClickApi`, `Callbacks`, `CallbackOutcomes` |
| The rest | `RateLimit`, `Certificate`, `Editor` |

**The signing protocol.** A request that presents a token is a task. It resolves the token, reads
the envelope's row, reads the person's row, and only then acts, each in a transaction of its own.
`SigningRun.Step` is one such transaction, a crash, an action of the sender, one half of a sweep,
or a tick of the clock; a run is any sequence of steps, so a submit can be overtaken at every point by voids,
resends, reminders, expiry and other submits. The functions of `Envelope` say what each
transaction makes of the rows; the methods of `EnvelopeRows.Rows` do it in place and are proved
to do exactly that.

**The completion pipeline.** `CompletionRun` puts any number of envelopes, each living through
its own signing run, beside any number of completion jobs on them. Two saves of the same PDF may
differ in their bytes, so two jobs for one envelope disagree on the fingerprint; the write-once
update of the row is what keeps the row, the object store, the seal and every emailed copy in
agreement. `CompletionJob` is the same job as one imperative method when nothing goes wrong
around it.

**The ledger.** `Ledger` interleaves checkouts, activations and cancellations in any order;
`Callbacks` drives it with sequences of Payme and Click callbacks, repeated at will, one at a
time. Calendar months follow section 21.4.1 of ECMA-262, written out in `Calendar`.

Signatures are ideal in the sense of section 5.1 of RFC 8032 (a signature verifies for the key
and message it was made with and no other) and the fingerprint is collision-free. Tokens, object
keys, clocks, saved bytes and row orders the database does not fix are parameters of the steps,
universally quantified in every theorem.

## What the code does not do

Most of the properties one would expect hold. These do not. The lemmas named give the exact
condition under which they do; for the void and the undo, a run that shows the failure:

- A cc listed between two signers of a sequential envelope stalls it for good: the cc is promoted
  and nobody is left to advance past it. `SigningStall.ProgressIffRoutable` gives the exact
  condition on the routing orders, `SigningStall.CcBetweenSignersIsUncovered` the smallest case.
- Between the last signer's claim and its advance the sender can still void: everybody has then
  signed, nothing crashed, and the envelope never completes (`SigningStall.LastSignatureCanLoseToVoid`).
- `addMonths` can swap two instants (`Calendar.ReversedWithinADay`), and misses 29 February of the
  year 0, because `Date.UTC` reads the years 0 to 99 as 1900 to 1999 (`Calendar.AddMonthsIsCivil`).
- Nothing keeps two fields of a template from sharing an id, and stored values are kept by id: a
  typed field after a Date Signed of its id replaces the day of signing by what the signer typed
  (`FieldValues.SharedIdForgesTheDate`; exactly when, `FieldValues.DateSignedIgnoresClient` and
  `FieldValues.OverwritableIffStrays`), and a Date Signed after a typed field replaces what was
  typed (`FieldValues.RequiredBoxIsRuleAbiding`).
- The view a certificate calls the first is that only until a resend: the next view then replaces it
  (`SigningLinks.FirstViewLasts`, `SigningLinks.ResendForgetsTheView`).
- A drag leaves no step in the editor's history, so undo skips it (`Editor.DragsAreNotUndoable`).
- A Complete that reports a failure cancels a payment that was already paid as well
  (`CallbackOutcomes.CompleteIff`).
- A refund during the free trial locks the workspace at once (`Ledger.RefundEndsTheTrial`), while
  a refund of any but the newest period takes nothing back (`Ledger.OlderRefundTakesNothing`).
- A repeated CreateTransaction answers state 1 even after payment, and echoes a fractional `time`
  that the row keeps only the whole part of (`Callbacks.CreateReplyAgrees`).
- `sanitizeFieldInput` is not idempotent when its cut splits a surrogate pair (`TypedText.SanitizeTwice`).
- The certificate's tamper-evidence title can be left alone at the foot of a page, because the
  heading asks for less room than the block under it takes (`Certificate.OrphanIffEvidenceMovesOn`).
- A user agent that prints on more than 67 lines runs off the page (`Certificate.CertificateIsTidy`).
- An undo in the middle of a drag can put a field off the page (`Editor.UndoUnderADrag`), and so
  can a drag of one of two fields with the same id (`Editor.TwinsMoveTogether`); exactly when,
  `Editor.MoveIsSafeIffNoLarger` and `Editor.ResizeIsSafeIffNotFurther` for one drag and
  `Editor.SchemaSurvivesIff` for whole sessions.
- The schema lets a field overhang the page a little; one whose corner is within 0.005 of the edge
  can be resized to a size the schema refuses (`Editor.OverhangsResizeIffRoom` for one drag,
  `Editor.SchemaSurvivesIff` for whole sessions).
- Replicas whose Redis members collide share one slot of the rate limit
  (`RateLimit.AdmitStaysInStepIffNew` for one call, `RateLimit.InStepIffClean` for whole runs).

Where comments and code disagree, the model follows the code. `pdf-text.ts` says control
characters are dropped; they are drawn as question marks. `completion.ts` says a retry stops as
soon as the request has a signed PDF; it stops only once the copies have gone out too.
`certificate.ts` says a heading is never orphaned, `signing.service.ts` that the signer never authors
the moment of signing and that a view is never overwritten, `editor.tsx` that undo undoes a move, and
`click.service.ts` that the money did not move when a Complete fails; see above for all of them.

## Model

| member | source | states |
|---|---|---|
| `Calendar.MonthStartIsEcma` | apps/api/src/modules/billing/billing.math.ts:57-70 | the calendar the model counts by is the one ECMA-262 defines: month starts agree with its year and month formulas for every month of every year |
| `Calendar.DateRoundTrip` | apps/api/src/modules/billing/billing.math.ts:57-70 | every date of every month is read back as itself |
| `Calendar.AddMonths` | apps/api/src/modules/billing/billing.math.ts:57-70 | the sequence of Date setters lands where the civil rule's closed form says |
| `Calendar.AddMonthsIsCivil` | apps/api/src/modules/billing/billing.math.ts:57-70 | it lands in the month exactly n later, on the same date or that month's last, at the same time of day, if and only if the target is not February of the year 0 from a date past 28 |
| `Calendar.PeriodLength` | apps/api/src/modules/billing/billing.math.ts:57-70 | a purchase of n months lasts between 28n and 31n days to the millisecond |
| `Calendar.AddMonthsMonotone` | apps/api/src/modules/billing/billing.math.ts:57-70 | a later starting day never lands on an earlier day |
| `Calendar.ReversedWithinADay` | apps/api/src/modules/billing/billing.math.ts:57-70 | of two instants the later one lands earlier if and only if both are dates of one month that are cut to the target month's last, the later one at an earlier time of day |
| `Calendar.SplittingAPurchase` | apps/api/src/modules/billing/billing.math.ts:57-70 | buying p months and then q never reaches further than p + q at once and loses at most three days |
| `IsoTime.IsoStringInjective` | packages/crypto/src/seal.ts:127-132 | two instants with one ISO text are one instant |
| `IsoTime.IsoStringReadsBack` | apps/api/src/modules/signing/field-values.ts:41-44 | the text shows the year, month, date and time of day of the instant, each where ISO 8601 has it |
| `JsText.TrimMeaning` | packages/contracts/src/index.ts:635-641 | trimming takes the white space off both ends, all of it and nothing else |
| `JsText.DigitsRoundTrip` | packages/contracts/src/index.ts:528-534 | the decimal digits of a number, read back, are the number |
| `FieldRules.CalendarDateMeaning` | packages/contracts/src/index.ts:527-534 | a text in date shape is accepted if and only if it names a day the civil calendar has from 1900 to 2200 |
| `FieldRules.LexOfDates` | packages/contracts/src/index.ts:530-530 | comparing two date texts as strings compares the dates |
| `FieldRules.NumberMeaning` | packages/contracts/src/index.ts:593-600 | a number is accepted if and only if it is digits with or without a minus in front and with or without a decimal mark and more digits behind |
| `FieldRules.PhoneMeaning` | packages/contracts/src/index.ts:601-610 | bare digits, with or without a plus, are accepted if and only if there are seven to fifteen |
| `FieldRules.EmailShape` | packages/contracts/src/index.ts:584-589 | an accepted address has one @, no two dots in a row, no dot around its local part, and ends in letters after a dot |
| `FieldValues.ResolveFieldValues` | apps/api/src/modules/signing/field-values.ts:60-103 | the loop's three results are the fold over the fields, in order |
| `FieldValues.RefusalMeaning` | apps/api/src/modules/signing/field-values.ts:81-97 | the two refusal lists name exactly the fields left missing and exactly the fields whose value breaks a rule |
| `FieldValues.ValueSource` | apps/api/src/modules/signing/field-values.ts:65-100 | every stored value is the server's day for a Date Signed field, or the signer's own trimmed input, accepted by a field of that id |
| `FieldValues.AcceptedFormIsComplete` | apps/api/src/modules/signing/signing.service.ts:417-418 | after a submission that is not refused every required box and every Date Signed holds a value: Date Signed the day, unless the last field that writes its id is a typed one; a box what its rule and options accept, unless that field is a Date Signed |
| `FieldValues.DateSignedIgnoresClient` | apps/api/src/modules/signing/field-values.ts:41-44 | every accepted submission of a form stores the server's day if and only if the last field writing that id is not a typed one, or all its typed fields take nothing but the day |
| `FieldValues.OverwritableIffStrays` | apps/api/src/modules/signing/field-values.ts:65-100 | the same over every submission, refused ones included, read off the layout: if and only if no typed field after the id's last Date Signed takes another value, as all do but a choice that offers none |
| `FieldValues.RequiredBoxIsRuleAbiding` | apps/api/src/modules/signing/field-values.ts:80-100 | a required box holds a value its rule accepts in every accepted submission if and only if no later Date Signed has its id, or its rule accepts the day |
| `FieldValues.SharedIdForgesTheDate` | apps/api/src/modules/signing/field-values.ts:65-100 | a Date Signed and a later typed box with one id: what the signer types is stored as the day of signing, and nothing is refused |
| `SignFields.FinishValues` | apps/sign/app/sign/[token]/ceremony.tsx:294-308 | the values built on Finish are exactly those held for fields that are not marks |
| `SignFields.BlockingMeaning` | apps/sign/lib/sign-fields.ts:84-111 | the blocking list holds a field if and only if it is unsigned or invalid |
| `SignFields.CanFinishMeaning` | apps/sign/lib/sign-fields.ts:84-115 | Finish is open if and only if every required box and mark holds something and every filled box holds what the server would take |
| `SignFields.SidesAgreeOnField` | apps/sign/lib/sign-fields.ts:67-111 | box by box, the page blocks exactly when the server would refuse |
| `SignFields.ServerAcceptsWhatThePageAllows` | apps/sign/lib/sign-fields.ts:104-115 | for every form and fill state, the server reports nothing missing or invalid if and only if no typed field blocks on the page |
| `SignFields.FinishIsAccepted` | apps/sign/lib/sign-fields.ts:113-115 | if the page lets the signer finish, the server accepts and the stored form is complete in the sense of `FieldValues.AcceptedFormIsComplete` |
| `Envelope.HolderOf` | apps/api/src/modules/signing/signing.service.ts:74-76 | a token resolves to somebody whose row holds its hash, and to nobody only if no row does |
| `Envelope.FirstUntagged` | apps/api/src/modules/signature-requests/signature-requests.service.ts:68-81 | the refusal names a signer without a field, and there is none only if every signer has one |
| `Envelope.NextOrder` | apps/api/src/modules/signing/signing.service.ts:167-170 | the order of somebody waiting, with nobody waiting at a lower one |
| `Envelope.SendMeaning` | apps/api/src/modules/signature-requests/signature-requests.service.ts:154-230 | a send goes through if and only if there is a layout and every signer owns a field in it; then exactly the signers of the first group, or of all in parallel routing, are invited with their own link |
| `Envelope.FieldsOfMeaning` | apps/api/src/modules/signing/signing.service.ts:99-105 | the fields somebody fills are exactly those given to them, in layout order |
| `Envelope.AdvanceMeaning` | apps/api/src/modules/signing/signing.service.ts:143-194 | an advance completes a live envelope everybody has signed; otherwise exactly those whose turn it is are handed it, each signer with their own new link |
| `Envelope.InvitesMeaning` | apps/api/src/modules/signing/signing.service.ts:177-192 | the people mailed are exactly those who hold a link minted by the advance, each once and in row order |
| `EnvelopeRows.AssertSignersAreTagged` | apps/api/src/modules/signature-requests/signature-requests.service.ts:68-81 | the loop over the set of tags finds the first signer who owns no field |
| `EnvelopeRows.Rows.Send` | apps/api/src/modules/signature-requests/signature-requests.service.ts:154-230 | the created rows, tokens kept by address included, are those of the specification: only signers of the first group hold a link |
| `EnvelopeRows.Rows.View` | apps/api/src/modules/signing/signing.service.ts:252-270 | the first view moves the person and the envelope, each only from `sent` |
| `EnvelopeRows.Rows.Consent` | apps/api/src/modules/signing/signing.service.ts:224-238 | consent is written once, only for an open person |
| `EnvelopeRows.Rows.Claim` | apps/api/src/modules/signing/signing.service.ts:436-457 | one row changes if and only if it holds this token and is open |
| `EnvelopeRows.Rows.AdvanceEnvelope` | apps/api/src/modules/signing/signing.service.ts:143-194 | the whole new envelope; the people mailed are exactly the signers it moved from pending to sent, each holding the link minted for them |
| `EnvelopeRows.Rows.Void` | apps/api/src/modules/signature-requests/signature-requests.service.ts:275-302 | refused when completed, idempotent when voided, otherwise retires the envelope and every unfinished link |
| `EnvelopeRows.Rows.Resend` | apps/api/src/modules/signature-requests/signature-requests.service.ts:323-362 | each refusal of the source, or the one row with its new link |
| `EnvelopeRows.Rows.Expire` | apps/api/src/modules/signature-requests/lifecycle.ts:25-56 | the retired envelope, and one notice |
| `EnvelopeRows.Rows.Remind` | apps/api/src/modules/signature-requests/lifecycle.ts:83-108 | the row with its new link, unless the person has signed |
| `SigningInvariant.StepMoves` | apps/api/src/modules/signing/signing.service.ts:143-194 | every step moves every row forward only: a completed person and a recorded consent never change, a retired envelope stays retired |
| `SigningInvariant.StepKeepsInv` | apps/api/src/modules/signing/signing.service.ts:395-470 | every step of every action keeps the protocol's whole invariant |
| `SigningInvariant.SpentTokenStaysSpent` | apps/api/src/modules/signing/signing.service.ts:92-98 | no step gives a replaced token back to its owner |
| `SigningSafety.ReachableRetirementIsFinal` | apps/api/src/modules/signature-requests/signature-requests.service.ts:275-302 | after a void or an expiry has committed no claim ever wins, nobody becomes completed and the envelope never completes, for every interleaving with submits past any of their reads and with links minted afterwards |
| `SigningSafety.RetirementIsFinal` | apps/api/src/modules/signature-requests/lifecycle.ts:25-56 | the same from any state that satisfies the invariant |
| `SigningSafety.CompletionIsFinal` | apps/api/src/modules/signature-requests/signature-requests.service.ts:281-283 | a completed envelope keeps its moment and a completed person their whole row, for ever |
| `SigningSafety.TokensAreSingleUse` | apps/api/src/modules/signing/signing.service.ts:436-457 | over a whole run each person is claimed at most once and each token wins at most once |
| `SigningSafety.RotationIsFinal` | apps/api/src/modules/signature-requests/lifecycle.ts:88-99 | a replaced token never again resolves or wins a claim, not even for a submit that loaded before the rotation |
| `SigningSafety.ResendSpendsTheOldToken` | apps/api/src/modules/signature-requests/signature-requests.service.ts:349-353 | a successful resend leaves the token it replaces held by nobody |
| `SigningLinks.ReminderRotates` | apps/api/src/modules/signature-requests/lifecycle.ts:75-99 | a reminder leaves the person with the link it mails, which resolves to them, and the link it replaces spent |
| `SigningLinks.SweepReachesTheInvited` | apps/api/src/modules/signature-requests/lifecycle.ts:80-99 | anybody invited who has not signed a live, unexpired envelope is found by the next sweep and gets a link that works |
| `SigningLinks.ResendRotates` | apps/api/src/modules/signature-requests/signature-requests.service.ts:323-353 | a resend goes through if and only if the envelope is live, the person an invited signer who has not signed, and a minute has passed; it then leaves them with the new link and the old one spent |
| `SigningLinks.ResendsAreSpaced` | apps/api/src/modules/signature-requests/signature-requests.service.ts:336-347 | whatever happens in between, a second resend to one person within a minute is refused |
| `SigningLinks.VoidRetires` | apps/api/src/modules/signature-requests/signature-requests.service.ts:275-302 | a void retires every envelope but a completed one, with the link of everyone who has not signed |
| `SigningLinks.ExpiryRetires` | apps/api/src/modules/signature-requests/lifecycle.ts:22-48 | the sweep retires a live envelope past its moment with every unfinished link, and no other |
| `SigningLinks.ToldOnce` | apps/api/src/modules/signature-requests/lifecycle.ts:41-56 | the moment the sender was told of an expiry never changes |
| `SigningLinks.ViewRecords` | apps/api/src/modules/signing/signing.service.ts:244-270 | an undisturbed view marks person and envelope as viewed, each the first time, and nothing else |
| `SigningLinks.FirstViewLasts` | apps/api/src/modules/signing/signing.service.ts:247-258 | the recorded view stays the first one over every run without a resend to that person |
| `SigningLinks.ResendForgetsTheView` | apps/api/src/modules/signature-requests/signature-requests.service.ts:349-353 | after a resend the next view replaces it |
| `SigningLinks.SubmitGoesOnIff` | apps/api/src/modules/signing/signing.service.ts:395-425 | a submit that was let in goes on to its claim if and only if consent is recorded, the image decodes and every field is filled as its rule asks |
| `SigningSafety.RoutingOrder` | apps/api/src/modules/signing/signing.service.ts:163-192 | in sequential routing nobody is out of `pending` before every signer of every lower group has completed, and completion moments follow the groups |
| `SigningSafety.EvidenceIsComplete` | apps/api/src/modules/signing/signing.service.ts:401-445 | on every completed envelope each signer has consented, not after signing, with a stored image, a field of their own, and a form complete in the sense of `FieldValues.AcceptedFormIsComplete` |
| `SigningSafety.NoCompletionLost` | apps/api/src/modules/signing/signing.service.ts:147-161 | with no crash after a claim and no advance outstanding, a live envelope has somebody still to sign |
| `SigningSafety.CompletedDoorIsForSigners` | apps/api/src/modules/signing/signing.service.ts:331-376 | the download door opens only for a token somebody signed with, however its reads are interleaved |
| `SigningLinks.DoorOpensForSigners` | apps/api/src/modules/signing/signing.service.ts:331-376 | and it does open, until the envelope's expiry, for everyone who signed with the token they signed with |
| `SigningProgress.CoveredRoutingNeverStalls` | apps/api/src/modules/signing/signing.service.ts:163-192 | if every cc is covered, every quiet live envelope of a crash-free run has a signer who holds a live link |
| `SigningProgress.OneClaimPerSigner` | apps/api/src/modules/signing/signing.service.ts:154-161 | an envelope completes by exactly as many winning claims as it has signers |
| `SigningStall.OneSigns` | apps/api/src/modules/signing/signing.service.ts:395-470 | anyone holding a live link whose form can be filled can sign, ending in one claim and one advance |
| `SigningStall.LastSignatureCanLoseToVoid` | apps/api/src/modules/signing/signing.service.ts:457-464 | a void between the last claim and its advance leaves everybody signed and nothing completed |
| `SigningStall.UncoveredRoutingStalls` | apps/api/src/modules/signing/signing.service.ts:167-192 | an uncovered cc has a crash-free run, everyone invited signing, that ends live with nobody able to sign |
| `SigningStall.ProgressIffRoutable` | apps/api/src/modules/signing/signing.service.ts:167-192 | no crash-free run stalls if and only if the routing orders cover every cc, a check the sender could make before sending |
| `SigningStall.RoutableCanFinish` | apps/api/src/modules/signing/signing.service.ts:143-194 | an envelope whose routing is covered and whose forms can be filled has a run that completes it with exactly one claim per signer |
| `SigningStall.CcBetweenSignersIsUncovered` | apps/web/app/prepare/[id]/editor.tsx:353-362 | signer, cc, signer at orders 1, 2, 3, which the editor numbers that way, is not covered |
| `SigningStall.StalledForever` | apps/api/src/modules/signature-requests/signature-requests.service.ts:323-362 | a stalled envelope is beyond repair: no resend, reminder or later request ever wins another claim |
| `Seal.DigestInjective` | packages/crypto/src/seal.ts:25-30 | the fingerprint determines the bytes |
| `Seal.CanonicalBytesInjective` | packages/crypto/src/seal.ts:122-132 | the signed text determines the request, the moment and the fingerprint, for ids and hashes without the delimiter |
| `Seal.SealService.Build` | packages/crypto/src/seal.ts:60-87 | a ring is accepted if and only if its kids differ, its keys are Ed25519 and exactly one is active; the service then holds every key and signs with that one |
| `Seal.RingOfKeys` | packages/crypto/src/seal.ts:75-79 | the ring holds exactly the listed kids, each with its own key |
| `Seal.SealService.Sign` | packages/crypto/src/seal.ts:94-99 | the seal is the active key's, and verifies |
| `Seal.SealService.Verify` | packages/crypto/src/seal.ts:106-120 | an unknown kid is a no; otherwise the answer is whether this key signed this text |
| `Seal.RotationGrowsTheRing` | packages/crypto/src/seal.ts:18-22 | retiring, activating and adding keys never takes one away |
| `Seal.SealIsBoundAndLasting` | packages/crypto/src/seal.ts:89-120 | on every later ring a seal verifies for the payload it was made for and for no other |
| `Completion.SignersInOrder` | apps/api/src/modules/signing/completion.ts:70-78 | the signers as read are exactly the envelope's, once each, by routing order |
| `Completion.OnePassAndListingEach` | apps/api/src/modules/signing/completion.ts:88-155 | pass k holds exactly the fields given to signer k, in layout order, with the values and mark of their row; listing k the address and moments of their row |
| `Completion.OnlySignersMatter` | apps/api/src/modules/signing/completion.ts:128-141 | document and certificate depend on the signers' rows alone |
| `Completion.LowerMeaning` | apps/api/src/modules/signing/completion.ts:228-241 | two addresses count as one exactly when they differ in the case of letters only |
| `Completion.AudienceMeaning` | apps/api/src/modules/signing/completion.ts:221-251 | the mailing list reaches everyone on the envelope and the sender, nobody else, and nobody twice whatever the case of their address |
| `CompletionInvariant.StepGrows` | apps/api/src/modules/signing/completion.ts:170-190 | no step takes back an object, a mail, a key or a recorded column |
| `CompletionInvariant.DraftStays` | apps/api/src/modules/signing/completion.ts:50-52 | whatever happens to a signed envelope, stamping it again shows the same marks |
| `CompletionInvariant.StepKeepsInv` | apps/api/src/modules/signing/completion.ts:32-258 | every step of every job keeps records, drafts, mailing lists and mails in agreement |
| `CompletionSafety.ArtifactsAreWrittenOnce` | apps/api/src/modules/signing/completion.ts:184-190 | the five artifact columns are written together at most once, the delivery mark at most once |
| `CompletionSafety.RecordedObjectsExist` | apps/api/src/modules/signing/completion.ts:170-177 | the recorded objects exist, hash to the recorded fingerprint, and stay |
| `CompletionSafety.EveryCopyIsTheRecord` | apps/api/src/modules/signing/completion.ts:179-194 | every email ever sent, by any job, carries exactly the objects on record and goes to somebody it is owed to |
| `CompletionSafety.CopiesAgree` | apps/api/src/modules/signing/completion.ts:179-183 | two mails about one envelope carry the same bytes |
| `CompletionSafety.EmailedMeansEveryone` | apps/api/src/modules/signing/completion.ts:205-257 | an envelope marked as emailed has been sent to every recipient and to the sender |
| `CompletionSafety.CertificateListsTheSigners` | apps/api/src/modules/signing/completion.ts:88-168 | the certificate on record lists exactly the signers, in routing order, each with their own moments; the document carries one pass for each with exactly their own fields, values and mark; both name one fingerprint and seal |
| `CompletionSafety.CheckAcceptsTheRecordOnly` | apps/api/src/modules/signature-requests/signature-requests.service.ts:490-543 | the sender's check finds fingerprint and seal valid for the stored bytes and for no others, and gives up exactly past the cap |
| `CompletionSafety.UnsealedIsNeverValid` | apps/api/src/modules/signature-requests/signature-requests.service.ts:490-505 | an envelope that is not sealed is never reported valid, whatever the bytes |
| `CompletionSafety.SealedVerifiesForever` | apps/api/src/modules/signature-requests/signature-requests.service.ts:490-543 | once sealed, the stored document passes the check at every later moment of every run |
| `CompletionSafety.PublicCheckIsExact` | apps/api/src/modules/verify/verify.service.ts:33-66 | the public check verifies a file if and only if it is, byte for byte, a document sealed here, whichever row the lookup returns, and then tells that envelope's moment and key |
| `CompletionSafety.SealedStaysSealed` | packages/db/prisma/migrations/20260811101512_public_verify_by_hash/migration.sql:29-49 | a file the public check knows is known for good |
| `CompletionSafety.SealCannotBeLifted` | packages/crypto/src/seal.ts:89-93 | the seal on one row verifies for no other envelope, moment or document |
| `Verification.VerdictMeaning` | apps/api/src/modules/signature-requests/signature-requests.service.ts:526-543 | whatever is on the row, a copy is valid if and only if its fingerprint is the recorded one and the recorded seal was made by a key of the ring for this request, moment and fingerprint |
| `Verification.Verify` | apps/api/src/modules/signature-requests/signature-requests.service.ts:507-543 | hashing the stream chunk by chunk, with the running cap, gives the verdict on the whole |
| `Verification.PublicVerdictMeaning` | apps/api/src/modules/verify/verify.service.ts:52-66 | whatever row the lookup came back with, the answer is yes if and only if its seal was made by a key of the ring for that row's request and moment and this fingerprint |
| `Verification.LiftedSealIsRefused` | apps/api/src/modules/verify/verify.service.ts:52-66 | a row that carries a seal made for anything else is never verified |
| `CompletionJob.CompletedIsReady` | apps/api/src/modules/signing/completion.ts:76-111 | a completed envelope of any reachable world lacks nothing its job could throw over |
| `CompletionJob.Worker.Deliver` | apps/api/src/modules/signing/completion.ts:211-258 | the loop over people with its set of seen addresses mails exactly the audience, then marks the row once |
| `CompletionJob.Worker.StampAll` | apps/api/src/modules/signing/completion.ts:103-111 | succeeds if and only if every mark can be fetched, and shows every pass in order |
| `CompletionJob.Worker.CompleteSignature` | apps/api/src/modules/signing/completion.ts:32-195 | a job fails if and only if the request, its completion, a document, a signature, a mark or a recorded object is missing, and then changes nothing; a finished envelope is left alone; any other ends sealed and delivered, by its old artifacts if it had any |
| `CompletionProgress.CanAlwaysBeDelivered` | apps/api/src/modules/signing/completion.ts:32-258 | whatever any number of crashed jobs left behind, a completed envelope has a run that ends with it sealed and everyone owed a copy served |
| `CompletionProgress.FinishedIsLeftAlone` | apps/api/src/modules/signing/completion.ts:36-42 | once marked as delivered with no job at work, nobody is mailed about an envelope again, however often the job is repeated |
| `Billing.FindByTxn` | packages/db/prisma/migrations/20260924100000_billing/migration.sql:112-123 | the payment that holds this provider's transaction, and none only if there is none |
| `Billing.AccessMeaning` | apps/api/src/common/trial.ts:14-52 | Pro exactly until what was paid for ends, on trial exactly until that ends, locked otherwise; the days shown are the days begun |
| `BillingService.Service.Checkout` | apps/api/src/modules/billing/billing.service.ts:46-66 | a refused purchase writes nothing; an accepted one adds one pending row |
| `BillingService.Service.ResolveByTxn` | packages/db/prisma/migrations/20260924100000_billing/migration.sql:112-123 | the scan finds the holder of the transaction |
| `BillingService.Service.AttachProviderTxn` | apps/api/src/modules/billing/billing.service.ts:91-99 | refused exactly when another payment of the provider holds the transaction |
| `BillingService.Service.AttachClickPrepareId` | apps/api/src/modules/billing/billing.service.ts:102-106 | the id is on the row, nothing else moves |
| `BillingService.Service.Activate` | apps/api/src/modules/billing/billing.service.ts:120-154 | only the winner of the compare-and-set extends the workspace, by a period from the later of now and what is paid |
| `BillingService.Service.Cancel` | apps/api/src/modules/billing/billing.service.ts:170-202 | a granted period is taken back exactly when nothing has extended the workspace since |
| `Ledger.StepKeepsInv` | apps/api/src/modules/billing/billing.service.ts:120-202 | every ledger action keeps periods disjoint, covered and accounted for |
| `Ledger.PeriodsAreDisjoint` | apps/api/src/modules/billing/billing.service.ts:120-202 | periods granted and not taken back are non-empty, pairwise disjoint and end by `paidUntil` |
| `Ledger.OneGrantPerPayment` | apps/api/src/modules/billing/billing.service.ts:131-136 | a payment is granted a period at most once, and carries one if and only if it was |
| `Ledger.PeriodIsWhatWasBought` | apps/api/src/modules/billing/billing.service.ts:120-154 | a payment of the exact price for its months is granted a period from the later of the activation and what was paid for, ending that many calendar months later, and keeps it whatever follows |
| `Ledger.EveryPeriodIsAsBought` | apps/api/src/modules/billing/billing.math.ts:30-50 | in every reachable state a granted period begins no earlier than its activation and lasts the months bought |
| `Ledger.ClawbackIsExact` | apps/api/src/modules/billing/billing.service.ts:182-190 | after anything in between, cancelling the newest grant puts `paidUntil` back to the later of its old value and the activation, and touches no other period |
| `Ledger.AccessIsWhatWasPaidFor` | apps/api/src/common/trial.ts:14-44 | a workspace that ever paid has access exactly while the clock is inside a period it holds; one that never did runs on its trial |
| `Ledger.OlderRefundTakesNothing` | apps/api/src/modules/billing/billing.service.ts:170-202 | refunding a payment while a later period is held takes nothing back: its own period is still held, and access at every moment is what it was |
| `Ledger.RefundEndsTheTrial` | apps/api/src/common/trial.ts:20-34 | a refund during the trial locks the workspace whatever was left of the trial |
| `PaymeApi.PaymeService.CreateTransaction` | apps/api/src/modules/billing/payme.service.ts:44-72 | every refusal in the source's order, the repeat's answer, or the one transaction attached |
| `PaymeApi.PaymeService.PerformTransaction` | apps/api/src/modules/billing/payme.service.ts:74-94 | answered from the row when already paid, refused when cancelled or stale, else one activation |
| `PaymeApi.PaymeService.CancelTransaction` | apps/api/src/modules/billing/payme.service.ts:96-118 | answered from the row when already cancelled, else one cancellation in the state it was in |
| `ClickApi.ClickService.Prepare` | apps/api/src/modules/billing/click.service.ts:55-76 | what each prepare answers and does, the id issued once |
| `ClickApi.ClickService.Complete` | apps/api/src/modules/billing/click.service.ts:78-110 | what each complete answers and does |
| `Callbacks.PaymentsMoveForward` | apps/api/src/modules/billing/payme.service.ts:226-235 | the reported state moves only 1 to 2 to -2 or 1 to -1, and no time changes once it is there |
| `CallbackOutcomes.CheckPerformIff` | apps/api/src/modules/billing/payme.service.ts:37-42 | an order may be paid if and only if it is an open Payme payment and the amount is its price |
| `CallbackOutcomes.CreateIff` | apps/api/src/modules/billing/payme.service.ts:44-72 | a create is granted if and only if it repeats the payment's own transaction within twelve hours, or is the first, in time and at the exact price, for an open payment; only the latter is recorded |
| `CallbackOutcomes.PerformIff` | apps/api/src/modules/billing/payme.service.ts:73-94 | a perform of a known transaction is refused if and only if its payment is cancelled or still open after twelve hours; a paid one is answered as before, an open one is paid now |
| `CallbackOutcomes.CancelIsCarriedOut` | apps/api/src/modules/billing/payme.service.ts:96-118 | a cancel of a known transaction is always carried out: now and for the reason given unless it was before, -2 exactly when it had been paid, with the period taken back exactly when it is the last |
| `CallbackOutcomes.KnownIffHeld` | apps/api/src/modules/billing/payme.service.ts:120-131 | a cancel or a check is answered if and only if some Payme payment holds the transaction |
| `CallbackOutcomes.PrepareIff` | apps/api/src/modules/billing/click.service.ts:55-76 | a prepare is granted if and only if it names an open Click payment at its price with a transaction of its own; it answers with the payment's one id |
| `CallbackOutcomes.CompleteIff` | apps/api/src/modules/billing/click.service.ts:78-110 | a complete is granted if and only if it also quotes that id; a failed one closes the payment, a paid one too |
| `CallbackOutcomes.PaymePurchase` | apps/api/src/modules/billing/payme.service.ts:44-94 | from any reachable state, checkout, create and perform give access for exactly the months bought |
| `CallbackOutcomes.ClickPurchase` | apps/api/src/modules/billing/click.service.ts:55-110 | and so do checkout, prepare and complete |
| `CallbackOutcomes.PaymeRefund` | apps/api/src/modules/billing/payme.service.ts:96-118 | a refund right after leaves the workspace paid until where it was, or until now |
| `Callbacks.PerformReplyLasts` | apps/api/src/modules/billing/payme.service.ts:74-94 | every later check repeats a perform reply's payment and time, and its state until a cancellation makes it -2 |
| `Callbacks.CancelReplyLasts` | apps/api/src/modules/billing/payme.service.ts:96-118 | every later check repeats a cancel reply |
| `Callbacks.CreateReplyAgrees` | apps/api/src/modules/billing/payme.service.ts:44-72 | a create reply's state agrees with the next check if and only if the payment is pending, its time with every later check if and only if Payme's time was whole |
| `Callbacks.ProvidersKeepApart` | apps/api/src/modules/billing/billing.service.ts:84-88 | a payment is found for its own provider only: over any run of one provider's callbacks nothing on a payment of the other changes |
| `Callbacks.StatementAgreesWithChecks` | apps/api/src/modules/billing/payme.service.ts:133-160 | the statement lists exactly the window's transactions and says of each what a check says |
| `Callbacks.GrantsHavePaper` | apps/api/src/modules/billing/click.service.ts:83-110 | a period is granted only by a timely Perform after a Create at the exact price, or by a Complete quoting the id an earlier Prepare for the order was issued at the right price |
| `RateLimit.AllowAll` | apps/api/src/common/rate-limit.ts:22-48 | over any calls in time order the pruned, evicting map refuses a call if and only if the window that ends with it holds `max` admits, and no window of any key ever holds more |
| `RateLimit.SlidingWindowRateLimiter.Allow` | apps/api/src/common/rate-limit.ts:31-47 | one call is answered as counting in the full log would, and once there are too many keys only those with a hit in the window stay |
| `RateLimit.EvictIdle` | apps/api/src/common/rate-limit.ts:41-45 | eviction forgets exactly the keys with nothing in the window |
| `RateLimit.EdgeLimiter.AllowRequest` | apps/sign/lib/edge-rate-limit.ts:11-31 | the signing app's own copy answers by the same rule, at 40 a minute |
| `RateLimit.AdmitIsFaithful` | apps/api/src/common/rate-limit.ts:33-39 | recording an admit on the pruned list keeps map and log in step |
| `RateLimit.FaithfulLater` | apps/api/src/common/rate-limit.ts:32-33 | what was pruned can never matter again while time does not go back |
| `RateLimit.NoWindowHoldsMore` | apps/api/src/common/rate-limit.ts:31-47 | no half-open window ever holds more than `max` admits of a key |
| `RateLimit.ScriptFollowsTheRule` | apps/api/src/common/rate-limit.ts:68-82 | unless it admits a member that is in the window already, the Redis script decides and records as the rule does, key expiry included |
| `RateLimit.AdmitStaysInStepIffNew` | apps/api/src/common/rate-limit.ts:73-80 | an admitted call leaves key and log in step if and only if its member is not in the window already; if it is, the set does not grow and holds one fewer than the rule counts |
| `RateLimit.InStepIffClean` | apps/api/src/common/rate-limit.ts:60-82 | any number of replicas admit together, after every call, what one limiter counting everything would, if and only if no admitted call repeats an admitted one still in the window |
| `RateLimit.SharedCapIsGlobal` | apps/api/src/common/rate-limit.ts:11-16 | on such a run the cap is global |
| `RateLimit.RepeatLeaks` | apps/api/src/common/rate-limit.ts:79-79 | the first such repeat of any run can be followed by calls that take the window to `max` + 1 |
| `RateLimit.TwinsSlipThrough` | apps/api/src/common/rate-limit.ts:79-79 | when all members collide any number of calls is admitted |
| `RateLimit.AllowShared` | apps/api/src/common/rate-limit.ts:107-138 | never admits what the floor refuses; the script's no counts only if it comes in time, and a late script has recorded its verdict all the same |
| `TypedText.SanitizeTwice` | packages/contracts/src/index.ts:648-654 | sanitizing again changes nothing if and only if the cut did not split a surrogate pair of a name |
| `TypedText.NamesCanBeCutInTwo` | packages/contracts/src/index.ts:648-654 | it can: a concrete name |
| `TypedText.AcceptedValuesSurvive` | packages/contracts/src/index.ts:635-654 | an accepted trimmed value is left unchanged by its box |
| `TypedText.ToPdfSafeText` | packages/crypto/src/pdf-text.ts:42-57 | the loop draws the text code point by code point |
| `TypedText.PdfSafeIsDrawable` | packages/crypto/src/pdf-text.ts:35-57 | whatever goes in, only drawable characters come out |
| `TypedText.PdfSafeTwice` | packages/crypto/src/pdf-text.ts:42-57 | doing it twice is doing it once |
| `TypedText.EveryLossIsMarked` | packages/crypto/src/pdf-text.ts:44-55 | the question marks that come out are those that went in plus one for each code point that is lost |
| `TypedText.AcceptedValuesPrint` | packages/contracts/src/index.ts:496-505 | an accepted value that is not a choice prints without a mark nobody typed |
| `Certificate.ChunkText` | packages/crypto/src/certificate.ts:86-90 | the loop's lines |
| `Certificate.ChunksJoin` | packages/crypto/src/certificate.ts:86-90 | the lines joined are the value, and none is empty or too long |
| `Certificate.ChunkCount` | packages/crypto/src/certificate.ts:86-90 | there are exactly as many lines as the length needs |
| `Certificate.CertificateIsTidy` | packages/crypto/src/certificate.ts:104-257 | every mark is between the margins and in reading order, a label and its value on one line, if and only if no user agent takes more than 67 lines, for any number of signers |
| `Certificate.EvidenceIsTidy` | packages/crypto/src/certificate.ts:220-239 | fingerprint and seal are drawn on one page, above the margin |
| `Certificate.EvidenceReadsBack` | packages/crypto/src/certificate.ts:220-239 | the printed lines, read back, are the original fingerprint and seal |
| `Certificate.OrphanIffEvidenceMovesOn` | packages/crypto/src/certificate.ts:138-152 | a heading is left alone on its page if and only if fingerprint and seal no longer fit under theirs |
| `Certificate.WhenEvidenceMovesOn` | packages/crypto/src/certificate.ts:222-226 | in figures: the signers end between 120 and 155 points up |
| `Certificate.TwoSignersCanOrphanTheTitle` | packages/crypto/src/certificate.ts:195-226 | it happens with two signers whose browsers take three lines each |
| `Certificate.Writer.EnsureRoom` | packages/crypto/src/certificate.ts:110-114 | a new page exactly when the block would cross the margin |
| `Certificate.Writer.DrawBrowser` | packages/crypto/src/certificate.ts:205-212 | the lines of one user agent as a stack on one page |
| `Certificate.Writer.Build` | packages/crypto/src/certificate.ts:92-257 | the cursor's whole course is the certificate the lemmas speak of |
| `Editor.HistoryIsBounded` | apps/web/app/prepare/[id]/editor.tsx:101-130 | undone and undoable layouts together never exceed 61 |
| `Editor.EditsAreUndoable` | apps/web/app/prepare/[id]/editor.tsx:101-130 | every edit is one step of history: undo takes it back, redo brings it again |
| `Editor.DragsAreNotUndoable` | apps/web/app/prepare/[id]/editor.tsx:155-166 | a drag is none: undo gives back the layout before it if and only if the last step ended with that layout, or nothing moved and there is no step |
| `Editor.AddMeaning` | apps/web/app/prepare/[id]/editor.tsx:132-152 | a new field has its type's size and stands where it was dropped, or as near as the page allows |
| `Editor.ChangeMeaning` | apps/web/app/prepare/[id]/editor.tsx:156-168 | a change reaches the fields of its id alone and moves none |
| `Editor.DeleteMeaning` | apps/web/app/prepare/[id]/editor.tsx:170-175 | a delete takes the fields of its id and keeps the others in order |
| `Editor.PasteMeaning` | apps/web/app/prepare/[id]/editor.tsx:177-194 | what is copied and pasted is the same field, a step further or as far as the page goes |
| `Editor.IdsStayDistinct` | apps/web/app/prepare/[id]/editor.tsx:101-278 | no layout of any run, past or future, repeats an id, if the first does not and minted ids are new |
| `Editor.FieldsStayInside` | apps/web/app/prepare/[id]/editor.tsx:132-194 | for every tolerance, over every run without an undo or redo under a drag, every field in layout, history and clipboard stays on the page to that tolerance and large enough, if corners had room and fields of one id agreed at the start |
| `Editor.SchemaSurvivesIff` | packages/contracts/src/index.ts:664-692 | any saved layout, repeated ids and overhanging fields included, can be edited into none the schema refuses if and only if every corner has room for the smallest size and fields of one id agree to the tolerance |
| `Editor.MoveIsSafeIffNoLarger` | apps/web/app/prepare/[id]/pdf-page.tsx:139-146 | for every tolerance: a move keeps a field within it for every mouse position if and only if the field is no larger, but for the tolerance, than when grabbed |
| `Editor.ResizeIsSafeIffNotFurther` | apps/web/app/prepare/[id]/pdf-page.tsx:147-152 | a resize if and only if it is no further right or down, but for the tolerance, than when grabbed, with room for the smallest size |
| `Editor.UndoUnderADrag` | apps/web/app/prepare/[id]/pdf-page.tsx:127-160 | an undo under a drag can leave a field off the page: a run from an empty layout |
| `Editor.OverhangsResizeIffRoom` | packages/contracts/src/index.ts:664-687 | a field the schema accepts can be moved to nothing it refuses, and resized to nothing it refuses if and only if its corner has room |
| `Editor.TwinsMoveTogether` | apps/web/app/prepare/[id]/editor.tsx:155-166 | with a repeated id a drag moves a larger twin off the page |
| `Editor.CopyTagsEverySigner` | apps/web/app/prepare/[id]/editor.tsx:252-278 | after copying fields to everyone the server's tagging check accepts, no existing field changes, and each new one is a copy of the first owner's, on its page and given to a signer who had none |
| `Editor.EditorState.CopyFieldsToEverySigner` | apps/web/app/prepare/[id]/editor.tsx:252-278 | the nested loops add one shifted copy of the donor's fields per signer without any |
| `Editor.EditorState.CommitFields` | apps/web/app/prepare/[id]/editor.tsx:101-108 | the bounded past, an emptied future |
| `Editor.EditorState.UndoLast` | apps/web/app/prepare/[id]/editor.tsx:110-119 | the last layout back, the current one kept for redo |
| `Editor.EditorState.RedoNext` | apps/web/app/prepare/[id]/editor.tsx:121-130 | the next layout, the current one kept for undo |

## Left out

- The legacy single-recipient path (a request whose token and signature live on its own row): an older protocol that repeats the cases of the new one.
- Atomicity of a `db.tx` callback is assumed: one callback is one step. `resend` writes by id alone, so that a completed person is never reopened rests on this.
- `send`'s rollback by deleting rows when the queue is down: a send either happened or did not.
- The reminder query's delay and cap, which only make it return fewer people; `Envelope.MayRemind` allows more.
- The email layer, queue retries and their timing, HTTP, tenancy and row-level security, Clerk, S3 and Redis connections.
- The inside of Ed25519, SHA-256 and PDF writing: signatures are ideal, the fingerprint is collision-free, a PDF is its bytes and what it shows.
- The names, addresses, devices and labels printed on a certificate: a listing carries the address and the moments, which is what the theorems speak of.
- Unicode case mapping in `toLowerCase`: addresses pass the email rule, which admits ASCII only.
- The tables behind `\p{L}` and `\p{M}`: a parameter, known to hold the Latin letters and no surrogates.
- The email pattern is that of version 4 of zod; zod itself is not part of this repository.
- Date Signed outside the years 0 to 9999, where the source cuts the longer ISO text after ten characters.
- Workspaces granted `pro` by hand, which have no paid period.
- Payme's credentials, Click's signature and service id, and the order of a statement's entries: callbacks that arrive are genuine.
- Callbacks that overlap: ledger safety holds for any interleaving of its transactions, reply agreement for callbacks one at a time, since `performTransaction` ignores what `activate` answers.
- Certificate.CertificateIsTidy: horizontal overflow of a long line is not modelled, only the vertical cursor.
- Editor.FieldsStayInside: leaves out runs with an undo or redo under a drag, where it fails, see `Editor.UndoUnderADrag`; minted ids are new by assumption, as random UUIDs are.
- The 500-field cap of a saved template, and the options a choice must have.
- The range of a Date in `Calendar`: instants are unbounded, where the source's become invalid 8.64e15 milliseconds from 1970 (`PaymeApi` does model it for the times Payme sends).
- RateLimit.AllowAll: asks that time does not go back between calls, without which pruning forgets admits that a later, earlier-dated call would count.
- JsText, Envelope and the other functions that only compute have no row of their own: the rows name the lemmas and methods about them.
