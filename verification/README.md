# Verification of the GOBL sandbox verifier

A Dafny model of the service that verifies GOBL Net identities, with proofs of what it
guarantees. The service accepts a registered envelope (Receive), emails a confirmation link to
the party, records the declaration made behind the link (Confirm), and posts a countersigned
copy of the envelope to the registration authority (deliver); an operator can repeat the
posting (Redeliver). There is one record per address, in a store that accepts a write only if
it carries the stored revision. Every request is a sequence of separate store, mail, signing
and posting steps, and requests overlap freely.

`dafny verify dfyconfig.toml` checks the whole project.

## How it is organised

| file | content |
|---|---|
| `Envelopes.dfy` | signatures, envelopes, keys; `CounterSign`, `VerifyOwnSignatures`, `FindKey`, `FindPartyEmail` as methods |
| `Records.dfy` | the verification record as a value and as a mutable object |
| `MemoryStore.dfy` | the in-memory store, refining a pure map of records |
| `Protocol.dfy` | the state machine: one process per request, one step per effect, a clock, and the history of tokens, versions and events |
| `Invariant.dfy`, `Steps.dfy` | the inductive invariant, and why every step of every process keeps it |
| `Runs.dfy`, `Requests.dfy` | looking back along a run: which action left an entry of the log, which request and which lookup a process goes on from |
| `Safety.dfy` | what holds over every interleaving, deaths included |
| `Admission.dfy` | exactly which envelopes Receive admits, and with which error it refuses the others |
| `Provenance.dfy`, `Failures.dfy` | over every interleaving, each stored version field by field, from the version it replaces and the actions of its writer; and the reason behind each error |
| `Attestation.dfy`, `Exhibits.dfy` | exactly when a record past pending has a confirmation time, and concrete runs on which tempting claims fail |
| `Sequential.dfy`, `Accounting.dfy`, `Reopening.dfy` | runs in which requests are served one at a time, deaths included: no conflicts, the attempts recorded, and exactly when Confirm succeeds again on one token |
| `SoloRuns.dfy` | what one request achieves when nothing runs beside it |
| `Tracking.dfy`, `Service.dfy`, `Web.dfy` | the service and its web handlers as imperative code on record objects, proved to take exactly the protocol's steps |
| `Renewal.dfy` | countersigning, renewal rounds and the check of own signatures |
| `Jwks.dfy`, `Newlines.dfy` | the order of published keys; newline normalisation of mail bodies |

The two levels meet in `Service.dfy` and `Web.dfy`: each method mirrors a protocol state before
the call, and mirrors the state its request leads to after it. So what is proved about the
protocol holds of the imperative code.

## What the proofs found

- **A declaration can be lost from the record.** When Confirm's write conflicts, the code takes
  the winner for another Confirm (`internal/domain/verifications.go:174-180`). It can be
  Receive's own bookkeeping write, made after the email is out (lines 294-296). Confirm then
  re-reads a record without confirmation time and delivers it. The declaration was made, so the
  authority is never sent anything unaccepted (`AttestationSafety`), but the record can end
  delivered, or failed, with no confirmation time (`HazardRun`), and after a failed delivery the
  page says that the confirmation is saved while Redeliver answers that there is none
  (`SavedConfirmationIsRefused`); so the attestation is not durable from the first call, as the
  comment at line 160 has it. A run stores such a record exactly when, after a re-read that
  finds a record neither delivered nor confirmed, the same process's write of its delivery's
  outcome wins (`AttestedExactly`); it delivers one exactly when there is such a re-read
  (`ConfirmedExactly`); and it does neither when no Confirm of a token starts before the
  Receive that minted it has finished (`PatientRunsAreAttested`).
- **Confirm can succeed at the authority twice on a token with nothing running beside it**, for
  one of two reasons (`RepeatedSuccess`): a Redeliver failed in between, which takes a delivered
  record back to failed (`SecondSuccess`), or the first Confirm died after its post and before
  the write of its outcome (`DeathRun`). With the record at rest, the next POST of the link
  succeeds once more exactly when, since the last success, one of the two has happened and no
  successful Redeliver after it (`NextPostSucceedsExactly`).
- **The repository's README says envelopes grow by one signature per confirmation**
  (`README.md:128-130`). The code replaces this verifier's earlier signatures
  (`internal/domain/identity.go:103-115`), and the model follows the code: after any number of
  rounds there is one (`RenewalsDoNotAccumulate`).

## Assumptions

- Tokens and revisions are never handed out twice, and are not empty; error texts are not empty.
- The clock does not go back from one step to the next.
- The JSON copy of an envelope is faithful or fails; a failure counts as a failure to sign.
- `Sign` appends one signature, or fails and perhaps clears the signatures of the copy it was
  given. `VerifyParty`, `VerifyAuthority` and `Validate` are oracles; a valid envelope has a head.
  Nothing ties their verdicts on a countersigned envelope to those on the original.
- A kid determines its key; a signature verifies under a key exactly when that key made it, it
  covers the envelope's head, and the key was valid at its issue time in whole seconds
  (the reason for `internal/domain/repos/identity.go:128-132`).
- Strings are compared by character, as Go compares the bytes of ASCII kids.

## Model

| member | source | states |
|---|---|---|
| Safety.AttestationSafety | internal/domain/verifications.go:161-218 | over every interleaving, each envelope posted, by Confirm or Redeliver, was preceded in the run by a POST with the box ticked on its own token while pending |
| Safety.ProgressNeedsAcceptance | internal/interfaces/web/confirm.go:188-218 | a version past pending, or with a confirmation time, belongs to an accepted token, also through the re-read and the retry that skips the checkbox |
| Safety.NoLostUpdate | internal/domain/repos/verifications_memory.go:29-48 | a Put that succeeds replaces the very version its copy came from, extends the document's single line of versions by one, and changes only its own writer's fields |
| Safety.Progress | internal/domain/verifications.go:166-195 | on one token, status never returns to pending, a confirmation time never changes or clears, and only a Redeliver's outcome takes a record out of delivered |
| Safety.DeadTokensStayDead | internal/domain/verifications.go:244-265 | once an upsert has replaced a token, in every continuation it resolves to not-found, is stored nowhere, and no process holding it can write it back |
| Safety.CopiesAgree | internal/domain/verifications.go:244-265 | all copies of a token's record, stored or in flight, agree on address, email, envelope, receipt and expiry |
| Safety.EndToEndBinding | internal/domain/verifications.go:75-145 | every envelope posted is a countersigned copy of one that passed all of Receive's checks under its token, and goes to the authority; every mail goes to the first non-empty email of its token's envelope |
| Safety.HonestSuccess | internal/domain/verifications.go:161-218 | a request that ends with Confirm's or Redeliver's success ends with a delivered record of the token, or the address, it asked for, and the authority has accepted a post of that token |
| Safety.DeliveredWasPosted | internal/domain/verifications.go:343-354 | a stored delivered status implies a successful post of that token |
| Requests.StaysFor | internal/domain/verifications.go:75-355 | over every interleaving, a process works from its arrival to its end for the token, the address or the envelope of its own request |
| Safety.AttemptAccounting | internal/domain/verifications.go:309-354 | stored attempts never exceed the posts made, are positive exactly when their time is set, and at least one when delivered |
| Safety.ExpiryBound | internal/domain/verifications.go:161-236 | each of Confirm's posts is preceded by the lookup it rests on, the last of its process, which finds the token within 72 hours of receipt, expiry excluded; its countersignature expires 365 days after its own making |
| Safety.LinkLivesExactly | internal/domain/verifications.go:221-251 | over every interleaving, a lookup answers with the stored record of the token for 72 hours from its receipt, gone from then on, and not found exactly when no stored record has the token |
| Safety.ReceiveSuccess | internal/domain/verifications.go:130-144 | a successful Receive stored the record of its own envelope pending and got its email out |
| Provenance.UpsertWritten | internal/domain/verifications.go:244-265 | over every interleaving, what an upsert stores starts over whatever was stored: subject, first email, envelope with its uuid and digest, token, receipt time and an expiry 72 hours later from its own checks, pending, and nothing mailed, confirmed or delivered |
| Provenance.NoteWritten | internal/domain/verifications.go:275-301 | over every interleaving, a Receive's note is the version its process has stored with the time taken before its mail, or with the mail's error and nothing else changed |
| Provenance.ConfirmationWritten | internal/domain/verifications.go:169-173 | over every interleaving, Confirm's write stores the version that its process looked up, confirmed, with the clock of that process's own declaration |
| Provenance.OutcomeWritten | internal/domain/verifications.go:309-354 | over every interleaving, a delivery's write stores the version it set out from, failed with the error of its own signing and no attempt counted, or with one attempt more, the time of its own attempt, and the status and error of its own post |
| Provenance.OnlyWinsWrite | internal/domain/repos/verifications_memory.go:29-48 | no action but a Put that succeeds changes the store |
| Provenance.RecordsSayTrue | internal/domain/verifications.go:169-347 | over every interleaving, a stored confirmation, attempt or mail time, and a stored error, is the clock or the text of an action of the run on the same token |
| Failures.WhyConfirmFails | internal/domain/verifications.go:161-236 | over every interleaving, a POST of a link fails as not found only if no stored record has the token, as gone only if the stored one is 72 hours old, as unavailable only if its own delivery has failed, and with no other error; a lost write never fails it |
| Failures.WhyRedeliverFails | internal/domain/verifications.go:203-218 | a Redeliver fails as not found only if nothing is stored, as invalid only if what is stored is not confirmed, and as internal only if its own delivery has failed |
| Failures.WhyReceiveFails | internal/domain/verifications.go:75-145 | a Receive fails only by its checks, or as internal if it got no token, its write was refused, or its own mail did not go out |
| Admission.AdmittedExactly | internal/domain/verifications.go:75-128 | an envelope is admitted for a subject and an email exactly when it is valid, its party is verified as the subject, each signature that claims this verifier verifies under the first published key with its kid, the authority has countersigned it, and the email is its party's first non-empty one |
| Admission.AdmissionExactly | internal/domain/verifications.go:75-128 | it is admitted at all exactly when the same holds for some subject and it publishes some email |
| Admission.RefusedExactly | internal/domain/verifications.go:76-128 | otherwise the error is that of the first check that fails, for each of them |
| Admission.FirstSubmissionIsAdmitted | internal/domain/verifications.go:379-402 | an envelope without a signature of this verifier is admitted whenever the libraries accept it and it publishes an email |
| Admission.ForgedIsNeverAdmitted | internal/domain/verifications.go:100-107 | over every interleaving, a Receive of an envelope with a signature that claims this verifier under an unpublished kid, or that its first published key does not verify, never gets past the checks, and no token is minted for it |
| Attestation.PatientRunsAreAttested | internal/domain/verifications.go:169-190 | if no Confirm of a token starts before the Receive that minted it has finished, every version past pending has a confirmation time |
| Attestation.ConfirmedExactly | internal/domain/verifications.go:174-180 | in a run, all deliveries are of confirmed records exactly when no re-read after a lost write finds a record neither delivered nor confirmed |
| Attestation.UnconfirmedNeedsBlindReread | internal/domain/verifications.go:174-180 | a run that stores a record past pending without confirmation time had such a re-read |
| Attestation.AttestedExactly | internal/domain/verifications.go:174-191 | a run never stores a record past pending without confirmation time exactly when, whenever a process re-reads such an undelivered record after its lost write and gets to the write of its delivery's outcome, that write loses too |
| Attestation.HazardIsReread | internal/domain/verifications.go:174-180 | whoever delivers an unconfirmed record is a Confirm that lost its write and re-read |
| Exhibits.HazardRun | internal/domain/verifications.go:294-301 | for every admissible envelope there is a run that ends delivered, or failed, accepted, and without confirmation time |
| Exhibits.SavedConfirmationIsRefused | internal/domain/verifications.go:211-213 | in that run Redeliver refuses the confirmation that the page called saved |
| Exhibits.DeathRun | internal/domain/verifications.go:328-354 | for every admissible envelope there is a sequential run without Redeliver with two accepted posts by Confirm of one token: the first Confirm dies before the write of its outcome |
| Sequential.NoConflicts | internal/domain/verifications.go:161-198 | in sequential runs of any length no Put conflicts, even when requests die |
| Accounting.SequentialAccounting | internal/domain/verifications.go:309-355 | in sequential runs the stored attempts at rest plus the posts of processes that died before booking them equal the posts made |
| Reopening.RepeatedSuccess | internal/domain/verifications.go:154-198 | in sequential runs, deaths included, between two successes of Confirm on a token a failed Redeliver of it was booked or a Confirm died between its accepted post and its write |
| Reopening.UndeliveredExactly | internal/domain/verifications.go:166-198 | after Confirm's last success on a token, the record at rest is undelivered exactly when one of these has happened since, with no successful Redeliver after it |
| Web.NextPostSucceedsExactly | internal/domain/verifications.go:166-198 | in such a state a further POST before the expiry, with signing and posting succeeding, succeeds at the authority once more exactly then |
| SoloRuns.ConfirmEndsExactly | internal/domain/verifications.go:161-198 | a Confirm alone of a stored token, in every case: gone, with nothing changed, once 72 hours have passed since receipt; at once if already delivered; otherwise confirmed, and delivered or failed, with success or the unavailable error |
| SoloRuns.ConfirmDelivers | internal/domain/verifications.go:161-198 | within 72 hours of receipt, with signing and posting succeeding, Confirm always ends with the record delivered after one post, and posts nothing if it already was |
| SoloRuns.SoloDelivers | internal/domain/verifications.go:323-354 | once countersigned, a delivery of the stored record counts one attempt, posts once, and stores delivered or failed by the authority's answer |
| SoloRuns.SoloRefused | internal/domain/verifications.go:310-322 | without a countersignature nothing is posted, no attempt is counted, and the record is stored failed |
| SoloRuns.RefusalChangesNothing | internal/domain/verifications.go:203-236 | an unknown or expired token, and an unknown or unconfirmed address, end with their own error and change nothing |
| SoloRuns.RedeliverDelivers | internal/domain/verifications.go:203-218 | a Redeliver of a confirmed record posts its countersigned envelope once, whatever its status, and stores the outcome |
| SoloRuns.RedeliverCanUndo | internal/domain/verifications.go:203-218 | a refused Redeliver stores a delivered record as failed |
| SoloRuns.SoloReceives | internal/domain/verifications.go:75-145 | a Receive alone: a rejection changes nothing; otherwise the record ends pending with its mail's outcome noted, one mail is the only event, and success means that it went out |
| SoloRuns.ReceiveEndsExactly | internal/domain/verifications.go:130-145 | field by field what an admitted Receive alone leaves stored, and its mail: with it sent, its time and no error; otherwise the error noted, no time, and the request failed |
| SoloRuns.ReceiveReplacesToken | internal/domain/verifications.go:238-243 | after an admitted Receive the address's previous token is not found, whether or not the new email went out |
| Steps.StepKeepsInv | internal/domain/verifications.go:75-377 | every step of every process, every arrival and every death keeps the invariant |
| MemoryStore.MemoryVerifications.Put | internal/domain/repos/verifications_memory.go:29-48 | compare-and-swap on the pure map; success writes the new revision back into the caller's record and keeps a clone; failure changes neither map nor argument |
| MemoryStore.MemoryVerifications.Get | internal/domain/repos/verifications_memory.go:51-60 | a copy the store does not own of the record keyed by the address, or nothing |
| Service.Verifications.MarkConfirmed | internal/domain/repos/verifications_memory.go:43-60 | writing through a caller's copy, here to confirm it, leaves the store's records as they were |
| MemoryStore.MemoryVerifications.GetByToken | internal/domain/repos/verifications_memory.go:64-74 | a copy of a record with the token, or nothing if there is none; with distinct tokens the same one in every iteration order |
| MemoryStore.StoredExactly | internal/domain/repos/verifications_memory.go:29-42 | a Put succeeds exactly for a complete record, keyed by its own address, with the stored revision or none where nothing is stored; it conflicts exactly for a complete record otherwise |
| Records.InvalidityExactly | internal/domain/models/verification.go:100-123 | a record is refused for the first of the six rules it breaks |
| Steps.TokensDistinct | internal/domain/verifications.go:244-251 | in every state that meets the invariant stored tokens are distinct |
| Records.DocIDInjective | internal/domain/models/verification.go:72-74 | different addresses have different document ids |
| Records.Verification.New | internal/domain/models/verification.go:79-95 | field by field a fresh pending record received now, with the envelope's uuid and digest, and nothing sent, confirmed or delivered |
| Records.Verification.CloneOf | internal/domain/repos/verifications_memory.go:45-46 | a shallow copy with the same value and the same envelope object |
| Envelopes.CounterSign | internal/domain/identity.go:99-121 | own signatures give way to one fresh one, with this verifier as issuer, the subject as audience, no verifier claim and a year's expiry, by the active key over the envelope's head; others stay in order; without a head nothing changes; a failed Sign leaves the others' signatures or none |
| Envelopes.VerifyOwnSignatures | internal/domain/verifications.go:383-402 | accepts exactly when every signature claiming this verifier verifies under the first published key with its kid |
| Envelopes.FindKey | internal/domain/models/identity.go:43-50 | the first published key with the kid, or nothing if there is none |
| Envelopes.FindPartyEmail | internal/domain/verifications.go:405-412 | the first non-empty email, nil entries skipped, or the empty string if there is none |
| Renewal.ForeignKeepsOrder | internal/domain/identity.go:106-115 | every signature not claiming this verifier survives, unreadable ones included, once per occurrence and in order |
| Renewal.CounterSignedShape | internal/domain/identity.go:99-121 | length out is length in less the own signatures plus one; one own signature, the last; head, party and other signatures unchanged |
| Renewal.CounterSignatureClaims | internal/domain/identity.go:94-120 | the last signature is the only own one and claims issuer, audience, expiry, no verifier and this second as issue time, by the active key over the head |
| Renewal.PostedClaims | internal/domain/verifications.go:361-377 | over every interleaving, each envelope posted ends with its only own signature, which claims the address its token was minted for, over the head received, at the time of its poster's own signing |
| Renewal.RenewalsDoNotAccumulate | internal/domain/identity.go:103-120 | after any number of rounds, with anything added in between: all foreign signatures in order of arrival, and one own signature, of the last round |
| Renewal.CounterSignedVerifies | internal/domain/verifications.go:92-99 | a countersigned envelope passes the check of own signatures, whatever it carried, exactly when the active key is published first under its kid and valid at signing |
| Renewal.VerdictIgnoresPermutation | internal/domain/verifications.go:383-402 | the verdict is the same for every order of the signatures |
| Renewal.RenewalIsAdmitted | internal/domain/verifications.go:75-125 | when the active key is served, a countersigned envelope with an email is admitted again exactly when validation, the party check and the authority check accept it on its return |
| Renewal.PostedVerifies | internal/domain/verifications.go:361-377 | over every interleaving, what was posted carries one own signature, and passes the check when it comes back exactly when the active key was served at signing |
| Service.Verifications.Confirm | internal/domain/verifications.go:161-198 | the imperative Confirm ends in the protocol's state, with the protocol's outcome in its result |
| Service.Verifications.Attest | internal/domain/verifications.go:169-190 | records the confirmation, or goes on with the winner's record after a conflict, as the protocol does |
| Service.Verifications.Deliver | internal/domain/verifications.go:309-355 | countersign, count, post and book as the protocol does; the result tells whether the post succeeded |
| Service.Verifications.CountersignedCopy | internal/domain/verifications.go:361-377 | the countersigned copy, or nothing; the store and the stored envelope are untouched |
| Service.Verifications.Redeliver | internal/domain/verifications.go:203-218 | one Redeliver from arrival to end is the protocol's run, and keeps the invariant |
| Service.Verifications.Receive | internal/domain/verifications.go:75-145 | one Receive from arrival to end is the protocol's run, and keeps the invariant |
| Service.Verifications.Check | internal/domain/verifications.go:75-128 | the checks' answer, admitted exactly when validation, party, each own-claiming signature, the authority and an email are in order, with the verified subject and the first email |
| Service.Verifications.Upsert | internal/domain/verifications.go:244-265 | a new record under a new token over the previous revision, or the internal error with nothing stored |
| Service.Verifications.SendConfirmation | internal/domain/verifications.go:271-303 | mail once, note the outcome, and fail exactly when the mail failed |
| Service.Verifications.ByToken | internal/domain/verifications.go:221-236 | the stored record with the token before its expiry, gone exactly from its expiry on, not found exactly without one |
| Tracking.ServedIsSequential | internal/domain/verifications.go:75-218 | serving a request is a run of the protocol, sequential from a quiet state and leaving it quiet |
| Web.HandleConfirmSubmit | internal/interfaces/web/confirm.go:188-218 | the POST from arrival to end is the protocol's run, and status, text and stored record are those of `PostExactly` |
| Web.PostExactly | internal/interfaces/web/confirm.go:188-218 | what a POST answers and leaves stored, in every case: 404 without a record; 410 if 72 hours have passed at the handler's lookup or at Confirm's; 422 with the form and the reminder on a pending record without the tick; otherwise 200 with the completed delivery or 503 with the saved confirmation and a retry, of a record then confirmed |
| Web.HandleConfirmPage | internal/interfaces/web/confirm.go:161-180 | a GET changes nothing, and status and text are those of `PageExactly` |
| Web.PageExactly | internal/interfaces/web/confirm.go:161-180 | what a GET shows, in every case: 404 without a record, 410 from 72 hours on, the form for the record's address and the service's authority exactly on a live pending record, and otherwise the result of delivered, failed or confirmed |
| Web.ResultView | internal/interfaces/web/confirm.go:139-157 | the completed delivery for delivered, the error with a retry for failed, a retry otherwise |
| Web.ErrorPage | internal/interfaces/web/confirm.go:106-135 | never a success status: 404, 410 and 503 exactly for the not-found, gone and unavailable errors, else 500; a retry button exactly for the unavailable error, with its own message if it has one |
| Web.SuccessPageIsDelivered | internal/interfaces/web/confirm.go:209-216 | over every interleaving, a POST of a token's link answered without error shows a completed delivery of a record with that token, and the authority has accepted a post of it |
| Web.RetryNeedsNoTick | internal/interfaces/web/confirm.go:183-187 | on a token that is not pending a POST does the same with and without the tick |
| Web.UntickedDoesNothing | internal/interfaces/web/confirm.go:197-208 | on a pending token a POST without the tick changes nothing |
| Web.TickIsLogged | internal/interfaces/web/confirm.go:197-209 | on a pending token a POST with the tick leaves the declaration in the log for good |
| Web.RetryDelivers | internal/interfaces/web/confirm.go:183-218 | before the expiry a POST on an undelivered confirmed or failed record posts once and ends delivered, if signing and posting succeed |
| Web.SecondSuccess | internal/domain/verifications.go:203-218 | after a failed Redeliver of a delivered record, the next POST succeeds at the authority once more |
| Jwks.StrictWeakOrder | internal/domain/models/identity.go:62-75 | the comparator is irreflexive and transitive, and ties are interchangeable |
| Jwks.TiedExactly | internal/domain/models/identity.go:62-75 | keys tie exactly when they agree on validity start and kid |
| Jwks.NewestFirst | internal/domain/models/identity.go:52-75 | of any two keys served, an undated one is not before a dated one, nor an older before a newer, and with equal dates, or none, the kids never increase |
| Jwks.BelowExactly | internal/domain/models/identity.go:74 | a string is below another exactly when at the first difference it ends or has the smaller character |
| Jwks.SortFacts | internal/domain/models/identity.go:61-75 | the served order is a sorted permutation of the published keys |
| Jwks.SortIsStable | internal/domain/models/identity.go:62-75 | keys that tie keep their input order |
| Jwks.StableSortUnique | internal/domain/models/identity.go:62-75 | any sorted permutation that keeps ties in their order is this one, so any stable sort gives it |
| Jwks.InputOrderIrrelevantExactly | internal/domain/models/identity.go:52-75 | the served order is the same for every input order exactly when only copies of a key tie |
| Jwks.DistinctKidsTieAsCopies | internal/domain/models/identity.go:52-75 | with distinct kids only copies tie, so the served order is one |
| Jwks.SortStable | internal/domain/models/identity.go:61-75 | sorts the copy in place |
| Jwks.JWKS | internal/domain/models/identity.go:56-84 | serves every key, the newest first and by descending kid, or an error exactly when one cannot be marshalled; the published list is not touched |
| Newlines.NormaliseRepairs | internal/domain/mailer/mailer.go:133-135 | the two passes put a CR before each bare LF and change nothing else |
| Newlines.CollapseUndoesExpand | internal/domain/mailer/mailer.go:133-135 | collapsing CRLF undoes expanding LF on every string |
| Newlines.NormaliseIdempotent | internal/domain/mailer/mailer.go:133-135 | normalising twice is normalising once |
| Newlines.NormaliseFacts | internal/domain/mailer/mailer.go:133-135 | LFs are neither lost nor added, none is left without a CR before it, and exactly the texts without bare LFs are left as they are |

## Left out

- The CouchDB store and its design document: the in-memory store's semantics stand for both, so
  reads fail only with not-found, and writes only by conflict or validation.
- Networking, SMTP, MIME and HTML: a post or a mail is an event with a success flag; time limits
  are a way to fail.
- Cryptography, JWT and address parsing, and the checks done by the GOBL client library: oracles,
  under the assumptions above. The cap of 32 signatures is one of Sign's ways to fail.
- `UpdateTimestamps`: `created_at` and `updated_at` are not part of this model.
- Time pointers are values, and the nil receiver of `Validate` is the null record of `Put`.
- The wording of pages, mails and errors: views carry which text is shown, not the text.
- The recipient's display name, `messageID` and `envelopeAddr`: one-branch string functions.
- The party envelope and its cache, loading and scaffolding of the identity, configuration,
  commands, authorization and logging.
- The library's stable sort is modelled by in-place insertion, which is what it does on short
  lists; by `StableSortUnique` any other stable sort has the same result.
- Absolute at-most-once delivery under concurrency, and refusal of stale envelopes by Redeliver:
  the code does not promise them (`README.md:121-127`).
- The imperative methods serve one request at a time beside paused ones; how steps of running
  requests overlap is the subject of the protocol alone.
