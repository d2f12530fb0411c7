# Verified models of the IAM governance, event, token and migration ledgers

This project models, in Dafny, the parts of the IAM service whose correctness depends on how
several calls interact, and proves what those calls keep over every interleaving.

* **Governance ledgers.** `Approvals` and `Trusts` are the two ledgers' transactions on values,
  `Governance` interleaves their calls, and `GovernanceService` keeps the ledgers in buckets under the
  keys of `GovernanceKeys`. A call reads at earlier positions of the run, asks authorities that may
  answer anything, and then tries to commit.
* **Authentication events.** `OidcEvents`, `OidcBinding`, `OidcMaintenance`, `OidcFairness` and
  `OidcService` model the OIDC event ledger; `BrokerEvents`, `BrokerRuns`, `BrokerBinding`,
  `BrokerMaintenance`, `BrokerService`, `BrokerClock` and `BrokerScene` the broker ledger; `Storage`
  the buckets and the paged cursor under both; `Consume` the consumer of an event, and `Decisions`
  what its decisions rest on over whole runs; `StrictJson` the strict JSON reader; `Models` and
  `KeyOrder` the shared records and the key order.
* **Token profile.** `Text`, `TokenProfile` and `HumanConsent` model scope ceilings, the scope claim,
  buyer consent, its seal and the token hook.
* **Migration ledger.** `MigrationLedger`, `MigrationRuns`, `MigrationService`, `Containment` and
  `ContainmentRace` model the state graph, revision-checked writes, the deny fence and rollbacks.

## Conventions

* A storage transaction is a function from a ledger value to an optional new one. `None` is any
  refusal: a failed transaction rolls back everything, the raised clock watermark included. Each
  class method is proved equal to its transaction function.
* A run is a sequence of steps and the worlds they pass through. Remote answers, clock readings and
  the database's own refusals are part of the steps, so every theorem about `Run` holds for all of
  them. Random identifiers are fresh. Clock readings inside one call never go back; for the
  OIDC ledger this is assumed only inside one transaction. Across calls they may go anywhere.
* Times are integers, 0 being Go's zero time. Hashes, MACs, decoders, identifier grammars and
  secret markers are function-valued parameters, so results hold for every choice of them; where
  injectivity is needed it is a stated hypothesis. JSON persistence is the identity.
* Error codes are folded into one refusal.

## Where the code does less than it promises

* **Broker maintenance reads the clock twice** (internal/federation/broker_maintenance.go:16-19): the
  first reading becomes the durable watermark, the second decides what has expired. If they differ
  and the clock later falls back between them, a dropped fence no longer protects its assertion.
  `BrokerClock.UnsettledMaintenanceAllowsReplay` builds, for every admitted trust, pair of logins and
  assertion, a whole run of two complete logins with that one assertion. Each login begins with its own
  maintenance batch, and between the two a batch reads the clock ahead and removes everything expired
  there. `BrokerScene.ReplayHappens` is one such run under the code's own identifier patterns, in which
  every batch drops what the walk over the buckets drops. The exact condition is read off the ledger
  before the call: no replay fence expires between the two readings. `BrokerRuns.MaintenanceSafeIff`
  and `BrokerRuns.SettledIff` prove both directions for a batch that takes everything expired,
  `BrokerService.BatchSafeIff` for a batch of any limit, `BrokerRuns.AssertionVerifiedOnce` proves the
  promise for every run in which maintenance meets it, and `BrokerRuns.OneReadingSettles` shows that
  one reading for both uses always meets it.
* **A rollback can still win against the fence** (internal/migration/containment.go:307-338): the
  fence is checked before the row is loaded. `ContainmentRace.ReleaseLetsRollbackThrough` builds, for
  every containable row and admitted operation ID, a run in which an operator releases the
  quarantined, fenced row in between; `ContainmentRace.RaceHappens` is one under the code's own
  operation pattern and secret markers. `Containment.RestoreCommitsIff`
  says exactly when a rollback's write goes through, `Containment.FenceHoldsAgainstRollback` that none
  does while nothing else releases the row, and `Containment.RollbackAfterFenceNeedsRelease` that
  such a release is necessary.

## Model

| member | source | states |
|---|---|---|
| Storage.Bucket.Get | internal/federation/postgres_storage.go:160-168 | the value stored under the key, if any |
| Storage.Bucket.Put | internal/federation/postgres_storage.go:169-176 | the table gains or replaces exactly that key and stays sorted; an empty key is refused and changes nothing |
| Storage.Bucket.Delete | internal/federation/postgres_storage.go:177-184 | the table loses exactly that key |
| Storage.Cursor.Read | internal/federation/postgres_storage.go:203-240 | a query fetches a page and hands out the first row of the sorted selection, the walk going on with the rest |
| Storage.Cursor.Take | internal/federation/postgres_storage.go:241-251 | the buffered row handed out is the head of the remaining walk; an empty buffer ends it |
| Storage.Cursor.First | internal/federation/postgres_storage.go:252-252 | positions on the whole sorted table, from any earlier position |
| Storage.Cursor.Seek | internal/federation/postgres_storage.go:253-253 | positions on the sorted table from the given key on |
| Storage.Cursor.Next | internal/federation/postgres_storage.go:254-265 | hands out exactly the next remaining row, across page boundaries, and ends after the last |
| Storage.Cursor.Delete | internal/federation/postgres_storage.go:266-272 | deletes the row last returned and leaves the remaining walk untouched; refused before the first and after the last row |
| Storage.ForEach | internal/federation/postgres_storage.go:273-281 | the callback sees the rows in order up to the first refusal, and success means none was refused |
| Storage.Walk | internal/federation/postgres_storage.go:193-281 | for every page size and start point a walk returns exactly the sorted rows from there, once each, also while returned rows are being deleted |
| Storage.DeleteBehindKeepsWalk | internal/federation/postgres_storage.go:266-272 | deleting any row not ahead of the cursor leaves the rest of the walk unchanged |
| Storage.DeleteAheadOfCursor | internal/federation/postgres_storage.go:193-251 | a buffered page stays truthful under a foreign deletion if and only if the deleted key is not in the page |
| OidcMaintenance.PruneBucket | internal/federation/oidc_maintenance.go:46-103 | one bounded pass over a bucket equals the sweep of the sorted table from the resume key, its new resume key and its count; a scanned record without expiry fails it and changes nothing |
| OidcMaintenance.SweepDropsOnlyExpired | internal/federation/oidc_maintenance.go:63-91 | whatever a pass removes had expired, and everything else stays |
| OidcMaintenance.SweepAdvances | internal/federation/oidc_maintenance.go:55-103 | an interrupted pass scanned exactly `limit` rows and resumes right behind them |
| OidcMaintenance.PruningIsFair | internal/federation/oidc_maintenance.go:35-111 | from any resume key, 2*ceil(n/limit) calls or more with the clock at or past T remove every record of an n-row bucket that expires by T |
| OidcFairness.RunIsDated | internal/federation/oidc_events.go:145-388 | every record of every reachable ledger carries an expiry, as long as no storing transaction read a clock before the zero time |
| OidcFairness.BatchesAreFair | internal/federation/oidc_maintenance.go:35-111 | with one limit for each of the three buckets, 2*ceil(n/limit) batches over dated buckets of at most n rows all succeed and leave nothing that expires by T in any bucket |
| OidcFairness.ReachableMaintenanceIsFair | internal/federation/oidc_maintenance.go:35-111 | the same from every reachable ledger, whatever the resume keys: no stored record can make maintenance fail |
| OidcMaintenance.SweepMap | internal/federation/oidc_maintenance.go:63-91 | seen as a map, a pass removes a set of expired records and touches nothing else |
| OidcService.Events.SweepBuckets | internal/federation/oidc_maintenance.go:46-105 | the three buckets are swept together or not at all, with exact counts and resume keys |
| OidcService.Events.Prune | internal/federation/oidc_maintenance.go:35-111 | succeeds exactly for an admissible limit, a clock not behind the watermark and dated records; it is then one maintenance transaction of the ledger and one batch of `OidcFairness`, and otherwise changes nothing, resume keys included |
| OidcService.Events.StoreRequest | internal/federation/oidc_events.go:145-181 | the storing transaction of Begin, and no change when refused |
| OidcService.Events.Begin | internal/federation/oidc_events.go:145-181 | a login is one maintenance batch, which stays, followed by the storing transaction |
| OidcService.Events.Burn | internal/federation/oidc_events.go:240-262 | the first transaction of Complete, and no change when refused |
| OidcService.Events.Commit | internal/federation/oidc_events.go:263-355 | verification and the second transaction of Complete, and no change when refused |
| OidcService.Events.Verify | internal/federation/oidc_events.go:359-388 | consumes a stored event and returns exactly its evidence |
| OidcEvents.RecommitNeedsClockRollback | internal/federation/oidc_events.go:338-355 | a token committed before could be committed again only if the clock ran back inside the committing transaction |
| OidcEvents.RunIsSafe | internal/federation/oidc_events.go:145-388 | in every reachable world each committed token is fenced or past, IDs are spent once, and evidence is traced to its commit |
| OidcEvents.ReplaySafety | internal/federation/oidc_events.go:240-355 | no raw ID token is ever committed as two events, in any interleaving, after any pruning and clock rollback between calls |
| OidcEvents.EvidenceReleasedOnce | internal/federation/oidc_events.go:359-388 | each event ID's evidence is released at most once over every run, and it is the evidence that was committed |
| OidcBinding.CommitAnswersItsLogin | internal/federation/oidc_events.go:145-355 | every committed event goes back to the one Begin that committed under its ID, completed with that login's state and session secret and a token carrying its nonce and issued no earlier |
| BrokerRuns.FenceCoversAssertion | internal/federation/broker_events.go:284-297 | the fence written with a capture is never earlier than the assertion's end, and the capture never outlives the assertion |
| BrokerRuns.RunKeepsIndex | internal/federation/broker_events.go:182-199 | in every reachable world nonce entries and live requests correspond one to one, and there are at most 4096 requests |
| BrokerRuns.PruneKeepsIndex | internal/federation/broker_maintenance.go:20-66 | maintenance removes a request together with its nonce entry, keeping the correspondence |
| BrokerRuns.SettledIff | internal/federation/broker_maintenance.go:16-66 | a batch that takes everything expired drops only fences expired at the durable reading if and only if no fence expires between its two readings, and then so does every smaller batch |
| BrokerRuns.MaintenanceSafeIff | internal/federation/broker_maintenance.go:16-66 | in every reachable world a batch that takes everything expired keeps each capture fenced or past if and only if the ledger before it holds no fence between its two readings, and then so does every smaller batch |
| BrokerRuns.OneReadingSettles | internal/federation/broker_maintenance.go:16-19 | two equal readings never have a fence between them, so maintenance drops none too early |
| BrokerRuns.ReplayIdVerifiedOnce | internal/federation/broker_events.go:229-414 | over every run whose maintenance finds no fence between its readings, two verified events with one replay ID come from assertions ending at different times |
| BrokerRuns.AssertionVerifiedOnce | internal/federation/broker_events.go:229-414 | over every run whose maintenance finds no fence between its readings, one upstream assertion never yields two verified events |
| BrokerRuns.EvidenceReleasedOnce | internal/federation/broker_events.go:416-436 | each event ID's evidence is released at most once over every run, whatever maintenance does, and it is what was committed |
| BrokerBinding.CommitAnswersItsLogin | internal/federation/broker_events.go:146-414 | every verified event goes back to the one Begin that committed under its ID: the nonce index led the capture to that login, and the completing call presented its state, session secret and proof key with a broker token carrying its nonce and naming the captured assertion |
| BrokerClock.UnsettledMaintenanceAllowsReplay | internal/federation/broker_maintenance.go:16-66 | for every admitted trust, pair of logins and assertion there is a run of two complete logins, each after its own maintenance batch, with a batch between them that takes everything expired at its second reading: the one assertion yields two verified events |
| BrokerScene.ReplayHappens | internal/federation/broker_maintenance.go:16-66 | such a run exists under the code's own identifier patterns, and each of its batches drops exactly what the bucket walk drops with a limit of 128 |
| BrokerMaintenance.ReapBucket | internal/federation/broker_maintenance.go:20-66 | the walk removes exactly the first `budget` expired rows of a bucket, their index entries, and counts them |
| BrokerMaintenance.ReapedArePrefix | internal/federation/broker_maintenance.go:20-66 | the rows removed are the first min(budget, expired) expired ones |
| BrokerMaintenance.ReapPartitions | internal/federation/broker_maintenance.go:20-66 | a row survives or is removed, never both, and only expired rows are removed |
| BrokerMaintenance.ReapMap | internal/federation/broker_maintenance.go:53-64 | the index names removed are exactly those of the records removed |
| BrokerMaintenance.ReapAllMap | internal/federation/broker_maintenance.go:20-66 | a budget that covers the expired rows of a bucket removes exactly the expired keys |
| BrokerService.BudgetSpends | internal/federation/broker_maintenance.go:20-66 | one budget spent over four buckets in turn removes min(limit, everything overdue) |
| BrokerService.BatchRemoves | internal/federation/broker_maintenance.go:20-66 | walking the four buckets under one limit makes them shorter by exactly min(limit, expired records) |
| BrokerService.CoveredBatch | internal/federation/broker_maintenance.go:20-66 | over any buckets holding a ledger no larger than the limit, the walk drops everything expired and nothing else |
| BrokerService.BatchSafeIff | internal/federation/broker_maintenance.go:16-66 | for any limit and from every reachable ledger, a batch keeps each capture fenced or past if and only if the fences the walk comes to within its limit had ended at the durable reading |
| BrokerService.Events.Prune | internal/federation/broker_maintenance.go:10-71 | succeeds exactly for limits 1 to 1024 and a clock not behind; each bucket then loses its first expired rows within what is left of the limit, the four together shrink by exactly the number returned, min(limit, expired records), and the call is one maintenance transaction, of everything expired if the limit covers it |
| BrokerService.Events.StoreRequest | internal/federation/broker_events.go:182-199 | the storing transaction of Begin with its canonical-request, capacity and freshness checks |
| BrokerService.Events.Begin | internal/federation/broker_events.go:146-215 | after the configuration checks a login is one maintenance batch, which stays, followed by the storing transaction |
| BrokerService.Events.RequestUsable | internal/federation/broker_events.go:218-224 | whether the stored request is fresh, unconsumed and of this snapshot and configuration |
| BrokerService.Events.FindByNonce | internal/federation/broker_events.go:237-246 | in a ledger whose index is kept, finds the one usable request begun with this nonce, or there is none |
| BrokerService.Events.StoreCapture | internal/federation/broker_events.go:229-297 | verification and storage of a capture with its fence, and no change when refused |
| BrokerService.Events.Burn | internal/federation/broker_events.go:337-368 | configuration and issuer checks, then the first transaction of Complete: needs a live capture and burns the request |
| BrokerService.Events.Commit | internal/federation/broker_events.go:369-414 | verification of the broker token and the configuration read again, then the second transaction of Complete |
| BrokerService.Events.Verify | internal/federation/broker_events.go:416-436 | consumes a verified event and returns exactly its evidence |
| Approvals.ReceiptCount | internal/federation/approvals.go:201-265 | there are exactly as many receipt keys as proposals ever approved |
| Approvals.ReferenceWasApproved | internal/federation/approvals.go:300-339 | a receipt returned was approved by two different people and still APPROVED at its second read |
| Approvals.RevokedReceiptIsDead | internal/federation/approvals.go:267-339 | once its proposal is revoked no later use of a receipt succeeds |
| Approvals.DecideKeeps | internal/federation/approvals.go:201-265 | a decision on a proposal read earlier overwrites exactly what was read and keeps the ledger sound |
| GovernanceKeys.KindsApart | internal/federation/approvals.go:85-90 | a proposal and a receipt never share a key of the approvals bucket |
| GovernanceKeys.HistoryKeyInjective | internal/federation/trust_ledger.go:430-440 | the zero-padded history key names one trust and one revision, whatever characters the ID holds |
| GovernanceService.ApprovalLedger.ClaimReceipt | internal/federation/approvals.go:247-255 | in the shared bucket a receipt key is claimed at most once and no proposal record is touched |
| GovernanceService.ApprovalLedger.Propose | internal/federation/approvals.go:140-179 | the bucket goes on holding a sound ledger that extends the old one by exactly the proposal, or nothing changes |
| GovernanceService.ApprovalLedger.Decide | internal/federation/approvals.go:201-265 | a decision on a proposal read earlier leaves the bucket holding a sound ledger that takes nothing back, or nothing changes; receipt and proposal are written together |
| GovernanceService.ApprovalLedger.Revoke | internal/federation/approvals.go:267-291 | revoking leaves the bucket holding a sound ledger that takes nothing back, or nothing changes |
| Trusts.SameRevisionSameValue | internal/federation/trust_ledger.go:281-316 | no ABA: a revision read earlier and current again has the same value |
| Trusts.ActiveFollowsVerifying | internal/federation/trust_ledger.go:243-316 | every ACTIVE entry directly follows a VERIFYING one and was committed by an approved two-person proposal |
| Trusts.IdentityNeverChanges | internal/federation/trust_ledger.go:120-129 | scope, issuer, protocol, provider and creation time are the same in every revision, time does not go back, and nothing follows REVOKED |
| Trusts.OneApprovalPerPredecessor | internal/federation/trust_ledger.go:281-316 | of all proposals against one predecessor at most one is ever approved |
| Trusts.HistoryIsApprovalsPlusContainments | internal/federation/trust_ledger.go:392-440 | history entries are approved proposals plus containments, counted exactly |
| Trusts.DecideKeeps | internal/federation/trust_ledger.go:243-316 | deciding a proposal read earlier keeps the chained history and the accounting |
| Trusts.ContainKeeps | internal/federation/trust_ledger.go:355-405 | containing a trust read earlier keeps the chained history and the accounting |
| GovernanceService.TrustLedger.Propose | internal/federation/trust_ledger.go:152-212 | proposing against the trust read before leaves the buckets holding a sound ledger that extends the old one, or nothing changes |
| GovernanceService.TrustLedger.Decide | internal/federation/trust_ledger.go:243-316 | deciding a proposal read earlier leaves the three buckets holding a sound, chained and accounted ledger that takes nothing back, or none of them changes |
| GovernanceService.TrustLedger.Contain | internal/federation/trust_ledger.go:355-405 | containing a trust read earlier leaves the buckets holding a sound, chained and accounted ledger that takes nothing back, or none of them changes |
| GovernanceService.TrustLedger.PutRevision | internal/federation/trust_ledger.go:430-440 | the history only grows: a revision stored before stays under its key, and pointer and entry are written together or not at all |
| GovernanceService.TrustLedger.Fence | internal/federation/trust_ledger.go:410-428 | a read is accepted exactly when its clock is not behind the watermark, which it raises and nothing else; the ledger stays sound |
| Governance.RunIsSound | internal/federation/trust_ledger.go:152-440 | every world of an interleaved run is sound and extends every earlier one |
| Governance.TrustHistoryIsChain | internal/federation/trust_ledger.go:120-440 | in every reachable world a trust's history is exactly revisions 1..n, starts REQUESTED, ends at the current one, and each step is an allowed transition |
| Governance.RunConserves | internal/federation/trust_ledger.go:188-440 | in every reachable world history entries equal approved proposals plus containments, and receipt keys equal proposals ever approved |
| Governance.TrustWasCurrentThroughout | internal/federation/trust_ledger.go:318-343 | a revision returned by Trust was the current one at every moment of the call |
| Governance.ExpiryIsFinal | internal/federation/trust_ledger.go:318-343 | once the watermark has reached a snapshot's end of validity, no Trust call that still has to raise it returns that snapshot, whatever its clock reads |
| Governance.RevokeCommits | internal/federation/approvals.go:267-291 | a committed revocation leaves the receipt key pointing at the revoked proposal |
| Governance.RevocationIsFinal | internal/federation/trust_ledger.go:226-343 | once one of the six receipts of an ACTIVE revision is revoked, no Trust call that starts later returns that revision, whatever follows |
| Governance.ActiveRestsOnSixReceipts | internal/federation/trust_ledger.go:226-316 | in every reachable world each ACTIVE entry rests on six receipts, each approved by two people |
| Consume.Minimum | internal/federation/consume.go:69-77 | the least of the given times |
| Consume.CheckTrust | internal/federation/consume.go:93-142 | accepts exactly a fitting snapshot with its six standing receipts, and returns the least of their expiries and the policy bound |
| Consume.Consume | internal/federation/consume.go:85-247 | decides exactly when every answer fits and the second clock reading is in time; the decision expires at the least expiry of everything relied on |
| Decisions.OneDecisionPerOidcEvent | internal/federation/consume.go:85-247 | two decisions made from evidence released at different steps of any run of the OIDC ledger are for different events, and each expires at the least expiry of everything it relied on |
| Decisions.RestsOnToken | internal/federation/consume.go:85-247 | each such decision goes back to one committed ID token, which named the issuer and subject of the identity decided for and outlasts the decision |
| Decisions.OneDecisionPerToken | internal/federation/consume.go:85-247 | no raw ID token supports two decisions |
| Decisions.OneDecisionPerBrokerEvent | internal/federation/consume.go:85-247 | two decisions made from evidence released at different steps of any run of the broker ledger are for different events, and each expires at the least expiry of everything it relied on |
| Decisions.RestsOnAssertion | internal/federation/consume.go:85-247 | each such decision goes back to one captured assertion, whose principal is the identity decided for and which outlasts the decision |
| Decisions.OneDecisionPerAssertion | internal/federation/consume.go:85-247 | over every run whose maintenance finds no fence between its readings no upstream assertion supports two decisions |
| StrictJson.UniqueIff | internal/federation/validate.go:112-149 | on any value's tokens exactly that value is consumed, and accepted if and only if it holds no null and no repeated name at any depth |
| StrictJson.DocumentIff | internal/federation/validate.go:62-74 | a whole document is accepted if and only if its one value is strict and nothing follows it |
| StrictJson.Decoder.UniqueJson | internal/federation/validate.go:112-149 | the decoder method accepts and advances exactly as the specification does, on any token stream |
| Text.SplitJoin | internal/tokenprofile/response.go:42-42 | splitting a joined list of separator-free parts gives the parts back |
| Text.SortForgetsOrder | internal/tokenprofile/consent_seal.go:62-65 | two lists sort alike if and only if they are permutations of each other |
| TokenProfile.Subset | internal/tokenprofile/profile.go:161-177 | true exactly for a repeat-free list of allowed values |
| TokenProfile.SameSetIff | internal/tokenprofile/profile.go:179-179 | equal length and one inclusion hold exactly when both lists are repeat-free with equal sets |
| TokenProfile.SameSet | internal/tokenprofile/profile.go:179-179 | decides equality of two repeat-free lists as sets |
| TokenProfile.CheckValues | internal/tokenprofile/human.go:49-60 | true exactly for a nonempty, repeat-free list of canonical values |
| TokenProfile.CheckRegistry | internal/tokenprofile/human.go:69-91 | counting keys and reached audiences decides that registry and profile name the same scopes and every profile audience is reached |
| TokenProfile.ValidateProfile | internal/tokenprofile/human.go:39-91 | decides validity of a human token profile |
| TokenProfile.ValidateRequest | internal/tokenprofile/request.go:30-42 | decides validity of a canonical token request |
| TokenProfile.Claims | internal/tokenprofile/profile.go:121-159 | returns the specified claims or refuses, for any configuration |
| TokenProfile.ScopeClaimRoundTrip | internal/tokenprofile/profile.go:121-159 | for any configuration, splitting the issued scope claim gives back exactly the granted scopes, inside the ceiling and none native |
| TokenProfile.AdmittedWithinCeiling | internal/tokenprofile/request.go:53-85 | an admitted request keeps its workload and audience, only omitted scopes come from the defaults, and all lie in the ceiling |
| TokenProfile.BindsAdmittedIff | internal/tokenprofile/response.go:32-47 | a response binds to an admitted request exactly when its scope claim lists the granted scopes once each |
| TokenProfile.IssuedClaimBinds | internal/tokenprofile/response.go:32-47 | a valid response carrying the issued claim binds to the request that was admitted |
| HumanConsent.MessageDefined | internal/tokenprofile/consent_seal.go:62-75 | exactly the complete and canonical decisions have a sealed message |
| HumanConsent.MessageUnambiguous | internal/tokenprofile/consent_seal.go:62-75 | two messages are equal if and only if the decisions agree in request, client, subject, audience list and scope multiset |
| HumanConsent.SealVerifiesIff | internal/tokenprofile/consent_seal.go:38-57 | under an injective MAC a seal verifies for exactly the decision it was made for |
| HumanConsent.Classify | internal/tokenprofile/human.go:118-136 | accepts exactly repeat-free permitted scopes and returns the profile scopes among them in order |
| HumanConsent.Audience | internal/tokenprofile/human.go:141-152 | the profile audiences some granted scope is issued for, in profile order |
| HumanConsent.Consent | internal/tokenprofile/human.go:107-137 | returns the specified audience or refuses |
| HumanConsent.AudienceIsUnion | internal/tokenprofile/human.go:107-152 | for a validated configuration the audience is the union of the registry audiences of the granted profile scopes, each once, in profile order, never empty |
| HumanConsent.Hook | internal/tokenprofile/human.go:194-265 | returns the specified claims or refuses, on code exchange and refresh |
| HumanConsent.HookNeedsSealedConsent | internal/tokenprofile/human.go:194-249 | under an unforgeable MAC the hook issues only for a decision that consent really sealed |
| HumanConsent.HookIssuesOnlyConsented | internal/tokenprofile/human.go:107-265 | when every sealed decision came from consent, the hook issues only for scopes and an audience that consent grants the client, and under a validated configuration never for offline_access |
| HumanConsent.GrantedConsentSeals | internal/tokenprofile/consent_seal.go:38-75 | a granted consent can be sealed exactly when request, client and subject are canonical and the key is long enough |
| HumanConsent.ConsentAndHookAgree | internal/tokenprofile/human.go:107-265 | after consent was granted and sealed, the hook issues on a code exchange for any permutation of the scopes exactly when subject and assurance are acceptable |
| HumanConsent.ConsentAndRefreshAgree | internal/tokenprofile/human.go:107-265 | on refresh, for any permutation of the granted scopes, the hook issues exactly when the granted audience is the consented one as a set and subject, assurance and requested scopes are acceptable |
| MigrationService.Draft.Move | internal/migration/state.go:79-105 | the record moves along an allowed edge, counting attempts, or stays exactly as it was |
| MigrationLedger.TransitionIsStorable | internal/migration/service.go:56-79 | a transition of the unchanged stored row is one the store accepts, except into the protected states |
| MigrationService.Store.Put | internal/migration/postgres.go:103-193 | the revision-checked write: its whole effect, its refusals, and the caller's new revision; the ledger stays sound and takes nothing back |
| MigrationService.Store.Get | internal/migration/postgres.go:204-210 | returns a well-formed row, which in a sound store is the head of its own history |
| MigrationService.Store.ApplyTransition | internal/migration/service.go:56-79 | load, any policy gate, move, stamp and store in one, with no change when refused; the ledger stays sound and takes nothing back |
| MigrationService.NoGateStoresCutover | internal/migration/postgres.go:115-120 | whatever the policy gate allows, no row is stored in a cutover or retired state |
| MigrationService.Store.SetTargetBinding | internal/migration/service.go:98-120 | load, bind the trimmed target and store, with no change when refused; the ledger stays sound and takes nothing back |
| MigrationService.Store.Begin | internal/migration/containment.go:63-156 | the containment transaction and the phase it reports, with no change when refused; the ledger stays sound and takes nothing back |
| MigrationService.Store.MarkPhase | internal/migration/containment.go:158-171 | changes at most this operation's phase: rows, histories, fences and every other operation stay, a verified phase only leaves to unknown, and the ledger stays sound |
| MigrationService.Store.RollbackPreCutover | internal/migration/containment.go:307-338 | uninterrupted, a rollback succeeds only for an unfenced row, a confirmed witness and an allowed edge; the ledger stays sound and takes nothing back |
| MigrationService.TransitionStored | internal/migration/service.go:56-79 | a stored transition moved exactly its row, by one revision, to the state asked for |
| MigrationLedger.PutKeeps | internal/migration/postgres.go:103-193 | a write keeps histories, fences and journal sound and takes nothing back |
| MigrationLedger.BeginKeeps | internal/migration/containment.go:96-142 | fence, journal entry and quarantine are committed together, soundly |
| MigrationRuns.RunIsSound | internal/migration/postgres.go:103-193 | in every reachable world rows carry their whole path, fences name their row's own accounts, and a migration has one operation |
| MigrationRuns.RunExtends | internal/migration/postgres.go:152-184 | over every run rows, histories, fences and operations are never taken back, and an equal revision means an equal row |
| MigrationRuns.RowIsPath | internal/migration/state.go:8-61 | a row's persisted states form a path of allowed transitions from DISCOVERED, one per revision, never CUTOVER or LEGACY_RETIRED |
| MigrationRuns.StepMovesRow | internal/migration/postgres.go:103-193 | any step leaves a row, inserts it as DISCOVERED at revision one, or rewrites it one revision later under the write rules |
| MigrationRuns.TargetBoundOnce | internal/migration/postgres.go:152-161 | identity never changes, a target once set never changes, and after insertion it is set only while PROVISIONING |
| MigrationRuns.OneWriterPerRevision | internal/migration/postgres.go:152-184 | two writers from one revision of a row cannot both change it |
| Containment.ProviderCallsFollowFence | internal/migration/containment.go:183-278 | every provider call goes back to an earlier world in which its row was fenced and quarantined, and the fence has stood since |
| Containment.VerifiedMeansConfirmed | internal/migration/containment.go:225-278 | behind a verified operation stands one containment call of its migration that, after its own fence, had every provider call and the denial witness confirmed; and a migration has one operation |
| Containment.VerifiedLeavesOnlyToUnknown | internal/migration/containment.go:158-171 | over every run a verified operation that is no longer verified was turned unknown by a failed containment call of its own, and was verified until then |
| Containment.RestoreCommitsIff | internal/migration/containment.go:307-338 | a rollback's write goes through if and only if nothing has written the row since it was loaded |
| Containment.QuarantineBlocksRestore | internal/migration/containment.go:307-338 | while a row is quarantined no rollback can write it |
| Containment.FenceHoldsAgainstRollback | internal/migration/containment.go:307-338 | when nothing else takes the row out of quarantine, no rollback moves it after its fence commits |
| Containment.RollbackAfterFenceNeedsRelease | internal/migration/containment.go:307-338 | a rollback that writes a fenced row needs another writer that released it after the fence |
| ContainmentRace.ReleaseLetsRollbackThrough | internal/migration/containment.go:307-338 | for every containable row and admitted operation ID there is a run in which the fenced row is released and then rolled back |
| ContainmentRace.RaceHappens | internal/migration/containment.go:307-338 | such a run exists under the code's own operation pattern and secret markers |

## Left out

- HTTP clients, handlers, TLS, the code exchange and the provider adapters: their answers are arbitrary inputs of the steps.
- Signatures, SAML XML parsing, JOSE and AES: only the claims they return and the comparisons made on them are modelled; the signature verdict is an input.
- URL, key and certificate rules of a broker configuration (internal/federation/broker_events.go:104-143), the absolute redirect URI of its authorization request among them: one verdict of the configuration, which is an input.
- Identifier grammars, URL rules and secret markers: arbitrary predicates, except in `BrokerScene` and `ContainmentRace.RaceHappens`, which use the code's patterns.
- Context cancellation and corrupt records: each only refuses a call, and refusal is already a possible outcome of every step.
- Storage.Bucket.Put: does not model the refusals of a read-only transaction and of a nil value; no modelled caller writes in a read-only transaction or stores nil.
- Storage.Bucket.Delete: does not model the refusal of a read-only transaction; no modelled caller deletes in one.
- Storage.Cursor.Read: does not model a failing query or scan, which ends the cursor and refuses the whole transaction; the model states what a transaction that commits has seen.
- Storage.ForEach: does not model the transaction error returned at the end, for the same reason.
- Error codes: all refusals are one.
- Byte lengths of identifiers: counted in characters.
- SQL text and bbolt: storage is atomic transactions on maps; constraint violations are refusals the database may make at any write.
- `Config.Validate` iterates over a map in Go; the model states it as a condition on all entries.
- JSON decoding of token requests and responses: the model starts from the decoded record, and no result depends on how it was decoded.
- BrokerRuns.FenceCoversAssertion: assumes that readings inside one Capture call do not go back; a clock that falls back between the verification and the storing transaction can write a fence that ends before its assertion.
- BrokerRuns.ReplayIdVerifiedOnce: holds for runs whose maintenance finds no fence between its two readings; without that it is false of the code, as `BrokerScene.ReplayHappens` shows.
- BrokerRuns.AssertionVerifiedOnce: holds under the same condition, and is false without it for the same reason.
- Decisions.OneDecisionPerAssertion: holds under the same condition; one decision per event needs none.
- Governance.ExpiryIsFinal: is about calls whose second raise of the watermark is still to come; a call past it has already been answered from a snapshot that was valid then.
- Containment.FenceHoldsAgainstRollback: assumes that no other writer releases the row; without that it is false of the code, as `ContainmentRace.RaceHappens` shows.
- OidcFairness.ReachableMaintenanceIsFair: no other writer stores records between the batches counted; records stored later are not among those it promises to remove.
- Readiness probes, previews and listings: they change no ledger and no step reads their answers.
- Migration batches and the migration bridge: they call the modelled store one row at a time and add no rule to it.
- `cmd`, scripts and qualification runners: start-up and test tooling around the modelled calls.
