# Wardnet cloud: verified model

This project models the parts of the Wardnet cloud control plane that are hardest to get right and
proves what they promise:

- **Regional DNS.** The DDNS service publishes one A record per network and short-lived ACME TXT records
  at a DNS provider, keeps their ids in an `operational` table, and runs on several replicas without
  locks. `Zone` is the shared state and its atomic calls, `DdnsSteps` the five operations as processes
  that make one call per step. `DdnsTyping`, `ClaimSafety`, `Convergence`, `AddressAccounting` and
  `AcmeAccounting` prove what holds in every interleaving of any number of them with any call failing.
  `DdnsService` is the service as an object whose methods are proved to do exactly what those processes
  do; `DdnsSequential` carries the results over, and `DdnsEffects` says what each operation has achieved
  when it reports success. `Reconcile` is the paged drain of the work queues.
- **Licences and billing.** `Licence` is the `subscriptions` table and its statements, `LicenceRaces`
  their interleavings, `Subscriptions` the licence service and its reaper. `Webhooks` and
  `BillingService` are Stripe events delivered at least once and stopping anywhere, `WebhookEffects` says
  what a delivery leaves, `WebhookRaces` are deliveries of one event that overlap, `EventRaces` those of
  different events. `TenantReconcile` is the cross-aggregate safety net, `ChangePlan` the plan change with
  release, act and restore, `Catalog` plan validation and promotions.
- **Time-windowed guards.** `ReplayCache` and `LoginThrottle`.

Operations that change state are classes whose methods are proved against functions; what is promised
about whole runs is proved about those functions.

## Where code and documentation differ

The model follows the code. Each difference is an exact statement in the table below.

- A claim survives everything as long as no reaper works on its network. With one, a claim can end up on
  a deleted record, and after a dropped row even a provisioner that lost can delete the record another
  one has claimed. `provision` never repairs a claim whose record is gone.
- Teardown can leave an A record live with no row, without any failing call, if the row is claimed after
  it was read.
- A trial is said to open only for a tenant without history; the test and the insert of one statement can
  be overtaken by another opening and its cancellation.
- The reaper cancels the live row of a tenant it listed even if that row is a new, active one by then.
- The comment on the conversion's fold says that it never overwrites a paid row; it does when another
  conversion of the tenant commits after its snapshot.
- The comment in `apply_upsert` holds for declined subscriptions; an attempt that stops between the
  reference and the conversion still leaves a running trial open to a later deletion, and so does one
  that is merely overlapped there.
- Reconciling is described as the safety net for any dropped event; it visits live tenants only, so a
  dropped deregistration leaves licence and networks of a tombstoned tenant up. So do its delivered
  events if the tenant had lost its licence before but not its networks.
- A plan change is said to restore a pending downgrade after a failure; if the schedule was attached and
  setting its phases failed, the restore cannot succeed.
- The replay window of 120 s is half open while the timestamp window is closed, so one key can be
  accepted at both ends.
- The login window is described as rolling; it is anchored at its first attempt.

## Model

| member | source | states |
|---|---|---|
| ClaimSafety.ClaimIsPermanent | source/crates/ddns/src/service/ddns.rs:98-136 | In every interleaving of any number of provisioners, reporters, ACME writers and reapers in which no reaper works on the network, with any call failing, its claimed A-record id never changes and its record, if live, is never deleted by anyone, a losing replica included |
| ClaimSafety.ClaimedWhileLive | source/crates/ddns/src/repository/operational.rs:153-172 | A claim made during such a run names a record that was live when it was claimed and stays live to the end of the run |
| ClaimSafety.IdIsPermanent | source/crates/ddns/src/repository/operational.rs:153-172 | Even with a reaper at work the claimed id never changes in any run until the row itself is dropped |
| ClaimSafety.BrokenExactly | source/crates/ddns/src/service/ddns.rs:113-136 | From any state, one step breaks a claim if and only if it is a reaper deleting the claimed record or dropping the claimed row, or a provisioner deleting the claimed record as its duplicate |
| ClaimSafety.LoserNeedsDroppedRow | source/crates/ddns/src/service/ddns.rs:113-136 | In every run the last of these needs an earlier successful drop of that row |
| ClaimSafety.BrokenOnlyByReaper | source/crates/ddns/src/service/ddns.rs:237-256 | So in every run a broken claim is the work of a reaper on that network, there and then or by an earlier drop |
| ClaimSafety.LoserDeletesClaimed | source/crates/ddns/src/service/ddns.rs:113-136 | A concrete fourteen-step run in which, after a reaper dropped the unclaimed row, a losing provisioner deletes the live record another one has claimed |
| ClaimSafety.ReaperLeavesDeadClaim | source/crates/ddns/src/service/ddns.rs:98-136 | A concrete nine-step run with a reaper and a report after which the stored claim names a deleted record |
| ClaimSafety.NextClaim | source/crates/ddns/src/service/ddns.rs:98-136 | The claim invariant of a network is inductive: every move that is not a reaper of that network keeps it, failed or not, whatever network it works on |
| Convergence.RacersConverge | source/crates/ddns/src/service/ddns.rs:98-136 | Starting with at most one A record under the FQDN and with neither a reaper nor a failing call on the network, when its processes have finished and one returned Ok, no A record but the stored one is live, and exactly one is live if and only if the run did not start from a claim whose record was already gone |
| Convergence.NextConverging | source/crates/ddns/src/service/ddns.rs:98-136 | Every live A record of the network stays accounted for: stored, held by a provisioner that will claim or drop it, or the only one there is and the one everybody will pick up |
| AddressAccounting.OrphanedExactly | source/crates/ddns/src/service/ddns.rs:98-136 | In any state, a call leaves an A record live with neither a row nor a provisioner accounting for it if and only if it is a failed call of the last provisioner holding it, or a successful drop of the row that stores it |
| AddressAccounting.OrphanFromTheStart | source/crates/ddns/src/service/ddns.rs:98-136 | Over every run in which no call lets go of a record, it is such an orphan only if it was one before |
| AddressAccounting.ReaperOrphansClaimed | source/crates/ddns/src/service/ddns.rs:237-256 | A concrete six-step run with no failing call in which provisioning and teardown both succeed and the record is left live with no row |
| DdnsTyping.NextTyped | source/crates/ddns/src/service/ddns.rs:60-256 | Under all five operations and any failure, stored and held ids keep kind and name, and old ids never come back |
| DdnsTyping.GoneForGood | source/crates/ddns/src/service/ddns.rs:237-256 | A deleted record id is gone for the rest of every run |
| DdnsTyping.OnlyProvisionerCreates | source/crates/ddns/src/service/ddns.rs:98-107 | An A record appears only by a provisioner that found none under the name |
| DdnsTyping.NoResurrection | source/crates/ddns/src/service/ddns.rs:60-80 | In every provisioner-free interleaving of reports, ACME writes and reapers the set of live A records never grows, so a torn-down record stays down even if a report read the row before the teardown |
| AcmeAccounting.CasReplacesOnlyDeleted | source/crates/ddns/src/repository/operational.rs:174-212 | A compare-and-set that applies replaces only records that are already gone, whoever else interleaved |
| AcmeAccounting.OrphansOnlyByLeak | source/crates/ddns/src/service/ddns.rs:164-228 | A live TXT record that is neither stored nor held appears only at a lost or failed compare-and-set, a failed clean-up delete, or a reaper dropping a row whose list changed meanwhile |
| AcmeAccounting.LeakOrphansExactly | source/crates/ddns/src/service/ddns.rs:271-323 | Such a step orphans exactly the live records it lets go of that no other writer holds: the created ids not stored, the one whose delete failed, or the list of the dropped row |
| AcmeAccounting.NoNewOrphans | source/crates/ddns/src/service/ddns.rs:271-323 | Over a whole run without such a step no orphaned TXT record appears |
| AcmeAccounting.QuietEnd | source/crates/ddns/src/service/ddns.rs:164-228 | After a run without such a step, when the processes of the network have finished, a live TXT record is in the stored list or was an orphan before the run |
| AcmeAccounting.ConflictHasCause | source/crates/ddns/src/service/ddns.rs:271-323 | In every run a set or clear ends in a conflict only if someone else changed the stored list between its read and its compare-and-set |
| DdnsService.DdnsService.ReportIp | source/crates/ddns/src/service/ddns.rs:60-80 | The method does, call by call and failure by failure, what the report process does when it runs alone: same zone, same table, same outcome |
| DdnsService.DdnsService.Provision | source/crates/ddns/src/service/ddns.rs:98-136 | The same for the provisioning process from its search on |
| DdnsService.DdnsService.ClaimOrDrop | source/crates/ddns/src/service/ddns.rs:109-136 | The same for claiming the record, re-reading on a miss and dropping a duplicate |
| DdnsService.DdnsService.ProvisionIfReported | source/crates/ddns/src/reconcile.rs:74-95 | The same for one provisioner turn, which skips a network without a reported IP |
| DdnsService.DdnsService.SetAcmeChallenge | source/crates/ddns/src/service/ddns.rs:164-209 | The same for replacing the challenge set, its two loops included |
| DdnsService.DdnsService.CreateAll | source/crates/ddns/src/service/ddns.rs:182-209 | The same for the create loop and the final compare-and-set |
| DdnsService.DdnsService.AbandonCreate | source/crates/ddns/src/service/ddns.rs:183-199 | The same for the clean-up loop after a failed create |
| DdnsService.DdnsService.ClearAcmeChallenge | source/crates/ddns/src/service/ddns.rs:217-228 | The same for clearing the challenge set |
| DdnsService.DdnsService.DeleteRecords | source/crates/ddns/src/service/ddns.rs:237-256 | The same for tearing a network down |
| DdnsService.StepProgress | source/crates/ddns/src/service/ddns.rs:60-323 | Every call of every operation strictly decreases a measure, so every operation ends after finitely many calls |
| DdnsSequential.ExecIsRun | source/crates/ddns/src/service/ddns.rs:60-256 | Running an operation alone is a run of the interleaving model, so the safety results carry over to the methods |
| DdnsSequential.SequentialStaysInSync | source/crates/ddns/src/service/ddns.rs:60-80 | Over any failure-free sequence of operations a claimed record exists, is the only A record of its network and holds the stored IP |
| DdnsSequential.HalfReportDesyncs | source/crates/ddns/src/service/ddns.rs:60-80 | With failures record and row come apart by a report if and only if the update went through, storing the IP failed and the IP was new |
| DdnsEffects.ReportTakesEffect | source/crates/ddns/src/service/ddns.rs:60-80 | A report succeeds if and only if its calls go through and a claimed record is still there; then row and claimed record hold the IP and nothing else in zone or table changed |
| DdnsEffects.ProvisionTakesEffect | source/crates/ddns/src/service/ddns.rs:98-136 | Provisioning an unclaimed row succeeds if and only if its three calls go through; then the IP is published under the existing record or else a new one, its id is stored, and nothing else changed |
| DdnsEffects.ProvisionPublishes | source/crates/ddns/src/service/ddns.rs:98-107 | Whatever the row says, once find and upsert go through the IP is published under the record found, or a new one, and the claim follows; otherwise nothing changed |
| DdnsEffects.TurnTakesEffect | source/crates/ddns/src/reconcile.rs:74-95 | A turn of the provisioner skips a network without a reported IP, writing nothing, and otherwise provisions that IP |
| DdnsEffects.ProvisionKeepsClaims | source/crates/ddns/src/service/ddns.rs:98-136 | However it ends, a turn that nothing interleaves keeps every claim, and one that reports success leaves its network claimed |
| DdnsEffects.ClaimTakesEffect | source/crates/ddns/src/service/ddns.rs:109-136 | From the claim on, success needs exactly the claiming call and, on a row already claimed, the rereading one; an unclaimed row takes the id; on a claimed one the table is untouched and the own record is dropped exactly if it is not the stored one and the delete goes through |
| DdnsEffects.SetTakesEffect | source/crates/ddns/src/service/ddns.rs:164-209 | A successful challenge set has replaced the old records by one per value in order and stored exactly their ids, with nothing else changed; without failures it succeeds |
| DdnsEffects.AbandonTakesEffect | source/crates/ddns/src/service/ddns.rs:185-203 | A challenge set abandoned after a failed create has deleted exactly the new records whose delete went through, and has emptied the stored list exactly if the clearing call went through and the list is the one read; it reports an error |
| DdnsEffects.ClearTakesEffect | source/crates/ddns/src/service/ddns.rs:217-228 | A successful clear has deleted exactly the stored records and emptied the list; without failures it succeeds |
| DdnsEffects.ReapTakesEffect | source/crates/ddns/src/service/ddns.rs:237-256 | A successful teardown has deleted exactly the records the row names, and the row; without failures it succeeds |
| DdnsEffects.ReapAddsNoRow | source/crates/ddns/src/service/ddns.rs:237-256 | However it ends, a teardown adds no row |
| Reconcile.Page | source/crates/tenants/src/repository/network.rs:257-277 | A page is ascending, within the limit, drawn from the queue, and leaves out only members above a full page |
| Reconcile.ReaperTick | source/crates/ddns/src/reconcile.rs:133-165 | The paged drain terminates, handles queued networks in id order and never twice, all of them if no page fetch fails, whatever else does, and does to zone and table what handling them one after the other does; a network leaves the queue only if its teardown succeeded, and exactly then if no report fails; whatever fails, the row of a network that was handled and has left the queue is gone; without any failure the queue is empty and exactly their rows are gone |
| Reconcile.ProvisionerTick | source/crates/ddns/src/reconcile.rs:50-106 | The same drain with the same completeness; a network leaves the queue only if provisioning it succeeded, and exactly then if no report fails; whatever fails, a network that was handled and has left the queue has a claimed record; without any failure what is left is exactly the networks that have not reported an IP |
| Reconcile.ReapPage | source/crates/ddns/src/reconcile.rs:150-161 | Handling a page of a pass, whatever fails: everything behind the cursor is handled in order and everything beyond it untouched, zone and table are those of handling the networks one after the other, and one has left the queue only if its teardown succeeded, exactly then if no report fails |
| Reconcile.ProvisionPage | source/crates/ddns/src/reconcile.rs:74-101 | The same for a provisioner page, with provisioned for torn down, so that skipped and failed networks stay queued |
| Reconcile.ReapAll | source/crates/ddns/src/reconcile.rs:150-161 | Without failures reaping a list of networks drops exactly their rows |
| Reconcile.ReapedAreGone | source/crates/ddns/src/reconcile.rs:150-161 | After any pass over a list of networks, each one reported torn down has no row, whatever the later turns did |
| Reconcile.ProvisionAll | source/crates/ddns/src/reconcile.rs:74-95 | Without failures provisioning a list of networks changes no reported IP |
| Reconcile.ProvisionedAreClaimed | source/crates/ddns/src/reconcile.rs:74-101 | After any pass over a list of networks, each one reported provisioned has a claimed record, whatever the later turns did |
| Licence.ConvertKeeps | source/crates/subscriptions/src/repository.rs:207-235 | A conversion keeps one live row per tenant, rewrites no canceled row, creates no trial, and leaves the paid row current |
| Licence.InsertOrFoldKeeps | source/crates/subscriptions/src/repository.rs:93-99 | The insert with its conflict fold keeps one live row whatever live row it meets and makes the paid row current |
| Licence.InsertTrialKeeps | source/crates/subscriptions/src/repository.rs:170-194 | Opening a trial keeps one live row and adds a trial only to a tenant without history |
| Licence.UpdateKeeps | source/crates/subscriptions/src/repository.rs:237-257 | Updating in place keeps one live row and touches no canceled row |
| Licence.MarkPastDueKeeps | source/crates/subscriptions/src/repository.rs:259-269 | So does marking past due |
| Licence.CancelKeeps | source/crates/subscriptions/src/repository.rs:271-281 | So does cancelling |
| Licence.CurrentIs | source/crates/subscriptions/src/repository.rs:196-205 | With one live row the current subscription is that row |
| Licence.TrialIsOver | source/crates/subscriptions/src/repository.rs:170-281 | A tenant with history that is not on trial is not on trial after any sequence of permitted table changes |
| LicenceRaces.AlwaysOneLive | source/crates/subscriptions/src/repository.rs:207-235 | At most one live row per tenant in every state of every interleaving of split conversions, split trial openings and split reaper passes with all other statements |
| LicenceRaces.ExactlyOneAfterCommit | source/crates/subscriptions/src/repository.rs:207-235 | Right after a conversion commits its tenant has exactly one live row, the paid one |
| LicenceRaces.FoldsExactlyOnEscapedRow | source/crates/subscriptions/src/repository.rs:93-99 | A commit adds no row, and folds into an existing one, if and only if a live row escaped its snapshot |
| LicenceRaces.PaidRowOverwrittenExactly | source/crates/subscriptions/src/repository.rs:207-235 | A live paid row of the tenant is overwritten in place by the committed paid row if and only if it escaped the snapshot; otherwise it is canceled |
| LicenceRaces.SecondCommitOverwrites | source/crates/subscriptions/src/repository.rs:207-235 | A concrete run of two conversions of one trial in which the second commit overwrites the paid row of the first |
| LicenceRaces.CanceledIsFinal | source/crates/subscriptions/src/repository.rs:170-281 | In every run a canceled row stays exactly as it is |
| LicenceRaces.NoWayBack | source/crates/subscriptions/src/repository.rs:170-281 | In every run a tenant past its trial never returns to one, unless an opening whose test has been overtaken inserts |
| LicenceRaces.AtMostOneTrial | source/crates/subscriptions/src/repository.rs:170-194 | In every run at most one trial row is added for a tenant, none if it had any licence before, plus one for each opening whose test has been overtaken |
| LicenceRaces.SecondTrialExactly | source/crates/subscriptions/src/repository.rs:170-194 | An operation adds a trial row for a tenant with history if and only if it is the insert of a tested opening, found no history then, and all of it is canceled now |
| LicenceRaces.SecondTrialInRun | source/crates/subscriptions/src/repository.rs:170-194 | In every run such an insert has its test at an earlier step at which the tenant had no history |
| LicenceRaces.TwoTrials | source/crates/subscriptions/src/repository.rs:170-194 | A concrete run of two openings and a cancellation in which a tenant gets two trials |
| LicenceRaces.CancelsActiveExactly | source/crates/subscriptions/src/service.rs:123-139 | With the list and each cancellation of a reaper pass as separate steps, in every run the pass cancels a row that is active if and only if it is the live row of the listed tenant and came or changed after the list was read; a row as listed is overdue |
| LicenceRaces.ConvertedThenExpired | source/crates/subscriptions/src/service.rs:123-139 | A concrete run in which a trial is listed, converted, and its active paid row cancelled |
| Subscriptions.GapBetweenChecks | source/crates/subscriptions/src/service.rs:145-156 | An overdue row is never active, and a live row is neither if and only if it has no date to go by or sits exactly on date plus grace |
| Subscriptions.ListedOnce | source/crates/subscriptions/src/repository.rs:283-298 | With one live row per tenant no tenant is listed overdue twice |
| Subscriptions.ChangedCounts | source/crates/subscriptions/src/service.rs:123-139 | The number of rows the reaper changes is the number of tenants listed |
| Subscriptions.SubscriptionService.CreateTrial | source/crates/subscriptions/src/service.rs:64-81 | A trial is opened exactly for a tenant without history, as one more row with one network and one daemon; it is active exactly until trial and grace days are over and overdue exactly after |
| Subscriptions.SubscriptionService.Cancel | source/crates/subscriptions/src/service.rs:100-114 | Afterwards the tenant has no licence, and a deactivation is published exactly if one was ended |
| Subscriptions.SubscriptionService.ExpireOverdue | source/crates/subscriptions/src/service.rs:123-139 | A pass that nothing interleaves with cancels exactly the overdue rows and no active one, leaves a live row inactive only if it has no date or sits exactly on its deadline, and counts rows cancelled and deactivations published, each for a cancelled row |
| Subscriptions.SubscriptionService.CancelAll | source/crates/subscriptions/src/service.rs:129-137 | The loop cancels the listed tenants one by one and ends with the fully expired table and one event each, in order |
| Subscriptions.SubscriptionService.ConvertTrialToPaid | source/crates/subscriptions/src/service.rs:183-208 | One live row is kept, a non-canceled conversion becomes current with the reported status, entitlement and period, and no other tenant's licence changes |
| Subscriptions.SubscriptionService.UpdatePaid | source/crates/subscriptions/src/service.rs:210-221 | The current licence takes the reported status, entitlement and period, or ends if the status says so; no other tenant's changes, one live row is kept, and the answer says whether there was one |
| Subscriptions.SubscriptionService.MarkPastDueNow | source/crates/subscriptions/src/service.rs:223-225 | The current licence keeps its terms and becomes past due; no other tenant's changes, one live row is kept, and the answer says whether there was one |
| Webhooks.MapStatus | source/crates/billing/src/gateway.rs:1002-1008 | Exactly the two good statuses grant full service and exactly the two overdue ones are past due; anything else is closed, and none maps to our own trial |
| Webhooks.RetryEqualsOnce | source/crates/billing/src/service.rs:132-140 | An attempt stopped anywhere followed by a success gives the references, processed ids and current licences of one success, also when the retry updates where the first attempt converted |
| Webhooks.RetriesEqualOnce | source/crates/billing/src/service.rs:206-310 | The same for any number of stopped attempts: at least once equals once |
| WebhookRaces.OverlapEqualsOnce | source/crates/billing/src/service.rs:132-140 | The same for deliveries that overlap: in every interleaving of the calls of any number of deliveries of one event, any of them failing and each conversion split into snapshot and commit, once the event is on record the books are those of one success |
| WebhookRaces.NothingInBetween | source/crates/billing/src/service.rs:206-310 | In every state of such a run the current licences are those from before or those of one success |
| WebhookRaces.NextInv | source/crates/billing/src/service.rs:206-310 | Every call keeps the books in one of three shapes and every delivery's plan right for them, the original one or that of a retry |
| WebhookRaces.CommitLands | source/crates/subscriptions/src/repository.rs:207-235 | A conversion that commits, whatever its snapshot saw and however often the conversion has landed before, leaves the current licences of one success |
| WebhookRaces.AloneIsAttempt | source/crates/billing/src/service.rs:132-140 | A delivery nothing comes between that fails after any number of calls, or makes all of them, leaves the books of the attempt with the corresponding stop |
| Webhooks.AttemptConsistent | source/crates/billing/src/service.rs:206-310 | Every attempt, however far it gets, keeps one owner per provider subscription and one live row per tenant |
| Webhooks.SoundUnlessStranded | source/crates/billing/src/service.rs:206-310 | An attempt keeps every recorded subscription with a tenant that has history and no running trial if and only if it does not stop between recording the reference and converting a trial or a first licence |
| Webhooks.StrandedTrialIsCancelled | source/crates/billing/src/service.rs:144-168 | Any attempt that stops there, followed by the deletion of that subscription, does cancel the running trial |
| Webhooks.TrialsUntouched | source/crates/billing/src/service.rs:144-168 | While the books are sound a deletion, a failed payment or a reported cancellation leaves every running trial alone |
| Webhooks.AlwaysSound | source/crates/billing/src/service.rs:206-310 | With deliveries that do not overlap, the books are sound in every state of every run of webhooks, trial openings, cancellations, reaper passes and checkouts without such a stop |
| Webhooks.NoTrialIsHit | source/crates/billing/src/service.rs:144-168 | So in every such run no ending or failing event ever touches a running trial |
| EventRaces.TrialHitOnlyIfExposed | source/crates/billing/src/service.rs:144-168 | With deliveries of any events overlapping call by call, any failing, and every other writer interleaved, an ending or failing event meets a running trial only if some delivery has recorded a reference for the tenant and has yet to convert, or failed to |
| EventRaces.OnlyEndingCallsHit | source/crates/billing/src/service.rs:206-310 | No other call of a delivery touches a running trial, but for converting it |
| EventRaces.NextInv | source/crates/billing/src/service.rs:206-310 | Every call of every writer keeps each tenant with a recorded subscription past its trial or exposed in this way, and every delivery's plan justified |
| EventRaces.DeletedWhileConverting | source/crates/billing/src/service.rs:206-291 | From every sound state with a running trial, a run with no failing call in which a deletion overlaps the conversion, cancels the trial, and the conversion then grants a licence |
| EventRaces.SecondOwnerExactly | source/crates/billing/src/repository.rs:168-194 | A call gives a subscription a second owner if and only if it records the subscription for another tenant than its owner |
| EventRaces.AgreedOneOwner | source/crates/billing/src/service.rs:206-310 | In every run in which no two references or events disagree on the tenant of a subscription, each subscription has at most one owner |
| EventRaces.TwoOwners | source/crates/billing/src/service.rs:206-310 | From every sound state, a run in which two overlapping first events of one subscription that name different tenants are both recorded |
| BillingService.BillingService.TenantForSubscription | source/crates/billing/src/repository.rs:342-355 | The search finds the one owner of a provider subscription |
| BillingService.BillingService.ApplyEvent | source/crates/billing/src/service.rs:132-140 | A delivery changes references, ledger and licences exactly as the specified attempt does, a processed id changes nothing, success means the id is on record, and a deactivation is published for exactly the tenant whose licence ended |
| BillingService.BillingService.ApplyEventKind | source/crates/billing/src/service.rs:144-195 | The writes of one event, up to the point where the attempt stops |
| BillingService.BillingService.ApplyUpsert | source/crates/billing/src/service.rs:206-291 | The same for a created or updated subscription, over all its branches |
| BillingService.EndedExactly | source/crates/billing/src/service.rs:144-168 | An attempt ends the licence of a tenant if and only if it publishes the deactivation of that tenant |
| WebhookEffects.UpsertTakesEffect | source/crates/billing/src/service.rs:206-310 | A delivered upsert that is not canceled gives its tenant a licence with exactly the reported status and period end and the reported entitlement, or the current one if none is reported, and records the reported customer, subscription and price; no other tenant's licence, history or reference changes |
| WebhookEffects.CanceledUpsertTakesEffect | source/crates/billing/src/service.rs:231-236 | A delivered upsert that reports canceled leaves the owner without a licence and everybody else as before |
| WebhookEffects.DeclinedIsOnlyRecorded | source/crates/billing/src/service.rs:211-281 | An upsert about nobody, one that cancels what nobody owns and one that would grant without an entitlement change nothing but the ledger |
| WebhookEffects.FailedPaymentTakesEffect | source/crates/billing/src/service.rs:158-168 | A delivered payment failure leaves the owner its licence with the same terms, past due, and everybody else as before |
| WebhookEffects.DeletionTakesEffect | source/crates/billing/src/service.rs:147-157 | A delivered deletion leaves the owner without a licence and everybody else as before |
| WebhookEffects.UnownedIsOnlyRecorded | source/crates/billing/src/service.rs:147-195 | Either for a subscription nobody owns, and every other kind of event, changes nothing but the ledger |
| WebhookEffects.RedeliveryIsIdle | source/crates/billing/src/service.rs:132-135 | A redelivery of a processed event changes nothing at all |
| Licence.CurrentAfterConvert | source/crates/subscriptions/src/repository.rs:207-235 | After a conversion the paid row is the tenant's current licence and every other tenant's is as before |
| Licence.CurrentAfterCommit | source/crates/subscriptions/src/repository.rs:207-235 | The same for one whose snapshot was taken earlier, whatever it saw, and one live row is kept |
| Licence.CurrentAfterUpdate | source/crates/subscriptions/src/repository.rs:237-257 | After an update the tenant's current licence has the new status, entitlement and period, every other tenant's is as before |
| Licence.CurrentAfterMark | source/crates/subscriptions/src/repository.rs:259-269 | After marking past due only the status of the tenant's current licence differs |
| Licence.CurrentAfterCancel | source/crates/subscriptions/src/repository.rs:271-281 | After a cancellation the tenant has no current licence and every other tenant's is as before |
| TenantReconcile.PassQuiets | source/crates/app-tenants/src/lib.rs:24-37 | From any state one pass leaves every visited tenant licensed, or with history and all networks down |
| TenantReconcile.SecondPassIsIdle | source/crates/app-tenants/src/lib.rs:24-37 | A second pass over the same tenants, in any order and at any later time, changes nothing |
| TenantReconcile.PassLeavesOthers | source/crates/app-tenants/src/lib.rs:24-37 | Tenants not visited keep their networks and licences |
| TenantReconcile.NetworkChangesExactly | source/crates/app-tenants/src/lib.rs:24-37 | The same for a pass over any list of tenants |
| TenantReconcile.LicencesAfterPass | source/crates/app-tenants/src/lib.rs:24-37 | After the pass a visited tenant without history has a trial with the default terms, and every other tenant the licence it had |
| TenantReconcile.ReachedExactlyIfLive | source/crates/app-tenants/src/lib.rs:24-37 | After the pass a tenant is where it should be (live: licensed or down; tombstoned: no licence and down) if and only if it is live or was there before |
| TenantReconcile.Reconcile | source/crates/app-tenants/src/lib.rs:24-37 | The loop visits exactly the live tenants and does what the specified pass does, so each known tenant ends where it should be if and only if it is live or was there before, and a network changes if and only if its tenant is live, had a licence once and has none now, and it was not on its way down already |
| TenantReconcile.LoseDeregistration | source/crates/tenants/src/service.rs:228-246 | If the deregistration event is dropped, reconciling leaves the licence and the networks of the tenant as they were |
| TenantReconcile.LostDeregistration | source/crates/tenants/src/service.rs:228-246 | Concretely, a deregistered paying tenant keeps its licence and its running network |
| TenantReconcile.DeliverDeregistration | source/crates/tenants/src/service.rs:228-246 | With the events delivered, a deregistration takes the tenant down if and only if it had a licence or nothing up |
| TenantReconcile.React | source/crates/subscriptions/src/reactor.rs:17-31 | What the two reactors make of each kind of event: who has a licence and what is up afterwards, and exactly what is published in turn |
| TenantReconcile.TenantsService.DeprovisionNetworksFor | source/crates/tenants/src/service.rs:208-217 | None of the tenant's networks is left active or provisioning, and no other tenant's network changes |
| TenantReconcile.TenantsService.ListLiveTenantIds | source/crates/tenants/src/service.rs:254-256 | Exactly the live tenants, each once |
| ChangePlan.PlanChanger.Change | source/crates/billing/src/service.rs:375-515 | A sensible request succeeds if and only if none of its calls fails, upgrading exactly to a higher level and scheduling exactly a lower one, and reports what the subscription now is; failure changes neither price, trial nor discount, is a refusal or a lost promotion exactly in the cases listed, and loses a pending downgrade if and only if the change was under way and the restore failed as well |
| ChangePlan.PlanChanger.Act | source/crates/billing/src/service.rs:448-513 | The upgrade or downgrade after the release, what is pending after each pattern of failures, and that the promotion is reported gone exactly if the upgrade was turned down for its coupon |
| ChangePlan.PlanChanger.Resolve | source/crates/billing/src/service.rs:383-413 | Succeeds exactly if all three reads do, a paid subscription exists and both plans are in the catalog, and tells a refusal from a failed read |
| ChangePlan.PlanChanger.ReleaseSchedule | source/crates/billing/src/service.rs:418-432 | Either nothing is attached any more and what was pending is known, or nothing changed |
| ChangePlan.PlanChanger.RestorePending | source/crates/billing/src/service.rs:81-100 | What was pending is pending again, at the period end, unless a call fails or a schedule is already attached |
| ChangePlan.PlanChanger.ScheduleDowngrade | source/crates/billing/src/gateway.rs:528-571 | Two calls; done exactly if nothing was attached and both succeed, and a failure of the second leaves a schedule without a future phase attached |
| ChangePlan.FuturePhaseIsFirst | source/crates/billing/src/gateway.rs:472-496 | Nothing is pending if and only if every phase has begun; otherwise the first that has not is |
| ChangePlan.PlanChanger.Upgrade | source/crates/billing/src/gateway.rs:498-526 | Price, trial and discount change together or not at all |
| ChangePlan.OneFailureLosesDowngrade | source/crates/billing/src/service.rs:485-512 | A concrete change in which a single failing call loses the pending downgrade |
| ChangePlan.CancelNamesCurrent | source/crates/billing/src/service.rs:434-447 | Among validated plans the levels compare equal if and only if the target is the current price |
| ReplayCache.ReplayCache.ContainsOrInsert | source/crates/common/src/replay_cache.rs:52-64 | With a clock that never runs backwards the pruned map answers exactly like an unpruned log asked whether the key was accepted less than 120 s ago |
| ReplayCache.ReplayCache.VerifyPopRequest | source/crates/common/src/auth/mod.rs:341-369 | A request passes exactly if it is in the window, signed and not recently accepted, and only then is it logged |
| ReplayCache.AcceptedTwice | source/crates/common/src/auth/mod.rs:309-327 | In every run two acceptances of one key are at least 120 s apart, so the second is checked no later than its window closes and stored no earlier |
| ReplayCache.NeverReplayedInTime | source/crates/common/src/auth/mod.rs:341-369 | A key is never accepted again by a request stored before its window closes |
| ReplayCache.ReplayedExactlyAtEdges | source/crates/common/src/replay_cache.rs:28-64 | With both clock readings one instant a key is accepted twice if and only if it arrives at exactly ts-60 and exactly ts+60 |
| ReplayCache.EdgeReplay | source/crates/common/src/replay_cache.rs:28-64 | Such a run exists for every key |
| LoginThrottle.LoginThrottle.LoginAllowed | source/crates/tenants/src/identities.rs:100-112 | Everybody's closed windows are dropped, only the caller is tallied, and the answer depends on the caller's open window alone |
| LoginThrottle.SharedIsSolo | source/crates/tenants/src/identities.rs:100-112 | After any run the shared, pruned map shows an address exactly the window it would have with no other address around |
| LoginThrottle.OthersNeverMatter | source/crates/tenants/src/identities.rs:100-112 | Two histories with the same own attempts give an address the same answer, whatever the other addresses did |
| LoginThrottle.AtMostTenPerWindow | source/crates/tenants/src/identities.rs:52-56 | From the attempt that opens a window until it closes at most ten get through |
| LoginThrottle.DeniedExactly | source/crates/tenants/src/identities.rs:100-112 | In any run an attempt is denied if and only if a window of the address opened less than 300 s ago and ten have got through since |
| LoginThrottle.AtMostNineteen | source/crates/tenants/src/identities.rs:52-56 | Any half-open 300 s interval of any run lets through at most nineteen attempts of one address |
| LoginThrottle.NineteenGetThrough | source/crates/tenants/src/identities.rs:52-56 | That bound is reached, so the window is not a rolling one |
| LoginThrottle.MoreThanTenNeedsOpening | source/crates/tenants/src/identities.rs:52-56 | More than ten get through an interval only if a window of the address opens strictly inside it |
| Catalog.ValidatePlans | source/crates/billing/src/service.rs:752-791 | The counting loops return, in order, the well-formed plans whose level no other well-formed plan shares |
| Catalog.ValidExactly | source/crates/billing/src/service.rs:752-791 | A plan is in the catalog if and only if it is well-formed and its level is unique among the well-formed |
| Catalog.CatalogInOrder | source/crates/billing/src/service.rs:752-791 | The catalog lists prices of the price list in its order, each with exactly its fields |
| Catalog.CatalogExactly | source/crates/billing/src/service.rs:752-791 | In terms of the raw prices: one is in the catalog if and only if it has a level and an entitlement and no other price with an entitlement has its level |
| Catalog.MalformedIsHarmless | source/crates/billing/src/service.rs:752-791 | A malformed price inserted anywhere changes nothing, even if it shares a valid plan's level |
| Catalog.LevelIdentifiesPlan | source/crates/billing/src/service.rs:434-447 | Catalog plans with equal levels are the same plan |
| Catalog.BestIsFirstCheapest | source/crates/billing/src/service.rs:690-700 | There is a best promotion if and only if one is live, and it is the first of the cheapest |
| Catalog.DisplayedIsMinimum | source/crates/billing/src/service.rs:659-676 | The displayed price is reached by a live promotion, is the minimum over all of them, and lies between zero and the list price unless an amount or percentage is negative |
| Catalog.DisplayedExactlyInWindow | source/crates/billing/src/service.rs:704-713 | A promotional price is displayed if and only if some promotion has begun, has an end that is not past and covers the plan |
| Catalog.ChargedAsDisplayed | source/crates/billing/src/service.rs:680-687 | At one instant the coupon chosen for checkout or upgrade is live and yields exactly the displayed price, and there is one if and only if a price is displayed |
| Catalog.DiscountInRange | source/crates/billing/src/service.rs:721-732 | A discount never raises a price and never takes it below zero |
| Catalog.PercentageTakenOff | source/crates/billing/src/service.rs:721-732 | A percentage leaves that much less of the price, to the nearest minor unit, a half rounded down |
| Catalog.AmountTakenOff | source/crates/billing/src/service.rs:721-732 | Without a percentage, an amount in the plan's currency is taken off as far as it goes, one in another currency not at all |
| Catalog.PercentageWins | source/crates/billing/src/service.rs:721-732 | With a percentage the amount makes no difference |

## Left out

Assumptions about what is called:

- The DNS provider hands out fresh ids, deletes an absent record successfully and refuses to update one; a failed call has no effect. A create whose answer is lost and which the HTTP client retries is not modelled.
- The payment provider refuses to attach a second schedule to a subscription, and the period of a subscription ends after it starts. Stored phases always have a price and a start.
- Slugs are unique, so a FQDN stands for its network and the challenge name for its network's challenge.
- A conversion's two statements take effect at its commit with the snapshot it took before; the test of a trial opening reads before its insert, which a live row turns into nothing. In the runs of `Webhooks` and `EventRaces` an opening and a reaper pass are one step each; `LicenceRaces` splits them.
- Clocks never run backwards between accesses to the replay cache or the login throttle. The replay key is the triple it is made of, not its rendering as a string.
- Percentages are exact; the double-precision product in `discounted_amount` is not modelled.
- Row ids and created or updated timestamps are not modelled; a licence row is identified by its position.

Parts of the repository that are not modelled:

- A process that crashes in the middle of an operation, other than as failing calls up to the end of it.
- Card-setup and catalog-change webhooks, which change no state modelled here; they count as `Other`.
- Checkout, portal and invoice calls, catalog synchronisation and its stored projection.
- Tenant registration, enrollment codes, sessions, identity linking and the sweep of tombstoned tenants.
- The tunneller, its routes and its reconcile loop.
- HTTP routing, wire formats, telemetry, configuration, retries, signatures and certificates; a signature is an input that is valid or not.
- Reading an entitlement for a tenant by the other services.

Contracts stated for less than everything the code handles:

- Convergence.RacersConverge: assumes that no call on the network fails other than updates of records already deleted, as a failed delete of a duplicate leaves it live.
- Webhooks.TrialsUntouched: speaks of events that end or mark a licence, because an upsert with another status is meant to convert the trial.
- Catalog.DiscountInRange: assumes a non-negative price, percentage and amount, without which a discount can raise the price.
- Subscriptions.SubscriptionService.ExpireOverdue: assumes that no statement fails and that nothing interleaves; a failure stops the loop after the tenants already cancelled, and interleaved passes are the subject of `LicenceRaces`.
- Webhooks.AlwaysSound: a delivery is one step here; overlapping ones, and what becomes of trials and owners under them, are the subject of `EventRaces`.
- Webhooks.NoTrialIsHit: likewise.
- TenantReconcile.Reconcile: assumes that no statement fails; a failure ends the pass early and the next one starts over.
- TenantReconcile.React: the reactors log a failing statement and go on; failures are not modelled.
