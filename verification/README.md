# Verified models of the commerce operations tools

This project models the parts of the repository whose correctness is hardest to see by reading:
the schema migration of the task ledger and its crash recovery, the supervisor of the native
service, the two installers, the layered HTTP retry chain, the bounded resource download, and the
money, naming and text code of settlement and pricing. `dafny verify dfyconfig.toml` checks all of
it. Nothing here calls the outside: the network, other database connections, processes, clocks,
randomness and failing writes are arbitrary inputs, so that a theorem holds whatever they do.

## How the modules fit together

- `Wrappers`, `Text`, `Decimal`, `Json`, `Lines`, `Rounding`: shared vocabulary. `Json` is the
  canonical encoder and the proof that no two documents have one text; `Lines` is sorting and
  joining; `Decimal` is numerals; `Rounding` is "to the nearest cent" as a relation.
- `Fingerprints`: the logical hash of a database, and the proof that it is a canonical form.
- `Migration`: the ledger as an object with its receipts, and what each operation does to the
  world, wherever it is interrupted. `MigrationRuns`: what every run keeps, with foreign writers,
  swapped files and damaged backups in between. `MigrationReceipts`: what receipts say over runs.
  `MigrationDecisions`: when exactly each operation acts, said of databases and earlier steps.
- `SteadyOwner`: the supervisor over an arbitrary sequence of replies. A monitor says what each
  call must be justified by: a step towards a running service only while there is no reason to end,
  a step of the end only once there is one. Every method keeps the log justified.
- `HttpRetry`: the transport loop. `ApiChain`: the rules of a request chain, and how its log is
  decided by what comes back over the wire. `ApiClient`: the client whose every chain has such a log.
- `ResourceUrls`, `ResourceDownload`: which URLs may be fetched, and the download loop.
- `RegisteredInstall`, `PersonalSync`: the two installers, with a failure possible at every write.
- `Settlement`, `IncomeNames`, `IncomeFiles`, `Pricing`, `ArgScanner`, `SkuNumerals`: settlement
  rows, income files, prices, the offline delisting argument scanner, SKU numerals.

SHA-256 is an injective constructor over what is hashed; the encodings beneath it are modelled and
proved. Money is whole cents and exact reals in place of floats.

## What the proofs found

- A crash inside the first write of a migration receipt leaves a torn receipt that no
  reconciliation accepts; nothing is committed then. `RecoveryExact` says this is the only
  interruption that leaves a receipt without a verdict.
- A verdict speaks about the database, not about who committed: after a migration that died before
  COMMIT and a second one that succeeded, the first receipt is also reported as already applied
  (`RetriedMigrationClaimsBoth`). Where only this tool creates the objects, the verdict is about the
  receipt's own commit exactly when that receipt covers the objects, so always while no other
  receipt is prepared or committed (`VerdictIsOwnIff`).
- A success whose own body carries `error_kind: "credentials_expired"` counts as an expired
  credential (`EchoedKindCountsAsExpired`), so a write that succeeded can be sent again.
  `WriteReplayedIff` says over every run when: exactly if the first answer is such a success, the
  refresh is sent, its grant is complete and the token is saved.
- The receipt of the four-file sync is never read back. It can be read at the end exactly if the
  write that left it stored it (`PersonalSync.Sync.Apply`); the backups do not depend on it.
- A skill backup is compared by normalised manifest. It holds the very bytes found exactly when the
  run made it or an earlier backup with that manifest already held them (`BackupIsExactIff`,
  with an example in `BackupMayDifferInBytes`).
- A transaction type spelt like the label `Order` is settled as an adjustment but summed with the
  orders (`OddKindMisleadsSummary`); the summary reconciles exactly when such transactions carry
  nothing (`SummaryReconciles`).
- Daily pulls do not clean up: one inside an earlier period counts its day twice
  (`DayInsidePeriod`), and `RunsKeepDisjointIff` is the exact condition over all sequences of pulls;
  period pulls alone always meet it (`RunsKeepDisjoint`).
- A period pull removes the overlapping files before it writes. One inside a longer file drops that
  file's other days, and one whose write fails can lose the requested days themselves
  (`FailedWriteLoses`); `LostDays` says which days are lost, with any fetch or write failing. Two
  shops of one region in one run leave only the second one's rows (`PeriodServes`). Names work for
  the years 1969 to 2068 only (`RoundTripIff`, `PrintedCoversIff`).
- The high-price branch keeps back 60 pesos times its denominator for the shipping fee. The profit it
  verifies is short of what is wanted, beyond rounding, when the fee due is more than that
  (`HighPriceShortfall`): by almost 36 pesos on every such sale with the default parameters
  (`DefaultShortfall`).
- A mantissa with two or more dots is accepted, with its decimals counted up to the second dot only
  (`AcceptedIff`, `AcceptedValue`, `SecondDotMiscounts`).

## Model

| member | source | states |
|---|---|---|
| Fingerprints.SqlCanonical | scripts/migrate_operations_task_schema.py:51-58 | Two SQL texts normalise alike exactly when they differ only in case and in the width of their gaps |
| Fingerprints.RowTextUnique | scripts/migrate_operations_task_schema.py:80-96 | Two rows have the same encoded line exactly when they are equal, blobs included |
| Fingerprints.TableStateCanonical | scripts/migrate_operations_task_schema.py:94-99 | A table's count and digest agree exactly when the multisets of rows do, whatever the order |
| Fingerprints.FingerprintCanonical | scripts/migrate_operations_task_schema.py:86-104 | Fingerprints, and already their digests, agree exactly when normalised schema, user_version and every multiset of rows do |
| Json.ValueUnique | scripts/migrate_operations_task_schema.py:94-102 | Two documents that continue to the same text are equal, and so is what follows them |
| Lines.SortedJoinCanonical | scripts/migrate_operations_task_schema.py:97-98 | Sorted and joined lines agree exactly when the multisets of lines do |
| Migration.Ledger.Snapshot | scripts/migrate_operations_task_schema.py:147-176 | What a snapshot does to files and backups, with other connections writing before and after the copy |
| Migration.Ledger.Migrate | scripts/migrate_operations_task_schema.py:213-266 | The whole new world and outcome, for every interruption point |
| Migration.PostChecksHold | scripts/migrate_operations_task_schema.py:234-245 | After the DDL none of the code's own checks can fail |
| Migration.Ledger.Reconcile | scripts/migrate_operations_task_schema.py:269-303 | Verdict, receipt and audit, and that the database stays |
| Migration.Ledger.Rollback | scripts/migrate_operations_task_schema.py:306-353 | The whole new world and outcome, for every interruption point |
| Migration.Ledger.ReconcileRollback | scripts/migrate_operations_task_schema.py:356-381 | Verdict and audit of an interrupted rollback, database and receipt untouched |
| MigrationRuns.MigrateAllOrNothing | scripts/migrate_operations_task_schema.py:213-266 | The database is as found or has exactly the commit, and has it exactly when the stop came after COMMIT |
| MigrationRuns.RecoveryExact | scripts/migrate_operations_task_schema.py:253-301 | With no other writer, ALREADY_APPLIED exactly when COMMIT happened, NOT_APPLIED exactly when not; only a torn receipt has no verdict |
| MigrationRuns.ReconcileFinalises | scripts/migrate_operations_task_schema.py:279-303 | Reconciling marks the receipt committed or aborted, changes nothing else, and cannot be repeated |
| MigrationRuns.VerdictIsLogical | scripts/migrate_operations_task_schema.py:281-291 | Under arbitrary writers the verdict is exact about the logical database |
| MigrationRuns.RollbackAcceptedIff | scripts/migrate_operations_task_schema.py:308-337 | A rollback is accepted exactly when nothing logical changed since the commit |
| MigrationRuns.RollbackRestoresOrigin | scripts/migrate_operations_task_schema.py:306-353 | Whatever was written in between, a rollback that changes the database restores the one its migration found and drops no row |
| MigrationRuns.RollbackRecoveryExact | scripts/migrate_operations_task_schema.py:344-381 | Recovery of an interrupted rollback is exact in the same way |
| MigrationReceipts.ObjectsNeedReceipt | scripts/migrate_operations_task_schema.py:253-258 | If only this tool creates the objects, then whenever one is there the migration that committed them has its own receipt on disk, prepared or committed, and they have been there ever since |
| MigrationReceipts.RollbackHasOrigin | scripts/migrate_operations_task_schema.py:338-344 | Every rollback receipt in a run was written by an admitted rollback of that run and describes where it started |
| MigrationReceipts.RollbackVerdictIsLogical | scripts/migrate_operations_task_schema.py:356-381 | Under arbitrary writers the verdict on a rollback receipt is exact about the logical database |
| MigrationDecisions.MigratesIff | scripts/migrate_operations_task_schema.py:196-266 | A migration commits exactly when no stop comes before COMMIT, its receipt is new, the database is sound with a matching snapshot, and its schema is the registered one without the four objects; then it is the registered one |
| MigrationDecisions.MigrationStepIff | scripts/migrate_operations_task_schema.py:147-266 | Over every run, the snapshot a commit needs is one accepted earlier whose backup is unchanged and since which nothing logical changed |
| MigrationDecisions.SnapshotAcceptedIff | scripts/migrate_operations_task_schema.py:147-176 | A snapshot is accepted exactly when its files are new, database and copy are sound, and no other connection changed anything logical before or after the copy |
| MigrationDecisions.ReconcileDecides | scripts/migrate_operations_task_schema.py:269-303 | Over every run, a reconciled receipt becomes committed exactly if the database is logically what its migration would commit, aborted exactly if it is what the migration found, and otherwise stays; the audit says the same; else nothing changes |
| MigrationDecisions.RollbackStepIff | scripts/migrate_operations_task_schema.py:306-353 | Over every run, a rollback commits exactly for a committed receipt of the file in place, with a new receipt, on a sound database that is logically what that migration committed |
| MigrationDecisions.RollbackReconcileDecides | scripts/migrate_operations_task_schema.py:356-381 | Over every run, reconciling a rollback only adds an audit, whose verdict compares the database with what the migration found and committed |
| MigrationReceipts.VerdictIsOwnIff | scripts/migrate_operations_task_schema.py:269-303 | If only this tool creates the objects, ALREADY_APPLIED is about the receipt's own commit exactly when that receipt covers the objects; so it is while no other receipt is prepared or committed, and otherwise the covering receipt is another such file |
| MigrationRuns.RetriedMigrationClaimsBoth | scripts/migrate_operations_task_schema.py:279-301 | The witness: a run in which the first receipt is reported as applied although a second migration did the work; `VerdictIsOwnIff` says when in general |
| MigrationRuns.UndisturbedRun | scripts/migrate_operations_task_schema.py:147-353 | From every sound database that passes the preflight, snapshot, migration and rollback all complete and leave the very database there was |
| MigrationRuns.SnapshotFaithful | scripts/migrate_operations_task_schema.py:157-175 | An accepted snapshot holds the logical database as it stands and can be used at once |
| SteadyOwner.ClosedMeansRetired | scripts/native_steady_service_owner.py:285-312 | Before the handle closes, the Job was seen empty and the child gone, then a retired status was saved and not overwritten |
| SteadyOwner.StartMeansEnrolled | scripts/native_steady_service_owner.py:222-247 | START is sent only after the locator is published and the child enrolled |
| SteadyOwner.RunningMeansStarted | scripts/native_steady_service_owner.py:246-274 | A service is recorded as running only after its enrolled child was sent START, declared itself from inside the Job and passed its checks |
| SteadyOwner.EndsForAReason | scripts/native_steady_service_owner.py:248-312 | A run starts to end only for a reason: a refusal, a readiness deadline missed before it was recorded as running, the exit of the child, or, once recorded as running, a STOP that names it; before the first reason nothing is ended, after it nothing is started |
| SteadyOwner.Supervisor.Enrol | scripts/native_steady_service_owner.py:235-247 | Enrolment keeps the log justified and ends with START sent to an enrolled child, or raises because something was refused |
| SteadyOwner.Supervisor.Record | scripts/native_steady_service_owner.py:300-311 | The retirement record, or the endless wait, ends only with a true retired status saved |
| SteadyOwner.Supervisor.Retire | scripts/native_steady_service_owner.py:285-312 | Ending normally means the handle closed with a retired status; the only ways to raise are the four unguarded calls |
| SteadyOwner.Supervisor.Run | scripts/native_steady_service_owner.py:205-312 | Every run over every sequence of replies is safe, so it serves until there is a reason to end; it raises only if something was refused and sends START unless something was; once the Job is configured it ends with the close or an unguarded call |
| HttpRetry.CertificateErrorIff | core/http_retry.py:56-66 | A certificate failure is a verification error at some depth or a message naming one at the innermost depth |
| HttpRetry.RetryableIsTransient | core/http_retry.py:69-99 | What is retried hides neither an HTTP answer nor a certificate failure at any depth |
| HttpRetry.RetryableIff | core/http_retry.py:69-99 | Retried is exactly what is transient at the innermost depth and no certificate failure |
| HttpRetry.Wire.Urlopen | core/http_retry.py:199-254 | Bad arguments send nothing; otherwise the outcome is the last reply and the log the chain's |
| HttpRetry.CurlOnlyLast | core/http_retry.py:235-244 | Curl is used at most once, in the last slot of a budget of two or more, after a retryable error with no certificate failure |
| HttpRetry.SendsAreReplies | core/http_retry.py:242-254 | Sends over both transports number the replies used, so at most the budget |
| HttpRetry.ChainShape | core/http_retry.py:242-254 | Sends and sleeps alternate, each sleep the delay for its failure; curl is the last of several slots, allowed and fit for it |
| HttpRetry.CurlFallbackIff | core/http_retry.py:102-119 | Curl is tried after a reset, an SSL error or a text that names one or an early end, never after a certificate failure |
| HttpRetry.SingleShot | core/http_retry.py:233-234 | A write, and any request given one attempt, is sent exactly once and never by curl |
| ApiChain.ExpiredIff | core/api_client.py:52-65 | Which answers an attempt classifies as expired: the provider's rejection, or a success echoing the word |
| ApiChain.CodeReadsAlike | core/api_client.py:52-60 | A provider code and its decimal text read alike, below ten thousand million |
| ApiChain.ReturnsIff | core/api_client.py:153-196 | An attempt returns exactly when the answer carries a provider code; else it raises |
| ApiClient.Client.RefreshAccessToken | core/auth.py:75-135 | At most one send; the token store is touched exactly when a complete grant came back, holds its token if the save succeeds and what a failed save left otherwise, and a token is returned only when saved |
| ApiClient.Client.Recover | core/api_client.py:240-252 | One refresh, whose token is the complete grant in the reply at its own position, saved, or none |
| ApiClient.Client.Chain | core/api_client.py:226-261 | The log obeys the rules, each of its events is the reply at its own position on the wire, it is all that went over the wire, and it ends only when no rule allows more or the refresh failed; the last line is never reached |
| ApiClient.Client.Request | core/api_client.py:199-261 | When the call is refused; otherwise all that holds of a chain, for a write that may recover the whole log as the replies decide it; a read with budget left ends only on a reply that did not invite another attempt; under a guard, or for a write that may not recover, one send |
| ApiChain.BudgetsCompose | core/api_client.py:223-257 | At most the budget of sends plus one refresh send, and at most sixty seconds of sleep per attempt after the first |
| ApiChain.SendsCounted | core/api_client.py:226-252 | Attempts and refresh sends are all there is on the wire |
| ApiChain.WritesAreNotReplayed | core/api_client.py:218-252 | Under the rules a write has at most two attempts, at most one of them classified as anything but expired, and never sleeps |
| ApiChain.SecondWriteIsRecovery | core/api_client.py:240-252 | A second attempt of a write follows exactly an expired first one and a refresh that produced its token |
| ApiChain.RetriedIff | core/api_client.py:62-97 | After which replies a read may go on: rate limited or transient, and asking for no more than a minute |
| ApiChain.SleepHonoursReply | core/api_client.py:84-97 | Every sleep follows such a reply, is at least as long as its Retry-After and as the configured delay, at most a minute, and longer than the delay by more than half a second only if asked for |
| ApiChain.ReadGivesUpLast | core/api_client.py:253-260 | A read that ends with budget left and no failed refresh ends on a reply that did not invite another attempt |
| ApiChain.GrantIff | core/auth.py:104-117 | A grant may be stored exactly when its token says something, its expiry is positive and no refresh token in it is blank |
| ApiChain.WriteIsDecided | core/api_client.py:218-261 | The whole log of a finished write is a function of the replies and of how the token save went |
| ApiChain.WriteReplayedIff | core/api_client.py:218-261 | Over every run, when exactly a write is sent twice, sent twice without a rejection by the provider, and ends twice in anything but the rejection |
| ResourceUrls.PublicHostIff | core/resource_download.py:75-77 | A host is public exactly if, in lower case and without its last dots, it is qualified and in no private zone |
| ResourceUrls.LexicalIff | core/resource_download.py:50-77 | What the rules of a URL come to: visible characters, length, scheme, default port, harmless keys and a public host |
| ResourceUrls.OriginsAgreeIff | core/resource_download.py:45-48 | Two URLs that may be fetched have one origin exactly if scheme and host agree up to case |
| ResourceDownload.Download.Validate | core/resource_download.py:50-85 | Accepted exactly when the length as written, characters, scheme, user, host, port, credential keys, signature origin and the step from https allow it and the resolver does |
| ResourceDownload.Download.ReadBody | core/resource_download.py:105-140 | A complete body is what this attempt pulled, within the rest of the budget and of the declared length |
| ResourceDownload.Download.Answer | core/resource_download.py:197-234 | What one answer leads to: data, a retry, a move to an unvisited target, or the end |
| ResourceDownload.Download.ReadResource | core/resource_download.py:171-235 | The result is what the answers decide; at most four GETs and three redirects along a good path; all bytes pulled total at most the limit plus one; each GET follows from the hop before it; returned bytes are the last pulled, of a response that may be served |
| ResourceDownload.SignatureStaysHome | core/resource_download.py:64-73 | A signature is fetched only by an image source, over https, from the host it was issued for |
| ResourceDownload.GoodServerIsRead | core/resource_download.py:105-202 | A permitted URL with a good response within the budget comes to exactly the bytes sent |
| ResourceDownload.TransientIsRepeated | core/resource_download.py:225-234 | A transient failure is repeated while a byte of the budget is left |
| ResourceDownload.CutBodyIsRepeated | core/resource_download.py:105-140 | A body that is cut off is repeated, and what was read of it is paid for |
| ResourceDownload.RedirectIsFollowed | core/resource_download.py:203-224 | A redirect to a new permitted URL is followed, three times |
| ResourceDownload.NeverBackToHttp | core/resource_download.py:61-62 | After the first https URL every fetched URL is https |
| ResourceDownload.NeverRevisited | core/resource_download.py:192-214 | A URL left behind is never fetched again under the same spelling |
| RegisteredInstall.SuffixTells | scripts/sync_publish_approved_product_skill.py:31-74 | Which files are texts and which are caches, whatever the case of the suffix |
| RegisteredInstall.FolderTells | scripts/sync_publish_approved_product_skill.py:53-56 | Whatever lies in a cache folder is a cache |
| RegisteredInstall.NoReturnLeft | scripts/sync_publish_approved_product_skill.py:73-79 | Normalising leaves no carriage return and keeps a text without one |
| RegisteredInstall.LineEndsNormalise | scripts/sync_publish_approved_product_skill.py:73-79 | Each kind of line end becomes one line feed |
| RegisteredInstall.ParityMeans | scripts/sync_publish_approved_product_skill.py:92-109 | Equal digests mean the same managed files with the same normalised content |
| RegisteredInstall.Installer.SyncInstall | scripts/sync_publish_approved_product_skill.py:126-152 | After a failure anywhere every managed file holds its old or its canonical content, and nothing else changed but one temporary file that may be left |
| RegisteredInstall.Installer.SyncRegistered | scripts/sync_product_publication_skills.py:279-364 | Refused exactly when a name is unknown or repeated, a source differs from its registered digests, an unmanaged file or one left by an earlier failure is there, or another preflight fails, then nothing changed; otherwise safe after a failure anywhere, every file with its registered digest on success, and interrupted only by a failed write, which leaves a temporary file in one skill at most |
| RegisteredInstall.ReadyIff | scripts/sync_product_publication_skills.py:294-341 | The checks of a skill, file by file: registered digests, nothing left over, and a free path for the backup or one with the same content |
| RegisteredInstall.CompleteMeansParity | scripts/sync_publish_approved_product_skill.py:133-152 | A completed copy over a tree without extras has parity |
| RegisteredInstall.BackupsStay | scripts/sync_product_publication_skills.py:326-350 | Over any sequence of installs no backup is changed or lost |
| RegisteredInstall.BackupIsExactIff | scripts/sync_product_publication_skills.py:342-349 | The backup of a changed skill holds the very bytes found exactly when the run made it or an earlier one already held them, now and at every later time |
| RegisteredInstall.ChangedStaysRestorable | scripts/sync_product_publication_skills.py:326-350 | Whatever an install changed of a non-empty skill can be restored at every later time |
| PersonalSync.Sync.BackUpAll | scripts/sync_personal_native_workflow_scripts.py:63-69 | All four originals are saved and read back before the first replacement |
| PersonalSync.Sync.Apply | scripts/sync_personal_native_workflow_scripts.py:42-80 | Refused exactly when the plan digest, the plan, its roots, a binding, a source's syntax, a dependency or the backup check fails; without --apply nothing is written; otherwise every state, after any failure, is recoverable, and only a write gone wrong stops it; the receipt can be read exactly if the write that left it stored it, and at the end that write was the last one |
| PersonalSync.Sync.AdmittedIff | scripts/sync_personal_native_workflow_scripts.py:42-61 | Admitted is exactly what some plan approves: its own digest, three roots apart, each file and dependency by digest |
| PersonalSync.RestoreGivesOriginals | scripts/sync_personal_native_workflow_scripts.py:70 | The rollback described in the receipt gives back every original byte |
| Settlement.SharesSum | tiktok_settlement.py:174-182 | Unrounded shares sum exactly to the total on every branch |
| Settlement.SharesBounded | tiktok_settlement.py:174-182 | No share exceeds the total or has the other sign |
| Settlement.WeightsArePositive | tiktok_settlement.py:278 | From an order the zero-weight branch is never taken |
| Settlement.ExpandOrderRows | tiktok_settlement.py:269-306 | The rows an order expands to |
| Settlement.ExpansionConserves | tiktok_settlement.py:278-306 | Every numeric column is conserved to half a cent per row, exactly for one row; blanks stay blank |
| Settlement.LinesOf | tiktok_settlement.py:317-376 | The lines of a statement, the covered amount summed in the loop |
| Settlement.StatementReconciles | tiktok_settlement.py:346-376 | The non-order lines sum to what is due, with one synthetic line exactly when something was uncovered |
| Settlement.SyntheticMovesOnly | tiktok_settlement.py:327-338 | A synthetic line carries its amount as settlement and adjustment and moves nothing else |
| Settlement.CollectShopRows | tiktok_settlement.py:340-392 | The rows of a shop are those of its statements' lines |
| Settlement.RowsOfShop | tiktok_settlement.py:269-392 | Each line has its own stretch of the rows, in order, and there are no others: one row per item of an order found with items, with the item's SKU and every column within half a cent of its share by price; one row with its own columns for any other line |
| Settlement.SummaryReconciles | tiktok_settlement.py:340-452 | In the summary, total less orders is what the statements adjust, less what misspelt order types carry |
| Settlement.SummaryDrift | tiktok_settlement.py:269-452 | The summarised total differs from the transactions by at most half a cent per row of a split order |
| IncomeNames.RoundTripIff | tiktok_settlement.py:404-414 | A name parses back exactly when the region is two capitals and both years are in the window |
| IncomeFiles.IncomeDir.Cleanup | tiktok_settlement.py:417-428 | Exactly the region's overlapping files are removed and reported |
| IncomeFiles.IncomeDir.PullPeriod | tiktok_settlement.py:513-581 | The directory after a run, up to the first write that fails; a reversed period is refused |
| IncomeFiles.IncomeDir.PullDay | tiktok_settlement.py:584-614 | The directory after a daily pull over all shops, which removes nothing, up to the first write that fails |
| IncomeFiles.PrintedCovers | tiktok_settlement.py:404-414 | In the window, the written file covers exactly the requested days |
| IncomeFiles.PrintedCoversIff | tiktok_settlement.py:557-559 | It covers them all exactly when the period is in the window |
| IncomeFiles.RunsKeepDisjointIff | tiktok_settlement.py:417-614 | Over any mixed sequence of period and daily pulls no day is ever counted twice exactly when every daily pull that left a file found its day in no other one |
| IncomeFiles.PeriodServes | tiktok_settlement.py:535-559 | A finished run leaves each requested day in exactly one file, with the rows of the region's last shop, whatever was there before |
| IncomeFiles.DayServes | tiktok_settlement.py:584-614 | A finished daily pull leaves, for every region with rows, the day's file with the last shop's rows |
| IncomeFiles.DayKeepsTheRest | tiktok_settlement.py:584-614 | Whatever fails, a daily pull touches no other file |
| IncomeFiles.StaleIff | tiktok_settlement.py:417-428 | The two comparisons find exactly the files that cover a requested day |
| IncomeFiles.KeepsTheRest | tiktok_settlement.py:513-581 | A period pull leaves every other file as it is |
| IncomeFiles.LostDays | tiktok_settlement.py:417-559 | With any fetch or write failing, a covered day loses its file exactly when a shop of the region was reached with rows, all files of the day overlapped the period, and the day is outside the period or the last write left no file |
| Pricing.ShippingLookup | scripts/mx_pop_pricing.py:130-137 | Refused exactly outside the range; otherwise the least tier that carries the weight, so the last line is unreachable |
| Pricing.HiddenFollowsCard | scripts/mx_pop_pricing.py:140-142 | The freight in a price starts at ten pesos and rises with the card |
| Pricing.HeavierCostsMore | scripts/mx_pop_pricing.py:26-52 | A heavier parcel is never carried for less |
| Pricing.CouponFloor | scripts/mx_pop_pricing.py:184-198 | The scan of the thresholds raises exactly the prices in the two bands |
| Pricing.RaisingSettles | scripts/mx_pop_pricing.py:59-198 | Raising is done once, never lowers, adds at most a ninth and keeps the order of prices |
| Pricing.HighBranchIff | scripts/mx_pop_pricing.py:150-179 | The high branch is taken exactly when the base exceeds 940 pesos times its denominator |
| Pricing.TaxIsOnExcess | scripts/mx_pop_pricing.py:209-210 | The tax is due exactly on what exceeds 79.47 pesos |
| Pricing.DefaultShares | scripts/mx_pop_pricing.py:69-82 | What every sale carries with the default parameters |
| Pricing.PriceIsSolved | scripts/mx_pop_pricing.py:145-181 | The rounded price solves its equation to half the denominator, on either branch |
| Pricing.DeductionsAddBack | scripts/mx_pop_pricing.py:209-218 | Deductions, cost and profit add back to the price to the centavo |
| Pricing.CheckAgrees | scripts/mx_pop_pricing.py:145-236 | Verified profit is the intended profit within three centavos and half the denominator; within four while the denominator is at most two |
| Pricing.HighPriceShortfall | scripts/mx_pop_pricing.py:145-236 | For every cost priced on the high branch, the verified profit is what is wanted plus what the branch keeps back less the fee due, within rounding; the branch keeps back enough exactly when the fee due is no more |
| Pricing.DefaultShortfall | scripts/mx_pop_pricing.py:67-236 | With the default parameters the verified profit of every high-priced sale is 35.982 pesos short of what is wanted, within four centavos |
| Pricing.DearerCostsMore | scripts/mx_pop_pricing.py:145-181 | Within one branch with a positive denominator a dearer item is never sold for less |
| Pricing.ListDiscountsBack | scripts/mx_pop_pricing.py:220-221 | Discounting the list price gives the sale price back, to half a centavo an item |
| Pricing.CalcPopPrice | scripts/mx_pop_pricing.py:239-270 | A quote adds up, carries both weights in the least tier, is never below the solved price and lies near no threshold; none comes only of a bad weight or a division by zero |
| ArgScanner.CheckArguments | scripts/repo_bound_agent_entry.py:126-155 | The loop with its index and counts gives the verdict of the scan, error by error |
| ArgScanner.PrintedIsAccepted | scripts/repo_bound_agent_entry.py:132-155 | Every printed legal option list scans |
| ArgScanner.AcceptedIsPrinted | scripts/repo_bound_agent_entry.py:132-155 | Every accepted list is the printed form of a legal one |
| ArgScanner.AcceptsExactly | scripts/repo_bound_agent_entry.py:126-155 | Accepted are the empty list and plan with one --no-live, some valid --sku, at most one --scope all, in any order and form |
| ArgScanner.PrintInjective | scripts/repo_bound_agent_entry.py:134-152 | No argument list can be read as two option lists |
| SkuNumerals.AcceptedIff | CURSOR/build_order_profit_page.py:174-206 | A text is accepted exactly when it has one E, a mantissa of digits and dots, and an integer exponent that reaches past the digits between the first dot and the next |
| SkuNumerals.AcceptedValue | CURSOR/build_order_profit_page.py:174-206 | Of the accepted texts the numerals are exactly those with at most one dot and are read exactly; the others keep their value exactly when no digit stands behind a second dot or all are zero |
| SkuNumerals.NumeralReadsExactly | CURSOR/build_order_profit_page.py:174-206 | Every printed numeral, either case of E, with or without plus, reads back as the exact number or as nothing |
| SkuNumerals.DotsAreAccepted | CURSOR/build_order_profit_page.py:193-206 | Texts with two and three dots that are read although they are no numerals |
| SkuNumerals.NormSettles | CURSOR/build_order_profit_page.py:209-230 | Digit strings are kept, and normalising is idempotent |

## Left out

- Real SQLite: locking, WAL, the identity of the opened file, and fingerprints read in several
  statements while another connection writes between them. A transaction is atomic here, and DDL
  does what its statement says; a DROP TABLE that would also drop dependent triggers is not
  modelled, since the four objects are dropped triggers first within their own list.
- The exact-source check of database paths and symbolic links: a world has one database path, and
  a file identity that may change.
- A crash while an audit file is written, and a crash inside the atomic replacement of a receipt:
  the first leaves a torn audit, the second a stray temporary file, and neither touches database or
  receipt.
- Settlement: base_row's choice of columns, HTML reports, pagination and the raw dump. Amounts are
  whole cents, and rounding is any function at most half a cent away.
- SHA-256, HMAC signing, TLS, proxies, DNS and address rules, Pillow decoding, Windows Jobs and
  process launch: each is an arbitrary reply or an injective constructor.
- scripts/native_steady_service_owner.py: the contents of the sealed inputs, the required and the
  optional page checks and the log; the identity and required checks are one yes-or-no answer, the
  optional ones never decide anything.
- core/http_retry.py: exceptions other than those the classifiers tell apart are one class; the checks of timeout, context and proxy, and the curl command line; the
  caller's and the environment's permission for curl is one flag.
- core/auth.py: `is_access_expired` and `ensure_valid_token` outside the forced refresh.
- core/resource_download.py: how urlsplit, urljoin and the query parser take a URL apart; a URL is
  given in its parts as written, and an empty `;` that urldefrag drops before a fragment is kept.
  The resolver, with its rules about addresses, is an arbitrary answer.
- scripts/sync_personal_native_workflow_scripts.py: links, hard links and file modes, and how the
  bytes of a plan are read; what they read as, and which sources parse, are parameters.
- scripts/sync_product_publication_skills.py: how the registry is read and validated, `check_all`, `install_all` and the path-length
  preflight, which add no step to the file protocol. Foreign writers during an install, links, and
  the name and content of a temporary file left behind. A managed text that is not UTF-8 is not part of this model.
- scripts/repo_bound_agent_entry.py: the other entry modes and the environment binding.
- scripts/mx_pop_pricing.py: catalog loading, the exchange-rate fetch, the printed steps and the
  margin percentage. Binary floating point is replaced by exact reals.
- Income file names: regions other than two letters (a shop without a region is written under a
  name that never parses), case-insensitive file systems, and characters outside ASCII.
- SKU numerals: digits and spaces outside ASCII, and Python's limit on the length of integers.
  The float fallback is a parameter, of which only is used that a whole float prints as an integer
  that reads as the same float.
