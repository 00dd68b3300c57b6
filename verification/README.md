# A verified model of the contact, campaign and session protocols

OmniSocial keeps contacts of Zalo, Facebook and TikTok, sends campaigns to them, and bills workspaces by
subscription. Its API, worker and scheduler share one database and a job queue. This project models the
parts of it in which state is kept across calls, retries and concurrent callers, and proves what those
parts promise. `dafny verify dfyconfig.toml` checks all of it.

| file | what it models |
| --- | --- |
| `TokenFamily` | refresh-token rotation, each database statement of any number of concurrent callers one event; the technique of section 4.14.2 of RFC 9700 |
| `ImportModel`, `ImportStaging`, `ImportMapping`, `ImportBatching`, `ImportMeaning` | staging a file, normalising its rows, judging them in batches with a cursor; batches against the one-row rule; what rows, verdicts and contacts mean in terms of the file's cells |
| `ImportCommit`, `ImportPreview`, `ImportWorker` | the worker's commit, each statement one event that a cut may follow; what the preview predicts; the handler's loops |
| `FanOut`, `FanOutRace` | the campaign fan-out, run again and after cuts; any number of runs at once, statement by statement |
| `Campaign`, `CampaignHistory`, `CampaignTermination`, `CampaignWorker` | the life of a campaign, each handler call one step; what a status says of the past; that delivery ends; the handlers |
| `WebhookReplay` | webhook acceptance, the unique job key and the retention clean-up under a running clock |
| `RateLimiter`, `Subscriptions` | the per-account limiter; subscription dates, the scheduler's tick and its warnings |
| `OutboundPolicy`, `Suppression`, `ConsentLaws` | the two outbound policies; consent, suppression and delivery; what consent operations write and what they mean for delivery |
| `PhoneNumbers`, `ErrorCsv`, `Text`, `Ordering`, `Sets`, `Options` | phone normalisation; the error report and a reader for section 2 of RFC 4180; shared helpers |

Protocols are written as a state, an event type and a total `Step`; an event whose guard does not hold
changes nothing, so theorems speak of every sequence of events. Classes hold the tables the services update,
and each method is shown to be a step, or a run of steps, of the protocol. Where a method carries a ghost
function value (`on`, `turn`, `step`), the value is a specification function or predicate, passed so that its definition is
used only in the lemmas.

Identifiers are natural numbers; contact keys, phones and tokens are compared as the source compares them.
Times are integers in milliseconds. Hashes, signatures, lower-casing and header cleaning are function
parameters. What a library, the clock, the database's choice among several rows or the platform decides
is an event parameter that may take any value.

## Results that differ from what a reader of the code might expect

- Batched mapping, with pages of two rows or more, agrees with the one-row-at-a-time rule on files exactly when
  no live contact of another platform has a phone and an id that files can name while no live Zalo contact holds
  that id (`BatchingRefinesSimpleIff`): a fetched contact's id becomes a `zalo:` key whatever its platform
  (apps/api/src/contacts/import-engine.service.ts:245).
- The preview predicts the commit exactly when no contact, archived ones included, holds the Zalo id of a
  VALID row (`PreviewPredictsCommitIff`): the lookup skips archived contacts, the unique key does not.
- A retry resets the counters, so `importedRows` leaves out earlier attempts, and COMPLETED says only that
  the last attempt failed no row (`EndingAttempt`): an import of one row can end COMPLETED with that row FAILED
  (`CutAttemptsAreForgotten`).
- A fan-out cut between the message and its campaign message leaves a member without one for good, and a cut
  before the send job strands a queued message; a later full run repairs neither (`FullRunLinksAllIff`, `FullRunStrands`).
- The statistics of a cancelled campaign leave out what its last message came to: the progress update writes none once
  nothing is pending and the campaign has ended (`StatisticsCount`).
- Webhook bodies are stored once under each account exactly when retention covers twice the window and the time
  from check to insert (`OncePerAccountIff`), and once at all exactly when, besides, no OA has two account rows: the
  lookup goes by OA alone (apps/api/src/accounts/zalo-webhook.service.ts:54), the unique key of accounts includes the
  workspace (prisma/schema.prisma:544) (`OnceForAllTimeIff`).
- The expiry notice of a subscription is never raised if any API check finds the term over before a tick does
  (`WholeTerm`): both write EXPIRED, and only the tick raises the notice.
- A `maxStorageBytes` override that is not an integer makes the API refuse every outbound message while the
  worker blocks none (`ApiAdmitsIff`).
- An opted-out Zalo user is sent a message, with the suppression entry standing, exactly when a delivery addressed
  to that user comes while the message's contact does not hold the id on Zalo (`ReachedUnderEntryIff`): the entry is
  looked up by the contact, the message goes to the receiver copied into it. A save that changes a contact's platform
  or id (`SavedUnderAnotherPlatform`) and a message for an account of another platform than the contact's
  (`WrittenAcrossPlatforms`) bring that about; without either it cannot happen (`OptedOutUserNotReached`).
- A 15-digit number with a leading 0 is rejected when it is normalised a second time (`FifteenDigitDomesticNumberIsLost`).

## Model

| member | source | states |
|---|---|---|
| TokenFamily.ReachableInv | apps/api/src/auth/auth.service.ts:101-182 | under every interleaving parents exist and are revoked, a family has one owner, reuse marks are revocations, and no two callers hold a winning revoke of one token |
| TokenFamily.FamiliesAreChains | apps/api/src/auth/auth.service.ts:117-126 | the parent links of each family form one chain that holds all its tokens |
| TokenFamily.AtMostOneHead | apps/api/src/auth/auth.service.ts:160-166 | unrevoked tokens of a family plus refreshes between winning revoke and insert number at most one |
| TokenFamily.RevocationLasts | apps/api/src/auth/auth.service.ts:130-136 | no event undoes a revocation or a reuse mark, or changes a token's owner, family or parent |
| TokenFamily.ReuseStopsTheFamily | apps/api/src/auth/auth.service.ts:130-171 | once reuse is detected at most one more token is ever created in the family, and no later token is ever rotated |
| TokenFamily.SecondUseRevokesTheFamily | apps/api/src/auth/auth.service.ts:147-164 | whatever other callers do between its statements, a caller that presents a used token, or loses the conditional update, ends by revoking and marking every token its family then has |
| TokenFamily.AloneIsARun | apps/api/src/auth/auth.service.ts:138-171 | a refresh nothing interrupts is a run of the concurrent protocol |
| TokenFamily.AloneTokens | apps/api/src/auth/auth.service.ts:146-170 | the table such a refresh leaves, for a missing, revoked, compromised, expired or good token and a failing insert |
| TokenFamily.AuthService.Refresh | apps/api/src/auth/auth.service.ts:138-171 | each answer is given exactly where its own guard is the first to hold, a grant exactly for a verified, unused, unexpired token of a clean family and an active user whose child could be stored; the table is unchanged, rotated, or has this one family revoked, accordingly |
| TokenFamily.AuthService.RevokeCompromisedFamily | apps/api/src/auth/auth.service.ts:130-136 | every token of user and family, and no other, becomes revoked with a reuse mark |
| TokenFamily.AuthService.Logout | apps/api/src/auth/auth.service.ts:173-176 | revokes the caller's own unrevoked token and changes nothing else |
| TokenFamily.AuthService.LogoutAll | apps/api/src/auth/auth.service.ts:178-182 | revokes and counts the user's unrevoked tokens and changes nothing else; a password reset does the same update |
| TokenFamily.AuthService.Login | apps/api/src/auth/auth.service.ts:101-128 | a login or registration adds one live token, the first of a family of its own |
| PhoneNumbers.OnlyDigitsMatter | apps/api/src/contacts/import-engine.service.ts:57-64 | texts with the same digits normalise alike, unless one is blank |
| PhoneNumbers.MergesExactlySameNumbers | apps/api/src/contacts/import-engine.service.ts:57-64 | two accepted texts give one result exactly when their digits are equal or are 0 + s and 84 + s |
| PhoneNumbers.IdempotentUpToFifteenDigits | apps/api/src/contacts/import-engine.service.ts:57-64 | normalising a result again gives it back exactly when it has at most 15 digits |
| PhoneNumbers.FifteenDigitDomesticNumberIsLost | apps/api/src/contacts/import-engine.service.ts:60-62 | the accepted numbers whose result is rejected the second time are those with 15 digits and a leading 0 |
| PhoneNumbers.CanonicalIff | apps/api/src/contacts/import-engine.service.ts:57-64 | the numbers normalisation yields are exactly a plus sign and digits without a leading 0: 9 to 16 after 84, else 9 to 15 |
| PhoneNumbers.CopiesAgreeOnNonBlank | apps/worker/src/main.ts:287-294 | the four copies of the normaliser agree on a text exactly when it is not blank |
| Text.DigitsOfParts | apps/api/src/contacts/import-engine.service.ts:59 | the digits of a text are those of its parts, in order |
| Text.TrimTakesSpaceOnly | apps/api/src/contacts/import-engine.service.ts:53 | trimming takes white space off both ends and nothing else |
| ImportModel.FillValues | apps/api/src/contacts/import-engine.service.ts:271-273 | the loop leaves for each target the trimmed cell of the last column mapped to it |
| ImportMeaning.LastColumnIs | apps/api/src/contacts/import-engine.service.ts:273 | of several columns mapped to one target the last counts |
| ImportModel.OnlyMappedColumnsMatter | apps/api/src/contacts/import-engine.service.ts:271-273 | cells of ignored or overtaken columns make no difference |
| ImportModel.PreparedRowsHaveKeys | apps/api/src/contacts/import-engine.service.ts:276-278 | every row that survives normalisation has a Zalo id or a phone to be recognised by |
| ImportModel.KeysOfFilesIff | apps/api/src/contacts/import-engine.service.ts:271-295 | the dedupe keys rows of files can have are exactly the trimmed, non-empty ids of at most 10,000 characters and the normalised phones |
| ImportModel.AutoMapping | apps/api/src/contacts/import-engine.service.ts:297-307 | every column gets a target its header names that no earlier column has, and is ignored only if all such targets are taken |
| ImportModel.OneColumnIsRead | apps/api/src/contacts/import-engine.service.ts:271-273 | under a proposed mapping each target is read from its one column |
| ImportMeaning.RefusedIff | apps/api/src/contacts/import-engine.service.ts:271-281 | a row is refused exactly if it has a fault: a blank name, a phone that is not blank and has fewer than 9 or more than 15 digits, neither phone nor id, or an implausible e-mail address; and for the first of these |
| ImportMeaning.EmailIff | apps/api/src/contacts/import-engine.service.ts:280 | the address test accepts exactly three texts without @ or white space, with @ and a dot between them |
| ImportMeaning.UsableSaysItsCells | apps/api/src/contacts/import-engine.service.ts:274-295 | every field of a row that is not refused says what its trimmed cell says: the consent is OPTED_IN or OPTED_OUT only for the listed words |
| ImportMeaning.NoColumnNoConsent | apps/api/src/contacts/import-engine.service.ts:281-282 | without a column for consent it is UNKNOWN |
| ImportMeaning.MappedRowsReadRight | apps/api/src/contacts/import-engine.service.ts:229-264 | after mapping the INVALID rows are exactly those with a fault, each noted with its first; every other row holds what its cells say and the dedupe key of its id or else its phone |
| ImportMeaning.MappedRowsJudgedRight | apps/api/src/contacts/import-engine.service.ts:246-264 | a row without a fault is a DUPLICATE of a contact exactly if it shares a key with a live one, a DUPLICATE in the file exactly if it shares none but shares one with a VALID row before it, and VALID otherwise |
| ImportMeaning.ContactsSayTheirCells | apps/worker/src/main.ts:328-390 | from file to contacts, over any cuts and retries: each contact made comes from a row without a fault and holds what its cells say, opted in or suppressed only if they say so |
| ImportStaging.StagedAt | apps/api/src/contacts/import-engine.service.ts:314-318 | row i of the file is stored with number i + 1 and its clipped cells under the columns known by then |
| ImportStaging.StagedCells | apps/api/src/contacts/import-engine.service.ts:314-318 | the stored row is unjudged and has for every column the trimmed cell of the file, its first 10,000 characters if longer, or nothing |
| ImportStaging.FirstNamesAre | apps/api/src/contacts/import-engine.service.ts:315 | a row's columns are its first 200 names that are not empty |
| ImportStaging.NonEmptyOnesInOrder | apps/api/src/contacts/import-engine.service.ts:315 | in their order |
| ImportStaging.ColumnsOfFile | apps/api/src/contacts/import-engine.service.ts:311-316 | the columns are those of the first row that names any; rows before it are stored without cells, and no later row changes the columns |
| ImportStaging.StagedOnly | apps/api/src/contacts/import-engine.service.ts:314-326 | no other row is stored |
| ImportStaging.StagedCount | apps/api/src/contacts/import-engine.service.ts:309-328 | as many rows are stored as the file has |
| ImportStaging.StagedIsWellNumbered | apps/api/src/contacts/import-engine.service.ts:317-318 | staged rows carry positive numbers, each once |
| ImportStaging.StagedIsStageable | apps/api/src/contacts/import-engine.service.ts:316-318 | staged files are covered by the comparison of batched and simple mapping |
| ImportStaging.WaitingIsRemainder | apps/api/src/contacts/import-engine.service.ts:319-322 | what is written is whole batches, and less than one batch waits |
| ImportStaging.StagingTable.StageFile | apps/api/src/contacts/import-engine.service.ts:309-328 | all rows are written, or past the row limit the call fails with only the full batches written; the columns returned are those of the rows read |
| ImportStaging.StagedFileImportsAsPreviewed | apps/api/src/contacts/import-engine.service.ts:113-117 | file to finished import: staged, mapped with any page size and committed undisturbed, it imports as previewed if and only if no id clashes |
| ImportBatching.BatchingRefinesSimpleIff | apps/api/src/contacts/import-engine.service.ts:219-267 | for each page size: on every file and mapping of its columns the batched verdicts are those of the one-row rule, if and only if pages hold one row or no live foreign contact has a phone and an id that files can name while no live Zalo contact holds the id |
| ImportBatching.ForeignIdSplitsFile | apps/api/src/contacts/import-engine.service.ts:244-255 | for each such contact, the two-row file whose second row is a DUPLICATE with pages of any size from two up, 500 included, and VALID on its own |
| ImportBatching.DuplicatesJustified | apps/api/src/contacts/import-engine.service.ts:246-263 | on files each DUPLICATE shares a key with a live contact or else with an earlier VALID row, so the VALID rows are maximal |
| ImportMapping.IdsAreZaloShadows | apps/api/src/contacts/import-engine.service.ts:244-245 | live contacts with platform ids being Zalo contacts is enough for that |
| ImportMapping.MappingIsSoundAndMaximal | apps/api/src/contacts/import-engine.service.ts:246-263 | whatever the rows, VALID rows share no key with each other or a live contact, and INVALID is exactly what normalisation rejects |
| ImportMapping.CountersAddUp | apps/api/src/contacts/import-engine.service.ts:248-268 | valid + invalid + duplicate is the number of staged rows |
| ImportMapping.MappedRowsAreMarked | apps/api/src/contacts/import-engine.service.ts:227-263 | every staged row is visited, and carries the status, notes and dedupe key of its own verdict |
| ImportMapping.CursorMoves | apps/api/src/contacts/import-engine.service.ts:228-264 | moving the cursor to the last row of a page leaves exactly the rows after the page |
| ImportMapping.PercentGrows | apps/api/src/contacts/import-engine.service.ts:266 | progress grows with the rows processed |
| ImportMapping.PercentRounds | apps/api/src/contacts/import-engine.service.ts:266 | the percentage is the one whole number r with 100 * processed / max(1, total) from r - 1/2 to just below r + 1/2 |
| ImportMapping.ShownRounds | apps/api/src/contacts/import-engine.service.ts:266 | the progress shown is that percentage, capped at 99 |
| ImportMapping.ImportStore.JudgePage | apps/api/src/contacts/import-engine.service.ts:246-263 | the inner loop writes the rows, `seen` and counters the verdicts call for |
| ImportMapping.ImportStore.RunCursor | apps/api/src/contacts/import-engine.service.ts:221-267 | the cursor loop ends, and equals the specification over all rows in order of id |
| ImportMapping.ImportStore.ApplyMapping | apps/api/src/contacts/import-engine.service.ts:219-269 | rows and counters are those of the batched rule, whose meaning for each row the ImportMeaning rows state; skipped is invalid + duplicate; progress never falls and stays at most 99 until READY |
| ImportPreview.MappingPromises | apps/api/src/contacts/import-engine.service.ts:246-263 | after mapping, VALID rows are usable with keys apart from each other and from live contacts, and every row is VALID, INVALID or DUPLICATE |
| ImportPreview.DedupeKeysAreUnique | apps/api/src/contacts/import-engine.service.ts:246-263 | VALID rows have dedupe keys and no two have the same |
| ImportPreview.CountersCountRows | apps/api/src/contacts/import-engine.service.ts:248-268 | validRows, invalidRows and duplicateRows each count the rows of their status |
| ImportPreview.MatchingIsSharing | apps/worker/src/main.ts:357-363 | the worker's lookup finds a contact exactly when row and live contacts share a key |
| ImportPreview.CreationAddsKeys | apps/worker/src/main.ts:369-374 | a created contact adds exactly the keys of its row to the live keys |
| ImportPreview.PreviewPredictsCommitIff | apps/worker/src/main.ts:346-389 | an undisturbed attempt imports exactly the VALID rows, fails and skips none and ends COMPLETED with importedRows their number, if and only if no contact holds a VALID row's Zalo id |
| ImportPreview.MappedFileImportsAsPreviewed | apps/worker/src/main.ts:328-390 | the same from the mapping of the file on, with importedRows equal to validRows |
| ImportPreview.ArchivedHolderFailsTheRow | apps/worker/src/main.ts:357-379 | a row whose Zalo id only an archived contact holds is shown VALID and always FAILED by the import |
| ImportCommit.AttemptsCreateOnce | apps/worker/src/main.ts:328-390 | over any attempts, cuts, cancels and outside changes: each row makes at most one contact, is IMPORTED exactly when it did, at most as many contacts are made as rows were VALID, other rows are untouched |
| ImportCommit.AttemptsOnlyAdd | apps/worker/src/main.ts:369-374 | over any attempts and cuts, the contacts there were stay as they were, and every contact added carries the name, keys, consent, suppression and row number of the row that made it |
| ImportCommit.OutcomeIff | apps/worker/src/main.ts:357-379 | a row fails exactly if a statement fails, it has no data, or nothing was found and its id is held after all; it is skipped exactly if a contact was found; otherwise it makes one |
| ImportCommit.RowsEndRight | apps/worker/src/main.ts:357-379 | over any attempts and outside changes every row is as mapped or has one of three ends, with its mark and its contact |
| ImportCommit.BeginsWithinQuotaIff | apps/worker/src/main.ts:337-344 | an attempt begins exactly if live contacts and VALID rows together are within the quota, and then resets counters and progress |
| ImportCommit.AttemptsKeepTheQuota | apps/worker/src/main.ts:337-374 | however often an import is cut and retried it makes no contact or leaves the live contacts within the quota, as many more as were made |
| ImportCommit.ReachableInv | apps/worker/src/main.ts:346-380 | no VALID row is left behind the row reached, the page held is the next stretch of VALID rows, and the counters count what the attempt did |
| ImportCommit.PassFirst | apps/worker/src/main.ts:351-354 | setting lastRow to the first row of a page leaves exactly the rest before the worker |
| ImportCommit.EndingAttempt | apps/worker/src/main.ts:384-389 | a finished attempt leaves no VALID row; its counters count this attempt only; COMPLETED means this attempt failed no row |
| ImportCommit.SavingAttempt | apps/worker/src/main.ts:382 | the counters and progress saved after each page tell what the attempt has done so far |
| ImportCommit.CutAttemptsAreForgotten | apps/worker/src/main.ts:343-389 | a cut and retried import of one row ends COMPLETED with importedRows and failedRows 0 while the row is IMPORTED, or is FAILED |
| ImportCommit.FinishedForGood | apps/worker/src/main.ts:333 | a finished import is never changed again |
| ImportCommit.OutsideEndings | apps/worker/src/main.ts:474-477 | the cancellation and the last failure end an import exactly from the statuses they may, and touch no row or contact |
| ImportCommit.PhonesStayUnique | apps/worker/src/main.ts:357-375 | no two live contacts share a phone in any run where others keep that too and stay out of the gap between lookup and creation |
| ImportCommit.GapBreaksPhones | apps/worker/src/main.ts:357-374 | and must be: a contact with the row's phone that comes between lookup and creation leaves two of them |
| ImportCommit.CreatingKeepsPhonesIff | apps/worker/src/main.ts:369-374 | a creation keeps phones unique exactly when no live contact holds the phone by then |
| ImportWorker.ImportTables.CommitRow | apps/worker/src/main.ts:354-380 | one row is looked up and written as the two events of the protocol |
| ImportWorker.ImportTables.ProcessPages | apps/worker/src/main.ts:346-389 | the loops end with the job COMPLETED or PARTIAL, by a run of the protocol without cuts |
| ImportWorker.ImportTables.ProcessStagedImport | apps/worker/src/main.ts:328-390 | does nothing to a finished import, throws where blocked or where live contacts and VALID rows would pass the quota, and else is an undisturbed run to the end |
| ImportWorker.ImportTables.ImportMappedFile | apps/worker/src/main.ts:328-390 | without faults a mapped file is imported as previewed if and only if no id clashes |
| ImportWorker.TracePredicts | apps/worker/src/main.ts:346-389 | the preview theorem for the traces the handler produces |
| FanOut.EachServedAlone | apps/worker/src/main.ts:247-268 | the loop does for each member exactly what serving that member alone does |
| FanOut.RunTwiceIsRunOnce | apps/worker/src/main.ts:255-256 | a second full run changes no message, campaign message or job, whoever is eligible by then |
| FanOut.FullRunLinksAllIff | apps/worker/src/main.ts:255-264 | a full run gives every member a campaign message, if and only if it finds no orphan, as a run cut between message and campaign message leaves (FanOutRace.CutLeavesOrphan) |
| FanOut.FullRunStrands | apps/worker/src/main.ts:264-268 | a full run neither strands a member nor rescues one that a run cut before its send job stranded (FanOutRace.CutStrands) |
| FanOut.CountersShow | apps/worker/src/main.ts:245-274 | the loop's own counts never claim a status no campaign message shows |
| FanOut.QueuedIff | apps/worker/src/main.ts:247-268 | a full run queues a message for exactly the included members without one whose contact is no synthetic one, of this platform, has a user id, is free of suppression, and has opted in if the campaign promotes |
| FanOutRace.RunsNeverRepeat | apps/worker/src/main.ts:247-268 | concurrent runs cut anywhere: one message per contact, one send job per message, every eligible message queued, held by a run or lost by a cut one |
| FanOutRace.SentUnlessLost | apps/worker/src/main.ts:263-267 | once all runs are over an eligible message was queued exactly when no cut run was holding it |
| FanOutRace.UninterruptedRunServesAll | apps/worker/src/main.ts:247-268 | a run that nothing interrupts, statement by statement, ends in exactly the tables of the sequential loop |
| FanOutRace.CutLeavesOrphan | apps/worker/src/main.ts:263-264 | a run cut between message and campaign message leaves an orphan |
| FanOutRace.CutStrands | apps/worker/src/main.ts:264-267 | a run cut between campaign message and send job leaves a stranded member |
| FanOutRace.OrphanForGood | apps/worker/src/main.ts:255-256 | no later run, nor any number of them, writes an orphan's campaign message |
| FanOutRace.LostForGood | apps/worker/src/main.ts:255-256 | a message a cut run was holding is never queued |
| Campaign.ReachableInv | apps/worker/src/main.ts:145-276 | campaign messages show their messages, open messages have a live job or a failure handler to come, attempts stay below five |
| Campaign.CampaignsAddUp | apps/worker/src/main.ts:145-157 | after fan-out one campaign message per member; the counts written add up to the audience; COMPLETED has nothing pending; nothing pending means ended; at most one notice |
| Campaign.CompletedStatistics | apps/worker/src/main.ts:150-154 | the statistics of a completed campaign count its sent, failed, and blocked or excluded members each under its own name |
| Campaign.StatisticsCount | apps/worker/src/main.ts:145-157 | from the fan-out on the statistics count the messages under their own statuses at every moment, except after the last message of a cancelled campaign |
| Campaign.RunStatusMeans | apps/worker/src/main.ts:269-274 | a run leaves RUNNING while a message is pending, else COMPLETED if one was sent and FAILED if none was |
| Campaign.FirstRunStatus | apps/worker/src/main.ts:269-274 | the first fan-out leaves RUNNING if it queued a message and FAILED if it had none to queue |
| CampaignHistory.StatusTellsHistory | apps/worker/src/main.ts:159-232 | in every run a message is SENT exactly if the platform took some attempt made while the campaign was neither paused nor cancelled; BLOCKED exactly if the first fan-out found the contact unfit, an attempt was blocked, or one came after the cancellation; FAILED exactly if its final-failure handler ran |
| CampaignHistory.FailedIff | packages/queue/src/index.ts:20-25 | a message is FAILED exactly if five attempts on it threw and that handler ran; never do more than five throw |
| CampaignHistory.WaitingIff | apps/worker/src/main.ts:234-276 | a member has a message exactly if some fan-out ran; it waits exactly if none of those ends came |
| CampaignHistory.SendingIff | apps/worker/src/main.ts:215-224 | a waiting message is SENDING exactly if some attempt threw after marking it so, and else QUEUED |
| CampaignHistory.WaitingIsCarried | apps/worker/src/main.ts:252-262 | a message waits exactly while it has a job with fewer than five throws, or five and its handler still to run |
| CampaignHistory.NothingSentAfterCancel | apps/worker/src/main.ts:171 | after the cancellation no message becomes SENT |
| CampaignHistory.NothingUnapproved | apps/api/src/campaigns/campaigns.service.ts:82-117 | no message is ever written for a campaign nobody approved |
| CampaignHistory.CancelledIff | apps/api/src/campaigns/campaigns.service.ts:119-135 | CANCELLED is reached exactly by a cancellation before the end |
| CampaignHistory.BlockingPauses | apps/scheduler/src/main.ts:32 | a blocked workspace's running and scheduled campaigns are paused, and nothing else about them changes |
| Campaign.EndedForGood | apps/api/src/campaigns/campaigns.service.ts:119-135 | COMPLETED and CANCELLED are never left |
| Campaign.LaterRunKeeps | apps/worker/src/main.ts:234-276 | a campaign processed again after its fan-out still has pending messages, stays RUNNING and is otherwise unchanged |
| CampaignTermination.CampaignsEnd | apps/worker/src/main.ts:159-232 | once fan-out leaves a campaign RUNNING, every fair run with finitely many deferrals ends with all messages SENT, FAILED or BLOCKED and the campaign COMPLETED or CANCELLED for good |
| CampaignTermination.AtMostFiveAttempts | packages/queue/src/index.ts:20-25 | in every run of a campaign a message is attempted at most five times, deferrals aside, however often it is paused, resumed and fanned out |
| CampaignTermination.DeliverLowers | packages/queue/src/index.ts:20-25 | an attempt that is not deferred lowers what the message owes of its five attempts and touches no other |
| CampaignTermination.FailLowers | apps/worker/src/main.ts:461-468 | the final-failure handler discharges its message |
| CampaignTermination.NeverFails | apps/worker/src/main.ts:269-274 | a fanned-out campaign that is not FAILED never becomes so |
| CampaignWorker.CampaignStore.ProcessCampaign | apps/worker/src/main.ts:234-276 | the handler is the fan-out step and runs exactly where status, policy and both message quotas allow all included members; it creates one outbound message per included member without one and keeps both counts within their limits |
| CampaignWorker.CampaignStore.ServeMember | apps/worker/src/main.ts:247-268 | one turn of the loop, with the messages created counted |
| CampaignWorker.CampaignStore.UpdateCampaignProgress | apps/worker/src/main.ts:145-157 | is the progress update of the protocol |
| CampaignWorker.CampaignStore.ProcessMessage | apps/worker/src/main.ts:159-232 | is the delivery step, whose outcomes the CampaignHistory rows state |
| CampaignWorker.CampaignStore.OnFailed | apps/worker/src/main.ts:461-468 | is the final-failure step |
| CampaignWorker.CampaignStore.ApproveCampaign | apps/api/src/campaigns/campaigns.service.ts:82-90 | approves exactly DRAFT and PENDING_APPROVAL, and leaves APPROVED |
| CampaignWorker.CampaignStore.ScheduleCampaign | apps/api/src/campaigns/campaigns.service.ts:92-98 | schedules exactly an APPROVED campaign for a future time, and leaves SCHEDULED |
| CampaignWorker.CampaignStore.LaunchCampaign | apps/api/src/campaigns/campaigns.service.ts:100-117 | launches exactly from APPROVED, SCHEDULED or PAUSED with valid recipients and policy leave, and leaves RUNNING |
| CampaignWorker.CampaignStore.SetStatus | apps/api/src/campaigns/campaigns.service.ts:119-135 | pauses, resumes or cancels exactly where allowed, to PAUSED, RUNNING or CANCELLED, and says whether it did |
| WebhookReplay.OncePerAccountIff | apps/api/src/accounts/zalo-webhook.service.ts:36-64 | no body is stored or queued twice under one account, for all time and in every interleaving, if and only if retention is at least twice the window plus the handling lag |
| WebhookReplay.OnceForAllTimeIff | apps/api/src/accounts/zalo-webhook.service.ts:54-64 | no text is stored or queued twice at all, if and only if in addition no OA has two account rows |
| WebhookReplay.TwoRowsStoreTwice | apps/api/src/accounts/zalo-webhook.service.ts:54-57 | with two rows for one OA a replay inside the window is stored again under the other |
| WebhookReplay.SecondInsertFails | apps/scheduler/src/main.ts:64-72 | a body stored before cannot be inserted again under the account: its job is there or its window has closed |
| WebhookReplay.ReplayAfterCleanUp | apps/scheduler/src/main.ts:64-72 | with a shorter retention some run stores a body twice |
| WebhookReplay.CleanUpSparesOpenWindows | apps/scheduler/src/main.ts:67 | with that retention no clean-up takes the job of a body that could still be accepted |
| WebhookReplay.OneJobPerEventIff | apps/api/src/accounts/zalo-webhook.service.ts:57-58 | where the first 32 characters of digests tell texts apart, two bodies have one job exactly if account and event key are the same |
| WebhookReplay.SameEventIff | apps/api/src/accounts/zalo-webhook.service.ts:57 | event keys are the same exactly for the same message, or without one for the same kind and timestamp |
| WebhookReplay.NoEventLost | apps/api/src/accounts/zalo-webhook.service.ts:59 | in every run a checked body is dropped as a duplicate only if the same event was stored for the same account before |
| WebhookReplay.Inbox.Accept | apps/api/src/accounts/zalo-webhook.service.ts:23-66 | each refusal belongs to the first check that fails; a genuine delivery is answered as a duplicate only if the same event was stored for the account before, and is else stored and queued; where jobs are kept long enough it stores only what was never stored before |
| WebhookReplay.Inbox.DeleteOldJobs | apps/scheduler/src/main.ts:67 | is the clean-up event of the protocol: it keeps the invariant and, where jobs are kept long enough, the job of every body that could still be accepted |
| WebhookReplay.Inbox.FinishJob | apps/worker/src/main.ts:440-444 | is the finish event of the protocol, and keeps the invariant |
| RateLimiter.RateHeldIff | apps/worker/src/main.ts:101-107 | with any lag between reading the clock and incrementing, at most N permits per account and clock minute in every run, if and only if counters are kept for a minute and the lag: 90 seconds allow a lag of 30 |
| RateLimiter.TwiceTheRate | apps/worker/src/main.ts:101-107 | at most 2N permits read off the clock in any 60 seconds, both ends included, and at most 2N granted in any stretch shorter by the lag |
| RateLimiter.TwiceTheRateIsReached | apps/worker/src/main.ts:101-107 | 2N permits do fall within two milliseconds, without any lag |
| RateLimiter.RetryInLaterMinuteIff | apps/worker/src/main.ts:209-213 | a refused job waits into a later minute exactly when the second clock reading is at most 250 ms further into its minute than the first |
| RateLimiter.Limiter.Allow | apps/worker/src/main.ts:101-107 | the method is the step of the limiter: it counts in the minute it read and expires at the moment of the increment; it grants exactly what the log records |
| Subscriptions.QueriesAgree | apps/scheduler/src/main.ts:24-30 | the tick's range queries select exactly what the day-rounding lifecycle says, at every instant |
| Subscriptions.ThresholdIsItsDay | packages/shared/src/index.ts:114-126 | a warning threshold holds for exactly the one day that starts its number of days before the end |
| Subscriptions.TickInView | apps/scheduler/src/main.ts:32-59 | a tick acts on each subscription as if it were alone |
| Subscriptions.TickSetsStatus | apps/scheduler/src/main.ts:29-42 | a tick marks a current subscription EXPIRED from its end on, EXPIRING in the thirty days before, and changes no other |
| Subscriptions.PromptIff | apps/scheduler/src/main.ts:18-82 | with ticks up to any gap apart and any API checks between, every warning of every subscription is raised once, in its day and in order, if and only if the gap is a day at most and notifications are kept a day |
| Subscriptions.WholeTerm | apps/scheduler/src/main.ts:32-59 | over a whole term exactly the 30, 15, 7, 3 and 1 day warnings in that order; the expiry notice then comes, once, if and only if no API check of the subscription falls between the end and the first tick at or after it |
| Subscriptions.EndOfMeans | apps/api/src/common/subscription-policy.service.ts:64-69 | who finds the term over first: a tick exactly if one does with no check before it |
| Subscriptions.CheckSwallowsTheNotice | apps/scheduler/src/main.ts:32-45 | in any state, a check just before the tick makes the difference between the notice and none |
| Subscriptions.SlowTicksMissOne | apps/scheduler/src/main.ts:46-58 | ticks more than a day apart can pass over a warning |
| Subscriptions.ShortRetentionRepeatsOne | apps/scheduler/src/main.ts:70 | a retention under a day can repeat one, however close the ticks |
| Subscriptions.KeyTextIsInjective | packages/shared/src/index.ts:128-130 | different subscriptions, dates or notices have different dedupe keys |
| Subscriptions.Scheduler.RunTick | apps/scheduler/src/main.ts:18-82 | both loops and the clean-up are the tick of the model; a tick while one runs does nothing; the time of the clean-up is noted exactly when it was due |
| Subscriptions.Scheduler.CheckEntitlement | apps/api/src/common/subscription-policy.service.ts:54-69 | is the check of the model, for one that comes to the lifecycle test |
| OutboundPolicy.ApiAdmitsIff | apps/api/src/common/subscription-policy.service.ts:28-116 | the API admits n messages exactly when the worker finds no block, the subscription has started and its storage override is readable |
| OutboundPolicy.ReasonsAgree | apps/worker/src/main.ts:109-133 | where both refuse they name corresponding reasons |
| OutboundPolicy.RefusedForFirstReason | apps/api/src/common/subscription-policy.service.ts:28-116 | the API refuses exactly if one of its ten reasons applies, each stated on its own, and gives the first in order |
| OutboundPolicy.BlockedForFirstReason | apps/worker/src/main.ts:109-133 | so does the worker with its six |
| OutboundPolicy.LimitsAgree | apps/worker/src/main.ts:122-124 | the two ways of reading an override give the same limit |
| OutboundPolicy.StorageOverrideBlocksOnlyTheApi | apps/api/src/common/subscription-policy.service.ts:28-34 | a fractional storage override blocks the API and not the worker |
| OutboundPolicy.OnlyGetsHarder | apps/worker/src/main.ts:109-133 | on the same rows neither time nor more messages turns a refusal into permission |
| OutboundPolicy.WriteChangesNoAnswer | apps/api/src/common/subscription-policy.service.ts:64-69 | marking a subscription EXPIRED changes no later answer of either policy |
| OutboundPolicy.CheckWritesOnly | apps/api/src/common/subscription-policy.service.ts:64-69 | the API's check writes the status EXPIRED where it refuses for that reason, and nothing else |
| OutboundPolicy.WriteIsACheck | apps/api/src/common/subscription-policy.service.ts:64-69 | that write is the check between ticks of the notice theorems |
| OutboundPolicy.PolicyService.AssertOutboundAllowed | apps/api/src/common/subscription-policy.service.ts:98-116 | refuses for the reason of the model, writes EXPIRED only where found over, and admits nothing the worker would block |
| Suppression.WithdrawalStands | apps/worker/src/main.ts:416-423 | an unfollow or withdraw event leaves a suppression entry standing |
| Suppression.SuppressionBeatsConsent | apps/worker/src/main.ts:175-206 | while an entry stands no step sends to a contact holding that Zalo id in that workspace, whatever consent edits, bulk actions, imports and saves come between |
| Suppression.SendsUnderEntryIff | apps/worker/src/main.ts:175-206 | under a standing entry a delivery addressed to the user goes out if and only if its contact does not hold the id on Zalo in that workspace, consents, is free of suppression, and account and limiter agree |
| Suppression.ReachedUnderEntryIff | apps/worker/src/main.ts:175-224 | over any run in which the entry stands the user is sent something if and only if such a delivery occurs |
| Suppression.OptedOutUserNotReached | apps/worker/src/main.ts:175-224 | while no save re-identifies a contact and no message crosses platforms, nothing is sent to the user at all |
| Suppression.SavedUnderAnotherPlatform | apps/api/src/contacts/contacts.service.ts:47-71 | a save that re-identifies a contact lets a waiting message through |
| Suppression.WrittenAcrossPlatforms | apps/api/src/messages/messages.service.ts:76-84 | so does a message to a contact of another platform with the same id, with no save at all |
| Suppression.OnlyRemovalLifts | apps/api/src/contacts/contacts.service.ts:236-241 | an entry ends exactly by the removal its scope and workspace allow |
| Suppression.DecisionIs | packages/shared/src/index.ts:51-103 | the safety decision names the first reason that applies, each stated outright |
| ConsentLaws.ConsentEditWrites | apps/api/src/contacts/contacts.service.ts:108-119 | a consent edit gives the one contact named the consent asked for, suppresses it exactly on an opt-out, and changes nothing else anywhere |
| ConsentLaws.BulkWrites | apps/api/src/contacts/contacts.service.ts:198-219 | a bulk operation does so to all contacts named, or to none if one is not a live contact of the workspace |
| ConsentLaws.SaveWrites | apps/api/src/contacts/contacts.service.ts:47-71 | a save leaves one contact with the consent, platform, id and phone of its input, and no other changed |
| ConsentLaws.SaveGoesThroughIff | apps/api/src/contacts/contacts.service.ts:47-71 | it goes through exactly if no other contact, archived ones included, holds the resulting id |
| ConsentLaws.ImportRowWrites | apps/worker/src/main.ts:369-374 | an imported row adds one contact with the consent of its row, exactly if no live contact has its phone or id and no archived one its id |
| ConsentLaws.WithdrawalWrites | apps/worker/src/main.ts:411-423 | an unfollow or withdrawal opts out the contact that holds the id, or the one made for it, and no other |
| ConsentLaws.EntryWrites | apps/api/src/contacts/contacts.service.ts:225-234 | an entry suppresses exactly the live contacts it names; a global one opts them out, archived ones included |
| ConsentLaws.DeliverySendsIff | apps/worker/src/main.ts:175-224 | a delivery sends exactly if its message waits, account, platform and limiter agree, the contact consents and is free of suppression, and no entry names it |
| ConsentLaws.DeliveryEndsMessageIff | apps/worker/src/main.ts:159-224 | its message waits on exactly if only the limiter held it up or the send was not acknowledged |
| ConsentLaws.OptOutHolds | apps/worker/src/main.ts:175-206 | after an opt-out nothing is sent to the contact over any run in which no operation edits its consent, with or without entries |
| ConsentLaws.EditedOutIsNotReached | apps/api/src/contacts/contacts.service.ts:108-119 | so after a consent edit that opts the contact out |
| ConsentLaws.EditedInIsReachedIff | apps/worker/src/main.ts:175-224 | after an opt-in a promotional message on a clear line is sent exactly if no entry names the contact |
| Suppression.ContactStore.UpdateConsent | apps/api/src/contacts/contacts.service.ts:108-119 | is the consent step, whose writes ConsentEditWrites states, with its not-found error |
| Suppression.ContactStore.ProcessWithdrawal | apps/worker/src/main.ts:411-423 | is the opt-out step, and an entry stands afterwards |
| Suppression.ContactStore.AddSuppression | apps/api/src/contacts/contacts.service.ts:225-234 | adds a well-formed entry and marks the contacts it names |
| Suppression.ContactStore.LiftSuppression | apps/api/src/contacts/contacts.service.ts:236-241 | removes an entry of this workspace, and otherwise answers not found |
| Suppression.ContactStore.LiftGlobalSuppression | apps/api/src/admin/admin.service.ts:247-251 | removes an entry of global scope, and otherwise answers not found |
| Suppression.ContactStore.WriteMessage | apps/api/src/messages/messages.service.ts:76-84 | is the write of the model; the message written is addressed to its contact as it stands, if and only if the account's platform is the contact's |
| Suppression.ContactStore.ProcessMessage | apps/worker/src/main.ts:159-224 | is the delivery step with its safety decision |
| ErrorCsv.RoundTripIff | apps/api/src/contacts/import-engine.service.ts:66-69 | printing then reading gives a table back, if and only if it does not end in a record of one empty field after others |
| ErrorCsv.FieldRead | apps/api/src/contacts/import-engine.service.ts:66-69 | a printed field is read back whole, with its quotes, commas and line breaks |
| ErrorCsv.WriteReport | apps/api/src/contacts/import-engine.service.ts:210-217 | after the byte-order mark the report reads back as the column names and the four texts of exactly the INVALID and FAILED rows, each once, in row order |

## Left out

- The web application, controllers, validation, OpenAPI text and health endpoints: no state of their own.
- The inside of database, cache and queue: unique keys, atomic transactions, conditional updates, atomic increments and one active run per job id are taken as given.
- Reading CSV, XLSX, XLS and JSON files: libraries do it; staging starts from the raw rows and the header.
- Platform adapters and the network: a send ends in any outcome.
- Cryptography: argon2, JWT, SHA-256 and random ids; a webhook signature is compared with the value of a digest function.
- The Zalo access-token refresh and the one-time OAuth state: a network call and a single compare-and-set.
- Roles, templates, proxies, groups, analytics, audit records: thin; audit and job rows are left out of the states.
- Exactly-once delivery to the platform: a crash between a send and its record causes a second send, so a message is attempted, not delivered, at most five times.
- Relaunching a paused campaign under a reused job id: it rests on how long the queue keeps finished jobs.
- The older whole-array contact import: only its effect on consent and identity, in `Suppression.Save`.
- Campaign.CampaignsAddUp: each handler is one step. With delivery overlapping the fan-out loop, progress can see nothing pending too early and the loop's last write (apps/worker/src/main.ts:274) rewrites the status; a crash between a send record and its progress update leaves a campaign message QUEUED.
- CampaignTermination.CampaignsEnd: each handler is one step, a live job is taken up again in time, and deferrals (paused campaign, rate) are finitely many; deferrals are taken not to use up attempts.
- ImportCommit.AttemptsCreateOnce: the outcome of a transaction is known to the worker; a commit whose acknowledgement is lost would be recorded as FAILED. Nothing remaps the file between attempts, and a cancelled import that is still queued runs, as in the source.
- Suppression.ContactStore.WriteMessage: a message is taken to be queued; the source blocks some at once by the same safety decision.
- ImportMapping.ImportStore.ApplyMapping: contacts do not change while a file is mapped, and the percentage is rounded exactly where the source divides in floating point.
- ImportStaging.StagingTable.StageFile: a row comes with its names in order and its cells as text; reading them from the file, and turning a cell of another type into text, is not part of this model.
- RateLimiter.RateHeldIff: the worker and the counter store share one clock; a counter whose expiry is never set counts as one set very late.
- Subscriptions.PromptIff: the end date stands and nothing but ticks and API checks writes the status; a tick reads the clock once. A check in the middle of a tick counts as before or after it (`Timely`).
- Subscriptions.WholeTerm: a tick is one step. One cut between the EXPIRED write (apps/scheduler/src/main.ts:30) and the notification (apps/scheduler/src/main.ts:33) acts like a check, and swallows the expiry notice for good.
- Subscriptions.Scheduler.RunTick: pausing campaigns on expiry and starting scheduled campaigns and posts are not part of this class; pausing is the step PauseAll of the campaign.
- OutboundPolicy.ApiAdmitsIff: one snapshot and one clock reading; the source reads several rows and the clock twice.
- WebhookReplay.OnceForAllTimeIff: timestamps are whole numbers, and the account rows are those that are live at any time of the run.
- Suppression.SuppressionBeatsConsent: the statements of one delivery or one webhook are one step.
