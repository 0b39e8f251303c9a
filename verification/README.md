# Dixora: verified models

A Dafny 4.11 project that models the parts of the Dixora repository whose
correctness is not visible from one function body, and proves what they are for.
`dafny verify dfyconfig.toml` checks all of it. It builds nothing and executes
nothing; what is modelled is read off the source, and where the source and its
comments differ the model follows the source.

## What is modelled

**The print bridge** (`PrintProtocol`, `JournalEntries`, `JournalCodec`, `JournalFile`,
`World`, `JournalSafety`, `Journal`, `Bridge`, `PrintServer`). The bridge prints kitchen
tickets and bills, keeps a journal on disk, and reports to the API. `Bridge.PrintBridge`
and `Journal.PrintJournal` are classes whose methods follow the TypeScript call by call;
every call to the outside (`World.Outside`: each file-system call inside `persist`, the
transport, each request) may succeed, fail, or be the last thing the process does, and
when it does not succeed its effect may or may not have happened. What happened is a
history of events, and the main result, `Bridge.EveryRun`, is about the history of any
number of process lives against any server: paper comes out for a job at most once more
than the API accepted reports about it, at every moment, and every PRINTED report
repeats a result the transport gave for that very document. The other half is
`Bridge.PrintBridge.Run`: a life without faults first reports what the file on disk left
open and then does the work of exactly as many claims as it polls for; and whatever
fails short of a crash, the requests it makes are fixed
(`Bridge.PrintBridge.ProcessFresh`). `PrintServer` models the row the API keeps and
turns the bound into operator retries: prints <= 1 + retries. The durability that the
main result assumes is needed: `Bridge.SuppressionSurvives` says exactly when a written
journal keeps a job from being printed again, and `Bridge.WindowsPowerLossPrintsTwice`
runs the bridge's own calls where it does not.

**The realtime hubs** (`Realtime`). One event loop: code between two blocking awaits is
one action, the Redis hub's lock is a first-come line of waiters. On every interleaving
a tenant with a registered socket and no call in flight is subscribed, unless its last
subscribe call raised; the converse holds but for sockets evicted inside a broadcast. A
broadcast is modelled down to who receives the event: after every run, exactly the
sockets whose last join, leave or eviction was a join.

**Sessions and grants** (`Sessions`, `SessionEffects`, `RateLimit`). Login, refresh with
reuse detection, branch switch, logout, access-token resolution, panel grants, and the
sliding window on failed logins, as a state machine over which the `AuthStore` and
`LoginGuard` classes are proved. Tokens end with a switch at once and last, on every
quiet run, until their own expiry, given the lifetimes named below; what a login, a
refresh, a switch, a logout and a panel bring about is in `SessionEffects`. Failed
logins are bounded from both sides: who is refused is counted over the attempts
themselves.

**The receipt layout** (`TextWrap`, `ReceiptDocument`, `Receipt`, `ReceiptPrint`,
`ReceiptText`): how wide its rows are, and that it prints the whole document, as read
off the document's own fields, with the exact condition for both. **The document
normalisation** in front of it (`Normalize`), whose result is what the journal hashes.
**The IPP reader** (`Ipp`), against the grammar of sections 3.1 and 3.5.1 of RFC 8010.

**Media backups** (`Media`), **hotel stays** (`Hotel`), **kitchen tickets** (`Kitchen`)
and **product import** (`Catalog`, `Reimport`): smaller state machines and round trips.

## Findings

- Claims may carry attempt number 0, the journal records it, and the loader then
  refuses the whole file: printing stays blocked (`JournalCodec.AttemptZeroBlocksLoading`).
- On Windows the directory is not synced after the rename, so a power loss right
  after a print can bring back the journal from before it. The restarted bridge knows
  of no open entry, and when the manager has the silent job handed out again it is
  printed a second time, though its outcome was known
  (`Bridge.WindowsPowerLossPrintsTwice`, `JournalFile.WindowsPowerLossForgets`).
- The server lets a job's owner move it from FAILED back to CLAIMED, but gives it no
  lease then: if nothing more is heard, neither a poll nor the manager ever gets the job
  out of that state (`PrintServer.SilenceIsNoticed`). A job that failed five times
  without asking for the manager is never handed out again either, as the manager may
  only retry jobs that ask (`PrintServer.FailedJobsComeBack`).
- When `markAcknowledged` fails to write, its rollback undoes the call exactly when
  the journal was within its bound; the trim that ran first is not undone
  (`Journal.RollbackRestores`).
- A receipt row can be wider than the paper exactly when the staff heading or the
  upper-cased label of a valued footer line is (`Receipt.ReceiptFits`).
- The renderer promises not to truncate text. It keeps the promise exactly when no
  quantity crowds out its dish, no quantity of the wide table is longer than five
  characters, and no total crowds out its label (`ReceiptText.ReceiptSaysEverything`,
  `ReceiptPrint.LongQuantityIsCut`).
- A guest checked in with a name of white space only can never be checked out, and
  the room stays taken (`Hotel.BlankGuestTakesTheRoomForGood`). A room whose number
  is not one word is never charged, not even by the reference the staff are told to
  use (`Hotel.FolioReferenceReachesTheRoom`, `Hotel.UnreachableRoomIsNeverCharged`).
- A ticket update takes an order that was served by hand back to READY, PARTIALLY
  READY or PREPARING (`Kitchen.ServedMovesBack`).
- A payment made at the very moment when one guest leaves and the next arrives is
  charged to both (`Hotel.BilledTwiceExactly`, `Hotel.SameMomentBillsTwice`).
- Eviction inside a broadcast never unsubscribes: a tenant whose last socket went that
  way stays subscribed (`Realtime.SubscribedWithoutSockets`).
- Access tokens are good until their own expiry exactly when the session lifetime is
  at least that of an access token plus the leeway (`Sessions.AccessLastsUntilExpiry`).
  The default settings are, but settings that are not pass validation
  (apps/api/app/config.py:49-51).
- A product name without a stock code that a file has twice is created twice, even in
  update mode, unless the branch had it before (`Reimport.RepeatedNameIsCreatedTwice`).
- Importing a file in update mode a second time changes nothing if the file has no
  stock codes, or only rows with them. With both kinds of rows it can create a further
  product or overwrite another one (`Reimport.MixedFileAddsAgain`,
  `Reimport.NamesakeIsOverwritten`); `Reimport.RenamingIsAllThatMatters` and
  `Reimport.ReimportChangesNothing` say exactly when.

## Model

| member | source | states |
|---|---|---|
| Bridge.EveryRun | apps/print-bridge/src/bridge.ts:27-303 | for any number of process lives ending in a stop, an error or a crash at any call, against any server, printer and disk: the history is guarded and honest, and at every moment each job was dispatched at most 1 + (reports about it the API accepted) times |
| Bridge.PrintBridge.Run | apps/print-bridge/src/bridge.ts:27-63 | one life of any number of polls, from load to stop or crash. Without faults it reports the entries left open in the file that was there, once each and in order, then does exactly that many polls' work, one after the other; with a reliable world it has no fault for every missing or readable file. With faults, short of a crash, it still asks about each of those entries in order and makes every poll, and after a failed load it asks for nothing; it extends the history lawfully and leaves only files from which a restart prints safely or not at all |
| Bridge.PrintBridge.Turn | apps/print-bridge/src/bridge.ts:50-52 | one turn of the polling loop: what is open after the last one is reported, then one claim is handled; without faults nothing stays open |
| Bridge.ReportedAsItIs | apps/print-bridge/src/bridge.ts:274-302 | an entry left open is reported as what it is: PRINTED with its result, or FAILED for the operator when only its start was recorded |
| Bridge.PrintedIsReportedAfterRestart | apps/print-bridge/src/journal.ts:113-129 | once `recordPrinted` is on disk, a process that starts from the file reports the job PRINTED under its attempt, with its document's hash and its result |
| Bridge.DispatchingIsReportedAfterRestart | apps/print-bridge/src/journal.ts:99-111 | once only `recordDispatching` is on disk, such a process reports the job FAILED for the operator |
| Bridge.PrintBridge.Poll | apps/print-bridge/src/bridge.ts:65-86 | keeps the bridge good whatever the claim holds, and no error but a crash leaves the method; a claim that came through is processed when well-formed, reported FAILED for operator retry when malformed with a readable id, and left otherwise, by exactly these requests, whatever becomes of them |
| Bridge.PrintBridge.RequestClaim | apps/print-bridge/src/api-client.ts:16-47 | a claim that came through is one hand-out of the job and stands: it is the latest thing the server did about it |
| Bridge.PrintBridge.Process | apps/print-bridge/src/bridge.ts:117-200 | a job with an unacknowledged entry is not printed, and what the entry says is reported; otherwise the job is handled as by `ProcessFresh`; without faults nothing stays open |
| Bridge.PrintBridge.ProcessFresh | apps/print-bridge/src/bridge.ts:131-200 | at most one dispatch, behind a durable entry; without faults exactly dispatch, SENT and PRINTED; and whatever fails short of a crash, the requests made are print, SENT and PRINTED with the transport's result, or FAILED in place of the print when the journal could not be written, after a print that failed, or in place of PRINTED when the result could not be kept |
| Bridge.PrintBridge.FinishPrinted | apps/print-bridge/src/bridge.ts:164-200 | after the transport confirmed, no second dispatch happens; without faults exactly SENT and PRINTED with that result are sent and the entry is settled |
| Bridge.PrintBridge.RecoverClaimedJournalEntry | apps/print-bridge/src/bridge.ts:202-239 | never prints; a claim whose document hash differs from the entry is never reported PRINTED; without faults one report settles the entry |
| Bridge.PrintBridge.AcknowledgeFailure | apps/print-bridge/src/bridge.ts:241-258 | never prints and never reports PRINTED; asks for exactly FAILED for operator retry and, once accepted, settles the entry unless the file system fails |
| Bridge.PrintBridge.RecoverJournal | apps/print-bridge/src/bridge.ts:274-302 | never prints; short of a crash every open entry is asked about once, in order, as what it is, whether or not the others fail; without faults none is left open |
| Bridge.PrintBridge.ReportAndAcknowledge | apps/print-bridge/src/bridge.ts:187-199 | makes exactly this report; an entry is acknowledged only after it was accepted, and is unless the file system fails; errors do not leave the method |
| Bridge.PrintBridge.RecordDispatching | apps/print-bridge/src/bridge.ts:132-144 | once it returns, every file a restart can find suppresses the job, where the rename is durable or power cannot fail |
| Bridge.PrintBridge.Print | apps/print-bridge/src/bridge.ts:146-162 | a dispatch happens only under a standing claim and a durable entry that suppresses the job, and what is returned is what the transport gave for that document |
| Bridge.PrintBridge.Dispatch | apps/print-bridge/src/bridge.ts:131-162 | durable entry, then print: at most one dispatch, of this document, and none if the entry could not be written |
| Bridge.PrintBridge.ReportMalformedClaim | apps/print-bridge/src/api-client.ts:164-192 | reports FAILED for operator retry and prints nothing |
| Bridge.PrintBridge.RecordPrinted | apps/print-bridge/src/bridge.ts:173-184 | keeps the journal safe with the result the transport gave |
| Bridge.PrintBridge.Acknowledge | apps/print-bridge/src/bridge.ts:187-189 | settling an entry whose job has no open dispatch keeps memory and every file safe |
| Bridge.RecoveryStep | apps/print-bridge/src/bridge.ts:274-302 | settling the i-th open entry leaves exactly the later ones open |
| Bridge.AckSettles | apps/print-bridge/src/journal.ts:131-147 | acknowledging a job removes exactly its entry from the unacknowledged ones |
| Bridge.SuppressionSurvives | apps/print-bridge/src/journal.ts:153-176 | after a completed write every file a restart can find suppresses the job if and only if the platform is POSIX, or power cannot fail, or every content still on its way to the disk already did |
| Bridge.WindowsPowerLossPrintsTwice | apps/print-bridge/src/journal.ts:165-175 | the bridge's own calls on Windows with a power loss after a first print: against a server that hands out again only after a manager's retry, the job is printed twice and no report was made |
| PrintProtocol.PrintsBoundedByReports | apps/print-bridge/src/bridge.ts:126-200 | a guarded history has at most one dispatch per accepted report, plus the open one |
| PrintProtocol.PrintsBoundedByRetries | apps/api/alembic/versions/0032_print_bridge_manual_retry.py:1 | against a server that re-issues a reported job only on operator retry: dispatches <= 1 + retries |
| PrintProtocol.RetryBoundIsReached | apps/print-bridge/src/bridge.ts:117-200 | the bound cannot be tightened: lawful histories reach it for every number of retries |
| PrintProtocol.PrintedReportsAreGenuine | apps/print-bridge/src/bridge.ts:146-198 | every PRINTED report in an honest history rests on an earlier confirmation by the transport for the same job and document hash, and that on an earlier dispatch |
| PrintProtocol.GuardedPrefix | apps/print-bridge/src/bridge.ts:117-200 | what is shown of a whole history held at every moment of it |
| PrintServer.PrintJob.ClaimNext | apps/api/app/api/printing.py:1685-1785 | the claim handler: a lapsed lease becomes FAILED for operator retry, and only pending or automatically retryable jobs are handed out, with the next attempt number |
| PrintServer.PrintJob.UpdateFromBridge | apps/api/app/api/printing.py:1788-1928 | the status update, scoped or legacy, to any status: a stored key answers for its attempt and status alone, otherwise only the owner, for the current attempt, along the allowed transitions; a refusal changes nothing |
| PrintServer.RepeatedAcknowledgement | apps/api/app/api/printing.py:1824-1857 | an acknowledgement sent again, after whatever else happened to the job, changes nothing: confirmed while its attempt is the current one, refused ever after |
| PrintServer.KeptForTheManager | apps/api/app/api/printing.py:1685-1785 | a job kept for the manager is not handed out on any run without a retry, whatever is polled and reported; after the retry the next poll hands it out |
| PrintServer.SilenceIsNoticed | apps/api/app/api/printing.py:1685-1713 | after any run, silence about a job out for printing is noticed, and the job kept for the manager, if and only if it did not come to be CLAIMED from FAILED by its owner's update, which leaves it without a lease |
| PrintServer.FailedJobsComeBack | apps/api/app/api/printing.py:1717-1725 | a FAILED job is handed out again, by polls and the manager, if and only if it waits for the manager or was handed out less than five times |
| PrintServer.UpdatesAccepted | apps/api/app/api/printing.py:1824-1886 | whose update is accepted, for which attempt, under which key, and along which transitions |
| PrintServer.SettledForGood | apps/api/app/api/printing.py:1685-1928 | a printed or cancelled job stays as it is on every run and is never handed out again |
| PrintServer.AttemptsAreAccountedFor | apps/api/app/api/printing.py:1622-1928 | on every run, with whatever bridge: a job is handed out at most once, plus once for each manager's retry and for each FAILED report that did not ask for the manager |
| PrintServer.PrintJob.RetryManually | apps/api/app/api/printing.py:495-545 | only a FAILED job that waits for an operator goes back to pending, and is counted |
| PrintServer.RunsAreConsistent | apps/api/app/api/printing.py:1622-1928 | on every run of claims, updates and retries with an honest bridge, the row agrees with the history: a job with an accepted report is handed out again only after one more retry |
| PrintServer.PrintsBoundedByManagerRetries | apps/api/app/api/printing.py:495-545 | server and bridge together: dispatches of a job <= 1 + the manager's retries of it |
| Journal.PrintJournal.Load | apps/print-bridge/src/journal.ts:48-81 | a missing file is an empty journal, a whole one is read as the loader reads it, anything else blocks printing; in a reliable world it succeeds exactly for a missing or readable file |
| Journal.PrintJournal.Persist | apps/print-bridge/src/journal.ts:153-176 | trims, then replaces the file; whatever fails, a restart finds an earlier content or the new one, and after it returned on POSIX only the new one |
| Journal.PrintJournal.WriteSynced | apps/print-bridge/src/journal.ts:157-164 | the visible journal is untouched until the temporary file is complete and synced |
| Journal.PrintJournal.SyncDirectoryEntry | apps/print-bridge/src/journal.ts:166-175 | the rename is made durable or nothing changes |
| Journal.PrintJournal.RecordDispatching | apps/print-bridge/src/journal.ts:99-111 | memory has a fresh unacknowledged DISPATCHING entry in the job's place, also when writing fails |
| Journal.PrintJournal.RecordPrinted | apps/print-bridge/src/journal.ts:113-129 | memory has an unacknowledged PRINTED entry with the result; the time of the same attempt's entry is kept |
| Journal.PrintJournal.MarkAcknowledged | apps/print-bridge/src/journal.ts:131-141 | acknowledged and trimmed in memory and, on success, in every file a restart can find on POSIX; rolled back on failure |
| Journal.RollbackRestores | apps/print-bridge/src/journal.ts:131-141 | the rollback restores the map if and only if it was within its bound |
| Journal.PersistDone | apps/print-bridge/src/journal.ts:153-176 | a completed persist leaves exactly the new journal visible, and on POSIX exactly it durable |
| JournalFile.CrashDuringPersist | apps/print-bridge/src/journal.ts:153-176 | after any number of its calls a crash finds a content from before or the new one, and from before up to the rename |
| JournalFile.PersistReturned | apps/print-bridge/src/journal.ts:165-175 | after it returned only the new journal can be found, if and only if the directory was synced, or power cannot fail, or nothing else was on its way to the disk |
| JournalFile.WindowsPowerLossForgets | apps/print-bridge/src/journal.ts:166-168 | on Windows the old journal can come back |
| JournalCodec.JournalRoundTrip | apps/print-bridge/src/journal.ts:48-66 | what was written is read back as the same map if and only if every entry is storable and no id repeats; otherwise the file is refused |
| JournalCodec.EntryRoundTrip | apps/print-bridge/src/journal.ts:202-248 | one entry is read back as itself or refused, never as another |
| JournalCodec.AttemptZeroBlocksLoading | apps/print-bridge/src/journal.ts:209 | an entry with attempt number 0 makes the loader refuse the file |
| JournalCodec.OldRecordsArePrinted | apps/print-bridge/src/journal.ts:202-248 | a record from before the state field existed reads as a confirmed print |
| JournalCodec.LoadingKeepsEveryRecord | apps/print-bridge/src/journal.ts:55-61 | an accepted file yields one entry per record, in order, with distinct ids |
| JournalCodec.RefusalIsFinal | apps/print-bridge/src/journal.ts:55-61 | a bad or repeated record refuses the file whatever follows |
| JournalCodec.RecordsExactly | apps/print-bridge/src/journal.ts:202-248 | which records are read: an id, a whole attempt number from one up, a printer, 64 lower-case hexadecimal digits, an acknowledgement and a date, with no result when DISPATCHING and a whole one otherwise |
| JournalEntries.TrimKeepsUnacknowledged | apps/print-bridge/src/journal.ts:180-193 | trimming never drops an unacknowledged entry, and keeps their order |
| JournalEntries.TrimSize | apps/print-bridge/src/journal.ts:180-193 | after trimming the map has as many entries as fit, and never fewer than are unacknowledged |
| JournalEntries.TrimDropsOldestAcknowledged | apps/print-bridge/src/journal.ts:180-193 | only acknowledged entries are dropped, and none is newer than a kept one |
| JournalEntries.TrimDistinct | apps/print-bridge/src/journal.ts:180-193 | ids stay distinct |
| JournalEntries.TrimKeepsSuppression | apps/print-bridge/src/journal.ts:94-97 | a job suppresses printing after trimming if and only if it did before |
| JournalSafety.SafeGrows | apps/print-bridge/src/bridge.ts:126-154 | no event but an unsuppressed dispatch can make a safe journal unsafe |
| JournalSafety.WrittenIsSafe | apps/print-bridge/src/journal.ts:48-66 | a bridge restarted from a written safe journal prints by a safe one or not at all |
| Realtime.RunsKeepInv | apps/api/app/realtime.py:54-79 | on every interleaving no empty set is stored, and each tenant with sockets is subscribed, or will be by the last task in line, or its last subscribe call raised |
| Realtime.HasTenantIsExact | apps/api/app/realtime.py:77-79 | looking at keys alone is exact: a tenant has a key if and only if it has a socket |
| Realtime.ConnectedMeansSubscribed | apps/api/app/realtime.py:151-170 | a tenant with a socket and no call in flight is subscribed if and only if its last subscribe call did not raise, and Redis delivers what is subscribed |
| Realtime.ConnectedMeansDelivered | apps/api/app/realtime.py:151-170 | with Redis calls that succeed it is subscribed, and Redis delivers |
| Realtime.CallsDecide | apps/api/app/realtime.py:151-170 | on every interleaving a tenant is marked subscribed if and only if the last Redis call about it was a subscription that went through, and Redis delivers if and only if the last call that went through was one |
| Realtime.DrainSettles | apps/api/app/realtime.py:151-170 | no call is ever stuck: the waiting line always drains, and then all connected tenants are subscribed |
| Realtime.SubscribedWithoutSockets | apps/api/app/realtime.py:81-107 | a tenant with no call in flight is subscribed without a socket if and only if its last socket went by eviction inside a broadcast, no join or leave followed, and its last subscribe call did not raise |
| Realtime.SubscribedMeansConnected | apps/api/app/realtime.py:158-170 | so on runs without evictions a subscribed tenant with no call in flight has a socket |
| Realtime.SubscribedDoesNotMeanConnected | apps/api/app/realtime.py:81-107 | with evictions it need not: a run that leaves a subscription without sockets |
| Realtime.RealtimeHub.Broadcast | apps/api/app/realtime.py:81-107 | the event arrives exactly at the sockets of the branch and the business-wide ones whose authorisation and connection hold; every other one of them is dropped from both keys, and keys left empty go |
| Realtime.RegisteredExactly | apps/api/app/realtime.py:54-107 | on every run a socket is registered under a key if and only if, of the joins, leaves and evictions of that socket there, the last is a join |
| Realtime.EventsArriveExactly | apps/api/app/realtime.py:81-107 | so an event sent after any run arrives at exactly the sockets that joined last under its branch or business-wide and whose authorisation and connection hold |
| Realtime.BroadcastCleansUp | apps/api/app/realtime.py:92-106 | after a broadcast the same event reaches every socket left under its keys and drops nobody |
| Realtime.EvictedIsWithout | apps/api/app/realtime.py:103-106 | evicting the stale list one by one, repetitions included, takes exactly those sockets from exactly those keys |
| Realtime.BroadcastIsItsEvictions | apps/api/app/realtime.py:103-106 | in the interleaving a broadcast is its evictions and nothing else |
| Realtime.RealtimeHub.Connect | apps/api/app/realtime.py:54-62 | adds the socket under its key and leaves every other one registered |
| Realtime.RealtimeHub.Disconnect | apps/api/app/realtime.py:64-75 | drops the socket, and the key with its last one |
| Realtime.RedisRealtimeHub.Connect | apps/api/app/realtime.py:151-156 | is the joining action: no yield between registering and asking for the lock |
| Realtime.RedisRealtimeHub.Disconnect | apps/api/app/realtime.py:158-170 | is the leaving action: no yield between the emptiness check and asking for the lock |
| Realtime.RedisRealtimeHub.EnterLocked | apps/api/app/realtime.py:153-169 | the lock holder up to its Redis call |
| Realtime.RedisRealtimeHub.ResumeLocked | apps/api/app/realtime.py:153-170 | the lock holder after its Redis call |
| Sessions.RedeemedAtMostOnce | apps/api/app/security.py:376-398 | on every run each refresh token is redeemed at most once |
| Sessions.OneGrantPerSession | apps/api/app/api/auth.py:187-228 | on every run at most one grant per session is unrevoked |
| Sessions.ReuseRevokesForGood | apps/api/app/security.py:296-309 | a redeemed token of the current family on a live session is detected and revokes the session for good; one of an older family is refused and changes nothing |
| Sessions.OnlyReuseIsDetected | apps/api/app/security.py:301-309 | reuse is reported if and only if the token was redeemed before, is valid, and its session stands |
| Sessions.SwitchEndsEverything | apps/api/app/security.py:234-270 | after a branch switch no earlier access or refresh token of the session and no grant of an earlier family is in force, now or ever |
| Sessions.SwitchEndsTokens | apps/api/app/security.py:385-386 | the token half, from any state that keeps the invariant |
| Sessions.SwitchEndsGrants | apps/api/app/dependencies.py:104-147 | the grant half |
| Sessions.RefreshKeepsAccess | apps/api/app/security.py:214-231 | a plain refresh keeps every access token in force with the same identity |
| Sessions.AccessLasts | apps/api/app/dependencies.py:104-147 | over any run without a switch, a logout or a reuse of its session, refreshes included, an access token in force stays in force, for the same caller, exactly until it or the session row expires |
| Sessions.AccessLastsUntilExpiry | apps/api/app/security.py:180-187 | access tokens last until their own expiry and leeway on every such run if and only if sessions are set to outlive them, leeway included, or to end at once |
| Sessions.RotationContinues | apps/api/app/security.py:376-423 | a rotation hands out a refresh token that is accepted next, and no other id is |
| Sessions.DeadAndRevokedStay | apps/api/app/security.py:288-299 | a replaced family and a revoked session never come back |
| Sessions.RunKeepsInv | apps/api/app/security.py:153-423 | every identifier in use was drawn, current ids are unredeemed and unique, grants are unrevoked one at a time |
| SessionEffects.SwitchLasts | apps/api/app/security.py:234-270 | from an accepted switch until the session's next one, whatever else is requested, every token issued for the session carries the chosen branch, and an accepted token is refreshed if and only if that branch is still accessible |
| SessionEffects.SwitchBegins | apps/api/app/security.py:234-270 | a switch by an accepted token goes through if and only if the account belongs to a business and may act in the chosen branch; then it hands out one pair of tokens for that branch, of which the access token resolves to it and the refresh token is accepted next; otherwise nothing changes |
| SessionEffects.RefreshKeepsBranch | apps/api/app/security.py:214-231 | a plain refresh keeps the token's branch, or else takes the account's home or its fallback, and goes through if and only if the account may still act there |
| SessionEffects.LoginBegins | apps/api/app/security.py:153-211 | a login hands out exactly two new tokens of a new session with their lifetimes; the access token resolves to the user and branch, and the refresh token is accepted, if and only if the account may act and sessions last at all |
| SessionEffects.AcceptedExactly | apps/api/app/security.py:273-344 | on every run a refresh token is accepted if and only if it is valid, was never redeemed, is of its standing session's current family, and its account may act |
| SessionEffects.ResolvedExactly | apps/api/app/dependencies.py:74-147 | an access token resolves if and only if it is valid, its session stands and its account may act in its branch or at home; the caller has that user, branch and permissions, and a manager the grant that serves, if there is one |
| SessionEffects.LogoutEnds | apps/api/app/api/auth.py:894-929 | a logout ends the session of the refresh token, or else of the bearer token, for good: on no later run does a token of it resolve or refresh; no other session changes |
| SessionEffects.EnteringGrants | apps/api/app/api/auth.py:169-358 | entering a panel puts a grant for that panel and branch in force, for as long as the session lasts or, with a password, for ten minutes |
| SessionEffects.LeavingEndsGrants | apps/api/app/api/auth.py:381-398 | leaving takes every grant of the session out of force |
| Sessions.AuthStore.IssueTokenPair | apps/api/app/security.py:153-211 | a new session with its own family and one token pair |
| Sessions.AuthStore.LoadRefreshSession | apps/api/app/security.py:273-344 | the verdict on a refresh token; only detected reuse leaves a trace |
| Sessions.AuthStore.RotateSessionTokens | apps/api/app/security.py:376-423 | new refresh id and expiry, new family on a switch only |
| Sessions.AuthStore.RotateRefreshToken | apps/api/app/security.py:214-231 | is the refresh step |
| Sessions.AuthStore.SwitchRefreshTokenBranch | apps/api/app/security.py:234-270 | is the switch step, of which `SessionEffects.SwitchBegins` and `SessionEffects.SwitchLasts` say what begins and `Sessions.SwitchEndsEverything` what ends |
| Sessions.AuthStore.RevokeAll | apps/api/app/api/auth.py:380-398 | revokes exactly the session's grants |
| Sessions.AuthStore.SelectPanel | apps/api/app/api/auth.py:169-252 | a staff session with the panel's permissions enters it without a password, replacing its grant |
| Sessions.AuthStore.AuthorizePanel | apps/api/app/api/auth.py:255-358 | valid credentials of a user with the panel's permissions, under the rate limit, enter it for ten minutes, replacing the grant |
| Sessions.AuthStore.LeavePanel | apps/api/app/api/auth.py:381-398 | is the leaving step |
| Sessions.AuthStore.FindLogoutSession | apps/api/app/api/auth.py:1015-1051 | the first usable credential decides, the refresh token before the bearer token |
| Sessions.AuthStore.LogOut | apps/api/app/api/auth.py:894-929 | revokes the session found, and no other |
| RateLimit.WindowBound | apps/api/app/api/auth.py:406-431 | over the whole run no interval as long as the window holds more failures of one key than the limit |
| RateLimit.RefusedExactly | apps/api/app/api/auth.py:406-431 | after every run an attempt is refused if and only if at least as many attempts on its key as the limit had wrong credentials, were looked at, and were stored inside the window before it; right credentials never count |
| RateLimit.LockoutEnds | apps/api/app/api/auth.py:406-431 | whatever is tried on a key before its lockout ends, and on other keys at any time, the lockout ends at the same moment |
| RateLimit.LockoutHasAnEnd | apps/api/app/api/auth.py:406-431 | a limited key is let in again from some moment on, at the latest when its last recorded failure has left the window |
| RateLimit.LoginGuard.Login | apps/api/app/api/auth.py:618-711 | counts before it looks at the credentials, and stores a row for a wrong one only; `RateLimit.RefusedExactly` says whom that refuses |
| Ipp.ParseCupsJobState | apps/print-bridge/src/cups-job.ts:34-68 | the loop over the buffer computes the reader's function, in bounds on every input |
| Ipp.ReadTurn | apps/print-bridge/src/cups-job.ts:46-65 | one turn of the loop |
| Ipp.ParseReadsTheGrammar | apps/print-bridge/src/cups-job.ts:34-68 | on every well-formed successful response of at most 65536 bytes: the first four-byte enum among the values of job-state, additional values included, if it is 3..9, and an error otherwise |
| Ipp.ShortestResponse | apps/print-bridge/src/cups-job.ts:34-68 | byte by byte, the shortest response there is |
| Ipp.ParseIsGrounded | apps/print-bridge/src/cups-job.ts:60-64 | on every byte string a reported state is 3..9 and spelt out in the bytes as a four-byte value |
| Ipp.TruncationNeverInvents | apps/print-bridge/src/cups-job.ts:50-59 | a cut-off response never yields a state that the whole one would not |
| Ipp.ScanAttribute | apps/print-bridge/src/cups-job.ts:6-14 | an encoded attribute with any number of values is read as its first enum, or passed over with its name remembered |
| TextWrap.Wrap | apps/print-bridge/src/receipt-text.ts:276-299 | the two nested loops compute the wrapping function |
| TextWrap.WrapIsTidy | apps/print-bridge/src/receipt-text.ts:276-299 | every line fits and starts with print, every break was forced, and all non-space characters come through in order |
| TextWrap.FixedPoints | apps/print-bridge/src/receipt-text.ts:276-299 | a line is left alone if and only if it fits and does not start with a space |
| TextWrap.WrapIsIdempotent | apps/print-bridge/src/receipt-text.ts:276-299 | wrapping a wrapped line again changes nothing |
| TextWrap.WrapJoinsBack | apps/print-bridge/src/receipt-text.ts:276-299 | single-spaced text whose words fit is its lines joined by spaces |
| TextWrap.CenterIsCentred | apps/print-bridge/src/receipt-text.ts:301-305 | lines keep their breaks and print, with margins that differ by at most one |
| TextWrap.TwoColumns | apps/print-bridge/src/receipt-text.ts:314-319 | exactly the width, the right text in full unless it alone fills the line, the left one when both fit |
| TextWrap.TwoColumnsKeepInk | apps/print-bridge/src/receipt-text.ts:314-319 | two texts that fit are both printed in full |
| TextWrap.MetaFits | apps/print-bridge/src/receipt-text.ts:307-312 | a labelled value fits if and only if its heading does |
| TextWrap.MetaKeepsInk | apps/print-bridge/src/receipt-text.ts:307-312 | label and value are printed in full |
| TextWrap.ColumnsKeepInk | apps/print-bridge/src/receipt-text.ts:255-262 | a row whose cells fit prints all of them in order |
| Receipt.ReceiptFits | apps/print-bridge/src/receipt-text.ts:6-132 | on eleven columns or more no row is too wide if and only if the staff heading and the valued footer labels fit |
| Receipt.TableRowsAreExact | apps/print-bridge/src/receipt-text.ts:178-194 | every row of the wide table is exactly as wide as the paper |
| Receipt.TableFits | apps/print-bridge/src/receipt-text.ts:154-253 | both table layouts stay on the paper |
| Receipt.FooterLineRowsFit | apps/print-bridge/src/receipt-text.ts:264-274 | a footer line fits if and only if it has no value or its upper-cased label fits |
| Receipt.PreparationLine | apps/print-bridge/src/receipt-text.ts:134-152 | the loops compute the rows of a preparation line |
| Receipt.PricedTable | apps/print-bridge/src/receipt-text.ts:154-217 | the loops compute the wide table, or the compact one below six name columns |
| Receipt.CompactPricedTable | apps/print-bridge/src/receipt-text.ts:219-253 | the loop computes the compact table |
| Receipt.RenderReceipt | apps/print-bridge/src/receipt-text.ts:6-132 | head, fields, body, totals, footer, in this order and under these conditions |
| ReceiptText.ReceiptSaysEverything | apps/print-bridge/src/receipt-text.ts:5-132 | the receipt prints the text read off the document's own fields, each heading, field, line and total with its value, in order and with nothing added, if and only if no quantity crowds out its dish, no quantity of the wide table goes on past five characters, and no total crowds out its label |
| ReceiptText.LinesHaveRows | apps/print-bridge/src/receipt-text.ts:160-213 | in the wide table the first row of a line ends in what is paid for it (its total, else its unit price, else nothing, or that it is on the house), after the first words of its name, an uncut quantity and, on courier slips, the unit price |
| ReceiptText.TotalsHaveRows | apps/print-bridge/src/receipt-text.ts:84-123 | every total that is shown has its row, under its label, ending in its whole amount if and only if that is not wider than the paper |
| ReceiptText.NameColumnsAre | apps/print-bridge/src/receipt-text.ts:168-181 | the name column is what the longest quantity (up to five), total and unit price of the document's lines leave |
| ReceiptText.FooterLineSays | apps/print-bridge/src/receipt-text.ts:264-274 | a footer line is split at its first colon into an upper-cased label and a value; without a colon or a value it is printed as it stands |
| ReceiptPrint.ReceiptPrintsEverything | apps/print-bridge/src/receipt-text.ts:5-132 | the same over the rows' own fields: everything is printed, in order and with nothing added, under exactly that condition |
| ReceiptPrint.ShortTextsArePrinted | apps/print-bridge/src/receipt-text.ts:5-132 | quantities of five characters and labels that leave the amounts room are enough, on fifteen columns or more |
| ReceiptPrint.PreparationPrints | apps/print-bridge/src/receipt-text.ts:134-152 | a preparation ticket prints all of every line, banner to note, if and only if each quantity leaves room for the first row of its name |
| ReceiptPrint.CompactTablePrints | apps/print-bridge/src/receipt-text.ts:219-253 | the compact table likewise; its amounts are always printed |
| ReceiptPrint.WideTablePrints | apps/print-bridge/src/receipt-text.ts:195-217 | the wide table prints all of every item if and only if what a quantity has past five characters is blank |
| ReceiptPrint.LongQuantityIsCut | apps/print-bridge/src/receipt-text.ts:168-171 | with a longer quantity it never does |
| ReceiptPrint.WideCells | apps/print-bridge/src/receipt-text.ts:168-176 | a quantity is uncut if and only if it has at most five characters; amounts never are cut |
| ReceiptPrint.WideNamePrints | apps/print-bridge/src/receipt-text.ts:203-213 | the rows of an item print its name, quantity, unit price and total, in order |
| ReceiptPrint.NameRowsPrint | apps/print-bridge/src/receipt-text.ts:134-140 | name and quantity side by side, exactly as far as the first row has room |
| ReceiptPrint.TwoColumnsPrint | apps/print-bridge/src/receipt-text.ts:314-319 | two texts side by side are both printed if and only if what the row leaves out is blank |
| ReceiptPrint.CompactAmountsPrintAll | apps/print-bridge/src/receipt-text.ts:240-246 | the compact layout prints both amounts in full |
| ReceiptPrint.FramesArePrinted | apps/print-bridge/src/receipt-text.ts:196-217 | banner, modifiers and note of a line are printed in full around its rows |
| ReceiptPrint.FieldsArePrinted | apps/print-bridge/src/receipt-text.ts:42-76 | every shown field is printed in full, label and value, in order |
| ReceiptPrint.HeadingsArePrinted | apps/print-bridge/src/receipt-text.ts:27-39 | every heading is printed in full, in order |
| ReceiptPrint.AmountLinesPrint | apps/print-bridge/src/receipt-text.ts:84-123 | the totals are printed in full, in order, if and only if no amount crowds out its label |
| ReceiptPrint.FooterLineIsPrinted | apps/print-bridge/src/receipt-text.ts:264-274 | a footer line loses nothing but the colon of a labelled value |
| ReceiptPrint.GrandTotalIsPrinted | apps/print-bridge/src/receipt-text.ts:115-117 | a receipt with totals has the row of the grand total, and it ends with the whole amount if and only if the amount is not wider than the paper |
| Normalize.NormalizeIsIdempotent | apps/print-bridge/src/protocol.ts:262-434 | every accepted document normalises to one that is accepted and left as it is |
| Normalize.SpellingDoesNotMatter | apps/print-bridge/src/protocol.ts:43-49 | a sound document written with any mixture of spellings normalises to itself |
| Normalize.NormalFormsAreTheSoundDocuments | apps/print-bridge/src/protocol.ts:355-433 | normalisation produces exactly the documents with their required texts present |
| Normalize.AcceptedExactly | apps/print-bridge/src/protocol.ts:262-434 | a document is accepted if and only if its required texts are there and not empty, its optional ones are texts, its kind is one of four, and its lines and totals are likewise sound |
| Normalize.DroppedExactly | apps/print-bridge/src/protocol.ts:262-434 | what is dropped without complaint: totals that are not an object, a footer that is not all texts, a receipt number or business date of another type; only a literal true puts a line on the house |
| Normalize.FirstSpellingWins | apps/print-bridge/src/protocol.ts:351-352 | where the preferred spelling is present the other is ignored: camel case for receipt number and business date, snake case elsewhere |
| Normalize.NullFallsBack | apps/print-bridge/src/protocol.ts:351-433 | a null under the spelling that is read first counts as absent: the document is read as if the other spelling's value stood there |
| Normalize.NullIsAbsent | apps/print-bridge/src/protocol.ts:351-433 | a null under both spellings is as good as neither |
| Media.InspectArchive | ops/media_snapshot.py:23-45 | accepts exactly the well-formed archives, and returns their manifest |
| Media.AcceptedIsABijection | ops/media_snapshot.py:28-44 | an accepted archive has distinct members, exactly the manifest and objects 0..n-1, in bijection with distinct keys |
| Media.ManifestPinsContents | ops/media_snapshot.py:36-40 | two accepted archives with one manifest hold the same bytes |
| Media.Backup | ops/media_snapshot.py:65-109 | succeeds if and only if no response is truncated and no key is listed twice; the archive is accepted and holds each answer under its record |
| Media.Restore | ops/media_snapshot.py:112-143 | refuses a bad archive, the live bucket and an existing bucket, touching nothing; success means the new bucket has the manifest's keys, each read back as recorded; no other bucket changes |
| Media.RestoreObject | ops/media_snapshot.py:126-141 | success means the stored object has the recorded digest, content type and metadata |
| Media.BackUpThenRestore | ops/media_snapshot.py:65-143 | backup then restore gives back the same key, bytes, content type and metadata map |
| Media.MetadataIsPrefixed | ops/media_snapshot.py:94-98 | user metadata is what stands under the x-amz-meta- prefix, in upper or lower case |
| Hotel.BilledAtMostOnce | apps/api/app/api/hotel_rooms.py:311-379 | on every run of requests at different moments, refunds and renumbering included, what one bill charges was paid before anything the next one charges |
| Hotel.BillsAreConserved | apps/api/app/api/hotel_rooms.py:311-379 | without renumbering and without later refunds the bills sum to exactly the room's charges paid during ended stays; before check-out payments may be voided, refunded or completed |
| Hotel.StatusChangeBalances | apps/api/app/api/hotel_rooms.py:62-135 | the condition is exact: a status change upsets that sum if and only if it makes or unmakes a charge of an ended stay, of an amount that is not nothing |
| Hotel.RoomFolio | apps/api/app/api/hotel_rooms.py:62-135 | the sum order by order is that of all matching payments at once |
| Hotel.EveryPaymentStands | apps/api/app/api/hotel_rooms.py:62-135 | on every run each payment is and stays on its order, with its kind, reference, moment and amount, whatever its status becomes |
| Hotel.BillsChargeExactly | apps/api/app/api/hotel_rooms.py:62-135 | a bill charges exactly the completed room charges since check-in whose reference has the room's number for one of its words |
| Hotel.HotelRoom.CheckIn | apps/api/app/api/hotel_rooms.py:249-287 | an active, vacant room at the expected version takes the stripped name and the moment |
| Hotel.HotelRoom.CheckOut | apps/api/app/api/hotel_rooms.py:311-379 | succeeds if and only if occupied by a named guest at the expected version; charges the folio and clears the room |
| Hotel.BlankGuestTakesTheRoomForGood | apps/api/app/api/hotel_rooms.py:321-326 | a guest can be checked out if and only if the name is not all white space; otherwise the room stays taken on every run |
| Hotel.FolioReferenceReachesTheRoom | apps/api/app/api/hotel_rooms.py:82-115 | the advertised reference is charged to the room if and only if its number is one word |
| Hotel.UnreachableRoomIsNeverCharged | apps/api/app/api/hotel_rooms.py:108-115 | a room whose number is not one word is charged for no payment at all |
| Hotel.OnBothBillsAtOneMoment | apps/api/app/api/hotel_rooms.py:94 | on every run, however many requests fall in one moment, only a payment made at the very moment when one stay ended and the other began can be on both bills |
| Hotel.BilledTwiceExactly | apps/api/app/api/hotel_rooms.py:94 | without renumbering and later refunds a charge of one bill is on a later one if and only if it is such a payment |
| Hotel.SameMomentBillsTwice | apps/api/app/api/hotel_rooms.py:94 | five requests at one moment that charge one payment to two guests |
| Kitchen.OrderTickets.UpdateTicketStatus | apps/api/app/api/kitchen.py:189-320 | the handler is the update step; refusals and repetitions change nothing |
| Kitchen.OrderTickets.FollowKitchen | apps/api/app/api/kitchen.py:276-306 | order and table follow the set of ticket statuses |
| Kitchen.ReadyMeansEveryTicketIsDone | apps/api/app/api/kitchen.py:287-292 | on every run the order is READY if and only if every ticket is READY or COMPLETED, PARTIALLY_READY if and only if only some are, and PREPARING while none is and some are in preparation |
| Kitchen.NeverMovesBack | apps/api/app/api/kitchen.py:287-298 | the order's status never moves back |
| Kitchen.AtMostFourUpdatesPerTicket | apps/api/app/api/kitchen.py:43-56 | at most four updates per ticket take effect, and the version counts them |
| Kitchen.ItemsAlwaysFollow | apps/api/app/api/kitchen.py:219-258 | no dish is lost and every dish stands where its ticket does |
| Kitchen.TableFollowsOrder | apps/api/app/api/kitchen.py:287-306 | from the first effective update on the table is READY if the order is and PREPARING otherwise, and its version counts the updates |
| Kitchen.CheckoutStands | apps/api/app/api/kitchen.py:272-285 | once checkout has begun no ticket update touches order, table or versions |
| Kitchen.EveryOrderCanBecomeReady | apps/api/app/api/kitchen.py:189-306 | every order sent to the kitchen can be made ready by ticket updates, its table with it |
| Kitchen.ServedMovesBack | apps/api/app/api/kitchen.py:276-298 | an update takes a SERVED order back if and only if it takes effect and either moves its ticket to PREPARING, READY or COMPLETED or another ticket is there already |
| Catalog.ValidateRows | apps/api/app/api/catalog.py:516-585 | a row is kept if and only if its category and station match once and its stock code is free and new in the file; the errors are exactly those of the others, by row, field and kind, in order |
| Catalog.ErrorsExactly | apps/api/app/api/catalog.py:516-585 | a row has an error exactly where its category or named station matches nothing or more than one, or its stock code is in use or stands in an earlier row |
| Catalog.ProductCatalog.ApplyRows | apps/api/app/api/catalog.py:597-676 | each valid row makes one update or one creation |
| Catalog.ProductCatalog.Import | apps/api/app/api/catalog.py:399-696 | a dry run changes nothing and counts as valid what a real one imports; the status and counts |
| Catalog.ImportKeepsSkusDistinct | apps/api/app/api/catalog.py:561-581 | in both modes stock codes distinct up to case stay so |
| Catalog.WhatAnImportDoes | apps/api/app/api/catalog.py:599-676 | untargeted products are untouched, targeted ones have their last row's values and keep code and extras, other rows append one product each |
| Catalog.LastRowGivesItsValues | apps/api/app/api/catalog.py:599-637 | the last row about a product gives it its name, category, station and details, and leaves its stock code and extras |
| Catalog.OtherRowsMakeProducts | apps/api/app/api/catalog.py:638-676 | a row about no product makes one with its values and stock code, without extras |
| Catalog.TargetIs | apps/api/app/api/catalog.py:599-637 | a row with a stock code is about the last product that has it, whatever the names; one without about the last of its name; none without the update mode |
| Reimport.ReimportChangesNothing | apps/api/app/api/catalog.py:599-637 | updating twice from a file is the same as once if and only if every name that the file uses without a stock code finds its way again |
| Reimport.ReimportOfAFile | apps/api/app/api/catalog.py:399-696 | the same for whole files, validation included |
| Reimport.RenamingIsAllThatMatters | apps/api/app/api/catalog.py:599-637 | where no coded row carries an uncoded row's name and the branch's names differ: if and only if no uncoded row names a product that a later coded row of the file renames |
| Reimport.UncodedFilesSettle | apps/api/app/api/catalog.py:496-500 | updating twice from a file without stock codes is the same as once |
| Reimport.CodedFilesSettle | apps/api/app/api/catalog.py:599-637 | and so it is from a file whose rows all carry codes |
| Reimport.MixedFileAddsAgain | apps/api/app/api/catalog.py:599-637 | a file with both kinds of rows whose second import creates a further product |
| Reimport.NamesakeIsOverwritten | apps/api/app/api/catalog.py:599-637 | another, in which nothing is renamed, whose second import overwrites another product |
| Reimport.RepeatedNameIsCreatedTwice | apps/api/app/api/catalog.py:599-676 | two uncoded rows of one name share a product if and only if the branch had one of that name before; otherwise the import creates two |

## Left out

- Bridge.EveryRun: assumes POSIX or no power loss; that Windows with power loss breaks it is `Bridge.WindowsPowerLossPrintsTwice`.
- Media.BackUpThenRestore: exact for a store that writes what it is given; for any other a restore that reports success has every key, byte and content type, and loses no metadata, but may carry metadata that was not recorded.
- Hotel.BillsAreConserved: one room (a reference with two rooms' numbers in it is charged to both), and no two requests at one moment, where it fails exactly for the payments of `Hotel.BilledTwiceExactly`.
- Realtime.RealtimeHub.Broadcast: one undisturbed call; what other callers do between its sends is in the interleaving, where each eviction is an action of its own.
- Reimport.RenamingIsAllThatMatters: its two assumptions are needed (`Reimport.NamesakeIsOverwritten`); the condition for every file is that of `Reimport.ReimportChangesNothing`, which reads the catalogue after the first import.
- PrintServer.PrintJob.ClaimNext: one job and one bridge; printer mappings, the repair of unrouted jobs and the order among jobs are not part of this model.
- Sessions.SwitchEndsEverything: of the grants, speaks of their token family; the permissions that a grant confers are not part of this model.
- Kitchen.NeverMovesBack: starts from an order SUBMITTED, AWAITING_APPROVAL or ACCEPTED; a DRAFT order does not follow its tickets at all, and with other writers it can move back (`Kitchen.ServedMovesBack`).
- HTTP, fetch, the print spoolers, S3, tar and SQL are calls that succeed or fail; JSON text, JWT signatures and the spelling of JSON keys in `Normalize` are not part of this model. An array where the journal loader expects the transport's name is refused here, while the source reads a one-element array as its element.
- IPP attribute names are compared as bytes, where the source compares their UTF-8 decoding; the two agree on `job-state`.
- SHA-256 is a parameter, assumed injective only in `Media`; the stored hash of a refresh id stands for the id; UUIDs are fresh by construction.
- Locale operations (Turkish upper-casing, amounts, dates, collation), date parsing, case folding, Unicode normalisation and number parsing are function parameters; Python's lower-casing is taken character by character.
- Single ownership of the journal (apps/print-bridge/src/runtime-lock.ts:13) is assumed: one process life at a time.
- Heartbeats, logging, the health server, `BridgeState` counters and waiting: they touch neither journal nor printer.
- Unlocked reads: concurrent kitchen updates and concurrent login attempts are handled one after the other.
- The inactive-account and tenant-mismatch branches of the refresh check leave no trace here, as no commit follows them.
- Starting and stopping the Redis hub, its read loop and publishing; password changes, PIN login and trusted devices; how a branch is chosen at login.
- `createLegacyDocument`, `parseClaimedJobs` around the document, and the idempotency keys' text; the keys' meaning is in `PrintServer`.
- Tar links, streaming and temporary files in the media backup; types of manifest fields.
- Folio previews, room creation and listing; kitchen ticket listing; parsing of import files.
- Orders, payments, shifts, loyalty, inventory, dashboards, web and mobile clients, migrations: not part of this model.
