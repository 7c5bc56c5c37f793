# What an IMAP mirror keeps

imapsync-go copies mail folders from one IMAP account to another (or into a
local store), records every message in a state database, and can delete or
deduplicate on the destination. Losing a message, copying it twice, deleting
one the source still holds, or hanging half way are the ways such a program
goes wrong. This project models the parts where that is decided and proves what
they keep, for every interleaving, every crash point and every input.

* **Connection pool** (`PoolGovernor`, `PoolProtocol`, `PoolTheorems`,
  `PoolHistory`). The
  `Pool` class holds the source's counters; each method is one critical
  section. The protocol is a step machine over any number of callers and one
  closer, in which every critical section and every channel send or receive is
  one atomic step.
* **Copy protocol over whole run histories** (`StateStore`, `Identity`,
  `CopyProtocol`, `CopyLedger`, `WithinRun`, `DoneRows`, `ExactlyOnce`,
  `FastPath`, `SkipVote`, `CopyWitnesses`, `Readoption`, `UnnamedCopies`,
  `UnnamedWitness`). One database statement, one APPEND, one search is one step; APPEND may be stored, refused or of unknown outcome; a crash, a
  renumbering of either side or a change made by somebody else may fall between
  any two steps, and what the deletion and deduplication passes do to the
  destination and the rows are steps of the same histories.
* **One folder's copying** (`ChunkCopy`, `CopyPipeline`, `Deadlock`). The
  accounting of the retry loops, and the resources (leases, folder slots, byte
  budget) that folders, fetchers and appenders compete for.
* **Destructive passes** (`Mailboxes`, `Deletion`, `DeletionSafety`, `Dedup`,
  `DestDedupe`). Deletion of what the source no longer holds, and removal of
  byte-identical repeats.
* **SEARCH** (`SearchLexer`, `SearchCriteria`, `SearchEvaluator`,
  `SearchMeaning`, `SearchGrammar`, `SearchRoundTrip`, `SearchCase`,
  `SearchWords`, `SearchParser`). Lexer,
  parser, flattened criteria and evaluator, related to the meaning of
  section 6.4.4 of RFC 3501.
* **Local store and folder plan** (`LocalNames`, `LocalFolder`, `FolderPlan`).

`Wrappers` and `Text` hold the shared option type and string functions.
Methods carry the loops and field updates of the source and are proved equal to
specification functions or predicates; the lemmas then say what those mean.

## Where the code and its comments part

* `Width` is said never to rise again (internal/pool/pool.go:198-199); `grow`
  raises it. The model follows `grow`.
* The trim made on a refusal closes nothing, in every state
  (`PoolGovernor.TrimClosesNothing`).
* A SELECT that fails on a freshly dialled connection closes it without taking
  it off the open count. `PoolTheorems.OpenCountIsExact` counts those failures
  and `PoolTheorems.OpenCountCanDrift` is a run that has one.
* On its last attempt, and on a Skip, `deliver` records the message as failed
  without asking the destination whether it landed.
  `CopyWitnesses.GiveUpDuplicates` is a two-run history that copies a message
  twice; `CopyWitnesses.GivingUpIsSafeIffNotThere` says exactly when it can
  happen, in first syncs as in later ones: when asking would have found the copy
  and the source still holds the message.
* `verifyClaims` drops rows and leaves the watermark standing, so what it has
  dropped is skipped from then on unless it is recorded again: after a crash
  straight after it (`CopyWitnesses.DroppedClaimIsSkipped`), and, with no crash,
  when the message then fails to be copied (`CopyWitnesses.FailedRepairIsSkipped`).
  `FastPath.NextSkipIsRightIffReportCovered` says exactly when the next skip is
  right from what the run reports as failed or filtered, and
  `FastPath.StillEarnedIffRepeatsSurvive` from what the check itself saw.
* A destination mailbox made anew has no claims under its new number, so its
  vote in the fast path is void (`FastPath.VoteIsVoidUnderOtherNumbers`) and it
  stays empty for as long as the source does not move
  (`CopyWitnesses.RemadeDestinationIsSkipped`).
* `FenceUIDValidity` promises that the rows it discards are rebuilt by digest,
  re-adopting what is there already (internal/state/state.go:268-270). Only the
  run that did the discarding looks for it. If that run is killed after its
  fence, the next one finds empty rows, the new numbers on record and a folder
  synced before, and copies everything again:
  `Readoption.KilledFenceCopiesAgain` is such a history and
  `Readoption.KilledAfterFenceIsSafeIff` says exactly when it is harmless.
  `Readoption.RestIsSafeIffRecorded` says what any stopped run of a folder
  synced before must have recorded by then.
* `stillClaimed` keeps one nomination per destination message, so of several
  dead rows naming it only one is forgotten
  (`DeletionSafety.SharedRowIsLeft`, exactly when in
  `DeletionSafety.AllForgottenIffNoneShared`).
* `sourceIdents` sees recorded done rows only: with nothing recorded, every
  strong unclaimed message of the destination is nominated
  (`DeletionSafety.UnrecordedProtectsNothing`).
* A search that fails is said to cost a re-copy rather than a lost message
  (internal/syncer/syncer.go:3258-3260). After an APPEND that named no UID it
  costs the message: the row is recorded done without a name, a repeat of the
  message can be given its copy, and when the repeat goes deletion takes the copy
  of a message that is still held. `UnnamedWitness.UnnamedCopyIsDeleted` is such a
  history, and `UnnamedWitness.LostForGood` says that no later run copies the
  message again. `DoneRows.ExpungeIsSafeIffUnnamedKept` and
  `UnnamedCopies.DeletionIsSafeIffNoneOrphaned` say exactly when a deletion pass
  is safe, before it begins, and `UnnamedCopies.NamedRowsNeverLie` that it always
  is where every copy was named.
* A date bound that comes out as the zero time reads as no bound
  (`SearchMeaning.DateMeansSameIff` says for which dates that changes the
  meaning), and `and` would lose a negative SMALLER bound, which the parser
  never produces (`SearchCriteria.AndNeedsNoNegativeBound`).

## Assumptions

* Each mutex section, channel operation, SQL statement or transaction is atomic
  and a commit is durable.
* SHA-256 is taken as injective where two bodies are compared, and headers are
  compared by the digest alone.
* `Identity.FrameInjective` is about header values that hold neither framing
  byte, as RFC 5322 requires of them. That is up to the header reader, which is
  not part of this model; the normalisation of a value collapses white space
  only.
* `DoneRows` and `FastPath.SkippedIsThere` assume that equal identities mean
  equal bodies, that nobody else deletes from the destination, that a
  renumbering of the destination keeps its messages, and that when a deletion
  pass begins, of each listed message whose row names no copy some copy is not
  nominated. `UnnamedCopies.NamedRowsNeverLie` does without the last where every
  copy recorded was named; `FastPath.SkippedNothing` and `CopyLedger` need none of
  these.
* `UnnamedCopies.DeletionIsSafeIffNoneOrphaned` assumes that digests are not
  empty and that a copy has the digest of its message, which the stamp does not
  change.
* `ExactlyOnce` assumes that source messages are distinct and strongly
  identified, that searches are exact, that nobody else deletes from the
  destination or puts source mail there, that neither side is renumbered, and
  that no APPEND that was stored is given up on while the source holds its
  message. All of these are predicates on the events of a run, not on its shape.
* A mailbox that is renumbered gets a higher number than it had before (section
  2.3.1.1 of RFC 3501), and a session sees one numbering.
* `SearchCase.ReadingIgnoresCase` takes it that the reader of dates accepts the
  names of months in either case, and `SearchCase.SearchMeansTheSameInAnyCase`
  that text is looked for in any case, as section 6.4.4 of RFC 3501 has it.

## Model

| member | source | states |
|---|---|---|
| PoolTheorems.TokenConservation | internal/pool/pool.go:108-117 | in every reachable state, free tokens plus tokens held by callers plus tokens already collected by Close equal width + debt, with width at least 1 and width + debt at most Cap |
| PoolTheorems.NoSendBlocks | internal/pool/pool.go:599-617 | a caller about to give its token back, or growing the pool under the mutex, never finds the token channel full |
| PoolTheorems.ConnectionCeiling | internal/pool/pool.go:271-311 | idle, dialling, leased and closing connections together never exceed Cap although dialling happens outside the lock, and idle never exceeds width |
| PoolTheorems.Exclusive | internal/pool/pool.go:408-442 | a connection somebody holds is in nobody else's hands, not idle, and not closed |
| PoolTheorems.OpenCountIsExact | internal/pool/pool.go:334-384 | the open count is idle plus counted connections in hand plus those Close has parked plus the failed SELECTs on fresh connections, and never negative |
| PoolTheorems.OpenCountCanDrift | internal/pool/pool.go:352-367 | a concrete run after which the pool counts one open connection while every connection ever dialled has been closed |
| PoolTheorems.EmptyHandedBalance | internal/pool/pool.go:290-309 | without such failures, tokens held by callers without a connection plus free tokens equal idle plus debt plus the room left for dialling |
| PoolTheorems.TokenFindsIdle | internal/pool/pool.go:304-309 | when open equals width and no debt is owed, whoever holds a token at the take finds an idle connection, so going round again does not dial |
| PoolTheorems.RefusedDialPaysDebt | internal/pool/pool.go:296-303 | in a pool as full as its width with nothing idle, callers without a connection are no more than the debt, and the one that comes back refused pays one unit of it instead of freeing its token |
| PoolTheorems.DialsAreBoundedByDebt | internal/pool/pool.go:290-309 | over any run in which the pool stays as full as its width, the dials begun are at most the debt no dial under way is going to pay plus the dials that brought a connection; with none of those, at most the debt |
| PoolTheorems.ReachableDialsAreBounded | internal/pool/pool.go:290-309 | the same from every state a pool can get into, with any number of callers and other steps in between |
| PoolTheorems.WaitedOutOnlyForSomething | internal/pool/pool.go:324-328 | with no SELECT failed on a fresh connection so far, a refusal is waited out only while a connection is counted open, and then one is idle, in a caller's hands or on its way to being closed |
| PoolTheorems.RefusalNarrowsToOpen | internal/pool/pool.go:460-513 | after a capacity refusal the width is at most what is open (or nothing is open), with nothing to close |
| PoolTheorems.BurstNarrowsOnce | internal/pool/pool.go:460-513 | once a refusal has been believed, no run in which connections are not lost makes the pool narrower than it did, whatever refusals, growth and other steps are interleaved |
| PoolTheorems.CloseCountsWhatCirculates | internal/pool/pool.go:650-680 | the width + debt that Close read stays equal to the tokens free, held and collected, whatever callers do meanwhile |
| PoolTheorems.CloseIsComplete | internal/pool/pool.go:650-680 | when Close returns nobody holds a token, nothing is idle, every connection ever dialled has been closed exactly once, and a waiting Acquire can see only the closed signal |
| PoolTheorems.ClosedForGood | internal/pool/pool.go:271-283 | after Close nothing is ever dialled or closed again, in any continuation |
| PoolTheorems.CloseTerminates | internal/pool/pool.go:650-680 | after the pool is marked closed, every run without new callers has a bounded number of steps |
| PoolTheorems.CloseAlwaysProgresses | internal/pool/pool.go:650-680 | until Close is finished some step is enabled that is no new caller, and it is Close's own once all callers have left |
| PoolHistory.DiscardedIsNeverReused | internal/pool/pool.go:552-590 | a connection released with its stream broken, or into a pool that is closed or holds more than its width, is counted out at once; in every continuation it is never idle, selected or leased again, and once its caller is through it has been closed, once |
| PoolHistory.KeptIsTakenNext | internal/pool/pool.go:552-590 | released otherwise it stays counted, and as long as nobody else takes or releases, whoever takes next takes that connection, without a dial |
| PoolHistory.OnlyCleanWorkGrows | internal/pool/pool.go:552-590 | a caller goes on to grow the pool only after work that ended without an error, and leaves otherwise |
| PoolHistory.TwoTakesPerToken | internal/pool/pool.go:334-384 | between two receives of a token a caller goes to the idle stack twice at most |
| PoolHistory.StaleIsReplacedOnce | internal/pool/pool.go:334-384 | an idle connection that cannot be selected is closed, counted out and replaced by one more take; a second failure, or one on a fresh dial, goes out as an error |
| PoolHistory.RefusedWaitsIff | internal/pool/pool.go:284-328 | a believed refusal is waited out if it is the first dial of its acquire and connections are open, and comes back as an error otherwise |
| PoolHistory.RefusalPaysAtOnce | internal/pool/pool.go:485-513 | a refusal that narrows the pool narrows it to what is open, destroys free tokens until its debt is paid or none is free, and leaves tokens and debt in balance |
| PoolHistory.RefusalIsBelievedIff | internal/pool/pool.go:460-484 | after any history a failed dial is read as the server's limit if and only if the pool is open and in the ten seconds before it a dial was accepted or work ended clean |
| PoolHistory.GrowsIff | internal/pool/pool.go:599-617 | after any history the pool grows, by one, if and only if it is open, owes nothing and is narrower than its cap, and for thirty seconds no refusal was believed and for fifteen it has not grown |
| PoolProtocol.StepKeepsInv | internal/pool/pool.go:552-637 | every step of every caller and of Close keeps the token, ownership, ceiling and count invariant |
| PoolProtocol.RunKeepsInv | internal/pool/pool.go:271-311 | so does every run |
| PoolGovernor.TrimClosesNothing | internal/pool/pool.go:485-542 | whatever the state, a refusal hands over no connection to close and changes neither idle nor open |
| PoolGovernor.RefusedWidth | internal/pool/pool.go:485-513 | a refusal that is believed leaves the width if it is within the open count or one, and otherwise sets it to the open count, or one where nothing is open |
| PoolGovernor.BurstIsOneRefusal | internal/pool/pool.go:460-513 | a burst of any number of refusals, one directly after another, leaves width, debt, tokens and idle as the first believed one did |
| PoolGovernor.Pool.New | internal/pool/pool.go:171-193 | a pool exists if and only if the capacity is at least one, and starts full of tokens |
| PoolGovernor.Pool.PopIdle | internal/pool/pool.go:408-442 | the newest idle connection is taken off the stack |
| PoolGovernor.Pool.CountDial | internal/pool/pool.go:408-442 | a successful dial is counted and remembered as the server's last acceptance |
| PoolGovernor.Pool.Discard | internal/pool/pool.go:393-397 | exactly one connection less is counted open |
| PoolGovernor.Pool.TakeFreeToken | internal/pool/pool.go:517-524 | takes a token if and only if one is free, without waiting |
| PoolGovernor.Pool.TrimIdleLocked | internal/pool/pool.go:533-542 | the loop takes idle connections off the end of the stack until it is empty or the open count is within the width, and hands them over in that order, each counted out |
| PoolGovernor.Pool.Refuse | internal/pool/pool.go:460-513 | the whole governor after a refusal: shrink, debt, tokens destroyed, trim |
| PoolGovernor.Pool.PutSection | internal/pool/pool.go:552-586 | one critical section parks or discards a returned connection as the specified section does; what that comes to is `PoolHistory.DiscardedIsNeverReused` and `PoolHistory.KeptIsTakenNext` |
| PoolGovernor.Pool.PayDebt | internal/pool/pool.go:626-637 | a token is destroyed if and only if debt is owed and the pool is not closing |
| PoolGovernor.Pool.Grow | internal/pool/pool.go:599-617 | growth by one token, never past Cap, never while debt is owed or Close runs |
| PoolGovernor.Pool.MarkClosed | internal/pool/pool.go:650-680 | the first Close reads width + debt under the same lock that stops growth and debt |
| PoolGovernor.Pool.TakeAllIdle | internal/pool/pool.go:650-680 | the idle stack is handed over whole |
| StateStore.DB.EnsureFolder | internal/state/state.go:192-220 | an existing folder keeps what is recorded of it and takes the destination given now; a missing one is created |
| StateStore.DB.FenceUIDValidity | internal/state/state.go:271-311 | a renumbered folder loses all its rows and its watermarks, and only that; otherwise nothing is lost; rows always carry one source numbering |
| StateStore.DB.MarkSynced | internal/state/state.go:324-335 | sets the watermark and completion of one folder and nothing else |
| StateStore.MirroredFollows | internal/state/state.go:493-516 | recording a copy that can be named adds exactly that pair under its numbering and removes it from every other; beginning, failing or losing the message removes exactly its own pair |
| StateStore.ClaimedCountIsDistinct | internal/state/state.go:541-552 | the count of claims equals the number of mirrored rows if and only if no two rows share one copy |
| StateStore.DB.BeginAppend | internal/state/state.go:578-600 | one row becomes in flight (keeping a known destination UID), no other row changes |
| StateStore.DB.CompleteAppend | internal/state/state.go:603-613 | an existing row becomes done with its destination; a missing row is an error and changes nothing |
| StateStore.DB.FailAppend | internal/state/state.go:617-627 | an existing row becomes failed; a missing row is an error and changes nothing |
| StateStore.DB.MarkGone | internal/state/state.go:406-418 | a row is inserted or updated as gone, no other row changes |
| StateStore.DB.ForgetMessages | internal/state/state.go:739-763 | the loop removes exactly the listed rows of one folder and numbering |
| Identity.StoredCopyIsFound | internal/ident/ident.go:208-217 | a message can be searched for if and only if its identity is strong, the stored copy then answers that search, and stamping changes neither digest nor strength |
| Identity.StampedOnce | internal/ident/ident.go:82-95 | storing a stored copy again adds no second stamp and keeps its value |
| Identity.FrameInjective | internal/ident/ident.go:103-122 | for header values that hold neither separator, the framing is injective: equal digest inputs mean equal values field by field, up to an absent field and an empty value |
| CopyProtocol.NewestOf | internal/syncer/syncer.go:3261-3283 | the loop over search hits returns the highest UID found, 0 when there is none |
| CopyLedger.StepKeepsLedger | internal/syncer/syncer.go:2644-2859 | with no assumption at all: through every step, renumberings, the fence and the passes included, what the workers hold agrees with the rows in the database |
| CopyLedger.RunKeepsLedger | internal/syncer/syncer.go:2644-2859 | so it does over every history with crashes |
| CopyLedger.AppendOnlyInFlight | internal/syncer/syncer.go:2671-2685 | in every history, whenever an APPEND can be issued its row is already committed as in flight with that message's identity |
| WithinRun.ListsAndOffersIff | internal/syncer/syncer.go:1600-1654 | a run lists for copying exactly what the source holds and no row says is copied or gone, and offers for adoption exactly the identifiable destination messages no row of any state names, if the folder was never synced or the fence has just cleared its rows and there is something to copy |
| WithinRun.AdoptedOnce | internal/syncer/syncer.go:934-984 | a copy adopted for one message is recorded for it and is offered to no other before the run is over |
| WithinRun.OneOfEachBody | internal/syncer/syncer.go:1028-1040 | over every history that does not ask for repeats, once a run has a message on its way to the destination no other with the same bytes is on its way before the run is over |
| WithinRun.SettledIff | internal/syncer/syncer.go:1221-1249 | a repeat is recorded against its survivor's copy if and only if the survivor is recorded with a copy that can be named where the run copied to; otherwise nothing is written |
| WithinRun.ExpungeIff | internal/syncer/syncer.go:2436-2520 | a run can expunge messages if and only if copying and settling are over, the destination has the run's numbering, no message failed, and each is not hidden by the search and is either named by rows, none of a listed message, or listed, identifiable, named by no row of any state and of a digest no recorded listed message has; exactly those go and no row changes |
| DoneRows.StepKeepsTrue | internal/syncer/syncer.go:2644-2859 | every step, including a crash, a renumbering, the fence and the passes, keeps every done row true; a deletion pass if, as it begins, some copy of each listed message with an unnamed row is not nominated |
| DoneRows.RunKeepsTrue | internal/syncer/syncer.go:3175-3218 | so does every history of such steps, recovery included |
| DoneRows.DoneRowsNeverLie | internal/syncer/syncer.go:1221-1249 | in every state such a history reaches, a done row's message is on the destination as long as the source holds it or a run has it listed, and the copy the row names under the present numbering is that message |
| DoneRows.DoneRowsNeverLieUndeleted | internal/syncer/syncer.go:1221-1249 | where no deletion pass ever ran, the same of every done row, whatever the source has expunged |
| DoneRows.ExpungeIsSafeIffUnnamedKept | internal/syncer/syncer.go:2160-2239 | whatever part of the doomed a deletion pass removes, every listed message recorded as copied keeps a copy if and only if, before it begins, each of them whose row names none has a copy that is not doomed |
| UnnamedCopies.RunKeepsDescribed | internal/state/state.go:578-613 | in every history a done or in-flight row carries its own message's digest, stamp and size as BeginAppend wrote them |
| UnnamedCopies.RecordedCopyIsDoomedIffOrphaned | internal/syncer/syncer.go:2368-2387 | a copy of a listed recorded message is nominated if and only if rows name it, none of them of a listed message, and the search does not hide it |
| UnnamedCopies.DeletionIsSafeIffNoneOrphaned | internal/syncer/syncer.go:2160-2239 | in every state a history as for DoneRowsNeverLie reaches, whatever is listed, a deletion pass leaves every listed recorded message a copy if and only if each of them with an unnamed row has a copy that dead rows do not name alone or the search hides |
| UnnamedCopies.NamedRowsNeverLie | internal/syncer/syncer.go:2813-2859 | where every copy recorded can be named, by APPEND or by a search that finds it, done rows never lie and nothing is assumed of the deletion passes |
| UnnamedCopies.NeverLookedAtAgain | internal/syncer/syncer.go:1744-1778 | a message recorded as copied without a name is never recovered, verified or listed for copying again by any run, until a mailbox is renumbered |
| UnnamedWitness.UnnamedCopyIsDeleted | internal/syncer/syncer.go:2256-2288 | a concrete history of three runs in which nobody else deletes and nothing is renumbered, and the only copy of a message that is held and recorded as copied is deleted |
| UnnamedWitness.LostForGood | internal/syncer/syncer.go:3258-3260 | and no later run, under the same numberings, works on that message again |
| ExactlyOnce.LocateIsExact | internal/syncer/syncer.go:3245-3283 | looking for a message finds a copy if and only if there is one, and it is that message's |
| ExactlyOnce.StepKeepsOnce | internal/syncer/syncer.go:2644-2859 | every exact step, the passes included, keeps at most one copy per message and every possible copy accounted for by a row or a worker |
| ExactlyOnce.RunKeepsOnce | internal/syncer/syncer.go:3175-3218 | so does every history of exact steps |
| ExactlyOnce.NeverTwice | internal/syncer/syncer.go:2773-2859 | in every exact history, cut anywhere, no message has two copies |
| ExactlyOnce.ExactlyOnceAfterCompleteRun | internal/syncer/syncer.go:1252-1327 | after any number of interrupted runs and one that completes with nothing failed or filtered, deletion and deduplication included, every listed message is either expunged at the source or done with exactly one copy |
| ExactlyOnce.OrderlyIsExact | internal/syncer/syncer.go:934-984 | from an empty destination the adoption offers a history sees are always exact, so only appends and searches need assumptions |
| ExactlyOnce.NeverTwiceFromEmpty | internal/syncer/syncer.go:2773-2859 | the same no-second-copy result from an empty destination, without assuming anything about adoption |
| FastPath.StepKeepsSound | internal/syncer/syncer.go:1285-1327 | a stored watermark always covers every message then held, through every step, renumberings and the fence included, until a claim is dropped |
| FastPath.SkippedNothing | internal/syncer/syncer.go:1532-1542 | whenever the folder is judged unchanged and no claim was dropped since, however often either side was renumbered, every message the source holds is recorded done or is a byte-identical repeat of one that is |
| FastPath.SkippedIsThere | internal/syncer/syncer.go:1493-1522 | whenever a folder is then skipped after a history as for DoneRowsNeverLie, every message the source holds has a copy on the destination |
| FastPath.SkipIsRightIffRepaired | internal/syncer/syncer.go:1744-1778 | with claims dropped since, after any history, what a folder judged unchanged holds is all recorded if and only if every message a dropped claim stood for has been recorded again |
| FastPath.NextSkipIsRightIffReportCovered | internal/syncer/syncer.go:1285-1327 | in every reachable state in which a run can end, if the folder then counts as unchanged, everything the source holds is recorded if and only if each message the run reports as failed or filtered repeats one that is |
| FastPath.StillEarnedIffRepeatsSurvive | internal/syncer/syncer.go:1744-1778 | killed right after the check, the next skip is right if and only if each held message with the bytes of a lost copy has a recorded message of the same bytes whose copy is still there |
| FastPath.VoteIsVoidUnderOtherNumbers | internal/syncer/syncer.go:1493-1522 | where no done row was recorded under the numbering the listing reported, the vote stops no skip; where it does is `SkipVote.SkipsIff` |
| SkipVote.SkipsIff | internal/syncer/syncer.go:1493-1542 | between runs, with verification on and a true count of the destination, a folder can be skipped if and only if a full run is not asked for, the source reports the number and sequence of the watermark, deletion if asked for got as far, and the done rows name no more distinct messages under the present numbering than the destination holds |
| SkipVote.SilenceSkipsIff | internal/syncer/syncer.go:1497-1516 | without verification, or without a count, the same but for the destination |
| SkipVote.VoteWeighsLossIff | internal/syncer/syncer.go:1478-1522 | so an otherwise unchanged folder is skipped if and only if no more named copies are missing than there are messages no row names; where there are none of those, if and only if nothing is missing |
| SkipVote.SkipsIffEarned | internal/syncer/syncer.go:1285-1327 | over every history the next run can skip if and only if the last run since the numberings moved that left nothing out went by the sequence the source still reports, deletion if asked for was last carried through at it, and the vote allows it |
| SkipVote.DropsIff | internal/syncer/syncer.go:1728-1778 | a run drops claims if and only if the fence kept its rows, verification is on, a named copy is missing, and either a full check is asked for or more distinct copies are named than are there; then exactly the rows whose copy is missing go |
| CopyWitnesses.DroppedClaimIsSkipped | internal/syncer/syncer.go:1772-1778 | a concrete history in which a dropped claim, a crash and an unmoved watermark leave a live message without copy and the folder skipped |
| CopyWitnesses.FailedRepairIsSkipped | internal/syncer/syncer.go:1285-1316 | a concrete history without a crash: the dropped claim's message fails to be copied again, the old watermark stays, and the folder is skipped with it missing |
| CopyWitnesses.RemadeDestinationIsSkipped | internal/syncer/syncer.go:1493-1522 | a concrete history in which the destination mailbox is made anew, empty, and the folder is skipped with the destination's vote asked for |
| CopyWitnesses.DeletedCopyIsMadeGood | internal/syncer/syncer.go:1478-1522 | a concrete history in which the source stands still and somebody deletes a copy: no run can skip the folder, the ordinary run that follows copies the message again and records where, and then the folder can be skipped |
| CopyWitnesses.GiveUpDuplicates | internal/syncer/syncer.go:2785-2796 | a concrete two-run history with one unknown-outcome APPEND given up on that leaves two copies |
| CopyWitnesses.UnsettledIsAppendedAgain | internal/syncer/syncer.go:1624-1655 | in a folder synced before, a message the source still holds whose row failed or is not there is appended again by a next run that exists, whatever the destination holds of it |
| CopyWitnesses.GiveUpCanDuplicate | internal/syncer/syncer.go:2785-2796 | given up on while its copy is there, a message the source still holds can be copied a second time, in a first sync too |
| CopyWitnesses.GivingUpIsSafeIffNotThere | internal/syncer/syncer.go:2785-2796 | giving up after an unknown outcome keeps every exact continuation free of second copies if and only if looking for the message would have found nothing or the source has let it go |
| Readoption.RestIsSafeIffRecorded | internal/syncer/syncer.go:1624-1655 | a folder synced before, left by any run, is safe from second copies in every exact continuation if and only if every held message with a copy is recorded as done or in flight |
| Readoption.KilledAfterFenceIsSafeIff | internal/state/state.go:265-311 | after any exact history, a destination renumbering and a run killed after its fence, no exact continuation leaves two copies if and only if the folder never completed a sync or holds nothing that was copied |
| Readoption.KilledFenceCopiesAgain | internal/state/state.go:265-311 | a concrete such history from which a second copy is made |
| Readoption.RelistingOffersEveryCopy | internal/syncer/syncer.go:1640-1655 | the run that made the fence discard the rows, if it gets to list, is offered every copy of whatever it lists |
| Deletion.Orphans | internal/syncer/syncer.go:2166-2174 | nominates exactly the mirrored rows whose source UID is not listed, each source UID once |
| Deletion.KeptIsOnePerMessage | internal/syncer/syncer.go:2275-2288 | what stays nominated is exactly the nominated messages no listed source message names |
| Deletion.KeptIsDistinct | internal/syncer/syncer.go:2275-2288 | no destination message is nominated twice |
| Deletion.KeepInPlace | internal/syncer/syncer.go:2275-2288 | the filter that reuses the slice computes that list and touches nothing beyond it |
| Deletion.StillClaimed | internal/syncer/syncer.go:2256-2288 | the whole pass, in place, against everything a listed message names |
| Deletion.StrangersAre | internal/syncer/syncer.go:2298-2359 | strangers are exactly the unclaimed destination messages with a strong identity the source does not hold |
| Deletion.StrangersAreUnclaimed | internal/syncer/syncer.go:2307-2335 | reading only the unclaimed messages loses no stranger |
| Deletion.Strangers | internal/syncer/syncer.go:2298-2359 | the batched loop finds exactly those, over any batch size |
| Deletion.CeilingHolds | internal/syncer/dedupe.go:238-246 | a deletion is allowed if and only if it is forced, the mailbox is empty, it is of ten messages or fewer, or within the ceiling's share |
| Deletion.Condemned | internal/syncer/syncer.go:2160-2239 | nominates exactly the doomed messages, each UID once, and reports whether the ceiling allows it |
| Deletion.NarrowedBySearch | internal/syncer/syncer.go:2212-2228 | the destination search keeps exactly the nominated messages it matches |
| DeletionSafety.StrangerIsLikeNothingListed | internal/syncer/syncer.go:2298-2359 | an unrecorded message is nominated only with a strong identity that no listed recorded source message has |
| DeletionSafety.UnrecordedProtectsNothing | internal/syncer/syncer.go:2368-2387 | when no listed message is recorded as copied, the doomed are exactly the dead rows' copies and every strong unclaimed message, as far as the search allows |
| DeletionSafety.AllForgottenIffNoneShared | internal/syncer/syncer.go:2487-2492 | no row is left naming a removed message if and only if no two rows shared one |
| DeletionSafety.SharedRowIsLeft | internal/syncer/syncer.go:2275-2287 | two dead rows naming one message: one of them stays behind |
| DeletionSafety.Carry | internal/syncer/syncer.go:2481-2511 | the expunge followed by forgetting: what goes was nominated, what is forgotten is dead and its message removed, and an interrupted expunge forgets nothing |
| DeletionSafety.DeleteVanished | internal/syncer/syncer.go:2438-2511 | the whole pass: stands down when it must, changes nothing when refused, deletes only doomed messages within the ceiling, and at every moment a crash could find leaves every listed row its copy; it stands down if and only if deletion is off, the folder was skipped or a message failed, otherwise does nothing if and only if nothing is doomed, refuses if and only if the number doomed is over floor and ceiling, and when it completes everything doomed is gone and of the rows naming each message that is gone exactly one is forgotten |
| Dedup.Candidates | internal/dedup/dedup.go:81-103 | the groups are exactly the sets of two or more groupable messages of one digest and size, each ascending, ordered by first UID, and two messages stand together if and only if `Dedup.MayBeCopies` says so of their digests and sizes |
| Dedup.TogetherIff | internal/dedup/dedup.go:46-63 | two messages stand in one group if and only if both are identifiable, with one digest that is not empty and one size that is not zero |
| Dedup.GroupsAreDetermined | internal/dedup/dedup.go:81-103 | listing order and map order do not show: the same messages give the same groups |
| Dedup.Partition | internal/dedup/dedup.go:120-138 | the survivor is the lowest claimed UID, or the lowest when none is claimed, and the victims are all the others |
| DestDedupe.ConfirmGroup | internal/syncer/dedupe.go:189-223 | within a group exactly the readable members with the survivor's bytes are victims |
| DestDedupe.ConfirmDuplicates | internal/syncer/dedupe.go:189-223 | over all groups exactly the confirmed repeats are victims, each once |
| DestDedupe.ConfirmedIff | internal/syncer/dedupe.go:53-131 | told without groups: a message is a confirmed repeat if and only if it may be a copy of the one to keep of its kind, the lowest a row names or else the lowest, is not that one, both can be read, and they are the same to the byte |
| DestDedupe.SurvivorSurvives | internal/syncer/dedupe.go:189-223 | no victim's survivor is itself a victim, and a message has one survivor only |
| DestDedupe.ClaimedYieldsToClaimed | internal/dedup/dedup.go:107-138 | a message the database names is removed only in favour of another it names |
| DestDedupe.ClaimedBy | internal/syncer/dedupe.go:53-131 | the index from destination message to the rows naming it misses none |
| DestDedupe.RepointOne | internal/syncer/dedupe.go:114-122 | the rows naming a victim are written one at a time, and after each write every row names a present message with the same bytes |
| DestDedupe.RepointAll | internal/syncer/dedupe.go:114-122 | afterwards no row names a victim |
| DestDedupe.RemovalIsIntact | internal/syncer/dedupe.go:124-131 | removing any part of the victims then keeps the set of distinct bodies and every row's body |
| DestDedupe.RemoveDuplicates | internal/syncer/dedupe.go:114-131 | every state passed through and the last one keep all bodies and all rows' bodies, wherever the expunge stops |
| DestDedupe.DedupeDest | internal/syncer/dedupe.go:53-131 | the whole pass does so too, changes nothing on a dry run or a refusal, and stays within the ceiling's share of the whole listing; a completed one removes exactly the messages `DestDedupe.ConfirmedIff` speaks of, and their number is what a dry run reports and what a refusal reports as refused |
| ChunkCopy.CountsAddUp | internal/syncer/syncer.go:1146-1153 | the six counters sum to the number of outcomes noted |
| ChunkCopy.MarkGone | internal/syncer/syncer.go:2009-2033 | what a chunk lists and the server does not answer becomes vanished, once each, and nothing else does |
| ChunkCopy.Selected | internal/syncer/syncer.go:2103-2117 | the filter passes on exactly the wanted messages and counts the rest as filtered |
| ChunkCopy.FetchRun | internal/syncer/syncer.go:2594-2618 | one run over one lease settles or queues exactly the prefix it reports, each message with the end its try came to, and stops at the first try that breaks |
| ChunkCopy.FetchAll | internal/syncer/syncer.go:1932-1994 | with retries, reconnections and skips every message is settled once, with the fate it deserves, or queued; the reading gets through if and only if each message ends within its attempts or breaks for good with its row begun, and the loop ends |
| ChunkCopy.FetchChunk | internal/syncer/syncer.go:1932-1994 | the same for a chunk, with what the server does not answer vanished and what the filter does not want filtered |
| ChunkCopy.DeliverAll | internal/syncer/syncer.go:1893-1903 | every message handed on is counted copied where its copy is taken and failed where it is refused; it succeeds if and only if each is one or the other |
| ChunkCopy.CopyFolder | internal/syncer/syncer.go:1849-1918 | whatever end a message is counted under is the one the servers' behaviour towards it deserves, also when the folder is given up; it succeeds if and only if every message can be got past and what is handed on is taken or refused, and then the copied count is the number of messages handed on and taken, the failed count those refused or passed over, and so for the adopted, noted, vanished and filtered, and the six sum to the todo list |
| ChunkCopy.BrokenIsPassedOverIff | internal/syncer/syncer.go:1959-1994 | a message stopped at with no try to follow is passed over if and only if its row was begun and the break is a skip, or one that may be tried again with no attempt left; otherwise the reading ends there |
| ChunkCopy.ReadsOneWay | internal/syncer/syncer.go:1951-1994 | no message is read to two ends, or both read and passed over |
| ChunkCopy.OneFate | internal/syncer/syncer.go:1146-1153 | no message deserves two of the six fates |
| ChunkCopy.CountIsDeserved | internal/syncer/syncer.go:1146-1153 | if all were settled once and as they deserve, each count is the number of the listed messages that deserve that fate |
| ChunkCopy.OneEndEach | internal/syncer/syncer.go:1849-1918 | hence every todo UID has exactly one outcome and no other UID has any |
| CopyPipeline.StepKeepsInv | internal/syncer/syncer.go:1544-1655 | leases, slots and budget in hand plus those free always add to their limits, and every folder's queue and workers agree, whichever of copying, flags and passes a folder goes through |
| CopyPipeline.ChargesAreMessages | internal/budget/budget.go:58-85 | the charges the machine allows are exactly those of messages of any reported size: at least a byte, also for an empty one, and at most the whole budget |
| Deadlock.SomeoneCanGoOn | internal/syncer/syncer.go:1849-1918 | in every state the invariant allows and with work left, a step that can be taken is produced |
| Deadlock.NeverDeadlocks | internal/syncer/syncer.go:2885-2901 | so no reachable state is stuck, for any limits of at least one and any number of folders |
| Deadlock.EverythingComesBack | internal/syncer/syncer.go:1907-1918 | when every folder has finished, whether it succeeded, failed or was cancelled, every lease, slot and byte is back and no message is left queued |
| SearchLexer.ReadQuoted | internal/searchkey/searchkey.go:136-156 | the index loop reads exactly the quoted string's text, with its escapes, and where it ends |
| SearchLexer.Lex | internal/searchkey/searchkey.go:99-133 | the token loop refines the recursive reading of the string |
| SearchLexer.LexInvertsPrinting | internal/searchkey/searchkey.go:99-156 | lexing a printed token list returns it, whatever the quoted strings hold |
| SearchLexer.LexedIsPrintable | internal/searchkey/searchkey.go:99-156 | whatever is lexed can be printed and lexes to the same again |
| SearchLexer.LexInvertsSpacing | internal/searchkey/searchkey.go:99-156 | however tokens are set apart, by any blanks, tabs and line ends, or by nothing where a parenthesis or a quote is enough, the text splits into them again |
| SearchLexer.WordsAre | internal/searchkey/searchkey.go:99-133 | a word is what is not empty, does not start with a brace and holds no blank, parenthesis or quote |
| SearchCriteria.LaterMeansBoth | internal/searchkey/searchkey.go:246-251 | the later of two lower bounds, zero meaning none, holds if and only if both do |
| SearchCriteria.EarlierMeansBoth | internal/searchkey/searchkey.go:255-260 | the earlier of two upper bounds, zero meaning none, holds if and only if both do |
| SearchCriteria.AndIsIntersection | internal/searchkey/searchkey.go:218-242 | and(a, b) selects exactly the messages both select, with 0 and the zero time meaning no bound |
| SearchCriteria.AndStaysBounded | internal/searchkey/searchkey.go:218-242 | conjunction never makes a SMALLER bound negative |
| SearchCriteria.AndNeedsNoNegativeBound | internal/searchkey/searchkey.go:233-242 | with a negative bound on the left the conjunction would forget the right one for every size |
| SearchEvaluator.VerdictAnswers | internal/localstore/search.go:117-244 | whatever the order of checks and early returns, a verdict agrees with selection and an error occurs only when the file cannot be read |
| SearchEvaluator.IndexOnlyNeverFails | internal/localstore/search.go:117-166 | criteria that need no content never touch the file |
| SearchEvaluator.FoundIsChosen | internal/localstore/search.go:21-42 | evaluation returns exactly the selected UIDs in record order, and succeeds when all files can be read |
| SearchEvaluator.Message.Load | internal/localstore/search.go:59-68 | the bytes are read once and cached |
| SearchEvaluator.Message.SentDate | internal/localstore/search.go:94-110 | the parsed date is cached and equals the file's |
| SearchEvaluator.Message.MatchesContent | internal/localstore/search.go:169-212 | the loops over dates, headers, bodies and texts compute the content verdict |
| SearchEvaluator.Message.MatchesIndex | internal/localstore/search.go:128-166 | the loops over UIDs, flags and sizes decide the index part |
| SearchEvaluator.Message.Matches | internal/localstore/search.go:117-125 | the whole check computes the verdict, through the caches |
| SearchEvaluator.Message.MatchesNested | internal/localstore/search.go:215-244 | negations and alternatives compute theirs |
| SearchEvaluator.Evaluate | internal/localstore/search.go:21-42 | the loop over records is the recursive search, and no criteria selects everything |
| SearchMeaning.CompileMeans | internal/searchkey/searchkey.go:262-338 | for every key and every message the flattened criteria select it if and only if the key denotes it per section 6.4.4 of RFC 3501 |
| SearchMeaning.CompileAllMeans | internal/searchkey/searchkey.go:183-198 | likewise for a list of keys, read as their conjunction |
| SearchMeaning.CompiledIsBounded | internal/searchkey/searchkey.go:424-452 | no key compiles to a negative SMALLER bound, so every conjunction made is an intersection |
| SearchMeaning.DateMeansSameIff | internal/searchkey/searchkey.go:480-495 | a date key means what the standard says on all messages if and only if its bound does not come out as the zero time (BEFORE 1-Jan-0001, ON the day before) |
| SearchGrammar.NumReadsBack | internal/searchkey/searchkey.go:521-538 | a number printed in decimal reads back, within 32 bits |
| SearchGrammar.SetReadsBack | internal/searchkey/searchkey.go:542-578 | a printed UID set, stars and ranges included, reads back |
| SearchRoundTrip.KeyReadsBack | internal/searchkey/searchkey.go:262-338 | any key, nested to any depth, printed in front of any tokens reads back as that key and leaves those tokens |
| SearchRoundTrip.SearchReadsBack | internal/searchkey/searchkey.go:60-77 | any printed search, as a string, reads back as the same list of keys |
| SearchRoundTrip.AcceptedIsBalanced | internal/searchkey/searchkey.go:60-77 | what is accepted has balanced parentheses at every prefix and is consumed to the last token |
| SearchRoundTrip.AcceptedPrintsTheSame | internal/searchkey/searchkey.go:60-77 | whatever is accepted prints to a string read as the same keys |
| SearchRoundTrip.AcceptedMeans | internal/searchkey/searchkey.go:60-77 | whatever is accepted compiles to criteria that mean what its keys denote |
| SearchCase.WordReadsInAnyCase | internal/searchkey/searchkey.go:279-338 | a word reads as the same key, or the same error, in whatever case it is written |
| SearchCase.ReadingIgnoresCase | internal/searchkey/searchkey.go:262-338 | a row of tokens and the same row in other letters are refused with the same error, or read as the same keys up to the case of what they look for and leave rests alike |
| SearchCase.SearchIgnoresCase | internal/searchkey/searchkey.go:60-77 | so do two strings that differ in the case of letters only |
| SearchCase.SearchMeansTheSameInAnyCase | internal/searchkey/searchkey.go:60-77 | and they select the same messages, where servers find text in any case and month names are read in any case |
| SearchCase.KeyReadsBackInAnyCase | internal/searchkey/searchkey.go:262-338 | a key printed with its words in any case reads back as that key in front of any tokens |
| SearchCase.SearchReadsBackInAnyCase | internal/searchkey/searchkey.go:60-77 | any printed search reads back as its keys, its words in capitals, small letters or both and any blanks between its tokens |
| SearchWords.FlagWordsAsk | internal/searchkey/searchkey.go:346-366 | answered, deleted, draft, flagged and seen, in any case, ask for the flag so named after a backslash, and with un in front for its absence |
| SearchWords.KeywordAsks | internal/searchkey/searchkey.go:346-366 | keyword and unkeyword ask for the flag named after them, or its absence |
| SearchWords.FieldWordsAsk | internal/searchkey/searchkey.go:370-404 | bcc, cc, from, subject and to ask for the value in the header field of that name |
| SearchWords.TextWordsAsk | internal/searchkey/searchkey.go:370-404 | header asks for its second value in the field its first names, body and text for the value there |
| SearchWords.DateWordsAsk | internal/searchkey/searchkey.go:424-452 | since, before and on ask for the day a message arrived, and with sent in front for the day it was sent |
| SearchWords.SizeWordsAsk | internal/searchkey/searchkey.go:424-452 | larger and smaller ask for a size, and are refused if and only if no number between 1 and 2^32 - 1 follows |
| SearchWords.UidWordAsks | internal/searchkey/searchkey.go:424-452 | uid asks for a number in one of the parts between the commas, a star standing for the highest UID and two UIDs read either way round; it is refused if and only if some part is neither a UID nor two with a colon, each a star or a number between 1 and 2^32 - 1 |
| SearchWords.PlainWordsAsk | internal/searchkey/searchkey.go:262-338 | all asks nothing; recent, new and old are refused |
| SearchWords.JoiningWordsAsk | internal/searchkey/searchkey.go:262-338 | not asks for the key after it to be false, or for one of the two after it to be true |
| SearchWords.NoOtherWords | internal/searchkey/searchkey.go:262-338 | every other word is refused: a bare set of numbers as positions, the rest as no key |
| SearchParser.ReadUidSet | internal/searchkey/searchkey.go:542-578 | the loop over the parts of a set reads all of them or reports an error |
| SearchParser.Parser.Next | internal/searchkey/searchkey.go:170-176 | takes exactly one token when there is one |
| SearchParser.Parser.Value | internal/searchkey/searchkey.go:498-507 | reads one atom or string, or says which is missing |
| SearchParser.Parser.FlagKey | internal/searchkey/searchkey.go:346-366 | agrees with the grammar on flag keys, and moves only when it is one |
| SearchParser.Parser.TextKey | internal/searchkey/searchkey.go:370-404 | likewise for header, body and keyword keys |
| SearchParser.Parser.BoundKey | internal/searchkey/searchkey.go:424-452 | likewise for dates, sizes and UIDs |
| SearchParser.Parser.Date | internal/searchkey/searchkey.go:509-519 | reads one date or reports why not |
| SearchParser.Parser.Size | internal/searchkey/searchkey.go:521-538 | reads one size within 32 bits or reports why not |
| SearchParser.Parser.UidSet | internal/searchkey/searchkey.go:542-565 | reads one UID set or reports why not |
| SearchParser.Parser.Key | internal/searchkey/searchkey.go:262-338 | the recursive descent computes the compiled criteria of the key the grammar reads, or the same error |
| SearchParser.Parser.Word | internal/searchkey/searchkey.go:262-338 | computes the criteria of what the grammar reads of a key that starts with a word, NOT and OR included; what the words are, in any case, is `SearchWords` |
| SearchParser.Parser.Group | internal/searchkey/searchkey.go:408-420 | the same inside parentheses |
| SearchParser.Parser.Keys | internal/searchkey/searchkey.go:183-198 | the loop that flattens conjunctions computes the criteria of the whole list and always ends |
| SearchParser.Parse | internal/searchkey/searchkey.go:60-77 | for every string, the criteria of the keys the grammar reads in it, or the same error; that these do not depend on case is `SearchCase.SearchIgnoresCase` |
| LocalNames.EncodeSegment | internal/localstore/name.go:110-125 | the loop is the recursive encoding |
| LocalNames.DecodeSegment | internal/localstore/name.go:142-158 | the loop is the recursive decoding, malformed escapes kept as they are |
| LocalNames.SegmentReadsBackIffNotEmpty | internal/localstore/name.go:110-158 | decoding an encoded segment returns it if and only if it is not empty |
| LocalNames.SegmentKeepsItsPlace | internal/localstore/name.go:110-125 | an encoded segment is not empty, holds no separator, and looks neither like a dot-file nor like a shard |
| LocalNames.WrittenAsIsIff | internal/localstore/name.go:110-139 | a byte is written as it is if and only if it is a letter, a digit, beyond ASCII or one of ten marks, and does not hide the name; otherwise as three characters |
| LocalNames.SegmentIsPortable | internal/localstore/name.go:110-139 | so an encoded segment holds nothing a file system refuses |
| LocalNames.SegmentsStayApart | internal/localstore/name.go:110-125 | different non-empty segments have different encodings |
| LocalNames.SegmentIsMessageNameIffNamedSo | internal/localstore/name.go:100-125 | an encoded segment is a message's file name if and only if the folder has that very name |
| LocalNames.MessageNamesRoundTrip | internal/localstore/name.go:63-96 | a message name reads back as its UID, 0 excepted, and every name that reads as a UID is that UID's name |
| LocalNames.MessageNamesInOrder | internal/localstore/name.go:63-65 | lexical order of names is numeric order of UIDs |
| LocalNames.MessagesAreNotShards | internal/localstore/name.go:63-81 | message names and shard names never meet |
| LocalNames.PathsAreDistinct | internal/localstore/name.go:55-61 | different UIDs have different paths |
| LocalNames.LayoutIs | internal/localstore/name.go:49-71 | a message lies under ten digits that spell its UID, in the folder itself below ten thousand and otherwise in the directory that spells the first of its ten thousand |
| LocalNames.FolderRelOf | internal/localstore/name.go:167-177 | the loop is the level-by-level encoding |
| LocalNames.FolderNameOf | internal/localstore/name.go:180-190 | the loop is the level-by-level decoding |
| LocalNames.FolderReadsBackIff | internal/localstore/name.go:167-190 | a folder name survives its path if and only if no level is empty (or the whole name is) |
| LocalNames.FoldersStayApart | internal/localstore/name.go:167-177 | different names without empty levels have different paths |
| LocalFolder.Scan | internal/localstore/folder.go:317-354 | finds exactly the numbered files, the foreign ones and the highest UID |
| LocalFolder.MessagesAre | internal/localstore/folder.go:317-354 | the files that are messages: those that end in .eml, in the folder itself or in one of its shards |
| LocalFolder.Folder.Claim | internal/localstore/folder.go:461-475 | hands out the counter, or one past the floor asked for, and moves the counter past it |
| LocalFolder.Folder.RaiseUidNext | internal/localstore/folder.go:444-456 | the counter ends above the UID given and never falls |
| LocalFolder.Folder.AdoptAll | internal/localstore/folder.go:364-388 | every foreign file is renamed to a fresh UID's path with its bytes, no file is overwritten and no other file moves |
| LocalFolder.AdoptStep | internal/localstore/folder.go:372-388 | one rename to a path that was free keeps that so |
| LocalFolder.AdoptedUids | internal/localstore/folder.go:364-388 | afterwards no foreign file is left and the UIDs on disk are those before and those given |
| LocalFolder.Folder.FixRows | internal/localstore/folder.go:390-435 | rows are exactly the UIDs on disk, rows that were there are untouched |
| LocalFolder.Folder.Reconcile | internal/localstore/folder.go:364-435 | the whole pass does all of that, the counter ends above everything on disk and never falls, and a second pass changes nothing |
| LocalFolder.ClaimsAreFresh | internal/localstore/folder.go:444-475 | over any sequence of claims and raises each UID handed out is above its own floor, above every floor and raise before it and above every UID handed out before it |
| FolderPlan.TranslateKeepsLevels | internal/folder/plan.go:312-333 | a name is translated if and only if no level holds the other delimiter, and then has the same levels |
| FolderPlan.TranslateIsInjective | internal/folder/plan.go:312-333 | two names with the same translation are the same |
| FolderPlan.RolesOf | internal/folder/plan.go:364-393 | each role goes to the folder that serves it best, marked before named, then by name |
| FolderPlan.RolesMean | internal/folder/plan.go:364-393 | a role is served if and only if some selectable mailbox has it; by one the server marks so if any is marked, and among those alike in that by the first by name |
| FolderPlan.RolesIgnoreOrder | internal/folder/plan.go:364-393 | so the listing order does not show |
| FolderPlan.CreateOrder | internal/folder/plan.go:397-433 | exactly the destinations and their missing ancestors of folders to be created, each once, by depth then name |
| FolderPlan.ParentsFirst | internal/folder/plan.go:397-433 | every missing ancestor of a created folder is created before it |
| FolderPlan.CreatesMean | internal/folder/plan.go:397-433 | what is created is exactly what the destination does not have of the mailboxes pairs need and of those above them, by number of levels and then by name |
| FolderPlan.CheckCollisions | internal/folder/plan.go:442-456 | passes if and only if no destination is claimed twice |
| FolderPlan.CollisionsAreMerges | internal/folder/plan.go:442-456 | which is so if and only if no two pairs have the same folded destination |
| FolderPlan.FateIs | internal/folder/plan.go:243-292 | a mailbox is paired if and only if it is selectable, not an unwanted view, asked for and translatable or mapped; otherwise it is skipped with the first reason that fails |
| FolderPlan.PairGoes | internal/folder/plan.go:206-234 | a paired mailbox goes where its destination says, in the existing mailbox's spelling, and is to be created if and only if none exists; what that destination is stands in `FolderPlan.PairLeads` |
| FolderPlan.PairLeads | internal/folder/plan.go:206-303 | every pair leads, under the subfolder's levels, to the name its mailbox is mapped to; or INBOX; or under automap the destination mailbox serving its role; or the destination prefix and a name with the levels of the source name below the source prefix; in the spelling of the destination, and to be created if and only if no mailbox there is the same |
| FolderPlan.NestedIsOne | internal/folder/plan.go:295-303 | a name is nested under the subfolder in one way only |
| FolderPlan.DetectedIsRole | internal/folder/plan.go:335-362 | a mailbox is INBOX by its name in any case, else has the role of the first of its attributes that marks one, else the one its name stands for in the table |
| FolderPlan.NoneMergedIff | internal/folder/plan.go:442-456 | no two pairs are merged if and only if no two destinations are one mailbox, INBOX in any case counting as one |
| FolderPlan.PairsAre | internal/folder/plan.go:191-241 | the pairs are those of the mailboxes whose fate it is, and no others |
| FolderPlan.SkipsAre | internal/folder/plan.go:191-241 | and so are the skips |
| FolderPlan.AllAccounted | internal/folder/plan.go:191-241 | every source mailbox is in the pairs or the skips, exactly once |
| FolderPlan.ExistingIgnoresOrder | internal/folder/plan.go:191-241 | unless two destination names fold together, the order of the destination's listing does not show |
| FolderPlan.Build | internal/folder/plan.go:191-241 | a plan results if and only if no two mailboxes whose fate is to be paired go to one destination; then pairs and skips are exactly the fates, in order, every pair leads as in `FolderPlan.PairLeads`, no two lead to one mailbox, and what is created is exactly what is missing, by levels and then by name |

## Left out

- Real IMAP, TLS, authentication, the command line, reports, logging and
  configuration; a server is its mailboxes and its outcomes.
- SQL and the files of the database; the state database is a map of rows and
  commits are durable. A directory of the local store is a map from path to
  file.
- ExactlyOnce.NeverTwice: histories with a renumbering are left out, because
  after one it is false; `Readoption` says when a run cut short after a
  renumbering of the destination is safe. What a renumbering of the source does
  to second copies is left out.
- Which connection has which mailbox selected. A worker reads the source under
  the run's numbering or stops; recovery, verification and listing see one
  numbering.
- How many attempts are made: the copy histories allow any number before an
  APPEND is given up, so they hold for every setting.
- Which of several adoptable copies is offered first: the histories allow any.
- Flag resynchronisation, the byte contents of flags, and the dry-run reports.
- Waiting of individual workers, fairness and total running time: `Deadlock`
  proves that some step can be taken and that everything comes back, not how
  many steps that takes.
- The interleaving of workers inside `ChunkCopy`, which follows one worker at a
  time; interleavings are in `CopyProtocol` and `CopyPipeline`.
- Messages that arrive at the destination between a deletion pass's listing and
  its expunge.
- In-place slices other than the one in `Deletion.KeepInPlace`; they are
  sequences built by the same loops.
- Metadata batching of deduplication and its count of candidates that turned
  out different.
- The calendar: reading and printing a date are parameters. Only letters of
  ASCII change case.
- Error wording: errors are kinds, and the text a key was written in is dropped.
- Matching of header, body and text strings, MIME parsing and regular
  expressions, which are predicates or parameters; so is the table of folder
  names that suggest a role.
- SearchMeaning.CompileMeans: does not cover a star in a UID set, because what
  such a set contains is decided by the go-imap library, which is not part of
  this model; reading and printing the star are covered. Dates whose bound is
  the zero time are left to `SearchMeaning.DateMeansSameIff`.
- SearchMeaning.CompileAllMeans: the same two limits.
- SearchRoundTrip.AcceptedMeans: the same two limits.
- ExactlyOnce.ExactlyOnceAfterCompleteRun: a message of the source that is
  already on the destination, unrecorded, must not be left out by the selection;
  `ExactlyOnce.NeverTwiceFromEmpty` needs no such hypothesis.
- PoolGovernor.BurstIsOneRefusal: the refusals of a burst follow each other with
  no other step of the pool in between; what holds with any steps in between is
  `PoolTheorems.BurstNarrowsOnce`.
- LocalFolder.Folder.Claim: does not model the later write of the counter to
  the database, which happens outside the lock, nor the overflow of 32-bit UIDs.
- Files of the local store placed outside their own shard: numbered files are
  taken to be at their own path.
- Folder delimiters of more than one character.
- The final sorting of pairs and skips in a plan.
- Two processes sharing one database or one store.
