# HushOS: the transfer queue, the lists, the trash and the session, proved

A Dafny model of the hardest parts of HushOS's iPhone app and of the PNG writer of its browser suite, and proofs of what
they promise. `dafny verify dfyconfig.toml` checks all of it.

Code that changes things step by step between waits is modelled twice. A value-level step function (or a run over such
steps) says what one stretch between two `await`s does, and the promises are lemmas over every run of those steps, in
any order the app can take them. A class with the app's own fields does the same in place, and each of its methods is
proved equal to the step. The queue's class carries the run's queue with it: its `Valid()` ties every row to that and
says that all is in order, and one method per event keeps it. Whatever the app does not decide (answers, callbacks,
which account is signed in, what another process does) is an argument of a step or an event of a run.

What a step does is also said without its function, from the event and the fields as they were:
`TransferChanges.EveryStepMovesSo`, the lemmas of `FamilyChanges` and `HandoffChanges`,
`RemovalWipe.StoredChangesExactly`, `WalkChecks.RequestsChangeExactly` and their like. A step that skipped a part of what
the app does, and its method with it, would not verify against these.

| Module | What it models |
|---|---|
| `TransferModel`, `TransferRuns`, `TransferInvariants`, `TransferSteps`, `TransferSafety`, `TransferReasons`, `TransferFolders`, `TransferProgress`, `TransferLosses`, `TransferChanges`, `BackgroundTransfers` | the background transfer queue: records, sealed parts on disk, family seals off the pass, callbacks that come late or twice, cancels, retries, account switches, the account's data going from the phone, and the uploads the server began |
| `PumpSchedule` | when passes over the queue run |
| `Descriptions` | the names of session tasks and what is read back from them |
| `Handoff`, `HandoffChanges` | the share extension's uploads joining the queue and leaving it, the parts it notes, saves and kills at any point |
| `Families`, `FamilyChanges`, `DriveStores` | overlapping showings of families and listings of folders across sessions |
| `Forest`, `Moves`, `Restores`, `Purges` | ancestors, moves with Undo, restoring and purging batches of the trash |
| `RemovalWipe` | signing in while a removed phone is being wiped |
| `Walks`, `WalkChecks` | the walks of families' folders, and the check asked of iOS while the app is closed |
| `Polynomials`, `Crc32`, `Png`, `PngKnown` | the CRC of section 3.4 of RFC 2083 and the chunks of its section 3.2 |

## What the proofs found

Where a promise does not hold of the code, the code is kept as it is, a lemma says exactly when it holds, and another
gives a concrete input or run that shows the failure.

- Signing out, a removal and another account's sign-in take the whole queue's folder off the disk, while its records stay
  in memory until they are cancelled or dropped. `TransferSafety.BytesAreKept` and `Handoff.NoUploadIsLost` hold exactly
  until then (`TransferFolders.WipedExactly`, `Handoff.EndsExactly`); `TransferLosses.ASignOutTakesTheBytes` and
  `Handoff.ASignOutTakesANote` are runs. What it is for holds: once someone is signed in, no plaintext of another
  account's uploads is left (`TransferFolders.AnothersPlaintextIsGone`).
- The extension, resumed after the queue adopted its note, can still finish that upload itself and remove its folder. The
  record goes on sending with nothing left to send: `TransferLosses.TheExtensionLeavesARecordSending`.
- A record gone can come back: a family seal that fails late makes the folder again, the extension then releases its note
  into it, and the note is adopted. `TransferFolders.AGoneRecordReturnsExactly` says exactly when,
  `TransferLosses.AGoneRecordReturns` is a run in which a cancelled upload is back, as one the server aborted.
- A begun upload is lost when a cancel read its record before the upload came back and the record took it before the
  cancel's last step (`TransferLosses.ARacedCancelLosesAnUpload`, and `TransferLosses.ALaterRaceLosesItToo`, in which the
  record takes it after the cancel stopped the tasks), or when an own-drive seal comes back to a record already cancelled
  (`TransferLosses.ACancelledOwnSealLosesItsUpload`). `TransferReasons.CancelLosesOnlyWhatItDidNotRead` and
  `TransferReasons.ALateSealLosesExactly` are the exact conditions.
- A cancel frees its record's place among the family seals while the seal is still out, so a pass can begin a second one,
  and the first one's end a third. Their uploads can then replace each other while fresh addresses are awaited, and the
  record is finished with an ETag of another upload: `TransferLosses.ACancelledFamilyUploadMixesItsSeals`. Before a
  cancel, and in the own drive even then, `TransferSafety.FinishingIsComplete` excludes it.
- A callback whose description names no upload skips the stale-upload filter: `TransferSafety.UnnamedCallback` says
  exactly when its ETag is in order, and `TransferSafety.AStaleUnnamedCallbackIsKept` gives one that is not. The comment
  at BackgroundTransfers.swift:788 says that Save to HushOS's parts name only two fields, but ShareHandoff.swift:170
  writes three, so such descriptions are only those of older versions.
- The parts the extension noted are taken off the disk before the records are saved. A kill loses one exactly when it
  falls between the two: `Handoff.AKillLosesExactly`, with the run in `Handoff.ATakenPartIsLost`.
- A join that finds no list naming its family is published without a showing (Families.swift:282-284): what was drawn
  before stays, whatever the new state says, with nothing under way. `Families.AgreementNeedsAShowing` says exactly when
  what is drawn agrees; `Families.AJoinIsPublishedUnshown` is a run in which it does not.
- A clear of a family is undone by a listing that did not know its folder was the family's as it began:
  `Families.OnlyAnUnknowingListingUndoesAClear`, with the run in `Families.AnUnknowingListingUndoesAClear`.
- A restored row can end under the trash when its only trashed folders are above where its chain is cut: a folder this
  phone does not hold, or 256 folders up. `Restores.AloneIsLiveExactly` and, for a row of any batch,
  `Restores.BatchRowIsLiveExactly` say exactly when; `Restores.AnUnheldFolderHidesTheTrash` and
  `Restores.ADeepRestoreEndsUnderTheTrash` are inputs. The server nests folders 64 deep (packages/db/src/drive.ts:80), so
  only what is not held decides: `Restores.SeesAllWithinTheServersDepth`.
- The phone's own check lets a paste through that would make a cycle when the pasted folder is above where the check
  stops, or where a listing is not loaded or stale: `Moves.AllowedPasteKeepsAForest`, `Moves.ADeepPasteMakesACycle` (deeper
  than the server nests), `Moves.AnUnlistedPasteMakesACycle`. The server walks up again and refuses it
  (packages/db/src/drive.ts:1065-1069): `Moves.AgreedMovesKeepAForest`.
- Undo would leave a moved item that had no parent where it was moved to: `Moves.UndoRestores` is an equivalence,
  `Moves.UndoLeavesAnItemWithoutAParent` the input. Only a top folder has no parent (packages/db/src/schema/drive.ts:39),
  and the server moves none (packages/db/src/drive.ts:1054), so with it an Undo restores:
  `Moves.UndoRestoresAsTheServerMoves`.
- Emptying the trash means to take the rows inside a purged folder off the screen with it. By then the vault holds that
  folder no more (Vault+Writes.swift:422-428), so no row finds it above itself, and only the folder's own row leaves:
  `Purges.Trash.Gone`. The list is put right once the server says nothing is left, or at the refresh after.
- `discardEarlierVersions` says that all earlier versions are gone as soon as no request failed, even if a batch moved
  nothing and some are left; its comment says "until none are left". `Purges.StopsWithSomeLeft` says exactly when, and
  `Purges.NothingMovedSomeLeft` is such a server.
- A removal's wipe takes a later sign-in's session when two questions are out together, when the sign-in was already
  under way as the question was sent, or when another process stores the session (the three lemmas after
  `RemovalWipe.WipeTakesNoLaterSignIn`). The screens ask one question at a time (MainView.swift:168-178), which the
  state machine itself does not ensure.
- The end of a background pass of a session that is over still counts towards the attempts of the session there is now
  (`WalkChecks.AStalePassMovesTheAttempts`), and makes its next check wait longer: `WalkChecks.AStalePassDelaysTheNext`.

## Remarks

Five lemmas only read one guard or branch of a step back, for use beside the results below:
`TransferSafety.PassDropsOthers` (what a pass that begins drops), `Handoff.OnlyAKillLoses` (no other step loses a part),
`Families.WalksStartForTheLatest` (walks start only for the latest publication), `RemovalWipe.WipesOnlyTheAskedAccount`
(the guards of a wipe) and `WalkChecks.AStalePassMovesTheAttempts` (the attempts after a pass that is over).

## Model

| member | source | states |
|---|---|---|
| TransferSafety.BytesAreKept | apps/ios/App/BackgroundTransfers.swift:370-459 | in every run, an upload waiting, sending or finishing has its plaintext, or every part as an ETag or as its sealed file, exactly until its folder is taken by a wipe or the extension's own finish; then exactly if every part has its ETag; in the own drive under a cancel too |
| TransferSafety.EmptiedOnlyAtTheEnd | apps/ios/Packages/HushOSKit/Sources/HushOSKit/FamilyUploads.swift:119-240 | otherwise a folder goes before its step is applied only for an upload the server completed or a family the account left |
| TransferSafety.EtagsAreOfTheCurrentUpload | apps/ios/App/BackgroundTransfers.swift:481-540 | in every run, each ETag kept was returned for that part of the upload the record has now, late callbacks of a replaced upload included; in the own drive under a cancel too |
| TransferSafety.FinishingIsComplete | apps/ios/App/BackgroundTransfers.swift:535-536 | though only counts are compared, a finishing record has exactly the parts 1 to n, or the chunks 0 to n-1, with their files unless the account's data went; in the own drive under a cancel too |
| TransferReasons.EveryUploadIsAccountedFor | apps/ios/App/BackgroundTransfers.swift:234-251 | every upload ever begun is held by the one record it was begun for, on its way to it, aborted under its account, landed, or lost at a step whose own circumstances are the reason |
| TransferReasons.LostOnlyForItsReason | apps/ios/App/BackgroundTransfers.swift:701-728 | lost to another account only while its owner is not signed in (then, or as its cancel's tasks were stopped), to a family's end only as that family ends, to an own seal only without a record, to a race only held by the record until a step that replaces or drops its upload, once cancelled or back |
| TransferReasons.UndisturbedLosesNothing | apps/ios/App/BackgroundTransfers.swift:301-356 | with one account all along, no family ended, no cancel of it and no return of its record, nothing of a transfer is lost |
| TransferReasons.UndisturbedUploadsStay | apps/ios/App/BackgroundTransfers.swift:301-356 | then every upload begun for it is held, on its way, aborted or landed |
| TransferSafety.TasksGoUnderTheirOwner | apps/ios/App/BackgroundTransfers.swift:619-622 | nothing is handed to the session but under the account its record belongs to |
| TransferFolders.AGoneRecordReturnsExactly | apps/ios/App/BackgroundTransfers.swift:515-521 | a record gone comes back exactly by adopting its note, and can be adopted exactly when its folder was made again since, a note released into it, and its account is signed in; nothing is handed over meanwhile |
| TransferFolders.NoteOfTheGoneExactly | apps/ios/Packages/HushOSKit/Sources/HushOSKit/ShareHandoff.swift:152-155 | a record gone has a note exactly when its folder was made again and a note released into it since |
| TransferFolders.FolderOfTheGoneExactly | apps/ios/Packages/HushOSKit/Sources/HushOSKit/Vault+Writes.swift:798-801 | its folder is there exactly when some step made it again since it went, and none removed it |
| TransferFolders.WipedExactly | apps/ios/Packages/HushOSKit/Sources/HushOSKit/AccountStore.swift:72-128 | a transfer lost its folder with an account's data exactly when some step took the data while it was queued |
| TransferFolders.EndedExactly | apps/ios/Share/SaveModel.swift:287-306 | it lost its folder to the extension exactly when that finished its upload |
| TransferFolders.AnothersPlaintextIsGone | apps/ios/Packages/HushOSKit/Sources/HushOSKit/AccountStore.swift:72-84 | once someone is signed in, no plaintext and no sealed part of another account's uploads is on the phone |
| TransferReasons.CancelLosesOnlyWhatItDidNotRead | apps/ios/App/BackgroundTransfers.swift:235-251 | in any run, a cancel's last step loses exactly what the record then holds, if neither aborted nor landed; if its tasks were stopped under its own account, never the upload it read |
| TransferReasons.ALateSealLosesExactly | apps/ios/App/BackgroundTransfers.swift:370-383 | an own-drive seal that comes back loses its upload exactly when its record is gone |
| TransferSafety.UnnamedCallback | apps/ios/App/BackgroundTransfers.swift:520-526 | exactly when a callback naming no upload keeps the ETags in order |
| TransferSafety.AStaleUnnamedCallbackIsKept | apps/ios/App/BackgroundTransfers.swift:520-526 | one with a stale ETag is kept for the new upload's |
| TransferSafety.NextKeeps | apps/ios/App/BackgroundTransfers.swift:301-356 | every step of the queue keeps every transfer sound, one pass waiting for at most one thing, and no upload begun for two transfers |
| TransferSteps.JobDoneKeeps | apps/ios/App/BackgroundTransfers.swift:397-459 | applying what a family seal or finish came to keeps the ledger of uploads and the bytes |
| TransferSteps.FinishedKeeps | apps/ios/App/BackgroundTransfers.swift:515-556 | any callback of any task ever handed over keeps them |
| TransferSteps.VisitKeeps | apps/ios/App/BackgroundTransfers.swift:314-345 | a record's turn in a pass keeps them |
| TransferSteps.EndFamilyKeeps | apps/ios/App/BackgroundTransfers.swift:804-820 | a family ending keeps them |
| TransferProgress.UndisturbedUploadsEndDone | apps/ios/App/BackgroundTransfers.swift:301-356 | whatever order its parts land in, and however often, an own-drive upload waits for its completion exactly when all landed, and ends done, its upload completed, its folder gone |
| TransferProgress.FinishesExactly | apps/ios/App/BackgroundTransfers.swift:522-538 | after landings in any order a sending upload is finishing exactly when every part had its ETag or landed |
| TransferProgress.NothingIsLeftOut | apps/ios/App/BackgroundTransfers.swift:480-505 | after a hand-over each piece landed, has no address, or is with the session |
| TransferProgress.SealedIsHanded | apps/ios/App/BackgroundTransfers.swift:381-382 | every part of a freshly sealed upload is handed over |
| TransferProgress.CancelledAtOnce | apps/ios/App/BackgroundTransfers.swift:234-251 | a cancel with nothing in between takes the record and its folder and has its upload aborted |
| TransferLosses.ARacedCancelLosesAnUpload | apps/ios/App/BackgroundTransfers.swift:391-416 | a run in which a cancel loses the upload of a family seal that came back meanwhile |
| TransferLosses.ACancelledOwnSealLosesItsUpload | apps/ios/App/BackgroundTransfers.swift:370-383 | a run in which an own-drive seal comes back to no record and its upload stays begun |
| TransferLosses.ACancelledFamilyUploadMixesItsSeals | apps/ios/App/BackgroundTransfers.swift:391-428 | a run in which three seals of a cancelled family record overlap and it is finished with another upload's ETag |
| TransferLosses.ALaterRaceLosesItToo | apps/ios/App/BackgroundTransfers.swift:235-251 | a run in which the record takes an upload after its cancel stopped the tasks, and loses it |
| TransferLosses.ASignOutTakesTheBytes | apps/ios/Packages/HushOSKit/Sources/HushOSKit/AccountStore.swift:104-128 | a run in which a waiting upload's plaintext goes with the account's data |
| TransferLosses.TheExtensionLeavesARecordSending | apps/ios/Share/SaveModel.swift:287-306 | a run in which an adopted upload is finished by the extension, its record still sending |
| TransferLosses.AGoneRecordReturns | apps/ios/App/BackgroundTransfers.swift:515-521 | a run in which a cancelled upload is adopted again, as one the server aborted |
| TransferChanges.EveryStepMovesSo | apps/ios/App/BackgroundTransfers.swift:314-556 | every step of a transfer, each field told from the event and the transfer as it was: when its record changes state, counts, takes or lets go of an upload, which files go or come, which upload is asked to abort or complete, what is handed over, and that nothing else changes |
| TransferChanges.APassingFailureOnlyCounts | apps/ios/App/BackgroundTransfers.swift:701-707 | in any run a failure that passes leaves the record, its files and what was asked as they were, and only counts; a job brings the upload it worked on |
| TransferChanges.AFinalFailureEndsIt | apps/ios/App/BackgroundTransfers.swift:708-728 | a final one fails the record, of its files only the plaintext stays, and its upload is asked to abort exactly if its owner is signed in |
| TransferChanges.QueuedAsAWaitingRecord | apps/ios/App/BackgroundTransfers.swift:157-176 | what is queued waits, for the account signed in, with its plaintext if it could be copied |
| TransferChanges.AdoptedAsTheNoteSays | apps/ios/App/BackgroundTransfers.swift:597-610 | a note adopted goes on from the parts that landed, finished next exactly if they are as many as the upload has |
| TransferChanges.AFamilyEndFailsItsUploads | apps/ios/App/BackgroundTransfers.swift:809-820 | a family that ended fails each active upload of it and stops its work, its files go, nothing is asked of the server, and no other transfer changes |
| TransferChanges.AWipeTakesEveryFolder | apps/ios/Packages/HushOSKit/Sources/HushOSKit/AccountStore.swift:111-128 | the account's data takes every folder, whole, and changes no record |
| TransferChanges.APassDropsOthers | apps/ios/App/BackgroundTransfers.swift:630-653 | a pass that begins takes each record of another account than the one signed in, with its files and unasked, and no other |
| TransferChanges.AccountsMoveSo | apps/ios/Packages/HushOSKit/Sources/HushOSKit/AccountStore.swift:72-84 | another account's sign-in takes the session before its data; nothing else changes whose data it is |
| BackgroundTransfers.QueuedTransfer.Start | apps/ios/App/BackgroundTransfers.swift:480-505 | hands over exactly the pieces not landed, not expired, addressed and not with the session |
| BackgroundTransfers.QueuedTransfer.Fail | apps/ios/App/BackgroundTransfers.swift:701-728 | the method is the step of a failure, whose two ends `TransferChanges.APassingFailureOnlyCounts` and `TransferChanges.AFinalFailureEndsIt` say field by field |
| BackgroundTransfers.QueuedTransfer.Land | apps/ios/App/BackgroundTransfers.swift:681-691 | done, its folder gone |
| BackgroundTransfers.QueuedTransfer.TakeLanded | apps/ios/App/BackgroundTransfers.swift:655-663 | the parts the extension saw land join, an ETag already there stays |
| BackgroundTransfers.QueuedTransfer.DropOther | apps/ios/App/BackgroundTransfers.swift:630-653 | another account's record goes with its folder |
| BackgroundTransfers.QueuedTransfer.Visit | apps/ios/App/BackgroundTransfers.swift:314-345 | one record's turn in a pass, to its first wait |
| BackgroundTransfers.QueuedTransfer.SealDone | apps/ios/App/BackgroundTransfers.swift:370-383 | a sealed upload's plaintext goes and its parts are handed over |
| BackgroundTransfers.QueuedTransfer.PlanDone | apps/ios/App/BackgroundTransfers.swift:461-467 | a planned keep's chunks are handed over |
| BackgroundTransfers.QueuedTransfer.RefreshDone | apps/ios/App/BackgroundTransfers.swift:469-478 | new addresses replace the expired ones of the upload that was read |
| BackgroundTransfers.QueuedTransfer.Apply | apps/ios/App/BackgroundTransfers.swift:432-459 | what a family upload's step means for its row |
| BackgroundTransfers.QueuedTransfer.JobDone | apps/ios/App/BackgroundTransfers.swift:408-428 | a seal or finish that ended is applied, or what it began is aborted |
| BackgroundTransfers.QueuedTransfer.Finished | apps/ios/App/BackgroundTransfers.swift:515-540 | a callback lands its piece, is retried, or is dropped as another upload's |
| BackgroundTransfers.QueuedTransfer.RetryPiece | apps/ios/App/BackgroundTransfers.swift:542-556 | an expired address is noted; anything else counts and goes again, up to 30 times |
| BackgroundTransfers.QueuedTransfer.CancelBegin | apps/ios/App/BackgroundTransfers.swift:235-238 | a cancel reads its record and stops its seal, before it waits |
| BackgroundTransfers.QueuedTransfer.CancelDiscard | apps/ios/App/BackgroundTransfers.swift:240-246 | then has the upload it read aborted, under its own account only |
| BackgroundTransfers.QueuedTransfer.CancelEnd | apps/ios/App/BackgroundTransfers.swift:247-250 | then takes the record and its folder |
| BackgroundTransfers.QueuedTransfer.Retry | apps/ios/App/BackgroundTransfers.swift:747-755 | a failed upload that kept its file waits again, without its upload and ETags |
| BackgroundTransfers.QueuedTransfer.EndFamily | apps/ios/App/BackgroundTransfers.swift:809-820 | an active upload of that family fails and its folder goes |
| BackgroundTransfers.TransferQueue.DropOthers | apps/ios/App/BackgroundTransfers.swift:630-640 | every row is as the drop of others leaves it |
| BackgroundTransfers.TransferQueue.Step | apps/ios/App/BackgroundTransfers.swift:314-345 | any step of any row, whenever it can happen, moves the whole queue as the run does and keeps it in order |
| BackgroundTransfers.TransferQueue.BeginPass | apps/ios/App/BackgroundTransfers.swift:301-313 | a pass that may begin drops the others' rows; the queue stays in order |
| BackgroundTransfers.TransferQueue.EndFamily | apps/ios/App/BackgroundTransfers.swift:809-820 | the loop ends every active upload of the family and no other; the queue stays in order |
| BackgroundTransfers.TransferQueue.Adopt | apps/ios/App/BackgroundTransfers.swift:597-610 | a note with no record joins, or brings its record back; the queue stays in order |
| BackgroundTransfers.TransferQueue.Claim | apps/ios/Packages/HushOSKit/Sources/HushOSKit/AccountStore.swift:79-84 | another account's session and folders go before a sign-in, its own stay; the queue stays in order |
| BackgroundTransfers.TransferQueue.Wipe | apps/ios/Packages/HushOSKit/Sources/HushOSKit/AccountStore.swift:111-128 | every folder goes at once, the rows stay in memory; the queue stays in order |
| BackgroundTransfers.TransferQueue.HasSlot | apps/ios/App/BackgroundTransfers.swift:391-394 | a place among the seals is free exactly when fewer rows than allowed hold one |
| PumpSchedule.AtMostOnePass | apps/ios/App/BackgroundTransfers.swift:301-308 | one pass at most, and a call not yet served has a pass to follow or a task waiting |
| PumpSchedule.NoCallIsLost | apps/ios/App/BackgroundTransfers.swift:301-308 | at any time after a call, a pass began after it, one runs that another follows, or a task waits that will call again |
| PumpSchedule.QuietMeansServed | apps/ios/App/BackgroundTransfers.swift:301-308 | once nothing runs or waits, a pass began after every call |
| PumpSchedule.PassesMoveExactly | apps/ios/App/BackgroundTransfers.swift:301-308 | a pass begins with exactly the calls that find none running, and one that ends is followed by another exactly when a call came during it |
| PumpSchedule.Pump.Begin | apps/ios/App/BackgroundTransfers.swift:302-304 | a call begins a pass, or asks for another |
| PumpSchedule.Pump.End | apps/ios/App/BackgroundTransfers.swift:305-308 | a pass's end makes a task exactly when one was asked for |
| Descriptions.PrintedIsRead | apps/ios/App/BackgroundTransfers.swift:790-795 | a number printed in decimal is read back, if it fits in 64 bits |
| Descriptions.SignedIsRead | apps/ios/App/BackgroundTransfers.swift:795 | a sign is read with its digits, down to -2^63 and up to 2^63 - 1 |
| Descriptions.OnlyIntegersAreRead | apps/ios/App/BackgroundTransfers.swift:795 | nothing but digits after at most one sign is read as a piece |
| Descriptions.EitherCaseIsRead | apps/ios/App/BackgroundTransfers.swift:795 | an identifier is read exactly in its 36-character form, in either case, and comes out in upper case |
| Descriptions.SplitsAtEveryBar | apps/ios/App/BackgroundTransfers.swift:794 | a description is split at every bar, empty fields left out |
| Descriptions.ShortRoundTrip | apps/ios/App/BackgroundTransfers.swift:789-802 | a two-field description reads back as it was written |
| Descriptions.RoundTrip | apps/ios/App/BackgroundTransfers.swift:789-802 | a three-field one does exactly when the upload id is not empty and has no bar |
| Descriptions.DescribesApart | apps/ios/App/BackgroundTransfers.swift:789-791 | two tasks share a description only for one piece of one upload of one record |
| Descriptions.PrefixPicksTheRecord | apps/ios/App/BackgroundTransfers.swift:238 | the prefix test picks exactly that record's tasks |
| Handoff.NothingIsLost | apps/ios/App/BackgroundTransfers.swift:655-663 | at any moment each part the extension noted, of an upload still wanted, is in its file or in the records in memory, unless a kill lost it |
| Handoff.NoUploadIsLost | apps/ios/App/BackgroundTransfers.swift:571-617 | killed at any moment, each handed-over upload still waited for is in the saved records or in its note, and none has two records |
| Handoff.EndsExactly | apps/ios/Packages/HushOSKit/Sources/HushOSKit/AccountStore.swift:104-128 | an upload stops being waited for exactly when its note is dropped for another account, it is seen through or sealed again, or the account's data goes |
| Handoff.ASignOutTakesANote | apps/ios/Packages/HushOSKit/Sources/HushOSKit/AccountStore.swift:104-128 | a run in which a note not adopted yet goes at sign-out, with nothing left of the upload |
| Handoff.AKillLosesExactly | apps/ios/App/BackgroundTransfers.swift:655-663 | a kill loses a noted part exactly when its file was taken before it, unrecorded, and no save worked in between |
| Handoff.ATakenPartIsLost | apps/ios/App/BackgroundTransfers.swift:311-354 | a run in which it does |
| Handoff.SavedStays | apps/ios/App/BackgroundTransfers.swift:771-776 | a part in the saved records outlives every step while its upload is wanted |
| Handoff.UnsavedExactly | apps/ios/App/BackgroundTransfers.swift:354 | the parts taken and not recorded are those taken since the last save or kill |
| Handoff.RecordsAreTheServers | apps/ios/Packages/HushOSKit/Sources/HushOSKit/ShareHandoff.swift:205-221 | each ETag recorded, saved or in memory, is one the server returned for that part of that upload |
| Handoff.DroppedForAnotherAccount | apps/ios/App/BackgroundTransfers.swift:587-596 | a note is dropped by adopting only while another account is signed in |
| Handoff.AdoptingAgainAddsNothing | apps/ios/App/BackgroundTransfers.swift:585-586 | adopting again changes no record and only lets go of the notes |
| Handoff.OwnNotesJoin | apps/ios/App/BackgroundTransfers.swift:584-610 | after adopting, the records are those there were and exactly the notes' of the account signed in |
| HandoffChanges.AdoptionIs | apps/ios/App/BackgroundTransfers.swift:584-617 | whatever the order the notes are found in: one with a record is only let go of, one of the account signed in becomes a record with exactly the parts noted so far and is let go of with their files, one of another account goes at once with its folder, and with nobody signed in all wait |
| HandoffChanges.NotesMoveSo | apps/ios/Packages/HushOSKit/Sources/HushOSKit/ShareHandoff.swift:152-228 | a note is written, goes once its record is saved, or goes with its folder or the data, and in no other way |
| HandoffChanges.FilesMoveSo | apps/ios/Packages/HushOSKit/Sources/HushOSKit/ShareHandoff.swift:186-228 | a part's file is written as it lands, goes when it is taken for its own upload, once its record is saved, or with its folder or the data, and in no other way |
| HandoffChanges.SavedMovesSo | apps/ios/App/BackgroundTransfers.swift:771-776 | the records on disk are those in memory at the last write that worked, until the data goes |
| HandoffChanges.TakingJoins | apps/ios/App/BackgroundTransfers.swift:655-663 | a taking adds exactly the parts whose files are there and were not recorded |
| HandoffChanges.PhaseMovesSo | apps/ios/App/BackgroundTransfers.swift:612-614 | notes and files go only after the records were written, and not at all if that failed |
| Handoff.NextKeeps | apps/ios/Packages/HushOSKit/Sources/HushOSKit/ShareHandoff.swift:186-228 | every note, taking, save, removal, kill, sweep, wipe, end and new seal keeps each wanted upload and ETag somewhere |
| Handoff.Adopter.Adopt | apps/ios/App/BackgroundTransfers.swift:584-610 | the loop over the notes is what adopting them one by one comes to |
| Families.OlderShowingChangesNothing | apps/ios/App/Families.swift:312-382 | once a later publication of a family exists, an older showing's steps only learn areas |
| Families.QuietFamiliesAgree | apps/ios/App/Families.swift:318-382 | with no showing of a family under way, its last publication was applied and what is drawn agrees with it; or it was no answer, a refusal with no known area, cut short, or came with no showing and left what was drawn |
| Families.AgreementNeedsAShowing | apps/ios/App/Families.swift:273-287 | exactly when what is drawn agrees: it came with a showing or a removal, or happened to say what was drawn |
| Families.FatesComeFrom | apps/ios/App/Families.swift:318-382 | each of those ends comes only from its own branch: no known area only if the family's areas are unknown then, cut short only without the areas' answer or by the session's end |
| Families.FateWasGiven | apps/ios/App/Families.swift:318-382 | and from a step of the run, with no publication of the family since |
| Families.AJoinIsPublishedUnshown | apps/ios/App/Families.swift:282-285 | a run in which what is drawn is not what was published last, with nothing under way |
| Families.WritesAreInOrderOfBeginning | apps/ios/Packages/HushOSKit/Sources/HushOSKit/SessionGate.swift:123-140 | for each folder, the tickets of the listings written strictly increase |
| Families.NoListingUndoesAClear | apps/ios/Packages/HushOSKit/Sources/HushOSKit/SessionGate.swift:222-251 | a listing that knew its folder's family writes nothing once that family was cleared |
| Families.EndedSessionsWriteNothing | apps/ios/App/DriveStore.swift:853-912 | nothing begun in a session writes rows once that session ended |
| Families.LandsExactly | apps/ios/App/DriveStore.swift:876-887 | from begin to answer, exactly when a listing lands: its session stands, its family was not cleared and is open, and none begun later was shown |
| Families.OnlyAnUnknowingListingUndoesAClear | apps/ios/App/DriveStore.swift:876-887 | over any run, exactly which listing out as its family was cleared puts its rows back |
| Families.AnUnknowingListingUndoesAClear | apps/ios/App/DriveStore.swift:876-887 | a run in which one does |
| DriveStores.DriveStore.PublishFamily | apps/ios/App/Families.swift:306-311 | the method is the step of a publication; what it admits is `FamilyChanges.PublishedExactly` |
| DriveStores.DriveStore.ShowState | apps/ios/App/Families.swift:318-321 | a showing to its first wait |
| DriveStores.DriveStore.ShowAreas | apps/ios/App/Families.swift:330-332 | the areas are in hand, or the showing ends; nothing is learned before the next wait |
| DriveStores.DriveStore.ShowEvicted | apps/ios/App/Families.swift:333-381 | areas are learned whoever shows the family now; then the view is shown, or the family cleared, or nothing, if it is still the latest |
| DriveStores.DriveStore.ShowIt | apps/ios/App/Families.swift:341-381 | the three ends of a showing still the latest |
| DriveStores.DriveStore.Joined | apps/ios/App/Families.swift:281-285 | a join no list names is published and not shown |
| DriveStores.DriveStore.ShowDetail | apps/ios/App/Families.swift:352-353 | the detail is drawn if it is still the latest |
| DriveStores.DriveStore.ShowRelisted | apps/ios/App/Families.swift:358-371 | folders listed again one by one, then the walks |
| DriveStores.DriveStore.ClearFamily | apps/ios/App/Families.swift:418-452 | the method is the step of a clear; what leaves the screen is `FamilyChanges.ClearedFamiliesAreOff` |
| DriveStores.DriveStore.Removed | apps/ios/App/Families.swift:389-412 | a removal is published as the latest now and cleared at once |
| DriveStores.DriveStore.ResetFamilies | apps/ios/App/Families.swift:86-123 | every publication moves on, what is drawn goes, which folders are families' stays |
| DriveStores.DriveStore.List | apps/ios/App/DriveStore.swift:514-516 | a listing takes its ticket and its family's mark |
| DriveStores.DriveStore.Listed | apps/ios/App/DriveStore.swift:884-925 | an answer lands under its session, its family and its ticket, or not at all |
| FamilyChanges.PublishedExactly | apps/ios/App/Families.swift:289-311 | over any run, an answer with a revision is published exactly when its session stands and no look as late was published of its family since the last reset; one without, whenever its session stands; a removal always; else nothing changes |
| FamilyChanges.NumbersIncrease | apps/ios/Packages/HushOSKit/Sources/HushOSKit/FamilyCheck.swift:264-278 | the numbered answers of a family published in one session strictly increase |
| FamilyChanges.StatesChangeOnlySo | apps/ios/App/Families.swift:306-311 | no other step but a session's end changes a family's state |
| FamilyChanges.ClearedFamiliesAreOff | apps/ios/App/Families.swift:418-452 | after a removal, or a refusal still the latest, of a family with a known area none of its folders is on screen, and every other folder keeps its rows and its ticket |
| FamilyChanges.ViewsChangeExactly | apps/ios/App/Families.swift:341-381 | which steps draw or take a family's view, and that no other does |
| FamilyChanges.DetailsChangeExactly | apps/ios/App/Families.swift:352-353 | the same of its detail |
| FamilyChanges.AreasAreLearnedExactly | apps/ios/App/Families.swift:330-336 | areas are learned by a showing's second wait, and never forgotten |
| FamilyChanges.RowsChangeExactly | apps/ios/App/DriveStore.swift:853-925 | which steps write a folder's rows or take them off, and that no other does |
| FamilyChanges.ShowingsGoOnExactly | apps/ios/App/Families.swift:318-382 | where each showing under way waits next, and when it ends |
| FamilyChanges.ResetLeavesNothingDrawn | apps/ios/App/Families.swift:86-123 | a session's end leaves nothing drawn and no revision to be later than |
| Forest.ForestIffNoneAboveItself | apps/ios/App/DriveStore.swift:1745-1754 | every walk up ends exactly when no folder is above itself |
| Forest.MovedForest | apps/ios/App/DriveStore.swift:1888-1898 | items moved into a folder leave a forest exactly when none is that folder or above it |
| Forest.ChainIsWhole | apps/ios/App/DriveStore.swift:1745-1754 | a chain shorter than the cap, all of it held, is all that is above |
| Forest.ChainExactly | apps/ios/App/DriveStore.swift:1745-1754 | a chain is the walk up, each folder of it held, as far as the cap, a top folder or the first folder not held |
| Forest.Ancestors | apps/ios/App/DriveStore.swift:1745-1754 | the capped loop walks the chain |
| Moves.MovesKeepAForest | apps/ios/App/DriveStore.swift:1616-1635 | several moves, some refused, keep a forest exactly when no moved item is the folder or above it |
| Moves.AgreedMovesKeepAForest | packages/db/src/drive.ts:1065-1069 | whatever the phone let through, moves the server agrees to one by one keep a forest |
| Moves.AllowedPasteKeepsAForest | apps/ios/App/DriveStore.swift:1111-1119 | whatever the listings tell, an allowed paste keeps a forest exactly when no pasted folder is beyond the check's reach or on a part of the walk not listed as it is |
| Moves.PasteWithinReach | apps/ios/App/DriveStore.swift:1888-1905 | with the folder's own walk within reach and listed as it is, it always does |
| Moves.ADeepPasteMakesACycle | apps/ios/App/DriveStore.swift:1888-1898 | the phone allows a paste of the first of 300 nested folders into the last, which makes a cycle if it is moved |
| Moves.TheLastAreSeen | apps/ios/App/DriveStore.swift:1888-1898 | on that line the check sees exactly the last 256 folders |
| Moves.AnUnlistedPasteMakesACycle | apps/ios/App/DriveStore.swift:1888-1898 | so is one into a folder whose parent's listing is not loaded |
| Moves.UndoRestores | apps/ios/App/DriveStore.swift:1644-1652 | an Undo gives the folders back exactly when every moved item had a parent |
| Moves.UndoLeavesAnItemWithoutAParent | apps/ios/App/DriveStore.swift:1644-1652 | an item with no parent, if its move were agreed to, stays where it was moved |
| Moves.UndoRestoresAsTheServerMoves | packages/db/src/drive.ts:1054 | as the server moves nothing without a parent, an Undo it agrees to gives the folders back |
| Moves.UndoChangesNoOther | apps/ios/App/DriveStore.swift:1644-1652 | at any point of an Undo each item is back, still in the folder, or was never moved |
| Moves.UndoKeepsAForest | apps/ios/App/DriveStore.swift:1644-1652 | at no point of an Undo is a folder inside itself, one moved item inside another included |
| Moves.MovedAre | apps/ios/App/DriveStore.swift:1616-1635 | said to have moved are, in order, exactly the items that were elsewhere and whose move the server agreed to |
| Moves.Drive.Descends | apps/ios/App/DriveStore.swift:1889-1898 | true exactly when the ancestor is among the first 256 of the walk |
| Moves.Drive.PasteProblem | apps/ios/App/DriveStore.swift:1901-1905 | each of its answers, exactly |
| Moves.Drive.Move | apps/ios/App/DriveStore.swift:1616-1625 | the loop moves what is elsewhere, as the server agrees, and says which moved |
| Moves.Drive.Paste | apps/ios/App/DriveStore.swift:1111-1121 | a cut goes in only if allowed, and empties the clipboard |
| Moves.Drive.Undo | apps/ios/App/DriveStore.swift:1648-1651 | each moved item goes back where it was picked |
| Restores.RestoredRowsAreLive | apps/ios/App/DriveStore.swift:1761-1783 | whichever restores fail or go unanswered, no restored row is in the trash or under it |
| Restores.BatchKeepsAForest | apps/ios/App/DriveStore.swift:1771-1783 | no batch puts a folder inside itself |
| Restores.SeesAll | apps/ios/App/DriveStore.swift:1745-1754 | when the phone sees every trashed folder above a row |
| Restores.SeesAllWithinTheServersDepth | packages/db/src/drive.ts:80 | as deep as the server nests folders, what is held decides alone |
| Restores.AloneIsLiveExactly | apps/ios/App/DriveStore.swift:1772-1774 | exactly when one row restored alone ends live |
| Restores.BatchRowIsLiveExactly | apps/ios/App/DriveStore.swift:1761-1783 | exactly when a row of any batch, whatever failed, ends live: no folder that stays in the trash is above it with none of the rows that went to the top on the way |
| Restores.AnUnheldFolderHidesTheTrash | apps/ios/App/DriveStore.swift:1745-1754 | a row in a trashed folder this phone does not hold, restored alone, ends under the trash |
| Restores.ADeepRestoreEndsUnderTheTrash | apps/ios/App/DriveStore.swift:1745-1754 | the last of 300 nested folders, restored alone under a trashed first one, ends under the trash |
| Restores.TheNearestAreOnAChain | apps/ios/App/DriveStore.swift:1745-1754 | on that line a chain has exactly the nearest 256 folders |
| Restores.GoesHomeExactly | apps/ios/App/DriveStore.swift:1764-1773 | shallowest first, a row goes home exactly when all the trash seen above it comes back in this batch |
| Restores.TreesComeBackWhole | apps/ios/App/DriveStore.swift:1756-1760 | what was trashed together comes back with every row in its own folder |
| Restores.NoneIsUntold | apps/ios/App/DriveStore.swift:1776-1787 | each row picked is told of as failed or as back |
| Restores.FailedAre | apps/ios/App/DriveStore.swift:1776-1787 | told as failed are, in order, exactly the rows refused or not answered |
| Restores.ToppedAre | apps/ios/App/DriveStore.swift:1771-1783 | told as moved to the top are, in order, exactly the rows back before all of the trash seen above them was |
| Restores.Drive.Sorted | apps/ios/App/DriveStore.swift:1764 | the same rows, shallowest first |
| Restores.Drive.IsHome | apps/ios/App/DriveStore.swift:1772-1773 | true exactly when all the trash seen above is back |
| Restores.Drive.RestoreMany | apps/ios/App/DriveStore.swift:1761-1783 | the loop is the batch: the files, the list, the failures and the rows moved to the top |
| Purges.TopsCoverThePicked | apps/ios/App/DriveStore.swift:1799-1803 | the tops' subtrees are together the picked rows' |
| Purges.TopsAreApartExactly | apps/ios/App/DriveStore.swift:1801-1803 | no top is inside another exactly when every picked row inside another sees one |
| Purges.WithinReach | apps/ios/App/DriveStore.swift:1745-1754 | within the chain's reach it does |
| Purges.OneTopAtMost | apps/ios/App/DriveStore.swift:1801-1803 | nothing is in two tops' subtrees |
| Purges.AllPickedGo | apps/ios/App/DriveStore.swift:1806-1810 | purging the tops removes exactly what the picked rows hold |
| Purges.EachTopIsThereInItsTurn | apps/ios/App/DriveStore.swift:1806-1810 | nothing is asked for twice, whatever was refused before |
| Purges.Trash.TopsOf | apps/ios/App/DriveStore.swift:1800-1803 | the entries with no picked row above, in their order |
| Purges.StayingAre | apps/ios/App/DriveStore.swift:1806-1815 | the rows that stay are, in order, exactly those not gone |
| Purges.Trash.PurgeMany | apps/ios/App/DriveStore.swift:1799-1815 | the tops one by one: those agreed to go from the server, from what is held and from the list, whose other rows keep their order; the others are counted |
| Purges.Trash.Gone | apps/ios/App/DriveStore.swift:1838-1843 | what leaves the screen with a purged top is that top alone |
| Purges.Trash.Batches | apps/ios/App/DriveStore.swift:1850-1856 | the server's rounds, one after another; each that goes on leaves less, so they end |
| Purges.StopsWithSomeLeft | apps/ios/App/DriveStore.swift:1868-1875 | no request fails and some are left exactly when the rounds come to one that moves nothing |
| Purges.MovingServersEmpty | apps/ios/App/DriveStore.swift:1850-1856 | a server that always takes some leaves none, unless a request fails |
| Purges.EmptiesExactly | apps/ios/App/DriveStore.swift:1850-1862 | the rounds end with none left, and say so, exactly when some round leaves nothing and all before it were answered and moved something |
| Purges.RoundsLeave | apps/ios/App/DriveStore.swift:1850-1856 | what the rounds leave is what those that were answered and moved something leave |
| Purges.NeverFails | apps/ios/App/DriveStore.swift:1850-1856 | a server that always answers and always takes some leaves none |
| Purges.NothingMovedSomeLeft | apps/ios/App/DriveStore.swift:1868-1875 | a server for which all is said to be gone with three left |
| Purges.Trash.EmptyTrash | apps/ios/App/DriveStore.swift:1822-1865 | "emptied" exactly when every top agreed to go and some round leaves nothing, all before it answered and moving; what is left is what the answered, moving rounds leave; a refused row asks for no batch, and offline for no further row; otherwise exactly the tops that went left the list |
| Purges.Trash.DiscardEarlierVersions | apps/ios/App/DriveStore.swift:1868-1875 | it says they are gone exactly when the rounds end with none left, or come to one that moves nothing with some left |
| RemovalWipe.WipeTakesNoLaterSignIn | apps/ios/App/AppModel.swift:309-329 | with one question out at a time, a wipe takes no session or data of a sign-in begun after the question was sent |
| RemovalWipe.TwoQuestionsTakeALaterSession | apps/ios/App/AppModel.swift:322-325 | a run in which the first of two wipes hides the second |
| RemovalWipe.ASignInUnderWayLosesItsSession | apps/ios/App/AppModel.swift:130-138 | a run in which a sign-in under way as the question was sent loses its session |
| RemovalWipe.AnotherProcessLosesItsSession | apps/ios/App/AppModel.swift:336-351 | a run in which another process's session goes |
| RemovalWipe.AWipeTakesAll | apps/ios/App/AppModel.swift:336-351 | over any run, right after a wipe no session, owner or claim is stored, and what is stored by the time it is over was stored since |
| RemovalWipe.AWipeBeginsExactly | apps/ios/App/AppModel.swift:318-323 | an answer begins a wipe exactly when it says removed, no sign-in started since the question was sent, the session stored is the one asked about or none, and the data is its account's |
| RemovalWipe.StoredChangesExactly | apps/ios/App/AppModel.swift:272-289 | what is stored changes only by a sign-in, a lost session, a sign-out or a wipe, each told |
| RemovalWipe.StoredWasStored | apps/ios/Packages/HushOSKit/Sources/HushOSKit/Auth.swift:164-170 | whatever is stored was stored by some sign-in or process, with nothing emptied since |
| RemovalWipe.ASignInWaitsExactly | apps/ios/App/AppModel.swift:130-138 | a sign-in waits exactly when it finds a wipe, and stores nothing until that is done |
| RemovalWipe.SignInsMoveExactly | apps/ios/App/AppModel.swift:130-138 | a sign-in under way waits, asks, and ends by storing or failing; only a new one moves the generation |
| RemovalWipe.WipesMoveExactly | apps/ios/App/AppModel.swift:318-329 | a question goes with its answer, a wipe is done by its own step and over with its question |
| RemovalWipe.AppModel.BeginSigningIn | apps/ios/App/AppModel.swift:132-133 | a generation is taken and the wipe found is waited for |
| RemovalWipe.AppModel.FinishSigningIn | apps/ios/Packages/HushOSKit/Sources/HushOSKit/Auth.swift:164-170 | another account's session goes, its data next, then the new session is stored |
| RemovalWipe.AppModel.SessionLost | apps/ios/App/AppModel.swift:272-289 | the stored session goes and is asked about, unless a sign-in replaced it |
| RemovalWipe.AppModel.RemovalAnswered | apps/ios/App/AppModel.swift:318-323 | a wipe is set at once, exactly under its three guards |
| RemovalWipe.AppModel.ForgetRemovedDevice | apps/ios/App/AppModel.swift:336-351 | the method is the step of a wipe, which takes all that is stored: `RemovalWipe.AWipeTakesAll` |
| Walks.NoTwoWalksOfAFolder | apps/ios/App/Families.swift:670-676 | no two walks of one folder are under way together |
| Walks.StartsExactlyAfterItsWait | apps/ios/App/Families.swift:672-693 | a due run starts exactly when its folder is free and, after k stops in a row, min(600, 30 * 2^(k-1)) seconds passed |
| Walks.WaitsGrow | apps/ios/App/Families.swift:655-660 | waits never shrink, from 30 seconds to 10 minutes |
| Walks.WalksMoveExactly | apps/ios/App/Families.swift:668-693 | a walk begins, holds its folder while its family is checked again, and frees it however it ends |
| Walks.StopsMoveExactly | apps/ios/App/Families.swift:690-693 | a stop counts one more in a row of its run, a walk to its end forgets them, and nothing else does |
| Walks.FamilyWalks.StartWalks | apps/ios/App/Families.swift:668-676 | the loop over the due targets |
| Walks.FamilyWalks.WalkStopped | apps/ios/App/Families.swift:692-693 | a stop counts and sets the next start |
| WalkChecks.PendingOnlyMovesEarlier | apps/ios/App/FamilyWalkTasks.swift:70-84 | until it runs or is let go of, one session's pending check only moves earlier |
| WalkChecks.StaleSessionsAskNothing | apps/ios/App/FamilyWalkTasks.swift:42-57 | a session that is over touches no other's request |
| WalkChecks.AStalePassDelaysTheNext | apps/ios/App/FamilyWalkTasks.swift:52-57 | and the next check then waits longer, exactly until the wait is ten minutes anyway |
| WalkChecks.RequestsChangeExactly | apps/ios/App/FamilyWalkTasks.swift:42-108 | the request, its time and the attempts after each ask, pass and cancel: an hour when wanted or done, 30, 60, 120, 240, 480, then 600 seconds after that many attempts, the same session's earlier time kept |
| WalkChecks.Earliest | apps/ios/Packages/HushOSKit/Sources/HushOSKit/FamilyWalkWork.swift:35-44 | the earlier of the asked time and a pending one of the same session; another session's says nothing |
| WalkChecks.FamilyWalkTasks.ScheduleAfter | apps/ios/App/FamilyWalkTasks.swift:70-84 | the request kept is the earlier one of the same session |
| WalkChecks.FamilyWalkTasks.PassEnded | apps/ios/App/FamilyWalkTasks.swift:86-108 | what a pass's end asks for next |
| Polynomials.RemainderIsTheOne | e2e/helpers.ts:532-539 | the long division by the generator finds the remainder, and there is only one |
| Crc32.Compute | e2e/helpers.ts:532-539 | the nested loop computes the register's function |
| Crc32.CrcIsTheRemainder | e2e/helpers.ts:532-539 | the check is the complement of the remainder of the preset message and 32 zeros by the generator of section 3.4 of RFC 2083, and nothing else is |
| Crc32.TableFormIsTheSame | e2e/helpers.ts:535-536 | a table of 256 entries gives the same register |
| Crc32.CrcIsAffine | e2e/helpers.ts:532-539 | the check of the sum of three messages of one length is the sum of their checks |
| Crc32.OnlyItsOwnCheckFits | e2e/helpers.ts:532-539 | a message and four bytes check to one fixed value exactly when they are its own check |
| Crc32.BurstsAreSeen | e2e/helpers.ts:532-539 | messages that differ only within four bytes in a row have different checks |
| Png.ChunkIsRead | e2e/helpers.ts:511-518 | a chunk is read back as its type and data, whatever follows |
| Png.OnlyChunksAreRead | e2e/helpers.ts:511-518 | whatever is read as a chunk is one |
| Png.DamageIsNotRead | e2e/helpers.ts:515-517 | a chunk damaged within four bytes in a row is not read |
| Png.SquareIsRead | e2e/helpers.ts:519-529 | the file is its signature and three chunks, to the last byte; its header says its size, eight bits a sample and true colour |
| Png.LinesAre | e2e/helpers.ts:502-510 | each line starts with no filter, each pixel is the colour |
| Png.Raw | e2e/helpers.ts:501-510 | the buffer is filled within its bounds, each byte once, in order |
| Png.PngSquare | e2e/helpers.ts:500-530 | the file put together, or refused for a length of 2^32 or more |
| PngKnown.TheEndIsWellKnown | e2e/helpers.ts:528 | a file ends with the twelve bytes every PNG file ends with, their check AE 42 60 82 computed |
| PngKnown.CheckIsBigEndian | e2e/helpers.ts:515-516 | the check is written highest byte first |
| PngKnown.NumbersAreBigEndian | e2e/helpers.ts:512-522 | lengths and sides are written highest byte first |
| PngKnown.NamesAreAscii | e2e/helpers.ts:524-528 | the signature and the chunks' names are their letters' codes |

## Left out

- Data an older version kept with no owner's name before a session of it was stored; a wipe counts as one step, the folders it removes among it.
- The transfer queue's `cancelFolder`, `keep` of many files at once and its skipping of a node already queued, the list's order, progress fractions, notices and the four seconds a finished row lingers.
- TransferSafety.BytesAreKept: says nothing of a family's upload once a cancel of it was asked for (the cancel removes its folder before its record), nor of a record that came back, nor of a file that could not be copied into the queue.
- TransferSafety.EtagsAreOfTheCurrentUpload: says nothing of a family's upload once a cancel of it was asked for, where it fails (`TransferLosses.ACancelledFamilyUploadMixesItsSeals`), nor of a record that came back; a callback naming no upload is not one of a task handed over, and is `UnnamedCallback`'s.
- TransferSafety.FinishingIsComplete: says nothing of a family's upload once a cancel of it was asked for, where it fails in the same run, nor of a record that came back; after a wipe chunks fetched before it have no files.
- TransferReasons.EveryUploadIsAccountedFor: an abort asked of the server under the own account counts as done, as the app never asks twice, also when no vault opens to ask it with; a seal that fails in the middle aborts its own upload inside HushOSKit and is not a step here.
- Handoff.NothingIsLost: says nothing of an upload that landed, was cancelled, was finished by the extension, was sealed again or went with its account's data, nor of a part noted for another upload than its note names; each part is noted once.
- The queue killed and started again: kept to `Handoff`. Elsewhere records, parts and notes are saved at the end of the step, as the code does.
- An own-drive seal that ends with an error after some parts were written: its leftovers go with its folder, and are not modelled.
- Families.QuietFamiliesAgree: does not say which rows of which folders are drawn, only the family's view; the details drawn with it are covered by `Families.OlderShowingChangesNothing`.
- The rows of a folder stand for the ticket of the listing that wrote them; names, thumbnails, verdicts, problems said in a folder's place, and the listing of `Uploads` are not modelled.
- The rows evicted before a showing goes on, and the cancelling of what an ended session has out: its answers are dropped, whether cancelled or not.
- Copying (it adds new items and moves none), and moves across spaces (a new upload and the original trashed).
- Restores.RestoredRowsAreLive: no other device moves or trashes anything while the batch runs, and each row's trashed folders are seen (`Restores.SeesAll` says when).
- Purges.Trash.Batches: nobody trashes more while the batches run.
- Restoring through the batch route (the Undo of a trash), whose order and retries are the server's.
- RemovalWipe.WipeTakesNoLaterSignIn: each of a sign-in's and a wipe's writes to the keychain and the store count as one step; `start`'s own wipe, `checkAccount`, signing out while signing in, and what a failed sign-in leaves are not modelled.
- Walks.StartsExactlyAfterItsWait: time is in whole seconds; what a walk itself does is HushOSKit's.
- WalkChecks.PendingOnlyMovesEarlier: when iOS runs a request is an event; a submission iOS refuses is not modelled.
- Deflating (`deflateSync`) and the limits of a buffer's length: what deflating gives is taken as it comes. A size that is negative or not whole is not modelled.
- Sheets, menus, wording, sorting, cryptography, the vault, the family ledger, and every other package of the repository.
