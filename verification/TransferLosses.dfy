/** Runs in which an upload the server began is left with nobody, or a record mixes two of them: where the promises end. */
module TransferLosses {
  import opened Common
  import opened TransferModel
  import opened TransferRuns
  import opened TransferInvariants

  ghost predicate Reachable(q: Queue) {
    exists trace, events :: Run(trace, events) && trace[|trace| - 1] == q
  }

  lemma StartsReachable()
    ensures Reachable(EMPTY)
  {
    assert Run([EMPTY], []);
  }

  lemma StepsReachable(q: Queue, e: Event)
    requires Reachable(q) && Enabled(q, e)
    ensures Reachable(Next(q, e))
  {
    var trace, events :| Run(trace, events) && trace[|trace| - 1] == q;
    var longer, more := trace + [Next(q, e)], events + [e];
    forall i | 0 <= i < |more| ensures Enabled(longer[i], more[i]) && longer[i + 1] == Next(longer[i], more[i]) {
      if i < |events| { assert more[i] == events[i] && longer[i] == trace[i] && longer[i + 1] == trace[i + 1]; }
    }
    assert Run(longer, more);
  }

  /** An account signed in, its data on the phone. */
  lemma SignedIn() returns (q: Queue)
    ensures Reachable(q) && q == Queue(map[], Idle, Some(1), Some(1))
  {
    StartsReachable();
    hide Reachable;
    StepsReachable(EMPTY, Claimed(1));
    q := Next(EMPTY, Claimed(1));
    assert q == Queue(map[], Idle, None, Some(1));
    StepsReachable(q, SessionChanged(Some(1)));
    q := Next(q, SessionChanged(Some(1)));
  }

  /** A transfer of it just queued, and a pass begun. */
  lemma Queued(family: Option<Group>) returns (q: Queue)
    ensures Reachable(q) && q == Queue(map[7 := NewUpload(Some(1), family, true)], Scanning, Some(1), Some(1))
  {
    q := SignedIn();
    hide Reachable;
    StepsReachable(q, UploadQueued(7, family, true));
    q := Next(q, UploadQueued(7, family, true));
    StepsReachable(q, PassBegun);
    q := Next(q, PassBegun);
    assert q.transfers == map[7 := NewUpload(Some(1), family, true)];
  }

  /** Stepping the only transfer there is. */
  lemma StepsOnly(t: Transfer, pass: Pass, one: One) returns (q: Queue)
    requires Reachable(Queue(map[7 := t], pass, Some(1), Some(1)))
    requires Possible(Queue(map[7 := t], pass, Some(1), Some(1)), 7, one)
    ensures var p := Queue(map[7 := t], pass, Some(1), Some(1));
            var r := Do(p, 7, one);
            q == Queue(map[7 := r], if one.Turn? && r.op.Some? then Working(7) else if InPass(one) then Scanning else pass, Some(1), Some(1))
    ensures Reachable(q)
  {
    var p := Queue(map[7 := t], pass, Some(1), Some(1));
    StepsReachable(p, Stepped(7, one));
    q := Next(p, Stepped(7, one));
    assert p.transfers[7 := Do(p, 7, one)] == map[7 := Do(p, 7, one)];
  }

  const ME := Some(1)
  const UPLOAD := Sealed(9, 1, {1})
  const BEGUN := Server(map[9 := 1], {}, {}, map[])

  /** The record as it is queued, and as the raced cancel finds it: sending an upload it never read. */
  function Fresh(family: Option<Group>): (rec: Record) {
    Record(Upload, Waiting, ME, family, None, map[], None, {}, {}, 0)
  }

  const RACED := Fresh(Some(3)).(state := Sending, sealed := Some(UPLOAD))

  /** The cancel asked for, the pass's seal begun for the same record, and its work done. */
  lemma Raced1() returns (q: Queue)
    ensures Reachable(q) && q.pass == Scanning && q.signedIn == ME && q.holder == ME && q.transfers.Keys == {7}
    ensures q.transfers[7] == NewUpload(ME, Some(3), true).(
              cancels := map[0 := Cancel(Fresh(Some(3)), false)], past := UNTOUCHED.(cancelled := true), sealing := Some(0),
              jobs := map[0 := Job(false, false, None, map[], None, false)])
  {
    q := Queued(Some(3));
    hide Reachable;
    q := StepsOnly(q.transfers[7], q.pass, CancelAsked(0));
    assert |Sealing(q)| == 0 by { assert Sealing(q) == {}; }
    q := StepsOnly(q.transfers[7], q.pass, Turn(0, true, true, {}));
  }

  lemma Raced2() returns (q: Queue)
    ensures Reachable(q) && q.pass == Scanning && q.signedIn == ME && q.holder == ME && q.transfers.Keys == {7}
    ensures var t := q.transfers[7];
            && t.record == Some(RACED) && t.cancels == map[0 := Cancel(Fresh(Some(3)), false)] && t.server == BEGUN
  {
    q := Raced1();
    hide Reachable;
    assert q == Queue(map[7 := q.transfers[7]], Scanning, ME, ME);
    q := StepsOnly(q.transfers[7], q.pass, JobWorked(0, Prepared(UPLOAD)));
    assert q.transfers[7].server == BEGUN;
    q := StepsOnly(q.transfers[7], q.pass, JobCame(0));
  }

  /**
   A cancel read the record before its family seal came back, and a pass sealed it again meanwhile: the cancel takes
   the record with an upload it never knew of, which stays begun on the server.
   */
  lemma ARacedCancelLosesAnUpload()
    ensures exists q :: Reachable(q) && 7 in q.transfers && q.transfers[7].record.None?
              && q.transfers[7].server == BEGUN.(lost := map[9 := Raced])
  {
    var q := Raced2();
    hide Reachable;
    assert q == Queue(map[7 := q.transfers[7]], Scanning, ME, ME);
    q := StepsOnly(q.transfers[7], q.pass, CancelListed(0, true));
    assert q.transfers[7].server == BEGUN;
    q := StepsOnly(q.transfers[7], q.pass, CancelLast(0));
  }

  /** The pass waits for an own-drive seal, and a cancel is asked for. */
  lemma Cancelled1() returns (q: Queue)
    ensures Reachable(q) && q.pass == Working(7) && q.signedIn == ME && q.holder == ME && q.transfers.Keys == {7}
    ensures q.transfers[7] == NewUpload(ME, None, true).(
              cancels := map[0 := Cancel(Fresh(None), false)], past := UNTOUCHED.(cancelled := true), op := Some(SealOp))
  {
    q := Queued(None);
    hide Reachable;
    q := StepsOnly(q.transfers[7], q.pass, Turn(0, true, true, {}));
    q := StepsOnly(q.transfers[7], q.pass, CancelAsked(0));
  }

  /** An own-drive upload cancelled while its seal was out: the seal comes back to no record, and nothing aborts it. */
  lemma ACancelledOwnSealLosesItsUpload()
    ensures exists q :: Reachable(q) && 7 in q.transfers && q.transfers[7].record.None?
              && q.transfers[7].server == BEGUN.(lost := map[9 := OwnSealGone])
  {
    var q := Cancelled1();
    hide Reachable;
    assert q == Queue(map[7 := q.transfers[7]], Working(7), ME, ME);
    q := StepsOnly(q.transfers[7], q.pass, CancelListed(0, true));
    q := StepsOnly(q.transfers[7], q.pass, CancelLast(0));
    assert q.transfers[7].record.None? && q.transfers[7].op == Some(SealOp) && q.transfers[7].server == NOTHING.server;
    q := StepsOnly(q.transfers[7], q.pass, SealCame(UPLOAD, false));
  }

  // -- A family record under a cancel ---------------------------------------------------------------------------------

  const OTHER := Sealed(8, 2, {1, 2})
  const PART := Task(Desc(0, Some(9)), ME, ME)
  const OTHERS := Task(Desc(1, Some(8)), ME, ME)

  const SEAL := Job(false, false, None, map[], None, false)

  /** A cancel asked for while a seal is out lets the pass begin a second, and the first one's end a third. */
  lemma Twice1() returns (q: Queue)
    ensures Reachable(q) && q.pass == Scanning && q.signedIn == ME && q.holder == ME && q.transfers.Keys == {7}
    ensures q.transfers[7] == NewUpload(ME, Some(3), true).(
              cancels := map[0 := Cancel(Fresh(Some(3)), false)], past := UNTOUCHED.(cancelled := true), sealing := Some(1),
              jobs := map[0 := SEAL.(cancelled := true), 1 := SEAL])
  {
    q := Queued(Some(3));
    hide Reachable, Start, JobDone, WorkDone, Finished;
    assert Sealing(q) == {};
    q := StepsOnly(q.transfers[7], q.pass, Turn(0, true, true, {}));
    assert q.transfers[7].jobs == map[0 := SEAL] && q.transfers[7].sealing == Some(0);
    q := StepsOnly(q.transfers[7], q.pass, CancelAsked(0));
    assert Sealing(q) == {};
    q := StepsOnly(q.transfers[7], q.pass, Turn(1, true, true, {}));
    assert q.transfers[7].jobs == map[0 := SEAL.(cancelled := true), 1 := SEAL];
  }

  lemma Once() returns (q: Queue)
    ensures Reachable(q) && q.pass == Scanning && q.signedIn == ME && q.holder == ME && q.transfers.Keys == {7}
    ensures q.transfers[7] == NewUpload(ME, Some(3), true).(
              cancels := map[0 := Cancel(Fresh(Some(3)), false)], past := UNTOUCHED.(cancelled := true), jobs := map[1 := SEAL])
  {
    q := Twice1();
    hide Reachable, Finished, Apply, Start, Visit;
    assert q == Queue(map[7 := q.transfers[7]], Scanning, ME, ME);
    q := StepsOnly(q.transfers[7], q.pass, JobWorked(0, NoAnswer(false)));
    q := StepsOnly(q.transfers[7], q.pass, JobCame(0));
    assert q.transfers[7].jobs == map[1 := SEAL];
  }

  lemma Twice2() returns (q: Queue)
    ensures Reachable(q) && q.pass == Scanning && q.signedIn == ME && q.holder == ME && q.transfers.Keys == {7}
    ensures q.transfers[7] == NewUpload(ME, Some(3), true).(
              cancels := map[0 := Cancel(Fresh(Some(3)), false)], past := UNTOUCHED.(cancelled := true), sealing := Some(2), jobs := map[1 := SEAL, 2 := SEAL])
  {
    q := Once();
    hide Reachable, Finished, JobDone, WorkDone, Start;
    assert q == Queue(map[7 := q.transfers[7]], Scanning, ME, ME);
    assert Sealing(q) == {};
    q := StepsOnly(q.transfers[7], q.pass, Turn(2, true, true, {}));
    assert q.transfers[7].jobs == map[1 := SEAL, 2 := SEAL];
  }

  lemma HandedAtOnce(t: Transfer, piece: int)
    requires t.record.Some? && t.record.value.owner == ME && t.record.value.sealed.Some?
    requires 0 <= piece < t.record.value.sealed.value.partCount && piece + 1 in t.record.value.sealed.value.urls
    requires t.record.value.etags == map[] && t.record.value.expired == {}
    ensures Task(Desc(piece, t.record.value.Named()), ME, ME) in Start(t, ME, {}).handed
  {
    assert piece in Pieces(t.record.value, {});
  }

  /** A seal that came back to a record still there. */
  lemma SealApplied(t: Transfer, j: JobId, sealed: Sealed)
    requires t.record.Some? && t.record.value.owner == ME && j in t.jobs
    requires t.jobs[j] == SEAL.(sealed := Some(sealed), outcome := Some(Send))
    ensures var r := JobDone(t, ME, j);
            && r == t.(record := r.record, sealing := None, jobs := t.jobs - {j}, server := r.server, handed := r.handed)
            && r.record == Some(t.record.value.(sealed := Some(sealed), etags := map[], state := Sending, expired := {}, failures := 0))
            && r.server == t.server.Replaced(t.record.value.sealed, Some(sealed))
            && forall piece | 0 <= piece < sealed.partCount && piece + 1 in sealed.urls :: Task(Desc(piece, Some(sealed.uploadId)), ME, ME) in r.handed
  {
    var rec := t.record.value.(sealed := Some(sealed), etags := map[], state := Sending, expired := {}, failures := 0);
    var t1 := t.(record := Some(rec), sealing := None, jobs := t.jobs - {j}, server := t.server.Replaced(t.record.value.sealed, Some(sealed)));
    assert JobDone(t, ME, j) == Start(t1, ME, {});
    forall piece | 0 <= piece < sealed.partCount && piece + 1 in sealed.urls
      ensures Task(Desc(piece, Some(sealed.uploadId)), ME, ME) in Start(t1, ME, {}).handed
    {
      HandedAtOnce(t1, piece);
    }
  }

  /** The second seal's upload is sent. */
  lemma Twice3() returns (q: Queue)
    ensures Reachable(q) && q.pass == Scanning && q.signedIn == ME && q.holder == ME && q.transfers.Keys == {7}
    ensures var t := q.transfers[7];
            && t.record == Some(RACED) && t.jobs == map[2 := SEAL]
            && t.folder.content && t.past.cancelled && t.server == BEGUN && PART in t.handed && t.op.None?
  {
    q := Twice2();
    hide Reachable, Start;
    assert q == Queue(map[7 := q.transfers[7]], Scanning, ME, ME);
    q := StepsOnly(q.transfers[7], q.pass, JobWorked(1, Prepared(UPLOAD)));
    assert q.transfers[7].server == BEGUN;
    SealApplied(q.transfers[7], 1, UPLOAD);
    q := StepsOnly(q.transfers[7], q.pass, JobCame(1));
    assert q.transfers[7].jobs == map[2 := SEAL];
  }

  /** An address of it expires. */
  lemma Expired() returns (q: Queue)
    ensures Reachable(q) && q.pass == Scanning && q.signedIn == ME && q.holder == ME && q.transfers.Keys == {7}
    ensures var t := q.transfers[7];
            && t.record == Some(RACED.(expired := {1})) && t.jobs == map[2 := SEAL]
            && t.folder.content && t.past.cancelled && t.server == BEGUN && PART in t.handed && t.op.None?
  {
    q := Twice3();
    hide Reachable, Start, Fail, JobDone, WorkDone, Visit;
    assert q == Queue(map[7 := q.transfers[7]], Scanning, ME, ME);
    q := StepsOnly(q.transfers[7], q.pass, TaskEnded(PART, 403, false, false));
  }

  /** The pass waits for fresh ones. */
  lemma Twice4() returns (q: Queue)
    ensures Reachable(q) && q.pass == Working(7) && q.signedIn == ME && q.holder == ME && q.transfers.Keys == {7}
    ensures var t := q.transfers[7];
            && t.record == Some(RACED.(expired := {1})) && t.op == Some(RefreshOp(RACED.(expired := {1}))) && t.jobs == map[2 := SEAL]
            && t.folder.content && t.past.cancelled && t.server == BEGUN && PART in t.handed
  {
    q := Expired();
    hide Reachable, Start, Fail, JobDone, WorkDone, Finished;
    assert q == Queue(map[7 := q.transfers[7]], Scanning, ME, ME);
    q := StepsOnly(q.transfers[7], q.pass, Turn(3, true, true, {}));
  }

  /** Meanwhile the third seal's upload takes its place. */
  lemma Twice5() returns (q: Queue)
    ensures Reachable(q) && q.pass == Working(7) && q.signedIn == ME && q.holder == ME && q.transfers.Keys == {7}
    ensures var t := q.transfers[7];
            && t.record == Some(RACED.(sealed := Some(OTHER))) && t.op == Some(RefreshOp(RACED.(expired := {1}))) && t.past.cancelled
            && {PART, OTHERS} <= t.handed
  {
    q := Twice4();
    hide Reachable, Start, Fail, JobDone, Finished, Visit;
    assert q == Queue(map[7 := q.transfers[7]], Working(7), ME, ME);
    q := StepsOnly(q.transfers[7], q.pass, JobWorked(2, Prepared(OTHER)));
    SealApplied(q.transfers[7], 2, OTHER);
    q := StepsOnly(q.transfers[7], q.pass, JobCame(2));
    assert OTHERS in q.transfers[7].handed;
  }

  /** A part of that one lands, and the fresh addresses put the second seal's upload back. */
  lemma Twice6() returns (q: Queue)
    ensures Reachable(q) && q.pass == Scanning && q.signedIn == ME && q.holder == ME && q.transfers.Keys == {7}
    ensures var t := q.transfers[7];
            t.record == Some(RACED.(etags := map[2 := Etag(8, 2)])) && t.past.cancelled && PART in t.handed
  {
    q := Twice5();
    hide Reachable, Start, Fail, JobDone, WorkDone, Visit;
    assert q == Queue(map[7 := q.transfers[7]], Working(7), ME, ME);
    q := StepsOnly(q.transfers[7], q.pass, TaskEnded(OTHERS, 200, true, false));
    assert q.transfers[7].record.value.etags == map[2 := Etag(8, 2)];
    assert UPLOAD.urls + {1} == UPLOAD.urls;
    q := StepsOnly(q.transfers[7], q.pass, AddressesCame({1}, {}));
  }

  /**
   The fresh addresses put the second upload back beside the third one's ETag: the counts agree, so it is finished
   with an ETag of another upload, for a part it does not have.
   */
  lemma ACancelledFamilyUploadMixesItsSeals()
    ensures exists q :: Reachable(q) && 7 in q.transfers && q.transfers[7].past.cancelled
              && q.transfers[7].record == Some(RACED.(state := Finishing, expired := {1}, etags := map[2 := Etag(8, 2)]))
    ensures !Genuine(UPLOAD, map[2 := Etag(8, 2)]) && UPLOAD.partCount == 1
  {
    var q := Twice6();
    hide Reachable, Start, Fail, JobDone, WorkDone, Visit;
    assert q == Queue(map[7 := q.transfers[7]], Scanning, ME, ME);
    q := StepsOnly(q.transfers[7], q.pass, TaskEnded(PART, 403, false, false));
    assert 2 in map[2 := Etag(8, 2)];
  }

  // -- Folders taken, and made again -----------------------------------------------------------------------------------

  /** Signing out, its session gone first, takes the plaintext of an upload that is still waiting. */
  lemma ASignOutTakesTheBytes()
    ensures exists q :: Reachable(q) && 7 in q.transfers && q.transfers[7].record == Some(Fresh(None))
              && q.transfers[7].past.copied && !HasBytes(Fresh(None), q.transfers[7].folder)
  {
    var q := Queued(None);
    hide Reachable;
    StepsReachable(q, SessionChanged(None));
    q := Next(q, SessionChanged(None));
    StepsReachable(q, Wiped);
    q := Next(q, Wiped);
    assert q.transfers[7] == Wipe(NewUpload(ME, None, true));
  }

  /** What the extension handed over, adopted as it was. */
  lemma HandedOver(family: Option<Group>, etags: map<int, Etag>) returns (q: Queue)
    requires Genuine(UPLOAD, etags)
    ensures Reachable(q) && q == Queue(map[7 := Adopted(ME, family, UPLOAD, etags)], Scanning, ME, ME)
  {
    q := SignedIn();
    hide Reachable, Adopted;
    StepsReachable(q, HandoffAdopted(7, family, UPLOAD, etags));
    q := Next(q, HandoffAdopted(7, family, UPLOAD, etags));
    PassLeaves(q, family, etags);
    StepsReachable(q, PassBegun);
    q := Next(q, PassBegun);
  }

  lemma PassLeaves(q: Queue, family: Option<Group>, etags: map<int, Etag>)
    requires q == Queue(map[7 := Adopted(ME, family, UPLOAD, etags)], Idle, ME, ME)
    ensures Next(q, PassBegun) == q.(pass := Scanning)
  {
    assert DropOther(q.transfers[7], ME) == q.transfers[7];
    assert Next(q, PassBegun).transfers == q.transfers;
  }

  /** The extension finishes what the queue already adopted: the record is still sending, with nothing left to send. */
  lemma TheExtensionLeavesARecordSending()
    ensures exists q :: Reachable(q) && 7 in q.transfers && q.transfers[7].record == Some(Fresh(None).(state := Sending, sealed := Some(UPLOAD)))
              && 9 in q.transfers[7].server.completed && !HasBytes(q.transfers[7].record.value, q.transfers[7].folder)
  {
    var q := HandedOver(None, map[]);
    hide Reachable;
    q := StepsOnly(q.transfers[7], q.pass, ExtensionFinished);
    assert 1 !in q.transfers[7].record.value.etags && 1 !in q.transfers[7].folder.parts;
  }

  const FINISHING := Fresh(Some(3)).(state := Finishing, sealed := Some(UPLOAD), etags := map[1 := Etag(9, 1)])

  /** Every part had landed, and its completion is out. */
  lemma Completing() returns (q: Queue)
    ensures Reachable(q) && q.pass == Scanning && q.signedIn == ME && q.holder == ME && q.transfers.Keys == {7}
    ensures q.transfers[7] == Adopted(ME, Some(3), UPLOAD, map[1 := Etag(9, 1)]).(
              sealing := Some(0), jobs := map[0 := Job(true, false, Some(UPLOAD), map[1 := Etag(9, 1)], None, false)])
  {
    hide Reachable;
    q := HandedOver(Some(3), map[1 := Etag(9, 1)]);
    assert q.transfers[7].record == Some(FINISHING);
    hide WorkDone, JobDone, Finished, Start, Fail;
    q := StepsOnly(q.transfers[7], q.pass, Turn(0, true, true, {}));
  }

  /** A key change refuses it. */
  lemma Conflict() returns (q: Queue)
    ensures Reachable(q) && q.pass == Scanning && q.signedIn == ME && q.holder == ME && q.transfers.Keys == {7}
    ensures q.transfers[7] == Adopted(ME, Some(3), UPLOAD, map[1 := Etag(9, 1)]).(
              sealing := Some(0), jobs := map[0 := Job(true, false, None, map[], Some(Reseal), false)],
              server := BEGUN.(asked := {9}), folder := ONLY_CONTENT)
  {
    hide Reachable, Start, Fail, Visit, Finished, JobDone;
    q := Completing();
    assert q == Queue(map[7 := q.transfers[7]], Scanning, ME, ME);
    q := StepsOnly(q.transfers[7], q.pass, JobWorked(0, Conflicted));
    assert q.transfers[7].server == BEGUN.(asked := {9});
  }

  /** The upload is to be sealed again. */
  lemma ToReseal() returns (q: Queue)
    ensures Reachable(q) && q.pass == Scanning && q.signedIn == ME && q.holder == ME && q.transfers.Keys == {7}
    ensures var t := q.transfers[7];
            && t.record == Some(Fresh(Some(3))) && t.folder == ONLY_CONTENT && t.jobs == map[] && t.sealing.None? && t.cancels == map[]
            && t.handoff == Some(Handed(UPLOAD, ME, Some(3))) && t.op.None? && 9 in t.server.asked && t.past == UNTOUCHED
  {
    hide Reachable, Start, Fail, Visit, Finished, WorkDone;
    q := Conflict();
    assert q == Queue(map[7 := q.transfers[7]], Scanning, ME, ME);
    q := StepsOnly(q.transfers[7], q.pass, JobCame(0));
    assert q.transfers[7].jobs == map[];
  }

  /** The next seal is out as the upload is cancelled. */
  lemma Resealing() returns (q: Queue)
    ensures Reachable(q) && q.pass == Scanning && q.signedIn == ME && q.holder == ME && q.transfers.Keys == {7}
    ensures var t := q.transfers[7];
            && t.record == Some(Fresh(Some(3))) && t.jobs == map[1 := SEAL.(cancelled := true)]
            && t.cancels == map[0 := Cancel(Fresh(Some(3)), false)]
            && t.handoff == Some(Handed(UPLOAD, ME, Some(3))) && 9 in t.server.asked && t.past == UNTOUCHED.(cancelled := true)
  {
    hide Reachable, Start, Fail, JobDone, WorkDone, Finished;
    q := ToReseal();
    assert q == Queue(map[7 := q.transfers[7]], Scanning, ME, ME);
    assert Sealing(q) == {};
    q := StepsOnly(q.transfers[7], q.pass, Turn(1, true, true, {}));
    assert q.transfers[7].jobs == map[1 := SEAL];
    hide Visit;
    q := StepsOnly(q.transfers[7], q.pass, CancelAsked(0));
  }

  /** The record goes, its folder with it. */
  lemma Gone() returns (q: Queue)
    ensures Reachable(q) && q.pass == Scanning && q.signedIn == ME && q.holder == ME && q.transfers.Keys == {7}
    ensures var t := q.transfers[7];
            && t.record.None? && t.folder == GONE && t.jobs == map[1 := SEAL.(cancelled := true)]
            && t.handoff == Some(Handed(UPLOAD, ME, Some(3))) && 9 in t.server.asked && t.past == UNTOUCHED.(cancelled := true)
  {
    hide Reachable, Start, Fail, JobDone, WorkDone, Finished, Visit;
    q := Resealing();
    assert q == Queue(map[7 := q.transfers[7]], Scanning, ME, ME);
    q := StepsOnly(q.transfers[7], q.pass, CancelListed(0, true));
    q := StepsOnly(q.transfers[7], q.pass, CancelLast(0));
  }

  /**
   The seal had not made its directory yet: it does, finds no plaintext and fails. The extension, long suspended, lets go
   of its note, and the note is adopted: the cancelled upload is back, as one the server aborted.
   */
  lemma AGoneRecordReturns()
    ensures exists q :: Reachable(q) && 7 in q.transfers && q.transfers[7].past.cancelled && q.transfers[7].past.returned
              && q.transfers[7].record == Some(Fresh(Some(3)).(state := Sending, sealed := Some(UPLOAD))) && 9 in q.transfers[7].server.asked
  {
    hide Reachable, Start, Fail, JobDone, Finished, Visit;
    var q := Gone();
    assert q == Queue(map[7 := q.transfers[7]], Scanning, ME, ME);
    q := StepsOnly(q.transfers[7], q.pass, JobWorked(1, Error(false, true)));
    q := StepsOnly(q.transfers[7], q.pass, NoteReleased);
    StepsReachable(q, HandoffAdopted(7, Some(3), UPLOAD, map[]));
    q := Next(q, HandoffAdopted(7, Some(3), UPLOAD, map[]));
  }

  /** A cancel that read no upload stopped the tasks before a family seal came back. */
  lemma ListedEarly() returns (q: Queue)
    ensures Reachable(q) && q.pass == Scanning && q.signedIn == ME && q.holder == ME && q.transfers.Keys == {7}
    ensures var t := q.transfers[7];
            && t.record == Some(Fresh(Some(3))) && t.cancels == map[0 := Cancel(Fresh(Some(3)), true)] && t.server == BEGUN
            && t.jobs == map[0 := SEAL.(sealed := Some(UPLOAD), outcome := Some(Send))]
  {
    q := Raced1();
    hide Reachable, Finished, JobDone, Visit, Start;
    assert q == Queue(map[7 := q.transfers[7]], Scanning, ME, ME);
    q := StepsOnly(q.transfers[7], q.pass, JobWorked(0, Prepared(UPLOAD)));
    assert q.transfers[7].server == BEGUN;
    hide WorkDone;
    q := StepsOnly(q.transfers[7], q.pass, CancelListed(0, true));
    assert q.transfers[7].server == BEGUN;
  }

  /** It takes the record after, with the upload. */
  lemma ALaterRaceLosesItToo()
    ensures exists q :: Reachable(q) && 7 in q.transfers && q.transfers[7].record.None?
              && q.transfers[7].server == BEGUN.(lost := map[9 := Raced])
  {
    var q := ListedEarly();
    hide Reachable, Finished, JobDone, WorkDone, Visit, Start;
    assert q == Queue(map[7 := q.transfers[7]], Scanning, ME, ME);
    SealApplied(q.transfers[7], 0, UPLOAD);
    q := StepsOnly(q.transfers[7], q.pass, JobCame(0));
    assert q.transfers[7].record == Some(RACED) && q.transfers[7].server == BEGUN;
    q := StepsOnly(q.transfers[7], q.pass, CancelLast(0));
  }
}
