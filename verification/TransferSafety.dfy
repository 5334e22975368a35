/** What holds in every run of the transfer queue. */
module TransferSafety {
  import opened Common
  import opened TransferModel
  import opened TransferInvariants
  import opened TransferRuns
  import opened TransferSteps

  // -- Every reachable queue is in order -----------------------------------------------------------------------

  ghost predicate QueueOk(q: Queue) {
    && (forall id | id in q.transfers :: Ok(q.transfers[id]))
    && (forall id | id in q.transfers && q.transfers[id].op.Some? :: q.pass == Working(id))
    && (forall a, b, u | a in q.transfers && b in q.transfers && u in q.transfers[a].server.begun && u in q.transfers[b].server.begun :: a == b)
  }

  lemma DoKeeps(q: Queue, id: Id, one: One)
    requires QueueOk(q) && id in q.transfers && Possible(q, id, one)
    ensures Ok(Do(q, id, one))
  {
    var t, me := q.transfers[id], q.signedIn;
    assert Ok(t) && (t.op.Some? ==> q.pass == Working(id));
    hide Ok, TakeLanded, Visit;
    match one
    case Landings(landed) => TakeLandedKeeps(t, landed);
    case Turn(job, online, families, running) => VisitKeeps(t, me, job, online, families, |Sealing(q)| < SEALING_AT_ONCE, running);
    case _ => if InPass(one) { AnswerKeeps(q, id, one); } else { CallKeeps(q, id, one); }
  }

  /** An answer the pass waited for. */
  lemma AnswerKeeps(q: Queue, id: Id, one: One)
    requires QueueOk(q) && id in q.transfers && Possible(q, id, one) && InPass(one)
    ensures Ok(Do(q, id, one))
  {
    var t, me := q.transfers[id], q.signedIn;
    assert Ok(t);
    hide Ok, SealDone, PlanDone, RefreshDone, FinishDone, AssembleDone, OpFailed;
    match one
    case SealCame(sealed, kept) => SealDoneKeeps(t, me, sealed, kept);
    case PlanCame(plan) => PlanDoneKeeps(t, me, plan);
    case AddressesCame(renewed, running) => RefreshDoneKeeps(t, me, renewed, running);
    case CompletionCame => FinishDoneKeeps(t);
    case Assembled => AssembleDoneKeeps(t);
    case PassFailed(passes) => OpFailedKeeps(t, me, passes);
    case _ =>
  }

  /** Whatever comes outside the pass. */
  lemma CallKeeps(q: Queue, id: Id, one: One)
    requires QueueOk(q) && id in q.transfers && Possible(q, id, one) && !InPass(one) && !one.Landings? && !one.Turn?
    ensures Ok(Do(q, id, one))
  {
    assert Ok(q.transfers[id]);
    hide Ok, QueueOk, Possible, Do;
    if one.JobWorked? || one.JobCame? || one.TaskEnded? { BackKeeps(q, id, one); } else { AskedKeeps(q, id, one); }
  }

  /** What comes back from elsewhere: a family's work, a task. */
  lemma BackKeeps(q: Queue, id: Id, one: One)
    requires id in q.transfers && Ok(q.transfers[id]) && Possible(q, id, one) && (one.JobWorked? || one.JobCame? || one.TaskEnded?)
    ensures Ok(Do(q, id, one))
  {
    var t, me := q.transfers[id], q.signedIn;
    hide Ok, WorkDone, JobDone, Finished;
    if one.JobWorked? {
      if one.work.Prepared? { NewlyBegun(q, id, one); }
      hide FreshUpload, Sealing;
      WorkDoneKeeps(t, one.j, one.work);
    } else if one.JobCame? {
      JobDoneKeeps(t, me, one.j);
    } else {
      TaskKeeps(q, id, one);
      hide Possible, Do;
    }
  }

  lemma TaskKeeps(q: Queue, id: Id, one: One)
    requires id in q.transfers && Ok(q.transfers[id]) && Possible(q, id, one) && one.TaskEnded?
    ensures Ok(Do(q, id, one))
  {
    hide Ok, Finished, Sealing;
    FinishedKeeps(q.transfers[id], q.signedIn, one.task, one.status, one.ok, one.fetched);
  }

  lemma NewlyBegun(q: Queue, id: Id, one: One)
    requires id in q.transfers && Possible(q, id, one) && one.JobWorked? && one.work.Prepared?
    ensures one.work.sealed.uploadId !in q.transfers[id].server.begun
  {
    hide WorkPossible;
  }

  /** What the person, the account and the extension do. */
  lemma AskedKeeps(q: Queue, id: Id, one: One)
    requires id in q.transfers && Ok(q.transfers[id]) && Possible(q, id, one) && !InPass(one) && !one.Landings? && !one.Turn?
    requires !one.JobWorked? && !one.JobCame? && !one.TaskEnded?
    ensures Ok(Do(q, id, one))
  {
    var t, me := q.transfers[id], q.signedIn;
    hide Ok, CancelBegin, CancelDiscard, CancelEnd, Retry, Dismiss, TakeNote, Release, FolderGone, FinishedByExtension;
    match one
    case CancelAsked(c) => CancelBeginKeeps(t, c);
    case CancelListed(c, families) => CancelDiscardKeeps(t, me, c, families);
    case CancelLast(c) => CancelEndKeeps(t, c);
    case RetryAsked => RetryKeeps(t);
    case Dismissed => DismissKeeps(t);
    case NoteTaken => TakeNoteKeeps(t);
    case NoteReleased => ReleaseKeeps(t);
    case NoteDropped => FolderGoneKeeps(t);
    case Swept => FolderGoneKeeps(t);
    case ExtensionFinished => ExtensionFinishedKeeps(t);
  }

  lemma WorkDoneKeeps(t: Transfer, j: JobId, work: Work)
    requires Ok(t) && j in t.jobs && t.jobs[j].outcome.None? && WorkPossible(t, t.jobs[j], work)
    requires work.Prepared? ==> work.sealed.uploadId !in t.server.begun
    ensures Ok(WorkDone(t, j, work))
  {
    WorkDoneLedger(t, j, work);
    WorkDoneSound(t, j, work);
    hide Ledger, Sound, WorkDone;
  }

  /** A step begins at most one upload, a new one; only a pass's turn makes the pass wait, only its answer ends the wait. */
  lemma DoRespects(q: Queue, id: Id, one: One)
    requires QueueOk(q) && id in q.transfers && Possible(q, id, one)
    ensures var t, r := q.transfers[id], Do(q, id, one);
            && Respects(t, r, q.signedIn)
            && t.server.begun.Keys <= r.server.begun.Keys
            && (forall u | u in r.server.begun :: u in t.server.begun || FreshUpload(q, u))
            && (r.op.Some? ==> r.op == t.op || one.Turn?)
            && (InPass(one) ==> r.op.None?)
            && (if one.ExtensionFinished? then r == FinishedByExtension(t) else Remembers(t, r))
  {
    hide Ok, TakeLanded, Visit, SealDone, PlanDone, RefreshDone, FinishDone, AssembleDone, OpFailed, WorkDone, JobDone, Finished,
      CancelBegin, CancelDiscard, CancelEnd, Retry, Dismiss, TakeNote, Release, FolderGone, FinishedByExtension;
  }

  lemma NextOk(q: Queue, e: Event, id: Id)
    requires QueueOk(q) && Enabled(q, e) && id in Next(q, e).transfers
    ensures Ok(Next(q, e).transfers[id])
  {
    assert id in q.transfers ==> Ok(q.transfers[id]);
    hide Ok, Do, DropOther, EndFamily, NewUpload, NewKeep, Adopted, Returned, Wipe;
    match e
    case UploadQueued(_, family, copied) => NewUploadOk(q.signedIn, family, copied);
    case KeepQueued(_) => NewKeepOk(q.signedIn);
    case HandoffAdopted(at, family, sealed, etags) =>
      AdoptedOk(q.signedIn, family, sealed, etags);
      if at in q.transfers { assert Ok(q.transfers[at]); ReturnedKeeps(q.transfers[at], etags); }
    case PassBegun => if id in q.transfers { DropOtherKeeps(q.transfers[id], q.signedIn); }
    case Stepped(at, one) => DoKeeps(q, at, one);
    case FamilyLeft(g) => if id in q.transfers { EndFamilyKeeps(q.transfers[id], g); }
    case Claimed(_) => if id in q.transfers { WipeKeeps(q.transfers[id]); }
    case Wiped => if id in q.transfers { WipeKeeps(q.transfers[id]); }
    case _ =>
  }

  /** What a step leaves each transfer with, as far as the queue as a whole is concerned. */
  lemma NextOf(q: Queue, e: Event, id: Id)
    requires QueueOk(q) && Enabled(q, e) && id in Next(q, e).transfers
    ensures var t := Next(q, e).transfers[id];
            && (t.op.Some? ==> Next(q, e).pass == Working(id))
            && (forall u | u in t.server.begun :: (id in q.transfers && u in q.transfers[id].server.begun) || FreshUpload(q, u))
            && (id in q.transfers ==> q.transfers[id].server.begun.Keys <= t.server.begun.Keys)
  {
    if e.Stepped? { DoRespects(q, e.id, e.one); }
    if id in q.transfers { NextIs(q, e, id); } else { NewIs(q, e, id); }
    hide Ok, Do, Next, Possible;
  }

  /** At most one transfer begins an upload in a step. */
  lemma NextBegins(q: Queue, e: Event, a: Id, b: Id, u: UploadId)
    requires QueueOk(q) && Enabled(q, e) && a in Next(q, e).transfers && b in Next(q, e).transfers
    requires u in Next(q, e).transfers[a].server.begun && u in Next(q, e).transfers[b].server.begun
    ensures a == b
  {
    if e.Stepped? { DoRespects(q, e.id, e.one); }
    hide Ok, Do, DropOther, EndFamily;
  }

  lemma NextKeeps(q: Queue, e: Event)
    requires QueueOk(q) && Enabled(q, e)
    ensures QueueOk(Next(q, e))
  {
    hide Ok, Next, Enabled;
    var r := Next(q, e);
    forall id | id in r.transfers ensures Ok(r.transfers[id]) && (r.transfers[id].op.Some? ==> r.pass == Working(id)) {
      NextOk(q, e, id);
      NextOf(q, e, id);
    }
    forall a, b, u | a in r.transfers && b in r.transfers && u in r.transfers[a].server.begun && u in r.transfers[b].server.begun ensures a == b {
      NextBegins(q, e, a, b, u);
    }
  }

  lemma {:induction false} RunKeeps(trace: seq<Queue>, events: seq<Event>, i: nat)
    requires Run(trace, events) && i < |trace|
    ensures QueueOk(trace[i])
  {
    if i > 0 {
      RunKeeps(trace, events, i - 1);
      assert Enabled(trace[i - 1], events[i - 1]);
      NextKeeps(trace[i - 1], events[i - 1]);
    }
  }

  /** What an event leaves of one transfer. */
  lemma NextIs(q: Queue, e: Event, id: Id)
    requires Enabled(q, e) && id in q.transfers
    ensures id in Next(q, e).transfers
    ensures var t, r := q.transfers[id], Next(q, e).transfers[id];
            || (r == t && !TakesData(q, e) && !(e.Stepped? && e.id == id) && !(e.HandoffAdopted? && e.id == id))
            || (e.PassBegun? && r == DropOther(t, q.signedIn))
            || (e.FamilyLeft? && r == EndFamily(t, e.g))
            || (TakesData(q, e) && r == Wipe(t))
            || (e.HandoffAdopted? && e.id == id && Adoptable(q, id) && r == Returned(t, e.etags))
            || (e.Stepped? && e.id == id && r == Do(q, id, e.one))
  {
    hide Do, DropOther, EndFamily, Wipe, Returned, Adopted, NewUpload, NewKeep;
  }

  lemma NewIs(q: Queue, e: Event, id: Id)
    requires Enabled(q, e) && id !in q.transfers && id in Next(q, e).transfers
    ensures var r := Next(q, e).transfers[id];
            || (e.UploadQueued? && e.id == id && r == NewUpload(q.signedIn, e.family, e.copied))
            || (e.KeepQueued? && e.id == id && r == NewKeep(q.signedIn))
            || (e.HandoffAdopted? && e.id == id && r == Adopted(q.signedIn, e.family, e.sealed, e.etags))
  {
    hide Do, DropOther, EndFamily, Wipe, Returned, Adopted, NewUpload, NewKeep;
  }

  // -- What each event leaves of the queue, transfer by transfer --------------------------------------------------------------

  lemma QueuedAs(q: Queue, e: Event, id: Id, t: Transfer)
    requires Enabled(q, e)
    requires || (e.UploadQueued? && e.id == id && t == NewUpload(q.signedIn, e.family, e.copied))
             || (e.KeepQueued? && e.id == id && t == NewKeep(q.signedIn))
             || (e.HandoffAdopted? && e.id == id && id !in q.transfers && t == Adopted(q.signedIn, e.family, e.sealed, e.etags))
    ensures Next(q, e) == q.(transfers := q.transfers[id := t])
  {
    hide NewUpload, NewKeep, Adopted;
  }

  lemma PassBegunAs(q: Queue, id: Id)
    requires id in q.transfers
    ensures var r := Next(q, PassBegun);
            && r.transfers.Keys == q.transfers.Keys && r.signedIn == q.signedIn && r.holder == q.holder
            && (if q.pass != Idle || q.signedIn.None? then r == q else r.pass == Scanning && r.transfers[id] == DropOther(q.transfers[id], q.signedIn))
  {
    hide DropOther;
  }

  lemma PassBegunKeys(q: Queue)
    ensures var r := Next(q, PassBegun);
            r.transfers.Keys == q.transfers.Keys && r.signedIn == q.signedIn && r.holder == q.holder && r.pass == if q.pass != Idle || q.signedIn.None? then q.pass else Scanning
  {
    hide DropOther;
  }

  lemma FamilyLeftAs(q: Queue, g: Group)
    ensures var r := Next(q, FamilyLeft(g));
            && r.transfers.Keys == q.transfers.Keys && r.signedIn == q.signedIn && r.holder == q.holder && r.pass == q.pass
            && forall id | id in q.transfers :: r.transfers[id] == EndFamily(q.transfers[id], g)
  {
    hide EndFamily;
  }

  /** Signing out, or another account's sign-in: every folder goes. */
  lemma WipedAs(q: Queue, e: Event)
    requires TakesData(q, e)
    ensures var r := Next(q, e);
            && r.transfers.Keys == q.transfers.Keys && r.pass == q.pass
            && r.signedIn == (if e.Claimed? then None else q.signedIn) && r.holder == (if e.Claimed? then Some(e.who) else None)
            && forall id | id in q.transfers :: r.transfers[id] == Wipe(q.transfers[id])
  {
    hide Wipe;
  }

  lemma ReturnedAs(q: Queue, id: Id, e: Event)
    requires Enabled(q, e) && e.HandoffAdopted? && e.id == id && id in q.transfers
    ensures q.transfers[id].handoff.Some? && q.transfers[id].record.None?
    ensures q.transfers[id].handoff == Some(Handed(e.sealed, q.signedIn, e.family))
    ensures Next(q, e) == q.(transfers := q.transfers[id := Returned(q.transfers[id], e.etags)])
  {
    hide Returned;
  }

  lemma SteppedAs(q: Queue, id: Id, one: One)
    requires id in q.transfers && Possible(q, id, one)
    ensures var r, t := Next(q, Stepped(id, one)), Do(q, id, one);
            && r.transfers == q.transfers[id := t] && r.signedIn == q.signedIn && r.holder == q.holder
            && r.pass == if one.Turn? && t.op.Some? then Working(id) else if InPass(one) then Scanning else q.pass
  {
    hide Do, Possible;
  }

  // -- The promises, over whole runs ----------------------------------------------------------------------------------

  /**
   An upload that is waiting, sending or finishing has its bytes exactly until its folder goes with an account's data or
   because the extension finished it itself; after that, exactly if every part has its ETag. So it is with a cancel of it
   asked for or not; not said of a family's upload under a cancel, of a record that came back, of a file never copied in,
   or while a family answer that already removed the folder is about to be applied.
   */
  lemma BytesAreKept(trace: seq<Queue>, events: seq<Event>, i: nat, id: Id)
    requires Run(trace, events) && i < |trace| && id in trace[i].transfers
    requires var t := trace[i].transfers[id];
             t.record.Some? && t.record.value.kind == Upload && t.record.value.Active() && Tracked(t) && t.past.copied && !Emptied(t)
    ensures var t := trace[i].transfers[id];
            HasBytes(t.record.value, t.folder) <==> !t.past.Stripped() || AllParts(t.record.value.sealed, t.record.value.etags)
  {
    RunKeeps(trace, events, i);
    var t := trace[i].transfers[id];
    assert Ok(t);
    var rec := t.record.value;
    if t.past.Stripped() && HasBytes(rec, t.folder) {
      assert rec.sealed.Some? && forall p | 1 <= p <= rec.sealed.value.partCount :: p in rec.etags;
      assert rec.etags.Keys == Span(1, rec.sealed.value.partCount + 1);
    }
  }

  /** That early removal happens only to an upload the server completed, or one whose account is no longer in the family. */
  lemma EmptiedOnlyAtTheEnd(trace: seq<Queue>, events: seq<Event>, i: nat, id: Id)
    requires Run(trace, events) && i < |trace| && id in trace[i].transfers
    requires var t := trace[i].transfers[id]; t.record.Some? && t.record.value.kind == Upload && Tracked(t) && Emptied(t)
    ensures var t := trace[i].transfers[id];
            var job := t.jobs[t.sealing.value];
            job.outcome == Some(Refused(false)) || (job.finish && job.sealed.Some? && job.sealed.value.uploadId in t.server.completed)
  {
    RunKeeps(trace, events, i);
  }

  /** Every ETag a record keeps was returned for the part it is kept under, of the upload the record now has. */
  lemma EtagsAreOfTheCurrentUpload(trace: seq<Queue>, events: seq<Event>, i: nat, id: Id, part: int)
    requires Run(trace, events) && i < |trace| && id in trace[i].transfers
    requires var t := trace[i].transfers[id];
             t.record.Some? && t.record.value.kind == Upload && Tracked(t) && part in t.record.value.etags
    ensures var rec := trace[i].transfers[id].record.value;
            && rec.sealed.Some? && rec.etags[part] == Etag(rec.sealed.value.uploadId, part)
            && 1 <= part <= rec.sealed.value.partCount
  {
    RunKeeps(trace, events, i);
  }

  /** A record that is finishing holds exactly its parts, or exactly its chunks, with their files unless the account's data went, though only counts are compared. */
  lemma FinishingIsComplete(trace: seq<Queue>, events: seq<Event>, i: nat, id: Id)
    requires Run(trace, events) && i < |trace| && id in trace[i].transfers
    requires var t := trace[i].transfers[id]; t.record.Some? && t.record.value.state == Finishing
    ensures var t := trace[i].transfers[id];
            var rec := t.record.value;
            if rec.kind == Upload then Tracked(t) ==> rec.sealed.Some? && rec.etags.Keys == Span(1, rec.sealed.value.partCount + 1)
            else rec.plan.Some? && rec.fetched == Span(0, rec.plan.value.chunkCount) && (!t.past.wiped ==> rec.fetched <= t.folder.chunks)
  {
    RunKeeps(trace, events, i);
  }

  /** The one record that can hold an upload: the one it was begun for. */
  ghost predicate HeldBy(q: Queue, id: Id, u: UploadId) {
    id in q.transfers && Holds(q.transfers[id].record, u)
  }

  /**
   Conservation: an upload the server ever began for a transfer is held by that transfer's record, or on its way to it,
   or was aborted under its own account or landed, or is lost (`TransferReasons` says why); and no other record ever holds it.
   */
  lemma UploadsAreConserved(trace: seq<Queue>, events: seq<Event>, i: nat, id: Id, u: UploadId)
    requires Run(trace, events) && i < |trace| && id in trace[i].transfers && u in trace[i].transfers[id].server.begun
    ensures var t := trace[i].transfers[id];
            HeldBy(trace[i], id, u) || InFlight(t.jobs, u) || u in t.server.asked || u in t.server.completed || u in t.server.lost
    ensures forall other | HeldBy(trace[i], other, u) :: other == id
    ensures var t := trace[i].transfers[id];
            u in t.server.lost ==> (t.server.lost[u] == OwnSealGone ==> t.record.None? || t.past.returned) && (t.server.lost[u] == Raced ==> t.past.cancelled || t.past.returned)
  {
    RunKeeps(trace, events, i);
    assert Ok(trace[i].transfers[id]);
    forall other | HeldBy(trace[i], other, u) ensures other == id {
      assert Ok(trace[i].transfers[other]);
    }
  }

  /** Nothing was ever handed to the session but under the account its record belongs to. */
  lemma TasksGoUnderTheirOwner(trace: seq<Queue>, events: seq<Event>, i: nat, id: Id, task: Task)
    requires Run(trace, events) && 0 < i < |trace| && id in trace[i].transfers && task in trace[i].transfers[id].handed
    requires id in trace[i - 1].transfers ==> task !in trace[i - 1].transfers[id].handed
    ensures trace[i - 1].signedIn.Some? && task.owner == trace[i - 1].signedIn
  {
    RunKeeps(trace, events, i - 1);
    var q, e := trace[i - 1], events[i - 1];
    assert Enabled(q, e) && trace[i] == Next(q, e);
    if id in q.transfers {
      NextIs(q, e, id);
      if e.Stepped? && e.id == id { DoRespects(q, id, e.one); }
    } else {
      NewIs(q, e, id);
    }
    hide Do, Ok, Next, Possible;
  }

  /** A pass that begins leaves only the records of the account signed in. */
  lemma PassDropsOthers(q: Queue, id: Id)
    requires q.pass == Idle && q.signedIn.Some? && id in q.transfers
    ensures var t := Next(q, PassBegun).transfers[id];
            && (t.record.Some? <==> q.transfers[id].record.Some? && q.transfers[id].record.value.owner == q.signedIn)
            && (t.record.Some? ==> t == q.transfers[id])
            && (t.record.None? && q.transfers[id].record.Some? ==> t.folder == GONE)
  {
  }

  /** A callback that does not name its upload keeps the ETags in order exactly when its ETag is of the upload now held. */
  lemma UnnamedCallback(t: Transfer, me: Option<Account>, piece: int, etag: Etag)
    requires t.record.Some? && t.record.value.kind == Upload && t.record.value.sealed.Some?
    requires Genuine(t.record.value.sealed.value, t.record.value.etags)
    ensures var r := Finished(t, me, Desc(piece, None), 200, Some(etag), false).record.value;
            Genuine(r.sealed.value, r.etags) <==>
              etag == Etag(t.record.value.sealed.value.uploadId, piece + 1) && 0 <= piece < t.record.value.sealed.value.partCount
  {
    var rec := t.record.value;
    var r := Finished(t, me, Desc(piece, None), 200, Some(etag), false).record.value;
    assert r.etags == rec.etags[piece + 1 := etag] && r.sealed == rec.sealed;
    assert piece + 1 in r.etags && r.etags[piece + 1] == etag;
  }

  /** Late, with the ETag of an upload since sealed again, such a callback puts it among the new upload's. */
  lemma AStaleUnnamedCallbackIsKept()
    ensures var rec := Record(Upload, Sending, Some(1), None, Some(Sealed(9, 2, {1, 2})), map[], None, {}, {}, 0);
            var t := NOTHING.(record := Some(rec));
            var r := Finished(t, Some(1), Desc(0, None), 200, Some(Etag(8, 1)), false).record.value;
            Genuine(rec.sealed.value, rec.etags) && r.etags == map[1 := Etag(8, 1)] && !Genuine(r.sealed.value, r.etags)
  {
    var rec := Record(Upload, Sending, Some(1), None, Some(Sealed(9, 2, {1, 2})), map[], None, {}, {}, 0);
    UnnamedCallback(NOTHING.(record := Some(rec)), Some(1), 0, Etag(8, 1));
  }
}
