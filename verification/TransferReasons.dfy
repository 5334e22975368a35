/** Why an upload is ever lost: each step loses one only for the reason it is noted with, and undisturbed none is. */
module TransferReasons {
  import opened Common
  import opened TransferModel
  import opened TransferInvariants
  import opened TransferRuns
  import opened TransferSteps
  import opened TransferSafety

  /** Aborts and losses stand; none is lost to a family's end; to another account, to a seal's own, or to a race but as these say. */
  ghost predicate LosesFairly(s: Server, r: Server, other: bool, gone: bool, raced: Option<UploadId>) {
    && s.asked <= r.asked
    && (forall u | u in s.lost :: u in r.lost && r.lost[u] == s.lost[u])
    && (forall u | u in r.lost && u !in s.lost ::
          && r.lost[u] != FamilyEnded && (r.lost[u] == OtherAccount ==> other) && (r.lost[u] == OwnSealGone ==> gone)
          && (r.lost[u] == Raced ==> raced == Some(u)))
  }

  lemma FairlyThen(s: Server, m: Server, r: Server, other: bool, gone: bool, raced: Option<UploadId>)
    requires LosesFairly(s, m, other, gone, raced) && LosesFairly(m, r, other, gone, raced)
    ensures LosesFairly(s, r, other, gone, raced)
  {
  }

  lemma ServersAreFair(s: Server, held: Option<Sealed>, sealed: Option<Sealed>, other: bool, gone: bool, raced: Option<UploadId>)
    ensures LosesFairly(s, s, other, gone, raced) && LosesFairly(s, s.Aborted(held), other, gone, raced)
    ensures LosesFairly(s, s.Completed(held), other, gone, raced)
    ensures held.None? || raced == Some(held.value.uploadId) ==> LosesFairly(s, s.Replaced(held, sealed), other, gone, raced)
    ensures other ==> LosesFairly(s, s.Forgot(held, OtherAccount), other, gone, raced)
    ensures gone ==> LosesFairly(s, s.Forgot(held, OwnSealGone), other, gone, raced)
    ensures sealed.Some? ==> LosesFairly(s, s.Begin(sealed.value), other, gone, raced)
  {
  }

  function NamedBy(record: Option<Record>): (u: Option<UploadId>) {
    if record.Some? then record.value.Named() else None
  }

  predicate Others(t: Transfer, me: Option<Account>) {
    t.record.Some? && !Runnable(t.record.value.owner, me)
  }

  predicate SealAlone(t: Transfer) {
    t.record.None? && t.op == Some(SealOp)
  }

  /**
   What was lost in a step was lost to another account only while it was signed in, and to a race only if `races`: then
   it was what the record held. The record stays its owner's.
   */
  ghost predicate Fair(t: Transfer, r: Transfer, me: Option<Account>, races: bool) {
    && LosesFairly(t.server, r.server, Others(t, me), SealAlone(t), if races then NamedBy(t.record) else None)
    && (r.record.Some? ==> t.record.Some? && r.record.value.owner == t.record.value.owner)
  }

  /** Nothing is said of cancels, and no record goes. */
  ghost predicate Keeps(t: Transfer, r: Transfer) {
    r.cancels == t.cancels && (t.record.Some? ==> r.record.Some?)
  }

  lemma Then(t: Transfer, s: Transfer, r: Transfer, me: Option<Account>, races: bool)
    requires Fair(t, s, me, races) && Keeps(t, s) && Fair(s, r, me, false) && Keeps(s, r) && s.record.Some?
    ensures Fair(t, r, me, races) && Keeps(t, r)
  {
    var raced := if races then NamedBy(t.record) else None;
    assert LosesFairly(s.server, r.server, Others(t, me), false, raced);
    FairlyThen(t.server, s.server, r.server, Others(t, me), false, raced);
    hide LosesFairly;
  }

  lemma StartFair(t: Transfer, me: Option<Account>, running: set<Desc>)
    ensures Fair(t, Start(t, me, running), me, false) && Keeps(t, Start(t, me, running))
  {
    assert Start(t, me, running).server == t.server;
  }

  lemma FailFair(t: Transfer, me: Option<Account>, passes: bool)
    ensures Fair(t, Fail(t, me, passes), me, false) && Keeps(t, Fail(t, me, passes))
  {
    if t.record.Some? { ServersAreFair(t.server, t.record.value.sealed, None, Others(t, me), false, None); }
    ServersAreFair(t.server, None, None, Others(t, me), SealAlone(t), None);
    hide LosesFairly, Server.Forgot, Server.Aborted;
  }

  lemma VisitFair(t: Transfer, me: Option<Account>, job: JobId, online: bool, families: bool, slot: bool, running: set<Desc>)
    ensures Fair(t, Visit(t, me, job, online, families, slot, running), me, false) && Keeps(t, Visit(t, me, job, online, families, slot, running))
  {
    StartFair(t, me, running);
    hide Start;
  }

  lemma SealDoneFair(t: Transfer, me: Option<Account>, sealed: Sealed, kept: bool)
    requires t.op == Some(SealOp)
    ensures Fair(t, SealDone(t, me, sealed, kept), me, true) && Keeps(t, SealDone(t, me, sealed, kept))
  {
    var begun := t.server.Begin(sealed);
    ServersAreFair(t.server, None, Some(sealed), Others(t, me), SealAlone(t), NamedBy(t.record));
    if t.record.Some? {
      ServersAreFair(begun, t.record.value.sealed, Some(sealed), Others(t, me), SealAlone(t), NamedBy(t.record));
      FairlyThen(t.server, begun, begun.Replaced(t.record.value.sealed, Some(sealed)), Others(t, me), SealAlone(t), NamedBy(t.record));
    } else {
      ServersAreFair(begun, Some(sealed), None, Others(t, me), SealAlone(t), NamedBy(t.record));
      FairlyThen(t.server, begun, begun.Forgot(Some(sealed), OwnSealGone), Others(t, me), SealAlone(t), NamedBy(t.record));
    }
    hide Start, LosesFairly, Server.Forgot, Server.Replaced, Server.Begin;
  }

  lemma PlanDoneFair(t: Transfer, me: Option<Account>, plan: Plan)
    ensures Fair(t, PlanDone(t, me, plan), me, false) && Keeps(t, PlanDone(t, me, plan))
  {
    ServersAreFair(t.server, None, None, Others(t, me), SealAlone(t), None);
    hide Start, LosesFairly;
  }

  /** A record takes another upload, or none, and whatever else. */
  lemma TakesFair(t: Transfer, r: Transfer, me: Option<Account>)
    requires t.record.Some? && r.record.Some? && r.record.value.owner == t.record.value.owner && r.cancels == t.cancels
    requires r.server == t.server || r.server == t.server.Replaced(t.record.value.sealed, r.record.value.sealed)
    ensures Fair(t, r, me, true) && Keeps(t, r)
  {
    ServersAreFair(t.server, t.record.value.sealed, r.record.value.sealed, Others(t, me), SealAlone(t), NamedBy(t.record));
    hide LosesFairly, Server.Replaced;
  }

  lemma RefreshDoneFair(t: Transfer, me: Option<Account>, renewed: set<int>, running: set<Desc>)
    requires t.op.Some? && t.op.value.RefreshOp?
    ensures Fair(t, RefreshDone(t, me, renewed, running), me, true) && Keeps(t, RefreshDone(t, me, renewed, running))
  {
    if t.record.Some? {
      var s := Readdressed(t, renewed);
      TakesFair(t, s, me);
      StartFair(s, me, running);
      assert RefreshDone(t, me, renewed, running) == Start(s, me, running) by { hide Start; }
      hide RefreshDone, Start, Readdressed, Fair, Keeps;
      Then(t, s, Start(s, me, running), me, true);
    } else {
      ServersAreFair(t.server, None, None, Others(t, me), SealAlone(t), NamedBy(t.record));
      hide Start, LosesFairly;
    }
  }

  lemma ApplyFair(t: Transfer, me: Option<Account>, step: Step, sealed: Option<Sealed>, etags: map<int, Etag>)
    requires t.record.Some?
    ensures Fair(t, Apply(t, me, step, sealed, etags), me, true) && Keeps(t, Apply(t, me, step, sealed, etags))
  {
    var rec := t.record.value.(sealed := sealed, etags := etags);
    var s := t.(record := Some(rec), server := t.server.Replaced(t.record.value.sealed, sealed));
    match step
    case Send =>
      var sent := Put(s, rec.(state := Sending, expired := {}, failures := 0));
      TakesFair(t, sent, me);
      StartFair(sent, me, {});
      hide Start, Fair, Keeps, Server.Replaced;
      Then(t, sent, Start(sent, me, {}), me, true);
    case Refused(passes) =>
      TakesFair(t, s, me);
      FailFair(s, me, passes);
      hide Fail, Fair, Keeps, Server.Replaced;
      Then(t, s, Fail(s, me, passes), me, true);
    case _ =>
      hide Fair, Keeps, Server.Replaced;
      TakesFair(t, Apply(t, me, step, sealed, etags), me);
  }

  lemma JobDoneFair(t: Transfer, me: Option<Account>, j: JobId)
    requires j in t.jobs && t.jobs[j].outcome.Some?
    ensures Fair(t, JobDone(t, me, j), me, true) && Keeps(t, JobDone(t, me, j))
  {
    var job := t.jobs[j];
    ServersAreFair(t.server, job.sealed, None, Others(t, me), SealAlone(t), NamedBy(t.record));
    if t.record.Some? {
      var s := t.(jobs := t.jobs - {j}, sealing := None);
      ApplyFair(s, me, job.outcome.value, job.sealed, job.etags);
    }
    hide Apply, LosesFairly, Server.Aborted;
  }

  lemma WorkDoneFair(t: Transfer, me: Option<Account>, j: JobId, work: Work)
    requires j in t.jobs
    ensures Fair(t, WorkDone(t, j, work), me, false) && Keeps(t, WorkDone(t, j, work))
  {
    ServersAreFair(t.server, t.jobs[j].sealed, if work.Prepared? then Some(work.sealed) else None, Others(t, me), SealAlone(t), None);
    hide LosesFairly, Server.Aborted, Server.Completed, Server.Begin;
  }

  lemma RetryPieceFair(t: Transfer, me: Option<Account>, piece: int, status: int)
    requires t.record.Some?
    ensures Fair(t, RetryPiece(t, me, piece, status), me, false) && Keeps(t, RetryPiece(t, me, piece, status))
  {
    var s := Put(t, t.record.value.(failures := t.record.value.failures + 1));
    ServersAreFair(t.server, None, None, Others(t, me), SealAlone(t), None);
    assert Fair(t, s, me, false) && Keeps(t, s);
    StartFair(s, me, {});
    FailFair(s, me, Passes(status));
    Then(t, s, Start(s, me, {}), me, false);
    Then(t, s, Fail(s, me, Passes(status)), me, false);
    hide Start, Fail, LosesFairly;
  }

  lemma ArriveFair(t: Transfer, me: Option<Account>)
    requires t.record.Some?
    ensures Fair(t, Arrive(t), me, false) && Keeps(t, Arrive(t))
  {
    ServersAreFair(t.server, None, None, Others(t, me), SealAlone(t), None);
    hide LosesFairly;
  }

  /** What a callback makes of its piece, before it is asked whether all have landed. */
  function Heard(t: Transfer, me: Option<Account>, d: Desc, status: int, etag: Option<Etag>, fetched: bool): (r: Transfer)
    requires t.record.Some?
    ensures r.record.Some?
  {
    var rec := t.record.value;
    if rec.kind == Upload then
      if etag.Some? then
        Put(t, rec.(etags := rec.etags[d.piece + 1 := etag.value], failures := 0)).(folder := t.folder.(parts := t.folder.parts - {d.piece + 1}))
      else RetryPiece(t, me, d.piece + 1, status)
    else if fetched then
      Put(t, rec.(fetched := rec.fetched + {d.piece}, failures := 0)).(folder := t.folder.(chunks := t.folder.chunks + {d.piece}))
    else RetryPiece(t, me, d.piece, status)
  }

  lemma HeardFair(t: Transfer, me: Option<Account>, d: Desc, status: int, etag: Option<Etag>, fetched: bool)
    requires t.record.Some?
    ensures Fair(t, Heard(t, me, d, status, etag, fetched), me, false) && Keeps(t, Heard(t, me, d, status, etag, fetched))
  {
    ServersAreFair(t.server, None, None, Others(t, me), SealAlone(t), None);
    RetryPieceFair(t, me, d.piece + 1, status);
    RetryPieceFair(t, me, d.piece, status);
    hide RetryPiece, LosesFairly;
  }

  lemma FinishedFair(t: Transfer, me: Option<Account>, d: Desc, status: int, etag: Option<Etag>, fetched: bool)
    ensures Fair(t, Finished(t, me, d, status, etag, fetched), me, false) && Keeps(t, Finished(t, me, d, status, etag, fetched))
  {
    ServersAreFair(t.server, None, None, Others(t, me), SealAlone(t), None);
    if t.record.Some? && !(d.upload.Some? && d.upload != t.record.value.Named()) {
      var s := Heard(t, me, d, status, etag, fetched);
      assert Finished(t, me, d, status, etag, fetched) == Arrive(s) by { hide RetryPiece, Arrive; }
      HeardFair(t, me, d, status, etag, fetched);
      ArriveFair(s, me);
      hide Heard, Arrive, Finished, LosesFairly;
      Then(t, s, Arrive(s), me, false);
    }
  }

  lemma RetryFair(t: Transfer, me: Option<Account>)
    ensures Fair(t, Retry(t), me, true) && Keeps(t, Retry(t))
  {
    if t.record.Some? { ServersAreFair(t.server, t.record.value.sealed, None, Others(t, me), SealAlone(t), NamedBy(t.record)); }
    ServersAreFair(t.server, None, None, Others(t, me), SealAlone(t), NamedBy(t.record));
    hide LosesFairly, Server.Replaced;
  }

  lemma DismissFair(t: Transfer, me: Option<Account>)
    ensures Fair(t, Dismiss(t), me, true) && Dismiss(t).cancels == t.cancels
  {
    if t.record.Some? { ServersAreFair(t.server, t.record.value.sealed, None, Others(t, me), SealAlone(t), NamedBy(t.record)); }
    ServersAreFair(t.server, None, None, Others(t, me), SealAlone(t), NamedBy(t.record));
    hide LosesFairly, Server.Replaced;
  }

  lemma DropOtherFair(t: Transfer, me: Option<Account>)
    ensures Fair(t, DropOther(t, me), me, false) && DropOther(t, me).cancels == t.cancels
    ensures t.record.Some? && DropOther(t, me).record.None? ==> Others(t, me)
  {
    if t.record.Some? { ServersAreFair(t.server, t.record.value.sealed, None, Others(t, me), SealAlone(t), None); }
    ServersAreFair(t.server, None, None, Others(t, me), SealAlone(t), None);
    hide LosesFairly, Server.Forgot;
  }

  lemma FinishDoneFair(t: Transfer, me: Option<Account>)
    requires t.op.Some? && t.op.value.FinishOp?
    ensures Fair(t, FinishDone(t), me, false) && Keeps(t, FinishDone(t))
  {
    ServersAreFair(t.server, Some(t.op.value.sealed), None, Others(t, me), SealAlone(t), None);
    hide LosesFairly, Server.Completed;
  }

  lemma AssembleDoneFair(t: Transfer, me: Option<Account>)
    ensures Fair(t, AssembleDone(t), me, false) && Keeps(t, AssembleDone(t))
  {
    ServersAreFair(t.server, None, None, Others(t, me), SealAlone(t), None);
    hide LosesFairly;
  }

  lemma NotesFair(t: Transfer, me: Option<Account>)
    ensures Fair(t, TakeNote(t), me, false) && Keeps(t, TakeNote(t)) && Fair(t, Release(t), me, false) && Keeps(t, Release(t))
    ensures Fair(t, FolderGone(t), me, false) && Keeps(t, FolderGone(t)) && Fair(t, Wipe(t), me, false) && Keeps(t, Wipe(t))
    ensures Fair(t, FinishedByExtension(t), me, false) && Keeps(t, FinishedByExtension(t))
  {
    if t.handoff.Some? { ServersAreFair(t.server, Some(t.handoff.value.sealed), None, Others(t, me), SealAlone(t), None); }
    ServersAreFair(t.server, None, None, Others(t, me), SealAlone(t), None);
    hide LosesFairly, Server.Completed;
  }

  lemma TakeLandedFair(t: Transfer, me: Option<Account>, landed: map<int, Etag>)
    ensures Fair(t, TakeLanded(t, landed), me, false) && Keeps(t, TakeLanded(t, landed))
  {
    ServersAreFair(t.server, None, None, Others(t, me), SealAlone(t), None);
    hide LosesFairly;
  }

  /** A cancel's steps before its last: an abort under the record's own account stands. */
  lemma CancelBeginFair(t: Transfer, me: Option<Account>, c: nat)
    ensures Fair(t, CancelBegin(t, c), me, false) && (t.record.Some? ==> CancelBegin(t, c).record.Some?)
    ensures CancelBegin(t, c).cancels == if t.record.Some? then t.cancels[c := Cancel(t.record.value, false)] else t.cancels
  {
    ServersAreFair(t.server, None, None, Others(t, me), SealAlone(t), None);
    hide LosesFairly;
  }

  lemma CancelDiscardFair(t: Transfer, me: Option<Account>, c: nat, families: bool)
    requires c in t.cancels
    ensures var r := CancelDiscard(t, me, c, families);
            var read := t.cancels[c].read;
            && Fair(t, r, me, false) && r.cancels == t.cancels[c := Cancel(read, true)] && r.record == t.record
            && (Runnable(read.owner, me) && read.sealed.Some? ==> read.sealed.value.uploadId in r.server.asked)
  {
    ServersAreFair(t.server, t.cancels[c].read.sealed, None, Others(t, me), SealAlone(t), None);
    hide LosesFairly;
  }

  /** Its last: the record's own upload, if no abort ever went out for it, or one it never read. */
  lemma CancelEndFair(t: Transfer, c: nat)
    requires c in t.cancels
    ensures var r := CancelEnd(t, c);
            && r.server.asked == t.server.asked && r.cancels == t.cancels - {c} && r.record.None?
            && (forall u | u in t.server.lost :: u in r.server.lost && r.server.lost[u] == t.server.lost[u])
            && (forall u | u in r.server.lost && u !in t.server.lost ::
                  && (r.server.lost[u] == OtherAccount || r.server.lost[u] == Raced) && u !in t.server.asked
                  && (r.server.lost[u] == OtherAccount ==> t.cancels[c].read.Named() == Some(u)) && Holds(t.record, u))
  {
  }

  lemma EndFamilyFair(t: Transfer, g: Group)
    ensures var r := EndFamily(t, g);
            && t.server.asked == r.server.asked && r.cancels == t.cancels && (t.record.Some? <==> r.record.Some?)
            && (r.record.Some? ==> r.record.value.owner == t.record.value.owner)
            && (forall u | u in t.server.lost :: u in r.server.lost && r.server.lost[u] == t.server.lost[u])
            && (forall u | u in r.server.lost && u !in t.server.lost ::
                  r.server.lost[u] == FamilyEnded && t.record.Some? && t.record.value.family == Some(g) && t.record.value.Named() == Some(u))
  {
  }

  /** The steps in which a record takes another upload, or lets go of its own. */
  predicate MayRace(one: One) {
    one.SealCame? || one.AddressesCame? || one.JobCame? || one.RetryAsked? || one.Dismissed? || one.CancelLast?
  }

  // -- Each step of the queue ------------------------------------------------------------------------------------------------------

  /** What a step leaves of the cancels under way, but for the cancel it is of. */
  ghost predicate CancelsStand(t: Transfer, r: Transfer, one: One) {
    && (forall c | c in t.cancels && !(one.CancelListed? && one.c == c) :: c in r.cancels && r.cancels[c] == t.cancels[c])
    && (forall c | c in r.cancels && c !in t.cancels :: one == CancelAsked(c) && !r.cancels[c].discarded)
  }

  lemma KeepsStand(t: Transfer, r: Transfer, one: One)
    requires r.cancels == t.cancels
    ensures CancelsStand(t, r, one)
  {
  }

  /** Every step of one transfer but a cancel's last. */
  lemma DoFair(q: Queue, id: Id, one: One)
    requires id in q.transfers && Possible(q, id, one) && !one.CancelLast?
    ensures Fair(q.transfers[id], Do(q, id, one), q.signedIn, MayRace(one))
    ensures q.transfers[id].record.Some? ==> one.Dismissed? || Do(q, id, one).record.Some?
    ensures CancelsStand(q.transfers[id], Do(q, id, one), one)
  {
    var t, me := q.transfers[id], q.signedIn;
    if one.CancelAsked? {
      CancelBeginFair(t, me, one.c);
      hide CancelBegin, Fair;
    } else if one.CancelListed? {
      CancelDiscardFair(t, me, one.c, one.families);
      hide CancelDiscard, Fair;
    } else {
      hide Fair, CancelsStand;
      if InPass(one) { AnswerFair(q, id, one); } else { CallFair(q, id, one); }
      hide Do;
      KeepsStand(t, Do(q, id, one), one);
    }
  }

  lemma CallFair(q: Queue, id: Id, one: One)
    requires id in q.transfers && Possible(q, id, one) && !InPass(one) && !one.CancelAsked? && !one.CancelListed? && !one.CancelLast?
    ensures Fair(q.transfers[id], Do(q, id, one), q.signedIn, MayRace(one)) && Do(q, id, one).cancels == q.transfers[id].cancels
    ensures q.transfers[id].record.Some? ==> one.Dismissed? || Do(q, id, one).record.Some?
  {
    var t, me := q.transfers[id], q.signedIn;
    hide TakeLanded, Visit, WorkDone, JobDone, Finished, Retry, Dismiss, TakeNote, Release, FolderGone, FinishedByExtension, Fair, Possible;
    match one
    case Landings(landed) => TakeLandedFair(t, me, landed);
    case Turn(job, online, families, running) => VisitFair(t, me, job, online, families, |Sealing(q)| < SEALING_AT_ONCE, running);
    case RetryAsked => RetryFair(t, me);
    case Dismissed => DismissFair(t, me);
    case NoteTaken => NotesFair(t, me);
    case NoteReleased => NotesFair(t, me);
    case NoteDropped => NotesFair(t, me);
    case Swept => NotesFair(t, me);
    case ExtensionFinished => NotesFair(t, me);
    case _ => BackFair(q, id, one);
  }

  /** What comes back from elsewhere: a family's work, a task. */
  lemma BackFair(q: Queue, id: Id, one: One)
    requires id in q.transfers && Possible(q, id, one) && (one.JobWorked? || one.JobCame? || one.TaskEnded?)
    ensures Fair(q.transfers[id], Do(q, id, one), q.signedIn, MayRace(one)) && Keeps(q.transfers[id], Do(q, id, one))
  {
    var t, me := q.transfers[id], q.signedIn;
    if one.TaskEnded? {
      hide Fair, Keeps, Do, Possible;
      TaskFair(q, id, one);
    } else if one.JobWorked? {
      hide WorkDone, Fair, Keeps, FreshUpload, WorkPossible;
      WorkDoneFair(t, me, one.j, one.work);
    } else {
      hide JobDone, Fair, Keeps;
      JobDoneFair(t, me, one.j);
    }
  }

  lemma TaskFair(q: Queue, id: Id, one: One)
    requires id in q.transfers && Possible(q, id, one) && one.TaskEnded?
    ensures Fair(q.transfers[id], Do(q, id, one), q.signedIn, MayRace(one)) && Keeps(q.transfers[id], Do(q, id, one))
  {
    hide Finished, Fair, Keeps;
    FinishedFair(q.transfers[id], q.signedIn, one.task.desc, one.status,
                 if one.ok then Some(Etag(one.task.desc.upload.value, one.task.desc.piece + 1)) else None, one.fetched);
  }

  lemma AnswerFair(q: Queue, id: Id, one: One)
    requires id in q.transfers && Possible(q, id, one) && InPass(one)
    ensures Fair(q.transfers[id], Do(q, id, one), q.signedIn, MayRace(one)) && Keeps(q.transfers[id], Do(q, id, one))
  {
    var t, me := q.transfers[id], q.signedIn;
    hide SealDone, PlanDone, RefreshDone, FinishDone, AssembleDone, Fail, Fair;
    match one
    case SealCame(sealed, kept) => SealDoneFair(t, me, sealed, kept);
    case PlanCame(plan) => PlanDoneFair(t, me, plan);
    case AddressesCame(renewed, running) => RefreshDoneFair(t, me, renewed, running);
    case PassFailed(passes) => OpFailedFair(t, me, passes);
    case CompletionCame => FinishDoneFair(t, me);
    case _ => AssembleDoneFair(t, me);
  }

  lemma OpFailedFair(t: Transfer, me: Option<Account>, passes: bool)
    ensures Fair(t, OpFailed(t, me, passes), me, false) && Keeps(t, OpFailed(t, me, passes))
  {
    var s := t.(op := None);
    FailFair(s, me, passes);
    hide Fail;
  }

  // -- Each step of the queue, as one transfer has it ----------------------------------------------------------------------------------

  predicate Brand(t: Transfer, me: Option<Account>) {
    t.server.lost == map[] && t.cancels == map[] && t.record.Some? && t.record.value.owner == me && t.op.None?
  }

  /** A transfer is queued, is left as it is, drops out, ends with its family, is wiped, comes back, or takes a step. */
  lemma OneOf(q: Queue, e: Event, id: Id)
    requires QueueOk(q) && Enabled(q, e) && id in Next(q, e).transfers
    ensures var r := Next(q, e).transfers[id];
            if id !in q.transfers then Brand(r, q.signedIn)
            else
              || (r == q.transfers[id] && !(e.Stepped? && e.id == id))
              || (e.PassBegun? && r == DropOther(q.transfers[id], q.signedIn))
              || (e.FamilyLeft? && r == EndFamily(q.transfers[id], e.g))
              || (TakesData(q, e) && r == Wipe(q.transfers[id]))
              || (e.HandoffAdopted? && e.id == id && Adoptable(q, id) && r == Returned(q.transfers[id], e.etags))
              || (e.Stepped? && e.id == id && r == Do(q, id, e.one))
  {
    if id in q.transfers { NextIs(q, e, id); } else { NewIs(q, e, id); }
    hide Do, DropOther, EndFamily, Wipe, Returned, Next, QueueOk, Enabled;
  }

  lemma StepIs(q: Queue, e: Event)
    requires Enabled(q, e) && e.Stepped?
    ensures e.id in q.transfers && Possible(q, e.id, e.one)
  {
    hide Possible;
  }

  /** A cancel listed now was listed before, unless this step listed it; aborts stand. */
  lemma CancelStood(q: Queue, e: Event, id: Id, c: nat)
    requires QueueOk(q) && Enabled(q, e) && id in Next(q, e).transfers && c in Next(q, e).transfers[id].cancels
    requires Next(q, e).transfers[id].cancels[c].discarded && !(e.Stepped? && e.id == id && e.one.CancelListed? && e.one.c == c)
    ensures id in q.transfers && c in q.transfers[id].cancels && q.transfers[id].cancels[c] == Next(q, e).transfers[id].cancels[c]
    ensures q.transfers[id].server.asked <= Next(q, e).transfers[id].server.asked
  {
    hide QueueOk, Possible, Next, Enabled, Do, DropOther, EndFamily, CancelEnd;
    OneOf(q, e, id);
    assert id in q.transfers;
    var t := q.transfers[id];
    DropOtherFair(t, q.signedIn);
    if e.FamilyLeft? { EndFamilyFair(t, e.g); }
    if e.Stepped? && e.id == id {
      StepIs(q, e);
      if e.one.CancelLast? { LastIs(q, id, e.one); CancelEndFair(t, e.one.c); } else { DoFair(q, id, e.one); }
    }
  }

  lemma LastIs(q: Queue, id: Id, one: One)
    requires id in q.transfers && Possible(q, id, one) && one.CancelLast?
    ensures one.c in q.transfers[id].cancels && q.transfers[id].cancels[one.c].discarded && Do(q, id, one) == CancelEnd(q.transfers[id], one.c)
  {
    hide CancelEnd;
  }

  /** A cancel that was listed was so at some step, and under the account of what it read its abort went out then. */
  lemma {:induction false} ListedAt(trace: seq<Queue>, events: seq<Event>, i: nat, id: Id, c: nat) returns (j: nat, families: bool)
    requires Run(trace, events) && i < |trace| && id in trace[i].transfers && c in trace[i].transfers[id].cancels && trace[i].transfers[id].cancels[c].discarded
    ensures j < i && events[j] == Stepped(id, CancelListed(c, families)) && id in trace[j].transfers && c in trace[j].transfers[id].cancels
    ensures trace[j].transfers[id].cancels[c].read == trace[i].transfers[id].cancels[c].read
    ensures var read := trace[i].transfers[id].cancels[c].read;
            Runnable(read.owner, trace[j].signedIn) && read.sealed.Some? ==> read.sealed.value.uploadId in trace[i].transfers[id].server.asked
    decreases i
  {
    hide QueueOk, CancelDiscard, Fair;
    RunKeeps(trace, events, i - 1);
    var q, e := trace[i - 1], events[i - 1];
    assert Enabled(q, e) && trace[i] == Next(q, e);
    hide Run, Next;
    if e.Stepped? && e.id == id && e.one.CancelListed? && e.one.c == c {
      SteppedAs(q, id, e.one);
      CancelDiscardFair(q.transfers[id], q.signedIn, c, e.one.families);
      j, families := i - 1, e.one.families;
    } else {
      CancelStood(q, e, id, c);
      hide Enabled;
      j, families := ListedAt(trace, events, i - 1, id, c);
    }
  }

  // -- The promises -------------------------------------------------------------------------------------------------------------------

  /** The listing step of a cancel found another account signed in than the one of the record it had read. */
  ghost predicate ListedForAnother(trace: seq<Queue>, events: seq<Event>, j: nat, id: Id, c: nat)
    requires |trace| == |events| + 1
  {
    && j < |events| && events[j].Stepped? && events[j].id == id && events[j].one.CancelListed? && events[j].one.c == c
    && id in trace[j].transfers && c in trace[j].transfers[id].cancels
    && !Runnable(trace[j].transfers[id].cancels[c].read.owner, trace[j].signedIn)
  }

  /** Why one upload was lost in the step from `i`. */
  ghost predicate LostBecause(trace: seq<Queue>, events: seq<Event>, i: nat, id: Id, u: UploadId, reason: Reason)
    requires |trace| == |events| + 1 && i < |events| && id in trace[i].transfers && id in trace[i + 1].transfers
  {
    var t, e := trace[i].transfers[id], events[i];
    match reason
    case OtherAccount =>
      if e.Stepped? && e.id == id && e.one.CancelLast? then exists j: nat :: j < i && ListedForAnother(trace, events, j, id, e.one.c)
      else Others(t, trace[i].signedIn)
    case FamilyEnded => e.FamilyLeft? && t.record.Some? && t.record.value.family == Some(e.g) && t.record.value.Named() == Some(u)
    case OwnSealGone => SealAlone(t) && e.Stepped? && e.id == id
    case Raced =>
      && e.Stepped? && e.id == id && MayRace(e.one) && Holds(t.record, u)
      && (trace[i + 1].transfers[id].past.cancelled || trace[i + 1].transfers[id].past.returned)
  }

  /** What one step may lose, but for a cancel's last. */
  ghost predicate LossIn(t: Transfer, e: Event, me: Option<Account>, id: Id, u: UploadId, reason: Reason) {
    match reason
    case OtherAccount => Others(t, me)
    case FamilyEnded => e.FamilyLeft? && t.record.Some? && t.record.value.family == Some(e.g) && t.record.value.Named() == Some(u)
    case OwnSealGone => SealAlone(t) && e.Stepped? && e.id == id
    case Raced => e.Stepped? && e.id == id && MayRace(e.one) && Holds(t.record, u)
  }

  lemma DropLoses(t: Transfer, me: Option<Account>, u: UploadId)
    requires u in DropOther(t, me).server.lost && u !in t.server.lost
    ensures DropOther(t, me).server.lost[u] == OtherAccount && Others(t, me)
  {
  }

  lemma LostInStep(q: Queue, e: Event, id: Id, u: UploadId)
    requires QueueOk(q) && Enabled(q, e) && id in q.transfers && id in Next(q, e).transfers && !(e.Stepped? && e.id == id && e.one.CancelLast?)
    requires u in Next(q, e).transfers[id].server.lost && u !in q.transfers[id].server.lost
    ensures LossIn(q.transfers[id], e, q.signedIn, id, u, Next(q, e).transfers[id].server.lost[u])
  {
    hide QueueOk, Possible, Next, Enabled, Do, DropOther, EndFamily, Ok;
    var t := q.transfers[id];
    OneOf(q, e, id);
    if e.PassBegun? { DropLoses(t, q.signedIn, u); }
    else if e.FamilyLeft? { EndFamilyFair(t, e.g); }
    else if e.Stepped? && e.id == id {
      StepIs(q, e);
      DoFair(q, id, e.one);
    }
  }

  /**
   An upload is lost only for the reason it is noted with: to another account, while its owner was not the one signed in
   as it was lost, or as the tasks of the cancel that lost it were stopped; to a family's end, as that family ended; to
   an own-drive seal that came back to no record; or to a race, held by the record until a step that takes another upload
   or lets go of its own, once a cancel was asked for or the record had come back.
   */
  lemma LostOnlyForItsReason(trace: seq<Queue>, events: seq<Event>, i: nat, id: Id, u: UploadId)
    requires Run(trace, events) && i < |events| && id in trace[i].transfers && id in trace[i + 1].transfers
    requires u in trace[i + 1].transfers[id].server.lost && u !in trace[i].transfers[id].server.lost
    ensures LostBecause(trace, events, i, id, u, trace[i + 1].transfers[id].server.lost[u])
  {
    RunKeeps(trace, events, i);
    var q, e := trace[i], events[i];
    assert Enabled(q, e) && trace[i + 1] == Next(q, e);
    if e.Stepped? && e.id == id && e.one.CancelLast? {
      LastLoses(trace, events, i, id, e.one.c, u);
    } else {
      LostInStep(q, e, id, u);
    }
    RacedIsCancelled(trace, events, i + 1, id, u);
    hide Next, Enabled, QueueOk, Run;
  }

  lemma RacedIsCancelled(trace: seq<Queue>, events: seq<Event>, i: nat, id: Id, u: UploadId)
    requires Run(trace, events) && i < |trace| && id in trace[i].transfers && u in trace[i].transfers[id].server.lost
    ensures trace[i].transfers[id].server.lost[u] == Raced ==> trace[i].transfers[id].past.cancelled || trace[i].transfers[id].past.returned
  {
    RunKeeps(trace, events, i);
    assert Ok(trace[i].transfers[id]);
    assert LossOk(trace[i].transfers[id].server, trace[i].transfers[id].record, trace[i].transfers[id].past, u);
  }

  lemma LastLoses(trace: seq<Queue>, events: seq<Event>, i: nat, id: Id, c: nat, u: UploadId)
    requires Run(trace, events) && i < |events| && id in trace[i].transfers && events[i] == Stepped(id, CancelLast(c)) && id in trace[i + 1].transfers
    requires u in trace[i + 1].transfers[id].server.lost && u !in trace[i].transfers[id].server.lost
    ensures trace[i + 1].transfers[id].server.lost[u] == OtherAccount || trace[i + 1].transfers[id].server.lost[u] == Raced
    ensures Holds(trace[i].transfers[id].record, u)
    ensures trace[i + 1].transfers[id].server.lost[u] == OtherAccount ==> exists j: nat :: j < i && ListedForAnother(trace, events, j, id, c)
  {
    var q := trace[i];
    assert Enabled(q, events[i]) && trace[i + 1] == Next(q, events[i]);
    assert trace[i + 1].transfers[id] == CancelEnd(q.transfers[id], c);
    CancelEndFair(q.transfers[id], c);
    var j, families := ListedAt(trace, events, i, id, c);
    hide Next, CancelEnd;
    if trace[i + 1].transfers[id].server.lost[u] == OtherAccount { assert ListedForAnother(trace, events, j, id, c); }
  }

  /** The step from `i` loses this upload. */
  ghost predicate LosesAt(trace: seq<Queue>, i: nat, id: Id, u: UploadId) {
    && i + 1 < |trace| && id in trace[i].transfers && id in trace[i + 1].transfers
    && u in trace[i + 1].transfers[id].server.lost && u !in trace[i].transfers[id].server.lost
  }

  /**
   A cancel's last step loses exactly what the record holds by then, if it is neither aborted nor landed. If the cancel
   stopped the tasks (at `j`) under the account of what it read, that is never the upload it read.
   */
  lemma CancelLosesOnlyWhatItDidNotRead(trace: seq<Queue>, events: seq<Event>, i: nat, id: Id, c: nat, u: UploadId) returns (j: nat, families: bool)
    requires Run(trace, events) && i < |events| && id in trace[i].transfers && events[i] == Stepped(id, CancelLast(c))
    ensures var t := trace[i].transfers[id];
            LosesAt(trace, i, id, u) <==> Holds(t.record, u) && !t.server.Settled(u)
    ensures j < i && events[j] == Stepped(id, CancelListed(c, families)) && id in trace[j].transfers && c in trace[j].transfers[id].cancels
    ensures var t := trace[i].transfers[id];
            c in t.cancels && t.cancels[c].read == trace[j].transfers[id].cancels[c].read
    ensures var t := trace[i].transfers[id];
            Runnable(t.cancels[c].read.owner, trace[j].signedIn) && LosesAt(trace, i, id, u) ==>
              t.cancels[c].read.Named() != Some(u) && trace[i + 1].transfers[id].server.lost[u] == Raced
  {
    hide Next, Enabled, QueueOk, Do, Possible;
    StepOf(trace, events, i);
    StepIs(trace[i], events[i]);
    LastIs(trace[i], id, events[i].one);
    SteppedAs(trace[i], id, events[i].one);
    j, families := ListedAt(trace, events, i, id, c);
    hide Run;
  }

  /** An own-drive seal that comes back loses its upload exactly when its record is gone. */
  lemma ALateSealLosesExactly(trace: seq<Queue>, events: seq<Event>, i: nat, id: Id, sealed: Sealed, kept: bool)
    requires Run(trace, events) && i < |events| && id in trace[i].transfers && events[i] == Stepped(id, SealCame(sealed, kept))
    ensures LosesAt(trace, i, id, sealed.uploadId) <==> trace[i].transfers[id].record.None?
  {
    RunKeeps(trace, events, i);
    assert Ok(trace[i].transfers[id]);
    hide Next, Enabled, QueueOk, Do, Possible, Run, SealDone;
    StepOf(trace, events, i);
    StepIs(trace[i], events[i]);
    SteppedAs(trace[i], id, events[i].one);
    SealIs(trace[i], id, sealed, kept);
    LateSeal(trace[i].transfers[id], trace[i].signedIn, sealed, kept);
  }

  lemma LateSeal(t: Transfer, me: Option<Account>, sealed: Sealed, kept: bool)
    requires Ok(t) && sealed.uploadId !in t.server.begun
    ensures sealed.uploadId !in t.server.lost && (sealed.uploadId in SealDone(t, me, sealed, kept).server.lost <==> t.record.None?)
  {
    hide Sound, Names, TasksOk, Start;
    assert !t.server.Settled(sealed.uploadId);
  }

  lemma SealIs(q: Queue, id: Id, sealed: Sealed, kept: bool)
    requires id in q.transfers && Possible(q, id, SealCame(sealed, kept))
    ensures Do(q, id, SealCame(sealed, kept)) == SealDone(q.transfers[id], q.signedIn, sealed, kept) && sealed.uploadId !in q.transfers[id].server.begun
  {
    hide SealDone;
  }

  /** What undisturbed transfers keep. */
  ghost predicate Calm(t: Transfer, me: Account) {
    t.server.lost == map[] && (t.record.Some? ==> t.record.value.owner == Some(me)) && (t.op == Some(SealOp) ==> t.record.Some?)
  }

  lemma CalmStays(q: Queue, e: Event, id: Id, me: Account)
    requires QueueOk(q) && Enabled(q, e) && id in q.transfers && id in Next(q, e).transfers && q.signedIn == Some(me)
    requires Calm(q.transfers[id], me) && !Next(q, e).transfers[id].past.cancelled && !Next(q, e).transfers[id].past.returned && !e.FamilyLeft?
    requires forall u | u in Next(q, e).transfers[id].server.lost :: Next(q, e).transfers[id].server.lost[u] != Raced
    ensures Calm(Next(q, e).transfers[id], me)
  {
    var t, r := q.transfers[id], Next(q, e).transfers[id];
    assert Ok(t);
    hide QueueOk, Possible, Next, Enabled, Do, EndFamily;
    OneOf(q, e, id);
    PastStays(q, e, id);
    NoLastUncancelled(t);
    hide Ok;
    if e.PassBegun? { DropOtherFair(t, q.signedIn); assert !Others(t, q.signedIn); }
    if e.Stepped? && e.id == id {
      StepIs(q, e);
      NoneListed(q, id, e.one);
      DoFair(q, id, e.one);
      SealStays(q, id, e.one);
    }
    hide DropOther;
    forall u ensures u !in r.server.lost { if u in r.server.lost { LostInStep(q, e, id, u); } }
    assert r.server.lost == map[];
  }

  lemma NoneListed(q: Queue, id: Id, one: One)
    requires id in q.transfers && Possible(q, id, one) && q.transfers[id].cancels == map[]
    ensures !one.CancelLast?
  {
  }

  lemma NoLastUncancelled(t: Transfer)
    requires Ok(t) && !t.past.cancelled
    ensures t.cancels == map[]
  {
  }

  /** A record a pass waits to seal is not dismissed; a turn that begins to wait leaves it where it is. */
  lemma SealStays(q: Queue, id: Id, one: One)
    requires QueueOk(q) && id in q.transfers && Possible(q, id, one) && !q.transfers[id].past.cancelled && !q.transfers[id].past.returned && !one.CancelLast?
    requires q.transfers[id].op == Some(SealOp) ==> q.transfers[id].record.Some?
    ensures Do(q, id, one).op == Some(SealOp) ==> Do(q, id, one).record.Some?
  {
    var t := q.transfers[id];
    assert Ok(t);
    DoRespects(q, id, one);
    DoFair(q, id, one);
    if one.Turn? { TurnSeals(q, id, one); }
    if one.Dismissed? { hide Fair, QueueOk; } else { hide Do, Fair, QueueOk; }
  }

  lemma TurnSeals(q: Queue, id: Id, one: One)
    requires id in q.transfers && Possible(q, id, one) && one.Turn?
    ensures Do(q, id, one).op.Some? ==> Do(q, id, one).record.Some? || Do(q, id, one).op == q.transfers[id].op
  {
    var t := q.transfers[id];
    VisitIs(t, q.signedIn, one.job, one.online, one.families, |Sealing(q)| < SEALING_AT_ONCE, one.running);
    hide Visit, Waits;
  }

  /** With one account signed in all along, no family ended, no cancel asked for and no record back, nothing is ever lost. */
  lemma {:induction false} UndisturbedLosesNothing(trace: seq<Queue>, events: seq<Event>, i: nat, id: Id, me: Account)
    requires Run(trace, events) && i < |trace| && id in trace[i].transfers
    requires !trace[i].transfers[id].past.cancelled && !trace[i].transfers[id].past.returned
    requires forall j: nat | j <= i && id in trace[j].transfers :: trace[j].signedIn == Some(me)
    requires forall j: nat | j < i :: !events[j].FamilyLeft?
    ensures Calm(trace[i].transfers[id], me)
  {
    hide QueueOk, Next, Enabled;
    RunKeeps(trace, events, i - 1);
    forall u | u in trace[i].transfers[id].server.lost ensures trace[i].transfers[id].server.lost[u] != Raced { RacedIsCancelled(trace, events, i, id, u); }
    StepOf(trace, events, i - 1);
    var q, e := trace[i - 1], events[i - 1];
    if id in q.transfers {
      PastStays(q, e, id);
      UndisturbedLosesNothing(trace, events, i - 1, id, me);
      hide Run;
      CalmStays(q, e, id, me);
    } else {
      QueuedCalm(q, e, id, me);
    }
  }

  lemma StepOf(trace: seq<Queue>, events: seq<Event>, i: nat)
    requires Run(trace, events) && i < |events|
    ensures Enabled(trace[i], events[i]) && trace[i + 1] == Next(trace[i], events[i])
  {
    hide Enabled, Next;
  }

  lemma QueuedCalm(q: Queue, e: Event, id: Id, me: Account)
    requires QueueOk(q) && Enabled(q, e) && id !in q.transfers && id in Next(q, e).transfers && Next(q, e).signedIn == Some(me)
    ensures Calm(Next(q, e).transfers[id], me)
  {
    OneOf(q, e, id);
    hide QueueOk;
    assert q.signedIn == Next(q, e).signedIn;
  }

  lemma PastStays(q: Queue, e: Event, id: Id)
    requires QueueOk(q) && Enabled(q, e) && id in q.transfers && id in Next(q, e).transfers
    ensures q.transfers[id].past.cancelled ==> Next(q, e).transfers[id].past.cancelled
    ensures q.transfers[id].past.returned ==> Next(q, e).transfers[id].past.returned
  {
    OneOf(q, e, id);
    if e.Stepped? && e.id == id { DoRespects(q, id, e.one); }
    hide QueueOk, Do, Possible, Next, Enabled;
  }

  /** The step that lost an upload, and why. */
  ghost predicate LostAt(trace: seq<Queue>, events: seq<Event>, k: nat, id: Id, u: UploadId, reason: Reason)
    requires |trace| == |events| + 1
  {
    && k < |events| && id in trace[k].transfers && id in trace[k + 1].transfers
    && LostBecause(trace, events, k, id, u, reason)
  }

  lemma {:induction false} LostSomewhere(trace: seq<Queue>, events: seq<Event>, i: nat, id: Id, u: UploadId) returns (k: nat)
    requires Run(trace, events) && i < |trace| && id in trace[i].transfers && u in trace[i].transfers[id].server.lost
    ensures k < i && LostAt(trace, events, k, id, u, trace[i].transfers[id].server.lost[u])
    decreases i
  {
    var q, e := trace[i - 1], events[i - 1];
    RunKeeps(trace, events, i - 1);
    assert Enabled(q, e) && trace[i] == Next(q, e);
    OneOf(q, e, id);
    if u in q.transfers[id].server.lost {
      LossStays(q, e, id, u);
      hide QueueOk, Next, Enabled;
      k := LostSomewhere(trace, events, i - 1, id, u);
    } else {
      LostOnlyForItsReason(trace, events, i - 1, id, u);
      k := i - 1;
    }
  }

  lemma LossStays(q: Queue, e: Event, id: Id, u: UploadId)
    requires QueueOk(q) && Enabled(q, e) && id in q.transfers && id in Next(q, e).transfers && u in q.transfers[id].server.lost
    ensures u in Next(q, e).transfers[id].server.lost && Next(q, e).transfers[id].server.lost[u] == q.transfers[id].server.lost[u]
  {
    hide QueueOk, Possible, Next, Enabled, Do, DropOther, EndFamily, CancelEnd;
    var t := q.transfers[id];
    OneOf(q, e, id);
    DropOtherFair(t, q.signedIn);
    if e.FamilyLeft? { EndFamilyFair(t, e.g); }
    if e.Stepped? && e.id == id {
      StepIs(q, e);
      if e.one.CancelLast? { LastIs(q, id, e.one); CancelEndFair(t, e.one.c); } else { DoFair(q, id, e.one); }
    }
  }

  /**
   Conservation: an upload the server ever began is held by the record it was begun for and by no other, or on its way to
   it, or was aborted under its own account, or landed; or some step lost it, for the reason it is noted with.
   */
  lemma EveryUploadIsAccountedFor(trace: seq<Queue>, events: seq<Event>, i: nat, id: Id, u: UploadId)
    requires Run(trace, events) && i < |trace| && id in trace[i].transfers && u in trace[i].transfers[id].server.begun
    ensures var t := trace[i].transfers[id];
            || HeldBy(trace[i], id, u) || InFlight(t.jobs, u) || u in t.server.asked || u in t.server.completed
            || (u in t.server.lost && exists k: nat :: k < i && LostAt(trace, events, k, id, u, t.server.lost[u]))
    ensures forall other | HeldBy(trace[i], other, u) :: other == id
  {
    UploadsAreConserved(trace, events, i, id, u);
    if u in trace[i].transfers[id].server.lost {
      var k := LostSomewhere(trace, events, i, id, u);
    }
  }

  /** Undisturbed, no upload is ever forgotten: it is held, on its way, aborted or landed. */
  lemma UndisturbedUploadsStay(trace: seq<Queue>, events: seq<Event>, i: nat, id: Id, u: UploadId, me: Account)
    requires Run(trace, events) && i < |trace| && id in trace[i].transfers && !trace[i].transfers[id].past.cancelled && !trace[i].transfers[id].past.returned
    requires forall j: nat | j <= i && id in trace[j].transfers :: trace[j].signedIn == Some(me)
    requires forall j: nat | j < i :: !events[j].FamilyLeft?
    requires u in trace[i].transfers[id].server.begun
    ensures var t := trace[i].transfers[id];
            HeldBy(trace[i], id, u) || InFlight(t.jobs, u) || u in t.server.asked || u in t.server.completed
  {
    UploadsAreConserved(trace, events, i, id, u);
    UndisturbedLosesNothing(trace, events, i, id, me);
  }
}
