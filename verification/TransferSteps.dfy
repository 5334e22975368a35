/** Every step keeps every transfer in order: its names, its tasks, its books and its record. */
module TransferSteps {
  import opened Common
  import opened TransferModel
  import opened TransferInvariants
  import opened TransferRuns

  // -- Parts of steps ---------------------------------------------------------------------------------------------

  lemma StartKeeps(t: Transfer, me: Option<Account>, running: set<Desc>)
    requires Ok(t)
    ensures Ok(Start(t, me, running)) && Start(t, me, running).op == t.op
  {
    var r := Start(t, me, running);
    assert r == t.(handed := r.handed);
    assert TasksOk(r.handed, t.server.begun, t.planned);
    hide Start, TasksOk, Books, Sound, Known, NamesRecord, NamesJobs, NamesOp;
    assert Sound(r) by { SoundWithoutHanded(t, r.handed); }
  }

  /** What a record needs does not depend on the tasks handed over. */
  lemma SoundWithoutHanded(t: Transfer, handed: set<Task>)
    requires Sound(t)
    ensures Sound(t.(handed := handed))
  {
  }

  /** As many ETags as parts, all of them for parts of the upload, are all of the parts. */
  lemma CountedParts(sealed: Sealed, etags: map<int, Etag>)
    requires Genuine(sealed, etags)
    ensures |etags| == sealed.partCount <==> AllParts(Some(sealed), etags)
  {
    assert etags.Keys <= Span(1, sealed.partCount + 1);
    CountIsComplete(etags.Keys, 1, sealed.partCount);
    assert |etags| == |etags.Keys|;
  }

  lemma InFlightAfter(jobs: map<JobId, Job>, j: JobId, job: Job, u: UploadId)
    requires InFlight(jobs, u) && j in jobs && (Brings(jobs[j], u) ==> Brings(job, u))
    ensures InFlight(jobs[j := job], u)
  {
    var k :| k in jobs && Brings(jobs[k], u);
    assert Brings(jobs[j := job][k], u);
  }

  lemma InFlightWithout(jobs: map<JobId, Job>, j: JobId, u: UploadId)
    requires InFlight(jobs, u) && j in jobs && !Brings(jobs[j], u)
    ensures InFlight(jobs - {j}, u)
  {
    var k :| k in jobs && Brings(jobs[k], u);
    assert k in jobs - {j};
  }

  // -- The books ------------------------------------------------------------------------------------------------------

  function SealedOf(record: Option<Record>): (sealed: Option<Sealed>) {
    if record.Some? then record.value.sealed else None
  }

  lemma BooksAborted(server: Server, record: Option<Record>, jobs: map<JobId, Job>, past: Past, sealed: Option<Sealed>)
    requires Books(server, record, jobs, past) && Known(server, sealed)
    ensures Books(server.Aborted(sealed), record, jobs, past)
  {
  }

  lemma BooksCompleted(server: Server, record: Option<Record>, jobs: map<JobId, Job>, past: Past, sealed: Option<Sealed>)
    requires Books(server, record, jobs, past) && Known(server, sealed)
    ensures Books(server.Completed(sealed), record, jobs, past)
  {
  }

  /** Whatever the record becomes, once the upload it held is forgotten for a reason that stands. */
  lemma BooksForgot(server: Server, record: Option<Record>, after: Option<Record>, jobs: map<JobId, Job>, past: Past, reason: Reason)
    requires Books(server, record, jobs, past) && Known(server, SealedOf(record))
    requires reason != OwnSealGone && (reason == Raced ==> past.cancelled || past.returned || SettledUpload(server, SealedOf(record)))
    requires record.Some? || after.None?
    ensures Books(server.Forgot(SealedOf(record), reason), after, jobs, past)
  {
  }

  /** The record changed but not the upload it holds. */
  lemma BooksHeld(server: Server, record: Option<Record>, after: Option<Record>, jobs: map<JobId, Job>, past: Past)
    requires Books(server, record, jobs, past)
    requires record.Some? && after.Some? && record.value.Named() == after.value.Named()
    ensures Books(server, after, jobs, past)
  {
  }

  /** The jobs changed but not the uploads they bring. */
  lemma BooksJobs(server: Server, record: Option<Record>, jobs: map<JobId, Job>, after: map<JobId, Job>, past: Past)
    requires Books(server, record, jobs, past)
    requires forall u | u in server.begun && InFlight(jobs, u) :: InFlight(after, u)
    ensures Books(server, record, after, past)
  {
  }

  // -- Queueing ------------------------------------------------------------------------------------------------------

  lemma NewUploadOk(me: Option<Account>, family: Option<Group>, copied: bool)
    ensures Ok(NewUpload(me, family, copied))
  {
  }

  lemma NewKeepOk(me: Option<Account>)
    ensures Ok(NewKeep(me))
  {
  }

  lemma AdoptedOk(me: Option<Account>, family: Option<Group>, sealed: Sealed, etags: map<int, Etag>)
    requires me.Some? && Genuine(sealed, etags)
    ensures Ok(Adopted(me, family, sealed, etags))
  {
    CountedParts(sealed, etags);
  }

  // -- The pass ------------------------------------------------------------------------------------------------------

  lemma TakeNoteKeeps(t: Transfer)
    requires Ok(t)
    ensures Ok(TakeNote(t))
  {
    LedgerWithFolder(t, TakeNote(t).folder);
    hide Ledger;
    assert Sound(TakeNote(t));
  }

  lemma ReleaseKeeps(t: Transfer)
    requires Ok(t) && t.handoff.Some?
    ensures Ok(Release(t))
  {
    LedgerWithFolder(t, Release(t).folder);
    hide Ledger;
    assert Sound(Release(t));
  }

  lemma FolderGoneKeeps(t: Transfer)
    requires Ok(t) && t.record.None?
    ensures Ok(FolderGone(t))
  {
    LedgerWithFolder(t, GONE);
    hide Ledger;
  }

  lemma WipeKeeps(t: Transfer)
    requires Ok(t)
    ensures Ok(Wipe(t))
  {
    var r := Wipe(t);
    assert Ledger(r);
    hide Ledger;
    assert Sound(r);
  }

  lemma ExtensionFinishedKeeps(t: Transfer)
    requires Ok(t)
    ensures Ok(FinishedByExtension(t))
  {
    if t.handoff.Some? {
      var r := FinishedByExtension(t);
      BooksCompleted(t.server, t.record, t.jobs, t.past, Some(t.handoff.value.sealed));
      assert Ledger(r);
      ExtensionFinishedSound(t);
      hide Ledger, Books, Names, TasksOk;
    }
  }

  lemma ExtensionFinishedSound(t: Transfer)
    requires Sound(t) && NamesNote(t) && t.handoff.Some?
    ensures Sound(FinishedByExtension(t))
  {
  }

  lemma ReturnedKeeps(t: Transfer, etags: map<int, Etag>)
    requires Ok(t) && t.record.None? && t.handoff.Some?
    ensures Ok(Returned(t, etags))
  {
    var r := Returned(t, etags);
    assert Books(r.server, r.record, r.jobs, r.past);
    assert Ledger(r);
  }

  lemma DropOtherKeeps(t: Transfer, me: Option<Account>)
    requires Ok(t)
    ensures Ok(DropOther(t, me))
  {
    var r := DropOther(t, me);
    BooksForgot(t.server, t.record, r.record, t.jobs, t.past, OtherAccount);
    assert Names(r);
    hide Books;
    assert Sound(r);
  }

  lemma TakeLandedKeeps(t: Transfer, landed: map<int, Etag>)
    requires Ok(t) && t.op.None?
    requires t.record.Some? && t.record.value.sealed.Some? ==> Genuine(t.record.value.sealed.value, landed)
    ensures Ok(TakeLanded(t, landed))
  {
    var r := TakeLanded(t, landed);
    if r != t {
      var rec := t.record.value;
      var etags := landed + rec.etags;
      if Genuine(rec.sealed.value, etags) { CountedParts(rec.sealed.value, etags); }
      RecordLedger(t, r.record.value, t.folder);
      assert r == t.(record := r.record);
      hide Ledger, TakeLanded;
      if Tracked(t) {
        forall j ensures j !in t.jobs { NoWorkWhileSending(t, rec, j); }
        TakeLandedUpload(t, r.record.value);
      }
      hide UploadSound;
    }
  }

  lemma TakeLandedUpload(t: Transfer, after: Record)
    requires t.record.Some? && UploadSound(t, t.record.value) && t.op.None? && t.jobs.Keys == {} && t.record.value.sealed.Some?
    requires t.record.value.state == Sending && t.record.value.kind == Upload && t.record.value.etags.Keys <= after.etags.Keys
    requires after == t.record.value.(etags := after.etags, state := after.state) && Genuine(after.sealed.value, after.etags)
    requires after.state == Sending || (after.state == Finishing && AllParts(after.sealed, after.etags))
    ensures UploadSound(t.(record := Some(after)), after)
  {
    hide JobOk;
  }

  lemma BeginJobKeeps(t: Transfer, me: Option<Account>, job: JobId, finish: bool, families: bool)
    requires Ok(t) && t.op.None? && job !in t.jobs && t.record.Some?
    requires t.record.value.kind == Upload && t.record.value.family.Some?
    requires t.record.value.state == if finish then Finishing else Waiting
    ensures Ok(BeginJob(t, job, finish, families)) && BeginJob(t, job, finish, families).op.None?
  {
    var r := BeginJob(t, job, finish, families);
    assert Names(r);
    forall u | u in t.server.begun && InFlight(t.jobs, u) ensures InFlight(r.jobs, u) {
      var k :| k in t.jobs && Brings(t.jobs[k], u);
      assert Brings(r.jobs[k], u);
    }
    assert Ledger(r);
    assert Sound(r);
  }

  /** A turn hands pieces over, begins family work, or waits for one thing. */
  lemma VisitIs(t: Transfer, me: Option<Account>, job: JobId, online: bool, families: bool, slot: bool, running: set<Desc>)
    ensures var r := Visit(t, me, job, online, families, slot, running);
            || r == t
            || (t.record.Some? && r == Start(t, me, running))
            || (t.record.Some? && OfFamily(t.record.value) && t.record.value.state == Waiting && r == BeginJob(t, job, false, families))
            || (t.record.Some? && OfFamily(t.record.value) && t.record.value.state == Finishing && r == BeginJob(t, job, true, families))
            || (t.record.Some? && r.op.Some? && r == t.(op := r.op) && Waits(t.record.value, r.op.value))
  {
    hide Start, BeginJob;
  }

  predicate OfFamily(rec: Record) {
    rec.kind == Upload && rec.family.Some?
  }

  /** What a pass may wait for as it reads this record. */
  predicate Waits(rec: Record, op: Op) {
    match op
    case SealOp => rec.kind == Upload && rec.family.None? && rec.state == Waiting
    case PlanOp => rec.kind == Keep && rec.state == Waiting
    case RefreshOp(read) => read == rec && read.state == Sending
    case FinishOp(sealed) => rec.kind == Upload && rec.family.None? && rec.state == Finishing && rec.sealed == Some(sealed)
    case AssembleOp => rec.kind == Keep
  }

  lemma VisitKeeps(t: Transfer, me: Option<Account>, job: JobId, online: bool, families: bool, slot: bool, running: set<Desc>)
    requires Ok(t) && t.op.None? && job !in t.jobs
    ensures Ok(Visit(t, me, job, online, families, slot, running))
  {
    hide Start, BeginJob, Ok, Visit, Waits;
    VisitIs(t, me, job, online, families, slot, running);
    var r := Visit(t, me, job, online, families, slot, running);
    if t.record.Some? {
      if r == Start(t, me, running) { StartKeeps(t, me, running); }
      else if OfFamily(t.record.value) && t.record.value.state == Waiting && r == BeginJob(t, job, false, families) { BeginJobKeeps(t, me, job, false, families); }
      else if OfFamily(t.record.value) && t.record.value.state == Finishing && r == BeginJob(t, job, true, families) { BeginJobKeeps(t, me, job, true, families); }
      else if r.op.Some? && r == t.(op := r.op) && Waits(t.record.value, r.op.value) { WaitingKeeps(t, r.op.value); }
    }
  }

  /** A pass that waits for the record it read. */
  lemma WaitingKeeps(t: Transfer, op: Op)
    requires Ok(t) && t.record.Some? && t.op.None?
    requires Waits(t.record.value, op)
    ensures Ok(t.(op := Some(op)))
  {
    var r := t.(op := Some(op));
    assert Ledger(r);
    assert Sound(r);
  }

  /** The record's upload replaced by another: nothing is lost sight of. */
  lemma ReplacedKeeps(t: Transfer, rec: Record)
    requires Ledger(t) && t.record.Some? && Known(t.server, rec.sealed)
    requires t.past.cancelled || t.past.returned || t.record.value.sealed == rec.sealed || SameUpload(t.record.value.sealed, rec.sealed) || SettledUpload(t.server, t.record.value.sealed)
    ensures var server := t.server.Replaced(t.record.value.sealed, rec.sealed);
            Books(server, Some(rec), t.jobs, t.past) && server.begun == t.server.begun && (!t.past.cancelled && !t.past.returned ==> server == t.server)
  {
  }

  /** An own-drive upload as its seal leaves it, before its parts are handed over. */
  function Prepared(t: Transfer, sealed: Sealed, kept: bool): (after: Transfer)
    requires t.record.Some?
  {
    var rec := t.record.value;
    t.(op := None, folder := SealedFolder(t.folder, sealed, kept),
       record := Some(rec.(sealed := Some(sealed), state := Sending)), server := t.server.Begin(sealed).Replaced(rec.sealed, Some(sealed)))
  }

  lemma PreparedLedger(t: Transfer, sealed: Sealed, kept: bool)
    requires kept == PartsStay(t) && Ok(t) && t.op == Some(SealOp) && sealed.uploadId !in t.server.begun && t.record.Some?
    ensures Ledger(Prepared(t, sealed, kept))
  {
    var s := Prepared(t, sealed, kept);
    assert Names(s);
    assert TasksOk(s.handed, s.server.begun, s.planned);
    assert Books(s.server, s.record, s.jobs, s.past);
  }

  lemma PreparedSound(t: Transfer, sealed: Sealed, kept: bool)
    requires kept == PartsStay(t) && Ok(t) && t.op == Some(SealOp) && t.record.Some?
    ensures Sound(Prepared(t, sealed, kept))
  {
    hide Books, TasksOk, NamesRecord, NamesJobs, NamesOp, Known;
  }

  lemma SealDoneKeeps(t: Transfer, me: Option<Account>, sealed: Sealed, kept: bool)
    requires kept == PartsStay(t) && Ok(t) && t.op == Some(SealOp) && sealed.uploadId !in t.server.begun
    ensures Ok(SealDone(t, me, sealed, kept))
  {
    if t.record.Some? {
      PreparedLedger(t, sealed, kept);
      PreparedSound(t, sealed, kept);
      hide Ledger, Sound;
      StartKeeps(Prepared(t, sealed, kept), me, {});
      hide Start, Ok;
    } else {
      var s := SealDone(t, me, sealed, kept);
      assert Names(s);
      assert Books(s.server, s.record, s.jobs, s.past);
    }
  }

  lemma PlanDoneKeeps(t: Transfer, me: Option<Account>, plan: Plan)
    requires Ok(t) && t.op == Some(PlanOp)
    ensures Ok(PlanDone(t, me, plan))
  {
    var s := t.(op := None, planned := Some(plan.chunkCount), folder := t.folder.(there := true));
    if t.record.Some? {
      var r := s.(record := Some(t.record.value.(plan := Some(plan), state := Sending)));
      assert Ok(r) by { assert Ledger(r); assert Sound(r); }
      StartKeeps(r, me, {});
      hide Start, Ok;
    } else {
      assert Ledger(s);
    }
  }

  /** The record with the addresses renewed, before its pieces are handed over. */
  function Readdressed(t: Transfer, renewed: set<int>): (after: Transfer)
    requires t.record.Some? && t.op.Some? && t.op.value.RefreshOp?
  {
    var read, rec := t.op.value.read, t.record.value;
    if read.sealed.Some? then
      var sealed := Some(read.sealed.value.(urls := read.sealed.value.urls + renewed));
      t.(op := None, record := Some(rec.(sealed := sealed, expired := {})), server := t.server.Replaced(rec.sealed, sealed))
    else if read.plan.Some? then t.(op := None, record := Some(rec.(plan := read.plan, expired := {})))
    else t.(op := None)
  }

  lemma ReaddressedLedger(t: Transfer, renewed: set<int>)
    requires Ok(t) && t.record.Some? && t.op.Some? && t.op.value.RefreshOp?
    ensures Ledger(Readdressed(t, renewed))
  {
    ReplacedKeeps(t, Readdressed(t, renewed).record.value);
  }

  lemma ReaddressedSound(t: Transfer, renewed: set<int>)
    requires Ok(t) && t.record.Some? && t.op.Some? && t.op.value.RefreshOp?
    ensures Sound(Readdressed(t, renewed))
  {
    hide Books, TasksOk;
  }

  lemma RefreshDoneKeeps(t: Transfer, me: Option<Account>, renewed: set<int>, running: set<Desc>)
    requires Ok(t) && t.op.Some? && t.op.value.RefreshOp?
    ensures Ok(RefreshDone(t, me, renewed, running))
  {
    if t.record.Some? {
      ReaddressedLedger(t, renewed);
      ReaddressedSound(t, renewed);
      hide Ledger, Sound;
      StartKeeps(Readdressed(t, renewed), me, running);
      hide Start, Ok;
    }
  }

  lemma FinishDoneKeeps(t: Transfer)
    requires Ok(t) && t.op.Some? && t.op.value.FinishOp?
    ensures Ok(FinishDone(t))
  {
    var r := FinishDone(t);
    assert Ledger(r);
    assert Sound(r);
  }

  lemma AssembleDoneKeeps(t: Transfer)
    requires Ok(t) && t.op == Some(AssembleOp)
    ensures Ok(AssembleDone(t))
  {
    var r := AssembleDone(t);
    assert Ledger(r);
    assert Sound(r);
  }

  lemma PassingKeeps(t: Transfer, rec: Record)
    requires Ok(t) && t.record.Some?
    requires rec == t.record.value.(failures := rec.failures, expired := rec.expired)
    ensures Ok(Put(t, rec))
  {
  }

  /** No pass waits on the record as a waiting one. */
  ghost predicate Failable(t: Transfer) {
    t.record.Some? && t.op.Some? && (Tracked(t) || t.record.value.kind == Keep) ==> !t.op.value.SealOp? && !t.op.value.PlanOp?
  }

  lemma FailLedger(t: Transfer, me: Option<Account>)
    requires Ledger(t)
    ensures Ledger(Fail(t, me, false))
  {
    var r := Fail(t, me, false);
    assert Names(r);
    assert TasksOk(r.handed, r.server.begun, r.planned);
    if t.record.Some? {
      BooksAborted(t.server, t.record, t.jobs, t.past, t.record.value.sealed);
      BooksForgot(t.server, t.record, t.record, t.jobs, t.past, OtherAccount);
      hide Books, Names, TasksOk;
      BooksHeld(Abort(t.server, t.record.value, me), t.record, r.record, t.jobs, t.past);
    }
  }

  lemma FailUploadSound(t: Transfer, me: Option<Account>)
    requires t.record.Some? && t.record.value.kind == Upload && Tracked(t) && UploadSound(t, t.record.value) && Failable(t)
    ensures UploadSound(Fail(t, me, false), Fail(t, me, false).record.value)
  {
  }

  lemma FailSound(t: Transfer, me: Option<Account>)
    requires Sound(t) && Failable(t)
    ensures Sound(Fail(t, me, false))
  {
    var r := Fail(t, me, false);
    if t.record.Some? && t.record.value.kind == Upload {
      assert r.record.Some? && r.record.value.kind == Upload && (Tracked(r) ==> Tracked(t));
      if Tracked(t) { FailUploadSound(t, me); }
      hide UploadSound;
    }
  }

  lemma FailKeeps(t: Transfer, me: Option<Account>, passes: bool)
    requires Ok(t) && Failable(t)
    ensures Ok(Fail(t, me, passes))
  {
    hide Ledger, Sound, Failable;
    if passes {
      if t.record.Some? { PassingKeeps(t, t.record.value.(failures := t.record.value.failures + 1)); }
      hide Ok;
    } else {
      hide Fail;
      FailLedger(t, me);
      FailSound(t, me);
    }
  }

  lemma OpFailedKeeps(t: Transfer, me: Option<Account>, passes: bool)
    requires Ok(t) && t.op.Some?
    ensures Ok(OpFailed(t, me, passes))
  {
    var s := t.(op := None);
    assert Ok(s) by { assert Ledger(s); assert Sound(s); }
    FailKeeps(s, me, passes);
    hide Ok, Fail;
  }

  // -- Family uploads ---------------------------------------------------------------------------------------------------

  lemma PreparedWork(t: Transfer, j: JobId, sealed: Sealed)
    requires Ledger(t) && j in t.jobs && t.jobs[j].outcome.None? && !t.jobs[j].finish && sealed.uploadId !in t.server.begun && t.folder.content
    ensures Ledger(WorkDone(t, j, Work.Prepared(sealed)))
  {
    var r := WorkDone(t, j, Work.Prepared(sealed));
    assert Names(r);
    assert TasksOk(r.handed, r.server.begun, r.planned);
    assert Brings(r.jobs[j], sealed.uploadId);
    forall u | u in t.server.begun && InFlight(t.jobs, u) ensures InFlight(r.jobs, u) {
      InFlightAfter(t.jobs, j, r.jobs[j], u);
    }
  }

  lemma OtherWork(t: Transfer, j: JobId, job: Job, server: Server)
    requires Ledger(t) && j in t.jobs && t.jobs[j].outcome.None?
    requires job.outcome != Some(Send) && (job.sealed == t.jobs[j].sealed || job.sealed.None?)
    requires server == t.server || server == t.server.Aborted(t.jobs[j].sealed) || server == t.server.Completed(t.jobs[j].sealed)
    ensures Ledger(t.(jobs := t.jobs[j := job], server := server))
  {
    var r := t.(jobs := t.jobs[j := job], server := server);
    assert Names(r);
    assert TasksOk(r.handed, r.server.begun, r.planned);
    WorkedBooks(t, j, job);
    hide Names, TasksOk, Known;
    BooksAborted(t.server, t.record, r.jobs, t.past, t.jobs[j].sealed);
    BooksCompleted(t.server, t.record, r.jobs, t.past, t.jobs[j].sealed);
    hide Books;
  }

  lemma LedgerWithFolder(t: Transfer, folder: Folder)
    requires Ledger(t) && NamesFolder(t, folder)
    ensures Ledger(t.(folder := folder))
  {
  }

  lemma WorkDoneLedger(t: Transfer, j: JobId, work: Work)
    requires Ledger(t) && j in t.jobs && t.jobs[j].outcome.None? && WorkPossible(t, t.jobs[j], work)
    requires work.Prepared? ==> work.sealed.uploadId !in t.server.begun
    ensures Ledger(WorkDone(t, j, work))
  {
    var r := WorkDone(t, j, work);
    if work.Prepared? {
      PreparedWork(t, j, work.sealed);
    } else {
      OtherWork(t, j, r.jobs[j], r.server);
      hide Ledger;
      LedgerWithFolder(t.(jobs := r.jobs, server := r.server), r.folder);
    }
  }

  lemma WorkedBooks(t: Transfer, j: JobId, job: Job)
    requires Ledger(t) && j in t.jobs && t.jobs[j].outcome.None?
    ensures Books(t.server, t.record, t.jobs[j := job], t.past) && Known(t.server, t.jobs[j].sealed)
  {
    forall u | u in t.server.begun && InFlight(t.jobs, u) ensures InFlight(t.jobs[j := job], u) {
      InFlightAfter(t.jobs, j, job, u);
    }
    BooksJobs(t.server, t.record, t.jobs, t.jobs[j := job], t.past);
  }

  /** Work that empties the folder, or leaves only the plaintext in it. */
  lemma ClearingWorkSound(t: Transfer, j: JobId, work: Work)
    requires Sound(t) && j in t.jobs && t.jobs[j].outcome.None? && WorkPossible(t, t.jobs[j], work)
    requires work.Completed? || work.Published? || work.Conflicted? || work.NotInFamily?
    ensures Sound(WorkDone(t, j, work))
  {
  }

  lemma OtherWorkSound(t: Transfer, j: JobId, work: Work)
    requires Sound(t) && j in t.jobs && t.jobs[j].outcome.None? && WorkPossible(t, t.jobs[j], work)
    requires work.Prepared? || work.NoAnswer? || work.Error?
    ensures Sound(WorkDone(t, j, work))
  {
  }

  lemma WorkDoneSound(t: Transfer, j: JobId, work: Work)
    requires Sound(t) && j in t.jobs && t.jobs[j].outcome.None? && WorkPossible(t, t.jobs[j], work)
    ensures Sound(WorkDone(t, j, work))
  {
    hide Sound, WorkDone, WorkPossible;
    if work.Prepared? || work.NoAnswer? || work.Error? { OtherWorkSound(t, j, work); } else { ClearingWorkSound(t, j, work); }
  }

  /** The record with a finished job's upload taken over, the job gone. */
  function Taken(t: Transfer, j: JobId): (after: Transfer)
    requires j in t.jobs && t.record.Some?
  {
    var job, rec := t.jobs[j], t.record.value;
    t.(jobs := t.jobs - {j}, sealing := None, record := Some(rec.(sealed := job.sealed, etags := job.etags)),
       server := t.server.Replaced(rec.sealed, job.sealed))
  }

  lemma TakenLedger(t: Transfer, j: JobId)
    requires Ok(t) && j in t.jobs && t.record.Some? && !t.jobs[j].cancelled
    ensures Ledger(Taken(t, j)) && Taken(t, j).record.Some?
  {
    var r := Taken(t, j);
    var held := t.record.value.sealed;
    assert t.past.cancelled || t.past.returned || SameUpload(held, t.jobs[j].sealed) || SettledUpload(t.server, held);
    hide Sound;
    assert Names(r);
    assert TasksOk(r.handed, r.server.begun, r.planned);
    forall u | u in t.server.begun && InFlight(t.jobs, u) ensures InFlight(r.jobs, u) || Holds(r.record, u) {
      if !Brings(t.jobs[j], u) { InFlightWithout(t.jobs, j, u); }
    }
    assert Books(r.server, r.record, r.jobs, r.past);
  }

  lemma GoneJobLedger(t: Transfer, j: JobId)
    requires Ok(t) && j in t.jobs
    ensures var server := if t.jobs[j].finish then t.server else t.server.Aborted(t.jobs[j].sealed);
            Ledger(t.(jobs := t.jobs - {j}, sealing := None, server := server))
  {
    var server := if t.jobs[j].finish then t.server else t.server.Aborted(t.jobs[j].sealed);
    var r := t.(jobs := t.jobs - {j}, sealing := None, server := server);
    hide Sound;
    assert Names(r);
    assert TasksOk(r.handed, r.server.begun, r.planned);
    forall u | u in t.server.begun && InFlight(t.jobs, u) ensures InFlight(r.jobs, u) || server.Settled(u) {
      if !Brings(t.jobs[j], u) { InFlightWithout(t.jobs, j, u); }
    }
    assert Books(r.server, r.record, r.jobs, r.past);
  }

  /** What `Apply` makes of the record, before any piece is handed over. */
  function Applied(t: Transfer, me: Option<Account>, j: JobId): (applied: Transfer)
    requires j in t.jobs && t.record.Some? && t.jobs[j].outcome.Some?
  {
    var k := Taken(t, j);
    var rec := k.record.value;
    match t.jobs[j].outcome.value
    case Send => Put(k, rec.(state := Sending, expired := {}, failures := 0))
    case Landed => Land(k)
    case Reseal => Put(k, rec.(state := Waiting, expired := {}, failures := 0))
    case Again => Put(k, rec.(failures := rec.failures + 1))
    case Refused(passes) => Fail(k, me, passes)
  }

  lemma RecordLedger(t: Transfer, rec: Record, folder: Folder)
    requires Ledger(t) && t.record.Some? && rec.sealed == t.record.value.sealed && rec.plan == t.record.value.plan && NamesFolder(t, folder)
    ensures Ledger(t.(record := Some(rec), folder := folder))
  {
    BooksHeld(t.server, t.record, Some(rec), t.jobs, t.past);
    hide Books;
  }

  lemma AppliedLedger(t: Transfer, me: Option<Account>, j: JobId)
    requires Ok(t) && j in t.jobs && t.record.Some? && t.jobs[j].outcome.Some? && !t.jobs[j].cancelled
    ensures Ledger(Applied(t, me, j))
  {
    TakenLedger(t, j);
    hide Ok, Ledger, Taken, Fail;
    var k := Taken(t, j);
    var rec := k.record.value;
    match t.jobs[j].outcome.value
    case Send => RecordLedger(k, rec.(state := Sending, expired := {}, failures := 0), k.folder);
    case Landed => RecordLedger(k, rec.(state := Done), GONE);
    case Reseal => RecordLedger(k, rec.(state := Waiting, expired := {}, failures := 0), k.folder);
    case Again => RecordLedger(k, rec.(failures := rec.failures + 1), k.folder);
    case Refused(passes) => FailStillLedger(k, me, passes);
  }

  lemma FailStillLedger(t: Transfer, me: Option<Account>, passes: bool)
    requires Ledger(t)
    ensures Ledger(Fail(t, me, passes))
  {
    if !passes { FailLedger(t, me); }
    else if t.record.Some? { RecordLedger(t, t.record.value.(failures := t.record.value.failures + 1), t.folder); }
    hide Ledger;
  }

  lemma SentSound(t: Transfer, me: Option<Account>, j: JobId)
    requires Ok(t) && j in t.jobs && t.record.Some? && t.jobs[j].outcome == Some(Send) && !t.jobs[j].cancelled
    ensures Sound(Applied(t, me, j))
  {
    hide Books, TasksOk, FinishJobOk;
  }

  lemma RefusedSound(t: Transfer, me: Option<Account>, j: JobId)
    requires Ok(t) && j in t.jobs && t.record.Some? && t.jobs[j].outcome == Some(Refused(false)) && !t.jobs[j].cancelled
    ensures Sound(Applied(t, me, j))
  {
    hide Books, TasksOk;
  }

  lemma LandedSound(t: Transfer, me: Option<Account>, j: JobId)
    requires Ok(t) && j in t.jobs && t.record.Some? && t.jobs[j].outcome == Some(Landed) && !t.jobs[j].cancelled
    ensures Sound(Applied(t, me, j))
  {
    hide Books, TasksOk;
  }

  lemma ResealedSound(t: Transfer, me: Option<Account>, j: JobId)
    requires Ok(t) && j in t.jobs && t.record.Some? && t.jobs[j].outcome == Some(Reseal) && !t.jobs[j].cancelled
    ensures Sound(Applied(t, me, j))
  {
    hide Books, TasksOk;
  }

  lemma AgainSound(t: Transfer, me: Option<Account>, j: JobId)
    requires Ok(t) && j in t.jobs && t.record.Some? && !t.jobs[j].cancelled
    requires t.jobs[j].outcome == Some(Again) || t.jobs[j].outcome == Some(Refused(true))
    ensures Sound(Applied(t, me, j))
  {
    hide Books, TasksOk;
  }

  lemma GoneJobKeeps(t: Transfer, me: Option<Account>, j: JobId)
    requires Ok(t) && j in t.jobs && t.jobs[j].outcome.Some? && (t.record.None? || t.jobs[j].cancelled)
    ensures Ok(JobDone(t, me, j))
  {
    GoneJobLedger(t, j);
    hide Ledger, Apply;
    assert Sound(JobDone(t, me, j));
  }

  lemma JobDoneIs(t: Transfer, me: Option<Account>, j: JobId)
    requires j in t.jobs && t.record.Some? && t.jobs[j].outcome.Some? && !t.jobs[j].cancelled
    ensures JobDone(t, me, j) == if t.jobs[j].outcome == Some(Send) then Start(Applied(t, me, j), me, {}) else Applied(t, me, j)
  {
    hide Start, Land, Fail, Server.Replaced;
  }

  lemma JobDoneKeeps(t: Transfer, me: Option<Account>, j: JobId)
    requires Ok(t) && j in t.jobs && t.jobs[j].outcome.Some?
    ensures Ok(JobDone(t, me, j))
  {
    if t.record.None? || t.jobs[j].cancelled {
      GoneJobKeeps(t, me, j);
      hide Ok, JobDone;
    } else {
      JobDoneIs(t, me, j);
      AppliedLedger(t, me, j);
      hide Applied, JobDone, Start, Ledger, Sound;
      match t.jobs[j].outcome.value
      case Send => SentSound(t, me, j); StartKeeps(Applied(t, me, j), me, {});
      case Landed => LandedSound(t, me, j);
      case Reseal => ResealedSound(t, me, j);
      case Again => AgainSound(t, me, j);
      case Refused(passes) => if passes { AgainSound(t, me, j); } else { RefusedSound(t, me, j); }
    }
  }

  // -- The session's callbacks ---------------------------------------------------------------------------------------------

  lemma NoWorkWhileSending(t: Transfer, rec: Record, j: JobId)
    requires UploadSound(t, rec) && rec.state == Sending
    ensures j !in t.jobs
  {
  }

  /** As many landed parts as parts are all of them; while parts are sent no family work is under way. */
  lemma ArriveUploadSound(t: Transfer, rec: Record)
    requires UploadSound(t, rec) && t.record == Some(rec) && rec.kind == Upload && rec.state == Sending && rec.Landed() == rec.Total()
    ensures UploadSound(Put(t, rec.(state := Finishing)), rec.(state := Finishing))
  {
    CountedParts(rec.sealed.value, rec.etags);
    forall j ensures j !in t.jobs { NoWorkWhileSending(t, rec, j); }
    hide JobOk, Provenance, HasBytes, Emptied;
  }

  lemma ArriveKeepSound(t: Transfer, rec: Record)
    requires KeepSound(t, rec) && t.record == Some(rec) && rec.kind == Keep && rec.state == Sending && rec.Landed() == rec.Total()
    ensures KeepSound(Put(t, rec.(state := Finishing)), rec.(state := Finishing))
  {
    CountIsComplete(rec.fetched, 0, rec.plan.value.chunkCount);
  }

  lemma ArriveSound(t: Transfer)
    requires Ok(t) && t.record.Some? && Arrive(t) != t
    ensures Sound(Arrive(t))
  {
    hide Ledger, UploadSound, KeepSound;
    var rec := t.record.value;
    if rec.kind == Keep { ArriveKeepSound(t, rec); }
    else if Tracked(t) { ArriveUploadSound(t, rec); }
  }

  /** A callback for a piece of what the record is now, with what it found landed or the record left to retry. */
  lemma ArriveKeeps(t: Transfer)
    requires Ok(t) && t.record.Some?
    ensures Ok(Arrive(t))
  {
    if Arrive(t) != t {
      ArriveSound(t);
      RecordLedger(t, t.record.value.(state := Finishing), t.folder);
      hide Ledger, Sound;
    }
  }

  lemma PartLandedKeeps(t: Transfer, d: Desc)
    requires Ok(t) && t.record.Some? && t.record.value.kind == Upload && d.upload.Some? && d.upload == t.record.value.Named()
    requires 0 <= d.piece < t.record.value.Total()
    ensures var rec := t.record.value;
            Ok(Put(t, rec.(etags := rec.etags[d.piece + 1 := Etag(d.upload.value, d.piece + 1)], failures := 0)).(
                 folder := t.folder.(parts := t.folder.parts - {d.piece + 1})))
  {
    var rec := t.record.value;
    var after := rec.(etags := rec.etags[d.piece + 1 := Etag(d.upload.value, d.piece + 1)], failures := 0);
    var folder := t.folder.(parts := t.folder.parts - {d.piece + 1});
    RecordLedger(t, after, folder);
    hide Ledger;
    assert Sound(t.(record := Some(after), folder := folder));
  }

  lemma ChunkFetchedKeeps(t: Transfer, piece: int)
    requires Ok(t) && t.record.Some? && t.record.value.kind == Keep && t.planned.Some? && 0 <= piece < t.planned.value
    ensures var rec := t.record.value;
            Ok(Put(t, rec.(fetched := rec.fetched + {piece}, failures := 0)).(
                 folder := t.folder.(chunks := t.folder.chunks + {piece})))
  {
    var rec := t.record.value;
    var after := rec.(fetched := rec.fetched + {piece}, failures := 0);
    var folder := t.folder.(chunks := t.folder.chunks + {piece});
    RecordLedger(t, after, folder);
    hide Ledger;
    assert Sound(t.(record := Some(after), folder := folder));
  }

  lemma RetryPieceKeeps(t: Transfer, me: Option<Account>, piece: int, status: int)
    requires Ok(t) && t.record.Some? && Failable(t)
    ensures Ok(RetryPiece(t, me, piece, status))
  {
    var rec := t.record.value;
    if status == 403 {
      PassingKeeps(t, rec.(expired := rec.expired + {piece}));
    } else {
      var t1 := Put(t, rec.(failures := rec.failures + 1));
      PassingKeeps(t, rec.(failures := rec.failures + 1));
      FailKeeps(t1, me, Passes(status));
      StartKeeps(t1, me, {});
    }
    hide Ok, Fail, Start;
  }

  /** The two waits during which a record hears no callback of its own. */
  lemma NoCallbackYet(t: Transfer, task: Task)
    requires Ok(t) && task in t.handed && t.record.Some?
    requires task.desc.upload.None? || task.desc.upload == t.record.value.Named()
    ensures Failable(t)
  {
    assert TaskOk(t.server.begun, t.planned, task);
  }

  lemma InRange(t: Transfer, task: Task)
    requires Ok(t) && task in t.handed && t.record.Some?
    ensures t.record.value.kind == Upload && task.desc.upload.Some? && task.desc.upload == t.record.value.Named() ==>
              0 <= task.desc.piece < t.record.value.Total()
    ensures t.record.value.kind == Keep && (task.desc.upload.None? || task.desc.upload == t.record.value.Named()) ==>
              t.planned.Some? && 0 <= task.desc.piece < t.planned.value
  {
    assert TaskOk(t.server.begun, t.planned, task);
    assert NamesRecord(t.server, t.planned, t.record.value);
  }

  /** A callback of a task that was handed over: for this upload's part or this keep's chunk, or dropped. */
  lemma FinishedKeeps(t: Transfer, me: Option<Account>, task: Task, status: int, ok: bool, fetched: bool)
    requires Ok(t) && task in t.handed && (ok ==> task.desc.upload.Some?)
    ensures Ok(Finished(t, me, task.desc, status, if ok then Some(Etag(task.desc.upload.value, task.desc.piece + 1)) else None, fetched))
  {
    hide Ok, RetryPiece, Arrive;
    var d := task.desc;
    if t.record.Some? && (d.upload.None? || d.upload == t.record.value.Named()) {
      InRange(t, task);
      NoCallbackYet(t, task);
      var rec := t.record.value;
      if rec.kind == Upload {
        if ok {
          PartLandedKeeps(t, d);
          ArriveKeeps(Put(t, rec.(etags := rec.etags[d.piece + 1 := Etag(d.upload.value, d.piece + 1)], failures := 0)).(
                        folder := t.folder.(parts := t.folder.parts - {d.piece + 1})));
        } else {
          RetryPieceKeeps(t, me, d.piece + 1, status);
          ArriveKeeps(RetryPiece(t, me, d.piece + 1, status));
        }
      } else if fetched {
        ChunkFetchedKeeps(t, d.piece);
        ArriveKeeps(Put(t, rec.(fetched := rec.fetched + {d.piece}, failures := 0)).(
                      folder := t.folder.(chunks := t.folder.chunks + {d.piece})));
      } else {
        RetryPieceKeeps(t, me, d.piece, status);
        ArriveKeeps(RetryPiece(t, me, d.piece, status));
      }
    }
  }

  // -- What the person and the account do ------------------------------------------------------------------------------------

  lemma CancelBeginKeeps(t: Transfer, c: nat)
    requires Ok(t) && c !in t.cancels
    ensures Ok(CancelBegin(t, c))
  {
    var r := CancelBegin(t, c);
    assert Names(r);
    forall u | u in t.server.begun && InFlight(t.jobs, u) ensures InFlight(r.jobs, u) {
      if r.jobs != t.jobs { InFlightAfter(t.jobs, t.sealing.value, r.jobs[t.sealing.value], u); }
    }
    assert Ledger(r);
    hide Ledger, Books, Names, TasksOk, InFlight;
    CancelBeginSound(t, c);
  }

  lemma CancelBeginSound(t: Transfer, c: nat)
    requires Sound(t) && c !in t.cancels
    ensures Sound(CancelBegin(t, c))
  {
  }

  lemma CancelDiscardKeeps(t: Transfer, me: Option<Account>, c: nat, families: bool)
    requires Ok(t) && c in t.cancels
    ensures Ok(CancelDiscard(t, me, c, families))
  {
    var r := CancelDiscard(t, me, c, families);
    BooksAborted(t.server, t.record, t.jobs, t.past, t.cancels[c].read.sealed);
    CancelDiscardSound(t, me, c, families);
    assert Names(r);
    hide Books, Sound;
  }

  lemma CancelDiscardSound(t: Transfer, me: Option<Account>, c: nat, families: bool)
    requires Ok(t) && c in t.cancels
    ensures Sound(CancelDiscard(t, me, c, families))
  {
    assert t.past.cancelled;
    var r := CancelDiscard(t, me, c, families);
    assert r == t.(cancels := r.cancels, server := r.server, folder := r.folder) && r.record == t.record;
    if t.record.Some? && t.record.value.kind == Upload && Tracked(t) {
      hide Ledger;
      assert t.cancels[c].read.family.None?;
      forall j ensures j !in t.jobs { OwnHasNoWork(t, t.record.value, j); }
      assert t.jobs == map[];
      CancelDiscardUpload(t, me, c, families);
    } else {
      hide UploadSound, Ledger;
    }
  }

  lemma OwnHasNoWork(t: Transfer, rec: Record, j: JobId)
    requires UploadSound(t, rec) && rec.family.None?
    ensures j !in t.jobs
  {
  }

  lemma CancelDiscardUpload(t: Transfer, me: Option<Account>, c: nat, families: bool)
    requires t.record.Some? && UploadSound(t, t.record.value) && t.jobs == map[] && c in t.cancels && t.cancels[c].read.family.None?
    ensures UploadSound(CancelDiscard(t, me, c, families), t.record.value)
  {
    hide JobOk;
  }

  lemma CancelEndKeeps(t: Transfer, c: nat)
    requires Ok(t) && c in t.cancels
    ensures Ok(CancelEnd(t, c))
  {
    var r := CancelEnd(t, c);
    assert Names(r);
    BooksForgot(t.server, t.record, None, t.jobs, t.past, OtherAccount);
    BooksForgot(t.server, t.record, None, t.jobs, t.past, Raced);
    hide Books, Sound;
    assert r.record.None?;
  }

  lemma RetryKeeps(t: Transfer)
    requires Ok(t)
    ensures Ok(Retry(t))
  {
    var r := Retry(t);
    if CanRetry(t) {
      ReplacedKeeps(t, r.record.value);
      assert Ledger(r);
      hide Ledger;
      assert Sound(r);
    }
  }

  lemma DismissKeeps(t: Transfer)
    requires Ok(t)
    ensures Ok(Dismiss(t))
  {
    var r := Dismiss(t);
    if r != t {
      assert t.record.value.kind == Upload && !t.past.cancelled && !t.past.returned ==> SettledUpload(t.server, t.record.value.sealed);
      assert t.record.value.kind == Keep ==> t.record.value.sealed.None?;
      BooksForgot(t.server, t.record, None, t.jobs, t.past, Raced);
      hide Books;
      assert Names(r);
      assert Sound(r);
    }
  }

  lemma EndFamilyKeeps(t: Transfer, g: Group)
    requires Ok(t)
    ensures Ok(EndFamily(t, g))
  {
    var r := EndFamily(t, g);
    if r != t {
      assert Names(r);
      BooksForgot(t.server, t.record, r.record, t.jobs, t.past, FamilyEnded);
      forall u | u in t.server.begun && InFlight(t.jobs, u) ensures InFlight(r.jobs, u) {
        if r.jobs != t.jobs { InFlightAfter(t.jobs, t.sealing.value, r.jobs[t.sealing.value], u); }
      }
      BooksJobs(r.server, r.record, t.jobs, r.jobs, t.past);
      hide Books, Names, TasksOk, InFlight;
      EndFamilySound(t, g);
    }
  }

  lemma EndFamilySound(t: Transfer, g: Group)
    requires Sound(t) && t.record.Some?
    ensures Sound(EndFamily(t, g))
  {
  }
}
