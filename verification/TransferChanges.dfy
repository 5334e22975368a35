/**
 What a step makes of a transfer, field by field: when its record fails, lands, waits again or goes, what becomes of its
 files, its ETags and its failures, and what is asked of the server. Each field's rule is said from the event and the
 record as it was, not by the steps.
 */
module TransferChanges {
  import opened Common
  import opened TransferModel
  import opened TransferRuns
  import Steps = TransferSteps
  import opened TransferSafety
  import opened TransferReasons

  // -- What an event says to a record ----------------------------------------------------------------------------------

  /** The callback is about what the record is now. */
  predicate Hears(rec: Record, task: Task) {
    task.desc.upload.None? || (rec.sealed.Some? && task.desc.upload.value == rec.sealed.value.uploadId)
  }

  /** A piece of it landed: a part with its ETag, or a chunk moved into place. */
  predicate Arrives(rec: Record, one: One) {
    one.TaskEnded? && Hears(rec, one.task) && if rec.kind == Upload then one.ok else one.fetched
  }

  predicate Misses(rec: Record, one: One) {
    one.TaskEnded? && Hears(rec, one.task) && !(if rec.kind == Upload then one.ok else one.fetched)
  }

  /** Parts are numbered from one, chunks from zero. */
  function PieceOf(rec: Record, one: One): (piece: int)
    requires one.TaskEnded?
  {
    one.task.desc.piece + if rec.kind == Upload then 1 else 0
  }

  /** No answer, an expired address, a busy server: worth another try. */
  predicate Retryable(status: int) {
    status in {0, 403, 408, 429} || status >= 500
  }

  /** A piece missed, not for its address, after thirty failures in a row. */
  predicate OneTooMany(rec: Record, one: One) {
    Misses(rec, one) && one.status != 403 && rec.failures >= 30
  }

  /** A family's work came back to its record, not cancelled, with this step. */
  predicate Says(t: Transfer, one: One, step: Step) {
    one.JobCame? && one.j in t.jobs && t.record.Some? && !t.jobs[one.j].cancelled && t.jobs[one.j].outcome == Some(step)
  }

  predicate Applies(t: Transfer, one: One) {
    one.JobCame? && one.j in t.jobs && t.record.Some? && !t.jobs[one.j].cancelled
  }

  /** A failure that passes. */
  predicate Passing(t: Transfer, one: One) {
    || one == PassFailed(true) || Says(t, one, Refused(true))
    || (t.record.Some? && OneTooMany(t.record.value, one) && Retryable(one.status))
  }

  /** A final failure. */
  predicate Final(t: Transfer, one: One) {
    || one == PassFailed(false) || Says(t, one, Refused(false))
    || (t.record.Some? && OneTooMany(t.record.value, one) && !Retryable(one.status))
  }

  predicate Completes(t: Transfer, one: One) {
    one.CompletionCame? || one.Assembled? || Says(t, one, Landed)
  }

  predicate Sends(t: Transfer, one: One) {
    one.SealCame? || one.PlanCame? || Says(t, one, Send)
  }

  /** A failed upload that kept its file is tried again. */
  predicate TriedAgain(t: Transfer, one: One) {
    one.RetryAsked? && t.record.Some? && t.record.value.kind == Upload && t.record.value.state == Failed && t.folder.content
  }

  /** Parts the extension saw land join a record that is sending them. */
  predicate Joins(t: Transfer, one: One) {
    && one.Landings? && one.landed != map[] && t.record.Some? && t.record.value.kind == Upload
    && t.record.value.state == Sending && t.record.value.sealed.Some?
  }

  // -- The record, field by field ----------------------------------------------------------------------------------------

  function PartsTotal(rec: Record): (total: nat) {
    if rec.sealed.Some? then rec.sealed.value.partCount else if rec.plan.Some? then rec.plan.value.chunkCount else 0
  }

  function EtagsNow(t: Transfer, one: One): (etags: map<int, Etag>)
    requires t.record.Some? && (one.TaskEnded? && one.ok ==> one.task.desc.upload.Some?)
  {
    var rec := t.record.value;
    if Joins(t, one) then one.landed + rec.etags
    else if Arrives(rec, one) && rec.kind == Upload
    then rec.etags[one.task.desc.piece + 1 := Etag(one.task.desc.upload.value, one.task.desc.piece + 1)]
    else if Applies(t, one) then t.jobs[one.j].etags
    else if TriedAgain(t, one) then map[]
    else rec.etags
  }

  function FetchedNow(t: Transfer, one: One): (fetched: set<int>)
    requires t.record.Some?
  {
    var rec := t.record.value;
    if Arrives(rec, one) && rec.kind == Keep then rec.fetched + {one.task.desc.piece} else rec.fetched
  }

  /** The step is one after which a sending record is asked whether all its pieces landed, and they have. */
  predicate Fills(t: Transfer, one: One)
    requires t.record.Some? && (one.TaskEnded? && one.ok ==> one.task.desc.upload.Some?)
  {
    var rec := t.record.value;
    && rec.state == Sending && !Final(t, one) && (Joins(t, one) || Arrives(rec, one) || Misses(rec, one))
    && PartsTotal(rec) == if rec.kind == Upload then |EtagsNow(t, one)| else |FetchedNow(t, one)|
  }

  function StateNow(t: Transfer, one: One): (state: State)
    requires t.record.Some? && (one.TaskEnded? && one.ok ==> one.task.desc.upload.Some?)
  {
    if Final(t, one) then Failed
    else if Completes(t, one) then Done
    else if Sends(t, one) then Sending
    else if Says(t, one, Reseal) || TriedAgain(t, one) then Waiting
    else if Fills(t, one) then Finishing
    else t.record.value.state
  }

  function FailuresNow(t: Transfer, one: One): (failures: nat)
    requires t.record.Some?
  {
    var rec := t.record.value;
    if Arrives(rec, one) || Says(t, one, Send) || Says(t, one, Reseal) || TriedAgain(t, one) then 0
    else rec.failures + (if Passing(t, one) || Says(t, one, Again) then 1 else 0) + (if Misses(rec, one) && one.status != 403 then 1 else 0)
  }

  function SealedNow(t: Transfer, one: One): (sealed: Option<Sealed>)
    requires t.record.Some?
  {
    if one.SealCame? then Some(one.sealed)
    else if one.AddressesCame? && t.op.Some? && t.op.value.RefreshOp? && t.op.value.read.sealed.Some?
    then Some(t.op.value.read.sealed.value.(urls := t.op.value.read.sealed.value.urls + one.renewed))
    else if Applies(t, one) then t.jobs[one.j].sealed
    else if TriedAgain(t, one) then None
    else t.record.value.sealed
  }

  function ExpiredNow(t: Transfer, one: One): (expired: set<int>)
    requires t.record.Some?
  {
    var rec := t.record.value;
    if Misses(rec, one) && one.status == 403 then rec.expired + {PieceOf(rec, one)}
    else if Says(t, one, Send) || Says(t, one, Reseal) || TriedAgain(t, one) then {}
    else if one.AddressesCame? && t.op.Some? && t.op.value.RefreshOp? && (t.op.value.read.sealed.Some? || t.op.value.read.plan.Some?) then {}
    else rec.expired
  }

  function PlanNow(t: Transfer, one: One): (plan: Option<Plan>)
    requires t.record.Some?
  {
    if one.PlanCame? then Some(one.plan)
    else if one.AddressesCame? && t.op.Some? && t.op.value.RefreshOp? && t.op.value.read.sealed.None? && t.op.value.read.plan.Some?
    then t.op.value.read.plan
    else t.record.value.plan
  }

  /** The record goes: at a cancel's end, or off the panel once failed or done. */
  predicate Goes(t: Transfer, one: One) {
    one.CancelLast? || (one.Dismissed? && t.record.Some? && (t.record.value.state == Failed || t.record.value.state == Done))
  }

  ghost predicate RecordMoves(t: Transfer, one: One, r: Transfer)
    requires one.TaskEnded? && one.ok ==> one.task.desc.upload.Some?
  {
    && (r.record.Some? <==> t.record.Some? && !Goes(t, one))
    && (r.record.Some? && t.record.Some? ==>
          r.record.value == Record(t.record.value.kind, StateNow(t, one), t.record.value.owner, t.record.value.family, SealedNow(t, one),
                                   EtagsNow(t, one), PlanNow(t, one), FetchedNow(t, one), ExpiredNow(t, one), FailuresNow(t, one)))
  }

  // -- Its files -----------------------------------------------------------------------------------------------------------

  /** Work on a family's upload, off the main actor, that takes the folder with it. */
  predicate Empties(work: Work) {
    work.Completed? || work.Published? || work.NotInFamily?
  }

  /** The whole folder goes. */
  predicate FolderGoes(t: Transfer, me: Option<Account>, one: One) {
    || Completes(t, one) || Goes(t, one) || (Final(t, one) && !t.folder.content)
    || (one.JobWorked? && Empties(one.work)) || one.NoteDropped? || one.Swept? || (one.ExtensionFinished? && t.handoff.Some?)
    || (one.CancelListed? && one.c in t.cancels && one.families && t.cancels[one.c].read.family.Some?
        && me.Some? && t.cancels[one.c].read.owner == me)
  }

  /** All of it but the plaintext goes. */
  predicate OnlyPlaintextStays(t: Transfer, one: One) {
    (Final(t, one) && t.folder.content) || (one.JobWorked? && one.work.Conflicted?)
  }

  function FolderNow(t: Transfer, me: Option<Account>, one: One): (folder: Folder) {
    if FolderGoes(t, me, one) then Folder(false, false, {}, {}, false)
    else if OnlyPlaintextStays(t, one) then Folder(true, true, {}, {}, false)
    else
      Folder(
        t.folder.there || one.PlanCame? || (one.JobWorked? && (one.work.Prepared? || ((one.work.NoAnswer? || one.work.Error?) && one.work.made))),
        t.folder.content && !one.SealCame?,
        if one.SealCame? && one.kept then t.folder.parts + Span(1, one.sealed.partCount + 1)
        else if one.JobWorked? && one.work.Prepared? then t.folder.parts + Span(1, one.work.sealed.partCount + 1)
        else if t.record.Some? && Arrives(t.record.value, one) && t.record.value.kind == Upload then t.folder.parts - {one.task.desc.piece + 1}
        else t.folder.parts,
        if t.record.Some? && Arrives(t.record.value, one) && t.record.value.kind == Keep then t.folder.chunks + {one.task.desc.piece} else t.folder.chunks,
        (t.folder.note && !one.NoteTaken?) || (one.NoteReleased? && t.folder.there))
  }

  // -- The server ------------------------------------------------------------------------------------------------------------

  function Its(sealed: Option<Sealed>): (u: set<UploadId>) {
    if sealed.Some? then {sealed.value.uploadId} else {}
  }

  /** What the step asks the server to abort. */
  function Asks(t: Transfer, me: Option<Account>, one: One): (asked: set<UploadId>) {
    if Final(t, one) && t.record.Some? then
      // Under its own account alone; a family's job brings the upload it failed with.
      if me.Some? && t.record.value.owner == me then Its(SealedNow(t, one)) else {}
    else if one.JobCame? && one.j in t.jobs && !Applies(t, one) && !t.jobs[one.j].finish then Its(t.jobs[one.j].sealed)
    else if one.JobWorked? && one.j in t.jobs && (one.work.Conflicted? || (one.work.NotInFamily? && t.jobs[one.j].finish)) then Its(t.jobs[one.j].sealed)
    else if one.CancelListed? && one.c in t.cancels && me.Some? && t.cancels[one.c].read.owner == me then Its(t.cancels[one.c].read.sealed)
    else {}
  }

  /** What the step has the server complete. */
  function HasCompleted(t: Transfer, one: One): (completed: set<UploadId>) {
    if one.CompletionCame? && t.op.Some? && t.op.value.FinishOp? then {t.op.value.sealed.uploadId}
    else if one.JobWorked? && one.j in t.jobs && (one.work.Completed? || one.work.Published?) then Its(t.jobs[one.j].sealed)
    else if one.ExtensionFinished? && t.handoff.Some? then {t.handoff.value.sealed.uploadId}
    else {}
  }

  function Begins(one: One): (begun: map<UploadId, nat>) {
    if one.SealCame? then map[one.sealed.uploadId := one.sealed.partCount]
    else if one.JobWorked? && one.work.Prepared? then map[one.work.sealed.uploadId := one.work.sealed.partCount]
    else map[]
  }

  ghost predicate RestMoves(t: Transfer, me: Option<Account>, one: One, r: Transfer) {
    && r.folder == FolderNow(t, me, one)
    && r.server.asked == t.server.asked + Asks(t, me, one)
    && r.server.completed == t.server.completed + HasCompleted(t, one)
    && r.server.begun == t.server.begun + Begins(one)
  }

  // -- The work under way -------------------------------------------------------------------------------------------------------

  /** A turn of a record that may run now. */
  predicate Turns(t: Transfer, me: Option<Account>, one: One) {
    one.Turn? && t.record.Some? && me.Some? && t.record.value.owner == me
  }

  /** A turn begins a seal or a finish of a family's upload in a task of its own. */
  predicate BeginsJob(t: Transfer, me: Option<Account>, one: One, slot: bool) {
    && Turns(t, me, one) && t.record.value.kind == Upload && t.record.value.family.Some? && one.families && t.sealing.None?
    && ((t.record.value.state == Waiting && one.online && slot) || (t.record.value.state == Finishing && t.record.value.sealed.Some?))
  }

  /** What a turn leaves the pass waiting for. */
  function WaitsFor(t: Transfer, me: Option<Account>, one: One): (op: Option<Op>) {
    if !Turns(t, me, one) then t.op
    else
      var rec := t.record.value;
      if rec.state == Waiting && one.online && rec.kind == Keep then Some(PlanOp)
      else if rec.state == Waiting && one.online && rec.family.None? then Some(SealOp)
      else if rec.state == Sending && rec.expired != {} then Some(RefreshOp(rec))
      else if rec.state == Finishing && rec.kind == Keep && rec.plan.Some? then Some(AssembleOp)
      else if rec.state == Finishing && rec.kind == Upload && rec.family.None? && rec.sealed.Some? then Some(FinishOp(rec.sealed.value))
      else t.op
  }

  /** How the work of a job ended, as its task tells it. */
  function Ended(job: Job, work: Work): (ended: Job) {
    match work
    case Prepared(sealed) => Job(job.finish, job.cancelled, Some(sealed), map[], Some(Send), job.emptied)
    case Completed => Job(job.finish, job.cancelled, job.sealed, job.etags, Some(Landed), true)
    case Published => Job(job.finish, job.cancelled, job.sealed, job.etags, Some(Again), true)
    case Conflicted => Job(job.finish, job.cancelled, None, map[], Some(Reseal), job.emptied)
    case NotInFamily => Job(job.finish, job.cancelled, job.sealed, job.etags, Some(Refused(false)), true)
    case NoAnswer(_) => Job(job.finish, job.cancelled, job.sealed, job.etags, Some(Again), job.emptied)
    case Error(passes, _) => Job(job.finish, job.cancelled, job.sealed, job.etags, Some(Refused(passes)), job.emptied)
  }

  /** Family work goes on from its begin to the step that applies it; a cancel stops the one that holds the place. */
  function JobNow(t: Transfer, me: Option<Account>, one: One, slot: bool, j: JobId): (job: Option<Job>) {
    if BeginsJob(t, me, one, slot) && one.job == j then
      Some(Job(t.record.value.state == Finishing, false, t.record.value.sealed, t.record.value.etags, None, false))
    else if j !in t.jobs || (one.JobCame? && one.j == j) then None
    else if one.JobWorked? && one.j == j then Some(Ended(t.jobs[j], one.work))
    else if one.CancelAsked? && t.record.Some? && t.sealing == Some(j) then
      Some(Job(t.jobs[j].finish, true, t.jobs[j].sealed, t.jobs[j].etags, t.jobs[j].outcome, t.jobs[j].emptied))
    else Some(t.jobs[j])
  }

  function SealingNow(t: Transfer, me: Option<Account>, one: One, slot: bool): (sealing: Option<JobId>) {
    if BeginsJob(t, me, one, slot) then Some(one.job)
    else if one.JobCame? || (one.CancelAsked? && t.record.Some?) then None
    else t.sealing
  }

  function CancelNow(t: Transfer, one: One, c: nat): (cancel: Option<Cancel>) {
    if one == CancelAsked(c) && t.record.Some? then Some(Cancel(t.record.value, false))
    else if c !in t.cancels || one == CancelLast(c) then None
    else if one.CancelListed? && one.c == c then Some(Cancel(t.cancels[c].read, true))
    else Some(t.cancels[c])
  }

  ghost predicate WorkMoves(t: Transfer, me: Option<Account>, one: One, slot: bool, r: Transfer) {
    && (forall j :: j in r.jobs <==> JobNow(t, me, one, slot, j).Some?)
    && (forall j | j in r.jobs :: Some(r.jobs[j]) == JobNow(t, me, one, slot, j))
    && r.sealing == SealingNow(t, me, one, slot)
    && (forall c :: c in r.cancels <==> CancelNow(t, one, c).Some?)
    && (forall c | c in r.cancels :: Some(r.cancels[c]) == CancelNow(t, one, c))
    && r.op == (if InPass(one) then None else WaitsFor(t, me, one))
  }

  /** The steps after which the pieces of a record that want it are handed to the session. */
  predicate HandsOver(t: Transfer, one: One) {
    || Sends(t, one) || one.AddressesCame?
    || (one.Turn? && t.record.Some? && t.record.value.state == Sending && t.record.value.expired == {})
    || (t.record.Some? && Misses(t.record.value, one) && one.status != 403 && t.record.value.failures < 30)
  }

  function RunningAs(one: One): (running: set<Desc>) {
    if one.Turn? then one.running else if one.AddressesCame? then one.running else {}
  }

  /** Not landed, not expired, with an address, and not with the session. */
  predicate Wants(rec: Record, piece: int, running: set<Desc>) {
    var upload := if rec.sealed.Some? then Some(rec.sealed.value.uploadId) else None;
    && 0 <= piece < PartsTotal(rec) && Desc(piece, upload) !in running && Desc(piece, None) !in running
    && if rec.sealed.Some? then piece + 1 !in rec.etags && piece + 1 !in rec.expired && piece + 1 in rec.sealed.value.urls
       else rec.plan.Some? && piece !in rec.fetched && piece !in rec.expired && piece in rec.plan.value.ranges
  }

  ghost predicate HandedMoves(t: Transfer, me: Option<Account>, one: One, r: Transfer) {
    forall task :: task in r.handed <==> task in t.handed || Hands(t, me, one, r, task)
  }

  /** The record as the step leaves it has this task handed over, under its own account. */
  predicate Hands(t: Transfer, me: Option<Account>, one: One, r: Transfer, task: Task) {
    && HandsOver(t, one) && r.record.Some? && me.Some? && r.record.value.owner == me
    && task.owner == me && task.under == me && Wants(r.record.value, task.desc.piece, RunningAs(one))
    && task.desc.upload == if r.record.value.sealed.Some? then Some(r.record.value.sealed.value.uploadId) else None
  }

  // -- Proofs -----------------------------------------------------------------------------------------------------------------

  /** All of it. */
  ghost predicate Moves(t: Transfer, me: Option<Account>, one: One, slot: bool, r: Transfer)
    requires one.TaskEnded? && one.ok ==> one.task.desc.upload.Some?
  {
    RecordMoves(t, one, r) && RestMoves(t, me, one, r) && WorkMoves(t, me, one, slot, r) && HandedMoves(t, me, one, r)
  }

  // Most steps leave most of it as it was.

  lemma SameRecord(t: Transfer, one: One, r: Transfer)
    requires r.record == t.record
    requires one.CancelAsked? || one.CancelListed? || one.NoteTaken? || one.NoteReleased? || one.NoteDropped? || one.Swept? || one.ExtensionFinished?
             || one.JobWorked? || one.Turn?
    ensures RecordMoves(t, one, r)
  {
  }

  lemma SameRest(t: Transfer, me: Option<Account>, one: One, r: Transfer)
    requires r.folder == t.folder && r.server.asked == t.server.asked && r.server.completed == t.server.completed && r.server.begun == t.server.begun
    requires one.CancelAsked? || one.RetryAsked? || one.Landings? || one.Turn? || one.AddressesCame?
    ensures RestMoves(t, me, one, r)
  {
  }

  lemma SameWork(t: Transfer, me: Option<Account>, one: One, slot: bool, r: Transfer)
    requires r.jobs == t.jobs && r.sealing == t.sealing && r.cancels == t.cancels && r.op == (if InPass(one) then None else t.op)
    requires !one.Turn? && !one.JobWorked? && !one.JobCame? && !one.CancelAsked? && !one.CancelListed? && !one.CancelLast?
    ensures WorkMoves(t, me, one, slot, r)
  {
    NoJobBegins(t, me, one, slot);
    hide BeginsJob, WaitsFor, InPass;
    JobsStay(t, me, one, slot);
    hide JobNow;
    CancelsStay(t, one);
    hide CancelNow;
  }

  lemma CancelsStay(t: Transfer, one: One)
    requires !one.CancelAsked? && !one.CancelListed? && !one.CancelLast?
    ensures forall c :: CancelNow(t, one, c) == if c in t.cancels then Some(t.cancels[c]) else None
  {
  }

  lemma NoJobBegins(t: Transfer, me: Option<Account>, one: One, slot: bool)
    requires !one.Turn?
    ensures !BeginsJob(t, me, one, slot) && WaitsFor(t, me, one) == t.op
  {
  }

  lemma JobsStay(t: Transfer, me: Option<Account>, one: One, slot: bool)
    requires !BeginsJob(t, me, one, slot) && !one.JobWorked? && !one.JobCame? && !one.CancelAsked?
    ensures forall j :: JobNow(t, me, one, slot, j) == if j in t.jobs then Some(t.jobs[j]) else None
  {
    hide BeginsJob;
  }

  lemma SameHanded(t: Transfer, me: Option<Account>, one: One, r: Transfer)
    requires r.handed == t.handed && (!HandsOver(t, one) || r.record.None? || me.None? || r.record.value.owner != me)
    ensures HandedMoves(t, me, one, r)
  {
  }

  lemma StartHands(t: Transfer, me: Option<Account>, one: One, s: Transfer)
    requires HandsOver(t, one) && s.handed == t.handed
    ensures HandedMoves(t, me, one, Start(s, me, RunningAs(one)))
  {
    var r := Start(s, me, RunningAs(one));
    hide HandsOver, RunningAs;
    forall task ensures task in r.handed <==> task in t.handed || Hands(t, me, one, r, task) {
      if s.record.Some? && me.Some? && s.record.value.owner == me {
        WantedAre(s.record.value, task.desc.piece, RunningAs(one));
        hide Wants, Pieces;
        assert Hands(t, me, one, r, task) ==> task == Task(Desc(task.desc.piece, s.record.value.Named()), s.record.value.owner, me);
      }
    }
  }

  lemma WantedAre(rec: Record, piece: int, running: set<Desc>)
    ensures piece in Pieces(rec, running) <==> Wants(rec, piece, running)
  {
  }

  lemma CancelAskedMoves(t: Transfer, me: Option<Account>, slot: bool, c: nat)
    ensures Moves(t, me, One.CancelAsked(c), slot, CancelBegin(t, c))
  {
    var one, r := One.CancelAsked(c), CancelBegin(t, c);
    SameRecord(t, one, r);
    SameRest(t, me, one, r);
    SameHanded(t, me, one, r);
    CancelAskedWork(t, me, slot, c);
    hide RecordMoves, RestMoves, WorkMoves, HandedMoves, CancelBegin;
  }

  lemma CancelAskedWork(t: Transfer, me: Option<Account>, slot: bool, c: nat)
    ensures WorkMoves(t, me, One.CancelAsked(c), slot, CancelBegin(t, c))
  {
    var one, r := One.CancelAsked(c), CancelBegin(t, c);
    NoJobBegins(t, me, one, slot);
    hide BeginsJob, WaitsFor;
    forall j ensures JobNow(t, me, one, slot, j) == if j in r.jobs then Some(r.jobs[j]) else None {}
    hide JobNow;
    forall d ensures CancelNow(t, one, d) == if d in r.cancels then Some(r.cancels[d]) else None {}
    hide CancelNow;
  }

  lemma CancelListedMoves(t: Transfer, me: Option<Account>, slot: bool, c: nat, families: bool)
    requires c in t.cancels
    ensures Moves(t, me, One.CancelListed(c, families), slot, CancelDiscard(t, me, c, families))
  {
    var one, r := One.CancelListed(c, families), CancelDiscard(t, me, c, families);
    SameRecord(t, one, r);
    SameHanded(t, me, one, r);
    CancelListedRest(t, me, c, families);
    CancelListedWork(t, me, slot, c, families);
    hide RecordMoves, RestMoves, WorkMoves, HandedMoves, CancelDiscard;
  }

  lemma CancelListedWork(t: Transfer, me: Option<Account>, slot: bool, c: nat, families: bool)
    requires c in t.cancels
    ensures WorkMoves(t, me, One.CancelListed(c, families), slot, CancelDiscard(t, me, c, families))
  {
    var one := One.CancelListed(c, families);
    NoJobBegins(t, me, one, slot);
    hide BeginsJob, WaitsFor;
    JobsStay(t, me, one, slot);
    hide JobNow;
  }

  lemma CancelListedRest(t: Transfer, me: Option<Account>, c: nat, families: bool)
    requires c in t.cancels
    ensures RestMoves(t, me, One.CancelListed(c, families), CancelDiscard(t, me, c, families))
  {
  }

  lemma CancelLastMoves(t: Transfer, me: Option<Account>, slot: bool, c: nat)
    requires c in t.cancels
    ensures Moves(t, me, One.CancelLast(c), slot, CancelEnd(t, c))
  {
    var one, r := One.CancelLast(c), CancelEnd(t, c);
    SameHanded(t, me, one, r);
    hide HandedMoves;
  }

  lemma RetryAskedMoves(t: Transfer, me: Option<Account>, slot: bool)
    ensures Moves(t, me, RetryAsked, slot, Retry(t))
  {
    var one, r := RetryAsked, Retry(t);
    SameRest(t, me, one, r);
    SameWork(t, me, one, slot, r);
    SameHanded(t, me, one, r);
    hide RestMoves, WorkMoves, HandedMoves;
  }

  lemma DismissedMoves(t: Transfer, me: Option<Account>, slot: bool)
    ensures Moves(t, me, Dismissed, slot, Dismiss(t))
  {
    var one, r := Dismissed, Dismiss(t);
    SameWork(t, me, one, slot, r);
    SameHanded(t, me, one, r);
    DismissedRest(t, me);
    hide RestMoves, WorkMoves, HandedMoves;
  }

  lemma DismissedRest(t: Transfer, me: Option<Account>)
    ensures RestMoves(t, me, Dismissed, Dismiss(t))
  {
  }

  lemma NoteTakenMoves(t: Transfer, me: Option<Account>, slot: bool)
    ensures Moves(t, me, NoteTaken, slot, TakeNote(t))
  {
    var one, r := NoteTaken, TakeNote(t);
    SameRecord(t, one, r);
    SameWork(t, me, one, slot, r);
    SameHanded(t, me, one, r);
    hide RecordMoves, WorkMoves, HandedMoves;
  }

  lemma NoteReleasedMoves(t: Transfer, me: Option<Account>, slot: bool)
    ensures Moves(t, me, NoteReleased, slot, Release(t))
  {
    var one, r := NoteReleased, Release(t);
    SameRecord(t, one, r);
    SameWork(t, me, one, slot, r);
    SameHanded(t, me, one, r);
    hide RecordMoves, WorkMoves, HandedMoves;
  }

  lemma ExtensionFinishedMoves(t: Transfer, me: Option<Account>, slot: bool)
    requires t.handoff.Some?
    ensures Moves(t, me, ExtensionFinished, slot, FinishedByExtension(t))
  {
    var one, r := ExtensionFinished, FinishedByExtension(t);
    SameRecord(t, one, r);
    SameWork(t, me, one, slot, r);
    SameHanded(t, me, one, r);
    hide RecordMoves, WorkMoves, HandedMoves;
  }

  lemma NoteDroppedMoves(t: Transfer, me: Option<Account>, slot: bool)
    ensures Moves(t, me, NoteDropped, slot, FolderGone(t))
  {
    var one, r := NoteDropped, FolderGone(t);
    SameRecord(t, one, r);
    SameWork(t, me, one, slot, r);
    SameHanded(t, me, one, r);
    hide RecordMoves, WorkMoves, HandedMoves;
  }

  lemma SweptMoves(t: Transfer, me: Option<Account>, slot: bool)
    ensures Moves(t, me, Swept, slot, FolderGone(t))
  {
    var one, r := Swept, FolderGone(t);
    SameRecord(t, one, r);
    SameWork(t, me, one, slot, r);
    SameHanded(t, me, one, r);
    hide RecordMoves, WorkMoves, HandedMoves;
  }

  lemma LandingsMoves(t: Transfer, me: Option<Account>, slot: bool, landed: map<int, Etag>)
    ensures Moves(t, me, Landings(landed), slot, TakeLanded(t, landed))
  {
    var one, r := Landings(landed), TakeLanded(t, landed);
    assert r == t.(record := r.record);
    hide TakeLanded;
    SameRest(t, me, one, r);
    SameWork(t, me, one, slot, r);
    SameHanded(t, me, one, r);
    LandingsRecord(t, me, slot, landed);
    hide RecordMoves, RestMoves, WorkMoves, HandedMoves;
  }

  lemma LandingsRecord(t: Transfer, me: Option<Account>, slot: bool, landed: map<int, Etag>)
    ensures RecordMoves(t, Landings(landed), TakeLanded(t, landed))
  {
  }

  lemma SealCameMoves(t: Transfer, me: Option<Account>, slot: bool, sealed: Sealed, kept: bool)
    requires t.op == Some(SealOp)
    ensures Moves(t, me, SealCame(sealed, kept), slot, SealDone(t, me, sealed, kept))
  {
    var one, r := SealCame(sealed, kept), SealDone(t, me, sealed, kept);
    SameWork(t, me, one, slot, r);
    SealCameRecord(t, me, slot, sealed, kept);
    SealCameRest(t, me, slot, sealed, kept);
    hide RecordMoves, RestMoves, WorkMoves, Start;
    if t.record.Some? { StartHands(t, me, one, Steps.Prepared(t, sealed, kept)); } else { SameHanded(t, me, one, r); }
    hide HandedMoves;
  }

  lemma SealCameRecord(t: Transfer, me: Option<Account>, slot: bool, sealed: Sealed, kept: bool)
    requires t.op == Some(SealOp)
    ensures RecordMoves(t, SealCame(sealed, kept), SealDone(t, me, sealed, kept))
  {
  }

  lemma SealCameRest(t: Transfer, me: Option<Account>, slot: bool, sealed: Sealed, kept: bool)
    requires t.op == Some(SealOp)
    ensures RestMoves(t, me, SealCame(sealed, kept), SealDone(t, me, sealed, kept))
  {
    SealedIs(t, me, sealed, kept);
    hide SealDone;
  }

  lemma SealedIs(t: Transfer, me: Option<Account>, sealed: Sealed, kept: bool)
    ensures var r := SealDone(t, me, sealed, kept);
            && r.folder == t.folder.(content := false, parts := if kept then t.folder.parts + Span(1, sealed.partCount + 1) else t.folder.parts)
            && r.server.asked == t.server.asked && r.server.completed == t.server.completed
            && r.server.begun == t.server.begun[sealed.uploadId := sealed.partCount]
  {
    hide Pieces;
  }

  lemma PlanCameMoves(t: Transfer, me: Option<Account>, slot: bool, plan: Plan)
    requires t.op == Some(PlanOp)
    ensures Moves(t, me, PlanCame(plan), slot, PlanDone(t, me, plan))
  {
    var one, r := PlanCame(plan), PlanDone(t, me, plan);
    SameWork(t, me, one, slot, r);
    PlanCameRecord(t, me, slot, plan);
    PlanCameRest(t, me, slot, plan);
    hide RecordMoves, RestMoves, WorkMoves, Start;
    var s := t.(op := None, planned := Some(plan.chunkCount), folder := t.folder.(there := true));
    if t.record.Some? { StartHands(t, me, one, s.(record := Some(t.record.value.(plan := Some(plan), state := Sending)))); } else { SameHanded(t, me, one, r); }
    hide HandedMoves;
  }

  lemma PlanCameRecord(t: Transfer, me: Option<Account>, slot: bool, plan: Plan)
    requires t.op == Some(PlanOp)
    ensures RecordMoves(t, PlanCame(plan), PlanDone(t, me, plan))
  {
  }

  lemma PlanCameRest(t: Transfer, me: Option<Account>, slot: bool, plan: Plan)
    requires t.op == Some(PlanOp)
    ensures RestMoves(t, me, PlanCame(plan), PlanDone(t, me, plan))
  {
  }

  lemma AddressesCameMoves(t: Transfer, me: Option<Account>, slot: bool, renewed: set<int>, running: set<Desc>)
    requires t.op.Some? && t.op.value.RefreshOp?
    ensures Moves(t, me, AddressesCame(renewed, running), slot, RefreshDone(t, me, renewed, running))
  {
    var one, r := AddressesCame(renewed, running), RefreshDone(t, me, renewed, running);
    AddressesRecord(t, me, renewed, running);
    AddressesKeep(t, me, renewed, running);
    if t.record.Some? { ReaddressedStarts(t, me, renewed, running); }
    hide RefreshDone, Steps.Readdressed;
    SameWork(t, me, one, slot, r);
    SameRest(t, me, one, r);
    hide RecordMoves, WorkMoves, RestMoves, Start;
    if t.record.Some? { StartHands(t, me, one, Steps.Readdressed(t, renewed)); } else { SameHanded(t, me, one, r); }
    hide HandedMoves;
  }

  lemma ReaddressedStarts(t: Transfer, me: Option<Account>, renewed: set<int>, running: set<Desc>)
    requires t.op.Some? && t.op.value.RefreshOp? && t.record.Some?
    ensures RefreshDone(t, me, renewed, running) == Start(Steps.Readdressed(t, renewed), me, running) && Steps.Readdressed(t, renewed).handed == t.handed
  {
    hide Start, Server.Replaced;
  }

  lemma AddressesKeep(t: Transfer, me: Option<Account>, renewed: set<int>, running: set<Desc>)
    requires t.op.Some? && t.op.value.RefreshOp?
    ensures var r := RefreshDone(t, me, renewed, running);
            && r.folder == t.folder && r.jobs == t.jobs && r.sealing == t.sealing && r.cancels == t.cancels && r.op.None?
            && r.server.asked == t.server.asked && r.server.completed == t.server.completed && r.server.begun == t.server.begun
            && (t.record.None? ==> r.record.None? && r.handed == t.handed)
  {
    hide Pieces;
  }

  lemma AddressesRecord(t: Transfer, me: Option<Account>, renewed: set<int>, running: set<Desc>)
    requires t.op.Some? && t.op.value.RefreshOp?
    ensures RecordMoves(t, AddressesCame(renewed, running), RefreshDone(t, me, renewed, running))
  {
    hide Pieces, Server.Replaced;
  }

  lemma CompletionCameMoves(t: Transfer, me: Option<Account>, slot: bool)
    requires t.op.Some? && t.op.value.FinishOp?
    ensures Moves(t, me, CompletionCame, slot, FinishDone(t))
  {
    var one, r := CompletionCame, FinishDone(t);
    SameWork(t, me, one, slot, r);
    SameHanded(t, me, one, r);
    hide WorkMoves, HandedMoves;
  }

  lemma AssembledMoves(t: Transfer, me: Option<Account>, slot: bool)
    requires t.op == Some(AssembleOp)
    ensures Moves(t, me, Assembled, slot, AssembleDone(t))
  {
    var one, r := Assembled, AssembleDone(t);
    SameWork(t, me, one, slot, r);
    SameHanded(t, me, one, r);
    hide WorkMoves, HandedMoves;
  }

  lemma PassFailedMoves(t: Transfer, me: Option<Account>, slot: bool, passes: bool)
    requires t.op.Some?
    ensures Moves(t, me, PassFailed(passes), slot, OpFailed(t, me, passes))
  {
    var one, r := PassFailed(passes), OpFailed(t, me, passes);
    SameWork(t, me, one, slot, r);
    SameHanded(t, me, one, r);
    PassFailedRecord(t, me, slot, passes);
    PassFailedRest(t, me, slot, passes);
    hide RecordMoves, RestMoves, WorkMoves, HandedMoves;
  }

  lemma PassFailedRecord(t: Transfer, me: Option<Account>, slot: bool, passes: bool)
    requires t.op.Some?
    ensures RecordMoves(t, PassFailed(passes), OpFailed(t, me, passes))
  {
  }

  lemma PassFailedRest(t: Transfer, me: Option<Account>, slot: bool, passes: bool)
    requires t.op.Some?
    ensures RestMoves(t, me, PassFailed(passes), OpFailed(t, me, passes))
  {
  }

  lemma JobWorkedMoves(t: Transfer, me: Option<Account>, slot: bool, j: JobId, work: Work)
    requires j in t.jobs
    ensures Moves(t, me, JobWorked(j, work), slot, WorkDone(t, j, work))
  {
    var one, r := JobWorked(j, work), WorkDone(t, j, work);
    SameRecord(t, one, r);
    SameHanded(t, me, one, r);
    WorkedRest(t, me, j, work);
    JobWorkedWork(t, me, slot, j, work);
    hide RecordMoves, RestMoves, WorkMoves, HandedMoves;
  }

  lemma JobWorkedWork(t: Transfer, me: Option<Account>, slot: bool, j: JobId, work: Work)
    requires j in t.jobs
    ensures WorkMoves(t, me, JobWorked(j, work), slot, WorkDone(t, j, work))
  {
    var one, r := JobWorked(j, work), WorkDone(t, j, work);
    WorkedIs(t, j, work);
    hide WorkDone, Ended;
    NoJobBegins(t, me, one, slot);
    hide BeginsJob, WaitsFor;
    forall k ensures JobNow(t, me, one, slot, k) == if k in r.jobs then Some(r.jobs[k]) else None {}
    CancelsStay(t, one);
    hide CancelNow, JobNow;
  }

  lemma WorkedIs(t: Transfer, j: JobId, work: Work)
    requires j in t.jobs
    ensures var r := WorkDone(t, j, work); r.jobs == t.jobs[j := Ended(t.jobs[j], work)] && r.sealing == t.sealing && r.cancels == t.cancels
  {
  }

  lemma WorkedRest(t: Transfer, me: Option<Account>, j: JobId, work: Work)
    requires j in t.jobs
    ensures RestMoves(t, me, JobWorked(j, work), WorkDone(t, j, work))
  {
    WorkedFolder(t, me, j, work);
    hide FolderNow;
  }

  lemma WorkedFolder(t: Transfer, me: Option<Account>, j: JobId, work: Work)
    requires j in t.jobs
    ensures WorkDone(t, j, work).folder == FolderNow(t, me, JobWorked(j, work))
  {
  }


  // A family's work applied.

  lemma JobCameMoves(t: Transfer, me: Option<Account>, slot: bool, j: JobId)
    requires j in t.jobs && t.jobs[j].outcome.Some?
    ensures Moves(t, me, JobCame(j), slot, JobDone(t, me, j))
  {
    hide RecordMoves, RestMoves, WorkMoves, HandedMoves;
    JobCameRecord(t, me, j);
    JobCameRest(t, me, j);
    JobCameWork(t, me, slot, j);
    JobCameHanded(t, me, j);
  }

  lemma JobCameRecord(t: Transfer, me: Option<Account>, j: JobId)
    requires j in t.jobs && t.jobs[j].outcome.Some?
    ensures RecordMoves(t, JobCame(j), JobDone(t, me, j))
  {
    hide Server.Replaced, Pieces;
  }

  lemma JobCameRest(t: Transfer, me: Option<Account>, j: JobId)
    requires j in t.jobs && t.jobs[j].outcome.Some?
    ensures RestMoves(t, me, JobCame(j), JobDone(t, me, j))
  {
    if Applies(t, JobCame(j)) { AppliedRest(t, me, j); } else { hide Apply; }
  }

  lemma AppliedRest(t: Transfer, me: Option<Account>, j: JobId)
    requires j in t.jobs && t.jobs[j].outcome.Some? && Applies(t, JobCame(j))
    ensures RestMoves(t, me, JobCame(j), JobDone(t, me, j))
  {
    var job, one := t.jobs[j], JobCame(j);
    var s := t.(jobs := t.jobs - {j}, sealing := None);
    assert JobDone(t, me, j) == Apply(s, me, job.outcome.value, job.sealed, job.etags) by { hide Apply; }
    AppliedIs(s, me, job.outcome.value, job.sealed, job.etags);
    hide Apply, JobDone;
  }

  /** What a family's step makes of its files and of what is asked of the server. */
  lemma AppliedIs(t: Transfer, me: Option<Account>, step: Step, sealed: Option<Sealed>, etags: map<int, Etag>)
    requires t.record.Some?
    ensures var r := Apply(t, me, step, sealed, etags);
            && r.folder == (if step == Landed || (step == Refused(false) && !t.folder.content) then Folder(false, false, {}, {}, false)
                            else if step == Refused(false) then Folder(true, true, {}, {}, false) else t.folder)
            && r.server.asked == t.server.asked + (if step == Refused(false) && me.Some? && t.record.value.owner == me then Its(sealed) else {})
            && r.server.completed == t.server.completed && r.server.begun == t.server.begun
  {
    hide Pieces;
  }

  lemma JobCameWork(t: Transfer, me: Option<Account>, slot: bool, j: JobId)
    requires j in t.jobs && t.jobs[j].outcome.Some?
    ensures WorkMoves(t, me, JobCame(j), slot, JobDone(t, me, j))
  {
    var one, r := JobCame(j), JobDone(t, me, j);
    JobCameFrees(t, me, j);
    hide JobDone;
    NoJobBegins(t, me, one, slot);
    hide BeginsJob, WaitsFor;
    forall k ensures JobNow(t, me, one, slot, k) == if k in t.jobs && k != j then Some(t.jobs[k]) else None {}
    forall c ensures CancelNow(t, one, c) == if c in t.cancels then Some(t.cancels[c]) else None {}
    hide JobNow, CancelNow;
  }

  lemma JobCameFrees(t: Transfer, me: Option<Account>, j: JobId)
    requires j in t.jobs && t.jobs[j].outcome.Some?
    ensures var r := JobDone(t, me, j); r.jobs == t.jobs - {j} && r.sealing.None? && r.cancels == t.cancels && r.op == t.op
  {
    var job, s := t.jobs[j], t.(jobs := t.jobs - {j}, sealing := None);
    if t.record.Some? { AppliedKeeps(s, me, job.outcome.value, job.sealed, job.etags); }
    hide Apply;
  }

  lemma AppliedKeeps(t: Transfer, me: Option<Account>, step: Step, sealed: Option<Sealed>, etags: map<int, Etag>)
    requires t.record.Some?
    ensures var r := Apply(t, me, step, sealed, etags); r.jobs == t.jobs && r.sealing == t.sealing && r.cancels == t.cancels && r.op == t.op
  {
    hide Pieces, Server.Replaced, Server.Forgot;
  }

  lemma JobCameHanded(t: Transfer, me: Option<Account>, j: JobId)
    requires j in t.jobs && t.jobs[j].outcome.Some?
    ensures HandedMoves(t, me, JobCame(j), JobDone(t, me, j))
  {
    var one, r := JobCame(j), JobDone(t, me, j);
    if Says(t, one, Send) {
      Steps.JobDoneIs(t, me, j);
      AppliedHanded(t, me, j);
      hide JobDone, Start, HandedMoves, Steps.Applied;
      StartHands(t, me, one, Steps.Applied(t, me, j));
    } else {
      assert r.handed == t.handed by { hide Pieces, Server.Replaced; }
      SameHanded(t, me, one, r);
    }
  }

  lemma AppliedHanded(t: Transfer, me: Option<Account>, j: JobId)
    requires j in t.jobs && t.record.Some? && t.jobs[j].outcome.Some?
    ensures Steps.Applied(t, me, j).handed == t.handed
  {
    hide Server.Replaced, Server.Forgot;
  }

  // A callback.

  /** What a callback hands the step. */
  function Heard(t: Transfer, me: Option<Account>, task: Task, status: int, ok: bool, fetched: bool): (r: Transfer)
    requires ok ==> task.desc.upload.Some?
  {
    Finished(t, me, task.desc, status, if ok then Some(Etag(task.desc.upload.value, task.desc.piece + 1)) else None, fetched)
  }

  /** A piece that missed, before it is asked whether all have landed. */
  lemma MissedIs(t: Transfer, me: Option<Account>, task: Task, status: int, ok: bool, fetched: bool)
    requires (ok ==> task.desc.upload.Some?) && t.record.Some? && Misses(t.record.value, TaskEnded(task, status, ok, fetched))
    ensures Heard(t, me, task, status, ok, fetched) == Arrive(RetryPiece(t, me, PieceOf(t.record.value, TaskEnded(task, status, ok, fetched)), status))
  {
    hide RetryPiece, Arrive;
  }

  /** What a miss makes of the record, its files and what is asked of the server. */
  lemma RetryIs(t: Transfer, me: Option<Account>, piece: int, status: int)
    requires t.record.Some?
    ensures var rec, r := t.record.value, RetryPiece(t, me, piece, status);
            var final := status != 403 && rec.failures >= 30 && !Retryable(status);
            && r == t.(record := r.record, folder := r.folder, server := r.server, handed := r.handed)
            && r.record == Some(
                 if status == 403 then rec.(expired := rec.expired + {piece})
                 else if final then rec.(state := Failed, failures := rec.failures + 1)
                 else rec.(failures := rec.failures + if rec.failures >= 30 then 2 else 1))
            && r.folder == (if !final then t.folder else if t.folder.content then Folder(true, true, {}, {}, false) else Folder(false, false, {}, {}, false))
            && r.server.asked == t.server.asked + (if final && me.Some? && rec.owner == me then Its(rec.sealed) else {})
            && r.server.completed == t.server.completed && r.server.begun == t.server.begun
            && (status == 403 || rec.failures >= 30 ==> r.handed == t.handed)
            && (status != 403 && rec.failures < 30 ==> r == Start(t.(record := Some(rec.(failures := rec.failures + 1))), me, {}))
  {
    hide Pieces;
  }

  /** And what asking whether all landed adds. */
  lemma ArriveIs(t: Transfer)
    requires t.record.Some?
    ensures var rec := t.record.value;
            var all := rec.state == Sending && PartsTotal(rec) == if rec.kind == Upload then |rec.etags| else |rec.fetched|;
            Arrive(t) == t.(record := Some(if all then rec.(state := Finishing) else rec))
  {
  }

  lemma TaskEndedMoves(t: Transfer, me: Option<Account>, slot: bool, task: Task, status: int, ok: bool, fetched: bool)
    requires ok ==> task.desc.upload.Some?
    ensures Moves(t, me, TaskEnded(task, status, ok, fetched), slot, Heard(t, me, task, status, ok, fetched))
  {
    var one := TaskEnded(task, status, ok, fetched);
    if t.record.None? || !Hears(t.record.value, task) {
      Unheard(t, me, slot, task, status, ok, fetched);
    } else if Misses(t.record.value, one) {
      hide Heard, Moves;
      MissedMoves(t, me, slot, task, status, ok, fetched);
    } else {
      hide Heard, Moves;
      ArrivedMoves(t, me, slot, task, status, ok, fetched);
    }
  }

  lemma Unheard(t: Transfer, me: Option<Account>, slot: bool, task: Task, status: int, ok: bool, fetched: bool)
    requires (ok ==> task.desc.upload.Some?) && (t.record.None? || !Hears(t.record.value, task))
    ensures Moves(t, me, TaskEnded(task, status, ok, fetched), slot, Heard(t, me, task, status, ok, fetched))
  {
    var one, r := TaskEnded(task, status, ok, fetched), Heard(t, me, task, status, ok, fetched);
    assert r == t;
    SameWork(t, me, one, slot, r);
    SameHanded(t, me, one, r);
    hide WorkMoves, HandedMoves, Heard;
  }

  lemma MissedMoves(t: Transfer, me: Option<Account>, slot: bool, task: Task, status: int, ok: bool, fetched: bool)
    requires (ok ==> task.desc.upload.Some?) && t.record.Some? && Misses(t.record.value, TaskEnded(task, status, ok, fetched))
    ensures Moves(t, me, TaskEnded(task, status, ok, fetched), slot, Heard(t, me, task, status, ok, fetched))
  {
    var one, r := TaskEnded(task, status, ok, fetched), Heard(t, me, task, status, ok, fetched);
    var s := RetryPiece(t, me, PieceOf(t.record.value, one), status);
    MissedIs(t, me, task, status, ok, fetched);
    RetryIs(t, me, PieceOf(t.record.value, one), status);
    ArriveIs(s);
    hide Heard, RetryPiece, Arrive;
    MissedRecord(t, one, r);
    MissedRest(t, me, one, r);
    hide RecordMoves, RestMoves;
    SameWork(t, me, one, slot, r);
    MissedHands(t, me, one, r);
    hide WorkMoves, HandedMoves, Start;
  }

  lemma MissedRecord(t: Transfer, one: One, r: Transfer)
    requires (one.TaskEnded? && one.ok ==> one.task.desc.upload.Some?) && t.record.Some? && Misses(t.record.value, one)
    requires var rec := t.record.value;
             var final := one.status != 403 && rec.failures >= 30 && !Retryable(one.status);
             var missed := if one.status == 403 then rec.(expired := rec.expired + {PieceOf(rec, one)})
                           else if final then rec.(state := Failed, failures := rec.failures + 1)
                           else rec.(failures := rec.failures + if rec.failures >= 30 then 2 else 1);
             var all := missed.state == Sending && PartsTotal(missed) == if missed.kind == Upload then |missed.etags| else |missed.fetched|;
             r.record == Some(if all then missed.(state := Finishing) else missed)
    ensures RecordMoves(t, one, r)
  {
  }

  lemma MissedRest(t: Transfer, me: Option<Account>, one: One, r: Transfer)
    requires t.record.Some? && Misses(t.record.value, one)
    requires var rec := t.record.value;
             var final := one.status != 403 && rec.failures >= 30 && !Retryable(one.status);
             && r.folder == (if !final then t.folder else if t.folder.content then Folder(true, true, {}, {}, false) else Folder(false, false, {}, {}, false))
             && r.server.asked == t.server.asked + (if final && me.Some? && rec.owner == me then Its(rec.sealed) else {})
             && r.server.completed == t.server.completed && r.server.begun == t.server.begun
    ensures RestMoves(t, me, one, r)
  {
  }

  lemma MissedHands(t: Transfer, me: Option<Account>, one: One, r: Transfer)
    requires t.record.Some? && Misses(t.record.value, one) && r.record.Some?
    requires var rec := t.record.value;
             && (one.status == 403 || rec.failures >= 30 ==> r.handed == t.handed)
             && (one.status != 403 && rec.failures < 30 ==>
                   var s := Start(t.(record := Some(rec.(failures := rec.failures + 1))), me, {});
                   r.handed == s.handed && r.record.value == s.record.value.(state := r.record.value.state))
    ensures HandedMoves(t, me, one, r)
  {
    var rec := t.record.value;
    if one.status != 403 && rec.failures < 30 {
      var s := t.(record := Some(rec.(failures := rec.failures + 1)));
      StartHands(t, me, one, s);
      var started := Start(s, me, {});
      forall task ensures Hands(t, me, one, r, task) <==> Hands(t, me, one, started, task) { hide HandsOver; }
      hide Hands, Start, HandsOver;
    } else {
      SameHanded(t, me, one, r);
    }
  }

  lemma ArrivedMoves(t: Transfer, me: Option<Account>, slot: bool, task: Task, status: int, ok: bool, fetched: bool)
    requires (ok ==> task.desc.upload.Some?) && t.record.Some? && Arrives(t.record.value, TaskEnded(task, status, ok, fetched))
    ensures Moves(t, me, TaskEnded(task, status, ok, fetched), slot, Heard(t, me, task, status, ok, fetched))
  {
    var one, r := TaskEnded(task, status, ok, fetched), Heard(t, me, task, status, ok, fetched);
    ArrivedIs(t, me, task, status, ok, fetched);
    hide Heard;
    ArrivedRecord(t, one, r);
    ArrivedRest(t, me, one, r);
    hide RecordMoves, RestMoves;
    SameWork(t, me, one, slot, r);
    SameHanded(t, me, one, r);
    hide WorkMoves, HandedMoves;
  }

  /** A piece that landed joins, and it is asked whether all have. */
  lemma ArrivedIs(t: Transfer, me: Option<Account>, task: Task, status: int, ok: bool, fetched: bool)
    requires (ok ==> task.desc.upload.Some?) && t.record.Some? && Arrives(t.record.value, TaskEnded(task, status, ok, fetched))
    ensures var one, r := TaskEnded(task, status, ok, fetched), Heard(t, me, task, status, ok, fetched);
            var rec := t.record.value;
            var landed := rec.(etags := EtagsNow(t, one), fetched := FetchedNow(t, one), failures := 0);
            var all := rec.state == Sending && PartsTotal(rec) == if rec.kind == Upload then |landed.etags| else |landed.fetched|;
            && r == t.(record := r.record, folder := r.folder)
            && r.record == Some(if all then landed.(state := Finishing) else landed)
            && r.folder == if rec.kind == Upload then t.folder.(parts := t.folder.parts - {task.desc.piece + 1})
                           else t.folder.(chunks := t.folder.chunks + {task.desc.piece})
  {
    var one, rec := TaskEnded(task, status, ok, fetched), t.record.value;
    var landed := rec.(etags := EtagsNow(t, one), fetched := FetchedNow(t, one), failures := 0);
    var folder := if rec.kind == Upload then t.folder.(parts := t.folder.parts - {task.desc.piece + 1})
                  else t.folder.(chunks := t.folder.chunks + {task.desc.piece});
    LandedIs(t, me, task, status, ok, fetched);
    hide Heard, Arrive, EtagsNow, FetchedNow;
    ArriveIs(t.(record := Some(landed), folder := folder));
  }

  lemma LandedIs(t: Transfer, me: Option<Account>, task: Task, status: int, ok: bool, fetched: bool)
    requires (ok ==> task.desc.upload.Some?) && t.record.Some? && Arrives(t.record.value, TaskEnded(task, status, ok, fetched))
    ensures var one, rec := TaskEnded(task, status, ok, fetched), t.record.value;
            Heard(t, me, task, status, ok, fetched) ==
              Arrive(t.(record := Some(rec.(etags := EtagsNow(t, one), fetched := FetchedNow(t, one), failures := 0)),
                        folder := if rec.kind == Upload then t.folder.(parts := t.folder.parts - {task.desc.piece + 1})
                                  else t.folder.(chunks := t.folder.chunks + {task.desc.piece})))
  {
    hide Arrive, RetryPiece;
  }

  lemma ArrivedRecord(t: Transfer, one: One, r: Transfer)
    requires (one.TaskEnded? && one.ok ==> one.task.desc.upload.Some?) && t.record.Some? && Arrives(t.record.value, one)
    requires var rec := t.record.value;
             var landed := rec.(etags := EtagsNow(t, one), fetched := FetchedNow(t, one), failures := 0);
             var all := rec.state == Sending && PartsTotal(rec) == if rec.kind == Upload then |landed.etags| else |landed.fetched|;
             r.record == Some(if all then landed.(state := Finishing) else landed)
    ensures RecordMoves(t, one, r)
  {
    hide EtagsNow, FetchedNow;
  }

  lemma ArrivedRest(t: Transfer, me: Option<Account>, one: One, r: Transfer)
    requires t.record.Some? && Arrives(t.record.value, one) && r.server == t.server
    requires r.folder == if t.record.value.kind == Upload then t.folder.(parts := t.folder.parts - {one.task.desc.piece + 1})
                         else t.folder.(chunks := t.folder.chunks + {one.task.desc.piece})
    ensures RestMoves(t, me, one, r)
  {
  }

  // A turn.

  lemma TurnMoves(t: Transfer, me: Option<Account>, slot: bool, job: JobId, online: bool, families: bool, running: set<Desc>)
    requires job !in t.jobs
    ensures Moves(t, me, Turn(job, online, families, running), slot, Visit(t, me, job, online, families, slot, running))
  {
    var one, r := Turn(job, online, families, running), Visit(t, me, job, online, families, slot, running);
    TurnKeeps(t, me, slot, job, online, families, running);
    hide Visit;
    SameRecord(t, one, r);
    SameRest(t, me, one, r);
    TurnWork(t, me, slot, job, online, families, running);
    TurnHanded(t, me, slot, job, online, families, running);
    hide RecordMoves, RestMoves, WorkMoves, HandedMoves;
  }

  lemma TurnKeeps(t: Transfer, me: Option<Account>, slot: bool, job: JobId, online: bool, families: bool, running: set<Desc>)
    ensures var r := Visit(t, me, job, online, families, slot, running); r.record == t.record && r.folder == t.folder && r.server == t.server
  {
    hide Pieces;
  }

  lemma TurnWork(t: Transfer, me: Option<Account>, slot: bool, job: JobId, online: bool, families: bool, running: set<Desc>)
    requires job !in t.jobs
    ensures WorkMoves(t, me, Turn(job, online, families, running), slot, Visit(t, me, job, online, families, slot, running))
  {
    var one, r := Turn(job, online, families, running), Visit(t, me, job, online, families, slot, running);
    TurnOp(t, me, slot, job, online, families, running);
    TurnJobs(t, me, slot, job, online, families, running);
    hide Visit, WaitsFor;
    forall j ensures JobNow(t, me, one, slot, j) == if BeginsJob(t, me, one, slot) && j == job then Some(r.jobs[job]) else if j in t.jobs then Some(t.jobs[j]) else None {}
    forall c ensures CancelNow(t, one, c) == if c in t.cancels then Some(t.cancels[c]) else None {}
    hide JobNow, CancelNow, BeginsJob;
  }

  lemma TurnOp(t: Transfer, me: Option<Account>, slot: bool, job: JobId, online: bool, families: bool, running: set<Desc>)
    ensures Visit(t, me, job, online, families, slot, running).op == WaitsFor(t, me, Turn(job, online, families, running))
  {
    hide Start, BeginJob;
  }

  lemma TurnJobs(t: Transfer, me: Option<Account>, slot: bool, job: JobId, online: bool, families: bool, running: set<Desc>)
    ensures var r := Visit(t, me, job, online, families, slot, running);
            && r.cancels == t.cancels
            && if BeginsJob(t, me, Turn(job, online, families, running), slot)
               then r.sealing == Some(job) && r.jobs == t.jobs[job := Job(t.record.value.state == Finishing, false, t.record.value.sealed, t.record.value.etags, None, false)]
               else r.sealing == t.sealing && r.jobs == t.jobs
  {
    hide Start;
  }

  lemma TurnHanded(t: Transfer, me: Option<Account>, slot: bool, job: JobId, online: bool, families: bool, running: set<Desc>)
    ensures HandedMoves(t, me, Turn(job, online, families, running), Visit(t, me, job, online, families, slot, running))
  {
    var one, r := Turn(job, online, families, running), Visit(t, me, job, online, families, slot, running);
    if HandsOver(t, one) {
      assert r == Start(t, me, running) by { hide Pieces; }
      hide Visit;
      StartHands(t, me, one, t);
    } else {
      assert r.handed == t.handed by { hide Start; }
      SameHanded(t, me, one, r);
    }
  }

  // -- Every step ---------------------------------------------------------------------------------------------------------------

  lemma AskedMoves(q: Queue, id: Id, one: One, slot: bool)
    requires id in q.transfers && Possible(q, id, one) && !InPass(one)
    requires !one.Landings? && !one.Turn? && !one.JobWorked? && !one.JobCame? && !one.TaskEnded?
    ensures Moves(q.transfers[id], q.signedIn, one, slot, Do(q, id, one))
  {
    var t, me := q.transfers[id], q.signedIn;
    hide Moves, CancelBegin, CancelDiscard, CancelEnd, Retry, Dismiss, TakeNote, Release, FolderGone, FinishedByExtension;
    match one
    case CancelAsked(c) => CancelAskedMoves(t, me, slot, c);
    case CancelListed(c, families) => CancelListedMoves(t, me, slot, c, families);
    case CancelLast(c) => CancelLastMoves(t, me, slot, c);
    case RetryAsked => RetryAskedMoves(t, me, slot);
    case Dismissed => DismissedMoves(t, me, slot);
    case NoteTaken => NoteTakenMoves(t, me, slot);
    case NoteReleased => NoteReleasedMoves(t, me, slot);
    case NoteDropped => NoteDroppedMoves(t, me, slot);
    case Swept => SweptMoves(t, me, slot);
    case ExtensionFinished => ExtensionFinishedMoves(t, me, slot);
  }

  lemma AnswerMoves(q: Queue, id: Id, one: One, slot: bool)
    requires id in q.transfers && Possible(q, id, one) && InPass(one)
    ensures Moves(q.transfers[id], q.signedIn, one, slot, Do(q, id, one))
  {
    var t, me := q.transfers[id], q.signedIn;
    hide Moves, SealDone, PlanDone, RefreshDone, FinishDone, AssembleDone, OpFailed;
    match one
    case SealCame(sealed, kept) => SealCameMoves(t, me, slot, sealed, kept);
    case PlanCame(plan) => PlanCameMoves(t, me, slot, plan);
    case AddressesCame(renewed, running) => AddressesCameMoves(t, me, slot, renewed, running);
    case CompletionCame => CompletionCameMoves(t, me, slot);
    case Assembled => AssembledMoves(t, me, slot);
    case PassFailed(passes) => PassFailedMoves(t, me, slot, passes);
    case _ =>
  }

  lemma PassMoves(q: Queue, id: Id, one: One, slot: bool)
    requires id in q.transfers && Possible(q, id, one) && (one.Landings? || one.Turn?)
    requires slot <==> |Sealing(q)| < SEALING_AT_ONCE
    ensures Moves(q.transfers[id], q.signedIn, one, slot, Do(q, id, one))
  {
    var t, me := q.transfers[id], q.signedIn;
    hide Moves, TakeLanded, Visit, FreshUpload, Sealing;
    match one
    case Landings(landed) => LandingsMoves(t, me, slot, landed);
    case Turn(job, online, families, running) => TurnMoves(t, me, slot, job, online, families, running);
  }

  lemma CallMoves(q: Queue, id: Id, one: One, slot: bool)
    requires id in q.transfers && Possible(q, id, one) && one.TaskEnded?
    ensures Moves(q.transfers[id], q.signedIn, one, slot, Do(q, id, one))
  {
    var t, me := q.transfers[id], q.signedIn;
    hide Moves, Finished;
    assert Do(q, id, one) == Heard(t, me, one.task, one.status, one.ok, one.fetched);
    TaskEndedMoves(t, me, slot, one.task, one.status, one.ok, one.fetched);
    hide Do, Possible;
  }

  lemma JobMoves(q: Queue, id: Id, one: One, slot: bool)
    requires id in q.transfers && Possible(q, id, one) && (one.JobWorked? || one.JobCame?)
    ensures Moves(q.transfers[id], q.signedIn, one, slot, Do(q, id, one))
  {
    var t, me := q.transfers[id], q.signedIn;
    hide Moves, WorkDone, JobDone, FreshUpload, WorkPossible;
    match one
    case JobWorked(j, work) => JobWorkedMoves(t, me, slot, j, work);
    case JobCame(j) => JobCameMoves(t, me, slot, j);
  }

  /** A place among the seals is free: fewer than two transfers hold one. */
  predicate PlaceFree(q: Queue) {
    |set id | id in q.transfers && q.transfers[id].sealing.Some?| < 2
  }

  /**
   Every step of a transfer: its record, its files, what is asked of the server, the work under way and the tasks handed
   over are as the rules above say from the event and the transfer as it was.
   */
  lemma EveryStepMovesSo(q: Queue, id: Id, one: One)
    requires id in q.transfers && Possible(q, id, one)
    ensures Moves(q.transfers[id], q.signedIn, one, PlaceFree(q), Do(q, id, one))
  {
    assert (set other | other in q.transfers && q.transfers[other].sealing.Some?) == Sealing(q);
    hide Moves, Possible, Do;
    if InPass(one) { AnswerMoves(q, id, one, PlaceFree(q)); }
    else if one.Landings? || one.Turn? { PassMoves(q, id, one, PlaceFree(q)); }
    else if one.JobWorked? || one.JobCame? { JobMoves(q, id, one, PlaceFree(q)); }
    else if one.TaskEnded? { CallMoves(q, id, one, PlaceFree(q)); }
    else { AskedMoves(q, id, one, PlaceFree(q)); }
  }

  // -- What a failure does ---------------------------------------------------------------------------------------------------------

  lemma StepMoves(trace: seq<Queue>, events: seq<Event>, i: nat, id: Id, one: One)
    requires Run(trace, events) && i < |events| && events[i] == Stepped(id, one)
    ensures id in trace[i].transfers && id in trace[i + 1].transfers && Possible(trace[i], id, one)
    ensures Moves(trace[i].transfers[id], trace[i].signedIn, one, PlaceFree(trace[i]), trace[i + 1].transfers[id])
  {
    hide Moves, Possible, Do, Enabled, Next, PlaceFree;
    StepOf(trace, events, i);
    StepIs(trace[i], events[i]);
    SteppedAs(trace[i], id, one);
    EveryStepMovesSo(trace[i], id, one);
    hide Run;
  }

  /**
   A failure that passes leaves the record where it was, with its files, and asks nothing of the server: it only counts.
   A job brings back the upload it worked on; a record that was sending its last piece may be found complete.
   */
  lemma APassingFailureOnlyCounts(trace: seq<Queue>, events: seq<Event>, i: nat, id: Id, one: One)
    requires Run(trace, events) && i < |events| && events[i] == Stepped(id, one)
    requires id in trace[i].transfers && trace[i].transfers[id].record.Some? && Passing(trace[i].transfers[id], one)
    ensures id in trace[i + 1].transfers && trace[i + 1].transfers[id].record.Some?
    ensures var t, r := trace[i].transfers[id], trace[i + 1].transfers[id];
            var rec, now := t.record.value, r.record.value;
            && r.folder == t.folder && r.server.asked == t.server.asked && now.failures > rec.failures
            && (now.state == rec.state || (one.TaskEnded? && rec.state == Sending && now.state == Finishing))
            && now == rec.(state := now.state, failures := now.failures,
                           sealed := if one.JobCame? then t.jobs[one.j].sealed else rec.sealed, etags := if one.JobCame? then t.jobs[one.j].etags else rec.etags)
  {
    StepMoves(trace, events, i, id, one);
    MovesInParts(trace[i].transfers[id], trace[i].signedIn, one, PlaceFree(trace[i]), trace[i + 1].transfers[id]);
    hide Run, Moves, RecordMoves, RestMoves, Possible;
    PassingRecord(trace[i].transfers[id], one, trace[i + 1].transfers[id]);
    PassingRest(trace[i].transfers[id], trace[i].signedIn, one, trace[i + 1].transfers[id]);
  }

  lemma MovesInParts(t: Transfer, me: Option<Account>, one: One, slot: bool, r: Transfer)
    requires (one.TaskEnded? && one.ok ==> one.task.desc.upload.Some?) && Moves(t, me, one, slot, r)
    ensures RecordMoves(t, one, r) && RestMoves(t, me, one, r)
  {
    hide RecordMoves, RestMoves, WorkMoves, HandedMoves;
  }

  lemma PassingRecord(t: Transfer, one: One, r: Transfer)
    requires (one.TaskEnded? && one.ok ==> one.task.desc.upload.Some?) && RecordMoves(t, one, r) && t.record.Some? && Passing(t, one)
    ensures r.record.Some?
    ensures var rec, now := t.record.value, r.record.value;
            && now.failures > rec.failures && (now.state == rec.state || (one.TaskEnded? && rec.state == Sending && now.state == Finishing))
            && now == rec.(state := now.state, failures := now.failures,
                           sealed := if one.JobCame? then t.jobs[one.j].sealed else rec.sealed, etags := if one.JobCame? then t.jobs[one.j].etags else rec.etags)
  {
  }

  lemma PassingRest(t: Transfer, me: Option<Account>, one: One, r: Transfer)
    requires RestMoves(t, me, one, r) && t.record.Some? && Passing(t, one)
    ensures r.folder == t.folder && r.server.asked == t.server.asked
  {
  }

  /** A final one fails the record: of its files only the plaintext stays, and its upload is aborted if its owner is signed in. */
  lemma AFinalFailureEndsIt(trace: seq<Queue>, events: seq<Event>, i: nat, id: Id, one: One)
    requires Run(trace, events) && i < |events| && events[i] == Stepped(id, one)
    requires id in trace[i].transfers && trace[i].transfers[id].record.Some? && Final(trace[i].transfers[id], one)
    ensures id in trace[i + 1].transfers && trace[i + 1].transfers[id].record.Some?
    ensures var t, r, me := trace[i].transfers[id], trace[i + 1].transfers[id], trace[i].signedIn;
            var upload := if one.JobCame? then t.jobs[one.j].sealed else t.record.value.sealed;
            && r.record.value.state == Failed && r.record.value.sealed == upload
            && r.folder == Folder(t.folder.content, t.folder.content, {}, {}, false)
            && r.server.asked == t.server.asked + if upload.Some? && me.Some? && t.record.value.owner == me then {upload.value.uploadId} else {}
  {
    StepMoves(trace, events, i, id, one);
    MovesInParts(trace[i].transfers[id], trace[i].signedIn, one, PlaceFree(trace[i]), trace[i + 1].transfers[id]);
    hide Run, Moves, Possible;
  }

  // -- What happens to the queue as a whole --------------------------------------------------------------------------------------------

  /** A file queued waits, for the account signed in; its plaintext is there if it could be copied. */
  lemma QueuedAsAWaitingRecord(q: Queue, e: Event)
    requires Enabled(q, e) && (e.UploadQueued? || e.KeepQueued?)
    ensures e.id in Next(q, e).transfers
    ensures var r := Next(q, e).transfers[e.id];
            && r.record == Some(Record(if e.UploadQueued? then Upload else Keep, Waiting, q.signedIn, if e.UploadQueued? then e.family else None,
                                       None, map[], None, {}, {}, 0))
            && r.folder.there == e.UploadQueued? && r.folder.content == (e.UploadQueued? && e.copied) && r.folder.parts == {} && r.folder.chunks == {} && !r.folder.note
            && r.server == Server(map[], {}, {}, map[]) && r.handed == {} && r.jobs == map[] && r.cancels == map[] && r.sealing.None? && r.op.None?
  {
  }

  /** A note adopted is sent on from what the extension saw land, and finished next if that is all. */
  lemma AdoptedAsTheNoteSays(q: Queue, e: Event)
    requires Enabled(q, e) && e.HandoffAdopted?
    ensures e.id in Next(q, e).transfers
    ensures var r := Next(q, e).transfers[e.id];
            && r.record == Some(Record(Upload, if |e.etags| == e.sealed.partCount then Finishing else Sending, q.signedIn, e.family, Some(e.sealed),
                                       e.etags, None, {}, {}, 0))
            && r.handoff == Some(Handed(e.sealed, q.signedIn, e.family))
            && (e.id !in q.transfers ==>
                  && r.folder == Folder(true, e.family.Some?, Span(1, e.sealed.partCount + 1), {}, true)
                  && r.server == Server(map[e.sealed.uploadId := e.sealed.partCount], {}, {}, map[])
                  && r.handed == set piece | piece in Span(0, e.sealed.partCount) :: Task(Desc(piece, Some(e.sealed.uploadId)), q.signedIn, q.signedIn))
            && (e.id in q.transfers ==> r == q.transfers[e.id].(record := r.record, past := r.past))
  {
  }

  /** A family that ended fails every active upload of it and stops its work; its files go, and nothing is asked of the server. */
  lemma AFamilyEndFailsItsUploads(q: Queue, g: Group, id: Id)
    requires id in q.transfers
    ensures id in Next(q, FamilyLeft(g)).transfers
    ensures var t, r := q.transfers[id], Next(q, FamilyLeft(g)).transfers[id];
            var ends := t.record.Some? && t.record.value.family == Some(g) && t.record.value.state in {Waiting, Sending, Finishing};
            && (!ends ==> r == t)
            && (ends ==>
                  && r.record == Some(t.record.value.(state := Failed, sealed := None, etags := map[])) && r.folder == Folder(false, false, {}, {}, false)
                  && r.sealing.None? && r.handed == t.handed && r.cancels == t.cancels && r.op == t.op
                  && r.jobs.Keys == t.jobs.Keys
                  && (forall j | j in t.jobs :: r.jobs[j] == if t.sealing == Some(j) then t.jobs[j].(cancelled := true) else t.jobs[j])
                  && r.server.asked == t.server.asked && r.server.completed == t.server.completed && r.server.begun == t.server.begun)
  {
    FamilyLeftAs(q, g);
  }

  /** A pass begins with an account signed in and no pass under way, and drops each record of another: with its files, and unasked. */
  lemma APassDropsOthers(q: Queue, id: Id)
    requires id in q.transfers
    ensures var r, begins := Next(q, PassBegun), q.pass.Idle? && q.signedIn.Some?;
            var t := q.transfers[id];
            var drops := begins && t.record.Some? && t.record.value.owner != q.signedIn;
            && r == q.(pass := r.pass, transfers := r.transfers) && r.pass == (if begins then Scanning else q.pass)
            && r.transfers.Keys == q.transfers.Keys && (!drops ==> r.transfers[id] == t)
            && (drops ==>
                  && r.transfers[id] == t.(record := None, folder := Folder(false, false, {}, {}, false), server := r.transfers[id].server)
                  && r.transfers[id].server.asked == t.server.asked && r.transfers[id].server.completed == t.server.completed
                  && r.transfers[id].server.begun == t.server.begun)
  {
    hide Respects, Remembers;
  }

  /** Who is signed in, and whose data the phone holds. */
  lemma AccountsMoveSo(q: Queue, e: Event)
    requires Enabled(q, e)
    ensures var r := Next(q, e);
            var claims := e.Claimed? && !(q.holder.Some? && q.holder.value == e.who);
            && r.signedIn == (if e.SessionChanged? then e.account else if claims then None else q.signedIn)
            && r.holder == (if e.Claimed? || e.Recorded? then Some(e.who) else if e.Wiped? then None else q.holder)
  {
    hide Do, Possible, DropOther, EndFamily, Wipe, Returned, Adopted, NewUpload, NewKeep;
  }

  /** The account's data takes every folder, whole, and nothing else. */
  lemma AWipeTakesEveryFolder(q: Queue, e: Event, id: Id)
    requires TakesData(q, e) && id in q.transfers
    ensures id in Next(q, e).transfers
    ensures var t, r := q.transfers[id], Next(q, e).transfers[id];
            && r == t.(folder := Folder(false, false, {}, {}, false), past := t.past.(wiped := true))
            && (e.Claimed? ==> Next(q, e).signedIn.None? && Next(q, e).holder == Some(e.who)) && (e.Wiped? ==> Next(q, e).holder.None?)
  {
    WipedAs(q, e);
  }
}
