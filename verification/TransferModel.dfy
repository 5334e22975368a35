/**
 The background transfer queue of the iPhone app, one function per step between two suspensions.
 A `Transfer` is everything that belongs to one queued transfer: its record, its folder on disk, the family
 seals and cancels under way for it, and what was asked of the transfer session and of the server for it.
 Whatever the app does not decide (answers, callbacks, which account is signed in) is an argument of a step.
 */
module TransferModel {
  import opened Common

  type Id = nat
  type UploadId = nat
  type JobId = nat
  type Account = nat
  type Group = nat

  datatype Kind = Upload | Keep
  datatype State = Waiting | Sending | Finishing | Done | Failed

  /** An ETag, told apart by the server upload and the part it was returned for. */
  datatype Etag = Etag(upload: UploadId, part: int)

  /** What the server gave a sealed upload: its id, its part count, and which parts have an address. */
  datatype Sealed = Sealed(uploadId: UploadId, partCount: nat, urls: set<int>)

  /** A planned keep: its chunk count and the chunks whose byte range is known. */
  datatype Plan = Plan(chunkCount: nat, ranges: set<int>)

  datatype Record = Record(
    kind: Kind,
    state: State,
    owner: Option<Account>,
    family: Option<Group>,
    sealed: Option<Sealed>,
    etags: map<int, Etag>,
    plan: Option<Plan>,
    fetched: set<int>,
    expired: set<int>,
    failures: nat)
  {
    function Total(): (total: nat) {
      if sealed.Some? then sealed.value.partCount else if plan.Some? then plan.value.chunkCount else 0
    }

    function Landed(): (landed: nat) {
      if kind == Upload then |etags| else |fetched|
    }

    predicate Active() { state == Waiting || state == Sending || state == Finishing }

    function Named(): (upload: Option<UploadId>) {
      if sealed.Some? then Some(sealed.value.uploadId) else None
    }
  }

  /** A transfer's folder: the plaintext, the sealed parts, the fetched chunks, the share extension's note; `there` while it exists at all. */
  datatype Folder = Folder(there: bool, content: bool, parts: set<int>, chunks: set<int>, note: bool)
  const GONE := Folder(false, false, {}, {}, false)
  const ONLY_CONTENT := Folder(true, true, {}, {}, false)

  /** What a task's description says besides the transfer: the piece, and for an upload's part the server upload. */
  datatype Desc = Desc(piece: int, upload: Option<UploadId>)

  /** A task handed to the session, with its record's owner and the account signed in as it was made. */
  datatype Task = Task(desc: Desc, owner: Option<Account>, under: Option<Account>)

  /** What a family upload's step means for its row (FamilyUploadStep). */
  datatype Step = Send | Landed | Reseal | Again | Refused(passes: bool)

  /**
   A family upload being sealed or finished in a task of its own, on a copy of the record's upload. `outcome` is
   the step it ended with, once it has; `emptied` says that the work already removed the transfer's folder.
   */
  datatype Job = Job(
    finish: bool,
    cancelled: bool,
    sealed: Option<Sealed>,
    etags: map<int, Etag>,
    outcome: Option<Step>,
    emptied: bool)

  /** A cancel waiting for the session's task list, or for the server's abort, with the record as it was read. */
  datatype Cancel = Cancel(read: Record, discarded: bool)

  /** What the pass waits for. */
  datatype Op =
    | SealOp
    | PlanOp
    | RefreshOp(read: Record)
    | FinishOp(sealed: Sealed)
    | AssembleOp

  /** Why an upload the server began is neither held by the record nor aborted nor landed. */
  datatype Reason =
    | OtherAccount // its owner was not signed in when its record was cancelled, failed or dropped
    | FamilyEnded  // its account is no longer in the family
    | OwnSealGone  // an own-drive seal came back after its record had gone
    | Raced        // its record took another upload, or went, while a cancel was under way

  /** The server's uploads begun for a transfer, with their part counts, and what became of each. */
  datatype Server = Server(begun: map<UploadId, nat>, asked: set<UploadId>, completed: set<UploadId>, lost: map<UploadId, Reason>)
  {
    /** The upload was aborted under its own account, or landed, or is noted as lost. */
    predicate Settled(u: UploadId) {
      u in asked || u in completed || u in lost
    }

    function Begin(sealed: Sealed): (after: Server) {
      this.(begun := begun[sealed.uploadId := sealed.partCount])
    }

    function Aborted(sealed: Option<Sealed>): (s: Server)
      ensures s.begun == begun
    {
      if sealed.Some? then this.(asked := asked + {sealed.value.uploadId}) else this
    }

    function Completed(sealed: Option<Sealed>): (s: Server)
      ensures s.begun == begun
    {
      if sealed.Some? then this.(completed := completed + {sealed.value.uploadId}) else this
    }

    /** The upload `held` is no longer held: noted as lost unless it was aborted, landed or noted before. */
    function Forgot(held: Option<Sealed>, reason: Reason): (s: Server)
      ensures s.begun == begun
    {
      if held.None? || Settled(held.value.uploadId) then this else this.(lost := lost[held.value.uploadId := reason])
    }

    /** The record's upload `held` becomes `sealed`: when it is another, it is no longer held. */
    function Replaced(held: Option<Sealed>, sealed: Option<Sealed>): (s: Server)
      ensures s.begun == begun
    {
      if SameUpload(held, sealed) then this else Forgot(held, Raced)
    }
  }

  /** What the share extension handed over: the upload it sealed, for whom, and into which family's folder. */
  datatype Handed = Handed(sealed: Sealed, owner: Option<Account>, family: Option<Group>)

  /**
   What ever happened to a transfer: its file was copied into the queue (`copied`), a cancel was asked for (`cancelled`),
   its folder went with an account's data (`wiped`) or because the extension finished its upload itself (`ended`), its
   record came back (`returned`).
   */
  datatype Past = Past(copied: bool, cancelled: bool, wiped: bool, ended: bool, returned: bool)
  {
    /** Its folder went while it may still have been needed. */
    predicate Stripped() { wiped || ended }
  }

  const UNTOUCHED := Past(true, false, false, false, false)

  /** `handed` is every task ever handed over, `planned` the chunk count once planned. */
  datatype Transfer = Transfer(
    record: Option<Record>,
    folder: Folder,
    sealing: Option<JobId>,
    jobs: map<JobId, Job>,
    cancels: map<nat, Cancel>,
    op: Option<Op>,
    handed: set<Task>,
    server: Server,
    planned: Option<nat>,
    handoff: Option<Handed>,
    past: Past)

  const FAILURES := 30
  const SEALING_AT_ONCE := 2

  /**
   What every step respects: a transfer without a record stays without, and nothing more is handed over for it;
   whatever is handed over goes under the account signed in, to which the record belongs.
   */
  ghost predicate Respects(t: Transfer, r: Transfer, me: Option<Account>) {
    && (t.record.None? ==> r.record.None? && r.handed == t.handed)
    && t.handed <= r.handed
    && (forall task | task in r.handed && task !in t.handed :: me.Some? && task.owner == me && task.under == me)
    && (t.past.cancelled ==> r.past.cancelled)
  }

  /** But for a cancel, the step adds nothing to what ever happened. */
  ghost predicate Remembers(t: Transfer, r: Transfer) {
    r.handoff == t.handoff && r.past == t.past.(cancelled := r.past.cancelled)
  }

  // -- Small parts ----------------------------------------------------------------------------------------------

  /** TransferOwnership: a record runs only while its own account, `me`, is signed in. */
  predicate Runnable(owner: Option<Account>, me: Option<Account>) {
    me.Some? && owner == me
  }

  function Put(t: Transfer, rec: Record): (after: Transfer) {
    t.(record := Some(rec))
  }

  predicate SameUpload(a: Option<Sealed>, b: Option<Sealed>) {
    a.Some? && b.Some? && a.value.uploadId == b.value.uploadId
  }

  /** An abort asked of the server: it counts only under the account that began the upload. */
  function Abort(server: Server, rec: Record, me: Option<Account>): (after: Server) {
    if Runnable(rec.owner, me) then server.Aborted(rec.sealed) else server.Forgot(rec.sealed, OtherAccount)
  }

  // -- Handing pieces to the session ---------------------------------------------------------------------------

  predicate Wanting(rec: Record, piece: int) {
    if rec.sealed.Some? then piece + 1 !in rec.etags && piece + 1 !in rec.expired && piece + 1 in rec.sealed.value.urls
    else rec.plan.Some? && piece !in rec.fetched && piece !in rec.expired && piece in rec.plan.value.ranges
  }

  /** The pieces `start` hands over: not landed, not expired, addressed, and not with the session already. */
  function Pieces(rec: Record, running: set<Desc>): (pieces: set<int>) {
    set piece: int |
      && 0 <= piece < rec.Total()
      && Desc(piece, rec.Named()) !in running && Desc(piece, None) !in running
      && Wanting(rec, piece)
  }

  function Start(t: Transfer, me: Option<Account>, running: set<Desc>): (r: Transfer)
    ensures Respects(t, r, me) && Remembers(t, r) && r.server.begun == t.server.begun && r.op == t.op && r == t.(handed := r.handed)
  {
    if t.record.None? || !Runnable(t.record.value.owner, me) then t
    else
      var rec := t.record.value;
      t.(handed := t.handed + set piece | piece in Pieces(rec, running) :: Task(Desc(piece, rec.Named()), rec.owner, me))
  }

  // -- Ends ------------------------------------------------------------------------------------------------------

  /** `passes`: the failure is one that passes (no answer, a busy server, a 401 of a session no longer in use). */
  function Fail(t: Transfer, me: Option<Account>, passes: bool): (r: Transfer)
    ensures Respects(t, r, me) && Remembers(t, r) && r.server.begun == t.server.begun && r.op == t.op
  {
    if passes then
      if t.record.Some? then Put(t, t.record.value.(failures := t.record.value.failures + 1)) else t
    else
      var t1 :=
        if t.record.Some? then t.(record := Some(t.record.value.(state := Failed)), server := Abort(t.server, t.record.value, me)) else t;
      t1.(folder := if t1.folder.content then ONLY_CONTENT else GONE)
  }

  function Land(t: Transfer): (r: Transfer)
    ensures Respects(t, r, None) && Remembers(t, r) && r.server.begun == t.server.begun && r.op == t.op
  {
    t.(record := if t.record.Some? then Some(t.record.value.(state := Done)) else None, folder := GONE)
  }

  // -- Queueing ----------------------------------------------------------------------------------------------------

  const NOTHING := Transfer(None, GONE, None, map[], map[], None, {}, Server(map[], {}, {}, map[]), None, None, UNTOUCHED)

  /** `upload`: the file copied into the queue (`copied` is false when neither the move nor the copy worked). */
  function NewUpload(me: Option<Account>, family: Option<Group>, copied: bool): (t: Transfer) {
    NOTHING.(record := Some(Record(Upload, Waiting, me, family, None, map[], None, {}, {}, 0)),
             folder := Folder(true, copied, {}, {}, false), past := UNTOUCHED.(copied := copied))
  }

  function NewKeep(me: Option<Account>): (t: Transfer) {
    NOTHING.(record := Some(Record(Keep, Waiting, me, None, None, map[], None, {}, {}, 0)))
  }

  /** An upload the share extension sealed and started, adopted with the parts it saw land. */
  function Adopted(me: Option<Account>, family: Option<Group>, sealed: Sealed, etags: map<int, Etag>): (t: Transfer) {
    var state := if |etags| == sealed.partCount then Finishing else Sending;
    NOTHING.(
      record := Some(Record(Upload, state, me, family, Some(sealed), etags, None, {}, {}, 0)),
      folder := Folder(true, family.Some?, Span(1, sealed.partCount + 1), {}, true),
      server := NOTHING.server.Begin(sealed),
      handoff := Some(Handed(sealed, me, family)),
      handed := set piece | piece in Span(0, sealed.partCount) :: Task(Desc(piece, Some(sealed.uploadId)), me, me))
  }

  /** A note found once its record had gone: the record is back, as the note has it. */
  function Returned(t: Transfer, etags: map<int, Etag>): (r: Transfer)
    requires t.handoff.Some?
    ensures r.server == t.server && r.op == t.op && r.handed == t.handed && r.folder == t.folder && r.record.Some?
  {
    var note := t.handoff.value;
    var state := if |etags| == note.sealed.partCount then Finishing else Sending;
    t.(record := Some(Record(Upload, state, note.owner, note.family, Some(note.sealed), etags, None, {}, {}, 0)), past := t.past.(returned := true))
  }

  /** Its record is on disk: the note goes. */
  function TakeNote(t: Transfer): (r: Transfer)
    ensures Respects(t, r, None) && Remembers(t, r) && r.server.begun == t.server.begun && r.op == t.op
  {
    t.(folder := t.folder.(note := false))
  }

  /** The extension, still open, lets go of its note by writing it again, if its folder is still there. */
  function Release(t: Transfer): (r: Transfer)
    ensures Respects(t, r, None) && Remembers(t, r) && r.server.begun == t.server.begun && r.op == t.op
  {
    if t.folder.there then t.(folder := t.folder.(note := true)) else t
  }

  /** A note of another account, or a folder nothing owns: it goes. */
  function FolderGone(t: Transfer): (r: Transfer)
    ensures Respects(t, r, None) && Remembers(t, r) && r.server.begun == t.server.begun && r.op == t.op
  {
    t.(folder := GONE)
  }

  /** The extension saw every part of its upload land, and has it completed itself; its folder goes. */
  function FinishedByExtension(t: Transfer): (r: Transfer)
    ensures Respects(t, r, None) && r.server.begun == t.server.begun && r.op == t.op
  {
    if t.handoff.None? then t
    else t.(folder := GONE, past := t.past.(ended := true), server := t.server.Completed(Some(t.handoff.value.sealed)))
  }

  /** The account's data goes from the phone, every folder of the queue with it; what is in memory stays. */
  function Wipe(t: Transfer): (r: Transfer)
    ensures Respects(t, r, None) && r.server == t.server && r.op == t.op && r.record == t.record
  {
    t.(folder := GONE, past := t.past.(wiped := true))
  }

  // -- The pass ------------------------------------------------------------------------------------------------------

  /** Another account is signed in: the record and its folder go, without a word to the server. */
  function DropOther(t: Transfer, me: Option<Account>): (r: Transfer)
    ensures Respects(t, r, me) && Remembers(t, r) && r.server.begun == t.server.begun && r.op == t.op
  {
    if t.record.None? || me.None? || t.record.value.owner == me then t
    else t.(record := None, folder := GONE, server := t.server.Forgot(t.record.value.sealed, OtherAccount))
  }

  /** Parts the extension saw land after its upload was adopted; an ETag already recorded stays. */
  function TakeLanded(t: Transfer, landed: map<int, Etag>): (r: Transfer)
    ensures Respects(t, r, None) && Remembers(t, r) && r.server.begun == t.server.begun && r.op == t.op
  {
    if t.record.None? || t.record.value.kind != Upload || t.record.value.state != Sending
       || t.record.value.sealed.None? || landed == map[] then t
    else
      var taken := t.record.value.(etags := landed + t.record.value.etags);
      Put(t, if taken.Landed() == taken.Total() then taken.(state := Finishing) else taken)
  }

  /** One record's turn in a pass, as far as its first wait. `slot`: a family seal may start now. */
  function Visit(t: Transfer, me: Option<Account>, job: JobId, online: bool, families: bool, slot: bool, running: set<Desc>): (r: Transfer)
    ensures Respects(t, r, me) && Remembers(t, r) && r.server.begun == t.server.begun
  {
    if t.record.None? || !Runnable(t.record.value.owner, me) then t else
    var rec := t.record.value;
    match rec.state
    case Waiting =>
      if !online then t
      else if rec.kind == Keep then t.(op := Some(PlanOp))
      else if rec.family.Some? then if slot then BeginJob(t, job, false, families) else t
      else t.(op := Some(SealOp))
    case Sending =>
      if rec.expired == {} then Start(t, me, running) else t.(op := Some(RefreshOp(rec)))
    case Finishing =>
      if rec.kind == Keep then if rec.plan.None? then t else t.(op := Some(AssembleOp))
      else if rec.sealed.None? then t
      else if rec.family.Some? then BeginJob(t, job, true, families)
      else t.(op := Some(FinishOp(rec.sealed.value)))
    case _ => t
  }

  /** What a seal that came back leaves in the folder. */
  function SealedFolder(folder: Folder, sealed: Sealed, kept: bool): (after: Folder) {
    if kept then folder.(content := false, parts := folder.parts + Span(1, sealed.partCount + 1)) else folder.(content := false)
  }

  /** What a seal wrote is still in the folder. */
  predicate PartsStay(t: Transfer) {
    t.folder.there && !t.past.Stripped()
  }

  /** An own-drive upload sealed as `sealed`: the plaintext goes, the parts are sent. `kept`: its parts are still there. */
  function SealDone(t: Transfer, me: Option<Account>, sealed: Sealed, kept: bool): (r: Transfer)
    ensures Respects(t, r, me) && Remembers(t, r) && r.server.begun == t.server.begun[sealed.uploadId := sealed.partCount] && r.op.None?
  {
    var t1 := t.(
      op := None,
      server := t.server.Begin(sealed),
      folder := SealedFolder(t.folder, sealed, kept));
    if t1.record.None? then t1.(server := t1.server.Forgot(Some(sealed), OwnSealGone))
    else
      var rec := t1.record.value;
      Start(t1.(record := Some(rec.(sealed := Some(sealed), state := Sending)), server := t1.server.Replaced(rec.sealed, Some(sealed))), me, {})
  }

  function PlanDone(t: Transfer, me: Option<Account>, plan: Plan): (r: Transfer)
    ensures Respects(t, r, me) && Remembers(t, r) && r.server.begun == t.server.begun && r.op.None?
  {
    var t1 := t.(op := None, planned := Some(plan.chunkCount), folder := t.folder.(there := true));
    if t1.record.None? then t1
    else Start(Put(t1, t1.record.value.(plan := Some(plan), state := Sending)), me, {})
  }

  /** Fresh addresses answered: the record takes the upload as the pass read it, with the new addresses. */
  function RefreshDone(t: Transfer, me: Option<Account>, renewed: set<int>, running: set<Desc>): (r: Transfer)
    requires t.op.Some? && t.op.value.RefreshOp?
    ensures Respects(t, r, me) && Remembers(t, r) && r.server.begun == t.server.begun && r.op.None?
  {
    var read := t.op.value.read;
    var t1 := t.(op := None);
    if t1.record.None? then t1
    else if read.sealed.Some? then
      var sealed := Some(read.sealed.value.(urls := read.sealed.value.urls + renewed));
      var rec := t1.record.value;
      Start(t1.(record := Some(rec.(sealed := sealed, expired := {})), server := t1.server.Replaced(rec.sealed, sealed)), me, running)
    else if read.plan.Some? then
      Start(Put(t1, t1.record.value.(plan := read.plan, expired := {})), me, running)
    else Start(t1, me, running)
  }

  /** The server completed an own-drive upload (whether or not its row opened here). */
  function FinishDone(t: Transfer): (r: Transfer)
    requires t.op.Some? && t.op.value.FinishOp?
    ensures Respects(t, r, None) && Remembers(t, r) && r.server.begun == t.server.begun && r.op.None?
  {
    Land(t.(op := None, server := t.server.Completed(Some(t.op.value.sealed))))
  }

  function AssembleDone(t: Transfer): (r: Transfer)
    ensures Respects(t, r, None) && Remembers(t, r) && r.server.begun == t.server.begun && r.op.None?
  {
    Land(t.(op := None))
  }

  function OpFailed(t: Transfer, me: Option<Account>, passes: bool): (r: Transfer)
    ensures Respects(t, r, me) && Remembers(t, r) && r.server.begun == t.server.begun && r.op.None?
  {
    Fail(t.(op := None), me, passes)
  }

  // -- Family uploads ------------------------------------------------------------------------------------------------

  function BeginJob(t: Transfer, job: JobId, finish: bool, families: bool): (r: Transfer)
    requires t.record.Some?
    ensures Respects(t, r, None) && Remembers(t, r) && r.server.begun == t.server.begun && r.op == t.op
  {
    if t.sealing.Some? || !families then t
    else t.(sealing := Some(job), jobs := t.jobs[job := Job(finish, false, t.record.value.sealed, t.record.value.etags, None, false)])
  }

  /** How a family upload's work ended, off the main actor: what it did to the folder and to the server. */
  datatype Work =
    | Prepared(sealed: Sealed)   // sealed: its parts on disk, the upload begun
    | Completed                  // the server completed it: the folder goes
    | Published                  // live, its name record still to be signed again: the folder goes
    | Conflicted                 // refused by a key change: aborted, only the plaintext stays
    | NotInFamily                // no longer a member: the folder goes
    // `made`: a seal made the folder again before it failed.
    | NoAnswer(made: bool)
    | Error(passes: bool, made: bool)

  function WorkDone(t: Transfer, j: JobId, work: Work): (r: Transfer)
    requires j in t.jobs
    ensures Respects(t, r, None) && Remembers(t, r) && r.op == t.op
    ensures r.server.begun == if work.Prepared? then t.server.begun[work.sealed.uploadId := work.sealed.partCount] else t.server.begun
  {
    var job := t.jobs[j];
    match work
    case Prepared(sealed) =>
      t.(jobs := t.jobs[j := job.(sealed := Some(sealed), etags := map[], outcome := Some(Send))],
         server := t.server.Begin(sealed),
         folder := t.folder.(there := true, parts := t.folder.parts + Span(1, sealed.partCount + 1)))
    case Completed =>
      t.(jobs := t.jobs[j := job.(outcome := Some(Landed), emptied := true)], server := t.server.Completed(job.sealed), folder := GONE)
    case Published =>
      t.(jobs := t.jobs[j := job.(outcome := Some(Again), emptied := true)], server := t.server.Completed(job.sealed), folder := GONE)
    case Conflicted =>
      t.(jobs := t.jobs[j := job.(sealed := None, etags := map[], outcome := Some(Reseal))], server := t.server.Aborted(job.sealed),
         folder := ONLY_CONTENT)
    case NotInFamily =>
      t.(jobs := t.jobs[j := job.(outcome := Some(Refused(false)), emptied := true)],
         server := if job.finish then t.server.Aborted(job.sealed) else t.server, folder := GONE)
    case NoAnswer(made) => t.(jobs := t.jobs[j := job.(outcome := Some(Again))], folder := t.folder.(there := t.folder.there || made))
    case Error(passes, made) =>
      t.(jobs := t.jobs[j := job.(outcome := Some(Refused(passes)))], folder := t.folder.(there := t.folder.there || made))
  }

  /** Back on the main actor: applied, or aborted when the record went or its work was cancelled meanwhile. */
  function JobDone(t: Transfer, me: Option<Account>, j: JobId): (r: Transfer)
    requires j in t.jobs && t.jobs[j].outcome.Some?
    ensures Respects(t, r, me) && Remembers(t, r) && r.server.begun == t.server.begun && r.op == t.op
  {
    var job := t.jobs[j];
    var t1 := t.(jobs := t.jobs - {j}, sealing := None);
    if t.record.None? || job.cancelled then
      if job.finish then t1 else t1.(server := t1.server.Aborted(job.sealed))
    else Apply(t1, me, job.outcome.value, job.sealed, job.etags)
  }

  function Apply(t: Transfer, me: Option<Account>, step: Step, sealed: Option<Sealed>, etags: map<int, Etag>): (r: Transfer)
    requires t.record.Some?
    ensures Respects(t, r, me) && Remembers(t, r) && r.server.begun == t.server.begun && r.op == t.op
  {
    var rec := t.record.value.(sealed := sealed, etags := etags);
    var t1 := t.(record := Some(rec), server := t.server.Replaced(t.record.value.sealed, sealed));
    match step
    case Send => Start(Put(t1, rec.(state := Sending, expired := {}, failures := 0)), me, {})
    case Landed => Land(t1)
    case Reseal => Put(t1, rec.(state := Waiting, expired := {}, failures := 0))
    case Again => Put(t1, rec.(failures := rec.failures + 1))
    case Refused(passes) => Fail(t1, me, passes)
  }

  // -- The session's callbacks ----------------------------------------------------------------------------------------

  /** A failed transfer's status that passes (Resumable.retryable). */
  predicate Passes(status: int) {
    status == 0 || status == 403 || status == 408 || status == 429 || status >= 500
  }

  /** A task ended: `etag` when its part landed with one, `fetched` when its chunk was moved into place. */
  function Finished(t: Transfer, me: Option<Account>, d: Desc, status: int, etag: Option<Etag>, fetched: bool): (r: Transfer)
    ensures Respects(t, r, me) && Remembers(t, r) && r.server.begun == t.server.begun && r.op == t.op
  {
    if t.record.None? then t else
    var rec := t.record.value;
    if d.upload.Some? && d.upload != rec.Named() then t
    else if rec.kind == Upload then
      if etag.Some? then
        Arrive(Put(t, rec.(etags := rec.etags[d.piece + 1 := etag.value], failures := 0)).(
          folder := t.folder.(parts := t.folder.parts - {d.piece + 1})))
      else Arrive(RetryPiece(t, me, d.piece + 1, status))
    else if fetched then
      Arrive(Put(t, rec.(fetched := rec.fetched + {d.piece}, failures := 0)).(
        folder := t.folder.(chunks := t.folder.chunks + {d.piece})))
    else Arrive(RetryPiece(t, me, d.piece, status))
  }

  /** A sending record whose landed pieces are as many as its pieces is finished next. */
  function Arrive(t: Transfer): (r: Transfer)
    requires t.record.Some?
    ensures Respects(t, r, None) && Remembers(t, r) && r.server.begun == t.server.begun && r.op == t.op
  {
    if t.record.value.Landed() == t.record.value.Total() && t.record.value.state == Sending
    then Put(t, t.record.value.(state := Finishing)) else t
  }

  /** An expired address is signed again; anything else goes again, up to a limit. */
  function RetryPiece(t: Transfer, me: Option<Account>, piece: int, status: int): (r: Transfer)
    requires t.record.Some?
    ensures r.record.Some? && Respects(t, r, me) && Remembers(t, r) && r.server.begun == t.server.begun && r.op == t.op
  {
    var rec := t.record.value;
    if status == 403 then Put(t, rec.(expired := rec.expired + {piece}))
    else
      var t1 := Put(t, rec.(failures := rec.failures + 1));
      if rec.failures + 1 > FAILURES then Fail(t1, me, Passes(status)) else Start(t1, me, {})
  }

  // -- What the person and the account do -----------------------------------------------------------------------------

  /** A cancel's first part: the record read, its seal cancelled. */
  function CancelBegin(t: Transfer, c: nat): (r: Transfer)
    ensures Respects(t, r, None) && Remembers(t, r) && r.server.begun == t.server.begun && r.op == t.op
  {
    if t.record.None? then t
    else
      t.(cancels := t.cancels[c := Cancel(t.record.value, false)], past := t.past.(cancelled := true), sealing := None,
         jobs := if t.sealing.Some? && t.sealing.value in t.jobs
                 then t.jobs[t.sealing.value := t.jobs[t.sealing.value].(cancelled := true)] else t.jobs)
  }

  /** Its tasks stopped: the upload it read is aborted, under its own account only; a family's folder goes with it. */
  function CancelDiscard(t: Transfer, me: Option<Account>, c: nat, families: bool): (r: Transfer)
    requires c in t.cancels
    ensures Respects(t, r, me) && Remembers(t, r) && r.server.begun == t.server.begun && r.op == t.op
  {
    var read := t.cancels[c].read;
    var t1 := t.(cancels := t.cancels[c := Cancel(read, true)]);
    if !Runnable(read.owner, me) then t1
    else
      t1.(server := t1.server.Aborted(read.sealed),
          folder := if read.family.Some? && families then GONE else t1.folder)
  }

  /** The folder and the record go. */
  function CancelEnd(t: Transfer, c: nat): (r: Transfer)
    requires c in t.cancels
    ensures Respects(t, r, None) && Remembers(t, r) && r.server.begun == t.server.begun && r.op == t.op
  {
    var read := t.cancels[c].read;
    var held := if t.record.Some? then t.record.value.sealed else None;
    t.(cancels := t.cancels - {c}, record := None, folder := GONE,
       server := t.server.Forgot(held, if SameUpload(held, read.sealed) then OtherAccount else Raced))
  }

  predicate CanRetry(t: Transfer) {
    t.record.Some? && t.record.value.kind == Upload && t.record.value.state == Failed && t.folder.content
  }

  function Retry(t: Transfer): (r: Transfer)
    ensures Respects(t, r, None) && Remembers(t, r) && r.server.begun == t.server.begun && r.op == t.op
  {
    if !CanRetry(t) then t
    else
      var rec := t.record.value;
      t.(record := Some(rec.(state := Waiting, sealed := None, etags := map[], expired := {}, failures := 0)),
         server := t.server.Replaced(rec.sealed, None))
  }

  /** A row taken off the panel: a failed one by hand, a done one by hand or by itself. */
  function Dismiss(t: Transfer): (r: Transfer)
    ensures Respects(t, r, None) && Remembers(t, r) && r.server.begun == t.server.begun && r.op == t.op
  {
    if t.record.None? || (t.record.value.state != Failed && t.record.value.state != Done) then t
    else t.(record := None, folder := GONE, server := t.server.Replaced(t.record.value.sealed, None))
  }

  /** This account left the family: every active upload of it fails, its seal is stopped and its folder removed. */
  function EndFamily(t: Transfer, g: Group): (r: Transfer)
    ensures Respects(t, r, None) && Remembers(t, r) && r.server.begun == t.server.begun && r.op == t.op
  {
    if t.record.None? || t.record.value.family != Some(g) || !t.record.value.Active() then t
    else
      t.(record := Some(t.record.value.(state := Failed, sealed := None, etags := map[])), folder := GONE, sealing := None,
         server := t.server.Forgot(t.record.value.sealed, FamilyEnded),
         jobs := if t.sealing.Some? && t.sealing.value in t.jobs
                 then t.jobs[t.sealing.value := t.jobs[t.sealing.value].(cancelled := true)] else t.jobs)
  }
}
