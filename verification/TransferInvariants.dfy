/**
 What every transfer keeps through every step, whatever the order of passes, callbacks, cancels, re-seals,
 retries, account switches and family endings. Once a cancel was asked for, the record is on its way out and
 only the ledger of its uploads is still kept (`Ledger`), if it is a family's: its seals may then race. So it is once a
 record came back. Until then, and under a cancel in the own drive, an upload is `UploadSound`.
 */
module TransferInvariants {
  import opened Common
  import opened TransferModel
  import opened TransferRuns

  // -- The ledger of uploads, kept always ---------------------------------------------------------------------

  /** `sealed` was begun for this transfer, with this many parts. */
  ghost predicate Known(server: Server, sealed: Option<Sealed>) {
    sealed.Some? ==> sealed.value.uploadId in server.begun && server.begun[sealed.value.uploadId] == sealed.value.partCount
  }

  /** Every upload the transfer names anywhere was begun for it, and its plan is the one planned. */
  ghost predicate Names(t: Transfer) {
    && (t.record.Some? ==> NamesRecord(t.server, t.planned, t.record.value))
    && NamesJobs(t.server, t.jobs)
    && (forall c | c in t.cancels :: t.past.cancelled && Known(t.server, t.cancels[c].read.sealed))
    && (t.op.Some? ==> NamesOp(t.server, t.planned, t.op.value))
    && NamesNote(t)
  }

  /** Only what was handed over has a note, only a record plaintext, in a folder that is there; what is stripped has no plaintext or part. */
  ghost predicate NamesNote(t: Transfer) {
    && NamesFolder(t, t.folder)
    && (t.handoff.Some? ==> Known(t.server, Some(t.handoff.value.sealed)))
    && (t.past.returned ==> t.handoff.Some?)
  }

  ghost predicate NamesFolder(t: Transfer, folder: Folder) {
    && (folder.content ==> folder.there && t.record.Some?) && (folder.note ==> folder.there && t.handoff.Some?)
    && (t.past.Stripped() ==> !folder.content && folder.parts == {})
  }

  ghost predicate NamesRecord(server: Server, planned: Option<nat>, rec: Record) {
    Known(server, rec.sealed) && (rec.plan.Some? ==> planned == Some(rec.plan.value.chunkCount))
  }

  ghost predicate NamesJobs(server: Server, jobs: map<JobId, Job>) {
    forall j | j in jobs :: Known(server, jobs[j].sealed) && (jobs[j].outcome == Some(Send) ==> !jobs[j].finish)
  }

  ghost predicate NamesOp(server: Server, planned: Option<nat>, op: Op) {
    match op
    case RefreshOp(read) => NamesRecord(server, planned, read)
    case FinishOp(sealed) => Known(server, Some(sealed))
    case PlanOp => planned.None?
    case _ => true
  }

  /** Handed over under its own account, for a piece its upload or its plan has. */
  ghost predicate TaskOk(begun: map<UploadId, nat>, planned: Option<nat>, task: Task) {
    && task.under.Some? && task.owner == task.under
    && match task.desc.upload
       case Some(u) => u in begun && 0 <= task.desc.piece < begun[u]
       case None => planned.Some? && 0 <= task.desc.piece < planned.value
  }

  ghost predicate TasksOk(handed: set<Task>, begun: map<UploadId, nat>, planned: Option<nat>) {
    forall task | task in handed :: TaskOk(begun, planned, task)
  }

  ghost predicate Holds(record: Option<Record>, u: UploadId) {
    record.Some? && record.value.Named() == Some(u)
  }

  /** A family seal came back with this upload and is not applied yet. */
  ghost predicate InFlight(jobs: map<JobId, Job>, u: UploadId) {
    exists j :: j in jobs && Brings(jobs[j], u)
  }

  ghost predicate Brings(job: Job, u: UploadId) {
    job.outcome == Some(Send) && job.sealed.Some? && job.sealed.value.uploadId == u
  }

  /** Why an upload is lost is why: raced ones had a cancel or a record back, a late own-drive seal finds no record. */
  ghost predicate LossOk(server: Server, record: Option<Record>, past: Past, u: UploadId) {
    u in server.lost ==>
      && (server.lost[u] == Raced ==> past.cancelled || past.returned)
      && (server.lost[u] == OwnSealGone ==> record.None? || past.returned)
  }

  /** Every upload begun is settled, held by the record, or on its way to it; nothing else is settled. */
  ghost predicate Books(server: Server, record: Option<Record>, jobs: map<JobId, Job>, past: Past) {
    && (forall u | u in server.begun :: server.Settled(u) || Holds(record, u) || InFlight(jobs, u))
    && (forall u | server.Settled(u) :: u in server.begun)
    && (forall u | u in server.lost :: LossOk(server, record, past, u))
  }

  ghost predicate Ledger(t: Transfer) {
    Names(t) && TasksOk(t.handed, t.server.begun, t.planned) && Books(t.server, t.record, t.jobs, t.past)
  }

  // -- What an uncancelled record keeps -----------------------------------------------------------------------

  /** Every ETag was returned for this upload and the part it is kept under; without an upload there is none. */
  ghost predicate Provenance(sealed: Option<Sealed>, etags: map<int, Etag>) {
    if sealed.Some? then Genuine(sealed.value, etags) else etags == map[]
  }

  ghost predicate SettledUpload(server: Server, sealed: Option<Sealed>) {
    sealed.Some? ==> server.Settled(sealed.value.uploadId)
  }

  /** Every part has its ETag. */
  ghost predicate AllParts(sealed: Option<Sealed>, etags: map<int, Etag>) {
    sealed.Some? && etags.Keys == Span(1, sealed.value.partCount + 1)
  }

  /** The upload's bytes are still here: the plaintext, or every part as an ETag or as its sealed file. */
  ghost predicate HasBytes(rec: Record, folder: Folder) {
    folder.content || (rec.sealed.Some? && forall p | 1 <= p <= rec.sealed.value.partCount :: p in rec.etags || p in folder.parts)
  }

  /** A family seal or finish already removed the folder, and its answer waits to be applied. */
  ghost predicate Emptied(t: Transfer) {
    t.sealing.Some? && t.sealing.value in t.jobs && t.jobs[t.sealing.value].emptied
  }

  /** Its file was copied into the queue, and its folder was not taken from it. */
  predicate Stays(t: Transfer) {
    t.past.copied && !t.past.Stripped()
  }

  ghost predicate UploadOk(t: Transfer, rec: Record) {
    && rec.plan.None? && t.planned.None?
    && Provenance(rec.sealed, rec.etags)
    && (rec.state == Sending || rec.state == Finishing ==> rec.sealed.Some?)
    && (rec.state == Finishing ==> AllParts(rec.sealed, rec.etags))
    && (rec.state == Waiting || rec.state == Failed || rec.state == Done ==> SettledUpload(t.server, rec.sealed))
    && (rec.family.None? && rec.state == Waiting ==> rec.sealed.None?)
    && (rec.family.None? && rec.sealed.Some? ==> !t.folder.content)
    && (rec.Active() && Stays(t) && !Emptied(t) ==> HasBytes(rec, t.folder))
    && (rec.family.Some? && rec.state == Waiting && Stays(t) && !Emptied(t) ==> t.folder.content || AllParts(rec.sealed, rec.etags))
  }

  ghost predicate KeepOk(t: Transfer, rec: Record) {
    && rec.sealed.None? && rec.family.None?
    && (rec.plan.Some? ==> rec.fetched <= Span(0, rec.plan.value.chunkCount))
    && (rec.plan.None? ==> rec.fetched == {} && t.planned.None?)
    && (rec.state == Sending || rec.state == Finishing ==> rec.plan.Some?)
    && (rec.state == Waiting ==> t.planned.None?)
    && (rec.state == Finishing ==> rec.plan.Some? && rec.fetched == Span(0, rec.plan.value.chunkCount))
    && (rec.Active() && !t.past.wiped ==> rec.fetched <= t.folder.chunks)
    && t.server.begun == map[]
  }

  ghost predicate SealJobOk(t: Transfer, rec: Record, job: Job) {
    && (rec.state == Waiting || rec.state == Failed)
    && job.outcome != Some(Landed) && job.outcome != Some(Reseal)
    && (job.outcome == Some(Send) ==> job.sealed.Some? && job.etags == map[] && (t.folder.content || t.past.Stripped()))
    && (job.outcome != Some(Send) ==> SettledUpload(t.server, job.sealed))
    && (job.outcome != Some(Send) && rec.state == Waiting && Stays(t) && !job.emptied ==> t.folder.content || AllParts(job.sealed, job.etags))
    && (job.emptied ==> job.outcome == Some(Refused(false)))
  }

  ghost predicate FinishJobOk(t: Transfer, rec: Record, job: Job) {
    && (rec.state == Finishing || rec.state == Failed || rec.state == Waiting)
    && job.outcome != Some(Send)
    && (job.outcome == Some(Reseal) ==> job.sealed.None? && (t.folder.content || t.past.Stripped()) && SettledUpload(t.server, rec.sealed))
    && (job.outcome != Some(Reseal) ==>
          && AllParts(job.sealed, job.etags)
          && (rec.state == Finishing ==> SameUpload(rec.sealed, job.sealed))
          && (rec.state != Finishing ==> SettledUpload(t.server, job.sealed)))
    && (job.outcome == Some(Landed) ==> SettledUpload(t.server, job.sealed))
    && (job.emptied ==> job.outcome == Some(Landed) || job.outcome == Some(Again) || job.outcome == Some(Refused(false)))
    && (job.emptied && job.outcome != Some(Refused(false)) ==> job.sealed.value.uploadId in t.server.completed)
  }

  /** A family seal or finish that will be applied is the one under way; a stopped one found the family ended. */
  ghost predicate JobOk(t: Transfer, rec: Record, j: JobId)
    requires j in t.jobs
  {
    var job := t.jobs[j];
    && rec.kind == Upload && rec.family.Some?
    && if job.cancelled then rec.state == Failed && !t.folder.content && t.sealing.None?
       else
         && t.sealing == Some(j) && Provenance(job.sealed, job.etags)
         && if job.finish then FinishJobOk(t, rec, job) else SealJobOk(t, rec, job)
  }

  ghost predicate OpOk(t: Transfer, rec: Record, op: Op) {
    match op
    case SealOp => rec.kind == Upload && rec.family.None? && rec.state == Waiting
    case PlanOp => rec.kind == Keep && rec.state == Waiting
    case AssembleOp => rec.kind == Keep
    case FinishOp(sealed) =>
      && rec.kind == Upload && rec.family.None? && SameUpload(rec.sealed, Some(sealed))
      && (rec.state == Finishing || rec.state == Failed)
    case RefreshOp(read) =>
      && t.sealing.None? && rec.state != Done
      && if rec.kind == Upload then
           && read.sealed.Some? && (rec.sealed.None? || SameUpload(rec.sealed, read.sealed))
           && (rec.state == Waiting || rec.state == Failed ==> SettledUpload(t.server, read.sealed))
           && (rec.family.None? ==> rec.state != Waiting && !t.folder.content)
         else
           read.sealed.None? && rec.plan.Some? && rec.plan == read.plan
  }

  ghost predicate UploadSound(t: Transfer, rec: Record) {
    && UploadOk(t, rec)
    && (forall j | j in t.jobs :: JobOk(t, rec, j))
    && (t.sealing.Some? ==> t.sealing.value in t.jobs)
    && (t.op.Some? ==> OpOk(t, rec, t.op.value))
    && (rec.family.None? ==> forall c | c in t.cancels :: t.cancels[c].read.family.None?)
  }

  ghost predicate KeepSound(t: Transfer, rec: Record) {
    && KeepOk(t, rec)
    && t.jobs == map[] && t.sealing.None?
    && (forall c | c in t.cancels :: t.cancels[c].read.family.None?)
    && (t.op.Some? ==> OpOk(t, rec, t.op.value))
  }

  ghost predicate Sound(t: Transfer) {
    t.record.Some? ==>
      if t.record.value.kind == Keep then KeepSound(t, t.record.value) else Tracked(t) ==> UploadSound(t, t.record.value)
  }

  /** What a record needs is still kept: it never came back, and no cancel was asked for, or it is no family's. */
  ghost predicate Tracked(t: Transfer) {
    t.record.Some? ==> !t.past.returned && (!t.past.cancelled || t.record.value.family.None?)
  }

  ghost predicate Ok(t: Transfer) {
    Ledger(t) && Sound(t)
  }
}
