/** The queue as a whole: its transfers, its one pass at a time, the account signed in, and runs of its steps. */
module TransferRuns {
  import opened Common
  import opened TransferModel

  datatype Pass = Idle | Scanning | Working(id: Id)

  /** `holder`: the account whose data is on the phone, signed in or not. */
  datatype Queue = Queue(transfers: map<Id, Transfer>, pass: Pass, signedIn: Option<Account>, holder: Option<Account>)

  const EMPTY := Queue(map[], Idle, None, None)

  /** One step of one transfer. */
  datatype One =
    | Landings(landed: map<int, Etag>)
    | Turn(job: JobId, online: bool, families: bool, running: set<Desc>)
    | SealCame(sealed: Sealed, kept: bool)
    | PlanCame(plan: Plan)
    | AddressesCame(renewed: set<int>, running: set<Desc>)
    | CompletionCame
    | Assembled
    | PassFailed(passes: bool)
    | JobWorked(j: JobId, work: Work)
    | JobCame(j: JobId)
    | TaskEnded(task: Task, status: int, ok: bool, fetched: bool)
    | CancelAsked(c: nat)
    | CancelListed(c: nat, families: bool)
    | CancelLast(c: nat)
    | RetryAsked
    | Dismissed
    | NoteTaken
    | NoteReleased
    | NoteDropped
    | Swept
    | ExtensionFinished

  datatype Event =
    | UploadQueued(id: Id, family: Option<Group>, copied: bool)
    | KeepQueued(id: Id)
    | HandoffAdopted(id: Id, family: Option<Group>, sealed: Sealed, etags: map<int, Etag>)
    | PassBegun
    | PassEnded
    | Stepped(id: Id, one: One)
    | FamilyLeft(g: Group)
    | SessionChanged(account: Option<Account>)
    // A sign-in finds another account's data, or its own; `Recorded` puts its name on data of no account's.
    | Claimed(who: Account)
    | Recorded(who: Account)
    // Signed out, removed or deleted.
    | Wiped

  /** ETags the store returned for parts of `sealed`. */
  predicate Genuine(sealed: Sealed, etags: map<int, Etag>) {
    forall p | p in etags :: 1 <= p <= sealed.partCount && etags[p] == Etag(sealed.uploadId, p)
  }

  /** The server never gives an upload id twice. */
  ghost predicate FreshUpload(q: Queue, u: UploadId) {
    forall id | id in q.transfers :: u !in q.transfers[id].server.begun
  }

  /** The transfers holding a place among the seals under way. */
  function Sealing(q: Queue): (sealing: set<Id>) {
    set id | id in q.transfers && q.transfers[id].sealing.Some?
  }

  predicate InPass(one: One) {
    one.SealCame? || one.PlanCame? || one.AddressesCame? || one.CompletionCame? || one.Assembled? || one.PassFailed?
  }

  /** The wait a pass's answer resumes. */
  predicate Awaited(op: Op, one: One) {
    match one
    case SealCame(_, _) => op.SealOp?
    case PlanCame(_) => op.PlanOp?
    case AddressesCame(_, _) => op.RefreshOp?
    case CompletionCame => op.FinishOp?
    case Assembled => op.AssembleOp?
    case PassFailed(_) => true
    case _ => false
  }

  /** Which work a seal or a finish can end with; sealing, and sealing again, read the plaintext. */
  predicate WorkPossible(t: Transfer, job: Job, work: Work) {
    match work
    case Prepared(sealed) => !job.finish && t.folder.content
    case Completed => job.finish
    case Published => job.finish
    case Conflicted => job.finish && t.folder.content
    case NoAnswer(made) => made ==> !job.finish
    case Error(_, made) => made ==> !job.finish
    case _ => true
  }

  /**
   When one transfer can take a step: a suspended step resumes from where it waits, callbacks come from tasks that
   were handed over, and the server's answers are its own.
   */
  ghost predicate Possible(q: Queue, id: Id, one: One)
    requires id in q.transfers
  {
    var t := q.transfers[id];
    match one
    case Landings(landed) =>
      q.pass.Scanning? && (t.record.Some? && t.record.value.sealed.Some? ==> Genuine(t.record.value.sealed.value, landed))
    case Turn(job, _, _, _) => q.pass.Scanning? && job !in t.jobs
    case JobWorked(j, work) =>
      && j in t.jobs && t.jobs[j].outcome.None? && WorkPossible(t, t.jobs[j], work)
      && (work.Prepared? ==> FreshUpload(q, work.sealed.uploadId))
    case JobCame(j) => j in t.jobs && t.jobs[j].outcome.Some?
    case TaskEnded(task, _, ok, fetched) => task in t.handed && (ok ==> task.desc.upload.Some?) && (fetched ==> t.folder.there)
    case CancelAsked(c) => c !in t.cancels
    case CancelListed(c, _) => c in t.cancels && !t.cancels[c].discarded
    case CancelLast(c) => c in t.cancels && t.cancels[c].discarded
    case RetryAsked => true
    case Dismissed => true
    case NoteTaken => t.record.Some?
    // Only what the extension handed over has a note, whatever became of the record.
    case NoteReleased => t.handoff.Some?
    case NoteDropped => t.record.None? && t.folder.note && t.handoff.Some? && q.signedIn.Some? && q.signedIn != t.handoff.value.owner
    case Swept => t.record.None? && !t.folder.note
    // The server completes no upload that was aborted.
    case ExtensionFinished => t.handoff.Some? && t.handoff.value.sealed.uploadId !in t.server.asked
    case _ =>
      && q.pass == Working(id) && t.op.Some? && Awaited(t.op.value, one)
      && (one.SealCame? ==> FreshUpload(q, one.sealed.uploadId) && one.kept == PartsStay(t))
  }

  ghost function Do(q: Queue, id: Id, one: One): (after: Transfer)
    requires id in q.transfers && Possible(q, id, one)
  {
    var t, me := q.transfers[id], q.signedIn;
    match one
    case Landings(landed) => TakeLanded(t, landed)
    case Turn(job, online, families, running) => Visit(t, me, job, online, families, |Sealing(q)| < SEALING_AT_ONCE, running)
    case SealCame(sealed, kept) => SealDone(t, me, sealed, kept)
    case PlanCame(plan) => PlanDone(t, me, plan)
    case AddressesCame(renewed, running) => RefreshDone(t, me, renewed, running)
    case CompletionCame => FinishDone(t)
    case Assembled => AssembleDone(t)
    case PassFailed(passes) => OpFailed(t, me, passes)
    case JobWorked(j, work) => WorkDone(t, j, work)
    case JobCame(j) => JobDone(t, me, j)
    case TaskEnded(task, status, ok, fetched) =>
      Finished(t, me, task.desc, status, if ok then Some(Etag(task.desc.upload.value, task.desc.piece + 1)) else None, fetched)
    case CancelAsked(c) => CancelBegin(t, c)
    case CancelListed(c, families) => CancelDiscard(t, me, c, families)
    case CancelLast(c) => CancelEnd(t, c)
    case RetryAsked => Retry(t)
    case Dismissed => Dismiss(t)
    case NoteTaken => TakeNote(t)
    case NoteReleased => Release(t)
    case NoteDropped => FolderGone(t)
    case Swept => FolderGone(t)
    case ExtensionFinished => FinishedByExtension(t)
  }

  ghost predicate Enabled(q: Queue, e: Event) {
    match e
    case UploadQueued(id, _, _) => id !in q.transfers
    case KeepQueued(id) => id !in q.transfers
    // A note of a transfer without a record is adopted, also one whose record had gone: a callback may ask for exactly that.
    case HandoffAdopted(id, family, sealed, etags) =>
      && q.signedIn.Some? && Genuine(sealed, etags)
      && if id in q.transfers then Adoptable(q, id) && q.transfers[id].handoff == Some(Handed(sealed, q.signedIn, family))
         else FreshUpload(q, sealed.uploadId)
    case PassBegun => true
    case PassEnded => q.pass.Scanning?
    case Stepped(id, one) => id in q.transfers && Possible(q, id, one)
    case FamilyLeft(_) => true
    // A session is stored only for the account the data was claimed for just before.
    case SessionChanged(account) => account.Some? ==> q.holder == account
    case Claimed(_) => true
    case Recorded(who) => q.holder.None? && q.signedIn == Some(who)
    case Wiped => true
  }

  /** No record, and a note of the account signed in. */
  predicate Adoptable(q: Queue, id: Id)
    requires id in q.transfers
  {
    var t := q.transfers[id];
    t.record.None? && t.folder.note && t.handoff.Some? && q.signedIn.Some? && q.signedIn == t.handoff.value.owner
  }

  /** The step takes the account's data off the phone: every folder of the queue goes. */
  predicate TakesData(q: Queue, e: Event) {
    e.Wiped? || (e.Claimed? && q.holder != Some(e.who))
  }

  ghost function Next(q: Queue, e: Event): (after: Queue)
    requires Enabled(q, e)
  {
    match e
    case UploadQueued(id, family, copied) => q.(transfers := q.transfers[id := NewUpload(q.signedIn, family, copied)])
    case KeepQueued(id) => q.(transfers := q.transfers[id := NewKeep(q.signedIn)])
    case HandoffAdopted(id, family, sealed, etags) =>
      q.(transfers := q.transfers[id := if id in q.transfers then Returned(q.transfers[id], etags) else Adopted(q.signedIn, family, sealed, etags)])
    case PassBegun =>
      if q.pass != Idle || q.signedIn.None? then q
      else q.(pass := Scanning, transfers := map id | id in q.transfers :: DropOther(q.transfers[id], q.signedIn))
    case PassEnded => q.(pass := Idle)
    case Stepped(id, one) =>
      var t := Do(q, id, one);
      q.(transfers := q.transfers[id := t],
         pass := if one.Turn? && t.op.Some? then Working(id) else if InPass(one) then Scanning else q.pass)
    case FamilyLeft(g) => q.(transfers := map id | id in q.transfers :: EndFamily(q.transfers[id], g))
    case SessionChanged(account) => q.(signedIn := account)
    // Its own data stays; another's session goes first, then its data.
    case Claimed(who) => if q.holder == Some(who) then q else AllWiped(q).(signedIn := None, holder := Some(who))
    case Recorded(who) => q.(holder := Some(who))
    case Wiped => AllWiped(q).(holder := None)
  }

  function AllWiped(q: Queue): (after: Queue) {
    q.(transfers := map id | id in q.transfers :: Wipe(q.transfers[id]))
  }

  /** `trace` is a run of the queue: it starts empty, and each step is enabled and leads to the next. */
  ghost predicate Run(trace: seq<Queue>, events: seq<Event>) {
    && |trace| == |events| + 1
    && trace[0] == EMPTY
    && forall i {:trigger events[i]} | 0 <= i < |events| :: Enabled(trace[i], events[i]) && trace[i + 1] == Next(trace[i], events[i])
  }
}
