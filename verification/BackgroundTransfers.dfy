/**
 The queue as the app runs it. A `QueuedTransfer` is a record with its folder, its tasks and its seals, all changed in
 place; `Now` is what it is as `TransferModel` describes it, and every method is proved to do what the model's step does.
 The server's side and the histories are ghost.
 */
module BackgroundTransfers {
  import opened Common
  import opened TransferModel
  import opened TransferRuns
  import opened TransferSafety
  import Model = TransferModel

  class QueuedTransfer {
    var record: Option<Record>
    var folder: Folder
    var sealing: Option<JobId>
    var jobs: map<JobId, Job>
    var cancels: map<nat, Cancel>
    var op: Option<Op>
    var handed: set<Task>
    ghost var server: Server
    ghost var planned: Option<nat>
    // What the extension's note says, as long as its folder may hold one.
    var handoff: Option<Handed>
    ghost var past: Past

    ghost function Now(): (now: Transfer)
      reads this
    {
      Transfer(record, folder, sealing, jobs, cancels, op, handed, server, planned, handoff, past)
    }

    // -- Queueing ------------------------------------------------------------------------------------------------------

    constructor Upload(me: Option<Account>, family: Option<Group>, copied: bool)
      ensures Now() == NewUpload(me, family, copied)
    {
      record := Some(Record(Kind.Upload, Waiting, me, family, None, map[], None, {}, {}, 0));
      folder := Folder(true, copied, {}, {}, false);
      sealing, jobs, cancels, op, handed := None, map[], map[], None, {};
      server, planned, handoff, past := Server(map[], {}, {}, map[]), None, None, UNTOUCHED.(copied := copied);
    }

    constructor Keep(me: Option<Account>)
      ensures Now() == NewKeep(me)
    {
      record := Some(Record(Kind.Keep, Waiting, me, None, None, map[], None, {}, {}, 0));
      folder := GONE;
      sealing, jobs, cancels, op, handed := None, map[], map[], None, {};
      server, planned, handoff, past := Server(map[], {}, {}, map[]), None, None, UNTOUCHED;
    }

    /** An upload the share extension sealed and started, with the parts it saw land. */
    constructor Adopt(me: Option<Account>, family: Option<Group>, sealed: Sealed, etags: map<int, Etag>)
      ensures Now() == Adopted(me, family, sealed, etags)
    {
      var state := if |etags| == sealed.partCount then Finishing else Sending;
      record := Some(Record(Kind.Upload, state, me, family, Some(sealed), etags, None, {}, {}, 0));
      folder := Folder(true, family.Some?, Span(1, sealed.partCount + 1), {}, true);
      handed := set piece | piece in Span(0, sealed.partCount) :: Task(Desc(piece, Some(sealed.uploadId)), me, me);
      sealing, jobs, cancels, op := None, map[], map[], None;
      server, planned, handoff, past := Server(map[], {}, {}, map[]).Begin(sealed), None, Some(Handed(sealed, me, family)), UNTOUCHED;
    }

    // -- Handing pieces to the session ---------------------------------------------------------------------------------

    /** `start`: every piece not landed and not with the session already is handed to it. */
    method Start(me: Option<Account>, running: set<Desc>)
      modifies this`handed
      ensures Now() == Model.Start(old(Now()), me, running)
    {
      if record.None? || !Runnable(record.value.owner, me) { return; }
      var rec := record.value;
      for piece := 0 to rec.Total()
        modifies this`handed
        invariant handed == old(handed) + set p | p in Pieces(rec, running) && p < piece :: Task(Desc(p, rec.Named()), rec.owner, me)
      {
        if Desc(piece, rec.Named()) in running || Desc(piece, None) in running { continue; }
        if rec.sealed.Some? {
          var part := piece + 1;
          if part in rec.etags || part in rec.expired || part !in rec.sealed.value.urls { continue; }
        } else if rec.plan.Some? {
          if piece in rec.fetched || piece in rec.expired || piece !in rec.plan.value.ranges { continue; }
        } else {
          continue;
        }
        handed := handed + {Task(Desc(piece, rec.Named()), rec.owner, me)};
      }
    }

    // -- Ends ------------------------------------------------------------------------------------------------------------

    method Fail(me: Option<Account>, passes: bool)
      modifies this`record, this`folder, this`server
      ensures Now() == Model.Fail(old(Now()), me, passes)
    {
      if passes {
        if record.Some? { record := Some(record.value.(failures := record.value.failures + 1)); }
        return;
      }
      if record.Some? {
        server := Abort(server, record.value, me);
        record := Some(record.value.(state := Failed));
      }
      if folder.content {
        folder := ONLY_CONTENT;
      } else {
        folder := GONE;
      }
    }

    method Land()
      modifies this`record, this`folder
      ensures Now() == Model.Land(old(Now()))
    {
      if record.Some? { record := Some(record.value.(state := Done)); }
      folder := GONE;
    }

    // -- The pass ----------------------------------------------------------------------------------------------------------

    method TakeLanded(landed: map<int, Etag>)
      modifies this`record
      ensures Now() == Model.TakeLanded(old(Now()), landed)
    {
      if record.None? || record.value.kind != Kind.Upload || record.value.state != Sending || record.value.sealed.None? { return; }
      if landed == map[] { return; }
      record := Some(record.value.(etags := landed + record.value.etags));
      if record.value.Landed() == record.value.Total() {
        record := Some(record.value.(state := Finishing));
      }
    }

    method DropOther(me: Option<Account>)
      modifies this`record, this`folder, this`server
      ensures Now() == Model.DropOther(old(Now()), me)
    {
      if record.Some? && me.Some? && record.value.owner != me {
        server := server.Forgot(record.value.sealed, OtherAccount);
        record := None;
        folder := GONE;
      }
    }

    /** One record's turn in a pass, as far as its first wait. */
    method Visit(me: Option<Account>, job: JobId, online: bool, families: bool, slot: bool, running: set<Desc>)
      modifies this`handed, this`op, this`jobs, this`sealing
      ensures Now() == Model.Visit(old(Now()), me, job, online, families, slot, running)
    {
      hide Model.Start, Respects;
      if record.None? || !Runnable(record.value.owner, me) { return; }
      var rec := record.value;
      match rec.state {
        case Waiting =>
          if !online { return; }
          if rec.kind == Kind.Keep {
            op := Some(PlanOp);
          } else if rec.family.Some? {
            if slot { BeginJob(job, false, families); }
          } else {
            op := Some(SealOp);
          }
        case Sending =>
          if rec.expired != {} {
            op := Some(RefreshOp(rec));
          } else {
            Start(me, running);
          }
        case Finishing =>
          if rec.kind == Kind.Keep {
            if rec.plan.Some? { op := Some(AssembleOp); }
          } else if rec.sealed.Some? {
            if rec.family.Some? {
              BeginJob(job, true, families);
            } else {
              op := Some(FinishOp(rec.sealed.value));
            }
          }
        case _ =>
      }
    }

    /** `kept`: what the seal wrote is still there. */
    method SealDone(me: Option<Account>, sealed: Sealed, kept: bool)
      modifies this
      ensures Now() == Model.SealDone(old(Now()), me, sealed, kept)
    {
      hide Model.Start, Respects;
      op := None;
      server := server.Begin(sealed);
      if kept { folder := folder.(parts := folder.parts + Span(1, sealed.partCount + 1)); }
      folder := folder.(content := false);
      if record.None? {
        server := server.Forgot(Some(sealed), OwnSealGone);
        return;
      }
      server := server.Replaced(record.value.sealed, Some(sealed));
      record := Some(record.value.(sealed := Some(sealed), state := Sending));
      Start(me, {});
    }

    method PlanDone(me: Option<Account>, plan: Plan)
      modifies this
      ensures Now() == Model.PlanDone(old(Now()), me, plan)
    {
      hide Model.Start, Respects;
      op := None;
      planned := Some(plan.chunkCount);
      folder := folder.(there := true);
      if record.None? { return; }
      record := Some(record.value.(plan := Some(plan), state := Sending));
      Start(me, {});
    }

    method RefreshDone(me: Option<Account>, renewed: set<int>, running: set<Desc>)
      requires op.Some? && op.value.RefreshOp?
      modifies this
      ensures Now() == Model.RefreshDone(old(Now()), me, renewed, running)
    {
      hide Model.Start, Respects;
      var read := op.value.read;
      op := None;
      if record.None? { return; }
      if read.sealed.Some? {
        var sealed := Some(read.sealed.value.(urls := read.sealed.value.urls + renewed));
        server := server.Replaced(record.value.sealed, sealed);
        record := Some(record.value.(sealed := sealed, expired := {}));
      } else if read.plan.Some? {
        record := Some(record.value.(plan := read.plan, expired := {}));
      }
      Start(me, running);
    }

    method FinishDone()
      requires op.Some? && op.value.FinishOp?
      modifies this
      ensures Now() == Model.FinishDone(old(Now()))
    {
      server := server.Completed(Some(op.value.sealed));
      op := None;
      Land();
    }

    method AssembleDone()
      modifies this`record, this`folder, this`op
      ensures Now() == Model.AssembleDone(old(Now()))
    {
      op := None;
      Land();
    }

    /** What the pass waited for failed. */
    method OpFailed(me: Option<Account>, passes: bool)
      modifies this`record, this`folder, this`server, this`op
      ensures Now() == Model.OpFailed(old(Now()), me, passes)
    {
      op := None;
      Fail(me, passes);
    }

    // -- Family uploads ------------------------------------------------------------------------------------------------------

    /** `sealFamily` and `finishFamily`: one job at a time for a record, on a copy of its upload. */
    method BeginJob(job: JobId, finish: bool, families: bool)
      requires record.Some?
      modifies this`sealing, this`jobs
      ensures Now() == Model.BeginJob(old(Now()), job, finish, families)
    {
      if sealing.Some? || !families { return; }
      sealing := Some(job);
      jobs := jobs[job := Job(finish, false, record.value.sealed, record.value.etags, None, false)];
    }

    /** How a family upload's work ended, off the main actor. */
    method WorkDone(j: JobId, work: Work)
      requires j in jobs
      modifies this`jobs, this`server, this`folder
      ensures Now() == Model.WorkDone(old(Now()), j, work)
    {
      hide Respects;
      var job := jobs[j];
      match work {
        case Prepared(sealed) =>
          jobs := jobs[j := job.(sealed := Some(sealed), etags := map[], outcome := Some(Send))];
          server := server.Begin(sealed);
          folder := folder.(there := true, parts := folder.parts + Span(1, sealed.partCount + 1));
        case Completed =>
          jobs := jobs[j := job.(outcome := Some(Landed), emptied := true)];
          server := server.Completed(job.sealed);
          folder := GONE;
        case Published =>
          jobs := jobs[j := job.(outcome := Some(Again), emptied := true)];
          server := server.Completed(job.sealed);
          folder := GONE;
        case Conflicted =>
          jobs := jobs[j := job.(sealed := None, etags := map[], outcome := Some(Reseal))];
          server := server.Aborted(job.sealed);
          folder := ONLY_CONTENT;
        case NotInFamily =>
          jobs := jobs[j := job.(outcome := Some(Refused(false)), emptied := true)];
          if job.finish { server := server.Aborted(job.sealed); }
          folder := GONE;
        case NoAnswer(made) =>
          jobs := jobs[j := job.(outcome := Some(Again))];
          if made { folder := folder.(there := true); }
        case Error(passes, made) =>
          jobs := jobs[j := job.(outcome := Some(Refused(passes)))];
          if made { folder := folder.(there := true); }
      }
    }

    method Apply(me: Option<Account>, step: Step, sealed: Option<Sealed>, etags: map<int, Etag>)
      requires record.Some?
      modifies this`record, this`folder, this`server, this`handed
      ensures Now() == Model.Apply(old(Now()), me, step, sealed, etags)
    {
      hide Model.Start, Model.Fail, Respects;
      server := server.Replaced(record.value.sealed, sealed);
      record := Some(record.value.(sealed := sealed, etags := etags));
      match step {
        case Send =>
          record := Some(record.value.(state := Sending, expired := {}, failures := 0));
          Start(me, {});
        case Landed =>
          Land();
        case Reseal =>
          record := Some(record.value.(state := Waiting, expired := {}, failures := 0));
        case Again =>
          record := Some(record.value.(failures := record.value.failures + 1));
        case Refused(passes) =>
          Fail(me, passes);
      }
    }

    /** Back on the main actor: applied, or aborted when the record went or its work was cancelled meanwhile. */
    method JobDone(me: Option<Account>, j: JobId)
      requires j in jobs && jobs[j].outcome.Some?
      modifies this
      ensures Now() == Model.JobDone(old(Now()), me, j)
    {
      hide Model.Apply, Respects;
      var job := jobs[j];
      jobs, sealing := jobs - {j}, None;
      if record.None? || job.cancelled {
        if !job.finish { server := server.Aborted(job.sealed); }
        return;
      }
      Apply(me, job.outcome.value, job.sealed, job.etags);
    }

    // -- The session's callbacks ---------------------------------------------------------------------------------------------

    method RetryPiece(me: Option<Account>, piece: int, status: int)
      requires record.Some?
      modifies this`record, this`folder, this`server, this`handed
      ensures Now() == Model.RetryPiece(old(Now()), me, piece, status)
    {
      hide Model.Start, Model.Fail, Respects;
      if status == 403 {
        record := Some(record.value.(expired := record.value.expired + {piece}));
        return;
      }
      record := Some(record.value.(failures := record.value.failures + 1));
      if record.value.failures > FAILURES {
        Fail(me, Passes(status));
      } else {
        Start(me, {});
      }
    }

    method Finished(me: Option<Account>, d: Desc, status: int, etag: Option<Etag>, fetched: bool)
      modifies this`record, this`folder, this`server, this`handed
      ensures Now() == Model.Finished(old(Now()), me, d, status, etag, fetched)
    {
      hide Model.RetryPiece, Respects;
      if record.None? { return; }
      if d.upload.Some? && d.upload != record.value.Named() { return; }
      if record.value.kind == Kind.Upload {
        var part := d.piece + 1;
        if etag.Some? {
          folder := folder.(parts := folder.parts - {part});
          record := Some(record.value.(etags := record.value.etags[part := etag.value], failures := 0));
        } else {
          RetryPiece(me, part, status);
        }
      } else if fetched {
        folder := folder.(chunks := folder.chunks + {d.piece});
        record := Some(record.value.(fetched := record.value.fetched + {d.piece}, failures := 0));
      } else {
        RetryPiece(me, d.piece, status);
      }
      if record.value.Landed() == record.value.Total() && record.value.state == Sending {
        record := Some(record.value.(state := Finishing));
      }
    }

    // -- What the person and the account do ------------------------------------------------------------------------------------

    method CancelBegin(c: nat)
      modifies this`cancels, this`past, this`sealing, this`jobs
      ensures Now() == Model.CancelBegin(old(Now()), c)
    {
      if record.None? { return; }
      cancels := cancels[c := Cancel(record.value, false)];
      past := past.(cancelled := true);
      if sealing.Some? {
        if sealing.value in jobs { jobs := jobs[sealing.value := jobs[sealing.value].(cancelled := true)]; }
        sealing := None;
      }
    }

    method CancelDiscard(me: Option<Account>, c: nat, families: bool)
      requires c in cancels
      modifies this`cancels, this`server, this`folder
      ensures Now() == Model.CancelDiscard(old(Now()), me, c, families)
    {
      var read := cancels[c].read;
      cancels := cancels[c := Cancel(read, true)];
      if Runnable(read.owner, me) {
        server := server.Aborted(read.sealed);
        if read.family.Some? && families { folder := GONE; }
      }
    }

    method CancelEnd(c: nat)
      requires c in cancels
      modifies this`cancels, this`server, this`folder, this`record
      ensures Now() == Model.CancelEnd(old(Now()), c)
    {
      ghost var held := if record.Some? then record.value.sealed else None;
      server := server.Forgot(held, if SameUpload(held, cancels[c].read.sealed) then OtherAccount else Raced);
      cancels := cancels - {c};
      folder := GONE;
      record := None;
    }

    method Retry()
      modifies this`record, this`server
      ensures Now() == Model.Retry(old(Now()))
    {
      if record.Some? && record.value.kind == Kind.Upload && record.value.state == Failed && folder.content {
        server := server.Replaced(record.value.sealed, None);
        record := Some(record.value.(state := Waiting, sealed := None, etags := map[], expired := {}, failures := 0));
      }
    }

    /** A row taken off the panel. */
    method Dismiss()
      modifies this`record, this`folder, this`server
      ensures Now() == Model.Dismiss(old(Now()))
    {
      if record.None? || (record.value.state != Failed && record.value.state != State.Done) { return; }
      server := server.Replaced(record.value.sealed, None);
      record := None;
      folder := GONE;
    }

    method TakeNote()
      modifies this`folder
      ensures Now() == Model.TakeNote(old(Now()))
    {
      folder := folder.(note := false);
    }

    method Release()
      modifies this`folder
      ensures Now() == Model.Release(old(Now()))
    {
      if folder.there { folder := folder.(note := true); }
    }

    method FolderGone()
      modifies this`folder
      ensures Now() == Model.FolderGone(old(Now()))
    {
      folder := GONE;
    }

    /** The extension, still open, had the upload completed itself. */
    method FinishedByExtension()
      modifies this`folder, this`server, this`past
      ensures Now() == Model.FinishedByExtension(old(Now()))
    {
      if handoff.None? { return; }
      folder := GONE;
      past := past.(ended := true);
      server := server.Completed(Some(handoff.value.sealed));
    }

    /** A note found once the record had gone. */
    method Return(etags: map<int, Etag>)
      requires handoff.Some?
      modifies this`record, this`past
      ensures Now() == Model.Returned(old(Now()), etags)
    {
      var note := handoff.value;
      var state := if |etags| == note.sealed.partCount then Finishing else Sending;
      record := Some(Record(Kind.Upload, state, note.owner, note.family, Some(note.sealed), etags, None, {}, {}, 0));
      past := past.(returned := true);
    }

    method EndFamily(g: Group)
      modifies this`record, this`folder, this`server, this`sealing, this`jobs
      ensures Now() == Model.EndFamily(old(Now()), g)
    {
      if record.None? || record.value.family != Some(g) || !record.value.Active() { return; }
      if sealing.Some? {
        if sealing.value in jobs { jobs := jobs[sealing.value := jobs[sealing.value].(cancelled := true)]; }
        sealing := None;
      }
      server := server.Forgot(record.value.sealed, FamilyEnded);
      record := Some(record.value.(state := Failed, sealed := None, etags := map[]));
      folder := GONE;
    }
  }

  /** The whole queue: its transfers by id, its pass, the account signed in and the one whose data is on the phone. `queue` is it as the runs have it. */
  class TransferQueue {
    var rows: map<Id, QueuedTransfer>
    var pass: Pass
    var signedIn: Option<Account>
    var holder: Option<Account>
    ghost var queue: Queue

    /** Every row is what the run says it is, and the run keeps everything in order. */
    ghost predicate Valid()
      reads this, rows.Values
    {
      && queue.pass == pass && queue.signedIn == signedIn && queue.holder == holder && queue.transfers.Keys == rows.Keys
      && (forall id | id in rows :: rows[id].Now() == queue.transfers[id])
      && (forall a, b | a in rows && b in rows && rows[a] == rows[b] :: a == b)
      && QueueOk(queue)
    }

    constructor ()
      ensures Valid() && queue == EMPTY && fresh(rows.Values)
    {
      rows, pass, signedIn, holder, queue := map[], Idle, None, None, EMPTY;
    }

    /** Queues a file. */
    method Upload(id: Id, family: Option<Group>, copied: bool)
      requires Valid() && id !in rows
      modifies this
      ensures Valid() && queue == Next(old(queue), UploadQueued(id, family, copied)) && fresh(rows.Values - old(rows.Values))
    {
      hide QueueOk, Next, QueuedTransfer.Now, NewUpload, NewKeep, Adopted;
      NextKeeps(queue, UploadQueued(id, family, copied));
      QueuedAs(queue, UploadQueued(id, family, copied), id, NewUpload(signedIn, family, copied));
      var row := new QueuedTransfer.Upload(signedIn, family, copied);
      rows := rows[id := row];
      queue := Next(queue, UploadQueued(id, family, copied));
    }

    /** Queues a keep. */
    method Keep(id: Id)
      requires Valid() && id !in rows
      modifies this
      ensures Valid() && queue == Next(old(queue), KeepQueued(id)) && fresh(rows.Values - old(rows.Values))
    {
      hide QueueOk, Next, QueuedTransfer.Now, NewUpload, NewKeep, Adopted;
      NextKeeps(queue, KeepQueued(id));
      QueuedAs(queue, KeepQueued(id), id, NewKeep(signedIn));
      var row := new QueuedTransfer.Keep(signedIn);
      rows := rows[id := row];
      queue := Next(queue, KeepQueued(id));
    }

    /** A note of the share extension's becomes a record, or the record that had gone is back. */
    method Adopt(id: Id, family: Option<Group>, sealed: Sealed, etags: map<int, Etag>)
      requires Valid() && Enabled(queue, HandoffAdopted(id, family, sealed, etags))
      modifies this, rows.Values
      ensures Valid() && queue == Next(old(queue), HandoffAdopted(id, family, sealed, etags)) && fresh(rows.Values - old(rows.Values))
    {
      hide QueueOk, Next, Enabled, QueuedTransfer.Now;
      if id in rows { AdoptAgain(id, family, sealed, etags); } else { AdoptNew(id, family, sealed, etags); }
    }

    method AdoptNew(id: Id, family: Option<Group>, sealed: Sealed, etags: map<int, Etag>)
      requires Valid() && Enabled(queue, HandoffAdopted(id, family, sealed, etags)) && id !in rows
      modifies this
      ensures Valid() && queue == Next(old(queue), HandoffAdopted(id, family, sealed, etags)) && fresh(rows.Values - old(rows.Values))
    {
      hide QueueOk, Next, QueuedTransfer.Now, NewUpload, NewKeep, Adopted;
      NextKeeps(queue, HandoffAdopted(id, family, sealed, etags));
      QueuedAs(queue, HandoffAdopted(id, family, sealed, etags), id, Adopted(signedIn, family, sealed, etags));
      var row := new QueuedTransfer.Adopt(signedIn, family, sealed, etags);
      rows := rows[id := row];
      queue := Next(queue, HandoffAdopted(id, family, sealed, etags));
    }

    method AdoptAgain(id: Id, family: Option<Group>, sealed: Sealed, etags: map<int, Etag>)
      requires Valid() && Enabled(queue, HandoffAdopted(id, family, sealed, etags)) && id in rows
      modifies this, rows[id]
      ensures Valid() && queue == Next(old(queue), HandoffAdopted(id, family, sealed, etags)) && rows == old(rows)
    {
      hide QueueOk, Next, QueuedTransfer.Now, Model.Returned;
      NextKeeps(queue, HandoffAdopted(id, family, sealed, etags));
      ReturnedAs(queue, id, HandoffAdopted(id, family, sealed, etags));
      Noted(rows[id]);
      hide Enabled;
      rows[id].Return(etags);
      queue := Next(queue, HandoffAdopted(id, family, sealed, etags));
    }

    /** Another account is signed in: every record of the one before goes. */
    method DropOthers()
      requires Valid()
      modifies rows.Values
      ensures forall id | id in rows :: rows[id].Now() == Model.DropOther(old(rows[id].Now()), signedIn)
    {
      hide Model.DropOther, QueueOk;
      var todo := rows.Keys;
      while todo != {}
        invariant todo <= rows.Keys
        invariant forall id | id in todo :: rows[id].Now() == old(rows[id].Now())
        invariant forall id | id in rows && id !in todo :: rows[id].Now() == Model.DropOther(old(rows[id].Now()), signedIn)
      {
        var id :| id in todo;
        rows[id].DropOther(signedIn);
        todo := todo - {id};
      }
    }

    /** A pass begins, unless one runs or nobody is signed in: what is another account's goes first. */
    method BeginPass()
      requires Valid()
      modifies this, rows.Values
      ensures Valid() && queue == Next(old(queue), PassBegun) && rows == old(rows)
    {
      hide QueueOk, Next, QueuedTransfer.Now, Model.DropOther;
      NextKeeps(queue, PassBegun);
      PassBegunKeys(queue);
      forall id | id in rows { PassBegunAs(queue, id); }
      if pass == Idle && signedIn.Some? {
        DropOthers();
        pass := Scanning;
      }
      queue := Next(queue, PassBegun);
    }

    method EndPass()
      requires Valid() && pass.Scanning?
      modifies this
      ensures Valid() && queue == Next(old(queue), PassEnded) && rows == old(rows)
    {
      hide QueueOk;
      NextKeeps(queue, PassEnded);
      pass := Idle;
      queue := Next(queue, PassEnded);
    }

    /** A session is stored for the account the data was claimed for, or ends. */
    method SignIn(account: Option<Account>)
      requires Valid() && (account.Some? ==> holder == account)
      modifies this
      ensures Valid() && queue == Next(old(queue), SessionChanged(account)) && rows == old(rows)
    {
      hide QueueOk;
      NextKeeps(queue, SessionChanged(account));
      signedIn := account;
      queue := Next(queue, SessionChanged(account));
    }

    /** The account's folders go all at once; the rows stay in memory. */
    method RemoveFolders()
      modifies rows.Values
      ensures forall id | id in rows :: rows[id].Now() == Model.Wipe(old(rows[id].Now()))
    {
      forall row | row in rows.Values { row.folder := GONE; }
      forall row | row in rows.Values { row.past := row.past.(wiped := true); }
    }

    /** Signed out, removed or deleted: the account's data goes. */
    method Wipe()
      requires Valid()
      modifies this, rows.Values
      ensures Valid() && queue == Next(old(queue), Wiped) && rows == old(rows)
    {
      hide QueueOk, Next, QueuedTransfer.Now, Model.Wipe;
      NextKeeps(queue, Wiped);
      WipedAs(queue, Wiped);
      RemoveFolders();
      holder := None;
      queue := Next(queue, Wiped);
    }

    /** Before an account signs in: another's session and data go first, its own stay. */
    method Claim(who: Account)
      requires Valid()
      modifies this, rows.Values
      ensures Valid() && queue == Next(old(queue), Claimed(who)) && rows == old(rows)
    {
      hide QueueOk, QueuedTransfer.Now, Model.Wipe;
      if holder != Some(who) {
        NextKeeps(queue, Claimed(who));
        WipedAs(queue, Claimed(who));
        hide Next;
        signedIn := None;
        RemoveFolders();
        holder := Some(who);
        queue := Next(queue, Claimed(who));
      }
    }

    /** The data of a session that is signed in already gets its owner's name. */
    method Name(who: Account)
      requires Valid() && holder.None? && signedIn == Some(who)
      modifies this
      ensures Valid() && queue == Next(old(queue), Recorded(who)) && rows == old(rows)
    {
      hide QueueOk;
      NextKeeps(queue, Recorded(who));
      holder := Some(who);
      queue := Next(queue, Recorded(who));
    }

    /** Every active upload of a family fails, one row after another. */
    method EndRows(g: Group)
      requires Valid()
      modifies rows.Values
      ensures forall id | id in rows :: rows[id].Now() == Model.EndFamily(old(rows[id].Now()), g)
    {
      hide Model.EndFamily, QueueOk;
      var todo := rows.Keys;
      while todo != {}
        invariant todo <= rows.Keys
        invariant forall id | id in todo :: rows[id].Now() == old(rows[id].Now())
        invariant forall id | id in rows && id !in todo :: rows[id].Now() == Model.EndFamily(old(rows[id].Now()), g)
      {
        var id :| id in todo;
        rows[id].EndFamily(g);
        todo := todo - {id};
      }
    }

    /** This account left the family. */
    method EndFamily(g: Group)
      requires Valid()
      modifies this, rows.Values
      ensures Valid() && queue == Next(old(queue), FamilyLeft(g)) && rows == old(rows)
    {
      hide QueueOk, Next, QueuedTransfer.Now, Model.EndFamily;
      NextKeeps(queue, FamilyLeft(g));
      FamilyLeftAs(queue, g);
      EndRows(g);
      queue := Next(queue, FamilyLeft(g));
    }

    /** Whether another family upload may be sealed now. */
    method HasSlot() returns (slot: bool)
      requires Valid()
      ensures slot <==> |Sealing(queue)| < SEALING_AT_ONCE
    {
      hide QueueOk;
      var sealing := set id | id in rows && rows[id].sealing.Some?;
      assert sealing == Sealing(queue);
      slot := |sealing| < SEALING_AT_ONCE;
    }

    /** The row takes its step, the others nothing. */
    method StepRow(id: Id, one: One)
      requires Valid() && id in rows && Possible(queue, id, one)
      modifies rows[id]
      ensures rows[id].Now() == Do(queue, id, one)
      ensures forall other | other in rows && other != id :: rows[other].Now() == old(rows[other].Now())
    {
      hide QueueOk, QueuedTransfer.Now, Possible, Do;
      var slot := HasSlot();
      Perform(rows[id], queue, signedIn, slot, id, one);
    }

    /** Any step of any of its transfers, whenever it can happen: the queue stays in order. */
    method Step(id: Id, one: One)
      requires Valid() && Enabled(queue, Stepped(id, one)) && id in rows
      modifies this, rows[id]
      ensures Valid() && queue == Next(old(queue), Stepped(id, one)) && rows == old(rows)
    {
      hide QueueOk, Next, QueuedTransfer.Now, Possible, Do;
      NextKeeps(queue, Stepped(id, one));
      SteppedAs(queue, id, one);
      StepRow(id, one);
      Opened(rows[id]);
      pass := if one.Turn? && rows[id].op.Some? then Working(id) else if InPass(one) then Scanning else pass;
      queue := Next(queue, Stepped(id, one));
    }
  }

  lemma Opened(row: QueuedTransfer)
    ensures row.Now().op == row.op
  {
  }

  lemma Noted(row: QueuedTransfer)
    ensures row.Now().handoff == row.handoff
  {
  }

  /** A step of one row, from the run's queue it is in. */
  method Perform(row: QueuedTransfer, ghost q: Queue, me: Option<Account>, slot: bool, id: Id, one: One)
    requires id in q.transfers && row.Now() == q.transfers[id] && Possible(q, id, one)
    requires me == q.signedIn && (slot <==> |Sealing(q)| < SEALING_AT_ONCE)
    modifies row
    ensures row.Now() == Do(q, id, one)
  {
    if AskedFor(one) {
      PerformAsked(row, q, me, id, one);
    } else if InPass(one) {
      PerformAnswer(row, q, me, id, one);
    } else {
      hide Model.TakeLanded, Model.Visit, Model.WorkDone, Model.JobDone, Model.Finished, Sealing;
      match one {
        case Landings(landed) => row.TakeLanded(landed);
        case Turn(job, online, families, running) => row.Visit(me, job, online, families, slot, running);
        case JobWorked(j, work) => row.WorkDone(j, work);
        case JobCame(j) => row.JobDone(me, j);
        case TaskEnded(task, status, ok, fetched) =>
          row.Finished(me, task.desc, status, if ok then Some(Etag(task.desc.upload.value, task.desc.piece + 1)) else None, fetched);
      }
    }
  }

  predicate AskedFor(one: One) {
    one.CancelAsked? || one.CancelListed? || one.CancelLast? || one.RetryAsked? || one.Dismissed? || one.NoteTaken? || one.NoteReleased? || one.NoteDropped?
    || one.Swept? || one.ExtensionFinished?
  }

  /** What the person asks for, and the note. */
  method PerformAsked(row: QueuedTransfer, ghost q: Queue, me: Option<Account>, id: Id, one: One)
    requires id in q.transfers && row.Now() == q.transfers[id] && Possible(q, id, one) && me == q.signedIn
    requires AskedFor(one)
    modifies row
    ensures row.Now() == Do(q, id, one)
  {
    hide Model.CancelBegin, Model.CancelDiscard, Model.CancelEnd, Model.Retry, Model.Dismiss, Model.TakeNote, Model.Release, Model.FolderGone,
      Model.FinishedByExtension;
    match one {
      case CancelAsked(c) => row.CancelBegin(c);
      case CancelListed(c, families) => row.CancelDiscard(me, c, families);
      case CancelLast(c) => row.CancelEnd(c);
      case RetryAsked => row.Retry();
      case Dismissed => row.Dismiss();
      case NoteTaken => row.TakeNote();
      case NoteReleased => row.Release();
      case NoteDropped => row.FolderGone();
      case Swept => row.FolderGone();
      case ExtensionFinished => row.FinishedByExtension();
    }
  }

  /** What the pass waited for. */
  method PerformAnswer(row: QueuedTransfer, ghost q: Queue, me: Option<Account>, id: Id, one: One)
    requires id in q.transfers && row.Now() == q.transfers[id] && Possible(q, id, one) && me == q.signedIn && InPass(one)
    modifies row
    ensures row.Now() == Do(q, id, one)
  {
    hide Model.SealDone, Model.PlanDone, Model.RefreshDone, Model.FinishDone, Model.AssembleDone, Model.OpFailed;
    match one {
      case SealCame(sealed, kept) => row.SealDone(me, sealed, kept);
      case PlanCame(plan) => row.PlanDone(me, plan);
      case AddressesCame(renewed, running) => row.RefreshDone(me, renewed, running);
      case CompletionCame => row.FinishDone();
      case Assembled => row.AssembleDone();
      case PassFailed(passes) => row.OpFailed(me, passes);
    }
  }
}
