/**
 What becomes of a transfer's folder besides the queue's own work: the account's data going, the extension finishing its
 upload, and a folder made again once its record had gone.
 */
module TransferFolders {
  import opened Common
  import opened TransferModel
  import opened TransferInvariants
  import opened TransferRuns
  import opened TransferSafety
  import opened TransferReasons

  // -- When a folder is taken -----------------------------------------------------------------------------------------

  /** The step from `j` takes the account's data, this transfer's folder with it. */
  ghost predicate WipedAt(trace: seq<Queue>, events: seq<Event>, j: nat, id: Id)
    requires j < |trace| && j < |events|
  {
    id in trace[j].transfers && TakesData(trace[j], events[j])
  }

  /** The extension finishes this transfer's upload in the step from `j`. */
  ghost predicate EndedAt(trace: seq<Queue>, events: seq<Event>, j: nat, id: Id)
    requires j < |trace| && j < |events|
  {
    id in trace[j].transfers && events[j] == Stepped(id, ExtensionFinished)
  }

  lemma PastNext(q: Queue, e: Event, id: Id)
    requires QueueOk(q) && Enabled(q, e) && id in q.transfers
    ensures var t, r := q.transfers[id], Next(q, e).transfers[id];
            && id in Next(q, e).transfers
            && (r.past.wiped <==> t.past.wiped || TakesData(q, e))
            && (r.past.ended <==> t.past.ended || e == Stepped(id, ExtensionFinished))
            && (r.past.returned <==> t.past.returned || (e.HandoffAdopted? && e.id == id))
            && r.handoff == t.handoff
  {
    hide QueueOk, Next, Do, Possible;
    NextIs(q, e, id);
    if e.Stepped? && e.id == id {
      StepIs(q, e);
      DoRespects(q, id, e.one);
      if e.one.ExtensionFinished? { FinishedHasNote(q, id); }
    }
    hide Enabled;
  }

  lemma FinishedHasNote(q: Queue, id: Id)
    requires id in q.transfers && Possible(q, id, ExtensionFinished)
    ensures q.transfers[id].handoff.Some?
  {
  }

  lemma PastNew(q: Queue, e: Event, id: Id)
    requires Enabled(q, e) && id !in q.transfers && id in Next(q, e).transfers
    ensures var r := Next(q, e).transfers[id]; !r.past.wiped && !r.past.ended && !r.past.returned
  {
    hide Next, Enabled;
    NewIs(q, e, id);
  }

  /** A transfer lost its folder with an account's data exactly if some step took the data while it was queued. */
  lemma {:induction false} WipedExactly(trace: seq<Queue>, events: seq<Event>, i: nat, id: Id)
    requires Run(trace, events) && i < |trace| && id in trace[i].transfers
    ensures trace[i].transfers[id].past.wiped <==> exists j: nat :: j < i && WipedAt(trace, events, j, id)
  {
    hide Next, Enabled, QueueOk, TakesData;
    if i > 0 {
      RunKeeps(trace, events, i - 1);
      StepOf(trace, events, i - 1);
      if id in trace[i - 1].transfers {
        WipedExactly(trace, events, i - 1, id);
        PastNext(trace[i - 1], events[i - 1], id);
        if WipedAt(trace, events, i - 1, id) { assert trace[i].transfers[id].past.wiped; }
      } else {
        PastNew(trace[i - 1], events[i - 1], id);
        NotBefore(trace, events, i - 1, id);
      }
    } else {
      Beginning(trace, events, id);
    }
  }

  /** It lost its folder to the extension exactly if that finished its upload. */
  lemma {:induction false} EndedExactly(trace: seq<Queue>, events: seq<Event>, i: nat, id: Id)
    requires Run(trace, events) && i < |trace| && id in trace[i].transfers
    ensures trace[i].transfers[id].past.ended <==> exists j: nat :: j < i && EndedAt(trace, events, j, id)
  {
    hide Next, Enabled, QueueOk;
    if i > 0 {
      RunKeeps(trace, events, i - 1);
      StepOf(trace, events, i - 1);
      if id in trace[i - 1].transfers {
        EndedExactly(trace, events, i - 1, id);
        PastNext(trace[i - 1], events[i - 1], id);
        if EndedAt(trace, events, i - 1, id) { assert trace[i].transfers[id].past.ended; }
      } else {
        PastNew(trace[i - 1], events[i - 1], id);
        NotBefore(trace, events, i - 1, id);
      }
    } else {
      Beginning(trace, events, id);
    }
  }

  lemma Beginning(trace: seq<Queue>, events: seq<Event>, id: Id)
    requires Run(trace, events)
    ensures id !in trace[0].transfers
  {
  }

  /** A transfer that is there was, ever since it was queued. */
  lemma {:induction false} NotBefore(trace: seq<Queue>, events: seq<Event>, i: nat, id: Id)
    requires Run(trace, events) && i < |trace| && id !in trace[i].transfers
    ensures forall j: nat | j <= i :: id !in trace[j].transfers
  {
    hide Next, Enabled;
    if i > 0 {
      StepOf(trace, events, i - 1);
      if id in trace[i - 1].transfers { NextIs(trace[i - 1], events[i - 1], id); }
      NotBefore(trace, events, i - 1, id);
    }
  }

  // -- Another account's plaintext -----------------------------------------------------------------------------------

  /** The data on the phone is this owner's or nobody's, and so is the session. */
  predicate HeldFor(q: Queue, owner: Option<Account>) {
    (q.holder.None? || q.holder == owner) && (q.signedIn.None? || q.signedIn == owner)
  }

  ghost predicate Housed(q: Queue) {
    && (q.signedIn.Some? ==> HeldFor(q, q.signedIn))
    && forall id | id in q.transfers :: Belongs(q, q.transfers[id])
  }

  /** A record of an account that still has its folder has it while the data is that account's. */
  ghost predicate Belongs(q: Queue, t: Transfer) {
    t.record.Some? && t.record.value.owner.Some? && !t.past.wiped ==> HeldFor(q, t.record.value.owner)
  }

  lemma OwnerNext(q: Queue, e: Event, id: Id)
    requires QueueOk(q) && Enabled(q, e) && id in q.transfers
    ensures id in Next(q, e).transfers
    ensures var t, r := q.transfers[id], Next(q, e).transfers[id];
            r.record.Some? ==> (t.record.Some? && r.record.value.owner == t.record.value.owner) || (Adoptable(q, id) && r.record.value.owner == q.signedIn)
  {
    hide QueueOk, Next, Do, Possible;
    NextIs(q, e, id);
    if e.Stepped? && e.id == id {
      StepIs(q, e);
      if e.one.CancelLast? { LastIs(q, id, e.one); } else { DoFair(q, id, e.one); }
    }
    if e.FamilyLeft? { EndFamilyFair(q.transfers[id], e.g); }
    if e.PassBegun? { DropOtherFair(q.transfers[id], q.signedIn); }
    hide Enabled, LosesFairly, EndFamily, DropOther, CancelEnd;
  }

  lemma HousedNext(q: Queue, e: Event)
    requires QueueOk(q) && Housed(q) && Enabled(q, e)
    ensures Housed(Next(q, e))
  {
    var r := Next(q, e);
    SessionNext(q, e);
    forall id | id in r.transfers ensures Belongs(r, r.transfers[id]) {
      hide QueueOk, Next;
      if id in q.transfers {
        assert Belongs(q, q.transfers[id]);
        PastNext(q, e, id);
        OwnerNext(q, e, id);
      } else {
        NewIs(q, e, id);
      }
      hide Enabled;
    }
  }

  /** Data that stays, and the session with it, are the account's there was, or of a session there is. */
  lemma SessionNext(q: Queue, e: Event)
    requires Enabled(q, e) && (q.signedIn.Some? ==> HeldFor(q, q.signedIn))
    ensures var r := Next(q, e);
            && (r.signedIn.Some? ==> HeldFor(r, r.signedIn))
            && (!TakesData(q, e) ==> forall owner: Option<Account> | owner.Some? && HeldFor(q, owner) :: HeldFor(r, owner))
  {
    hide Wipe, DropOther, EndFamily, Do, Adopted, Returned, NewUpload, NewKeep;
  }

  lemma {:induction false} RunHouses(trace: seq<Queue>, events: seq<Event>, i: nat)
    requires Run(trace, events) && i < |trace|
    ensures Housed(trace[i])
  {
    if i > 0 {
      hide Next, Enabled, QueueOk;
      RunHouses(trace, events, i - 1);
      RunKeeps(trace, events, i - 1);
      StepOf(trace, events, i - 1);
      hide Housed;
      HousedNext(trace[i - 1], events[i - 1]);
    }
  }

  /** Once someone is signed in, no plaintext and no sealed part of another account's uploads is on the phone. */
  lemma AnothersPlaintextIsGone(trace: seq<Queue>, events: seq<Event>, i: nat, id: Id)
    requires Run(trace, events) && i < |trace| && id in trace[i].transfers
    requires var t := trace[i].transfers[id];
             trace[i].signedIn.Some? && t.record.Some? && t.record.value.owner.Some? && t.record.value.owner != trace[i].signedIn
    ensures var t := trace[i].transfers[id];
            t.past.wiped && !t.folder.content && t.folder.parts == {}
  {
    RunHouses(trace, events, i);
    RunKeeps(trace, events, i);
    assert Belongs(trace[i], trace[i].transfers[id]);
    assert Ok(trace[i].transfers[id]);
  }

  // -- Records that come back ----------------------------------------------------------------------------------------

  /** The record went in the step to `g`, and none came back up to `k`. */
  ghost predicate GoneFrom(trace: seq<Queue>, g: nat, k: nat, id: Id) {
    && 0 < g <= k < |trace| && id in trace[g - 1].transfers && trace[g - 1].transfers[id].record.Some?
    && forall m: nat | g <= m <= k :: id in trace[m].transfers && trace[m].transfers[id].record.None?
  }

  /** The folder is made again in the step from `j`. */
  ghost predicate MadeAgain(trace: seq<Queue>, j: nat, id: Id) {
    && j + 1 < |trace| && id in trace[j].transfers && id in trace[j + 1].transfers
    && !trace[j].transfers[id].folder.there && trace[j + 1].transfers[id].folder.there
  }

  /** What one step makes of the folder of a record that is gone. */
  lemma FolderNext(q: Queue, e: Event, id: Id)
    requires QueueOk(q) && Enabled(q, e) && id in q.transfers && q.transfers[id].record.None?
    ensures id in Next(q, e).transfers
    ensures var t, r := q.transfers[id], Next(q, e).transfers[id];
            r.record.None? ==>
              && (r.folder.note ==> r.folder.there && (t.folder.note || (e == Stepped(id, NoteReleased) && t.folder.there)))
              && (r.folder.there && (t.folder.note || (e == Stepped(id, NoteReleased) && t.folder.there)) ==> r.folder.note)
  {
    assert Ok(q.transfers[id]);
    hide QueueOk, Next, Do, Possible;
    NextIs(q, e, id);
    hide Ok;
    if e.Stepped? && e.id == id {
      StepIs(q, e);
      GoneStep(q, id, e.one);
    }
    hide Enabled;
  }

  /** The folder's note stays as long as the folder does, and comes only by a release into it. */
  ghost predicate NoteStays(t: Transfer, r: Transfer, released: bool) {
    && (r.folder.note ==> r.folder.there && (t.folder.note || (released && t.folder.there)))
    && (r.folder.there && (t.folder.note || (released && t.folder.there)) ==> r.folder.note)
  }

  lemma GoneStep(q: Queue, id: Id, one: One)
    requires id in q.transfers && Possible(q, id, one) && Ok(q.transfers[id]) && q.transfers[id].record.None?
    ensures NoteStays(q.transfers[id], Do(q, id, one), one.NoteReleased?)
  {
    var t := q.transfers[id];
    assert (t.folder.note ==> t.folder.there) && !t.folder.content;
    hide Ok, Possible, Do;
    if InPass(one) { GoneAnswer(q, id, one); }
    else if one.JobWorked? || one.JobCame? || one.TaskEnded? || one.Turn? || one.Landings? { GoneCall(q, id, one); }
    else { GoneAsked(q, id, one); }
  }

  lemma GoneAnswer(q: Queue, id: Id, one: One)
    requires id in q.transfers && Possible(q, id, one) && InPass(one)
    requires var t := q.transfers[id]; t.record.None? && (t.folder.note ==> t.folder.there) && !t.folder.content
    ensures NoteStays(q.transfers[id], Do(q, id, one), false)
  {
    hide Start, WorkDone, JobDone, Finished, Visit, Sealing, FreshUpload;
  }

  lemma GoneCall(q: Queue, id: Id, one: One)
    requires id in q.transfers && Possible(q, id, one) && (one.JobWorked? || one.JobCame? || one.TaskEnded? || one.Turn? || one.Landings?)
    requires var t := q.transfers[id]; t.record.None? && (t.folder.note ==> t.folder.there) && !t.folder.content
    ensures NoteStays(q.transfers[id], Do(q, id, one), false)
  {
    hide Start, Apply, Sealing, FreshUpload, RetryPiece, Arrive, BeginJob;
  }

  lemma GoneAsked(q: Queue, id: Id, one: One)
    requires id in q.transfers && Possible(q, id, one) && !InPass(one)
    requires !one.JobWorked? && !one.JobCame? && !one.TaskEnded? && !one.Turn? && !one.Landings?
    requires var t := q.transfers[id]; t.record.None? && (t.folder.note ==> t.folder.there) && !t.folder.content
    ensures NoteStays(q.transfers[id], Do(q, id, one), one.NoteReleased?)
  {
  }

  lemma GoneStart(q: Queue, e: Event, id: Id)
    requires QueueOk(q) && Enabled(q, e) && id in q.transfers && q.transfers[id].record.Some? && id in Next(q, e).transfers
    requires Next(q, e).transfers[id].record.None?
    ensures Next(q, e).transfers[id].folder == GONE
  {
    hide QueueOk, Next, Do, Possible;
    NextIs(q, e, id);
    if e.Stepped? && e.id == id {
      StepIs(q, e);
      if e.one.CancelLast? { LastIs(q, id, e.one); } else { DoFair(q, id, e.one); DismissedIs(q, id, e.one); }
    }
    hide Enabled, Fair;
  }

  lemma DismissedIs(q: Queue, id: Id, one: One)
    requires id in q.transfers && Possible(q, id, one)
    ensures one.Dismissed? ==> Do(q, id, one) == Dismiss(q.transfers[id])
  {
    hide Dismiss;
  }

  /** Made again in the step from `j`, not before `g`, and there since. */
  ghost predicate MadeSince(trace: seq<Queue>, g: nat, j: nat, k: nat, id: Id) {
    && g <= j < k < |trace| && MadeAgain(trace, j, id)
    && forall m: nat | j < m <= k :: id in trace[m].transfers && trace[m].transfers[id].folder.there
  }

  /** And in the step from `r` the extension let go of its note, into that folder. */
  ghost predicate ReleasedSince(trace: seq<Queue>, events: seq<Event>, g: nat, j: nat, r: nat, k: nat, id: Id) {
    MadeSince(trace, g, j, k, id) && j < r < k && r < |events| && events[r] == Stepped(id, NoteReleased)
  }

  /** A folder of a record gone is there exactly when it was made again. */
  lemma {:induction false} FolderOfTheGoneExactly(trace: seq<Queue>, events: seq<Event>, g: nat, k: nat, id: Id)
    requires Run(trace, events) && GoneFrom(trace, g, k, id)
    ensures trace[k].transfers[id].folder.there <==> exists j: nat :: MadeSince(trace, g, j, k, id)
    decreases k
  {
    if k == g {
      GoneBegins(trace, events, g, id);
    } else if trace[k].transfers[id].folder.there {
      assert GoneFrom(trace, g, k - 1, id);
      FolderOfTheGoneExactly(trace, events, g, k - 1, id);
      if trace[k - 1].transfers[id].folder.there {
        var j: nat :| MadeSince(trace, g, j, k - 1, id);
        assert MadeSince(trace, g, j, k, id);
      } else {
        assert MadeSince(trace, g, k - 1, k, id);
      }
    }
  }

  lemma GoneBegins(trace: seq<Queue>, events: seq<Event>, g: nat, id: Id)
    requires Run(trace, events) && GoneFrom(trace, g, g, id)
    ensures trace[g].transfers[id].folder == GONE
  {
    hide Next, Enabled, QueueOk;
    RunKeeps(trace, events, g - 1);
    StepOf(trace, events, g - 1);
    GoneStart(trace[g - 1], events[g - 1], id);
  }

  /** It has a note exactly when the folder was made again and a note then released into it. */
  lemma {:induction false} NoteOfTheGoneExactly(trace: seq<Queue>, events: seq<Event>, g: nat, k: nat, id: Id)
    requires Run(trace, events) && GoneFrom(trace, g, k, id)
    ensures trace[k].transfers[id].folder.note <==> exists j: nat, r: nat :: ReleasedSince(trace, events, g, j, r, k, id)
    decreases k
  {
    hide Next, Enabled, QueueOk, MadeAgain;
    if k == g {
      GoneBegins(trace, events, g, id);
    } else {
      RunKeeps(trace, events, k - 1);
      StepOf(trace, events, k - 1);
      assert GoneFrom(trace, g, k - 1, id);
      NoteOfTheGoneExactly(trace, events, g, k - 1, id);
      FolderOfTheGoneExactly(trace, events, g, k - 1, id);
      FolderNext(trace[k - 1], events[k - 1], id);
      hide Run;
      var before := k - 1;
      assert forall j: nat, r: nat | ReleasedSince(trace, events, g, j, r, k, id) && r < before :: ReleasedSince(trace, events, g, j, r, before, id);
      if trace[k].transfers[id].folder.note {
        if trace[k - 1].transfers[id].folder.note {
          var j: nat, r: nat :| ReleasedSince(trace, events, g, j, r, k - 1, id);
          assert ReleasedSince(trace, events, g, j, r, k, id);
        } else {
          var j: nat :| MadeSince(trace, g, j, k - 1, id);
          assert ReleasedSince(trace, events, g, j, k - 1, k, id);
        }
      }
    }
  }

  /**
   A record gone comes back exactly in a step that adopts it, and one can adopt it exactly when its folder was made again
   since it went, a note then released into it, and the note's account is signed in. Until then nothing is handed over.
   */
  lemma AGoneRecordReturnsExactly(trace: seq<Queue>, events: seq<Event>, g: nat, k: nat, id: Id)
    requires Run(trace, events) && GoneFrom(trace, g, k, id) && k < |events|
    ensures var t := trace[k].transfers[id];
            Adoptable(trace[k], id) <==>
              && (exists j: nat, r: nat :: ReleasedSince(trace, events, g, j, r, k, id))
              && t.handoff.Some? && trace[k].signedIn.Some? && trace[k].signedIn == t.handoff.value.owner
    ensures id in trace[k + 1].transfers
    ensures trace[k + 1].transfers[id].record.Some? <==> events[k].HandoffAdopted? && events[k].id == id
    ensures events[k].HandoffAdopted? && events[k].id == id ==> Adoptable(trace[k], id)
    ensures trace[k + 1].transfers[id].handed == trace[k].transfers[id].handed
  {
    NoteOfTheGoneExactly(trace, events, g, k, id);
    RunKeeps(trace, events, k);
    StepOf(trace, events, k);
    ReturnNext(trace[k], events[k], id);
  }

  lemma ReturnNext(q: Queue, e: Event, id: Id)
    requires QueueOk(q) && Enabled(q, e) && id in q.transfers && q.transfers[id].record.None?
    ensures id in Next(q, e).transfers
    ensures Next(q, e).transfers[id].record.Some? <==> e.HandoffAdopted? && e.id == id
    ensures e.HandoffAdopted? && e.id == id ==> Adoptable(q, id)
    ensures Next(q, e).transfers[id].handed == q.transfers[id].handed
  {
    hide QueueOk, Next, Do, Possible;
    NextIs(q, e, id);
    if e.Stepped? && e.id == id {
      StepIs(q, e);
      DoRespects(q, id, e.one);
    }
  }
}
