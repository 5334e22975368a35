/**
 What changes of the notes, the part files and the records, field by field: what adopting makes of each note it finds,
 and what every other step does.
 */
module HandoffChanges {
  import opened Common
  import opened Handoff

  // -- Adopting ------------------------------------------------------------------------------------------------------------

  /** Notes found one by one, each once. */
  predicate Found(p: Progress, seen: seq<Id>) {
    (forall i, j | 0 <= i < j < |seen| :: seen[i] != seen[j]) && forall i | 0 <= i < |seen| :: seen[i] in p.disk.notes
  }

  /** The note is found, has no record yet, and is of the account signed in. */
  predicate Joins(p: Progress, seen: seq<Id>, me: Option<Account>, id: Id) {
    id in seen && id !in IdsOf(p.rows) && me.Some? && id in p.disk.notes && p.disk.notes[id].owner == me
  }

  /** The same, but of another account than the one signed in. */
  predicate Drops(p: Progress, seen: seq<Id>, me: Option<Account>, id: Id) {
    id in seen && id !in IdsOf(p.rows) && me.Some? && id in p.disk.notes && p.disk.notes[id].owner != me
  }

  /** A record of what its note says, with an ETag of exactly the parts whose files are there. */
  ghost predicate OfItsNote(disk: Disk, row: Row) {
    && row.id in disk.notes && row.upload == disk.notes[row.id].upload && row.total == disk.notes[row.id].partCount
    && (forall part :: part in row.etags <==> File(row.id, row.upload, part) in disk.files)
    && (forall part | part in row.etags :: row.etags[part] == disk.files[File(row.id, row.upload, part)])
    && (row.sending <==> |row.etags| != row.total)
  }

  /** What went with the folders of another account's notes. */
  ghost predicate FoldersGo(p: Progress, seen: seq<Id>, me: Option<Account>, q: Progress) {
    && q.disk.saved == p.disk.saved
    && (forall id :: id in q.dropped <==> id in p.dropped || Drops(p, seen, me, id))
    && (forall id :: id in q.disk.notes <==> id in p.disk.notes && !Drops(p, seen, me, id))
    && (forall id | id in q.disk.notes :: q.disk.notes[id] == p.disk.notes[id])
    && (forall f :: f in q.disk.files <==> f in p.disk.files && !Drops(p, seen, me, f.id))
    && (forall f | f in q.disk.files :: q.disk.files[f] == p.disk.files[f])
  }

  /** What is let go of once the records are written. */
  ghost predicate LetGo(p: Progress, seen: seq<Id>, me: Option<Account>, q: Progress) {
    && (forall id :: NoteOf(id) in q.taken <==> NoteOf(id) in p.taken || (id in seen && id in IdsOf(p.rows)) || Joins(p, seen, me, id))
    && (forall f :: PartOf(f) in q.taken <==>
          PartOf(f) in p.taken || (Joins(p, seen, me, f.id) && f in p.disk.files && f.upload == p.disk.notes[f.id].upload))
  }

  /** The records there were, and after them one of each note that joins. */
  ghost predicate RecordsJoin(p: Progress, seen: seq<Id>, me: Option<Account>, q: Progress) {
    NewRecords(p, seen, me, q.rows) && forall id :: id in IdsOf(q.rows) <==> id in IdsOf(p.rows) || Joins(p, seen, me, id)
  }

  ghost predicate NewRecords(p: Progress, seen: seq<Id>, me: Option<Account>, rows: seq<Row>) {
    && p.rows <= rows
    && (forall k | |p.rows| <= k < |rows| :: Joins(p, seen, me, rows[k].id) && OfItsNote(p.disk, rows[k]))
    && (forall i, j | |p.rows| <= i < j < |rows| :: rows[i].id != rows[j].id)
  }

  lemma FoundBefore(p: Progress, seen: seq<Id>)
    requires Found(p, seen) && seen != []
    ensures var before, last := seen[..|seen| - 1], seen[|seen| - 1];
            Found(p, before) && last !in before && seen == before + [last] && last in p.disk.notes
  {
    var before := seen[..|seen| - 1];
    assert forall i | 0 <= i < |before| :: before[i] == seen[i];
  }

  /** Whose turn it is makes no difference to what the others come to. */
  lemma TurnsApart(p: Progress, seen: seq<Id>, me: Option<Account>, id: Id)
    requires Found(p, seen) && seen != []
    ensures var before, last := seen[..|seen| - 1], seen[|seen| - 1];
            && (id != last ==> (Joins(p, seen, me, id) <==> Joins(p, before, me, id)) && (Drops(p, seen, me, id) <==> Drops(p, before, me, id)))
            && !Joins(p, before, me, last) && !Drops(p, before, me, last)
            && (id in seen <==> id in before || id == last)
  {
    FoundBefore(p, seen);
  }

  lemma LastTurn(p: Progress, seen: seq<Id>, me: Option<Account>)
    requires Found(p, seen) && seen != []
    ensures var before, last := seen[..|seen| - 1], seen[|seen| - 1];
            Found(p, before) && last in AdoptAll(p, before, me).disk.notes && AdoptAll(p, seen, me) == AdoptOne(AdoptAll(p, before, me), last, me)
  {
    FoundBefore(p, seen);
    hide AdoptOne;
  }

  lemma {:induction false} NoteFate(p: Progress, seen: seq<Id>, me: Option<Account>, id: Id)
    requires Found(p, seen)
    ensures var q := AdoptAll(p, seen, me);
            && q.disk.saved == p.disk.saved && (id in q.dropped <==> id in p.dropped || Drops(p, seen, me, id))
            && (id in q.disk.notes <==> id in p.disk.notes && !Drops(p, seen, me, id)) && (id in q.disk.notes ==> q.disk.notes[id] == p.disk.notes[id])
  {
    if seen != [] {
      var before, last := seen[..|seen| - 1], seen[|seen| - 1];
      LastTurn(p, seen, me);
      TurnsApart(p, seen, me, id);
      FoundBefore(p, seen);
      NoteFate(p, before, me, id);
      if id == last { OwnNotesJoin(p, before, me, last); }
      OneFolder(AdoptAll(p, before, me), last, me);
      hide AdoptOne, AdoptAll, Found, IdsOf, Joins;
    }
  }

  lemma {:induction false} FileFate(p: Progress, seen: seq<Id>, me: Option<Account>, f: File)
    requires Found(p, seen)
    ensures var q := AdoptAll(p, seen, me);
            (f in q.disk.files <==> f in p.disk.files && !Drops(p, seen, me, f.id)) && (f in q.disk.files ==> q.disk.files[f] == p.disk.files[f])
  {
    if seen != [] {
      var before, last := seen[..|seen| - 1], seen[|seen| - 1];
      LastTurn(p, seen, me);
      TurnsApart(p, seen, me, f.id);
      FoundBefore(p, seen);
      FileFate(p, before, me, f);
      NoteFate(p, before, me, last);
      OwnNotesJoin(p, before, me, last);
      OneFolder(AdoptAll(p, before, me), last, me);
      hide AdoptOne, AdoptAll, Found, IdsOf, Joins;
    }
  }

  lemma FoldersGoWithTheirNotes(p: Progress, seen: seq<Id>, me: Option<Account>)
    requires Found(p, seen)
    ensures FoldersGo(p, seen, me, AdoptAll(p, seen, me))
  {
    hide AdoptAll, Drops, Found, IdsOf;
    NoteFate(p, seen, me, 0);
    forall id {
      NoteFate(p, seen, me, id);
    }
    forall f {
      FileFate(p, seen, me, f);
    }
  }

  lemma OneFolder(p: Progress, id: Id, me: Option<Account>)
    requires id in p.disk.notes
    ensures var q, drops := AdoptOne(p, id, me), id !in IdsOf(p.rows) && me.Some? && p.disk.notes[id].owner != me;
            && q.disk.saved == p.disk.saved && q.dropped == p.dropped + (if drops then {id} else {})
            && q.disk.notes == (if drops then p.disk.notes - {id} else p.disk.notes)
            && q.disk.files == (if drops then map f | f in p.disk.files && f.id != id :: p.disk.files[f] else p.disk.files)
  {
  }

  /** A note's own files are there until its turn, if no turn before was another of its kind. */
  lemma ItsFilesWait(p: Progress, before: seq<Id>, me: Option<Account>, last: Id)
    requires Found(p, before) && last !in before && last in p.disk.notes
    ensures var q := AdoptAll(p, before, me);
            && last in q.disk.notes && q.disk.notes[last] == p.disk.notes[last]
            && (forall f: File | f.id == last :: f in q.disk.files <==> f in p.disk.files)
            && (forall f: File | f.id == last && f in q.disk.files :: q.disk.files[f] == p.disk.files[f])
            && (last in IdsOf(q.rows) <==> last in IdsOf(p.rows))
  {
    FoldersGoWithTheirNotes(p, before, me);
    OwnNotesJoin(p, before, me, last);
    assert !Drops(p, before, me, last);
    hide AdoptAll;
  }

  lemma OneLetGo(p: Progress, id: Id, me: Option<Account>)
    requires id in p.disk.notes
    ensures var q, joins := AdoptOne(p, id, me), id !in IdsOf(p.rows) && me.Some? && p.disk.notes[id].owner == me;
            && (forall other :: NoteOf(other) in q.taken <==> NoteOf(other) in p.taken || (other == id && (id in IdsOf(p.rows) || joins)))
            && (forall f :: PartOf(f) in q.taken <==>
                  PartOf(f) in p.taken || (joins && f.id == id && f in p.disk.files && f.upload == p.disk.notes[id].upload))
  {
    hide Joined, IdsOf;
  }

  lemma {:induction false} NoteIsLetGo(p: Progress, seen: seq<Id>, me: Option<Account>, id: Id)
    requires Found(p, seen)
    ensures NoteOf(id) in AdoptAll(p, seen, me).taken <==> NoteOf(id) in p.taken || (id in seen && id in IdsOf(p.rows)) || Joins(p, seen, me, id)
  {
    if seen != [] {
      var before, last := seen[..|seen| - 1], seen[|seen| - 1];
      LastTurn(p, seen, me);
      TurnsApart(p, seen, me, id);
      FoundBefore(p, seen);
      NoteIsLetGo(p, before, me, id);
      ItsFilesWait(p, before, me, last);
      OneLetGo(AdoptAll(p, before, me), last, me);
      hide AdoptOne, AdoptAll, Found, IdsOf, Drops;
    }
  }

  lemma {:induction false} PartIsLetGo(p: Progress, seen: seq<Id>, me: Option<Account>, f: File)
    requires Found(p, seen)
    ensures PartOf(f) in AdoptAll(p, seen, me).taken <==>
              PartOf(f) in p.taken || (Joins(p, seen, me, f.id) && f in p.disk.files && f.upload == p.disk.notes[f.id].upload)
  {
    if seen != [] {
      var before, last := seen[..|seen| - 1], seen[|seen| - 1];
      LastTurn(p, seen, me);
      TurnsApart(p, seen, me, f.id);
      FoundBefore(p, seen);
      PartIsLetGo(p, before, me, f);
      ItsFilesWait(p, before, me, last);
      OneLetGo(AdoptAll(p, before, me), last, me);
      hide AdoptOne, AdoptAll, Found, IdsOf, Drops;
    }
  }

  lemma NotesAndPartsAreLetGo(p: Progress, seen: seq<Id>, me: Option<Account>)
    requires Found(p, seen)
    ensures LetGo(p, seen, me, AdoptAll(p, seen, me))
  {
    hide AdoptAll, Joins, Found, IdsOf;
    forall id {
      NoteIsLetGo(p, seen, me, id);
    }
    forall f {
      PartIsLetGo(p, seen, me, f);
    }
  }

  lemma JoinedIs(disk: Disk, files: map<File, nat>, id: Id)
    requires id in disk.notes
    requires forall f: File | f.id == id :: f in files <==> f in disk.files
    requires forall f: File | f.id == id && f in files :: files[f] == disk.files[f]
    ensures OfItsNote(disk, Joined(id, disk.notes[id], files)) && Joined(id, disk.notes[id], files).id == id
  {
    var row := Joined(id, disk.notes[id], files);
    assert row.etags == LandedParts(files, id, row.upload);
    forall part ensures part in row.etags <==> File(id, row.upload, part) in disk.files {
      assert File(id, row.upload, part).id == id;
    }
    forall part | part in row.etags ensures row.etags[part] == disk.files[File(id, row.upload, part)] {
      assert File(id, row.upload, part).id == id;
    }
  }

  /** One record more after those that joined. */
  lemma OneRecordMore(p: Progress, seen: seq<Id>, me: Option<Account>, rows: seq<Row>, row: Row)
    requires Found(p, seen) && seen != [] && NewRecords(p, seen[..|seen| - 1], me, rows)
    requires var last := seen[|seen| - 1]; Joins(p, seen, me, last) && OfItsNote(p.disk, row) && row.id == last
    ensures NewRecords(p, seen, me, rows + [row])
  {
    SameRecords(p, seen, me, rows);
    forall k | |p.rows| <= k < |rows| ensures rows[k].id != row.id {
      assert Joins(p, seen[..|seen| - 1], me, rows[k].id);
      TurnsApart(p, seen, me, rows[k].id);
    }
    hide Found, Joins, IdsOf, OfItsNote;
  }

  lemma SameRecords(p: Progress, seen: seq<Id>, me: Option<Account>, rows: seq<Row>)
    requires Found(p, seen) && seen != [] && NewRecords(p, seen[..|seen| - 1], me, rows)
    ensures NewRecords(p, seen, me, rows)
  {
    hide Found, Joins, IdsOf, OfItsNote;
    forall k | |p.rows| <= k < |rows| ensures Joins(p, seen, me, rows[k].id) {
      assert Joins(p, seen[..|seen| - 1], me, rows[k].id);
      TurnsApart(p, seen, me, rows[k].id);
    }
  }

  lemma RecordOrNote(p: Progress, seen: seq<Id>, me: Option<Account>)
    requires Found(p, seen)
    ensures forall id :: id in IdsOf(AdoptAll(p, seen, me).rows) <==> id in IdsOf(p.rows) || Joins(p, seen, me, id)
  {
    hide AdoptAll, IdsOf;
    forall id ensures id in IdsOf(AdoptAll(p, seen, me).rows) <==> id in IdsOf(p.rows) || Joins(p, seen, me, id) {
      OwnNotesJoin(p, seen, me, id);
    }
  }

  lemma OneNoteMore(p: Progress, seen: seq<Id>, me: Option<Account>)
    requires Found(p, seen) && seen != [] && NewRecords(p, seen[..|seen| - 1], me, AdoptAll(p, seen[..|seen| - 1], me).rows)
    ensures NewRecords(p, seen, me, AdoptAll(p, seen, me).rows)
  {
    hide AdoptOne, AdoptAll, NewRecords, OfItsNote, Joined;
    var before, last := seen[..|seen| - 1], seen[|seen| - 1];
    var q := AdoptAll(p, before, me);
    LastTurn(p, seen, me);
    FoundBefore(p, seen);
    ItsFilesWait(p, before, me, last);
    OneRow(q, last, me);
    JoinedIs(p.disk, q.disk.files, last);
    assert Joins(p, seen, me, last) <==> last !in IdsOf(p.rows) && me.Some? && p.disk.notes[last].owner == me;
    hide IdsOf, Found, Joins;
    if Joins(p, seen, me, last) {
      OneRecordMore(p, seen, me, q.rows, Joined(last, q.disk.notes[last], q.disk.files));
    } else {
      SameRecords(p, seen, me, q.rows);
    }
  }

  lemma {:induction false} NotesBecomeRecords(p: Progress, seen: seq<Id>, me: Option<Account>)
    requires Found(p, seen)
    ensures NewRecords(p, seen, me, AdoptAll(p, seen, me).rows)
  {
    if seen == [] {
      assert AdoptAll(p, seen, me) == p;
    } else {
      FoundBefore(p, seen);
      NotesBecomeRecords(p, seen[..|seen| - 1], me);
      hide AdoptAll, NewRecords, IdsOf;
      OneNoteMore(p, seen, me);
    }
  }

  lemma OneRow(p: Progress, id: Id, me: Option<Account>)
    requires id in p.disk.notes
    ensures AdoptOne(p, id, me).rows ==
              if id !in IdsOf(p.rows) && me.Some? && p.disk.notes[id].owner == me then p.rows + [Joined(id, p.disk.notes[id], p.disk.files)] else p.rows
  {
    hide Joined, IdsOf;
  }

  /**
   Adopting, note by note whatever their order: with its record there already a note is only let go of; of the account
   signed in it becomes a record with exactly the parts noted so far, and note and files are let go of; of another
   account it goes at once with its folder; with nobody signed in it waits.
   */
  lemma AdoptionIs(a: App, seen: seq<Id>)
    requires Enabled(a, AdoptBegun(seen))
    ensures var p, b := Progress(a.rows, a.disk, {}, a.dropped), Next(a, AdoptBegun(seen));
            && b.phase.Writing?
            && var q := Progress(b.rows, b.disk, b.phase.taken, b.dropped);
               FoldersGo(p, seen, a.me, q) && LetGo(p, seen, a.me, q) && RecordsJoin(p, seen, a.me, q)
  {
    var p := Progress(a.rows, a.disk, {}, a.dropped);
    hide AdoptAll, FoldersGo, LetGo, NewRecords, HasPart;
    var b := Next(a, AdoptBegun(seen));
    assert Progress(b.rows, b.disk, b.phase.taken, b.dropped) == AdoptAll(p, seen, a.me);
    assert Found(p, seen);
    hide Next, Enabled, Found;
    FoldersGoWithTheirNotes(p, seen, a.me);
    NotesAndPartsAreLetGo(p, seen, a.me);
    NotesBecomeRecords(p, seen, a.me);
    RecordOrNote(p, seen, a.me);
    hide IdsOf, Joins;
  }

  // -- Every other step ------------------------------------------------------------------------------------------------------

  /** The step removes this folder: its upload ended here or in the extension, or nothing owns it. */
  predicate FolderGoes(a: App, e: Event, id: Id) {
    (e.FinishedByExtension? && e.id == id) || (e.Swept? && e.id == id) || (e.Ended? && e.at < |a.rows| && a.rows[e.at].id == id)
  }

  /** The step removes the data of the account it was. */
  predicate DataGoes(a: App, e: Event) {
    e.DataWiped? || (e.Claimed? && (a.holder.None? || a.holder.value != e.who))
  }

  lemma NotesMoveSo(a: App, e: Event, id: Id)
    requires Enabled(a, e) && !e.AdoptBegun?
    ensures var notes := Next(a, e).disk.notes;
            var written := (e.NoteWritten? || e.NoteReleased?) && e.id == id;
            && (id in notes <==> written || (id in a.disk.notes && e != Removed(NoteOf(id)) && !FolderGoes(a, e, id) && !DataGoes(a, e)))
            && (id in notes ==> notes[id] == if !written then a.disk.notes[id] else if e.NoteWritten? then e.note else a.written[id])
  {
  }

  /** The queue took what the extension had noted of this file's part. */
  predicate TakesFile(a: App, e: Event, file: File) {
    e.Taken? && e.at < |a.rows| && a.rows[e.at].id == file.id && a.rows[e.at].upload == file.upload
  }

  lemma FilesMoveSo(a: App, e: Event, file: File)
    requires Enabled(a, e) && !e.AdoptBegun?
    ensures var files := Next(a, e).disk.files;
            var noted := e.PartNoted? && e.file == file;
            && (file in files <==>
                  noted || (file in a.disk.files && e != Removed(PartOf(file)) && !TakesFile(a, e, file) && !FolderGoes(a, e, file.id) && !DataGoes(a, e)))
            && (file in files ==> files[file] == if noted then e.etag else a.disk.files[file])
  {
  }

  /** What is on disk of the records is what was in memory at the last write of them that worked. */
  lemma SavedMovesSo(a: App, e: Event)
    requires Enabled(a, e) && !e.AdoptBegun?
    ensures Next(a, e).disk.saved == if (e.Saved? || e.QueueSaved?) && e.worked then a.rows else if DataGoes(a, e) then [] else a.disk.saved
  {
  }

  /** What becomes of the records in memory, each told by what its parts become. */
  lemma RowsMoveSo(a: App, e: Event)
    requires Enabled(a, e) && !e.AdoptBegun?
    ensures var rows := Next(a, e).rows;
            && (e.Killed? ==> rows == a.disk.saved)
            && (e.Ended? ==> |rows| == |a.rows| - 1 && forall k | 0 <= k < |rows| :: rows[k] == a.rows[if k < e.at then k else k + 1])
            && (e.Taken? || e.PartLanded? || e.SealedAgain? ==>
                  |rows| == |a.rows| && rows[e.at].id == a.rows[e.at].id && forall k | 0 <= k < |rows| && k != e.at :: rows[k] == a.rows[k])
            && (!e.Killed? && !e.Ended? && !e.Taken? && !e.PartLanded? && !e.SealedAgain? ==> rows == a.rows)
  {
  }

  lemma TakingJoins(a: App, at: nat)
    requires Enabled(a, Taken(at))
    ensures var row, r := a.rows[at], Next(a, Taken(at)).rows[at];
            && r.upload == row.upload && r.total == row.total && (r.sending <==> |r.etags| != r.total)
            && (forall part :: part in r.etags <==> part in row.etags || File(row.id, row.upload, part) in a.disk.files)
            && (forall part | part in r.etags :: r.etags[part] == if part in row.etags then row.etags[part] else a.disk.files[File(row.id, row.upload, part)])
  {
  }

  lemma ARowMovesSo(a: App, e: Event)
    requires Enabled(a, e) && (e.PartLanded? || e.SealedAgain?)
    ensures var row, r := a.rows[e.at], Next(a, e).rows[e.at];
            && (e.PartLanded? ==>
                  && r.upload == row.upload && r.total == row.total && r.etags.Keys == row.etags.Keys + {e.part}
                  && (forall part | part in r.etags :: r.etags[part] == if part == e.part then e.etag else row.etags[part])
                  && (r.sending <==> row.sending && |r.etags| != r.total))
            && (e.SealedAgain? ==> r.upload == e.upload && r.total == e.total && r.etags.Keys == {} && r.sending)
  {
  }

  /** Adopting goes on through its write, once that worked through its removals, to its end; a kill ends it anywhere. */
  lemma PhaseMovesSo(a: App, e: Event)
    requires Enabled(a, e) && !e.AdoptBegun?
    ensures Next(a, e).phase ==
              if e.Saved? && e.worked then Clearing(a.phase.taken)
              else if e.Removed? then Clearing(a.phase.taken - {e.what})
              else if e.Saved? || e.AdoptEnded? || e.Killed? then Resting
              else a.phase
  {
  }

  /** Who is signed in, and whose data the phone holds. */
  lemma AccountsMoveSo(a: App, e: Event)
    requires Enabled(a, e)
    ensures var b := Next(a, e);
            && b.me == (if e.SessionChanged? then e.account else if e.Claimed? && DataGoes(a, e) then None else a.me)
            && b.holder == (if e.Claimed? || e.Recorded? then Some(e.who) else if e.DataWiped? then None else a.holder)
  {
  }
}
