/**
 Uploads the share extension sealed and started, joining the queue. The app can be killed between any two file
 operations; what is on disk then is all there is. Adopting writes the records first, and then the notes and the files
 of the parts they brought go, one by one. Parts noted after that are taken off the disk at once, into the records in
 memory, which are written later.
 */
module Handoff {
  import opened Common

  type Id = nat
  type UploadId = nat
  type Account = nat

  /** The extension's note: the server upload it sealed, and whose it is. */
  datatype Note = Note(upload: UploadId, owner: Option<Account>, partCount: nat)

  /** The file the extension writes for a part it saw land, naming the upload it landed in. */
  datatype File = File(id: Id, upload: UploadId, part: int)

  /** An ETag the server returned for a part. */
  datatype Got = Got(file: File, etag: nat)

  /** A record that came from a note, as far as its ETags go; `sending`: some of its `total` parts are yet to land. */
  datatype Row = Row(id: Id, upload: UploadId, total: nat, etags: map<int, nat>, sending: bool)

  /** One thing that goes once the records are on disk. */
  datatype Removal = NoteOf(id: Id) | PartOf(file: File)

  datatype Disk = Disk(notes: map<Id, Note>, files: map<File, nat>, saved: seq<Row>)

  /** Adopting has no wait in it. `Writing`: the records are to be saved. `Clearing`: they are, and what was taken goes. */
  datatype Phase = Resting | Writing(taken: set<Removal>) | Clearing(taken: set<Removal>)

  /** It landed, was cancelled, was finished by the extension or sealed again; or it went with the account's data. */
  datatype End = Through | Wiped

  /**
   `written`, `noted` and `returned`: every note and part file the extension ever wrote, every ETag the server returned;
   `dropped`: notes of another account; `over`: uploads no longer waited for, and why; `unsaved`: parts taken off the disk that no save has recorded yet; `lost`: parts that were in the
   records in memory alone as the app was killed. `holder` is the account whose data is on the phone.
   */
  datatype App = App(rows: seq<Row>, disk: Disk, phase: Phase, me: Option<Account>, holder: Option<Account>,
                     written: map<Id, Note>, noted: map<File, nat>, returned: set<Got>,
                     dropped: set<Id>, over: map<Id, End>, unsaved: set<File>, lost: set<File>)

  function IdsOf(rows: seq<Row>): (ids: set<Id>)
    ensures forall id :: id in ids <==> exists k :: 0 <= k < |rows| && rows[k].id == id
  {
    if rows == [] then {}
    else
      var ids := IdsOf(rows[..|rows| - 1]) + {rows[|rows| - 1].id};
      assert forall k | 0 <= k < |rows| - 1 :: rows[..|rows| - 1][k] == rows[k];
      ids
  }

  /** These parts of these files, by their number. */
  function LandedParts(files: map<File, nat>, id: Id, upload: UploadId): (etags: map<int, nat>)
    ensures forall part :: part in etags <==> File(id, upload, part) in files
    ensures forall part | part in etags :: etags[part] == files[File(id, upload, part)]
  {
    var etags := map f | f in files && f.id == id && f.upload == upload :: f.part := files[f];
    assert forall part | File(id, upload, part) in files :: File(id, upload, part).part in etags;
    etags
  }

  /** The records have an ETag of this part of its upload. */
  ghost predicate HasPart(rows: seq<Row>, file: File) {
    exists k :: 0 <= k < |rows| && rows[k].id == file.id && rows[k].upload == file.upload && file.part in rows[k].etags
  }

  // -- The steps -----------------------------------------------------------------------------------------------------

  /** What adopting has made of the records and the disk so far, and what it will let go of. */
  datatype Progress = Progress(rows: seq<Row>, disk: Disk, taken: set<Removal>, dropped: set<Id>)

  /** Only their number is compared. */
  predicate AllThere(etags: map<int, nat>, total: nat) {
    |etags| == total
  }

  /** The record a note becomes. */
  function Joined(id: Id, note: Note, files: map<File, nat>): (row: Row)
    ensures row.id == id && row.upload == note.upload
  {
    var etags := LandedParts(files, id, note.upload);
    Row(id, note.upload, note.partCount, etags, !AllThere(etags, note.partCount))
  }

  /** One note's turn. */
  function AdoptOne(p: Progress, id: Id, me: Option<Account>): (q: Progress)
    requires id in p.disk.notes
  {
    var note := p.disk.notes[id];
    if id in IdsOf(p.rows) then p.(taken := p.taken + {NoteOf(id)})
    else if me.None? then p
    else if note.owner != me then
      p.(dropped := p.dropped + {id},
         disk := p.disk.(notes := p.disk.notes - {id}, files := FilesBut(p.disk.files, id)))
    else
      p.(rows := p.rows + [Joined(id, note, p.disk.files)],
         taken := p.taken + {NoteOf(id)} + set f | f in p.disk.files && f.id == id && f.upload == note.upload :: PartOf(f))
  }

  /** Every note's turn, in the order they are found. */
  function AdoptAll(p: Progress, seen: seq<Id>, me: Option<Account>): (q: Progress)
    requires forall i, j | 0 <= i < j < |seen| :: seen[i] != seen[j]
    requires forall i | 0 <= i < |seen| :: seen[i] in p.disk.notes
    ensures forall id | id in p.disk.notes && id !in seen :: id in AdoptAll(p, seen, me).disk.notes
  {
    if seen == [] then p
    else
      var before, last := seen[..|seen| - 1], seen[|seen| - 1];
      assert last !in before;
      AdoptOne(AdoptAll(p, before, me), last, me)
  }

  /** A folder's part files gone. */
  function FilesBut(files: map<File, nat>, id: Id): (left: map<File, nat>) {
    map f | f in files && f.id != id :: files[f]
  }

  /** A folder gone, its note and its part files in it. */
  function FolderGone(disk: Disk, id: Id): (left: Disk) {
    disk.(notes := disk.notes - {id}, files := FilesBut(disk.files, id))
  }

  function Remove(disk: Disk, what: Removal): (left: Disk) {
    match what
    case NoteOf(id) => disk.(notes := disk.notes - {id})
    case PartOf(file) => disk.(files := disk.files - {file})
  }

  /** A record with the parts found joined to it; an ETag it has already stays. */
  function Merged(row: Row, files: map<File, nat>): (merged: Row) {
    var etags := LandedParts(files, row.id, row.upload) + row.etags;
    row.(etags := etags, sending := !AllThere(etags, row.total))
  }

  /** `takeLanded` on the disk: the files of the record's own upload's parts go. */
  function TakenFiles(row: Row, files: map<File, nat>): (left: map<File, nat>) {
    map f | f in files && !(f.id == row.id && f.upload == row.upload) :: files[f]
  }

  datatype Event =
    // The extension's
    | NoteWritten(id: Id, note: Note)
    | PartNoted(file: File, etag: nat)
    | NoteReleased(id: Id)
    | FinishedByExtension(id: Id)
    // Adopting, file operation by file operation
    | AdoptBegun(seen: seq<Id>)
    | Saved(worked: bool)
    | Removed(what: Removal)
    | AdoptEnded
    | Swept(id: Id)
    // The queue's, with no wait inside
    | Taken(at: nat)
    | PartLanded(at: nat, part: int, etag: nat)
    | QueueSaved(worked: bool)
    | Ended(at: nat)
    | SealedAgain(at: nat, upload: UploadId, total: nat)
    | Killed
    | SessionChanged(account: Option<Account>)
    // A sign-in finds another account's data, or its own; `Recorded` puts its name on data of no account's.
    | Claimed(who: Account)
    | Recorded(who: Account)
    // Signed out, removed or deleted.
    | DataWiped

  ghost predicate Enabled(a: App, e: Event) {
    match e
    case NoteWritten(id, _) => id !in a.written
    case PartNoted(file, _) => file.id in a.written && file !in a.noted
    // Written again as the extension lets go of it; a folder that is gone takes no note.
    case NoteReleased(id) => id in a.written && (id in a.disk.notes || id in IdsOf(a.rows))
    case FinishedByExtension(id) => id in a.written
    case AdoptBegun(seen) =>
      && a.phase == Resting
      && (forall i, j | 0 <= i < j < |seen| :: seen[i] != seen[j]) && (forall i | 0 <= i < |seen| :: seen[i] in a.disk.notes)
    case Saved(_) => a.phase.Writing?
    case Removed(what) => a.phase.Clearing? && what in a.phase.taken
    case AdoptEnded => a.phase.Clearing?
    // A folder nothing owns: no note in it and no record of it.
    case Swept(id) => a.phase == Resting && id !in a.disk.notes && id !in IdsOf(a.rows)
    case Taken(at) => a.phase == Resting && at < |a.rows| && a.rows[at].sending
    case PartLanded(at, _, _) => a.phase == Resting && at < |a.rows|
    case QueueSaved(_) => a.phase == Resting
    case Ended(at) => a.phase == Resting && at < |a.rows|
    case SealedAgain(at, _, _) => a.phase == Resting && at < |a.rows|
    case Killed => true
    // A session is stored only for the account the data was claimed for just before.
    case SessionChanged(account) => account.Some? ==> a.holder == account
    case Claimed(_) => true
    case Recorded(who) => a.holder.None? && a.me == Some(who)
    case DataWiped => true
  }

  /** The step takes the account's data off the phone: notes, part files and saved records. */
  predicate TakesData(a: App, e: Event) {
    e.DataWiped? || (e.Claimed? && a.holder != Some(e.who))
  }

  /** What is in memory stays. */
  function WithoutData(a: App): (b: App) {
    a.(disk := Disk(map[], map[], []), over := map id | id in a.written :: if id in a.over then a.over[id] else Wiped)
  }

  /** The parts that were in the records in memory and nowhere on disk. */
  ghost function OnlyInMemory(a: App): (parts: set<File>) {
    set f | f in a.noted && f !in a.disk.files && HasPart(a.rows, f) && !HasPart(a.disk.saved, f)
  }

  /** The parts a taking finds for its record that the saved records have not. */
  ghost function Unrecorded(a: App, at: nat): (parts: set<File>)
    requires at < |a.rows|
  {
    set f | f in a.disk.files && f.id == a.rows[at].id && f.upload == a.rows[at].upload && !HasPart(a.disk.saved, f)
  }

  ghost function Next(a: App, e: Event): (b: App)
    requires Enabled(a, e)
  {
    match e
    case NoteWritten(id, note) => a.(written := a.written[id := note], disk := a.disk.(notes := a.disk.notes[id := note]))
    case PartNoted(file, etag) =>
      a.(noted := a.noted[file := etag], returned := a.returned + {Got(file, etag)}, disk := a.disk.(files := a.disk.files[file := etag]))
    case NoteReleased(id) => a.(disk := a.disk.(notes := a.disk.notes[id := a.written[id]]))
    case FinishedByExtension(id) => a.(disk := FolderGone(a.disk, id), over := a.over[id := Through])
    case AdoptBegun(seen) =>
      var p := AdoptAll(Progress(a.rows, a.disk, {}, a.dropped), seen, a.me);
      a.(rows := p.rows, disk := p.disk, dropped := p.dropped, phase := Writing(p.taken))
    case Saved(worked) =>
      if worked then a.(disk := a.disk.(saved := a.rows), unsaved := {}, phase := Clearing(a.phase.taken)) else a.(phase := Resting)
    case Removed(what) => a.(disk := Remove(a.disk, what), phase := Clearing(a.phase.taken - {what}))
    case AdoptEnded => a.(phase := Resting)
    case Swept(id) => a.(disk := FolderGone(a.disk, id))
    case Taken(at) =>
      a.(rows := a.rows[at := Merged(a.rows[at], a.disk.files)], disk := a.disk.(files := TakenFiles(a.rows[at], a.disk.files)),
         unsaved := a.unsaved + Unrecorded(a, at))
    case PartLanded(at, part, etag) =>
      var row := a.rows[at];
      var etags := row.etags[part := etag];
      a.(rows := a.rows[at := row.(etags := etags, sending := row.sending && !AllThere(etags, row.total))],
         returned := a.returned + {Got(File(row.id, row.upload, part), etag)})
    case QueueSaved(worked) => if worked then a.(disk := a.disk.(saved := a.rows), unsaved := {}) else a
    case Ended(at) =>
      a.(rows := a.rows[..at] + a.rows[at + 1..], disk := FolderGone(a.disk, a.rows[at].id), over := a.over[a.rows[at].id := Through])
    case SealedAgain(at, upload, total) =>
      a.(rows := a.rows[at := Row(a.rows[at].id, upload, total, map[], true)], over := a.over[a.rows[at].id := Through])
    case Killed => a.(rows := a.disk.saved, phase := Resting, unsaved := {}, lost := a.lost + OnlyInMemory(a))
    case SessionChanged(account) => a.(me := account)
    // Its own data stays; another's session goes first, then its data.
    case Claimed(who) => if a.holder == Some(who) then a else WithoutData(a).(me := None, holder := Some(who))
    case Recorded(who) => a.(holder := Some(who))
    case DataWiped => WithoutData(a).(holder := None)
  }

  ghost predicate Run(trace: seq<App>, events: seq<Event>) {
    && |trace| == |events| + 1
    && trace[0] == App([], Disk(map[], map[], []), Resting, None, None, map[], map[], {}, {}, map[], {}, {})
    && forall i {:trigger events[i]} | 0 <= i < |events| :: Enabled(trace[i], events[i]) && trace[i + 1] == Next(trace[i], events[i])
  }

  // -- What every moment keeps -----------------------------------------------------------------------------------------

  ghost predicate NoTwice(rows: seq<Row>) {
    forall i, j | 0 <= i < j < |rows| :: rows[i].id != rows[j].id
  }

  /** Still the queue's or the extension's to finish. */
  ghost predicate Live(a: App, id: Id) {
    id in a.written && id !in a.dropped && id !in a.over
  }

  /** The extension saw this part land, in the upload its note names, and it is still wanted. */
  ghost predicate Wanted(a: App, file: File) {
    file in a.noted && Live(a, file.id) && file.upload == a.written[file.id].upload
  }

  /** Every ETag recorded was returned for that part of that upload. */
  ghost predicate FromServer(rows: seq<Row>, returned: set<Got>) {
    forall k, part | 0 <= k < |rows| && part in rows[k].etags :: Got(File(rows[k].id, rows[k].upload, part), rows[k].etags[part]) in returned
  }

  /** An upload of the extension's is in its note or in the saved records, and no longer in these alone. */
  ghost predicate Kept(a: App, id: Id) {
    Live(a, id) ==> (id in a.disk.notes || id in IdsOf(a.disk.saved)) && (id in IdsOf(a.disk.saved) ==> id in IdsOf(a.rows))
  }

  /** A noted part is in its file or in the saved records, or only in memory since it was taken, or lost; memory has what is saved. */
  ghost predicate EtagKept(a: App, file: File) {
    Live(a, file.id) && file.upload == a.written[file.id].upload ==>
      && (file in a.noted ==> file in a.disk.files || HasPart(a.disk.saved, file) || file in a.unsaved || file in a.lost)
      && (file in a.unsaved ==> file !in a.disk.files && HasPart(a.rows, file) && !HasPart(a.disk.saved, file))
      && (HasPart(a.disk.saved, file) ==> HasPart(a.rows, file))
  }

  /** Going through with the removals loses nothing these records do not hold. */
  ghost predicate Removable(a: App, rows: seq<Row>, what: Removal) {
    match what
    case NoteOf(id) => id in a.written && (Live(a, id) ==> id in IdsOf(rows))
    case PartOf(file) => file.id in a.written && (Live(a, file.id) ==> HasPart(rows, file))
  }

  ghost predicate Ok(a: App) {
    && NoTwice(a.rows) && NoTwice(a.disk.saved)
    && IdsOf(a.rows) <= a.written.Keys && IdsOf(a.disk.saved) <= a.written.Keys
    && FromServer(a.rows, a.returned) && FromServer(a.disk.saved, a.returned)
    && (forall id | id in a.disk.notes :: id in a.written && a.disk.notes[id] == a.written[id])
    && (forall f | f in a.disk.files :: f in a.noted && a.disk.files[f] == a.noted[f])
    && (forall f | f in a.noted :: f.id in a.written && Got(f, a.noted[f]) in a.returned)
    && (forall f | f in a.unsaved :: f in a.noted)
    && (forall id :: Kept(a, id))
    && (forall f :: EtagKept(a, f))
    && (a.phase.Writing? ==> forall what | what in a.phase.taken :: Removable(a, a.rows, what))
    && (a.phase.Clearing? ==> forall what | what in a.phase.taken :: Removable(a, a.disk.saved, what))
  }

  // -- Proofs: the records -----------------------------------------------------------------------------------------------

  lemma IdsAppend(rows: seq<Row>, row: Row)
    ensures IdsOf(rows + [row]) == IdsOf(rows) + {row.id}
  {
    assert (rows + [row])[..|rows|] == rows;
  }

  lemma PartAppend(rows: seq<Row>, row: Row, file: File)
    ensures HasPart(rows, file) ==> HasPart(rows + [row], file)
    ensures row.id == file.id && row.upload == file.upload && file.part in row.etags ==> HasPart(rows + [row], file)
  {
    var more := rows + [row];
    if HasPart(rows, file) {
      var k :| 0 <= k < |rows| && rows[k].id == file.id && rows[k].upload == file.upload && file.part in rows[k].etags;
      assert more[k] == rows[k];
    }
    assert more[|rows|] == row;
  }

  lemma SetIds(rows: seq<Row>, at: nat, row: Row)
    requires at < |rows| && row.id == rows[at].id
    ensures IdsOf(rows[at := row]) == IdsOf(rows)
    ensures NoTwice(rows) ==> NoTwice(rows[at := row])
  {
    var set' := rows[at := row];
    forall id ensures id in IdsOf(set') <==> id in IdsOf(rows) {
      if id in IdsOf(rows) {
        var k :| 0 <= k < |rows| && rows[k].id == id;
        assert set'[k].id == id;
      }
      if id in IdsOf(set') {
        var k :| 0 <= k < |set'| && set'[k].id == id;
        assert rows[k].id == id;
      }
    }
  }

  /** A record that changes keeps the parts of the others, and its own if its upload stays and its ETags only grow. */
  lemma SetPart(rows: seq<Row>, at: nat, row: Row, file: File)
    requires at < |rows| && row.id == rows[at].id
    requires file.id != row.id || (row.upload == rows[at].upload && rows[at].etags.Keys <= row.etags.Keys)
    ensures HasPart(rows, file) ==> HasPart(rows[at := row], file)
    ensures row.id == file.id && row.upload == file.upload && file.part in row.etags ==> HasPart(rows[at := row], file)
  {
    var set' := rows[at := row];
    if HasPart(rows, file) {
      var k :| 0 <= k < |rows| && rows[k].id == file.id && rows[k].upload == file.upload && file.part in rows[k].etags;
      assert set'[k].id == file.id && set'[k].upload == file.upload && file.part in set'[k].etags;
    }
    assert set'[at] == row;
  }

  lemma Without(rows: seq<Row>, at: nat)
    requires at < |rows|
    ensures var left := rows[..at] + rows[at + 1..];
            && (NoTwice(rows) ==> NoTwice(left))
            && (forall id | id != rows[at].id && id in IdsOf(rows) :: id in IdsOf(left))
            && (forall f: File | f.id != rows[at].id && HasPart(rows, f) :: HasPart(left, f))
  {
    var left := rows[..at] + rows[at + 1..];
    if NoTwice(rows) {
      forall i, j | 0 <= i < j < |left| ensures left[i].id != left[j].id {
        assert rows[if i < at then i else i + 1].id != rows[if j < at then j else j + 1].id;
      }
    }
    forall id | id != rows[at].id && id in IdsOf(rows) ensures id in IdsOf(left) {
      var k :| 0 <= k < |rows| && rows[k].id == id;
      assert left[if k < at then k else k - 1] == rows[k];
    }
    forall f: File | f.id != rows[at].id && HasPart(rows, f) ensures HasPart(left, f) {
      var k :| 0 <= k < |rows| && rows[k].id == f.id && rows[k].upload == f.upload && f.part in rows[k].etags;
      assert left[if k < at then k else k - 1] == rows[k];
    }
  }

  // -- Proofs: adopting --------------------------------------------------------------------------------------------------

  function At(a: App, p: Progress): (b: App) {
    a.(rows := p.rows, disk := p.disk, dropped := p.dropped, phase := Writing(p.taken))
  }

  lemma JoinKeeps(a: App, p: Progress, id: Id)
    requires Ok(At(a, p)) && id in p.disk.notes && id !in IdsOf(p.rows) && a.me.Some? && p.disk.notes[id].owner == a.me
    ensures Ok(At(a, AdoptOne(p, id, a.me)))
  {
    hide HasPart, FromServer, Removable, EtagKept, NoTwice, Joined, IdsOf, LandedParts, AllThere;
    var q := AdoptOne(p, id, a.me);
    var b, c := At(a, p), At(a, q);
    JoinedRow(p, id, a.returned);
    IdsAppend(p.rows, Joined(id, p.disk.notes[id], p.disk.files));
    forall f ensures EtagKept(c, f) { assert EtagKept(b, f); JoinKeepsPart(a, p, id, f); }
    forall what | what in q.taken ensures Removable(c, q.rows, what) {
      assert what in p.taken ==> Removable(b, p.rows, what);
      JoinRemovable(a, p, id, what);
    }
    forall other ensures Kept(c, other) { assert Kept(b, other); }
  }

  lemma JoinedRow(p: Progress, id: Id, returned: set<Got>)
    requires id in p.disk.notes && id !in IdsOf(p.rows) && NoTwice(p.rows) && FromServer(p.rows, returned)
    requires forall f | f in p.disk.files :: Got(f, p.disk.files[f]) in returned
    ensures var rows := p.rows + [Joined(id, p.disk.notes[id], p.disk.files)];
            NoTwice(rows) && FromServer(rows, returned)
  {
    hide AllThere;
  }

  lemma JoinKeepsPart(a: App, p: Progress, id: Id, f: File)
    requires id in p.disk.notes && id !in IdsOf(p.rows) && a.me.Some? && p.disk.notes[id].owner == a.me
    requires EtagKept(At(a, p), f)
    ensures EtagKept(At(a, AdoptOne(p, id, a.me)), f)
  {
    hide AllThere;
    PartAppend(p.rows, Joined(id, p.disk.notes[id], p.disk.files), f);
    hide HasPart, Joined;
  }

  lemma JoinedHas(p: Progress, id: Id, f: File)
    requires id in p.disk.notes && f in p.disk.files && f.id == id && f.upload == p.disk.notes[id].upload
    ensures f.part in Joined(id, p.disk.notes[id], p.disk.files).etags
  {
    hide AllThere;
    assert f == File(id, f.upload, f.part);
  }

  lemma JoinRemovable(a: App, p: Progress, id: Id, what: Removal)
    requires id in a.written && id in p.disk.notes && id !in IdsOf(p.rows) && a.me.Some? && p.disk.notes[id].owner == a.me
    requires what in p.taken ==> Removable(At(a, p), p.rows, what)
    requires what in AdoptOne(p, id, a.me).taken
    ensures var q := AdoptOne(p, id, a.me); Removable(At(a, q), q.rows, what)
  {
    hide AllThere, HasPart, IdsOf, Joined, LandedParts;
    var row, q := Joined(id, p.disk.notes[id], p.disk.files), AdoptOne(p, id, a.me);
    IdsAppend(p.rows, row);
    if what.PartOf? {
      PartAppend(p.rows, row, what.file);
      if what !in p.taken { JoinedHas(p, id, what.file); }
    }
  }

  lemma DropKeeps(a: App, p: Progress, id: Id)
    requires Ok(At(a, p)) && id in p.disk.notes && id !in IdsOf(p.rows) && a.me.Some? && p.disk.notes[id].owner != a.me
    ensures Ok(At(a, AdoptOne(p, id, a.me)))
  {
    var q := AdoptOne(p, id, a.me);
    var b, c := At(a, p), At(a, q);
    forall f ensures EtagKept(c, f) { assert EtagKept(b, f); }
    forall other ensures Kept(c, other) { assert Kept(b, other); }
    forall what | what in q.taken ensures Removable(c, q.rows, what) { assert Removable(b, p.rows, what); }
  }

  lemma AdoptOneKeeps(a: App, p: Progress, id: Id)
    requires Ok(At(a, p)) && id in p.disk.notes
    ensures Ok(At(a, AdoptOne(p, id, a.me)))
  {
    var q := AdoptOne(p, id, a.me);
    if id in IdsOf(p.rows) {
      var b, c := At(a, p), At(a, q);
      forall f ensures EtagKept(c, f) { assert EtagKept(b, f); }
      forall other ensures Kept(c, other) { assert Kept(b, other); }
      forall what | what in q.taken ensures Removable(c, q.rows, what) { assert what in p.taken ==> Removable(b, p.rows, what); }
    } else if a.me.Some? {
      if p.disk.notes[id].owner == a.me { JoinKeeps(a, p, id); } else { DropKeeps(a, p, id); }
    }
  }

  lemma {:induction false} AdoptAllKeeps(a: App, p: Progress, seen: seq<Id>)
    requires Ok(At(a, p))
    requires forall i, j | 0 <= i < j < |seen| :: seen[i] != seen[j]
    requires forall i | 0 <= i < |seen| :: seen[i] in p.disk.notes
    ensures Ok(At(a, AdoptAll(p, seen, a.me)))
  {
    if seen != [] {
      var before, last := seen[..|seen| - 1], seen[|seen| - 1];
      assert last !in before;
      AdoptAllKeeps(a, p, before);
      AdoptOneKeeps(a, AdoptAll(p, before, a.me), last);
    }
  }

  lemma RemoveKeeps(a: App, what: Removal)
    requires Ok(a) && a.phase.Clearing? && what in a.phase.taken
    ensures Ok(Next(a, Removed(what)))
  {
    var c := Next(a, Removed(what));
    assert Removable(a, a.disk.saved, what);
    forall f ensures EtagKept(c, f) { assert EtagKept(a, f); }
    forall other ensures Kept(c, other) { assert Kept(a, other); }
    forall w | w in c.phase.taken ensures Removable(c, c.disk.saved, w) { assert Removable(a, a.disk.saved, w); }
  }

  // -- Proofs: the queue's own steps -------------------------------------------------------------------------------------

  lemma TakenKeeps(a: App, at: nat)
    requires Ok(a) && Enabled(a, Taken(at))
    ensures Ok(Next(a, Taken(at)))
  {
    hide AllThere;
    var c := Next(a, Taken(at));
    SetIds(a.rows, at, c.rows[at]);
    MergedFromServer(a, at);
    forall f ensures EtagKept(c, f) { assert EtagKept(a, f); TakenKeepsPart(a, at, f); }
    forall other ensures Kept(c, other) { assert Kept(a, other); }
    hide HasPart, FromServer, NoTwice, EtagKept, Kept, Merged, Removable;
  }

  lemma MergedHas(row: Row, files: map<File, nat>, f: File)
    ensures row.etags.Keys <= Merged(row, files).etags.Keys
    ensures f in files && f.id == row.id && f.upload == row.upload ==> f.part in Merged(row, files).etags
  {
    hide AllThere;
    assert f == File(f.id, f.upload, f.part);
  }

  lemma TakenKeepsPart(a: App, at: nat, f: File)
    requires EtagKept(a, f) && Enabled(a, Taken(at)) && (f in a.disk.files ==> f in a.noted)
    ensures EtagKept(Next(a, Taken(at)), f)
  {
    hide HasPart, Merged;
    var row := a.rows[at];
    var c := Next(a, Taken(at));
    assert c.rows == a.rows[at := Merged(row, a.disk.files)];
    MergedHas(row, a.disk.files, f);
    assert Merged(row, a.disk.files).id == row.id && Merged(row, a.disk.files).upload == row.upload by { MergedNames(row, a.disk.files); }
    SetPart(a.rows, at, Merged(row, a.disk.files), f);
    assert f in c.disk.files <==> f in a.disk.files && !(f.id == row.id && f.upload == row.upload);
  }

  lemma MergedNames(row: Row, files: map<File, nat>)
    ensures Merged(row, files).id == row.id && Merged(row, files).upload == row.upload
  {
  }

  lemma MergedFromServer(a: App, at: nat)
    requires Ok(a) && at < |a.rows|
    ensures FromServer(a.rows[at := Merged(a.rows[at], a.disk.files)], a.returned)
  {
    hide AllThere;
    var row, merged := a.rows[at], Merged(a.rows[at], a.disk.files);
    forall part | part in merged.etags ensures Got(File(row.id, row.upload, part), merged.etags[part]) in a.returned {
    }
  }

  lemma PartLandedKeeps(a: App, at: nat, part: int, etag: nat)
    requires Ok(a) && Enabled(a, PartLanded(at, part, etag))
    ensures Ok(Next(a, PartLanded(at, part, etag)))
  {
    hide HasPart, IdsOf, NoTwice, Removable, AllThere;
    var c := Next(a, PartLanded(at, part, etag));
    SetIds(a.rows, at, c.rows[at]);
    forall f ensures EtagKept(c, f) {
      assert EtagKept(a, f);
      SetPart(a.rows, at, c.rows[at], f);
    }
    forall other ensures Kept(c, other) { assert Kept(a, other); }
  }

  lemma EndedKeeps(a: App, at: nat)
    requires Ok(a) && Enabled(a, Ended(at))
    ensures Ok(Next(a, Ended(at)))
  {
    hide HasPart, IdsOf, NoTwice, Removable;
    var c := Next(a, Ended(at));
    Without(a.rows, at);
    forall f ensures EtagKept(c, f) { assert EtagKept(a, f); }
    forall other ensures Kept(c, other) { assert Kept(a, other); }
  }

  lemma SealedAgainKeeps(a: App, at: nat, upload: UploadId, total: nat)
    requires Ok(a) && Enabled(a, SealedAgain(at, upload, total))
    ensures Ok(Next(a, SealedAgain(at, upload, total)))
  {
    var c := Next(a, SealedAgain(at, upload, total));
    SetIds(a.rows, at, c.rows[at]);
    forall f ensures EtagKept(c, f) {
      assert EtagKept(a, f);
      if f.id != a.rows[at].id { SetPart(a.rows, at, c.rows[at], f); }
    }
    forall other ensures Kept(c, other) { assert Kept(a, other); }
  }

  lemma KilledKeeps(a: App)
    requires Ok(a)
    ensures Ok(Next(a, Killed))
  {
    var c := Next(a, Killed);
    forall f ensures EtagKept(c, f) { assert EtagKept(a, f); }
    forall other ensures Kept(c, other) { assert Kept(a, other); }
  }

  /** What the extension writes. */
  lemma WriteKeeps(a: App, e: Event)
    requires Ok(a) && Enabled(a, e) && (e.NoteWritten? || e.PartNoted? || e.NoteReleased?)
    ensures Ok(Next(a, e))
  {
    var c := Next(a, e);
    forall f ensures EtagKept(c, f) { assert EtagKept(a, f); }
    forall other ensures Kept(c, other) { assert Kept(a, other); }
    hide HasPart;
    PhaseKeeps(a, c);
  }

  lemma PhaseKeeps(a: App, c: App)
    requires Ok(a) && c.rows == a.rows && c.disk.saved == a.disk.saved && c.phase == a.phase
    requires a.written.Keys <= c.written.Keys && forall id | id in a.written && Live(c, id) :: Live(a, id)
    ensures c.phase.Writing? ==> forall what | what in c.phase.taken :: Removable(c, c.rows, what)
    ensures c.phase.Clearing? ==> forall what | what in c.phase.taken :: Removable(c, c.disk.saved, what)
  {
    hide HasPart, Kept, EtagKept, FromServer;
    if c.phase.Writing? {
      forall what | what in c.phase.taken ensures Removable(c, c.rows, what) { assert Removable(a, a.rows, what); }
    }
    if c.phase.Clearing? {
      forall what | what in c.phase.taken ensures Removable(c, c.disk.saved, what) { assert Removable(a, a.disk.saved, what); }
    }
  }

  /** A folder goes: the extension finished its upload, or nothing owns it. */
  lemma FolderKeeps(a: App, e: Event)
    requires Ok(a) && Enabled(a, e) && (e.FinishedByExtension? || e.Swept?)
    ensures Ok(Next(a, e))
  {
    var c := Next(a, e);
    hide HasPart;
    forall f ensures EtagKept(c, f) {
      assert EtagKept(a, f);
      assert Kept(a, f.id);
    }
    forall other ensures Kept(c, other) { assert Kept(a, other); }
    PhaseKeeps(a, c);
  }

  lemma SaveKeeps(a: App, e: Event)
    requires Ok(a) && Enabled(a, e) && (e.Saved? || e.QueueSaved? || e.AdoptEnded? || e.SessionChanged? || e.Recorded? || (e.Claimed? && !TakesData(a, e)))
    ensures Ok(Next(a, e))
  {
    hide HasPart, IdsOf, NoTwice, FromServer;
    var c := Next(a, e);
    forall f ensures EtagKept(c, f) { assert EtagKept(a, f); }
    forall other ensures Kept(c, other) { assert Kept(a, other); }
    if c.phase == a.phase {
      forall what | c.phase.Writing? && what in c.phase.taken ensures Removable(c, c.rows, what) { assert Removable(a, a.rows, what); }
      forall what | c.phase.Clearing? && what in c.phase.taken ensures Removable(c, c.disk.saved, what) { assert Removable(a, a.disk.saved, what); }
    } else if c.phase.Clearing? {
      forall what | what in c.phase.taken ensures Removable(c, c.disk.saved, what) { assert Removable(a, a.rows, what); }
    }
  }

  /** The account's data goes: nothing of it is waited for any more. */
  lemma WipeKeeps(a: App, e: Event)
    requires Ok(a) && TakesData(a, e)
    ensures Ok(Next(a, e))
  {
    hide HasPart;
    var c := Next(a, e);
    assert c == a.(disk := Disk(map[], map[], []), over := c.over, me := c.me, holder := c.holder);
    assert IdsOf(c.disk.saved) == {} && FromServer(c.disk.saved, a.returned) && NoTwice(c.disk.saved);
    assert forall id :: !Live(c, id);
    hide IdsOf, FromServer, NoTwice, Live, Next;
    forall f ensures EtagKept(c, f) { assert !Live(c, f.id); }
    forall other ensures Kept(c, other) { assert !Live(c, other); }
  }

  lemma NextKeeps(a: App, e: Event)
    requires Ok(a) && Enabled(a, e)
    ensures Ok(Next(a, e))
  {
    match e
    case AdoptBegun(seen) =>
      var p := Progress(a.rows, a.disk, {}, a.dropped);
      assert Ok(At(a, p)) by {
        forall f ensures EtagKept(At(a, p), f) { assert EtagKept(a, f); }
        forall other ensures Kept(At(a, p), other) { assert Kept(a, other); }
      }
      AdoptAllKeeps(a, p, seen);
      hide Ok, AdoptAll;
    case Removed(what) => RemoveKeeps(a, what);
    case Taken(at) => TakenKeeps(a, at);
    case PartLanded(at, part, etag) => PartLandedKeeps(a, at, part, etag);
    case Ended(at) => EndedKeeps(a, at);
    case SealedAgain(at, upload, total) => SealedAgainKeeps(a, at, upload, total);
    case Killed => KilledKeeps(a);
    case DataWiped => WipeKeeps(a, e);
    case Claimed(who) => if TakesData(a, e) { WipeKeeps(a, e); } else { SaveKeeps(a, e); }
    case NoteWritten(_, _) | PartNoted(_, _) | NoteReleased(_) => WriteKeeps(a, e);
    case FinishedByExtension(_) | Swept(_) => FolderKeeps(a, e);
    case _ => SaveKeeps(a, e);
  }

  lemma {:induction false} RunKeeps(trace: seq<App>, events: seq<Event>, i: nat)
    requires Run(trace, events) && i < |trace|
    ensures Ok(trace[i])
  {
    if i > 0 {
      RunKeeps(trace, events, i - 1);
      assert Enabled(trace[i - 1], events[i - 1]);
      NextKeeps(trace[i - 1], events[i - 1]);
    }
  }

  // -- The promises ----------------------------------------------------------------------------------------------------------

  /**
   Stopped at any moment, each upload the extension handed over, neither dropped nor over, is in the
   saved records or in its note, and no upload has two records.
   */
  lemma NoUploadIsLost(trace: seq<App>, events: seq<Event>, i: nat, id: Id)
    requires Run(trace, events) && i < |trace| && Live(trace[i], id)
    ensures id in trace[i].disk.notes || id in IdsOf(trace[i].disk.saved)
    ensures NoTwice(trace[i].rows) && NoTwice(trace[i].disk.saved)
  {
    RunKeeps(trace, events, i);
    assert Kept(trace[i], id);
  }

  /** At any moment a noted part is in its file or in the records in memory, unless a kill lost it. */
  lemma NothingIsLost(trace: seq<App>, events: seq<Event>, i: nat, file: File)
    requires Run(trace, events) && i < |trace| && Wanted(trace[i], file)
    ensures var a := trace[i];
            (file in a.disk.files && Got(file, a.disk.files[file]) in a.returned) || HasPart(a.rows, file) || file in a.lost
  {
    RunKeeps(trace, events, i);
    assert EtagKept(trace[i], file);
  }

  /** Every ETag in the records, saved or in memory, is one the server returned for that part of that upload. */
  lemma RecordsAreTheServers(trace: seq<App>, events: seq<Event>, i: nat)
    requires Run(trace, events) && i < |trace|
    ensures FromServer(trace[i].rows, trace[i].returned) && FromServer(trace[i].disk.saved, trace[i].returned)
  {
    RunKeeps(trace, events, i);
  }

  /** A save that worked, or a kill, after which nothing waits to be saved. */
  ghost predicate Settles(e: Event) {
    (e.Saved? && e.worked) || (e.QueueSaved? && e.worked) || e.Killed?
  }

  /** The queue took this part's file at `j`, and the saved records do not have the part. */
  ghost predicate TakenAt(trace: seq<App>, events: seq<Event>, j: nat, file: File)
    requires Run(trace, events) && j < |events|
  {
    && events[j].Taken? && Enabled(trace[j], events[j])
    && trace[j].rows[events[j].at].id == file.id && trace[j].rows[events[j].at].upload == file.upload
    && file in trace[j].disk.files && !HasPart(trace[j].disk.saved, file)
  }

  /** The part was taken before `i`, and neither a save nor a kill was in between. */
  ghost predicate TakenSinceSave(trace: seq<App>, events: seq<Event>, i: nat, file: File)
    requires Run(trace, events) && i <= |events|
  {
    exists j: nat | j < i :: TakenAt(trace, events, j, file) && forall m: nat | j < m < i :: !Settles(events[m])
  }

  lemma {:induction false} UnsavedExactly(trace: seq<App>, events: seq<Event>, i: nat, file: File)
    requires Run(trace, events) && i < |trace|
    ensures file in trace[i].unsaved <==> TakenSinceSave(trace, events, i, file)
  {
    if i > 0 {
      UnsavedExactly(trace, events, i - 1, file);
      var a, e := trace[i - 1], events[i - 1];
      assert Enabled(a, e) && trace[i] == Next(a, e);
      if TakenAt(trace, events, i - 1, file) {
        assert TakenSinceSave(trace, events, i, file);
      } else if TakenSinceSave(trace, events, i - 1, file) {
        var j: nat :| j < i - 1 && TakenAt(trace, events, j, file) && forall m: nat | j < m < i - 1 :: !Settles(events[m]);
        if !Settles(e) {
          assert forall m: nat | j < m < i :: !Settles(events[m]);
          assert TakenSinceSave(trace, events, i, file);
        }
      }
    }
  }

  /** A kill loses a noted part exactly when it falls between the taking of its file and the next save. */
  lemma AKillLosesExactly(trace: seq<App>, events: seq<Event>, i: nat, file: File)
    requires Run(trace, events) && i < |events| && events[i].Killed? && Wanted(trace[i], file) && file !in trace[i].lost
    ensures file in trace[i + 1].lost <==> TakenSinceSave(trace, events, i, file)
    ensures file in trace[i + 1].lost <==> file !in trace[i + 1].disk.files && !HasPart(trace[i + 1].rows, file)
  {
    RunKeeps(trace, events, i);
    UnsavedExactly(trace, events, i, file);
    assert EtagKept(trace[i], file);
    assert Enabled(trace[i], events[i]) && trace[i + 1] == Next(trace[i], events[i]);
  }

  ghost predicate Reachable(a: App) {
    exists trace, events :: Run(trace, events) && trace[|events|] == a
  }

  lemma StepsReachable(a: App, e: Event)
    requires Reachable(a) && Enabled(a, e)
    ensures Reachable(Next(a, e))
  {
    hide Enabled, Next;
    var trace, events :| Run(trace, events) && trace[|events|] == a;
    var longer, more := trace + [Next(a, e)], events + [e];
    forall i | 0 <= i < |more| ensures Enabled(longer[i], more[i]) && longer[i + 1] == Next(longer[i], more[i]) {
      if i < |events| { assert more[i] == events[i] && longer[i] == trace[i] && longer[i + 1] == trace[i + 1]; }
    }
    assert Run(longer, more);
  }

  const NOTE := Note(7, Some(1), 2)
  const ROW := Row(0, 7, 2, map[], true)
  const PART := File(0, 7, 1)

  lemma NoteFound() returns (a: App)
    ensures Reachable(a)
    ensures a == App([], Disk(map[0 := NOTE], map[], []), Resting, Some(1), Some(1), map[0 := NOTE], map[], {}, {}, map[], {}, {})
  {
    a := App([], Disk(map[], map[], []), Resting, None, None, map[], map[], {}, {}, map[], {}, {});
    assert Run([a], []);
    assert Reachable(a);
    hide Reachable;
    StepsReachable(a, Claimed(1));
    a := Next(a, Claimed(1));
    assert a.over == map[];
    StepsReachable(a, SessionChanged(Some(1)));
    a := Next(a, SessionChanged(Some(1)));
    StepsReachable(a, NoteWritten(0, NOTE));
    a := Next(a, NoteWritten(0, NOTE));
  }

  lemma FirstRow(files: map<File, nat>)
    requires files == map[]
    ensures Joined(0, NOTE, files) == ROW
  {
    assert LandedParts(files, 0, 7) == map[];
  }

  lemma FirstJoins(p: Progress)
    requires p.rows == [] && p.taken == {} && p.disk.notes == map[0 := NOTE] && p.disk.files == map[]
    ensures AdoptOne(p, 0, Some(1)) == p.(rows := [ROW], taken := {NoteOf(0)})
  {
    hide Joined, LandedParts, AllThere;
    FirstRow(p.disk.files);
    assert (set f | f in p.disk.files && f.id == 0 && f.upload == NOTE.upload :: PartOf(f)) == {};
  }

  lemma FirstOfAll(p: Progress)
    requires 0 in p.disk.notes
    ensures AdoptAll(p, [0], Some(1)) == AdoptOne(p, 0, Some(1))
  {
    hide AdoptOne;
    assert [0][..0] == [];
    assert AdoptAll(p, [], Some(1)) == p;
  }

  lemma NoteSeen() returns (a: App)
    ensures Reachable(a)
    ensures a == App([ROW], Disk(map[0 := NOTE], map[], []), Writing({NoteOf(0)}), Some(1), Some(1), map[0 := NOTE], map[], {}, {}, map[], {}, {})
  {
    hide Reachable, AdoptAll, AdoptOne, HasPart, IdsOf, Joined;
    var found := NoteFound();
    var p := Progress(found.rows, found.disk, {}, found.dropped);
    FirstJoins(p);
    FirstOfAll(p);
    assert Enabled(found, AdoptBegun([0]));
    StepsReachable(found, AdoptBegun([0]));
    a := Next(found, AdoptBegun([0]));
  }

  lemma NoteAdopted() returns (a: App)
    ensures Reachable(a)
    ensures a == App([ROW], Disk(map[], map[], [ROW]), Resting, Some(1), Some(1), map[0 := NOTE], map[], {}, {}, map[], {}, {})
  {
    hide Reachable, AdoptAll, HasPart, IdsOf;
    a := NoteSeen();
    StepsReachable(a, Saved(true));
    a := Next(a, Saved(true));
    StepsReachable(a, Removed(NoteOf(0)));
    a := Next(a, Removed(NoteOf(0)));
    assert a.disk.notes == map[];
    StepsReachable(a, AdoptEnded);
    a := Next(a, AdoptEnded);
  }

  lemma FirstTaken(a: App)
    requires a.rows == [ROW] && a.disk.files == map[PART := 42] && a.disk.saved == [ROW]
    ensures Merged(ROW, a.disk.files) == ROW.(etags := map[1 := 42])
    ensures TakenFiles(ROW, a.disk.files) == map[] && Unrecorded(a, 0) == {PART}
  {
    var etags := LandedParts(a.disk.files, 0, 7);
    assert PART in a.disk.files && etags == map[1 := 42];
    assert etags + ROW.etags == map[1 := 42];
  }

  lemma PartTaken() returns (a: App)
    ensures Reachable(a)
    ensures a == App([ROW.(etags := map[1 := 42])], Disk(map[], map[], [ROW]), Resting, Some(1), Some(1), map[0 := NOTE], map[PART := 42],
                     {Got(PART, 42)}, {}, map[], {PART}, {})
  {
    hide Reachable, HasPart, Merged, TakenFiles, Unrecorded;
    a := NoteAdopted();
    StepsReachable(a, PartNoted(PART, 42));
    a := Next(a, PartNoted(PART, 42));
    FirstTaken(a);
    StepsReachable(a, Taken(0));
    a := Next(a, Taken(0));
  }

  /** The note is adopted and gone, then a part is noted and taken, and a kill before the next save loses it. */
  lemma ATakenPartIsLost()
    ensures exists a :: Reachable(a) && Wanted(a, PART) && PART in a.lost
              && PART !in a.disk.files && !HasPart(a.rows, PART) && !HasPart(a.disk.saved, PART)
  {
    var a := PartTaken();
    hide Reachable;
    assert a.rows[0].etags == map[1 := 42] && HasPart(a.rows, PART);
    StepsReachable(a, Killed);
    assert PART in OnlyInMemory(a);
    assert Wanted(Next(a, Killed), PART);
  }

  /** Signing out, its session gone first, takes a note not adopted yet: nothing is left of the upload. */
  lemma ASignOutTakesANote()
    ensures exists a :: Reachable(a) && 0 in a.written && a.written[0].owner == Some(1) && 0 !in a.dropped
              && 0 in a.over && a.over[0] == Wiped && 0 !in a.disk.notes && a.rows == [] && a.disk.saved == []
  {
    var a := NoteFound();
    hide Reachable;
    StepsReachable(a, SessionChanged(None));
    a := Next(a, SessionChanged(None));
    StepsReachable(a, DataWiped);
    a := Next(a, DataWiped);
  }

  /** Nothing but a kill loses a part. */
  lemma OnlyAKillLoses(trace: seq<App>, events: seq<Event>, i: nat)
    requires Run(trace, events) && i < |events| && trace[i + 1].lost != trace[i].lost
    ensures events[i].Killed?
  {
    assert Enabled(trace[i], events[i]) && trace[i + 1] == Next(trace[i], events[i]);
  }

  /** A saved part outlives every kill. */
  lemma SavedStays(trace: seq<App>, events: seq<Event>, i: nat, file: File)
    requires Run(trace, events) && i < |events| && Wanted(trace[i + 1], file) && HasPart(trace[i].disk.saved, file)
    requires file in trace[i].noted
    ensures HasPart(trace[i + 1].disk.saved, file)
  {
    RunKeeps(trace, events, i);
    RunKeeps(trace, events, i + 1);
    var a, e := trace[i], events[i];
    assert Enabled(a, e) && trace[i + 1] == Next(a, e);
    assert EtagKept(a, file);
    if e.AdoptBegun? { DroppedInAll(Progress(a.rows, a.disk, {}, a.dropped), e.seen, a.me, file.id); }
  }

  /**
   An upload stops being waited for exactly in a step that drops its note, while another account than its own is signed
   in; that sees it through, here or in the extension, or has it sealed again; or that takes the account's data.
   */
  lemma EndsExactly(trace: seq<App>, events: seq<Event>, i: nat, id: Id)
    requires Run(trace, events) && i < |events| && Live(trace[i], id)
    ensures var a, b, e := trace[i], trace[i + 1], events[i];
            !Live(b, id) <==>
              || (id in b.dropped && e.AdoptBegun? && a.me.Some? && a.written[id].owner != a.me)
              || SeenThrough(a, e, id)
              || TakesData(a, e)
    ensures var b := trace[i + 1];
            !Live(b, id) && id in b.over ==> (b.over[id] == Wiped <==> TakesData(trace[i], events[i]))
  {
    var a, e := trace[i], events[i];
    assert Enabled(a, e) && trace[i + 1] == Next(a, e);
    if id in trace[i + 1].dropped { DroppedForAnotherAccount(trace, events, i, id); }
    hide Run, AdoptAll;
  }

  /** The extension finishes it, or its record ends or is sealed again. */
  predicate SeenThrough(a: App, e: Event, id: Id) {
    || e == FinishedByExtension(id)
    || (e.Ended? && e.at < |a.rows| && a.rows[e.at].id == id)
    || (e.SealedAgain? && e.at < |a.rows| && a.rows[e.at].id == id)
  }

  /** A note is dropped only while another account than its own is signed in. */
  lemma DroppedForAnotherAccount(trace: seq<App>, events: seq<Event>, i: nat, id: Id)
    requires Run(trace, events) && i + 1 < |trace| && id in trace[i + 1].dropped && id !in trace[i].dropped
    ensures trace[i].me.Some? && id in trace[i].written && trace[i].written[id].owner != trace[i].me
  {
    RunKeeps(trace, events, i);
    var a, e := trace[i], events[i];
    assert Enabled(a, e) && trace[i + 1] == Next(a, e);
    if e.AdoptBegun? { DroppedInAll(Progress(a.rows, a.disk, {}, a.dropped), e.seen, a.me, id); }
  }

  lemma {:induction false} DroppedInAll(p: Progress, seen: seq<Id>, me: Option<Account>, id: Id)
    requires forall i, j | 0 <= i < j < |seen| :: seen[i] != seen[j]
    requires forall i | 0 <= i < |seen| :: seen[i] in p.disk.notes
    ensures var q := AdoptAll(p, seen, me);
            && (id in q.dropped && id !in p.dropped ==> me.Some? && id in p.disk.notes && p.disk.notes[id].owner != me)
            && p.dropped <= q.dropped && q.disk.saved == p.disk.saved
            && (forall other | other in q.disk.notes :: other in p.disk.notes && q.disk.notes[other] == p.disk.notes[other])
  {
    if seen != [] {
      var before, last := seen[..|seen| - 1], seen[|seen| - 1];
      assert last !in before;
      DroppedInAll(p, before, me, id);
    }
  }

  lemma AgainOne(p: Progress, id: Id, me: Option<Account>)
    requires id in p.disk.notes && id in IdsOf(p.rows)
    ensures AdoptOne(p, id, me) == p.(taken := p.taken + {NoteOf(id)})
  {
  }

  function NotesOf(seen: seq<Id>): (notes: set<Removal>) {
    set id | id in seen :: NoteOf(id)
  }

  /** Adopting again finds every record where it is: the records do not change, and only the notes go. */
  lemma {:induction false} AdoptingAgainAddsNothing(p: Progress, seen: seq<Id>, me: Option<Account>)
    requires forall i, j | 0 <= i < j < |seen| :: seen[i] != seen[j]
    requires forall i | 0 <= i < |seen| :: seen[i] in p.disk.notes && seen[i] in IdsOf(p.rows)
    ensures AdoptAll(p, seen, me) == p.(taken := AdoptAll(p, seen, me).taken)
    ensures AdoptAll(p, seen, me).taken == p.taken + NotesOf(seen)
  {
    hide AdoptOne;
    if seen != [] {
      var before, last := seen[..|seen| - 1], seen[|seen| - 1];
      assert last !in before;
      AdoptingAgainAddsNothing(p, before, me);
      AgainOne(AdoptAll(p, before, me), last, me);
      assert seen == before + [last];
      assert NotesOf(seen) == NotesOf(before) + {NoteOf(last)};
    }
  }

  /** After adopting, the records are those there were and exactly the notes' of the account signed in. */
  lemma {:induction false} OwnNotesJoin(p: Progress, seen: seq<Id>, me: Option<Account>, id: Id)
    requires forall i, j | 0 <= i < j < |seen| :: seen[i] != seen[j]
    requires forall i | 0 <= i < |seen| :: seen[i] in p.disk.notes
    ensures id in IdsOf(AdoptAll(p, seen, me).rows) <==> id in IdsOf(p.rows) || (id in seen && me.Some? && p.disk.notes[id].owner == me)
  {
    if seen != [] {
      var before, last := seen[..|seen| - 1], seen[|seen| - 1];
      assert last !in before && seen == before + [last];
      OwnNotesJoin(p, before, me, id);
      OwnNotesJoin(p, before, me, last);
      DroppedInAll(p, before, me, last);
      var q := AdoptAll(p, before, me);
      assert q.disk.notes[last] == p.disk.notes[last];
      OneJoins(q, last, me);
      hide AdoptOne;
    }
  }

  lemma OneJoins(p: Progress, id: Id, me: Option<Account>)
    requires id in p.disk.notes
    ensures IdsOf(AdoptOne(p, id, me).rows) == IdsOf(p.rows) + if me.Some? && p.disk.notes[id].owner == me then {id} else {}
    ensures AdoptOne(p, id, me).rows != p.rows ==>
              AdoptOne(p, id, me).rows == p.rows + [Joined(id, p.disk.notes[id], p.disk.files)]
  {
    hide AllThere, LandedParts;
    IdsAppend(p.rows, Joined(id, p.disk.notes[id], p.disk.files));
  }

  // -- The queue's own pass over the notes ---------------------------------------------------------------------------------------

  class Adopter {
    var rows: seq<Row>
    var notes: map<Id, Note>
    var files: map<File, nat>
    ghost var dropped: set<Id>

    ghost function Now(saved: seq<Row>, taken: set<Removal>): (p: Progress)
      reads this
    {
      Progress(rows, Disk(notes, files, saved), taken, dropped)
    }

    /** Whether the queue has a record of this id. */
    method Has(id: Id) returns (found: bool)
      ensures found <==> id in IdsOf(rows)
    {
      found := false;
      for k := 0 to |rows|
        invariant !found && forall i | 0 <= i < k :: rows[i].id != id
      {
        if rows[k].id == id { return true; }
      }
    }

    /** One note: its record is there already, it waits, it goes with its folder, or a record joins the queue. */
    method AdoptNote(id: Id, me: Option<Account>, before: set<Removal>, ghost saved: seq<Row>) returns (taken: set<Removal>)
      requires id in notes
      modifies this
      ensures Now(saved, taken) == AdoptOne(old(Now(saved, before)), id, me)
    {
      taken := before;
      var has := Has(id);
      if has {
        taken := taken + {NoteOf(id)};
      } else if me.Some? {
        var note := notes[id];
        if note.owner != me {
          dropped := dropped + {id};
          notes := notes - {id};
          files := FilesBut(files, id);
        } else {
          rows := rows + [Joined(id, note, files)];
          taken := taken + {NoteOf(id)} + set f | f in files && f.id == id && f.upload == note.upload :: PartOf(f);
        }
      }
    }

    /** `adoptHandoffs`, up to writing the records: each note found joins, waits, goes with its folder, or is only let go of. */
    method Adopt(seen: seq<Id>, me: Option<Account>, ghost saved: seq<Row>) returns (taken: set<Removal>)
      requires forall i, j | 0 <= i < j < |seen| :: seen[i] != seen[j]
      requires forall i | 0 <= i < |seen| :: seen[i] in notes
      modifies this
      ensures Now(saved, taken) == AdoptAll(old(Now(saved, {})), seen, me)
    {
      taken := {};
      ghost var p := Now(saved, {});
      for k := 0 to |seen|
        invariant Now(saved, taken) == AdoptAll(p, seen[..k], me)
      {
        var id := seen[k];
        assert seen[..k + 1][..k] == seen[..k] && id !in seen[..k];
        assert id in AdoptAll(p, seen[..k], me).disk.notes;
        hide AdoptOne;
        taken := AdoptNote(id, me, taken, saved);
      }
      assert seen[..|seen|] == seen;
    }
  }
}
