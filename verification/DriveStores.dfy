/**
 The store as the app keeps it: fields the steps of showings and listings change in place. Each method is one stretch
 between two waits, and is what `Families` says that stretch does.
 */
module DriveStores {
  import opened Common
  import opened Families

  class DriveStore {
    var session: Option<Vault>
    var generation: nat
    var familyStates: map<Group, FamilyState>
    var published: map<Group, nat>
    var revisions: map<Group, nat>
    var latest: nat
    var familyShown: map<Group, View>
    var familyDetails: map<Group, View>
    var familyAreas: set<Group>
    var clears: map<Group, nat>
    var started: nat
    var shownTicket: map<FolderId, nat>
    var folders: map<FolderId, nat>
    var familyFolders: map<FolderId, Group>
    var listings: map<OpId, Listing>
    var shows: map<OpId, Show>
    var walks: seq<(Group, nat)>
    // What became of each last publication, and every listing written: kept for the promises about them.
    ghost var fates: map<Group, Fate>
    ghost var writes: seq<Listing>

    ghost function DrawnNow(): (now: Drawn)
      reads `familyStates, `published, `revisions, `latest, `familyShown, `familyDetails, `familyAreas, `clears, `fates
    {
      Drawn(familyStates, published, revisions, latest, familyShown, familyDetails, familyAreas, clears, fates)
    }

    ghost function ListsNow(): (now: Lists)
      reads `started, `shownTicket, `folders, `familyFolders, `listings, `writes
    {
      Lists(started, shownTicket, folders, familyFolders, listings, writes)
    }

    ghost function Now(): (now: Store)
      reads this
    {
      Store(session, generation, DrawnNow(), ListsNow(), shows, walks)
    }

    constructor ()
      ensures Now() == START
    {
      session, generation, latest, started := None, 0, 0, 0;
      familyStates, published, revisions, familyShown, familyDetails, clears := map[], map[], map[], map[], map[], map[];
      familyAreas, shownTicket, folders, familyFolders, listings, shows, walks := {}, map[], map[], map[], map[], map[], [];
      fates, writes := map[], [];
    }

    predicate IsCurrent(token: Token)
      reads `session, `generation
      ensures IsCurrent(token) == Current(Now(), token)
    {
      token.generation == generation && session == Some(token.owner)
    }

    predicate IsStillShown(show: Show)
      reads `session, `generation, `published
      ensures IsStillShown(show) == StillShown(Now(), show)
    {
      IsCurrent(show.token) && Count(published, show.group) == show.shownAs
    }

    /** Publishes a state unless a later look is already shown. */
    method PublishFamily(g: Group, state: FamilyState, revision: Option<nat>, ghost fate: Fate) returns (admitted: bool)
      modifies `familyStates, `published, `revisions, `fates
      ensures admitted == old(DrawnNow()).Admits(g, revision)
      ensures admitted ==> Count(published, g) == Count(old(DrawnNow()).published, g) + 1
      ensures DrawnNow() == if admitted then old(DrawnNow()).Publish(g, state, revision, fate) else old(DrawnNow())
    {
      if revision.Some? && revision.value <= Count(revisions, g) { return false; }
      familyStates := familyStates[g := state];
      published := published[g := Count(published, g) + 1];
      revisions := revisions[g := if revision.Some? then revision.value else Max(Count(revisions, g), latest)];
      fates := fates[g := fate];
      return true;
    }

    /** A family's folders go off the screen, one by one. */
    method DropFolders(g: Group)
      modifies `folders
      ensures ListsNow() == old(ListsNow()).Without(g)
    {
      ghost var was := ListsNow();
      var rest := folders.Keys;
      while rest != {}
        invariant rest <= was.folders.Keys && familyFolders == was.families
        invariant folders == map f | f in was.folders && (f in rest || was.GroupOf(f) != Some(g)) :: was.folders[f]
        modifies `folders
      {
        var folder :| folder in rest;
        if folder in familyFolders && familyFolders[folder] == g {
          folders := folders - {folder};
        }
        rest := rest - {folder};
      }
    }

    /** What was drawn of a family goes, unless no folder is known to be its. */
    method ForgetView(g: Group, removed: bool)
      modifies `clears, `familyShown, `familyDetails
      ensures DrawnNow() == old(DrawnNow()).Clear(g, removed)
    {
      hide Forward;
      if g !in familyAreas { return; }
      clears := clears[g := Count(clears, g) + 1];
      familyShown := familyShown - {g};
      if removed { familyDetails := familyDetails - {g}; }
    }

    /** Drops what was drawn of a family, and notes the clear for the listings that are out. */
    method ClearFamily(g: Group, removed: bool)
      modifies `folders, `clears, `familyShown, `familyDetails
      ensures Now() == Clear(old(Now()), g, removed)
    {
      assert g in familyAreas <==> g in old(DrawnNow()).areas;
      hide ListsNow, Lists.Without, Drawn.Clear, DrawnNow;
      if g in familyAreas { DropFolders(g); }
      ForgetView(g, removed);
    }

    /** `show`, to its first wait. */
    method ShowState(op: OpId, token: Token, g: Group, state: FamilyState, revision: Option<nat>)
      modifies this
      ensures Now() == ShowBegin(old(Now()), op, token, g, state, revision)
    {
      hide DrawnNow, ListsNow, Drawn.Publish, Drawn.Admits, Current, IsCurrent;
      if !IsCurrent(token) { return; }
      var admitted := PublishFamily(g, state, revision, Pending);
      if !admitted { return; }
      shows := shows[op := Show(g, state, token, Count(published, g), ForAreas, {})];
    }

    /** A join that finished while no list names its family: published, and shown by nothing. */
    method Joined(token: Token, g: Group, state: FamilyState, revision: Option<nat>)
      modifies this
      ensures Now() == JoinedAlone(old(Now()), token, g, state, revision)
    {
      hide DrawnNow, ListsNow, Drawn.Publish, Drawn.Admits, Current, IsCurrent;
      if !IsCurrent(token) { return; }
      var _ := PublishFamily(g, state, revision, Unshown(DrawnNow().View(g)));
    }

    ghost method NoteFate(show: Show, fate: Fate)
      modifies `fates
      ensures DrawnNow() == old(DrawnNow()).Fated(show, fate)
    {
      if Count(published, show.group) == show.shownAs && show.group in fates && fates[show.group] == Pending {
        fates := fates[show.group := fate];
      }
    }

    /** Resumed with the known areas, or without an answer. */
    method ShowAreas(op: OpId, known: Option<set<Group>>)
      requires op in shows
      modifies this
      ensures Now() == AreasCame(old(Now()), op, known)
    {
      var show := shows[op];
      if known.None? || !IsCurrent(show.token) {
        NoteFate(show, CutShort);
        shows := shows - {op};
      } else {
        shows := shows[op := show.(wait := ForEvicted, known := known.value)];
      }
    }

    /** Resumed once the evicted rows are off the screens: the areas are learned, whoever shows the family now. */
    method ShowEvicted(op: OpId)
      requires op in shows
      modifies this
      ensures Now() == EvictedCame(old(Now()), op)
    {
      hide Showing;
      familyAreas := familyAreas + shows[op].known;
      assert Now() == Learned(old(Now()), shows[op].known);
      ShowIt(op);
    }

    /** The view is shown, or the family cleared, or nothing, if the showing is still the latest. */
    method ShowIt(op: OpId)
      requires op in shows
      modifies this
      ensures Now() == Showing(old(Now()), op)
    {
      var show := shows[op];
      if !IsStillShown(show) {
        NoteFate(show, CutShort);
        shows := shows - {op};
        return;
      }
      match show.state
      case Accepted(view) =>
        NoteFate(show, Applied);
        familyShown := familyShown[show.group := view];
        shows := shows[op := show.(wait := ForDetail)];
      case NoAnswer =>
        NoteFate(show, Kept);
        shows := shows - {op};
      case _ =>
        NoteFate(show, if show.group in familyAreas then Applied else NoArea);
        shows := shows - {op};
        ClearFamily(show.group, show.state == Wiped);
    }

    /** Resumed with the family's detail. */
    method ShowDetail(op: OpId, answered: bool, detail: View)
      requires op in shows
      modifies this
      ensures Now() == DetailCame(old(Now()), op, answered, detail)
    {
      var show := shows[op];
      if !answered || !IsStillShown(show) {
        shows := shows - {op};
      } else {
        familyDetails := familyDetails[show.group := detail];
        shows := shows[op := show.(wait := ForListing)];
      }
    }

    /** Resumed after one of its folders was listed again; after the last, the walks start. */
    method ShowRelisted(op: OpId, more: bool)
      requires op in shows
      modifies this
      ensures Now() == RelistCame(old(Now()), op, more)
    {
      var show := shows[op];
      if !IsStillShown(show) {
        shows := shows - {op};
      } else if !more {
        shows := shows - {op};
        walks := walks + [(show.group, show.shownAs)];
      }
    }

    /** A removal the list found: published as the latest now, and cleared at once. */
    method Removed(g: Group, wiped: bool)
      modifies this
      ensures Now() == Removal(old(Now()), g, wiped)
    {
      var _ := PublishFamily(g, if wiped then Wiped else Refused, None, if g in familyAreas then Applied else NoArea);
      ClearFamily(g, wiped);
    }

    /** Every shown family's publications move on, one after another. */
    method MoveOn()
      modifies `published
      ensures published == map g | g in old(published).Keys + familyStates.Keys :: Count(old(published), g) + (if g in familyStates then 1 else 0)
    {
      ghost var was := published;
      var rest := familyStates.Keys;
      while rest != {}
        invariant rest <= familyStates.Keys
        invariant published.Keys == was.Keys + (familyStates.Keys - rest)
        invariant forall g | g in published :: published[g] == Count(was, g) + (if g in familyStates.Keys - rest then 1 else 0)
        modifies `published
      {
        var g :| g in rest;
        published := published[g := Count(published, g) + 1];
        rest := rest - {g};
      }
    }

    /** What is drawn of the families goes. */
    method ForgetDrawn()
      modifies `published, `revisions, `familyStates, `familyShown, `familyDetails, `fates
      ensures DrawnNow() == old(DrawnNow()).Reset()
    {
      hide Forward;
      MoveOn();
      revisions, familyStates, familyShown, familyDetails, fates := map[], map[], map[], map[], map[];
    }

    /** The session ended or is replaced: what it has out is late, and what is drawn goes. */
    method ResetFamilies()
      modifies this
      ensures Now() == Reset(old(Now()))
    {
      hide DrawnNow, Drawn.Reset;
      generation := generation + 1;
      ForgetDrawn();
    }

    /** A listing begins, unless its folder is a family's and it isn't a refresh, or its session is over. */
    method List(op: OpId, kind: Kind, folder: FolderId, token: Option<Token>)
      modifies this
      ensures Now() == ListBegin(old(Now()), op, kind, folder, token)
    {
      if kind != Refresh && folder in familyFolders { return; }
      if token.Some? && !IsCurrent(token.value) { return; }
      var mark := if folder in familyFolders then Mark(Some(familyFolders[folder]), Count(clears, familyFolders[folder])) else Mark(None, 0);
      started := started + 1;
      listings := listings[op := Listing(kind, folder, token, started, mark)];
    }

    predicate Admitted(mark: Mark)
      reads `clears, `familyStates
      ensures Admitted(mark) == MarkAdmits(DrawnNow(), mark)
    {
      mark.group.Some? ==>
        && Count(clears, mark.group.value) == mark.clears
        && mark.group.value in familyStates && (familyStates[mark.group.value].Accepted? || familyStates[mark.group.value] == NoAnswer)
    }

    predicate SaysRemoved(folder: FolderId)
      reads `familyFolders, `familyStates
      ensures SaysRemoved(folder) == IsRemoved(Now(), folder)
    {
      folder in familyFolders && familyFolders[folder] in familyStates && familyStates[familyFolders[folder]] == Wiped
    }

    /** Whether what answered now may land: its session first, then a removal, then the family's mark, then its ticket. */
    predicate MayLand(l: Listing)
      reads this
      ensures MayLand(l) == Lands(Now(), l)
    {
      && (l.kind != Catalogue ==> l.token.Some? && IsCurrent(l.token.value))
      && !(l.kind == Refresh && SaysRemoved(l.folder))
      && (l.kind != Catalogue ==> Admitted(l.mark))
      && l.ticket > Count(shownTicket, l.folder)
    }

    /** The rows that land, or the word in their place: an older listing then shows nothing after it. */
    method Land(l: Listing, rows: bool, learned: map<FolderId, Group>)
      modifies `shownTicket, `folders, `familyFolders, `writes
      ensures ListsNow() == if rows then old(ListsNow()).Write(l, learned) else old(ListsNow()).(shownTicket := old(shownTicket)[l.folder := l.ticket])
    {
      shownTicket := shownTicket[l.folder := l.ticket];
      if rows {
        folders := folders[l.folder := l.ticket];
        familyFolders := familyFolders + learned;
        writes := writes + [l];
      }
    }

    /** A listing answered or failed. A refresh that finds its family removed takes the folder's rows off. */
    method Listed(op: OpId, rows: bool, learned: map<FolderId, Group>)
      requires op in listings
      modifies this
      ensures Now() == ListCame(old(Now()), op, rows, learned)
    {
      hide Lands, MarkAdmits, IsRemoved, Current, MayLand, SaysRemoved, IsCurrent, DrawnNow, Lists.Write;
      var l := listings[op];
      var lands := MayLand(l);
      var removed := l.kind == Refresh && l.token.Some? && IsCurrent(l.token.value) && SaysRemoved(l.folder);
      listings := listings - {op};
      if lands {
        if rows || l.kind == Refresh { Land(l, rows, learned); }
      } else if removed {
        folders := folders - {l.folder};
      }
    }
  }
}
