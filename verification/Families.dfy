/**
 Overlapping showings of families and listings of folders, each split where it waits. Sessions are ordered by the gate's
 generation, publications by a count, answers by their revision, listings by a ticket and by their family's clears.
 */
module Families {
  import opened Common

  type Group = nat
  type FolderId = nat
  type Vault = nat
  type View = nat
  type OpId = nat

  /** A family's state as a check finds it; `Refused` is a fork, a refusal, a wipe that could not finish. */
  datatype FamilyState = Accepted(view: View) | NoAnswer | Refused | Wiped

  /** Where an operation began: its session's vault, and the gate's generation then. */
  datatype Token = Token(owner: Vault, generation: nat)

  /** Where a showing waits: for the known areas, the evicted rows, the family's detail, or a relisting. */
  datatype Wait = ForAreas | ForEvicted | ForDetail | ForListing

  /** `known`: the areas it was told of, learned once its next wait is over. */
  datatype Show = Show(group: Group, state: FamilyState, token: Token, shownAs: nat, wait: Wait, known: set<Group>)

  /** A folder's family as a listing began, and that family's clears then. */
  datatype Mark = Mark(group: Option<Group>, clears: nat)

  /** `Catalogue` belongs to no session and takes no mark; the others do. */
  datatype Kind = Refresh | Pull | Settle | Catalogue

  datatype Listing = Listing(kind: Kind, folder: FolderId, token: Option<Token>, ticket: nat, mark: Mark)

  /** What became of a family's last publication. */
  datatype Fate =
    | Pending            // its showing still waits
    | Applied            // shown, or cleared, as it says
    | Kept               // no answer: what was drawn stays
    | NoArea             // a refusal of a family no area is known of: nothing to clear
    | CutShort           // its showing got no answer where it needed one
    | Unshown(was: Option<View>)  // published with no showing at all, over what was drawn then

  function Count<K>(m: map<K, nat>, k: K): (count: nat) {
    if k in m then m[k] else 0
  }

  function Max(a: nat, b: nat): (m: nat) { if a < b then b else a }

  // -- Families as they are drawn -----------------------------------------------------------------------------------------

  /** Each family's state, its publications and revision, what is drawn of it, its clears, and the fate of its last publication. */
  datatype Drawn = Drawn(
    states: map<Group, FamilyState>,
    published: map<Group, nat>,
    revisions: map<Group, nat>,
    latest: nat,
    shown: map<Group, View>,
    details: map<Group, View>,
    areas: set<Group>,
    clears: map<Group, nat>,
    fates: map<Group, Fate>)
  {
    /** FamilyRevisions.admits: only a later look replaces what is shown; an answer without a revision is the latest now. */
    predicate Admits(g: Group, revision: Option<nat>) {
      revision.Some? ==> revision.value > Count(revisions, g)
    }

    function Publish(g: Group, state: FamilyState, revision: Option<nat>, fate: Fate): (d: Drawn)
      ensures Forward(this, d)
    {
      this.(states := states[g := state], published := published[g := Count(published, g) + 1],
            revisions := revisions[g := if revision.Some? then revision.value else Max(Count(revisions, g), latest)],
            fates := fates[g := fate])
    }

    /** What was drawn of a family goes: its view, and once removed its detail. */
    function Clear(g: Group, removed: bool): (d: Drawn)
      ensures Forward(this, d)
    {
      if g !in areas then this
      else this.(clears := clears[g := Count(clears, g) + 1], shown := shown - {g}, details := if removed then details - {g} else details)
    }

    /** A publication that is still the last comes to its fate. */
    function Fated(show: Show, fate: Fate): (d: Drawn)
      ensures Forward(this, d)
    {
      if Count(published, show.group) == show.shownAs && show.group in fates && fates[show.group] == Pending
      then this.(fates := fates[show.group := fate]) else this
    }

    function View(g: Group): (view: Option<View>) {
      if g in shown then Some(shown[g]) else None
    }

    /** The session ended: what is drawn goes, each shown family's publications move on; which areas are families' stays. */
    function Reset(): (d: Drawn)
      ensures Forward(this, d)
    {
      this.(published := map g | g in published.Keys + states.Keys :: Count(published, g) + (if g in states then 1 else 0),
            revisions := map[], states := map[], shown := map[], details := map[], fates := map[])
    }
  }

  /** Publications and clears are only ever counted on. */
  ghost predicate Forward(d: Drawn, r: Drawn) {
    && (forall g :: Count(d.published, g) <= Count(r.published, g))
    && (forall g :: Count(d.clears, g) <= Count(r.clears, g))
  }

  // -- Listings -------------------------------------------------------------------------------------------------------------

  /** The rows of each folder by the ticket of the listing that wrote them, which family a folder is of, and every listing written. */
  datatype Lists = Lists(
    started: nat,
    shownTicket: map<FolderId, nat>,
    folders: map<FolderId, nat>,
    families: map<FolderId, Group>,
    listings: map<OpId, Listing>,
    writes: seq<Listing>)
  {
    function GroupOf(f: FolderId): (group: Option<Group>) {
      if f in families then Some(families[f]) else None
    }

    /** A family's folders go off the screen. */
    function Without(g: Group): (after: Lists) {
      this.(folders := map f | f in folders && GroupOf(f) != Some(g) :: folders[f])
    }

    function Begin(op: OpId, kind: Kind, folder: FolderId, token: Option<Token>, clears: map<Group, nat>): (after: Lists) {
      var group := GroupOf(folder);
      this.(started := started + 1,
            listings := listings[op := Listing(kind, folder, token, started + 1, Mark(group, if group.Some? then Count(clears, group.value) else 0))])
    }

    /** ListingOrder.admits: never one begun before the last shown. */
    predicate Newer(l: Listing) {
      l.ticket > Count(shownTicket, l.folder)
    }

    function Write(l: Listing, learned: map<FolderId, Group>): (after: Lists) {
      this.(shownTicket := shownTicket[l.folder := l.ticket], folders := folders[l.folder := l.ticket],
            families := families + learned, writes := writes + [l])
    }
  }

  datatype Store = Store(session: Option<Vault>, generation: nat, drawn: Drawn, lists: Lists, shows: map<OpId, Show>, walks: seq<(Group, nat)>)

  const START := Store(None, 0, Drawn(map[], map[], map[], 0, map[], map[], {}, map[], map[]), Lists(0, map[], map[], map[], map[], []), map[], [])

  /** SessionGate.current. */
  predicate Current(s: Store, token: Token) {
    token.generation == s.generation && s.session == Some(token.owner)
  }

  /** A showing goes on only while its publication is still the latest. */
  predicate StillShown(s: Store, show: Show) {
    Current(s, show.token) && Count(s.drawn.published, show.group) == show.shownAs
  }

  // -- The steps of a showing -------------------------------------------------------------------------------------------------

  function Clear(s: Store, g: Group, removed: bool): (after: Store) {
    s.(drawn := s.drawn.Clear(g, removed), lists := if g in s.drawn.areas then s.lists.Without(g) else s.lists)
  }

  function Leave(s: Store, op: OpId, fate: Fate): (after: Store)
    requires op in s.shows
  {
    s.(drawn := s.drawn.Fated(s.shows[op], fate), shows := s.shows - {op})
  }

  /** `show`, as far as its first wait. */
  function ShowBegin(s: Store, op: OpId, token: Token, g: Group, state: FamilyState, revision: Option<nat>): (after: Store) {
    if !Current(s, token) || !s.drawn.Admits(g, revision) then s
    else
      s.(drawn := s.drawn.Publish(g, state, revision, Pending),
         shows := s.shows[op := Show(g, state, token, Count(s.drawn.published, g) + 1, ForAreas, {})])
  }

  /** A join whose family no list names: published, and shown by nothing. */
  function JoinedAlone(s: Store, token: Token, g: Group, state: FamilyState, revision: Option<nat>): (after: Store) {
    if !Current(s, token) || !s.drawn.Admits(g, revision) then s
    else s.(drawn := s.drawn.Publish(g, state, revision, Unshown(s.drawn.View(g))))
  }

  /** Told which areas are families'; without an answer the showing ends here. */
  function AreasCame(s: Store, op: OpId, known: Option<set<Group>>): (after: Store)
    requires op in s.shows
  {
    if known.None? || !Current(s, s.shows[op].token) then Leave(s, op, CutShort)
    else s.(shows := s.shows[op := s.shows[op].(wait := ForEvicted, known := known.value)])
  }

  /** Which areas are families' is only ever learned, whoever shows the family now. */
  function Learned(s: Store, known: set<Group>): (after: Store) {
    s.(drawn := s.drawn.(areas := s.drawn.areas + known))
  }

  function EvictedCame(s: Store, op: OpId): (after: Store)
    requires op in s.shows
  {
    Showing(Learned(s, s.shows[op].known), op)
  }

  /** The view is shown, or the family cleared, or nothing, if this showing is still the latest. */
  function Showing(s: Store, op: OpId): (after: Store)
    requires op in s.shows
  {
    var show := s.shows[op];
    var g := show.group;
    if !StillShown(s, show) then Leave(s, op, CutShort)
    else
      match show.state
      case Accepted(view) =>
        var drawn := s.drawn.Fated(show, Applied);
        s.(drawn := drawn.(shown := drawn.shown[g := view]), shows := s.shows[op := show.(wait := ForDetail)])
      case NoAnswer => Leave(s, op, Kept)
      case _ => Clear(Leave(s, op, if g in s.drawn.areas then Applied else NoArea), g, show.state == Wiped)
  }

  function DetailCame(s: Store, op: OpId, answered: bool, detail: View): (after: Store)
    requires op in s.shows
  {
    var show := s.shows[op];
    if !answered || !StillShown(s, show) then s.(shows := s.shows - {op})
    else s.(drawn := s.drawn.(details := s.drawn.details[show.group := detail]), shows := s.shows[op := show.(wait := ForListing)])
  }

  /** One of its folders listed again; after the last (`more` is false) the walks start. */
  function RelistCame(s: Store, op: OpId, more: bool): (after: Store)
    requires op in s.shows
  {
    var show := s.shows[op];
    if !StillShown(s, show) then s.(shows := s.shows - {op})
    else if more then s
    else s.(shows := s.shows - {op}, walks := s.walks + [(show.group, show.shownAs)])
  }

  /** A removal the list found (`wiped`), or one whose wipe waits: published as the latest now, and cleared at once. */
  function Removal(s: Store, g: Group, wiped: bool): (after: Store) {
    var fate := if g in s.drawn.areas then Applied else NoArea;
    Clear(s.(drawn := s.drawn.Publish(g, if wiped then Wiped else Refused, None, fate)), g, wiped)
  }

  /** The session ended or is replaced: nothing begun before lands. */
  function Reset(s: Store): (after: Store) {
    s.(generation := s.generation + 1, drawn := s.drawn.Reset())
  }

  // -- The steps of a listing ---------------------------------------------------------------------------------------------------

  /** FamilyListings.admits: no clear since the mark, and the family open (or its answer only missing). */
  predicate MarkAdmits(d: Drawn, mark: Mark) {
    mark.group.Some? ==>
      && Count(d.clears, mark.group.value) == mark.clears
      && mark.group.value in d.states && (d.states[mark.group.value].Accepted? || d.states[mark.group.value] == NoAnswer)
  }

  /** The folder's family says this account was removed. */
  predicate IsRemoved(s: Store, folder: FolderId) {
    var g := s.lists.GroupOf(folder);
    g.Some? && g.value in s.drawn.states && s.drawn.states[g.value] == Wiped
  }

  /** A family's folder is listed by a refresh alone, under all its guards. */
  function ListBegin(s: Store, op: OpId, kind: Kind, folder: FolderId, token: Option<Token>): (after: Store) {
    if (kind != Refresh && s.lists.GroupOf(folder).Some?) || (token.Some? && !Current(s, token.value)) then s
    else s.(lists := s.lists.Begin(op, kind, folder, token, s.drawn.clears))
  }

  /** Whether a listing that answered now may land. */
  predicate Lands(s: Store, l: Listing) {
    && (l.kind != Catalogue ==> l.token.Some? && Current(s, l.token.value) && MarkAdmits(s.drawn, l.mark))
    && (l.kind == Refresh ==> !IsRemoved(s, l.folder))
    && s.lists.Newer(l)
  }

  /** The rows came (`rows`), or the listing failed; `learned` is what its rows tell of which folders are families'. */
  function ListCame(s: Store, op: OpId, rows: bool, learned: map<FolderId, Group>): (after: Store)
    requires op in s.lists.listings
  {
    var l := s.lists.listings[op];
    var rest := s.lists.(listings := s.lists.listings - {op});
    if Lands(s, l) then
      if rows then s.(lists := rest.Write(l, learned))
      // A failed refresh says why in the folder's place: an older listing then shows nothing after it.
      else if l.kind == Refresh then s.(lists := rest.(shownTicket := rest.shownTicket[l.folder := l.ticket]))
      else s.(lists := rest)
    else if l.kind == Refresh && l.token.Some? && Current(s, l.token.value) && IsRemoved(s, l.folder) then
      s.(lists := rest.(folders := rest.folders - {l.folder}))
    else s.(lists := rest)
  }

  // -- Runs ----------------------------------------------------------------------------------------------------------------------

  datatype Event =
    | EShow(op: OpId, token: Token, g: Group, state: FamilyState, revision: Option<nat>)
    | EJoined(token: Token, g: Group, state: FamilyState, revision: Option<nat>)
    | EAreas(op: OpId, known: Option<set<Group>>)
    | EEvicted(op: OpId)
    | EDetail(op: OpId, answered: bool, detail: View)
    | ERelisted(op: OpId, more: bool)
    | ERemoval(g: Group, wiped: bool)
    | EReset
    | ESession(vault: Option<Vault>)
    | ERevision
    | EList(op: OpId, kind: Kind, folder: FolderId, within: Option<Token>)
    | EListed(op: OpId, rows: bool, learned: map<FolderId, Group>)
    | ELearned(folder: FolderId, g: Group)

  predicate OfShow(e: Event) {
    e.EAreas? || e.EEvicted? || e.EDetail? || e.ERelisted?
  }

  predicate Enabled(s: Store, e: Event) {
    match e
    case EShow(op, token, _, _, revision) =>
      op !in s.shows && token.generation <= s.generation && (revision.Some? ==> revision.value <= s.drawn.latest)
    case EJoined(token, _, _, revision) => token.generation <= s.generation && (revision.Some? ==> revision.value <= s.drawn.latest)
    case EAreas(op, _) => op in s.shows && s.shows[op].wait == ForAreas
    case EEvicted(op) => op in s.shows && s.shows[op].wait == ForEvicted
    case EDetail(op, _, _) => op in s.shows && s.shows[op].wait == ForDetail
    case ERelisted(op, _) => op in s.shows && s.shows[op].wait == ForListing
    case EList(op, kind, _, within) =>
      op !in s.lists.listings && (kind == Catalogue <==> within.None?) && (within.Some? ==> within.value.generation <= s.generation)
    case EListed(op, _, learned) => op in s.lists.listings && learned.Keys !! s.lists.families.Keys
    case ELearned(f, _) => f !in s.lists.families
    case _ => true
  }

  function Next(s: Store, e: Event): (after: Store)
    requires Enabled(s, e)
  {
    match e
    case EShow(op, token, g, state, revision) => ShowBegin(s, op, token, g, state, revision)
    case EJoined(token, g, state, revision) => JoinedAlone(s, token, g, state, revision)
    case EAreas(op, known) => AreasCame(s, op, known)
    case EEvicted(op) => EvictedCame(s, op)
    case EDetail(op, answered, detail) => DetailCame(s, op, answered, detail)
    case ERelisted(op, more) => RelistCame(s, op, more)
    case ERemoval(g, wiped) => Removal(s, g, wiped)
    case EReset => Reset(s)
    case ESession(vault) => s.(session := vault)
    case ERevision => s.(drawn := s.drawn.(latest := s.drawn.latest + 1))
    case EList(op, kind, folder, within) => ListBegin(s, op, kind, folder, within)
    case EListed(op, rows, learned) => ListCame(s, op, rows, learned)
    case ELearned(f, g) => s.(lists := s.lists.(families := s.lists.families[f := g]))
  }

  ghost predicate Run(trace: seq<Store>, events: seq<Event>) {
    && |trace| == |events| + 1 && trace[0] == START
    && forall i {:trigger events[i]} | 0 <= i < |events| :: Enabled(trace[i], events[i]) && trace[i + 1] == Next(trace[i], events[i])
  }

  // -- What every moment keeps -------------------------------------------------------------------------------------------------

  /** The last publication of a family whose fate is settled shows in what is drawn of it. */
  ghost predicate FateOk(d: Drawn, shows: map<OpId, Show>, g: Group)
    requires g in d.fates && g in d.states
  {
    match d.fates[g]
    case Applied => if d.states[g].Accepted? then g in d.shown && d.shown[g] == d.states[g].view else d.states[g] != NoAnswer && g !in d.shown
    case Pending => exists op :: op in shows && IsLatest(d, shows[op]) && shows[op].group == g
    case Kept => d.states[g] == NoAnswer
    case NoArea => !d.states[g].Accepted? && d.states[g] != NoAnswer
    case CutShort => true
    case Unshown(was) => d.View(g) == was
  }

  ghost predicate IsLatest(d: Drawn, show: Show) {
    show.shownAs == Count(d.published, show.group)
  }

  /** A showing that is still the latest is of the state published last, and has shown it once it asked for the detail. */
  ghost predicate ShowOk(d: Drawn, show: Show) {
    && show.shownAs <= Count(d.published, show.group)
    && (IsLatest(d, show) ==>
          && show.group in d.states && d.states[show.group] == show.state && show.group in d.fates
          && (show.wait == ForAreas || show.wait == ForEvicted ==> d.fates[show.group] == Pending)
          && (show.wait == ForDetail || show.wait == ForListing ==> d.fates[show.group] == Applied && show.state.Accepted?))
  }

  ghost predicate ShowsOk(d: Drawn, shows: map<OpId, Show>) {
    && d.fates.Keys == d.states.Keys
    && (forall g | g in d.states :: Count(d.published, g) > 0)
    && (forall g | g in d.states :: FateOk(d, shows, g))
    && (forall op | op in shows :: ShowOk(d, shows[op]))
    && (forall a, b | a in shows && b in shows && shows[a].group == shows[b].group && shows[a].shownAs == shows[b].shownAs :: a == b)
  }

  ghost predicate ListingOk(s: Store, l: Listing) {
    && l.ticket <= s.lists.started
    && (l.mark.group.Some? ==> l.mark.clears <= Count(s.drawn.clears, l.mark.group.value))
    && (l.token.Some? ==> l.token.value.generation <= s.generation)
    && (l.kind == Catalogue <==> l.token.None?)
  }

  ghost predicate WritesOk(l: Lists) {
    && (forall f | f in l.shownTicket :: l.shownTicket[f] <= l.started)
    && (forall i | 0 <= i < |l.writes| :: l.writes[i].ticket <= Count(l.shownTicket, l.writes[i].folder))
    && (forall i, j | 0 <= i < j < |l.writes| && l.writes[i].folder == l.writes[j].folder :: l.writes[i].ticket < l.writes[j].ticket)
  }

  ghost predicate ListingsOk(s: Store) {
    WritesOk(s.lists) && forall op | op in s.lists.listings :: ListingOk(s, s.lists.listings[op])
  }

  /** The counters only move on. */
  ghost predicate MovesOn(s: Store, r: Store) {
    s.generation <= r.generation && s.lists.started <= r.lists.started && Forward(s.drawn, r.drawn)
  }

  lemma ForwardThen(d: Drawn, e: Drawn, f: Drawn)
    requires Forward(d, e) && Forward(e, f)
    ensures Forward(d, f)
  {
  }

  lemma ForwardWith(d: Drawn, areas: set<Group>, shown: map<Group, View>, details: map<Group, View>, latest: nat)
    ensures Forward(d, d.(areas := areas, shown := shown, details := details, latest := latest))
  {
  }

  /** What a showing's step makes of the counters and the listings: it writes no rows. */
  ghost predicate OnlyDraws(s: Store, r: Store) {
    && Forward(s.drawn, r.drawn) && r.generation == s.generation && r.session == s.session
    && r.lists == s.lists.(folders := r.lists.folders) && r.lists.folders.Keys <= s.lists.folders.Keys
  }

  lemma ClearOnlyDraws(s: Store, t: Store, g: Group, removed: bool)
    requires OnlyDraws(s, t)
    ensures OnlyDraws(s, Clear(t, g, removed))
  {
    ForwardThen(s.drawn, t.drawn, t.drawn.Clear(g, removed));
    hide Forward, Drawn.Clear;
  }

  lemma LearnedOnlyDraws(s: Store, known: set<Group>)
    ensures OnlyDraws(s, Learned(s, known))
  {
    ForwardWith(s.drawn, s.drawn.areas + known, s.drawn.shown, s.drawn.details, s.drawn.latest);
    hide Forward;
  }

  lemma OnlyDrawsThen(s: Store, m: Store, r: Store)
    requires OnlyDraws(s, m) && OnlyDraws(m, r)
    ensures OnlyDraws(s, r)
  {
    ForwardThen(s.drawn, m.drawn, r.drawn);
    hide Forward;
  }

  lemma ShowingOnlyDraws(s: Store, op: OpId)
    requires op in s.shows
    ensures OnlyDraws(s, Showing(s, op))
  {
    var show := s.shows[op];
    var g := show.group;
    hide Forward, Drawn.Clear, Drawn.Fated;
    if StillShown(s, show) && show.state.Accepted? {
      var drawn := s.drawn.Fated(show, Applied);
      ForwardWith(drawn, drawn.areas, drawn.shown[g := show.state.view], drawn.details, drawn.latest);
      ForwardThen(s.drawn, drawn, Showing(s, op).drawn);
    } else if StillShown(s, show) && show.state != NoAnswer {
      ClearOnlyDraws(s, Leave(s, op, if g in s.drawn.areas then Applied else NoArea), g, show.state == Wiped);
    }
  }

  lemma EvictedOnlyDraws(s: Store, op: OpId)
    requires op in s.shows
    ensures OnlyDraws(s, EvictedCame(s, op))
  {
    hide OnlyDraws, Learned, Showing;
    var m := Learned(s, s.shows[op].known);
    assert op in m.shows by { LearnedShows(s, s.shows[op].known); }
    LearnedOnlyDraws(s, s.shows[op].known);
    ShowingOnlyDraws(m, op);
    OnlyDrawsThen(s, m, Showing(m, op));
  }

  lemma LearnedShows(s: Store, known: set<Group>)
    ensures Learned(s, known).shows == s.shows
  {
  }

  lemma RemovalOnlyDraws(s: Store, g: Group, wiped: bool)
    ensures OnlyDraws(s, Removal(s, g, wiped))
  {
    hide Forward, Drawn.Publish, Drawn.Clear;
    var fate := if g in s.drawn.areas then Applied else NoArea;
    var published := s.(drawn := s.drawn.Publish(g, if wiped then Wiped else Refused, None, fate));
    ClearOnlyDraws(s, published, g, wiped);
    hide Clear;
  }

  lemma NextMovesOn(s: Store, e: Event)
    requires Enabled(s, e)
    ensures MovesOn(s, Next(s, e))
    ensures OfShow(e) || e.EShow? || e.EJoined? || e.ERemoval? ==> OnlyDraws(s, Next(s, e))
  {
    var r := Next(s, e);
    ForwardWith(s.drawn, r.drawn.areas, r.drawn.shown, r.drawn.details, r.drawn.latest);
    if e.EEvicted? { EvictedOnlyDraws(s, e.op); }
    if e.ERemoval? { RemovalOnlyDraws(s, e.g, e.wiped); }
    hide Forward, Drawn.Publish, Drawn.Clear, Drawn.Fated, Drawn.Reset, EvictedCame, Removal;
  }

  lemma StillOk(s: Store, r: Store, l: Listing)
    requires ListingOk(s, l) && MovesOn(s, r)
    ensures ListingOk(r, l)
  {
  }

  lemma ListBeginOk(s: Store, op: OpId, kind: Kind, folder: FolderId, within: Option<Token>)
    requires ListingsOk(s) && (within.Some? ==> within.value.generation <= s.generation) && (kind == Catalogue <==> within.None?)
    ensures ListingsOk(ListBegin(s, op, kind, folder, within))
  {
  }

  lemma WriteOk(l: Lists, listing: Listing, learned: map<FolderId, Group>)
    requires WritesOk(l) && l.Newer(listing) && listing.ticket <= l.started
    ensures WritesOk(l.Write(listing, learned))
  {
  }

  /** A failed listing may note its ticket, or take its folder off: the writes stay in order. */
  lemma NoteOk(l: Lists, listing: Listing)
    requires WritesOk(l) && listing.ticket <= l.started && l.Newer(listing)
    ensures WritesOk(l.(shownTicket := l.shownTicket[listing.folder := listing.ticket]))
  {
  }

  lemma OthersOk(s: Store, r: Store, op: OpId)
    requires ListingsOk(s) && op in s.lists.listings
    requires r == s.(lists := r.lists) && r.lists.started == s.lists.started && r.lists.listings == s.lists.listings - {op}
    ensures forall other | other in r.lists.listings :: ListingOk(r, r.lists.listings[other])
  {
    hide WritesOk;
    forall other | other in r.lists.listings ensures ListingOk(r, r.lists.listings[other]) { assert ListingOk(s, s.lists.listings[other]); }
  }

  lemma ListCameOk(s: Store, op: OpId, rows: bool, learned: map<FolderId, Group>)
    requires ListingsOk(s) && op in s.lists.listings
    ensures ListingsOk(ListCame(s, op, rows, learned))
  {
    var l := s.lists.listings[op];
    assert ListingOk(s, l);
    var rest := s.lists.(listings := s.lists.listings - {op});
    assert WritesOk(rest) && WritesOk(rest.(folders := rest.folders - {l.folder}));
    if Lands(s, l) {
      WriteOk(rest, l, learned);
      NoteOk(rest, l);
    }
    hide Lands, WritesOk, ListingOk, IsRemoved, Current;
    OthersOk(s, ListCame(s, op, rows, learned), op);
  }

  lemma NextListingsOk(s: Store, e: Event)
    requires ListingsOk(s) && Enabled(s, e)
    ensures ListingsOk(Next(s, e))
  {
    NextMovesOn(s, e);
    var r := Next(s, e);
    if e.EList? { ListBeginOk(s, e.op, e.kind, e.folder, e.within); }
    else if e.EListed? { ListCameOk(s, e.op, e.rows, e.learned); }
    else {
      assert r.lists.listings == s.lists.listings && WritesOk(r.lists);
      hide Next, MovesOn;
      forall op | op in r.lists.listings ensures ListingOk(r, r.lists.listings[op]) { StillOk(s, r, s.lists.listings[op]); }
    }
  }

  // -- Showings ----------------------------------------------------------------------------------------------------------------

  ghost predicate InOrder(s: Store) {
    ShowsOk(s.drawn, s.shows)
  }

  lemma PublishedOk(d: Drawn, shows: map<OpId, Show>, op: OpId, show: Show, revisions: map<Group, nat>)
    requires ShowsOk(d, shows) && op !in shows && show.shownAs == Count(d.published, show.group) + 1 && show.wait == ForAreas
    ensures var g := show.group;
            ShowsOk(d.(states := d.states[g := show.state], published := d.published[g := show.shownAs], revisions := revisions, fates := d.fates[g := Pending]),
                    shows[op := show])
  {
    var g := show.group;
    var e := d.(states := d.states[g := show.state], published := d.published[g := show.shownAs], revisions := revisions, fates := d.fates[g := Pending]);
    var after := shows[op := show];
    assert IsLatest(e, after[op]);
    forall h | h in e.states ensures FateOk(e, after, h) {
      if h != g { SameFate(d, shows, e, after, h); }
    }
    forall other | other in after ensures ShowOk(e, after[other]) { assert other != op ==> ShowOk(d, shows[other]); }
    forall a, b | a in after && b in after && after[a].group == after[b].group && after[a].shownAs == after[b].shownAs ensures a == b {
      assert a in shows ==> ShowOk(d, shows[a]);
      assert b in shows ==> ShowOk(d, shows[b]);
    }
  }

  lemma ShowBeginOk(s: Store, op: OpId, token: Token, g: Group, state: FamilyState, revision: Option<nat>)
    requires InOrder(s) && op !in s.shows
    ensures InOrder(ShowBegin(s, op, token, g, state, revision))
  {
    var r := ShowBegin(s, op, token, g, state, revision);
    hide ShowsOk, Forward;
    if r != s { PublishedOk(s.drawn, s.shows, op, r.shows[op], r.drawn.revisions); }
  }

  /** A family none of whose parts changed, and none of whose latest showings left. */
  lemma SameFate(d: Drawn, shows: map<OpId, Show>, e: Drawn, after: map<OpId, Show>, g: Group)
    requires g in d.states && g in d.fates && FateOk(d, shows, g)
    requires g in e.states && g in e.fates && e.states[g] == d.states[g] && e.fates[g] == d.fates[g]
    requires Count(e.published, g) == Count(d.published, g)
    requires g in d.shown <==> g in e.shown
    requires g in d.shown ==> e.shown[g] == d.shown[g]
    requires forall op | op in shows && shows[op].group == g && IsLatest(d, shows[op]) ::
               op in after && after[op].group == g && after[op].shownAs == shows[op].shownAs
    ensures FateOk(e, after, g)
  {
    if d.fates[g] == Pending {
      var op :| op in shows && IsLatest(d, shows[op]) && shows[op].group == g;
      assert IsLatest(e, after[op]);
    }
  }

  /** A showing leaves without another word: only the fate of its own publication may have changed. */
  lemma LeaveOk(s: Store, op: OpId, fate: Fate)
    requires InOrder(s) && op in s.shows
    requires fate == CutShort || (fate == Kept && s.shows[op].state == NoAnswer)
    ensures InOrder(Leave(s, op, fate))
  {
    var show := s.shows[op];
    var r := Leave(s, op, fate);
    assert ShowOk(s.drawn, show);
    forall g | g in r.drawn.states ensures FateOk(r.drawn, r.shows, g) {
      if g != show.group || !IsLatest(s.drawn, show) { SameFate(s.drawn, s.shows, r.drawn, r.shows, g); }
    }
    forall other | other in r.shows ensures ShowOk(r.drawn, r.shows[other]) { assert ShowOk(s.drawn, s.shows[other]); }
  }

  lemma AreasCameOk(s: Store, op: OpId, known: Option<set<Group>>)
    requires InOrder(s) && op in s.shows && s.shows[op].wait == ForAreas
    ensures InOrder(AreasCame(s, op, known))
  {
    if known.None? || !Current(s, s.shows[op].token) {
      LeaveOk(s, op, CutShort);
    } else {
      var r := AreasCame(s, op, known);
      assert ShowOk(s.drawn, s.shows[op]);
      forall g | g in r.drawn.states ensures FateOk(r.drawn, r.shows, g) { SameFate(s.drawn, s.shows, r.drawn, r.shows, g); }
      forall other | other in r.shows ensures ShowOk(r.drawn, r.shows[other]) { assert ShowOk(s.drawn, s.shows[other]); }
    }
  }

  lemma LearnedOk(s: Store, known: set<Group>)
    requires InOrder(s)
    ensures InOrder(Learned(s, known))
  {
    var r := Learned(s, known);
    forall g | g in r.drawn.states ensures FateOk(r.drawn, r.shows, g) { SameFate(s.drawn, s.shows, r.drawn, r.shows, g); }
    forall other | other in r.shows ensures ShowOk(r.drawn, r.shows[other]) { assert ShowOk(s.drawn, s.shows[other]); }
  }

  lemma AcceptedOk(s: Store, op: OpId)
    requires InOrder(s) && op in s.shows && s.shows[op].wait == ForEvicted
    requires StillShown(s, s.shows[op]) && s.shows[op].state.Accepted?
    ensures InOrder(Showing(s, op))
  {
    var show := s.shows[op];
    var r := Showing(s, op);
    assert ShowOk(s.drawn, show);
    forall g | g in r.drawn.states ensures FateOk(r.drawn, r.shows, g) {
      if g != show.group { SameFate(s.drawn, s.shows, r.drawn, r.shows, g); }
    }
    forall other | other in r.shows ensures ShowOk(r.drawn, r.shows[other]) { assert ShowOk(s.drawn, s.shows[other]); }
  }

  /** The last publication, a refusal, takes effect and its showing leaves. */
  lemma ClearedOk(d: Drawn, shows: map<OpId, Show>, op: OpId, fate: Fate, shown: map<Group, View>, clears: map<Group, nat>, details: map<Group, View>)
    requires ShowsOk(d, shows) && op in shows && shows[op].wait == ForEvicted && IsLatest(d, shows[op])
    requires !shows[op].state.Accepted? && shows[op].state != NoAnswer
    requires (fate == Applied && shown == d.shown - {shows[op].group}) || (fate == NoArea && shown == d.shown)
    ensures ShowsOk(d.(fates := d.fates[shows[op].group := fate], shown := shown, clears := clears, details := details), shows - {op})
  {
    var g := shows[op].group;
    var e := d.(fates := d.fates[g := fate], shown := shown, clears := clears, details := details);
    assert ShowOk(d, shows[op]);
    forall h | h in e.states ensures FateOk(e, shows - {op}, h) {
      if h != g { SameFate(d, shows, e, shows - {op}, h); }
    }
    hide FateOk;
    forall other | other in shows - {op} ensures ShowOk(e, shows[other]) { assert ShowOk(d, shows[other]); }
  }

  lemma RefusedOk(s: Store, op: OpId)
    requires InOrder(s) && op in s.shows && s.shows[op].wait == ForEvicted
    requires StillShown(s, s.shows[op]) && !s.shows[op].state.Accepted? && s.shows[op].state != NoAnswer
    ensures InOrder(Showing(s, op))
  {
    var g := s.shows[op].group;
    var r := Showing(s, op);
    assert ShowOk(s.drawn, s.shows[op]);
    hide ShowsOk, ShowOk, Forward;
    ClearedOk(s.drawn, s.shows, op, if g in s.drawn.areas then Applied else NoArea, r.drawn.shown, r.drawn.clears, r.drawn.details);
  }

  lemma EvictedCameOk(s: Store, op: OpId)
    requires InOrder(s) && op in s.shows && s.shows[op].wait == ForEvicted
    ensures InOrder(EvictedCame(s, op))
  {
    var show := s.shows[op];
    var m := Learned(s, show.known);
    LearnedOk(s, show.known);
    assert m.shows == s.shows;
    hide InOrder, Learned;
    if !StillShown(m, show) { LeaveOk(m, op, CutShort); }
    else if show.state.Accepted? { AcceptedOk(m, op); }
    else if show.state == NoAnswer { LeaveOk(m, op, Kept); }
    else { RefusedOk(m, op); }
  }

  lemma JoinedAloneOk(s: Store, token: Token, g: Group, state: FamilyState, revision: Option<nat>)
    requires InOrder(s)
    ensures InOrder(JoinedAlone(s, token, g, state, revision))
  {
    var r := JoinedAlone(s, token, g, state, revision);
    if r != s {
      forall h | h in r.drawn.states ensures FateOk(r.drawn, r.shows, h) {
        if h != g { SameFate(s.drawn, s.shows, r.drawn, r.shows, h); }
      }
      forall other | other in r.shows ensures ShowOk(r.drawn, r.shows[other]) { assert ShowOk(s.drawn, s.shows[other]); }
    }
  }

  /** The later steps change neither the fate nor what is shown. */
  lemma LaterOk(s: Store, op: OpId, r: Store)
    requires InOrder(s) && op in s.shows && (s.shows[op].wait == ForDetail || s.shows[op].wait == ForListing)
    requires r.drawn == s.drawn.(details := r.drawn.details)
    requires r.shows == s.shows || r.shows == s.shows - {op} || r.shows == s.shows[op := s.shows[op].(wait := ForListing)]
    ensures InOrder(r)
  {
    assert ShowOk(s.drawn, s.shows[op]);
    forall g | g in r.drawn.states ensures FateOk(r.drawn, r.shows, g) {
      if s.drawn.fates[g] == Pending {
        assert g != s.shows[op].group || !IsLatest(s.drawn, s.shows[op]);
      } else {
        assert FateOk(s.drawn, s.shows, g);
      }
      if s.drawn.fates[g] == Pending { SameFate(s.drawn, s.shows, r.drawn, r.shows, g); }
    }
    forall other | other in r.shows ensures ShowOk(r.drawn, r.shows[other]) { assert ShowOk(s.drawn, s.shows[other]); }
  }

  lemma RemovalOk(s: Store, g: Group, wiped: bool)
    requires InOrder(s)
    ensures InOrder(Removal(s, g, wiped))
  {
    var r := Removal(s, g, wiped);
    forall h | h in r.drawn.states ensures FateOk(r.drawn, r.shows, h) {
      if h != g { SameFate(s.drawn, s.shows, r.drawn, r.shows, h); }
    }
    forall other | other in r.shows ensures ShowOk(r.drawn, r.shows[other]) { assert ShowOk(s.drawn, s.shows[other]); }
  }

  lemma ResetOk(s: Store)
    requires InOrder(s)
    ensures InOrder(Reset(s))
  {
    var r := Reset(s);
    forall other | other in r.shows ensures ShowOk(r.drawn, r.shows[other]) { assert ShowOk(s.drawn, s.shows[other]); }
  }

  lemma NextInOrder(s: Store, e: Event)
    requires InOrder(s) && Enabled(s, e)
    ensures InOrder(Next(s, e))
  {
    match e
    case EShow(op, token, g, state, revision) => ShowBeginOk(s, op, token, g, state, revision);
    case EJoined(token, g, state, revision) => JoinedAloneOk(s, token, g, state, revision);
    case EAreas(op, known) => AreasCameOk(s, op, known);
    case EEvicted(op) => EvictedCameOk(s, op);
    case EDetail(op, answered, detail) => LaterOk(s, op, DetailCame(s, op, answered, detail));
    case ERelisted(op, more) => LaterOk(s, op, RelistCame(s, op, more));
    case ERemoval(g, wiped) => RemovalOk(s, g, wiped);
    case EReset => ResetOk(s);
    case ERevision =>
      var r := Next(s, e);
      forall g | g in r.drawn.states ensures FateOk(r.drawn, r.shows, g) { SameFate(s.drawn, s.shows, r.drawn, r.shows, g); }
      forall other | other in r.shows ensures ShowOk(r.drawn, r.shows[other]) { assert ShowOk(s.drawn, s.shows[other]); }
    case _ =>
  }

  lemma {:induction false} RunKeeps(trace: seq<Store>, events: seq<Event>, i: nat)
    requires Run(trace, events) && i < |trace|
    ensures InOrder(trace[i]) && ListingsOk(trace[i])
  {
    if i > 0 {
      RunKeeps(trace, events, i - 1);
      assert Enabled(trace[i - 1], events[i - 1]);
      NextInOrder(trace[i - 1], events[i - 1]);
      NextListingsOk(trace[i - 1], events[i - 1]);
      hide InOrder, ListingsOk, Next;
    }
  }

  lemma {:induction false} RunMovesOn(trace: seq<Store>, events: seq<Event>, i: nat, k: nat)
    requires Run(trace, events) && i <= k < |trace|
    ensures MovesOn(trace[i], trace[k])
    decreases k
  {
    if i < k {
      RunMovesOn(trace, events, i, k - 1);
      assert Enabled(trace[k - 1], events[k - 1]);
      NextMovesOn(trace[k - 1], events[k - 1]);
      ForwardThen(trace[i].drawn, trace[k - 1].drawn, trace[k].drawn);
    }
  }

  // -- The promises ------------------------------------------------------------------------------------------------------------

  lemma OlderStep(s: Store, e: Event)
    requires Enabled(s, e) && OfShow(e) && Count(s.drawn.published, s.shows[e.op].group) > s.shows[e.op].shownAs
    ensures var r := Next(s, e);
            r.drawn == s.drawn.(areas := r.drawn.areas) && s.drawn.areas <= r.drawn.areas && r.walks == s.walks && r.lists == s.lists
  {
    var show := s.shows[e.op];
    var m := Learned(s, show.known);
    assert !StillShown(s, show) && s.drawn.Fated(show, CutShort) == s.drawn;
    assert !StillShown(m, show) && m.drawn.Fated(show, CutShort) == m.drawn;
    hide Forward, Drawn.Publish, Drawn.Clear, Drawn.Fated, StillShown, Clear, Drawn.Reset;
  }

  /** A showing's step once a later publication of its family exists: it may learn areas, and leaves everything else as it was. */
  lemma OlderShowingChangesNothing(trace: seq<Store>, events: seq<Event>, i: nat, k: nat, op: OpId)
    requires Run(trace, events) && i <= k < |events| && OfShow(events[k]) && events[k].op == op
    requires op in trace[k].shows && Count(trace[i].drawn.published, trace[k].shows[op].group) > trace[k].shows[op].shownAs
    ensures var s, r := trace[k], trace[k + 1];
            && r.drawn == s.drawn.(areas := r.drawn.areas) && s.drawn.areas <= r.drawn.areas
            && r.walks == s.walks && r.lists == s.lists
  {
    RunMovesOn(trace, events, i, k);
    assert Enabled(trace[k], events[k]) && trace[k + 1] == Next(trace[k], events[k]);
    OlderStep(trace[k], events[k]);
    hide Next, Run;
  }

  /** What is drawn of a family is what `state` says of it. */
  predicate Agrees(state: FamilyState, drawn: Option<View>) {
    match state
    case Accepted(view) => drawn == Some(view)
    case NoAnswer => true
    case _ => drawn.None?
  }

  /**
   Agreement: once no showing of a family is under way, its last publication was applied, and what is drawn agrees with
   it; or it was "no answer"; or a refusal while no area of the family was known; or its showing was cut short; or it came
   with no showing at all, and what is drawn is what was drawn then.
   */
  lemma QuietFamiliesAgree(trace: seq<Store>, events: seq<Event>, i: nat, g: Group)
    requires Run(trace, events) && i < |trace| && g in trace[i].drawn.states
    requires forall op | op in trace[i].shows :: trace[i].shows[op].group != g
    ensures var d := trace[i].drawn;
            && g in d.fates
            && match d.fates[g]
               case Applied => Agrees(d.states[g], d.View(g)) && d.states[g] != NoAnswer
               case Kept => d.states[g] == NoAnswer
               case NoArea => !d.states[g].Accepted? && d.states[g] != NoAnswer
               case CutShort => true
               case Unshown(was) => d.View(g) == was
               case Pending => false
  {
    RunKeeps(trace, events, i);
    assert FateOk(trace[i].drawn, trace[i].shows, g);
  }

  /**
   Of publications that found an answer and a known area: what is drawn agrees exactly with those that came with a
   showing or a removal, and with one that came alone only if it happened to say what was drawn already.
   */
  lemma AgreementNeedsAShowing(trace: seq<Store>, events: seq<Event>, i: nat, g: Group)
    requires Run(trace, events) && i < |trace| && g in trace[i].drawn.states
    requires forall op | op in trace[i].shows :: trace[i].shows[op].group != g
    requires g in trace[i].drawn.fates && trace[i].drawn.fates[g] !in {Kept, NoArea, CutShort}
    ensures var d := trace[i].drawn;
            Agrees(d.states[g], d.View(g)) <==> d.fates[g] == Applied || (d.fates[g].Unshown? && Agrees(d.states[g], d.fates[g].was))
  {
    QuietFamiliesAgree(trace, events, i, g);
  }

  // -- Where fates come from -----------------------------------------------------------------------------------------------------

  /** A step publishes a family, or settles what became of its last publication. */
  ghost predicate FateChanges(s: Store, r: Store, g: Group) {
    && g in r.drawn.fates
    && (g !in s.drawn.fates || s.drawn.fates[g] != r.drawn.fates[g] || Count(s.drawn.published, g) != Count(r.drawn.published, g))
  }

  /** A showing of `g` at its second wait. */
  predicate EvictedOf(s: Store, e: Event, g: Group) {
    e.EEvicted? && e.op in s.shows && s.shows[e.op].group == g
  }

  /** Which event gives which fate. */
  predicate Gives(s: Store, e: Event, r: Store, g: Group, fate: Fate) {
    match fate
    case Pending => e.EShow? && e.g == g
    case Applied => (EvictedOf(s, e, g) && StillShown(s, s.shows[e.op])) || (e.ERemoval? && e.g == g)
    case Kept => EvictedOf(s, e, g) && StillShown(s, s.shows[e.op]) && s.shows[e.op].state == NoAnswer
    case NoArea => ((EvictedOf(s, e, g) && StillShown(s, s.shows[e.op])) || (e.ERemoval? && e.g == g)) && g !in r.drawn.areas
    case CutShort =>
      || (EvictedOf(s, e, g) && !Current(s, s.shows[e.op].token))
      || (e.EAreas? && e.op in s.shows && s.shows[e.op].group == g && (e.known.None? || !Current(s, s.shows[e.op].token)))
    case Unshown(was) => e.EJoined? && e.g == g && Current(s, e.token) && was == s.drawn.View(g)
  }

  lemma AreasGive(s: Store, e: Event, g: Group)
    requires e.EAreas? && e.op in s.shows && FateChanges(s, AreasCame(s, e.op, e.known), g)
    ensures Gives(s, e, AreasCame(s, e.op, e.known), g, AreasCame(s, e.op, e.known).drawn.fates[g])
  {
  }

  /** Which fate a showing's second wait ends in, of its own publication if that is still pending. */
  lemma EvictedFate(s: Store, op: OpId) returns (fate: Fate)
    requires op in s.shows
    ensures EvictedCame(s, op).drawn.fates == s.drawn.Fated(s.shows[op], fate).fates
    ensures EvictedCame(s, op).drawn.published == s.drawn.published
    ensures match fate
            case CutShort => !StillShown(s, s.shows[op])
            case Applied => StillShown(s, s.shows[op])
            case Kept => StillShown(s, s.shows[op]) && s.shows[op].state == NoAnswer
            case NoArea => StillShown(s, s.shows[op]) && s.shows[op].group !in EvictedCame(s, op).drawn.areas
            case _ => false
  {
    var show := s.shows[op];
    var m := Learned(s, show.known);
    assert StillShown(m, show) == StillShown(s, show) && m.drawn.Fated(show, CutShort).fates == s.drawn.Fated(show, CutShort).fates;
    fate := if !StillShown(s, show) then CutShort else if show.state == NoAnswer then Kept
            else if show.state.Accepted? || show.group in m.drawn.areas then Applied else NoArea;
    assert m.drawn.Fated(show, fate).fates == s.drawn.Fated(show, fate).fates;
    hide Forward, Drawn.Fated, StillShown;
    assert EvictedCame(s, op).drawn.fates == m.drawn.Fated(show, fate).fates;
  }

  lemma EvictedGives(s: Store, e: Event, g: Group)
    requires e.EEvicted? && e.op in s.shows && FateChanges(s, EvictedCame(s, e.op), g)
    ensures Gives(s, e, EvictedCame(s, e.op), g, EvictedCame(s, e.op).drawn.fates[g])
  {
    var fate := EvictedFate(s, e.op);
    hide Forward, EvictedCame, Current;
  }

  /** A fate is given by a showing, a removal or a join, and each only as it says. */
  lemma FatesComeFrom(s: Store, e: Event, g: Group)
    requires Enabled(s, e) && FateChanges(s, Next(s, e), g)
    ensures Gives(s, e, Next(s, e), g, Next(s, e).drawn.fates[g])
  {
    hide Forward, AreasCame, EvictedCame;
    if e.EAreas? { AreasGive(s, e, g); hide FateChanges, Gives; }
    else if e.EEvicted? { EvictedGives(s, e, g); hide FateChanges, Gives; }
  }

  lemma RunStarts(trace: seq<Store>, events: seq<Event>)
    requires Run(trace, events)
    ensures |trace| == |events| + 1 && trace[0].drawn.fates == map[]
  {
  }

  lemma RunStep(trace: seq<Store>, events: seq<Event>, i: nat)
    requires Run(trace, events) && i < |events|
    ensures |trace| == |events| + 1 && Enabled(trace[i], events[i]) && trace[i + 1] == Next(trace[i], events[i])
  {
  }

  /** Every fate was given at some step, and the family not published since. */
  lemma {:induction false} FateWasGiven(trace: seq<Store>, events: seq<Event>, i: nat, g: Group) returns (j: nat)
    requires Run(trace, events) && i < |trace| && g in trace[i].drawn.fates
    ensures j < i && Gives(trace[j], events[j], trace[j + 1], g, trace[i].drawn.fates[g])
    ensures Count(trace[j + 1].drawn.published, g) == Count(trace[i].drawn.published, g)
    decreases i
  {
    hide Gives, Next, Enabled, Run;
    RunStarts(trace, events);
    assert i > 0;
    RunStep(trace, events, i - 1);
    if FateChanges(trace[i - 1], trace[i], g) {
      FatesComeFrom(trace[i - 1], events[i - 1], g);
      j := i - 1;
    } else {
      j := FateWasGiven(trace, events, i - 1, g);
    }
  }

  /** Walks start only for the publication that is the latest then. */
  lemma WalksStartForTheLatest(s: Store, e: Event)
    requires Enabled(s, e) && Next(s, e).walks != s.walks
    ensures e.ERelisted? && Next(s, e).walks == s.walks + [(s.shows[e.op].group, s.shows[e.op].shownAs)]
    ensures StillShown(s, s.shows[e.op])
  {
  }

  /** For each folder, the listings that wrote its rows were begun in the order they wrote. */
  lemma WritesAreInOrderOfBeginning(trace: seq<Store>, events: seq<Event>, i: nat, a: nat, b: nat)
    requires Run(trace, events) && i < |trace| && a < b < |trace[i].lists.writes|
    requires trace[i].lists.writes[a].folder == trace[i].lists.writes[b].folder
    ensures trace[i].lists.writes[a].ticket < trace[i].lists.writes[b].ticket
  {
    RunKeeps(trace, events, i);
  }

  /** A listing that knew its folder's family as it began writes nothing once that family was cleared. */
  lemma NoListingUndoesAClear(trace: seq<Store>, events: seq<Event>, i: nat, k: nat, op: OpId)
    requires Run(trace, events) && i <= k < |events| && events[k].EListed? && events[k].op == op
    requires op in trace[i].lists.listings && op in trace[k].lists.listings && trace[i].lists.listings[op] == trace[k].lists.listings[op]
    requires var l := trace[k].lists.listings[op];
             l.kind != Catalogue && l.mark.group.Some? && Count(trace[k].drawn.clears, l.mark.group.value) > Count(trace[i].drawn.clears, l.mark.group.value)
    ensures trace[k + 1].lists.writes == trace[k].lists.writes && trace[k + 1].lists.folders.Keys <= trace[k].lists.folders.Keys
  {
    RunKeeps(trace, events, i);
    assert ListingOk(trace[i], trace[i].lists.listings[op]);
    assert Enabled(trace[k], events[k]);
  }

  /** Nothing begun in a session writes rows once that session ended. */
  lemma EndedSessionsWriteNothing(trace: seq<Store>, events: seq<Event>, i: nat, k: nat, op: OpId)
    requires Run(trace, events) && i < k < |events| && events[i].EReset? && events[k].EListed? && events[k].op == op
    requires op in trace[i].lists.listings && op in trace[k].lists.listings && trace[i].lists.listings[op] == trace[k].lists.listings[op]
    requires trace[k].lists.listings[op].token.Some?
    ensures trace[k + 1].lists.writes == trace[k].lists.writes && trace[k + 1].lists.folders == trace[k].lists.folders
  {
    RunKeeps(trace, events, i);
    assert ListingOk(trace[i], trace[i].lists.listings[op]);
    assert Enabled(trace[i], events[i]) && trace[i + 1] == Next(trace[i], events[i]);
    RunMovesOn(trace, events, i + 1, k);
    assert Enabled(trace[k], events[k]);
  }

  /** A family's folder may be listed into: no clear since `before`, and the family open or its answer only missing. */
  ghost predicate OpenSince(before: Store, now: Store, folder: FolderId) {
    var g := before.lists.GroupOf(folder);
    g.Some? ==>
      && Count(now.drawn.clears, g.value) == Count(before.drawn.clears, g.value)
      && g.value in now.drawn.states && (now.drawn.states[g.value].Accepted? || now.drawn.states[g.value] == NoAnswer)
  }

  /**
   Between its begin and its answer a listing lands exactly when its session still is the session, its folder's family
   was not cleared and is open, the family doesn't say removed, and no listing begun later was shown in between.
   */
  lemma LandsExactly(trace: seq<Store>, events: seq<Event>, i: nat, k: nat, op: OpId)
    requires Run(trace, events) && i < k < |events| && events[i].EList? && events[i].op == op && op in trace[i + 1].lists.listings
    requires events[k].EListed? && events[k].op == op && events[k].rows
    requires op in trace[k].lists.listings && trace[k].lists.listings[op] == trace[i + 1].lists.listings[op]
    ensures var e, s := events[i], trace[k];
            trace[k + 1].lists.writes != s.lists.writes <==>
              && (e.kind != Catalogue ==> Current(s, e.within.value) && OpenSince(trace[i], s, e.folder))
              && (e.kind == Refresh ==> !IsRemoved(s, e.folder))
              && Count(s.lists.shownTicket, e.folder) <= trace[i].lists.started
  {
    assert Enabled(trace[i], events[i]) && trace[i + 1] == Next(trace[i], events[i]);
    assert Enabled(trace[k], events[k]) && trace[k + 1] == Next(trace[k], events[k]);
    var l := trace[k].lists.listings[op];
    BegunAs(trace[i], events[i]);
    WritesIfLands(trace[k], op, events[k].learned);
    hide Next, Run, ListCame, Current, IsRemoved;
  }

  lemma BegunAs(s: Store, e: Event)
    requires Enabled(s, e) && e.EList? && e.op in Next(s, e).lists.listings
    ensures var l, g := Next(s, e).lists.listings[e.op], s.lists.GroupOf(e.folder);
            l == Listing(e.kind, e.folder, e.within, s.lists.started + 1, Mark(g, if g.Some? then Count(s.drawn.clears, g.value) else 0))
  {
  }

  lemma WritesIfLands(s: Store, op: OpId, learned: map<FolderId, Group>)
    requires op in s.lists.listings
    ensures ListCame(s, op, true, learned).lists.writes != s.lists.writes <==> Lands(s, s.lists.listings[op])
  {
    hide Lands;
    assert |s.lists.writes + [s.lists.listings[op]]| == |s.lists.writes| + 1;
  }

  // -- Where they end --------------------------------------------------------------------------------------------------------------

  /** Which family a folder is of is only ever learned. */
  lemma FolderStays(s: Store, e: Event, folder: FolderId)
    requires Enabled(s, e) && folder in s.lists.families
    ensures folder in Next(s, e).lists.families && Next(s, e).lists.families[folder] == s.lists.families[folder]
  {
    if OfShow(e) || e.EShow? || e.EJoined? || e.ERemoval? { NextMovesOn(s, e); }
    hide Forward, EvictedCame, AreasCame, DetailCame, RelistCame, ShowBegin, JoinedAlone, Removal, Lands;
  }

  lemma {:induction false} FoldersStay(trace: seq<Store>, events: seq<Event>, i: nat, k: nat, folder: FolderId)
    requires Run(trace, events) && i <= k < |trace| && folder in trace[i].lists.families
    ensures folder in trace[k].lists.families && trace[k].lists.families[folder] == trace[i].lists.families[folder]
    decreases k
  {
    if i < k {
      FoldersStay(trace, events, i, k - 1, folder);
      assert Enabled(trace[k - 1], events[k - 1]) && trace[k] == Next(trace[k - 1], events[k - 1]);
      FolderStays(trace[k - 1], events[k - 1], folder);
      hide Next;
    }
  }

  /**
   A listing of a family's folder that was out as the family was cleared puts its rows back exactly when it did not know,
   as it began, that the folder was the family's, and nothing else holds it back.
   */
  lemma OnlyAnUnknowingListingUndoesAClear(trace: seq<Store>, events: seq<Event>, i: nat, k: nat, op: OpId, g: Group)
    requires Run(trace, events) && i < k < |events| && events[i].EList? && events[i].op == op && op in trace[i + 1].lists.listings
    requires events[i].kind != Catalogue && events[k].EListed? && events[k].op == op && events[k].rows
    requires op in trace[k].lists.listings && trace[k].lists.listings[op] == trace[i + 1].lists.listings[op]
    requires trace[k].lists.GroupOf(events[i].folder) == Some(g) && Count(trace[k].drawn.clears, g) > Count(trace[i].drawn.clears, g)
    ensures var e, s := events[i], trace[k];
            trace[k + 1].lists.writes != s.lists.writes <==>
              && trace[i].lists.GroupOf(e.folder).None?
              && Current(s, e.within.value) && (e.kind == Refresh ==> !IsRemoved(s, e.folder))
              && Count(s.lists.shownTicket, e.folder) <= trace[i].lists.started
  {
    assert Enabled(trace[i], events[i]);
    LandsExactly(trace, events, i, k, op);
    if events[i].folder in trace[i].lists.families { FoldersStay(trace, events, i, k, events[i].folder); }
    hide Run, Next, Current, IsRemoved;
  }

  // -- Runs in which they end ------------------------------------------------------------------------------------------------------

  ghost predicate Reachable(s: Store) {
    exists trace, events :: Run(trace, events) && trace[|trace| - 1] == s
  }

  lemma StartsReachable()
    ensures Reachable(START)
  {
    assert Run([START], []);
  }

  lemma StepsReachable(s: Store, e: Event)
    requires Reachable(s) && Enabled(s, e)
    ensures Reachable(Next(s, e))
  {
    var trace, events :| Run(trace, events) && trace[|trace| - 1] == s;
    var longer, more := trace + [Next(s, e)], events + [e];
    forall i | 0 <= i < |more| ensures Enabled(longer[i], more[i]) && longer[i + 1] == Next(longer[i], more[i]) {
      if i < |events| { assert more[i] == events[i] && longer[i] == trace[i] && longer[i + 1] == trace[i + 1]; }
    }
    hide Next, Enabled;
    assert Run(longer, more);
  }

  const ME := Token(5, 0)

  /** Someone signed in, a family accepted and shown, its area known, nothing under way. */
  lemma Shown() returns (s: Store)
    ensures Reachable(s) && s.session == Some(5) && s.generation == 0 && s.shows == map[] && s.drawn.areas == {1}
    ensures s.drawn.states == map[1 := Accepted(7)] && s.drawn.shown == map[1 := 7] && s.drawn.fates == map[1 := Applied] && s.lists == START.lists
  {
    StartsReachable();
    hide Reachable;
    StepsReachable(START, ESession(Some(5)));
    s := Next(START, ESession(Some(5)));
    StepsReachable(s, EShow(0, ME, 1, Accepted(7), None));
    s := Next(s, EShow(0, ME, 1, Accepted(7), None));
    StepsReachable(s, EAreas(0, Some({1})));
    s := Next(s, EAreas(0, Some({1})));
    StepsReachable(s, EEvicted(0));
    s := Next(s, EEvicted(0));
    StepsReachable(s, EDetail(0, false, 0));
    s := Next(s, EDetail(0, false, 0));
  }

  /** A join that no list names is published over the view shown before, which stays, with nothing under way. */
  lemma AJoinIsPublishedUnshown()
    ensures exists s :: Reachable(s) && s.shows == map[] && s.session == Some(5) && 1 in s.drawn.areas && 1 in s.drawn.states
              && s.drawn.states[1] == Accepted(8) && s.drawn.View(1) == Some(7) && !Agrees(s.drawn.states[1], s.drawn.View(1))
  {
    var s := Shown();
    hide Reachable;
    StepsReachable(s, EJoined(ME, 1, Accepted(8), None));
    s := Next(s, EJoined(ME, 1, Accepted(8), None));
  }

  /** A listing out, its folder learned to be the family's meanwhile. */
  lemma Listed() returns (s: Store)
    ensures Reachable(s) && s.session == Some(5) && s.generation == 0 && s.shows == map[] && s.drawn.areas == {1}
    ensures s.drawn.states == map[1 := Accepted(7)] && s.drawn.shown == map[1 := 7]
    ensures s.lists == Lists(1, map[], map[], map[9 := 1], map[0 := Listing(Refresh, 9, Some(ME), 1, Mark(None, 0))], [])
  {
    s := Shown();
    hide Reachable;
    StepsReachable(s, EList(0, Refresh, 9, Some(ME)));
    s := Next(s, EList(0, Refresh, 9, Some(ME)));
    StepsReachable(s, ELearned(9, 1));
    s := Next(s, ELearned(9, 1));
  }

  /** A listing that did not know its folder was a family's puts its rows back once the family was refused. */
  lemma AnUnknowingListingUndoesAClear()
    ensures exists s :: Reachable(s) && s.drawn.states == map[1 := Refused] && 9 in s.lists.folders && s.lists.GroupOf(9) == Some(1) && 1 !in s.drawn.shown
  {
    var s := Listed();
    hide Reachable;
    StepsReachable(s, ERemoval(1, false));
    s := Next(s, ERemoval(1, false));
    StepsReachable(s, EListed(0, true, map[]));
    s := Next(s, EListed(0, true, map[]));
  }
}
