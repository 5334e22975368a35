/**
 What changes of a family, field by field: which steps publish a state, clear a family's folders, draw a view or a
 detail, write a folder's rows, and that no other step does.
 */
module FamilyChanges {
  import opened Common
  import opened Families

  // -- What the two steps that clear come to ------------------------------------------------------------------------------

  /** A showing of `g` comes back from its second wait, still of the latest publication. */
  predicate StillShows(s: Store, e: Event, g: Group) {
    && e.EEvicted? && e.op in s.shows && s.shows[e.op].group == g
    && s.session == Some(s.shows[e.op].token.owner) && s.generation == s.shows[e.op].token.generation
    && Count(s.drawn.published, g) == s.shows[e.op].shownAs
  }

  /** The areas known once the step is over. */
  function AreasThen(s: Store, e: Event): (areas: set<Group>) {
    s.drawn.areas + if e.EEvicted? && e.op in s.shows then s.shows[e.op].known else {}
  }

  /** The step clears family `g`: a removal, or a showing that refuses it, while an area of it is known. */
  predicate Clears(s: Store, e: Event, g: Group) {
    && g in AreasThen(s, e)
    && ((e.ERemoval? && e.g == g) || (StillShows(s, e, g) && (s.shows[e.op].state.Refused? || s.shows[e.op].state.Wiped?)))
  }

  /** And says that the account was removed. */
  predicate Removes(s: Store, e: Event) {
    (e.ERemoval? && e.wiped) || (e.EEvicted? && e.op in s.shows && s.shows[e.op].state.Wiped?)
  }

  /** The family a showing's second wait or a removal is about. */
  function About(s: Store, e: Event): (g: Group)
    requires Enabled(s, e) && (e.EEvicted? || e.ERemoval?)
  {
    if e.EEvicted? then s.shows[e.op].group else e.g
  }

  /** All that such a step makes of what is drawn and listed. */
  ghost predicate Effect(s: Store, e: Event, r: Store)
    requires Enabled(s, e) && (e.EEvicted? || e.ERemoval?)
  {
    var g := About(s, e);
    var cleared := Clears(s, e, g);
    var shows := StillShows(s, e, g) && s.shows[e.op].state.Accepted?;
    && r.drawn.areas == AreasThen(s, e) && r.drawn.latest == s.drawn.latest
    && r.drawn.shown == (if cleared then s.drawn.shown - {g} else if shows then s.drawn.shown[g := s.shows[e.op].state.view] else s.drawn.shown)
    && r.drawn.details == (if cleared && Removes(s, e) then s.drawn.details - {g} else s.drawn.details)
    && r.drawn.clears == (if cleared then s.drawn.clears[g := Count(s.drawn.clears, g) + 1] else s.drawn.clears)
    && r.lists == s.lists.(folders := r.lists.folders)
    && r.lists.folders == (if cleared then map f | f in s.lists.folders && !(f in s.lists.families && s.lists.families[f] == g) :: s.lists.folders[f]
                           else s.lists.folders)
    && r.session == s.session && r.generation == s.generation && r.walks == s.walks
    && (e.ERemoval? ==> r.shows == s.shows)
    && (e.EEvicted? ==>
          && r.drawn.states == s.drawn.states && r.drawn.published == s.drawn.published && r.drawn.revisions == s.drawn.revisions
          && r.shows == if shows then s.shows[e.op := s.shows[e.op].(wait := ForDetail)] else s.shows - {e.op})
  }

  lemma WithoutIs(l: Lists, g: Group)
    ensures var r := l.Without(g);
            r == l.(folders := r.folders) && r.folders == map f | f in l.folders && !(f in l.families && l.families[f] == g) :: l.folders[f]
  {
  }

  lemma LeaveIs(s: Store, op: OpId, fate: Fate)
    requires op in s.shows
    ensures Leave(s, op, fate) == s.(shows := s.shows - {op}, drawn := s.drawn.(fates := Leave(s, op, fate).drawn.fates))
  {
    hide Forward;
  }

  lemma ClearIs(s: Store, g: Group, removed: bool)
    ensures Clear(s, g, removed) ==
              if g !in s.drawn.areas then s
              else s.(lists := s.lists.Without(g),
                      drawn := s.drawn.(clears := s.drawn.clears[g := Count(s.drawn.clears, g) + 1], shown := s.drawn.shown - {g},
                                        details := if removed then s.drawn.details - {g} else s.drawn.details))
  {
    hide Forward, Lists.Without;
  }

  lemma EvictedEffect(s: Store, e: Event)
    requires Enabled(s, e) && e.EEvicted?
    ensures Effect(s, e, EvictedCame(s, e.op))
  {
    var show := s.shows[e.op];
    var m := Learned(s, show.known);
    assert StillShown(m, show) == StillShows(s, e, show.group);
    if !StillShown(m, show) || show.state == NoAnswer {
      LeaveIs(m, e.op, if StillShown(m, show) then Kept else CutShort);
      hide Forward, Clear, Leave, Lists.Without, StillShown, StillShows, Drawn.Fated;
    } else if show.state.Accepted? {
      FatedIs(m.drawn, show, Applied);
      hide Forward, Clear, Leave, Lists.Without, StillShown, StillShows, Drawn.Fated;
    } else {
      RefusedEffect(s, e);
    }
  }

  lemma RefusedEffect(s: Store, e: Event)
    requires Enabled(s, e) && e.EEvicted? && StillShows(s, e, s.shows[e.op].group)
    requires s.shows[e.op].state.Refused? || s.shows[e.op].state.Wiped?
    ensures Effect(s, e, EvictedCame(s, e.op))
  {
    var show := s.shows[e.op];
    var g, m := show.group, Learned(s, show.known);
    assert StillShown(m, show);
    var fate := if g in m.drawn.areas then Applied else NoArea;
    var left := Leave(m, e.op, fate);
    LeaveIs(m, e.op, fate);
    WithoutIs(left.lists, g);
    ClearIs(left, g, show.state == Wiped);
    assert EvictedCame(s, e.op) == Clear(left, g, show.state == Wiped) by { hide Forward, Clear, Leave; }
    hide Forward, Clear, Leave, Lists.Without, StillShown, EvictedCame;
  }

  lemma FatedIs(d: Drawn, show: Show, fate: Fate)
    ensures d.Fated(show, fate) == d.(fates := d.Fated(show, fate).fates)
  {
    hide Forward;
  }

  lemma RemovalEffect(s: Store, e: Event)
    requires Enabled(s, e) && e.ERemoval?
    ensures Effect(s, e, Removal(s, e.g, e.wiped))
  {
    var fate := if e.g in s.drawn.areas then Applied else NoArea;
    var state := if e.wiped then Wiped else Refused;
    var m := s.(drawn := s.drawn.Publish(e.g, state, None, fate));
    assert m.drawn == s.drawn.(states := m.drawn.states, published := m.drawn.published, revisions := m.drawn.revisions, fates := m.drawn.fates);
    WithoutIs(m.lists, e.g);
    ClearIs(m, e.g, e.wiped);
    hide Forward, Drawn.Publish, Drawn.Clear, Clear, Lists.Without;
  }

  /** Any other step leaves what is drawn alone, but for the detail that came, a session's end, and a publication. */
  lemma OtherEffect(s: Store, e: Event)
    requires Enabled(s, e) && !e.EEvicted? && !e.ERemoval? && !e.EReset?
    ensures var r := Next(s, e);
            && r.drawn.areas == s.drawn.areas && r.drawn.shown == s.drawn.shown && r.drawn.clears == s.drawn.clears
            && r.drawn.details == (if e.EDetail? && e.answered && StillShown(s, s.shows[e.op]) then s.drawn.details[s.shows[e.op].group := e.detail]
                                   else s.drawn.details)
            && (!e.EShow? && !e.EJoined? ==> r.drawn.states == s.drawn.states && r.drawn.published == s.drawn.published && r.drawn.revisions == s.drawn.revisions)
            && (!e.EList? && !e.EListed? && !e.ELearned? ==> r.lists == s.lists)
  {
    hide Forward, EvictedCame, Removal, StillShown, Lands, IsRemoved, Current, Lists.Begin, Lists.Write, Lists.Without, Drawn.Admits, Drawn.Fated;
    if e.EAreas? { LeaveIs(s, e.op, CutShort); hide Leave; }
  }

  // -- Publications, by what was published before ---------------------------------------------------------------------

  /** The step may publish family `g`: a showing, a join or a removal. */
  predicate MayPublish(e: Event, g: Group) {
    (e.EShow? || e.EJoined? || e.ERemoval?) && e.g == g
  }

  /** The revision an answer comes with; a removal has none. */
  function RevisionOf(e: Event): (revision: Option<nat>) {
    if e.EShow? || e.EJoined? then e.revision else None
  }

  /** The step from `j` published family `g`: its publications were counted on. */
  ghost predicate TakenAt(trace: seq<Store>, events: seq<Event>, j: nat, g: Group)
    requires |trace| == |events| + 1 && j < |events|
  {
    MayPublish(events[j], g) && Count(trace[j + 1].drawn.published, g) == Count(trace[j].drawn.published, g) + 1
  }

  /** How late a look a publication is: its revision, or without one the latest taken by then. */
  function Reach(s: Store, e: Event): (reach: nat) {
    if RevisionOf(e).Some? then RevisionOf(e).value else s.drawn.latest
  }

  /** No reset from `j` on, before `i`. */
  predicate OneSession(events: seq<Event>, j: nat, i: nat)
    requires i <= |events|
  {
    forall m: nat | j <= m < i :: !events[m].EReset?
  }

  /** A revision later than every publication of the family since the last reset. */
  ghost predicate LaterThanAll(trace: seq<Store>, events: seq<Event>, i: nat, g: Group, revision: nat)
    requires |trace| == |events| + 1 && i <= |events|
  {
    revision > 0 && forall j: nat | j < i && TakenAt(trace, events, j, g) && OneSession(events, j, i) :: Reach(trace[j], events[j]) < revision
  }

  /** What a step makes of the families' revisions and publications. */
  lemma PublishStep(s: Store, e: Event, g: Group)
    requires Enabled(s, e)
    ensures var r := Next(s, e);
            var taken := MayPublish(e, g) && Count(r.drawn.published, g) == Count(s.drawn.published, g) + 1;
            && (e.EReset? ==> r.drawn.revisions == map[])
            && (!e.EReset? && !taken ==> Count(r.drawn.revisions, g) == Count(s.drawn.revisions, g))
            && (taken ==> Count(r.drawn.revisions, g) == Max(Count(s.drawn.revisions, g), Reach(s, e)))
            && (MayPublish(e, g) ==>
                  (taken <==> (e.ERemoval? || Current(s, e.token)) && (RevisionOf(e).Some? ==> RevisionOf(e).value > Count(s.drawn.revisions, g))))
  {
    hide Forward, EvictedCame, Removal, Lists.Without;
    if e.EEvicted? { EvictedEffect(s, e); hide Next; }
    else if e.ERemoval? { RemovalStates(s, e); }
    else if !e.EReset? && !e.EShow? && !e.EJoined? { OtherEffect(s, e); hide Next; }
  }

  lemma OneSessionMore(events: seq<Event>, j: nat, i: nat)
    requires j <= i < |events|
    ensures OneSession(events, j, i + 1) <==> OneSession(events, j, i) && !events[i].EReset?
  {
  }

  lemma FirstRevisions(trace: seq<Store>, events: seq<Event>)
    requires Run(trace, events)
    ensures trace[0].drawn.revisions == map[]
  {
  }

  lemma LaterStep(trace: seq<Store>, events: seq<Event>, i: nat, g: Group, revision: nat)
    requires |trace| == |events| + 1 && 0 < i <= |events|
    ensures LaterThanAll(trace, events, i, g, revision) <==>
              revision > 0 && (events[i - 1].EReset? ||
                (LaterThanAll(trace, events, i - 1, g, revision) && (TakenAt(trace, events, i - 1, g) ==> Reach(trace[i - 1], events[i - 1]) < revision)))
  {
    hide TakenAt, Reach;
    forall j: nat | j < i ensures OneSession(events, j, i) <==> OneSession(events, j, i - 1) && !events[i - 1].EReset? {
      OneSessionMore(events, j, i - 1);
    }
    assert OneSession(events, i - 1, i - 1);
    hide OneSession;
  }

  lemma {:induction false} RevisionIsTheLatest(trace: seq<Store>, events: seq<Event>, i: nat, g: Group, revision: nat)
    requires Run(trace, events) && i < |trace|
    ensures Count(trace[i].drawn.revisions, g) < revision <==> LaterThanAll(trace, events, i, g, revision)
  {
    RunStarts(trace, events);
    if i > 0 {
      hide Next, Enabled, Current;
      RevisionIsTheLatest(trace, events, i - 1, g, revision);
      RunStep(trace, events, i - 1);
      PublishStep(trace[i - 1], events[i - 1], g);
      LaterStep(trace, events, i, g, revision);
      hide Run, LaterThanAll, Reach;
    } else {
      FirstRevisions(trace, events);
      hide Run;
    }
  }

  /**
   Between two resets an answer with a revision is published exactly when its session stands and no look as late was
   published of its family before; without a revision, whenever its session stands, and a removal always. Published, it
   is the family's state; not published, nothing changes.
   */
  lemma PublishedExactly(trace: seq<Store>, events: seq<Event>, i: nat, g: Group)
    requires Run(trace, events) && i < |events| && MayPublish(events[i], g)
    ensures var s, e, r := trace[i], events[i], trace[i + 1];
            && (TakenAt(trace, events, i, g) <==>
                  && (e.ERemoval? || (s.session == Some(e.token.owner) && s.generation == e.token.generation))
                  && (RevisionOf(e).Some? ==> LaterThanAll(trace, events, i, g, RevisionOf(e).value)))
            && (TakenAt(trace, events, i, g) ==>
                  g in r.drawn.states && r.drawn.states[g] == if e.ERemoval? then (if e.wiped then Wiped else Refused) else e.state)
            && (!TakenAt(trace, events, i, g) ==> r == s)
  {
    RunStep(trace, events, i);
    PublishStep(trace[i], events[i], g);
    if RevisionOf(events[i]).Some? { RevisionIsTheLatest(trace, events, i, g, RevisionOf(events[i]).value); }
    hide Run, LaterThanAll, Forward;
  }

  /** So the numbered answers of a family that are published in one session strictly increase. */
  lemma NumbersIncrease(trace: seq<Store>, events: seq<Event>, j: nat, i: nat, g: Group)
    requires Run(trace, events) && j < i < |events| && OneSession(events, j, i)
    requires MayPublish(events[j], g) && MayPublish(events[i], g) && TakenAt(trace, events, j, g) && TakenAt(trace, events, i, g)
    requires RevisionOf(events[i]).Some? && RevisionOf(events[j]).Some?
    ensures RevisionOf(events[j]).value < RevisionOf(events[i]).value
  {
    PublishedExactly(trace, events, i, g);
    hide Run;
  }

  lemma RemovalStates(s: Store, e: Event)
    requires e.ERemoval?
    ensures var d := Removal(s, e.g, e.wiped).drawn;
            && d.states == s.drawn.states[e.g := if e.wiped then Wiped else Refused] && d.published == s.drawn.published[e.g := Count(s.drawn.published, e.g) + 1]
            && d.revisions == s.drawn.revisions[e.g := Max(Count(s.drawn.revisions, e.g), s.drawn.latest)]
  {
    hide Forward;
    var fate := if e.g in s.drawn.areas then Applied else NoArea;
    ClearIs(s.(drawn := s.drawn.Publish(e.g, if e.wiped then Wiped else Refused, None, fate)), e.g, e.wiped);
    hide Clear, Lists.Without;
  }

  /** A family's state changes in no other step but the end of a session, which takes every family's. */
  lemma StatesChangeOnlySo(s: Store, e: Event, g: Group)
    requires Enabled(s, e) && !MayPublish(e, g)
    ensures var r := Next(s, e);
            if e.EReset? then g !in r.drawn.states else (g in r.drawn.states <==> g in s.drawn.states) && (g in s.drawn.states ==> r.drawn.states[g] == s.drawn.states[g])
  {
    hide Forward, EvictedCame, Removal, StillShown;
    if e.EEvicted? { EvictedEffect(s, e); } else if !e.EReset? && !e.ERemoval? && !e.EShow? && !e.EJoined? { OtherEffect(s, e); hide Next; }
    if e.ERemoval? { RemovalStates(s, e); }
  }

  // -- What is drawn ---------------------------------------------------------------------------------------------------

  /** Learned by a showing's second wait alone, and never forgotten. */
  lemma AreasAreLearnedExactly(s: Store, e: Event)
    requires Enabled(s, e)
    ensures Next(s, e).drawn.areas == AreasThen(s, e)
  {
    hide Forward, EvictedCame, Removal, StillShown;
    if e.EEvicted? { EvictedEffect(s, e); } else if e.ERemoval? { RemovalEffect(s, e); } else if !e.EReset? { OtherEffect(s, e); hide Next; }
  }

  /** The view drawn of a family is the one a showing still the latest found, until it is cleared or the session ends. */
  lemma ViewsChangeExactly(s: Store, e: Event, g: Group)
    requires Enabled(s, e)
    ensures var was := if g in s.drawn.shown then Some(s.drawn.shown[g]) else None;
            var now := if g in Next(s, e).drawn.shown then Some(Next(s, e).drawn.shown[g]) else None;
            now == if e.EReset? || Clears(s, e, g) then None
                   else if StillShows(s, e, g) && s.shows[e.op].state.Accepted? then Some(s.shows[e.op].state.view)
                   else was
  {
    hide Forward, EvictedCame, Removal, StillShown;
    if e.EEvicted? { EvictedEffect(s, e); } else if e.ERemoval? { RemovalEffect(s, e); } else if !e.EReset? { OtherEffect(s, e); hide Next; }
  }

  /** Its detail is the one that came to a showing still the latest, until the account is removed or the session ends. */
  lemma DetailsChangeExactly(s: Store, e: Event, g: Group)
    requires Enabled(s, e)
    ensures var was := if g in s.drawn.details then Some(s.drawn.details[g]) else None;
            var now := if g in Next(s, e).drawn.details then Some(Next(s, e).drawn.details[g]) else None;
            now == if e.EReset? || (Clears(s, e, g) && Removes(s, e)) then None
                   else if e.EDetail? && e.answered && s.shows[e.op].group == g && StillShown(s, s.shows[e.op]) then Some(e.detail)
                   else was
  {
    hide Forward, EvictedCame, Removal, StillShown;
    if e.EEvicted? { EvictedEffect(s, e); } else if e.ERemoval? { RemovalEffect(s, e); } else if !e.EReset? { OtherEffect(s, e); hide Next; }
  }

  /** A clear of a family is counted once, and nothing else is. */
  lemma ClearsCountExactly(s: Store, e: Event, g: Group)
    requires Enabled(s, e)
    ensures Count(Next(s, e).drawn.clears, g) == Count(s.drawn.clears, g) + if Clears(s, e, g) then 1 else 0
  {
    hide Forward, EvictedCame, Removal, StillShown;
    if e.EEvicted? { EvictedEffect(s, e); } else if e.ERemoval? { RemovalEffect(s, e); } else if !e.EReset? { OtherEffect(s, e); hide Next; }
  }

  // -- Folders' rows -----------------------------------------------------------------------------------------------------

  /** The rows on the screen, by the ticket of the listing that wrote them. */
  function RowsOf(s: Store, folder: FolderId): (ticket: Option<nat>) {
    if folder in s.lists.folders then Some(s.lists.folders[folder]) else None
  }

  /** The listing an answer is of. */
  predicate AnswersFor(s: Store, e: Event, folder: FolderId) {
    e.EListed? && e.op in s.lists.listings && s.lists.listings[e.op].folder == folder
  }

  predicate Stands(s: Store, token: Option<Token>) {
    token.Some? && s.session == Some(token.value.owner) && s.generation == token.value.generation
  }

  /** The folder's family says the account was removed. */
  predicate SaysRemoved(s: Store, folder: FolderId) {
    folder in s.lists.families && s.lists.families[folder] in s.drawn.states && s.drawn.states[s.lists.families[folder]] == Wiped
  }

  /** A refresh of a folder whose family says the account was removed. */
  predicate FindsRemoved(s: Store, e: Event, folder: FolderId) {
    AnswersFor(s, e, folder) && s.lists.listings[e.op].kind == Refresh && Stands(s, s.lists.listings[e.op].token) && SaysRemoved(s, folder)
  }

  /** The answer may land: in its session, into an open family not cleared since, not removed, and after no later listing. */
  predicate MayLand(s: Store, e: Event, folder: FolderId) {
    AnswersFor(s, e, folder) &&
      var l := s.lists.listings[e.op];
      && (l.kind != Catalogue ==> Stands(s, l.token))
      && (l.kind != Catalogue && l.mark.group.Some? ==>
            && Count(s.drawn.clears, l.mark.group.value) == l.mark.clears && l.mark.group.value in s.drawn.states
            && (s.drawn.states[l.mark.group.value].Accepted? || s.drawn.states[l.mark.group.value] == NoAnswer))
      && (l.kind == Refresh ==> !SaysRemoved(s, folder))
      && (folder in s.lists.shownTicket ==> s.lists.shownTicket[folder] < l.ticket) && l.ticket > 0
  }

  /**
   A folder's rows are those of the last listing of it that landed, until its family is cleared, or a refresh finds that
   the account was removed from it.
   */
  lemma RowsChangeExactly(s: Store, e: Event, folder: FolderId)
    requires Enabled(s, e)
    ensures RowsOf(Next(s, e), folder) ==
              if MayLand(s, e, folder) && e.rows then Some(s.lists.listings[e.op].ticket)
              else if FindsRemoved(s, e, folder) || (folder in s.lists.families && Clears(s, e, s.lists.families[folder])) then None
              else RowsOf(s, folder)
  {
    hide Forward, EvictedCame, Removal;
    if e.EEvicted? { EvictedEffect(s, e); }
    else if e.ERemoval? { RemovalEffect(s, e); }
    else if !e.EReset? && !e.EList? && !e.EListed? && !e.ELearned? { OtherEffect(s, e); hide Next; }
  }

  lemma AboutIs(s: Store, e: Event, g: Group)
    requires Enabled(s, e) && Clears(s, e, g)
    ensures (e.EEvicted? || e.ERemoval?) && About(s, e) == g
  {
  }

  /** Cleared, a family has no folder on the screen; every other folder keeps its rows, and every folder its last ticket. */
  lemma ClearedFamiliesAreOff(s: Store, e: Event, g: Group)
    requires Enabled(s, e) && Clears(s, e, g)
    ensures var r := Next(s, e);
            && (forall folder | folder in r.lists.folders && folder in r.lists.families :: r.lists.families[folder] != g)
            && (forall folder | folder in s.lists.folders && !(folder in s.lists.families && s.lists.families[folder] == g) ::
                  folder in r.lists.folders && r.lists.folders[folder] == s.lists.folders[folder])
            && r.lists.families == s.lists.families && r.lists.shownTicket == s.lists.shownTicket
            && g !in r.drawn.shown && (Removes(s, e) ==> g !in r.drawn.details)
  {
    hide Forward, EvictedCame, Removal, StillShows;
    AboutIs(s, e, g);
    if e.EEvicted? { EvictedEffect(s, e); } else { RemovalEffect(s, e); }
  }

  /** A folder's ticket moves on to a listing that landed with rows, or to a refresh that landed with a failure. */
  lemma TicketsMoveExactly(s: Store, e: Event, folder: FolderId)
    requires Enabled(s, e)
    ensures Count(Next(s, e).lists.shownTicket, folder) ==
              if MayLand(s, e, folder) && (e.rows || s.lists.listings[e.op].kind == Refresh)
              then s.lists.listings[e.op].ticket else Count(s.lists.shownTicket, folder)
  {
    hide Forward, EvictedCame, Removal;
    if e.EEvicted? { EvictedEffect(s, e); }
    else if e.ERemoval? { RemovalEffect(s, e); }
    else if !e.EReset? && !e.EList? && !e.EListed? && !e.ELearned? { OtherEffect(s, e); hide Next; }
  }

  /** A listing is out from its begin, with the next ticket, to its answer. */
  lemma ListingsAreOutExactly(s: Store, e: Event, op: OpId)
    requires Enabled(s, e)
    ensures var r := Next(s, e);
            var begins := e.EList? && e.op == op && (e.kind == Refresh || e.folder !in s.lists.families)
                          && (e.within.Some? ==> s.session == Some(e.within.value.owner) && s.generation == e.within.value.generation);
            && (op in r.lists.listings <==> (op in s.lists.listings && !(e.EListed? && e.op == op)) || begins)
            && (op in s.lists.listings && op in r.lists.listings ==> r.lists.listings[op] == s.lists.listings[op])
            && (begins ==> r.lists.listings[op].ticket == s.lists.started + 1 && r.lists.started == s.lists.started + 1)
            && (!begins && e.EList? && e.op == op ==> r == s)
  {
    hide Forward, EvictedCame, Removal;
    if e.EEvicted? { EvictedEffect(s, e); }
    else if e.ERemoval? { RemovalEffect(s, e); }
    else if !e.EReset? && !e.EList? && !e.EListed? && !e.ELearned? { OtherEffect(s, e); hide Next; }
  }

  // -- Showings and sessions ----------------------------------------------------------------------------------------------

  /** A showing waits on, or is over. */
  function WaitOf(s: Store, op: OpId): (wait: Option<Wait>) {
    if op in s.shows then Some(s.shows[op].wait) else None
  }

  /** A showing goes from wait to wait while its session stands and, past the areas, its publication is the latest. */
  lemma ShowingsGoOnExactly(s: Store, e: Event)
    requires Enabled(s, e) && OfShow(e)
    ensures var show, now := s.shows[e.op], WaitOf(Next(s, e), e.op);
            && (e.EAreas? ==> (now == Some(ForEvicted) <==> e.known.Some? && Current(s, show.token)) && (now.None? || now == Some(ForEvicted)))
            && (e.EEvicted? ==> now == if StillShows(s, e, show.group) && show.state.Accepted? then Some(ForDetail) else None)
            && (e.EDetail? ==> now == if e.answered && StillShown(s, show) then Some(ForListing) else None)
            && (e.ERelisted? ==> now == if e.more && StillShown(s, show) then Some(ForListing) else None)
    ensures Next(s, e).walks == s.walks +
              if e.ERelisted? && !e.more && StillShown(s, s.shows[e.op]) then [(s.shows[e.op].group, s.shows[e.op].shownAs)] else []
  {
    hide Forward, EvictedCame, Removal;
    if e.EEvicted? { EvictedEffect(s, e); }
  }

  /** The end of a session takes all that is drawn of families and moves every family on; folders' rows and areas stay. */
  lemma ResetLeavesNothingDrawn(s: Store)
    ensures var r := Next(s, EReset);
            && r.generation == s.generation + 1 && r.session == s.session && r.lists == s.lists && r.shows == s.shows && r.walks == s.walks
            && r.drawn.states == map[] && r.drawn.shown == map[] && r.drawn.details == map[] && r.drawn.areas == s.drawn.areas
            && forall g | g in s.drawn.states :: Count(r.drawn.published, g) == Count(s.drawn.published, g) + 1
  {
    hide Forward;
  }
}
