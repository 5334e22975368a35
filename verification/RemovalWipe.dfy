/**
 Signing in, a session's end, and the wipe of a phone that was removed from its account, each split where it waits. A
 sign-in takes a generation and waits for the wipe it finds; a wipe begins only if no generation was taken since its
 question was sent.
 */
module RemovalWipe {
  import opened Common

  type Owner = nat
  type SignInId = nat
  type OpId = nat

  /** A stored session is some sign-in's; every sign-in's token is its own. */
  datatype Session = Session(owner: Owner, who: SignInId)

  /** `before`: the sign-ins that had started when the question was sent. */
  datatype Check = Check(ended: Session, generation: nat, before: set<SignInId>)

  datatype Wipe = Wipe(before: set<SignInId>, done: bool)

  datatype SignIn = Held(wipe: OpId) | Asking

  /** What is stored on the phone: the session, whose data it holds, and the sign-in that claimed it. */
  datatype Stored = Stored(session: Option<Session>, owner: Option<Owner>, claimedBy: Option<SignInId>)

  const EMPTY := Stored(None, None, None)

  datatype Phone = Phone(
    stored: Stored,
    generation: nat,
    wiping: Option<OpId>,
    lost: set<Session>,
    checks: map<OpId, Check>,
    wipes: map<OpId, Wipe>,
    signIns: map<SignInId, SignIn>,
    started: set<SignInId>,
    elsewhere: set<SignInId>)

  const START := Phone(EMPTY, 0, None, {}, map[], map[], map[], {}, {})

  datatype Event =
    | ESignIn(who: SignInId)                 // signIn, recover: to the wait for a wipe
    | EResume(who: SignInId)                 // the wipe it waited for ended
    | EStore(who: SignInId, owner: Owner)    // the server agreed: data of another account goes, the session is stored
    | EFail(who: SignInId)
    | ELost                                 // sessionLost: the stored session goes, its question follows
    | ESend(op: OpId, ended: Session)       // the question about a lost session, or about the stored one
    | EAnswer(op: OpId, removed: bool)
    | EWiped(op: OpId)                      // the wipe's own step, after its waits
    | ECleared(op: OpId)                    // the question's continuation: no wipe is under way
    | EElsewhere(who: SignInId, owner: Owner)  // another process of the app signed someone in
    | EClosed                               // signed out, or the account deleted

  /** Devices.mayForgetRemoved. */
  predicate MayForget(ended: Session, stored: Stored) {
    (stored.session == None || stored.session == Some(ended)) && stored.owner == Some(ended.owner)
  }

  predicate Enabled(p: Phone, e: Event) {
    match e
    case ESignIn(who) => who !in p.started && who !in p.elsewhere
    case EResume(who) => who in p.signIns && p.signIns[who].Held? && (p.signIns[who].wipe in p.wipes ==> p.wipes[p.signIns[who].wipe].done)
    case EStore(who, _) => who in p.signIns && p.signIns[who].Asking?
    case EFail(who) => who in p.signIns && p.signIns[who].Asking?
    case ELost => p.stored.session.Some?
    case ESend(op, ended) => op !in p.checks && op !in p.wipes && (ended in p.lost || p.stored.session == Some(ended))
    case EAnswer(op, _) => op in p.checks
    case EWiped(op) => op in p.wipes && !p.wipes[op].done
    case ECleared(op) => op in p.wipes && p.wipes[op].done
    case EElsewhere(who, _) => who !in p.started && who !in p.elsewhere
    case EClosed => true
  }

  function BeginSignIn(p: Phone, who: SignInId): (after: Phone) {
    p.(started := p.started + {who}, generation := p.generation + 1,
       signIns := p.signIns[who := if p.wiping.Some? then Held(p.wiping.value) else Asking])
  }

  function StoreSession(p: Phone, who: SignInId, owner: Owner): (after: Phone) {
    p.(stored := Stored(Some(Session(owner, who)), Some(owner), Some(who)), signIns := p.signIns - {who})
  }

  function Lose(p: Phone): (after: Phone)
    requires p.stored.session.Some?
  {
    p.(lost := p.lost + {p.stored.session.value}, stored := p.stored.(session := None))
  }

  function Send(p: Phone, op: OpId, ended: Session): (after: Phone) {
    p.(lost := p.lost - {ended}, checks := p.checks[op := Check(ended, p.generation, p.started)])
  }

  /** From the answer to the wipe being set nothing waits. */
  function AnswerCame(p: Phone, op: OpId, removed: bool): (after: Phone)
    requires op in p.checks
  {
    var check := p.checks[op];
    var rest := p.(checks := p.checks - {op});
    if removed && check.generation == p.generation && MayForget(check.ended, p.stored)
    then rest.(wipes := p.wipes[op := Wipe(check.before, false)], wiping := Some(op))
    else rest
  }

  function WipeNow(p: Phone, op: OpId): (after: Phone)
    requires op in p.wipes
  {
    p.(stored := EMPTY, wipes := p.wipes[op := p.wipes[op].(done := true)])
  }

  function Next(p: Phone, e: Event): (after: Phone)
    requires Enabled(p, e)
  {
    match e
    case ESignIn(who) => BeginSignIn(p, who)
    case EResume(who) => p.(signIns := p.signIns[who := Asking])
    case EStore(who, owner) => StoreSession(p, who, owner)
    case EFail(who) => p.(signIns := p.signIns - {who})
    case ELost => Lose(p)
    case ESend(op, ended) => Send(p, op, ended)
    case EAnswer(op, removed) => AnswerCame(p, op, removed)
    case EWiped(op) => WipeNow(p, op)
    case ECleared(op) => p.(wipes := p.wipes - {op}, wiping := None)
    case EElsewhere(who, owner) => p.(stored := Stored(Some(Session(owner, who)), Some(owner), Some(who)), elsewhere := p.elsewhere + {who})
    case EClosed => p.(stored := EMPTY)
  }

  ghost predicate Run(trace: seq<Phone>, events: seq<Event>) {
    && |trace| == |events| + 1 && trace[0] == START
    && forall i {:trigger events[i]} | 0 <= i < |events| :: Enabled(trace[i], events[i]) && trace[i + 1] == Next(trace[i], events[i])
  }

  /** A question is sent only once the last one is answered, and its wipe over. */
  ghost predicate OneAtATime(trace: seq<Phone>, events: seq<Event>)
    requires Run(trace, events)
  {
    forall i {:trigger events[i]} | 0 <= i < |events| && events[i].ESend? :: trace[i].checks == map[] && trace[i].wipes == map[]
  }

  // -- What every moment keeps -----------------------------------------------------------------------------------------------------

  /** A sign-in some wipe must not touch is not among those before its question. */
  predicate Among(stored: Stored, before: set<SignInId>) {
    && (stored.session.Some? ==> stored.session.value.who in before)
    && (stored.claimedBy.Some? ==> stored.claimedBy.value in before)
  }

  /** A check that may still begin a wipe counts every sign-in there was. */
  ghost predicate ChecksOk(p: Phone) {
    forall op | op in p.checks ::
      p.checks[op].generation <= p.generation && (p.checks[op].generation == p.generation ==> p.checks[op].before == p.started)
  }

  /** While a wipe runs, whoever signed in after its question waits for it. */
  ghost predicate WipesOk(p: Phone) {
    forall op | op in p.wipes && !p.wipes[op].done ::
      && p.wiping == Some(op)
      && Among(p.stored, p.wipes[op].before + p.elsewhere)
      && forall who | who in p.signIns && who !in p.wipes[op].before :: p.signIns[who] == Held(op)
  }

  ghost predicate Orderly(p: Phone) {
    && ChecksOk(p) && WipesOk(p)
    && (forall a, b | a in p.checks && b in p.checks :: a == b) && (p.checks != map[] ==> p.wipes == map[])
    && (forall a, b | a in p.wipes && b in p.wipes :: a == b)
    && p.signIns.Keys <= p.started && Among(p.stored, p.started + p.elsewhere)
  }

  lemma SignInOrderly(p: Phone, who: SignInId)
    requires Orderly(p) && who !in p.started
    ensures Orderly(BeginSignIn(p, who))
  {
  }

  lemma AnswerOrderly(p: Phone, op: OpId, removed: bool)
    requires Orderly(p) && op in p.checks
    ensures Orderly(AnswerCame(p, op, removed))
  {
    assert p.checks.Keys == {op};
    assert p.checks - {op} == map[];
  }

  lemma NextOrderly(p: Phone, e: Event)
    requires Orderly(p) && Enabled(p, e) && (e.ESend? ==> p.checks == map[] && p.wipes == map[])
    ensures Orderly(Next(p, e))
  {
    match e
    case ESignIn(who) => SignInOrderly(p, who);
    case EAnswer(op, removed) => AnswerOrderly(p, op, removed);
    case _ =>
  }

  lemma {:induction false} RunOrderly(trace: seq<Phone>, events: seq<Event>, i: nat)
    requires Run(trace, events) && OneAtATime(trace, events) && i < |trace|
    ensures Orderly(trace[i])
  {
    if i > 0 {
      RunOrderly(trace, events, i - 1);
      assert Enabled(trace[i - 1], events[i - 1]) && trace[i] == Next(trace[i - 1], events[i - 1]);
      NextOrderly(trace[i - 1], events[i - 1]);
    }
  }

  /** A question, and the wipe it began, remember the sign-ins there were when it was sent. */
  lemma {:induction false} RemembersBefore(trace: seq<Phone>, events: seq<Event>, sent: nat, i: nat, op: OpId)
    requires Run(trace, events) && sent < i < |trace| && events[sent].ESend? && events[sent].op == op
    requires forall j | sent < j < i :: !(events[j].ESend? && events[j].op == op)
    ensures op in trace[i].checks ==> trace[i].checks[op].before == trace[sent].started
    ensures op in trace[i].wipes ==> trace[i].wipes[op].before == trace[sent].started && op !in trace[i].checks
    decreases i
  {
    assert Enabled(trace[i - 1], events[i - 1]) && trace[i] == Next(trace[i - 1], events[i - 1]);
    if i - 1 > sent { RemembersBefore(trace, events, sent, i - 1, op); }
  }

  // -- The promise --------------------------------------------------------------------------------------------------------------------

  /**
   With one question out at a time, a wipe takes no session a sign-in stored, nor data it claimed, if that sign-in
   started after the question was sent: the app's own sign-ins, that is, not another process's.
   */
  lemma WipeTakesNoLaterSignIn(trace: seq<Phone>, events: seq<Event>, sent: nat, i: nat, op: OpId)
    requires Run(trace, events) && OneAtATime(trace, events) && sent < i < |events|
    requires events[sent].ESend? && events[sent].op == op && events[i] == EWiped(op)
    requires forall j | sent < j < i :: !(events[j].ESend? && events[j].op == op)
    ensures Among(trace[i].stored, trace[sent].started + trace[i].elsewhere)
  {
    RunOrderly(trace, events, i);
    RemembersBefore(trace, events, sent, i, op);
    assert Enabled(trace[i], events[i]);
  }

  /** A phone is wiped only for a session it was asked about, of the account whose data it holds. */
  lemma WipesOnlyTheAskedAccount(p: Phone, op: OpId, removed: bool)
    requires op in p.checks && AnswerCame(p, op, removed).wiping != p.wiping
    ensures removed && p.stored.owner == Some(p.checks[op].ended.owner) && (p.stored.session.None? || p.stored.session.value == p.checks[op].ended)
  {
  }

  // -- What a wipe takes, and what it begins for ------------------------------------------------------------------------------------------

  /** The step stores a session: the app's own sign-in, or another process's. */
  predicate Stores(e: Event, session: Session) {
    (e.EStore? || e.EElsewhere?) && e.who == session.who && e.owner == session.owner
  }

  /** The step leaves nothing stored: a wipe, or signing out. */
  predicate Empties(e: Event) {
    e.EWiped? || e.EClosed?
  }

  /** What is stored changes only so: a sign-in stores its session and claims the data, a lost session goes, a wipe takes all. */
  lemma StoredChangesExactly(p: Phone, e: Event)
    requires Enabled(p, e)
    ensures var s := Next(p, e).stored;
            && (e.EStore? || e.EElsewhere? ==> s.session.Some? && Stores(e, s.session.value) && s.owner == Some(e.owner) && s.claimedBy == Some(e.who))
            && (Empties(e) ==> s.session.None? && s.owner.None? && s.claimedBy.None?)
            && (e.ELost? ==> s.session.None? && s.owner == p.stored.owner && s.claimedBy == p.stored.claimedBy)
            && (!e.EStore? && !e.EElsewhere? && !Empties(e) && !e.ELost? ==> s == p.stored)
  {
  }

  /** Whatever is stored was stored by some step, with nothing emptied since. */
  lemma {:induction false} StoredWasStored(trace: seq<Phone>, events: seq<Event>, k: nat) returns (session: nat, claim: nat)
    requires Run(trace, events) && k < |trace|
    ensures trace[k].stored.session.Some? ==>
              session < k && Stores(events[session], trace[k].stored.session.value) && forall m | session < m < k :: !Empties(events[m]) && !events[m].ELost?
    ensures trace[k].stored.claimedBy.Some? ==>
              && claim < k && (events[claim].EStore? || events[claim].EElsewhere?) && events[claim].who == trace[k].stored.claimedBy.value
              && forall m | claim < m < k :: !Empties(events[m])
    ensures trace[k].stored.owner.Some? <==> trace[k].stored.claimedBy.Some?
  {
    session, claim := 0, 0;
    if k > 0 {
      var e := events[k - 1];
      assert Enabled(trace[k - 1], e) && trace[k] == Next(trace[k - 1], e);
      StoredChangesExactly(trace[k - 1], e);
      session, claim := StoredWasStored(trace, events, k - 1);
      if e.EStore? || e.EElsewhere? { session, claim := k - 1, k - 1; }
    }
  }

  /**
   A wipe takes the session, the data and its owner: right after it nothing is stored, and whatever is stored by the time
   the wipe is over was stored since, by a sign-in or by another process.
   */
  lemma AWipeTakesAll(trace: seq<Phone>, events: seq<Event>, i: nat, op: OpId, k: nat)
    requires Run(trace, events) && i < |events| && events[i] == EWiped(op) && i < k < |trace|
    ensures trace[i + 1].stored.session.None? && trace[i + 1].stored.owner.None? && trace[i + 1].stored.claimedBy.None?
    ensures trace[k].stored.session.Some? ==> exists m: nat :: i < m < k && Stores(events[m], trace[k].stored.session.value)
    ensures trace[k].stored.claimedBy.Some? ==>
              exists m: nat :: i < m < k && (events[m].EStore? || events[m].EElsewhere?) && events[m].who == trace[k].stored.claimedBy.value
  {
    assert Enabled(trace[i], events[i]) && trace[i + 1] == Next(trace[i], events[i]);
    StoredChangesExactly(trace[i], events[i]);
    var session, claim := StoredWasStored(trace, events, k);
    assert Empties(events[i]);
  }

  /** How many sign-ins started is counted. */
  lemma {:induction false} GenerationsCount(trace: seq<Phone>, events: seq<Event>, sent: nat, i: nat)
    requires Run(trace, events) && sent <= i < |trace|
    ensures trace[sent].generation <= trace[i].generation
    ensures trace[sent].generation == trace[i].generation <==> forall m | sent <= m < i :: !events[m].ESignIn?
    decreases i
  {
    if sent < i {
      GenerationsCount(trace, events, sent, i - 1);
      assert Enabled(trace[i - 1], events[i - 1]) && trace[i] == Next(trace[i - 1], events[i - 1]);
    }
  }

  /** A question out is the one sent, about the session it was sent for, and counts the sign-ins there were. */
  lemma {:induction false} QuestionIs(trace: seq<Phone>, events: seq<Event>, sent: nat, i: nat, op: OpId)
    requires Run(trace, events) && sent < i < |trace| && events[sent].ESend? && events[sent].op == op
    requires forall j | sent < j < i :: !(events[j].ESend? && events[j].op == op) && !(events[j].EAnswer? && events[j].op == op)
    ensures op in trace[i].checks && trace[i].checks[op].ended == events[sent].ended && trace[i].checks[op].generation == trace[sent].generation
    decreases i
  {
    assert Enabled(trace[i - 1], events[i - 1]) && trace[i] == Next(trace[i - 1], events[i - 1]);
    if i - 1 > sent { QuestionIs(trace, events, sent, i - 1, op); }
  }

  /**
   An answer begins a wipe exactly when it says removed, no sign-in started since the question was sent, the session
   stored is the one asked about or none, and the data is its account's.
   */
  lemma AWipeBeginsExactly(trace: seq<Phone>, events: seq<Event>, sent: nat, i: nat, op: OpId)
    requires Run(trace, events) && sent < i < |events| && events[sent].ESend? && events[sent].op == op
    requires events[i].EAnswer? && events[i].op == op && op !in trace[i].wipes
    requires forall j | sent < j < i :: !(events[j].ESend? && events[j].op == op) && !(events[j].EAnswer? && events[j].op == op)
    ensures var asked := events[sent].ended;
            op in trace[i + 1].wipes <==>
              && events[i].removed && (forall m | sent <= m < i :: !events[m].ESignIn?)
              && (trace[i].stored.session.None? || trace[i].stored.session.value == asked) && trace[i].stored.owner == Some(asked.owner)
    ensures op in trace[i + 1].wipes ==> trace[i + 1].wiping == Some(op) && !trace[i + 1].wipes[op].done
    ensures op !in trace[i + 1].wipes ==> trace[i + 1] == trace[i].(checks := trace[i].checks - {op})
  {
    QuestionIs(trace, events, sent, i, op);
    GenerationsCount(trace, events, sent, i);
    assert Enabled(trace[i], events[i]) && trace[i + 1] == Next(trace[i], events[i]);
  }

  /** A sign-in waits exactly when it finds a wipe under way, and stores nothing until that is done. */
  lemma ASignInWaitsExactly(p: Phone, e: Event)
    requires Enabled(p, e) && e.ESignIn?
    ensures var r := Next(p, e);
            && e.who in r.signIns && r.signIns[e.who] == (if p.wiping.Some? then Held(p.wiping.value) else Asking) && r.stored == p.stored
            && (p.wiping.Some? ==> !Enabled(r, EStore(e.who, 0)))
            && (p.wiping.Some? ==> (Enabled(r, EResume(e.who)) <==> (p.wiping.value in p.wipes ==> p.wipes[p.wiping.value].done)))
  {
  }

  /** A sign-in under way waits, asks the server, and ends by storing its session or by failing, alone. */
  lemma SignInsMoveExactly(p: Phone, e: Event, who: SignInId)
    requires Enabled(p, e)
    ensures var r := Next(p, e);
            && (who in r.signIns <==> (e.ESignIn? && e.who == who) || (who in p.signIns && !((e.EStore? || e.EFail?) && e.who == who)))
            && (who in r.signIns && who in p.signIns && !e.ESignIn? ==> r.signIns[who] == if e.EResume? && e.who == who then Asking else p.signIns[who])
            && r.generation == p.generation + (if e.ESignIn? then 1 else 0)
  {
  }

  /** The questions and the wipes: a question goes with its answer, a wipe is set by one, done by its own step, and over with its question. */
  lemma WipesMoveExactly(p: Phone, e: Event, op: OpId)
    requires Enabled(p, e)
    ensures var r := Next(p, e);
            var begins := e.EAnswer? && op !in p.wipes && op in r.wipes;
            && (op in r.checks <==> (e.ESend? && e.op == op) || (op in p.checks && !(e.EAnswer? && e.op == op)))
            && (begins ==> e.op == op && e.removed)
            && (op in p.wipes && !(e.EAnswer? && e.op == op) ==> (op in r.wipes <==> !(e.ECleared? && e.op == op)))
            && (op in p.wipes && op in r.wipes && !e.EAnswer? ==> r.wipes[op].done == (p.wipes[op].done || (e.EWiped? && e.op == op)))
            && (!e.EAnswer? ==> r.wiping == if e.ECleared? then None else p.wiping)
            && r.lost == (if e.ELost? then p.lost + {p.stored.session.value} else if e.ESend? then p.lost - {e.ended} else p.lost)
  {
  }

  // -- Where it ends --------------------------------------------------------------------------------------------------------------------

  /** The phone after some events, if each could happen. */
  function After(events: seq<Event>): (found: Option<Phone>) {
    if events == [] then Some(START)
    else
      var before := After(events[..|events| - 1]);
      var e := events[|events| - 1];
      if before.Some? && Enabled(before.value, e) then Some(Next(before.value, e)) else None
  }

  /** Such events are a run's. */
  lemma {:induction false} IsARun(events: seq<Event>) returns (trace: seq<Phone>)
    requires After(events).Some?
    ensures Run(trace, events) && trace[|events|] == After(events).value
  {
    if events == [] {
      trace := [START];
    } else {
      var n := |events| - 1;
      var before := IsARun(events[..n]);
      trace := before + [After(events).value];
      assert forall i | 0 <= i < n :: events[..n][i] == events[i];
    }
  }

  lemma Then(events: seq<Event>, p: Phone, e: Event) returns (longer: seq<Event>)
    requires After(events) == Some(p) && Enabled(p, e)
    ensures longer == events + [e] && After(longer) == Some(Next(p, e))
  {
    longer := events + [e];
    assert longer[..|events|] == events;
  }

  /** A wipe about to take the session of a sign-in that is not among those before its question. */
  ghost predicate TakesALaterOne(p: Phone, op: OpId) {
    Enabled(p, EWiped(op)) && p.stored.session.Some? && p.stored.session.value.who !in p.wipes[op].before
  }

  const OLD := Session(7, 1)

  /** One account signed in, its session refused. */
  lemma SignedIn() returns (events: seq<Event>, p: Phone)
    ensures After(events) == Some(p) && forall e | e in events :: !e.ESend?
    ensures p == START.(stored := Stored(Some(OLD), Some(7), Some(1)), generation := 1, started := {1})
  {
    events, p := [], START;
    events := Then(events, p, ESignIn(1));
    p := Next(p, ESignIn(1));
    hide After;
    events := Then(events, p, EStore(1, 7));
    p := Next(p, EStore(1, 7));
    assert p.signIns == map[];
  }

  /** Two questions about one session, both answered while nobody was signing in. */
  lemma TwoWipes() returns (events: seq<Event>, p: Phone)
    ensures After(events) == Some(p)
    ensures p == START.(stored := Stored(None, Some(7), Some(1)), generation := 1, started := {1}, wiping := Some(20),
                        wipes := map[10 := Wipe({1}, false), 20 := Wipe({1}, false)])
  {
    events, p := SignedIn();
    hide After;
    events := Then(events, p, ESend(10, OLD)); p := Next(p, ESend(10, OLD));
    events := Then(events, p, ELost); p := Next(p, ELost);
    events := Then(events, p, ESend(20, OLD)); p := Next(p, ESend(20, OLD));
    assert p.lost == {};
    events := Then(events, p, EAnswer(10, true)); p := Next(p, EAnswer(10, true));
    events := Then(events, p, EAnswer(20, true)); p := Next(p, EAnswer(20, true));
    assert p.checks == map[];
  }

  /** Two questions out together: the first one's end hides the second's wipe from a sign-in, whose session goes. */
  lemma TwoQuestionsTakeALaterSession()
    ensures exists events: seq<Event>, p: Phone :: After(events) == Some(p) && TakesALaterOne(p, 20) && p.elsewhere == {}
  {
    var events, p := TwoWipes();
    hide After;
    events := Then(events, p, EWiped(10)); p := Next(p, EWiped(10));
    events := Then(events, p, ECleared(10)); p := Next(p, ECleared(10));
    events := Then(events, p, ESignIn(2)); p := Next(p, ESignIn(2));
    events := Then(events, p, EStore(2, 7)); p := Next(p, EStore(2, 7));
  }

  /** A sign-in that had started when the question was sent, and stores its session during the wipe, loses it. */
  lemma ASignInUnderWayLosesItsSession()
    ensures exists events: seq<Event>, p: Phone :: After(events) == Some(p) && Enabled(p, EWiped(20)) && p.elsewhere == {}
              && p.stored.session == Some(Session(7, 2)) && 2 in p.wipes[20].before
              && (forall e | e in events && e.ESend? :: e == ESend(20, OLD))
  {
    var events, p := SignedIn();
    hide After;
    events := Then(events, p, ELost); p := Next(p, ELost);
    events := Then(events, p, ESignIn(2)); p := Next(p, ESignIn(2));
    events := Then(events, p, ESend(20, OLD)); p := Next(p, ESend(20, OLD));
    events := Then(events, p, EAnswer(20, true)); p := Next(p, EAnswer(20, true));
    events := Then(events, p, EStore(2, 7)); p := Next(p, EStore(2, 7));
  }

  /** Another process waits for no wipe: a session it stores during one goes. */
  lemma AnotherProcessLosesItsSession()
    ensures exists events: seq<Event>, p: Phone :: After(events) == Some(p) && TakesALaterOne(p, 20)
              && (forall e | e in events && e.ESend? :: e == ESend(20, OLD))
  {
    var events, p := SignedIn();
    hide After;
    events := Then(events, p, ESend(20, OLD)); p := Next(p, ESend(20, OLD));
    events := Then(events, p, EAnswer(20, true)); p := Next(p, EAnswer(20, true));
    events := Then(events, p, EElsewhere(2, 7)); p := Next(p, EElsewhere(2, 7));
  }

  // -- The app's model, changed in place ------------------------------------------------------------------------------------------------

  class AppModel {
    var session: Option<Session>
    var owner: Option<Owner>
    var generation: nat
    var wiping: Option<OpId>
    // What is out: questions, wipes and sign-ins, each where it waits.
    var lost: set<Session>
    var checks: map<OpId, Check>
    var wipes: map<OpId, Wipe>
    var signIns: map<SignInId, SignIn>
    // Who claimed the data, and every sign-in there was: kept for the promise about them.
    var claimedBy: Option<SignInId>
    var started: set<SignInId>
    var elsewhere: set<SignInId>

    ghost function Now(): (now: Phone)
      reads this
    {
      Phone(Stored(session, owner, claimedBy), generation, wiping, lost, checks, wipes, signIns, started, elsewhere)
    }

    constructor ()
      ensures Now() == START
    {
      session, owner, generation, wiping := None, None, 0, None;
      lost, checks, wipes, signIns := {}, map[], map[], map[];
      claimedBy, started, elsewhere := None, {}, {};
    }

    /** `signIn` and `recover`, to the wait for the wipe they find. */
    method BeginSigningIn(who: SignInId)
      requires Enabled(Now(), ESignIn(who))
      modifies this
      ensures Now() == Next(old(Now()), ESignIn(who))
    {
      generation := generation + 1;
      signIns := signIns[who := if wiping.Some? then Held(wiping.value) else Asking];
      started := started + {who};
    }

    method ResumeSigningIn(who: SignInId)
      requires Enabled(Now(), EResume(who))
      modifies this
      ensures Now() == Next(old(Now()), EResume(who))
    {
      signIns := signIns[who := Asking];
    }

    /** Another account's session goes first, its data next, then the session is stored. */
    method FinishSigningIn(who: SignInId, account: Owner)
      requires Enabled(Now(), EStore(who, account))
      modifies this
      ensures Now() == Next(old(Now()), EStore(who, account))
    {
      if owner != Some(account) { session := None; }
      owner := Some(account);
      claimedBy := Some(who);
      session := Some(Session(account, who));
      signIns := signIns - {who};
    }

    /** The session died: it goes, and the question about it follows, unless a sign-in already replaced it. */
    method SessionLost(ended: Option<Session>)
      modifies this
      ensures old(session).None? || (ended.Some? && Some(ended.value) != old(session)) ==> Now() == old(Now())
      ensures old(session).Some? && (ended.None? || Some(ended.value) == old(session)) ==> Now() == Next(old(Now()), ELost)
    {
      if session.None? || (ended.Some? && session != Some(ended.value)) { return; }
      lost := lost + {session.value};
      session := None;
    }

    /** `forgetIfRemoved`, to its question. */
    method AskWhetherRemoved(op: OpId, ended: Session)
      requires Enabled(Now(), ESend(op, ended))
      modifies this
      ensures Now() == Next(old(Now()), ESend(op, ended))
    {
      checks := checks[op := Check(ended, generation, started)];
      lost := lost - {ended};
    }

    /** The answer: the wipe is set at once, or nothing is. */
    method RemovalAnswered(op: OpId, removed: bool) returns (begun: bool)
      requires Enabled(Now(), EAnswer(op, removed))
      modifies this
      ensures Now() == Next(old(Now()), EAnswer(op, removed))
      ensures begun <==> removed && old(checks)[op].generation == generation && MayForget(old(checks)[op].ended, old(Now()).stored)
    {
      var check := checks[op];
      checks := checks - {op};
      begun := removed && check.generation == generation && (session == None || session == Some(check.ended)) && owner == Some(check.ended.owner);
      if begun {
        wipes := wipes[op := Wipe(check.before, false)];
        wiping := Some(op);
      }
    }

    /** What was kept for the account goes, and its session. */
    method ForgetRemovedDevice(op: OpId)
      requires Enabled(Now(), EWiped(op))
      modifies this
      ensures Now() == Next(old(Now()), EWiped(op))
    {
      session := None;
      owner := None;
      claimedBy := None;
      wipes := wipes[op := wipes[op].(done := true)];
    }

    method WipeOver(op: OpId)
      requires Enabled(Now(), ECleared(op))
      modifies this
      ensures Now() == Next(old(Now()), ECleared(op))
    {
      wiping := None;
      wipes := wipes - {op};
    }
  }
}
