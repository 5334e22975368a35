/**
 The walks of families' folders: one per folder at a time, each stop of a run making its next start wait longer. Times
 are in seconds.
 */
module Walks {
  import opened Common

  type Folder = nat
  type RunKey = nat
  type OpId = nat

  /** What a walk is of: its folder, and the key change it follows there. */
  datatype Target = Target(folder: Folder, key: RunKey)

  /** A walk that ended well still holds its folder while the family is checked again. */
  datatype Walk = Walk(target: Target, refreshing: bool)

  datatype Ended = Ended(attempts: nat, until: nat)

  datatype Happening = Began(key: RunKey, at: nat) | Stopped(key: RunKey, at: nat) | Succeeded(key: RunKey)

  datatype Walker = Walker(walking: set<Folder>, ended: map<RunKey, Ended>, tasks: map<OpId, Walk>, now: nat, past: seq<Happening>)

  const IDLE := Walker({}, map[], map[], 0, [])

  function Pow2(n: nat): (r: nat)
    ensures r >= 1
  {
    if n == 0 then 1 else 2 * Pow2(n - 1)
  }

  /** 30 seconds, doubling to 10 minutes. */
  function Wait(attempts: nat): (seconds: nat)
    requires attempts > 0
  {
    Min(600, 30 * Pow2(attempts - 1))
  }

  datatype Event =
    | EDue(op: OpId, target: Target)  // found due
    | EWalked(op: OpId)               // to its end
    | EChecked(op: OpId)              // and the family checked again
    | EStopped(op: OpId)              // stopped, with a reason
    | EOver(op: OpId)                 // its session is over
    | ETick(seconds: nat)

  predicate Enabled(w: Walker, e: Event) {
    match e
    case EDue(op, _) => op !in w.tasks
    case EWalked(op) => op in w.tasks && !w.tasks[op].refreshing
    case EChecked(op) => op in w.tasks && w.tasks[op].refreshing
    case EStopped(op) => op in w.tasks && !w.tasks[op].refreshing
    case EOver(op) => op in w.tasks && !w.tasks[op].refreshing
    case ETick(_) => true
  }

  predicate MayStart(w: Walker, target: Target) {
    target.folder !in w.walking && (target.key in w.ended ==> w.ended[target.key].until <= w.now)
  }

  function Due(w: Walker, op: OpId, target: Target): (after: Walker) {
    if !MayStart(w, target) then w
    else w.(walking := w.walking + {target.folder}, tasks := w.tasks[op := Walk(target, false)], past := w.past + [Began(target.key, w.now)])
  }

  function Walked(w: Walker, op: OpId): (after: Walker)
    requires op in w.tasks
  {
    var target := w.tasks[op].target;
    w.(ended := w.ended - {target.key}, tasks := w.tasks[op := Walk(target, true)], past := w.past + [Succeeded(target.key)])
  }

  function Leave(w: Walker, op: OpId): (after: Walker)
    requires op in w.tasks
  {
    w.(walking := w.walking - {w.tasks[op].target.folder}, tasks := w.tasks - {op})
  }

  function StoppedWalk(w: Walker, op: OpId): (after: Walker)
    requires op in w.tasks
  {
    var key := w.tasks[op].target.key;
    var attempts := if key in w.ended then w.ended[key].attempts + 1 else 1;
    Leave(w.(ended := w.ended[key := Ended(attempts, w.now + Wait(attempts))], past := w.past + [Stopped(key, w.now)]), op)
  }

  function Next(w: Walker, e: Event): (after: Walker)
    requires Enabled(w, e)
  {
    match e
    case EDue(op, target) => Due(w, op, target)
    case EWalked(op) => Walked(w, op)
    case EChecked(op) => Leave(w, op)
    case EStopped(op) => StoppedWalk(w, op)
    case EOver(op) => Leave(w, op)
    case ETick(seconds) => w.(now := w.now + seconds)
  }

  ghost predicate Run(trace: seq<Walker>, events: seq<Event>) {
    && |trace| == |events| + 1 && trace[0] == IDLE
    && forall i {:trigger events[i]} | 0 <= i < |events| :: Enabled(trace[i], events[i]) && trace[i + 1] == Next(trace[i], events[i])
  }

  // -- What happened to one run ------------------------------------------------------------------------------------------------------

  /** How often it stopped since it last came to its end. */
  function StopsInARow(past: seq<Happening>, key: RunKey): (stops: nat) {
    if past == [] then 0
    else
      var last, before := past[|past| - 1], past[..|past| - 1];
      if last == Succeeded(key) then 0 else StopsInARow(before, key) + if last.Stopped? && last.key == key then 1 else 0
  }

  /** When it last stopped. */
  function LastStop(past: seq<Happening>, key: RunKey): (at: nat) {
    if past == [] then 0
    else
      var last := past[|past| - 1];
      if last.Stopped? && last.key == key then last.at else LastStop(past[..|past| - 1], key)
  }

  ghost predicate FoldersOk(w: Walker) {
    && w.walking == (set op | op in w.tasks :: w.tasks[op].target.folder)
    && forall a, b | a in w.tasks && b in w.tasks && w.tasks[a].target.folder == w.tasks[b].target.folder :: a == b
  }

  ghost predicate EndedOk(w: Walker, key: RunKey) {
    var stops := StopsInARow(w.past, key);
    if key in w.ended then stops > 0 && w.ended[key] == Ended(stops, LastStop(w.past, key) + Wait(stops)) else stops == 0
  }

  lemma NextFoldersOk(w: Walker, e: Event)
    requires FoldersOk(w) && Enabled(w, e)
    ensures FoldersOk(Next(w, e))
  {
    var r := Next(w, e);
    match e
    case EDue(op, target) =>
      if MayStart(w, target) { assert r.tasks.Keys == w.tasks.Keys + {op}; }
    case EWalked(op) => assert r.tasks.Keys == w.tasks.Keys;
    case EChecked(op) => LeaveOk(w, op);
    case EOver(op) => LeaveOk(w, op);
    case EStopped(op) => LeaveOk(w.(ended := r.ended, past := r.past), op);
    case ETick(_) =>
  }

  lemma LeaveOk(w: Walker, op: OpId)
    requires FoldersOk(w) && op in w.tasks
    ensures FoldersOk(Leave(w, op))
  {
    var r := Leave(w, op);
    forall f | f in r.walking ensures exists o :: o in r.tasks && r.tasks[o].target.folder == f {
      var o :| o in w.tasks && w.tasks[o].target.folder == f;
      assert o in r.tasks;
    }
  }

  lemma OneMore(past: seq<Happening>, h: Happening, key: RunKey)
    ensures StopsInARow(past + [h], key) == if h == Succeeded(key) then 0 else StopsInARow(past, key) + if h.Stopped? && h.key == key then 1 else 0
    ensures LastStop(past + [h], key) == if h.Stopped? && h.key == key then h.at else LastStop(past, key)
  {
    assert (past + [h])[..|past|] == past;
  }

  lemma NextEndedOk(w: Walker, e: Event, key: RunKey)
    requires EndedOk(w, key) && Enabled(w, e)
    ensures EndedOk(Next(w, e), key)
  {
    match e
    case EDue(op, target) => OneMore(w.past, Began(target.key, w.now), key);
    case EWalked(op) => OneMore(w.past, Succeeded(w.tasks[op].target.key), key);
    case EStopped(op) => OneMore(w.past, Stopped(w.tasks[op].target.key, w.now), key);
    case _ =>
  }

  lemma {:induction false} RunKeeps(trace: seq<Walker>, events: seq<Event>, i: nat, key: RunKey)
    requires Run(trace, events) && i < |trace|
    ensures FoldersOk(trace[i]) && EndedOk(trace[i], key)
  {
    if i > 0 {
      RunKeeps(trace, events, i - 1, key);
      assert Enabled(trace[i - 1], events[i - 1]) && trace[i] == Next(trace[i - 1], events[i - 1]);
      hide FoldersOk, EndedOk, Next;
      NextFoldersOk(trace[i - 1], events[i - 1]);
      NextEndedOk(trace[i - 1], events[i - 1], key);
    }
  }

  // -- The promises ------------------------------------------------------------------------------------------------------------------------

  /** No two walks of one folder are ever under way together. */
  lemma NoTwoWalksOfAFolder(trace: seq<Walker>, events: seq<Event>, i: nat, a: OpId, b: OpId)
    requires Run(trace, events) && i < |trace| && a in trace[i].tasks && b in trace[i].tasks && a != b
    ensures trace[i].tasks[a].target.folder != trace[i].tasks[b].target.folder
  {
    RunKeeps(trace, events, i, 0);
  }

  /** A due run starts exactly when its folder isn't walked and, after k stops in a row, min(600, 30 * 2^(k-1)) seconds passed. */
  lemma StartsExactlyAfterItsWait(trace: seq<Walker>, events: seq<Event>, i: nat)
    requires Run(trace, events) && i < |events| && events[i].EDue?
    ensures var w, target := trace[i], events[i].target;
            var stops := StopsInARow(w.past, target.key);
            trace[i + 1] != w <==>
              && (forall op | op in w.tasks :: w.tasks[op].target.folder != target.folder)
              && (stops > 0 ==> w.now >= LastStop(w.past, target.key) + Min(600, 30 * Pow2(stops - 1)))
  {
    var w, target := trace[i], events[i].target;
    RunKeeps(trace, events, i, target.key);
    assert Enabled(w, events[i]) && trace[i + 1] == Next(w, events[i]);
    if MayStart(w, target) { assert |trace[i + 1].past| == |w.past| + 1; }
    assert target.folder in w.walking <==> exists op :: op in w.tasks && w.tasks[op].target.folder == target.folder;
  }

  /** The walks under way change only so: one begins, holds its folder while its family is checked again, and frees it however it ends. */
  lemma WalksMoveExactly(w: Walker, e: Event)
    requires Enabled(w, e)
    ensures var r := Next(w, e);
            var begins := e.EDue? && e.target.folder !in w.walking && (e.target.key in w.ended ==> w.ended[e.target.key].until <= w.now);
            && (begins ==> r.walking == w.walking + {e.target.folder} && r.tasks == w.tasks[e.op := Walk(e.target, false)])
            && (e.EWalked? ==> r.walking == w.walking && r.tasks == w.tasks[e.op := Walk(w.tasks[e.op].target, true)])
            && (e.EChecked? || e.EStopped? || e.EOver? ==> r.walking == w.walking - {w.tasks[e.op].target.folder} && r.tasks == w.tasks - {e.op})
            && (e.ETick? || (e.EDue? && !begins) ==> r.walking == w.walking && r.tasks == w.tasks)
            && r.now == w.now + if e.ETick? then e.seconds else 0
  {
  }

  /** What is told of a run changes only so: its stops in a row are counted, and a walk to its end forgets them. */
  lemma StopsMoveExactly(w: Walker, e: Event, key: RunKey)
    requires Enabled(w, e)
    ensures var r := Next(w, e);
            var stops := StopsInARow(w.past, key);
            && (e.EStopped? && w.tasks[e.op].target.key == key ==> StopsInARow(r.past, key) == stops + 1 && LastStop(r.past, key) == w.now)
            && (e.EWalked? && w.tasks[e.op].target.key == key ==> StopsInARow(r.past, key) == 0)
            && (!(e.EStopped? && w.tasks[e.op].target.key == key) && !(e.EWalked? && w.tasks[e.op].target.key == key) ==>
                  StopsInARow(r.past, key) == stops && LastStop(r.past, key) == LastStop(w.past, key))
  {
    match e
    case EDue(op, target) => OneMore(w.past, Began(target.key, w.now), key);
    case EWalked(op) => OneMore(w.past, Succeeded(w.tasks[op].target.key), key);
    case EStopped(op) => OneMore(w.past, Stopped(w.tasks[op].target.key, w.now), key);
    case _ =>
  }

  /** The wait never shrinks from one stop to the next, and is never above ten minutes. */
  lemma {:induction false} WaitsGrow(k: nat, n: nat)
    requires 0 < k <= n
    ensures 30 <= Wait(k) <= Wait(n) <= 600
    decreases n
  {
    if k < n { WaitsGrow(k, n - 1); }
  }

  // -- The walks, changed in place -----------------------------------------------------------------------------------------------------------

  class FamilyWalks {
    var walking: set<Folder>
    var walkEnded: map<RunKey, Ended>
    var tasks: map<OpId, Walk>
    var now: nat
    ghost var past: seq<Happening>

    ghost function Now(): (now: Walker)
      reads this
    {
      Walker(walking, walkEnded, tasks, now, past)
    }

    constructor ()
      ensures Now() == IDLE
    {
      walking, walkEnded, tasks, now := {}, map[], map[], 0;
      past := [];
    }

    /** What starting the due targets one after another comes to. */
    static ghost function Started(w: Walker, due: seq<Target>, op: OpId): (after: Walker) {
      if due == [] then w else Due(Started(w, due[..|due| - 1], op), op + |due| - 1, due[|due| - 1])
    }

    /** Each due target starts in a task of its own, unless its folder is walked or its run waits. */
    method StartWalks(due: seq<Target>, op: OpId)
      requires forall o | o in tasks :: o < op
      modifies this
      ensures Now() == Started(old(Now()), due, op)
    {
      for i := 0 to |due|
        invariant Now() == Started(old(Now()), due[..i], op)
      {
        var target := due[i];
        assert due[..i + 1][..i] == due[..i];
        if target.folder in walking { continue; }
        if target.key in walkEnded && now < walkEnded[target.key].until { continue; }
        walking := walking + {target.folder};
        tasks := tasks[op + i := Walk(target, false)];
        past := past + [Began(target.key, now)];
      }
      assert due[..|due|] == due;
    }

    method WalkedToItsEnd(op: OpId)
      requires op in tasks
      modifies this
      ensures Now() == Walked(old(Now()), op)
    {
      var target := tasks[op].target;
      walkEnded := walkEnded - {target.key};
      tasks := tasks[op := Walk(target, true)];
      past := past + [Succeeded(target.key)];
    }

    method WalkStopped(op: OpId)
      requires op in tasks
      modifies this
      ensures Now() == StoppedWalk(old(Now()), op)
    {
      var key := tasks[op].target.key;
      var attempts := if key in walkEnded then walkEnded[key].attempts + 1 else 1;
      walkEnded := walkEnded[key := Ended(attempts, now + Wait(attempts))];
      past := past + [Stopped(key, now)];
      WalkOver(op);
    }

    /** However it ended, its folder is free again. */
    method WalkOver(op: OpId)
      requires op in tasks
      modifies `walking, `tasks
      ensures Now() == Leave(old(Now()), op)
    {
      walking := walking - {tasks[op].target.folder};
      tasks := tasks - {op};
    }
  }
}

/**
 The check asked of iOS while the app is closed: one request, for one session, that a later ask replaces only by an
 earlier time.
 */
module WalkChecks {
  import opened Common
  import opened Walks

  type Tag = nat

  const HOUR: nat := 3600

  datatype Pass = Done | Retry | SignedOut | TimeRanOut

  /** The keychain's session, and what is kept of the request: whose it is, when it is due, the stops in a row. */
  datatype Schedule = Schedule(keychain: Option<Tag>, session: Option<Tag>, due: Option<nat>, attempts: nat, now: nat)

  datatype Ask =
    | AWanted(wanted: bool, of: Tag)   // whether a session's families need the check
    | ASoon(of: Tag)                   // a walk found due, or stopped
    | ACancel                          // the session closed
    | ARun                             // iOS runs the request
    | APassed(pass: Pass, whose: Option<Tag>)  // the pass it ran ended; of no session if none matched
    | AKeychain(stored: Option<Tag>)
    | ATick(seconds: nat)

  /** FamilyCheckSchedule.earliest. */
  function Earliest(requested: nat, session: Tag, pending: Option<nat>, pendingSession: Option<Tag>): (begin: nat)
    ensures begin == requested || (pending == Some(begin) && pendingSession == Some(session))
    ensures begin <= requested && (pending.Some? && pendingSession == Some(session) ==> begin <= pending.value)
  {
    if pending.Some? && pendingSession == Some(session) then Min(pending.value, requested) else requested
  }

  function Asked(s: Schedule, delay: nat, session: Tag): (after: Schedule) {
    s.(session := Some(session), due := Some(Earliest(s.now + delay, session, s.due, s.session)))
  }

  function Cancelled(s: Schedule): (after: Schedule) {
    s.(session := None, due := None, attempts := 0)
  }

  function Soon(s: Schedule, session: Tag): (after: Schedule) {
    if s.keychain != Some(session) then s else Asked(s, Min(600, 30 * Pow2(s.attempts)), session)
  }

  function Wanted(s: Schedule, wanted: bool, session: Tag): (after: Schedule) {
    if s.keychain != Some(session) then s
    else if wanted then Asked(s, HOUR, session)
    else if s.session == Some(session) then Cancelled(s) else s
  }

  /** The attempts count on, or start over, whoever's pass it was; what it asks for next is guarded. */
  function Passed(s: Schedule, pass: Pass, of: Option<Tag>): (after: Schedule) {
    match pass
    case SignedOut => s
    case Done =>
      var t := s.(attempts := 0);
      if of.Some? && s.session == of then Asked(t, HOUR, of.value) else t
    case _ => if of.Some? then Soon(s.(attempts := s.attempts + 1), of.value) else s
  }

  function After(s: Schedule, a: Ask): (after: Schedule) {
    match a
    case AWanted(wanted, session) => Wanted(s, wanted, session)
    case ASoon(session) => Soon(s, session)
    case ACancel => Cancelled(s)
    case ARun => s.(due := None)
    case APassed(pass, session) => Passed(s, pass, session)
    case AKeychain(stored) => s.(keychain := stored)
    case ATick(seconds) => s.(now := s.now + seconds)
  }

  /** It ran, or was let go of. */
  predicate Ends(s: Schedule, a: Ask) {
    a == ACancel || a == ARun || (a.AWanted? && !a.wanted && s.keychain == Some(a.of) && s.session == Some(a.of))
  }

  ghost predicate Run(trace: seq<Schedule>, asks: seq<Ask>) {
    |trace| == |asks| + 1 && forall i {:trigger asks[i]} | 0 <= i < |asks| :: trace[i + 1] == After(trace[i], asks[i])
  }

  /** Until it runs or is cancelled, one session's pending check only moves earlier, whatever is asked meanwhile. */
  lemma {:induction false} PendingOnlyMovesEarlier(trace: seq<Schedule>, asks: seq<Ask>, i: nat, k: nat, session: Tag)
    requires Run(trace, asks) && i <= k < |trace| && trace[i].due.Some?
    requires forall j | i <= j <= k :: trace[j].session == Some(session)
    requires forall j | i <= j < k :: !Ends(trace[j], asks[j])
    ensures trace[k].due.Some? && trace[k].due.value <= trace[i].due.value
    decreases k
  {
    if i < k {
      PendingOnlyMovesEarlier(trace, asks, i, k - 1, session);
      assert trace[k] == After(trace[k - 1], asks[k - 1]);
    }
  }

  /** A session that is no longer the keychain's, nor the request's, touches no request by anything of its own. */
  lemma StaleSessionsAskNothing(s: Schedule, a: Ask, stale: Tag)
    requires s.keychain != Some(stale) && s.session != Some(stale)
    requires ((a.AWanted? || a.ASoon?) && a.of == stale) || (a.APassed? && a.whose == Some(stale))
    ensures After(s, a).due == s.due && After(s, a).session == s.session
    ensures a.AWanted? || a.ASoon? ==> After(s, a) == s
  {
  }

  /** But the end of a stale pass counts towards the session there is now: exactly when it is more than signed out. */
  lemma AStalePassMovesTheAttempts(s: Schedule, pass: Pass, stale: Tag)
    requires s.keychain != Some(stale) && s.session != Some(stale)
    ensures Passed(s, pass, Some(stale)) == s.(attempts := match pass
                                                             case SignedOut => s.attempts
                                                             case Done => 0
                                                             case _ => s.attempts + 1)
  {
  }

  /** The delay the session there is now asks for is then longer, exactly until it is ten minutes anyway. */
  lemma AStalePassDelaysTheNext(s: Schedule, stale: Tag, session: Tag)
    requires s.keychain == Some(session) && stale != session && s.session == Some(session) && s.due.None?
    ensures Soon(Passed(s, TimeRanOut, Some(stale)), session).due.value > Soon(s, session).due.value <==> s.attempts < 5
  {
    assert Pow2(s.attempts + 1) == 2 * Pow2(s.attempts);
    if s.attempts < 5 { Pow2UpTo(s.attempts, 4); } else { Pow2UpTo(5, s.attempts); }
    assert Pow2(4) == 16 && Pow2(5) == 32;
  }

  // -- What the request and the attempts become ---------------------------------------------------------------------------------------

  /** The wait after so many stops in a row: half a minute doubled, up to ten. */
  function DelayAfter(attempts: nat): (seconds: nat) {
    match attempts
    case 0 => 30
    case 1 => 60
    case 2 => 120
    case 3 => 240
    case 4 => 480
    case _ => 600
  }

  lemma DelayIs(attempts: nat)
    ensures Min(600, 30 * Pow2(attempts)) == DelayAfter(attempts)
  {
    assert Pow2(0) == 1 && Pow2(1) == 2 && Pow2(2) == 4 && Pow2(3) == 8 && Pow2(4) == 16 && Pow2(5) == 32;
    if attempts >= 5 { Pow2UpTo(5, attempts); }
  }

  /** A pass that ran out of time or is to be tried again, for a session. */
  predicate CameToNothing(a: Ask) {
    a.APassed? && (a.pass.Retry? || a.pass.TimeRanOut?) && a.whose.Some?
  }

  /** The session a step asks for the check for, and how long from now. */
  function AsksFor(s: Schedule, a: Ask): (ask: Option<(Tag, nat)>) {
    if a.AWanted? && a.wanted && s.keychain == Some(a.of) then Some((a.of, 3600))
    else if a.ASoon? && s.keychain == Some(a.of) then Some((a.of, DelayAfter(s.attempts)))
    else if a.APassed? && a.pass.Done? && a.whose.Some? && s.session == a.whose then Some((a.whose.value, 3600))
    else if CameToNothing(a) && s.keychain == a.whose then Some((a.whose.value, DelayAfter(s.attempts + 1)))
    else None
  }

  /** The step lets go of the request: the session closed, or its families need no check. */
  predicate LetsGo(s: Schedule, a: Ask) {
    a.ACancel? || (a.AWanted? && !a.wanted && s.keychain == Some(a.of) && s.session == Some(a.of))
  }

  /**
   The request is the last one asked for, or the same session's earlier one, until it runs or is let go of; the attempts
   count the passes that came to nothing since one came to its end.
   */
  lemma RequestsChangeExactly(s: Schedule, a: Ask)
    ensures var r, ask := After(s, a), AsksFor(s, a);
            && r.session == (if ask.Some? then Some(ask.value.0) else if LetsGo(s, a) then None else s.session)
            && r.due == (if ask.Some? then
                           Some(if s.due.Some? && s.session == Some(ask.value.0) && s.due.value < s.now + ask.value.1 then s.due.value
                                else s.now + ask.value.1)
                         else if LetsGo(s, a) || a.ARun? then None else s.due)
            && r.attempts == (if LetsGo(s, a) || (a.APassed? && a.pass.Done?) then 0
                              else if CameToNothing(a) then s.attempts + 1 else s.attempts)
            && r.keychain == (if a.AKeychain? then a.stored else s.keychain)
            && r.now == s.now + if a.ATick? then a.seconds else 0
  {
    DelayIs(s.attempts);
    DelayIs(s.attempts + 1);
  }

  lemma {:induction false} Pow2UpTo(m: nat, n: nat)
    requires m <= n
    ensures Pow2(m) <= Pow2(n)
    decreases n
  {
    if m < n { Pow2UpTo(m, n - 1); }
  }

  class FamilyWalkTasks {
    var keychain: Option<Tag>
    var session: Option<Tag>
    var due: Option<nat>
    var attempts: nat
    var now: nat

    ghost function Now(): (now: Schedule)
      reads this
    {
      Schedule(keychain, session, due, attempts, now)
    }

    method ScheduleAfter(delay: nat, asking: Tag)
      modifies `session, `due
      ensures Now() == Asked(old(Now()), delay, asking)
    {
      due := Some(Earliest(now + delay, asking, due, session));
      session := Some(asking);
    }

    method Wants(wanted: bool, asking: Tag)
      modifies this
      ensures Now() == Wanted(old(Now()), wanted, asking)
    {
      if keychain != Some(asking) { return; }
      if wanted {
        ScheduleAfter(HOUR, asking);
      } else if session == Some(asking) {
        Cancel();
      }
    }

    method AskSoon(asking: Tag)
      modifies this
      ensures Now() == Soon(old(Now()), asking)
    {
      if keychain == Some(asking) { ScheduleAfter(Min(600, 30 * Pow2(attempts)), asking); }
    }

    method Cancel()
      modifies `session, `due, `attempts
      ensures Now() == Cancelled(old(Now()))
    {
      session, due, attempts := None, None, 0;
    }

    /** No request is pending now; the pass is of the keychain's session, if the request was its. */
    method Handle() returns (running: Option<Tag>)
      modifies `due
      ensures Now() == After(old(Now()), ARun) && running == if keychain == session then session else None
    {
      due := None;
      return if keychain == session then session else None;
    }

    method PassEnded(pass: Pass, of: Option<Tag>)
      modifies this
      ensures Now() == Passed(old(Now()), pass, of)
    {
      match pass
      case SignedOut =>
      case Done =>
        attempts := 0;
        if of.Some? && session == of { ScheduleAfter(HOUR, of.value); }
      case _ =>
        if of.Some? {
          attempts := attempts + 1;
          AskSoon(of.value);
        }
    }
  }
}
