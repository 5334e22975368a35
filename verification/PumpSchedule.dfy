/**
 When passes run: one at a time, and a call during a pass asks for another after it. Calls are numbered by a clock so
 that "a pass that began at or after the call" can be said.
 */
module PumpSchedule {
  import opened Common

  /** `queued`: tasks that will call `pump` and have not run yet; `called` and `begun`: when it was last called, and a pass last begun. */
  datatype Schedule = Schedule(pumping: bool, pumpAgain: bool, queued: nat, clock: nat, called: nat, begun: nat, running: nat)

  const START := Schedule(false, false, 0, 0, 0, 0, 0)

  datatype Event =
    | Called     // anyone calls pump
    | TaskRuns   // a queued task runs, and calls it
    | PassEnds   // the pass returns, on any of its ways out

  function Call(s: Schedule): (after: Schedule) {
    var now := s.clock + 1;
    if s.pumping then s.(clock := now, called := now, pumpAgain := true)
    else s.(clock := now, called := now, begun := now, pumping := true, running := s.running + 1)
  }

  function Ended(s: Schedule): (after: Schedule)
    requires s.running > 0
  {
    s.(clock := s.clock + 1, pumping := false, running := s.running - 1, pumpAgain := false,
       queued := if s.pumpAgain then s.queued + 1 else s.queued)
  }

  predicate Enabled(s: Schedule, e: Event) {
    match e
    case Called => true
    case TaskRuns => s.queued > 0
    case PassEnds => s.running > 0
  }

  function Next(s: Schedule, e: Event): (after: Schedule)
    requires Enabled(s, e)
  {
    match e
    case Called => Call(s)
    case TaskRuns => Call(s.(queued := s.queued - 1))
    case PassEnds => Ended(s)
  }

  ghost predicate Run(trace: seq<Schedule>, events: seq<Event>) {
    && |trace| == |events| + 1 && trace[0] == START
    && forall i {:trigger events[i]} | 0 <= i < |events| :: Enabled(trace[i], events[i]) && trace[i + 1] == Next(trace[i], events[i])
  }

  ghost predicate Ok(s: Schedule) {
    && s.begun <= s.clock && s.called <= s.clock
    && s.running == (if s.pumping then 1 else 0)
    && (s.pumpAgain ==> s.pumping)
    && (s.begun < s.called ==> s.pumpAgain || s.queued > 0)
  }

  lemma {:induction false} AtMostOnePass(trace: seq<Schedule>, events: seq<Event>, i: nat)
    requires Run(trace, events) && i < |trace|
    ensures Ok(trace[i]) && trace[i].running <= 1
  {
    if i > 0 {
      AtMostOnePass(trace, events, i - 1);
      assert Enabled(trace[i - 1], events[i - 1]);
    }
  }

  /**
   No call is lost: at any later moment a pass has begun at or after the call, or one runs that another will follow,
   or a task waits that will call again.
   */
  lemma {:induction false} NoCallIsLost(trace: seq<Schedule>, events: seq<Event>, i: nat, k: nat)
    requires Run(trace, events) && i < k < |trace| && !events[i].PassEnds?
    ensures trace[k].begun > trace[i].clock || (trace[k].pumping && trace[k].pumpAgain) || trace[k].queued > 0
    decreases k
  {
    AtMostOnePass(trace, events, i);
    AtMostOnePass(trace, events, k);
    assert Enabled(trace[i], events[i]);
    CalledSince(trace, events, i, k);
  }

  /** The last call seen is no earlier than this one. */
  lemma {:induction false} CalledSince(trace: seq<Schedule>, events: seq<Event>, i: nat, k: nat)
    requires Run(trace, events) && i < k < |trace| && !events[i].PassEnds?
    ensures trace[k].called > trace[i].clock && trace[k].clock > trace[i].clock
    decreases k
  {
    assert Enabled(trace[k - 1], events[k - 1]);
    if i < k - 1 {
      CalledSince(trace, events, i, k - 1);
    }
  }

  /** Once everything is quiet, a pass has begun after every call. */
  lemma QuietMeansServed(trace: seq<Schedule>, events: seq<Event>, i: nat, k: nat)
    requires Run(trace, events) && i < k < |trace| && !events[i].PassEnds?
    requires !trace[k].pumping && trace[k].queued == 0
    ensures trace[k].begun > trace[i].clock
  {
    NoCallIsLost(trace, events, i, k);
  }

  /** Some call came while the pass that runs now, or ends now, was running. */
  ghost predicate CalledDuring(trace: seq<Schedule>, events: seq<Event>, i: nat)
    requires |trace| == |events| + 1 && i <= |events|
  {
    exists j: nat | j < i :: !events[j].PassEnds? && trace[j].running > 0 && forall m | j < m < i :: !events[m].PassEnds?
  }

  lemma {:induction false} AgainExactly(trace: seq<Schedule>, events: seq<Event>, i: nat)
    requires Run(trace, events) && i <= |events|
    ensures trace[i].pumpAgain <==> CalledDuring(trace, events, i)
  {
    if i > 0 {
      AgainExactly(trace, events, i - 1);
      AtMostOnePass(trace, events, i - 1);
      var e := events[i - 1];
      assert Enabled(trace[i - 1], e) && trace[i] == Next(trace[i - 1], e);
      if trace[i].pumpAgain {
        if CalledDuring(trace, events, i - 1) {
          var j: nat :| j < i - 1 && !events[j].PassEnds? && trace[j].running > 0 && forall m | j < m < i - 1 :: !events[m].PassEnds?;
          assert forall m | j < m < i :: !events[m].PassEnds?;
        } else {
          assert !e.PassEnds? && trace[i - 1].running > 0;
        }
      }
    }
  }

  /** A pass begins with each call that finds none running; one that ends is followed by another exactly when a call came during it. */
  lemma PassesMoveExactly(trace: seq<Schedule>, events: seq<Event>, i: nat)
    requires Run(trace, events) && i < |events|
    ensures var s, e, r := trace[i], events[i], trace[i + 1];
            && (r.running > s.running <==> !e.PassEnds? && s.running == 0) && (r.begun == if r.running > s.running then r.clock else s.begun)
            && (e.PassEnds? ==> r.running == 0) && (!e.PassEnds? && s.running > 0 ==> r.running == s.running)
            && r.queued == (if e.TaskRuns? then s.queued - 1 else if e.PassEnds? && CalledDuring(trace, events, i) then s.queued + 1 else s.queued)
  {
    AgainExactly(trace, events, i);
    AtMostOnePass(trace, events, i);
    assert Enabled(trace[i], events[i]) && trace[i + 1] == Next(trace[i], events[i]);
  }

  /** The queue's flags. */
  class Pump {
    var pumping: bool
    var pumpAgain: bool
    ghost var now: Schedule

    ghost predicate Valid()
      reads this
    {
      Ok(now) && now.pumping == pumping && now.pumpAgain == pumpAgain
    }

    constructor ()
      ensures Valid() && now == START
    {
      pumping, pumpAgain, now := false, false, START;
    }

    /** The first part of `pump`: whether this call begins a pass. */
    method Begin() returns (pass: bool)
      requires Valid()
      modifies this
      ensures Valid() && now == Call(old(now)) && pass == !old(pumping)
    {
      now := Call(now);
      if pumping {
        pumpAgain := true;
        return false;
      }
      pumping := true;
      return true;
    }

    /** What runs however the pass returns: whether a task is made that calls `pump` again. */
    method End() returns (again: bool)
      requires Valid() && pumping
      modifies this
      ensures Valid() && now == Ended(old(now)) && again == old(pumpAgain) && now.queued == old(now.queued) + if again then 1 else 0
    {
      now := Ended(now);
      pumping := false;
      again := pumpAgain;
      if pumpAgain { pumpAgain := false; }
    }
  }
}
