/**
 Deleting several rows of the trash for ever: only the tops are asked for, what is inside them goes with them. Emptying
 does the same with the rows on screen, then lets the server take the rest in batches.
 */
module Purges {
  import opened Common
  import opened Forest

  /** The picked rows that have another picked row above them, as far as the phone sees. */
  function Inside(p: Parents, held: set<Id>, picked: set<Id>): (inside: set<Id>) {
    set x | x in picked && exists a :: a in Chain(p, held, x, CAP) && a in picked
  }

  function Tops(p: Parents, held: set<Id>, picked: set<Id>): (tops: set<Id>) {
    picked - Inside(p, held, picked)
  }

  /** Every picked row with a picked row above it sees one. */
  ghost predicate SeesPicked(p: Parents, held: set<Id>, picked: set<Id>) {
    forall x, a :: x in picked && a in picked && Above(p, x, a) ==> x in Inside(p, held, picked)
  }

  /** Among some tops none is above another. */
  ghost predicate Apart(p: Parents, tops: set<Id>) {
    forall t, u :: t in tops && u in tops ==> !Above(p, t, u)
  }

  /** What is left of `there` once the tops the server agreed to are gone, each with all that is inside it. */
  ghost function Purged(p: Parents, there: set<Id>, tops: seq<Id>, ok: seq<bool>): (left: set<Id>)
    requires |tops| <= |ok|
  {
    if tops == [] then there
    else
      var n := |tops| - 1;
      PurgedOne(p, Purged(p, there, tops[..n], ok), tops[n], ok[n])
  }

  ghost function PurgedOne(p: Parents, there: set<Id>, top: Id, ok: bool): (left: set<Id>) {
    set x | x in there && !(ok && OnWalk(p, x, top))
  }

  // -- Tops -----------------------------------------------------------------------------------------------------------------------

  /** Of two folders on one walk, one is on the other's. */
  lemma OnOneWalk(p: Parents, x: Id, t: Id, u: Id)
    requires OnWalk(p, x, t) && OnWalk(p, x, u)
    ensures t == u || Above(p, t, u) || Above(p, u, t)
  {
    var m: nat :| Up(p, x, m) == Some(t);
    var n: nat :| Up(p, x, n) == Some(u);
    if m < n {
      UpFrom(p, x, m, n - m);
      AboveBy(p, t, n - m, u);
    } else if n < m {
      UpFrom(p, x, n, m - n);
      AboveBy(p, u, m - n, t);
    }
  }

  lemma OnWalkTrans(p: Parents, x: Id, y: Id, z: Id)
    requires OnWalk(p, x, y) && OnWalk(p, y, z)
    ensures OnWalk(p, x, z)
  {
    var m: nat :| Up(p, x, m) == Some(y);
    var n: nat :| Up(p, y, n) == Some(z);
    UpFrom(p, x, m, n);
  }

  lemma AboveIsOnWalk(p: Parents, x: Id, a: Id)
    requires Above(p, x, a)
    ensures OnWalk(p, x, a)
  {
    var n := AboveAt(p, x, a);
  }

  lemma {:induction false} SomeTop(p: Parents, held: set<Id>, picked: set<Id>, x: Id, n: nat) returns (t: Id)
    requires x in picked && Up(p, x, n) == None
    ensures t in Tops(p, held, picked) && OnWalk(p, x, t) && (t == x || Above(p, x, t))
    decreases n
  {
    if x in Inside(p, held, picked) {
      var a :| a in Chain(p, held, x, CAP) && a in picked;
      ChainIsAbove(p, held, x, CAP, a);
      var k := AboveAt(p, x, a);
      if n <= k { UpStops(p, x, n, k); }
      UpFrom(p, x, k, n - k);
      t := SomeTop(p, held, picked, a, n - k);
      if t != a { AboveAbove(p, x, a, t); }
      AboveIsOnWalk(p, x, t);
    } else {
      t := x;
      assert Up(p, x, 0) == Some(x);
    }
  }

  /** Every picked row is in a top's subtree: purging the tops removes what purging every picked row would. */
  lemma TopsCoverThePicked(p: Parents, held: set<Id>, picked: set<Id>, x: Id)
    requires IsForest(p)
    ensures (exists t :: t in Tops(p, held, picked) && OnWalk(p, x, t)) <==> (exists y :: y in picked && OnWalk(p, x, y))
  {
    if y :| y in picked && OnWalk(p, x, y) {
      assert Ends(p, y);
      var n: nat :| Up(p, y, n) == None;
      var t := SomeTop(p, held, picked, y, n);
      OnWalkTrans(p, x, y, t);
    }
  }

  /** No top is inside another exactly when every picked row inside another sees one above it. */
  lemma TopsAreApartExactly(p: Parents, held: set<Id>, picked: set<Id>)
    requires IsForest(p)
    ensures Apart(p, Tops(p, held, picked)) <==> SeesPicked(p, held, picked)
  {
    var tops := Tops(p, held, picked);
    if Apart(p, tops) {
      forall x, a | x in picked && a in picked && Above(p, x, a) ensures x in Inside(p, held, picked) {
        assert Ends(p, a);
        var n: nat :| Up(p, a, n) == None;
        var t := SomeTop(p, held, picked, a, n);
        if t != a { AboveAbove(p, x, a, t); }
      }
    }
  }

  /** Walks no longer than the cap, every folder of them held, are seen whole. */
  lemma WithinReach(p: Parents, held: set<Id>, picked: set<Id>)
    requires forall x | x in picked :: Up(p, x, CAP + 1) == None && forall a :: Above(p, x, a) ==> a in held
    ensures SeesPicked(p, held, picked)
  {
    forall x, a | x in picked && a in picked && Above(p, x, a) ensures x in Inside(p, held, picked) {
      ChainIsWhole(p, held, x, CAP, a);
    }
  }

  /** Anything is in one top's subtree at most. */
  lemma OneTopAtMost(p: Parents, held: set<Id>, picked: set<Id>, x: Id, t: Id, u: Id)
    requires IsForest(p) && SeesPicked(p, held, picked)
    requires t in Tops(p, held, picked) && u in Tops(p, held, picked) && OnWalk(p, x, t) && OnWalk(p, x, u)
    ensures t == u
  {
    TopsAreApartExactly(p, held, picked);
    OnOneWalk(p, x, t, u);
  }

  // -- Purging them -------------------------------------------------------------------------------------------------------------------

  lemma {:induction false} PurgedIs(p: Parents, there: set<Id>, tops: seq<Id>, ok: seq<bool>, x: Id)
    requires |tops| <= |ok|
    ensures x in Purged(p, there, tops, ok) <==> x in there && forall i | 0 <= i < |tops| && ok[i] :: !OnWalk(p, x, tops[i])
  {
    if tops != [] {
      var n := |tops| - 1;
      PurgedIs(p, there, tops[..n], ok, x);
      assert forall i | 0 <= i < n :: tops[..n][i] == tops[i];
    }
  }

  /** All agreed: what every picked row holds is gone, and nothing else. */
  lemma AllPickedGo(p: Parents, held: set<Id>, picked: set<Id>, there: set<Id>, tops: seq<Id>, ok: seq<bool>, x: Id)
    requires IsForest(p) && |tops| <= |ok| && (forall i | 0 <= i < |tops| :: ok[i]) && (set t | t in tops) == Tops(p, held, picked)
    ensures x in Purged(p, there, tops, ok) <==> x in there && forall y | y in picked :: !OnWalk(p, x, y)
  {
    PurgedIs(p, there, tops, ok, x);
    TopsCoverThePicked(p, held, picked, x);
    assert forall t :: t in Tops(p, held, picked) <==> t in tops;
    if t :| t in Tops(p, held, picked) && OnWalk(p, x, t) {
      var i :| 0 <= i < |tops| && tops[i] == t;
      assert ok[i];
    }
  }

  /** Nothing is asked for twice: each top is still there as it is asked for, whatever the server refused before. */
  lemma EachTopIsThereInItsTurn(p: Parents, held: set<Id>, picked: set<Id>, there: set<Id>, tops: seq<Id>, ok: seq<bool>, i: nat)
    requires IsForest(p) && SeesPicked(p, held, picked) && i < |tops| <= |ok|
    requires (set t | t in tops) == Tops(p, held, picked) && (forall a, b | 0 <= a < b < |tops| :: tops[a] != tops[b]) && tops[i] in there
    ensures tops[i] in Purged(p, there, tops[..i], ok)
  {
    PurgedIs(p, there, tops[..i], ok, tops[i]);
    assert Up(p, tops[i], 0) == Some(tops[i]);
    forall j | 0 <= j < i ensures !OnWalk(p, tops[i], tops[..i][j]) {
      if OnWalk(p, tops[i], tops[j]) {
        assert tops[i] in (set t | t in tops) && tops[j] in (set t | t in tops);
        OneTopAtMost(p, held, picked, tops[i], tops[i], tops[j]);
      }
    }
  }

  // -- The trash, as it is emptied -------------------------------------------------------------------------------------------------------

  /** The rows that stay on screen, in order, once some are gone. */
  function Staying(rows: seq<Id>, gone: set<Id>): (stay: seq<Id>)
    ensures forall x :: x in stay <==> x in rows && x !in gone
    ensures |stay| <= |rows|
  {
    if rows == [] then []
    else
      var before := Staying(rows[..|rows| - 1], gone);
      assert rows == rows[..|rows| - 1] + [rows[|rows| - 1]];
      if rows[|rows| - 1] in gone then before else before + [rows[|rows| - 1]]
  }

  lemma {:induction false} StayingAre(rows: seq<Id>, gone: set<Id>) returns (at: seq<nat>)
    ensures AtPlaces(rows, Staying(rows, gone), at)
    ensures forall i: nat :: i in at <==> i < |rows| && rows[i] !in gone
  {
    at := [];
    if rows != [] {
      var n := |rows| - 1;
      assert rows == rows[..n] + [rows[n]];
      at := StayingAre(rows[..n], gone);
      AnotherPlace(rows[..n], Staying(rows[..n], gone), at, rows[n]);
      if rows[n] !in gone { at := at + [n]; }
      hide AtPlaces;
    }
  }

  lemma {:induction false} OneLeaves(rows: seq<Id>, gone: set<Id>, x: Id)
    ensures Staying(Staying(rows, gone), {x}) == Staying(rows, gone + {x})
  {
    if rows != [] {
      var n := |rows| - 1;
      OneLeaves(rows[..n], gone, x);
      var before := Staying(rows[..n], gone);
      assert (before + [rows[n]])[..|before|] == before;
    }
  }

  lemma {:induction false} NoneLeaves(rows: seq<Id>)
    ensures Staying(rows, {}) == rows
  {
    if rows != [] { NoneLeaves(rows[..|rows| - 1]); }
  }

  /** Those of the first `n` tops the server agreed to. */
  function Agreed(tops: seq<Id>, ok: seq<bool>, n: nat): (gone: set<Id>)
    requires n <= |tops| && n <= |ok|
    ensures forall x :: x in gone <==> exists i :: 0 <= i < n && ok[i] && tops[i] == x
  {
    if n == 0 then {} else Agreed(tops, ok, n - 1) + if ok[n - 1] then {tops[n - 1]} else {}
  }

  lemma NoTopYet(p: Parents, there: set<Id>, rows: seq<Id>, held: set<Id>, tops: seq<Id>, ok: seq<bool>)
    requires |tops| <= |ok|
    ensures Purged(p, there, tops[..0], ok) == there && Staying(rows, Agreed(tops, ok, 0)) == rows
    ensures held - Agreed(tops, ok, 0) == held && Refusals(ok, 0) == 0
  {
    NoneLeaves(rows);
    hide Staying, PurgedOne;
  }

  /** What one more top's turn adds. */
  lemma OneTopMore(p: Parents, there: set<Id>, rows: seq<Id>, held: set<Id>, tops: seq<Id>, ok: seq<bool>, i: nat)
    requires i < |tops| && |tops| <= |ok|
    ensures Purged(p, there, tops[..i + 1], ok) == PurgedOne(p, Purged(p, there, tops[..i], ok), tops[i], ok[i])
    ensures Staying(rows, Agreed(tops, ok, i + 1)) ==
              if ok[i] then Staying(Staying(rows, Agreed(tops, ok, i)), {tops[i]}) else Staying(rows, Agreed(tops, ok, i))
    ensures held - Agreed(tops, ok, i + 1) == held - Agreed(tops, ok, i) - if ok[i] then {tops[i]} else {}
    ensures Refusals(ok, i + 1) == Refusals(ok, i) + if ok[i] then 0 else 1
  {
    assert tops[..i + 1][..i] == tops[..i];
    assert Agreed(tops, ok, i + 1) == if ok[i] then Agreed(tops, ok, i) + {tops[i]} else Agreed(tops, ok, i);
    hide Staying, PurgedOne;
    OneLeaves(rows, Agreed(tops, ok, i), tops[i]);
  }

  datatype Answer = Answer(purged: nat, remaining: nat)

  lemma NotHeldIsNotAbove(p: Parents, held: set<Id>, x: Id, top: Id)
    requires top !in held
    ensures top !in Chain(p, held, x, CAP)
  {
    if top in Chain(p, held, x, CAP) { ChainIsHeld(p, held, x, CAP, top); }
  }

  // -- The server's batches ---------------------------------------------------------------------------------------------------------

  /** What a run of batches came to: the last answer, whether a request failed, and what is left. */
  datatype Emptied = Emptied(last: Option<Answer>, failed: bool, left: nat)

  /** The rounds from `round` on: each removes as much as the server takes at once. */
  function Rounds(left: nat, limit: nat -> nat, answers: nat -> bool, round: nat, last: Option<Answer>): (end: Emptied)
    decreases left
  {
    if !answers(round) then Emptied(last, true, left)
    else
      var purged := Min(limit(round), left);
      var answer := Answer(purged, left - purged);
      if left - purged == 0 || purged == 0 then Emptied(Some(answer), false, left - purged)
      else Rounds(left - purged, limit, answers, round + 1, Some(answer))
  }

  /** What is left after some rounds, if all are asked for and answered. */
  function LeftAfter(left: nat, limit: nat -> nat, round: nat, rounds: nat): (still: nat) {
    if rounds == 0 then left
    else
      var before := LeftAfter(left, limit, round, rounds - 1);
      before - Min(limit(round + rounds - 1), before)
  }

  /** From `round` on, `k` rounds are answered and move something, and the next is answered and moves nothing with some left. */
  ghost predicate Stuck(left: nat, limit: nat -> nat, answers: nat -> bool, round: nat, k: nat) {
    && (forall j | round <= j <= round + k :: answers(j)) && (forall j | round <= j < round + k :: limit(j) > 0)
    && limit(round + k) == 0 && LeftAfter(left, limit, round, k) > 0
  }

  lemma {:induction false} LeftAfterFirst(left: nat, limit: nat -> nat, round: nat, rounds: nat)
    requires rounds > 0
    ensures LeftAfter(left, limit, round, rounds) == LeftAfter(left - Min(limit(round), left), limit, round + 1, rounds - 1)
    decreases rounds
  {
    if rounds > 1 {
      LeftAfterFirst(left, limit, round, rounds - 1);
    } else {
      assert LeftAfter(left, limit, round, 0) == left;
    }
  }

  /** Never failing with some left, exactly when the rounds come to one that moves nothing. */
  lemma {:induction false} StopsWithSomeLeft(left: nat, limit: nat -> nat, answers: nat -> bool, round: nat, last: Option<Answer>)
    ensures var end := Rounds(left, limit, answers, round, last);
            !end.failed && end.left > 0 <==> exists k: nat :: Stuck(left, limit, answers, round, k)
    decreases left
  {
    var purged := Min(limit(round), left);
    var rest, next := left - purged, round + 1;
    if answers(round) && purged == 0 && left > 0 {
      assert Stuck(left, limit, answers, round, 0);
    } else if answers(round) && rest > 0 {
      StopsWithSomeLeft(rest, limit, answers, next, Some(Answer(purged, rest)));
      assert !Stuck(left, limit, answers, round, 0);
      hide Stuck;
      if k: nat :| Stuck(rest, limit, answers, next, k) { OneRoundOn(left, limit, answers, round, k + 1); }
      if k: nat :| Stuck(left, limit, answers, round, k) { OneRoundOn(left, limit, answers, round, k); }
    } else if k: nat :| Stuck(left, limit, answers, round, k) {
      NoneStuck(left, limit, answers, round, k);
    }
  }

  lemma OneRoundOn(left: nat, limit: nat -> nat, answers: nat -> bool, round: nat, k: nat)
    requires k > 0 && answers(round) && limit(round) > 0
    ensures Stuck(left, limit, answers, round, k) <==> Stuck(left - Min(limit(round), left), limit, answers, round + 1, k - 1)
  {
    LeftAfterFirst(left, limit, round, k);
    hide LeftAfter;
  }

  lemma NoneStuck(left: nat, limit: nat -> nat, answers: nat -> bool, round: nat, k: nat)
    requires Stuck(left, limit, answers, round, k)
    ensures answers(round) && left > 0 && (limit(round) < left || k == 0)
  {
    if k > 0 { LeftAfterFirst(left, limit, round, k); StaysNone(limit, round + 1, k - 1); }
    if left == 0 { StaysNone(limit, round, k); }
  }

  lemma {:induction false} StaysNone(limit: nat -> nat, round: nat, k: nat)
    ensures LeftAfter(0, limit, round, k) == 0
  {
    if k > 0 { StaysNone(limit, round, k - 1); }
  }

  /** From `round` on, `n` rounds are asked for, answered, and move something. */
  ghost predicate Moving(limit: nat -> nat, answers: nat -> bool, round: nat, n: nat) {
    forall j | round <= j < round + n :: answers(j) && limit(j) > 0
  }

  /** They leave this much, and then none is left, or the next is not answered or moves nothing. */
  ghost predicate EndsAfter(left: nat, limit: nat -> nat, answers: nat -> bool, round: nat, n: nat, still: nat) {
    && Moving(limit, answers, round, n) && still == LeftAfter(left, limit, round, n)
    && (still == 0 || !answers(round + n) || limit(round + n) == 0)
  }

  /** The round after `n` that all moved something is answered, and leaves nothing. */
  ghost predicate EmptiesAt(left: nat, limit: nat -> nat, answers: nat -> bool, round: nat, n: nat) {
    Moving(limit, answers, round, n) && answers(round + n) && LeftAfter(left, limit, round, n + 1) == 0
  }

  /** What the rounds leave is what those that were answered and moved something leave. */
  lemma {:induction false} RoundsLeave(left: nat, limit: nat -> nat, answers: nat -> bool, round: nat, last: Option<Answer>) returns (n: nat)
    ensures EndsAfter(left, limit, answers, round, n, Rounds(left, limit, answers, round, last).left)
    decreases left
  {
    n := 0;
    var purged := Min(limit(round), left);
    if answers(round) && purged > 0 {
      if left - purged > 0 {
        var m := RoundsLeave(left - purged, limit, answers, round + 1, Some(Answer(purged, left - purged)));
        n := m + 1;
      } else {
        n := 1;
        assert LeftAfter(left, limit, round, 0) == left;
      }
      LeftAfterFirst(left, limit, round, n);
      hide LeftAfter;
    }
  }

  /** Nothing is left, and no request failed, exactly when some round leaves nothing, all before it answered and moving. */
  lemma {:induction false} EmptiesExactly(left: nat, limit: nat -> nat, answers: nat -> bool, round: nat, last: Option<Answer>)
    requires last.Some? ==> last.value.remaining == left && left > 0
    ensures var end := Rounds(left, limit, answers, round, last);
            && (!end.failed && end.left == 0 <==> exists n: nat :: EmptiesAt(left, limit, answers, round, n))
            && (end.last.Some? && end.last.value.remaining == 0 <==> !end.failed && end.left == 0)
    decreases left
  {
    var purged := Min(limit(round), left);
    var rest, next := left - purged, round + 1;
    LeftAfterFirst(left, limit, round, 1);
    assert LeftAfter(left, limit, round, 1) == rest;
    if answers(round) && rest == 0 {
      assert EmptiesAt(left, limit, answers, round, 0);
    } else if answers(round) && purged > 0 {
      EmptiesExactly(rest, limit, answers, next, Some(Answer(purged, rest)));
      assert !EmptiesAt(left, limit, answers, round, 0);
      hide EmptiesAt;
      if n: nat :| EmptiesAt(rest, limit, answers, next, n) { EmptyOneOn(left, limit, answers, round, n + 1); }
      if n: nat :| EmptiesAt(left, limit, answers, round, n) { EmptyOneOn(left, limit, answers, round, n); }
    } else if n: nat :| EmptiesAt(left, limit, answers, round, n) {
      NotAtAll(left, limit, answers, round, n);
    }
  }

  lemma EmptyOneOn(left: nat, limit: nat -> nat, answers: nat -> bool, round: nat, n: nat)
    requires n > 0 && answers(round) && limit(round) > 0
    ensures EmptiesAt(left, limit, answers, round, n) <==> EmptiesAt(left - Min(limit(round), left), limit, answers, round + 1, n - 1)
  {
    LeftAfterFirst(left, limit, round, n + 1);
    hide LeftAfter;
  }

  lemma NotAtAll(left: nat, limit: nat -> nat, answers: nat -> bool, round: nat, n: nat)
    requires EmptiesAt(left, limit, answers, round, n)
    ensures answers(round) && (limit(round) > 0 || (n == 0 && left == 0))
  {
    if n == 0 { LeftAfterFirst(left, limit, round, 1); }
  }

  /** How many of the first `n` were refused. */
  function Refusals(ok: seq<bool>, n: nat): (refused: nat)
    requires n <= |ok|
    ensures refused <= n && (refused == 0 <==> forall i | 0 <= i < n :: ok[i])
  {
    if n == 0 then 0 else Refusals(ok, n - 1) + if ok[n - 1] then 0 else 1
  }

  /** A server that always takes some leaves none, unless a request fails. */
  lemma MovingServersEmpty(left: nat, limit: nat -> nat, answers: nat -> bool)
    requires forall round: nat :: limit(round) > 0
    ensures !Rounds(left, limit, answers, 0, None).failed ==> Rounds(left, limit, answers, 0, None).left == 0
  {
    StopsWithSomeLeft(left, limit, answers, 0, None);
  }

  /** Three are left and the first batch moves nothing: no request failed, and the three are still there. */
  lemma NothingMovedSomeLeft()
    ensures Rounds(3, _ => 0, _ => true, 0, None) == Emptied(Some(Answer(0, 3)), false, 3)
  {
  }

  /** A server that always answers and always takes some leaves nothing. */
  lemma {:induction false} NeverFails(left: nat, limit: nat -> nat, answers: nat -> bool, round: nat, last: Option<Answer>)
    requires forall j: nat :: answers(j) && limit(j) > 0
    ensures !Rounds(left, limit, answers, round, last).failed && Rounds(left, limit, answers, round, last).left == 0
    decreases left
  {
    var purged := Min(limit(round), left);
    if left - purged > 0 { NeverFails(left - purged, limit, answers, round + 1, Some(Answer(purged, left - purged))); }
  }

  class Trash {
    // As this phone knows it: who sits where, what it holds, the rows on screen.
    var parents: Parents
    var held: set<Id>
    var rows: seq<Id>
    // What the server still has, and how many items of it the batches would find.
    ghost var there: set<Id>
    var left: nat

    method HasAbove(x: Id, picked: set<Id>) returns (found: bool)
      ensures found <==> exists a :: a in Chain(parents, held, x, CAP) && a in picked
    {
      var chain := Ancestors(parents, held, x);
      found := false;
      for i := 0 to |chain|
        invariant found <==> exists j :: 0 <= j < i && chain[j] in picked
      {
        found := found || chain[i] in picked;
      }
    }

    /** The entries with no picked row above them, in the order they were picked. */
    method TopsOf(entries: seq<Id>) returns (tops: seq<Id>)
      ensures var picked := set x | x in entries;
              (set t | t in tops) == Tops(parents, held, picked) && tops == Staying(entries, Inside(parents, held, picked))
    {
      var picked := set x | x in entries;
      tops := [];
      for i := 0 to |entries|
        invariant tops == Staying(entries[..i], Inside(parents, held, picked))
      {
        var inside := HasAbove(entries[i], picked);
        assert entries[..i + 1][..i] == entries[..i];
        if !inside { tops := tops + [entries[i]]; }
      }
      assert entries[..|entries|] == entries;
    }

    /** The server purges a row with all that is inside it; the phone then holds the row no more. */
    method Purge(top: Id, ok: bool)
      modifies `there, `held
      ensures there == PurgedOne(parents, old(there), top, ok)
      ensures held == if ok then old(held) - {top} else old(held)
    {
      there := PurgedOne(parents, there, top, ok);
      if ok { held := held - {top}; }
    }

    /** Deletes the picked rows for ever; the tops that went leave the list. */
    method PurgeMany(entries: seq<Id>, ok: seq<bool>) returns (tops: seq<Id>, failed: nat)
      requires |entries| <= |ok|
      modifies `there, `held, `rows
      ensures tops == Staying(entries, Inside(parents, old(held), set x | x in entries))
      ensures (set t | t in tops) == Tops(parents, old(held), set x | x in entries)
      ensures there == Purged(parents, old(there), tops, ok) && held == old(held) - Agreed(tops, ok, |tops|)
      ensures failed == Refusals(ok, |tops|) && rows == Staying(old(rows), Agreed(tops, ok, |tops|))
    {
      hide Staying, Purged, PurgedOne, Agreed, Refusals, Inside, Tops;
      tops := TopsOf(entries);
      failed := 0;
      NoTopYet(parents, there, rows, held, tops, ok);
      for i := 0 to |tops|
        invariant there == Purged(parents, old(there), tops[..i], ok)
        invariant failed == Refusals(ok, i) && held == old(held) - Agreed(tops, ok, i)
        invariant rows == Staying(old(rows), Agreed(tops, ok, i))
      {
        OneTopMore(parents, old(there), old(rows), old(held), tops, ok, i);
        Purge(tops[i], ok[i]);
        if ok[i] { Leave(tops[i]); } else { failed := failed + 1; }
      }
      assert tops[..|tops|] == tops;
    }

    method Leave(x: Id)
      modifies `rows
      ensures rows == Staying(old(rows), {x})
    {
      var kept := [];
      for i := 0 to |rows|
        invariant rows == old(rows) && kept == Staying(rows[..i], {x})
      {
        assert rows[..i + 1][..i] == rows[..i];
        if rows[i] != x { kept := kept + [rows[i]]; }
      }
      assert rows[..|rows|] == rows;
      rows := kept;
    }

    /**
     What a purged top takes off the screen with it: the rows inside it, each found by its ancestors. By then the phone
     holds the top no more, so no row finds it above and the top alone leaves.
     */
    method Gone(top: Id, inside: set<Id>) returns (gone: set<Id>)
      requires top !in held
      ensures gone == {top}
    {
      gone := {top};
      for i := 0 to |rows|
        invariant gone == {top}
      {
        var row := rows[i];
        if row in inside {
          var chain := Ancestors(parents, held, row);
          NotHeldIsNotAbove(parents, held, row, top);
          if top in chain { gone := gone + {row}; }
        }
      }
    }

    /** The server's batches, until nothing is left, nothing moves or one fails: each round that goes on leaves less. */
    method Batches(limit: nat -> nat, answers: nat -> bool) returns (last: Option<Answer>, failed: bool)
      modifies `left
      ensures Emptied(last, failed, left) == Rounds(old(left), limit, answers, 0, None)
      ensures left <= old(left) && (last.Some? ==> last.value.remaining == left)
      ensures !failed ==> last.Some? && (left == 0 || last.value.purged == 0)
      ensures last.None? ==> failed && left == old(left)
    {
      last, failed := None, false;
      var round := 0;
      while true
        invariant Rounds(left, limit, answers, round, last) == Rounds(old(left), limit, answers, 0, None)
        invariant left <= old(left) && (last.Some? ==> last.value.remaining == left) && (last.None? ==> left == old(left))
        decreases left
      {
        if !answers(round) { return last, true; }
        var purged := Min(limit(round), left);
        left := left - purged;
        last := Some(Answer(purged, left));
        if left == 0 || purged == 0 { return; }
        round := round + 1;
      }
    }

    /** The tops one by one, each with what it takes off the screen; offline, no further than the first that failed. */
    method PurgeTops(tops: seq<Id>, inside: set<Id>, ok: seq<bool>, offline: bool) returns (tried: nat, failed: nat)
      requires |tops| <= |ok|
      modifies `there, `held, `rows
      ensures tried <= |tops| && there == Purged(parents, old(there), tops[..tried], ok) && held == old(held) - Agreed(tops, ok, tried)
      ensures rows == Staying(old(rows), Agreed(tops, ok, tried)) && failed == Refusals(ok, tried)
      ensures offline ==> forall i | 0 <= i < tried - 1 :: ok[i]
      ensures tried < |tops| ==> offline && tried > 0 && !ok[tried - 1]
    {
      hide Staying, Purged, PurgedOne, Agreed, Refusals;
      tried, failed := 0, 0;
      NoTopYet(parents, there, rows, held, tops, ok);
      while tried < |tops|
        invariant tried <= |tops| && there == Purged(parents, old(there), tops[..tried], ok)
        invariant failed == Refusals(ok, tried) && (offline ==> failed == 0)
        invariant held == old(held) - Agreed(tops, ok, tried) && rows == Staying(old(rows), Agreed(tops, ok, tried))
      {
        OneTopMore(parents, old(there), old(rows), old(held), tops, ok, tried);
        var top, agreed := tops[tried], ok[tried];
        Purge(top, agreed);
        tried := tried + 1;
        if agreed {
          var gone := Gone(top, inside);
          assert top in gone;
          Leave(top);
        } else {
          failed := failed + 1;
          if offline { break; }
        }
      }
    }

    /** The batches, and whether the last answer says that nothing is left. */
    method EmptyRest(limit: nat -> nat, answers: nat -> bool) returns (emptied: bool)
      modifies `left
      ensures emptied <==> exists n: nat :: EmptiesAt(old(left), limit, answers, 0, n)
      ensures (emptied ==> left == 0) && exists n: nat :: EndsAfter(old(left), limit, answers, 0, n, left)
      ensures (forall j: nat :: answers(j) && limit(j) > 0) ==> emptied
    {
      hide Rounds, EmptiesAt, EndsAfter;
      EmptiesExactly(left, limit, answers, 0, None);
      ghost var n := RoundsLeave(left, limit, answers, 0, None);
      if forall j: nat :: answers(j) && limit(j) > 0 { NeverFails(left, limit, answers, 0, None); }
      var last, _ := Batches(limit, answers);
      emptied := last.Some? && last.value.remaining == 0;
    }

    /**
     Empties the trash: the tops of the rows on screen, then the server's batches. Only the tops that went leave the
     list, unless the server says nothing is left.
     */
    method EmptyTrash(ok: seq<bool>, offline: bool, limit: nat -> nat, answers: nat -> bool) returns (tops: seq<Id>, tried: nat, emptied: bool)
      requires |rows| <= |ok|
      modifies `there, `held, `rows, `left
      ensures tops == Staying(old(rows), Inside(parents, old(held), set x | x in old(rows)))
      ensures (set t | t in tops) == Tops(parents, old(held), set x | x in old(rows))
      ensures tried <= |tops| && there == Purged(parents, old(there), tops[..tried], ok) && held == old(held) - Agreed(tops, ok, tried)
      ensures offline ==> forall i | 0 <= i < tried - 1 :: ok[i]
      ensures tried < |tops| ==> offline && tried > 0 && !ok[tried - 1]
      ensures emptied <==> (forall i | 0 <= i < |tops| :: ok[i]) && exists n: nat :: EmptiesAt(old(left), limit, answers, 0, n)
      ensures emptied ==> left == 0 && rows == [] && tried == |tops|
      ensures !emptied ==> rows == Staying(old(rows), Agreed(tops, ok, tried))
      ensures if forall i | 0 <= i < |tops| :: ok[i] then exists n: nat :: EndsAfter(old(left), limit, answers, 0, n, left) else left == old(left)
      ensures (forall i | 0 <= i < |tops| :: ok[i]) && (forall j: nat :: answers(j) && limit(j) > 0) ==> emptied && left == 0
    {
      hide EmptiesAt, EndsAfter, Agreed, Purged, Staying, Inside;
      tops := TopsOf(rows);
      var inside := (set x | x in rows) - (set t | t in tops);
      var failed;
      tried, failed := PurgeTops(tops, inside, ok, offline);
      emptied := false;
      if failed == 0 {
        emptied := EmptyRest(limit, answers);
        if emptied { rows := []; }
      }
    }

    /** Every earlier version, in batches. It says they are gone as soon as no request failed: with some left exactly when `Stuck`. */
    method DiscardEarlierVersions(limit: nat -> nat, answers: nat -> bool) returns (said: bool, last: Option<Answer>)
      modifies `left
      ensures said ==> last.Some? && last.value.remaining == left && (left == 0 || last.value.purged == 0)
      ensures left <= old(left)
      ensures said && left > 0 <==> exists k: nat :: Stuck(old(left), limit, answers, 0, k)
      ensures said && left == 0 <==> exists n: nat :: EmptiesAt(old(left), limit, answers, 0, n)
      ensures exists n: nat :: EndsAfter(old(left), limit, answers, 0, n, left)
    {
      var failed;
      StopsWithSomeLeft(left, limit, answers, 0, None);
      EmptiesExactly(left, limit, answers, 0, None);
      ghost var n := RoundsLeave(left, limit, answers, 0, None);
      last, failed := Batches(limit, answers);
      said := !failed;
    }
  }
}
