/**
 Restoring several rows of the trash, shallowest first: a row goes home only when every trashed folder above it came
 back before it in the same batch, else to the top folder.
 */
module Restores {
  import opened Common
  import opened Forest

  /** Where each item sits, and what is in the trash itself (not only inside something that is). */
  datatype Files = Files(parents: Parents, trashed: set<Id>)

  /** `Unanswered`: the server restored it, its answer was lost, and it counts as failed. */
  datatype Outcome = Done | Refused | Unanswered

  function TrashedAbove(known: Files, held: set<Id>, x: Id): (above: set<Id>) {
    set a | a in Chain(known.parents, held, x, CAP) && a in known.trashed
  }

  function Depth(known: Files, held: set<Id>, x: Id): (depth: nat) {
    |Chain(known.parents, held, x, CAP)|
  }

  /** What came back so far, as far as the answers tell. */
  function Back(rows: seq<Id>, outcomes: seq<Outcome>): (back: set<Id>)
    requires |rows| <= |outcomes|
  {
    set i | 0 <= i < |rows| && outcomes[i] == Done :: rows[i]
  }

  function Rows(rows: seq<Id>): (those: set<Id>) {
    set x | x in rows
  }

  /** What came back, answered or not. */
  function Applied(rows: seq<Id>, outcomes: seq<Outcome>): (applied: set<Id>)
    requires |rows| <= |outcomes|
  {
    set i | 0 <= i < |rows| && outcomes[i] != Refused :: rows[i]
  }

  predicate GoesHome(known: Files, held: set<Id>, rows: seq<Id>, outcomes: seq<Outcome>, i: nat)
    requires i < |rows| <= |outcomes|
  {
    TrashedAbove(known, held, rows[i]) <= Back(rows[..i], outcomes)
  }

  function Restored(d: Files, x: Id, home: bool, root: Id, outcome: Outcome): (after: Files) {
    if outcome == Refused then d else Files(if home then d.parents else d.parents[x := root], d.trashed - {x})
  }

  /** The batch, in the order of `rows`, each row decided by what the phone knew as it began. */
  function Run(known: Files, held: set<Id>, root: Id, rows: seq<Id>, outcomes: seq<Outcome>): (after: Files)
    requires |rows| <= |outcomes|
  {
    if rows == [] then known
    else
      var n := |rows| - 1;
      Restored(Run(known, held, root, rows[..n], outcomes), rows[n], GoesHome(known, held, rows, outcomes, n), root, outcomes[n])
  }

  /** Live, and under nothing that is in the trash. */
  ghost predicate IsLive(d: Files, x: Id) {
    x !in d.trashed && forall a :: Above(d.parents, x, a) ==> a !in d.trashed
  }

  /** The phone sees every trashed folder above `x`. */
  ghost predicate SeesTrash(known: Files, held: set<Id>, x: Id) {
    forall a :: Above(known.parents, x, a) && a in known.trashed ==> a in TrashedAbove(known, held, x)
  }

  ghost predicate Shallowest(known: Files, held: set<Id>, rows: seq<Id>) {
    forall i, j :: 0 <= i < j < |rows| ==> Depth(known, held, rows[i]) <= Depth(known, held, rows[j])
  }

  /** Less deep than the cap, and every folder above held: the phone sees all the trash above. */
  lemma SeesAll(known: Files, held: set<Id>, x: Id)
    requires Up(known.parents, x, CAP + 1) == None && forall a :: Above(known.parents, x, a) ==> a in held
    ensures SeesTrash(known, held, x)
  {
    forall a | Above(known.parents, x, a) && a in known.trashed ensures a in TrashedAbove(known, held, x) {
      ChainIsWhole(known.parents, held, x, CAP, a);
    }
  }

  // -- Nothing is restored under the trash --------------------------------------------------------------------------------------

  /** Some items rehung under a folder without a parent: what is above one now was before, or is that folder. */
  lemma {:induction false} AboveBeforeOrRoot(p: Parents, q: Parents, items: set<Id>, root: Id, x: Id, n: nat, a: Id)
    requires Mixed(p, q, items, root) && root !in q && n > 0 && Up(q, x, n) == Some(a)
    ensures a == root || Above(p, x, a)
    decreases n
  {
    if x in items && q[x] == root {
      assert Up(q, root, n - 1) == Some(a);
    } else {
      assert Up(p, x, 1) == Some(p[x]);
      AboveBy(p, x, 1, p[x]);
      if n > 1 {
        AboveBeforeOrRoot(p, q, items, root, p[x], n - 1, a);
        if a != root { AboveAbove(p, x, p[x], a); }
      }
    }
  }

  lemma AboveBefore(p: Parents, q: Parents, items: set<Id>, root: Id, x: Id, a: Id)
    requires Mixed(p, q, items, root) && root !in q && Above(q, x, a)
    ensures a == root || Above(p, x, a)
  {
    var n := AboveAt(q, x, a);
    AboveBeforeOrRoot(p, q, items, root, x, n, a);
  }

  /** What the rows done so far leave of the drive. */
  ghost predicate SoFar(known: Files, root: Id, rows: seq<Id>, outcomes: seq<Outcome>, d: Files)
    requires |rows| <= |outcomes|
  {
    && Mixed(known.parents, d.parents, Rows(rows), root) && root !in d.parents && root !in d.trashed
    && d.trashed == known.trashed - Applied(rows, outcomes)
  }

  ghost predicate Begins(known: Files, root: Id, rows: seq<Id>) {
    root !in known.parents && root !in known.trashed && forall x | x in rows :: x in known.trashed
  }

  lemma AppliedOneMore(rows: seq<Id>, outcomes: seq<Outcome>)
    requires 0 < |rows| <= |outcomes|
    ensures var n := |rows| - 1;
            && Rows(rows) == Rows(rows[..n]) + {rows[n]}
            && Applied(rows, outcomes) == Applied(rows[..n], outcomes) + (if outcomes[n] != Refused then {rows[n]} else {})
            && Back(rows, outcomes) == Back(rows[..n], outcomes) + (if outcomes[n] == Done then {rows[n]} else {})
  {
    var n := |rows| - 1;
    assert rows == rows[..n] + [rows[n]];
    forall i | 0 <= i < n ensures rows[..n][i] == rows[i] {}
  }

  lemma {:induction false} RunSoFar(known: Files, held: set<Id>, root: Id, rows: seq<Id>, outcomes: seq<Outcome>)
    requires |rows| <= |outcomes| && Begins(known, root, rows)
    ensures SoFar(known, root, rows, outcomes, Run(known, held, root, rows, outcomes))
  {
    if rows != [] {
      var n := |rows| - 1;
      RunSoFar(known, held, root, rows[..n], outcomes);
      var before := Run(known, held, root, rows[..n], outcomes);
      var after := Run(known, held, root, rows, outcomes);
      AppliedOneMore(rows, outcomes);
      hide GoesHome, Applied;
    }
  }

  /** One restore leaves every live row live, and its own row too. */
  lemma RestoredIsLive(known: Files, held: set<Id>, root: Id, d: Files, x: Id, home: bool, outcome: Outcome, items: set<Id>, y: Id)
    requires Mixed(known.parents, d.parents, items, root) && root !in d.parents && root !in d.trashed && root != x && d.trashed <= known.trashed
    requires home ==> SeesTrash(known, held, x) && TrashedAbove(known, held, x) !! d.trashed
    requires IsLive(d, y) || (y == x && outcome != Refused)
    ensures IsLive(Restored(d, x, home, root, outcome), y)
  {
    var r := Restored(d, x, home, root, outcome);
    hide TrashedAbove;
    forall a | Above(r.parents, y, a) ensures a !in r.trashed {
      if !home && outcome != Refused {
        assert Mixed(d.parents, r.parents, {x}, root);
        if y == x {
          assert r.parents[x] == root;
          OnlyTheTop(r.parents, root, a);
        } else {
          AboveBefore(d.parents, r.parents, {x}, root, y, a);
        }
      } else if !IsLive(d, y) {
        AboveBefore(known.parents, d.parents, items, root, y, a);
      }
    }
  }

  lemma BackIsNotTrashed(known: Files, root: Id, rows: seq<Id>, outcomes: seq<Outcome>, d: Files)
    requires |rows| <= |outcomes| && SoFar(known, root, rows, outcomes, d)
    ensures Back(rows, outcomes) !! d.trashed
  {
  }

  /**
   Whichever of the batch's restores fail, in whatever order they are done: a row that was restored is not in the
   trash, and no folder above it is, if the phone saw the trashed folders above each row it restores.
   */
  lemma {:induction false} RestoredRowsAreLive(known: Files, held: set<Id>, root: Id, rows: seq<Id>, outcomes: seq<Outcome>, i: nat)
    requires i < |rows| <= |outcomes| && Begins(known, root, rows) && outcomes[i] != Refused
    requires forall x | x in rows :: SeesTrash(known, held, x)
    ensures IsLive(Run(known, held, root, rows, outcomes), rows[i])
    decreases |rows|
  {
    var n := |rows| - 1;
    var d := Run(known, held, root, rows[..n], outcomes);
    RunSoFar(known, held, root, rows[..n], outcomes);
    BackIsNotTrashed(known, root, rows[..n], outcomes, d);
    if i < n { RestoredRowsAreLive(known, held, root, rows[..n], outcomes, i); }
    hide IsLive, TrashedAbove, Back, SeesTrash, Restored, Chain;
    RestoredIsLive(known, held, root, d, rows[n], GoesHome(known, held, rows, outcomes, n), outcomes[n], Rows(rows[..n]), rows[i]);
  }

  lemma OnlyTheTop(p: Parents, root: Id, a: Id)
    requires root !in p && OnWalk(p, root, a)
    ensures a == root
  {
    var n: nat :| Up(p, root, n) == Some(a);
  }

  /** No batch puts a folder inside itself, and only restored rows move. */
  lemma BatchKeepsAForest(known: Files, held: set<Id>, root: Id, rows: seq<Id>, outcomes: seq<Outcome>)
    requires |rows| <= |outcomes| && Begins(known, root, rows) && IsForest(known.parents)
    ensures IsForest(Run(known, held, root, rows, outcomes).parents)
  {
    RunSoFar(known, held, root, rows, outcomes);
    var items := Rows(rows);
    forall a | a in items ensures !OnWalk(known.parents, root, a) {
      if OnWalk(known.parents, root, a) { OnlyTheTop(known.parents, root, a); }
    }
    MixedForest(known.parents, Run(known, held, root, rows, outcomes).parents, items, root);
  }

  /** A row restored alone ends live exactly when the phone sees a trashed folder above it, or there is none. */
  lemma AloneIsLiveExactly(known: Files, held: set<Id>, root: Id, x: Id)
    requires Begins(known, root, [x]) && IsForest(known.parents)
    ensures IsLive(Run(known, held, root, [x], [Done]), x) <==>
              TrashedAbove(known, held, x) != {} || forall a :: Above(known.parents, x, a) ==> a !in known.trashed
  {
    var r := Run(known, held, root, [x], [Done]);
    assert Run(known, held, root, [], [Done]) == known;
    assert Back([], [Done]) == {};
    assert r == Restored(known, x, TrashedAbove(known, held, x) <= {}, root, Done);
    if TrashedAbove(known, held, x) != {} {
      hide TrashedAbove;
      RestoredIsLive(known, held, root, known, x, false, Done, {}, x);
    } else {
      NoneAboveItself(known.parents, x);
      assert r.parents == known.parents && r.trashed == known.trashed - {x};
    }
  }

  // -- When a row of a batch ends live -------------------------------------------------------------------------------------------

  predicate GoesUp(known: Files, held: set<Id>, rows: seq<Id>, outcomes: seq<Outcome>, i: nat)
    requires i < |rows| <= |outcomes|
  {
    outcomes[i] != Refused && !GoesHome(known, held, rows, outcomes, i)
  }

  /** The rows that came back, answered or not, to the top folder. */
  function Topped(known: Files, held: set<Id>, rows: seq<Id>, outcomes: seq<Outcome>): (topped: set<Id>)
    requires |rows| <= |outcomes|
  {
    set i | 0 <= i < |rows| && GoesUp(known, held, rows, outcomes, i) :: rows[i]
  }

  /** `a` is above `x`, and neither `x` nor a folder on the way to `a` is one of `topped`. */
  ghost predicate Reaches(p: Parents, topped: set<Id>, x: Id, a: Id) {
    exists n: nat :: n > 0 && ReachesBy(p, topped, x, a, n)
  }

  ghost predicate ReachesBy(p: Parents, topped: set<Id>, x: Id, a: Id, n: nat)
    decreases n
  {
    if n == 0 then x == a else x in p && x !in topped && ReachesBy(p, topped, p[x], a, n - 1)
  }

  lemma UpAsBefore(known: Files, held: set<Id>, rows: seq<Id>, outcomes: seq<Outcome>, n: nat, i: nat)
    requires i < n <= |rows| <= |outcomes|
    ensures GoesUp(known, held, rows[..n], outcomes, i) <==> GoesUp(known, held, rows, outcomes, i)
  {
    hide TrashedAbove, Back;
    assert rows[..n][..i] == rows[..i];
  }

  lemma ToppedOneMore(known: Files, held: set<Id>, rows: seq<Id>, outcomes: seq<Outcome>)
    requires 0 < |rows| <= |outcomes|
    ensures var n := |rows| - 1;
            Topped(known, held, rows, outcomes) == Topped(known, held, rows[..n], outcomes) + if GoesUp(known, held, rows, outcomes, n) then {rows[n]} else {}
  {
    var n := |rows| - 1;
    forall i: nat | i < n ensures rows[..n][i] == rows[i] && (GoesUp(known, held, rows[..n], outcomes, i) <==> GoesUp(known, held, rows, outcomes, i)) {
      UpAsBefore(known, held, rows, outcomes, n, i);
    }
    hide GoesUp;
  }

  /** What a batch leaves, all of it. */
  lemma {:induction false} RunIs(known: Files, held: set<Id>, root: Id, rows: seq<Id>, outcomes: seq<Outcome>)
    requires |rows| <= |outcomes|
    ensures Run(known, held, root, rows, outcomes) ==
              Files(Rehung(known.parents, Topped(known, held, rows, outcomes), root), known.trashed - Applied(rows, outcomes))
  {
    if rows == [] {
      assert Topped(known, held, rows, outcomes) == {} && Applied(rows, outcomes) == {};
      assert Rehung(known.parents, {}, root) == known.parents;
    } else {
      hide GoesHome, Applied, Topped, Restored, Rehung;
      var n := |rows| - 1;
      RunIs(known, held, root, rows[..n], outcomes);
      AppliedOneMore(rows, outcomes);
      ToppedOneMore(known, held, rows, outcomes);
      RestoredIs(known, root, Topped(known, held, rows[..n], outcomes), Applied(rows[..n], outcomes),
                 rows[n], GoesHome(known, held, rows, outcomes, n), outcomes[n]);
    }
  }

  lemma RestoredIs(known: Files, root: Id, topped: set<Id>, applied: set<Id>, x: Id, home: bool, outcome: Outcome)
    ensures Restored(Files(Rehung(known.parents, topped, root), known.trashed - applied), x, home, root, outcome) ==
              Files(Rehung(known.parents, topped + (if outcome != Refused && !home then {x} else {}), root),
                    known.trashed - (applied + if outcome != Refused then {x} else {}))
  {
    assert Rehung(known.parents, topped + {}, root) == Rehung(known.parents, topped, root);
    assert Rehung(known.parents, topped + {x}, root) == Rehung(known.parents, topped, root)[x := root];
    assert known.trashed - (applied + {x}) == known.trashed - applied - {x} && applied + {} == applied;
    hide Rehung;
  }

  lemma {:induction false} AboveReaches(p: Parents, topped: set<Id>, root: Id, x: Id, n: nat, a: Id)
    requires root !in p && root !in topped && a != root
    ensures Up(Rehung(p, topped, root), x, n) == Some(a) <==> ReachesBy(p, topped, x, a, n)
    decreases n
  {
    var q := Rehung(p, topped, root);
    if n > 0 {
      if x in topped {
        assert q[x] == root && Up(q, x, n) == Up(q, root, n - 1) && root !in q;
      } else if x in p {
        assert q[x] == p[x];
        AboveReaches(p, topped, root, p[x], n - 1, a);
      }
    }
  }

  /**
   A row of a batch that came back ends live exactly when no folder that stays in the trash is above it with none of the
   rows that went to the top, itself included, on the way.
   */
  lemma BatchRowIsLiveExactly(known: Files, held: set<Id>, root: Id, rows: seq<Id>, outcomes: seq<Outcome>, i: nat)
    requires i < |rows| <= |outcomes| && Begins(known, root, rows) && outcomes[i] != Refused
    ensures IsLive(Run(known, held, root, rows, outcomes), rows[i]) <==>
              forall a | a in known.trashed && a !in Applied(rows, outcomes) :: !Reaches(known.parents, Topped(known, held, rows, outcomes), rows[i], a)
  {
    RunIs(known, held, root, rows, outcomes);
    var topped, x := Topped(known, held, rows, outcomes), rows[i];
    var q := Rehung(known.parents, topped, root);
    assert x in Applied(rows, outcomes) && root !in topped;
    forall a | a != root ensures Above(q, x, a) <==> Reaches(known.parents, topped, x, a) {
      if Above(q, x, a) {
        var n := AboveAt(q, x, a);
        AboveReaches(known.parents, topped, root, x, n, a);
      }
      if Reaches(known.parents, topped, x, a) {
        var n: nat :| n > 0 && ReachesBy(known.parents, topped, x, a, n);
        AboveReaches(known.parents, topped, root, x, n, a);
        AboveBy(q, x, n, a);
      }
    }
    hide Above, Reaches, Topped, Applied, Run, Rehung;
  }

  // -- Witnesses -------------------------------------------------------------------------------------------------------------------

  /** A row in a trashed folder the phone does not hold goes home, alone, and ends under the trash. */
  lemma AnUnheldFolderHidesTheTrash()
    ensures var known := Files(map[1 := 0, 2 := 1], {1, 2});
            Begins(known, 0, [2]) && !IsLive(Run(known, {0, 2}, 0, [2], [Done]), 2)
  {
    var known, held := Files(map[1 := 0, 2 := 1], {1, 2}), {0, 2};
    forall x: Id ensures Ends(known.parents, x) {
      assert Up(known.parents, 0, 1) == None && Up(known.parents, 1, 2) == None && Up(known.parents, 2, 3) == None;
      assert x > 2 ==> Up(known.parents, x, 1) == None;
    }
    assert Chain(known.parents, held, 2, CAP) == [];
    assert TrashedAbove(known, held, 2) == {};
    assert Up(known.parents, 2, 1) == Some(1);
    AboveBy(known.parents, 2, 1, 1);
    hide IsLive, IsForest, TrashedAbove, Above;
    AloneIsLiveExactly(known, held, 0, 2);
  }

  /** As deep as the server lets folders be: what is held is all that decides. */
  lemma SeesAllWithinTheServersDepth(known: Files, held: set<Id>, x: Id)
    requires Up(known.parents, x, SERVERS_DEPTH + 1) == None && forall a :: Above(known.parents, x, a) ==> a in held
    ensures SeesTrash(known, held, x)
  {
    UpStops(known.parents, x, SERVERS_DEPTH + 1, CAP + 1);
    SeesAll(known, held, x);
  }

  /** The last of three hundred folders in the trash, and the first: restored alone, it goes home and ends under the trash. */
  lemma ADeepRestoreEndsUnderTheTrash()
    ensures var known := Files(LINE, {1, 300});
            && Begins(known, 0, [300]) && IsForest(LINE)
            && !IsLive(Run(known, LINE.Keys + {0}, 0, [300], [Done]), 300)
  {
    var known, held := Files(LINE, {1, 300}), LINE.Keys + {0};
    TheLineIsAForest();
    UpTheLine(300, 299);
    AboveBy(LINE, 300, 299, 1);
    assert Above(known.parents, 300, 1) && 1 in known.trashed;
    forall a | a in TrashedAbove(known, held, 300) ensures false {
      ChainGoesNear(held, 300, CAP, a);
    }
    assert TrashedAbove(known, held, 300) == {};
    hide IsLive, IsForest, TrashedAbove, Above;
    AloneIsLiveExactly(known, held, 0, 300);
  }

  /** What a chain up the line reaches is within its cap. */
  lemma {:induction false} ChainGoesNear(held: set<Id>, x: Id, cap: nat, a: Id)
    requires cap <= x <= 300 && a in Chain(LINE, held, x, cap)
    ensures x - cap <= a < x
    decreases cap
  {
    if a != LINE[x] { ChainGoesNear(held, x - 1, cap - 1, a); }
  }

  /** On the line of three hundred folders a chain is of the nearest 256. */
  lemma TheNearestAreOnAChain(a: Id)
    requires a < 300
    ensures a in Chain(LINE, LINE.Keys + {0}, 300, CAP) <==> 300 - a <= 256
  {
    var held := LINE.Keys + {0};
    if a in Chain(LINE, held, 300, CAP) { ChainGoesNear(held, 300, CAP, a); }
    if 300 - a <= 256 { ChainComesTo(held, 300, CAP, a); }
  }

  lemma {:induction false} ChainComesTo(held: set<Id>, x: Id, cap: nat, a: Id)
    requires held == LINE.Keys + {0} && a < x <= 300 && x - a <= cap
    ensures a in Chain(LINE, held, x, cap)
    decreases cap
  {
    assert LINE[x] == x - 1;
    if a < x - 1 { ChainComesTo(held, x - 1, cap - 1, a); }
  }

  // -- Shallowest first ------------------------------------------------------------------------------------------------------------

  /** Shallowest first, a row less deep than the cap goes home exactly when each trashed folder seen above it comes back in this batch. */
  lemma GoesHomeExactly(known: Files, held: set<Id>, rows: seq<Id>, outcomes: seq<Outcome>, i: nat)
    requires i < |rows| <= |outcomes| && Shallowest(known, held, rows) && Depth(known, held, rows[i]) < CAP
    ensures GoesHome(known, held, rows, outcomes, i) <==>
              TrashedAbove(known, held, rows[i]) <= Back(rows, outcomes)
  {
    forall a | a in TrashedAbove(known, held, rows[i]) ensures a in Back(rows[..i], outcomes) <==> a in Back(rows, outcomes) {
      HigherIsShorter(known.parents, held, rows[i], CAP, CAP, a);
      hide Chain, TrashedAbove;
      assert forall j | 0 <= j < |rows| && rows[j] == a :: j < i;
      assert forall j | 0 <= j < i :: rows[..i][j] == rows[j];
    }
    hide TrashedAbove, Back, Depth, Shallowest;
  }

  /** What was trashed together comes back together, each row in its own folder. */
  lemma {:induction false} TreesComeBackWhole(known: Files, held: set<Id>, root: Id, rows: seq<Id>, outcomes: seq<Outcome>, n: nat)
    requires n <= |rows| <= |outcomes| && Shallowest(known, held, rows) && forall i | 0 <= i < |rows| :: outcomes[i] == Done
    requires forall x | x in rows :: Depth(known, held, x) < CAP && TrashedAbove(known, held, x) <= Rows(rows)
    ensures Run(known, held, root, rows[..n], outcomes).parents == known.parents
  {
    if n > 0 {
      TreesComeBackWhole(known, held, root, rows, outcomes, n - 1);
      assert rows[..n][..n - 1] == rows[..n - 1];
      GoesHomeExactly(known, held, rows, outcomes, n - 1);
      assert Rows(rows) <= Back(rows, outcomes);
    }
  }

  // -- The batch, as it runs ---------------------------------------------------------------------------------------------------------

  /** The rows that failed, in order. */
  function Failed(rows: seq<Id>, outcomes: seq<Outcome>): (failed: seq<Id>)
    requires |rows| <= |outcomes|
  {
    if rows == [] then []
    else
      var n := |rows| - 1;
      var before := Failed(rows[..n], outcomes);
      if outcomes[n] == Done then before else before + [rows[n]]
  }

  /** The rows that came back, but to the top folder, in order. */
  function MovedToTop(known: Files, held: set<Id>, rows: seq<Id>, outcomes: seq<Outcome>): (topped: seq<Id>)
    requires |rows| <= |outcomes|
  {
    if rows == [] then []
    else
      var n := |rows| - 1;
      var before := MovedToTop(known, held, rows[..n], outcomes);
      if outcomes[n] == Done && !GoesHome(known, held, rows, outcomes, n) then before + [rows[n]] else before
  }

  /** Every row either failed or came back: as many are told of as were picked. */
  lemma {:induction false} NoneIsUntold(rows: seq<Id>, outcomes: seq<Outcome>)
    requires |rows| <= |outcomes|
    ensures Rows(Failed(rows, outcomes)) + Back(rows, outcomes) == Rows(rows) && |Failed(rows, outcomes)| <= |rows|
  {
    if rows != [] {
      var n := |rows| - 1;
      NoneIsUntold(rows[..n], outcomes);
      AppliedOneMore(rows, outcomes);
      var before := Failed(rows[..n], outcomes);
      assert Rows(before + [rows[n]]) == Rows(before) + {rows[n]};
    }
  }

  /** Told as failed are, in order, exactly the rows that were refused or not answered. */
  lemma {:induction false} FailedAre(rows: seq<Id>, outcomes: seq<Outcome>) returns (at: seq<nat>)
    requires |rows| <= |outcomes|
    ensures AtPlaces(rows, Failed(rows, outcomes), at)
    ensures forall i: nat :: i in at <==> i < |rows| && outcomes[i] != Done
  {
    at := [];
    if rows != [] {
      var n := |rows| - 1;
      assert rows == rows[..n] + [rows[n]];
      at := FailedAre(rows[..n], outcomes);
      AnotherPlace(rows[..n], Failed(rows[..n], outcomes), at, rows[n]);
      if outcomes[n] != Done { at := at + [n]; }
      hide AtPlaces;
    }
  }

  /** Told as moved to the top folder are, in order, exactly the rows that came back without all of the trash seen above them. */
  lemma {:induction false} ToppedAre(known: Files, held: set<Id>, rows: seq<Id>, outcomes: seq<Outcome>) returns (at: seq<nat>)
    requires |rows| <= |outcomes|
    ensures AtPlaces(rows, MovedToTop(known, held, rows, outcomes), at)
    ensures forall i: nat :: i in at <==> i < |rows| && outcomes[i] == Done && exists a :: a in TrashedAbove(known, held, rows[i]) && a !in Back(rows[..i], outcomes)
  {
    at := [];
    hide TrashedAbove, Back;
    if rows != [] {
      var n := |rows| - 1;
      assert rows == rows[..n] + [rows[n]];
      at := ToppedAre(known, held, rows[..n], outcomes);
      AnotherPlace(rows[..n], MovedToTop(known, held, rows[..n], outcomes), at, rows[n]);
      assert forall i: nat | i < n :: rows[..n][..i] == rows[..i];
      if outcomes[n] == Done && !GoesHome(known, held, rows, outcomes, n) { at := at + [n]; }
      hide AtPlaces;
    }
  }

  /** What one more row adds. */
  lemma OneMoreRow(known: Files, held: set<Id>, root: Id, rows: seq<Id>, outcomes: seq<Outcome>, i: nat, home: bool)
    requires i < |rows| <= |outcomes| && (home <==> TrashedAbove(known, held, rows[i]) <= Back(rows[..i], outcomes))
    ensures var o := outcomes[i];
            && Run(known, held, root, rows[..i + 1], outcomes) == Restored(Run(known, held, root, rows[..i], outcomes), rows[i], home, root, o)
            && Back(rows[..i + 1], outcomes) == Back(rows[..i], outcomes) + (if o == Done then {rows[i]} else {})
            && Failed(rows[..i + 1], outcomes) == (if o == Done then Failed(rows[..i], outcomes) else Failed(rows[..i], outcomes) + [rows[i]])
            && MovedToTop(known, held, rows[..i + 1], outcomes) ==
                 (if o == Done && !home then MovedToTop(known, held, rows[..i], outcomes) + [rows[i]] else MovedToTop(known, held, rows[..i], outcomes))
  {
    hide TrashedAbove, Restored, Back;
    var next := rows[..i + 1];
    assert next[..i] == rows[..i] && next[i] == rows[i];
    AppliedOneMore(next, outcomes);
  }

  /** A row put between the less deep and the deeper ones. */
  lemma PlacedIsSorted(known: Files, held: set<Id>, sorted: seq<Id>, k: nat, x: Id)
    requires k <= |sorted| && Shallowest(known, held, sorted)
    requires forall j | k <= j < |sorted| :: Depth(known, held, sorted[j]) > Depth(known, held, x)
    requires k > 0 ==> Depth(known, held, sorted[k - 1]) <= Depth(known, held, x)
    ensures Shallowest(known, held, sorted[..k] + [x] + sorted[k..])
  {
    hide Depth;
    var r := sorted[..k] + [x] + sorted[k..];
    forall i, j | 0 <= i < j < |r| ensures Depth(known, held, r[i]) <= Depth(known, held, r[j]) {
      var a := if i < k then i else i - 1;
      var b := if j < k then j else j - 1;
      if i < k && j == k {
        assert Depth(known, held, sorted[i]) <= Depth(known, held, sorted[k - 1]);
      } else if i == k {
        assert r[j] == sorted[b];
      } else {
        assert r[i] == sorted[a] && r[j] == sorted[b];
      }
    }
  }

  class Drive {
    // As the server has it, and as this phone last saw it.
    var files: Files
    var known: Files
    var held: set<Id>
    var rows: set<Id>

    /** A row takes its place among sorted ones. */
    method Placed(sorted: seq<Id>, x: Id) returns (r: seq<Id>)
      requires Shallowest(known, held, sorted)
      ensures multiset(r) == multiset(sorted) + multiset{x} && Shallowest(known, held, r)
    {
      hide Depth, Shallowest;
      var k := |sorted|;
      while k > 0 && Depth(known, held, sorted[k - 1]) > Depth(known, held, x)
        invariant 0 <= k <= |sorted|
        invariant forall j | k <= j < |sorted| :: Depth(known, held, sorted[j]) > Depth(known, held, x)
      {
        k := k - 1;
      }
      assert sorted == sorted[..k] + sorted[k..];
      PlacedIsSorted(known, held, sorted, k, x);
      r := sorted[..k] + [x] + sorted[k..];
    }

    /** Sorted by how deep they are. */
    method Sorted(entries: seq<Id>) returns (sorted: seq<Id>)
      ensures multiset(sorted) == multiset(entries) && Shallowest(known, held, sorted)
    {
      sorted := [];
      for i := 0 to |entries|
        invariant multiset(sorted) == multiset(entries[..i]) && Shallowest(known, held, sorted)
      {
        sorted := Placed(sorted, entries[i]);
        assert entries[..i + 1] == entries[..i] + [entries[i]];
        hide Shallowest;
      }
      assert entries[..|entries|] == entries;
    }

    /** Whether every trashed folder above a row is back. */
    method IsHome(x: Id, back: set<Id>) returns (home: bool)
      ensures home <==> TrashedAbove(known, held, x) <= back
    {
      var above := Ancestors(known.parents, held, x);
      home := true;
      for i := 0 to |above|
        invariant home <==> forall j | 0 <= j < i && above[j] in known.trashed :: above[j] in back
      {
        home := home && (above[i] in known.trashed ==> above[i] in back);
      }
    }

    /** Restores the rows one by one, as the server answers each; a row that came back leaves the list. */
    method RestoreMany(entries: seq<Id>, root: Id, outcomes: seq<Outcome>) returns (sorted: seq<Id>, failed: seq<Id>, moved: seq<Id>)
      requires |entries| == |outcomes| && files == known
      modifies `files, `rows
      ensures multiset(sorted) == multiset(entries) && |sorted| == |entries| && Shallowest(known, held, sorted)
      ensures files == Run(known, held, root, sorted, outcomes) && rows == old(rows) - Back(sorted, outcomes)
      ensures failed == Failed(sorted, outcomes) && moved == MovedToTop(known, held, sorted, outcomes)
    {
      sorted := Sorted(entries);
      assert |sorted| == |multiset(sorted)| == |entries|;
      var back := {};
      failed, moved := [], [];
      assert Back([], outcomes) == {};
      for i := 0 to |sorted|
        invariant back == Back(sorted[..i], outcomes) && rows == old(rows) - back
        invariant files == Run(known, held, root, sorted[..i], outcomes)
        invariant failed == Failed(sorted[..i], outcomes) && moved == MovedToTop(known, held, sorted[..i], outcomes)
      {
        var x := sorted[i];
        var home := IsHome(x, back);
        OneMoreRow(known, held, root, sorted, outcomes, i, home);
        hide Run, Back, Failed, MovedToTop, TrashedAbove, Restored, Shallowest;
        files := Restored(files, x, home, root, outcomes[i]);
        if outcomes[i] == Done {
          back := back + {x};
          rows := rows - {x};
          if !home { moved := moved + [x]; }
        } else {
          failed := failed + [x];
        }
      }
      assert sorted[..|sorted|] == sorted;
    }
  }
}
