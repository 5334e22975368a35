/** Folders by parent, and the walks up them: nearest folder first, ending at one without a parent. */
module Forest {
  import opened Common

  type Id = nat
  type Parents = map<Id, Id>

  /** As far up as any walk is followed. */
  const CAP: nat := 256

  /** How deep the server lets folders be nested. */
  const SERVERS_DEPTH: nat := 64

  /** The folder `n` steps above `x`. */
  function Up(p: Parents, x: Id, n: nat): (folder: Option<Id>)
    decreases n
  {
    if n == 0 then Some(x) else if x in p then Up(p, p[x], n - 1) else None
  }

  /** `a` is `x` or a folder above it. */
  ghost predicate OnWalk(p: Parents, x: Id, a: Id) {
    exists n: nat :: Up(p, x, n) == Some(a)
  }

  /** `a` is a folder above `x`. */
  ghost predicate Above(p: Parents, x: Id, a: Id) {
    x in p && OnWalk(p, p[x], a)
  }

  ghost predicate Ends(p: Parents, x: Id) {
    exists n: nat :: Up(p, x, n) == None
  }

  /** No folder is inside itself: every walk up ends. */
  ghost predicate IsForest(p: Parents) {
    forall x: Id :: Ends(p, x)
  }

  /** Some items now sit in folder `f`. */
  function Rehung(p: Parents, items: set<Id>, f: Id): (after: Parents) {
    p + map x | x in items :: f
  }

  /** `q` is `p`, except that some of `items` sit in `f`. */
  ghost predicate Mixed(p: Parents, q: Parents, items: set<Id>, f: Id) {
    forall x: Id :: (x in items && x in q && q[x] == f) || ((x in q <==> x in p) && (x in p ==> q[x] == p[x]))
  }

  /** None of `items` is `f` or above it. */
  ghost predicate Clear(p: Parents, items: set<Id>, f: Id) {
    forall x :: x in items ==> !OnWalk(p, f, x)
  }

  lemma {:induction false} UpFrom(p: Parents, x: Id, m: nat, n: nat)
    requires Up(p, x, m).Some?
    ensures Up(p, x, m + n) == Up(p, Up(p, x, m).value, n)
    decreases m
  {
    if m > 0 { UpFrom(p, p[x], m - 1, n); }
  }

  lemma {:induction false} UpStops(p: Parents, x: Id, m: nat, n: nat)
    requires Up(p, x, m) == None && m <= n
    ensures Up(p, x, n) == None
    decreases m
  {
    if x in p && m > 0 { UpStops(p, p[x], m - 1, n - 1); }
  }

  lemma AboveBy(p: Parents, x: Id, n: nat, a: Id)
    requires n > 0 && Up(p, x, n) == Some(a)
    ensures Above(p, x, a)
  {
    assert Up(p, p[x], n - 1) == Some(a);
  }

  lemma AboveAt(p: Parents, x: Id, a: Id) returns (n: nat)
    requires Above(p, x, a)
    ensures n > 0 && Up(p, x, n) == Some(a)
  {
    var m: nat :| Up(p, p[x], m) == Some(a);
    n := m + 1;
  }

  lemma OnWalkFromParent(p: Parents, x: Id, a: Id)
    requires x in p && OnWalk(p, p[x], a)
    ensures OnWalk(p, x, a)
  {
    var m: nat :| Up(p, p[x], m) == Some(a);
    assert Up(p, x, m + 1) == Some(a);
  }

  lemma AboveAbove(p: Parents, x: Id, y: Id, z: Id)
    requires Above(p, x, y) && Above(p, y, z)
    ensures Above(p, x, z)
  {
    var m := AboveAt(p, x, y);
    var n := AboveAt(p, y, z);
    UpFrom(p, x, m, n);
    AboveBy(p, x, m + n, z);
  }

  /** Going round, a walk is longer than any number. */
  lemma {:induction false} RoundAndRound(p: Parents, x: Id, n: nat, k: nat)
    requires n > 0 && Up(p, x, n) == Some(x)
    ensures Up(p, x, k * n) == Some(x)
  {
    if k > 0 {
      RoundAndRound(p, x, n, k - 1);
      UpFrom(p, x, (k - 1) * n, n);
      assert (k - 1) * n + n == k * n;
    }
  }

  lemma NoneAboveItself(p: Parents, x: Id)
    requires IsForest(p)
    ensures !Above(p, x, x)
  {
    if Above(p, x, x) {
      var n := AboveAt(p, x, x);
      assert Ends(p, x);
      var m: nat :| Up(p, x, m) == None;
      RoundAndRound(p, x, n, m);
      assert m <= m * n;
      UpStops(p, x, m, m * n);
    }
  }

  /** The folders a walk has passed. */
  ghost function Passed(p: Parents, x: Id, n: nat): (passed: set<Id>)
    decreases n
  {
    if n == 0 then {} else {x} + if x in p then Passed(p, p[x], n - 1) else {}
  }

  lemma {:induction false} PassedIs(p: Parents, x: Id, n: nat, a: Id)
    requires a in Passed(p, x, n)
    ensures OnWalk(p, x, a)
    decreases n
  {
    if a == x {
      assert Up(p, x, 0) == Some(a);
    } else {
      PassedIs(p, p[x], n - 1, a);
      var m: nat :| Up(p, p[x], m) == Some(a);
      assert Up(p, x, m + 1) == Some(a);
    }
  }

  lemma {:induction false} PassedAll(p: Parents, x: Id, n: nat)
    requires Up(p, x, n).Some? && forall a :: !Above(p, a, a)
    ensures Passed(p, x, n) <= p.Keys && |Passed(p, x, n)| == n
    decreases n
  {
    if n > 0 {
      PassedAll(p, p[x], n - 1);
      assert !Above(p, x, x);
      if x in Passed(p, p[x], n - 1) { PassedIs(p, p[x], n - 1, x); }
    }
  }

  /** A forest is exactly a set of folders none of which is above itself. */
  lemma ForestIffNoneAboveItself(p: Parents)
    ensures IsForest(p) <==> forall x :: !Above(p, x, x)
  {
    if IsForest(p) {
      forall x ensures !Above(p, x, x) { NoneAboveItself(p, x); }
    }
    if forall x :: !Above(p, x, x) {
      forall x: Id ensures Ends(p, x) {
        var n := |p.Keys| + 1;
        if Up(p, x, n).Some? {
          PassedAll(p, x, n);
          SubsetSize(Passed(p, x, n), p.Keys);
        }
      }
    }
  }

  /** Three hundred folders, each in the one before it: deeper than any walk is followed. */
  const LINE: Parents := map x: Id | 1 <= x <= 300 :: x - 1

  lemma {:induction false} UpTheLine(x: Id, n: nat)
    requires n <= x <= 300
    ensures Up(LINE, x, n) == Some(x - n)
  {
    if n > 0 { UpTheLine(x - 1, n - 1); }
  }

  lemma TheLineIsAForest()
    ensures IsForest(LINE)
  {
    forall x: Id ensures Ends(LINE, x) {
      if x <= 300 {
        UpTheLine(x, x);
        UpFrom(LINE, x, x, 1);
        assert Up(LINE, 0, 1) == None;
        assert Up(LINE, x, x + 1) == None;
      } else {
        assert Up(LINE, x, 1) == None;
      }
    }
  }

  // -- Moving -----------------------------------------------------------------------------------------------------------------

  lemma {:induction false} SameWalk(p: Parents, q: Parents, items: set<Id>, f: Id, x: Id, n: nat)
    requires Mixed(p, q, items, f) && Clear(p, items, x)
    ensures Up(q, x, n) == Up(p, x, n)
    decreases n
  {
    assert Up(p, x, 0) == Some(x);
    if n > 0 && x in p {
      forall a | a in items ensures !OnWalk(p, p[x], a) {
        if OnWalk(p, p[x], a) { OnWalkFromParent(p, x, a); }
      }
      SameWalk(p, q, items, f, p[x], n - 1);
    }
  }

  lemma EndsFromParent(p: Parents, x: Id)
    requires x in p ==> Ends(p, p[x])
    ensures Ends(p, x)
  {
    if x in p {
      var n: nat :| Up(p, p[x], n) == None;
      assert Up(p, x, n + 1) == None;
    } else {
      assert Up(p, x, 1) == None;
    }
  }

  lemma {:induction false} MixedEnds(p: Parents, q: Parents, items: set<Id>, f: Id, x: Id, n: nat)
    requires Mixed(p, q, items, f) && Clear(p, items, f) && Ends(p, f) && Up(p, x, n) == None
    ensures Ends(q, x)
    decreases n
  {
    if x in q {
      if x in items && q[x] == f {
        var m: nat :| Up(p, f, m) == None;
        SameWalk(p, q, items, f, f, m);
        assert Ends(q, f);
      } else {
        MixedEnds(p, q, items, f, p[x], n - 1);
      }
    }
    EndsFromParent(q, x);
  }

  /** However many of the items sit in `f` at the moment, the rest where they were: it is a forest. */
  lemma MixedForest(p: Parents, q: Parents, items: set<Id>, f: Id)
    requires IsForest(p) && Mixed(p, q, items, f) && Clear(p, items, f)
    ensures IsForest(q)
  {
    forall x: Id ensures Ends(q, x) {
      assert Ends(p, x) && Ends(p, f);
      var n: nat :| Up(p, x, n) == None;
      MixedEnds(p, q, items, f, x, n);
    }
  }

  lemma {:induction false} WalkComesRound(p: Parents, items: set<Id>, f: Id, x: Id, n: nat)
    requires Up(p, x, n).Some? && Up(p, x, n).value in items
    ensures exists m: nat :: m > 0 && Up(Rehung(p, items, f), x, m) == Some(f)
    decreases n
  {
    var q := Rehung(p, items, f);
    if x in items {
      assert Up(q, x, 1) == Up(q, f, 0) == Some(f);
    } else {
      WalkComesRound(p, items, f, p[x], n - 1);
      var m: nat :| m > 0 && Up(q, p[x], m) == Some(f);
      assert Up(q, x, m + 1) == Some(f);
    }
  }

  /** Items moved into a folder leave a forest exactly when none of them is that folder or above it. */
  lemma MovedForest(p: Parents, items: set<Id>, f: Id)
    requires IsForest(p)
    ensures IsForest(Rehung(p, items, f)) <==> Clear(p, items, f)
  {
    var q := Rehung(p, items, f);
    if Clear(p, items, f) {
      MixedForest(p, q, items, f);
    } else {
      var a :| a in items && OnWalk(p, f, a);
      var n: nat :| Up(p, f, n) == Some(a);
      WalkComesRound(p, items, f, f, n);
      var m: nat :| m > 0 && Up(q, f, m) == Some(f);
      AboveBy(q, f, m, f);
      if IsForest(q) { NoneAboveItself(q, f); }
    }
  }

  // -- Chains -------------------------------------------------------------------------------------------------------------------

  /** The folders above `x`, nearest first, as far as this phone holds them. */
  function Chain(p: Parents, held: set<Id>, x: Id, cap: nat): (chain: seq<Id>)
    ensures |chain| <= cap
    decreases cap
  {
    if cap == 0 || x !in p || p[x] !in held then [] else [p[x]] + Chain(p, held, p[x], cap - 1)
  }

  lemma {:induction false} ChainIsAbove(p: Parents, held: set<Id>, x: Id, cap: nat, a: Id)
    requires a in Chain(p, held, x, cap)
    ensures Above(p, x, a)
    decreases cap
  {
    if a == p[x] {
      assert Up(p, p[x], 0) == Some(a);
    } else {
      ChainIsAbove(p, held, p[x], cap - 1, a);
      assert Up(p, x, 1) == Some(p[x]);
      AboveBy(p, x, 1, p[x]);
      AboveAbove(p, x, p[x], a);
    }
  }

  lemma {:induction false} ChainStops(p: Parents, held: set<Id>, x: Id, m: nat, n: nat)
    requires |Chain(p, held, x, m)| < m
    ensures |Chain(p, held, x, n)| <= |Chain(p, held, x, m)|
    decreases n
  {
    if n > 0 && x in p && p[x] in held { ChainStops(p, held, p[x], m - 1, n - 1); }
  }

  /** A folder on a chain that was not cut has a shorter chain of its own. */
  lemma {:induction false} HigherIsShorter(p: Parents, held: set<Id>, x: Id, m: nat, n: nat, a: Id)
    requires a in Chain(p, held, x, m) && |Chain(p, held, x, m)| < m
    ensures |Chain(p, held, a, n)| < |Chain(p, held, x, m)|
    decreases m
  {
    if a == p[x] { ChainStops(p, held, a, m - 1, n); } else { HigherIsShorter(p, held, p[x], m - 1, n, a); }
  }

  /** A walk as short as the cap, every folder of it held, is seen whole. */
  lemma {:induction false} ChainIsWhole(p: Parents, held: set<Id>, x: Id, cap: nat, a: Id)
    requires Up(p, x, cap + 1) == None && Above(p, x, a) && forall b :: Above(p, x, b) ==> b in held
    ensures a in Chain(p, held, x, cap)
    decreases cap
  {
    assert Up(p, x, 1) == Some(p[x]);
    AboveBy(p, x, 1, p[x]);
    assert cap > 0;
    var n := AboveAt(p, x, a);
    if n > 1 {
      AboveBy(p, p[x], n - 1, a);
      forall b | Above(p, p[x], b) ensures b in held { AboveAbove(p, x, p[x], b); }
      ChainIsWhole(p, held, p[x], cap - 1, a);
    }
  }

  lemma {:induction false} ChainIsHeld(p: Parents, held: set<Id>, x: Id, cap: nat, a: Id)
    requires a in Chain(p, held, x, cap)
    ensures a in held
    decreases cap
  {
    if a != p[x] { ChainIsHeld(p, held, p[x], cap - 1, a); }
  }

  /** A chain follows the walk up, step by step, and stops at the cap, at a top folder, or below the first folder not held. */
  lemma {:induction false} ChainExactly(p: Parents, held: set<Id>, x: Id, cap: nat)
    ensures var chain := Chain(p, held, x, cap);
            && (forall k | 0 <= k < |chain| :: Up(p, x, k + 1) == Some(chain[k]) && chain[k] in held)
            && (|chain| < cap ==> var next := Up(p, x, |chain| + 1); next.Some? ==> next.value !in held)
    decreases cap
  {
    var chain := Chain(p, held, x, cap);
    if chain != [] {
      ChainExactly(p, held, p[x], cap - 1);
      assert Up(p, x, |chain| + 1) == Up(p, p[x], |chain|);
      forall k | 0 <= k < |chain| ensures Up(p, x, k + 1) == Some(chain[k]) && chain[k] in held {
        assert Up(p, x, k + 1) == Up(p, p[x], k);
        if k > 0 { assert chain[k] == Chain(p, held, p[x], cap - 1)[k - 1]; }
      }
    } else if x in p {
      assert Up(p, x, 1) == Some(p[x]);
    }
  }

  /** The folders above `x`, walked up one by one. */
  method Ancestors(p: Parents, held: set<Id>, x: Id) returns (chain: seq<Id>)
    ensures chain == Chain(p, held, x, CAP)
  {
    chain := [];
    var cursor := x;
    while |chain| < CAP && cursor in p && p[cursor] in held
      invariant |chain| <= CAP
      invariant Chain(p, held, x, CAP) == chain + Chain(p, held, cursor, CAP - |chain|)
      decreases CAP - |chain|
    {
      ghost var rest := Chain(p, held, p[cursor], CAP - |chain| - 1);
      assert Chain(p, held, cursor, CAP - |chain|) == [p[cursor]] + rest;
      assert chain + ([p[cursor]] + rest) == (chain + [p[cursor]]) + rest;
      cursor := p[cursor];
      chain := chain + [cursor];
      hide Chain;
    }
  }
}
