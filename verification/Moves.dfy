/**
 Moving several items into a folder, one after another, and taking it back. A move the server refuses changes nothing;
 the rest go on.
 */
module Moves {
  import opened Common
  import opened Forest

  /** An item as it was picked: where it was then. */
  datatype Item = Item(id: Id, parentId: Option<Id>, isFolder: bool)

  datatype Problem = NothingToPaste | IntoItself | AlreadyHere

  function Parent(p: Parents, x: Id): (parent: Option<Id>) {
    if x in p then Some(p[x]) else None
  }

  /** The items were picked as they are. */
  ghost predicate Fresh(p: Parents, items: seq<Item>) {
    forall item | item in items :: item.parentId == Parent(p, item.id)
  }

  /** Items already in the folder stay out of it; the others are moved as the server agrees. */
  function Moved(items: seq<Item>, f: Id, ok: seq<bool>): (moved: seq<Item>)
    requires |items| <= |ok|
  {
    if items == [] then []
    else
      var n := |items| - 1;
      var before := Moved(items[..n], f, ok);
      if items[n].parentId != Some(f) && ok[n] then before + [items[n]] else before
  }

  function MoveAll(p: Parents, items: seq<Item>, f: Id, ok: seq<bool>): (after: Parents)
    requires |items| <= |ok|
  {
    if items == [] then p
    else
      var n := |items| - 1;
      var q := MoveAll(p, items[..n], f, ok);
      if items[n].parentId != Some(f) && ok[n] then q[items[n].id := f] else q
  }

  /** Each moved item goes back where it was picked, if it was in a folder then. */
  function UndoAll(p: Parents, moved: seq<Item>, ok: seq<bool>): (after: Parents)
    requires |moved| <= |ok|
  {
    if moved == [] then p
    else
      var n := |moved| - 1;
      var q := UndoAll(p, moved[..n], ok);
      if moved[n].parentId.Some? && ok[n] then q[moved[n].id := moved[n].parentId.value] else q
  }

  function Ids(items: seq<Item>): (ids: set<Id>) {
    set item | item in items :: item.id
  }

  /** What the check sees of the folder's walk: as many steps as it takes. */
  ghost predicate Seen(p: Parents, f: Id, a: Id) {
    exists n: nat :: n < CAP && Up(p, f, n) == Some(a)
  }

  /** On the folder's walk, above where the check stops or where the listings show another walk. */
  ghost predicate BeyondSight(p: Parents, listed: Parents, f: Id, a: Id) {
    exists n: nat :: Up(p, f, n) == Some(a) && (CAP <= n || Up(listed, f, n) != Some(a))
  }

  /** The listings show the folder's own walk as it is. */
  ghost predicate ListedRight(p: Parents, listed: Parents, f: Id) {
    forall a :: OnWalk(p, f, a) ==> Parent(listed, a) == Parent(p, a)
  }

  ghost predicate PasteAllowed(p: Parents, items: seq<Item>, f: Id) {
    && (forall item | item in items && item.isFolder :: !Seen(p, f, item.id))
    && (exists item | item in items :: item.parentId != Some(f))
  }

  // -- What the moves come to -------------------------------------------------------------------------------------------------

  lemma RehungOneMore(p: Parents, items: set<Id>, x: Id, f: Id)
    ensures Rehung(p, items, f)[x := f] == Rehung(p, items + {x}, f)
  {
  }

  lemma IdsOneMore(items: seq<Item>, item: Item)
    ensures Ids(items + [item]) == Ids(items) + {item.id}
  {
  }

  lemma {:induction false} MovesAre(p: Parents, items: seq<Item>, f: Id, ok: seq<bool>)
    requires |items| <= |ok|
    ensures MoveAll(p, items, f, ok) == Rehung(p, Ids(Moved(items, f, ok)), f)
  {
    if items == [] {
      assert Rehung(p, Ids([]), f) == p;
    } else {
      var n := |items| - 1;
      MovesAre(p, items[..n], f, ok);
      var before := Moved(items[..n], f, ok);
      IdsOneMore(before, items[n]);
      RehungOneMore(p, Ids(before), items[n].id, f);
      hide Rehung, Ids;
    }
  }

  lemma {:induction false} MovedAreOfThem(items: seq<Item>, f: Id, ok: seq<bool>)
    requires |items| <= |ok|
    ensures forall item | item in Moved(items, f, ok) :: item in items
  {
    if items != [] { MovedAreOfThem(items[..|items| - 1], f, ok); }
  }

  /** The moved are, in order, exactly the items that were not in the folder and whose move the server agreed to. */
  lemma {:induction false} MovedAre(items: seq<Item>, f: Id, ok: seq<bool>) returns (at: seq<nat>)
    requires |items| <= |ok|
    ensures AtPlaces(items, Moved(items, f, ok), at)
    ensures forall i: nat :: i in at <==> i < |items| && ok[i] && (items[i].parentId.None? || items[i].parentId.value != f)
  {
    at := [];
    if items != [] {
      var n := |items| - 1;
      assert items == items[..n] + [items[n]];
      at := MovedAre(items[..n], f, ok);
      AnotherPlace(items[..n], Moved(items[..n], f, ok), at, items[n]);
      if ok[n] && items[n].parentId != Some(f) { at := at + [n]; }
      hide AtPlaces;
    }
  }

  /** What one more undone move does to one item. */
  lemma {:induction false} UndoneAt(p: Parents, moved: seq<Item>, ok: seq<bool>, x: Id)
    requires |moved| <= |ok|
    requires forall a, b | a in moved && b in moved && a.id == b.id :: a.parentId == b.parentId
    ensures (forall i | 0 <= i < |moved| && moved[i].id == x && ok[i] :: moved[i].parentId.None?) ==> Parent(UndoAll(p, moved, ok), x) == Parent(p, x)
    ensures forall i | 0 <= i < |moved| && moved[i].id == x && ok[i] && moved[i].parentId.Some? :: Parent(UndoAll(p, moved, ok), x) == moved[i].parentId
  {
    if moved != [] {
      var n := |moved| - 1;
      UndoneAt(p, moved[..n], ok, x);
      assert forall i | 0 <= i < n :: moved[..n][i] == moved[i];
    }
  }

  // -- The promises ---------------------------------------------------------------------------------------------------------------

  /** Whatever the server refuses, moves of several items leave a forest exactly when no moved item is the folder or above it. */
  lemma MovesKeepAForest(p: Parents, items: seq<Item>, f: Id, ok: seq<bool>)
    requires |items| <= |ok| && IsForest(p)
    ensures IsForest(MoveAll(p, items, f, ok)) <==> Clear(p, Ids(Moved(items, f, ok)), f)
  {
    MovesAre(p, items, f, ok);
    MovedForest(p, Ids(Moved(items, f, ok)), f);
  }

  lemma FilesAreOnNoWalk(p: Parents, f: Id, a: Id)
    requires a != f && a !in p.Values
    ensures !OnWalk(p, f, a)
  {
    if OnWalk(p, f, a) {
      var n: nat :| Up(p, f, n) == Some(a);
      if Up(p, f, n - 1) == None { UpStops(p, f, n - 1, n); }
      UpFrom(p, f, n - 1, 1);
    }
  }

  lemma SeenOrBeyond(p: Parents, listed: Parents, f: Id, a: Id)
    requires !Seen(listed, f, a)
    ensures OnWalk(p, f, a) <==> BeyondSight(p, listed, f, a)
  {
    if OnWalk(p, f, a) {
      var n: nat :| Up(p, f, n) == Some(a);
      assert n < CAP ==> Up(listed, f, n) != Some(a);
    }
  }

  /**
   Whatever the listings tell, an allowed paste keeps the drive a forest exactly when no pasted folder is above where
   the check stops, or on a part of the walk the listings do not show.
   */
  lemma AllowedPasteKeepsAForest(p: Parents, listed: Parents, items: seq<Item>, f: Id, ok: seq<bool>)
    requires |items| <= |ok| && IsForest(p) && PasteAllowed(listed, items, f)
    requires forall item | item in items && !item.isFolder :: item.id != f && item.id !in p.Values
    ensures IsForest(MoveAll(p, items, f, ok)) <==> forall item | item in Moved(items, f, ok) :: !BeyondSight(p, listed, f, item.id)
  {
    MovesKeepAForest(p, items, f, ok);
    MovesAre(p, items, f, ok);
    MovedAreOfThem(items, f, ok);
    forall item | item in Moved(items, f, ok) ensures OnWalk(p, f, item.id) <==> BeyondSight(p, listed, f, item.id) {
      if item.isFolder {
        SeenOrBeyond(p, listed, f, item.id);
      } else {
        FilesAreOnNoWalk(p, f, item.id);
        assert BeyondSight(p, listed, f, item.id) ==> OnWalk(p, f, item.id);
      }
    }
    hide OnWalk, BeyondSight, Seen, IsForest;
    assert Clear(p, Ids(Moved(items, f, ok)), f) <==> forall item | item in Moved(items, f, ok) :: !OnWalk(p, f, item.id);
  }

  lemma {:induction false} ListedWalk(p: Parents, listed: Parents, f: Id, n: nat)
    requires ListedRight(p, listed, f)
    ensures Up(listed, f, n) == Up(p, f, n)
    decreases n
  {
    if n > 0 {
      assert Up(p, f, 0) == Some(f) && OnWalk(p, f, f);
      assert Parent(listed, f) == Parent(p, f);
      if f in p {
        forall a | OnWalk(p, p[f], a) ensures Parent(listed, a) == Parent(p, a) { OnWalkFromParent(p, f, a); }
        ListedWalk(p, listed, p[f], n - 1);
      }
    }
  }

  /**
   A folder less deep than the check looks, its walk listed as it is: pasting there keeps the forest, whatever the
   listings tell of the rest and whatever the server refuses.
   */
  lemma PasteWithinReach(p: Parents, listed: Parents, items: seq<Item>, f: Id, ok: seq<bool>)
    requires |items| <= |ok| && IsForest(p) && PasteAllowed(listed, items, f) && Up(p, f, CAP) == None && ListedRight(p, listed, f)
    requires forall item | item in items && !item.isFolder :: item.id != f && item.id !in p.Values
    ensures IsForest(MoveAll(p, items, f, ok))
  {
    forall item | item in Moved(items, f, ok) ensures !BeyondSight(p, listed, f, item.id) {
      if BeyondSight(p, listed, f, item.id) {
        var n: nat :| Up(p, f, n) == Some(item.id) && (CAP <= n || Up(listed, f, n) != Some(item.id));
        if CAP <= n { UpStops(p, f, CAP, n); } else { ListedWalk(p, listed, f, n); }
      }
    }
    AllowedPasteKeepsAForest(p, listed, items, f, ok);
  }

  /** The listings complete and right, an allowed paste of the first of three hundred folders into the last makes a cycle. */
  lemma ADeepPasteMakesACycle()
    ensures var items := [Item(1, Some(0), true)];
            && IsForest(LINE) && Fresh(LINE, items) && PasteAllowed(LINE, items, 300)
            && !IsForest(MoveAll(LINE, items, 300, [true]))
  {
    var items := [Item(1, Some(0), true)];
    TheLineIsAForest();
    forall n: nat | n < CAP ensures Up(LINE, 300, n) != Some(1) { UpTheLine(300, n); }
    UpTheLine(300, 299);
    assert BeyondSight(LINE, LINE, 300, 1);
    assert items[0] in items;
    assert PasteAllowed(LINE, items, 300);
    OneMoves(items[0], 300);
    hide IsForest, PasteAllowed, BeyondSight;
    AllowedPasteKeepsAForest(LINE, LINE, items, 300, [true]);
    assert items[0] in Moved(items, 300, [true]);
  }

  /** On the line of three hundred folders the check sees the last 256. */
  lemma TheLastAreSeen(x: Id)
    requires x <= 300
    ensures Seen(LINE, 300, x) <==> 300 - x < 256
  {
    UpTheLine(300, 300 - x);
    forall n: nat | n < CAP ensures Up(LINE, 300, n) == Some(300 - n) { UpTheLine(300, n); }
  }

  /** So does one into a folder whose own listing is not loaded yet, however shallow. */
  lemma AnUnlistedPasteMakesACycle()
    ensures var p: Parents := map[1 := 0, 2 := 1];
            var items := [Item(1, Some(0), true)];
            IsForest(p) && Fresh(p, items) && PasteAllowed(map[1 := 0], items, 2) && !IsForest(MoveAll(p, items, 2, [true]))
  {
    var p: Parents, listed: Parents := map[1 := 0, 2 := 1], map[1 := 0];
    var items := [Item(1, Some(0), true)];
    forall x: Id ensures Ends(p, x) { assert Up(p, 0, 1) == None && Up(p, 1, 2) == None && Up(p, 2, 3) == None && (x > 2 ==> Up(p, x, 1) == None); }
    forall n: nat | n < CAP ensures Up(listed, 2, n) != Some(1) {
      assert Up(listed, 2, 1) == None;
      if n > 1 { UpStops(listed, 2, 1, n); }
    }
    assert Up(p, 2, 1) == Some(1);
    assert BeyondSight(p, listed, 2, 1);
    assert items[0] in items;
    assert PasteAllowed(listed, items, 2);
    OneMoves(items[0], 2);
    hide IsForest, PasteAllowed, BeyondSight;
    AllowedPasteKeepsAForest(p, listed, items, 2, [true]);
    assert items[0] in Moved(items, 2, [true]);
  }

  lemma OneMoves(item: Item, f: Id)
    requires item.parentId != Some(f)
    ensures Moved([item], f, [true]) == [item]
  {
    assert [item][..0] == [];
  }

  /** Undo, all of it agreed, gives the folders as they were, exactly when every moved item had been in one. */
  lemma UndoRestores(p: Parents, items: seq<Item>, f: Id, ok: seq<bool>, agreed: seq<bool>)
    requires |items| <= |ok| && Fresh(p, items)
    requires var moved := Moved(items, f, ok);
             |moved| <= |agreed| && forall i | 0 <= i < |moved| :: agreed[i]
    ensures UndoAll(MoveAll(p, items, f, ok), Moved(items, f, ok), agreed) == p <==> forall item | item in Moved(items, f, ok) :: item.parentId.Some?
  {
    var moved := Moved(items, f, ok);
    var q := MoveAll(p, items, f, ok);
    MovesAre(p, items, f, ok);
    MovedAreOfThem(items, f, ok);
    var r := UndoAll(q, moved, agreed);
    if forall item | item in moved :: item.parentId.Some? {
      forall x: Id ensures Parent(r, x) == Parent(p, x) {
        UndoneAt(q, moved, agreed, x);
        if i :| 0 <= i < |moved| && moved[i].id == x {
          assert Parent(r, x) == moved[i].parentId;
        } else {
          assert x !in Ids(moved);
        }
      }
      assert forall x: Id :: (x in r <==> x in p) && (x in p ==> r[x] == p[x]) by {
        forall x: Id ensures (x in r <==> x in p) && (x in p ==> r[x] == p[x]) { assert Parent(r, x) == Parent(p, x); }
      }
      assert r == p;
    }
    if item :| item in moved && item.parentId.None? {
      UndoneAt(q, moved, agreed, item.id);
      assert item.id in Ids(moved) && Parent(r, item.id) == Some(f) && Parent(p, item.id) == None;
    }
  }

  /** An item that had no parent, moved into a folder, stays there when its move is undone. */
  lemma UndoLeavesAnItemWithoutAParent()
    ensures var items := [Item(5, None, false)];
            Fresh(map[], items) && UndoAll(MoveAll(map[], items, 9, [true]), Moved(items, 9, [true]), [true]) == map[5 := 9]
  {
    var items := [Item(5, None, false)];
    OneMoves(items[0], 9);
    assert items[..0] == [];
  }

  /** The server moves no top folder, and only a top folder has no parent: so an Undo all of it agrees to gives the folders back. */
  lemma UndoRestoresAsTheServerMoves(p: Parents, items: seq<Item>, f: Id, ok: seq<bool>, agreed: seq<bool>)
    requires |items| <= |ok| && Fresh(p, items) && forall i | 0 <= i < |items| && items[i].parentId.None? :: !ok[i]
    requires var moved := Moved(items, f, ok);
             |moved| <= |agreed| && forall i | 0 <= i < |moved| :: agreed[i]
    ensures UndoAll(MoveAll(p, items, f, ok), Moved(items, f, ok), agreed) == p
  {
    MovedHaveParents(items, f, ok);
    UndoRestores(p, items, f, ok, agreed);
  }

  lemma {:induction false} MovedHaveParents(items: seq<Item>, f: Id, ok: seq<bool>)
    requires |items| <= |ok| && forall i | 0 <= i < |items| && items[i].parentId.None? :: !ok[i]
    ensures forall item | item in Moved(items, f, ok) :: item.parentId.Some?
  {
    if items != [] {
      var n := |items| - 1;
      assert forall i | 0 <= i < n :: items[..n][i] == items[i];
      MovedHaveParents(items[..n], f, ok);
    }
  }

  /** The server agrees to the move of `items[i]` only if the item is not the folder or above it by then. */
  ghost predicate ServersCheck(p: Parents, items: seq<Item>, f: Id, ok: seq<bool>)
    requires |items| <= |ok|
  {
    forall i | 0 <= i < |items| && ok[i] :: !OnWalk(MoveAll(p, items[..i], f, ok), f, items[i].id)
  }

  /** Whatever the phone let through, the moves the server agrees to keep the folders a forest. */
  lemma {:induction false} AgreedMovesKeepAForest(p: Parents, items: seq<Item>, f: Id, ok: seq<bool>)
    requires |items| <= |ok| && IsForest(p) && ServersCheck(p, items, f, ok)
    ensures IsForest(MoveAll(p, items, f, ok))
  {
    if items != [] {
      var n := |items| - 1;
      assert forall i | 0 <= i < n :: items[..n][..i] == items[..i];
      AgreedMovesKeepAForest(p, items[..n], f, ok);
      var q := MoveAll(p, items[..n], f, ok);
      if items[n].parentId != Some(f) && ok[n] {
        MovedForest(q, {items[n].id}, f);
        assert Rehung(q, {items[n].id}, f) == q[items[n].id := f];
      }
    }
  }

  /** Whatever of an Undo the server refuses: an item not moved stays where it is, a moved one is back or still in the folder. */
  lemma UndoChangesNoOther(p: Parents, items: seq<Item>, f: Id, ok: seq<bool>, agreed: seq<bool>, done: nat, x: Id)
    requires |items| <= |ok| && Fresh(p, items)
    requires done <= |Moved(items, f, ok)| <= |agreed|
    ensures var r := UndoAll(MoveAll(p, items, f, ok), Moved(items, f, ok)[..done], agreed);
            Parent(r, x) == Parent(p, x) || (x in Ids(Moved(items, f, ok)) && Parent(r, x) == Some(f))
  {
    var q := MoveAll(p, items, f, ok);
    MovesAre(p, items, f, ok);
    MovedAreOfThem(items, f, ok);
    var some := Moved(items, f, ok)[..done];
    UndoneAt(q, some, agreed, x);
    if i :| 0 <= i < |some| && some[i].id == x && agreed[i] && some[i].parentId.Some? {
      assert some[i] in Moved(items, f, ok);
    }
  }

  /** No step of a move or its Undo, refused or not, puts a folder inside itself: even one moved item inside another. */
  lemma UndoKeepsAForest(p: Parents, items: seq<Item>, f: Id, ok: seq<bool>, agreed: seq<bool>, done: nat)
    requires |items| <= |ok| && Fresh(p, items) && IsForest(p) && Clear(p, Ids(Moved(items, f, ok)), f)
    requires done <= |Moved(items, f, ok)| <= |agreed|
    ensures IsForest(UndoAll(MoveAll(p, items, f, ok), Moved(items, f, ok)[..done], agreed))
  {
    var r := UndoAll(MoveAll(p, items, f, ok), Moved(items, f, ok)[..done], agreed);
    var moved := Ids(Moved(items, f, ok));
    forall x: Id ensures (x in moved && x in r && r[x] == f) || ((x in r <==> x in p) && (x in p ==> r[x] == p[x])) {
      UndoChangesNoOther(p, items, f, ok, agreed, done, x);
    }
    MixedForest(p, r, moved, f);
  }

  // -- The drive, changed in place -----------------------------------------------------------------------------------------------

  class Drive {
    var parents: Parents
    // As far as the listings loaded so far tell.
    var listed: Parents
    var clipboard: Option<seq<Item>>

    method Descends(folder: Id, ancestor: Id) returns (found: bool)
      ensures found <==> Seen(listed, folder, ancestor)
    {
      var cursor, steps := Some(folder), 0;
      while cursor.Some? && steps < CAP
        invariant 0 <= steps <= CAP && Up(listed, folder, steps) == cursor
        invariant forall n: nat | n < steps :: Up(listed, folder, n) != Some(ancestor)
        decreases CAP - steps
      {
        if cursor.value == ancestor { return true; }
        UpFrom(listed, folder, steps, 1);
        cursor := if cursor.value in listed then Some(listed[cursor.value]) else None;
        steps := steps + 1;
      }
      if cursor.None? {
        forall n: nat | n < CAP ensures Up(listed, folder, n) != Some(ancestor) {
          if steps <= n { UpStops(listed, folder, steps, n); }
        }
      }
      return false;
    }

    method PasteProblem(folder: Id) returns (problem: Option<Problem>)
      ensures problem == Some(NothingToPaste) <==> clipboard.None?
      ensures problem == None <==> clipboard.Some? && PasteAllowed(listed, clipboard.value, folder)
      ensures problem == Some(IntoItself) <==> clipboard.Some? && exists item :: item in clipboard.value && item.isFolder && Seen(listed, folder, item.id)
      ensures problem == Some(AlreadyHere) <==>
                clipboard.Some? && forall item | item in clipboard.value :: item.parentId == Some(folder) && (item.isFolder ==> !Seen(listed, folder, item.id))
    {
      if clipboard.None? { return Some(NothingToPaste); }
      var items := clipboard.value;
      var elsewhere := false;
      for i := 0 to |items|
        invariant forall j | 0 <= j < i :: !(items[j].isFolder && Seen(listed, folder, items[j].id))
        invariant elsewhere <==> exists j :: 0 <= j < i && items[j].parentId != Some(folder)
      {
        if items[i].isFolder {
          var into := Descends(folder, items[i].id);
          if into {
            assert items[i] in clipboard.value;
            return Some(IntoItself);
          }
        }
        elsewhere := elsewhere || items[i].parentId != Some(folder);
      }
      if elsewhere {
        var j :| 0 <= j < |items| && items[j].parentId != Some(folder);
        assert items[j] in items;
        return None;
      }
      return Some(AlreadyHere);
    }

    /** Moves items one by one, as the server agrees, and says which moved. */
    method Move(items: seq<Item>, folder: Id, ok: seq<bool>) returns (moved: seq<Item>)
      requires |items| <= |ok|
      modifies `parents
      ensures parents == MoveAll(old(parents), items, folder, ok) && moved == Moved(items, folder, ok)
    {
      moved := [];
      for i := 0 to |items|
        invariant parents == MoveAll(old(parents), items[..i], folder, ok) && moved == Moved(items[..i], folder, ok)
      {
        assert items[..i + 1][..i] == items[..i];
        if items[i].parentId != Some(folder) && ok[i] {
          parents := parents[items[i].id := folder];
          moved := moved + [items[i]];
        }
      }
      assert items[..|items|] == items;
    }

    /** Cut items move, if they may go into the folder at all; the clipboard is then empty. */
    method Paste(folder: Id, ok: seq<bool>) returns (moved: seq<Item>)
      requires clipboard.Some? ==> |clipboard.value| <= |ok|
      modifies this
      ensures listed == old(listed)
      ensures var clip := old(clipboard);
              if clip.Some? && PasteAllowed(listed, clip.value, folder)
              then parents == MoveAll(old(parents), clip.value, folder, ok) && moved == Moved(clip.value, folder, ok) && clipboard == None
              else parents == old(parents) && moved == [] && clipboard == clip
    {
      var problem := PasteProblem(folder);
      if problem.Some? || clipboard.None? { return []; }
      var items := clipboard.value;
      clipboard := None;
      moved := Move(items, folder, ok);
    }

    /** The Undo of a move: each item that moved goes back where it was picked. */
    method Undo(moved: seq<Item>, ok: seq<bool>)
      requires |moved| <= |ok|
      modifies `parents
      ensures parents == UndoAll(old(parents), moved, ok)
    {
      for i := 0 to |moved|
        invariant parents == UndoAll(old(parents), moved[..i], ok)
      {
        assert moved[..i + 1][..i] == moved[..i];
        if moved[i].parentId.Some? && ok[i] {
          parents := parents[moved[i].id := moved[i].parentId.value];
        }
      }
      assert moved[..|moved|] == moved;
    }
  }
}
