/** That the queue gets somewhere: pieces left out of no hand-over, landings that finish in any order, uploads that end done. */
module TransferProgress {
  import opened Common
  import opened TransferModel
  import opened TransferInvariants
  import opened TransferRuns
  import opened TransferSteps

  /** The etag of a landed piece. */
  function Landing(t: Transfer, piece: int): (etag: Option<Etag>)
    requires t.record.Some? && t.record.value.sealed.Some?
  {
    Some(Etag(t.record.value.sealed.value.uploadId, piece + 1))
  }

  predicate IsUpload(t: Transfer, sealed: Sealed) {
    t.record.Some? && t.record.value.kind == Upload && t.record.value.sealed == Some(sealed)
  }

  /** Callbacks of landed pieces, one after another: any order, any of them more than once. */
  function LandAll(t: Transfer, me: Option<Account>, sealed: Sealed, pieces: seq<int>): (r: Transfer)
    requires IsUpload(t, sealed)
    ensures IsUpload(r, sealed) && r.op == t.op && r.record.value.owner == t.record.value.owner
    ensures r.record.value.family == t.record.value.family && r.server == t.server
  {
    if pieces == [] then t
    else
      var n := |pieces| - 1;
      var before := LandAll(t, me, sealed, pieces[..n]);
      Finished(before, me, Desc(pieces[n], Some(sealed.uploadId)), 200, Landing(before, pieces[n]), false)
  }

  /** What one landing makes of the ETags and the state. */
  lemma OneLands(t: Transfer, me: Option<Account>, sealed: Sealed, piece: int)
    requires IsUpload(t, sealed)
    ensures var etags := t.record.value.etags[piece + 1 := Etag(sealed.uploadId, piece + 1)];
            var r := Finished(t, me, Desc(piece, Some(sealed.uploadId)), 200, Landing(t, piece), false);
            && IsUpload(r, sealed) && r.record.value.etags == etags
            && r.record.value.state == if t.record.value.state == Sending && |etags| == sealed.partCount then Finishing else t.record.value.state
  {
  }

  /** What the last landing adds. */
  lemma LastLands(t: Transfer, me: Option<Account>, sealed: Sealed, pieces: seq<int>)
    requires IsUpload(t, sealed) && pieces != []
    ensures var piece := pieces[|pieces| - 1];
            var before, after := LandAll(t, me, sealed, pieces[..|pieces| - 1]).record.value, LandAll(t, me, sealed, pieces).record.value;
            && after.etags == before.etags[piece + 1 := Etag(sealed.uploadId, piece + 1)]
            && after.state == if before.state == Sending && |after.etags| == sealed.partCount then Finishing else before.state
  {
    hide Finished;
    OneLands(LandAll(t, me, sealed, pieces[..|pieces| - 1]), me, sealed, pieces[|pieces| - 1]);
  }

  lemma NothingLanded(t: Transfer, me: Option<Account>, sealed: Sealed)
    requires IsUpload(t, sealed)
    ensures LandAll(t, me, sealed, []) == t
  {
  }

  /** The parts that landed. */
  function Parts(pieces: seq<int>): (parts: set<int>) {
    if pieces == [] then {} else Parts(pieces[..|pieces| - 1]) + {pieces[|pieces| - 1] + 1}
  }

  lemma {:induction false} InParts(pieces: seq<int>, part: int)
    ensures part in Parts(pieces) <==> part - 1 in pieces
  {
    if pieces != [] {
      var n := |pieces| - 1;
      assert pieces == pieces[..n] + [pieces[n]];
      InParts(pieces[..n], part);
    }
  }

  lemma PartsOneMore(some: seq<int>, piece: int)
    ensures Parts(some + [piece]) == Parts(some) + {piece + 1}
  {
    assert (some + [piece])[..|some|] == some;
  }

  lemma EtagsOneMore(sealed: Sealed, etags: map<int, Etag>, piece: int)
    requires Genuine(sealed, etags) && 0 <= piece < sealed.partCount
    ensures var more := etags[piece + 1 := Etag(sealed.uploadId, piece + 1)];
            && Genuine(sealed, more) && more.Keys == etags.Keys + {piece + 1}
            && (AllParts(Some(sealed), etags) ==> AllParts(Some(sealed), more))
            && (|more| == sealed.partCount <==> AllParts(Some(sealed), more))
  {
    CountedParts(sealed, etags[piece + 1 := Etag(sealed.uploadId, piece + 1)]);
  }

  /** The ETags are those there were and those that landed; once something landed, the state says whether all did. */
  ghost predicate SoFar(had: map<int, Etag>, sealed: Sealed, pieces: seq<int>, rec: Record) {
    && Genuine(sealed, rec.etags) && rec.etags.Keys == had.Keys + Parts(pieces)
    && (rec.state == Sending || rec.state == Finishing)
    && (rec.state == Finishing ==> AllParts(Some(sealed), rec.etags))
    && (|pieces| > 0 && AllParts(Some(sealed), rec.etags) ==> rec.state == Finishing)
  }

  lemma OneMoreSoFar(had: map<int, Etag>, sealed: Sealed, some: seq<int>, piece: int, before: Record, after: Record)
    requires 0 <= piece < sealed.partCount && SoFar(had, sealed, some, before)
    requires after.etags == before.etags[piece + 1 := Etag(sealed.uploadId, piece + 1)]
    requires after.state == if before.state == Sending && |after.etags| == sealed.partCount then Finishing else before.state
    ensures SoFar(had, sealed, some + [piece], after)
  {
    hide Genuine, AllParts, Parts;
    EtagsOneMore(sealed, before.etags, piece);
    PartsOneMore(some, piece);
  }

  lemma NoneSoFar(sealed: Sealed, rec: Record)
    requires rec.state == Sending && Genuine(sealed, rec.etags)
    ensures SoFar(rec.etags, sealed, [], rec)
  {
  }

  lemma {:induction false} LandedSoFar(t: Transfer, me: Option<Account>, sealed: Sealed, pieces: seq<int>)
    requires IsUpload(t, sealed) && t.record.value.state == Sending && Genuine(sealed, t.record.value.etags)
    requires forall p | p in pieces :: 0 <= p < sealed.partCount
    ensures SoFar(t.record.value.etags, sealed, pieces, LandAll(t, me, sealed, pieces).record.value)
    decreases |pieces|
  {
    hide LandAll, SoFar;
    if |pieces| == 0 {
      assert pieces == [];
      NothingLanded(t, me, sealed);
      NoneSoFar(sealed, t.record.value);
    } else {
      var some, piece := pieces[..|pieces| - 1], pieces[|pieces| - 1];
      assert pieces == some + [piece] && piece in pieces;
      assert forall p | p in some :: p in pieces;
      LandedSoFar(t, me, sealed, some);
      LastLands(t, me, sealed, pieces);
      OneMoreSoFar(t.record.value.etags, sealed, some, piece, LandAll(t, me, sealed, some).record.value, LandAll(t, me, sealed, pieces).record.value);
    }
  }

  /** After its landings, a sending upload is finishing exactly when every part had its ETag or landed among them. */
  lemma FinishesExactly(t: Transfer, me: Option<Account>, sealed: Sealed, pieces: seq<int>)
    requires IsUpload(t, sealed) && t.record.value.state == Sending && Genuine(sealed, t.record.value.etags)
    requires pieces != [] && forall p | p in pieces :: 0 <= p < sealed.partCount
    ensures var rec := LandAll(t, me, sealed, pieces).record.value;
            && (rec.state == Sending || rec.state == Finishing)
            && (rec.state == Finishing <==> forall part | 1 <= part <= sealed.partCount :: part in t.record.value.etags || part - 1 in pieces)
  {
    LandedSoFar(t, me, sealed, pieces);
    var etags := LandAll(t, me, sealed, pieces).record.value.etags;
    assert etags.Keys <= Span(1, sealed.partCount + 1);
    Covering(t.record.value.etags.Keys, pieces, sealed.partCount, etags.Keys);
    hide LandAll;
  }

  lemma Covering(had: set<int>, pieces: seq<int>, n: nat, keys: set<int>)
    requires keys == had + Parts(pieces) && keys <= Span(1, n + 1)
    ensures keys == Span(1, n + 1) <==> forall part | 1 <= part <= n :: part in had || part - 1 in pieces
  {
    forall part ensures part in Parts(pieces) <==> part - 1 in pieces { InParts(pieces, part); }
    hide Parts;
    if forall part | 1 <= part <= n :: part in had || part - 1 in pieces {
      forall part | part in Span(1, n + 1) ensures part in keys {
        assert 1 <= part <= n;
        if part !in had { assert part - 1 in pieces; }
      }
    }
    if keys == Span(1, n + 1) {
      forall part | 1 <= part <= n ensures part in had || part - 1 in pieces { assert part in keys; }
    }
  }

  /** A sealed part or a chunk: where it is in a record that runs. */
  ghost predicate Accounted(t: Transfer, running: set<Desc>, piece: int)
    requires t.record.Some?
  {
    var rec := t.record.value;
    || (if rec.sealed.Some? then piece + 1 in rec.etags || piece + 1 in rec.expired || piece + 1 !in rec.sealed.value.urls
        else rec.plan.None? || piece in rec.fetched || piece in rec.expired || piece !in rec.plan.value.ranges)
    || Desc(piece, rec.Named()) in running || Desc(piece, None) in running
    || exists task :: task in t.handed && task.desc == Desc(piece, rec.Named())
  }

  /** After a hand-over under its own account, each piece landed, has no address to go to, or is with the session. */
  lemma NothingIsLeftOut(t: Transfer, me: Option<Account>, running: set<Desc>, piece: int)
    requires t.record.Some? && Runnable(t.record.value.owner, me) && 0 <= piece < t.record.value.Total()
    ensures Accounted(Start(t, me, running), running, piece)
  {
    var rec := t.record.value;
    var r := Start(t, me, running);
    if piece in Pieces(rec, running) {
      var task := Task(Desc(piece, rec.Named()), rec.owner, me);
      assert task in r.handed && task.desc == Desc(piece, rec.Named());
    }
  }

  /** Every part of an upload whose parts all have addresses was handed over as it was sealed. */
  lemma SealedIsHanded(t: Transfer, me: Option<Account>, sealed: Sealed, kept: bool, piece: int)
    requires t.record.Some? && t.record.value.kind == Upload && t.record.value.etags == map[] && t.record.value.expired == {}
    requires Runnable(t.record.value.owner, me) && Span(1, sealed.partCount + 1) <= sealed.urls && 0 <= piece < sealed.partCount
    ensures Task(Desc(piece, Some(sealed.uploadId)), me, me) in SealDone(t, me, sealed, kept).handed
  {
    var s := SealDone(t, me, sealed, kept);
    assert s.record.value.sealed == Some(sealed);
    assert piece in Pieces(s.record.value, {});
  }

  /** An own-drive upload queued, and its seal come back, with nothing in between. */
  function Sent(me: Account, sealed: Sealed): (t: Transfer) {
    SealDone(Visit(NewUpload(Some(me), None, true), Some(me), 0, true, false, false, {}), Some(me), sealed, true)
  }

  lemma SentIs(me: Account, sealed: Sealed)
    ensures var t := Sent(me, sealed);
            && IsUpload(t, sealed) && t.record.value.state == Sending && t.record.value.etags == map[] && t.op.None?
            && t.record.value.owner == Some(me) && t.record.value.family.None?
            && t.server == Server(map[sealed.uploadId := sealed.partCount], {}, {}, map[])
  {
    hide Start, BeginJob;
  }

  /** A pass that finds an own-drive upload finishing waits for its completion, and that ends it. */
  lemma FinishingEnds(t: Transfer, me: Account, sealed: Sealed)
    requires IsUpload(t, sealed) && t.op.None? && t.record.value.owner == Some(me) && t.record.value.family.None?
    requires t.record.value.state == Sending || t.record.value.state == Finishing
    ensures var r := Visit(t, Some(me), 0, true, false, false, {});
            && (r.op == Some(FinishOp(sealed)) <==> t.record.value.state == Finishing)
            && (r.op == Some(FinishOp(sealed)) ==>
                  FinishDone(r).record.Some? && FinishDone(r).record.value.state == Done && FinishDone(r).folder == GONE
                  && FinishDone(r).server == t.server.Completed(Some(sealed)))
  {
    hide Start, BeginJob;
  }

  /** All of it: the parts land in the order of `pieces`, and a pass comes by. */
  function Undisturbed(me: Account, sealed: Sealed, pieces: seq<int>): (after: Transfer) {
    SentIs(me, sealed);
    Visit(LandAll(Sent(me, sealed), Some(me), sealed, pieces), Some(me), 0, true, false, false, {})
  }

  /**
   An own-drive upload nothing disturbs: whatever the order its parts land in, it then waits for the server's
   completion exactly when all of them landed, and ends done, its upload completed, nothing of it left on disk.
   */
  lemma UndisturbedUploadsEndDone(me: Account, sealed: Sealed, pieces: seq<int>)
    requires pieces != [] && forall p | p in pieces :: 0 <= p < sealed.partCount
    ensures var r := Undisturbed(me, sealed, pieces);
            && (r.op == Some(FinishOp(sealed)) <==> forall p | 0 <= p < sealed.partCount :: p in pieces)
            && (r.op == Some(FinishOp(sealed)) ==>
                  var done := FinishDone(r);
                  && done.record.Some? && done.record.value.state == Done && done.folder == GONE
                  && done.server == Server(map[sealed.uploadId := sealed.partCount], {}, {sealed.uploadId}, map[]))
  {
    SentIs(me, sealed);
    var t := Sent(me, sealed);
    hide Sent, LandAll, Visit, FinishDone;
    FinishesExactly(t, Some(me), sealed, pieces);
    var landed := LandAll(t, Some(me), sealed, pieces);
    FinishingEnds(landed, me, sealed);
    if forall p | 0 <= p < sealed.partCount :: p in pieces {
      forall part | 1 <= part <= sealed.partCount ensures part in t.record.value.etags || part - 1 in pieces {}
    }
    if landed.record.value.state == Finishing {
      forall p | 0 <= p < sealed.partCount ensures p in pieces {
        assert p + 1 in t.record.value.etags || (p + 1) - 1 in pieces;
      }
    }
  }

  /** A cancel asked for, and ended, under the record's own account with nothing in between: the record and its folder go, its upload is aborted. */
  lemma CancelledAtOnce(t: Transfer, me: Option<Account>, c: nat, families: bool)
    requires t.record.Some? && Runnable(t.record.value.owner, me)
    ensures var r := CancelEnd(CancelDiscard(CancelBegin(t, c), me, c, families), c);
            && r.record.None? && r.folder == GONE && r.server.lost == t.server.lost && c !in r.cancels
            && (t.record.value.sealed.Some? ==> t.record.value.sealed.value.uploadId in r.server.asked)
  {
  }
}
