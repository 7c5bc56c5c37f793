/**
 A row that says done is never a lie: over every history of runs, crashes,
 retries, repeats, renumberings and passes that remove mail, its message is on
 the destination for as long as the source holds it. The hypotheses are that
 nobody else deletes from the destination, that a renumbering keeps the messages,
 that a digest or a search term never names a message with a different body, and
 that when a deletion pass begins, of whatever the rows cannot name a copy of some
 copy is not nominated. UnnamedCopies says when that is so.
 */
module DoneRows {
  import opened Wrappers
  import opened Identity
  import opened StateStore
  import opened CopyProtocol
  import opened CopyLedger
  import Deletion
  import DeletionSafety

  /** Recognising `m` as a copy of `a`, by search or by digest, is never a mistake. */
  predicate Truthful(m: Mail, a: Mail) {
    (Hit(a.id, m.id) ==> m.body == a.body) &&
    (!m.id.weak && m.id.digest == a.id.digest ==> m.body == a.body)
  }

  ghost predicate TruthfulSource(mail: map<Src, Mail>) {
    forall u, v :: u in mail && v in mail ==> Truthful(Stored(mail[v]), mail[u])
  }

  ghost predicate TruthfulTo(m: Mail, mail: map<Src, Mail>) {
    forall u :: u in mail ==> Truthful(m, mail[u])
  }

  predicate Moved(holds: map<Uid, Mail>, m: Mail) {
    exists x :: x in holds && holds[x] == m
  }

  /** A renumbering gives the messages other numbers and keeps them. */
  predicate SameMail(dest: map<Uid, Mail>, holds: map<Uid, Mail>) {
    (forall d :: d in dest ==> Moved(holds, dest[d])) && (forall x :: x in holds ==> Moved(dest, holds[x]))
  }

  /** A listed message that is recorded as copied by a row that cannot say which message the copy is. */
  predicate Unnamed(w: World, u: Src)
    requires w.phase.Settling?
  {
    u in w.phase.c.listed && u in w.mail && u in w.rows && w.rows[u].status.Done? && w.rows[u].dstUid == 0
  }

  /**
   Of every such message some copy is not nominated. This is about the rows, the
   listing and the search, before anything is removed.
   */
  ghost predicate UnnamedKept(w: World, listing: seq<Uid>, search: Option<set<Uid>>)
    requires w.phase.Settling?
  {
    forall u :: Unnamed(w, u) ==>
      exists d :: d in w.dest && w.dest[d].body == w.mail[u].body && !DoomedNow(w, listing, search, d)
  }

  /** Mail may arrive at the destination at will, but nobody else deletes from it. */
  ghost predicate Fair(w: World, e: Event) {
    !e.DestDeletes? && (e.DestArrives? ==> TruthfulTo(e.m, w.mail)) &&
    (e.DestRenumbered? ==> SameMail(w.dest, e.holds))
  }

  /** The steps the theorem allows. */
  ghost predicate Honest(w: World, e: Event) {
    Fair(w, e) && (e.Expunge? && w.phase.Settling? ==> UnnamedKept(w, e.listing, e.search))
  }

  ghost predicate HonestRun(w: World, es: seq<Event>)
    decreases |es|
  {
    es == [] || (Enabled(w, es[0]) && Honest(w, es[0]) && HonestRun(Apply(w, es[0]), es[1..]))
  }

  predicate HasCopy(dest: map<Uid, Mail>, m: Mail) {
    exists d :: d in dest && dest[d].body == m.body
  }

  /**
   The messages whose copies nothing takes away: those the source holds or a run has listed, and all before
   deletion.
   */
  predicate Protected(w: World, u: Src) {
    !w.purged || u !in w.past || ((w.phase.Copying? || w.phase.Settling?) && u in w.phase.c.listed)
  }

  /** A message said to be at a place under the present numbering is there if it is protected, and nothing else is. */
  predicate NameTrue(w: World, u: Src, at: Placed)
    requires u in w.mail
  {
    at.uid != 0 && at.validity == w.dstValidity ==>
      (Protected(w, u) ==> at.uid in w.dest) && (at.uid in w.dest ==> w.dest[at.uid].body == w.mail[u].body)
  }

  predicate RowTrue(w: World, u: Src)
    requires u in w.rows && u in w.mail
  {
    w.rows[u].status.Done? ==>
      (Protected(w, u) ==> HasCopy(w.dest, w.mail[u])) &&
        NameTrue(w, u, Placed(w.rows[u].dstValidity, w.rows[u].dstUid))
  }

  /** What the index offers is on the destination, and where it says as long as the numbering stands. */
  predicate OfferTrue(w: World, c: Copy, d: Uid)
    requires d in c.index
  {
    (exists x :: x in w.dest && !w.dest[x].id.weak && w.dest[x].id.digest == c.index[d]) &&
    (DestSteady(w) ==> d in w.dest && !w.dest[d].id.weak && w.dest[d].id.digest == c.index[d])
  }

  predicate AcceptedTrue(w: World, u: Src, named: Option<Placed>)
    requires u in w.mail
  {
    HasCopy(w.dest, w.mail[u]) &&
    (named.Some? && named.value.validity == w.dstValidity ==>
       named.value.uid in w.dest && w.dest[named.value.uid].body == w.mail[u].body)
  }

  predicate CopyTrue(w: World, c: Copy) {
    (forall d :: d in c.index ==> OfferTrue(w, c, d)) &&
    (forall u :: u in c.work && u in w.mail && c.work[u].Accepted? ==> AcceptedTrue(w, u, c.work[u].named))
  }

  ghost predicate RowsTrue(w: World) {
    TruthfulSource(w.mail) &&
    (forall d :: d in w.dest ==> TruthfulTo(w.dest[d], w.mail)) &&
    (forall u :: u in w.rows && u in w.mail ==> RowTrue(w, u)) &&
    (w.phase.Copying? ==> CopyTrue(w, w.phase.c))
  }

  /* ---------- frames ---------- */

  /** No message gains protection. */
  ghost predicate Releases(w: World, w': World) {
    forall u :: Protected(w', u) && u in w.rows ==> Protected(w, u)
  }

  /** What the destination holds is kept, and what is new on it is truthful and newly numbered. */
  ghost predicate DestGrows(w: World, w': World) {
    w'.mail == w.mail && w'.dstValidity == w.dstValidity && w'.fold.dstValidity == w.fold.dstValidity &&
    (forall d :: d in w.dest ==> d in w'.dest && w'.dest[d] == w.dest[d]) &&
    (forall d :: d in w'.dest && d !in w.dest ==> d >= w.destNext && TruthfulTo(w'.dest[d], w.mail))
  }

  /** No name a row or a worker holds is one the destination has yet to give out. */
  predicate NamesGiven(w: World) {
    (forall u :: u in w.rows && w.rows[u].dstValidity == w.dstValidity ==> w.rows[u].dstUid < w.destNext) &&
    (forall d :: d in w.dest ==> 1 <= d < w.destNext)
  }

  lemma LedgerGives(w: World)
    requires Ledger(w)
    ensures NamesGiven(w)
  {
    hide PhaseOk, Numbered;
  }

  lemma GrowthKeepsCopies(w: World, w': World)
    requires DestGrows(w, w')
    ensures forall u :: u in w.mail && HasCopy(w.dest, w.mail[u]) ==> HasCopy(w'.dest, w.mail[u])
  {
    forall u | u in w.mail && HasCopy(w.dest, w.mail[u])
      ensures HasCopy(w'.dest, w.mail[u])
    {
      var d :| d in w.dest && w.dest[d].body == w.mail[u].body;
      assert d in w'.dest && w'.dest[d].body == w.mail[u].body;
    }
  }

  /** A larger destination makes nothing that was true false. */
  lemma GrowthKeepsTrue(w: World, w': World)
    requires RowsTrue(w) && NamesGiven(w) && DestGrows(w, w') && w'.rows == w.rows && Releases(w, w')
    requires w'.phase.Copying? ==> w.phase.Copying? && w'.phase.c.index == w.phase.c.index
    requires w'.phase.Copying? ==> w'.phase.c.work == w.phase.c.work
    ensures RowsTrue(w')
  {
    GrowthKeepsCopies(w, w');
    forall u | u in w'.rows && u in w'.mail
      ensures RowTrue(w', u)
    {
      assert RowTrue(w, u);
    }
    if w'.phase.Copying? {
      GrowthKeepsWork(w, w', w.phase.c);
    }
  }

  lemma GrowthKeepsWork(w: World, w': World, c: Copy)
    requires CopyTrue(w, c) && DestGrows(w, w')
    ensures CopyTrue(w', c.(listed := c.listed))
  {
    GrowthKeepsCopies(w, w');
    forall d | d in c.index
      ensures OfferTrue(w', c, d)
    {
      assert OfferTrue(w, c, d);
      var x :| x in w.dest && !w.dest[x].id.weak && w.dest[x].id.digest == c.index[d];
      assert x in w'.dest && w'.dest[x] == w.dest[x];
    }
    forall u | u in c.work && u in w'.mail && c.work[u].Accepted?
      ensures AcceptedTrue(w', u, c.work[u].named)
    {
      assert AcceptedTrue(w, u, c.work[u].named);
    }
  }

  lemma MovedCopies(w: World, w': World)
    requires SameMail(w.dest, w'.dest)
    ensures forall u :: u in w.mail && HasCopy(w.dest, w.mail[u]) ==> HasCopy(w'.dest, w.mail[u])
  {
    forall u | u in w.mail && HasCopy(w.dest, w.mail[u])
      ensures HasCopy(w'.dest, w.mail[u])
    {
      var d :| d in w.dest && w.dest[d].body == w.mail[u].body;
      assert Moved(w'.dest, w.dest[d]);
      var x :| x in w'.dest && w'.dest[x] == w.dest[d];
      assert w'.dest[x].body == w.mail[u].body;
    }
  }

  /** A renumbering voids every name and keeps every copy. */
  lemma RenumberKeepsTrue(w: World, w': World)
    requires RowsTrue(w) && w' == w.(dstValidity := w'.dstValidity, dest := w'.dest, destNext := w'.destNext)
    requires SameMail(w.dest, w'.dest) && w.fold.dstValidity <= w.dstValidity < w'.dstValidity
    requires forall u :: u in w.rows ==> w.rows[u].dstValidity <= w.dstValidity
    requires w.phase.Copying? ==> ListOk(w, w.phase.c)
    ensures RowsTrue(w')
  {
    MovedCopies(w, w');
    hide CopyTrue, ListOk, TruthfulTo;
    forall u | u in w'.rows && u in w'.mail
      ensures RowTrue(w', u)
    {
      assert RowTrue(w, u);
    }
    forall d | d in w'.dest
      ensures TruthfulTo(w'.dest[d], w.mail)
    {
      assert Moved(w.dest, w'.dest[d]);
      var x :| x in w.dest && w.dest[x] == w'.dest[d];
      assert TruthfulTo(w.dest[x], w.mail);
    }
    if w.phase.Copying? {
      hide RowTrue, SameMail, TruthfulSource;
      RenumberKeepsWork(w, w', w.phase.c);
    }
  }

  lemma RenumberKeepsWork(w: World, w': World, c: Copy)
    requires CopyTrue(w, c) && ListOk(w, c) && w.fold.dstValidity <= w.dstValidity < w'.dstValidity
    requires w'.mail == w.mail && w'.fold == w.fold && SameMail(w.dest, w'.dest)
    ensures CopyTrue(w', c)
  {
    MovedCopies(w, w');
    forall d | d in c.index
      ensures OfferTrue(w', c, d)
    {
      assert OfferTrue(w, c, d);
      var x :| x in w.dest && !w.dest[x].id.weak && w.dest[x].id.digest == c.index[d];
      assert Moved(w'.dest, w.dest[x]);
      var y :| y in w'.dest && w'.dest[y] == w.dest[x];
      assert !w'.dest[y].id.weak && w'.dest[y].id.digest == c.index[d];
    }
    forall u | u in c.work && u in w'.mail && c.work[u].Accepted?
      ensures AcceptedTrue(w', u, c.work[u].named)
    {
      assert AcceptedTrue(w, u, c.work[u].named);
      assert c.work[u].named.Some? ==> PlaceOk(w, c.work[u].named.value);
    }
  }

  /** A step that settles one row and moves one piece of work. */
  lemma SettlingKeepsTrue(w: World, w': World, u: Src)
    requires RowsTrue(w) && w'.mail == w.mail && w'.dest == w.dest && w'.dstValidity == w.dstValidity &&
      w'.fold == w.fold
    requires u in w.mail && Releases(w, w')
    requires u in w'.rows && w'.rows == w.rows[u := w'.rows[u]] && RowTrue(w', u)
    requires w'.phase.Copying? ==> w.phase.Copying? && w'.phase.c.index.Items <= w.phase.c.index.Items
    requires w'.phase.Copying? ==> u in w'.phase.c.work && w'.phase.c.work == w.phase.c.work[u := w'.phase.c.work[u]]
    requires w'.phase.Copying? ==> !w'.phase.c.work[u].Accepted?
    ensures RowsTrue(w')
  {
    forall v | v in w'.rows && v in w'.mail
      ensures RowTrue(w', v)
    {
      assert v != u ==> RowTrue(w, v);
    }
    if w'.phase.Copying? {
      var c, c' := w.phase.c, w'.phase.c;
      forall d | d in c'.index
        ensures OfferTrue(w', c', d)
      {
        assert (d, c'.index[d]) in c'.index.Items;
        assert OfferTrue(w, c, d);
      }
      forall v | v in c'.work && v in w'.mail && c'.work[v].Accepted?
        ensures AcceptedTrue(w', v, c'.work[v].named)
      {
        assert AcceptedTrue(w, v, c.work[v].named);
      }
    }
  }

  /** A step that touches neither the rows nor the destination. */
  lemma IdleKeepsTrue(w: World, w': World)
    requires RowsTrue(w) && w'.mail == w.mail && w'.dest == w.dest && w'.dstValidity == w.dstValidity
    requires (forall u :: u in w'.rows ==> u in w.rows && w'.rows[u] == w.rows[u]) && Releases(w, w')
    requires w'.phase.Copying? ==> w.phase.Copying? && w'.fold == w.fold && w'.phase.c.index == w.phase.c.index
    requires w'.phase.Copying? ==>
               forall u :: u in w'.phase.c.work && w'.phase.c.work[u].Accepted? ==>
                 u in w.phase.c.work && w'.phase.c.work[u] == w.phase.c.work[u]
    ensures RowsTrue(w')
  {
    forall u | u in w'.rows && u in w'.mail
      ensures RowTrue(w', u)
    {
      assert RowTrue(w, u);
    }
    if w'.phase.Copying? {
      forall d | d in w'.phase.c.index
        ensures OfferTrue(w', w'.phase.c, d)
      {
        assert OfferTrue(w, w.phase.c, d);
      }
      forall v | v in w'.phase.c.work && v in w'.mail && w'.phase.c.work[v].Accepted?
        ensures AcceptedTrue(w', v, w'.phase.c.work[v].named)
      {
        assert AcceptedTrue(w, v, w.phase.c.work[v].named);
      }
    }
  }

  lemma LocatedIsTrue(w: World, u: Src)
    requires RowsTrue(w) && u in w.mail && Locate(w.dest, w.mail[u].id) != 0
    ensures var d := Locate(w.dest, w.mail[u].id);
            d in w.dest && w.dest[d].body == w.mail[u].body && HasCopy(w.dest, w.mail[u])
  {
    var d := Locate(w.dest, w.mail[u].id);
    assert d in Hits(w.dest, w.mail[u].id);
    assert TruthfulTo(w.dest[d], w.mail);
  }

  /* ---------- the outside world ---------- */

  lemma OutsideKeepsTrue(w: World, e: Event)
    requires Ledger(w) && RowsTrue(w) && Outside(e) && OutsideEnabled(w, e) && Honest(w, e)
    ensures RowsTrue(OutsideApply(w, e))
  {
    LedgerGives(w);
    if e.DestRenumbered? {
      LedgerNumbers(w);
      LedgerHolds(w);
      hide Ledger, RowsTrue, SameMail, ListOk, CopyOk;
      RenumberKeepsTrue(w, OutsideApply(w, e));
    } else {
      hide Ledger, RowsTrue;
      GrowthKeepsTrue(w, OutsideApply(w, e));
    }
  }

  /* ---------- between the workers ---------- */

  lemma RecoverKeepsTrue(w: World, u: Src)
    requires RowsTrue(w) && w.phase.Recovering? && u in w.rows && u in w.mail
    ensures RowsTrue(Recovered(w, u))
  {
    var w' := Recovered(w, u);
    if w'.rows == w.rows {
      IdleKeepsTrue(w, w');
    } else {
      if u in w.live {
        LocatedIsTrue(w, u);
      }
      hide Locate;
      SettlingKeepsTrue(w, w', u);
    }
  }

  lemma VerifyKeepsTrue(w: World, full: bool, verify: bool)
    requires RowsTrue(w) && w.phase.Verifying?
    ensures RowsTrue(Verified(w, full, verify))
  {
    hide RowsTrue, ClaimsChecked, Unhonoured;
    IdleKeepsTrue(w, Verified(w, full, verify));
  }

  lemma ListKeepsTrue(w: World)
    requires RowsTrue(w) && w.phase.Listing? && w.live !! w.past && DestSteady(w)
    ensures RowsTrue(Listed(w))
  {
    var w' := Listed(w);
    hide Claimed;
    assert forall u :: u in w'.phase.c.work ==> w'.phase.c.work[u].Todo?;
    forall u | u in w'.rows && u in w'.mail
      ensures RowTrue(w', u)
    {
      assert RowTrue(w, u);
    }
  }

  lemma StartKeepsTrue(w: World)
    requires RowsTrue(w) && w.phase.NoRun?
    ensures RowsTrue(Started(w))
  {
    hide RowsTrue;
    IdleKeepsTrue(w, Started(w));
  }

  lemma BetweenKeepsTrue(w: World, e: Event)
    requires RowsTrue(w) && !Outside(e) && !Worker(e) && !Pass(e) && RunEnabled(w, e)
    requires e.Crash? || e.SkipRun? || e.RecoverBlind? || e.EndRecover? || e.EndCopy? || e.Finish?
    ensures RowsTrue(RunApply(w, e))
  {
    hide RowsTrue;
    IdleKeepsTrue(w, RunApply(w, e));
  }

  lemma SettleKeepsTrue(w: World, u: Src)
    requires RowsTrue(w) && w.phase.Settling? && CopyOk(w.mail, w.rows, w.phase.c)
    requires u in w.phase.c.work && w.phase.c.work[u].Noted? && u in w.rows
    ensures RowsTrue(SettledOne(w, u))
  {
    var w' := SettledOne(w, u);
    var v := w.phase.c.work[u].survivor;
    assert WorkOk(w.mail, w.rows, w.phase.c, u);
    if v in Mirrored(w.rows, w.fold.dstValidity) {
      assert RowTrue(w, v) && Protected(w, v);
      hide RowsTrue, CopyOk;
      SettlingKeepsTrue(w, w', u);
    } else {
      IdleKeepsTrue(w, w');
    }
  }

  lemma RunStepKeepsTrue(w: World, e: Event)
    requires Ledger(w) && RowsTrue(w) && !Outside(e) && !Worker(e) && !Pass(e) && RunEnabled(w, e)
    ensures RowsTrue(RunApply(w, e))
  {
    LedgerHolds(w);
    hide Ledger, RowsTrue, CopyOk;
    match e
    case StartRun => StartKeepsTrue(w);
    case List => ListKeepsTrue(w);
    case RecoverOne(u) => RecoverKeepsTrue(w, u);
    case VerifyClaims(full, verify) => VerifyKeepsTrue(w, full, verify);
    case SettleOne(u) => SettleKeepsTrue(w, u);
    case _ => BetweenKeepsTrue(w, e);
  }

  lemma LedgerHolds(w: World)
    requires Ledger(w)
    ensures w.live !! w.past && w.rows.Keys <= w.mail.Keys && w.destNext !in w.dest
    ensures w.phase.Copying? || w.phase.Settling? ==> CopyOk(w.mail, w.rows, w.phase.c) && ListOk(w, w.phase.c)
  {
    hide CopyOk, ListOk;
  }

  /* ---------- the workers ---------- */

  lemma UnsettlingWorkerKeepsTrue(w: World, e: Event)
    requires RowsTrue(w) && Worker(e) && WorkerEnabled(w, e)
    requires e.VanishMeta? || e.BeginOne? || e.FetchGiveUp? || e.AppendGiveUp?
    ensures RowsTrue(WorkerApply(w, e))
  {
    var w' := WorkerApply(w, e);
    assert !w'.rows[e.u].status.Done?;
    hide RowsTrue;
    SettlingKeepsTrue(w, w', e.u);
  }

  lemma FetchKeepsTrue(w: World, u: Src, repeats: bool)
    requires RowsTrue(w) && Working(w, u) && WorkOn(w, u).Begun?
    ensures RowsTrue(Fetched(w, u, repeats))
  {
    hide RowsTrue;
    var w' := Fetched(w, u, repeats);
    if u !in w.live {
      assert w'.rows[u].status.Gone?;
      SettlingKeepsTrue(w, w', u);
    } else {
      assert w'.phase.c.work == w.phase.c.work[u := w'.phase.c.work[u]];
      assert !w'.phase.c.work[u].Accepted?;
      IdleKeepsTrue(w, w');
    }
  }

  lemma AdoptKeepsTrue(w: World, u: Src, d: Uid)
    requires RowsTrue(w) && WorkerEnabled(w, Adopt(u, d)) && w.fold.dstValidity <= w.dstValidity
    ensures RowsTrue(WorkerApply(w, Adopt(u, d)))
  {
    var w' := WorkerApply(w, Adopt(u, d));
    assert OfferTrue(w, w.phase.c, d);
    var x :| x in w.dest && !w.dest[x].id.weak && w.dest[x].id.digest == w.phase.c.index[d];
    assert TruthfulTo(w.dest[x], w.mail) && Truthful(w.dest[x], w.mail[u]);
    if DestSteady(w) {
      assert TruthfulTo(w.dest[d], w.mail) && Truthful(w.dest[d], w.mail[u]);
    }
    assert w'.phase.c.index == w.phase.c.index - {d};
    assert w'.phase.c.index.Items <= w.phase.c.index.Items;
    hide RowsTrue;
    SettlingKeepsTrue(w, w', u);
  }

  /** The copy that arrives is truthful, and is a copy of its message. */
  lemma ArrivalKeepsTrue(w: World, u: Src)
    requires RowsTrue(w) && NamesGiven(w) && u in w.mail
    ensures DestGrows(w, WithCopy(w, u)) && RowsTrue(WithCopy(w, u))
    ensures WithCopy(w, u).dest[w.destNext].body == w.mail[u].body && HasCopy(WithCopy(w, u).dest, w.mail[u])
  {
    assert DestGrows(w, WithCopy(w, u));
    GrowthKeepsTrue(w, WithCopy(w, u));
  }

  /** Only the work on one message moves, and it is not accepted without a copy to show for it. */
  lemma MovingWorkKeepsTrue(w: World, u: Src, k: Work)
    requires RowsTrue(w) && Working(w, u) && (k.Accepted? ==> AcceptedTrue(w, u, k.named))
    ensures RowsTrue(WithWork(w, u, k))
  {
    var w' := WithWork(w, u, k);
    forall v | v in w'.rows && v in w'.mail
      ensures RowTrue(w', v)
    {
      assert RowTrue(w, v);
    }
    forall d | d in w'.phase.c.index
      ensures OfferTrue(w', w'.phase.c, d)
    {
      assert OfferTrue(w, w.phase.c, d);
    }
    forall v | v in w'.phase.c.work && v in w'.mail && w'.phase.c.work[v].Accepted?
      ensures AcceptedTrue(w', v, w'.phase.c.work[v].named)
    {
      assert v != u ==> AcceptedTrue(w, v, w.phase.c.work[v].named);
    }
  }

  function NamedIf(w: World, uidPlus: bool): Option<Placed> {
    if uidPlus then Some(Placed(w.dstValidity, w.destNext)) else None
  }

  lemma AppendOkKeepsTrue(w: World, u: Src, uidPlus: bool)
    requires RowsTrue(w) && NamesGiven(w) && Working(w, u)
    ensures RowsTrue(WithWork(WithCopy(w, u), u, Accepted(NamedIf(w, uidPlus))))
  {
    var named := NamedIf(w, uidPlus);
    ArrivalKeepsTrue(w, u);
    hide RowsTrue;
    MovingWorkKeepsTrue(WithCopy(w, u), u, Accepted(named));
  }

  lemma AppendErrorKeepsTrue(w: World, u: Src, stored: bool, k: Work)
    requires RowsTrue(w) && NamesGiven(w) && Working(w, u) && !k.Accepted?
    ensures RowsTrue(WithWork(if stored then WithCopy(w, u) else w, u, k))
  {
    ArrivalKeepsTrue(w, u);
    hide RowsTrue;
    MovingWorkKeepsTrue(if stored then WithCopy(w, u) else w, u, k);
  }

  lemma RelocateKeepsTrue(w: World, u: Src)
    requires RowsTrue(w) && Working(w, u) && WorkOn(w, u).Uncertain? && u in w.rows
    ensures RowsTrue(Relocated(w, u))
  {
    if Locate(w.dest, w.mail[u].id) == 0 {
      MovingWorkKeepsTrue(w, u, Queued(WorkOn(w, u).attempt + 1));
    } else {
      LocatedIsTrue(w, u);
      hide Locate, RowsTrue;
      SettlingKeepsTrue(w, Relocated(w, u), u);
    }
  }

  lemma AcceptedMeans(w: World, u: Src)
    requires RowsTrue(w) && Working(w, u) && WorkOn(w, u).Accepted?
    ensures AcceptedTrue(w, u, WorkOn(w, u).named)
  {
  }

  lemma RecordKeepsTrue(w: World, e: Event)
    requires RowsTrue(w) && Worker(e) && WorkerEnabled(w, e) && (e.RecordCopy? || e.RecordBlind?)
    ensures RowsTrue(WorkerApply(w, e))
  {
    AcceptedMeans(w, e.u);
    if e.RecordCopy? && WorkOn(w, e.u).named.None? && Locate(w.dest, w.mail[e.u].id) != 0 {
      LocatedIsTrue(w, e.u);
    }
    hide RowsTrue, Locate;
    SettlingKeepsTrue(w, WorkerApply(w, e), e.u);
  }

  lemma StandingStillKeepsTrue(w: World, e: Event)
    requires RowsTrue(w) && Worker(e) && WorkerEnabled(w, e) && (e.FilterOut? || e.FetchRetry? || e.LocateBlind?)
    ensures RowsTrue(WorkerApply(w, e))
  {
    hide RowsTrue;
    IdleKeepsTrue(w, WorkerApply(w, e));
  }

  lemma ReaderKeepsTrue(w: World, e: Event)
    requires RowsTrue(w) && w.fold.dstValidity <= w.dstValidity && Reader(e) && WorkerEnabled(w, e)
    ensures RowsTrue(WorkerApply(w, e))
  {
    if e.FetchBody? {
      FetchKeepsTrue(w, e.u, e.repeats);
    } else {
      hide RowsTrue, WorkerEnabled, WorkerApply;
      if e.Adopt? {
        AdoptKeepsTrue(w, e.u, e.d);
      } else if e.FilterOut? || e.FetchRetry? {
        StandingStillKeepsTrue(w, e);
      } else {
        UnsettlingWorkerKeepsTrue(w, e);
      }
    }
  }

  lemma DelivererKeepsTrue(w: World, e: Event)
    requires NamesGiven(w) && RowsTrue(w) && Deliverer(e) && WorkerEnabled(w, e)
    ensures RowsTrue(WorkerApply(w, e))
  {
    if e.AppendOk? {
      AppendOkKeepsTrue(w, e.u, e.uidPlus);
    } else if e.AppendError? {
      AppendErrorKeepsTrue(w, e.u, e.stored, Uncertain(WorkOn(w, e.u).attempt, e.stored));
    } else if e.LocateAfterError? {
      RelocateKeepsTrue(w, e.u);
    } else {
      hide RowsTrue, WorkerEnabled, WorkerApply;
      if e.LocateBlind? {
        StandingStillKeepsTrue(w, e);
      } else if e.AppendGiveUp? {
        UnsettlingWorkerKeepsTrue(w, e);
      } else {
        RecordKeepsTrue(w, e);
      }
    }
  }

  lemma WorkerKeepsTrue(w: World, e: Event)
    requires Ledger(w) && RowsTrue(w) && Worker(e) && WorkerEnabled(w, e)
    ensures RowsTrue(WorkerApply(w, e))
  {
    LedgerGives(w);
    LedgerNumbers(w);
    hide Ledger, RowsTrue, WorkerEnabled, WorkerApply, NamesGiven;
    if Reader(e) {
      ReaderKeepsTrue(w, e);
    } else {
      DelivererKeepsTrue(w, e);
    }
  }

  lemma LedgerNumbers(w: World)
    requires Ledger(w)
    ensures Numbered(w) && RowsPlaced(w)
  {
    hide Numbered, RowsPlaced, PhaseOk;
  }

  /* ---------- the passes ---------- */

  /** Whatever has a row and is protected while a pass runs is on the run's list. */
  lemma ProtectedIsListed(w: World, u: Src)
    requires Ledger(w) && w.phase.Settling? && u in w.rows && Protected(w.(purged := true), u)
    ensures u in w.phase.c.listed
  {
    hide CopyOk;
  }

  /**
   A row that names a listed message's copy does so under the numbering the pass sees, so deletion leaves it
   alone.
   */
  lemma ListedKeepsItsCopy(w: World, gone: set<Uid>, listing: seq<Uid>, search: Option<set<Uid>>, u: Src)
    requires Ledger(w) && RowsTrue(w) && PassEnabled(w, Expunge(gone, listing, search))
    requires u in w.rows && w.rows[u].status.Done? && w.rows[u].dstUid != 0 && u in w.phase.c.listed
    ensures u in w.mail && w.rows[u].dstUid in w.dest && w.rows[u].dstUid !in gone
    ensures HasCopy(w.dest - gone, w.mail[u])
  {
    LedgerNumbers(w);
    LedgerHolds(w);
    assert w.rows[u].dstValidity == w.dstValidity;
    RowMeans(w, u);
    assert u in Mirrored(w.rows, w.dstValidity);
    hide Ledger, RowsTrue, Deletion.Doomed;
    DeletionSafety.ListedIsNeverDoomed(w.rows, w.dstValidity, Claimed(w.rows, w.dstValidity), w.phase.c.listed,
                                       Deletion.Destination(listing, IdentsOf(w.dest), search), u);
    assert (w.dest - gone)[w.rows[u].dstUid].body == w.mail[u].body;
  }

  lemma ExpungeKeepsTrue(w: World, gone: set<Uid>, listing: seq<Uid>, search: Option<set<Uid>>)
    requires Ledger(w) && RowsTrue(w) && PassEnabled(w, Expunge(gone, listing, search)) &&
      UnnamedKept(w, listing, search)
    ensures RowsTrue(w.(dest := w.dest - gone, purged := true))
  {
    var w' := w.(dest := w.dest - gone, purged := true);
    assert w.phase.Settling?;
    forall u | u in w'.rows && u in w'.mail
      ensures RowTrue(w', u)
    {
      assert RowTrue(w, u);
      if w.rows[u].status.Done? && Protected(w', u) {
        ProtectedIsListed(w, u);
        if w.rows[u].dstUid != 0 {
          ListedKeepsItsCopy(w, gone, listing, search, u);
        } else {
          UnnamedKeepsACopy(w, gone, listing, search, u);
        }
      }
    }
  }

  lemma UnnamedKeepsACopy(w: World, gone: set<Uid>, listing: seq<Uid>, search: Option<set<Uid>>, u: Src)
    requires PassEnabled(w, Expunge(gone, listing, search)) && UnnamedKept(w, listing, search) && Unnamed(w, u)
    ensures HasCopy(w.dest - gone, w.mail[u])
  {
    hide DoomedNow;
    var d :| d in w.dest && w.dest[d].body == w.mail[u].body && !DoomedNow(w, listing, search, d);
    assert d !in gone && (w.dest - gone)[d].body == w.mail[u].body;
  }

  /** Everything listed and recorded as copied has a copy here. */
  predicate ListedAreCopied(w: World, dest: map<Uid, Mail>)
    requires w.phase.Settling?
  {
    forall u :: u in w.phase.c.listed && u in w.mail && u in w.rows && w.rows[u].status.Done? ==>
      HasCopy(dest, w.mail[u])
  }

  /** All that a pass could remove. */
  ghost function AllDoomed(w: World, listing: seq<Uid>, search: Option<set<Uid>>): set<Uid>
    requires w.phase.Settling?
  {
    set d | d in w.dest && DoomedNow(w, listing, search, d)
  }

  /**
   Whatever part of the doomed a deletion pass removes, it leaves a copy of every
   listed message recorded as copied, exactly when each of them whose row names no
   copy has one that is not doomed. The others it never touches.
   */
  lemma ExpungeIsSafeIffUnnamedKept(w: World, listing: seq<Uid>, search: Option<set<Uid>>)
    requires Ledger(w) && RowsTrue(w) && Resting(w) && DestSteady(w) && w.phase.c.failed == {}
    ensures (forall gone :: PassEnabled(w, Expunge(gone, listing, search)) ==> ListedAreCopied(w, w.dest - gone)) <==>
            UnnamedKept(w, listing, search)
  {
    hide Ledger, RowsTrue, DoomedNow, HasCopy;
    if UnnamedKept(w, listing, search) {
      forall gone | PassEnabled(w, Expunge(gone, listing, search))
        ensures ListedAreCopied(w, w.dest - gone)
      {
        hide UnnamedKept, PassEnabled;
        forall u | u in w.phase.c.listed && u in w.mail && u in w.rows && w.rows[u].status.Done?
          ensures HasCopy(w.dest - gone, w.mail[u])
        {
          if w.rows[u].dstUid != 0 {
            ListedKeepsItsCopy(w, gone, listing, search, u);
          } else {
            UnnamedKeepsACopy(w, gone, listing, search, u);
          }
        }
      }
    }
    var all := AllDoomed(w, listing, search);
    assert PassEnabled(w, Expunge(all, listing, search));
    if ListedAreCopied(w, w.dest - all) {
      forall u | Unnamed(w, u)
        ensures exists d :: d in w.dest && w.dest[d].body == w.mail[u].body && !DoomedNow(w, listing, search, d)
      {
        CopyLeft(w, listing, search, u);
      }
    }
  }

  lemma CopyLeft(w: World, listing: seq<Uid>, search: Option<set<Uid>>, u: Src)
    requires w.phase.Settling? && u in w.mail && HasCopy(w.dest - AllDoomed(w, listing, search), w.mail[u])
    ensures exists d :: d in w.dest && w.dest[d].body == w.mail[u].body && !DoomedNow(w, listing, search, d)
  {
    hide DoomedNow;
    var left := w.dest - AllDoomed(w, listing, search);
    var d :| d in left && left[d].body == w.mail[u].body;
    assert d in w.dest && w.dest[d].body == w.mail[u].body;
  }

  lemma RepeatsKeepTrue(w: World, gone: set<Uid>)
    requires RowsTrue(w) && PassEnabled(w, RemoveRepeats(gone))
    ensures RowsTrue(w.(dest := w.dest - gone))
  {
    var w' := w.(dest := w.dest - gone);
    forall u | u in w'.mail && HasCopy(w.dest, w.mail[u])
      ensures HasCopy(w'.dest, w.mail[u])
    {
      var d :| d in w.dest && w.dest[d].body == w.mail[u].body;
      var s :| s in w.dest && s !in gone && w.dest[s].body == w.dest[d].body;
      assert s in w'.dest && w'.dest[s].body == w.mail[u].body;
    }
    forall u | u in w'.rows && u in w'.mail
      ensures RowTrue(w', u)
    {
      assert RowTrue(w, u);
      if u in Mirrored(w.rows, w.dstValidity) {
        assert Mirrored(w.rows, w.dstValidity)[u] in Mirrored(w.rows, w.dstValidity).Values;
      }
    }
  }

  lemma RepointKeepsTrue(w: World, u: Src, d: Uid)
    requires RowsTrue(w) && w.rows.Keys <= w.mail.Keys && PassEnabled(w, Repoint(u, d))
    ensures RowsTrue(w.(rows := Completed(w.rows, u, w.dstValidity, d)))
  {
    assert RowTrue(w, u);
    hide RowsTrue;
    SettlingKeepsTrue(w, w.(rows := Completed(w.rows, u, w.dstValidity, d)), u);
  }

  lemma PassKeepsTrue(w: World, e: Event)
    requires Ledger(w) && RowsTrue(w) && Pass(e) && PassEnabled(w, e) && Honest(w, e)
    ensures RowsTrue(PassApply(w, e))
  {
    LedgerHolds(w);
    hide Ledger, RowsTrue, CopyOk, ListOk, UnnamedKept, DoomedNow;
    assert w.phase.Settling?;
    hide PassEnabled;
    match e
    case Expunge(gone, listing, search) => ExpungeKeepsTrue(w, gone, listing, search);
    case RemoveRepeats(gone) => RepeatsKeepTrue(w, gone);
    case Repoint(u, d) => RepointKeepsTrue(w, u, d);
    case Forget(us) => IdleKeepsTrue(w, w.(rows := w.rows - us));
  }

  /* ---------- whole histories ---------- */

  lemma StepKeepsTrue(w: World, e: Event)
    requires Ledger(w) && RowsTrue(w) && Enabled(w, e) && Honest(w, e)
    ensures RowsTrue(Apply(w, e))
  {
    hide Ledger, RowsTrue, OutsideEnabled, OutsideApply, WorkerEnabled, WorkerApply, PassEnabled, PassApply, RunEnabled,
      RunApply;
    if Outside(e) {
      OutsideKeepsTrue(w, e);
    } else if Worker(e) {
      WorkerKeepsTrue(w, e);
    } else if Pass(e) {
      PassKeepsTrue(w, e);
    } else {
      RunStepKeepsTrue(w, e);
    }
  }

  lemma {:induction false} RunKeepsTrue(w: World, es: seq<Event>)
    requires Ledger(w) && RowsTrue(w) && HonestRun(w, es)
    ensures Run(w, es).Some?
    ensures RowsTrue(Run(w, es).value) && Ledger(Run(w, es).value) && Run(w, es).value.mail == w.mail
    decreases |es|
  {
    hide Ledger, RowsTrue, Enabled, Apply, Honest;
    if es != [] {
      StepKeepsTrue(w, es[0]);
      StepKeepsLedger(w, es[0]);
      RunKeepsTrue(Apply(w, es[0]), es[1..]);
    }
  }

  lemma UntouchedIsTrue(w: World)
    requires Untouched(w) && TruthfulSource(w.mail) && forall d :: d in w.dest ==> TruthfulTo(w.dest[d], w.mail)
    ensures Ledger(w) && RowsTrue(w)
  {
  }

  /**
   Done rows never lie. After any history from an untouched database, crashes,
   lost connections, renumberings and removals included, the message of every row
   that says done is on the destination as long as the source holds it, and where
   the row names a copy under the numbering the destination has, that copy is it.
   A run that is copying or settling keeps this of all it listed.
   */
  lemma DoneRowsNeverLie(w0: World, es: seq<Event>, u: Src)
    requires Untouched(w0) && HonestRun(w0, es)
    requires TruthfulSource(w0.mail) && forall d :: d in w0.dest ==> TruthfulTo(w0.dest[d], w0.mail)
    ensures Run(w0, es).Some?
    ensures var w := Run(w0, es).value;
            u in w.rows && w.rows[u].status.Done? && Protected(w, u) ==>
              u in w0.mail && HasCopy(w.dest, w0.mail[u]) &&
              (w.rows[u].dstUid != 0 && w.rows[u].dstValidity == w.dstValidity ==>
                 w.rows[u].dstUid in w.dest && w.dest[w.rows[u].dstUid].body == w0.mail[u].body)
  {
    UntouchedIsTrue(w0);
    hide Untouched, HonestRun, Run;
    RunKeepsTrue(w0, es);
    var w := Run(w0, es).value;
    if u in w.rows {
      LedgerHolds(w);
      RowMeans(w, u);
    }
  }

  lemma RowMeans(w: World, u: Src)
    requires RowsTrue(w) && u in w.rows && u in w.mail
    ensures RowTrue(w, u)
  {
  }

  lemma {:induction false} NeverPurged(w: World, es: seq<Event>)
    requires Run(w, es).Some? && !w.purged && forall k :: 0 <= k < |es| ==> !es[k].Expunge?
    ensures !Run(w, es).value.purged
    decreases |es|
  {
    if es != [] {
      OnlyExpungePurges(w, es[0]);
      hide Enabled, Apply;
      NeverPurged(Apply(w, es[0]), es[1..]);
    }
  }

  lemma OnlyExpungePurges(w: World, e: Event)
    requires Enabled(w, e) && !e.Expunge?
    ensures Apply(w, e).purged == w.purged
  {
    hide OutsideEnabled, OutsideApply, WorkerEnabled, WorkerApply, PassEnabled, PassApply, RunEnabled, RunApply;
  }

  /** Where deletion was never asked for, this is so of every row, whatever the source has expunged. */
  lemma DoneRowsNeverLieUndeleted(w0: World, es: seq<Event>, u: Src)
    requires Untouched(w0) && HonestRun(w0, es) && forall k :: 0 <= k < |es| ==> !es[k].Expunge?
    requires TruthfulSource(w0.mail) && forall d :: d in w0.dest ==> TruthfulTo(w0.dest[d], w0.mail)
    ensures Run(w0, es).Some?
    ensures var w := Run(w0, es).value;
            u in w.rows && w.rows[u].status.Done? ==>
              u in w0.mail && HasCopy(w.dest, w0.mail[u]) &&
              (w.rows[u].dstUid != 0 && w.rows[u].dstValidity == w.dstValidity ==>
                 w.rows[u].dstUid in w.dest && w.dest[w.rows[u].dstUid].body == w0.mail[u].body)
  {
    DoneRowsNeverLie(w0, es, u);
    NeverPurged(w0, es);
  }
}
