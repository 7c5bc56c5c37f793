/**
 Exactly once across crashes. The destination never holds two copies of a
 source message, whatever was killed and when, and after a run that finished
 with nothing failed or left out it holds one of every message the run listed.

 The hypotheses: every source message has a body and a searchable identity of
 its own; searches answer and answer exactly; nobody else deletes from the
 destination or puts source mail there; neither side is renumbered; and an APPEND
 that did arrive is not abandoned while the source holds its message.
 CopyWitnesses.GiveUpDuplicates shows what happens without the last.
 */
module ExactlyOnce {
  import opened Identity
  import opened StateStore
  import opened CopyProtocol
  import opened CopyLedger
  import opened DoneRows
  import Deletion

  /** `m` is recognised as `a` exactly when it is the same message. */
  predicate Recognised(m: Mail, a: Mail) {
    (m.body == a.body <==> Hit(a.id, m.id)) &&
    (m.body == a.body <==> !m.id.weak && m.id.digest == a.id.digest)
  }

  ghost predicate RecognisedIn(m: Mail, mail: map<Src, Mail>) {
    forall u :: u in mail ==> Recognised(m, mail[u])
  }

  ghost predicate DistinctSource(mail: map<Src, Mail>) {
    (forall u, v :: u in mail && v in mail && mail[u].body == mail[v].body ==> u == v) &&
    (forall v :: v in mail ==> RecognisedIn(Stored(mail[v]), mail))
  }

  ghost predicate Foreign(m: Mail, mail: map<Src, Mail>) {
    RecognisedIn(m, mail) && forall u :: u in mail ==> m.body != mail[u].body
  }

  /** The hypothesis on a step, checked where it is taken. */
  ghost predicate Exact(w: World, e: Event) {
    Orderly(w, e) && (e.FilterOut? && e.u in w.mail && e.u !in w.rows ==> !HasCopy(w.dest, w.mail[e.u]))
  }

  /** All of it except that nothing already on the destination and unrecorded is left out by the selection. */
  ghost predicate Orderly(w: World, e: Event) {
    !e.DestDeletes? && !e.SourceRenumbered? && !e.DestRenumbered? &&
    !e.RecoverBlind? && !e.LocateBlind? && !e.RecordBlind? &&
    (e.DestArrives? ==> Foreign(e.m, w.mail)) &&
    (e.AppendGiveUp? && Working(w, e.u) && WorkOn(w, e.u).Uncertain? ==> !WorkOn(w, e.u).stored || e.u !in w.live)
  }

  ghost predicate ExactRun(w: World, es: seq<Event>)
    decreases |es|
  {
    es == [] || (Enabled(w, es[0]) && Exact(w, es[0]) && ExactRun(Apply(w, es[0]), es[1..]))
  }

  predicate Has(w: World, u: Src)
    requires u in w.mail
  {
    HasCopy(w.dest, w.mail[u])
  }

  /** At most one copy of a message. */
  predicate AtMostOne(w: World, u: Src)
    requires u in w.mail
  {
    forall d, d' ::
      d in w.dest && d' in w.dest && w.dest[d].body == w.mail[u].body && w.dest[d'].body == w.mail[u].body ==>
      d == d'
  }

  predicate ExactlyOne(w: World, u: Src)
    requires u in w.mail
  {
    Has(w, u) && AtMostOne(w, u)
  }

  /** A copy of a message the source still holds is one the database knows of, or one a first sync will adopt. */
  predicate Accounted(w: World, u: Src)
    requires u in w.mail
  {
    Has(w, u) && u in w.live ==>
      (u in w.rows && (w.rows[u].status.Done? || w.rows[u].status.InFlight?)) ||
      (u !in w.rows && w.fold.lastSync.None?)
  }

  predicate Named(w: World, u: Src)
    requires u in w.mail && u in w.rows
  {
    var d := w.rows[u].dstUid; d in w.dest && w.dest[d].body == w.mail[u].body
  }

  /**
   A message the source never held has no copy and no row; one recorded as gone is
   gone; one recorded as copied has a row that names its copy if it has one.
   */
  predicate Known(w: World, u: Src)
    requires u in w.mail
  {
    (u !in w.live && u !in w.past ==> !Has(w, u) && u !in w.rows) &&
    (u in w.rows ==>
       (w.rows[u].status.Gone? ==> u in w.past) &&
       (w.rows[u].status.Done? <==> w.rows[u].dstUid != 0) &&
       (w.rows[u].status.Done? && Has(w, u) ==> Named(w, u)))
  }

  /** What the database and the destination say of every message. */
  predicate Books(w: World) {
    forall u :: u in w.mail ==> AtMostOne(w, u) && Accounted(w, u) && Known(w, u)
  }

  /** Neither side has been renumbered since the folder row was written, if it ever was. */
  predicate Unmoved(w: World) {
    (w.fold.srcValidity == 0 || w.fold.srcValidity == w.srcValidity) &&
    (w.fold.dstValidity == 0 || w.fold.dstValidity == w.dstValidity)
  }

  /** What the work on a message says about its copy. */
  predicate WorkAgrees(w: World, c: Copy, u: Src)
    requires u in w.mail && u in c.work
  {
    var k := c.work[u];
    (k.Todo? || k.Begun? ==>
       forall d :: d in w.dest && w.dest[d].body == w.mail[u].body ==> d in c.index) &&
    (k.Todo? && u in w.rows ==> !Has(w, u)) &&
    (k.Queued? ==> !Has(w, u)) &&
    (k.Uncertain? ==> (k.stored <==> Has(w, u))) &&
    (u in c.filtered ==> k.Finished? && !Has(w, u)) &&
    (u in c.failed ==> u in w.rows)
  }

  predicate CopyAgrees(w: World, c: Copy) {
    (forall u :: u in c.work && u in w.mail ==> WorkAgrees(w, c, u)) &&
    (forall u :: u in w.mail && u in w.live && u !in c.listed ==> !Has(w, u))
  }

  /** After recovery no row in flight has a copy left to find. */
  predicate RecoveryAgrees(w: World, suspects: set<Src>) {
    forall u :: u in w.rows && u in w.mail && w.rows[u].status.InFlight? && u !in suspects ==> !Has(w, u)
  }

  predicate PhaseAgrees(w: World) {
    match w.phase
    case NoRun => true
    case Recovering(_, _, suspects) => RecoveryAgrees(w, suspects)
    case Verifying(_, _) => RecoveryAgrees(w, {})
    case Listing(_, _) => RecoveryAgrees(w, {})
    case Copying(c) => CopyAgrees(w, c)
    case Settling(c) => CopyAgrees(w, c)
  }

  ghost predicate Once(w: World) {
    DistinctSource(w.mail) &&
    (forall d :: d in w.dest ==> RecognisedIn(w.dest[d], w.mail)) &&
    Books(w) && Unmoved(w) && PhaseAgrees(w)
  }

  lemma RecognisedIsTruthful(mail: map<Src, Mail>)
    requires DistinctSource(mail)
    ensures TruthfulSource(mail)
    ensures forall m :: RecognisedIn(m, mail) ==> TruthfulTo(m, mail)
  {
    forall u, v | u in mail && v in mail
      ensures Truthful(Stored(mail[v]), mail[u])
    {
      assert Recognised(Stored(mail[v]), mail[u]);
    }
    forall m | RecognisedIn(m, mail)
      ensures TruthfulTo(m, mail)
    {
      forall u | u in mail
        ensures Truthful(m, mail[u])
      {
        assert Recognised(m, mail[u]);
      }
    }
  }

  /** An exact search finds the copy, and only it; it finds nothing exactly when there is none. */
  lemma LocateIsExact(w: World, u: Src)
    requires Once(w) && u in w.mail && forall d :: d in w.dest ==> d != 0
    ensures var d := Locate(w.dest, w.mail[u].id);
            (d == 0 <==> !Has(w, u)) && (d != 0 ==> d in w.dest && w.dest[d].body == w.mail[u].body)
  {
    var hits := Hits(w.dest, w.mail[u].id);
    forall d | d in w.dest
      ensures d in hits <==> w.dest[d].body == w.mail[u].body
    {
      assert RecognisedIn(w.dest[d], w.mail) && Recognised(w.dest[d], w.mail[u]);
    }
    if Has(w, u) {
      var d :| d in w.dest && w.dest[d].body == w.mail[u].body;
      assert d in hits;
    }
  }

  /** With no two messages alike, none is ever noted as a repeat. */
  lemma NoRepeats(w: World, c: Copy, u: Src)
    requires DistinctSource(w.mail) && CopyOk(w.mail, w.rows, c) && u in c.work
    ensures !c.work[u].Noted? && !c.work[u].Unsettled?
  {
    assert WorkOk(w.mail, w.rows, c, u);
  }

  /** With no two bodies alike, none is read twice. */
  lemma NotReadBefore(w: World, u: Src)
    requires DistinctSource(w.mail) && Working(w, u) && CopyOk(w.mail, w.rows, w.phase.c) && WorkOn(w, u).Begun?
    ensures w.mail[u].body !in w.phase.c.bodies
  {
    var c := w.phase.c;
    assert WorkOk(w.mail, w.rows, c, u);
    assert forall b :: b in c.bodies ==> c.bodies[b] != u;
  }

  lemma OnceMeans(w: World, u: Src)
    requires Once(w) && u in w.mail
    ensures AtMostOne(w, u) && Accounted(w, u) && Known(w, u) && PhaseAgrees(w) && DistinctSource(w.mail)
  {
  }

  lemma OnceParts(w: World)
    requires Once(w)
    ensures DistinctSource(w.mail) && Books(w) && Unmoved(w) && PhaseAgrees(w)
    ensures forall d :: d in w.dest ==> RecognisedIn(w.dest[d], w.mail)
  {
    hide Books, Unmoved, PhaseAgrees;
  }

  /* ---------- frames ---------- */

  /** Nothing about any copy changes when the destination does not, or only gains foreign mail. */
  ghost predicate SameCopies(w: World, w': World) {
    w'.mail == w.mail &&
    (forall d :: d in w'.dest ==> RecognisedIn(w'.dest[d], w.mail)) &&
    (forall d :: d in w.dest ==> d in w'.dest && w'.dest[d] == w.dest[d]) &&
    (forall d, u :: d in w'.dest && d !in w.dest && u in w.mail ==> w'.dest[d].body != w.mail[u].body)
  }

  lemma SameCopiesHas(w: World, w': World)
    requires SameCopies(w, w')
    ensures forall u :: u in w.mail ==> (Has(w, u) <==> Has(w', u))
    ensures forall u :: u in w.mail && AtMostOne(w, u) ==> AtMostOne(w', u)
  {
    forall u | u in w.mail
      ensures Has(w, u) <==> Has(w', u)
    {
      if Has(w, u) {
        var d :| d in w.dest && w.dest[d].body == w.mail[u].body;
        assert d in w'.dest && w'.dest[d].body == w.mail[u].body;
      }
    }
  }

  /** The books depend on the copies, the rows, what the source holds and whether a sync ever completed. */
  lemma SameBooks(w: World, w': World)
    requires Books(w) && SameCopies(w, w') && w'.rows == w.rows && w'.live == w.live && w'.past == w.past
    requires w'.fold.lastSync == w.fold.lastSync
    ensures Books(w')
  {
    SameCopiesHas(w, w');
    forall u | u in w'.mail
      ensures AtMostOne(w', u) && Accounted(w', u) && Known(w', u)
    {
      assert AtMostOne(w, u) && Accounted(w, u) && Known(w, u);
    }
  }

  /** One row changes, and neither the destination nor what the source holds. */
  lemma OneRowBooks(w: World, w': World, u: Src)
    requires Books(w) && u in w.mail
    requires w'.mail == w.mail && w'.dest == w.dest && w'.live == w.live && w'.past == w.past
    requires w'.fold.lastSync == w.fold.lastSync
    requires w'.rows == w.rows || (u in w'.rows && w'.rows == w.rows[u := w'.rows[u]])
    requires Accounted(w', u) && Known(w', u)
    ensures Books(w')
  {
    forall v | v in w'.mail
      ensures AtMostOne(w', v) && Accounted(w', v) && Known(w', v)
    {
      assert AtMostOne(w, v) && Accounted(w, v) && Known(w, v);
      assert Has(w', v) <==> Has(w, v);
    }
  }

  lemma SameDestCopies(w: World, w': World)
    requires w'.mail == w.mail && w'.dest == w.dest && forall d :: d in w.dest ==> RecognisedIn(w.dest[d], w.mail)
    ensures SameCopies(w, w')
  {
  }

  lemma OnceFrom(w: World, w': World)
    requires DistinctSource(w.mail) && Unmoved(w) && w'.mail == w.mail
    requires w'.srcValidity == w.srcValidity && w'.dstValidity == w.dstValidity
    requires w'.fold.srcValidity == w.fold.srcValidity && w'.fold.dstValidity == w.fold.dstValidity
    requires (forall d :: d in w'.dest ==> RecognisedIn(w'.dest[d], w.mail)) && Books(w') && PhaseAgrees(w')
    ensures Once(w')
  {
    hide Books, PhaseAgrees, DistinctSource;
  }

  /** The rest of the folder's work is undisturbed when the work on one message moves. */
  lemma WorkStepAgrees(w: World, w': World, u: Src)
    requires w.phase.Copying? && w'.phase.Copying? && CopyAgrees(w, w.phase.c) && u in w.phase.c.work && u in w.mail
    requires w'.mail == w.mail && w'.dest == w.dest && w'.live == w.live && w'.past == w.past
    requires w'.rows == w.rows || (u in w'.rows && w'.rows == w.rows[u := w'.rows[u]])
    requires u in w'.phase.c.work && w'.phase.c.work == w.phase.c.work[u := w'.phase.c.work[u]]
    requires w'.phase.c.listed == w.phase.c.listed
    requires w.phase.c.filtered <= w'.phase.c.filtered <= w.phase.c.filtered + {u}
    requires w'.phase.c.failed <= w.phase.c.failed + {u}
    requires forall d :: d in w.phase.c.index && d !in w'.phase.c.index ==>
               d in w.dest && w.dest[d].body == w.mail[u].body
    requires forall v :: v in w.mail && w.mail[v].body == w.mail[u].body ==> v == u
    requires WorkAgrees(w', w'.phase.c, u)
    ensures CopyAgrees(w', w'.phase.c)
  {
    forall v | v in w'.phase.c.work && v in w'.mail
      ensures WorkAgrees(w', w'.phase.c, v)
    {
      assert WorkAgrees(w, w.phase.c, v);
    }
  }

  /* ---------- the outside world ---------- */

  /** What the source holds may change under the books: nothing new has a copy, nothing past returns. */
  lemma BooksKeptBySource(w: World, w': World)
    requires Books(w) && w' == w.(live := w'.live, past := w'.past, modseq := w'.modseq)
    requires w.past <= w'.past && w.live <= w'.live + w'.past
    requires forall u :: u in w.mail && u in w'.live && u !in w.live ==> !Has(w, u)
    ensures Books(w')
  {
    forall u | u in w'.mail
      ensures AtMostOne(w', u) && Accounted(w', u) && Known(w', u)
    {
      assert AtMostOne(w, u) && Accounted(w, u) && Known(w, u);
    }
  }

  lemma WorkKeptBySource(w: World, w': World, c: Copy)
    requires CopyAgrees(w, c) && w'.mail == w.mail && w'.dest == w.dest && w'.rows == w.rows
    requires forall u :: u in w.mail && u in w'.live && u !in w.live ==> !Has(w, u)
    ensures CopyAgrees(w', c)
  {
    forall u | u in c.work && u in w'.mail
      ensures WorkAgrees(w', c, u)
    {
      assert WorkAgrees(w, c, u);
    }
    assert forall u :: u in w.mail ==> (Has(w', u) <==> Has(w, u));
  }

  lemma SourceKeepsOnce(w: World, w': World)
    requires Once(w) && w' == w.(live := w'.live, past := w'.past, modseq := w'.modseq)
    requires w.past <= w'.past && w.live <= w'.live + w'.past
    requires forall u :: u in w.mail && u in w'.live && u !in w.live ==> !Has(w, u)
    ensures Once(w')
  {
    OnceParts(w);
    BooksKeptBySource(w, w');
    hide Once, Books, CopyAgrees;
    if w.phase.Copying? || w.phase.Settling? {
      WorkKeptBySource(w, w', w.phase.c);
    }
    OnceFrom(w, w');
  }

  lemma SameCopiesWork(w: World, w': World, c: Copy)
    requires SameCopies(w, w') && w'.rows == w.rows && w'.live == w.live && CopyAgrees(w, c)
    ensures CopyAgrees(w', c)
  {
    SameCopiesHas(w, w');
    forall u | u in c.work && u in w'.mail
      ensures WorkAgrees(w', c, u)
    {
      assert WorkAgrees(w, c, u);
    }
  }

  /** Nothing changes but where foreign mail is. */
  lemma CopiesKeepOnce(w: World, w': World)
    requires Once(w) && SameCopies(w, w') && w' == w.(dest := w'.dest, destNext := w'.destNext, purged := w'.purged)
    ensures Once(w')
  {
    OnceParts(w);
    SameBooks(w, w');
    SameCopiesHas(w, w');
    hide Once, Books, CopyAgrees;
    if w.phase.Copying? || w.phase.Settling? {
      SameCopiesWork(w, w', w.phase.c);
    }
    OnceFrom(w, w');
  }

  lemma ForeignKeepsOnce(w: World, m: Mail)
    requires w.destNext !in w.dest && Once(w) && Foreign(m, w.mail)
    ensures Once(w.(dest := w.dest[w.destNext := m], destNext := w.destNext + 1))
  {
    OnceParts(w);
    hide Once, Books, PhaseAgrees;
    var w' := w.(dest := w.dest[w.destNext := m], destNext := w.destNext + 1);
    assert SameCopies(w, w');
    CopiesKeepOnce(w, w');
  }

  lemma NewcomerHasNone(w: World, u: Src)
    requires Once(w) && u in w.mail && u !in w.live && u !in w.past
    ensures !Has(w, u)
  {
    OnceMeans(w, u);
  }

  lemma OutsideKeepsOnce(w: World, e: Event)
    requires w.destNext !in w.dest && Once(w) && Outside(e) && OutsideEnabled(w, e) && Exact(w, e)
    ensures Once(OutsideApply(w, e))
  {
    hide Once, Has;
    if e.DestArrives? {
      ForeignKeepsOnce(w, e.m);
    } else {
      if e.SourceArrives? {
        NewcomerHasNone(w, e.u);
      }
      SourceKeepsOnce(w, OutsideApply(w, e));
    }
  }

  /* ---------- between the workers ---------- */

  /** A step in a run's memory that leaves every mailbox and row alone. */
  lemma MemoryKeepsOnce(w: World, w': World)
    requires Once(w) && w' == w.(phase := w'.phase) && PhaseAgrees(w')
    ensures Once(w')
  {
    OnceParts(w);
    hide PhaseAgrees, Books;
    SameDestCopies(w, w');
    SameBooks(w, w');
    OnceFrom(w, w');
  }

  lemma StartKeepsOnce(w: World)
    requires Once(w) && w.phase.NoRun? && (w.fold.srcValidity == 0 <==> w.fold.dstValidity == 0)
    ensures Once(Started(w)) && Started(w).rows == w.rows
  {
    var w' := Started(w);
    OnceParts(w);
    SameDestCopies(w, w');
    SameBooks(w, w');
    assert PhaseAgrees(w');
    hide PhaseAgrees, Books;
    assert w'.fold.srcValidity == w.srcValidity && w'.fold.dstValidity == w.dstValidity;
  }

  lemma RecoverKeepsOnce(w: World, u: Src)
    requires (forall d :: d in w.dest ==> d != 0) && Once(w) && w.phase.Recovering? && u in w.rows && u in w.mail
    requires w.rows[u].status.InFlight? && w.live !! w.past
    ensures Once(Recovered(w, u))
  {
    var w' := Recovered(w, u);
    LocateIsExact(w, u);
    OnceParts(w);
    OnceMeans(w, u);
    hide Once, Locate;
    OneRowBooks(w, w', u);
    assert PhaseAgrees(w');
    OnceFrom(w, w');
  }

  /** What the rows claim and the destination cannot honour is only what the source let go and a pass removed. */
  lemma LostIsPast(w: World, u: Src)
    requires Ledger(w) && RowsTrue(w) && u in Unhonoured(w.rows, w.dstValidity, w.dest)
    ensures u in w.mail && u in w.rows && u in w.past && !Protected(w, u)
  {
    LedgerHolds(w);
    RowMeans(w, u);
  }

  /** Rows of messages the source no longer holds may be forgotten. */
  lemma ForgottenBooks(w: World, w': World, us: set<Src>)
    requires Books(w) && us !! w.live && w'.rows == w.rows - us
    requires w'.mail == w.mail && w'.dest == w.dest && w'.live == w.live && w'.past == w.past
    requires w'.fold.lastSync == w.fold.lastSync
    ensures Books(w')
  {
    forall u | u in w'.mail
      ensures AtMostOne(w', u) && Accounted(w', u) && Known(w', u)
    {
      assert AtMostOne(w, u) && Accounted(w, u) && Known(w, u);
      assert Has(w', u) <==> Has(w, u);
    }
  }

  lemma VerifiedForgets(w: World, full: bool, verify: bool) returns (lost: set<Src>)
    requires w.phase.Verifying?
    ensures lost <= Unhonoured(w.rows, w.fold.dstValidity, w.dest)
    ensures var w' := Verified(w, full, verify);
            w' == w.(rows := w.rows - lost, phase := w'.phase, dropped := w'.dropped)
    ensures Verified(w, full, verify).phase == Listing(w.phase.since, w.phase.kept)
  {
    lost := if ClaimsChecked(w, full, verify) then Unhonoured(w.rows, w.fold.dstValidity, w.dest) else {};
    hide Unhonoured, ClaimsChecked;
    assert w.rows - {} == w.rows;
  }

  lemma LostArePast(w: World, lost: set<Src>)
    requires Ledger(w) && RowsTrue(w) && lost <= Unhonoured(w.rows, w.dstValidity, w.dest)
    ensures lost !! w.live
  {
    LedgerMeans(w);
    hide Ledger, RowsTrue, Unhonoured;
    forall u | u in lost
      ensures u in w.past
    {
      LostIsPast(w, u);
    }
  }

  lemma VerifyKeepsOnce(w: World, full: bool, verify: bool)
    requires Ledger(w) && RowsTrue(w) && Once(w) && w.phase.Verifying? && DestSteady(w)
    ensures Once(Verified(w, full, verify))
  {
    var w' := Verified(w, full, verify);
    OnceParts(w);
    hide Ledger, RowsTrue, Once, Books, Unhonoured, Verified, DistinctSource, RecognisedIn, Unmoved;
    var lost := VerifiedForgets(w, full, verify);
    LostArePast(w, lost);
    ForgottenBooks(w, w', lost);
    assert forall u :: u in w.mail ==> (Has(w', u) <==> Has(w, u));
    assert PhaseAgrees(w');
    hide PhaseAgrees;
    OnceFrom(w, w');
  }

  /** What is about to be copied has no copy, except one that the index offers for adoption. */
  lemma ListedWorkAgrees(w: World, u: Src)
    requires Ledger(w) && RowsTrue(w) && Once(w) && w.phase.Listing? && u in w.live && !Settled(w.rows, u) &&
      DestSteady(w)
    ensures u in w.mail && u in Listed(w).phase.c.work && WorkAgrees(Listed(w), Listed(w).phase.c, u)
  {
    var w' := Listed(w);
    var c := w'.phase.c;
    LedgerHolds(w);
    OnceParts(w);
    OnceMeans(w, u);
    forall d | d in w.dest && w.dest[d].body == w.mail[u].body
      ensures d in c.index
    {
      assert Has(w, u);
      assert u !in w.rows && w.fold.lastSync.None?;
      assert RecognisedIn(w.dest[d], w.mail) && Recognised(w.dest[d], w.mail[u]);
      UnrecordedIsUnclaimed(w, u, d);
    }
    assert Has(w', u) <==> Has(w, u);
  }

  lemma UnrecordedIsUnclaimed(w: World, u: Src, d: Uid)
    requires Ledger(w) && RowsTrue(w) && Once(w) && DestSteady(w)
    requires u in w.mail && u !in w.rows && d in w.dest && w.dest[d].body == w.mail[u].body
    ensures d !in Claimed(w.rows, w.fold.dstValidity)
  {
    LedgerHolds(w);
    forall v | v in w.rows && w.rows[v].dstValidity == w.fold.dstValidity && w.rows[v].dstUid != 0
      ensures w.rows[v].dstUid != d
    {
      OnceMeans(w, v);
      RowMeans(w, v);
      OnceSource(w);
    }
  }

  lemma ListKeepsOnce(w: World)
    requires Ledger(w) && RowsTrue(w) && Once(w) && w.phase.Listing? && DestSteady(w)
    ensures Once(Listed(w))
  {
    var w' := Listed(w);
    var c := w'.phase.c;
    hide IndexOf, Once, Ledger, RowsTrue;
    forall u | u in c.work && u in w'.mail
      ensures WorkAgrees(w', c, u)
    {
      ListedWorkAgrees(w, u);
    }
    hide WorkAgrees;
    assert CopyAgrees(w', c);
    MemoryKeepsOnce(w, w');
  }

  /* ---------- the workers ---------- */

  /** A step of one worker that changes no copy: what it leaves must agree about its own message. */
  lemma WorkerKeepsOnce(w: World, w': World, u: Src)
    requires Once(w) && w.phase.Copying? && w'.phase.Copying? && u in w.phase.c.work && u in w.mail
    requires w' == w.(rows := w'.rows, phase := w'.phase)
    requires w'.rows == w.rows || (u in w'.rows && w'.rows == w.rows[u := w'.rows[u]])
    requires u in w'.phase.c.work && w'.phase.c.work == w.phase.c.work[u := w'.phase.c.work[u]]
    requires w'.phase.c.listed == w.phase.c.listed
    requires w.phase.c.filtered <= w'.phase.c.filtered <= w.phase.c.filtered + {u}
    requires w'.phase.c.failed <= w.phase.c.failed + {u}
    requires forall d :: d in w.phase.c.index && d !in w'.phase.c.index ==>
               d in w.dest && w.dest[d].body == w.mail[u].body
    requires Accounted(w', u) && Known(w', u) && WorkAgrees(w', w'.phase.c, u)
    ensures Once(w')
  {
    OnceParts(w);
    assert forall v :: v in w.mail && w.mail[v].body == w.mail[u].body ==> v == u;
    hide Once, Accounted, Known, WorkAgrees, DistinctSource, CopyAgrees, Unmoved, RecognisedIn;
    WorkStepAgrees(w, w', u);
    OneRowBooks(w, w', u);
    hide Books;
    OnceFrom(w, w');
  }

  /** The part of the invariant that a worker on `u` starts from. */
  predicate Local(w: World, u: Src) {
    Working(w, u) && AtMostOne(w, u) && Accounted(w, u) && Known(w, u) && WorkAgrees(w, w.phase.c, u) &&
    (u in w.live || u in w.past) && !(u in w.live && u in w.past) && DestSteady(w) && SourceSteady(w) &&
    (WorkOn(w, u).Todo? ==> !Settled(w.rows, u)) &&
    (Suspect(WorkOn(w, u)) ==> u in w.rows && w.rows[u].status.InFlight?)
  }

  lemma StartsLocal(w: World, u: Src)
    requires Ledger(w) && Once(w) && Working(w, u)
    ensures Local(w, u)
  {
    OnceMeans(w, u);
    OnceParts(w);
    LedgerNumbers(w);
    LedgerHolds(w);
    hide Ledger, Once, RowsPlaced;
    assert u in w.phase.c.listed;
    assert WorkOk(w.mail, w.rows, w.phase.c, u);
  }

  lemma VanishKeepsOnce(w: World, u: Src)
    requires Once(w) && Local(w, u) && WorkOn(w, u).Todo? && u !in w.live
    ensures Once(WithWork(w, u, Finished).(rows := MarkedGone(w.rows, u)))
  {
    hide Once;
    WorkerKeepsOnce(w, WithWork(w, u, Finished).(rows := MarkedGone(w.rows, u)), u);
  }

  function LeftOut(w: World, u: Src): World
    requires Working(w, u)
  {
    w.(phase := Copying(w.phase.c.(work := w.phase.c.work[u := Finished], filtered := w.phase.c.filtered + {u})))
  }

  lemma FilterKeepsOnce(w: World, u: Src)
    requires Once(w) && Local(w, u) && WorkOn(w, u).Todo? && (u !in w.rows ==> !Has(w, u))
    ensures Once(LeftOut(w, u))
  {
    hide Once;
    WorkerKeepsOnce(w, LeftOut(w, u), u);
  }

  lemma BeginKeepsOnce(w: World, u: Src)
    requires Once(w) && Local(w, u) && WorkOn(w, u).Todo?
    ensures Once(WithWork(w, u, Begun).(rows := StateStore.Begun(w.rows, u, DetailOf(w.mail[u]))))
  {
    hide Once;
    WorkerKeepsOnce(w, WithWork(w, u, Begun).(rows := StateStore.Begun(w.rows, u, DetailOf(w.mail[u]))), u);
  }

  /** The index offers the copy of a message that has one, so when it offers none there is none. */
  lemma NothingOffered(w: World, u: Src)
    requires RowsTrue(w) && Once(w) && Local(w, u) && WorkOn(w, u).Begun? && NoneToAdopt(w.phase.c, w.mail[u].id.digest)
    ensures !Has(w, u)
  {
    forall d | d in w.dest
      ensures w.dest[d].body != w.mail[u].body
    {
      assert RecognisedIn(w.dest[d], w.mail) && Recognised(w.dest[d], w.mail[u]);
      assert d in w.phase.c.index ==> OfferTrue(w, w.phase.c, d);
    }
  }

  lemma RetryKeepsOnce(w: World, u: Src)
    requires Once(w) && Local(w, u) && WorkOn(w, u).Begun? && !Has(w, u)
    ensures Once(WithWork(w, u, Todo))
  {
    hide Once;
    WorkerKeepsOnce(w, WithWork(w, u, Todo), u);
  }

  /** A message given up must have no copy, unless the source has let it go and will not list it again. */
  lemma GiveUpKeepsOnce(w: World, u: Src, reason: string)
    requires Once(w) && Local(w, u) && u in w.rows && (!Has(w, u) || u !in w.live) && !Settled(w.rows, u)
    requires !WorkOn(w, u).Finished?
    ensures Once(GivenUp(w, u, reason))
  {
    hide Once;
    WorkerKeepsOnce(w, GivenUp(w, u, reason), u);
  }

  lemma OfferedIsTheCopy(w: World, u: Src, d: Uid)
    requires RowsTrue(w) && Once(w) && DestSteady(w) && Working(w, u)
    requires d in w.phase.c.index && w.phase.c.index[d] == w.mail[u].id.digest
    ensures d in w.dest && w.dest[d].body == w.mail[u].body
  {
    assert OfferTrue(w, w.phase.c, d);
    assert RecognisedIn(w.dest[d], w.mail) && Recognised(w.dest[d], w.mail[u]);
  }

  function Adopted(w: World, u: Src, d: Uid): World
    requires Working(w, u) && u in w.rows
  {
    w.(phase := Copying(w.phase.c.(work := w.phase.c.work[u := Finished], index := w.phase.c.index - {d})),
       rows := Completed(w.rows, u, w.fold.dstValidity, d))
  }

  lemma AdoptKeepsOnce(w: World, u: Src, d: Uid)
    requires Once(w) && Local(w, u) && WorkOn(w, u).Begun? && u in w.rows
    requires d != 0 && d in w.dest && w.dest[d].body == w.mail[u].body
    ensures Once(Adopted(w, u, d))
  {
    hide Once;
    WorkerKeepsOnce(w, Adopted(w, u, d), u);
  }

  lemma FetchKeepsOnce(w: World, u: Src, repeats: bool)
    requires Once(w) && Local(w, u) && WorkOn(w, u).Begun? && !Has(w, u) && w.mail[u].body !in w.phase.c.bodies
    ensures Once(Fetched(w, u, repeats))
  {
    hide Once;
    WorkerKeepsOnce(w, Fetched(w, u, repeats), u);
  }

  lemma CompleteKeepsOnce(w: World, u: Src, at: Placed)
    requires Once(w) && Local(w, u) && u in w.rows && u !in w.phase.c.filtered
    requires at.uid != 0 && at.uid in w.dest && w.dest[at.uid].body == w.mail[u].body
    ensures Once(WithWork(w, u, Finished).(rows := Completed(w.rows, u, at.validity, at.uid)))
  {
    hide Once;
    WorkerKeepsOnce(w, WithWork(w, u, Finished).(rows := Completed(w.rows, u, at.validity, at.uid)), u);
  }

  /** The work on a message may move to any stage that says nothing about its copy that is not so. */
  lemma MoveKeepsOnce(w: World, u: Src, k: Work)
    requires Once(w) && Local(w, u) && u !in w.phase.c.filtered && !k.Todo? && !k.Begun?
    requires k.Queued? || k.Uncertain? ==> !Has(w, u)
    requires k.Uncertain? ==> !k.stored
    ensures Once(WithWork(w, u, k))
  {
    hide Once;
    WorkerKeepsOnce(w, WithWork(w, u, k), u);
  }

  /** A copy arriving changes what is held of one message only. */
  lemma ArrivalIsOne(w: World, u: Src)
    requires DistinctSource(w.mail) && u in w.mail && w.destNext !in w.dest && !Has(w, u)
    ensures var w' := WithCopy(w, u);
            Has(w', u) && AtMostOne(w', u) &&
            forall v :: v in w.mail && v != u ==> (Has(w', v) <==> Has(w, v)) && (AtMostOne(w, v) ==> AtMostOne(w', v))
  {
    var w' := WithCopy(w, u);
    assert w'.dest[w.destNext].body == w.mail[u].body;
    forall v | v in w.mail && v != u
      ensures Has(w', v) <==> Has(w, v)
    {
      if Has(w, v) {
        var d :| d in w.dest && w.dest[d].body == w.mail[v].body;
        assert d in w'.dest && w'.dest[d].body == w.mail[v].body;
      }
    }
  }

  /** A copy of a queued message lands: from nothing there is one, and no other message is affected. */
  lemma AppendKeepsBooks(w: World, u: Src)
    requires DistinctSource(w.mail) && Books(w) && u in w.mail && w.destNext !in w.dest && !Has(w, u)
    requires u in w.rows && w.rows[u].status.InFlight? && (u in w.live || u in w.past)
    ensures Books(WithCopy(w, u))
  {
    var w' := WithCopy(w, u);
    ArrivalIsOne(w, u);
    forall v | v in w'.mail
      ensures AtMostOne(w', v) && Accounted(w', v) && Known(w', v)
    {
      assert AtMostOne(w, v) && Accounted(w, v) && Known(w, v);
    }
  }

  lemma AppendKeepsWork(w: World, u: Src, k: Work)
    requires DistinctSource(w.mail) && Working(w, u) && CopyAgrees(w, w.phase.c) && w.destNext !in w.dest && !Has(w, u)
    requires u in w.rows && u !in w.phase.c.filtered && u in w.phase.c.listed
    requires k.Accepted? || (k.Uncertain? && k.stored)
    ensures CopyAgrees(WithWork(WithCopy(w, u), u, k), WithWork(WithCopy(w, u), u, k).phase.c)
  {
    var w' := WithWork(WithCopy(w, u), u, k);
    ArrivalIsOne(w, u);
    assert forall v :: v in w.mail ==> (Has(w', v) <==> Has(WithCopy(w, u), v));
    forall v | v in w'.phase.c.work && v in w'.mail
      ensures WorkAgrees(w', w'.phase.c, v)
    {
      assert WorkAgrees(w, w.phase.c, v);
      assert v != u ==> w.mail[v].body != w.mail[u].body;
    }
  }

  lemma AppendKeepsOnce(w: World, u: Src, k: Work)
    requires Once(w) && Local(w, u) && WorkOn(w, u).Queued? && w.destNext !in w.dest && u in w.phase.c.listed
    requires k.Accepted? || (k.Uncertain? && k.stored)
    ensures Once(WithWork(WithCopy(w, u), u, k))
  {
    OnceParts(w);
    hide Once, Books, CopyAgrees;
    var w1 := WithCopy(w, u);
    var w' := WithWork(w1, u, k);
    AppendKeepsBooks(w, u);
    AppendKeepsWork(w, u, k);
    assert RecognisedIn(Stored(w.mail[u]), w.mail);
    hide DistinctSource, RecognisedIn;
    SameDestCopies(w1, w');
    SameBooks(w1, w');
    OnceFrom(w, w');
  }

  /* ---------- the passes ---------- */

  /** Taking mail away leaves no message with more copies, and no row naming less than there is. */
  lemma ShrinkBooks(w: World, w': World, gone: set<Uid>)
    requires Books(w) && w' == w.(dest := w.dest - gone, purged := w'.purged)
    ensures Books(w') && forall u :: u in w.mail && Has(w', u) ==> Has(w, u)
  {
    forall u | u in w.mail && Has(w', u)
      ensures Has(w, u)
    {
      var d :| d in w'.dest && w'.dest[d].body == w.mail[u].body;
      assert d in w.dest && w.dest[d].body == w.mail[u].body;
    }
    forall u | u in w'.mail
      ensures AtMostOne(w', u) && Accounted(w', u) && Known(w', u)
    {
      assert AtMostOne(w, u) && Accounted(w, u) && Known(w, u);
      if u in w.rows && w.rows[u].status.Done? && Has(w', u) {
        var d :| d in w'.dest && w'.dest[d].body == w.mail[u].body;
        assert d in w.dest && w.dest[d].body == w.mail[u].body;
        assert d == w.rows[u].dstUid;
      }
    }
  }

  /** All the work is finished when a pass runs. */
  lemma RestingIsFinished(w: World)
    requires Ledger(w) && Resting(w) && DistinctSource(w.mail)
    ensures forall u :: u in w.phase.c.work ==> w.phase.c.work[u].Finished?
  {
    LedgerHolds(w);
    forall u | u in w.phase.c.work
      ensures w.phase.c.work[u].Finished?
    {
      NoRepeats(w, w.phase.c, u);
    }
  }

  /** When all the work is finished, what it says of copies only needs there to be no more of them. */
  lemma SettledAgrees(w: World, w': World, c: Copy)
    requires CopyAgrees(w, c) && (forall u :: u in c.work ==> c.work[u].Finished?)
    requires w'.mail == w.mail && w'.live == w.live && forall u :: u in w.mail && Has(w', u) ==> Has(w, u)
    requires forall u :: u in c.work && u in c.failed && u in w.rows ==> u in w'.rows
    ensures CopyAgrees(w', c)
  {
    forall u | u in c.work && u in w'.mail
      ensures WorkAgrees(w', c, u)
    {
      assert WorkAgrees(w, c, u);
    }
  }

  lemma RestingAgrees(w: World, w': World)
    requires Once(w) && w.phase.Settling? && forall u :: u in w.phase.c.work ==> w.phase.c.work[u].Finished?
    requires w'.mail == w.mail && w'.live == w.live && forall u :: u in w.mail && Has(w', u) ==> Has(w, u)
    requires forall u :: u in w.phase.c.work && u in w.phase.c.failed && u in w.rows ==> u in w'.rows
    requires w'.phase == w.phase
    ensures PhaseAgrees(w')
  {
    OnceParts(w);
    hide Once, Books, CopyAgrees, DistinctSource;
    SettledAgrees(w, w', w.phase.c);
  }

  lemma ShrinkKeepsOnce(w: World, w': World, gone: set<Uid>)
    requires Once(w) && w.phase.Settling? && forall u :: u in w.phase.c.work ==> w.phase.c.work[u].Finished?
    requires w' == w.(dest := w.dest - gone, purged := w'.purged)
    ensures Once(w')
  {
    OnceParts(w);
    ShrinkBooks(w, w', gone);
    hide Once, Books, Has, PhaseAgrees, DistinctSource, RecognisedIn, Unmoved;
    RestingAgrees(w, w');
    OnceFrom(w, w');
  }

  /** Only the rows change, and not of any message that failed. */
  lemma RowsKeepOnce(w: World, rows: Book)
    requires Once(w) && w.phase.Settling? && forall u :: u in w.phase.c.work ==> w.phase.c.work[u].Finished?
    requires Books(w.(rows := rows))
    requires forall u :: u in w.phase.c.work && u in w.phase.c.failed && u in w.rows ==> u in rows
    ensures Once(w.(rows := rows))
  {
    var w' := w.(rows := rows);
    OnceParts(w);
    assert forall u :: u in w.mail ==> (Has(w', u) <==> Has(w, u));
    hide Once, Books, Has, PhaseAgrees, DistinctSource, RecognisedIn, Unmoved;
    RestingAgrees(w, w');
    OnceFrom(w, w');
  }

  lemma ForgetKeepsOnce(w: World, us: set<Src>)
    requires Ledger(w) && Once(w) && Resting(w) && us !! w.phase.c.listed && us <= w.rows.Keys
    ensures Once(w.(rows := w.rows - us))
  {
    OnceParts(w);
    RestingIsFinished(w);
    LedgerHolds(w);
    assert us !! w.live && w.phase.c.work.Keys <= w.phase.c.listed;
    hide Ledger, Once, CopyOk, ListOk, PhaseAgrees, DistinctSource, RecognisedIn, Unmoved;
    ForgottenBooks(w, w.(rows := w.rows - us), us);
    hide Books;
    RowsKeepOnce(w, w.rows - us);
  }

  /** A row is pointed to a message with the bytes its own message has. */
  lemma RepointMeans(w: World, u: Src, d: Uid)
    requires Ledger(w) && RowsTrue(w) && PassEnabled(w, Repoint(u, d))
    ensures u in w.mail && u in w.rows && w.rows[u].status.Done? && d != 0
    ensures d in w.dest && w.dest[d].body == w.mail[u].body
  {
    LedgerHolds(w);
    RowMeans(w, u);
  }

  lemma RepointKeepsOnce(w: World, u: Src, d: Uid)
    requires Ledger(w) && RowsTrue(w) && Once(w) && PassEnabled(w, Repoint(u, d))
    ensures Once(w.(rows := Completed(w.rows, u, w.dstValidity, d)))
  {
    RepointMeans(w, u, d);
    OnceMeans(w, u);
    OnceParts(w);
    assert Resting(w);
    RestingIsFinished(w);
    hide Ledger, RowsTrue, Once, PassEnabled, PhaseAgrees, DistinctSource, RecognisedIn, Unmoved, Resting;
    OneRowBooks(w, w.(rows := Completed(w.rows, u, w.dstValidity, d)), u);
    hide Books;
    RowsKeepOnce(w, Completed(w.rows, u, w.dstValidity, d));
  }

  lemma PassKeepsOnce(w: World, e: Event)
    requires Ledger(w) && RowsTrue(w) && Once(w) && Pass(e) && PassEnabled(w, e)
    ensures Once(PassApply(w, e))
  {
    OnceSource(w);
    hide Ledger, RowsTrue, Once, DistinctSource, Deletion.Doomed;
    if e.Expunge? {
      RestingIsFinished(w);
      ShrinkKeepsOnce(w, PassApply(w, e), e.gone);
    } else if e.RemoveRepeats? {
      RestingIsFinished(w);
      ShrinkKeepsOnce(w, PassApply(w, e), e.gone);
    } else if e.Forget? {
      ForgetKeepsOnce(w, e.us);
    } else {
      RepointKeepsOnce(w, e.u, e.d);
    }
  }

  /* ---------- one step, then whole runs ---------- */

  lemma PassingKeepsOnce(w: World, e: Event)
    requires Ledger(w) && Once(w) && Worker(e) && WorkerEnabled(w, e) && Exact(w, e)
    requires e.VanishMeta? || e.FilterOut? || e.BeginOne? || e.FetchGiveUp?
    ensures Once(WorkerApply(w, e))
  {
    StartsLocal(w, e.u);
    LocalMeans(w, e.u);
    LedgerMeans(w);
    hide Once, Ledger, Local, CopyOk, Settled, Known;
    if e.VanishMeta? {
      VanishKeepsOnce(w, e.u);
    } else if e.FilterOut? {
      FilterKeepsOnce(w, e.u);
    } else if e.BeginOne? {
      BeginKeepsOnce(w, e.u);
    } else {
      GiveUpKeepsOnce(w, e.u, "fetching failed");
    }
  }

  lemma ReadKeepsOnce(w: World, u: Src, repeats: bool)
    requires Ledger(w) && RowsTrue(w) && Once(w) && Working(w, u) && WorkOn(w, u).Begun?
    requires NoneToAdopt(w.phase.c, w.mail[u].id.digest)
    ensures Once(Fetched(w, u, repeats))
  {
    hide Once, Ledger, RowsTrue, Local, CopyOk, DistinctSource, Settled, Known, Suspect, Fetched, Has;
    StartsLocal(w, u);
    LocalMeans(w, u);
    LedgerMeans(w);
    OnceSource(w);
    NothingOffered(w, u);
    NotReadBefore(w, u);
    FetchKeepsOnce(w, u, repeats);
  }

  lemma AdoptingKeepsOnce(w: World, u: Src, d: Uid)
    requires Ledger(w) && RowsTrue(w) && Once(w) && WorkerEnabled(w, Adopt(u, d))
    ensures Once(WorkerApply(w, Adopt(u, d)))
  {
    hide Once, Ledger, RowsTrue, Local, CopyOk, DistinctSource, Settled, Known, Has;
    StartsLocal(w, u);
    LocalMeans(w, u);
    LedgerMeans(w);
    OfferedIsTheCopy(w, u, d);
    AdoptKeepsOnce(w, u, d);
  }

  lemma RetryingKeepsOnce(w: World, u: Src)
    requires Ledger(w) && RowsTrue(w) && Once(w) && WorkerEnabled(w, FetchRetry(u))
    ensures Once(WorkerApply(w, FetchRetry(u)))
  {
    hide Once, Ledger, RowsTrue, Local, CopyOk, DistinctSource, Settled, Known;
    StartsLocal(w, u);
    LocalMeans(w, u);
    NothingOffered(w, u);
    RetryKeepsOnce(w, u);
  }

  lemma ReadingKeepsOnce(w: World, e: Event)
    requires Ledger(w) && RowsTrue(w) && Once(w) && Worker(e) && WorkerEnabled(w, e)
    requires e.FetchRetry? || e.FetchBody? || e.Adopt?
    ensures Once(WorkerApply(w, e))
  {
    hide Once, Ledger, RowsTrue, Fetched;
    if e.FetchRetry? {
      hide WorkerEnabled, WorkerApply;
      RetryingKeepsOnce(w, e.u);
    } else if e.FetchBody? {
      ReadKeepsOnce(w, e.u, e.repeats);
    } else {
      hide WorkerEnabled, WorkerApply;
      AdoptingKeepsOnce(w, e.u, e.d);
    }
  }

  lemma ReaderKeepsOnce(w: World, e: Event)
    requires Ledger(w) && RowsTrue(w) && Once(w) && Reader(e) && WorkerEnabled(w, e) && Exact(w, e)
    ensures Once(WorkerApply(w, e))
  {
    hide Once, Ledger, RowsTrue, WorkerEnabled, WorkerApply, Exact;
    if e.FetchRetry? || e.FetchBody? || e.Adopt? {
      ReadingKeepsOnce(w, e);
    } else {
      PassingKeepsOnce(w, e);
    }
  }

  lemma LocalMeans(w: World, u: Src)
    requires Local(w, u)
    ensures DestSteady(w) && Known(w, u)
    ensures WorkOn(w, u).Todo? ==> !Settled(w.rows, u) && (u in w.rows ==> !Has(w, u))
    ensures Suspect(WorkOn(w, u)) ==> !Settled(w.rows, u)
    ensures !WorkOn(w, u).Finished? ==> u !in w.phase.c.filtered
    ensures WorkOn(w, u).Queued? || (WorkOn(w, u).Uncertain? && !WorkOn(w, u).stored) ==> !Has(w, u)
  {
  }

  lemma LedgerMeans(w: World)
    requires Ledger(w)
    ensures w.destNext !in w.dest && forall d :: d in w.dest ==> d != 0
    ensures w.live !! w.past && (w.fold.srcValidity == 0 <==> w.fold.dstValidity == 0)
    ensures w.phase.Copying? || w.phase.Settling? ==> CopyOk(w.mail, w.rows, w.phase.c)
    ensures w.phase.Copying? || w.phase.Settling? ==> w.phase.c.work.Keys <= w.phase.c.listed
    ensures w.phase.Recovering? ==> forall u :: u in w.phase.suspects ==> u in w.rows && w.rows[u].status.InFlight?
  {
    hide RowsPlaced, ListOk;
  }

  lemma LocatedKeepsOnce(w: World, u: Src)
    requires Once(w) && Local(w, u) && WorkOn(w, u).Uncertain? && u in w.rows && u !in w.phase.c.filtered
    requires forall d :: d in w.dest ==> d != 0
    ensures Once(Relocated(w, u))
  {
    LocateIsExact(w, u);
    var d := Locate(w.dest, w.mail[u].id);
    assert Relocated(w, u) ==
           if d == 0 then WithWork(w, u, Queued(WorkOn(w, u).attempt + 1))
           else WithWork(w, u, Finished).(rows := Completed(w.rows, u, w.fold.dstValidity, d));
    hide *;
    if d == 0 {
      MoveKeepsOnce(w, u, Queued(WorkOn(w, u).attempt + 1));
    } else {
      CompleteKeepsOnce(w, u, Placed(w.fold.dstValidity, d));
    }
  }

  lemma LandingKeepsOnce(w: World, u: Src, k: Work)
    requires Ledger(w) && Once(w) && Working(w, u) && WorkOn(w, u).Queued?
    requires k.Accepted? || k.Uncertain?
    ensures Once(WithWork(if k.Accepted? || k.stored then WithCopy(w, u) else w, u, k))
  {
    hide Once, Ledger, Local, CopyOk, Known, Settled, Suspect, Stored, WithWork, WithCopy;
    StartsLocal(w, u);
    LocalMeans(w, u);
    LedgerMeans(w);
    if k.Accepted? || k.stored {
      AppendKeepsOnce(w, u, k);
    } else {
      MoveKeepsOnce(w, u, k);
    }
  }

  lemma AppendStepKeepsOnce(w: World, e: Event)
    requires Ledger(w) && Once(w) && (e.AppendOk? || e.AppendError?) && WorkerEnabled(w, e)
    ensures Once(WorkerApply(w, e))
  {
    hide Once, Ledger, WithWork;
    var k := if e.AppendOk? then Accepted(NamedIf(w, e.uidPlus)) else Uncertain(WorkOn(w, e.u).attempt, e.stored);
    assert WorkerApply(w, e) == WithWork(if k.Accepted? || k.stored then WithCopy(w, e.u) else w, e.u, k);
    hide WorkerApply;
    LandingKeepsOnce(w, e.u, k);
  }

  /** An accepted copy is where the record will say it is. */
  lemma PlaceIsTheCopy(w: World, u: Src)
    requires Ledger(w) && RowsTrue(w) && Once(w) && Local(w, u) && WorkOn(w, u).Accepted?
    ensures var at := PlaceOf(w, u); at.uid != 0 && at.uid in w.dest && w.dest[at.uid].body == w.mail[u].body
  {
    LedgerMeans(w);
    LedgerHolds(w);
    AcceptedMeans(w, u);
    LocateIsExact(w, u);
    hide Ledger, RowsTrue, Once, Locate, CopyOk;
    if WorkOn(w, u).named.Some? {
      assert PlaceOk(w, WorkOn(w, u).named.value);
    }
  }

  lemma GivenUpKeepsOnce(w: World, u: Src)
    requires Ledger(w) && Once(w) && Working(w, u) && WorkOn(w, u).Uncertain? && u in w.rows
    requires !WorkOn(w, u).stored || u !in w.live
    ensures Once(GivenUp(w, u, "append failed"))
  {
    StartsLocal(w, u);
    LocalMeans(w, u);
    hide Once, Ledger, Local, Locate;
    GiveUpKeepsOnce(w, u, "append failed");
  }

  lemma RelocatedKeepsOnce(w: World, u: Src)
    requires Ledger(w) && Once(w) && Working(w, u) && WorkOn(w, u).Uncertain? && u in w.rows
    ensures Once(Relocated(w, u))
  {
    hide Once, Ledger, Local, CopyOk, Relocated, Known, Settled, Suspect;
    StartsLocal(w, u);
    LocalMeans(w, u);
    LedgerMeans(w);
    LocatedKeepsOnce(w, u);
  }

  lemma RecordedKeepsOnce(w: World, u: Src)
    requires Ledger(w) && RowsTrue(w) && Once(w) && Working(w, u) && WorkOn(w, u).Accepted? && u in w.rows
    ensures Once(Recorded(w, u))
  {
    hide Once, Ledger, RowsTrue, Local, PlaceOf, Known, Settled, Suspect;
    StartsLocal(w, u);
    LocalMeans(w, u);
    PlaceIsTheCopy(w, u);
    CompleteKeepsOnce(w, u, PlaceOf(w, u));
  }

  lemma RecordStepKeepsOnce(w: World, e: Event)
    requires Ledger(w) && RowsTrue(w) && Once(w) && Worker(e) && WorkerEnabled(w, e) && Exact(w, e)
    requires e.AppendGiveUp? || e.LocateAfterError? || e.RecordCopy?
    ensures Once(WorkerApply(w, e))
  {
    hide Once, Ledger, RowsTrue, GivenUp, Relocated, Recorded;
    if e.AppendGiveUp? {
      GivenUpKeepsOnce(w, e.u);
    } else if e.LocateAfterError? {
      RelocatedKeepsOnce(w, e.u);
    } else {
      RecordedKeepsOnce(w, e.u);
    }
  }

  lemma WorkersKeepOnce(w: World, e: Event)
    requires Ledger(w) && RowsTrue(w) && Once(w) && Worker(e) && WorkerEnabled(w, e) && Exact(w, e)
    ensures Once(WorkerApply(w, e))
  {
    hide Once, Ledger, RowsTrue, WorkerApply;
    if Reader(e) {
      ReaderKeepsOnce(w, e);
    } else if e.AppendOk? || e.AppendError? {
      AppendStepKeepsOnce(w, e);
    } else {
      RecordStepKeepsOnce(w, e);
    }
  }

  /**
   Every message the source holds is accounted for when a folder is finished with,
   so no copy is left to a first sync.
   */
  lemma FinishedIsAccounted(w: World, u: Src)
    requires Ledger(w) && Once(w) && w.phase.Settling? && u in w.mail && u in w.live && Has(w, u)
    ensures u in w.rows && (w.rows[u].status.Done? || w.rows[u].status.InFlight?)
  {
    OnceMeans(w, u);
    LedgerMeans(w);
    LedgerHolds(w);
    hide Ledger;
    var c := w.phase.c;
    if u in c.work {
      assert WorkAgrees(w, c, u) && WorkOk(w.mail, w.rows, c, u);
      NoRepeats(w, c, u);
    }
  }

  lemma FinishKeepsOnce(w: World, at: int, swept: bool)
    requires Ledger(w) && Once(w) && w.phase.Settling?
    ensures Once(Completion(w, at, swept))
  {
    var w' := Completion(w, at, swept);
    OnceParts(w);
    hide Once, Ledger, CopyOk, CopyAgrees;
    forall u | u in w'.mail
      ensures AtMostOne(w', u) && Accounted(w', u) && Known(w', u)
    {
      assert AtMostOne(w, u) && Accounted(w, u) && Known(w, u);
      assert Has(w', u) <==> Has(w, u);
      if u in w.live && Has(w, u) {
        FinishedIsAccounted(w, u);
      }
    }
    assert Books(w');
    hide Books;
    OnceFrom(w, w');
  }

  /** The steps of a run that change nothing but where it has got to. */
  predicate MovesOn(e: Event) {
    e.Crash? || e.SkipRun? || e.EndRecover? || e.EndCopy?
  }

  lemma MemoryStepKeepsOnce(w: World, e: Event)
    requires Once(w) && MovesOn(e) && RunEnabled(w, e)
    ensures Once(RunApply(w, e))
  {
    OnceParts(w);
    hide Once, CanSkip, Books, DistinctSource, RecognisedIn, CopyAgrees;
    match e
    case Crash => MemoryKeepsOnce(w, w.(phase := NoRun));
    case SkipRun(_, _, _, _) =>
    case EndRecover => MemoryKeepsOnce(w, w.(phase := Verifying(w.phase.since, w.phase.kept)));
    case EndCopy => EndCopyKeepsOnce(w);
  }

  lemma RunStepKeepsOnce(w: World, e: Event)
    requires Ledger(w) && RowsTrue(w) && Once(w) && !Outside(e) && !Worker(e) && !Pass(e) && RunEnabled(w, e) &&
      Exact(w, e)
    ensures Once(RunApply(w, e))
  {
    if MovesOn(e) {
      hide *;
      MemoryStepKeepsOnce(w, e);
    } else {
      hide Once, Ledger, RowsTrue, Started, Recovered, Verified, Listed, SettledOne, Completion, CanSkip;
      match e
      case StartRun => StartStepKeepsOnce(w);
      case RecoverOne(u) => RecoverStepKeepsOnce(w, u);
      case VerifyClaims(full, verify) => VerifyKeepsOnce(w, full, verify);
      case List => ListKeepsOnce(w);
      case SettleOne(u) => NothingToSettle(w, u);
      case Finish(at, swept) => FinishKeepsOnce(w, at, swept);
    }
  }

  lemma StartStepKeepsOnce(w: World)
    requires Ledger(w) && Once(w) && w.phase.NoRun?
    ensures Once(Started(w))
  {
    LedgerMeans(w);
    hide Ledger, Once, Started;
    StartKeepsOnce(w);
  }

  lemma RecoverStepKeepsOnce(w: World, u: Src)
    requires Ledger(w) && Once(w) && w.phase.Recovering? && u in w.phase.suspects && u in w.rows && u in w.mail
    ensures Once(Recovered(w, u))
  {
    LedgerMeans(w);
    hide Ledger, Once, Recovered;
    RecoverKeepsOnce(w, u);
  }

  /** Where the messages are distinct, none is noted as a repeat. */
  lemma NothingToSettle(w: World, u: Src)
    requires Ledger(w) && Once(w) && w.phase.Settling? && u in w.phase.c.work
    ensures !w.phase.c.work[u].Noted?
  {
    LedgerMeans(w);
    OnceParts(w);
    hide Once, Ledger, CopyOk, DistinctSource, Books, CopyAgrees;
    NoRepeats(w, w.phase.c, u);
  }

  lemma EndCopyKeepsOnce(w: World)
    requires Once(w) && w.phase.Copying?
    ensures Once(w.(phase := Settling(w.phase.c)))
  {
    OnceParts(w);
    var w' := w.(phase := Settling(w.phase.c));
    hide Once, Books;
    SameDestCopies(w, w');
    SameCopiesWork(w, w', w.phase.c);
    hide CopyAgrees;
    MemoryKeepsOnce(w, w');
  }

  /** Every step a history of the theorem may take keeps the copies and the books in agreement. */
  lemma StepKeepsOnce(w: World, e: Event)
    requires Ledger(w) && RowsTrue(w) && Once(w) && Enabled(w, e) && Exact(w, e)
    ensures Once(Apply(w, e))
  {
    LedgerMeans(w);
    hide Once, Ledger, RowsTrue, CopyOk, Exact;
    hide OutsideEnabled, OutsideApply, WorkerEnabled, WorkerApply, PassEnabled, PassApply, RunEnabled, RunApply;
    if Outside(e) {
      OutsideKeepsOnce(w, e);
    } else if Worker(e) {
      WorkersKeepOnce(w, e);
    } else if Pass(e) {
      PassKeepsOnce(w, e);
    } else {
      RunStepKeepsOnce(w, e);
    }
  }

  /** What the exactness of a step asks is more than its honesty: the rows name their copies by themselves. */
  lemma ExactIsHonest(w: World, e: Event)
    requires Exact(w, e) && Ledger(w) && Once(w)
    ensures Honest(w, e)
  {
    LedgerHolds(w);
    OnceParts(w);
    RecognisedIsTruthful(w.mail);
    hide Ledger, Once, CopyOk, DistinctSource, PhaseAgrees, Accounted, AtMostOne, Foreign, DoomedNow;
    assert e.DestArrives? ==> RecognisedIn(e.m, w.mail) by {
      ForeignIsRecognised(w, e);
    }
    assert e.Expunge? && w.phase.Settling? ==> UnnamedKept(w, e.listing, e.search);
  }

  lemma ForeignIsRecognised(w: World, e: Event)
    requires Exact(w, e)
    ensures e.DestArrives? ==> RecognisedIn(e.m, w.mail)
  {
  }

  lemma {:induction false} RunKeepsOnce(w: World, es: seq<Event>)
    requires Ledger(w) && RowsTrue(w) && Once(w) && ExactRun(w, es)
    ensures Run(w, es).Some?
    ensures var w' := Run(w, es).value; Ledger(w') && RowsTrue(w') && Once(w') && w'.mail == w.mail
    decreases |es|
  {
    hide Once, Ledger, RowsTrue, Exact, Honest, Enabled, Apply;
    if es != [] {
      ExactIsHonest(w, es[0]);
      StepKeepsOnce(w, es[0]);
      StepKeepsTrue(w, es[0]);
      StepKeepsLedger(w, es[0]);
      RunKeepsOnce(Apply(w, es[0]), es[1..]);
    }
  }

  /** Where the first run may start: nothing recorded, and at most one copy of anything already on the destination. */
  ghost predicate Fresh(w: World) {
    Untouched(w) && DistinctSource(w.mail) &&
    (forall d :: d in w.dest ==> RecognisedIn(w.dest[d], w.mail)) &&
    (forall u :: u in w.mail ==> AtMostOne(w, u) && (u !in w.live ==> !Has(w, u)))
  }

  lemma FreshIsOnce(w: World)
    requires Fresh(w)
    ensures Ledger(w) && RowsTrue(w) && Once(w)
  {
    RecognisedIsTruthful(w.mail);
    UntouchedIsTrue(w);
    hide RowsTrue, Ledger, DistinctSource;
  }

  /** No history of runs, crashes, lost connections and passes leaves two copies of a message on the destination. */
  lemma NeverTwice(w0: World, es: seq<Event>, u: Src)
    requires Fresh(w0) && ExactRun(w0, es) && u in w0.mail
    ensures Run(w0, es).Some? && AtMostOne(Run(w0, es).value, u)
  {
    hide Once, Ledger, RowsTrue, Fresh;
    FreshIsOnce(w0);
    RunKeepsOnce(w0, es);
    OnceMeans(Run(w0, es).value, u);
  }

  /**
   Exactly once. After any history, a run that finishes with nothing failed and
   nothing left out has one copy on the destination, recorded as done, of every
   message it listed, except those the source expunged before they were read. What
   deletion and deduplication took away in that run or before it changes nothing.
   */
  lemma ExactlyOnceAfterCompleteRun(w0: World, es: seq<Event>, at: int, swept: bool, u: Src)
    requires Fresh(w0) && ExactRun(w0, es)
    requires Run(w0, es).Some? && Enabled(Run(w0, es).value, Finish(at, swept))
    requires var c := Run(w0, es).value.phase.c; c.failed == {} && c.filtered == {} && u in c.listed
    ensures u in w0.mail
    ensures var w := Apply(Run(w0, es).value, Finish(at, swept));
            u in w.rows &&
            (if w.rows[u].status.Gone? then u in w.past
             else w.rows[u].status.Done? && ExactlyOne(w, u))
  {
    FreshIsOnce(w0);
    hide Once, RowsTrue, Ledger, Fresh, Run, Enabled, Apply;
    RunKeepsOnce(w0, es);
    FinishMeans(Run(w0, es).value, at, swept);
    FinishIsExact(Run(w0, es).value, at, swept, u);
  }

  lemma FinishIsExact(w: World, at: int, swept: bool, u: Src)
    requires Ledger(w) && RowsTrue(w) && Once(w) && w.phase.Settling?
    requires w.phase.c.failed == {} && w.phase.c.filtered == {} && u in w.phase.c.listed
    ensures u in w.mail
    ensures var w' := Completion(w, at, swept);
            u in w'.rows &&
            (if w'.rows[u].status.Gone? then u in w'.past else w'.rows[u].status.Done? && ExactlyOne(w', u))
  {
    hide Once, RowsTrue, Ledger, ExactlyOne;
    CompleteIsExact(w, u);
    SameDestExact(w, Completion(w, at, swept), u);
  }

  lemma SameDestExact(w: World, w': World, u: Src)
    requires w'.mail == w.mail && w'.dest == w.dest && u in w.mail
    ensures ExactlyOne(w', u) <==> ExactlyOne(w, u)
  {
    assert Has(w', u) <==> Has(w, u);
  }

  lemma SettledWhenComplete(w: World, u: Src)
    requires Ledger(w) && DistinctSource(w.mail) && w.phase.Settling?
    requires w.phase.c.failed == {} && w.phase.c.filtered == {} && u in w.phase.c.listed
    ensures u in w.mail && Settled(w.rows, u)
  {
    LedgerHolds(w);
    hide Ledger;
    if u in w.phase.c.work {
      assert WorkOk(w.mail, w.rows, w.phase.c, u);
      NoRepeats(w, w.phase.c, u);
    }
  }

  lemma CompleteIsExact(w: World, u: Src)
    requires Ledger(w) && RowsTrue(w) && Once(w) && w.phase.Settling?
    requires w.phase.c.failed == {} && w.phase.c.filtered == {} && u in w.phase.c.listed
    ensures u in w.mail && u in w.rows
    ensures if w.rows[u].status.Gone? then u in w.past else w.rows[u].status.Done? && ExactlyOne(w, u)
  {
    hide Once, RowsTrue, Ledger, CopyAgrees;
    OnceSource(w);
    SettledWhenComplete(w, u);
    OnceMeans(w, u);
    RowMeans(w, u);
  }

  lemma OnceSource(w: World)
    requires Once(w)
    ensures DistinctSource(w.mail)
  {
  }

  /* ---------- starting from an empty destination ---------- */

  ghost predicate OrderlyRun(w: World, es: seq<Event>)
    decreases |es|
  {
    es == [] || (Enabled(w, es[0]) && Orderly(w, es[0]) && OrderlyRun(Apply(w, es[0]), es[1..]))
  }

  /** Every copy on the destination is one the database has a row for. */
  predicate AllRecorded(w: World) {
    forall u :: u in w.mail && Has(w, u) ==> u in w.rows
  }

  /** The destination gains no copy, and no row of a message that has one is forgotten. */
  lemma SameDestRecorded(w: World, w': World)
    requires AllRecorded(w) && w'.mail == w.mail && w'.dest == w.dest
    requires forall u :: u in w.mail && u in w.rows && u !in w'.rows ==> !Has(w, u)
    ensures AllRecorded(w')
  {
    assert forall u :: u in w.mail ==> (Has(w', u) <==> Has(w, u));
  }

  lemma ForeignRecorded(w: World, m: Mail)
    requires AllRecorded(w) && Foreign(m, w.mail)
    ensures AllRecorded(w.(dest := w.dest[w.destNext := m], destNext := w.destNext + 1))
  {
    var w' := w.(dest := w.dest[w.destNext := m], destNext := w.destNext + 1);
    forall u | u in w'.mail && Has(w', u)
      ensures Has(w, u)
    {
      var d :| d in w'.dest && w'.dest[d].body == w.mail[u].body;
      assert d in w.dest && w.dest[d].body == w.mail[u].body;
    }
  }

  lemma ArrivalRecorded(w: World, u: Src)
    requires AllRecorded(w) && DistinctSource(w.mail) && u in w.mail && u in w.rows
    ensures AllRecorded(WithCopy(w, u))
  {
    var w' := WithCopy(w, u);
    forall v | v in w'.mail && Has(w', v)
      ensures v in w'.rows
    {
      var d :| d in w'.dest && w'.dest[d].body == w.mail[v].body;
      if v != u {
        assert d in w.dest && w.dest[d].body == w.mail[v].body;
        assert Has(w, v);
      }
    }
  }

  lemma ShrinkRecorded(w: World, w': World, gone: set<Uid>)
    requires Once(w) && AllRecorded(w) && w' == w.(dest := w.dest - gone, purged := w'.purged)
    ensures AllRecorded(w')
  {
    OnceParts(w);
    ShrinkBooks(w, w', gone);
  }

  lemma OutsideKeepsRecorded(w: World, e: Event)
    requires AllRecorded(w) && Outside(e) && OutsideEnabled(w, e) && Orderly(w, e)
    ensures AllRecorded(OutsideApply(w, e))
  {
    hide AllRecorded;
    if e.DestArrives? {
      ForeignRecorded(w, e.m);
    } else {
      SameDestRecorded(w, OutsideApply(w, e));
    }
  }

  lemma ArrivesQueued(w: World, e: Event)
    requires Worker(e) && WorkerEnabled(w, e) && Arrives(e)
    ensures Working(w, e.u) && WorkOn(w, e.u).Queued?
  {
  }

  lemma WorkerKeepsRows(w: World, e: Event)
    requires Ledger(w) && Worker(e) && WorkerEnabled(w, e)
    ensures w.rows.Keys <= WorkerApply(w, e).rows.Keys
  {
    hide Ledger, WorkerEnabled, WorkerApply, CopyOk;
    WorkerKeeps(w, e);
  }

  lemma WorkerKeepsRecorded(w: World, e: Event)
    requires Ledger(w) && Once(w) && AllRecorded(w) && Worker(e) && WorkerEnabled(w, e)
    ensures AllRecorded(WorkerApply(w, e))
  {
    hide Once, Ledger, AllRecorded, DistinctSource, WorkerApply, WorkerEnabled, Has;
    WorkerKeepsRows(w, e);
    if Arrives(e) {
      ArrivesQueued(w, e);
      AppendIsSuspect(w, e.u);
      OnceSource(w);
      ArrivalRecorded(w, e.u);
      SameDestRecorded(WithCopy(w, e.u), WorkerApply(w, e));
    } else {
      SameDestRecorded(w, WorkerApply(w, e));
    }
  }

  /** A row that names a copy which is not there is about a message without one. */
  lemma LostHasNone(w: World, u: Src)
    requires Once(w) && u in w.mail && u in Unhonoured(w.rows, w.dstValidity, w.dest)
    ensures !Has(w, u)
  {
    OnceMeans(w, u);
  }

  lemma VerifyKeepsRecorded(w: World, full: bool, verify: bool)
    requires Ledger(w) && Once(w) && AllRecorded(w) && w.phase.Verifying? && DestSteady(w)
    ensures AllRecorded(Verified(w, full, verify))
  {
    var w' := Verified(w, full, verify);
    forall u | u in w.mail && u in w.rows && u !in w'.rows
      ensures !Has(w, u)
    {
      LostHasNone(w, u);
    }
    SameDestRecorded(w, w');
  }

  lemma PassKeepsRecorded(w: World, e: Event)
    requires Once(w) && AllRecorded(w) && Pass(e) && PassEnabled(w, e)
    ensures AllRecorded(PassApply(w, e))
  {
    hide Once, AllRecorded, Deletion.Doomed;
    if e.Expunge? || e.RemoveRepeats? {
      ShrinkRecorded(w, PassApply(w, e), e.gone);
    } else {
      if e.Forget? {
        forall u | u in e.us && u in w.mail
          ensures !Has(w, u)
        {
          LostHasNone(w, u);
        }
      }
      SameDestRecorded(w, PassApply(w, e));
    }
  }

  lemma RunKeepsRecorded(w: World, e: Event)
    requires Ledger(w) && Once(w) && AllRecorded(w) && !Outside(e) && !Worker(e) && !Pass(e) && RunEnabled(w, e)
    ensures AllRecorded(RunApply(w, e))
  {
    OnceParts(w);
    LedgerMeans(w);
    hide Ledger, Once, AllRecorded, Locate, CopyOk, PhaseAgrees, Books, DistinctSource;
    if e.VerifyClaims? {
      VerifyKeepsRecorded(w, e.full, e.verify);
    } else if e.StartRun? {
      SameDestRecorded(w, Started(w));
    } else {
      RunKeepsRows(w, e);
      SameDestRecorded(w, RunApply(w, e));
    }
  }

  lemma RunKeepsRows(w: World, e: Event)
    requires !Outside(e) && !Worker(e) && !Pass(e) && RunEnabled(w, e) && !e.VerifyClaims? && !e.StartRun?
    ensures RunApply(w, e).dest == w.dest && w.rows.Keys <= RunApply(w, e).rows.Keys
  {
    hide Locate, Unhonoured, Unchanged, CanSkip, Resting, IndexOf, Mirrored, Synced, Settled;
  }

  lemma StepKeepsRecorded(w: World, e: Event)
    requires Ledger(w) && RowsTrue(w) && Once(w) && AllRecorded(w) && Enabled(w, e) && Orderly(w, e)
    ensures AllRecorded(Apply(w, e)) && Exact(w, e)
  {
    RecordedIsExact(w, e);
    hide Ledger, RowsTrue, Once, Orderly, AllRecorded, Exact;
    hide OutsideEnabled, OutsideApply, WorkerEnabled, WorkerApply, PassEnabled, PassApply, RunEnabled, RunApply;
    if Outside(e) {
      OutsideKeepsRecorded(w, e);
    } else if Worker(e) {
      WorkerKeepsRecorded(w, e);
    } else if Pass(e) {
      PassKeepsRecorded(w, e);
    } else {
      RunKeepsRecorded(w, e);
    }
  }

  lemma RecordedIsExact(w: World, e: Event)
    requires AllRecorded(w) && Orderly(w, e)
    ensures Exact(w, e)
  {
    hide Orderly;
  }

  lemma {:induction false} OrderlyIsExact(w: World, es: seq<Event>)
    requires Ledger(w) && RowsTrue(w) && Once(w) && AllRecorded(w) && OrderlyRun(w, es)
    ensures ExactRun(w, es)
    decreases |es|
  {
    hide Once, Ledger, RowsTrue, AllRecorded, Orderly, Exact, Honest, Enabled, Apply;
    if es != [] {
      StepKeepsRecorded(w, es[0]);
      ExactIsHonest(w, es[0]);
      StepKeepsOnce(w, es[0]);
      StepKeepsTrue(w, es[0]);
      StepKeepsLedger(w, es[0]);
      OrderlyIsExact(Apply(w, es[0]), es[1..]);
    }
  }

  /**
   From an empty database and a destination with none of the source's mail, the
   selection may leave out what it likes on any run: there are never two copies.
   */
  lemma NeverTwiceFromEmpty(w0: World, es: seq<Event>, u: Src)
    requires Fresh(w0) && (forall v :: v in w0.mail ==> !Has(w0, v)) && OrderlyRun(w0, es) && u in w0.mail
    ensures ExactRun(w0, es) && Run(w0, es).Some? && AtMostOne(Run(w0, es).value, u)
  {
    hide Once, Ledger, RowsTrue, Fresh, OrderlyRun, ExactRun, Run;
    FreshIsOnce(w0);
    OrderlyIsExact(w0, es);
    NeverTwice(w0, es, u);
  }
}
