/**
 What every step of copying keeps, whatever the network and the servers do: the
 database never says less than a crash could make true. No hypothesis about
 identities, searches or outcomes is made here.
 */
module CopyLedger {
  import opened StateStore
  import opened CopyProtocol
  import Deletion

  /** A message whose body was read first under its hash, and which is on its way to the destination or past it. */
  predicate Advanced(rows: Book, c: Copy, v: Src) {
    v in c.work &&
    (c.work[v].Queued? || c.work[v].Uncertain? || c.work[v].Accepted? ||
     (c.work[v].Finished? && (v in c.failed || (v in rows && rows[v].status.Done?))))
  }

  /** Whether the work on a message has committed its row as in flight and not yet settled it. */
  predicate Suspect(k: Work) {
    k.Begun? || k.Queued? || k.Uncertain? || k.Accepted? || k.Noted? || k.Unsettled?
  }

  predicate WorkOk(mail: map<Src, Mail>, rows: Book, c: Copy, u: Src)
    requires u in c.work && c.work.Keys <= mail.Keys
  {
    var k := c.work[u];
    (k.Todo? ==> !Settled(rows, u)) &&
    (Suspect(k) ==> u in rows && rows[u].status.InFlight? && rows[u].detail == DetailOf(mail[u])) &&
    (k.Finished? ==> Settled(rows, u) || u in c.failed || u in c.filtered) &&
    (k.Noted? || k.Unsettled? ==> Advanced(rows, c, k.survivor) && mail[k.survivor].body == mail[u].body)
  }

  predicate CopyOk(mail: map<Src, Mail>, rows: Book, c: Copy) {
    c.work.Keys <= c.listed && c.listed <= mail.Keys &&
    c.failed <= c.work.Keys && c.filtered <= c.work.Keys &&
    (forall u :: u in c.work ==> WorkOk(mail, rows, c, u)) &&
    (forall u :: u in c.listed && u !in c.work ==> Settled(rows, u)) &&
    (forall b :: b in c.bodies ==> Advanced(rows, c, c.bodies[b]) && mail[c.bodies[b]].body == b)
  }

  /** The run a phase belongs to read this sequence when it selected the source. */
  function SinceOf(phase: Phase): nat {
    match phase
    case NoRun => 0
    case Recovering(since, _, _) => since
    case Verifying(since, _) => since
    case Listing(since, _) => since
    case Copying(c) => c.since
    case Settling(c) => c.since
  }

  /**
   Where a copy is said to be: under no numbering the run cannot have met, and under the present one at a
   number given out.
   */
  predicate PlaceOk(w: World, at: Placed) {
    w.fold.dstValidity <= at.validity <= w.dstValidity && (at.validity == w.dstValidity ==> at.uid < w.destNext)
  }

  /** What a run that has made its list knows of its messages' numbers and of how its list relates to the source. */
  predicate ListOk(w: World, c: Copy) {
    (forall u :: u in c.listed ==> u.validity == w.fold.srcValidity && (u in w.live || u in w.past)) &&
    (forall u :: u in w.rows && u in w.live ==> u in c.listed) &&
    (SourceSteady(w) && c.since == w.modseq ==> c.listed == w.live) &&
    0 !in c.index && (DestSteady(w) ==> forall d :: d in c.index ==> d < w.destNext) &&
    (forall u :: u in c.work && c.work[u].Accepted? && c.work[u].named.Some? ==> PlaceOk(w, c.work[u].named.value))
  }

  predicate PhaseOk(w: World) {
    match w.phase
    case NoRun => true
    case Recovering(_, _, suspects) => suspects <= InFlightUids(w.rows)
    case Verifying(_, _) => true
    case Listing(_, _) => true
    case Copying(c) => CopyOk(w.mail, w.rows, c) && ListOk(w, c)
    case Settling(c) =>
      CopyOk(w.mail, w.rows, c) && ListOk(w, c) &&
      forall u :: u in c.work ==> c.work[u].Finished? || c.work[u].Noted? || c.work[u].Unsettled?
  }

  /** The numberings only rise; the folder row holds those of the last run, and all its rows are under them. */
  predicate Numbered(w: World) {
    1 <= w.srcValidity && 1 <= w.dstValidity &&
    w.fold.srcValidity <= w.srcValidity && w.fold.dstValidity <= w.dstValidity &&
    (w.fold.srcValidity == 0 <==> w.fold.dstValidity == 0) &&
    (w.fold.srcValidity == 0 ==> w.rows == map[] && w.fold.highestModSeq == 0 && w.phase.NoRun?) &&
    (forall u :: u in w.live ==> u.validity == w.srcValidity) &&
    (forall u :: u in w.past ==> u.validity <= w.srcValidity) &&
    (forall u :: u in w.rows ==> u.validity == w.fold.srcValidity)
  }

  /** The rows are about messages the source holds or held, and say no more of a copy's place than can be known. */
  predicate RowsPlaced(w: World) {
    forall u :: u in w.rows ==>
      (u in w.live || u in w.past) &&
      w.rows[u].dstValidity <= w.dstValidity &&
      (w.rows[u].dstValidity == w.dstValidity ==> w.rows[u].dstUid < w.destNext) &&
      (w.rows[u].status.Done? ==> w.fold.dstValidity <= w.rows[u].dstValidity)
  }

  predicate Bounded(w: World) {
    w.live <= w.mail.Keys && w.live !! w.past &&
    w.rows.Keys <= w.mail.Keys && w.dropped <= w.mail.Keys &&
    w.destNext >= 1 && (forall d :: d in w.dest ==> 1 <= d < w.destNext) &&
    (w.phase.NoRun? || w.fold.highestModSeq <= SinceOf(w.phase)) &&
    (SourceSteady(w) ==> w.fold.highestModSeq <= w.modseq && SinceOf(w.phase) <= w.modseq)
  }

  predicate Ledger(w: World) {
    Bounded(w) && Numbered(w) && RowsPlaced(w) && PhaseOk(w)
  }

  /** One worker's step on `u` keeps the picture of the whole folder if it keeps the part about `u`. */
  lemma WorkerStepKeeps(mail: map<Src, Mail>, rows: Book, c: Copy, rows': Book, c': Copy, u: Src)
    requires CopyOk(mail, rows, c) && u in c.work
    requires rows' == rows || (u in rows' && rows' == rows[u := rows'[u]])
    requires u in c'.work && c'.work == c.work[u := c'.work[u]] && c'.listed == c.listed
    requires c.failed <= c'.failed <= c.failed + {u} && c.filtered <= c'.filtered <= c.filtered + {u}
    requires c'.bodies == c.bodies || (c'.bodies == c.bodies[mail[u].body := u] && Advanced(rows', c', u))
    requires Advanced(rows, c, u) ==> Advanced(rows', c', u)
    requires WorkOk(mail, rows', c', u)
    ensures CopyOk(mail, rows', c')
  {
    forall v | Advanced(rows, c, v)
      ensures Advanced(rows', c', v)
    {
    }
    forall v | v in c'.work
      ensures WorkOk(mail, rows', c', v)
    {
      if v != u {
        assert WorkOk(mail, rows, c, v);
      }
    }
  }

  /** The source moves on: it holds other messages, or is numbered anew, and has not forgotten what it held. */
  ghost predicate SourceMoves(w: World, w': World) {
    w' == w.(srcValidity := w'.srcValidity, live := w'.live, past := w'.past, modseq := w'.modseq) &&
    w.srcValidity <= w'.srcValidity && w'.live <= w.mail.Keys && w'.live !! w'.past &&
    (forall u :: u in w'.live ==> u.validity == w'.srcValidity) &&
    (forall u :: u in w'.past ==> u.validity <= w'.srcValidity) &&
    w.live + w.past <= w'.live + w'.past &&
    (forall u :: u in w.rows && u in w'.live ==> u in w.live) &&
    (w'.srcValidity == w.srcValidity ==> w.modseq < w'.modseq)
  }

  lemma SourceEventMoves(w: World, e: Event)
    requires Bounded(w) && Numbered(w) && Outside(e) && OutsideEnabled(w, e) && w.rows.Keys <= w.live + w.past
    requires e.SourceArrives? || e.SourceExpunges? || e.SourceTouched? || e.SourceRenumbered?
    ensures SourceMoves(w, OutsideApply(w, e))
  {
  }

  lemma SourceKeepsLedger(w: World, w': World)
    requires Ledger(w) && SourceMoves(w, w')
    ensures Ledger(w')
  {
    hide CopyOk;
    SourceKeepsBounds(w, w');
    if w.phase.Copying? || w.phase.Settling? {
      SourceKeepsList(w, w', w.phase.c);
    }
    hide Bounded, Numbered, RowsPlaced, SourceMoves, ListOk;
  }

  lemma SourceKeepsBounds(w: World, w': World)
    requires Bounded(w) && Numbered(w) && RowsPlaced(w) && SourceMoves(w, w')
    ensures Bounded(w') && Numbered(w') && RowsPlaced(w')
  {
  }

  lemma SourceKeepsList(w: World, w': World, c: Copy)
    requires Numbered(w) && ListOk(w, c) && SourceMoves(w, w') && (SourceSteady(w) ==> c.since <= w.modseq)
    ensures ListOk(w', c)
  {
  }

  /** The destination moves on, and gives out no number twice under one numbering. */
  ghost predicate DestMoves(w: World, w': World) {
    w' == w.(dstValidity := w'.dstValidity, dest := w'.dest, destNext := w'.destNext, purged := w'.purged) &&
    w.dstValidity <= w'.dstValidity && w'.destNext >= 1 && (forall d :: d in w'.dest ==> 1 <= d < w'.destNext) &&
    (w'.dstValidity == w.dstValidity ==> w.destNext <= w'.destNext)
  }

  lemma DestKeepsLedger(w: World, w': World)
    requires Ledger(w) && DestMoves(w, w')
    ensures Ledger(w')
  {
    hide CopyOk;
    if w.phase.Copying? || w.phase.Settling? {
      DestKeepsList(w, w', w.phase.c);
    }
    hide ListOk;
  }

  lemma DestKeepsList(w: World, w': World, c: Copy)
    requires w.fold.dstValidity <= w.dstValidity && ListOk(w, c) && DestMoves(w, w')
    ensures ListOk(w', c)
  {
  }

  lemma DestEventMoves(w: World, e: Event)
    requires Bounded(w) && Outside(e) && OutsideEnabled(w, e) && (e.DestArrives? || e.DestDeletes? || e.DestRenumbered?)
    ensures DestMoves(w, OutsideApply(w, e))
  {
  }

  lemma LedgerParts(w: World)
    requires Ledger(w)
    ensures Bounded(w) && Numbered(w) && RowsPlaced(w) && w.rows.Keys <= w.live + w.past
  {
    hide Bounded, Numbered, PhaseOk;
  }

  lemma OutsideKeepsLedger(w: World, e: Event)
    requires Ledger(w) && Outside(e) && OutsideEnabled(w, e)
    ensures Ledger(OutsideApply(w, e))
  {
    LedgerParts(w);
    hide Ledger, Bounded, Numbered, OutsideEnabled, OutsideApply, SourceMoves, DestMoves;
    if e.DestArrives? || e.DestDeletes? || e.DestRenumbered? {
      DestEventMoves(w, e);
      DestKeepsLedger(w, OutsideApply(w, e));
    } else {
      SourceEventMoves(w, e);
      SourceKeepsLedger(w, OutsideApply(w, e));
    }
  }

  /** Forgetting what a run had in memory, or moving on between its parts, changes nothing that is kept. */
  lemma MemoryKeepsLedger(w: World, phase: Phase)
    requires Ledger(w) && !w.phase.NoRun?
    requires phase == NoRun || (phase.Verifying? && phase.since == SinceOf(w.phase))
    ensures Ledger(w.(phase := phase))
  {
    hide CopyOk, ListOk;
  }

  lemma SuspectLeftKeepsLedger(w: World, u: Src)
    requires Ledger(w) && w.phase.Recovering?
    ensures Ledger(w.(phase := w.phase.(suspects := w.phase.suspects - {u})))
  {
  }

  lemma FenceKeepsLedger(w: World)
    requires Ledger(w) && w.phase.NoRun?
    ensures Ledger(Started(w)) && SourceSteady(Started(w)) && DestSteady(Started(w))
  {
  }

  /** Settling one suspect's row, or leaving it, keeps the ledger. */
  lemma SuspectKeepsLedger(w: World, u: Src, rows: Book)
    requires Ledger(w) && w.phase.Recovering? && u in w.rows
    requires rows == w.rows ||
             (u in rows && rows == w.rows[u := rows[u]] &&
              (rows[u].status.Done? ==> rows[u].dstValidity == w.fold.dstValidity && rows[u].dstUid < w.destNext) &&
              (!rows[u].status.Done? ==>
                 rows[u].dstValidity == w.rows[u].dstValidity && rows[u].dstUid == w.rows[u].dstUid))
    ensures Ledger(w.(phase := w.phase.(suspects := w.phase.suspects - {u}), rows := rows))
  {
    assert rows.Keys == w.rows.Keys;
    assert w.phase.suspects - {u} <= InFlightUids(rows);
  }

  /** Recovery decides one row, and leaves it in flight or says that it is copied or failed. */
  lemma RecoveredFrame(w: World, u: Src)
    requires w.phase.Recovering? && u in w.rows && u in w.mail
    ensures var w' := Recovered(w, u);
            w' == w.(rows := w'.rows, phase := w.phase.(suspects := w.phase.suspects - {u})) &&
            w'.rows.Keys == w.rows.Keys && (forall v :: v in w.rows && v != u ==> w'.rows[v] == w.rows[v]) &&
            (w'.rows[u] == w.rows[u] || w'.rows[u].status.Done? || w'.rows[u].status.Failed?)
  {
    hide Locate;
  }

  lemma RecoverKeepsLedger(w: World, u: Src)
    requires Ledger(w) && w.phase.Recovering? && u in w.rows && u in w.mail && DestSteady(w)
    ensures Ledger(Recovered(w, u))
  {
    assert Locate(w.dest, w.mail[u].id) < w.destNext;
    hide Locate, Ledger;
    SuspectKeepsLedger(w, u, Recovered(w, u).rows);
  }

  lemma VerifyKeepsLedger(w: World, full: bool, verify: bool)
    requires Ledger(w) && w.phase.Verifying?
    ensures Ledger(Verified(w, full, verify))
  {
    hide ClaimsChecked;
    assert Unhonoured(w.rows, w.fold.dstValidity, w.dest) <= w.rows.Keys;
    var w' := Verified(w, full, verify);
    assert w' == w.(rows := w'.rows, phase := Listing(w.phase.since, w.phase.kept), dropped := w'.dropped);
    assert w'.rows.Keys <= w.rows.Keys && (forall u :: u in w'.rows ==> w'.rows[u] == w.rows[u]);
    assert w'.dropped <= w.dropped + w.rows.Keys;
    hide Verified, Unhonoured, Mirrored;
  }

  lemma ListKeepsLedger(w: World)
    requires Ledger(w) && w.phase.Listing? && SourceSteady(w) && DestSteady(w)
    ensures Ledger(Listed(w))
  {
    hide Claimed;
  }

  /** A row written says of its copy's place what it said before, or what can be known now. */
  predicate PlacedLike(w: World, row: Row, u: Src) {
    if row.status.Done? then PlaceOk(w, Placed(row.dstValidity, row.dstUid))
    else if u in w.rows then row.dstValidity == w.rows[u].dstValidity && row.dstUid == w.rows[u].dstUid
    else row.dstValidity == 0 && row.dstUid == 0
  }

  /** One row at most is written, about a message the run has listed. */
  predicate OneRow(w: World, rows: Book, u: Src) {
    rows == w.rows || (u in rows && rows == w.rows[u := rows[u]] && PlacedLike(w, rows[u], u))
  }

  /** What a worker's step on one message may touch. */
  ghost predicate WorkerShape(w: World, u: Src, w': World) {
    w.phase.Copying? && w'.phase.Copying? &&
    w' == w.(rows := w'.rows, phase := w'.phase, dest := w'.dest, destNext := w'.destNext) &&
    w'.destNext >= w.destNext && (forall d :: d in w'.dest ==> 1 <= d < w'.destNext) &&
    (forall d :: d in w.dest ==> d in w'.dest && w'.dest[d] == w.dest[d]) &&
    w'.phase.c.since == w.phase.c.since && w'.phase.c.listed == w.phase.c.listed &&
    w'.phase.c.index.Keys <= w.phase.c.index.Keys && OneRow(w, w'.rows, u) &&
    u in w.phase.c.work && u in w'.phase.c.work &&
    w'.phase.c.work == w.phase.c.work[u := w'.phase.c.work[u]] &&
    (w'.phase.c.work[u].Accepted? && w'.phase.c.work[u].named.Some? ==>
       PlaceOk(w', w'.phase.c.work[u].named.value))
  }

  ghost predicate WorkerStep(w: World, u: Src, w': World) {
    WorkerShape(w, u, w') && CopyOk(w'.mail, w'.rows, w'.phase.c)
  }

  lemma ReaderShape(w: World, e: Event)
    requires Bounded(w) && Numbered(w) && Worker(e) && WorkerEnabled(w, e)
    requires e.VanishMeta? || e.FilterOut? || e.BeginOne? || e.FetchRetry?
    ensures WorkerShape(w, e.u, WorkerApply(w, e))
  {
  }

  lemma FetchShape(w: World, e: Event)
    requires Bounded(w) && Numbered(w) && e.FetchBody? && WorkerEnabled(w, e)
    ensures WorkerShape(w, e.u, WorkerApply(w, e))
  {
  }

  lemma GiverShape(w: World, e: Event)
    requires Bounded(w) && Numbered(w) && Worker(e) && WorkerEnabled(w, e) && (e.FetchGiveUp? || e.AppendGiveUp?)
    ensures WorkerShape(w, e.u, WorkerApply(w, e))
  {
  }

  lemma AdoptShape(w: World, e: Event)
    requires Bounded(w) && Numbered(w) && w.phase.Copying? && ListOk(w, w.phase.c)
    requires e.Adopt? && WorkerEnabled(w, e)
    ensures WorkerShape(w, e.u, WorkerApply(w, e))
  {
  }

  lemma AppendShape(w: World, e: Event)
    requires Bounded(w) && Numbered(w) && Worker(e) && WorkerEnabled(w, e)
    requires e.AppendOk? || e.AppendError? || e.LocateBlind?
    ensures WorkerShape(w, e.u, WorkerApply(w, e))
  {
  }

  lemma LocateShape(w: World, e: Event)
    requires Bounded(w) && Numbered(w) && w.phase.Copying? && ListOk(w, w.phase.c) && Worker(e) && WorkerEnabled(w, e)
    requires e.LocateAfterError? || e.RecordCopy? || e.RecordBlind?
    ensures WorkerShape(w, e.u, WorkerApply(w, e))
  {
    assert Locate(w.dest, w.mail[e.u].id) < w.destNext;
    hide Locate;
  }

  lemma ShapeOf(w: World, e: Event)
    requires Bounded(w) && Numbered(w) && w.phase.Copying? && ListOk(w, w.phase.c) && Worker(e) && WorkerEnabled(w, e)
    ensures WorkerShape(w, e.u, WorkerApply(w, e))
  {
    hide Bounded, Numbered, ListOk, WorkerEnabled, WorkerApply, WorkerShape;
    if e.Adopt? {
      AdoptShape(w, e);
    } else if e.FetchGiveUp? || e.AppendGiveUp? {
      GiverShape(w, e);
    } else if e.FetchBody? {
      FetchShape(w, e);
    } else if Reader(e) {
      ReaderShape(w, e);
    } else if e.AppendOk? || e.AppendError? || e.LocateBlind? {
      AppendShape(w, e);
    } else {
      LocateShape(w, e);
    }
  }

  lemma PassOverKeeps(w: World, e: Event)
    requires w.phase.Copying? && CopyOk(w.mail, w.rows, w.phase.c) && Worker(e) && WorkerEnabled(w, e)
    requires e.VanishMeta? || e.FilterOut? || e.BeginOne? || e.FetchRetry?
    ensures CopyOk(w.mail, WorkerApply(w, e).rows, WorkerApply(w, e).phase.c)
  {
    var w' := WorkerApply(w, e);
    assert WorkOk(w.mail, w.rows, w.phase.c, e.u);
    WorkerStepKeeps(w.mail, w.rows, w.phase.c, w'.rows, w'.phase.c, e.u);
  }

  lemma SettlingWorkKeeps(w: World, e: Event)
    requires w.phase.Copying? && CopyOk(w.mail, w.rows, w.phase.c) && Worker(e) && WorkerEnabled(w, e)
    requires e.FetchGiveUp? || e.AppendGiveUp? || e.Adopt?
    ensures CopyOk(w.mail, WorkerApply(w, e).rows, WorkerApply(w, e).phase.c)
  {
    var w' := WorkerApply(w, e);
    assert WorkOk(w.mail, w.rows, w.phase.c, e.u);
    WorkerStepKeeps(w.mail, w.rows, w.phase.c, w'.rows, w'.phase.c, e.u);
  }

  lemma FetchedKeepsCopy(w: World, u: Src, repeats: bool)
    requires Working(w, u) && CopyOk(w.mail, w.rows, w.phase.c) && WorkOn(w, u).Begun?
    ensures CopyOk(w.mail, Fetched(w, u, repeats).rows, Fetched(w, u, repeats).phase.c)
  {
    var w' := Fetched(w, u, repeats);
    var c, c' := w.phase.c, w'.phase.c;
    assert WorkOk(w.mail, w.rows, c, u);
    if u !in w.live {
      assert w'.rows[u].status.Gone?;
    } else if !repeats && w.mail[u].body in c.bodies {
      var v := c.bodies[w.mail[u].body];
      assert v != u && Advanced(w.rows, c', v);
    }
    WorkerStepKeeps(w.mail, w.rows, c, w'.rows, c', u);
  }

  lemma AppendKeeps(w: World, e: Event)
    requires w.phase.Copying? && CopyOk(w.mail, w.rows, w.phase.c) && Worker(e) && WorkerEnabled(w, e)
    requires e.AppendOk? || e.AppendError? || e.LocateBlind?
    ensures CopyOk(w.mail, WorkerApply(w, e).rows, WorkerApply(w, e).phase.c)
  {
    var w' := WorkerApply(w, e);
    assert WorkOk(w.mail, w.rows, w.phase.c, e.u);
    WorkerStepKeeps(w.mail, w.rows, w.phase.c, w'.rows, w'.phase.c, e.u);
  }

  lemma RecordKeeps(w: World, e: Event)
    requires w.phase.Copying? && CopyOk(w.mail, w.rows, w.phase.c) && Worker(e) && WorkerEnabled(w, e)
    requires e.LocateAfterError? || e.RecordCopy? || e.RecordBlind?
    ensures CopyOk(w.mail, WorkerApply(w, e).rows, WorkerApply(w, e).phase.c)
  {
    hide Locate;
    var w' := WorkerApply(w, e);
    assert WorkOk(w.mail, w.rows, w.phase.c, e.u);
    assert w'.phase == Copying(w'.phase.c) && w'.phase.c == w.phase.c.(work := w'.phase.c.work);
    assert w'.rows == w.rows || (w'.rows == w.rows[e.u := w'.rows[e.u]] && w'.rows[e.u].status.Done?);
    hide WorkerApply;
    WorkerStepKeeps(w.mail, w.rows, w.phase.c, w'.rows, w'.phase.c, e.u);
  }

  lemma WorkKeeps(w: World, e: Event)
    requires w.phase.Copying? && CopyOk(w.mail, w.rows, w.phase.c) && Worker(e) && WorkerEnabled(w, e)
    ensures CopyOk(w.mail, WorkerApply(w, e).rows, WorkerApply(w, e).phase.c)
  {
    if e.FetchBody? {
      FetchedKeepsCopy(w, e.u, e.repeats);
    } else {
      hide CopyOk, WorkerEnabled, WorkerApply;
      if e.FetchGiveUp? || e.AppendGiveUp? || e.Adopt? {
        SettlingWorkKeeps(w, e);
      } else if Reader(e) {
        PassOverKeeps(w, e);
      } else if e.AppendOk? || e.AppendError? || e.LocateBlind? {
        AppendKeeps(w, e);
      } else {
        RecordKeeps(w, e);
      }
    }
  }

  lemma WorkerKeeps(w: World, e: Event)
    requires Ledger(w) && Worker(e) && WorkerEnabled(w, e)
    ensures WorkerStep(w, e.u, WorkerApply(w, e))
  {
    assert w.phase.Copying?;
    hide WorkerEnabled, WorkerApply, WorkerShape, CopyOk, ListOk, Bounded, Numbered, RowsPlaced;
    ShapeOf(w, e);
    WorkKeeps(w, e);
  }

  lemma WorkIsListed(w: World, u: Src)
    requires w.phase.Copying? && CopyOk(w.mail, w.rows, w.phase.c) && u in w.phase.c.work
    ensures u in w.phase.c.listed && u in w.mail
  {
  }

  lemma WorkerStepLedger(w: World, u: Src, w': World)
    requires Ledger(w) && WorkerStep(w, u, w')
    ensures Ledger(w')
  {
    WorkIsListed(w, u);
    hide CopyOk;
    WorkerBounds(w, u, w');
    WorkerPlaces(w, u, w');
    WorkerList(w, u, w');
    hide Bounded, Numbered, RowsPlaced, WorkerShape, ListOk;
  }

  lemma WorkerBounds(w: World, u: Src, w': World)
    requires Bounded(w) && Numbered(w) && WorkerShape(w, u, w')
    requires ListOk(w, w.phase.c) && u in w.phase.c.listed && u in w.mail
    ensures Bounded(w') && Numbered(w')
  {
  }

  lemma WorkerPlaces(w: World, u: Src, w': World)
    requires Numbered(w) && RowsPlaced(w) && WorkerShape(w, u, w')
    requires ListOk(w, w.phase.c) && u in w.phase.c.listed
    ensures RowsPlaced(w')
  {
  }

  lemma WorkerList(w: World, u: Src, w': World)
    requires w.fold.dstValidity <= w.dstValidity && WorkerShape(w, u, w')
    requires ListOk(w, w.phase.c) && u in w.phase.c.listed
    ensures ListOk(w', w'.phase.c)
  {
    hide PlacedLike;
    var c, c' := w.phase.c, w'.phase.c;
    forall v | v in c'.work && c'.work[v].Accepted? && c'.work[v].named.Some?
      ensures PlaceOk(w', c'.work[v].named.value)
    {
      assert v != u ==> PlaceOk(w, c.work[v].named.value);
    }
    assert forall v :: v in w'.rows ==> v in w.rows || v == u;
    assert forall d :: d in c'.index ==> d in c.index;
  }

  lemma SettledKeepsCopy(w: World, u: Src)
    requires w.phase.Settling? && CopyOk(w.mail, w.rows, w.phase.c)
    requires u in w.phase.c.work && w.phase.c.work[u].Noted? && u in w.rows
    ensures CopyOk(w.mail, SettledOne(w, u).rows, SettledOne(w, u).phase.c)
  {
    var w' := SettledOne(w, u);
    assert WorkOk(w.mail, w.rows, w.phase.c, u);
    WorkerStepKeeps(w.mail, w.rows, w.phase.c, w'.rows, w'.phase.c, u);
  }

  /** One row about a listed message changes, and some of the work is over. */
  lemma RowKeepsLedger(w: World, w': World, u: Src)
    requires Ledger(w) && w.phase.Settling? && w'.phase.Settling? && u in w.phase.c.listed && u in w.mail
    requires w' == w.(rows := w'.rows, phase := w'.phase) && OneRow(w, w'.rows, u)
    requires w'.phase.c == w.phase.c.(work := w'.phase.c.work)
    requires forall v :: v in w'.phase.c.work ==>
               w'.phase.c.work[v].Finished? || w'.phase.c.work[v].Noted? || w'.phase.c.work[v].Unsettled?
    requires CopyOk(w'.mail, w'.rows, w'.phase.c)
    ensures Ledger(w')
  {
    hide CopyOk;
    assert Bounded(w') && Numbered(w');
    assert RowsPlaced(w');
    assert ListOk(w', w'.phase.c);
    hide Bounded, Numbered, RowsPlaced, ListOk, OneRow;
  }

  lemma SettleKeepsLedger(w: World, u: Src)
    requires Ledger(w) && w.phase.Settling? && u in w.phase.c.work && w.phase.c.work[u].Noted? && u in w.rows
    ensures Ledger(SettledOne(w, u))
  {
    SettledKeepsCopy(w, u);
    var w' := SettledOne(w, u);
    assert u in w.phase.c.listed && u in w.mail;
    hide CopyOk;
    assert w' == w.(rows := w'.rows, phase := w'.phase);
    assert w'.phase.c.work == w.phase.c.work[u := w'.phase.c.work[u]];
    assert OneRow(w, w'.rows, u);
    hide OneRow, Bounded, Numbered, RowsPlaced, ListOk;
    RowKeepsLedger(w, w', u);
  }

  lemma EndKeepsLedger(w: World)
    requires Ledger(w) && w.phase.Copying?
    requires forall u :: u in w.phase.c.work ==> w.phase.c.work[u].Finished? || w.phase.c.work[u].Noted?
    ensures Ledger(w.(phase := Settling(w.phase.c)))
  {
    hide CopyOk, ListOk;
    assert ListOk(w.(phase := Settling(w.phase.c)),
      w.phase.c) by { ListFrame(w, w.(phase := Settling(w.phase.c)), w.phase.c); }
  }

  lemma ListFrame(w: World, w': World, c: Copy)
    requires ListOk(w, c) && w' == w.(phase := w'.phase)
    ensures ListOk(w', c)
  {
  }

  lemma FinishKeepsLedger(w: World, at: int, swept: bool)
    requires Ledger(w) && w.phase.Settling?
    ensures Ledger(Completion(w, at, swept))
  {
    hide CopyOk, ListOk;
  }

  /**
   A pass settles no work: it takes messages off the destination, or rows of messages the run did not list, or
   moves a name.
   */
  lemma PassKeepsLedger(w: World, e: Event)
    requires Ledger(w) && Pass(e) && PassEnabled(w, e)
    ensures Ledger(PassApply(w, e))
  {
    hide Ledger, Deletion.Doomed, DestMoves;
    if e.Expunge? {
      ShrinkMoves(w, e.gone, true);
      DestKeepsLedger(w, w.(dest := w.dest - e.gone, purged := true));
    } else if e.RemoveRepeats? {
      ShrinkMoves(w, e.gone, w.purged);
      DestKeepsLedger(w, w.(dest := w.dest - e.gone));
    } else if e.Forget? {
      ForgetKeepsLedger(w, e.us);
    } else {
      RepointKeepsLedger(w, e.u, e.d);
    }
  }

  lemma ShrinkMoves(w: World, gone: set<Uid>, purged: bool)
    requires Ledger(w)
    ensures DestMoves(w, w.(dest := w.dest - gone, purged := purged))
  {
    hide PhaseOk;
  }

  lemma ForgetKeepsLedger(w: World, us: set<Src>)
    requires Ledger(w) && w.phase.Settling? && us !! w.phase.c.listed
    ensures Ledger(w.(rows := w.rows - us))
  {
    RowsKeepCopy(w.mail, w.rows, w.rows - us, w.phase.c);
    hide CopyOk;
  }

  lemma RepointKeepsLedger(w: World, u: Src, d: Uid)
    requires Ledger(w) && w.phase.Settling? && DestSteady(w)
    requires u in w.rows && w.rows[u].status.Done? && d in w.dest
    ensures Ledger(w.(rows := Completed(w.rows, u, w.dstValidity, d)))
  {
    RowsKeepCopy(w.mail, w.rows, Completed(w.rows, u, w.dstValidity, d), w.phase.c);
    hide CopyOk;
  }

  /** What the rows say of the listed messages' states is all the picture of the folder depends on. */
  lemma RowsKeepCopy(mail: map<Src, Mail>, rows: Book, rows': Book, c: Copy)
    requires CopyOk(mail, rows, c)
    requires forall u :: u in c.listed ==> (u in rows <==> u in rows')
    requires forall u :: u in c.listed && u in rows ==>
               rows'[u].status == rows[u].status && rows'[u].detail == rows[u].detail
    ensures CopyOk(mail, rows', c)
  {
    forall v | Advanced(rows, c, v)
      ensures Advanced(rows', c, v)
    {
    }
    forall v | v in c.work
      ensures WorkOk(mail, rows', c, v)
    {
      assert WorkOk(mail, rows, c, v);
    }
  }

  lemma WorkerKeepsLedger(w: World, e: Event)
    requires Ledger(w) && Worker(e) && WorkerEnabled(w, e)
    ensures Ledger(WorkerApply(w, e))
  {
    hide Ledger, WorkerStep, WorkerEnabled, WorkerApply;
    WorkerKeeps(w, e);
    WorkerStepLedger(w, e.u, WorkerApply(w, e));
  }

  lemma RunStepKeepsLedger(w: World, e: Event)
    requires Ledger(w) && !Outside(e) && !Worker(e) && !Pass(e) && RunEnabled(w, e)
    ensures Ledger(RunApply(w, e))
  {
    hide Ledger;
    match e
    case Crash => if !w.phase.NoRun? { MemoryKeepsLedger(w, NoRun); } else { assert w.(phase := NoRun) == w; }
    case SkipRun(_, _, _, _) =>
    case StartRun => FenceKeepsLedger(w);
    case RecoverOne(u) => RecoverKeepsLedger(w, u);
    case RecoverBlind(u) => SuspectLeftKeepsLedger(w, u);
    case EndRecover => MemoryKeepsLedger(w, Verifying(w.phase.since, w.phase.kept));
    case VerifyClaims(full, verify) => VerifyKeepsLedger(w, full, verify);
    case List => ListKeepsLedger(w);
    case EndCopy => EndKeepsLedger(w);
    case SettleOne(u) => SettleKeepsLedger(w, u);
    case Finish(at, swept) => FinishKeepsLedger(w, at, swept);
  }

  /** Every step keeps the ledger. */
  lemma StepKeepsLedger(w: World, e: Event)
    requires Ledger(w) && Enabled(w, e)
    ensures Ledger(Apply(w, e))
  {
    hide Ledger, OutsideEnabled, OutsideApply, WorkerEnabled, WorkerApply, PassEnabled, PassApply, RunEnabled, RunApply;
    if Outside(e) {
      OutsideKeepsLedger(w, e);
    } else if Worker(e) {
      WorkerKeepsLedger(w, e);
    } else if Pass(e) {
      PassKeepsLedger(w, e);
    } else {
      RunStepKeepsLedger(w, e);
    }
  }

  lemma {:induction false} RunKeepsLedger(w: World, es: seq<Event>)
    requires Ledger(w) && Run(w, es).Some?
    ensures Ledger(Run(w, es).value)
    decreases |es|
  {
    hide Ledger, Enabled, Apply;
    if es != [] {
      StepKeepsLedger(w, es[0]);
      RunKeepsLedger(Apply(w, es[0]), es[1..]);
    }
  }

  /** A world no run has touched: nothing recorded, no folder row, any mail on either side. */
  predicate Untouched(w: World) {
    w.live <= w.mail.Keys && w.past == {} && w.rows == map[] && w.fold == NEW_FOLDER && w.phase == NoRun &&
    w.dropped == {} && !w.purged && 1 <= w.srcValidity && 1 <= w.dstValidity &&
    (forall u :: u in w.live ==> u.validity == w.srcValidity) &&
    w.destNext >= 1 && forall d :: d in w.dest ==> 1 <= d < w.destNext
  }

  lemma UntouchedLedger(w: World)
    requires Untouched(w)
    ensures Ledger(w)
  {
  }

  lemma AppendIsSuspect(w: World, u: Src)
    requires Ledger(w) && Working(w, u) && WorkOn(w, u).Queued?
    ensures u in w.rows && w.rows[u].status.InFlight? && w.rows[u].detail == DetailOf(w.mail[u])
  {
    assert WorkOk(w.mail, w.rows, w.phase.c, u);
  }

  /**
   No APPEND is issued, in any history and after any crashes and renumberings,
   unless the row saying that this message may have landed is already committed.
   */
  lemma AppendOnlyInFlight(w0: World, es: seq<Event>, e: Event)
    requires Untouched(w0) && Run(w0, es).Some?
    requires (e.AppendOk? || e.AppendError?) && Enabled(Run(w0, es).value, e)
    ensures var w := Run(w0, es).value;
            e.u in w.rows && w.rows[e.u].status.InFlight? && w.rows[e.u].detail == DetailOf(w.mail[e.u])
  {
    UntouchedLedger(w0);
    hide Untouched, Ledger;
    RunKeepsLedger(w0, es);
    WorkerMeans(Run(w0, es).value, e);
    hide Run;
    AppendIsSuspect(Run(w0, es).value, e.u);
  }
}
