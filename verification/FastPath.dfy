/**
 A folder that is skipped because the source has not moved since the watermark
 was earned has nothing left to copy: over every history of runs, crashes,
 failures, renumberings and passes. The one thing that can come between is a
 claim dropped since, and then the skip is right exactly when what the dropped
 claims stood for has been recorded again.
 */
module FastPath {
  import opened Wrappers
  import opened StateStore
  import opened CopyProtocol
  import opened CopyLedger
  import opened DoneRows
  import Deletion

  predicate IsDone(rows: Book, u: Src) {
    u in rows && rows[u].status.Done?
  }

  predicate SameBody(w: World, u: Src, v: Src) {
    u in w.mail && v in w.mail && w.mail[u].body == w.mail[v].body
  }

  /** Recorded as copied, or byte for byte a repeat of a message the source holds that is. */
  predicate Covered(w: World, u: Src) {
    exists v :: v in w.live && IsDone(w.rows, v) && SameBody(w, u, v)
  }

  /** A claim that was dropped since the watermark was earned stood for this message. */
  predicate WasDropped(w: World, u: Src) {
    exists v :: v in w.dropped && SameBody(w, u, v)
  }

  /** What is recorded as gone is gone. */
  predicate GoneIsGone(w: World) {
    forall u :: u in w.rows && w.rows[u].status.Gone? ==> u in w.past
  }

  /** The watermark stands: a run that asked now would find the source where it was. */
  predicate Stands(w: World) {
    SourceSteady(w) && w.fold.highestModSeq != 0 && w.fold.highestModSeq == w.modseq
  }

  /** While the watermark stands, everything the source holds is covered, or was until a claim was dropped. */
  predicate Earned(w: World) {
    Stands(w) ==> forall u :: u in w.live ==> Covered(w, u) || WasDropped(w, u)
  }

  predicate Sound(w: World) {
    GoneIsGone(w) && Earned(w)
  }

  /* ---------- what keeps cover ---------- */

  /** The rows of what the source holds keep saying done, except for claims that are remembered as dropped. */
  ghost predicate KeepsDone(w: World, w': World) {
    forall v :: v in w.live && IsDone(w.rows, v) ==> IsDone(w'.rows, v) || v in w'.dropped
  }

  lemma CoverGrows(w: World, w': World)
    requires Earned(w) && w'.mail == w.mail && w.dropped <= w'.dropped && KeepsDone(w, w')
    requires Stands(w') ==> Stands(w) && w'.live == w.live
    ensures Earned(w')
  {
    if Stands(w') {
      forall u | u in w'.live
        ensures Covered(w', u) || WasDropped(w', u)
      {
        if Covered(w, u) {
          var v :| v in w.live && IsDone(w.rows, v) && SameBody(w, u, v);
          assert SameBody(w', u, v);
        } else {
          var v :| v in w.dropped && SameBody(w, u, v);
          assert SameBody(w', u, v);
        }
      }
    }
  }

  lemma OutsideKeepsSound(w: World, e: Event)
    requires Bounded(w) && w.fold.srcValidity <= w.srcValidity && Sound(w) && Outside(e) && OutsideEnabled(w, e)
    ensures Sound(OutsideApply(w, e))
  {
    var w' := OutsideApply(w, e);
    hide Covered, WasDropped;
    if e.DestArrives? || e.DestDeletes? || e.DestRenumbered? {
      CoverGrows(w, w');
    }
  }

  /** Whatever a worker writes a row for is not recorded as copied yet, and was on the run's list. */
  lemma WorkedOnIsNotDone(w: World, u: Src)
    requires w.phase.Copying? && CopyOk(w.mail, w.rows, w.phase.c) && ListOk(w, w.phase.c)
    requires Working(w, u) && !WorkOn(w, u).Finished?
    ensures !IsDone(w.rows, u) && (u in w.live || u in w.past)
  {
    assert WorkOk(w.mail, w.rows, w.phase.c, u);
  }

  predicate GoneWasExpunged(w: World, rows: Book, u: Src) {
    u in rows && rows[u].status.Gone? ==> (u in w.rows && w.rows[u].status.Gone?) || u !in w.live
  }

  lemma ReadGoneIsExpunged(w: World, e: Event)
    requires Reader(e) && WorkerEnabled(w, e)
    ensures GoneWasExpunged(w, WorkerApply(w, e).rows, e.u)
  {
  }

  lemma DeliveredIsNotGone(w: World, e: Event)
    requires Deliverer(e) && WorkerEnabled(w, e)
    ensures GoneWasExpunged(w, WorkerApply(w, e).rows, e.u)
  {
    hide Locate, GoneWasExpunged;
    var rows := WorkerApply(w, e).rows;
    assert rows == w.rows || (e.u in rows && !rows[e.u].status.Gone?);
    NotGone(w, rows, e.u);
  }

  lemma NotGone(w: World, rows: Book, u: Src)
    requires rows == w.rows || (u in rows && !rows[u].status.Gone?)
    ensures GoneWasExpunged(w, rows, u)
  {
  }

  lemma WorkerIsNotFinished(w: World, e: Event)
    requires Worker(e) && WorkerEnabled(w, e)
    ensures Working(w, e.u) && !WorkOn(w, e.u).Finished?
  {
  }

  lemma WorkerKeepsSound(w: World, e: Event)
    requires Ledger(w) && Sound(w) && Worker(e) && WorkerEnabled(w, e)
    ensures Sound(WorkerApply(w, e))
  {
    var w' := WorkerApply(w, e);
    LedgerHolds(w);
    hide Ledger, WorkerEnabled, WorkerApply, Sound, CopyOk, ListOk;
    WorkerIsNotFinished(w, e);
    WorkedOnIsNotDone(w, e.u);
    if Reader(e) {
      ReadGoneIsExpunged(w, e);
    } else {
      DeliveredIsNotGone(w, e);
    }
    WorkerKeeps(w, e);
    OneRowKeepsSound(w, w', e.u);
  }

  lemma OneRowKeepsSound(w: World, w': World, u: Src)
    requires Sound(w) && WorkerShape(w, u, w') && !IsDone(w.rows, u) && (u in w.live || u in w.past)
    requires GoneWasExpunged(w, w'.rows, u)
    ensures Sound(w')
  {
    hide Covered, WasDropped;
    assert forall v :: v in w'.rows && v != u ==> v in w.rows && w'.rows[v] == w.rows[v];
    CoverGrows(w, w');
  }

  lemma RecoverKeepsSound(w: World, u: Src)
    requires Sound(w) && w.phase.Recovering? && u in w.rows && u in w.mail && !IsDone(w.rows, u)
    ensures Sound(Recovered(w, u))
  {
    RecoveredFrame(w, u);
    hide Recovered, Covered, WasDropped;
    CoverGrows(w, Recovered(w, u));
  }

  lemma SuspectIsNotDone(w: World, u: Src)
    requires Ledger(w) && w.phase.Recovering? && u in w.phase.suspects
    ensures !IsDone(w.rows, u)
  {
    hide Bounded, Numbered, RowsPlaced;
  }

  lemma StartKeepsSound(w: World)
    requires Ledger(w) && Sound(w) && w.phase.NoRun?
    ensures Sound(Started(w))
  {
    hide RowsPlaced, Covered, WasDropped;
    var w' := Started(w);
    if w'.fold.highestModSeq != 0 {
      CoverGrows(w, w');
    }
  }

  lemma VerifyKeepsSound(w: World, full: bool, verify: bool)
    requires Sound(w) && w.phase.Verifying?
    ensures Sound(Verified(w, full, verify))
  {
    hide Covered, WasDropped, ClaimsChecked;
    CoverGrows(w, Verified(w, full, verify));
  }

  lemma SettleKeepsSound(w: World, u: Src)
    requires Sound(w) && w.phase.Settling? && u in w.phase.c.work && w.phase.c.work[u].Noted? && u in w.rows
    ensures Sound(SettledOne(w, u))
  {
    hide Covered, WasDropped;
    CoverGrows(w, SettledOne(w, u));
  }

  /** A run that leaves nothing out has covered all it listed. */
  lemma FinishedIsCovered(w: World, u: Src)
    requires Resting(w) && CopyOk(w.mail, w.rows, w.phase.c) && GoneIsGone(w) && w.live !! w.past
    requires w.phase.c.failed == {} && w.phase.c.filtered == {} && w.phase.c.listed == w.live && u in w.live
    requires forall v :: v in w.phase.c.work ==> w.phase.c.work[v].Finished? || w.phase.c.work[v].Unsettled?
    ensures Covered(w, u)
  {
    var c := w.phase.c;
    if u in c.work {
      assert WorkOk(w.mail, w.rows, c, u);
      if c.work[u].Unsettled? {
        assert IsDone(w.rows, c.work[u].survivor) && SameBody(w, u, c.work[u].survivor);
      } else {
        assert IsDone(w.rows, u) && SameBody(w, u, u);
      }
    } else {
      assert IsDone(w.rows, u) && SameBody(w, u, u);
    }
  }

  lemma FinishKeepsSound(w: World, at: int, swept: bool)
    requires Ledger(w) && Sound(w) && Resting(w)
    ensures Sound(Completion(w, at, swept))
  {
    var w' := Completion(w, at, swept);
    LedgerHolds(w);
    if w.phase.c.failed != {} || w.phase.c.filtered != {} || w.phase.c.since == 0 {
      hide CopyOk, ListOk, Ledger, Covered, WasDropped;
      CoverGrows(w, w');
    } else if Stands(w') {
      assert w.phase.c.listed == w.live;
      forall u | u in w'.live
        ensures Covered(w', u)
      {
        FinishedIsCovered(w, u);
        var v :| v in w.live && IsDone(w.rows, v) && SameBody(w, u, v);
        assert SameBody(w', u, v);
      }
    }
  }

  lemma MemoryKeepsSound(w: World, w': World)
    requires Sound(w) && w' == w.(phase := w'.phase)
    ensures Sound(w')
  {
    hide Covered, WasDropped;
    CoverGrows(w, w');
  }

  lemma RunStepKeepsSound(w: World, e: Event)
    requires Ledger(w) && Sound(w) && !Outside(e) && !Worker(e) && !Pass(e) && RunEnabled(w, e)
    ensures Sound(RunApply(w, e))
  {
    hide Ledger, Sound, Claimed;
    match e
    case StartRun => StartKeepsSound(w);
    case RecoverOne(u) => SuspectIsNotDone(w, u); RecoverKeepsSound(w, u);
    case VerifyClaims(full, verify) => VerifyKeepsSound(w, full, verify);
    case SettleOne(u) => SettleKeepsSound(w, u);
    case Finish(at, swept) => FinishKeepsSound(w, at, swept);
    case SkipRun(_, _, _, _) =>
    case Crash => MemoryKeepsSound(w, w.(phase := NoRun));
    case RecoverBlind(u) => MemoryKeepsSound(w, w.(phase := w.phase.(suspects := w.phase.suspects - {u})));
    case EndRecover => MemoryKeepsSound(w, w.(phase := Verifying(w.phase.since, w.phase.kept)));
    case List => MemoryKeepsSound(w, Listed(w));
    case EndCopy => MemoryKeepsSound(w, w.(phase := Settling(w.phase.c)));
  }

  /** A pass forgets no row of a message the source holds: a run that is settling has listed them all. */
  lemma PassKeepsSound(w: World, e: Event)
    requires Ledger(w) && Sound(w) && Pass(e) && PassEnabled(w, e)
    ensures Sound(PassApply(w, e))
  {
    LedgerHolds(w);
    hide Covered, WasDropped, CopyOk, Ledger, Deletion.Doomed, Claimed;
    CoverGrows(w, PassApply(w, e));
  }

  /** Every step keeps this, with no hypothesis on the network, the searches or the destination. */
  lemma StepKeepsSound(w: World, e: Event)
    requires Ledger(w) && Sound(w) && Enabled(w, e)
    ensures Sound(Apply(w, e))
  {
    LedgerParts(w);
    hide Ledger, Sound, Bounded, OutsideEnabled, OutsideApply, WorkerEnabled, WorkerApply;
    hide PassEnabled, PassApply, RunEnabled, RunApply;
    if Outside(e) {
      OutsideKeepsSound(w, e);
    } else if Worker(e) {
      WorkerKeepsSound(w, e);
    } else if Pass(e) {
      PassKeepsSound(w, e);
    } else {
      RunStepKeepsSound(w, e);
    }
  }

  lemma {:induction false} RunKeepsSound(w: World, es: seq<Event>)
    requires Ledger(w) && Sound(w) && Run(w, es).Some?
    ensures Ledger(Run(w, es).value) && Sound(Run(w, es).value)
    decreases |es|
  {
    hide Ledger, Sound, Enabled, Apply;
    if es != [] {
      StepKeepsSound(w, es[0]);
      StepKeepsLedger(w, es[0]);
      RunKeepsSound(Apply(w, es[0]), es[1..]);
    }
  }

  lemma UntouchedIsSound(w: World)
    requires Untouched(w)
    ensures Ledger(w) && Sound(w)
  {
  }

  /* ---------- when the skip is right ---------- */

  /**
   Whenever the watermark lets a folder be skipped, and no claim was dropped
   since it was earned, every message the source holds is recorded as copied or
   repeats one that is. Nothing is assumed of the network, the searches or the
   destination, and either side may have been renumbered any number of times.
   */
  lemma SkippedNothing(w0: World, es: seq<Event>, full: bool, delete2: bool, u: Src)
    requires Untouched(w0) && Run(w0, es).Some?
    requires var w := Run(w0, es).value;
             Unchanged(w.fold, w.srcValidity, w.modseq, full, delete2) && w.dropped == {} && u in w.live
    ensures Covered(Run(w0, es).value, u)
  {
    UntouchedIsSound(w0);
    hide Ledger, Untouched, Covered;
    RunKeepsSound(w0, es);
  }

  /**
   With claims dropped since, crashed or not, the skip is right exactly when every
   message a dropped claim stood for has been recorded again. So a folder whose
   run drops a claim and then fails to copy the message is skipped from then on
   with it missing (CopyWitnesses.FailedRepairIsSkipped), and so is one whose run
   is killed in between (CopyWitnesses.DroppedClaimIsSkipped).
   */
  lemma SkipIsRightIffRepaired(w0: World, es: seq<Event>, full: bool, delete2: bool)
    requires Untouched(w0) && Run(w0, es).Some?
    requires var w := Run(w0, es).value; Unchanged(w.fold, w.srcValidity, w.modseq, full, delete2)
    ensures var w := Run(w0, es).value;
            (forall u :: u in w.live ==> Covered(w, u)) <==>
            (forall u :: u in w.live && WasDropped(w, u) ==> Covered(w, u))
  {
    UntouchedIsSound(w0);
    hide Ledger, Untouched, Covered, WasDropped;
    RunKeepsSound(w0, es);
  }

  /** What a run that is ending reports as failed or left out, and the source still holds. */
  predicate LeftOut(w: World, u: Src)
    requires w.phase.Settling?
  {
    u in w.live && (u in w.phase.c.failed || u in w.phase.c.filtered)
  }

  /** If the folder is unchanged after its run, the run listed all that the source holds. */
  lemma UnchangedIsListed(w: World, at: int, swept: bool, full: bool, delete2: bool)
    requires Ledger(w) && w.phase.Settling?
    requires Unchanged(Completion(w, at, swept).fold, w.srcValidity, w.modseq, full, delete2)
    ensures w.phase.c.listed == w.live
  {
    hide CopyOk, RowsPlaced, Numbered;
    assert w.fold.highestModSeq <= w.phase.c.since <= w.modseq;
  }

  /** Whatever was listed and is not reported is recorded, or repeats what is recorded or reported. */
  lemma ListedIsCoveredOr(w: World, u: Src) returns (v: Src)
    requires Resting(w) && CopyOk(w.mail, w.rows, w.phase.c) && GoneIsGone(w) && w.live !! w.past
    requires forall x :: x in w.phase.c.work ==> w.phase.c.work[x].Finished? || w.phase.c.work[x].Unsettled?
    requires w.phase.c.listed == w.live && u in w.live
    ensures v in w.live && SameBody(w, u, v) && (IsDone(w.rows, v) || LeftOut(w, v))
  {
    var c := w.phase.c;
    v := u;
    if u in c.work {
      assert WorkOk(w.mail, w.rows, c, u);
      if c.work[u].Unsettled? {
        v := c.work[u].survivor;
      }
    }
  }

  /**
   A run's own report says whether the next skip is right: in every reachable state
   in which a run can end, if the folder then counts as unchanged, what the source
   holds is all recorded exactly when each message reported as failed or left out
   repeats one that is. So a run that dropped claims, or could not make one good,
   knows which of its messages will be skipped while missing.
   */
  lemma NextSkipIsRightIffReportCovered(w0: World, es: seq<Event>, at: int, swept: bool, full: bool,
      delete2: bool)
    requires Untouched(w0) && Run(w0, es).Some? && Enabled(Run(w0, es).value, Finish(at, swept))
    requires var w' := Apply(Run(w0, es).value, Finish(at, swept));
             Unchanged(w'.fold, w'.srcValidity, w'.modseq, full, delete2)
    ensures var w, w' := Run(w0, es).value, Apply(Run(w0, es).value, Finish(at, swept));
            w.phase.Settling? &&
            ((forall u :: u in w'.live ==> Covered(w', u)) <==> (forall u :: LeftOut(w, u) ==> Covered(w', u)))
  {
    UntouchedIsSound(w0);
    hide Ledger, Untouched, Covered, LeftOut, Run;
    RunKeepsSound(w0, es);
    var w := Run(w0, es).value;
    FinishMeans(w, at, swept);
    hide Enabled, Apply, Sound;
    ReportIsAll(w, at, swept, full, delete2);
  }

  lemma ReportIsAll(w: World, at: int, swept: bool, full: bool, delete2: bool)
    requires Ledger(w) && Sound(w) && Resting(w)
    requires Unchanged(Completion(w, at, swept).fold, w.srcValidity, w.modseq, full, delete2)
    ensures var w' := Completion(w, at, swept);
            (forall u :: u in w'.live ==> Covered(w', u)) <==> (forall u :: LeftOut(w, u) ==> Covered(w', u))
  {
    var w' := Completion(w, at, swept);
    UnchangedIsListed(w, at, swept, full, delete2);
    LedgerHolds(w);
    assert forall x :: x in w.phase.c.work ==> w.phase.c.work[x].Finished? || w.phase.c.work[x].Unsettled?;
    assert w'.live == w.live && w'.rows == w.rows && w'.mail == w.mail;
    hide Ledger, Completion, Unchanged, CopyOk, ListOk, Resting;
    if forall u :: LeftOut(w, u) ==> Covered(w', u) {
      forall u | u in w'.live
        ensures Covered(w', u)
      {
        var v := ListedIsCoveredOr(w, u);
        if IsDone(w.rows, v) {
          assert SameBody(w', u, v);
        } else {
          var x :| x in w'.live && IsDone(w'.rows, x) && SameBody(w', v, x);
          assert SameBody(w', u, x);
        }
      }
    }
  }

  /**
   The condition in terms of what the check itself saw, for a run killed right
   after it: each message the source holds whose bytes a lost copy had must have
   some message of the same bytes whose recorded copy is still there.
   */
  lemma StillEarnedIffRepeatsSurvive(w: World, full: bool, verify: bool)
    requires Ledger(w) && Sound(w) && Stands(w) && w.dropped == {} && w.phase.Verifying?
    ensures var w' := Verified(w, full, verify).(phase := NoRun);
            var lost := Unhonoured(w.rows, w.fold.dstValidity, w.dest);
            Unchanged(w'.fold, w'.srcValidity, w'.modseq, false, false) &&
            ((forall u :: u in w'.live ==> Covered(w', u)) <==>
             (ClaimsChecked(w, full, verify) ==>
                forall u, v :: u in w.live && v in lost && SameBody(w, u, v) ==>
                  exists x :: x in w.live && x !in lost && IsDone(w.rows, x) && SameBody(w, u, x)))
  {
    var w' := Verified(w, full, verify).(phase := NoRun);
    var lost := Unhonoured(w.rows, w.fold.dstValidity, w.dest);
    hide Ledger, ClaimsChecked, Unhonoured;
    if ClaimsChecked(w, full, verify) {
      forall u | u in w.live
        ensures Covered(w', u) <==> exists x :: x in w.live && x !in lost && IsDone(w.rows, x) && SameBody(w, u, x)
      {
        StillCovered(w, w', lost, u);
      }
      forall u | u in w.live && !Covered(w', u)
        ensures exists v :: v in lost && SameBody(w, u, v)
      {
        var v :| v in w.live && IsDone(w.rows, v) && SameBody(w, u, v);
      }
    } else {
      forall u | u in w.live
        ensures Covered(w', u)
      {
        var v :| v in w.live && IsDone(w.rows, v) && SameBody(w, u, v);
        assert SameBody(w', u, v);
      }
    }
  }

  lemma StillCovered(w: World, w': World, lost: set<Src>, u: Src)
    requires w'.mail == w.mail && w'.live == w.live && w'.rows == w.rows - lost
    ensures Covered(w', u) <==> exists x :: x in w.live && x !in lost && IsDone(w.rows, x) && SameBody(w, u, x)
  {
    if Covered(w', u) {
      var v :| v in w'.live && IsDone(w'.rows, v) && SameBody(w', u, v);
      assert v in w.live && v !in lost && IsDone(w.rows, v) && SameBody(w, u, v);
    }
    if exists x :: x in w.live && x !in lost && IsDone(w.rows, x) && SameBody(w, u, x) {
      var x :| x in w.live && x !in lost && IsDone(w.rows, x) && SameBody(w, u, x);
      assert x in w'.live && IsDone(w'.rows, x) && SameBody(w', u, x);
    }
  }

  /** And if nobody else deletes from the destination, the body of each of them is there. */
  lemma SkippedIsThere(w0: World, es: seq<Event>, full: bool, delete2: bool, verify: bool, counted: Option<Count>,
      u: Src)
    requires Untouched(w0) && HonestRun(w0, es) && Run(w0, es).Some?
    requires TruthfulSource(w0.mail) && forall d :: d in w0.dest ==> TruthfulTo(w0.dest[d], w0.mail)
    requires var w := Run(w0, es).value; CanSkip(w, full, delete2, verify, counted) && w.dropped == {} && u in w.live
    ensures u in w0.mail && HasCopy(Run(w0, es).value.dest, w0.mail[u])
  {
    hide Run, Untouched, TruthfulSource, TruthfulTo, HonestRun, HasCopy;
    SkippedNothing(w0, es, full, delete2, u);
    var w := Run(w0, es).value;
    var v :| v in w.live && IsDone(w.rows, v) && SameBody(w, u, v);
    HeldIsProtected(w0, es, v);
    DoneRowsNeverLie(w0, es, v);
    SameBodySameCopy(w, u, v);
  }

  lemma HeldIsProtected(w0: World, es: seq<Event>, u: Src)
    requires Untouched(w0) && Run(w0, es).Some? && u in Run(w0, es).value.live
    ensures Protected(Run(w0, es).value, u)
  {
    UntouchedLedger(w0);
    hide Untouched, Run, Ledger;
    RunKeepsLedger(w0, es);
    LedgerHolds(Run(w0, es).value);
  }

  lemma SameBodySameCopy(w: World, u: Src, v: Src)
    requires SameBody(w, u, v) && HasCopy(w.dest, w.mail[v])
    ensures HasCopy(w.dest, w.mail[u])
  {
    var d :| d in w.dest && w.dest[d].body == w.mail[v].body;
  }

  /**
   The destination's vote counts claims under the numbering the listing reported.
   Under one no row was recorded under, the count is zero and the vote is void.
   */
  lemma VoteIsVoidUnderOtherNumbers(w: World, full: bool, delete2: bool, verify: bool, counted: Count)
    requires forall u :: u in w.rows && w.rows[u].status.Done? ==> w.rows[u].dstValidity != counted.validity
    ensures CanSkip(w, full, delete2, verify, Some(counted)) <==>
            Unchanged(w.fold, w.srcValidity, w.modseq, full, delete2)
  {
    assert ClaimedUids(w.rows, counted.validity) == {};
  }
}
