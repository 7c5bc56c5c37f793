/**
 When a folder is skipped, told by its rows and its destination: what the
 destination's vote sees, and which runs must have gone before.
 */
module SkipVote {
  import opened Wrappers
  import opened StateStore
  import opened CopyProtocol
  import opened CopyLedger

  /** The distinct destination messages that done rows name under this numbering. */
  function NamedUnder(rows: Book, validity: nat): set<Uid> {
    set u | u in rows && rows[u].status.Done? && rows[u].dstValidity == validity && rows[u].dstUid != 0
      :: rows[u].dstUid
  }

  lemma NamedAreClaimed(rows: Book, validity: nat)
    ensures NamedUnder(rows, validity) == ClaimedUids(rows, validity)
    ensures forall u :: u in Mirrored(rows, validity) ==> Mirrored(rows, validity)[u] in NamedUnder(rows, validity)
  {
    forall u | u in Mirrored(rows, validity)
      ensures Mirrored(rows, validity)[u] in NamedUnder(rows, validity)
    {
      assert u in rows;
    }
    forall d | d in NamedUnder(rows, validity)
      ensures d in ClaimedUids(rows, validity)
    {
      var u :| u in rows && rows[u].status.Done? && rows[u].dstValidity == validity && rows[u].dstUid == d != 0;
      assert u in Mirrored(rows, validity);
    }
  }

  /* ---------- the vote ---------- */

  /** What the listing before a run can truly say of the destination. */
  function TrueCount(w: World): Count { Count(w.dstValidity, |w.dest|) }

  /**
   Between runs, with verification on and a true count of the destination, a folder
   is skipped exactly when the run asks for nothing more, the source is where the
   watermark left it, deletion, if asked for, got as far, and the done rows name no
   more distinct messages there than it holds.
   */
  lemma SkipsIff(w: World, full: bool, delete2: bool)
    requires w.phase.NoRun?
    ensures Enabled(w, SkipRun(full, delete2, true, Some(TrueCount(w)))) <==>
            !full && w.modseq != 0 && w.fold.srcValidity == w.srcValidity && w.fold.highestModSeq == w.modseq &&
            (delete2 ==> w.fold.deletedThrough == w.modseq) &&
            |NamedUnder(w.rows, w.dstValidity)| <= |w.dest|
  {
    NamedAreClaimed(w.rows, w.dstValidity);
    hide NamedUnder;
  }

  /** Without verification, or where the listing gave no count, the destination has no say. */
  lemma SilenceSkipsIff(w: World, full: bool, delete2: bool, verify: bool, counted: Option<Count>)
    requires w.phase.NoRun? && (!verify || counted.None?)
    ensures Enabled(w, SkipRun(full, delete2, verify, counted)) <==>
            !full && w.modseq != 0 && w.fold.srcValidity == w.srcValidity && w.fold.highestModSeq == w.modseq &&
            (delete2 ==> w.fold.deletedThrough == w.modseq)
  {
  }

  lemma Split(a: set<Uid>, b: set<Uid>)
    ensures |a| == |a - b| + |a * b|
  {
    assert a == (a - b) + a * b && (a - b) !! (a * b);
  }

  /**
   So the vote weighs what is missing against what is strange: a folder that is
   otherwise unchanged is skipped exactly when no more named copies are gone than the
   destination holds messages no row names. While it holds none of those, one copy
   gone is enough.
   */
  lemma VoteWeighsLossIff(w: World, full: bool, delete2: bool)
    requires w.phase.NoRun? && Enabled(w, SkipRun(full, delete2, false, None))
    ensures var named := NamedUnder(w.rows, w.dstValidity);
            Enabled(w, SkipRun(full, delete2, true, Some(TrueCount(w)))) <==>
            |named - w.dest.Keys| <= |w.dest.Keys - named|
    ensures w.dest.Keys <= NamedUnder(w.rows, w.dstValidity) ==>
            (Enabled(w, SkipRun(full, delete2, true, Some(TrueCount(w)))) <==>
             NamedUnder(w.rows, w.dstValidity) <= w.dest.Keys)
  {
    var named, held := NamedUnder(w.rows, w.dstValidity), w.dest.Keys;
    SkipsIff(w, full, delete2);
    SilenceSkipsIff(w, full, delete2, false, None);
    hide NamedUnder, Enabled;
    Split(named, held);
    Split(held, named);
    assert named * held == held * named;
    if held <= named {
      assert held - named == {};
      assert named - held == {} <==> named <= held;
    }
  }

  /* ---------- what a run drops ---------- */

  /**
   A run that checks its claims drops some exactly when the fence left the rows
   alone, verification is on and a named copy is missing, and either everything is to
   be checked or more are named than are there; and it drops all whose copy is
   missing and no other row.
   */
  lemma DropsIff(w: World, full: bool, verify: bool)
    requires Enabled(w, VerifyClaims(full, verify))
    ensures w.phase.Verifying?
    ensures var w', named := Apply(w, VerifyClaims(full, verify)), NamedUnder(w.rows, w.dstValidity);
            w'.rows != w.rows <==>
            w.phase.kept && verify && !(named <= w.dest.Keys) && (full || |named| > |w.dest|)
    ensures var w' := Apply(w, VerifyClaims(full, verify));
            w'.rows != w.rows ==>
              forall u :: u in w'.rows <==>
                          u in w.rows && !(w.rows[u].status.Done? && w.rows[u].dstValidity == w.dstValidity &&
                                           w.rows[u].dstUid != 0 && w.rows[u].dstUid !in w.dest)
    ensures var w' := Apply(w, VerifyClaims(full, verify));
            w' == w.(rows := w'.rows, dropped := w'.dropped, phase := w'.phase) &&
            forall u :: u in w'.rows ==> u in w.rows && w'.rows[u] == w.rows[u]
  {
    var e := VerifyClaims(full, verify);
    VerifyMeans(w, full, verify);
    hide Enabled, Apply;
    NamedAreClaimed(w.rows, w.dstValidity);
    var named, lost := NamedUnder(w.rows, w.dstValidity), Unhonoured(w.rows, w.dstValidity, w.dest);
    if named <= w.dest.Keys {
      assert forall u :: u !in lost;
      assert w.rows - lost == w.rows;
    } else {
      var d :| d in named && d !in w.dest;
      var u :| u in w.rows && w.rows[u].status.Done? && w.rows[u].dstValidity == w.dstValidity &&
        w.rows[u].dstUid == d != 0;
      assert u in lost && u !in w.rows - lost;
      assert |named| > 0;
    }
  }

  lemma VerifyMeans(w: World, full: bool, verify: bool)
    requires Enabled(w, VerifyClaims(full, verify))
    ensures w.phase.Verifying? && DestSteady(w) && Apply(w, VerifyClaims(full, verify)) == Verified(w, full, verify)
  {
    hide Verified;
  }

  /* ---------- which runs went before ---------- */

  /**
   What the runs of a history leave for the next: the numberings the last one found;
   and since either last moved, the sequence gone by in the last run that left nothing
   out, and in the last that carried deletion through.
   */
  datatype Marks = Marks(src: nat, dst: nat, synced: nat, swept: nat)

  const NO_MARKS := Marks(0, 0, 0, 0)

  function Marked(w: World, e: Event, m: Marks): Marks {
    if e.StartRun? then
      if m.src != 0 && (m.src != w.srcValidity || m.dst != w.dstValidity) then Marks(w.srcValidity, w.dstValidity, 0, 0)
      else m.(src := w.srcValidity, dst := w.dstValidity)
    else if e.Finish? && w.phase.Settling? && w.phase.c.since != 0 then
      var c := w.phase.c;
      m.(synced := if c.failed == {} && c.filtered == {} then c.since else m.synced,
         swept := if e.swept then c.since else m.swept)
    else m
  }

  ghost function MarksOf(w: World, es: seq<Event>, m: Marks): Marks
    decreases |es|
  {
    if es == [] || !Enabled(w, es[0]) then m
    else MarksOf(Apply(w, es[0]), es[1..], Marked(w, es[0], m))
  }

  /** The folder row says it. */
  predicate Says(fold: FolderRow, m: Marks) {
    fold.srcValidity == m.src && fold.dstValidity == m.dst && fold.highestModSeq == m.synced &&
    fold.deletedThrough == m.swept
  }

  /** Only a fence and the end of a run write the folder row. */
  lemma OnlyRunsMark(w: World, e: Event)
    requires Enabled(w, e) && !e.StartRun? && !e.Finish?
    ensures Apply(w, e).fold == w.fold
  {
    hide *;
    if Outside(e) {
      OutsideMarksNothing(w, e);
    } else if Worker(e) {
      WorkerMarksNothing(w, e);
    } else if Pass(e) {
      PassMarksNothing(w, e);
    } else {
      RestMarksNothing(w, e);
    }
  }

  lemma OutsideMarksNothing(w: World, e: Event)
    requires Outside(e) && Enabled(w, e)
    ensures Apply(w, e).fold == w.fold
  {
  }

  lemma WorkerMarksNothing(w: World, e: Event)
    requires Worker(e) && Enabled(w, e)
    ensures Apply(w, e).fold == w.fold
  {
    hide WorkerEnabled, Locate, NoneToAdopt;
  }

  lemma PassMarksNothing(w: World, e: Event)
    requires Pass(e) && Enabled(w, e)
    ensures Apply(w, e).fold == w.fold
  {
    hide PassEnabled;
  }

  lemma RestMarksNothing(w: World, e: Event)
    requires !Outside(e) && !Worker(e) && !Pass(e) && Enabled(w, e) && !e.StartRun? && !e.Finish?
    ensures Apply(w, e).fold == w.fold
  {
    hide ClaimsChecked, Unhonoured, CanSkip, Resting, Locate, IndexOf;
  }

  lemma StartMeans(w: World)
    requires Enabled(w, StartRun)
    ensures Apply(w, StartRun) == Started(w) && w.phase.NoRun?
  {
    hide Started;
  }

  lemma StepSays(w: World, e: Event, m: Marks)
    requires Ledger(w) && Enabled(w, e) && Says(w.fold, m)
    ensures Says(Apply(w, e).fold, Marked(w, e, m))
  {
    LedgerParts(w);
    hide Ledger, Bounded, RowsPlaced, PhaseOk;
    if e.Finish? {
      FinishMeans(w, e.at, e.swept);
      FinishIsClean(w, e.at, e.swept);
      hide Enabled, Apply;
    } else if e.StartRun? {
      StartMeans(w);
    } else {
      OnlyRunsMark(w, e);
    }
  }

  lemma FinishIsClean(w: World, at: int, swept: bool)
    requires Enabled(w, Finish(at, swept))
    ensures w.phase.Settling? && (swept ==> w.phase.c.failed == {})
  {
  }

  lemma {:induction false} RunSays(w: World, es: seq<Event>, m: Marks)
    requires Ledger(w) && Run(w, es).Some? && Says(w.fold, m)
    ensures Says(Run(w, es).value.fold, MarksOf(w, es, m))
    decreases |es|
  {
    hide Enabled, Apply, Ledger, Says, Marked;
    if es != [] {
      StepSays(w, es[0], m);
      StepKeepsLedger(w, es[0]);
      RunOne(w, es);
      RunSays(Apply(w, es[0]), es[1..], Marked(w, es[0], m));
    }
  }

  /**
   So over any history from an untouched folder: the next run skips it exactly when
   some run since the numberings last moved left nothing out, the last such went by
   the sequence the source still reports, deletion, if it is asked for, was last
   carried through at that sequence, and the destination's vote allows it.
   */
  lemma SkipsIffEarned(w0: World, es: seq<Event>, full: bool, delete2: bool)
    requires Untouched(w0) && Run(w0, es).Some? && Run(w0, es).value.phase.NoRun?
    ensures var w, m := Run(w0, es).value, MarksOf(w0, es, NO_MARKS);
            Enabled(w, SkipRun(full, delete2, true, Some(TrueCount(w)))) <==>
            !full && w.modseq != 0 && m.src == w.srcValidity && m.synced == w.modseq &&
            (delete2 ==> m.swept == w.modseq) && |NamedUnder(w.rows, w.dstValidity)| <= |w.dest|
  {
    UntouchedLedger(w0);
    RunSays(w0, es, NO_MARKS);
    SkipsIff(Run(w0, es).value, full, delete2);
    hide Untouched, Run, MarksOf, Enabled, NamedUnder;
  }
}
