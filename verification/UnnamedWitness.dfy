/**
 What deletion can take of a message the source still holds. Its row could not say
 which message its copy is; a repeat of it is then taken to be that copy; and when
 the repeat goes from the source, the copy goes with it.
 */
module UnnamedWitness {
  import opened Wrappers
  import opened StateStore
  import opened CopyProtocol
  import opened CopyLedger
  import opened DoneRows
  import opened CopyWitnesses
  import opened UnnamedCopies

  /** A second message of the source with the same bytes. */
  const V := Src(1, 2)

  /** Two source messages that are one letter; everything else as given. */
  function Pair(live: set<Src>, past: set<Src>, modseq: nat, dest: map<Uid, Mail>, next: Uid, rows: Book,
      fold: FolderRow, phase: Phase): World {
    World(map[U := LETTER, V := LETTER], 1, live, past, modseq, 1, dest, next, rows, fold, phase, {}, false)
  }

  /** A run at work on one of them. */
  function Busy(since: nat, listed: set<Src>, u: Src, k: Work, index: map<Uid, string>,
      bodies: map<string, Src>): Phase {
    Copying(Copy(since, listed, map[u := k], index, bodies, {}, {}))
  }

  const NAMELESS: Book := map[U := Row(DetailOf(LETTER), 1, 0, Done, "")]
  const TAKING: Book := NAMELESS[V := Row(DetailOf(LETTER), 0, 0, InFlight, "")]
  const TAKEN: Book := NAMELESS[V := Row(DetailOf(LETTER), 1, 1, Done, "")]
  const BEFORE: World := Pair({U}, {}, 1, map[], 1, map[], NEW_FOLDER, NoRun)
  const AFTER_FIRST: World := Pair({U}, {}, 1, HELD, 2, NAMELESS, FENCED, NoRun)
  const BOTH_HELD: World := Pair({U, V}, {}, 2, HELD, 2, NAMELESS, FENCED, NoRun)
  const EARNED := FolderRow(1, 1, 2, 0, Some(0))
  const AFTER_SECOND: World := Pair({U, V}, {}, 2, HELD, 2, TAKEN, EARNED, NoRun)
  const ONE_GONE: World := Pair({U}, {V}, 3, HELD, 2, TAKEN, EARNED, NoRun)
  const AT_REST: World := Pair({U}, {V}, 3, HELD, 2, TAKEN, EARNED, Settling(Copy(3, {U}, map[], map[], map[], {}, {})))

  /* ---------- the first run: copied, recorded without a name, killed ---------- */

  const BLIND: seq<Event> := [AppendOk(U, false), RecordBlind(U)]

  lemma FirstLists()
    ensures Opened(BEFORE) == Pair({U}, {}, 1, map[], 1, map[], FENCED, Busy(1, {U}, U, Todo, map[], map[]))
  {
    var l := BEFORE.(fold := FENCED, phase := Listing(1, true));
    var todo := set u | u in l.live && !Settled(l.rows, u);
    assert todo == {U} && IndexOf(l, todo) == map[];
    assert Listed(l).phase.c.work == map[U := Todo];
  }

  lemma FirstReads()
    ensures Run(Pair({U}, {}, 1, map[], 1, map[], FENCED, Busy(1, {U}, U, Todo, map[], map[])), READS) ==
            Some(Pair({U}, {}, 1, map[], 1, FLYING, FENCED, Busy(1, {U}, U, Queued(0), map[], READ)))
  {
    var w0 := Pair({U}, {}, 1, map[], 1, map[], FENCED, Busy(1, {U}, U, Todo, map[], map[]));
    var w1 := Pair({U}, {}, 1, map[], 1, FLYING, FENCED, Busy(1, {U}, U, CopyProtocol.Begun, map[], map[]));
    var w2 := Pair({U}, {}, 1, map[], 1, FLYING, FENCED, Busy(1, {U}, U, Queued(0), map[], READ));
    assert (map[U := Todo])[U := CopyProtocol.Begun] == map[U := CopyProtocol.Begun];
    assert (map[U := CopyProtocol.Begun])[U := Queued(0)] == map[U := Queued(0)] && map[]["b" := U] == READ;
    assert StateStore.Begun(map[], U, DetailOf(LETTER)) == FLYING;
    assert WorkerApply(w0, BeginOne(U)) == w1;
    assert WorkerApply(w1, FetchBody(U, false)) == w2;
    hide WorkerEnabled, WorkerApply, Enabled, Apply;
    WorkerSteps(w0, BeginOne(U));
    WorkerSteps(w1, FetchBody(U, false));
    TwoStepsRun(w0, BeginOne(U), w1, FetchBody(U, false), w2);
  }

  lemma FirstAppends()
    ensures Run(Pair({U}, {}, 1, map[], 1, FLYING, FENCED, Busy(1, {U}, U, Queued(0), map[], READ)), BLIND) ==
            Some(Pair({U}, {}, 1, HELD, 2, NAMELESS, FENCED, Busy(1, {U}, U, Finished, map[], READ)))
  {
    var w0 := Pair({U}, {}, 1, map[], 1, FLYING, FENCED, Busy(1, {U}, U, Queued(0), map[], READ));
    var w1 := Pair({U}, {}, 1, HELD, 2, FLYING, FENCED, Busy(1, {U}, U, Accepted(None), map[], READ));
    var w2 := Pair({U}, {}, 1, HELD, 2, NAMELESS, FENCED, Busy(1, {U}, U, Finished, map[], READ));
    assert (map[U := Queued(0)])[U := Accepted(None)] == map[U := Accepted(None)];
    assert (map[U := Accepted(None)])[U := Finished] == map[U := Finished];
    assert Stored(LETTER) == LETTER && map[][1 := LETTER] == HELD && Completed(FLYING, U, 1, 0) == NAMELESS;
    assert WorkerApply(w0, AppendOk(U, false)) == w1;
    assert WorkerApply(w1, RecordBlind(U)) == w2;
    hide WorkerEnabled, WorkerApply, Enabled, Apply;
    WorkerSteps(w0, AppendOk(U, false));
    WorkerSteps(w1, RecordBlind(U));
    TwoStepsRun(w0, AppendOk(U, false), w1, RecordBlind(U), w2);
  }

  lemma Killed(w: World)
    ensures Run(w, [Crash]) == Some(w.(phase := NoRun))
  {
    assert RunEnabled(w, Crash) && RunApply(w, Crash) == w.(phase := NoRun);
    hide RunEnabled, RunApply, Enabled, Apply;
    RunSteps(w, Crash);
    PassesRuns([w, w.(phase := NoRun)], [Crash]);
  }

  const FIRST_RUN: seq<Event> := OPENING + READS + BLIND + [Crash]

  lemma FirstRun()
    ensures Run(BEFORE, FIRST_RUN) == Some(AFTER_FIRST)
  {
    hide Run;
    OpeningLists(BEFORE);
    FirstLists();
    FirstReads();
    FirstAppends();
    Killed(Pair({U}, {}, 1, HELD, 2, NAMELESS, FENCED, Busy(1, {U}, U, Finished, map[], READ)));
    hide Opened;
    RunAppend(BEFORE, OPENING, READS);
    RunAppend(BEFORE, OPENING + READS, BLIND);
    RunAppend(BEFORE, OPENING + READS + BLIND, [Crash]);
  }

  /* ---------- the second run: the copy is taken for the repeat's ---------- */

  lemma RepeatArrives()
    ensures Run(AFTER_FIRST, [SourceArrives(V)]) == Some(BOTH_HELD)
  {
    assert Enabled(AFTER_FIRST, SourceArrives(V)) && Apply(AFTER_FIRST, SourceArrives(V)) == BOTH_HELD;
    PassesRuns([AFTER_FIRST, BOTH_HELD], [SourceArrives(V)]);
  }

  const OFFER: map<Uid, string> := map[1 := "d"]

  lemma SecondLists()
    ensures Opened(BOTH_HELD) ==
            Pair({U, V}, {}, 2, HELD, 2, NAMELESS, FENCED, Busy(2, {U, V}, V, Todo, OFFER, map[]))
  {
    var l := BOTH_HELD.(fold := FENCED, phase := Listing(2, true));
    var todo := set u | u in l.live && !Settled(l.rows, u);
    assert todo == {V};
    assert Claimed(NAMELESS, 1) == {};
    assert IndexOf(l, todo) == OFFER;
    assert Listed(l).phase.c.work == map[V := Todo];
  }

  const ADOPTS: seq<Event> := [BeginOne(V), Adopt(V, 1)]

  lemma SecondAdopts()
    ensures Run(Pair({U, V}, {}, 2, HELD, 2, NAMELESS, FENCED, Busy(2, {U, V}, V, Todo, OFFER, map[])), ADOPTS) ==
            Some(Pair({U, V}, {}, 2, HELD, 2, TAKEN, FENCED, Busy(2, {U, V}, V, Finished, map[], map[])))
  {
    var w0 := Pair({U, V}, {}, 2, HELD, 2, NAMELESS, FENCED, Busy(2, {U, V}, V, Todo, OFFER, map[]));
    var w1 := Pair({U, V}, {}, 2, HELD, 2, TAKING, FENCED, Busy(2, {U, V}, V, CopyProtocol.Begun, OFFER, map[]));
    var w2 := Pair({U, V}, {}, 2, HELD, 2, TAKEN, FENCED, Busy(2, {U, V}, V, Finished, map[], map[]));
    assert (map[V := Todo])[V := CopyProtocol.Begun] == map[V := CopyProtocol.Begun];
    assert (map[V := CopyProtocol.Begun])[V := Finished] == map[V := Finished] && OFFER - {1} == map[];
    assert StateStore.Begun(NAMELESS, V, DetailOf(LETTER)) == TAKING && Completed(TAKING, V, 1, 1) == TAKEN;
    assert WorkerApply(w0, BeginOne(V)) == w1;
    assert WorkerApply(w1, Adopt(V, 1)) == w2;
    hide WorkerEnabled, WorkerApply, Enabled, Apply;
    WorkerSteps(w0, BeginOne(V));
    WorkerSteps(w1, Adopt(V, 1));
    TwoStepsRun(w0, BeginOne(V), w1, Adopt(V, 1), w2);
  }

  lemma SecondEnds()
    ensures Run(Pair({U, V}, {}, 2, HELD, 2, TAKEN, FENCED, Busy(2, {U, V}, V, Finished, map[], map[])), ENDS) ==
            Some(AFTER_SECOND)
  {
    var w0 := Pair({U, V}, {}, 2, HELD, 2, TAKEN, FENCED, Busy(2, {U, V}, V, Finished, map[], map[]));
    var w1 := w0.(phase := Settling(w0.phase.c));
    assert RunEnabled(w0, EndCopy) && RunApply(w0, EndCopy) == w1;
    assert RunEnabled(w1, Finish(0, false)) && RunApply(w1, Finish(0, false)) == AFTER_SECOND;
    hide RunEnabled, RunApply, Enabled, Apply;
    RunSteps(w0, EndCopy);
    RunSteps(w1, Finish(0, false));
    TwoStepsRun(w0, EndCopy, w1, Finish(0, false), AFTER_SECOND);
  }

  const SECOND_RUN: seq<Event> := [SourceArrives(V)] + OPENING + ADOPTS + ENDS

  lemma SecondRun()
    ensures Run(AFTER_FIRST, SECOND_RUN) == Some(AFTER_SECOND)
  {
    assert InFlightUids(NAMELESS) == {};
    hide Run;
    RepeatArrives();
    OpeningLists(BOTH_HELD);
    SecondLists();
    SecondAdopts();
    SecondEnds();
    hide Opened;
    RunAppend(AFTER_FIRST, [SourceArrives(V)], OPENING);
    RunAppend(AFTER_FIRST, [SourceArrives(V)] + OPENING, ADOPTS);
    RunAppend(AFTER_FIRST, [SourceArrives(V)] + OPENING + ADOPTS, ENDS);
  }

  /* ---------- the third run: the repeat's copy is deleted ---------- */

  lemma RepeatGoes()
    ensures Run(AFTER_SECOND, [SourceExpunges(V)]) == Some(ONE_GONE)
  {
    assert {U, V} - {V} == {U} && {} + {V} == {V};
    assert Enabled(AFTER_SECOND, SourceExpunges(V)) && Apply(AFTER_SECOND, SourceExpunges(V)) == ONE_GONE;
    PassesRuns([AFTER_SECOND, ONE_GONE], [SourceExpunges(V)]);
  }

  lemma ThirdLists()
    ensures Opened(ONE_GONE) ==
            Pair({U}, {V}, 3, HELD, 2, TAKEN, EARNED, Copying(Copy(3, {U}, map[], map[], map[], {}, {})))
  {
    var l := ONE_GONE.(fold := EARNED, phase := Listing(3, true));
    var todo := set u | u in l.live && !Settled(l.rows, u);
    assert todo == {} && IndexOf(l, todo) == map[];
    assert Listed(l).phase.c.work == map[];
  }

  lemma CopyIsOrphaned()
    ensures DoomedNow(AT_REST, [1], None, 1)
  {
    var m := Mirrored(TAKEN, 1);
    assert V in m && m[V] == 1;
    assert m.Keys == {V};
  }

  const DELETES: seq<Event> := [EndCopy, Expunge({1}, [1], None)]
  const DELETED: World := AT_REST.(dest := map[], purged := true)

  lemma CopyGoes()
    ensures var e := Expunge({1}, [1], None); Enabled(AT_REST, e) && Apply(AT_REST, e) == DELETED
  {
    var e := Expunge({1}, [1], None);
    CopyIsOrphaned();
    hide DoomedNow, DetailOf;
    assert HELD - {1} == map[];
    assert Resting(AT_REST) && DestSteady(AT_REST);
    assert PassEnabled(AT_REST, e) && PassApply(AT_REST, e) == DELETED;
    hide PassEnabled, PassApply;
  }

  lemma ThirdDeletes()
    ensures Run(Pair({U}, {V}, 3, HELD, 2, TAKEN, EARNED,
                     Copying(Copy(3, {U}, map[], map[], map[], {}, {}))), DELETES) ==
            Some(DELETED)
  {
    var w0 := Pair({U}, {V}, 3, HELD, 2, TAKEN, EARNED, Copying(Copy(3, {U}, map[], map[], map[], {}, {})));
    var e := Expunge({1}, [1], None);
    assert RunEnabled(w0, EndCopy) && RunApply(w0, EndCopy) == AT_REST;
    hide RunEnabled, RunApply, Enabled, Apply;
    CopyGoes();
    RunSteps(w0, EndCopy);
    TwoStepsRun(w0, EndCopy, AT_REST, e, DELETED);
  }

  const THIRD_RUN: seq<Event> := [SourceExpunges(V)] + OPENING + DELETES

  lemma ThirdRun()
    ensures Run(AFTER_SECOND, THIRD_RUN) == Some(DELETED)
  {
    assert InFlightUids(TAKEN) == {};
    hide Run;
    RepeatGoes();
    OpeningLists(ONE_GONE);
    ThirdLists();
    ThirdDeletes();
    hide Opened;
    RunAppend(AFTER_SECOND, [SourceExpunges(V)], OPENING);
    RunAppend(AFTER_SECOND, [SourceExpunges(V)] + OPENING, DELETES);
  }

  lemma StartIsUntouched()
    ensures Untouched(BEFORE) && TruthfulSource(BEFORE.mail)
  {
    assert Stored(LETTER) == LETTER;
  }

  lemma UnnamedIsNotKept()
    ensures !UnnamedKept(AT_REST, [1], None)
  {
    CopyIsOrphaned();
    hide DoomedNow;
    assert Unnamed(AT_REST, U);
  }

  const LOSING_RUNS: seq<Event> := FIRST_RUN + SECOND_RUN + THIRD_RUN

  /**
   Three runs, and nobody else touches the destination. A search that fails leaves
   a copy recorded without its number; the next run, in the folder's first sync
   still, takes it for the copy of a repeat; the repeat is expunged, and deletion
   takes the only copy of the message that is still held and still recorded as
   copied.
   */
  lemma UnnamedCopyIsDeleted()
    ensures Untouched(BEFORE) && TruthfulSource(BEFORE.mail) && Run(BEFORE, LOSING_RUNS) == Some(DELETED)
    ensures U in DELETED.live && U in DELETED.rows && DELETED.rows[U].status.Done? && DELETED.dest == map[]
    ensures !UnnamedKept(AT_REST, [1], None)
  {
    StartIsUntouched();
    UnnamedIsNotKept();
    hide Run, Untouched, TruthfulSource, UnnamedKept;
    FirstRun();
    SecondRun();
    ThirdRun();
    RunAppend(BEFORE, FIRST_RUN, SECOND_RUN);
    RunAppend(BEFORE, FIRST_RUN + SECOND_RUN, THIRD_RUN);
  }

  /** And no later run copies it again: while neither side is renumbered, none will work on it. */
  lemma LostForGood(es: seq<Event>)
    requires Run(DELETED, es).Some? && forall k :: 0 <= k < |es| ==> !Renumbers(es[k])
    ensures var w := Run(DELETED, es).value;
            U in w.rows && w.rows[U].status.Done? && !Working(w, U)
  {
    UnnamedCopyIsDeleted();
    hide Untouched, Run, UnnamedKept, TruthfulSource;
    UntouchedLedger(BEFORE);
    RunKeepsLedger(BEFORE, LOSING_RUNS);
    hide Ledger;
    NeverLookedAtAgain(DELETED, es, U);
  }
}
