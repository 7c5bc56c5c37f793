/**
 Where the code does not keep what one would hope, and exactly when. Giving up an
 APPEND that did arrive leads to a second copy; a claim dropped and not made good
 leads to a folder that is skipped with a message missing; and a destination made
 anew under another number is not asked for the copies it lost.
 */
module CopyWitnesses {
  import opened Wrappers
  import opened Identity
  import opened StateStore
  import opened CopyProtocol
  import opened CopyLedger
  import opened DoneRows
  import opened ExactlyOnce
  import FastPath
  import SkipVote

  /* ---------- histories step by step ---------- */

  /** `ws` are the worlds a history passes through. */
  ghost predicate Passes(ws: seq<World>, es: seq<Event>) {
    |ws| == |es| + 1 && forall k :: 0 <= k < |es| ==> Enabled(ws[k], es[k]) && Apply(ws[k], es[k]) == ws[k + 1]
  }

  lemma {:induction false} PassesRuns(ws: seq<World>, es: seq<Event>)
    requires Passes(ws, es)
    ensures Run(ws[0], es) == Some(ws[|es|])
    decreases |es|
  {
    hide Enabled, Apply;
    if es != [] {
      var vs, fs := ws[1..], es[1..];
      assert forall k :: 0 <= k < |fs| ==> vs[k] == ws[k + 1] && fs[k] == es[k + 1];
      PassesRuns(vs, fs);
      RunOne(ws[0], es);
    }
  }

  lemma TwoStepsRun(w0: World, e0: Event, w1: World, e1: Event, w2: World)
    requires Enabled(w0, e0) && Apply(w0, e0) == w1 && Enabled(w1, e1) && Apply(w1, e1) == w2
    ensures Run(w0, [e0, e1]) == Some(w2)
  {
    hide Enabled, Apply;
    PassesRuns([w0, w1, w2], [e0, e1]);
  }

  lemma {:induction false} ExactAppend(w: World, es: seq<Event>, fs: seq<Event>)
    requires ExactRun(w, es) && Run(w, es).Some? && ExactRun(Run(w, es).value, fs)
    ensures ExactRun(w, es + fs)
    decreases |es|
  {
    hide Enabled, Apply, Exact;
    if es == [] {
      assert es + fs == fs;
    } else {
      assert (es + fs)[0] == es[0] && (es + fs)[1..] == es[1..] + fs;
      ExactAppend(Apply(w, es[0]), es[1..], fs);
    }
  }

  /** An exact history from `w` to `w'`, and how to go on from there. */
  ghost predicate Goes(w: World, es: seq<Event>, w': World) {
    ExactRun(w, es) && Run(w, es) == Some(w')
  }

  lemma GoesOn(w: World, es: seq<Event>, w1: World, fs: seq<Event>, w2: World)
    requires Goes(w, es, w1) && Goes(w1, fs, w2)
    ensures Goes(w, es + fs, w2)
  {
    ExactAppend(w, es, fs);
    RunAppend(w, es, fs);
  }

  lemma GoesOne(w: World, e: Event)
    requires Enabled(w, e) && Exact(w, e)
    ensures Goes(w, [e], Apply(w, e))
  {
    hide Enabled, Apply, Exact;
    var es := [e];
    assert es[0] == e && es[1..] == [];
    RunOne(w, es);
    assert Run(Apply(w, e), []) == Some(Apply(w, e)) && ExactRun(Apply(w, e), []);
  }

  /** `e` is a step the hypotheses allow, and this is where it leads. */
  ghost predicate Leads(w: World, e: Event, w': World) {
    Enabled(w, e) && Exact(w, e) && Apply(w, e) == w'
  }

  lemma LeadsGoes(w: World, e: Event, w': World)
    requires Leads(w, e, w')
    ensures Goes(w, [e], w')
  {
    hide Enabled, Apply, Exact;
    GoesOne(w, e);
  }

  /* ---------- one message ---------- */

  const U := Src(1, 1)
  const LETTER := Mail(Ident("d", "m", false, ""), "b")

  /** One source message; everything else as given. */
  function One(dest: map<Uid, Mail>, destNext: Uid, rows: Book, fold: FolderRow, phase: Phase): World {
    World(map[U := LETTER], 1, {U}, {}, 1, 1, dest, destNext, rows, fold, phase, {}, false)
  }

  const EMPTY: World := One(map[], 1, map[], NEW_FOLDER, NoRun)

  const LISTS: seq<Event> := [EndRecover, VerifyClaims(false, false), List]
  const OPENING: seq<Event> := [StartRun] + LISTS

  lemma EndRecoverLeads(w: World)
    requires w.phase.Recovering? && w.phase.suspects == {}
    ensures Leads(w, EndRecover, w.(phase := Verifying(w.phase.since, w.phase.kept)))
  {
  }

  lemma VerifyLeads(w: World)
    requires w.phase.Verifying? && DestSteady(w)
    ensures Leads(w, VerifyClaims(false, false), w.(phase := Listing(w.phase.since, w.phase.kept)))
  {
  }

  lemma ListLeads(w: World)
    requires w.phase.Listing? && SourceSteady(w) && DestSteady(w)
    ensures Leads(w, List, Listed(w))
  {
    hide IndexOf;
  }

  /** Once nothing is suspect, a run goes straight to its list. */
  lemma ListsAll(w: World)
    requires w.phase.Recovering? && w.phase.suspects == {} && SourceSteady(w) && DestSteady(w)
    ensures Goes(w, LISTS, Listed(w.(phase := Listing(w.phase.since, w.phase.kept))))
  {
    var w1 := w.(phase := Verifying(w.phase.since, w.phase.kept));
    var w2 := w.(phase := Listing(w.phase.since, w.phase.kept));
    hide Leads, Goes, Listed;
    EndRecoverLeads(w);
    VerifyLeads(w1);
    ListLeads(w2);
    LeadsGoes(w, EndRecover, w1);
    LeadsGoes(w1, VerifyClaims(false, false), w2);
    LeadsGoes(w2, List, Listed(w2));
    GoesOn(w1, [VerifyClaims(false, false)], w2, [List], Listed(w2));
    GoesOn(w, [EndRecover], w1, [VerifyClaims(false, false)] + [List], Listed(w2));
    assert [EndRecover] + ([VerifyClaims(false, false)] + [List]) == LISTS;
  }

  /** A run starts on mailboxes that were not renumbered. */
  lemma StartLeads(w: World)
    requires w.phase.NoRun? && Unmoved(w)
    ensures Leads(w, StartRun, Started(w)) && Started(w).phase.kept && Started(w).rows == w.rows
    ensures SourceSteady(Started(w)) && DestSteady(Started(w))
  {
  }

  function FencedFolder(fold: FolderRow): FolderRow {
    fold.(srcValidity := 1, dstValidity := 1)
  }

  /** Listing, by a run that found nothing in flight. */
  function Opened(w: World): World {
    Listed(w.(fold := FencedFolder(w.fold), phase := Listing(w.modseq, true)))
  }

  lemma OpeningLists(w: World)
    requires w.phase.NoRun? && InFlightUids(w.rows) == {} && Unmoved(w) && w.srcValidity == 1 && w.dstValidity == 1
    ensures Goes(w, OPENING, Opened(w))
  {
    StartLeads(w);
    var w1 := Started(w);
    assert w1 == w.(fold := FencedFolder(w.fold), phase := Recovering(w.modseq, true, {}));
    hide Leads, Goes, Listed, Started;
    LeadsGoes(w, StartRun, w1);
    ListsAll(w1);
    GoesOn(w, [StartRun], w1, LISTS, Opened(w));
  }

  function Working1(k: Work, bodies: map<string, Src>, failed: set<Src>): Copy {
    Copy(1, {U}, map[U := k], map[], bodies, failed, {})
  }

  const READ: map<string, Src> := map["b" := U]
  const FENCED := FolderRow(1, 1, 0, 0, None)
  const SYNCED := FolderRow(1, 1, 0, 0, Some(0))
  const FLYING: Book := map[U := Row(DetailOf(LETTER), 0, 0, InFlight, "")]
  const FAILED: Book := map[U := Row(DetailOf(LETTER), 0, 0, Failed, "append failed")]
  const HELD: map<Uid, Mail> := map[1 := LETTER]

  const READS: seq<Event> := [BeginOne(U), FetchBody(U, false)]
  const LOSES: seq<Event> := [AppendError(U, true), AppendGiveUp(U)]
  const REFUSED: seq<Event> := [AppendError(U, false), AppendGiveUp(U)]
  const ENDS: seq<Event> := [EndCopy, Finish(0, false)]
  const AGAIN: seq<Event> := [AppendOk(U, true)]

  /** The one message is listed for copying when it is not settled and nothing is offered for adoption. */
  lemma OneLists(w: World)
    requires w.live == {U} && !Settled(w.rows, U) && (w.dest == map[] || w.fold.lastSync.Some?)
    ensures Opened(w) == w.(fold := FencedFolder(w.fold),
      phase := Copying(Working1(Todo, map[], {}).(since := w.modseq)))
  {
    var l := w.(fold := FencedFolder(w.fold), phase := Listing(w.modseq, true));
    var todo := set u | u in l.live && !Settled(l.rows, u);
    assert todo == {U};
    assert IndexOf(l, todo) == map[];
    assert Listed(l).phase.c.work == map[U := Todo];
  }

  lemma WorkerSteps(w: World, e: Event)
    requires Worker(e) && WorkerEnabled(w, e)
    ensures Enabled(w, e) && Apply(w, e) == WorkerApply(w, e)
  {
    hide WorkerEnabled, WorkerApply;
  }

  lemma RunSteps(w: World, e: Event)
    requires !Outside(e) && !Worker(e) && !Pass(e) && RunEnabled(w, e)
    ensures Enabled(w, e) && Apply(w, e) == RunApply(w, e)
  {
    hide RunEnabled, RunApply;
  }

  /** A world of one message that a run is at work on. */
  function At(dest: map<Uid, Mail>, next: Uid, rows: Book, fold: FolderRow, k: Work, bodies: map<string, Src>,
              failed: set<Src>, dropped: set<Src>): World
  {
    One(dest, next, rows, fold, Copying(Working1(k, bodies, failed))).(dropped := dropped)
  }

  lemma Begins(dest: map<Uid, Mail>, next: Uid, rows: Book, fold: FolderRow, dropped: set<Src>)
    requires StateStore.Begun(rows, U, DetailOf(LETTER)) == FLYING
    ensures var w0 := At(dest, next, rows, fold, Todo, map[], {}, dropped);
            Enabled(w0, BeginOne(U)) &&
            Apply(w0, BeginOne(U)) == At(dest, next, FLYING, fold, CopyProtocol.Begun, map[], {}, dropped)
  {
    var w0 := At(dest, next, rows, fold, Todo, map[], {}, dropped);
    assert map[U := Todo][U := CopyProtocol.Begun] == map[U := CopyProtocol.Begun];
    assert WorkerApply(w0, BeginOne(U)) == At(dest, next, FLYING, fold, CopyProtocol.Begun, map[], {}, dropped);
    hide WorkerEnabled, WorkerApply, Enabled, Apply;
    WorkerSteps(w0, BeginOne(U));
  }

  lemma Reads(dest: map<Uid, Mail>, next: Uid, fold: FolderRow, dropped: set<Src>)
    requires fold.srcValidity == 1
    ensures var w0 := At(dest, next, FLYING, fold, CopyProtocol.Begun, map[], {}, dropped);
            Enabled(w0, FetchBody(U, false)) &&
            Apply(w0, FetchBody(U, false)) == At(dest, next, FLYING, fold, Queued(0), READ, {}, dropped)
  {
    var w0 := At(dest, next, FLYING, fold, CopyProtocol.Begun, map[], {}, dropped);
    assert (map[U := CopyProtocol.Begun])[U := Queued(0)] == map[U := Queued(0)];
    assert map[]["b" := U] == READ;
    assert WorkerApply(w0, FetchBody(U, false)) == At(dest, next, FLYING, fold, Queued(0), READ, {}, dropped);
    hide WorkerEnabled, WorkerApply, Enabled, Apply;
    WorkerSteps(w0, FetchBody(U, false));
  }

  lemma ReadsIt(dest: map<Uid, Mail>, next: Uid, rows: Book, fold: FolderRow, dropped: set<Src>)
    requires StateStore.Begun(rows, U, DetailOf(LETTER)) == FLYING && fold.srcValidity == 1
    ensures Run(At(dest, next, rows, fold, Todo, map[], {}, dropped), READS) ==
            Some(At(dest, next, FLYING, fold, Queued(0), READ, {}, dropped))
  {
    Begins(dest, next, rows, fold, dropped);
    Reads(dest, next, fold, dropped);
    hide Enabled, Apply, At;
    TwoStepsRun(At(dest, next, rows, fold, Todo, map[], {}, dropped), BeginOne(U),
                At(dest, next, FLYING, fold, CopyProtocol.Begun, map[], {}, dropped), FetchBody(U, false),
                At(dest, next, FLYING, fold, Queued(0), READ, {}, dropped));
  }

  lemma Breaks(dest: map<Uid, Mail>, next: Uid, fold: FolderRow, stored: bool, dropped: set<Src>)
    ensures var w0 := At(dest, next, FLYING, fold, Queued(0), READ, {}, dropped);
            var dest', next' := if stored then dest[next := LETTER] else dest, if stored then next + 1 else next;
            Enabled(w0, AppendError(U, stored)) &&
            Apply(w0, AppendError(U, stored)) == At(dest', next', FLYING, fold, Uncertain(0, stored), READ, {}, dropped)
  {
    var w0 := At(dest, next, FLYING, fold, Queued(0), READ, {}, dropped);
    var dest', next' := if stored then dest[next := LETTER] else dest, if stored then next + 1 else next;
    assert (map[U := Queued(0)])[U := Uncertain(0, stored)] == map[U := Uncertain(0, stored)];
    assert Stored(LETTER) == LETTER;
    assert WorkerApply(w0, AppendError(U, stored)) ==
           At(dest', next', FLYING, fold, Uncertain(0, stored), READ, {}, dropped);
    hide WorkerEnabled, WorkerApply, Enabled, Apply;
    WorkerSteps(w0, AppendError(U, stored));
  }

  lemma Fails(dest: map<Uid, Mail>, next: Uid, fold: FolderRow, stored: bool, dropped: set<Src>)
    ensures var w0 := At(dest, next, FLYING, fold, Uncertain(0, stored), READ, {}, dropped);
            Enabled(w0, AppendGiveUp(U)) &&
            Apply(w0, AppendGiveUp(U)) == At(dest, next, FAILED, fold, Finished, READ, {U}, dropped)
  {
    var w0 := At(dest, next, FLYING, fold, Uncertain(0, stored), READ, {}, dropped);
    assert (map[U := Uncertain(0, stored)])[U := Finished] == map[U := Finished];
    assert {} + {U} == {U} && FailedRows(FLYING, U, "append failed") == FAILED;
    assert WorkerApply(w0, AppendGiveUp(U)) == At(dest, next, FAILED, fold, Finished, READ, {U}, dropped);
    hide WorkerEnabled, WorkerApply, Enabled, Apply;
    WorkerSteps(w0, AppendGiveUp(U));
  }

  lemma GivesUp(dest: map<Uid, Mail>, next: Uid, fold: FolderRow, stored: bool, dropped: set<Src>)
    ensures var dest', next' := if stored then dest[next := LETTER] else dest, if stored then next + 1 else next;
            Run(At(dest, next, FLYING, fold, Queued(0), READ, {}, dropped),
              [AppendError(U, stored), AppendGiveUp(U)]) ==
            Some(At(dest', next', FAILED, fold, Finished, READ, {U}, dropped))
  {
    var dest', next' := if stored then dest[next := LETTER] else dest, if stored then next + 1 else next;
    Breaks(dest, next, fold, stored, dropped);
    Fails(dest', next', fold, stored, dropped);
    hide Enabled, Apply, At;
    TwoStepsRun(At(dest, next, FLYING, fold, Queued(0), READ, {}, dropped), AppendError(U, stored),
                At(dest', next', FLYING, fold, Uncertain(0, stored), READ, {}, dropped), AppendGiveUp(U),
                At(dest', next', FAILED, fold, Finished, READ, {U}, dropped));
  }

  lemma Appends(dest: map<Uid, Mail>, next: Uid, fold: FolderRow, dropped: set<Src>)
    ensures var w0 := At(dest, next, FLYING, fold, Queued(0), READ, {}, dropped);
            Enabled(w0, AppendOk(U, true)) &&
            Apply(w0, AppendOk(U, true)) ==
            At(dest[next := LETTER], next + 1, FLYING, fold, Accepted(Some(Placed(1, next))), READ, {}, dropped)
  {
    var w0 := At(dest, next, FLYING, fold, Queued(0), READ, {}, dropped);
    var k := Accepted(Some(Placed(1, next)));
    assert (map[U := Queued(0)])[U := k] == map[U := k];
    assert Stored(LETTER) == LETTER;
    assert WorkerApply(w0, AppendOk(U, true)) ==
           At(dest[next := LETTER], next + 1, FLYING, fold, k, READ, {}, dropped);
    hide WorkerEnabled, WorkerApply, Enabled, Apply;
    WorkerSteps(w0, AppendOk(U, true));
  }

  /** A run that has copied or failed everything ends, and keeps its old watermark if anything failed. */
  lemma Ends(dest: map<Uid, Mail>, next: Uid, rows: Book, fold: FolderRow, failed: set<Src>, dropped: set<Src>)
    ensures var earned := if failed != {} then 0 else 1;
            Run(At(dest, next, rows, fold, Finished, READ, failed, dropped), ENDS) ==
            Some(One(dest, next, rows, Synced(fold, earned, 0, 0), NoRun).(
              dropped := if failed != {} then dropped else {}))
  {
    var w2 := At(dest, next, rows, fold, Finished, READ, failed, dropped);
    var w3 := w2.(phase := Settling(w2.phase.c));
    assert RunEnabled(w2, EndCopy) && RunApply(w2, EndCopy) == w3;
    assert RunEnabled(w3, Finish(0, false)) && RunApply(w3, Finish(0, false)) == Completion(w3, 0, false);
    hide RunEnabled, RunApply, Enabled, Apply;
    RunSteps(w2, EndCopy);
    RunSteps(w3, Finish(0, false));
    TwoStepsRun(w2, EndCopy, w3, Finish(0, false), Completion(w3, 0, false));
  }

  /* ---------- an APPEND given up after it arrived ---------- */

  lemma AppendsAgainRuns()
    ensures Run(At(HELD, 2, FLYING, SYNCED, Queued(0), READ, {}, {}), AGAIN) ==
            Some(At(HELD[2 := LETTER], 3, FLYING, SYNCED, Accepted(Some(Placed(1, 2))), READ, {}, {}))
  {
    Appends(HELD, 2, SYNCED, {});
    hide Enabled, Apply, At;
    PassesRuns([At(HELD, 2, FLYING, SYNCED, Queued(0), READ, {}, {}),
                At(HELD[2 := LETTER], 3, FLYING, SYNCED, Accepted(Some(Placed(1, 2))), READ, {}, {})], AGAIN);
  }

  const LOSING: seq<Event> := OPENING + READS + LOSES + ENDS
  const TWO_RUNS: seq<Event> := LOSING + OPENING + READS + AGAIN

  lemma LosesIt()
    ensures Run(EMPTY, LOSING) == Some(One(HELD, 2, FAILED, SYNCED, NoRun))
  {
    hide Run;
    OpeningLists(EMPTY);
    OneLists(EMPTY);
    ReadsIt(map[], 1, map[], FENCED, {});
    GivesUp(map[], 1, FENCED, true, {});
    Ends(HELD, 2, FAILED, FENCED, {U}, {});
    assert map[][1 := LETTER] == HELD;
    hide Opened;
    RunAppend(EMPTY, OPENING, READS);
    RunAppend(EMPTY, OPENING + READS, LOSES);
    RunAppend(EMPTY, OPENING + READS + LOSES, ENDS);
  }

  /**
   The APPEND arrives but its answer is lost, the last attempt is over, and the
   message is marked failed without asking the destination; the next run appends
   it again.
   */
  lemma GiveUpDuplicates()
    ensures Fresh(EMPTY) && Run(EMPTY, TWO_RUNS).Some? && !AtMostOne(Run(EMPTY, TWO_RUNS).value, U)
  {
    EmptyIsFresh();
    LosesIt();
    hide Run, Fresh;
    var w1 := One(HELD, 2, FAILED, SYNCED, NoRun);
    OpeningLists(w1);
    OneLists(w1);
    ReadsIt(HELD, 2, FAILED, SYNCED, {});
    AppendsAgainRuns();
    hide Opened;
    RunAppend(EMPTY, LOSING, OPENING);
    RunAppend(EMPTY, LOSING + OPENING, READS);
    RunAppend(EMPTY, LOSING + OPENING + READS, AGAIN);
    var w := Run(EMPTY, TWO_RUNS).value;
    assert w.dest[1] == LETTER && w.dest[2] == LETTER;
  }

  lemma EmptyIsFresh()
    ensures Fresh(EMPTY) && Untouched(EMPTY)
  {
    assert Stored(LETTER) == LETTER;
  }

  /* ---------- a claim dropped and not made good ---------- */

  /** The one row, saying that the copy is this one. */
  function DoneAt(d: Uid): Book { map[U := Row(DetailOf(LETTER), 1, d, Done, "")] }

  const DONE: Book := DoneAt(1)
  const WATERMARKED := FolderRow(1, 1, 1, 0, Some(0))

  const COPIES: seq<Event> := [AppendOk(U, true), RecordCopy(U)]
  const LOST: seq<Event> := [DestDeletes(1), StartRun]
  const DROPS: seq<Event> := [EndRecover, VerifyClaims(false, true)]

  lemma Records(dest: map<Uid, Mail>, next: Uid, d: Uid, fold: FolderRow, dropped: set<Src>)
    ensures var w0 := At(dest, next, FLYING, fold, Accepted(Some(Placed(1, d))), READ, {}, dropped);
            Enabled(w0, RecordCopy(U)) &&
            Apply(w0, RecordCopy(U)) == At(dest, next, DoneAt(d), fold, Finished, READ, {}, dropped)
  {
    var w0 := At(dest, next, FLYING, fold, Accepted(Some(Placed(1, d))), READ, {}, dropped);
    assert (map[U := Accepted(Some(Placed(1, d)))])[U := Finished] == map[U := Finished];
    assert Completed(FLYING, U, 1, d) == DoneAt(d);
    assert WorkerApply(w0, RecordCopy(U)) == At(dest, next, DoneAt(d), fold, Finished, READ, {}, dropped);
    hide WorkerEnabled, WorkerApply, Enabled, Apply;
    WorkerSteps(w0, RecordCopy(U));
  }

  lemma CopiesAndRecords(next: Uid, fold: FolderRow, dropped: set<Src>)
    ensures Run(At(map[], next, FLYING, fold, Queued(0), READ, {}, dropped), COPIES) ==
            Some(At(map[next := LETTER], next + 1, DoneAt(next), fold, Finished, READ, {}, dropped))
  {
    var dest: map<Uid, Mail> := map[next := LETTER];
    assert map[][next := LETTER] == dest;
    Appends(map[], next, fold, dropped);
    Records(dest, next + 1, next, fold, dropped);
    hide Enabled, Apply, At;
    TwoStepsRun(At(map[], next, FLYING, fold, Queued(0), READ, {}, dropped), AppendOk(U, true),
                At(dest, next + 1, FLYING, fold, Accepted(Some(Placed(1, next))), READ, {}, dropped), RecordCopy(U),
                At(dest, next + 1, DoneAt(next), fold, Finished, READ, {}, dropped));
  }

  const EARNS: seq<Event> := OPENING + READS + COPIES + ENDS

  /** A first run that copies the message and earns its watermark. */
  lemma FirstRun()
    ensures Run(EMPTY, EARNS) == Some(One(HELD, 2, DONE, WATERMARKED, NoRun))
  {
    hide Run;
    OpeningLists(EMPTY);
    OneLists(EMPTY);
    ReadsIt(map[], 1, map[], FENCED, {});
    CopiesAndRecords(1, FENCED, {});
    Ends(HELD, 2, DONE, FENCED, {}, {});
    RunAppend(EMPTY, OPENING, READS);
    RunAppend(EMPTY, OPENING + READS, COPIES);
    RunAppend(EMPTY, OPENING + READS + COPIES, ENDS);
  }

  lemma CopyIsLost()
    ensures Run(One(HELD, 2, DONE, WATERMARKED, NoRun), LOST) ==
            Some(One(map[], 2, DONE, WATERMARKED, Recovering(1, true, {})))
  {
    var w0 := One(HELD, 2, DONE, WATERMARKED, NoRun);
    var w1 := One(map[], 2, DONE, WATERMARKED, NoRun);
    var w2 := One(map[], 2, DONE, WATERMARKED, Recovering(1, true, {}));
    assert HELD - {1} == map[];
    assert InFlightUids(DONE) == {};
    assert Enabled(w0, DestDeletes(1)) && Apply(w0, DestDeletes(1)) == w1;
    assert RunEnabled(w1, StartRun) && RunApply(w1, StartRun) == w2;
    hide RunEnabled, RunApply, Enabled, Apply;
    RunSteps(w1, StartRun);
    TwoStepsRun(w0, DestDeletes(1), w1, StartRun, w2);
  }

  lemma ClaimCannotBeHonoured()
    ensures ClaimedCount(DONE, 1) != 0 && Unhonoured(DONE, 1, map[]) == {U}
  {
    var m := Mirrored(DONE, 1);
    assert U in m && m[U] == 1;
    assert 1 in ClaimedUids(DONE, 1);
    assert m.Keys == {U};
  }

  /** The run that comes to list again what it could not find. */
  function Relisting(): World {
    One(map[], 2, map[], WATERMARKED, Listing(1, true)).(dropped := {U})
  }

  lemma VerifyDropsIt()
    ensures Verified(One(map[], 2, DONE, WATERMARKED, Verifying(1, true)), false, true) == Relisting()
  {
    ClaimCannotBeHonoured();
    hide Mirrored, ClaimedUids, ClaimedCount, Unhonoured;
    assert DONE - {U} == map[];
    assert {} + {U} == {U};
  }

  lemma VerifySteps(w: World, full: bool, verify: bool)
    requires w.phase.Verifying? && DestSteady(w)
    ensures Enabled(w, VerifyClaims(full, verify)) && Apply(w, VerifyClaims(full, verify)) == Verified(w, full, verify)
  {
    hide Verified;
  }

  lemma ClaimIsDropped()
    ensures Run(One(map[], 2, DONE, WATERMARKED, Recovering(1, true, {})), DROPS) == Some(Relisting())
  {
    var w0 := One(map[], 2, DONE, WATERMARKED, Recovering(1, true, {}));
    var w1 := One(map[], 2, DONE, WATERMARKED, Verifying(1, true));
    EndRecoverLeads(w0);
    VerifyDropsIt();
    assert DestSteady(w1);
    hide Verified, Exact;
    VerifySteps(w1, false, true);
    hide Enabled, Apply;
    TwoStepsRun(w0, EndRecover, w1, VerifyClaims(false, true), Relisting());
  }

  lemma DropsIt()
    ensures Run(EMPTY, EARNS + LOST + DROPS) == Some(Relisting())
  {
    hide Run;
    FirstRun();
    CopyIsLost();
    ClaimIsDropped();
    RunAppend(EMPTY, EARNS, LOST);
    RunAppend(EMPTY, EARNS + LOST, DROPS);
  }

  const KILLED_RUNS: seq<Event> := EARNS + LOST + DROPS + [Crash]

  /**
   A copy vanishes from the destination, the run that notices drops the claim
   and is killed before it copies again, and every later run skips the folder:
   the watermark still says that nothing moved.
   */
  lemma DroppedClaimIsSkipped()
    ensures Untouched(EMPTY) && Run(EMPTY, KILLED_RUNS).Some?
    ensures var w := Run(EMPTY, KILLED_RUNS).value;
            CanSkip(w, false, false, true, Some(Count(1, |w.dest|))) && w.live == {U} && w.rows == map[] &&
              w.dest == map[]
  {
    EmptyIsFresh();
    hide Fresh, Untouched;
    DropsIt();
    var w := Relisting().(phase := NoRun);
    assert Enabled(Relisting(), Crash) && Apply(Relisting(), Crash) == w;
    PassesRuns([Relisting(), w], [Crash]);
    hide Run;
    RunAppend(EMPTY, EARNS + LOST + DROPS, [Crash]);
    assert ClaimedUids<Src>(map[], 1) == {};
  }

  const REPAIRS: seq<Event> := [List] + READS + REFUSED + ENDS
  const UNREPAIRED_RUNS: seq<Event> := EARNS + LOST + DROPS + REPAIRS

  lemma RelistsIt()
    ensures Run(Relisting(), [List]) ==
            Some(At(map[], 2, map[], WATERMARKED, Todo, map[], {}, {U}))
  {
    var l := Relisting();
    var todo := set u | u in l.live && !Settled(l.rows, u);
    assert todo == {U};
    assert IndexOf(l, todo) == map[];
    assert Listed(l).phase.c.work == map[U := Todo];
    assert Enabled(l, List) && Apply(l, List) == Listed(l);
    PassesRuns([l, Listed(l)], [List]);
  }

  function Unrepaired(): World {
    One(map[], 2, FAILED, WATERMARKED, NoRun).(dropped := {U})
  }

  lemma RepairFails()
    ensures Run(Relisting(), REPAIRS) == Some(Unrepaired())
  {
    RelistsIt();
    ReadsIt(map[], 2, map[], WATERMARKED, {U});
    GivesUp(map[], 2, WATERMARKED, false, {U});
    Ends(map[], 2, FAILED, WATERMARKED, {U}, {U});
    hide Run, At;
    RunAppend(Relisting(), [List], READS);
    RunAppend(Relisting(), [List] + READS, REFUSED);
    RunAppend(Relisting(), [List] + READS + REFUSED, ENDS);
  }

  /**
   No crash is needed: the run that drops the claim goes on to copy the message
   again, the server refuses it, the run ends keeping its old watermark, and every
   later run skips the folder with the message missing.
   */
  lemma FailedRepairIsSkipped()
    ensures Untouched(EMPTY) && Run(EMPTY, UNREPAIRED_RUNS).Some?
    ensures var w := Run(EMPTY, UNREPAIRED_RUNS).value;
            CanSkip(w, false, false, true, Some(Count(1, |w.dest|))) && w.live == {U} && w.dest == map[] &&
            U in w.rows && w.rows[U].status.Failed? && w.phase.NoRun?
  {
    EmptyIsFresh();
    DropsIt();
    RepairFails();
    hide Run, Fresh, Untouched;
    RunAppend(EMPTY, EARNS + LOST + DROPS, REPAIRS);
    assert ClaimedUids(FAILED, 1) == {};
  }

  /* ---------- what the vote is for ---------- */

  const DELETED: seq<Event> := EARNS + [DestDeletes(1)]
  const HEALED: seq<Event> := EARNS + LOST + DROPS + ([List] + READS + COPIES + ENDS)

  lemma RepairWorks()
    ensures Run(Relisting(), [List] + READS + COPIES + ENDS) ==
            Some(One(map[2 := LETTER], 3, DoneAt(2), WATERMARKED, NoRun))
  {
    RelistsIt();
    ReadsIt(map[], 2, map[], WATERMARKED, {U});
    CopiesAndRecords(2, WATERMARKED, {U});
    Ends(map[2 := LETTER], 3, DoneAt(2), WATERMARKED, {}, {U});
    hide Run, At;
    RunAppend(Relisting(), [List], READS);
    RunAppend(Relisting(), [List] + READS, COPIES);
    RunAppend(Relisting(), [List] + READS + COPIES, ENDS);
  }

  /**
   What the vote is for: the source stands still, somebody deletes the copy from the
   destination, and although nothing else would stop the folder being skipped, it
   cannot be. The ordinary run that follows drops the claim, copies the message again
   and records where; and then the folder is skipped again.
   */
  lemma DeletedCopyIsMadeGood()
    ensures Untouched(EMPTY) && Run(EMPTY, DELETED).Some? && Run(EMPTY, HEALED).Some?
    ensures var w := Run(EMPTY, DELETED).value;
            w.dest == map[] && Enabled(w, SkipRun(false, false, false, None)) &&
            forall full, delete2 :: !Enabled(w, SkipRun(full, delete2, true, Some(Count(w.dstValidity, |w.dest|))))
    ensures var w := Run(EMPTY, HEALED).value;
            w.dest == map[2 := LETTER] && U in w.rows && w.rows[U].status.Done? && w.rows[U].dstUid == 2 &&
            Enabled(w, SkipRun(false, false, true, Some(Count(w.dstValidity, |w.dest|))))
  {
    EmptyIsFresh();
    hide Fresh, Untouched;
    FirstRun();
    DropsIt();
    RepairWorks();
    CopyIsDeleted();
    VoteStops();
    hide Run, Enabled;
    RunAppend(EMPTY, EARNS, [DestDeletes(1)]);
    RunAppend(EMPTY, EARNS + LOST + DROPS, [List] + READS + COPIES + ENDS);
  }

  lemma CopyIsDeleted()
    ensures Run(One(HELD, 2, DONE, WATERMARKED, NoRun), [DestDeletes(1)]) ==
            Some(One(map[], 2, DONE, WATERMARKED, NoRun))
  {
    var w0 := One(HELD, 2, DONE, WATERMARKED, NoRun);
    var w1 := One(map[], 2, DONE, WATERMARKED, NoRun);
    assert HELD - {1} == map[];
    assert Enabled(w0, DestDeletes(1)) && Apply(w0, DestDeletes(1)) == w1;
    PassesRuns([w0, w1], [DestDeletes(1)]);
  }

  lemma VoteStops()
    ensures var w := One(map[], 2, DONE, WATERMARKED, NoRun);
            Enabled(w, SkipRun(false, false, false, None)) &&
            forall full, delete2 :: !Enabled(w, SkipRun(full, delete2, true, Some(Count(1, 0))))
    ensures var w := One(map[2 := LETTER], 3, DoneAt(2), WATERMARKED, NoRun);
            Enabled(w, SkipRun(false, false, true, Some(Count(1, |w.dest|))))
  {
    var w1 := One(map[], 2, DONE, WATERMARKED, NoRun);
    var w2 := One(map[2 := LETTER], 3, DoneAt(2), WATERMARKED, NoRun);
    assert 1 in SkipVote.NamedUnder(DONE, 1) by {
      assert U in DONE;
    }
    assert SkipVote.NamedUnder(DoneAt(2), 1) == {2};
    SkipVote.SilenceSkipsIff(w1, false, false, false, None);
    SkipVote.SkipsIff(w2, false, false);
    forall full, delete2
      ensures !Enabled(w1, SkipRun(full, delete2, true, Some(Count(1, 0))))
    {
      SkipVote.SkipsIff(w1, full, delete2);
    }
  }

  /* ---------- a destination made anew ---------- */

  const ANEW_RUNS: seq<Event> := EARNS + [DestRenumbered(2, map[], 1)]

  /**
   The destination mailbox is deleted and made anew, so it is empty and has
   another number. The claims counted under that number are none, the source has
   not moved, and every run skips the folder whatever the destination says.
   */
  lemma RemadeDestinationIsSkipped()
    ensures Untouched(EMPTY) && Run(EMPTY, ANEW_RUNS).Some?
    ensures var w := Run(EMPTY, ANEW_RUNS).value;
            CanSkip(w, false, false, true, Some(Count(w.dstValidity, |w.dest|))) && w.live == {U} && w.dest == map[] &&
            w.dropped == {}
  {
    EmptyIsFresh();
    hide Fresh, Untouched;
    FirstRun();
    var w0 := One(HELD, 2, DONE, WATERMARKED, NoRun);
    var e := DestRenumbered(2, map[], 1);
    var w1 := w0.(dstValidity := 2, dest := map[], destNext := 1);
    assert Enabled(w0, e) && Apply(w0, e) == w1;
    PassesRuns([w0, w1], [e]);
    hide Run;
    RunAppend(EMPTY, EARNS, [e]);
    FastPath.VoteIsVoidUnderOtherNumbers(w1, false, false, true, Count(2, 0));
  }

  /* ---------- when giving up is safe ---------- */

  /** What the steps of a history without mistakes keep. */
  ghost predicate Good(w: World) {
    Ledger(w) && RowsTrue(w) && Once(w)
  }

  lemma StepKeepsGood(w: World, e: Event)
    requires Good(w) && Enabled(w, e) && Exact(w, e)
    ensures Good(Apply(w, e))
  {
    hide Ledger, RowsTrue, Once, Enabled, Apply, Exact, Honest;
    ExactIsHonest(w, e);
    StepKeepsOnce(w, e);
    StepKeepsTrue(w, e);
    StepKeepsLedger(w, e);
  }

  lemma GoodMeans(w: World, u: Src)
    requires Good(w) && Working(w, u)
    ensures Local(w, u) && (WorkOn(w, u).Uncertain? ==> (WorkOn(w, u).stored <==> Has(w, u)))
    ensures Locate(w.dest, w.mail[u].id) == 0 <==> !Has(w, u)
    ensures !WorkOn(w, u).Noted? && !WorkOn(w, u).Unsettled?
  {
    LedgerMeans(w);
    StartsLocal(w, u);
    LocateIsExact(w, u);
    OnceSource(w);
    NoRepeats(w, w.phase.c, u);
  }

  /** How far the work on a message is from its end. */
  function Rank(k: Work): nat {
    match k
    case Todo => 5
    case Begun => 4
    case Uncertain(_, _) => 3
    case Queued(_) => 2
    case Accepted(_) => 1
    case _ => 0
  }

  /** The same world, but for one message having been given up. */
  function Without(w: World, u: Src): World
    requires Doubtful(w, u)
  {
    GivenUp(w, u, "append failed")
  }

  /** Whether one message's copy landed is not known. */
  predicate Doubtful(w: World, u: Src) {
    Working(w, u) && WorkOn(w, u).Uncertain? && u in w.rows
  }

  /** And another's work is to be brought on. */
  predicate Beside(w: World, u: Src, v: Src) {
    Doubtful(w, u) && Working(w, v) && v != u
  }

  /**
   A step that brings the work on `v` nearer to its end, and is the same step with
   the same effect when `u` has been given up.
   */
  ghost predicate Brings(w: World, u: Src, v: Src, e: Event)
    requires Beside(w, u, v)
  {
    Worker(e) && e.u == v && WorkerEnabled(w, e) && Exact(w, e) &&
    WorkerEnabled(Without(w, u), e) && Exact(Without(w, u), e) &&
    BringsTo(w, u, v, WorkerApply(w, e)) && WorkerApply(Without(w, u), e) == Without(WorkerApply(w, e), u)
  }

  /** What the steps on one message leave of the rest. */
  ghost predicate Kept(w: World, u: Src, v: Src, w': World)
    requires Beside(w, u, v)
  {
    Beside(w', u, v) && WorkOn(w', u) == WorkOn(w, u) && w'.rows[u] == w.rows[u] && w'.mail == w.mail &&
    w'.live == w.live && w'.fold == w.fold && (forall d :: d in w.dest ==> d in w'.dest && w'.dest[d] == w.dest[d]) &&
    w'.phase.c.work.Keys == w.phase.c.work.Keys &&
    forall x :: x in w.phase.c.work && x != v ==> w'.phase.c.work[x] == w.phase.c.work[x]
  }

  ghost predicate BringsTo(w: World, u: Src, v: Src, w': World)
    requires Beside(w, u, v)
  {
    Kept(w, u, v, w') && Rank(WorkOn(w', v)) < Rank(WorkOn(w, v))
  }

  lemma WorkCommutes(w: World, u: Src, v: Src, k: Work)
    requires Beside(w, u, v)
    ensures WithWork(Without(w, u), v, k) == Without(WithWork(w, v, k), u)
  {
    assert w.phase.c.work[u := Finished][v := k] == w.phase.c.work[v := k][u := Finished];
  }

  lemma RowCommutes(w: World, u: Src, v: Src, k: Work, row: Row)
    requires Beside(w, u, v)
    ensures var w1 := WithWork(w, v, k).(rows := w.rows[v := row]);
            WithWork(Without(w, u), v, k).(rows := Without(w, u).rows[v := row]) == Without(w1, u)
  {
    WorkCommutes(w, u, v, k);
    var failed := FailedRows(w.rows, u, "append failed");
    assert failed[v := row] == FailedRows(w.rows[v := row], u, "append failed");
  }

  lemma FilterBrings(w: World, u: Src, v: Src)
    requires Beside(w, u, v) && WorkOn(w, v).Todo? && (v in w.rows || !Has(w, v))
    ensures Brings(w, u, v, FilterOut(v))
  {
    WorkCommutes(w, u, v, Finished);
    hide Has, HasCopy;
  }

  lemma BeginBrings(w: World, u: Src, v: Src)
    requires Beside(w, u, v) && WorkOn(w, v).Todo?
    ensures Brings(w, u, v, BeginOne(v))
  {
    RowCommutes(w, u, v, Begun, BegunRow(w.rows, v, DetailOf(w.mail[v])));
    assert BegunRow(Without(w, u).rows, v, DetailOf(w.mail[v])) == BegunRow(w.rows, v, DetailOf(w.mail[v]));
  }

  lemma AdoptBrings(w: World, u: Src, v: Src, d: Uid)
    requires Beside(w, u, v) && WorkOn(w, v).Begun? && v in w.rows
    requires d in w.phase.c.index && w.phase.c.index[d] == w.mail[v].id.digest
    ensures Brings(w, u, v, Adopt(v, d))
  {
    RowCommutes(w, u, v, Finished, Completed(w.rows, v, w.fold.dstValidity, d)[v]);
    assert Without(w, u).rows[v] == w.rows[v];
    assert w.rows[v := Completed(w.rows, v, w.fold.dstValidity, d)[v]] == Completed(w.rows, v, w.fold.dstValidity, d);
  }

  lemma FetchBrings(w: World, u: Src, v: Src)
    requires Beside(w, u, v) && WorkOn(w, v).Begun? && SourceSteady(w) && NoneToAdopt(w.phase.c, w.mail[v].id.digest)
    requires w.mail[v].body !in w.phase.c.bodies
    ensures Brings(w, u, v, FetchBody(v, false))
  {
    if v in w.live {
      WorkCommutes(w, u, v, Queued(0));
    } else {
      RowCommutes(w, u, v, Finished, GoneRow(w.rows, v));
      assert GoneRow(Without(w, u).rows, v) == GoneRow(w.rows, v);
    }
  }

  lemma AppendBrings(w: World, u: Src, v: Src)
    requires Beside(w, u, v) && WorkOn(w, v).Queued? && w.destNext !in w.dest
    ensures Brings(w, u, v, AppendOk(v, true))
  {
    WorkCommutes(w, u, v, Accepted(Some(Placed(w.dstValidity, w.destNext))));
  }

  lemma NotLocatedBrings(w: World, u: Src, v: Src)
    requires Beside(w, u, v) && WorkOn(w, v).Uncertain? && v in w.rows && Locate(w.dest, w.mail[v].id) == 0
    ensures Brings(w, u, v, LocateAfterError(v))
  {
    hide Locate;
    var k := Queued(WorkOn(w, v).attempt + 1);
    WorkCommutes(w, u, v, k);
    assert Relocated(w, v) == WithWork(w, v, k) && Relocated(Without(w, u), v) == WithWork(Without(w, u), v, k);
    hide Relocated;
  }

  lemma LocatedBrings(w: World, u: Src, v: Src)
    requires Beside(w, u, v) && WorkOn(w, v).Uncertain? && v in w.rows && Locate(w.dest, w.mail[v].id) != 0
    ensures Brings(w, u, v, LocateAfterError(v))
  {
    hide Locate;
    var d := Locate(w.dest, w.mail[v].id);
    var row := Completed(w.rows, v, w.fold.dstValidity, d)[v];
    RowCommutes(w, u, v, Finished, row);
    assert Without(w, u).rows[v] == w.rows[v];
    assert w.rows[v := row] == Completed(w.rows, v, w.fold.dstValidity, d);
  }

  lemma RecordBrings(w: World, u: Src, v: Src)
    requires Beside(w, u, v) && WorkOn(w, v).Accepted? && v in w.rows
    ensures Brings(w, u, v, RecordCopy(v))
  {
    hide Locate;
    var at := PlaceOf(w, v);
    var row := Completed(w.rows, v, at.validity, at.uid)[v];
    RowCommutes(w, u, v, Finished, row);
    assert Without(w, u).rows[v] == w.rows[v] && PlaceOf(Without(w, u), v) == at;
    assert w.rows[v := row] == Completed(w.rows, v, at.validity, at.uid);
  }

  /** Whatever the network did so far, the work on a message can be brought on by a step without mistakes. */
  lemma NextStep(w: World, u: Src, v: Src) returns (e: Event)
    requires Good(w) && Beside(w, u, v) && !WorkOn(w, v).Finished?
    ensures Brings(w, u, v, e)
  {
    GoodMeans(w, v);
    StageMeans(w, v);
    hide Good, Local, Brings, Has, Locate, NoneToAdopt, Settled;
    match WorkOn(w, v)
    case Todo =>
      if v in w.rows || !Has(w, v) {
        FilterBrings(w, u, v);
        e := FilterOut(v);
      } else {
        BeginBrings(w, u, v);
        e := BeginOne(v);
      }
    case Begun =>
      if NoneToAdopt(w.phase.c, w.mail[v].id.digest) {
        FetchBrings(w, u, v);
        e := FetchBody(v, false);
      } else {
        var d := Offer(w.phase.c, w.mail[v].id.digest);
        AdoptBrings(w, u, v, d);
        e := Adopt(v, d);
      }
    case Queued(_) =>
      AppendBrings(w, u, v);
      e := AppendOk(v, true);
    case Uncertain(_, _) =>
      if Locate(w.dest, w.mail[v].id) == 0 {
        NotLocatedBrings(w, u, v);
      } else {
        LocatedBrings(w, u, v);
      }
      e := LocateAfterError(v);
    case Accepted(_) =>
      RecordBrings(w, u, v);
      e := RecordCopy(v);
  }

  lemma Offer(c: Copy, digest: string) returns (d: Uid)
    requires !NoneToAdopt(c, digest)
    ensures d in c.index && c.index[d] == digest
  {
    d :| d in c.index && c.index[d] == digest;
  }

  lemma StageMeans(w: World, v: Src)
    requires Good(w) && Working(w, v)
    ensures w.destNext !in w.dest && SourceSteady(w)
    ensures Suspect(WorkOn(w, v)) ==> v in w.rows
    ensures WorkOn(w, v).Begun? ==> w.mail[v].body !in w.phase.c.bodies
  {
    GoodMeans(w, v);
    LedgerMeans(w);
    OnceSource(w);
    hide Ledger, RowsTrue, Once, CopyOk;
    if WorkOn(w, v).Begun? {
      NotReadBefore(w, v);
    }
  }

  /* ---------- bringing a run to its end ---------- */

  lemma BringsGood(w: World, u: Src, v: Src, e: Event)
    requires Good(w) && Beside(w, u, v) && Brings(w, u, v, e)
    ensures Good(WorkerApply(w, e)) && Goes(Without(w, u), [e], Without(WorkerApply(w, e), u))
  {
    WorkerSteps(w, e);
    WorkerSteps(Without(w, u), e);
    hide Good, WorkerEnabled, WorkerApply, Enabled, Apply, Exact, BringsTo, Goes, Without;
    StepKeepsGood(w, e);
    GoesOne(Without(w, u), e);
  }

  lemma Onward(w: World, u: Src, v: Src) returns (e: Event, w1: World)
    requires Good(w) && Beside(w, u, v) && !WorkOn(w, v).Finished?
    ensures Good(w1) && Beside(w1, u, v) && Doubtful(w1, u) && Working(w1, v) && Kept(w, u, v, w1)
    ensures Goes(Without(w, u), [e], Without(w1, u)) && Rank(WorkOn(w1, v)) < Rank(WorkOn(w, v))
  {
    e := NextStep(w, u, v);
    BringsGood(w, u, v, e);
    w1 := WorkerApply(w, e);
    hide Good, WorkerEnabled, WorkerApply, Exact, Goes, Without;
  }

  lemma KeptKept(w: World, u: Src, v: Src, w1: World, w2: World)
    requires Beside(w, u, v) && Beside(w1, u, v) && Kept(w, u, v, w1) && Kept(w1, u, v, w2)
    ensures Kept(w, u, v, w2)
  {
  }

  lemma NothingMoved(w: World, u: Src, v: Src)
    requires Beside(w, u, v)
    ensures Kept(w, u, v, w) && Goes(Without(w, u), [], Without(w, u))
  {
  }

  /** One message's work is brought to its end, and nothing else about the run changes but the destination grows. */
  lemma {:induction false} FinishOne(w: World, u: Src, v: Src) returns (es: seq<Event>, w': World)
    requires Good(w) && Doubtful(w, u) && Working(w, v) && Beside(w, u, v)
    ensures Good(w') && Doubtful(w', u) && Working(w', v) && WorkOn(w', v).Finished? && Kept(w, u, v, w')
    ensures Goes(Without(w, u), es, Without(w', u))
    decreases Rank(WorkOn(w, v))
  {
    hide *;
    if WorkOn(w, v).Finished? {
      NothingMoved(w, u, v);
      es, w' := [], w;
    } else {
      var e, w1 := Onward(w, u, v);
      var rest;
      rest, w' := FinishOne(w1, u, v);
      KeptKept(w, u, v, w1, w');
      es := [e] + rest;
      GoesOn(Without(w, u), [e], Without(w1, u), rest, Without(w', u));
    }
  }

  function Unfinished(w: World, u: Src): set<Src>
    requires w.phase.Copying?
  {
    set x | x in w.phase.c.work && x != u && !w.phase.c.work[x].Finished?
  }

  /** What bringing any of the other messages on leaves of the run. */
  ghost predicate KeptBy(w: World, u: Src, w': World)
    requires Doubtful(w, u)
  {
    Doubtful(w', u) && WorkOn(w', u) == WorkOn(w, u) && w'.rows[u] == w.rows[u] && w'.mail == w.mail &&
    w'.live == w.live && w'.fold == w.fold && forall d :: d in w.dest ==> d in w'.dest && w'.dest[d] == w.dest[d]
  }

  lemma OneLess(w: World, u: Src, v: Src, w1: World)
    requires Beside(w, u, v) && Kept(w, u, v, w1) && WorkOn(w1, v).Finished? && v in Unfinished(w, u)
    ensures Unfinished(w1, u) == Unfinished(w, u) - {v} && |Unfinished(w1, u)| < |Unfinished(w, u)| && KeptBy(w, u, w1)
  {
  }

  lemma KeptByKeptBy(w: World, u: Src, w1: World, w2: World)
    requires Doubtful(w, u) && Doubtful(w1, u) && KeptBy(w, u, w1) && KeptBy(w1, u, w2)
    ensures KeptBy(w, u, w2)
  {
  }

  lemma NobodyMoved(w: World, u: Src)
    requires Doubtful(w, u)
    ensures KeptBy(w, u, w) && Goes(Without(w, u), [], Without(w, u))
  {
  }

  lemma Another(w: World, u: Src) returns (v: Src)
    requires Good(w) && Doubtful(w, u) && Unfinished(w, u) != {}
    ensures v in Unfinished(w, u) && Working(w, v) && Beside(w, u, v)
  {
    v :| v in Unfinished(w, u);
    WorkIsMail(w, v);
  }

  /** Every other message's work is brought to its end. */
  lemma {:induction false} FinishOthers(w: World, u: Src) returns (es: seq<Event>, w': World)
    requires w.phase.Copying? && Good(w) && Doubtful(w, u)
    ensures w'.phase.Copying? && Good(w') && Doubtful(w', u) && KeptBy(w, u, w') && Unfinished(w', u) == {}
    ensures Goes(Without(w, u), es, Without(w', u))
    decreases |Unfinished(w, u)|
  {
    hide *;
    if Unfinished(w, u) == {} {
      NobodyMoved(w, u);
      es, w' := [], w;
    } else {
      var v := Another(w, u);
      var first, w1 := FinishOne(w, u, v);
      OneLess(w, u, v, w1);
      StillCopying(w1, u);
      var rest;
      rest, w' := FinishOthers(w1, u);
      KeptByKeptBy(w, u, w1, w');
      es := first + rest;
      GoesOn(Without(w, u), first, Without(w1, u), rest, Without(w', u));
    }
  }

  lemma StillCopying(w: World, u: Src)
    requires Doubtful(w, u)
    ensures w.phase.Copying?
  {
  }

  lemma WorkIsMail(w: World, v: Src)
    requires Good(w) && w.phase.Copying? && v in w.phase.c.work
    ensures Working(w, v)
  {
    LedgerHolds(w);
  }

  /** The world after a run that gave one message up and brought the others to their end. */
  function Synced1(w: World, u: Src): World
    requires Doubtful(w, u)
  {
    var w1 := Without(w, u);
    w1.(phase := NoRun, fold := w1.fold.(lastSync := Some(0)))
  }

  /** With all other work over, the run that gave up ends, and the folder counts as synced. */
  lemma RunEnds(w: World, u: Src)
    requires Doubtful(w, u) && Unfinished(w, u) == {}
    ensures Goes(Without(w, u), ENDS, Synced1(w, u))
  {
    var w1 := Without(w, u);
    var w2 := w1.(phase := Settling(w1.phase.c));
    var w3 := Synced1(w, u);
    assert w1.phase == Copying(w1.phase.c);
    assert forall x :: x in w1.phase.c.work ==> w1.phase.c.work[x].Finished? by {
      forall x | x in w1.phase.c.work
        ensures w1.phase.c.work[x].Finished?
      {
        assert x != u ==> x !in Unfinished(w, u);
      }
    }
    assert u in w1.phase.c.failed;
    hide Without;
    assert RunEnabled(w1, EndCopy) && RunApply(w1, EndCopy) == w2;
    assert RunEnabled(w2, Finish(0, false)) && RunApply(w2, Finish(0, false)) == w3;
    hide RunEnabled, RunApply, Enabled, Apply;
    RunSteps(w1, EndCopy);
    RunSteps(w2, Finish(0, false));
    assert Leads(w1, EndCopy, w2) && Leads(w2, Finish(0, false), w3);
    hide Leads, Goes;
    LeadsGoes(w1, EndCopy, w2);
    LeadsGoes(w2, Finish(0, false), w3);
    GoesOn(w1, [EndCopy], w2, [Finish(0, false)], w3);
    assert [EndCopy] + [Finish(0, false)] == ENDS;
  }

  /* ---------- the next run ---------- */

  lemma RecoverStep(w: World, v: Src)
    requires w.phase.Recovering? && v in w.phase.suspects && v in w.rows && v in w.mail && SourceSteady(w) &&
      DestSteady(w)
    ensures Leads(w, RecoverOne(v), Recovered(w, v))
    ensures var w' := Recovered(w, v);
            w' == w.(rows := w'.rows, phase := w.phase.(suspects := w.phase.suspects - {v})) &&
            w'.rows.Keys == w.rows.Keys && forall u :: u in w.rows && u != v ==> w'.rows[u] == w.rows[u]
  {
    hide Locate;
    assert RunEnabled(w, RecoverOne(v)) && RunApply(w, RecoverOne(v)) == Recovered(w, v);
    assert Exact(w, RecoverOne(v));
    hide RunEnabled, RunApply, Enabled, Apply, Exact;
    RunSteps(w, RecoverOne(v));
  }

  /** The suspects can be gone through one by one, and no other row is touched. */
  lemma {:induction false} RecoverAll(w: World, u: Src) returns (es: seq<Event>, rows: Book)
    requires w.phase.Recovering? && w.phase.suspects <= w.rows.Keys && w.rows.Keys <= w.mail.Keys
    requires u !in w.phase.suspects && SourceSteady(w) && DestSteady(w)
    ensures Goes(w, es, w.(rows := rows, phase := w.phase.(suspects := {})))
    ensures Settled(rows, u) <==> Settled(w.rows, u)
    decreases |w.phase.suspects|
  {
    if w.phase.suspects == {} {
      es, rows := [], w.rows;
      assert w.(rows := rows, phase := w.phase.(suspects := {})) == w;
    } else {
      hide Leads, Goes, Recovered;
      var v :| v in w.phase.suspects;
      RecoverStep(w, v);
      var rest;
      rest, rows := RecoverAll(Recovered(w, v), u);
      LeadsGoes(w, RecoverOne(v), Recovered(w, v));
      es := [RecoverOne(v)] + rest;
      GoesOn(w, [RecoverOne(v)], Recovered(w, v), rest, w.(rows := rows, phase := w.phase.(suspects := {})));
    }
  }

  lemma ListedIsTodo(w: World, u: Src)
    requires w.phase.Listing? && w.phase.kept && w.fold.lastSync.Some? && u in w.live && !Settled(w.rows, u)
    ensures var w' := Listed(w);
            u in w'.phase.c.work && w'.phase.c.work[u].Todo? && w'.phase.c.index == map[] && w'.phase.c.bodies == map[]
  {
    var todo := set v | v in w.live && !Settled(w.rows, v);
    assert u in todo && IndexOf(w, todo) == map[];
  }

  lemma BeginsIt(w: World, u: Src)
    requires Working(w, u) && WorkOn(w, u).Todo?
    ensures Leads(w, BeginOne(u), WithWork(w, u, Begun).(rows := StateStore.Begun(w.rows, u, DetailOf(w.mail[u]))))
  {
  }

  lemma ReadsItNow(w: World, u: Src)
    requires Working(w, u) && WorkOn(w, u).Begun? && w.phase.c.index == map[] && w.phase.c.bodies == map[] &&
      u in w.live
    requires SourceSteady(w)
    ensures Leads(w, FetchBody(u, false), Fetched(w, u, false)) && Working(Fetched(w, u, false), u)
    ensures WorkOn(Fetched(w, u, false), u).Queued? && Fetched(w, u, false).dest == w.dest
    ensures Fetched(w, u, false).destNext == w.destNext
  {
  }

  lemma AppendsIt(w: World, u: Src)
    requires Working(w, u) && WorkOn(w, u).Queued?
    ensures Leads(w, AppendOk(u, false), WithWork(WithCopy(w, u), u, Accepted(None)))
  {
  }

  /**
   From a listing that has `u` to do and nothing to adopt, it is read and appended whatever the destination
   holds of it.
   */
  lemma CopiesIt(w: World, u: Src) returns (es: seq<Event>, w': World)
    requires Working(w, u) && WorkOn(w, u).Todo? && w.phase.c.index == map[] && w.phase.c.bodies == map[] && u in w.live
    requires SourceSteady(w)
    ensures Goes(w, es, w') && w'.mail == w.mail && w'.dest == w.dest[w.destNext := Stored(w.mail[u])]
  {
    var w1 := WithWork(w, u, Begun).(rows := StateStore.Begun(w.rows, u, DetailOf(w.mail[u])));
    var w2 := Fetched(w1, u, false);
    w' := WithWork(WithCopy(w2, u), u, Accepted(None));
    BeginsIt(w, u);
    ReadsItNow(w1, u);
    AppendsIt(w2, u);
    hide Leads, Goes, Fetched;
    LeadsGoes(w, BeginOne(u), w1);
    LeadsGoes(w1, FetchBody(u, false), w2);
    LeadsGoes(w2, AppendOk(u, false), w');
    GoesOn(w1, [FetchBody(u, false)], w2, [AppendOk(u, false)], w');
    es := [BeginOne(u)] + ([FetchBody(u, false)] + [AppendOk(u, false)]);
    GoesOn(w, [BeginOne(u)], w1, [FetchBody(u, false)] + [AppendOk(u, false)], w');
  }

  /** From a recovered world, `u` is listed and appended again. */
  lemma AppendsAgain(w: World, u: Src) returns (es: seq<Event>, w': World)
    requires w.phase.Recovering? && w.phase.kept && w.phase.suspects == {} && w.fold.lastSync.Some?
    requires SourceSteady(w) && DestSteady(w) && u in w.mail && u in w.live && !Settled(w.rows, u)
    ensures Goes(w, es, w') && w'.mail == w.mail && w'.dest == w.dest[w.destNext := Stored(w.mail[u])]
  {
    ListsAll(w);
    var l := w.(phase := Listing(w.phase.since, w.phase.kept));
    ListedIsTodo(l, u);
    var last;
    last, w' := CopiesIt(Listed(l), u);
    hide Goes;
    es := LISTS + last;
    GoesOn(w, LISTS, Listed(l), last, w');
  }

  lemma RestartRecovers(w: World)
    requires Unmoved(w)
    ensures var w1 := Started(w.(phase := NoRun));
            Goes(w, [Crash, StartRun], w1) && w1.phase.Recovering? && w1.phase.kept && SourceSteady(w1) &&
              DestSteady(w1) &&
            w1.rows == w.rows && w1.phase.suspects == InFlightUids(w.rows) && w1.fold.lastSync == w.fold.lastSync &&
            w1.live == w.live && w1.mail == w.mail && w1.dest == w.dest && w1.destNext == w.destNext
  {
    var w0 := w.(phase := NoRun);
    assert Leads(w, Crash, w0);
    StartLeads(w0);
    assert Started(w0).fold.lastSync == w.fold.lastSync && Started(w0).phase.suspects == InFlightUids(w.rows);
    assert Started(w0).dest == w.dest && Started(w0).destNext == w.destNext && Started(w0).live == w.live;
    hide Leads, Goes, Started;
    LeadsGoes(w, Crash, w0);
    LeadsGoes(w0, StartRun, Started(w0));
    GoesOn(w, [Crash], w0, [StartRun], Started(w0));
    assert [Crash] + [StartRun] == [Crash, StartRun];
  }

  /** No row, or one that is neither settled nor for recovery to look into. */
  predicate GivenOver(w: World, u: Src) {
    u in w.rows ==> w.rows[u].status.Failed? || w.rows[u].status.Planned?
  }

  /**
   In a folder synced before, a message the source still holds that has no row, or
   a failed one, is appended again whatever is on the destination.
   */
  lemma UnsettledIsAppendedAgain(w: World, u: Src) returns (es: seq<Event>, w': World)
    requires w.rows.Keys <= w.mail.Keys && Unmoved(w)
    requires u in w.live && u in w.mail && GivenOver(w, u) && w.fold.lastSync.Some?
    ensures Goes(w, es, w') && w'.mail == w.mail && w'.dest == w.dest[w.destNext := Stored(w.mail[u])]
  {
    RestartRecovers(w);
    var w1 := Started(w.(phase := NoRun));
    hide Goes, Started;
    var mid, rows := RecoverAll(w1, u);
    var w2 := w1.(rows := rows, phase := w1.phase.(suspects := {}));
    var last;
    last, w' := AppendsAgain(w2, u);
    GoesOn(w1, mid, w2, last, w');
    es := [Crash, StartRun] + (mid + last);
    GoesOn(w, [Crash, StartRun], w1, mid + last, w');
  }

  lemma GoodFrame(w: World)
    requires Good(w)
    ensures w.rows.Keys <= w.mail.Keys && w.destNext !in w.dest && Unmoved(w)
  {
    LedgerHolds(w);
    OnceParts(w);
  }

  lemma SyncedMeans(w: World, u: Src)
    requires Good(w) && Doubtful(w, u) && u in w.live
    ensures var w3 := Synced1(w, u);
            w3.rows.Keys <= w3.mail.Keys && Unmoved(w3) && u in w3.live && u in w3.mail && GivenOver(w3, u) &&
            w3.fold.lastSync.Some? && w3.dest == w.dest && w3.destNext == w.destNext && w3.mail == w.mail &&
            w.destNext !in w.dest
  {
    GoodFrame(w);
  }

  lemma KeptCopy(w: World, u: Src, w': World)
    requires Doubtful(w, u) && KeptBy(w, u, w') && u in w.live && Has(w, u)
    ensures u in w'.live && u in w'.mail && Has(w', u)
  {
    var d := CopyOf(w, u);
    assert d in w'.dest && w'.dest[d].body == w'.mail[u].body;
  }

  /** A message that has a copy and is appended once more has two. */
  lemma OneMoreIsTwo(w: World, u: Src, w': World)
    requires u in w.mail && Has(w, u) && w.destNext !in w.dest
    requires w'.mail == w.mail && w'.dest == w.dest[w.destNext := Stored(w.mail[u])]
    ensures !AtMostOne(w', u)
  {
    var d := CopyOf(w, u);
    TwoCopies(w', u, d, w.destNext);
  }

  /**
   Given up while its copy is there, a message the source still holds can be copied a second time, first sync
   or not.
   */
  lemma GiveUpCanDuplicate(w: World, u: Src) returns (es: seq<Event>, w': World)
    requires w.phase.Copying? && Good(w) && Doubtful(w, u) && u in w.live && u in w.mail && Has(w, u)
    ensures Goes(Without(w, u), es, w') && u in w'.mail && !AtMostOne(w', u)
  {
    hide *;
    var first, w1 := FinishOthers(w, u);
    KeptCopy(w, u, w1);
    RunEnds(w1, u);
    SyncedMeans(w1, u);
    var last;
    last, w' := UnsettledIsAppendedAgain(Synced1(w1, u), u);
    OneMoreIsTwo(w1, u, w');
    GoesOn(Without(w1, u), ENDS, Synced1(w1, u), last, w');
    es := first + (ENDS + last);
    GoesOn(Without(w, u), first, Without(w1, u), ENDS + last, w');
  }

  lemma CopyOf(w: World, u: Src) returns (d: Uid)
    requires u in w.mail && Has(w, u)
    ensures d in w.dest && w.dest[d].body == w.mail[u].body
  {
    d :| d in w.dest && w.dest[d].body == w.mail[u].body;
  }

  lemma TwoCopies(w: World, u: Src, d: Uid, d': Uid)
    requires u in w.mail && d in w.dest && d' in w.dest && d != d'
    requires w.dest[d].body == w.mail[u].body && w.dest[d'].body == w.mail[u].body
    ensures !AtMostOne(w, u)
  {
  }

  lemma GiveUpMeans(w: World, u: Src)
    requires Good(w) && Doubtful(w, u)
    ensures Enabled(w, AppendGiveUp(u)) && Apply(w, AppendGiveUp(u)) == Without(w, u)
    ensures Without(w, u).mail == w.mail && u in w.mail && w.phase.Copying?
    ensures Locate(w.dest, w.mail[u].id) == 0 <==> !Has(w, u)
  {
    hide Good, Local, Locate, Has;
    GoodMeans(w, u);
    assert WorkerEnabled(w, AppendGiveUp(u)) && WorkerApply(w, AppendGiveUp(u)) == Without(w, u);
    hide WorkerEnabled, WorkerApply, Enabled, Apply;
    WorkerSteps(w, AppendGiveUp(u));
  }

  lemma GiveUpIsExact(w: World, u: Src)
    requires Good(w) && Doubtful(w, u) && (!Has(w, u) || u !in w.live)
    ensures Exact(w, AppendGiveUp(u))
  {
    GoodMeans(w, u);
    hide Good, Local, Has, Locate;
  }

  lemma SafelyGivenUp(w: World, u: Src, es: seq<Event>)
    requires Good(w) && Doubtful(w, u) && u in w.mail && (!Has(w, u) || u !in w.live)
    requires ExactRun(Without(w, u), es)
    ensures Run(Without(w, u), es).Some? && u in Run(Without(w, u), es).value.mail
    ensures AtMostOne(Run(Without(w, u), es).value, u)
  {
    hide *;
    GiveUpMeans(w, u);
    GiveUpIsExact(w, u);
    StepKeepsGood(w, AppendGiveUp(u));
    GoodNeverTwice(Without(w, u), es, u);
  }

  /**
   Giving up an APPEND of unknown outcome keeps every exact history that follows
   from leaving two copies exactly when asking the destination would have found
   none, or the source has let the message go. First syncs are no exception: the
   run can end, the folder then counts as synced, and the next run does not look.
   */
  lemma GivingUpIsSafeIffNotThere(w: World, u: Src)
    requires Good(w) && Doubtful(w, u)
    ensures Enabled(w, AppendGiveUp(u))
    ensures var w' := Apply(w, AppendGiveUp(u));
            (Locate(w.dest, w.mail[u].id) == 0 || u !in w.live) <==>
            forall es :: ExactRun(w', es) && Run(w', es).Some? ==> AtMostOne(Run(w', es).value, u)
  {
    GiveUpMeans(w, u);
    hide *;
    if Locate(w.dest, w.mail[u].id) == 0 || u !in w.live {
      forall es | ExactRun(Without(w, u), es) && Run(Without(w, u), es).Some?
        ensures AtMostOne(Run(Without(w, u), es).value, u)
      {
        SafelyGivenUp(w, u, es);
      }
    } else {
      var es, last := GiveUpCanDuplicate(w, u);
      GoesMeans(Without(w, u), es, last);
    }
  }

  lemma GoesMeans(w: World, es: seq<Event>, w': World)
    requires Goes(w, es, w')
    ensures ExactRun(w, es) && Run(w, es) == Some(w')
  {
  }

  lemma GoodNeverTwice(w: World, es: seq<Event>, u: Src)
    requires Good(w) && ExactRun(w, es) && u in w.mail
    ensures Run(w, es).Some? && AtMostOne(Run(w, es).value, u)
  {
    hide Ledger, RowsTrue, Once, ExactRun, Run;
    RunKeepsOnce(w, es);
    OnceMeans(Run(w, es).value, u);
  }
}
