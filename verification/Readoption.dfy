/**
 After a renumbering the fence forgets the rows of a folder, so that the run that
 found it out will know the messages that are there already by their digests
 instead of copying them again. That is so for this one run only. Whether what a
 run leaves behind is safe is decided by what it has recorded by then.
 */
module Readoption {
  import opened Wrappers
  import opened StateStore
  import opened CopyProtocol
  import opened CopyLedger
  import opened DoneRows
  import opened ExactlyOnce
  import opened CopyWitnesses

  /** All that the histories without mistakes keep, but for whether each copy there is has been recorded. */
  ghost predicate AtRest(w: World) {
    Ledger(w) && RowsTrue(w) && w.phase.NoRun? && DistinctSource(w.mail) && Unmoved(w) &&
    (forall d :: d in w.dest ==> RecognisedIn(w.dest[d], w.mail)) &&
    forall u :: u in w.mail ==> AtMostOne(w, u) && Known(w, u)
  }

  /** A row says of the message that it is copied, or that it has to be looked for first. */
  predicate InHand(w: World, u: Src) {
    u in w.rows && (w.rows[u].status.Done? || w.rows[u].status.InFlight?)
  }

  /** Every message that is held and has been copied is in hand. */
  ghost predicate AllInHand(w: World) {
    forall u :: u in w.live && u in w.mail && Has(w, u) ==> InHand(w, u)
  }

  /** No history without mistakes from here leaves two copies of a message. */
  ghost predicate NeverTwiceFrom(w: World) {
    forall es, u :: ExactRun(w, es) && Run(w, es).Some? && u in w.mail && u in Run(w, es).value.mail ==>
      AtMostOne(Run(w, es).value, u)
  }

  lemma AccountedIsGood(w: World)
    requires AtRest(w) && forall u :: u in w.mail ==> Accounted(w, u)
    ensures Good(w)
  {
    hide Ledger, RowsTrue, AtMostOne, Known, Accounted, RecognisedIn, DistinctSource;
  }

  lemma GoodIsSafe(w: World)
    requires Good(w)
    ensures NeverTwiceFrom(w)
  {
    hide Good, ExactRun, Run, AtMostOne;
    forall es, u | ExactRun(w, es) && Run(w, es).Some? && u in w.mail && u in Run(w, es).value.mail
      ensures AtMostOne(Run(w, es).value, u)
    {
      GoodNeverTwice(w, es, u);
    }
  }

  lemma NotInHandIsUnsafe(w: World, u: Src)
    requires AtRest(w) && w.fold.lastSync.Some? && u in w.live && u in w.mail && Has(w, u) && !InHand(w, u)
    ensures !NeverTwiceFrom(w)
  {
    LedgerMeans(w);
    assert Known(w, u);
    assert u in w.rows && w.rows[u].status.Gone? ==> u in w.past;
    assert u !in w.past;
    assert GivenOver(w, u);
    hide Ledger, RowsTrue, Known, DistinctSource, GivenOver, Goes;
    var es, w' := UnsettledIsAppendedAgain(w, u);
    hide Has;
    OneMoreIsTwo(w, u, w');
    GoesMeans(w, es, w');
  }

  /**
   A folder synced before can be left as it is exactly when every message that is
   held and has been copied is recorded as copied or in flight: the next run does
   not ask the destination what it has already, and copies the others again.
   */
  lemma RestIsSafeIffRecorded(w: World)
    requires AtRest(w) && w.fold.lastSync.Some?
    ensures AllInHand(w) <==> NeverTwiceFrom(w)
  {
    hide AtRest, NeverTwiceFrom, Has;
    if AllInHand(w) {
      assert forall u :: u in w.mail ==> Accounted(w, u);
      AccountedIsGood(w);
      GoodIsSafe(w);
    } else {
      var u :| u in w.live && u in w.mail && Has(w, u) && !InHand(w, u);
      NotInHandIsUnsafe(w, u);
    }
  }

  /* ---------- a renumbering of the destination ---------- */

  /** The same messages, one for one, under other numbers. */
  ghost predicate Renames(ren: map<Uid, Uid>, dest: map<Uid, Mail>, holds: map<Uid, Mail>) {
    ren.Keys == dest.Keys && (forall x :: x in holds ==> exists d :: d in ren && ren[d] == x) &&
    (forall d :: d in ren ==> ren[d] in holds && holds[ren[d]] == dest[d]) &&
    (forall d, d' :: d in ren && d' in ren && ren[d] == ren[d'] ==> d == d')
  }

  /** A run that meets the new numbers and is killed before it has listed anything. */
  function Killed(number: nat, holds: map<Uid, Mail>, next: Uid): seq<Event> {
    [DestRenumbered(number, holds, next), StartRun, Crash]
  }

  function Moved(w: World, number: nat, holds: map<Uid, Mail>, next: Uid): World {
    w.(dstValidity := number, dest := holds, destNext := next)
  }

  /** What the killed run leaves: the rows are forgotten, and the new numbers are on record. */
  function Left(w: World, number: nat, holds: map<Uid, Mail>, next: Uid): World {
    Started(Moved(w, number, holds, next)).(phase := NoRun)
  }

  lemma RenamedIsSameMail(ren: map<Uid, Uid>, dest: map<Uid, Mail>, holds: map<Uid, Mail>)
    requires Renames(ren, dest, holds)
    ensures SameMail(dest, holds)
    ensures forall m: Mail :: HasCopy(dest, m) <==> HasCopy(holds, m)
  {
    forall d | d in dest
      ensures DoneRows.Moved(holds, dest[d])
    {
      assert holds[ren[d]] == dest[d];
    }
    forall x | x in holds
      ensures DoneRows.Moved(dest, holds[x])
    {
      var d :| d in ren && ren[d] == x;
      assert dest[d] == holds[x];
    }
    forall m: Mail
      ensures HasCopy(dest, m) <==> HasCopy(holds, m)
    {
      if d :| d in dest && dest[d].body == m.body {
        assert holds[ren[d]].body == m.body;
      }
      if x :| x in holds && holds[x].body == m.body {
        var d :| d in ren && ren[d] == x;
        assert dest[d].body == m.body;
      }
    }
  }

  /** The renumbered world is the old one under other numbers. */
  lemma RenamedKeepsMail(w: World, w': World, ren: map<Uid, Uid>, u: Src)
    requires Renames(ren, w.dest, w'.dest) && w'.mail == w.mail && u in w.mail && AtMostOne(w, u)
    ensures AtMostOne(w', u) && (Has(w', u) <==> Has(w, u))
  {
    RenamedIsSameMail(ren, w.dest, w'.dest);
    forall x, x' |
      x in w'.dest && x' in w'.dest && w'.dest[x].body == w.mail[u].body && w'.dest[x'].body == w.mail[u].body
      ensures x == x'
    {
      var d :| d in ren && ren[d] == x;
      var d' :| d' in ren && ren[d'] == x';
      assert d in w.dest && d' in w.dest;
    }
  }

  lemma KilledRuns(w: World, number: nat, holds: map<Uid, Mail>, next: Uid)
    requires w.phase.NoRun? && Enabled(w, DestRenumbered(number, holds, next))
    ensures Run(w, Killed(number, holds, next)) == Some(Left(w, number, holds, next))
  {
    var e := DestRenumbered(number, holds, next);
    var w1 := Moved(w, number, holds, next);
    assert OutsideApply(w, e) == w1 && Apply(w, e) == w1;
    assert RunEnabled(w1, StartRun) && RunApply(w1, StartRun) == Started(w1);
    assert RunEnabled(Started(w1), Crash) && RunApply(Started(w1), Crash) == Left(w, number, holds, next);
    hide OutsideEnabled, OutsideApply, RunEnabled, RunApply, Enabled, Apply, Started;
    RunSteps(w1, StartRun);
    RunSteps(Started(w1), Crash);
    PassesRuns([w, w1, Started(w1), Left(w, number, holds, next)], Killed(number, holds, next));
  }

  /** The fence sees the new numbers, and forgets the rows. */
  lemma LeftIsEmptied(w: World, number: nat, holds: map<Uid, Mail>, next: Uid)
    requires Unmoved(w) && w.phase.NoRun? && w.fold.dstValidity != 0 && number > w.dstValidity
    ensures var w' := Left(w, number, holds, next);
            w'.rows == map[] && w'.live == w.live && w'.past == w.past && w'.mail == w.mail && w'.dest == holds &&
            w'.phase.NoRun? && Unmoved(w') && w'.fold.lastSync == w.fold.lastSync
  {
    assert Renumbered(w.fold, w.srcValidity, number);
  }

  lemma HigherNumber(w: World, number: nat, holds: map<Uid, Mail>, next: Uid)
    requires Enabled(w, DestRenumbered(number, holds, next))
    ensures number > w.dstValidity
  {
  }

  lemma NeverHeldIsKnown(w: World, w': World, u: Src)
    requires u in w.mail && Known(w, u) && w'.mail == w.mail && w'.rows == map[]
    requires w'.live == w.live && w'.past == w.past && (Has(w', u) <==> Has(w, u))
    ensures Known(w', u)
  {
    hide Has;
  }

  /** What is left behind is at rest, with no rows and the same mail. */
  lemma LeftIsAtRest(w: World, ren: map<Uid, Uid>, number: nat, holds: map<Uid, Mail>, next: Uid)
    requires Good(w) && w.phase.NoRun? && w.fold.dstValidity != 0
    requires Enabled(w, DestRenumbered(number, holds, next)) && Renames(ren, w.dest, holds)
    ensures var w' := Left(w, number, holds, next);
            AtRest(w') && w'.rows == map[] && w'.live == w.live && w'.mail == w.mail &&
            w'.fold.lastSync == w.fold.lastSync && forall u :: u in w.mail ==> (Has(w', u) <==> Has(w, u))
  {
    hide Left, Ledger, RowsTrue, Once, DistinctSource, AtMostOne, Accounted, Enabled, Renames, SameMail, Books, Has,
      HasCopy, PhaseAgrees, RecognisedIn, Unmoved, Known;
    var w' := Left(w, number, holds, next);
    OnceParts(w);
    RenamedIsSameMail(ren, w.dest, holds);
    HigherNumber(w, number, holds, next);
    LeftIsBooked(w, number, holds, next);
    LeftIsEmptied(w, number, holds, next);
    forall u | u in w.mail
      ensures AtMostOne(w', u) && Known(w', u) && (Has(w', u) <==> Has(w, u))
    {
      OnceMeans(w, u);
      RenamedKeepsMail(w, w', ren, u);
      NeverHeldIsKnown(w, w', u);
    }
    forall x | x in holds
      ensures RecognisedIn(holds[x], w.mail)
    {
      var d := OldNumber(ren, w.dest, holds, x);
    }
  }

  lemma OldNumber(ren: map<Uid, Uid>, dest: map<Uid, Mail>, holds: map<Uid, Mail>, x: Uid) returns (d: Uid)
    requires Renames(ren, dest, holds) && x in holds
    ensures d in dest && dest[d] == holds[x]
  {
    d :| d in ren && ren[d] == x;
  }

  lemma LeftIsBooked(w: World, number: nat, holds: map<Uid, Mail>, next: Uid)
    requires Good(w) && w.phase.NoRun? && SameMail(w.dest, holds)
    requires Enabled(w, DestRenumbered(number, holds, next))
    ensures Ledger(Left(w, number, holds, next)) && RowsTrue(Left(w, number, holds, next))
  {
    var e, w1 := DestRenumbered(number, holds, next), Moved(w, number, holds, next);
    assert Apply(w, e) == w1 && Honest(w, e);
    assert RunEnabled(w1, StartRun) && RunApply(w1, StartRun) == Started(w1) && Honest(w1, StartRun);
    assert RunEnabled(Started(w1), Crash) && RunApply(Started(w1), Crash) == Left(w, number, holds, next);
    assert Honest(Started(w1), Crash);
    hide RunEnabled, RunApply, Enabled, Apply, Started, Honest, Ledger, RowsTrue, Once;
    RunSteps(w1, StartRun);
    RunSteps(Started(w1), Crash);
    StepKeepsTrue(w, e);
    StepKeepsLedger(w, e);
    StepKeepsTrue(w1, StartRun);
    StepKeepsLedger(w1, StartRun);
    StepKeepsTrue(Started(w1), Crash);
    StepKeepsLedger(Started(w1), Crash);
  }

  /**
   The destination is renumbered between two runs, and the run that meets the new
   numbers is killed after its fence. That is harmless exactly when the folder has
   never completed a sync, or holds nothing that has been copied. In any other, the
   next run takes the empty rows for all there is to know and copies again.
   */
  lemma KilledAfterFenceIsSafeIff(w0: World, es: seq<Event>, ren: map<Uid, Uid>, number: nat, holds: map<Uid, Mail>,
      next: Uid)
    requires Fresh(w0) && ExactRun(w0, es) && Run(w0, es).Some?
    requires var w := Run(w0, es).value;
             w.phase.NoRun? && w.fold.dstValidity != 0 && Enabled(w, DestRenumbered(number, holds, next)) &&
             Renames(ren, w.dest, holds)
    ensures var w := Run(w0, es).value;
            Run(w, Killed(number, holds, next)).Some? &&
            ((w.fold.lastSync.None? || forall u :: u in w.live && u in w.mail ==> !Has(w, u)) <==>
             NeverTwiceFrom(Run(w, Killed(number, holds, next)).value))
  {
    FreshIsOnce(w0);
    hide Fresh, ExactRun, Run, Has, Ledger, RowsTrue, Once, Enabled, NeverTwiceFrom, Renames, Left, Killed, AtRest;
    RunKeepsOnce(w0, es);
    var w := Run(w0, es).value;
    KilledRuns(w, number, holds, next);
    var w' := Left(w, number, holds, next);
    LeftIsAtRest(w, ren, number, holds, next);
    if w.fold.lastSync.Some? {
      RestIsSafeIffRecorded(w');
    } else {
      assert forall u :: u in w'.mail ==> Accounted(w', u);
      AccountedIsGood(w');
      GoodIsSafe(w');
    }
  }

  /** Steps that no hypothesis is about. */
  predicate Unquestioned(e: Event) {
    e.StartRun? || e.EndRecover? || e.VerifyClaims? || e.List? || e.BeginOne? || e.FetchBody? || e.AppendOk? ||
    e.RecordCopy? || e.EndCopy? || e.Finish?
  }

  lemma {:induction false} UnquestionedIsExact(w: World, es: seq<Event>)
    requires Run(w, es).Some? && forall k :: 0 <= k < |es| ==> Unquestioned(es[k])
    ensures ExactRun(w, es)
    decreases |es|
  {
    if es != [] {
      assert Unquestioned(es[0]) && Exact(w, es[0]);
      hide Enabled, Apply, Exact, Unquestioned;
      assert forall k :: 0 <= k < |es[1..]| ==> es[1..][k] == es[k + 1];
      UnquestionedIsExact(Apply(w, es[0]), es[1..]);
    }
  }

  const RENAMED: map<Uid, Mail> := map[7 := LETTER]

  lemma OneIsRenamed()
    ensures var w := One(HELD, 2, DONE, WATERMARKED, NoRun);
            Enabled(w, DestRenumbered(2, RENAMED, 8)) && Renames(map[1 := 7], w.dest, RENAMED) &&
            U in w.live && HasCopy(w.dest, w.mail[U])
  {
    var w := One(HELD, 2, DONE, WATERMARKED, NoRun);
    assert w.dest[1].body == w.mail[U].body && 1 in map[1 := 7];
  }

  /**
   One message is copied, the destination gives it the number 7 under a new
   UIDVALIDITY, and the run that finds that out is killed after its fence: there is
   a history without mistakes from here that copies the message a second time.
   */
  lemma KilledFenceCopiesAgain()
    ensures Fresh(EMPTY) && ExactRun(EMPTY, EARNS) && Run(EMPTY, EARNS).Some?
    ensures var w := Run(EMPTY, EARNS).value;
            Run(w, Killed(2, RENAMED, 8)).Some? && !NeverTwiceFrom(Run(w, Killed(2, RENAMED, 8)).value)
  {
    EmptyIsFresh();
    FirstRun();
    OneIsRenamed();
    var w := One(HELD, 2, DONE, WATERMARKED, NoRun);
    hide Run, ExactRun, Fresh, Enabled, Renames, NeverTwiceFrom, Killed, HasCopy;
    UnquestionedIsExact(EMPTY, EARNS);
    KilledAfterFenceIsSafeIff(EMPTY, EARNS, map[1 := 7], 2, RENAMED, 8);
    assert Has(w, U);
  }

  /** The run that is not killed does what the fence is for: it is offered every copy of whatever it lists. */
  lemma RelistingOffersEveryCopy(w: World, u: Src, d: Uid)
    requires w.phase.Listing? && !w.phase.kept && w.rows == map[] && u in w.live && u in w.mail
    requires d in w.dest && w.dest[d].body == w.mail[u].body && RecognisedIn(w.dest[d], w.mail)
    ensures u in Listed(w).phase.c.work && Listed(w).phase.c.work[u].Todo?
    ensures d in Listed(w).phase.c.index && Listed(w).phase.c.index[d] == w.mail[u].id.digest
  {
    var todo := set v | v in w.live && !Settled(w.rows, v);
    assert u in todo && Recognised(w.dest[d], w.mail[u]);
    assert d in IndexOf(w, todo);
  }
}
