/**
 The rows that say done and cannot say where: what protects their copies from
 deletion. Every done row still has the digest of its message, and a deletion pass
 spares what has the digest of a listed recorded message unless a dead row names
 it. So an unnamed copy is safe exactly when it is not such a dead row's, or the
 search hides it; and where no row is ever left unnamed, deletion needs no
 hypothesis at all.
 */
module UnnamedCopies {
  import opened Wrappers
  import opened StateStore
  import opened CopyProtocol
  import opened CopyLedger
  import opened DoneRows
  import Deletion

  /* ---------- a done row has the digest of its message ---------- */

  /** What rows in flight and done rows say of their messages is what BeginAppend wrote. */
  predicate Described(mail: map<Src, Mail>, rows: Book) {
    forall u :: u in rows && u in mail && (rows[u].status.Done? || rows[u].status.InFlight?) ==>
      rows[u].detail == DetailOf(mail[u])
  }

  predicate RowDescribed(mail: map<Src, Mail>, rows: Book, u: Src) {
    u in rows && u in mail && (rows[u].status.Done? || rows[u].status.InFlight?) ==> rows[u].detail == DetailOf(mail[u])
  }

  lemma OneRowDescribed(mail: map<Src, Mail>, rows: Book, rows': Book, u: Src)
    requires Described(mail, rows) && RowDescribed(mail, rows', u)
    requires rows' == rows || (u in rows' && rows' == rows[u := rows'[u]])
    ensures Described(mail, rows')
  {
    forall v | v in rows' && v in mail
      ensures RowDescribed(mail, rows', v)
    {
      assert v != u ==> rows'[v] == rows[v];
    }
  }

  /** What a suspect's row says, the worker that began it wrote. */
  lemma SuspectIsDescribed(w: World, u: Src)
    requires w.phase.Copying? || w.phase.Settling?
    requires CopyOk(w.mail, w.rows, w.phase.c) && u in w.phase.c.work && Suspect(w.phase.c.work[u])
    ensures u in w.rows && u in w.mail && w.rows[u].status.InFlight? && w.rows[u].detail == DetailOf(w.mail[u])
  {
    assert WorkOk(w.mail, w.rows, w.phase.c, u);
  }

  /** A worker begins a row with its message's description, closes it, or completes one in flight. */
  lemma ReaderDescribes(w: World, e: Event)
    requires w.phase.Copying? && CopyOk(w.mail, w.rows, w.phase.c) && Reader(e) && WorkerEnabled(w, e)
    requires RowDescribed(w.mail, w.rows, e.u)
    ensures RowDescribed(w.mail, WorkerApply(w, e).rows, e.u)
  {
    if e.Adopt? {
      SuspectIsDescribed(w, e.u);
      hide CopyOk, DetailOf;
    } else if e.FetchBody? {
      hide CopyOk, DetailOf;
      assert WorkerApply(w, e) == Fetched(w, e.u, e.repeats);
      hide WorkerApply;
    } else {
      hide CopyOk, DetailOf;
    }
  }

  lemma DelivererDescribes(w: World, e: Event)
    requires w.phase.Copying? && CopyOk(w.mail, w.rows, w.phase.c) && Deliverer(e) && WorkerEnabled(w, e)
    ensures RowDescribed(w.mail, WorkerApply(w, e).rows, e.u)
  {
    assert Suspect(WorkOn(w, e.u));
    SuspectIsDescribed(w, e.u);
    hide CopyOk, Locate, DetailOf;
  }

  lemma RowOf(mail: map<Src, Mail>, rows: Book, u: Src)
    requires Described(mail, rows)
    ensures RowDescribed(mail, rows, u)
  {
  }

  lemma WorkerDescribes(w: World, e: Event)
    requires Ledger(w) && Worker(e) && WorkerEnabled(w, e) && Described(w.mail, w.rows)
    ensures Described(w.mail, WorkerApply(w, e).rows)
  {
    hide Ledger, WorkerEnabled, WorkerApply, CopyOk, ListOk, Described, RowDescribed;
    WorkerRow(w, e);
    if Reader(e) {
      RowOf(w.mail, w.rows, e.u);
      ReaderDescribes(w, e);
    } else {
      DelivererDescribes(w, e);
    }
    OneRowDescribed(w.mail, w.rows, WorkerApply(w, e).rows, e.u);
  }

  lemma WorkerRow(w: World, e: Event)
    requires Ledger(w) && Worker(e) && WorkerEnabled(w, e)
    ensures w.phase.Copying? && CopyOk(w.mail, w.rows, w.phase.c)
    ensures var rows := WorkerApply(w, e).rows;
            rows == w.rows || (e.u in rows && rows == w.rows[e.u := rows[e.u]])
  {
    hide Ledger, WorkerEnabled, WorkerApply, CopyOk, ListOk, PlacedLike, PlaceOk;
    LedgerHolds(w);
    WorkerKeeps(w, e);
  }

  lemma RecoveryDescribes(w: World, u: Src)
    requires w.phase.Recovering? && w.phase.suspects <= InFlightUids(w.rows) && u in w.phase.suspects && u in w.mail
    requires Described(w.mail, w.rows)
    ensures Described(w.mail, Recovered(w, u).rows)
  {
    hide Locate;
    assert RowDescribed(w.mail, w.rows, u);
    OneRowDescribed(w.mail, w.rows, Recovered(w, u).rows, u);
  }

  lemma SettlingDescribes(w: World, u: Src)
    requires w.phase.Settling? && CopyOk(w.mail, w.rows, w.phase.c)
    requires u in w.phase.c.work && w.phase.c.work[u].Noted? && u in w.rows && Described(w.mail, w.rows)
    ensures Described(w.mail, SettledOne(w, u).rows)
  {
    SuspectIsDescribed(w, u);
    hide CopyOk, Mirrored;
    OneRowDescribed(w.mail, w.rows, SettledOne(w, u).rows, u);
  }

  /** Forgetting rows makes no description wrong. */
  lemma FewerDescribed(mail: map<Src, Mail>, rows: Book, rows': Book)
    requires Described(mail, rows) && forall u :: u in rows' ==> u in rows && rows'[u] == rows[u]
    ensures Described(mail, rows')
  {
  }

  lemma RunDescribes(w: World, e: Event)
    requires Ledger(w) && !Outside(e) && !Worker(e) && !Pass(e) && RunEnabled(w, e) && Described(w.mail, w.rows)
    ensures Described(w.mail, RunApply(w, e).rows)
  {
    LedgerHolds(w);
    hide CopyOk, ListOk, Described, Recovered, SettledOne, Unhonoured, ClaimsChecked, CanSkip, Resting, IndexOf;
    if e.RecoverOne? {
      hide Ledger, RunApply, RunEnabled;
      RecoveringIsInFlight(w, e);
      RecoveryDescribes(w, e.u);
    } else if e.SettleOne? {
      SettlingDescribes(w, e.u);
    } else {
      FewerDescribed(w.mail, w.rows, RunApply(w, e).rows);
    }
  }

  lemma RecoveringIsInFlight(w: World, e: Event)
    requires Ledger(w) && e.RecoverOne? && RunEnabled(w, e)
    ensures w.phase.Recovering? && w.phase.suspects <= InFlightUids(w.rows) && e.u in w.phase.suspects && e.u in w.mail
    ensures e.u in w.rows && RunApply(w, e) == Recovered(w, e.u)
  {
    hide Recovered;
  }

  lemma PassDescribes(w: World, e: Event)
    requires Pass(e) && PassEnabled(w, e) && Described(w.mail, w.rows)
    ensures Described(w.mail, PassApply(w, e).rows)
  {
    hide DoomedNow, Unhonoured;
  }

  lemma StepDescribes(w: World, e: Event)
    requires Ledger(w) && Enabled(w, e) && Described(w.mail, w.rows)
    ensures Described(w.mail, Apply(w, e).rows)
  {
    hide Ledger, Described, WorkerEnabled, WorkerApply, PassEnabled, PassApply, RunEnabled, RunApply;
    if Outside(e) {
    } else if Worker(e) {
      WorkerDescribes(w, e);
    } else if Pass(e) {
      PassDescribes(w, e);
    } else {
      RunDescribes(w, e);
    }
  }

  lemma {:induction false} RunKeepsDescribed(w: World, es: seq<Event>)
    requires Ledger(w) && Run(w, es).Some? && Described(w.mail, w.rows)
    ensures Described(w.mail, Run(w, es).value.rows)
    decreases |es|
  {
    hide Ledger, Described, Enabled, Apply;
    if es != [] {
      StepDescribes(w, es[0]);
      StepKeepsLedger(w, es[0]);
      RunKeepsDescribed(Apply(w, es[0]), es[1..]);
    }
  }

  /* ---------- when an unnamed copy is safe ---------- */

  /** A digest is never empty, and a copy has the digest of its message: a stamp does not count towards it. */
  predicate Digested(w: World) {
    (forall u :: u in w.mail ==> w.mail[u].id.digest != "") &&
    forall d, u :: d in w.dest && u in w.mail && w.dest[d].body == w.mail[u].body ==>
      w.dest[d].id.digest == w.mail[u].id.digest
  }

  /** Rows name this message, and all of them are of messages the run did not list; and the search shows it. */
  ghost predicate Orphaned(w: World, search: Option<set<Uid>>, d: Uid)
    requires w.phase.Settling?
  {
    Deletion.OnlyOrphansName(Mirrored(w.rows, w.dstValidity), w.phase.c.listed, d) &&
    (search.Some? ==> d in search.value)
  }

  /** Each listed message whose row names no copy has one that dead rows do not stand for alone. */
  ghost predicate UnnamedNotOrphaned(w: World, search: Option<set<Uid>>)
    requires w.phase.Settling?
  {
    forall u :: Unnamed(w, u) ==>
      exists d :: d in w.dest && w.dest[d].body == w.mail[u].body && !Orphaned(w, search, d)
  }

  /** A copy of a listed recorded message is no stranger, so only a dead row can doom it. */
  lemma RecordedCopyIsDoomedIffOrphaned(w: World, listing: seq<Uid>, search: Option<set<Uid>>, u: Src, d: Uid)
    requires w.phase.Settling? && Described(w.mail, w.rows) && Digested(w)
    requires u in w.phase.c.listed && u in w.mail && u in w.rows && w.rows[u].status.Done?
    requires d in w.dest && w.dest[d].body == w.mail[u].body
    ensures DoomedNow(w, listing, search, d) <==> Orphaned(w, search, d)
  {
    assert RowDescribed(w.mail, w.rows, u);
    assert u in Idents(w.rows) && Idents(w.rows)[u] == w.mail[u].id.digest;
    assert w.dest[d].id.digest in Deletion.SourceIdents(w.rows, w.phase.c.listed);
    hide Deletion.OnlyOrphansName, Deletion.SourceIdents;
  }

  lemma KeptIffNotOrphaned(w: World, listing: seq<Uid>, search: Option<set<Uid>>)
    requires w.phase.Settling? && Described(w.mail, w.rows) && Digested(w)
    ensures UnnamedKept(w, listing, search) <==> UnnamedNotOrphaned(w, search)
  {
    hide DoomedNow, Orphaned, Described, Digested;
    forall u, d | Unnamed(w, u) && d in w.dest && w.dest[d].body == w.mail[u].body
      ensures DoomedNow(w, listing, search, d) <==> Orphaned(w, search, d)
    {
      RecordedCopyIsDoomedIffOrphaned(w, listing, search, u, d);
    }
  }

  /**
   What a run could look up before it deletes: in every state in which done rows
   have not lied yet, whatever it lists, the next deletion pass leaves a copy of
   every listed message recorded as copied exactly when each of them whose row names no copy has one that is not
   named by dead rows alone, or that the search hides.
   */
  lemma DeletionIsSafeIffNoneOrphaned(w0: World, es: seq<Event>, listing: seq<Uid>, search: Option<set<Uid>>)
    requires Untouched(w0) && HonestRun(w0, es) && Run(w0, es).Some?
    requires TruthfulSource(w0.mail) && forall d :: d in w0.dest ==> TruthfulTo(w0.dest[d], w0.mail)
    requires var w := Run(w0, es).value; Digested(w) && Resting(w) && DestSteady(w) && w.phase.c.failed == {}
    ensures var w := Run(w0, es).value;
            (forall gone :: PassEnabled(w, Expunge(gone, listing, search)) ==> ListedAreCopied(w, w.dest - gone)) <==>
            UnnamedNotOrphaned(w, search)
  {
    UntouchedIsTrue(w0);
    assert Described(w0.mail, w0.rows);
    hide *;
    RunKeepsTrue(w0, es);
    RunKeepsDescribed(w0, es);
    var w := Run(w0, es).value;
    RestingSettles(w);
    ExpungeIsSafeIffUnnamedKept(w, listing, search);
    KeptIffNotOrphaned(w, listing, search);
  }

  lemma RestingSettles(w: World)
    requires Resting(w)
    ensures w.phase.Settling?
  {
  }

  /* ---------- what an unnamed row leads to ---------- */

  predicate Renumbers(e: Event) { e.SourceRenumbered? || e.DestRenumbered? }

  /** Recorded as copied without a name, and nothing of the run at hand is about it. */
  predicate PassedOver(w: World, u: Src) {
    SourceSteady(w) && DestSteady(w) && u in w.rows && w.rows[u].status.Done? && w.rows[u].dstUid == 0 &&
    (w.phase.Recovering? ==> u !in w.phase.suspects) &&
    (w.phase.Copying? || w.phase.Settling? ==> u !in w.phase.c.work)
  }

  lemma WorkerPassesOver(w: World, e: Event, u: Src)
    requires Ledger(w) && Worker(e) && WorkerEnabled(w, e) && PassedOver(w, u)
    ensures PassedOver(WorkerApply(w, e), u)
  {
    WorkerKeeps(w, e);
    WorkerIsWorking(w, e);
    hide Ledger, WorkerEnabled, WorkerApply, CopyOk;
  }

  lemma WorkerIsWorking(w: World, e: Event)
    requires Worker(e) && WorkerEnabled(w, e)
    ensures Working(w, e.u)
  {
  }

  /** Only claims that name a message are verified. */
  lemma VerifyPassesOver(w: World, full: bool, verify: bool, u: Src)
    requires w.phase.Verifying? && PassedOver(w, u)
    ensures PassedOver(Verified(w, full, verify), u)
  {
    hide ClaimsChecked;
  }

  /** What is settled is not listed for copying. */
  lemma ListPassesOver(w: World, u: Src)
    requires w.phase.Listing? && PassedOver(w, u)
    ensures PassedOver(Listed(w), u)
  {
    hide IndexOf;
  }

  lemma StartPassesOver(w: World, u: Src)
    requires w.phase.NoRun? && PassedOver(w, u)
    ensures PassedOver(Started(w), u)
  {
  }

  lemma OtherPassesOver(w: World, e: Event, u: Src)
    requires e.Crash? || e.SkipRun? || e.RecoverBlind? || e.EndRecover? || e.EndCopy? || e.Finish?
    requires RunEnabled(w, e) && PassedOver(w, u)
    ensures PassedOver(RunApply(w, e), u)
  {
    hide CanSkip, Resting, Started, Verified, Listed, Recovered, SettledOne;
  }

  lemma RecoveryPassesOver(w: World, v: Src, u: Src)
    requires w.phase.Recovering? && v in w.phase.suspects && v in w.rows && v in w.mail && PassedOver(w, u)
    ensures PassedOver(Recovered(w, v), u)
  {
    RecoveredFrame(w, v);
    hide Recovered;
  }

  lemma SettlingPassesOver(w: World, v: Src, u: Src)
    requires w.phase.Settling? && v in w.phase.c.work && w.phase.c.work[v].Noted? && v in w.rows && PassedOver(w, u)
    ensures PassedOver(SettledOne(w, v), u)
  {
    hide Mirrored;
  }

  lemma RunPassesOver(w: World, e: Event, u: Src)
    requires !Outside(e) && !Worker(e) && !Pass(e) && RunEnabled(w, e) && PassedOver(w, u)
    ensures PassedOver(RunApply(w, e), u)
  {
    hide Locate, ClaimsChecked, CanSkip, Resting, IndexOf, Started, Verified, Listed, Recovered, SettledOne, Completion;
    if e.VerifyClaims? {
      VerifyPassesOver(w, e.full, e.verify, u);
    } else if e.List? {
      ListPassesOver(w, u);
    } else if e.StartRun? {
      StartPassesOver(w, u);
    } else if e.RecoverOne? {
      RecoveryPassesOver(w, e.u, u);
    } else if e.SettleOne? {
      SettlingPassesOver(w, e.u, u);
    } else {
      OtherPassesOver(w, e, u);
    }
  }

  lemma PassPassesOver(w: World, e: Event, u: Src)
    requires Pass(e) && PassEnabled(w, e) && PassedOver(w, u)
    ensures PassedOver(PassApply(w, e), u)
  {
    hide DoomedNow;
  }

  lemma StepPassesOver(w: World, e: Event, u: Src)
    requires Ledger(w) && Enabled(w, e) && !Renumbers(e) && PassedOver(w, u)
    ensures PassedOver(Apply(w, e), u)
  {
    hide Ledger, WorkerEnabled, WorkerApply, PassEnabled, PassApply, RunEnabled, RunApply;
    if Outside(e) {
    } else if Worker(e) {
      hide PassedOver;
      WorkerPassesOver(w, e, u);
    } else if Pass(e) {
      hide PassedOver;
      PassPassesOver(w, e, u);
    } else {
      hide PassedOver;
      RunPassesOver(w, e, u);
    }
  }

  /**
   A message recorded without a name is never looked at again: no verification, no
   listing and no recovery comes back to it, whatever becomes of its copy, until one
   of the mailboxes is renumbered.
   */
  lemma {:induction false} NeverLookedAtAgain(w: World, es: seq<Event>, u: Src)
    requires Ledger(w) && PassedOver(w, u) && Run(w, es).Some? && forall k :: 0 <= k < |es| ==> !Renumbers(es[k])
    ensures PassedOver(Run(w, es).value, u) && !Working(Run(w, es).value, u)
    decreases |es|
  {
    if es == [] {
    } else {
      hide Ledger, Enabled, Apply, PassedOver;
      StepPassesOver(w, es[0], u);
      StepKeepsLedger(w, es[0]);
      assert forall k :: 0 <= k < |es[1..]| ==> es[1..][k] == es[k + 1];
      NeverLookedAtAgain(Apply(w, es[0]), es[1..], u);
    }
  }

  /* ---------- where every row is named ---------- */

  predicate AllNamed(rows: Book) {
    forall u :: u in rows && rows[u].status.Done? ==> rows[u].dstUid != 0
  }

  /** Whatever this step records as copied, it can say where: APPEND named it, or the search found it. */
  ghost predicate Naming(w: World, e: Event) {
    !e.RecordBlind? &&
    (e.RecordCopy? && Working(w, e.u) && WorkOn(w, e.u).Accepted? ==> PlaceOf(w, e.u).uid != 0)
  }

  ghost predicate NamedRun(w: World, es: seq<Event>)
    decreases |es|
  {
    es == [] || (Enabled(w, es[0]) && Fair(w, es[0]) && Naming(w, es[0]) && NamedRun(Apply(w, es[0]), es[1..]))
  }

  lemma OneRowNamed(rows: Book, rows': Book, u: Src)
    requires AllNamed(rows) && (u in rows' && rows'[u].status.Done? ==> rows'[u].dstUid != 0)
    requires rows' == rows || (u in rows' && rows' == rows[u := rows'[u]])
    ensures AllNamed(rows')
  {
  }

  lemma WorkedRowNamed(w: World, e: Event)
    requires w.phase.Copying? && 0 !in w.phase.c.index && Worker(e) && WorkerEnabled(w, e) && Naming(w, e)
    requires AllNamed(w.rows)
    ensures var rows := WorkerApply(w, e).rows; e.u in rows && rows[e.u].status.Done? ==> rows[e.u].dstUid != 0
  {
    hide Locate, DetailOf;
  }

  lemma WorkerNames(w: World, e: Event)
    requires Ledger(w) && Worker(e) && WorkerEnabled(w, e) && Naming(w, e) && AllNamed(w.rows)
    ensures AllNamed(WorkerApply(w, e).rows)
  {
    LedgerHolds(w);
    WorkerRow(w, e);
    hide Ledger, WorkerEnabled, WorkerApply, CopyOk, Naming, AllNamed;
    WorkedRowNamed(w, e);
    OneRowNamed(w.rows, WorkerApply(w, e).rows, e.u);
  }

  lemma RunNames(w: World, e: Event)
    requires !Outside(e) && !Worker(e) && !Pass(e) && RunEnabled(w, e) && AllNamed(w.rows)
    ensures AllNamed(RunApply(w, e).rows)
  {
    hide Locate, Unhonoured, ClaimsChecked, CanSkip, Resting, IndexOf;
  }

  lemma PassNames(w: World, e: Event)
    requires Pass(e) && PassEnabled(w, e) && AllNamed(w.rows)
    ensures AllNamed(PassApply(w, e).rows)
  {
    hide DoomedNow, Unhonoured;
  }

  lemma StepNames(w: World, e: Event)
    requires Ledger(w) && Enabled(w, e) && Naming(w, e) && AllNamed(w.rows)
    ensures AllNamed(Apply(w, e).rows)
  {
    hide Ledger, AllNamed, Naming, WorkerEnabled, WorkerApply, PassEnabled, PassApply, RunEnabled, RunApply;
    if Outside(e) {
    } else if Worker(e) {
      WorkerNames(w, e);
    } else if Pass(e) {
      PassNames(w, e);
    } else {
      RunNames(w, e);
    }
  }

  lemma NamedIsKept(w: World, listing: seq<Uid>, search: Option<set<Uid>>)
    requires w.phase.Settling? && AllNamed(w.rows)
    ensures UnnamedKept(w, listing, search)
  {
    hide DoomedNow;
  }

  lemma {:induction false} NamedIsHonest(w: World, es: seq<Event>)
    requires Ledger(w) && AllNamed(w.rows) && NamedRun(w, es)
    ensures HonestRun(w, es)
    decreases |es|
  {
    hide Ledger, AllNamed, Naming, Fair, Enabled, Apply, UnnamedKept;
    if es != [] {
      if es[0].Expunge? && w.phase.Settling? {
        NamedIsKept(w, es[0].listing, es[0].search);
      }
      StepNames(w, es[0]);
      StepKeepsLedger(w, es[0]);
      NamedIsHonest(Apply(w, es[0]), es[1..]);
    }
  }

  /**
   Where every copy recorded can be named, by APPEND or by a search that finds it,
   done rows never lie whatever is deleted: of the deletion passes nothing is
   assumed.
   */
  lemma NamedRowsNeverLie(w0: World, es: seq<Event>, u: Src)
    requires Untouched(w0) && NamedRun(w0, es)
    requires TruthfulSource(w0.mail) && forall d :: d in w0.dest ==> TruthfulTo(w0.dest[d], w0.mail)
    ensures Run(w0, es).Some?
    ensures var w := Run(w0, es).value;
            u in w.rows && w.rows[u].status.Done? && Protected(w, u) ==>
              u in w0.mail && HasCopy(w.dest, w0.mail[u]) &&
              (w.rows[u].dstValidity == w.dstValidity ==>
                 w.rows[u].dstUid in w.dest && w.dest[w.rows[u].dstUid].body == w0.mail[u].body)
  {
    UntouchedIsTrue(w0);
    assert AllNamed(w0.rows);
    hide Untouched, Ledger, RowsTrue, NamedRun, HonestRun, Run, TruthfulSource, TruthfulTo, HasCopy, Protected;
    NamedIsHonest(w0, es);
    DoneRowsNeverLie(w0, es, u);
    RunStaysNamed(w0, es);
  }

  lemma {:induction false} RunStaysNamed(w: World, es: seq<Event>)
    requires Ledger(w) && AllNamed(w.rows) && NamedRun(w, es) && Run(w, es).Some?
    ensures AllNamed(Run(w, es).value.rows)
    decreases |es|
  {
    hide Ledger, AllNamed, Naming, Fair, Enabled, Apply;
    if es != [] {
      StepNames(w, es[0]);
      StepKeepsLedger(w, es[0]);
      RunStaysNamed(Apply(w, es[0]), es[1..]);
    }
  }
}
