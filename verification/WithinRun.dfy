/**
 What one run does with its messages, told by rows and bytes: which it lists and
 which copies it may adopt, each once; of those that are the same to the byte only
 the first read is copied, and the others are recorded against that copy.
 */
module WithinRun {
  import opened Wrappers
  import opened StateStore
  import opened CopyProtocol
  import opened CopyLedger
  import Deletion

  /* ---------- what is listed, and what may be adopted ---------- */

  /**
   The run has to copy what the source holds and no row says is copied or gone. It may
   adopt the destination messages that can be told from others and that no row of any
   state names; but only if the folder was never synced, or the fence has just cleared
   its rows, and there is something to copy.
   */
  lemma ListsAndOffersIff(w: World, u: Src, d: Uid)
    requires Enabled(w, List)
    ensures w.phase.Listing? && Apply(w, List).phase.Copying?
    ensures var c := Apply(w, List).phase.c;
            u in c.work <==> u in w.live && !(u in w.rows && (w.rows[u].status.Done? || w.rows[u].status.Gone?))
    ensures var c := Apply(w, List).phase.c;
            d in c.index <==>
            d in w.dest && !w.dest[d].id.weak && (w.fold.lastSync.None? || !w.phase.kept) && c.work != map[] &&
            forall v :: v in w.rows ==> w.rows[v].dstValidity != w.dstValidity || w.rows[v].dstUid != d || d == 0
    ensures var c := Apply(w, List).phase.c; d in c.index ==> c.index[d] == w.dest[d].id.digest
    ensures var c := Apply(w, List).phase.c;
            c.bodies == map[] && c.failed == {} && c.filtered == {} && c.listed == w.live && c.since == w.phase.since
  {
    ListMeans(w);
    hide Enabled, Apply;
    var todo := set v | v in w.live && !Settled(w.rows, v);
    var c := Listed(w).phase.c;
    assert c.work.Keys == todo;
    assert c.work == map[] <==> todo == {};
    assert d in Claimed(w.rows, w.fold.dstValidity) <==>
           exists v :: v in w.rows && w.rows[v].dstValidity == w.dstValidity && w.rows[v].dstUid == d != 0;
  }

  lemma ListMeans(w: World)
    requires Enabled(w, List)
    ensures w.phase.Listing? && DestSteady(w) && Apply(w, List) == Listed(w)
  {
    hide Listed;
  }

  /* ---------- steps on one message ---------- */

  /** Read, and from there to its row being written. */
  predicate OnTheWay(w: World, u: Src) {
    Working(w, u) && (WorkOn(w, u).Queued? || WorkOn(w, u).Uncertain? || WorkOn(w, u).Accepted?)
  }

  /** This message was the first with its body that the run read. */
  predicate ReadFirst(w: World, u: Src) {
    w.phase.Copying? && u in w.mail && w.mail[u].body in w.phase.c.bodies && w.phase.c.bodies[w.mail[u].body] == u
  }

  ghost predicate OnlyFirstsGo(w: World) {
    forall u :: OnTheWay(w, u) ==> ReadFirst(w, u)
  }

  /** A fetch that copies repeats as well. */
  predicate WantsRepeats(e: Event) { e.FetchBody? && e.repeats }

  /** What a step leaves of the work on the others, of the index of bodies, and of the message itself. */
  predicate Moves(w: World, u: Src, w': World) {
    w'.mail == w.mail && w.phase.Copying? && w'.phase.Copying? && u in w.phase.c.work &&
    w'.phase.c.work.Keys == w.phase.c.work.Keys &&
    (forall v :: v in w.phase.c.work && v != u ==> w'.phase.c.work[v] == w.phase.c.work[v]) &&
    (forall b :: b in w.phase.c.bodies ==> b in w'.phase.c.bodies && w'.phase.c.bodies[b] == w.phase.c.bodies[b]) &&
    (forall d :: d in w'.phase.c.index ==> d in w.phase.c.index && w'.phase.c.index[d] == w.phase.c.index[d]) &&
    (OnTheWay(w', u) ==> OnTheWay(w, u) || ReadFirst(w', u))
  }

  lemma ReaderMoves(w: World, e: Event)
    requires Reader(e) && WorkerEnabled(w, e) && !WantsRepeats(e)
    ensures Moves(w, e.u, ReaderApply(w, e))
  {
    if e.FetchBody? {
      FetchMeans(w, e.u);
      hide WorkerEnabled, ReaderApply, Moves, Fetched;
      FetchMoves(w, e.u);
    } else {
      OtherReaderFrame(w, e);
      hide WorkerEnabled, ReaderApply;
    }
  }

  lemma FetchMeans(w: World, u: Src)
    requires WorkerEnabled(w, FetchBody(u, false))
    ensures Working(w, u) && ReaderApply(w, FetchBody(u, false)) == Fetched(w, u, false)
  {
    hide Fetched, NoneToAdopt;
  }

  lemma FetchMoves(w: World, u: Src)
    requires Working(w, u)
    ensures Moves(w, u, Fetched(w, u, false))
  {
    hide StateStore.MarkedGone;
    var c, w' := w.phase.c, Fetched(w, u, false);
    assert w'.phase.Copying? && w'.phase.c.work == c.work[u := w'.phase.c.work[u]] && w'.phase.c.index == c.index;
    assert w'.phase.c.bodies == c.bodies ||
      (w.mail[u].body !in c.bodies && w'.phase.c.bodies == c.bodies[w.mail[u].body := u]);
  }

  lemma OtherReaderFrame(w: World, e: Event)
    requires Reader(e) && WorkerEnabled(w, e) && !e.FetchBody?
    ensures var w' := ReaderApply(w, e);
            Working(w, e.u) && w'.phase.Copying? && e.u in w'.phase.c.work && !OnTheWay(w', e.u) &&
            w'.phase.c.work == w.phase.c.work[e.u := w'.phase.c.work[e.u]] && w'.phase.c.bodies == w.phase.c.bodies &&
            w'.phase.c.index == if e.Adopt? then w.phase.c.index - {e.d} else w.phase.c.index
  {
    hide NoneToAdopt;
  }

  lemma DelivererMoves(w: World, e: Event)
    requires Deliverer(e) && WorkerEnabled(w, e)
    ensures Moves(w, e.u, DelivererApply(w, e))
  {
    DelivererFrame(w, e);
    hide WorkerEnabled, DelivererApply;
  }

  lemma DelivererFrame(w: World, e: Event)
    requires Deliverer(e) && WorkerEnabled(w, e)
    ensures var w' := DelivererApply(w, e);
            Working(w, e.u) && OnTheWay(w, e.u) && w'.phase.Copying? && e.u in w'.phase.c.work &&
            w'.phase.c.work == w.phase.c.work[e.u := w'.phase.c.work[e.u]] && w'.phase.c.bodies == w.phase.c.bodies &&
            w'.phase.c.index == w.phase.c.index
  {
    hide Locate;
  }

  lemma MovesKeepsFirsts(w: World, u: Src, w': World)
    requires Moves(w, u, w') && OnlyFirstsGo(w)
    ensures OnlyFirstsGo(w') && forall v :: ReadFirst(w, v) ==> ReadFirst(w', v)
  {
    forall v | OnTheWay(w', v)
      ensures ReadFirst(w', v)
    {
      assert v != u ==> OnTheWay(w, v);
    }
  }

  /** Outside the workers' steps, a run that copies goes on as it was, is over, or has just made its list. */
  lemma RestMoves(w: World, e: Event)
    requires Enabled(w, e) && !Worker(e)
    ensures w.phase.Copying? && !e.Crash? && !e.EndCopy? ==> Apply(w, e).phase == w.phase
    ensures w.phase.Copying? && (e.Crash? || e.EndCopy?) ==> !Apply(w, e).phase.Copying?
    ensures !w.phase.Copying? ==> forall u :: !OnTheWay(Apply(w, e), u)
  {
    if Outside(e) {
      assert Apply(w, e).phase == w.phase;
    } else if Pass(e) {
      PassRests(w, e);
    } else {
      hide CanSkip, ClaimsChecked, Unhonoured, IndexOf, Locate;
    }
  }

  lemma PassRests(w: World, e: Event)
    requires Enabled(w, e) && Pass(e)
    ensures w.phase.Settling? && Apply(w, e).phase == w.phase
  {
    hide DoomedNow, Unhonoured;
  }

  lemma StepKeepsFirsts(w: World, e: Event)
    requires Enabled(w, e) && OnlyFirstsGo(w) && !WantsRepeats(e)
    ensures OnlyFirstsGo(Apply(w, e))
    ensures !e.Crash? && !e.EndCopy? ==> forall u :: ReadFirst(w, u) ==> ReadFirst(Apply(w, e), u)
  {
    if Worker(e) {
      WorkerMeans(w, e);
      hide Enabled, Apply, WorkerEnabled, OnlyFirstsGo, Moves, ReadFirst;
      if Reader(e) {
        ReaderMoves(w, e);
      } else {
        DelivererMoves(w, e);
      }
      MovesKeepsFirsts(w, e.u, WorkerApply(w, e));
    } else {
      RestMoves(w, e);
      var w' := Apply(w, e);
      assert w'.mail == w.mail;
      hide Enabled, Apply;
      forall u | OnTheWay(w', u)
        ensures ReadFirst(w', u)
      {
        assert OnTheWay(w, u);
      }
    }
  }

  lemma {:induction false} RunKeepsFirsts(w: World, es: seq<Event>)
    requires Run(w, es).Some? && OnlyFirstsGo(w) && forall k :: 0 <= k < |es| ==> !WantsRepeats(es[k])
    ensures OnlyFirstsGo(Run(w, es).value)
    ensures (forall k :: 0 <= k < |es| ==> !es[k].Crash? && !es[k].EndCopy?) ==>
              forall u :: ReadFirst(w, u) ==> ReadFirst(Run(w, es).value, u)
    decreases |es|
  {
    hide Enabled, Apply, OnlyFirstsGo, ReadFirst, WantsRepeats;
    if es != [] {
      StepKeepsFirsts(w, es[0]);
      assert forall k :: 0 <= k < |es[1..]| ==> es[1..][k] == es[k + 1];
      RunKeepsFirsts(Apply(w, es[0]), es[1..]);
    }
  }

  /**
   Over any history in which no fetch asks for repeats: once a run has a message on
   its way to the destination, no other with the same bytes is on its way before that
   run is over.
   */
  lemma OneOfEachBody(w0: World, es: seq<Event>, fs: seq<Event>, u: Src, v: Src)
    requires Untouched(w0) && Run(w0, es).Some? && Run(Run(w0, es).value, fs).Some?
    requires forall k :: 0 <= k < |es| ==> !WantsRepeats(es[k])
    requires forall k :: 0 <= k < |fs| ==> !WantsRepeats(fs[k]) && !fs[k].Crash? && !fs[k].EndCopy?
    requires u != v && u in w0.mail && v in w0.mail && w0.mail[u].body == w0.mail[v].body
    requires OnTheWay(Run(w0, es).value, u)
    ensures !OnTheWay(Run(Run(w0, es).value, fs).value, v)
  {
    hide Enabled, Apply, Run, WantsRepeats, OnTheWay;
    assert OnlyFirstsGo(w0) by {
      NothingOnTheWay(w0);
    }
    RunKeepsFirsts(w0, es);
    RunKeepsFirsts(Run(w0, es).value, fs);
  }

  lemma NothingOnTheWay(w: World)
    requires w.phase.NoRun?
    ensures OnlyFirstsGo(w)
  {
  }

  /* ---------- adoption ---------- */

  /** A message that is not offered, or not any more. */
  predicate NotOffered(w: World, d: Uid) { w.phase.Copying? && d !in w.phase.c.index }

  lemma StepOffersNoMore(w: World, e: Event, d: Uid)
    requires Enabled(w, e) && NotOffered(w, d) && !e.Crash? && !e.EndCopy?
    ensures NotOffered(Apply(w, e), d)
  {
    if Worker(e) {
      WorkerMeans(w, e);
      hide Enabled, Apply;
      if Deliverer(e) {
        DelivererFrame(w, e);
        hide WorkerEnabled, WorkerApply, DelivererApply;
      } else if e.FetchBody? {
        FetchOffers(w, e.u, e.repeats);
        hide WorkerEnabled, WorkerApply, ReaderApply;
      } else {
        OtherReaderFrame(w, e);
        hide WorkerEnabled, ReaderApply;
      }
    } else {
      RestMoves(w, e);
      hide Enabled, Apply;
    }
  }

  lemma FetchOffers(w: World, u: Src, repeats: bool)
    requires WorkerEnabled(w, FetchBody(u, repeats))
    ensures w.phase.Copying? && WorkerApply(w, FetchBody(u, repeats)).phase.c.index == w.phase.c.index
  {
    hide NoneToAdopt, StateStore.MarkedGone;
  }

  lemma {:induction false} RunOffersNoMore(w: World, es: seq<Event>, d: Uid)
    requires Run(w, es).Some? && NotOffered(w, d)
    requires forall k :: 0 <= k < |es| ==> !es[k].Crash? && !es[k].EndCopy?
    ensures NotOffered(Run(w, es).value, d)
    decreases |es|
  {
    hide Enabled, Apply, NotOffered;
    if es != [] {
      StepOffersNoMore(w, es[0], d);
      assert forall k :: 0 <= k < |es[1..]| ==> es[1..][k] == es[k + 1];
      RunOffersNoMore(Apply(w, es[0]), es[1..], d);
    }
  }

  /** A copy is adopted for one message only: until the run is over, no other can be recorded against it so. */
  lemma AdoptedOnce(w: World, u: Src, d: Uid, es: seq<Event>, v: Src)
    requires Enabled(w, Adopt(u, d)) && Run(Apply(w, Adopt(u, d)), es).Some?
    requires forall k :: 0 <= k < |es| ==> !es[k].Crash? && !es[k].EndCopy?
    ensures u in Apply(w, Adopt(u, d)).rows && Apply(w, Adopt(u, d)).rows[u].status.Done? &&
            Apply(w, Adopt(u, d)).rows[u].dstUid == d
    ensures !Enabled(Run(Apply(w, Adopt(u, d)), es).value, Adopt(v, d))
  {
    AdoptTakes(w, u, d);
    hide Run;
    RunOffersNoMore(Apply(w, Adopt(u, d)), es, d);
    hide Apply;
  }

  lemma AdoptTakes(w: World, u: Src, d: Uid)
    requires Enabled(w, Adopt(u, d))
    ensures var w' := Apply(w, Adopt(u, d));
            NotOffered(w', d) && u in w'.rows && w'.rows[u].status.Done? && w'.rows[u].dstUid == d
  {
    WorkerMeans(w, Adopt(u, d));
    hide Enabled, Apply;
  }

  /* ---------- repeats ---------- */

  /**
   A noted message is recorded, against the very copy, exactly when the one that was
   copied in its place is recorded with a copy that can be named where the run copied
   to; otherwise it is left for the next run, and nothing is written.
   */
  lemma SettledIff(w: World, u: Src)
    requires Enabled(w, SettleOne(u))
    ensures w.phase.Settling? && u in w.phase.c.work && w.phase.c.work[u].Noted? && u in w.rows
    ensures var w', v := Apply(w, SettleOne(u)), w.phase.c.work[u].survivor;
            if v in w.rows && w.rows[v].status.Done? && w.rows[v].dstValidity == w.fold.dstValidity &&
               w.rows[v].dstUid != 0
            then u in w'.rows && w'.rows[u].status.Done? && w'.rows[u].dstValidity == w.fold.dstValidity &&
                 w'.rows[u].dstUid == w.rows[v].dstUid && w'.rows[u].detail == w.rows[u].detail
            else w'.rows == w.rows
  {
    SettleMeans(w, u);
    hide Enabled, Apply;
  }

  lemma SettleMeans(w: World, u: Src)
    requires Enabled(w, SettleOne(u))
    ensures w.phase.Settling? && u in w.phase.c.work && w.phase.c.work[u].Noted? && u in w.rows
    ensures Apply(w, SettleOne(u)) == SettledOne(w, u)
  {
    hide SettledOne;
  }

  /* ---------- deletion ---------- */

  /** The row says that the message is copied, and that its copy is this one of the present numbering. */
  predicate Names(w: World, u: Src, d: Uid) {
    u in w.rows && w.rows[u].status.Done? && w.rows[u].dstValidity == w.dstValidity && w.rows[u].dstUid == d && d != 0
  }

  /**
   What deletion may take, unless a search of the destination hides it: a copy that
   rows name, none of a listed message; or a message that the listing has, that can be
   told from others, that no row of any state names, and whose digest no recorded
   message of the list has.
   */
  ghost predicate MayGo(w: World, listing: seq<Uid>, search: Option<set<Uid>>, d: Uid)
    requires w.phase.Settling?
  {
    (search.Some? ==> d in search.value) &&
    (((exists u :: Names(w, u, d)) && forall u :: Names(w, u, d) ==> u !in w.phase.c.listed) ||
     (d in listing && d in w.dest && !w.dest[d].id.weak &&
      (forall u :: u in w.rows ==> w.rows[u].dstValidity != w.dstValidity || w.rows[u].dstUid != d || d == 0) &&
      forall u :: u in w.rows && w.rows[u].status.Done? && u in w.phase.c.listed && w.rows[u].detail.identHash != "" ==>
        w.rows[u].detail.identHash != w.dest[d].id.digest))
  }

  lemma OrphanIff(w: World, live: set<Src>, d: Uid)
    ensures Deletion.OnlyOrphansName(Mirrored(w.rows, w.dstValidity), live, d) <==>
            (exists u :: Names(w, u, d)) && forall u :: Names(w, u, d) ==> u !in live
  {
    var m := Mirrored(w.rows, w.dstValidity);
    assert forall u :: Names(w, u, d) <==> u in m && m[u] == d;
  }

  lemma StrangerIff(w: World, live: set<Src>, d: Uid)
    ensures Deletion.Stranger(Claimed(w.rows, w.dstValidity), Deletion.SourceIdents(w.rows, live), IdentsOf(w.dest), d)
            <==>
            d in w.dest && !w.dest[d].id.weak &&
            (forall u :: u in w.rows ==> w.rows[u].dstValidity != w.dstValidity || w.rows[u].dstUid != d || d == 0) &&
            w.dest[d].id.digest !in Deletion.SourceIdents(w.rows, live)
  {
    assert d in Claimed(w.rows, w.dstValidity) <==>
           exists u :: u in w.rows && w.rows[u].dstValidity == w.dstValidity && w.rows[u].dstUid == d != 0;
  }

  lemma DigestIff(w: World, live: set<Src>, digest: string)
    ensures digest !in Deletion.SourceIdents(w.rows, live) <==>
            forall u :: u in w.rows && w.rows[u].status.Done? && u in live && w.rows[u].detail.identHash != "" ==>
              w.rows[u].detail.identHash != digest
  {
    var known := Idents(w.rows);
    assert forall u :: u in known <==> u in w.rows && w.rows[u].status.Done?;
    assert forall u :: u in known ==> known[u] == w.rows[u].detail.identHash;
  }

  /**
   Deletion removes what it may, or part of it, in one expunge: once all copying and
   settling is over, where the destination has the run's numbering, and only if no
   message failed. Rows are not touched by it.
   */
  lemma ExpungeIff(w: World, gone: set<Uid>, listing: seq<Uid>, search: Option<set<Uid>>)
    ensures Enabled(w, Expunge(gone, listing, search)) <==>
            w.phase.Settling? && (forall u :: u in w.phase.c.work ==> !w.phase.c.work[u].Noted?) &&
            w.dstValidity == w.fold.dstValidity && w.phase.c.failed == {} &&
            forall d :: d in gone ==> MayGo(w, listing, search, d)
    ensures Enabled(w, Expunge(gone, listing, search)) ==>
              var w' := Apply(w, Expunge(gone, listing, search));
              w'.dest == w.dest - gone && w'.rows == w.rows && w'.phase == w.phase
  {
    if w.phase.Settling? {
      forall d
        ensures DoomedNow(w, listing, search, d) <==> MayGo(w, listing, search, d)
      {
        DoomedNowIff(w, listing, search, d);
      }
    }
    hide DoomedNow, MayGo;
  }

  lemma DoomedNowIff(w: World, listing: seq<Uid>, search: Option<set<Uid>>, d: Uid)
    requires w.phase.Settling?
    ensures DoomedNow(w, listing, search, d) <==> MayGo(w, listing, search, d)
  {
    var live := w.phase.c.listed;
    OrphanIff(w, live, d);
    StrangerIff(w, live, d);
    if d in w.dest {
      DigestIff(w, live, w.dest[d].id.digest);
    }
    hide Deletion.OnlyOrphansName, Deletion.Stranger, Deletion.SourceIdents, Claimed, Mirrored, Names;
  }
}
