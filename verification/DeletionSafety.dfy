/**
 Why deletion never loses mail the source still lists: not by what it nominates,
 not when it is interrupted, and not by the order of its two writes.
 */
module DeletionSafety {
  import opened Wrappers
  import opened Identity
  import opened StateStore
  import opened Deletion
  import opened Mailboxes

  lemma ClaimedCoversMirrored(m: Messages, f: nat, sv: nat, dstValidity: nat)
    ensures Mirrored(RowsOf(m, f, sv), dstValidity).Values <= ClaimedDest(m, f, dstValidity)
  {
    var rows := RowsOf(m, f, sv);
    forall d | d in Mirrored(rows, dstValidity).Values
      ensures d in ClaimedDest(m, f, dstValidity)
    {
      var u :| u in Mirrored(rows, dstValidity) && Mirrored(rows, dstValidity)[u] == d;
      assert m[Key(f, sv, u)].dstUid == d;
    }
  }

  /** A message named by the row of a listed source message is never nominated. */
  lemma ListedIsNeverDoomed<K(!new)>(rows: map<K, Row>, dstValidity: nat, claimed: set<Uid>, live: set<K>,
                                     dest: Destination, u: K)
    requires Mirrored(rows, dstValidity).Values <= claimed
    requires u in Mirrored(rows, dstValidity) && u in live
    ensures !Doomed(rows, dstValidity, claimed, live, dest, Mirrored(rows, dstValidity)[u])
  {
    assert Mirrored(rows, dstValidity)[u] in Mirrored(rows, dstValidity).Values;
  }

  /** A message no row names is nominated only on a strong identity that no listed recorded message has. */
  lemma StrangerIsLikeNothingListed(rows: Rows, dstValidity: nat, claimed: set<Uid>, live: set<Uid>, dest: Destination,
      d: Uid, u: Uid)
    requires Doomed(rows, dstValidity, claimed, live, dest, d) && d !in Mirrored(rows, dstValidity).Values
    ensures d in dest.idents && !dest.idents[d].weak
    ensures u in Idents(rows) && u in live && dest.idents[d].digest != "" ==> Idents(rows)[u] != dest.idents[d].digest
  {
    var mirrors := Mirrored(rows, dstValidity);
    forall v | v in mirrors
      ensures mirrors[v] in mirrors.Values
    {
    }
  }

  /**
   The source is known only by its rows. When no listed message has one that says
   it is copied, nothing protects an unrecorded message of the destination: any of
   them that can be identified is doomed, whatever the source holds.
   */
  lemma UnrecordedProtectsNothing<K(!new)>(rows: map<K, Row>, dstValidity: nat, claimed: set<Uid>, live: set<K>,
                                           dest: Destination, d: Uid)
    requires forall u :: u in Idents(rows) ==> u !in live
    ensures Doomed(rows, dstValidity, claimed, live, dest, d) <==>
            (OnlyOrphansName(Mirrored(rows, dstValidity), live, d) ||
             (d in dest.uids && d !in claimed && d in dest.idents && !dest.idents[d].weak)) &&
            (dest.search.Some? ==> d in dest.search.value)
  {
    assert SourceIdents(rows, live) == {};
  }

  /** Every listed message that is recorded as copied has its copy. */
  predicate ListedHaveCopies(rows: Rows, dstValidity: nat, live: set<Uid>, held: set<Uid>) {
    forall u :: u in Mirrored(rows, dstValidity) && u in live ==> Mirrored(rows, dstValidity)[u] in held
  }

  /**
   Wherever the pass is cut short, be it after any part of the expunge or before
   or after the rows are forgotten, every listed message keeps its copy and its row.
   */
  lemma EveryInterruptionIsSafe(rows: Rows, dstValidity: nat, claimed: set<Uid>, live: set<Uid>, dest: Destination,
                                held: set<Uid>, removed: set<Uid>, forgotten: set<Uid>)
    requires Mirrored(rows, dstValidity).Values <= claimed
    requires forall d :: d in removed ==> Doomed(rows, dstValidity, claimed, live, dest, d)
    requires forgotten !! live
    ensures ListedHaveCopies(rows, dstValidity, live, held) ==>
              ListedHaveCopies(rows - forgotten, dstValidity, live, held - removed)
    ensures forall u :: u in live && u in rows ==> u in rows - forgotten && (rows - forgotten)[u] == rows[u]
  {
    forall u | u in Mirrored(rows - forgotten, dstValidity) && u in live &&
      ListedHaveCopies(rows, dstValidity, live, held)
      ensures Mirrored(rows - forgotten, dstValidity)[u] in held - removed
    {
      assert u in Mirrored(rows, dstValidity);
      ListedIsNeverDoomed(rows, dstValidity, claimed, live, dest, u);
    }
  }

  /* ---------- what collapsing leaves behind ---------- */

  function SrcUids(vs: seq<Victim>): (s: set<Uid>)
    ensures forall u :: u in s <==> exists i :: 0 <= i < |vs| && vs[i].srcUid == u
  {
    set i | 0 <= i < |vs| :: vs[i].srcUid
  }

  /** No two rows name one message that is about to go. */
  predicate NoneShared(mirrors: map<Uid, Uid>, doomed: set<Uid>) {
    forall u, v :: u in mirrors && v in mirrors && mirrors[u] == mirrors[v] && mirrors[u] in doomed ==> u == v
  }

  /** After the pass, no row is left naming a message it deleted. */
  predicate NoneLeftNaming(mirrors: map<Uid, Uid>, forgotten: set<Uid>, doomed: set<Uid>) {
    forall u :: u in mirrors && u !in forgotten ==> mirrors[u] !in doomed
  }

  lemma NoneLeftMeansNoneShared(mirrors: map<Uid, Uid>, live: set<Uid>, kept: seq<Victim>)
    requires Distinct(kept) && forall i :: 0 <= i < |kept| ==> Orphan(mirrors, live, kept[i])
    requires NoneLeftNaming(mirrors, SrcUids(kept), DstUids(kept))
    ensures NoneShared(mirrors, DstUids(kept))
  {
    forall u, v | u in mirrors && v in mirrors && mirrors[u] == mirrors[v] && mirrors[u] in DstUids(kept)
      ensures u == v
    {
      var i :| 0 <= i < |kept| && kept[i].srcUid == u;
      var j :| 0 <= j < |kept| && kept[j].srcUid == v;
      assert kept[i].dstUid == kept[j].dstUid;
    }
  }

  lemma NoneSharedMeansNoneLeft(mirrors: map<Uid, Uid>, live: set<Uid>, kept: seq<Victim>)
    requires forall i :: 0 <= i < |kept| ==> Orphan(mirrors, live, kept[i])
    requires NoneShared(mirrors, DstUids(kept))
    ensures NoneLeftNaming(mirrors, SrcUids(kept), DstUids(kept))
  {
    forall u | u in mirrors && mirrors[u] in DstUids(kept)
      ensures u in SrcUids(kept)
    {
      var i :| 0 <= i < |kept| && kept[i].dstUid == mirrors[u];
      assert kept[i].srcUid == u;
    }
  }

  /**
   Nominations of one copy are collapsed into one, and only its row is
   forgotten: every row naming a deleted message goes exactly when no two rows
   shared one.
   */
  lemma AllForgottenIffNoneShared(mirrors: map<Uid, Uid>, live: set<Uid>, orphans: seq<Victim>)
    requires forall v :: v in orphans <==> Orphan(mirrors, live, v)
    ensures var kept := Kept(orphans, Spared(mirrors, live));
            NoneLeftNaming(mirrors, SrcUids(kept), DstUids(kept)) <==> NoneShared(mirrors, DstUids(kept))
  {
    hide NoneLeftNaming, NoneShared, DstUids, SrcUids, Kept, Spared;
    var kept := Kept(orphans, Spared(mirrors, live));
    KeptIsOnePerMessage(orphans, Spared(mirrors, live));
    forall i, j | 0 <= i < j < |kept|
      ensures kept[i].dstUid != kept[j].dstUid
    {
      KeptIsDistinct(orphans, Spared(mirrors, live), i, j);
    }
    forall i | 0 <= i < |kept|
      ensures Orphan(mirrors, live, kept[i])
    {
      assert kept[i] in kept;
    }
    if NoneLeftNaming(mirrors, SrcUids(kept), DstUids(kept)) {
      NoneLeftMeansNoneShared(mirrors, live, kept);
    }
    if NoneShared(mirrors, DstUids(kept)) {
      NoneSharedMeansNoneLeft(mirrors, live, kept);
    }
  }

  const TWO_ROWS: map<Uid, Uid> := map[1 := 5, 2 := 5]

  /** Two gone messages that shared a copy: one row stays, naming nothing, until the next pass. */
  lemma SharedRowIsLeft()
    ensures var kept := Kept([Victim(5, 1), Victim(5, 2)], {});
            Spared(TWO_ROWS, {}) == {} && kept == [Victim(5, 1)] &&
            !NoneLeftNaming(TWO_ROWS, SrcUids(kept), DstUids(kept))
  {
    assert Kept([], {}) == [] && DstUids([]) == {};
    hide Kept, DstUids;
    var a, b := Victim(5, 1), Victim(5, 2);
    KeptSnoc([], a, {});
    DstUidsSnoc([], a);
    assert [] + [a] == [a] && [a] + [b] == [a, b];
    KeptSnoc([a], b, {});
    assert 5 in DstUids([a]);
    assert 2 in TWO_ROWS && TWO_ROWS[2] == 5 && 2 !in SrcUids([a]);
  }

  /* ---------- the pass itself ---------- */

  datatype Outcome =
    | StoodDown
    | NothingToDelete
    | RefusedTooMany(nominated: nat, population: nat)
    | DeletionFailed
    | Deleted(count: nat)

  /** The rows and the destination as a crash would find them. */
  datatype Moment = Moment(rows: Rows, held: map<Uid, Ident>)

  /** Every listed message recorded as copied has its copy, at this moment as at the first one. */
  ghost predicate SafeSince(first: Moment, now: Moment, dv: nat, live: set<Uid>) {
    ListedHaveCopies(first.rows, dv, live, first.held.Keys) ==> ListedHaveCopies(now.rows, dv, live, now.held.Keys)
  }

  datatype Options = Options(delete2: bool, ceiling: real, force: bool, search: Option<set<Uid>>, batch: nat)

  /**
   The whole pass. `stopped` is how far an expunge that breaks off got, and
   `written` whether the database took the last write; `trace` is every moment a
   crash could find besides the first.
   */
  method DeleteVanished(db: DB, box: Mailbox<Ident>, f: nat, sv: nat, dv: nat, live: set<Uid>, opts: Options,
                        skipped: bool, failed: nat, uids: seq<Uid>, stopped: Option<set<Uid>>, written: bool)
    returns (r: Outcome, ghost trace: seq<Moment>)
    requires opts.batch > 0 && NoRepeats(uids)
    modifies db`messages, box
    ensures r.StoodDown? || r.NothingToDelete? || r.RefusedTooMany? ==>
              box.held == old(box.held) && db.messages == old(db.messages)
    ensures !r.Deleted? ==> db.messages == old(db.messages)
    ensures r.StoodDown? <==> !opts.delete2 || skipped || failed > 0
    ensures var n := |Nominated(RowsOf(old(db.messages), f, sv), dv, ClaimedDest(old(db.messages), f, dv), live,
                                Destination(uids, old(box.held), opts.search))|;
            !r.StoodDown? ==>
              (r.NothingToDelete? <==> n == 0) &&
              (r.RefusedTooMany? <==> n > 0 && !AllowedToDelete(n, |uids|, opts.ceiling, opts.force)) &&
              (r.Deleted? <==>
                 n > 0 && AllowedToDelete(n, |uids|, opts.ceiling, opts.force) && stopped.None? && written)
    ensures var n := |Nominated(RowsOf(old(db.messages), f, sv), dv, ClaimedDest(old(db.messages), f, dv), live,
                                Destination(uids, old(box.held), opts.search))|;
            (r.RefusedTooMany? ==> r.nominated == n && r.population == |uids|) && (r.Deleted? ==> r.count == n)
    ensures r.Deleted? ==>
              OneForgottenEach(RowsOf(old(db.messages), f, sv), RowsOf(db.messages, f, sv), dv,
                Nominated(RowsOf(old(db.messages), f, sv), dv, ClaimedDest(old(db.messages), f, dv), live,
                          Destination(uids, old(box.held), opts.search)))
    ensures SameElsewhere(old(db.messages), db.messages, f, sv)
    ensures OnlyDoomedGone(RowsOf(old(db.messages), f, sv), dv, ClaimedDest(old(db.messages), f, dv), live,
                           Destination(uids, old(box.held), opts.search), old(box.held), box.held, r.Deleted?)
    ensures OnlyOrphansForgotten(RowsOf(old(db.messages), f, sv), RowsOf(db.messages, f, sv), dv, live, box.held)
    ensures trace != [] && trace[|trace| - 1] == Moment(RowsOf(db.messages, f, sv), box.held)
    ensures r.Deleted? ==> trace[0] == Moment(RowsOf(old(db.messages), f, sv), box.held)
    ensures forall k :: 0 <= k < |trace| ==>
              SafeSince(Moment(RowsOf(old(db.messages), f, sv), old(box.held)), trace[k], dv, live)
  {
    hide Doomed, RowsOf, Mirrored, ClaimedDest, ListedHaveCopies, OnlyDoomedGone, OnlyOrphansForgotten, DstUids,
      SafeSince, AllowedToDelete, Nominated, OneForgottenEach, SrcUids;
    trace := [Moment(RowsOf(db.messages, f, sv), box.held)];
    UnchangedIsSafe(RowsOf(db.messages, f, sv), dv, ClaimedDest(db.messages, f, dv), live,
                    Destination(uids, box.held, opts.search), box.held);
    if !opts.delete2 || skipped {
      return StoodDown, trace;
    }
    if failed > 0 {
      return StoodDown, trace;
    }
    ghost var rows := RowsOf(db.messages, f, sv);
    var claimed := ClaimedDest(db.messages, f, dv);
    var dest := Destination(uids, box.held, opts.search);
    ClaimedCoversMirrored(db.messages, f, sv, dv);
    var victims, population, allowed :=
      Condemned(RowsOf(db.messages, f, sv), dv, claimed, live, dest, opts.batch, opts.ceiling, opts.force);
    VictimsAreNominated(rows, dv, claimed, live, dest, victims);
    if |victims| == 0 {
      return NothingToDelete, trace;
    }
    if !allowed {
      return RefusedTooMany(|victims|, population), trace;
    }
    var ok := Carry(db, box, f, sv, dv, live, victims, stopped, written);
    CarriedIsSafe(rows, rows, dv, claimed, live, dest, old(box.held), box.held, victims, false);
    CarriedIsSafe(rows, RowsOf(db.messages, f, sv), dv, claimed, live, dest, old(box.held), box.held, victims, ok);
    EachLosesOneRow(rows, dv, claimed, live, victims);
    r := if ok then Deleted(|victims|) else DeletionFailed;
    trace := [Moment(rows, box.held), Moment(RowsOf(db.messages, f, sv), box.held)];
  }

  /** Every message the pass nominates. */
  ghost function Nominated(rows: Rows, dv: nat, claimed: set<Uid>, live: set<Uid>, dest: Destination): set<Uid> {
    set d | d in Mirrored(rows, dv).Values + UidSet(dest.uids) && Doomed(rows, dv, claimed, live, dest, d)
  }

  lemma VictimsAreNominated(rows: Rows, dv: nat, claimed: set<Uid>, live: set<Uid>, dest: Destination,
      victims: seq<Victim>)
    requires Deletion.Distinct(victims)
    requires forall d :: d in DstUids(victims) <==> Doomed(rows, dv, claimed, live, dest, d)
    ensures DstUids(victims) == Nominated(rows, dv, claimed, live, dest)
    ensures |victims| == |Nominated(rows, dv, claimed, live, dest)|
  {
    DistinctAreMany(victims);
    forall d | Doomed(rows, dv, claimed, live, dest, d)
      ensures d in Nominated(rows, dv, claimed, live, dest)
    {
      if d !in UidSet(dest.uids) {
        var m := Mirrored(rows, dv);
        var u :| u in m && m[u] == d;
      }
    }
    hide Doomed, DstUids;
    assert DstUids(victims) == Nominated(rows, dv, claimed, live, dest);
  }

  lemma {:induction false} DistinctAreMany(vs: seq<Victim>)
    requires Deletion.Distinct(vs)
    ensures |DstUids(vs)| == |vs|
  {
    if vs != [] {
      var n := |vs| - 1;
      DistinctAreMany(vs[..n]);
      assert vs[n].dstUid !in DstUids(vs[..n]);
    }
  }

  /** Of the rows that name a message that is gone, one is forgotten and the others are left. */
  ghost predicate OneForgottenEach(rows: Rows, rows': Rows, dv: nat, gone: set<Uid>) {
    var m := Mirrored(rows, dv);
    0 !in rows ==>
      forall d :: d in gone && d in m.Values ==>
        exists u :: u in m && m[u] == d && u !in rows' && forall x :: x in m && m[x] == d && x != u ==> x in rows'
  }

  lemma EachLosesOneRow(rows: Rows, dv: nat, claimed: set<Uid>, live: set<Uid>, victims: seq<Victim>)
    requires Deletion.Distinct(victims) && Mirrored(rows, dv).Values <= claimed
    requires forall v :: v in victims ==>
               Orphan(Mirrored(rows, dv), live, v) || (v.srcUid == 0 && v.dstUid !in claimed)
    ensures OneForgottenEach(rows, rows - (SrcUids(victims) - {0}), dv, DstUids(victims))
  {
    var m := Mirrored(rows, dv);
    var rows' := rows - (SrcUids(victims) - {0});
    assert forall u :: u in m ==> u in rows;
    hide Mirrored, SrcUids, DstUids;
    if 0 !in rows {
      forall d | d in DstUids(victims) && d in m.Values
        ensures exists u :: u in m && m[u] == d && u !in rows' && forall x :: x in m && m[x] == d && x != u ==>
          x in rows'
      {
        var u := OneRowOf(m, claimed, live, victims, d);
      }
    }
  }

  lemma OneRowOf(m: map<Uid, Uid>, claimed: set<Uid>, live: set<Uid>, victims: seq<Victim>, d: Uid) returns (u: Uid)
    requires Deletion.Distinct(victims) && m.Values <= claimed && 0 !in m && d in DstUids(victims) && d in m.Values
    requires forall v :: v in victims ==> Orphan(m, live, v) || (v.srcUid == 0 && v.dstUid !in claimed)
    ensures u in m && m[u] == d && u in SrcUids(victims)
    ensures forall x :: x in m && m[x] == d && x in SrcUids(victims) ==> x == u
  {
    var i :| 0 <= i < |victims| && victims[i].dstUid == d;
    assert victims[i] in victims;
    u := victims[i].srcUid;
    forall x | x in m && m[x] == d && x in SrcUids(victims)
      ensures x == u
    {
      var j :| 0 <= j < |victims| && victims[j].srcUid == x;
      assert victims[j] in victims;
      hide SrcUids, DstUids;
      assert j == i;
    }
  }

  /** What is gone from the destination was doomed; after a complete pass all of that is gone. */
  ghost predicate OnlyDoomedGone(rows: Rows, dv: nat, claimed: set<Uid>, live: set<Uid>, dest: Destination,
                                 held: map<Uid, Ident>, held': map<Uid, Ident>, complete: bool) {
    (forall d :: d in held' ==> d in held && held'[d] == held[d]) &&
    (forall d :: d in held && d !in held' ==> Doomed(rows, dv, claimed, live, dest, d)) &&
    (complete ==> forall d :: d in held' ==> !Doomed(rows, dv, claimed, live, dest, d))
  }

  /** A row that is gone was of a message the source no longer lists, and its copy is gone too. */
  ghost predicate OnlyOrphansForgotten(rows: Rows, rows': Rows, dv: nat, live: set<Uid>, held': map<Uid, Ident>) {
    (forall u :: u in rows' ==> u in rows && rows'[u] == rows[u]) &&
    (forall u :: u in rows && u !in rows' ==>
       u !in live && u in Mirrored(rows, dv) && Mirrored(rows, dv)[u] !in held')
  }

  lemma UnchangedIsSafe(rows: Rows, dv: nat, claimed: set<Uid>, live: set<Uid>, dest: Destination,
      held: map<Uid, Ident>)
    ensures OnlyDoomedGone(rows, dv, claimed, live, dest, held, held, false)
    ensures OnlyOrphansForgotten(rows, rows, dv, live, held)
    ensures SafeSince(Moment(rows, held), Moment(rows, held), dv, live)
  {
    hide Doomed, ListedHaveCopies;
  }

  lemma CarriedIsSafe(rows: Rows, rows': Rows, dv: nat, claimed: set<Uid>, live: set<Uid>, dest: Destination,
                      held: map<Uid, Ident>, held': map<Uid, Ident>, victims: seq<Victim>, ok: bool)
    requires Mirrored(rows, dv).Values <= claimed
    requires forall d :: d in DstUids(victims) <==> Doomed(rows, dv, claimed, live, dest, d)
    requires forall d :: d in held' ==> d in held && held'[d] == held[d]
    requires forall d :: d in held && d !in held' ==> d in DstUids(victims)
    requires ok ==> forall d :: d in DstUids(victims) ==> d !in held'
    requires !ok ==> rows' == rows
    requires forall u :: u in rows' ==> u in rows && rows'[u] == rows[u]
    requires forall u :: u in rows && u !in rows' ==>
               u !in live && u in Mirrored(rows, dv) && Mirrored(rows, dv)[u] in DstUids(victims)
    ensures OnlyDoomedGone(rows, dv, claimed, live, dest, held, held', ok)
    ensures OnlyOrphansForgotten(rows, rows', dv, live, held')
    ensures SafeSince(Moment(rows, held), Moment(rows', held'), dv, live)
  {
    hide Doomed, DstUids, ListedHaveCopies;
    var removed, forgotten := held.Keys - held'.Keys, rows.Keys - rows'.Keys;
    EveryInterruptionIsSafe(rows, dv, claimed, live, dest, held.Keys, removed, forgotten);
    assert held.Keys - removed == held'.Keys;
    assert rows - forgotten == rows';
  }

  /** The two writes, in the order that makes either one safe to lose: first the messages, then their rows. */
  method Carry(db: DB, box: Mailbox<Ident>, f: nat, sv: nat, dv: nat, live: set<Uid>, victims: seq<Victim>,
               stopped: Option<set<Uid>>, written: bool)
    returns (ok: bool)
    requires forall v :: v in victims ==> Orphan(Mirrored(RowsOf(db.messages, f, sv), dv), live, v) || v.srcUid == 0
    modifies db`messages, box
    ensures ok <==> stopped.None? && written
    ensures forall d :: d in box.held ==> d in old(box.held) && box.held[d] == old(box.held)[d]
    ensures forall d :: d in old(box.held) && d !in box.held ==> d in DstUids(victims)
    ensures ok ==> forall d :: d in DstUids(victims) ==> d !in box.held
    ensures !ok ==> db.messages == old(db.messages)
    ensures SameElsewhere(old(db.messages), db.messages, f, sv)
    ensures ok ==> RowsOf(db.messages, f, sv) == RowsOf(old(db.messages), f, sv) - (SrcUids(victims) - {0})
    ensures var rows, rows' := RowsOf(old(db.messages), f, sv), RowsOf(db.messages, f, sv);
            (forall u :: u in rows' ==> u in rows && rows'[u] == rows[u]) &&
            (forall u :: u in rows && u !in rows' ==>
               u !in live && u in Mirrored(rows, dv) && Mirrored(rows, dv)[u] in DstUids(victims) && ok)
  {
    hide RowsOf, Mirrored, DstUids, SrcUids, UidSet;
    ghost var rows := RowsOf(db.messages, f, sv);
    var doomed, forget := Targets(victims);
    ok := box.DeleteMessages(doomed, stopped);
    if !ok || !written {
      return false;
    }
    ForgottenAreOrphans(rows, dv, live, victims, forget);
    db.ForgetMessages(f, sv, forget);
  }

  lemma SrcUidsSnoc(vs: seq<Victim>, v: Victim)
    ensures SrcUids(vs + [v]) == SrcUids(vs) + {v.srcUid}
  {
    var ws := vs + [v];
    forall u | u in SrcUids(vs) + {v.srcUid}
      ensures u in SrcUids(ws)
    {
      if u in SrcUids(vs) {
        var i :| 0 <= i < |vs| && vs[i].srcUid == u;
        assert ws[i].srcUid == u;
      } else {
        assert ws[|vs|].srcUid == u;
      }
    }
  }

  lemma UidSetSnoc(us: seq<Uid>, u: Uid)
    ensures UidSet(us + [u]) == UidSet(us) + {u}
  {
    var ws := us + [u];
    forall x | x in UidSet(us) + {u}
      ensures x in UidSet(ws)
    {
      if x in UidSet(us) {
        var i :| 0 <= i < |us| && us[i] == x;
        assert ws[i] == x;
      } else {
        assert ws[|us|] == x;
      }
    }
  }

  /** The messages to delete and the rows to forget. */
  method Targets(victims: seq<Victim>) returns (doomed: set<Uid>, forget: seq<Uid>)
    ensures doomed == DstUids(victims)
    ensures UidSet(forget) == SrcUids(victims) - {0}
  {
    doomed, forget := {}, [];
    for i := 0 to |victims|
      invariant doomed == DstUids(victims[..i])
      invariant UidSet(forget) == SrcUids(victims[..i]) - {0}
    {
      hide DstUids, SrcUids, UidSet;
      assert victims[..i + 1] == victims[..i] + [victims[i]];
      DstUidsSnoc(victims[..i], victims[i]);
      SrcUidsSnoc(victims[..i], victims[i]);
      doomed := doomed + {victims[i].dstUid};
      if victims[i].srcUid != 0 {
        UidSetSnoc(forget, victims[i].srcUid);
        forget := forget + [victims[i].srcUid];
      }
    }
    assert victims[..|victims|] == victims;
  }

  lemma ForgottenAreOrphans(rows: Rows, dv: nat, live: set<Uid>, victims: seq<Victim>, forget: seq<Uid>)
    requires forall v :: v in victims ==> Orphan(Mirrored(rows, dv), live, v) || v.srcUid == 0
    requires UidSet(forget) == SrcUids(victims) - {0}
    ensures UidSet(forget) !! live
    ensures forall u :: u in UidSet(forget) ==> u in Mirrored(rows, dv) && Mirrored(rows, dv)[u] in DstUids(victims)
  {
    forall u | u in UidSet(forget)
      ensures u !in live && u in Mirrored(rows, dv) && Mirrored(rows, dv)[u] in DstUids(victims)
    {
      var i :| 0 <= i < |victims| && victims[i].srcUid == u;
      assert victims[i] in victims;
    }
  }
}
