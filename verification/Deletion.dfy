/**
 Deleting from the destination what the source no longer accounts for.

 Two populations are nominated: copies whose source message has gone, which the
 rows name exactly, and messages nothing recorded, which only their identity can
 speak for. Whatever is interrupted, and wherever, a message the source still
 lists keeps its copy.
 */
module Deletion {
  import opened Wrappers
  import opened Identity
  import opened StateStore

  /** A destination message nominated for deletion; `srcUid` is zero for one nothing recorded. */
  datatype Victim = Victim(dstUid: Uid, srcUid: Uid)

  /* ---------- copies whose source message has gone ---------- */

  predicate Orphan(mirrors: map<Uid, Uid>, live: set<Uid>, v: Victim) {
    v.srcUid in mirrors && v.srcUid !in live && mirrors[v.srcUid] == v.dstUid
  }

  /** One nomination per row whose source message has gone, in whatever order the rows come. */
  method Orphans(mirrors: map<Uid, Uid>, live: set<Uid>) returns (victims: seq<Victim>)
    ensures forall v :: v in victims <==> Orphan(mirrors, live, v)
    ensures forall i, j :: 0 <= i < j < |victims| ==> victims[i].srcUid != victims[j].srcUid
  {
    victims := [];
    var todo := mirrors.Keys;
    while todo != {}
      invariant todo <= mirrors.Keys
      invariant forall v :: v in victims <==> Orphan(mirrors, live, v) && v.srcUid !in todo
      invariant forall i :: 0 <= i < |victims| ==> victims[i].srcUid !in todo
      invariant forall i, j :: 0 <= i < j < |victims| ==> victims[i].srcUid != victims[j].srcUid
      decreases |todo|
    {
      var u :| u in todo;
      if u !in live {
        victims := victims + [Victim(mirrors[u], u)];
      }
      todo := todo - {u};
    }
  }

  /* ---------- one nomination per destination message ---------- */

  function DstUids(vs: seq<Victim>): (s: set<Uid>)
    ensures forall d :: d in s <==> exists i :: 0 <= i < |vs| && vs[i].dstUid == d
  {
    if vs == [] then {} else DstUids(vs[..|vs| - 1]) + {vs[|vs| - 1].dstUid}
  }

  /** The nominations to keep: of each message that is not spared, the first. */
  function Kept(vs: seq<Victim>, spared: set<Uid>): seq<Victim> {
    if vs == [] then []
    else
      var n := |vs| - 1;
      Kept(vs[..n], spared) + if vs[n].dstUid in spared || vs[n].dstUid in DstUids(vs[..n]) then [] else [vs[n]]
  }

  lemma DstUidsSnoc(vs: seq<Victim>, v: Victim)
    ensures DstUids(vs + [v]) == DstUids(vs) + {v.dstUid}
  {
    assert (vs + [v])[..|vs|] == vs;
  }

  lemma KeptSnoc(vs: seq<Victim>, v: Victim, spared: set<Uid>)
    ensures Kept(vs + [v], spared) ==
            if v.dstUid in spared || v.dstUid in DstUids(vs) then Kept(vs, spared) else Kept(vs, spared) + [v]
  {
    assert (vs + [v])[..|vs|] == vs;
    assert Kept(vs, spared) + [] == Kept(vs, spared);
  }

  /** Every message nominated and not spared is kept exactly once, and nothing else is. */
  lemma {:induction false} KeptIsOnePerMessage(vs: seq<Victim>, spared: set<Uid>)
    ensures DstUids(Kept(vs, spared)) == DstUids(vs) - spared
    ensures forall v :: v in Kept(vs, spared) ==> v in vs
  {
    if vs != [] {
      hide Kept, DstUids;
      var us, v := vs[..|vs| - 1], vs[|vs| - 1];
      assert vs == us + [v];
      KeptIsOnePerMessage(us, spared);
      KeptSnoc(us, v, spared);
      DstUidsSnoc(us, v);
      DstUidsSnoc(Kept(us, spared), v);
    }
  }

  lemma {:induction false} KeptIsDistinct(vs: seq<Victim>, spared: set<Uid>, i: nat, j: nat)
    requires i < j < |Kept(vs, spared)|
    ensures Kept(vs, spared)[i].dstUid != Kept(vs, spared)[j].dstUid
  {
    var n := |vs| - 1;
    var k := Kept(vs[..n], spared);
    KeptIsOnePerMessage(vs[..n], spared);
    if j < |k| {
      KeptIsDistinct(vs[..n], spared, i, j);
    } else {
      assert k[i].dstUid in DstUids(k);
    }
  }

  /** The messages that a source message still there also names. */
  function Spared(mirrors: map<Uid, Uid>, live: set<Uid>): (s: set<Uid>)
    ensures forall d :: d in s <==> exists u :: u in mirrors && u in live && mirrors[u] == d
  {
    set u | u in mirrors && u in live :: mirrors[u]
  }

  method Nominated(victims: array<Victim>, n: nat) returns (nominated: set<Uid>)
    requires n <= victims.Length
    ensures nominated == DstUids(victims[..n])
  {
    nominated := {};
    for i := 0 to n
      invariant nominated == DstUids(victims[..i])
    {
      hide DstUids;
      DstUidsSnoc(victims[..i], victims[i]);
      assert victims[..i + 1] == victims[..i] + [victims[i]];
      nominated := nominated + {victims[i].dstUid};
    }
  }

  /** Which of the nominated a source message still there also names. */
  method SparedAmong(nominated: set<Uid>, mirrors: map<Uid, Uid>, live: set<Uid>) returns (spared: set<Uid>)
    ensures spared == nominated * Spared(mirrors, live)
  {
    spared := {};
    var todo := mirrors.Keys;
    while todo != {}
      invariant todo <= mirrors.Keys
      invariant forall d :: d in spared <==>
        d in nominated && exists u :: u in mirrors && u !in todo && u in live && mirrors[u] == d
      decreases |todo|
    {
      var u :| u in todo;
      if mirrors[u] in nominated && u in live {
        spared := spared + {mirrors[u]};
      }
      todo := todo - {u};
    }
  }

  lemma KeptIgnoresOthers(vs: seq<Victim>, spared: set<Uid>)
    ensures Kept(vs, DstUids(vs) * spared) == Kept(vs, spared)
  {
    KeptAmong(vs, DstUids(vs), spared);
  }

  lemma {:induction false} KeptAmong(vs: seq<Victim>, among: set<Uid>, spared: set<Uid>)
    requires DstUids(vs) <= among
    ensures Kept(vs, among * spared) == Kept(vs, spared)
  {
    if vs != [] {
      hide Kept, DstUids;
      var us, v := vs[..|vs| - 1], vs[|vs| - 1];
      assert vs == us + [v];
      DstUidsSnoc(us, v);
      KeptAmong(us, among, spared);
      KeptSnoc(us, v, spared);
      KeptSnoc(us, v, among * spared);
    }
  }

  lemma KeptStep(all: seq<Victim>, i: nat, spared: set<Uid>)
    requires i < |all|
    ensures Kept(all[..i + 1], spared) ==
            if all[i].dstUid in spared || all[i].dstUid in DstUids(all[..i]) then Kept(all[..i], spared)
            else Kept(all[..i], spared) + [all[i]]
    ensures DstUids(all[..i + 1]) == DstUids(all[..i]) + {all[i].dstUid}
  {
    assert all[..i + 1] == all[..i] + [all[i]];
    KeptSnoc(all[..i], all[i], spared);
    DstUidsSnoc(all[..i], all[i]);
  }

  /** The pass over the nominations: those kept move down over those dropped. */
  method KeepInPlace(victims: array<Victim>, n: nat, spared: set<Uid>) returns (kept: nat)
    requires n <= victims.Length
    modifies victims
    ensures kept <= n
    ensures victims[..kept] == Kept(old(victims[..n]), spared)
    ensures forall k :: n <= k < victims.Length ==> victims[k] == old(victims[k])
  {
    ghost var all := victims[..n];
    var seen: set<Uid> := {};
    kept := 0;
    for i := 0 to n
      invariant kept <= i
      invariant victims[..kept] == Kept(all[..i], spared)
      invariant forall k :: i <= k < victims.Length ==> victims[k] == old(victims[k])
      invariant forall d :: d !in spared ==> (d in seen <==> d in DstUids(all[..i]))
    {
      hide Kept, DstUids;
      KeptStep(all, i, spared);
      var v := victims[i];
      if v.dstUid !in spared && v.dstUid !in seen {
        seen := seen + {v.dstUid};
        MoveDown(victims, kept, v);
        kept := kept + 1;
      }
    }
    assert all[..n] == all;
  }

  method MoveDown(victims: array<Victim>, kept: nat, v: Victim)
    requires kept < victims.Length
    modifies victims
    ensures victims[..kept + 1] == old(victims[..kept]) + [v]
    ensures forall k :: kept < k < victims.Length ==> victims[k] == old(victims[k])
  {
    victims[kept] := v;
  }

  /**
   Reduces the first `n` nominations in place to one per destination message,
   leaving out any that a source message still there also names.
   */
  method StillClaimed(victims: array<Victim>, n: nat, mirrors: map<Uid, Uid>, live: set<Uid>) returns (kept: nat)
    requires n <= victims.Length
    modifies victims
    ensures kept <= n
    ensures victims[..kept] == Kept(old(victims[..n]), Spared(mirrors, live))
    ensures forall k :: n <= k < victims.Length ==> victims[k] == old(victims[k])
  {
    if n == 0 {
      return 0;
    }
    var nominated := Nominated(victims, n);
    var spared := SparedAmong(nominated, mirrors, live);
    KeptIgnoresOthers(victims[..n], Spared(mirrors, live));
    kept := KeepInPlace(victims, n, spared);
  }

  /* ---------- messages nothing recorded ---------- */

  predicate Stranger(claimed: set<Uid>, held: set<string>, idents: map<Uid, Ident>, d: Uid) {
    d !in claimed && d in idents && !idents[d].weak && idents[d].digest !in held
  }

  function StrangersIn(uids: seq<Uid>, claimed: set<Uid>, held: set<string>, idents: map<Uid, Ident>): seq<Victim> {
    if uids == [] then []
    else
      var n := |uids| - 1;
      StrangersIn(uids[..n], claimed, held, idents) +
      if Stranger(claimed, held, idents, uids[n]) then [Victim(uids[n], 0)] else []
  }

  function Unclaimed(uids: seq<Uid>, claimed: set<Uid>): (r: seq<Uid>)
    ensures |r| <= |uids|
  {
    if uids == [] then []
    else
      var n := |uids| - 1;
      Unclaimed(uids[..n], claimed) + if uids[n] in claimed then [] else [uids[n]]
  }

  lemma {:induction false} StrangersAreUnclaimed(uids: seq<Uid>, claimed: set<Uid>, held: set<string>,
      idents: map<Uid, Ident>)
    ensures StrangersIn(Unclaimed(uids, claimed), claimed, held, idents) == StrangersIn(uids, claimed, held, idents)
  {
    if uids != [] {
      var n := |uids| - 1;
      var r := Unclaimed(uids[..n], claimed);
      StrangersAreUnclaimed(uids[..n], claimed, held, idents);
      assert r + [] == r;
      if uids[n] !in claimed {
        assert (r + [uids[n]])[..|r|] == r;
      }
    }
  }

  lemma {:induction false} StrangersAre(uids: seq<Uid>, claimed: set<Uid>, held: set<string>, idents: map<Uid, Ident>)
    ensures forall v :: v in StrangersIn(uids, claimed, held, idents) <==>
                        v.srcUid == 0 && v.dstUid in uids && Stranger(claimed, held, idents, v.dstUid)
  {
    if uids != [] {
      var n := |uids| - 1;
      StrangersAre(uids[..n], claimed, held, idents);
      assert forall d :: d in uids <==> d in uids[..n] || d == uids[n];
    }
  }

  /**
   The unrecorded messages the source has nothing like, read a batch of headers
   at a time. `idents` is what the destination answers about the messages it is
   asked for; one expunged meanwhile has no answer.
   */
  method Strangers(uids: seq<Uid>, claimed: set<Uid>, held: set<string>, idents: map<Uid, Ident>, batch: nat)
    returns (victims: seq<Victim>, population: nat)
    requires batch > 0
    ensures population == |uids|
    ensures victims == StrangersIn(uids, claimed, held, idents)
  {
    population := |uids|;
    victims := [];
    var unclaimed: seq<Uid> := [];
    for i := 0 to |uids|
      invariant unclaimed == Unclaimed(uids[..i], claimed)
    {
      assert uids[..i + 1][..i] == uids[..i];
      if uids[i] !in claimed {
        unclaimed := unclaimed + [uids[i]];
      }
    }
    assert uids[..|uids|] == uids;
    StrangersAreUnclaimed(uids, claimed, held, idents);
    UnclaimedAre(uids, claimed);
    var start := 0;
    while start < |unclaimed|
      invariant start <= |unclaimed|
      invariant victims == StrangersIn(unclaimed[..start], claimed, held, idents)
    {
      var end := if start + batch < |unclaimed| then start + batch else |unclaimed|;
      for i := start to end
        invariant victims == StrangersIn(unclaimed[..i], claimed, held, idents)
      {
        assert unclaimed[..i + 1][..i] == unclaimed[..i];
        if unclaimed[i] in idents {
          var id := idents[unclaimed[i]];
          if !id.weak && id.digest !in held {
            victims := victims + [Victim(unclaimed[i], 0)];
          }
        }
      }
      start := end;
    }
    assert unclaimed[..|unclaimed|] == unclaimed;
  }

  lemma {:induction false} UnclaimedAre(uids: seq<Uid>, claimed: set<Uid>)
    ensures forall i :: 0 <= i < |Unclaimed(uids, claimed)| ==> Unclaimed(uids, claimed)[i] !in claimed
  {
    if uids != [] {
      UnclaimedAre(uids[..|uids| - 1], claimed);
    }
  }

  /** The identities the source holds, as far as they were ever recorded. */
  function SourceIdents<K(==,!new)>(rows: map<K, Row>, live: set<K>): (held: set<string>)
    ensures forall s :: s in held <==> s != "" && exists u :: u in Idents(rows) && u in live && Idents(rows)[u] == s
  {
    set u | u in Idents(rows) && u in live && Idents(rows)[u] != "" :: Idents(rows)[u]
  }

  /* ---------- the safety valve ---------- */

  const DELETE_FLOOR: nat := 10

  predicate AllowedToDelete(nominated: nat, population: nat, ceiling: real, force: bool) {
    nominated == 0 || population == 0 || nominated <= DELETE_FLOOR ||
    nominated as real / population as real <= ceiling || force
  }

  /** Without force, a folder with messages loses at most ten of them or the ceiling's share. */
  lemma CeilingHolds(nominated: nat, population: nat, ceiling: real, force: bool)
    ensures AllowedToDelete(nominated, population, ceiling, force) <==>
            force || population == 0 || nominated <= 10 || nominated as real <= ceiling * population as real
  {
    if population == 0 {
      return;
    }
    var share := nominated as real / population as real;
    assert share * population as real == nominated as real;
    if share <= ceiling {
      assert share * population as real <= ceiling * population as real;
    } else {
      assert share * population as real > ceiling * population as real;
    }
  }

  /* ---------- the whole nomination ---------- */

  /** What the destination says when it is asked: the listing, the headers, and the messages a search names. */
  datatype Destination = Destination(uids: seq<Uid>, idents: map<Uid, Ident>, search: Option<set<Uid>>)

  /** The messages the destination search does not hide. */
  function Visible(vs: seq<Victim>, search: Option<set<Uid>>): seq<Victim> {
    if vs == [] || search.None? then vs
    else
      var n := |vs| - 1;
      Visible(vs[..n], search) + if vs[n].dstUid in search.value then [vs[n]] else []
  }

  lemma {:induction false} VisibleAre(vs: seq<Victim>, search: Option<set<Uid>>)
    ensures forall v :: v in Visible(vs, search) <==> v in vs && (search.Some? ==> v.dstUid in search.value)
    ensures |Visible(vs, search)| <= |vs|
    ensures forall i, j :: 0 <= i < j < |Visible(vs, search)| && Distinct(vs) ==>
              Visible(vs, search)[i].dstUid != Visible(vs, search)[j].dstUid
  {
    if vs != [] && search.Some? {
      var n := |vs| - 1;
      VisibleAre(vs[..n], search);
      assert forall v :: v in vs <==> v in vs[..n] || v == vs[n];
      var before := Visible(vs[..n], search);
      if Distinct(vs) {
        assert Distinct(vs[..n]);
        forall i | 0 <= i < |before|
          ensures before[i].dstUid != vs[n].dstUid
        {
          assert before[i] in vs[..n];
        }
      }
    }
  }

  predicate Distinct(vs: seq<Victim>) {
    forall i, j :: 0 <= i < j < |vs| ==> vs[i].dstUid != vs[j].dstUid
  }

  /**
   Exactly what may be deleted: a recorded copy no listed message names, or an identifiable message like none
   of them.
   */
  ghost predicate Doomed<K(!new)>(rows: map<K, Row>, dstValidity: nat, claimed: set<Uid>, live: set<K>,
                                  dest: Destination, d: Uid)
  {
    (OnlyOrphansName(Mirrored(rows, dstValidity), live, d) ||
     (d in dest.uids && Stranger(claimed, SourceIdents(rows, live), dest.idents, d))) &&
    (dest.search.Some? ==> d in dest.search.value)
  }

  ghost predicate OnlyOrphansName<K(!new)>(mirrors: map<K, Uid>, live: set<K>, d: Uid) {
    (exists u :: u in mirrors && mirrors[u] == d) && forall u :: u in mirrors && mirrors[u] == d ==> u !in live
  }

  predicate NoRepeats(uids: seq<Uid>) {
    forall i, j :: 0 <= i < j < |uids| ==> uids[i] != uids[j]
  }

  lemma {:induction false} StrangersDistinct(uids: seq<Uid>, claimed: set<Uid>, held: set<string>,
      idents: map<Uid, Ident>)
    requires NoRepeats(uids)
    ensures Distinct(StrangersIn(uids, claimed, held, idents))
  {
    if uids != [] {
      var n := |uids| - 1;
      StrangersDistinct(uids[..n], claimed, held, idents);
      StrangersAre(uids[..n], claimed, held, idents);
      var before := StrangersIn(uids[..n], claimed, held, idents);
      forall i | 0 <= i < |before|
        ensures before[i].dstUid != uids[n]
      {
        assert before[i] in before;
        var k :| 0 <= k < n && uids[k] == before[i].dstUid;
      }
    }
  }

  lemma DistinctTogether(vs: seq<Victim>, ws: seq<Victim>)
    requires Distinct(vs) && Distinct(ws) && DstUids(vs) !! DstUids(ws)
    ensures Distinct(vs + ws)
  {
    forall i, j | 0 <= i < j < |vs + ws|
      ensures (vs + ws)[i].dstUid != (vs + ws)[j].dstUid
    {
      if i < |vs| <= j {
        assert vs[i].dstUid in DstUids(vs) && ws[j - |vs|].dstUid in DstUids(ws);
      }
    }
  }

  lemma DstUidsTogether(vs: seq<Victim>, ws: seq<Victim>)
    ensures DstUids(vs + ws) == DstUids(vs) + DstUids(ws)
  {
    forall d | d in DstUids(vs) + DstUids(ws)
      ensures d in DstUids(vs + ws)
    {
      if d in DstUids(vs) {
        var i :| 0 <= i < |vs| && vs[i].dstUid == d;
        assert (vs + ws)[i].dstUid == d;
      } else {
        var i :| 0 <= i < |ws| && ws[i].dstUid == d;
        assert (vs + ws)[|vs| + i].dstUid == d;
      }
    }
    forall d | d in DstUids(vs + ws)
      ensures d in DstUids(vs) + DstUids(ws)
    {
      var i :| 0 <= i < |vs + ws| && (vs + ws)[i].dstUid == d;
      if i < |vs| {
        assert vs[i].dstUid == d;
      } else {
        assert ws[i - |vs|].dstUid == d;
      }
    }
  }

  lemma OrphanUids(mirrors: map<Uid, Uid>, live: set<Uid>, orphans: seq<Victim>)
    requires forall v :: v in orphans <==> Orphan(mirrors, live, v)
    ensures forall d :: d in DstUids(orphans) - Spared(mirrors, live) <==> OnlyOrphansName(mirrors, live, d)
  {
    forall d | OnlyOrphansName(mirrors, live, d)
      ensures d in DstUids(orphans) - Spared(mirrors, live)
    {
      var u :| u in mirrors && mirrors[u] == d;
      assert Orphan(mirrors, live, Victim(d, u));
      assert Victim(d, u) in orphans;
    }
    forall d | d in DstUids(orphans) - Spared(mirrors, live)
      ensures OnlyOrphansName(mirrors, live, d)
    {
      var i :| 0 <= i < |orphans| && orphans[i].dstUid == d;
      assert orphans[i] in orphans;
    }
  }

  lemma StrangerUids(uids: seq<Uid>, claimed: set<Uid>, held: set<string>, idents: map<Uid, Ident>)
    ensures forall d :: d in DstUids(StrangersIn(uids, claimed, held, idents)) <==>
      d in uids && Stranger(claimed, held, idents, d)
  {
    var vs := StrangersIn(uids, claimed, held, idents);
    StrangersAre(uids, claimed, held, idents);
    forall d | d in uids && Stranger(claimed, held, idents, d)
      ensures d in DstUids(vs)
    {
      assert Victim(d, 0) in vs;
    }
    forall d | d in DstUids(vs)
      ensures d in uids && Stranger(claimed, held, idents, d)
    {
      var i :| 0 <= i < |vs| && vs[i].dstUid == d;
      assert vs[i] in vs;
    }
  }

  lemma VisibleUids(vs: seq<Victim>, search: Option<set<Uid>>)
    ensures forall d :: d in DstUids(Visible(vs, search)) <==> d in DstUids(vs) && (search.Some? ==> d in search.value)
  {
    var ws := Visible(vs, search);
    VisibleAre(vs, search);
    forall d | d in DstUids(vs) && (search.Some? ==> d in search.value)
      ensures d in DstUids(ws)
    {
      var i :| 0 <= i < |vs| && vs[i].dstUid == d;
      assert vs[i] in vs && vs[i] in ws;
    }
    forall d | d in DstUids(ws)
      ensures d in DstUids(vs) && (search.Some? ==> d in search.value)
    {
      var i :| 0 <= i < |ws| && ws[i].dstUid == d;
      assert ws[i] in ws && ws[i] in vs;
    }
  }

  /** The two populations together: no message twice, and each for its own reason. */
  lemma BothPopulations(rows: Rows, dstValidity: nat, claimed: set<Uid>, live: set<Uid>, dest: Destination,
      orphans: seq<Victim>)
    requires Mirrored(rows, dstValidity).Values <= claimed && NoRepeats(dest.uids)
    requires forall v :: v in orphans <==> Orphan(Mirrored(rows, dstValidity), live, v)
    ensures var mirrors := Mirrored(rows, dstValidity);
            var held := SourceIdents(rows, live);
            var all := Kept(orphans, Spared(mirrors, live)) + StrangersIn(dest.uids, claimed, held, dest.idents);
            Distinct(all) &&
            (forall d :: d in DstUids(all) <==>
                         OnlyOrphansName(mirrors, live, d) ||
                           (d in dest.uids && Stranger(claimed, held, dest.idents, d))) &&
            (forall v :: v in all ==> Orphan(mirrors, live, v) || (v.srcUid == 0 && v.dstUid !in claimed))
  {
    var mirrors := Mirrored(rows, dstValidity);
    var held := SourceIdents(rows, live);
    var kept := Kept(orphans, Spared(mirrors, live));
    var strangers := StrangersIn(dest.uids, claimed, held, dest.idents);
    KeptIsOnePerMessage(orphans, Spared(mirrors, live));
    forall i, j | 0 <= i < j < |kept|
      ensures kept[i].dstUid != kept[j].dstUid
    {
      KeptIsDistinct(orphans, Spared(mirrors, live), i, j);
    }
    OrphanUids(mirrors, live, orphans);
    StrangerUids(dest.uids, claimed, held, dest.idents);
    StrangersDistinct(dest.uids, claimed, held, dest.idents);
    StrangersAre(dest.uids, claimed, held, dest.idents);
    forall d | OnlyOrphansName(mirrors, live, d)
      ensures d in claimed
    {
      var u :| u in mirrors && mirrors[u] == d;
      assert d in mirrors.Values;
    }
    DistinctTogether(kept, strangers);
    DstUidsTogether(kept, strangers);
  }

  /**
   Every nomination, and how many messages the destination holds.

   `rows` are the folder's, under the numbering the source has now; `claimed` is
   every destination message any row of the folder names under the destination's.
   */
  method Condemned(rows: Rows, dstValidity: nat, claimed: set<Uid>, live: set<Uid>, dest: Destination,
                   batch: nat, ceiling: real, force: bool)
    returns (victims: seq<Victim>, population: nat, allowed: bool)
    requires batch > 0 && Mirrored(rows, dstValidity).Values <= claimed
    requires NoRepeats(dest.uids)
    ensures population == |dest.uids|
    ensures forall d :: d in DstUids(victims) <==> Doomed(rows, dstValidity, claimed, live, dest, d)
    ensures Distinct(victims)
    ensures forall v :: v in victims ==>
      Orphan(Mirrored(rows, dstValidity), live, v) || (v.srcUid == 0 && v.dstUid !in claimed)
    ensures allowed <==> AllowedToDelete(|victims|, population, ceiling, force)
  {
    var mirrors := Mirrored(rows, dstValidity);
    ghost var orphans;
    victims, orphans := RecordedVictims(mirrors, live);
    var strangers;
    strangers, population := Strangers(dest.uids, claimed, SourceIdents(rows, live), dest.idents, batch);
    BothPopulations(rows, dstValidity, claimed, live, dest, orphans);
    ghost var all := victims + strangers;
    victims := NarrowedBySearch(victims + strangers, dest.search);
    VisibleAre(all, dest.search);
    VisibleUids(all, dest.search);
    allowed := AllowedToDelete(|victims|, population, ceiling, force);
  }

  method RecordedVictims(mirrors: map<Uid, Uid>, live: set<Uid>)
      returns (victims: seq<Victim>, ghost orphans: seq<Victim>)
    ensures forall v :: v in orphans <==> Orphan(mirrors, live, v)
    ensures victims == Kept(orphans, Spared(mirrors, live))
  {
    var nominations := Orphans(mirrors, live);
    orphans := nominations;
    var buffer := new Victim[|nominations|](i requires 0 <= i < |nominations| => nominations[i]);
    assert buffer[..|nominations|] == nominations;
    var kept := StillClaimed(buffer, |nominations|, mirrors, live);
    victims := buffer[..kept];
  }

  /** The destination search can only shorten the list. */
  method NarrowedBySearch(victims: seq<Victim>, search: Option<set<Uid>>) returns (visible: seq<Victim>)
    ensures visible == Visible(victims, search)
  {
    if search.None? || |victims| == 0 {
      return victims;
    }
    visible := [];
    for i := 0 to |victims|
      invariant visible == Visible(victims[..i], search)
    {
      assert victims[..i + 1][..i] == victims[..i];
      if victims[i].dstUid in search.value {
        visible := visible + [victims[i]];
      }
    }
    assert victims[..|victims|] == victims;
  }
}
