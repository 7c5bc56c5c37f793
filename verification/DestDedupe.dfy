/**
 Removing what a destination folder holds more than once. Bodies are compared in
 full before anything is touched, rows are pointed at the survivor before a
 message goes, and so neither a crash nor a failed deletion can leave a row
 naming a message that is not there or says something else.
 */
module DestDedupe {
  import opened Wrappers
  import StateStore
  import opened Dedup
  import opened Mailboxes
  import Deletion

  datatype Victim = Victim(uid: Uid, survivor: Uid)

  /** What the destination holds, and which of it can be read today. */
  datatype Bodies = Bodies(held: map<Uid, string>, readable: set<Uid>)

  predicate SameBody(b: Bodies, d: Uid, e: Uid) {
    d in b.held && e in b.held && d in b.readable && e in b.readable && b.held[d] == b.held[e]
  }

  /** `v.uid` repeats the survivor of its group, byte for byte. */
  ghost predicate Repeats(g: seq<Message>, claimed: set<Uid>, b: Bodies, v: Victim) {
    exists s, m :: RepeatOf(g, claimed, b, v, s, m)
  }

  ghost predicate RepeatOf(g: seq<Message>, claimed: set<Uid>, b: Bodies, v: Victim, s: Message, m: Message) {
    IsSurvivor(g, claimed, s) && m in g && s.uid == v.survivor && m.uid == v.uid && v.uid != v.survivor &&
    SameBody(b, v.uid, v.survivor)
  }

  ghost predicate Confirmed(groups: seq<seq<Message>>, claimed: set<Uid>, b: Bodies, v: Victim) {
    exists i :: 0 <= i < |groups| && Repeats(groups[i], claimed, b, v)
  }

  predicate DistinctVictims(vs: seq<Victim>) {
    forall i, j :: 0 <= i < j < |vs| ==> vs[i].uid != vs[j].uid
  }

  /* ---------- groups do not meet ---------- */

  lemma OneGroupPerMessage(groups: seq<seq<Message>>, msgs: seq<Message>, i: nat, j: nat, m: Message, m': Message)
    requires GroupsOf(groups, msgs) && DistinctUids(msgs) && i < |groups| && j < |groups|
    requires m in groups[i] && m' in groups[j] && m.uid == m'.uid
    ensures i == j && m == m'
  {
    assert Complete(groups[i], msgs) && Complete(groups[j], msgs);
    var a :| 0 <= a < |msgs| && msgs[a] == m;
    var b :| 0 <= b < |msgs| && msgs[b] == m';
    assert forall x :: x in groups[i] <==> x in groups[j];
    AscendingIsUnique(groups[i], groups[j]);
  }

  lemma SurvivorIsOne(g: seq<Message>, claimed: set<Uid>, s: Message, s': Message)
    requires IsSurvivor(g, claimed, s) && IsSurvivor(g, claimed, s')
    ensures s.uid == s'.uid
  {
  }

  lemma SurvivorIsMember(g: seq<Message>, claimed: set<Uid>, s: Message)
    requires IsSurvivor(g, claimed, s)
    ensures s in g
  {
  }

  /** Two repeats with a message in common belong to one group, and so have one survivor. */
  lemma MeetingRepeats(groups: seq<seq<Message>>, msgs: seq<Message>, claimed: set<Uid>, b: Bodies, i: nat, j: nat,
                       v: Victim, w: Victim, s: Message, m: Message, s': Message, m': Message)
    requires GroupsOf(groups, msgs) && DistinctUids(msgs) && i < |groups| && j < |groups|
    requires RepeatOf(groups[i], claimed, b, v, s, m) && RepeatOf(groups[j], claimed, b, w, s', m')
    ensures v.survivor != w.uid
    ensures v.uid == w.uid ==> v == w && i == j
  {
    hide GroupsOf, IsSurvivor, SameBody, DistinctUids;
    SurvivorIsMember(groups[i], claimed, s);
    if s.uid == m'.uid {
      OneGroupPerMessage(groups, msgs, i, j, s, m');
      SurvivorIsOne(groups[i], claimed, s, s');
    }
    if m.uid == m'.uid {
      OneGroupPerMessage(groups, msgs, i, j, m, m');
      SurvivorIsOne(groups[i], claimed, s, s');
    }
  }

  /** A survivor is never a victim, in its own group or in any other, and a victim has one survivor. */
  lemma SurvivorSurvives(groups: seq<seq<Message>>, msgs: seq<Message>, claimed: set<Uid>, b: Bodies, v: Victim,
      w: Victim)
    requires GroupsOf(groups, msgs) && DistinctUids(msgs)
    requires Confirmed(groups, claimed, b, v) && Confirmed(groups, claimed, b, w)
    ensures v.survivor != w.uid
    ensures v.uid == w.uid ==> v == w
  {
    hide GroupsOf, RepeatOf, DistinctUids;
    var i :| 0 <= i < |groups| && Repeats(groups[i], claimed, b, v);
    var j :| 0 <= j < |groups| && Repeats(groups[j], claimed, b, w);
    var s, m :| RepeatOf(groups[i], claimed, b, v, s, m);
    var s', m' :| RepeatOf(groups[j], claimed, b, w, s', m');
    MeetingRepeats(groups, msgs, claimed, b, i, j, v, w, s, m, s', m');
  }

  /** A copy some row names is removed only in favour of another that a row names. */
  lemma ClaimedYieldsToClaimed(groups: seq<seq<Message>>, claimed: set<Uid>, b: Bodies, v: Victim)
    requires Confirmed(groups, claimed, b, v) && v.uid in claimed
    ensures v.survivor in claimed
  {
    var i :| 0 <= i < |groups| && Repeats(groups[i], claimed, b, v);
    var s, m :| RepeatOf(groups[i], claimed, b, v, s, m);
  }

  /* ---------- confirming ---------- */

  function Alike(cs: seq<Message>, survivor: Uid, b: Bodies): seq<Victim> {
    if cs == [] then []
    else
      var n := |cs| - 1;
      Alike(cs[..n], survivor, b) + if SameBody(b, cs[n].uid, survivor) then [Victim(cs[n].uid, survivor)] else []
  }

  lemma {:induction false} AlikeAre(cs: seq<Message>, survivor: Uid, b: Bodies)
    ensures forall v :: v in Alike(cs, survivor, b) <==>
                        v.survivor == survivor && SameBody(b, v.uid, survivor) && exists m :: m in cs && m.uid == v.uid
    ensures Ascending(cs) ==> DistinctVictims(Alike(cs, survivor, b))
  {
    if cs != [] {
      var n := |cs| - 1;
      hide SameBody;
      AlikeAre(cs[..n], survivor, b);
      assert cs == cs[..n] + [cs[n]];
      var before := Alike(cs[..n], survivor, b);
      if Ascending(cs) {
        forall i | 0 <= i < |before|
          ensures before[i].uid != cs[n].uid
        {
          assert before[i] in before;
          var m :| m in cs[..n] && m.uid == before[i].uid;
        }
      }
    }
  }

  method ConfirmCandidates(candidates: seq<Message>, survivor: Uid, b: Bodies) returns (victims: seq<Victim>)
    requires survivor in b.readable && survivor in b.held && forall m :: m in candidates ==> m.uid in b.held
    ensures victims == Alike(candidates, survivor, b)
  {
    victims := [];
    for i := 0 to |candidates|
      invariant victims == Alike(candidates[..i], survivor, b)
    {
      assert candidates[..i + 1][..i] == candidates[..i];
      var c := candidates[i];
      assert c in candidates;
      if c.uid in b.readable && b.held[c.uid] == b.held[survivor] {
        victims := victims + [Victim(c.uid, survivor)];
      }
    }
    assert candidates[..|candidates|] == candidates;
  }

  /** A group whose survivor cannot be read is left alone whole. */
  method ConfirmGroup(g: seq<Message>, claimed: set<Uid>, b: Bodies) returns (victims: seq<Victim>)
    requires |g| >= 2 && Ascending(g) && forall m :: m in g ==> m.uid in b.held
    ensures forall v :: v in victims <==> Repeats(g, claimed, b, v)
    ensures DistinctVictims(victims)
  {
    var survivor, candidates := Partition(g, claimed);
    if survivor.uid in b.readable {
      SurvivorIsMember(g, claimed, survivor);
      victims := ConfirmCandidates(candidates, survivor.uid, b);
    } else {
      victims := [];
    }
    AlikeAre(candidates, survivor.uid, b);
    forall v
      ensures v in victims <==> Repeats(g, claimed, b, v)
    {
      GroupRepeats(g, claimed, b, survivor, candidates, v);
    }
  }

  lemma GroupRepeats(g: seq<Message>, claimed: set<Uid>, b: Bodies, survivor: Message, candidates: seq<Message>,
      v: Victim)
    requires IsSurvivor(g, claimed, survivor)
    requires forall m :: m in candidates <==> m in g && m.uid != survivor.uid
    ensures Repeats(g, claimed, b, v) <==>
            v.survivor == survivor.uid && SameBody(b, v.uid, survivor.uid) &&
              exists m :: m in candidates && m.uid == v.uid
  {
    hide IsSurvivor, SameBody;
    if Repeats(g, claimed, b, v) {
      var s, m :| RepeatOf(g, claimed, b, v, s, m);
      SurvivorIsOne(g, claimed, s, survivor);
      assert m in candidates;
    }
    if v.survivor == survivor.uid && SameBody(b, v.uid, survivor.uid) && exists m :: m in candidates && m.uid == v.uid {
      var m :| m in candidates && m.uid == v.uid;
      assert RepeatOf(g, claimed, b, v, survivor, m);
    }
  }

  lemma GroupIsHeld(groups: seq<seq<Message>>, msgs: seq<Message>, b: Bodies, i: nat)
    requires GroupsOf(groups, msgs) && i < |groups| && forall m :: m in msgs ==> m.uid in b.held
    ensures |groups[i]| >= 2 && Ascending(groups[i]) && forall m :: m in groups[i] ==> m.uid in b.held
  {
    assert Complete(groups[i], msgs) && IsGroup(groups[i], KeyOf(groups[i][0]));
  }

  /** Fetches the candidates and keeps only those that match the survivor of their group byte for byte. */
  method ConfirmDuplicates(groups: seq<seq<Message>>, ghost msgs: seq<Message>, claimed: set<Uid>, b: Bodies)
    returns (victims: seq<Victim>)
    requires GroupsOf(groups, msgs) && DistinctUids(msgs) && forall m :: m in msgs ==> m.uid in b.held
    ensures forall v :: v in victims <==> Confirmed(groups, claimed, b, v)
    ensures DistinctVictims(victims)
  {
    hide GroupsOf, Repeats;
    victims := [];
    for i := 0 to |groups|
      invariant forall v :: v in victims <==> exists k :: 0 <= k < i && Repeats(groups[k], claimed, b, v)
      invariant DistinctVictims(victims)
    {
      GroupIsHeld(groups, msgs, b, i);
      var more := ConfirmGroup(groups[i], claimed, b);
      forall j, k | 0 <= j < |victims| && 0 <= k < |more|
        ensures victims[j].uid != more[k].uid
      {
        assert victims[j] in victims && more[k] in more;
        OtherGroup(groups, msgs, claimed, b, i, victims[j], more[k]);
      }
      assert forall v :: v in victims + more <==> v in victims || v in more;
      victims := victims + more;
    }
  }

  /** A victim of an earlier group is no victim of this one. */
  lemma OtherGroup(groups: seq<seq<Message>>, msgs: seq<Message>, claimed: set<Uid>, b: Bodies, i: nat, v: Victim,
      w: Victim)
    requires GroupsOf(groups, msgs) && DistinctUids(msgs) && i < |groups| && Repeats(groups[i], claimed, b, w)
    requires exists k :: 0 <= k < i && Repeats(groups[k], claimed, b, v)
    ensures v.uid != w.uid
  {
    hide GroupsOf, RepeatOf, DistinctUids;
    var k :| 0 <= k < i && Repeats(groups[k], claimed, b, v);
    var s, m :| RepeatOf(groups[k], claimed, b, v, s, m);
    var s', m' :| RepeatOf(groups[i], claimed, b, w, s', m');
    MeetingRepeats(groups, msgs, claimed, b, k, i, v, w, s, m, s', m');
  }

  /* ---------- the pass ---------- */

  /** A state that a kill could leave behind. */
  datatype State = State(rows: StateStore.Rows, held: map<Uid, string>)

  /** No body is lost, and every row that named a message still names one with the same body. */
  ghost predicate Intact(before: State, now: State, dv: nat) {
    (forall d :: d in now.held ==> d in before.held && now.held[d] == before.held[d]) &&
    (forall d :: d in before.held ==> exists e :: e in now.held && now.held[e] == before.held[d]) &&
    StillNames(before, now, dv)
  }

  ghost predicate StillNames(before: State, now: State, dv: nat) {
    var m, m' := StateStore.Mirrored(before.rows, dv), StateStore.Mirrored(now.rows, dv);
    m'.Keys == m.Keys &&
    forall u :: u in m && m[u] in before.held ==> m'[u] in now.held && now.held[m'[u]] == before.held[m[u]]
  }

  /** Some rows of the victims point at their survivors already, and all other rows are as they were. */
  ghost predicate Repointing(m: map<Uid, Uid>, m': map<Uid, Uid>, victims: seq<Victim>) {
    m'.Keys == m.Keys &&
    forall u :: u in m ==> m'[u] == m[u] || Victim(m[u], m'[u]) in victims
  }

  /** All of them do. */
  ghost predicate AllRepointed(m: map<Uid, Uid>, m': map<Uid, Uid>, victims: seq<Victim>) {
    forall u, v :: u in m && v in victims && v.uid == m[u] ==> u in m' && m'[u] == v.survivor
  }

  /** What the comparison established of the victims together. */
  ghost predicate Sound(victims: seq<Victim>, held: map<Uid, string>) {
    (forall v :: v in victims ==> v.uid in held && v.survivor in held && held[v.uid] == held[v.survivor]) &&
    (forall v, w :: v in victims && w in victims ==> v.survivor != w.uid)
  }

  lemma RepointingIsIntact(before: State, rows: StateStore.Rows, dv: nat, victims: seq<Victim>)
    requires Repointing(StateStore.Mirrored(before.rows, dv), StateStore.Mirrored(rows, dv), victims) &&
      Sound(victims, before.held)
    ensures Intact(before, State(rows, before.held), dv)
  {
    assert forall d :: d in before.held ==> before.held[d] == before.held[d];
  }

  function Uids(victims: seq<Victim>): (s: set<Uid>)
    ensures forall d :: d in s <==> exists v :: v in victims && v.uid == d
  {
    set v | v in victims :: v.uid
  }

  lemma RemovalKeepsBodies(victims: seq<Victim>, held: map<Uid, string>, gone: set<Uid>)
    requires Sound(victims, held) && gone <= Uids(victims)
    ensures forall d :: d in held ==> exists e :: e in held - gone && (held - gone)[e] == held[d]
  {
    forall d | d in held
      ensures exists e :: e in held - gone && (held - gone)[e] == held[d]
    {
      if d in gone {
        var v :| v in victims && v.uid == d;
        assert v.survivor !in Uids(victims);
        assert v.survivor in held - gone;
      } else {
        assert d in held - gone;
      }
    }
  }

  lemma RemovalKeepsName(m: map<Uid, Uid>, m': map<Uid, Uid>, victims: seq<Victim>, held: map<Uid, string>,
      gone: set<Uid>, u: Uid)
    requires Sound(victims, held) && gone <= Uids(victims)
    requires Repointing(m, m', victims) && AllRepointed(m, m', victims) && u in m && m[u] in held
    ensures m'[u] in held - gone && held[m'[u]] == held[m[u]]
  {
    forall v | v in victims && m'[u] == m[u]
      ensures v.uid != m[u]
    {
      assert v.survivor != v.uid;
    }
    assert m'[u] != m[u] ==> Victim(m[u], m'[u]).survivor !in Uids(victims);
  }

  /** Once the rows point at survivors, any part of the victims may go. */
  lemma RemovalIsIntact(before: State, rows: StateStore.Rows, dv: nat, victims: seq<Victim>, gone: set<Uid>)
    requires Repointing(StateStore.Mirrored(before.rows, dv), StateStore.Mirrored(rows, dv), victims) &&
      Sound(victims, before.held)
    requires AllRepointed(StateStore.Mirrored(before.rows, dv), StateStore.Mirrored(rows, dv), victims)
    requires gone <= Uids(victims)
    ensures Intact(before, State(rows, before.held - gone), dv)
  {
    hide StateStore.Mirrored, Sound, AllRepointed;
    var held := before.held - gone;
    RemovalKeepsBodies(victims, before.held, gone);
    var m, m' := StateStore.Mirrored(before.rows, dv), StateStore.Mirrored(rows, dv);
    forall u | u in m && m[u] in before.held
      ensures m'[u] in held && held[m'[u]] == before.held[m[u]]
    {
      RemovalKeepsName(m, m', victims, before.held, gone, u);
    }
  }

  lemma OneRowRepointed(rows: StateStore.Rows, u: Uid, dv: nat, survivor: Uid)
    requires u in StateStore.Mirrored(rows, dv) && survivor != 0
    ensures StateStore.Mirrored(StateStore.Completed(rows, u, dv, survivor), dv) ==
            StateStore.Mirrored(rows, dv)[u := survivor]
  {
  }

  /** `claims` lists, for each message some row names, the rows that name it. */
  ghost predicate ClaimsOf(claims: map<Uid, seq<Uid>>, mirrors: map<Uid, Uid>) {
    claims.Keys == mirrors.Values &&
    forall d, u :: d in claims ==> (u in claims[d] <==> u in mirrors && mirrors[u] == d)
  }

  method ClaimedBy(mirrors: map<Uid, Uid>) returns (claims: map<Uid, seq<Uid>>)
    ensures ClaimsOf(claims, mirrors)
  {
    claims := map[];
    var todo := mirrors.Keys;
    while todo != {}
      invariant todo <= mirrors.Keys && claims.Keys <= mirrors.Values
      invariant forall u :: u in mirrors && u !in todo ==> mirrors[u] in claims
      invariant forall d, u :: d in claims ==> (u in claims[d] <==> u in mirrors && u !in todo && mirrors[u] == d)
      decreases |todo|
    {
      var u :| u in todo;
      var d := mirrors[u];
      claims := claims[d := if d in claims then claims[d] + [u] else [u]];
      todo := todo - {u};
    }
    forall d | d in mirrors.Values
      ensures d in claims
    {
      var u :| u in mirrors && mirrors[u] == d;
    }
  }

  /** Of the rows in `srcs`, the first `i` point at the survivor; all others are as they were. */
  ghost predicate PointedSome(m: map<Uid, Uid>, m0: map<Uid, Uid>, m': map<Uid, Uid>, srcs: seq<Uid>, i: nat,
      survivor: Uid)
    requires i <= |srcs|
  {
    m0.Keys == m.Keys && m'.Keys == m.Keys &&
    forall u :: u in m ==> m'[u] == if u in srcs[..i] then survivor else m0[u]
  }

  /** The rows of `v.uid` point at its survivor; all others are as they were. */
  ghost predicate PointedAt(m: map<Uid, Uid>, m0: map<Uid, Uid>, m': map<Uid, Uid>, v: Victim) {
    m0.Keys == m.Keys && m'.Keys == m.Keys &&
    forall u :: u in m ==> m'[u] == if m[u] == v.uid then v.survivor else m0[u]
  }

  /** A trace of intact states that leads from some rows to others. */
  ghost predicate TraceTo(before: State, trace: seq<State>, rows: StateStore.Rows, rows': StateStore.Rows, dv: nat) {
    (forall s :: s in trace ==> Intact(before, s, dv)) &&
    if trace == [] then rows' == rows else trace[|trace| - 1] == State(rows', before.held)
  }

  lemma TraceStep(before: State, trace: seq<State>, rows: StateStore.Rows, rows': StateStore.Rows,
      rows'': StateStore.Rows, dv: nat)
    requires TraceTo(before, trace, rows, rows', dv) && Intact(before, State(rows'', before.held), dv)
    ensures TraceTo(before, trace + [State(rows'', before.held)], rows, rows'', dv)
  {
  }

  lemma NoTrace(before: State, rows: StateStore.Rows, dv: nat)
    ensures TraceTo(before, [], rows, rows, dv)
  {
  }

  lemma TraceOn(before: State, trace: seq<State>, more: seq<State>, rows: StateStore.Rows, rows': StateStore.Rows,
      rows'': StateStore.Rows, dv: nat)
    requires TraceTo(before, trace, rows, rows', dv) && TraceTo(before, more, rows', rows'', dv)
    ensures TraceTo(before, trace + more, rows, rows'', dv)
  {
    if more == [] {
      assert trace + more == trace;
    } else {
      assert (trace + more)[|trace + more| - 1] == more[|more| - 1];
    }
  }

  lemma PointedOneMore(m: map<Uid, Uid>, m0: map<Uid, Uid>, m1: map<Uid, Uid>, srcs: seq<Uid>, i: nat, survivor: Uid)
    requires i < |srcs| && PointedSome(m, m0, m1, srcs, i, survivor) && srcs[i] in m
    ensures PointedSome(m, m0, m1[srcs[i] := survivor], srcs, i + 1, survivor)
  {
    assert srcs[..i + 1] == srcs[..i] + [srcs[i]];
  }

  lemma PointedIsRepointing(m: map<Uid, Uid>, m0: map<Uid, Uid>, m1: map<Uid, Uid>, srcs: seq<Uid>, i: nat, v: Victim,
      victims: seq<Victim>)
    requires i <= |srcs| && PointedSome(m, m0, m1, srcs, i, v.survivor) && Repointing(m, m0, victims) && v in victims
    requires forall u :: u in srcs <==> u in m && m[u] == v.uid
    ensures Repointing(m, m1, victims)
    ensures i == |srcs| ==> PointedAt(m, m0, m1, v)
  {
    assert forall u :: u in srcs[..i] ==> u in srcs;
    assert srcs[..|srcs|] == srcs;
    assert v == Victim(v.uid, v.survivor);
  }

  lemma NothingPointed(m: map<Uid, Uid>, m0: map<Uid, Uid>, srcs: seq<Uid>, survivor: Uid, victims: seq<Victim>)
    requires Repointing(m, m0, victims)
    ensures PointedSome(m, m0, m0, srcs, 0, survivor)
  {
  }

  /**
   Points the rows of one victim at its survivor, one statement at a time.
   `trace` gathers the states this goes through.
   */
  method RepointOne(db: StateStore.DB, f: nat, sv: nat, dv: nat, srcs: seq<Uid>, v: Victim, ghost before: State,
                    ghost victims: seq<Victim>) returns (ghost trace: seq<State>)
    requires Sound(victims, before.held) && v in victims && v.survivor != 0
    requires Repointing(StateStore.Mirrored(before.rows, dv),
      StateStore.Mirrored(StateStore.RowsOf(db.messages, f, sv), dv), victims)
    requires forall u ::
      u in srcs <==> (u in StateStore.Mirrored(before.rows, dv) && StateStore.Mirrored(before.rows, dv)[u] == v.uid)
    modifies db`messages
    ensures TraceTo(before, trace, StateStore.RowsOf(old(db.messages), f, sv),
      StateStore.RowsOf(db.messages, f, sv), dv)
    ensures StateStore.SameElsewhere(old(db.messages), db.messages, f, sv)
    ensures Repointing(StateStore.Mirrored(before.rows, dv),
      StateStore.Mirrored(StateStore.RowsOf(db.messages, f, sv), dv), victims)
    ensures PointedAt(StateStore.Mirrored(before.rows, dv),
      StateStore.Mirrored(StateStore.RowsOf(old(db.messages), f, sv), dv),
                      StateStore.Mirrored(StateStore.RowsOf(db.messages, f, sv), dv), v)
  {
    ghost var m := StateStore.Mirrored(before.rows, dv);
    ghost var m0 := StateStore.Mirrored(StateStore.RowsOf(db.messages, f, sv), dv);
    hide *;
    trace := [];
    Elsewhere(db.messages, db.messages, db.messages, f, sv);
    NoTrace(before, StateStore.RowsOf(db.messages, f, sv), dv);
    NothingPointed(m, m0, srcs, v.survivor, victims);
    PointedIsRepointing(m, m0, m0, srcs, 0, v, victims);
    for i := 0 to |srcs|
      invariant StateStore.SameElsewhere(old(db.messages), db.messages, f, sv)
      invariant PointedSome(m, m0, StateStore.Mirrored(StateStore.RowsOf(db.messages, f, sv), dv), srcs, i, v.survivor)
      invariant TraceTo(before, trace, StateStore.RowsOf(old(db.messages), f, sv),
        StateStore.RowsOf(db.messages, f, sv), dv)
    {
      ghost var was := db.messages;
      ghost var rows := StateStore.RowsOf(was, f, sv);
      assert srcs[i] in srcs;
      PointedIsRepointing(m, m0, StateStore.Mirrored(rows, dv), srcs, i, v, victims);
      PointedIsMirrored(m, StateStore.Mirrored(rows, dv), victims, srcs[i]);
      MirroredIsRecorded(rows, dv, srcs[i]);
      OneRowRepointed(rows, srcs[i], dv, v.survivor);
      PointedOneMore(m, m0, StateStore.Mirrored(rows, dv), srcs, i, v.survivor);
      var r := db.CompleteAppend(f, sv, srcs[i], dv, v.survivor);
      Elsewhere(old(db.messages), was, db.messages, f, sv);
      PointedIsRepointing(m, m0, StateStore.Mirrored(StateStore.RowsOf(db.messages, f, sv), dv), srcs, i + 1, v,
        victims);
      RepointingIsIntact(before, StateStore.RowsOf(db.messages, f, sv), dv, victims);
      TraceStep(before, trace, StateStore.RowsOf(old(db.messages), f, sv), rows,
        StateStore.RowsOf(db.messages, f, sv), dv);
      trace := trace + [State(StateStore.RowsOf(db.messages, f, sv), before.held)];
    }
    PointedIsRepointing(m, m0, StateStore.Mirrored(StateStore.RowsOf(db.messages, f, sv), dv), srcs, |srcs|, v,
      victims);
  }

  lemma PointedIsMirrored(m: map<Uid, Uid>, m1: map<Uid, Uid>, victims: seq<Victim>, u: Uid)
    requires Repointing(m, m1, victims) && u in m
    ensures u in m1
  {
  }

  lemma MirroredIsRecorded(rows: StateStore.Rows, dv: nat, u: Uid)
    requires u in StateStore.Mirrored(rows, dv)
    ensures u in rows
  {
  }

  /** Points every row of every victim at its survivor. */
  method RepointAll(db: StateStore.DB, f: nat, sv: nat, dv: nat, claims: map<Uid, seq<Uid>>, victims: seq<Victim>,
      ghost before: State)
    returns (ghost trace: seq<State>)
    requires Sound(victims, before.held) && DistinctVictims(victims) && forall v :: v in victims ==> v.survivor != 0
    requires before.rows == StateStore.RowsOf(db.messages, f, sv)
    requires ClaimsOf(claims, StateStore.Mirrored(before.rows, dv))
    modifies db`messages
    ensures TraceTo(before, trace, before.rows, StateStore.RowsOf(db.messages, f, sv), dv)
    ensures StateStore.SameElsewhere(old(db.messages), db.messages, f, sv)
    ensures var m := StateStore.Mirrored(before.rows, dv);
            var m' := StateStore.Mirrored(StateStore.RowsOf(db.messages, f, sv), dv);
            Repointing(m, m', victims) && AllRepointed(m, m', victims)
  {
    hide *;
    ghost var m := StateStore.Mirrored(before.rows, dv);
    trace := [];
    Elsewhere(db.messages, db.messages, db.messages, f, sv);
    NothingRepointed(m, victims);
    NoTrace(before, before.rows, dv);
    for i := 0 to |victims|
      invariant StateStore.SameElsewhere(old(db.messages), db.messages, f, sv)
      invariant TraceTo(before, trace, before.rows, StateStore.RowsOf(db.messages, f, sv), dv)
      invariant Repointing(m, StateStore.Mirrored(StateStore.RowsOf(db.messages, f, sv), dv), victims)
      invariant AllRepointed(m, StateStore.Mirrored(StateStore.RowsOf(db.messages, f, sv), dv), victims[..i])
    {
      var v := victims[i];
      assert v in victims;
      var srcs := if v.uid in claims then claims[v.uid] else [];
      NoClaims(m, claims, v.uid, srcs);
      ghost var was := db.messages;
      ghost var m0 := StateStore.Mirrored(StateStore.RowsOf(db.messages, f, sv), dv);
      ghost var more := RepointOne(db, f, sv, dv, srcs, v, before, victims);
      Elsewhere(old(db.messages), was, db.messages, f, sv);
      OneMoreRepointed(m, m0, StateStore.Mirrored(StateStore.RowsOf(db.messages, f, sv), dv), victims, i);
      TraceOn(before, trace, more, before.rows, StateStore.RowsOf(was, f, sv),
        StateStore.RowsOf(db.messages, f, sv), dv);
      trace := trace + more;
    }
    assert victims[..|victims|] == victims;
  }

  lemma Elsewhere(a: StateStore.Messages, b: StateStore.Messages, c: StateStore.Messages, f: nat, sv: nat)
    ensures StateStore.SameElsewhere(a, a, f, sv)
    ensures StateStore.SameElsewhere(a, b, f, sv) && StateStore.SameElsewhere(b, c, f, sv) ==>
      StateStore.SameElsewhere(a, c, f, sv)
  {
  }

  lemma NothingRepointed(m: map<Uid, Uid>, victims: seq<Victim>)
    ensures Repointing(m, m, victims) && AllRepointed(m, m, victims[..0])
  {
  }

  lemma NoClaims(m: map<Uid, Uid>, claims: map<Uid, seq<Uid>>, d: Uid, srcs: seq<Uid>)
    requires ClaimsOf(claims, m) && srcs == if d in claims then claims[d] else []
    ensures forall u :: u in srcs <==> u in m && m[u] == d
  {
    forall u | u in m
      ensures m[u] in m.Values
    {
    }
  }

  lemma OneMoreRepointed(m: map<Uid, Uid>, m0: map<Uid, Uid>, m': map<Uid, Uid>, victims: seq<Victim>, i: nat)
    requires i < |victims| && DistinctVictims(victims) && PointedAt(m, m0, m', victims[i])
    requires AllRepointed(m, m0, victims[..i])
    ensures AllRepointed(m, m', victims[..i + 1])
  {
    forall u, v | u in m && v in victims[..i + 1] && v.uid == m[u]
      ensures m'[u] == v.survivor
    {
      if v != victims[i] {
        assert v in victims[..i];
        var j :| 0 <= j < i && victims[j] == v;
      }
    }
  }

  lemma ConfirmedIsSound(groups: seq<seq<Message>>, msgs: seq<Message>, claimed: set<Uid>, b: Bodies,
      victims: seq<Victim>)
    requires GroupsOf(groups, msgs) && DistinctUids(msgs)
    requires forall v :: v in victims <==> Confirmed(groups, claimed, b, v)
    ensures Sound(victims, b.held)
  {
    hide GroupsOf, DistinctUids;
    forall v | v in victims
      ensures v.uid in b.held && v.survivor in b.held && b.held[v.uid] == b.held[v.survivor]
    {
      var i :| 0 <= i < |groups| && Repeats(groups[i], claimed, b, v);
      var s, m :| RepeatOf(groups[i], claimed, b, v, s, m);
    }
    forall v, w | v in victims && w in victims
      ensures v.survivor != w.uid
    {
      hide Confirmed;
      SurvivorSurvives(groups, msgs, claimed, b, v, w);
    }
  }

  datatype Result = Result(population: nat, removed: nat, refused: nat)

  /** The candidates of a folder, and of them those confirmed. */
  method FindDuplicates(msgs: seq<Message>, mirrors: map<Uid, Uid>, b: Bodies)
    returns (victims: seq<Victim>, claims: map<Uid, seq<Uid>>, ghost groups: seq<seq<Message>>)
    requires DistinctUids(msgs) && forall m :: m in msgs ==> m.uid in b.held
    ensures GroupsOf(groups, msgs) && forall v :: v in victims <==> Confirmed(groups, mirrors.Values, b, v)
    ensures DistinctVictims(victims) && Sound(victims, b.held)
    ensures ClaimsOf(claims, mirrors)
  {
    hide Sound, Confirmed, GroupsOf;
    var found := Candidates(msgs);
    groups := found;
    claims := ClaimedBy(mirrors);
    victims := ConfirmDuplicates(found, msgs, claims.Keys, b);
    ConfirmedIsSound(groups, msgs, mirrors.Values, b, victims);
  }

  /** What is left is what was there and is no confirmed repeat. */
  ghost predicate OnlyRepeatsGone(groups: seq<seq<Message>>, claimed: set<Uid>, b: Bodies, held: map<Uid, string>) {
    (forall d :: d in held <==> d in b.held && forall v :: Confirmed(groups, claimed, b, v) ==> v.uid != d) &&
    (forall d :: d in held && d in b.held ==> held[d] == b.held[d])
  }

  lemma RepeatsGone(groups: seq<seq<Message>>, claimed: set<Uid>, b: Bodies, victims: seq<Victim>)
    requires forall v :: v in victims <==> Confirmed(groups, claimed, b, v)
    ensures OnlyRepeatsGone(groups, claimed, b, b.held - Uids(victims))
    ensures victims == [] ==> OnlyRepeatsGone(groups, claimed, b, b.held)
  {
    hide Confirmed;
    var held := b.held - Uids(victims);
    forall d | d in b.held
      ensures d in held <==> forall v :: Confirmed(groups, claimed, b, v) ==> v.uid != d
    {
      if d in Uids(victims) {
        var v :| v in victims && v.uid == d;
        assert Confirmed(groups, claimed, b, v);
      }
    }
    assert victims == [] ==> Uids(victims) == {};
    assert b.held - {} == b.held;
  }

  /* ---------- which messages go, without the groups ---------- */

  /** `x` is `m` itself or may be a copy of it. */
  predicate OfOneKind(m: Message, x: Message) { x == m || MayBeCopies(m, x) }

  /** `s` is the one to keep of all that may be copies of `m`: the lowest that a row names, or else the lowest. */
  ghost predicate KeptFor(msgs: seq<Message>, claimed: set<Uid>, m: Message, s: Message) {
    s in msgs && OfOneKind(m, s) &&
    forall x :: x in msgs && OfOneKind(m, x) ==>
      (x.uid in claimed ==> s.uid in claimed && s.uid <= x.uid) && (s.uid !in claimed ==> s.uid <= x.uid)
  }

  /** `m` may be a copy of `s`, which is to be kept; both can be read, and they are the same to the byte. */
  ghost predicate GoesFor(msgs: seq<Message>, claimed: set<Uid>, b: Bodies, m: Message, s: Message) {
    m in msgs && KeptFor(msgs, claimed, m, s) && s.uid != m.uid &&
    m.uid in b.held && s.uid in b.held && m.uid in b.readable && s.uid in b.readable &&
    b.held[m.uid] == b.held[s.uid]
  }

  ghost predicate Goes(msgs: seq<Message>, claimed: set<Uid>, b: Bodies, d: Uid) {
    exists m: Message, s :: m.uid == d && GoesFor(msgs, claimed, b, m, s)
  }

  lemma SurvivorIsKept(g: seq<Message>, msgs: seq<Message>, claimed: set<Uid>, m: Message, s: Message)
    requires Complete(g, msgs) && m in g && s in msgs
    ensures IsSurvivor(g, claimed, s) <==> KeptFor(msgs, claimed, m, s)
  {
    assert forall x :: x in msgs ==> (x in g <==> OfOneKind(m, x));
    assert s in g ==> s in msgs;
    hide OfOneKind, Complete;
    assert forall x :: x in g ==> x in msgs && OfOneKind(m, x) by {
      GroupIsOfOneKind(g, msgs, m);
    }
  }

  lemma GroupIsOfOneKind(g: seq<Message>, msgs: seq<Message>, m: Message)
    requires Complete(g, msgs) && m in g
    ensures forall x :: x in g ==> x in msgs && OfOneKind(m, x)
  {
  }

  lemma RepeatGoes(g: seq<Message>, msgs: seq<Message>, claimed: set<Uid>, b: Bodies, v: Victim)
    requires Complete(g, msgs) && Repeats(g, claimed, b, v)
    ensures Goes(msgs, claimed, b, v.uid)
  {
    var s, m :| RepeatOf(g, claimed, b, v, s, m);
    GroupIsOfOneKind(g, msgs, m);
    hide Complete, IsSurvivor, KeptFor;
    SurvivorIsMember(g, claimed, s);
    SurvivorIsKept(g, msgs, claimed, m, s);
    assert GoesFor(msgs, claimed, b, m, s);
  }

  lemma GoesAsRepeat(g: seq<Message>, msgs: seq<Message>, claimed: set<Uid>, b: Bodies, m: Message, s: Message)
    requires Complete(g, msgs) && m in g && GoesFor(msgs, claimed, b, m, s)
    ensures Repeats(g, claimed, b, Victim(m.uid, s.uid))
  {
    assert s in msgs;
    hide Complete, IsSurvivor, KeptFor;
    SurvivorIsKept(g, msgs, claimed, m, s);
    assert RepeatOf(g, claimed, b, Victim(m.uid, s.uid), s, m);
  }

  lemma KeptIsOfItsKind(msgs: seq<Message>, claimed: set<Uid>, b: Bodies, m: Message, s: Message)
    requires GoesFor(msgs, claimed, b, m, s)
    ensures m in msgs && s in msgs && m.uid != s.uid && MayBeCopies(m, s)
  {
  }

  lemma GroupIsComplete(groups: seq<seq<Message>>, msgs: seq<Message>, i: nat)
    requires GroupsOf(groups, msgs) && i < |groups|
    ensures Complete(groups[i], msgs)
  {
  }

  /** The confirmed repeats are exactly the messages that go. */
  lemma ConfirmedIff(groups: seq<seq<Message>>, msgs: seq<Message>, claimed: set<Uid>, b: Bodies, d: Uid)
    requires GroupsOf(groups, msgs) && DistinctUids(msgs)
    ensures (exists v :: Confirmed(groups, claimed, b, v) && v.uid == d) <==> Goes(msgs, claimed, b, d)
  {
    hide GroupsOf, DistinctUids, Repeats, GoesFor, MayBeCopies;
    if v :| Confirmed(groups, claimed, b, v) && v.uid == d {
      var i :| 0 <= i < |groups| && Repeats(groups[i], claimed, b, v);
      GroupIsComplete(groups, msgs, i);
      RepeatGoes(groups[i], msgs, claimed, b, v);
    }
    if Goes(msgs, claimed, b, d) {
      var m: Message, s :| m.uid == d && GoesFor(msgs, claimed, b, m, s);
      KeptIsOfItsKind(msgs, claimed, b, m, s);
      TogetherIff(groups, msgs, m, s);
      var i :| 0 <= i < |groups| && m in groups[i] && s in groups[i];
      GroupIsComplete(groups, msgs, i);
      GoesAsRepeat(groups[i], msgs, claimed, b, m, s);
      assert Confirmed(groups, claimed, b, Victim(d, s.uid));
    }
  }

  /** All that go. */
  ghost function Going(msgs: seq<Message>, claimed: set<Uid>, b: Bodies): set<Uid> {
    set d | d in b.held && Goes(msgs, claimed, b, d)
  }

  lemma VictimsGo(groups: seq<seq<Message>>, msgs: seq<Message>, claimed: set<Uid>, b: Bodies, victims: seq<Victim>)
    requires GroupsOf(groups, msgs) && DistinctUids(msgs) && DistinctVictims(victims)
    requires forall v :: v in victims <==> Confirmed(groups, claimed, b, v)
    ensures Uids(victims) == Going(msgs, claimed, b) && |victims| == |Going(msgs, claimed, b)|
  {
    CountUids(victims);
    hide GroupsOf, DistinctUids, DistinctVictims, Confirmed, Goes;
    forall d
      ensures d in Uids(victims) <==> Goes(msgs, claimed, b, d)
    {
      ConfirmedIff(groups, msgs, claimed, b, d);
    }
    GoingIsHeld(msgs, claimed, b);
    assert Uids(victims) == Going(msgs, claimed, b);
  }

  lemma GoingIsHeld(msgs: seq<Message>, claimed: set<Uid>, b: Bodies)
    ensures forall d :: d in Going(msgs, claimed, b) <==> Goes(msgs, claimed, b, d)
  {
  }

  /** Every state of the trace is intact, and the last of them is `now`. */
  ghost predicate IntactThroughout(before: State, trace: seq<State>, now: State, dv: nat) {
    (forall s :: s in trace ==> Intact(before, s, dv)) && trace != [] && trace[|trace| - 1] == now
  }

  /** The two writes: every row is pointed at a survivor before any message goes. */
  method RemoveDuplicates(db: StateStore.DB, box: Mailbox<string>, f: nat, sv: nat, dv: nat, claims: map<Uid, seq<Uid>>,
                          victims: seq<Victim>, stopped: Option<set<Uid>>) returns (ok: bool, ghost trace: seq<State>)
    requires Sound(victims, box.held) && DistinctVictims(victims) && 0 !in box.held
    requires ClaimsOf(claims, StateStore.Mirrored(StateStore.RowsOf(db.messages, f, sv), dv))
    modifies db`messages, box
    ensures IntactThroughout(State(StateStore.RowsOf(old(db.messages), f, sv), old(box.held)), trace,
                             State(StateStore.RowsOf(db.messages, f, sv), box.held), dv)
    ensures StateStore.SameElsewhere(old(db.messages), db.messages, f, sv)
    ensures ok <==> stopped.None?
    ensures ok ==> box.held == old(box.held) - Uids(victims)
  {
    hide Intact, Sound, StateStore.RowsOf, StateStore.Mirrored, StateStore.SameElsewhere, AllRepointed, Repointing;
    ghost var before := State(StateStore.RowsOf(db.messages, f, sv), box.held);
    SurvivorsAreNumbered(victims, box.held);
    ghost var pointed := RepointAll(db, f, sv, dv, claims, victims, before);
    ok := box.DeleteMessages(Uids(victims), stopped);
    ghost var gone := if stopped.None? then Uids(victims) else Uids(victims) * stopped.value;
    RemovalIsIntact(before, StateStore.RowsOf(db.messages, f, sv), dv, victims, gone);
    trace := pointed + [State(StateStore.RowsOf(db.messages, f, sv), box.held)];
    assert TraceTo(before, pointed, before.rows, StateStore.RowsOf(db.messages, f, sv), dv);
  }

  /**
   One pass over a destination folder's own duplicates. `trace` is every state
   it goes through, and so every state a kill could leave: in each, no body is
   lost and every row still names a message with the body it named before. A
   pass that completes has removed exactly the confirmed repeats. `uids` is the
   listing, which the ceiling is measured against, and `msgs` those of it whose
   headers came back.
   */
  method DedupeDest(db: StateStore.DB, box: Mailbox<string>, f: nat, sv: nat, dv: nat, uids: seq<Uid>,
      msgs: seq<Message>, readable: set<Uid>, ceiling: real, force: bool, dryRun: bool, stopped: Option<set<Uid>>)
    returns (r: Result, ok: bool, ghost trace: seq<State>, ghost groups: seq<seq<Message>>)
    requires DistinctUids(msgs) && (forall m :: m in msgs ==> m.uid in box.held) && 0 !in box.held
    modifies db`messages, box
    ensures IntactThroughout(State(StateStore.RowsOf(old(db.messages), f, sv), old(box.held)), trace,
                             State(StateStore.RowsOf(db.messages, f, sv), box.held), dv)
    ensures StateStore.SameElsewhere(old(db.messages), db.messages, f, sv)
    ensures dryRun || r.refused > 0 ==> box.held == old(box.held) && db.messages == old(db.messages)
    ensures r.population == |uids| && (r.removed > 0 ==> Deletion.AllowedToDelete(r.removed, |uids|, ceiling, force))
    ensures r.refused > 0 ==> r.removed == 0 && !Deletion.AllowedToDelete(r.refused, |uids|, ceiling, force)
    ensures !ok ==> stopped.Some? && !dryRun && r.refused == 0
    ensures GroupsOf(groups, msgs)
    ensures ok && !dryRun && r.refused == 0 ==>
              |old(box.held)| == |box.held| + r.removed &&
              OnlyRepeatsGone(groups, StateStore.Mirrored(StateStore.RowsOf(old(db.messages), f, sv), dv).Values,
                              Bodies(old(box.held), readable), box.held)
    ensures var going := Going(msgs, StateStore.Mirrored(StateStore.RowsOf(old(db.messages), f, sv), dv).Values,
                               Bodies(old(box.held), readable));
            (r.refused > 0 <==> !Deletion.AllowedToDelete(|going|, |uids|, ceiling, force)) &&
            (r.refused > 0 ==> r.refused == |going|) && (dryRun && r.refused == 0 ==> r.removed == |going|) &&
            (ok && !dryRun && r.refused == 0 ==> r.removed == |going| && box.held == old(box.held) - going)
  {
    hide *;
    ghost var before := State(StateStore.RowsOf(db.messages, f, sv), box.held);
    r, ok, trace := Result(|uids|, 0, 0), true, [before];
    Elsewhere(db.messages, db.messages, db.messages, f, sv);
    var mirrors := StateStore.Mirrored(StateStore.RowsOf(db.messages, f, sv), dv);
    var victims, claims;
    victims, claims, groups := FindDuplicates(msgs, mirrors, Bodies(box.held, readable));
    NothingMovedIsIntact(before, dv, victims);
    RepeatsGone(groups, mirrors.Values, Bodies(box.held, readable), victims);
    VictimsGo(groups, msgs, mirrors.Values, Bodies(box.held, readable), victims);
    NothingToTake(box.held);
    NothingIsAllowed(|uids|, ceiling, force);
    if !Deletion.AllowedToDelete(|victims|, |uids|, ceiling, force) {
      r := Result(|uids|, 0, |victims|);
      return;
    }
    if |victims| == 0 || dryRun {
      r := Result(|uids|, |victims|, 0);
      return;
    }
    RemovedCount(victims, box.held);
    ok, trace := RemoveDuplicates(db, box, f, sv, dv, claims, victims, stopped);
    r := Result(|uids|, if ok then |victims| else 0, 0);
  }

  lemma NothingIsAllowed(population: nat, ceiling: real, force: bool)
    ensures Deletion.AllowedToDelete(0, population, ceiling, force)
  {
  }

  lemma NothingToTake(held: map<Uid, string>)
    ensures held - {} == held && Uids([]) == {}
  {
  }

  lemma NothingMovedIsIntact(before: State, dv: nat, victims: seq<Victim>)
    requires Sound(victims, before.held)
    ensures Intact(before, before, dv) && IntactThroughout(before, [before], before, dv)
  {
    RepointingIsIntact(before, before.rows, dv, victims);
  }

  lemma SurvivorsAreNumbered(victims: seq<Victim>, held: map<Uid, string>)
    requires Sound(victims, held) && 0 !in held
    ensures forall v :: v in victims ==> v.survivor != 0
  {
  }

  lemma UidsSnoc(us: seq<Victim>, v: Victim)
    requires DistinctVictims(us + [v])
    ensures Uids(us + [v]) == Uids(us) + {v.uid} && v.uid !in Uids(us) && DistinctVictims(us)
  {
    var vs := us + [v];
    assert forall i :: 0 <= i < |us| ==> vs[i] == us[i];
    assert vs[|us|] == v;
    forall w | w in us
      ensures w.uid != v.uid
    {
      var i :| 0 <= i < |us| && us[i] == w;
      assert vs[i] == w;
    }
  }

  lemma {:induction false} CountUids(victims: seq<Victim>)
    requires DistinctVictims(victims)
    ensures |Uids(victims)| == |victims|
  {
    if victims != [] {
      hide Uids, DistinctVictims;
      var us, v := victims[..|victims| - 1], victims[|victims| - 1];
      assert victims == us + [v];
      UidsSnoc(us, v);
      CountUids(us);
    } else {
      assert Uids([]) == {};
    }
  }

  lemma RemovedCount(victims: seq<Victim>, held: map<Uid, string>)
    requires DistinctVictims(victims) && Sound(victims, held)
    ensures |held| == |held - Uids(victims)| + |victims|
  {
    CountUids(victims);
    assert (held - Uids(victims)).Keys == held.Keys - Uids(victims);
    assert |(held - Uids(victims)).Keys| == |held.Keys| - |Uids(victims)|;
    assert |held| == |held.Keys|;
  }
}
