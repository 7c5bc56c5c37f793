/**
 Grouping the messages of one mailbox that may be copies of one another, and
 choosing in each group the one to keep. Candidates, never conclusions: nothing
 here sees a body.
 */
module Dedup {
  import opened Identity
  import StateStore

  type Uid = StateStore.Uid

  datatype Message = Message(uid: Uid, id: Ident, size: int)

  datatype Key = Key(digest: string, size: int)

  function KeyOf(m: Message): Key { Key(m.id.digest, m.size) }

  /** Identifiable enough to be grouped at all. */
  predicate Groupable(m: Message) { !m.id.weak && m.id.digest != "" && m.size > 0 }

  /** In ascending UID order, none twice. */
  predicate Ascending(ms: seq<Message>) {
    forall i, j :: 0 <= i < j < |ms| ==> ms[i].uid < ms[j].uid
  }

  predicate DistinctUids(ms: seq<Message>) {
    forall i, j :: 0 <= i < j < |ms| ==> ms[i].uid != ms[j].uid
  }

  /** Two or more messages of one key, in ascending UID order. */
  predicate IsGroup(g: seq<Message>, k: Key) {
    |g| >= 2 && Ascending(g) && forall i :: 0 <= i < |g| ==> Groupable(g[i]) && KeyOf(g[i]) == k
  }

  /** Everything with this key is in the group. */
  ghost predicate Complete(g: seq<Message>, msgs: seq<Message>) {
    g != [] && forall m :: m in g <==> m in msgs && Groupable(m) && KeyOf(m) == KeyOf(g[0])
  }

  /* ---------- sorting ---------- */

  /** A sequence with one element put in at a place. */
  function Placed<T>(s: seq<T>, i: nat, x: T): (r: seq<T>)
    requires i <= |s|
    ensures |r| == |s| + 1 && r[i] == x
    ensures forall k :: 0 <= k < i ==> r[k] == s[k]
    ensures forall k :: i < k < |r| ==> r[k] == s[k - 1]
  {
    s[..i] + [x] + s[i..]
  }

  lemma PlacedMembers<T>(s: seq<T>, i: nat, x: T)
    requires i <= |s|
    ensures forall y :: y in Placed(s, i, x) <==> y in s || y == x
  {
    assert s == s[..i] + s[i..];
  }

  method Insert(sorted: seq<Message>, m: Message) returns (r: seq<Message>)
    requires Ascending(sorted) && forall i :: 0 <= i < |sorted| ==> sorted[i].uid != m.uid
    ensures Ascending(r) && |r| == |sorted| + 1
    ensures forall x :: x in r <==> x in sorted || x == m
  {
    var i := 0;
    while i < |sorted| && sorted[i].uid < m.uid
      invariant i <= |sorted| && forall k :: 0 <= k < i ==> sorted[k].uid < m.uid
    {
      i := i + 1;
    }
    hide Placed;
    r := Placed(sorted, i, m);
    PlacedMembers(sorted, i, m);
  }

  method SortByUid(ms: seq<Message>) returns (r: seq<Message>)
    requires DistinctUids(ms)
    ensures Ascending(r) && |r| == |ms| && forall x :: x in r <==> x in ms
  {
    r := [];
    for i := 0 to |ms|
      invariant Ascending(r) && |r| == i && forall x :: x in r <==> x in ms[..i]
    {
      forall k | 0 <= k < |r|
        ensures r[k].uid != ms[i].uid
      {
        assert r[k] in ms[..i];
      }
      r := Insert(r, ms[i]);
      assert ms[..i + 1] == ms[..i] + [ms[i]];
    }
    assert ms[..|ms|] == ms;
  }

  ghost predicate Strict<T(!new)>(s: seq<T>, key: T -> int) {
    forall i, j :: 0 <= i < j < |s| ==> key(s[i]) < key(s[j])
  }

  lemma FirstIsLeast<T(!new)>(s: seq<T>, key: T -> int, x: T)
    requires Strict(s, key) && x in s
    ensures key(s[0]) <= key(x) && (key(x) == key(s[0]) ==> x == s[0])
  {
    var i :| 0 <= i < |s| && s[i] == x;
  }

  lemma InTail<T(!new)>(s: seq<T>, key: T -> int, x: T)
    requires Strict(s, key) && s != []
    ensures x in s[1..] <==> x in s && x != s[0]
  {
    if x in s && x != s[0] {
      var i :| 0 <= i < |s| && s[i] == x;
      assert s[1..][i - 1] == x;
    }
    if x in s[1..] {
      var i :| 0 <= i < |s[1..]| && s[1..][i] == x;
      assert s[i + 1] == x && key(s[0]) < key(s[i + 1]);
    }
  }

  /** There is only one strictly ascending sequence of the same elements. */
  lemma {:induction false} StrictIsUnique<T(!new)>(a: seq<T>, b: seq<T>, key: T -> int)
    requires Strict(a, key) && Strict(b, key) && forall x :: x in a <==> x in b
    ensures a == b
    decreases |a|
  {
    assert b != [] ==> b[0] in b;
    if a != [] {
      assert a[0] in a && a[0] in b && b[0] in b && b[0] in a;
      FirstIsLeast(a, key, b[0]);
      FirstIsLeast(b, key, a[0]);
      forall x
        ensures x in a[1..] <==> x in b[1..]
      {
        InTail(a, key, x);
        InTail(b, key, x);
      }
      StrictIsUnique(a[1..], b[1..], key);
      assert a == [a[0]] + a[1..] && b == [b[0]] + b[1..];
    }
  }

  lemma AscendingIsUnique(a: seq<Message>, b: seq<Message>)
    requires Ascending(a) && Ascending(b) && forall m :: m in a <==> m in b
    ensures a == b
  {
    StrictIsUnique(a, b, (m: Message) => m.uid);
  }

  /* ---------- grouping ---------- */

  /** The groups wanted of these messages: each complete, every key that has two, in the order of their lowest UIDs. */
  ghost predicate GroupsOf(groups: seq<seq<Message>>, msgs: seq<Message>) {
    (forall i :: 0 <= i < |groups| ==>
       |groups[i]| >= 2 && IsGroup(groups[i], KeyOf(groups[i][0])) && Complete(groups[i], msgs)) &&
    (forall m, m' ::
       m in msgs && m' in msgs && Groupable(m) && Groupable(m') && KeyOf(m) == KeyOf(m') && m.uid != m'.uid ==>
       exists i :: 0 <= i < |groups| && m in groups[i] && m' in groups[i]) &&
    (forall i, j :: 0 <= i < j < |groups| ==> groups[i][0].uid < groups[j][0].uid)
  }

  /** These two may be copies of one another: both can be told from others, and they have one digest and one size. */
  predicate MayBeCopies(m: Message, x: Message) {
    !m.id.weak && !x.id.weak && m.id.digest != "" && m.size > 0 && x.id.digest == m.id.digest && x.size == m.size
  }

  /** Two messages of a mailbox stand in one group exactly when they may be copies. */
  lemma TogetherIff(groups: seq<seq<Message>>, msgs: seq<Message>, m: Message, x: Message)
    requires GroupsOf(groups, msgs) && m in msgs && x in msgs && m.uid != x.uid
    ensures (exists i :: 0 <= i < |groups| && m in groups[i] && x in groups[i]) <==> MayBeCopies(m, x)
  {
    if i :| 0 <= i < |groups| && m in groups[i] && x in groups[i] {
      assert Complete(groups[i], msgs);
    }
    if MayBeCopies(m, x) {
      assert Groupable(m) && Groupable(x) && KeyOf(m) == KeyOf(x);
    }
  }

  function WithKey(msgs: seq<Message>, k: Key): seq<Message> {
    if msgs == [] then []
    else
      var n := |msgs| - 1;
      WithKey(msgs[..n], k) + if Groupable(msgs[n]) && KeyOf(msgs[n]) == k then [msgs[n]] else []
  }

  lemma {:induction false} WithKeyAre(msgs: seq<Message>, k: Key)
    ensures forall m :: m in WithKey(msgs, k) <==> m in msgs && Groupable(m) && KeyOf(m) == k
    ensures DistinctUids(msgs) ==> DistinctUids(WithKey(msgs, k))
  {
    if msgs != [] {
      var n := |msgs| - 1;
      WithKeyAre(msgs[..n], k);
      assert msgs == msgs[..n] + [msgs[n]];
      var before := WithKey(msgs[..n], k);
      if DistinctUids(msgs) {
        forall i | 0 <= i < |before|
          ensures before[i].uid != msgs[n].uid
        {
          assert before[i] in msgs[..n];
        }
      }
    }
  }

  method ByKey(msgs: seq<Message>) returns (byKey: map<Key, seq<Message>>)
    ensures forall k :: k in byKey ==> byKey[k] == WithKey(msgs, k)
    ensures forall m :: m in msgs && Groupable(m) ==> KeyOf(m) in byKey
  {
    byKey := map[];
    for i := 0 to |msgs|
      invariant forall k :: k in byKey ==> byKey[k] == WithKey(msgs[..i], k)
      invariant forall k :: k !in byKey ==> WithKey(msgs[..i], k) == []
      invariant forall m :: m in msgs[..i] && Groupable(m) ==> KeyOf(m) in byKey
    {
      var m := msgs[i];
      assert msgs[..i + 1][..i] == msgs[..i];
      assert msgs[..i + 1] == msgs[..i] + [m];
      forall k
        ensures WithKey(msgs[..i + 1], k) == WithKey(msgs[..i], k) + if Groupable(m) && KeyOf(m) == k then [m] else []
      {
      }
      if Groupable(m) {
        var k := KeyOf(m);
        byKey := byKey[k := if k in byKey then byKey[k] + [m] else [m]];
      }
    }
    assert msgs[..|msgs|] == msgs;
  }

  /** `g` is the sorted messages of one key, and there are two or more. */
  ghost predicate GroupOfKey(g: seq<Message>, msgs: seq<Message>, k: Key) {
    |g| >= 2 && Ascending(g) && forall m :: m in g <==> m in WithKey(msgs, k)
  }

  predicate ByFirst(groups: seq<seq<Message>>) {
    (forall i :: 0 <= i < |groups| ==> groups[i] != []) &&
    forall i, j :: 0 <= i < j < |groups| ==> groups[i][0].uid < groups[j][0].uid
  }

  method InsertGroup(groups: seq<seq<Message>>, g: seq<Message>) returns (r: seq<seq<Message>>)
    requires ByFirst(groups) && g != [] && forall i :: 0 <= i < |groups| ==> groups[i][0].uid != g[0].uid
    ensures ByFirst(r) && forall x :: x in r <==> x in groups || x == g
  {
    var i := 0;
    while i < |groups| && groups[i][0].uid < g[0].uid
      invariant i <= |groups| && forall k :: 0 <= k < i ==> groups[k][0].uid < g[0].uid
    {
      i := i + 1;
    }
    hide Placed;
    r := Placed(groups, i, g);
    PlacedMembers(groups, i, g);
  }

  lemma DifferentKeysDifferentFirsts(msgs: seq<Message>, g: seq<Message>, h: seq<Message>, k: Key, l: Key)
    requires DistinctUids(msgs) && GroupOfKey(g, msgs, k) && GroupOfKey(h, msgs, l) && k != l
    ensures g[0].uid != h[0].uid
  {
    WithKeyAre(msgs, k);
    WithKeyAre(msgs, l);
    assert g[0] in g && h[0] in h;
    var i :| 0 <= i < |msgs| && msgs[i] == g[0];
    var j :| 0 <= j < |msgs| && msgs[j] == h[0];
  }

  /** The groups of possible duplicates among the messages of a mailbox. */
  method Candidates(msgs: seq<Message>) returns (groups: seq<seq<Message>>)
    requires DistinctUids(msgs)
    ensures GroupsOf(groups, msgs)
    ensures forall m, x :: m in msgs && x in msgs && m.uid != x.uid ==>
              ((exists i :: 0 <= i < |groups| && m in groups[i] && x in groups[i]) <==> MayBeCopies(m, x))
  {
    var byKey := ByKey(msgs);
    groups := [];
    var todo := byKey.Keys;
    while todo != {}
      invariant todo <= byKey.Keys
      invariant ByFirst(groups)
      invariant forall g :: g in groups ==> exists k :: k in byKey && k !in todo && GroupOfKey(g, msgs, k)
      invariant forall k :: k in byKey && k !in todo && |byKey[k]| >= 2 ==>
        exists g :: g in groups && GroupOfKey(g, msgs, k)
      decreases |todo|
    {
      var k :| k in todo;
      todo := todo - {k};
      if |byKey[k]| >= 2 {
        WithKeyAre(msgs, k);
        var g := SortByUid(byKey[k]);
        assert GroupOfKey(g, msgs, k);
        forall i | 0 <= i < |groups|
          ensures groups[i][0].uid != g[0].uid
        {
          assert groups[i] in groups;
          var l :| l in byKey && l !in todo + {k} && GroupOfKey(groups[i], msgs, l);
          DifferentKeysDifferentFirsts(msgs, groups[i], g, l, k);
        }
        groups := InsertGroup(groups, g);
      }
    }
    KeyedGroupsAreGroups(groups, msgs, byKey);
    forall m, x | m in msgs && x in msgs && m.uid != x.uid
      ensures (exists i :: 0 <= i < |groups| && m in groups[i] && x in groups[i]) <==> MayBeCopies(m, x)
    {
      TogetherIff(groups, msgs, m, x);
    }
  }

  lemma GroupOfKeyIsGroup(g: seq<Message>, msgs: seq<Message>, k: Key)
    requires GroupOfKey(g, msgs, k)
    ensures IsGroup(g, k) && KeyOf(g[0]) == k && Complete(g, msgs)
  {
    WithKeyAre(msgs, k);
    assert forall i :: 0 <= i < |g| ==> g[i] in g;
  }

  lemma TwoOfAKey(msgs: seq<Message>, k: Key, m: Message, m': Message)
    requires m in WithKey(msgs, k) && m' in WithKey(msgs, k) && m != m'
    ensures |WithKey(msgs, k)| >= 2
  {
  }

  lemma KeyedGroupsAreGroups(groups: seq<seq<Message>>, msgs: seq<Message>, byKey: map<Key, seq<Message>>)
    requires ByFirst(groups)
    requires forall k :: k in byKey ==> byKey[k] == WithKey(msgs, k)
    requires forall m :: m in msgs && Groupable(m) ==> KeyOf(m) in byKey
    requires forall g :: g in groups ==> exists k :: k in byKey && GroupOfKey(g, msgs, k)
    requires forall k :: k in byKey && |byKey[k]| >= 2 ==> exists g :: g in groups && GroupOfKey(g, msgs, k)
    ensures GroupsOf(groups, msgs)
  {
    forall i | 0 <= i < |groups|
      ensures |groups[i]| >= 2 && IsGroup(groups[i], KeyOf(groups[i][0])) && Complete(groups[i], msgs)
    {
      assert groups[i] in groups;
      var k :| k in byKey && GroupOfKey(groups[i], msgs, k);
      GroupOfKeyIsGroup(groups[i], msgs, k);
    }
    forall m, m' | m in msgs && m' in msgs && Groupable(m) && Groupable(m') && KeyOf(m) == KeyOf(m') && m.uid != m'.uid
      ensures exists i :: 0 <= i < |groups| && m in groups[i] && m' in groups[i]
    {
      var k := KeyOf(m);
      WithKeyAre(msgs, k);
      TwoOfAKey(msgs, k, m, m');
      var g :| g in groups && GroupOfKey(g, msgs, k);
      var i :| 0 <= i < |groups| && groups[i] == g;
      assert m in groups[i] && m' in groups[i];
    }
  }

  lemma SameMembersSameGroup(a: seq<seq<Message>>, b: seq<seq<Message>>, msgs: seq<Message>, msgs': seq<Message>,
      i: nat)
    requires GroupsOf(a, msgs) && GroupsOf(b, msgs') && (forall m :: m in msgs <==> m in msgs') && i < |a|
    ensures a[i] in b
  {
    var g := a[i];
    assert g[0] in g && g[1] in g && g[0].uid < g[1].uid;
    var j :| 0 <= j < |b| && g[0] in b[j] && g[1] in b[j];
    assert b[j] in b && KeyOf(b[j][0]) == KeyOf(g[0]);
    AscendingIsUnique(g, b[j]);
  }

  function FirstUid(g: seq<Message>): int {
    if g == [] then 0 else g[0].uid
  }

  lemma ByFirstIsUnique(a: seq<seq<Message>>, b: seq<seq<Message>>)
    requires ByFirst(a) && ByFirst(b) && forall g :: g in a <==> g in b
    ensures a == b
  {
    StrictIsUnique(a, b, FirstUid);
  }

  /** Whatever order a mailbox is listed or a map is walked in, the groups come out the same, in the same order. */
  lemma GroupsAreDetermined(a: seq<seq<Message>>, b: seq<seq<Message>>, msgs: seq<Message>, msgs': seq<Message>)
    requires GroupsOf(a, msgs) && GroupsOf(b, msgs') && forall m :: m in msgs <==> m in msgs'
    ensures a == b
  {
    forall g | g in a
      ensures g in b
    {
      var i :| 0 <= i < |a| && a[i] == g;
      SameMembersSameGroup(a, b, msgs, msgs', i);
    }
    forall g | g in b
      ensures g in a
    {
      var i :| 0 <= i < |b| && b[i] == g;
      SameMembersSameGroup(b, a, msgs', msgs, i);
    }
    ByFirstIsUnique(a, b);
  }

  /* ---------- which one to keep ---------- */

  /** The lowest claimed message of the group, or failing that the lowest. */
  ghost predicate IsSurvivor(g: seq<Message>, claimed: set<Uid>, s: Message) {
    s in g &&
    (if exists m :: m in g && m.uid in claimed
     then s.uid in claimed && forall m :: m in g && m.uid in claimed ==> s.uid <= m.uid
     else forall m :: m in g ==> s.uid <= m.uid)
  }

  /** The first claimed message of the group, or failing that the first. */
  method ChooseSurvivor(g: seq<Message>, claimed: set<Uid>) returns (survivor: Message)
    requires |g| >= 2 && Ascending(g)
    ensures IsSurvivor(g, claimed, survivor)
  {
    survivor := g[0];
    var i := 0;
    while i < |g|
      invariant 0 <= i <= |g| && survivor == g[0]
      invariant forall k :: 0 <= k < i ==> g[k].uid !in claimed
    {
      if g[i].uid in claimed {
        survivor := g[i];
        return;
      }
      i := i + 1;
    }
  }

  function Others(g: seq<Message>, uid: Uid): seq<Message> {
    if g == [] then []
    else
      var n := |g| - 1;
      Others(g[..n], uid) + if g[n].uid != uid then [g[n]] else []
  }

  lemma OthersSnoc(g: seq<Message>, m: Message, uid: Uid)
    ensures Others(g + [m], uid) == Others(g, uid) + if m.uid != uid then [m] else []
  {
    assert (g + [m])[..|g|] == g;
  }

  lemma AscendingSnoc(g: seq<Message>, m: Message)
    ensures Ascending(g + [m]) <==> Ascending(g) && forall x :: x in g ==> x.uid < m.uid
  {
    var h := g + [m];
    assert forall i :: 0 <= i < |g| ==> h[i] == g[i];
    assert h[|g|] == m;
    if Ascending(h) {
      forall x | x in g
        ensures x.uid < m.uid
      {
        var i :| 0 <= i < |g| && g[i] == x;
        assert h[i].uid < h[|g|].uid;
      }
    }
  }

  lemma {:induction false} OthersAre(g: seq<Message>, uid: Uid)
    ensures forall m :: m in Others(g, uid) <==> m in g && m.uid != uid
    ensures Ascending(g) ==> Ascending(Others(g, uid))
  {
    if g != [] {
      hide Others, Ascending;
      var f, m := g[..|g| - 1], g[|g| - 1];
      assert g == f + [m];
      OthersAre(f, uid);
      OthersSnoc(f, m, uid);
      AscendingSnoc(f, m);
      AscendingSnoc(Others(f, uid), m);
      assert Others(f, uid) + [] == Others(f, uid);
    }
  }

  /** Survivor and victims are chosen in one go: every other message of the group is a victim, and it is not. */
  method Partition(g: seq<Message>, claimed: set<Uid>) returns (survivor: Message, victims: seq<Message>)
    requires |g| >= 2 && Ascending(g)
    ensures IsSurvivor(g, claimed, survivor)
    ensures forall m :: m in victims <==> m in g && m.uid != survivor.uid
    ensures Ascending(victims)
  {
    survivor := ChooseSurvivor(g, claimed);
    victims := [];
    for j := 0 to |g|
      invariant victims == Others(g[..j], survivor.uid)
    {
      OthersSnoc(g[..j], g[j], survivor.uid);
      assert g[..j + 1] == g[..j] + [g[j]];
      if g[j].uid != survivor.uid {
        victims := victims + [g[j]];
      }
    }
    assert g[..|g|] == g;
    OthersAre(g, survivor.uid);
  }
}
