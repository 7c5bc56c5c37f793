/**
 One folder of the local store: a directory of message files, a database of rows
 beside it, and the numbers it hands out. When the two disagree the directory
 wins; mail dropped in by hand is given a number of its own; and no number is
 ever given twice.
 */
module LocalFolder {
  import opened Wrappers
  import opened Text
  import opened LocalNames

  datatype File = File(bytes: string, modified: int)

  type Files = map<string, File>

  datatype Row = Row(flags: string, internalDate: int, size: nat)

  /* ---------- what a scan finds ---------- */

  function BaseName(path: string): string {
    var i := IndexOf(path, '/');
    if i == |path| then path else path[i + 1..]
  }

  /** A path the scan looks at: in the folder itself or in one of its shards. */
  predicate Visible(path: string) {
    var i := IndexOf(path, '/');
    i == |path| || (IsShardDir(path[..i]) && '/' !in path[i + 1..])
  }

  predicate IsMessage(path: string) { Visible(path) && IsMessageName(BaseName(path)) }

  /** The UID a message file is named for. */
  function UidOf(path: string): Option<nat> {
    if IsMessage(path) then ParseMessageName(BaseName(path)) else None
  }

  predicate IsForeign(path: string) { IsMessage(path) && ParseMessageName(BaseName(path)).None? }

  ghost predicate OnDisk(files: Files, uid: nat) {
    exists p :: p in files && UidOf(p) == Some(uid)
  }

  /** Every numbered message is where its number says. */
  predicate Canonical(files: Files) {
    forall p :: p in files && UidOf(p).Some? ==> p == MessageRel(UidOf(p).value)
  }

  lemma RelIsCanonical(uid: nat)
    requires 0 < uid < UID_LIMIT
    ensures UidOf(MessageRel(uid)) == Some(uid)
  {
    var name := MessageName(uid);
    MessagesAreNotShards(uid);
    MessageNamesRoundTrip(uid, "");
    if uid >= SHARD_SIZE {
      var shard := ShardName(uid);
      IndexOfJoint(shard, '/', name);
      var p := MessageRel(uid);
      assert p == shard + ['/'] + name;
      assert p[..|shard|] == shard && p[|shard| + 1..] == name;
    } else {
      assert IndexOf(name, '/') == |name|;
    }
  }

  /** `uids` maps each number found to its path; `foreign` are the other message files. */
  datatype Found = Found(uids: map<nat, string>, foreign: seq<string>, maxUid: nat)

  ghost predicate FoundIn(found: Found, files: Files) {
    (forall u :: u in found.uids <==> OnDisk(files, u)) &&
    (forall u :: u in found.uids ==> found.uids[u] in files && UidOf(found.uids[u]) == Some(u) && u <= found.maxUid) &&
    (forall p :: p in found.foreign <==> p in files && IsForeign(p)) &&
    (forall i, j :: 0 <= i < j < |found.foreign| ==> found.foreign[i] != found.foreign[j]) &&
    (found.maxUid == 0 || found.maxUid in found.uids) && found.maxUid < UID_LIMIT
  }

  /** Reads names only, in whatever order the directory gives them. */
  method Scan(files: Files) returns (found: Found)
    ensures FoundIn(found, files)
  {
    found := Found(map[], [], 0);
    var todo := files.Keys;
    ghost var seen: Files := map[];
    while todo != {}
      invariant todo <= files.Keys && seen.Keys == files.Keys - todo && forall p :: p in seen ==> seen[p] == files[p]
      invariant FoundIn(found, seen)
      decreases |todo|
    {
      var p :| p in todo;
      ghost var before := seen;
      seen := seen[p := files[p]];
      todo := todo - {p};
      hide Visible, BaseName, ParseMessageName, IsMessageName, IsForeign;
      ScanStep(found, before, p, files[p]);
      if UidOf(p).Some? {
        var u := UidOf(p).value;
        found := Found(found.uids[u := p], found.foreign, if u > found.maxUid then u else found.maxUid);
      } else if IsForeign(p) {
        found := Found(found.uids, found.foreign + [p], found.maxUid);
      }
    }
    assert seen == files;
  }

  lemma ScanStep(found: Found, seen: Files, p: string, file: File)
    requires FoundIn(found, seen) && p !in seen
    ensures UidOf(p).Some? ==>
              var u := UidOf(p).value;
              FoundIn(Found(found.uids[u := p], found.foreign, if u > found.maxUid then u else found.maxUid),
                seen[p := file])
    ensures UidOf(p).None? && IsForeign(p) ==>
      FoundIn(Found(found.uids, found.foreign + [p], found.maxUid), seen[p := file])
    ensures UidOf(p).None? && !IsForeign(p) ==> FoundIn(found, seen[p := file])
  {
    hide Visible, BaseName, IsMessageName;
    var seen' := seen[p := file];
    forall u: nat
      ensures OnDisk(seen', u) <==> OnDisk(seen, u) || UidOf(p) == Some(u)
    {
      if OnDisk(seen, u) {
        var q :| q in seen && UidOf(q) == Some(u);
        assert q in seen' && UidOf(q) == Some(u);
      }
      if UidOf(p) == Some(u) {
        assert p in seen';
      }
    }
  }

  /* ---------- adopting ---------- */

  /**
   The first `|given|` of the foreign files have been renamed to the messages of those numbers, and nothing
   else was touched.
   */
  ghost predicate Adopting(files0: Files, files: Files, foreign: seq<string>, given: seq<nat>) {
    |given| <= |foreign| && (forall k :: 0 <= k < |foreign| ==> foreign[k] in files0) &&
    Renamed(files0, files, foreign, given) && Untouched(files0, files, foreign, |given|) &&
      NothingElse(files0, files, foreign, given)
  }

  ghost predicate Renamed(files0: Files, files: Files, foreign: seq<string>, given: seq<nat>)
    requires |given| <= |foreign| && forall k :: 0 <= k < |foreign| ==> foreign[k] in files0
  {
    forall k :: 0 <= k < |given| ==> MessageRel(given[k]) in files && files[MessageRel(given[k])] == files0[foreign[k]]
  }

  ghost predicate Untouched(files0: Files, files: Files, foreign: seq<string>, n: nat)
    requires n <= |foreign|
  {
    forall p :: p in files0 && p !in foreign[..n] ==> p in files && files[p] == files0[p]
  }

  ghost predicate NothingElse(files0: Files, files: Files, foreign: seq<string>, given: seq<nat>)
    requires |given| <= |foreign|
  {
    forall p :: p in files ==>
      (p in files0 && p !in foreign[..|given|]) || exists k :: 0 <= k < |given| && p == MessageRel(given[k])
  }

  /** Numbers that rise, above everything on the disk and nothing below `least`. */
  ghost predicate Fresh(files0: Files, given: seq<nat>, least: nat) {
    (forall k :: 0 <= k < |given| ==> 0 < given[k] < UID_LIMIT && given[k] >= least && !OnDisk(files0, given[k])) &&
    (forall j, k :: 0 <= j < k < |given| ==> given[j] < given[k])
  }

  lemma ForeignIsNotNumbered(p: string, uid: nat)
    requires IsForeign(p) && 0 < uid < UID_LIMIT
    ensures p != MessageRel(uid)
  {
    RelIsCanonical(uid);
  }

  lemma FreshOneMore(files0: Files, given: seq<nat>, uid: nat, least: nat)
    requires Fresh(files0, given, least) && 0 < uid < UID_LIMIT && uid >= least && !OnDisk(files0, uid)
    requires forall k :: 0 <= k < |given| ==> given[k] < uid
    ensures Fresh(files0, given + [uid], least)
  {
    var now := given + [uid];
    assert now[|given|] == uid && forall k :: 0 <= k < |given| ==> now[k] == given[k];
  }

  /**
   The place of a fresh number is taken by nothing: no file there was, none renamed, and not the one to be
   renamed.
   */
  lemma PlaceIsFree(files0: Files, given: seq<nat>, uid: nat, least: nat, src: string)
    requires Canonical(files0) && Fresh(files0, given, least) && 0 < uid < UID_LIMIT && !OnDisk(files0, uid) &&
      IsForeign(src)
    requires forall k :: 0 <= k < |given| ==> given[k] < uid
    ensures MessageRel(uid) !in files0
    ensures forall k :: 0 <= k < |given| ==> MessageRel(given[k]) != MessageRel(uid) && MessageRel(given[k]) != src
  {
    RelIsCanonical(uid);
    forall k | 0 <= k < |given|
      ensures MessageRel(given[k]) != MessageRel(uid) && MessageRel(given[k]) != src
    {
      ForeignIsNotNumbered(src, given[k]);
      if MessageRel(given[k]) == MessageRel(uid) {
        PathsAreDistinct(given[k], uid);
      }
    }
  }

  /** Renaming one more overwrites nothing. */
  lemma AdoptStep(files0: Files, files: Files, foreign: seq<string>, given: seq<nat>, uid: nat)
    requires Adopting(files0, files, foreign, given) && |given| < |foreign|
    requires forall i, j :: 0 <= i < j < |foreign| ==> foreign[i] != foreign[j]
    requires MessageRel(uid) !in files0
    requires forall k :: 0 <= k < |given| ==>
      MessageRel(given[k]) != MessageRel(uid) && MessageRel(given[k]) != foreign[|given|]
    ensures var src, dst := foreign[|given|], MessageRel(uid);
            src in files && files[src] == files0[src] && dst !in files &&
            Adopting(files0, (files - {src})[dst := files[src]], foreign, given + [uid])
  {
    hide MessageRel, Renamed, NothingElse;
    var n := |given|;
    var src, dst := foreign[n], MessageRel(uid);
    assert src !in foreign[..n];
    assert src in files0 && src in files && files[src] == files0[src];
    RenameFree(files0, files, foreign, given, dst);
    RenamedOneMore(files0, files, foreign, given, uid);
    UntouchedOneMore(files0, files, foreign, n, dst);
    NothingElseOneMore(files0, files, foreign, given, uid);
  }

  lemma RenameFree(files0: Files, files: Files, foreign: seq<string>, given: seq<nat>, dst: string)
    requires |given| <= |foreign| && NothingElse(files0, files, foreign, given) && dst !in files0
    requires forall k :: 0 <= k < |given| ==> MessageRel(given[k]) != dst
    ensures dst !in files
  {
    hide MessageRel;
  }

  lemma RenamedOneMore(files0: Files, files: Files, foreign: seq<string>, given: seq<nat>, uid: nat)
    requires |given| < |foreign| && (forall k :: 0 <= k < |foreign| ==> foreign[k] in files0)
    requires Renamed(files0, files, foreign, given) && foreign[|given|] in files &&
      files[foreign[|given|]] == files0[foreign[|given|]]
    requires forall k :: 0 <= k < |given| ==>
      MessageRel(given[k]) != MessageRel(uid) && MessageRel(given[k]) != foreign[|given|]
    ensures Renamed(files0, (files - {foreign[|given|]})[MessageRel(uid) := files[foreign[|given|]]], foreign,
      given + [uid])
  {
    hide MessageRel;
    var now := given + [uid];
    assert now[|given|] == uid && forall k :: 0 <= k < |given| ==> now[k] == given[k];
  }

  lemma UntouchedOneMore(files0: Files, files: Files, foreign: seq<string>, n: nat, dst: string)
    requires n < |foreign| && Untouched(files0, files, foreign, n) && foreign[n] in files && dst !in files0
    ensures Untouched(files0, (files - {foreign[n]})[dst := files[foreign[n]]], foreign, n + 1)
  {
    assert foreign[..n + 1] == foreign[..n] + [foreign[n]];
  }

  lemma NothingElseOneMore(files0: Files, files: Files, foreign: seq<string>, given: seq<nat>, uid: nat)
    requires |given| < |foreign| && NothingElse(files0, files, foreign, given) && foreign[|given|] in files
    ensures NothingElse(files0, (files - {foreign[|given|]})[MessageRel(uid) := files[foreign[|given|]]], foreign,
      given + [uid])
  {
    hide MessageRel;
    var n, now := |given|, given + [uid];
    var files' := (files - {foreign[n]})[MessageRel(uid) := files[foreign[n]]];
    assert now[n] == uid && forall k :: 0 <= k < n ==> now[k] == given[k];
    assert foreign[..n + 1] == foreign[..n] + [foreign[n]];
    forall p | p in files'
      ensures (p in files0 && p !in foreign[..n + 1]) || exists k :: 0 <= k < n + 1 && p == MessageRel(now[k])
    {
      if p == MessageRel(uid) {
        assert p == MessageRel(now[n]);
      } else if k :| 0 <= k < n && p == MessageRel(given[k]) {
        assert p == MessageRel(now[k]);
      }
    }
  }

  lemma AdoptionStarts(files: Files, foreign: seq<string>)
    requires forall k :: 0 <= k < |foreign| ==> foreign[k] in files
    ensures Adopting(files, files, foreign, [])
  {
  }

  /** Afterwards the numbers on the disk are those that were there and those given, each in its place. */
  lemma AdoptedUids(files0: Files, files: Files, foreign: seq<string>, given: seq<nat>, least: nat)
    requires Adopting(files0, files, foreign, given) && |given| == |foreign| && Fresh(files0, given, least) &&
      Canonical(files0)
    requires forall p :: p in foreign <==> p in files0 && IsForeign(p)
    ensures Canonical(files) && forall p :: p in files ==> !IsForeign(p)
    ensures forall u: nat :: OnDisk(files, u) <==> OnDisk(files0, u) || u in given
  {
    assert foreign[..|given|] == foreign;
    forall p | p in files
      ensures !IsForeign(p)
      ensures UidOf(p).Some? ==>
        p == MessageRel(UidOf(p).value) && (OnDisk(files0, UidOf(p).value) || UidOf(p).value in given)
    {
      if k :| 0 <= k < |given| && p == MessageRel(given[k]) {
        RelIsCanonical(given[k]);
      }
    }
    forall u: nat | OnDisk(files0, u) || u in given
      ensures OnDisk(files, u)
    {
      if u in given {
        var k :| 0 <= k < |given| && given[k] == u;
        RelIsCanonical(u);
        assert MessageRel(u) in files;
      } else {
        var p :| p in files0 && UidOf(p) == Some(u);
        assert !IsForeign(p) && p in files;
      }
    }
  }

  /* ---------- the rows ---------- */

  function NewRow(file: File): Row { Row("", file.modified, |file.bytes|) }

  /** One row for every message on the disk: the old one where there was one. */
  ghost predicate RowsFor(rows: map<nat, Row>, before: map<nat, Row>, files: Files) {
    (forall u: nat :: u in rows <==> OnDisk(files, u)) &&
    (forall u :: u in rows && u in before ==> rows[u] == before[u]) &&
    (forall u :: u in rows && u !in before ==>
       MessageRel(u) in files && rows[u].flags == "" && rows[u].internalDate == files[MessageRel(u)].modified &&
       rows[u].size == |files[MessageRel(u)].bytes|)
  }

  /** Which files are messages: those that end so, in the folder itself or in one of its shards. */
  lemma MessagesAre(path: string)
    ensures IsMessage(path) <==>
            |path| >= 4 && path[|path| - 4..] == ".eml" &&
            ('/' !in path ||
             (|path| >= 16 && path[0] == '+' && AllDigits(path[1..11]) && path[11] == '/' && '/' !in path[12..]))
  {
    var i := IndexOf(path, '/');
    if i < |path| {
      assert '/' in path;
      if |path| >= 16 && path[0] == '+' && AllDigits(path[1..11]) && path[11] == '/' {
        assert forall k :: 1 <= k < 11 ==> path[1..11][k - 1] == path[k];
        assert i == 11;
      }
      if i == 11 && AllDigits(path[..i][1..]) {
        assert path[..i][1..] == path[1..11];
      }
      if i == 11 && |path| >= 16 {
        assert path[12..][|path| - 16..] == path[|path| - 4..];
      }
    }
  }

  /** The number a claim hands out when the counter stands at `uidNext`. */
  function NextUid(uidNext: nat, atLeast: nat): nat { if atLeast >= uidNext then atLeast + 1 else uidNext }

  /** The counter raised past a number, and never lowered. */
  function RaisedPast(uidNext: nat, maxUid: nat): nat { if maxUid < uidNext then uidNext else maxUid + 1 }

  class Folder {
    var files: Files
    var rows: map<nat, Row>
    var uidNext: nat

    constructor (files: Files, rows: map<nat, Row>, uidNext: nat)
      ensures this.files == files && this.rows == rows && this.uidNext == uidNext
    {
      this.files, this.rows, this.uidNext := files, rows, uidNext;
    }

    /** Directory, rows and numbering agree: there is nothing to reconcile. */
    ghost predicate Agreed()
      reads this
    {
      Canonical(files) && (forall p :: p in files ==> !IsForeign(p)) &&
      (forall u: nat :: u in rows <==> OnDisk(files, u)) && (forall u: nat :: OnDisk(files, u) ==> u < uidNext)
    }

    /** Allocates the next number, under the lock. */
    method Claim(atLeast: nat) returns (uid: nat)
      modifies this`uidNext
      ensures uid == NextUid(old(uidNext), atLeast) && uidNext == uid + 1
      ensures old(uidNext) <= uid && atLeast < uid && (uid == old(uidNext) || uid == atLeast + 1)
    {
      if atLeast >= uidNext {
        uidNext := atLeast + 1;
      }
      uid := uidNext;
      uidNext := uidNext + 1;
    }

    /** Raises the numbering and never lowers it. */
    method RaiseUidNext(maxUid: nat)
      modifies this`uidNext
      ensures uidNext == RaisedPast(old(uidNext), maxUid)
      ensures old(uidNext) <= uidNext && maxUid < uidNext && (uidNext == old(uidNext) || uidNext == maxUid + 1)
    {
      if maxUid < uidNext {
        return;
      }
      uidNext := maxUid + 1;
    }

    /** Gives each foreign file a number above everything seen so far, and renames it to that. */
    method AdoptAll(found: Found) returns (given: seq<nat>, maxUid: nat)
      requires FoundIn(found, files) && Canonical(files) && uidNext >= 1
      requires found.maxUid + 1 + |found.foreign| <= UID_LIMIT && uidNext + |found.foreign| <= UID_LIMIT
      modifies this`files, this`uidNext
      ensures Adopting(old(files), files, found.foreign, given) && |given| == |found.foreign| &&
        Fresh(old(files), given, old(uidNext))
      ensures old(uidNext) <= uidNext && found.maxUid <= maxUid && (forall k :: 0 <= k < |given| ==> given[k] <= maxUid)
      ensures found.foreign == [] ==> maxUid == found.maxUid && uidNext == old(uidNext)
    {
      hide Adopting, IsForeign, MessageRel, Canonical, UidOf, FoundIn, Fresh, OnDisk;
      given, maxUid := [], found.maxUid;
      ghost var top := if found.maxUid < uidNext then uidNext else found.maxUid + 1;
      ForeignAre(found, files);
      AdoptionStarts(files, found.foreign);
      NothingGiven(files, uidNext);
      for i := 0 to |found.foreign|
        invariant |given| == i && Adopting(old(files), files, found.foreign, given) &&
          Fresh(old(files), given, old(uidNext))
        invariant found.maxUid <= maxUid < top + i && old(uidNext) <= uidNext <= top + i
        invariant forall k :: 0 <= k < i ==> given[k] < uidNext && given[k] <= maxUid
        invariant i == 0 ==> maxUid == found.maxUid && uidNext == old(uidNext)
      {
        assert found.foreign[i] in found.foreign;
        var uid := Claim(maxUid);
        AboveEverything(found, old(files), uid);
        PlaceIsFree(old(files), given, uid, old(uidNext), found.foreign[i]);
        FreshOneMore(old(files), given, uid, old(uidNext));
        AdoptStep(old(files), files, found.foreign, given, uid);
        if uid > maxUid {
          maxUid := uid;
        }
        var src, dst := found.foreign[i], MessageRel(uid);
        files := (files - {src})[dst := files[src]];
        given := given + [uid];
      }
    }

    method InsertMissing(onDisk: map<nat, string>)
      requires forall u :: u in onDisk ==> onDisk[u] in files
      modifies this`rows
      ensures forall u :: u in rows <==> u in old(rows) || u in onDisk
      ensures forall u :: u in old(rows) ==> rows[u] == old(rows)[u]
      ensures forall u :: u in onDisk && u !in old(rows) ==> rows[u] == NewRow(files[onDisk[u]])
    {
      hide NewRow;
      var todo := onDisk.Keys;
      while todo != {}
        invariant forall u :: u in todo ==> u in onDisk
        invariant forall u :: u in rows <==> u in old(rows) || (u in onDisk && u !in todo)
        invariant forall u :: u in old(rows) ==> rows[u] == old(rows)[u]
        invariant forall u :: u in onDisk && u !in todo && u !in old(rows) ==> rows[u] == NewRow(files[onDisk[u]])
        decreases |todo|
      {
        var u :| u in todo;
        if u !in rows {
          rows := rows[u := NewRow(files[onDisk[u]])];
        }
        todo := todo - {u};
      }
    }

    method DeleteGone(known: set<nat>, onDisk: map<nat, string>)
      requires known <= rows.Keys
      modifies this`rows
      ensures rows.Keys == old(rows).Keys - (known - onDisk.Keys)
      ensures forall u :: u in rows ==> rows[u] == old(rows)[u]
    {
      var todo := known;
      while todo != {}
        invariant todo <= known
        invariant rows.Keys == old(rows).Keys - ((known - todo) - onDisk.Keys)
        invariant forall u :: u in rows ==> rows[u] == old(rows)[u]
        decreases |todo|
      {
        var u :| u in todo;
        if u !in onDisk {
          rows := rows - {u};
        }
        todo := todo - {u};
      }
      assert known - {} == known;
    }

    /** Rows for the files that have none, and none for the files that are gone. */
    method FixRows(onDisk: map<nat, string>)
      requires forall u: nat :: u in onDisk <==> OnDisk(files, u)
      requires forall u :: u in onDisk ==> onDisk[u] == MessageRel(u) && onDisk[u] in files
      modifies this`rows
      ensures RowsFor(rows, old(rows), files)
    {
      hide OnDisk, MessageRel;
      var known := rows.Keys;
      InsertMissing(onDisk);
      DeleteGone(known, onDisk);
    }

    /**
     Makes the database agree with the directory. `given` are the numbers handed
     to the foreign files, in the order of `adopted`. A second pass finds nothing
     to do.
     */
    method Reconcile() returns (ghost adopted: seq<string>, ghost given: seq<nat>)
      requires Canonical(files) && uidNext >= 1
      requires uidNext + |files| <= UID_LIMIT && forall u: nat :: OnDisk(files, u) ==> u + 1 + |files| <= UID_LIMIT
      modifies this
      ensures Agreed()
      ensures forall p :: p in adopted <==> p in old(files) && IsForeign(p)
      ensures Adopting(old(files), files, adopted, given) && |given| == |adopted| &&
        Fresh(old(files), given, old(uidNext))
      ensures RowsFor(rows, old(rows), files)
      ensures uidNext >= old(uidNext)
      ensures old(Agreed()) ==> files == old(files) && rows == old(rows) && uidNext == old(uidNext)
    {
      hide IsForeign, MessageRel, UidOf, FoundIn, OnDisk, Canonical, Adopting, Fresh, RowsFor, Agreed;
      var found := Scan(files);
      adopted := found.foreign;
      ForeignAreFew(found, files);
      FoundNumbers(found, files);
      ghost var agreed := Agreed();
      if agreed {
        AgreedMeans();
      }
      ghost var files0 := files;
      var maxUid, numbers;
      numbers, maxUid := AdoptAll(found);
      given := numbers;
      AdoptedUids(files0, files, found.foreign, given, old(uidNext));
      var onDisk := FoundNow(found, files0, numbers);
      FoundAreThere(files, onDisk);
      FixRows(onDisk);
      RaiseUidNext(maxUid);
      NothingToAdopt(files0, files, found, given);
      NowAgreed(found, files0, given, old(rows), maxUid);
    }

    lemma AgreedMeans()
      requires Agreed()
      ensures forall p :: p in files ==> !IsForeign(p)
      ensures forall u: nat :: u in rows <==> OnDisk(files, u)
      ensures forall u: nat :: OnDisk(files, u) ==> u < uidNext
    {
    }

    lemma NowAgreed(found: Found, files0: Files, given: seq<nat>, before: map<nat, Row>, maxUid: nat)
      requires Canonical(files) && (forall p :: p in files ==> !IsForeign(p)) && RowsFor(rows, before, files)
      requires forall u: nat :: OnDisk(files, u) <==> OnDisk(files0, u) || u in given
      requires FoundIn(found, files0) && found.maxUid <= maxUid < uidNext && forall k :: 0 <= k < |given| ==>
        given[k] <= maxUid
      ensures Agreed()
      ensures (forall u: nat :: u in before <==> OnDisk(files, u)) ==> rows == before
    {
      hide IsForeign, UidOf, MessageRel;
      forall u: nat | OnDisk(files, u)
        ensures u < uidNext
      {
        if u in given {
          var k :| 0 <= k < |given| && given[k] == u;
        } else {
          assert u in found.uids;
        }
      }
    }

    /** The numbers found and the numbers given, with the paths they are at now. */
    method FoundNow(found: Found, ghost files0: Files, given: seq<nat>) returns (onDisk: map<nat, string>)
      requires FoundIn(found, files0) && Canonical(files0)
      ensures forall u: nat :: u in onDisk <==> OnDisk(files0, u) || u in given
      ensures forall u :: u in onDisk ==> onDisk[u] == MessageRel(u)
    {
      hide MessageRel, UidOf, OnDisk;
      onDisk := found.uids;
      for i := 0 to |given|
        invariant forall u: nat :: u in onDisk <==> OnDisk(files0, u) || u in given[..i]
        invariant forall u :: u in onDisk ==> onDisk[u] == MessageRel(u)
      {
        onDisk := onDisk[given[i] := MessageRel(given[i])];
        assert given[..i + 1] == given[..i] + [given[i]];
      }
      assert given[..|given|] == given;
    }
  }

  lemma ForeignAre(found: Found, files: Files)
    requires FoundIn(found, files)
    ensures forall k :: 0 <= k < |found.foreign| ==> found.foreign[k] in files
    ensures forall p :: p in found.foreign ==> IsForeign(p)
    ensures forall i, j :: 0 <= i < j < |found.foreign| ==> found.foreign[i] != found.foreign[j]
  {
    forall k | 0 <= k < |found.foreign|
      ensures found.foreign[k] in files
    {
      assert found.foreign[k] in found.foreign;
    }
  }

  lemma NothingGiven(files: Files, least: nat)
    ensures Fresh(files, [], least)
  {
  }

  lemma FoundNumbers(found: Found, files: Files)
    requires FoundIn(found, files)
    ensures found.maxUid == 0 || OnDisk(files, found.maxUid)
    ensures found.maxUid < UID_LIMIT && forall p :: p in found.foreign <==> p in files && IsForeign(p)
  {
  }

  lemma FoundAreThere(files: Files, onDisk: map<nat, string>)
    requires Canonical(files) && (forall u: nat :: u in onDisk ==> OnDisk(files, u) && onDisk[u] == MessageRel(u))
    ensures forall u :: u in onDisk ==> onDisk[u] in files
  {
    forall u: nat | u in onDisk
      ensures onDisk[u] in files
    {
      var p :| p in files && UidOf(p) == Some(u);
    }
  }

  lemma AboveEverything(found: Found, files0: Files, uid: nat)
    requires FoundIn(found, files0) && uid > found.maxUid
    ensures !OnDisk(files0, uid)
  {
  }

  lemma {:induction false} DistinctFit(s: seq<string>, all: set<string>)
    requires (forall i, j :: 0 <= i < j < |s| ==> s[i] != s[j]) && forall x :: x in s ==> x in all
    ensures |s| <= |all|
    decreases |s|
  {
    if s != [] {
      var t, x := s[..|s| - 1], s[|s| - 1];
      assert s == t + [x];
      assert x !in t;
      DistinctFit(t, all - {x});
    }
  }

  lemma ForeignAreFew(found: Found, files: Files)
    requires FoundIn(found, files)
    ensures |found.foreign| <= |files|
  {
    DistinctFit(found.foreign, files.Keys);
  }

  lemma NothingToAdopt(files0: Files, files: Files, found: Found, given: seq<nat>)
    requires FoundIn(found, files0) && Adopting(files0, files, found.foreign, given) && |given| == |found.foreign|
    ensures (forall p :: p in files0 ==> !IsForeign(p)) ==> found.foreign == [] && files == files0
  {
    hide IsForeign, MessageRel;
    forall k | 0 <= k < |found.foreign|
      ensures found.foreign[k] in files0 && IsForeign(found.foreign[k])
    {
      assert found.foreign[k] in found.foreign;
    }
    assert found.foreign != [] ==> found.foreign[0] in files0 && IsForeign(found.foreign[0]);
  }

  /* ---------- numbers from many callers ---------- */

  /** What the lock lets through, one at a time: a claim that must beat a number, or a raise past one. */
  datatype Turn = Claims(atLeast: nat) | Raises(maxUid: nat)

  /** The number a turn must leave behind: the floor of a claim, or what is raised past. */
  function FloorOf(t: Turn): nat {
    match t
    case Claims(atLeast) => atLeast
    case Raises(maxUid) => maxUid
  }

  /** The counter after any turns, and what each of them was handed. */
  function Turns(uidNext: nat, turns: seq<Turn>): (nat, seq<Option<nat>>)
    decreases |turns|
  {
    if turns == [] then (uidNext, [])
    else
      match turns[0]
      case Claims(atLeast) =>
        var uid := NextUid(uidNext, atLeast);
        var rest := Turns(uid + 1, turns[1..]);
        (rest.0, [Some(uid)] + rest.1)
      case Raises(maxUid) =>
        var rest := Turns(RaisedPast(uidNext, maxUid), turns[1..]);
        (rest.0, [None] + rest.1)
  }

  /**
   A turn's number is above the counter it began with, its own floor and everything claimed, asked or raised
   before it.
   */
  ghost predicate Beats(uidNext: nat, turns: seq<Turn>, given: seq<Option<nat>>, k: nat)
    requires |given| == |turns| && k < |turns| && given[k].Some?
  {
    uidNext <= given[k].value &&
    (forall j :: 0 <= j <= k ==> FloorOf(turns[j]) < given[k].value) &&
    (forall j :: 0 <= j < k && given[j].Some? ==> given[j].value < given[k].value)
  }

  /**
   However many callers claim at once, and whatever is raised between, every
   number is new: above the floor its caller asked for, above every floor and raise
   before it, and above every number handed out before it.
   */
  lemma {:induction false} ClaimsAreFresh(uidNext: nat, turns: seq<Turn>)
    ensures var r := Turns(uidNext, turns);
            |r.1| == |turns| && r.0 >= uidNext &&
            (forall k :: 0 <= k < |turns| ==> (r.1[k].Some? <==> turns[k].Claims?)) &&
            (forall k :: 0 <= k < |turns| && r.1[k].Some? ==> Beats(uidNext, turns, r.1, k) && r.1[k].value < r.0) &&
            (forall k :: 0 <= k < |turns| ==> FloorOf(turns[k]) < r.0)
    decreases |turns|
  {
    if turns != [] {
      var next := match turns[0]
        case Claims(atLeast) => NextUid(uidNext, atLeast) + 1
        case Raises(maxUid) => RaisedPast(uidNext, maxUid);
      ClaimsAreFresh(next, turns[1..]);
      var r, rest := Turns(uidNext, turns), Turns(next, turns[1..]);
      assert r.1[1..] == rest.1 && r.0 == rest.0;
      forall k | 0 < k < |turns|
        ensures turns[k] == turns[1..][k - 1] && r.1[k] == rest.1[k - 1]
      {
      }
      forall k | 0 < k < |turns| && r.1[k].Some?
        ensures Beats(uidNext, turns, r.1, k) && r.1[k].value < r.0
      {
        assert Beats(next, turns[1..], rest.1, k - 1);
        forall j | 0 <= j <= k
          ensures FloorOf(turns[j]) < r.1[k].value
          ensures j < k && r.1[j].Some? ==> r.1[j].value < r.1[k].value
        {
          assert j > 0 ==> turns[j] == turns[1..][j - 1] && r.1[j] == rest.1[j - 1];
        }
      }
    }
  }
}
