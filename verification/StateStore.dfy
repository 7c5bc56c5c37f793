/**
 The state database: one row per message copy, one row per folder.

 Each SQL statement or transaction is one atomic update. The functions say what
 a statement does to the rows of one folder under one source UIDVALIDITY; the
 methods of class `DB` do it to the whole table in place, and are proved to do
 exactly that to those rows and nothing to any other.
 */
module StateStore {
  import opened Wrappers

  type Uid = nat

  datatype Status = Planned | InFlight | Done | Failed | Gone

  /** What BeginAppend writes about the source message. */
  datatype Detail = Detail(identHash: string, stampId: string, size: int, flags: string, internalDate: int)

  const NO_DETAIL := Detail("", "", 0, "", 0)

  datatype Row = Row(detail: Detail, dstValidity: nat, dstUid: Uid, status: Status, lastError: string)

  datatype Key = Key(folder: nat, validity: nat, uid: Uid)

  /** A zero UIDVALIDITY or modification sequence is one never learned. */
  datatype FolderRow = FolderRow(srcValidity: nat, dstValidity: nat, highestModSeq: nat, deletedThrough: nat,
                                 lastSync: Option<int>)

  const NEW_FOLDER := FolderRow(0, 0, 0, 0, None)

  type Rows = map<Uid, Row>
  type Messages = map<Key, Row>

  datatype Error = NotRecorded(uid: Uid)

  /* ---------- the rows of one folder, by whatever names a source message ---------- */

  function BegunRow<K(==)>(rows: map<K, Row>, u: K, d: Detail): Row {
    if u in rows then rows[u].(detail := d, status := InFlight, lastError := "")
    else Row(d, 0, 0, InFlight, "")
  }

  function Begun<K(==)>(rows: map<K, Row>, u: K, d: Detail): map<K, Row> {
    rows[u := BegunRow(rows, u, d)]
  }

  function Completed<K(==)>(rows: map<K, Row>, u: K, dstValidity: nat, dstUid: Uid): map<K, Row>
    requires u in rows
  {
    rows[u := rows[u].(status := Done, dstValidity := dstValidity, dstUid := dstUid, lastError := "")]
  }

  function FailedRows<K(==)>(rows: map<K, Row>, u: K, reason: string): map<K, Row>
    requires u in rows
  {
    rows[u := rows[u].(status := Failed, lastError := reason)]
  }

  function GoneRow<K(==)>(rows: map<K, Row>, u: K): Row {
    if u in rows then rows[u].(status := Gone, lastError := "") else Row(NO_DETAIL, 0, 0, Gone, "")
  }

  function MarkedGone<K(==)>(rows: map<K, Row>, u: K): map<K, Row> {
    rows[u := GoneRow(rows, u)]
  }

  /** The source messages known to exist on both sides, with the destination UID of each. */
  function Mirrored<K(==,!new)>(rows: map<K, Row>, dstValidity: nat): (m: map<K, Uid>)
    ensures forall u :: u in m <==>
                        u in rows && rows[u].status.Done? && rows[u].dstValidity == dstValidity && rows[u].dstUid != 0
    ensures forall u :: u in m ==> m[u] == rows[u].dstUid
  {
    map u | u in rows && rows[u].status.Done? && rows[u].dstValidity == dstValidity && rows[u].dstUid != 0
      :: rows[u].dstUid
  }

  /** The distinct destination messages those rows claim. */
  function ClaimedUids<K(==,!new)>(rows: map<K, Row>, dstValidity: nat): (c: set<Uid>)
    ensures forall d :: d in c <==> exists u :: u in Mirrored(rows, dstValidity) && Mirrored(rows, dstValidity)[u] == d
  {
    Mirrored(rows, dstValidity).Values
  }

  function ClaimedCount<K(==,!new)>(rows: map<K, Row>, dstValidity: nat): nat {
    |ClaimedUids(rows, dstValidity)|
  }

  function InFlightUids<K(==)>(rows: map<K, Row>): set<K> {
    set u | u in rows && rows[u].status.InFlight?
  }

  /** The digests of the recorded copies, whatever the destination's numbering. */
  function Idents<K(==)>(rows: map<K, Row>): map<K, string> {
    map u | u in rows && rows[u].status.Done? :: rows[u].detail.identHash
  }

  /** Rows claiming one copy twice are one claim: the count never exceeds the rows, and is short by the sharing. */
  lemma ClaimedCountIsDistinct<K(!new)>(rows: map<K, Row>, dstValidity: nat)
    ensures ClaimedCount(rows, dstValidity) <= |Mirrored(rows, dstValidity)|
    ensures (forall u, v :: u in Mirrored(rows, dstValidity) && v in Mirrored(rows, dstValidity) && u != v ==>
               Mirrored(rows, dstValidity)[u] != Mirrored(rows, dstValidity)[v]) <==>
            ClaimedCount(rows, dstValidity) == |Mirrored(rows, dstValidity)|
  {
    DistinctValues(Mirrored(rows, dstValidity));
  }

  lemma {:induction false} DistinctValues<K>(m: map<K, Uid>)
    ensures |m.Values| <= |m|
    ensures (forall u, v :: u in m && v in m && u != v ==> m[u] != m[v]) <==> |m.Values| == |m|
    decreases |m|
  {
    if m != map[] {
      var k :| k in m;
      var rest := m - {k};
      assert m == rest[k := m[k]];
      assert |m| == |rest| + 1;
      DistinctValues(rest);
      assert m.Values == rest.Values + {m[k]} by {
        forall x | x in m.Values
          ensures x in rest.Values + {m[k]}
        {
          var j :| j in m && m[j] == x;
          assert j != k ==> j in rest && rest[j] == x;
        }
        forall x | x in rest.Values
          ensures x in m.Values
        {
          var j :| j in rest && rest[j] == x;
          assert j in m && m[j] == x;
        }
        assert m[k] in m.Values;
      }
      if m[k] in rest.Values {
        var j :| j in rest && rest[j] == m[k];
        assert j in m && m[j] == m[k] && j != k;
        assert rest.Values + {m[k]} == rest.Values;
      } else {
        assert |rest.Values + {m[k]}| == |rest.Values| + 1;
        if forall u, v :: u in rest && v in rest && u != v ==> rest[u] != rest[v] {
          forall u, v | u in m && v in m && u != v
            ensures m[u] != m[v]
          {
            if u == k {
              assert v in rest && rest[v] in rest.Values;
            } else if v == k {
              assert u in rest && rest[u] in rest.Values;
            } else {
              assert u in rest && v in rest;
            }
          }
        } else {
          var u, v :| u in rest && v in rest && u != v && rest[u] == rest[v];
          assert u in m && v in m && m[u] == m[v];
        }
      }
    }
  }

  /** A statement on one row says what is mirrored of it, and nothing about any other. */
  lemma MirroredOfOne<K(!new)>(rows: map<K, Row>, u: K, row: Row, dv: nat)
    ensures Mirrored(rows[u := row], dv) ==
            if row.status.Done? && row.dstValidity == dv && row.dstUid != 0 then Mirrored(rows, dv)[u := row.dstUid]
            else Mirrored(rows, dv) - {u}
  {
  }

  /**
   What is mirrored follows the life of a row: recording a copy that can be named
   adds exactly that pair under its own numbering and takes it out of every other,
   and beginning, failing or losing the message takes exactly that one out.
   */
  lemma MirroredFollows<K(!new)>(rows: map<K, Row>, u: K, dstValidity: nat, d: Uid, detail: Detail, reason: string,
      dv: nat)
    ensures Mirrored(Begun(rows, u, detail), dv) == Mirrored(rows, dv) - {u}
    ensures Mirrored(MarkedGone(rows, u), dv) == Mirrored(rows, dv) - {u}
    ensures u in rows ==> Mirrored(FailedRows(rows, u, reason), dv) == Mirrored(rows, dv) - {u}
    ensures u in rows ==>
              Mirrored(Completed(rows, u, dstValidity, d), dv) ==
              if d != 0 && dv == dstValidity then Mirrored(rows, dv)[u := d] else Mirrored(rows, dv) - {u}
  {
    hide Mirrored;
    MirroredOfOne(rows, u, BegunRow(rows, u, detail), dv);
    MirroredOfOne(rows, u, GoneRow(rows, u), dv);
    if u in rows {
      MirroredOfOne(rows, u, rows[u].(status := Failed, lastError := reason), dv);
      MirroredOfOne(rows, u, Completed(rows, u, dstValidity, d)[u], dv);
    }
  }

  /* ---------- the table ---------- */

  function UidsOf(m: Messages, f: nat, sv: nat): set<Uid> {
    set k | k in m && k.folder == f && k.validity == sv :: k.uid
  }

  /** The rows of one folder under one source numbering. */
  function RowsOf(m: Messages, f: nat, sv: nat): (rows: Rows)
    ensures forall u :: u in rows <==> Key(f, sv, u) in m
    ensures forall u :: u in rows ==> rows[u] == m[Key(f, sv, u)]
  {
    assert forall u :: Key(f, sv, u) in m ==> Key(f, sv, u).uid in UidsOf(m, f, sv);
    map u | u in UidsOf(m, f, sv) :: m[Key(f, sv, u)]
  }

  /** Every row outside one folder and numbering is the same in both tables. */
  ghost predicate SameElsewhere(m: Messages, m': Messages, f: nat, sv: nat) {
    forall f', sv' :: (f' != f || sv' != sv) ==> RowsOf(m', f', sv') == RowsOf(m, f', sv')
  }

  lemma RowWritten(m: Messages, f: nat, sv: nat, u: Uid, row: Row)
    ensures RowsOf(m[Key(f, sv, u) := row], f, sv) == RowsOf(m, f, sv)[u := row]
    ensures SameElsewhere(m, m[Key(f, sv, u) := row], f, sv)
  {
  }

  function UidSet(uids: seq<Uid>): set<Uid> {
    set i | 0 <= i < |uids| :: uids[i]
  }

  function Forgotten(m: Messages, f: nat, sv: nat, uids: set<Uid>): Messages {
    map k | k in m && !(k.folder == f && k.validity == sv && k.uid in uids) :: m[k]
  }

  lemma ForgottenRows(m: Messages, f: nat, sv: nat, uids: set<Uid>)
    ensures RowsOf(Forgotten(m, f, sv, uids), f, sv) == RowsOf(m, f, sv) - uids
    ensures SameElsewhere(m, Forgotten(m, f, sv, uids), f, sv)
  {
    var m' := Forgotten(m, f, sv, uids);
    forall f', sv' | f' != f || sv' != sv
      ensures RowsOf(m', f', sv') == RowsOf(m, f', sv')
    {
      assert forall u :: Key(f', sv', u) in m' <==> Key(f', sv', u) in m;
    }
    assert forall u :: Key(f, sv, u) in m' <==> Key(f, sv, u) in m && u !in uids;
  }

  function ClaimedDest(m: Messages, f: nat, dstValidity: nat): set<Uid> {
    set k | k in m && k.folder == f && m[k].dstValidity == dstValidity && m[k].dstUid != 0 :: m[k].dstUid
  }

  /** Every row of a folder is recorded under the source numbering its folder row holds. */
  ghost predicate OneNumbering(m: Messages, folders: map<nat, FolderRow>) {
    forall k :: k in m ==> k.folder in folders && k.validity == folders[k.folder].srcValidity
  }

  /** Whether a stored numbering pair contradicts what the servers report; zero is one never stored. */
  predicate Renumbered(row: FolderRow, srcValidity: nat, dstValidity: nat) {
    (row.srcValidity != 0 && row.srcValidity != srcValidity) || (row.dstValidity != 0 && row.dstValidity != dstValidity)
  }

  /** The folder row after a fence: a numbering that moved takes both watermarks with it. */
  function Fenced(row: FolderRow, srcValidity: nat, dstValidity: nat): FolderRow {
    if Renumbered(row, srcValidity, dstValidity) then FolderRow(srcValidity, dstValidity, 0, 0, row.lastSync)
    else row.(srcValidity := srcValidity, dstValidity := dstValidity)
  }

  /** `dests` is the destination each folder was last asked to be copied to. */
  class DB {
    var messages: Messages
    var folders: map<nat, FolderRow>
    var dests: map<nat, string>

    constructor ()
      ensures messages == map[] && folders == map[] && dests == map[]
    {
      messages, folders, dests := map[], map[], map[];
    }

    method BeginAppend(f: nat, sv: nat, u: Uid, d: Detail)
      modifies this`messages
      ensures RowsOf(messages, f, sv) == Begun(RowsOf(old(messages), f, sv), u, d)
      ensures SameElsewhere(old(messages), messages, f, sv)
    {
      var k := Key(f, sv, u);
      var row := if k in messages then messages[k].(detail := d, status := InFlight, lastError := "")
                 else Row(d, 0, 0, InFlight, "");
      RowWritten(messages, f, sv, u, row);
      messages := messages[k := row];
    }

    method CompleteAppend(f: nat, sv: nat, u: Uid, dstValidity: nat, dstUid: Uid) returns (r: Result<(), Error>)
      modifies this`messages
      ensures r == if u in RowsOf(old(messages), f, sv) then Ok(()) else Err(NotRecorded(u))
      ensures r.Ok? ==> RowsOf(messages, f, sv) == Completed(RowsOf(old(messages), f, sv), u, dstValidity, dstUid)
      ensures r.Ok? ==> SameElsewhere(old(messages), messages, f, sv)
      ensures r.Err? ==> messages == old(messages)
    {
      var k := Key(f, sv, u);
      if k !in messages {
        return Err(NotRecorded(u));
      }
      var row := messages[k].(status := Done, dstValidity := dstValidity, dstUid := dstUid, lastError := "");
      RowWritten(messages, f, sv, u, row);
      messages := messages[k := row];
      r := Ok(());
    }

    method FailAppend(f: nat, sv: nat, u: Uid, reason: string) returns (r: Result<(), Error>)
      modifies this`messages
      ensures r == if u in RowsOf(old(messages), f, sv) then Ok(()) else Err(NotRecorded(u))
      ensures r.Ok? ==> RowsOf(messages, f, sv) == FailedRows(RowsOf(old(messages), f, sv), u, reason)
      ensures r.Ok? ==> SameElsewhere(old(messages), messages, f, sv)
      ensures r.Err? ==> messages == old(messages)
    {
      var k := Key(f, sv, u);
      if k !in messages {
        return Err(NotRecorded(u));
      }
      var row := messages[k].(status := Failed, lastError := reason);
      RowWritten(messages, f, sv, u, row);
      messages := messages[k := row];
      r := Ok(());
    }

    method MarkGone(f: nat, sv: nat, u: Uid)
      modifies this`messages
      ensures RowsOf(messages, f, sv) == MarkedGone(RowsOf(old(messages), f, sv), u)
      ensures SameElsewhere(old(messages), messages, f, sv)
    {
      var k := Key(f, sv, u);
      var row := if k in messages then messages[k].(status := Gone, lastError := "")
        else Row(NO_DETAIL, 0, 0, Gone, "");
      RowWritten(messages, f, sv, u, row);
      messages := messages[k := row];
    }

    /** Rows are dropped one statement at a time inside one transaction. */
    method ForgetMessages(f: nat, sv: nat, uids: seq<Uid>)
      modifies this`messages
      ensures RowsOf(messages, f, sv) == RowsOf(old(messages), f, sv) - UidSet(uids)
      ensures SameElsewhere(old(messages), messages, f, sv)
    {
      var tx := messages;
      for i := 0 to |uids|
        invariant tx == Forgotten(messages, f, sv, UidSet(uids[..i]))
      {
        assert UidSet(uids[..i + 1]) == UidSet(uids[..i]) + {uids[i]};
        tx := tx - {Key(f, sv, uids[i])};
      }
      assert uids[..|uids|] == uids;
      ForgottenRows(messages, f, sv, UidSet(uids));
      messages := tx;
    }

    /** A folder seen before keeps what is recorded of it, but goes to the destination it is given now. */
    method EnsureFolder(f: nat, dest: string) returns (row: FolderRow, recorded: string)
      modifies this`folders, this`dests
      ensures folders == if f in old(folders) then old(folders) else old(folders)[f := NEW_FOLDER]
      ensures dests == old(dests)[f := dest]
      ensures row == folders[f] && recorded == dest
    {
      if f !in folders {
        folders := folders[f := NEW_FOLDER];
      }
      dests := dests[f := dest];
      row, recorded := folders[f], dests[f];
    }

    /**
     A numbering that moved takes every row of the folder and both its watermarks
     with it; one that was only never stored takes nothing. Either way the folder
     ends up with no row under any numbering but the one reported.
     */
    method FenceUIDValidity(f: nat, srcValidity: nat, dstValidity: nat) returns (kept: bool)
      requires f in folders
      modifies this`messages, this`folders
      ensures kept <==> !Renumbered(old(folders[f]), srcValidity, dstValidity)
      ensures folders == old(folders)[f := Fenced(old(folders[f]), srcValidity, dstValidity)]
      ensures kept ==> messages == old(messages)
      ensures !kept ==> messages == map k | k in old(messages) && k.folder != f :: old(messages)[k]
      ensures OneNumbering(old(messages), old(folders)) &&
              (old(folders[f]).srcValidity != 0 || forall k :: k in old(messages) ==> k.folder != f) ==>
                OneNumbering(messages, folders)
    {
      var row := folders[f];
      var changed := (row.srcValidity != 0 && row.srcValidity != srcValidity) ||
                     (row.dstValidity != 0 && row.dstValidity != dstValidity);
      if changed {
        messages := map k | k in messages && k.folder != f :: messages[k];
        row := row.(highestModSeq := 0, deletedThrough := 0);
      }
      folders := folders[f := row.(srcValidity := srcValidity, dstValidity := dstValidity)];
      kept := !changed;
    }

    /** A zero sequence leaves the stored one alone. */
    method MarkSynced(f: nat, modSeq: nat, deletedThrough: nat, at: int)
      requires f in folders
      modifies this`folders
      ensures folders == old(folders)[f := Synced(old(folders[f]), modSeq, deletedThrough, at)]
    {
      var row := folders[f];
      if modSeq != 0 {
        row := row.(highestModSeq := modSeq);
      }
      if deletedThrough != 0 {
        row := row.(deletedThrough := deletedThrough);
      }
      folders := folders[f := row.(lastSync := Some(at))];
    }
  }

  function Synced(row: FolderRow, modSeq: nat, deletedThrough: nat, at: int): FolderRow {
    FolderRow(row.srcValidity, row.dstValidity,
              if modSeq == 0 then row.highestModSeq else modSeq,
              if deletedThrough == 0 then row.deletedThrough else deletedThrough,
              Some(at))
  }
}
