/**
 Which source mailbox is copied to which destination mailbox. On success every
 source mailbox is paired or skipped, no two are paired with one destination,
 and what has to be created is listed parents first.
 */
module FolderPlan {
  import opened Wrappers
  import opened Text

  /** A separator the server reports, or none. */
  type Delim = Option<char>

  datatype Role = NoRole | Inbox | AllMail | Archive | Drafts | Flagged | Important | Junk | Sent | Trash

  datatype Mailbox = Mailbox(name: string, selectable: bool, attrs: seq<string>)

  /**
   `wanted` is the run's own selection of names, and `nameRole` the table of
   names that mean a role.
   */
  datatype Options = Options(
    srcDelim: Delim,
    dstDelim: Delim,
    srcPrefix: string,
    dstPrefix: string,
    automap: bool,
    includeVirtual: bool,
    wanted: string -> bool,
    nameRole: string -> Role,
    mappings: map<string, string>,
    subfolder: string)

  datatype Pair = Pair(source: string, dest: string, role: Role, createDest: bool)

  datatype Reason = NotSelectable | IsVirtual | ByRequest | Untranslatable

  datatype Skip = Skip(source: string, reason: Reason)

  /* ---------- names and roles ---------- */

  predicate NamesInbox(name: string) { Lower(name) == "inbox" }

  /** INBOX alone is the same mailbox however it is written. */
  function FoldName(name: string): string {
    if NamesInbox(name) then "INBOX" else name
  }

  function StripPrefix(name: string, prefix: string): string {
    if prefix == "" || !(prefix <= name) || name == prefix then name else name[|prefix|..]
  }

  function RoleOfAttr(attr: string): Role {
    if attr == "\\All" then AllMail
    else if attr == "\\Archive" then Archive
    else if attr == "\\Drafts" then Drafts
    else if attr == "\\Flagged" then Flagged
    else if attr == "\\Important" then Important
    else if attr == "\\Junk" then Junk
    else if attr == "\\Sent" then Sent
    else if attr == "\\Trash" then Trash
    else NoRole
  }

  function RoleFromAttrs(attrs: seq<string>): Role {
    if attrs == [] then NoRole
    else if RoleOfAttr(attrs[0]) != NoRole then RoleOfAttr(attrs[0])
    else RoleFromAttrs(attrs[1..])
  }

  function DetectRole(m: Mailbox, rel: string, nameRole: string -> Role): Role {
    if NamesInbox(m.name) then Inbox
    else if RoleFromAttrs(m.attrs) != NoRole then RoleFromAttrs(m.attrs)
    else nameRole(Lower(rel))
  }

  predicate Virtual(r: Role) { r.AllMail? || r.Flagged? || r.Important? }

  /* ---------- from one hierarchy to another ---------- */

  function Translate(rel: string, src: Delim, dst: Delim): Option<string> {
    if dst.None? then Some(rel)
    else if src.None? then if dst.value in rel then None else Some(rel)
    else if src == dst then Some(rel)
    else if exists i :: 0 <= i < |Split(rel, src.value)| && dst.value in Split(rel, src.value)[i] then None
    else
      JoiningInvertsSplit(rel, src.value);
      Some(Joined(Split(rel, src.value), dst.value))
  }

  /** The levels of a name; without a separator it is all one level. */
  function Levels(name: string, d: Delim): seq<string> {
    if d.None? then [name] else Split(name, d.value)
  }

  /**
   Where the destination has a separator, a name that can be carried over keeps
   its levels, and it can be exactly when no level holds that separator.
   */
  lemma TranslateKeepsLevels(rel: string, src: Delim, dst: Delim)
    requires dst.Some?
    ensures Translate(rel, src, dst).Some? <==> src == dst || forall i :: 0 <= i < |Levels(rel, src)| ==>
      dst.value !in Levels(rel, src)[i]
    ensures Translate(rel, src, dst).Some? ==> Levels(Translate(rel, src, dst).value, dst) == Levels(rel, src)
  {
    if src.None? {
      assert Levels(rel, src)[0] == rel;
      if dst.value !in rel {
        OnePiece(rel, dst.value);
      }
    } else if src != dst {
      var parts := Split(rel, src.value);
      JoiningInvertsSplit(rel, src.value);
      assert Levels(rel, src) == parts;
      if forall i :: 0 <= i < |parts| ==> dst.value !in parts[i] {
        SplitInvertsJoining(parts, dst.value);
      } else {
        var i :| 0 <= i < |parts| && dst.value in parts[i];
        assert dst.value in Split(rel, src.value)[i];
      }
    }
  }

  /** Two names are never carried over to one. */
  lemma TranslateIsInjective(a: string, b: string, src: Delim, dst: Delim)
    requires Translate(a, src, dst).Some? && Translate(a, src, dst) == Translate(b, src, dst)
    ensures a == b
  {
    if dst.Some? {
      TranslateKeepsLevels(a, src, dst);
      TranslateKeepsLevels(b, src, dst);
      if src.Some? {
        JoiningInvertsSplit(a, src.value);
        JoiningInvertsSplit(b, src.value);
      }
    }
  }

  function WithSubfolder(name: string, opts: Options): string {
    if opts.subfolder == "" then name
    else opts.subfolder + [if opts.dstDelim.None? then '/' else opts.dstDelim.value] + name
  }

  function DestinationFor(name: string, rel: string, role: Role, opts: Options,
      destByRole: map<Role, string>): Option<string> {
    if name in opts.mappings then Some(WithSubfolder(opts.mappings[name], opts))
    else if role.Inbox? then Some(WithSubfolder("INBOX", opts))
    else if opts.automap && !role.NoRole? && role in destByRole then Some(WithSubfolder(destByRole[role], opts))
    else
      var t := Translate(rel, opts.srcDelim, opts.dstDelim);
      if t.None? then None else Some(WithSubfolder(opts.dstPrefix + t.value, opts))
  }

  function SkipReason(m: Mailbox, role: Role, opts: Options): Option<Reason> {
    if !m.selectable then Some(NotSelectable)
    else if Virtual(role) && !opts.includeVirtual then Some(IsVirtual)
    else if !opts.wanted(m.name) then Some(ByRequest)
    else None
  }

  /* ---------- which mailbox serves a role ---------- */

  /** The mailbox could serve the role; `marked` when the server says so itself. */
  predicate Serves(m: Mailbox, role: Role, marked: bool, prefix: string, nameRole: string -> Role) {
    m.selectable && !role.NoRole? && !role.Inbox? && DetectRole(m, StripPrefix(m.name, prefix), nameRole) == role &&
    (marked <==> RoleFromAttrs(m.attrs) == role)
  }

  /** The server's own mark outranks a name, and of equals the first in order wins. */
  predicate Outranks(marked: bool, name: string, marked': bool, name': string) {
    (marked && !marked') || (marked == marked' && Less(name, name'))
  }

  /** `name` is the best that some mailbox offers for the role. */
  ghost predicate BestFor(ms: seq<Mailbox>, role: Role, prefix: string, nameRole: string -> Role, name: string,
      marked: bool) {
    (exists m :: m in ms && m.name == name && Serves(m, role, marked, prefix, nameRole)) &&
    forall m, k :: m in ms && Serves(m, role, k, prefix, nameRole) ==> !Outranks(k, m.name, marked, name)
  }

  ghost predicate RolesAre(byRole: map<Role, string>, ms: seq<Mailbox>, prefix: string, nameRole: string -> Role) {
    (forall r :: r in byRole <==> exists m, k :: m in ms && Serves(m, r, k, prefix, nameRole)) &&
    (forall r :: r in byRole ==> exists k :: BestFor(ms, r, prefix, nameRole, byRole[r], k))
  }

  lemma OutranksIsTotal(marked: bool, name: string, marked': bool, name': string)
    requires !Outranks(marked, name, marked', name') && !Outranks(marked', name', marked, name)
    ensures marked == marked' && name == name'
  {
    LessIsTotal(name, name');
  }

  lemma BestIsOne(ms: seq<Mailbox>, ns: seq<Mailbox>, role: Role, prefix: string, nameRole: string -> Role,
                  a: string, k: bool, b: string, l: bool)
    requires forall m :: m in ms <==> m in ns
    requires BestFor(ms, role, prefix, nameRole, a, k) && BestFor(ns, role, prefix, nameRole, b, l)
    ensures a == b && k == l
  {
    hide Serves;
    var m :| m in ms && m.name == a && Serves(m, role, k, prefix, nameRole);
    var n :| n in ns && n.name == b && Serves(n, role, l, prefix, nameRole);
    OutranksIsTotal(k, a, l, b);
  }

  /** The answer does not depend on the order in which the mailboxes were listed. */
  lemma RolesIgnoreOrder(a: map<Role, string>, b: map<Role, string>, ms: seq<Mailbox>, ns: seq<Mailbox>, prefix: string,
      nameRole: string -> Role)
    requires (forall m :: m in ms <==> m in ns) && RolesAre(a, ms, prefix, nameRole) &&
      RolesAre(b, ns, prefix, nameRole)
    ensures a == b
  {
    hide Serves;
    forall r | r in a
      ensures r in b && a[r] == b[r]
    {
      assert r in b;
      var k :| BestFor(ms, r, prefix, nameRole, a[r], k);
      var l :| BestFor(ns, r, prefix, nameRole, b[r], l);
      BestIsOne(ms, ns, r, prefix, nameRole, a[r], k, b[r], l);
    }
    assert forall r :: r in b ==> r in a;
  }

  method RolesOf(ms: seq<Mailbox>, prefix: string, nameRole: string -> Role) returns (byRole: map<Role, string>)
    ensures RolesAre(byRole, ms, prefix, nameRole)
  {
    byRole := map[];
    var marked: map<Role, bool> := map[];
    for i := 0 to |ms|
      invariant RolesSoFar(byRole, marked, ms[..i], prefix, nameRole)
    {
      hide RolesSoFar, Less, DetectRole, RoleFromAttrs;
      var m := ms[i];
      assert ms[..i + 1] == ms[..i] + [m];
      var role := DetectRole(m, StripPrefix(m.name, prefix), nameRole);
      if !m.selectable || role.NoRole? || role.Inbox? {
        ServesNothing(byRole, marked, ms[..i], prefix, nameRole, m);
        continue;
      }
      var fromAttr := RoleFromAttrs(m.attrs) == role;
      SameRoles(byRole, marked, ms[..i], prefix, nameRole);
      if role in byRole && ((marked[role] && !fromAttr) || (marked[role] == fromAttr && Less(byRole[role], m.name))) {
        ServesWorse(byRole, marked, ms[..i], prefix, nameRole, m, role, fromAttr);
        continue;
      }
      ServesBetter(byRole, marked, ms[..i], prefix, nameRole, m, role, fromAttr);
      byRole, marked := byRole[role := m.name], marked[role := fromAttr];
    }
    assert ms[..|ms|] == ms;
  }

  ghost predicate RolesSoFar(byRole: map<Role, string>, marked: map<Role, bool>, ms: seq<Mailbox>, prefix: string,
      nameRole: string -> Role) {
    byRole.Keys == marked.Keys &&
    (forall m, r, k :: m in ms && Serves(m, r, k, prefix, nameRole) ==> r in byRole) &&
    (forall r :: r in byRole ==> BestFor(ms, r, prefix, nameRole, byRole[r], marked[r]))
  }

  lemma SameRoles(byRole: map<Role, string>, marked: map<Role, bool>, ms: seq<Mailbox>, prefix: string,
      nameRole: string -> Role)
    requires RolesSoFar(byRole, marked, ms, prefix, nameRole)
    ensures byRole.Keys == marked.Keys
  {
  }

  lemma BestStays(ms: seq<Mailbox>, m: Mailbox, role: Role, prefix: string, nameRole: string -> Role, name: string,
      marked: bool)
    requires BestFor(ms, role, prefix, nameRole, name, marked)
    requires forall k :: Serves(m, role, k, prefix, nameRole) ==> !Outranks(k, m.name, marked, name)
    ensures BestFor(ms + [m], role, prefix, nameRole, name, marked)
  {
    hide Serves, Outranks;
    var n :| n in ms && n.name == name && Serves(n, role, marked, prefix, nameRole);
    assert n in ms + [m];
  }

  lemma ServesNothing(byRole: map<Role, string>, marked: map<Role, bool>, ms: seq<Mailbox>, prefix: string,
      nameRole: string -> Role, m: Mailbox)
    requires RolesSoFar(byRole, marked, ms, prefix, nameRole) && forall r, k :: !Serves(m, r, k, prefix, nameRole)
    ensures RolesSoFar(byRole, marked, ms + [m], prefix, nameRole)
  {
    hide Serves, Outranks, BestFor;
    forall r | r in byRole
      ensures BestFor(ms + [m], r, prefix, nameRole, byRole[r], marked[r])
    {
      BestStays(ms, m, r, prefix, nameRole, byRole[r], marked[r]);
    }
  }

  lemma ServesWorse(byRole: map<Role, string>, marked: map<Role, bool>, ms: seq<Mailbox>, prefix: string,
      nameRole: string -> Role, m: Mailbox, role: Role, fromAttr: bool)
    requires RolesSoFar(byRole, marked, ms, prefix, nameRole) && role in byRole
    requires forall r, k :: Serves(m, r, k, prefix, nameRole) <==> r == role && k == fromAttr
    requires Outranks(marked[role], byRole[role], fromAttr, m.name)
    ensures RolesSoFar(byRole, marked, ms + [m], prefix, nameRole)
  {
    LessIsTotal(m.name, byRole[role]);
    hide Serves, BestFor;
    forall r | r in byRole
      ensures BestFor(ms + [m], r, prefix, nameRole, byRole[r], marked[r])
    {
      BestStays(ms, m, r, prefix, nameRole, byRole[r], marked[r]);
    }
  }

  lemma ServesBetter(byRole: map<Role, string>, marked: map<Role, bool>, ms: seq<Mailbox>, prefix: string,
      nameRole: string -> Role, m: Mailbox, role: Role, fromAttr: bool)
    requires RolesSoFar(byRole, marked, ms, prefix, nameRole)
    requires forall r, k :: Serves(m, r, k, prefix, nameRole) <==> r == role && k == fromAttr
    requires role in byRole ==> !Outranks(marked[role], byRole[role], fromAttr, m.name)
    ensures RolesSoFar(byRole[role := m.name], marked[role := fromAttr], ms + [m], prefix, nameRole)
  {
    hide Serves, BestFor, Outranks;
    BestArrives(byRole, marked, ms, prefix, nameRole, m, role, fromAttr);
    forall r | r in byRole && r != role
      ensures BestFor(ms + [m], r, prefix, nameRole, byRole[r], marked[r])
    {
      BestStays(ms, m, r, prefix, nameRole, byRole[r], marked[r]);
    }
  }

  lemma BestArrives(byRole: map<Role, string>, marked: map<Role, bool>, ms: seq<Mailbox>, prefix: string,
      nameRole: string -> Role, m: Mailbox, role: Role, fromAttr: bool)
    requires RolesSoFar(byRole, marked, ms, prefix, nameRole)
    requires forall r, k :: Serves(m, r, k, prefix, nameRole) <==> r == role && k == fromAttr
    requires role in byRole ==> !Outranks(marked[role], byRole[role], fromAttr, m.name)
    ensures BestFor(ms + [m], role, prefix, nameRole, m.name, fromAttr)
  {
    hide Serves;
    assert m in ms + [m];
    LessIsTotal(m.name, m.name);
    forall n, k | n in ms + [m] && Serves(n, role, k, prefix, nameRole)
      ensures !Outranks(k, n.name, fromAttr, m.name)
    {
      if n in ms {
        assert BestFor(ms, role, prefix, nameRole, byRole[role], marked[role]);
        NotOutranked(k, n.name, marked[role], byRole[role], fromAttr, m.name);
      }
    }
  }

  /** What does not outrank the best so far does not outrank what the best so far does not outrank either. */
  lemma NotOutranked(a: bool, n: string, b: bool, m: string, c: bool, o: string)
    requires !Outranks(a, n, b, m) && !Outranks(b, m, c, o)
    ensures !Outranks(a, n, c, o)
  {
    LessIsTotal(n, m);
    LessIsTotal(m, o);
    LessIsTotal(n, o);
    if Less(o, m) && Less(n, o) {
      LessIsTransitive(n, o, m);
    }
  }

  /* ---------- what has to be created, and in which order ---------- */

  function Depth(name: string, d: Delim): nat {
    if d.None? then 0
    else
      JoiningInvertsSplit(name, d.value);
      |Split(name, d.value)| - 1
  }

  /** The mailbox `k` levels down that `name` lies in. */
  function Ancestor(name: string, d: char, k: nat): string
    requires 0 < k < |Split(name, d)|
  {
    Joined(Split(name, d)[..k], d)
  }

  /** Shallower first, and of one depth by name. */
  predicate Earlier(a: string, b: string, d: Delim) {
    Depth(a, d) < Depth(b, d) || (Depth(a, d) == Depth(b, d) && Less(a, b))
  }

  predicate InOrder(names: seq<string>, d: Delim) {
    forall i, j :: 0 <= i < j < |names| ==> Earlier(names[i], names[j], d)
  }

  /** A destination to create, or an ancestor of one that is not there either. */
  ghost predicate Needed(pairs: seq<Pair>, existing: set<string>, d: Delim, name: string) {
    (exists p :: p in pairs && p.createDest && p.dest == name) ||
    (d.Some? && name != "" && FoldName(name) !in existing &&
     exists p, k :: p in pairs && p.createDest && IsAncestor(p.dest, d.value, k, name))
  }

  predicate IsAncestor(name: string, d: char, k: nat, ancestor: string) {
    0 < k < |Split(name, d)| && ancestor == Ancestor(name, d, k)
  }

  lemma AncestorDepth(name: string, d: char, k: nat)
    requires 0 < k < |Split(name, d)|
    ensures Split(Ancestor(name, d, k), d) == Split(name, d)[..k]
    ensures Depth(Ancestor(name, d, k), Some(d)) < Depth(name, Some(d))
  {
    JoiningInvertsSplit(name, d);
    SplitInvertsJoining(Split(name, d)[..k], d);
  }

  lemma EarlierIsTotal(a: string, b: string, d: Delim)
    ensures a != b ==> Earlier(a, b, d) || Earlier(b, a, d)
    ensures !(Earlier(a, b, d) && Earlier(b, a, d)) && !Earlier(a, a, d)
  {
    LessIsTotal(a, b);
    LessIsTotal(a, a);
  }

  lemma EarlierIsTransitive(a: string, b: string, c: string, d: Delim)
    requires Earlier(a, b, d) && Earlier(b, c, d)
    ensures Earlier(a, c, d)
  {
    if Less(a, b) && Less(b, c) {
      LessIsTransitive(a, b, c);
    }
  }

  method InsertInOrder(names: seq<string>, name: string, d: Delim) returns (r: seq<string>)
    requires InOrder(names, d) && name !in names
    ensures InOrder(r, d) && forall x :: x in r <==> x in names || x == name
  {
    hide Earlier;
    var i := 0;
    while i < |names| && Earlier(names[i], name, d)
      invariant i <= |names| && forall k :: 0 <= k < i ==> Earlier(names[k], name, d)
    {
      i := i + 1;
    }
    r := names[..i] + [name] + names[i..];
    assert names == names[..i] + names[i..];
    LaterOnes(names, i, name, d);
    PlacedInOrder(names, i, name, d);
  }

  lemma LaterOnes(names: seq<string>, i: nat, name: string, d: Delim)
    requires InOrder(names, d) && name !in names && i <= |names| && (i < |names| ==> !Earlier(names[i], name, d))
    ensures forall k :: i <= k < |names| ==> Earlier(name, names[k], d)
  {
    hide Earlier;
    forall k | i <= k < |names|
      ensures Earlier(name, names[k], d)
    {
      EarlierIsTotal(names[i], name, d);
      if k > i {
        EarlierIsTransitive(name, names[i], names[k], d);
      }
    }
  }

  lemma PlacedInOrder(names: seq<string>, i: nat, name: string, d: Delim)
    requires InOrder(names, d) && i <= |names|
    requires (forall k :: 0 <= k < i ==> Earlier(names[k], name, d)) && forall k :: i <= k < |names| ==>
      Earlier(name, names[k], d)
    ensures InOrder(names[..i] + [name] + names[i..], d)
  {
    hide Earlier;
    var r := names[..i] + [name] + names[i..];
    assert forall k :: 0 <= k < i ==> r[k] == names[k];
    assert r[i] == name;
    assert forall k :: i < k < |r| ==> r[k] == names[k - 1];
  }

  /** The destination of a pair to create and every ancestor of it that is missing. */
  method NeededFor(dest: string, existing: set<string>, d: Delim) returns (needed: set<string>)
    ensures forall n :: n in needed <==>
              n == dest || (d.Some? && n != "" && FoldName(n) !in existing &&
                exists k :: IsAncestor(dest, d.value, k, n))
  {
    needed := {dest};
    if d.None? {
      return;
    }
    hide Split;
    var parts := Split(dest, d.value);
    var i := 1;
    while i < |parts|
      invariant 1 <= i
      invariant forall n :: n in needed <==>
                  n == dest || (n != "" && FoldName(n) !in existing &&
                    exists k :: 0 < k < i && IsAncestor(dest, d.value, k, n))
    {
      var parent := Joined(parts[..i], d.value);
      assert IsAncestor(dest, d.value, i, parent);
      if parent != "" && FoldName(parent) !in existing {
        needed := needed + {parent};
      }
      i := i + 1;
    }
  }

  method CreateOrder(pairs: seq<Pair>, existing: set<string>, d: Delim) returns (out: seq<string>)
    ensures InOrder(out, d) && forall n :: n in out <==> Needed(pairs, existing, d, n)
  {
    hide IsAncestor, FoldName, Earlier;
    var needed: set<string> := {};
    for i := 0 to |pairs|
      invariant forall n :: n in needed <==> Needed(pairs[..i], existing, d, n)
    {
      assert pairs[..i + 1] == pairs[..i] + [pairs[i]];
      if pairs[i].createDest {
        var more := NeededFor(pairs[i].dest, existing, d);
        needed := needed + more;
        assert pairs[i] in pairs[..i + 1];
      }
      forall n
        ensures n in needed <==> Needed(pairs[..i + 1], existing, d, n)
      {
        NeededOneMore(pairs[..i], pairs[i], existing, d, n);
      }
    }
    assert pairs[..|pairs|] == pairs;
    out := [];
    var todo := needed;
    while todo != {}
      invariant todo <= needed && InOrder(out, d) && forall n :: n in out <==> n in needed && n !in todo
      decreases |todo|
    {
      var n :| n in todo;
      out := InsertInOrder(out, n, d);
      todo := todo - {n};
    }
  }

  lemma NeededOneMore(ps: seq<Pair>, p: Pair, existing: set<string>, d: Delim, n: string)
    ensures Needed(ps + [p], existing, d, n) <==>
            Needed(ps, existing, d, n) ||
            (p.createDest && (n == p.dest ||
              (d.Some? && n != "" && FoldName(n) !in existing && exists k :: IsAncestor(p.dest, d.value, k, n))))
  {
    hide IsAncestor, FoldName;
    var qs := ps + [p];
    assert p in qs && forall q :: q in qs <==> q in ps || q == p;
    if q :| q in ps && q.createDest && q.dest == n {
      assert q in qs;
    }
    if d.Some? {
      if q, k :| q in ps && q.createDest && IsAncestor(q.dest, d.value, k, n) && n != "" && FoldName(n) !in existing {
        assert q in qs;
      }
      if k :| IsAncestor(p.dest, d.value, k, n) && p.createDest && n != "" && FoldName(n) !in existing {
        assert p in qs;
      }
    }
  }

  lemma AncestorOfAncestor(name: string, d: char, m: nat, k: nat)
    requires 0 < m < |Split(name, d)| && 0 < k < m
    ensures |Split(Ancestor(name, d, m), d)| == m && Ancestor(Ancestor(name, d, m), d, k) == Ancestor(name, d, k)
  {
    AncestorDepth(name, d, m);
    assert Split(name, d)[..m][..k] == Split(name, d)[..k];
  }

  /** An ancestor of a needed mailbox, if it is missing, is needed as well. */
  lemma AncestorIsNeeded(pairs: seq<Pair>, existing: set<string>, d: char, name: string, k: nat)
    requires Needed(pairs, existing, Some(d), name) && 0 < k < |Split(name, d)|
    requires Ancestor(name, d, k) != "" && FoldName(Ancestor(name, d, k)) !in existing
    ensures Needed(pairs, existing, Some(d), Ancestor(name, d, k))
  {
    hide Split, FoldName;
    if p :| p in pairs && p.createDest && p.dest == name {
      assert IsAncestor(p.dest, d, k, Ancestor(name, d, k));
    } else {
      var p, m :| p in pairs && p.createDest && IsAncestor(p.dest, d, m, name);
      AncestorDepth(p.dest, d, m);
      AncestorOfAncestor(p.dest, d, m, k);
      assert IsAncestor(p.dest, d, k, Ancestor(name, d, k));
    }
  }

  /** Whatever is created comes after every ancestor of it that is missing, and all of those are created. */
  lemma ParentsFirst(pairs: seq<Pair>, existing: set<string>, d: char, out: seq<string>, j: nat, k: nat)
      returns (i: nat)
    requires InOrder(out, Some(d)) && forall n :: n in out <==> Needed(pairs, existing, Some(d), n)
    requires j < |out| && 0 < k < |Split(out[j], d)|
    requires Ancestor(out[j], d, k) != "" && FoldName(Ancestor(out[j], d, k)) !in existing
    ensures i < j && out[i] == Ancestor(out[j], d, k)
  {
    hide Split, Less, FoldName;
    var a := Ancestor(out[j], d, k);
    assert out[j] in out;
    AncestorIsNeeded(pairs, existing, d, out[j], k);
    AncestorDepth(out[j], d, k);
    i :| 0 <= i < |out| && out[i] == a;
    assert !Earlier(out[j], out[i], Some(d));
  }

  /* ---------- the plan ---------- */

  datatype Plan = Plan(pairs: seq<Pair>, skips: seq<Skip>, creates: seq<string>)

  function PairSources(ps: seq<Pair>): seq<string> {
    if ps == [] then [] else PairSources(ps[..|ps| - 1]) + [ps[|ps| - 1].source]
  }

  function SkipSources(ss: seq<Skip>): seq<string> {
    if ss == [] then [] else SkipSources(ss[..|ss| - 1]) + [ss[|ss| - 1].source]
  }

  function Names(ms: seq<Mailbox>): seq<string> {
    if ms == [] then [] else Names(ms[..|ms| - 1]) + [ms[|ms| - 1].name]
  }

  lemma SourcesOne(ps: seq<Pair>, p: Pair, ss: seq<Skip>, s: Skip, ms: seq<Mailbox>, m: Mailbox)
    ensures PairSources(ps + [p]) == PairSources(ps) + [p.source]
    ensures SkipSources(ss + [s]) == SkipSources(ss) + [s.source]
    ensures Names(ms + [m]) == Names(ms) + [m.name]
  {
    assert (ps + [p])[..|ps|] == ps && (ss + [s])[..|ss|] == ss && (ms + [m])[..|ms|] == ms;
  }

  /** Which sources go to each destination, however it is written. */
  ghost predicate ClaimsAre(claimed: map<string, seq<string>>, ps: seq<Pair>) {
    (forall i :: 0 <= i < |ps| ==> FoldName(ps[i].dest) in claimed) &&
    (forall k :: k in claimed ==> |claimed[k]| == |Going(ps, k)|)
  }

  /** The pairs that go to one destination. */
  function Going(ps: seq<Pair>, k: string): seq<nat> {
    if ps == [] then []
    else Going(ps[..|ps| - 1], k) + if FoldName(ps[|ps| - 1].dest) == k then [|ps| - 1] else []
  }

  lemma GoingOne(ps: seq<Pair>, p: Pair, k: string)
    ensures Going(ps + [p], k) == if FoldName(p.dest) == k then Going(ps, k) + [|ps|] else Going(ps, k)
  {
    assert (ps + [p])[..|ps|] == ps;
    assert Going(ps, k) + [] == Going(ps, k);
  }

  lemma {:induction false} GoingAre(ps: seq<Pair>, k: string)
    ensures forall i :: i in Going(ps, k) <==> 0 <= i < |ps| && FoldName(ps[i].dest) == k
    ensures forall a, b :: 0 <= a < b < |Going(ps, k)| ==> Going(ps, k)[a] < Going(ps, k)[b] < |ps|
  {
    if ps != [] {
      hide FoldName;
      var qs, p := ps[..|ps| - 1], ps[|ps| - 1];
      assert ps == qs + [p];
      GoingAre(qs, k);
      GoingOne(qs, p, k);
      hide Going;
      var before, now := Going(qs, k), Going(ps, k);
      forall a, b | 0 <= a < b < |now|
        ensures now[a] < now[b] < |ps|
      {
        assert now[a] == before[a] && before[a] in before;
      }
    }
  }

  /** No two pairs go to one destination. */
  predicate NoneMerged(ps: seq<Pair>) {
    forall i, j :: 0 <= i < j < |ps| ==> FoldName(ps[i].dest) != FoldName(ps[j].dest)
  }

  /** Two that go to one destination are merged, and one that goes there is among the pairs. */
  lemma GoingTogether(ps: seq<Pair>, k: string)
    ensures |Going(ps, k)| >= 2 ==> !NoneMerged(ps)
    ensures |Going(ps, k)| >= 1 ==> exists i :: 0 <= i < |ps| && FoldName(ps[i].dest) == k
  {
    hide FoldName, Going;
    GoingAre(ps, k);
    var g := Going(ps, k);
    if |g| >= 1 {
      assert g[0] in g;
      if |g| >= 2 {
        assert g[1] in g && g[0] < g[1];
        assert FoldName(ps[g[0]].dest) == FoldName(ps[g[1]].dest);
      }
    }
  }

  lemma FewGoMeansNoneMerged(ps: seq<Pair>)
    requires forall k :: |Going(ps, k)| <= 1
    ensures NoneMerged(ps)
  {
    hide FoldName, Going;
    forall i, j | 0 <= i < j < |ps|
      ensures FoldName(ps[i].dest) != FoldName(ps[j].dest)
    {
      var k := FoldName(ps[i].dest);
      var g := Going(ps, k);
      GoingAre(ps, k);
      assert |g| <= 1 && i in g && g == [i];
      assert j in g <==> FoldName(ps[j].dest) == k;
    }
  }

  /** Fails when two source mailboxes would be merged into one. */
  method CheckCollisions(claimed: map<string, seq<string>>) returns (ok: bool)
    ensures ok <==> forall k :: k in claimed ==> |claimed[k]| <= 1
  {
    var todo := claimed.Keys;
    ok := true;
    while todo != {}
      invariant todo <= claimed.Keys && (ok <==> forall k :: k in claimed && k !in todo ==> |claimed[k]| <= 1)
      decreases |todo|
    {
      var k :| k in todo;
      if |claimed[k]| > 1 {
        ok := false;
      }
      todo := todo - {k};
    }
  }

  lemma CollisionsAreMerges(claimed: map<string, seq<string>>, ps: seq<Pair>)
    requires ClaimsAre(claimed, ps)
    ensures (forall k :: k in claimed ==> |claimed[k]| <= 1) <==> NoneMerged(ps)
  {
    hide FoldName, Going, NoneMerged;
    forall k
      ensures |Going(ps, k)| == if k in claimed then |claimed[k]| else 0
      ensures |Going(ps, k)| >= 2 ==> !NoneMerged(ps)
    {
      GoingTogether(ps, k);
    }
    if forall k :: k in claimed ==> |claimed[k]| <= 1 {
      forall k
        ensures |Going(ps, k)| <= 1
      {
        assert k in claimed ==> |claimed[k]| <= 1;
      }
      FewGoMeansNoneMerged(ps);
    } else {
      var k :| k in claimed && |claimed[k]| > 1;
      assert |Going(ps, k)| >= 2;
    }
  }

  lemma ClaimOneMore(claimed: map<string, seq<string>>, ps: seq<Pair>, p: Pair)
    requires ClaimsAre(claimed, ps)
    ensures var k := FoldName(p.dest);
            ClaimsAre(claimed[k := (if k in claimed then claimed[k] else []) + [p.source]], ps + [p])
  {
    hide FoldName, Going;
    var k := FoldName(p.dest);
    var claimed' := claimed[k := (if k in claimed then claimed[k] else []) + [p.source]];
    var qs := ps + [p];
    assert forall i :: 0 <= i < |ps| ==> qs[i] == ps[i];
    GoingTogether(ps, k);
    forall l | l in claimed'
      ensures |claimed'[l]| == |Going(qs, l)|
    {
      GoingOne(ps, p, l);
    }
  }

  /* ---------- what becomes of one source mailbox ---------- */

  datatype Fate = Paired(pair: Pair) | Skipped(skip: Skip)

  /** A destination that exists keeps its own spelling, and only one that does not is to be created. */
  function FateOf(m: Mailbox, existing: map<string, string>, byRole: map<Role, string>, opts: Options): Fate {
    var rel := StripPrefix(m.name, opts.srcPrefix);
    var role := DetectRole(m, rel, opts.nameRole);
    var reason := SkipReason(m, role, opts);
    if reason.Some? then Skipped(Skip(m.name, reason.value))
    else
      var target := DestinationFor(m.name, rel, role, opts, byRole);
      if target.None? then Skipped(Skip(m.name, Untranslatable))
      else
        var k := FoldName(target.value);
        Paired(Pair(m.name, if k in existing then existing[k] else target.value, role, k !in existing))
  }

  /**
   Whether a name has somewhere to go: it is mapped, it serves a role, or no level of it holds the other
   separator.
   */
  predicate HasPlace(name: string, role: Role, opts: Options, byRole: map<Role, string>) {
    name in opts.mappings || role.Inbox? || (opts.automap && !role.NoRole? && role in byRole) ||
    opts.dstDelim.None? || opts.srcDelim == opts.dstDelim ||
    var levels := Levels(StripPrefix(name, opts.srcPrefix), opts.srcDelim);
    forall i :: 0 <= i < |levels| ==> opts.dstDelim.value !in levels[i]
  }

  /**
   A mailbox is paired exactly when it can be selected, is not a view the run does
   not want, is asked for, and has somewhere to go; otherwise the first of these
   that fails is why it is skipped.
   */
  lemma FateIs(m: Mailbox, existing: map<string, string>, byRole: map<Role, string>, opts: Options)
    ensures var role := DetectRole(m, StripPrefix(m.name, opts.srcPrefix), opts.nameRole);
            FateOf(m, existing, byRole, opts).Paired? <==>
            m.selectable && (role.AllMail? || role.Flagged? || role.Important? ==> opts.includeVirtual) &&
            opts.wanted(m.name) &&
            HasPlace(m.name, role, opts, byRole)
    ensures FateOf(m, existing, byRole, opts).Skipped? ==>
              var role := DetectRole(m, StripPrefix(m.name, opts.srcPrefix), opts.nameRole);
              FateOf(m, existing, byRole, opts).skip == Skip(m.name,
                if !m.selectable then NotSelectable
                else if (role.AllMail? || role.Flagged? || role.Important?) && !opts.includeVirtual then IsVirtual
                else if !opts.wanted(m.name) then ByRequest
                else Untranslatable)
  {
    var rel := StripPrefix(m.name, opts.srcPrefix);
    hide DetectRole, StripPrefix, Translate, Levels, FoldName, WithSubfolder;
    if opts.dstDelim.Some? {
      TranslateKeepsLevels(rel, opts.srcDelim, opts.dstDelim);
    } else {
      NoSeparatorNoTranslation(rel, opts.srcDelim);
    }
  }

  lemma NoSeparatorNoTranslation(rel: string, src: Delim)
    ensures Translate(rel, src, None) == Some(rel)
  {
  }

  /**
   Where a paired mailbox goes: to its place, under the subfolder, spelled as the destination spells it if it
   is there.
   */
  lemma PairGoes(m: Mailbox, existing: map<string, string>, byRole: map<Role, string>, opts: Options)
    requires FateOf(m, existing, byRole, opts).Paired?
    requires forall k :: k in existing ==> FoldName(existing[k]) == k
    ensures var rel := StripPrefix(m.name, opts.srcPrefix);
            var role := DetectRole(m, rel, opts.nameRole);
            var target := DestinationFor(m.name, rel, role, opts, byRole);
            var p := FateOf(m, existing, byRole, opts).pair;
            target.Some? && p.source == m.name && p.role == role && FoldName(p.dest) == FoldName(target.value) &&
            (p.createDest <==> FoldName(p.dest) !in existing) && (p.createDest ==> p.dest == target.value) &&
            (!p.createDest ==> p.dest in existing.Values)
  {
    hide DetectRole, StripPrefix, DestinationFor, FoldName;
  }

  /* ---------- where a pair leads, from its names alone ---------- */

  /** Two names of one mailbox: the same name, or both INBOX however they are written. */
  predicate SameMailbox(a: string, b: string) {
    a == b || (Lower(a) == "inbox" && Lower(b) == "inbox")
  }

  lemma FoldsTogetherIff(a: string, b: string)
    ensures FoldName(a) == FoldName(b) <==> SameMailbox(a, b)
  {
    assert Lower("INBOX") == "inbox";
  }

  /** `rel` is what is left of a name below a namespace; a name that is not below it is left whole. */
  predicate Below(name: string, prefix: string, rel: string) {
    if prefix < name then prefix + rel == name else rel == name
  }

  lemma StrippedIsBelow(name: string, prefix: string)
    ensures Below(name, prefix, StripPrefix(name, prefix))
  {
  }

  /** The mark a server puts on a mailbox that serves the role (section 2 of RFC 6154). */
  function MarkOf(role: Role): Option<string> {
    match role
    case AllMail => Some("\\All")
    case Archive => Some("\\Archive")
    case Drafts => Some("\\Drafts")
    case Flagged => Some("\\Flagged")
    case Important => Some("\\Important")
    case Junk => Some("\\Junk")
    case Sent => Some("\\Sent")
    case Trash => Some("\\Trash")
    case _ => None
  }

  /** Among the attributes of a mailbox this is the first that marks a role. */
  predicate FirstMark(attrs: seq<string>, role: Role) {
    exists i :: 0 <= i < |attrs| && MarkOf(role) == Some(attrs[i]) &&
      forall j :: 0 <= j < i ==> forall r :: MarkOf(r) != Some(attrs[j])
  }

  lemma MarksRole(attr: string, role: Role)
    ensures MarkOf(role) == Some(attr) ==> RoleOfAttr(attr) == role && !role.NoRole?
    ensures RoleOfAttr(attr) == role && !role.NoRole? ==> MarkOf(role) == Some(attr)
  {
  }

  lemma {:induction false} FirstMarkIsRole(attrs: seq<string>)
    ensures RoleFromAttrs(attrs).NoRole? ==> forall r :: !FirstMark(attrs, r)
    ensures !RoleFromAttrs(attrs).NoRole? ==> FirstMark(attrs, RoleFromAttrs(attrs))
  {
    if attrs != [] {
      var rest := attrs[1..];
      FirstMarkIsRole(rest);
      forall r
        ensures MarkOf(r) == Some(attrs[0]) <==> RoleOfAttr(attrs[0]) == r && !r.NoRole?
      {
        MarksRole(attrs[0], r);
      }
      hide RoleOfAttr, MarkOf;
      if RoleOfAttr(attrs[0]) == NoRole {
        forall r | FirstMark(attrs, r)
          ensures FirstMark(rest, r)
        {
          var i :| 0 <= i < |attrs| && MarkOf(r) == Some(attrs[i]) &&
            forall j :: 0 <= j < i ==> forall r :: MarkOf(r) != Some(attrs[j]);
          assert rest[i - 1] == attrs[i];
          assert forall j :: 0 <= j < i - 1 ==> rest[j] == attrs[j + 1];
        }
        var r := RoleFromAttrs(rest);
        if !r.NoRole? {
          var i :| 0 <= i < |rest| && MarkOf(r) == Some(rest[i]) &&
            forall j :: 0 <= j < i ==> forall r :: MarkOf(r) != Some(rest[j]);
          assert attrs[i + 1] == rest[i];
          assert forall j :: 1 <= j < i + 1 ==> attrs[j] == rest[j - 1];
        }
      }
    }
  }

  /** What a mailbox is for: INBOX by its name, then by the server's first mark, then by the table of names. */
  ghost predicate HasRole(m: Mailbox, rel: string, nameRole: string -> Role, role: Role) {
    if Lower(m.name) == "inbox" then role == Inbox
    else FirstMark(m.attrs, role) || ((forall r :: !FirstMark(m.attrs, r)) && role == nameRole(Lower(rel)))
  }

  lemma DetectedIsRole(m: Mailbox, rel: string, nameRole: string -> Role)
    ensures HasRole(m, rel, nameRole, DetectRole(m, rel, nameRole))
  {
    FirstMarkIsRole(m.attrs);
    hide RoleFromAttrs, FirstMark;
  }

  /** No two marks are both the first. */
  lemma OneFirstMark(attrs: seq<string>, r: Role, s: Role)
    requires FirstMark(attrs, r) && FirstMark(attrs, s)
    ensures r == s
  {
    var i :| 0 <= i < |attrs| && MarkOf(r) == Some(attrs[i]) &&
      forall j :: 0 <= j < i ==> forall q :: MarkOf(q) != Some(attrs[j]);
    var k :| 0 <= k < |attrs| && MarkOf(s) == Some(attrs[k]) &&
      forall j :: 0 <= j < k ==> forall q :: MarkOf(q) != Some(attrs[j]);
    assert i == k;
    MarksRole(attrs[i], r);
    MarksRole(attrs[i], s);
  }

  /** A mailbox that can serve a role: it can be selected, and that is what it is for. */
  ghost predicate CanServe(m: Mailbox, role: Role, prefix: string, nameRole: string -> Role) {
    m.selectable && !role.NoRole? && !role.Inbox? &&
    exists rel :: Below(m.name, prefix, rel) && HasRole(m, rel, nameRole, role)
  }

  lemma ServesIff(m: Mailbox, role: Role, prefix: string, nameRole: string -> Role)
    ensures CanServe(m, role, prefix, nameRole) <==> Serves(m, role, FirstMark(m.attrs, role), prefix, nameRole)
    ensures forall k :: Serves(m, role, k, prefix, nameRole) ==> (k <==> FirstMark(m.attrs, role))
  {
    var rel := StripPrefix(m.name, prefix);
    StrippedIsBelow(m.name, prefix);
    FirstMarkIsRole(m.attrs);
    assert FirstMark(m.attrs, role) && !role.NoRole? ==> RoleFromAttrs(m.attrs) == role by {
      if FirstMark(m.attrs, role) && !RoleFromAttrs(m.attrs).NoRole? {
        OneFirstMark(m.attrs, role, RoleFromAttrs(m.attrs));
      }
    }
    assert forall other :: Below(m.name, prefix, other) ==> other == rel;
    hide FirstMark, RoleFromAttrs, StripPrefix, Below;
  }

  /**
   The mailbox chosen for a role is one that can serve it; one the server marks so if
   any is marked; and of those alike in that, the first by name.
   */
  lemma RolesMean(byRole: map<Role, string>, ms: seq<Mailbox>, prefix: string, nameRole: string -> Role, role: Role)
    requires RolesAre(byRole, ms, prefix, nameRole)
    ensures role in byRole <==> exists m :: m in ms && CanServe(m, role, prefix, nameRole)
    ensures role in byRole ==>
              exists m :: m in ms && CanServe(m, role, prefix, nameRole) && m.name == byRole[role] &&
                forall n :: n in ms && CanServe(n, role, prefix, nameRole) ==>
                  if FirstMark(m.attrs, role) then FirstMark(n.attrs, role) ==> !Less(n.name, m.name)
                  else !FirstMark(n.attrs, role) && !Less(n.name, m.name)
  {
    hide Serves, CanServe, FirstMark, BestFor;
    if role in byRole {
      var k :| BestFor(ms, role, prefix, nameRole, byRole[role], k);
      BestMeans(ms, role, prefix, nameRole, byRole[role], k);
    }
    if m :| m in ms && CanServe(m, role, prefix, nameRole) {
      ServesIff(m, role, prefix, nameRole);
    }
  }

  lemma BestMeans(ms: seq<Mailbox>, role: Role, prefix: string, nameRole: string -> Role, name: string, k: bool)
    requires BestFor(ms, role, prefix, nameRole, name, k)
    ensures exists m :: m in ms && CanServe(m, role, prefix, nameRole) && m.name == name &&
              forall n :: n in ms && CanServe(n, role, prefix, nameRole) ==>
                if FirstMark(m.attrs, role) then FirstMark(n.attrs, role) ==> !Less(n.name, m.name)
                else !FirstMark(n.attrs, role) && !Less(n.name, m.name)
  {
    hide Serves, CanServe, FirstMark, Less;
    var m :| m in ms && m.name == name && Serves(m, role, k, prefix, nameRole);
    ServesIff(m, role, prefix, nameRole);
    forall n | n in ms && CanServe(n, role, prefix, nameRole)
      ensures if FirstMark(m.attrs, role) then FirstMark(n.attrs, role) ==> !Less(n.name, m.name)
              else !FirstMark(n.attrs, role) && !Less(n.name, m.name)
    {
      ServesIff(n, role, prefix, nameRole);
      assert !Outranks(FirstMark(n.attrs, role), n.name, k, name);
    }
  }

  /**
   The name a mailbox has on the destination, the subfolder aside: the one it is
   mapped to; INBOX; the name of the mailbox that serves its role there; or its own
   levels below the destination's namespace.
   */
  ghost predicate HasBase(name: string, rel: string, role: Role, byRole: map<Role, string>, opts: Options,
      base: string) {
    if name in opts.mappings then base == opts.mappings[name]
    else if role.Inbox? then base == "INBOX"
    else if opts.automap && !role.NoRole? && role in byRole then base == byRole[role]
    else
      exists t :: base == opts.dstPrefix + t &&
        if opts.dstDelim.None? then t == rel else Levels(t, opts.dstDelim) == Levels(rel, opts.srcDelim)
  }

  /** A name nested under the subfolder has the subfolder's levels and then its own. */
  predicate Nested(base: string, opts: Options, target: string) {
    if opts.subfolder == "" then target == base
    else
      var c := if opts.dstDelim.None? then '/' else opts.dstDelim.value;
      Split(target, c) == Split(opts.subfolder, c) + Split(base, c)
  }

  lemma SubfolderNests(base: string, opts: Options)
    ensures Nested(base, opts, WithSubfolder(base, opts))
  {
    SplitOfTwo(opts.subfolder, if opts.dstDelim.None? then '/' else opts.dstDelim.value, base);
  }

  /** Levels determine a name, so a base is nested in one place. */
  lemma NestedIsOne(base: string, opts: Options, a: string, b: string)
    requires Nested(base, opts, a) && Nested(base, opts, b)
    ensures a == b
  {
    if opts.subfolder != "" {
      var c := if opts.dstDelim.None? then '/' else opts.dstDelim.value;
      JoiningInvertsSplit(a, c);
      JoiningInvertsSplit(b, c);
    }
  }

  /**
   Where a pair leads: from a mailbox below the source's namespace, by its role, to
   its base under the subfolder; spelled as the destination spells it if it has that
   mailbox, and to be created if it does not.
   */
  ghost predicate Leads(m: Mailbox, p: Pair, dest: seq<Mailbox>, byRole: map<Role, string>, opts: Options) {
    p.source == m.name &&
    exists rel, base, target ::
      Below(m.name, opts.srcPrefix, rel) && HasRole(m, rel, opts.nameRole, p.role) &&
      HasBase(m.name, rel, p.role, byRole, opts, base) && Nested(base, opts, target) &&
      if exists n :: n in dest && SameMailbox(n.name, target)
      then !p.createDest && SameMailbox(p.dest, target) && exists n :: n in dest && n.name == p.dest
      else p.createDest && p.dest == target
  }

  lemma DestinationHasBase(name: string, rel: string, role: Role, opts: Options, byRole: map<Role, string>)
    returns (base: string)
    requires DestinationFor(name, rel, role, opts, byRole).Some?
    ensures HasBase(name, rel, role, byRole, opts, base)
    ensures Nested(base, opts, DestinationFor(name, rel, role, opts, byRole).value)
  {
    var t := Translate(rel, opts.srcDelim, opts.dstDelim);
    base := if name in opts.mappings then opts.mappings[name]
            else if role.Inbox? then "INBOX"
            else if opts.automap && !role.NoRole? && role in byRole then byRole[role]
            else opts.dstPrefix + t.value;
    hide Levels, Split, Nested, WithSubfolder;
    SubfolderNests(base, opts);
    if opts.dstDelim.Some? {
      TranslateKeepsLevels(rel, opts.srcDelim, opts.dstDelim);
    } else {
      NoSeparatorNoTranslation(rel, opts.srcDelim);
    }
    hide Translate;
  }

  /** Every pair leads where its names say. */
  lemma PairLeads(m: Mailbox, dest: seq<Mailbox>, byRole: map<Role, string>, opts: Options)
    requires FateOf(m, ExistingOf(dest), byRole, opts).Paired?
    ensures Leads(m, FateOf(m, ExistingOf(dest), byRole, opts).pair, dest, byRole, opts)
  {
    var existing := ExistingOf(dest);
    ExistingAre(dest);
    PairGoes(m, existing, byRole, opts);
    hide FateOf, ExistingOf, DestinationFor, StripPrefix, DetectRole, SkipReason, FoldName;
    var rel := StripPrefix(m.name, opts.srcPrefix);
    var role := DetectRole(m, rel, opts.nameRole);
    var p, target := FateOf(m, existing, byRole, opts).pair, DestinationFor(m.name, rel, role, opts, byRole).value;
    StrippedIsBelow(m.name, opts.srcPrefix);
    DetectedIsRole(m, rel, opts.nameRole);
    var base := DestinationHasBase(m.name, rel, role, opts, byRole);
    hide Below, HasRole, HasBase, Nested, SameMailbox;
    FoldsTogetherIff(p.dest, target);
    forall n | n in dest
      ensures SameMailbox(n.name, target) <==> FoldName(n.name) == FoldName(target)
    {
      FoldsTogetherIff(n.name, target);
    }
    assert (exists n :: n in dest && SameMailbox(n.name, target)) <==> FoldName(target) in existing;
  }

  /** And no two lead to one mailbox. */
  lemma NoneMergedIff(ps: seq<Pair>)
    ensures NoneMerged(ps) <==> forall i, j :: 0 <= i < j < |ps| ==> !SameMailbox(ps[i].dest, ps[j].dest)
  {
    hide FoldName, SameMailbox;
    forall i, j | 0 <= i < j < |ps|
      ensures FoldName(ps[i].dest) == FoldName(ps[j].dest) <==> SameMailbox(ps[i].dest, ps[j].dest)
    {
      FoldsTogetherIff(ps[i].dest, ps[j].dest);
    }
  }

  /**
   The destination does not have this mailbox, and it is one that a pair needs, or lies
   above one: its levels are the first of that one's.
   */
  ghost predicate IsMissing(pairs: seq<Pair>, dest: seq<Mailbox>, d: Delim, name: string) {
    (forall m :: m in dest ==> !SameMailbox(m.name, name)) &&
    exists p :: p in pairs && p.createDest &&
      (name == p.dest || (d.Some? && name != "" && Split(name, d.value) < Split(p.dest, d.value)))
  }

  lemma AboveIff(name: string, c: char, above: string)
    ensures (exists k :: IsAncestor(name, c, k, above)) <==> Split(above, c) < Split(name, c)
  {
    JoiningInvertsSplit(above, c);
    if k :| IsAncestor(name, c, k, above) {
      AncestorDepth(name, c, k);
    }
    if Split(above, c) < Split(name, c) {
      var k := |Split(above, c)|;
      assert Split(name, c)[..k] == Split(above, c);
      assert IsAncestor(name, c, k, above);
    }
  }

  lemma ExistsIff(dest: seq<Mailbox>, name: string)
    ensures FoldName(name) in ExistingOf(dest) <==> exists m :: m in dest && SameMailbox(m.name, name)
  {
    ExistingAre(dest);
    hide FoldName, SameMailbox, ExistingOf;
    forall m | m in dest
      ensures SameMailbox(m.name, name) <==> FoldName(m.name) == FoldName(name)
    {
      FoldsTogetherIff(m.name, name);
    }
  }

  lemma NeededIff(pairs: seq<Pair>, dest: seq<Mailbox>, d: Delim, name: string)
    requires forall p :: p in pairs && p.createDest ==> FoldName(p.dest) !in ExistingOf(dest)
    ensures Needed(pairs, ExistingOf(dest).Keys, d, name) <==> IsMissing(pairs, dest, d, name)
  {
    ExistsIff(dest, name);
    hide FoldName, SameMailbox, ExistingOf, IsAncestor, Split;
    if d.Some? {
      forall p | p in pairs
        ensures (exists k :: IsAncestor(p.dest, d.value, k, name)) <==> Split(name, d.value) < Split(p.dest, d.value)
      {
        AboveIff(p.dest, d.value, name);
      }
    }
  }

  /** What is created is exactly what is missing, by how many levels a name has and then by name. */
  lemma CreatesMean(source: seq<Mailbox>, dest: seq<Mailbox>, byRole: map<Role, string>, opts: Options,
      creates: seq<string>)
    requires var pairs := PairsOf(source, ExistingOf(dest), byRole, opts);
             InOrder(creates, opts.dstDelim) &&
             forall n :: n in creates <==> Needed(pairs, ExistingOf(dest).Keys, opts.dstDelim, n)
    ensures var pairs := PairsOf(source, ExistingOf(dest), byRole, opts);
            forall n :: n in creates <==> IsMissing(pairs, dest, opts.dstDelim, n)
    ensures forall i, j :: 0 <= i < j < |creates| ==>
              var a, b := |Levels(creates[i], opts.dstDelim)|, |Levels(creates[j], opts.dstDelim)|;
              a < b || (a == b && Less(creates[i], creates[j]))
  {
    var pairs := PairsOf(source, ExistingOf(dest), byRole, opts);
    PairsAre(source, ExistingOf(dest), byRole, opts);
    ExistingAre(dest);
    hide FoldName, ExistingOf, PairsOf, Needed, IsMissing, Split, Less;
    forall p | p in pairs && p.createDest
      ensures FoldName(p.dest) !in ExistingOf(dest)
    {
      var m :| m in source && FateOf(m, ExistingOf(dest), byRole, opts) == Paired(p);
      PairGoes(m, ExistingOf(dest), byRole, opts);
    }
    hide FateOf;
    forall n
      ensures Needed(pairs, ExistingOf(dest).Keys, opts.dstDelim, n) <==> IsMissing(pairs, dest, opts.dstDelim, n)
    {
      NeededIff(pairs, dest, opts.dstDelim, n);
    }
  }

  /** Each pair of a plan comes of a source mailbox and leads where that mailbox belongs. */
  lemma AllLead(source: seq<Mailbox>, dest: seq<Mailbox>, byRole: map<Role, string>, opts: Options)
    ensures forall p :: p in PairsOf(source, ExistingOf(dest), byRole, opts) ==>
                          exists m :: m in source && Leads(m, p, dest, byRole, opts)
  {
    hide FateOf, Leads;
    PairsAre(source, ExistingOf(dest), byRole, opts);
    forall p | p in PairsOf(source, ExistingOf(dest), byRole, opts)
      ensures exists m :: m in source && Leads(m, p, dest, byRole, opts)
    {
      var m :| m in source && FateOf(m, ExistingOf(dest), byRole, opts) == Paired(p);
      PairLeads(m, dest, byRole, opts);
    }
  }

  function PairsOf(ms: seq<Mailbox>, existing: map<string, string>, byRole: map<Role, string>,
      opts: Options): seq<Pair> {
    if ms == [] then []
    else
      var n := |ms| - 1;
      var fate := FateOf(ms[n], existing, byRole, opts);
      PairsOf(ms[..n], existing, byRole, opts) + if fate.Paired? then [fate.pair] else []
  }

  function SkipsOf(ms: seq<Mailbox>, existing: map<string, string>, byRole: map<Role, string>,
      opts: Options): seq<Skip> {
    if ms == [] then []
    else
      var n := |ms| - 1;
      var fate := FateOf(ms[n], existing, byRole, opts);
      SkipsOf(ms[..n], existing, byRole, opts) + if fate.Skipped? then [fate.skip] else []
  }

  /** The pairs are those whose fate it is. */
  lemma {:induction false} PairsAre(ms: seq<Mailbox>, existing: map<string, string>, byRole: map<Role, string>,
      opts: Options)
    ensures forall p :: p in PairsOf(ms, existing, byRole, opts) <==>
              exists m :: m in ms && FateOf(m, existing, byRole, opts) == Paired(p)
  {
    hide FateOf;
    if ms != [] {
      var n := |ms| - 1;
      assert ms == ms[..n] + [ms[n]];
      PairsAre(ms[..n], existing, byRole, opts);
    }
  }

  /** And so are the skips. */
  lemma {:induction false} SkipsAre(ms: seq<Mailbox>, existing: map<string, string>, byRole: map<Role, string>,
      opts: Options)
    ensures forall s :: s in SkipsOf(ms, existing, byRole, opts) <==>
              exists m :: m in ms && FateOf(m, existing, byRole, opts) == Skipped(s)
  {
    hide FateOf;
    if ms != [] {
      var n := |ms| - 1;
      assert ms == ms[..n] + [ms[n]];
      SkipsAre(ms[..n], existing, byRole, opts);
    }
  }

  predicate Accounts(ps: seq<Pair>, ss: seq<Skip>, ms: seq<Mailbox>) {
    multiset(PairSources(ps)) + multiset(SkipSources(ss)) == multiset(Names(ms))
  }

  lemma AccountsOneMore(ps: seq<Pair>, ss: seq<Skip>, ms: seq<Mailbox>, m: Mailbox, p: Pair, s: Skip)
    requires Accounts(ps, ss, ms)
    ensures p.source == m.name ==> Accounts(ps + [p], ss, ms + [m])
    ensures s.source == m.name ==> Accounts(ps, ss + [s], ms + [m])
  {
    SourcesOne(ps, p, ss, s, ms, m);
  }

  lemma FatesOneMore(before: seq<Mailbox>, m: Mailbox, existing: map<string, string>, byRole: map<Role, string>,
      opts: Options)
    ensures var ps, ss := PairsOf(before, existing, byRole, opts), SkipsOf(before, existing, byRole, opts);
            var fate := FateOf(m, existing, byRole, opts);
            PairsOf(before + [m], existing, byRole, opts) == (if fate.Paired? then ps + [fate.pair] else ps) &&
            SkipsOf(before + [m], existing, byRole, opts) == (if fate.Skipped? then ss + [fate.skip] else ss)
  {
    hide FateOf;
    assert (before + [m])[..|before|] == before;
  }

  /** Every source mailbox is in the pairs or the skips, once. */
  lemma {:induction false} AllAccounted(ms: seq<Mailbox>, existing: map<string, string>, byRole: map<Role, string>,
      opts: Options)
    ensures Accounts(PairsOf(ms, existing, byRole, opts), SkipsOf(ms, existing, byRole, opts), ms)
  {
    if ms == [] {
      assert Accounts([], [], ms);
    } else {
      hide FateOf, Accounts;
      var n := |ms| - 1;
      var before, m := ms[..n], ms[n];
      assert ms == before + [m];
      AllAccounted(before, existing, byRole, opts);
      FateNames(m, existing, byRole, opts);
      FatesOneMore(before, m, existing, byRole, opts);
      hide PairsOf, SkipsOf;
      var ps, ss := PairsOf(before, existing, byRole, opts), SkipsOf(before, existing, byRole, opts);
      match FateOf(m, existing, byRole, opts)
      case Paired(p) => AccountsOneMore(ps, ss, before, m, p, Skip("", Untranslatable));
      case Skipped(s) => AccountsOneMore(ps, ss, before, m, Pair("", "", NoRole, false), s);
    }
  }

  lemma FateNames(m: Mailbox, existing: map<string, string>, byRole: map<Role, string>, opts: Options)
    ensures match FateOf(m, existing, byRole, opts)
            case Paired(p) => p.source == m.name
            case Skipped(s) => s.source == m.name
  {
    hide DetectRole, StripPrefix, DestinationFor, FoldName, SkipReason;
    var rel := StripPrefix(m.name, opts.srcPrefix);
    var reason := SkipReason(m, DetectRole(m, rel, opts.nameRole), opts);
    assert reason.Some? ==> FateOf(m, existing, byRole, opts).Skipped?;
  }

  /* ---------- the whole plan ---------- */

  /** The destination's mailboxes by their folded names; of several with one, the last listed. */
  function ExistingOf(dest: seq<Mailbox>): map<string, string> {
    if dest == [] then map[]
    else
      var n := |dest| - 1;
      ExistingOf(dest[..n])[FoldName(dest[n].name) := dest[n].name]
  }

  lemma {:induction false} ExistingAre(dest: seq<Mailbox>)
    ensures forall k :: k in ExistingOf(dest) ==> FoldName(ExistingOf(dest)[k]) == k
    ensures forall k :: k in ExistingOf(dest) <==> exists m :: m in dest && FoldName(m.name) == k
    ensures forall k :: k in ExistingOf(dest) ==> exists m :: m in dest && m.name == ExistingOf(dest)[k]
  {
    hide FoldName;
    if dest != [] {
      var n := |dest| - 1;
      assert dest == dest[..n] + [dest[n]];
      ExistingAre(dest[..n]);
    }
  }

  method Existing(dest: seq<Mailbox>) returns (names: map<string, string>)
    ensures names == ExistingOf(dest)
  {
    names := map[];
    for i := 0 to |dest|
      invariant names == ExistingOf(dest[..i])
    {
      hide FoldName;
      assert dest[..i + 1][..i] == dest[..i];
      names := names[FoldName(dest[i].name) := dest[i].name];
    }
    assert dest[..|dest|] == dest;
  }

  /**
   Maps the source's mailboxes onto the destination's. It fails exactly when two
   that are to be copied would be merged; otherwise the plan pairs and skips every
   source mailbox as its fate is, and lists what is missing parents first.
   */
  method Build(source: seq<Mailbox>, dest: seq<Mailbox>, opts: Options)
    returns (plan: Option<Plan>, ghost byRole: map<Role, string>)
    ensures RolesAre(byRole, dest, opts.dstPrefix, opts.nameRole)
    ensures plan.Some? <==> NoneMerged(PairsOf(source, ExistingOf(dest), byRole, opts))
    ensures plan.Some? ==> plan.value.pairs == PairsOf(source, ExistingOf(dest), byRole, opts)
    ensures plan.Some? ==> forall p :: p in plan.value.pairs ==>
                             exists m :: m in source && Leads(m, p, dest, byRole, opts)
    ensures plan.Some? ==> forall i, j :: 0 <= i < j < |plan.value.pairs| ==>
                             !SameMailbox(plan.value.pairs[i].dest, plan.value.pairs[j].dest)
    ensures plan.Some? ==> forall n :: n in plan.value.creates <==>
                             IsMissing(plan.value.pairs, dest, opts.dstDelim, n)
    ensures plan.Some? ==> forall i, j :: 0 <= i < j < |plan.value.creates| ==>
                             var a := |Levels(plan.value.creates[i], opts.dstDelim)|;
                             var b := |Levels(plan.value.creates[j], opts.dstDelim)|;
                             a < b || (a == b && Less(plan.value.creates[i], plan.value.creates[j]))
    ensures plan.Some? ==> plan.value.skips == SkipsOf(source, ExistingOf(dest), byRole, opts)
    ensures plan.Some? ==> InOrder(plan.value.creates, opts.dstDelim)
    ensures plan.Some? ==> forall n :: n in plan.value.creates <==>
                             Needed(plan.value.pairs, ExistingOf(dest).Keys, opts.dstDelim, n)
  {
    hide FoldName, DetectRole, DestinationFor, StripPrefix, SkipReason, Needed, RolesAre, ClaimsAre, NoneMerged,
      InOrder;
    hide ExistingOf, Leads, SameMailbox, IsMissing, Levels, Less;
    var roles := RolesOf(dest, opts.dstPrefix, opts.nameRole);
    var names := Existing(dest);
    byRole := roles;
    var ps: seq<Pair>, ss: seq<Skip> := [], [];
    var claimed: map<string, seq<string>> := map[];
    NothingClaimed();
    for i := 0 to |source|
      invariant ClaimsAre(claimed, ps)
      invariant ps == PairsOf(source[..i], names, roles, opts) && ss == SkipsOf(source[..i], names, roles, opts)
    {
      var m := source[i];
      assert source[..i + 1][..i] == source[..i];
      var rel := StripPrefix(m.name, opts.srcPrefix);
      var role := DetectRole(m, rel, opts.nameRole);
      var reason := SkipReason(m, role, opts);
      if reason.Some? {
        ss := ss + [Skip(m.name, reason.value)];
        continue;
      }
      var target := DestinationFor(m.name, rel, role, opts, roles);
      if target.None? {
        ss := ss + [Skip(m.name, Untranslatable)];
        continue;
      }
      var found := FoldName(target.value) in names;
      var place := if found then names[FoldName(target.value)] else target.value;
      var p := Pair(m.name, place, role, !found);
      ClaimOneMore(claimed, ps, p);
      var f := FoldName(place);
      claimed := claimed[f := (if f in claimed then claimed[f] else []) + [m.name]];
      ps := ps + [p];
    }
    assert source[..|source|] == source;
    var ok := CheckCollisions(claimed);
    CollisionsAreMerges(claimed, ps);
    if !ok {
      return None, byRole;
    }
    var creates := CreateOrder(ps, names.Keys, opts.dstDelim);
    AllLead(source, dest, roles, opts);
    NoneMergedIff(ps);
    CreatesMean(source, dest, roles, opts, creates);
    plan := Some(Plan(ps, ss, creates));
  }

  lemma NothingClaimed()
    ensures ClaimsAre(map[], [])
  {
  }

  /**
   The plan does not depend on the order the destination lists its mailboxes in, as long as no two names fold
   together.
   */
  lemma {:induction false} ExistingIgnoresOrder(dest: seq<Mailbox>, other: seq<Mailbox>)
    requires forall m :: m in dest <==> m in other
    requires forall m, n :: m in dest && n in dest && FoldName(m.name) == FoldName(n.name) ==> m.name == n.name
    ensures ExistingOf(dest) == ExistingOf(other)
  {
    hide FoldName;
    ExistingAre(dest);
    ExistingAre(other);
  }
}
