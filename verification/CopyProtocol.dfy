/**
 Copying one folder, as a machine of atomic steps that a crash may interrupt.

 A step is one statement on the state database, one command whose effect on a
 mailbox is visible, or one change of the memory the folder's workers share. The
 workers' steps interleave in any order, the outcome of an APPEND is whatever the
 network makes it, and a crash at any moment keeps the database and the mailboxes
 and forgets everything else. Either side may be renumbered at any moment.
 */
module CopyProtocol {
  import opened Wrappers
  import opened Identity
  import opened StateStore
  import opened Deletion

  /** A source message as the database names it: its UID under one UIDVALIDITY. */
  datatype Src = Src(validity: nat, uid: Uid)

  type Book = map<Src, Row>

  /** A message; `body` is everything in it except a stamp. */
  datatype Mail = Mail(id: Ident, body: string)

  /** A destination message as APPEND names it. */
  datatype Placed = Placed(validity: nat, uid: Uid)

  /** What a listing made before the run said of the destination. */
  datatype Count = Count(validity: nat, messages: nat)

  /** What one run is doing about one listed source message. */
  datatype Work =
    | Todo
    | Begun
    | Queued(attempt: nat)
    | Uncertain(attempt: nat, stored: bool)
    | Accepted(named: Option<Placed>)
    | Noted(survivor: Src)
    | Unsettled(survivor: Src)
    | Finished

  /** The memory of a run that is copying: `since` is the sequence the source reported when it was selected. */
  datatype Copy = Copy(
    since: nat,
    listed: set<Src>,
    work: map<Src, Work>,
    index: map<Uid, string>,
    bodies: map<string, Src>,
    failed: set<Src>,
    filtered: set<Src>)

  /** `kept` is whether the fence left the rows of the folder alone. */
  datatype Phase =
    | NoRun
    | Recovering(since: nat, kept: bool, suspects: set<Src>)
    | Verifying(since: nat, kept: bool)
    | Listing(since: nat, kept: bool)
    | Copying(c: Copy)
    | Settling(c: Copy)

  /**
   `mail` is what each source UID means under each numbering, for ever; `live` is
   which of them the source holds now, under the numbering it has now, and `past`
   which it held once. A run goes by the numberings in the folder row, which its
   fence has just written. `dropped` remembers the claims dropped since the stored
   watermark was earned, `purged` whether deletion ever took anything away.
   */
  datatype World = World(
    mail: map<Src, Mail>,
    srcValidity: nat,
    live: set<Src>,
    past: set<Src>,
    modseq: nat,
    dstValidity: nat,
    dest: map<Uid, Mail>,
    destNext: Uid,
    rows: Book,
    fold: FolderRow,
    phase: Phase,
    dropped: set<Src>,
    purged: bool)

  datatype Event =
    | SourceArrives(u: Src)
    | SourceExpunges(u: Src)
    | SourceTouched
    | SourceRenumbered(number: nat, held: set<Src>, seqno: nat)
    | DestArrives(m: Mail)
    | DestDeletes(d: Uid)
    | DestRenumbered(number: nat, holds: map<Uid, Mail>, next: Uid)
    | Crash
    | SkipRun(full: bool, delete2: bool, verify: bool, counted: Option<Count>)
    | StartRun
    | RecoverOne(u: Src)
    | RecoverBlind(u: Src)
    | EndRecover
    | VerifyClaims(full: bool, verify: bool)
    | List
    | VanishMeta(u: Src)
    | FilterOut(u: Src)
    | BeginOne(u: Src)
    | Adopt(u: Src, d: Uid)
    | FetchBody(u: Src, repeats: bool)
    | FetchRetry(u: Src)
    | FetchGiveUp(u: Src)
    | AppendOk(u: Src, uidPlus: bool)
    | AppendError(u: Src, stored: bool)
    | AppendGiveUp(u: Src)
    | LocateAfterError(u: Src)
    | LocateBlind(u: Src)
    | RecordCopy(u: Src)
    | RecordBlind(u: Src)
    | EndCopy
    | SettleOne(u: Src)
    | Expunge(gone: set<Uid>, listing: seq<Uid>, search: Option<set<Uid>>)
    | Forget(us: set<Src>)
    | Repoint(u: Src, d: Uid)
    | RemoveRepeats(gone: set<Uid>)
    | Finish(at: int, swept: bool)

  /* ---------- looking for a message on the destination ---------- */

  ghost function Hits(dest: map<Uid, Mail>, id: Ident): set<Uid> {
    set d | d in dest && Hit(id, dest[d].id)
  }

  lemma {:induction false} HasHighest(s: set<Uid>)
    requires s != {}
    ensures exists m :: m in s && forall x :: x in s ==> x <= m
    decreases |s|
  {
    var y :| y in s;
    var rest := s - {y};
    if rest == {} {
      assert s == {y};
    } else {
      HasHighest(rest);
      var m :| m in rest && forall x :: x in rest ==> x <= m;
      var top := if y > m then y else m;
      assert top in s;
      forall x | x in s
        ensures x <= top
      {
        assert x == y || x in rest;
      }
    }
  }

  ghost function Highest(s: set<Uid>): (m: Uid)
    ensures s == {} ==> m == 0
    ensures s != {} ==> m in s && forall x :: x in s ==> x <= m
  {
    if s == {} then 0
    else
      HasHighest(s);
      var m :| m in s && forall x :: x in s ==> x <= m;
      m
  }

  /** The newest of the messages a search answered with, in whatever order it did; 0 when it found none. */
  method NewestOf(uids: seq<Uid>) returns (highest: Uid)
    ensures highest == Highest(UidSet(uids))
  {
    highest := 0;
    for i := 0 to |uids|
      invariant i == 0 ==> highest == 0
      invariant i > 0 ==> highest in uids[..i] && forall j :: 0 <= j < i ==> uids[j] <= highest
    {
      highest := if uids[i] > highest || i == 0 then uids[i] else highest;
      assert uids[..i + 1] == uids[..i] + [uids[i]];
    }
    if uids != [] {
      assert uids[..|uids|] == uids;
      var k :| 0 <= k < |uids| && uids[k] == highest;
      assert highest in UidSet(uids);
      assert uids[0] in UidSet(uids);
    }
  }

  ghost function Locate(dest: map<Uid, Mail>, id: Ident): Uid {
    Highest(Hits(dest, id))
  }

  /** The copy APPEND writes of a message. */
  function Stored(m: Mail): Mail {
    Mail(StoredIdent(m.id), m.body)
  }

  function DetailOf(m: Mail): Detail {
    Detail(m.id.digest, if NeedsStamp(m.id) then StampValue(m.id) else "", |m.body|, "", 0)
  }

  /* ---------- the fast path ---------- */

  /** Whether the source has not moved since the watermark was earned. */
  predicate Unchanged(fold: FolderRow, srcValidity: nat, modseq: nat, full: bool, delete2: bool) {
    !(delete2 && fold.deletedThrough != modseq) &&
    !full && fold.highestModSeq != 0 && modseq != 0 &&
    fold.srcValidity == srcValidity && fold.highestModSeq == modseq
  }

  /** The destination's vote is the count a listing gave before the run, if it gave one. */
  predicate CanSkip(w: World, full: bool, delete2: bool, verify: bool, counted: Option<Count>) {
    Unchanged(w.fold, w.srcValidity, w.modseq, full, delete2) &&
    (verify && counted.Some? ==> ClaimedCount(w.rows, counted.value.validity) <= counted.value.messages)
  }

  /* ---------- the steps ---------- */

  /** The source still has the numbering the run selected it under. */
  predicate SourceSteady(w: World) { w.srcValidity == w.fold.srcValidity }

  /** The destination still has the numbering the run selected it under. */
  predicate DestSteady(w: World) { w.dstValidity == w.fold.dstValidity }

  /** Whether the run is copying and this is where it has got to with `u`. */
  predicate Working(w: World, u: Src) {
    w.phase.Copying? && u in w.phase.c.work && u in w.mail
  }

  function WorkOn(w: World, u: Src): Work
    requires Working(w, u)
  {
    w.phase.c.work[u]
  }

  /** No message in the index has this digest left to be adopted. */
  predicate NoneToAdopt(c: Copy, digest: string) {
    forall d :: d in c.index ==> c.index[d] != digest
  }

  /** The destination messages that rows of any state name. */
  function Claimed(rows: Book, dstValidity: nat): (claimed: set<Uid>)
    ensures Mirrored(rows, dstValidity).Values <= claimed
  {
    set u | u in rows && rows[u].dstValidity == dstValidity && rows[u].dstUid != 0 :: rows[u].dstUid
  }

  /** The rows naming a destination message that is not there any more. */
  function Unhonoured(rows: Book, dstValidity: nat, dest: map<Uid, Mail>): set<Src> {
    set u | u in Mirrored(rows, dstValidity) && Mirrored(rows, dstValidity)[u] !in dest
  }

  /**
   The claims a run checks. All rows are under the folder row's source numbering
   (CopyLedger.Ledger), so asking for the rows of that numbering asks for all.
   */
  predicate ClaimsChecked(w: World, full: bool, verify: bool)
    requires w.phase.Verifying?
  {
    var claims := ClaimedCount(w.rows, w.fold.dstValidity);
    w.phase.kept && verify && claims != 0 && (full || claims > |w.dest|)
  }

  predicate Settled(rows: Book, u: Src) {
    u in rows && (rows[u].status.Done? || rows[u].status.Gone?)
  }

  /**
   The unclaimed, identifiable messages of the destination, read only when the
   folder never completed a sync or has just lost its rows to the fence.
   */
  function IndexOf(w: World, todo: set<Src>): map<Uid, string>
    requires w.phase.Listing?
  {
    if todo != {} && w.dest != map[] && (w.fold.lastSync.None? || !w.phase.kept) then
      map d | d in w.dest && !w.dest[d].id.weak && d !in Claimed(w.rows, w.fold.dstValidity) :: w.dest[d].id.digest
    else map[]
  }

  /** The headers of the destination, as a pass that asks for them is told. */
  function IdentsOf(dest: map<Uid, Mail>): map<Uid, Ident> {
    map d | d in dest :: dest[d].id
  }

  /** The copying and settling are over, and a pass over the destination may run. */
  predicate Resting(w: World) {
    w.phase.Settling? && forall u :: u in w.phase.c.work ==> !w.phase.c.work[u].Noted?
  }

  /** The events of the outside world. */
  predicate Outside(e: Event) {
    e.SourceArrives? || e.SourceExpunges? || e.SourceTouched? || e.SourceRenumbered? ||
    e.DestArrives? || e.DestDeletes? || e.DestRenumbered?
  }

  /** The steps of the workers that read the source. */
  predicate Reader(e: Event) {
    e.VanishMeta? || e.FilterOut? || e.BeginOne? || e.Adopt? || e.FetchBody? || e.FetchRetry? || e.FetchGiveUp?
  }

  /** The steps of the workers that append to the destination. */
  predicate Deliverer(e: Event) {
    e.AppendOk? || e.AppendError? || e.AppendGiveUp? || e.LocateAfterError? || e.LocateBlind? || e.RecordCopy? ||
    e.RecordBlind?
  }

  predicate Worker(e: Event) { Reader(e) || Deliverer(e) }

  /** The steps in which a copy lands on the destination. */
  predicate Arrives(e: Event) { e.AppendOk? || (e.AppendError? && e.stored) }

  /** The steps of the passes that remove mail from the destination. */
  predicate Pass(e: Event) {
    e.Expunge? || e.Forget? || e.Repoint? || e.RemoveRepeats?
  }

  /** A mailbox that is renumbered gets a higher number than it ever had (section 2.3.1.1 of RFC 3501). */
  predicate OutsideEnabled(w: World, e: Event)
    requires Outside(e)
  {
    match e
    case SourceArrives(u) => u in w.mail && u.validity == w.srcValidity && u !in w.live && u !in w.past
    case SourceExpunges(u) => u in w.live
    case SourceTouched => true
    case SourceRenumbered(number, held, _) =>
      number > w.srcValidity && held <= w.mail.Keys && forall u :: u in held ==> u.validity == number
    case DestArrives(_) => true
    case DestDeletes(d) => d in w.dest
    case DestRenumbered(number, holds, next) =>
      number > w.dstValidity && next >= 1 && forall d :: d in holds ==> 1 <= d < next
  }

  /**
   A worker that reads the source does so on a connection whose numbering it has
   checked against the run's; appending and searching the destination check nothing.
   */
  predicate WorkerEnabled(w: World, e: Event)
    requires Worker(e)
  {
    match e
    case VanishMeta(u) => Working(w, u) && WorkOn(w, u).Todo? && SourceSteady(w) && u !in w.live
    case FilterOut(u) => Working(w, u) && WorkOn(w, u).Todo?
    case BeginOne(u) => Working(w, u) && WorkOn(w, u).Todo?
    case Adopt(u, d) =>
      Working(w, u) && WorkOn(w, u).Begun? && u in w.rows && d in w.phase.c.index &&
      w.phase.c.index[d] == w.mail[u].id.digest
    case FetchBody(u, _) =>
      Working(w, u) && WorkOn(w, u).Begun? && SourceSteady(w) && NoneToAdopt(w.phase.c, w.mail[u].id.digest)
    case FetchRetry(u) => Working(w, u) && WorkOn(w, u).Begun? && NoneToAdopt(w.phase.c, w.mail[u].id.digest)
    case FetchGiveUp(u) => Working(w, u) && WorkOn(w, u).Todo? && u in w.rows
    case AppendOk(u, _) => Working(w, u) && WorkOn(w, u).Queued?
    case AppendError(u, _) => Working(w, u) && WorkOn(w, u).Queued?
    case AppendGiveUp(u) => Working(w, u) && WorkOn(w, u).Uncertain? && u in w.rows
    case LocateAfterError(u) => Working(w, u) && WorkOn(w, u).Uncertain? && u in w.rows
    case LocateBlind(u) => Working(w, u) && WorkOn(w, u).Uncertain?
    case RecordCopy(u) => Working(w, u) && WorkOn(w, u).Accepted? && u in w.rows
    case RecordBlind(u) => Working(w, u) && WorkOn(w, u).Accepted? && u in w.rows && WorkOn(w, u).named.None?
  }

  /** What a deletion pass that lists and searches the destination like this nominates of it. */
  ghost predicate DoomedNow(w: World, listing: seq<Uid>, search: Option<set<Uid>>, d: Uid)
    requires w.phase.Settling?
  {
    Doomed(w.rows, w.dstValidity, Claimed(w.rows, w.dstValidity), w.phase.c.listed,
           Destination(listing, IdentsOf(w.dest), search), d)
  }

  /**
   A pass asks the destination afresh. Deletion stands down after a failure and
   removes any part of what is doomed (Deletion.Condemned), then forgets rows
   whose copies are gone; deduplication repoints rows to a message with the same
   bytes and removes messages no row names that have such a one beside them.
   */
  ghost predicate PassEnabled(w: World, e: Event)
    requires Pass(e)
  {
    Resting(w) && DestSteady(w) &&
    match e
    case Expunge(gone, listing, search) =>
      w.phase.c.failed == {} &&
      forall d :: d in gone ==> DoomedNow(w, listing, search, d)
    case Forget(us) =>
      us !! w.phase.c.listed && us <= Unhonoured(w.rows, w.dstValidity, w.dest)
    case Repoint(u, d) =>
      d in w.dest && d != 0 && u in Mirrored(w.rows, w.dstValidity) &&
      Mirrored(w.rows, w.dstValidity)[u] in w.dest &&
      w.dest[Mirrored(w.rows, w.dstValidity)[u]].body == w.dest[d].body
    case RemoveRepeats(gone) =>
      gone <= w.dest.Keys && gone !! Mirrored(w.rows, w.dstValidity).Values &&
      forall d :: d in gone ==> exists s :: s in w.dest && s !in gone && w.dest[s].body == w.dest[d].body
  }

  /**
   Recovery, verification and listing happen in the sessions the run opened both
   mailboxes in, and a session sees one numbering; a run whose mailbox is
   renumbered under it can only stop.
   */
  predicate RunEnabled(w: World, e: Event)
    requires !Outside(e) && !Worker(e) && !Pass(e)
  {
    match e
    case Crash => true
    case SkipRun(full, delete2, verify, counted) => w.phase.NoRun? && CanSkip(w, full, delete2, verify, counted)
    case StartRun => w.phase.NoRun?
    case RecoverOne(u) =>
      w.phase.Recovering? && u in w.phase.suspects && u in w.rows && u in w.mail && SourceSteady(w) && DestSteady(w)
    case RecoverBlind(u) => w.phase.Recovering? && u in w.phase.suspects && u in w.live
    case EndRecover => w.phase.Recovering? && w.phase.suspects == {}
    case VerifyClaims(_, _) => w.phase.Verifying? && DestSteady(w)
    case List => w.phase.Listing? && SourceSteady(w) && DestSteady(w)
    case EndCopy =>
      w.phase.Copying? && forall u :: u in w.phase.c.work ==> w.phase.c.work[u].Finished? || w.phase.c.work[u].Noted?
    case SettleOne(u) =>
      w.phase.Settling? && u in w.phase.c.work && w.phase.c.work[u].Noted? && u in w.rows
    case Finish(_, swept) => Resting(w) && (swept ==> w.phase.c.failed == {})
  }

  ghost predicate Enabled(w: World, e: Event) {
    if Outside(e) then OutsideEnabled(w, e)
    else if Worker(e) then WorkerEnabled(w, e)
    else if Pass(e) then PassEnabled(w, e)
    else RunEnabled(w, e)
  }

  function WithWork(w: World, u: Src, k: Work): (w': World)
    requires w.phase.Copying?
    ensures w'.mail == w.mail
  {
    w.(phase := Copying(w.phase.c.(work := w.phase.c.work[u := k])))
  }

  /** A copy of `u` arrives on the destination under the next free number. */
  function WithCopy(w: World, u: Src): (w': World)
    requires u in w.mail
    ensures w'.mail == w.mail
  {
    w.(dest := w.dest[w.destNext := Stored(w.mail[u])], destNext := w.destNext + 1)
  }

  /**
   Both mailboxes are selected and the fence compares their numberings with the
   stored ones. What the source does between the two selections is as if it did it
   just after.
   */
  function Started(w: World): (w': World)
    ensures w'.mail == w.mail
  {
    var kept := !Renumbered(w.fold, w.srcValidity, w.dstValidity);
    var rows := if kept then w.rows else map[];
    w.(phase := Recovering(w.modseq, kept, InFlightUids(rows)), rows := rows,
       fold := Fenced(w.fold, w.srcValidity, w.dstValidity), dropped := if kept then w.dropped else {})
  }

  ghost function Recovered(w: World, u: Src): (w': World)
    requires w.phase.Recovering? && u in w.rows && u in w.mail
    ensures w'.mail == w.mail
  {
    var w1 := w.(phase := w.phase.(suspects := w.phase.suspects - {u}));
    if u !in w.live then
      w1.(rows := FailedRows(w.rows, u, "source message expunged while its copy was in flight"))
    else if Locate(w.dest, w.mail[u].id) == 0 then w1
    else w1.(rows := Completed(w.rows, u, w.fold.dstValidity, Locate(w.dest, w.mail[u].id)))
  }

  function Verified(w: World, full: bool, verify: bool): (w': World)
    requires w.phase.Verifying?
    ensures w'.mail == w.mail
  {
    var w1 := w.(phase := Listing(w.phase.since, w.phase.kept));
    var lost := Unhonoured(w.rows, w.fold.dstValidity, w.dest);
    if ClaimsChecked(w, full, verify) then w1.(rows := w.rows - lost, dropped := w.dropped + lost) else w1
  }

  function Listed(w: World): (w': World)
    requires w.phase.Listing?
    ensures w'.mail == w.mail
  {
    var todo := set u | u in w.live && !Settled(w.rows, u);
    w.(phase := Copying(Copy(w.phase.since, w.live, map u | u in todo :: Todo, IndexOf(w, todo), map[], {}, {})))
  }

  /** The body is read; unless repeats are wanted, one that was read already is noted instead of queued. */
  function Fetched(w: World, u: Src, repeats: bool): (w': World)
    requires Working(w, u)
    ensures w'.mail == w.mail
  {
    var c := w.phase.c;
    var body := w.mail[u].body;
    if u !in w.live then WithWork(w, u, Finished).(rows := MarkedGone(w.rows, u))
    else if repeats then WithWork(w, u, Queued(0))
    else if body in c.bodies then WithWork(w, u, Noted(c.bodies[body]))
    else w.(phase := Copying(c.(work := c.work[u := Queued(0)], bodies := c.bodies[body := u])))
  }

  function GivenUp(w: World, u: Src, reason: string): (w': World)
    requires Working(w, u) && u in w.rows
    ensures w'.mail == w.mail
  {
    var c := w.phase.c;
    w.(phase := Copying(c.(work := c.work[u := Finished], failed := c.failed + {u})),
       rows := FailedRows(w.rows, u, reason))
  }

  ghost function Relocated(w: World, u: Src): (w': World)
    requires Working(w, u) && WorkOn(w, u).Uncertain? && u in w.rows
    ensures w'.mail == w.mail
  {
    var d := Locate(w.dest, w.mail[u].id);
    if d == 0 then WithWork(w, u, Queued(WorkOn(w, u).attempt + 1))
    else WithWork(w, u, Finished).(rows := Completed(w.rows, u, w.fold.dstValidity, d))
  }

  /**
   Where an accepted copy is: as the server named it, or where a search finds it under the numbering the run
   believes in.
   */
  ghost function PlaceOf(w: World, u: Src): Placed
    requires Working(w, u) && WorkOn(w, u).Accepted?
  {
    var named := WorkOn(w, u).named;
    if named.Some? then named.value else Placed(w.fold.dstValidity, Locate(w.dest, w.mail[u].id))
  }

  ghost function Recorded(w: World, u: Src): (w': World)
    requires Working(w, u) && WorkOn(w, u).Accepted? && u in w.rows
    ensures w'.mail == w.mail
  {
    var at := PlaceOf(w, u);
    WithWork(w, u, Finished).(rows := Completed(w.rows, u, at.validity, at.uid))
  }

  /** A repeat is recorded against its survivor's copy, if that landed and can be named. */
  function SettledOne(w: World, u: Src): (w': World)
    requires w.phase.Settling? && u in w.phase.c.work && w.phase.c.work[u].Noted? && u in w.rows
    ensures w'.mail == w.mail
  {
    var c := w.phase.c;
    var v := c.work[u].survivor;
    var mirrors := Mirrored(w.rows, w.fold.dstValidity);
    if v in mirrors then
      w.(phase := Settling(c.(work := c.work[u := Finished])),
         rows := Completed(w.rows, u, w.fold.dstValidity, mirrors[v]))
    else w.(phase := Settling(c.(work := c.work[u := Unsettled(v)])))
  }

  /** A folder that left anything out keeps its old watermark. */
  function Completion(w: World, at: int, swept: bool): (w': World)
    requires w.phase.Settling?
    ensures w'.mail == w.mail
  {
    var c := w.phase.c;
    var earned := if c.failed != {} || c.filtered != {} then 0 else c.since;
    w.(phase := NoRun, fold := Synced(w.fold, earned, if swept then c.since else 0, at),
       dropped := if earned == 0 then w.dropped else {})
  }

  ghost function OutsideApply(w: World, e: Event): (w': World)
    requires Outside(e) && OutsideEnabled(w, e)
    ensures w'.mail == w.mail && w'.purged == w.purged
  {
    match e
    case SourceArrives(u) => w.(live := w.live + {u}, modseq := w.modseq + 1)
    case SourceExpunges(u) => w.(live := w.live - {u}, past := w.past + {u}, modseq := w.modseq + 1)
    case SourceTouched => w.(modseq := w.modseq + 1)
    case SourceRenumbered(number, held, seqno) =>
      w.(srcValidity := number, live := held, past := w.past + w.live, modseq := seqno)
    case DestArrives(m) => w.(dest := w.dest[w.destNext := m], destNext := w.destNext + 1)
    case DestDeletes(d) => w.(dest := w.dest - {d})
    case DestRenumbered(number, holds, next) => w.(dstValidity := number, dest := holds, destNext := next)
  }

  function ReaderApply(w: World, e: Event): (w': World)
    requires Reader(e) && WorkerEnabled(w, e)
    ensures w'.mail == w.mail && w'.phase.Copying? && w'.purged == w.purged && w'.dest == w.dest
  {
    match e
    case VanishMeta(u) => WithWork(w, u, Finished).(rows := MarkedGone(w.rows, u))
    case FilterOut(u) =>
      w.(phase := Copying(w.phase.c.(work := w.phase.c.work[u := Finished], filtered := w.phase.c.filtered + {u})))
    case BeginOne(u) => WithWork(w, u, Begun).(rows := StateStore.Begun(w.rows, u, DetailOf(w.mail[u])))
    case Adopt(u, d) =>
      w.(phase := Copying(w.phase.c.(work := w.phase.c.work[u := Finished], index := w.phase.c.index - {d})),
         rows := Completed(w.rows, u, w.fold.dstValidity, d))
    case FetchBody(u, repeats) => Fetched(w, u, repeats)
    case FetchRetry(u) => WithWork(w, u, Todo)
    case FetchGiveUp(u) => GivenUp(w, u, "fetching failed")
  }

  ghost function DelivererApply(w: World, e: Event): (w': World)
    requires Deliverer(e) && WorkerEnabled(w, e)
    ensures w'.mail == w.mail && w'.phase.Copying? && w'.purged == w.purged
    ensures w'.dest == if Arrives(e) then w.dest[w.destNext := Stored(w.mail[e.u])] else w.dest
  {
    match e
    case AppendOk(u, uidPlus) =>
      WithWork(WithCopy(w, u), u, Accepted(if uidPlus then Some(Placed(w.dstValidity, w.destNext)) else None))
    case AppendError(u, stored) =>
      WithWork(if stored then WithCopy(w, u) else w, u, Uncertain(WorkOn(w, u).attempt, stored))
    case AppendGiveUp(u) => GivenUp(w, u, "append failed")
    case LocateAfterError(u) => Relocated(w, u)
    case LocateBlind(u) => WithWork(w, u, Queued(WorkOn(w, u).attempt + 1))
    case RecordCopy(u) => Recorded(w, u)
    case RecordBlind(u) => WithWork(w, u, Finished).(rows := Completed(w.rows, u, w.fold.dstValidity, 0))
  }

  ghost function WorkerApply(w: World, e: Event): (w': World)
    requires Worker(e) && WorkerEnabled(w, e)
    ensures w'.mail == w.mail && w'.phase.Copying? && w'.purged == w.purged
    ensures w'.dest == if Arrives(e) then w.dest[w.destNext := Stored(w.mail[e.u])] else w.dest
  {
    if Reader(e) then ReaderApply(w, e) else DelivererApply(w, e)
  }

  ghost function PassApply(w: World, e: Event): (w': World)
    requires Pass(e) && PassEnabled(w, e)
    ensures w'.mail == w.mail && w'.phase == w.phase && (!e.Expunge? ==> w'.purged == w.purged)
  {
    match e
    case Expunge(gone, _, _) => w.(dest := w.dest - gone, purged := true)
    case Forget(us) => w.(rows := w.rows - us)
    case Repoint(u, d) => w.(rows := Completed(w.rows, u, w.dstValidity, d))
    case RemoveRepeats(gone) => w.(dest := w.dest - gone)
  }

  ghost function RunApply(w: World, e: Event): (w': World)
    requires !Outside(e) && !Worker(e) && !Pass(e) && RunEnabled(w, e)
    ensures w'.mail == w.mail && w'.purged == w.purged
  {
    match e
    case Crash => w.(phase := NoRun)
    case SkipRun(_, _, _, _) => w
    case StartRun => Started(w)
    case RecoverOne(u) => Recovered(w, u)
    case RecoverBlind(u) => w.(phase := w.phase.(suspects := w.phase.suspects - {u}))
    case EndRecover => w.(phase := Verifying(w.phase.since, w.phase.kept))
    case VerifyClaims(full, verify) => Verified(w, full, verify)
    case List => Listed(w)
    case EndCopy => w.(phase := Settling(w.phase.c))
    case SettleOne(u) => SettledOne(w, u)
    case Finish(at, swept) => Completion(w, at, swept)
  }

  ghost function Apply(w: World, e: Event): (w': World)
    requires Enabled(w, e)
    ensures w'.mail == w.mail
  {
    if Outside(e) then OutsideApply(w, e)
    else if Worker(e) then WorkerApply(w, e)
    else if Pass(e) then PassApply(w, e)
    else RunApply(w, e)
  }

  lemma WorkerMeans(w: World, e: Event)
    requires Enabled(w, e) && Worker(e)
    ensures WorkerEnabled(w, e) && Apply(w, e) == WorkerApply(w, e) && Working(w, e.u)
  {
  }

  lemma FinishMeans(w: World, at: int, swept: bool)
    requires Enabled(w, Finish(at, swept))
    ensures Resting(w) && w.phase.Settling? && Apply(w, Finish(at, swept)) == Completion(w, at, swept)
  {
  }

  /** The world after a whole history of steps, or None when some step could not be taken. */
  ghost function Run(w: World, es: seq<Event>): (r: Option<World>)
    ensures r.Some? ==> r.value.mail == w.mail
    decreases |es|
  {
    if es == [] then Some(w)
    else if !Enabled(w, es[0]) then None
    else Run(Apply(w, es[0]), es[1..])
  }

  lemma {:induction false} RunAppend(w: World, es: seq<Event>, fs: seq<Event>)
    requires Run(w, es).Some?
    ensures Run(w, es + fs) == Run(Run(w, es).value, fs)
    decreases |es|
  {
    if es == [] {
      assert es + fs == fs;
    } else {
      assert (es + fs)[0] == es[0] && (es + fs)[1..] == es[1..] + fs;
      RunAppend(Apply(w, es[0]), es[1..], fs);
    }
  }

  lemma RunOne(w: World, es: seq<Event>)
    requires es != [] && Enabled(w, es[0])
    ensures Run(w, es) == Run(Apply(w, es[0]), es[1..])
  {
  }
}
