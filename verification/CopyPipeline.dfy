/**
 Every goroutine of a run and everything it can wait for: connections to the
 source, connections to the destination, bytes of the budget, and the channels
 of its folder. Any number of folders are prepared, fetched, appended and passed
 over at once, and any goroutine may fail at any moment.
 */
module CopyPipeline {
  import opened Wrappers

  datatype Role = Worker | Fetcher(folder: nat) | Appender(folder: nat)

  /**
   What a goroutine is doing. A stage named Want, or one of Waiting, Asking,
   Charging, Pushing, Taking, Delivering and Looking, waits for something; in
   the others it is at work, and will finish.
   */
  datatype Stage =
    | Queued | WantSource | ReadSource | WantDest | Both | Indexing | Waiting | WantFlags | Flags | WantPass | Passing
    | Unborn | Asking | WantMeta | Meta | WantRun | Running
    | Charging(size: nat) | Reading(charge: nat) | Pushing(charge: nat)
    | Taking | Delivering(charge: nat) | Appending(charge: nat)
    | Looking(charge: nat) | Locating(charge: nat) | Settling(charge: nat)
    | Done

  datatype Resource = Source | Dest | Bytes | Slot

  /** What a goroutine holds of each resource while it is doing this. */
  function Held(r: Resource, s: Stage): nat {
    match r
    case Source =>
      if s.ReadSource? || s.WantDest? || s.Both? || s.Flags? || s.Meta? || s.Running? || s.Charging? || s.Reading? ||
        s.Pushing?
      then 1 else 0
    case Dest => if s.Both? || s.Indexing? || s.Passing? || s.Appending? || s.Locating? then 1 else 0
    case Bytes =>
      if s.Reading? || s.Pushing? || s.Delivering? || s.Appending? || s.Looking? || s.Locating? || s.Settling?
      then s.charge else 0
    case Slot =>
      if s.WantSource? || s.ReadSource? || s.WantDest? || s.Both? || s.Indexing? || s.Waiting? ||
         s.WantFlags? || s.Flags? || s.WantPass? || s.Passing?
      then 1 else 0
  }

  function Total(r: Resource, ss: seq<Stage>): nat {
    if ss == [] then 0 else Held(r, ss[0]) + Total(r, ss[1..])
  }

  function Sum(ns: seq<nat>): nat {
    if ns == [] then 0 else ns[0] + Sum(ns[1..])
  }

  /** `left` chunks are still to be handed out; `pending` are the charges of the messages waiting to be appended. */
  datatype Folder = Folder(copying: bool, left: nat, pending: seq<nat>, closed: bool, failed: bool, cancelled: bool)

  function PendingBytes(fs: seq<Folder>): nat {
    if fs == [] then 0 else Sum(fs[0].pending) + PendingBytes(fs[1..])
  }

  /** The sizes of the pools, the budget, the folders worked on at once and the channel are all at least one. */
  datatype Limits = Limits(source: nat, dest: nat, bytes: nat, slots: nat, channel: nat)

  /** `queue` is who waits for the budget, in the order they asked. */
  datatype World = World(
    limits: Limits,
    roles: seq<Role>,
    stages: seq<Stage>,
    folders: seq<Folder>,
    source: int,
    dest: int,
    bytes: int,
    slots: int,
    queue: seq<nat>)

  datatype Event =
    | Start(i: nat)
    | Lease(i: nat)
    | Work(i: nat, next: Stage)
    | BeginCopy(i: nat, chunks: nat)
    | Spawn(i: nat)
    | TakeChunk(i: nat)
    | NoMoreChunks(i: nat)
    | Grant
    | Push(i: nat)
    | Take(i: nat)
    | NoMoreItems(i: nat)
    | GiveUp(i: nat)
    | Close(f: nat)
    | Drain(f: nat, next: Stage)

  /* ---------- who is who ---------- */

  /** The folders' workers come first; every folder has at least one fetcher and one appender. */
  ghost predicate WellFormed(w: World) {
    w.limits.source >= 1 && w.limits.dest >= 1 && w.limits.bytes >= 1 && w.limits.slots >= 1 && w.limits.channel >= 1 &&
    |w.stages| == |w.roles| && |w.folders| <= |w.roles| &&
    (forall i :: 0 <= i < |w.roles| ==> (w.roles[i].Worker? <==> i < |w.folders|)) &&
    (forall i :: 0 <= i < |w.roles| && !w.roles[i].Worker? ==> w.roles[i].folder < |w.folders|) &&
    (forall f :: 0 <= f < |w.folders| ==> exists i :: 0 <= i < |w.roles| && w.roles[i] == Fetcher(f)) &&
    (forall f :: 0 <= f < |w.folders| ==> exists i :: 0 <= i < |w.roles| && w.roles[i] == Appender(f)) &&
    (forall i :: 0 <= i < |w.stages| ==> StageFits(w.roles[i], w.stages[i]))
  }

  predicate StageFits(r: Role, s: Stage) {
    match r
    case Worker =>
      s.Queued? || s.WantSource? || s.ReadSource? || s.WantDest? || s.Both? || s.Indexing? || s.Waiting? ||
      s.WantFlags? || s.Flags? || s.WantPass? || s.Passing? || s.Done?
    case Fetcher(_) =>
      s.Unborn? || s.Asking? || s.WantMeta? || s.Meta? || s.WantRun? || s.Running? || s.Charging? || s.Reading? ||
      s.Pushing? || s.Done?
    case Appender(_) =>
      s.Unborn? || s.Taking? || s.Delivering? || s.Appending? || s.Looking? || s.Locating? || s.Settling? || s.Done?
  }

  predicate GroupDone(w: World, f: nat)
    requires |w.stages| == |w.roles|
  {
    forall i :: 0 <= i < |w.roles| && (w.roles[i] == Fetcher(f) || w.roles[i] == Appender(f)) ==> w.stages[i].Done?
  }

  predicate GroupUnborn(w: World, f: nat)
    requires |w.stages| == |w.roles|
  {
    forall i :: 0 <= i < |w.roles| && (w.roles[i] == Fetcher(f) || w.roles[i] == Appender(f)) ==> w.stages[i].Unborn?
  }

  /** A worker that has not come to the copying of its folder. */
  predicate Early(s: Stage) {
    s.Queued? || s.WantSource? || s.ReadSource? || s.WantDest? || s.Both? || s.Indexing?
  }

  predicate FetchersDone(w: World, f: nat)
    requires |w.stages| == |w.roles|
  {
    forall i :: 0 <= i < |w.roles| && w.roles[i] == Fetcher(f) ==> w.stages[i].Done?
  }

  /* ---------- the steps ---------- */

  /** Where a worker goes when its messages are copied or there were none: the flags, a pass, or neither. */
  predicate Afterwards(next: Stage) { next.WantFlags? || next.WantPass? || next.Done? }

  /**
   What the budget charges for a message of this size, as far as the server says:
   at least a byte, and no more than there is.
   */
  function ChargeFor(bytes: nat, size: int): (charge: nat)
    requires bytes >= 1
    ensures 1 <= charge <= bytes && (1 <= size <= bytes ==> charge == size)
  {
    if size < 1 then 1 else if size > bytes then bytes else size
  }

  /** Every charge the machine allows is some message's, and every message's is one it allows. */
  lemma ChargesAreMessages(bytes: nat, charge: nat)
    requires bytes >= 1
    ensures 1 <= charge <= bytes <==> exists size: int :: ChargeFor(bytes, size) == charge
  {
    assert 1 <= charge <= bytes ==> ChargeFor(bytes, charge) == charge;
  }

  /** What a goroutine at work may do next; every failure is a way to Done. */
  predicate CanWork(limits: Limits, s: Stage, next: Stage) {
    match s
    case ReadSource => next.WantDest? || next.Done?
    case Both => next.Indexing? || next.Done?
    case Indexing => Afterwards(next)
    case Flags => next.WantPass? || next.Done?
    case Passing => next.WantPass? || next.Done?
    case Meta => next.WantRun? || next.WantMeta? || next.Asking? || next.Done?
    case Running => (next.Charging? && 1 <= next.size <= limits.bytes) || next.WantRun? || next.Running? ||
      next.Asking? || next.Done?
    case Reading(c) => next == Pushing(c) || next.Running? || next.WantRun? || next.Done?
    case Appending(c) => next == Settling(c) || next == Looking(c) || next.Taking? || next.Done?
    case Locating(c) => next == Settling(c) || next == Delivering(c) || next.Done?
    case Settling(_) => next.Taking? || next.Done?
    case _ => false
  }

  function Leased(s: Stage): Option<Stage> {
    match s
    case WantSource => Some(ReadSource)
    case WantDest => Some(Both)
    case WantFlags => Some(Flags)
    case WantPass => Some(Passing)
    case WantMeta => Some(Meta)
    case WantRun => Some(Running)
    case Delivering(c) => Some(Appending(c))
    case Looking(c) => Some(Locating(c))
    case _ => None
  }

  predicate WantsSource(s: Stage) { s.WantSource? || s.WantFlags? || s.WantMeta? || s.WantRun? }

  predicate WantsDest(s: Stage) { s.WantDest? || s.WantPass? || s.Delivering? || s.Looking? }

  /** The waits of a folder's own goroutines that its cancellation ends. */
  predicate Cancellable(s: Stage) {
    s.WantMeta? || s.WantRun? || s.Charging? || s.Pushing? || s.Delivering? || s.Looking?
  }

  predicate At(w: World, i: nat) { i < |w.stages| && i < |w.roles| }

  predicate InFolder(w: World, i: nat) {
    At(w, i) && !w.roles[i].Worker? && w.roles[i].folder < |w.folders|
  }

  function FolderOf(w: World, i: nat): Folder
    requires InFolder(w, i)
  {
    w.folders[w.roles[i].folder]
  }

  predicate Enabled(w: World, e: Event)
    requires |w.stages| == |w.roles|
  {
    match e
    case Start(i) => At(w, i) && w.stages[i].Queued? && w.slots >= 1
    case Lease(i) =>
      At(w, i) && ((WantsSource(w.stages[i]) && w.source >= 1) || (WantsDest(w.stages[i]) && w.dest >= 1))
    case Work(i, next) => At(w, i) && CanWork(w.limits, w.stages[i], next)
    case BeginCopy(i, chunks) => At(w, i) && i < |w.folders| && w.stages[i].Indexing? && chunks >= 1
    case Spawn(i) => InFolder(w, i) && w.stages[i].Unborn? && FolderOf(w, i).copying
    case TakeChunk(i) => InFolder(w, i) && w.stages[i].Asking? && FolderOf(w, i).left > 0
    case NoMoreChunks(i) => InFolder(w, i) && w.stages[i].Asking? &&
      (FolderOf(w, i).left == 0 || FolderOf(w, i).cancelled)
    case Grant => w.queue != [] && At(w, w.queue[0]) && w.stages[w.queue[0]].Charging? &&
      w.bytes >= w.stages[w.queue[0]].size
    case Push(i) =>
      InFolder(w, i) && w.stages[i].Pushing? && |FolderOf(w, i).pending| < w.limits.channel && !FolderOf(w, i).closed
    case Take(i) => InFolder(w, i) && w.stages[i].Taking? && FolderOf(w, i).pending != []
    case NoMoreItems(i) => InFolder(w, i) && w.stages[i].Taking? && FolderOf(w, i).closed &&
      FolderOf(w, i).pending == []
    case GiveUp(i) => InFolder(w, i) && Cancellable(w.stages[i]) && FolderOf(w, i).cancelled
    case Close(f) => f < |w.folders| && w.folders[f].copying && !w.folders[f].closed && FetchersDone(w, f)
    case Drain(f, next) =>
      f < |w.folders| && At(w, f) && w.stages[f].Waiting? && w.folders[f].closed && GroupDone(w, f) && Afterwards(next)
  }

  /** A goroutine goes from one stage to another, giving back what it no longer holds and taking what it does. */
  function Moved(w: World, i: nat, next: Stage): World
    requires i < |w.stages|
  {
    var s := w.stages[i];
    w.(stages := w.stages[i := next],
       source := w.source + Held(Source, s) - Held(Source, next),
       dest := w.dest + Held(Dest, s) - Held(Dest, next),
       bytes := w.bytes + Held(Bytes, s) - Held(Bytes, next),
       slots := w.slots + Held(Slot, s) - Held(Slot, next))
  }

  function WithFolder(w: World, f: nat, folder: Folder): World
    requires f < |w.folders|
  {
    w.(folders := w.folders[f := folder])
  }

  /** A failed appender cancels its folder at once; what a fetcher fails with comes out when all of them have ended. */
  function Failed(w: World, i: nat): World
    requires InFolder(w, i)
  {
    var f := w.roles[i].folder;
    if w.roles[i].Fetcher? then WithFolder(w, f, w.folders[f].(failed := true))
    else WithFolder(w, f, w.folders[f].(cancelled := true))
  }

  function Without(q: seq<nat>, i: nat): seq<nat> {
    if q == [] then [] else if q[0] == i then Without(q[1..], i) else [q[0]] + Without(q[1..], i)
  }

  /** What was left in the channel of a folder is thrown away with its charges, and its worker goes on. */
  function Drained(w: World, f: nat, next: Stage): World
    requires f < |w.folders| && f < |w.stages|
  {
    var folder := w.folders[f];
    WithFolder(Moved(w, f, next), f, folder.(pending := [])).(bytes := w.bytes + Sum(folder.pending))
  }

  function Apply(w: World, e: Event): World
    requires |w.stages| == |w.roles| && Enabled(w, e)
  {
    match e
    case Start(i) => Moved(w, i, WantSource)
    case Lease(i) => Moved(w, i, Leased(w.stages[i]).value)
    case Work(i, next) =>
      var w' := Moved(w, i, next);
      if next.Charging? then w'.(queue := w.queue + [i])
      else if next.Done? && InFolder(w, i) then Failed(w', i)
      else w'
    case BeginCopy(i, chunks) => WithFolder(Moved(w, i, Waiting), i, w.folders[i].(copying := true, left := chunks))
    case Spawn(i) => Moved(w, i, if w.roles[i].Fetcher? then Asking else Taking)
    case TakeChunk(i) => WithFolder(Moved(w, i, WantMeta), w.roles[i].folder,
      FolderOf(w, i).(left := FolderOf(w, i).left - 1))
    case NoMoreChunks(i) => Moved(w, i, Done)
    case Grant => Moved(w, w.queue[0], Reading(w.stages[w.queue[0]].size)).(queue := w.queue[1..])
    case Push(i) =>
      WithFolder(Moved(w, i, Running), w.roles[i].folder,
                 FolderOf(w, i).(pending := FolderOf(w, i).pending + [w.stages[i].charge])).(bytes := w.bytes)
    case Take(i) =>
      var folder := FolderOf(w, i);
      WithFolder(Moved(w, i, Delivering(folder.pending[0])), w.roles[i].folder,
        folder.(pending := folder.pending[1..])).(bytes := w.bytes)
    case NoMoreItems(i) => Moved(w, i, Done)
    case GiveUp(i) => Failed(Moved(w, i, Done).(queue := Without(w.queue, i)), i)
    case Close(f) => WithFolder(w, f,
      w.folders[f].(closed := true, cancelled := w.folders[f].cancelled || w.folders[f].failed))
    case Drain(f, next) => Drained(w, f, next)
  }

  /* ---------- what every step keeps ---------- */

  /** Nothing is lost or made: what is free and what is held add up to what there is. */
  predicate Conserved(w: World) {
    w.source >= 0 && w.dest >= 0 && w.bytes >= 0 && w.slots >= 0 &&
    w.source + Total(Source, w.stages) == w.limits.source &&
    w.dest + Total(Dest, w.stages) == w.limits.dest &&
    w.bytes + Total(Bytes, w.stages) + PendingBytes(w.folders) == w.limits.bytes &&
    w.slots + Total(Slot, w.stages) == w.limits.slots
  }

  /** The budget's queue is exactly those who wait for it, none asking for more than there is. */
  predicate QueueOk(w: World) {
    (forall k :: 0 <= k < |w.queue| ==> w.queue[k] < |w.stages| && w.stages[w.queue[k]].Charging?) &&
    (forall i :: 0 <= i < |w.stages| && w.stages[i].Charging? ==>
       i in w.queue && 1 <= w.stages[i].size <= w.limits.bytes) &&
    (forall j, k :: 0 <= j < k < |w.queue| ==> w.queue[j] != w.queue[k])
  }

  predicate FolderOk(w: World, f: nat)
    requires |w.stages| == |w.roles| && f < |w.folders| && f < |w.stages|
  {
    var folder := w.folders[f];
    (w.stages[f].Waiting? ==> folder.copying) &&
    (Early(w.stages[f]) ==> !folder.copying) &&
    (folder.closed ==> folder.copying && FetchersDone(w, f)) &&
    (!folder.copying ==> folder.pending == [] && GroupUnborn(w, f)) &&
    (folder.copying && !w.stages[f].Waiting? ==> folder.pending == [] && GroupDone(w, f)) &&
    (forall i :: 0 <= i < |w.roles| && w.roles[i] == Appender(f) && w.stages[i].Done? ==>
       folder.cancelled || (folder.closed && folder.pending == []))
  }

  ghost predicate Inv(w: World) {
    WellFormed(w) && Conserved(w) && QueueOk(w) && FoldersOk(w)
  }

  ghost predicate FoldersOk(w: World) {
    |w.stages| == |w.roles| && |w.folders| <= |w.stages| && forall f :: 0 <= f < |w.folders| ==> FolderOk(w, f)
  }

  lemma {:induction false} MovedTotal(r: Resource, ss: seq<Stage>, i: nat, next: Stage)
    requires i < |ss|
    ensures Total(r, ss[i := next]) + Held(r, ss[i]) == Total(r, ss) + Held(r, next)
  {
    if i == 0 {
      assert ss[i := next][1..] == ss[1..];
    } else {
      MovedTotal(r, ss[1..], i - 1, next);
      assert ss[i := next][1..] == ss[1..][i - 1 := next];
    }
  }

  lemma {:induction false} MovedPending(fs: seq<Folder>, f: nat, folder: Folder)
    requires f < |fs|
    ensures PendingBytes(fs[f := folder]) + Sum(fs[f].pending) == PendingBytes(fs) + Sum(folder.pending)
  {
    if f == 0 {
      assert fs[f := folder][1..] == fs[1..];
    } else {
      MovedPending(fs[1..], f - 1, folder);
      assert fs[f := folder][1..] == fs[1..][f - 1 := folder];
    }
  }

  lemma {:induction false} SumAppended(ns: seq<nat>, n: nat)
    ensures Sum(ns + [n]) == Sum(ns) + n
  {
    if ns != [] {
      assert (ns + [n])[1..] == ns[1..] + [n];
      SumAppended(ns[1..], n);
    }
  }

  lemma MovedConserved(w: World, i: nat, next: Stage)
    requires Conserved(w) && i < |w.stages|
    requires w.source + Held(Source, w.stages[i]) >= Held(Source, next) &&
      w.dest + Held(Dest, w.stages[i]) >= Held(Dest, next)
    requires w.bytes + Held(Bytes, w.stages[i]) >= Held(Bytes, next) &&
      w.slots + Held(Slot, w.stages[i]) >= Held(Slot, next)
    ensures Conserved(Moved(w, i, next))
  {
    hide Held;
    MovedTotal(Source, w.stages, i, next);
    MovedTotal(Dest, w.stages, i, next);
    MovedTotal(Bytes, w.stages, i, next);
    MovedTotal(Slot, w.stages, i, next);
  }

  /** Changing a folder without touching what is pending changes no total. */
  lemma FolderConserved(w: World, f: nat, folder: Folder)
    requires Conserved(w) && f < |w.folders| && folder.pending == w.folders[f].pending
    ensures Conserved(WithFolder(w, f, folder))
  {
    MovedPending(w.folders, f, folder);
  }

  /* ---------- the folders ---------- */

  /** A live fetcher or appender of a folder means that it is being copied and its worker waits. */
  lemma LiveMeansCopying(w: World, i: nat)
    requires FoldersOk(w) && InFolder(w, i) && !w.stages[i].Done? && (w.stages[i].Unborn? ==> FolderOf(w, i).copying)
    ensures FolderOf(w, i).copying && w.stages[w.roles[i].folder].Waiting?
    ensures w.roles[i].Fetcher? ==> !FolderOf(w, i).closed
  {
    var f := w.roles[i].folder;
    assert FolderOk(w, f);
    assert w.roles[i] == Fetcher(f) || w.roles[i] == Appender(f);
  }

  lemma GroupMoveKeepsFolders(w: World, i: nat, next: Stage, folder: Folder, w': World)
    requires FoldersOk(w) && InFolder(w, i) && !w.stages[i].Done? && (w.stages[i].Unborn? ==> FolderOf(w, i).copying)
    requires |w.folders| <= i && !next.Unborn?
    requires var g := w.folders[w.roles[i].folder];
             folder.copying == g.copying && folder.closed == g.closed && (g.cancelled ==> folder.cancelled) &&
             (folder.pending == g.pending || w.roles[i].Fetcher? || |folder.pending| < |g.pending|)
    requires w.roles[i].Appender? && next.Done? ==> folder.cancelled || (folder.closed && folder.pending == [])
    requires w'.roles == w.roles && w'.stages == w.stages[i := next] &&
      w'.folders == w.folders[w.roles[i].folder := folder]
    ensures FoldersOk(w')
  {
    LiveMeansCopying(w, i);
    var h := w.roles[i].folder;
    forall f | 0 <= f < |w'.folders|
      ensures FolderOk(w', f)
    {
      assert FolderOk(w, f);
      if f != h {
        SameGroup(w, w', f, i);
      }
    }
  }

  /** The other folders see nothing of it. */
  lemma SameGroup(w: World, w': World, f: nat, i: nat)
    requires |w.stages| == |w.roles| && w'.roles == w.roles && i < |w.stages| && f < |w.folders| <= |w.stages|
    requires |w'.stages| == |w.stages| && |w'.folders| == |w.folders| && w'.stages == w.stages[i := w'.stages[i]]
    requires w.roles[i] != Fetcher(f) && w.roles[i] != Appender(f) && i != f
    requires w'.folders[f] == w.folders[f] && FolderOk(w, f)
    ensures FolderOk(w', f)
  {
  }

  lemma WorkerMoveKeepsFolders(w: World, i: nat, next: Stage, w': World)
    requires FoldersOk(w) && i < |w.folders| && w.roles[i].Worker? && !w.stages[i].Waiting? && !next.Waiting?
    requires Early(next) ==> Early(w.stages[i])
    requires w'.roles == w.roles && w'.stages == w.stages[i := next] && w'.folders == w.folders
    ensures FoldersOk(w')
  {
    forall f | 0 <= f < |w'.folders|
      ensures FolderOk(w', f)
    {
      assert FolderOk(w, f);
    }
  }

  lemma ShapeKept(w: World, w': World, i: nat)
    requires WellFormed(w) && i < |w.stages| && |w'.stages| == |w.stages| && w'.stages == w.stages[i := w'.stages[i]]
    requires w'.limits == w.limits && w'.roles == w.roles && |w'.folders| == |w.folders| &&
      StageFits(w.roles[i], w'.stages[i])
    ensures WellFormed(w')
  {
  }

  lemma QueueKept(w: World, w': World, i: nat)
    requires QueueOk(w) && i < |w.stages| && |w'.stages| == |w.stages| && w'.stages == w.stages[i := w'.stages[i]]
    requires w'.limits == w.limits && w'.queue == w.queue && !w.stages[i].Charging? && !w'.stages[i].Charging?
    ensures QueueOk(w')
  {
  }

  /* ---------- every step ---------- */

  lemma StartKeeps(w: World, i: nat)
    requires Inv(w) && Enabled(w, Start(i))
    ensures Inv(Apply(w, Start(i)))
  {
    var w' := Moved(w, i, WantSource);
    MovedConserved(w, i, WantSource);
    ShapeKept(w, w', i);
    QueueKept(w, w', i);
    WorkerMoveKeepsFolders(w, i, WantSource, w');
  }

  lemma RolesByIndex(w: World, i: nat)
    requires WellFormed(w) && i < |w.stages|
    ensures StageFits(w.roles[i], w.stages[i])
    ensures w.roles[i].Worker? <==> i < |w.folders|
    ensures !w.roles[i].Worker? ==> InFolder(w, i)
  {
  }

  /** A goroutine that is neither finished nor unborn moves to a stage that is not Done, Waiting, Unborn or Early. */
  lemma PlainMoveKeeps(w: World, i: nat, next: Stage)
    requires Inv(w) && i < |w.stages| && !w.stages[i].Done? && !w.stages[i].Unborn? && !w.stages[i].Waiting?
    requires StageFits(w.roles[i], next) && !next.Done? && !next.Waiting? && !next.Unborn? &&
      (Early(next) ==> Early(w.stages[i]))
    requires !w.stages[i].Charging? && !next.Charging?
    requires w.source + Held(Source, w.stages[i]) >= Held(Source, next) &&
      w.dest + Held(Dest, w.stages[i]) >= Held(Dest, next)
    requires w.bytes + Held(Bytes, w.stages[i]) >= Held(Bytes, next) &&
      w.slots + Held(Slot, w.stages[i]) >= Held(Slot, next)
    ensures Inv(Moved(w, i, next))
  {
    hide Held, Conserved, QueueOk, FoldersOk, WellFormed, StageFits;
    var w' := Moved(w, i, next);
    RolesByIndex(w, i);
    MovedConserved(w, i, next);
    ShapeKept(w, w', i);
    QueueKept(w, w', i);
    if w.roles[i].Worker? {
      WorkerMoveKeepsFolders(w, i, next, w');
    } else {
      assert w.folders == w.folders[w.roles[i].folder := FolderOf(w, i)];
      GroupMoveKeepsFolders(w, i, next, FolderOf(w, i), w');
    }
  }

  lemma ResourcesAreFree(w: World)
    requires Conserved(w)
    ensures w.source >= 0 && w.dest >= 0 && w.bytes >= 0 && w.slots >= 0
  {
  }

  lemma LeaseKeeps(w: World, i: nat)
    requires Inv(w) && Enabled(w, Lease(i))
    ensures Inv(Apply(w, Lease(i)))
  {
    ResourcesAreFree(w);
    RolesByIndex(w, i);
    hide Conserved, QueueOk, FoldersOk, WellFormed;
    PlainMoveKeeps(w, i, Leased(w.stages[i]).value);
  }

  lemma WorkOnKeeps(w: World, i: nat, next: Stage)
    requires Inv(w) && Enabled(w, Work(i, next)) && !next.Charging? && !next.Done?
    ensures Inv(Apply(w, Work(i, next)))
  {
    ResourcesAreFree(w);
    RolesByIndex(w, i);
    hide Conserved, QueueOk, FoldersOk, WellFormed;
    PlainMoveKeeps(w, i, next);
  }

  lemma ChargeKeeps(w: World, i: nat, next: Stage)
    requires Inv(w) && Enabled(w, Work(i, next)) && next.Charging?
    ensures Inv(Apply(w, Work(i, next)))
  {
    RolesByIndex(w, i);
    var w' := Moved(w, i, next);
    MovedConserved(w, i, next);
    ShapeKept(w, w', i);
    hide Conserved, FolderOk, WellFormed;
    assert w.folders == w.folders[w.roles[i].folder := FolderOf(w, i)];
    GroupMoveKeepsFolders(w, i, next, FolderOf(w, i), w'.(queue := w.queue + [i]));
    QueueJoined(w, i, next);
    SameShape(w', w'.(queue := w.queue + [i]));
  }

  lemma SameShape(w: World, w': World)
    requires w' == w.(queue := w'.queue)
    ensures WellFormed(w) ==> WellFormed(w')
    ensures Conserved(w) ==> Conserved(w')
  {
  }

  lemma QueueJoined(w: World, i: nat, next: Stage)
    requires QueueOk(w) && i < |w.stages| && !w.stages[i].Charging? && next.Charging? &&
      1 <= next.size <= w.limits.bytes
    ensures QueueOk(Moved(w, i, next).(queue := w.queue + [i]))
  {
    var w' := Moved(w, i, next).(queue := w.queue + [i]);
    forall k | 0 <= k < |w'.queue|
      ensures w'.queue[k] < |w'.stages| && w'.stages[w'.queue[k]].Charging?
    {
    }
  }

  /** A worker ends, or a fetcher or appender does and its folder remembers. */
  lemma WorkerEndKeeps(w: World, i: nat)
    requires Inv(w) && i < |w.folders| && !w.stages[i].Waiting?
    ensures Inv(Moved(w, i, Done))
  {
    RolesByIndex(w, i);
    ResourcesAreFree(w);
    hide Conserved, FolderOk, WellFormed;
    var w' := Moved(w, i, Done);
    MovedConserved(w, i, Done);
    ShapeKept(w, w', i);
    QueueKept(w, w', i);
    WorkerMoveKeepsFolders(w, i, Done, w');
  }

  lemma GroupEndKeeps(w: World, i: nat)
    requires Inv(w) && InFolder(w, i) && |w.folders| <= i && !w.stages[i].Done? && !w.stages[i].Unborn? &&
      !w.stages[i].Charging?
    ensures Inv(Failed(Moved(w, i, Done), i))
  {
    ResourcesAreFree(w);
    hide FolderOk, WellFormed, QueueOk;
    var w1 := Moved(w, i, Done);
    var w' := Failed(w1, i);
    MovedConserved(w, i, Done);
    hide Conserved;
    FolderConserved(w1, w.roles[i].folder, w'.folders[w.roles[i].folder]);
    ShapeKept(w, w', i);
    QueueKept(w, w', i);
    GroupMoveKeepsFolders(w, i, Done, w'.folders[w.roles[i].folder], w');
  }

  lemma WorkEndKeeps(w: World, i: nat)
    requires Inv(w) && Enabled(w, Work(i, Done))
    ensures Inv(Apply(w, Work(i, Done)))
  {
    RolesByIndex(w, i);
    hide Conserved, FoldersOk, QueueOk, WellFormed;
    if i < |w.folders| {
      WorkerEndKeeps(w, i);
    } else {
      GroupEndKeeps(w, i);
    }
  }

  lemma BeginKeepsFolder(w: World, i: nat, chunks: nat, f: nat)
    requires FoldersOk(w) && i < |w.folders| && w.stages[i].Indexing? && w.roles[i].Worker? && f < |w.folders|
    ensures FolderOk(WithFolder(Moved(w, i, Waiting), i, w.folders[i].(copying := true, left := chunks)), f)
  {
    assert FolderOk(w, f);
  }

  lemma BeginKeeps(w: World, i: nat, chunks: nat)
    requires Inv(w) && Enabled(w, BeginCopy(i, chunks))
    ensures Inv(Apply(w, BeginCopy(i, chunks)))
  {
    RolesByIndex(w, i);
    ResourcesAreFree(w);
    hide WellFormed, FolderOk;
    var w' := Apply(w, BeginCopy(i, chunks));
    MovedConserved(w, i, Waiting);
    FolderConserved(Moved(w, i, Waiting), i, w'.folders[i]);
    ShapeKept(w, w', i);
    QueueKept(w, w', i);
    forall f | 0 <= f < |w'.folders|
      ensures FolderOk(w', f)
    {
      BeginKeepsFolder(w, i, chunks, f);
    }
  }

  /** A fetcher or appender moves, holding nothing before or after, and its folder changes nothing that is pending. */
  lemma EmptyHandedKeeps(w: World, i: nat, next: Stage, folder: Folder)
    requires Inv(w) && InFolder(w, i) && !w.stages[i].Done? && (w.stages[i].Unborn? ==> FolderOf(w, i).copying) &&
      !next.Unborn?
    requires (forall r :: Held(r, w.stages[i]) == 0 && Held(r, next) == 0) && !w.stages[i].Charging? && !next.Charging?
    requires StageFits(w.roles[i], next)
    requires folder == FolderOf(w, i).(left := folder.left)
    requires w.roles[i].Appender? && next.Done? ==> folder.cancelled || (folder.closed && folder.pending == [])
    ensures Inv(WithFolder(Moved(w, i, next), w.roles[i].folder, folder))
  {
    RolesByIndex(w, i);
    ResourcesAreFree(w);
    var w' := WithFolder(Moved(w, i, next), w.roles[i].folder, folder);
    hide WellFormed, FolderOk, QueueOk, Conserved, Held, StageFits;
    MovedConserved(w, i, next);
    FolderConserved(Moved(w, i, next), w.roles[i].folder, folder);
    ShapeKept(w, w', i);
    QueueKept(w, w', i);
    GroupMoveKeepsFolders(w, i, next, folder, w');
  }

  lemma SpawnKeeps(w: World, i: nat)
    requires Inv(w) && Enabled(w, Spawn(i))
    ensures Inv(Apply(w, Spawn(i)))
  {
    RolesByIndex(w, i);
    hide Inv;
    var next := if w.roles[i].Fetcher? then Asking else Taking;
    EmptyHandedKeeps(w, i, next, FolderOf(w, i));
    SameFolder(Moved(w, i, next), i);
  }

  lemma TakeChunkKeeps(w: World, i: nat)
    requires Inv(w) && Enabled(w, TakeChunk(i))
    ensures Inv(Apply(w, TakeChunk(i)))
  {
    RolesByIndex(w, i);
    hide Inv;
    EmptyHandedKeeps(w, i, WantMeta, FolderOf(w, i).(left := FolderOf(w, i).left - 1));
  }

  lemma SameFolder(w: World, i: nat)
    requires InFolder(w, i)
    ensures WithFolder(w, w.roles[i].folder, FolderOf(w, i)) == w
  {
  }

  lemma NoMoreChunksKeeps(w: World, i: nat)
    requires Inv(w) && Enabled(w, NoMoreChunks(i))
    ensures Inv(Apply(w, NoMoreChunks(i)))
  {
    RolesByIndex(w, i);
    hide Inv;
    EmptyHandedKeeps(w, i, Done, FolderOf(w, i));
    SameFolder(Moved(w, i, Done), i);
  }

  lemma GrantKeeps(w: World)
    requires Inv(w) && Enabled(w, Grant)
    ensures Inv(Apply(w, Grant))
  {
    var i := w.queue[0];
    RolesByIndex(w, i);
    ResourcesAreFree(w);
    var next := Reading(w.stages[i].size);
    var w' := Apply(w, Grant);
    MovedConserved(w, i, next);
    ShapeKept(w, Moved(w, i, next), i);
    hide Conserved, WellFormed, FolderOk;
    SameShape(Moved(w, i, next), w');
    assert w.folders == w.folders[w.roles[i].folder := FolderOf(w, i)];
    GroupMoveKeepsFolders(w, i, next, FolderOf(w, i), w');
    QueueShortened(w, next);
  }

  lemma QueueShortened(w: World, next: Stage)
    requires QueueOk(w) && w.queue != [] && w.queue[0] < |w.stages| && !next.Charging?
    ensures QueueOk(Moved(w, w.queue[0], next).(queue := w.queue[1..]))
  {
    var w' := Moved(w, w.queue[0], next).(queue := w.queue[1..]);
    forall i | 0 <= i < |w'.stages| && w'.stages[i].Charging?
      ensures i in w'.queue
    {
      assert i in w.queue;
      var k :| 0 <= k < |w.queue| && w.queue[k] == i;
      assert w'.queue[k - 1] == i;
    }
  }

  lemma PushKeeps(w: World, i: nat)
    requires Inv(w) && Enabled(w, Push(i))
    ensures Inv(Apply(w, Push(i)))
  {
    RolesByIndex(w, i);
    ResourcesAreFree(w);
    var w' := Apply(w, Push(i));
    var h := w.roles[i].folder;
    PushConserved(w, i);
    hide WellFormed, FolderOk, Conserved;
    ShapeKept(w, w', i);
    QueueKept(w, w', i);
    GroupMoveKeepsFolders(w, i, Running, w'.folders[h], w');
  }

  /** A charge goes with its message into the channel, and out of it again. */
  lemma PushConserved(w: World, i: nat)
    requires Conserved(w) && InFolder(w, i) && w.stages[i].Pushing?
    ensures var folder := FolderOf(w, i);
            Conserved(WithFolder(Moved(w, i, Running), w.roles[i].folder,
                                 folder.(pending := folder.pending + [w.stages[i].charge])).(bytes := w.bytes))
  {
    var folder := FolderOf(w, i);
    MovedConserved(w, i, Running);
    MovedPending(w.folders, w.roles[i].folder, folder.(pending := folder.pending + [w.stages[i].charge]));
    SumAppended(folder.pending, w.stages[i].charge);
  }

  lemma TakeConserved(w: World, i: nat)
    requires Conserved(w) && InFolder(w, i) && w.stages[i].Taking? && FolderOf(w, i).pending != []
    ensures var folder := FolderOf(w, i);
            Conserved(WithFolder(Moved(w, i, Delivering(folder.pending[0])), w.roles[i].folder,
                                 folder.(pending := folder.pending[1..])).(bytes := w.bytes))
  {
    var folder := FolderOf(w, i);
    var next := Delivering(folder.pending[0]);
    MovedTotal(Source, w.stages, i, next);
    MovedTotal(Dest, w.stages, i, next);
    MovedTotal(Bytes, w.stages, i, next);
    MovedTotal(Slot, w.stages, i, next);
    MovedPending(w.folders, w.roles[i].folder, folder.(pending := folder.pending[1..]));
  }

  lemma TakeKeeps(w: World, i: nat)
    requires Inv(w) && Enabled(w, Take(i))
    ensures Inv(Apply(w, Take(i)))
  {
    RolesByIndex(w, i);
    var w' := Apply(w, Take(i));
    var h := w.roles[i].folder;
    TakeConserved(w, i);
    hide WellFormed, FolderOk, Conserved;
    ShapeKept(w, w', i);
    QueueKept(w, w', i);
    GroupMoveKeepsFolders(w, i, w'.stages[i], w'.folders[h], w');
  }

  lemma NoMoreItemsKeeps(w: World, i: nat)
    requires Inv(w) && Enabled(w, NoMoreItems(i))
    ensures Inv(Apply(w, NoMoreItems(i)))
  {
    RolesByIndex(w, i);
    hide Inv;
    EmptyHandedKeeps(w, i, Done, FolderOf(w, i));
    SameFolder(Moved(w, i, Done), i);
  }

  lemma {:induction false} WithoutMembers(q: seq<nat>, i: nat)
    ensures forall k :: 0 <= k < |Without(q, i)| ==> Without(q, i)[k] in q && Without(q, i)[k] != i
    ensures forall j :: j in q && j != i ==> j in Without(q, i)
    ensures (forall j, k :: 0 <= j < k < |q| ==> q[j] != q[k]) ==>
              forall j, k :: 0 <= j < k < |Without(q, i)| ==> Without(q, i)[j] != Without(q, i)[k]
  {
    if q != [] {
      WithoutMembers(q[1..], i);
      assert forall j :: j in q <==> j == q[0] || j in q[1..];
      if forall j, k :: 0 <= j < k < |q| ==> q[j] != q[k] {
        forall j, k | 0 <= j < k < |q[1..]|
          ensures q[1..][j] != q[1..][k]
        {
          assert q[j + 1] != q[k + 1];
        }
        forall k | 0 <= k < |Without(q[1..], i)|
          ensures Without(q[1..], i)[k] != q[0]
        {
          var x := Without(q[1..], i)[k];
          assert x in q[1..];
          var m :| 0 <= m < |q[1..]| && q[1..][m] == x;
          assert q[m + 1] != q[0];
        }
      }
    }
  }

  lemma QueueLeft(w: World, i: nat)
    requires QueueOk(w) && i < |w.stages|
    ensures QueueOk(Moved(w, i, Done).(queue := Without(w.queue, i)))
  {
    WithoutMembers(w.queue, i);
    var w' := Moved(w, i, Done).(queue := Without(w.queue, i));
    forall k | 0 <= k < |w'.queue|
      ensures w'.queue[k] < |w'.stages| && w'.stages[w'.queue[k]].Charging?
    {
      assert w'.queue[k] in w.queue;
    }
  }

  lemma GiveUpKeeps(w: World, i: nat)
    requires Inv(w) && Enabled(w, GiveUp(i))
    ensures Inv(Apply(w, GiveUp(i)))
  {
    hide FolderOk;
    RolesByIndex(w, i);
    ResourcesAreFree(w);
    QueueLeft(w, i);
    var w1 := Moved(w, i, Done);
    var w2 := w1.(queue := Without(w.queue, i));
    var w' := Failed(w2, i);
    var h := w.roles[i].folder;
    MovedConserved(w, i, Done);
    hide WellFormed, QueueOk, Conserved;
    ShapeKept(w, w1, i);
    SameShape(w1, w2);
    FolderConserved(w2, h, w'.folders[h]);
    ShapeKept(w, w', i);
    SameQueue(w2, w');
    GroupMoveKeepsFolders(w, i, Done, w'.folders[h], w');
  }

  lemma SameQueue(w: World, w': World)
    requires QueueOk(w) && w'.queue == w.queue && w'.stages == w.stages && w'.limits == w.limits
    ensures QueueOk(w')
  {
  }

  lemma CloseKeeps(w: World, f: nat)
    requires Inv(w) && Enabled(w, Close(f))
    ensures Inv(Apply(w, Close(f)))
  {
    var w' := Apply(w, Close(f));
    FolderConserved(w, f, w'.folders[f]);
    hide Conserved;
    forall g | 0 <= g < |w'.folders|
      ensures FolderOk(w', g)
    {
      assert FolderOk(w, g);
    }
  }

  lemma DrainConserved(w: World, f: nat, next: Stage)
    requires Conserved(w) && f < |w.folders| && f < |w.stages| && w.stages[f].Waiting? && Afterwards(next)
    ensures Conserved(Drained(w, f, next))
  {
    MovedConserved(w, f, next);
    MovedPending(w.folders, f, w.folders[f].(pending := []));
  }

  lemma DrainKeepsFolder(w: World, f: nat, next: Stage, g: nat)
    requires FoldersOk(w) && f < |w.folders| && w.stages[f].Waiting? && w.roles[f].Worker? && GroupDone(w, f) &&
      g < |w.folders|
    requires w.folders[f].closed && Afterwards(next)
    ensures FolderOk(Drained(w, f, next), g)
  {
    assert FolderOk(w, g);
  }

  lemma DrainKeepsShape(w: World, f: nat, next: Stage)
    requires WellFormed(w) && QueueOk(w) && f < |w.folders| && w.stages[f].Waiting? && Afterwards(next)
    ensures var w' := Drained(w, f, next);
            WellFormed(w') && QueueOk(w')
  {
    var w' := Drained(w, f, next);
    ShapeKept(w, w', f);
    QueueKept(w, w', f);
  }

  lemma DrainKeeps(w: World, f: nat, next: Stage)
    requires Inv(w) && Enabled(w, Drain(f, next))
    ensures Inv(Apply(w, Drain(f, next)))
  {
    hide Conserved, WellFormed, FolderOk, QueueOk;
    var w' := Drained(w, f, next);
    RolesByIndex(w, f);
    DrainConserved(w, f, next);
    DrainKeepsShape(w, f, next);
    hide Moved, WithFolder;
    DrainSizes(w, f, next);
    forall g | 0 <= g < |w.folders|
      ensures FolderOk(w', g)
    {
      DrainKeepsFolder(w, f, next, g);
    }
  }

  lemma DrainSizes(w: World, f: nat, next: Stage)
    requires |w.stages| == |w.roles| && f < |w.folders| && f < |w.stages|
    ensures var w' := Drained(w, f, next);
            |w'.stages| == |w'.roles| && |w'.folders| == |w.folders| && |w'.stages| == |w.stages|
  {
  }

  /** Every step of every goroutine keeps the picture. */
  lemma StepKeepsInv(w: World, e: Event)
    requires Inv(w) && Enabled(w, e)
    ensures Inv(Apply(w, e))
  {
    hide Inv, Apply;
    match e
    case Start(i) => StartKeeps(w, i);
    case Lease(i) => LeaseKeeps(w, i);
    case Work(i, next) =>
      if next.Charging? {
        ChargeKeeps(w, i, next);
      } else if next.Done? {
        WorkEndKeeps(w, i);
      } else {
        WorkOnKeeps(w, i, next);
      }
    case BeginCopy(i, chunks) => BeginKeeps(w, i, chunks);
    case Spawn(i) => SpawnKeeps(w, i);
    case TakeChunk(i) => TakeChunkKeeps(w, i);
    case NoMoreChunks(i) => NoMoreChunksKeeps(w, i);
    case Grant => GrantKeeps(w);
    case Push(i) => PushKeeps(w, i);
    case Take(i) => TakeKeeps(w, i);
    case NoMoreItems(i) => NoMoreItemsKeeps(w, i);
    case GiveUp(i) => GiveUpKeeps(w, i);
    case Close(f) => CloseKeeps(w, f);
    case Drain(f, next) => DrainKeeps(w, f, next);
  }
}
