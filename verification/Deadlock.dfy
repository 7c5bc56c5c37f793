/**
 A run cannot deadlock. Whatever the sizes of the pools, the budget and the
 number of folders, and whatever fails, some goroutine can go on until every
 folder is finished; and then every connection and every byte has come back.

 The reason is an order: nobody waits for a source connection or the budget
 while holding a destination connection, nor for a source connection while
 holding the budget.
 */
module Deadlock {
  import opened Wrappers
  import opened CopyPipeline

  /** A run about to begin: nothing is held, and each folder has a worker, fetchers and appenders to come. */
  ghost predicate Ready(w: World) {
    WellFormed(w) &&
    (forall i :: 0 <= i < |w.stages| ==> w.stages[i] == if w.roles[i].Worker? then Queued else Unborn) &&
    (forall f :: 0 <= f < |w.folders| ==> w.folders[f] == Folder(false, 0, [], false, false, false)) &&
    w.source == w.limits.source && w.dest == w.limits.dest && w.bytes == w.limits.bytes && w.slots == w.limits.slots &&
    w.queue == []
  }

  function Run(w: World, es: seq<Event>): Option<World>
    requires |w.stages| == |w.roles|
    decreases |es|
  {
    if es == [] then Some(w)
    else if !Enabled(w, es[0]) || |Apply(w, es[0]).stages| != |Apply(w, es[0]).roles| then None
    else Run(Apply(w, es[0]), es[1..])
  }

  ghost predicate Reachable(w: World) {
    exists w0, es :: Ready(w0) && |w0.stages| == |w0.roles| && Run(w0, es) == Some(w)
  }

  lemma {:induction false} NothingHeld(r: Resource, ss: seq<Stage>)
    requires forall i :: 0 <= i < |ss| ==> Held(r, ss[i]) == 0
    ensures Total(r, ss) == 0
  {
    if ss != [] {
      NothingHeld(r, ss[1..]);
    }
  }

  lemma {:induction false} NothingPending(fs: seq<Folder>)
    requires forall f :: 0 <= f < |fs| ==> fs[f].pending == []
    ensures PendingBytes(fs) == 0
  {
    if fs != [] {
      NothingPending(fs[1..]);
    }
  }

  lemma ReadyHolds(w: World)
    requires Ready(w)
    ensures Inv(w)
  {
    NothingHeld(Source, w.stages);
    NothingHeld(Dest, w.stages);
    NothingHeld(Bytes, w.stages);
    NothingHeld(Slot, w.stages);
    NothingPending(w.folders);
    forall f | 0 <= f < |w.folders|
      ensures FolderOk(w, f)
    {
    }
  }

  lemma {:induction false} RunKeepsInv(w: World, es: seq<Event>)
    requires Inv(w) && Run(w, es).Some?
    ensures Inv(Run(w, es).value)
    decreases |es|
  {
    hide Inv, Enabled, Apply;
    if es != [] {
      InvSizes(w);
      StepKeepsInv(w, es[0]);
      RunKeepsInv(Apply(w, es[0]), es[1..]);
    }
  }

  lemma InvSizes(w: World)
    requires Inv(w)
    ensures |w.stages| == |w.roles|
  {
  }

  lemma ReachableInv(w: World)
    requires Reachable(w)
    ensures Inv(w)
  {
    hide Inv, Ready, Run;
    var w0, es :| Ready(w0) && |w0.stages| == |w0.roles| && Run(w0, es) == Some(w);
    ReadyHolds(w0);
    RunKeepsInv(w0, es);
  }

  /* ---------- who can go on ---------- */

  /** Doing something that will end by itself. */
  predicate AtWork(s: Stage) {
    s.ReadSource? || s.Both? || s.Indexing? || s.Flags? || s.Passing? || s.Meta? || s.Running? || s.Reading? ||
    s.Appending? || s.Locating? || s.Settling?
  }

  predicate NoneAtWork(w: World) { forall i :: 0 <= i < |w.stages| ==> !AtWork(w.stages[i]) }

  predicate NoneWantsDest(w: World) { forall i :: 0 <= i < |w.stages| ==> !WantsDest(w.stages[i]) }

  /** No fetcher or appender can go on by itself or because its folder is cancelled. */
  predicate GroupsStuck(w: World)
    requires |w.stages| == |w.roles|
  {
    forall i :: 0 <= i < |w.stages| ==> !Enabled(w, Spawn(i)) && !Enabled(w, Take(i)) && !Enabled(w, NoMoreItems(i)) &&
                                        !Enabled(w, GiveUp(i)) && !Enabled(w, TakeChunk(i)) &&
                                          !Enabled(w, NoMoreChunks(i))
  }

  /** With nobody at work, nobody holds a destination connection, so whoever wants one gets it. */
  lemma DestIsFree(w: World)
    requires Conserved(w) && NoneAtWork(w)
    ensures w.dest == w.limits.dest
  {
    forall i | 0 <= i < |w.stages|
      ensures Held(Dest, w.stages[i]) == 0
    {
      assert !AtWork(w.stages[i]);
    }
    NothingHeld(Dest, w.stages);
  }

  /** An appender of a folder being copied, when nothing of it can go on, waits for the channel or has ended. */
  lemma StuckAppender(w: World, j: nat)
    requires Inv(w) && NoneAtWork(w) && NoneWantsDest(w) && GroupsStuck(w)
    requires j < |w.stages| && w.roles[j].Appender? && w.roles[j].folder < |w.folders| &&
      w.folders[w.roles[j].folder].copying
    ensures w.stages[j].Taking? || w.stages[j].Done?
    ensures w.stages[j].Taking? ==> FolderOf(w, j).pending == [] && !FolderOf(w, j).closed
    ensures w.stages[j].Done? ==> FolderOf(w, j).cancelled || (FolderOf(w, j).closed && FolderOf(w, j).pending == [])
  {
    var f := w.roles[j].folder;
    assert StageFits(w.roles[j], w.stages[j]) && FolderOk(w, f) && w.roles[j] == Appender(f);
    assert !AtWork(w.stages[j]) && !WantsDest(w.stages[j]) && !Enabled(w, Spawn(j));
    assert !Enabled(w, Take(j)) && !Enabled(w, NoMoreItems(j));
  }

  /** A fetcher of a folder being copied, when nothing of it can go on. */
  lemma StuckFetcher(w: World, i: nat)
    requires Inv(w) && NoneAtWork(w) && GroupsStuck(w)
    requires i < |w.stages| && w.roles[i].Fetcher? && w.roles[i].folder < |w.folders| &&
      w.folders[w.roles[i].folder].copying
    ensures w.stages[i].WantMeta? || w.stages[i].WantRun? || w.stages[i].Charging? || w.stages[i].Pushing? ||
      w.stages[i].Done?
    ensures !w.stages[i].Done? ==> !FolderOf(w, i).cancelled
  {
    assert StageFits(w.roles[i], w.stages[i]) && !AtWork(w.stages[i]) && !Enabled(w, Spawn(i));
    assert !Enabled(w, TakeChunk(i)) && !Enabled(w, NoMoreChunks(i)) && !Enabled(w, GiveUp(i));
  }

  /** There is room in the channel for whoever wants to push. */
  lemma PusherCanPush(w: World, i: nat)
    requires Inv(w) && NoneAtWork(w) && NoneWantsDest(w) && GroupsStuck(w) && i < |w.stages| && w.stages[i].Pushing?
    ensures Enabled(w, Push(i))
  {
    RolesByIndex(w, i);
    var f := w.roles[i].folder;
    LiveMeansCopying(w, i);
    StuckFetcher(w, i);
    var j :| 0 <= j < |w.roles| && w.roles[j] == Appender(f);
    StuckAppender(w, j);
  }

  /** A folder with messages left in its channel has lost its appenders, and so can be closed or drained. */
  lemma LeftoversCanGo(w: World, g: nat) returns (e: Event)
    requires Inv(w) && NoneAtWork(w) && NoneWantsDest(w) && GroupsStuck(w) && g < |w.folders| &&
      w.folders[g].pending != []
    ensures Enabled(w, e)
  {
    assert FolderOk(w, g);
    forall j | 0 <= j < |w.roles| && w.roles[j] == Appender(g)
      ensures w.stages[j].Done? && w.folders[g].cancelled
    {
      StuckAppender(w, j);
    }
    var j :| 0 <= j < |w.roles| && w.roles[j] == Appender(g);
    assert w.folders[g].cancelled;
    forall i | 0 <= i < |w.roles| && w.roles[i] == Fetcher(g)
      ensures w.stages[i].Done?
    {
      StuckFetcher(w, i);
    }
    e := if w.folders[g].closed then Drain(g, Done) else Close(g);
  }

  /** With no message in any channel and nobody pushing, the whole budget is free. */
  lemma BudgetIsFree(w: World)
    requires Conserved(w) && NoneAtWork(w) && NoneWantsDest(w)
    requires forall i :: 0 <= i < |w.stages| ==> !w.stages[i].Pushing?
    requires forall g :: 0 <= g < |w.folders| ==> w.folders[g].pending == []
    ensures w.bytes == w.limits.bytes
  {
    forall i | 0 <= i < |w.stages|
      ensures Held(Bytes, w.stages[i]) == 0
    {
      assert !AtWork(w.stages[i]) && !WantsDest(w.stages[i]);
    }
    NothingHeld(Bytes, w.stages);
    NothingPending(w.folders);
  }

  lemma ChargerIsGranted(w: World, i: nat)
    requires Inv(w) && w.bytes == w.limits.bytes && i < |w.stages| && w.stages[i].Charging?
    ensures Enabled(w, Grant)
  {
    assert i in w.queue;
    assert w.queue[0] < |w.stages| && w.stages[w.queue[0]].Charging?;
  }

  lemma SourceIsFree(w: World)
    requires Conserved(w) && NoneAtWork(w) && NoneWantsDest(w)
    requires forall i :: 0 <= i < |w.stages| ==> !w.stages[i].Pushing? && !w.stages[i].Charging?
    ensures w.source == w.limits.source
  {
    forall i | 0 <= i < |w.stages|
      ensures Held(Source, w.stages[i]) == 0
    {
      assert !AtWork(w.stages[i]) && !WantsDest(w.stages[i]);
    }
    NothingHeld(Source, w.stages);
  }

  /** A folder none of whose fetchers waits for anything can be closed, or is finished with. */
  lemma WaiterCanGo(w: World, f: nat) returns (e: Event)
    requires Inv(w) && NoneAtWork(w) && NoneWantsDest(w) && GroupsStuck(w) && f < |w.folders| && w.stages[f].Waiting?
    requires forall i :: 0 <= i < |w.stages| ==>
      !w.stages[i].Pushing? && !w.stages[i].Charging? && !WantsSource(w.stages[i])
    ensures Enabled(w, e)
  {
    assert FolderOk(w, f);
    forall i | 0 <= i < |w.roles| && w.roles[i] == Fetcher(f)
      ensures w.stages[i].Done?
    {
      StuckFetcher(w, i);
    }
    if w.folders[f].closed {
      forall j | 0 <= j < |w.roles| && w.roles[j] == Appender(f)
        ensures w.stages[j].Done?
      {
        StuckAppender(w, j);
      }
      e := Drain(f, Done);
    } else {
      e := Close(f);
    }
  }

  lemma FolderCanStart(w: World, f: nat)
    requires Inv(w) && NoneAtWork(w) && NoneWantsDest(w) && f < |w.folders| && !w.stages[f].Done?
    requires forall i :: 0 <= i < |w.stages| ==> !WantsSource(w.stages[i]) && !w.stages[i].Waiting?
    ensures Enabled(w, Start(f))
  {
    forall i | 0 <= i < |w.stages|
      ensures Held(Slot, w.stages[i]) == 0
    {
      assert !AtWork(w.stages[i]) && !WantsDest(w.stages[i]) && !WantsSource(w.stages[i]);
    }
    NothingHeld(Slot, w.stages);
    assert StageFits(w.roles[f], w.stages[f]) && !AtWork(w.stages[f]) && !WantsDest(w.stages[f]);
  }

  lemma WorkerCanFail(w: World, i: nat)
    requires |w.stages| == |w.roles| && i < |w.stages| && AtWork(w.stages[i])
    ensures Enabled(w, Work(i, Done))
  {
  }

  predicate EveryFolderFinished(w: World) {
    forall f :: 0 <= f < |w.folders| && f < |w.stages| ==> w.stages[f].Done?
  }

  /** The goroutines of a folder's own that can go on whatever is free. */
  lemma UnstickGroup(w: World) returns (e: Event)
    requires |w.stages| == |w.roles| && !GroupsStuck(w)
    ensures Enabled(w, e)
  {
    var i :| 0 <= i < |w.stages| &&
             !(!Enabled(w, Spawn(i)) && !Enabled(w, Take(i)) && !Enabled(w, NoMoreItems(i)) &&
               !Enabled(w, GiveUp(i)) && !Enabled(w, TakeChunk(i)) && !Enabled(w, NoMoreChunks(i)));
    e := if Enabled(w, Spawn(i)) then Spawn(i) else if Enabled(w, Take(i)) then Take(i)
         else if Enabled(w, NoMoreItems(i)) then NoMoreItems(i) else if Enabled(w, GiveUp(i)) then GiveUp(i)
         else if Enabled(w, TakeChunk(i)) then TakeChunk(i) else NoMoreChunks(i);
  }

  lemma LimitsArePositive(w: World)
    requires Inv(w)
    ensures w.limits.source >= 1 && w.limits.dest >= 1 && |w.stages| == |w.roles| && Conserved(w) &&
      |w.folders| <= |w.stages|
  {
  }

  /** Until every folder is finished, some goroutine can go on. */
  lemma SomeoneCanGoOn(w: World) returns (e: Event)
    requires Inv(w) && !EveryFolderFinished(w)
    ensures |w.stages| == |w.roles| && Enabled(w, e)
  {
    hide Inv, Conserved, GroupsStuck;
    LimitsArePositive(w);
    if i :| 0 <= i < |w.stages| && AtWork(w.stages[i]) {
      WorkerCanFail(w, i);
      return Work(i, Done);
    }
    DestIsFree(w);
    if i :| 0 <= i < |w.stages| && WantsDest(w.stages[i]) {
      return Lease(i);
    }
    if !GroupsStuck(w) {
      e := UnstickGroup(w);
      return;
    }
    if i :| 0 <= i < |w.stages| && w.stages[i].Pushing? {
      PusherCanPush(w, i);
      return Push(i);
    }
    if g :| 0 <= g < |w.folders| && w.folders[g].pending != [] {
      e := LeftoversCanGo(w, g);
      return;
    }
    BudgetIsFree(w);
    if i :| 0 <= i < |w.stages| && w.stages[i].Charging? {
      ChargerIsGranted(w, i);
      return Grant;
    }
    SourceIsFree(w);
    if i :| 0 <= i < |w.stages| && WantsSource(w.stages[i]) {
      return Lease(i);
    }
    e := LastResort(w);
  }

  /** Only workers of folders that wait for their own, or have not begun, are left. */
  lemma LastResort(w: World) returns (e: Event)
    requires Inv(w) && NoneAtWork(w) && NoneWantsDest(w) && |w.stages| == |w.roles| && GroupsStuck(w) &&
      !EveryFolderFinished(w)
    requires forall i :: 0 <= i < |w.stages| ==>
      !w.stages[i].Pushing? && !w.stages[i].Charging? && !WantsSource(w.stages[i])
    ensures Enabled(w, e)
  {
    if i :| 0 <= i < |w.stages| && w.stages[i].Waiting? {
      RolesByIndex(w, i);
      e := WaiterCanGo(w, i);
    } else {
      var f :| 0 <= f < |w.folders| && f < |w.stages| && !w.stages[f].Done?;
      FolderCanStart(w, f);
      e := Start(f);
    }
  }

  /** No reachable state is a deadlock. */
  lemma NeverDeadlocks(w: World)
    requires Reachable(w) && !EveryFolderFinished(w)
    ensures |w.stages| == |w.roles| && exists e :: Enabled(w, e)
  {
    ReachableInv(w);
    var e := SomeoneCanGoOn(w);
  }

  lemma FinishedHoldsNothing(w: World, i: nat)
    requires Inv(w) && EveryFolderFinished(w) && i < |w.stages|
    ensures w.stages[i].Done? || w.stages[i].Unborn?
  {
    RolesByIndex(w, i);
    if i >= |w.folders| {
      assert FolderOk(w, w.roles[i].folder);
    }
  }

  /** When every folder is finished, by whatever way each of its goroutines ended, everything has been given back. */
  lemma EverythingComesBack(w: World)
    requires Reachable(w) && EveryFolderFinished(w)
    ensures w.source == w.limits.source && w.dest == w.limits.dest && w.bytes == w.limits.bytes &&
      w.slots == w.limits.slots
    ensures w.queue == [] && forall f :: 0 <= f < |w.folders| ==> w.folders[f].pending == []
  {
    ReachableInv(w);
    hide Inv, Reachable, EveryFolderFinished;
    forall i | 0 <= i < |w.stages|
      ensures w.stages[i].Done? || w.stages[i].Unborn?
    {
      FinishedHoldsNothing(w, i);
    }
    forall f | 0 <= f < |w.folders|
      ensures w.folders[f].pending == []
    {
      FinishedHasNothingPending(w, f);
    }
    IdleIsFree(w);
  }

  lemma FinishedHasNothingPending(w: World, f: nat)
    requires Inv(w) && EveryFolderFinished(w) && f < |w.folders|
    ensures w.folders[f].pending == []
  {
    assert FolderOk(w, f);
  }

  lemma QueueMeansCharging(w: World)
    requires QueueOk(w)
    ensures w.queue != [] ==> exists i :: 0 <= i < |w.stages| && w.stages[i].Charging?
  {
    if w.queue != [] {
      assert w.queue[0] < |w.stages| && w.stages[w.queue[0]].Charging?;
    }
  }

  lemma IdleIsFree(w: World)
    requires Inv(w) && forall i :: 0 <= i < |w.stages| ==> w.stages[i].Done? || w.stages[i].Unborn?
    requires forall f :: 0 <= f < |w.folders| ==> w.folders[f].pending == []
    ensures w.source == w.limits.source && w.dest == w.limits.dest && w.bytes == w.limits.bytes &&
      w.slots == w.limits.slots
    ensures w.queue == []
  {
    hide WellFormed, FoldersOk;
    NothingHeld(Source, w.stages);
    NothingHeld(Dest, w.stages);
    NothingHeld(Bytes, w.stages);
    NothingHeld(Slot, w.stages);
    NothingPending(w.folders);
    QueueMeansCharging(w);
  }
}
