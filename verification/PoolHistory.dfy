/**
 What becomes of a connection that comes home, and what the pool remembers of its
 past: told by the steps of a run, not by the fields the critical sections keep.
 */
module PoolHistory {
  import opened Wrappers
  import opened PoolGovernor
  import opened PoolProtocol
  import opened PoolTheorems

  /* ---------- a connection that is not kept ---------- */

  /** Caller `i` is about to close this connection, or it has been closed. */
  predicate Retired(w: World, i: nat, c: ConnId) {
    At(w, i) && c in w.created &&
    ((w.clients[i].PutClosing? && w.clients[i].c == c) || c in w.closedLog)
  }

  lemma HeldIsOwned(w: World, i: nat)
    requires Inv(w) && At(w, i)
    ensures Hold(w.clients[i]) <= multiset(w.created)
  {
    MovedHeld(w.clients, i, Outside);
    hide Hold;
    assert HeldBy(w.clients) <= Owned(w);
  }

  /** A connection is one thing in one place. */
  lemma RetiredIsNowhereElse(w: World, i: nat, c: ConnId)
    requires Inv(w) && Retired(w, i, c)
    ensures c !in w.g.idle
    ensures forall j :: 0 <= j < |w.clients| && c in Hold(w.clients[j]) ==> j == i && w.clients[i].PutClosing?
    ensures !w.clients[i].PutClosing? || w.clients[i].c != c ==> w.closedLog[c] == 1
  {
    assert Owned(w)[c] == multiset(w.created)[c] == 1;
    assert multiset(w.g.idle)[c] + HeldBy(w.clients)[c] + w.closedLog[c] <= 1;
    HeldOnce(w.clients, i, c);
    forall j | 0 <= j < |w.clients| && c in Hold(w.clients[j])
      ensures j == i && w.clients[i].PutClosing?
    {
      HeldOnce(w.clients, j, c);
      if j != i {
        HeldTwice(w.clients, if i < j then i else j, if i < j then j else i, c);
      }
    }
  }

  lemma ReleaseRetires(w: World, i: nat, c: ConnId, outcome: Outcome, now: int)
    requires Inv(w) && At(w, i) && w.clients[i] == Leased(c) && (outcome.Broken? || w.g.closed || w.g.open > w.g.width)
    ensures var w' := Apply(w, Release(i, outcome, now));
            Retired(w', i, c) && w'.g.open == w.g.open - 1 && w'.g.idle == w.g.idle
  {
    hide Inv;
    HeldIsOwned(w, i);
    assert c in Hold(w.clients[i]);
  }

  /** Nothing that was closed is opened, and the caller that is to close does so next. */
  lemma StepKeepsRetired(w: World, e: Event, i: nat, c: ConnId)
    requires Enabled(w, e) && Retired(w, i, c)
    ensures Retired(Apply(w, e), i, c)
  {
    StepOnlyAdds(w, e);
    if CloserEvent(e) {
      CloserLeavesClients(w, e);
    } else {
      ClientStepFrame(w, e);
      if e.i == i && w.clients[i].PutClosing? && w.clients[i].c == c {
        assert e.ClosePut?;
        assert c in Apply(w, e).closedLog;
      }
    }
    hide Enabled, Apply;
  }

  lemma StepOnlyAdds(w: World, e: Event)
    requires Enabled(w, e)
    ensures w.created <= Apply(w, e).created && w.closedLog <= Apply(w, e).closedLog
  {
    hide Refused, Put, PutDiscards, MayGrow, Grown;
  }

  lemma CloserLeavesClients(w: World, e: Event)
    requires Enabled(w, e) && CloserEvent(e)
    ensures Apply(w, e).clients == w.clients
  {
  }

  lemma {:induction false} RunKeepsRetired(w: World, es: seq<Event>, i: nat, c: ConnId)
    requires Inv(w) && Run(w, es).Some? && Retired(w, i, c)
    ensures Inv(Run(w, es).value) && Retired(Run(w, es).value, i, c)
    decreases |es|
  {
    hide Inv, Enabled, Apply, Retired;
    if es != [] {
      StepKeepsRetired(w, es[0], i, c);
      StepKeepsInv(w, es[0]);
      RunKeepsRetired(Apply(w, es[0]), es[1..], i, c);
    }
  }

  /**
   A connection released with its stream broken, or into a pool that is closed or
   holds more than its width, is counted out at once. Whatever happens from then on
   it is never idle, selected or leased again, and when its caller is through with
   it, it has been closed, once.
   */
  lemma DiscardedIsNeverReused(cap: nat, n: nat, w: World, i: nat, c: ConnId, outcome: Outcome, now: int,
      es: seq<Event>)
    requires cap >= 1 && Reachable(cap, n, w) && i < |w.clients| && w.clients[i] == Leased(c)
    requires outcome.Broken? || w.g.closed || w.g.open > w.g.width
    requires Run(Apply(w, Release(i, outcome, now)), es).Some?
    ensures Apply(w, Release(i, outcome, now)).g.open == w.g.open - 1
    ensures var w' := Run(Apply(w, Release(i, outcome, now)), es).value;
            c !in w'.g.idle && i < |w'.clients| &&
            (forall j :: 0 <= j < |w'.clients| && (w'.clients[j].Selecting? || w'.clients[j].Leased?) ==>
               w'.clients[j].c != c) &&
            (w'.clients[i].Outside? ==> w'.closedLog[c] == 1)
  {
    hide Inv, Apply, Reachable;
    ReachableInv(cap, n, w);
    var w1 := Apply(w, Release(i, outcome, now));
    ReleaseRetires(w, i, c, outcome, now);
    StepKeepsInv(w, Release(i, outcome, now));
    hide Enabled;
    RunKeepsRetired(w1, es, i, c);
    var w' := Run(w1, es).value;
    RetiredIsNowhereElse(w', i, c);
    forall j | 0 <= j < |w'.clients| && (w'.clients[j].Selecting? || w'.clients[j].Leased?)
      ensures w'.clients[j].c != c
    {
      assert w'.clients[j].c in Hold(w'.clients[j]);
    }
  }

  /* ---------- a connection that is kept ---------- */

  /** Only a take, another release and Close touch the idle stack. */
  predicate LeavesIdle(e: Event) { !e.TakeSection? && !e.Release? && !e.CloseTakeIdle? }

  lemma StepLeavesIdle(w: World, e: Event)
    requires Enabled(w, e) && LeavesIdle(e)
    ensures Apply(w, e).g.idle == w.g.idle
  {
    if e.Judge? {
      TrimClosesNothing(w.g, e.now);
    }
  }

  lemma {:induction false} RunLeavesIdle(w: World, es: seq<Event>)
    requires Run(w, es).Some? && forall k :: 0 <= k < |es| ==> LeavesIdle(es[k])
    ensures Run(w, es).value.g.idle == w.g.idle
    decreases |es|
  {
    hide Enabled, Apply, LeavesIdle;
    if es != [] {
      StepLeavesIdle(w, es[0]);
      assert forall k :: 0 <= k < |es[1..]| ==> es[1..][k] == es[k + 1];
      RunLeavesIdle(Apply(w, es[0]), es[1..]);
    }
  }

  /**
   A connection released otherwise is kept: it stays counted, and whoever takes next
   takes it, without dialling.
   */
  lemma KeptIsTakenNext(cap: nat, n: nat, w: World, i: nat, c: ConnId, outcome: Outcome, now: int, es: seq<Event>,
      j: nat)
    requires cap >= 1 && Reachable(cap, n, w) && i < |w.clients| && w.clients[i] == Leased(c)
    requires !outcome.Broken? && !w.g.closed && w.g.open <= w.g.width
    requires Run(Apply(w, Release(i, outcome, now)), es).Some? && forall k :: 0 <= k < |es| ==> LeavesIdle(es[k])
    requires var w1 := Run(Apply(w, Release(i, outcome, now)), es).value; j < |w1.clients| && w1.clients[j].Taking?
    ensures Apply(w, Release(i, outcome, now)).g.open == w.g.open
    ensures var w1 := Run(Apply(w, Release(i, outcome, now)), es).value;
            var w2 := Apply(w1, TakeSection(j));
            w2.clients[j] == Selecting(w1.clients[j].named, w1.clients[j].retry, true, c) && w2.g.idle == w.g.idle
  {
    RunLeavesIdle(Apply(w, Release(i, outcome, now)), es);
  }

  /* ---------- what follows a release ---------- */

  /** A caller on its way out of a Release, clean or not. */
  predicate Leaving(p: Phase, clean: bool) {
    ((p.PutClosing? || p.PutReturning? || p.PutSending?) && p.clean == clean) ||
    (if clean then p.Growing? else p.Outside?)
  }

  lemma StepKeepsLeaving(w: World, e: Event, i: nat, clean: bool)
    requires Enabled(w, e) && At(w, i) && Leaving(w.clients[i], clean)
    requires !(e.Grow? && e.i == i) && !(e.Enter? && e.i == i)
    ensures At(Apply(w, e), i) && Leaving(Apply(w, e).clients[i], clean)
  {
    if !CloserEvent(e) {
      ClientStepFrame(w, e);
    }
  }

  lemma {:induction false} RunKeepsLeaving(w: World, es: seq<Event>, i: nat, clean: bool)
    requires Run(w, es).Some? && At(w, i) && Leaving(w.clients[i], clean)
    requires forall k :: 0 <= k < |es| ==> !(es[k].Grow? && es[k].i == i) && !(es[k].Enter? && es[k].i == i)
    ensures At(Run(w, es).value, i) && Leaving(Run(w, es).value.clients[i], clean)
    decreases |es|
  {
    hide Enabled, Apply, Leaving;
    if es != [] {
      StepKeepsLeaving(w, es[0], i, clean);
      assert forall k :: 0 <= k < |es[1..]| ==> es[1..][k] == es[k + 1];
      RunKeepsLeaving(Apply(w, es[0]), es[1..], i, clean);
    }
  }

  /** A caller goes to the growing of the pool exactly when its work ended clean; otherwise it just leaves. */
  lemma OnlyCleanWorkGrows(w: World, i: nat, outcome: Outcome, now: int, es: seq<Event>)
    requires At(w, i) && w.clients[i].Leased? && Run(Apply(w, Release(i, outcome, now)), es).Some?
    requires forall k :: 0 <= k < |es| ==> !(es[k].Grow? && es[k].i == i) && !(es[k].Enter? && es[k].i == i)
    ensures var w' := Run(Apply(w, Release(i, outcome, now)), es).value;
            i < |w'.clients| &&
            (w'.clients[i].Growing? ==> outcome.Clean?) && (w'.clients[i].Outside? ==> !outcome.Clean?)
  {
    RunKeepsLeaving(Apply(w, Release(i, outcome, now)), es, i, outcome.Clean?);
  }

  /* ---------- what follows a take ---------- */

  /** How often a caller in this phase may still go to the idle stack. */
  function TakesLeft(p: Phase): nat {
    match p
    case Taking(_, retry) => if retry then 1 else 2
    case Selecting(_, retry, reused, _) => if reused && !retry then 1 else 0
    case Failing(_, retry, reused, _) => if reused && !retry then 1 else 0
    case Discarding(_, again) => if again then 1 else 0
    case _ => 0
  }

  function Takes(es: seq<Event>, i: nat): nat {
    if es == [] then 0 else (if es[0].TakeSection? && es[0].i == i then 1 else 0) + Takes(es[1..], i)
  }

  /** The steps of a caller that has a token and no lease yet. */
  predicate Acquires(e: Event) {
    e.TakeSection? || e.DialOk? || e.DialFail? || e.CountDial? || e.SelectOk? || e.SelectFail? || e.CloseUnusable? ||
    e.Discard?
  }

  lemma AcquireTakes(w: World, e: Event)
    requires Enabled(w, e) && Acquires(e)
    ensures TakesLeft(Apply(w, e).clients[e.i]) + (if e.TakeSection? then 1 else 0) <= TakesLeft(w.clients[e.i])
  {
  }

  lemma RestTakeNothing(w: World, e: Event)
    requires Enabled(w, e) && !Acquires(e) && !e.Receive? && !CloserEvent(e)
    ensures TakesLeft(Apply(w, e).clients[e.i]) == 0
  {
    hide Refused, Put, PutDiscards, MayGrow, Grown;
  }

  lemma StepTakes(w: World, e: Event, i: nat)
    requires Enabled(w, e) && At(w, i) && !(e.Receive? && e.i == i)
    ensures At(Apply(w, e), i)
    ensures TakesLeft(Apply(w, e).clients[i]) + (if e.TakeSection? && e.i == i then 1 else 0) <= TakesLeft(w.clients[i])
  {
    if CloserEvent(e) {
    } else {
      ClientStepFrame(w, e);
      if e.i == i {
        if Acquires(e) {
          AcquireTakes(w, e);
        } else {
          RestTakeNothing(w, e);
        }
      }
      hide Enabled, Apply, TakesLeft;
    }
  }

  /** One token is good for two takes at most: a connection that turns out unusable is replaced once. */
  lemma {:induction false} TwoTakesPerToken(w: World, es: seq<Event>, i: nat)
    requires Run(w, es).Some? && At(w, i) && forall k :: 0 <= k < |es| ==> !(es[k].Receive? && es[k].i == i)
    ensures Takes(es, i) <= TakesLeft(w.clients[i]) <= 2
    decreases |es|
  {
    hide Enabled, Apply, TakesLeft;
    if es != [] {
      StepTakes(w, es[0], i);
      assert forall k :: 0 <= k < |es[1..]| ==> es[1..][k] == es[k + 1];
      TwoTakesPerToken(Apply(w, es[0]), es[1..], i);
    }
    AtMostTwo(w.clients[i]);
  }

  lemma AtMostTwo(p: Phase)
    ensures TakesLeft(p) <= 2
  {
  }

  /**
   A connection off the idle stack that cannot be selected is closed and counted out,
   and its caller, still holding its token, takes once more; any other caller whose
   SELECT fails goes out with its error.
   */
  lemma StaleIsReplacedOnce(w: World, i: nat, c: ConnId, named: bool, retry: bool, reused: bool)
    requires At(w, i) && w.clients[i] == Failing(named, retry, reused, c)
    ensures var w1 := Apply(w, CloseUnusable(i));
            w1.closedLog == w.closedLog + multiset{c} &&
            if reused && !retry then
              Enabled(w1, Discard(i)) && Apply(w1, Discard(i)).g.open == w.g.open - 1 &&
              Apply(w1, Discard(i)).clients[i] == Taking(named, true)
            else if retry then
              Enabled(w1, Discard(i)) && Apply(w1, Discard(i)).g.open == w.g.open - 1 &&
              Apply(w1, Discard(i)).clients[i] == Returning(named, false)
            else w1.g.open == w.g.open && w1.clients[i] == Returning(named, false)
  {
  }

  /** A caller on its way out of a failed dial, to wait again or with its error. */
  predicate GoingBack(p: Phase, room: bool) {
    ((p.Returning? || p.Sending?) && p.room == room) || (if room then p.Waiting? else p.Outside?)
  }

  /** What a caller outside or waiting may do of its own accord. */
  predicate StartsAnew(e: Event, i: nat) {
    (e.Enter? || e.Receive? || e.Cancel? || e.SeeDone?) && e.i == i
  }

  lemma StepKeepsGoingBack(w: World, e: Event, i: nat, room: bool)
    requires Enabled(w, e) && At(w, i) && GoingBack(w.clients[i], room) && !StartsAnew(e, i)
    ensures At(Apply(w, e), i) && GoingBack(Apply(w, e).clients[i], room)
  {
    if !CloserEvent(e) {
      ClientStepFrame(w, e);
    }
  }

  lemma {:induction false} RunKeepsGoingBack(w: World, es: seq<Event>, i: nat, room: bool)
    requires Run(w, es).Some? && At(w, i) && GoingBack(w.clients[i], room)
    requires forall k :: 0 <= k < |es| ==> !StartsAnew(es[k], i)
    ensures At(Run(w, es).value, i) && GoingBack(Run(w, es).value.clients[i], room)
    decreases |es|
  {
    hide Enabled, Apply, GoingBack, StartsAnew;
    if es != [] {
      StepKeepsGoingBack(w, es[0], i, room);
      assert forall k :: 0 <= k < |es[1..]| ==> es[1..][k] == es[k + 1];
      RunKeepsGoingBack(Apply(w, es[0]), es[1..], i, room);
    }
  }

  /** A believed refusal is waited out exactly on a first dial while connections are open; otherwise it is an error. */
  lemma RefusedWaitsIff(w: World, i: nat, es: seq<Event>)
    requires At(w, i) && w.clients[i].Absorbing? && w.clients[i].closing == []
    requires Run(Apply(w, CheckRoom(i)), es).Some? && forall k :: 0 <= k < |es| ==> !StartsAnew(es[k], i)
    ensures var w' := Run(Apply(w, CheckRoom(i)), es).value;
            i < |w'.clients| &&
            (w'.clients[i].Waiting? ==> w.g.open > 0 && !w.clients[i].retry) &&
            (w'.clients[i].Outside? ==> w.g.open <= 0 || w.clients[i].retry)
  {
    RunKeepsGoingBack(Apply(w, CheckRoom(i)), es, i, w.g.open > 0 && !w.clients[i].retry);
  }

  /** A believed refusal takes as many free tokens as there are for what it owes, and lends none. */
  lemma RefusalPaysAtOnce(w: World, i: nat, now: int)
    requires At(w, i) && w.clients[i].Refusing? && Apply(w, Judge(i, now)).g.width < w.g.width
    ensures var g := Apply(w, Judge(i, now)).g;
            g.width == (if w.g.open > 1 then w.g.open else 1) &&
            (g.debt == 0 || g.tokens == 0) && g.tokens <= w.g.tokens &&
            g.width + g.debt - g.tokens == w.g.width + w.g.debt - w.g.tokens
  {
  }

  /* ---------- what the pool remembers ---------- */

  /** When the server last took a dial or clean work, when a refusal was last believed, when the pool last grew. */
  datatype Past = Past(accepted: Option<int>, refused: Option<int>, grown: Option<int>)

  function Lived(w: World, e: Event, past: Past): Past
    requires Enabled(w, e)
  {
    if e.CountDial? || (e.Release? && e.outcome.Clean?) then past.(accepted := Some(e.now))
    else if e.Judge? && Apply(w, e).clients[e.i].Absorbing? then past.(refused := Some(e.now))
    else if e.Grow? && Apply(w, e).g.width != w.g.width then past.(grown := Some(e.now))
    else past
  }

  /** The past of a run, read off its steps. */
  function PastOf(w: World, es: seq<Event>, past: Past): Past
    decreases |es|
  {
    if es == [] || !Enabled(w, es[0]) then past
    else PastOf(Apply(w, es[0]), es[1..], Lived(w, es[0], past))
  }

  predicate Remembers(g: Gov, past: Past) {
    g.lastOK == past.accepted && g.lastRefusal == past.refused && g.lastGrow == past.grown
  }

  lemma StepRemembers(w: World, e: Event, past: Past)
    requires Enabled(w, e) && Remembers(w.g, past)
    ensures Remembers(Apply(w, e).g, Lived(w, e, past))
  {
    if !CloserEvent(e) {
      ClientStepFrame(w, e);
    }
  }

  lemma {:induction false} RunRemembers(w: World, es: seq<Event>, past: Past)
    requires Run(w, es).Some? && Remembers(w.g, past)
    ensures Remembers(Run(w, es).value.g, PastOf(w, es, past))
    decreases |es|
  {
    hide Enabled, Apply, Remembers, Lived;
    if es != [] {
      StepRemembers(w, es[0], past);
      RunRemembers(Apply(w, es[0]), es[1..], Lived(w, es[0], past));
    }
  }

  const NO_PAST := Past(None, None, None)

  /**
   A failed dial is taken for the server's limit exactly when the pool is open and
   the server took a dial, or clean work, in the ten seconds before.
   */
  lemma RefusalIsBelievedIff(cap: nat, n: nat, es: seq<Event>, i: nat, now: int)
    requires Run(Init(cap, n), es).Some?
    requires var w := Run(Init(cap, n), es).value; i < |w.clients| && w.clients[i].Refusing?
    ensures var w, past := Run(Init(cap, n), es).value, PastOf(Init(cap, n), es, NO_PAST);
            Apply(w, Judge(i, now)).clients[i].Absorbing? <==>
            !w.g.closed && past.accepted.Some? && now - past.accepted.value <= 10_000_000_000
  {
    RunRemembers(Init(cap, n), es, NO_PAST);
  }

  /**
   The pool grows, and by one, exactly when it is open, owes nothing and is narrower
   than its cap, no refusal was believed for thirty seconds and it has not grown for
   fifteen.
   */
  lemma GrowsIff(cap: nat, n: nat, es: seq<Event>, i: nat, now: int)
    requires cap >= 1 && Run(Init(cap, n), es).Some?
    requires var w := Run(Init(cap, n), es).value; i < |w.clients| && w.clients[i].Growing?
    ensures var w, past := Run(Init(cap, n), es).value, PastOf(Init(cap, n), es, NO_PAST);
            Enabled(w, Event.Grow(i, now)) &&
            var w' := Apply(w, Event.Grow(i, now));
            w'.g.width == w.g.width +
              if !w.g.closed && w.g.debt == 0 && w.g.width < cap &&
                 (past.refused.None? || now - past.refused.value >= 30_000_000_000) &&
                 (past.grown.None? || now - past.grown.value >= 15_000_000_000)
              then 1 else 0
  {
    RunRemembers(Init(cap, n), es, NO_PAST);
    var w := Run(Init(cap, n), es).value;
    CapNeverChanges(Init(cap, n), es);
    assert Reachable(cap, n, w);
    NoSendBlocks(cap, n, w, i, now);
  }
}
