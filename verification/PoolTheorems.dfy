/** What the pool promises, over every interleaving of every number of clients. */
module PoolTheorems {
  import opened Wrappers
  import opened PoolGovernor
  import opened PoolProtocol

  /** A world some run from a fresh pool ends in. */
  ghost predicate Reachable(cap: nat, n: nat, w: World) {
    exists es :: Run(Init(cap, n), es) == Some(w)
  }

  lemma ReachableInv(cap: nat, n: nat, w: World)
    requires cap >= 1 && Reachable(cap, n, w)
    ensures Inv(w)
  {
    var es :| Run(Init(cap, n), es) == Some(w);
    InitHolds(cap, n);
    RunKeepsInv(Init(cap, n), es);
  }

  lemma {:induction false} CapNeverChanges(w: World, es: seq<Event>)
    requires Run(w, es).Some?
    ensures Run(w, es).value.g.cap == w.g.cap && |Run(w, es).value.clients| == |w.clients|
    decreases |es|
  {
    if es != [] {
      if !CloserEvent(es[0]) {
        ClientStepFrame(w, es[0]);
      }
      CapNeverChanges(Apply(w, es[0]), es[1..]);
    }
  }

  /**
   Token conservation: the free tokens, the tokens callers hold and the tokens
   Close has collected are together the width and the debt, which never exceed the cap.
   */
  lemma TokenConservation(cap: nat, n: nat, w: World)
    requires cap >= 1 && Reachable(cap, n, w)
    ensures w.g.tokens + Tokens(w.clients) + Collected(w.closer) == w.g.width + w.g.debt
    ensures 1 <= w.g.width && w.g.width + w.g.debt <= cap && w.g.tokens <= cap
  {
    ReachableInv(cap, n, w);
    var es :| Run(Init(cap, n), es) == Some(w);
    CapNeverChanges(Init(cap, n), es);
  }

  /** No send on the token channel blocks, neither a returning token's nor the one made while growing. */
  lemma NoSendBlocks(cap: nat, n: nat, w: World, i: nat, now: int)
    requires cap >= 1 && Reachable(cap, n, w) && i < |w.clients|
    ensures w.clients[i].Sending? || w.clients[i].PutSending? ==> Enabled(w, SendToken(i))
    ensures w.clients[i].Growing? ==> Enabled(w, Event.Grow(i, now))
  {
    ReachableInv(cap, n, w);
    MovedTokens(w.clients, i, Outside);
  }

  /**
   The ceiling: idle, leased, dialling and closing connections together are
   never more than the cap, and there are never more idle than the width allows.
   */
  lemma ConnectionCeiling(cap: nat, n: nat, w: World)
    requires cap >= 1 && Reachable(cap, n, w)
    ensures |w.g.idle| + SeenBy(w.clients) + |Left(w.closer)| <= cap
    ensures |w.g.idle| <= w.g.width
  {
    ReachableInv(cap, n, w);
    var es :| Run(Init(cap, n), es) == Some(w);
    CapNeverChanges(Init(cap, n), es);
  }

  lemma {:induction false} HeldOnce(s: seq<Phase>, i: nat, c: ConnId)
    requires i < |s|
    ensures HeldBy(s)[c] >= Hold(s[i])[c]
  {
    hide Hold;
    if i > 0 {
      HeldOnce(s[1..], i - 1, c);
    }
  }

  lemma {:induction false} HeldTwice(s: seq<Phase>, i: nat, j: nat, c: ConnId)
    requires i < j < |s|
    ensures HeldBy(s)[c] >= Hold(s[i])[c] + Hold(s[j])[c]
  {
    hide Hold;
    if i == 0 {
      HeldOnce(s[1..], j - 1, c);
    } else {
      HeldTwice(s[1..], i - 1, j - 1, c);
    }
  }

  /** Exclusivity: no two callers hold one connection, and none that is held is idle or was ever closed. */
  lemma Exclusive(cap: nat, n: nat, w: World, i: nat, c: ConnId)
    requires cap >= 1 && Reachable(cap, n, w) && i < |w.clients| && c in Hold(w.clients[i])
    ensures c !in w.g.idle && c !in w.closedLog
    ensures forall j :: 0 <= j < |w.clients| && j != i ==> c !in Hold(w.clients[j])
  {
    ReachableInv(cap, n, w);
    MovedHeld(w.clients, i, Outside);
    assert HeldBy(w.clients)[c] >= 1;
    assert Owned(w)[c] == multiset(w.created)[c] <= 1;
    assert multiset(w.g.idle)[c] == 0;
    forall j | 0 <= j < |w.clients| && j != i
      ensures c !in Hold(w.clients[j])
    {
      HeldTwice(w.clients, if i < j then i else j, if i < j then j else i, c);
    }
  }

  /** The open count is the connections it is meant to count, plus every SELECT that failed on a fresh dial. */
  lemma OpenCountIsExact(cap: nat, n: nat, w: World)
    requires cap >= 1 && Reachable(cap, n, w)
    ensures w.g.open == |w.g.idle| + CountedBy(w.clients) + w.drift + w.parked
    ensures w.g.open >= 0
  {
    ReachableInv(cap, n, w);
  }

  /** A caller that dials its connection; and then the SELECT on that connection failing. */
  const ENTER_RUN: seq<Event> := [Enter(0, true), Receive(0), TakeSection(0)]
  const DIAL_RUN: seq<Event> := [DialOk(0, 7), CountDial(0, 0)]
  const FAIL_RUN: seq<Event> := [SelectFail(0), CloseUnusable(0)]
  const LEAVE_RUN: seq<Event> := [SettleToken(0), SendToken(0)]

  function OneClient(g: Gov, p: Phase, created: set<ConnId>, log: multiset<ConnId>, drift: nat): World {
    World(g, [p], NotClosing, created, log, drift, 0)
  }

  function DialledGov(): Gov { Fresh(1).(tokens := 0, open := 1, lastOK := Some(0)) }

  lemma EnterRunDials()
    ensures Run(Init(1, 1), ENTER_RUN) ==
      Some(OneClient(Fresh(1).(tokens := 0), Dialing(true, false), {}, multiset{}, 0))
  {
    var w0 := Init(1, 1);
    assert w0.clients == [Outside];
    var w1 := Apply(w0, ENTER_RUN[0]);
    assert w1.clients == [Waiting(true)];
    var w2 := Apply(w1, ENTER_RUN[1]);
    assert w2.clients == [Taking(true, false)];
    RunOne(w2, ENTER_RUN[2..]);
    RunOne(w1, ENTER_RUN[1..]);
    RunOne(w0, ENTER_RUN);
    assert Taken(w2, 0).clients == [Dialing(true, false)];
  }

  lemma DialRunCounts()
    ensures var w := OneClient(Fresh(1).(tokens := 0), Dialing(true, false), {}, multiset{}, 0);
            Run(w, DIAL_RUN) == Some(OneClient(DialledGov(), Selecting(true, false, false, 7), {7}, multiset{}, 0))
  {
    var w0 := OneClient(Fresh(1).(tokens := 0), Dialing(true, false), {}, multiset{}, 0);
    var w1 := Apply(w0, DIAL_RUN[0]);
    assert w1.clients == [Dialed(true, false, 7)] && w1.created == {7};
    var w2 := Apply(w1, DIAL_RUN[1]);
    assert w2.clients == [Selecting(true, false, false, 7)];
    RunOne(w1, DIAL_RUN[1..]);
    RunOne(w0, DIAL_RUN);
  }

  lemma FailRunDrifts()
    ensures var w := OneClient(DialledGov(), Selecting(true, false, false, 7), {7}, multiset{}, 0);
            Run(w, FAIL_RUN) == Some(OneClient(DialledGov(), Returning(true, false), {7}, multiset{7}, 1))
  {
    var w0 := OneClient(DialledGov(), Selecting(true, false, false, 7), {7}, multiset{}, 0);
    var w1 := Apply(w0, FAIL_RUN[0]);
    assert w1.clients == [Failing(true, false, false, 7)];
    RunOne(w1, FAIL_RUN[1..]);
    RunOne(w0, FAIL_RUN);
    var w2 := ClosedUnusable(w1, 0);
    assert w2.clients == [Returning(true, false)] && w2.closedLog == multiset{7};
  }

  lemma LeaveRunLeaves()
    ensures var w := OneClient(DialledGov(), Returning(true, false), {7}, multiset{7}, 1);
            Run(w, LEAVE_RUN) == Some(OneClient(DialledGov().(tokens := 1), Outside, {7}, multiset{7}, 1))
  {
    var w0 := OneClient(DialledGov(), Returning(true, false), {7}, multiset{7}, 1);
    var w1 := Apply(w0, LEAVE_RUN[0]);
    assert w1.clients == [Sending(true, false)];
    RunOne(w1, LEAVE_RUN[1..]);
    RunOne(w0, LEAVE_RUN);
    assert Sent(w1, 0).clients == [Outside];
  }

  /**
   The count can drift: there is a run after which the pool has no connection
   at all and still believes that one is open, so that a refusal reads as room.
   */
  lemma OpenCountCanDrift()
    ensures exists w ::
              Reachable(1, 1, w) && w.g.open == 1 && w.g.idle == [] && w.clients == [Outside] &&
              w.created == {7} && w.closedLog == multiset{7}
  {
    EnterRunDials();
    DialRunCounts();
    FailRunDrifts();
    LeaveRunLeaves();
    var es := ENTER_RUN + DIAL_RUN;
    RunAppend(Init(1, 1), ENTER_RUN, DIAL_RUN);
    RunAppend(Init(1, 1), es, FAIL_RUN);
    RunAppend(Init(1, 1), es + FAIL_RUN, LEAVE_RUN);
    assert Reachable(1, 1, OneClient(DialledGov().(tokens := 1), Outside, {7}, multiset{7}, 1));
  }

  lemma RunOne(w: World, es: seq<Event>)
    requires es != [] && Enabled(w, es[0])
    ensures Run(w, es) == Run(Apply(w, es[0]), es[1..])
  {
  }

  /* ---------- the governor ---------- */

  /** Callers that hold a token and nothing the open count knows of. */
  function EmptyHanded(w: World): int {
    Tokens(w.clients) - CountedBy(w.clients)
  }

  /**
   The balance that stops spinning: with no drift, the callers holding a token
   without a connection, and the free tokens, are the idle connections plus the
   debt plus the room the width still leaves.
   */
  lemma EmptyHandedBalance(w: World)
    requires Inv(w) && !w.g.closed && w.drift == 0
    ensures EmptyHanded(w) + w.g.tokens == |w.g.idle| + w.g.debt + (w.g.width - w.g.open)
  {
  }

  /**
   Once as many connections are open as the width allows and nothing is owed, a
   caller that took a token always finds an idle connection and never dials.
   */
  lemma TokenFindsIdle(cap: nat, n: nat, w: World, i: nat)
    requires cap >= 1 && Reachable(cap, n, w)
    requires w.drift == 0 && w.g.open == w.g.width && w.g.debt == 0
    requires i < |w.clients| && w.clients[i].Taking?
    ensures w.g.idle != []
    ensures Apply(w, TakeSection(i)).clients[i].Selecting?
  {
    ReachableInv(cap, n, w);
    TokenWithoutConn(w, i);
  }

  lemma TokenWithoutConn(w: World, i: nat)
    requires Inv(w) && i < |w.clients| && HoldsToken(w.clients[i]) && !Counted(w.clients[i])
    ensures EmptyHanded(w) >= 1
    ensures w.drift == 0 && w.g.open >= w.g.width ==> w.g.debt + |w.g.idle| + w.parked >= 1
  {
    MovedTokens(w.clients, i, Outside);
    MovedCounted(w.clients, i, Outside);
    CountedWithinTokens(w.clients[i := Outside]);
  }

  /**
   A caller whose dial was refused pays for it: while no fewer connections are
   open than the width and none is idle, the token it brings back is destroyed,
   so each further refused dial costs one unit of debt and there are at most
   `debt` callers dialling at once.
   */
  lemma RefusedDialPaysDebt(cap: nat, n: nat, w: World, i: nat)
    requires cap >= 1 && Reachable(cap, n, w)
    requires w.drift == 0 && w.g.open >= w.g.width && w.g.idle == [] && !w.g.closed
    requires i < |w.clients| && w.clients[i].Returning?
    ensures EmptyHanded(w) <= w.g.debt
    ensures Apply(w, SettleToken(i)).g.debt == w.g.debt - 1
    ensures Apply(w, SettleToken(i)).g.tokens == w.g.tokens
    ensures !HoldsToken(Apply(w, SettleToken(i)).clients[i])
  {
    ReachableInv(cap, n, w);
    TokenWithoutConn(w, i);
    EmptyHandedBalance(w);
  }

  /* ---------- dials over a whole run ---------- */

  /** A caller that has begun to dial and has not yet given its connection or its token back to the books. */
  predicate InDial(p: Phase) {
    p.Dialing? || p.Dialed? || p.Refusing? || p.Absorbing? || p.Returning?
  }

  function Dl(p: Phase): nat { if InDial(p) then 1 else 0 }

  function DialsBy(s: seq<Phase>): nat {
    if s == [] then 0 else Dl(s[0]) + DialsBy(s[1..])
  }

  lemma {:induction false} MovedDials(s: seq<Phase>, i: nat, p: Phase)
    requires i < |s|
    ensures DialsBy(s[i := p]) + Dl(s[i]) == DialsBy(s) + Dl(p) && Dl(s[i]) <= DialsBy(s)
  {
    if i == 0 {
      assert s[i := p][1..] == s[1..];
    } else {
      MovedDials(s[1..], i - 1, p);
      assert s[i := p][1..] == s[1..][i - 1 := p];
    }
  }

  lemma {:induction false} DialsWithinTokens(s: seq<Phase>)
    ensures DialsBy(s) + CountedBy(s) <= Tokens(s)
  {
    if s != [] {
      DialsWithinTokens(s[1..]);
    }
  }

  /** The pool is open, has counted every connection right, and has as many of them as its width allows. */
  predicate Full(w: World) {
    !w.g.closed && w.drift == 0 && w.g.open >= w.g.width
  }

  /** Full at every moment of the run. */
  predicate FullRun(w: World, es: seq<Event>)
    decreases |es|
  {
    Full(w) && (es == [] || (Enabled(w, es[0]) && FullRun(Apply(w, es[0]), es[1..])))
  }

  /** A caller goes off to dial. */
  predicate StartsDial(w: World, e: Event) {
    e.TakeSection? && w.g.idle == []
  }

  function DialsStarted(w: World, es: seq<Event>): nat
    decreases |es|
  {
    if es == [] || !Enabled(w, es[0]) then 0
    else (if StartsDial(w, es[0]) then 1 else 0) + DialsStarted(Apply(w, es[0]), es[1..])
  }

  /** Dials that brought a connection. */
  function DialsLanded(es: seq<Event>): nat {
    if es == [] then 0 else (if es[0].CountDial? then 1 else 0) + DialsLanded(es[1..])
  }

  /** The debt that no dial under way is going to pay. */
  function Unspoken(w: World): nat {
    if w.g.debt > DialsBy(w.clients) then w.g.debt - DialsBy(w.clients) else 0
  }

  /** Whoever goes off to dial from a full pool does so against debt that no other dial will pay. */
  lemma DialNeedsDebt(w: World, i: nat)
    requires Inv(w) && Full(w) && At(w, i) && w.clients[i].Taking? && w.g.idle == []
    ensures DialsBy(w.clients) + 1 <= w.g.debt
  {
    EmptyHandedBalance(w);
    MovedTokens(w.clients, i, Outside);
    MovedCounted(w.clients, i, Outside);
    MovedDials(w.clients, i, Outside);
    DialsWithinTokens(w.clients[i := Outside]);
  }

  lemma RefusedWhenFull(w: World, i: nat, now: int)
    requires Inv(w) && Full(w) && At(w, i) && w.clients[i].Refusing?
    ensures Judged(w, i, now).g.debt == w.g.debt
  {
  }

  lemma DialStepSpends(w: World, e: Event)
    requires Inv(w) && Full(w) && Enabled(w, e) && !CloserEvent(e)
    ensures (if StartsDial(w, e) then 1 else 0) + Unspoken(Apply(w, e)) <= Unspoken(w) + (if e.CountDial? then 1 else 0)
  {
    ClientStepFrame(w, e);
    var w' := Apply(w, e);
    MovedDials(w.clients, e.i, w'.clients[e.i]);
    if e.TakeSection? {
      if w.g.idle == [] {
        DialNeedsDebt(w, e.i);
      }
    } else if e.Judge? {
      RefusedWhenFull(w, e.i, e.now);
    } else {
      OtherStepSpends(w, e);
    }
  }

  lemma OtherStepSpends(w: World, e: Event)
    requires Enabled(w, e) && !CloserEvent(e) && !e.TakeSection? && !e.Judge?
    ensures At(w, e.i) && At(Apply(w, e), e.i)
    ensures var w' := Apply(w, e);
            if w'.g.debt != w.g.debt then w'.g.debt == w.g.debt - 1
            else Dl(w'.clients[e.i]) >= Dl(w.clients[e.i]) || e.CountDial? || w.g.debt == 0 || w.g.closed
    ensures e.CountDial? ==> Apply(w, e).g.debt == w.g.debt
  {
  }

  lemma CloserCloses(w: World, e: Event)
    requires Inv(w) && !w.g.closed && Enabled(w, e) && CloserEvent(e)
    ensures Apply(w, e).g.closed
  {
  }

  /**
   Refused dials cannot go round and round. Over any run in which the pool stays as
   full as its width, whatever else its callers do, no more dials are begun than
   there was debt that the dials under way were not going to pay, plus one for each
   dial that brought a connection. With none that did, the debt is the bound.
   */
  lemma {:induction false} DialsAreBoundedByDebt(w: World, es: seq<Event>)
    requires Inv(w) && FullRun(w, es)
    ensures DialsStarted(w, es) <= Unspoken(w) + DialsLanded(es)
    ensures DialsLanded(es) == 0 ==> DialsStarted(w, es) <= w.g.debt
    decreases |es|
  {
    if es != [] {
      var w' := Apply(w, es[0]);
      assert FullRun(w', es[1..]) && Full(w');
      StepKeepsInv(w, es[0]);
      DialsAreBoundedByDebt(w', es[1..]);
      if CloserEvent(es[0]) {
        CloserCloses(w, es[0]);
      } else {
        DialStepSpends(w, es[0]);
      }
    }
  }

  /** And so from every state a pool can get into. */
  lemma ReachableDialsAreBounded(cap: nat, n: nat, w: World, es: seq<Event>)
    requires cap >= 1 && Reachable(cap, n, w) && FullRun(w, es)
    ensures DialsStarted(w, es) <= Unspoken(w) + DialsLanded(es) && Unspoken(w) <= w.g.debt
  {
    ReachableInv(cap, n, w);
    DialsAreBoundedByDebt(w, es);
  }

  /** A refusal is waited out only while the pool counts a connection, and then there is one to wait for. */
  lemma WaitedOutOnlyForSomething(cap: nat, n: nat, w: World, i: nat)
    requires cap >= 1 && Reachable(cap, n, w) && w.drift == 0 && Enabled(w, CheckRoom(i))
    ensures Apply(w, CheckRoom(i)).clients[i].Returning?
    ensures Apply(w, CheckRoom(i)).clients[i].room ==>
              w.g.open > 0 && (w.g.idle != [] || CountedBy(w.clients) > 0 || w.parked > 0)
  {
    OpenCountIsExact(cap, n, w);
  }

  /** An absorbed refusal leaves the pool in the state the two lemmas above start from. */
  lemma RefusalNarrowsToOpen(cap: nat, n: nat, w: World, i: nat, now: int)
    requires cap >= 1 && Reachable(cap, n, w) && i < |w.clients| && w.clients[i].Refusing?
    ensures var w' := Apply(w, Judge(i, now));
            w'.clients[i].Absorbing? ==> w'.clients[i].closing == [] && (w'.g.open >= w'.g.width || w'.g.open == 0)
  {
    ReachableInv(cap, n, w);
    TrimClosesNothing(w.g, now);
    if Refused(w.g, now).1 {
      RefusedWidth(w.g, now);
    }
  }

  /** At no moment of the run are fewer connections open than this. */
  predicate KeepsOpen(w: World, es: seq<Event>, least: int)
    decreases |es|
  {
    w.g.open >= least && (es == [] || (Enabled(w, es[0]) && KeepsOpen(Apply(w, es[0]), es[1..], least)))
  }

  /** Only a refusal narrows the pool, and never below what is open. */
  lemma StepNarrowsToOpen(w: World, e: Event)
    requires Enabled(w, e)
    ensures Apply(w, e).g.width >= w.g.width || Apply(w, e).g.width == RefusalWidth(w.g)
  {
  }

  lemma {:induction false} WidthIsKept(w: World, es: seq<Event>, least: int, width: nat)
    requires KeepsOpen(w, es, least) && width <= w.g.width && (width <= least || width <= 1)
    requires w.g.width >= 1
    ensures Run(w, es).Some? && Run(w, es).value.g.width >= width
    decreases |es|
  {
    if es != [] {
      StepNarrowsToOpen(w, es[0]);
      hide Enabled, Apply;
      WidthIsKept(Apply(w, es[0]), es[1..], least, width);
    }
  }

  /**
   A crowd of refusals does not walk the pool down. Once one has been believed, the
   pool never gets narrower than it made it, whatever further refusals, growth and
   other steps come between each other, as long as no connection is lost.
   */
  lemma BurstNarrowsOnce(cap: nat, n: nat, w: World, i: nat, now: int, es: seq<Event>)
    requires cap >= 1 && Reachable(cap, n, w) && Enabled(w, Judge(i, now))
    requires Apply(w, Judge(i, now)).clients[i].Absorbing?
    requires var w1 := Apply(w, Judge(i, now)); KeepsOpen(w1, es, w1.g.open)
    ensures var w1 := Apply(w, Judge(i, now));
            Run(w1, es).Some? && Run(w1, es).value.g.width >= w1.g.width
  {
    ReachableInv(cap, n, w);
    RefusedWidth(w.g, now);
    TrimClosesNothing(w.g, now);
    var w1 := Apply(w, Judge(i, now));
    StepKeepsInv(w, Judge(i, now));
    WidthIsKept(w1, es, w1.g.open, w1.g.width);
  }

  /* ---------- Close ---------- */

  /** The number Close read is what is in circulation at every moment until it has it all. */
  lemma CloseCountsWhatCirculates(cap: nat, n: nat, w: World)
    requires cap >= 1 && Reachable(cap, n, w) && !w.closer.NotClosing?
    ensures w.g.closed
    ensures w.closer.circulating == w.g.tokens + Tokens(w.clients) + Collected(w.closer)
  {
    ReachableInv(cap, n, w);
  }

  /**
   When Close returns, nobody holds a lease or a token, nothing is idle, every
   connection ever dialled has been closed exactly once, and a caller still
   waiting can only be told that the pool is closed, or give up.
   */
  lemma CloseIsComplete(cap: nat, n: nat, w: World)
    requires cap >= 1 && Reachable(cap, n, w) && w.closer.Finished?
    ensures w.g.idle == [] && w.closedLog == multiset(w.created)
    ensures forall c :: c in w.created ==> w.closedLog[c] == 1
    ensures forall i :: 0 <= i < |w.clients| ==> !HoldsToken(w.clients[i]) && !Enabled(w, Receive(i))
    ensures forall i :: 0 <= i < |w.clients| && w.clients[i].Waiting? ==> Enabled(w, SeeDone(i))
  {
    ReachableInv(cap, n, w);
    NoTokensNothingHeld(w.clients);
  }

  lemma TokenlessEvent(w: World, e: Event)
    requires Enabled(w, e) && !CloserEvent(e) && !HoldsToken(w.clients[e.i])
    ensures e.Enter? || e.Cancel? || e.SeeDone? || e.Receive? || e.Grow?
  {
  }

  lemma TokenlessStepFrame(w: World, e: Event)
    requires Enabled(w, e) && (e.Enter? || e.Cancel? || e.SeeDone? || e.Grow?)
    ensures Apply(w, e).closer == w.closer && Apply(w, e).created == w.created && Apply(w, e).closedLog == w.closedLog
  {
  }

  lemma FinishedStep(w: World, e: Event)
    requires TokensConserved(w) && CloserAgrees(w) && w.closer.Finished? && Enabled(w, e)
    ensures Apply(w, e).closer == w.closer && Apply(w, e).created == w.created && Apply(w, e).closedLog == w.closedLog
  {
    assert w.g.tokens == 0 && Tokens(w.clients) == 0;
    assert !CloserEvent(e);
    MovedTokens(w.clients, e.i, Outside);
    TokenlessEvent(w, e);
    TokenlessStepFrame(w, e);
  }

  /** Once finished, Close stays finished, whatever later callers do. */
  lemma {:induction false} ClosedForGood(w: World, es: seq<Event>)
    requires Inv(w) && w.closer.Finished? && Run(w, es).Some?
    ensures Run(w, es).value.closer == w.closer && Run(w, es).value.created == w.created
    ensures Run(w, es).value.closedLog == w.closedLog
    decreases |es|
  {
    if es != [] {
      FinishedStep(w, es[0]);
      StepKeepsInv(w, es[0]);
      ClosedForGood(Apply(w, es[0]), es[1..]);
    }
  }

  /** A bound on the steps a caller can still take in a closed pool before it has left it. */
  function Rank(p: Phase): nat {
    match p
    case Outside => 0
    case Growing => 1
    case PutSending(_) => 2
    case PutReturning(_) => 3
    case PutClosing(_, _) => 4
    case Leased(_) => 5
    case Sending(_, room) => if room then 17 else 1
    case Returning(_, room) => if room then 18 else 2
    case Refusing(_, _) => 3
    case Discarding(_, again) => if again then 10 else 3
    case Failing(_, retry, reused, _) => if retry then 4 else if reused then 11 else 3
    case Selecting(_, retry, _, _) => if retry then 6 else 12
    case Dialed(_, retry, _) => if retry then 7 else 13
    case Dialing(_, retry) => if retry then 8 else 14
    case Taking(_, retry) => if retry then 9 else 15
    case Waiting(_) => 16
    case Absorbing(_, _, closing) => 19 + |closing|
  }

  function Ranks(s: seq<Phase>): nat {
    if s == [] then 0 else Rank(s[0]) + Ranks(s[1..])
  }

  lemma {:induction false} MovedRanks(s: seq<Phase>, i: nat, p: Phase)
    requires i < |s|
    ensures Ranks(s[i := p]) + Rank(s[i]) == Ranks(s) + Rank(p)
  {
    if i == 0 {
      assert s[i := p][1..] == s[1..];
    } else {
      MovedRanks(s[1..], i - 1, p);
      assert s[i := p][1..] == s[1..][i - 1 := p];
    }
  }

  function CloserRank(cap: nat, closer: Closer): int {
    match closer
    case NotClosing => 0
    case Marked(circ) => circ + cap + 3
    case Collecting(circ, got) => (circ - got) + cap + 2
    case Draining(_, left) => |left| + 1
    case Finished(_) => 0
  }

  function StepsLeft(w: World): int {
    Ranks(w.clients) + CloserRank(w.g.cap, w.closer)
  }

  lemma ClosedStepShrinks(w: World, e: Event)
    requires Inv(w) && w.g.closed && Enabled(w, e) && !e.Enter?
    ensures StepsLeft(Apply(w, e)) < StepsLeft(w)
  {
    if CloserEvent(e) {
      CloserRankFalls(w, e);
    } else {
      ClientRankFalls(w, e);
      ClientStepFrame(w, e);
      MovedRanks(w.clients, e.i, Apply(w, e).clients[e.i]);
    }
  }

  lemma CloserRankFalls(w: World, e: Event)
    requires CloserAgrees(w) && |w.g.idle| <= w.g.cap && w.g.closed && Enabled(w, e) && CloserEvent(e)
    ensures Apply(w, e).clients == w.clients && Apply(w, e).g.cap == w.g.cap
    ensures CloserRank(w.g.cap, Apply(w, e).closer) < CloserRank(w.g.cap, w.closer)
  {
  }

  lemma WaitRankFalls(w: World, e: Event)
    requires Enabled(w, e) && WaitEvent(e) && !e.Enter?
    ensures Rank(Apply(w, e).clients[e.i]) < Rank(w.clients[e.i])
  {
  }

  lemma DialRankFalls(w: World, e: Event)
    requires w.g.closed && Enabled(w, e) && DialEvent(e)
    ensures Rank(Apply(w, e).clients[e.i]) < Rank(w.clients[e.i])
  {
  }

  lemma SelectRankFalls(w: World, e: Event)
    requires Enabled(w, e) && SelectEvent(e)
    ensures Rank(Apply(w, e).clients[e.i]) < Rank(w.clients[e.i])
  {
  }

  lemma ReturnRankFalls(w: World, e: Event)
    requires Enabled(w, e) && (e.SettleToken? || e.SendToken? || e.Release? || e.ClosePut? || e.Grow?)
    ensures Rank(Apply(w, e).clients[e.i]) < Rank(w.clients[e.i])
  {
  }

  /** In a closed pool no refusal is judged one, so nobody goes round again, and every step leads out. */
  lemma ClientRankFalls(w: World, e: Event)
    requires w.g.closed && Enabled(w, e) && !e.Enter? && !CloserEvent(e)
    ensures At(w, e.i) && Rank(Apply(w, e).clients[e.i]) < Rank(w.clients[e.i])
  {
    if WaitEvent(e) {
      WaitRankFalls(w, e);
    } else if DialEvent(e) {
      DialRankFalls(w, e);
    } else if SelectEvent(e) {
      SelectRankFalls(w, e);
    } else {
      ReturnRankFalls(w, e);
    }
  }

  /** Close terminates: with no new caller coming in, a closed pool has only so many steps left. */
  lemma {:induction false} CloseTerminates(w: World, es: seq<Event>)
    requires Inv(w) && w.g.closed && Run(w, es).Some?
    requires forall k :: 0 <= k < |es| ==> !es[k].Enter?
    ensures |es| <= StepsLeft(w)
    decreases |es|
  {
    MovedRanksNonNegative(w);
    if es != [] {
      ClosedStepShrinks(w, es[0]);
      StepKeepsInv(w, es[0]);
      assert Apply(w, es[0]).g.closed;
      CloseTerminates(Apply(w, es[0]), es[1..]);
    }
  }

  lemma MovedRanksNonNegative(w: World)
    requires Inv(w)
    ensures StepsLeft(w) >= 0
  {
  }

  /** Whether every caller has either left the pool or given its lease back and gone. */
  predicate AllLeft(w: World) {
    forall i :: 0 <= i < |w.clients| ==> w.clients[i].Outside?
  }

  /**
   A caller still in the pool can take a step of its own, unless it is waiting for one that cannot come before
   Close goes on.
   */
  lemma CallerCanStep(w: World, i: nat) returns (e: Event)
    requires Inv(w) && w.g.closed && i < |w.clients| && !w.clients[i].Outside?
    ensures Enabled(w, e) && !e.Enter?
  {
    MovedTokens(w.clients, i, Outside);
    match w.clients[i]
    case Waiting(_) => e := Cancel(i);
    case Taking(_, _) => e := TakeSection(i);
    case Dialing(_, _) => e := DialFail(i);
    case Dialed(_, _, _) => e := CountDial(i, 0);
    case Refusing(_, _) => e := Judge(i, 0);
    case Absorbing(_, _, _) => e := CheckRoom(i);
    case Selecting(_, _, _, _) => e := SelectOk(i);
    case Failing(_, _, _, _) => e := CloseUnusable(i);
    case Discarding(_, _) => e := Event.Discard(i);
    case Returning(_, _) => e := SettleToken(i);
    case Sending(_, _) => e := SendToken(i);
    case Leased(_) => e := Release(i, Clean, 0);
    case PutClosing(_, _) => e := ClosePut(i);
    case PutReturning(_) => e := SettleToken(i);
    case PutSending(_) => e := SendToken(i);
    case Growing => e := Event.Grow(i, 0);
  }

  lemma {:induction false} AllLeftNoTokens(s: seq<Phase>)
    requires forall i :: 0 <= i < |s| ==> s[i].Outside?
    ensures Tokens(s) == 0
  {
    if s != [] {
      AllLeftNoTokens(s[1..]);
    }
  }

  /**
   Close never gets stuck: until it has finished, either some caller that is
   still in the pool can step or Close itself can. With the bound above, it
   finishes once every lease has been given back.
   */
  lemma CloseAlwaysProgresses(w: World) returns (e: Event)
    requires Inv(w) && w.g.closed && !w.closer.Finished?
    ensures Enabled(w, e) && !e.Enter?
    ensures AllLeft(w) ==> CloserEvent(e)
  {
    if AllLeft(w) {
      AllLeftNoTokens(w.clients);
      match w.closer
      case Marked(_) => e := CloseDone;
      case Collecting(circ, got) => e := if got < circ then CloseCollect else CloseTakeIdle;
      case Draining(_, _) => e := CloseDrain;
    } else {
      var i :| 0 <= i < |w.clients| && !w.clients[i].Outside?;
      e := CallerCanStep(w, i);
    }
  }
}
