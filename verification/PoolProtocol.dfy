/**
 The connection pool as a machine of atomic steps.

 Any number of clients lease connections while one caller closes the pool. A
 step is one critical section, one send or receive on the token channel, or one
 action on a connection outside the lock, so the interleavings are those of the
 goroutines. The critical sections are the functions of PoolGovernor, which
 class `Pool` implements.
 */
module PoolProtocol {
  import opened Wrappers
  import opened PoolGovernor

  /**
   Where one caller of Acquire and Release has got to. `retry` marks the second
   take of one Acquire, `named` a lease that wants a mailbox selected.
   */
  datatype Phase =
    | Outside
    | Waiting(named: bool)
    | Taking(named: bool, retry: bool)
    | Dialing(named: bool, retry: bool)
    | Dialed(named: bool, retry: bool, c: ConnId)
    | Refusing(named: bool, retry: bool)
    | Absorbing(named: bool, retry: bool, closing: seq<ConnId>)
    | Selecting(named: bool, retry: bool, reused: bool, c: ConnId)
    | Failing(named: bool, retry: bool, reused: bool, c: ConnId)
    | Discarding(named: bool, again: bool)
    | Returning(named: bool, room: bool)
    | Sending(named: bool, room: bool)
    | Leased(c: ConnId)
    | PutClosing(c: ConnId, clean: bool)
    | PutReturning(clean: bool)
    | PutSending(clean: bool)
    | Growing

  /** Where the first call of Close has got to; later calls return at once and change nothing. */
  datatype Closer =
    | NotClosing
    | Marked(circulating: nat)
    | Collecting(circulating: nat, got: nat)
    | Draining(circulating: nat, left: seq<ConnId>)
    | Finished(circulating: nat)

  /**
   `created` is every connection ever dialled and `closedLog` every close of one.
   `drift` counts the connections closed without the open count being told, and
   `parked` those Close took off the idle stack, where the count is no longer kept.
   */
  datatype World = World(
    g: Gov,
    clients: seq<Phase>,
    closer: Closer,
    created: set<ConnId>,
    closedLog: multiset<ConnId>,
    drift: nat,
    parked: nat)

  datatype Event =
    | Enter(i: nat, named: bool)
    | Cancel(i: nat)
    | SeeDone(i: nat)
    | Receive(i: nat)
    | TakeSection(i: nat)
    | DialOk(i: nat, c: ConnId)
    | DialFail(i: nat)
    | CountDial(i: nat, now: int)
    | Judge(i: nat, now: int)
    | TrimOne(i: nat)
    | CheckRoom(i: nat)
    | SelectOk(i: nat)
    | SelectFail(i: nat)
    | CloseUnusable(i: nat)
    | Discard(i: nat)
    | SettleToken(i: nat)
    | SendToken(i: nat)
    | Release(i: nat, outcome: Outcome, now: int)
    | ClosePut(i: nat)
    | Grow(i: nat, now: int)
    | CloseMark
    | CloseDone
    | CloseCollect
    | CloseTakeIdle
    | CloseDrain

  /* ---------- what a phase holds ---------- */

  /** Whether a client in this phase is holding a token. */
  predicate HoldsToken(p: Phase) {
    !p.Outside? && !p.Waiting? && !p.Growing?
  }

  function Tok(p: Phase): nat { if HoldsToken(p) then 1 else 0 }

  /** Whether the open count includes something for this client. */
  predicate Counted(p: Phase) {
    p.Selecting? || p.Failing? || p.Discarding? || p.Leased?
  }

  function Cnt(p: Phase): nat { if Counted(p) then 1 else 0 }

  /** The physical connections this client is responsible for. */
  function Hold(p: Phase): multiset<ConnId> {
    match p
    case Dialed(_, _, c) => multiset{c}
    case Absorbing(_, _, closing) => multiset(closing)
    case Selecting(_, _, _, c) => multiset{c}
    case Failing(_, _, _, c) => multiset{c}
    case Leased(c) => multiset{c}
    case PutClosing(c, _) => multiset{c}
    case _ => multiset{}
  }

  /** How many connections the server may see because of this client, a dial in progress included. */
  function Seen(p: Phase): nat {
    if p.Dialing? || p.Dialed? || p.Selecting? || p.Failing? || p.Leased? || p.PutClosing? then 1
    else if p.Absorbing? then |p.closing|
    else 0
  }

  function Tokens(s: seq<Phase>): nat {
    if s == [] then 0 else Tok(s[0]) + Tokens(s[1..])
  }

  function CountedBy(s: seq<Phase>): nat {
    if s == [] then 0 else Cnt(s[0]) + CountedBy(s[1..])
  }

  function SeenBy(s: seq<Phase>): nat {
    if s == [] then 0 else Seen(s[0]) + SeenBy(s[1..])
  }

  function HeldBy(s: seq<Phase>): multiset<ConnId> {
    if s == [] then multiset{} else Hold(s[0]) + HeldBy(s[1..])
  }

  lemma {:induction false} MovedTokens(s: seq<Phase>, i: nat, p: Phase)
    requires i < |s|
    ensures Tokens(s[i := p]) + Tok(s[i]) == Tokens(s) + Tok(p) && Tok(s[i]) <= Tokens(s)
  {
    if i == 0 {
      assert s[i := p][1..] == s[1..];
    } else {
      MovedTokens(s[1..], i - 1, p);
      assert s[i := p][1..] == s[1..][i - 1 := p];
    }
  }

  lemma {:induction false} MovedCounted(s: seq<Phase>, i: nat, p: Phase)
    requires i < |s|
    ensures CountedBy(s[i := p]) + Cnt(s[i]) == CountedBy(s) + Cnt(p) && Cnt(s[i]) <= CountedBy(s)
  {
    if i == 0 {
      assert s[i := p][1..] == s[1..];
    } else {
      MovedCounted(s[1..], i - 1, p);
      assert s[i := p][1..] == s[1..][i - 1 := p];
    }
  }

  lemma {:induction false} MovedSeen(s: seq<Phase>, i: nat, p: Phase)
    requires i < |s|
    ensures SeenBy(s[i := p]) + Seen(s[i]) == SeenBy(s) + Seen(p) && Seen(s[i]) <= SeenBy(s)
  {
    if i == 0 {
      assert s[i := p][1..] == s[1..];
    } else {
      MovedSeen(s[1..], i - 1, p);
      assert s[i := p][1..] == s[1..][i - 1 := p];
    }
  }

  lemma {:induction false} MovedHeld(s: seq<Phase>, i: nat, p: Phase)
    requires i < |s|
    ensures HeldBy(s[i := p]) + Hold(s[i]) == HeldBy(s) + Hold(p) && Hold(s[i]) <= HeldBy(s)
  {
    hide Hold;
    var t := s[i := p];
    assert t != [] && s != [];
    if i == 0 {
      assert t[1..] == s[1..];
    } else {
      MovedHeld(s[1..], i - 1, p);
      assert t[1..] == s[1..][i - 1 := p];
      assert s[1..][i - 1] == s[i];
      assert HeldBy(t) == Hold(s[0]) + HeldBy(t[1..]);
      assert HeldBy(s) == Hold(s[0]) + HeldBy(s[1..]);
      calc {
        HeldBy(t) + Hold(s[i]);
        Hold(s[0]) + (HeldBy(t[1..]) + Hold(s[i]));
        Hold(s[0]) + (HeldBy(s[1..]) + Hold(p));
        HeldBy(s) + Hold(p);
      }
    }
  }

  lemma {:induction false} CountedWithinTokens(s: seq<Phase>)
    ensures CountedBy(s) <= Tokens(s)
  {
    if s != [] {
      CountedWithinTokens(s[1..]);
    }
  }

  lemma {:induction false} SeenWithinTokens(s: seq<Phase>)
    requires forall i :: 0 <= i < |s| && s[i].Absorbing? ==> s[i].closing == []
    ensures SeenBy(s) <= Tokens(s)
  {
    if s != [] {
      assert forall i :: 0 <= i < |s[1..]| ==> s[1..][i] == s[i + 1];
      SeenWithinTokens(s[1..]);
    }
  }

  /** With no token held by anybody, nobody holds a connection and nothing is counted for anybody. */
  lemma {:induction false} NoTokensNothingHeld(s: seq<Phase>)
    requires Tokens(s) == 0
    ensures forall i :: 0 <= i < |s| ==> !HoldsToken(s[i])
    ensures HeldBy(s) == multiset{} && CountedBy(s) == 0 && SeenBy(s) == 0
  {
    if s != [] {
      NoTokensNothingHeld(s[1..]);
      forall i | 0 <= i < |s|
        ensures !HoldsToken(s[i])
      {
        assert i > 0 ==> s[i] == s[1..][i - 1];
      }
    }
  }

  /* ---------- the machine ---------- */

  function Init(cap: nat, n: nat): World {
    World(Fresh(cap), seq(n, i => Outside), NotClosing, {}, multiset{}, 0, 0)
  }

  function Left(closer: Closer): seq<ConnId> {
    if closer.Draining? then closer.left else []
  }

  /** The tokens Close has taken out of the channel and is keeping. */
  function Collected(closer: Closer): nat {
    match closer
    case NotClosing => 0
    case Marked(_) => 0
    case Collecting(_, got) => got
    case Draining(circ, _) => circ
    case Finished(circ) => circ
  }

  predicate DoneClosed(closer: Closer) {
    !closer.NotClosing? && !closer.Marked?
  }

  predicate At(w: World, i: nat) { i < |w.clients| }

  predicate Enabled(w: World, e: Event) {
    match e
    case Enter(i, _) => At(w, i) && w.clients[i].Outside?
    case Cancel(i) => At(w, i) && w.clients[i].Waiting?
    case SeeDone(i) => At(w, i) && w.clients[i].Waiting? && DoneClosed(w.closer)
    case Receive(i) => At(w, i) && w.clients[i].Waiting? && w.g.tokens > 0
    case TakeSection(i) => At(w, i) && w.clients[i].Taking?
    case DialOk(i, c) => At(w, i) && w.clients[i].Dialing? && c !in w.created
    case DialFail(i) => At(w, i) && w.clients[i].Dialing?
    case CountDial(i, _) => At(w, i) && w.clients[i].Dialed?
    case Judge(i, _) => At(w, i) && w.clients[i].Refusing?
    case TrimOne(i) => At(w, i) && w.clients[i].Absorbing? && w.clients[i].closing != []
    case CheckRoom(i) => At(w, i) && w.clients[i].Absorbing? && w.clients[i].closing == []
    case SelectOk(i) => At(w, i) && w.clients[i].Selecting?
    case SelectFail(i) => At(w, i) && w.clients[i].Selecting? && w.clients[i].named
    case CloseUnusable(i) => At(w, i) && w.clients[i].Failing?
    case Discard(i) => At(w, i) && w.clients[i].Discarding?
    case SettleToken(i) => At(w, i) && (w.clients[i].Returning? || w.clients[i].PutReturning?)
    case SendToken(i) => At(w, i) && (w.clients[i].Sending? || w.clients[i].PutSending?) && w.g.tokens < w.g.cap
    case Release(i, _, _) => At(w, i) && w.clients[i].Leased?
    case ClosePut(i) => At(w, i) && w.clients[i].PutClosing?
    case Grow(i, now) => At(w, i) && w.clients[i].Growing? && (MayGrow(w.g, now) ==> w.g.tokens < w.g.cap)
    case CloseMark => w.closer.NotClosing? && !w.g.closed
    case CloseDone => w.closer.Marked?
    case CloseCollect => w.closer.Collecting? && w.closer.got < w.closer.circulating && w.g.tokens > 0
    case CloseTakeIdle => w.closer.Collecting? && w.closer.got == w.closer.circulating
    case CloseDrain => w.closer.Draining?
  }

  function Goto(w: World, i: nat, p: Phase): World
    requires At(w, i)
  {
    w.(clients := w.clients[i := p])
  }

  /** A client holding a token pops an idle connection, or goes off to dial. */
  function Taken(w: World, i: nat): World
    requires At(w, i) && w.clients[i].Taking?
  {
    var p := w.clients[i];
    var n := |w.g.idle|;
    if n > 0 then
      Goto(w, i, Selecting(p.named, p.retry, true, w.g.idle[n - 1])).(g := w.g.(idle := w.g.idle[..n - 1]))
    else Goto(w, i, Dialing(p.named, p.retry))
  }

  function Judged(w: World, i: nat, now: int): World
    requires At(w, i) && w.clients[i].Refusing?
  {
    var p := w.clients[i];
    var (g', full, closing) := Refused(w.g, now);
    Goto(w, i, if full then Absorbing(p.named, p.retry, closing) else Returning(p.named, false)).(g := g')
  }

  /**
   A connection whose SELECT failed is closed. One taken off the idle stack is
   then discounted and replaced once; a fresh one is not discounted at all.
   */
  function ClosedUnusable(w: World, i: nat): World
    requires At(w, i) && w.clients[i].Failing?
  {
    var p := w.clients[i];
    var log := w.closedLog + multiset{p.c};
    if p.retry then Goto(w, i, Discarding(p.named, false)).(closedLog := log)
    else if p.reused then Goto(w, i, Discarding(p.named, true)).(closedLog := log)
    else Goto(w, i, Returning(p.named, false)).(closedLog := log, drift := w.drift + 1)
  }

  function Discounted(w: World, i: nat): World
    requires At(w, i) && w.clients[i].Discarding?
  {
    var p := w.clients[i];
    Goto(w, i, if p.again then Taking(p.named, true) else Returning(p.named, false)).(g := Discarded(w.g))
  }

  /** What an Acquire does with its token gone: back to waiting, or out with the error. */
  function AfterToken(named: bool, room: bool): Phase {
    if room then Waiting(named) else Outside
  }

  /** What a Release does with its token gone: grow after clean work, or nothing. */
  function AfterPut(clean: bool): Phase {
    if clean then Growing else Outside
  }

  function Settled(w: World, i: nat): World
    requires At(w, i) && (w.clients[i].Returning? || w.clients[i].PutReturning?)
  {
    var p := w.clients[i];
    if OwesToken(w.g) then
      Goto(w, i, if p.Returning? then AfterToken(p.named, p.room) else AfterPut(p.clean)).(g := DebtPaid(w.g))
    else
      Goto(w, i, if p.Returning? then Sending(p.named, p.room) else PutSending(p.clean))
  }

  function Sent(w: World, i: nat): World
    requires At(w, i) && (w.clients[i].Sending? || w.clients[i].PutSending?)
  {
    var p := w.clients[i];
    Goto(w, i, if p.Sending? then AfterToken(p.named, p.room) else AfterPut(p.clean))
      .(g := w.g.(tokens := w.g.tokens + 1))
  }

  function Released(w: World, i: nat, outcome: Outcome, now: int): World
    requires At(w, i) && w.clients[i].Leased?
  {
    var c := w.clients[i].c;
    Goto(w, i, if PutDiscards(w.g, outcome) then PutClosing(c, outcome.Clean?) else PutReturning(outcome.Clean?))
      .(g := Put(w.g, c, outcome, now))
  }

  function Apply(w: World, e: Event): World
    requires Enabled(w, e)
  {
    match e
    case Enter(i, named) => Goto(w, i, Waiting(named))
    case Cancel(i) => Goto(w, i, Outside)
    case SeeDone(i) => Goto(w, i, Outside)
    case Receive(i) =>
      Goto(w, i, Taking(w.clients[i].named, false)).(g := w.g.(tokens := w.g.tokens - 1))
    case TakeSection(i) => Taken(w, i)
    case DialOk(i, c) =>
      Goto(w, i, Dialed(w.clients[i].named, w.clients[i].retry, c)).(created := w.created + {c})
    case DialFail(i) => Goto(w, i, Refusing(w.clients[i].named, w.clients[i].retry))
    case CountDial(i, now) =>
      Goto(w, i, Selecting(w.clients[i].named, w.clients[i].retry, false, w.clients[i].c)).(g := DialCounted(w.g, now))
    case Judge(i, now) => Judged(w, i, now)
    case TrimOne(i) =>
      var p := w.clients[i];
      Goto(w, i, p.(closing := p.closing[1..])).(closedLog := w.closedLog + multiset{p.closing[0]})
    case CheckRoom(i) =>
      // A refused second dial comes back as the error of the SELECT before it, which no caller waits out.
      Goto(w, i, Returning(w.clients[i].named, w.g.open > 0 && !w.clients[i].retry))
    case SelectOk(i) => Goto(w, i, Leased(w.clients[i].c))
    case SelectFail(i) =>
      var p := w.clients[i];
      Goto(w, i, Failing(p.named, p.retry, p.reused, p.c))
    case CloseUnusable(i) => ClosedUnusable(w, i)
    case Discard(i) => Discounted(w, i)
    case SettleToken(i) => Settled(w, i)
    case SendToken(i) => Sent(w, i)
    case Release(i, outcome, now) => Released(w, i, outcome, now)
    case ClosePut(i) =>
      Goto(w, i, PutReturning(w.clients[i].clean)).(closedLog := w.closedLog + multiset{w.clients[i].c})
    case Grow(i, now) => Goto(w, i, Outside).(g := Grown(w.g, now))
    case CloseMark =>
      w.(closer := Marked(w.g.width + w.g.debt), g := w.g.(closed := true))
    case CloseDone => w.(closer := Collecting(w.closer.circulating, 0))
    case CloseCollect =>
      w.(closer := Collecting(w.closer.circulating, w.closer.got + 1), g := w.g.(tokens := w.g.tokens - 1))
    case CloseTakeIdle =>
      w.(closer := Draining(w.closer.circulating, w.g.idle), g := w.g.(idle := []), parked := |w.g.idle|)
    case CloseDrain => Drained(w)
  }

  /** Close logs out of and closes one of the connections it took, or is finished. */
  function Drained(w: World): World
    requires w.closer.Draining?
  {
    if w.closer.left == [] then w.(closer := Finished(w.closer.circulating))
    else
      w.(closer := Draining(w.closer.circulating, w.closer.left[1..]),
         closedLog := w.closedLog + multiset{w.closer.left[0]})
  }

  /** The world after a whole run of steps, or None when some step could not be taken. */
  function Run(w: World, es: seq<Event>): Option<World>
    decreases |es|
  {
    if es == [] then Some(w)
    else if !Enabled(w, es[0]) then None
    else Run(Apply(w, es[0]), es[1..])
  }

  /* ---------- the invariant ---------- */

  /** Every physical connection, wherever it is. */
  function Owned(w: World): multiset<ConnId> {
    multiset(w.g.idle) + HeldBy(w.clients) + multiset(Left(w.closer)) + w.closedLog
  }

  predicate TokensConserved(w: World) {
    w.g.tokens + Tokens(w.clients) + Collected(w.closer) == w.g.width + w.g.debt
  }

  predicate Bounded(g: Gov) {
    1 <= g.width && g.width + g.debt <= g.cap
  }

  predicate CloserAgrees(w: World) {
    (w.g.closed <==> !w.closer.NotClosing?) &&
    (!w.closer.NotClosing? ==> w.closer.circulating == w.g.width + w.g.debt) &&
    (w.closer.Collecting? ==> w.closer.got <= w.closer.circulating) &&
    (w.closer.Draining? || w.closer.Finished? ==> w.g.idle == []) &&
    (!(w.closer.Draining? || w.closer.Finished?) ==> w.parked == 0)
  }

  predicate OpenExact(w: World) {
    w.g.open == |w.g.idle| + CountedBy(w.clients) + w.drift + w.parked
  }

  predicate Inv(w: World) {
    Bounded(w.g) &&
    TokensConserved(w) &&
    CloserAgrees(w) &&
    OpenExact(w) &&
    Owned(w) == multiset(w.created) &&
    |w.g.idle| + SeenBy(w.clients) + |Left(w.closer)| <= w.g.cap &&
    |w.g.idle| <= w.g.width &&
    (forall i :: 0 <= i < |w.clients| && w.clients[i].Absorbing? ==> w.clients[i].closing == [])
  }

  lemma {:induction false} NobodyHoldsAnything(n: nat)
    ensures var s := seq(n, i => Outside);
            Tokens(s) == 0 && CountedBy(s) == 0 && SeenBy(s) == 0 && HeldBy(s) == multiset{}
  {
    var s := seq(n, i => Outside);
    if n > 0 {
      NobodyHoldsAnything(n - 1);
      assert s[1..] == seq(n - 1, i => Outside);
    }
  }

  lemma InitHolds(cap: nat, n: nat)
    requires cap >= 1
    ensures Inv(Init(cap, n))
  {
    NobodyHoldsAnything(n);
  }

  predicate CloserEvent(e: Event) {
    e.CloseMark? || e.CloseDone? || e.CloseCollect? || e.CloseTakeIdle? || e.CloseDrain?
  }

  lemma MarkKeepsInv(w: World)
    requires Inv(w) && Enabled(w, CloseMark)
    ensures Inv(Apply(w, CloseMark))
  {
    var w' := Apply(w, CloseMark);
    assert Owned(w') == Owned(w);
  }

  lemma DoneKeepsInv(w: World)
    requires Inv(w) && Enabled(w, CloseDone)
    ensures Inv(Apply(w, CloseDone))
  {
    assert Owned(Apply(w, CloseDone)) == Owned(w);
  }

  lemma CollectKeepsInv(w: World)
    requires Inv(w) && Enabled(w, CloseCollect)
    ensures Inv(Apply(w, CloseCollect))
  {
    assert Owned(Apply(w, CloseCollect)) == Owned(w);
  }

  lemma TakeIdleKeepsInv(w: World)
    requires Inv(w) && Enabled(w, CloseTakeIdle)
    ensures Inv(Apply(w, CloseTakeIdle))
  {
    NoTokensNothingHeld(w.clients);
    var w' := Apply(w, CloseTakeIdle);
    assert Owned(w') == Owned(w);
  }

  lemma DrainKeepsInv(w: World)
    requires Inv(w) && Enabled(w, CloseDrain)
    ensures Inv(Apply(w, CloseDrain))
  {
    var w' := Drained(w);
    var left := w.closer.left;
    if left != [] {
      DrainOwns(left, multiset(w.g.idle) + HeldBy(w.clients), w.closedLog);
      assert Left(w'.closer) == left[1..] && w'.closedLog == w.closedLog + multiset{left[0]};
    } else {
      assert Left(w'.closer) == left && w'.closedLog == w.closedLog;
    }
    assert w'.g == w.g && w'.clients == w.clients && w'.created == w.created;
    assert Owned(w') == multiset(w'.created);
  }

  lemma DrainOwns(left: seq<ConnId>, rest: multiset<ConnId>, log: multiset<ConnId>)
    requires left != []
    ensures rest + multiset(left[1..]) + (log + multiset{left[0]}) == rest + multiset(left) + log
  {
    assert left == [left[0]] + left[1..];
  }

  lemma CloserKeepsInv(w: World, e: Event)
    requires Inv(w) && Enabled(w, e) && CloserEvent(e)
    ensures Inv(Apply(w, e))
  {
    match e
    case CloseMark => MarkKeepsInv(w);
    case CloseDone => DoneKeepsInv(w);
    case CloseCollect => CollectKeepsInv(w);
    case CloseTakeIdle => TakeIdleKeepsInv(w);
    case CloseDrain => DrainKeepsInv(w);
  }

  /** What one client step must balance: the totals it changes against what its client now holds. */
  ghost predicate Balanced(w: World, i: nat, p: Phase, g: Gov, created: set<ConnId>, log: multiset<ConnId>, drift: nat)
    requires At(w, i)
  {
    var q := w.clients[i];
    Bounded(g) && g.cap == w.g.cap && g.closed == w.g.closed &&
    (g.closed ==> g.width + g.debt == w.g.width + w.g.debt) &&
    g.tokens + Tok(p) + w.g.width + w.g.debt == g.width + g.debt + w.g.tokens + Tok(q) &&
    g.open + |w.g.idle| + Cnt(q) + w.drift == w.g.open + |g.idle| + Cnt(p) + drift &&
    (multiset(g.idle) + Hold(p)) + (log + multiset(w.created)) ==
      (multiset(w.g.idle) + Hold(q)) + (w.closedLog + multiset(created)) &&
    |g.idle| <= g.width &&
    (p.Absorbing? ==> p.closing == []) &&
    (|g.idle| + Seen(p) <= |w.g.idle| + Seen(q) || (g.idle == [] && HoldsToken(p))) &&
    (HoldsToken(q) || g.idle == w.g.idle)
  }

  function Updated(w: World, i: nat, p: Phase, g: Gov, created: set<ConnId>, log: multiset<ConnId>, drift: nat): World
    requires At(w, i)
  {
    World(g, w.clients[i := p], w.closer, created, log, drift, w.parked)
  }

  lemma BalanceOwned(idle: multiset<ConnId>, held: multiset<ConnId>, left: multiset<ConnId>, log: multiset<ConnId>,
                     created: multiset<ConnId>, h: multiset<ConnId>,
                     idle': multiset<ConnId>, held': multiset<ConnId>, log': multiset<ConnId>,
                     created': multiset<ConnId>, h': multiset<ConnId>)
    requires idle + held + left + log == created
    requires held' + h == held + h'
    requires (idle' + h') + (log' + created) == (idle + h) + (log + created')
    ensures idle' + held' + left + log' == created'
  {
    forall c
      ensures (idle' + held' + left + log')[c] == created'[c]
    {
      assert (idle + held + left + log)[c] == created[c];
      assert (held' + h)[c] == (held + h')[c];
      assert ((idle' + h') + (log' + created))[c] == ((idle + h) + (log + created'))[c];
    }
  }

  lemma BalancedOwns(w: World, i: nat, p: Phase, g: Gov, created: set<ConnId>, log: multiset<ConnId>, drift: nat)
    requires Owned(w) == multiset(w.created) && At(w, i) && Balanced(w, i, p, g, created, log, drift)
    ensures Owned(Updated(w, i, p, g, created, log, drift)) == multiset(created)
  {
    MovedHeld(w.clients, i, p);
    BalanceOwned(multiset(w.g.idle), HeldBy(w.clients), multiset(Left(w.closer)), w.closedLog, multiset(w.created),
                 Hold(w.clients[i]), multiset(g.idle), HeldBy(w.clients[i := p]), log, multiset(created), Hold(p));
  }

  lemma BalancedCeiling(w: World, i: nat, p: Phase, g: Gov, created: set<ConnId>, log: multiset<ConnId>, drift: nat)
    requires Inv(w) && At(w, i) && Balanced(w, i, p, g, created, log, drift)
    ensures |g.idle| + SeenBy(w.clients[i := p]) + |Left(w.closer)| <= w.g.cap
  {
    MovedSeen(w.clients, i, p);
    if g.idle == [] && HoldsToken(p) {
      var s := w.clients[i := p];
      MovedTokens(w.clients, i, p);
      MovedTokens(s, i, w.clients[i]);
      SeenWithinTokens(s);
    }
  }

  lemma BalancedKeepsInv(w: World, i: nat, p: Phase, g: Gov, created: set<ConnId>, log: multiset<ConnId>, drift: nat)
    requires Inv(w) && At(w, i) && Balanced(w, i, p, g, created, log, drift)
    ensures Inv(Updated(w, i, p, g, created, log, drift))
  {
    BalancedOwns(w, i, p, g, created, log, drift);
    BalancedCeiling(w, i, p, g, created, log, drift);
    MovedTokens(w.clients, i, p);
    MovedCounted(w.clients, i, p);
  }

  /** What a single step needs of the world; the rest of the invariant stays out of the way. */
  predicate Near(w: World) {
    Bounded(w.g) && |w.g.idle| <= w.g.width && |w.g.idle| <= w.g.open
  }

  ghost predicate Balances(w: World, i: nat, w': World) {
    At(w, i) && At(w', i) &&
    Balanced(w, i, w'.clients[i], w'.g, w'.created, w'.closedLog, w'.drift) &&
    w' == Updated(w, i, w'.clients[i], w'.g, w'.created, w'.closedLog, w'.drift)
  }

  lemma TakenBalances(w: World, i: nat)
    requires Near(w) && At(w, i) && w.clients[i].Taking?
    ensures Balances(w, i, Taken(w, i))
  {
    var idle := w.g.idle;
    if idle != [] {
      var n := |idle| - 1;
      assert idle == idle[..n] + [idle[n]];
      assert multiset(idle[..n]) + multiset{idle[n]} == multiset(idle) + multiset{};
    }
  }

  lemma DialShifts(idle: multiset<ConnId>, log: multiset<ConnId>, created: multiset<ConnId>, c: ConnId)
    ensures (idle + multiset{c}) + (log + created) == (idle + multiset{}) + (log + (created + multiset{c}))
  {
  }

  lemma DialOkBalances(w: World, i: nat, c: ConnId)
    requires Near(w) && Enabled(w, DialOk(i, c))
    ensures Balances(w, i, Apply(w, DialOk(i, c)))
  {
    assert multiset(w.created + {c}) == multiset(w.created) + multiset{c};
    DialShifts(multiset(w.g.idle), w.closedLog, multiset(w.created), c);
  }

  lemma JudgedBalances(w: World, i: nat, now: int)
    requires Near(w) && At(w, i) && w.clients[i].Refusing?
    ensures Balances(w, i, Judged(w, i, now))
  {
    TrimClosesNothing(w.g, now);
  }

  lemma CloseShifts(idle: multiset<ConnId>, log: multiset<ConnId>, created: multiset<ConnId>, c: ConnId)
    ensures (idle + multiset{}) + ((log + multiset{c}) + created) == (idle + multiset{c}) + (log + created)
  {
  }

  lemma ClosedUnusableBalances(w: World, i: nat)
    requires Near(w) && At(w, i) && w.clients[i].Failing?
    ensures Balances(w, i, ClosedUnusable(w, i))
  {
    var w' := ClosedUnusable(w, i);
    assert Hold(w'.clients[i]) == multiset{} && Hold(w.clients[i]) == multiset{w.clients[i].c};
    CloseShifts(multiset(w.g.idle), w.closedLog, multiset(w.created), w.clients[i].c);
  }

  lemma ClosePutBalances(w: World, i: nat)
    requires Near(w) && Enabled(w, ClosePut(i))
    ensures Balances(w, i, Apply(w, ClosePut(i)))
  {
    CloseShifts(multiset(w.g.idle), w.closedLog, multiset(w.created), w.clients[i].c);
  }

  lemma DiscountedBalances(w: World, i: nat)
    requires Near(w) && At(w, i) && w.clients[i].Discarding?
    ensures Balances(w, i, Discounted(w, i))
  {
  }

  lemma SettledBalances(w: World, i: nat)
    requires Near(w) && At(w, i) && (w.clients[i].Returning? || w.clients[i].PutReturning?)
    ensures Balances(w, i, Settled(w, i))
  {
  }

  lemma SentBalances(w: World, i: nat)
    requires Near(w) && At(w, i) && (w.clients[i].Sending? || w.clients[i].PutSending?)
    ensures Balances(w, i, Sent(w, i))
  {
  }

  lemma ReleasedToCloseBalances(w: World, i: nat, outcome: Outcome, now: int)
    requires Near(w) && At(w, i) && w.clients[i].Leased? && PutDiscards(w.g, outcome)
    ensures Balances(w, i, Released(w, i, outcome, now))
  {
  }

  lemma ReleasedToIdleBalances(w: World, i: nat, outcome: Outcome, now: int)
    requires Near(w) && At(w, i) && w.clients[i].Leased? && !PutDiscards(w.g, outcome) && |w.g.idle| < w.g.open
    ensures Balances(w, i, Released(w, i, outcome, now))
  {
    var w' := Released(w, i, outcome, now);
    var p, p' := w.clients[i], w'.clients[i];
    assert Hold(p) == multiset{p.c} && Hold(p') == multiset{} && Seen(p) == 1 && Seen(p') == 0;
    assert w'.g.idle == w.g.idle + [p.c] && w'.g.open == w.g.open;
    assert multiset(w.g.idle + [p.c]) + multiset{} == multiset(w.g.idle) + multiset{p.c};
  }

  /** A step that only moves one client's phase, and leaves it answering for what it answered for. */
  lemma GotoBalances(w: World, i: nat, p: Phase)
    requires Near(w) && At(w, i) && Tok(p) == Tok(w.clients[i]) && Cnt(p) == Cnt(w.clients[i])
    requires Seen(p) <= Seen(w.clients[i]) && Hold(p) == Hold(w.clients[i]) && !p.Absorbing?
    ensures Balances(w, i, Goto(w, i, p))
  {
    var w' := Goto(w, i, p);
    assert w'.g == w.g && w'.created == w.created && w'.closedLog == w.closedLog && w'.drift == w.drift;
  }

  lemma CheckRoomBalances(w: World, i: nat)
    requires Near(w) && Enabled(w, CheckRoom(i))
    ensures Balances(w, i, Apply(w, CheckRoom(i)))
  {
    GotoBalances(w, i, Returning(w.clients[i].named, w.g.open > 0 && !w.clients[i].retry));
  }

  /** The steps that also move the count, the clock or a token beside it. */
  lemma CountStepBalances(w: World, e: Event)
    requires Near(w) && Enabled(w, e) && (e.Receive? || e.CountDial? || e.Grow?)
    ensures Balances(w, e.i, Apply(w, e))
  {
    var w' := Apply(w, e);
    assert Hold(w'.clients[e.i]) == Hold(w.clients[e.i]);
    assert w'.g.idle == w.g.idle && w'.created == w.created && w'.closedLog == w.closedLog && w'.drift == w.drift;
  }

  predicate WaitEvent(e: Event) {
    e.Enter? || e.Cancel? || e.SeeDone? || e.Receive? || e.TakeSection?
  }

  predicate DialEvent(e: Event) {
    e.DialOk? || e.DialFail? || e.CountDial? || e.Judge? || e.TrimOne? || e.CheckRoom?
  }

  predicate SelectEvent(e: Event) {
    e.SelectOk? || e.SelectFail? || e.CloseUnusable? || e.Discard?
  }

  lemma WaitStepBalances(w: World, e: Event)
    requires Near(w) && Enabled(w, e) && WaitEvent(e)
    ensures Balances(w, e.i, Apply(w, e))
  {
    match e
    case Enter(i, named) => GotoBalances(w, i, Waiting(named));
    case Cancel(i) => GotoBalances(w, i, Outside);
    case SeeDone(i) => GotoBalances(w, i, Outside);
    case Receive(i) => CountStepBalances(w, e);
    case TakeSection(i) => TakenBalances(w, i);
  }

  lemma DialStepBalances(w: World, e: Event)
    requires Inv(w) && Near(w) && Enabled(w, e) && DialEvent(e)
    ensures Balances(w, e.i, Apply(w, e))
  {
    match e
    case DialOk(i, c) => DialOkBalances(w, i, c);
    case DialFail(i) => GotoBalances(w, i, Refusing(w.clients[i].named, w.clients[i].retry));
    case CountDial(_, _) => CountStepBalances(w, e);
    case Judge(i, now) => JudgedBalances(w, i, now);
    case TrimOne(i) => assert false;
    case CheckRoom(i) => CheckRoomBalances(w, i);
  }

  lemma SelectStepBalances(w: World, e: Event)
    requires Near(w) && Enabled(w, e) && SelectEvent(e)
    ensures Balances(w, e.i, Apply(w, e))
  {
    match e
    case SelectOk(i) => GotoBalances(w, i, Leased(w.clients[i].c));
    case SelectFail(i) =>
      var p := w.clients[i];
      GotoBalances(w, i, Failing(p.named, p.retry, p.reused, p.c));
    case CloseUnusable(i) => ClosedUnusableBalances(w, i);
    case Discard(i) => DiscountedBalances(w, i);
  }

  lemma ReturnStepBalances(w: World, e: Event)
    requires Near(w) && Enabled(w, e)
    requires e.SettleToken? || e.SendToken? || e.Release? || e.ClosePut? || e.Grow?
    requires e.Release? ==> |w.g.idle| < w.g.open
    ensures Balances(w, e.i, Apply(w, e))
  {
    match e
    case SettleToken(i) => SettledBalances(w, i);
    case SendToken(i) => SentBalances(w, i);
    case Release(i, outcome, now) => ReleasedBalances(w, i, outcome, now);
    case ClosePut(i) => ClosePutBalances(w, i);
    case Grow(_, _) => CountStepBalances(w, e);
  }

  lemma ReleasedBalances(w: World, i: nat, outcome: Outcome, now: int)
    requires Near(w) && At(w, i) && w.clients[i].Leased? && |w.g.idle| < w.g.open
    ensures Balances(w, i, Released(w, i, outcome, now))
  {
    if PutDiscards(w.g, outcome) {
      ReleasedToCloseBalances(w, i, outcome, now);
    } else {
      ReleasedToIdleBalances(w, i, outcome, now);
    }
  }

  lemma ClientStepBalances(w: World, e: Event)
    requires Inv(w) && Enabled(w, e) && !CloserEvent(e)
    ensures Balances(w, e.i, Apply(w, e))
  {
    if WaitEvent(e) {
      WaitStepBalances(w, e);
    } else if DialEvent(e) {
      DialStepBalances(w, e);
    } else if SelectEvent(e) {
      SelectStepBalances(w, e);
    } else {
      MovedCounted(w.clients, e.i, Outside);
      ReturnStepBalances(w, e);
    }
  }

  /** Every step of the machine keeps the invariant. */
  lemma StepKeepsInv(w: World, e: Event)
    requires Inv(w) && Enabled(w, e)
    ensures Inv(Apply(w, e))
  {
    if CloserEvent(e) {
      CloserKeepsInv(w, e);
    } else {
      ClientStepBalances(w, e);
      var w' := Apply(w, e);
      BalancedKeepsInv(w, e.i, w'.clients[e.i], w'.g, w'.created, w'.closedLog, w'.drift);
    }
  }

  /** The invariant holds after every run from a world it holds in. */
  lemma {:induction false} RunKeepsInv(w: World, es: seq<Event>)
    requires Inv(w) && Run(w, es).Some?
    ensures Inv(Run(w, es).value)
    decreases |es|
  {
    if es != [] {
      StepKeepsInv(w, es[0]);
      RunKeepsInv(Apply(w, es[0]), es[1..]);
    }
  }

  /** A client step touches its own client and leaves Close and the cap alone. */
  lemma ClientStepFrame(w: World, e: Event)
    requires Enabled(w, e) && !CloserEvent(e)
    ensures At(w, e.i) && |Apply(w, e).clients| == |w.clients|
    ensures Apply(w, e).clients == w.clients[e.i := Apply(w, e).clients[e.i]]
    ensures Apply(w, e).closer == w.closer && Apply(w, e).g.cap == w.g.cap && Apply(w, e).g.closed == w.g.closed
  {
  }

  lemma {:induction false} RunAppend(w: World, es: seq<Event>, fs: seq<Event>)
    requires Run(w, es).Some?
    ensures Run(w, es + fs) == Run(Run(w, es).value, fs)
    decreases |es|
  {
    if es == [] {
      assert es + fs == fs;
    } else {
      assert (es + fs)[0] == es[0] && (es + fs)[1..] == es[1..] + fs;
      RunAppend(Apply(w, es[0]), es[1..], fs);
    }
  }
}
