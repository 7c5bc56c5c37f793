/**
 The governor of the connection pool: the fields that `Pool` keeps under its
 mutex, together with the token channel, and what each critical section does to
 them.

 Every critical section appears twice. The functions say what it does to a
 value of `Gov`, and are what PoolProtocol interleaves; the methods of class
 `Pool` do the same in place, and each is proved to have exactly the effect of
 its function.
 */
module PoolGovernor {
  import opened Wrappers

  type ConnId = nat

  /** Clock readings and durations, in nanoseconds. */
  const SECOND := 1_000_000_000
  const CAPACITY_WINDOW := 10 * SECOND
  const GROW_QUIET := 30 * SECOND
  const GROW_STEP := 15 * SECOND

  /** `tokens` is how many values the token channel is holding; None is the zero time. */
  datatype Gov = Gov(
    cap: nat,
    tokens: nat,
    width: nat,
    debt: nat,
    open: int,
    idle: seq<ConnId>,
    closed: bool,
    lastOK: Option<int>,
    lastRefusal: Option<int>,
    lastGrow: Option<int>)

  /** How a lease ended: with no error, with the stream broken, or with any other error. */
  datatype Outcome = Clean | Broken | Failed

  function Min(a: nat, b: nat): nat { if a < b then a else b }

  function Fresh(cap: nat): Gov {
    Gov(cap, cap, cap, 0, 0, [], false, None, None, None)
  }

  predicate Since(last: Option<int>, now: int, quiet: int) {
    last.None? || now - last.value >= quiet
  }

  /** Whether a failed dial is read as the server's connection limit. */
  predicate JudgedFull(g: Gov, now: int) {
    !g.closed && g.lastOK.Some? && now - g.lastOK.value <= CAPACITY_WINDOW
  }

  function DialCounted(g: Gov, now: int): Gov {
    g.(open := g.open + 1, lastOK := Some(now))
  }

  function Discarded(g: Gov): Gov {
    g.(open := g.open - 1)
  }

  /** How many idle connections a trim takes off the stack. */
  function TrimCount(g: Gov): (k: nat)
    ensures k <= |g.idle|
  {
    if g.open > g.width then Min(g.open - g.width, |g.idle|) else 0
  }

  /** What a trim closes, most recently parked first. */
  function TrimClosing(g: Gov): seq<ConnId> {
    var n := |g.idle|;
    seq(TrimCount(g), i requires 0 <= i < TrimCount(g) => g.idle[n - 1 - i])
  }

  function Trimmed(g: Gov): Gov {
    var k := TrimCount(g);
    g.(idle := g.idle[..|g.idle| - k], open := g.open - k)
  }

  /** The width a refusal asks for: the connections that are demonstrably working, and never none. */
  function RefusalWidth(g: Gov): nat {
    if g.open > 1 then g.open else 1
  }

  /** The state after the debt and the width moved and the free tokens were taken, before the trim. */
  function Shrunk(g: Gov, now: int): Gov
    requires RefusalWidth(g) < g.width
  {
    var owed := g.debt + (g.width - RefusalWidth(g));
    var paid := Min(owed, g.tokens);
    g.(lastRefusal := Some(now), width := RefusalWidth(g), debt := owed - paid, tokens := g.tokens - paid)
  }

  /** The whole critical section of a failed dial: new state, whether it was a refusal, what to close. */
  function Refused(g: Gov, now: int): (Gov, bool, seq<ConnId>) {
    if !JudgedFull(g, now) then (g, false, [])
    else if RefusalWidth(g) >= g.width then (g.(lastRefusal := Some(now)), true, [])
    else
      var s := Shrunk(g, now);
      (Trimmed(s), true, TrimClosing(s))
  }

  /** Whether a connection coming home is closed instead of parked. */
  predicate PutDiscards(g: Gov, outcome: Outcome) {
    outcome.Broken? || g.closed || g.open > g.width
  }

  function Put(g: Gov, c: ConnId, outcome: Outcome, now: int): Gov {
    var g1 := if outcome.Clean? then g.(lastOK := Some(now)) else g;
    if PutDiscards(g, outcome) then g1.(open := g.open - 1) else g1.(idle := g.idle + [c])
  }

  predicate OwesToken(g: Gov) {
    !g.closed && g.debt > 0
  }

  function DebtPaid(g: Gov): Gov
    requires OwesToken(g)
  {
    g.(debt := g.debt - 1)
  }

  predicate MayGrow(g: Gov, now: int) {
    !g.closed && g.debt == 0 && g.width < g.cap &&
    Since(g.lastRefusal, now, GROW_QUIET) && Since(g.lastGrow, now, GROW_STEP)
  }

  function Grown(g: Gov, now: int): Gov {
    if MayGrow(g, now) then g.(width := g.width + 1, lastGrow := Some(now), tokens := g.tokens + 1) else g
  }

  /** A run of failed dials judged one after another, with nothing else happening in between. */
  function Burst(g: Gov, times: seq<int>): Gov
    decreases |times|
  {
    if times == [] then g else Burst(Refused(g, times[0]).0, times[1..])
  }

  /** The fields a refusal may touch, leaving out the note of when it was. */
  predicate SameCapacity(a: Gov, b: Gov) {
    a.(lastRefusal := None) == b.(lastRefusal := None)
  }

  /** A refusal sets the width no lower than the open count, so its trim never has anything to close. */
  lemma TrimClosesNothing(g: Gov, now: int)
    ensures Refused(g, now).2 == [] && Refused(g, now).0.idle == g.idle && Refused(g, now).0.open == g.open
  {
    if JudgedFull(g, now) && RefusalWidth(g) < g.width {
      assert TrimCount(Shrunk(g, now)) == 0;
      assert g.idle[..|g.idle|] == g.idle;
    }
  }

  /** After a refusal was judged, the width is the smaller of what it was and what is open. */
  lemma RefusedWidth(g: Gov, now: int)
    requires Refused(g, now).1
    ensures Refused(g, now).0.width ==
            if g.width <= g.open || g.width <= 1 then g.width else if g.open >= 1 then g.open else 1
  {
  }

  lemma BurstAfterOne(g: Gov, times: seq<int>)
    requires RefusalWidth(g) >= g.width
    ensures SameCapacity(Burst(g, times), g)
    decreases |times|
  {
    if times != [] {
      BurstAfterOne(Refused(g, times[0]).0, times[1..]);
    }
  }

  /** However many refusals arrive at once, capacity moves exactly as it does for the first that was judged one. */
  lemma BurstIsOneRefusal(g: Gov, times: seq<int>, k: nat)
    requires k < |times| && JudgedFull(g, times[k])
    requires forall j :: 0 <= j < k ==> !JudgedFull(g, times[j])
    ensures SameCapacity(Burst(g, times), Refused(g, times[k]).0)
    decreases |times|
  {
    if k > 0 {
      assert Refused(g, times[0]).0 == g;
      assert times[1..][k - 1] == times[k];
      BurstIsOneRefusal(g, times[1..], k - 1);
    } else {
      TrimClosesNothing(g, times[0]);
      BurstAfterOne(Refused(g, times[0]).0, times[1..]);
    }
  }

  class Pool {
    const cap: nat
    var tokens: nat
    var width: nat
    var debt: nat
    var open: int
    var idle: seq<ConnId>
    var closed: bool
    var lastOK: Option<int>
    var lastRefusal: Option<int>
    var lastGrow: Option<int>

    function View(): Gov
      reads this
    {
      Gov(cap, tokens, width, debt, open, idle, closed, lastOK, lastRefusal, lastGrow)
    }

    constructor (cap: nat)
      requires cap >= 1
      ensures View() == Fresh(cap)
    {
      this.cap := cap;
      tokens, width, debt, open := cap, cap, 0, 0;
      idle, closed := [], false;
      lastOK, lastRefusal, lastGrow := None, None, None;
    }

    /** A pool that could hold no connection at all is refused. */
    static method New(cap: int) returns (r: Option<Pool>)
      ensures r.None? <==> cap < 1
      ensures r.Some? ==> fresh(r.value) && r.value.View() == Fresh(cap)
    {
      if cap < 1 {
        return None;
      }
      var p := new Pool(cap);
      return Some(p);
    }

    method PopIdle() returns (c: Option<ConnId>)
      modifies this`idle
      ensures c.None? <==> old(idle) == []
      ensures old(idle) == idle + (if c.Some? then [c.value] else [])
    {
      var n := |idle|;
      if n > 0 {
        c := Some(idle[n - 1]);
        idle := idle[..n - 1];
      } else {
        c := None;
      }
    }

    method CountDial(now: int)
      modifies this`open, this`lastOK
      ensures View() == DialCounted(old(View()), now)
    {
      open := open + 1;
      lastOK := Some(now);
    }

    method Discard()
      modifies this`open
      ensures View() == Discarded(old(View()))
    {
      open := open - 1;
    }

    method TakeFreeToken() returns (ok: bool)
      modifies this`tokens
      ensures ok <==> old(tokens) > 0
      ensures tokens == if ok then old(tokens) - 1 else old(tokens)
    {
      ok := tokens > 0;
      if ok {
        tokens := tokens - 1;
      }
    }

    method TrimIdleLocked() returns (closing: seq<ConnId>)
      modifies this`idle, this`open
      ensures View() == Trimmed(old(View()))
      ensures closing == TrimClosing(old(View()))
      ensures |idle| + |closing| == |old(idle)| && idle == old(idle)[..|idle|] && open + |closing| == old(open)
      ensures forall i :: 0 <= i < |closing| ==> closing[i] == old(idle)[|old(idle)| - 1 - i]
      ensures (idle == [] || open <= width) && (closing != [] ==> open >= width)
    {
      ghost var g := View();
      var n0 := |idle|;
      closing := [];
      while open > width && |idle| > 0
        invariant |closing| <= TrimCount(g)
        invariant idle == g.idle[..n0 - |closing|]
        invariant open == g.open - |closing|
        invariant width == g.width
        invariant View() == g.(idle := idle, open := open)
        invariant forall i :: 0 <= i < |closing| ==> closing[i] == g.idle[n0 - 1 - i]
        decreases |idle|
      {
        var n := |idle| - 1;
        closing := closing + [idle[n]];
        idle := idle[..n];
        open := open - 1;
      }
    }

    method Refuse(now: int) returns (full: bool, closing: seq<ConnId>)
      modifies this
      ensures (View(), full, closing) == Refused(old(View()), now)
    {
      if closed || lastOK.None? || now - lastOK.value > CAPACITY_WINDOW {
        return false, [];
      }
      var to: nat := if open > 1 then open else 1;
      lastRefusal := Some(now);
      if to >= width {
        return true, [];
      }
      debt := debt + (width - to);
      width := to;
      ghost var before := View();
      var free := true;
      while debt > 0 && free
        invariant debt <= before.debt
        invariant tokens + (before.debt - debt) == before.tokens
        invariant View() == before.(tokens := tokens, debt := debt)
        invariant !free ==> tokens == 0
        decreases debt, free
      {
        free := TakeFreeToken();
        if free {
          debt := debt - 1;
        }
      }
      assert View() == Shrunk(old(View()), now);
      closing := TrimIdleLocked();
      full := true;
    }

    method PutSection(c: ConnId, outcome: Outcome, now: int) returns (discard: bool)
      modifies this`open, this`idle, this`lastOK
      ensures discard == PutDiscards(old(View()), outcome)
      ensures View() == Put(old(View()), c, outcome, now)
    {
      discard := outcome.Broken?;
      if outcome.Clean? {
        lastOK := Some(now);
      }
      if closed || open > width {
        discard := true;
      }
      if discard {
        open := open - 1;
      } else {
        idle := idle + [c];
      }
    }

    method PayDebt() returns (paid: bool)
      modifies this`debt
      ensures paid == OwesToken(old(View()))
      ensures View() == if paid then DebtPaid(old(View())) else old(View())
    {
      if closed || debt == 0 {
        return false;
      }
      debt := debt - 1;
      paid := true;
    }

    method Grow(now: int)
      modifies this`width, this`lastGrow, this`tokens
      ensures View() == Grown(old(View()), now)
    {
      if closed || debt > 0 || width >= cap {
        return;
      }
      if (lastRefusal.Some? && now - lastRefusal.value < GROW_QUIET) ||
         (lastGrow.Some? && now - lastGrow.value < GROW_STEP) {
        return;
      }
      width := width + 1;
      lastGrow := Some(now);
      tokens := tokens + 1;
    }

    /** The first half of Close; None when the pool was already closed. */
    method MarkClosed() returns (circulating: Option<nat>)
      modifies this`closed
      ensures closed
      ensures circulating == if old(closed) then None else Some(old(width + debt))
    {
      if closed {
        return None;
      }
      closed := true;
      circulating := Some(width + debt);
    }

    /** The second half of Close, once every token has been collected. */
    method TakeAllIdle() returns (taken: seq<ConnId>)
      modifies this`idle
      ensures taken == old(idle) && idle == []
    {
      taken := idle;
      idle := [];
    }
  }
}
