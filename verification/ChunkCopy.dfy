/**
 The counting of one folder: every message that was to be copied comes to
 exactly one end, the report's counts add up to the list, and the loop that
 replaces a broken connection and goes on where it stopped neither takes a
 message twice nor goes on for ever.
 */
module ChunkCopy {
  import opened Wrappers
  import StateStore

  type Uid = StateStore.Uid

  /** What became of a message that was to be copied. */
  datatype Fate = Vanished | Filtered | Adopted | Noted | Copied | Failed

  datatype Kind = Again | Slower | Skip | Stop | Renumbered

  /** How fetching one message ends when it ends well. */
  datatype Fetch = TookCopy | WasGone | Repeats | HandedOn

  /**
   One try at a message: it ends, or something breaks at it. `begun` is whether its row was written by then, so that
   it can be recorded as failed.
   */
  datatype Try = Ends(fetch: Fetch) | Breaks(kind: Kind, begun: bool)

  /** How an APPEND and its retries end; None is an error that ends the folder. */
  type Delivery = Option<bool>

  /**
   What the servers do while a folder is copied: the headers each chunk is answered with, how each try at a message
   goes, and whether its copy is taken.
   */
  datatype Servers = Servers(answers: seq<Uid> -> seq<Uid>, tries: Uid -> nat -> Try, accepts: Uid -> Delivery)

  datatype Entry = Entry(uid: Uid, fate: Fate)

  const COPY_CHUNK: nat := 50

  /* ---------- what becomes of a message, by what the servers do ---------- */

  predicate MayTryAgain(t: Try) {
    t.Breaks? && (t.kind.Again? || t.kind.Slower?)
  }

  /** A message is tried once, and again while all went wrong in a way that may pass and attempts are left. */
  ghost predicate TriedTo(tries: nat -> Try, attempts: nat, k: nat) {
    (k == 0 || k < attempts) && forall j :: 0 <= j < k ==> MayTryAgain(tries(j))
  }

  ghost predicate ReadAs(tries: nat -> Try, attempts: nat, fetch: Fetch) {
    exists k: nat :: TriedTo(tries, attempts, k) && tries(k) == Ends(fetch)
  }

  /** What breaks the last try, or breaks it for good, where the row to say so was begun. */
  predicate BreaksForGood(t: Try, last: bool) {
    t.Breaks? && t.begun && (t.kind.Skip? || (last && MayTryAgain(t)))
  }

  ghost predicate PassedOver(tries: nat -> Try, attempts: nat) {
    exists k: nat :: TriedTo(tries, attempts, k) && BreaksForGood(tries(k), k + 1 >= attempts)
  }

  /** Whether the reading gets past this message at all. */
  ghost predicate Readable(tries: nat -> Try, attempts: nat) {
    PassedOver(tries, attempts) || exists fetch :: ReadAs(tries, attempts, fetch)
  }

  /** The fate a message the server answered for, or did not, deserves. */
  ghost predicate Deserves(servers: Servers, answered: set<Uid>, wanted: set<Uid>, attempts: nat, u: Uid, fate: Fate) {
    var tries := servers.tries(u);
    match fate
    case Vanished => u !in answered || (u in wanted && ReadAs(tries, attempts, WasGone))
    case Filtered => u in answered && u !in wanted
    case Adopted => u in answered && u in wanted && ReadAs(tries, attempts, TookCopy)
    case Noted => u in answered && u in wanted && ReadAs(tries, attempts, Repeats)
    case Copied =>
      u in answered && u in wanted && ReadAs(tries, attempts, HandedOn) && servers.accepts(u) == Some(true)
    case Failed =>
      u in answered && u in wanted &&
      (PassedOver(tries, attempts) || (ReadAs(tries, attempts, HandedOn) && servers.accepts(u) == Some(false)))
  }

  lemma TriedBefore(tries: nat -> Try, attempts: nat, j: nat, k: nat)
    requires TriedTo(tries, attempts, j) && TriedTo(tries, attempts, k)
    ensures j < k ==> MayTryAgain(tries(j)) && j + 1 < attempts
    ensures k < j ==> MayTryAgain(tries(k)) && k + 1 < attempts
  {
  }

  /** Two tries a message is brought to are the same, if neither could be followed by another. */
  lemma EndsOnce(tries: nat -> Try, attempts: nat, j: nat, k: nat)
    requires TriedTo(tries, attempts, j) && (tries(j).Ends? || BreaksForGood(tries(j), j + 1 >= attempts))
    requires TriedTo(tries, attempts, k) && (tries(k).Ends? || BreaksForGood(tries(k), k + 1 >= attempts))
    ensures j == k
  {
    TriedBefore(tries, attempts, j, k);
  }

  /** No message is read two ways, or read and passed over. */
  lemma ReadsOneWay(tries: nat -> Try, attempts: nat)
    ensures forall f, g :: ReadAs(tries, attempts, f) && ReadAs(tries, attempts, g) ==> f == g
    ensures forall f :: ReadAs(tries, attempts, f) ==> !PassedOver(tries, attempts)
  {
    hide TriedTo, BreaksForGood;
    forall f, g | ReadAs(tries, attempts, f) && ReadAs(tries, attempts, g)
      ensures f == g
    {
      var j: nat :| TriedTo(tries, attempts, j) && tries(j) == Ends(f);
      var k: nat :| TriedTo(tries, attempts, k) && tries(k) == Ends(g);
      EndsOnce(tries, attempts, j, k);
    }
    forall f | ReadAs(tries, attempts, f)
      ensures !PassedOver(tries, attempts)
    {
      var j: nat :| TriedTo(tries, attempts, j) && tries(j) == Ends(f);
      if PassedOver(tries, attempts) {
        var k: nat :| TriedTo(tries, attempts, k) && BreaksForGood(tries(k), k + 1 >= attempts);
        EndsOnce(tries, attempts, j, k);
        EndsNeverBreaks(tries(k), k + 1 >= attempts);
      }
    }
  }

  lemma EndsNeverBreaks(t: Try, last: bool)
    ensures t.Ends? ==> !BreaksForGood(t, last)
  {
  }

  /** No message deserves two fates. */
  lemma OneFate(servers: Servers, answered: set<Uid>, wanted: set<Uid>, attempts: nat, u: Uid, f: Fate, g: Fate)
    requires Deserves(servers, answered, wanted, attempts, u, f) && Deserves(servers, answered, wanted, attempts, u, g)
    ensures f == g
  {
    ReadsOneWay(servers.tries(u), attempts);
    hide ReadAs, PassedOver;
  }

  /* ---------- the log ---------- */

  function Count(log: seq<Entry>, fate: Fate): nat {
    if log == [] then 0 else Count(log[..|log| - 1], fate) + if log[|log| - 1].fate == fate then 1 else 0
  }

  function LogUids(log: seq<Entry>): seq<Uid> {
    if log == [] then [] else LogUids(log[..|log| - 1]) + [log[|log| - 1].uid]
  }

  lemma LogOne(log: seq<Entry>, e: Entry)
    ensures LogUids(log + [e]) == LogUids(log) + [e.uid]
    ensures forall fate :: Count(log + [e], fate) == Count(log, fate) + if e.fate == fate then 1 else 0
  {
    assert (log + [e])[..|log|] == log;
  }

  /** Every entry is counted under one fate, and one only. */
  lemma {:induction false} CountsAddUp(log: seq<Entry>)
    ensures Count(log, Vanished) + Count(log, Filtered) + Count(log, Adopted) + Count(log, Noted) + Count(log, Copied) +
            Count(log, Failed) == |log|
    ensures |LogUids(log)| == |log|
  {
    if log != [] {
      CountsAddUp(log[..|log| - 1]);
    }
  }

  predicate NoneTwice(us: seq<Uid>) {
    forall i, j :: 0 <= i < j < |us| ==> us[i] != us[j]
  }

  lemma {:induction false} OnceEach(us: seq<Uid>)
    requires NoneTwice(us)
    ensures forall u :: multiset(us)[u] == if u in us then 1 else 0
  {
    if us != [] {
      var n := |us| - 1;
      OnceEach(us[..n]);
      assert us == us[..n] + [us[n]];
      assert multiset(us) == multiset(us[..n]) + multiset{us[n]};
    }
  }

  lemma SameOnce(a: seq<Uid>, b: seq<Uid>)
    requires NoneTwice(a) && NoneTwice(b) && forall u :: u in a <==> u in b
    ensures multiset(a) == multiset(b)
  {
    OnceEach(a);
    OnceEach(b);
  }

  /* ---------- adding up ---------- */

  /** An element added on both sides of a balance, to either part of the left one. */
  lemma OneMore(s: multiset<Uid>, k: multiset<Uid>, t: multiset<Uid>, p: multiset<Uid>, u: Uid)
    requires s + k == t + p
    ensures s + multiset{u} + k == t + (p + multiset{u})
    ensures s + (k + multiset{u}) == t + (p + multiset{u})
  {
    assert s + multiset{u} + k == (s + k) + multiset{u};
    assert s + (k + multiset{u}) == (s + k) + multiset{u};
  }

  /** A part of what was left over has been settled or handed on. */
  lemma PartSettled(s: multiset<Uid>, q: multiset<Uid>, left: multiset<Uid>, all: multiset<Uid>,
                    s': multiset<Uid>, more: multiset<Uid>, part: multiset<Uid>, rest: multiset<Uid>)
    requires s + q + left == all && left == part + rest && s' + more == s + part
    ensures s' + (q + more) + rest == all
  {
    calc {
      s' + (q + more) + rest;
      (s' + more) + q + rest;
      (s + part) + q + rest;
      s + q + (part + rest);
    }
  }

  lemma PartIsLess(s: multiset<Uid>, q: multiset<Uid>, rest: multiset<Uid>, all: multiset<Uid>)
    requires s + q + rest == all
    ensures s + q <= all && s <= all
  {
  }

  lemma PlusOne(s: multiset<Uid>, us: seq<Uid>, u: Uid)
    ensures s + multiset(us) + multiset{u} == s + multiset(us + [u])
  {
    assert multiset(us + [u]) == multiset(us) + multiset{u};
  }

  /** One element more of a prefix. */
  lemma PrefixGrows(us: seq<Uid>, i: nat)
    requires i < |us|
    ensures us[..i + 1] == us[..i] + [us[i]]
    ensures multiset(us[..i + 1]) == multiset(us[..i]) + multiset{us[i]}
  {
    assert us[..i + 1] == us[..i] + [us[i]];
  }

  /** A list is a prefix and the rest. */
  lemma Cut(us: seq<Uid>, i: nat)
    requires i <= |us|
    ensures multiset(us[..i]) + multiset(us[i..]) == multiset(us)
  {
    assert us == us[..i] + us[i..];
  }

  lemma Whole(us: seq<Uid>)
    ensures us[..|us|] == us && us[|us|..] == []
  {
  }

  lemma NoneTwiceSnoc(us: seq<Uid>, u: Uid)
    ensures NoneTwice(us + [u]) <==> NoneTwice(us) && u !in us
  {
    var vs := us + [u];
    assert forall i :: 0 <= i < |us| ==> vs[i] == us[i];
    assert vs[|us|] == u;
    forall i | 0 <= i < |us| && NoneTwice(vs)
      ensures us[i] != u
    {
      assert vs[i] != vs[|us|];
    }
  }

  function Among(us: seq<Uid>, keep: set<Uid>): seq<Uid> {
    if us == [] then []
    else Among(us[..|us| - 1], keep) + if us[|us| - 1] in keep then [us[|us| - 1]] else []
  }

  function Missing(us: seq<Uid>, keep: set<Uid>): seq<Uid> {
    if us == [] then []
    else Missing(us[..|us| - 1], keep) + if us[|us| - 1] in keep then [] else [us[|us| - 1]]
  }

  lemma AmongOne(us: seq<Uid>, u: Uid, keep: set<Uid>)
    ensures Among(us + [u], keep) == if u in keep then Among(us, keep) + [u] else Among(us, keep)
    ensures Missing(us + [u], keep) == if u in keep then Missing(us, keep) else Missing(us, keep) + [u]
  {
    assert (us + [u])[..|us|] == us;
    assert Among(us, keep) + [] == Among(us, keep) && Missing(us, keep) + [] == Missing(us, keep);
  }

  /** A list falls into what is kept and what is missing. */
  lemma {:induction false} Parted(us: seq<Uid>, keep: set<Uid>)
    ensures multiset(Among(us, keep)) + multiset(Missing(us, keep)) == multiset(us)
    ensures forall u :: u in Among(us, keep) <==> u in us && u in keep
    ensures NoneTwice(us) ==> NoneTwice(Among(us, keep))
  {
    if us != [] {
      hide Among, Missing, NoneTwice;
      var vs, u := us[..|us| - 1], us[|us| - 1];
      assert us == vs + [u];
      Parted(vs, keep);
      AmongOne(vs, u, keep);
      NoneTwiceSnoc(vs, u);
      NoneTwiceSnoc(Among(vs, keep), u);
    }
  }

  /** What the server said nothing about, and what it answered, are together what it was asked. */
  lemma MissingIsTheRest(chunk: seq<Uid>, answer: seq<Uid>)
    requires NoneTwice(chunk) && NoneTwice(answer) && forall u :: u in answer ==> u in chunk
    ensures multiset(answer) + multiset(Missing(chunk, Set(answer))) == multiset(chunk)
    ensures |answer| == |chunk| ==> Missing(chunk, Set(answer)) == []
  {
    Parted(chunk, Set(answer));
    SameOnce(answer, Among(chunk, Set(answer)));
    assert |multiset(chunk)| == |multiset(answer)| + |multiset(Missing(chunk, Set(answer)))|;
  }

  function Set(us: seq<Uid>): (s: set<Uid>)
    ensures forall u :: u in s <==> u in us
  {
    set u | u in us
  }

  /** The report of a folder and, beside it, the log of every end a message came to. */
  class Live {
    var vanished: nat
    var filtered: nat
    var adopted: nat
    var noted: nat
    var copied: nat
    var failed: nat
    ghost var log: seq<Entry>

    constructor ()
      ensures Valid() && log == []
    {
      vanished, filtered, adopted, noted, copied, failed := 0, 0, 0, 0, 0, 0;
      log := [];
    }

    ghost predicate Valid()
      reads this
    {
      vanished == Count(log, Vanished) && filtered == Count(log, Filtered) && adopted == Count(log, Adopted) &&
      noted == Count(log, Noted) && copied == Count(log, Copied) && failed == Count(log, Failed)
    }

    ghost function Settled(): multiset<Uid>
      reads this
    {
      multiset(LogUids(log))
    }

    method Add(u: Uid, fate: Fate)
      requires Valid()
      modifies this
      ensures Valid() && log == old(log) + [Entry(u, fate)] && Settled() == old(Settled()) + multiset{u}
    {
      LogOne(log, Entry(u, fate));
      match fate {
        case Vanished => vanished := vanished + 1;
        case Filtered => filtered := filtered + 1;
        case Adopted => adopted := adopted + 1;
        case Noted => noted := noted + 1;
        case Copied => copied := copied + 1;
        case Failed => failed := failed + 1;
      }
      log := log + [Entry(u, fate)];
    }
  }

  /** Every end noted so far is the one the message deserves. */
  ghost predicate AllDeserved(servers: Servers, answered: set<Uid>, wanted: set<Uid>, attempts: nat, log: seq<Entry>) {
    forall e :: e in log ==> Deserves(servers, answered, wanted, attempts, e.uid, e.fate)
  }

  lemma DeservedOne(servers: Servers, answered: set<Uid>, wanted: set<Uid>, attempts: nat, log: seq<Entry>, u: Uid,
      fate: Fate)
    requires AllDeserved(servers, answered, wanted, attempts, log)
    requires Deserves(servers, answered, wanted, attempts, u, fate)
    ensures AllDeserved(servers, answered, wanted, attempts, log + [Entry(u, fate)])
  {
    hide Deserves;
  }

  lemma MissingDeserves(servers: Servers, answered: set<Uid>, wanted: set<Uid>, attempts: nat, u: Uid)
    requires u !in answered
    ensures Deserves(servers, answered, wanted, attempts, u, Vanished)
  {
  }

  method RecordMissing(chunk: seq<Uid>, got: set<Uid>, ghost servers: Servers, ghost answered: set<Uid>,
      ghost wanted: set<Uid>, ghost attempts: nat, lv: Live)
    requires lv.Valid() && AllDeserved(servers, answered, wanted, attempts, lv.log)
    requires forall u :: u in chunk ==> (u in answered <==> u in got)
    modifies lv
    ensures lv.Valid() && lv.Settled() == old(lv.Settled()) + multiset(Missing(chunk, got))
    ensures AllDeserved(servers, answered, wanted, attempts, lv.log)
  {
    hide *;
    NoneMissing(got);
    for i := 0 to |chunk|
      invariant lv.Valid() && lv.Settled() == old(lv.Settled()) + multiset(Missing(chunk[..i], got))
      invariant AllDeserved(servers, answered, wanted, attempts, lv.log)
    {
      AmongOne(chunk[..i], chunk[i], got);
      PrefixGrows(chunk, i);
      PlusOne(old(lv.Settled()), Missing(chunk[..i], got), chunk[i]);
      if chunk[i] !in got {
        MissingDeserves(servers, answered, wanted, attempts, chunk[i]);
        DeservedOne(servers, answered, wanted, attempts, lv.log, chunk[i], Vanished);
        lv.Add(chunk[i], Vanished);
      }
    }
    Whole(chunk);
  }

  /** Records the messages of a chunk the server had nothing for. */
  method MarkGone(chunk: seq<Uid>, answer: seq<Uid>, ghost servers: Servers, ghost answered: set<Uid>,
      ghost wanted: set<Uid>, ghost attempts: nat, lv: Live)
    requires lv.Valid() && AllDeserved(servers, answered, wanted, attempts, lv.log)
    requires NoneTwice(chunk) && NoneTwice(answer) && forall u :: u in answer ==> u in chunk
    requires forall u :: u in chunk ==> (u in answered <==> u in answer)
    modifies lv
    ensures lv.Valid() && lv.Settled() + multiset(answer) == old(lv.Settled()) + multiset(chunk)
    ensures AllDeserved(servers, answered, wanted, attempts, lv.log)
  {
    MissingIsTheRest(chunk, answer);
    hide *;
    GoneAdded(lv.Settled(), multiset(Missing(chunk, Set(answer))), multiset(answer));
    if |answer| == |chunk| {
      return;
    }
    RecordMissing(chunk, Set(answer), servers, answered, wanted, attempts, lv);
  }

  lemma GoneAdded(s: multiset<Uid>, missing: multiset<Uid>, answer: multiset<Uid>)
    ensures (s + missing) + answer == s + (answer + missing)
  {
  }

  lemma NoneMissing(keep: set<Uid>)
    ensures Missing([], keep) == [] && Among([], keep) == []
  {
  }

  /** Leaves out the messages the filter does not want. */
  method Selected(answer: seq<Uid>, ghost servers: Servers, ghost answered: set<Uid>, wanted: set<Uid>,
      ghost attempts: nat, lv: Live) returns (kept: seq<Uid>)
    requires lv.Valid() && AllDeserved(servers, answered, wanted, attempts, lv.log)
    requires forall u :: u in answer ==> u in answered
    modifies lv
    ensures lv.Valid() && lv.Settled() + multiset(kept) == old(lv.Settled()) + multiset(answer)
    ensures kept == Among(answer, wanted)
    ensures AllDeserved(servers, answered, wanted, attempts, lv.log)
  {
    assert forall u :: u in answered && u !in wanted ==> Deserves(servers, answered, wanted, attempts, u, Filtered);
    hide LogUids, Count, Among, Missing, AllDeserved, Deserves;
    NoneMissing(wanted);
    kept := [];
    for i := 0 to |answer|
      invariant lv.Valid() && lv.Settled() + multiset(kept) == old(lv.Settled()) + multiset(answer[..i])
      invariant kept == Among(answer[..i], wanted)
      invariant AllDeserved(servers, answered, wanted, attempts, lv.log)
    {
      AmongOne(answer[..i], answer[i], wanted);
      PrefixGrows(answer, i);
      OneMore(lv.Settled(), multiset(kept), old(lv.Settled()), multiset(answer[..i]), answer[i]);
      if answer[i] in wanted {
        kept := kept + [answer[i]];
      } else {
        DeservedOne(servers, answered, wanted, attempts, lv.log, answer[i], Filtered);
        lv.Add(answer[i], Filtered);
      }
    }
    Whole(answer);
  }

  /** The server answered for all of these, and the filter wants them. */
  predicate ToRead(us: seq<Uid>, answered: set<Uid>, wanted: set<Uid>) {
    forall u :: u in us ==> u in answered && u in wanted
  }

  /** What was handed on to be appended was read to that end. */
  ghost predicate AllHandedOn(us: seq<Uid>, servers: Servers, answered: set<Uid>, wanted: set<Uid>, attempts: nat) {
    forall u :: u in us ==> u in answered && u in wanted && ReadAs(servers.tries(u), attempts, HandedOn)
  }

  ghost predicate AllReadable(us: seq<Uid>, servers: Servers, attempts: nat) {
    forall u :: u in us ==> Readable(servers.tries(u), attempts)
  }

  lemma EndsReadable(tries: nat -> Try, attempts: nat, k: nat)
    requires TriedTo(tries, attempts, k) && tries(k).Ends?
    ensures ReadAs(tries, attempts, tries(k).fetch) && Readable(tries, attempts)
  {
  }

  lemma TriedOnce(tries: nat -> Try, attempts: nat)
    ensures TriedTo(tries, attempts, 0)
  {
  }

  /**
   One connection's run over what is left: it goes on message by message until one breaks it, and the message that
   stopped it is the one after those it reports. The first may have been tried before.
   */
  method FetchRun(metas: seq<Uid>, attempt: nat, servers: Servers, ghost answered: set<Uid>, ghost wanted: set<Uid>,
      ghost attempts: nat, lv: Live) returns (n: nat, stop: Option<Kind>, begun: bool, queued: seq<Uid>)
    requires lv.Valid() && AllDeserved(servers, answered, wanted, attempts, lv.log)
    requires metas != [] && ToRead(metas, answered, wanted) && TriedTo(servers.tries(metas[0]), attempts, attempt)
    modifies lv
    ensures lv.Valid() && n <= |metas| && (stop.None? ==> n == |metas|)
    ensures stop.Some? ==>
              n < |metas| && servers.tries(metas[n])(if n == 0 then attempt else 0) == Breaks(stop.value, begun)
    ensures lv.Settled() + multiset(queued) == old(lv.Settled()) + multiset(metas[..n])
    ensures AllDeserved(servers, answered, wanted, attempts, lv.log)
    ensures AllHandedOn(queued, servers, answered, wanted, attempts) && AllReadable(metas[..n], servers, attempts)
  {
    hide LogUids, Count, AllDeserved, ReadAs, Readable, TriedTo;
    queued := [];
    n := 0;
    while n < |metas|
      invariant n <= |metas|
      invariant lv.Valid() && lv.Settled() + multiset(queued) == old(lv.Settled()) + multiset(metas[..n])
      invariant AllDeserved(servers, answered, wanted, attempts, lv.log)
      invariant AllHandedOn(queued, servers, answered, wanted, attempts) && AllReadable(metas[..n], servers, attempts)
    {
      var u, k := metas[n], if n == 0 then attempt else 0;
      match servers.tries(u)(k) {
        case Breaks(kind, wasBegun) =>
          return n, Some(kind), wasBegun, queued;
        case Ends(fetch) =>
          PrefixGrows(metas, n);
          OneMore(lv.Settled(), multiset(queued), old(lv.Settled()), multiset(metas[..n]), u);
          TriedOnce(servers.tries(u), attempts);
          EndsReadable(servers.tries(u), attempts, k);
          match fetch {
            case TookCopy =>
              DeservedOne(servers, answered, wanted, attempts, lv.log, u, Adopted);
              lv.Add(u, Adopted);
            case WasGone =>
              DeservedOne(servers, answered, wanted, attempts, lv.log, u, Vanished);
              lv.Add(u, Vanished);
            case Repeats =>
              DeservedOne(servers, answered, wanted, attempts, lv.log, u, Noted);
              lv.Add(u, Noted);
            case HandedOn =>
              queued := queued + [u];
          }
          n := n + 1;
      }
    }
    stop, begun := None, false;
  }

  /** What is settled, what is handed on and what is left of the list are together `all`. */
  ghost predicate Balance(s: multiset<Uid>, q: seq<Uid>, us: seq<Uid>, done: nat, all: multiset<Uid>) {
    done <= |us| && s + multiset(q) + multiset(us[done..]) == all
  }

  lemma BalanceStarts(s: multiset<Uid>, us: seq<Uid>)
    ensures Balance(s, [], us, 0, s + multiset(us))
  {
    assert us[0..] == us;
  }

  lemma BalanceAfterRun(s: multiset<Uid>, q: seq<Uid>, us: seq<Uid>, done: nat, n: nat, s': multiset<Uid>,
      more: seq<Uid>, all: multiset<Uid>)
    requires Balance(s, q, us, done, all) && n <= |us| - done && s' + multiset(more) == s + multiset(us[done..][..n])
    ensures Balance(s', q + more, us, done + n, all)
  {
    Cut(us[done..], n);
    assert us[done..][n..] == us[done + n..];
    PartSettled(s, multiset(q), multiset(us[done..]), all, s', multiset(more), multiset(us[done..][..n]),
      multiset(us[done + n..]));
  }

  lemma BalancePassedOver(s: multiset<Uid>, q: seq<Uid>, us: seq<Uid>, done: nat, all: multiset<Uid>)
    requires Balance(s, q, us, done, all) && done < |us|
    ensures Balance(s + multiset{us[done]}, q, us, done + 1, all)
  {
    assert us[done..] == [us[done]] + us[done + 1..];
    assert (s + multiset{us[done]}) + multiset(q) + multiset(us[done + 1..]) == s + multiset(q) + multiset(us[done..]);
  }

  lemma BalanceMeans(s: multiset<Uid>, q: seq<Uid>, us: seq<Uid>, done: nat, all: multiset<Uid>)
    requires Balance(s, q, us, done, all)
    ensures done <= |us| && s + multiset(q) <= all && (done == |us| ==> s + multiset(q) == all)
  {
    PartIsLess(s, multiset(q), multiset(us[done..]), all);
  }

  lemma ToReadSplit(us: seq<Uid>, done: nat, answered: set<Uid>, wanted: set<Uid>)
    requires ToRead(us, answered, wanted) && done <= |us|
    ensures ToRead(us[done..], answered, wanted)
  {
  }

  lemma ReadableJoin(us: seq<Uid>, done: nat, n: nat, servers: Servers, attempts: nat)
    requires n <= |us| - done && AllReadable(us[..done], servers, attempts)
    requires AllReadable(us[done..][..n], servers, attempts)
    ensures AllReadable(us[..done + n], servers, attempts)
  {
    assert us[..done + n] == us[..done] + us[done..][..n];
    hide Readable;
  }

  lemma ReadableOneMore(us: seq<Uid>, done: nat, servers: Servers, attempts: nat)
    requires done < |us| && AllReadable(us[..done], servers, attempts) && Readable(servers.tries(us[done]), attempts)
    ensures AllReadable(us[..done + 1], servers, attempts)
  {
    assert us[..done + 1] == us[..done] + [us[done]];
    hide Readable;
  }

  lemma HandedOnJoin(us: seq<Uid>, vs: seq<Uid>, servers: Servers, answered: set<Uid>, wanted: set<Uid>, attempts: nat)
    requires AllHandedOn(us, servers, answered, wanted, attempts)
    requires AllHandedOn(vs, servers, answered, wanted, attempts)
    ensures AllHandedOn(us + vs, servers, answered, wanted, attempts)
  {
    hide ReadAs;
  }

  /** A message stopped at with no try to follow is got past exactly when it breaks for good there. */
  lemma BrokenIsPassedOverIff(tries: nat -> Try, attempts: nat, k: nat)
    requires TriedTo(tries, attempts, k) && tries(k).Breaks? && !(MayTryAgain(tries(k)) && k + 1 < attempts)
    ensures PassedOver(tries, attempts) <==> BreaksForGood(tries(k), k + 1 >= attempts)
    ensures Readable(tries, attempts) <==> PassedOver(tries, attempts)
  {
    forall j: nat | TriedTo(tries, attempts, j)
      ensures j == k || (j < k && tries(j).Breaks? && !BreaksForGood(tries(j), j + 1 >= attempts))
    {
      TriedBefore(tries, attempts, j, k);
    }
    hide TriedTo, BreaksForGood;
    forall fetch
      ensures !ReadAs(tries, attempts, fetch)
    {
      assert forall j: nat :: TriedTo(tries, attempts, j) ==> tries(j) != Ends(fetch);
    }
  }

  /** What a break leads to, in the terms of the loop. */
  lemma BreakMeans(tries: nat -> Try, attempts: nat, k: nat, kind: Kind, begun: bool)
    requires TriedTo(tries, attempts, k) && tries(k) == Breaks(kind, begun)
    ensures (kind == Again || kind == Slower) && k + 1 < attempts ==> TriedTo(tries, attempts, k + 1)
    ensures !((kind == Again || kind == Slower) && k + 1 < attempts) ==>
              (Readable(tries, attempts) <==> begun && kind != Stop && kind != Renumbered) &&
              (Readable(tries, attempts) <==> PassedOver(tries, attempts))
  {
    hide ReadAs, PassedOver, Readable;
    if !((kind == Again || kind == Slower) && k + 1 < attempts) {
      BrokenIsPassedOverIff(tries, attempts, k);
    }
  }

  /** How far the reading of a list has got: all of it up to here is settled or handed on, as it deserves. */
  ghost predicate Progress(servers: Servers, answered: set<Uid>, wanted: set<Uid>, attempts: nat, us: seq<Uid>,
      done: nat, queued: seq<Uid>, log: seq<Entry>, settled: multiset<Uid>, all: multiset<Uid>) {
    done <= |us| && Balance(settled, queued, us, done, all) && AllDeserved(servers, answered, wanted, attempts, log) &&
    AllHandedOn(queued, servers, answered, wanted, attempts) && AllReadable(us[..done], servers, attempts)
  }

  lemma ProgressStarts(servers: Servers, answered: set<Uid>, wanted: set<Uid>, attempts: nat, us: seq<Uid>,
      log: seq<Entry>, settled: multiset<Uid>)
    requires AllDeserved(servers, answered, wanted, attempts, log)
    ensures Progress(servers, answered, wanted, attempts, us, 0, [], log, settled, settled + multiset(us))
  {
    BalanceStarts(settled, us);
    hide Balance, AllDeserved, ReadAs, Readable;
  }

  lemma ProgressAfterRun(servers: Servers, answered: set<Uid>, wanted: set<Uid>, attempts: nat, us: seq<Uid>,
      done: nat, queued: seq<Uid>, log: seq<Entry>, settled: multiset<Uid>, all: multiset<Uid>,
      n: nat, more: seq<Uid>, log': seq<Entry>, settled': multiset<Uid>)
    requires Progress(servers, answered, wanted, attempts, us, done, queued, log, settled, all)
    requires n <= |us| - done && settled' + multiset(more) == settled + multiset(us[done..][..n])
    requires AllDeserved(servers, answered, wanted, attempts, log')
    requires AllHandedOn(more, servers, answered, wanted, attempts)
    requires AllReadable(us[done..][..n], servers, attempts)
    ensures Progress(servers, answered, wanted, attempts, us, done + n, queued + more, log', settled', all)
  {
    hide Balance, AllDeserved, AllHandedOn, AllReadable;
    BalanceAfterRun(settled, queued, us, done, n, settled', more, all);
    ReadableJoin(us, done, n, servers, attempts);
    HandedOnJoin(queued, more, servers, answered, wanted, attempts);
  }

  lemma ProgressPassedOver(servers: Servers, answered: set<Uid>, wanted: set<Uid>, attempts: nat, us: seq<Uid>,
      done: nat, queued: seq<Uid>, log: seq<Entry>, settled: multiset<Uid>, all: multiset<Uid>)
    requires Progress(servers, answered, wanted, attempts, us, done, queued, log, settled, all)
    requires done < |us| && ToRead(us, answered, wanted) && PassedOver(servers.tries(us[done]), attempts)
    ensures Progress(servers, answered, wanted, attempts, us, done + 1, queued, log + [Entry(us[done], Failed)],
              settled + multiset{us[done]}, all)
  {
    hide Balance, AllDeserved, AllHandedOn, AllReadable, PassedOver, ReadAs;
    BalancePassedOver(settled, queued, us, done, all);
    ReadableOneMore(us, done, servers, attempts);
    DeservedOne(servers, answered, wanted, attempts, log, us[done], Failed);
  }

  lemma ProgressMeans(servers: Servers, answered: set<Uid>, wanted: set<Uid>, attempts: nat, us: seq<Uid>,
      done: nat, queued: seq<Uid>, log: seq<Entry>, settled: multiset<Uid>, all: multiset<Uid>)
    requires Progress(servers, answered, wanted, attempts, us, done, queued, log, settled, all)
    ensures AllDeserved(servers, answered, wanted, attempts, log)
    ensures AllHandedOn(queued, servers, answered, wanted, attempts)
    ensures settled + multiset(queued) <= all
    ensures done == |us| ==> settled + multiset(queued) == all && AllReadable(us, servers, attempts)
    ensures done < |us| && !Readable(servers.tries(us[done]), attempts) ==> !AllReadable(us, servers, attempts)
  {
    hide Balance, AllDeserved, AllHandedOn, Readable;
    BalanceMeans(settled, queued, us, done, all);
    Whole(us);
  }

  /**
   Reads the messages of a chunk that are wanted. A broken connection is
   replaced, and the reading resumes at the message that failed; a message that
   fails too often, or in a way no attempt could mend, is recorded and passed over.
   One that was never begun has no row to record that in, and ends the chunk.
   */
  method FetchAll(metas: seq<Uid>, attempts: nat, servers: Servers, ghost answered: set<Uid>, ghost wanted: set<Uid>,
      lv: Live) returns (ok: bool, queued: seq<Uid>)
    requires lv.Valid() && AllDeserved(servers, answered, wanted, attempts, lv.log) && ToRead(metas, answered, wanted)
    modifies lv
    ensures lv.Valid() && lv.Settled() + multiset(queued) <= old(lv.Settled()) + multiset(metas)
    ensures ok ==> lv.Settled() + multiset(queued) == old(lv.Settled()) + multiset(metas)
    ensures AllDeserved(servers, answered, wanted, attempts, lv.log)
    ensures AllHandedOn(queued, servers, answered, wanted, attempts)
    ensures ok <==> AllReadable(metas, servers, attempts)
  {
    hide *;
    queued := [];
    var attempt, done := 0, 0;
    ghost var all := lv.Settled() + multiset(metas);
    ProgressStarts(servers, answered, wanted, attempts, metas, lv.log, lv.Settled());
    while done < |metas|
      invariant done <= |metas| && lv.Valid()
      invariant Progress(servers, answered, wanted, attempts, metas, done, queued, lv.log, lv.Settled(), all)
      invariant done < |metas| ==> attempt == 0 || TriedTo(servers.tries(metas[done]), attempts, attempt)
      decreases |metas| - done, if attempts > attempt then attempts - attempt else 0
    {
      ghost var log, settled := lv.log, lv.Settled();
      ProgressMeans(servers, answered, wanted, attempts, metas, done, queued, log, settled, all);
      ToReadSplit(metas, done, answered, wanted);
      TriedOnce(servers.tries(metas[done]), attempts);
      var n, stop, begun, more := FetchRun(metas[done..], attempt, servers, answered, wanted, attempts, lv);
      ProgressAfterRun(servers, answered, wanted, attempts, metas, done, queued, log, settled, all, n, more, lv.log,
        lv.Settled());
      done, queued := done + n, queued + more;
      ProgressMeans(servers, answered, wanted, attempts, metas, done, queued, lv.log, lv.Settled(), all);
      if n > 0 {
        attempt := 0;
      }
      if stop.None? {
        continue;
      }
      ghost var tries := servers.tries(metas[done]);
      TriedOnce(tries, attempts);
      BreakMeans(tries, attempts, attempt, stop.value, begun);
      if stop == Some(Renumbered) || stop == Some(Stop) {
        return false, queued;
      }
      if (stop == Some(Again) || stop == Some(Slower)) && attempt + 1 < attempts {
        attempt := attempt + 1;
        continue;
      }
      if !begun {
        return false, queued;
      }
      ProgressPassedOver(servers, answered, wanted, attempts, metas, done, queued, lv.log, lv.Settled(), all);
      lv.Add(metas[done], Failed);
      done, attempt := done + 1, 0;
    }
    ProgressMeans(servers, answered, wanted, attempts, metas, done, queued, lv.log, lv.Settled(), all);
    ok := true;
  }

  /** Every message of these that is to be read can be. */
  ghost predicate AllCanBeRead(us: seq<Uid>, servers: Servers, answered: set<Uid>, wanted: set<Uid>, attempts: nat) {
    forall u :: u in us && u in answered && u in wanted ==> Readable(servers.tries(u), attempts)
  }

  /**
   Reads one chunk, on as many connections as it takes. When it succeeds, every
   message of the chunk has ended or been handed on, once; when it does not, none has
   twice. It succeeds exactly when each message the server answered for and the
   filter wants can be got past.
   */
  method FetchChunk(chunk: seq<Uid>, answer: seq<Uid>, wanted: set<Uid>, attempts: nat, servers: Servers,
      ghost answered: set<Uid>, lv: Live) returns (ok: bool, queued: seq<Uid>)
    requires lv.Valid() && AllDeserved(servers, answered, wanted, attempts, lv.log)
    requires NoneTwice(chunk) && NoneTwice(answer) && forall u :: u in answer ==> u in chunk
    requires forall u :: u in chunk ==> (u in answered <==> u in answer)
    modifies lv
    ensures lv.Valid() && lv.Settled() + multiset(queued) <= old(lv.Settled()) + multiset(chunk)
    ensures ok ==> lv.Settled() + multiset(queued) == old(lv.Settled()) + multiset(chunk)
    ensures AllDeserved(servers, answered, wanted, attempts, lv.log)
    ensures AllHandedOn(queued, servers, answered, wanted, attempts)
    ensures ok <==> AllCanBeRead(chunk, servers, answered, wanted, attempts)
  {
    hide LogUids, Count, Among, NoneTwice, AllDeserved, AllHandedOn, Readable;
    MarkGone(chunk, answer, servers, answered, wanted, attempts, lv);
    var metas := Selected(answer, servers, answered, wanted, attempts, lv);
    Parted(answer, wanted);
    ok, queued := FetchAll(metas, attempts, servers, answered, wanted, lv);
  }

  /**
   Everything handed on is appended or recorded as failed, unless the folder is abandoned: at the first message
   whose end is an error.
   */
  method DeliverAll(pending: seq<Uid>, servers: Servers, ghost answered: set<Uid>, ghost wanted: set<Uid>,
      ghost attempts: nat, lv: Live) returns (ok: bool)
    requires lv.Valid() && AllDeserved(servers, answered, wanted, attempts, lv.log)
    requires AllHandedOn(pending, servers, answered, wanted, attempts)
    modifies lv
    ensures lv.Valid() && lv.Settled() <= old(lv.Settled()) + multiset(pending)
    ensures ok ==> lv.Settled() == old(lv.Settled()) + multiset(pending)
    ensures AllDeserved(servers, answered, wanted, attempts, lv.log)
    ensures ok <==> forall u :: u in pending ==> servers.accepts(u).Some?
  {
    hide LogUids, Count, AllDeserved, ReadAs, PassedOver;
    for i := 0 to |pending|
      invariant lv.Valid() && lv.Settled() == old(lv.Settled()) + multiset(pending[..i])
      invariant AllDeserved(servers, answered, wanted, attempts, lv.log)
      invariant forall j :: 0 <= j < i ==> servers.accepts(pending[j]).Some?
    {
      PrefixGrows(pending, i);
      PlusOne(old(lv.Settled()), pending[..i], pending[i]);
      Cut(pending, i);
      var d := servers.accepts(pending[i]);
      if d.None? {
        return false;
      }
      DeservedOne(servers, answered, wanted, attempts, lv.log, pending[i], if d.value then Copied else Failed);
      lv.Add(pending[i], if d.value then Copied else Failed);
    }
    Whole(pending);
    ok := true;
  }

  /** Headers come back for messages that were asked for, each once. */
  ghost predicate AnswersTo(servers: Servers) {
    forall chunk :: NoneTwice(chunk) ==>
      NoneTwice(servers.answers(chunk)) && forall u :: u in servers.answers(chunk) ==> u in chunk
  }

  lemma AnswerFits(servers: Servers, chunk: seq<Uid>)
    requires AnswersTo(servers) && NoneTwice(chunk)
    ensures NoneTwice(servers.answers(chunk)) && forall u :: u in servers.answers(chunk) ==> u in chunk
  {
  }

  /** The headers are asked for fifty messages at a time. */
  function ChunkAt(todo: seq<Uid>, k: nat): seq<Uid> {
    if 50 * k >= |todo| then []
    else if 50 * k + 50 < |todo| then todo[50 * k..50 * k + 50]
    else todo[50 * k..]
  }

  /** The messages whose headers the server gave when asked for their chunk. */
  ghost function Answered(servers: Servers, todo: seq<Uid>): set<Uid> {
    set u | u in todo && exists k: nat :: u in ChunkAt(todo, k) && u in servers.answers(ChunkAt(todo, k))
  }

  /** A chunk is a stretch of the list, and no message is in two. */
  lemma ChunksApart(todo: seq<Uid>, j: nat, k: nat, u: Uid)
    requires NoneTwice(todo) && u in ChunkAt(todo, j) && u in ChunkAt(todo, k)
    ensures j == k
  {
    var a := PlaceInChunk(todo, j, u);
    var b := PlaceInChunk(todo, k, u);
    hide ChunkAt;
    assert a == b;
  }

  lemma PlaceInChunk(todo: seq<Uid>, k: nat, u: Uid) returns (i: nat)
    requires u in ChunkAt(todo, k)
    ensures 50 * k <= i < 50 * k + 50 && i < |todo| && todo[i] == u
  {
    var a :| 0 <= a < |ChunkAt(todo, k)| && ChunkAt(todo, k)[a] == u;
    i := 50 * k + a;
  }

  lemma ChunkAnswered(servers: Servers, todo: seq<Uid>, k: nat)
    requires NoneTwice(todo) && AnswersTo(servers)
    ensures NoneTwice(ChunkAt(todo, k))
    ensures forall u :: u in ChunkAt(todo, k) ==>
                          (u in Answered(servers, todo) <==> u in servers.answers(ChunkAt(todo, k)))
  {
    forall u | u in ChunkAt(todo, k)
      ensures u in Answered(servers, todo) <==> u in servers.answers(ChunkAt(todo, k))
    {
      hide NoneTwice, AnswersTo;
      assert u in todo;
      if u in Answered(servers, todo) {
        var j: nat :| u in ChunkAt(todo, j) && u in servers.answers(ChunkAt(todo, j));
        hide ChunkAt;
        ChunksApart(todo, j, k, u);
      }
    }
  }

  lemma ChunkIs(todo: seq<Uid>, k: nat)
    requires 50 * k < |todo|
    ensures var end := if 50 * k + COPY_CHUNK < |todo| then 50 * k + COPY_CHUNK else |todo|;
            ChunkAt(todo, k) == todo[50 * k..end] && todo[..end] == todo[..50 * k] + ChunkAt(todo, k) &&
            multiset(todo[..50 * k]) + multiset(ChunkAt(todo, k)) + multiset(todo[end..]) == multiset(todo)
  {
    var end := if 50 * k + COPY_CHUNK < |todo| then 50 * k + COPY_CHUNK else |todo|;
    assert todo[..end] == todo[..50 * k] + todo[50 * k..end];
    Cut(todo, end);
  }

  lemma ChunkAdded(s: multiset<Uid>, p: multiset<Uid>, before: multiset<Uid>, chunk: multiset<Uid>, s': multiset<Uid>,
                   q: multiset<Uid>, rest: multiset<Uid>, todo: multiset<Uid>)
    requires s + p == before && s' + q <= s + chunk && before + chunk + rest == todo
    ensures s' <= todo
    ensures s' + q == s + chunk ==> s' + (p + q) == before + chunk
  {
    assert s' <= s' + q;
    assert s <= before;
    assert s + chunk <= before + chunk <= todo;
    if s' + q == s + chunk {
      assert s' + (p + q) == (s' + q) + p;
    }
  }

  lemma NothingSettled(lv: Live)
    requires lv.log == []
    ensures lv.Settled() == multiset{}
  {
  }

  /* ---------- counting by what is deserved ---------- */

  lemma {:induction false} LoggedUids(log: seq<Entry>)
    ensures forall u :: u in LogUids(log) <==> exists e :: e in log && e.uid == u
  {
    if log != [] {
      var rest, e := log[..|log| - 1], log[|log| - 1];
      LoggedUids(rest);
      assert log == rest + [e];
    }
  }

  /** The messages that came to this end. */
  function Came(log: seq<Entry>, fate: Fate): set<Uid> {
    set e | e in log && e.fate == fate :: e.uid
  }

  lemma CameOne(log: seq<Entry>, e: Entry, fate: Fate)
    ensures Came(log + [e], fate) == if e.fate == fate then Came(log, fate) + {e.uid} else Came(log, fate)
  {
    forall u | u in Came(log, fate)
      ensures u in Came(log + [e], fate)
    {
      var x :| x in log && x.fate == fate && x.uid == u;
      assert x in log + [e];
    }
    if e.fate == fate {
      assert e in log + [e];
    }
  }

  /** With no message settled twice, the count of an end is the number of the messages that came to it. */
  lemma {:induction false} CountIsNumber(log: seq<Entry>, fate: Fate)
    requires forall u :: multiset(LogUids(log))[u] <= 1
    ensures Count(log, fate) == |Came(log, fate)|
  {
    if log != [] {
      var rest, e := log[..|log| - 1], log[|log| - 1];
      assert log == rest + [e];
      LogOne(rest, e);
      assert multiset(LogUids(log)) == multiset(LogUids(rest)) + multiset{e.uid};
      forall u
        ensures multiset(LogUids(rest))[u] <= 1
      {
        assert multiset(LogUids(log))[u] <= 1;
      }
      CountIsNumber(rest, fate);
      CameOne(rest, e, fate);
      assert e.uid !in LogUids(rest) by {
        assert multiset(LogUids(log))[e.uid] <= 1;
      }
      LoggedUids(rest);
    } else {
      assert Came(log, fate) == {};
    }
  }

  /** The listed messages that deserve this end. */
  ghost function Those(servers: Servers, todo: seq<Uid>, wanted: set<Uid>, attempts: nat, fate: Fate): set<Uid> {
    set u | u in todo && Deserves(servers, Answered(servers, todo), wanted, attempts, u, fate)
  }

  /** If all were settled once and as they deserve, each end has come to exactly the messages that deserve it. */
  lemma CountIsDeserved(servers: Servers, todo: seq<Uid>, wanted: set<Uid>, attempts: nat, log: seq<Entry>, fate: Fate)
    requires NoneTwice(todo) && multiset(LogUids(log)) == multiset(todo)
    requires AllDeserved(servers, Answered(servers, todo), wanted, attempts, log)
    ensures Count(log, fate) == |Those(servers, todo, wanted, attempts, fate)|
  {
    OnceEach(todo);
    var answered := Answered(servers, todo);
    hide Answered, NoneTwice, Deserves, LogUids, Count;
    CountIsNumber(log, fate);
    LoggedUids(log);
    assert forall u :: u in todo <==> u in LogUids(log) by {
      assert forall u :: u in multiset(todo) <==> u in multiset(LogUids(log));
    }
    forall u | u in Came(log, fate)
      ensures u in Those(servers, todo, wanted, attempts, fate)
    {
      var e :| e in log && e.fate == fate && e.uid == u;
    }
    forall u | u in Those(servers, todo, wanted, attempts, fate)
      ensures u in Came(log, fate)
    {
      var e :| e in log && e.uid == u;
      OneFate(servers, answered, wanted, attempts, u, e.fate, fate);
    }
    assert Came(log, fate) == Those(servers, todo, wanted, attempts, fate);
  }

  /** What the copying of a folder comes down to, message by message. */
  ghost predicate CanBeCopied(servers: Servers, todo: seq<Uid>, wanted: set<Uid>, attempts: nat, u: Uid) {
    u in Answered(servers, todo) && u in wanted ==>
      Readable(servers.tries(u), attempts) &&
      (ReadAs(servers.tries(u), attempts, HandedOn) ==> servers.accepts(u).Some?)
  }

  /** A message that was handed on and is settled was answered one way or the other. */
  lemma HandedOnIsAnswered(servers: Servers, answered: set<Uid>, wanted: set<Uid>, attempts: nat, u: Uid, fate: Fate)
    requires Deserves(servers, answered, wanted, attempts, u, fate)
    requires u in answered && u in wanted && ReadAs(servers.tries(u), attempts, HandedOn)
    ensures servers.accepts(u).Some?
  {
    ReadsOneWay(servers.tries(u), attempts);
    hide ReadAs, PassedOver;
  }

  lemma EitherPart(a: seq<Uid>, b: seq<Uid>, c: seq<Uid>)
    requires multiset(a) + multiset(b) == multiset(c)
    ensures forall u :: u in c <==> u in a || u in b
  {
    forall u
      ensures u in c <==> u in a || u in b
    {
      assert u in c <==> u in multiset(c);
    }
  }

  /** All was read and handed on: the delivery succeeds exactly when every message can be copied. */
  lemma DeliveryDecides(servers: Servers, todo: seq<Uid>, wanted: set<Uid>, attempts: nat, log: seq<Entry>,
      pending: seq<Uid>)
    requires AllDeserved(servers, Answered(servers, todo), wanted, attempts, log)
    requires AllHandedOn(pending, servers, Answered(servers, todo), wanted, attempts)
    requires AllCanBeRead(todo, servers, Answered(servers, todo), wanted, attempts)
    requires multiset(LogUids(log)) + multiset(pending) == multiset(todo)
    ensures (forall u :: u in pending ==> servers.accepts(u).Some?) <==>
            (forall u :: u in todo ==> CanBeCopied(servers, todo, wanted, attempts, u))
  {
    var answered := Answered(servers, todo);
    hide Answered, Deserves, ReadAs, Readable;
    LoggedUids(log);
    EitherPart(LogUids(log), pending, todo);
    hide LogUids;
    if forall u :: u in pending ==> servers.accepts(u).Some? {
      forall u | u in todo && u in answered && u in wanted && ReadAs(servers.tries(u), attempts, HandedOn)
        ensures servers.accepts(u).Some?
      {
        if u !in pending {
          var e :| e in log && e.uid == u;
          HandedOnIsAnswered(servers, answered, wanted, attempts, u, e.fate);
        }
      }
    }
    if forall u :: u in todo ==> CanBeCopied(servers, todo, wanted, attempts, u) {
      forall u | u in pending
        ensures servers.accepts(u).Some?
      {
        assert CanBeCopied(servers, todo, wanted, attempts, u);
      }
    }
  }

  lemma ReadSoFar(todo: seq<Uid>, k: nat, servers: Servers, answered: set<Uid>, wanted: set<Uid>, attempts: nat)
    requires 50 * k < |todo| && AllCanBeRead(todo[..50 * k], servers, answered, wanted, attempts)
    ensures var end := if 50 * k + COPY_CHUNK < |todo| then 50 * k + COPY_CHUNK else |todo|;
            AllCanBeRead(todo[..end], servers, answered, wanted, attempts) <==>
            AllCanBeRead(ChunkAt(todo, k), servers, answered, wanted, attempts)
    ensures !AllCanBeRead(ChunkAt(todo, k), servers, answered, wanted, attempts) ==>
              !AllCanBeRead(todo, servers, answered, wanted, attempts)
  {
    ChunkIs(todo, k);
    hide Readable, ChunkAt;
    var end := if 50 * k + COPY_CHUNK < |todo| then 50 * k + COPY_CHUNK else |todo|;
    assert forall u :: u in ChunkAt(todo, k) ==> u in todo[..end] && u in todo;
    assert forall u :: u in todo[..end] ==> u in todo[..50 * k] || u in ChunkAt(todo, k);
  }

  lemma UnreadIsNotCopied(todo: seq<Uid>, servers: Servers, wanted: set<Uid>, attempts: nat)
    requires !AllCanBeRead(todo, servers, Answered(servers, todo), wanted, attempts)
    ensures exists u :: u in todo && !CanBeCopied(servers, todo, wanted, attempts, u)
  {
    var u :| u in todo && u in Answered(servers, todo) && u in wanted && !Readable(servers.tries(u), attempts);
    assert !CanBeCopied(servers, todo, wanted, attempts, u);
  }

  /**
   Copies the messages listed for a folder. Whatever end a message is counted under
   is the one the servers' behaviour towards it deserves, and none is accounted for
   twice. It succeeds exactly when every message can be read, or passed over, and
   what is handed on is taken or refused; then each count is the number of the listed
   messages that deserve that end, and the six add up to the list.
   */
  method CopyFolder(todo: seq<Uid>, wanted: set<Uid>, attempts: nat, servers: Servers, lv: Live) returns (ok: bool)
    requires lv.Valid() && lv.log == [] && NoneTwice(todo) && AnswersTo(servers)
    modifies lv
    ensures lv.Valid() && lv.Settled() <= multiset(todo)
    ensures AllDeserved(servers, Answered(servers, todo), wanted, attempts, lv.log)
    ensures ok <==> forall u :: u in todo ==> CanBeCopied(servers, todo, wanted, attempts, u)
    ensures ok ==> lv.Settled() == multiset(todo)
    ensures ok ==> lv.vanished + lv.filtered + lv.adopted + lv.noted + lv.copied + lv.failed == |todo|
    ensures ok ==> lv.vanished == |Those(servers, todo, wanted, attempts, Vanished)|
    ensures ok ==> lv.filtered == |Those(servers, todo, wanted, attempts, Filtered)|
    ensures ok ==> lv.adopted == |Those(servers, todo, wanted, attempts, Adopted)|
    ensures ok ==> lv.noted == |Those(servers, todo, wanted, attempts, Noted)|
    ensures ok ==> lv.copied == |Those(servers, todo, wanted, attempts, Copied)|
    ensures ok ==> lv.failed == |Those(servers, todo, wanted, attempts, Failed)|
  {
    ghost var answered := Answered(servers, todo);
    assert AllDeserved(servers, answered, wanted, attempts, []);
    assert AllHandedOn([], servers, answered, wanted, attempts);
    assert AllCanBeRead([], servers, answered, wanted, attempts);
    hide LogUids, Count, NoneTwice, AnswersTo, AllDeserved, AllHandedOn, AllCanBeRead, Answered, CanBeCopied, ChunkAt;
    hide Those, Deserves;
    NothingSettled(lv);
    var pending: seq<Uid> := [];
    var start := 0;
    ghost var k := 0;
    assert todo[..0] == [];
    while start < |todo|
      invariant start <= |todo| && (start < |todo| ==> start == 50 * k) && lv.Valid()
      invariant lv.Settled() + multiset(pending) == multiset(todo[..start])
      invariant AllDeserved(servers, answered, wanted, attempts, lv.log)
      invariant AllHandedOn(pending, servers, answered, wanted, attempts)
      invariant AllCanBeRead(todo[..start], servers, answered, wanted, attempts)
      decreases |todo| - start
    {
      var end := if start + COPY_CHUNK < |todo| then start + COPY_CHUNK else |todo|;
      var chunk := todo[start..end];
      ChunkIs(todo, k);
      ChunkAnswered(servers, todo, k);
      AnswerFits(servers, chunk);
      ReadSoFar(todo, k, servers, answered, wanted, attempts);
      ghost var settled := lv.Settled();
      var fetched, queued := FetchChunk(chunk, servers.answers(chunk), wanted, attempts, servers, answered, lv);
      ChunkAdded(settled, multiset(pending), multiset(todo[..start]), multiset(chunk), lv.Settled(), multiset(queued),
                 multiset(todo[end..]), multiset(todo));
      if !fetched {
        UnreadIsNotCopied(todo, servers, wanted, attempts);
        return false;
      }
      HandedOnJoin(pending, queued, servers, answered, wanted, attempts);
      pending := pending + queued;
      start, k := end, k + 1;
    }
    Whole(todo);
    DeliveryDecides(servers, todo, wanted, attempts, lv.log, pending);
    ok := DeliverAll(pending, servers, answered, wanted, attempts, lv);
    if ok {
      CountsAddUp(lv.log);
      assert |multiset(LogUids(lv.log))| == |multiset(todo)|;
      forall fate
        ensures Count(lv.log, fate) == |Those(servers, todo, wanted, attempts, fate)|
      {
        CountIsDeserved(servers, todo, wanted, attempts, lv.log, fate);
      }
    }
  }

  /** With no message listed twice, one settled list of them all is one end for each. */
  lemma OneEndEach(todo: seq<Uid>, log: seq<Entry>, u: Uid)
    requires NoneTwice(todo) && multiset(LogUids(log)) == multiset(todo)
    ensures multiset(LogUids(log))[u] == if u in todo then 1 else 0
  {
    OnceEach(todo);
  }
}
