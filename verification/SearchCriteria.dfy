/**
 A search as the flat record the parser builds and the local store evaluates:
 every field is a list of tests that must all hold, or a bound for which zero
 means that there is none.
 */
module SearchCriteria {
  import opened Text

  /** A day, counted from 1-Jan-0001, and a time of that day. The first moment is what an unset time looks like. */
  datatype Moment = Moment(day: int, clock: int)

  const NEVER_SET := Moment(0, 0)

  predicate IsZero(t: Moment) { t == NEVER_SET }

  predicate Precedes(a: Moment, b: Moment) {
    a.day < b.day || (a.day == b.day && a.clock < b.clock)
  }

  datatype Range = Range(start: nat, stop: nat)

  datatype Field = Field(name: string, value: string)

  datatype Criteria = Criteria(
    seqNum: seq<seq<Range>>,
    uid: seq<seq<Range>>,
    since: Moment,
    before: Moment,
    sentSince: Moment,
    sentBefore: Moment,
    header: seq<Field>,
    body: seq<string>,
    text: seq<string>,
    flag: seq<string>,
    notFlag: seq<string>,
    larger: int,
    smaller: int,
    nots: seq<Criteria>,
    ors: seq<(Criteria, Criteria)>)

  const EVERYTHING :=
    Criteria([], [], NEVER_SET, NEVER_SET, NEVER_SET, NEVER_SET, [], [], [], [], [], 0, 0, [], [])

  /** What the folder's database knows of a message without opening it. */
  datatype Candidate = Candidate(position: nat, uid: nat, arrived: Moment, size: int, flags: seq<string>)

  /** What reading the file tells; which texts occur in it is all that searching needs to know. */
  datatype Content = Content(
    sent: Moment,
    headerHas: (string, string) -> bool,
    bodyHas: string -> bool,
    textHas: string -> bool)

  /* ---------- what a criteria selects ---------- */

  predicate HasFlag(flags: seq<string>, want: string) {
    exists i :: 0 <= i < |flags| && Lower(flags[i]) == Lower(want)
  }

  predicate InRange(r: Range, n: nat) {
    r.start <= n <= r.stop || r.stop <= n <= r.start
  }

  predicate Contains(s: seq<Range>, n: nat) {
    exists i :: 0 <= i < |s| && InRange(s[i], n)
  }

  predicate OnOrAfter(t: Moment, bound: Moment) { IsZero(bound) || t.day >= bound.day }

  predicate StrictlyBefore(t: Moment, bound: Moment) { IsZero(bound) || t.day < bound.day }

  predicate SizeWithin(size: int, larger: int, smaller: int) {
    (larger > 0 ==> size > larger) && (smaller > 0 ==> size < smaller)
  }

  predicate OnIndex(c: Criteria, m: Candidate) {
    (forall i :: 0 <= i < |c.seqNum| ==> Contains(c.seqNum[i], m.position)) &&
    (forall i :: 0 <= i < |c.uid| ==> Contains(c.uid[i], m.uid)) &&
    OnOrAfter(m.arrived, c.since) && StrictlyBefore(m.arrived, c.before) &&
    SizeWithin(m.size, c.larger, c.smaller) &&
    (forall i :: 0 <= i < |c.flag| ==> HasFlag(m.flags, c.flag[i])) &&
    (forall i :: 0 <= i < |c.notFlag| ==> !HasFlag(m.flags, c.notFlag[i]))
  }

  predicate OnSent(c: Criteria, f: Content) {
    OnOrAfter(f.sent, c.sentSince) && StrictlyBefore(f.sent, c.sentBefore)
  }

  predicate OnContent(c: Criteria, f: Content) {
    OnSent(c, f) &&
    (forall i :: 0 <= i < |c.header| ==> f.headerHas(c.header[i].name, c.header[i].value)) &&
    (forall i :: 0 <= i < |c.body| ==> f.bodyHas(c.body[i])) &&
    (forall i :: 0 <= i < |c.text| ==> f.textHas(c.text[i]))
  }

  predicate Selects(c: Criteria, m: Candidate, f: Content)
    decreases c
  {
    OnIndex(c, m) && OnContent(c, f) &&
    (forall i :: 0 <= i < |c.nots| ==> !Selects(c.nots[i], m, f)) &&
    (forall i :: 0 <= i < |c.ors| ==> Selects(c.ors[i].0, m, f) || Selects(c.ors[i].1, m, f))
  }

  /* ---------- intersecting two of them ---------- */

  function Later(a: Moment, b: Moment): Moment {
    if IsZero(a) || (!IsZero(b) && Precedes(a, b)) then b else a
  }

  function Earlier(a: Moment, b: Moment): Moment {
    if IsZero(a) || (!IsZero(b) && Precedes(b, a)) then b else a
  }

  function And(dst: Criteria, src: Criteria): Criteria {
    Criteria(
      dst.seqNum + src.seqNum,
      dst.uid + src.uid,
      Later(dst.since, src.since),
      Earlier(dst.before, src.before),
      Later(dst.sentSince, src.sentSince),
      Earlier(dst.sentBefore, src.sentBefore),
      dst.header + src.header,
      dst.body + src.body,
      dst.text + src.text,
      dst.flag + src.flag,
      dst.notFlag + src.notFlag,
      if src.larger > dst.larger then src.larger else dst.larger,
      if src.smaller > 0 && (dst.smaller == 0 || src.smaller < dst.smaller) then src.smaller else dst.smaller,
      dst.nots + src.nots,
      dst.ors + src.ors)
  }

  lemma LaterMeansBoth(t: Moment, a: Moment, b: Moment)
    ensures OnOrAfter(t, Later(a, b)) <==> OnOrAfter(t, a) && OnOrAfter(t, b)
  {
  }

  lemma EarlierMeansBoth(t: Moment, a: Moment, b: Moment)
    ensures StrictlyBefore(t, Earlier(a, b)) <==> StrictlyBefore(t, a) && StrictlyBefore(t, b)
  {
  }

  lemma AndOnIndex(a: Criteria, b: Criteria, m: Candidate)
    requires a.smaller >= 0 || b.smaller <= 0
    ensures OnIndex(And(a, b), m) <==> OnIndex(a, m) && OnIndex(b, m)
  {
    var c := And(a, b);
    LaterMeansBoth(m.arrived, a.since, b.since);
    EarlierMeansBoth(m.arrived, a.before, b.before);
    hide Contains, HasFlag, OnOrAfter, StrictlyBefore, Later, Earlier;
    if OnIndex(c, m) {
      assert forall i :: 0 <= i < |a.seqNum| ==> c.seqNum[i] == a.seqNum[i];
      assert forall i :: 0 <= i < |b.seqNum| ==> c.seqNum[|a.seqNum| + i] == b.seqNum[i];
      assert forall i :: 0 <= i < |a.uid| ==> c.uid[i] == a.uid[i];
      assert forall i :: 0 <= i < |b.uid| ==> c.uid[|a.uid| + i] == b.uid[i];
      assert forall i :: 0 <= i < |a.flag| ==> c.flag[i] == a.flag[i];
      assert forall i :: 0 <= i < |b.flag| ==> c.flag[|a.flag| + i] == b.flag[i];
      assert forall i :: 0 <= i < |a.notFlag| ==> c.notFlag[i] == a.notFlag[i];
      assert forall i :: 0 <= i < |b.notFlag| ==> c.notFlag[|a.notFlag| + i] == b.notFlag[i];
    }
  }

  lemma AndOnContent(a: Criteria, b: Criteria, f: Content)
    ensures OnContent(And(a, b), f) <==> OnContent(a, f) && OnContent(b, f)
  {
    var c := And(a, b);
    LaterMeansBoth(f.sent, a.sentSince, b.sentSince);
    EarlierMeansBoth(f.sent, a.sentBefore, b.sentBefore);
    hide OnOrAfter, StrictlyBefore, Later, Earlier;
    if OnContent(c, f) {
      assert forall i :: 0 <= i < |a.header| ==> c.header[i] == a.header[i];
      assert forall i :: 0 <= i < |b.header| ==> c.header[|a.header| + i] == b.header[i];
      assert forall i :: 0 <= i < |a.body| ==> c.body[i] == a.body[i];
      assert forall i :: 0 <= i < |b.body| ==> c.body[|a.body| + i] == b.body[i];
      assert forall i :: 0 <= i < |a.text| ==> c.text[i] == a.text[i];
      assert forall i :: 0 <= i < |b.text| ==> c.text[|a.text| + i] == b.text[i];
    }
  }

  predicate OnNested(c: Criteria, m: Candidate, f: Content) {
    (forall i :: 0 <= i < |c.nots| ==> !Selects(c.nots[i], m, f)) &&
    (forall i :: 0 <= i < |c.ors| ==> Selects(c.ors[i].0, m, f) || Selects(c.ors[i].1, m, f))
  }

  lemma AndOnNested(a: Criteria, b: Criteria, m: Candidate, f: Content)
    ensures OnNested(And(a, b), m, f) <==> OnNested(a, m, f) && OnNested(b, m, f)
  {
    var c := And(a, b);
    hide Selects;
    if OnNested(c, m, f) {
      assert forall i :: 0 <= i < |a.nots| ==> c.nots[i] == a.nots[i];
      assert forall i :: 0 <= i < |b.nots| ==> c.nots[|a.nots| + i] == b.nots[i];
      assert forall i :: 0 <= i < |a.ors| ==> c.ors[i] == a.ors[i];
      assert forall i :: 0 <= i < |b.ors| ==> c.ors[|a.ors| + i] == b.ors[i];
    }
  }

  lemma SelectsInParts(c: Criteria, m: Candidate, f: Content)
    ensures Selects(c, m, f) <==> OnIndex(c, m) && OnContent(c, f) && OnNested(c, m, f)
  {
    hide OnIndex, OnContent;
  }

  /**
   Two criteria merged field by field select exactly what both select, for all
   that an absent bound and a bound of zero are written the same.
   */
  lemma AndIsIntersection(a: Criteria, b: Criteria, m: Candidate, f: Content)
    requires a.smaller >= 0 || b.smaller <= 0
    ensures Selects(And(a, b), m, f) <==> Selects(a, m, f) && Selects(b, m, f)
  {
    hide *;
    SelectsInParts(a, m, f);
    SelectsInParts(b, m, f);
    SelectsInParts(And(a, b), m, f);
    AndOnIndex(a, b, m);
    AndOnContent(a, b, f);
    AndOnNested(a, b, m, f);
  }

  /** The merged bound is never negative if the first was not, so merging can go on. */
  lemma AndStaysBounded(a: Criteria, b: Criteria)
    requires a.smaller >= 0
    ensures And(a, b).smaller >= 0
  {
  }

  /** With a negative bound on the left, which no parsed key has, the merge would lose the bound on the right. */
  lemma AndNeedsNoNegativeBound(a: Criteria, b: Criteria)
    requires a.smaller < 0 && b.smaller > 0
    ensures And(a, b).smaller == a.smaller
    ensures forall size :: SizeWithin(size, 0, And(a, b).smaller)
  {
  }
}
