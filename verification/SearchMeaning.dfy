/**
 What a search key means, as section 6.4.4 of RFC 3501 defines it, and the
 criteria it is flattened into. Flattening keeps the meaning, except for the
 dates whose bound comes out as the unset time.
 */
module SearchMeaning {
  import opened SearchCriteria

  datatype SystemFlag = Answered | Deleted | Draft | Flagged | Seen

  datatype HeaderName = Bcc | Cc | From | Subject | To

  datatype DateOp = Since | Before | On | SentSince | SentBefore | SentOn

  datatype Key =
    | All
    | Is(flag: SystemFlag)
    | IsNot(flag: SystemFlag)
    | Keyword(word: string)
    | Unkeyword(word: string)
    | Named(name: HeaderName, value: string)
    | Header(field: string, value: string)
    | Body(value: string)
    | Text(value: string)
    | Dated(op: DateOp, day: int)
    | Larger(size: nat)
    | Smaller(size: nat)
    | Uids(ranges: seq<Range>)
    | Not(key: Key)
    | Or(left: Key, right: Key)
    | Group(keys: seq<Key>)

  function FlagText(f: SystemFlag): string {
    match f
    case Answered => "\\Answered"
    case Deleted => "\\Deleted"
    case Draft => "\\Draft"
    case Flagged => "\\Flagged"
    case Seen => "\\Seen"
  }

  function HeaderText(h: HeaderName): string {
    match h
    case Bcc => "BCC"
    case Cc => "CC"
    case From => "FROM"
    case Subject => "SUBJECT"
    case To => "TO"
  }

  /* ---------- the meaning ---------- */

  predicate DayMeans(op: DateOp, d: int, arrived: int, sent: int) {
    match op
    case Since => arrived >= d
    case Before => arrived < d
    case On => arrived == d
    case SentSince => sent >= d
    case SentBefore => sent < d
    case SentOn => sent == d
  }

  /** "*", which the parser writes as zero, is the highest UID in the mailbox. */
  function UidValue(n: nat, top: nat): nat {
    if n == 0 then top else n
  }

  predicate RangeMeans(r: Range, n: nat, top: nat) {
    InRange(Range(UidValue(r.start, top), UidValue(r.stop, top)), n)
  }

  predicate Denotes(k: Key, m: Candidate, f: Content, top: nat)
    decreases k
  {
    match k
    case All => true
    case Is(flag) => HasFlag(m.flags, FlagText(flag))
    case IsNot(flag) => !HasFlag(m.flags, FlagText(flag))
    case Keyword(word) => HasFlag(m.flags, word)
    case Unkeyword(word) => !HasFlag(m.flags, word)
    case Named(name, value) => f.headerHas(HeaderText(name), value)
    case Header(field, value) => f.headerHas(field, value)
    case Body(value) => f.bodyHas(value)
    case Text(value) => f.textHas(value)
    case Dated(op, d) => DayMeans(op, d, m.arrived.day, f.sent.day)
    case Larger(size) => m.size > size
    case Smaller(size) => m.size < size
    case Uids(ranges) => exists i :: 0 <= i < |ranges| && RangeMeans(ranges[i], m.uid, top)
    case Not(key) => !Denotes(key, m, f, top)
    case Or(left, right) => Denotes(left, m, f, top) || Denotes(right, m, f, top)
    case Group(keys) => forall i :: 0 <= i < |keys| ==> Denotes(keys[i], m, f, top)
  }

  predicate AllDenote(ks: seq<Key>, m: Candidate, f: Content, top: nat) {
    forall i :: 0 <= i < |ks| ==> Denotes(ks[i], m, f, top)
  }

  /* ---------- the flattening ---------- */

  function WithDate(op: DateOp, d: int): Criteria {
    match op
    case Since => EVERYTHING.(since := Moment(d, 0))
    case Before => EVERYTHING.(before := Moment(d, 0))
    case On => EVERYTHING.(since := Moment(d, 0), before := Moment(d + 1, 0))
    case SentSince => EVERYTHING.(sentSince := Moment(d, 0))
    case SentBefore => EVERYTHING.(sentBefore := Moment(d, 0))
    case SentOn => EVERYTHING.(sentSince := Moment(d, 0), sentBefore := Moment(d + 1, 0))
  }

  function Compile(k: Key): Criteria
    decreases k
  {
    match k
    case All => EVERYTHING
    case Is(flag) => EVERYTHING.(flag := [FlagText(flag)])
    case IsNot(flag) => EVERYTHING.(notFlag := [FlagText(flag)])
    case Keyword(word) => EVERYTHING.(flag := [word])
    case Unkeyword(word) => EVERYTHING.(notFlag := [word])
    case Named(name, value) => EVERYTHING.(header := [Field(HeaderText(name), value)])
    case Header(field, value) => EVERYTHING.(header := [Field(field, value)])
    case Body(value) => EVERYTHING.(body := [value])
    case Text(value) => EVERYTHING.(text := [value])
    case Dated(op, d) => WithDate(op, d)
    case Larger(size) => EVERYTHING.(larger := size)
    case Smaller(size) => EVERYTHING.(smaller := size)
    case Uids(ranges) => EVERYTHING.(uid := [ranges])
    case Not(key) => EVERYTHING.(nots := [Compile(key)])
    case Or(left, right) => EVERYTHING.(ors := [(Compile(left), Compile(right))])
    case Group(keys) => CompileAll(keys)
  }

  /** Keys in a row are merged into one criteria, the first into the empty one. */
  function CompileAll(ks: seq<Key>): Criteria
    decreases ks
  {
    if ks == [] then EVERYTHING else And(CompileAll(ks[..|ks| - 1]), Compile(ks[|ks| - 1]))
  }

  /* ---------- when it keeps the meaning ---------- */

  /** The dates whose bounds do not come out as the unset time: all but BEFORE 1-Jan-0001 and ON the day before it. */
  predicate DateHasBound(op: DateOp, d: int) {
    match op
    case Before => d != 0
    case SentBefore => d != 0
    case On => d != -1
    case SentOn => d != -1
    case _ => true
  }

  /** Every part of a key that satisfies this keeps its meaning. */
  predicate Plain(k: Key)
    decreases k
  {
    match k
    case Dated(op, d) => DateHasBound(op, d)
    case Larger(size) => size > 0
    case Smaller(size) => size > 0
    case Uids(ranges) => forall i :: 0 <= i < |ranges| ==> ranges[i].start != 0 && ranges[i].stop != 0
    case Not(key) => Plain(key)
    case Or(left, right) => Plain(left) && Plain(right)
    case Group(keys) => forall i :: 0 <= i < |keys| ==> Plain(keys[i])
    case _ => true
  }

  lemma EverythingSelectsAll(m: Candidate, f: Content)
    ensures Selects(EVERYTHING, m, f)
  {
  }

  lemma DateMeansSame(op: DateOp, d: int, m: Candidate, f: Content)
    requires DateHasBound(op, d) && m.arrived.day >= 0 && f.sent.day >= 0
    ensures Selects(WithDate(op, d), m, f) <==> DayMeans(op, d, m.arrived.day, f.sent.day)
  {
  }

  const DAY_ONE := Candidate(1, 1, Moment(1, 0), 1, [])

  function SentOnDayOne(): Content {
    Content(Moment(1, 0), (n: string, v: string) => false, (v: string) => false, (v: string) => false)
  }

  /**
   A date key keeps its meaning for all messages exactly when none of its bounds
   is the unset time. BEFORE 1-Jan-0001, which no message satisfies, is the
   whole mailbox.
   */
  lemma DateMeansSameIff(op: DateOp, d: int)
    ensures (forall m: Candidate, f: Content :: m.arrived.day >= 0 && f.sent.day >= 0 ==>
               (Selects(WithDate(op, d), m, f) <==> DayMeans(op, d, m.arrived.day, f.sent.day))) <==>
            DateHasBound(op, d)
  {
    if DateHasBound(op, d) {
      forall m: Candidate, f: Content | m.arrived.day >= 0 && f.sent.day >= 0
        ensures Selects(WithDate(op, d), m, f) <==> DayMeans(op, d, m.arrived.day, f.sent.day)
      {
        DateMeansSame(op, d, m, f);
      }
    } else {
      assert Selects(WithDate(op, d), DAY_ONE, SentOnDayOne());
      assert !DayMeans(op, d, DAY_ONE.arrived.day, SentOnDayOne().sent.day);
    }
  }

  lemma {:induction false} CompiledIsBounded(k: Key)
    ensures Compile(k).smaller >= 0
    decreases k
  {
    if k.Group? {
      CompiledAreBounded(k.keys);
    }
  }

  lemma {:induction false} CompiledAreBounded(ks: seq<Key>)
    ensures CompileAll(ks).smaller >= 0
    decreases ks
  {
    if ks != [] {
      CompiledAreBounded(ks[..|ks| - 1]);
      AndStaysBounded(CompileAll(ks[..|ks| - 1]), Compile(ks[|ks| - 1]));
    }
  }

  /** Flattening a key keeps what it means of every message with a date. */
  lemma {:induction false} CompileMeans(k: Key, m: Candidate, f: Content, top: nat)
    requires Plain(k) && m.arrived.day >= 0 && f.sent.day >= 0
    ensures Selects(Compile(k), m, f) <==> Denotes(k, m, f, top)
    decreases k
  {
    match k
    case Dated(op, d) => DateMeansSame(op, d, m, f);
    case Not(key) => CompileMeans(key, m, f, top); NotMeans(key, m, f);
    case Or(left, right) => CompileMeans(left, m, f, top); CompileMeans(right, m, f, top); OrMeans(left, right, m, f);
    case Group(keys) => CompileAllMeans(keys, m, f, top);
    case Uids(ranges) => UidsMean(ranges, m, f, top);
    case _ => LeafMeans(k, m, f, top);
  }

  lemma NotMeans(key: Key, m: Candidate, f: Content)
    ensures Selects(Compile(Not(key)), m, f) <==> !Selects(Compile(key), m, f)
  {
    var c := Compile(Not(key));
    assert c.nots[0] == Compile(key);
  }

  lemma OrMeans(left: Key, right: Key, m: Candidate, f: Content)
    ensures Selects(Compile(Or(left, right)), m, f) <==> Selects(Compile(left), m, f) || Selects(Compile(right), m, f)
  {
    var c := Compile(Or(left, right));
    assert c.ors[0] == (Compile(left), Compile(right));
  }

  lemma UidsMean(ranges: seq<Range>, m: Candidate, f: Content, top: nat)
    requires Plain(Uids(ranges))
    ensures Selects(Compile(Uids(ranges)), m, f) <==> Denotes(Uids(ranges), m, f, top)
  {
    var c := Compile(Uids(ranges));
    assert c.uid[0] == ranges;
    assert forall i :: 0 <= i < |ranges| ==> (InRange(ranges[i], m.uid) <==> RangeMeans(ranges[i], m.uid, top));
  }

  lemma LeafMeans(k: Key, m: Candidate, f: Content, top: nat)
    requires Plain(k) && !k.Dated? && !k.Not? && !k.Or? && !k.Group? && !k.Uids?
    ensures Selects(Compile(k), m, f) <==> Denotes(k, m, f, top)
  {
    hide FlagText, HeaderText, HasFlag;
    var c := Compile(k);
    match k
    case Is(flag) => assert c.flag[0] == FlagText(flag);
    case IsNot(flag) => assert c.notFlag[0] == FlagText(flag);
    case Keyword(word) => assert c.flag[0] == word;
    case Unkeyword(word) => assert c.notFlag[0] == word;
    case Named(name, value) => assert c.header[0] == Field(HeaderText(name), value);
    case Header(field, value) => assert c.header[0] == Field(field, value);
    case Body(value) => assert c.body[0] == value;
    case Text(value) => assert c.text[0] == value;
    case _ =>
  }

  /** Keys in a row mean all of them. */
  lemma {:induction false} CompileAllMeans(ks: seq<Key>, m: Candidate, f: Content, top: nat)
    requires (forall i :: 0 <= i < |ks| ==> Plain(ks[i])) && m.arrived.day >= 0 && f.sent.day >= 0
    ensures Selects(CompileAll(ks), m, f) <==> AllDenote(ks, m, f, top)
    decreases ks
  {
    if ks == [] {
      EverythingSelectsAll(m, f);
    } else {
      var n := |ks| - 1;
      hide Selects, And, Compile, Denotes, Plain, AllDenote;
      CompileAllMeans(ks[..n], m, f, top);
      CompileMeans(ks[n], m, f, top);
      CompiledAreBounded(ks[..n]);
      AndIsIntersection(CompileAll(ks[..n]), Compile(ks[n]), m, f);
      LastDenotes(ks, m, f, top);
    }
  }

  lemma LastDenotes(ks: seq<Key>, m: Candidate, f: Content, top: nat)
    requires ks != []
    ensures var n := |ks| - 1;
            AllDenote(ks, m, f, top) <==> AllDenote(ks[..n], m, f, top) && Denotes(ks[n], m, f, top)
  {
    hide Denotes;
    var n := |ks| - 1;
    assert forall i :: 0 <= i < n ==> ks[..n][i] == ks[i];
  }
}
