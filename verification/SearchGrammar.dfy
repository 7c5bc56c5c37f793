/**
 The grammar of search keys: what tree a row of tokens reads as, how a tree is
 printed, and that reading inverts printing.
 */
module SearchGrammar {
  import opened Wrappers
  import opened SearchLexer
  import C = SearchCriteria
  import opened SearchMeaning
  import opened Text

  type Tokens = seq<Token>

  /** Reads a date; the calendar is not part of this model. */
  type DateReader = string -> Option<int>

  /* ---------- numbers and sets ---------- */

  const WORD_LIMIT: nat := 0x1_0000_0000

  function ParseUint(s: string): Option<nat> {
    if s != "" && AllDigits(s) && Decimal(s) < WORD_LIMIT then Some(Decimal(s)) else None
  }

  function ShownNum(n: nat): (s: string)
    ensures s != "" && AllDigits(s)
  {
    if n < 10 then [('0' as int + n) as char] else ShownNum(n / 10) + [('0' as int + n % 10) as char]
  }

  lemma {:induction false} NumReadsBack(n: nat)
    ensures Decimal(ShownNum(n)) == n
    ensures n < WORD_LIMIT ==> ParseUint(ShownNum(n)) == Some(n)
  {
    if n >= 10 {
      NumReadsBack(n / 10);
      var s := ShownNum(n);
      assert s[..|s| - 1] == ShownNum(n / 10);
    }
  }

  /** A UID, or "*", which is written as zero. */
  function UidNum(s: string): Option<nat> {
    if s == "*" then Some(0)
    else if ParseUint(s) == Some(0) then None else ParseUint(s)
  }

  function UidRange(part: string): Option<C.Range> {
    var i := IndexOf(part, ':');
    var start := UidNum(part[..i]);
    if start.None? then None
    else if i == |part| then Some(C.Range(start.value, start.value))
    else
      var stop := UidNum(part[i + 1..]);
      if stop.None? then None else Some(C.Range(start.value, stop.value))
  }

  function UidRanges(parts: seq<string>): Option<seq<C.Range>> {
    if parts == [] then Some([])
    else
      var first := UidRange(parts[0]);
      var others := UidRanges(parts[1..]);
      if first.None? || others.None? then None else Some([first.value] + others.value)
  }

  function ShownUid(n: nat): (s: string)
    ensures ':' !in s && ',' !in s
  {
    if n == 0 then "*" else ShownNum(n)
  }

  function ShownRange(r: C.Range): string {
    ShownUid(r.start) + ":" + ShownUid(r.stop)
  }

  function ShownRanges(rs: seq<C.Range>): (parts: seq<string>)
    ensures |parts| == |rs| && forall i :: 0 <= i < |rs| ==> parts[i] == ShownRange(rs[i])
  {
    if rs == [] then [] else [ShownRange(rs[0])] + ShownRanges(rs[1..])
  }

  predicate RangeFits(r: C.Range) { r.start < WORD_LIMIT && r.stop < WORD_LIMIT }

  lemma UidReadsBack(n: nat)
    requires n < WORD_LIMIT
    ensures UidNum(ShownUid(n)) == Some(n)
  {
    NumReadsBack(n);
    assert IsDigit(ShownNum(n)[0]);
  }

  lemma RangeReadsBack(r: C.Range)
    requires RangeFits(r)
    ensures UidRange(ShownRange(r)) == Some(r)
  {
    var a, b := ShownUid(r.start), ShownUid(r.stop);
    var s := ShownRange(r);
    assert s == a + [':'] + b;
    IndexOfJoint(a, ':', b);
    assert s[..|a|] == a && s[|a| + 1..] == b;
    UidReadsBack(r.start);
    UidReadsBack(r.stop);
  }

  lemma FirstRangeReads(part: string, parts: seq<string>)
    ensures UidRanges([part] + parts) ==
            if UidRange(part).None? || UidRanges(parts).None? then None
            else Some([UidRange(part).value] + UidRanges(parts).value)
  {
    assert ([part] + parts)[1..] == parts;
  }

  lemma {:induction false} RangesReadBack(rs: seq<C.Range>)
    requires forall i :: 0 <= i < |rs| ==> RangeFits(rs[i])
    ensures UidRanges(ShownRanges(rs)) == Some(rs)
  {
    if rs != [] {
      hide UidRange, ShownRange, RangeFits, UidRanges;
      RangesReadBack(rs[1..]);
      RangeReadsBack(rs[0]);
      FirstRangeReads(ShownRange(rs[0]), ShownRanges(rs[1..]));
      assert [rs[0]] + rs[1..] == rs;
    }
  }

  lemma SetReadsBack(rs: seq<C.Range>)
    requires rs != [] && forall i :: 0 <= i < |rs| ==> RangeFits(rs[i])
    ensures UidRanges(Split(Joined(ShownRanges(rs), ','), ',')) == Some(rs)
  {
    SplitInvertsJoining(ShownRanges(rs), ',');
    RangesReadBack(rs);
  }

  /* ---------- the names ---------- */

  function UpperChar(c: char): char {
    if 'a' <= c <= 'z' then c - 32 as char else c
  }

  function Upper(s: string): string {
    seq(|s|, i requires 0 <= i < |s| => UpperChar(s[i]))
  }

  function FlagNamed(name: string): Option<SystemFlag> {
    if name == "ANSWERED" then Some(Answered)
    else if name == "DELETED" then Some(Deleted)
    else if name == "DRAFT" then Some(Draft)
    else if name == "FLAGGED" then Some(Flagged)
    else if name == "SEEN" then Some(Seen)
    else None
  }

  function UnflagNamed(name: string): Option<SystemFlag> {
    if name == "UNANSWERED" then Some(Answered)
    else if name == "UNDELETED" then Some(Deleted)
    else if name == "UNDRAFT" then Some(Draft)
    else if name == "UNFLAGGED" then Some(Flagged)
    else if name == "UNSEEN" then Some(Seen)
    else None
  }

  function HeaderNamed(name: string): Option<HeaderName> {
    if name == "BCC" then Some(Bcc)
    else if name == "CC" then Some(Cc)
    else if name == "FROM" then Some(From)
    else if name == "SUBJECT" then Some(Subject)
    else if name == "TO" then Some(To)
    else None
  }

  function DateNamed(name: string): Option<DateOp> {
    if name == "SINCE" then Some(Since)
    else if name == "BEFORE" then Some(Before)
    else if name == "ON" then Some(On)
    else if name == "SENTSINCE" then Some(SentSince)
    else if name == "SENTBEFORE" then Some(SentBefore)
    else if name == "SENTON" then Some(SentOn)
    else None
  }

  predicate IsNumericSet(s: string) {
    s != "" && forall i :: 0 <= i < |s| ==> IsDigit(s[i]) || s[i] == ':' || s[i] == ',' || s[i] == '*'
  }

  /* ---------- reading ---------- */

  type Reading<T> = Result<(T, Tokens), Error>

  function ValueOf(ts: Tokens): (r: Reading<string>)
    ensures r.Ok? ==> |r.value.1| < |ts|
  {
    if ts == [] then Err(NoValue)
    else if ts[0].Open? || ts[0].Close? then Err(NotAValue)
    else Ok((ts[0].text, ts[1..]))
  }

  /** A key that is not one of this family, or what reading it comes to. */
  function FlagKeyOf(name: string, ts: Tokens): (r: Option<Reading<Key>>)
    ensures r.Some? && r.value.Ok? ==> |r.value.value.1| <= |ts|
  {
    if FlagNamed(name).Some? then Some(Ok((Is(FlagNamed(name).value), ts)))
    else if UnflagNamed(name).Some? then Some(Ok((IsNot(UnflagNamed(name).value), ts)))
    else if name == "KEYWORD" || name == "UNKEYWORD" then
      var v := ValueOf(ts);
      if v.Err? then Some(Err(v.error))
      else Some(Ok((if name == "KEYWORD" then Keyword(v.value.0) else Unkeyword(v.value.0), v.value.1)))
    else None
  }

  function TextKeyOf(name: string, ts: Tokens): (r: Option<Reading<Key>>)
    ensures r.Some? && r.value.Ok? ==> |r.value.value.1| <= |ts|
  {
    if HeaderNamed(name).Some? then
      var v := ValueOf(ts);
      if v.Err? then Some(Err(v.error)) else Some(Ok((Named(HeaderNamed(name).value, v.value.0), v.value.1)))
    else if name == "HEADER" then
      var field := ValueOf(ts);
      if field.Err? then Some(Err(field.error))
      else
        var v := ValueOf(field.value.1);
        if v.Err? then Some(Err(v.error)) else Some(Ok((Header(field.value.0, v.value.0), v.value.1)))
    else if name == "BODY" || name == "TEXT" then
      var v := ValueOf(ts);
      if v.Err? then Some(Err(v.error))
      else Some(Ok((if name == "BODY" then Body(v.value.0) else Text(v.value.0), v.value.1)))
    else None
  }

  function DateOf(ts: Tokens, read: DateReader): (r: Reading<int>)
    ensures r.Ok? ==> |r.value.1| < |ts|
  {
    var v := ValueOf(ts);
    if v.Err? then Err(v.error)
    else if read(v.value.0).None? then Err(BadDate)
    else Ok((read(v.value.0).value, v.value.1))
  }

  function SizeOf(ts: Tokens): (r: Reading<nat>)
    ensures r.Ok? ==> |r.value.1| < |ts| && 0 < r.value.0 < WORD_LIMIT
  {
    var v := ValueOf(ts);
    if v.Err? then Err(v.error)
    else
      var n := ParseUint(v.value.0);
      if n.None? then Err(BadSize) else if n.value == 0 then Err(ZeroSize) else Ok((n.value, v.value.1))
  }

  function UidSetOf(ts: Tokens): (r: Reading<seq<C.Range>>)
    ensures r.Ok? ==> |r.value.1| < |ts|
  {
    var v := ValueOf(ts);
    if v.Err? then Err(v.error)
    else
      var rs := UidRanges(Split(v.value.0, ','));
      if rs.None? then Err(BadUid) else Ok((rs.value, v.value.1))
  }

  function BoundKeyOf(name: string, ts: Tokens, read: DateReader): (r: Option<Reading<Key>>)
    ensures r.Some? && r.value.Ok? ==> |r.value.value.1| <= |ts|
  {
    if DateNamed(name).Some? then
      var d := DateOf(ts, read);
      if d.Err? then Some(Err(d.error)) else Some(Ok((Dated(DateNamed(name).value, d.value.0), d.value.1)))
    else if name == "LARGER" || name == "SMALLER" then
      var n := SizeOf(ts);
      if n.Err? then Some(Err(n.error))
      else Some(Ok((if name == "LARGER" then Larger(n.value.0) else Smaller(n.value.0), n.value.1)))
    else if name == "UID" then
      var s := UidSetOf(ts);
      if s.Err? then Some(Err(s.error)) else Some(Ok((Uids(s.value.0), s.value.1)))
    else None
  }

  /** A key that has no other key inside it. */
  function LeafOf(name: string, ts: Tokens, read: DateReader): (r: Option<Reading<Key>>)
    ensures r.Some? && r.value.Ok? ==> |r.value.value.1| <= |ts|
  {
    var flag := FlagKeyOf(name, ts);
    if flag.Some? then flag
    else
      var text := TextKeyOf(name, ts);
      if text.Some? then text else BoundKeyOf(name, ts, read)
  }

  function KeyOf(ts: Tokens, read: DateReader): (r: Reading<Key>)
    ensures r.Ok? ==> |r.value.1| < |ts|
    decreases |ts|, 0
  {
    if ts == [] then Err(EndsEarly)
    else
      match ts[0]
      case Open => GroupOf(ts[1..], read)
      case Close => Err(UnexpectedClose)
      case Quoted(_) => Err(QuotedKey)
      case Atom(text) => WordOf(text, ts[1..], read)
  }

  function WordOf(text: string, ts: Tokens, read: DateReader): (r: Reading<Key>)
    ensures r.Ok? ==> |r.value.1| <= |ts|
    decreases |ts|, 2
  {
    var name := Upper(text);
    var leaf := LeafOf(name, ts, read);
    if leaf.Some? then leaf.value
    else if name == "ALL" then Ok((All, ts))
    else if name == "NOT" then
      var inner := KeyOf(ts, read);
      if inner.Err? then inner else Ok((Not(inner.value.0), inner.value.1))
    else if name == "OR" then
      var left := KeyOf(ts, read);
      if left.Err? then left
      else
        var right := KeyOf(left.value.1, read);
        if right.Err? then right else Ok((Or(left.value.0, right.value.0), right.value.1))
    else if name == "RECENT" || name == "NEW" || name == "OLD" then Err(SessionKey)
    else if IsNumericSet(text) then Err(SequenceSet)
    else Err(NotAKey)
  }

  /** The rest of a parenthesised list. */
  function GroupOf(ts: Tokens, read: DateReader): (r: Reading<Key>)
    ensures r.Ok? ==> |r.value.1| < |ts|
    decreases |ts|, 2
  {
    var inner := KeysOf(ts, read);
    if inner.Err? then Err(inner.error)
    else if inner.value.1 == [] then Err(NeverClosed)
    else if inner.value.0 == [] then Err(EmptyGroup)
    else Ok((Group(inner.value.0), inner.value.1[1..]))
  }

  /** Keys up to a closing parenthesis or the end. */
  function KeysOf(ts: Tokens, read: DateReader): (r: Reading<seq<Key>>)
    ensures r.Ok? ==> |r.value.1| <= |ts| && (r.value.1 == [] || r.value.1[0].Close?)
    decreases |ts|, 1
  {
    if ts == [] || ts[0].Close? then Ok(([], ts))
    else
      var first := KeyOf(ts, read);
      if first.Err? then Err(first.error)
      else
        var rest := KeysOf(first.value.1, read);
        if rest.Err? then rest else Ok(([first.value.0] + rest.value.0, rest.value.1))
  }

  /** A whole search. */
  function SearchOf(s: string, read: DateReader): Result<seq<Key>, Error> {
    var toks := Lexed(s);
    if toks.Err? then Err(toks.error)
    else
      var ks := KeysOf(toks.value, read);
      if ks.Err? then Err(ks.error)
      else if ks.value.0 == [] then Err(EmptySearch)
      else if ks.value.1 != [] then Err(Unmatched)
      else Ok(ks.value.0)
  }

  /* ---------- printing ---------- */

  function FlagWord(f: SystemFlag): string {
    match f
    case Answered => "ANSWERED"
    case Deleted => "DELETED"
    case Draft => "DRAFT"
    case Flagged => "FLAGGED"
    case Seen => "SEEN"
  }

  function UnflagWord(f: SystemFlag): string {
    match f
    case Answered => "UNANSWERED"
    case Deleted => "UNDELETED"
    case Draft => "UNDRAFT"
    case Flagged => "UNFLAGGED"
    case Seen => "UNSEEN"
  }

  function DateWord(op: DateOp): string {
    match op
    case Since => "SINCE"
    case Before => "BEFORE"
    case On => "ON"
    case SentSince => "SENTSINCE"
    case SentBefore => "SENTBEFORE"
    case SentOn => "SENTON"
  }

  function LeafWord(k: Key): string
    requires !k.Not? && !k.Or? && !k.Group?
  {
    match k
    case All => "ALL"
    case Is(f) => FlagWord(f)
    case IsNot(f) => UnflagWord(f)
    case Keyword(_) => "KEYWORD"
    case Unkeyword(_) => "UNKEYWORD"
    case Named(h, _) => HeaderText(h)
    case Header(_, _) => "HEADER"
    case Body(_) => "BODY"
    case Text(_) => "TEXT"
    case Dated(op, _) => DateWord(op)
    case Larger(_) => "LARGER"
    case Smaller(_) => "SMALLER"
    case Uids(_) => "UID"
  }

  function LeafValues(k: Key, show: int -> string): Tokens
    requires !k.Not? && !k.Or? && !k.Group? && (k.Uids? ==> k.ranges != [])
  {
    match k
    case All => []
    case Is(_) => []
    case IsNot(_) => []
    case Keyword(v) => [Quoted(v)]
    case Unkeyword(v) => [Quoted(v)]
    case Named(_, v) => [Quoted(v)]
    case Header(field, v) => [Quoted(field), Quoted(v)]
    case Body(v) => [Quoted(v)]
    case Text(v) => [Quoted(v)]
    case Dated(_, d) => [Quoted(show(d))]
    case Larger(n) => [Quoted(ShownNum(n))]
    case Smaller(n) => [Quoted(ShownNum(n))]
    case Uids(rs) => [Quoted(Joined(ShownRanges(rs), ','))]
  }

  /** What can be written in a search at all. */
  predicate Writable(k: Key, read: DateReader, show: int -> string)
    decreases k
  {
    match k
    case Dated(_, d) => read(show(d)) == Some(d)
    case Larger(n) => 0 < n < WORD_LIMIT
    case Smaller(n) => 0 < n < WORD_LIMIT
    case Uids(rs) => rs != [] && forall i :: 0 <= i < |rs| ==> RangeFits(rs[i])
    case Not(key) => Writable(key, read, show)
    case Or(left, right) => Writable(left, read, show) && Writable(right, read, show)
    case Group(keys) => keys != [] && forall i :: 0 <= i < |keys| ==> Writable(keys[i], read, show)
    case _ => true
  }

  predicate AllWritable(ks: seq<Key>, read: DateReader, show: int -> string) {
    forall i :: 0 <= i < |ks| ==> Writable(ks[i], read, show)
  }

  function TokensOf(k: Key, read: DateReader, show: int -> string): Tokens
    requires Writable(k, read, show)
    decreases k
  {
    match k
    case Not(key) => [Atom("NOT")] + TokensOf(key, read, show)
    case Or(left, right) => [Atom("OR")] + TokensOf(left, read, show) + TokensOf(right, read, show)
    case Group(keys) => [Open] + TokensOfAll(keys, read, show) + [Close]
    case _ => [Atom(LeafWord(k))] + LeafValues(k, show)
  }

  function TokensOfAll(ks: seq<Key>, read: DateReader, show: int -> string): Tokens
    requires AllWritable(ks, read, show)
    decreases ks
  {
    if ks == [] then [] else TokensOf(ks[0], read, show) + TokensOfAll(ks[1..], read, show)
  }

  /* ---------- reading inverts printing ---------- */

  predicate Capitals(s: string) { s != "" && forall i :: 0 <= i < |s| ==> 'A' <= s[i] <= 'Z' }

  lemma CapitalsStay(s: string)
    requires Capitals(s)
    ensures Upper(s) == s && Printable(Atom(s))
  {
  }

  lemma FlagWordIsCapitals(f: SystemFlag)
    ensures Capitals(FlagWord(f)) && Capitals(UnflagWord(f))
  {
  }

  lemma DateWordIsCapitals(op: DateOp)
    ensures Capitals(DateWord(op))
  {
  }

  lemma LeafWordIsCapitals(k: Key)
    requires !k.Not? && !k.Or? && !k.Group?
    ensures Capitals(LeafWord(k))
  {
    match k
    case Is(f) => FlagWordIsCapitals(f);
    case IsNot(f) => FlagWordIsCapitals(f);
    case Dated(op, _) => DateWordIsCapitals(op);
    case _ =>
  }

  lemma FlagLeafReadsBack(k: Key, rest: Tokens, show: int -> string)
    requires k.Is? || k.IsNot? || k.Keyword? || k.Unkeyword?
    ensures FlagKeyOf(LeafWord(k), LeafValues(k, show) + rest) == Some(Ok((k, rest)))
  {
    assert [] + rest == rest;
    if k.Keyword? || k.Unkeyword? {
      assert ([Quoted(k.word)] + rest)[1..] == rest;
    }
  }

  lemma TextLeafReadsBack(k: Key, rest: Tokens, show: int -> string)
    requires k.Named? || k.Header? || k.Body? || k.Text?
    ensures FlagKeyOf(LeafWord(k), LeafValues(k, show) + rest) == None
    ensures TextKeyOf(LeafWord(k), LeafValues(k, show) + rest) == Some(Ok((k, rest)))
  {
  }

  lemma BoundIsNoFlagOrText(k: Key, ts: Tokens)
    requires k.Dated? || k.Larger? || k.Smaller? || k.Uids?
    ensures FlagKeyOf(LeafWord(k), ts) == None && TextKeyOf(LeafWord(k), ts) == None
  {
  }

  lemma SizeReadsBack(n: nat, rest: Tokens)
    requires 0 < n < WORD_LIMIT
    ensures SizeOf([Quoted(ShownNum(n))] + rest) == Ok((n, rest))
  {
    NumReadsBack(n);
    hide ParseUint, ShownNum;
    assert ([Quoted(ShownNum(n))] + rest)[1..] == rest;
  }

  lemma UidsReadBack(rs: seq<C.Range>, rest: Tokens)
    requires rs != [] && forall i :: 0 <= i < |rs| ==> RangeFits(rs[i])
    ensures UidSetOf([Quoted(Joined(ShownRanges(rs), ','))] + rest) == Ok((rs, rest))
  {
    SetReadsBack(rs);
    hide UidRanges, Split, Joined, ShownRanges;
    var v := Joined(ShownRanges(rs), ',');
    assert ([Quoted(v)] + rest)[1..] == rest;
  }

  lemma DateReadsBack(d: int, rest: Tokens, read: DateReader, show: int -> string)
    requires read(show(d)) == Some(d)
    ensures DateOf([Quoted(show(d))] + rest, read) == Ok((d, rest))
  {
    assert ([Quoted(show(d))] + rest)[1..] == rest;
  }

  lemma BoundLeafReadsBack(k: Key, rest: Tokens, read: DateReader, show: int -> string)
    requires (k.Dated? || k.Larger? || k.Smaller? || k.Uids?) && Writable(k, read, show)
    ensures BoundKeyOf(LeafWord(k), LeafValues(k, show) + rest, read) == Some(Ok((k, rest)))
  {
    hide SizeOf, UidSetOf, DateOf, ShownNum, Joined, ShownRanges;
    match k
    case Dated(op, d) => DateNameReadsBack(op); DateReadsBack(d, rest, read, show);
    case Larger(n) => SizeReadsBack(n, rest);
    case Smaller(n) => SizeReadsBack(n, rest);
    case Uids(rs) => UidsReadBack(rs, rest);
  }

  lemma DateNameReadsBack(op: DateOp)
    ensures DateNamed(DateWord(op)) == Some(op)
  {
  }

  lemma NotALeaf(name: string, ts: Tokens, read: DateReader)
    requires name == "ALL" || name == "NOT" || name == "OR"
    ensures LeafOf(name, ts, read) == None && Upper(name) == name && Printable(Atom(name))
  {
    assert Capitals(name);
    CapitalsStay(name);
  }
}
