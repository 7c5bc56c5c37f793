/**
 Reading a printed search gives back its tree; everything accepted is balanced
 and can be printed; and the criteria of an accepted search selects what the
 search means.
 */
module SearchRoundTrip {
  import opened Wrappers
  import opened SearchLexer
  import C = SearchCriteria
  import opened SearchMeaning
  import opened SearchGrammar
  import opened Text

  predicate IsLeaf(k: Key) { !k.Not? && !k.Or? && !k.Group? }

  lemma LeafReadsBack(k: Key, rest: Tokens, read: DateReader, show: int -> string)
    requires IsLeaf(k) && Writable(k, read, show)
    ensures WordOf(LeafWord(k), LeafValues(k, show) + rest, read) == Ok((k, rest))
  {
    hide FlagKeyOf, TextKeyOf, BoundKeyOf, Upper;
    var ts := LeafValues(k, show) + rest;
    LeafWordIsCapitals(k);
    CapitalsStay(LeafWord(k));
    if k.All? {
      NotALeaf("ALL", ts, read);
      assert ts == rest;
    } else if k.Is? || k.IsNot? || k.Keyword? || k.Unkeyword? {
      FlagLeafReadsBack(k, rest, show);
    } else if k.Named? || k.Header? || k.Body? || k.Text? {
      TextLeafReadsBack(k, rest, show);
    } else {
      BoundIsNoFlagOrText(k, ts);
      BoundLeafReadsBack(k, rest, read, show);
    }
  }

  lemma KeyStarts(k: Key, read: DateReader, show: int -> string)
    requires Writable(k, read, show)
    ensures var ts := TokensOf(k, read, show); ts != [] && !ts[0].Close?
  {
  }

  lemma AtomStartsKey(text: string, ts: Tokens, read: DateReader)
    ensures KeyOf([Atom(text)] + ts, read) == WordOf(text, ts, read)
  {
    assert ([Atom(text)] + ts)[1..] == ts;
  }

  lemma NotReads(ts: Tokens, read: DateReader)
    requires KeyOf(ts, read).Ok?
    ensures WordOf("NOT", ts, read) == Ok((Not(KeyOf(ts, read).value.0), KeyOf(ts, read).value.1))
  {
    NotALeaf("NOT", ts, read);
    hide LeafOf, Upper, KeyOf;
  }

  lemma OrReads(ts: Tokens, read: DateReader)
    requires KeyOf(ts, read).Ok? && KeyOf(KeyOf(ts, read).value.1, read).Ok?
    ensures var left := KeyOf(ts, read).value;
            var right := KeyOf(left.1, read).value;
            WordOf("OR", ts, read) == Ok((Or(left.0, right.0), right.1))
  {
    NotALeaf("OR", ts, read);
    hide LeafOf, Upper, KeyOf;
  }

  lemma GroupReads(ts: Tokens, read: DateReader)
    requires KeysOf(ts, read).Ok? && KeysOf(ts, read).value.0 != [] && KeysOf(ts, read).value.1 != []
    ensures var inner := KeysOf(ts, read).value;
            KeyOf([Open] + ts, read) == Ok((Group(inner.0), inner.1[1..]))
  {
    assert ([Open] + ts)[1..] == ts;
  }

  lemma FirstKeyReads(ts: Tokens, read: DateReader)
    requires ts != [] && !ts[0].Close? && KeyOf(ts, read).Ok? && KeysOf(KeyOf(ts, read).value.1, read).Ok?
    ensures var first := KeyOf(ts, read).value;
            var rest := KeysOf(first.1, read).value;
            KeysOf(ts, read) == Ok(([first.0] + rest.0, rest.1))
  {
    hide KeyOf;
  }

  /** `ts`, in front of anything that may follow, reads as `k`. */
  predicate ReadsAs(ts: Tokens, k: Key, rest: Tokens, read: DateReader) {
    KeyOf(ts + rest, read) == Ok((k, rest))
  }

  lemma LeafTokensRead(k: Key, rest: Tokens, read: DateReader, show: int -> string)
    requires IsLeaf(k) && Writable(k, read, show)
    ensures ReadsAs([Atom(LeafWord(k))] + LeafValues(k, show), k, rest, read)
  {
    hide KeyOf, WordOf;
    var ts := LeafValues(k, show) + rest;
    LeafReadsBack(k, rest, read, show);
    AtomStartsKey(LeafWord(k), ts, read);
    assert [Atom(LeafWord(k))] + LeafValues(k, show) + rest == [Atom(LeafWord(k))] + ts;
  }

  lemma NotTokensRead(ts: Tokens, key: Key, rest: Tokens, read: DateReader)
    requires ReadsAs(ts, key, rest, read)
    ensures ReadsAs([Atom("NOT")] + ts, Not(key), rest, read)
  {
    hide KeyOf, WordOf;
    NotReads(ts + rest, read);
    AtomStartsKey("NOT", ts + rest, read);
    assert [Atom("NOT")] + ts + rest == [Atom("NOT")] + (ts + rest);
  }

  lemma OrTokensRead(ts: Tokens, us: Tokens, left: Key, right: Key, rest: Tokens, read: DateReader)
    requires ReadsAs(ts, left, us + rest, read) && ReadsAs(us, right, rest, read)
    ensures ReadsAs([Atom("OR")] + ts + us, Or(left, right), rest, read)
  {
    hide KeyOf, WordOf;
    var all := ts + (us + rest);
    OrReads(all, read);
    AtomStartsKey("OR", all, read);
    assert [Atom("OR")] + ts + us + rest == [Atom("OR")] + all;
  }

  lemma GroupTokensRead(ts: Tokens, keys: seq<Key>, rest: Tokens, read: DateReader)
    requires keys != [] && KeysReadAs(ts, keys, [Close] + rest, read)
    ensures ReadsAs([Open] + ts + [Close], Group(keys), rest, read)
  {
    hide KeyOf, KeysOf;
    var all := ts + ([Close] + rest);
    GroupReads(all, read);
    assert ([Close] + rest)[1..] == rest;
    assert [Open] + ts + [Close] + rest == [Open] + all;
  }

  /** A printed key in front of anything is read back whole. */
  lemma {:induction false} KeyReadsBack(k: Key, rest: Tokens, read: DateReader, show: int -> string)
    requires Writable(k, read, show)
    ensures ReadsAs(TokensOf(k, read, show), k, rest, read)
    decreases k
  {
    hide ReadsAs, KeysReadAs, LeafWord, LeafValues;
    match k
    case Not(key) =>
      KeyReadsBack(key, rest, read, show);
      NotTokensRead(TokensOf(key, read, show), key, rest, read);
    case Or(left, right) =>
      KeyReadsBack(left, TokensOf(right, read, show) + rest, read, show);
      KeyReadsBack(right, rest, read, show);
      OrTokensRead(TokensOf(left, read, show), TokensOf(right, read, show), left, right, rest, read);
    case Group(keys) =>
      KeysReadBack(keys, [Close] + rest, read, show);
      GroupTokensRead(TokensOfAll(keys, read, show), keys, rest, read);
    case _ =>
      LeafTokensRead(k, rest, read, show);
  }

  /** `ts` reads as these keys when a closing parenthesis, or nothing, follows. */
  predicate KeysReadAs(ts: Tokens, ks: seq<Key>, rest: Tokens, read: DateReader) {
    KeysOf(ts + rest, read) == Ok((ks, rest))
  }

  lemma NoTokensRead(rest: Tokens, read: DateReader)
    requires rest == [] || rest[0].Close?
    ensures KeysReadAs([], [], rest, read)
  {
    assert [] + rest == rest;
  }

  lemma MoreTokensRead(ts: Tokens, us: Tokens, k: Key, ks: seq<Key>, rest: Tokens, read: DateReader)
    requires ts != [] && !ts[0].Close? && ReadsAs(ts, k, us + rest, read) && KeysReadAs(us, ks, rest, read)
    ensures KeysReadAs(ts + us, [k] + ks, rest, read)
  {
    hide KeyOf, KeysOf;
    FirstKeyReads(ts + (us + rest), read);
    assert ts + us + rest == ts + (us + rest);
  }

  lemma {:induction false} KeysReadBack(ks: seq<Key>, rest: Tokens, read: DateReader, show: int -> string)
    requires AllWritable(ks, read, show) && (rest == [] || rest[0].Close?)
    ensures KeysReadAs(TokensOfAll(ks, read, show), ks, rest, read)
    decreases ks
  {
    hide KeysReadAs, ReadsAs, TokensOf, Writable;
    if ks == [] {
      NoTokensRead(rest, read);
    } else {
      var us := TokensOfAll(ks[1..], read, show);
      KeyReadsBack(ks[0], us + rest, read, show);
      KeysReadBack(ks[1..], rest, read, show);
      KeyStarts(ks[0], read, show);
      MoreTokensRead(TokensOf(ks[0], read, show), us, ks[0], ks[1..], rest, read);
      assert [ks[0]] + ks[1..] == ks;
    }
  }

  lemma {:induction false} KeyIsPrintable(k: Key, read: DateReader, show: int -> string)
    requires Writable(k, read, show)
    ensures forall i :: 0 <= i < |TokensOf(k, read, show)| ==> Printable(TokensOf(k, read, show)[i])
    decreases k
  {
    match k
    case Not(key) => KeyIsPrintable(key, read, show);
    case Or(left, right) => KeyIsPrintable(left, read, show); KeyIsPrintable(right, read, show);
    case Group(keys) => KeysArePrintable(keys, read, show);
    case _ => LeafWordIsCapitals(k); CapitalsStay(LeafWord(k));
  }

  lemma {:induction false} KeysArePrintable(ks: seq<Key>, read: DateReader, show: int -> string)
    requires AllWritable(ks, read, show)
    ensures forall i :: 0 <= i < |TokensOfAll(ks, read, show)| ==> Printable(TokensOfAll(ks, read, show)[i])
    decreases ks
  {
    if ks != [] {
      hide Printable, TokensOf;
      KeyIsPrintable(ks[0], read, show);
      KeysArePrintable(ks[1..], read, show);
    }
  }

  /** Every search that can be written is read back as exactly the tree it was written from. */
  lemma SearchReadsBack(ks: seq<Key>, read: DateReader, show: int -> string)
    requires ks != [] && AllWritable(ks, read, show)
    ensures SearchOf(ShownAll(TokensOfAll(ks, read, show)), read) == Ok(ks)
  {
    hide Lexed, TokensOfAll, ShownAll, Printable;
    var ts := TokensOfAll(ks, read, show);
    KeysArePrintable(ks, read, show);
    LexInvertsPrinting(ts);
    KeysReadBack(ks, [], read, show);
    assert ts + [] == ts;
  }

  /* ---------- what acceptance means ---------- */

  function Step(t: Token): int {
    match t
    case Open => 1
    case Close => -1
    case _ => 0
  }

  /** Parentheses opened and not closed. */
  function Depth(ts: Tokens): int {
    if ts == [] then 0 else Step(ts[0]) + Depth(ts[1..])
  }

  /** Starting at depth `d`, no parenthesis closes what was not opened. */
  predicate NeverBelow(ts: Tokens, d: int) {
    d >= 0 && (ts == [] || NeverBelow(ts[1..], d + Step(ts[0])))
  }

  predicate Balanced(ts: Tokens) { Depth(ts) == 0 && NeverBelow(ts, 0) }

  lemma {:induction false} DepthAdds(ts: Tokens, us: Tokens, d: int)
    ensures Depth(ts + us) == Depth(ts) + Depth(us)
    ensures NeverBelow(ts, d) && NeverBelow(us, d + Depth(ts)) ==> NeverBelow(ts + us, d)
  {
    if ts == [] {
      assert ts + us == us;
    } else {
      assert (ts + us)[1..] == ts[1..] + us;
      DepthAdds(ts[1..], us, d + Step(ts[0]));
    }
  }

  lemma {:induction false} DeeperIsFine(ts: Tokens, d: int, d': int)
    requires NeverBelow(ts, d) && d <= d'
    ensures NeverBelow(ts, d')
  {
    if ts != [] {
      DeeperIsFine(ts[1..], d + Step(ts[0]), d' + Step(ts[0]));
    }
  }

  /** `rest` is what is left of `ts` after a balanced part of it. */
  predicate Consumed(ts: Tokens, rest: Tokens) {
    |rest| <= |ts| && rest == ts[|ts| - |rest|..] && Balanced(ts[..|ts| - |rest|])
  }

  lemma ConsumedNothing(ts: Tokens)
    ensures Consumed(ts, ts)
  {
  }

  lemma ConsumedOne(ts: Tokens)
    requires ts != [] && !ts[0].Open? && !ts[0].Close?
    ensures Consumed(ts, ts[1..])
  {
    assert ts[..1] == [ts[0]];
    assert [ts[0]][1..] == [];
  }

  lemma ConsumedBoth(ts: Tokens, us: Tokens, rest: Tokens)
    requires Consumed(ts, us) && Consumed(us, rest)
    ensures Consumed(ts, rest)
  {
    var a, b := ts[..|ts| - |us|], us[..|us| - |rest|];
    DepthAdds(a, b, 0);
    assert ts[..|ts| - |rest|] == a + b;
  }

  lemma ConsumedInParens(ts: Tokens, rest: Tokens)
    requires ts != [] && ts[0].Open? && Consumed(ts[1..], rest) && rest != [] && rest[0].Close?
    ensures Consumed(ts, rest[1..])
  {
    var inner := ts[1..][..|ts| - 1 - |rest|];
    var used := ts[..|ts| - |rest| + 1];
    assert used == [ts[0]] + (inner + [rest[0]]);
    DeeperIsFine(inner, 0, 1);
    var close := [rest[0]];
    assert close[1..] == [] && Depth(close) == -1;
    assert NeverBelow(close[1..], 0) && NeverBelow(close, 1);
    DepthAdds(inner, close, 1);
    assert used[1..] == inner + close && Depth(used) == 0;
  }

  lemma ValueConsumes(ts: Tokens)
    requires ValueOf(ts).Ok?
    ensures Consumed(ts, ValueOf(ts).value.1)
  {
    ConsumedOne(ts);
  }

  lemma LeafConsumes(name: string, ts: Tokens, read: DateReader)
    requires LeafOf(name, ts, read).Some? && LeafOf(name, ts, read).value.Ok?
    ensures Consumed(ts, LeafOf(name, ts, read).value.value.1)
  {
    hide Consumed, FlagNamed, UnflagNamed, HeaderNamed, DateNamed, UidRanges, Split, ParseUint;
    ConsumedNothing(ts);
    if ValueOf(ts).Ok? {
      ValueConsumes(ts);
      var us := ValueOf(ts).value.1;
      if ValueOf(us).Ok? {
        ValueConsumes(us);
        ConsumedBoth(ts, us, ValueOf(us).value.1);
      }
    }
  }

  lemma {:induction false} KeyConsumes(ts: Tokens, read: DateReader)
    requires KeyOf(ts, read).Ok?
    ensures Consumed(ts, KeyOf(ts, read).value.1)
    decreases |ts|, 0
  {
    hide Consumed, LeafOf, Upper, IsNumericSet;
    match ts[0]
    case Open =>
      KeysConsume(ts[1..], read);
      ConsumedInParens(ts, KeysOf(ts[1..], read).value.1);
    case Atom(text) =>
      ConsumedOne(ts);
      WordConsumes(text, ts[1..], read);
      ConsumedBoth(ts, ts[1..], KeyOf(ts, read).value.1);
  }

  lemma {:induction false} WordConsumes(text: string, ts: Tokens, read: DateReader)
    requires WordOf(text, ts, read).Ok?
    ensures Consumed(ts, WordOf(text, ts, read).value.1)
    decreases |ts|, 2
  {
    hide Consumed, LeafOf, IsNumericSet, KeyOf;
    var name := Upper(text);
    if LeafOf(name, ts, read).Some? {
      LeafConsumes(name, ts, read);
    } else if name == "ALL" {
      ConsumedNothing(ts);
    } else {
      KeyConsumes(ts, read);
      if name == "OR" {
        var us := KeyOf(ts, read).value.1;
        KeyConsumes(us, read);
        ConsumedBoth(ts, us, KeyOf(us, read).value.1);
      }
    }
  }

  lemma {:induction false} KeysConsume(ts: Tokens, read: DateReader)
    requires KeysOf(ts, read).Ok?
    ensures Consumed(ts, KeysOf(ts, read).value.1)
    decreases |ts|, 1
  {
    hide Consumed, KeyOf;
    if ts == [] || ts[0].Close? {
      ConsumedNothing(ts);
    } else {
      var us := KeyOf(ts, read).value.1;
      KeyConsumes(ts, read);
      KeysConsume(us, read);
      ConsumedBoth(ts, us, KeysOf(us, read).value.1);
    }
  }

  /** A search is accepted only when every token has been used and every parenthesis has its partner. */
  lemma AcceptedIsBalanced(s: string, read: DateReader)
    requires SearchOf(s, read).Ok?
    ensures Lexed(s).Ok? && Balanced(Lexed(s).value)
    ensures KeysOf(Lexed(s).value, read) == Ok((SearchOf(s, read).value, []))
  {
    var ts := Lexed(s).value;
    KeysConsume(ts, read);
    assert ts[..|ts|] == ts;
  }

  /** `show` prints every date that `read` can give so that it reads the same. */
  ghost predicate DatesPrint(read: DateReader, show: int -> string) {
    forall v :: read(v).Some? ==> read(show(read(v).value)) == read(v)
  }

  lemma {:induction false} RangesFit(parts: seq<string>)
    requires UidRanges(parts).Some?
    ensures |UidRanges(parts).value| == |parts|
    ensures forall i :: 0 <= i < |parts| ==> RangeFits(UidRanges(parts).value[i])
  {
    if parts != [] {
      RangesFit(parts[1..]);
    }
  }

  lemma LeafIsWritable(name: string, ts: Tokens, read: DateReader, show: int -> string)
    requires DatesPrint(read, show) && LeafOf(name, ts, read).Some? && LeafOf(name, ts, read).value.Ok?
    ensures IsLeaf(LeafOf(name, ts, read).value.value.0) && Writable(LeafOf(name, ts, read).value.value.0, read, show)
  {
    hide FlagNamed, UnflagNamed, HeaderNamed, DateNamed, UidRanges, Split, ParseUint;
    if ValueOf(ts).Ok? && UidRanges(Split(ValueOf(ts).value.0, ',')).Some? {
      RangesFit(Split(ValueOf(ts).value.0, ','));
      SplitIsNotEmpty(ValueOf(ts).value.0, ',');
    }
  }

  lemma SplitIsNotEmpty(s: string, c: char)
    ensures Split(s, c) != []
  {
  }

  lemma {:induction false} KeyIsWritable(ts: Tokens, read: DateReader, show: int -> string)
    requires DatesPrint(read, show) && KeyOf(ts, read).Ok?
    ensures Writable(KeyOf(ts, read).value.0, read, show)
    decreases |ts|, 0
  {
    hide LeafOf, Upper, IsNumericSet, DatesPrint;
    match ts[0]
    case Open => KeysAreWritable(ts[1..], read, show);
    case Atom(text) => WordIsWritable(text, ts[1..], read, show);
  }

  lemma {:induction false} WordIsWritable(text: string, ts: Tokens, read: DateReader, show: int -> string)
    requires DatesPrint(read, show) && WordOf(text, ts, read).Ok?
    ensures Writable(WordOf(text, ts, read).value.0, read, show)
    decreases |ts|, 2
  {
    hide LeafOf, IsNumericSet, KeyOf, DatesPrint;
    var name := Upper(text);
    if LeafOf(name, ts, read).Some? {
      LeafIsWritable(name, ts, read, show);
    } else if name != "ALL" {
      KeyIsWritable(ts, read, show);
      if name == "OR" {
        KeyIsWritable(KeyOf(ts, read).value.1, read, show);
      }
    }
  }

  lemma {:induction false} KeysAreWritable(ts: Tokens, read: DateReader, show: int -> string)
    requires DatesPrint(read, show) && KeysOf(ts, read).Ok?
    ensures AllWritable(KeysOf(ts, read).value.0, read, show)
    decreases |ts|, 1
  {
    hide KeyOf, Writable, DatesPrint;
    if ts != [] && !ts[0].Close? {
      KeyIsWritable(ts, read, show);
      KeysAreWritable(KeyOf(ts, read).value.1, read, show);
    }
  }

  /** Printing what was read of any accepted search, however it was typed, is a search that reads the same. */
  lemma AcceptedPrintsTheSame(s: string, read: DateReader, show: int -> string)
    requires DatesPrint(read, show) && SearchOf(s, read).Ok?
    ensures var ks := SearchOf(s, read).value;
            AllWritable(ks, read, show) && SearchOf(ShownAll(TokensOfAll(ks, read, show)), read) == SearchOf(s, read)
  {
    hide KeysOf, Lexed, DatesPrint;
    KeysAreWritable(Lexed(s).value, read, show);
    SearchReadsBack(SearchOf(s, read).value, read, show);
  }

  /* ---------- what an accepted search selects ---------- */

  /** No date whose bound is the unset time, and no "*". */
  predicate Bounded(k: Key)
    decreases k
  {
    match k
    case Dated(op, d) => DateHasBound(op, d)
    case Uids(ranges) => forall i :: 0 <= i < |ranges| ==> ranges[i].start != 0 && ranges[i].stop != 0
    case Not(key) => Bounded(key)
    case Or(left, right) => Bounded(left) && Bounded(right)
    case Group(keys) => forall i :: 0 <= i < |keys| ==> Bounded(keys[i])
    case _ => true
  }

  /** Since a size of zero is refused, what is left to ask of an accepted search is its dates and its sets. */
  lemma {:induction false} WritableIsPlain(k: Key, read: DateReader, show: int -> string)
    requires Writable(k, read, show) && Bounded(k)
    ensures Plain(k)
    decreases k
  {
    match k
    case Not(key) => WritableIsPlain(key, read, show);
    case Or(left, right) => WritableIsPlain(left, read, show); WritableIsPlain(right, read, show);
    case Group(keys) =>
      forall i | 0 <= i < |keys|
        ensures Plain(keys[i])
      {
        WritableIsPlain(keys[i], read, show);
      }
    case _ =>
  }

  /**
   The criteria made of an accepted search selects exactly the messages that
   satisfy each of its keys, as the standard defines them.
   */
  lemma AcceptedMeans(s: string, read: DateReader, show: int -> string, m: C.Candidate, f: C.Content, top: nat)
    requires DatesPrint(read, show) && SearchOf(s, read).Ok? && m.arrived.day >= 0 && f.sent.day >= 0
    requires forall i :: 0 <= i < |SearchOf(s, read).value| ==> Bounded(SearchOf(s, read).value[i])
    ensures var ks := SearchOf(s, read).value;
            C.Selects(CompileAll(ks), m, f) <==> AllDenote(ks, m, f, top)
  {
    hide KeysOf, Lexed, DatesPrint, CompileAll, Plain, Bounded, Writable;
    var ks := SearchOf(s, read).value;
    KeysAreWritable(Lexed(s).value, read, show);
    forall i | 0 <= i < |ks|
      ensures Plain(ks[i])
    {
      WritableIsPlain(ks[i], read, show);
    }
    CompileAllMeans(ks, m, f, top);
  }
}
