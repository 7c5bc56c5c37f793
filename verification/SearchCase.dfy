/**
 Searches in capitals, small letters or both. A search and the same search with
 its letters in another case are refused for the same reason or select the same
 messages; a printed search reads back however its words are written; and the
 words are those of section 6.4.4 of RFC 3501 and mean what it says.
 */
module SearchCase {
  import opened Wrappers
  import opened SearchLexer
  import C = SearchCriteria
  import opened SearchMeaning
  import opened SearchGrammar
  import opened SearchRoundTrip
  import opened Text

  /* ---------- letters ---------- */

  /** The same text but for the case of its letters. */
  predicate Same(a: string, b: string) { Lower(a) == Lower(b) }

  predicate IsLetter(c: char) { 'a' <= c <= 'z' || 'A' <= c <= 'Z' }

  lemma LettersApart(x: char, y: char)
    ensures LowerChar(x) == LowerChar(y) <==> UpperChar(x) == UpperChar(y)
    ensures LowerChar(x) == LowerChar(y) ==> x == y || (IsLetter(x) && IsLetter(y))
  {
  }

  lemma SameAt(a: string, b: string)
    requires Same(a, b)
    ensures |a| == |b| && forall i :: 0 <= i < |a| ==> LowerChar(a[i]) == LowerChar(b[i])
    ensures forall i :: 0 <= i < |a| ==> a[i] == b[i] || (IsLetter(a[i]) && IsLetter(b[i]))
  {
    assert |Lower(a)| == |Lower(b)|;
    forall i | 0 <= i < |a|
      ensures LowerChar(a[i]) == LowerChar(b[i]) && (a[i] == b[i] || (IsLetter(a[i]) && IsLetter(b[i])))
    {
      assert Lower(a)[i] == Lower(b)[i];
      LettersApart(a[i], b[i]);
    }
  }

  lemma SameByChars(a: string, b: string)
    requires |a| == |b| && forall i :: 0 <= i < |a| ==> LowerChar(a[i]) == LowerChar(b[i])
    ensures Same(a, b)
  {
    hide LowerChar;
  }

  lemma SameCapitals(a: string, b: string)
    ensures Same(a, b) <==> Upper(a) == Upper(b)
  {
    if Same(a, b) {
      SameAt(a, b);
      hide Lower;
      forall i | 0 <= i < |a|
        ensures UpperChar(a[i]) == UpperChar(b[i])
      {
        LettersApart(a[i], b[i]);
      }
    }
    if Upper(a) == Upper(b) {
      assert |Upper(a)| == |Upper(b)|;
      forall i | 0 <= i < |a|
        ensures LowerChar(a[i]) == LowerChar(b[i])
      {
        assert Upper(a)[i] == Upper(b)[i];
        LettersApart(a[i], b[i]);
      }
      SameByChars(a, b);
    }
  }

  /* ---------- numbers and sets have no letters ---------- */

  lemma SamePart(a: string, b: string, i: nat, j: nat)
    requires Same(a, b) && i <= j <= |a|
    ensures |a| == |b| && Same(a[i..j], b[i..j])
  {
    SameAt(a, b);
    hide LowerChar, Lower, IsLetter;
    SameByChars(a[i..j], b[i..j]);
  }

  lemma SameTail(a: string, b: string, i: nat)
    requires Same(a, b) && i <= |a|
    ensures |a| == |b| && Same(a[i..], b[i..])
  {
    SamePart(a, b, i, |a|);
    assert a[i..|a|] == a[i..] && b[i..|b|] == b[i..];
  }

  lemma SameDigits(a: string, b: string)
    requires Same(a, b)
    ensures ParseUint(a) == ParseUint(b) && UidNum(a) == UidNum(b)
    ensures IsNumericSet(a) <==> IsNumericSet(b)
  {
    SameAt(a, b);
    hide Lower, LowerChar;
    assert AllDigits(a) ==> a == b;
    assert AllDigits(b) ==> a == b;
    assert a == "*" <==> b == "*" by {
      assert a == "*" ==> b[0] == '*';
      assert b == "*" ==> a[0] == '*';
    }
  }

  lemma SameIndex(a: string, b: string, c: char)
    requires Same(a, b) && !IsLetter(c)
    ensures IndexOf(a, c) == IndexOf(b, c)
  {
    SameAt(a, b);
    hide Lower, LowerChar;
    assert forall k :: 0 <= k < |a| ==> (a[k] == c <==> b[k] == c);
  }

  lemma SameRange(a: string, b: string)
    requires Same(a, b)
    ensures UidRange(a) == UidRange(b)
  {
    SameIndex(a, b, ':');
    SamePart(a, b, 0, |a|);
    hide Same, UidNum, IsLetter;
    var i := IndexOf(a, ':');
    SamePart(a, b, 0, i);
    SameDigits(a[..i], b[..i]);
    if i < |a| {
      SameTail(a, b, i + 1);
      SameDigits(a[i + 1..], b[i + 1..]);
    }
  }

  lemma {:induction false} SameSet(a: string, b: string)
    requires Same(a, b)
    ensures UidRanges(Split(a, ',')) == UidRanges(Split(b, ','))
    decreases |a|
  {
    SameIndex(a, b, ',');
    SamePart(a, b, 0, |a|);
    hide Same, UidRange, IsLetter;
    var i := IndexOf(a, ',');
    SamePart(a, b, 0, i);
    SameRange(a[..i], b[..i]);
    if i < |a| {
      SameTail(a, b, i + 1);
      SameSet(a[i + 1..], b[i + 1..]);
      hide UidRanges;
      FirstRangeReads(a[..i], Split(a[i + 1..], ','));
      FirstRangeReads(b[..i], Split(b[i + 1..], ','));
    } else {
      assert a[..i] == a && b[..i] == b;
      FirstRangeReads(a, []);
      FirstRangeReads(b, []);
      assert [a] + [] == [a] && [b] + [] == [b];
    }
  }

  /* ---------- keys and tokens that differ in case alone ---------- */

  predicate Alike(t: Token, u: Token) {
    match (t, u)
    case (Atom(a), Atom(b)) => Same(a, b)
    case (Quoted(a), Quoted(b)) => Same(a, b)
    case (Open, Open) => true
    case (Close, Close) => true
    case _ => false
  }

  predicate AllAlike(ts: Tokens, us: Tokens) {
    |ts| == |us| && forall i :: 0 <= i < |ts| ==> Alike(ts[i], us[i])
  }

  lemma AlikeRest(ts: Tokens, us: Tokens)
    requires AllAlike(ts, us) && ts != []
    ensures us != [] && Alike(ts[0], us[0]) && AllAlike(ts[1..], us[1..])
  {
    hide Alike;
  }

  /** The same key, but for the case of the letters in what it looks for. */
  predicate KeyAlike(k: Key, l: Key)
    decreases k
  {
    match k
    case Keyword(v) => l.Keyword? && Same(v, l.word)
    case Unkeyword(v) => l.Unkeyword? && Same(v, l.word)
    case Named(h, v) => l.Named? && l.name == h && Same(v, l.value)
    case Header(field, v) => l.Header? && Same(field, l.field) && Same(v, l.value)
    case Body(v) => l.Body? && Same(v, l.value)
    case Text(v) => l.Text? && Same(v, l.value)
    case Not(key) => l.Not? && KeyAlike(key, l.key)
    case Or(left, right) => l.Or? && KeyAlike(left, l.left) && KeyAlike(right, l.right)
    case Group(keys) => l.Group? && |l.keys| == |keys| && forall i :: 0 <= i < |keys| ==> KeyAlike(keys[i], l.keys[i])
    case _ => l == k
  }

  predicate KeysAlike(ks: seq<Key>, ls: seq<Key>) {
    |ks| == |ls| && forall i :: 0 <= i < |ks| ==> KeyAlike(ks[i], ls[i])
  }

  /** The same error, or keys alike with rests alike. */
  predicate ReadAlike(r: Reading<Key>, s: Reading<Key>) {
    if r.Err? then s == r
    else s.Ok? && KeyAlike(r.value.0, s.value.0) && AllAlike(r.value.1, s.value.1)
  }

  predicate AllReadAlike(r: Reading<seq<Key>>, s: Reading<seq<Key>>) {
    if r.Err? then s == r
    else s.Ok? && KeysAlike(r.value.0, s.value.0) && AllAlike(r.value.1, s.value.1)
  }

  predicate MaybeAlike(r: Option<Reading<Key>>, s: Option<Reading<Key>>) {
    if r.None? then s.None? else s.Some? && ReadAlike(r.value, s.value)
  }

  /** The names of months may be written in either case. */
  ghost predicate FoldsCase(read: DateReader) {
    forall a, b :: Same(a, b) ==> read(a) == read(b)
  }

  lemma ValuesAlike(ts: Tokens, us: Tokens)
    requires AllAlike(ts, us)
    ensures var r, s := ValueOf(ts), ValueOf(us);
            if r.Err? then s == r else s.Ok? && Same(r.value.0, s.value.0) && AllAlike(r.value.1, s.value.1)
  {
    hide Same;
    if ts != [] {
      AlikeRest(ts, us);
    }
  }

  lemma FlagKeysAlike(name: string, ts: Tokens, us: Tokens)
    requires AllAlike(ts, us)
    ensures MaybeAlike(FlagKeyOf(name, ts), FlagKeyOf(name, us))
  {
    ValuesAlike(ts, us);
    hide Same, AllAlike, ValueOf, FlagNamed, UnflagNamed;
  }

  lemma TextKeysAlike(name: string, ts: Tokens, us: Tokens)
    requires AllAlike(ts, us)
    ensures MaybeAlike(TextKeyOf(name, ts), TextKeyOf(name, us))
  {
    ValuesAlike(ts, us);
    hide Same, AllAlike, ValueOf, HeaderNamed;
    if ValueOf(ts).Ok? {
      ValuesAlike(ValueOf(ts).value.1, ValueOf(us).value.1);
    }
  }

  lemma BoundKeysAlike(name: string, ts: Tokens, us: Tokens, read: DateReader)
    requires AllAlike(ts, us) && FoldsCase(read)
    ensures MaybeAlike(BoundKeyOf(name, ts, read), BoundKeyOf(name, us, read))
  {
    BoundsAlike(ts, us, read);
    hide AllAlike, FoldsCase, DateOf, SizeOf, UidSetOf;
    if DateNamed(name).Some? {
      hide DateNamed;
      if DateOf(ts, read).Ok? {
        SameKeyAlike(Dated(DateNamed(name).value, DateOf(ts, read).value.0), DateOf(ts, read).value.1,
          DateOf(us, read).value.1);
      }
    } else if name == "LARGER" || name == "SMALLER" {
      hide DateNamed;
      if SizeOf(ts).Ok? {
        SameKeyAlike(Larger(SizeOf(ts).value.0), SizeOf(ts).value.1, SizeOf(us).value.1);
        SameKeyAlike(Smaller(SizeOf(ts).value.0), SizeOf(ts).value.1, SizeOf(us).value.1);
      }
    } else if name == "UID" {
      hide DateNamed;
      if UidSetOf(ts).Ok? {
        SameKeyAlike(Uids(UidSetOf(ts).value.0), UidSetOf(ts).value.1, UidSetOf(us).value.1);
      }
    } else {
      hide DateNamed;
    }
  }

  lemma SameKeyAlike(k: Key, ts: Tokens, us: Tokens)
    requires (k.Dated? || k.Larger? || k.Smaller? || k.Uids?) && AllAlike(ts, us)
    ensures ReadAlike(Ok((k, ts)), Ok((k, us)))
  {
  }

  lemma BoundsAlike(ts: Tokens, us: Tokens, read: DateReader)
    requires AllAlike(ts, us) && FoldsCase(read)
    ensures var r, s := DateOf(ts, read), DateOf(us, read);
            if r.Err? then s == r else s.Ok? && s.value.0 == r.value.0 && AllAlike(r.value.1, s.value.1)
    ensures var r, s := SizeOf(ts), SizeOf(us);
            if r.Err? then s == r else s.Ok? && s.value.0 == r.value.0 && AllAlike(r.value.1, s.value.1)
    ensures var r, s := UidSetOf(ts), UidSetOf(us);
            if r.Err? then s == r else s.Ok? && s.value.0 == r.value.0 && AllAlike(r.value.1, s.value.1)
  {
    ValuesAlike(ts, us);
    hide AllAlike, ValueOf, ParseUint, UidRanges, Split, Lower;
    if ValueOf(ts).Ok? {
      var a, b := ValueOf(ts).value.0, ValueOf(us).value.0;
      assert read(a) == read(b);
      SameDigits(a, b);
      SameSet(a, b);
    }
  }

  lemma LeavesAlike(name: string, ts: Tokens, us: Tokens, read: DateReader)
    requires AllAlike(ts, us) && FoldsCase(read)
    ensures MaybeAlike(LeafOf(name, ts, read), LeafOf(name, us, read))
  {
    FlagKeysAlike(name, ts, us);
    TextKeysAlike(name, ts, us);
    BoundKeysAlike(name, ts, us, read);
    hide FlagKeyOf, TextKeyOf, BoundKeyOf, ReadAlike;
  }

  lemma {:induction false} KeyReadAlike(ts: Tokens, us: Tokens, read: DateReader)
    requires AllAlike(ts, us) && FoldsCase(read)
    ensures ReadAlike(KeyOf(ts, read), KeyOf(us, read))
    decreases |ts|, 0
  {
    hide FoldsCase, ReadAlike, WordOf, GroupOf, Same;
    if ts != [] {
      AlikeRest(ts, us);
      match ts[0]
      case Open => GroupReadAlike(ts[1..], us[1..], read);
      case Atom(text) => WordReadAlike(text, us[0].text, ts[1..], us[1..], read);
      case _ => ErrorAlike(KeyOf(ts, read), KeyOf(us, read));
    } else {
      ErrorAlike(KeyOf(ts, read), KeyOf(us, read));
    }
  }

  lemma ErrorAlike(r: Reading<Key>, s: Reading<Key>)
    requires r.Err? && s == r
    ensures ReadAlike(r, s)
  {
  }

  lemma AllAlreadyAlike(ts: Tokens, us: Tokens)
    requires AllAlike(ts, us)
    ensures ReadAlike(Ok((All, ts)), Ok((All, us)))
  {
  }

  lemma NotAlike(r: Reading<Key>, s: Reading<Key>)
    requires r.Ok? && ReadAlike(r, s)
    ensures s.Ok? && AllAlike(r.value.1, s.value.1)
    ensures ReadAlike(Ok((Not(r.value.0), r.value.1)), Ok((Not(s.value.0), s.value.1)))
  {
  }

  lemma OrAlike(r: Reading<Key>, s: Reading<Key>, r': Reading<Key>, s': Reading<Key>)
    requires r.Ok? && ReadAlike(r, s) && r'.Ok? && ReadAlike(r', s')
    ensures s.Ok? && s'.Ok?
    ensures ReadAlike(Ok((Or(r.value.0, r'.value.0), r'.value.1)), Ok((Or(s.value.0, s'.value.0), s'.value.1)))
  {
  }

  lemma {:induction false} WordReadAlike(a: string, b: string, ts: Tokens, us: Tokens, read: DateReader)
    requires Same(a, b) && AllAlike(ts, us) && FoldsCase(read)
    ensures ReadAlike(WordOf(a, ts, read), WordOf(b, us, read))
    decreases |ts|, 2
  {
    SameCapitals(a, b);
    SameDigits(a, b);
    var name := Upper(a);
    LeavesAlike(name, ts, us, read);
    hide FoldsCase, ReadAlike, LeafOf, KeyOf, Upper, IsNumericSet, Same, AllAlike;
    if LeafOf(name, ts, read).Some? {
    } else if name == "ALL" {
      AllAlreadyAlike(ts, us);
    } else if name == "NOT" || name == "OR" {
      KeyReadAlike(ts, us, read);
      var r, s := KeyOf(ts, read), KeyOf(us, read);
      if r.Err? {
        ErrorIsSame(r, s);
      } else {
        NotAlike(r, s);
        if name == "OR" {
          KeyReadAlike(r.value.1, s.value.1, read);
          var r', s' := KeyOf(r.value.1, read), KeyOf(s.value.1, read);
          if r'.Err? {
            ErrorIsSame(r', s');
          } else {
            OrAlike(r, s, r', s');
          }
        }
      }
    } else {
      ErrorAlike(WordOf(a, ts, read), WordOf(b, us, read));
    }
  }

  lemma ErrorIsSame(r: Reading<Key>, s: Reading<Key>)
    requires r.Err? && ReadAlike(r, s)
    ensures s == r && ReadAlike(r, r)
  {
  }

  lemma {:induction false} GroupReadAlike(ts: Tokens, us: Tokens, read: DateReader)
    requires AllAlike(ts, us) && FoldsCase(read)
    ensures ReadAlike(GroupOf(ts, read), GroupOf(us, read))
    decreases |ts|, 2
  {
    KeysReadAlike(ts, us, read);
    var r, s := KeysOf(ts, read), KeysOf(us, read);
    hide FoldsCase, KeysOf, KeyAlike, Alike;
    if r.Ok? && r.value.1 != [] {
      AlikeRest(r.value.1, s.value.1);
      GroupAlike(r.value.0, s.value.0);
    }
  }

  lemma GroupAlike(ks: seq<Key>, ls: seq<Key>)
    requires KeysAlike(ks, ls)
    ensures KeyAlike(Group(ks), Group(ls))
  {
  }

  lemma {:induction false} KeysReadAlike(ts: Tokens, us: Tokens, read: DateReader)
    requires AllAlike(ts, us) && FoldsCase(read)
    ensures AllReadAlike(KeysOf(ts, read), KeysOf(us, read))
    decreases |ts|, 1
  {
    hide FoldsCase, KeyOf, KeyAlike, Same;
    if ts != [] {
      AlikeRest(ts, us);
      if !ts[0].Close? {
        KeyReadAlike(ts, us, read);
        var r, s := KeyOf(ts, read), KeyOf(us, read);
        if r.Ok? {
          KeysReadAlike(r.value.1, s.value.1, read);
        }
      }
    }
  }

  /**
   Reading does not depend on the case of a word: a row of tokens and the same row
   in other letters are refused for the same reason, or read as the same keys but for
   the letters of what they look for, leaving the same rests but for theirs.
   */
  lemma ReadingIgnoresCase(ts: Tokens, us: Tokens, read: DateReader)
    requires AllAlike(ts, us) && FoldsCase(read)
    ensures ReadAlike(KeyOf(ts, read), KeyOf(us, read)) && AllReadAlike(KeysOf(ts, read), KeysOf(us, read))
  {
    KeyReadAlike(ts, us, read);
    KeysReadAlike(ts, us, read);
  }

  /** A word alone, whatever follows it, reads as the same key in any case. */
  lemma WordReadsInAnyCase(a: string, b: string, ts: Tokens, read: DateReader)
    requires Same(a, b)
    ensures WordOf(a, ts, read) == WordOf(b, ts, read)
  {
    SameCapitals(a, b);
    SameDigits(a, b);
    hide LeafOf, KeyOf, Upper, IsNumericSet, Same;
  }

  /* ---------- a whole search ---------- */

  predicate TextAlike(r: Result<(string, string), Error>, s: Result<(string, string), Error>) {
    if r.Err? then s == r else s.Ok? && Same(r.value.0, s.value.0) && Same(r.value.1, s.value.1)
  }

  lemma CharAlike(c: char, d: char, r: Result<(string, string), Error>, s: Result<(string, string), Error>)
    requires LowerChar(c) == LowerChar(d) && TextAlike(r, s)
    ensures TextAlike(WithChar(c, r), WithChar(d, s))
  {
    if r.Ok? {
      var a, b := r.value.0, s.value.0;
      SameAt(a, b);
      hide Lower, LowerChar;
      SameByChars([c] + a, [d] + b);
    }
  }

  lemma {:induction false} QuotedAlike(s: string, t: string)
    requires Same(s, t)
    ensures TextAlike(QuotedText(s), QuotedText(t))
  {
    SameAt(s, t);
    hide Same, LowerChar, TextAlike, WithChar;
    if s == "" {
      SameFailure(Unterminated);
    } else if s[0] == '"' {
      SameTail(s, t, 1);
      assert TextAlike(QuotedText(s), QuotedText(t)) by {
        NothingQuoted(s[1..], t[1..]);
      }
    } else if s[0] == '\\' {
      if |s| == 1 {
        SameFailure(DanglingEscape);
      } else {
        SameTail(s, t, 2);
        QuotedAlike(s[2..], t[2..]);
        CharAlike(s[1], t[1], QuotedText(s[2..]), QuotedText(t[2..]));
      }
    } else {
      SameTail(s, t, 1);
      QuotedAlike(s[1..], t[1..]);
      CharAlike(s[0], t[0], QuotedText(s[1..]), QuotedText(t[1..]));
    }
  }

  lemma SameFailure(error: Error)
    ensures TextAlike(Err(error), Err(error))
  {
  }

  lemma NothingQuoted(s: string, t: string)
    requires Same(s, t)
    ensures TextAlike(Ok(("", s)), Ok(("", t)))
  {
  }

  lemma SameAtomLength(s: string, t: string)
    requires Same(s, t)
    ensures AtomLength(s) == AtomLength(t)
  {
    SameAt(s, t);
    hide Lower, LowerChar;
    assert forall k :: 0 <= k < |s| ==> (EndsAtom(s[k]) <==> EndsAtom(t[k]));
    hide EndsAtom;
  }

  predicate LexedAlike(r: Result<Tokens, Error>, s: Result<Tokens, Error>) {
    if r.Err? then s == r else s.Ok? && AllAlike(r.value, s.value)
  }

  lemma TokenAlike(t: Token, u: Token, r: Result<Tokens, Error>, s: Result<Tokens, Error>)
    requires Alike(t, u) && LexedAlike(r, s)
    ensures LexedAlike(WithTokens([t], r), WithTokens([u], s))
  {
    if r.Ok? {
      OneMoreAlike(t, u, r.value, s.value);
      hide AllAlike, Alike;
    }
  }

  lemma OneMoreAlike(t: Token, u: Token, ts: Tokens, us: Tokens)
    requires Alike(t, u) && AllAlike(ts, us)
    ensures AllAlike([t] + ts, [u] + us)
  {
    hide Alike;
  }

  lemma {:induction false} LexesAlike(s: string, t: string)
    requires Same(s, t)
    ensures LexedAlike(Lexed(s), Lexed(t))
    decreases |s|
  {
    SameAt(s, t);
    hide Same, LowerChar, LexedAlike, WithTokens, QuotedText, AtomLength, AllAlike;
    if s == "" {
      assert LexedAlike(Lexed(s), Lexed(t)) by {
        NothingLexed();
      }
    } else {
      SameTail(s, t, 1);
      if Blank(s[0]) {
        LexesAlike(s[1..], t[1..]);
      } else if s[0] == '(' {
        LexesAlike(s[1..], t[1..]);
        TokenAlike(Open, Open, Lexed(s[1..]), Lexed(t[1..]));
      } else if s[0] == ')' {
        LexesAlike(s[1..], t[1..]);
        TokenAlike(Close, Close, Lexed(s[1..]), Lexed(t[1..]));
      } else if s[0] == '"' {
        QuotedAlike(s[1..], t[1..]);
        QuotedMeans(QuotedText(s[1..]), QuotedText(t[1..]));
        if QuotedText(s[1..]).Ok? {
          var q, p := QuotedText(s[1..]).value, QuotedText(t[1..]).value;
          LexesAlike(q.1, p.1);
          TokenAlike(Quoted(q.0), Quoted(p.0), Lexed(q.1), Lexed(p.1));
        } else {
          SameLexFailure(QuotedText(s[1..]).error);
        }
      } else if s[0] == '{' {
        SameLexFailure(Literal);
      } else {
        AtomLexesAlike(s, t);
      }
    }
  }

  lemma {:induction false} AtomLexesAlike(s: string, t: string)
    requires Same(s, t) && s != "" && !Blank(s[0]) && s[0] != '(' && s[0] != ')' && s[0] != '"' && s[0] != '{'
    ensures LexedAlike(Lexed(s), Lexed(t))
    decreases |s|, 0
  {
    SameAt(s, t);
    hide Same, LowerChar, LexedAlike, WithTokens;
    SameAtomLength(s, t);
    var n := AtomLength(s);
    hide AtomLength;
    SamePart(s, t, 0, n);
    SameTail(s, t, n);
    assert n > 0;
    LexesAlike(s[n..], t[n..]);
    TokenAlike(Atom(s[..n]), Atom(t[..n]), Lexed(s[n..]), Lexed(t[n..]));
  }

  lemma QuotedMeans(r: Result<(string, string), Error>, s: Result<(string, string), Error>)
    requires TextAlike(r, s)
    ensures r.Err? ==> s == r
    ensures r.Ok? ==> s.Ok? && Same(r.value.0, s.value.0) && Same(r.value.1, s.value.1)
  {
  }

  lemma NothingLexed()
    ensures LexedAlike(Ok([]), Ok([]))
  {
  }

  lemma SameLexFailure(error: Error)
    ensures LexedAlike(Err(error), Err(error))
  {
  }

  /**
   A search typed in other letters is refused for the same reason, or read as the
   same keys but for the letters of what they look for.
   */
  lemma SearchIgnoresCase(s: string, t: string, read: DateReader)
    requires Same(s, t) && FoldsCase(read)
    ensures var r, q := SearchOf(s, read), SearchOf(t, read);
            if r.Err? then q == r else q.Ok? && KeysAlike(r.value, q.value)
  {
    LexesAlike(s, t);
    hide FoldsCase, Lexed, KeysOf, KeyAlike, Alike, Same;
    if Lexed(s).Ok? {
      KeysReadAlike(Lexed(s).value, Lexed(t).value, read);
    }
  }

  /** What is looked for in a message is found whatever its case, as servers look for it. */
  ghost predicate LooksInAnyCase(f: C.Content) {
    (forall n, v, n', v' :: Same(n, n') && Same(v, v') ==> f.headerHas(n, v) == f.headerHas(n', v')) &&
    (forall v, v' :: Same(v, v') ==> f.bodyHas(v) == f.bodyHas(v') && f.textHas(v) == f.textHas(v'))
  }

  lemma {:induction false} AlikeMeansSame(k: Key, l: Key, m: C.Candidate, f: C.Content, top: nat)
    requires KeyAlike(k, l) && LooksInAnyCase(f)
    ensures Denotes(k, m, f, top) <==> Denotes(l, m, f, top)
    decreases k
  {
    match k
    case Not(key) => AlikeMeansSame(key, l.key, m, f, top);
    case Or(left, right) => AlikeMeansSame(left, l.left, m, f, top); AlikeMeansSame(right, l.right, m, f, top);
    case Group(keys) =>
      forall i | 0 <= i < |keys|
        ensures Denotes(keys[i], m, f, top) <==> Denotes(l.keys[i], m, f, top)
      {
        AlikeMeansSame(keys[i], l.keys[i], m, f, top);
      }
    case _ => LeafMeansSame(k, l, m, f, top);
  }

  lemma LeafMeansSame(k: Key, l: Key, m: C.Candidate, f: C.Content, top: nat)
    requires IsLeaf(k) && KeyAlike(k, l) && LooksInAnyCase(f)
    ensures Denotes(k, m, f, top) <==> Denotes(l, m, f, top)
  {
    hide Lower, RangeMeans;
  }

  /** So it selects the same messages. */
  lemma SearchMeansTheSameInAnyCase(s: string, t: string, read: DateReader, m: C.Candidate, f: C.Content, top: nat)
    requires Same(s, t) && FoldsCase(read) && LooksInAnyCase(f)
    ensures SearchOf(s, read).Ok? <==> SearchOf(t, read).Ok?
    ensures SearchOf(s, read).Ok? ==>
              (AllDenote(SearchOf(s, read).value, m, f, top) <==> AllDenote(SearchOf(t, read).value, m, f, top))
  {
    SearchIgnoresCase(s, t, read);
    hide SearchOf, FoldsCase, LooksInAnyCase, Denotes, KeyAlike, Same;
    if SearchOf(s, read).Ok? {
      var ks, ls := SearchOf(s, read).value, SearchOf(t, read).value;
      forall i | 0 <= i < |ks|
        ensures Denotes(ks[i], m, f, top) <==> Denotes(ls[i], m, f, top)
      {
        AlikeMeansSame(ks[i], ls[i], m, f, top);
      }
    }
  }

  /* ---------- printed searches ---------- */

  /** The same tokens, but for the case of the words. */
  predicate Recased(ts: Tokens, us: Tokens) {
    |ts| == |us| &&
    forall i :: 0 <= i < |ts| ==>
      if ts[i].Atom? then us[i].Atom? && Same(ts[i].text, us[i].text) else us[i] == ts[i]
  }

  lemma RecasedPart(ts: Tokens, us: Tokens, n: nat)
    requires n <= |ts| && Recased(ts, us)
    ensures Recased(ts[..n], us[..n]) && Recased(ts[n..], us[n..]) && us == us[..n] + us[n..]
  {
    hide Same;
  }

  /** A word in front of tokens that read as a key reads as that key in any case. */
  lemma RewordedReads(a: string, b: string, ts: Tokens, k: Key, rest: Tokens, read: DateReader)
    requires Same(a, b) && ReadsAs([Atom(a)] + ts, k, rest, read)
    ensures ReadsAs([Atom(b)] + ts, k, rest, read)
  {
    hide KeyOf, WordOf, Same;
    WordReadsInAnyCase(a, b, ts + rest, read);
    AtomStartsKey(a, ts + rest, read);
    AtomStartsKey(b, ts + rest, read);
    assert [Atom(a)] + ts + rest == [Atom(a)] + (ts + rest);
    assert [Atom(b)] + ts + rest == [Atom(b)] + (ts + rest);
  }

  /** A row that starts with a word, in other letters. */
  lemma RecasedWord(a: string, ts: Tokens, us: Tokens) returns (b: string, vs: Tokens)
    requires Recased([Atom(a)] + ts, us)
    ensures us == [Atom(b)] + vs && Same(a, b) && Recased(ts, vs)
  {
    RecasedPart([Atom(a)] + ts, us, 1);
    assert ([Atom(a)] + ts)[1..] == ts;
    hide Same;
    b, vs := us[0].text, us[1..];
  }

  lemma RecasedTwo(ts: Tokens, ts': Tokens, us: Tokens) returns (vs: Tokens, vs': Tokens)
    requires Recased(ts + ts', us)
    ensures us == vs + vs' && Recased(ts, vs) && Recased(ts', vs')
  {
    RecasedPart(ts + ts', us, |ts|);
    assert (ts + ts')[..|ts|] == ts && (ts + ts')[|ts|..] == ts';
    vs, vs' := us[..|ts|], us[|ts|..];
  }

  lemma RecasedGroup(ts: Tokens, us: Tokens) returns (vs: Tokens)
    requires Recased([Open] + ts + [Close], us)
    ensures us == [Open] + vs + [Close] && Recased(ts, vs)
  {
    var open, close;
    vs, close := RecasedTwo([Open] + ts, [Close], us);
    open, vs := RecasedTwo([Open], ts, vs);
    hide Same;
    assert open == [Open] && close == [Close];
  }

  lemma ValuesAreQuoted(k: Key, us: Tokens, show: int -> string)
    requires IsLeaf(k) && (k.Uids? ==> k.ranges != []) && Recased(LeafValues(k, show), us)
    ensures us == LeafValues(k, show)
  {
    hide Same;
    assert forall i :: 0 <= i < |LeafValues(k, show)| ==> LeafValues(k, show)[i].Quoted?;
  }

  /** A printed key reads back however its words are written. */
  lemma {:induction false} KeyReadsBackInAnyCase(k: Key, us: Tokens, rest: Tokens, read: DateReader,
      show: int -> string)
    requires Writable(k, read, show) && Recased(TokensOf(k, read, show), us)
    ensures ReadsAs(us, k, rest, read)
    decreases k
  {
    hide ReadsAs, KeysReadAs, LeafWord, LeafValues, Recased, Same;
    match k
    case Not(key) =>
      var b, vs := RecasedWord("NOT", TokensOf(key, read, show), us);
      KeyReadsBackInAnyCase(key, vs, rest, read, show);
      NotTokensRead(vs, key, rest, read);
      RewordedReads("NOT", b, vs, k, rest, read);
    case Or(left, right) =>
      var first, vs' := RecasedTwo([Atom("OR")] + TokensOf(left, read, show), TokensOf(right, read, show), us);
      var b, vs := RecasedWord("OR", TokensOf(left, read, show), first);
      KeyReadsBackInAnyCase(left, vs, vs' + rest, read, show);
      KeyReadsBackInAnyCase(right, vs', rest, read, show);
      OrTokensRead(vs, vs', left, right, rest, read);
      assert [Atom("OR")] + vs + vs' == [Atom("OR")] + (vs + vs');
      RewordedReads("OR", b, vs + vs', k, rest, read);
      assert [Atom(b)] + vs + vs' == [Atom(b)] + (vs + vs');
    case Group(keys) =>
      var vs := RecasedGroup(TokensOfAll(keys, read, show), us);
      KeysReadBackInAnyCase(keys, vs, [Close] + rest, read, show);
      GroupTokensRead(vs, keys, rest, read);
    case _ =>
      var b, vs := RecasedWord(LeafWord(k), LeafValues(k, show), us);
      ValuesAreQuoted(k, vs, show);
      LeafTokensRead(k, rest, read, show);
      RewordedReads(LeafWord(k), b, vs, k, rest, read);
  }

  lemma StartsAsBefore(k: Key, us: Tokens, read: DateReader, show: int -> string)
    requires Writable(k, read, show) && Recased(TokensOf(k, read, show), us)
    ensures us != [] && !us[0].Close?
  {
    KeyStarts(k, read, show);
    hide TokensOf, Same;
  }

  lemma {:induction false} KeysReadBackInAnyCase(ks: seq<Key>, us: Tokens, rest: Tokens, read: DateReader,
      show: int -> string)
    requires AllWritable(ks, read, show) && Recased(TokensOfAll(ks, read, show), us)
    requires rest == [] || rest[0].Close?
    ensures KeysReadAs(us, ks, rest, read)
    decreases ks
  {
    hide KeysReadAs, ReadsAs, TokensOf, Writable, Same;
    if ks == [] {
      NoTokensRead(rest, read);
      assert us == [];
    } else {
      hide Recased;
      var vs, vs' := RecasedTwo(TokensOf(ks[0], read, show), TokensOfAll(ks[1..], read, show), us);
      KeyReadsBackInAnyCase(ks[0], vs, vs' + rest, read, show);
      KeysReadBackInAnyCase(ks[1..], vs', rest, read, show);
      StartsAsBefore(ks[0], vs, read, show);
      MoreTokensRead(vs, vs', ks[0], ks[1..], rest, read);
      assert [ks[0]] + ks[1..] == ks;
    }
  }

  lemma RecasedIsPrintable(ts: Tokens, us: Tokens)
    requires Recased(ts, us) && forall i :: 0 <= i < |ts| ==> Printable(ts[i])
    ensures forall i :: 0 <= i < |us| ==> Printable(us[i])
  {
    forall i | 0 <= i < |us|
      ensures Printable(us[i])
    {
      if ts[i].Atom? {
        SameAt(ts[i].text, us[i].text);
        hide Lower, LowerChar;
      }
    }
  }

  /**
   Every search that can be written is read back as its tree, in capitals, small
   letters or both, with any blanks between its tokens.
   */
  lemma SearchReadsBackInAnyCase(ks: seq<Key>, us: Tokens, gaps: seq<string>, read: DateReader, show: int -> string)
    requires ks != [] && AllWritable(ks, read, show) && Recased(TokensOfAll(ks, read, show), us) && Apart(us, gaps)
    ensures SearchOf(Spaced(us, gaps), read) == Ok(ks)
  {
    hide Lexed, TokensOfAll, Spaced, Printable, Recased;
    KeysArePrintable(ks, read, show);
    RecasedIsPrintable(TokensOfAll(ks, read, show), us);
    LexInvertsSpacing(us, gaps);
    KeysReadBackInAnyCase(ks, us, [], read, show);
    assert us + [] == us;
  }
}
