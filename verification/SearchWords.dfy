/**
 The words of a search, as section 6.4.4 of RFC 3501 lists them: what each reads,
 in whatever case it is written, and what it asks of a message.
 */
module SearchWords {
  import opened Wrappers
  import opened SearchLexer
  import C = SearchCriteria
  import opened SearchMeaning
  import opened SearchGrammar
  import opened SearchCase
  import opened Text

  /**
   The word, with as many values after it, reads as a key that is true of the
   message exactly if `truth`.
   */
  predicate Asks(text: string, values: nat, ts: Tokens, read: DateReader, m: C.Candidate, f: C.Content, top: nat,
      truth: bool) {
    var r := WordOf(text, ts, read);
    values <= |ts| && r.Ok? && r.value.1 == ts[values..] && (Denotes(r.value.0, m, f, top) <==> truth)
  }

  /** A token that can be a value. */
  predicate IsValue(t: Token) { t.Atom? || t.Quoted? }

  lemma OneValue(ts: Tokens)
    requires ts != [] && IsValue(ts[0])
    ensures ValueOf(ts) == Ok((ts[0].text, ts[1..]))
  {
  }

  /** However it is written, a word is read as it is in capitals. */
  lemma WrittenAnyhow(text: string, word: string)
    requires Lower(text) == Lower(word) && Capitals(word)
    ensures Upper(text) == word
  {
    SameCapitals(text, word);
    CapitalsStay(word);
  }

  /* ---------- flags ---------- */

  function FlagName(flag: SystemFlag): string {
    match flag
    case Answered => "answered"
    case Deleted => "deleted"
    case Draft => "draft"
    case Flagged => "flagged"
    case Seen => "seen"
  }

  /** The message carries a flag of this name, in whatever case. */
  predicate Bears(m: C.Candidate, flag: string) {
    exists i :: 0 <= i < |m.flags| && Lower(m.flags[i]) == flag
  }

  lemma FlagWordsAre(flag: SystemFlag)
    ensures FlagNamed(FlagWord(flag)) == Some(flag)
    ensures UnflagNamed(UnflagWord(flag)) == Some(flag) && FlagNamed(UnflagWord(flag)) == None
  {
  }

  lemma SmallFlagWords(flag: SystemFlag)
    ensures Lower(FlagWord(flag)) == FlagName(flag)
    ensures Lower(FlagText(flag)) == "\\" + FlagName(flag)
  {
  }

  lemma SmallUnflagWords(flag: SystemFlag)
    ensures Lower(UnflagWord(flag)) == "un" + FlagName(flag)
  {
  }

  /**
   ANSWERED, DELETED, DRAFT, FLAGGED and SEEN ask for the flag that is named so after
   a backslash, and with UN in front for its absence.
   */
  lemma FlagWordsAsk(flag: SystemFlag, text: string, ts: Tokens, read: DateReader, m: C.Candidate, f: C.Content,
      top: nat)
    ensures Lower(text) == FlagName(flag) ==> Asks(text, 0, ts, read, m, f, top, Bears(m, "\\" + FlagName(flag)))
    ensures Lower(text) == "un" + FlagName(flag) ==>
              Asks(text, 0, ts, read, m, f, top, !Bears(m, "\\" + FlagName(flag)))
  {
    FlagWordsAre(flag);
    SmallFlagWords(flag);
    SmallUnflagWords(flag);
    FlagWordIsCapitals(flag);
    hide Lower, Upper, FlagWord, UnflagWord, FlagName, FlagText, FlagNamed, UnflagNamed, TextKeyOf, BoundKeyOf;
    if Lower(text) == FlagName(flag) {
      WrittenAnyhow(text, FlagWord(flag));
      assert WordOf(text, ts, read) == Ok((Is(flag), ts));
    }
    if Lower(text) == "un" + FlagName(flag) {
      WrittenAnyhow(text, UnflagWord(flag));
      assert WordOf(text, ts, read) == Ok((IsNot(flag), ts));
    }
  }

  lemma KeywordCapitals()
    ensures Lower("KEYWORD") == "keyword" && Capitals("KEYWORD")
    ensures Lower("UNKEYWORD") == "unkeyword" && Capitals("UNKEYWORD")
  {
  }

  /** KEYWORD and UNKEYWORD ask for any other flag, or its absence. */
  lemma KeywordAsks(text: string, ts: Tokens, read: DateReader, m: C.Candidate, f: C.Content, top: nat)
    requires ts != [] && IsValue(ts[0])
    ensures Lower(text) == "keyword" ==> Asks(text, 1, ts, read, m, f, top, Bears(m, Lower(ts[0].text)))
    ensures Lower(text) == "unkeyword" ==> Asks(text, 1, ts, read, m, f, top, !Bears(m, Lower(ts[0].text)))
  {
    KeywordCapitals();
    hide Lower, Upper, TextKeyOf, BoundKeyOf, Capitals;
    if Lower(text) == "keyword" {
      WrittenAnyhow(text, "KEYWORD");
      assert WordOf(text, ts, read) == Ok((Keyword(ts[0].text), ts[1..]));
    }
    if Lower(text) == "unkeyword" {
      WrittenAnyhow(text, "UNKEYWORD");
      assert WordOf(text, ts, read) == Ok((Unkeyword(ts[0].text), ts[1..]));
    }
  }

  /* ---------- headers and text ---------- */

  function FieldName(h: HeaderName): string {
    match h
    case Bcc => "bcc"
    case Cc => "cc"
    case From => "from"
    case Subject => "subject"
    case To => "to"
  }

  lemma FieldWordsAre(h: HeaderName)
    ensures Lower(HeaderText(h)) == FieldName(h) && Capitals(HeaderText(h)) && HeaderNamed(HeaderText(h)) == Some(h)
  {
  }

  lemma HeaderIsNoFlag(h: HeaderName, ts: Tokens)
    ensures FlagKeyOf(HeaderText(h), ts) == None
  {
  }

  /** BCC, CC, FROM, SUBJECT and TO ask for the value in the header field of that name. */
  lemma FieldWordsAsk(h: HeaderName, text: string, ts: Tokens, read: DateReader, m: C.Candidate, f: C.Content,
      top: nat)
    requires ts != [] && IsValue(ts[0]) && Lower(text) == FieldName(h)
    ensures exists field :: Lower(field) == FieldName(h) && Asks(text, 1, ts, read, m, f, top,
              f.headerHas(field, ts[0].text))
  {
    FieldWordsAre(h);
    HeaderIsNoFlag(h, ts);
    OneValue(ts);
    hide Lower, Upper, FlagKeyOf, BoundKeyOf, HeaderText, FieldName, HeaderNamed, Capitals, ValueOf;
    WrittenAnyhow(text, HeaderText(h));
    assert WordOf(text, ts, read) == Ok((Named(h, ts[0].text), ts[1..]));
    assert Asks(text, 1, ts, read, m, f, top, f.headerHas(HeaderText(h), ts[0].text));
  }

  lemma TextCapitals()
    ensures Lower("HEADER") == "header" && Capitals("HEADER")
    ensures Lower("BODY") == "body" && Capitals("BODY") && Lower("TEXT") == "text" && Capitals("TEXT")
  {
  }

  /** HEADER asks for the second value in the field the first one names; BODY and TEXT for the value there. */
  lemma TextWordsAsk(text: string, ts: Tokens, read: DateReader, m: C.Candidate, f: C.Content, top: nat)
    requires ts != [] && IsValue(ts[0])
    ensures Lower(text) == "header" && |ts| > 1 && IsValue(ts[1]) ==>
              Asks(text, 2, ts, read, m, f, top, f.headerHas(ts[0].text, ts[1].text))
    ensures Lower(text) == "body" ==> Asks(text, 1, ts, read, m, f, top, f.bodyHas(ts[0].text))
    ensures Lower(text) == "text" ==> Asks(text, 1, ts, read, m, f, top, f.textHas(ts[0].text))
  {
    TextCapitals();
    OneValue(ts);
    hide Lower, Upper, BoundKeyOf, Capitals, ValueOf;
    if Lower(text) == "header" && |ts| > 1 && IsValue(ts[1]) {
      WrittenAnyhow(text, "HEADER");
      OneValue(ts[1..]);
      assert ts[1..][1..] == ts[2..];
      assert WordOf(text, ts, read) == Ok((Header(ts[0].text, ts[1].text), ts[2..]));
    }
    if Lower(text) == "body" {
      WrittenAnyhow(text, "BODY");
      assert WordOf(text, ts, read) == Ok((Body(ts[0].text), ts[1..]));
    }
    if Lower(text) == "text" {
      WrittenAnyhow(text, "TEXT");
      assert WordOf(text, ts, read) == Ok((Key.Text(ts[0].text), ts[1..]));
    }
  }

  /* ---------- dates, sizes and UIDs ---------- */

  function DateName(op: DateOp): string {
    match op
    case Since => "since"
    case Before => "before"
    case On => "on"
    case SentSince => "sentsince"
    case SentBefore => "sentbefore"
    case SentOn => "senton"
  }

  lemma DateWordsAre(op: DateOp)
    ensures Lower(DateWord(op)) == DateName(op)
  {
  }

  lemma DateIsNoOther(op: DateOp, ts: Tokens)
    ensures FlagKeyOf(DateWord(op), ts) == None && TextKeyOf(DateWord(op), ts) == None
  {
  }

  /** SINCE, BEFORE and ON ask for the day the message arrived, those with SENT in front for the day it was sent. */
  lemma DateWordsAsk(op: DateOp, text: string, ts: Tokens, read: DateReader, m: C.Candidate, f: C.Content, top: nat)
    requires ts != [] && IsValue(ts[0]) && read(ts[0].text).Some? && Lower(text) == DateName(op)
    ensures var day, d := if op.Since? || op.Before? || op.On? then m.arrived.day else f.sent.day,
                          read(ts[0].text).value;
            Asks(text, 1, ts, read, m, f, top,
              if op.Since? || op.SentSince? then day >= d else if op.Before? || op.SentBefore? then day < d
                else day == d)
  {
    DateWordsAre(op);
    DateWordIsCapitals(op);
    DateNameReadsBack(op);
    DateIsNoOther(op, ts);
    OneValue(ts);
    hide Lower, Upper, FlagKeyOf, TextKeyOf, DateWord, DateName, DateNamed, Capitals, ValueOf;
    WrittenAnyhow(text, DateWord(op));
    assert WordOf(text, ts, read) == Ok((Dated(op, read(ts[0].text).value), ts[1..]));
  }

  lemma BoundCapitals()
    ensures Lower("LARGER") == "larger" && Capitals("LARGER")
    ensures Lower("SMALLER") == "smaller" && Capitals("SMALLER") && Lower("UID") == "uid" && Capitals("UID")
  {
  }

  /** A size can be read exactly when it is a number between 1 and 2^32 - 1. */
  predicate IsSize(ts: Tokens) {
    ts != [] && IsValue(ts[0]) && ts[0].text != "" && AllDigits(ts[0].text) &&
    1 <= Decimal(ts[0].text) <= 4_294_967_295
  }

  lemma SizeRead(ts: Tokens)
    ensures SizeOf(ts).Ok? <==> IsSize(ts)
    ensures IsSize(ts) ==> SizeOf(ts) == Ok((Decimal(ts[0].text), ts[1..]))
  {
    hide Decimal;
  }

  /** LARGER and SMALLER ask for a size beyond or below a number, and are refused if it is not one. */
  lemma SizeWordsAsk(text: string, ts: Tokens, read: DateReader, m: C.Candidate, f: C.Content, top: nat)
    requires Lower(text) == "larger" || Lower(text) == "smaller"
    ensures WordOf(text, ts, read).Ok? <==> IsSize(ts)
    ensures IsSize(ts) ==>
              Asks(text, 1, ts, read, m, f, top,
                if Lower(text) == "larger" then m.size > Decimal(ts[0].text) else m.size < Decimal(ts[0].text))
  {
    SizeRead(ts);
    SizeWordRead(text, ts, read);
    hide Lower, IsSize, SizeOf, WordOf, Decimal;
    if IsSize(ts) {
      assert ts != [] by {
        assert SizeOf(ts).Ok?;
      }
    }
  }

  lemma SizeWordRead(text: string, ts: Tokens, read: DateReader)
    requires Lower(text) == "larger" || Lower(text) == "smaller"
    ensures var n := SizeOf(ts);
            WordOf(text, ts, read) ==
            if n.Err? then Err(n.error)
            else Ok((if Lower(text) == "larger" then Larger(n.value.0) else Smaller(n.value.0), n.value.1))
  {
    BoundCapitals();
    SizeBounds(ts, read);
    hide Lower, Upper, Capitals, SizeOf, FlagKeyOf, TextKeyOf, BoundKeyOf, WordOf;
    if Lower(text) == "larger" {
      BoundIsNoFlagOrText(Larger(1), ts);
      WrittenAnyhow(text, "LARGER");
      BoundRead(text, "LARGER", ts, read);
    } else {
      BoundIsNoFlagOrText(Smaller(1), ts);
      WrittenAnyhow(text, "SMALLER");
      BoundRead(text, "SMALLER", ts, read);
    }
  }

  lemma SizeBounds(ts: Tokens, read: DateReader)
    ensures var n := SizeOf(ts);
            BoundKeyOf("LARGER", ts, read) ==
            Some(if n.Err? then Err(n.error) else Ok((Larger(n.value.0), n.value.1)))
    ensures var n := SizeOf(ts);
            BoundKeyOf("SMALLER", ts, read) ==
            Some(if n.Err? then Err(n.error) else Ok((Smaller(n.value.0), n.value.1)))
  {
    hide SizeOf;
  }

  lemma BoundRead(text: string, word: string, ts: Tokens, read: DateReader)
    requires Upper(text) == word && FlagKeyOf(word, ts) == None && TextKeyOf(word, ts) == None
    requires BoundKeyOf(word, ts, read).Some?
    ensures WordOf(text, ts, read) == BoundKeyOf(word, ts, read).value
  {
    hide Upper, FlagKeyOf, TextKeyOf, BoundKeyOf;
  }

  /** A UID: a star, or a number between 1 and 2^32 - 1. */
  predicate IsUid(s: string) { s == "*" || (s != "" && AllDigits(s) && 1 <= Decimal(s) <= 4_294_967_295) }

  /** The UID that is written; the star stands for the highest there is. */
  function Uid(s: string, top: nat): nat
    requires IsUid(s)
  {
    if s == "*" then top else Decimal(s)
  }

  /** One part of a set: a UID, or two with a colon between them. */
  predicate IsRange(part: string) {
    IsUid(part) || exists i :: 0 <= i < |part| && part[i] == ':' && IsUid(part[..i]) && IsUid(part[i + 1..])
  }

  /** The number is the one the part is, or lies between its two, whichever comes first. */
  predicate Holds(part: string, n: nat, top: nat) {
    (IsUid(part) && n == Uid(part, top)) ||
    exists i :: 0 <= i < |part| && part[i] == ':' && IsUid(part[..i]) && IsUid(part[i + 1..]) &&
      var a, b := Uid(part[..i], top), Uid(part[i + 1..], top); a <= n <= b || b <= n <= a
  }

  lemma UidRead(s: string, top: nat)
    ensures UidNum(s).Some? <==> IsUid(s)
    ensures IsUid(s) ==> UidValue(UidNum(s).value, top) == Uid(s, top) && ':' !in s
  {
    assert ParseUint(s).Some? && s != "" ==> AllDigits(s);
    hide Decimal;
  }

  lemma FirstColon(part: string, j: nat)
    requires j <= |part| && ':' !in part[..j]
    ensures j <= IndexOf(part, ':')
  {
    forall k | 0 <= k < j
      ensures part[k] != ':'
    {
      assert part[..j][k] == part[k];
    }
  }

  lemma RangeRead(part: string, n: nat, top: nat)
    ensures UidRange(part).Some? <==> IsRange(part)
    ensures IsRange(part) ==> (RangeMeans(UidRange(part).value, n, top) <==> Holds(part, n, top))
  {
    var i := IndexOf(part, ':');
    UidRead(part[..i], top);
    if i < |part| {
      UidRead(part[i + 1..], top);
      assert ':' in part;
      assert !IsUid(part) by {
        UidRead(part, top);
      }
      forall j | 0 <= j < |part| && part[j] == ':' && IsUid(part[j + 1..]) && IsUid(part[..j])
        ensures j == i
      {
        UidRead(part[..j], top);
        FirstColon(part, j);
      }
    } else {
      assert part[..i] == part;
    }
    hide UidNum, IsUid, Uid;
  }

  predicate SomeHolds(parts: seq<string>, n: nat, top: nat) {
    exists i :: 0 <= i < |parts| && Holds(parts[i], n, top)
  }

  predicate SomeMeans(rs: seq<C.Range>, n: nat, top: nat) {
    exists i :: 0 <= i < |rs| && RangeMeans(rs[i], n, top)
  }

  lemma HoldsFirst(parts: seq<string>, n: nat, top: nat)
    requires parts != []
    ensures SomeHolds(parts, n, top) <==> Holds(parts[0], n, top) || SomeHolds(parts[1..], n, top)
  {
    hide Holds;
    assert forall i :: 0 <= i < |parts[1..]| ==> parts[1..][i] == parts[i + 1];
    assert forall i :: 1 <= i < |parts| ==> parts[i] == parts[1..][i - 1];
  }

  lemma MeansFirst(r: C.Range, rs: seq<C.Range>, n: nat, top: nat)
    ensures SomeMeans([r] + rs, n, top) <==> RangeMeans(r, n, top) || SomeMeans(rs, n, top)
  {
    hide RangeMeans;
    var all := [r] + rs;
    assert all[0] == r;
    assert forall i :: 0 <= i < |rs| ==> rs[i] == all[i + 1];
    assert forall i :: 1 <= i < |all| ==> all[i] == rs[i - 1];
  }

  lemma {:induction false} SetRead(parts: seq<string>, n: nat, top: nat)
    ensures UidRanges(parts).Some? <==> forall i :: 0 <= i < |parts| ==> IsRange(parts[i])
    ensures UidRanges(parts).Some? ==> (SomeMeans(UidRanges(parts).value, n, top) <==> SomeHolds(parts, n, top))
  {
    if parts != [] {
      var rest := parts[1..];
      RangeRead(parts[0], n, top);
      SetRead(rest, n, top);
      HoldsFirst(parts, n, top);
      hide UidRange, IsRange, Holds, RangeMeans, SomeHolds, SomeMeans;
      assert forall i :: 0 <= i < |rest| ==> rest[i] == parts[i + 1];
      assert forall i :: 1 <= i < |parts| ==> parts[i] == rest[i - 1];
      if UidRanges(parts).Some? {
        MeansFirst(UidRange(parts[0]).value, UidRanges(rest).value, n, top);
      }
    }
  }

  /** UID asks for a number in one of the parts between the commas, and is refused if one is no range. */
  lemma UidWordAsks(text: string, ts: Tokens, read: DateReader, m: C.Candidate, f: C.Content, top: nat)
    requires ts != [] && IsValue(ts[0]) && Lower(text) == "uid"
    ensures var parts := Split(ts[0].text, ',');
            (WordOf(text, ts, read).Ok? <==> forall i :: 0 <= i < |parts| ==> IsRange(parts[i])) &&
            (WordOf(text, ts, read).Ok? ==>
               Asks(text, 1, ts, read, m, f, top, SomeHolds(parts, m.uid, top)))
  {
    SetRead(Split(ts[0].text, ','), m.uid, top);
    UidWordRead(text, ts, read);
    hide WordOf, UidRanges, Split, IsRange, SomeHolds, RangeMeans, Lower;
  }

  lemma UidWordRead(text: string, ts: Tokens, read: DateReader)
    requires ts != [] && IsValue(ts[0]) && Lower(text) == "uid"
    ensures var rs := UidRanges(Split(ts[0].text, ','));
            WordOf(text, ts, read) == if rs.None? then Err(BadUid) else Ok((Uids(rs.value), ts[1..]))
  {
    BoundCapitals();
    UidBound(ts, read);
    BoundIsNoFlagOrText(Uids([]), ts);
    UidSetRead(ts);
    hide Lower, Upper, Capitals, UidSetOf, UidRanges, Split, FlagKeyOf, TextKeyOf, BoundKeyOf, WordOf;
    WrittenAnyhow(text, "UID");
    BoundRead(text, "UID", ts, read);
  }

  lemma UidSetRead(ts: Tokens)
    requires ts != [] && IsValue(ts[0])
    ensures var rs := UidRanges(Split(ts[0].text, ','));
            UidSetOf(ts) == if rs.None? then Err(BadUid) else Ok((rs.value, ts[1..]))
  {
    hide UidRanges, Split;
  }

  lemma UidBound(ts: Tokens, read: DateReader)
    ensures var rs := UidSetOf(ts);
            BoundKeyOf("UID", ts, read) ==
            Some(if rs.Err? then Err(rs.error) else Ok((Uids(rs.value.0), rs.value.1)))
  {
    hide UidSetOf;
  }

  /* ---------- the rest ---------- */

  lemma RestCapitals()
    ensures Lower("ALL") == "all" && Capitals("ALL") && Lower("NOT") == "not" && Capitals("NOT")
    ensures Lower("OR") == "or" && Capitals("OR")
    ensures Lower("RECENT") == "recent" && Capitals("RECENT")
    ensures Lower("NEW") == "new" && Capitals("NEW") && Lower("OLD") == "old" && Capitals("OLD")
  {
  }

  lemma NoLeaf(name: string, ts: Tokens, read: DateReader)
    requires name in ["ALL", "NOT", "OR", "RECENT", "NEW", "OLD"]
    ensures LeafOf(name, ts, read) == None
  {
  }

  /** ALL asks nothing, and the words that depend on the session are refused. */
  lemma PlainWordsAsk(text: string, ts: Tokens, read: DateReader, m: C.Candidate, f: C.Content, top: nat)
    ensures Lower(text) == "all" ==> Asks(text, 0, ts, read, m, f, top, true)
    ensures Lower(text) == "recent" || Lower(text) == "new" || Lower(text) == "old" ==>
              WordOf(text, ts, read) == Err(SessionKey)
  {
    RestCapitals();
    hide Lower, Upper, Capitals, LeafOf;
    if Lower(text) == "all" {
      WrittenAnyhow(text, "ALL");
      NoLeaf("ALL", ts, read);
      assert WordOf(text, ts, read) == Ok((All, ts));
    } else if Lower(text) == "recent" || Lower(text) == "new" || Lower(text) == "old" {
      var word := if Lower(text) == "recent" then "RECENT" else if Lower(text) == "new" then "NEW" else "OLD";
      WrittenAnyhow(text, word);
      NoLeaf(word, ts, read);
    }
  }

  /** NOT asks for the key after it to be false, OR for one of the two after it to be true. */
  lemma JoiningWordsAsk(text: string, ts: Tokens, read: DateReader, m: C.Candidate, f: C.Content, top: nat)
    requires KeyOf(ts, read).Ok?
    ensures var left := KeyOf(ts, read).value;
            Lower(text) == "not" ==>
              var r := WordOf(text, ts, read);
              r.Ok? && r.value.1 == left.1 && (Denotes(r.value.0, m, f, top) <==> !Denotes(left.0, m, f, top))
    ensures var left := KeyOf(ts, read).value;
            Lower(text) == "or" && KeyOf(left.1, read).Ok? ==>
              var r, right := WordOf(text, ts, read), KeyOf(left.1, read).value;
              r.Ok? && r.value.1 == right.1 &&
              (Denotes(r.value.0, m, f, top) <==> Denotes(left.0, m, f, top) || Denotes(right.0, m, f, top))
  {
    RestCapitals();
    hide Lower, Upper, Capitals, LeafOf, KeyOf;
    if Lower(text) == "not" {
      WrittenAnyhow(text, "NOT");
      NoLeaf("NOT", ts, read);
    } else if Lower(text) == "or" {
      WrittenAnyhow(text, "OR");
      NoLeaf("OR", ts, read);
    }
  }

  /* ---------- and no others ---------- */

  /** The words above, in small letters. */
  predicate IsWord(small: string) {
    (exists flag :: small == FlagName(flag) || small == "un" + FlagName(flag)) ||
    (exists h :: small == FieldName(h)) || (exists op :: small == DateName(op)) ||
    small in ["keyword", "unkeyword", "header", "body", "text", "larger", "smaller", "uid"] ||
    small in ["all", "not", "or", "recent", "new", "old"]
  }

  lemma NamedWords(name: string)
    ensures FlagNamed(name).Some? ==> name == FlagWord(FlagNamed(name).value)
    ensures UnflagNamed(name).Some? ==> name == UnflagWord(UnflagNamed(name).value)
    ensures HeaderNamed(name).Some? ==> name == HeaderText(HeaderNamed(name).value)
    ensures DateNamed(name).Some? ==> name == DateWord(DateNamed(name).value)
  {
  }

  lemma WordInCapitals(text: string, word: string, small: string)
    requires !IsWord(Lower(text)) && Capitals(word) && Lower(word) == small && IsWord(small)
    ensures Upper(text) != word
  {
    CapitalsStay(word);
    SameCapitals(text, word);
  }

  lemma NoFlagOrField(text: string)
    requires !IsWord(Lower(text))
    ensures FlagNamed(Upper(text)) == None && UnflagNamed(Upper(text)) == None
    ensures HeaderNamed(Upper(text)) == None && DateNamed(Upper(text)) == None
  {
    var name := Upper(text);
    NamedWords(name);
    hide Lower, Upper, FlagNamed, UnflagNamed, HeaderNamed, DateNamed, FlagWord, UnflagWord, HeaderText, DateWord;
    hide FlagName, FieldName, DateName, Capitals;
    if FlagNamed(name).Some? {
      SmallFlagWords(FlagNamed(name).value);
      FlagWordIsCapitals(FlagNamed(name).value);
      WordInCapitals(text, name, FlagName(FlagNamed(name).value));
    }
    if UnflagNamed(name).Some? {
      SmallUnflagWords(UnflagNamed(name).value);
      FlagWordIsCapitals(UnflagNamed(name).value);
      WordInCapitals(text, name, "un" + FlagName(UnflagNamed(name).value));
    }
    if HeaderNamed(name).Some? {
      FieldWordsAre(HeaderNamed(name).value);
      WordInCapitals(text, name, FieldName(HeaderNamed(name).value));
    }
    if DateNamed(name).Some? {
      DateWordsAre(DateNamed(name).value);
      DateWordIsCapitals(DateNamed(name).value);
      WordInCapitals(text, name, DateName(DateNamed(name).value));
    }
  }

  /** Anything else is refused: a bare set of numbers as a set of positions, the rest as no key. */
  lemma NoOtherWords(text: string, ts: Tokens, read: DateReader)
    requires !IsWord(Lower(text))
    ensures WordOf(text, ts, read) ==
            Err(if text != "" && forall c :: c in text ==> '0' <= c <= '9' || c in ":,*" then SequenceSet else NotAKey)
  {
    NoFlagOrField(text);
    NotAWordInCapitals(text);
    var name := Upper(text);
    NamesNothing(name, ts, read);
    hide Upper, LeafOf, Lower, IsWord;
    assert IsNumericSet(text) <==> text != "" && forall c :: c in text ==> '0' <= c <= '9' || c in ":,*" by {
      assert forall i :: 0 <= i < |text| ==> text[i] in text;
    }
    hide IsNumericSet;
  }

  const VALUE_WORDS := ["KEYWORD", "UNKEYWORD", "HEADER", "BODY", "TEXT", "LARGER", "SMALLER", "UID"]
  const PLAIN_WORDS := ["ALL", "NOT", "OR", "RECENT", "NEW", "OLD"]

  lemma NotAWordInCapitals(text: string)
    requires !IsWord(Lower(text))
    ensures Upper(text) !in VALUE_WORDS && Upper(text) !in PLAIN_WORDS
  {
    ValueWordsApart(text);
    PlainWordsApart(text);
    hide Upper, Lower, IsWord;
  }

  lemma ValueWordsApart(text: string)
    requires !IsWord(Lower(text))
    ensures Upper(text) !in VALUE_WORDS
  {
    KeywordCapitals();
    TextCapitals();
    BoundCapitals();
    hide Lower, Upper, Capitals, FlagName, FieldName, DateName;
    WordInCapitals(text, "KEYWORD", "keyword");
    WordInCapitals(text, "UNKEYWORD", "unkeyword");
    WordInCapitals(text, "HEADER", "header");
    WordInCapitals(text, "BODY", "body");
    WordInCapitals(text, "TEXT", "text");
    WordInCapitals(text, "LARGER", "larger");
    WordInCapitals(text, "SMALLER", "smaller");
    WordInCapitals(text, "UID", "uid");
  }

  lemma PlainWordsApart(text: string)
    requires !IsWord(Lower(text))
    ensures Upper(text) !in PLAIN_WORDS
  {
    RestCapitals();
    hide Lower, Upper, Capitals, FlagName, FieldName, DateName;
    WordInCapitals(text, "ALL", "all");
    WordInCapitals(text, "NOT", "not");
    WordInCapitals(text, "OR", "or");
    WordInCapitals(text, "RECENT", "recent");
    WordInCapitals(text, "NEW", "new");
    WordInCapitals(text, "OLD", "old");
  }

  lemma NamesNothing(name: string, ts: Tokens, read: DateReader)
    requires FlagNamed(name) == None && UnflagNamed(name) == None && HeaderNamed(name) == None
    requires DateNamed(name) == None && name !in VALUE_WORDS
    ensures LeafOf(name, ts, read) == None
  {
    assert "KEYWORD" in VALUE_WORDS && "UNKEYWORD" in VALUE_WORDS && "HEADER" in VALUE_WORDS;
    assert "BODY" in VALUE_WORDS && "TEXT" in VALUE_WORDS && "LARGER" in VALUE_WORDS;
    assert "SMALLER" in VALUE_WORDS && "UID" in VALUE_WORDS;
    hide FlagNamed, UnflagNamed, HeaderNamed, DateNamed;
  }
}
