/**
 Splitting a search key into atoms, quoted strings and parentheses.

 `Lexed` and `QuotedText` say what the two scanning loops compute; printing and
 reading again is proved on those.
 */
module SearchLexer {
  import opened Wrappers

  datatype Token = Atom(text: string) | Quoted(text: string) | Open | Close

  datatype Error =
    | EmptySearch | Unmatched | Literal | DanglingEscape | Unterminated
    | EndsEarly | UnexpectedClose | QuotedKey | NoValue | NotAValue
    | BadDate | BadSize | ZeroSize | BadUid | SessionKey | SequenceSet | NotAKey
    | NeverClosed | EmptyGroup

  predicate Blank(c: char) { c == ' ' || c == '\t' || c == '\r' || c == '\n' }

  predicate EndsAtom(c: char) { Blank(c) || c == '(' || c == ')' || c == '"' }

  /** The text of a quoted string whose opening quote has been read, and what follows its closing quote. */
  function QuotedText(s: string): (r: Result<(string, string), Error>)
    ensures r.Ok? ==> |r.value.1| < |s| && r.value.1 == s[|s| - |r.value.1|..]
  {
    if s == "" then Err(Unterminated)
    else if s[0] == '"' then Ok(("", s[1..]))
    else if s[0] == '\\' then
      if |s| == 1 then Err(DanglingEscape) else WithChar(s[1], QuotedText(s[2..]))
    else WithChar(s[0], QuotedText(s[1..]))
  }

  function WithChar(c: char, r: Result<(string, string), Error>): Result<(string, string), Error> {
    if r.Ok? then Ok(([c] + r.value.0, r.value.1)) else r
  }

  function AtomLength(s: string): (n: nat)
    ensures n <= |s| && forall k :: 0 <= k < n ==> !EndsAtom(s[k])
    ensures n < |s| ==> EndsAtom(s[n])
  {
    if s == "" || EndsAtom(s[0]) then 0 else 1 + AtomLength(s[1..])
  }

  function WithTokens(ts: seq<Token>, r: Result<seq<Token>, Error>): Result<seq<Token>, Error> {
    if r.Ok? then Ok(ts + r.value) else r
  }

  function Lexed(s: string): Result<seq<Token>, Error>
    decreases |s|
  {
    if s == "" then Ok([])
    else if Blank(s[0]) then Lexed(s[1..])
    else if s[0] == '(' then WithTokens([Open], Lexed(s[1..]))
    else if s[0] == ')' then WithTokens([Close], Lexed(s[1..]))
    else if s[0] == '"' then
      var q := QuotedText(s[1..]);
      if q.Ok? then WithTokens([Quoted(q.value.0)], Lexed(q.value.1)) else Err(q.error)
    else if s[0] == '{' then Err(Literal)
    else
      var n := AtomLength(s);
      WithTokens([Atom(s[..n])], Lexed(s[n..]))
  }

  /* ---------- the loops ---------- */

  lemma DropAgain(s: string, i: nat, n: nat)
    requires i + n <= |s|
    ensures s[i..][n..] == s[i + n..]
  {
  }

  function WithText(t: string, r: Result<(string, string), Error>): Result<(string, string), Error> {
    if r.Ok? then Ok((t + r.value.0, r.value.1)) else r
  }

  lemma TextGrows(t: string, c: char, r: Result<(string, string), Error>)
    ensures WithText(t, WithChar(c, r)) == WithText(t + [c], r)
  {
    if r.Ok? {
      assert t + ([c] + r.value.0) == (t + [c]) + r.value.0;
    }
  }

  lemma NoText(r: Result<(string, string), Error>)
    ensures WithText("", r) == r
  {
    assert r.Ok? ==> "" + r.value.0 == r.value.0;
  }

  lemma EscapeStep(s: string, i: nat)
    requires i < |s| && s[i] == '\\'
    ensures QuotedText(s[i..]) == if i + 1 == |s| then Err(DanglingEscape)
      else WithChar(s[i + 1], QuotedText(s[i + 2..]))
  {
    if i + 1 < |s| {
      DropAgain(s, i, 2);
    }
  }

  lemma PlainStep(s: string, i: nat)
    requires i < |s| && s[i] != '\\'
    ensures QuotedText(s[i..]) == if s[i] == '"' then Ok(("", s[i + 1..])) else WithChar(s[i], QuotedText(s[i + 1..]))
  {
    DropAgain(s, i, 1);
  }

  /** Reads a quoted string whose opening quote is at `start`. */
  method ReadQuoted(s: string, start: nat) returns (r: Result<(string, nat), Error>)
    requires start < |s|
    ensures r.Ok? ==> start < r.value.1 <= |s| && QuotedText(s[start + 1..]) == Ok((r.value.0, s[r.value.1..]))
    ensures r.Err? ==> QuotedText(s[start + 1..]) == Err(r.error)
  {
    hide QuotedText, WithChar;
    var text := "";
    var i := start + 1;
    NoText(QuotedText(s[i..]));
    while i < |s|
      invariant start < i <= |s|
      invariant QuotedText(s[start + 1..]) == WithText(text, QuotedText(s[i..]))
    {
      if s[i] == '\\' {
        EscapeStep(s, i);
        if i + 1 >= |s| {
          return Err(DanglingEscape);
        }
        i := i + 1;
        TextGrows(text, s[i], QuotedText(s[i + 1..]));
        text := text + [s[i]];
      } else if s[i] == '"' {
        PlainStep(s, i);
        assert text + "" == text;
        return Ok((text, i + 1));
      } else {
        PlainStep(s, i);
        TextGrows(text, s[i], QuotedText(s[i + 1..]));
        text := text + [s[i]];
      }
      i := i + 1;
    }
    assert s[i..] == "";
    NothingQuoted();
    r := Err(Unterminated);
  }

  lemma NothingQuoted()
    ensures QuotedText("") == Err(Unterminated)
  {
  }

  lemma TokensGrow(ts: seq<Token>, t: Token, r: Result<seq<Token>, Error>)
    ensures WithTokens(ts, WithTokens([t], r)) == WithTokens(ts + [t], r)
  {
    if r.Ok? {
      assert ts + ([t] + r.value) == (ts + [t]) + r.value;
    }
  }

  lemma LexStep(s: string, i: nat)
    requires i < |s| && (Blank(s[i]) || s[i] == '(' || s[i] == ')')
    ensures Lexed(s[i..]) ==
            if Blank(s[i]) then Lexed(s[i + 1..])
            else WithTokens([if s[i] == '(' then Open else Close], Lexed(s[i + 1..]))
  {
    DropAgain(s, i, 1);
  }

  lemma QuotedStep(s: string, i: nat)
    requires i < |s| && s[i] == '"'
    ensures var q := QuotedText(s[i + 1..]);
            Lexed(s[i..]) == if q.Ok? then WithTokens([Quoted(q.value.0)], Lexed(q.value.1)) else Err(q.error)
  {
    DropAgain(s, i, 1);
  }

  lemma AtomStep(s: string, i: nat, j: nat)
    requires i < j <= |s| && !EndsAtom(s[i]) && s[i] != '{' && AtomLength(s[i..]) == j - i
    ensures Lexed(s[i..]) == WithTokens([Atom(s[i..j])], Lexed(s[j..]))
  {
    DropAgain(s, i, j - i);
    assert s[i..][..j - i] == s[i..j];
  }

  /** The end of the atom that starts at `i`. */
  method AtomEnd(s: string, i: nat) returns (j: nat)
    requires i <= |s|
    ensures i <= j <= |s| && j - i == AtomLength(s[i..])
  {
    j := i;
    while j < |s| && !EndsAtom(s[j])
      invariant i <= j <= |s|
      invariant AtomLength(s[i..]) == j - i + AtomLength(s[j..])
    {
      DropAgain(s, j, 1);
      j := j + 1;
    }
  }

  method Lex(s: string) returns (r: Result<seq<Token>, Error>)
    ensures r == Lexed(s)
  {
    var toks: seq<Token> := [];
    var i := 0;
    assert s[0..] == s;
    assert Lexed(s).Ok? ==> [] + Lexed(s).value == Lexed(s).value;
    while i < |s|
      invariant 0 <= i <= |s|
      invariant Lexed(s) == WithTokens(toks, Lexed(s[i..]))
    {
      hide Lexed, QuotedText;
      var c := s[i];
      if Blank(c) {
        LexStep(s, i);
        i := i + 1;
      } else if c == '(' {
        LexStep(s, i);
        TokensGrow(toks, Open, Lexed(s[i + 1..]));
        toks := toks + [Open];
        i := i + 1;
      } else if c == ')' {
        LexStep(s, i);
        TokensGrow(toks, Close, Lexed(s[i + 1..]));
        toks := toks + [Close];
        i := i + 1;
      } else if c == '"' {
        QuotedStep(s, i);
        var q := ReadQuoted(s, i);
        if q.Err? {
          return Err(q.error);
        }
        TokensGrow(toks, Quoted(q.value.0), Lexed(s[q.value.1..]));
        toks := toks + [Quoted(q.value.0)];
        i := q.value.1;
      } else if c == '{' {
        LiteralStep(s, i);
        return Err(Literal);
      } else {
        var j := AtomEnd(s, i);
        AtomStep(s, i, j);
        TokensGrow(toks, Atom(s[i..j]), Lexed(s[j..]));
        toks := toks + [Atom(s[i..j])];
        i := j;
      }
    }
    assert s[i..] == "";
    assert toks + [] == toks;
    r := Ok(toks);
  }

  lemma LiteralStep(s: string, i: nat)
    requires i < |s| && s[i] == '{'
    ensures Lexed(s[i..]) == Err(Literal)
  {
  }

  /* ---------- printing ---------- */

  /** The tokens that can come out of a search key. */
  predicate Printable(t: Token) {
    t.Atom? ==> t.text != "" && t.text[0] != '{' && forall k :: 0 <= k < |t.text| ==> !EndsAtom(t.text[k])
  }

  /** What can be a word: it is not empty, starts with no brace, and holds no blank, parenthesis or quote. */
  lemma WordsAre(text: string)
    ensures Printable(Atom(text)) <==>
            text != "" && text[0] != '{' &&
            ' ' !in text && '\t' !in text && '\r' !in text && '\n' !in text &&
            '(' !in text && ')' !in text && '"' !in text
  {
  }

  function Escaped(text: string): string {
    if text == "" then ""
    else (if text[0] == '"' || text[0] == '\\' then ['\\', text[0]] else [text[0]]) + Escaped(text[1..])
  }

  function Shown(t: Token): string {
    match t
    case Atom(text) => text
    case Quoted(text) => "\"" + Escaped(text) + "\""
    case Open => "("
    case Close => ")"
  }

  function ShownAll(ts: seq<Token>): string {
    if ts == [] then "" else Shown(ts[0]) + " " + ShownAll(ts[1..])
  }

  lemma PlainCharReads(c: char, tail: string)
    requires c != '"' && c != '\\'
    ensures QuotedText([c] + tail) == WithChar(c, QuotedText(tail))
  {
    assert ([c] + tail)[1..] == tail;
  }

  lemma EscapedCharReads(c: char, tail: string)
    ensures QuotedText(['\\', c] + tail) == WithChar(c, QuotedText(tail))
  {
    assert (['\\', c] + tail)[2..] == tail;
  }

  lemma ClosingQuoteReads(rest: string)
    ensures QuotedText("\"" + rest) == Ok(("", rest))
  {
    assert ("\"" + rest)[1..] == rest;
  }

  lemma Regroup(a: string, b: string, c: string, d: string)
    ensures a + b + c + d == a + (b + c + d)
  {
  }

  lemma FirstEscaped(text: string)
    requires text != ""
    ensures Escaped(text) ==
            (if text[0] == '"' || text[0] == '\\' then ['\\', text[0]] else [text[0]]) + Escaped(text[1..])
  {
  }

  lemma {:induction false} EscapedReadsBack(text: string, rest: string)
    ensures QuotedText(Escaped(text) + "\"" + rest) == Ok((text, rest))
  {
    if text == "" {
      ClosingQuoteReads(rest);
      assert Escaped(text) + "\"" + rest == "\"" + rest;
    } else {
      hide QuotedText, Escaped;
      var c := text[0];
      var e := Escaped(text[1..]);
      EscapedReadsBack(text[1..], rest);
      FirstEscaped(text);
      assert text == [c] + text[1..];
      if c == '"' || c == '\\' {
        EscapedCharReads(c, e + "\"" + rest);
        Regroup(['\\', c], e, "\"", rest);
      } else {
        PlainCharReads(c, e + "\"" + rest);
        Regroup([c], e, "\"", rest);
      }
    }
  }

  lemma {:induction false} AtomReadsBack(text: string, rest: string)
    requires forall k :: 0 <= k < |text| ==> !EndsAtom(text[k])
    requires rest != "" && EndsAtom(rest[0])
    ensures AtomLength(text + rest) == |text|
  {
    if text != "" {
      assert (text + rest)[1..] == text[1..] + rest;
      AtomReadsBack(text[1..], rest);
    } else {
      assert text + rest == rest;
    }
  }

  lemma SpaceIsSkipped(rest: string)
    ensures Lexed(" " + rest) == Lexed(rest)
  {
    assert (" " + rest)[1..] == rest;
  }

  lemma ParenReadsBack(t: Token, rest: string)
    requires t.Open? || t.Close?
    ensures Lexed(Shown(t) + rest) == WithTokens([t], Lexed(rest))
  {
    var s := Shown(t) + rest;
    LexStep(s, 0);
    assert s[0..] == s && s[1..] == rest;
  }

  lemma QuotedTokenReadsBack(text: string, rest: string)
    ensures Lexed(Shown(Quoted(text)) + rest) == WithTokens([Quoted(text)], Lexed(rest))
  {
    var s := Shown(Quoted(text)) + rest;
    EscapedReadsBack(text, rest);
    hide Lexed, QuotedText, Escaped;
    assert s[0..] == s && s[1..] == Escaped(text) + "\"" + rest;
    QuotedStep(s, 0);
  }

  lemma AtomTokenReadsBack(text: string, rest: string)
    requires Printable(Atom(text)) && rest != "" && EndsAtom(rest[0])
    ensures Lexed(Shown(Atom(text)) + rest) == WithTokens([Atom(text)], Lexed(rest))
  {
    var s := text + rest;
    AtomReadsBack(text, rest);
    assert s[0..] == s && s[0..|text|] == text && s[|text|..] == rest;
    hide Lexed;
    AtomStep(s, 0, |text|);
  }

  /** One token printed in front of anything is read back as that token. */
  lemma ShownReadsBack(t: Token, rest: string)
    requires Printable(t)
    ensures Lexed(Shown(t) + " " + rest) == WithTokens([t], Lexed(rest))
  {
    hide Lexed, Shown, Printable;
    assert Shown(t) + " " + rest == Shown(t) + (" " + rest);
    SpaceIsSkipped(rest);
    match t
    case Atom(text) => AtomTokenReadsBack(text, " " + rest);
    case Quoted(text) => QuotedTokenReadsBack(text, " " + rest);
    case Open => ParenReadsBack(t, " " + rest);
    case Close => ParenReadsBack(t, " " + rest);
  }

  /** Printing tokens and splitting the text again gives the same tokens, whatever the quoted strings hold. */
  lemma {:induction false} LexInvertsPrinting(ts: seq<Token>)
    requires forall k :: 0 <= k < |ts| ==> Printable(ts[k])
    ensures Lexed(ShownAll(ts)) == Ok(ts)
  {
    if ts != [] {
      LexInvertsPrinting(ts[1..]);
      ShownReadsBack(ts[0], ShownAll(ts[1..]));
      assert ts == [ts[0]] + ts[1..];
    }
  }

  /** Blanks as they are typed between the words of a search. */
  predicate Gap(g: string) {
    forall i :: 0 <= i < |g| ==> g[i] == ' ' || g[i] == '\t' || g[i] == '\r' || g[i] == '\n'
  }

  /** A gap for each token, and something between two words. */
  predicate Apart(ts: seq<Token>, gaps: seq<string>) {
    |gaps| == |ts| && (forall i :: 0 <= i < |ts| ==> Gap(gaps[i])) &&
    forall i :: 0 <= i < |ts| - 1 ==> ts[i].Atom? && ts[i + 1].Atom? ==> gaps[i] != ""
  }

  function Spaced(ts: seq<Token>, gaps: seq<string>): string
    requires |gaps| == |ts|
  {
    if ts == [] then "" else Shown(ts[0]) + (gaps[0] + Spaced(ts[1..], gaps[1..]))
  }

  lemma {:induction false} GapIsSkipped(g: string, rest: string)
    requires Gap(g)
    ensures Lexed(g + rest) == Lexed(rest)
  {
    if g == "" {
      assert g + rest == rest;
    } else {
      assert (g + rest)[1..] == g[1..] + rest;
      GapIsSkipped(g[1..], rest);
    }
  }

  /** What follows a word ends it. */
  lemma WordEnds(ts: seq<Token>, gaps: seq<string>)
    requires ts != [] && ts[0].Atom? && Apart(ts, gaps)
    ensures var rest := gaps[0] + Spaced(ts[1..], gaps[1..]); rest == "" || EndsAtom(rest[0])
  {
    if gaps[0] == "" && |ts| > 1 {
      assert !ts[1].Atom? && Shown(ts[1])[0] == Spaced(ts[1..], gaps[1..])[0];
    }
  }

  lemma LastWordReads(text: string)
    requires Printable(Atom(text))
    ensures Lexed(text) == Ok([Atom(text)])
  {
    WholeAtom(text);
    hide AtomLength;
    assert text[|text|..] == "" && text[..|text|] == text;
    assert [Atom(text)] + [] == [Atom(text)];
  }

  lemma {:induction false} WholeAtom(text: string)
    requires forall k :: 0 <= k < |text| ==> !EndsAtom(text[k])
    ensures AtomLength(text) == |text|
  {
    if text != "" {
      WholeAtom(text[1..]);
    }
  }

  /** One token in front of what may follow it. */
  lemma TokenReadsBack(t: Token, rest: string)
    requires Printable(t) && (t.Atom? ==> rest == "" || EndsAtom(rest[0]))
    ensures Lexed(Shown(t) + rest) == WithTokens([t], Lexed(rest))
  {
    match t
    case Atom(text) =>
      if rest == "" {
        LastWordReads(text);
        assert text + rest == text;
      } else {
        hide Lexed;
        AtomTokenReadsBack(text, rest);
      }
    case Quoted(text) => QuotedTokenReadsBack(text, rest);
    case _ => ParenReadsBack(t, rest);
  }

  /**
   However the tokens are set apart, by any blanks or by none where a parenthesis or
   a quote is enough, the text splits into them again.
   */
  lemma {:induction false} LexInvertsSpacing(ts: seq<Token>, gaps: seq<string>)
    requires Apart(ts, gaps) && forall k :: 0 <= k < |ts| ==> Printable(ts[k])
    ensures Lexed(Spaced(ts, gaps)) == Ok(ts)
  {
    if ts != [] {
      var us, hs := ts[1..], gaps[1..];
      ApartRest(ts, gaps);
      if ts[0].Atom? {
        WordEnds(ts, gaps);
      }
      hide Lexed, Shown, Printable, Apart, Gap, EndsAtom;
      LexInvertsSpacing(us, hs);
      GapIsSkipped(gaps[0], Spaced(us, hs));
      TokenReadsBack(ts[0], gaps[0] + Spaced(us, hs));
      assert ts == [ts[0]] + us;
    }
  }

  lemma ApartRest(ts: seq<Token>, gaps: seq<string>)
    requires Apart(ts, gaps) && ts != []
    ensures Gap(gaps[0]) && Apart(ts[1..], gaps[1..])
  {
    assert forall i :: 0 <= i < |ts| - 1 ==> ts[1..][i] == ts[i + 1] && gaps[1..][i] == gaps[i + 1];
  }

  /** Whatever is accepted splits into tokens that can be printed, so printing loses nothing. */
  lemma {:induction false} LexedIsPrintable(s: string)
    requires Lexed(s).Ok?
    ensures forall k :: 0 <= k < |Lexed(s).value| ==> Printable(Lexed(s).value[k])
    ensures Lexed(ShownAll(Lexed(s).value)) == Lexed(s)
    decreases |s|
  {
    if s != "" {
      if Blank(s[0]) || s[0] == '(' || s[0] == ')' {
        LexedIsPrintable(s[1..]);
      } else if s[0] == '"' {
        LexedIsPrintable(QuotedText(s[1..]).value.1);
      } else {
        LexedIsPrintable(s[AtomLength(s)..]);
      }
    }
    LexInvertsPrinting(Lexed(s).value);
  }
}
