/**
 The parser: a position in a row of tokens, moved by each method as it reads.
 Every method builds the criteria of exactly what the grammar says its tokens
 read as, or fails exactly as the grammar does.
 */
module SearchParser {
  import opened Wrappers
  import opened SearchLexer
  import opened SearchCriteria
  import M = SearchMeaning
  import opened SearchGrammar
  import opened Text

  /** `got`, with `rest` left to read, is the criteria of what the grammar reads. */
  predicate Refines(got: Result<Criteria, Error>, rest: Tokens, want: Reading<M.Key>) {
    if want.Err? then got == Err(want.error)
    else got == Ok(M.Compile(want.value.0)) && rest == want.value.1
  }

  function WithKeys(done: seq<M.Key>, r: Reading<seq<M.Key>>): Reading<seq<M.Key>> {
    if r.Ok? then Ok((done + r.value.0, r.value.1)) else r
  }

  lemma KeysGrow(done: seq<M.Key>, k: M.Key, r: Reading<seq<M.Key>>)
    ensures WithKeys(done, WithKeys([k], r)) == WithKeys(done + [k], r)
  {
    if r.Ok? {
      assert done + ([k] + r.value.0) == (done + [k]) + r.value.0;
    }
  }

  lemma NextKey(ts: Tokens, read: DateReader)
    requires ts != [] && !ts[0].Close?
    ensures KeysOf(ts, read) ==
            if KeyOf(ts, read).Err? then Err(KeyOf(ts, read).error)
            else WithKeys([KeyOf(ts, read).value.0], KeysOf(KeyOf(ts, read).value.1, read))
  {
  }

  lemma CompileOneMore(done: seq<M.Key>, k: M.Key)
    ensures M.CompileAll(done + [k]) == And(M.CompileAll(done), M.Compile(k))
  {
    assert (done + [k])[..|done|] == done;
  }

  /** The ranges of a comma-separated set. */
  method ReadUidSet(v: string) returns (r: Result<seq<Range>, Error>)
    ensures r == if UidRanges(Split(v, ',')).None? then Err(BadUid) else Ok(UidRanges(Split(v, ',')).value)
  {
    var parts := Split(v, ',');
    var ranges: seq<Range> := [];
    assert parts[0..] == parts;
    assert UidRanges(parts).Some? ==> [] + UidRanges(parts).value == UidRanges(parts).value;
    for i := 0 to |parts|
      invariant UidRanges(parts) == Prefixed(ranges, UidRanges(parts[i..]))
    {
      hide UidRange, Split;
      RangesStep(parts, i);
      var part := UidRange(parts[i]);
      if part.None? {
        return Err(BadUid);
      }
      PrefixGrows(ranges, part.value, UidRanges(parts[i + 1..]));
      ranges := ranges + [part.value];
    }
    assert parts[|parts|..] == [];
    assert ranges + [] == ranges;
    r := Ok(ranges);
  }

  function Prefixed(rs: seq<Range>, o: Option<seq<Range>>): Option<seq<Range>> {
    if o.None? then None else Some(rs + o.value)
  }

  lemma PrefixGrows(rs: seq<Range>, r: Range, o: Option<seq<Range>>)
    ensures Prefixed(rs, Prefixed([r], o)) == Prefixed(rs + [r], o)
  {
    if o.Some? {
      assert rs + ([r] + o.value) == (rs + [r]) + o.value;
    }
  }

  lemma RangesStep(parts: seq<string>, i: nat)
    requires i < |parts|
    ensures UidRanges(parts[i..]) ==
            if UidRange(parts[i]).None? then None else Prefixed([UidRange(parts[i]).value], UidRanges(parts[i + 1..]))
  {
    assert parts[i..][1..] == parts[i + 1..];
  }

  class Parser {
    const toks: Tokens
    const read: DateReader
    var pos: nat

    ghost predicate Valid()
      reads this
    {
      pos <= |toks|
    }

    ghost function Rest(): Tokens
      reads this
      requires Valid()
    {
      toks[pos..]
    }

    constructor (toks: Tokens, read: DateReader)
      ensures this.toks == toks && this.read == read && pos == 0 && Valid()
    {
      this.toks, this.read, pos := toks, read, 0;
    }

    method Next() returns (t: Option<Token>)
      requires Valid()
      modifies this`pos
      ensures Valid() && old(pos) <= pos
      ensures old(Rest()) == [] ==> t == None && pos == old(pos)
      ensures old(Rest()) != [] ==> t == Some(old(Rest())[0]) && pos == old(pos) + 1 && Rest() == old(Rest())[1..]
    {
      if pos >= |toks| {
        return None;
      }
      t := Some(toks[pos]);
      pos := pos + 1;
    }

    method Value() returns (r: Result<string, Error>)
      requires Valid()
      modifies this`pos
      ensures Valid() && old(pos) <= pos
      ensures var want := ValueOf(old(Rest()));
              if want.Err? then r == Err(want.error) else r == Ok(want.value.0) && Rest() == want.value.1
    {
      var t := Next();
      if t.None? {
        return Err(NoValue);
      }
      if t.value.Open? || t.value.Close? {
        return Err(NotAValue);
      }
      r := Ok(t.value.text);
    }

    method FlagKey(name: string) returns (done: bool, r: Result<Criteria, Error>)
      requires Valid()
      modifies this`pos
      ensures Valid() && old(pos) <= pos
      ensures done == FlagKeyOf(name, old(Rest())).Some?
      ensures if done then Refines(r, Rest(), FlagKeyOf(name, old(Rest())).value) else pos == old(pos)
    {
      done, r := true, Ok(EVERYTHING);
      if FlagNamed(name).Some? {
        r := Ok(EVERYTHING.(flag := [M.FlagText(FlagNamed(name).value)]));
      } else if UnflagNamed(name).Some? {
        r := Ok(EVERYTHING.(notFlag := [M.FlagText(UnflagNamed(name).value)]));
      } else if name == "KEYWORD" || name == "UNKEYWORD" {
        var v := Value();
        if v.Err? {
          return true, Err(v.error);
        }
        r := Ok(if name == "KEYWORD" then EVERYTHING.(flag := [v.value]) else EVERYTHING.(notFlag := [v.value]));
      } else {
        done := false;
      }
    }

    method TextKey(name: string) returns (done: bool, r: Result<Criteria, Error>)
      requires Valid()
      modifies this`pos
      ensures Valid() && old(pos) <= pos
      ensures done == TextKeyOf(name, old(Rest())).Some?
      ensures if done then Refines(r, Rest(), TextKeyOf(name, old(Rest())).value) else pos == old(pos)
    {
      done, r := true, Ok(EVERYTHING);
      if HeaderNamed(name).Some? {
        var v := Value();
        if v.Err? {
          return true, Err(v.error);
        }
        r := Ok(EVERYTHING.(header := [Field(M.HeaderText(HeaderNamed(name).value), v.value)]));
      } else if name == "HEADER" {
        var field := Value();
        if field.Err? {
          return true, Err(field.error);
        }
        var v := Value();
        if v.Err? {
          return true, Err(v.error);
        }
        r := Ok(EVERYTHING.(header := [Field(field.value, v.value)]));
      } else if name == "BODY" || name == "TEXT" {
        var v := Value();
        if v.Err? {
          return true, Err(v.error);
        }
        r := Ok(if name == "BODY" then EVERYTHING.(body := [v.value]) else EVERYTHING.(text := [v.value]));
      } else {
        done := false;
      }
    }

    method Date() returns (r: Result<int, Error>)
      requires Valid()
      modifies this`pos
      ensures Valid() && old(pos) <= pos
      ensures var want := DateOf(old(Rest()), read);
              if want.Err? then r == Err(want.error) else r == Ok(want.value.0) && Rest() == want.value.1
    {
      var v := Value();
      if v.Err? {
        return Err(v.error);
      }
      if read(v.value).None? {
        return Err(BadDate);
      }
      r := Ok(read(v.value).value);
    }

    method Size() returns (r: Result<nat, Error>)
      requires Valid()
      modifies this`pos
      ensures Valid() && old(pos) <= pos
      ensures var want := SizeOf(old(Rest()));
              if want.Err? then r == Err(want.error) else r == Ok(want.value.0) && Rest() == want.value.1
    {
      var v := Value();
      if v.Err? {
        return Err(v.error);
      }
      var n := ParseUint(v.value);
      if n.None? {
        return Err(BadSize);
      }
      if n.value == 0 {
        return Err(ZeroSize);
      }
      r := Ok(n.value);
    }

    method UidSet() returns (r: Result<seq<Range>, Error>)
      requires Valid()
      modifies this`pos
      ensures Valid() && old(pos) <= pos
      ensures var want := UidSetOf(old(Rest()));
              if want.Err? then r == Err(want.error) else r == Ok(want.value.0) && Rest() == want.value.1
    {
      var v := Value();
      if v.Err? {
        return Err(v.error);
      }
      r := ReadUidSet(v.value);
    }

    method BoundKey(name: string) returns (done: bool, r: Result<Criteria, Error>)
      requires Valid()
      modifies this`pos
      ensures Valid() && old(pos) <= pos
      ensures done == BoundKeyOf(name, old(Rest()), read).Some?
      ensures if done then Refines(r, Rest(), BoundKeyOf(name, old(Rest()), read).value) else pos == old(pos)
    {
      hide DateOf, SizeOf, UidSetOf, DateNamed;
      done, r := true, Ok(EVERYTHING);
      if DateNamed(name).Some? {
        var d := Date();
        if d.Err? {
          return true, Err(d.error);
        }
        r := Ok(M.WithDate(DateNamed(name).value, d.value));
      } else if name == "LARGER" || name == "SMALLER" {
        var n := Size();
        if n.Err? {
          return true, Err(n.error);
        }
        r := Ok(if name == "LARGER" then EVERYTHING.(larger := n.value) else EVERYTHING.(smaller := n.value));
      } else if name == "UID" {
        var ranges := UidSet();
        if ranges.Err? {
          return true, Err(ranges.error);
        }
        r := Ok(EVERYTHING.(uid := [ranges.value]));
      } else {
        done := false;
      }
    }

    /** The keys that have no other key inside them, family by family. */
    method Leaf(name: string) returns (done: bool, r: Result<Criteria, Error>)
      requires Valid()
      modifies this`pos
      ensures Valid() && old(pos) <= pos
      ensures done == LeafOf(name, old(Rest()), read).Some?
      ensures if done then Refines(r, Rest(), LeafOf(name, old(Rest()), read).value) else pos == old(pos)
    {
      hide FlagKeyOf, TextKeyOf, BoundKeyOf;
      done, r := FlagKey(name);
      if done {
        return;
      }
      done, r := TextKey(name);
      if done {
        return;
      }
      done, r := BoundKey(name);
    }

    method Key() returns (r: Result<Criteria, Error>)
      requires Valid()
      modifies this`pos
      ensures Valid() && old(pos) <= pos
      ensures Refines(r, Rest(), KeyOf(old(Rest()), read))
      decreases |toks| - pos, 0
    {
      hide WordOf, GroupOf;
      var t := Next();
      if t.None? {
        return Err(EndsEarly);
      }
      match t.value {
        case Open => r := Group();
        case Close => r := Err(UnexpectedClose);
        case Quoted(_) => r := Err(QuotedKey);
        case Atom(text) => r := Word(text);
      }
    }

    method Word(text: string) returns (r: Result<Criteria, Error>)
      requires Valid()
      modifies this`pos
      ensures Valid() && old(pos) <= pos
      ensures Refines(r, Rest(), WordOf(text, old(Rest()), read))
      decreases |toks| - pos, 2
    {
      hide LeafOf, KeyOf, Upper, IsNumericSet;
      var name := Upper(text);
      var done;
      done, r := Leaf(name);
      if done {
        return;
      }
      if name == "ALL" {
        r := Ok(EVERYTHING);
      } else if name == "NOT" {
        var inner := Key();
        if inner.Err? {
          return inner;
        }
        r := Ok(EVERYTHING.(nots := [inner.value]));
      } else if name == "OR" {
        var left := Key();
        if left.Err? {
          return left;
        }
        var right := Key();
        if right.Err? {
          return right;
        }
        r := Ok(EVERYTHING.(ors := [(left.value, right.value)]));
      } else if name == "RECENT" || name == "NEW" || name == "OLD" {
        r := Err(SessionKey);
      } else if IsNumericSet(text) {
        r := Err(SequenceSet);
      } else {
        r := Err(NotAKey);
      }
    }

    method Group() returns (r: Result<Criteria, Error>)
      requires Valid()
      modifies this`pos
      ensures Valid() && old(pos) <= pos
      ensures Refines(r, Rest(), GroupOf(old(Rest()), read))
      decreases |toks| - pos, 2
    {
      hide KeysOf;
      var inner := Keys();
      if inner.Err? {
        return Err(inner.error);
      }
      var close := Next();
      if close.None? {
        return Err(NeverClosed);
      }
      if inner.value.1 == 0 {
        return Err(EmptyGroup);
      }
      r := Ok(inner.value.0);
    }

    /** Keys up to a closing parenthesis or the end, merged as they come, and how many there were. */
    method Keys() returns (r: Result<(Criteria, nat), Error>)
      requires Valid()
      modifies this`pos
      ensures Valid() && old(pos) <= pos
      ensures var want := KeysOf(old(Rest()), read);
              if want.Err? then r == Err(want.error)
              else r == Ok((M.CompileAll(want.value.0), |want.value.0|)) && Rest() == want.value.1
      decreases |toks| - pos, 1
    {
      ghost var ts := Rest();
      ghost var done: seq<M.Key> := [];
      var out := EVERYTHING;
      var n := 0;
      assert KeysOf(ts, read).Ok? ==> [] + KeysOf(ts, read).value.0 == KeysOf(ts, read).value.0;
      while pos < |toks| && !toks[pos].Close?
        invariant Valid() && old(pos) <= pos
        invariant KeysOf(ts, read) == WithKeys(done, KeysOf(Rest(), read))
        invariant out == M.CompileAll(done) && n == |done|
        decreases |toks| - pos
      {
        hide KeysOf, KeyOf, And, M.Compile, M.CompileAll;
        ghost var before := Rest();
        NextKey(before, read);
        var c := Key();
        if c.Err? {
          return Err(c.error);
        }
        ghost var k := KeyOf(before, read).value.0;
        KeysGrow(done, k, KeysOf(Rest(), read));
        CompileOneMore(done, k);
        done := done + [k];
        out := And(out, c.value);
        n := n + 1;
      }
      assert done + [] == done;
      r := Ok((out, n));
    }
  }

  /** A search, as it was typed, made into the criteria of the keys it reads as. */
  method Parse(s: string, read: DateReader) returns (r: Result<Criteria, Error>)
    ensures var want := SearchOf(s, read);
            r == if want.Err? then Err(want.error) else Ok(M.CompileAll(want.value))
  {
    hide Lexed, KeysOf, M.CompileAll;
    var toks := Lex(s);
    if toks.Err? {
      return Err(toks.error);
    }
    var p := new Parser(toks.value, read);
    assert toks.value[0..] == toks.value;
    var keys := p.Keys();
    if keys.Err? {
      return Err(keys.error);
    }
    if keys.value.1 == 0 {
      return Err(EmptySearch);
    }
    if p.pos < |p.toks| {
      return Err(Unmatched);
    }
    r := Ok(keys.value.0);
  }
}
