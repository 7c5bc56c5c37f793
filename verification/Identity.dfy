/**
 What a message can be recognised by: the digest of the headers servers do not
 rewrite, the Message-ID, and the stamp a copy carries when it has none.
 */
module Identity {
  import opened Wrappers

  datatype Ident = Ident(digest: string, messageId: string, weak: bool, stamp: string)

  /** A header field and the value to search it for. */
  datatype Term = StampTerm(value: string) | MessageIdTerm(value: string)

  predicate NeedsStamp(id: Ident) { id.messageId == "" }

  predicate AlreadyStamped(id: Ident) { id.stamp != "" }

  function StampValue(id: Ident): string {
    if id.stamp != "" then id.stamp else id.digest
  }

  function SearchTerms(id: Ident, stamped: bool): Option<Term> {
    if stamped then Some(StampTerm(StampValue(id)))
    else if id.messageId != "" then Some(MessageIdTerm(id.messageId))
    else None
  }

  predicate Searchable(id: Ident, stamped: bool) {
    !id.weak && SearchTerms(id, stamped).Some?
  }

  /** The identity of the copy that is written: stamped at the front unless a stamp was there already. */
  function StoredIdent(id: Ident): Ident {
    if NeedsStamp(id) && !AlreadyStamped(id) then id.(stamp := StampValue(id)) else id
  }

  /** Whether an exact header search for a term answers with a message of this identity. */
  predicate Answers(term: Term, found: Ident) {
    match term
    case StampTerm(v) => found.stamp == v
    case MessageIdTerm(v) => found.messageId == v
  }

  /** Whether looking for `wanted` on a destination would answer with `found`. */
  predicate Hit(wanted: Ident, found: Ident) {
    Searchable(wanted, NeedsStamp(wanted)) && Answers(SearchTerms(wanted, NeedsStamp(wanted)).value, found)
  }

  /** Every message that is not too thin can be looked for, and the copy written of it answers the search. */
  lemma StoredCopyIsFound(id: Ident)
    ensures Searchable(id, NeedsStamp(id)) <==> !id.weak
    ensures !id.weak ==> Hit(id, StoredIdent(id))
    ensures StoredIdent(id).digest == id.digest && StoredIdent(id).weak == id.weak
  {
  }

  /** Copying a copy changes its identity no further: a stamp is written once. */
  lemma StampedOnce(id: Ident)
    requires id.digest != ""
    ensures StoredIdent(StoredIdent(id)) == StoredIdent(id)
    ensures StampValue(StoredIdent(id)) == StampValue(id)
  {
  }

  /* ---------- the framing of the digest ---------- */

  const VALUE_SEP := 1 as char
  const FIELD_TERM := 2 as char

  /**
   A header value that holds neither framing byte, as RFC 5322 requires of every
   one. Normalising a value collapses its whitespace and takes no such byte out,
   so this rests on the header reader alone.
   */
  predicate Plain(v: string) {
    VALUE_SEP !in v && FIELD_TERM !in v
  }

  function FrameValues(values: seq<string>): string {
    if values == [] then ""
    else if |values| == 1 then values[0]
    else values[0] + [VALUE_SEP] + FrameValues(values[1..])
  }

  function Frame(fields: seq<seq<string>>): string {
    if fields == [] then "" else FrameValues(fields[0]) + [FIELD_TERM] + Frame(fields[1..])
  }

  /** A field that is absent and one that is present but empty are framed alike; nothing else is. */
  function Canonical(values: seq<string>): seq<string> {
    if values == [] then [""] else values
  }

  predicate PlainFields(fields: seq<seq<string>>) {
    forall i, j :: 0 <= i < |fields| && 0 <= j < |fields[i]| ==> Plain(fields[i][j])
  }

  /** Two strings that split at the first occurrence of a character split alike. */
  lemma {:induction false} SplitAtFirst(a: string, b: string, x: string, y: string, c: char)
    requires c !in a && c !in b && a + [c] + x == b + [c] + y
    ensures a == b && x == y
  {
    var s := a + [c] + x;
    assert s == b + [c] + y;
    assert s[|a|] == c && s[|b|] == c;
    assert forall i :: 0 <= i < |a| ==> s[i] == a[i] && s[i] != c;
    assert forall i :: 0 <= i < |b| ==> s[i] == b[i] && s[i] != c;
    assert |a| == |b|;
    assert a == s[..|a|] && b == s[..|b|];
    assert x == s[|a| + 1..] && y == s[|b| + 1..];
  }

  lemma {:induction false} FrameValuesPlain(values: seq<string>)
    requires forall j :: 0 <= j < |values| ==> Plain(values[j])
    ensures FIELD_TERM !in FrameValues(values)
    ensures VALUE_SEP in FrameValues(values) <==> |values| > 1
  {
    if |values| > 1 {
      FrameValuesPlain(values[1..]);
      assert FrameValues(values)[|values[0]|] == VALUE_SEP;
    }
  }

  lemma {:induction false} FrameValuesInjective(v: seq<string>, w: seq<string>)
    requires forall j :: 0 <= j < |v| ==> Plain(v[j])
    requires forall j :: 0 <= j < |w| ==> Plain(w[j])
    requires FrameValues(v) == FrameValues(w)
    ensures Canonical(v) == Canonical(w)
    decreases |v|
  {
    FrameValuesPlain(v);
    FrameValuesPlain(w);
    if |v| > 1 {
      SplitAtFirst(v[0], w[0], FrameValues(v[1..]), FrameValues(w[1..]), VALUE_SEP);
      FrameValuesInjective(v[1..], w[1..]);
      assert v == [v[0]] + v[1..] && w == [w[0]] + w[1..];
    }
  }

  /**
   No arrangement of plain header values can imitate another: equal framings of
   the same fields mean equal values in every one of them.
   */
  lemma {:induction false} FrameInjective(a: seq<seq<string>>, b: seq<seq<string>>)
    requires |a| == |b| && PlainFields(a) && PlainFields(b) && Frame(a) == Frame(b)
    ensures forall i :: 0 <= i < |a| ==> Canonical(a[i]) == Canonical(b[i])
  {
    if a != [] {
      FrameValuesPlain(a[0]);
      FrameValuesPlain(b[0]);
      SplitAtFirst(FrameValues(a[0]), FrameValues(b[0]), Frame(a[1..]), Frame(b[1..]), FIELD_TERM);
      FrameValuesInjective(a[0], b[0]);
      assert PlainFields(a[1..]) && PlainFields(b[1..]);
      FrameInjective(a[1..], b[1..]);
      forall i | 0 <= i < |a|
        ensures Canonical(a[i]) == Canonical(b[i])
      {
        if i > 0 {
          assert a[i] == a[1..][i - 1] && b[i] == b[1..][i - 1];
        }
      }
    }
  }
}
