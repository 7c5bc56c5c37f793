/**
 The names of the local store: folders as directories, messages as files. What
 is written can be read back, and a folder, a shard and a hidden file are never
 taken for one another.
 */
module LocalNames {
  import opened Wrappers
  import opened Text

  const MESSAGE_EXT := ".eml"
  const UID_DIGITS: nat := 10
  const SHARD_SIZE: nat := 10000
  const SHARD_PREFIX := '+'
  const UID_LIMIT: nat := 0x1_0000_0000

  predicate IsBytes(s: string) { forall i :: 0 <= i < |s| ==> s[i] as int < 256 }

  /* ---------- one level of a folder name ---------- */

  predicate SafeByte(c: char) {
    'a' <= c <= 'z' || 'A' <= c <= 'Z' || '0' <= c <= '9' || c as int >= 0x80 ||
    c == ' ' || c == '.' || c == '_' || c == '-' || c == '(' || c == ')' || c == ',' || c == '\'' || c == '!' ||
      c == '='
  }

  function HexDigit(n: nat): char
    requires n < 16
  {
    if n < 10 then ('0' as int + n) as char else ('A' as int + n - 10) as char
  }

  function HexValue(c: char): Option<nat> {
    if '0' <= c <= '9' then Some(c as int - '0' as int)
    else if 'A' <= c <= 'F' then Some(c as int - 'A' as int + 10)
    else if 'a' <= c <= 'f' then Some(c as int - 'a' as int + 10)
    else None
  }

  /** A byte as it is written; at the start of a name two more have to be escaped. */
  function EncodedByte(c: char, leading: bool): string
    requires c as int < 256
  {
    if SafeByte(c) && !(leading && (c == SHARD_PREFIX || c == '.')) then [c]
    else ['%', HexDigit(c as int / 16), HexDigit(c as int % 16)]
  }

  function EncodedFrom(s: string, leading: bool): string
    requires IsBytes(s)
  {
    if s == "" then "" else EncodedByte(s[0], leading) + EncodedFrom(s[1..], false)
  }

  function EncodedSegment(s: string): string
    requires IsBytes(s)
  {
    if s == "" then "%00" else EncodedFrom(s, true)
  }

  predicate Escape(s: string) {
    |s| > 2 && s[0] == '%' && HexValue(s[1]).Some? && HexValue(s[2]).Some?
  }

  function EscapedChar(s: string): char
    requires Escape(s)
  {
    (HexValue(s[1]).value * 16 + HexValue(s[2]).value) as char
  }

  function DecodedSegment(s: string): string {
    if s == "" then ""
    else if Escape(s) then [EscapedChar(s)] + DecodedSegment(s[3..])
    else [s[0]] + DecodedSegment(s[1..])
  }

  lemma {:induction false} EncodedGrows(s: string, c: char, leading: bool)
    requires IsBytes(s) && c as int < 256
    ensures IsBytes(s + [c]) && EncodedFrom(s + [c], leading) ==
      EncodedFrom(s, leading) + EncodedByte(c, leading && s == "")
  {
    if s != "" {
      assert (s + [c])[1..] == s[1..] + [c];
      EncodedGrows(s[1..], c, false);
      var e, f, g := EncodedByte(s[0], leading), EncodedFrom(s[1..], false), EncodedByte(c, false);
      assert e + (f + g) == (e + f) + g;
    } else {
      assert s + [c] == [c];
    }
  }

  method EncodeSegment(s: string) returns (r: string)
    requires IsBytes(s)
    ensures r == EncodedSegment(s)
  {
    if s == "" {
      return "%00";
    }
    r := "";
    for i := 0 to |s|
      invariant r == EncodedFrom(s[..i], true)
    {
      var c := s[i];
      assert s[..i + 1] == s[..i] + [c];
      EncodedGrows(s[..i], c, true);
      if SafeByte(c) && !(i == 0 && (c == SHARD_PREFIX || c == '.')) {
        r := r + [c];
      } else {
        r := r + ['%', HexDigit(c as int / 16), HexDigit(c as int % 16)];
      }
    }
    assert s[..|s|] == s;
  }

  lemma {:induction false} NothingToDecode(s: string)
    requires '%' !in s
    ensures DecodedSegment(s) == s
  {
    if s != "" {
      NothingToDecode(s[1..]);
    }
  }

  lemma DecodeStep(s: string, i: nat, r: string)
    requires i < |s|
    ensures r + DecodedSegment(s[i..]) ==
            if Escape(s[i..]) then (r + [EscapedChar(s[i..])]) + DecodedSegment(s[i + 3..])
            else (r + [s[i]]) + DecodedSegment(s[i + 1..])
  {
    if Escape(s[i..]) {
      assert s[i..][3..] == s[i + 3..];
    } else {
      assert s[i..][1..] == s[i + 1..];
    }
  }

  method DecodeSegment(s: string) returns (r: string)
    ensures r == DecodedSegment(s)
  {
    if '%' !in s {
      NothingToDecode(s);
      return s;
    }
    hide DecodedSegment, EscapedChar;
    r := "";
    var i := 0;
    assert s[0..] == s && "" + DecodedSegment(s) == DecodedSegment(s);
    while i < |s|
      invariant i <= |s| && DecodedSegment(s) == r + DecodedSegment(s[i..])
    {
      DecodeStep(s, i, r);
      if s[i] == '%' && i + 2 < |s| && HexValue(s[i + 1]).Some? && HexValue(s[i + 2]).Some? {
        r := r + [EscapedChar(s[i..])];
        i := i + 3;
      } else {
        r := r + [s[i]];
        i := i + 1;
      }
    }
    assert s[i..] == "" && r + "" == r;
    NothingToDecode("");
  }

  lemma HexReadsBack(n: nat)
    requires n < 16
    ensures HexValue(HexDigit(n)) == Some(n)
  {
  }

  lemma ByteReadsBack(c: char, leading: bool, rest: string)
    requires c as int < 256
    ensures DecodedSegment(EncodedByte(c, leading) + rest) == [c] + DecodedSegment(rest)
  {
    var e := EncodedByte(c, leading);
    var s := e + rest;
    HexReadsBack(c as int / 16);
    HexReadsBack(c as int % 16);
    if |e| == 1 {
      assert s[0] == c && s[1..] == rest;
    } else {
      assert s[..3] == e && s[3..] == rest;
      assert Escape(s) && EscapedChar(s) == c;
    }
  }

  lemma {:induction false} EncodedReadsBack(s: string, leading: bool)
    requires IsBytes(s)
    ensures DecodedSegment(EncodedFrom(s, leading)) == s
  {
    if s != "" {
      EncodedReadsBack(s[1..], false);
      ByteReadsBack(s[0], leading, EncodedFrom(s[1..], false));
      assert [s[0]] + s[1..] == s;
    }
  }

  /** A level of a name is read back as it was, exactly when it is not empty. */
  lemma SegmentReadsBackIffNotEmpty(s: string)
    requires IsBytes(s)
    ensures DecodedSegment(EncodedSegment(s)) == s <==> s != ""
  {
    if s != "" {
      EncodedReadsBack(s, true);
    } else {
      assert Escape("%00");
    }
  }

  predicate Plain(c: char) { c == '%' || SafeByte(c) }

  lemma {:induction false} EncodedIsPlain(s: string, leading: bool)
    requires IsBytes(s)
    ensures forall i :: 0 <= i < |EncodedFrom(s, leading)| ==> Plain(EncodedFrom(s, leading)[i])
    ensures |EncodedFrom(s, leading)| >= |s|
    ensures IsBytes(EncodedFrom(s, leading))
  {
    if s != "" {
      EncodedIsPlain(s[1..], false);
    }
  }

  /** It is no separator, no shard and nothing hidden, and it is never empty. */
  lemma SegmentKeepsItsPlace(s: string)
    requires IsBytes(s)
    ensures var e := EncodedSegment(s);
            e != "" && '/' !in e && e[0] != SHARD_PREFIX && e[0] != '.' && !IsShardDir(e) && IsBytes(e)
  {
    EncodedIsPlain(s, true);
  }

  /** Which bytes are written as they are: not the first of a name, if it would make it a shard or hide it. */
  lemma WrittenAsIsIff(c: char, leading: bool)
    requires c as int < 256
    ensures EncodedByte(c, leading) == [c] <==>
            ('a' <= c <= 'z' || 'A' <= c <= 'Z' || '0' <= c <= '9' || 0x80 <= c as int || c in " ._-(),'!=") &&
            !(leading && c == '.')
    ensures EncodedByte(c, leading) != [c] ==> |EncodedByte(c, leading)| == 3
  {
  }

  /** What a name is written with: letters, digits, bytes beyond ASCII, and punctuation every file system takes. */
  lemma SegmentIsPortable(s: string, i: nat)
    requires IsBytes(s) && i < |EncodedSegment(s)|
    ensures var c := EncodedSegment(s)[i];
            'a' <= c <= 'z' || 'A' <= c <= 'Z' || '0' <= c <= '9' || 0x80 <= c as int < 256 || c in " ._-(),'!=%"
  {
    EncodedIsPlain(s, true);
  }

  /** Different names get different directories. */
  lemma SegmentsStayApart(s: string, t: string)
    requires IsBytes(s) && IsBytes(t) && s != "" && t != "" && EncodedSegment(s) == EncodedSegment(t)
    ensures s == t
  {
    SegmentReadsBackIffNotEmpty(s);
    SegmentReadsBackIffNotEmpty(t);
  }

  /* ---------- messages ---------- */

  /** `n` in `k` decimal digits, padded with zeros. */
  function Padded(n: nat, k: nat): (s: string)
    ensures |s| == k && AllDigits(s)
  {
    if k == 0 then "" else Padded(n / 10, k - 1) + [('0' as int + n % 10) as char]
  }

  function Power10(k: nat): nat {
    if k == 0 then 1 else 10 * Power10(k - 1)
  }

  lemma TenDigits()
    ensures Power10(UID_DIGITS) == 10000000000
  {
    assert Power10(5) == 100000;
    assert Power10(10) == 10 * 10 * 10 * 10 * 10 * Power10(5);
  }

  lemma {:induction false} PaddedReadsBack(n: nat, k: nat)
    requires n < Power10(k)
    ensures Decimal(Padded(n, k)) == n
  {
    if k > 0 {
      PaddedReadsBack(n / 10, k - 1);
      var s := Padded(n, k);
      assert s[..|s| - 1] == Padded(n / 10, k - 1);
    }
  }

  lemma {:induction false} DigitsArePadded(s: string)
    requires AllDigits(s)
    ensures Decimal(s) < Power10(|s|) && Padded(Decimal(s), |s|) == s
  {
    if s != "" {
      var t, c := s[..|s| - 1], s[|s| - 1];
      DigitsArePadded(t);
      assert s == t + [c];
      assert Decimal(s) / 10 == Decimal(t) && Decimal(s) % 10 == c as int - '0' as int;
    }
  }

  /** Padded numbers are ordered as strings the way they are as numbers. */
  lemma {:induction false} PaddedInOrder(n: nat, m: nat, k: nat) returns (i: nat)
    requires n < m < Power10(k)
    ensures i < k && Padded(n, k)[..i] == Padded(m, k)[..i] && Padded(n, k)[i] < Padded(m, k)[i]
  {
    var a, b := Padded(n / 10, k - 1), Padded(m / 10, k - 1);
    if n / 10 == m / 10 {
      i := k - 1;
      assert Padded(n, k)[..i] == a && Padded(m, k)[..i] == b;
    } else {
      i := PaddedInOrder(n / 10, m / 10, k - 1);
      assert Padded(n, k)[..i] == a[..i] && Padded(m, k)[..i] == b[..i];
    }
  }

  function MessageName(uid: nat): string { Padded(uid, UID_DIGITS) + MESSAGE_EXT }

  function ShardName(uid: nat): string { [SHARD_PREFIX] + Padded(uid / SHARD_SIZE * SHARD_SIZE, UID_DIGITS) }

  predicate IsShardDir(name: string) {
    |name| == UID_DIGITS + 1 && name[0] == SHARD_PREFIX && AllDigits(name[1..])
  }

  function MessageRel(uid: nat): string {
    if uid < SHARD_SIZE then MessageName(uid) else ShardName(uid) + "/" + MessageName(uid)
  }

  predicate IsMessageName(name: string) {
    |name| >= |MESSAGE_EXT| && name[|name| - |MESSAGE_EXT|..] == MESSAGE_EXT
  }

  function ParseMessageName(name: string): Option<nat> {
    if !IsMessageName(name) then None
    else
      var digits := name[..|name| - |MESSAGE_EXT|];
      if |digits| == UID_DIGITS && AllDigits(digits) && 0 < Decimal(digits) < UID_LIMIT then Some(Decimal(digits))
      else None
  }

  /** Every UID but zero is read back from the name of its file, and nothing else is read as a UID. */
  lemma MessageNamesRoundTrip(uid: nat, name: string)
    requires uid < UID_LIMIT
    ensures ParseMessageName(MessageName(uid)) == if uid == 0 then None else Some(uid)
    ensures ParseMessageName(name).Some? ==> name == MessageName(ParseMessageName(name).value)
  {
    TenDigits();
    PaddedReadsBack(uid, UID_DIGITS);
    var n := MessageName(uid);
    assert n[..|n| - |MESSAGE_EXT|] == Padded(uid, UID_DIGITS) && n[|n| - |MESSAGE_EXT|..] == MESSAGE_EXT;
    if ParseMessageName(name).Some? {
      var digits := name[..|name| - |MESSAGE_EXT|];
      DigitsArePadded(digits);
      assert name == digits + MESSAGE_EXT;
    }
  }

  /** The order a file browser shows is the order of the UIDs. */
  lemma MessageNamesInOrder(uid: nat, other: nat)
    requires uid < other < UID_LIMIT
    ensures Less(MessageName(uid), MessageName(other))
  {
    TenDigits();
    var i := PaddedInOrder(uid, other, UID_DIGITS);
    var a, b := MessageName(uid), MessageName(other);
    assert a[..i] == Padded(uid, UID_DIGITS)[..i] && b[..i] == Padded(other, UID_DIGITS)[..i];
    assert a[i] == Padded(uid, UID_DIGITS)[i] && b[i] == Padded(other, UID_DIGITS)[i];
    LessAt(a, b, i);
  }

  /** A message's name holds no separator and is never that of a shard; a shard's is. */
  lemma MessagesAreNotShards(uid: nat)
    requires uid < UID_LIMIT
    ensures '/' !in MessageName(uid) && !IsShardDir(MessageName(uid))
    ensures '/' !in ShardName(uid) && IsShardDir(ShardName(uid)) && !IsMessageName(ShardName(uid))
  {
    assert forall i :: 0 <= i < UID_DIGITS ==> MessageName(uid)[i] == Padded(uid, UID_DIGITS)[i];
    var s := ShardName(uid);
    assert s[1..] == Padded(uid / SHARD_SIZE * SHARD_SIZE, UID_DIGITS);
    assert s[UID_DIGITS] == s[1..][UID_DIGITS - 1];
  }

  /**
   Where a message lies: ten digits that spell its UID, in the folder itself below ten
   thousand, and above that in the directory that spells the first of its ten thousand.
   */
  lemma LayoutIs(uid: nat) returns (digits: string, shard: string)
    requires uid < 4_294_967_296
    ensures |digits| == 10 && AllDigits(digits) && Decimal(digits) == uid
    ensures |shard| == 10 && AllDigits(shard) && Decimal(shard) == uid - uid % 10_000
    ensures MessageRel(uid) == (if uid < 10_000 then "" else "+" + shard + "/") + digits + ".eml"
  {
    TenDigits();
    digits, shard := Padded(uid, UID_DIGITS), Padded(uid / SHARD_SIZE * SHARD_SIZE, UID_DIGITS);
    PaddedReadsBack(uid, UID_DIGITS);
    PaddedReadsBack(uid / SHARD_SIZE * SHARD_SIZE, UID_DIGITS);
    assert uid < 10_000 ==> "" + digits + ".eml" == MessageRel(uid);
    assert uid >= 10_000 ==> "+" + shard + "/" + digits + ".eml" == MessageRel(uid);
  }

  /** Every message has a path of its own. */
  lemma PathsAreDistinct(uid: nat, other: nat)
    requires 0 < uid < UID_LIMIT && 0 < other < UID_LIMIT && MessageRel(uid) == MessageRel(other)
    ensures uid == other
  {
    var a, b := MessageRel(uid), MessageRel(other);
    assert a[|a| - |MessageName(uid)|..] == MessageName(uid);
    assert b[|b| - |MessageName(other)|..] == MessageName(other);
    MessageNamesRoundTrip(uid, "");
    MessageNamesRoundTrip(other, "");
  }

  /**
   A folder's level can be written like a message only by being named like one:
   a mailbox called 0000000001.eml and the first message of its parent want the
   same path.
   */
  lemma SegmentIsMessageNameIffNamedSo(s: string, uid: nat)
    requires IsBytes(s) && s != "" && uid < UID_LIMIT
    ensures EncodedSegment(s) == MessageName(uid) <==> s == MessageName(uid)
  {
    var n := MessageName(uid);
    NameIsSafe(uid);
    EncodedSafe(n, true);
    if EncodedSegment(s) == n {
      SegmentsStayApart(s, n);
    }
  }

  lemma NameIsSafe(uid: nat)
    ensures var n := MessageName(uid);
            n != "" && IsBytes(n) && n[0] != '.' && n[0] != SHARD_PREFIX && forall i :: 0 <= i < |n| ==> SafeByte(n[i])
  {
    var n := MessageName(uid);
    assert forall i :: 0 <= i < UID_DIGITS ==> n[i] == Padded(uid, UID_DIGITS)[i] && IsDigit(n[i]);
    assert n[UID_DIGITS..] == MESSAGE_EXT;
    assert forall i :: UID_DIGITS <= i < |n| ==> n[i] == MESSAGE_EXT[i - UID_DIGITS];
  }

  lemma {:induction false} EncodedSafe(s: string, leading: bool)
    requires IsBytes(s) && forall i :: 0 <= i < |s| ==> SafeByte(s[i])
    requires leading && s != "" ==> s[0] != '.' && s[0] != SHARD_PREFIX
    ensures EncodedFrom(s, leading) == s
  {
    if s != "" {
      EncodedSafe(s[1..], false);
      assert [s[0]] + s[1..] == s;
    }
  }

  /* ---------- a whole folder name ---------- */

  function JoinedAll(parts: seq<string>): string {
    if parts == [] then "" else Joined(parts, '/')
  }

  function NotEmpty(parts: seq<string>): seq<string> {
    if parts == [] then []
    else NotEmpty(parts[..|parts| - 1]) + if parts[|parts| - 1] == "" then [] else [parts[|parts| - 1]]
  }

  predicate AllBytes(parts: seq<string>) { forall i :: 0 <= i < |parts| ==> IsBytes(parts[i]) }

  function EncodedAll(parts: seq<string>): (r: seq<string>)
    requires AllBytes(parts)
    ensures |r| == |parts| && forall i :: 0 <= i < |parts| ==> r[i] == EncodedSegment(parts[i])
  {
    if parts == [] then [] else EncodedAll(parts[..|parts| - 1]) + [EncodedSegment(parts[|parts| - 1])]
  }

  function DecodedAll(parts: seq<string>): (r: seq<string>)
    ensures |r| == |parts| && forall i :: 0 <= i < |parts| ==> r[i] == DecodedSegment(parts[i])
  {
    if parts == [] then [] else DecodedAll(parts[..|parts| - 1]) + [DecodedSegment(parts[|parts| - 1])]
  }

  lemma {:induction false} PiecesAreBytes(s: string)
    requires IsBytes(s)
    ensures AllBytes(Split(s, '/'))
    decreases |s|
  {
    if IndexOf(s, '/') < |s| {
      PiecesAreBytes(s[IndexOf(s, '/') + 1..]);
    }
  }

  lemma {:induction false} NotEmptyAre(parts: seq<string>)
    ensures forall i :: 0 <= i < |NotEmpty(parts)| ==> NotEmpty(parts)[i] != "" && NotEmpty(parts)[i] in parts
    ensures |NotEmpty(parts)| <= |parts|
    ensures |NotEmpty(parts)| == |parts| <==> "" !in parts
    ensures "" !in parts ==> NotEmpty(parts) == parts
    ensures AllBytes(parts) ==> AllBytes(NotEmpty(parts))
  {
    if parts != [] {
      var ps, p := parts[..|parts| - 1], parts[|parts| - 1];
      NotEmptyAre(ps);
      assert parts == ps + [p];
    }
  }

  function FolderRel(name: string): string
    requires IsBytes(name)
  {
    PiecesAreBytes(name);
    NotEmptyAre(Split(name, '/'));
    JoinedAll(EncodedAll(NotEmpty(Split(name, '/'))))
  }

  function FolderName(rel: string): string {
    JoinedAll(DecodedAll(NotEmpty(Split(rel, '/'))))
  }

  /** The levels of a name, encoded, leaving out the empty ones. */
  method EncodeLevels(parts: seq<string>) returns (encoded: seq<string>)
    requires AllBytes(parts)
    ensures AllBytes(NotEmpty(parts)) && encoded == EncodedAll(NotEmpty(parts))
  {
    hide *;
    encoded := [];
    NothingEncoded();
    for i := 0 to |parts|
      invariant AllBytes(NotEmpty(parts[..i])) && encoded == EncodedAll(NotEmpty(parts[..i]))
    {
      PieceIsBytes(parts, i);
      NotEmptyOne(parts[..i], parts[i]);
      assert parts[..i + 1] == parts[..i] + [parts[i]];
      if parts[i] != "" {
        EncodedOne(NotEmpty(parts[..i]), parts[i]);
        var e := EncodeSegment(parts[i]);
        encoded := encoded + [e];
      }
    }
    assert parts[..|parts|] == parts;
  }

  lemma PieceIsBytes(parts: seq<string>, i: nat)
    requires AllBytes(parts) && i < |parts|
    ensures IsBytes(parts[i])
  {
  }

  lemma NothingEncoded()
    ensures NotEmpty([]) == [] && AllBytes([]) && EncodedAll([]) == []
  {
  }

  method FolderRelOf(name: string) returns (r: string)
    requires IsBytes(name)
    ensures r == FolderRel(name)
  {
    hide EncodedAll, NotEmpty, Split;
    PiecesAreBytes(name);
    var encoded := EncodeLevels(Split(name, '/'));
    r := JoinedAll(encoded);
  }

  method FolderNameOf(rel: string) returns (r: string)
    ensures r == FolderName(rel)
  {
    var parts := Split(rel, '/');
    var decoded: seq<string> := [];
    for i := 0 to |parts|
      invariant decoded == DecodedAll(NotEmpty(parts[..i]))
    {
      NotEmptyOne(parts[..i], parts[i]);
      assert parts[..i + 1] == parts[..i] + [parts[i]];
      if parts[i] != "" {
        DecodedOne(NotEmpty(parts[..i]), parts[i]);
        var d := DecodeSegment(parts[i]);
        decoded := decoded + [d];
      }
    }
    assert parts[..|parts|] == parts;
    r := JoinedAll(decoded);
  }

  lemma NotEmptyOne(ps: seq<string>, p: string)
    ensures NotEmpty(ps + [p]) == if p == "" then NotEmpty(ps) else NotEmpty(ps) + [p]
  {
    assert (ps + [p])[..|ps|] == ps;
    assert NotEmpty(ps) + [] == NotEmpty(ps);
  }

  lemma EncodedOne(ps: seq<string>, p: string)
    requires AllBytes(ps) && IsBytes(p)
    ensures AllBytes(ps + [p]) && EncodedAll(ps + [p]) == EncodedAll(ps) + [EncodedSegment(p)]
  {
    assert (ps + [p])[..|ps|] == ps;
  }

  lemma DecodedOne(ps: seq<string>, p: string)
    ensures DecodedAll(ps + [p]) == DecodedAll(ps) + [DecodedSegment(p)]
  {
    assert (ps + [p])[..|ps|] == ps;
  }

  /** Joining fewer pieces of a name makes a shorter one. */
  function Lengths(parts: seq<string>): nat {
    if parts == [] then 0 else |parts[0]| + Lengths(parts[1..])
  }

  lemma {:induction false} JoinedLength(parts: seq<string>)
    requires parts != []
    ensures |Joined(parts, '/')| == Lengths(parts) + |parts| - 1
  {
    if |parts| > 1 {
      JoinedLength(parts[1..]);
    }
  }

  lemma {:induction false} LengthsOne(ps: seq<string>, p: string)
    ensures Lengths(ps + [p]) == Lengths(ps) + |p|
  {
    if ps != [] {
      assert (ps + [p])[1..] == ps[1..] + [p];
      LengthsOne(ps[1..], p);
    } else {
      assert ps + [p] == [p];
    }
  }

  lemma {:induction false} SameLengthWithoutEmpty(parts: seq<string>)
    ensures Lengths(NotEmpty(parts)) == Lengths(parts)
  {
    if parts != [] {
      var ps, p := parts[..|parts| - 1], parts[|parts| - 1];
      assert parts == ps + [p];
      SameLengthWithoutEmpty(ps);
      LengthsOne(ps, p);
      NotEmptyOne(ps, p);
      LengthsOne(NotEmpty(ps), p);
    }
  }

  /** The levels of a path are read back one by one. */
  lemma LevelsReadBack(kept: seq<string>)
    requires kept != [] && AllBytes(kept) && forall i :: 0 <= i < |kept| ==> kept[i] != ""
    ensures DecodedAll(NotEmpty(Split(Joined(EncodedAll(kept), '/'), '/'))) == kept
  {
    hide DecodedSegment, EncodedSegment, IsShardDir, IsBytes, Split, Joined, NotEmpty;
    var enc := EncodedAll(kept);
    forall i | 0 <= i < |kept|
      ensures enc[i] != "" && '/' !in enc[i] && DecodedSegment(enc[i]) == kept[i]
    {
      SegmentKeepsItsPlace(kept[i]);
      SegmentReadsBackIffNotEmpty(kept[i]);
    }
    SplitInvertsJoining(enc, '/');
    NotEmptyAre(enc);
    assert DecodedAll(enc) == kept;
  }

  lemma NothingSplits()
    ensures Split("", '/') == [""] && NotEmpty([""]) == []
  {
    NotEmptyOne([], "");
    assert [] + [""] == [""];
  }

  /** What comes back from a folder's path is its name without the empty levels. */
  lemma FolderComesBack(name: string)
    requires IsBytes(name)
    ensures FolderName(FolderRel(name)) == JoinedAll(NotEmpty(Split(name, '/')))
  {
    PiecesAreBytes(name);
    NotEmptyAre(Split(name, '/'));
    hide Split, NotEmpty, DecodedAll, EncodedAll;
    var kept := NotEmpty(Split(name, '/'));
    if kept == [] {
      NothingSplits();
    } else {
      LevelsReadBack(kept);
    }
  }

  /** A folder's name comes back from its path exactly when it has no empty level, or is nothing but one. */
  lemma FolderReadsBackIff(name: string)
    requires IsBytes(name)
    ensures FolderName(FolderRel(name)) == name <==> name == "" || "" !in Split(name, '/')
  {
    var parts := Split(name, '/');
    FolderComesBack(name);
    JoiningInvertsSplit(name, '/');
    NotEmptyAre(parts);
    SameLengthWithoutEmpty(parts);
    JoinedLength(parts);
    if NotEmpty(parts) != [] {
      JoinedLength(NotEmpty(parts));
    } else {
      assert name == "" ==> parts == [""];
    }
  }

  /** Different folders have different paths. */
  lemma FoldersStayApart(a: string, b: string)
    requires IsBytes(a) && IsBytes(b) && "" !in Split(a, '/') && "" !in Split(b, '/') && FolderRel(a) == FolderRel(b)
    ensures a == b
  {
    FolderReadsBackIff(a);
    FolderReadsBackIff(b);
  }
}
