/**
 Asking a criteria of one message after another. The tests are made in the order
 of what they cost, a file is opened only when a test needs it and at most once,
 and one that cannot be read makes the whole search fail rather than answer
 without it.
 */
module SearchEvaluator {
  import opened Wrappers
  import opened SearchCriteria

  type File = Result<Content, string>

  /** Whether any test of the criteria itself, not of a nested one, needs the file. */
  predicate NeedsFile(c: Criteria) {
    !IsZero(c.sentSince) || !IsZero(c.sentBefore) || c.header != [] || c.body != [] || c.text != []
  }

  function ContentVerdict(c: Criteria, file: File): Result<bool, string> {
    if !NeedsFile(c) then Ok(true)
    else if file.Err? then Err(file.error)
    else Ok(OnContent(c, file.value))
  }

  /** None of `nots[i..]` matches, asked in order. */
  function NotsVerdict(c: Criteria, i: nat, m: Candidate, file: File): Result<bool, string>
    requires i <= |c.nots|
    decreases c, 0, |c.nots| - i
  {
    if i == |c.nots| then Ok(true)
    else
      var v := Verdict(c.nots[i], m, file);
      if v.Err? then v else if v.value then Ok(false) else NotsVerdict(c, i + 1, m, file)
  }

  function EitherVerdict(c: Criteria, i: nat, m: Candidate, file: File): Result<bool, string>
    requires i < |c.ors|
    decreases c, 0, 0
  {
    assert c.ors[i] in c.ors;
    var left := Verdict(c.ors[i].0, m, file);
    if left.Err? || left.value then left else Verdict(c.ors[i].1, m, file)
  }

  function OrsVerdict(c: Criteria, i: nat, m: Candidate, file: File): Result<bool, string>
    requires i <= |c.ors|
    decreases c, 1, |c.ors| - i
  {
    if i == |c.ors| then Ok(true)
    else
      var v := EitherVerdict(c, i, m, file);
      if v.Err? || !v.value then v else OrsVerdict(c, i + 1, m, file)
  }

  function Verdict(c: Criteria, m: Candidate, file: File): Result<bool, string>
    decreases c, 2, 0
  {
    if !OnIndex(c, m) then Ok(false)
    else
      var content := ContentVerdict(c, file);
      if content.Err? || !content.value then content
      else
        var nots := NotsVerdict(c, 0, m, file);
        if nots.Err? || !nots.value then nots else OrsVerdict(c, 0, m, file)
  }

  /* ---------- what the answer means ---------- */


  /** `v` is what is so of `f`, unless the file could not be read and `v` says that. */
  predicate Answers(v: Result<bool, string>, truth: bool, file: File) {
    if v.Ok? then v.value == truth else file.Err? && v.error == file.error
  }

  lemma ContentAnswers(c: Criteria, file: File, f: Content)
    requires file.Ok? ==> file.value == f
    ensures Answers(ContentVerdict(c, file), OnContent(c, f), file)
  {
  }

  lemma {:induction false} NotsAnswer(c: Criteria, i: nat, m: Candidate, file: File, f: Content)
    requires (file.Ok? ==> file.value == f) && i <= |c.nots|
    ensures Answers(NotsVerdict(c, i, m, file), forall k :: i <= k < |c.nots| ==> !Selects(c.nots[k], m, f), file)
    decreases c, 0, |c.nots| - i
  {
    hide Selects, Verdict;
    if i < |c.nots| {
      VerdictAnswers(c.nots[i], m, file, f);
      NotsAnswer(c, i + 1, m, file, f);
    }
  }

  lemma {:induction false} OrsAnswer(c: Criteria, i: nat, m: Candidate, file: File, f: Content)
    requires (file.Ok? ==> file.value == f) && i <= |c.ors|
    ensures Answers(OrsVerdict(c, i, m, file),
                    forall k :: i <= k < |c.ors| ==> Selects(c.ors[k].0, m, f) || Selects(c.ors[k].1, m, f), file)
    decreases c, 1, |c.ors| - i
  {
    hide Selects, Verdict;
    if i < |c.ors| {
      assert c.ors[i] in c.ors;
      VerdictAnswers(c.ors[i].0, m, file, f);
      VerdictAnswers(c.ors[i].1, m, file, f);
      OrsAnswer(c, i + 1, m, file, f);
    }
  }

  /**
   The stepwise evaluation answers what the criteria selects. When the file can
   be read it always answers; when it cannot, it either fails with the reading
   error or gives the answer that every possible content would.
   */
  lemma {:induction false} VerdictAnswers(c: Criteria, m: Candidate, file: File, f: Content)
    requires file.Ok? ==> file.value == f
    ensures Answers(Verdict(c, m, file), Selects(c, m, f), file)
    decreases c, 2, 0
  {
    ContentAnswers(c, file, f);
    NotsAnswer(c, 0, m, file, f);
    OrsAnswer(c, 0, m, file, f);
    hide OnIndex, OnContent, ContentVerdict, NotsVerdict, OrsVerdict;
  }

  /** A criteria of flags, dates, sizes and UIDs alone is answered whether the file can be read or not. */
  lemma IndexOnlyNeverFails(c: Criteria, m: Candidate, file: File)
    requires !NeedsFile(c) && c.nots == [] && c.ors == []
    ensures Verdict(c, m, file) == Ok(OnIndex(c, m))
  {
  }

  /* ---------- one message ---------- */

  class Message {
    const about: Candidate
    const disk: File
    var loaded: bool
    var raw: File
    var headerParsed: bool
    var sent: Moment

    /** What is remembered is what the file says. */
    ghost predicate Valid()
      reads this
    {
      Cached() && (headerParsed && disk.Ok? ==> sent == disk.value.sent)
    }

    ghost predicate Cached()
      reads this
    {
      loaded ==> raw == disk
    }

    /** No failure has been met yet. A date asked for again after one would come back unset and unreported. */
    ghost predicate Usable()
      reads this
    {
      Valid() && (headerParsed ==> disk.Ok?)
    }

    constructor (about: Candidate, disk: File)
      ensures this.about == about && this.disk == disk && Usable() && !loaded
    {
      this.about, this.disk := about, disk;
      loaded, headerParsed := false, false;
      raw := Err("");
      sent := NEVER_SET;
    }

    /** Reads the file the first time, and remembers the failure as much as the content. */
    method Load() returns (r: File)
      requires Cached()
      modifies this`loaded, this`raw
      ensures Cached() && r == disk && loaded
    {
      if !loaded {
        loaded := true;
        raw := disk;
      }
      r := raw;
    }

    method SentDate() returns (r: Result<Moment, string>)
      requires Usable()
      modifies this
      ensures r == if disk.Ok? then Ok(disk.value.sent) else Err(disk.error)
      ensures Valid() && (r.Ok? ==> Usable())
    {
      if headerParsed {
        return Ok(sent);
      }
      headerParsed := true;
      var header := Load();
      if header.Err? {
        return Err(header.error);
      }
      sent := header.value.sent;
      r := Ok(sent);
    }

    method MatchesContent(c: Criteria) returns (r: Result<bool, string>)
      requires Usable()
      modifies this
      ensures r == ContentVerdict(c, disk)
      ensures r.Ok? ==> Usable()
    {
      if !IsZero(c.sentSince) || !IsZero(c.sentBefore) {
        var date := SentDate();
        if date.Err? {
          return Err(date.error);
        }
        if !IsZero(c.sentSince) && date.value.day < c.sentSince.day {
          return Ok(false);
        }
        if !IsZero(c.sentBefore) && !(date.value.day < c.sentBefore.day) {
          return Ok(false);
        }
      }
      for i := 0 to |c.header|
        invariant Usable() && (i > 0 ==> disk.Ok?) && (NeedsSent(c) ==> disk.Ok?) &&
          (disk.Ok? ==> OnSent(c, disk.value))
        invariant disk.Ok? ==> forall k :: 0 <= k < i ==> disk.value.headerHas(c.header[k].name, c.header[k].value)
      {
        var header := Load();
        if header.Err? {
          return Err(header.error);
        }
        if !header.value.headerHas(c.header[i].name, c.header[i].value) {
          return Ok(false);
        }
      }
      for i := 0 to |c.body|
        invariant Usable() && (i > 0 ==> disk.Ok?) && (NeedsSent(c) || c.header != [] ==> disk.Ok?)
        invariant disk.Ok? ==> OnSent(c, disk.value)
        invariant disk.Ok? ==> forall k :: 0 <= k < |c.header| ==>
          disk.value.headerHas(c.header[k].name, c.header[k].value)
        invariant disk.Ok? ==> forall k :: 0 <= k < i ==> disk.value.bodyHas(c.body[k])
      {
        var body := Load();
        if body.Err? {
          return Err(body.error);
        }
        if !body.value.bodyHas(c.body[i]) {
          return Ok(false);
        }
      }
      for i := 0 to |c.text|
        invariant Usable() && (i > 0 ==> disk.Ok?) && (NeedsSent(c) || c.header != [] || c.body != [] ==> disk.Ok?)
        invariant disk.Ok? ==> OnSent(c, disk.value)
        invariant disk.Ok? ==> forall k :: 0 <= k < |c.header| ==>
          disk.value.headerHas(c.header[k].name, c.header[k].value)
        invariant disk.Ok? ==> forall k :: 0 <= k < |c.body| ==> disk.value.bodyHas(c.body[k])
        invariant disk.Ok? ==> forall k :: 0 <= k < i ==> disk.value.textHas(c.text[k])
      {
        var text := Load();
        if text.Err? {
          return Err(text.error);
        }
        if !text.value.textHas(c.text[i]) {
          return Ok(false);
        }
      }
      r := Ok(true);
    }

    method MatchesIndex(c: Criteria) returns (r: bool)
      ensures r == OnIndex(c, about)
    {
      for i := 0 to |c.seqNum|
        invariant forall k :: 0 <= k < i ==> Contains(c.seqNum[k], about.position)
      {
        if !Contains(c.seqNum[i], about.position) {
          return false;
        }
      }
      for i := 0 to |c.uid|
        invariant forall k :: 0 <= k < i ==> Contains(c.uid[k], about.uid)
      {
        if !Contains(c.uid[i], about.uid) {
          return false;
        }
      }
      if !IsZero(c.since) && about.arrived.day < c.since.day {
        return false;
      }
      if !IsZero(c.before) && !(about.arrived.day < c.before.day) {
        return false;
      }
      if c.larger > 0 && about.size <= c.larger {
        return false;
      }
      if c.smaller > 0 && about.size >= c.smaller {
        return false;
      }
      for i := 0 to |c.flag|
        invariant forall k :: 0 <= k < i ==> HasFlag(about.flags, c.flag[k])
      {
        if !HasFlag(about.flags, c.flag[i]) {
          return false;
        }
      }
      for i := 0 to |c.notFlag|
        invariant forall k :: 0 <= k < i ==> !HasFlag(about.flags, c.notFlag[k])
      {
        if HasFlag(about.flags, c.notFlag[i]) {
          return false;
        }
      }
      r := true;
    }

    method Matches(c: Criteria) returns (r: Result<bool, string>)
      requires Usable()
      modifies this
      ensures r == Verdict(c, about, disk)
      ensures r.Ok? ==> Usable()
      decreases c, 1
    {
      var index := MatchesIndex(c);
      if !index {
        return Ok(false);
      }
      r := MatchesContent(c);
      if r.Err? || !r.value {
        return;
      }
      r := MatchesNested(c);
    }

    method MatchesNested(c: Criteria) returns (r: Result<bool, string>)
      requires Usable()
      modifies this
      ensures var nots := NotsVerdict(c, 0, about, disk);
              r == if nots.Err? || !nots.value then nots else OrsVerdict(c, 0, about, disk)
      ensures r.Ok? ==> Usable()
      decreases c, 0
    {
      hide Verdict;
      for i := 0 to |c.nots|
        invariant Usable() && NotsVerdict(c, 0, about, disk) == NotsVerdict(c, i, about, disk)
      {
        r := Matches(c.nots[i]);
        if r.Err? {
          return;
        }
        if r.value {
          return Ok(false);
        }
      }
      for i := 0 to |c.ors|
        invariant Usable() && NotsVerdict(c, 0, about, disk) == Ok(true)
        invariant OrsVerdict(c, 0, about, disk) == OrsVerdict(c, i, about, disk)
      {
        assert c.ors[i] in c.ors;
        r := Matches(c.ors[i].0);
        if r.Err? {
          return;
        }
        if !r.value {
          r := Matches(c.ors[i].1);
          if r.Err? || !r.value {
            return;
          }
        }
      }
      r := Ok(true);
    }
  }

  predicate NeedsSent(c: Criteria) { !IsZero(c.sentSince) || !IsZero(c.sentBefore) }

  /* ---------- a folder ---------- */

  /** The UIDs of the messages that match, in the order of the records, or the first failure met. */
  function Found(c: Criteria, records: seq<Candidate>, files: map<nat, File>): Result<seq<nat>, string>
    requires forall i :: 0 <= i < |records| ==> records[i].uid in files
  {
    if records == [] then Ok([])
    else
      var n := |records| - 1;
      var before := Found(c, records[..n], files);
      if before.Err? then before
      else
        var v := Verdict(c, records[n], files[records[n].uid]);
        if v.Err? then Err(v.error)
        else if v.value then Ok(before.value + [records[n].uid]) else before
  }

  method Evaluate(c: Option<Criteria>, records: seq<Candidate>, files: map<nat, File>)
      returns (r: Result<seq<nat>, string>)
    requires forall i :: 0 <= i < |records| ==> records[i].uid in files
    ensures c.Some? ==> r == Found(c.value, records, files)
    ensures c.None? ==> r.Ok? && |r.value| == |records| && forall i :: 0 <= i < |records| ==>
      r.value[i] == records[i].uid
  {
    var out: seq<nat> := [];
    if c.None? {
      for i := 0 to |records|
        invariant |out| == i && forall k :: 0 <= k < i ==> out[k] == records[k].uid
      {
        out := out + [records[i].uid];
      }
      return Ok(out);
    }
    for i := 0 to |records|
      invariant Found(c.value, records[..i], files) == Ok(out)
    {
      assert records[..i + 1][..i] == records[..i];
      var m := new Message(records[i], files[records[i].uid]);
      var v := m.Matches(c.value);
      if v.Err? {
        FailureStays(c.value, records, i + 1, files);
        return Err(v.error);
      }
      if v.value {
        out := out + [records[i].uid];
      }
    }
    assert records[..|records|] == records;
    r := Ok(out);
  }

  lemma {:induction false} FailureStays(c: Criteria, records: seq<Candidate>, i: nat, files: map<nat, File>)
    requires i <= |records| && forall k :: 0 <= k < |records| ==> records[k].uid in files
    requires Found(c, records[..i], files).Err?
    ensures Found(c, records, files) == Found(c, records[..i], files)
    decreases |records| - i
  {
    if i < |records| {
      assert records[..i + 1][..i] == records[..i];
      FailureStays(c, records, i + 1, files);
    } else {
      assert records[..i] == records;
    }
  }

  /** The messages a criteria selects, in the order of the records. */
  function Chosen(c: Criteria, records: seq<Candidate>, contents: map<nat, Content>): seq<nat>
    requires forall i :: 0 <= i < |records| ==> records[i].uid in contents
  {
    if records == [] then []
    else
      var n := |records| - 1;
      Chosen(c, records[..n], contents) +
      if Selects(c, records[n], contents[records[n].uid]) then [records[n].uid] else []
  }

  /**
   A search that answers names exactly the messages the criteria selects, whatever the files it could not read
   hold.
   */
  lemma {:induction false} FoundIsChosen(c: Criteria, records: seq<Candidate>, files: map<nat, File>,
      contents: map<nat, Content>)
    requires forall i :: 0 <= i < |records| ==> records[i].uid in files && records[i].uid in contents
    requires forall u :: u in files && u in contents && files[u].Ok? ==> files[u].value == contents[u]
    ensures Found(c, records, files).Ok? ==> Found(c, records, files).value == Chosen(c, records, contents)
    ensures (forall u :: u in files ==> files[u].Ok?) ==> Found(c, records, files).Ok?
  {
    if records != [] {
      var n := |records| - 1;
      FoundIsChosen(c, records[..n], files, contents);
      VerdictAnswers(c, records[n], files[records[n].uid], contents[records[n].uid]);
      hide Selects, Verdict;
    }
  }
}
