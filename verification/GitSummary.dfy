/** Reading `git diff --name-status -z` and `--numstat -z`, and joining the two by path. */
module GitSummary {
  import opened Options
  import opened Lines
  import Decimal
  import JsMap

  datatype Status = Added | Deleted | TypeChanged | Modified | Renamed | Copied

  datatype StatusRecord = StatusRecord(path: string, previousPath: Option<string>, status: Status)

  datatype StatRecord = StatRecord(path: string, previousPath: Option<string>, additions: int, deletions: int,
                                   binary: bool)

  datatype Summary = Summary(path: string, previousPath: Option<string>, status: Status,
                             additions: int, deletions: int, binary: bool)

  // ---------- NUL-separated fields ----------

  function SplitNul(text: string): (fields: seq<string>)
    ensures fields != []
  {
    var k := IndexOf(text, '\0');
    if k == |text| then [text] else [text[..k]] + SplitNul(text[k + 1..])
  }

  function NonEmpty(fields: seq<string>): (r: seq<string>)
    ensures forall f :: f in r ==> f != ""
  {
    if fields == [] then []
    else (if fields[0] == "" then [] else [fields[0]]) + NonEmpty(fields[1..])
  }

  /** Every field followed by a NUL, as git writes them. */
  function Terminated(fields: seq<string>): string {
    if fields == [] then "" else fields[0] + ['\0'] + Terminated(fields[1..])
  }

  predicate NulFree(fields: seq<string>) {
    forall f :: f in fields ==> '\0' !in f
  }

  lemma SplitNulCons(field: string, rest: string)
    requires '\0' !in field
    ensures SplitNul(field + ['\0'] + rest) == [field] + SplitNul(rest)
  {
    var text := field + ['\0'] + rest;
    assert forall i :: 0 <= i < |field| ==> text[i] == field[i];
    assert text[|field|] == '\0' && IndexOf(text, '\0') == |field|;
    assert text[..|field|] == field && text[|field| + 1..] == rest;
  }

  lemma {:induction false} SplitOfTerminated(fields: seq<string>)
    requires NulFree(fields)
    ensures SplitNul(Terminated(fields)) == fields + [""]
  {
    hide SplitNul;
    if fields == [] {
      SplitNulOfNothing();
    } else {
      assert forall f :: f in fields[1..] ==> f in fields;
      assert fields[0] in fields;
      SplitOfTerminated(fields[1..]);
      SplitNulCons(fields[0], Terminated(fields[1..]));
      assert fields == [fields[0]] + fields[1..];
    }
  }

  lemma SplitNulOfNothing()
    ensures SplitNul("") == [""]
  {
  }

  lemma {:induction false} NonEmptyOfAll(fields: seq<string>)
    requires forall f :: f in fields ==> f != ""
    ensures NonEmpty(fields + [""]) == fields
  {
    if fields == [] {
      assert [""][1..] == [];
    } else {
      assert forall f :: f in fields[1..] ==> f in fields;
      assert fields[0] in fields;
      NonEmptyOfAll(fields[1..]);
      assert (fields + [""])[1..] == fields[1..] + [""];
    }
  }

  /** What is left from `index` on; reading past the end leaves nothing. */
  function From(fields: seq<string>, index: nat): seq<string> {
    if index < |fields| then fields[index..] else []
  }

  /** fields[index], or undefined past the end. */
  function At(fields: seq<string>, index: nat): Option<string> {
    if index < |fields| then Some(fields[index]) else None
  }

  // ---------- Name-status ----------

  function StatusOf(code: Option<char>): Status {
    match code
    case Some('A') => Added
    case Some('D') => Deleted
    case Some('T') => TypeChanged
    case _ => Modified
  }

  /** The status letter, whether the record names two paths, and a path after a tab. */
  function ParseStatusToken(raw: string): (Option<char>, Option<string>) {
    var tab := IndexOf(raw, '\t');
    (if tab > 0 then Some(raw[0]) else None, if tab < |raw| then Some(raw[tab + 1..]) else None)
  }

  function EmitStatus(path: Option<string>, previous: Option<string>, status: Status): seq<StatusRecord> {
    if path.Some? && path.value != "" then [StatusRecord(path.value, previous, status)] else []
  }

  function ParseStatusFields(fields: seq<string>): seq<StatusRecord>
    decreases |fields|
  {
    if fields == [] then []
    else
      var (code, inlinePath) := ParseStatusToken(fields[0]);
      var next := if inlinePath.Some? then 1 else 2;
      var first := if inlinePath.Some? then inlinePath else At(fields, 1);
      if code == Some('R') || code == Some('C') then
        EmitStatus(At(fields, next), first, if code == Some('R') then Renamed else Copied)
        + ParseStatusFields(From(fields, next + 1))
      else EmitStatus(first, None, StatusOf(code)) + ParseStatusFields(From(fields, next))
  }

  method ParseNameStatusZ(output: string) returns (records: seq<StatusRecord>)
    ensures records == ParseStatusFields(NonEmpty(SplitNul(output)))
  {
    hide ParseStatusToken, EmitStatus, ParseStatusFields, From, At;
    var fields := NonEmpty(SplitNul(output));
    records := [];
    var index := 0;
    StatusEnds(fields);
    while index < |fields|
      invariant records + ParseStatusFields(From(fields, index)) == ParseStatusFields(fields)
    {
      var start := index;
      var (code, inlinePath) := ParseStatusToken(fields[index]);
      index := index + 1;
      var first := inlinePath;
      if first.None? {
        first := At(fields, index);
        index := index + 1;
      }
      var emitted: seq<StatusRecord>;
      if code == Some('R') || code == Some('C') {
        emitted := EmitStatus(At(fields, index), first, if code == Some('R') then Renamed else Copied);
        index := index + 1;
      } else {
        emitted := EmitStatus(first, None, StatusOf(code));
      }
      StatusStep(fields, start, index, emitted);
      records := records + emitted;
    }
  }

  lemma StatusEnds(fields: seq<string>)
    ensures From(fields, 0) == fields
    ensures forall k: nat :: k >= |fields| ==> ParseStatusFields(From(fields, k)) == []
  {
  }

  lemma StatusStep(fields: seq<string>, start: nat, index: nat, emitted: seq<StatusRecord>)
    requires start < |fields|
    requires var (code, inlinePath) := ParseStatusToken(fields[start]);
             var first := if inlinePath.Some? then inlinePath else At(fields, start + 1);
             var next := if inlinePath.Some? then start + 1 else start + 2;
             if code == Some('R') || code == Some('C')
             then index == next + 1
               && emitted == EmitStatus(At(fields, next), first, if code == Some('R') then Renamed else Copied)
             else index == next && emitted == EmitStatus(first, None, StatusOf(code))
    ensures ParseStatusFields(From(fields, start)) == emitted + ParseStatusFields(From(fields, index))
  {
    hide ParseStatusToken, EmitStatus, From;
    var rest := From(fields, start);
    FromAt(fields, start);
    FromFrom(fields, start, index - start);
  }

  lemma FromAt(fields: seq<string>, start: nat)
    requires start < |fields|
    ensures From(fields, start) != [] && From(fields, start)[0] == fields[start]
    ensures forall k: nat :: At(From(fields, start), k) == At(fields, start + k)
  {
  }

  lemma FromFrom(fields: seq<string>, i: nat, j: nat)
    ensures From(From(fields, i), j) == From(fields, i + j)
  {
  }

  function Letter(status: Status): char {
    match status
    case Added => 'A'
    case Deleted => 'D'
    case TypeChanged => 'T'
    case Modified => 'M'
    case Renamed => 'R'
    case Copied => 'C'
  }

  /** The fields git prints; `score` is the similarity after R or C. */
  function StatusFields(r: StatusRecord, score: string): seq<string> {
    if r.previousPath.Some? then [[Letter(r.status)] + score, r.previousPath.value, r.path]
    else [[Letter(r.status)], r.path]
  }

  predicate WellFormedStatus(r: StatusRecord) {
    && r.path != "" && '\0' !in r.path
    && (r.previousPath.Some? <==> r.status == Renamed || r.status == Copied)
    && (r.previousPath.Some? ==> r.previousPath.value != "" && '\0' !in r.previousPath.value)
  }

  /** Each record is printed with a similarity score of its own. */
  function PrintStatus(records: seq<StatusRecord>, scores: seq<string>): seq<string>
    requires |scores| == |records|
  {
    if records == [] then [] else StatusFields(records[0], scores[0]) + PrintStatus(records[1..], scores[1..])
  }

  predicate IsScore(score: string) { '\0' !in score && '\t' !in score }

  lemma {:induction false} StatusFieldsReadBack(records: seq<StatusRecord>, scores: seq<string>)
    requires |scores| == |records|
    requires (forall r :: r in records ==> WellFormedStatus(r)) && (forall s :: s in scores ==> IsScore(s))
    ensures ParseStatusFields(PrintStatus(records, scores)) == records
    ensures NulFree(PrintStatus(records, scores)) && forall f :: f in PrintStatus(records, scores) ==> f != ""
  {
    hide StatusFields, WellFormedStatus, ParseStatusFields;
    if records == [] {
      NoStatuses();
    } else {
      StatusFieldsReadBack(records[1..], scores[1..]);
      assert IsScore(scores[0]);
      OneStatusReadsBack(records[0], scores[0], PrintStatus(records[1..], scores[1..]));
    }
  }

  lemma NoStatuses()
    ensures ParseStatusFields([]) == []
  {
  }

  lemma OneStatusReadsBack(r: StatusRecord, score: string, rest: seq<string>)
    requires WellFormedStatus(r) && IsScore(score)
    ensures ParseStatusFields(StatusFields(r, score) + rest) == [r] + ParseStatusFields(rest)
    ensures NulFree(StatusFields(r, score)) && forall f :: f in StatusFields(r, score) ==> f != ""
  {
    hide ParseStatusToken;
    var head := StatusFields(r, score);
    var fields := head + rest;
    TokenReadsBack(r, score);
    assert From(fields, |head|) == rest;
    assert fields[0] == head[0] && fields[1] == head[1];
  }

  lemma TokenReadsBack(r: StatusRecord, score: string)
    requires WellFormedStatus(r) && IsScore(score)
    ensures ParseStatusToken(StatusFields(r, score)[0]) == (Some(Letter(r.status)), None)
    ensures NulFree(StatusFields(r, score))
  {
    var token := StatusFields(r, score)[0];
    assert token[0] == Letter(r.status);
    assert '\t' !in token;
    assert IndexOf(token, '\t') == |token|;
  }

  /** Printing name-status records and parsing the output gives the records back. */
  lemma StatusRoundTrip(records: seq<StatusRecord>, scores: seq<string>)
    requires |scores| == |records|
    requires (forall r :: r in records ==> WellFormedStatus(r)) && (forall s :: s in scores ==> IsScore(s))
    ensures ParseStatusFields(NonEmpty(SplitNul(Terminated(PrintStatus(records, scores))))) == records
  {
    StatusFieldsReadBack(records, scores);
    SplitOfTerminated(PrintStatus(records, scores));
    NonEmptyOfAll(PrintStatus(records, scores));
  }

  /** The fields of one record, its first path in the field of the letter or in the next one. */
  function StatusInput(token: string, first: string, inlined: bool): seq<string> {
    if inlined then [token + "\t" + first] else [token, first]
  }

  lemma TokenIs(token: string, first: string, inlined: bool)
    requires token != "" && '\t' !in token
    ensures ParseStatusToken(StatusInput(token, first, inlined)[0]) ==
            (Some(token[0]), if inlined then Some(first) else None)
  {
    if inlined {
      assert token + "\t" + first == token + ['\t'] + first;
      CutAt(token, '\t', first);
    } else {
      assert IndexOf(token, '\t') == |token|;
    }
  }

  /** A record of one path, wherever the path stands: letters other than those of added, deleted
      and retyped files mean modified. */
  lemma StatusIsRead(token: string, path: string, inlined: bool)
    requires token != "" && '\t' !in token && token[0] !in "RC" && path != ""
    ensures ParseStatusFields(StatusInput(token, path, inlined)) ==
            [StatusRecord(path, None, if token[0] == 'A' then Added else if token[0] == 'D' then Deleted
                          else if token[0] == 'T' then TypeChanged else Modified)]
  {
    hide ParseStatusToken;
    TokenIs(token, path, inlined);
    NoStatuses();
  }

  /** A record of two paths. */
  lemma MoveIsRead(token: string, previous: string, path: string, inlined: bool)
    requires token != "" && '\t' !in token && token[0] in "RC" && path != ""
    ensures ParseStatusFields(StatusInput(token, previous, inlined) + [path]) ==
            [StatusRecord(path, Some(previous), if token[0] == 'R' then Renamed else Copied)]
  {
    hide ParseStatusToken;
    TokenIs(token, previous, inlined);
    NoStatuses();
    assert (StatusInput(token, previous, inlined) + [path])[0] == StatusInput(token, previous, inlined)[0];
  }

  /** Output that ends before the path of a record yields none for it. */
  lemma CutShortIsSkipped(token: string, previous: string, inlined: bool)
    requires token != "" && '\t' !in token
    ensures ParseStatusFields([token]) == []
    ensures token[0] in "RC" ==> ParseStatusFields(StatusInput(token, previous, inlined)) == []
  {
    hide ParseStatusToken;
    TokenIs(token, "", false);
    TokenIs(token, previous, inlined);
    assert StatusInput(token, "", false)[0] == token;
    NoStatuses();
  }

  // ---------- Numstat ----------

  predicate IsLineTerminator(c: char) { c == '\n' || c == '\r' || c == '\U{2028}' || c == '\U{2029}' }

  /** What the regular expression's dot does not match makes a path unreadable. */
  predicate OneLine(path: string) {
    forall i :: 0 <= i < |path| ==> !IsLineTerminator(path[i])
  }

  datatype StatField = StatField(additions: string, deletions: string, path: string)

  /** Matches ^([^\t]+)\t([^\t]+)\t(.*)$ */
  function MatchStatField(field: string): Option<StatField> {
    var t := IndexOf(field, '\t');
    if t == 0 || t == |field| then None
    else
      var rest := field[t + 1..];
      var u := IndexOf(rest, '\t');
      if u == 0 || u == |rest| || !OneLine(rest[u + 1..]) then None
      else Some(StatField(field[..t], rest[..u], rest[u + 1..]))
  }

  function Count(text: string, toNumber: string -> int): int {
    if text == "-" then 0 else toNumber(text)
  }

  function MakeStat(m: StatField, path: string, previous: Option<string>, toNumber: string -> int): StatRecord {
    StatRecord(path, previous, Count(m.additions, toNumber), Count(m.deletions, toNumber),
               m.additions == "-" || m.deletions == "-")
  }

  function ParseStatFields(fields: seq<string>, toNumber: string -> int): seq<StatRecord>
    decreases |fields|
  {
    if fields == [] then []
    else match MatchStatField(fields[0])
      case None => ParseStatFields(fields[1..], toNumber)
      case Some(m) =>
        if m.path != "" then [MakeStat(m, m.path, None, toNumber)] + ParseStatFields(fields[1..], toNumber)
        else
          var path := At(fields, 2);
          (if path.Some? && path.value != "" then [MakeStat(m, path.value, At(fields, 1), toNumber)] else [])
          + ParseStatFields(From(fields, 3), toNumber)
  }

  method ParseNumstatZ(output: string, toNumber: string -> int) returns (records: seq<StatRecord>)
    ensures records == ParseStatFields(SplitNul(output), toNumber)
  {
    hide MatchStatField, MakeStat, ParseStatFields, From, At;
    var fields := SplitNul(output);
    records := [];
    var index := 0;
    StatEnds(fields, toNumber);
    while index < |fields|
      invariant records + ParseStatFields(From(fields, index), toNumber) == ParseStatFields(fields, toNumber)
    {
      var start := index;
      var matched := MatchStatField(fields[index]);
      index := index + 1;
      var emitted: seq<StatRecord> := [];
      if matched.Some? {
        var m := matched.value;
        if m.path != "" {
          emitted := [MakeStat(m, m.path, None, toNumber)];
        } else {
          var previousPath := At(fields, index);
          var path := At(fields, index + 1);
          index := index + 2;
          if path.Some? && path.value != "" {
            emitted := [MakeStat(m, path.value, previousPath, toNumber)];
          }
        }
      }
      StatStep(fields, start, toNumber);
      records := records + emitted;
    }
  }

  lemma StatEnds(fields: seq<string>, toNumber: string -> int)
    ensures From(fields, 0) == fields
    ensures forall k: nat :: k >= |fields| ==> ParseStatFields(From(fields, k), toNumber) == []
  {
  }

  lemma StatStep(fields: seq<string>, start: nat, toNumber: string -> int)
    requires start < |fields|
    ensures ParseStatFields(From(fields, start), toNumber) ==
            match MatchStatField(fields[start])
            case None => ParseStatFields(From(fields, start + 1), toNumber)
            case Some(m) =>
              if m.path != ""
                then [MakeStat(m, m.path, None, toNumber)] + ParseStatFields(From(fields, start + 1), toNumber)
              else
                var path := At(fields, start + 2);
                (if path.Some? && path.value != "" then [MakeStat(m, path.value, At(fields, start + 1), toNumber)]
                  else [])
                + ParseStatFields(From(fields, start + 3), toNumber)
  {
    hide MatchStatField, MakeStat;
    assert From(fields, start)[1..] == From(fields, start + 1);
    FromFrom(fields, start, 3);
    assert At(From(fields, start), 1) == At(fields, start + 1) && At(From(fields, start), 2) == At(fields, start + 2);
  }

  function CountText(r: StatRecord, n: int): string
  {
    if r.binary || n < 0 then "-" else Decimal.Print(n)
  }

  /** The fields git prints: one for a plain record, three for a renamed or copied file. */
  function StatFields(r: StatRecord): seq<string> {
    var counts := CountText(r, r.additions) + "\t" + CountText(r, r.deletions) + "\t";
    if r.previousPath.Some? then [counts, r.previousPath.value, r.path] else [counts + r.path]
  }

  predicate WellFormedStat(r: StatRecord) {
    && r.path != "" && '\0' !in r.path
    && (r.previousPath.Some? ==> '\0' !in r.previousPath.value)
    && r.additions >= 0 && r.deletions >= 0
    && (r.binary ==> r.additions == 0 && r.deletions == 0)
  }

  /** A record the parser can read: its path stands in a field of its own, or on one line. */
  predicate Readable(r: StatRecord) { r.previousPath.Some? || OneLine(r.path) }

  function Readables(records: seq<StatRecord>): (r: seq<StatRecord>)
    ensures |r| <= |records|
    ensures |r| == |records| <==> forall x :: x in records ==> Readable(x)
    ensures |r| == |records| ==> r == records
  {
    if records == [] then []
    else if Readable(records[0]) then [records[0]] + Readables(records[1..])
    else Readables(records[1..])
  }

  function PrintStats(records: seq<StatRecord>): seq<string> {
    if records == [] then [] else StatFields(records[0]) + PrintStats(records[1..])
  }

  /** Number() is only relied on for the numerals git prints. */
  ghost predicate ReadsNumerals(toNumber: string -> int) {
    forall n: nat :: toNumber(Decimal.Print(n)) == n
  }

  lemma CountReadsBack(r: StatRecord, n: int, toNumber: string -> int)
    requires ReadsNumerals(toNumber) && n >= 0 && (r.binary ==> n == 0)
    ensures Count(CountText(r, n), toNumber) == n
    ensures CountText(r, n) == "-" <==> r.binary
    ensures CountText(r, n) != "" && '\t' !in CountText(r, n) && '\0' !in CountText(r, n)
  {
    if !r.binary {
      var s := Decimal.Print(n);
      assert forall i :: 0 <= i < |s| ==> Decimal.IsDigit(s[i]);
      assert Decimal.IsDigit(s[0]);
    }
  }

  lemma FieldMatches(a: string, d: string, path: string)
    requires a != "" && d != "" && '\t' !in a && '\t' !in d
    ensures MatchStatField(a + "\t" + d + "\t" + path) == if OneLine(path) then Some(StatField(a, d, path)) else None
  {
    hide OneLine;
    var rest := d + ['\t'] + path;
    assert a + "\t" + d + "\t" + path == a + ['\t'] + rest;
    CutAt(a, '\t', rest);
    CutAt(d, '\t', path);
  }

  lemma CutAt(prefix: string, c: char, rest: string)
    requires c !in prefix
    ensures var text := prefix + [c] + rest;
            IndexOf(text, c) == |prefix| && text[..|prefix|] == prefix && text[|prefix| + 1..] == rest
  {
    var text := prefix + [c] + rest;
    assert forall i :: 0 <= i < |prefix| ==> text[i] == prefix[i];
    assert text[|prefix|] == c;
  }

  /** What a numstat record says of a count: a dash stands for a binary file. */
  function StatOf(a: string, d: string, path: string, previous: Option<string>, toNumber: string -> int): StatRecord {
    StatRecord(path, previous, if a == "-" then 0 else toNumber(a), if d == "-" then 0 else toNumber(d),
               a == "-" || d == "-")
  }

  predicate BreaksLine(path: string) { exists i :: 0 <= i < |path| && path[i] in "\n\r\U{2028}\U{2029}" }

  /** A field of two counts and a path is a record, unless the path breaks the line. */
  lemma PlainStatIsRead(a: string, d: string, path: string, toNumber: string -> int)
    requires a != "" && d != "" && '\t' !in a && '\t' !in d && path != ""
    ensures ParseStatFields([a + "\t" + d + "\t" + path], toNumber) ==
            if BreaksLine(path) then [] else [StatOf(a, d, path, None, toNumber)]
  {
    hide MatchStatField;
    FieldMatches(a, d, path);
    assert OneLine(path) <==> !BreaksLine(path);
    NoStats(toNumber);
  }

  /** With an empty path the two paths of a move stand in fields of their own. */
  lemma MovedStatIsRead(a: string, d: string, previous: string, path: string, toNumber: string -> int)
    requires a != "" && d != "" && '\t' !in a && '\t' !in d
    ensures ParseStatFields([a + "\t" + d + "\t", previous, path], toNumber) ==
            if path == "" then [] else [StatOf(a, d, path, Some(previous), toNumber)]
    ensures ParseStatFields([a + "\t" + d + "\t", previous], toNumber) == []
  {
    hide MatchStatField;
    FieldMatches(a, d, "");
    assert a + "\t" + d + "\t" + "" == a + "\t" + d + "\t";
    NoStats(toNumber);
  }

  /** A field with fewer than two tabs, or with an empty count, is no record. */
  lemma OtherFieldsAreSkipped(a: string, d: string, path: string, toNumber: string -> int)
    requires '\t' !in a && '\t' !in d
    ensures ParseStatFields([a], toNumber) == [] && ParseStatFields([a + "\t" + d], toNumber) == []
    ensures a == "" || d == "" ==> ParseStatFields([a + "\t" + d + "\t" + path], toNumber) == []
  {
    hide OneLine;
    NoStats(toNumber);
    assert IndexOf(a, '\t') == |a| && IndexOf(d, '\t') == |d|;
    assert a + "\t" + d == a + ['\t'] + d && a + "\t" + d + "\t" + path == a + ['\t'] + (d + ['\t'] + path);
    CutAt(a, '\t', d);
    CutAt(a, '\t', d + ['\t'] + path);
    CutAt(d, '\t', path);
  }

  lemma NoStats(toNumber: string -> int)
    ensures ParseStatFields([], toNumber) == []
  {
  }

  lemma RecordReadsBack(r: StatRecord, rest: seq<string>, toNumber: string -> int)
    requires WellFormedStat(r) && ReadsNumerals(toNumber)
    ensures NulFree(StatFields(r))
    ensures ParseStatFields(StatFields(r) + rest, toNumber)
            == (if Readable(r) then [r] else []) + ParseStatFields(rest, toNumber)
  {
    hide MatchStatField, OneLine, ReadsNumerals, Count, CountText;
    var a, d := CountText(r, r.additions), CountText(r, r.deletions);
    CountReadsBack(r, r.additions, toNumber);
    CountReadsBack(r, r.deletions, toNumber);
    var fields := StatFields(r) + rest;
    var path := if r.previousPath.Some? then "" else r.path;
    FieldMatches(a, d, path);
    EmptyIsOneLine();
    assert fields[0] == a + "\t" + d + "\t" + path;
    if r.previousPath.Some? {
      assert At(fields, 1) == r.previousPath && At(fields, 2) == Some(r.path) && From(fields, 3) == rest;
    } else {
      assert fields[1..] == rest;
    }
  }

  lemma EmptyIsOneLine()
    ensures OneLine("")
  {
  }

  lemma {:induction false} StatFieldsReadBack(records: seq<StatRecord>, toNumber: string -> int)
    requires (forall r :: r in records ==> WellFormedStat(r)) && ReadsNumerals(toNumber)
    ensures NulFree(PrintStats(records))
    ensures ParseStatFields(PrintStats(records) + [""], toNumber) == Readables(records)
  {
    hide ReadsNumerals, Readable, StatFields, ParseStatFields, WellFormedStat;
    if records == [] {
      NothingToRead(toNumber);
      assert PrintStats(records) + [""] == [""];
    } else {
      StatFieldsReadBack(records[1..], toNumber);
      RecordReadsBack(records[0], PrintStats(records[1..]) + [""], toNumber);
      assert PrintStats(records) + [""] == StatFields(records[0]) + (PrintStats(records[1..]) + [""]);
    }
  }

  lemma NothingToRead(toNumber: string -> int)
    ensures ParseStatFields([""], toNumber) == []
  {
    assert IndexOf("", '\t') == 0 && [""][1..] == [];
  }

  /** Printing numstat records and parsing the output drops exactly the plain records whose
      path holds a line terminator, so it gives the records back exactly when none does. */
  lemma StatRoundTrip(records: seq<StatRecord>, toNumber: string -> int)
    requires (forall r :: r in records ==> WellFormedStat(r)) && ReadsNumerals(toNumber)
    ensures ParseStatFields(SplitNul(Terminated(PrintStats(records))), toNumber) == Readables(records)
    ensures ParseStatFields(SplitNul(Terminated(PrintStats(records))), toNumber) == records <==>
            forall r :: r in records ==> Readable(r)
  {
    StatFieldsReadBack(records, toNumber);
    SplitOfTerminated(PrintStats(records));
  }

  // ---------- Joining the two by path ----------

  type StatMap = JsMap.OrderedMap<string, StatRecord>

  /** The last record of each path, in the order the paths first appear. */
  function ByPath(stats: seq<StatRecord>): StatMap {
    if stats == [] then []
    else
      var n := |stats| - 1;
      JsMap.Set(ByPath(stats[..n]), stats[n].path, stats[n])
  }

  function Join(status: StatusRecord, stat: Option<StatRecord>): Summary {
    match stat
    case None => Summary(status.path, status.previousPath, status.status, 0, 0, false)
    case Some(s) =>
      Summary(status.path, if status.previousPath.Some? then status.previousPath else s.previousPath, status.status,
              s.additions, s.deletions, s.binary)
  }

  /** A path only numstat knows; an empty previous path counts as none. */
  function Alone(stat: StatRecord): Summary {
    var renamed := stat.previousPath.Some? && stat.previousPath.value != "";
    Summary(stat.path, stat.previousPath, if renamed then Renamed else Modified,
            stat.additions, stat.deletions, stat.binary)
  }

  function Leftovers(m: StatMap): seq<Summary> {
    if m == [] then [] else [Alone(m[0].1)] + Leftovers(m[1..])
  }

  function Merge(statuses: seq<StatusRecord>, m: StatMap): seq<Summary> {
    if statuses == [] then Leftovers(m)
    else
      var path := statuses[0].path;
      [Join(statuses[0], JsMap.Get(m, path))] + Merge(statuses[1..], JsMap.Delete(m, path))
  }

  method MergeSummaryRecords(statuses: seq<StatusRecord>, stats: seq<StatRecord>) returns (records: seq<Summary>)
    ensures records == Merge(statuses, ByPath(stats))
  {
    hide JsMap.Set, JsMap.Get, JsMap.Delete, Join, Alone;
    var statsByPath: StatMap := [];
    for i := 0 to |stats|
      invariant statsByPath == ByPath(stats[..i])
    {
      assert stats[..i + 1][..i] == stats[..i];
      statsByPath := JsMap.Set(statsByPath, stats[i].path, stats[i]);
    }
    assert stats[..|stats|] == stats;
    records := [];
    for i := 0 to |statuses|
      invariant records + Merge(statuses[i..], statsByPath) == Merge(statuses, ByPath(stats))
    {
      assert statuses[i..][1..] == statuses[i + 1..];
      var stat := JsMap.Get(statsByPath, statuses[i].path);
      statsByPath := JsMap.Delete(statsByPath, statuses[i].path);
      records := records + [Join(statuses[i], stat)];
    }
    for i := 0 to |statsByPath|
      invariant records + Leftovers(statsByPath[i..]) == Merge(statuses, ByPath(stats))
    {
      assert statsByPath[i..][1..] == statsByPath[i + 1..];
      records := records + [Alone(statsByPath[i].1)];
    }
  }

  function MapTotals(m: StatMap): (int, int) {
    if m == [] then (0, 0)
    else
      var (a, d) := MapTotals(m[1..]);
      (m[0].1.additions + a, m[0].1.deletions + d)
  }

  function StatTotals(stats: seq<StatRecord>): (int, int) {
    if stats == [] then (0, 0)
    else
      var (a, d) := StatTotals(stats[..|stats| - 1]);
      (a + stats[|stats| - 1].additions, d + stats[|stats| - 1].deletions)
  }

  function SummaryTotals(records: seq<Summary>): (int, int) {
    if records == [] then (0, 0)
    else
      var (a, d) := SummaryTotals(records[1..]);
      (records[0].additions + a, records[0].deletions + d)
  }

  lemma {:induction false} MapTotalsAppend(x: StatMap, y: StatMap)
    ensures MapTotals(x + y) == (MapTotals(x).0 + MapTotals(y).0, MapTotals(x).1 + MapTotals(y).1)
  {
    if x == [] {
      assert x + y == y;
    } else {
      MapTotalsAppend(x[1..], y);
      assert (x + y)[1..] == x[1..] + y;
    }
  }

  lemma TotalsWithout(m: StatMap, path: string)
    ensures var held := JsMap.Get(m, path);
            var rest := MapTotals(JsMap.Delete(m, path));
            MapTotals(m) == if held.None? then rest else (held.value.additions + rest.0, held.value.deletions + rest.1)
  {
    var i := JsMap.Find(m, path);
    if i < |m| {
      assert m == m[..i] + ([m[i]] + m[i + 1..]);
      MapTotalsAppend(m[..i], [m[i]] + m[i + 1..]);
      MapTotalsAppend(m[..i], m[i + 1..]);
    }
  }

  lemma {:induction false} LeftoverTotals(m: StatMap)
    ensures SummaryTotals(Leftovers(m)) == MapTotals(m)
  {
    if m != [] {
      LeftoverTotals(m[1..]);
      assert Leftovers(m)[1..] == Leftovers(m[1..]);
    }
  }

  /** Whatever the status records are, merging conserves the totals of the joined stats. */
  lemma {:induction false} MergeConserves(statuses: seq<StatusRecord>, m: StatMap)
    ensures SummaryTotals(Merge(statuses, m)) == MapTotals(m)
    decreases |statuses|
  {
    hide JsMap.Get, JsMap.Delete, MapTotals;
    if statuses == [] {
      LeftoverTotals(m);
    } else {
      var path := statuses[0].path;
      MergeConserves(statuses[1..], JsMap.Delete(m, path));
      TotalsWithout(m, path);
      assert Merge(statuses, m)[1..] == Merge(statuses[1..], JsMap.Delete(m, path));
    }
  }

  ghost predicate DistinctStatuses(statuses: seq<StatusRecord>) {
    forall i, j :: 0 <= i < j < |statuses| ==> statuses[i].path != statuses[j].path
  }

  // ---------- Records of one path ----------

  /** The last record of a path. */
  function LastOf(stats: seq<StatRecord>, path: string): Option<StatRecord> {
    if stats == [] then None
    else if stats[|stats| - 1].path == path then Some(stats[|stats| - 1])
    else LastOf(stats[..|stats| - 1], path)
  }

  /** A later record names the same path. */
  predicate IsSuperseded(stats: seq<StatRecord>, i: nat) {
    i < |stats| && exists j :: i < j < |stats| && stats[j].path == stats[i].path
  }

  /** The superseded records, each when its successor comes. */
  function Superseded(stats: seq<StatRecord>): seq<StatRecord> {
    if stats == [] then []
    else
      var front, last := stats[..|stats| - 1], stats[|stats| - 1];
      Superseded(front) + match LastOf(front, last.path) { case None => [] case Some(r) => [r] }
  }

  lemma {:induction false} LastOfIsLast(stats: seq<StatRecord>, path: string) returns (i: nat)
    ensures LastOf(stats, path).Some? ==> i < |stats| && stats[i] == LastOf(stats, path).value && stats[i].path == path
    ensures forall j :: 0 <= j < |stats| && stats[j].path == path ==> LastOf(stats, path).Some? && j <= i
  {
    i := 0;
    if stats != [] {
      var n := |stats| - 1;
      if stats[n].path == path {
        i := n;
      } else {
        i := LastOfIsLast(stats[..n], path);
        assert forall j :: 0 <= j < n ==> stats[..n][j] == stats[j];
      }
    }
  }

  lemma {:induction false} SupersededAre(stats: seq<StatRecord>)
    ensures forall r :: r in Superseded(stats) ==> exists i: nat :: IsSuperseded(stats, i) && stats[i] == r
    ensures forall i: nat :: IsSuperseded(stats, i) ==> stats[i] in Superseded(stats)
  {
    if stats != [] {
      var n := |stats| - 1;
      var front, last := stats[..n], stats[n];
      SupersededAre(front);
      assert forall j :: 0 <= j < n ==> front[j] == stats[j];
      var k := LastOfIsLast(front, last.path);
      forall r | r in Superseded(stats) ensures exists i: nat :: IsSuperseded(stats, i) && stats[i] == r {
        if r in Superseded(front) {
          var i: nat :| IsSuperseded(front, i) && front[i] == r;
          assert IsSuperseded(stats, i) && stats[i] == r;
        } else {
          assert IsSuperseded(stats, k) && stats[k] == r;
        }
      }
      forall i: nat | IsSuperseded(stats, i) ensures stats[i] in Superseded(stats) {
        if IsSuperseded(front, i) {
          assert front[i] in Superseded(front);
        } else {
          assert k < n && k == i;
        }
      }
    }
  }

  lemma {:induction false} ByPathHoldsLast(stats: seq<StatRecord>, path: string)
    ensures JsMap.Get(ByPath(stats), path) == LastOf(stats, path)
  {
    if stats != [] {
      var n := |stats| - 1;
      ByPathHoldsLast(stats[..n], path);
      GetAfterSet(ByPath(stats[..n]), stats[n].path, stats[n], path);
    }
  }

  lemma GetAfterSet(m: StatMap, key: string, stat: StatRecord, path: string)
    ensures JsMap.Get(JsMap.Set(m, key, stat), path) == if path == key then Some(stat) else JsMap.Get(m, path)
  {
    var after := JsMap.Set(m, key, stat);
    var i, j := JsMap.Find(m, path), JsMap.Find(after, path);
    assert forall k :: 0 <= k < |m| ==> after[k].0 == m[k].0;
    assert path == key ==> after[i] == (key, stat);
    assert path != key && i < |m| ==> after[i] == m[i];
    assert i < |after| && after[i].0 == path ==> j == i;
  }

  lemma TotalsAfterSet(m: StatMap, stat: StatRecord)
    ensures var held, after := JsMap.Get(m, stat.path), MapTotals(JsMap.Set(m, stat.path, stat));
            && after.0 == MapTotals(m).0 + stat.additions - (if held.Some? then held.value.additions else 0)
            && after.1 == MapTotals(m).1 + stat.deletions - (if held.Some? then held.value.deletions else 0)
  {
    hide MapTotals;
    var i := JsMap.Find(m, stat.path);
    if i < |m| {
      assert m == m[..i] + [m[i]] + m[i + 1..];
      assert m[i := (stat.path, stat)] == m[..i] + [(stat.path, stat)] + m[i + 1..];
      TotalsAround(m[..i], m[i], m[i + 1..]);
      TotalsAround(m[..i], (stat.path, stat), m[i + 1..]);
    } else {
      var none: StatMap := [];
      assert m + [(stat.path, stat)] + none == m + [(stat.path, stat)] && m + none == m;
      TotalsAround(m, (stat.path, stat), none);
    }
  }

  lemma TotalsAround(x: StatMap, e: (string, StatRecord), y: StatMap)
    ensures MapTotals(x + [e] + y) == (MapTotals(x + y).0 + e.1.additions, MapTotals(x + y).1 + e.1.deletions)
  {
    assert x + [e] + y == x + ([e] + y);
    MapTotalsAppend(x, [e] + y);
    MapTotalsAppend(x, y);
    assert ([e] + y)[1..] == y;
  }

  function Plus(x: (int, int), y: (int, int)): (int, int) { (x.0 + y.0, x.1 + y.1) }

  lemma {:induction false} ByPathLosesSuperseded(stats: seq<StatRecord>)
    ensures StatTotals(stats) == Plus(MapTotals(ByPath(stats)), StatTotals(Superseded(stats)))
  {
    hide JsMap.Set, JsMap.Get, LastOf, MapTotals, ByPath, Superseded, StatTotals;
    if stats == [] {
      NoTotals();
    } else {
      LastIsAdded(stats);
      var front, last := stats[..|stats| - 1], stats[|stats| - 1];
      ByPathLosesSuperseded(front);
      ByPathHoldsLast(front, last.path);
      TotalsAfterSet(ByPath(front), last);
      SupersededTotalsSnoc(stats);
    }
  }

  lemma NoTotals()
    ensures MapTotals(ByPath([])) == StatTotals([]) == StatTotals(Superseded([])) == (0, 0)
  {
  }

  lemma LastIsAdded(stats: seq<StatRecord>)
    requires stats != []
    ensures var front, last := stats[..|stats| - 1], stats[|stats| - 1];
            && ByPath(stats) == JsMap.Set(ByPath(front), last.path, last)
            && StatTotals(stats) == Plus(StatTotals(front), (last.additions, last.deletions))
  {
  }

  lemma SupersededTotalsSnoc(stats: seq<StatRecord>)
    requires stats != []
    ensures var front := stats[..|stats| - 1];
            var held := LastOf(front, stats[|stats| - 1].path);
            StatTotals(Superseded(stats)) == Plus(StatTotals(Superseded(front)),
              if held.Some? then (held.value.additions, held.value.deletions) else (0, 0))
  {
    hide LastOf;
    var front, s := stats[..|stats| - 1], Superseded(stats);
    if LastOf(front, stats[|stats| - 1].path).Some? {
      assert s[..|s| - 1] == Superseded(front);
    } else {
      assert s == Superseded(front);
    }
  }

  /** Whatever the outputs hold, merging counts every numstat record but the superseded ones:
      only the last record of a path reaches the totals. */
  lemma MergeDropsSuperseded(statuses: seq<StatusRecord>, stats: seq<StatRecord>)
    ensures StatTotals(stats) == Plus(SummaryTotals(Merge(statuses, ByPath(stats))), StatTotals(Superseded(stats)))
  {
    ByPathLosesSuperseded(stats);
    MergeConserves(statuses, ByPath(stats));
  }

  predicate IsCount(stat: StatRecord) { stat.additions >= 0 && stat.deletions >= 0 }

  predicate IsEmpty(stat: StatRecord) { stat.additions == 0 && stat.deletions == 0 }

  lemma {:induction false} TotalsOfCounts(stats: seq<StatRecord>)
    requires forall r :: r in stats ==> IsCount(r)
    ensures StatTotals(stats).0 >= 0 && StatTotals(stats).1 >= 0
    ensures StatTotals(stats) == (0, 0) <==> forall r :: r in stats ==> IsEmpty(r)
  {
    hide StatTotals;
    if stats == [] {
      NoTotals();
    } else {
      var front, last := stats[..|stats| - 1], stats[|stats| - 1];
      assert stats == front + [last];
      assert last in stats && forall r :: r in stats <==> r in front || r == last;
      TotalsOfCounts(front);
      LastIsAdded(stats);
      assert IsCount(last);
      assert StatTotals(stats) == (0, 0) <==> StatTotals(front) == (0, 0) && IsEmpty(last);
    }
  }

  /** Merging keeps the numstat totals exactly when every superseded record is empty, as the
      first of the two records of an unmerged file is; otherwise it falls short of them. */
  lemma MergeKeepsNumstatTotals(statuses: seq<StatusRecord>, stats: seq<StatRecord>)
    requires forall r :: r in stats ==> IsCount(r)
    ensures var merged, all := SummaryTotals(Merge(statuses, ByPath(stats))), StatTotals(stats);
            && merged.0 <= all.0 && merged.1 <= all.1
            && (merged == all <==> forall i: nat :: IsSuperseded(stats, i) ==> IsEmpty(stats[i]))
  {
    hide Merge, ByPath, Superseded;
    MergeDropsSuperseded(statuses, stats);
    SupersededAre(stats);
    forall r | r in Superseded(stats) ensures IsCount(r) {
      var i: nat :| IsSuperseded(stats, i) && stats[i] == r;
      assert stats[i] in stats;
    }
    TotalsOfCounts(Superseded(stats));
  }

  ghost predicate KeyedByPath(m: StatMap) {
    JsMap.Distinct(m) && forall i :: 0 <= i < |m| ==> m[i].0 == m[i].1.path
  }

  lemma KeyedIsDistinct(m: StatMap)
    requires KeyedByPath(m)
    ensures JsMap.Distinct(m)
  {
  }

  lemma DeleteKeepsKeys(m: StatMap, path: string)
    requires KeyedByPath(m)
    ensures KeyedByPath(JsMap.Delete(m, path)) && !JsMap.Has(JsMap.Delete(m, path), path)
    ensures forall p :: p != path ==> (JsMap.Has(JsMap.Delete(m, path), p) <==> JsMap.Has(m, p))
  {
    hide JsMap.Delete;
    JsMap.DeleteKeeps(m, path);
    var d := JsMap.Delete(m, path);
    assert forall i :: 0 <= i < |d| ==> d[i] in d && d[i] in m;
    forall p | p != path ensures JsMap.Has(d, p) <==> JsMap.Has(m, p) {
      if JsMap.Has(m, p) { HeldElsewhere(m, d, p); }
      if JsMap.Has(d, p) { HeldElsewhere(d, m, p); }
    }
  }

  lemma HeldElsewhere(m: StatMap, d: StatMap, path: string)
    requires JsMap.Has(m, path) && forall e :: e in m && e.0 == path ==> e in d
    ensures JsMap.Has(d, path)
  {
    var e := m[JsMap.Find(m, path)];
    assert e in m && e in d;
  }

  lemma {:induction false} LeftoverPaths(m: StatMap)
    requires forall i :: 0 <= i < |m| ==> m[i].0 == m[i].1.path
    ensures |Leftovers(m)| == |m| && forall i :: 0 <= i < |m| ==> Leftovers(m)[i].path == m[i].0
  {
    if m != [] { LeftoverPaths(m[1..]); }
  }

  predicate StatusHas(statuses: seq<StatusRecord>, path: string) {
    exists i :: 0 <= i < |statuses| && statuses[i].path == path
  }

  predicate SummaryHas(records: seq<Summary>, path: string) {
    exists i :: 0 <= i < |records| && records[i].path == path
  }

  ghost predicate DistinctSummaries(records: seq<Summary>) {
    forall i, j :: 0 <= i < j < |records| ==> records[i].path != records[j].path
  }

  /** Merging yields records for the paths that either list has, and no other; one for each
      when no status repeats a path. */
  lemma {:induction false} MergeIsUnion(statuses: seq<StatusRecord>, m: StatMap)
    requires KeyedByPath(m)
    ensures DistinctStatuses(statuses) ==> DistinctSummaries(Merge(statuses, m))
    ensures forall p :: SummaryHas(Merge(statuses, m), p) <==> StatusHas(statuses, p) || JsMap.Has(m, p)
    decreases |statuses|
  {
    var records := Merge(statuses, m);
    if statuses == [] {
      LeftoverPaths(m);
      forall p ensures SummaryHas(records, p) <==> JsMap.Has(m, p) {
        if JsMap.Has(m, p) { assert records[JsMap.Find(m, p)].path == p; }
      }
    } else {
      var path := statuses[0].path;
      var rest := Merge(statuses[1..], JsMap.Delete(m, path));
      DeleteKeepsKeys(m, path);
      MergeIsUnion(statuses[1..], JsMap.Delete(m, path));
      StatusHasTail(statuses);
      assert records[0].path == path && records[1..] == rest;
      SummaryHasTail(records);
      assert DistinctStatuses(statuses) ==> DistinctStatuses(statuses[1..]) && !StatusHas(statuses[1..], path);
      assert DistinctStatuses(statuses) ==> !SummaryHas(rest, path);
      forall p ensures SummaryHas(records, p) <==> StatusHas(statuses, p) || JsMap.Has(m, p) {
      }
    }
  }

  lemma StatusHasTail(statuses: seq<StatusRecord>)
    requires statuses != []
    ensures forall p :: StatusHas(statuses, p) <==> p == statuses[0].path || StatusHas(statuses[1..], p)
  {
    forall p | StatusHas(statuses[1..], p) ensures StatusHas(statuses, p) {
      var i :| 0 <= i < |statuses[1..]| && statuses[1..][i].path == p;
      assert statuses[i + 1].path == p;
    }
    forall p | StatusHas(statuses, p) && p != statuses[0].path ensures StatusHas(statuses[1..], p) {
      var i :| 0 <= i < |statuses| && statuses[i].path == p;
      assert statuses[1..][i - 1].path == p;
    }
  }

  lemma SummaryHasTail(records: seq<Summary>)
    requires records != []
    ensures forall p :: SummaryHas(records, p) <==> p == records[0].path || SummaryHas(records[1..], p)
    ensures !SummaryHas(records[1..], records[0].path) && DistinctSummaries(records[1..]) ==> DistinctSummaries(records)
  {
    forall p | SummaryHas(records[1..], p) ensures SummaryHas(records, p) {
      var i :| 0 <= i < |records[1..]| && records[1..][i].path == p;
      assert records[i + 1].path == p;
    }
    forall p | SummaryHas(records, p) && p != records[0].path ensures SummaryHas(records[1..], p) {
      var i :| 0 <= i < |records| && records[i].path == p;
      assert records[1..][i - 1].path == p;
    }
    if !SummaryHas(records[1..], records[0].path) && DistinctSummaries(records[1..]) {
      forall i, j | 0 <= i < j < |records| ensures records[i].path != records[j].path {
        assert records[1..][j - 1] == records[j];
        if i > 0 { assert records[1..][i - 1] == records[i]; }
      }
    }
  }

  predicate StatHas(stats: seq<StatRecord>, path: string) {
    exists i :: 0 <= i < |stats| && stats[i].path == path
  }

  lemma {:induction false} ByPathKeys(stats: seq<StatRecord>)
    ensures KeyedByPath(ByPath(stats))
    ensures forall p :: JsMap.Has(ByPath(stats), p) <==> StatHas(stats, p)
  {
    if stats != [] {
      var n := |stats| - 1;
      ByPathKeys(stats[..n]);
      SetKeys(ByPath(stats[..n]), stats[n]);
      StatHasSnoc(stats);
    }
  }

  lemma SetKeys(m: StatMap, stat: StatRecord)
    requires KeyedByPath(m)
    ensures KeyedByPath(JsMap.Set(m, stat.path, stat))
    ensures forall p :: JsMap.Has(JsMap.Set(m, stat.path, stat), p) <==> JsMap.Has(m, p) || p == stat.path
  {
    var after := JsMap.Set(m, stat.path, stat);
    assert forall i :: 0 <= i < |m| ==> after[i].0 == m[i].0;
    forall p ensures JsMap.Has(after, p) <==> JsMap.Has(m, p) || p == stat.path {
      if JsMap.Has(m, p) || p == stat.path { assert after[JsMap.Find(m, p)].0 == p; }
    }
  }

  lemma StatHasSnoc(stats: seq<StatRecord>)
    requires stats != []
    ensures forall p :: StatHas(stats, p) <==> StatHas(stats[..|stats| - 1], p) || p == stats[|stats| - 1].path
  {
    var n := |stats| - 1;
    assert stats[n].path == stats[|stats| - 1].path;
    forall p ensures StatHas(stats, p) <==> StatHas(stats[..n], p) || p == stats[n].path {
      if StatHas(stats, p) && p != stats[n].path {
        var i :| 0 <= i < |stats| && stats[i].path == p;
        assert stats[..n][i].path == p;
      }
      if StatHas(stats[..n], p) {
        var i :| 0 <= i < n && stats[..n][i].path == p;
        assert stats[i].path == p;
      }
    }
  }

  /** The counts of the path's own numstat record, or zero when there is none. */
  predicate CarriesOwnCounts(r: Summary, m: StatMap) {
    match JsMap.Get(m, r.path)
    case Some(s) => r.additions == s.additions && r.deletions == s.deletions && r.binary == s.binary
    case None => r.additions == 0 && r.deletions == 0 && !r.binary
  }

  lemma {:induction false} LeftoversCarryOwn(m: StatMap)
    requires KeyedByPath(m)
    ensures forall r :: r in Leftovers(m) ==> CarriesOwnCounts(r, m)
  {
    LeftoverPaths(m);
    forall r | r in Leftovers(m) ensures CarriesOwnCounts(r, m) {
      var i :| 0 <= i < |m| && Leftovers(m)[i] == r;
      LeftoverAt(m, i);
      assert JsMap.Find(m, r.path) == i;
    }
  }

  lemma {:induction false} LeftoverAt(m: StatMap, i: nat)
    requires i < |m|
    ensures |Leftovers(m)| == |m| && Leftovers(m)[i] == Alone(m[i].1)
  {
    if i > 0 { LeftoverAt(m[1..], i - 1); } else if |m| > 1 { LeftoverAt(m[1..], 0); }
  }

  predicate OwnAt(records: seq<Summary>, m: StatMap, path: string) {
    forall i :: 0 <= i < |records| && records[i].path == path ==> CarriesOwnCounts(records[i], m)
  }

  predicate Shares(statuses: seq<StatusRecord>, path: string) {
    exists i, j :: 0 <= i < j < |statuses| && statuses[i].path == path && statuses[j].path == path
  }

  /** Numstat gave nothing to attribute to the path. */
  predicate CountsNothing(m: StatMap, path: string) {
    match JsMap.Get(m, path)
    case Some(s) => s.additions == 0 && s.deletions == 0 && !s.binary
    case None => true
  }

  /** Merging attributes lines to their own path: every record carries exactly the counts that
      numstat gave for it, if and only if no path that two statuses share has any. */
  lemma MergeGivesOwnCounts(statuses: seq<StatusRecord>, m: StatMap)
    requires KeyedByPath(m)
    ensures (forall r :: r in Merge(statuses, m) ==> CarriesOwnCounts(r, m)) <==>
            (forall path :: Shares(statuses, path) ==> CountsNothing(m, path))
  {
    hide Merge, Shares, CountsNothing, CarriesOwnCounts, KeyedByPath;
    var records := Merge(statuses, m);
    forall path ensures OwnAt(records, m, path) <==> (Shares(statuses, path) ==> CountsNothing(m, path)) {
      OwnCountsAt(statuses, m, path);
    }
    if forall r :: r in records ==> CarriesOwnCounts(r, m) {
      assert forall path :: OwnAt(records, m, path);
    }
    if forall path :: Shares(statuses, path) ==> CountsNothing(m, path) {
      forall r | r in records ensures CarriesOwnCounts(r, m) { assert OwnAt(records, m, r.path); }
    }
  }

  lemma {:induction false} OwnCountsAt(statuses: seq<StatusRecord>, m: StatMap, path: string)
    requires KeyedByPath(m)
    ensures OwnAt(Merge(statuses, m), m, path) <==> (Shares(statuses, path) ==> CountsNothing(m, path))
    decreases |statuses|
  {
    hide JsMap.Get, JsMap.Delete, Leftovers, KeyedByPath, CarriesOwnCounts, CountsNothing;
    if statuses == [] {
      LeftoversCarryOwn(m);
    } else {
      var first, d := statuses[0].path, JsMap.Delete(m, statuses[0].path);
      var join, rest := Join(statuses[0], JsMap.Get(m, first)), Merge(statuses[1..], d);
      DeleteKeepsKeys(m, first);
      OwnCountsAt(statuses[1..], d, path);
      SharesTail(statuses, path);
      assert Merge(statuses, m) == [join] + rest;
      OwnAtFront(join, rest, m, path);
      if path != first {
        KeyedIsDistinct(m);
        JsMap.DeleteKeepsOthers(m, first, path);
        OwnAtAgrees(rest, m, d, path);
      } else {
        JoinCarriesOwn(statuses[0], m);
        MergeIsUnion(statuses[1..], d);
        DeletedCountsNothing(m, first);
        TakenCarryOwn(rest, m, d, first);
      }
    }
  }

  lemma OwnAtFront(r: Summary, rest: seq<Summary>, m: StatMap, path: string)
    ensures OwnAt([r] + rest, m, path) <==> (r.path == path ==> CarriesOwnCounts(r, m)) && OwnAt(rest, m, path)
  {
    hide CarriesOwnCounts;
    var records := [r] + rest;
    assert records[0] == r && forall i :: 0 <= i < |rest| ==> records[i + 1] == rest[i];
    if OwnAt(records, m, path) {
      forall i | 0 <= i < |rest| && rest[i].path == path ensures CarriesOwnCounts(rest[i], m) {
        assert records[i + 1].path == path;
      }
    }
  }

  lemma OwnAtAgrees(records: seq<Summary>, m: StatMap, d: StatMap, path: string)
    requires JsMap.Get(m, path) == JsMap.Get(d, path)
    ensures OwnAt(records, m, path) <==> OwnAt(records, d, path)
    ensures CountsNothing(m, path) <==> CountsNothing(d, path)
  {
    hide JsMap.Get;
    forall r: Summary | r.path == path ensures CarriesOwnCounts(r, m) <==> CarriesOwnCounts(r, d) {}
  }

  lemma JoinCarriesOwn(status: StatusRecord, m: StatMap)
    ensures CarriesOwnCounts(Join(status, JsMap.Get(m, status.path)), m)
  {
    hide JsMap.Get;
  }

  lemma DeletedCountsNothing(m: StatMap, path: string)
    requires KeyedByPath(m)
    ensures JsMap.Get(JsMap.Delete(m, path), path) == None && CountsNothing(JsMap.Delete(m, path), path)
  {
    JsMap.DeleteKeeps(m, path);
  }

  /** Records of a path whose counts an earlier record has taken carry zero. */
  lemma TakenCarryOwn(records: seq<Summary>, m: StatMap, d: StatMap, path: string)
    requires OwnAt(records, d, path) && JsMap.Get(d, path) == None
    ensures OwnAt(records, m, path) <==> (SummaryHas(records, path) ==> CountsNothing(m, path))
  {
    hide JsMap.Get;
    forall i | 0 <= i < |records| && records[i].path == path
      ensures CarriesOwnCounts(records[i], m) <==> CountsNothing(m, path)
    {
      assert CarriesOwnCounts(records[i], d);
    }
  }

  lemma SharesTail(statuses: seq<StatusRecord>, path: string)
    requires statuses != []
    ensures Shares(statuses, path) <==>
            Shares(statuses[1..], path) || (statuses[0].path == path && StatusHas(statuses[1..], path))
  {
    var rest := statuses[1..];
    if Shares(statuses, path) {
      var i, j :| 0 <= i < j < |statuses| && statuses[i].path == path && statuses[j].path == path;
      assert rest[j - 1].path == path;
      if i > 0 { assert rest[i - 1].path == path; }
    }
    if Shares(rest, path) {
      var i, j :| 0 <= i < j < |rest| && rest[i].path == path && rest[j].path == path;
      assert statuses[i + 1].path == path && statuses[j + 1].path == path;
    }
    if statuses[0].path == path && StatusHas(rest, path) {
      var j :| 0 <= j < |rest| && rest[j].path == path;
      assert statuses[j + 1].path == path;
    }
  }

  lemma {:induction false} StatusesComeFirst(statuses: seq<StatusRecord>, m: StatMap)
    ensures |Merge(statuses, m)| >= |statuses|
    ensures forall i :: 0 <= i < |statuses| ==> Merge(statuses, m)[i].path == statuses[i].path
    decreases |statuses|
  {
    hide JsMap.Get, JsMap.Delete;
    if statuses != [] { StatusesComeFirst(statuses[1..], JsMap.Delete(m, statuses[0].path)); }
  }

  // ---------- What each merged record says ----------

  predicate NamedBefore(statuses: seq<StatusRecord>, i: nat)
    requires i < |statuses|
  {
    exists j :: 0 <= j < i && statuses[j].path == statuses[i].path
  }

  /** The record carries the counts of a numstat record, or none. */
  predicate Counts(r: Summary, stat: Option<StatRecord>) {
    match stat
    case Some(s) => r.additions == s.additions && r.deletions == s.deletions && r.binary == s.binary
    case None => r.additions == 0 && r.deletions == 0 && !r.binary
  }

  /** The numstat record a status is joined with: the one of its path, unless an earlier status
      of that path has taken it. */
  function StatFor(statuses: seq<StatusRecord>, m: StatMap, i: nat): Option<StatRecord>
    requires i < |statuses|
  {
    if NamedBefore(statuses, i) then None else JsMap.Get(m, statuses[i].path)
  }

  /** A status keeps its path and kind; its own previous path goes before the one of numstat. */
  predicate SaysStatus(r: Summary, status: StatusRecord, stat: Option<StatRecord>) {
    && r.path == status.path && r.status == status.status && Counts(r, stat)
    && (status.previousPath.Some? ==> r.previousPath == status.previousPath)
    && (status.previousPath.None? && stat.Some? ==> r.previousPath == stat.value.previousPath)
    && (status.previousPath.None? && stat.None? ==> r.previousPath.None?)
  }

  /** A file only numstat knows is renamed if it came from another path, and otherwise modified. */
  predicate SaysStat(r: Summary, stat: StatRecord) {
    && r.path == stat.path && r.previousPath == stat.previousPath && Counts(r, Some(stat))
    && (r.status == Renamed <==> stat.previousPath.Some? && stat.previousPath.value != "")
    && (r.status == Renamed || r.status == Modified)
  }

  lemma {:induction false} MergedStatusSays(statuses: seq<StatusRecord>, m: StatMap, i: nat)
    requires KeyedByPath(m) && i < |statuses|
    ensures i < |Merge(statuses, m)|
    ensures SaysStatus(Merge(statuses, m)[i], statuses[i], StatFor(statuses, m, i))
    decreases |statuses|
  {
    hide JsMap.Get, JsMap.Delete, SaysStatus, KeyedByPath;
    var path, rest := statuses[0].path, statuses[1..];
    var d := JsMap.Delete(m, path);
    DeleteKeepsKeys(m, path);
    assert Merge(statuses, m)[1..] == Merge(rest, d);
    if i == 0 {
      JoinSays(statuses[0], JsMap.Get(m, path));
    } else {
      MergedStatusSays(rest, d, i - 1);
      NamedBeforeTail(statuses, i);
      KeyedIsDistinct(m);
      JsMap.DeleteKeepsOthers(m, path, statuses[i].path);
    }
  }

  lemma JoinSays(status: StatusRecord, stat: Option<StatRecord>)
    ensures SaysStatus(Join(status, stat), status, stat)
  {
  }

  lemma NamedBeforeTail(statuses: seq<StatusRecord>, i: nat)
    requires 0 < i < |statuses|
    ensures NamedBefore(statuses, i) <==>
            statuses[i].path == statuses[0].path || NamedBefore(statuses[1..], i - 1)
  {
    var rest := statuses[1..];
    if NamedBefore(rest, i - 1) {
      var j :| 0 <= j < i - 1 && rest[j].path == rest[i - 1].path;
      assert statuses[j + 1].path == statuses[i].path;
    }
    if NamedBefore(statuses, i) {
      var j :| 0 <= j < i && statuses[j].path == statuses[i].path;
      if j > 0 { assert rest[j - 1].path == rest[i - 1].path; }
    }
  }

  /** The paths no status names, in the order in which numstat first names them. */
  function Unnamed(stats: seq<StatRecord>, statuses: seq<StatusRecord>): (paths: seq<string>)
  {
    if stats == [] then []
    else
      var before, path := Unnamed(stats[..|stats| - 1], statuses), stats[|stats| - 1].path;
      if StatHas(stats[..|stats| - 1], path) || StatusHas(statuses, path) then before else before + [path]
  }

  function Keys(m: StatMap): (keys: seq<string>)
    ensures |keys| == |m|
  {
    seq(|m|, i requires 0 <= i < |m| => m[i].0)
  }

  /** The entries that no status takes. */
  function Left(m: StatMap, statuses: seq<StatusRecord>): StatMap {
    if m == [] then []
    else (if StatusHas(statuses, m[0].0) then [] else [m[0]]) + Left(m[1..], statuses)
  }

  lemma {:induction false} LeftWithout(m: StatMap, statuses: seq<StatusRecord>)
    requires statuses != [] && forall i :: 0 <= i < |m| ==> m[i].0 != statuses[0].path
    ensures Left(m, statuses) == Left(m, statuses[1..])
  {
    hide StatusHas;
    if m != [] {
      StatusHasTail(statuses);
      LeftWithout(m[1..], statuses);
    }
  }

  lemma {:induction false} LeftAfterDelete(m: StatMap, statuses: seq<StatusRecord>)
    requires JsMap.Distinct(m) && statuses != []
    ensures Left(JsMap.Delete(m, statuses[0].path), statuses[1..]) == Left(m, statuses)
  {
    hide StatusHas, JsMap.Delete;
    if m == [] {
      DeleteFront(m, statuses[0].path);
    } else {
      StatusHasTail(statuses);
      DeleteFront(m, statuses[0].path);
      if m[0].0 == statuses[0].path {
        LeftWithout(m[1..], statuses);
      } else {
        LeftAfterDelete(m[1..], statuses);
        var d := JsMap.Delete(m[1..], statuses[0].path);
        assert ([m[0]] + d)[1..] == d;
      }
    }
  }

  lemma DeleteFront(m: StatMap, path: string)
    ensures m == [] ==> JsMap.Delete(m, path) == m
    ensures m != [] ==> JsMap.Delete(m, path) == if m[0].0 == path then m[1..] else [m[0]] + JsMap.Delete(m[1..], path)
  {
  }

  lemma {:induction false} MergeEndsWithLeft(statuses: seq<StatusRecord>, m: StatMap)
    requires KeyedByPath(m)
    ensures |Merge(statuses, m)| >= |statuses|
    ensures Merge(statuses, m)[|statuses|..] == Leftovers(Left(m, statuses))
    decreases |statuses|
  {
    hide JsMap.Get, JsMap.Delete, KeyedByPath, Leftovers;
    if statuses == [] {
      LeftOfAll(m);
    } else {
      var path, rest := statuses[0].path, statuses[1..];
      DeleteKeepsKeys(m, path);
      MergeEndsWithLeft(rest, JsMap.Delete(m, path));
      assert Merge(statuses, m)[1..] == Merge(rest, JsMap.Delete(m, path));
      assert Merge(statuses, m)[|statuses|..] == Merge(statuses, m)[1..][|rest|..];
      KeyedIsDistinct(m);
      LeftAfterDelete(m, statuses);
    }
  }

  lemma {:induction false} LeftOfAll(m: StatMap)
    ensures Left(m, []) == m
  {
    if m != [] { LeftOfAll(m[1..]); }
  }

  lemma {:induction false} LeftSnoc(m: StatMap, e: (string, StatRecord), statuses: seq<StatusRecord>)
    ensures Left(m + [e], statuses) == Left(m, statuses) + if StatusHas(statuses, e.0) then [] else [e]
  {
    hide StatusHas;
    if m == [] {
      assert [] + [e] == [e] && [e][1..] == [];
    } else {
      LeftSnoc(m[1..], e, statuses);
      assert (m + [e])[1..] == m[1..] + [e];
    }
  }

  lemma {:induction false} LeftHasKeys(m: StatMap, other: StatMap, statuses: seq<StatusRecord>)
    requires Keys(m) == Keys(other)
    ensures Keys(Left(m, statuses)) == Keys(Left(other, statuses))
  {
    hide StatusHas;
    if m != [] {
      assert m[0].0 == Keys(m)[0] == Keys(other)[0] == other[0].0;
      assert Keys(m[1..]) == Keys(m)[1..] == Keys(other)[1..] == Keys(other[1..]);
      LeftHasKeys(m[1..], other[1..], statuses);
      KeysAppend(if StatusHas(statuses, m[0].0) then [] else [m[0]], Left(m[1..], statuses));
      KeysAppend(if StatusHas(statuses, m[0].0) then [] else [other[0]], Left(other[1..], statuses));
    }
  }

  lemma KeysAppend(x: StatMap, y: StatMap)
    ensures Keys(x + y) == Keys(x) + Keys(y)
  {
  }

  lemma {:induction false} LeftIsUnnamed(stats: seq<StatRecord>, statuses: seq<StatusRecord>)
    ensures Keys(Left(ByPath(stats), statuses)) == Unnamed(stats, statuses)
  {
    hide StatusHas, StatHas, JsMap.Has, JsMap.Set;
    if stats != [] {
      var front, last := stats[..|stats| - 1], stats[|stats| - 1];
      var m, after := ByPath(front), JsMap.Set(ByPath(front), last.path, last);
      LeftIsUnnamed(front, statuses);
      ByPathKeys(front);
      if JsMap.Has(m, last.path) {
        JsMap.SetKeepsPlaces(m, last.path, last);
        assert Keys(after) == Keys(m);
        LeftHasKeys(after, m, statuses);
      } else {
        SetAppends(m, last);
        LeftSnoc(m, (last.path, last), statuses);
        KeysAppend(Left(m, statuses), if StatusHas(statuses, last.path) then [] else [(last.path, last)]);
      }
    }
  }

  lemma SetAppends(m: StatMap, stat: StatRecord)
    requires !JsMap.Has(m, stat.path)
    ensures JsMap.Set(m, stat.path, stat) == m + [(stat.path, stat)]
  {
  }

  lemma {:induction false} LeftIsHeld(m: StatMap, statuses: seq<StatusRecord>)
    ensures forall e :: e in Left(m, statuses) ==> e in m
  {
    if m != [] { LeftIsHeld(m[1..], statuses); }
  }

  lemma AloneSays(stat: StatRecord)
    ensures SaysStat(Alone(stat), stat)
  {
  }

  /** Every merged record in full. The first records are those of the statuses, in their order;
      each says what its status and the last numstat record of its path say. The rest are the
      paths no status names, in the order numstat first names them. */
  lemma MergedRecordsSay(statuses: seq<StatusRecord>, stats: seq<StatRecord>)
    ensures var records, rest := Merge(statuses, ByPath(stats)), Unnamed(stats, statuses);
            && |records| == |statuses| + |rest|
            && (forall i :: 0 <= i < |statuses| ==>
                  SaysStatus(records[i], statuses[i],
                             if NamedBefore(statuses, i) then None else LastOf(stats, statuses[i].path)))
            && forall k :: 0 <= k < |rest| ==>
                 var stat := LastOf(stats, rest[k]);
                 stat.Some? && SaysStat(records[|statuses| + k], stat.value)
  {
    hide Merge, ByPath, Leftovers, JsMap.Get, SaysStatus, SaysStat, NamedBefore, Left, Unnamed, LastOf, KeyedByPath;
    var m := ByPath(stats);
    var records, rest, left := Merge(statuses, m), Unnamed(stats, statuses), Left(m, statuses);
    ByPathKeys(stats);
    MergeEndsWithLeft(statuses, m);
    LeftIsUnnamed(stats, statuses);
    forall i | 0 <= i < |statuses|
      ensures SaysStatus(records[i], statuses[i],
                         if NamedBefore(statuses, i) then None else LastOf(stats, statuses[i].path))
    {
      MergedStatusSays(statuses, m, i);
      ByPathHoldsLast(stats, statuses[i].path);
    }
    LeftIsHeld(m, statuses);
    KeyedIsDistinct(m);
    LeftoverCount(left);
    forall k | 0 <= k < |left|
      ensures LastOf(stats, rest[k]) == Some(left[k].1)
      ensures SaysStat(Leftovers(left)[k], left[k].1)
    {
      LeftoverAt(left, k);
      AloneSays(left[k].1);
      assert left[k] in left && rest[k] == Keys(left)[k];
      JsMap.HeldIsGot(m, left[k]);
      ByPathHoldsLast(stats, left[k].0);
    }
    assert forall k :: 0 <= k < |left| ==> records[|statuses| + k] == records[|statuses|..][k];
  }

  lemma {:induction false} LeftoverCount(m: StatMap)
    ensures |Leftovers(m)| == |m|
  {
    if m != [] { LeftoverCount(m[1..]); }
  }

  /** The merged paths are those of the union of the two outputs, and each has exactly one
      record if and only if no status repeats a path, as the statuses of a conflict do. */
  lemma OneRecordPerPath(statuses: seq<StatusRecord>, stats: seq<StatRecord>)
    ensures DistinctSummaries(Merge(statuses, ByPath(stats))) <==> DistinctStatuses(statuses)
    ensures forall p :: SummaryHas(Merge(statuses, ByPath(stats)), p) <==> StatusHas(statuses, p) || StatHas(stats, p)
  {
    hide Merge, ByPath, KeyedByPath;
    ByPathKeys(stats);
    MergeIsUnion(statuses, ByPath(stats));
    StatusesComeFirst(statuses, ByPath(stats));
  }
}
