/** What the loader of `CatFile` makes of a repository: git reads its input line by line, without
    a CR before the LF, and answers every line with the object it names. */
module GitObjects {
  import opened Options
  import opened Lines
  import opened CatFile
  import Decimal

  datatype Object = Object(oid: string, kind: string, content: seq<byte>)

  /** The objects that specs name; other specs are missing. */
  type Repository = map<string, Object>

  const KINDS := ["blob", "tree", "commit", "tag"]

  ghost predicate IsRepository(git: Repository) {
    forall spec :: spec in git ==> IsObjectName(git[spec].oid) && git[spec].kind in KINDS
  }

  // ---------- What git reads and prints ----------

  /** The specs joined by newlines, and a final one. */
  function InputText(specs: seq<string>): string {
    (if specs == [] then "" else JoinLf(specs)) + ['\n']
  }

  function LinesRead(specs: seq<string>): seq<string> { Init(SplitLines(InputText(specs))) }

  function ObjectLine(o: Object): string { o.oid + " " + o.kind + " " + Decimal.Print(|o.content|) }

  function CheckLine(git: Repository, line: string): string {
    if line in git then ObjectLine(git[line]) else line + " missing"
  }

  function CheckLinesFor(git: Repository, lines: seq<string>): (r: seq<string>)
    ensures |r| == |lines|
  {
    seq(|lines|, i requires 0 <= i < |lines| => CheckLine(git, lines[i]))
  }

  function Printed(lines: seq<string>): string {
    if lines == [] then "" else lines[0] + ['\n'] + Printed(lines[1..])
  }

  function Utf8(c: char): seq<byte> {
    var n := c as int;
    if n < 0x80 then [n]
    else if n < 0x800 then [0xC0 + n / 0x40, 0x80 + n % 0x40]
    else if n < 0x1_0000 then [0xE0 + n / 0x1000, 0x80 + n / 0x40 % 0x40, 0x80 + n % 0x40]
    else [0xF0 + n / 0x4_0000, 0x80 + n / 0x1000 % 0x40, 0x80 + n / 0x40 % 0x40, 0x80 + n % 0x40]
  }

  function Encoded(text: string): seq<byte> {
    if text == "" then [] else Utf8(text[0]) + Encoded(text[1..])
  }

  function BatchEntry(git: Repository, line: string): seq<byte> {
    Encoded(CheckLine(git, line)) + [NEWLINE] + if line in git then git[line].content + [NEWLINE] else []
  }

  function BatchEntries(git: Repository, lines: seq<string>): seq<byte> {
    if lines == [] then [] else BatchEntry(git, lines[0]) + BatchEntries(git, lines[1..])
  }

  // ---------- What the loader takes from it ----------

  function TrimEnd(text: string): string {
    if text != "" && IsSpace(Last(text)) then TrimEnd(Init(text)) else text
  }

  function SplitLf(text: string): seq<string> {
    var k := IndexOf(text, '\n');
    if k == |text| then [text] else [text[..k]] + SplitLf(text[k + 1..])
  }

  function Specs(requests: seq<Request>): (specs: seq<string>)
    ensures |specs| == |requests|
  {
    seq(|requests|, i requires 0 <= i < |requests| => requests[i].spec)
  }

  function CheckLines(git: Repository, specs: seq<string>): seq<string> {
    SplitLf(TrimEnd(Printed(CheckLinesFor(git, LinesRead(specs)))))
  }

  /** The specs of the eligible ones among the first `i` requests. */
  function EligibleSpecs(specs: seq<string>, checkLines: seq<string>, maxBytes: nat, i: nat): (r: seq<string>)
    requires i <= |specs|
    ensures |r| == EligibleBefore(checkLines, maxBytes, i)
  {
    if i == 0 then []
    else
      var before := EligibleSpecs(specs, checkLines, maxBytes, i - 1);
      if IsEligible(checkLines, maxBytes, i - 1) then before + [specs[i - 1]] else before
  }

  function BatchStream(git: Repository, specs: seq<string>): seq<byte> {
    if specs == [] then [] else BatchEntries(git, LinesRead(specs))
  }

  /** What a request is for: the text of its own object, unless that is missing, no blob, too
      large or not text. */
  function Own(git: Repository, spec: string, maxBytes: nat): Side {
    if spec !in git then Side(false, None, 0, false)
    else
      var content := git[spec].content;
      if git[spec].kind != "blob" then Side(false, None, |content|, false)
      else if |content| > maxBytes then Side(false, None, |content|, true)
      else if exists i :: 0 <= i < |content| && content[i] == 0 then Side(false, None, |content|, false)
      else Side(true, Some(content), |content|, false)
  }

  ghost predicate ServesOwn(git: Repository, requests: seq<Request>, maxBytes: nat) {
    var specs := Specs(Taken(requests));
    var checkLines := CheckLines(git, specs);
    var n := EligibleBefore(checkLines, maxBytes, |specs|);
    match ReadObjects(BatchStream(git, EligibleSpecs(specs, checkLines, maxBytes, |specs|)), n)
    case Err(_) => false
    case Ok(contents) =>
      forall i :: 0 <= i < |specs| ==>
        && (IsEligible(checkLines, maxBytes, i) ==> EligibleBefore(checkLines, maxBytes, i) < |contents|)
        && Expected(checkLines, maxBytes, contents, i) == Own(git, specs[i], maxBytes)
  }

  /** The spec is one line of git's input. */
  predicate IsLine(spec: string) { '\n' !in spec && !EndsWithCr(spec) }

  ghost predicate AreLines(specs: seq<string>) { forall spec :: spec in specs ==> IsLine(spec) }

  // ---------- The check pass reads back ----------

  lemma SplitAtLf(line: string, rest: string)
    requires '\n' !in line
    ensures SplitLf(line + ['\n'] + rest) == [line] + SplitLf(rest)
  {
    var text := line + ['\n'] + rest;
    assert forall i :: 0 <= i < |line| ==> text[i] == line[i];
    assert text[|line|] == '\n';
    assert IndexOf(text, '\n') == |line|;
    assert text[..|line|] == line && text[|line| + 1..] == rest;
  }

  lemma SplitWithoutLf(line: string)
    requires '\n' !in line
    ensures SplitLf(line) == [line]
  {
  }

  lemma {:induction false} SplitOfPrinted(lines: seq<string>)
    requires lines != [] && forall l :: l in lines ==> '\n' !in l
    ensures SplitLf(JoinLf(lines)) == lines
  {
    hide SplitLf;
    if |lines| == 1 {
      SplitWithoutLf(lines[0]);
    } else {
      SplitOfPrinted(lines[1..]);
      SplitAtLf(lines[0], JoinLf(lines[1..]));
    }
  }

  lemma {:induction false} PrintedIsJoined(lines: seq<string>)
    requires lines != []
    ensures Printed(lines) == JoinLf(lines) + ['\n']
  {
    if |lines| == 1 {
      assert Printed(lines[1..]) == "";
    } else {
      PrintedIsJoined(lines[1..]);
    }
  }

  lemma {:induction false} JoinEnds(lines: seq<string>)
    requires lines != [] && Last(lines) != ""
    ensures JoinLf(lines) != "" && Last(JoinLf(lines)) == Last(Last(lines))
  {
    if |lines| > 1 { JoinEnds(lines[1..]); }
  }

  lemma TrimmedOnce(text: string)
    requires text != "" && !IsSpace(Last(text))
    ensures TrimEnd(text + ['\n']) == text
  {
    assert Init(text + ['\n']) == text;
  }

  /** Lines that end visibly survive printing, trimming and splitting. */
  lemma PrintedReadsBack(lines: seq<string>)
    requires lines != [] && Last(lines) != "" && !IsSpace(Last(Last(lines)))
    requires forall l :: l in lines ==> '\n' !in l
    ensures SplitLf(TrimEnd(Printed(lines))) == lines
  {
    hide IsSpace, SplitLf, TrimEnd;
    PrintedIsJoined(lines);
    JoinEnds(lines);
    TrimmedOnce(JoinLf(lines));
    SplitOfPrinted(lines);
  }

  lemma ObjectLineParts(o: Object)
    requires IsObjectName(o.oid) && o.kind in KINDS
    ensures ObjectLine(o) == o.oid + (" " + (o.kind + (" " + Decimal.Print(|o.content|))))
    ensures '\n' !in ObjectLine(o) && ObjectLine(o) != "" && Decimal.IsDigit(Last(ObjectLine(o)))
    ensures forall i :: 0 <= i < |o.kind| ==> IsNonSpace(o.kind[i])
  {
    var n := Decimal.Print(|o.content|);
    assert forall i :: 0 <= i < |n| ==> Decimal.IsDigit(n[i]);
    assert forall i :: 0 <= i < |o.oid| ==> IsHex(o.oid[i]);
  }

  /** How the check pass judges what git prints for a line. */
  lemma JudgesLine(git: Repository, line: string, maxBytes: nat)
    requires IsRepository(git)
    ensures var verdict := Classify(CheckLine(git, line), maxBytes);
            if line !in git then verdict == Refused(NOTHING)
            else if git[line].kind == "blob" && |git[line].content| <= maxBytes
              then verdict == Eligible(|git[line].content|)
            else verdict == Refused(Own(git, line, maxBytes))
  {
    hide MatchObjectLine, ObjectLine, Decimal.Value, Decimal.Print;
    if line in git {
      var o := git[line];
      ObjectLineParts(o);
      MatchParts(o.oid, o.kind, Decimal.Print(|o.content|));
    }
  }

  lemma LineEndsVisibly(git: Repository, line: string)
    requires IsRepository(git) && '\n' !in line
    ensures var l := CheckLine(git, line); '\n' !in l && l != "" && !IsSpace(Last(l))
  {
    hide ObjectLine;
    if line in git { ObjectLineParts(git[line]); }
  }

  lemma LinesReadAreLines(specs: seq<string>)
    ensures LinesRead(specs) != [] && forall l :: l in LinesRead(specs) ==> '\n' !in l
  {
    var text := InputText(specs);
    var terminators := JoinUndoesSplit(text);
    assert IndexOf(text, '\n') < |text|;
  }

  /** The check lines are git's answers to the lines it read. */
  lemma CheckLinesAre(git: Repository, specs: seq<string>)
    requires IsRepository(git)
    ensures CheckLines(git, specs) == CheckLinesFor(git, LinesRead(specs))
  {
    hide IsSpace, LinesRead, CheckLine, TrimEnd, SplitLf, Printed;
    var lines := LinesRead(specs);
    var answers := CheckLinesFor(git, lines);
    LinesReadAreLines(specs);
    forall i | 0 <= i < |lines| ensures '\n' !in answers[i] && answers[i] != "" && !IsSpace(Last(answers[i])) {
      LineEndsVisibly(git, lines[i]);
    }
    PrintedReadsBack(answers);
  }

  // ---------- Specs that are lines ----------

  lemma CleanSpecsAreRead(specs: seq<string>)
    requires specs != [] && AreLines(specs)
    ensures LinesRead(specs) == specs
  {
    hide SplitLines;
    SplitOfJoinLfAndNewline(specs);
    forall i | 0 <= i < |specs| ensures DropCr(specs[i]) == specs[i] { assert IsLine(specs[i]); }
    assert DropCrs(specs, false) == specs;
  }

  /** The eligible requests are those whose objects are to be fetched. */
  predicate Fetched(git: Repository, spec: string, maxBytes: nat) {
    spec in git && git[spec].kind == "blob" && |git[spec].content| <= maxBytes
  }

  function Contents(git: Repository, specs: seq<string>): (r: seq<seq<byte>>)
    requires forall spec :: spec in specs ==> spec in git
    ensures |r| == |specs|
  {
    seq(|specs|, i requires 0 <= i < |specs| => git[specs[i]].content)
  }

  function Names(git: Repository, specs: seq<string>): (r: seq<string>)
    requires forall spec :: spec in specs ==> spec in git
    ensures |r| == |specs|
  {
    seq(|specs|, i requires 0 <= i < |specs| => git[specs[i]].oid)
  }

  lemma BlobEntry(git: Repository, spec: string)
    requires IsRepository(git) && spec in git && git[spec].kind == "blob"
    ensures BatchEntry(git, spec) == Record(git[spec].oid, git[spec].content)
  {
    var o := git[spec];
    assert ObjectLine(o) == HeaderText(o.oid, |o.content|);
    AsciiIsEncoded(ObjectLine(o));
  }

  lemma {:induction false} AsciiIsEncoded(text: string)
    requires forall i :: 0 <= i < |text| ==> text[i] as int < 0x80
    ensures Encoded(text) == Bytes(text)
  {
    if text != "" {
      AsciiIsEncoded(text[1..]);
      assert Bytes(text) == [text[0] as int] + Bytes(text[1..]);
    }
  }

  lemma {:induction false} BlobsAreStreamed(git: Repository, specs: seq<string>)
    requires IsRepository(git) && forall spec :: spec in specs ==> spec in git && git[spec].kind == "blob"
    ensures forall i :: 0 <= i < |specs| ==> IsObjectName(Names(git, specs)[i])
    ensures BatchEntries(git, specs) == Stream(Names(git, specs), Contents(git, specs))
  {
    hide BatchEntry, Record;
    if specs != [] {
      BlobsAreStreamed(git, specs[1..]);
      BlobEntry(git, specs[0]);
      assert Names(git, specs)[1..] == Names(git, specs[1..]);
      assert Contents(git, specs)[1..] == Contents(git, specs[1..]);
    }
  }

  lemma {:induction false} EligibleAreFetched(git: Repository, specs: seq<string>, checkLines: seq<string>,
                                              maxBytes: nat, n: nat)
    requires n <= |specs|
    requires forall i :: 0 <= i < n && IsEligible(checkLines, maxBytes, i) ==> Fetched(git, specs[i], maxBytes)
    ensures forall spec :: spec in EligibleSpecs(specs, checkLines, maxBytes, n) ==>
              spec in specs && Fetched(git, spec, maxBytes)
  {
    hide IsEligible, Fetched;
    if n > 0 { EligibleAreFetched(git, specs, checkLines, maxBytes, n - 1); }
  }

  lemma {:induction false} EligiblePlace(specs: seq<string>, checkLines: seq<string>, maxBytes: nat, n: nat, i: nat)
    requires i < n <= |specs| && IsEligible(checkLines, maxBytes, i)
    ensures var place, chosen := EligibleBefore(checkLines, maxBytes, i), EligibleSpecs(specs, checkLines, maxBytes, n);
            place < |chosen| && chosen[place] == specs[i]
  {
    hide IsEligible;
    if i < n - 1 { EligiblePlace(specs, checkLines, maxBytes, n - 1, i); }
  }

  lemma EligibleIffFetched(git: Repository, specs: seq<string>, maxBytes: nat, i: nat)
    requires IsRepository(git) && i < |specs|
    ensures IsEligible(CheckLinesFor(git, specs), maxBytes, i) <==> Fetched(git, specs[i], maxBytes)
    ensures !Fetched(git, specs[i], maxBytes) ==>
            Classify(LineAt(CheckLinesFor(git, specs), i), maxBytes) == Refused(Own(git, specs[i], maxBytes))
  {
    hide Classify, CheckLine;
    JudgesLine(git, specs[i], maxBytes);
    assert LineAt(CheckLinesFor(git, specs), i) == CheckLine(git, specs[i]);
  }

  lemma BatchIsRead(git: Repository, chosen: seq<string>)
    requires IsRepository(git) && AreLines(chosen)
    requires forall spec :: spec in chosen ==> spec in git && git[spec].kind == "blob"
    ensures ReadObjects(BatchStream(git, chosen), |chosen|) == Ok(Contents(git, chosen))
  {
    hide ReadObjects, LinesRead, BatchEntries, Stream, IsLine;
    if chosen == [] {
      EveryObjectIsRecovered([], []);
      assert Contents(git, chosen) == [];
      StreamOfNone();
    } else {
      CleanSpecsAreRead(chosen);
      BlobsAreStreamed(git, chosen);
      EveryObjectIsRecovered(Names(git, chosen), Contents(git, chosen));
    }
  }

  lemma StreamOfNone()
    ensures Stream([], []) == []
  {
  }

  lemma LinesAreServed(git: Repository, requests: seq<Request>, maxBytes: nat)
    requires IsRepository(git) && AreLines(Specs(Taken(requests)))
    ensures ServesOwn(git, requests, maxBytes)
  {
    hide ReadObjects, Classify, CheckLine, CheckLines, LinesRead, BatchStream, Own, ContentSide;
    hide IsEligible, EligibleBefore, EligibleSpecs, IsLine, IsRepository;
    var specs := Specs(Taken(requests));
    var checkLines := CheckLines(git, specs);
    if specs == [] {
      NoneIsEligible(checkLines, maxBytes);
      assert EligibleSpecs(specs, checkLines, maxBytes, |specs|) == [];
      BatchIsRead(git, []);
    } else {
      CheckLinesAre(git, specs);
      CleanSpecsAreRead(specs);
      forall i | 0 <= i < |specs|
        ensures IsEligible(checkLines, maxBytes, i) <==> Fetched(git, specs[i], maxBytes)
      {
        EligibleIffFetched(git, specs, maxBytes, i);
      }
      var chosen := EligibleSpecs(specs, checkLines, maxBytes, |specs|);
      EligibleAreFetched(git, specs, checkLines, maxBytes, |specs|);
      BatchIsRead(git, chosen);
      forall i | 0 <= i < |specs|
        ensures IsEligible(checkLines, maxBytes, i) ==> EligibleBefore(checkLines, maxBytes, i) < |chosen|
        ensures Expected(checkLines, maxBytes, Contents(git, chosen), i) == Own(git, specs[i], maxBytes)
      {
        ServedAt(git, specs, checkLines, maxBytes, chosen, i);
      }
    }
  }

  lemma NoneIsEligible(checkLines: seq<string>, maxBytes: nat)
    ensures EligibleBefore(checkLines, maxBytes, 0) == 0
  {
  }

  lemma ServedAt(git: Repository, specs: seq<string>, checkLines: seq<string>, maxBytes: nat, chosen: seq<string>,
                 i: nat)
    requires IsRepository(git) && i < |specs| && checkLines == CheckLinesFor(git, specs)
    requires chosen == EligibleSpecs(specs, checkLines, maxBytes, |specs|)
    requires forall spec :: spec in chosen ==> spec in git
    ensures IsEligible(checkLines, maxBytes, i) ==> EligibleBefore(checkLines, maxBytes, i) < |chosen|
    ensures Expected(checkLines, maxBytes, Contents(git, chosen), i) == Own(git, specs[i], maxBytes)
  {
    hide EligibleBefore, EligibleSpecs, CheckLine, ContentSide, Own, Classify;
    EligibleIffFetched(git, specs, maxBytes, i);
    if IsEligible(checkLines, maxBytes, i) {
      EligiblePlace(specs, checkLines, maxBytes, |specs|, i);
      OwnIsText(git, specs[i], maxBytes);
    }
  }

  // ---------- Specs that are not ----------

  lemma NewlineAddsLine(x: string, y: string)
    ensures |SplitLines(x + ['\n'] + y)| == |SplitLines(x)| + |SplitLines(y)|
  {
    hide SplitLines;
    var terminators := JoinUndoesSplit(x);
    var last := Last(SplitLines(x));
    SplitContinues(x, ['\n'] + y);
    assert x + (['\n'] + y) == x + ['\n'] + y && last + (['\n'] + y) == last + ['\n'] + y;
    SplitAtNewline(last, y);
  }

  lemma {:induction false} EnoughLines(specs: seq<string>)
    requires specs != []
    ensures |SplitLines(JoinLf(specs))| >= |specs|
  {
    hide SplitLines;
    if |specs| > 1 {
      EnoughLines(specs[1..]);
      NewlineAddsLine(specs[0], JoinLf(specs[1..]));
    }
  }

  /** Whatever the specs are, git reads some other line for one that is no line. */
  lemma OtherLineIsRead(specs: seq<string>) returns (i: nat)
    requires !AreLines(specs)
    ensures i < |specs| <= |LinesRead(specs)| && !IsLine(specs[i]) && LinesRead(specs)[i] != specs[i]
  {
    hide SplitLines;
    EnoughLines(specs);
    NewlineAddsLine(JoinLf(specs), "");
    assert JoinLf(specs) + ['\n'] + "" == InputText(specs);
    LinesReadAreLines(specs);
    var lines := LinesRead(specs);
    if spec :| spec in specs && '\n' in spec {
      i :| 0 <= i < |specs| && specs[i] == spec;
      assert lines[i] in lines;
    } else {
      SplitOfJoinLfAndNewline(specs);
      var spec :| spec in specs && !IsLine(spec);
      i :| 0 <= i < |specs| && specs[i] == spec;
      assert lines[i] == DropCr(specs[i]);
    }
  }

  /** A repository that holds nothing but one empty file. */
  function OneFile(spec: string): Repository { map[spec := Object("0", "blob", [])] }

  lemma OtherLineIsRefused(requests: seq<Request>, maxBytes: nat)
    requires !AreLines(Specs(Taken(requests)))
    ensures exists git :: IsRepository(git) && !ServesOwn(git, requests, maxBytes)
  {
    hide Classify, CheckLines, LinesRead, EligibleBefore, EligibleSpecs, BatchStream, ReadObjects, IsLine;
    var specs := Specs(Taken(requests));
    var i := OtherLineIsRead(specs);
    var git := OneFile(specs[i]);
    assert IsRepository(git);
    var checkLines := CheckLines(git, specs);
    CheckLinesAre(git, specs);
    JudgesLine(git, LinesRead(specs)[i], maxBytes);
    assert LineAt(checkLines, i) == CheckLine(git, LinesRead(specs)[i]);
    assert Classify(LineAt(checkLines, i), maxBytes) == Refused(NOTHING);
    assert Own(git, specs[i], maxBytes).available;
  }

  /** The requests of a load get their own objects whatever the repository holds, if and only if
      each spec is one line of git's input. */
  lemma OwnObjectsIffSpecsAreLines(requests: seq<Request>, maxBytes: nat)
    ensures (forall git: Repository :: IsRepository(git) ==> ServesOwn(git, requests, maxBytes)) <==>
            AreLines(Specs(Taken(requests)))
  {
    hide ServesOwn, IsRepository, AreLines;
    if AreLines(Specs(Taken(requests))) {
      forall git: Repository | IsRepository(git) ensures ServesOwn(git, requests, maxBytes) {
        LinesAreServed(git, requests, maxBytes);
      }
    } else {
      OtherLineIsRefused(requests, maxBytes);
    }
  }

  /** A file whose spec is two lines shifts the answers: the next request is given the text
      of what the second line names. */
  lemma NewlineShiftsAnswers(git: Repository, x: string, y: string, z: string, maxBytes: nat)
    requires IsRepository(git) && AreLines([x, y, z])
    requires Fetched(git, x, maxBytes) && Fetched(git, y, maxBytes) && Fetched(git, z, maxBytes)
    ensures var specs := [x + ['\n'] + y, z];
            var checkLines := CheckLines(git, specs);
            var chosen := EligibleSpecs(specs, checkLines, maxBytes, 2);
            && ReadObjects(BatchStream(git, chosen), |chosen|) == Ok([git[x].content, git[y].content])
            && EligibleBefore(checkLines, maxBytes, 1) == 1
            && Expected(checkLines, maxBytes, [git[x].content, git[y].content], 1) == Own(git, y, maxBytes)
  {
    hide CheckLines, LinesRead, Classify, CheckLine, BatchEntries, ReadObjects, Own, ContentSide;
    var specs, read := [x + ['\n'] + y, z], [x, y, z];
    var checkLines := CheckLines(git, specs);
    TwoLinesAreRead(x, y, z);
    CheckLinesAre(git, specs);
    forall i | 0 <= i < 3
      ensures Classify(LineAt(checkLines, i), maxBytes).Eligible? && LineAt(checkLines, i) == CheckLine(git, read[i])
    {
      JudgesLine(git, read[i], maxBytes);
    }
    FirstTwoAreEligible(specs, checkLines, maxBytes);
    FirstTwoObjects(git, read);
    assert Own(git, y, maxBytes) == ContentSide(git[y].content) by { OwnIsText(git, y, maxBytes); }
  }

  lemma OwnIsText(git: Repository, spec: string, maxBytes: nat)
    requires Fetched(git, spec, maxBytes)
    ensures Own(git, spec, maxBytes) == ContentSide(git[spec].content)
  {
  }

  lemma TwoLinesAreRead(x: string, y: string, z: string)
    requires AreLines([x, y, z])
    ensures LinesRead([x + ['\n'] + y, z]) == [x, y, z]
  {
    hide SplitLines;
    CleanSpecsAreRead([x, y, z]);
    assert [x, y, z][1..] == [y, z] && [y, z][1..] == [z] && [x + ['\n'] + y, z][1..] == [z];
    assert JoinLf([x, y, z]) == JoinLf([x + ['\n'] + y, z]);
  }

  lemma FirstTwoAreEligible(specs: seq<string>, checkLines: seq<string>, maxBytes: nat)
    requires |specs| == 2 && IsEligible(checkLines, maxBytes, 0) && IsEligible(checkLines, maxBytes, 1)
    ensures EligibleBefore(checkLines, maxBytes, 1) == 1
    ensures EligibleSpecs(specs, checkLines, maxBytes, 2) == specs
  {
    hide IsEligible;
    assert EligibleSpecs(specs, checkLines, maxBytes, 0) == [];
    assert EligibleSpecs(specs, checkLines, maxBytes, 1) == [specs[0]];
  }

  lemma FirstTwoObjects(git: Repository, specs: seq<string>)
    requires IsRepository(git) && |specs| == 3
    requires forall spec :: spec in specs ==> spec in git && git[spec].kind == "blob"
    ensures ReadObjects(BatchEntries(git, specs), 2) == Ok([git[specs[0]].content, git[specs[1]].content])
  {
    hide ReadObjects, Record, BatchEntry;
    var a, b, rest := git[specs[0]], git[specs[1]], BatchEntries(git, specs[1..][1..]);
    BlobEntry(git, specs[0]);
    BlobEntry(git, specs[1]);
    OneObject(a.oid, a.content, BatchEntries(git, specs[1..]), 1);
    OneObject(b.oid, b.content, rest, 0);
    assert specs[1..][0] == specs[1];
    NothingToRead(rest);
    assert [a.content] + ([b.content] + []) == [a.content, b.content];
  }

  function OwnOutcomes(git: Repository, requests: seq<Request>, maxBytes: nat): seq<Outcome> {
    seq(|requests|, i requires 0 <= i < |requests| =>
      Outcome(requests[i].key, Own(git, requests[i].spec, maxBytes)))
  }

  /** The two passes over a repository. */
  method LoadOwnObjects(git: Repository, requests: seq<Request>, maxBytes: nat) returns (r: Result<seq<Outcome>, Error>)
    requires IsRepository(git)
    ensures DistinctKeys(Taken(requests)) && AreLines(Specs(Taken(requests))) ==>
              r == Ok(OwnOutcomes(git, Taken(requests), maxBytes))
  {
    hide CheckLines, BatchStream, EligibleSpecs, ReadObjects, IsEligible, EligibleBefore, Expected, Own;
    hide IsRepository, AreLines;
    var specs := Specs(Taken(requests));
    var checkLines := CheckLines(git, specs);
    var batch := BatchStream(git, EligibleSpecs(specs, checkLines, maxBytes, |specs|));
    r := LoadGitObjects(requests, checkLines, batch, maxBytes);
    if DistinctKeys(Taken(requests)) && AreLines(specs) {
      LinesAreServed(git, requests, maxBytes);
      var own := OwnOutcomes(git, Taken(requests), maxBytes);
      forall i | 0 <= i < |specs| ensures r.value[i] == own[i] {
        assert r.value[i].key == own[i].key && r.value[i].side == own[i].side;
      }
      assert r.value == own;
    }
  }
}
