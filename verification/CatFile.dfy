/** Loading file contents through `git cat-file`: a check pass that sorts the requests, and a
    batch stream of length-prefixed objects. */
module CatFile {
  import opened Options
  import opened Lines
  import Decimal

  type byte = b: int | 0 <= b < 256

  const NEWLINE: byte := 10
  const MAX_REQUESTS: nat := 4

  datatype Request = Request(key: string, spec: string)

  /** One side of a file: its bytes when it is available text. */
  datatype Side = Side(available: bool, text: Option<seq<byte>>, bytes: nat, partial: bool)

  datatype Outcome = Outcome(key: string, side: Side)

  datatype Error = IncompleteHeader | IncompleteObject

  const NOTHING := Side(false, None, 0, false)

  // ---------- Reading header text ----------

  predicate IsHex(c: char) { Decimal.IsDigit(c) || 'a' <= c <= 'f' }

  predicate IsSpace(c: char) {
    || c == ' ' || '\t' <= c <= '\r' || c == '\U{A0}' || c == '\U{1680}' || '\U{2000}' <= c <= '\U{200A}'
    || c == '\U{2028}' || c == '\U{2029}' || c == '\U{202F}' || c == '\U{205F}' || c == '\U{3000}' || c == '\U{FEFF}'
  }

  predicate IsNonSpace(c: char) { !IsSpace(c) }

  /** Matches ^(\S+)\s+(\d+)$ and yields the type and the size. */
  function MatchKindAndSize(text: string): Option<(string, nat)> {
    var k := RunLength(text, IsNonSpace);
    var t := RunLength(text[k..], IsSpace);
    var size := text[k + t..];
    if k > 0 && t > 0 && Decimal.IsNumeral(size) then Some((text[..k], Decimal.Value(size))) else None
  }

  /** Matches ^[0-9a-f]+\s+(\S+)\s+(\d+)$. */
  function MatchObjectLine(line: string): Option<(string, nat)> {
    var h := RunLength(line, IsHex);
    var s := RunLength(line[h..], IsSpace);
    if h > 0 && s > 0 then MatchKindAndSize(line[h + s..]) else None
  }

  function Suffix(s: string, end: string): bool {
    |end| <= |s| && s[|s| - |end|..] == end
  }

  datatype Verdict = Refused(side: Side) | Eligible(bytes: nat)

  /** What the check pass says of one request; a line git did not print is empty. */
  function Classify(line: string, maxBytes: nat): Verdict {
    if Suffix(line, " missing") then Refused(NOTHING)
    else match MatchObjectLine(line)
      case None => Refused(NOTHING)
      case Some((kind, bytes)) =>
        if kind != "blob" then Refused(Side(false, None, bytes, false))
        else if bytes > maxBytes then Refused(Side(false, None, bytes, true))
        else Eligible(bytes)
  }

  // ---------- The object stream ----------

  function Text(bytes: seq<byte>): string {
    seq(|bytes|, i requires 0 <= i < |bytes| => bytes[i] as char)
  }

  /** The size a batch header announces. */
  function HeaderSize(header: seq<byte>): Option<nat> {
    match MatchObjectLine(Text(header))
    case Some((kind, bytes)) => if kind == "blob" then Some(bytes) else None
    case None => None
  }

  /** The stream from an offset on; there is nothing past its end. */
  function After(stream: seq<byte>, offset: nat): seq<byte> {
    if offset <= |stream| then stream[offset..] else []
  }

  /** Reads `n` objects: a header line, as many bytes as it says, and one separator each. */
  function ReadObjects(stream: seq<byte>, n: nat): Result<seq<seq<byte>>, Error>
    decreases n
  {
    if n == 0 then Ok([])
    else
      var k := IndexOf(stream, NEWLINE);
      if k == |stream| then Err(IncompleteHeader)
      else match HeaderSize(stream[..k])
        case None => Err(IncompleteObject)
        case Some(size) =>
          if k + 1 + size > |stream| then Err(IncompleteObject)
          else
            match ReadObjects(After(stream, k + size + 2), n - 1)
            case Err(e) => Err(e)
            case Ok(contents) => Ok([stream[k + 1..k + 1 + size]] + contents)
  }

  // ---------- What git writes ----------

  function Bytes(s: string): (bytes: seq<byte>)
    requires forall i :: 0 <= i < |s| ==> s[i] as int < 256
  {
    seq(|s|, i requires 0 <= i < |s| => s[i] as int)
  }

  predicate IsObjectName(oid: string) {
    oid != "" && forall i :: 0 <= i < |oid| ==> IsHex(oid[i])
  }

  function HeaderText(oid: string, size: nat): (text: string)
    requires IsObjectName(oid)
    ensures forall i :: 0 <= i < |text| ==> text[i] as int < 256 && text[i] != '\n'
  {
    var n := Decimal.Print(size);
    assert forall i :: 0 <= i < |n| ==> Decimal.IsDigit(n[i]);
    assert forall i :: 0 <= i < |oid| ==> IsHex(oid[i]);
    oid + " blob " + n
  }

  function Record(oid: string, content: seq<byte>): seq<byte>
    requires IsObjectName(oid)
  {
    Bytes(HeaderText(oid, |content|)) + [NEWLINE] + content + [NEWLINE]
  }

  /** The batch output for objects of any contents. */
  function Stream(oids: seq<string>, contents: seq<seq<byte>>): seq<byte>
    requires |oids| == |contents| && forall i :: 0 <= i < |oids| ==> IsObjectName(oids[i])
  {
    if oids == [] then [] else Record(oids[0], contents[0]) + Stream(oids[1..], contents[1..])
  }

  lemma RunOfPrefix(x: string, y: string, p: char -> bool)
    requires forall i :: 0 <= i < |x| ==> p(x[i])
    requires y == "" || !p(y[0])
    ensures RunLength(x + y, p) == |x|
  {
    assert forall i :: 0 <= i < |x| ==> (x + y)[i] == x[i];
    assert y != "" ==> (x + y)[|x|] == y[0];
    assert RunLength(x + y, p) == |x|;
  }

  lemma HeaderReadsBack(oid: string, size: nat)
    requires IsObjectName(oid)
    ensures HeaderSize(Bytes(HeaderText(oid, size))) == Some(size)
  {
    hide RunLength, Decimal.Value, Decimal.Print, HeaderText, MatchObjectLine;
    var n, text := Decimal.Print(size), HeaderText(oid, size);
    assert Text(Bytes(text)) == text;
    HeaderParts(oid, n, text, size);
    assert Decimal.IsDigit(n[0]);
    MatchParts(oid, "blob", n);
  }

  /** What the check pass makes of the lines git prints: a blob is fetched exactly when it is
      no larger than allowed, and a missing object never. */
  lemma CheckLinesAreClassified(oid: string, size: nat, maxBytes: nat, spec: string)
    requires IsObjectName(oid)
    ensures Classify(HeaderText(oid, size), maxBytes) ==
            if size <= maxBytes then Eligible(size) else Refused(Side(false, None, size, true))
    ensures Classify(spec + " missing", maxBytes) == Refused(NOTHING)
  {
    hide RunLength, Decimal.Value, Decimal.Print, HeaderText, MatchObjectLine;
    var n, text := Decimal.Print(size), HeaderText(oid, size);
    HeaderParts(oid, n, text, size);
    MatchParts(oid, "blob", n);
    assert text[|text| - 1] == n[|n| - 1] && Decimal.IsDigit(n[|n| - 1]);
  }

  lemma HeaderParts(oid: string, n: string, text: string, size: nat)
    requires IsObjectName(oid) && n == Decimal.Print(size) && text == HeaderText(oid, size)
    ensures text == oid + (" " + ("blob" + (" " + n)))
  {
  }

  lemma MatchParts(oid: string, kind: string, n: string)
    requires IsObjectName(oid) && kind != "" && (forall i :: 0 <= i < |kind| ==> IsNonSpace(kind[i]))
             && Decimal.IsNumeral(n)
    ensures MatchObjectLine(oid + (" " + (kind + (" " + n)))) == Some((kind, Decimal.Value(n)))
  {
    hide RunLength, Decimal.Value, IsObjectName, IsSpace, IsNonSpace, IsHex, MatchKindAndSize;
    var afterSpace := kind + (" " + n);
    assert afterSpace[0] == kind[0];
    NameAndRest(oid, afterSpace);
    KindAndSize(kind, n);
  }

  lemma NameAndRest(oid: string, rest: string)
    requires IsObjectName(oid) && rest != "" && IsNonSpace(rest[0])
    ensures var line := oid + (" " + rest);
            && oid != "" && RunLength(line, IsHex) == |oid| && line[|oid|..] == " " + rest
            && RunLength(" " + rest, IsSpace) == 1 && line[|oid| + 1..] == rest
  {
    hide RunLength;
    var tail := " " + rest;
    var line := oid + tail;
    assert line[|oid|..] == tail;
    assert line[|oid| + 1..] == rest;
    assert tail[0] == ' ';
    RunOfPrefix(oid, tail, IsHex);
    RunOfPrefix(" ", rest, IsSpace);
  }

  lemma KindAndSize(kind: string, n: string)
    requires kind != "" && (forall i :: 0 <= i < |kind| ==> IsNonSpace(kind[i])) && Decimal.IsNumeral(n)
    ensures var s := kind + (" " + n);
            MatchKindAndSize(s) == Some((kind, Decimal.Value(n)))
  {
    hide RunLength, Decimal.Value;
    var s, tail := kind + (" " + n), " " + n;
    RunOfPrefix(kind, tail, IsNonSpace);
    assert s[|kind|..] == tail && s[..|kind|] == kind;
    assert Decimal.IsDigit(n[0]);
    RunOfPrefix(" ", n, IsSpace);
    assert s[|kind| + 1..] == n;
  }

  /** The five parts of a line that states an object: name, gap, kind, gap, size. */
  predicate AreObjectParts(line: string, oid: string, gap: string, kind: string, gap2: string, size: string) {
    && line == oid + (gap + (kind + (gap2 + size)))
    && oid != "" && (forall i :: 0 <= i < |oid| ==> IsHex(oid[i]))
    && gap != "" && (forall i :: 0 <= i < |gap| ==> IsSpace(gap[i]))
    && kind != "" && (forall i :: 0 <= i < |kind| ==> IsNonSpace(kind[i]))
    && gap2 != "" && (forall i :: 0 <= i < |gap2| ==> IsSpace(gap2[i]))
    && Decimal.IsNumeral(size)
  }

  /** Nothing but such a line is read as an object. */
  lemma OnlyObjectLinesMatch(line: string) returns (oid: string, gap: string, kind: string, gap2: string, size: string)
    requires MatchObjectLine(line).Some?
    ensures AreObjectParts(line, oid, gap, kind, gap2, size)
    ensures MatchObjectLine(line) == Some((kind, Decimal.Value(size)))
  {
    hide RunLength, Decimal.Value, IsSpace, IsNonSpace, IsHex, MatchKindAndSize;
    var rest, afterSpace: string;
    oid, rest := CutRun(line, IsHex);
    gap, afterSpace := CutRun(rest, IsSpace);
    assert line[|oid| + |gap|..] == afterSpace;
    kind, gap2, size := OnlyKindAndSizeMatch(afterSpace);
  }

  lemma OnlyKindAndSizeMatch(text: string) returns (kind: string, gap: string, size: string)
    requires MatchKindAndSize(text).Some?
    ensures text == kind + (gap + size) && kind != "" && gap != "" && Decimal.IsNumeral(size)
    ensures forall i :: 0 <= i < |kind| ==> IsNonSpace(kind[i])
    ensures forall i :: 0 <= i < |gap| ==> IsSpace(gap[i])
    ensures MatchKindAndSize(text) == Some((kind, Decimal.Value(size)))
  {
    hide RunLength, Decimal.Value, IsSpace, IsNonSpace;
    var rest: string;
    kind, rest := CutRun(text, IsNonSpace);
    gap, size := CutRun(rest, IsSpace);
    assert text[|kind| + |gap|..] == size;
  }

  /** The longest run in front, and what follows it. */
  lemma CutRun(text: string, p: char -> bool) returns (run: string, rest: string)
    ensures text == run + rest && |run| == RunLength(text, p) && rest == text[|run|..] && run == text[..|run|]
    ensures forall i :: 0 <= i < |run| ==> p(run[i])
  {
    run, rest := text[..RunLength(text, p)], text[RunLength(text, p)..];
  }

  lemma FirstNewline(header: seq<byte>, rest: seq<byte>)
    requires NEWLINE !in header
    ensures var text := header + [NEWLINE] + rest;
            IndexOf(text, NEWLINE) == |header| && text[..|header|] == header && text[|header| + 1..] == rest
  {
    var text := header + [NEWLINE] + rest;
    assert forall i :: 0 <= i < |header| ==> text[i] == header[i];
    assert text[|header|] == NEWLINE;
  }

  lemma HeaderHasNoNewline(oid: string, size: nat)
    requires IsObjectName(oid)
    ensures NEWLINE !in Bytes(HeaderText(oid, size))
  {
  }

  /** A record in front reads as its content, whatever bytes the content holds. */
  lemma OneObject(oid: string, content: seq<byte>, rest: seq<byte>, n: nat)
    requires IsObjectName(oid)
    ensures ReadObjects(Record(oid, content) + rest, n + 1) ==
            match ReadObjects(rest, n)
            case Err(e) => Err(e)
            case Ok(contents) => Ok([content] + contents)
  {
    hide HeaderSize, HeaderText, ReadObjects;
    var header, tail := Bytes(HeaderText(oid, |content|)), content + [NEWLINE] + rest;
    HeaderReadsBack(oid, |content|);
    HeaderHasNoNewline(oid, |content|);
    assert Record(oid, content) + rest == header + [NEWLINE] + tail;
    AfterHeader(header, tail, |content|, n);
    assert tail[..|content|] == content && tail[|content| + 1..] == rest;
  }

  /** Reading past a well-formed header, whatever follows it. */
  lemma AfterHeader(header: seq<byte>, tail: seq<byte>, size: nat, n: nat)
    requires NEWLINE !in header && HeaderSize(header) == Some(size)
    ensures ReadObjects(header + [NEWLINE] + tail, n + 1) ==
            if size > |tail| then Err(IncompleteObject)
            else match ReadObjects(After(tail, size + 1), n)
              case Err(e) => Err(e)
              case Ok(contents) => Ok([tail[..size]] + contents)
  {
    hide HeaderSize, ReadObjects, IndexOf, After;
    var stream := header + [NEWLINE] + tail;
    FirstNewline(header, tail);
    ReadStep(stream, n);
    if size <= |tail| {
      assert stream[|header| + 1..|header| + 1 + size] == tail[..size];
      AfterFront(header + [NEWLINE], tail, size + 1);
    }
  }

  lemma AfterFront(front: seq<byte>, tail: seq<byte>, i: nat)
    ensures After(front + tail, |front| + i) == After(tail, i)
  {
  }

  lemma ReadStep(stream: seq<byte>, n: nat)
    ensures ReadObjects(stream, n + 1) ==
            var k := IndexOf(stream, NEWLINE);
            if k == |stream| then Err(IncompleteHeader)
            else match HeaderSize(stream[..k])
              case None => Err(IncompleteObject)
              case Some(size) =>
                if k + 1 + size > |stream| then Err(IncompleteObject)
                else match ReadObjects(After(stream, k + size + 2), n)
                  case Err(e) => Err(e)
                  case Ok(contents) => Ok([stream[k + 1..k + 1 + size]] + contents)
  {
    hide HeaderSize, After;
  }

  lemma {:induction false} EveryObjectIsRecovered(oids: seq<string>, contents: seq<seq<byte>>)
    requires |oids| == |contents| && forall i :: 0 <= i < |oids| ==> IsObjectName(oids[i])
    ensures ReadObjects(Stream(oids, contents), |contents|) == Ok(contents)
  {
    hide ReadObjects, Record;
    if oids == [] {
      NothingLeft(0);
    } else {
      EveryObjectIsRecovered(oids[1..], contents[1..]);
      OneObject(oids[0], contents[0], Stream(oids[1..], contents[1..]), |contents| - 1);
      assert [contents[0]] + contents[1..] == contents;
    }
  }

  lemma CutObject(oid: string, content: seq<byte>, k: nat, n: nat)
    requires IsObjectName(oid) && k <= |Record(oid, content)|
    ensures k < |Record(oid, content)| - 1 ==> ReadObjects(Record(oid, content)[..k], n + 1).Err?
    ensures k >= |Record(oid, content)| - 1 ==>
      ReadObjects(Record(oid, content)[..k], n + 1) ==
        match ReadObjects([], n) case Err(e) => Err(e) case Ok(c) => Ok([content] + c)
  {
    hide HeaderSize, HeaderText, ReadObjects;
    var header, record := Bytes(HeaderText(oid, |content|)), Record(oid, content);
    HeaderReadsBack(oid, |content|);
    HeaderHasNoNewline(oid, |content|);
    if k <= |header| {
      assert record[..k] == header[..k];
      HeaderCut(header[..k], n);
    } else {
      var tail := (content + [NEWLINE])[..k - |header| - 1];
      assert record[..k] == header + [NEWLINE] + tail;
      AfterHeader(header, tail, |content|, n);
      if |content| <= |tail| {
        assert tail[..|content|] == content;
        assert After(tail, |content| + 1) == [];
      }
    }
  }

  lemma HeaderCut(stream: seq<byte>, n: nat)
    requires NEWLINE !in stream
    ensures ReadObjects(stream, n + 1) == Err(IncompleteHeader)
  {
    hide HeaderSize;
    assert forall i :: 0 <= i < |stream| ==> stream[i] in stream;
  }

  /** Why reading stops: there is no header line, or the line is no header of a blob, or the blob
      is not all there. */
  lemma ReadingStopsBecause(stream: seq<byte>, header: seq<byte>, tail: seq<byte>, n: nat)
    requires n > 0 && NEWLINE !in header
    ensures NEWLINE !in stream ==> ReadObjects(stream, n) == Err(IncompleteHeader)
    ensures HeaderSize(header).None? || HeaderSize(header).value > |tail| ==>
              ReadObjects(header + [NEWLINE] + tail, n) == Err(IncompleteObject)
  {
    hide HeaderSize, ReadObjects;
    if NEWLINE !in stream { HeaderCut(stream, n - 1); }
    if HeaderSize(header).Some? {
      AfterHeader(header, tail, HeaderSize(header).value, n - 1);
    } else {
      FirstNewline(header, tail);
      ReadStep(header + [NEWLINE] + tail, n - 1);
    }
  }

  /** A stream cut short is rejected, unless only the very last separator is missing. */
  lemma {:induction false} TruncationIsNoticed(oids: seq<string>, contents: seq<seq<byte>>, k: nat)
    requires |oids| == |contents| > 0 && forall i :: 0 <= i < |oids| ==> IsObjectName(oids[i])
    requires k <= |Stream(oids, contents)|
    ensures ReadObjects(Stream(oids, contents)[..k], |contents|).Ok? <==> k >= |Stream(oids, contents)| - 1
  {
    hide Record, ReadObjects;
    var first, rest := Record(oids[0], contents[0]), Stream(oids[1..], contents[1..]);
    RecordSize(oids[0], contents[0]);
    NothingLeft(|contents| - 1);
    if |contents| == 1 {
      CutObject(oids[0], contents[0], k, 0);
      assert first + rest == first;
    } else {
      assert rest != [] by { RecordSize(oids[1], contents[1]); }
      if k >= |first| {
        assert (first + rest)[..k] == first + rest[..k - |first|];
        OneObject(oids[0], contents[0], rest[..k - |first|], |contents| - 1);
        TruncationIsNoticed(oids[1..], contents[1..], k - |first|);
      } else {
        CutObject(oids[0], contents[0], k, |contents| - 1);
        assert (first + rest)[..k] == first[..k];
        assert |rest| >= 2 by { RecordSize(oids[1], contents[1]); }
      }
    }
  }

  lemma RecordSize(oid: string, content: seq<byte>)
    requires IsObjectName(oid)
    ensures |Record(oid, content)| >= 2 + |content|
  {
  }

  lemma NothingLeft(n: nat)
    ensures ReadObjects([], n) == if n == 0 then Ok([]) else Err(IncompleteHeader)
  {
  }

  lemma NothingToRead(stream: seq<byte>)
    ensures ReadObjects(stream, 0) == Ok([])
  {
  }

  // ---------- The whole load ----------

  /** Content holding a zero byte is not offered as text. */
  function ContentSide(content: seq<byte>): Side {
    if 0 in content then Side(false, None, |content|, false) else Side(true, Some(content), |content|, false)
  }

  function LineAt(checkLines: seq<string>, i: nat): string {
    if i < |checkLines| then checkLines[i] else ""
  }

  function Taken(requests: seq<Request>): seq<Request> {
    if |requests| > MAX_REQUESTS then requests[..MAX_REQUESTS] else requests
  }

  /** At most four requests are served, the first ones. */
  lemma FirstFourAreTaken(requests: seq<Request>)
    ensures Taken(requests) <= requests && |Taken(requests)| == if |requests| < 4 then |requests| else 4
  {
  }

  predicate IsEligible(checkLines: seq<string>, maxBytes: nat, i: nat) {
    Classify(LineAt(checkLines, i), maxBytes).Eligible?
  }

  /** How many of the first `i` requests go to the batch. */
  function EligibleBefore(checkLines: seq<string>, maxBytes: nat, i: nat): nat {
    if i == 0 then 0 else EligibleBefore(checkLines, maxBytes, i - 1) + if IsEligible(checkLines, maxBytes, i - 1)
      then 1 else 0
  }

  lemma {:induction false} EligibleGrows(checkLines: seq<string>, maxBytes: nat, i: nat, j: nat)
    requires i <= j
    ensures EligibleBefore(checkLines, maxBytes, i) <= EligibleBefore(checkLines, maxBytes, j)
    ensures i < j && IsEligible(checkLines, maxBytes, i) ==>
            EligibleBefore(checkLines, maxBytes, i) < EligibleBefore(checkLines, maxBytes, j)
    decreases j - i
  {
    if i < j { EligibleGrows(checkLines, maxBytes, i + 1, j); }
  }

  /** What request `i` gets, given the objects the batch returned for the eligible ones. */
  function Expected(checkLines: seq<string>, maxBytes: nat, contents: seq<seq<byte>>, i: nat): Side
    requires IsEligible(checkLines, maxBytes, i) ==> EligibleBefore(checkLines, maxBytes, i) < |contents|
  {
    match Classify(LineAt(checkLines, i), maxBytes)
    case Refused(side) => side
    case Eligible(_) => ContentSide(contents[EligibleBefore(checkLines, maxBytes, i)])
  }

  ghost predicate DistinctKeys(requests: seq<Request>) {
    forall i, j :: 0 <= i < j < |requests| ==> requests[i].key != requests[j].key
  }

  method FindNewline(stream: seq<byte>, offset: nat) returns (newline: nat)
    ensures newline == offset + IndexOf(After(stream, offset), NEWLINE)
  {
    newline := offset;
    while newline < |stream| && stream[newline] != NEWLINE
      invariant newline + IndexOf(After(stream, newline), NEWLINE) == offset + IndexOf(After(stream, offset), NEWLINE)
    {
      assert After(stream, newline)[1..] == After(stream, newline + 1);
      newline := newline + 1;
    }
    assert newline < |stream| ==> After(stream, newline)[0] == NEWLINE;
  }

  /** The batch result once `done` objects are read and `n` more stand from `offset` on. */
  ghost predicate ReadSoFar(stream: seq<byte>, total: nat, done: seq<seq<byte>>, offset: nat, n: nat) {
    ReadObjects(stream, total) ==
    match ReadObjects(After(stream, offset), n)
    case Err(e) => Err(e)
    case Ok(rest) => Ok(done + rest)
  }

  lemma HeaderAt(stream: seq<byte>, offset: nat)
    ensures var newline := offset + IndexOf(After(stream, offset), NEWLINE);
            && (newline >= |stream| <==> IndexOf(After(stream, offset), NEWLINE) == |After(stream, offset)|)
            && (newline < |stream| ==> After(stream, offset)[..newline - offset] == stream[offset..newline])
  {
    hide IndexOf, After;
    AfterLength(stream, offset);
    if offset + IndexOf(After(stream, offset), NEWLINE) < |stream| {
      AfterSlice(stream, offset, 0, IndexOf(After(stream, offset), NEWLINE));
    }
  }

  lemma HeaderMissing(stream: seq<byte>, total: nat, done: seq<seq<byte>>, offset: nat, n: nat)
    requires ReadSoFar(stream, total, done, offset, n + 1)
    requires offset + IndexOf(After(stream, offset), NEWLINE) >= |stream|
    ensures ReadObjects(stream, total) == Err(IncompleteHeader)
  {
    hide HeaderSize, ReadObjects, IndexOf, After;
    HeaderAt(stream, offset);
    ReadStep(After(stream, offset), n);
  }

  lemma ObjectMissing(stream: seq<byte>, total: nat, done: seq<seq<byte>>, offset: nat, n: nat, newline: nat)
    requires ReadSoFar(stream, total, done, offset, n + 1)
    requires newline == offset + IndexOf(After(stream, offset), NEWLINE) < |stream|
    requires var size := HeaderSize(stream[offset..newline]);
             size.None? || newline + 1 + size.value > |stream|
    ensures ReadObjects(stream, total) == Err(IncompleteObject)
  {
    hide HeaderSize, ReadObjects, IndexOf, After;
    HeaderAt(stream, offset);
    AfterLength(stream, offset);
    ReadStep(After(stream, offset), n);
  }

  lemma ObjectThere(stream: seq<byte>, total: nat, done: seq<seq<byte>>, offset: nat, n: nat, newline: nat, size: nat)
    requires ReadSoFar(stream, total, done, offset, n + 1)
    requires newline == offset + IndexOf(After(stream, offset), NEWLINE) < |stream|
    requires HeaderSize(stream[offset..newline]) == Some(size) && newline + 1 + size <= |stream|
    ensures ReadSoFar(stream, total, done + [stream[newline + 1..newline + 1 + size]], newline + size + 2, n)
  {
    hide HeaderSize, ReadObjects, IndexOf, After;
    var rest, k := After(stream, offset), newline - offset;
    HeaderAt(stream, offset);
    AfterLength(stream, offset);
    ReadStep(rest, n);
    AfterSlice(stream, offset, k + 1, k + 1 + size);
    AfterAfter(stream, offset, k + size + 2);
    BatchStep(done, rest[k + 1..k + 1 + size]);
  }

  lemma ReadOneMore(stream: seq<byte>, total: nat, done: seq<seq<byte>>, offset: nat, n: nat)
    requires ReadSoFar(stream, total, done, offset, n + 1)
    ensures var newline := offset + IndexOf(After(stream, offset), NEWLINE);
            if newline >= |stream| then ReadObjects(stream, total) == Err(IncompleteHeader)
            else
              var size := HeaderSize(stream[offset..newline]);
              if size.None? || newline + 1 + size.value > |stream|
                then ReadObjects(stream, total) == Err(IncompleteObject)
              else ReadSoFar(stream, total, done + [stream[newline + 1..newline + 1 + size.value]],
                newline + size.value + 2, n)
  {
    hide HeaderSize, ReadObjects, IndexOf, After, ReadSoFar;
    var newline := offset + IndexOf(After(stream, offset), NEWLINE);
    if newline >= |stream| {
      HeaderMissing(stream, total, done, offset, n);
    } else {
      var size := HeaderSize(stream[offset..newline]);
      if size.None? || newline + 1 + size.value > |stream| {
        ObjectMissing(stream, total, done, offset, n, newline);
      } else {
        ObjectThere(stream, total, done, offset, n, newline, size.value);
      }
    }
  }

  lemma AfterLength(stream: seq<byte>, offset: nat)
    ensures |After(stream, offset)| == if offset <= |stream| then |stream| - offset else 0
  {
  }

  lemma AfterSlice(stream: seq<byte>, offset: nat, i: nat, j: nat)
    requires offset < |stream| && i <= j <= |After(stream, offset)|
    ensures offset + j <= |stream| && After(stream, offset)[i..j] == stream[offset + i..offset + j]
    ensures i == 0 ==> After(stream, offset)[..j] == stream[offset..offset + j]
  {
  }

  lemma AfterAfter(stream: seq<byte>, i: nat, j: nat)
    ensures After(After(stream, i), j) == After(stream, i + j)
  {
  }

  lemma BatchStep(contents: seq<seq<byte>>, content: seq<byte>)
    ensures forall rest :: contents + ([content] + rest) == contents + [content] + rest
  {
  }

  lemma ReadStart(stream: seq<byte>, n: nat)
    ensures ReadSoFar(stream, n, [], 0, n)
  {
    hide ReadObjects;
    assert After(stream, 0) == stream;
    assert forall rest: seq<seq<byte>> :: [] + rest == rest;
  }

  lemma ReadEnd(stream: seq<byte>, total: nat, done: seq<seq<byte>>, offset: nat)
    ensures ReadSoFar(stream, total, done, offset, 0) <==> ReadObjects(stream, total) == Ok(done)
  {
    assert done + [] == done;
  }

  method ReadBatch(stream: seq<byte>, n: nat) returns (r: Result<seq<seq<byte>>, Error>)
    ensures r == ReadObjects(stream, n)
    ensures r.Ok? ==> |r.value| == n
  {
    hide ReadObjects, HeaderSize, ReadSoFar, After;
    var contents: seq<seq<byte>> := [];
    var offset: nat := 0;
    ReadStart(stream, n);
    for i := 0 to n
      invariant |contents| == i && ReadSoFar(stream, n, contents, offset, n - i)
    {
      ReadOneMore(stream, n, contents, offset, n - i - 1);
      var newline := FindNewline(stream, offset);
      if newline >= |stream| {
        return Err(IncompleteHeader);
      }
      var size := HeaderSize(stream[offset..newline]);
      if size.None? || newline + 1 + size.value > |stream| {
        return Err(IncompleteObject);
      }
      contents := contents + [stream[newline + 1..newline + 1 + size.value]];
      offset := newline + 1 + size.value + 1;
    }
    ReadEnd(stream, n, contents, offset);
    r := Ok(contents);
  }

  /** One outcome per request, in request order; with distinct keys each is the one its own
      check line and object call for. `batch` is what git printed for the eligible specs. */
  method LoadGitObjects(requests: seq<Request>, checkLines: seq<string>, batch: seq<byte>, maxBytes: nat)
    returns (r: Result<seq<Outcome>, Error>)
    ensures var n := EligibleBefore(checkLines, maxBytes, |Taken(requests)|);
            match ReadObjects(batch, n)
            case Err(e) => r == Err(e)
            case Ok(contents) =>
              && r.Ok? && |contents| == n && |r.value| == |Taken(requests)|
              && forall i :: 0 <= i < |Taken(requests)| ==>
                   && r.value[i].key == Taken(requests)[i].key
                   && (IsEligible(checkLines, maxBytes, i) ==> EligibleBefore(checkLines, maxBytes, i) < n)
                   && (DistinctKeys(Taken(requests)) ==> r.value[i].side == Expected(checkLines, maxBytes, contents, i))
  {
    hide ReadObjects, Classify, ContentSide, EligibleBefore;
    var taken := Taken(requests);
    var outcomes, eligible := CheckPass(taken, checkLines, maxBytes);
    var objects := ReadBatch(batch, |eligible|);
    if objects.Err? {
      return Err(objects.error);
    }
    outcomes := StoreContents(taken, checkLines, maxBytes, eligible, objects.value, outcomes);
    forall i | 0 <= i < |taken| && IsEligible(checkLines, maxBytes, i)
      ensures EligibleBefore(checkLines, maxBytes, i) < |eligible|
              && eligible[EligibleBefore(checkLines, maxBytes, i)] == i
    {
      PlaceInBatch(checkLines, maxBytes, |taken|, eligible, i);
    }
    r := Ok(seq(|taken|, i requires 0 <= i < |taken| =>
      Outcome(taken[i].key, if taken[i].key in outcomes then outcomes[taken[i].key] else NOTHING)));
  }

  /** `eligible` lists the eligible positions below `i`, in order. */
  ghost predicate ListsEligible(checkLines: seq<string>, maxBytes: nat, i: nat, eligible: seq<nat>) {
    && |eligible| == EligibleBefore(checkLines, maxBytes, i)
    && forall j :: 0 <= j < |eligible| ==>
         eligible[j] < i && IsEligible(checkLines, maxBytes, eligible[j])
           && EligibleBefore(checkLines, maxBytes, eligible[j]) == j
  }

  lemma PlaceInBatch(checkLines: seq<string>, maxBytes: nat, n: nat, eligible: seq<nat>, i: nat)
    ensures ListsEligible(checkLines, maxBytes, n, eligible) && i < n && IsEligible(checkLines, maxBytes, i) ==>
      EligibleBefore(checkLines, maxBytes, i) < |eligible| && eligible[EligibleBefore(checkLines, maxBytes, i)] == i
  {
    hide IsEligible, EligibleBefore;
    if ListsEligible(checkLines, maxBytes, n, eligible) && i < n && IsEligible(checkLines, maxBytes, i) {
      EligibleGrows(checkLines, maxBytes, i, n);
      var j := eligible[EligibleBefore(checkLines, maxBytes, i)];
      if j < i { EligibleGrows(checkLines, maxBytes, j, i); } else { EligibleGrows(checkLines, maxBytes, i, j); }
    }
  }

  /** With distinct keys, every refused request below `i` has its outcome. */
  ghost predicate StoresRefused(taken: seq<Request>, checkLines: seq<string>, maxBytes: nat, i: nat,
                                outcomes: map<string, Side>)
    requires i <= |taken|
  {
    DistinctKeys(taken) ==> forall j :: 0 <= j < i && !IsEligible(checkLines, maxBytes, j) ==>
      taken[j].key in outcomes && outcomes[taken[j].key] == Classify(LineAt(checkLines, j), maxBytes).side
  }

  method CheckPass(taken: seq<Request>, checkLines: seq<string>, maxBytes: nat)
    returns (outcomes: map<string, Side>, eligible: seq<nat>)
    ensures ListsEligible(checkLines, maxBytes, |taken|, eligible)
    ensures StoresRefused(taken, checkLines, maxBytes, |taken|, outcomes)
  {
    hide Classify;
    outcomes, eligible := map[], [];
    for i := 0 to |taken|
      invariant ListsEligible(checkLines, maxBytes, i, eligible)
      invariant StoresRefused(taken, checkLines, maxBytes, i, outcomes)
    {
      var verdict := Classify(LineAt(checkLines, i), maxBytes);
      match verdict
      case Refused(side) => outcomes := outcomes[taken[i].key := side];
      case Eligible(_) => eligible := eligible + [i];
    }
  }

  method StoreContents(taken: seq<Request>, checkLines: seq<string>, maxBytes: nat, eligible: seq<nat>,
                       contents: seq<seq<byte>>, checked: map<string, Side>) returns (outcomes: map<string, Side>)
    requires |contents| == |eligible| && ListsEligible(checkLines, maxBytes, |taken|, eligible)
    requires StoresRefused(taken, checkLines, maxBytes, |taken|, checked)
    ensures StoresRefused(taken, checkLines, maxBytes, |taken|, outcomes)
    ensures DistinctKeys(taken) ==> forall j :: 0 <= j < |eligible| ==>
      taken[eligible[j]].key in outcomes && outcomes[taken[eligible[j]].key] == ContentSide(contents[j])
  {
    hide Classify, ContentSide, EligibleBefore;
    outcomes := checked;
    for k := 0 to |eligible|
      invariant StoresRefused(taken, checkLines, maxBytes, |taken|, outcomes)
      invariant DistinctKeys(taken) ==> forall j :: 0 <= j < k ==>
        taken[eligible[j]].key in outcomes && outcomes[taken[eligible[j]].key] == ContentSide(contents[j])
    {
      assert forall j :: 0 <= j < k ==> eligible[j] != eligible[k];
      outcomes := outcomes[taken[eligible[k]].key := ContentSide(contents[k])];
    }
  }
}
