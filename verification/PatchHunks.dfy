/** Parsing one file's unified diff into numbered hunks, and adding word diffs to them. */
module PatchHunks {
  import opened Options
  import opened Lines
  import Decimal
  import WordDiff

  datatype Kind = Context | Added | Removed | NoNewline

  datatype Line = Line(kind: Kind, oldLine: Option<nat>, newLine: Option<nat>, text: string,
                       wordDiffs: Option<seq<WordDiff.Segment>>)

  datatype Header = Header(oldStart: nat, oldLines: nat, newStart: nat, newLines: nat)

  datatype Hunk = Hunk(header: string, range: Header, lines: seq<Line>)

  /** A hunk header line and the raw lines below it. */
  datatype Section = Section(header: string, body: seq<string>)

  const NO_NEWLINE := "\\ No newline at end of file"

  // ---------- Hunk headers ----------

  /** Matches (\d+),?(\d*); a missing count is one. */
  function ParseRange(s: string): Option<(nat, nat, string)> {
    var n := Decimal.DigitRun(s);
    if n == 0 then None
    else
      var comma := if n < |s| && s[n] == ',' then 1 else 0;
      var afterComma := s[n + comma..];
      var m := Decimal.DigitRun(afterComma);
      Some((Decimal.Value(s[..n]), if m > 0 then Decimal.Value(afterComma[..m]) else 1, afterComma[m..]))
  }

  /** Matches ^@@ -(\d+),?(\d*) \+(\d+),?(\d*) @@; anything may follow. */
  function ParseHeader(line: string): Option<Header> {
    if !("@@ -" <= line) then None
    else match ParseRange(line[4..])
      case None => None
      case Some((oldStart, oldLines, rest)) =>
        if !(" +" <= rest) then None
        else match ParseRange(rest[2..])
          case None => None
          case Some((newStart, newLines, tail)) =>
            if " @@" <= tail then Some(Header(oldStart, oldLines, newStart, newLines)) else None
  }

  predicate IsHeader(line: string) { ParseHeader(line).Some? }

  /** One side of a header as git prints it: a count of one may be left out. */
  function RenderRange(start: nat, count: nat, brief: bool): string {
    Decimal.Print(start) + if brief && count == 1 then "" else "," + Decimal.Print(count)
  }

  function RenderHeader(h: Header, brief: bool, heading: string): string {
    "@@ -" + (RenderRange(h.oldStart, h.oldLines, brief)
      + (" +" + (RenderRange(h.newStart, h.newLines, brief) + (" @@" + heading))))
  }

  lemma DigitsEnd(n: string, rest: string)
    requires Decimal.IsNumeral(n) && (rest == "" || !Decimal.IsDigit(rest[0]))
    ensures Decimal.DigitRun(n + rest) == |n| && (n + rest)[..|n|] == n && (n + rest)[|n|..] == rest
  {
    var s, k := n + rest, Decimal.DigitRun(n + rest);
    assert forall i :: 0 <= i < |n| ==> s[i] == n[i];
    assert rest != "" ==> s[|n|] == rest[0];
  }

  lemma RangeReadsBack(start: nat, count: nat, brief: bool, rest: string)
    requires rest != "" && rest[0] == ' '
    ensures ParseRange(RenderRange(start, count, brief) + rest) == Some((start, count, rest))
  {
    hide ParseRange;
    var s, c := Decimal.Print(start), Decimal.Print(count);
    if brief && count == 1 {
      BriefRangeReads(s, rest);
      assert RenderRange(start, count, brief) + rest == s + rest;
    } else {
      FullRangeReads(s, c, rest);
      assert RenderRange(start, count, brief) + rest == s + ("," + (c + rest));
    }
  }

  lemma BriefRangeReads(s: string, rest: string)
    requires Decimal.IsNumeral(s) && rest != "" && rest[0] == ' '
    ensures ParseRange(s + rest) == Some((Decimal.Value(s), 1, rest))
  {
    hide Decimal.Value, Decimal.DigitRun;
    DigitsEnd(s, rest);
    assert (s + rest)[|s|] == ' ' && !Decimal.IsDigit(rest[0]);
  }

  lemma FullRangeReads(s: string, c: string, rest: string)
    requires Decimal.IsNumeral(s) && Decimal.IsNumeral(c) && rest != "" && rest[0] == ' '
    ensures ParseRange(s + ("," + (c + rest))) == Some((Decimal.Value(s), Decimal.Value(c), rest))
  {
    hide Decimal.Value, Decimal.DigitRun;
    var tail := "," + (c + rest);
    DigitsEnd(s, tail);
    DigitsEnd(c, rest);
    assert (s + tail)[|s|] == ',' && (s + tail)[|s| + 1..] == c + rest;
  }

  /** A header reads back as the ranges it was printed from, with or without counts of one,
      whatever section heading follows. */
  lemma HeaderReadsBack(h: Header, brief: bool, heading: string)
    ensures ParseHeader(RenderHeader(h, brief, heading)) == Some(h)
  {
    hide RenderRange, ParseRange;
    var tail := " @@" + heading;
    var second := RenderRange(h.newStart, h.newLines, brief) + tail;
    var rest := " +" + second;
    RangeReadsBack(h.oldStart, h.oldLines, brief, rest);
    RangeReadsBack(h.newStart, h.newLines, brief, tail);
    var line := RenderHeader(h, brief, heading);
    assert line[4..] == RenderRange(h.oldStart, h.oldLines, brief) + rest;
    assert rest[2..] == second;
  }

  /** The text states a range: its start, and after a comma its count, one if there is none. */
  predicate StatesRange(text: string, start: nat, count: nat, first: string, comma: string, second: string) {
    && text == first + comma + second && Decimal.IsNumeral(first) && Decimal.Value(first) == start
    && (comma == "" || comma == ",") && (comma == "" ==> second == "")
    && (second == "" ==> count == 1) && (second != "" ==> Decimal.IsNumeral(second) && Decimal.Value(second) == count)
  }

  ghost predicate IsRange(text: string, start: nat, count: nat) {
    exists first, comma, second :: StatesRange(text, start, count, first, comma, second)
  }

  lemma OnlyRangesMatch(s: string) returns (text: string, rest: string)
    requires ParseRange(s).Some?
    ensures s == text + rest && ParseRange(s).value.2 == rest
    ensures IsRange(text, ParseRange(s).value.0, ParseRange(s).value.1)
  {
    hide Decimal.Value, Decimal.DigitRun, IsRange, ParseRange;
    var first, comma, second: string;
    first, comma, second, rest := RangeParts(s);
    text := first + comma + second;
    IsRangeOf(text, ParseRange(s).value.0, ParseRange(s).value.1, first, comma, second);
  }

  lemma IsRangeOf(text: string, start: nat, count: nat, first: string, comma: string, second: string)
    requires StatesRange(text, start, count, first, comma, second)
    ensures IsRange(text, start, count)
  {
  }

  lemma RangeParts(s: string) returns (first: string, comma: string, second: string, rest: string)
    requires ParseRange(s).Some?
    ensures s == first + comma + second + rest && ParseRange(s).value.2 == rest
    ensures StatesRange(first + comma + second, ParseRange(s).value.0, ParseRange(s).value.1, first, comma, second)
  {
    hide Decimal.Value, Decimal.DigitRun, StatesRange, ParseRange;
    var n := Decimal.DigitRun(s);
    var k := if n < |s| && s[n] == ',' then 1 else 0;
    var m := Decimal.DigitRun(s[n + k..]);
    first, comma, second, rest := s[..n], s[n..n + k], s[n + k..][..m], s[n + k..][m..];
    RangeIs(s, n, k, m);
    FourParts(s, n, k, m);
    CommaIs(s, n, k, m);
    PartsStateRange(first, comma, second);
  }

  lemma CommaIs(s: string, n: nat, k: nat, m: nat)
    requires n == Decimal.DigitRun(s) && k == (if n < |s| && s[n] == ',' then 1 else 0)
    requires m == Decimal.DigitRun(s[n + k..])
    ensures s[n..n + k] == (if k == 0 then "" else ",") && (k == 0 ==> m == 0)
  {
    hide Decimal.DigitRun;
    if k == 0 { NoDigitsAfterDigits(s, n, m); }
  }

  lemma RangeIs(s: string, n: nat, comma: nat, m: nat)
    requires n == Decimal.DigitRun(s) && comma == (if n < |s| && s[n] == ',' then 1 else 0)
    requires m == Decimal.DigitRun(s[n + comma..])
    ensures ParseRange(s).Some? <==> n > 0
    ensures n > 0 ==>
      ParseRange(s).value == (Decimal.Value(s[..n]), if m > 0 then Decimal.Value(s[n + comma..][..m]) else 1,
                              s[n + comma..][m..])
  {
    hide Decimal.Value, Decimal.DigitRun;
  }

  lemma FourParts(s: string, n: nat, k: nat, m: nat)
    requires n + k + m <= |s|
    ensures s == s[..n] + s[n..n + k] + s[n + k..][..m] + s[n + k..][m..]
  {
  }

  lemma NoDigitsAfterDigits(s: string, n: nat, m: nat)
    requires n == Decimal.DigitRun(s) && m == Decimal.DigitRun(s[n..])
    ensures m == 0
  {
    if n < |s| { assert s[n..][0] == s[n] && !Decimal.IsDigit(s[n]); }
  }

  lemma PartsStateRange(first: string, comma: string, second: string)
    requires Decimal.IsNumeral(first) && (comma == "" || comma == ",") && (comma == "" ==> second == "")
    requires second != "" ==> Decimal.IsNumeral(second)
    ensures StatesRange(first + comma + second, Decimal.Value(first), if second == "" then 1 else Decimal.Value(second),
                        first, comma, second)
  {
    hide Decimal.Value;
  }

  /** Nothing but a header is read as one, and its numbers are the ones it states. */
  lemma OnlyHeadersMatch(line: string) returns (left: string, right: string, tail: string)
    requires IsHeader(line)
    ensures var h := ParseHeader(line).value;
            && line == "@@ -" + left + " +" + right + " @@" + tail
            && IsRange(left, h.oldStart, h.oldLines) && IsRange(right, h.newStart, h.newLines)
  {
    hide ParseRange, IsRange;
    var rest, last: string;
    left, rest := OnlyRangesMatch(line[4..]);
    right, last := OnlyRangesMatch(rest[2..]);
    tail := last[3..];
    assert line == line[..4] + left + rest && rest == rest[..2] + right + last && last == last[..3] + tail;
  }

  lemma StatedRangeReads(text: string, start: nat, count: nat, rest: string)
    requires IsRange(text, start, count) && rest != "" && rest[0] == ' '
    ensures ParseRange(text + rest) == Some((start, count, rest))
  {
    hide ParseRange;
    var first, comma, second :| StatesRange(text, start, count, first, comma, second);
    if comma == "" {
      BriefRangeReads(first, rest);
      assert text == first;
    } else if second == "" {
      BareCommaReads(first, rest);
      assert text + rest == first + ("," + rest);
    } else {
      FullRangeReads(first, second, rest);
      assert text + rest == first + ("," + (second + rest));
    }
  }

  lemma BareCommaReads(s: string, rest: string)
    requires Decimal.IsNumeral(s) && rest != "" && rest[0] == ' '
    ensures ParseRange(s + ("," + rest)) == Some((Decimal.Value(s), 1, rest))
  {
    hide Decimal.Value, Decimal.DigitRun;
    var tail := "," + rest;
    DigitsEnd(s, tail);
    assert (s + tail)[|s|] == ',' && (s + tail)[|s| + 1..] == rest;
    NoDigits(rest);
  }

  lemma NoDigits(rest: string)
    requires rest != "" && !Decimal.IsDigit(rest[0])
    ensures Decimal.DigitRun(rest) == 0
  {
  }

  /** And every header is read, whatever follows it. */
  lemma StatedHeaderReads(left: string, right: string, tail: string, h: Header)
    requires IsRange(left, h.oldStart, h.oldLines) && IsRange(right, h.newStart, h.newLines)
    ensures ParseHeader("@@ -" + left + " +" + right + " @@" + tail) == Some(h)
  {
    hide ParseRange, IsRange;
    var line, end := "@@ -" + left + " +" + right + " @@" + tail, " @@" + tail;
    var rest := " +" + (right + end);
    StatedRangeReads(left, h.oldStart, h.oldLines, rest);
    StatedRangeReads(right, h.newStart, h.newLines, end);
    assert line[4..] == left + rest && rest[2..] == right + end;
  }

  // ---------- What a patch means ----------

  function BodyLength(lines: seq<string>): (n: nat)
    ensures n <= |lines|
  {
    if lines == [] || IsHeader(lines[0]) then 0 else 1 + BodyLength(lines[1..])
  }

  /** The patch cut at its header lines; what precedes the first one is no hunk. */
  function Sections(lines: seq<string>): (sections: seq<Section>)
    ensures forall s :: s in sections ==> IsHeader(s.header)
    decreases |lines|
  {
    if lines == [] then []
    else if IsHeader(lines[0]) then
      var n := BodyLength(lines[1..]);
      [Section(lines[0], lines[1..n + 1])] + Sections(lines[n + 1..])
    else Sections(lines[1..])
  }

  function KindOf(raw: string): Kind {
    if raw == NO_NEWLINE then NoNewline
    else if "+" <= raw then Added
    else if "-" <= raw then Removed
    else Context
  }

  predicate OldSide(kind: Kind) { kind == Context || kind == Removed }

  predicate NewSide(kind: Kind) { kind == Context || kind == Added }

  function TextOf(raw: string): string {
    if raw != NO_NEWLINE && raw != "" && raw[0] in "+- " then raw[1..] else raw
  }

  function CountOld(kinds: seq<Kind>): nat {
    if kinds == [] then 0
    else CountOld(kinds[..|kinds| - 1]) + if OldSide(kinds[|kinds| - 1]) then 1 else 0
  }

  function CountNew(kinds: seq<Kind>): nat {
    if kinds == [] then 0
    else CountNew(kinds[..|kinds| - 1]) + if NewSide(kinds[|kinds| - 1]) then 1 else 0
  }

  function KindsOf(body: seq<string>): (kinds: seq<Kind>)
    ensures |kinds| == |body|
  {
    seq(|body|, i requires 0 <= i < |body| => KindOf(body[i]))
  }

  /** A line whose number on each side it belongs to is the start of that side plus the
      lines of that side above it. */
  function NumberedLine(range: Header, above: seq<Kind>, raw: string): Line {
    var kind := KindOf(raw);
    Line(kind,
         if OldSide(kind) then Some(range.oldStart + CountOld(above)) else None,
         if NewSide(kind) then Some(range.newStart + CountNew(above)) else None,
         TextOf(raw), None)
  }

  function NumberedLines(range: Header, body: seq<string>): (lines: seq<Line>)
    ensures |lines| == |body|
  {
    seq(|body|, i requires 0 <= i < |body| => NumberedLine(range, KindsOf(body[..i]), body[i]))
  }

  function PlainHunk(s: Section): Hunk
    requires IsHeader(s.header)
  {
    var range := ParseHeader(s.header).value;
    Hunk(s.header, range, NumberedLines(range, s.body))
  }

  function PlainHunks(sections: seq<Section>): (hunks: seq<Hunk>)
    requires forall s :: s in sections ==> IsHeader(s.header)
    ensures |hunks| == |sections|
  {
    seq(|sections|, i requires 0 <= i < |sections| => PlainHunk(sections[i]))
  }

  function EnrichHunk(h: Hunk, c: WordDiff.CharClasses): Hunk {
    h.(lines := Enrich(h.lines, c))
  }

  function EnrichHunks(hunks: seq<Hunk>, c: WordDiff.CharClasses): (r: seq<Hunk>)
    ensures |r| == |hunks|
  {
    seq(|hunks|, i requires 0 <= i < |hunks| => EnrichHunk(hunks[i], c))
  }

  function ParsePatch(patch: string, c: WordDiff.CharClasses): seq<Hunk> {
    EnrichHunks(PlainHunks(Sections(SplitLines(patch))), c)
  }

  // ---------- Word-diff enrichment ----------

  function RunOf(lines: seq<Line>, kind: Kind): (n: nat)
    ensures n <= |lines|
    ensures forall i :: 0 <= i < n ==> lines[i].kind == kind
    ensures n < |lines| ==> lines[n].kind != kind
  {
    if lines == [] || lines[0].kind != kind then 0 else 1 + RunOf(lines[1..], kind)
  }

  function Min(x: nat, y: nat): nat { if x <= y then x else y }

  /** The k-th removed line is paired with the k-th added line, as far as both go. */
  function EnrichRemoved(removed: seq<Line>, added: seq<Line>, c: WordDiff.CharClasses): (r: seq<Line>)
    ensures |r| == |removed|
  {
    seq(|removed|, k requires 0 <= k < |removed| =>
      if k < |added| then removed[k].(wordDiffs := Some(WordDiff.Diff(removed[k].text, added[k].text, c).0))
        else removed[k])
  }

  function EnrichAdded(removed: seq<Line>, added: seq<Line>, c: WordDiff.CharClasses): (r: seq<Line>)
    ensures |r| == |added|
  {
    seq(|added|, k requires 0 <= k < |added| =>
      if k < |removed| then added[k].(wordDiffs := Some(WordDiff.Diff(removed[k].text, added[k].text, c).1))
        else added[k])
  }

  function EnrichGroup(removed: seq<Line>, added: seq<Line>, c: WordDiff.CharClasses): (r: seq<Line>)
    ensures |r| == |removed| + |added|
  {
    EnrichRemoved(removed, added, c) + EnrichAdded(removed, added, c)
  }

  /** Each run of removed lines is grouped with the run of added lines right after it. */
  function Enrich(lines: seq<Line>, c: WordDiff.CharClasses): (r: seq<Line>)
    ensures |r| == |lines|
    decreases |lines|
  {
    if lines == [] then []
    else if lines[0].kind != Removed then [lines[0]] + Enrich(lines[1..], c)
    else
      var d := RunOf(lines, Removed);
      var a := RunOf(lines[d..], Added);
      EnrichGroup(lines[..d], lines[d..d + a], c) + Enrich(lines[d + a..], c)
  }

  function Strip(l: Line): Line { l.(wordDiffs := None) }

  function StripLines(lines: seq<Line>): (r: seq<Line>)
    ensures |r| == |lines|
  {
    seq(|lines|, i requires 0 <= i < |lines| => Strip(lines[i]))
  }

  /** Enrichment may add word diffs to a line, and does nothing else to it. */
  ghost predicate Enriches(before: Line, after: Line) {
    && after.(wordDiffs := before.wordDiffs) == before
    && (after.wordDiffs != before.wordDiffs ==>
          && (before.kind == Removed || before.kind == Added)
          && after.wordDiffs.Some? && WordDiff.Text(after.wordDiffs.value) == before.text)
  }

  lemma GroupEnriches(removed: seq<Line>, added: seq<Line>, c: WordDiff.CharClasses, i: nat)
    requires i < |removed| + |added|
    requires forall l :: l in removed ==> l.kind == Removed
    requires forall l :: l in added ==> l.kind == Added
    ensures Enriches((removed + added)[i], EnrichGroup(removed, added, c)[i])
  {
    hide WordDiff.Diff, WordDiff.Text;
    var k := if i < |removed| then i else i - |removed|;
    assert EnrichGroup(removed, added, c)[i].(wordDiffs := None) == (removed + added)[i].(wordDiffs := None);
    if k < Min(|removed|, |added|) {
      WordDiff.DiffSpellsItsTexts(removed[k].text, added[k].text, c);
    }
  }

  /** Enrich, one step at a time: a line that starts no group, or a whole group. */
  lemma EnrichStep(lines: seq<Line>, c: WordDiff.CharClasses)
    returns (head: seq<Line>, done: seq<Line>, rest: seq<Line>)
    requires lines != []
    ensures lines == head + rest && head != [] && |done| == |head|
    ensures Enrich(lines, c) == done + Enrich(rest, c)
    ensures forall i :: 0 <= i < |head| ==> Enriches(head[i], done[i])
  {
    hide EnrichRemoved, EnrichAdded, WordDiff.Diff, WordDiff.Text;
    if lines[0].kind != Removed {
      head, rest := [lines[0]], lines[1..];
      done := head;
    } else {
      var d := RunOf(lines, Removed);
      var a := RunOf(lines[d..], Added);
      head, rest := lines[..d] + lines[d..d + a], lines[d + a..];
      done := EnrichGroup(lines[..d], lines[d..d + a], c);
      assert forall l :: l in lines[..d] ==> l.kind == Removed;
      assert forall i :: 0 <= i < a ==> lines[d..d + a][i] == lines[d..][i];
      forall i | 0 <= i < |head| ensures Enriches(head[i], done[i]) {
        GroupEnriches(lines[..d], lines[d..d + a], c, i);
      }
    }
  }

  lemma {:induction false} EnrichmentChangesNothingElse(lines: seq<Line>, c: WordDiff.CharClasses, i: nat)
    requires i < |lines|
    ensures Enriches(lines[i], Enrich(lines, c)[i])
    decreases |lines|
  {
    hide Enrich;
    var head, done, rest := EnrichStep(lines, c);
    if i >= |head| {
      EnrichmentChangesNothingElse(rest, c, i - |head|);
    }
  }

  lemma StripUndoesEnrich(lines: seq<Line>, c: WordDiff.CharClasses)
    requires forall l :: l in lines ==> l.wordDiffs.None?
    ensures StripLines(Enrich(lines, c)) == lines
  {
    forall i | 0 <= i < |lines| ensures Strip(Enrich(lines, c)[i]) == lines[i] {
      EnrichmentChangesNothingElse(lines, c, i);
    }
  }

  lemma {:induction false} RunOfAppend(x: seq<Line>, y: seq<Line>, kind: Kind)
    requires y == [] || y[0].kind != kind || RunOf(x, kind) < |x|
    ensures RunOf(x + y, kind) == RunOf(x, kind)
  {
    if x == [] {
      assert x + y == y;
    } else {
      assert (x + y)[1..] == x[1..] + y;
      if x[0].kind == kind { RunOfAppend(x[1..], y, kind); }
    }
  }

  /** No group of `x` can take lines of `y`. */
  predicate Boundary(x: seq<Line>, y: seq<Line>) {
    || y == []
    || y[0].kind == Context || y[0].kind == NoNewline
    || (y[0].kind == Removed && (x == [] || x[|x| - 1].kind != Removed))
  }

  /** Groups are found wherever they stand: enrichment works piece by piece. */
  lemma {:induction false} EnrichSplit(x: seq<Line>, y: seq<Line>, c: WordDiff.CharClasses)
    requires Boundary(x, y)
    ensures Enrich(x + y, c) == Enrich(x, c) + Enrich(y, c)
    decreases |x|
  {
    hide Enrich;
    if x == [] {
      EnrichOfNothing(c);
      assert x + y == y;
    } else if x[0].kind != Removed {
      assert (x + y)[1..] == x[1..] + y;
      EnrichSplit(x[1..], y, c);
      PlainStep(x, c);
      PlainStep(x + y, c);
    } else {
      EnrichSplitGroup(x, y, c);
    }
  }

  lemma {:induction false} EnrichSplitGroup(x: seq<Line>, y: seq<Line>, c: WordDiff.CharClasses)
    requires Boundary(x, y) && x != [] && x[0].kind == Removed
    ensures Enrich(x + y, c) == Enrich(x, c) + Enrich(y, c)
    decreases |x|, 0
  {
    hide Enrich;
    var removed, added, rest := FirstGroup(x);
    EnrichSplit(rest, y, c);
    EnrichOfGroup(removed, added, rest, c);
    assert x + y == removed + added + (rest + y);
    EnrichOfGroup(removed, added, rest + y, c);
    SeqAssociates(EnrichGroup(removed, added, c), Enrich(rest, c), Enrich(y, c));
  }

  lemma SeqAssociates<T>(x: seq<T>, y: seq<T>, z: seq<T>)
    ensures x + (y + z) == x + y + z
  {
  }

  lemma Splice<T>(s: seq<T>, first: nat, end: nat, part: seq<T>)
    requires first <= end <= |s| && |part| == end - first
    ensures (s[..first] + part + s[end..])[..end] == s[..first] + part
    ensures (s[..first] + part + s[end..])[end..] == s[end..]
  {
  }

  lemma FirstGroup(lines: seq<Line>) returns (removed: seq<Line>, added: seq<Line>, rest: seq<Line>)
    requires lines != [] && lines[0].kind == Removed
    ensures lines == removed + added + rest && IsGroup(removed, added, rest)
  {
    var d := RunOf(lines, Removed);
    var a := RunOf(lines[d..], Added);
    removed, added, rest := lines[..d], lines[d..d + a], lines[d + a..];
  }

  /** Removed lines, then added lines, neither run continued by what follows. */
  ghost predicate IsGroup(removed: seq<Line>, added: seq<Line>, after: seq<Line>) {
    && removed != [] && (forall l :: l in removed ==> l.kind == Removed)
    && (forall l :: l in added ==> l.kind == Added)
    && (after == [] || (after[0].kind != Added && (added == [] ==> after[0].kind != Removed)))
  }

  lemma EnrichOfGroup(removed: seq<Line>, added: seq<Line>, after: seq<Line>, c: WordDiff.CharClasses)
    requires IsGroup(removed, added, after)
    ensures Enrich(removed + added + after, c) == EnrichGroup(removed, added, c) + Enrich(after, c)
  {
    var lines := removed + added + after;
    AllOfOneKind(removed, Removed);
    AllOfOneKind(added, Added);
    RunOfAppend(added, after, Added);
    assert lines == removed + (added + after);
    RunOfAppend(removed, added + after, Removed);
    assert lines[|removed|..] == added + after;
    assert lines[..|removed|] == removed;
    assert lines[|removed|..|removed| + |added|] == added;
    assert lines[|removed| + |added|..] == after;
  }

  /** From `at` on stand the removed and then the added lines, and as far as both go the k-th of
      each show how their two texts differ; the others are as they were. */
  predicate ShowsGroup(lines: seq<Line>, at: nat, removed: seq<Line>, added: seq<Line>, c: WordDiff.CharClasses) {
    && at + |removed| + |added| <= |lines|
    && (forall k :: 0 <= k < |removed| ==>
          lines[at + k] == if k < |added|
            then removed[k].(wordDiffs := Some(WordDiff.Diff(removed[k].text, added[k].text, c).0)) else removed[k])
    && (forall k :: 0 <= k < |added| ==>
          lines[at + |removed| + k] == if k < |removed|
            then added[k].(wordDiffs := Some(WordDiff.Diff(removed[k].text, added[k].text, c).1)) else added[k])
  }

  /** A group of removed and added lines gets its word diffs whatever surrounds it, and what does
      is enriched by itself. */
  lemma GroupIsEnriched(before: seq<Line>, removed: seq<Line>, added: seq<Line>, after: seq<Line>,
                        c: WordDiff.CharClasses)
    requires IsGroup(removed, added, after)
    requires before == [] || before[|before| - 1].kind != Removed
    ensures var lines, n := Enrich(before + (removed + added + after), c), |before| + |removed| + |added|;
            && ShowsGroup(lines, |before|, removed, added, c)
            && n <= |lines| && lines[..|before|] == Enrich(before, c) && lines[n..] == Enrich(after, c)
  {
    hide Enrich, EnrichGroup, ShowsGroup;
    EnrichSplit(before, removed + added + after, c);
    EnrichOfGroup(removed, added, after, c);
    EnrichGroupShows(Enrich(before, c), removed, added, Enrich(after, c), c);
  }

  lemma EnrichGroupShows(x: seq<Line>, removed: seq<Line>, added: seq<Line>, y: seq<Line>, c: WordDiff.CharClasses)
    ensures ShowsGroup(x + (EnrichGroup(removed, added, c) + y), |x|, removed, added, c)
  {
    hide WordDiff.Diff;
    var group := EnrichGroup(removed, added, c);
    assert forall i :: 0 <= i < |group| ==> (x + (group + y))[|x| + i] == group[i];
  }

  // ---------- Which lines are compared ----------

  /** A run of removed lines from `s` up to `e`, with nothing removed right before it, and added
      lines from `e` on up to `j`: the removed line at `i` and the added one at `j` have the same
      place in their runs. */
  predicate PairedIn(lines: seq<Line>, s: nat, e: nat, i: nat, j: nat) {
    && s <= i < e <= j < |lines| && i - s == j - e
    && (s > 0 ==> lines[s - 1].kind != Removed)
    && (forall k :: s <= k < e ==> lines[k].kind == Removed)
    && (forall k :: e <= k <= j ==> lines[k].kind == Added)
  }

  ghost predicate Paired(lines: seq<Line>, i: nat, j: nat) {
    exists s: nat, e: nat :: PairedIn(lines, s, e, i, j)
  }

  ghost predicate Unpaired(lines: seq<Line>, i: nat) {
    forall j: nat :: !Paired(lines, i, j) && !Paired(lines, j, i)
  }

  /** Two paired lines show how their two texts differ. */
  predicate ShowDifference(lines: seq<Line>, before: seq<Line>, i: nat, j: nat, c: WordDiff.CharClasses)
    requires i < |lines| == |before| && j < |lines|
  {
    var diff := WordDiff.Diff(before[i].text, before[j].text, c);
    lines[i].wordDiffs == Some(diff.0) && lines[j].wordDiffs == Some(diff.1)
  }

  lemma {:induction false} PairsAreCompared(lines: seq<Line>, c: WordDiff.CharClasses, s: nat, e: nat, i: nat, j: nat)
    requires PairedIn(lines, s, e, i, j)
    ensures ShowDifference(Enrich(lines, c), lines, i, j, c)
    decreases |lines|
  {
    hide WordDiff.Diff, Enrich, EnrichGroup, ShowDifference, PairedIn;
    assert i < |lines| && j < |lines| by { PairInRange(lines, s, e, i, j); }
    if lines[0].kind != Removed {
      PlainStep(lines, c);
      PairAhead(lines, 1, s, e, i, j);
      PairsAreCompared(lines[1..], c, s - 1, e - 1, i - 1, j - 1);
      DifferenceAhead(lines, [lines[0]], Enrich(lines[1..], c), i - 1, j - 1, c);
    } else {
      var d, a := GroupStep(lines, c);
      var n := d + a;
      if s == 0 {
        PairInFirstGroup(lines, d, a, c, e, i, j);
      } else {
        GroupIsPassed(lines, d, a, s, e, i, j);
        PairAhead(lines, n, s, e, i, j);
        PairsAreCompared(lines[n..], c, s - n, e - n, i - n, j - n);
        DifferenceAhead(lines, EnrichGroup(lines[..d], lines[d..n], c), Enrich(lines[n..], c), i - n, j - n, c);
      }
    }
  }

  lemma PairInRange(lines: seq<Line>, s: nat, e: nat, i: nat, j: nat)
    requires PairedIn(lines, s, e, i, j)
    ensures s <= i < e <= j < |lines| && lines[s].kind == Removed
  {
  }

  lemma PairAhead(lines: seq<Line>, n: nat, s: nat, e: nat, i: nat, j: nat)
    requires PairedIn(lines, s, e, i, j) && n <= |lines|
    requires s >= n || (n == 1 && lines[0].kind != Removed)
    ensures s >= n && i >= n && j >= n && PairedIn(lines[n..], s - n, e - n, i - n, j - n)
  {
  }

  lemma DifferenceAhead(lines: seq<Line>, front: seq<Line>, rest: seq<Line>, i: nat, j: nat, c: WordDiff.CharClasses)
    requires |front| + |rest| == |lines| && i < |rest| && j < |rest|
    requires ShowDifference(rest, lines[|front|..], i, j, c)
    ensures ShowDifference(front + rest, lines, |front| + i, |front| + j, c)
  {
    hide WordDiff.Diff;
  }

  /** The group that opens the lines. */
  lemma GroupStep(lines: seq<Line>, c: WordDiff.CharClasses) returns (d: nat, a: nat)
    requires lines != [] && lines[0].kind == Removed
    ensures 0 < d && d + a <= |lines| && FirstRuns(lines, d, a)
    ensures Enrich(lines, c) == EnrichGroup(lines[..d], lines[d..d + a], c) + Enrich(lines[d + a..], c)
  {
    hide EnrichGroup, Enrich, RunOf, IsGroup;
    var removed, added, rest := FirstGroup(lines);
    EnrichOfGroup(removed, added, rest, c);
    d, a := |removed|, |added|;
    assert lines[..d] == removed && lines[d..d + a] == added && lines[d + a..] == rest;
    GroupIsFirstRuns(removed, added, rest);
  }

  lemma GroupIsFirstRuns(removed: seq<Line>, added: seq<Line>, rest: seq<Line>)
    requires IsGroup(removed, added, rest)
    ensures removed != [] && FirstRuns(removed + added + rest, |removed|, |added|)
  {
  }

  /** The lines begin with `d` removed and `a` added ones, and both runs end there. */
  predicate FirstRuns(lines: seq<Line>, d: nat, a: nat) {
    && d + a <= |lines|
    && (forall k :: 0 <= k < d ==> lines[k].kind == Removed)
    && (forall k :: d <= k < d + a ==> lines[k].kind == Added)
    && (d < |lines| ==> lines[d].kind != Removed)
    && (d + a < |lines| ==> lines[d + a].kind != Added)
  }

  lemma GroupIsPassed(lines: seq<Line>, d: nat, a: nat, s: nat, e: nat, i: nat, j: nat)
    requires FirstRuns(lines, d, a) && 0 < d && 0 < s && PairedIn(lines, s, e, i, j)
    ensures s >= d + a
  {
    assert lines[s].kind == Removed && lines[s - 1].kind != Removed;
  }

  lemma PairInFirstGroup(lines: seq<Line>, d: nat, a: nat, c: WordDiff.CharClasses, e: nat, i: nat, j: nat)
    requires FirstRuns(lines, d, a) && PairedIn(lines, 0, e, i, j)
    ensures ShowDifference(EnrichGroup(lines[..d], lines[d..d + a], c) + Enrich(lines[d + a..], c), lines, i, j, c)
  {
    hide WordDiff.Diff, EnrichGroup, Enrich;
    assert e == d by { assert lines[e].kind == Added; }
    assert j == d + i && i < a;
    GroupAtPlace(lines[..d], lines[d..d + a], c, i);
  }

  lemma GroupAtPlace(removed: seq<Line>, added: seq<Line>, c: WordDiff.CharClasses, i: nat)
    requires i < |removed| && i < |added|
    ensures var group, diff := EnrichGroup(removed, added, c), WordDiff.Diff(removed[i].text, added[i].text, c);
            group[i].wordDiffs == Some(diff.0) && group[|removed| + i].wordDiffs == Some(diff.1)
  {
    hide WordDiff.Diff;
  }

  lemma GroupBeyond(removed: seq<Line>, added: seq<Line>, c: WordDiff.CharClasses, i: nat)
    requires i < |removed| + |added| && if i < |removed| then i >= |added| else i >= 2 * |removed|
    ensures EnrichGroup(removed, added, c)[i] == (removed + added)[i]
  {
    hide WordDiff.Diff;
  }

  lemma {:induction false} UnpairedAreKept(lines: seq<Line>, c: WordDiff.CharClasses, i: nat)
    requires i < |lines| && Unpaired(lines, i)
    ensures Enrich(lines, c)[i] == lines[i]
    decreases |lines|
  {
    hide WordDiff.Diff, Enrich, Unpaired;
    if lines[0].kind != Removed {
      PlainStep(lines, c);
      if i > 0 {
        UnpairedBehind(lines, 1, i);
        UnpairedAreKept(lines[1..], c, i - 1);
      }
    } else {
      var d, a := GroupStep(lines, c);
      if i < d + a {
        UnpairedInGroup(lines, d, a, c, i);
      } else {
        UnpairedBehind(lines, d + a, i);
        UnpairedAreKept(lines[d + a..], c, i - d - a);
      }
    }
  }

  /** Cutting lines off in front breaks no pair that lies behind the cut. */
  lemma UnpairedBehind(lines: seq<Line>, n: nat, i: nat)
    requires n <= i < |lines| && Unpaired(lines, i)
    requires n > 0 && (lines[n].kind == Removed ==> lines[n - 1].kind != Removed)
    ensures Unpaired(lines[n..], i - n)
  {
    var rest, at := lines[n..], i - n;
    forall j: nat ensures !Paired(rest, at, j) && !Paired(rest, j, at) {
      if Paired(rest, at, j) {
        var s: nat, e: nat :| PairedIn(rest, s, e, at, j);
        PairedBehind(lines, n, s, e, at, j);
      }
      if Paired(rest, j, at) {
        var s: nat, e: nat :| PairedIn(rest, s, e, j, at);
        PairedBehind(lines, n, s, e, j, at);
      }
    }
  }

  lemma PairedBehind(lines: seq<Line>, n: nat, s: nat, e: nat, i: nat, j: nat)
    requires 0 < n < |lines| && (lines[n].kind == Removed ==> lines[n - 1].kind != Removed)
    requires PairedIn(lines[n..], s, e, i, j)
    ensures Paired(lines, i + n, j + n)
  {
    var rest := lines[n..];
    assert forall k :: n <= k < |lines| ==> lines[k] == rest[k - n];
    assert PairedIn(lines, s + n, e + n, i + n, j + n);
  }

  lemma UnpairedInGroup(lines: seq<Line>, d: nat, a: nat, c: WordDiff.CharClasses, i: nat)
    requires FirstRuns(lines, d, a) && i < d + a && Unpaired(lines, i)
    ensures EnrichGroup(lines[..d], lines[d..d + a], c)[i] == lines[i]
  {
    hide EnrichGroup, Unpaired;
    UnpairedIsBeyond(lines, d, a, i);
    GroupBeyond(lines[..d], lines[d..d + a], c, i);
  }

  lemma UnpairedIsBeyond(lines: seq<Line>, d: nat, a: nat, i: nat)
    requires FirstRuns(lines, d, a) && i < d + a
    ensures Unpaired(lines, i) ==> if i < d then i >= a else i - d >= d
  {
    if i < d && i < a {
      assert PairedIn(lines, 0, d, i, d + i);
      assert Paired(lines, i, d + i);
    } else if d <= i && i - d < d {
      assert PairedIn(lines, 0, d, i - d, i);
      assert Paired(lines, i - d, i);
    }
  }

  /** Enrichment as a whole: paired lines show how their two texts differ, and all others stay
      as they are. */
  lemma WordDiffsArePaired(lines: seq<Line>, c: WordDiff.CharClasses)
    ensures forall i: nat, j: nat :: Paired(lines, i, j) ==>
              i < |lines| && j < |lines| && ShowDifference(Enrich(lines, c), lines, i, j, c)
    ensures forall i: nat :: i < |lines| && Unpaired(lines, i) ==> Enrich(lines, c)[i] == lines[i]
  {
    hide ShowDifference, Enrich, Unpaired;
    forall i: nat, j: nat | Paired(lines, i, j)
      ensures i < |lines| && j < |lines| && ShowDifference(Enrich(lines, c), lines, i, j, c)
    {
      var s: nat, e: nat :| PairedIn(lines, s, e, i, j);
      PairsAreCompared(lines, c, s, e, i, j);
    }
    forall i: nat | i < |lines| && Unpaired(lines, i) ensures Enrich(lines, c)[i] == lines[i] {
      UnpairedAreKept(lines, c, i);
    }
  }

  /** The word diffs of a hunk's lines, told by the lines themselves. */
  ghost predicate HasItsWordDiffs(lines: seq<Line>, c: WordDiff.CharClasses) {
    && (forall i: nat, j: nat :: Paired(lines, i, j) ==>
          i < |lines| && j < |lines| && ShowDifference(lines, lines, i, j, c))
    && (forall i: nat :: i < |lines| && Unpaired(lines, i) ==> lines[i].wordDiffs.None?)
  }

  /** In every hunk of a parsed patch a removed line shows what it loses against its partner and
      that one what it gains; no other line shows a difference. */
  lemma EveryHunkHasItsWordDiffs(patch: string, c: WordDiff.CharClasses)
    ensures forall h :: h in ParsePatch(patch, c) ==> HasItsWordDiffs(h.lines, c)
  {
    hide HasItsWordDiffs, EnrichHunk, PlainHunk, Sections, SplitLines, IsHeader;
    var sections := Sections(SplitLines(patch));
    forall k | 0 <= k < |sections| ensures HasItsWordDiffs(ParsePatch(patch, c)[k].lines, c) {
      var h := PlainHunk(sections[k]);
      PlainHunkIsPlain(sections[k]);
      EnrichedHasItsWordDiffs(h.lines, c);
      EnrichedLines(h, c);
    }
  }

  lemma EnrichedLines(h: Hunk, c: WordDiff.CharClasses)
    ensures EnrichHunk(h, c).lines == Enrich(h.lines, c)
  {
    hide Enrich;
  }

  lemma PlainHunkIsPlain(s: Section)
    requires IsHeader(s.header)
    ensures forall l :: l in PlainHunk(s).lines ==> l.wordDiffs.None?
  {
    hide IsHeader, ParseHeader;
  }

  lemma EnrichedHasItsWordDiffs(lines: seq<Line>, c: WordDiff.CharClasses)
    requires forall l :: l in lines ==> l.wordDiffs.None?
    ensures HasItsWordDiffs(Enrich(lines, c), c)
  {
    hide Enrich, PairedIn, Unpaired;
    var after := Enrich(lines, c);
    WordDiffsArePaired(lines, c);
    SamePairs(lines, c);
    forall i: nat, j: nat | Paired(after, i, j)
      ensures i < |after| && j < |after| && ShowDifference(after, after, i, j, c)
    {
      assert Paired(lines, i, j);
      EnrichmentChangesNothingElse(lines, c, i);
      EnrichmentChangesNothingElse(lines, c, j);
      assert after[i].text == lines[i].text && after[j].text == lines[j].text;
    }
    forall i: nat | i < |after| && Unpaired(after, i) ensures after[i].wordDiffs.None? {
      assert Unpaired(lines, i) && lines[i] in lines;
    }
  }

  lemma SamePairs(lines: seq<Line>, c: WordDiff.CharClasses)
    ensures forall i: nat, j: nat :: Paired(Enrich(lines, c), i, j) <==> Paired(lines, i, j)
    ensures forall i: nat :: Unpaired(Enrich(lines, c), i) <==> Unpaired(lines, i)
  {
    hide Enrich;
    var after := Enrich(lines, c);
    forall k | 0 <= k < |lines| ensures after[k].kind == lines[k].kind {
      EnrichmentChangesNothingElse(lines, c, k);
    }
    forall i: nat, j: nat ensures Paired(after, i, j) <==> Paired(lines, i, j) {
      forall s: nat, e: nat ensures PairedIn(after, s, e, i, j) <==> PairedIn(lines, s, e, i, j) {}
    }
  }

  lemma AllOfOneKind(lines: seq<Line>, kind: Kind)
    requires forall l :: l in lines ==> l.kind == kind
    ensures RunOf(lines, kind) == |lines|
  {
  }

  method EnrichWordDiffs(lines: seq<Line>, c: WordDiff.CharClasses) returns (result: seq<Line>)
    ensures result == Enrich(lines, c)
  {
    hide Enrich, EnrichRemoved, EnrichAdded, EnrichedUpTo, RunOf;
    result := lines;
    var index := 0;
    EnrichStart(lines, c);
    while index < |result|
      invariant index <= |result| == |lines|
      invariant EnrichedUpTo(result, index, lines, c)
    {
      var first := index;
      if result[index].kind != Removed {
        PlainLine(result, index, lines, c);
        index := index + 1;
      } else {
        index := EndOfRun(result, index, Removed);
        var d := index - first;
        index := EndOfRun(result, index, Added);
        GroupAt(result, first, d, index - first - d);
        GroupOfLines(result, first, d, index - first - d, lines, c);
        var deletions, additions := EnrichPairs(result[first..first + d], result[first + d..index], c);
        result := result[..first] + (deletions + additions) + result[index..];
      }
    }
    EnrichEnd(result, lines, c);
  }

  ghost predicate EnrichedUpTo(result: seq<Line>, index: nat, lines: seq<Line>, c: WordDiff.CharClasses)
    requires index <= |result| == |lines|
  {
    && result[index..] == lines[index..]
    && result[..index] + Enrich(lines[index..], c) == Enrich(lines, c)
  }

  lemma EnrichStart(lines: seq<Line>, c: WordDiff.CharClasses)
    ensures EnrichedUpTo(lines, 0, lines, c)
  {
    hide Enrich;
    assert lines[..0] == [] && lines[0..] == lines;
  }

  lemma EnrichEnd(result: seq<Line>, lines: seq<Line>, c: WordDiff.CharClasses)
    requires |result| == |lines| && EnrichedUpTo(result, |lines|, lines, c)
    ensures result == Enrich(lines, c)
  {
    assert result[..|lines|] == result && lines[|lines|..] == [];
  }

  lemma PlainLine(result: seq<Line>, index: nat, lines: seq<Line>, c: WordDiff.CharClasses)
    requires index < |result| == |lines| && result[index].kind != Removed
    requires EnrichedUpTo(result, index, lines, c)
    ensures EnrichedUpTo(result, index + 1, lines, c)
  {
    hide Enrich;
    var rest := lines[index..];
    assert rest[0] == result[index..][0];
    PlainStep(rest, c);
    assert rest[1..] == lines[index + 1..] && result[index + 1..] == result[index..][1..];
    assert result[..index + 1] == result[..index] + [rest[0]];
    SeqAssociates(result[..index], [rest[0]], Enrich(rest[1..], c));
  }

  lemma GroupOfLines(result: seq<Line>, first: nat, d: nat, a: nat, lines: seq<Line>, c: WordDiff.CharClasses)
    requires first < |result| == |lines| && result[first].kind == Removed
    requires d == RunOf(result[first..], Removed) && a == RunOf(result[first + d..], Added)
    requires EnrichedUpTo(result, first, lines, c)
    ensures EnrichedUpTo(result[..first] + EnrichGroup(result[first..first + d], result[first + d..first + d + a], c)
            + result[first + d + a..],
                         first + d + a, lines, c)
  {
    hide Enrich;
    hide EnrichGroup;
    var end := first + d + a;
    var removed, added := result[first..first + d], result[first + d..end];
    CutInThree(result, first, first + d, end);
    SameSuffix(result, lines, first, end);
    assert IsGroup(removed, added, result[end..]) by { GroupAt(result, first, d, a); }
    EnrichOfGroup(removed, added, result[end..], c);
    Splice(result, first, end, EnrichGroup(removed, added, c));
    SeqAssociates(result[..first], EnrichGroup(removed, added, c), Enrich(result[end..], c));
  }

  lemma CutInThree<T>(s: seq<T>, i: nat, j: nat, k: nat)
    requires i <= j <= k <= |s|
    ensures s[i..] == s[i..j] + s[j..k] + s[k..]
  {
  }

  lemma SameSuffix<T>(s: seq<T>, t: seq<T>, i: nat, j: nat)
    requires i <= j <= |s| == |t| && s[i..] == t[i..]
    ensures s[j..] == t[j..]
  {
    assert s[j..] == s[i..][j - i..] && t[j..] == t[i..][j - i..];
  }

  lemma GroupAt(result: seq<Line>, first: nat, d: nat, a: nat)
    requires first < |result| && result[first].kind == Removed
    requires d == RunOf(result[first..], Removed) && first + d <= |result| && a == RunOf(result[first + d..], Added)
    ensures first + d + a <= |result| && d > 0
    ensures IsGroup(result[first..first + d], result[first + d..first + d + a], result[first + d + a..])
  {
    hide RunOf;
    RunInside(result, first, Removed);
    RunInside(result, first + d, Added);
  }

  lemma RunInside(lines: seq<Line>, first: nat, kind: Kind)
    requires first <= |lines|
    ensures var n := RunOf(lines[first..], kind);
            && first + n <= |lines| && (first < |lines| && lines[first].kind == kind ==> n > 0)
            && (forall l :: l in lines[first..first + n] ==> l.kind == kind)
            && (first + n < |lines| ==> lines[first + n].kind != kind)
  {
    var rest := lines[first..];
    var n := RunOf(rest, kind);
    assert forall i :: 0 <= i < |rest| ==> lines[first + i] == rest[i];
    assert lines[first..first + n] == rest[..n];
  }

  lemma EnrichOfNothing(c: WordDiff.CharClasses)
    ensures Enrich([], c) == []
  {
  }

  lemma PlainStep(lines: seq<Line>, c: WordDiff.CharClasses)
    requires lines != [] && lines[0].kind != Removed
    ensures Enrich(lines, c) == [lines[0]] + Enrich(lines[1..], c)
  {
  }

  method EndOfRun(lines: seq<Line>, start: nat, kind: Kind) returns (end: nat)
    requires start <= |lines|
    ensures start <= end <= |lines|
    ensures end - start == RunOf(lines[start..], kind)
    ensures start < |lines| && lines[start].kind == kind ==> start < end
  {
    end := start;
    while end < |lines| && lines[end].kind == kind
      invariant start <= end <= |lines|
      invariant start < |lines| && lines[start].kind == kind && start == end ==>
                end < |lines| && lines[end].kind == kind
      invariant end - start + RunOf(lines[end..], kind) == RunOf(lines[start..], kind)
    {
      assert lines[end..][1..] == lines[end + 1..];
      end := end + 1;
    }
  }

  method EnrichPairs(removed: seq<Line>, added: seq<Line>, c: WordDiff.CharClasses)
    returns (deletions: seq<Line>, additions: seq<Line>)
    ensures deletions == EnrichRemoved(removed, added, c) && additions == EnrichAdded(removed, added, c)
    ensures |deletions| == |removed| && |additions| == |added|
    ensures forall k :: 0 <= k < |removed| && k < |added| ==>
      var diff := WordDiff.Diff(removed[k].text, added[k].text, c);
      && deletions[k] == removed[k].(wordDiffs := Some(diff.0))
      && additions[k] == added[k].(wordDiffs := Some(diff.1))
    ensures (forall k :: |added| <= k < |removed| ==> deletions[k] == removed[k])
            && (forall k :: |removed| <= k < |added| ==> additions[k] == added[k])
  {
    hide WordDiff.Diff;
    deletions, additions := removed, added;
    for pair := 0 to Min(|removed|, |added|)
      invariant |deletions| == |removed| && |additions| == |added|
      invariant deletions[pair..] == removed[pair..] && additions[pair..] == added[pair..]
      invariant deletions[..pair] == EnrichRemoved(removed, added, c)[..pair]
      invariant additions[..pair] == EnrichAdded(removed, added, c)[..pair]
    {
      var oldLine, newLine := deletions[pair], additions[pair];
      assert oldLine == deletions[pair..][0] == removed[pair] && newLine == additions[pair..][0] == added[pair];
      var oldDiff, newDiff := WordDiff.InlineWordDiff(oldLine.text, newLine.text, c);
      UpdateNext(deletions, pair, oldLine.(wordDiffs := Some(oldDiff)));
      UpdateNext(additions, pair, newLine.(wordDiffs := Some(newDiff)));
      UpdateNext(EnrichRemoved(removed, added, c), pair, oldLine.(wordDiffs := Some(oldDiff)));
      UpdateNext(EnrichAdded(removed, added, c), pair, newLine.(wordDiffs := Some(newDiff)));
      SameSuffix(deletions, removed, pair, pair + 1);
      SameSuffix(additions, added, pair, pair + 1);
      deletions := deletions[pair := oldLine.(wordDiffs := Some(oldDiff))];
      additions := additions[pair := newLine.(wordDiffs := Some(newDiff))];
    }
    var n := Min(|removed|, |added|);
    assert deletions == deletions[..n] + deletions[n..] && additions == additions[..n] + additions[n..];
    assert EnrichRemoved(removed, added, c)[n..] == removed[n..] && EnrichAdded(removed, added, c)[n..] == added[n..];
  }

  lemma UpdateNext<T>(s: seq<T>, k: nat, x: T)
    requires k < |s|
    ensures s[k := x][..k + 1] == s[..k] + [x] && s[k := x][k + 1..] == s[k + 1..]
    ensures s[k] == x ==> s[..k + 1] == s[..k] + [x]
  {
  }

  // ---------- The parser's loop ----------

  /** What one more line does to the sections found so far. */
  function AddLine(sections: seq<Section>, line: string): seq<Section> {
    if IsHeader(line) then sections + [Section(line, [])]
    else if sections == [] then []
    else Init(sections) + [Section(Last(sections).header, Last(sections).body + [line])]
  }

  lemma {:induction false} BodyLengthSnoc(lines: seq<string>, line: string)
    ensures BodyLength(lines + [line]) == if BodyLength(lines) == |lines| && !IsHeader(line) then |lines| + 1
            else BodyLength(lines)
  {
    hide ParseHeader;
    if lines == [] {
      assert [line][1..] == [];
    } else {
      assert (lines + [line])[1..] == lines[1..] + [line];
      BodyLengthSnoc(lines[1..], line);
    }
  }

  lemma {:induction false} SectionsSnoc(lines: seq<string>, line: string)
    ensures Sections(lines + [line]) == AddLine(Sections(lines), line)
    decreases |lines|
  {
    hide ParseHeader;
    if lines == [] {
      assert lines + [line] == [line] && [line][1..] == [] && Sections([]) == [];
      if IsHeader(line) { OneSection(line, []); assert [line] + [] == [line]; }
    } else if IsHeader(lines[0]) {
      SectionsSnocHeader(lines, line);
    } else {
      assert (lines + [line])[1..] == lines[1..] + [line];
      SectionsSnoc(lines[1..], line);
    }
  }

  lemma {:induction false} SectionsSnocHeader(lines: seq<string>, line: string)
    requires lines != [] && IsHeader(lines[0])
    ensures Sections(lines + [line]) == AddLine(Sections(lines), line)
    decreases |lines|, 0
  {
    hide IsHeader, Sections;
    var header, body, rest := FirstSection(lines);
    var more := rest + [line];
    if rest != [] {
      SectionThenRest(header, body, rest);
      SectionsSnoc(rest, line);
      assert lines + [line] == [header] + body + more;
      SectionThenRest(header, body, more);
      SectionsNonempty(rest);
    } else if IsHeader(line) {
      assert lines + [line] == [header] + body + [line];
      SectionThenRest(header, body, [line]);
      OneSection(line, []);
      assert [line] + [] == [line];
      OneSection(header, body);
      assert lines == [header] + body;
    } else {
      assert lines + [line] == [header] + (body + [line]);
      OneSection(header, body + [line]);
      OneSection(header, body);
      assert lines == [header] + body;
    }
  }

  lemma SectionsNonempty(lines: seq<string>)
    requires lines != [] && IsHeader(lines[0])
    ensures Sections(lines) != []
  {
    hide IsHeader;
  }

  lemma FirstSection(lines: seq<string>) returns (header: string, body: seq<string>, rest: seq<string>)
    requires lines != [] && IsHeader(lines[0])
    ensures lines == [header] + body + rest && IsHeader(header)
    ensures forall l :: l in body ==> !IsHeader(l)
    ensures rest != [] ==> IsHeader(rest[0])
  {
    hide IsHeader;
    var n := BodyLength(lines[1..]);
    BodyEnds(lines[1..]);
    header, body, rest := lines[0], lines[1..][..n], lines[1..][n..];
  }

  lemma SectionThenRest(header: string, body: seq<string>, rest: seq<string>)
    requires IsHeader(header) && (forall l :: l in body ==> !IsHeader(l))
    requires rest != [] ==> IsHeader(rest[0])
    ensures Sections([header] + body + rest) == [Section(header, body)] + Sections(rest)
  {
    hide IsHeader, Sections, BodyLength;
    var lines := [header] + body + rest;
    assert lines[1..] == body + rest;
    BodyIs(body, rest);
    SectionsStep(lines, |body|);
    assert lines[1..|body| + 1] == body && lines[|body| + 1..] == rest;
  }

  lemma SectionsStep(lines: seq<string>, n: nat)
    requires lines != [] && IsHeader(lines[0]) && n == BodyLength(lines[1..])
    ensures n < |lines|
    ensures Sections(lines) == [Section(lines[0], lines[1..n + 1])] + Sections(lines[n + 1..])
  {
    hide IsHeader;
  }

  lemma {:induction false} BodyIs(body: seq<string>, rest: seq<string>)
    requires forall l :: l in body ==> !IsHeader(l)
    requires rest != [] ==> IsHeader(rest[0])
    ensures BodyLength(body + rest) == |body|
  {
    hide IsHeader;
    if body == [] {
      assert body + rest == rest;
    } else {
      assert (body + rest)[1..] == body[1..] + rest;
      BodyIs(body[1..], rest);
    }
  }

  lemma OneSection(header: string, body: seq<string>)
    requires IsHeader(header) && (forall l :: l in body ==> !IsHeader(l))
    ensures Sections([header] + body) == [Section(header, body)]
  {
    SectionThenRest(header, body, []);
    assert [header] + body + [] == [header] + body;
  }

  lemma BodyEnds(lines: seq<string>)
    ensures BodyLength(lines) < |lines| ==> IsHeader(lines[BodyLength(lines)])
    ensures forall i :: 0 <= i < BodyLength(lines) ==> !IsHeader(lines[i])
  {
    hide ParseHeader;
  }

  /** The open hunk's section read so far: its numbers and the two running counters. */
  ghost predicate IsOpen(h: Hunk, body: seq<string>, oldLine: nat, newLine: nat) {
    && ParseHeader(h.header) == Some(h.range)
    && h.lines == NumberedLines(h.range, body)
    && oldLine == h.range.oldStart + CountOld(KindsOf(body))
    && newLine == h.range.newStart + CountNew(KindsOf(body))
  }

  lemma OpenAtHeader(h: Hunk)
    requires ParseHeader(h.header) == Some(h.range) && h.lines == []
    ensures IsOpen(h, [], h.range.oldStart, h.range.newStart)
  {
  }

  lemma NumberOneMore(h: Hunk, body: seq<string>, oldLine: nat, newLine: nat, raw: string)
    requires IsOpen(h, body, oldLine, newLine)
    ensures IsOpen(h.(lines := h.lines + [NumberedLine(h.range, KindsOf(body), raw)]), body + [raw],
                   if OldSide(KindOf(raw)) then oldLine + 1 else oldLine,
                   if NewSide(KindOf(raw)) then newLine + 1 else newLine)
    ensures NumberedLine(h.range, KindsOf(body), raw)
            == Line(KindOf(raw), if OldSide(KindOf(raw)) then Some(oldLine) else None,
                    if NewSide(KindOf(raw)) then Some(newLine) else None, TextOf(raw), None)
  {
    hide ParseHeader, KindOf, TextOf, NumberedLines;
    var kinds := KindsOf(body);
    assert KindsOf(body + [raw]) == kinds + [KindOf(raw)];
    assert (kinds + [KindOf(raw)])[..|kinds|] == kinds;
    NumberedLinesSnoc(h.range, body, raw);
  }

  lemma NumberedLinesSnoc(range: Header, body: seq<string>, raw: string)
    ensures NumberedLines(range, body + [raw]) == NumberedLines(range, body) + [NumberedLine(range, KindsOf(body), raw)]
  {
    hide NumberedLine;
    forall i | 0 <= i <= |body|
      ensures NumberedLines(range, body + [raw])[i] ==
              (NumberedLines(range, body) + [NumberedLine(range, KindsOf(body), raw)])[i]
    {
      assert (body + [raw])[..i] == body[..i];
      assert body[..|body|] == body;
    }
  }

  /** Everything read so far: the finished hunks and, after a header, the open one. */
  ghost predicate Scanned(seen: seq<string>, hunks: seq<Hunk>, current: Option<Hunk>, body: seq<string>,
                          oldLine: nat, newLine: nat, c: WordDiff.CharClasses)
  {
    match current
    case None => Sections(seen) == [] && hunks == []
    case Some(h) =>
      && IsOpen(h, body, oldLine, newLine)
      && Sections(seen) != []
      && Last(Sections(seen)) == Section(h.header, body)
      && hunks == EnrichHunks(PlainHunks(Init(Sections(seen))), c)
  }

  lemma HunksSnoc(sections: seq<Section>, h: Hunk, c: WordDiff.CharClasses)
    requires sections != [] && forall s :: s in sections ==> IsHeader(s.header)
    requires PlainHunk(Last(sections)) == h
    ensures EnrichHunks(PlainHunks(sections), c) == EnrichHunks(PlainHunks(Init(sections)), c) + [EnrichHunk(h, c)]
  {
    hide ParseHeader, PlainHunk, EnrichHunk;
  }

  /** The hunks once the open one is finished. */
  ghost function Finished(hunks: seq<Hunk>, current: Option<Hunk>, c: WordDiff.CharClasses): seq<Hunk> {
    if current.None? then hunks else hunks + [EnrichHunk(current.value, c)]
  }

  lemma FinishedIsParsed(seen: seq<string>, hunks: seq<Hunk>, current: Option<Hunk>, body: seq<string>,
                         oldLine: nat, newLine: nat, c: WordDiff.CharClasses)
    requires Scanned(seen, hunks, current, body, oldLine, newLine, c)
    ensures Finished(hunks, current, c) == EnrichHunks(PlainHunks(Sections(seen)), c)
  {
    hide ParseHeader, Enrich;
    if current.Some? {
      HunksSnoc(Sections(seen), current.value, c);
    }
  }

  lemma ScanHeader(seen: seq<string>, hunks: seq<Hunk>, current: Option<Hunk>, body: seq<string>,
                   oldLine: nat, newLine: nat, c: WordDiff.CharClasses, line: string, range: Header)
    requires Scanned(seen, hunks, current, body, oldLine, newLine, c)
    requires ParseHeader(line) == Some(range)
    ensures Scanned(seen + [line], Finished(hunks, current, c), Some(Hunk(line, range, [])), [], range.oldStart,
            range.newStart, c)
  {
    hide ParseHeader, Enrich;
    FinishedIsParsed(seen, hunks, current, body, oldLine, newLine, c);
    SectionsSnoc(seen, line);
    OpenAtHeader(Hunk(line, range, []));
    assert Init(Sections(seen) + [Section(line, [])]) == Sections(seen);
  }

  lemma ScanBodyLine(seen: seq<string>, hunks: seq<Hunk>, current: Option<Hunk>, body: seq<string>,
                     oldLine: nat, newLine: nat, c: WordDiff.CharClasses, line: string)
    requires Scanned(seen, hunks, current, body, oldLine, newLine, c)
    requires !IsHeader(line)
    ensures current.None? ==> Scanned(seen + [line], hunks, None, body, oldLine, newLine, c)
    ensures current.Some? ==>
      var kind := KindOf(line);
      var added := Line(kind, if OldSide(kind) then Some(oldLine) else None,
                        if NewSide(kind) then Some(newLine) else None,
                        TextOf(line), None);
      Scanned(seen + [line], hunks, Some(current.value.(lines := current.value.lines + [added])), body + [line],
              if OldSide(kind) then oldLine + 1 else oldLine, if NewSide(kind) then newLine + 1 else newLine, c)
  {
    hide ParseHeader, Enrich, KindOf, TextOf, IsOpen;
    SectionsSnoc(seen, line);
    if current.Some? {
      NumberOneMore(current.value, body, oldLine, newLine, line);
      assert Init(AddLine(Sections(seen), line)) == Init(Sections(seen));
    }
  }

  method ParseReviewPatchHunks(patch: string, c: WordDiff.CharClasses) returns (hunks: seq<Hunk>)
    ensures hunks == ParsePatch(patch, c)
  {
    hide ParseHeader, Scanned, Enrich;
    var lines := SplitLines(patch);
    hunks := [];
    var current: Option<Hunk> := None;
    var oldLine, newLine := 0, 0;
    ghost var body: seq<string> := [];
    NothingScanned(c);
    for k := 0 to |lines|
      invariant Scanned(lines[..k], hunks, current, body, oldLine, newLine, c)
    {
      var line := lines[k];
      assert lines[..k + 1] == lines[..k] + [line];
      var range := ParseHeader(line);
      if range.Some? {
        ScanHeader(lines[..k], hunks, current, body, oldLine, newLine, c, line, range.value);
        hunks := Finish(hunks, current, c);
        oldLine, newLine := range.value.oldStart, range.value.newStart;
        current := Some(Hunk(line, range.value, []));
        body := [];
      } else {
        ScanBodyLine(lines[..k], hunks, current, body, oldLine, newLine, c, line);
        if current.Some? {
          var h := current.value;
          var added: Line;
          body := body + [line];
          if line == NO_NEWLINE {
            added := Line(NoNewline, None, None, line, None);
          } else if |line| > 0 && line[0] == '+' {
            added := Line(Added, None, Some(newLine), line[1..], None);
            newLine := newLine + 1;
          } else if |line| > 0 && line[0] == '-' {
            added := Line(Removed, Some(oldLine), None, line[1..], None);
            oldLine := oldLine + 1;
          } else {
            added := Line(Context, Some(oldLine), Some(newLine),
                          if |line| > 0 && line[0] == ' ' then line[1..] else line, None);
            oldLine, newLine := oldLine + 1, newLine + 1;
          }
          current := Some(h.(lines := h.lines + [added]));
        }
      }
    }
    assert lines[..|lines|] == lines;
    FinishedIsParsed(lines, hunks, current, body, oldLine, newLine, c);
    hunks := Finish(hunks, current, c);
  }

  lemma NothingScanned(c: WordDiff.CharClasses)
    ensures forall body, oldLine, newLine :: Scanned([], [], None, body, oldLine, newLine, c)
  {
  }

  method Finish(hunks: seq<Hunk>, current: Option<Hunk>, c: WordDiff.CharClasses) returns (r: seq<Hunk>)
    ensures r == Finished(hunks, current, c)
  {
    r := hunks;
    if current.Some? {
      var lines := EnrichWordDiffs(current.value.lines, c);
      r := hunks + [current.value.(lines := lines)];
    }
  }

  // ---------- What the parser keeps ----------

  function Flatten(sections: seq<Section>): seq<string> {
    if sections == [] then [] else [sections[0].header] + sections[0].body + Flatten(sections[1..])
  }

  /** Every line from the first header on is kept once and in order. */
  lemma {:induction false} SectionsKeepEveryLine(lines: seq<string>)
    ensures Flatten(Sections(lines)) == lines[BodyLength(lines)..]
    decreases |lines|
  {
    hide IsHeader;
    if lines == [] {
    } else if IsHeader(lines[0]) {
      var header, body, rest := FirstSection(lines);
      SectionThenRest(header, body, rest);
      SectionsKeepEveryLine(rest);
      assert Sections(lines)[1..] == Sections(rest);
      assert BodyLength(rest) == 0;
    } else {
      SectionsKeepEveryLine(lines[1..]);
    }
  }

  /** The raw line a parsed line came from, but for a context line without its space. */
  function RenderLine(l: Line): string {
    match l.kind
    case NoNewline => l.text
    case Added => "+" + l.text
    case Removed => "-" + l.text
    case Context => " " + l.text
  }

  lemma ParsedLineKeepsItsText(range: Header, above: seq<Kind>, raw: string)
    ensures var l := NumberedLine(range, above, raw);
            RenderLine(l) == raw || (l.kind == Context && l.text == raw && !(" " <= raw))
  {
    hide CountOld, CountNew;
    assert raw != "" ==> raw == [raw[0]] + raw[1..];
  }

  /** The old-side numbers of a hunk's lines, and the new-side ones. */
  function OldNumbers(lines: seq<Line>): seq<nat> {
    if lines == [] then []
    else OldNumbers(lines[..|lines| - 1]) + if Last(lines).oldLine.Some? then [Last(lines).oldLine.value] else []
  }

  function NewNumbers(lines: seq<Line>): seq<nat> {
    if lines == [] then []
    else NewNumbers(lines[..|lines| - 1]) + if Last(lines).newLine.Some? then [Last(lines).newLine.value] else []
  }

  /** The k-th old-side line of a hunk is line oldStart + k, the k-th new-side line is
      line newStart + k. */
  lemma {:induction false} NumbersAreConsecutive(range: Header, body: seq<string>)
    ensures |OldNumbers(NumberedLines(range, body))| == CountOld(KindsOf(body))
    ensures |NewNumbers(NumberedLines(range, body))| == CountNew(KindsOf(body))
    ensures forall k :: 0 <= k < CountOld(KindsOf(body)) ==>
            OldNumbers(NumberedLines(range, body))[k] == range.oldStart + k
    ensures forall k :: 0 <= k < CountNew(KindsOf(body)) ==>
            NewNumbers(NumberedLines(range, body))[k] == range.newStart + k
  {
    hide KindOf, TextOf, NumberedLines;
    if body == [] {
      assert NumberedLines(range, []) == [];
    } else {
      var init, raw := body[..|body| - 1], Last(body);
      assert body == init + [raw];
      NumbersAreConsecutive(range, init);
      NumberedLinesSnoc(range, init, raw);
      assert KindsOf(body) == KindsOf(init) + [KindOf(raw)];
      assert (KindsOf(init) + [KindOf(raw)])[..|init|] == KindsOf(init);
      var lines := NumberedLines(range, init);
      assert (lines + [NumberedLine(range, KindsOf(init), raw)])[..|lines|] == lines;
    }
  }

  // ---------- Every hunk of a parsed patch ----------

  /** The parsed line shows the raw line: its prefix tells the kind and the rest is its text. */
  predicate ShowsLine(l: Line, raw: string) {
    || (RenderLine(l) == raw && (l.kind == NoNewline ==> raw == NO_NEWLINE))
    || (l.kind == Context && l.text == raw && raw != NO_NEWLINE && (raw == "" || raw[0] !in " +-"))
  }

  ghost predicate ShowsLines(lines: seq<Line>, raw: seq<string>) {
    |raw| == |lines| && forall i :: 0 <= i < |lines| ==> !IsHeader(raw[i]) && ShowsLine(lines[i], raw[i])
  }

  /** Exactly the lines of a side carry its numbers. */
  predicate Sided(l: Line) {
    && (l.oldLine.Some? <==> l.kind == Context || l.kind == Removed)
    && (l.newLine.Some? <==> l.kind == Context || l.kind == Added)
  }

  /** Every line of a side carries the number the side starts with plus its place there. */
  ghost predicate NumberedFrom(range: Header, lines: seq<Line>) {
    && (forall k :: 0 <= k < |OldNumbers(lines)| ==> OldNumbers(lines)[k] == range.oldStart + k)
    && (forall k :: 0 <= k < |NewNumbers(lines)| ==> NewNumbers(lines)[k] == range.newStart + k)
    && (forall i :: 0 <= i < |lines| ==> Sided(lines[i]))
  }

  /** The hunk shows these raw lines: a header it was read from, then no header, each line of
      it in its place and rightly numbered. */
  ghost predicate ShowsHunk(h: Hunk, raw: seq<string>) {
    && raw != [] && raw[0] == h.header && ParseHeader(h.header) == Some(h.range)
    && ShowsLines(h.lines, raw[1..]) && NumberedFrom(h.range, h.lines)
  }

  /** How many raw lines the hunks take up. */
  function Extent(hunks: seq<Hunk>): nat {
    if hunks == [] then 0 else Extent(hunks[..|hunks| - 1]) + 1 + |Last(hunks).lines|
  }

  /** What parsing a whole patch yields, enrichment included: no header stands before the first
      hunk, and from there the hunks show all lines of the patch, one after the other. */
  lemma EveryHunkShowsItsLines(patch: string, c: WordDiff.CharClasses)
    ensures var lines, hunks := SplitLines(patch), ParsePatch(patch, c);
            var first := BodyLength(lines);
            && (forall i :: 0 <= i < first ==> !IsHeader(lines[i]))
            && first + Extent(hunks) == |lines|
            && forall k :: 0 <= k < |hunks| ==> ShowsAt(lines, first, hunks, k)
  {
    hide IsHeader, SplitLines, Sections, EnrichHunks, PlainHunks, ShowsHunk, Extent, BodyLength, ParseHeader;
    var lines := SplitLines(patch);
    var sections, hunks := Sections(lines), ParsePatch(patch, c);
    BodyEnds(lines);
    SectionsKeepEveryLine(lines);
    ExtentIsFlat(sections, hunks, |hunks|, c);
    assert sections[..|sections|] == sections && hunks[..|hunks|] == hunks;
    forall k | 0 <= k < |hunks| ensures ShowsAt(lines, BodyLength(lines), hunks, k) {
      HunkShowsSection(lines, sections, hunks, k, c);
    }
  }

  /** The k-th hunk shows the lines that follow those of the hunks before it. */
  ghost predicate ShowsAt(lines: seq<string>, first: nat, hunks: seq<Hunk>, k: nat)
    requires k < |hunks|
  {
    var at := first + Extent(hunks[..k]);
    at + 1 + |hunks[k].lines| <= |lines| && ShowsHunk(hunks[k], lines[at..at + 1 + |hunks[k].lines|])
  }

  lemma HunkShowsSection(lines: seq<string>, sections: seq<Section>, hunks: seq<Hunk>, k: nat, c: WordDiff.CharClasses)
    requires sections == Sections(lines) && hunks == EnrichHunks(PlainHunks(sections), c) && k < |hunks|
    requires Flatten(sections) == lines[BodyLength(lines)..]
    ensures ShowsAt(lines, BodyLength(lines), hunks, k)
  {
    hide Sections, Flatten, Extent, ShowsHunk, BodyLength, EnrichHunk, PlainHunk, IsHeader;
    var s, front, rest := sections[k], sections[..k], sections[k + 1..];
    var raw := [s.header] + s.body;
    FlattenAround(front, s, rest);
    assert sections == front + [s] + rest;
    ExtentIsFlat(sections, hunks, k, c);
    SliceOf(lines, BodyLength(lines), Flatten(front), raw, Flatten(rest));
    BodiesHoldNoHeader(lines, k);
    SectionShows(s, c);
    assert s in sections && hunks[k] == EnrichHunk(PlainHunk(s), c);
  }

  lemma SliceOf(lines: seq<string>, first: nat, x: seq<string>, raw: seq<string>, y: seq<string>)
    requires first <= |lines| && lines[first..] == x + raw + y
    ensures var at := first + |x|; at + |raw| <= |lines| && lines[at..at + |raw|] == raw
  {
    assert (x + raw + y)[|x|..|x| + |raw|] == raw;
  }

  lemma SectionShows(s: Section, c: WordDiff.CharClasses)
    requires IsHeader(s.header) && forall l :: l in s.body ==> !IsHeader(l)
    ensures var h := EnrichHunk(PlainHunk(s), c);
            ShowsHunk(h, [s.header] + s.body) && |h.lines| == |s.body|
  {
    hide ShowsLines, NumberedFrom, Enrich, NumberedLines;
    var h, e := PlainHunk(s), EnrichHunk(PlainHunk(s), c);
    PlainLinesShow(h.range, s.body);
    StripUndoesEnrich(h.lines, c);
    StrippedShow(e.lines, s.body, h.range);
    assert ([s.header] + s.body)[1..] == s.body;
  }

  lemma {:induction false} FlattenAround(x: seq<Section>, s: Section, y: seq<Section>)
    ensures Flatten(x + [s] + y) == Flatten(x) + ([s.header] + s.body) + Flatten(y)
  {
    hide Flatten;
    FlattenStep(s, y);
    if x == [] {
      assert x + [s] + y == [s] + y;
      FlattenNothing();
    } else {
      FlattenAround(x[1..], s, y);
      FlattenStep(x[0], x[1..] + [s] + y);
      FlattenStep(x[0], x[1..]);
      assert x + [s] + y == [x[0]] + (x[1..] + [s] + y) && x == [x[0]] + x[1..];
    }
  }

  lemma FlattenStep(s: Section, rest: seq<Section>)
    ensures Flatten([s] + rest) == [s.header] + s.body + Flatten(rest)
  {
    assert ([s] + rest)[1..] == rest;
  }

  lemma FlattenNothing()
    ensures Flatten([]) == []
  {
  }

  lemma {:induction false} ExtentIsFlat(sections: seq<Section>, hunks: seq<Hunk>, k: nat, c: WordDiff.CharClasses)
    requires forall s :: s in sections ==> IsHeader(s.header)
    requires hunks == EnrichHunks(PlainHunks(sections), c) && k <= |hunks|
    ensures Extent(hunks[..k]) == |Flatten(sections[..k])|
  {
    hide IsHeader, Enrich, NumberedLines, ParseHeader;
    if k > 0 {
      hide Flatten, EnrichHunks, PlainHunks;
      HunkLength(sections, hunks, k - 1, c);
      ExtentIsFlat(sections, hunks, k - 1, c);
      FlattenNothing();
      assert hunks[..k][..k - 1] == hunks[..k - 1];
      assert sections[..k] == sections[..k - 1] + [sections[k - 1]] + [];
      FlattenAround(sections[..k - 1], sections[k - 1], []);
    }
  }

  lemma HunkLength(sections: seq<Section>, hunks: seq<Hunk>, k: nat, c: WordDiff.CharClasses)
    requires forall s :: s in sections ==> IsHeader(s.header)
    requires hunks == EnrichHunks(PlainHunks(sections), c) && k < |hunks|
    ensures |hunks| == |sections| && |hunks[k].lines| == |sections[k].body|
  {
    hide IsHeader, Enrich, NumberedLines, ParseHeader;
  }

  lemma {:induction false} BodiesHoldNoHeader(lines: seq<string>, k: nat)
    requires k < |Sections(lines)|
    ensures forall l :: l in Sections(lines)[k].body ==> !IsHeader(l)
    decreases |lines|
  {
    hide IsHeader;
    if IsHeader(lines[0]) {
      var header, body, rest := FirstSection(lines);
      SectionThenRest(header, body, rest);
      if k > 0 { BodiesHoldNoHeader(rest, k - 1); }
    } else {
      BodiesHoldNoHeader(lines[1..], k);
    }
  }

  lemma PlainLinesShow(range: Header, body: seq<string>)
    requires forall l :: l in body ==> !IsHeader(l)
    ensures var lines := NumberedLines(range, body);
            ShowsLines(lines, body) && NumberedFrom(range, lines) && forall l :: l in lines ==> l.wordDiffs.None?
  {
    hide IsHeader, OldNumbers, NewNumbers, ShowsLine, Sided, NumberedLine;
    NumbersAreConsecutive(range, body);
    var lines := NumberedLines(range, body);
    forall i | 0 <= i < |lines|
      ensures ShowsLine(lines[i], body[i]) && Sided(lines[i]) && lines[i].wordDiffs.None? && !IsHeader(body[i]) {
      NumberedLineShows(range, KindsOf(body[..i]), body[i]);
      assert body[i] in body;
    }
  }

  lemma NumberedLineShows(range: Header, above: seq<Kind>, raw: string)
    ensures var l := NumberedLine(range, above, raw);
            ShowsLine(l, raw) && Sided(l) && l.wordDiffs.None?
  {
    hide CountOld, CountNew;
    ParsedLineKeepsItsText(range, above, raw);
  }

  /** Word diffs make no difference to what lines show and how they are numbered. */
  lemma StrippedShow(lines: seq<Line>, raw: seq<string>, range: Header)
    requires ShowsLines(StripLines(lines), raw) && NumberedFrom(range, StripLines(lines))
    ensures ShowsLines(lines, raw) && NumberedFrom(range, lines)
  {
    hide IsHeader, OldNumbers, NewNumbers, ShowsLine, Sided;
    NumbersIgnoreWordDiffs(lines);
    forall i | 0 <= i < |lines| ensures ShowsLine(lines[i], raw[i]) && Sided(lines[i]) && !IsHeader(raw[i]) {
      StrippedLineShows(lines[i], raw[i]);
      assert StripLines(lines)[i] == Strip(lines[i]);
    }
  }

  lemma StrippedLineShows(l: Line, raw: string)
    ensures ShowsLine(Strip(l), raw) ==> ShowsLine(l, raw)
    ensures Sided(Strip(l)) ==> Sided(l)
  {
  }

  lemma {:induction false} NumbersIgnoreWordDiffs(lines: seq<Line>)
    ensures OldNumbers(StripLines(lines)) == OldNumbers(lines) && NewNumbers(StripLines(lines)) == NewNumbers(lines)
  {
    if lines != [] {
      var n := |lines| - 1;
      NumbersIgnoreWordDiffs(lines[..n]);
      assert StripLines(lines)[..n] == StripLines(lines[..n]);
    }
  }

  // ---------- Rendering hunks and reading them back ----------

  function KindsIn(lines: seq<Line>): (kinds: seq<Kind>)
    ensures |kinds| == |lines|
  {
    seq(|lines|, i requires 0 <= i < |lines| => lines[i].kind)
  }

  /** A line as the parser would number it, holding text a diff line can hold. */
  predicate WellFormedLine(range: Header, above: seq<Kind>, l: Line) {
    && '\n' !in l.text
    && (l.kind == NoNewline ==> l.text == NO_NEWLINE)
    && l.oldLine == (if OldSide(l.kind) then Some(range.oldStart + CountOld(above)) else None)
    && l.newLine == (if NewSide(l.kind) then Some(range.newStart + CountNew(above)) else None)
    && l.wordDiffs.None?
  }

  predicate WellFormed(h: Hunk) {
    && ParseHeader(h.header) == Some(h.range)
    && '\n' !in h.header && !EndsWithCr(h.header)
    && forall i :: 0 <= i < |h.lines| ==> WellFormedLine(h.range, KindsIn(h.lines[..i]), h.lines[i])
  }

  predicate AllWellFormed(hunks: seq<Hunk>) {
    forall h :: h in hunks ==> WellFormed(h)
  }

  function RenderedBody(lines: seq<Line>): (body: seq<string>)
    ensures |body| == |lines|
  {
    seq(|lines|, i requires 0 <= i < |lines| => RenderLine(lines[i]))
  }

  function RenderedLines(hunks: seq<Hunk>): seq<string> {
    if hunks == [] then [] else [hunks[0].header] + RenderedBody(hunks[0].lines) + RenderedLines(hunks[1..])
  }

  /** The text of a list of hunks, with no final newline. */
  function Render(hunks: seq<Hunk>): string {
    if hunks == [] then "" else JoinLf(RenderedLines(hunks))
  }

  function SectionOf(h: Hunk): Section {
    Section(h.header, RenderedBody(h.lines))
  }

  function SectionsOf(hunks: seq<Hunk>): (sections: seq<Section>)
    ensures |sections| == |hunks|
  {
    seq(|hunks|, i requires 0 <= i < |hunks| => SectionOf(hunks[i]))
  }

  lemma RenderedHeaders(hunks: seq<Hunk>)
    requires AllWellFormed(hunks)
    ensures forall s :: s in SectionsOf(hunks) ==> IsHeader(s.header)
  {
    hide ParseHeader;
    forall s | s in SectionsOf(hunks) ensures IsHeader(s.header) {
      var i :| 0 <= i < |hunks| && SectionsOf(hunks)[i] == s;
      assert WellFormed(hunks[i]);
    }
  }

  lemma RenderedLineReadsBack(range: Header, above: seq<Kind>, l: Line)
    requires WellFormedLine(range, above, l)
    ensures NumberedLine(range, above, RenderLine(l)) == l
    ensures KindOf(RenderLine(l)) == l.kind
    ensures !IsHeader(RenderLine(l)) && '\n' !in RenderLine(l)
  {
    hide CountOld, CountNew;
    var raw := RenderLine(l);
    if l.kind != NoNewline {
      assert raw[1..] == l.text;
      assert raw[0] != NO_NEWLINE[0];
    }
    assert raw[0] != '@';
  }

  lemma RenderedBodyReadsBack(h: Hunk)
    requires WellFormed(h)
    ensures PlainHunk(SectionOf(h)) == h
    ensures forall l :: l in RenderedBody(h.lines) ==> !IsHeader(l) && '\n' !in l
  {
    hide ParseHeader, RenderLine, KindOf, NumberedLine, WellFormedLine;
    var body := RenderedBody(h.lines);
    forall i | 0 <= i < |h.lines|
      ensures KindOf(body[i]) == h.lines[i].kind && !IsHeader(body[i]) && '\n' !in body[i]
    {
      RenderedLineReadsBack(h.range, KindsIn(h.lines[..i]), h.lines[i]);
    }
    forall i | 0 <= i < |h.lines| ensures NumberedLines(h.range, body)[i] == h.lines[i] {
      assert KindsOf(body[..i]) == KindsIn(h.lines[..i]);
      RenderedLineReadsBack(h.range, KindsIn(h.lines[..i]), h.lines[i]);
    }
  }

  lemma {:induction false} RenderedSections(hunks: seq<Hunk>)
    requires AllWellFormed(hunks)
    ensures Sections(RenderedLines(hunks)) == SectionsOf(hunks)
    ensures forall l :: l in RenderedLines(hunks) ==> '\n' !in l
    ensures hunks != [] ==> RenderedLines(hunks) != [] && IsHeader(RenderedLines(hunks)[0])
  {
    hide ParseHeader, RenderLine, WellFormedLine, Sections;
    if hunks == [] {
      NoSections();
    } else {
      var h, rest := hunks[0], RenderedLines(hunks[1..]);
      assert WellFormed(h);
      RenderedSections(hunks[1..]);
      RenderedBodyReadsBack(h);
      if hunks[1..] == [] { assert rest == []; }
      SectionThenRest(h.header, RenderedBody(h.lines), rest);
      assert SectionsOf(hunks) == [SectionOf(h)] + SectionsOf(hunks[1..]);
    }
  }

  lemma NoSections()
    ensures Sections([]) == []
  {
  }

  /** Hunks as they read back: a CR that comes to stand before an LF is lost. */
  function TrimLine(l: Line): Line { l.(text := DropCr(l.text)) }

  function TrimLines(lines: seq<Line>, keepLast: bool): (r: seq<Line>)
    ensures |r| == |lines|
  {
    seq(|lines|, i requires 0 <= i < |lines| => if keepLast && i == |lines| - 1 then lines[i] else TrimLine(lines[i]))
  }

  function Trim(hunks: seq<Hunk>, keepLast: bool): (r: seq<Hunk>)
    ensures |r| == |hunks|
  {
    seq(|hunks|, k requires 0 <= k < |hunks| =>
      hunks[k].(lines := TrimLines(hunks[k].lines, keepLast && k == |hunks| - 1)))
  }

  lemma TrimmedLine(range: Header, above: seq<Kind>, l: Line)
    requires WellFormedLine(range, above, l)
    ensures WellFormedLine(range, above, TrimLine(l))
    ensures RenderLine(TrimLine(l)) == DropCr(RenderLine(l))
  {
    PrefixKeepsCr("+", l.text);
    PrefixKeepsCr("-", l.text);
    PrefixKeepsCr(" ", l.text);
  }

  lemma PrefixKeepsCr(prefix: string, text: string)
    requires prefix != "" && !EndsWithCr(prefix)
    ensures DropCr(prefix + text) == prefix + DropCr(text)
  {
    if text != "" {
      assert (prefix + text)[|prefix + text| - 1] == text[|text| - 1];
    } else {
      assert prefix + text == prefix;
    }
    if EndsWithCr(text) { assert (prefix + text)[..|prefix + text| - 1] == prefix + text[..|text| - 1]; }
  }

  lemma TrimmedHunk(h: Hunk, keepLast: bool)
    requires WellFormed(h)
    ensures WellFormed(h.(lines := TrimLines(h.lines, keepLast)))
    ensures RenderedBody(TrimLines(h.lines, keepLast)) == DropCrs(RenderedBody(h.lines), keepLast)
  {
    hide ParseHeader, RenderLine, WellFormedLine, TrimLine, DropCr;
    var lines := TrimLines(h.lines, keepLast);
    forall i | 0 <= i < |lines|
      ensures WellFormedLine(h.range, KindsIn(lines[..i]), lines[i])
      ensures RenderLine(lines[i]) == DropCrs(RenderedBody(h.lines), keepLast)[i]
    {
      TrimmedLine(h.range, KindsIn(h.lines[..i]), h.lines[i]);
      forall j | 0 <= j < i ensures lines[j].kind == h.lines[j].kind {
        TrimmedLineKind(h.lines[j]);
      }
      assert KindsIn(lines[..i]) == KindsIn(h.lines[..i]);
    }
  }

  lemma TrimmedLineKind(l: Line)
    ensures TrimLine(l).kind == l.kind
  {
  }

  lemma DropCrsAppend(x: seq<string>, y: seq<string>, keepLast: bool)
    ensures DropCrs(x + y, keepLast) == DropCrs(x, keepLast && y == []) + DropCrs(y, keepLast)
  {
    hide DropCr;
  }

  lemma {:induction false} TrimmedHunks(hunks: seq<Hunk>, keepLast: bool)
    requires AllWellFormed(hunks)
    ensures AllWellFormed(Trim(hunks, keepLast))
    ensures RenderedLines(Trim(hunks, keepLast)) == DropCrs(RenderedLines(hunks), keepLast)
  {
    hide WellFormed, TrimLines, RenderedBody, DropCrs;
    if hunks == [] {
      NoCrs(keepLast);
    } else {
      var h, rest, last := hunks[0], hunks[1..], keepLast && |hunks| == 1;
      var header, body, tail := [h.header], RenderedBody(h.lines), RenderedLines(rest);
      TrimmedHunks(rest, keepLast);
      TrimmedHunk(h, last);
      var trimmed := h.(lines := TrimLines(h.lines, last));
      assert Trim(hunks, keepLast) == [trimmed] + Trim(rest, keepLast);
      assert rest != [] ==> tail != [];
      DropCrsAppend(header + body, tail, keepLast);
      DropCrsAppend(header, body, last);
      HeaderKeeps(h, last && body == []);
    }
  }

  lemma NoCrs(keepLast: bool)
    ensures DropCrs([], keepLast) == []
  {
  }

  lemma HeaderKeeps(h: Hunk, keepLast: bool)
    requires WellFormed(h)
    ensures DropCrs([h.header], keepLast) == [h.header]
  {
  }

  /** No line but the very last one of the rendered text ends in CR. */
  predicate CrOnlyAtTheEnd(hunks: seq<Hunk>) {
    forall k, i :: 0 <= k < |hunks| && 0 <= i < |hunks[k].lines| && EndsWithCr(hunks[k].lines[i].text)
                   ==> k == |hunks| - 1 && i == |hunks[k].lines| - 1
  }

  lemma TrimChangesNothing(hunks: seq<Hunk>)
    ensures Trim(hunks, true) == hunks <==> CrOnlyAtTheEnd(hunks)
  {
    var trimmed := Trim(hunks, true);
    forall k, i | 0 <= k < |hunks| && 0 <= i < |hunks[k].lines|
      ensures trimmed[k].lines[i] == hunks[k].lines[i] <==>
              (EndsWithCr(hunks[k].lines[i].text) ==> k == |hunks| - 1 && i == |hunks[k].lines| - 1)
    {
    }
    if CrOnlyAtTheEnd(hunks) {
      forall k | 0 <= k < |hunks| ensures trimmed[k] == hunks[k] {
        assert trimmed[k].lines == hunks[k].lines;
      }
    }
  }

  lemma SectionsParseBack(hunks: seq<Hunk>)
    requires AllWellFormed(hunks)
    ensures forall s :: s in SectionsOf(hunks) ==> IsHeader(s.header)
    ensures PlainHunks(SectionsOf(hunks)) == hunks
  {
    RenderedHeaders(hunks);
    forall i | 0 <= i < |hunks| ensures WellFormed(hunks[i]) && PlainHunk(SectionOf(hunks[i])) == hunks[i] {
      RenderedBodyReadsBack(hunks[i]);
    }
  }

  /** What rendered hunks read back as, for all well-formed hunks. */
  lemma RenderedHunksReadBack(hunks: seq<Hunk>, c: WordDiff.CharClasses)
    requires AllWellFormed(hunks)
    ensures ParsePatch(Render(hunks), c) == EnrichHunks(Trim(hunks, true), c)
  {
    hide WellFormed, SplitLines, Sections, PlainHunks, EnrichHunks;
    RenderedSections(hunks);
    TrimmedHunks(hunks, true);
    RenderedSections(Trim(hunks, true));
    SectionsParseBack(Trim(hunks, true));
    if hunks == [] {
      NothingToParse();
    } else {
      SplitOfJoinLf(RenderedLines(hunks));
    }
  }

  lemma NothingToParse()
    ensures Sections(SplitLines("")) == []
  {
  }

  lemma EnrichmentIsInjective(x: seq<Hunk>, y: seq<Hunk>, c: WordDiff.CharClasses)
    requires AllWellFormed(x) && AllWellFormed(y) && EnrichHunks(x, c) == EnrichHunks(y, c)
    ensures x == y
  {
    hide Enrich, ParseHeader;
    forall i | 0 <= i < |x| ensures x[i] == y[i] {
      assert EnrichHunk(x[i], c) == EnrichHunks(x, c)[i] == EnrichHunks(y, c)[i] == EnrichHunk(y[i], c);
      assert WellFormed(x[i]) && WellFormed(y[i]);
      StripUndoesEnrich(x[i].lines, c);
      StripUndoesEnrich(y[i].lines, c);
    }
  }

  /** Parsing returns the hunks a text was rendered from exactly when no CR stands before a
      line break in it. */
  lemma RoundTrip(hunks: seq<Hunk>, c: WordDiff.CharClasses)
    requires AllWellFormed(hunks)
    ensures ParsePatch(Render(hunks), c) == EnrichHunks(hunks, c) <==> CrOnlyAtTheEnd(hunks)
  {
    hide WellFormed, ParsePatch, EnrichHunks, Trim;
    RenderedHunksReadBack(hunks, c);
    TrimmedHunks(hunks, true);
    TrimChangesNothing(hunks);
    if EnrichHunks(Trim(hunks, true), c) == EnrichHunks(hunks, c) {
      EnrichmentIsInjective(Trim(hunks, true), hunks, c);
    }
  }

  /** The empty piece after a final newline becomes one more context line of the last hunk. */
  function WithEmptyContext(hunks: seq<Hunk>): seq<Hunk>
    requires hunks != []
  {
    var h := Last(hunks);
    var kinds := KindsIn(h.lines);
    var extra := Line(Context, Some(h.range.oldStart + CountOld(kinds)), Some(h.range.newStart + CountNew(kinds)), "",
      None);
    Init(hunks) + [h.(lines := h.lines + [extra])]
  }

  lemma FinalNewlineAddsContext(hunks: seq<Hunk>, c: WordDiff.CharClasses)
    requires AllWellFormed(hunks) && hunks != []
    ensures ParsePatch(Render(hunks) + ['\n'], c) == EnrichHunks(WithEmptyContext(Trim(hunks, false)), c)
    ensures ParsePatch(Render(hunks) + ['\n'], c) != EnrichHunks(hunks, c)
  {
    hide WellFormed, SplitLines, Sections, PlainHunks, IsHeader, RenderedLines;
    var trimmed := Trim(hunks, false);
    RenderedSections(hunks);
    TrimmedHunks(hunks, false);
    RenderedSections(trimmed);
    SplitOfJoinLfAndNewline(RenderedLines(hunks));
    SectionsSnoc(RenderedLines(trimmed), "");
    EmptyLineParsesBack(trimmed);
    var more := EnrichHunks(WithEmptyContext(trimmed), c);
    assert |Last(more).lines| == |Last(trimmed).lines| + 1;
    assert |Last(trimmed).lines| == |Last(hunks).lines|;
    assert |Last(EnrichHunks(hunks, c)).lines| == |Last(hunks).lines|;
  }

  lemma EmptyLineParsesBack(hunks: seq<Hunk>)
    requires AllWellFormed(hunks) && hunks != []
    ensures !IsHeader("")
    ensures AddLine(SectionsOf(hunks), "") != [] && forall s :: s in AddLine(SectionsOf(hunks), "") ==>
            IsHeader(s.header)
    ensures PlainHunks(AddLine(SectionsOf(hunks), "")) == WithEmptyContext(hunks)
  {
    hide ParseHeader, RenderLine, NumberedLine;
    var h := Last(hunks);
    RenderedHeaders(hunks);
    EmptyIsNoHeader();
    forall i | 0 <= i < |hunks| ensures WellFormed(hunks[i]) && PlainHunk(SectionOf(hunks[i])) == hunks[i] {
      RenderedBodyReadsBack(hunks[i]);
    }
    var body := RenderedBody(h.lines);
    NumberedLinesSnoc(h.range, body, "");
    BodyKinds(h);
    EmptyContextLine(h.range, KindsOf(body));
    assert PlainHunk(Section(h.header, body + [""])) == Last(WithEmptyContext(hunks));
  }

  lemma EmptyIsNoHeader()
    ensures !IsHeader("")
  {
  }

  lemma EmptyContextLine(range: Header, above: seq<Kind>)
    ensures NumberedLine(range, above, "")
            == Line(Context, Some(range.oldStart + CountOld(above)), Some(range.newStart + CountNew(above)), "", None)
  {
  }

  lemma BodyKinds(h: Hunk)
    requires WellFormed(h)
    ensures KindsOf(RenderedBody(h.lines)) == KindsIn(h.lines)
  {
    hide ParseHeader, RenderLine, KindOf, WellFormedLine;
    forall i | 0 <= i < |h.lines| ensures KindOf(RenderLine(h.lines[i])) == h.lines[i].kind {
      RenderedLineReadsBack(h.range, KindsIn(h.lines[..i]), h.lines[i]);
    }
  }
}
