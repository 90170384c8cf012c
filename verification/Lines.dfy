/** Splitting text at LF and CRLF, as the regular expression \r?\n does it. */
module Lines {

  /** Index of the first `c` in `text`, or the length when there is none. */
  function IndexOf<T(==)>(text: seq<T>, c: T): (k: nat)
    ensures k <= |text|
    ensures forall i :: 0 <= i < k ==> text[i] != c
    ensures k < |text| ==> text[k] == c
  {
    if text == [] || text[0] == c then 0 else 1 + IndexOf(text[1..], c)
  }

  /** Length of the longest prefix of `text` whose characters all satisfy `p`. */
  function RunLength(text: string, p: char -> bool): (n: nat)
    ensures n <= |text|
    ensures forall i :: 0 <= i < n ==> p(text[i])
    ensures n < |text| ==> !p(text[n])
  {
    if text == "" || !p(text[0]) then 0 else 1 + RunLength(text[1..], p)
  }

  predicate EndsWithCr(line: string) {
    |line| > 0 && line[|line| - 1] == '\r'
  }

  function DropCr(line: string): string {
    if EndsWithCr(line) then line[..|line| - 1] else line
  }

  function SplitLines(text: string): (lines: seq<string>)
    ensures |lines| > 0
  {
    var k := IndexOf(text, '\n');
    if k == |text| then [text] else [DropCr(text[..k])] + SplitLines(text[k + 1..])
  }

  function Init<T>(s: seq<T>): seq<T> requires s != [] { s[..|s| - 1] }

  function Last<T>(s: seq<T>): T requires s != [] { s[|s| - 1] }

  /** Lines with their terminators between them; a last line has none. */
  function JoinLines(lines: seq<string>, terminators: seq<string>): string
    requires |lines| == |terminators| + 1
  {
    if terminators == [] then lines[0]
    else lines[0] + terminators[0] + JoinLines(lines[1..], terminators[1..])
  }

  predicate IsTerminator(t: string) { t == "\n" || t == "\r\n" }

  /** No line holds a newline, and a line that a bare LF ends does not end in CR. */
  ghost predicate Separated(lines: seq<string>, terminators: seq<string>)
    requires |lines| == |terminators| + 1
  {
    && (forall i :: 0 <= i < |lines| ==> '\n' !in lines[i])
    && (forall i :: 0 <= i < |terminators| ==>
          IsTerminator(terminators[i]) && (terminators[i] == "\n" ==> !EndsWithCr(lines[i])))
  }

  lemma SplitAtNewline(prefix: string, rest: string)
    requires '\n' !in prefix
    ensures SplitLines(prefix + ['\n'] + rest) == [DropCr(prefix)] + SplitLines(rest)
  {
    var text := prefix + ['\n'] + rest;
    assert forall i :: 0 <= i < |prefix| ==> text[i] == prefix[i];
    assert text[|prefix|] == '\n';
    assert IndexOf(text, '\n') == |prefix|;
    assert text[..|prefix|] == prefix && text[|prefix| + 1..] == rest;
  }

  lemma SplitWithoutNewline(text: string)
    requires '\n' !in text
    ensures SplitLines(text) == [text]
  {
  }

  /** Splitting undoes joining, whichever of the two terminators each line has. */
  lemma {:induction false} SplitUndoesJoin(lines: seq<string>, terminators: seq<string>)
    requires |lines| == |terminators| + 1 && Separated(lines, terminators)
    ensures SplitLines(JoinLines(lines, terminators)) == lines
    decreases |lines|
  {
    if terminators == [] {
      SplitWithoutNewline(lines[0]);
    } else {
      var rest := JoinLines(lines[1..], terminators[1..]);
      SplitUndoesJoin(lines[1..], terminators[1..]);
      JoinFirst(lines[0], terminators[0], rest);
    }
  }

  lemma JoinFirst(line: string, t: string, rest: string)
    requires '\n' !in line && IsTerminator(t) && (t == "\n" ==> !EndsWithCr(line))
    ensures SplitLines(line + t + rest) == [line] + SplitLines(rest)
  {
    var prefix := if t == "\n" then line else line + ['\r'];
    assert line + t + rest == prefix + ['\n'] + rest;
    SplitAtNewline(prefix, rest);
    assert DropCr(prefix) == line;
  }

  /** Every text is a join of its split: no other list of lines is possible. */
  lemma {:induction false} JoinUndoesSplit(text: string) returns (terminators: seq<string>)
    ensures |SplitLines(text)| == |terminators| + 1
    ensures Separated(SplitLines(text), terminators)
    ensures JoinLines(SplitLines(text), terminators) == text
    decreases |text|
  {
    var k := IndexOf(text, '\n');
    if k == |text| {
      terminators := [];
    } else {
      var line, t, rest := CutAtNewline(text);
      var later := JoinUndoesSplit(rest);
      terminators := [t] + later;
      SeparatedCons(line, t, SplitLines(rest), later);
    }
  }

  lemma CutAtNewline(text: string) returns (line: string, t: string, rest: string)
    requires IndexOf(text, '\n') < |text|
    ensures text == line + t + rest && |rest| < |text|
    ensures SplitLines(text) == [line] + SplitLines(rest)
    ensures '\n' !in line && IsTerminator(t) && (t == "\n" ==> !EndsWithCr(line))
  {
    var k := IndexOf(text, '\n');
    var prefix := text[..k];
    line, rest := DropCr(prefix), text[k + 1..];
    t := if EndsWithCr(prefix) then "\r\n" else "\n";
    assert prefix == if EndsWithCr(prefix) then line + ['\r'] else line;
  }

  lemma SeparatedCons(line: string, t: string, lines: seq<string>, terminators: seq<string>)
    requires |lines| == |terminators| + 1 && Separated(lines, terminators)
    requires '\n' !in line && IsTerminator(t) && (t == "\n" ==> !EndsWithCr(line))
    ensures Separated([line] + lines, [t] + terminators)
    ensures JoinLines([line] + lines, [t] + terminators) == line + t + JoinLines(lines, terminators)
  {
    assert ([line] + lines)[1..] == lines && ([t] + terminators)[1..] == terminators;
  }

  /** Text that arrives later only continues the last line split so far, even when the cut
      falls between a CR and its LF. */
  lemma {:induction false} SplitContinues(x: string, y: string)
    ensures SplitLines(x + y) == Init(SplitLines(x)) + SplitLines(Last(SplitLines(x)) + y)
    decreases |x|
  {
    hide SplitLines, DropCr;
    var k := IndexOf(x, '\n');
    if k < |x| {
      var prefix, z := x[..k], x[k + 1..];
      assert x == prefix + ['\n'] + z;
      assert x + y == prefix + ['\n'] + (z + y);
      SplitAtNewline(prefix, z);
      SplitAtNewline(prefix, z + y);
      SplitContinues(z, y);
      ConsInitLast(DropCr(prefix), SplitLines(z));
    } else {
      SplitWithoutNewline(x);
    }
  }

  lemma ConsInitLast<T>(x: T, s: seq<T>)
    requires s != []
    ensures Init([x] + s) == [x] + Init(s) && Last([x] + s) == Last(s)
  {
  }

  function JoinLf(lines: seq<string>): string
    requires lines != []
  {
    if |lines| == 1 then lines[0] else lines[0] + ['\n'] + JoinLf(lines[1..])
  }

  /** Drops one trailing CR from every line, or from every line but the last. */
  function DropCrs(lines: seq<string>, keepLast: bool): (r: seq<string>)
    ensures |r| == |lines|
  {
    seq(|lines|, i requires 0 <= i < |lines| => if keepLast && i == |lines| - 1 then lines[i] else DropCr(lines[i]))
  }

  /** Joining with bare LFs and splitting again keeps the lines but for the CRs that come to
      stand before an LF. */
  lemma {:induction false} SplitOfJoinLf(lines: seq<string>)
    requires lines != [] && forall l :: l in lines ==> '\n' !in l
    ensures SplitLines(JoinLf(lines)) == DropCrs(lines, true)
  {
    hide SplitLines, DropCr;
    if |lines| == 1 {
      SplitWithoutNewline(lines[0]);
    } else {
      SplitOfJoinLf(lines[1..]);
      SplitAtNewline(lines[0], JoinLf(lines[1..]));
      assert DropCrs(lines, true) == [DropCr(lines[0])] + DropCrs(lines[1..], true);
    }
  }

  lemma {:induction false} JoinLfSnoc(lines: seq<string>, last: string)
    requires lines != []
    ensures JoinLf(lines + [last]) == JoinLf(lines) + ['\n'] + last
  {
    if |lines| > 1 {
      JoinLfSnoc(lines[1..], last);
      assert (lines + [last])[1..] == lines[1..] + [last];
    } else {
      assert (lines + [last])[1..] == [last];
    }
  }

  lemma SplitOfJoinLfAndNewline(lines: seq<string>)
    requires lines != [] && forall l :: l in lines ==> '\n' !in l
    ensures SplitLines(JoinLf(lines) + ['\n']) == DropCrs(lines, false) + [""]
  {
    JoinLfSnoc(lines, "");
    assert JoinLf(lines + [""]) == JoinLf(lines) + ['\n'];
    SplitOfJoinLf(lines + [""]);
    assert DropCrs(lines + [""], true) == DropCrs(lines, false) + [""];
  }
}
