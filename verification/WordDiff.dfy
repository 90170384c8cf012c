/** The inline word diff of one changed line: a longest-common-subsequence table filled
    backwards, a backtrack over it, and the merging of neighbouring pieces of one kind. */
module WordDiff {
  import Lines

  /** The two character classes the tokenizer's regular expression asks for. */
  datatype CharClasses = CharClasses(isSpace: char -> bool, isWord: char -> bool)

  datatype Kind = Equal | Deletion | Addition

  datatype Segment = Segment(kind: Kind, text: string)

  /** One token of an edit script from an old token list to a new one. */
  datatype Edit = Keep(token: string) | Delete(token: string) | Insert(token: string)

  const TABLE_LIMIT: nat := 14_400
  const CELL_MODULUS: nat := 0x1_0000

  // ---------- Tokens ----------

  function Concat(parts: seq<string>): string {
    if parts == [] then "" else parts[0] + Concat(parts[1..])
  }

  /** Splits around separators and keeps them: a run of spaces, or a run of non-word
      characters (spaces included); what lies between separators is a word. */
  function Tokens(text: string, c: CharClasses): (tokens: seq<string>)
    ensures forall t :: t in tokens ==> t != ""
    ensures Concat(tokens) == text
  {
    if text == "" then []
    else
      var n :=
        if c.isSpace(text[0]) then Lines.RunLength(text, c.isSpace)
        else if !c.isWord(text[0]) then Lines.RunLength(text, ch => !c.isWord(ch))
        else Lines.RunLength(text, ch => c.isWord(ch) && !c.isSpace(ch));
      assert text == text[..n] + text[n..];
      [text[..n]] + Tokens(text[n..], c)
  }

  /** A token goes on over `ch`: spaces go on over spaces, other separators over whatever is no
      word character, and a word over word characters that are no spaces. */
  predicate GoesOn(token: string, ch: char, c: CharClasses)
    requires token != ""
  {
    if c.isSpace(token[0]) then c.isSpace(ch)
    else if c.isWord(token[0]) then c.isWord(ch) && !c.isSpace(ch)
    else !c.isWord(ch)
  }

  /** One token goes on over all its characters, and not over what follows it. */
  predicate IsRun(tokens: seq<string>, k: nat, c: CharClasses)
    requires k < |tokens|
  {
    && tokens[k] != "" && (forall i :: 0 < i < |tokens[k]| ==> GoesOn(tokens[k], tokens[k][i], c))
    && (k + 1 < |tokens| && tokens[k + 1] != "" ==> !GoesOn(tokens[k], tokens[k + 1][0], c))
  }

  ghost predicate AreRuns(tokens: seq<string>, c: CharClasses) {
    forall k :: 0 <= k < |tokens| ==> IsRun(tokens, k, c)
  }

  /** The tokens are maximal runs: none could take another character, and none is a piece of two. */
  lemma {:induction false} TokensAreMaximalRuns(text: string, c: CharClasses)
    ensures AreRuns(Tokens(text, c), c)
  {
    if text != "" {
      var tokens := Tokens(text, c);
      var n, rest := |tokens[0]|, tokens[1..];
      FirstTokenIsRun(text, c);
      TokensAreMaximalRuns(text[n..], c);
      forall k | 0 <= k < |tokens| ensures IsRun(tokens, k, c) {
        if k == 0 {
          assert |tokens| > 1 ==> tokens[1] == rest[0] && rest[0] != "" && Concat(rest)[0] == rest[0][0];
        } else {
          assert IsRun(rest, k - 1, c);
        }
      }
    }
  }

  lemma FirstTokenIsRun(text: string, c: CharClasses)
    requires text != ""
    ensures var token := Tokens(text, c)[0];
            var n := |token|;
            && token != "" && token == text[..n] && Tokens(text, c)[1..] == Tokens(text[n..], c)
            && (forall i :: 0 < i < n ==> GoesOn(token, token[i], c))
            && (n < |text| ==> !GoesOn(token, text[n], c))
  {
    hide Concat;
    var token := Tokens(text, c)[0];
    assert forall i :: 0 <= i < |token| ==> token[i] == text[i];
  }

  lemma RunsBehind(tokens: seq<string>, c: CharClasses)
    requires tokens != [] && AreRuns(tokens, c)
    ensures AreRuns(tokens[1..], c) && tokens[0] != "" && Concat(tokens) == tokens[0] + Concat(tokens[1..])
    ensures |tokens| > 1 ==> tokens[1] != "" && Concat(tokens[1..]) != "" && Concat(tokens[1..])[0] == tokens[1][0]
    ensures |tokens| == 1 ==> Concat(tokens[1..]) == ""
  {
    var rest := tokens[1..];
    assert IsRun(tokens, 0, c) && (|tokens| > 1 ==> IsRun(tokens, 1, c));
    forall k | 0 <= k < |rest| ensures IsRun(rest, k, c) { assert IsRun(tokens, k + 1, c); }
    if |tokens| > 1 { assert rest[0] == tokens[1]; }
  }

  /** Where the first of the runs ends: its characters go on from its first, and the one behind it does not. */
  lemma FirstRunEnds(tokens: seq<string>, text: string, c: CharClasses)
    requires tokens != [] && AreRuns(tokens, c) && Concat(tokens) == text
    ensures var n := |tokens[0]|;
            && 0 < n <= |text| && (forall i :: 0 < i < n ==> GoesOn(text, text[i], c))
            && (n < |text| ==> !GoesOn(text, text[n], c))
  {
    RunsBehind(tokens, c);
    hide Concat;
    var token := tokens[0];
    assert IsRun(tokens, 0, c);
    assert forall i :: 0 <= i < |token| ==> text[i] == token[i];
    if |token| < |text| { assert text[|token|] == Concat(tokens[1..])[0]; }
  }

  /** A text is cut into maximal runs in one way only. */
  lemma {:induction false} RunsAreUnique(x: seq<string>, y: seq<string>, c: CharClasses)
    requires AreRuns(x, c) && AreRuns(y, c) && Concat(x) == Concat(y)
    ensures x == y
    decreases |x|
  {
    if x == [] || y == [] {
      if x != [] { RunsBehind(x, c); }
      if y != [] { RunsBehind(y, c); }
    } else {
      FirstRunEnds(x, Concat(x), c);
      FirstRunEnds(y, Concat(x), c);
      RunsBehind(x, c);
      RunsBehind(y, c);
      assert x[0] == Concat(x)[..|x[0]|] == y[0];
      assert Concat(x[1..]) == Concat(x)[|x[0]|..] == Concat(y[1..]);
      RunsAreUnique(x[1..], y[1..], c);
      assert x == [x[0]] + x[1..] && y == [y[0]] + y[1..];
    }
  }

  lemma {:induction false} ConcatSnoc(parts: seq<string>, t: string)
    ensures Concat(parts + [t]) == Concat(parts) + t
  {
    if parts == [] {
      assert [t][1..] == [];
    } else {
      ConcatSnoc(parts[1..], t);
      assert (parts + [t])[1..] == parts[1..] + [t];
    }
  }

  // ---------- Longest common subsequences ----------

  /** `c` can be obtained from `a` by dropping elements. */
  predicate Subsequence(c: seq<string>, a: seq<string>) {
    c == [] || (a != [] && ((c[0] == a[0] && Subsequence(c[1..], a[1..])) || Subsequence(c, a[1..])))
  }

  function Max(x: nat, y: nat): nat { if x >= y then x else y }

  function LcsLength(a: seq<string>, b: seq<string>): (n: nat)
    ensures n <= |a| && n <= |b|
    decreases |a| + |b|
  {
    if a == [] || b == [] then 0
    else if a[0] == b[0] then LcsLength(a[1..], b[1..]) + 1
    else Max(LcsLength(a[1..], b), LcsLength(a, b[1..]))
  }

  lemma {:induction false} SubsequenceTails(c: seq<string>, a: seq<string>)
    requires c != [] && Subsequence(c, a)
    ensures Subsequence(c[1..], a[1..])
    ensures Subsequence(c[1..], a)
    decreases |a|
  {
    if c[0] == a[0] && Subsequence(c[1..], a[1..]) {
    } else {
      SubsequenceTails(c, a[1..]);
    }
  }

  /** No common subsequence is longer than the table's recurrence says. */
  lemma {:induction false} LcsIsUpperBound(c: seq<string>, a: seq<string>, b: seq<string>)
    requires Subsequence(c, a) && Subsequence(c, b)
    ensures |c| <= LcsLength(a, b)
    decreases |a| + |b|
  {
    if c == [] {
    } else if a[0] == b[0] {
      SubsequenceTails(c, a);
      SubsequenceTails(c, b);
      LcsIsUpperBound(c[1..], a[1..], b[1..]);
    } else if c[0] != a[0] {
      LcsIsUpperBound(c, a[1..], b);
    } else {
      LcsIsUpperBound(c, a, b[1..]);
    }
  }

  // ---------- Edit scripts ----------

  function OldSide(script: seq<Edit>): seq<string> {
    if script == [] then []
    else if script[0].Insert? then OldSide(script[1..])
    else [script[0].token] + OldSide(script[1..])
  }

  function NewSide(script: seq<Edit>): seq<string> {
    if script == [] then []
    else if script[0].Delete? then NewSide(script[1..])
    else [script[0].token] + NewSide(script[1..])
  }

  /** The tokens an edit script marks equal. */
  function Kept(script: seq<Edit>): seq<string> {
    if script == [] then []
    else if script[0].Keep? then [script[0].token] + Kept(script[1..])
    else Kept(script[1..])
  }

  predicate IsEditScript(script: seq<Edit>, a: seq<string>, b: seq<string>) {
    OldSide(script) == a && NewSide(script) == b
  }

  /** A script from `a` to `b` whose kept tokens are a longest common subsequence. */
  ghost predicate IsOptimalScript(script: seq<Edit>, a: seq<string>, b: seq<string>) {
    && IsEditScript(script, a, b)
    && Subsequence(Kept(script), a) && Subsequence(Kept(script), b)
    && forall c :: Subsequence(c, a) && Subsequence(c, b) ==> |c| <= |Kept(script)|
  }

  /** The script the backtrack follows: deletions win ties. */
  function Script(a: seq<string>, b: seq<string>): seq<Edit>
    decreases |a| + |b|
  {
    if a == [] then if b == [] then [] else [Insert(b[0])] + Script(a, b[1..])
    else if b == [] then [Delete(a[0])] + Script(a[1..], b)
    else if a[0] == b[0] then [Keep(a[0])] + Script(a[1..], b[1..])
    else if LcsLength(a[1..], b) >= LcsLength(a, b[1..]) then [Delete(a[0])] + Script(a[1..], b)
    else [Insert(b[0])] + Script(a, b[1..])
  }

  lemma {:induction false} ScriptEdits(a: seq<string>, b: seq<string>)
    ensures IsEditScript(Script(a, b), a, b)
    ensures |Kept(Script(a, b))| == LcsLength(a, b)
    decreases |a| + |b|
  {
    var script := Script(a, b);
    if script != [] {
      match script[0]
      case Keep(_) => ScriptEdits(a[1..], b[1..]);
      case Delete(_) => ScriptEdits(a[1..], b);
      case Insert(_) => ScriptEdits(a, b[1..]);
    }
  }

  lemma {:induction false} KeptIsCommon(script: seq<Edit>)
    ensures Subsequence(Kept(script), OldSide(script))
    ensures Subsequence(Kept(script), NewSide(script))
  {
    if script != [] {
      KeptIsCommon(script[1..]);
      var o, n, k := OldSide(script), NewSide(script), Kept(script);
      match script[0]
      case Keep(_) =>
        assert k[1..] == Kept(script[1..]) && o[1..] == OldSide(script[1..]) && n[1..] == NewSide(script[1..]);
      case Delete(_) => assert o[1..] == OldSide(script[1..]);
      case Insert(_) => assert n[1..] == NewSide(script[1..]);
    }
  }

  lemma ScriptIsOptimal(a: seq<string>, b: seq<string>)
    ensures IsOptimalScript(Script(a, b), a, b)
  {
    ScriptEdits(a, b);
    KeptIsCommon(Script(a, b));
    forall c | Subsequence(c, a) && Subsequence(c, b) ensures |c| <= |Kept(Script(a, b))| {
      LcsIsUpperBound(c, a, b);
    }
  }

  /** No insertion is followed by a deletion. */
  predicate DeletesFirst(script: seq<Edit>) {
    forall k :: 0 < k < |script| ==> script[k - 1].Insert? ==> !script[k].Delete?
  }

  /** In every changed stretch what is deleted comes before what is inserted. */
  lemma {:induction false} DeletionsComeFirst(a: seq<string>, b: seq<string>)
    ensures DeletesFirst(Script(a, b))
    decreases |a| + |b|
  {
    hide LcsLength, DeletesFirst;
    var script := Script(a, b);
    if script == [] {
      NothingDeletesFirst();
    } else {
      match script[0]
      case Keep(_) =>
        DeletionsComeFirst(a[1..], b[1..]);
        OneMoreDeletesFirst(script[0], Script(a[1..], b[1..]));
      case Delete(_) =>
        DeletionsComeFirst(a[1..], b);
        OneMoreDeletesFirst(script[0], Script(a[1..], b));
      case Insert(_) =>
        DeletionsComeFirst(a, b[1..]);
        NoDeletionNext(a, b);
        OneMoreDeletesFirst(script[0], Script(a, b[1..]));
    }
  }

  lemma NothingDeletesFirst()
    ensures DeletesFirst([])
  {
  }

  lemma OneMoreDeletesFirst(e: Edit, rest: seq<Edit>)
    requires DeletesFirst(rest) && (e.Insert? && rest != [] ==> !rest[0].Delete?)
    ensures DeletesFirst([e] + rest)
  {
    var script := [e] + rest;
    assert forall k :: 0 < k < |script| ==> script[k] == rest[k - 1];
  }

  lemma NoDeletionNext(a: seq<string>, b: seq<string>)
    requires b != [] && (a != [] ==> a[0] != b[0] && LcsLength(a[1..], b) < LcsLength(a, b[1..]))
    ensures var next := Script(a, b[1..]); next != [] ==> !next[0].Delete?
  {
    if a != [] {
      LcsOfTails(a, b);
      if |b| > 1 { LcsOfTails(a, b[1..]); }
    }
  }

  /** A longest common subsequence does not shrink when either list grows by one. */
  lemma {:induction false} LcsOfTails(a: seq<string>, b: seq<string>)
    requires a != [] && b != []
    ensures LcsLength(a[1..], b[1..]) <= LcsLength(a[1..], b) <= LcsLength(a, b)
    ensures LcsLength(a[1..], b[1..]) <= LcsLength(a, b[1..]) <= LcsLength(a, b)
    ensures a[0] != b[0] ==> LcsLength(a, b) == Max(LcsLength(a[1..], b), LcsLength(a, b[1..]))
    decreases |a| + |b|
  {
    LcsShrinks(a[1..], b);
    LcsShrinks(a, b[1..]);
    LcsShrinks(a, b);
  }

  lemma {:induction false} LcsShrinks(a: seq<string>, b: seq<string>)
    ensures b != [] ==> LcsLength(a, b[1..]) <= LcsLength(a, b) <= LcsLength(a, b[1..]) + 1
    ensures a != [] ==> LcsLength(a[1..], b) <= LcsLength(a, b) <= LcsLength(a[1..], b) + 1
    decreases |a| + |b|
  {
    if a != [] && b != [] {
      LcsShrinks(a[1..], b);
      LcsShrinks(a, b[1..]);
      LcsShrinks(a[1..], b[1..]);
    }
  }

  // ---------- Segments ----------

  /** Appends a piece, merging it with the last segment when the kinds agree. */
  function Push(segments: seq<Segment>, kind: Kind, text: string): seq<Segment> {
    var n := |segments|;
    if n > 0 && segments[n - 1].kind == kind
    then segments[..n - 1] + [Segment(kind, segments[n - 1].text + text)]
    else segments + [Segment(kind, text)]
  }

  function OldSegments(script: seq<Edit>): seq<Segment> {
    if script == [] then []
    else
      var n := |script| - 1;
      match script[n]
      case Keep(t) => Push(OldSegments(script[..n]), Equal, t)
      case Delete(t) => Push(OldSegments(script[..n]), Deletion, t)
      case Insert(_) => OldSegments(script[..n])
  }

  function NewSegments(script: seq<Edit>): seq<Segment> {
    if script == [] then []
    else
      var n := |script| - 1;
      match script[n]
      case Keep(t) => Push(NewSegments(script[..n]), Equal, t)
      case Delete(_) => NewSegments(script[..n])
      case Insert(t) => Push(NewSegments(script[..n]), Addition, t)
  }

  /** The text of a side: all its segments in order. */
  function Text(segments: seq<Segment>): string {
    if segments == [] then "" else Text(segments[..|segments| - 1]) + segments[|segments| - 1].text
  }

  /** The text of the segments marked equal. */
  function EqualText(segments: seq<Segment>): string {
    if segments == [] then ""
    else
      var last := segments[|segments| - 1];
      var before := EqualText(segments[..|segments| - 1]);
      if last.kind == Equal then before + last.text else before
  }

  predicate Alternating(segments: seq<Segment>) {
    forall i :: 0 < i < |segments| ==> segments[i - 1].kind != segments[i].kind
  }

  lemma PushAppends(segments: seq<Segment>, kind: Kind, text: string)
    ensures Text(Push(segments, kind, text)) == Text(segments) + text
    ensures EqualText(Push(segments, kind, text)) == if kind == Equal then EqualText(segments) + text
            else EqualText(segments)
    ensures Alternating(segments) ==> Alternating(Push(segments, kind, text))
  {
    var n := |segments|;
    var result := Push(segments, kind, text);
    if n > 0 && segments[n - 1].kind == kind {
      assert result[..n - 1] == segments[..n - 1];
      assert Text(result) == Text(segments[..n - 1]) + (segments[n - 1].text + text);
    } else {
      assert result[..n] == segments;
    }
  }

  lemma {:induction false} SidesSnoc(script: seq<Edit>, e: Edit)
    ensures OldSide(script + [e]) == if e.Insert? then OldSide(script) else OldSide(script) + [e.token]
    ensures NewSide(script + [e]) == if e.Delete? then NewSide(script) else NewSide(script) + [e.token]
    ensures Kept(script + [e]) == if e.Keep? then Kept(script) + [e.token] else Kept(script)
  {
    if script == [] {
      assert [e][1..] == [];
    } else {
      SidesSnoc(script[1..], e);
      assert (script + [e])[1..] == script[1..] + [e];
    }
  }

  lemma SegmentsSnoc(script: seq<Edit>, e: Edit)
    ensures OldSegments(script + [e]) ==
            if e.Insert? then OldSegments(script)
              else Push(OldSegments(script), if e.Keep? then Equal else Deletion, e.token)
    ensures NewSegments(script + [e]) ==
            if e.Delete? then NewSegments(script)
              else Push(NewSegments(script), if e.Keep? then Equal else Addition, e.token)
  {
    assert (script + [e])[..|script|] == script;
  }

  lemma NoSegments()
    ensures OldSegments([]) == NewSegments([]) == []
  {
  }

  /** Merging loses nothing: each side's segments spell its tokens, neighbours differ in
      kind, and both sides mark the same text equal. */
  lemma {:induction false} SegmentsSpellSides(script: seq<Edit>)
    ensures Text(OldSegments(script)) == Concat(OldSide(script))
    ensures Text(NewSegments(script)) == Concat(NewSide(script))
    ensures EqualText(OldSegments(script)) == EqualText(NewSegments(script)) == Concat(Kept(script))
    ensures Alternating(OldSegments(script)) && Alternating(NewSegments(script))
  {
    hide OldSegments, NewSegments, Push;
    if script == [] {
      NoSegments();
    } else {
      var n := |script| - 1;
      var init, e := script[..n], script[n];
      assert script == init + [e];
      SegmentsSpellSides(init);
      SegmentsSnoc(init, e);
      SidesSnoc(init, e);
      ConcatSnoc(OldSide(init), e.token);
      ConcatSnoc(NewSide(init), e.token);
      ConcatSnoc(Kept(init), e.token);
      if !e.Insert? { PushAppends(OldSegments(init), if e.Keep? then Equal else Deletion, e.token); }
      if !e.Delete? { PushAppends(NewSegments(init), if e.Keep? then Equal else Addition, e.token); }
    }
  }

  // ---------- The diff ----------

  predicate FitsTable(a: seq<string>, b: seq<string>) {
    |a| * |b| <= TABLE_LIMIT
  }

  /** What a line pair's word diff is: one segment a side for very long lines, else the
      merged sides of the backtracked script. */
  function Diff(oldText: string, newText: string, c: CharClasses): (seq<Segment>, seq<Segment>) {
    var a, b := Tokens(oldText, c), Tokens(newText, c);
    if !FitsTable(a, b) then ([Segment(Deletion, oldText)], [Segment(Addition, newText)])
    else (OldSegments(Script(a, b)), NewSegments(Script(a, b)))
  }

  /** The word diff is lossless on every pair of texts, and within the size limit the
      tokens it marks equal are a longest common subsequence of the two token lists. */
  lemma DiffIsLosslessAndOptimal(oldText: string, newText: string, c: CharClasses)
    ensures var (o, n) := Diff(oldText, newText, c);
            && Text(o) == oldText && Text(n) == newText
            && Alternating(o) && Alternating(n)
            && EqualText(o) == EqualText(n)
            && (forall s :: s in o ==> s.kind != Addition) && (forall s :: s in n ==> s.kind != Deletion)
    ensures var a, b := Tokens(oldText, c), Tokens(newText, c);
            if |a| * |b| <= 14_400 then
              exists script :: IsOptimalScript(script, a, b) && DeletesFirst(script)
                && Diff(oldText, newText, c) == (OldSegments(script), NewSegments(script))
            else Diff(oldText, newText, c) == ([Segment(Deletion, oldText)], [Segment(Addition, newText)])
  {
    hide IsOptimalScript, Script, LcsLength, Tokens, OldSegments, NewSegments, DeletesFirst;
    var a, b := Tokens(oldText, c), Tokens(newText, c);
    if FitsTable(a, b) {
      ScriptEdits(a, b);
      ScriptIsOptimal(a, b);
      DeletionsComeFirst(a, b);
      SegmentsSpellSides(Script(a, b));
      SegmentKinds(Script(a, b));
    } else {
      OneSegment(Segment(Deletion, oldText));
      OneSegment(Segment(Addition, newText));
    }
  }

  lemma OneSegment(s: Segment)
    requires s.kind != Equal
    ensures Text([s]) == s.text && EqualText([s]) == ""
  {
    assert [s][..0] == [];
  }

  lemma DiffSpellsItsTexts(oldText: string, newText: string, c: CharClasses)
    ensures Text(Diff(oldText, newText, c).0) == oldText
    ensures Text(Diff(oldText, newText, c).1) == newText
  {
    DiffIsLosslessAndOptimal(oldText, newText, c);
  }

  lemma SegmentKinds(script: seq<Edit>)
    ensures forall s :: s in OldSegments(script) ==> s.kind != Addition
    ensures forall s :: s in NewSegments(script) ==> s.kind != Deletion
  {
  }

  // ---------- The 16-bit table ----------

  /** Within the size limit no cell exceeds 120, so storing it in 16 bits is exact. */
  lemma CellsNeverWrap(a: seq<string>, b: seq<string>, i: nat, j: nat)
    requires FitsTable(a, b) && i <= |a| && j <= |b|
    ensures LcsLength(a[i..], b[j..]) <= 120
    ensures LcsLength(a[i..], b[j..]) % CELL_MODULUS == LcsLength(a[i..], b[j..])
  {
    var n := LcsLength(a[i..], b[j..]);
    if n > 120 {
      assert |a| * |b| >= 121 * |b| by { ProductMonotone(|b|, 121, |a|); }
      assert false;
    }
  }

  lemma ProductMonotone(k: nat, x: nat, y: nat)
    requires x <= y
    ensures x * k <= y * k
  {
  }

  lemma CellRecurrence(a: seq<string>, b: seq<string>, i: nat, j: nat)
    requires i < |a| && j < |b|
    ensures LcsLength(a[i..], b[j..]) ==
            if a[i] == b[j] then LcsLength(a[i + 1..], b[j + 1..]) + 1
            else Max(LcsLength(a[i + 1..], b[j..]), LcsLength(a[i..], b[j + 1..]))
  {
    assert a[i..][1..] == a[i + 1..] && b[j..][1..] == b[j + 1..];
  }

  lemma EdgeCells(a: seq<string>, b: seq<string>)
    ensures forall i :: 0 <= i <= |a| ==> LcsLength(a[i..], b[|b|..]) == 0
    ensures forall j :: 0 <= j <= |b| ==> LcsLength(a[|a|..], b[j..]) == 0
  {
  }

  /** Fills the table from its last cell to its first. */
  method FillTable(a: seq<string>, b: seq<string>) returns (table: array2<int>)
    requires FitsTable(a, b)
    ensures fresh(table) && table.Length0 == |a| + 1 && table.Length1 == |b| + 1
    ensures forall i, j :: 0 <= i <= |a| && 0 <= j <= |b| ==> table[i, j] == LcsLength(a[i..], b[j..])
  {
    hide LcsLength;
    EdgeCells(a, b);
    table := new int[|a| + 1, |b| + 1]((_, _) => 0);
    var left := |a|;
    while left > 0
      invariant 0 <= left <= |a|
      invariant forall i, j :: left <= i <= |a| && 0 <= j <= |b| ==> table[i, j] == LcsLength(a[i..], b[j..])
      invariant forall i :: 0 <= i <= |a| ==> table[i, |b|] == 0
    {
      left := left - 1;
      var right := |b|;
      while right > 0
        invariant 0 <= right <= |b|
        invariant forall i, j :: left < i <= |a| && 0 <= j <= |b| ==> table[i, j] == LcsLength(a[i..], b[j..])
        invariant forall j :: right <= j <= |b| ==> table[left, j] == LcsLength(a[left..], b[j..])
        invariant forall i :: 0 <= i <= |a| ==> table[i, |b|] == 0
      {
        right := right - 1;
        CellRecurrence(a, b, left, right);
        CellsNeverWrap(a, b, left, right);
        var cell :=
          if a[left] == b[right] then table[left + 1, right + 1] + 1
          else if table[left + 1, right] >= table[left, right + 1] then table[left + 1, right]
          else table[left, right + 1];
        table[left, right] := cell % CELL_MODULUS;
      }
    }
  }

  /** The backtrack stands at (left, right), has emitted `done`, and holds its two sides. */
  ghost predicate Emitted(done: seq<Edit>, a: seq<string>, b: seq<string>, left: nat, right: nat,
                          oldDiff: seq<Segment>, newDiff: seq<Segment>)
    requires left <= |a| && right <= |b|
  {
    && done + Script(a[left..], b[right..]) == Script(a, b)
    && oldDiff == OldSegments(done)
    && newDiff == NewSegments(done)
  }

  /** Moves the script's next edit to the part already emitted. */
  lemma Emit(done: seq<Edit>, e: Edit, a: seq<string>, b: seq<string>, left: nat, right: nat, l: nat, r: nat,
             oldDiff: seq<Segment>, newDiff: seq<Segment>)
    requires left <= l <= |a| && right <= r <= |b|
    requires Emitted(done, a, b, left, right, oldDiff, newDiff)
    requires Script(a[left..], b[right..]) == [e] + Script(a[l..], b[r..])
    ensures Emitted(done + [e], a, b, l, r,
                    if e.Insert? then oldDiff else Push(oldDiff, if e.Keep? then Equal else Deletion, e.token),
                    if e.Delete? then newDiff else Push(newDiff, if e.Keep? then Equal else Addition, e.token))
  {
    hide Script, OldSegments, NewSegments, Push;
    SegmentsSnoc(done, e);
    assert done + [e] + Script(a[l..], b[r..]) == done + ([e] + Script(a[l..], b[r..]));
  }

  lemma EmitKeep(done: seq<Edit>, a: seq<string>, b: seq<string>, left: nat, right: nat,
                 oldDiff: seq<Segment>, newDiff: seq<Segment>)
    requires left < |a| && right < |b| && a[left] == b[right]
    requires Emitted(done, a, b, left, right, oldDiff, newDiff)
    ensures Emitted(done + [Keep(a[left])], a, b, left + 1, right + 1,
                    Push(oldDiff, Equal, a[left]), Push(newDiff, Equal, b[right]))
  {
    assert a[left..][1..] == a[left + 1..] && b[right..][1..] == b[right + 1..];
    Emit(done, Keep(a[left]), a, b, left, right, left + 1, right + 1, oldDiff, newDiff);
  }

  lemma EmitDelete(done: seq<Edit>, a: seq<string>, b: seq<string>, left: nat, right: nat,
                   oldDiff: seq<Segment>, newDiff: seq<Segment>)
    requires left < |a| && right <= |b|
    requires right == |b|
             || (a[left] != b[right] && LcsLength(a[left + 1..], b[right..]) >= LcsLength(a[left..], b[right + 1..]))
    requires Emitted(done, a, b, left, right, oldDiff, newDiff)
    ensures Emitted(done + [Delete(a[left])], a, b, left + 1, right, Push(oldDiff, Deletion, a[left]), newDiff)
  {
    assert a[left..][1..] == a[left + 1..];
    if right < |b| { assert b[right..][1..] == b[right + 1..]; }
    Emit(done, Delete(a[left]), a, b, left, right, left + 1, right, oldDiff, newDiff);
  }

  lemma EmitInsert(done: seq<Edit>, a: seq<string>, b: seq<string>, left: nat, right: nat,
                   oldDiff: seq<Segment>, newDiff: seq<Segment>)
    requires left <= |a| && right < |b|
    requires left == |a|
             || (a[left] != b[right] && LcsLength(a[left + 1..], b[right..]) < LcsLength(a[left..], b[right + 1..]))
    requires Emitted(done, a, b, left, right, oldDiff, newDiff)
    ensures Emitted(done + [Insert(b[right])], a, b, left, right + 1, oldDiff, Push(newDiff, Addition, b[right]))
  {
    assert b[right..][1..] == b[right + 1..];
    if left < |a| { assert a[left..][1..] == a[left + 1..]; }
    Emit(done, Insert(b[right]), a, b, left, right, left, right + 1, oldDiff, newDiff);
  }

  lemma EmitStart(a: seq<string>, b: seq<string>)
    ensures Emitted([], a, b, 0, 0, [], [])
  {
    assert a[0..] == a && b[0..] == b;
    assert [] + Script(a, b) == Script(a, b);
  }

  lemma EmitEnd(done: seq<Edit>, a: seq<string>, b: seq<string>, oldDiff: seq<Segment>, newDiff: seq<Segment>)
    requires Emitted(done, a, b, |a|, |b|, oldDiff, newDiff)
    ensures oldDiff == OldSegments(Script(a, b)) && newDiff == NewSegments(Script(a, b))
  {
    assert done + [] == done;
  }

  /** Follows the filled table from its first cell and merges pieces as it goes. */
  method Backtrack(a: seq<string>, b: seq<string>, table: array2<int>)
    returns (oldDiff: seq<Segment>, newDiff: seq<Segment>)
    requires table.Length0 == |a| + 1 && table.Length1 == |b| + 1
    requires forall i, j :: 0 <= i <= |a| && 0 <= j <= |b| ==> table[i, j] == LcsLength(a[i..], b[j..])
    ensures oldDiff == OldSegments(Script(a, b)) && newDiff == NewSegments(Script(a, b))
  {
    hide LcsLength, Script, Emitted, OldSegments, NewSegments;
    oldDiff, newDiff := [], [];
    var left, right := 0, 0;
    ghost var done: seq<Edit> := [];
    EmitStart(a, b);
    while left < |a| && right < |b|
      invariant left <= |a| && right <= |b|
      invariant Emitted(done, a, b, left, right, oldDiff, newDiff)
    {
      if a[left] == b[right] {
        EmitKeep(done, a, b, left, right, oldDiff, newDiff);
        done := done + [Keep(a[left])];
        oldDiff, newDiff := Push(oldDiff, Equal, a[left]), Push(newDiff, Equal, b[right]);
        left, right := left + 1, right + 1;
      } else if table[left + 1, right] >= table[left, right + 1] {
        EmitDelete(done, a, b, left, right, oldDiff, newDiff);
        done := done + [Delete(a[left])];
        oldDiff, left := Push(oldDiff, Deletion, a[left]), left + 1;
      } else {
        EmitInsert(done, a, b, left, right, oldDiff, newDiff);
        done := done + [Insert(b[right])];
        newDiff, right := Push(newDiff, Addition, b[right]), right + 1;
      }
    }
    while left < |a|
      invariant left <= |a| && right <= |b| && (left == |a| || right == |b|)
      invariant Emitted(done, a, b, left, right, oldDiff, newDiff)
    {
      EmitDelete(done, a, b, left, right, oldDiff, newDiff);
      done := done + [Delete(a[left])];
      oldDiff, left := Push(oldDiff, Deletion, a[left]), left + 1;
    }
    while right < |b|
      invariant left == |a| && right <= |b|
      invariant Emitted(done, a, b, left, right, oldDiff, newDiff)
    {
      EmitInsert(done, a, b, left, right, oldDiff, newDiff);
      done := done + [Insert(b[right])];
      newDiff, right := Push(newDiff, Addition, b[right]), right + 1;
    }
    EmitEnd(done, a, b, oldDiff, newDiff);
  }

  method InlineWordDiff(oldText: string, newText: string, c: CharClasses)
    returns (oldDiff: seq<Segment>, newDiff: seq<Segment>)
    ensures (oldDiff, newDiff) == Diff(oldText, newText, c)
  {
    var a, b := Tokens(oldText, c), Tokens(newText, c);
    if |a| * |b| > TABLE_LIMIT {
      return [Segment(Deletion, oldText)], [Segment(Addition, newText)];
    }
    var table := FillTable(a, b);
    oldDiff, newDiff := Backtrack(a, b, table);
  }
}
