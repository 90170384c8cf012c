/** Reading a server-sent event stream: decoded chunks go through a line buffer, and the
    `data:` lines are folded into one observation. */
module SseStream {
  import opened Lines

  datatype Parsed<P> = Unparseable | NotARecord | Record(payload: P)

  /** The library calls and the per-payload bookkeeping, which chunking cannot affect. */
  datatype Handlers<!P, !Observation> = Handlers(
    trim: string -> string,
    parse: string -> Parsed<P>,
    observe: (Observation, P) -> Observation,
    countUnparseable: Observation -> Observation)

  const DATA_PREFIX := "data:"
  const DONE_MARK := "[DONE]"

  function ObserveLine<P, O>(h: Handlers<P, O>, line: string, observation: O): O {
    if !(DATA_PREFIX <= line) then observation
    else
      var data := h.trim(line[|DATA_PREFIX|..]);
      if data == "" || data == DONE_MARK then observation
      else match h.parse(data)
        case Unparseable => h.countUnparseable(observation)
        case NotARecord => observation
        case Record(payload) => h.observe(observation, payload)
  }

  function ObserveLines<P, O>(h: Handlers<P, O>, lines: seq<string>, observation: O): O {
    if lines == [] then observation
    else ObserveLines(h, lines[1..], ObserveLine(h, lines[0], observation))
  }

  function Concat(chunks: seq<string>): string {
    if chunks == [] then "" else Concat(chunks[..|chunks| - 1]) + chunks[|chunks| - 1]
  }

  lemma {:induction false} ObserveLinesAppend<P, O>(h: Handlers<P, O>, x: seq<string>, y: seq<string>, o: O)
    ensures ObserveLines(h, x + y, o) == ObserveLines(h, y, ObserveLines(h, x, o))
    decreases |x|
  {
    if x == [] {
      assert x + y == y;
    } else {
      ObserveLinesAppend(h, x[1..], y, ObserveLine(h, x[0], o));
      assert (x + y)[1..] == x[1..] + y;
    }
  }

  /** Whatever the chunks are, the observation is that of the lines of the whole text;
      `flush` is what the decoder yields when the stream ends. */
  method ConsumeSse<P, O>(h: Handlers<P, O>, chunks: seq<string>, flush: string, empty: O) returns (observation: O)
    ensures observation == ObserveLines(h, SplitLines(Concat(chunks) + flush), empty)
  {
    observation := empty;
    var buffer := "";
    var read := 0;
    ghost var complete: seq<string> := [];
    while read < |chunks|
      invariant read <= |chunks|
      invariant Buffered(Concat(chunks[..read]), complete, buffer)
      invariant observation == ObserveLines(h, complete, empty)
    {
      ChunkArrives(Concat(chunks[..read]), complete, buffer, chunks[read]);
      ConcatSnoc(chunks, read);
      var lines := SplitLines(buffer + chunks[read]);
      buffer := Last(lines);
      observation := ObserveAll(h, Init(lines), observation);
      ObserveLinesAppend(h, complete, Init(lines), empty);
      complete := complete + Init(lines);
      read := read + 1;
    }
    assert chunks[..read] == chunks;
    ChunkArrives(Concat(chunks), complete, buffer, flush);
    ObserveLinesAppend(h, complete, SplitLines(buffer + flush), empty);
    observation := ObserveAll(h, SplitLines(buffer + flush), observation);
  }

  /** All lines split so far are complete but the last, which is the buffer. */
  predicate Buffered(text: string, complete: seq<string>, buffer: string) {
    SplitLines(text) == complete + [buffer]
  }

  lemma ChunkArrives(text: string, complete: seq<string>, buffer: string, chunk: string)
    requires Buffered(text, complete, buffer)
    ensures SplitLines(text + chunk) == complete + SplitLines(buffer + chunk)
    ensures Buffered(text + chunk, complete + Init(SplitLines(buffer + chunk)), Last(SplitLines(buffer + chunk)))
  {
    SplitContinues(text, chunk);
    assert Init(complete + [buffer]) == complete;
  }

  lemma ConcatSnoc(chunks: seq<string>, k: nat)
    requires k < |chunks|
    ensures Concat(chunks[..k + 1]) == Concat(chunks[..k]) + chunks[k]
  {
    assert chunks[..k + 1][..k] == chunks[..k];
  }

  method ObserveAll<P, O>(h: Handlers<P, O>, lines: seq<string>, start: O) returns (observation: O)
    ensures observation == ObserveLines(h, lines, start)
  {
    observation := start;
    for i := 0 to |lines|
      invariant ObserveLines(h, lines[i..], observation) == ObserveLines(h, lines, start)
    {
      assert lines[i..][1..] == lines[i + 1..];
      observation := ObserveLine(h, lines[i], observation);
    }
  }

  /** Two ways to cut the same text give the same observation, and so do two texts that
      differ only in which of LF and CRLF ends each line. */
  lemma OnlyTheLinesMatter<P, O>(h: Handlers<P, O>, lines: seq<string>, t1: seq<string>, t2: seq<string>,
                                 cut1: seq<string>, flush1: string, cut2: seq<string>, flush2: string, empty: O)
    requires |lines| == |t1| + 1 == |t2| + 1 && Separated(lines, t1) && Separated(lines, t2)
    requires Concat(cut1) + flush1 == JoinLines(lines, t1)
    requires Concat(cut2) + flush2 == JoinLines(lines, t2)
    ensures ObserveLines(h, SplitLines(Concat(cut1) + flush1), empty) == ObserveLines(h, lines, empty)
    ensures ObserveLines(h, SplitLines(Concat(cut2) + flush2), empty) == ObserveLines(h, lines, empty)
  {
    SplitUndoesJoin(lines, t1);
    SplitUndoesJoin(lines, t2);
  }

  // ---------- What is observed ----------

  /** Only lines that start with "data:" count, and of them not the empty ones and not the mark
      of the end; of the rest each is parsed, and observed or counted as unparseable. */
  lemma OnlyDataIsObserved<P, O>(h: Handlers<P, O>, rest: string, other: string, o: O)
    ensures var data := h.trim(rest);
            ObserveLine(h, "data:" + rest, o) ==
              if data == "" || data == "[DONE]" || h.parse(data).NotARecord? then o
              else if h.parse(data).Record? then h.observe(o, h.parse(data).payload)
              else h.countUnparseable(o)
    ensures |other| < 5 || other[..5] != "data:" ==> ObserveLine(h, other, o) == o
  {
    assert ("data:" + rest)[|DATA_PREFIX|..] == rest;
  }

  /** The stream a server sends for a list of payload texts: one event each, then the mark. */
  function Sent(texts: seq<string>): string {
    if texts == [] then "data: [DONE]\n\n" else "data: " + texts[0] + "\n\n" + Sent(texts[1..])
  }

  /** The payloads observed one after the other. */
  function Observed<P, O>(h: Handlers<P, O>, payloads: seq<P>, o: O): O {
    if payloads == [] then o else Observed(h, payloads[1..], h.observe(o, payloads[0]))
  }

  /** A text that trimming leaves alone but for the blank in front, and that parses. */
  ghost predicate IsEventText<P, O>(h: Handlers<P, O>, text: string, payload: P) {
    && h.trim(" " + text) == text && h.parse(text) == Record(payload)
    && text != "" && text != "[DONE]" && '\n' !in text && !EndsWithCr(text)
  }

  lemma EventLines(prefix: string, text: string, rest: string)
    requires '\n' !in prefix + text && !EndsWithCr(prefix + text)
    ensures SplitLines(prefix + text + "\n\n" + rest) == [prefix + text, ""] + SplitLines(rest)
  {
    assert prefix + text + "\n\n" + rest == (prefix + text) + ['\n'] + ("" + ['\n'] + rest);
    SplitAtNewline(prefix + text, "" + ['\n'] + rest);
    SplitAtNewline("", rest);
  }

  lemma EventIsObserved<P, O>(h: Handlers<P, O>, line: string, rest: seq<string>, o: O)
    ensures ObserveLines(h, [line, ""] + rest, o) == ObserveLines(h, rest, ObserveLine(h, line, o))
  {
    hide ObserveLine;
    assert ([line, ""] + rest)[1..] == [""] + rest && ([""] + rest)[1..] == rest;
    OnlyDataIsObserved(h, "", "", ObserveLine(h, line, o));
  }

  lemma MarkIsObserved<P, O>(h: Handlers<P, O>, o: O)
    requires h.trim(" [DONE]") == "[DONE]"
    ensures ObserveLines(h, SplitLines(Sent([])), o) == o
  {
    hide SplitLines, ObserveLine, ObserveLines;
    var mark := "data: [DONE]";
    EventLines("data: ", "[DONE]", "");
    SplitWithoutNewline("");
    assert Sent([]) == "data: " + "[DONE]" + "\n\n" + "" && mark == "data: " + "[DONE]";
    assert SplitLines(Sent([])) == [mark, ""] + [""];
    EventIsObserved(h, mark, [""], o);
    assert mark == "data:" + " [DONE]";
    OnlyDataIsObserved(h, " [DONE]", "", o);
    NothingMore(h, o);
  }

  lemma {:induction false} SentIsObserved<P, O>(h: Handlers<P, O>, texts: seq<string>, payloads: seq<P>, o: O)
    requires |texts| == |payloads| && forall i :: 0 <= i < |texts| ==> IsEventText(h, texts[i], payloads[i])
    requires h.trim(" [DONE]") == "[DONE]"
    ensures ObserveLines(h, SplitLines(Sent(texts)), o) == Observed(h, payloads, o)
    decreases |texts|
  {
    hide SplitLines, ObserveLine, ObserveLines;
    if texts == [] {
      MarkIsObserved(h, o);
    } else {
      var text, next := texts[0], h.observe(o, payloads[0]);
      assert IsEventText(h, texts[0], payloads[0]);
      SentIsObserved(h, texts[1..], payloads[1..], next);
      EventLines("data: ", text, Sent(texts[1..]));
      EventIsObserved(h, "data: " + text, SplitLines(Sent(texts[1..])), o);
      OnlyDataIsObserved(h, " " + text, "", o);
      assert "data:" + (" " + text) == "data: " + text;
    }
  }

  lemma NothingMore<P, O>(h: Handlers<P, O>, o: O)
    ensures ObserveLines(h, [""], o) == o
  {
    assert [""][1..] == [];
    OnlyDataIsObserved(h, "", "", o);
  }

  /** However the stream is cut into chunks: every payload sent is observed once and in order, and
      nothing else is. */
  lemma EveryPayloadIsObserved<P, O>(h: Handlers<P, O>, texts: seq<string>, payloads: seq<P>, chunks: seq<string>,
                                     flush: string, o: O)
    requires |texts| == |payloads| && forall i :: 0 <= i < |texts| ==> IsEventText(h, texts[i], payloads[i])
    requires h.trim(" [DONE]") == "[DONE]" && Concat(chunks) + flush == Sent(texts)
    ensures ObserveLines(h, SplitLines(Concat(chunks) + flush), o) == Observed(h, payloads, o)
  {
    SentIsObserved(h, texts, payloads, o);
  }
}
