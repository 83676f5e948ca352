/** The completion relay's vocabulary and its upstream line decoder, as pure
    functions: how the text chunks of an upstream event stream turn into
    chunk and complete events on the push channel and assistant turns in
    the session history. The server's `/chat` handler runs this decoder as a
    loop (module Server) and is proved equal to `Decode`. */
module Relay {
  import opened JsText
  import opened Wrappers

  datatype Role = User | Assistant

  /** One entry of a session's conversation history. */
  datatype Turn = Turn(role: Role, content: string)

  /** What the server writes on a push channel. */
  datatype Event = Connected | Chunk(content: string) | Complete | Error(message: string)

  /** The outcome of `JSON.parse(data)` followed by reading
      `parsed.choices?.[0]?.delta?.content`: either the parse throws, or it
      succeeds and the delta text may be absent. */
  datatype ParseResult = ParseFailure | Parsed(delta: Option<string>)

  /** The prefix every data-bearing upstream line must carry. */
  const DataPrefix: string := "data: "

  /** The payload that ends an upstream reply. */
  const DoneSentinel: string := "[DONE]"

  /** The one line that carries the sentinel. */
  const DoneLine: string := DataPrefix + DoneSentinel

  /** The decoder's state: the `assistantMessage` accumulator, the session
      history and what has been written on the channel. */
  datatype DecodeState = DecodeState(acc: string, history: seq<Turn>, events: seq<Event>)

  /** What the decoder does with one line. */
  datatype LineKind = Ignored | Done | Delta(content: string)

  /** The text after the `data: ` prefix (`line.slice(6)`). */
  function Payload(line: string): string {
    if |line| >= |DataPrefix| then line[|DataPrefix|..] else []
  }

  /** The tests of the inner loop, in the order the handler makes them:
      blank after trimming, missing prefix, the sentinel, a parse failure, a
      missing or empty delta. */
  function Classify(line: string, parse: string -> ParseResult): LineKind {
    if Trim(line) == [] then Ignored
    else if !StartsWith(line, DataPrefix) then Ignored
    else if Payload(line) == DoneSentinel then Done
    else match parse(Payload(line))
      case ParseFailure => Ignored
      case Parsed(None) => Ignored
      case Parsed(Some(c)) => if c == [] then Ignored else Delta(c)
  }

  /** The inner `for` loop over the lines of one text chunk. The sentinel
      appends the accumulated text as an assistant turn, writes `complete`
      and stops this loop only: the rest of the chunk's lines are dropped. */
  function ProcessLines(st: DecodeState, lines: seq<string>, parse: string -> ParseResult): DecodeState
    decreases |lines|
  {
    if lines == [] then st
    else match Classify(lines[0], parse)
      case Ignored => ProcessLines(st, lines[1..], parse)
      case Delta(c) =>
        ProcessLines(DecodeState(st.acc + c, st.history, st.events + [Chunk(c)]), lines[1..], parse)
      case Done =>
        DecodeState(st.acc, st.history + [Turn(Assistant, st.acc)], st.events + [Complete])
  }

  /** The outer `while (true)` loop: every text chunk is split on `\n` and
      its lines processed; reading goes on after a sentinel until the body
      ends, and the accumulator is never reset. */
  function Decode(st: DecodeState, chunks: seq<string>, parse: string -> ParseResult): DecodeState
    decreases |chunks|
  {
    if chunks == [] then st
    else Decode(ProcessLines(st, Split(chunks[0], '\n'), parse), chunks[1..], parse)
  }

  // ---------------------------------------------------------------------
  // Reading the channel: what a listener can reconstruct from the events.

  /** The concatenation, in order, of the contents of the chunk events. */
  function ChunkText(evs: seq<Event>): string {
    if evs == [] then []
    else ChunkText(evs[..|evs| - 1]) + (if evs[|evs| - 1].Chunk? then evs[|evs| - 1].content else [])
  }

  /** The assistant turns a listener would expect in the history: one per
      `complete` event, holding all chunk text written before it. */
  function TurnsOf(evs: seq<Event>): seq<Turn> {
    if evs == [] then []
    else
      var init := evs[..|evs| - 1];
      TurnsOf(init) + (if evs[|evs| - 1].Complete? then [Turn(Assistant, ChunkText(init))] else [])
  }

  /** The number of `complete` events. */
  function CountComplete(evs: seq<Event>): nat {
    if evs == [] then 0
    else CountComplete(evs[..|evs| - 1]) + (if evs[|evs| - 1].Complete? then 1 else 0)
  }

  /** Only chunk and complete events. */
  predicate OnlyRelayEvents(evs: seq<Event>) {
    forall i :: 0 <= i < |evs| ==> evs[i].Chunk? || evs[i].Complete?
  }

  /** Starting from history `h0` and channel `e0`, everything the decoder
      has written is a chunk or a complete event, the accumulator holds all
      chunk text written, and the history has grown by exactly the turns a
      listener reconstructs from those events. */
  predicate Tracks(st: DecodeState, h0: seq<Turn>, e0: seq<Event>) {
    && |e0| <= |st.events| && st.events[..|e0|] == e0
    && var n := st.events[|e0|..];
       OnlyRelayEvents(n) && st.acc == ChunkText(n) && st.history == h0 + TurnsOf(n)
  }

  lemma ChunkTextAppend(evs: seq<Event>, e: Event)
    ensures ChunkText(evs + [e]) == ChunkText(evs) + (if e.Chunk? then e.content else [])
    ensures TurnsOf(evs + [e]) == TurnsOf(evs) + (if e.Complete? then [Turn(Assistant, ChunkText(evs))] else [])
    ensures CountComplete(evs + [e]) == CountComplete(evs) + (if e.Complete? then 1 else 0)
  {
    assert (evs + [e])[..|evs|] == evs;
  }

  /** Writing one more event keeps `Tracks`, provided the state moves the
      way the decoder moves it. */
  lemma TracksAppend(st: DecodeState, h0: seq<Turn>, e0: seq<Event>, e: Event, st': DecodeState)
    requires Tracks(st, h0, e0)
    requires e.Chunk? || e.Complete?
    requires st'.events == st.events + [e]
    requires st'.acc == st.acc + (if e.Chunk? then e.content else [])
    requires st'.history == st.history + (if e.Complete? then [Turn(Assistant, st.acc)] else [])
    ensures Tracks(st', h0, e0)
  {
    var n := st.events[|e0|..];
    var n' := st'.events[|e0|..];
    assert st'.events[..|e0|] == st.events[..|e0|];
    assert n' == n + [e];
    forall i | 0 <= i < |n'| ensures n'[i].Chunk? || n'[i].Complete? {
      if i < |n| { assert n'[i] == n[i]; }
    }
    ChunkTextAppend(n, e);
  }

  lemma {:induction false} ProcessLinesTracks(st: DecodeState, lines: seq<string>, parse: string -> ParseResult, h0: seq<Turn>, e0: seq<Event>)
    requires Tracks(st, h0, e0)
    ensures Tracks(ProcessLines(st, lines, parse), h0, e0)
    decreases |lines|
  {
    if lines != [] {
      match Classify(lines[0], parse)
      case Ignored => ProcessLinesTracks(st, lines[1..], parse, h0, e0);
      case Delta(c) =>
        var st' := DecodeState(st.acc + c, st.history, st.events + [Chunk(c)]);
        TracksAppend(st, h0, e0, Chunk(c), st');
        ProcessLinesTracks(st', lines[1..], parse, h0, e0);
      case Done =>
        TracksAppend(st, h0, e0, Complete, ProcessLines(st, lines, parse));
    }
  }

  lemma {:induction false} DecodeTracks(st: DecodeState, chunks: seq<string>, parse: string -> ParseResult, h0: seq<Turn>, e0: seq<Event>)
    requires Tracks(st, h0, e0)
    ensures Tracks(Decode(st, chunks, parse), h0, e0)
    decreases |chunks|
  {
    if chunks != [] {
      var st' := ProcessLines(st, Split(chunks[0], '\n'), parse);
      ProcessLinesTracks(st, Split(chunks[0], '\n'), parse, h0, e0);
      DecodeTracks(st', chunks[1..], parse, h0, e0);
    }
  }

  /** The relay's main guarantee for one exchange. Whatever the upstream
      sends, the decoder only appends to the channel, writes only chunk and
      complete events, and appends to the history exactly one assistant turn
      per complete event, whose content is the concatenation of every chunk
      event written before it in this exchange (no drop, no duplicate, no
      reordering); the accumulator ends as the concatenation of all chunks. */
  lemma DecodeFromStart(history: seq<Turn>, events: seq<Event>, chunks: seq<string>, parse: string -> ParseResult)
    ensures var r := Decode(DecodeState([], history, events), chunks, parse);
      && |events| <= |r.events| && r.events[..|events|] == events
      && OnlyRelayEvents(r.events[|events|..])
      && r.history == history + TurnsOf(r.events[|events|..])
      && r.acc == ChunkText(r.events[|events|..])
  {
    var st := DecodeState([], history, events);
    assert st.events[|events|..] == [];
    DecodeTracks(st, chunks, parse, history, events);
  }

  // ---------------------------------------------------------------------
  // How many replies: sentinels per chunk.

  /** The number of text chunks with at least one sentinel line. */
  function DoneChunks(chunks: seq<string>): nat {
    if chunks == [] then 0
    else (if DoneLine in Split(chunks[0], '\n') then 1 else 0) + DoneChunks(chunks[1..])
  }

  lemma DoneLineIsDone(parse: string -> ParseResult)
    ensures Classify(DoneLine, parse) == Done
  {
    assert DoneLine[0] == 'd';
    assert DoneLine[..|DataPrefix|] == DataPrefix;
    assert Payload(DoneLine) == DoneSentinel;
  }

  /** Only the exact line `data: [DONE]` acts as the sentinel. */
  lemma DoneIffDoneLine(line: string, parse: string -> ParseResult)
    ensures Classify(line, parse) == Done <==> line == DoneLine
  {
    if Classify(line, parse) == Done {
      assert line == line[..|DataPrefix|] + line[|DataPrefix|..];
    }
    if line == DoneLine {
      DoneLineIsDone(parse);
    }
  }

  lemma {:induction false} ProcessLinesCount(st: DecodeState, lines: seq<string>, parse: string -> ParseResult)
    ensures var r := ProcessLines(st, lines, parse);
      var k := if DoneLine in lines then 1 else 0;
      |r.history| == |st.history| + k && CountComplete(r.events) == CountComplete(st.events) + k
    decreases |lines|
  {
    if lines != [] {
      DoneIffDoneLine(lines[0], parse);
      assert DoneLine in lines <==> lines[0] == DoneLine || DoneLine in lines[1..];
      match Classify(lines[0], parse)
      case Ignored =>
        ProcessLinesCount(st, lines[1..], parse);
      case Delta(c) =>
        var st' := DecodeState(st.acc + c, st.history, st.events + [Chunk(c)]);
        ChunkTextAppend(st.events, Chunk(c));
        ProcessLinesCount(st', lines[1..], parse);
      case Done =>
        ChunkTextAppend(st.events, Complete);
    }
  }

  /** Because the sentinel's `break` leaves only the loop over the lines of
      one chunk, the history gains one assistant turn, and the channel one
      complete event, for every text chunk holding a `data: [DONE]` line;
      a second sentinel in the same chunk adds nothing. */
  lemma {:induction false} DecodeCountsDoneChunks(st: DecodeState, chunks: seq<string>, parse: string -> ParseResult)
    ensures var r := Decode(st, chunks, parse);
      && |r.history| == |st.history| + DoneChunks(chunks)
      && CountComplete(r.events) == CountComplete(st.events) + DoneChunks(chunks)
    decreases |chunks|
  {
    if chunks != [] {
      var st' := ProcessLines(st, Split(chunks[0], '\n'), parse);
      ProcessLinesCount(st, Split(chunks[0], '\n'), parse);
      DecodeCountsDoneChunks(st', chunks[1..], parse);
    }
  }

  /** A body that ends without a sentinel line records no assistant turn
      and writes no complete event: the history stays as it was. */
  lemma NoSentinelNoReply(history: seq<Turn>, events: seq<Event>, chunks: seq<string>, parse: string -> ParseResult)
    requires forall i :: 0 <= i < |chunks| ==> DoneLine !in Split(chunks[i], '\n')
    ensures var r := Decode(DecodeState([], history, events), chunks, parse);
      r.history == history && CountComplete(r.events) == CountComplete(events)
  {
    var st := DecodeState([], history, events);
    NoDoneChunks(chunks);
    DecodeCountsDoneChunks(st, chunks, parse);
    DecodeFromStart(history, events, chunks, parse);
  }

  lemma {:induction false} NoDoneChunks(chunks: seq<string>)
    requires forall i :: 0 <= i < |chunks| ==> DoneLine !in Split(chunks[i], '\n')
    ensures DoneChunks(chunks) == 0
  {
    if chunks != [] {
      assert DoneLine !in Split(chunks[0], '\n');
      NoDoneChunks(chunks[1..]);
    }
  }

  // ---------------------------------------------------------------------
  // Line-level rules.

  /** A line the decoder passes over: blank after trimming, without the
      `data: ` prefix, or a non-sentinel payload that fails to parse or
      carries no (or an empty) delta. */
  predicate Skippable(line: string, parse: string -> ParseResult) {
    || Trim(line) == []
    || !StartsWith(line, DataPrefix)
    || (Payload(line) != DoneSentinel
        && (parse(Payload(line)).ParseFailure?
            || parse(Payload(line)).delta.None?
            || parse(Payload(line)).delta.value == []))
  }

  /** A skippable line, wherever it stands, can be removed without changing
      anything the decoder does: in particular a malformed line costs only
      itself, and the lines after it are still decoded. */
  lemma {:induction false} SkippableLineIsInert(st: DecodeState, pre: seq<string>, line: string, post: seq<string>, parse: string -> ParseResult)
    requires Skippable(line, parse)
    ensures ProcessLines(st, pre + [line] + post, parse) == ProcessLines(st, pre + post, parse)
    decreases |pre|
  {
    if pre == [] {
      assert Classify(line, parse) == Ignored;
      assert ([line] + post)[1..] == post;
      assert pre + [line] + post == [line] + post;
      assert pre + post == post;
    } else {
      var l := pre + [line] + post;
      var m := pre + post;
      assert l[0] == m[0] == pre[0];
      assert l[1..] == pre[1..] + [line] + post;
      assert m[1..] == pre[1..] + post;
      match Classify(pre[0], parse)
      case Ignored =>
        SkippableLineIsInert(st, pre[1..], line, post, parse);
      case Delta(c) =>
        SkippableLineIsInert(DecodeState(st.acc + c, st.history, st.events + [Chunk(c)]), pre[1..], line, post, parse);
      case Done =>
    }
  }

  /** The lines after a sentinel line in the same text chunk are never
      looked at. */
  lemma {:induction false} LinesAfterSentinelDropped(st: DecodeState, pre: seq<string>, post: seq<string>, parse: string -> ParseResult)
    ensures ProcessLines(st, pre + [DoneLine] + post, parse) == ProcessLines(st, pre + [DoneLine], parse)
    decreases |pre|
  {
    if pre == [] {
      DoneLineIsDone(parse);
      assert (pre + [DoneLine] + post)[0] == DoneLine;
      assert (pre + [DoneLine])[0] == DoneLine;
    } else {
      var l := pre + [DoneLine] + post;
      var m := pre + [DoneLine];
      assert l[0] == m[0] == pre[0];
      assert l[1..] == pre[1..] + [DoneLine] + post;
      assert m[1..] == pre[1..] + [DoneLine];
      match Classify(pre[0], parse)
      case Ignored =>
        LinesAfterSentinelDropped(st, pre[1..], post, parse);
      case Delta(c) =>
        LinesAfterSentinelDropped(DecodeState(st.acc + c, st.history, st.events + [Chunk(c)]), pre[1..], post, parse);
      case Done =>
    }
  }

  /** The non-empty deltas of a chunk's lines up to its first sentinel, in
      line order: a reference for what the chunk events must be. */
  function Deltas(lines: seq<string>, parse: string -> ParseResult): seq<string> {
    if lines == [] || lines[0] == DoneLine then []
    else
      var p := parse(Payload(lines[0]));
      (if !Skippable(lines[0], parse) then [p.delta.value] else []) + Deltas(lines[1..], parse)
  }

  /** The chunk events of one text chunk, one per delta. */
  function ChunkEvents(ds: seq<string>): seq<Event> {
    if ds == [] then [] else [Chunk(ds[0])] + ChunkEvents(ds[1..])
  }

  /** One text chunk writes, in order, a chunk event for each non-empty
      delta before its first sentinel, followed by one complete event when
      it holds a sentinel line, and nothing else. */
  lemma {:induction false} ProcessLinesEvents(st: DecodeState, lines: seq<string>, parse: string -> ParseResult)
    ensures ProcessLines(st, lines, parse).events
      == st.events + ChunkEvents(Deltas(lines, parse)) + (if DoneLine in lines then [Complete] else [])
    decreases |lines|
  {
    if lines != [] {
      DoneIffDoneLine(lines[0], parse);
      if lines[0] == DoneLine {
        assert Deltas(lines, parse) == [];
      } else {
        assert DoneLine in lines <==> DoneLine in lines[1..];
        var ds := Deltas(lines[1..], parse);
        match Classify(lines[0], parse)
        case Ignored =>
          assert Deltas(lines, parse) == ds;
          ProcessLinesEvents(st, lines[1..], parse);
        case Delta(c) =>
          assert Deltas(lines, parse) == [c] + ds;
          assert ChunkEvents([c] + ds) == [Chunk(c)] + ChunkEvents(ds);
          ProcessLinesEvents(DecodeState(st.acc + c, st.history, st.events + [Chunk(c)]), lines[1..], parse);
      }
    }
  }
}

/** A worked exchange: two data lines carrying "Hel" and "lo", then the
    sentinel, each in its own text chunk. */
module RelayExample {
  import opened JsText
  import opened Wrappers
  import opened Relay

  /** A `data: ` line whose payload is not the sentinel and holds no line
      break is one line, and is classified by what its payload parses to. */
  lemma DataLine(json: string, parse: string -> ParseResult)
    requires '\n' !in json && json != DoneSentinel
    ensures Split(DataPrefix + json, '\n') == [DataPrefix + json]
    ensures Payload(DataPrefix + json) == json
    ensures parse(json).Parsed? && parse(json).delta.Some? && parse(json).delta.value != [] ==>
      Classify(DataPrefix + json, parse) == Delta(parse(json).delta.value)
  {
    var line := DataPrefix + json;
    assert line[|DataPrefix|..] == json;
    assert line[..|DataPrefix|] == DataPrefix;
    SplitWhole(line, '\n');
    TrimEmptyIffBlank(line);
    assert !IsJsWhitespace(line[0]);
  }

  lemma DecodeOneMore(st: DecodeState, chunk: string, rest: seq<string>, parse: string -> ParseResult)
    ensures Decode(st, [chunk] + rest, parse) == Decode(ProcessLines(st, Split(chunk, '\n'), parse), rest, parse)
  {
    assert ([chunk] + rest)[1..] == rest;
  }

  lemma OneDeltaLine(st: DecodeState, line: string, c: string, parse: string -> ParseResult)
    requires Classify(line, parse) == Delta(c)
    ensures ProcessLines(st, [line], parse) == DecodeState(st.acc + c, st.history, st.events + [Chunk(c)])
  {
    assert [line][1..] == [];
  }

  lemma OneDoneLine(st: DecodeState, parse: string -> ParseResult)
    ensures ProcessLines(st, [DoneLine], parse)
      == DecodeState(st.acc, st.history + [Turn(Assistant, st.acc)], st.events + [Complete])
  {
    DoneLineIsDone(parse);
  }

  lemma DoneChunkIsOneLine()
    ensures Split(DoneLine, '\n') == [DoneLine]
  {
    SplitWhole(DoneLine, '\n');
  }

  /** A text chunk made of one data line with a non-empty delta writes one
      chunk event and grows the accumulator. */
  lemma DeltaChunk(st: DecodeState, json: string, c: string, chunks: seq<string>, parse: string -> ParseResult)
    requires '\n' !in json && json != DoneSentinel
    requires parse(json) == Parsed(Some(c)) && c != []
    requires |chunks| >= 1 && chunks[0] == DataPrefix + json
    ensures Decode(st, chunks, parse)
      == Decode(DecodeState(st.acc + c, st.history, st.events + [Chunk(c)]), chunks[1..], parse)
  {
    DataLine(json, parse);
    OneDeltaLine(st, DataPrefix + json, c, parse);
  }

  /** A text chunk made of the sentinel line alone closes the reply. */
  lemma DoneChunk(st: DecodeState, parse: string -> ParseResult)
    ensures Decode(st, [DoneLine], parse)
      == DecodeState(st.acc, st.history + [Turn(Assistant, st.acc)], st.events + [Complete])
  {
    DoneChunkIsOneLine();
    OneDoneLine(st, parse);
    DecodeOneMore(st, DoneLine, [], parse);
    assert [DoneLine] + [] == [DoneLine];
  }

  /** Two data lines with non-empty deltas `a` and `b`, then the
      sentinel, each in its own text chunk: two chunk events and a complete
      event, and one assistant turn holding `a + b`. */
  lemma TwoDeltaExchange(st: DecodeState, j1: string, j2: string, a: string, b: string, parse: string -> ParseResult)
    requires '\n' !in j1 && '\n' !in j2 && j1 != DoneSentinel && j2 != DoneSentinel
    requires parse(j1) == Parsed(Some(a)) && parse(j2) == Parsed(Some(b)) && a != [] && b != []
    ensures Decode(st, [DataPrefix + j1, DataPrefix + j2, DoneLine], parse)
      == DecodeState(st.acc + a + b, st.history + [Turn(Assistant, st.acc + a + b)],
                     st.events + [Chunk(a), Chunk(b), Complete])
  {
    var chunks := [DataPrefix + j1, DataPrefix + j2, DoneLine];
    var s1 := DecodeState(st.acc + a, st.history, st.events + [Chunk(a)]);
    var s2 := DecodeState(st.acc + a + b, st.history, st.events + [Chunk(a)] + [Chunk(b)]);
    assert Decode(st, chunks, parse) == Decode(s1, chunks[1..], parse) by {
      DeltaChunk(st, j1, a, chunks, parse);
    }
    assert Decode(s1, chunks[1..], parse) == Decode(s2, [DoneLine], parse) by {
      DeltaChunk(s1, j2, b, chunks[1..], parse);
      assert chunks[1..][1..] == [DoneLine];
    }
    assert Decode(s2, [DoneLine], parse)
      == DecodeState(st.acc + a + b, st.history + [Turn(Assistant, st.acc + a + b)],
                     st.events + [Chunk(a), Chunk(b), Complete]) by {
      DoneChunk(s2, parse);
      assert st.events + [Chunk(a)] + [Chunk(b)] + [Complete] == st.events + [Chunk(a), Chunk(b), Complete];
    }
  }

  /** The sample exchange: after the user turn "hi", deltas "Hel" and "lo"
      and the sentinel give two chunk events and one complete event, and
      the history gains the assistant turn "Hello". */
  lemma HelloExchange(j1: string, j2: string, parse: string -> ParseResult)
    requires '\n' !in j1 && '\n' !in j2 && j1 != DoneSentinel && j2 != DoneSentinel
    requires parse(j1) == Parsed(Some("Hel")) && parse(j2) == Parsed(Some("lo"))
    ensures Decode(DecodeState([], [Turn(User, "hi")], [Connected]), [DataPrefix + j1, DataPrefix + j2, DoneLine], parse)
      == DecodeState("Hello", [Turn(User, "hi"), Turn(Assistant, "Hello")],
                     [Connected, Chunk("Hel"), Chunk("lo"), Complete])
  {
    TwoDeltaExchange(DecodeState([], [Turn(User, "hi")], [Connected]), j1, j2, "Hel", "lo", parse);
    assert [] + "Hel" + "lo" == "Hello";
  }
}
