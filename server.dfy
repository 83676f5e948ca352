/** The relay server of cookbook/project1/index.js: the two process-wide maps
    (session id to history, session id to push channel), the `/stream`
    handler that registers a channel, its close callback, and the `/chat`
    handler that records the user turn and relays one upstream reply. */
module Server {
  import opened JsText
  import opened Relay

  /** The synchronous answer to a request. */
  datatype Response =
    | EventStream               // 200 with an event-stream body held open
    | Success                   // 200 `{success: true}`
    | BadRequest(error: string) // 400 `{error}`
    | ServerError(error: string) // 500 `{error}`

  /** What the upstream `fetch` yields: it throws, answers with a non-OK
      status, or streams a body whose text chunks are read one by one; a
      body whose `readError` is set throws on the read after its last chunk
      instead of reporting `done`. */
  datatype Upstream =
    | FetchFailed(message: string)
    | NotOk(statusText: string)
    | Streamed(chunks: seq<string>, readError: bool)

  const StreamIdRequired: string := "sessionId is required"
  const ChatFieldsRequired: string := "sessionId and message are required"
  const NoChannelFound: string := "No SSE connection found for session"
  const UpstreamErrorPrefix: string := "OpenRouter API error: "
  const StreamingErrorMessage: string := "Streaming error occurred"

  /** One open `/stream` response: the events written to it so far, and
      the session id its close callback captured. */
  class Channel {
    const sessionId: string
    var events: seq<Event>

    constructor (sessionId: string)
      ensures this.sessionId == sessionId && events == []
    {
      this.sessionId := sessionId;
      events := [];
    }

    /** `res.write(...)`. */
    method Write(e: Event)
      modifies this
      ensures events == old(events) + [e]
    {
      events := events + [e];
    }
  }

  /** The history a session has, an unknown session counting as empty. */
  function HistoryOf(sessions: map<string, seq<Turn>>, sessionId: string): seq<Turn> {
    if sessionId in sessions then sessions[sessionId] else []
  }

  class Server {
    /** `sessionStore`: session id to conversation history. */
    var sessions: map<string, seq<Turn>>
    /** `sseConnections`: session id to its most recently opened channel. */
    var connections: map<string, Channel>

    constructor ()
      ensures sessions == map[] && connections == map[]
    {
      sessions := map[];
      connections := map[];
    }

    /** The channel registered for `sessionId`, as a frame. */
    function ChannelOf(sessionId: string): set<Channel>
      reads this
    {
      if sessionId in connections then {connections[sessionId]} else {}
    }

    /** GET /stream: a missing id is refused and nothing changes; otherwise
        a new channel replaces any earlier one for the id, its first event
        is `connected`, and no session is created. */
    method Stream(sessionId: string) returns (resp: Response, ch: Channel?)
      modifies this
      ensures sessions == old(sessions)
      ensures sessionId == [] ==>
        resp == BadRequest(StreamIdRequired) && ch == null && connections == old(connections)
      ensures sessionId != [] ==>
        && resp == EventStream && ch != null && fresh(ch)
        && ch.sessionId == sessionId && ch.events == [Connected]
        && connections == old(connections)[sessionId := ch]
    {
      if sessionId == [] {
        return BadRequest(StreamIdRequired), null;
      }
      ch := new Channel(sessionId);
      connections := connections[sessionId := ch];
      ch.Write(Connected);
      resp := EventStream;
    }

    /** The `close` callback of a channel: it removes whatever channel is
        registered under the id it captured, even one that a later
        `/stream` request installed in place of `ch`. */
    method OnClose(ch: Channel)
      modifies this
      ensures sessions == old(sessions)
      ensures connections == old(connections) - {ch.sessionId}
    {
      connections := connections - {ch.sessionId};
    }

    /** POST /chat. A missing id or message is refused with nothing changed.
        Otherwise the user turn is appended (creating the session when
        unknown) before the channel is looked up, so a refusal for want of
        a channel still leaves it in the history. `fetch` receives the whole
        history. A failed or non-OK upstream answers 500 and writes nothing
        on the channel. A streamed body is decoded as `Decode` says; a read
        error then adds one `error` event, and the request is answered with
        success either way. */
    method Chat(sessionId: string, message: string, fetch: seq<Turn> -> Upstream, parse: string -> ParseResult)
      returns (resp: Response)
      modifies this, ChannelOf(sessionId)
      ensures connections == old(connections)
      ensures sessionId == [] || message == [] ==>
        resp == BadRequest(ChatFieldsRequired) && sessions == old(sessions)
        && forall c :: c in old(ChannelOf(sessionId)) ==> c.events == old(c.events)
      ensures sessionId != [] && message != [] && sessionId !in connections ==>
        && resp == BadRequest(NoChannelFound)
        && sessions == old(sessions)[sessionId := HistoryOf(old(sessions), sessionId) + [Turn(User, message)]]
      ensures sessionId != [] && message != [] && sessionId in connections ==>
        var ch := connections[sessionId];
        var h := HistoryOf(old(sessions), sessionId) + [Turn(User, message)];
        match fetch(h)
        case FetchFailed(m) =>
          resp == ServerError(m) && sessions == old(sessions)[sessionId := h] && ch.events == old(ch.events)
        case NotOk(t) =>
          resp == ServerError(UpstreamErrorPrefix + t) && sessions == old(sessions)[sessionId := h]
          && ch.events == old(ch.events)
        case Streamed(chunks, readError) =>
          var d := Decode(DecodeState([], h, old(ch.events)), chunks, parse);
          && resp == Success
          && sessions == old(sessions)[sessionId := d.history]
          && ch.events == d.events + (if readError then [Error(StreamingErrorMessage)] else [])
    {
      if sessionId == [] || message == [] {
        return BadRequest(ChatFieldsRequired);
      }
      RecordUserTurn(sessionId, message);
      if sessionId !in connections {
        return BadRequest(NoChannelFound);
      }
      var ch := connections[sessionId];
      var h := sessions[sessionId];
      var response := fetch(h);
      match response
      case FetchFailed(m) =>
        return ServerError(m);
      case NotOk(t) =>
        return ServerError(UpstreamErrorPrefix + t);
      case Streamed(chunks, readError) =>
        Pump(sessionId, ch, chunks, parse);
        if readError {
          ch.Write(Error(StreamingErrorMessage));
        }
        resp := Success;
    }

    /** Creates the session with an empty history when it is unknown, then
        appends the user turn to its history. */
    method RecordUserTurn(sessionId: string, message: string)
      modifies this
      ensures connections == old(connections)
      ensures sessions == old(sessions)[sessionId := HistoryOf(old(sessions), sessionId) + [Turn(User, message)]]
    {
      if sessionId !in sessions {
        sessions := sessions[sessionId := []];
      }
      sessions := sessions[sessionId := sessions[sessionId] + [Turn(User, message)]];
    }

    /** The decoding loop of `/chat`: reads every text chunk of the body,
        writes on `ch` and appends to the session's history exactly as
        `Decode` says, starting from an empty accumulator. */
    method Pump(sessionId: string, ch: Channel, chunks: seq<string>, parse: string -> ParseResult)
      requires sessionId in sessions
      modifies this, ch
      ensures connections == old(connections) && sessionId in sessions
      ensures var d := Decode(DecodeState([], old(sessions[sessionId]), old(ch.events)), chunks, parse);
        sessions == old(sessions)[sessionId := d.history] && ch.events == d.events
    {
      ghost var target := Decode(DecodeState([], sessions[sessionId], ch.events), chunks, parse);
      var assistantMessage: string := [];
      var i := 0;
      while i < |chunks|
        invariant 0 <= i <= |chunks|
        invariant sessionId in sessions && connections == old(connections)
        invariant sessions == old(sessions)[sessionId := sessions[sessionId]]
        invariant Decode(DecodeState(assistantMessage, sessions[sessionId], ch.events), chunks[i..], parse) == target
        decreases |chunks| - i
      {
        assert chunks[i..][1..] == chunks[i + 1..];
        assistantMessage := PumpLines(sessionId, ch, assistantMessage, Split(chunks[i], '\n'), parse);
        i := i + 1;
      }
      assert chunks[i..] == [];
    }

    /** The inner loop over the lines of one text chunk, with the
        accumulator `acc` carried in and out; the sentinel ends it. */
    method PumpLines(sessionId: string, ch: Channel, acc: string, lines: seq<string>, parse: string -> ParseResult)
      returns (acc': string)
      requires sessionId in sessions
      modifies this, ch
      ensures connections == old(connections) && sessionId in sessions
      ensures var d := ProcessLines(DecodeState(acc, old(sessions[sessionId]), old(ch.events)), lines, parse);
        && sessions == old(sessions)[sessionId := d.history]
        && ch.events == d.events && acc' == d.acc
    {
      ghost var start := DecodeState(acc, sessions[sessionId], ch.events);
      acc' := acc;
      var j := 0;
      var done := false;
      while j < |lines| && !done
        invariant 0 <= j <= |lines|
        invariant sessionId in sessions && connections == old(connections)
        invariant sessions == old(sessions)[sessionId := sessions[sessionId]]
        invariant var cur := DecodeState(acc', sessions[sessionId], ch.events);
          if done then cur == ProcessLines(start, lines, parse)
          else ProcessLines(cur, lines[j..], parse) == ProcessLines(start, lines, parse)
        decreases |lines| - j, !done
      {
        assert lines[j..][0] == lines[j] && lines[j..][1..] == lines[j + 1..];
        match Classify(lines[j], parse)
        case Ignored =>
          j := j + 1;
        case Delta(c) =>
          acc' := acc' + c;
          ch.Write(Chunk(c));
          j := j + 1;
        case Done =>
          sessions := sessions[sessionId := sessions[sessionId] + [Turn(Assistant, acc')]];
          ch.Write(Complete);
          done := true;
      }
      assert !done ==> lines[j..] == [];
    }
  }

  /** A page reload opens a second channel for the same session before the
      first one's close callback fires: that callback then removes the new
      channel, and the session is left without one. */
  method StaleCloseDropsNewChannel(s: Server, sessionId: string)
    requires sessionId != []
    modifies s
    ensures sessionId !in s.connections
  {
    var _, first := s.Stream(sessionId);
    var _, second := s.Stream(sessionId);
    assert s.connections[sessionId] == second;
    s.OnClose(first);
  }
}
