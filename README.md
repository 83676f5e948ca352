# Streaming chat relay: a Dafny model

This project models the core of a small chat relay (`cookbook/project1`). Its Node server keeps two in-memory maps: session id to conversation history, and session id to the open server-sent-events response (the push channel). `GET /stream` registers a channel. `POST /chat` records the user's turn, calls an upstream completion API in streaming mode, and decodes the upstream body line by line. It forwards each text delta to the channel as a `chunk` event. On the `data: [DONE]` sentinel it appends the assistant turn and writes `complete`. The upstream framing is a simplified, non-conformant subset of the event-stream format of the WHATWG HTML Living Standard, section 9.2 (Server-sent events): `data:` without the space, CR or CRLF line endings, and events with several data lines are not decoded as that format says.

On the browser side the model covers the `ChatApp` flags (`isConnected`, `isStreaming`, the current assistant bubble), the send button they drive, the event-source handlers, and the `escapeHtml` function.

Modules:

- `JsText` (`jstext.dfy`): the JavaScript `trim`, `split` on `\n`, and `startsWith` that the code relies on.
- `Relay` (`relay.dfy`): the turn and event datatypes and the upstream line decoder as pure functions (`Classify`, `ProcessLines`, `Decode`). It also holds what a listener reconstructs from the channel (`ChunkText`, `TurnsOf`) and the lemmas relating the two.
- `RelayExample` (`relay.dfy`): a worked exchange.
- `Server` (`server.dfy`): the classes `Channel` and `Server`. The `/stream` and `/chat` handlers and the close callback are methods that update the two maps in place. The decoding loop is a pair of `while` loops proved equal to `Decode`.
- `HtmlEscape` (`escape.dfy`): `escapeHtml` as the chain of five global replacements, plus its properties.
- `Client` (`client.dfy`): the class `ChatApp` and its handlers.
- `Wrappers` (`wrappers.dfy`): `Option`.

Some things are passed in as parameters:

- The upstream call is a function `fetch: seq<Turn> -> Upstream`. It receives the whole history, which is the request payload's `messages`.
- `JSON.parse` followed by `choices?.[0]?.delta?.content` is a function `parse: string -> ParseResult`.
- The upstream body is the sequence of already-decoded text chunks that `reader.read()` yields, plus a flag saying whether the read after the last chunk throws.

A missing or falsy `sessionId`/`message` is modelled as the empty string.

Behaviours of the code that are easy to get wrong, all modelled as written:

- The close callback deletes by session id. It is not scoped to the channel that closed.
- A body that ends without `[DONE]` records no assistant turn and sends no `complete` event.
- The user turn is appended before the missing-channel check.
- `/stream` creates no session.
- A `[DONE]` line's `break` leaves only the loop over one chunk's lines. Reading goes on, and every later text chunk with a `[DONE]` line appends another assistant turn. That turn holds all text accumulated since the exchange began, because the accumulator is never reset.

## Model

| member | source | states |
|---|---|---|
| `Server.Server.Stream` | cookbook/project1/index.js:26-46 | An empty id answers 400 "sessionId is required" and changes neither map. Otherwise a fresh channel replaces any earlier one for the id, its only event is `connected`, and no session is created. |
| `Server.Server.OnClose` | cookbook/project1/index.js:49-51 | Closing a channel removes the entry for the id it captured, whatever channel is registered there now. Histories are untouched. |
| `Server.StaleCloseDropsNewChannel` | cookbook/project1/index.js:43-51 | Open two channels for one id, then close the first: the id has no channel left. |
| `Server.Server.Chat` | cookbook/project1/index.js:58-172 | An empty id or message gives 400 and changes nothing. Otherwise the history becomes the old one (or empty) plus the user turn, even when the answer is the no-channel 400. `fetch` gets that whole history. A failed fetch or non-OK status gives 500 with no channel write. A streamed body leaves history and channel as `Decode` says, plus one `error` event on a read error. The answer is then success. `sseConnections` never changes; `sessionStore` gains the id when it was unknown. |
| `Server.Server.RecordUserTurn` | cookbook/project1/index.js:66-78 | The session is created with an empty history when unknown, and the user turn is appended to its history. Connections are unchanged. |
| `Server.Channel.Write` | cookbook/project1/index.js:46 | Writing an event appends it to the channel's events. |
| `Server.Server.constructor` | cookbook/project1/index.js:16-20 | Both maps start empty. |
| `Server.Server.Pump` | cookbook/project1/index.js:111-157 | The outer read loop, from an empty accumulator, leaves the session's history and the channel's events equal to `Decode` of the body. Other sessions are unchanged. |
| `Server.Server.PumpLines` | cookbook/project1/index.js:120-156 | The loop over one chunk's lines leaves the accumulator, history and channel equal to `ProcessLines`. It stops at the sentinel. |
| `Relay.DecodeFromStart` | cookbook/project1/index.js:111-157 | For any body, the decoder only appends to the channel, and only `chunk` and `complete` events. The history gains exactly one assistant turn per `complete`, holding the concatenation of every chunk event before it (`TurnsOf`). The accumulator equals the concatenation of all chunk events. |
| `Relay.ProcessLinesTracks` | cookbook/project1/index.js:122-156 | One chunk's lines keep that relation between history, accumulator and channel. |
| `Relay.DecodeTracks` | cookbook/project1/index.js:114-157 | The read loop keeps that relation from any state that satisfies it. |
| `Relay.DecodeCountsDoneChunks` | cookbook/project1/index.js:114-137 | The assistant turns appended, and the `complete` events written, equal the number of text chunks holding a `data: [DONE]` line. |
| `Relay.ProcessLinesCount` | cookbook/project1/index.js:122-137 | One text chunk appends one assistant turn and one `complete` if it holds a sentinel line, and none otherwise. |
| `Relay.NoSentinelNoReply` | cookbook/project1/index.js:114-117 | A body with no sentinel line leaves the history exactly as it was and writes no `complete`. |
| `Relay.DoneIffDoneLine` | cookbook/project1/index.js:123-127 | A line acts as the sentinel iff it is exactly `data: [DONE]`. |
| `Relay.SkippableLineIsInert` | cookbook/project1/index.js:123-154 | Removing a line that is blank after trimming, lacks `data: `, fails to parse, or has no or an empty delta changes nothing the decoder does. A malformed line costs only itself. |
| `Relay.LinesAfterSentinelDropped` | cookbook/project1/index.js:127-137 | Lines after a sentinel line in the same text chunk have no effect. |
| `Relay.ProcessLinesEvents` | cookbook/project1/index.js:122-151 | A chunk writes, in line order, one `chunk` per non-empty delta before its first sentinel (the reference `Deltas`), then one `complete` if it holds a sentinel line. |
| `RelayExample.HelloExchange` | cookbook/project1/index.js:119-150 | Deltas "Hel" and "lo" then `[DONE]`, after user turn "hi": events `chunk Hel`, `chunk lo`, `complete`; history ends with the assistant turn "Hello". |
| `RelayExample.TwoDeltaExchange` | cookbook/project1/index.js:119-150 | From any state, two delta lines `a` and `b` in their own chunks, then `[DONE]`: events `chunk a`, `chunk b`, `complete`; the accumulator grows by `a + b`, and the history gains one assistant turn with the whole accumulator. |
| `RelayExample.DataLine` | cookbook/project1/index.js:120-143 | A `data: ` line with no line break and a non-sentinel payload splits to itself. Its payload is the text after the prefix, and a non-empty parsed delta makes it a delta line. |
| `JsText.TrimEmptyIffBlank` | cookbook/project1/index.js:123 | `line.trim() === ''` iff every character is JavaScript whitespace. |
| `JsText.JoinSplit` | cookbook/project1/index.js:120 | Joining `chunk.split('\n')` with `\n` gives back the chunk. |
| `JsText.SplitJoin` | cookbook/project1/index.js:120 | Splitting a join of newline-free pieces gives back the pieces. |
| `JsText.Split` | cookbook/project1/index.js:120 | The split always has at least one piece, even for empty text. |
| `JsText.SplitPiecesFree` | cookbook/project1/index.js:120 | No piece of the split contains the separator. |
| `JsText.SplitWhole` | cookbook/project1/index.js:120 | Text without a line break splits into itself alone. |
| `JsText.TrimStartSpec` | cookbook/project1/public/client.js:83 | The result is the suffix after the maximal leading run of whitespace. |
| `JsText.TrimEndSpec` | cookbook/project1/public/client.js:83 | The result is the prefix before the maximal trailing run of whitespace. |
| `HtmlEscape.EscapeHtmlIsPerChar` | cookbook/project1/public/client.js:354-361 | The chain of replacements, `&` first, equals escaping each character independently. |
| `HtmlEscape.EscapeHtmlSafe` | cookbook/project1/public/client.js:354-361 | The output contains no `<`, `>`, `"` or `'`, and every `&` in it starts one of the five entities. |
| `HtmlEscape.EscapeHtmlIdentityOnPlain` | cookbook/project1/public/client.js:354-361 | Text without any of `&<>"'` is returned unchanged. |
| `HtmlEscape.UnescapeEscapeHtml` | cookbook/project1/public/client.js:354-361 | Decoding the five entities left to right recovers the input. |
| `HtmlEscape.EscapeHtmlInjective` | cookbook/project1/public/client.js:354-361 | Different inputs escape to different outputs. |
| `HtmlEscape.ReplaceAllConcat` | cookbook/project1/public/client.js:356-360 | One global replacement distributes over concatenation. |
| `Client.SendDisabledIff` | cookbook/project1/public/client.js:333-335 | The button is disabled iff the input is all whitespace, or not connected, or streaming. |
| `Client.ButtonLabel` | cookbook/project1/public/client.js:337-341 | The label is "Streaming..." iff streaming, and "Send" otherwise. |
| `Client.ChatApp.constructor` | cookbook/project1/public/client.js:7-12 | Starts disconnected, not streaming, with no current bubble. |
| `Client.ChatApp.UpdateSendButtonState` | cookbook/project1/public/client.js:333-342 | Puts the button in sync with the input and flags, and changes nothing else. |
| `Client.ChatApp.OnOpen` | cookbook/project1/public/client.js:101-106 | Sets connected and syncs the button. Streaming and the bubble are unchanged. |
| `Client.ChatApp.OnError` | cookbook/project1/public/client.js:117-122 | Clears connected and syncs the button. Streaming and the bubble are unchanged. |
| `Client.ChatApp.OnInput` | cookbook/project1/public/client.js:82-85 | Records the input and recomputes only `disabled`. A button in sync stays in sync. |
| `Client.ChatApp.SendMessage` | cookbook/project1/public/client.js:161-177 | When the button would be disabled, nothing changes and nothing is posted. Otherwise: posts the trimmed, non-empty input, clears the input, sets streaming, makes a new empty bubble current, and shows "Streaming..." on a disabled button. |
| `Client.ChatApp.PostFailed` | cookbook/project1/public/client.js:191-198 | A failed POST discards the bubble, ends streaming, and syncs the button. |
| `Client.ChatApp.HandleMessage` | cookbook/project1/public/client.js:135-156 | `chunk` appends to the bubble, creating an empty one first if none. `complete` and `error` leave no bubble and end streaming. `connected` and unknown types change nothing. A button in sync stays in sync. |
| `Client.ChatApp.AppendToAssistantMessage` | cookbook/project1/public/client.js:239-256 | The bubble becomes its old text (empty when absent) followed by the content. The flags are unchanged. |
| `Client.ChatApp.FinalizeAssistantMessage` | cookbook/project1/public/client.js:261-264 | No bubble is current, streaming ends, and the button is synced. |
| `Client.ChatApp.HandleStreamError` | cookbook/project1/public/client.js:280-294 | The incomplete bubble is discarded, streaming ends, and the button is synced. |

## Left out

- Express setup, CORS, static serving, the port and environment, and the response header writes: framework plumbing.
- The network call to the upstream API and its headers and payload beyond "messages = the whole history": it is a parameter.
- UTF-8 decoding of the body and `JSON.parse`/`JSON.stringify`: library code. Chunks are already-decoded strings. Parsing is an oracle. Events are written as values, not as their serialised `data: {...}\n\n` text.
- A `data:` line split across two text chunks is modelled as the code treats it: two separate lines, each judged on its own.
- Values of `sessionId` or `message` that are not strings (numbers, arrays, `null`): only the empty string stands for "missing".
- Interleaving of concurrent `/chat` exchanges on one session, and the async suspension points: each handler is modelled as one atomic step. For the same reason, writes to a channel that closed mid-exchange are not modelled.
- Exceptions thrown by `res.write` or `res.json` are not modelled. Only the upstream read can fail mid-stream. It is modelled as failing after the last chunk it delivered.
- Client page content: the DOM, `marked`/`hljs` rendering, `scrollToBottom`, the welcome text, the status line, the user and error message bubbles that `addMessage` adds, and the reconnect timer.
- Client.ChatApp.AppendToAssistantMessage: models only the plain-text branch. With `marked` loaded, the text read back from the rendered bubble is not the plain concatenation.
- Client.ChatApp.constructor: takes the input value and the button state as the page provides them. `getOrCreateSessionId` (local storage, clock, randomness) is not modelled.
- Client.ChatApp.SendMessage: the POST itself and the wait for its answer are outside the model. Its failure is the separate method `PostFailed`.
- HtmlEscape.UnescapeEscapeHtml: the decoder is a left-to-right scan for the five entities, not a chain of five global replacements ending with `&amp;`.
