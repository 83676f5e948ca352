/** The browser side of cookbook/project1/public/client.js: the flags of the
    `ChatApp` object, the send button they drive, and the handlers that
    change them as event-source messages arrive. The assistant bubble being
    streamed into is modelled by its plain text. */
module Client {
  import opened JsText
  import opened Wrappers
  import Relay

  /** A message from the event source once `JSON.parse` has read it,
      dispatched on its `type` field: one of the events the server writes,
      or a type the client does not know. */
  datatype Message =
    | Known(e: Relay.Event)
    | Unknown(kind: string)

  const SendLabel: string := "Send"
  const StreamingLabel: string := "Streaming..."
  const SendFailedMessage: string := "Failed to send message. Please try again."

  /** `!hasText || !this.isConnected || this.isStreaming`, where `hasText`
      is `input.trim().length > 0`. */
  function SendDisabled(input: string, connected: bool, streaming: bool): bool {
    Trim(input) == [] || !connected || streaming
  }

  /** The button is disabled exactly when the input holds nothing but
      whitespace, the channel is down, or a reply is streaming. */
  lemma SendDisabledIff(input: string, connected: bool, streaming: bool)
    ensures SendDisabled(input, connected, streaming) <==> IsBlank(input) || !connected || streaming
  {
    TrimEmptyIffBlank(input);
  }

  /** The button's label: "Streaming..." exactly while a reply streams. */
  function ButtonLabel(streaming: bool): (l: string)
    ensures l == StreamingLabel <==> streaming
    ensures l == SendLabel <==> !streaming
  {
    if streaming then StreamingLabel else SendLabel
  }

  /** The text of an assistant bubble, an absent bubble reading as empty. */
  function BubbleText(b: Option<string>): string {
    if b.Some? then b.value else []
  }

  class ChatApp {
    var isConnected: bool
    var isStreaming: bool
    /** `currentAssistantMessage`: the text of the bubble being streamed into. */
    var current: Option<string>
    /** `messageInput.value`. */
    var input: string
    /** `sendButton.disabled` and `sendButton.textContent`. */
    var sendDisabled: bool
    var sendLabel: string

    /** The constructor's flags; the input and button start as the page has
        them. */
    constructor (input: string, sendDisabled: bool, sendLabel: string)
      ensures !isConnected && !isStreaming && current == None
      ensures this.input == input && this.sendDisabled == sendDisabled && this.sendLabel == sendLabel
    {
      isConnected := false;
      isStreaming := false;
      current := None;
      this.input := input;
      this.sendDisabled := sendDisabled;
      this.sendLabel := sendLabel;
    }

    /** The button shows what the flags and the input call for. */
    predicate ButtonInSync()
      reads this
    {
      sendDisabled == SendDisabled(input, isConnected, isStreaming) && sendLabel == ButtonLabel(isStreaming)
    }

    method UpdateSendButtonState()
      modifies this
      ensures isConnected == old(isConnected) && isStreaming == old(isStreaming)
      ensures current == old(current) && input == old(input)
      ensures ButtonInSync()
    {
      sendDisabled := SendDisabled(input, isConnected, isStreaming);
      if isStreaming {
        sendLabel := StreamingLabel;
      } else {
        sendLabel := SendLabel;
      }
    }

    /** `eventSource.onopen`. */
    method OnOpen()
      modifies this
      ensures isConnected && isStreaming == old(isStreaming)
      ensures current == old(current) && input == old(input)
      ensures ButtonInSync()
    {
      isConnected := true;
      UpdateSendButtonState();
    }

    /** `eventSource.onerror`; the reconnection timer is not modelled. */
    method OnError()
      modifies this
      ensures !isConnected && isStreaming == old(isStreaming)
      ensures current == old(current) && input == old(input)
      ensures ButtonInSync()
    {
      isConnected := false;
      UpdateSendButtonState();
    }

    /** The `input` listener: it recomputes `disabled` only, which keeps the
        button in sync because the label depends on nothing it changes. */
    method OnInput(value: string)
      modifies this
      ensures input == value
      ensures isConnected == old(isConnected) && isStreaming == old(isStreaming) && current == old(current)
      ensures sendDisabled == SendDisabled(value, isConnected, isStreaming) && sendLabel == old(sendLabel)
      ensures old(ButtonInSync()) ==> ButtonInSync()
    {
      input := value;
      sendDisabled := SendDisabled(input, isConnected, isStreaming);
    }

    /** The synchronous part of `sendMessage`. When the button would be
        disabled nothing changes and nothing is posted; otherwise the trimmed
        input is posted, the input cleared, streaming begins and a fresh
        empty assistant bubble becomes current. */
    method SendMessage() returns (posted: Option<string>)
      modifies this
      ensures old(SendDisabled(input, isConnected, isStreaming)) ==>
        && posted == None
        && isConnected == old(isConnected) && isStreaming == old(isStreaming) && current == old(current)
        && input == old(input) && sendDisabled == old(sendDisabled) && sendLabel == old(sendLabel)
      ensures !old(SendDisabled(input, isConnected, isStreaming)) ==>
        && posted == Some(Trim(old(input))) && posted.value != []
        && isConnected && isStreaming && current == Some([]) && input == []
        && ButtonInSync() && sendDisabled && sendLabel == StreamingLabel
    {
      var message := Trim(input);
      if message == [] || !isConnected || isStreaming {
        return None;
      }
      input := [];
      isStreaming := true;
      UpdateSendButtonState();
      current := Some([]);
      posted := Some(message);
    }

    /** The `catch` of `sendMessage`: the POST failed or was answered with
        an error status. */
    method PostFailed()
      modifies this
      ensures current == None && !isStreaming
      ensures isConnected == old(isConnected) && input == old(input)
      ensures ButtonInSync()
    {
      HandleStreamError(SendFailedMessage);
    }

    /** `handleSSEMessage`: dispatch on the message type. */
    method HandleMessage(m: Message)
      modifies this
      ensures isConnected == old(isConnected) && input == old(input)
      ensures match m
        case Known(Chunk(c)) =>
          && current == Some(BubbleText(old(current)) + c) && isStreaming == old(isStreaming)
          && sendDisabled == old(sendDisabled) && sendLabel == old(sendLabel)
        case Known(Complete) => current == None && !isStreaming && ButtonInSync()
        case Known(Error(_)) => current == None && !isStreaming && ButtonInSync()
        case _ =>
          && current == old(current) && isStreaming == old(isStreaming)
          && sendDisabled == old(sendDisabled) && sendLabel == old(sendLabel)
      ensures old(ButtonInSync()) ==> ButtonInSync()
    {
      match m
      case Known(Connected) =>
      case Known(Chunk(c)) => AppendToAssistantMessage(c);
      case Known(Complete) => FinalizeAssistantMessage();
      case Known(Error(message)) => HandleStreamError(message);
      case Unknown(_) =>
    }

    /** `appendToAssistantMessage` in its plain-text branch: creates an
        empty bubble if none is current, then appends. */
    method AppendToAssistantMessage(content: string)
      modifies this
      ensures current == Some(BubbleText(old(current)) + content)
      ensures isConnected == old(isConnected) && isStreaming == old(isStreaming) && input == old(input)
      ensures sendDisabled == old(sendDisabled) && sendLabel == old(sendLabel)
    {
      if current.None? {
        current := Some([]);
      }
      current := Some(current.value + content);
    }

    /** `finalizeAssistantMessage`: the bubble stays on the page but is no
        longer current, and streaming ends. */
    method FinalizeAssistantMessage()
      modifies this
      ensures current == None && !isStreaming
      ensures isConnected == old(isConnected) && input == old(input)
      ensures ButtonInSync()
    {
      current := None;
      isStreaming := false;
      UpdateSendButtonState();
    }

    /** `handleStreamError`: the incomplete bubble is discarded, and
        streaming ends. The error bubble it adds is page content and is not
        modelled. */
    method HandleStreamError(message: string)
      modifies this
      ensures current == None && !isStreaming
      ensures isConnected == old(isConnected) && input == old(input)
      ensures ButtonInSync()
    {
      if current.Some? {
        current := None;
      }
      isStreaming := false;
      UpdateSendButtonState();
    }
  }
}
