/**
 * The chat screen's state (`UiState`, `ChatMessage`) and the part of
 * `MainChatViewModel` that maintains it: the greeting shown once the model
 * is ready, and `sendPrompt`, which appends the user's message and an AI
 * placeholder and then rewrites that placeholder for each event of the
 * stream `ChatSession.send` emits, or marks it failed when collecting the
 * stream throws.
 */
module ChatUi {
  import opened Common
  import opened JsonValue
  import opened Repository
  import Chat

  datatype Sender = User | Ai

  /** `AiMessageState`: LOADING, TOOL_CALL, SUCCESS, ERROR. */
  datatype AiMessageState = Loading | ToolCall | Success | Error

  /** `ChatMessage`; `id` stands for the random UUID the source draws. */
  datatype ChatMessage = ChatMessage(
    id: string,
    text: string,
    sender: Sender,
    state: Option<AiMessageState>,
    toolCallInfo: Option<string>,
    errorMessage: Option<string>)

  /** `UiState`: the screen before the model is ready, the conversation, or a fatal error. */
  datatype UiState = Initial | Loading | Success(chatMessages: seq<ChatMessage>) | Error(errorMessage: string)

  const GreetingText: string := "Hello! How can I help you today?"
  const CollectionFailedMessage: string := "Flow collection failed"

  function Greeting(id: string): ChatMessage {
    ChatMessage(id, GreetingText, Ai, Some(AiMessageState.Success), None, None)
  }

  function UserMessage(id: string, prompt: string): ChatMessage {
    ChatMessage(id, prompt, User, None, None, None)
  }

  /** The AI message shown while the reply is being produced. */
  function Placeholder(id: string): ChatMessage {
    ChatMessage(id, "", Ai, Some(AiMessageState.Loading), None, None)
  }

  /** `"$key=$value"`; a null value prints as `null`. */
  function ArgText(a: Arg): string {
    a.0 + "=" + a.1.GetOr("null")
  }

  /** `joinToString()` of the argument texts: separated by `", "`. */
  function JoinArgs(args: seq<Arg>): string {
    if |args| == 0 then ""
    else if |args| == 1 then ArgText(args[0])
    else JoinArgs(args[..|args| - 1]) + ", " + ArgText(args[|args| - 1])
  }

  /** The tool-call line shown under a message: `name(k=v, k=v)`. */
  function ToolCallInfo(name: string, args: seq<Arg>): string {
    name + "(" + JoinArgs(args) + ")"
  }

  /** The texts of the arguments, in order. */
  function ArgTexts(args: seq<Arg>): (ts: seq<string>)
    ensures |ts| == |args|
    ensures forall i :: 0 <= i < |args| ==> ts[i] == ArgText(args[i])
  {
    seq(|args|, i requires 0 <= i < |args| => ArgText(args[i]))
  }

  /**
   * A join written independently of `JoinArgs`, from the front: the first
   * text, then each later text preceded by `", "`.
   */
  function JoinFromFront(ts: seq<string>): string {
    if |ts| == 0 then "" else ts[0] + Separated(ts[1..])
  }

  /** Each text preceded by `", "`. */
  function Separated(ts: seq<string>): string
    decreases |ts|
  {
    if |ts| == 0 then "" else ", " + ts[0] + Separated(ts[1..])
  }

  lemma {:induction false} SeparatedSnoc(ts: seq<string>, t: string)
    ensures Separated(ts + [t]) == Separated(ts) + ", " + t
    decreases |ts|
  {
    if |ts| == 0 {
      assert ts + [t] == [t];
      assert [t][1..] == [];
    } else {
      assert (ts + [t])[1..] == ts[1..] + [t];
      SeparatedSnoc(ts[1..], t);
    }
  }

  /**
   * The tool-call line begins with the tool's name and an opening
   * parenthesis, ends with the closing one, and between them lists the
   * arguments in order, each as `key=value`, separated by `", "`.
   */
  lemma {:induction false} ToolCallInfoListsArguments(name: string, args: seq<Arg>)
    ensures var info := ToolCallInfo(name, args);
      && info[..|name| + 1] == name + "("
      && info[|info| - 1] == ')'
      && |info| == |name| + 2 + |JoinArgs(args)|
    ensures |args| == 0 ==> ToolCallInfo(name, args) == name + "()"
    ensures |args| == 1 ==> ToolCallInfo(name, args) == name + "(" + args[0].0 + "=" + args[0].1.GetOr("null") + ")"
    ensures JoinArgs(args) == JoinFromFront(ArgTexts(args))
  {
    var info := ToolCallInfo(name, args);
    assert info == name + "(" + JoinArgs(args) + ")";
    assert info[..|name| + 1] == name + "(";
    JoinArgsFromFront(args);
  }

  lemma {:induction false} JoinArgsFromFront(args: seq<Arg>)
    ensures JoinArgs(args) == JoinFromFront(ArgTexts(args))
  {
    var ts := ArgTexts(args);
    if |args| == 1 {
      assert ts[1..] == [];
    } else if |args| >= 2 {
      var init := args[..|args| - 1];
      var last := ArgText(args[|args| - 1]);
      JoinArgsFromFront(init);
      var its := ArgTexts(init);
      assert ts == its + [last];
      assert ts[0] == its[0];
      assert ts[1..] == its[1..] + [last];
      SeparatedSnoc(its[1..], last);
      calc {
        JoinFromFront(ts);
        ts[0] + Separated(ts[1..]);
        its[0] + (Separated(its[1..]) + ", " + last);
        JoinFromFront(its) + ", " + last;
        JoinArgs(init) + ", " + last;
      }
    }
  }

  /**
   * The copy the source makes of the placeholder for one event. A
   * `ToolCall` changes only the state and the tool-call line; `Success`
   * replaces the text and clears the tool-call line; `Error` replaces the
   * text, records the message and clears the tool-call line. The id and the
   * sender never change.
   */
  function UpdateMessage(m: ChatMessage, event: Chat.ChatResponseState): (r: ChatMessage)
    ensures r.id == m.id && r.sender == m.sender
    ensures event.ToolCall? ==>
      r.text == m.text && r.errorMessage == m.errorMessage && r.state == Some(AiMessageState.ToolCall)
    ensures !event.ToolCall? ==> r.toolCallInfo.None?
  {
    match event
    case ToolCall(name, args) =>
      m.(state := Some(AiMessageState.ToolCall), toolCallInfo := Some(ToolCallInfo(name, args)))
    case Success(text) =>
      m.(text := text, state := Some(AiMessageState.Success), toolCallInfo := None)
    case Error(message) =>
      m.(text := "Error: " + message, state := Some(AiMessageState.Error), errorMessage := Some(message), toolCallInfo := None)
  }

  /** The copy made when collecting the stream throws. */
  function FailMessage(m: ChatMessage, localizedMessage: Option<string>): ChatMessage {
    var message := localizedMessage.GetOr(CollectionFailedMessage);
    m.(text := "Error: " + message, state := Some(AiMessageState.Error), errorMessage := Some(message), toolCallInfo := None)
  }

  /** `chatMessages.map { if (it.id == aiId) update(it) else it }` for one event. */
  function ApplyEvent(messages: seq<ChatMessage>, aiId: string, event: Chat.ChatResponseState): (r: seq<ChatMessage>)
    ensures |r| == |messages|
    ensures forall i :: 0 <= i < |r| ==> r[i] == if messages[i].id == aiId then UpdateMessage(messages[i], event) else messages[i]
  {
    seq(|messages|, i requires 0 <= i < |messages| =>
      if messages[i].id == aiId then UpdateMessage(messages[i], event) else messages[i])
  }

  /** The `_uiState.update` for one event: anything but a conversation is left as it is. */
  function OnEvent(state: UiState, aiId: string, event: Chat.ChatResponseState): UiState {
    if state.Success? then UiState.Success(ApplyEvent(state.chatMessages, aiId, event)) else state
  }

  /** The `_uiState.update` of the `catch`. */
  function OnFailure(state: UiState, aiId: string, localizedMessage: Option<string>): UiState {
    if state.Success? then
      UiState.Success(seq(|state.chatMessages|, i requires 0 <= i < |state.chatMessages| =>
        var m := state.chatMessages[i];
        if m.id == aiId then FailMessage(m, localizedMessage) else m))
    else state
  }

  /** The screen after the events of a stream, in order. */
  function OnEvents(state: UiState, aiId: string, events: seq<Chat.ChatResponseState>): UiState {
    if |events| == 0 then state
    else OnEvent(OnEvents(state, aiId, events[..|events| - 1]), aiId, events[|events| - 1])
  }

  /** One message after the events of a stream, in order. */
  function Settle(m: ChatMessage, events: seq<Chat.ChatResponseState>): ChatMessage {
    if |events| == 0 then m
    else UpdateMessage(Settle(m, events[..|events| - 1]), events[|events| - 1])
  }

  /** Settling never changes a message's id. */
  lemma {:induction false} SettleKeepsId(m: ChatMessage, events: seq<Chat.ChatResponseState>)
    ensures Settle(m, events).id == m.id && Settle(m, events).sender == m.sender
  {
    if |events| > 0 {
      SettleKeepsId(m, events[..|events| - 1]);
    }
  }

  /**
   * A stream applied to a conversation changes each message on its own:
   * the messages with the placeholder's id go through every event, in
   * order, and every other message stays as it was.
   */
  lemma {:induction false} EventsTouchOnlyThePlaceholder(messages: seq<ChatMessage>, aiId: string, events: seq<Chat.ChatResponseState>)
    ensures var s := OnEvents(UiState.Success(messages), aiId, events);
      && s.Success?
      && |s.chatMessages| == |messages|
      && forall i :: 0 <= i < |messages| ==>
           s.chatMessages[i] == if messages[i].id == aiId then Settle(messages[i], events) else messages[i]
  {
    if |events| > 0 {
      var init := events[..|events| - 1];
      var last := events[|events| - 1];
      EventsTouchOnlyThePlaceholder(messages, aiId, init);
      var before := OnEvents(UiState.Success(messages), aiId, init).chatMessages;
      var after := ApplyEvent(before, aiId, last);
      forall i | 0 <= i < |messages|
        ensures after[i] == if messages[i].id == aiId then Settle(messages[i], events) else messages[i]
      {
        if messages[i].id == aiId {
          SettleKeepsId(messages[i], init);
        }
      }
    }
  }

  /**
   * A run of `ToolCall` events leaves the text and the error message as
   * they were, and after at least one the message shows TOOL_CALL with the
   * line of the last call.
   */
  lemma {:induction false} ToolCallsKeepText(m: ChatMessage, events: seq<Chat.ChatResponseState>)
    requires forall i :: 0 <= i < |events| ==> events[i].ToolCall?
    ensures var r := Settle(m, events);
      && r.id == m.id && r.sender == m.sender && r.text == m.text && r.errorMessage == m.errorMessage
    ensures |events| > 0 ==>
      var last := events[|events| - 1];
      && Settle(m, events).state == Some(AiMessageState.ToolCall)
      && Settle(m, events).toolCallInfo == Some(ToolCallInfo(last.toolName, last.args))
  {
    if |events| > 0 {
      ToolCallsKeepText(m, events[..|events| - 1]);
    }
  }

  /**
   * After a stream of `ToolCall` events closed by one `Success` or `Error`,
   * as `send` emits, a message ends as that terminal event alone would have
   * left it: SUCCESS with the reply's text, or ERROR with `"Error: "` and
   * the message; the tool-call line is cleared either way.
   */
  lemma SettledByLastEvent(m: ChatMessage, events: seq<Chat.ChatResponseState>)
    requires Chat.WellShaped(events)
    ensures var r := Settle(m, events);
      var last := events[|events| - 1];
      && r == UpdateMessage(m, last)
      && r.toolCallInfo.None?
      && (last.Success? ==> r.text == last.text && r.state == Some(AiMessageState.Success) && r.errorMessage == m.errorMessage)
      && (last.Error? ==> r.text == "Error: " + last.message && r.state == Some(AiMessageState.Error) && r.errorMessage == Some(last.message))
  {
    ToolCallsKeepText(m, events[..|events| - 1]);
  }

  /**
   * Once `send` has finished, the placeholder of the prompt shows the
   * outcome of the turn: the final event of the stream, SUCCESS or ERROR,
   * with no tool-call line; every other message of the conversation is as
   * it was.
   */
  lemma PlaceholderShowsOutcome(
    session: Chat.ChatSession, script: seq<Chat.ModelReply>,
    callTool: (string, seq<Arg>) -> Outcome<Option<Json>>,
    messages: seq<ChatMessage>, aiId: string)
    ensures var events := Chat.Events(session.Conversation(script, 0, callTool));
      var s := OnEvents(UiState.Success(messages), aiId, events);
      && |events| > 0
      && s.Success?
      && |s.chatMessages| == |messages|
      && forall i :: 0 <= i < |messages| ==>
           if messages[i].id == aiId then
             && s.chatMessages[i] == UpdateMessage(messages[i], events[|events| - 1])
             && s.chatMessages[i].toolCallInfo.None?
             && s.chatMessages[i].state in {Some(AiMessageState.Success), Some(AiMessageState.Error)}
           else s.chatMessages[i] == messages[i]
  {
    var events := Chat.Events(session.Conversation(script, 0, callTool));
    session.StreamShape(script, 0, callTool);
    EventsTouchOnlyThePlaceholder(messages, aiId, events);
    forall i | 0 <= i < |messages| && messages[i].id == aiId
      ensures Settle(messages[i], events) == UpdateMessage(messages[i], events[|events| - 1])
    {
      SettledByLastEvent(messages[i], events);
    }
  }

  /**
   * When collecting the stream throws, the placeholder turns to ERROR with
   * the exception's message, or `"Flow collection failed"` when it has
   * none, and loses its tool-call line; no other message changes.
   */
  lemma CollectionFailureMarksPlaceholder(messages: seq<ChatMessage>, aiId: string, localizedMessage: Option<string>)
    ensures var s := OnFailure(UiState.Success(messages), aiId, localizedMessage);
      var message := if localizedMessage.Some? then localizedMessage.value else CollectionFailedMessage;
      && s.Success?
      && |s.chatMessages| == |messages|
      && forall i :: 0 <= i < |messages| ==>
           if messages[i].id == aiId then
             && s.chatMessages[i].text == "Error: " + message
             && s.chatMessages[i].state == Some(AiMessageState.Error)
             && s.chatMessages[i].errorMessage == Some(message)
             && s.chatMessages[i].toolCallInfo.None?
             && s.chatMessages[i].id == aiId
             && s.chatMessages[i].sender == messages[i].sender
           else s.chatMessages[i] == messages[i]
  {
  }

  /** Outside a conversation, events and failures change nothing. */
  lemma {:induction false} OnlyConversationsChange(state: UiState, aiId: string, events: seq<Chat.ChatResponseState>, localizedMessage: Option<string>)
    requires !state.Success?
    ensures OnEvents(state, aiId, events) == state
    ensures OnFailure(state, aiId, localizedMessage) == state
  {
    if |events| > 0 {
      OnlyConversationsChange(state, aiId, events[..|events| - 1], localizedMessage);
    }
  }

  class MainChatViewModel {
    var uiState: UiState

    /** The screen starts as `Loading` until the model is ready. */
    constructor ()
      ensures uiState == UiState.Loading
    {
      uiState := UiState.Loading;
    }

    /** The model and its tools are ready: the conversation opens with the greeting. */
    method ModelReady(greetingId: string)
      modifies this
      ensures uiState == UiState.Success([Greeting(greetingId)])
    {
      uiState := UiState.Success([Greeting(greetingId)]);
    }

    /**
     * `sendPrompt`. Outside a conversation it returns at once. Otherwise it
     * appends the user's message and the placeholder, then applies each
     * event of `events` (the stream `send(prompt)` emits) to the
     * placeholder in order; `thrown` is the exception, with its message,
     * that ends collecting the stream, if any.
     */
    method SendPrompt(prompt: string, userId: string, aiId: string,
                      events: seq<Chat.ChatResponseState>, thrown: Option<Option<string>>)
      returns (started: bool)
      modifies this
      ensures started <==> old(uiState).Success?
      ensures !started ==> uiState == old(uiState)
      ensures started ==>
        var shown := UiState.Success(old(uiState).chatMessages + [UserMessage(userId, prompt), Placeholder(aiId)]);
        var collected := OnEvents(shown, aiId, events);
        uiState == if thrown.Some? then OnFailure(collected, aiId, thrown.value) else collected
    {
      if !uiState.Success? {
        return false;
      }
      started := true;
      var shown := UiState.Success(uiState.chatMessages + [UserMessage(userId, prompt), Placeholder(aiId)]);
      uiState := shown;
      var i := 0;
      while i < |events|
        invariant 0 <= i <= |events|
        invariant uiState == OnEvents(shown, aiId, events[..i])
      {
        assert events[..i + 1][..i] == events[..i];
        uiState := OnEvent(uiState, aiId, events[i]);
        i := i + 1;
      }
      assert events[..|events|] == events;
      if thrown.Some? {
        uiState := OnFailure(uiState, aiId, thrown.value);
      }
    }
  }

  /** A prompt sent before the model is ready is ignored. */
  method PromptBeforeReadyIsIgnored(prompt: string, userId: string, aiId: string, events: seq<Chat.ChatResponseState>)
    returns (started: bool, state: UiState)
    ensures !started && state == UiState.Loading
  {
    var vm := new MainChatViewModel();
    started := vm.SendPrompt(prompt, userId, aiId, events, None);
    state := vm.uiState;
  }

  /**
   * A first question answered after one tool call: the greeting, the
   * user's prompt and the answer, which shows SUCCESS and no tool-call line.
   */
  method AnswerAfterOneToolCall(greetingId: string, userId: string, aiId: string,
                                prompt: string, tool: string, args: seq<Arg>, answer: string)
    returns (messages: seq<ChatMessage>)
    requires aiId != greetingId && aiId != userId
    ensures messages == [
      Greeting(greetingId),
      UserMessage(userId, prompt),
      ChatMessage(aiId, answer, Ai, Some(AiMessageState.Success), None, None)]
  {
    var vm := new MainChatViewModel();
    vm.ModelReady(greetingId);
    var events := [Chat.ToolCall(tool, args), Chat.Success(answer)];
    var started := vm.SendPrompt(prompt, userId, aiId, events, None);
    var shown := [Greeting(greetingId), UserMessage(userId, prompt), Placeholder(aiId)];
    assert [Greeting(greetingId)] + [UserMessage(userId, prompt), Placeholder(aiId)] == shown;
    assert started && vm.uiState == OnEvents(UiState.Success(shown), aiId, events);
    assert Chat.WellShaped(events);
    EventsTouchOnlyThePlaceholder(shown, aiId, events);
    SettledByLastEvent(Placeholder(aiId), events);
    messages := vm.uiState.chatMessages;
    assert |messages| == 3;
    assert messages[0] == Greeting(greetingId);
    assert messages[1] == UserMessage(userId, prompt);
  }
}
