/**
 * `ChatSession.send`: one user turn of the Gemini function-calling loop.
 * The prompt goes to the model. While the model's reply asks for function
 * calls, the session announces each call with a `ToolCall` event, runs
 * the calls one by one (on the local repository when it declares the name,
 * otherwise through the MCP client) and sends all their results back to the
 * model as one message. When a reply asks for nothing, the turn ends with
 * `Success(text)` or an `Error`.
 *
 * The Gemini chat is an oracle: `script[k]` is its reply to the k-th
 * message of the turn, and a message past the end of the script is
 * answered by an exception. Everything the session does is recorded, in
 * order, as a log of `Action`s.
 */
module Chat {
  import opened Common
  import opened JsonValue
  import opened Repository
  import opened Mcp
  import ToolCatalog

  /** `ChatResponseState`: the events of the flow `send` returns. */
  datatype ChatResponseState =
    | ToolCall(toolName: string, args: seq<Arg>)
    | Success(text: string)
    | Error(message: string)

  /** A `FunctionCallPart` of a model reply. */
  datatype FunctionCall = FunctionCall(name: string, args: seq<Arg>)

  /** What `chat.sendMessage` gives: a reply, or the exception it throws. */
  datatype ModelReply =
    | Reply(text: Option<string>, functionCalls: seq<FunctionCall>)
    | ModelFailure(message: Option<string>)

  /** A `FunctionResponsePart`. */
  datatype FunctionResponsePart = FunctionResponsePart(name: string, response: Json)

  /** A message sent to the model: the user's prompt, or a `"function"`-role content. */
  datatype Content = Prompt(text: string) | FunctionResponses(parts: seq<FunctionResponsePart>)

  /** Where a function call is run. */
  datatype Route = Local | Remote

  datatype Action =
    | Emit(state: ChatResponseState)
    | Dispatch(route: Route, name: string)
    | SendToModel(content: Content)

  const NoTextMessage: string := "Model finished processing but returned no text content."
  const UnknownErrorMessage: string := "An unknown error occurred"
  const ToolFailedMessage: string := "Tool execution failed"

  /** The model's reply to the k-th message; past the end of the script the model throws. */
  function At(script: seq<ModelReply>, k: nat): ModelReply {
    if k < |script| then script[k] else ModelFailure(None)
  }

  /** `JSONObject(mapOf("error" to message))` */
  function ErrorObject(message: string): Json {
    JObj([Member("error", JStr(message))])
  }

  /** The event that ends the turn after a reply with no function calls. */
  function FinalEvent(text: Option<string>): ChatResponseState {
    match text
    case Some(t) => Success(t)
    case None => Error(NoTextMessage)
  }

  /** The `ToolCall` events announcing a batch of calls, in call order. */
  function Announcements(calls: seq<FunctionCall>): seq<Action> {
    seq(|calls|, i requires 0 <= i < |calls| => Emit(ToolCall(calls[i].name, calls[i].args)))
  }

  /** The emitted events of a log, in order. */
  function Events(log: seq<Action>): seq<ChatResponseState> {
    if |log| == 0 then []
    else Events(log[..|log| - 1]) + (if log[|log| - 1].Emit? then [log[|log| - 1].state] else [])
  }

  /** The names of the calls run, in order. */
  function Dispatched(log: seq<Action>): seq<string> {
    if |log| == 0 then []
    else Dispatched(log[..|log| - 1]) + (if log[|log| - 1].Dispatch? then [log[|log| - 1].name] else [])
  }

  /** The names announced by the `ToolCall` events of a stream, in order. */
  function AnnouncedNames(events: seq<ChatResponseState>): seq<string> {
    if |events| == 0 then []
    else
      AnnouncedNames(events[..|events| - 1])
      + (if events[|events| - 1].ToolCall? then [events[|events| - 1].toolName] else [])
  }

  lemma {:induction false} EventsAppend(a: seq<Action>, b: seq<Action>)
    ensures Events(a + b) == Events(a) + Events(b)
    ensures Dispatched(a + b) == Dispatched(a) + Dispatched(b)
    decreases |b|
  {
    if |b| > 0 {
      assert (a + b)[..|a + b| - 1] == a + b[..|b| - 1];
      EventsAppend(a, b[..|b| - 1]);
    } else {
      assert a + b == a;
    }
  }

  lemma {:induction false} AnnouncedAppend(a: seq<ChatResponseState>, b: seq<ChatResponseState>)
    ensures AnnouncedNames(a + b) == AnnouncedNames(a) + AnnouncedNames(b)
    decreases |b|
  {
    if |b| > 0 {
      assert (a + b)[..|a + b| - 1] == a + b[..|b| - 1];
      AnnouncedAppend(a, b[..|b| - 1]);
    } else {
      assert a + b == a;
    }
  }

  /** The announcements of a batch are its calls, as `ToolCall` events, and run nothing. */
  lemma {:induction false} AnnouncementsAnnounceTheCalls(calls: seq<FunctionCall>)
    ensures Events(Announcements(calls)) == seq(|calls|, i requires 0 <= i < |calls| => ToolCall(calls[i].name, calls[i].args))
    ensures AnnouncedNames(Events(Announcements(calls))) == seq(|calls|, i requires 0 <= i < |calls| => calls[i].name)
    ensures Dispatched(Announcements(calls)) == []
  {
    if |calls| > 0 {
      var init := calls[..|calls| - 1];
      AnnouncementsAnnounceTheCalls(init);
      assert Announcements(calls)[..|calls| - 1] == Announcements(init);
      var events := seq(|calls|, i requires 0 <= i < |calls| => ToolCall(calls[i].name, calls[i].args));
      assert events == seq(|init|, i requires 0 <= i < |init| => ToolCall(init[i].name, init[i].args)) + [events[|calls| - 1]];
      AnnouncedAppend(Events(Announcements(init)), [events[|calls| - 1]]);
      assert AnnouncedNames([events[|calls| - 1]]) == [calls[|calls| - 1].name] by {
        assert [events[|calls| - 1]][..0] == [];
      }
      var names := seq(|calls|, i requires 0 <= i < |calls| => calls[i].name);
      assert names == seq(|init|, i requires 0 <= i < |init| => init[i].name) + [calls[|calls| - 1].name];
    }
  }

  /** A stream of `ToolCall` events ending in exactly one terminal event. */
  ghost predicate WellShaped(es: seq<ChatResponseState>) {
    && |es| >= 1
    && !es[|es| - 1].ToolCall?
    && forall i :: 0 <= i < |es| - 1 ==> es[i].ToolCall?
  }

  lemma ToolCallsThenWellShaped(head: seq<ChatResponseState>, rest: seq<ChatResponseState>)
    requires forall i :: 0 <= i < |head| ==> head[i].ToolCall?
    requires WellShaped(rest)
    ensures WellShaped(head + rest)
  {
    var es := head + rest;
    forall i | 0 <= i < |es| - 1
      ensures es[i].ToolCall?
    {
      if i >= |head| {
        assert es[i] == rest[i - |head|];
      }
    }
  }

  /** A one-action log emits at most that action's event and runs at most that action's call. */
  lemma EventsOfOne(log: seq<Action>)
    requires |log| == 1
    ensures log[0].Emit? ==> Events(log) == [log[0].state] && AnnouncedNames(Events(log)) == (if log[0].state.ToolCall? then [log[0].state.toolName] else [])
    ensures !log[0].Emit? ==> Events(log) == []
    ensures !log[0].Dispatch? ==> Dispatched(log) == []
  {
    assert log[..0] == [];
    if log[0].Emit? {
      assert [log[0].state][..0] == [];
    }
  }

  /** The names of a batch's response parts, in order. */
  function PartNames(parts: seq<FunctionResponsePart>): seq<string> {
    seq(|parts|, i requires 0 <= i < |parts| => parts[i].name)
  }

  /** The names of the calls run since the last message sent to the model. */
  function RunSinceLastSend(log: seq<Action>): seq<string> {
    if |log| == 0 then []
    else if log[|log| - 1].SendToModel? then []
    else RunSinceLastSend(log[..|log| - 1]) + (if log[|log| - 1].Dispatch? then [log[|log| - 1].name] else [])
  }

  /** Before any message is sent, every call run counts. */
  lemma {:induction false} NoSendRunsAll(log: seq<Action>)
    requires forall i :: 0 <= i < |log| ==> !log[i].SendToModel?
    ensures RunSinceLastSend(log) == Dispatched(log)
  {
    if |log| > 0 {
      NoSendRunsAll(log[..|log| - 1]);
    }
  }

  /** A message sent to the model starts the count afresh. */
  lemma {:induction false} SendRestartsTheCount(a: seq<Action>, b: seq<Action>)
    requires |a| > 0 && a[|a| - 1].SendToModel?
    ensures RunSinceLastSend(a + b) == RunSinceLastSend(b)
    decreases |b|
  {
    if |b| > 0 {
      assert (a + b)[..|a + b| - 1] == a + b[..|b| - 1];
      SendRestartsTheCount(a, b[..|b| - 1]);
    } else {
      assert a + b == a;
    }
  }


  class ChatSession {
    const functionRepository: FunctionRepository
    const mcpClient: McpClient

    constructor (functionRepository: FunctionRepository, mcpClient: McpClient)
      ensures this.functionRepository == functionRepository && this.mcpClient == mcpClient
    {
      this.functionRepository := functionRepository;
      this.mcpClient := mcpClient;
    }

    /** A call runs locally iff the local repository declares its name. */
    function RouteOf(name: string): (r: Route)
      ensures r == Local <==> name in functionRepository.functionDeclarations
    {
      if name in functionRepository.functionDeclarations then Local else Remote
    }

    /**
     * What running one call gives: the local repository's `call` when the
     * name is declared locally, otherwise the MCP client's `call`.
     */
    function ToolOutcome(call: FunctionCall, callTool: (string, seq<Arg>) -> Outcome<Option<Json>>): (r: Outcome<Json>)
      reads mcpClient
      ensures r.Done? ==> IsSingleKey(r.value, "result")
    {
      if RouteOf(call.name) == Local then Repository.Call(functionRepository, call.name, call.args).result
      else mcpClient.Call(call.name, call.args, callTool)
    }

    /**
     * The response part for one call: named after the call, holding the
     * tool's `{"result": ...}` object, or `{"error": message}` when running
     * it threw (with "Tool execution failed" for an exception without a
     * message); the failure stays inside this one part.
     */
    function ResponsePart(call: FunctionCall, callTool: (string, seq<Arg>) -> Outcome<Option<Json>>): (r: FunctionResponsePart)
      reads mcpClient
      ensures r.name == call.name
      ensures IsSingleKey(r.response, "result") || IsSingleKey(r.response, "error")
      ensures ToolOutcome(call, callTool).Threw? ==>
        r.response == ErrorObject(ToolOutcome(call, callTool).message.GetOr(ToolFailedMessage))
      ensures ToolOutcome(call, callTool).Done? ==> r.response == ToolOutcome(call, callTool).value
    {
      match ToolOutcome(call, callTool)
      case Done(json) => FunctionResponsePart(call.name, json)
      case Threw(message) => FunctionResponsePart(call.name, ErrorObject(message.GetOr(ToolFailedMessage)))
    }

    /** The `Dispatch` actions of a batch, in call order. */
    function Dispatches(calls: seq<FunctionCall>): seq<Action> {
      seq(|calls|, i requires 0 <= i < |calls| => Dispatch(RouteOf(calls[i].name), calls[i].name))
    }

    /** The response parts of a batch, in call order. */
    function Batch(calls: seq<FunctionCall>, callTool: (string, seq<Arg>) -> Outcome<Option<Json>>): seq<FunctionResponsePart>
      reads mcpClient
    {
      seq(|calls|, i requires 0 <= i < |calls| reads mcpClient => ResponsePart(calls[i], callTool))
    }

    /** One round of the loop: announce every call, run every call, send back all the responses. */
    function Round(calls: seq<FunctionCall>, callTool: (string, seq<Arg>) -> Outcome<Option<Json>>): seq<Action>
      reads mcpClient
    {
      Announcements(calls) + Dispatches(calls) + [SendToModel(FunctionResponses(Batch(calls, callTool)))]
    }

    /** What the session does from the model's reply to the k-th message on. */
    function Conversation(script: seq<ModelReply>, k: nat, callTool: (string, seq<Arg>) -> Outcome<Option<Json>>): seq<Action>
      reads mcpClient
      decreases |script| - k
    {
      match At(script, k)
      case ModelFailure(message) => [Emit(Error(message.GetOr(UnknownErrorMessage)))]
      case Reply(text, calls) =>
        if |calls| == 0 then [Emit(FinalEvent(text))]
        else Round(calls, callTool) + Conversation(script, k + 1, callTool)
    }

    /**
     * `send`, as the source runs it: a `while` loop over the model's
     * replies, with one loop announcing the calls and one running them.
     */
    method Send(prompt: string, script: seq<ModelReply>, callTool: (string, seq<Arg>) -> Outcome<Option<Json>>)
      returns (log: seq<Action>)
      ensures log == [SendToModel(Prompt(prompt))] + Conversation(script, 0, callTool)
    {
      log := [SendToModel(Prompt(prompt))];
      var k := 0;
      var response := At(script, 0);
      while response.Reply? && |response.functionCalls| > 0
        invariant response == At(script, k)
        invariant log + Conversation(script, k, callTool) == [SendToModel(Prompt(prompt))] + Conversation(script, 0, callTool)
        decreases |script| - k
      {
        var calls := response.functionCalls;
        var round := RunRound(calls, callTool);
        assert Conversation(script, k, callTool) == round + Conversation(script, k + 1, callTool);
        assert log + Conversation(script, k, callTool) == (log + round) + Conversation(script, k + 1, callTool);
        log := log + round;
        k := k + 1;
        response := At(script, k);
      }
      match response {
        case ModelFailure(message) => log := log + [Emit(Error(message.GetOr(UnknownErrorMessage)))];
        case Reply(text, _) =>
          match text {
            case Some(t) => log := log + [Emit(Success(t))];
            case None => log := log + [Emit(Error(NoTextMessage))];
          }
      }
    }

    /**
     * One turn of `send`'s loop: one loop announces every call, a second
     * runs every call and collects its response part, then the parts go
     * back to the model together.
     */
    method RunRound(calls: seq<FunctionCall>, callTool: (string, seq<Arg>) -> Outcome<Option<Json>>)
      returns (round: seq<Action>)
      ensures round == Round(calls, callTool)
    {
      round := [];
      for i := 0 to |calls|
        invariant round == Announcements(calls)[..i]
      {
        round := round + [Emit(ToolCall(calls[i].name, calls[i].args))];
        assert Announcements(calls)[..i + 1] == Announcements(calls)[..i] + [Announcements(calls)[i]];
      }
      assert Announcements(calls)[..|calls|] == Announcements(calls);
      var responses: seq<FunctionResponsePart> := [];
      ghost var announced := round;
      for i := 0 to |calls|
        invariant round == announced + Dispatches(calls)[..i]
        invariant responses == Batch(calls, callTool)[..i]
      {
        var call := calls[i];
        var route := if call.name in functionRepository.functionDeclarations then Local else Remote;
        round := round + [Dispatch(route, call.name)];
        var outcome: Outcome<Json>;
        if route == Local {
          outcome := Repository.Call(functionRepository, call.name, call.args).result;
        } else {
          outcome := mcpClient.Call(call.name, call.args, callTool);
        }
        var part;
        match outcome {
          case Done(json) => part := FunctionResponsePart(call.name, json);
          case Threw(message) => part := FunctionResponsePart(call.name, ErrorObject(message.GetOr(ToolFailedMessage)));
        }
        assert part == ResponsePart(call, callTool);
        responses := responses + [part];
        assert Dispatches(calls)[..i + 1] == Dispatches(calls)[..i] + [Dispatches(calls)[i]];
        assert Batch(calls, callTool)[..i + 1] == Batch(calls, callTool)[..i] + [Batch(calls, callTool)[i]];
      }
      assert Dispatches(calls)[..|calls|] == Dispatches(calls);
      assert Batch(calls, callTool)[..|calls|] == Batch(calls, callTool);
      round := round + [SendToModel(FunctionResponses(responses))];
    }

    /** A batch runs nothing it does not route, emits nothing, and runs its calls in order. */
    lemma {:induction false} DispatchesRunTheCalls(calls: seq<FunctionCall>)
      ensures Dispatched(Dispatches(calls)) == seq(|calls|, i requires 0 <= i < |calls| => calls[i].name)
      ensures Events(Dispatches(calls)) == []
    {
      if |calls| > 0 {
        var init := calls[..|calls| - 1];
        DispatchesRunTheCalls(init);
        assert Dispatches(calls)[..|calls| - 1] == Dispatches(init);
        var names := seq(|calls|, i requires 0 <= i < |calls| => calls[i].name);
        assert names == seq(|init|, i requires 0 <= i < |init| => init[i].name) + [calls[|calls| - 1].name];
      }
    }

    /** The events and runs of one round: its calls announced, then its calls run, in call order. */
    lemma RoundEventsAndRuns(calls: seq<FunctionCall>, callTool: (string, seq<Arg>) -> Outcome<Option<Json>>)
      ensures Events(Round(calls, callTool)) == Events(Announcements(calls))
      ensures Dispatched(Round(calls, callTool)) == seq(|calls|, i requires 0 <= i < |calls| => calls[i].name)
    {
      var a := Announcements(calls);
      var d := Dispatches(calls);
      var last := [SendToModel(FunctionResponses(Batch(calls, callTool)))];
      AnnouncementsAnnounceTheCalls(calls);
      DispatchesRunTheCalls(calls);
      EventsAppend(a, d);
      EventsAppend(a + d, last);
      assert last[..0] == [];
      assert Events(last) == [] && Dispatched(last) == [];
    }

    /**
     * Within a round every `ToolCall` event comes before any call of the
     * round runs.
     */
    lemma AnnouncedBeforeRun(calls: seq<FunctionCall>, callTool: (string, seq<Arg>) -> Outcome<Option<Json>>)
      ensures var r := Round(calls, callTool);
        forall i, j :: 0 <= i < |r| && 0 <= j < |r| && r[i].Emit? && r[j].Dispatch? ==> i < j
    {
      var r := Round(calls, callTool);
      assert forall i :: 0 <= i < |r| && r[i].Emit? ==> i < |calls|;
      assert forall j :: 0 <= j < |r| && r[j].Dispatch? ==> |calls| <= j;
    }

    /** One step of the conversation: the reply to the k-th message decides what happens next. */
    lemma ConversationStep(script: seq<ModelReply>, k: nat, callTool: (string, seq<Arg>) -> Outcome<Option<Json>>)
      ensures At(script, k).ModelFailure? ==>
        Conversation(script, k, callTool) == [Emit(Error(At(script, k).message.GetOr(UnknownErrorMessage)))]
      ensures At(script, k).Reply? && |At(script, k).functionCalls| == 0 ==>
        Conversation(script, k, callTool) == [Emit(FinalEvent(At(script, k).text))]
      ensures At(script, k).Reply? && |At(script, k).functionCalls| > 0 ==>
        k < |script| &&
        Conversation(script, k, callTool) == Round(At(script, k).functionCalls, callTool) + Conversation(script, k + 1, callTool)
    {
    }

    /**
     * Every stream `send` emits is a run of `ToolCall` events followed by
     * exactly one terminal `Success` or `Error`.
     */
    lemma {:induction false} StreamShape(script: seq<ModelReply>, k: nat, callTool: (string, seq<Arg>) -> Outcome<Option<Json>>)
      ensures WellShaped(Events(Conversation(script, k, callTool)))
      decreases |script| - k
    {
      ConversationStep(script, k, callTool);
      var reply := At(script, k);
      if reply.ModelFailure? || |reply.functionCalls| == 0 {
        EventsOfOne(Conversation(script, k, callTool));
      } else {
        var calls := reply.functionCalls;
        var r := Round(calls, callTool);
        var rest := Conversation(script, k + 1, callTool);
        StreamShape(script, k + 1, callTool);
        RoundEventsAndRuns(calls, callTool);
        AnnouncementsAnnounceTheCalls(calls);
        EventsAppend(r, rest);
        ToolCallsThenWellShaped(Events(r), Events(rest));
      }
    }

    /**
     * The calls that run are exactly the calls announced by `ToolCall`
     * events, in the same order.
     */
    lemma {:induction false} RunAsAnnounced(script: seq<ModelReply>, k: nat, callTool: (string, seq<Arg>) -> Outcome<Option<Json>>)
      ensures Dispatched(Conversation(script, k, callTool)) == AnnouncedNames(Events(Conversation(script, k, callTool)))
      decreases |script| - k
    {
      ConversationStep(script, k, callTool);
      var reply := At(script, k);
      if reply.ModelFailure? || |reply.functionCalls| == 0 {
        var c := Conversation(script, k, callTool);
        EventsOfOne(c);
        assert !c[0].state.ToolCall?;
      } else {
        var calls := reply.functionCalls;
        var r := Round(calls, callTool);
        var rest := Conversation(script, k + 1, callTool);
        var names := seq(|calls|, i requires 0 <= i < |calls| => calls[i].name);
        RunAsAnnounced(script, k + 1, callTool);
        RoundEventsAndRuns(calls, callTool);
        AnnouncementsAnnounceTheCalls(calls);
        assert Dispatched(r) == names && AnnouncedNames(Events(r)) == names;
        EventsAppend(r, rest);
        AnnouncedAppend(Events(r), Events(rest));
        assert Dispatched(r + rest) == names + Dispatched(rest);
        assert AnnouncedNames(Events(r + rest)) == names + AnnouncedNames(Events(rest));
      }
    }

    /**
     * Routing: every call runs locally iff the local repository declares
     * its name, and through the MCP client otherwise.
     */
    lemma {:induction false} RoutedByDeclaration(script: seq<ModelReply>, k: nat, callTool: (string, seq<Arg>) -> Outcome<Option<Json>>)
      ensures forall a :: a in Conversation(script, k, callTool) && a.Dispatch? ==>
        (a.route == Local <==> a.name in functionRepository.functionDeclarations)
      decreases |script| - k
    {
      match At(script, k)
      case ModelFailure(_) =>
      case Reply(text, calls) =>
        if |calls| > 0 {
          RoutedByDeclaration(script, k + 1, callTool);
          var r := Round(calls, callTool);
          forall a | a in r && a.Dispatch?
            ensures a.route == Local <==> a.name in functionRepository.functionDeclarations
          {
            var i :| 0 <= i < |r| && r[i] == a;
            assert |calls| <= i < 2 * |calls|;
            assert a == Dispatches(calls)[i - |calls|];
          }
        }
    }

    /**
     * The i-th action of a log sends a `"function"`-role batch of the
     * session's responses, one part for each call run since the previous
     * message, named after it.
     */
    ghost predicate CarriesBatch(c: seq<Action>, i: nat, callTool: (string, seq<Arg>) -> Outcome<Option<Json>>)
      requires i < |c| && c[i].SendToModel?
      reads mcpClient
    {
      && c[i].content.FunctionResponses?
      && |c[i].content.parts| > 0
      && PartNames(c[i].content.parts) == RunSinceLastSend(c[..i])
      && exists calls :: c[i].content.parts == Batch(calls, callTool)
    }

    /** Every message a log sends to the model carries the batch of its round. */
    ghost predicate RepliesCarryBatches(c: seq<Action>, callTool: (string, seq<Arg>) -> Outcome<Option<Json>>)
      reads mcpClient
    {
      forall i :: 0 <= i < |c| && c[i].SendToModel? ==> CarriesBatch(c, i, callTool)
    }

    /**
     * Every message after the prompt is a `"function"`-role content: the
     * batch of one round, with one response part per call run since the
     * previous message, in the order they ran and named after them.
     */
    lemma {:induction false} ModelGetsEveryResponse(script: seq<ModelReply>, k: nat, callTool: (string, seq<Arg>) -> Outcome<Option<Json>>)
      ensures RepliesCarryBatches(Conversation(script, k, callTool), callTool)
      ensures forall i :: 0 <= i < |Conversation(script, k, callTool)| - 1 && Conversation(script, k, callTool)[i].SendToModel? ==>
        i > 0
      decreases |script| - k
    {
      var c := Conversation(script, k, callTool);
      match At(script, k)
      case ModelFailure(_) =>
      case Reply(text, calls) =>
        if |calls| > 0 {
          ModelGetsEveryResponse(script, k + 1, callTool);
          var r := Round(calls, callTool);
          var rest := Conversation(script, k + 1, callTool);
          assert c == r + rest;
          RoundSendsItsBatch(calls, callTool);
          forall i | 0 <= i < |c| && c[i].SendToModel?
            ensures CarriesBatch(c, i, callTool)
          {
            if i < |r| {
              assert c[i] == r[i];
              assert i == |r| - 1;
              assert c[..i] == r[..|r| - 1];
              assert c[i].content.parts == Batch(calls, callTool);
            } else {
              var j := i - |r|;
              assert c[i] == rest[j];
              assert rest[j].SendToModel?;
              assert c[..i] == r + rest[..j];
              SendRestartsTheCount(r, rest[..j]);
              assert CarriesBatch(rest, j, callTool);
            }
          }
          assert c[0] == r[0];
        }
    }

    /**
     * A round sends one message, at its end: the batch of its calls, one
     * part for each call run since the round began.
     */
    lemma RoundSendsItsBatch(calls: seq<FunctionCall>, callTool: (string, seq<Arg>) -> Outcome<Option<Json>>)
      requires |calls| > 0
      ensures var r := Round(calls, callTool);
        && r[|r| - 1] == SendToModel(FunctionResponses(Batch(calls, callTool)))
        && (forall i :: 0 <= i < |r| - 1 ==> !r[i].SendToModel?)
        && |Batch(calls, callTool)| > 0
        && PartNames(Batch(calls, callTool)) == RunSinceLastSend(r[..|r| - 1])
    {
      var r := Round(calls, callTool);
      var a := Announcements(calls);
      var d := Dispatches(calls);
      assert r[..|r| - 1] == a + d;
      RoundRunsBeforeSending(calls, callTool);
      NoSendRunsAll(a + d);
      AnnouncementsAnnounceTheCalls(calls);
      DispatchesRunTheCalls(calls);
      EventsAppend(a, d);
      BatchNamesTheCalls(calls, callTool);
    }

    /** Nothing before the end of a round is sent to the model. */
    lemma RoundRunsBeforeSending(calls: seq<FunctionCall>, callTool: (string, seq<Arg>) -> Outcome<Option<Json>>)
      ensures forall i :: 0 <= i < |Announcements(calls) + Dispatches(calls)| ==>
        !(Announcements(calls) + Dispatches(calls))[i].SendToModel?
    {
      var a := Announcements(calls);
      var d := Dispatches(calls);
      var ad: seq<Action> := a + d;
      forall i | 0 <= i < |ad|
        ensures !ad[i].SendToModel?
      {
        if i >= |a| {
          assert ad[i] == d[i - |a|];
        }
      }
    }

    /** The parts of a batch are named after its calls, in order. */
    lemma BatchNamesTheCalls(calls: seq<FunctionCall>, callTool: (string, seq<Arg>) -> Outcome<Option<Json>>)
      ensures PartNames(Batch(calls, callTool)) == seq(|calls|, i requires 0 <= i < |calls| => calls[i].name)
    {
      BatchAnswersEachCall(calls, callTool);
    }

    /** The batch sent back answers each call of the round, in order, under the call's name. */
    lemma BatchAnswersEachCall(calls: seq<FunctionCall>, callTool: (string, seq<Arg>) -> Outcome<Option<Json>>)
      ensures var b := Batch(calls, callTool);
        && |b| == |calls|
        && forall i :: 0 <= i < |calls| ==>
          && b[i].name == calls[i].name
          && (ToolOutcome(calls[i], callTool).Threw? <==> IsSingleKey(b[i].response, "error"))
    {
    }

    /**
     * With a repository built by `fetchFunctions`, a call routed locally
     * always finds its tool: it runs exactly one tool and is never answered
     * "not a valid function".
     */
    lemma LocalCallsFindTheirTool(servlets: seq<ToolCatalog.Servlet>, call: FunctionCall)
      requires ToolCatalog.FetchFunctions(servlets) == Ok(functionRepository)
      requires RouteOf(call.name) == Local
      ensures Repository.Call(functionRepository, call.name, call.args).invocations
        == [Invocation(call.name, Serialize(Envelope(call.name, call.args)))]
    {
      ToolCatalog.DeclaredNamesRunATool(servlets, call.name, call.args);
    }

    /** A model that throws at once ends the turn with the unknown-error event. */
    lemma ModelUnavailable(callTool: (string, seq<Arg>) -> Outcome<Option<Json>>)
      ensures Conversation([], 0, callTool) == [Emit(Error(UnknownErrorMessage))]
    {
    }

    /**
     * A reply asking for one call and then a reply with text: the call is
     * announced, run once, and the text ends the turn.
     */
    lemma OneCallThenAnswer(call: FunctionCall, text: string, callTool: (string, seq<Arg>) -> Outcome<Option<Json>>)
      ensures var c := Conversation([Reply(None, [call]), Reply(Some(text), [])], 0, callTool);
        && Events(c) == [ToolCall(call.name, call.args), Success(text)]
        && Dispatched(c) == [call.name]
        && |c| == 4
        && c[2] == SendToModel(FunctionResponses([ResponsePart(call, callTool)]))
    {
      var script := [Reply(None, [call]), Reply(Some(text), [])];
      ConversationStep(script, 0, callTool);
      ConversationStep(script, 1, callTool);
      var r := Round([call], callTool);
      var rest := Conversation(script, 1, callTool);
      assert rest == [Emit(Success(text))];
      RoundEventsAndRuns([call], callTool);
      AnnouncementsAnnounceTheCalls([call]);
      EventsAppend(r, rest);
      EventsOfOne(rest);
      assert Batch([call], callTool) == [ResponsePart(call, callTool)];
    }

    /** A reply with neither calls nor text ends the turn with the no-text error. */
    lemma NoTextIsAnError(callTool: (string, seq<Arg>) -> Outcome<Option<Json>>)
      ensures Events(Conversation([Reply(None, [])], 0, callTool)) == [Error(NoTextMessage)]
    {
      ConversationStep([Reply(None, [])], 0, callTool);
      EventsOfOne(Conversation([Reply(None, [])], 0, callTool));
    }
  }
}
