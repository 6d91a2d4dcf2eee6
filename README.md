# mobile-mcp-client: the tool-calling pipeline, modelled in Dafny

This project models the core of an Android chat client. The client lets a
Gemini model call tools, and those tools come from three places: the
device itself (`get_device_info`), mcp.run servlets, and an MCP server
reached through an in-memory transport pair. The model covers:

- **Schema translation** (`ParsedSchema.dfy`, module `SchemaTranslation`).
  A tool's JSON-Schema-like input description becomes Gemini parameter
  descriptors and a list of required names. The subset read is `type`,
  `enum` and `required` (sections 6.1.1, 6.1.2 and 6.5.3 of the JSON Schema
  2020-12 Validation vocabulary) and `items` and `properties` (sections
  10.3.1.2 and 10.3.2.1 of JSON Schema 2020-12 Core), plus `name`,
  `description` and `format`. `Parse` is the specification. `ParseObject`
  is the source's loop, proved to compute `Parse`.
- **JSON** (`JsonValue.dfy`). A JSON datatype with Android org.json
  lookup semantics:
  - the last binding of a key wins, and `keys()` lists each key once, at
    the place of its first binding;
  - `optString` coerces any present value to text and falls back only when
    the key is absent;
  - `getJSONObject`/`getJSONArray` on a value of the wrong type fail.
- **Tool registries** (`Repository.dfy`, `ClientRepository.dfy`,
  `ToolCatalog.dfy`). Each is a pair of name-keyed maps: declarations for
  the model, and handlers. `call` looks the name up and runs the handler
  on the serialized `tools/call` envelope. The answer is always
  `{"result": ...}`. The catalog of mcp.run tools is built with `toMap`,
  where the last tool of a name wins.
- **In-memory transports** (`Transport.dfy`). Two classes, each with a
  nullable peer. `send` hands a message straight to the peer, or drops it
  when there is no peer.
- **MCP client** (`McpClient.dfy`, module `Mcp`). `startClient` wires the
  transports. `getTool` maps listed MCP tools to declarations. `call`
  wraps the SDK result.
- **Chat loop** (`ChatSession.dfy`, module `Chat`). `ChatSession.send`
  works like this:
  1. It sends the prompt.
  2. While the model asks for function calls, it announces each call with
     a `ToolCall` event.
  3. It runs each call, locally if the local repository declares the name
     and through MCP otherwise. A failing call becomes an `{"error": ...}`
     part.
  4. It sends the batch back.
  5. It ends with one `Success` or `Error` event.

  The model is a finite script of replies. The loop (`Send`) is proved to
  produce the action log of the recursive `Conversation`. Then the stream
  shape, the routing and the ordering are proved about `Conversation`.
- **Chat screen** (`ChatUi.dfy`). In `MainChatViewModel.sendPrompt`, the
  user's message and an AI placeholder are appended. Each event then
  rewrites only the placeholder. The loop is proved against a fold of the
  events, and the final appearance of the placeholder is tied to the
  stream shape proved for `send`.

Nothing is executed. The SDKs, the Gemini model, the network and the
device are parameters: an oracle function for MCP `callTool`, a script of
model replies, an `Outcome` for tool handlers that may throw, and strings
for UUIDs and device information.

Where the specification and the code disagree, the model follows the code:

- A call whose name the local repository does not declare is sent to the
  MCP client. It is not answered as an unknown tool.
- The repositories answer an unknown name under the key `"result"`, not
  `"error"`.

## Model

| member | source | states |
|---|---|---|
| JsonValue.KeyOrder | app/src/main/java/com/xcc/mcpx4android/utils/ParsedSchema.kt:42 | `keys()` of a parsed object lists every key of its members exactly once, with no repeats |
| SchemaTranslation.ParseObject | app/src/main/java/com/xcc/mcpx4android/utils/ParsedSchema.kt:14-55 | the loop over `properties.keys()` that fills the mutable parameter list computes exactly the translation `Parse`, including the first property error that escapes |
| SchemaTranslation.ScalarNodeGivesOneParameter | app/src/main/java/com/xcc/mcpx4android/utils/ParsedSchema.kt:16-24 | a node with `type` and no `properties` gives exactly one parameter and no required names; the parameter is named by `name` (default "value") and described by `description` (default the type) |
| SchemaTranslation.NoPropertiesGivesNothing | app/src/main/java/com/xcc/mcpx4android/utils/ParsedSchema.kt:26-38 | a node that is not scalar and has no object `properties` gives no parameters and no required names, even when `required` is present |
| SchemaTranslation.RequiredIsCopied | app/src/main/java/com/xcc/mcpx4android/utils/ParsedSchema.kt:28-34 | `required` is copied from the array; a missing or non-array `required` gives an empty list and never makes translation fail |
| SchemaTranslation.ParseKeysKeepsFailure | app/src/main/java/com/xcc/mcpx4android/utils/ParsedSchema.kt:40-52 | once a property fails, the loop's result is that failure, whatever keys follow |
| SchemaTranslation.OneParameterPerKey | app/src/main/java/com/xcc/mcpx4android/utils/ParsedSchema.kt:40-52 | the walk over any key list succeeds iff each key's property translates, and then gives one parameter per key, in list order |
| SchemaTranslation.OneParameterPerProperty | app/src/main/java/com/xcc/mcpx4android/utils/ParsedSchema.kt:40-52 | the loop succeeds iff every distinct key's property translates, and then gives exactly one parameter per distinct key, in `keys()` order (first appearance), built from the key's last value |
| SchemaTranslation.RepeatedKeyGivesOneParameter | app/src/main/java/com/xcc/mcpx4android/utils/ParsedSchema.kt:40-52 | a key given twice, first as a string and then as an integer, yields one parameter, of the later type |
| SchemaTranslation.PropertyParamNamedByKey | app/src/main/java/com/xcc/mcpx4android/utils/ParsedSchema.kt:40-52 | each property's parameter is named by its key and described by its `description` (default its type); a property without `type` is an object |
| SchemaTranslation.CreateSchemaForTypeNamesParameter | app/src/main/java/com/xcc/mcpx4android/utils/ParsedSchema.kt:57-114 | a translated parameter carries the name and description it was given |
| SchemaTranslation.TypeNameRoundTrip | app/src/main/java/com/xcc/mcpx4android/utils/ParsedSchema.kt:57-114 | the parameter's kind reads back as the declared type for the six known types and as "string" for any other; the type alone never makes translation fail |
| SchemaTranslation.StringParameter | app/src/main/java/com/xcc/mcpx4android/utils/ParsedSchema.kt:64-73 | a string with `enum` gives an Enum of the values in order (failing iff `enum` is not an array); otherwise free text |
| SchemaTranslation.NumericParameter | app/src/main/java/com/xcc/mcpx4android/utils/ParsedSchema.kt:75-85 | an integer is Long iff `format` is "int64" and Int otherwise; a number is Double; a boolean is Bool |
| SchemaTranslation.ArrayParameter | app/src/main/java/com/xcc/mcpx4android/utils/ParsedSchema.kt:86-98 | with an `items` object, the item is the first parameter of its translation (none if there is none); without one, there is no item |
| SchemaTranslation.ObjectParameter | app/src/main/java/com/xcc/mcpx4android/utils/ParsedSchema.kt:100-110 | with nested `properties`, the children are exactly one parameter per distinct nested key, in `keys()` order, and the nested `required` is dropped; without them, an empty object |
| SchemaTranslation.FlatStringSchema | app/src/main/java/com/xcc/mcpx4android/utils/ParsedSchema.kt:8-24 | `{"type":"string"}` gives one string parameter named "value" and no required names |
| Repository.CallTool | app/src/main/java/com/xcc/mcpx4android/domain/repository/FunctionRepository.kt:12-32 | an unknown name runs nothing and answers `{"result": name + " is not a valid function"}`; a known name runs its tool once on the `tools/call` envelope; a normal answer is always a single-key `result` object |
| Repository.RegisteredToolRunsOnce | app/src/main/java/com/xcc/mcpx4android/domain/repository/FunctionRepository.kt:17-31 | a registered tool runs exactly once; its raw output comes back unchanged under "result", and its exception propagates |
| Repository.EnvelopeCarriesArguments | app/src/main/java/com/xcc/mcpx4android/domain/repository/FunctionRepository.kt:17-23 | the envelope names method "tools/call" and the tool, and its `params.arguments` decodes back to exactly the arguments passed |
| ClientRepository.DeviceInfoTool | app/src/main/java/com/xcc/mcpx4android/mcpx/ClientFunctionRepository.kt:24-37 | the device tool is named `get_device_info`, has no schema object, and answers the device information whatever its input |
| ClientRepository.DeviceInfoDeclaration | app/src/main/java/com/xcc/mcpx4android/mcpx/ClientFunctionRepository.kt:39-44 | the advertised declaration has the tool's name and description, no parameters and no required names |
| ClientRepository.ClientFunctionRepository.constructor | app/src/main/java/com/xcc/mcpx4android/mcpx/ClientFunctionRepository.kt:17-48 | after construction each map holds exactly one entry, keyed `get_device_info`; the two maps have the same keys and every entry is filed under its own name |
| ClientRepository.ClientFunctionRepository.Call | app/src/main/java/com/xcc/mcpx4android/mcpx/ClientFunctionRepository.kt:72-92 | an unregistered name runs nothing and answers "not a valid function" under "result"; a registered name runs its tool once on the envelope |
| ClientRepository.DeviceInfoAnswersRegardlessOfArguments | app/src/main/java/com/xcc/mcpx4android/mcpx/ClientFunctionRepository.kt:34-36 | `get_device_info` answers `{"result": deviceInfo}` whatever the arguments; every other name runs nothing |
| ToolCatalog.ToMapKeys | app/src/main/java/com/xcc/mcpx4android/data/datasource/ToolFetcher.kt:40-49 | the keys of `toMap()` are exactly the keys of the pairs |
| ToolCatalog.ToMapLastWins | app/src/main/java/com/xcc/mcpx4android/data/datasource/ToolFetcher.kt:40-49 | the value kept for a key is that of its last pair |
| ToolCatalog.DeclarationTranslatesSchema | app/src/main/java/com/xcc/mcpx4android/data/datasource/ToolFetcher.kt:53-62 | a declaration exists iff the schema text is an object that translates; it carries the tool's name, its description unchanged, and the parameters and required names of `Parse` |
| ToolCatalog.MapsAgree | app/src/main/java/com/xcc/mcpx4android/data/datasource/ToolFetcher.kt:40-50 | the two maps built from the same tool sequence have equal key sets; each tool is filed under its own name, beside its own translated declaration |
| ToolCatalog.CatalogConsistent | app/src/main/java/com/xcc/mcpx4android/data/datasource/ToolFetcher.kt:40-50 | a fetched repository has equal key sets, and every declaration is named by its key and is the translation of the tool filed under that key |
| ToolCatalog.FetchFailsOnFirstBadSchema | app/src/main/java/com/xcc/mcpx4android/data/datasource/ToolFetcher.kt:40-44 | fetching succeeds iff every tool's schema translates; otherwise it fails with the error of the first tool, in servlet order, that does not translate |
| ToolCatalog.LastToolWins | app/src/main/java/com/xcc/mcpx4android/data/datasource/ToolFetcher.kt:40-49 | of several tools with one name, the declaration kept is the last one's |
| ToolCatalog.DeclaredNamesRunATool | app/src/main/java/com/xcc/mcpx4android/data/datasource/ToolFetcher.kt:40-50 | every name declared by a fetched repository runs exactly one tool when called |
| Transport.ServerTransport.constructor | app/src/main/java/com/xcc/mcpx4android/data/datasource/InMemoryServerTransport.kt:8 | a new server endpoint has no peer and has received nothing |
| Transport.ServerTransport.ConnectClient | app/src/main/java/com/xcc/mcpx4android/data/datasource/InMemoryServerTransport.kt:10-12 | the peer is replaced by the given client endpoint; nothing else changes |
| Transport.ServerTransport.Close | app/src/main/java/com/xcc/mcpx4android/data/datasource/InMemoryServerTransport.kt:14 | closing changes nothing: the peer stays set |
| Transport.ServerTransport.Start | app/src/main/java/com/xcc/mcpx4android/data/datasource/InMemoryServerTransport.kt:20 | starting changes nothing |
| Transport.ServerTransport.Send | app/src/main/java/com/xcc/mcpx4android/data/datasource/InMemoryServerTransport.kt:16-18 | with a peer, the message is appended once, unchanged, to the peer's handler log; without one, nothing changes |
| Transport.ServerTransport.ReceiveMsg | app/src/main/java/com/xcc/mcpx4android/data/datasource/InMemoryServerTransport.kt:22-24 | the message is passed unchanged to this endpoint's own handler |
| Transport.ClientTransport.constructor | app/src/main/java/com/xcc/mcpx4android/mcp/InMemoryClientTransport.kt:8 | a new client endpoint has no peer and has received nothing |
| Transport.ClientTransport.ConnectServer | app/src/main/java/com/xcc/mcpx4android/mcp/InMemoryClientTransport.kt:10-12 | the peer is replaced by the given server endpoint; nothing else changes |
| Transport.ClientTransport.Close | app/src/main/java/com/xcc/mcpx4android/mcp/InMemoryClientTransport.kt:14-15 | closing changes nothing: the peer stays set |
| Transport.ClientTransport.Start | app/src/main/java/com/xcc/mcpx4android/mcp/InMemoryClientTransport.kt:21-22 | starting changes nothing |
| Transport.ClientTransport.Send | app/src/main/java/com/xcc/mcpx4android/mcp/InMemoryClientTransport.kt:17-19 | with a peer, the message is appended once, unchanged, to the peer's handler log; without one, nothing changes |
| Transport.ClientTransport.ReceiveMsg | app/src/main/java/com/xcc/mcpx4android/mcp/InMemoryClientTransport.kt:24-26 | the message is passed unchanged to this endpoint's own handler |
| Transport.SendBeforeConnectIsDropped | app/src/main/java/com/xcc/mcpx4android/data/datasource/InMemoryServerTransport.kt:16-18 | a message sent before a peer is connected is dropped, not queued; the peer sees only later messages |
| Transport.ReconnectReplacesPeer | app/src/main/java/com/xcc/mcpx4android/mcp/InMemoryClientTransport.kt:10-12 | after reconnecting, only the newest peer receives |
| Transport.CloseKeepsDelivering | app/src/main/java/com/xcc/mcpx4android/mcp/InMemoryClientTransport.kt:14-22 | after `start` and `close`, a send still arrives |
| Transport.MessagesArriveInOrder | app/src/main/java/com/xcc/mcpx4android/mcp/InMemoryClientTransport.kt:17-19 | a sequence of sends arrives at the peer exactly once each, unchanged and in order, and nothing comes back |
| Mcp.DeclareTools | app/src/main/java/com/xcc/mcpx4android/mcp/McpClient.kt:54-62 | one declaration per listed tool, in order, with the tool's name, a missing description replaced by "", and the translation of the tool's input schema; succeeds iff every schema translates |
| Mcp.ToolJsonIsNotASchema | app/src/main/java/com/xcc/mcpx4android/mcp/McpClient.kt:55 | the serialized tool has neither `type` nor `properties` at its top level |
| Mcp.AsWrittenDropsEveryParameter | app/src/main/java/com/xcc/mcpx4android/mcp/McpClient.kt:54-62 | as written, every listed tool is declared with no parameters and no required names, whatever its schema |
| Mcp.EchoSchemaTranslates | app/src/main/java/com/xcc/mcpx4android/utils/ParsedSchema.kt:14-55 | a one-property object schema with `required` translates to that one string parameter, which is required |
| Mcp.EchoLosesItsParameter | app/src/main/java/com/xcc/mcpx4android/mcp/McpClient.kt:55 | for one concrete tool, the as-written mapping declares no parameter, and the corrected mapping declares its required string parameter |
| Mcp.McpClient.constructor | app/src/main/java/com/xcc/mcpx4android/mcp/McpClient.kt:19-21 | no client yet; two fresh endpoints, not connected, that have received nothing |
| Mcp.HopsGoOneWay | app/src/main/java/com/xcc/mcpx4android/mcp/McpClient.kt:40 | every handshake message travels to exactly one of the two endpoints |
| Mcp.McpClient.StartClient | app/src/main/java/com/xcc/mcpx4android/mcp/McpClient.kt:23-45 | unless building the client fails, the client is set with "Android MCP Client" 1.0.0 and strict capabilities, the endpoints are connected both ways, and each endpoint's handler has received, in order, the handshake messages sent its way; if building fails nothing changes; any failure is caught |
| Mcp.McpClient.Exchange | app/src/main/java/com/xcc/mcpx4android/mcp/McpClient.kt:40 | over connected endpoints, each handshake message reaches the other side's handler once, in order, and the wiring stays |
| Mcp.McpClient.GetTool | app/src/main/java/com/xcc/mcpx4android/mcp/McpClient.kt:53-65 | corrected to translate each input schema: with no client, or an empty listing, no declarations; an exception from `listTools` propagates; otherwise the declarations of the listed tools, or the first schema failure |
| Mcp.McpClient.GetToolAsWritten | app/src/main/java/com/xcc/mcpx4android/mcp/McpClient.kt:53-65 | as written: the same cases, but every listed tool is declared with its name and description and no parameters |
| Mcp.GetToolAsWrittenKeepsOnlyNames | app/src/main/java/com/xcc/mcpx4android/mcp/McpClient.kt:53-65 | when the corrected `getTool` succeeds, the one as written gives the same declarations with parameters and required names emptied, and so differs on every tool that has parameters |
| Mcp.McpClient.Call | app/src/main/java/com/xcc/mcpx4android/mcp/McpClient.kt:67-71 | always a single-key `result` object holding the serialized SDK result ("null" with no client); throws iff the SDK call throws |
| Mcp.StartedClientConnectsBothWays | app/src/main/java/com/xcc/mcpx4android/mcp/McpClient.kt:36-40 | after `startClient`, even when the handshake fails, a message on either endpoint reaches the other, after the handshake messages that went the same way |
| Mcp.FailedStartDropsMessages | app/src/main/java/com/xcc/mcpx4android/mcp/McpClient.kt:23-45 | when the client cannot be built, nothing is connected and messages are dropped |
| Chat.AnnouncementsAnnounceTheCalls | app/src/main/java/com/xcc/mcpx4android/mcpx/ChatSession.kt:93-95 | the announcements of a batch are one `ToolCall` per call, in call order, and run nothing |
| Chat.ChatSession.RouteOf | app/src/main/java/com/xcc/mcpx4android/mcpx/ChatSession.kt:100-104 | a call runs locally iff the local repository declares its name |
| Chat.ChatSession.ToolOutcome | app/src/main/java/com/xcc/mcpx4android/mcpx/ChatSession.kt:100-104 | whichever route runs it, a call that returns answers with a single-key `result` object |
| Chat.ChatSession.ResponsePart | app/src/main/java/com/xcc/mcpx4android/mcpx/ChatSession.kt:98-110 | the part is named after its call and holds the tool's `result` object, or `{"error": message or "Tool execution failed"}` when the call threw |
| Chat.ChatSession.Send | app/src/main/java/com/xcc/mcpx4android/mcpx/ChatSession.kt:83-129 | the loop's log is the prompt followed by exactly the conversation that the script of replies determines |
| Chat.ChatSession.RunRound | app/src/main/java/com/xcc/mcpx4android/mcpx/ChatSession.kt:89-117 | the two inner loops of one turn compute exactly one `Round`: every call announced, every call run and answered, the batch sent back |
| Chat.ChatSession.DispatchesRunTheCalls | app/src/main/java/com/xcc/mcpx4android/mcpx/ChatSession.kt:98-110 | a batch runs its calls in call order and emits nothing |
| Chat.ChatSession.RoundEventsAndRuns | app/src/main/java/com/xcc/mcpx4android/mcpx/ChatSession.kt:89-117 | a round emits exactly its announcements and runs exactly its calls, in order |
| Chat.ChatSession.AnnouncedBeforeRun | app/src/main/java/com/xcc/mcpx4android/mcpx/ChatSession.kt:93-110 | within a round, every `ToolCall` event comes before any call of the round runs |
| Chat.ChatSession.ConversationStep | app/src/main/java/com/xcc/mcpx4android/mcpx/ChatSession.kt:89-127 | the reply to each message decides the next step: a failure ends with one error, a reply without calls ends with one final event, a reply with calls runs one round and continues |
| Chat.ChatSession.StreamShape | app/src/main/java/com/xcc/mcpx4android/mcpx/ChatSession.kt:83-128 | every emitted stream is a run of `ToolCall` events followed by exactly one terminal `Success` or `Error` |
| Chat.ChatSession.RunAsAnnounced | app/src/main/java/com/xcc/mcpx4android/mcpx/ChatSession.kt:89-110 | the calls that run are exactly the calls announced, in the same order |
| Chat.ChatSession.RoutedByDeclaration | app/src/main/java/com/xcc/mcpx4android/mcpx/ChatSession.kt:100-104 | every call in a conversation runs locally iff the local repository declares its name, and through MCP otherwise |
| Chat.NoSendRunsAll | app/src/main/java/com/xcc/mcpx4android/mcpx/ChatSession.kt:98-110 | before any message is sent, every call run counts as run since the last message |
| Chat.SendRestartsTheCount | app/src/main/java/com/xcc/mcpx4android/mcpx/ChatSession.kt:113-117 | a message sent to the model starts the count of calls run afresh |
| Chat.ChatSession.RoundSendsItsBatch | app/src/main/java/com/xcc/mcpx4android/mcpx/ChatSession.kt:89-117 | a round sends one message, at its end: the batch of its calls, with one part per call run in the round, named after it |
| Chat.ChatSession.ModelGetsEveryResponse | app/src/main/java/com/xcc/mcpx4android/mcpx/ChatSession.kt:113-117 | every message sent after the prompt is a `"function"`-role batch of the session's response parts, with exactly one part per call run since the previous message, in the order they ran, named after them |
| Chat.ChatSession.BatchAnswersEachCall | app/src/main/java/com/xcc/mcpx4android/mcpx/ChatSession.kt:98-117 | the batch sent back has one part per call, in order, named after the call; a part is an error iff its call threw |
| Chat.ChatSession.LocalCallsFindTheirTool | app/src/main/java/com/xcc/mcpx4android/mcpx/ChatSession.kt:100-101 | with a repository built by `fetchFunctions`, a call routed locally always runs exactly one tool |
| Chat.ChatSession.ModelUnavailable | app/src/main/java/com/xcc/mcpx4android/mcpx/ChatSession.kt:125-127 | a model that throws without a message ends the turn with "An unknown error occurred" |
| Chat.ChatSession.OneCallThenAnswer | app/src/main/java/com/xcc/mcpx4android/mcpx/ChatSession.kt:86-123 | one requested call and then a text reply: the call is announced, run once, its answer sent back, and the text ends the turn |
| Chat.ChatSession.NoTextIsAnError | app/src/main/java/com/xcc/mcpx4android/mcpx/ChatSession.kt:121-123 | a reply with neither calls nor text ends the turn with the no-text error |
| ChatUi.ToolCallInfoListsArguments | app/src/main/java/com/xcc/mcpx4android/MainChatViewModel.kt:93 | the tool-call line is the name, "(", the `key=value` texts (null printed as "null") joined by ", ", then ")"; the join agrees with an independent join written from the front |
| ChatUi.JoinArgsFromFront | app/src/main/java/com/xcc/mcpx4android/MainChatViewModel.kt:93 | `joinToString()` as modelled agrees with the join written from the front: the first text, then ", " before each later one |
| ChatUi.UpdateMessage | app/src/main/java/com/xcc/mcpx4android/MainChatViewModel.kt:87-113 | an event never changes the id or sender; `ToolCall` keeps the text and the error message and sets TOOL_CALL; a terminal event clears the tool-call line |
| ChatUi.ApplyEvent | app/src/main/java/com/xcc/mcpx4android/MainChatViewModel.kt:84-117 | an event keeps the length and order of the list, updates the messages with the placeholder's id and leaves every other message unchanged |
| ChatUi.SettleKeepsId | app/src/main/java/com/xcc/mcpx4android/MainChatViewModel.kt:84-117 | no sequence of events changes a message's id or sender |
| ChatUi.EventsTouchOnlyThePlaceholder | app/src/main/java/com/xcc/mcpx4android/MainChatViewModel.kt:80-122 | a whole stream keeps the list's length and every other message, and the placeholder goes through every event in order |
| ChatUi.ToolCallsKeepText | app/src/main/java/com/xcc/mcpx4android/MainChatViewModel.kt:88-94 | `ToolCall` events keep the text and error message; after at least one, the placeholder shows TOOL_CALL and the last call's line |
| ChatUi.SettledByLastEvent | app/src/main/java/com/xcc/mcpx4android/MainChatViewModel.kt:96-111 | after a well-formed stream, the placeholder is as the terminal event leaves it: SUCCESS with the text, or ERROR with "Error: " and the message; the tool-call line is cleared |
| ChatUi.PlaceholderShowsOutcome | app/src/main/java/com/xcc/mcpx4android/MainChatViewModel.kt:78-123 | for any stream `send` emits, the placeholder ends as SUCCESS or ERROR with no tool-call line, and every other message is unchanged |
| ChatUi.CollectionFailureMarksPlaceholder | app/src/main/java/com/xcc/mcpx4android/MainChatViewModel.kt:124-146 | a collection failure sets only the placeholder to ERROR, with the exception's message or "Flow collection failed" |
| ChatUi.OnlyConversationsChange | app/src/main/java/com/xcc/mcpx4android/MainChatViewModel.kt:119-121 | when the screen is not showing a conversation, events and failures leave it as it is |
| ChatUi.MainChatViewModel.constructor | app/src/main/java/com/xcc/mcpx4android/MainChatViewModel.kt:23-24 | the screen starts as `UiState.Loading` |
| ChatUi.MainChatViewModel.ModelReady | app/src/main/java/com/xcc/mcpx4android/MainChatViewModel.kt:47-53 | once the model is ready, the conversation holds only the greeting, with state SUCCESS |
| ChatUi.MainChatViewModel.SendPrompt | app/src/main/java/com/xcc/mcpx4android/MainChatViewModel.kt:66-149 | outside a conversation, nothing changes; otherwise the user message and an empty LOADING placeholder are appended, then each event, and any collection failure, is applied to the placeholder in order |
| ChatUi.PromptBeforeReadyIsIgnored | app/src/main/java/com/xcc/mcpx4android/MainChatViewModel.kt:68 | a prompt sent before the model is ready is ignored |
| ChatUi.AnswerAfterOneToolCall | app/src/main/java/com/xcc/mcpx4android/MainChatViewModel.kt:66-122 | after a greeting and a prompt answered after one tool call, the list is the greeting, the prompt and the answer with SUCCESS and no tool-call line |

## Left out

- Network and SDK I/O: the mcp.run session and `refreshInstallations` in `ToolFetcher`, the Gemini model and `ChatSession.init`, and the MCP SDK `Client`/`Server`. The installed servlets, a script of model replies and an oracle for `callTool` are parameters.
- Concurrency: coroutines, `Flow` machinery, and the races between the view model's `launch` blocks. Each operation runs alone, in order.
- `connectServer`, `closeClient` and the MCP handshake: these are SDK calls. A failing handshake is a `StartFailure` value.
- Mcp.McpClient.StartClient: the content of the handshake and the SDK's reactions to it are not modelled; the messages the SDK exchanges before `connect` returns or throws are a parameter, sent one at a time in the given order.
- Mcp.McpClient.GetTool: an exception from `ParsedSchema.parse` and one from `listTools` are kept apart (`BadSchema` and `ListingFailed`); the source lets both escape alike.
- `getDeviceSystemInfo` and `DeviceInfoMcpServer`: the device information is a string parameter.
- JSON text: parsing text is not modelled, and a schema text that is not an object is `None`. Numbers are kept as literal text. `Serialize` does not escape strings. Gson's output format is modelled only by the members it writes.
- Logging (`Log.*`) and UUID generation. Message ids are parameters.
- Chat.ChatSession.Send: the Gemini chat is a finite script; a request past the end of the script is answered as a model failure. The model does not claim the loop terminates for an arbitrary model.
- `SchemaTranslation`: an exception other than the three org.json failures modelled (`SchemaError`) is not represented.
- UI rendering, navigation, `BakingViewModel`, `McpServerViewModel` and `McpServerRepository`: these are not part of this model.

## Findings

| source | as written | input that shows it | evidently intended | confidence | as-written member | corrected member |
|---|---|---|---|---|---|---|
| app/src/main/java/com/xcc/mcpx4android/mcp/McpClient.kt:55 | `getTool` translates `Gson().toJson(tool)`, the whole MCP tool, whose top level holds `name`, `description` and `inputSchema` but neither `type` nor `properties` | a tool "echo" whose input schema is `{"type":"object","properties":{"text":{"type":"string"}},"required":["text"]}` is declared with no parameters | translate the tool's `inputSchema`, so that "echo" is declared with its required string parameter `text` | not executed | Mcp.AsWrittenDropsEveryParameter | Mcp.DeclareTools |
