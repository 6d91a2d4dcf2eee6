/**
 * `FunctionRepository`: an immutable pair of name-keyed maps, the function
 * declarations advertised to the model and the mcp.run tools that implement
 * them, with `call`, which looks a tool up, wraps the arguments in a
 * JSON-RPC-shaped `tools/call` envelope (the Model Context Protocol's
 * `tools/call` request, here without `jsonrpc` and `id` members) and wraps
 * the tool's raw output as `{"result": output}`.
 */
module Repository {
  import opened Common
  import opened JsonValue
  import opened SchemaTranslation

  /** Gemini's `FunctionDeclaration`. */
  datatype FunctionDeclaration = FunctionDeclaration(
    name: string,
    description: string,
    parameters: seq<Param>,
    requiredParameters: seq<string>)

  /**
   * An `McpxTool`. `inputSchema` is the object its schema text parses to, or
   * None when that text is not a JSON object; `call` is the tool's opaque
   * implementation, from the serialized request to its output (or the
   * exception it throws).
   */
  datatype McpxTool = McpxTool(
    name: string,
    description: string,
    inputSchema: Option<seq<Member>>,
    call: string -> Outcome<string>)

  /** One entry of a `Map<String, String?>` of call arguments, in map order. */
  type Arg = (string, Option<string>)

  /** A record that a tool implementation was run with the given input text. */
  datatype Invocation = Invocation(tool: string, input: string)

  /** What `call` returns (or throws), with the tool runs it caused. */
  datatype CallOutcome = CallOutcome(invocations: seq<Invocation>, result: Outcome<Json>)

  datatype FunctionRepository = FunctionRepository(
    functionDeclarations: map<string, FunctionDeclaration>,
    mcpxTools: map<string, McpxTool>)

  /** `JSONObject(args)`: a null argument becomes JSON null. */
  function ArgsJson(args: seq<Arg>): Json {
    JObj(seq(|args|, i requires 0 <= i < |args| =>
      Member(args[i].0, if args[i].1.Some? then JStr(args[i].1.value) else JNull)))
  }

  /** `{"method": "tools/call", "params": {"name": name, "arguments": args}}` */
  function Envelope(name: string, args: seq<Arg>): Json {
    JObj([Member("method", JStr("tools/call")),
          Member("params", JObj([Member("name", JStr(name)), Member("arguments", ArgsJson(args))]))])
  }

  /** `JSONObject(mapOf("result" to value))` */
  function ResultObject(value: Json): Json {
    JObj([Member("result", value)])
  }

  /** A single-member object whose one key is `key`. */
  predicate IsSingleKey(j: Json, key: string) {
    j.JObj? && |j.members| == 1 && j.members[0].key == key
  }

  /**
   * `call`, shared by `FunctionRepository` and `ClientFunctionRepository`,
   * whose two copies of it are identical.
   */
  function CallTool(tools: map<string, McpxTool>, name: string, args: seq<Arg>): (r: CallOutcome)
    ensures name !in tools ==> r == CallOutcome([], Done(ResultObject(JStr(name + " is not a valid function"))))
    ensures name in tools ==> r.invocations == [Invocation(name, Serialize(Envelope(name, args)))]
    ensures r.result.Done? ==> IsSingleKey(r.result.value, "result")
  {
    if name !in tools then
      CallOutcome([], Done(ResultObject(JStr(name + " is not a valid function"))))
    else
      var input := Serialize(Envelope(name, args));
      var outcome := match tools[name].call(input)
        case Done(res) => Done(ResultObject(JStr(res)))
        case Threw(message) => Threw(message);
      CallOutcome([Invocation(name, input)], outcome)
  }

  /** `FunctionRepository.call` */
  function Call(repo: FunctionRepository, name: string, args: seq<Arg>): CallOutcome {
    CallTool(repo.mcpxTools, name, args)
  }

  /**
   * A registered tool is run once with the serialized envelope; its raw
   * output comes back unchanged under "result", and an exception it throws
   * propagates.
   */
  lemma RegisteredToolRunsOnce(tools: map<string, McpxTool>, name: string, args: seq<Arg>)
    requires name in tools
    ensures var r := CallTool(tools, name, args);
      var out := tools[name].call(Serialize(Envelope(name, args)));
      && |r.invocations| == 1
      && r.invocations[0].tool == name
      && (r.result.Done? <==> out.Done?)
      && (out.Done? ==> r.result.value == ResultObject(JStr(out.value)))
      && (out.Threw? ==> r.result == Threw(out.message))
  {
  }

  /** The arguments as the tool sees them, read back from `params.arguments`. */
  function DecodeArgs(j: Json): seq<Arg> {
    match j
    case JObj(ms) =>
      seq(|ms|, i requires 0 <= i < |ms| =>
        (ms[i].key, if ms[i].value.JNull? then None else Some(Text(ms[i].value))))
    case _ => []
  }

  /**
   * The envelope names the `tools/call` method and the tool, and its
   * `params.arguments` reads back as exactly the arguments passed.
   */
  lemma EnvelopeCarriesArguments(name: string, args: seq<Arg>)
    ensures var env := Envelope(name, args).members;
      && Get(env, "method") == Some(JStr("tools/call"))
      && Get(env, "params").Some? && Get(env, "params").value.JObj?
      && Get(Get(env, "params").value.members, "name") == Some(JStr(name))
      && Get(Get(env, "params").value.members, "arguments").Some?
      && DecodeArgs(Get(Get(env, "params").value.members, "arguments").value) == args
  {
    var env := Envelope(name, args).members;
    assert Get(env, "params") == Some(env[1].value);
    var params := env[1].value.members;
    assert Get(params, "arguments") == Some(ArgsJson(args));
    var decoded := DecodeArgs(ArgsJson(args));
    assert |decoded| == |args|;
    forall i | 0 <= i < |args|
      ensures decoded[i] == args[i]
    {
      if args[i].1.Some? {
        assert Text(JStr(args[i].1.value)) == args[i].1.value;
      }
    }
  }
}
