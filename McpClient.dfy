/**
 * `McpClient`: the MCP client of the app. It owns one in-memory transport
 * pair, wires the two endpoints to each other when it starts, turns the
 * tools the MCP server lists into Gemini function declarations, and wraps
 * the results of `tools/call` requests.
 *
 * The MCP SDK's `Client` is an oracle: its handshake, `listTools` and
 * `callTool` are given as parameters.
 */
module Mcp {
  import opened Common
  import opened JsonValue
  import opened SchemaTranslation
  import opened Repository
  import opened Transport

  /** The SDK's `Implementation` record. */
  datatype Implementation = Implementation(name: string, version: string)

  /** What the model keeps of an SDK `Client`: how it was configured. */
  datatype SdkClient = SdkClient(clientInfo: Implementation, enforceStrictCapabilities: bool)

  const AndroidClientInfo: Implementation := Implementation("Android MCP Client", "1.0.0")

  /** Where, if anywhere, the body of `startClient` throws. */
  datatype StartFailure =
    | NoFailure
    | ConstructionFails   // `Client(clientInfo, clientOptions)` throws
    | ConnectFails        // `client.connect(clientTransport)` throws

  /**
   * One message of the SDK handshake that `client.connect` runs: sent by
   * the client endpoint to the server, or by the server endpoint back.
   */
  datatype Hop = ToServer(m: Json) | ToClient(m: Json)

  /** The handshake messages that travel to the server, in order. */
  function ServerBound(hops: seq<Hop>): (ms: seq<Json>)
    ensures |ms| <= |hops|
    ensures forall m :: m in ms ==> ToServer(m) in hops
  {
    if |hops| == 0 then []
    else
      var init := ServerBound(hops[..|hops| - 1]);
      assert forall h :: h in hops[..|hops| - 1] ==> h in hops;
      init + (if hops[|hops| - 1].ToServer? then [hops[|hops| - 1].m] else [])
  }

  /** The handshake messages that travel back to the client, in order. */
  function ClientBound(hops: seq<Hop>): (ms: seq<Json>)
    ensures |ms| <= |hops|
    ensures forall m :: m in ms ==> ToClient(m) in hops
  {
    if |hops| == 0 then []
    else
      var init := ClientBound(hops[..|hops| - 1]);
      assert forall h :: h in hops[..|hops| - 1] ==> h in hops;
      init + (if hops[|hops| - 1].ToClient? then [hops[|hops| - 1].m] else [])
  }

  /** One more hop adds its message to the one direction it travels. */
  lemma HopStep(hops: seq<Hop>, i: nat)
    requires i < |hops|
    ensures ServerBound(hops[..i + 1]) == ServerBound(hops[..i]) + (if hops[i].ToServer? then [hops[i].m] else [])
    ensures ClientBound(hops[..i + 1]) == ClientBound(hops[..i]) + (if hops[i].ToClient? then [hops[i].m] else [])
  {
    assert hops[..i + 1][..i] == hops[..i];
  }

  /** Every handshake message goes exactly one way. */
  lemma {:induction false} HopsGoOneWay(hops: seq<Hop>)
    ensures |ServerBound(hops)| + |ClientBound(hops)| == |hops|
  {
    if |hops| > 0 {
      HopsGoOneWay(hops[..|hops| - 1]);
    }
  }

  /** Why `getTool` fails: `listTools` threw, or a schema did not translate. */
  datatype ToolError = ListingFailed(message: Option<string>) | BadSchema(error: SchemaError)

  /** An MCP `Tool` as the server lists it; `inputSchema` is its JSON Schema object. */
  datatype McpTool = McpTool(name: string, description: Option<string>, inputSchema: seq<Member>)

  /**
   * `Gson().toJson(tool)` read back as an object: the tool's own fields,
   * with a null description left out.
   */
  function ToolJson(t: McpTool): seq<Member> {
    [Member("name", JStr(t.name))]
    + (if t.description.Some? then [Member("description", JStr(t.description.value))] else [])
    + [Member("inputSchema", JObj(t.inputSchema))]
  }

  /** The declaration `getTool` builds for one tool, as written: it translates the whole tool. */
  function AsWrittenDeclaration(t: McpTool): Result<FunctionDeclaration, SchemaError> {
    var schema :- Parse(ToolJson(t));
    Ok(FunctionDeclaration(t.name, t.description.GetOr(""), schema.parameters, schema.requiredParameters))
  }

  /** The declaration of one tool as intended: its input schema is what gets translated. */
  function ToolDeclaration(t: McpTool): Result<FunctionDeclaration, SchemaError> {
    var schema :- Parse(t.inputSchema);
    Ok(FunctionDeclaration(t.name, t.description.GetOr(""), schema.parameters, schema.requiredParameters))
  }

  /**
   * The declarations of the listed tools, as `getTool` maps them (corrected
   * to translate each tool's input schema): one per tool, in order, with
   * the tool's name, a missing description replaced by "", and the
   * parameters and required names of the schema's translation. A schema
   * that does not translate makes the whole listing fail.
   */
  function DeclareTools(tools: seq<McpTool>): (r: Result<seq<FunctionDeclaration>, SchemaError>)
    ensures r.Ok? <==> forall i :: 0 <= i < |tools| ==> Parse(tools[i].inputSchema).Ok?
    ensures r.Ok? ==>
      && |r.value| == |tools|
      && forall i :: 0 <= i < |tools| ==>
        && r.value[i].name == tools[i].name
        && r.value[i].description == tools[i].description.GetOr("")
        && Parse(tools[i].inputSchema) == Ok(ParsedSchema(r.value[i].parameters, r.value[i].requiredParameters))
  {
    MapAllOk(ToolDeclaration, tools);
    assert forall i :: 0 <= i < |tools| ==> (ToolDeclaration(tools[i]).Ok? <==> Parse(tools[i].inputSchema).Ok?);
    MapAll(ToolDeclaration, tools)
  }

  /** The same mapping as the source writes it. */
  function DeclareToolsAsWritten(tools: seq<McpTool>): Result<seq<FunctionDeclaration>, SchemaError> {
    MapAll(AsWrittenDeclaration, tools)
  }

  /** The serialized tool has neither `type` nor `properties` at its top level. */
  lemma ToolJsonIsNotASchema(t: McpTool)
    ensures !Has(ToolJson(t), "type") && !Has(ToolJson(t), "properties")
  {
    var ks := Keys(ToolJson(t));
    assert forall i :: 0 <= i < |ks| ==> ks[i] in {"name", "description", "inputSchema"};
  }

  /**
   * As written, `getTool` translates the serialized tool rather than its
   * input schema, so every declaration it builds has no parameters and no
   * required names, whatever the tool's schema says.
   */
  lemma AsWrittenDropsEveryParameter(tools: seq<McpTool>)
    ensures DeclareToolsAsWritten(tools).Ok? && |DeclareToolsAsWritten(tools).value| == |tools|
    ensures forall i :: 0 <= i < |tools| ==>
      DeclareToolsAsWritten(tools).value[i] == FunctionDeclaration(tools[i].name, tools[i].description.GetOr(""), [], [])
  {
    forall i | 0 <= i < |tools|
      ensures AsWrittenDeclaration(tools[i]) == Ok(FunctionDeclaration(tools[i].name, tools[i].description.GetOr(""), [], []))
    {
      ToolJsonIsNotASchema(tools[i]);
      NoPropertiesGivesNothing(ToolJson(tools[i]));
    }
    MapAllOk(AsWrittenDeclaration, tools);
  }

  /** `{"type":"object","properties":{"text":{"type":"string"}},"required":["text"]}` */
  function EchoSchema(): seq<Member> {
    [Member("type", JStr("object")),
     Member("properties", JObj([Member("text", JObj([Member("type", JStr("string"))]))])),
     Member("required", JArr([JStr("text")]))]
  }

  /** The echo schema translates to one string parameter `text`, which is required. */
  lemma EchoSchemaTranslates()
    ensures Parse(EchoSchema()) == Ok(ParsedSchema([Param("text", "string", Str)], ["text"]))
  {
    var schema := EchoSchema();
    var props := [Member("text", JObj([Member("type", JStr("string"))]))];
    EchoPropertiesTranslate();
    assert ParseProperties(props) == Ok([Param("text", "string", Str)]);
    assert Get(schema, "type") == Some(JStr("object"));
    assert Get(schema, "properties") == Some(JObj(props));
    assert Get(schema, "required") == Some(JArr([JStr("text")]));
    assert !IsScalarNode(schema);
    assert OptObject(schema, "properties") == Some(props);
    var required := Texts([JStr("text")]);
    assert required[0] == Text(JStr("text")) == "text";
    assert required == ["text"];
    assert RequiredNames(schema) == ["text"];
  }

  /** The one property of the echo schema, `text`, is a free-text string parameter. */
  lemma EchoPropertiesTranslate()
    ensures ParseProperties([Member("text", JObj([Member("type", JStr("string"))]))]) == Ok([Param("text", "string", Str)])
  {
    var text := [Member("type", JStr("string"))];
    var props := [Member("text", JObj(text))];
    assert Get(text, "type") == Some(JStr("string"));
    assert Get(text, "description") == None;
    assert Get(text, "enum") == None;
    assert props[..0] == [];
    assert KeyOrder(props) == ["text"];
    assert Get(props, "text") == Some(JObj(text));
    assert KeyParam(props, "text") == Ok(Param("text", "string", Str));
    OneKeyWalk(props, "text");
  }

  /**
   * A tool `echo` with one required string parameter `text`: as written it
   * is declared to the model with no parameters; translating its input
   * schema declares `text`.
   */
  lemma EchoLosesItsParameter()
    ensures DeclareToolsAsWritten([McpTool("echo", None, EchoSchema())])
      == Ok([FunctionDeclaration("echo", "", [], [])])
    ensures DeclareTools([McpTool("echo", None, EchoSchema())])
      == Ok([FunctionDeclaration("echo", "", [Param("text", "string", Str)], ["text"])])
  {
    var echo := McpTool("echo", None, EchoSchema());
    AsWrittenDropsEveryParameter([echo]);
    var w := DeclareToolsAsWritten([echo]).value;
    assert w == [w[0]];
    EchoSchemaTranslates();
    var r := DeclareTools([echo]);
    assert r.Ok? && |r.value| == 1;
    var d := r.value[0];
    assert ParsedSchema(d.parameters, d.requiredParameters) == ParsedSchema([Param("text", "string", Str)], ["text"]);
    assert r.value == [d];
  }

  /** The text `Gson().toJson(result)` gives for a (nullable) SDK result. */
  function GsonText(result: Option<Json>): string {
    match result
    case None => "null"
    case Some(j) => Serialize(j)
  }

  class McpClient {
    var client: Option<SdkClient>
    const clientTransport: ClientTransport
    const serverTransport: ServerTransport

    constructor ()
      ensures client.None?
      ensures fresh(clientTransport) && fresh(serverTransport)
      ensures clientTransport.serverTransport == null && clientTransport.received == []
      ensures serverTransport.clientTransport == null && serverTransport.received == []
    {
      client := None;
      clientTransport := new ClientTransport();
      serverTransport := new ServerTransport();
    }

    /**
     * `startClient`: creates the SDK client, then connects the server
     * endpoint to the client endpoint and back, then runs the SDK handshake
     * through the client endpoint. `handshake` is the messages the SDK
     * exchanges before `connect` returns or, for `ConnectFails`, throws.
     * A failure anywhere is caught and logged; it never reaches the caller.
     */
    method StartClient(failure: StartFailure, handshake: seq<Hop>)
      modifies this, clientTransport, serverTransport
      ensures failure == ConstructionFails ==>
        && client == old(client)
        && clientTransport.serverTransport == old(clientTransport.serverTransport)
        && serverTransport.clientTransport == old(serverTransport.clientTransport)
        && clientTransport.received == old(clientTransport.received)
        && serverTransport.received == old(serverTransport.received)
      ensures failure != ConstructionFails ==>
        && client == Some(SdkClient(AndroidClientInfo, true))
        && serverTransport.clientTransport == clientTransport
        && clientTransport.serverTransport == serverTransport
        && serverTransport.received == old(serverTransport.received) + ServerBound(handshake)
        && clientTransport.received == old(clientTransport.received) + ClientBound(handshake)
    {
      if failure == ConstructionFails {
        return;
      }
      client := Some(SdkClient(AndroidClientInfo, true));
      serverTransport.ConnectClient(clientTransport);
      clientTransport.ConnectServer(serverTransport);
      Exchange(handshake);
    }

    /** The SDK handshake over connected endpoints: each message reaches the other side's handler. */
    method Exchange(handshake: seq<Hop>)
      requires serverTransport.clientTransport == clientTransport
      requires clientTransport.serverTransport == serverTransport
      modifies clientTransport, serverTransport
      ensures serverTransport.clientTransport == clientTransport
      ensures clientTransport.serverTransport == serverTransport
      ensures serverTransport.received == old(serverTransport.received) + ServerBound(handshake)
      ensures clientTransport.received == old(clientTransport.received) + ClientBound(handshake)
    {
      var i := 0;
      while i < |handshake|
        invariant 0 <= i <= |handshake|
        invariant serverTransport.clientTransport == clientTransport
        invariant clientTransport.serverTransport == serverTransport
        invariant serverTransport.received == old(serverTransport.received) + ServerBound(handshake[..i])
        invariant clientTransport.received == old(clientTransport.received) + ClientBound(handshake[..i])
      {
        if handshake[i].ToServer? {
          clientTransport.Send(handshake[i].m);
        } else {
          serverTransport.Send(handshake[i].m);
        }
        HopStep(handshake, i);
        i := i + 1;
      }
      assert handshake[..i] == handshake;
    }

    /**
     * `getTool` (corrected to translate each tool's input schema): with no
     * client `listTools` is not called and there are no declarations; an
     * exception from `listTools` propagates; an empty listing gives no
     * declarations; otherwise those of the listed tools, or the failure of
     * the first schema that does not translate.
     */
    function GetTool(listing: Outcome<Option<seq<McpTool>>>): (r: Result<seq<FunctionDeclaration>, ToolError>)
      reads this
      ensures client.None? ==> r == Ok([])
      ensures client.Some? && listing.Threw? ==> r == Err(ListingFailed(listing.message))
      ensures client.Some? && listing == Done(None) ==> r == Ok([])
      ensures client.Some? && listing.Done? && listing.value.Some? ==>
        var tools := listing.value.value;
        && (r.Ok? <==> forall i :: 0 <= i < |tools| ==> Parse(tools[i].inputSchema).Ok?)
        && (r.Ok? ==> r == Ok(DeclareTools(tools).value))
        && (r.Err? ==> r == Err(BadSchema(DeclareTools(tools).error)))
    {
      if client.None? then Ok([])
      else
        match listing
        case Threw(message) => Err(ListingFailed(message))
        case Done(None) => Ok([])
        case Done(Some(tools)) =>
          match DeclareTools(tools)
          case Ok(declarations) => Ok(declarations)
          case Err(e) => Err(BadSchema(e))
    }

    /**
     * `getTool` as the source writes it: whenever the server lists tools,
     * each is declared with no parameters and no required names.
     */
    function GetToolAsWritten(listing: Outcome<Option<seq<McpTool>>>): (r: Result<seq<FunctionDeclaration>, ToolError>)
      reads this
      ensures client.None? || listing == Done(None) ==> r == Ok([])
      ensures client.Some? && listing.Threw? ==> r == Err(ListingFailed(listing.message))
      ensures client.Some? && listing.Done? && listing.value.Some? ==>
        var tools := listing.value.value;
        && r.Ok? && |r.value| == |tools|
        && forall i :: 0 <= i < |tools| ==>
          r.value[i] == FunctionDeclaration(tools[i].name, tools[i].description.GetOr(""), [], [])
    {
      if client.None? then Ok([])
      else
        match listing
        case Threw(message) => Err(ListingFailed(message))
        case Done(None) => Ok([])
        case Done(Some(tools)) =>
          AsWrittenDropsEveryParameter(tools);
          Ok(DeclareToolsAsWritten(tools).value)
    }

    /**
     * `call`: always a single-key `{"result": ...}` object holding the
     * serialized SDK result; with no client the result is null and is
     * serialized as "null". An exception from the SDK propagates.
     */
    function Call(name: string, args: seq<Arg>, callTool: (string, seq<Arg>) -> Outcome<Option<Json>>): (r: Outcome<Json>)
      reads this
      ensures r.Done? ==> IsSingleKey(r.value, "result")
      ensures client.None? ==> r == Done(ResultObject(JStr("null")))
      ensures client.Some? ==> (r.Threw? <==> callTool(name, args).Threw?)
      ensures client.Some? && r.Done? ==> r.value == ResultObject(JStr(GsonText(callTool(name, args).value)))
    {
      if client.None? then Done(ResultObject(JStr(GsonText(None))))
      else
        match callTool(name, args)
        case Done(result) => Done(ResultObject(JStr(GsonText(result))))
        case Threw(message) => Threw(message)
    }
  }

  /**
   * After `startClient`, even one whose handshake fails, a message sent on
   * either endpoint reaches the other endpoint's handler, after the
   * handshake messages that went the same way.
   */
  method StartedClientConnectsBothWays(failure: StartFailure, handshake: seq<Hop>, toServer: Json, toClient: Json)
    returns (atServer: seq<Json>, atClient: seq<Json>)
    requires failure != ConstructionFails
    ensures atServer == ServerBound(handshake) + [toServer]
    ensures atClient == ClientBound(handshake) + [toClient]
  {
    var mcp := new McpClient();
    mcp.StartClient(failure, handshake);
    mcp.clientTransport.Send(toServer);
    mcp.serverTransport.Send(toClient);
    atServer := mcp.serverTransport.received;
    atClient := mcp.clientTransport.received;
  }

  /**
   * With a client and a listing of tools, the corrected `getTool` and the
   * one as written agree on the declarations' names and descriptions; the
   * one as written declares no parameters even for a tool whose schema
   * has some.
   */
  lemma GetToolAsWrittenKeepsOnlyNames(mcp: McpClient, tools: seq<McpTool>)
    requires mcp.client.Some?
    requires mcp.GetTool(Done(Some(tools))).Ok?
    ensures var fixed := mcp.GetTool(Done(Some(tools))).value;
      var written := mcp.GetToolAsWritten(Done(Some(tools))).value;
      && |written| == |fixed| == |tools|
      && forall i :: 0 <= i < |tools| ==>
        && written[i] == fixed[i].(parameters := [], requiredParameters := [])
        && (fixed[i].parameters != [] ==> written[i] != fixed[i])
  {
  }

  /** When the client cannot even be built, nothing is wired and messages are dropped. */
  method FailedStartDropsMessages(toServer: Json) returns (atServer: seq<Json>, connected: bool)
    ensures atServer == [] && !connected
  {
    var mcp := new McpClient();
    mcp.StartClient(ConstructionFails, [ToServer(toServer)]);
    mcp.clientTransport.Send(toServer);
    atServer := mcp.serverTransport.received;
    connected := mcp.client.Some?;
  }
}
