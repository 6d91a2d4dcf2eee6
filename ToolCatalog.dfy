/**
 * `ToolFetcher.fetchFunctions`: builds the `FunctionRepository` of the
 * mcp.run tools installed for the user. Every tool of every servlet gives
 * one declaration (its schema translated by `ParsedSchema`) and one tool
 * entry, both keyed by the tool's name; `toMap` keeps the last pair of each
 * name.
 */
module ToolCatalog {
  import opened Common
  import opened JsonValue
  import opened SchemaTranslation
  import opened Repository

  /** An installed servlet: its tools, in the order its `tools()` map yields them. */
  datatype Servlet = Servlet(tools: seq<McpxTool>)

  /** `servlets.flatMap { it.tools().values }` */
  function Flatten(servlets: seq<Servlet>): seq<McpxTool> {
    if |servlets| == 0 then []
    else Flatten(servlets[..|servlets| - 1]) + servlets[|servlets| - 1].tools
  }

  /** Kotlin's `toMap()`: later pairs overwrite earlier pairs with the same key. */
  function ToMap<V>(pairs: seq<(string, V)>): map<string, V> {
    if |pairs| == 0 then map[]
    else ToMap(pairs[..|pairs| - 1])[pairs[|pairs| - 1].0 := pairs[|pairs| - 1].1]
  }

  /** The keys of `toMap()` are exactly the keys of the pairs. */
  lemma {:induction false} ToMapKeys<V>(pairs: seq<(string, V)>)
    ensures ToMap(pairs).Keys == set i | 0 <= i < |pairs| :: pairs[i].0
  {
    if |pairs| > 0 {
      var init := pairs[..|pairs| - 1];
      ToMapKeys(init);
      assert forall i :: 0 <= i < |init| ==> init[i] == pairs[i];
    }
  }

  /** The value `toMap()` keeps for a key is the one of its last pair. */
  lemma {:induction false} ToMapLastWins<V>(pairs: seq<(string, V)>, i: nat)
    requires i < |pairs|
    requires forall j :: i < j < |pairs| ==> pairs[j].0 != pairs[i].0
    ensures pairs[i].0 in ToMap(pairs) && ToMap(pairs)[pairs[i].0] == pairs[i].1
  {
    if i < |pairs| - 1 {
      var init := pairs[..|pairs| - 1];
      assert init[i] == pairs[i];
      ToMapLastWins(init, i);
    }
  }

  /** `toFunctionDeclaration`: a schema text that is not a JSON object throws. */
  function ToFunctionDeclaration(tool: McpxTool): Result<FunctionDeclaration, SchemaError> {
    match tool.inputSchema
    case None => Err(SchemaTextNotAnObject)
    case Some(node) =>
      var schema :- Parse(node);
      Ok(FunctionDeclaration(tool.name, tool.description, schema.parameters, schema.requiredParameters))
  }

  /**
   * A tool's declaration carries the tool's name and description and the
   * translation of its schema; it exists iff the schema text is an object
   * that translates.
   */
  lemma DeclarationTranslatesSchema(tool: McpxTool)
    ensures ToFunctionDeclaration(tool).Ok? <==> tool.inputSchema.Some? && Parse(tool.inputSchema.value).Ok?
    ensures ToFunctionDeclaration(tool).Ok? ==>
      var d := ToFunctionDeclaration(tool).value;
      && d.name == tool.name
      && d.description == tool.description
      && Parse(tool.inputSchema.value) == Ok(ParsedSchema(d.parameters, d.requiredParameters))
    ensures tool.inputSchema.None? ==> ToFunctionDeclaration(tool) == Err(SchemaTextNotAnObject)
  {
  }

  /** One `name to declaration` pair. */
  function DeclarationPair(tool: McpxTool): Result<(string, FunctionDeclaration), SchemaError> {
    var d :- ToFunctionDeclaration(tool);
    Ok((tool.name, d))
  }

  /** The `name to declaration` pairs, in tool order; the first failing tool's error escapes. */
  function DeclarationPairs(ts: seq<McpxTool>): Result<seq<(string, FunctionDeclaration)>, SchemaError> {
    MapAll(DeclarationPair, ts)
  }

  /** The `name to tool` pairs, in tool order. */
  function ToolPairs(ts: seq<McpxTool>): seq<(string, McpxTool)> {
    seq(|ts|, i requires 0 <= i < |ts| => (ts[i].name, ts[i]))
  }

  /** `fetchFunctions`, after the servlets have been listed. */
  function FetchFunctions(servlets: seq<Servlet>): Result<FunctionRepository, SchemaError> {
    var ts := Flatten(servlets);
    var declarations :- DeclarationPairs(ts);
    Ok(FunctionRepository(ToMap(declarations), ToMap(ToolPairs(ts))))
  }

  /**
   * The two maps of a fetched repository agree: the same names, each tool
   * filed under its own name, and each declaration the translation of the
   * tool filed under the same name.
   */
  lemma {:induction false} MapsAgree(ts: seq<McpxTool>)
    requires DeclarationPairs(ts).Ok?
    ensures var d := ToMap(DeclarationPairs(ts).value);
      var t := ToMap(ToolPairs(ts));
      && d.Keys == t.Keys
      && forall k :: k in t ==> t[k].name == k && ToFunctionDeclaration(t[k]) == Ok(d[k])
  {
    if |ts| > 0 {
      var init := ts[..|ts| - 1];
      var last := ts[|ts| - 1];
      var dInit :| DeclarationPairs(init) == Ok(dInit);
      MapsAgree(init);
      var ps := DeclarationPairs(ts).value;
      assert ps == dInit + [(last.name, ToFunctionDeclaration(last).value)];
      assert ps[..|ps| - 1] == dInit;
      var tps := ToolPairs(ts);
      assert tps[..|tps| - 1] == ToolPairs(init);
    }
  }

  /** A fetched repository: every name has both a declaration and a tool, filed consistently. */
  lemma CatalogConsistent(servlets: seq<Servlet>)
    ensures var r := FetchFunctions(servlets);
      r.Ok? ==>
        && r.value.functionDeclarations.Keys == r.value.mcpxTools.Keys
        && (forall k :: k in r.value.mcpxTools ==> r.value.mcpxTools[k].name == k)
        && (forall k :: k in r.value.functionDeclarations ==>
              r.value.functionDeclarations[k].name == k
              && ToFunctionDeclaration(r.value.mcpxTools[k]) == Ok(r.value.functionDeclarations[k]))
  {
    var ts := Flatten(servlets);
    if DeclarationPairs(ts).Ok? {
      MapsAgree(ts);
    }
  }

  /**
   * Fetching fails iff some tool's schema does not translate, and then with
   * the error of the first such tool in servlet order.
   */
  lemma FetchFailsOnFirstBadSchema(servlets: seq<Servlet>)
    ensures var ts := Flatten(servlets);
      FetchFunctions(servlets).Ok? <==> forall i :: 0 <= i < |ts| ==> ToFunctionDeclaration(ts[i]).Ok?
    ensures var ts := Flatten(servlets);
      FetchFunctions(servlets).Err? ==>
        exists i :: 0 <= i < |ts| && ToFunctionDeclaration(ts[i]).Err?
          && FetchFunctions(servlets).error == ToFunctionDeclaration(ts[i]).error
          && forall j :: 0 <= j < i ==> ToFunctionDeclaration(ts[j]).Ok?
  {
    var ts := Flatten(servlets);
    MapAllOk(DeclarationPair, ts);
    assert FetchFunctions(servlets).Err? <==> DeclarationPairs(ts).Err?;
    if DeclarationPairs(ts).Err? {
      MapAllFirstError(DeclarationPair, ts);
      var i :| 0 <= i < |ts| && DeclarationPair(ts[i]).Err?
        && DeclarationPairs(ts).error == DeclarationPair(ts[i]).error
        && forall j :: 0 <= j < i ==> DeclarationPair(ts[j]).Ok?;
      assert ToFunctionDeclaration(Flatten(servlets)[i]).Err?;
      forall j | 0 <= j < i
        ensures ToFunctionDeclaration(ts[j]).Ok?
      {
        assert DeclarationPair(ts[j]).Ok?;
      }
    } else {
      forall i | 0 <= i < |ts|
        ensures ToFunctionDeclaration(ts[i]).Ok?
      {
        assert DeclarationPair(ts[i]).Ok?;
      }
    }
  }

  /**
   * Names are unique only by convention: of several tools with the same
   * name, the declaration kept is that of the last one.
   */
  lemma LastToolWins(servlets: seq<Servlet>, i: nat)
    requires i < |Flatten(servlets)|
    requires FetchFunctions(servlets).Ok?
    requires forall j :: i < j < |Flatten(servlets)| ==> Flatten(servlets)[j].name != Flatten(servlets)[i].name
    ensures var ts := Flatten(servlets);
      var decls := FetchFunctions(servlets).value.functionDeclarations;
      ts[i].name in decls && Ok(decls[ts[i].name]) == ToFunctionDeclaration(ts[i])
  {
    var ts := Flatten(servlets);
    MapAllOk(DeclarationPair, ts);
    ToMapLastWins(DeclarationPairs(ts).value, i);
  }

  /** Every name declared to the model by a fetched repository runs exactly one tool when called. */
  lemma DeclaredNamesRunATool(servlets: seq<Servlet>, name: string, args: seq<Arg>)
    requires FetchFunctions(servlets).Ok?
    requires name in FetchFunctions(servlets).value.functionDeclarations
    ensures Call(FetchFunctions(servlets).value, name, args).invocations
      == [Invocation(name, Serialize(Envelope(name, args)))]
  {
    CatalogConsistent(servlets);
  }
}
