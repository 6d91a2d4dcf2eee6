/**
 * `ClientFunctionRepository`: the repository of tools implemented on the
 * device itself. It starts with two empty mutable maps and registers one
 * tool, `get_device_info`, whose output is the device's build description
 * whatever its input.
 */
module ClientRepository {
  import opened Common
  import opened JsonValue
  import opened Repository

  const DeviceInfoName: string := "get_device_info"
  const DeviceInfoDescription: string := "获取当前设备基本信息"

  /**
   * The anonymous `McpxTool` of the repository. Its schema text is the empty
   * string, which is not a JSON object; `deviceInfo` stands for
   * `getDeviceSystemInfo().toString()`, which reads the device's build
   * constants.
   */
  function DeviceInfoTool(deviceInfo: string): (t: McpxTool)
    ensures t.name == DeviceInfoName && t.description == DeviceInfoDescription
    ensures t.inputSchema.None?
    ensures forall input :: t.call(input) == Done(deviceInfo)
  {
    McpxTool(DeviceInfoName, DeviceInfoDescription, None, _ => Done(deviceInfo))
  }

  /** The declaration advertised for the tool: no parameters, none required. */
  function DeviceInfoDeclaration(): (d: FunctionDeclaration)
    ensures d.name == DeviceInfoName && d.description == DeviceInfoDescription
    ensures d.parameters == [] && d.requiredParameters == []
  {
    FunctionDeclaration(DeviceInfoName, DeviceInfoDescription, [], [])
  }

  class ClientFunctionRepository {
    var functionDeclarations: map<string, FunctionDeclaration>
    var mcpxTools: map<string, McpxTool>

    /** Every registered tool has an advertised declaration of the same name, and back. */
    ghost predicate Consistent()
      reads this
    {
      && functionDeclarations.Keys == mcpxTools.Keys
      && (forall k :: k in mcpxTools ==> mcpxTools[k].name == k)
      && (forall k :: k in functionDeclarations ==> functionDeclarations[k].name == k)
    }

    /** `init`: both maps start empty, then the device-info tool is put into each. */
    constructor (deviceInfo: string)
      ensures functionDeclarations == map[DeviceInfoName := DeviceInfoDeclaration()]
      ensures mcpxTools.Keys == {DeviceInfoName}
      ensures mcpxTools[DeviceInfoName].name == DeviceInfoName
      ensures mcpxTools[DeviceInfoName].inputSchema.None?
      ensures forall input :: mcpxTools[DeviceInfoName].call(input) == Done(deviceInfo)
      ensures Consistent()
    {
      functionDeclarations := map[];
      mcpxTools := map[];
      new;
      var tool := DeviceInfoTool(deviceInfo);
      var declaration := DeviceInfoDeclaration();
      functionDeclarations := functionDeclarations[DeviceInfoName := declaration];
      mcpxTools := mcpxTools[DeviceInfoName := tool];
    }

    /**
     * `call`: the same lookup, envelope and wrapping as
     * `FunctionRepository.call`, on this repository's tools.
     */
    function Call(name: string, args: seq<Arg>): (r: CallOutcome)
      reads this
      ensures name !in mcpxTools ==> r.invocations == [] && r.result == Done(ResultObject(JStr(name + " is not a valid function")))
      ensures name in mcpxTools ==> r.invocations == [Invocation(name, Serialize(Envelope(name, args)))]
    {
      CallTool(mcpxTools, name, args)
    }
  }

  /**
   * On a freshly built repository, `get_device_info` answers
   * `{"result": deviceInfo}` whatever arguments it is given, and every other
   * name answers that it is not a valid function without running anything.
   */
  lemma DeviceInfoAnswersRegardlessOfArguments(deviceInfo: string, name: string, args: seq<Arg>)
    ensures var tools := map[DeviceInfoName := DeviceInfoTool(deviceInfo)];
      var r := CallTool(tools, name, args);
      && (name == DeviceInfoName ==>
            r.result == Done(ResultObject(JStr(deviceInfo))) && |r.invocations| == 1)
      && (name != DeviceInfoName ==>
            r.result == Done(ResultObject(JStr(name + " is not a valid function"))) && r.invocations == [])
  {
    var tools := map[DeviceInfoName := DeviceInfoTool(deviceInfo)];
    if name == DeviceInfoName {
      RegisteredToolRunsOnce(tools, name, args);
    }
  }
}
