/**
 * The tool registry (registry.go): a name-to-tool catalog with registration,
 * lookup, enumeration, schema export and dispatch, plus the translation of a
 * parameter schema into the client library's generic map format.
 */
module Registry {
  import opened Wrappers
  import opened ToolTypes
  import opened LangChain

  // ---------------------------------------------------------------------------
  // Schema translation (Parameter.ToLangChainFormat)
  // ---------------------------------------------------------------------------

  /** The keys a translated node may hold. */
  const SchemaKeys: set<string> := {"type", "description", "enum", "required", "properties", "items"}

  /**
   * Lowers a schema node into a `map[string]any`. The nil node becomes the nil map;
   * every empty or unset field is left out; "properties" keeps the input's keys and
   * translates each child; "items" is the translation of the element schema.
   */
  function ToLangChainFormat(p: Parameter): (r: Json)
    ensures p.Nil? <==> r.NilMap?
    ensures p.Node? ==> ("type" in r.fields <==> p.typ != "")
    ensures p.Node? ==> ("description" in r.fields <==> p.description != "")
    ensures p.Node? ==> ("enum" in r.fields <==> |p.enum| > 0)
    ensures p.Node? ==> ("required" in r.fields <==> |p.required| > 0)
    ensures p.Node? ==> ("properties" in r.fields <==> |p.properties| > 0)
    ensures p.Node? ==> ("items" in r.fields <==> p.items.Node?)
    ensures p.Node? ==> r.fields.Keys <= SchemaKeys
    decreases p, 2
  {
    match p
    case Nil => NilMap
    case Node(_, _, _, _, _, _) => Map(map key | key in SchemaKeys && IsSet(p, key) :: FieldValue(p, key))
  }

  /** Whether the field that `key` names is set (non-empty) in a node. */
  predicate IsSet(p: Parameter, key: string)
    requires p.Node?
  {
    if key == "type" then p.typ != ""
    else if key == "description" then p.description != ""
    else if key == "enum" then |p.enum| > 0
    else if key == "required" then |p.required| > 0
    else if key == "properties" then |p.properties| > 0
    else p.items.Node?
  }

  /** The translated value of the field that `key` names. */
  function FieldValue(p: Parameter, key: string): Value
    requires p.Node?
    decreases p, 1
  {
    if key == "type" then Str(p.typ)
    else if key == "description" then Str(p.description)
    else if key == "enum" then List(p.enum)
    else if key == "required" then List(p.required)
    else if key == "properties" then Obj(Map(TranslateProperties(p)))
    else Obj(ToLangChainFormat(p.items))
  }

  /** The "properties" map of a translated node: the same keys, each child translated. */
  function TranslateProperties(p: Parameter): (r: map<string, Value>)
    requires p.Node?
    ensures r.Keys == p.properties.Keys
    decreases p, 0
  {
    map key | key in p.properties :: Obj(ToLangChainFormat(p.properties[key]))
  }

  /** Reads a string field back, with "" for an absent field. */
  function TextField(fields: map<string, Value>, key: string): string {
    if key in fields && fields[key].Str? then fields[key].s else ""
  }

  /** Reads a list field back, with [] for an absent field. */
  function ListField(fields: map<string, Value>, key: string): seq<string> {
    if key in fields && fields[key].List? then fields[key].items else []
  }

  /**
   * The reading of a translated schema back into a schema node: an absent key reads
   * as the empty value of its field.
   */
  function FromLangChainFormat(j: Json): (p: Parameter)
    decreases j, 1
  {
    match j
    case NilMap => Nil
    case Map(fields) =>
      var items := if "items" in fields && fields["items"].Obj? then FromLangChainFormat(fields["items"].obj) else Nil;
      Node(TextField(fields, "type"), TextField(fields, "description"), ReadProperties(j),
           ListField(fields, "required"), items, ListField(fields, "enum"))
  }

  /** Reads the "properties" entry of a translated node back, with the empty map when absent. */
  function ReadProperties(j: Json): map<string, Parameter>
    requires j.Map?
    decreases j, 0
  {
    var fields := j.fields;
    if "properties" in fields && fields["properties"].Obj? && fields["properties"].obj.Map? then
      var children := fields["properties"].obj.fields;
      map key | key in children && children[key].Obj? :: FromLangChainFormat(children[key].obj)
    else map[]
  }

  /** What each key of a translated node holds when it is present. */
  lemma TranslatedNode(p: Parameter)
    requires p.Node?
    ensures var fields := ToLangChainFormat(p).fields;
      && ("type" in fields ==> fields["type"] == Str(p.typ))
      && ("description" in fields ==> fields["description"] == Str(p.description))
      && ("enum" in fields ==> fields["enum"] == List(p.enum))
      && ("required" in fields ==> fields["required"] == List(p.required))
      && ("properties" in fields ==> fields["properties"] == Obj(Map(TranslateProperties(p))))
      && ("items" in fields ==> fields["items"] == Obj(ToLangChainFormat(p.items)))
  {
  }

  /**
   * Translation loses nothing: every non-empty field of every node, at every depth,
   * can be read back from the translated map, and every omitted key stands for an
   * empty field.
   */
  lemma {:induction false} FromToLangChainFormat(p: Parameter)
    ensures FromLangChainFormat(ToLangChainFormat(p)) == p
    decreases p
  {
    match p
    case Nil =>
    case Node(typ, description, properties, required, items, enum) =>
      var j := ToLangChainFormat(p);
      TranslatedNode(p);
      forall key | key in properties
        ensures FromLangChainFormat(ToLangChainFormat(properties[key])) == properties[key]
      {
        FromToLangChainFormat(properties[key]);
      }
      assert ReadProperties(j) == properties;
      FromToLangChainFormat(items);
  }

  /** Two schemas with the same translation are the same schema. */
  lemma TranslationInjective(p: Parameter, q: Parameter)
    requires ToLangChainFormat(p) == ToLangChainFormat(q)
    ensures p == q
  {
    FromToLangChainFormat(p);
    FromToLangChainFormat(q);
  }

  // ---------------------------------------------------------------------------
  // Exported definitions
  // ---------------------------------------------------------------------------

  /** The provider-shaped definition of one tool. */
  function DefinitionOf(tool: Tool): ToolDefinition {
    ToolDefinition("function", Function(tool.name, tool.description, tool.parameters))
  }

  /** The client-library tool of one tool, with its schema translated. */
  function LlmToolOf(tool: Tool): LlmTool {
    LlmTool("function", FunctionDefinition(tool.name, tool.description, ToLangChainFormat(tool.parameters)))
  }

  /**
   * `defs` holds exactly one definition per registered tool, in some order: each is
   * the definition of the tool registered under its name, no name repeats, and every
   * registered name occurs.
   */
  ghost predicate DefinesEach(tools: map<string, Tool>, defs: seq<ToolDefinition>) {
    && |defs| == |tools|
    && (forall i :: 0 <= i < |defs| ==> defs[i].func.name in tools && defs[i] == DefinitionOf(tools[defs[i].func.name]))
    && (forall i, j :: 0 <= i < j < |defs| ==> defs[i].func.name != defs[j].func.name)
    && (forall name :: name in tools ==> exists i :: 0 <= i < |defs| && defs[i].func.name == name)
  }

  /** The same as DefinesEach, for the client library's tool type. */
  ghost predicate ExportsEach(tools: map<string, Tool>, llmTools: seq<LlmTool>) {
    && |llmTools| == |tools|
    && (forall i :: 0 <= i < |llmTools| ==> llmTools[i].func.name in tools && llmTools[i] == LlmToolOf(tools[llmTools[i].func.name]))
    && (forall i, j :: 0 <= i < j < |llmTools| ==> llmTools[i].func.name != llmTools[j].func.name)
    && (forall name :: name in tools ==> exists i :: 0 <= i < |llmTools| && llmTools[i].func.name == name)
  }

  /**
   * A walk over the catalog's names: `names` lists, without repeats, the names already
   * visited, and `rest` holds the ones still to visit.
   */
  ghost predicate Enumerates(tools: map<string, Tool>, names: seq<string>, rest: set<string>) {
    && rest <= tools.Keys
    && |names| + |rest| == |tools|
    && (forall name :: name in names <==> name in tools && name !in rest)
    && (forall i, j :: 0 <= i < j < |names| ==> names[i] != names[j])
  }

  /** Visiting one more name keeps the walk an enumeration. */
  lemma EnumerateStep(tools: map<string, Tool>, names: seq<string>, rest: set<string>, name: string)
    requires Enumerates(tools, names, rest) && name in rest
    ensures Enumerates(tools, names + [name], rest - {name})
  {
    assert |rest - {name}| == |rest| - 1;
  }

  /** A finished walk names every registered name at some index. */
  lemma EnumerateDone(tools: map<string, Tool>, names: seq<string>)
    requires Enumerates(tools, names, {})
    ensures forall name :: name in tools ==> exists i :: 0 <= i < |names| && names[i] == name
  {
    forall name | name in tools ensures exists i :: 0 <= i < |names| && names[i] == name {
      assert name in names;
    }
  }

  /** A finished walk that built each tool's definition at its name's index defines each tool. */
  lemma DefinesFromWalk(tools: map<string, Tool>, names: seq<string>, defs: seq<ToolDefinition>)
    requires Enumerates(tools, names, {}) && |defs| == |names|
    requires forall i :: 0 <= i < |defs| ==>
               defs[i].func.name == names[i] && names[i] in tools && defs[i] == DefinitionOf(tools[names[i]])
    ensures DefinesEach(tools, defs)
  {
    EnumerateDone(tools, names);
  }

  /** A finished walk that built each tool's client-library tool at its name's index exports each tool. */
  lemma ExportsFromWalk(tools: map<string, Tool>, names: seq<string>, llmTools: seq<LlmTool>)
    requires Enumerates(tools, names, {}) && |llmTools| == |names|
    requires forall i :: 0 <= i < |llmTools| ==>
               llmTools[i].func.name == names[i] && names[i] in tools && llmTools[i] == LlmToolOf(tools[names[i]])
    ensures ExportsEach(tools, llmTools)
  {
    EnumerateDone(tools, names);
  }

  // ---------------------------------------------------------------------------
  // The registry
  // ---------------------------------------------------------------------------

  class ToolRegistry {
    /** The catalog, keyed by tool name. */
    var tools: map<string, Tool>

    /** Every entry is filed under its tool's own, non-empty, name. */
    ghost predicate Valid()
      reads this
    {
      forall name :: name in tools ==> name != "" && tools[name].name == name
    }

    /** NewToolRegistry: an empty catalog. */
    constructor ()
      ensures Valid() && tools == map[]
    {
      tools := map[];
    }

    /**
     * Adds a tool under its name. An empty name and a name already in use are
     * refused, and then nothing changes: an existing entry is never overwritten.
     */
    method Register(tool: Tool) returns (err: Outcome<Error>)
      requires Valid()
      modifies this
      ensures Valid()
      ensures tool.name == "" ==> err == Fail(EmptyName) && tools == old(tools)
      ensures tool.name != "" && tool.name in old(tools) ==>
                err == Fail(AlreadyRegistered(tool.name)) && tools == old(tools)
      ensures tool.name != "" && tool.name !in old(tools) ==>
                err == Pass && tools == old(tools)[tool.name := tool]
    {
      var name := tool.name;
      if name == "" {
        return Fail(EmptyName);
      }
      if name in tools {
        return Fail(AlreadyRegistered(name));
      }
      tools := tools[name := tool];
      return Pass;
    }

    /** Removes the tool with this name; an absent name is refused and nothing changes. */
    method Unregister(name: string) returns (err: Outcome<Error>)
      requires Valid()
      modifies this
      ensures Valid()
      ensures name !in old(tools) ==> err == Fail(NotFound(name)) && tools == old(tools)
      ensures name in old(tools) ==> err == Pass && tools == old(tools) - {name}
    {
      if name !in tools {
        return Fail(NotFound(name));
      }
      tools := tools - {name};
      return Pass;
    }

    /** Looks a tool up by name. */
    function GetTool(name: string): (r: Result<Tool, Error>)
      reads this
      ensures r.Success? <==> name in tools
      ensures r.Success? ==> r.value == tools[name]
      ensures r.Failure? ==> r.error == NotFound(name)
    {
      if name in tools then Success(tools[name]) else Failure(NotFound(name))
    }

    /** Every registered name exactly once, in an unspecified order. */
    method ListTools() returns (names: seq<string>)
      ensures |names| == |tools|
      ensures forall name :: name in names <==> name in tools
      ensures forall i, j :: 0 <= i < j < |names| ==> names[i] != names[j]
    {
      names := [];
      var rest := tools.Keys;
      while rest != {}
        invariant rest <= tools.Keys
        invariant forall name :: name in names <==> name in tools && name !in rest
        invariant forall i, j :: 0 <= i < j < |names| ==> names[i] != names[j]
        invariant |names| + |rest| == |tools|
        decreases |rest|
      {
        var name :| name in rest;
        names := names + [name];
        rest := rest - {name};
      }
    }

    /** One "function" definition per registered tool, in an unspecified order. */
    method GetToolDefinitions() returns (defs: seq<ToolDefinition>)
      requires Valid()
      ensures DefinesEach(tools, defs)
    {
      defs := [];
      ghost var names: seq<string> := [];
      var rest := tools.Keys;
      while rest != {}
        invariant Enumerates(tools, names, rest)
        invariant |defs| == |names|
        invariant forall i :: 0 <= i < |defs| ==>
                    defs[i].func.name == names[i] && names[i] in tools && defs[i] == DefinitionOf(tools[names[i]])
        decreases |rest|
      {
        var name :| name in rest;
        var tool := tools[name];
        defs := defs + [ToolDefinition("function", Function(tool.name, tool.description, tool.parameters))];
        EnumerateStep(tools, names, rest, name);
        names := names + [name];
        rest := rest - {name};
      }
      DefinesFromWalk(tools, names, defs);
    }

    /** One client-library "function" tool per registered tool, schemas translated. */
    method GetLangChainTools() returns (llmTools: seq<LlmTool>)
      requires Valid()
      ensures ExportsEach(tools, llmTools)
    {
      llmTools := [];
      ghost var names: seq<string> := [];
      var rest := tools.Keys;
      while rest != {}
        invariant Enumerates(tools, names, rest)
        invariant |llmTools| == |names|
        invariant forall i :: 0 <= i < |llmTools| ==>
                    llmTools[i].func.name == names[i] && names[i] in tools && llmTools[i] == LlmToolOf(tools[names[i]])
        decreases |rest|
      {
        var name :| name in rest;
        var tool := tools[name];
        var definition := FunctionDefinition(tool.name, tool.description, ToLangChainFormat(tool.parameters));
        llmTools := llmTools + [LlmTool("function", definition)];
        EnumerateStep(tools, names, rest, name);
        names := names + [name];
        rest := rest - {name};
      }
      ExportsFromWalk(tools, names, llmTools);
    }

    /**
     * Runs a call: a kind other than "function" is refused before any lookup; an
     * unknown tool is reported as not found; a tool's own error is passed on; a
     * success answers the call's id with role "tool" and the tool's output.
     */
    function Execute(call: ToolCall): (r: Result<ToolResult, Error>)
      reads this
      ensures call.kind != "function" ==> r == Failure(UnsupportedToolType(call.kind))
      ensures call.kind == "function" && call.func.name !in tools ==>
                r == Failure(GetToolFailed(NotFound(call.func.name)))
      ensures call.kind == "function" && call.func.name in tools ==>
                (r.Success? <==> tools[call.func.name].execute(call.func.arguments).Success?)
      ensures r.Success? ==>
                && r.value.toolCallId == call.id
                && r.value.role == "tool"
                && call.func.name in tools
                && tools[call.func.name].execute(call.func.arguments) == Success(r.value.content)
      ensures r.Failure? && call.kind == "function" && call.func.name in tools ==>
                r.error == ExecutionFailed(tools[call.func.name].execute(call.func.arguments).error)
    {
      if call.kind != "function" then Failure(UnsupportedToolType(call.kind))
      else
        match GetTool(call.func.name)
        case Failure(e) => Failure(GetToolFailed(e))
        case Success(tool) =>
          match tool.execute(call.func.arguments)
          case Failure(message) => Failure(ExecutionFailed(message))
          case Success(output) => Success(ToolResult(call.id, "tool", output))
    }
  }
}
