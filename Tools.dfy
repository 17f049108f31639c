/**
 * The tool registry (backend/tools/registry.py): tools register under an id with a
 * definition, can be looked up, listed in registration order and executed.
 *
 * A tool is a function from its parameters to either a value or the message of the
 * exception it raised; the JSON schema of the input model is an opaque value `S`
 * supplied at registration. Awaiting a tool is not modelled.
 */
module Tools {
  import opened Wrappers
  import opened Http
  import opened Dicts

  /** The public description of a tool. */
  datatype ToolDefinition<S> = ToolDefinition(id: string, name: string, description: string, inputSchema: S)

  /** The two exceptions `execute` raises. */
  datatype ToolError = ValueError(message: string) | RuntimeError(message: string)

  function NotFoundMessage(toolId: string): (r: string)
    ensures |r| == |toolId| + 15
  {
    "Tool " + toolId + " not found"
  }

  function FailedMessage(cause: string): (r: string)
    ensures |r| == |cause| + 23
  {
    "Tool execution failed: " + cause
  }

  class ToolRegistry<S, P, V> {
    var tools: map<string, P -> Result<V, string>>
    var definitions: Dict<string, ToolDefinition<S>>

    /** Both dictionaries hold the same ids, and each definition is stored under its own id. */
    ghost predicate Valid()
      reads this
    {
      DistinctKeys(definitions)
      && (forall id :: id in tools <==> Get(definitions, id).Some?)
      && forall j :: 0 <= j < |definitions| ==> definitions[j].1.id == definitions[j].0
    }

    constructor ()
      ensures Valid() && tools == map[] && definitions == []
    {
      tools := map[];
      definitions := [];
    }

    /**
     * `register`: stores the function and its definition under the id and hands the
     * function back. A known id keeps its place in the listing.
     */
    method Register(toolId: string, name: string, description: string, schema: S, func: P -> Result<V, string>)
      returns (r: P -> Result<V, string>)
      requires Valid()
      modifies this
      ensures Valid()
      ensures r == func
      ensures tools == old(tools)[toolId := func]
      ensures definitions == Put(old(definitions), toolId, ToolDefinition(toolId, name, description, schema))
    {
      definitions := Put(definitions, toolId, ToolDefinition(toolId, name, description, schema));
      tools := tools[toolId := func];
      r := func;
    }

    /** `get_tool`. */
    function GetTool(toolId: string): (r: Option<P -> Result<V, string>>)
      reads this
      ensures r.Some? <==> toolId in tools
      ensures r.Some? ==> r.value == tools[toolId]
    {
      if toolId in tools then Some(tools[toolId]) else None
    }

    /** `list_tools`: one definition per tool, in the order the ids were first registered. */
    function ListTools(): (r: seq<ToolDefinition<S>>)
      reads this
      requires Valid()
      ensures |r| == |tools|
      ensures forall id :: id in tools <==> exists j :: 0 <= j < |r| && r[j].id == id
      ensures |r| == |definitions| && forall j :: 0 <= j < |r| ==> r[j] == definitions[j].1 && r[j].id == definitions[j].0
    {
      var r := Values(definitions);
      ListToolsIds(tools.Keys, definitions);
      r
    }

    /** `execute`: `ValueError` for an unknown id; an exception of the tool becomes a `RuntimeError`. */
    function Execute(toolId: string, params: P): (r: Result<V, ToolError>)
      reads this
      ensures toolId !in tools ==> r == Err(ValueError(NotFoundMessage(toolId)))
      ensures toolId in tools && tools[toolId](params).Ok? ==> r == Ok(tools[toolId](params).value)
      ensures toolId in tools && tools[toolId](params).Err? ==>
                r == Err(RuntimeError(FailedMessage(tools[toolId](params).error)))
    {
      if toolId !in tools then Err(ValueError(NotFoundMessage(toolId)))
      else match tools[toolId](params)
        case Ok(v) => Ok(v)
        case Err(e) => Err(RuntimeError(FailedMessage(e)))
    }
  }

  /** The definitions of a valid registry list every registered id exactly once. */
  lemma ListToolsIds<S>(ids: set<string>, defs: Dict<string, ToolDefinition<S>>)
    requires DistinctKeys(defs)
    requires forall id :: id in ids <==> Get(defs, id).Some?
    requires forall j :: 0 <= j < |defs| ==> defs[j].1.id == defs[j].0
    ensures |Values(defs)| == |ids|
    ensures forall id :: id in ids <==> exists j :: 0 <= j < |Values(defs)| && Values(defs)[j].id == id
  {
    var keys := set j | 0 <= j < |defs| :: defs[j].0;
    assert keys == ids;
    DistinctKeysCount(defs);
  }

  /**
   * How registering changes the listing: a new id is listed last, and a known id keeps
   * its place with the new definition.
   */
  lemma ListingAfterRegister<S>(defs: Dict<string, ToolDefinition<S>>, toolId: string, def: ToolDefinition<S>)
    requires DistinctKeys(defs)
    ensures IndexOf(defs, toolId).None? ==> Values(Put(defs, toolId, def)) == Values(defs) + [def]
    ensures IndexOf(defs, toolId).Some? ==>
              Values(Put(defs, toolId, def)) == Values(defs)[IndexOf(defs, toolId).value := def]
  {
    var after := Put(defs, toolId, def);
    match IndexOf(defs, toolId)
    case None =>
      assert Values(after) == Values(defs) + [def];
    case Some(i) =>
      forall j | 0 <= j < |defs| ensures Values(after)[j] == Values(defs)[i := def][j] {
        if j != i { assert defs[j].0 != toolId by { IndexOfDistinct(defs, j); } }
      }
  }

  /** The HTTP answer of the execute endpoint (backend/api/endpoints/tools.py): 404 for an unknown tool, 500 for a failed one. */
  function ExecuteResponse<V>(r: Result<V, ToolError>): (h: Result<V, HttpError>)
    ensures r.Ok? <==> h.Ok?
    ensures r.Ok? ==> h.value == r.value
    ensures r.Err? && r.error.ValueError? ==> h.error == HttpError(NotFound, r.error.message)
    ensures r.Err? && r.error.RuntimeError? ==> h.error == HttpError(500, r.error.message)
  {
    match r
    case Ok(v) => Ok(v)
    case Err(ValueError(m)) => Err(HttpError(NotFound, m))
    case Err(RuntimeError(m)) => Err(HttpError(500, m))
  }
}
