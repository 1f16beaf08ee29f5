/**
 * The configuration-driven tool registry: which tools an intent uses, the catalogue of tool
 * descriptions, and the check that a parameter map supplies every parameter a tool declares.
 * Loading the tool functions is not part of this model; the executor receives them as values.
 */
module ToolRegistry {
  import opened Common
  import opened SystemConfig

  /** The outcome of `validate_tool_parameters`: `{"valid": True}` or `{"valid": False, "error": e}`. */
  datatype Validation = Valid | Invalid(error: string)

  /** The tool list of an intent, or `[]` for an unknown intent. */
  function GetToolsForIntent(intent: string): (r: seq<string>)
    ensures intent in INTENTS ==> r == INTENTS[intent].tools
    ensures intent !in INTENTS ==> r == []
    ensures forall t :: t in r ==> t in TOOLS
  {
    match GetIntentConfig(intent)
    case None => []
    case Some(config) =>
      IntentToolsAreConfigured(intent);
      config.tools
  }

  /** Every configured tool name mapped to its description. */
  method GetAllTools() returns (r: map<string, string>)
    ensures r.Keys == TOOLS.Keys
    ensures forall k :: k in r ==> r[k] == TOOLS[k].description
  {
    r := map[];
    var todo := TOOLS.Keys;
    while todo != {}
      invariant todo <= TOOLS.Keys
      invariant r.Keys == TOOLS.Keys - todo
      invariant forall k :: k in r ==> r[k] == TOOLS[k].description
      decreases |todo|
    {
      var k :| k in todo;
      r := r[k := TOOLS[k].description];
      todo := todo - {k};
    }
  }

  /** The index of the first declared parameter without a truthy value. */
  function FirstMissing(ps: seq<string>, params: map<string, Value>): (r: Option<nat>)
    ensures r.None? <==> forall p :: p in ps ==> Present(params, p)
    ensures r.Some? ==> r.value < |ps| && !Present(params, ps[r.value]) &&
                        forall j :: 0 <= j < r.value ==> Present(params, ps[j])
  {
    if ps == [] then None
    else if !Present(params, ps[0]) then Some(0)
    else
      match FirstMissing(ps[1..], params)
      case None => None
      case Some(i) => Some(i + 1)
  }

  /** The first missing parameter is the head of the ordered missing list. */
  lemma {:induction false} FirstMissingIsHead(ps: seq<string>, params: map<string, Value>)
    ensures FirstMissing(ps, params).None? <==> MissingFrom(ps, params) == []
    ensures FirstMissing(ps, params).Some? ==>
              MissingFrom(ps, params)[0] == ps[FirstMissing(ps, params).value]
  {
    if ps != [] && Present(params, ps[0]) {
      FirstMissingIsHead(ps[1..], params);
    }
  }

  /** What `validate_tool_parameters` answers for a tool name and a parameter map. */
  function CheckToolParameters(toolName: string, params: map<string, Value>): (r: Validation)
    ensures toolName !in TOOLS ==> r == Invalid("Unknown tool: " + toolName)
    ensures r.Valid? <==> toolName in TOOLS && forall p :: p in TOOLS[toolName].parameters ==> Present(params, p)
    ensures toolName in TOOLS && r.Invalid? ==>
              MissingFrom(TOOLS[toolName].parameters, params) != [] &&
              r.error == "Missing required parameter: " + MissingFrom(TOOLS[toolName].parameters, params)[0]
  {
    match GetToolConfig(toolName)
    case None => Invalid("Unknown tool: " + toolName)
    case Some(config) =>
      var ps := config.parameters;
      FirstMissingIsHead(ps, params);
      match FirstMissing(ps, params)
      case None => Valid
      case Some(i) => Invalid("Missing required parameter: " + ps[i])
  }

  /** `validate_tool_parameters`: the declared parameters are checked in order and the first
      missing one ends the scan. */
  method ValidateToolParameters(toolName: string, params: map<string, Value>) returns (r: Validation)
    ensures r == CheckToolParameters(toolName, params)
  {
    var config := GetToolConfig(toolName);
    if config.None? {
      return Invalid("Unknown tool: " + toolName);
    }
    var ps := config.value.parameters;
    var i := 0;
    while i < |ps|
      invariant 0 <= i <= |ps|
      invariant forall j :: 0 <= j < i ==> Present(params, ps[j])
    {
      if !Present(params, ps[i]) {
        var k := FirstMissing(ps, params);
        assert k == Some(i) by {
          assert k.Some? && k.value <= i;
        }
        return Invalid("Missing required parameter: " + ps[i]);
      }
      i := i + 1;
    }
    return Valid;
  }

  /** Keys the tool does not declare, and the values of declared keys beyond their truthiness,
      never change the answer. */
  lemma {:induction false} FirstMissingIgnoresExtraKeys(ps: seq<string>, a: map<string, Value>, b: map<string, Value>)
    requires forall p :: p in ps ==> (Present(a, p) <==> Present(b, p))
    ensures FirstMissing(ps, a) == FirstMissing(ps, b)
  {
    if ps != [] {
      assert ps[0] in ps;
      FirstMissingIgnoresExtraKeys(ps[1..], a, b);
    }
  }

  lemma ExtraKeysIrrelevant(toolName: string, a: map<string, Value>, b: map<string, Value>)
    requires toolName in TOOLS
    requires forall p :: p in TOOLS[toolName].parameters ==> (Present(a, p) <==> Present(b, p))
    ensures CheckToolParameters(toolName, a) == CheckToolParameters(toolName, b)
  {
    FirstMissingIgnoresExtraKeys(TOOLS[toolName].parameters, a, b);
  }
}
