/** `get_elts_from_prompt_get_response`: the six fields inference needs, projected out of the
    nested response of the prompt-management service's "get prompt" call. */
module PromptDescriptor {
  import opened Wrappers
  import opened JsonValue

  /** One subscript of a Python lookup chain: `v["name"]` or `v[i]`. */
  datatype Step = Key(name: string) | Index(i: nat)

  /** One subscript, or `None` where Python raises (`KeyError`, `IndexError`, `TypeError`).
      Subscripting a string by position gives the one-character string. */
  function Select(v: Json, step: Step): Option<Json> {
    match (v, step)
    case (JObject(m), Key(k)) => if k in m then Some(m[k]) else None
    case (JArray(xs), Index(i)) => if i < |xs| then Some(xs[i]) else None
    case (JString(s), Index(i)) => if i < |s| then Some(JString([s[i]])) else None
    case _ => None
  }

  /** A chain of subscripts, evaluated left to right; a failure carries the steps up to and
      including the one that raised. */
  function Lookup(v: Json, path: seq<Step>): (r: Result<Json, seq<Step>>)
    ensures r.Failure? ==> 0 < |r.error| <= |path| && r.error == path[..|r.error|]
    decreases |path|
  {
    if path == [] then Success(v)
    else
      match Select(v, path[0])
      case None => Failure([path[0]])
      case Some(child) =>
        match Lookup(child, path[1..])
        case Success(w) => Success(w)
        case Failure(p) => Failure([path[0]] + p)
  }

  /** A failed chain fails at its last reported step: every step before it succeeds and
      that step itself raises. */
  lemma {:induction false} LookupFailsAt(v: Json, path: seq<Step>)
    requires Lookup(v, path).Failure?
    ensures var n := |Lookup(v, path).error|;
      && Lookup(v, path[..n - 1]).Success?
      && Select(Lookup(v, path[..n - 1]).value, path[n - 1]).None?
    decreases |path|
  {
    var n := |Lookup(v, path).error|;
    match Select(v, path[0])
    case None =>
      assert path[..n - 1] == [];
    case Some(child) =>
      LookupFailsAt(child, path[1..]);
      assert path[1..][..n - 2] == path[..n - 1][1..];
      assert path[1..][n - 2] == path[n - 1];
  }

  const TemperaturePath: seq<Step> := [Key("variants"), Index(0), Key("inferenceConfiguration"), Key("text"), Key("temperature")]
  const TopPPath: seq<Step> := [Key("variants"), Index(0), Key("inferenceConfiguration"), Key("text"), Key("topP")]
  const MaxTokensPath: seq<Step> := [Key("variants"), Index(0), Key("inferenceConfiguration"), Key("text"), Key("maxTokens")]
  const ModelIdPath: seq<Step> := [Key("variants"), Index(0), Key("modelId")]
  const PromptTextPath: seq<Step> := [Key("variants"), Index(0), Key("templateConfiguration"), Key("text"), Key("text")]
  const InputVariablesPath: seq<Step> := [Key("variants"), Index(0), Key("templateConfiguration"), Key("text"), Key("inputVariables")]

  /** The six lookups, in the order the assignments perform them. */
  const FieldPaths: seq<seq<Step>> := [TemperaturePath, TopPPath, MaxTokensPath, ModelIdPath, PromptTextPath, InputVariablesPath]

  /** The returned dictionary, keys `temperature`, `topP`, `maxTokens`, `modelId`,
      `prompt_text` and `input_variable_dict`, as a record. */
  datatype PromptElements = PromptElements(
    temperature: Json, topP: Json, maxTokens: Json,
    modelId: Json, promptText: Json, inputVariables: Json)

  /** The error of the first lookup in `paths` that raises, if any: the order in which a
      sequence of independent assignments reports its first failure. */
  function FirstFailure(response: Json, paths: seq<seq<Step>>): Option<seq<Step>>
    decreases |paths|
  {
    if paths == [] then None
    else match Lookup(response, paths[0])
      case Failure(e) => Some(e)
      case Success(_) => FirstFailure(response, paths[1..])
  }

  /** `FirstFailure` over the six field paths, spelled out one lookup at a time. */
  lemma FirstFailureOfFields(response: Json)
    ensures FirstFailure(response, FieldPaths) ==
      if Lookup(response, TemperaturePath).Failure? then Some(Lookup(response, TemperaturePath).error)
      else if Lookup(response, TopPPath).Failure? then Some(Lookup(response, TopPPath).error)
      else if Lookup(response, MaxTokensPath).Failure? then Some(Lookup(response, MaxTokensPath).error)
      else if Lookup(response, ModelIdPath).Failure? then Some(Lookup(response, ModelIdPath).error)
      else if Lookup(response, PromptTextPath).Failure? then Some(Lookup(response, PromptTextPath).error)
      else if Lookup(response, InputVariablesPath).Failure? then Some(Lookup(response, InputVariablesPath).error)
      else None
  {
    var ps := FieldPaths;
    assert ps[1..][1..][1..][1..][1..][1..] == [];
    assert FirstFailure(response, ps[1..][1..][1..][1..][1..]) ==
      if Lookup(response, InputVariablesPath).Failure? then Some(Lookup(response, InputVariablesPath).error) else None;
    assert FirstFailure(response, ps[1..][1..][1..][1..]) ==
      if Lookup(response, PromptTextPath).Failure? then Some(Lookup(response, PromptTextPath).error)
      else FirstFailure(response, ps[1..][1..][1..][1..][1..]);
    assert FirstFailure(response, ps[1..][1..][1..]) ==
      if Lookup(response, ModelIdPath).Failure? then Some(Lookup(response, ModelIdPath).error)
      else FirstFailure(response, ps[1..][1..][1..][1..]);
    assert FirstFailure(response, ps[1..][1..]) ==
      if Lookup(response, MaxTokensPath).Failure? then Some(Lookup(response, MaxTokensPath).error)
      else FirstFailure(response, ps[1..][1..][1..]);
    assert FirstFailure(response, ps[1..]) ==
      if Lookup(response, TopPPath).Failure? then Some(Lookup(response, TopPPath).error)
      else FirstFailure(response, ps[1..][1..]);
  }

  /** The projection fails exactly with the first lookup, in assignment order, that raises;
      when none does it copies each of the six fields verbatim. */
  function GetEltsFromPromptGetResponse(response: Json): (r: Result<PromptElements, seq<Step>>)
    ensures r.Failure? <==> FirstFailure(response, FieldPaths).Some?
    ensures r.Failure? ==> r.error == FirstFailure(response, FieldPaths).value
    ensures r.Success? ==>
      && Lookup(response, TemperaturePath) == Success(r.value.temperature)
      && Lookup(response, TopPPath) == Success(r.value.topP)
      && Lookup(response, MaxTokensPath) == Success(r.value.maxTokens)
      && Lookup(response, ModelIdPath) == Success(r.value.modelId)
      && Lookup(response, PromptTextPath) == Success(r.value.promptText)
      && Lookup(response, InputVariablesPath) == Success(r.value.inputVariables)
  {
    FirstFailureOfFields(response);
    var temperature :- Lookup(response, TemperaturePath);
    var topP :- Lookup(response, TopPPath);
    var maxTokens :- Lookup(response, MaxTokensPath);
    var modelId :- Lookup(response, ModelIdPath);
    var promptText :- Lookup(response, PromptTextPath);
    var inputVariables :- Lookup(response, InputVariablesPath);
    Success(PromptElements(temperature, topP, maxTokens, modelId, promptText, inputVariables))
  }

  /** A response without a `modelId` in its first variant is rejected, not given a default. */
  lemma MissingModelId(response: Json)
    requires Lookup(response, ModelIdPath).Failure?
    ensures GetEltsFromPromptGetResponse(response).Failure?
  {
  }

  /** A response with no `variants` entry fails at that first subscript. */
  lemma MissingVariants(fields: map<string, Json>)
    requires "variants" !in fields
    ensures GetEltsFromPromptGetResponse(JObject(fields)) == Failure([Key("variants")])
  {
    assert Lookup(JObject(fields), TemperaturePath) == Failure([Key("variants")]);
  }
}
