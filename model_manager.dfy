/** The model adapter (modules/model_manager.py, `generate_text`): the input
    guard, then the configured backend on the repaired prompt, then the output
    contract, with a repaired dict turned back into text. */
module ModelAdapter {
  import opened Wrappers
  import opened JsonData
  import opened Heuristics

  /** What generate_text returns: text, or a decoded list handed back as is. */
  datatype Reply = TextReply(text: string) | ListReply(items: seq<Json>)

  predicate Supported(modelType: string) {
    modelType == "gemini" || modelType == "ollama"
  }

  function UnsupportedMessage(modelType: string): string {
    "Unsupported model type: " + modelType
  }

  /** The reply for a contract outcome: a dict through `dumps`, a list as is. */
  function Render(fixed: Fixed, dumps: Json -> string): Reply {
    match fixed
    case FText(t) => TextReply(t)
    case FJson(v) => if v.JArray? then ListReply(v.elems) else TextReply(dumps(v))
  }

  /** generate_text. `backend(modelType, prompt)` stands for the Gemini or
      Ollama call, which may raise; validation problems are only logged. */
  function GenerateText(prompt: string, fmt: Option<string>, modelType: string,
                        backend: (string, string) -> Result<string>, scan: Scanner,
                        parse: string -> ParseResult, dumps: Json -> string): (r: Result<Reply>)
    ensures !Supported(modelType) ==> r == Err(UnsupportedMessage(modelType))
    ensures Supported(modelType) ==>
      var response := backend(modelType, InputGuard(prompt, scan).fixed);
      && (response.Err? ==> r == Err(response.reason))
      && (response.Ok? ==> r.Ok? == OutputContract(response.value, fmt, parse).Ok?)
    ensures Supported(modelType) && !IsJsonFormat(fmt) && backend(modelType, InputGuard(prompt, scan).fixed).Ok?
      ==> r == Ok(TextReply(backend(modelType, InputGuard(prompt, scan).fixed).value))
  {
    var guarded := InputGuard(prompt, scan);
    if !Supported(modelType) then Err(UnsupportedMessage(modelType))
    else
      match backend(modelType, guarded.fixed)
      case Err(e) => Err(e)
      case Ok(response) =>
        match OutputContract(response, fmt, parse)
        case Err(e) => Err(e)
        case Ok(out) => Ok(Render(out.fixed, dumps))
  }

  /** The backend sees only the guard's repaired prompt: two prompts the
      guard repairs to the same text get the same reply, valid or not. */
  lemma OnlyRepairedPromptMatters(p1: string, p2: string, fmt: Option<string>, modelType: string,
                                   backend: (string, string) -> Result<string>, scan: Scanner,
                                   parse: string -> ParseResult, dumps: Json -> string)
    requires InputGuard(p1, scan).fixed == InputGuard(p2, scan).fixed
    ensures GenerateText(p1, fmt, modelType, backend, scan, parse, dumps)
         == GenerateText(p2, fmt, modelType, backend, scan, parse, dumps)
  {
  }

  /** A decoded dict comes back as its serialisation: every required field of
      the schema present and no empty value (through `dumps`). */
  lemma DictReply(prompt: string, fmt: Option<string>, modelType: string,
                  backend: (string, string) -> Result<string>, scan: Scanner,
                  parse: string -> ParseResult, dumps: Json -> string, fs: seq<Field>)
    requires Supported(modelType) && IsJsonFormat(fmt)
    requires var response := backend(modelType, InputGuard(prompt, scan).fixed);
      response.Ok? && parse(JsonCandidate(response.value)) == Parsed(JObject(fs))
    ensures var fixed := RepairTree(JObject(fs), fmt.value).value.fixed.value;
      && fixed.JObject? && NoEmptyFields(fixed)
      && GenerateText(prompt, fmt, modelType, backend, scan, parse, dumps) == Ok(TextReply(dumps(fixed)))
  {
    RepairTreeComplete(fs, fmt.value);
    var response := backend(modelType, InputGuard(prompt, scan).fixed).value;
    var out := RepairTree(JObject(fs), fmt.value).value;
    assert OutputContract(response, fmt, parse) == Ok(out);
    ContractReply(prompt, fmt, modelType, backend, scan, parse, dumps, out);
  }

  /** A decoded list is returned as a list, not serialised. */
  lemma ListReplyKept(prompt: string, modelType: string,
                      backend: (string, string) -> Result<string>, scan: Scanner,
                      parse: string -> ParseResult, dumps: Json -> string, es: seq<Json>)
    requires Supported(modelType)
    requires var response := backend(modelType, InputGuard(prompt, scan).fixed);
      response.Ok? && parse(JsonCandidate(response.value)) == Parsed(JArray(es))
    ensures var r := GenerateText(prompt, Some("json"), modelType, backend, scan, parse, dumps);
      r.Ok? && r.value.ListReply?
  {
    var response := backend(modelType, InputGuard(prompt, scan).fixed).value;
    ListContract(response, parse, es);
    ContractReply(prompt, Some("json"), modelType, backend, scan, parse, dumps,
                  OutputContract(response, Some("json"), parse).value);
  }

  /** Under the `json` format a decoded list comes out of the contract as a list. */
  lemma ListContract(response: string, parse: string -> ParseResult, es: seq<Json>)
    requires parse(JsonCandidate(response)) == Parsed(JArray(es))
    ensures var out := OutputContract(response, Some("json"), parse);
      out.Ok? && out.value.fixed.FJson? && out.value.fixed.value.JArray?
  {
    assert ValidateRequiredFields(JArray(es), "json") == Ok(FieldsCheck(true, None, JArray(es)));
  }

  /** With a supported backend that answers, the reply is the rendering of
      the contract's outcome on that answer. */
  lemma ContractReply(prompt: string, fmt: Option<string>, modelType: string,
                      backend: (string, string) -> Result<string>, scan: Scanner,
                      parse: string -> ParseResult, dumps: Json -> string, out: OutputCheck)
    requires Supported(modelType)
    requires var response := backend(modelType, InputGuard(prompt, scan).fixed);
      response.Ok? && OutputContract(response.value, fmt, parse) == Ok(out)
    ensures GenerateText(prompt, fmt, modelType, backend, scan, parse, dumps) == Ok(Render(out.fixed, dumps))
  {
  }
}
