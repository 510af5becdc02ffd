/** The perception stage (modules/perception.py): the guarded input, the
    retrieved history, the server catalogue and the prompt, then the model's
    structured reply read into a PerceptionResult, with a sentinel result
    for every failure inside the guarded part. Prompt loading, `str.format`,
    `generate_text`, `extract_json_block` and `json.loads` arrive as
    functions in an environment. */
module Perception {
  import opened Wrappers
  import opened Text
  import opened JsonData
  import opened Heuristics
  import opened ModelAdapter
  import History

  const HistoryPlaceholder: string := "{history_context}"
  const NoDescription: string := "No description available"
  const UnknownIntent: string := "unknown"

  /** PerceptionResult after validation. */
  datatype PerceptionResult = PerceptionResult(
    intent: string,
    entities: seq<string>,
    toolHint: Option<string>,
    tags: seq<string>,
    selectedServers: seq<string>)

  /** The result returned when anything in the guarded part fails. */
  function Fallback(ids: seq<string>): PerceptionResult {
    PerceptionResult(UnknownIntent, [], None, [], ids)
  }

  /** The input the stage works on: the repaired text only when the guard
      reports a problem. */
  function EffectiveInput(userInput: string, scan: Scanner): (r: string)
    ensures InputGuard(userInput, scan).valid ==> r == userInput
    ensures !InputGuard(userInput, scan).valid ==> r == InputGuard(userInput, scan).fixed
  {
    var guard := InputGuard(userInput, scan);
    if guard.valid then userInput else guard.fixed
  }

  // ------------------------------------------------------------ catalogue

  /** One catalogue line; a server entry that is not a dict raises. */
  function ServerLine(server: Field): (r: Result<string>)
    ensures r.Ok? <==> server.value.JObject?
  {
    if !server.value.JObject? then Err(NoGetMessage(server.value))
    else Ok("- " + server.key + ": " + PyStr(Get(server.value.fields, "description", JString(NoDescription))))
  }

  function ServerLines(descriptions: seq<Field>): (rs: seq<Result<string>>)
    ensures |rs| == |descriptions|
    ensures forall i :: 0 <= i < |descriptions| ==> rs[i] == ServerLine(descriptions[i])
  {
    seq(|descriptions|, i requires 0 <= i < |descriptions| => ServerLine(descriptions[i]))
  }

  /** The catalogue: the server lines in mapping order, joined by newlines. */
  function ServersText(descriptions: seq<Field>): Result<string> {
    match Collect(ServerLines(descriptions))
    case Err(e) => Err(e)
    case Ok(lines) => Ok(Join(lines, "\n"))
  }

  /** One line per server, in order, each naming the server and its
      description, or the default description when it has none. */
  lemma ServersTextLines(descriptions: seq<Field>)
    ensures ServersText(descriptions).Err? <==> exists i :: 0 <= i < |descriptions| && !descriptions[i].value.JObject?
    ensures ServersText(descriptions).Ok? ==>
      var lines := Collect(ServerLines(descriptions)).value;
      && ServersText(descriptions).value == Join(lines, "\n")
      && |lines| == |descriptions|
      && forall i :: 0 <= i < |descriptions| ==>
           var d := descriptions[i];
           && lines[i] == "- " + d.key + ": " + PyStr(Get(d.value.fields, "description", JString(NoDescription)))
           && StartsWith(lines[i], "- " + d.key + ": ")
           && (!HasKey(d.value.fields, "description") ==> lines[i] == "- " + d.key + ": " + NoDescription)
  {
    var lines := ServerLines(descriptions);
    CollectAll(lines);
    if Collect(lines).Ok? {
      forall i | 0 <= i < |descriptions|
        ensures StartsWith(Collect(lines).value[i], "- " + descriptions[i].key + ": ")
      {
        var d := descriptions[i];
        var head := "- " + d.key + ": ";
        var tail := PyStr(Get(d.value.fields, "description", JString(NoDescription)));
        assert (head + tail)[..|head|] == head;
      }
    }
  }

  /** The catalogue loop: one appended line per server. */
  method BuildServersText(descriptions: seq<Field>) returns (r: Result<string>)
    ensures r == ServersText(descriptions)
  {
    var serverList: seq<string> := [];
    var i := 0;
    while i < |descriptions|
      invariant 0 <= i <= |descriptions|
      invariant Collect(ServerLines(descriptions[..i])) == Ok(serverList)
    {
      var line := ServerLine(descriptions[i]);
      ServerLinesStep(descriptions, i);
      CollectAppend(ServerLines(descriptions[..i]), line);
      if line.Err? {
        CollectPrefixErr(ServerLines(descriptions), i + 1);
        return Err(line.reason);
      }
      serverList := serverList + [line.value];
      i := i + 1;
    }
    assert descriptions[..i] == descriptions;
    return Ok(Join(serverList, "\n"));
  }

  lemma ServerLinesStep(descriptions: seq<Field>, i: nat)
    requires i < |descriptions|
    ensures ServerLines(descriptions[..i + 1]) == ServerLines(descriptions[..i]) + [ServerLine(descriptions[i])]
    ensures ServerLines(descriptions)[..i + 1] == ServerLines(descriptions[..i + 1])
  {
  }

  // --------------------------------------------------------------- prompt

  /** The keyword arguments handed to `prompt_template.format`. */
  datatype PromptArgs = PromptArgs(serversText: string, userInput: string, historyContext: Option<string>)

  function WithHistory(historyContext: string, userInput: string): string {
    "[RELEVANT HISTORY]\n" + historyContext + "\n\n[CURRENT QUERY]\n" + userInput
  }

  /** The three ways the prompt is built. */
  function PromptArgsFor(template: string, serversText: string, userInput: string, historyContext: string): (r: PromptArgs)
    ensures r.serversText == serversText
    ensures Contains(template, HistoryPlaceholder) ==> r.userInput == userInput && r.historyContext == Some(historyContext)
    ensures !Contains(template, HistoryPlaceholder) ==> r.historyContext.None?
    ensures !Contains(template, HistoryPlaceholder) && historyContext == "" ==> r.userInput == userInput
  {
    if !Contains(template, HistoryPlaceholder) then
      if historyContext != "" then PromptArgs(serversText, WithHistory(historyContext, userInput), None)
      else PromptArgs(serversText, userInput, None)
    else PromptArgs(serversText, userInput, Some(historyContext))
  }

  /** Without the placeholder, non-empty history is put in front of the
      input, which still ends the text handed over as the user input. */
  lemma HistoryPrecedesInput(template: string, serversText: string, userInput: string, historyContext: string)
    requires !Contains(template, HistoryPlaceholder) && historyContext != ""
    ensures var u := PromptArgsFor(template, serversText, userInput, historyContext).userInput;
      && StartsWith(u, "[RELEVANT HISTORY]\n" + historyContext)
      && EndsWith(u, "\n[CURRENT QUERY]\n" + userInput)
  {
    var head := "[RELEVANT HISTORY]\n" + historyContext;
    var tail := "\n[CURRENT QUERY]\n" + userInput;
    var u := WithHistory(historyContext, userInput);
    assert u == head + "\n" + tail;
    assert u[..|head|] == head;
    assert u[|u| - |tail|..] == tail;
  }

  // ------------------------------------------------------ reading a reply

  /** A list of strings, as pydantic accepts it for `List[str]`. */
  function Strings(es: seq<Json>): (r: Option<seq<string>>)
    ensures r.Some? <==> forall i :: 0 <= i < |es| ==> es[i].JString?
    ensures r.Some? ==> |r.value| == |es| && forall i :: 0 <= i < |es| ==> es[i] == JString(r.value[i])
  {
    if es == [] then Some([])
    else if !es[0].JString? then None
    else
      match Strings(es[1..])
      case None => None
      case Some(rest) => Some([es[0].s] + rest)
  }

  /** A `List[str]` field defaulting to `[]`. */
  function StringListField(fs: seq<Field>, k: string): (r: Option<seq<string>>)
    ensures !HasKey(fs, k) ==> r == Some([])
    ensures HasKey(fs, k) ==>
      (r.Some? <==> Lookup(fs, k).value.JArray?
                    && forall i :: 0 <= i < |Lookup(fs, k).value.elems| ==> Lookup(fs, k).value.elems[i].JString?)
    ensures r.Some? && HasKey(fs, k) ==>
      var es := Lookup(fs, k).value.elems;
      |r.value| == |es| && forall i :: 0 <= i < |es| ==> es[i] == JString(r.value[i])
  {
    match Lookup(fs, k)
    case None => Some([])
    case Some(JArray(es)) => Strings(es)
    case Some(_) => None
  }

  /** The `Optional[str]` field `tool_hint`, defaulting to None. */
  function HintField(fs: seq<Field>): (r: Option<Option<string>>)
    ensures r == Some(None) <==> !HasKey(fs, "tool_hint") || Lookup(fs, "tool_hint") == Some(JNull)
    ensures r.None? <==> HasKey(fs, "tool_hint") && !Lookup(fs, "tool_hint").value.JNull?
                         && !Lookup(fs, "tool_hint").value.JString?
    ensures r.Some? && r.value.Some? ==> Lookup(fs, "tool_hint") == Some(JString(r.value.value))
  {
    match Lookup(fs, "tool_hint")
    case None => Some(None)
    case Some(JNull) => Some(None)
    case Some(JString(s)) => Some(Some(s))
    case Some(_) => None
  }

  /** `PerceptionResult(**result)`: `intent` is a required string; the list
      fields and the hint have defaults; other keys are ignored. */
  function Validate(fs: seq<Field>): (r: Option<PerceptionResult>)
    ensures r.Some? ==> Lookup(fs, "intent") == Some(JString(r.value.intent))
    ensures r.Some? ==> StringListField(fs, "selected_servers") == Some(r.value.selectedServers)
    ensures r.Some? ==> && StringListField(fs, "entities") == Some(r.value.entities)
                        && StringListField(fs, "tags") == Some(r.value.tags)
                        && HintField(fs) == Some(r.value.toolHint)
    ensures r.Some? <==> && Lookup(fs, "intent").Some? && Lookup(fs, "intent").value.JString?
                         && StringListField(fs, "entities").Some? && HintField(fs).Some?
                         && StringListField(fs, "tags").Some? && StringListField(fs, "selected_servers").Some?
  {
    match Lookup(fs, "intent")
    case Some(JString(intent)) =>
      (match (StringListField(fs, "entities"), HintField(fs), StringListField(fs, "tags"), StringListField(fs, "selected_servers"))
       case (Some(entities), Some(hint), Some(tags), Some(servers)) => Some(PerceptionResult(intent, entities, hint, tags, servers))
       case _ => None)
    case _ => None
  }

  function IdValues(ids: seq<string>): (vs: seq<Json>)
    ensures |vs| == |ids| && forall i :: 0 <= i < |ids| ==> vs[i] == JString(ids[i])
  {
    seq(|ids|, i requires 0 <= i < |ids| => JString(ids[i]))
  }

  /** The decoded reply with `selected_servers` filled in when absent. */
  function WithServers(fs: seq<Field>, ids: seq<string>): seq<Field> {
    if HasKey(fs, "selected_servers") then fs else Put(fs, "selected_servers", JArray(IdValues(ids)))
  }

  /** The guarded part: strip the reply, extract and decode the block, fill
      in the servers, validate; any failure gives the fallback. A reply that
      is a list has no `strip`, and a decoded value that is not a dict fails
      either the `in` test, the item assignment or the `**` expansion. */
  function Interpret(reply: Result<Reply>, extract: string -> string, parse: string -> ParseResult,
                     ids: seq<string>): PerceptionResult {
    match reply
    case Ok(TextReply(raw)) =>
      (match parse(extract(Strip(raw)))
       case Parsed(JObject(fs)) =>
         (match Validate(WithServers(fs, ids))
          case Some(result) => result
          case None => Fallback(ids))
       case _ => Fallback(ids))
    case _ => Fallback(ids)
  }

  /** A decoded dict without `selected_servers` selects every server, in
      mapping order, whenever the rest of it validates. */
  lemma MissingServersSelectAll(fs: seq<Field>, ids: seq<string>)
    requires !HasKey(fs, "selected_servers")
    ensures Validate(WithServers(fs, ids)).Some? ==> Validate(WithServers(fs, ids)).value.selectedServers == ids
  {
    var filled := WithServers(fs, ids);
    assert Lookup(filled, "selected_servers") == Some(JArray(IdValues(ids)));
    if Validate(filled).Some? {
      var got := Validate(filled).value.selectedServers;
      assert Strings(IdValues(ids)) == Some(got);
      assert got == ids;
    }
  }

  /** A present `selected_servers` list is kept as it is, even when empty. */
  lemma PresentServersKept(fs: seq<Field>, ids: seq<string>, servers: seq<string>)
    requires Lookup(fs, "selected_servers") == Some(JArray(IdValues(servers)))
    ensures Validate(WithServers(fs, ids)).Some? ==> Validate(WithServers(fs, ids)).value.selectedServers == servers
  {
    if Validate(fs).Some? {
      assert Strings(IdValues(servers)) == Some(Validate(fs).value.selectedServers);
    }
  }

  /** A reply without a string `intent` gives the fallback result. */
  lemma MissingIntentFallsBack(raw: string, extract: string -> string, parse: string -> ParseResult,
                               ids: seq<string>, fs: seq<Field>)
    requires parse(extract(Strip(raw))) == Parsed(JObject(fs))
    requires !HasKey(fs, "intent")
    ensures Interpret(Ok(TextReply(raw)), extract, parse, ids) == Fallback(ids)
  {
    if !HasKey(fs, "selected_servers") {
      PutFrame(fs, "selected_servers", JArray(IdValues(ids)), "intent");
    }
  }

  /** The servers of a result are either every server or the list the
      model named. */
  lemma ServersFromReplyOrAll(reply: Result<Reply>, extract: string -> string, parse: string -> ParseResult,
                              ids: seq<string>)
    ensures var r := Interpret(reply, extract, parse, ids);
      r == Fallback(ids) ||
      (reply.Ok? && reply.value.TextReply? && parse(extract(Strip(reply.value.text))).Parsed?
       && parse(extract(Strip(reply.value.text))).value.JObject?
       && var fs := parse(extract(Strip(reply.value.text))).value.fields;
          if HasKey(fs, "selected_servers") then StringListField(fs, "selected_servers") == Some(r.selectedServers)
          else r.selectedServers == ids)
  {
    if reply.Ok? && reply.value.TextReply? {
      var p := parse(extract(Strip(reply.value.text)));
      if p.Parsed? && p.value.JObject? && !HasKey(p.value.fields, "selected_servers") {
        MissingServersSelectAll(p.value.fields, ids);
      }
    }
  }

  /** The output contract for "perception" backfills a missing
      `selected_servers` with an empty list before this stage reads the
      reply, so when the backend's JSON lacks the field (and the adapter's
      text decodes back to the repaired dict), the stage selects no server
      at all instead of every server. One `parse` stands for both decoders:
      the contract's fenced-block decoding with its quote repair, and this
      stage's own `json.loads` of the cleaned reply. They are taken to agree
      on the two texts the lemma names, which its requires state. */
  lemma BackfilledServersSelectNone(prompt: string, modelType: string, backend: (string, string) -> Result<string>,
                                    scan: Scanner, parse: string -> ParseResult, dumps: Json -> string,
                                    extract: string -> string, ids: seq<string>, intent: string)
    requires Supported(modelType)
    requires var response := backend(modelType, InputGuard(prompt, scan).fixed);
      response.Ok? && parse(JsonCandidate(response.value)) == Parsed(JObject([Field("intent", JString(intent))]))
    requires !IsBlank(intent)
    requires parse(extract(Strip(dumps(PerceptionBackfilled(intent))))) == Parsed(PerceptionBackfilled(intent))
    ensures Interpret(GenerateText(prompt, Some("perception"), modelType, backend, scan, parse, dumps),
                      extract, parse, ids).selectedServers == []
  {
    DictReply(prompt, Some("perception"), modelType, backend, scan, parse, dumps, [Field("intent", JString(intent))]);
    RepairFilledPerception(intent);
    BackfilledValidates(intent, ids);
  }

  /** The backfilled dict validates with no server selected. */
  lemma BackfilledValidates(intent: string, ids: seq<string>)
    ensures var fs := PerceptionBackfilled(intent).fields;
      Validate(WithServers(fs, ids)) == Some(PerceptionResult(intent, [], None, [], []))
  {
    var fs := PerceptionBackfilled(intent).fields;
    assert Keys(fs) == ["intent", "selected_servers"];
    LookupAt(fs, 0, "intent");
    LookupAt(fs, 1, "selected_servers");
    assert !HasKey(fs, "entities") && !HasKey(fs, "tags") && !HasKey(fs, "tool_hint");
    assert HintField(fs) == Some(None);
    assert Strings([]) == Some([]);
  }

  /** `{"intent": ...}` after the perception schema's backfill. */
  function PerceptionBackfilled(intent: string): Json {
    JObject([Field("intent", JString(intent)), Field("selected_servers", JArray([]))])
  }

  /** The output contract's repair of `{"intent": ...}` under the perception
      schema adds an empty `selected_servers` and changes nothing else. */
  lemma RepairFilledPerception(intent: string)
    requires !IsBlank(intent)
    ensures RepairTree(JObject([Field("intent", JString(intent))]), "perception").value.fixed == FJson(PerceptionBackfilled(intent))
  {
    var fixed := PerceptionBackfilled(intent);
    PerceptionFieldsBackfilled(intent);
    BackfilledNotEmpty(intent);
    assert ValidateEmptyValues(fixed).value.fixed == fixed;
  }

  /** The required-field check backfills `selected_servers`. */
  lemma PerceptionFieldsBackfilled(intent: string)
    ensures var r := ValidateRequiredFields(JObject([Field("intent", JString(intent))]), "perception");
      r.Ok? && r.value.fixed == PerceptionBackfilled(intent)
  {
    var fs := [Field("intent", JString(intent))];
    var fixed := PerceptionBackfilled(intent);
    assert MissingFields(["selected_servers"], JObject(fs)) == Ok(["selected_servers"]) by {
      assert Keys(fs) == ["intent"];
      assert !HasKey(fs, "selected_servers");
      assert PyIn("selected_servers", JObject(fs)) == Ok(false);
      var req := ["selected_servers"];
      assert req[0] == "selected_servers" && req[1..] == [];
      assert MissingFields(req[1..], JObject(fs)) == Ok([]);
      assert [req[0]] + [] == req;
    }
    assert Put(fs, "selected_servers", JArray([])) == fixed.fields;
    assert Backfill(fs, ["selected_servers"]) == fixed.fields by {
      assert ["selected_servers"][1..] == [];
    }
  }

  /** Neither the intent nor the empty server list counts as empty. */
  lemma BackfilledNotEmpty(intent: string)
    requires !IsBlank(intent)
    ensures NoEmptyFields(PerceptionBackfilled(intent))
  {
    var fixed := PerceptionBackfilled(intent);
    var tail := [Field("selected_servers", JArray([]))];
    assert fixed.fields[1..] == tail && tail[1..] == [];
    assert NoEmptyFields(JArray([]));
    assert FieldsFilled(tail);
    assert !IsEmptyValue(JString(intent));
  }

  // ----------------------------------------------------------------- stage

  /** The stage's collaborators. `template` is the loaded prompt; `format`
      stands for `str.format`; `generate` for `generate_text(_, "perception")`. */
  datatype Env = Env(
    scan: Scanner,
    tools: Result<seq<string>>,
    call: string -> History.CallOutcome,
    toolParse: string -> ParseResult,
    fromTimestamp: Json -> Option<string>,
    template: string,
    format: (string, PromptArgs) -> Result<string>,
    generate: string -> Result<Reply>,
    extract: string -> string,
    parse: string -> ParseResult)

  /** extract_perception given the history items the search returned.
      History formatting, the catalogue and the template formatting lie
      outside the guarded part, so their errors propagate. */
  function ExtractSpec(userInput: string, descriptions: seq<Field>, items: seq<Json>, env: Env): (r: Result<PerceptionResult>)
    ensures var h := History.FormatHistory(items, env.fromTimestamp);
      h.Err? ==> r == Err(h.reason)
    ensures var h := History.FormatHistory(items, env.fromTimestamp);
      h.Ok? && ServersText(descriptions).Err? ==> r == Err(ServersText(descriptions).reason)
    ensures var h := History.FormatHistory(items, env.fromTimestamp);
      var c := ServersText(descriptions);
      h.Ok? && c.Ok? ==>
        var prompt := env.format(env.template, PromptArgsFor(env.template, c.value, EffectiveInput(userInput, env.scan), h.value));
        && (prompt.Err? ==> r == Err(prompt.reason))
        && (prompt.Ok? ==> r == Ok(Interpret(env.generate(prompt.value), env.extract, env.parse, Keys(descriptions))))
  {
    var input := EffectiveInput(userInput, env.scan);
    match History.FormatHistory(items, env.fromTimestamp)
    case Err(e) => Err(e)
    case Ok(historyContext) =>
      match ServersText(descriptions)
      case Err(e) => Err(e)
      case Ok(serversText) =>
        match env.format(env.template, PromptArgsFor(env.template, serversText, input, historyContext))
        case Err(e) => Err(e)
        case Ok(prompt) => Ok(Interpret(env.generate(prompt), env.extract, env.parse, Keys(descriptions)))
  }

  /** extract_perception: guard, search (through the global manager),
      render history, build the catalogue and prompt, then read the reply. */
  method ExtractPerception(userInput: string, descriptions: seq<Field>, registry: History.Registry, env: Env)
    returns (r: Result<PerceptionResult>)
    modifies registry, registry.current
    ensures registry.current != null
    ensures old(registry.current) != null ==> registry.current == old(registry.current)
    ensures var input := EffectiveInput(userInput, env.scan);
      && r == ExtractSpec(userInput, descriptions,
                          old(History.RegistrySearch(registry.current, input, env.tools, env.call, env.toolParse)),
                          env)
      && (old(registry.current) != null ==>
            registry.current.cache == History.CacheAfter(old(registry.current.cache), registry.current.hasDispatcher, input,
                                                         History.DefaultMaxResults, env.tools, env.call, env.toolParse))
  {
    var isValid, errorMessages, validatedInput := ValidateLlmInput(userInput, env.scan);
    var input := userInput;
    if !isValid {
      input := validatedInput;
    }
    var manager := registry.Get();
    var historyItems := manager.SearchRelevantConversations(input, History.DefaultMaxResults, env.tools, env.call, env.toolParse);
    r := PerceiveWithHistory(userInput, descriptions, input, historyItems, env);
  }

  /** The part of extract_perception after the history search: render the
      history, build the catalogue and prompt, read the reply. */
  method PerceiveWithHistory(userInput: string, descriptions: seq<Field>, input: string,
                             historyItems: seq<Json>, env: Env)
    returns (r: Result<PerceptionResult>)
    requires input == EffectiveInput(userInput, env.scan)
    ensures r == ExtractSpec(userInput, descriptions, historyItems, env)
  {
    var historyContext: Result<string> := Ok("");
    if historyItems != [] {
      historyContext := History.FormatHistoryForContext(historyItems, env.fromTimestamp);
    }
    if historyContext.Err? {
      return Err(historyContext.reason);
    }
    var serversText := BuildServersText(descriptions);
    if serversText.Err? {
      return Err(serversText.reason);
    }
    var args := PromptArgsFor(env.template, serversText.value, input, historyContext.value);
    var prompt := env.format(env.template, args);
    if prompt.Err? {
      return Err(prompt.reason);
    }
    return Ok(Interpret(env.generate(prompt.value), env.extract, env.parse, Keys(descriptions)));
  }

  /** run_perception: the explicit input when it is a non-empty string,
      otherwise the context's input. */
  function ChosenInput(explicit: Option<string>, contextInput: string): (r: string)
    ensures explicit.Some? && explicit.value != [] ==> r == explicit.value
    ensures explicit.None? || explicit.value == [] ==> r == contextInput
  {
    if explicit.Some? && explicit.value != [] then explicit.value else contextInput
  }

  method RunPerception(contextInput: string, descriptions: seq<Field>, explicit: Option<string>,
                       registry: History.Registry, env: Env)
    returns (r: Result<PerceptionResult>)
    modifies registry, registry.current
    ensures var input := EffectiveInput(ChosenInput(explicit, contextInput), env.scan);
      r == ExtractSpec(ChosenInput(explicit, contextInput), descriptions,
                       old(History.RegistrySearch(registry.current, input, env.tools, env.call, env.toolParse)),
                       env)
  {
    r := ExtractPerception(ChosenInput(explicit, contextInput), descriptions, registry, env);
  }
}
