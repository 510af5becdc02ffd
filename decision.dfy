/** The planning stage (modules/decision.py, `generate_plan`): the guarded
    input, history on the first step only, the memory list and the prompt,
    then the model's reply cleaned of a code fence and accepted only when it
    defines `solve`. Prompt loading, `str.format` and `generate_text` arrive
    as functions in an environment. */
module Decision {
  import opened Wrappers
  import opened Text
  import opened JsonData
  import opened Heuristics
  import opened ModelAdapter
  import History
  import Perception

  /** The answer when the reply holds no `solve` definition. */
  const NoSolveAnswer: string := History.AnswerMarker + " [Could not generate valid solve()]"
  /** The answer when generating or reading the reply raised. */
  const UnknownAnswer: string := History.AnswerMarker + " [unknown]"
  const Fence: string := "```"
  const PythonTag: string := "python"

  // --------------------------------------------------------------- memory

  function MemoryLines(texts: seq<string>): (ls: seq<string>)
    ensures |ls| == |texts| && forall i :: 0 <= i < |texts| ==> ls[i] == "- " + texts[i]
  {
    seq(|texts|, i requires 0 <= i < |texts| => "- " + texts[i])
  }

  /** `"\n".join(f"- {m.text}" ...) or "None"`, over the items' texts. */
  function MemoryText(texts: seq<string>): string {
    var joined := Join(MemoryLines(texts), "\n");
    if joined == "" then "None" else joined
  }

  /** "None" exactly when there are no items; otherwise one "- text" line
      per item, in order, which splitting on newlines gives back when no
      text holds a newline. */
  lemma MemoryTextLines(texts: seq<string>)
    ensures texts == [] <==> MemoryText(texts) == "None"
    ensures texts != [] && (forall k :: 0 <= k < |texts| ==> '\n' !in texts[k]) ==>
      SplitOn(MemoryText(texts), '\n') == MemoryLines(texts)
  {
    var lines := MemoryLines(texts);
    if texts != [] {
      JoinStartsWith(lines, "\n");
      assert lines[0][0] == '-';
      assert MemoryText(texts) == Join(lines, "\n");
      if forall k :: 0 <= k < |texts| ==> '\n' !in texts[k] {
        forall k | 0 <= k < |lines| ensures '\n' !in lines[k] {
          assert lines[k] == "- " + texts[k];
        }
        SplitJoin(lines, '\n');
      }
    }
  }

  /** A joined sequence begins with its first part. */
  lemma {:induction false} JoinStartsWith(parts: seq<string>, sep: string)
    requires parts != []
    ensures StartsWith(Join(parts, sep), parts[0])
  {
    if |parts| > 1 {
      assert Join(parts, sep) == parts[0] + (sep + Join(parts[1..], sep));
    }
  }

  // --------------------------------------------------------------- prompt

  /** The keyword arguments handed to `prompt_template.format`. */
  datatype PlanArgs = PlanArgs(memoryTexts: string, toolDescriptions: Option<string>, userInput: string,
                               historyContext: Option<string>)

  /** The three ways the prompt is built; memory and tools are always supplied. */
  function PlanArgsFor(template: string, memoryTexts: string, toolDescriptions: Option<string>,
                       userInput: string, historyContext: string): (r: PlanArgs)
    ensures r.memoryTexts == memoryTexts && r.toolDescriptions == toolDescriptions
    ensures Contains(template, Perception.HistoryPlaceholder) ==> r.userInput == userInput && r.historyContext == Some(historyContext)
    ensures !Contains(template, Perception.HistoryPlaceholder) ==> r.historyContext.None?
    ensures !Contains(template, Perception.HistoryPlaceholder) && historyContext == "" ==> r.userInput == userInput
    ensures !Contains(template, Perception.HistoryPlaceholder) && historyContext != "" ==>
      r.userInput == Perception.WithHistory(historyContext, userInput)
  {
    if !Contains(template, Perception.HistoryPlaceholder) then
      if historyContext != "" then PlanArgs(memoryTexts, toolDescriptions, Perception.WithHistory(historyContext, userInput), None)
      else PlanArgs(memoryTexts, toolDescriptions, userInput, None)
    else PlanArgs(memoryTexts, toolDescriptions, userInput, Some(historyContext))
  }

  /** The planning prompt and the perception prompt are built the same way. */
  lemma SameBranchesAsPerception(template: string, memoryTexts: string, toolDescriptions: Option<string>,
                                 serversText: string, userInput: string, historyContext: string)
    ensures var plan := PlanArgsFor(template, memoryTexts, toolDescriptions, userInput, historyContext);
      var seen := Perception.PromptArgsFor(template, serversText, userInput, historyContext);
      plan.userInput == seen.userInput && plan.historyContext == seen.historyContext
  {
  }

  // ------------------------------------------------------------ the reply

  /** The reply text after trimming, unwrapping a code fence and dropping a
      leading `python` tag (in any case). */
  function CleanPlan(text: string): (r: string)
    ensures Strip(r) == r
  {
    var raw := Strip(text);
    StripIdempotent(text);
    if StartsWith(raw, Fence) then
      var unfenced := Strip(StripChar(raw, '`'));
      StripIdempotent(StripChar(raw, '`'));
      if StartsWith(Lower(unfenced), PythonTag) then
        StripIdempotent(unfenced[|PythonTag|..]);
        Strip(unfenced[|PythonTag|..])
      else unfenced
    else raw
  }

  /** A reply that does not open with a fence is only trimmed. */
  lemma UnfencedReplyTrimmed(text: string)
    requires !StartsWith(Strip(text), Fence)
    ensures CleanPlan(text) == Strip(text)
  {
  }

  /** Fencing a trimmed body as a Python block and cleaning it gives the
      body back. */
  lemma FencedCodeUnwrapped(body: string)
    requires body != [] && Strip(body) == body
    requires body[0] != '`' && body[|body| - 1] != '`'
    ensures CleanPlan(Fence + PythonTag + "\n" + body + "\n" + Fence) == body
  {
    var inner := PythonTag + "\n" + body + "\n";
    var tagged := PythonTag + "\n" + body;
    assert Fence + PythonTag + "\n" + body + "\n" + Fence == Fence + inner + Fence;
    assert inner[0] == 'p' && inner[|inner| - 1] == '\n';
    FenceRemoved(inner);
    TagRemoved(body);
    var unfenced := Strip(StripChar(Fence + inner + Fence, '`'));
    assert unfenced == tagged;
  }

  lemma FenceRemoved(inner: string)
    requires inner != [] && inner[0] != '`' && inner[|inner| - 1] != '`'
    ensures var fenced := Fence + inner + Fence;
      Strip(fenced) == fenced && StartsWith(fenced, Fence) && StripChar(fenced, '`') == inner
  {
    var fenced := Fence + inner + Fence;
    FencedTrimmed(fenced);
    assert fenced[..3] == Fence;
    StripCharBetween(Fence, inner, Fence, '`');
  }

  lemma FencedTrimmed(fenced: string)
    requires fenced != [] && fenced[0] == '`' && fenced[|fenced| - 1] == '`'
    ensures Strip(fenced) == fenced
  {
    StripBetween([], fenced, []);
    assert [] + fenced + [] == fenced;
  }

  lemma TagRemoved(body: string)
    requires body != [] && Strip(body) == body
    ensures var tagged := PythonTag + "\n" + body;
      && Strip(PythonTag + "\n" + body + "\n") == tagged
      && StartsWith(Lower(tagged), PythonTag)
      && Strip(tagged[|PythonTag|..]) == body
  {
    var tagged := PythonTag + "\n" + body;
    TaggedTrimmed(body);
    TagLowered(tagged);
    TagDropped(body);
  }

  lemma TaggedTrimmed(body: string)
    requires body != [] && Strip(body) == body
    ensures Strip(PythonTag + "\n" + body + "\n") == PythonTag + "\n" + body
  {
    var tagged := PythonTag + "\n" + body;
    assert PythonTag + "\n" + body + "\n" == [] + tagged + "\n";
    assert tagged[0] == 'p' && tagged[|tagged| - 1] == body[|body| - 1];
    StripBetween([], tagged, "\n");
  }

  lemma TagLowered(tagged: string)
    requires StartsWith(tagged, PythonTag)
    ensures StartsWith(Lower(tagged), PythonTag)
  {
    assert tagged[..6] == PythonTag;
    assert Lower(tagged)[..6] == PythonTag;
  }

  lemma TagDropped(body: string)
    requires body != [] && Strip(body) == body
    ensures Strip((PythonTag + "\n" + body)[|PythonTag|..]) == body
  {
    assert (PythonTag + "\n" + body)[|PythonTag|..] == "\n" + body + [];
    StripBetween("\n", body, []);
  }

  /** One line start of `s`: the beginning, or just after a newline. */
  predicate LineStart(s: string, i: int) {
    0 <= i <= |s| && (i == 0 || s[i - 1] == '\n')
  }

  /** The first index at or after `i` that is not whitespace. */
  function SkipSpace(s: string, i: nat): (j: nat)
    requires i <= |s|
    ensures i <= j <= |s|
    ensures j == |s| || !IsSpace(s[j])
    decreases |s| - i
  {
    if i < |s| && IsSpace(s[i]) then SkipSpace(s, i + 1) else i
  }

  /** Every character skipped is whitespace. */
  lemma {:induction false} SkipSpaceRun(s: string, i: nat)
    requires i <= |s|
    ensures forall k :: i <= k < SkipSpace(s, i) ==> IsSpace(s[k])
    decreases |s| - i
  {
    if i < |s| && IsSpace(s[i]) {
      SkipSpaceRun(s, i + 1);
    }
  }

  /** `def\s+solve\s*\(` at index `i`. */
  predicate DefSolveAt(s: string, i: nat) {
    OccursAt(s, "def", i)
    && var j := SkipSpace(s, i + 3);
    && j > i + 3 && OccursAt(s, "solve", j)
    && var k := SkipSpace(s, j + 5);
    k < |s| && s[k] == '('
  }

  /** `(async\s+)?def\s+solve\s*\(` at index `i`. */
  predicate SolveHeaderAt(s: string, i: nat) {
    DefSolveAt(s, i) || (i + 5 <= |s| && AsyncDefAt(s, i, SkipSpace(s, i + 5)))
  }

  /** The acceptance test: some line begins, after optional whitespace,
      with an optionally `async` definition of `solve`. Whitespace before
      the keyword may span lines, which the next line start covers too. */
  predicate DefinesSolve(s: string) {
    exists i {:trigger LineStart(s, i)} :: 0 <= i <= |s| && LineStart(s, i) && SolveHeaderAt(s, SkipSpace(s, i))
  }

  /** A text that opens with `def solve(` defines solve. */
  lemma OpeningDefAccepted(s: string)
    requires StartsWith(s, "def solve(")
    ensures DefinesSolve(s)
  {
    assert s[..10] == "def solve(";
    assert s[0] == 'd' && s[3] == ' ' && s[4] == 's' && s[9] == '(';
    assert SkipSpace(s, 0) == 0;
    assert SkipSpace(s, 4) == 4;
    assert SkipSpace(s, 3) == 4;
    assert SkipSpace(s, 9) == 9;
    assert s[0..3] == "def" && s[4..9] == "solve";
    assert LineStart(s, 0) && SolveHeaderAt(s, SkipSpace(s, 0));
  }

  /** The test looks at every line: a definition on a later line is found. */
  lemma LaterLineAccepted(a: string, b: string)
    requires DefinesSolve(b)
    ensures DefinesSolve(a + "\n" + b)
  {
    var i, x := DefinesWitness(b);
    LaterLineAt(a, b, i, x);
  }

  /** The header that line `i` of `b` opens with is found after `a`. */
  lemma LaterLineAt(a: string, b: string, i: nat, x: nat)
    requires i <= |b| && LineStart(b, i) && x == SkipSpace(b, i) && SolveHeaderAt(b, x)
    ensures DefinesSolve(a + "\n" + b)
  {
    LineStartShift(a, b, i);
    LineShift(a, b, i, x);
  }

  /** Whitespace skipping and the header test on the line after `a`. */
  lemma LineShift(a: string, b: string, i: nat, x: nat)
    requires i <= |b| && x == SkipSpace(b, i) && SolveHeaderAt(b, x)
    ensures var s := a + "\n" + b;
      |a| + 1 + i <= |s| && SkipSpace(s, |a| + 1 + i) == |a| + 1 + x && SolveHeaderAt(s, |a| + 1 + x)
  {
    LineSkip(a, b, i);
    LineHeader(a, b, x);
  }

  /** The text after the first line break added is the second line. */
  lemma LineSuffix(a: string, b: string)
    ensures |a| + 1 <= |a + "\n" + b| && (a + "\n" + b)[|a| + 1..] == b
  {
  }

  lemma LineSkip(a: string, b: string, i: nat)
    requires i <= |b|
    ensures var s := a + "\n" + b;
      |a| + 1 + i <= |s| && SkipSpace(s, |a| + 1 + i) == |a| + 1 + SkipSpace(b, i)
  {
    LineSuffix(a, b);
    SkipShift(a + "\n" + b, |a| + 1, i);
  }

  lemma LineHeader(a: string, b: string, x: nat)
    requires x <= |b| && SolveHeaderAt(b, x)
    ensures SolveHeaderAt(a + "\n" + b, |a| + 1 + x)
  {
    LineSuffix(a, b);
    HeaderShift(a + "\n" + b, |a| + 1, x);
  }

  /** The line start, and the header after its whitespace, that a text
      defining `solve` has. */
  lemma DefinesWitness(s: string) returns (i: nat, x: nat)
    requires DefinesSolve(s)
    ensures i <= |s| && LineStart(s, i) && x == SkipSpace(s, i) && SolveHeaderAt(s, x)
  {
    i :| 0 <= i <= |s| && LineStart(s, i) && SolveHeaderAt(s, SkipSpace(s, i));
    x := SkipSpace(s, i);
  }


  /** A line start of `b` is a line start of `a + "\n" + b`, shifted. */
  lemma LineStartShift(a: string, b: string, i: nat)
    requires LineStart(b, i)
    ensures LineStart(a + "\n" + b, |a| + 1 + i)
  {
    var s := a + "\n" + b;
    var d := |a| + 1;
    if i == 0 {
      assert s[d - 1] == '\n';
    } else {
      assert s[d + i - 1] == b[i - 1];
    }
  }

  /** Skipping whitespace inside a suffix is skipping it in the whole. */
  lemma {:induction false} SkipShift(s: string, d: nat, i: nat)
    requires d <= |s| && i <= |s| - d
    ensures SkipSpace(s, d + i) == d + SkipSpace(s[d..], i)
    decreases |s| - d - i
  {
    if i < |s| - d && IsSpace(s[d + i]) {
      assert s[d..][i] == s[d + i];
      SkipShift(s, d, i + 1);
    }
  }

  lemma DefShift(s: string, d: nat, i: nat)
    requires d <= |s| && i <= |s| - d && DefSolveAt(s[d..], i)
    ensures DefSolveAt(s, d + i)
  {
    var j, k := DefSolveParts(s[d..], i);
    DefPartsShift(s, d, i, j, k);
  }

  lemma DefPartsShift(s: string, d: nat, i: nat, j: nat, k: nat)
    requires d <= |s| && WordThenSpace(s[d..], "def", i, j) && j > i + 3
    requires WordThenSpace(s[d..], "solve", j, k)
    requires k < |s| - d && s[d..][k] == '('
    ensures DefSolveAt(s, d + i)
  {
    WordShift(s, d, "def", i, j);
    WordShift(s, d, "solve", j, k);
    CharShift(s, d, k);
    DefSolveFrom(s, d + i, d + j, d + k);
  }

  /** The places of `solve` and of `(` in a definition found at `i`. */
  lemma DefSolveParts(s: string, i: nat) returns (j: nat, k: nat)
    requires DefSolveAt(s, i)
    ensures WordThenSpace(s, "def", i, j) && j > i + 3
    ensures WordThenSpace(s, "solve", j, k)
    ensures k < |s| && s[k] == '('
  {
    j := SkipSpace(s, i + 3);
    k := SkipSpace(s, j + 5);
  }

  /** Keyword `w` at `i`, then whitespace up to `j`. */
  predicate WordThenSpace(s: string, w: string, i: nat, j: nat) {
    i + |w| <= |s| && OccursAt(s, w, i) && SkipSpace(s, i + |w|) == j
  }

  /** A keyword at `i` of a suffix, followed by whitespace up to `j`, sits
      at `d + i` of the whole text, followed by whitespace up to `d + j`. */
  lemma WordShift(s: string, d: nat, w: string, i: nat, j: nat)
    requires d <= |s| && WordThenSpace(s[d..], w, i, j)
    ensures WordThenSpace(s, w, d + i, d + j)
  {
    OccursShift(s, d, w, i);
    SkipShift(s, d, i + |w|);
  }

  lemma CharShift(s: string, d: nat, k: nat)
    requires d <= |s| && k < |s| - d && s[d..][k] == '('
    ensures d + k < |s| && s[d + k] == '('
  {
  }

  /** `def`, whitespace, `solve`, optional whitespace and `(` at the given places. */
  lemma DefSolveFrom(s: string, i: nat, j: nat, k: nat)
    requires WordThenSpace(s, "def", i, j) && j > i + 3
    requires WordThenSpace(s, "solve", j, k)
    requires k < |s| && s[k] == '('
    ensures DefSolveAt(s, i)
  {
  }

  lemma HeaderShift(s: string, d: nat, i: nat)
    requires d <= |s| && i <= |s| - d && SolveHeaderAt(s[d..], i)
    ensures SolveHeaderAt(s, d + i)
  {
    if DefSolveAt(s[d..], i) {
      DefHeaderShift(s, d, i);
    } else {
      var j := AsyncParts(s[d..], i);
      AsyncShift(s, d, i, j);
    }
  }

  lemma DefHeaderShift(s: string, d: nat, i: nat)
    requires d <= |s| && i <= |s| - d && DefSolveAt(s[d..], i)
    ensures SolveHeaderAt(s, d + i)
  {
    DefShift(s, d, i);
    DefIsHeader(s, d + i);
  }

  /** `async`, whitespace and a definition in a suffix sit at the shifted
      places of the whole text, where they make a header. */
  lemma AsyncShift(s: string, d: nat, i: nat, j: nat)
    requires d <= |s| && AsyncDefAt(s[d..], i, j)
    ensures SolveHeaderAt(s, d + i)
  {
    WordShift(s, d, "async", i, j);
    DefShift(s, d, j);
  }

  lemma DefIsHeader(s: string, i: nat)
    requires DefSolveAt(s, i)
    ensures SolveHeaderAt(s, i)
  {
  }

  /** Where a header is not a plain definition, it is `async` followed by one. */
  lemma AsyncParts(s: string, i: nat) returns (j: nat)
    requires SolveHeaderAt(s, i) && !DefSolveAt(s, i)
    ensures AsyncDefAt(s, i, j)
  {
    j := SkipSpace(s, i + 5);
  }

  /** `async` at `i`, whitespace up to `j`, then a definition of `solve`. */
  predicate AsyncDefAt(s: string, i: nat, j: nat) {
    WordThenSpace(s, "async", i, j) && j > i + 5 && DefSolveAt(s, j)
  }

  /** A text with no newline whose first character opens neither keyword
      nor whitespace defines nothing. */
  lemma SingleLineRejected(s: string)
    requires forall k :: 0 <= k < |s| ==> s[k] != '\n'
    requires s != [] && s[0] != 'a' && s[0] != 'd' && !IsSpace(s[0])
    ensures !DefinesSolve(s)
  {
    assert forall i :: 0 < i <= |s| ==> !LineStart(s, i);
    assert SkipSpace(s, 0) == 0;
    assert !OccursAt(s, "def", 0) && !OccursAt(s, "async", 0) by {
      assert |s| < 3 || s[0..3][0] == s[0];
      assert |s| < 5 || s[0..5][0] == s[0];
    }
  }

  /** Neither fallback answer passes the acceptance test. */
  lemma FallbacksRejected()
    ensures !DefinesSolve(NoSolveAnswer) && !DefinesSolve(UnknownAnswer)
  {
    assert NoSolveAnswer[0] == 'F' && UnknownAnswer[0] == 'F';
    SingleLineRejected(NoSolveAnswer);
    SingleLineRejected(UnknownAnswer);
  }

  /** The plan for a reply: a cleaned text that defines `solve`, or one of
      the two fallbacks. A list reply has no `strip` and raises. */
  function PlanFromReply(reply: Result<Reply>): (r: string)
    ensures reply.Ok? && reply.value.TextReply? && DefinesSolve(CleanPlan(reply.value.text))
            ==> r == CleanPlan(reply.value.text)
    ensures reply.Ok? && reply.value.TextReply? && !DefinesSolve(CleanPlan(reply.value.text)) ==> r == NoSolveAnswer
    ensures !(reply.Ok? && reply.value.TextReply?) ==> r == UnknownAnswer
  {
    match reply
    case Ok(TextReply(text)) =>
      var raw := CleanPlan(text);
      if DefinesSolve(raw) then raw else NoSolveAnswer
    case _ => UnknownAnswer
  }

  /** The plan defines `solve` exactly when the model's cleaned reply did;
      otherwise it is a final answer. */
  lemma PlanAcceptedIff(reply: Result<Reply>)
    ensures DefinesSolve(PlanFromReply(reply)) <==>
      reply.Ok? && reply.value.TextReply? && DefinesSolve(CleanPlan(reply.value.text))
    ensures !DefinesSolve(PlanFromReply(reply)) ==> StartsWith(PlanFromReply(reply), History.AnswerMarker)
  {
    FallbacksRejected();
    var m := History.AnswerMarker;
    assert NoSolveAnswer[..|m|] == m;
    assert UnknownAnswer[..|m|] == m;
  }

  // ---------------------------------------------------------------- stage

  /** The stage's collaborators. `template` is the loaded prompt; `format`
      stands for `str.format`; `generate` for `generate_text(_, "plan")`. */
  datatype Env = Env(
    scan: Scanner,
    tools: Result<seq<string>>,
    call: string -> History.CallOutcome,
    toolParse: string -> ParseResult,
    fromTimestamp: Json -> Option<string>,
    template: string,
    format: (string, PlanArgs) -> Result<string>,
    generate: string -> Result<Reply>)

  /** generate_plan given the history items found. History rendering and
      template formatting lie outside the guarded part, so their errors
      propagate; anything raised inside it gives the unknown answer. */
  function PlanSpec(userInput: string, memoryTexts: seq<string>, toolDescriptions: Option<string>,
                    items: seq<Json>, env: Env): (r: Result<string>)
    ensures var h := History.FormatHistory(items, env.fromTimestamp);
      h.Err? ==> r == Err(h.reason)
    ensures var h := History.FormatHistory(items, env.fromTimestamp);
      h.Ok? ==>
        var input := Perception.EffectiveInput(userInput, env.scan);
        var prompt := env.format(env.template, PlanArgsFor(env.template, MemoryText(memoryTexts), toolDescriptions, input, h.value));
        && (prompt.Err? ==> r == Err(prompt.reason))
        && (prompt.Ok? ==> r == Ok(PlanFromReply(env.generate(prompt.value))))
    ensures r.Ok? ==> DefinesSolve(r.value) || StartsWith(r.value, History.AnswerMarker)
  {
    var input := Perception.EffectiveInput(userInput, env.scan);
    match (if items == [] then Ok("") else History.FormatHistory(items, env.fromTimestamp))
    case Err(e) => Err(e)
    case Ok(historyContext) =>
      match env.format(env.template, PlanArgsFor(env.template, MemoryText(memoryTexts), toolDescriptions, input, historyContext))
      case Err(e) => Err(e)
      case Ok(prompt) =>
        var reply := env.generate(prompt);
        PlanAcceptedIff(reply);
        Ok(PlanFromReply(reply))
  }

  /** generate_plan: guard, search history on the first step only (the
      manager is fetched on every step), render it, build the prompt, then
      read the reply. */
  method GeneratePlan(userInput: string, memoryTexts: seq<string>, toolDescriptions: Option<string>,
                      stepNum: int, registry: History.Registry, env: Env)
    returns (r: Result<string>)
    modifies registry, registry.current
    ensures registry.current != null
    ensures var input := Perception.EffectiveInput(userInput, env.scan);
      r == PlanSpec(userInput, memoryTexts, toolDescriptions,
                    if stepNum == 1 then old(History.RegistrySearch(registry.current, input, env.tools, env.call, env.toolParse))
                    else [],
                    env)
    ensures stepNum != 1 && old(registry.current) != null ==> registry.current.cache == old(registry.current.cache)
    ensures stepNum == 1 && old(registry.current) != null ==>
      var input := Perception.EffectiveInput(userInput, env.scan);
      registry.current.cache == History.CacheAfter(old(registry.current.cache), registry.current.hasDispatcher, input,
                                                   History.DefaultMaxResults, env.tools, env.call, env.toolParse)
  {
    var isValid, errorMessages, validatedInput := ValidateLlmInput(userInput, env.scan);
    var input := userInput;
    if !isValid {
      input := validatedInput;
    }
    var manager := registry.Get();
    var historyItems: seq<Json> := [];
    if stepNum == 1 {
      historyItems := manager.SearchRelevantConversations(input, History.DefaultMaxResults, env.tools, env.call, env.toolParse);
    }
    r := PlanWithHistory(userInput, memoryTexts, toolDescriptions, input, historyItems, env);
  }

  /** The part of generate_plan after the history search: render the
      history, build the prompt, read the reply. */
  method PlanWithHistory(userInput: string, memoryTexts: seq<string>, toolDescriptions: Option<string>,
                         input: string, historyItems: seq<Json>, env: Env)
    returns (r: Result<string>)
    requires input == Perception.EffectiveInput(userInput, env.scan)
    ensures r == PlanSpec(userInput, memoryTexts, toolDescriptions, historyItems, env)
  {
    var historyContext: Result<string> := Ok("");
    if historyItems != [] {
      historyContext := History.FormatHistoryForContext(historyItems, env.fromTimestamp);
    }
    if historyContext.Err? {
      return Err(historyContext.reason);
    }
    var args := PlanArgsFor(env.template, MemoryText(memoryTexts), toolDescriptions, input, historyContext.value);
    var prompt := env.format(env.template, args);
    if prompt.Err? {
      return Err(prompt.reason);
    }
    return Ok(PlanFromReply(env.generate(prompt.value)));
  }

  /** After the first step no history reaches the prompt: the user input is
      handed to the template as the guard left it. */
  lemma LaterStepsIgnoreHistory(template: string, memoryTexts: seq<string>, toolDescriptions: Option<string>,
                                userInput: string, scan: Scanner)
    ensures var args := PlanArgsFor(template, MemoryText(memoryTexts), toolDescriptions,
                                    Perception.EffectiveInput(userInput, scan), "");
      && args.userInput == Perception.EffectiveInput(userInput, scan)
      && (args.historyContext.Some? ==> args.historyContext.value == "")
  {
  }
}
