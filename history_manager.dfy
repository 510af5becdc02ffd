/** The conversation history retriever (modules/history_manager.py): a
    manager with a per-query cache in front of the memory server's search
    tool, the session-history call, the renderer of history items into
    prompt text, and the process-wide instance. The dispatcher's answers are
    parameters: the tool list, and the outcome of a call for a query. */
module History {
  import opened Wrappers
  import opened Text
  import opened JsonData
  import opened Heuristics

  const SearchTool: string := "search_historical_conversations"
  const SessionTool: string := "get_current_conversations"
  const AnswerMarker: string := "FINAL_ANSWER:"
  const DefaultMaxResults: int := 5

  /** What `call_tool` handed back, as far as this code looks at it. */
  datatype ToolResult =
    | FalsyResult                    // `not tool_result`
    | NoContent                      // no `content` attribute, or an empty one
    | FirstItem(text: Option<string>) // `content[0].text`; None when it has no `text`

  /** One awaited tool call under the 10-second timeout. */
  datatype CallOutcome = TimedOut | CallRaised | Returned(result: ToolResult)

  /** `_verify_tool_availability`: the listed tools, or none when listing raised. */
  function AvailableTools(tools: Result<seq<string>>): seq<string> {
    match tools
    case Ok(names) => names
    case Err(_) => []
  }

  /** The decoded text of the first content item, if every step succeeds. */
  function Decoded(outcome: CallOutcome, parse: string -> ParseResult): Option<Json> {
    match outcome
    case Returned(FirstItem(Some(text))) =>
      (match parse(text)
       case Parsed(data) => Some(data)
       case ParseFailed(_) => None)
    case _ => None
  }

  /** `data["result"]` after the `"result" in data` test; a non-dict raises. */
  function ResultField(data: Json): (r: Option<Json>)
    ensures r.Some? <==> data.JObject? && HasKey(data.fields, "result")
  {
    if data.JObject? then Lookup(data.fields, "result") else None
  }

  /** `xs[:n]` for any integer `n`. */
  function PyPrefix<T>(xs: seq<T>, n: int): (r: seq<T>)
    ensures |r| <= |xs| && r == xs[..|r|]
    ensures 0 <= n ==> |r| == if n < |xs| then n else |xs|
  {
    if 0 <= n then (if n < |xs| then xs[..n] else xs)
    else if -n < |xs| then xs[..|xs| + n] else []
  }

  /** The successful matches of a decoded search reply, as the callers see
      them. A string has a length and slices like a list, and iterating it
      yields its one-character strings, so it is kept as that list. Any other
      value has no length or cannot be sliced, which raises. */
  function MatchesOf(data: Json, maxResults: int): Option<seq<Json>> {
    match ResultField(data)
    case Some(JObject(rf)) =>
      (match Get(rf, "matches", JArray([]))
       case JArray(ms) => Some(PyPrefix(ms, maxResults))
       case JString(t) => Some(PyPrefix(Chars(t), maxResults))
       case _ => None)
    case _ => None
  }

  /** The one-character strings a string iterates over. */
  function Chars(t: string): (r: seq<Json>)
    ensures |r| == |t|
    ensures forall i :: 0 <= i < |t| ==> r[i] == JString([t[i]])
  {
    seq(|t|, i requires 0 <= i < |t| => JString([t[i]]))
  }

  /** A search that reaches the server: None for every failure path, else the
      limited matches. */
  function SearchOutcome(hasDispatcher: bool, query: string, maxResults: int,
                         tools: Result<seq<string>>, call: string -> CallOutcome,
                         parse: string -> ParseResult): (r: Option<seq<Json>>)
    ensures !hasDispatcher ==> r.None?
    ensures SearchTool !in AvailableTools(tools) ==> r.None?
    ensures call(query).TimedOut? || call(query).CallRaised? ==> r.None?
    ensures Decoded(call(query), parse).None? ==> r.None?
    ensures var d := Decoded(call(query), parse);
      d.Some? && ResultField(d.value).None? ==> r.None?
    ensures var d := Decoded(call(query), parse);
      d.Some? && ResultField(d.value).Some? && !ResultField(d.value).value.JObject? ==> r.None?
    ensures var d := Decoded(call(query), parse);
      d.Some? && ResultField(d.value).Some? && ResultField(d.value).value.JObject?
      && !Get(ResultField(d.value).value.fields, "matches", JArray([])).JArray?
      && !Get(ResultField(d.value).value.fields, "matches", JArray([])).JString?
      ==> r.None?
    ensures r.Some? ==> 0 <= maxResults ==> |r.value| <= maxResults
  {
    if !hasDispatcher || SearchTool !in AvailableTools(tools) then None
    else match Decoded(call(query), parse)
      case None => None
      case Some(data) => MatchesOf(data, maxResults)
  }

  /** A successful search returns a prefix of the server's matches, in order,
      and every match when the server sent no more than `maxResults`. */
  lemma SearchReturnsPrefix(hasDispatcher: bool, query: string, maxResults: int,
                            tools: Result<seq<string>>, call: string -> CallOutcome,
                            parse: string -> ParseResult, rf: seq<Field>, ms: seq<Json>)
    requires hasDispatcher && SearchTool in AvailableTools(tools)
    requires Decoded(call(query), parse).Some?
    requires ResultField(Decoded(call(query), parse).value) == Some(JObject(rf))
    requires Lookup(rf, "matches") == Some(JArray(ms))
    ensures var r := SearchOutcome(hasDispatcher, query, maxResults, tools, call, parse);
      && r.Some? && r.value == ms[..|r.value|]
      && (|ms| <= maxResults ==> r.value == ms)
  {
    ListMatchesOf(Decoded(call(query), parse).value, rf, ms, maxResults);
  }

  lemma ListMatchesOf(data: Json, rf: seq<Field>, ms: seq<Json>, maxResults: int)
    requires ResultField(data) == Some(JObject(rf))
    requires Lookup(rf, "matches") == Some(JArray(ms))
    ensures MatchesOf(data, maxResults) == Some(PyPrefix(ms, maxResults))
  {
  }

  /** A reply without a `matches` entry is a success with no items. */
  lemma SearchWithoutMatches(hasDispatcher: bool, query: string, maxResults: int,
                             tools: Result<seq<string>>, call: string -> CallOutcome,
                             parse: string -> ParseResult, rf: seq<Field>)
    requires hasDispatcher && SearchTool in AvailableTools(tools)
    requires Decoded(call(query), parse).Some?
    requires ResultField(Decoded(call(query), parse).value) == Some(JObject(rf))
    requires !HasKey(rf, "matches")
    ensures SearchOutcome(hasDispatcher, query, maxResults, tools, call, parse) == Some([])
  {
  }

  /** A string under `matches` is a success: its slice is returned, and so
      cached, as the list of its characters. */
  lemma StringMatchesReturned(hasDispatcher: bool, query: string, maxResults: int,
                              tools: Result<seq<string>>, call: string -> CallOutcome,
                              parse: string -> ParseResult, rf: seq<Field>, t: string)
    requires hasDispatcher && SearchTool in AvailableTools(tools)
    requires Decoded(call(query), parse).Some?
    requires ResultField(Decoded(call(query), parse).value) == Some(JObject(rf))
    requires Lookup(rf, "matches") == Some(JString(t))
    ensures SearchOutcome(hasDispatcher, query, maxResults, tools, call, parse) == Some(Chars(PyPrefix(t, maxResults)))
  {
    StringMatchesOf(Decoded(call(query), parse).value, rf, t, maxResults);
    PrefixChars(t, maxResults);
  }

  lemma StringMatchesOf(data: Json, rf: seq<Field>, t: string, maxResults: int)
    requires ResultField(data) == Some(JObject(rf))
    requires Lookup(rf, "matches") == Some(JString(t))
    ensures MatchesOf(data, maxResults) == Some(PyPrefix(Chars(t), maxResults))
  {
  }

  lemma PrefixChars(t: string, n: int)
    ensures PyPrefix(Chars(t), n) == Chars(PyPrefix(t, n))
  {
  }

  /** A non-empty string's characters cannot be rendered as history: a
      one-character string has no `get`. */
  lemma CharsUnrenderable(t: string, fromTimestamp: Json -> Option<string>)
    requires t != []
    ensures FormatHistory(Chars(t), fromTimestamp).Err?
  {
    var items := Chars(t);
    FormatHistoryBlocks(items, fromTimestamp);
    assert !items[0].JObject?;
  }

  /** get_current_session_history: `data["result"]`, or `{}` on every failure. */
  function SessionHistory(hasDispatcher: bool, tools: Result<seq<string>>, outcome: CallOutcome,
                          parse: string -> ParseResult): (r: Json)
    ensures !hasDispatcher || SessionTool !in AvailableTools(tools) || Decoded(outcome, parse).None?
            ==> r == JObject([])
    ensures hasDispatcher && SessionTool in AvailableTools(tools) && Decoded(outcome, parse).Some?
            && ResultField(Decoded(outcome, parse).value).Some?
            ==> r == ResultField(Decoded(outcome, parse).value).value
    ensures Decoded(outcome, parse).Some? && ResultField(Decoded(outcome, parse).value).None?
            ==> r == JObject([])
  {
    if !hasDispatcher || SessionTool !in AvailableTools(tools) then JObject([])
    else match Decoded(outcome, parse)
      case None => JObject([])
      case Some(data) =>
        match ResultField(data)
        case Some(result) => result
        case None => JObject([])
  }

  /** What a search hands back given the cache it starts from. */
  function SearchResult(cache: map<string, seq<Json>>, hasDispatcher: bool, query: string, maxResults: int,
                        tools: Result<seq<string>>, call: string -> CallOutcome,
                        parse: string -> ParseResult): seq<Json> {
    if query in cache then cache[query]
    else match SearchOutcome(hasDispatcher, query, maxResults, tools, call, parse)
      case None => []
      case Some(found) => found
  }

  /** The cache a search leaves behind. */
  function CacheAfter(cache: map<string, seq<Json>>, hasDispatcher: bool, query: string, maxResults: int,
                      tools: Result<seq<string>>, call: string -> CallOutcome,
                      parse: string -> ParseResult): map<string, seq<Json>> {
    if query in cache then cache
    else match SearchOutcome(hasDispatcher, query, maxResults, tools, call, parse)
      case None => cache
      case Some(found) => cache[query := found]
  }

  /** What a default-sized search through the global manager hands back.
      With no manager yet, get_history_manager makes one without a
      dispatcher and an empty cache, which finds nothing. */
  function RegistrySearch(manager: HistoryManager?, query: string, tools: Result<seq<string>>,
                          call: string -> CallOutcome, parse: string -> ParseResult): seq<Json>
    reads manager
  {
    if manager == null then []
    else SearchResult(manager.cache, manager.hasDispatcher, query, DefaultMaxResults, tools, call, parse)
  }

  /** ConversationHistoryManager: a dispatcher (present or not) and the cache. */
  class HistoryManager {
    const hasDispatcher: bool
    var cache: map<string, seq<Json>>

    constructor (hasDispatcher: bool)
      ensures this.hasDispatcher == hasDispatcher && cache == map[]
    {
      this.hasDispatcher := hasDispatcher;
      cache := map[];
    }

    /** search_relevant_conversations: a cached query is answered from the
        cache before anything else; otherwise only a successful search is
        stored, under the literal query. */
    method SearchRelevantConversations(query: string, maxResults: int, tools: Result<seq<string>>,
                                       call: string -> CallOutcome, parse: string -> ParseResult)
      returns (items: seq<Json>)
      modifies this
      ensures old(query in cache) ==> items == old(cache[query]) && cache == old(cache)
      ensures !old(query in cache) ==>
        match SearchOutcome(hasDispatcher, query, maxResults, tools, call, parse)
        case None => items == [] && cache == old(cache)
        case Some(found) => items == found && cache == old(cache)[query := found]
      ensures items == SearchResult(old(cache), hasDispatcher, query, maxResults, tools, call, parse)
      ensures cache == CacheAfter(old(cache), hasDispatcher, query, maxResults, tools, call, parse)
    {
      if query in cache {
        return cache[query];
      }
      if !hasDispatcher {
        return [];
      }
      var available := AvailableTools(tools);
      if SearchTool !in available {
        return [];
      }
      var outcome := call(query);
      var data := Decoded(outcome, parse);
      if data.None? {
        return [];
      }
      var found := MatchesOf(data.value, maxResults);
      if found.None? {
        return [];
      }
      cache := cache[query := found.value];
      return found.value;
    }

    /** get_current_session_history on this manager. */
    function CurrentSessionHistory(tools: Result<seq<string>>, outcome: CallOutcome,
                                   parse: string -> ParseResult): (r: Json)
      ensures !hasDispatcher ==> r == JObject([])
    {
      SessionHistory(hasDispatcher, tools, outcome, parse)
    }
  }

  /** After a successful search, asking again returns the identical list,
      whatever the dispatcher would answer the second time. */
  method RepeatedQuery(m: HistoryManager, query: string, maxResults: int, maxResults': int,
                       tools: Result<seq<string>>, tools': Result<seq<string>>,
                       call: string -> CallOutcome, call': string -> CallOutcome,
                       parse: string -> ParseResult, parse': string -> ParseResult)
    returns (first: seq<Json>, second: seq<Json>)
    modifies m
    requires query !in m.cache
    requires SearchOutcome(m.hasDispatcher, query, maxResults, tools, call, parse).Some?
    ensures second == first
  {
    first := m.SearchRelevantConversations(query, maxResults, tools, call, parse);
    second := m.SearchRelevantConversations(query, maxResults', tools', call', parse');
  }

  /** A failed search leaves the cache alone, so a later attempt asks again. */
  method FailedQueryRetried(m: HistoryManager, query: string, maxResults: int,
                            tools: Result<seq<string>>, call: string -> CallOutcome,
                            parse: string -> ParseResult, tools': Result<seq<string>>,
                            call': string -> CallOutcome, parse': string -> ParseResult)
    returns (first: seq<Json>, second: seq<Json>)
    modifies m
    requires query !in m.cache
    requires SearchOutcome(m.hasDispatcher, query, maxResults, tools, call, parse).None?
    ensures first == []
    ensures second == match SearchOutcome(m.hasDispatcher, query, maxResults, tools', call', parse')
                      case None => []
                      case Some(found) => found
  {
    first := m.SearchRelevantConversations(query, maxResults, tools, call, parse);
    second := m.SearchRelevantConversations(query, maxResults, tools', call', parse');
  }

  // ------------------------------------------------------------- rendering

  /** `answer[len("FINAL_ANSWER:"):].strip()` when the prefix is there. */
  function CleanAnswer(answer: string): (r: string)
    ensures StartsWith(answer, AnswerMarker) ==> r == Strip(answer[|AnswerMarker|..])
    ensures !StartsWith(answer, AnswerMarker) ==> r == answer
  {
    if StartsWith(answer, AnswerMarker) then Strip(answer[|AnswerMarker|..]) else answer
  }

  /** Only one leading marker is removed; a second one stays. */
  lemma CleanAnswerOnce(rest: string)
    requires !IsBlank(rest) && !IsSpace(rest[0]) && !IsSpace(rest[|rest| - 1])
    ensures CleanAnswer(AnswerMarker + AnswerMarker + rest) == AnswerMarker + rest
  {
    var a := AnswerMarker + AnswerMarker + rest;
    assert a[..|AnswerMarker|] == AnswerMarker;
    assert a[|AnswerMarker|..] == AnswerMarker + rest;
    StripUntouched(AnswerMarker + rest);
  }

  /** A string with no whitespace at either end strips to itself. */
  lemma StripUntouched(s: string)
    requires s != [] && !IsSpace(s[0]) && !IsSpace(s[|s| - 1])
    ensures Strip(s) == s
  {
    assert LStrip(s) == s;
    assert RStrip(s) == s;
  }

  /** The date shown in a block header. `fromTimestamp` is
      `datetime.fromtimestamp(ts).strftime(...)`, None where that raises
      TypeError or ValueError; only numbers (and booleans) reach it. */
  function HeaderDate(ts: Json, fromTimestamp: Json -> Option<string>): string {
    if !Truthy(ts) then "Unknown time"
    else if ts.JNumber? || ts.JBool? then
      (match fromTimestamp(ts)
       case Some(d) => d
       case None => PyStr(ts))
    else PyStr(ts)
  }

  function Header(date: string): string {
    "--- Previous Conversation (" + date + ") ---\n"
  }

  /** `item[k]` is present and truthy. */
  predicate Has(fs: seq<Field>, k: string) {
    HasKey(fs, k) && Truthy(Get(fs, k, JNull))
  }

  function QueryLine(fs: seq<Field>): string {
    if Has(fs, "user_query") then "Query: " + PyStr(Get(fs, "user_query", JNull)) + "\n" else ""
  }

  function ContentLine(fs: seq<Field>): string {
    if Has(fs, "text") && !Truthy(Get(fs, "user_query", JNull))
    then "Content: " + PyStr(Get(fs, "text", JNull)) + "\n"
    else ""
  }

  /** `answer` is only read as a string once it is truthy. */
  predicate AnswerReadable(fs: seq<Field>) {
    !Has(fs, "final_answer") || Get(fs, "final_answer", JNull).JString?
  }

  function AnswerLine(fs: seq<Field>): string
    requires AnswerReadable(fs)
  {
    if Has(fs, "final_answer") then "Answer: " + CleanAnswer(Get(fs, "final_answer", JNull).s) + "\n" else ""
  }

  lemma HeaderStarts(h: string, body: string)
    ensures StartsWith(h + body, h)
  {
    assert (h + body)[..|h|] == h;
  }

  /** The block of a dict item: its header line, then its Query, Answer and
      Content lines, each present or empty. */
  function Block(fs: seq<Field>, fromTimestamp: Json -> Option<string>): string
    requires AnswerReadable(fs)
  {
    Header(HeaderDate(Get(fs, "timestamp", JNull), fromTimestamp)) + Lines(fs)
  }

  function Lines(fs: seq<Field>): string
    requires AnswerReadable(fs)
  {
    QueryLine(fs) + AnswerLine(fs) + ContentLine(fs)
  }

  /** One rendered block; a non-dict item or a non-string truthy answer raises. */
  function FormatItem(item: Json, fromTimestamp: Json -> Option<string>): (r: Result<string>)
    ensures r.Ok? <==> item.JObject? && AnswerReadable(item.fields)
    ensures r.Ok? ==> r.value == Block(item.fields, fromTimestamp)
    ensures r.Ok? ==> StartsWith(r.value, Header(HeaderDate(Get(item.fields, "timestamp", JNull), fromTimestamp)))
  {
    if !item.JObject? then Err("AttributeError: object has no attribute 'get'")
    else if !AnswerReadable(item.fields) then Err("AttributeError: object has no attribute 'startswith'")
    else
      var fs := item.fields;
      HeaderStarts(Header(HeaderDate(Get(fs, "timestamp", JNull), fromTimestamp)), Lines(fs));
      Ok(Block(fs, fromTimestamp))
  }

  /** Each item's own rendering, item by item. */
  function Rendered(items: seq<Json>, fromTimestamp: Json -> Option<string>): (rs: seq<Result<string>>)
    ensures |rs| == |items|
    ensures forall i :: 0 <= i < |items| ==> rs[i] == FormatItem(items[i], fromTimestamp)
  {
    seq(|items|, i requires 0 <= i < |items| => FormatItem(items[i], fromTimestamp))
  }

  /** format_history_for_context as a function: the blocks joined by newlines,
      or the first item's failure. */
  function FormatHistory(items: seq<Json>, fromTimestamp: Json -> Option<string>): Result<string> {
    if items == [] then Ok("")
    else match Collect(Rendered(items, fromTimestamp))
      case Err(e) => Err(e)
      case Ok(blocks) => Ok(Join(blocks, "\n"))
  }

  /** The text fails exactly when some item fails to render; otherwise it is
      the items' blocks, each starting with its header, joined in order. */
  lemma FormatHistoryBlocks(items: seq<Json>, fromTimestamp: Json -> Option<string>)
    requires items != []
    ensures FormatHistory(items, fromTimestamp).Err? <==>
      exists i :: 0 <= i < |items| && !(items[i].JObject? && AnswerReadable(items[i].fields))
    ensures FormatHistory(items, fromTimestamp).Ok? ==>
      var blocks := Collect(Rendered(items, fromTimestamp)).value;
      && FormatHistory(items, fromTimestamp).value == Join(blocks, "\n")
      && |blocks| == |items|
      && forall i :: 0 <= i < |items| ==> FormatItem(items[i], fromTimestamp) == Ok(blocks[i])
  {
    CollectAll(Rendered(items, fromTimestamp));
  }

  lemma RenderedStep(items: seq<Json>, i: nat, fromTimestamp: Json -> Option<string>)
    requires i < |items|
    ensures Rendered(items[..i + 1], fromTimestamp) == Rendered(items[..i], fromTimestamp) + [FormatItem(items[i], fromTimestamp)]
    ensures Rendered(items, fromTimestamp)[..i + 1] == Rendered(items[..i + 1], fromTimestamp)
  {
    var upTo := Rendered(items[..i + 1], fromTimestamp);
    var extended := Rendered(items[..i], fromTimestamp) + [FormatItem(items[i], fromTimestamp)];
    assert forall j :: 0 <= j < i + 1 ==> upTo[j] == extended[j];
    var prefix := Rendered(items, fromTimestamp)[..i + 1];
    assert forall j :: 0 <= j < i + 1 ==> prefix[j] == upTo[j];
  }

  /** format_history_for_context: renders item after item into a list. */
  method FormatHistoryForContext(items: seq<Json>, fromTimestamp: Json -> Option<string>)
    returns (r: Result<string>)
    ensures r == FormatHistory(items, fromTimestamp)
  {
    if items == [] {
      return Ok("");
    }
    var formattedItems: seq<string> := [];
    var i := 0;
    while i < |items|
      invariant 0 <= i <= |items|
      invariant Collect(Rendered(items[..i], fromTimestamp)) == Ok(formattedItems)
    {
      var block := FormatItem(items[i], fromTimestamp);
      RenderedStep(items, i, fromTimestamp);
      CollectAppend(Rendered(items[..i], fromTimestamp), block);
      if block.Err? {
        CollectPrefixErr(Rendered(items, fromTimestamp), i + 1);
        return Err(block.reason);
      }
      formattedItems := formattedItems + [block.value];
      i := i + 1;
    }
    assert items[..i] == items;
    return Ok(Join(formattedItems, "\n"));
  }

  /** An item without a timestamp gets the "Unknown time" header; a truthy
      query gives a Query line and suppresses the Content line. */
  lemma ItemLines(fs: seq<Field>, fromTimestamp: Json -> Option<string>)
    ensures !Truthy(Get(fs, "timestamp", JNull)) ==>
      HeaderDate(Get(fs, "timestamp", JNull), fromTimestamp) == "Unknown time"
    ensures Has(fs, "user_query") ==> ContentLine(fs) == "" && QueryLine(fs) != ""
    ensures !Has(fs, "user_query") ==> QueryLine(fs) == ""
  {
  }

  // ------------------------------------------------------ the global instance

  /** The module-level `history_manager` variable. */
  class Registry {
    var current: HistoryManager?

    constructor ()
      ensures current == null
    {
      current := null;
    }

    /** initialize_history_manager: always a fresh manager, replacing any. */
    method Initialize(hasDispatcher: bool) returns (m: HistoryManager)
      modifies this
      ensures fresh(m) && current == m
      ensures m.hasDispatcher == hasDispatcher && m.cache == map[]
    {
      m := new HistoryManager(hasDispatcher);
      current := m;
    }

    /** get_history_manager: the existing manager, or a new dispatcher-less one. */
    method Get() returns (m: HistoryManager)
      modifies this
      ensures old(current) != null ==> m == old(current) && current == old(current)
      ensures old(current) == null ==> fresh(m) && current == m && !m.hasDispatcher && m.cache == map[]
    {
      if current == null {
        current := new HistoryManager(false);
      }
      m := current;
    }
  }
}
