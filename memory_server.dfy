/** The memory service (modules/mcp_server_memory.py): the rules it applies
    to memory files once they are loaded. Directory walks and file reads are
    outside the model; the loaded JSON values arrive as parameters. */
module MemoryServer {
  import opened Wrappers
  import opened Text
  import opened JsonData
  import History

  const WordLimit: nat := 10000
  const RunMetadata: string := "run_metadata"

  // ------------------------------------------------------------ loading rule

  /** What one loaded memory file adds to the list of memories. */
  function Contribution(loaded: Json): seq<Json> {
    match loaded
    case JArray(es) => es
    case JObject(_) => [loaded]
    case _ => []
  }

  /** _list_all_memories once every file is loaded: the files' contributions
      in order. */
  function Flatten(files: seq<Json>): seq<Json> {
    if files == [] then [] else Contribution(files[0]) + Flatten(files[1..])
  }

  /** What one loaded file adds to the memories holds `m`. */
  predicate Contributes(loaded: Json, m: Json) {
    (loaded.JArray? && m in loaded.elems) || (loaded.JObject? && m == loaded)
  }

  /** A memory is present exactly when it is an element of a loaded list or
      is itself a loaded dict. */
  lemma {:induction false} FlattenMembers(files: seq<Json>, m: Json)
    ensures m in Flatten(files) <==> exists i :: 0 <= i < |files| && Contributes(files[i], m)
  {
    if files != [] {
      var rest := files[1..];
      FlattenMembers(rest, m);
      assert m in Contribution(files[0]) <==> Contributes(files[0], m);
      if m in Flatten(files) {
        if !Contributes(files[0], m) {
          var j :| 0 <= j < |rest| && Contributes(rest[j], m);
          assert files[j + 1] == rest[j];
        }
      } else {
        forall i | 0 <= i < |files|
          ensures !Contributes(files[i], m)
        {
          if i > 0 {
            assert files[i] == rest[i - 1];
          }
        }
      }
    }
  }

  // ---------------------------------------------------------------- search

  /** The searchable text of a memory: four fields, stringified, space-joined
      and lowercased. */
  function MemoryContent(fs: seq<Field>): string {
    Lower(Join([PyStr(Get(fs, "user_query", JString(""))), PyStr(Get(fs, "final_answer", JString(""))),
                PyStr(Get(fs, "intent", JString(""))), PyStr(Get(fs, "text", JString("")))], " "))
  }

  /** Every search term occurs in the memory's text. */
  predicate Selected(fs: seq<Field>, terms: seq<string>) {
    forall k :: 0 <= k < |terms| ==> Contains(MemoryContent(fs), terms[k])
  }

  /** The five fields kept for a match, with "" for a missing one. */
  function Project(fs: seq<Field>): (r: Json)
    ensures r.JObject?
    ensures Keys(r.fields) == ["user_query", "final_answer", "timestamp", "intent", "text"]
  {
    JObject([Field("user_query", Get(fs, "user_query", JString(""))),
             Field("final_answer", Get(fs, "final_answer", JString(""))),
             Field("timestamp", Get(fs, "timestamp", JString(""))),
             Field("intent", Get(fs, "intent", JString(""))),
             Field("text", Get(fs, "text", JString("")))])
  }

  /** A match keeps the searchable text of its memory. */
  lemma ProjectKeepsContent(fs: seq<Field>)
    ensures MemoryContent(Project(fs).fields) == MemoryContent(fs)
  {
    ProjectGet(fs, 0, "user_query");
    ProjectGet(fs, 1, "final_answer");
    ProjectGet(fs, 3, "intent");
    ProjectGet(fs, 4, "text");
  }

  lemma ProjectGet(fs: seq<Field>, i: nat, k: string)
    requires (i, k) in {(0, "user_query"), (1, "final_answer"), (3, "intent"), (4, "text")}
    ensures Get(Project(fs).fields, k, JString("")) == Get(fs, k, JString(""))
  {
    var p := Project(fs).fields;
    LookupAt(p, i, k);
  }

  /** The matches of the first memories, in memory order; a memory that is
      not a dict raises. */
  function Matching(memories: seq<Json>, terms: seq<string>): (r: Result<seq<Json>>)
    ensures r.Ok? ==> |r.value| <= |memories|
    ensures r.Ok? ==> forall i :: 0 <= i < |r.value| ==> r.value[i].JObject?
  {
    if memories == [] then Ok([])
    else
      match Matching(memories[..|memories| - 1], terms)
      case Err(e) => Err(e)
      case Ok(ms) =>
        var m := memories[|memories| - 1];
        if !m.JObject? then Err(NoGetMessage(m))
        else if Selected(m.fields, terms) then Ok(ms + [Project(m.fields)])
        else Ok(ms)
  }

  /** Every match is the projection of a dict memory that holds every term,
      and carries every term in its own text. */
  lemma {:induction false} MatchingSelects(memories: seq<Json>, terms: seq<string>, x: Json)
    requires Matching(memories, terms).Ok? && x in Matching(memories, terms).value
    ensures x.JObject? && Selected(x.fields, terms)
    ensures exists i :: 0 <= i < |memories| && memories[i].JObject? && x == Project(memories[i].fields)
  {
    var last := memories[|memories| - 1];
    var front := memories[..|memories| - 1];
    if x in Matching(front, terms).value {
      MatchingSelects(front, terms, x);
      var i :| 0 <= i < |front| && front[i].JObject? && x == Project(front[i].fields);
      assert memories[i] == front[i];
    } else {
      assert x == Project(last.fields);
      ProjectKeepsContent(last.fields);
    }
  }

  /** Every dict memory that holds every term is matched, as its projection. */
  lemma {:induction false} MatchingComplete(memories: seq<Json>, terms: seq<string>, m: Json)
    requires Matching(memories, terms).Ok?
    requires m in memories && m.JObject? && Selected(m.fields, terms)
    ensures Project(m.fields) in Matching(memories, terms).value
  {
    MatchingLast(memories, terms);
    if m != memories[|memories| - 1] {
      InFront(memories, m);
      MatchingComplete(memories[..|memories| - 1], terms, m);
    }
  }

  lemma InFront<T>(s: seq<T>, x: T)
    requires x in s && x != s[|s| - 1]
    ensures x in s[..|s| - 1]
  {
    var i :| 0 <= i < |s| && s[i] == x;
    assert s[..|s| - 1][i] == x;
  }

  /** One step of the filter: the last memory is a dict and adds its
      projection exactly when it holds every term. */
  lemma MatchingLast(memories: seq<Json>, terms: seq<string>)
    requires memories != [] && Matching(memories, terms).Ok?
    ensures var front := memories[..|memories| - 1];
      var last := memories[|memories| - 1];
      && Matching(front, terms).Ok? && last.JObject?
      && Matching(memories, terms).value
         == Matching(front, terms).value + (if Selected(last.fields, terms) then [Project(last.fields)] else [])
  {
  }

  /** How many memories are dicts holding every term, counted from the front. */
  function SelectedCount(memories: seq<Json>, terms: seq<string>): (n: nat)
    ensures n <= |memories|
  {
    if memories == [] then 0
    else (if memories[0].JObject? && Selected(memories[0].fields, terms) then 1 else 0)
         + SelectedCount(memories[1..], terms)
  }

  /** Counting from the front agrees with the filter's walk from the back. */
  lemma {:induction false} SelectedCountLast(memories: seq<Json>, terms: seq<string>)
    requires memories != []
    ensures var m := memories[|memories| - 1];
      SelectedCount(memories, terms)
      == SelectedCount(memories[..|memories| - 1], terms) + (if m.JObject? && Selected(m.fields, terms) then 1 else 0)
    decreases |memories|
  {
    if |memories| > 1 {
      var tail := memories[1..];
      SelectedCountLast(tail, terms);
      assert tail[..|tail| - 1] == memories[..|memories| - 1][1..];
    }
  }

  /** The number of matches is the number of dict memories holding every term. */
  lemma {:induction false} MatchingCount(memories: seq<Json>, terms: seq<string>)
    requires Matching(memories, terms).Ok?
    ensures |Matching(memories, terms).value| == SelectedCount(memories, terms)
  {
    if memories != [] {
      var front := memories[..|memories| - 1];
      var last := memories[|memories| - 1];
      MatchingLast(memories, terms);
      MatchingCount(front, terms);
      SelectedCountLast(memories, terms);
    }
  }

  /** With no search terms (a blank query) every dict memory matches. */
  lemma {:induction false} EmptyQueryMatchesAll(memories: seq<Json>)
    requires forall i :: 0 <= i < |memories| ==> memories[i].JObject?
    ensures Matching(memories, []).Ok?
    ensures |Matching(memories, []).value| == |memories|
  {
    if memories != [] {
      EmptyQueryMatchesAll(memories[..|memories| - 1]);
    }
  }

  /** A query's terms: lowercased, split on whitespace. */
  function Terms(query: string): seq<string> {
    Words(Lower(query))
  }

  lemma BlankQueryHasNoTerms(query: string)
    requires IsBlank(query)
    ensures Terms(query) == []
  {
    assert IsBlank(Lower(query));
    BlankHasNoWords(Lower(query));
  }

  // ------------------------------------------------------------------ sort

  /** The sort key `timestamp`: strings and numbers order among themselves;
      anything else cannot be compared at all. */
  datatype SortKey = NumKey(n: int) | StrKey(s: string) | OtherKey

  function KeyOf(m: Json): SortKey {
    if !m.JObject? then OtherKey
    else match Get(m.fields, "timestamp", JString(""))
      case JNumber(n) => NumKey(n)
      case JBool(b) => NumKey(if b then 1 else 0)
      case JString(s) => StrKey(s)
      case _ => OtherKey
  }

  function Rank(k: SortKey): nat {
    match k
    case NumKey(_) => 0
    case StrKey(_) => 1
    case OtherKey => 2
  }

  /** A total preorder on keys that agrees with Python's `<=` wherever that
      is defined. */
  predicate KeyLe(a: SortKey, b: SortKey) {
    Rank(a) < Rank(b) ||
    (Rank(a) == Rank(b) &&
      match a
      case NumKey(x) => x <= b.n
      case StrKey(x) => LexLe(x, b.s)
      case OtherKey => true)
  }

  lemma KeyLeRefl(a: SortKey)
    ensures KeyLe(a, a)
  {
    if a.StrKey? {
      LexLeRefl(a.s);
    }
  }

  lemma KeyLeTotal(a: SortKey, b: SortKey)
    ensures KeyLe(a, b) || KeyLe(b, a)
  {
    if a.StrKey? && b.StrKey? {
      LexLeTotal(a.s, b.s);
    }
  }

  lemma KeyLeTrans(a: SortKey, b: SortKey, c: SortKey)
    requires KeyLe(a, b) && KeyLe(b, c)
    ensures KeyLe(a, c)
  {
    if a.StrKey? && b.StrKey? && c.StrKey? {
      LexLeTrans(a.s, b.s, c.s);
    }
  }

  /** When the sort can complete: a list of one element is never compared, and
      keys that are all strings or all numbers always compare. Python also
      orders lists of timestamps lexicographically; this model does not, and
      reports any key that is not a string or a number (a list, `None`, a
      dict) as not comparable. */
  predicate Comparable(ms: seq<Json>) {
    |ms| <= 1 ||
    (forall i :: 0 <= i < |ms| ==> KeyOf(ms[i]).StrKey?) ||
    (forall i :: 0 <= i < |ms| ==> KeyOf(ms[i]).NumKey?)
  }

  /** Two list timestamps fall outside the modelled orders: the search is
      reported as a comparison failure. */
  lemma ListTimestampsNotComparable(a: seq<Json>, b: seq<Json>)
    ensures !Comparable([JObject([Field("timestamp", JArray(a))]), JObject([Field("timestamp", JArray(b))])])
  {
    var ms := [JObject([Field("timestamp", JArray(a))]), JObject([Field("timestamp", JArray(b))])];
    assert KeyOf(ms[0]) == OtherKey;
  }

  /** Puts `x` before the first element whose key is not greater than its own. */
  function InsertDesc(x: Json, s: seq<Json>): (r: seq<Json>)
    ensures |r| == |s| + 1
  {
    if s == [] then [x]
    else if !KeyLe(KeyOf(s[0]), KeyOf(x)) then [s[0]] + InsertDesc(x, s[1..])
    else [x] + s
  }

  /** `matches.sort(key=timestamp, reverse=True)`: an insertion sort that keeps
      equal keys in their original order. */
  function SortDesc(ms: seq<Json>): (r: seq<Json>)
    ensures |r| == |ms|
  {
    if ms == [] then [] else InsertDesc(ms[0], SortDesc(ms[1..]))
  }

  predicate Descending(s: seq<Json>) {
    forall i, j :: 0 <= i < j < |s| ==> KeyLe(KeyOf(s[j]), KeyOf(s[i]))
  }

  lemma {:induction false} InsertDescPerm(x: Json, s: seq<Json>)
    ensures multiset(InsertDesc(x, s)) == multiset([x] + s)
  {
    if s != [] && !KeyLe(KeyOf(s[0]), KeyOf(x)) {
      InsertDescPerm(x, s[1..]);
      assert s == [s[0]] + s[1..];
    }
  }

  /** Every element of the insertion is `x` or an element of `s`. */
  lemma InsertDescBelow(x: Json, s: seq<Json>, top: SortKey)
    requires KeyLe(KeyOf(x), top)
    requires forall j :: 0 <= j < |s| ==> KeyLe(KeyOf(s[j]), top)
    ensures forall j :: 0 <= j < |s| + 1 ==> KeyLe(KeyOf(InsertDesc(x, s)[j]), top)
  {
    var t := InsertDesc(x, s);
    InsertDescPerm(x, s);
    forall j | 0 <= j < |t|
      ensures KeyLe(KeyOf(t[j]), top)
    {
      assert t[j] in multiset([x] + s);
      if t[j] != x {
        assert t[j] in s;
      }
    }
  }

  /** A head no lower than every element of a descending tail keeps it descending. */
  lemma ConsDescending(h: Json, t: seq<Json>)
    requires Descending(t)
    requires forall j :: 0 <= j < |t| ==> KeyLe(KeyOf(t[j]), KeyOf(h))
    ensures Descending([h] + t)
  {
    var r := [h] + t;
    forall i, j | 0 <= i < j < |r|
      ensures KeyLe(KeyOf(r[j]), KeyOf(r[i]))
    {
      assert r[j] == t[j - 1];
      if i > 0 {
        assert r[i] == t[i - 1];
      }
    }
  }

  lemma {:induction false} InsertDescSorted(x: Json, s: seq<Json>)
    requires Descending(s)
    ensures Descending(InsertDesc(x, s))
  {
    if s == [] {
    } else if !KeyLe(KeyOf(s[0]), KeyOf(x)) {
      InsertDescSorted(x, s[1..]);
      KeyLeTotal(KeyOf(s[0]), KeyOf(x));
      InsertDescBelow(x, s[1..], KeyOf(s[0]));
      ConsDescending(s[0], InsertDesc(x, s[1..]));
    } else {
      forall j | 0 <= j < |s|
        ensures KeyLe(KeyOf(s[j]), KeyOf(x))
      {
        if j > 0 {
          KeyLeTrans(KeyOf(s[j]), KeyOf(s[0]), KeyOf(x));
        }
      }
      ConsDescending(x, s);
    }
  }

  /** The elements carrying key `k`, in order. */
  function WithKey(s: seq<Json>, k: SortKey): seq<Json> {
    if s == [] then [] else (if KeyOf(s[0]) == k then [s[0]] else []) + WithKey(s[1..], k)
  }

  lemma {:induction false} InsertDescWithKey(x: Json, s: seq<Json>, k: SortKey)
    ensures WithKey(InsertDesc(x, s), k) == if KeyOf(x) == k then [x] + WithKey(s, k) else WithKey(s, k)
    decreases |s|, 1
  {
    if s == [] {
      WithKeyCons(x, [], k);
    } else if !KeyLe(KeyOf(s[0]), KeyOf(x)) {
      InsertPastHead(x, s, k);
    } else {
      WithKeyCons(x, s, k);
    }
  }

  /** `x` goes past a head with a greater key, which therefore has a key
      other than `x`'s. */
  lemma {:induction false} InsertPastHead(x: Json, s: seq<Json>, k: SortKey)
    requires s != [] && !KeyLe(KeyOf(s[0]), KeyOf(x))
    ensures WithKey(InsertDesc(x, s), k) == if KeyOf(x) == k then [x] + WithKey(s, k) else WithKey(s, k)
    decreases |s|, 0
  {
    var t := InsertDesc(x, s[1..]);
    assert InsertDesc(x, s) == [s[0]] + t;
    InsertDescWithKey(x, s[1..], k);
    WithKeyCons(s[0], t, k);
    if KeyOf(x) == k {
      KeyLeRefl(KeyOf(x));
      assert WithKey(s, k) == WithKey(s[1..], k);
    } else if KeyOf(s[0]) == k {
      assert WithKey(s, k) == [s[0]] + WithKey(s[1..], k);
    } else {
      assert WithKey(s, k) == WithKey(s[1..], k);
    }
  }

  lemma WithKeyCons(y: Json, rest: seq<Json>, k: SortKey)
    ensures WithKey([y] + rest, k) == (if KeyOf(y) == k then [y] else []) + WithKey(rest, k)
  {
    assert ([y] + rest)[1..] == rest;
  }

  /** The sorted matches are a permutation of the matches, in descending key
      order, and matches with equal keys keep their relative order. */
  lemma {:induction false} SortDescCorrect(ms: seq<Json>)
    ensures multiset(SortDesc(ms)) == multiset(ms)
    ensures Descending(SortDesc(ms))
    ensures forall k :: WithKey(SortDesc(ms), k) == WithKey(ms, k)
  {
    if ms != [] {
      SortDescCorrect(ms[1..]);
      InsertDescPerm(ms[0], SortDesc(ms[1..]));
      InsertDescSorted(ms[0], SortDesc(ms[1..]));
      assert ms == [ms[0]] + ms[1..];
      forall k
        ensures WithKey(SortDesc(ms), k) == WithKey(ms, k)
      {
        InsertDescWithKey(ms[0], SortDesc(ms[1..]), k);
      }
    }
  }

  // ---------------------------------------------------------------- budget

  /** The words a match spends from the budget: its query, answer and text,
      space-joined and split on whitespace. */
  function MatchWords(m: Json): nat {
    if !m.JObject? then 0
    else |Words(Join([PyStr(Get(m.fields, "user_query", JString(""))), PyStr(Get(m.fields, "final_answer", JString(""))),
                      PyStr(Get(m.fields, "text", JString("")))], " "))|
  }

  function Weights(ms: seq<Json>): (ws: seq<nat>)
    ensures |ws| == |ms|
    ensures forall i :: 0 <= i < |ms| ==> ws[i] == MatchWords(ms[i])
  {
    seq(|ms|, i requires 0 <= i < |ms| => MatchWords(ms[i]))
  }

  function Sum(ws: seq<nat>): nat {
    if ws == [] then 0 else ws[0] + Sum(ws[1..])
  }

  /** How many matches the budget keeps, and the words they spend. */
  datatype Kept = Kept(count: nat, words: nat)

  /** The greedy budget scan over the matches' word counts, starting with
      `used` words spent: take matches while they fit, stop at the first
      that does not. */
  function Budget(ws: seq<nat>, used: nat): (r: Kept)
    ensures r.count <= |ws|
  {
    if ws == [] then Kept(0, used)
    else if used + ws[0] <= WordLimit then
      var rest := Budget(ws[1..], used + ws[0]);
      Kept(rest.count + 1, rest.words)
    else Kept(0, used)
  }

  /** The kept matches' words add up to the reported total, which stays
      within the limit, and the scan stops only at a match that would break
      the limit. */
  lemma {:induction false} BudgetCorrect(ws: seq<nat>, used: nat)
    requires used <= WordLimit
    ensures var r := Budget(ws, used);
      && r.words == used + Sum(ws[..r.count])
      && r.words <= WordLimit
      && (r.count < |ws| ==> r.words + ws[r.count] > WordLimit)
  {
    if ws == [] {
    } else if used + ws[0] <= WordLimit {
      var rest := Budget(ws[1..], used + ws[0]);
      BudgetCorrect(ws[1..], used + ws[0]);
      assert ws[..rest.count + 1][1..] == ws[1..][..rest.count];
    } else {
      assert ws[..0] == [];
    }
  }

  // --------------------------------------------------------------- replies

  datatype SearchReply =
    | Found(totalMatches: nat, matches: seq<Json>, totalWords: nat)
    | SearchFailed(message: string)

  const SearchErrorPrefix: string := "Error searching conversations: "
  const CompareMessage: string := "'<' not supported between instances"

  /** search_historical_conversations over the memories of the loaded files. */
  function SearchMemories(files: seq<Json>, query: string): (r: SearchReply)
    ensures r.Found? ==> |r.matches| <= r.totalMatches && r.totalWords <= WordLimit
    ensures r.Found? ==> r.totalMatches == SelectedCount(Flatten(files), Terms(query))
  {
    match Matching(Flatten(files), Terms(query))
    case Err(e) => SearchFailed(SearchErrorPrefix + e)
    case Ok(matches) =>
      MatchingCount(Flatten(files), Terms(query));
      if !Comparable(matches) then SearchFailed(SearchErrorPrefix + CompareMessage)
      else
        var sorted := SortDesc(matches);
        var kept := Budget(Weights(sorted), 0);
        BudgetCorrect(Weights(sorted), 0);
        Found(|matches|, sorted[..kept.count], kept.words)
  }

  /** The reply as the tool's JSON result. */
  function ReplyJson(r: SearchReply): Json {
    match r
    case Found(total, ms, words) =>
      JObject([Field("result", JObject([
        Field("summary", JObject([Field("total_matches", JNumber(total)),
                                  Field("matches_returned", JNumber(|ms|)),
                                  Field("total_words", JNumber(words))])),
        Field("matches", JArray(ms))]))])
    case SearchFailed(message) =>
      JObject([Field("result", JObject([Field("message", JString(message)), Field("matches", JArray([]))]))])
  }

  /** Every returned match is one of the memories, projected, holds every
      query term, and the returned list is ordered newest first. */
  lemma SearchMatchesSelected(files: seq<Json>, query: string)
    requires SearchMemories(files, query).Found?
    ensures var ms := SearchMemories(files, query).matches;
      && Descending(ms)
      && forall i :: 0 <= i < |ms| ==> ms[i].JObject? && Selected(ms[i].fields, Terms(query))
  {
    var ms := SearchMemories(files, query).matches;
    var matches, sorted := FoundParts(files, query);
    SortDescCorrect(matches);
    PrefixDescending(sorted, |ms|);
    forall i | 0 <= i < |ms|
      ensures ms[i].JObject? && Selected(ms[i].fields, Terms(query))
    {
      assert ms[i] == sorted[i];
      assert sorted[i] in multiset(matches);
      MatchingSelects(Flatten(files), Terms(query), ms[i]);
    }
  }

  /** When the word budget cuts nothing, every dict memory that holds every
      query term is returned, as its projection. */
  lemma SearchComplete(files: seq<Json>, query: string, m: Json)
    requires SearchMemories(files, query).Found?
    requires |SearchMemories(files, query).matches| == SearchMemories(files, query).totalMatches
    requires m in Flatten(files) && m.JObject? && Selected(m.fields, Terms(query))
    ensures Project(m.fields) in SearchMemories(files, query).matches
  {
    var matches := FoundEverything(files, query);
    MatchingComplete(Flatten(files), Terms(query), m);
    assert Project(m.fields) in multiset(matches);
  }

  /** A reply that returns as many matches as it counts returns all of them. */
  lemma FoundEverything(files: seq<Json>, query: string) returns (matches: seq<Json>)
    requires SearchMemories(files, query).Found?
    requires |SearchMemories(files, query).matches| == SearchMemories(files, query).totalMatches
    ensures Matching(Flatten(files), Terms(query)) == Ok(matches)
    ensures multiset(SearchMemories(files, query).matches) == multiset(matches)
  {
    var sorted;
    matches, sorted := FoundParts(files, query);
    SortDescCorrect(matches);
    assert SearchMemories(files, query).matches == sorted;
  }

  /** A found reply returns a prefix of the sorted matches. */
  lemma FoundParts(files: seq<Json>, query: string) returns (matches: seq<Json>, sorted: seq<Json>)
    requires SearchMemories(files, query).Found?
    ensures Matching(Flatten(files), Terms(query)) == Ok(matches) && sorted == SortDesc(matches)
    ensures var ms := SearchMemories(files, query).matches;
      |ms| <= |sorted| && ms == sorted[..|ms|]
  {
    matches := Matching(Flatten(files), Terms(query)).value;
    sorted := SortDesc(matches);
  }

  lemma PrefixDescending(s: seq<Json>, n: nat)
    requires Descending(s) && n <= |s|
    ensures Descending(s[..n])
  {
  }

  /** The history manager reads exactly the returned matches from the reply,
      and an empty list from an error reply. */
  lemma ReplyReadByHistory(r: SearchReply, maxResults: int)
    ensures History.MatchesOf(ReplyJson(r), maxResults) ==
      Some(History.PyPrefix(if r.Found? then r.matches else [], maxResults))
  {
    var top := ReplyJson(r).fields;
    LookupAt(top, 0, "result");
    LookupAt(top[0].value.fields, 1, "matches");
  }

  /** search_historical_conversations: the filter loop, the sort, and the
      budget loop that stops at the first match over the limit. */
  method SearchHistoricalConversations(files: seq<Json>, query: string) returns (reply: SearchReply)
    ensures reply == SearchMemories(files, query)
  {
    var found := FilterMemories(Flatten(files), Terms(query));
    SearchOutcome(files, query);
    if found.Err? {
      return SearchFailed(SearchErrorPrefix + found.reason);
    }
    var matches := found.value;
    if !Comparable(matches) {
      return SearchFailed(SearchErrorPrefix + CompareMessage);
    }
    var sorted := SortDesc(matches);
    var filtered, totalWords := KeepWithinBudget(sorted, Weights(sorted));
    return Found(|matches|, filtered, totalWords);
  }

  /** The filter loop: keeps the projection of every memory that holds all
      the terms, and raises at the first memory that is not a dict. */
  method FilterMemories(memories: seq<Json>, terms: seq<string>) returns (found: Result<seq<Json>>)
    ensures found == Matching(memories, terms)
  {
    var matches: seq<Json> := [];
    for i := 0 to |memories|
      invariant Matching(memories[..i], terms) == Ok(matches)
    {
      var memory := memories[i];
      if !memory.JObject? {
        MatchingStep(memories, i, terms, matches);
        MatchingErrSticks(memories, i + 1, terms);
        return Err(NoGetMessage(memory));
      }
      var selected := Selected(memory.fields, terms);
      MatchingStep(memories, i, terms, matches);
      if selected {
        matches := matches + [Project(memory.fields)];
      }
    }
    assert memories[..|memories|] == memories;
    return Ok(matches);
  }

  /** One more memory either raises or leaves the matches so far in place,
      adding its projection when it holds every term. */
  lemma MatchingStep(memories: seq<Json>, i: nat, terms: seq<string>, ms: seq<Json>)
    requires i < |memories| && Matching(memories[..i], terms) == Ok(ms)
    ensures var m := memories[i];
      Matching(memories[..i + 1], terms) ==
        if !m.JObject? then Err(NoGetMessage(m))
        else if Selected(m.fields, terms) then Ok(ms + [Project(m.fields)])
        else Ok(ms)
  {
    assert memories[..i + 1][..i] == memories[..i];
  }

  /** The reply in each of its three cases. */
  lemma SearchOutcome(files: seq<Json>, query: string)
    ensures var found := Matching(Flatten(files), Terms(query));
      && (found.Err? ==> SearchMemories(files, query) == SearchFailed(SearchErrorPrefix + found.reason))
      && (found.Ok? && !Comparable(found.value) ==>
            SearchMemories(files, query) == SearchFailed(SearchErrorPrefix + CompareMessage))
      && (found.Ok? && Comparable(found.value) ==>
            var kept := Budget(Weights(SortDesc(found.value)), 0);
            SearchMemories(files, query) == Found(|found.value|, SortDesc(found.value)[..kept.count], kept.words))
  {
  }

  /** The budget loop over the matches and their word counts: adds matches
      while the running total stays within the limit, and breaks at the
      first one that would exceed it. */
  method KeepWithinBudget(matches: seq<Json>, ws: seq<nat>) returns (filtered: seq<Json>, totalWords: nat)
    requires |ws| == |matches|
    ensures var kept := Budget(ws, 0);
      filtered == matches[..kept.count] && totalWords == kept.words
  {
    totalWords := 0;
    filtered := [];
    var j := 0;
    while j < |matches|
      invariant 0 <= j <= |matches|
      invariant filtered == matches[..j]
      invariant Budget(ws, 0) == Kept(j + Budget(ws[j..], totalWords).count, Budget(ws[j..], totalWords).words)
    {
      var wordsInMatch := ws[j];
      assert ws[j..][1..] == ws[j + 1..];
      assert matches[..j + 1] == matches[..j] + [matches[j]];
      if totalWords + wordsInMatch <= WordLimit {
        filtered := filtered + [matches[j]];
        totalWords := totalWords + wordsInMatch;
      } else {
        break;
      }
      j := j + 1;
    }
  }

  /** Once a prefix of the memories raises, so does the whole list. */
  lemma {:induction false} MatchingErrSticks(memories: seq<Json>, n: nat, terms: seq<string>)
    requires 0 < n <= |memories|
    requires Matching(memories[..n], terms).Err?
    ensures Matching(memories, terms) == Matching(memories[..n], terms)
    decreases |memories| - n
  {
    if n < |memories| {
      var front := memories[..|memories| - 1];
      assert front[..n] == memories[..n];
      MatchingErrSticks(front, n, terms);
    } else {
      assert memories[..n] == memories;
    }
  }

  // ----------------------------------------------------- conversation flow

  /** `for x in v`: a list's elements, a dict's keys, a string's characters. */
  function Iterate(v: Json): (r: Result<seq<Json>>)
    ensures r.Err? <==> !(v.JArray? || v.JObject? || v.JString?)
  {
    match v
    case JArray(es) => Ok(es)
    case JObject(fs) => Ok(seq(|fs|, i requires 0 <= i < |fs| => JString(fs[i].key)))
    case JString(s) => Ok(seq(|s|, i requires 0 <= i < |s| => JString([s[i]])))
    case _ => Err("'" + TypeName(v) + "' object is not iterable")
  }

  /** One tool call of an interaction: `tool` and `args` are required. */
  function ToolCallView(call: Json): (r: Result<Json>)
    ensures r.Ok? <==> call.JObject? && HasKey(call.fields, "tool") && HasKey(call.fields, "args")
    ensures r.Ok? ==> r.value.JObject? && Keys(r.value.fields) == ["tool", "args", "result_summary"]
    ensures r.Ok? ==> && Lookup(r.value.fields, "tool") == Lookup(call.fields, "tool")
                      && Lookup(r.value.fields, "args") == Lookup(call.fields, "args")
                      && Lookup(r.value.fields, "result_summary")
                         == Some(Get(call.fields, "result_summary", JString("No summary available")))
    ensures r.Ok? && !HasKey(call.fields, "result_summary") ==>
      Lookup(r.value.fields, "result_summary") == Some(JString("No summary available"))
  {
    if !call.JObject? then Err("'" + TypeName(call) + "' object is not subscriptable")
    else if !HasKey(call.fields, "tool") then Err("KeyError: 'tool'")
    else if !HasKey(call.fields, "args") then Err("KeyError: 'args'")
    else
      var view := [Field("tool", Get(call.fields, "tool", JNull)),
                   Field("args", Get(call.fields, "args", JNull)),
                   Field("result_summary", Get(call.fields, "result_summary", JString("No summary available")))];
      assert Lookup(view, "result_summary") == Lookup(view[1..], "result_summary") == Lookup(view[2..], "result_summary");
      Ok(JObject(view))
  }

  /** One interaction of the flow, projected onto five fields. */
  function InteractionView(interaction: Json): (r: Result<Json>)
    ensures r.Ok? ==> interaction.JObject? && r.value.JObject?
    ensures r.Ok? ==> Keys(r.value.fields) == ["query", "intent", "tool_calls", "final_answer", "tags"]
  {
    if !interaction.JObject? then Err(NoGetMessage(interaction))
    else
      var fs := interaction.fields;
      match Iterate(Get(fs, "tool_calls", JArray([])))
      case Err(e) => Err(e)
      case Ok(calls) =>
        match Collect(seq(|calls|, i requires 0 <= i < |calls| => ToolCallView(calls[i])))
        case Err(e) => Err(e)
        case Ok(views) => Ok(JObject(ViewFields(fs, views)))
  }

  /** The five fields of an interaction's view, given its tool-call views. */
  function ViewFields(fs: seq<Field>, views: seq<Json>): (r: seq<Field>)
    ensures Keys(r) == ["query", "intent", "tool_calls", "final_answer", "tags"]
  {
    [Field("query", Get(fs, "query", JString(""))),
     Field("intent", Get(fs, "intent", JString(""))),
     Field("tool_calls", JArray(views)),
     Field("final_answer", Get(fs, "final_answer", JString(""))),
     Field("tags", Get(fs, "tags", JArray([])))]
  }

  function TimestampOf(interaction: Json): Json {
    if interaction.JObject? then Get(interaction.fields, "timestamp", JNull) else JNull
  }

  /** Each interaction's view, interaction by interaction. */
  function Views(interactions: seq<Json>): (rs: seq<Result<Json>>)
    ensures |rs| == |interactions|
    ensures forall i :: 0 <= i < |interactions| ==> rs[i] == InteractionView(interactions[i])
  {
    seq(|interactions|, i requires 0 <= i < |interactions| => InteractionView(interactions[i]))
  }

  /** _get_conversation_flow for a session directory that exists and whose
      files (in name order) hold `interactions`. */
  function ConversationFlow(interactions: seq<Json>): (r: Result<Json>)
    ensures r.Ok? ==> r.value.JObject? && Keys(r.value.fields) == ["conversation_flow", "timestamp_start", "timestamp_end"]
  {
    match Collect(Views(interactions))
    case Err(e) => Err(e)
    case Ok(views) =>
      Ok(JObject([Field("conversation_flow", JArray(views)),
                  Field("timestamp_start", if interactions == [] then JNull else TimestampOf(interactions[0])),
                  Field("timestamp_end", if interactions == [] then JNull else TimestampOf(interactions[|interactions| - 1]))]))
  }

  /** The flow has one entry per interaction, each that interaction's view,
      and fails exactly when some interaction cannot be viewed. */
  lemma FlowOnePerInteraction(interactions: seq<Json>)
    ensures ConversationFlow(interactions).Err? <==>
      exists i :: 0 <= i < |interactions| && InteractionView(interactions[i]).Err?
    ensures ConversationFlow(interactions).Ok? ==>
      var views := Collect(Views(interactions)).value;
      && ConversationFlow(interactions).value.fields[0] == Field("conversation_flow", JArray(views))
      && |views| == |interactions|
      && forall i :: 0 <= i < |interactions| ==> InteractionView(interactions[i]) == Ok(views[i])
  {
    CollectAll(Views(interactions));
  }

  /** An interaction's view carries its query and answer, "" when missing. */
  lemma ViewKeepsAnswer(interaction: Json)
    requires InteractionView(interaction).Ok?
    ensures var v := InteractionView(interaction).value.fields;
      && Get(v, "query", JNull) == Get(interaction.fields, "query", JString(""))
      && Get(v, "final_answer", JNull) == Get(interaction.fields, "final_answer", JString(""))
  {
    ViewGet(interaction, 0, "query", JString(""));
    ViewGet(interaction, 3, "final_answer", JString(""));
  }

  /** An interaction's view carries its intent, "" when missing, and its
      tags, [] when missing. */
  lemma ViewKeepsIntentAndTags(interaction: Json)
    requires InteractionView(interaction).Ok?
    ensures var v := InteractionView(interaction).value.fields;
      && Get(v, "intent", JNull) == Get(interaction.fields, "intent", JString(""))
      && Get(v, "tags", JNull) == Get(interaction.fields, "tags", JArray([]))
  {
    ViewGet(interaction, 1, "intent", JString(""));
    ViewGet(interaction, 4, "tags", JArray([]));
  }

  /** An interaction's view lists one view per tool call it iterates over, in
      order, each the projection of that call; no `tool_calls` gives []. */
  lemma ViewToolCalls(interaction: Json)
    requires InteractionView(interaction).Ok?
    ensures interaction.JObject? && Iterate(Get(interaction.fields, "tool_calls", JArray([]))).Ok?
    ensures var calls := Iterate(Get(interaction.fields, "tool_calls", JArray([]))).value;
      var tc := Get(InteractionView(interaction).value.fields, "tool_calls", JNull);
      && tc.JArray? && |tc.elems| == |calls|
      && forall j :: 0 <= j < |calls| ==> ToolCallView(calls[j]) == Ok(tc.elems[j])
    ensures !HasKey(interaction.fields, "tool_calls") ==>
      Get(InteractionView(interaction).value.fields, "tool_calls", JNull) == JArray([])
  {
    var calls, views := ViewParts(interaction);
    ViewFieldsCalls(interaction.fields, views);
  }

  /** A projected interaction's iterated tool calls and their views. */
  lemma ViewParts(interaction: Json) returns (calls: seq<Json>, views: seq<Json>)
    requires InteractionView(interaction).Ok?
    ensures interaction.JObject?
    ensures Iterate(Get(interaction.fields, "tool_calls", JArray([]))) == Ok(calls)
    ensures InteractionView(interaction).value.fields == ViewFields(interaction.fields, views)
    ensures |views| == |calls| && forall j :: 0 <= j < |calls| ==> ToolCallView(calls[j]) == Ok(views[j])
  {
    calls := Iterate(Get(interaction.fields, "tool_calls", JArray([]))).value;
    var rs := seq(|calls|, j requires 0 <= j < |calls| => ToolCallView(calls[j]));
    views := Collect(rs).value;
    CollectAll(rs);
  }

  lemma ViewFieldsCalls(fs: seq<Field>, views: seq<Json>)
    ensures Get(ViewFields(fs, views), "tool_calls", JNull) == JArray(views)
  {
    var v := ViewFields(fs, views);
    assert v[0].key == "query" && v[1].key == "intent" && v[2] == Field("tool_calls", JArray(views));
    assert Lookup(v, "tool_calls") == Lookup(v[1..], "tool_calls") == Lookup(v[2..], "tool_calls");
  }

  lemma ViewGet(interaction: Json, i: nat, k: string, d: Json)
    requires InteractionView(interaction).Ok?
    requires (i, k, d) in {(0, "query", JString("")), (1, "intent", JString("")),
                           (3, "final_answer", JString("")), (4, "tags", JArray([]))}
    ensures Get(InteractionView(interaction).value.fields, k, JNull) == Get(interaction.fields, k, d)
  {
    var calls, views := ViewParts(interaction);
    ViewFieldsGet(interaction.fields, views, i, k, d);
  }

  lemma ViewFieldsGet(fs: seq<Field>, views: seq<Json>, i: nat, k: string, d: Json)
    requires (i, k, d) in {(0, "query", JString("")), (1, "intent", JString("")),
                           (3, "final_answer", JString("")), (4, "tags", JArray([]))}
    ensures Get(ViewFields(fs, views), k, JNull) == Get(fs, k, d)
  {
    LookupAt(ViewFields(fs, views), i, k);
  }

  /** The flow's timestamps are those of its first and last interaction, and
      null when it has none; an empty session always succeeds. */
  lemma FlowTimestamps(interactions: seq<Json>)
    ensures interactions == [] ==>
      ConversationFlow(interactions) == Ok(JObject([Field("conversation_flow", JArray([])),
                                                    Field("timestamp_start", JNull),
                                                    Field("timestamp_end", JNull)]))
    ensures ConversationFlow(interactions).Ok? && interactions != [] ==>
      var fs := ConversationFlow(interactions).value.fields;
      var first := interactions[0];
      var last := interactions[|interactions| - 1];
      && first.JObject? && last.JObject?
      && Lookup(fs, "timestamp_start") == Some(Get(first.fields, "timestamp", JNull))
      && Lookup(fs, "timestamp_end") == Some(Get(last.fields, "timestamp", JNull))
  {
    if ConversationFlow(interactions).Ok? && interactions != [] {
      EndsViewed(interactions);
      var fs := ConversationFlow(interactions).value.fields;
      assert fs[0].key == "conversation_flow" && fs[1].key == "timestamp_start";
      assert Lookup(fs, "timestamp_start") == Lookup(fs[1..], "timestamp_start");
      assert Lookup(fs, "timestamp_end") == Lookup(fs[1..], "timestamp_end") == Lookup(fs[2..], "timestamp_end");
    }
  }

  /** A flow that succeeds has viewed its first and last interaction. */
  lemma EndsViewed(interactions: seq<Json>)
    requires Collect(Views(interactions)).Ok? && interactions != []
    ensures interactions[0].JObject? && interactions[|interactions| - 1].JObject?
  {
    CollectAll(Views(interactions));
    assert InteractionView(interactions[0]).Ok?;
    assert InteractionView(interactions[|interactions| - 1]).Ok?;
  }

  /** The MemoryStore: the session it currently serves. */
  class MemoryStore {
    var currentSession: Option<string>

    constructor ()
      ensures currentSession == None
    {
      currentSession := None;
    }

    /** load_session. */
    method LoadSession(sessionId: string)
      modifies this
      ensures currentSession == Some(sessionId)
    {
      currentSession := Some(sessionId);
    }

    /** _get_conversation_flow: the given id or else the current session;
        `found` and `load` stand for the directory test and the loaded files. */
    function FlowFor(conversationId: Option<string>, found: string -> bool,
                     load: string -> seq<Json>): (r: Result<Json>)
      reads this
      ensures conversationId.None? && currentSession.None? ==> r.Err?
      ensures var id := if conversationId.Some? then conversationId else currentSession;
        id.Some? && !found(id.value) ==> r == Ok(JObject([Field("error", JString("Conversation not found"))]))
    {
      var id := if conversationId.Some? then conversationId else currentSession;
      match id
      case None => Err("TypeError: expected str, bytes or os.PathLike object, not NoneType")
      case Some(name) =>
        if !found(name) then Ok(JObject([Field("error", JString("Conversation not found"))]))
        else ConversationFlow(load(name))
    }
  }

  // ------------------------------------------------ current conversations

  /** Today's directory as get_current_conversations finds it. */
  datatype Day =
    | NoDay
      /** A `session` directory: its sub-directory names, and the loaded
          JSON files under each (in walk order). */
    | SessionDirs(names: seq<string>, walk: string -> seq<Json>)
      /** No `session` directory: the day's entry names and the file loader. */
    | DayFiles(entries: seq<string>, load: string -> Json)

  /** `sorted(names)[-1]`: the greatest name. */
  function Latest(names: seq<string>): (r: string)
    requires names != []
    ensures r in names
    ensures forall k :: 0 <= k < |names| ==> LexLe(names[k], r)
  {
    if |names| == 1 then (LexLeRefl(names[0]); names[0])
    else
      var rest := Latest(names[1..]);
      assert forall k :: 1 <= k < |names| ==> names[k] == names[1..][k - 1];
      LexLeTotal(names[0], rest);
      if LexLe(names[0], rest) then (LexLeRefl(rest); rest)
      else
        assert forall k :: 1 <= k < |names| ==> LexLe(names[k], names[0]) by {
          forall k | 1 <= k < |names| ensures LexLe(names[k], names[0]) {
            LexLeTrans(names[k], rest, names[0]);
          }
        }
        LexLeRefl(names[0]);
        names[0]
  }

  /** A returned interaction: a dict not tagged as run metadata. */
  predicate IsInteraction(item: Json) {
    item.JObject? && Lookup(item.fields, "type") != Some(JString(RunMetadata))
  }

  /** `a` is `b` with some elements left out, the rest in their order. */
  predicate Subsequence(a: seq<Json>, b: seq<Json>)
    decreases |b|
  {
    if a == [] then true
    else if b == [] then false
    else (a[0] == b[0] && Subsequence(a[1..], b[1..])) || Subsequence(a, b[1..])
  }

  /** The comprehension keeps the interactions in file order. */
  function Interactions(items: seq<Json>): (r: seq<Json>)
    ensures forall x :: x in r <==> x in items && IsInteraction(x)
    ensures Subsequence(r, items)
  {
    if items == [] then []
    else
      var rest := Interactions(items[1..]);
      assert forall x :: x in items <==> x == items[0] || x in items[1..];
      if IsInteraction(items[0]) then
        assert ([items[0]] + rest)[1..] == rest;
        [items[0]] + rest
      else rest
  }

  /** In a session directory every file adds its list's elements, or itself. */
  function Spread(files: seq<Json>): seq<Json> {
    if files == [] then []
    else (if files[0].JArray? then files[0].elems else [files[0]]) + Spread(files[1..])
  }

  function JsonNames(entries: seq<string>): (r: seq<string>)
    ensures forall n :: n in r <==> n in entries && EndsWith(n, ".json")
  {
    if entries == [] then []
    else
      var rest := JsonNames(entries[1..]);
      assert forall x :: x in entries <==> x == entries[0] || x in entries[1..];
      (if EndsWith(entries[0], ".json") then [entries[0]] else []) + rest
  }

  function Message(text: string): Json {
    JObject([Field("result", JObject([Field("message", JString(text))]))])
  }

  function Session(id: string, interactions: seq<Json>): Json {
    JObject([Field("result", JObject([Field("session_id", JString(id)), Field("interactions", JArray(interactions))]))])
  }

  /** get_current_conversations on the day's listing. */
  function CurrentConversations(day: Day): (r: Json)
    ensures day.NoDay? ==> r == Message("No sessions found for today")
    ensures day.SessionDirs? && day.names == [] ==> r == Message("No session directories found")
    ensures day.SessionDirs? && day.names != [] ==>
      r == Session(Latest(day.names), Interactions(Spread(day.walk(Latest(day.names)))))
    ensures day.DayFiles? && JsonNames(day.entries) == [] ==> r == Message("No session files found")
  {
    match day
    case NoDay => Message("No sessions found for today")
    case SessionDirs(names, walk) =>
      if names == [] then Message("No session directories found")
      else
        var latest := Latest(names);
        Session(latest, Interactions(Spread(walk(latest))))
    case DayFiles(entries, load) =>
      var files := JsonNames(entries);
      if files == [] then Message("No session files found")
      else
        var latest := Latest(files);
        match Iterate(load(latest))
        case Err(e) => Message("Error retrieving conversations: " + e)
        case Ok(items) => Session(Replace(latest, ".json", ""), Interactions(items))
  }

  /** From day-level files the session is the greatest `.json` name without
      its extension, and its interactions are the file's dict entries that
      are not run metadata. */
  lemma DayFileSession(entries: seq<string>, load: string -> Json, name: string, items: seq<Json>)
    requires name + ".json" in entries
    requires forall n :: n in entries && EndsWith(n, ".json") ==> LexLe(n, name + ".json")
    requires IndexOf(name + ".json", ".json") == Some(|name|)
    requires load(name + ".json") == JArray(items)
    ensures CurrentConversations(DayFiles(entries, load)) == Session(name, Interactions(items))
  {
    LatestIsFile(entries, name + ".json");
    ReplaceOnlyAtEnd(name, ".json", "");
    assert name + "" == name;
    assert Iterate(load(name + ".json")) == Ok(items);
  }

  /** A `.json` entry no smaller than any other is the one picked. */
  lemma LatestIsFile(entries: seq<string>, file: string)
    requires file in entries && |file| >= 5 && file[|file| - 5..] == ".json"
    requires forall n :: n in entries && EndsWith(n, ".json") ==> LexLe(n, file)
    ensures JsonNames(entries) != [] && Latest(JsonNames(entries)) == file
  {
    assert EndsWith(file, ".json");
    var files := JsonNames(entries);
    var latest := Latest(files);
    assert LexLe(latest, file) && LexLe(file, latest);
    LexLeAntisym(latest, file);
  }
}
