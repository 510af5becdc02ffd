/** Decoded JSON (RFC 8259) as Python holds it after `json.loads`: objects are
    dicts whose keys keep their insertion order. Numbers are integers here. */
module JsonData {
  import opened Wrappers
  import opened Text

  datatype Json =
    | JNull
    | JBool(b: bool)
    | JNumber(n: int)
    | JString(s: string)
    | JArray(elems: seq<Json>)
    // `json.loads` keeps only the last value of a repeated key, so decoded
    // objects have distinct keys; on a list with repeats `Lookup` would read
    // the first, which no decoded value exhibits.
    | JObject(fields: seq<Field>)

  datatype Field = Field(key: string, value: Json)

  function Keys(fs: seq<Field>): (ks: seq<string>)
    ensures |ks| == |fs|
    ensures forall i :: 0 <= i < |fs| ==> ks[i] == fs[i].key
  {
    if fs == [] then [] else [fs[0].key] + Keys(fs[1..])
  }

  /** `k in d` for a dict. */
  predicate HasKey(fs: seq<Field>, k: string) {
    k in Keys(fs)
  }

  /** The value stored under `k`, if any. */
  function Lookup(fs: seq<Field>, k: string): (r: Option<Json>)
    ensures r.Some? <==> HasKey(fs, k)
  {
    if fs == [] then None
    else if fs[0].key == k then Some(fs[0].value)
    else
      assert Keys(fs) == [fs[0].key] + Keys(fs[1..]);
      Lookup(fs[1..], k)
  }

  /** The value under `k` is the one at its first position. */
  lemma {:induction false} LookupAt(fs: seq<Field>, i: nat, k: string)
    requires i < |fs| && fs[i].key == k
    requires forall j :: 0 <= j < i ==> fs[j].key != k
    ensures Lookup(fs, k) == Some(fs[i].value)
  {
    if i > 0 {
      LookupAt(fs[1..], i - 1, k);
    }
  }

  /** `d.get(k, default)`. */
  function Get(fs: seq<Field>, k: string, default: Json): Json {
    match Lookup(fs, k)
    case Some(v) => v
    case None => default
  }

  /** `d[k] = v`: an existing key keeps its place, a new key goes last. */
  function Put(fs: seq<Field>, k: string, v: Json): (r: seq<Field>)
    ensures Lookup(r, k) == Some(v)
    ensures HasKey(fs, k) ==> Keys(r) == Keys(fs)
    ensures !HasKey(fs, k) ==> Keys(r) == Keys(fs) + [k]
  {
    if fs == [] then [Field(k, v)]
    else if fs[0].key == k then
      PutHere(fs, k, v);
      [Field(k, v)] + fs[1..]
    else
      var tail := Put(fs[1..], k, v);
      PutLater(fs, tail, k, v);
      [fs[0]] + tail
  }

  lemma PutHere(fs: seq<Field>, k: string, v: Json)
    requires fs != [] && fs[0].key == k
    ensures var r := [Field(k, v)] + fs[1..];
      Lookup(r, k) == Some(v) && HasKey(fs, k) && Keys(r) == Keys(fs)
  {
    ConsKeys(Field(k, v), fs[1..]);
    ConsKeys(fs[0], fs[1..]);
    assert fs == [fs[0]] + fs[1..];
  }

  lemma PutLater(fs: seq<Field>, tail: seq<Field>, k: string, v: Json)
    requires fs != [] && fs[0].key != k
    requires Lookup(tail, k) == Some(v)
    requires HasKey(fs[1..], k) ==> Keys(tail) == Keys(fs[1..])
    requires !HasKey(fs[1..], k) ==> Keys(tail) == Keys(fs[1..]) + [k]
    ensures var r := [fs[0]] + tail;
      && Lookup(r, k) == Some(v)
      && (HasKey(fs, k) ==> Keys(r) == Keys(fs))
      && (!HasKey(fs, k) ==> Keys(r) == Keys(fs) + [k])
  {
    var h, rest := fs[0], fs[1..];
    assert fs == [h] + rest;
    LookupCons(h, tail, k);
    ConsKeys(h, tail);
    ConsKeys(h, rest);
    KeysAppend(h.key, Keys(rest), k);
  }

  lemma KeysAppend(h: string, ks: seq<string>, k: string)
    requires h != k
    ensures k in [h] + ks <==> k in ks
    ensures [h] + (ks + [k]) == [h] + ks + [k]
  {
  }

  /** `d[k] = v` leaves every other key's value alone. */
  lemma {:induction false} PutFrame(fs: seq<Field>, k: string, v: Json, other: string)
    requires other != k
    ensures Lookup(Put(fs, k, v), other) == Lookup(fs, other)
  {
    if fs != [] {
      LookupCons(fs[0], fs[1..], other);
      assert fs == [fs[0]] + fs[1..];
      if fs[0].key == k {
        LookupCons(Field(k, v), fs[1..], other);
      } else {
        PutFrame(fs[1..], k, v, other);
        LookupCons(fs[0], Put(fs[1..], k, v), other);
      }
    }
  }

  lemma ConsKeys(f: Field, rest: seq<Field>)
    ensures Keys([f] + rest) == [f.key] + Keys(rest)
  {
    assert ([f] + rest)[1..] == rest;
  }

  /** How `Lookup` sees a field put in front of others. */
  lemma LookupCons(f: Field, rest: seq<Field>, k: string)
    ensures Lookup([f] + rest, k) == if f.key == k then Some(f.value) else Lookup(rest, k)
  {
    assert ([f] + rest)[1..] == rest;
  }

  /** Python truthiness of a decoded value. */
  predicate Truthy(v: Json) {
    match v
    case JNull => false
    case JBool(b) => b
    case JNumber(n) => n != 0
    case JString(s) => s != []
    case JArray(es) => es != []
    case JObject(fs) => fs != []
  }

  /** The characters `repr` writes as escapes: the C0 controls and DEL, the
      C1 controls, the soft hyphen and the non-ASCII separators. All of
      them lie below U+10000, so the eight-digit `\U` escape does not arise. */
  predicate Unprintable(c: char) {
    c < ' ' || c == '\U{7F}' || ('\U{80}' <= c <= '\U{9F}') || c == '\U{AD}' || (c > '\U{7F}' && IsSpace(c))
  }

  /** The last `width` lower-case hexadecimal digits of `n`. */
  function Hex(n: nat, width: nat): (r: string)
    ensures |r| == width
    ensures forall i :: 0 <= i < width ==> r[i] in "0123456789abcdef"
  {
    if width == 0 then [] else Hex(n / 16, width - 1) + ["0123456789abcdef"[n % 16]]
  }

  /** How `repr` writes one character of a string quoted with `quote`. */
  function CharRepr(c: char, quote: char): (r: string)
    ensures r != []
  {
    if c == quote || c == '\\' then ['\\', c]
    else if c == '\t' then "\\t"
    else if c == '\n' then "\\n"
    else if c == '\r' then "\\r"
    else if Unprintable(c) then
      if c as int <= 0xFF then "\\x" + Hex(c as int, 2) else "\\u" + Hex(c as int, 4)
    else [c]
  }

  function Escaped(s: string, quote: char): string {
    if s == [] then [] else CharRepr(s[0], quote) + Escaped(s[1..], quote)
  }

  /** `repr(s)` of a string: single quotes, unless the text has a single
      quote and no double quote; the chosen quote, backslashes, tab, newline,
      carriage return and unprintable characters are escaped. */
  function StrRepr(s: string): string {
    var quote := if '\'' in s && '"' !in s then '"' else '\'';
    [quote] + Escaped(s, quote) + [quote]
  }

  /** A string with no quote, backslash or unprintable character is written
      between single quotes as it is. */
  lemma {:induction false} PlainRepr(s: string)
    requires forall i :: 0 <= i < |s| ==> s[i] != '\'' && s[i] != '\\' && s[i] != '\t' && s[i] != '\n' && s[i] != '\r' && !Unprintable(s[i])
    ensures StrRepr(s) == "'" + s + "'"
  {
    PlainEscaped(s, '\'');
  }

  lemma {:induction false} PlainEscaped(s: string, quote: char)
    requires forall i :: 0 <= i < |s| ==> s[i] != quote && s[i] != '\\' && s[i] != '\t' && s[i] != '\n' && s[i] != '\r' && !Unprintable(s[i])
    ensures Escaped(s, quote) == s
  {
    if s != [] {
      PlainEscaped(s[1..], quote);
      assert s == [s[0]] + s[1..];
    }
  }

  /** `repr` of a string is one line: a newline inside it is escaped. */
  lemma {:induction false} ReprOneLine(s: string)
    ensures '\n' !in StrRepr(s)
  {
    var quote := if '\'' in s && '"' !in s then '"' else '\'';
    EscapedOneLine(s, quote);
  }

  lemma {:induction false} EscapedOneLine(s: string, quote: char)
    requires quote != '\n'
    ensures '\n' !in Escaped(s, quote)
  {
    if s != [] {
      CharReprOneLine(s[0], quote);
      EscapedOneLine(s[1..], quote);
    }
  }

  lemma CharReprOneLine(c: char, quote: char)
    requires quote != '\n'
    ensures '\n' !in CharRepr(c, quote)
  {
  }

  /** A single quote in a text without double quotes switches the quoting:
      the text is written between double quotes, its single quotes as they
      are (Python writes `"it's"`). */
  lemma QuoteSwitch(s: string)
    requires '\'' in s && '"' !in s
    requires forall i :: 0 <= i < |s| ==> s[i] != '\\' && s[i] != '\t' && s[i] != '\n' && s[i] != '\r' && !Unprintable(s[i])
    ensures StrRepr(s) == "\"" + s + "\""
  {
    PlainEscaped(s, '"');
  }

  /** `repr(v)`. */
  function Repr(v: Json): string {
    match v
    case JNull => "None"
    case JBool(b) => if b then "True" else "False"
    case JNumber(n) => IntToString(n)
    case JString(s) => StrRepr(s)
    case JArray(es) => "[" + ReprItems(es) + "]"
    case JObject(fs) => "{" + ReprFields(fs) + "}"
  }

  function ReprItems(es: seq<Json>): string {
    if es == [] then ""
    else if |es| == 1 then Repr(es[0])
    else Repr(es[0]) + ", " + ReprItems(es[1..])
  }

  function ReprFields(fs: seq<Field>): string {
    if fs == [] then ""
    else
      var one := StrRepr(fs[0].key) + ": " + Repr(fs[0].value);
      if |fs| == 1 then one else one + ", " + ReprFields(fs[1..])
  }

  /** `str(v)`: a string is itself, everything else its repr. */
  function PyStr(v: Json): string {
    if v.JString? then v.s else Repr(v)
  }

  /** The Python type name, as exception messages print it. */
  function TypeName(v: Json): string {
    match v
    case JNull => "NoneType"
    case JBool(_) => "bool"
    case JNumber(_) => "int"
    case JString(_) => "str"
    case JArray(_) => "list"
    case JObject(_) => "dict"
  }

  function NoGetMessage(v: Json): string {
    "'" + TypeName(v) + "' object has no attribute 'get'"
  }
}
