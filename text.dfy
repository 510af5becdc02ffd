/** The string operations the Python code relies on (`strip`, `lower`, `in`,
    `startswith`, `endswith`, `replace`, `join`, `split`, `<` on strings),
    defined on `seq<char>` with the properties the rest of the model uses.
    Whitespace is Python's full set; case mapping is ASCII only. */
module Text {
  import opened Wrappers

  /** Python's `str.isspace`, which is also what `strip()`, `split()` and the
      `\s` of a `str` pattern test: the ASCII controls 9 to 13 and 28 to 31,
      the space, and the Unicode separators. */
  predicate IsSpace(c: char) {
    || '\t' <= c <= '\r'
    || '\U{1C}' <= c <= ' '
    || c == '\U{85}' || c == '\U{A0}' || c == '\U{1680}'
    || '\U{2000}' <= c <= '\U{200A}'
    || c == '\U{2028}' || c == '\U{2029}' || c == '\U{202F}' || c == '\U{205F}' || c == '\U{3000}'
  }

  /** `not s.strip()`: empty or whitespace only. */
  predicate IsBlank(s: string) {
    forall i :: 0 <= i < |s| ==> IsSpace(s[i])
  }

  function LStrip(s: string): (r: string)
    ensures |r| <= |s| && r == s[|s| - |r|..]
    ensures r == [] || !IsSpace(r[0])
    ensures forall i :: 0 <= i < |s| - |r| ==> IsSpace(s[i])
  {
    if s != [] && IsSpace(s[0]) then
      var t := s[1..];
      var r := LStrip(t);
      assert forall i :: 1 <= i < |s| - |r| ==> s[i] == t[i - 1];
      r
    else s
  }

  function RStrip(s: string): (r: string)
    ensures |r| <= |s| && r == s[..|r|]
    ensures r == [] || !IsSpace(r[|r| - 1])
    ensures forall i :: |r| <= i < |s| ==> IsSpace(s[i])
  {
    if s != [] && IsSpace(s[|s| - 1]) then RStrip(s[..|s| - 1]) else s
  }

  /** `s.strip()`: the slice of `s` between its leading and trailing whitespace. */
  function Strip(s: string): (r: string)
    ensures |r| <= |s|
    ensures r == [] || (!IsSpace(r[0]) && !IsSpace(r[|r| - 1]))
    ensures r == [] <==> IsBlank(s)
  {
    var l := LStrip(s);
    var r := RStrip(l);
    r
  }

  /** Stripping twice is stripping once. */
  lemma {:induction false} StripIdempotent(s: string)
    ensures Strip(Strip(s)) == Strip(s)
  {
    var r := Strip(s);
    if r != [] {
      assert LStrip(r) == r;
      assert RStrip(r) == r;
    }
  }

  /** Stripping a string framed by whitespace leaves exactly the frame's
      contents, when those begin and end with something else. */
  lemma {:induction false} StripBetween(a: string, m: string, b: string)
    requires IsBlank(a) && IsBlank(b)
    requires m != [] && !IsSpace(m[0]) && !IsSpace(m[|m| - 1])
    ensures Strip(a + m + b) == m
  {
    assert a + m + b == a + (m + b);
    LStripBlankPrefix(a, m + b);
    RStripBlankSuffix(m, b);
  }

  lemma {:induction false} LStripBlankPrefix(a: string, m: string)
    requires IsBlank(a)
    requires m == [] || !IsSpace(m[0])
    ensures LStrip(a + m) == m
  {
    if a == [] {
      assert a + m == m;
    } else {
      assert (a + m)[1..] == a[1..] + m;
      LStripBlankPrefix(a[1..], m);
    }
  }

  lemma {:induction false} RStripBlankSuffix(m: string, b: string)
    requires IsBlank(b)
    requires m == [] || !IsSpace(m[|m| - 1])
    ensures RStrip(m + b) == m
  {
    if b == [] {
      assert m + b == m;
    } else {
      assert (m + b)[..|m + b| - 1] == m + b[..|b| - 1];
      RStripBlankSuffix(m, b[..|b| - 1]);
    }
  }

  /** `s.strip(c)` for a single character `c`. */
  function StripChar(s: string, c: char): (r: string)
    ensures |r| <= |s|
    ensures r == [] || (r[0] != c && r[|r| - 1] != c)
  {
    RStripChar(LStripChar(s, c), c)
  }

  function LStripChar(s: string, c: char): (r: string)
    ensures |r| <= |s| && r == s[|s| - |r|..]
    ensures r == [] || r[0] != c
  {
    if s != [] && s[0] == c then LStripChar(s[1..], c) else s
  }

  function RStripChar(s: string, c: char): (r: string)
    ensures |r| <= |s| && r == s[..|r|]
    ensures r == [] || r[|r| - 1] != c
  {
    if s != [] && s[|s| - 1] == c then RStripChar(s[..|s| - 1], c) else s
  }

  /** Stripping `c` from a string framed by runs of `c` leaves the contents. */
  lemma {:induction false} StripCharBetween(a: string, m: string, b: string, c: char)
    requires forall i :: 0 <= i < |a| ==> a[i] == c
    requires forall i :: 0 <= i < |b| ==> b[i] == c
    requires m != [] && m[0] != c && m[|m| - 1] != c
    ensures StripChar(a + m + b, c) == m
  {
    assert a + m + b == a + (m + b);
    LStripCharPrefix(a, m + b, c);
    RStripCharSuffix(m, b, c);
  }

  lemma {:induction false} LStripCharPrefix(a: string, m: string, c: char)
    requires forall i :: 0 <= i < |a| ==> a[i] == c
    requires m == [] || m[0] != c
    ensures LStripChar(a + m, c) == m
  {
    if a == [] {
      assert a + m == m;
    } else {
      assert (a + m)[1..] == a[1..] + m;
      LStripCharPrefix(a[1..], m, c);
    }
  }

  lemma {:induction false} RStripCharSuffix(m: string, b: string, c: char)
    requires forall i :: 0 <= i < |b| ==> b[i] == c
    requires m == [] || m[|m| - 1] != c
    ensures RStripChar(m + b, c) == m
  {
    if b == [] {
      assert m + b == m;
    } else {
      assert (m + b)[..|m + b| - 1] == m + b[..|b| - 1];
      RStripCharSuffix(m, b[..|b| - 1], c);
    }
  }

  function LowerChar(c: char): char {
    if 'A' <= c <= 'Z' then (c as int + 32) as char else c
  }

  /** `s.lower()` on ASCII letters. */
  function Lower(s: string): (r: string)
    ensures |r| == |s|
    ensures forall i :: 0 <= i < |s| ==> r[i] == LowerChar(s[i])
  {
    seq(|s|, i requires 0 <= i < |s| => LowerChar(s[i]))
  }

  predicate StartsWith(s: string, p: string) {
    |p| <= |s| && s[..|p|] == p
  }

  predicate EndsWith(s: string, p: string) {
    |p| <= |s| && s[|s| - |p|..] == p
  }

  /** `p` occurs in `s` starting at index `i`. */
  predicate OccursAt(s: string, p: string, i: int) {
    0 <= i && i + |p| <= |s| && s[i..i + |p|] == p
  }

  /** An occurrence in a suffix is an occurrence in the whole, shifted. */
  lemma OccursShift(s: string, d: nat, p: string, i: nat)
    requires d <= |s|
    ensures OccursAt(s, p, d + i) <==> OccursAt(s[d..], p, i)
  {
    if d + i + |p| <= |s| {
      assert s[d + i..d + i + |p|] == s[d..][i..i + |p|];
    }
  }

  /** `s.find(p)`: the first index where `p` occurs in `s`, if any. */
  function IndexOf(s: string, p: string): (r: Option<nat>)
    ensures r.Some? ==> OccursAt(s, p, r.value)
    ensures r.Some? ==> forall j :: 0 <= j < r.value ==> !OccursAt(s, p, j)
    ensures r.None? ==> forall j :: !OccursAt(s, p, j)
  {
    if StartsWith(s, p) then Some(0)
    else if s == [] then None
    else
      var rest := IndexOf(s[1..], p);
      assert forall j :: 0 < j ==> (OccursAt(s, p, j) <==> OccursAt(s[1..], p, j - 1)) by {
        forall j | 0 < j ensures OccursAt(s, p, j) <==> OccursAt(s[1..], p, j - 1) {
          OccursShift(s, 1, p, j - 1);
        }
      }
      match rest
      case Some(i) => Some(i + 1)
      case None => None
  }

  /** An occurrence with none before it is the one `find` reports. */
  lemma IndexOfAt(s: string, p: string, n: nat)
    requires OccursAt(s, p, n)
    requires forall j :: 0 <= j < n ==> !OccursAt(s, p, j)
    ensures IndexOf(s, p) == Some(n)
  {
  }

  /** Python's `p in s`. */
  predicate Contains(s: string, p: string) {
    IndexOf(s, p).Some?
  }

  lemma ContainsIff(s: string, p: string)
    ensures Contains(s, p) <==> exists j :: OccursAt(s, p, j)
  {
  }

  /** An occurrence inside a slice is an occurrence in the whole string. */
  lemma {:induction false} ContainsSlice(s: string, p: string, a: nat, b: nat)
    requires a <= b <= |s|
    requires Contains(s[a..b], p)
    ensures Contains(s, p)
  {
    var t := s[a..b];
    var i := IndexOf(t, p).value;
    assert OccursAt(t, p, i);
    SliceOfSlice(s, a, b, i, |p|);
    assert OccursAt(s, p, a + i);
  }

  lemma SliceOfSlice(s: string, a: nat, b: nat, i: nat, n: nat)
    requires a <= b <= |s| && i + n <= b - a
    ensures s[a..b][i..i + n] == s[a + i..a + i + n]
  {
    var x := s[a..b][i..i + n];
    var y := s[a + i..a + i + n];
    assert forall k :: 0 <= k < n ==> x[k] == y[k];
  }

  /** The part of `s` before the first occurrence of `p` does not contain `p`. */
  lemma {:induction false} PrefixBeforeFirst(s: string, p: string, n: nat)
    requires |p| > 0
    requires IndexOf(s, p).Some? ==> n <= IndexOf(s, p).value
    requires n <= |s|
    ensures !Contains(s[..n], p)
  {
    if Contains(s[..n], p) {
      var i := IndexOf(s[..n], p).value;
      assert s[..n][i..i + |p|] == s[i..i + |p|];
      assert OccursAt(s, p, i);
    }
  }

  /** `s.replace(p, q)`: every non-overlapping occurrence of `p`, scanning
      left to right, replaced by `q`. The source only replaces non-empty
      patterns. */
  function Replace(s: string, p: string, q: string): (r: string)
    requires |p| > 0
    ensures !Contains(s, p) ==> r == s
    decreases |s|
  {
    if |s| < |p| then s
    else if s[..|p|] == p then q + Replace(s[|p|..], p, q)
    else
      var tail := Replace(s[1..], p, q);
      assert !Contains(s, p) ==> !Contains(s[1..], p) by {
        if Contains(s[1..], p) {
          assert s[1..|s|] == s[1..];
          ContainsSlice(s, p, 1, |s|);
        }
      }
      [s[0]] + tail
  }

  /** Replacing a pattern by itself changes nothing. */
  lemma {:induction false} ReplaceSelf(s: string, p: string)
    requires |p| > 0
    ensures Replace(s, p, p) == s
    decreases |s|
  {
    if |s| < |p| {
    } else if s[..|p|] == p {
      ReplaceSelf(s[|p|..], p);
      assert s == p + s[|p|..];
    } else {
      ReplaceSelf(s[1..], p);
      assert s == [s[0]] + s[1..];
    }
  }

  /** When the only occurrence of `p` in `a + p` is the final one, replacing
      rewrites exactly that suffix. */
  lemma {:induction false} ReplaceOnlyAtEnd(a: string, p: string, q: string)
    requires |p| > 0
    requires IndexOf(a + p, p) == Some(|a|)
    ensures Replace(a + p, p, q) == a + q
    decreases |a|
  {
    var s := a + p;
    if a == [] {
      assert s[..|p|] == p && s[|p|..] == [];
    } else {
      assert s[..|p|] != p by {
        assert !OccursAt(s, p, 0);
      }
      assert s[1..] == a[1..] + p;
      assert IndexOf(a[1..] + p, p) == Some(|a| - 1) by {
        TailFirstOccurrence(s, p, |a|);
      }
      ReplaceOnlyAtEnd(a[1..], p, q);
      ReplaceSkip(s, p, q);
      ConsSplit(a, q);
    }
  }

  /** Where `p` does not start `s`, replacing keeps the first character. */
  lemma ReplaceSkip(s: string, p: string, q: string)
    requires 0 < |p| <= |s| && s[..|p|] != p
    ensures Replace(s, p, q) == [s[0]] + Replace(s[1..], p, q)
  {
  }

  lemma ConsSplit(a: string, q: string)
    requires a != []
    ensures [a[0]] + (a[1..] + q) == a + q
  {
    assert a == [a[0]] + a[1..];
  }

  /** Dropping the first character moves a later first occurrence one place left. */
  lemma TailFirstOccurrence(s: string, p: string, n: nat)
    requires 0 < n && IndexOf(s, p) == Some(n)
    ensures IndexOf(s[1..], p) == Some(n - 1)
  {
    assert s[1..][n - 1..n - 1 + |p|] == s[n..n + |p|];
  }

  /** `sep.join(parts)`. */
  function Join(parts: seq<string>, sep: string): (r: string)
    ensures parts == [] ==> r == []
    ensures |parts| == 1 ==> r == parts[0]
  {
    if parts == [] then []
    else if |parts| == 1 then parts[0]
    else parts[0] + sep + Join(parts[1..], sep)
  }

  /** `s.split(c)` for a single separator character. */
  function SplitOn(s: string, c: char): (r: seq<string>)
    ensures |r| > 0
    ensures forall k, i :: 0 <= k < |r| && 0 <= i < |r[k]| ==> r[k][i] != c
    decreases |s|
  {
    if c !in s then [s]
    else
      var i := FirstChar(s, c);
      [s[..i]] + SplitOn(s[i + 1..], c)
  }

  function FirstChar(s: string, c: char): (i: nat)
    requires c in s
    ensures i < |s| && s[i] == c && c !in s[..i]
  {
    if s[0] == c then 0 else FirstChar(s[1..], c) + 1
  }

  /** Splitting a joined sequence of lines on the separator gives the lines
      back, provided no line holds the separator. */
  lemma {:induction false} SplitJoin(lines: seq<string>, c: char)
    requires |lines| > 0
    requires forall k :: 0 <= k < |lines| ==> c !in lines[k]
    ensures SplitOn(Join(lines, [c]), c) == lines
  {
    if |lines| == 1 {
      assert c !in lines[0];
    } else {
      var rest := Join(lines[1..], [c]);
      assert Join(lines, [c]) == lines[0] + [c] + rest;
      assert c !in lines[0];
      SplitAt(lines[0], c, rest);
      SplitJoin(lines[1..], c);
      assert lines == [lines[0]] + lines[1..];
    }
  }

  /** Splitting at a first separator that follows `a` yields `a` first. */
  lemma SplitAt(a: string, c: char, rest: string)
    requires c !in a
    ensures SplitOn(a + [c] + rest, c) == [a] + SplitOn(rest, c)
  {
    var s := a + [c] + rest;
    assert s[|a|] == c;
    var i := FirstChar(s, c);
    assert s[..i] == a;
    assert s[i + 1..] == rest;
  }

  /** Length of the run of non-whitespace characters at the start of `s`. */
  function WordLength(s: string): (n: nat)
    ensures n <= |s|
    ensures forall i :: 0 <= i < n ==> !IsSpace(s[i])
    ensures n < |s| ==> IsSpace(s[n])
  {
    if s == [] || IsSpace(s[0]) then 0 else WordLength(s[1..]) + 1
  }

  /** `s.split()`: the maximal runs of non-whitespace characters, in order. */
  function Words(s: string): seq<string>
    decreases |s|
  {
    var t := LStrip(s);
    if t == [] then []
    else
      var n := WordLength(t);
      [t[..n]] + Words(t[n..])
  }

  /** `split()` never yields an empty word. */
  lemma {:induction false} WordsNonEmpty(s: string)
    ensures forall k :: 0 <= k < |Words(s)| ==> Words(s)[k] != []
    decreases |s|
  {
    var t := LStrip(s);
    if t != [] {
      var n := WordLength(t);
      var rest := Words(t[n..]);
      WordsNonEmpty(t[n..]);
      assert Words(s) == [t[..n]] + rest;
      assert n > 0;
      forall k | 0 < k < |Words(s)| ensures Words(s)[k] != [] {
        assert Words(s)[k] == rest[k - 1];
      }
    }
  }

  /** A blank text splits into no words. */
  lemma BlankHasNoWords(s: string)
    requires IsBlank(s)
    ensures Words(s) == []
  {
    var t := LStrip(s);
    if t != [] {
      assert t[0] == s[|s| - |t|];
    }
  }

  /** Decimal rendering of a natural number (`str(n)`). */
  function NatToString(n: nat): (r: string)
    ensures |r| > 0
    decreases n
  {
    var d := ['0', '1', '2', '3', '4', '5', '6', '7', '8', '9'];
    if n < 10 then [d[n]] else NatToString(n / 10) + [d[n % 10]]
  }

  function IntToString(n: int): (r: string)
    ensures |r| > 0
  {
    if n < 0 then "-" + NatToString(-n) else NatToString(n)
  }

  /** Python's `a <= b` on strings: lexicographic by code point. */
  predicate LexLe(a: string, b: string) {
    a == [] || (b != [] && (a[0] < b[0] || (a[0] == b[0] && LexLe(a[1..], b[1..]))))
  }

  lemma {:induction false} LexLeRefl(a: string)
    ensures LexLe(a, a)
  {
    if a != [] {
      LexLeRefl(a[1..]);
    }
  }

  lemma {:induction false} LexLeTotal(a: string, b: string)
    ensures LexLe(a, b) || LexLe(b, a)
  {
    if a != [] && b != [] && a[0] == b[0] {
      LexLeTotal(a[1..], b[1..]);
    }
  }

  lemma {:induction false} LexLeTrans(a: string, b: string, c: string)
    requires LexLe(a, b) && LexLe(b, c)
    ensures LexLe(a, c)
  {
    if a != [] && b != [] && c != [] && a[0] == b[0] && b[0] == c[0] {
      LexLeTrans(a[1..], b[1..], c[1..]);
    }
  }

  lemma {:induction false} LexLeAntisym(a: string, b: string)
    requires LexLe(a, b) && LexLe(b, a)
    ensures a == b
  {
    if a != [] && b != [] {
      LexLeAntisym(a[1..], b[1..]);
      assert a == [a[0]] + a[1..];
      assert b == [b[0]] + b[1..];
    }
  }
}
