/** The validation and repair layer around every model call (heuristics.py):
    an input guard of four chained checks and an output contract that
    extracts, parses and backfills structured output. */
module Heuristics {
  import opened Wrappers
  import opened Text
  import opened JsonData

  const MaxInputLength: nat := 100000
  const MinInputLength: nat := 3
  const MaxUrlLength: nat := 2048
  const NsfwWords: seq<string> := ["inappropriate", "offensive", "obscene"]
  const TruncationMarker: string := "... [truncated]"
  const ProviderDomains: seq<string> := ["gmail.com", "yahoo.com", "outlook.com", "hotmail.com"]
  const TypoDomains: seq<string> := ["gmial.com", "yaho.com", "outlock.com", "hotmial.com"]

  const LengthExceededMessage: string :=
    "Input exceeds maximum length of " + NatToString(MaxInputLength) + " characters"
  const TooShortMessage: string :=
    "Input is too short (min " + NatToString(MinInputLength) + " characters required)"
  const NsfwMessage: string := "Text contains " + "potentially inappropriate content"

  /** The two `re.findall` scans (URL pattern, e-mail pattern), taken as given. */
  datatype Scanner = Scanner(findUrls: string -> seq<string>, findEmails: string -> seq<string>)

  // ---------------------------------------------------------------- input guard

  /** `(is_valid, error_message)` of a check that repairs nothing. */
  datatype Verdict = Verdict(valid: bool, error: Option<string>)

  /** `(is_valid, error_message, fixed_text)` of a check that may repair. */
  datatype Repair = Repair(valid: bool, error: Option<string>, fixed: Option<string>)

  function ValidateInputLength(text: string): (r: Verdict)
    ensures r.valid <==> MinInputLength <= |text| <= MaxInputLength
    ensures r.valid <==> r.error.None?
    ensures |text| > MaxInputLength ==> r.error == Some(LengthExceededMessage)
    ensures |text| < MinInputLength ==> r.error == Some(TooShortMessage)
  {
    if |text| > MaxInputLength then Verdict(false, Some(LengthExceededMessage))
    else if |text| < MinInputLength then Verdict(false, Some(TooShortMessage))
    else Verdict(true, None)
  }

  /** The repair of an over-long input: its first 99900 characters and a marker. */
  function Truncate(text: string): (r: string)
    requires |text| > MaxInputLength
    ensures |r| == 99915
    ensures r[..MaxInputLength - 100] == text[..MaxInputLength - 100]
    ensures EndsWith(r, TruncationMarker)
  {
    text[..MaxInputLength - 100] + TruncationMarker
  }

  predicate IsAsciiLetter(c: char) {
    'a' <= c <= 'z' || 'A' <= c <= 'Z'
  }

  predicate SchemeChar(c: char) {
    IsAsciiLetter(c) || '0' <= c <= '9' || c == '+' || c == '-' || c == '.'
  }

  /** What `urllib.parse.urlparse` reports of a URL: scheme and network location. */
  datatype UrlParts = UrlParts(scheme: string, netloc: string)

  /** The scheme rule of `urlsplit`: letters, digits, `+-.` before the first
      colon, starting with a letter. */
  function SplitScheme(u: string): (string, string) {
    match IndexOf(u, ":")
    case Some(i) =>
      if 0 < i && IsAsciiLetter(u[0]) && (forall j :: 0 <= j < i ==> SchemeChar(u[j]))
      then (Lower(u[..i]), u[i + 1..])
      else ("", u)
    case None => ("", u)
  }

  predicate NetlocStop(c: char) {
    c == '/' || c == '?' || c == '#'
  }

  /** The first index at or after `i` holding `/`, `?` or `#`, else `|s|`. */
  function NetlocEnd(s: string, i: nat): (e: nat)
    requires i <= |s|
    ensures i <= e <= |s|
    ensures forall j :: i <= j < e ==> !NetlocStop(s[j])
    ensures e < |s| ==> NetlocStop(s[e])
    decreases |s| - i
  {
    if i == |s| || NetlocStop(s[i]) then i else NetlocEnd(s, i + 1)
  }

  /** `urlparse(u)`; unbalanced brackets in the network location raise. */
  function UrlParse(u: string): Result<UrlParts> {
    var (scheme, rest) := SplitScheme(u);
    if StartsWith(rest, "//") then
      var netloc := rest[2..NetlocEnd(rest, 2)];
      if ('[' in netloc) != (']' in netloc) then Err("Invalid IPv6 URL")
      else Ok(UrlParts(scheme, netloc))
    else Ok(UrlParts(scheme, ""))
  }

  function UrlTooLongMessage(url: string): (m: string)
    requires |url| > MaxUrlLength
    ensures StartsWith(m, "URL exceeds maximum length of 2048 characters: ")
    ensures EndsWith(m, url[..50] + "...")
  {
    "URL exceeds maximum length of " + NatToString(MaxUrlLength) + " characters: " + url[..50] + "..."
  }

  /** The URL check over the matched URLs, from the text repaired so far. */
  function CheckUrls(fixed: string, urls: seq<string>): (r: Repair)
    ensures r.valid <==> r.error.None?
    ensures r.valid <==> r.fixed.Some?
    ensures r.error.Some? ==> |r.error.value| > 0 && (r.error.value[0] == 'U' || r.error.value[0] == 'I')
    decreases |urls|
  {
    if urls == [] then Repair(true, None, Some(fixed))
    else
      var url := urls[0];
      if |url| > MaxUrlLength then Repair(false, Some(UrlTooLongMessage(url)), None)
      else match UrlParse(url)
        case Err(_) => Repair(false, Some("URL parsing error: " + url), None)
        case Ok(parts) =>
          if parts.scheme == "" || parts.netloc == "" then
            if StartsWith(url, "www.") then CheckUrls(Replace(fixed, url, "https://" + url), urls[1..])
            else Repair(false, Some("Invalid URL format: " + url), None)
          else CheckUrls(fixed, urls[1..])
  }

  /** validate_urls: walks the matched URLs, failing on the first bad one. */
  method ValidateUrls(text: string, scan: Scanner) returns (r: Repair)
    ensures r == CheckUrls(text, scan.findUrls(text))
  {
    var urls := scan.findUrls(text);
    var fixedText := text;
    var i := 0;
    while i < |urls|
      invariant 0 <= i <= |urls|
      invariant CheckUrls(fixedText, urls[i..]) == CheckUrls(text, urls)
    {
      var url := urls[i];
      assert urls[i..][0] == url && urls[i..][1..] == urls[i + 1..];
      if |url| > MaxUrlLength {
        return Repair(false, Some(UrlTooLongMessage(url)), None);
      }
      var parsed := UrlParse(url);
      if parsed.Err? {
        return Repair(false, Some("URL parsing error: " + url), None);
      }
      if parsed.value.scheme == "" || parsed.value.netloc == "" {
        if StartsWith(url, "www.") {
          fixedText := Replace(fixedText, url, "https://" + url);
        } else {
          return Repair(false, Some("Invalid URL format: " + url), None);
        }
      }
      i := i + 1;
    }
    return Repair(true, None, Some(fixedText));
  }

  /** Some deny-list word occurs, case-insensitively, in `lower`. */
  function AnyDenied(lower: string, words: seq<string>): (found: bool)
    ensures found <==> exists w :: w in words && Contains(lower, Lower(w))
  {
    if words == [] then false
    else Contains(lower, Lower(words[0])) || AnyDenied(lower, words[1..])
  }

  predicate DeniedWordIn(text: string) {
    exists w :: w in NsfwWords && Contains(Lower(text), Lower(w))
  }

  function ValidateNoNsfw(text: string): (r: Verdict)
    ensures r.valid <==> !DeniedWordIn(text)
    ensures r.valid <==> r.error.None?
    ensures !r.valid ==> r.error == Some(NsfwMessage)
  {
    if AnyDenied(Lower(text), NsfwWords) then Verdict(false, Some(NsfwMessage))
    else Verdict(true, None)
  }

  /** `email.split('@')[1]`: the text between the first and second `@`. */
  function DomainPart(email: string): string
    requires '@' in email
  {
    var i := FirstChar(email, '@');
    var rest := email[i + 1..];
    if '@' in rest then rest[..FirstChar(rest, '@')] else rest
  }

  predicate WellFormedEmail(email: string) {
    '@' in email && '.' in DomainPart(email)
  }

  /** The typo loop for one address: every provider pair from `k` on. */
  function FixTypos(fixed: string, email: string, k: nat): string
    requires '@' in email
    requires k <= |TypoDomains|
    decreases |TypoDomains| - k
  {
    if k == |TypoDomains| then fixed
    else
      var next :=
        if EndsWith(Lower(email), "@" + TypoDomains[k])
        then Replace(fixed, email, Replace(email, TypoDomains[k], ProviderDomains[k]))
        else fixed;
      FixTypos(next, email, k + 1)
  }

  /** The e-mail check over the matched addresses, from the text repaired so far. */
  function CheckEmails(fixed: string, emails: seq<string>): (r: Repair)
    ensures r.valid <==> r.error.None?
    ensures r.valid <==> r.fixed.Some?
    ensures r.error.Some? ==> |r.error.value| > 0 && r.error.value[0] == 'I'
    decreases |emails|
  {
    if emails == [] then Repair(true, None, Some(fixed))
    else
      var email := emails[0];
      if !WellFormedEmail(email) then Repair(false, Some("Invalid email format: " + email), None)
      else CheckEmails(FixTypos(fixed, email, 0), emails[1..])
  }

  /** The inner loop of validate_email_format: for each provider, a typo
      domain ending the lower-cased address is corrected in the text. */
  method RepairTypos(text: string, email: string) returns (fixedText: string)
    requires '@' in email
    ensures fixedText == FixTypos(text, email, 0)
  {
    fixedText := text;
    for k := 0 to |TypoDomains|
      invariant FixTypos(fixedText, email, k) == FixTypos(text, email, 0)
    {
      var typo, correct := TypoDomains[k], ProviderDomains[k];
      if EndsWith(Lower(email), "@" + typo) {
        var corrected := Replace(email, typo, correct);
        fixedText := Replace(fixedText, email, corrected);
      }
    }
  }

  /** validate_email_format: checks each matched address and repairs known
      provider typos in the text. */
  method ValidateEmailFormat(text: string, scan: Scanner) returns (r: Repair)
    ensures r == CheckEmails(text, scan.findEmails(text))
  {
    var emails := scan.findEmails(text);
    var fixedText := text;
    var i := 0;
    while i < |emails|
      invariant 0 <= i <= |emails|
      invariant CheckEmails(fixedText, emails[i..]) == CheckEmails(text, emails)
    {
      var email := emails[i];
      assert emails[i..][0] == email && emails[i..][1..] == emails[i + 1..];
      if '@' !in email || '.' !in DomainPart(email) {
        return Repair(false, Some("Invalid email format: " + email), None);
      }
      fixedText := RepairTypos(fixedText, email);
      i := i + 1;
    }
    return Repair(true, None, Some(fixedText));
  }

  /** `(is_valid, error_messages, fixed_text)` threaded through the input checks. */
  datatype InputCheck = InputCheck(valid: bool, errors: seq<string>, fixed: string)

  /** A stage either leaves the error list alone or appends one error, and the
      outcome stays valid exactly when it was valid and nothing was appended. */
  predicate StageStep(c: InputCheck, r: InputCheck) {
    && (r.errors == c.errors || (|r.errors| == |c.errors| + 1 && r.errors[..|c.errors|] == c.errors))
    && (r.valid <==> c.valid && r.errors == c.errors)
  }

  function LengthStage(text: string): (r: InputCheck)
    ensures r.valid <==> r.errors == []
    ensures r.valid ==> r.fixed == text
  {
    var v := ValidateInputLength(text);
    if v.valid then InputCheck(true, [], text)
    else InputCheck(false, [v.error.value], if |text| > MaxInputLength then Truncate(text) else text)
  }

  function UrlStage(c: InputCheck, scan: Scanner): (r: InputCheck)
    ensures StageStep(c, r)
  {
    var u := CheckUrls(c.fixed, scan.findUrls(c.fixed));
    if !u.valid then InputCheck(false, c.errors + [u.error.value], c.fixed)
    else if u.fixed.value != "" then InputCheck(c.valid, c.errors, u.fixed.value)
    else c
  }

  function NsfwStage(c: InputCheck): (r: InputCheck)
    ensures StageStep(c, r)
    ensures r.fixed == c.fixed
  {
    var n := ValidateNoNsfw(c.fixed);
    if !n.valid then InputCheck(false, c.errors + [n.error.value], c.fixed) else c
  }

  function EmailStage(c: InputCheck, scan: Scanner): (r: InputCheck)
    ensures StageStep(c, r)
  {
    var m := CheckEmails(c.fixed, scan.findEmails(c.fixed));
    if !m.valid then InputCheck(false, c.errors + [m.error.value], c.fixed)
    else if m.fixed.value != "" then InputCheck(c.valid, c.errors, m.fixed.value)
    else c
  }

  /** validate_llm_input as a function: length, URLs, content, e-mail, each on
      the previous stage's text. */
  function InputGuard(text: string, scan: Scanner): InputCheck {
    EmailStage(NsfwStage(UrlStage(LengthStage(text), scan)), scan)
  }

  /** validate_llm_input: every check runs even after an earlier failure. */
  method ValidateLlmInput(text: string, scan: Scanner)
    returns (isValid: bool, errorMessages: seq<string>, fixedText: string)
    ensures InputCheck(isValid, errorMessages, fixedText) == InputGuard(text, scan)
  {
    isValid := true;
    errorMessages := [];
    fixedText := text;

    var length := ValidateInputLength(text);
    if !length.valid {
      isValid := false;
      errorMessages := errorMessages + [length.error.value];
      if |text| > MaxInputLength {
        fixedText := Truncate(text);
      }
    }
    ghost var afterLength := LengthStage(text);
    assert InputCheck(isValid, errorMessages, fixedText) == afterLength;

    var urls := ValidateUrls(fixedText, scan);
    if !urls.valid {
      isValid := false;
      errorMessages := errorMessages + [urls.error.value];
    } else if urls.fixed.value != "" {
      fixedText := urls.fixed.value;
    }
    ghost var afterUrls := UrlStage(afterLength, scan);
    assert InputCheck(isValid, errorMessages, fixedText) == afterUrls;

    var nsfw := ValidateNoNsfw(fixedText);
    if !nsfw.valid {
      isValid := false;
      errorMessages := errorMessages + [nsfw.error.value];
    }
    assert InputCheck(isValid, errorMessages, fixedText) == NsfwStage(afterUrls);

    var email := ValidateEmailFormat(fixedText, scan);
    if !email.valid {
      isValid := false;
      errorMessages := errorMessages + [email.error.value];
    } else if email.fixed.value != "" {
      fixedText := email.fixed.value;
    }
  }

  /** The guard is valid exactly when it reported no error, and it reports at
      most one error per check. */
  lemma {:induction false} InputGuardValidIffNoErrors(text: string, scan: Scanner)
    ensures InputGuard(text, scan).valid <==> InputGuard(text, scan).errors == []
    ensures |InputGuard(text, scan).errors| <= 4
  {
    var c0 := LengthStage(text);
    assert |c0.errors| <= 1;
    var c1 := UrlStage(c0, scan);
    var c2 := NsfwStage(c1);
    var c3 := EmailStage(c2, scan);
    assert c3 == InputGuard(text, scan);
  }

  /** Over-long input is invalid, the length error comes first, and the text
      the later checks see is the 99915-character truncation. */
  lemma InputGuardOverLength(text: string, scan: Scanner)
    requires |text| > MaxInputLength
    ensures !InputGuard(text, scan).valid
    ensures InputGuard(text, scan).errors[0] == LengthExceededMessage
    ensures LengthStage(text).fixed == Truncate(text) && |LengthStage(text).fixed| == 99915
  {
    LaterStagesKeep(LengthStage(text), scan);
  }

  /** Too-short input is invalid, reported first, and left unrepaired by the
      length check. */
  lemma InputGuardTooShort(text: string, scan: Scanner)
    requires |text| < MinInputLength
    ensures !InputGuard(text, scan).valid
    ensures InputGuard(text, scan).errors[0] == TooShortMessage
    ensures LengthStage(text).fixed == text
  {
    LaterStagesKeep(LengthStage(text), scan);
  }

  /** The URL, content and e-mail checks keep the errors reported before
      them, in front, and keep an invalid verdict. */
  lemma LaterStagesKeep(c0: InputCheck, scan: Scanner)
    ensures var c3 := EmailStage(NsfwStage(UrlStage(c0, scan)), scan);
      |c3.errors| >= |c0.errors| && c3.errors[..|c0.errors|] == c0.errors && (!c0.valid ==> !c3.valid)
  {
    var c1 := UrlStage(c0, scan);
    var c2 := NsfwStage(c1);
    var c3 := EmailStage(c2, scan);
    StepPrefix(c0, c1);
    StepPrefix(c1, c2);
    StepPrefix(c2, c3);
    PrefixChain(c0.errors, c1.errors, c2.errors);
    PrefixChain(c0.errors, c2.errors, c3.errors);
  }

  lemma StepPrefix(c: InputCheck, r: InputCheck)
    requires StageStep(c, r)
    ensures |r.errors| >= |c.errors| && r.errors[..|c.errors|] == c.errors
  {
  }

  lemma PrefixChain(a: seq<string>, b: seq<string>, c: seq<string>)
    requires |a| <= |b| && b[..|a|] == a
    requires |b| <= |c| && c[..|b|] == b
    ensures c[..|a|] == a
  {
    assert c[..|a|] == c[..|b|][..|a|];
  }

  /** The content error is reported exactly when a deny-list word occurs,
      case-insensitively, in the text the content check sees. */
  lemma InputGuardContentIff(text: string, scan: Scanner)
    ensures NsfwMessage in InputGuard(text, scan).errors
        <==> DeniedWordIn(UrlStage(LengthStage(text), scan).fixed)
  {
    var c0 := LengthStage(text);
    var c1 := UrlStage(c0, scan);
    LengthStageNotContent(text);
    UrlStageNotContent(c0, scan);
    NsfwStageIff(c1);
    EmailStageNotContent(NsfwStage(c1), scan);
  }

  lemma LengthStageNotContent(text: string)
    ensures NsfwMessage !in LengthStage(text).errors
  {
    assert NsfwMessage[0] == 'T';
    assert LengthExceededMessage[0] == 'I' && TooShortMessage[0] == 'I';
  }

  lemma UrlStageNotContent(c: InputCheck, scan: Scanner)
    requires NsfwMessage !in c.errors
    ensures NsfwMessage !in UrlStage(c, scan).errors
  {
    var u := CheckUrls(c.fixed, scan.findUrls(c.fixed));
    if !u.valid {
      assert NsfwMessage[0] == 'T';
      assert UrlStage(c, scan).errors == c.errors + [u.error.value];
    }
  }

  lemma NsfwStageIff(c: InputCheck)
    requires NsfwMessage !in c.errors
    ensures NsfwMessage in NsfwStage(c).errors <==> DeniedWordIn(c.fixed)
  {
  }

  lemma EmailStageNotContent(c: InputCheck, scan: Scanner)
    ensures NsfwMessage in EmailStage(c, scan).errors <==> NsfwMessage in c.errors
  {
    var m := CheckEmails(c.fixed, scan.findEmails(c.fixed));
    if !m.valid {
      assert NsfwMessage[0] == 'T';
      assert EmailStage(c, scan).errors == c.errors + [m.error.value];
    }
  }

  /** A URL as the URL pattern `https?://(?:[-\w.]|%xx)+` matches it: the
      scheme, `://`, and a host free of `/?#[]`. */
  predicate HostText(h: string) {
    h != [] && forall i :: 0 <= i < |h| ==> !NetlocStop(h[i]) && h[i] != '[' && h[i] != ']'
  }

  predicate HttpShaped(u: string) {
    (StartsWith(u, "http://") && HostText(u[7..])) || (StartsWith(u, "https://") && HostText(u[8..]))
  }

  ghost predicate UrlScanShaped(scan: Scanner) {
    forall t, u :: u in scan.findUrls(t) ==> HttpShaped(u)
  }

  /** `urlparse` finds a scheme and a host in every matched URL, so the
      `www.` repair and the invalid-format failure cannot be reached. */
  lemma HttpShapedParses(u: string)
    requires HttpShaped(u)
    ensures UrlParse(u).Ok? && UrlParse(u).value.scheme != "" && UrlParse(u).value.netloc != ""
  {
    var n := if StartsWith(u, "https://") then 5 else 4;
    var h := u[n + 3..];
    assert HostText(h) by {
      if n == 5 {
        assert u[..4] == "http" && u[4] == 's';
      }
    }
    HttpScheme(u, n);
    var rest := SplitScheme(u).1;
    assert u[n + 1..n + 3] == "//" by {
      assert u[n + 1] == '/' && u[n + 2] == '/';
    }
    assert rest == u[n + 1..n + 3] + h;
    HostNetloc(rest, h);
  }

  /** The scheme of an `http` or `https` URL ends at index `n`. */
  lemma HttpScheme(u: string, n: nat)
    requires (n == 4 && StartsWith(u, "http://")) || (n == 5 && StartsWith(u, "https://"))
    ensures SplitScheme(u).0 != "" && SplitScheme(u).1 == u[n + 1..]
  {
    var w := if n == 4 then "http://" else "https://";
    assert u[..|w|] == w;
    assert n < |u| && u[n] == ':' by {
      assert u[n] == w[n];
    }
    assert IsAsciiLetter(u[0]) by {
      assert u[0] == w[0];
    }
    forall j | 0 <= j < n
      ensures SchemeChar(u[j]) && u[j] != ':'
    {
      assert u[j] == w[j];
    }
    SchemeAt(u, n);
  }

  /** A colon at `n` after scheme characters alone ends the scheme. */
  lemma SchemeAt(u: string, n: nat)
    requires 0 < n < |u| && u[n] == ':' && IsAsciiLetter(u[0])
    requires forall j :: 0 <= j < n ==> SchemeChar(u[j]) && u[j] != ':'
    ensures SplitScheme(u).0 != "" && SplitScheme(u).1 == u[n + 1..]
  {
    assert OccursAt(u, ":", n) by {
      assert u[n..n + 1] == [u[n]];
    }
    forall j | 0 <= j < n
      ensures !OccursAt(u, ":", j)
    {
      assert u[j..j + 1] == [u[j]];
    }
    IndexOfAt(u, ":", n);
    assert |Lower(u[..n])| == n;
  }

  /** After `//`, a host free of `/?#[]` is the whole network location. */
  lemma HostNetloc(rest: string, h: string)
    requires rest == "//" + h && HostText(h)
    ensures StartsWith(rest, "//")
    ensures rest[2..NetlocEnd(rest, 2)] == h && '[' !in h && ']' !in h
  {
    assert NetlocEnd(rest, 2) == |rest|;
    assert rest[2..] == h;
  }

  /** For matched URLs the URL check either fails or hands back its input. */
  lemma {:induction false} CheckUrlsShaped(fixed: string, urls: seq<string>)
    requires forall u :: u in urls ==> HttpShaped(u)
    ensures CheckUrls(fixed, urls).valid ==> CheckUrls(fixed, urls).fixed == Some(fixed)
    ensures !CheckUrls(fixed, urls).valid <==> exists u :: u in urls && |u| > MaxUrlLength
    decreases |urls|
  {
    if urls != [] {
      HttpShapedParses(urls[0]);
      CheckUrlsShaped(fixed, urls[1..]);
      assert forall u :: u in urls <==> u == urls[0] || u in urls[1..];
    }
  }

  /** An address as the e-mail pattern matches it: one `@`, and a `.` after it. */
  predicate EmailShaped(e: string) {
    '@' in e && var i := FirstChar(e, '@'); '@' !in e[i + 1..] && '.' in e[i + 1..]
  }

  ghost predicate EmailScanShaped(scan: Scanner) {
    forall t, e :: e in scan.findEmails(t) ==> EmailShaped(e)
  }

  /** The e-mail check never fails on addresses the pattern matched. */
  lemma {:induction false} CheckEmailsShaped(fixed: string, emails: seq<string>)
    requires forall e :: e in emails ==> EmailShaped(e)
    ensures CheckEmails(fixed, emails).valid
    decreases |emails|
  {
    if emails != [] {
      assert emails[0] in emails;
      assert WellFormedEmail(emails[0]);
      CheckEmailsShaped(FixTypos(fixed, emails[0], 0), emails[1..]);
    }
  }

  /** With the patterns' guarantees, the guard is valid exactly when the
      length is in bounds, no matched URL is over 2048 characters and no
      deny-list word occurs; a valid input is never rewritten by the URL check. */
  lemma InputGuardShaped(text: string, scan: Scanner)
    requires UrlScanShaped(scan) && EmailScanShaped(scan)
    ensures UrlStage(LengthStage(text), scan).fixed == LengthStage(text).fixed
    ensures InputGuard(text, scan).valid <==>
      && MinInputLength <= |text| <= MaxInputLength
      && !(exists u :: u in scan.findUrls(text) && |u| > MaxUrlLength)
      && !DeniedWordIn(text)
  {
    var c0 := LengthStage(text);
    CheckUrlsShaped(c0.fixed, scan.findUrls(c0.fixed));
    var c1 := UrlStage(c0, scan);
    var c2 := NsfwStage(c1);
    CheckEmailsShaped(c2.fixed, scan.findEmails(c2.fixed));
    var c3 := EmailStage(c2, scan);
    assert c3.errors == c2.errors;
  }

  predicate HasLowerCase(s: string) {
    exists i :: 0 <= i < |s| && 'a' <= s[i] <= 'z'
  }

  /** The typo test lower-cases the address but the replacement is
      case-sensitive, so an address without lower-case letters (such as
      `A@GMIAL.COM`, whose typo the test does see) is never rewritten. */
  lemma {:induction false} UpperCaseAddressKept(fixed: string, email: string, k: nat)
    requires '@' in email && k <= |TypoDomains|
    requires !HasLowerCase(email)
    ensures FixTypos(fixed, email, k) == fixed
    decreases |TypoDomains| - k
  {
    if k < |TypoDomains| {
      var typo := TypoDomains[k];
      assert 'a' <= typo[0] <= 'z';
      assert !Contains(email, typo);
      ReplaceSelf(fixed, email);
      UpperCaseAddressKept(fixed, email, k + 1);
    }
  }

  /** The typo in `A@GMIAL.COM` is detected by the lower-cased test. */
  lemma UpperCaseTypoDetected()
    ensures EndsWith(Lower("A@GMIAL.COM"), "@" + TypoDomains[0])
  {
    assert Lower("A@GMIAL.COM") == "a@gmial.com";
  }

  /** The typo domains are lower-case letters and dots, with a dot. */
  lemma TypoDomainsPlain(k: nat)
    requires k < |TypoDomains|
    ensures forall i :: 0 <= i < |TypoDomains[k]| ==> 'a' <= TypoDomains[k][i] <= 'z' || TypoDomains[k][i] == '.'
    ensures '.' in TypoDomains[k]
  {
    var d := TypoDomains[k];
    assert d == ["gmial.com", "yaho.com", "outlock.com", "hotmial.com"][k];
    assert d[|d| - 4] == '.';
  }

  /** `"@" + y` is not a suffix of a different, no shorter `"@" + x`. */
  lemma AtSuffixDistinct(x: string, y: string)
    requires '@' !in x && x != y
    ensures |y| <= |x| ==> !EndsWith("@" + x, "@" + y)
  {
    var a, b := "@" + x, "@" + y;
    if |y| < |x| {
      assert a[|a| - |b|] == x[|x| - |y| - 1];
      assert b[0] == '@';
    } else if |y| == |x| {
      assert a[|a| - |b|..] == a;
      assert a[1..] == x && b[1..] == y;
    }
  }

  lemma SuffixOfSuffix(s: string, a: string, b: string)
    ensures EndsWith(s, a) && EndsWith(s, b) && |b| <= |a| ==> EndsWith(a, b)
  {
    if EndsWith(s, a) && EndsWith(s, b) && |b| <= |a| {
      assert a[|a| - |b|..] == s[|s| - |b|..];
    }
  }

  /** An address ends with at most one of the typo domains. */
  lemma TypoSuffixesExclusive(s: string, k: nat, j: nat)
    requires k < |TypoDomains| && j < |TypoDomains| && k != j
    requires EndsWith(s, "@" + TypoDomains[k])
    ensures !EndsWith(s, "@" + TypoDomains[j])
  {
    var x, y := TypoDomains[k], TypoDomains[j];
    assert x != y;
    TypoDomainsPlain(k);
    TypoDomainsPlain(j);
    AtSuffixDistinct(x, y);
    AtSuffixDistinct(y, x);
    SuffixOfSuffix(s, "@" + x, "@" + y);
    SuffixOfSuffix(s, "@" + y, "@" + x);
  }

  /** No typo domain ends the address from `j` on: the text is left alone. */
  lemma {:induction false} FixTyposNone(fixed: string, email: string, j: nat)
    requires '@' in email && j <= |TypoDomains|
    requires forall i :: j <= i < |TypoDomains| ==> !EndsWith(Lower(email), "@" + TypoDomains[i])
    ensures FixTypos(fixed, email, j) == fixed
    decreases |TypoDomains| - j
  {
    if j < |TypoDomains| {
      FixTyposNone(fixed, email, j + 1);
    }
  }

  /** An address whose lower-cased form ends with typo domain `k` is replaced
      throughout the text by its correction, and by nothing else. */
  lemma {:induction false} TypoCorrected(fixed: string, email: string, j: nat, k: nat)
    requires '@' in email && j <= k < |TypoDomains|
    requires EndsWith(Lower(email), "@" + TypoDomains[k])
    ensures FixTypos(fixed, email, j) == Replace(fixed, email, Replace(email, TypoDomains[k], ProviderDomains[k]))
    decreases k - j
  {
    if j < k {
      TypoSuffixesExclusive(Lower(email), k, j);
      TypoCorrected(fixed, email, j + 1, k);
    } else {
      var next := Replace(fixed, email, Replace(email, TypoDomains[k], ProviderDomains[k]));
      forall i | k < i < |TypoDomains|
        ensures !EndsWith(Lower(email), "@" + TypoDomains[i])
      {
        TypoSuffixesExclusive(Lower(email), k, i);
      }
      FixTyposNone(next, email, k + 1);
    }
  }

  /** `local@typo`, with the typo domain nowhere in `local`, is corrected to
      `local@provider`. */
  lemma TypoAddressCorrected(local: string, k: nat)
    requires k < |TypoDomains| && !Contains(local, TypoDomains[k])
    ensures Replace(local + "@" + TypoDomains[k], TypoDomains[k], ProviderDomains[k]) == local + "@" + ProviderDomains[k]
  {
    var p := TypoDomains[k];
    var a := local + "@";
    var s := a + p;
    TypoDomainsPlain(k);
    forall j | 0 <= j < |a|
      ensures !OccursAt(s, p, j)
    {
      NoTypoBeforeAt(local, p, j);
    }
    assert OccursAt(s, p, |a|);
    IndexOfAt(s, p, |a|);
    ReplaceOnlyAtEnd(a, p, ProviderDomains[k]);
  }

  /** A domain without `@`, absent from `local`, starts nowhere before the
      domain in `local@domain`. */
  lemma NoTypoBeforeAt(local: string, p: string, j: nat)
    requires !Contains(local, p) && '@' !in p && j <= |local|
    ensures !OccursAt(local + "@" + p, p, j)
  {
    var s := local + "@" + p;
    if j + |p| <= |local| {
      assert s[j..j + |p|] == local[j..j + |p|];
      ContainsIff(local, p);
      assert !OccursAt(local, p, j);
    } else if j + |p| <= |s| {
      assert s[j..j + |p|][|local| - j] == s[|local|];
    }
  }

  /** The e-mail pattern's reading of `local@domain` when `local` has no `@`. */
  lemma AddressParts(local: string, d: string)
    requires '@' !in local && '@' !in d
    ensures var email := local + "@" + d;
      '@' in email && DomainPart(email) == d
  {
    var email := local + "@" + d;
    assert email[..|local|] == local;
    FirstCharAt(email, '@', |local|);
    assert email[|local| + 1..] == d;
  }

  /** The first `c` is at `n` when `s[n]` is `c` and none comes before. */
  lemma {:induction false} FirstCharAt(s: string, c: char, n: nat)
    requires n < |s| && s[n] == c && c !in s[..n]
    ensures FirstChar(s, c) == n
  {
    if n > 0 {
      assert s[0] in s[..n];
      assert s[1..][..n - 1] == s[1..n];
      assert s[1..][n - 1] == c;
      FirstCharAt(s[1..], c, n - 1);
    }
  }

  /** The lower-cased address still ends with a lower-case domain. */
  lemma LowerKeepsDomain(local: string, k: nat)
    requires k < |TypoDomains|
    ensures EndsWith(Lower(local + "@" + TypoDomains[k]), "@" + TypoDomains[k])
  {
    var d := "@" + TypoDomains[k];
    TypoDomainsPlain(k);
    assert forall i :: 0 < i < |d| ==> d[i] == TypoDomains[k][i - 1];
    LowerAppend(local, d);
    LowerPlain(d);
  }

  lemma LowerAppend(x: string, y: string)
    ensures Lower(x + y) == Lower(x) + Lower(y)
  {
  }

  lemma LowerPlain(d: string)
    requires forall i :: 0 <= i < |d| ==> !('A' <= d[i] <= 'Z')
    ensures Lower(d) == d
  {
  }

  /** validate_email_format on a typo address: the address passes, and every
      occurrence of it in the text becomes the address at the provider's
      domain before the remaining addresses are checked. */
  lemma TypoAddressRepaired(fixed: string, local: string, k: nat, rest: seq<string>)
    requires k < |TypoDomains| && '@' !in local && !Contains(local, TypoDomains[k])
    ensures CheckEmails(fixed, [local + "@" + TypoDomains[k]] + rest)
         == CheckEmails(Replace(fixed, local + "@" + TypoDomains[k], local + "@" + ProviderDomains[k]), rest)
  {
    var email := local + "@" + TypoDomains[k];
    var emails := [email] + rest;
    TypoDomainsPlain(k);
    AddressParts(local, TypoDomains[k]);
    assert WellFormedEmail(email);
    LowerKeepsDomain(local, k);
    TypoCorrected(fixed, email, 0, k);
    TypoAddressCorrected(local, k);
    assert emails[0] == email && emails[1..] == rest;
  }

  // ------------------------------------------------------------ output contract

  /** Decoding after the quote repair, taken as given: a tree or an error text. */
  datatype ParseResult = Parsed(value: Json) | ParseFailed(message: string)

  /** The first match of ```` ```(?:json)?\s*([\s\S]*?)\s*``` ````, stripped:
      the text between the first fence (and an optional `json` tag) and the
      next fence. */
  function FencedBlock(text: string): Option<string> {
    match IndexOf(text, "```")
    case None => None
    case Some(i) => BlockAfterFence(text[i + 3..])
  }

  /** The block after an opening fence: an optional `json` tag, then the
      text up to the closing fence, stripped. */
  function BlockAfterFence(after: string): Option<string> {
    var body := if StartsWith(after, "json") then after[4..] else after;
    match IndexOf(body, "```")
    case None => None
    case Some(j) => Some(Strip(body[..j]))
  }

  /** The text handed to the decoder: the fenced block if any, else the whole text. */
  function JsonCandidate(text: string): string {
    match FencedBlock(text)
    case Some(block) => block
    case None => Strip(text)
  }

  /** A fence after backtick-free text is the first fence. */
  lemma FenceAfterPlain(pre: string, rest: string)
    requires '`' !in pre && StartsWith(rest, "```")
    ensures IndexOf(pre + rest, "```") == Some(|pre|)
  {
    var s := pre + rest;
    assert s[|pre|..|pre| + 3] == rest[..3];
    forall j | 0 <= j < |pre| ensures !OccursAt(s, "```", j) {
      assert s[j] == pre[j];
    }
    IndexOfAt(s, "```", |pre|);
  }

  /** A block fenced with ```` ``` ```` and no backtick inside is what gets decoded. */
  lemma FencedBlockExtracts(pre: string, body: string, post: string)
    requires '`' !in pre && '`' !in body && !StartsWith(body, "json")
    ensures FencedBlock(pre + ("```" + (body + ("```" + post)))) == Some(Strip(body))
  {
    var tail := body + ("```" + post);
    var text := pre + ("```" + tail);
    var i := |pre|;
    assert IndexOf(text, "```") == Some(i) by {
      FenceAfterPlain(pre, "```" + tail);
    }
    assert text[i + 3..] == tail;
    assert !StartsWith(tail, "json") by {
      NoJsonTag(body, post);
    }
    assert IndexOf(tail, "```") == Some(|body|) by {
      FenceAfterPlain(body, "```" + post);
    }
    assert tail[..|body|] == body;
  }

  lemma NoJsonTag(body: string, post: string)
    requires '`' !in body && !StartsWith(body, "json")
    ensures !StartsWith(body + ("```" + post), "json")
  {
    var tail := body + ("```" + post);
    if |body| >= 4 {
      assert tail[..4] == body[..4];
    } else {
      assert tail[|body|] == '`';
      assert "json"[|body|] != '`';
    }
  }

  /** `(is_valid, error_message, parsed_json)` of validate_json_parsable. */
  datatype ParseCheck = ParseCheck(valid: bool, error: Option<string>, parsed: Option<Json>)

  function ValidateJsonParsable(text: string, parse: string -> ParseResult): (r: ParseCheck)
    ensures r.valid <==> r.parsed.Some?
    ensures r.valid <==> r.error.None?
  {
    match parse(JsonCandidate(text))
    case Parsed(v) => ParseCheck(true, None, Some(v))
    case ParseFailed(m) => ParseCheck(false, Some("Invalid JSON format: " + m), None)
  }

  /** JSON_REQUIRED_FIELDS. */
  function RequiredFields(schema: string): Option<seq<string>> {
    if schema == "tool_call" then Some(["name", "args"])
    else if schema == "perception" then Some(["selected_servers"])
    else if schema == "plan" then Some(["steps"])
    else None
  }

  /** The backfill value for a missing required field. */
  function DefaultFor(field: string): Json {
    if field == "name" then JString("default_tool")
    else if field == "args" then JObject([])
    else if field == "selected_servers" || field == "steps" then JArray([])
    else JNull
  }

  /** Python's `x in v` on a decoded value: keys of a dict, items of a list,
      substrings of a string; anything else raises. */
  function PyIn(x: string, v: Json): Result<bool> {
    match v
    case JObject(fs) => Ok(HasKey(fs, x))
    case JArray(es) => Ok(JString(x) in es)
    case JString(s) => Ok(Contains(s, x))
    case _ => Err("TypeError: argument of type is not iterable")
  }

  /** `[f for f in fields if f not in v]`. */
  function MissingFields(fields: seq<string>, v: Json): (r: Result<seq<string>>)
    ensures v.JObject? ==> r.Ok?
    ensures v.JObject? ==> forall f :: f in r.value <==> f in fields && !HasKey(v.fields, f)
    ensures r.Ok? ==> forall f :: f in r.value ==> f in fields
  {
    if fields == [] then Ok([])
    else match PyIn(fields[0], v)
      case Err(e) => Err(e)
      case Ok(present) =>
        match MissingFields(fields[1..], v)
        case Err(e) => Err(e)
        case Ok(rest) => Ok(if present then rest else [fields[0]] + rest)
  }

  /** Adds each missing field, in order, with its default. */
  function Backfill(fs: seq<Field>, missing: seq<string>): seq<Field>
    decreases |missing|
  {
    if missing == [] then fs else Backfill(Put(fs, missing[0], DefaultFor(missing[0])), missing[1..])
  }

  /** No key is listed twice. */
  predicate Distinct(xs: seq<string>) {
    xs == [] || (xs[0] !in xs[1..] && Distinct(xs[1..]))
  }

  /** Backfilling appends the missing keys in order. */
  lemma {:induction false} BackfillKeys(fs: seq<Field>, missing: seq<string>)
    requires Distinct(missing)
    requires forall k :: k in missing ==> !HasKey(fs, k)
    ensures Keys(Backfill(fs, missing)) == Keys(fs) + missing
    decreases |missing|
  {
    if missing != [] {
      var fs' := Put(fs, missing[0], DefaultFor(missing[0]));
      BackfillStep(fs, missing);
      BackfillKeys(fs', missing[1..]);
      AppendFirst(Keys(fs), missing);
    }
  }

  lemma AppendFirst(a: seq<string>, m: seq<string>)
    requires m != []
    ensures (a + [m[0]]) + m[1..] == a + m
  {
    assert m == [m[0]] + m[1..];
  }

  /** After the first missing key is added, the rest are still missing. */
  lemma BackfillStep(fs: seq<Field>, missing: seq<string>)
    requires missing != [] && Distinct(missing)
    requires forall k :: k in missing ==> !HasKey(fs, k)
    ensures var fs' := Put(fs, missing[0], DefaultFor(missing[0]));
      && Keys(fs') == Keys(fs) + [missing[0]]
      && forall k :: k in missing[1..] ==> !HasKey(fs', k)
  {
    var fs' := Put(fs, missing[0], DefaultFor(missing[0]));
    assert Keys(fs') == Keys(fs) + [missing[0]] by {
      assert missing[0] in missing;
    }
    forall k | k in missing[1..]
      ensures !HasKey(fs', k)
    {
      assert k in missing && k != missing[0];
    }
  }

  /** Backfilling keeps the value of every key it does not add. */
  lemma {:induction false} BackfillKeeps(fs: seq<Field>, missing: seq<string>, k: string)
    requires k !in missing
    ensures Lookup(Backfill(fs, missing), k) == Lookup(fs, k)
    decreases |missing|
  {
    if missing != [] {
      PutFrame(fs, missing[0], DefaultFor(missing[0]), k);
      BackfillKeeps(Put(fs, missing[0], DefaultFor(missing[0])), missing[1..], k);
    }
  }

  /** Backfilling gives each missing key its default. */
  lemma {:induction false} BackfillDefaults(fs: seq<Field>, missing: seq<string>, i: nat)
    requires Distinct(missing) && i < |missing|
    ensures Lookup(Backfill(fs, missing), missing[i]) == Some(DefaultFor(missing[i]))
    decreases |missing|
  {
    var fs' := Put(fs, missing[0], DefaultFor(missing[0]));
    if i == 0 {
      assert missing[0] !in missing[1..];
      BackfillKeeps(fs', missing[1..], missing[0]);
    } else {
      BackfillDefaults(fs', missing[1..], i - 1);
    }
  }

  /** `(is_valid, error_message, fixed_json)` of the structural checks. */
  datatype FieldsCheck = FieldsCheck(valid: bool, error: Option<string>, fixed: Json)

  /** `str(list_of_strings)`. */
  function ListRepr(xs: seq<string>): string {
    "[" + Join(seq(|xs|, i requires 0 <= i < |xs| => StrRepr(xs[i])), ", ") + "]"
  }

  /** validate_required_fields. On a dict it backfills a copy; on anything
      else a missing field makes Python raise. */
  function ValidateRequiredFields(v: Json, schema: string): (r: Result<FieldsCheck>)
    ensures v.JObject? ==> r.Ok?
    ensures RequiredFields(schema).None? ==> r == Ok(FieldsCheck(true, None, v))
    ensures r.Ok? ==> (r.value.valid <==> r.value.error.None?)
    ensures r.Ok? && r.value.valid ==> r.value.fixed == v
  {
    match RequiredFields(schema)
    case None => Ok(FieldsCheck(true, None, v))
    case Some(required) =>
      match MissingFields(required, v)
      case Err(e) => Err(e)
      case Ok(missing) =>
        if missing == [] then Ok(FieldsCheck(true, None, v))
        else if v.JObject? then
          Ok(FieldsCheck(false, Some("Missing required fields: " + ListRepr(missing)), JObject(Backfill(v.fields, missing))))
        else Err("TypeError: cannot assign a field of a non-dict")
  }

  /** On a dict with a known schema: the result holds every required field,
      each missing one is added last with its default, every existing entry is
      untouched, and the check is valid exactly when nothing was missing. */
  lemma RequiredFieldsBackfill(fs: seq<Field>, schema: string)
    requires RequiredFields(schema).Some?
    ensures var r := ValidateRequiredFields(JObject(fs), schema).value;
      var required := RequiredFields(schema).value;
      && r.fixed.JObject?
      && |r.fixed.fields| >= |fs| && Keys(r.fixed.fields)[..|fs|] == Keys(fs)
      && (forall f :: f in required ==> HasKey(r.fixed.fields, f))
      && (forall k :: HasKey(fs, k) ==> Lookup(r.fixed.fields, k) == Lookup(fs, k))
      && (forall f :: f in required && !HasKey(fs, f) ==> Lookup(r.fixed.fields, f) == Some(DefaultFor(f)))
      && (r.valid <==> forall f :: f in required ==> HasKey(fs, f))
  {
    var required := RequiredFields(schema).value;
    var missing := MissingFields(required, JObject(fs)).value;
    ValidateOnDict(fs, schema);
    if missing != [] {
      assert Distinct(missing) by {
        RequiredDistinct(schema);
        DistinctFilter(required, JObject(fs));
      }
      BackfillAll(fs, missing);
      assert missing[0] in missing;
    }
  }

  /** No schema lists a required field twice. */
  lemma RequiredDistinct(schema: string)
    requires RequiredFields(schema).Some?
    ensures Distinct(RequiredFields(schema).value)
  {
    assert "name" !in ["args"];
  }

  /** The check on a dict: valid and unchanged when nothing is missing,
      otherwise invalid with the missing fields backfilled. */
  lemma ValidateOnDict(fs: seq<Field>, schema: string)
    requires RequiredFields(schema).Some?
    ensures var missing := MissingFields(RequiredFields(schema).value, JObject(fs)).value;
      var r := ValidateRequiredFields(JObject(fs), schema);
      && r.Ok?
      && (missing == [] ==> r.value == FieldsCheck(true, None, JObject(fs)))
      && (missing != [] ==> !r.value.valid && r.value.fixed == JObject(Backfill(fs, missing)))
  {
  }

  /** Backfilling distinct missing keys keeps every existing entry and its
      place, and gives each missing key its default. */
  lemma BackfillAll(fs: seq<Field>, missing: seq<string>)
    requires Distinct(missing)
    requires forall k :: k in missing ==> !HasKey(fs, k)
    ensures var fixed := Backfill(fs, missing);
      && |fixed| >= |fs| && Keys(fixed)[..|fs|] == Keys(fs)
      && (forall k :: HasKey(fs, k) ==> Lookup(fixed, k) == Lookup(fs, k))
      && (forall k :: k in missing ==> Lookup(fixed, k) == Some(DefaultFor(k)))
  {
    var fixed := Backfill(fs, missing);
    BackfillKeys(fs, missing);
    PrefixOfAppend(Keys(fs), missing);
    forall k | HasKey(fs, k) ensures Lookup(fixed, k) == Lookup(fs, k) {
      BackfillKeeps(fs, missing, k);
    }
    forall k | k in missing ensures Lookup(fixed, k) == Some(DefaultFor(k)) {
      var i :| 0 <= i < |missing| && missing[i] == k;
      BackfillDefaults(fs, missing, i);
    }
  }

  lemma PrefixOfAppend(a: seq<string>, m: seq<string>)
    ensures (a + m)[..|a|] == a
  {
  }

  lemma {:induction false} DistinctFilter(fields: seq<string>, v: Json)
    requires Distinct(fields) && v.JObject?
    ensures Distinct(MissingFields(fields, v).value)
    decreases |fields|
  {
    if fields != [] {
      var rest := MissingFields(fields[1..], v).value;
      DistinctFilter(fields[1..], v);
      assert fields[0] !in rest;
      assert ([fields[0]] + rest)[1..] == rest;
    }
  }

  /** An object value Python counts as empty: `None` or whitespace only. */
  predicate IsEmptyValue(v: Json) {
    v.JNull? || (v.JString? && IsBlank(v.s))
  }

  /** The replacement for an empty value, chosen by what the key contains. */
  function KeyDefault(k: string): (r: string)
    ensures !IsBlank(r)
  {
    var lk := Lower(k);
    if Contains(lk, "name") then (assert "unnamed_item"[0] == 'u'; "unnamed_item")
    else if Contains(lk, "description") then (assert "No description provided."[0] == 'N'; "No description provided.")
    else if Contains(lk, "url") then (assert "https://example.com"[0] == 'h'; "https://example.com")
    else (assert "N/A"[0] == 'N'; "N/A")
  }

  function ChildPath(path: string, k: string): string {
    if path != "" then path + "." + k else k
  }

  function ItemPath(path: string, i: nat): string {
    path + "[" + NatToString(i) + "]"
  }

  /** No object anywhere in the tree holds an empty value (array items are
      not looked at themselves). */
  predicate NoEmptyFields(v: Json) {
    match v
    case JObject(fs) => FieldsFilled(fs)
    case JArray(es) => ItemsFilled(es)
    case _ => true
  }

  predicate FieldsFilled(fs: seq<Field>) {
    fs == [] || (!IsEmptyValue(fs[0].value) && NoEmptyFields(fs[0].value) && FieldsFilled(fs[1..]))
  }

  predicate ItemsFilled(es: seq<Json>) {
    es == [] || (NoEmptyFields(es[0]) && ItemsFilled(es[1..]))
  }

  /** The repaired tree and the paths of the values that were empty. */
  datatype Walk = Walk(value: Json, emptyKeys: seq<string>)
  datatype FieldsWalk = FieldsWalk(fields: seq<Field>, emptyKeys: seq<string>)
  datatype ItemsWalk = ItemsWalk(items: seq<Json>, emptyKeys: seq<string>)

  /** check_empty: replaces every empty object value by its key default and
      walks nested objects and arrays. The result has no empty object value,
      is unchanged exactly when nothing was reported, and keeps every
      object's keys. */
  function CheckEmpty(v: Json, path: string): (w: Walk)
    ensures NoEmptyFields(w.value)
    ensures w.emptyKeys == [] <==> NoEmptyFields(v)
    ensures w.emptyKeys == [] ==> w.value == v
    ensures v.JObject? ==> w.value.JObject? && Keys(w.value.fields) == Keys(v.fields)
    ensures v.JArray? ==> w.value.JArray? && |w.value.elems| == |v.elems|
    ensures !v.JObject? && !v.JArray? ==> w == Walk(v, [])
  {
    match v
    case JObject(fs) =>
      var r := CheckFields(fs, path);
      Walk(JObject(r.fields), r.emptyKeys)
    case JArray(es) =>
      var r := CheckItems(es, path, 0);
      Walk(JArray(r.items), r.emptyKeys)
    case _ => Walk(v, [])
  }

  function CheckFields(fs: seq<Field>, path: string): (r: FieldsWalk)
    ensures FieldsFilled(r.fields)
    ensures r.emptyKeys == [] <==> FieldsFilled(fs)
    ensures r.emptyKeys == [] ==> r.fields == fs
    ensures Keys(r.fields) == Keys(fs)
  {
    if fs == [] then FieldsWalk([], [])
    else
      var k := fs[0].key;
      var v := fs[0].value;
      var rest := CheckFields(fs[1..], path);
      var head :=
        if IsEmptyValue(v) then Walk(JString(KeyDefault(k)), [ChildPath(path, k)])
        else if v.JObject? || v.JArray? then CheckEmpty(v, ChildPath(path, k))
        else Walk(v, []);
      assert !IsEmptyValue(head.value) by {
        if v.JObject? || v.JArray? {
          assert head.value.JObject? || head.value.JArray?;
        }
      }
      var r := FieldsWalk([Field(k, head.value)] + rest.fields, head.emptyKeys + rest.emptyKeys);
      assert r.fields[1..] == rest.fields;
      ConsKeys(Field(k, head.value), rest.fields);
      ConsKeys(fs[0], fs[1..]);
      assert r.emptyKeys == [] ==> r.fields == [fs[0]] + fs[1..];
      r
  }

  function CheckItems(es: seq<Json>, path: string, i: nat): (r: ItemsWalk)
    ensures ItemsFilled(r.items)
    ensures r.emptyKeys == [] <==> ItemsFilled(es)
    ensures r.emptyKeys == [] ==> r.items == es
    ensures |r.items| == |es|
  {
    if es == [] then ItemsWalk([], [])
    else
      var head := CheckEmpty(es[0], ItemPath(path, i));
      var rest := CheckItems(es[1..], path, i + 1);
      var r := ItemsWalk([head.value] + rest.items, head.emptyKeys + rest.emptyKeys);
      assert r.items[1..] == rest.items;
      assert r.emptyKeys == [] ==> r.items == [es[0]] + es[1..];
      r
  }

  /** A second pass over a repaired tree finds nothing and changes nothing. */
  lemma CheckEmptyIdempotent(v: Json, path: string, path': string)
    ensures CheckEmpty(CheckEmpty(v, path).value, path') == Walk(CheckEmpty(v, path).value, [])
  {
  }

  /** validate_empty_values: `.copy()` exists only on dicts and lists. */
  function ValidateEmptyValues(v: Json): (r: Result<FieldsCheck>)
    ensures r.Ok? <==> v.JObject? || v.JArray?
    ensures r.Ok? ==> (r.value.valid <==> r.value.error.None?)
    ensures r.Ok? ==> (r.value.valid <==> NoEmptyFields(v))
    ensures r.Ok? && r.value.valid ==> r.value.fixed == v
    ensures r.Ok? ==> NoEmptyFields(r.value.fixed)
  {
    if v.JObject? || v.JArray? then
      var w := CheckEmpty(v, "");
      if w.emptyKeys != [] then Ok(FieldsCheck(false, Some("Found empty values for keys: " + ListRepr(w.emptyKeys)), w.value))
      else Ok(FieldsCheck(true, None, w.value))
    else Err("AttributeError: object has no attribute 'copy'")
  }

  /** The output shape repaired: text that could not be decoded, or a tree. */
  datatype Fixed = FText(text: string) | FJson(value: Json)

  /** `(is_valid, error_messages, fixed_output)` of validate_llm_output. */
  datatype OutputCheck = OutputCheck(valid: bool, errors: seq<string>, fixed: Fixed)

  predicate IsJsonFormat(fmt: Option<string>) {
    fmt == Some("json") || fmt == Some("tool_call") || fmt == Some("perception") || fmt == Some("plan")
  }

  /** The structural part of validate_llm_output on a decoded tree: required
      fields backfilled first, then empty values. */
  function RepairTree(parsed: Json, schema: string): (r: Result<OutputCheck>)
    ensures r.Ok? <==> parsed.JObject? || (parsed.JArray? && ValidateRequiredFields(parsed, schema).Ok?)
    ensures r.Ok? ==> r.value.fixed.FJson? && (r.value.valid <==> r.value.errors == [])
    ensures r.Ok? ==> (r.value.fixed.value.JObject? <==> parsed.JObject?)
    ensures r.Ok? ==> (r.value.fixed.value.JObject? || r.value.fixed.value.JArray?)
  {
    match ValidateRequiredFields(parsed, schema)
    case Err(e) => Err(e)
    case Ok(fc) =>
      var errors := if fc.valid then [] else [fc.error.value];
      match ValidateEmptyValues(fc.fixed)
      case Err(e) => Err(e)
      case Ok(ec) =>
        Ok(OutputCheck(fc.valid && ec.valid,
                       errors + (if ec.valid then [] else [ec.error.value]),
                       FJson(ec.fixed)))
  }

  /** validate_llm_output as a function. */
  function OutputContract(text: string, fmt: Option<string>, parse: string -> ParseResult): Result<OutputCheck> {
    if !IsJsonFormat(fmt) then Ok(OutputCheck(true, [], FText(text)))
    else
      var p := ValidateJsonParsable(text, parse);
      if !p.valid then Ok(OutputCheck(false, [p.error.value], FText(text)))
      else RepairTree(p.parsed.value, fmt.value)
  }

  /** validate_llm_output: decode, then repair the decoded tree. */
  method ValidateLlmOutput(text: string, fmt: Option<string>, parse: string -> ParseResult)
    returns (r: Result<OutputCheck>)
    ensures r == OutputContract(text, fmt, parse)
  {
    if !IsJsonFormat(fmt) {
      return Ok(OutputCheck(true, [], FText(text)));
    }
    var p := ValidateJsonParsable(text, parse);
    if !p.valid {
      return Ok(OutputCheck(false, [p.error.value], FText(text)));
    }
    r := RepairDecoded(p.parsed.value, fmt.value);
  }

  /** The rest of validate_llm_output: backfill required fields, then empty
      values, each step able to clear `is_valid`. */
  method RepairDecoded(parsed: Json, schema: string) returns (r: Result<OutputCheck>)
    ensures r == RepairTree(parsed, schema)
  {
    var isValid := true;
    var errorMessages: seq<string> := [];
    var parsedJson := parsed;
    ghost var required := ValidateRequiredFields(parsed, schema);
    if RequiredFields(schema).Some? {
      var fields := ValidateRequiredFields(parsedJson, schema);
      if fields.Err? {
        return Err(fields.reason);
      }
      if !fields.value.valid {
        isValid := false;
        errorMessages := errorMessages + [fields.value.error.value];
        parsedJson := fields.value.fixed;
      }
    }
    ghost var errs := if required.value.valid then [] else [required.value.error.value];
    assert errorMessages == errs;
    assert parsedJson == required.value.fixed;
    var empty := ValidateEmptyValues(parsedJson);
    if empty.Err? {
      return Err(empty.reason);
    }
    if !empty.value.valid {
      isValid := false;
      errorMessages := errorMessages + [empty.value.error.value];
      parsedJson := empty.value.fixed;
    } else {
      assert errorMessages == errs + [];
    }
    assert parsedJson == empty.value.fixed;
    return Ok(OutputCheck(isValid, errorMessages, FJson(parsedJson)));
  }

  /** A format outside the four JSON ones passes the text through as valid. */
  lemma OutputPassThrough(text: string, fmt: Option<string>, parse: string -> ParseResult)
    requires !IsJsonFormat(fmt)
    ensures OutputContract(text, fmt, parse) == Ok(OutputCheck(true, [], FText(text)))
  {
  }

  /** A decoding failure keeps the original text and reports one error. */
  lemma OutputParseFailure(text: string, fmt: Option<string>, parse: string -> ParseResult)
    requires IsJsonFormat(fmt) && parse(JsonCandidate(text)).ParseFailed?
    ensures var r := OutputContract(text, fmt, parse);
      r.Ok? && !r.value.valid && |r.value.errors| == 1 && r.value.fixed == FText(text)
  {
  }

  /** The `json` format runs only the empty-value check. */
  lemma JsonFormatOnlyEmpties(fs: seq<Field>)
    ensures var r := RepairTree(JObject(fs), "json");
      && r.Ok?
      && (r.value.valid <==> FieldsFilled(fs))
      && r.value.fixed == FJson(CheckEmpty(JObject(fs), "").value)
  {
    var v := JObject(fs);
    assert ValidateRequiredFields(v, "json") == Ok(FieldsCheck(true, None, v)) by {
      NoSchemaForJson();
    }
    assert ValidateEmptyValues(v).value.fixed == CheckEmpty(v, "").value;
  }

  lemma NoSchemaForJson()
    ensures RequiredFields("json").None?
  {
    assert "json"[0] != "plan"[0];
  }

  /** With every required field present the required-field check passes. */
  lemma NothingMissing(fs: seq<Field>, schema: string)
    requires RequiredFields(schema).Some?
    requires forall f :: f in RequiredFields(schema).value ==> HasKey(fs, f)
    ensures ValidateRequiredFields(JObject(fs), schema) == Ok(FieldsCheck(true, None, JObject(fs)))
  {
    var missing := MissingFields(RequiredFields(schema).value, JObject(fs)).value;
    assert forall f :: f !in missing;
  }

  /** A decoded dict comes out with every required field of its schema and no
      empty value anywhere. */
  lemma RepairTreeComplete(fs: seq<Field>, schema: string)
    ensures var r := RepairTree(JObject(fs), schema);
      && r.Ok? && r.value.fixed.value.JObject?
      && NoEmptyFields(r.value.fixed.value)
      && (RequiredFields(schema).Some? ==>
            forall f :: f in RequiredFields(schema).value ==> HasKey(r.value.fixed.value.fields, f))
  {
    var fc := ValidateRequiredFields(JObject(fs), schema).value;
    if RequiredFields(schema).Some? {
      RequiredFieldsBackfill(fs, schema);
    }
    assert fc.fixed.JObject?;
    var w := CheckEmpty(fc.fixed, "");
    assert Keys(w.value.fields) == Keys(fc.fixed.fields);
  }

  /** Repairing an already repaired dict reports valid and changes nothing:
      there are no phantom repairs. */
  lemma RepairTreeIdempotent(fs: seq<Field>, schema: string)
    ensures var once := RepairTree(JObject(fs), schema).value.fixed;
      RepairTree(once.value, schema) == Ok(OutputCheck(true, [], once))
  {
    RepairTreeComplete(fs, schema);
    var once := RepairTree(JObject(fs), schema).value.fixed.value;
    if RequiredFields(schema).Some? {
      NothingMissing(once.fields, schema);
    }
  }

  /** Feeding the contract a text that decodes to its own repaired output
      reports valid with the same output. */
  lemma OutputIdempotent(text: string, text': string, fmt: Option<string>, parse: string -> ParseResult, fs: seq<Field>)
    requires IsJsonFormat(fmt) && parse(JsonCandidate(text)) == Parsed(JObject(fs))
    requires parse(JsonCandidate(text')) == Parsed(RepairTree(JObject(fs), fmt.value).value.fixed.value)
    ensures var once := OutputContract(text, fmt, parse).value.fixed;
      OutputContract(text', fmt, parse) == Ok(OutputCheck(true, [], once))
  {
    RepairTreeIdempotent(fs, fmt.value);
  }

  /** apply_heuristics_to_llm_call's report. */
  datatype CallReport = CallReport(input: InputCheck, output: OutputCheck, overallValid: bool)

  function ApplyHeuristics(inputText: string, outputText: string, fmt: Option<string>,
                           scan: Scanner, parse: string -> ParseResult): (r: Result<CallReport>)
    ensures r.Ok? <==> OutputContract(outputText, fmt, parse).Ok?
    ensures r.Ok? ==> (r.value.overallValid <==> r.value.input.errors == [] && r.value.output.valid)
    ensures r.Ok? ==> r.value.input == InputGuard(inputText, scan)
                      && r.value.output == OutputContract(outputText, fmt, parse).value
    ensures r.Err? ==> r.reason == OutputContract(outputText, fmt, parse).reason
  {
    InputGuardValidIffNoErrors(inputText, scan);
    var input := InputGuard(inputText, scan);
    match OutputContract(outputText, fmt, parse)
    case Err(e) => Err(e)
    case Ok(output) => Ok(CallReport(input, output, input.valid && output.valid))
  }
}
