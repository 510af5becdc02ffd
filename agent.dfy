/** The console driver (agent.py, `main`): an outer loop that reads a line
    and handles the `exit` and `new` commands, and an inner loop that runs
    the agent on the line, keeps the session id it first sees, and either
    ends the turn or re-enters with the text the agent asked to process
    further. The agent loop itself, the context's session-id choice and the
    input lines arrive as parameters; what `main` prints is kept as a list
    of shown answers. */
module Agent {
  import opened Wrappers
  import opened Text
  import opened JsonData
  import opened Heuristics
  import History

  const FinalMarker: string := History.AnswerMarker
  const FurtherMarker: string := "FURTHER_PROCESSING_REQUIRED:"
  const ExitCommand: string := "exit"
  const NewCommand: string := "new"
  /** `input()` past the last line raises, and only an interrupt is caught. */
  const EndOfInput: string := "EOFError"
  const NoResultKey: string := "KeyError: 'result'"

  /** What one `AgentLoop.run()` produces: a dict, anything else (by its
      printed form), or an exception. */
  datatype RunResult = DictResult(fields: seq<Field>) | OtherResult(repr: string) | RunRaised(reason: string)

  /** What `main` prints for a finished or re-entered turn. */
  datatype Shown = FinalAnswer(text: string) | FurtherProcessing(input: string) | RawAnswer(answer: Json)
                 | Unexpected(repr: string)

  datatype Phase = Prompting | Solving(input: string) | Stopped | Crashed(reason: string)

  /** The driver's variables: the session, the lines still to read, the
      number of contexts made so far, what was printed, and where it is. */
  datatype State = State(session: Option<string>, pending: seq<string>, contexts: nat, shown: seq<Shown>, phase: Phase)

  function Start(inputs: seq<string>): State {
    State(None, inputs, 0, [], Prompting)
  }

  predicate Terminal(p: Phase) {
    p.Stopped? || p.Crashed?
  }

  /** `current_session` taken as a truth value. */
  predicate HasSession(session: Option<string>) {
    session.Some? && session.value != ""
  }

  // ------------------------------------------------------ reading answers

  /** `s.split(m)[1]`: the text after the first `m`, up to the next `m` or
      the end. */
  function SecondPart(s: string, m: string): (r: string)
    requires |m| > 0 && Contains(s, m)
  {
    UpToFirst(s[IndexOf(s, m).value + |m|..], m)
  }

  /** The text before the first `m`, or all of it. */
  function UpToFirst(after: string, m: string): string {
    match IndexOf(after, m)
    case Some(j) => after[..j]
    case None => after
  }

  /** The second part starts right after the first marker (the first by
      `IndexOf`'s contract), holds no marker itself, and runs to the end or
      to the next marker. */
  lemma SecondPartSpec(s: string, m: string)
    requires |m| > 0 && Contains(s, m)
    ensures var i := IndexOf(s, m).value;
      var r := SecondPart(s, m);
      && i + |m| <= |s|
      && StartsWith(s[i + |m|..], r) && !Contains(r, m)
      && (r == s[i + |m|..] || OccursAt(s[i + |m|..], m, |r|))
  {
    var i := IndexOf(s, m).value;
    SecondPartIs(s, m, i);
    AfterFirst(s[i + |m|..], m);
  }

  lemma SecondPartIs(s: string, m: string, i: nat)
    requires |m| > 0 && Contains(s, m) && i == IndexOf(s, m).value && i + |m| <= |s|
    ensures SecondPart(s, m) == UpToFirst(s[i + |m|..], m)
  {
  }

  /** Cutting at the first occurrence of `m`, if any, leaves a prefix
      without `m` that is followed by `m` or ends the text. */
  lemma AfterFirst(after: string, m: string)
    requires |m| > 0
    ensures var r := UpToFirst(after, m);
      && StartsWith(after, r) && !Contains(r, m)
      && (r == after || OccursAt(after, m, |r|))
  {
    match IndexOf(after, m)
    case Some(j) =>
      PrefixBeforeFirst(after, m, j);
    case None =>
      PrefixBeforeFirst(after, m, |after|);
      assert after[..|after|] == after;
  }

  /** How `main` reads the agent's answer. */
  datatype Verdict = Final(text: string) | Continue(input: string) | Raw(answer: Json)

  function NoSplitMessage(v: Json): string {
    "AttributeError: '" + TypeName(v) + "' object has no attribute 'split'"
  }

  /** The final-answer test comes first; `in` and `split` may raise on an
      answer that is not a string. */
  function Classify(answer: Json): (r: Result<Verdict>)
    ensures answer.JString? ==> r.Ok?
    ensures answer.JString? && Contains(answer.s, FinalMarker) ==>
      r == Ok(Final(Strip(SecondPart(answer.s, FinalMarker))))
    ensures answer.JString? && !Contains(answer.s, FinalMarker) && Contains(answer.s, FurtherMarker) ==>
      r == Ok(Continue(Strip(SecondPart(answer.s, FurtherMarker))))
    ensures answer.JString? && !Contains(answer.s, FinalMarker) && !Contains(answer.s, FurtherMarker) ==>
      r == Ok(Raw(answer))
  {
    match PyIn(FinalMarker, answer)
    case Err(e) => Err(e)
    case Ok(final) =>
      if final then
        if answer.JString? then Ok(Final(Strip(SecondPart(answer.s, FinalMarker)))) else Err(NoSplitMessage(answer))
      else
        match PyIn(FurtherMarker, answer)
        case Err(e) => Err(e)
        case Ok(further) =>
          if further then
            if answer.JString? then Ok(Continue(Strip(SecondPart(answer.s, FurtherMarker)))) else Err(NoSplitMessage(answer))
          else Ok(Raw(answer))
  }

  // ----------------------------------------------------------- the steps

  /** The session handed to a context, the session kept afterwards, and
      the run's input, for the `k`-th context. */
  function Captured(session: Option<string>, contextSession: string): (r: Option<string>)
    ensures HasSession(session) ==> r == session
    ensures !HasSession(session) ==> r == Some(contextSession)
  {
    if HasSession(session) then session else Some(contextSession)
  }

  /** One step of `main`: read one line at the prompt, or run the agent
      once on the current input. `sessionOf(s, k)` is the session id of the
      `k`-th context made with session `s`; `run(input, id, k)` is what its
      agent loop returns. */
  function Step(st: State, run: (string, string, nat) -> RunResult, sessionOf: (Option<string>, nat) -> string): State {
    match st.phase
    case Stopped => st
    case Crashed(_) => st
    case Prompting =>
      if st.pending == [] then st.(phase := Crashed(EndOfInput))
      else
        var line := st.pending[0];
        var st1 := st.(pending := st.pending[1..]);
        if Lower(line) == ExitCommand then st1.(phase := Stopped)
        else if Lower(line) == NewCommand then st1.(session := None)
        else st1.(phase := Solving(line))
    case Solving(input) =>
      var k := st.contexts;
      var contextSession := sessionOf(st.session, k);
      var reaction := React(run(input, contextSession, k));
      st.(session := Captured(st.session, contextSession), contexts := k + 1,
          shown := st.shown + reaction.0, phase := reaction.1)
  }

  /** How `main` takes what one run returned: the lines it prints and
      where it goes next. */
  function React(result: RunResult): (r: (seq<Shown>, Phase))
    ensures |r.0| <= 1 && !r.1.Stopped?
    ensures r.1.Solving? <==> (r.0 != [] && r.0[0].FurtherProcessing?)
  {
    match result
    case RunRaised(e) => ([], Crashed(e))
    case OtherResult(repr) => ([Unexpected(repr)], Prompting)
    case DictResult(fs) =>
      match Lookup(fs, "result")
      case None => ([], Crashed(NoResultKey))
      case Some(answer) => Reading(Classify(answer))
  }

  /** What `main` prints, and where it goes, for an answer read. */
  function Reading(verdict: Result<Verdict>): (r: (seq<Shown>, Phase))
    ensures |r.0| <= 1 && !r.1.Stopped?
    ensures r.1.Solving? <==> (r.0 != [] && r.0[0].FurtherProcessing?)
  {
    match verdict
    case Err(e) => ([], Crashed(e))
    case Ok(Final(text)) => ([FinalAnswer(text)], Prompting)
    case Ok(Continue(next)) => ([FurtherProcessing(next)], Solving(next))
    case Ok(Raw(a)) => ([RawAnswer(a)], Prompting)
  }

  /** `n` steps, staying put once stopped or crashed. */
  function Steps(st: State, n: nat, run: (string, string, nat) -> RunResult,
                 sessionOf: (Option<string>, nat) -> string): State
    decreases n
  {
    if n == 0 then st else Steps(Step(st, run, sessionOf), n - 1, run, sessionOf)
  }

  lemma {:induction false} StepsLast(st: State, n: nat, run: (string, string, nat) -> RunResult,
                                     sessionOf: (Option<string>, nat) -> string)
    ensures Steps(st, n + 1, run, sessionOf) == Step(Steps(st, n, run, sessionOf), run, sessionOf)
    decreases n
  {
    if n > 0 {
      StepsLast(Step(st, run, sessionOf), n - 1, run, sessionOf);
    }
  }

  /** A stopped or crashed driver does nothing more. */
  lemma {:induction false} StepsStay(st: State, n: nat, m: nat, run: (string, string, nat) -> RunResult,
                                     sessionOf: (Option<string>, nat) -> string)
    requires n <= m && Terminal(Steps(st, n, run, sessionOf).phase)
    ensures Steps(st, m, run, sessionOf) == Steps(st, n, run, sessionOf)
    decreases m
  {
    if m > n {
      StepsStay(st, n, m - 1, run, sessionOf);
      StepsLast(st, m - 1, run, sessionOf);
    }
  }

  // --------------------------------------------------------- properties

  /** `exit`, in any case, ends the conversation without running anything. */
  lemma ExitStops(st: State, run: (string, string, nat) -> RunResult, sessionOf: (Option<string>, nat) -> string)
    requires st.phase == Prompting && st.pending != [] && Lower(st.pending[0]) == ExitCommand
    ensures var next := Step(st, run, sessionOf);
      && next == st.(pending := st.pending[1..], phase := Stopped)
      && forall n: nat :: Steps(next, n, run, sessionOf) == next
  {
    var next := Step(st, run, sessionOf);
    forall n: nat ensures Steps(next, n, run, sessionOf) == next {
      StepsStay(next, 0, n, run, sessionOf);
    }
  }

  /** `new`, in any case, forgets the session and waits for the next line;
      no context is made and nothing is shown. */
  lemma NewForgetsSession(st: State, run: (string, string, nat) -> RunResult, sessionOf: (Option<string>, nat) -> string)
    requires st.phase == Prompting && st.pending != [] && Lower(st.pending[0]) == NewCommand
    ensures Step(st, run, sessionOf) == st.(pending := st.pending[1..], session := None)
  {
    assert Lower(NewCommand) != ExitCommand;
  }

  /** Any other line starts a turn on that line, as typed. */
  lemma LineStartsTurn(st: State, run: (string, string, nat) -> RunResult, sessionOf: (Option<string>, nat) -> string)
    requires st.phase == Prompting && st.pending != []
    requires Lower(st.pending[0]) != ExitCommand && Lower(st.pending[0]) != NewCommand
    ensures Step(st, run, sessionOf) == st.(pending := st.pending[1..], phase := Solving(st.pending[0]))
  {
  }

  /** Every run gets the session the driver holds; the first one it sees is
      kept, and a held session is never replaced while solving. */
  lemma SessionCaptured(st: State, run: (string, string, nat) -> RunResult, sessionOf: (Option<string>, nat) -> string)
    requires st.phase.Solving?
    ensures var next := Step(st, run, sessionOf);
      && next.contexts == st.contexts + 1
      && next.pending == st.pending
      && (HasSession(st.session) ==> next.session == st.session)
      && (!HasSession(st.session) ==> next.session == Some(sessionOf(st.session, st.contexts)))
  {
  }

  /** Only `new` ever drops a held session. */
  lemma SessionDroppedOnlyByNew(st: State, run: (string, string, nat) -> RunResult, sessionOf: (Option<string>, nat) -> string)
    requires HasSession(st.session) && Step(st, run, sessionOf).session != st.session
    ensures st.phase == Prompting && st.pending != [] && Lower(st.pending[0]) == NewCommand
  {
  }

  /** A dict answer carrying the final marker ends the turn with the text
      between the first marker and the next, even when it also asks for
      further processing. */
  lemma FinalTakesPrecedence(st: State, run: (string, string, nat) -> RunResult,
                             sessionOf: (Option<string>, nat) -> string, answer: string)
    requires st.phase.Solving?
    requires var r := run(st.phase.input, sessionOf(st.session, st.contexts), st.contexts);
      r.DictResult? && Lookup(r.fields, "result") == Some(JString(answer))
    requires Contains(answer, FinalMarker)
    ensures var next := Step(st, run, sessionOf);
      && next.phase == Prompting
      && next.shown == st.shown + [FinalAnswer(Strip(SecondPart(answer, FinalMarker)))]
  {
  }

  /** A dict answer asking for further processing (and not final) re-enters
      the turn on the text after the marker, with the same session. */
  lemma ContinueReenters(st: State, run: (string, string, nat) -> RunResult,
                         sessionOf: (Option<string>, nat) -> string, answer: string)
    requires st.phase.Solving?
    requires var r := run(st.phase.input, sessionOf(st.session, st.contexts), st.contexts);
      r.DictResult? && Lookup(r.fields, "result") == Some(JString(answer))
    requires !Contains(answer, FinalMarker) && Contains(answer, FurtherMarker)
    ensures var next := Step(st, run, sessionOf);
      var u := Strip(SecondPart(answer, FurtherMarker));
      && next.phase == Solving(u)
      && next.shown == st.shown + [FurtherProcessing(u)]
      && next.session == Captured(st.session, sessionOf(st.session, st.contexts))
      && next.pending == st.pending
  {
    ReactContinue(run(st.phase.input, sessionOf(st.session, st.contexts), st.contexts), answer);
  }

  lemma ReactContinue(result: RunResult, answer: string)
    requires result.DictResult? && Lookup(result.fields, "result") == Some(JString(answer))
    requires !Contains(answer, FinalMarker) && Contains(answer, FurtherMarker)
    ensures var u := Strip(SecondPart(answer, FurtherMarker));
      React(result) == ([FurtherProcessing(u)], Solving(u))
  {
    var u := Strip(SecondPart(answer, FurtherMarker));
    assert React(result) == Reading(Classify(JString(answer)));
    assert Classify(JString(answer)) == Ok(Continue(u));
  }

  /** Whatever else comes back, the turn ends or the driver fails: a dict
      answer with neither marker is shown raw, and anything but a dict is
      shown as unexpected. */
  lemma OtherAnswersEndTurn(st: State, run: (string, string, nat) -> RunResult, sessionOf: (Option<string>, nat) -> string)
    requires st.phase.Solving?
    ensures var r := run(st.phase.input, sessionOf(st.session, st.contexts), st.contexts);
      var next := Step(st, run, sessionOf);
      && (r.OtherResult? ==> next.phase == Prompting && next.shown == st.shown + [Unexpected(r.repr)])
      && (r.DictResult? && Lookup(r.fields, "result").Some? && Lookup(r.fields, "result").value.JString?
          && !Contains(Lookup(r.fields, "result").value.s, FinalMarker)
          && !Contains(Lookup(r.fields, "result").value.s, FurtherMarker)
          ==> next.phase == Prompting && next.shown == st.shown + [RawAnswer(Lookup(r.fields, "result").value)])
      && (r.DictResult? && Lookup(r.fields, "result").None? ==> next.phase == Crashed(NoResultKey))
  {
  }

  /** From `a` to `b` printing only appended, contexts were only added,
      and input was only consumed from the front. */
  predicate Extends(a: State, b: State) {
    && |a.shown| <= |b.shown| && b.shown[..|a.shown|] == a.shown
    && a.contexts <= b.contexts
    && |b.pending| <= |a.pending| && b.pending == a.pending[|a.pending| - |b.pending|..]
  }

  lemma StepExtends(st: State, run: (string, string, nat) -> RunResult,
                    sessionOf: (Option<string>, nat) -> string)
    ensures Extends(st, Step(st, run, sessionOf))
  {
    if st.phase.Solving? {
      SolvingExtends(st, run, sessionOf);
    } else if st.phase.Prompting? {
      PromptingExtends(st, run, sessionOf);
    } else {
      assert Step(st, run, sessionOf) == st;
      ExtendsSelf(st);
    }
  }

  lemma ExtendsSelf(st: State)
    ensures Extends(st, st)
  {
    assert st.pending == st.pending[|st.pending| - |st.pending|..];
  }

  /** Reading a line consumes at most that line and prints nothing. */
  lemma PromptingExtends(st: State, run: (string, string, nat) -> RunResult,
                         sessionOf: (Option<string>, nat) -> string)
    requires st.phase.Prompting?
    ensures Extends(st, Step(st, run, sessionOf))
  {
    if st.pending == [] {
      ExtendsSelf(st);
    } else {
      assert st.pending[1..] == st.pending[|st.pending| - (|st.pending| - 1)..];
    }
  }

  /** A run appends at most one line and leaves the input alone. */
  lemma SolvingExtends(st: State, run: (string, string, nat) -> RunResult,
                       sessionOf: (Option<string>, nat) -> string)
    requires st.phase.Solving?
    ensures Extends(st, Step(st, run, sessionOf))
  {
    var next := Step(st, run, sessionOf);
    assert next.pending == st.pending[|st.pending| - |next.pending|..];
    if next.shown != st.shown {
      assert next.shown[..|st.shown|] == st.shown;
    }
  }

  lemma ExtendsTrans(a: State, b: State, c: State)
    requires Extends(a, b) && Extends(b, c)
    ensures Extends(a, c)
  {
    assert c.shown[..|a.shown|] == c.shown[..|b.shown|][..|a.shown|];
    assert c.pending == a.pending[|a.pending| - |b.pending|..][|b.pending| - |c.pending|..];
  }

  /** Printing only appends, contexts are only added, and input is only
      consumed, over any number of steps. */
  lemma {:induction false} StepsExtend(st: State, n: nat, run: (string, string, nat) -> RunResult,
                                       sessionOf: (Option<string>, nat) -> string)
    ensures Extends(st, Steps(st, n, run, sessionOf))
    decreases n
  {
    if n > 0 {
      var next := Step(st, run, sessionOf);
      StepExtends(st, run, sessionOf);
      StepsExtend(next, n - 1, run, sessionOf);
      ExtendsTrans(st, next, Steps(st, n, run, sessionOf));
    }
  }

  // ------------------------------------------------------------- the loop

  /** One pass of the inner loop of `main`: make a context (capturing its
      session if none is current), run the agent, read the answer. */
  method RunContext(st: State, run: (string, string, nat) -> RunResult,
                    sessionOf: (Option<string>, nat) -> string)
    returns (next: State)
    requires st.phase.Solving?
    ensures next == Step(st, run, sessionOf)
    ensures next.phase.Prompting? || next.phase.Solving? || next.phase.Crashed?
  {
    var currentSession := st.session;
    var contexts := st.contexts;
    var shown := st.shown;
    var contextSession := sessionOf(currentSession, contexts);
    var k := contexts;
    contexts := contexts + 1;
    if !HasSession(currentSession) {
      currentSession := Some(contextSession);
    }
    var result := run(st.phase.input, contextSession, k);
    var printed, phase := ReadResult(result);
    next := State(currentSession, st.pending, contexts, shown + printed, phase);
  }

  /** The reading of one run's result inside `main`'s inner loop. */
  method ReadResult(result: RunResult) returns (printed: seq<Shown>, phase: Phase)
    ensures (printed, phase) == React(result)
  {
    if result.RunRaised? {
      return [], Crashed(result.reason);
    }
    if result.OtherResult? {
      return [Unexpected(result.repr)], Prompting;
    }
    var answer := Lookup(result.fields, "result");
    if answer.None? {
      return [], Crashed(NoResultKey);
    }
    var verdict := Classify(answer.value);
    if verdict.Err? {
      return [], Crashed(verdict.reason);
    }
    match verdict.value {
      case Final(text) =>
        printed, phase := [FinalAnswer(text)], Prompting;
      case Continue(input) =>
        printed, phase := [FurtherProcessing(input)], Solving(input);
      case Raw(a) =>
        printed, phase := [RawAnswer(a)], Prompting;
    }
  }

  /** `main` over the given input lines, for at most `fuel` steps (a line
      read or a run). Its two loops follow the source; the driver's state
      after them is the state `fuel` steps reach. */
  method Converse(inputs: seq<string>, run: (string, string, nat) -> RunResult,
                  sessionOf: (Option<string>, nat) -> string, fuel: nat)
    returns (final: State)
    ensures final == Steps(Start(inputs), fuel, run, sessionOf)
  {
    var currentSession: Option<string> := None;
    var pending := inputs;
    var contexts: nat := 0;
    var shown: seq<Shown> := [];
    var budget := fuel;
    ghost var taken: nat := 0;
    while budget > 0
      invariant taken + budget == fuel
      invariant State(currentSession, pending, contexts, shown, Prompting) == Steps(Start(inputs), taken, run, sessionOf)
      decreases budget
    {
      StepsLast(Start(inputs), taken, run, sessionOf);
      budget := budget - 1;
      taken := taken + 1;
      if pending == [] {
        final := State(currentSession, pending, contexts, shown, Crashed(EndOfInput));
        StepsStay(Start(inputs), taken, fuel, run, sessionOf);
        return;
      }
      var userInput := pending[0];
      pending := pending[1..];
      if Lower(userInput) == ExitCommand {
        final := State(currentSession, pending, contexts, shown, Stopped);
        StepsStay(Start(inputs), taken, fuel, run, sessionOf);
        return;
      }
      if Lower(userInput) == NewCommand {
        currentSession := None;
        continue;
      }
      var solving := true;
      while solving && budget > 0
        invariant taken + budget == fuel
        invariant solving ==> State(currentSession, pending, contexts, shown, Solving(userInput))
                              == Steps(Start(inputs), taken, run, sessionOf)
        invariant !solving ==> State(currentSession, pending, contexts, shown, Prompting)
                               == Steps(Start(inputs), taken, run, sessionOf)
        decreases budget
      {
        StepsLast(Start(inputs), taken, run, sessionOf);
        budget := budget - 1;
        taken := taken + 1;
        var st := RunContext(State(currentSession, pending, contexts, shown, Solving(userInput)), run, sessionOf);
        currentSession, contexts, shown := st.session, st.contexts, st.shown;
        match st.phase {
          case Solving(next) =>
            userInput := next;
          case Prompting =>
            solving := false;
          case Crashed(_) =>
            final := st;
            StepsStay(Start(inputs), taken, fuel, run, sessionOf);
            return;
          case Stopped =>
            assert false;
        }
      }
      if solving {
        return State(currentSession, pending, contexts, shown, Solving(userInput));
      }
    }
    return State(currentSession, pending, contexts, shown, Prompting);
  }
}
