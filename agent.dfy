/** The prompt side of the agent (`buildHistoryContext`, the state block, the full
    prompt) and `generateForgeResponse`, which sends the prompt to the endpoint and
    hands back the reply's `text`. */
module Agent {

  import opened Wrappers
  import opened Text
  import opened JsValue
  import opened Types
  import opened Proxy

  const MasterSystemPrompt: string :=
    "\nYou are ForgeAI, an elite fitness intelligence agent. \n"
    + "Your goal is to construct hyper-personalized, progressive, and scientifically optimal workout plans.\n"
    + "Structure your response as a JSON object with: \n"
    + "- 'phase' (current training phase: Hypertrophy, Strength, Metabolic, etc)\n"
    + "- 'rationale' (why this workout today?)\n"
    + "- 'warmup' (list of exercises)\n"
    + "- 'mainBlock' (list of compound movements with sets/reps/RPE)\n"
    + "- 'accessoryBlock' (list of isolation movements)\n"
    + "- 'conditioning' (optional cardio/finishers)\n"
    + "- 'fatigueLevel' (estimated CNS fatigue rating: low, medium, high)\n"
    + "DO NOT use markdown formatting. Return raw JSON only.\n"

  // ---------------------------------------------------------------- history context

  /** `history.slice(-7)`: the last seven entries of the array (all of it when shorter). */
  function Recent(history: seq<HistoryEntry>): (r: seq<HistoryEntry>)
    ensures |r| == if |history| < 7 then |history| else 7
    ensures r == history[|history| - |r|..]
  {
    if |history| < 7 then history else history[|history| - 7..]
  }

  /** The object one entry is summarised by. `workout?.title` is `undefined` for a
      missing workout, and `JSON.stringify` then leaves the key out. */
  function Summary(e: HistoryEntry): Value {
    Obj([("date", Str(e.date)),
         ("workout_title", GetOpt(e.workout, "title")),
         ("status", Str(e.status.Name())),
         ("difficulty_rating", Num(e.difficulty))])
  }

  function SummaryLine(e: HistoryEntry): (r: string)
    ensures Free(r, '\n')
    ensures |r| > 0 && r[0] == '{' && r[|r| - 1] == '}'
  {
    StringifyHasNoNewline(Summary(e));
    var r := Stringify(Summary(e));
    assert r == "{" + Join(",", StringifyMembers(Summary(e), 0)) + "}";
    r
  }

  function SummaryLines(es: seq<HistoryEntry>): (r: seq<string>)
    ensures |r| == |es|
    ensures forall i :: 0 <= i < |es| ==> r[i] == SummaryLine(es[i])
  {
    if |es| == 0 then [] else [SummaryLine(es[0])] + SummaryLines(es[1..])
  }

  /** `buildHistoryContext(history)` */
  function HistoryContext(history: seq<HistoryEntry>): string {
    if |Recent(history)| == 0 then "None" else Join("\n", SummaryLines(Recent(history)))
  }

  lemma {:induction false} JoinEnds(sep: string, xs: seq<string>)
    requires |xs| > 0 && forall k :: 0 <= k < |xs| ==> |xs[k]| > 0
    ensures var j := Join(sep, xs); |j| > 0 && j[0] == xs[0][0] && j[|j| - 1] == xs[|xs| - 1][|xs[|xs| - 1]| - 1]
  {
    if |xs| > 1 {
      JoinEnds(sep, xs[1..]);
    }
  }

  /** The context is "None" for an empty history; otherwise it splits at line breaks
      into exactly one JSON summary per entry of the last seven, oldest first. */
  lemma HistoryContextLines(history: seq<HistoryEntry>)
    ensures |history| == 0 ==> HistoryContext(history) == "None"
    ensures |history| > 0 ==> Split(HistoryContext(history), '\n') == SummaryLines(Recent(history))
    ensures |history| > 0 ==> |Split(HistoryContext(history), '\n')| == if |history| < 7 then |history| else 7
  {
    if |history| > 0 {
      var lines := SummaryLines(Recent(history));
      assert "\n" == ['\n'];
      SplitJoin(lines, '\n');
    }
  }

  /** Joined with line breaks, the summaries of a non-empty list start with the first
      summary's `{` and end with the last one's `}`. */
  lemma JoinedSummariesEnds(es: seq<HistoryEntry>)
    requires |es| > 0
    ensures var c := Join("\n", SummaryLines(es)); |c| > 0 && c[0] == '{' && c[|c| - 1] == '}'
  {
    var lines := SummaryLines(es);
    forall k | 0 <= k < |lines|
      ensures |lines[k]| > 0
    {
      assert lines[k] == SummaryLine(es[k]);
    }
    JoinEnds("\n", lines);
    assert lines[0] == SummaryLine(es[0]);
    assert lines[|lines| - 1] == SummaryLine(es[|es| - 1]);
  }

  /** The context ends in "None"'s `e` or in the last summary's `}`, and a non-empty
      history's context starts with the first summary's `{`. */
  lemma HistoryContextLast(history: seq<HistoryEntry>)
    ensures var c := HistoryContext(history); |c| > 0 && (c[|c| - 1] == '}' || c[|c| - 1] == 'e')
    ensures |history| > 0 ==> HistoryContext(history)[0] == '{'
  {
    if |history| > 0 {
      HistoryContextNonEmpty(history);
    } else {
      assert HistoryContext(history) == "None";
    }
  }

  lemma HistoryContextNonEmpty(history: seq<HistoryEntry>)
    requires |history| > 0
    ensures var c := HistoryContext(history); |c| > 0 && c[0] == '{' && c[|c| - 1] == '}'
  {
    var es := Recent(history);
    JoinedSummariesEnds(es);
  }

  lemma EndIsNotWhitespace(c: string)
    requires |c| > 0 && (c[|c| - 1] == '}' || c[|c| - 1] == 'e')
    ensures !IsWhitespace(c[|c| - 1])
  {
  }

  /** The context never ends in whitespace: it ends in "None" or in a summary's `}`. */
  lemma HistoryContextEnd(history: seq<HistoryEntry>)
    ensures var c := HistoryContext(history); |c| > 0 && !IsWhitespace(c[|c| - 1])
    ensures |history| > 0 ==> HistoryContext(history)[0] == '{'
  {
    HistoryContextLast(history);
    EndIsNotWhitespace(HistoryContext(history));
  }

  /** The working history is kept newest first, so once it holds seven entries a new
      session prepended to it does not change the context: the agent is shown the
      seven oldest entries of the list. */
  lemma NewestSessionNotShown(e: HistoryEntry, history: seq<HistoryEntry>)
    requires |history| >= 7
    ensures HistoryContext([e] + history) == HistoryContext(history)
  {
    var h := [e] + history;
    assert h[|h| - 7..] == history[|history| - 7..];
  }

  // ---------------------------------------------------------------- the prompt

  /** The values of `currentContext`. */
  datatype Context = Context(phase: Value, consistency: int, fatigue: Value)

  /** `profile.limitations || 'None'` */
  function LimitationsText(limitations: string): string {
    if limitations == "" then "None" else limitations
  }

  /** The lines of the state block after its "User Profile:" header and before the
      history context. */
  function StateFields(profile: UserProfile, ctx: Context): string {
    "- Goal: " + profile.goal + "\n"
    + "- Level: " + profile.level.Name() + "\n"
    + "- Equipment: " + Join(", ", profile.equipment) + "\n"
    + "- Injuries/Limitations: " + LimitationsText(profile.limitations) + "\n"
    + "- Availability: " + profile.availability + "\n"
    + "\n"
    + "Global Phase: " + ToJsString(ctx.phase) + "\n"
    + "Consistency Score: " + IntToString(ctx.consistency) + "%\n"
    + "Fatigue Level: " + ToJsString(ctx.fatigue) + "\n"
    + "Recent History:\n"
  }

  /** The state block from "User Profile:" to the history context, as it reads once
      the template's framing line breaks are gone. */
  function StateBody(profile: UserProfile, ctx: Context, historyContext: string): string {
    "User Profile:\n" + StateFields(profile, ctx) + historyContext
  }

  /** `stateContext`: the template literal, line breaks included, then trimmed. */
  function StateContext(profile: UserProfile, ctx: Context, history: seq<HistoryEntry>): string {
    Trim("\n" + StateBody(profile, ctx, HistoryContext(history)) + "\n")
  }

  lemma TrimFramed(fields: string, historyContext: string)
    requires |historyContext| > 0 && !IsWhitespace(historyContext[|historyContext| - 1])
    ensures var b := "User Profile:\n" + fields + historyContext; Trim("\n" + b + "\n") == b
  {
    var b := "User Profile:\n" + fields + historyContext;
    assert b[0] == 'U';
    assert b[|b| - 1] == historyContext[|historyContext| - 1];
    var t := "\n" + b + "\n";
    assert t[1..] == b + "\n";
    assert TrimStart(t) == b + "\n";
    assert (b + "\n")[..|b|] == b;
    assert TrimEnd(b + "\n") == TrimEnd(b);
    TrimNoOp(b);
  }

  /** Trimming removes exactly the template's first and last line break: the block
      starts with "User Profile:" and the history context ends in a non-space. */
  lemma StateContextIsBody(profile: UserProfile, ctx: Context, history: seq<HistoryEntry>)
    ensures StateContext(profile, ctx, history) == StateBody(profile, ctx, HistoryContext(history))
  {
    HistoryContextEnd(history);
    TrimFramed(StateFields(profile, ctx), HistoryContext(history));
  }

  lemma ConcatEnds(a: string, b: string, c: string, d: string, e: string)
    ensures var p := a + b + c + d + e;
      StartsWith(p, a) && |p| >= |e| && p[|p| - |e|..] == e
  {
    var p := a + b + c + d + e;
    assert p == a + (b + c + d + e);
    assert p[..|a|] == a;
  }

  const StateHeader: string := "\n\nCURRENT AGENT STATE:\n"
  const InputHeader: string := "\n\nUSER INPUT:\n"

  /** `fullPrompt` */
  function FullPrompt(userInput: string, profile: UserProfile, history: seq<HistoryEntry>, ctx: Context): string {
    MasterSystemPrompt + StateHeader + StateContext(profile, ctx, history)
    + InputHeader + userInput
  }

  /** The prompt is the system prompt, the "CURRENT AGENT STATE:" header, the state
      block without its framing line breaks, and the user's input after the
      "USER INPUT:" header. */
  lemma FullPromptLayout(userInput: string, profile: UserProfile, history: seq<HistoryEntry>, ctx: Context)
    ensures FullPrompt(userInput, profile, history, ctx)
      == MasterSystemPrompt + StateHeader + StateBody(profile, ctx, HistoryContext(history)) + InputHeader + userInput
  {
    StateContextIsBody(profile, ctx, history);
  }

  /** The prompt starts with the system prompt and ends with the user's input. */
  lemma FullPromptEnds(userInput: string, profile: UserProfile, history: seq<HistoryEntry>, ctx: Context)
    ensures var p := FullPrompt(userInput, profile, history, ctx);
      && StartsWith(p, MasterSystemPrompt)
      && |p| >= |userInput| && p[|p| - |userInput|..] == userInput
  {
    ConcatEnds(MasterSystemPrompt, StateHeader, StateContext(profile, ctx, history), InputHeader, userInput);
  }

  /** Empty limitations are shown as "None", any others as written. */
  lemma LimitationsShown(limitations: string)
    ensures limitations == "" ==> LimitationsText(limitations) == "None"
    ensures limitations != "" ==> LimitationsText(limitations) == limitations
  {
  }

  // ---------------------------------------------------------------- the call

  /** What `generateForgeResponse` resolves (`{ text: data.text }`, whatever `text`
      holds) or rejects with. A non-ok reply is read as JSON and rejected with its
      `details || error || 'Failed to communicate with AI agent'`, as `new Error`
      converts it to a string. */
  function ForgeOutcome(reply: Reply, parse: string -> Option<Value>): Result<Value, Failure> {
    match reply
    case Unreachable => Err(Engine(TypeError))
    case Response(status, body) =>
      match parse(body)
      case None => Err(Engine(SyntaxError))
      case Some(data) =>
        if !IsOk(status) then
          match Get(data, "details")
          case None => Err(Engine(TypeError))
          case Some(details) =>
            Err(Rejected(ToJsString(Or(Or(details, GetOpt(data, "error")), Str("Failed to communicate with AI agent")))))
        else
          match Get(data, "text")
          case None => Err(Engine(TypeError))
          case Some(text) => Ok(text)
  }

  /** What `generateForgeResponse` does with the endpoint's reply. */
  method ReadForgeReply(response: Reply, parse: string -> Option<Value>) returns (r: Result<Value, Failure>)
    ensures r == ForgeOutcome(response, parse)
  {
    if response.Unreachable? {
      return Err(Engine(TypeError));
    }
    var data := parse(response.body);
    if data.None? {
      return Err(Engine(SyntaxError));
    }
    if !IsOk(response.status) {
      var details := Get(data.value, "details");
      if details.None? {
        return Err(Engine(TypeError));
      }
      var message := Or(Or(details.value, GetOpt(data.value, "error")), Str("Failed to communicate with AI agent"));
      return Err(Rejected(ToJsString(message)));
    }
    var text := Get(data.value, "text");
    if text.None? {
      return Err(Engine(TypeError));
    }
    r := Ok(text.value);
  }

  /** `generateForgeResponse(userInput, profile, history, currentContext)`. `prompt` is
      the one request sent to the endpoint. */
  method GenerateForgeResponse(userInput: string, profile: UserProfile, history: seq<HistoryEntry>, ctx: Context,
                               agent: string -> Reply, parse: string -> Option<Value>)
    returns (r: Result<Value, Failure>, prompt: string)
    ensures prompt == FullPrompt(userInput, profile, history, ctx)
    ensures r == ForgeOutcome(agent(prompt), parse)
  {
    prompt := FullPrompt(userInput, profile, history, ctx);
    var response := agent(prompt);
    r := ReadForgeReply(response, parse);
  }

  /** An error reply with no `details` or `error` is rejected with the fixed message;
      a string `details` is the message. */
  lemma RejectionMessages(status: int, body: string, parse: string -> Option<Value>)
    requires !IsOk(status) && parse(body).Some? && parse(body).value.Obj?
    ensures var data := parse(body).value;
      !Truthy(GetOpt(data, "details")) && !Truthy(GetOpt(data, "error")) ==>
        ForgeOutcome(Response(status, body), parse) == Err(Rejected("Failed to communicate with AI agent"))
    ensures var data := parse(body).value;
      GetOpt(data, "details").Str? && GetOpt(data, "details").s != "" ==>
        ForgeOutcome(Response(status, body), parse) == Err(Rejected(GetOpt(data, "details").s))
  {
  }

  /** An ok reply resolves with its `text` as it is, even when that is not a string. */
  lemma OkReplyPassesText(status: int, body: string, parse: string -> Option<Value>)
    requires IsOk(status) && parse(body).Some? && parse(body).value.Obj?
    ensures ForgeOutcome(Response(status, body), parse) == Ok(GetOpt(parse(body).value, "text"))
  {
  }
}
