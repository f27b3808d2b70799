/** `getStructuredWorkout`: turning the agent's free-form reply into a WorkoutPlan.
    A local stage (fence stripping, brace slicing, `JSON.parse`, defaulting) is tried
    first; if any of it throws, exactly one remote re-extraction is requested and its
    reply goes through the same cleaning and defaulting. `JSON.parse` is the parameter
    `parse` (None is a SyntaxError) and the agent endpoint the parameter `agent`. */
module PlanParser {

  import opened Wrappers
  import opened Text
  import opened JsValue
  import opened Types
  import opened Normalize
  import opened Proxy

  const JsonFence: string := "```json"

  // ---------------------------------------------------------------- cleaning

  /** `.replace(/```json/g, '').replace(/```/g, '').trim()` */
  function StripFences(s: string): string {
    Trim(RemoveAll(RemoveAll(s, JsonFence), Fence))
  }

  /** The cleaned text contains no "```", is no longer than the input and has no
      whitespace at either end. */
  lemma StripFencesClean(s: string)
    ensures var r := StripFences(s);
      && NoFence(r)
      && |r| <= |s|
      && (r == [] || (!IsWhitespace(r[0]) && !IsWhitespace(r[|r| - 1])))
  {
    var u := RemoveAll(RemoveAll(s, JsonFence), Fence);
    RemoveFenceLeavesNone(RemoveAll(s, JsonFence));
    var a := |u| - |TrimStart(u)|;
    NoFenceInfix(u, a, a + |Trim(u)|);
  }

  /** The local stage's slice: `cleaned.substring(start, end + 1)` when the text has a
      `{` and a `}`, the text itself otherwise. */
  function LocalSlice(c: string): string {
    var start := IndexOf(c, '{');
    var end := LastIndexOf(c, '}');
    if start != -1 && end != -1 then Substring(c, start, end + 1) else c
  }

  /** Without a `{` or a `}` the text is unchanged. */
  lemma LocalSliceKeepsUnbraced(c: string)
    requires IndexOf(c, '{') == -1 || LastIndexOf(c, '}') == -1
    ensures LocalSlice(c) == c
  {
  }

  /** When the last `}` follows the first `{`, the slice runs from one to the other. */
  lemma LocalSliceSpan(c: string)
    requires 0 <= IndexOf(c, '{') < LastIndexOf(c, '}')
    ensures var r := LocalSlice(c);
      r == c[IndexOf(c, '{')..LastIndexOf(c, '}') + 1] && r[0] == '{' && r[|r| - 1] == '}'
  {
    var start, end := IndexOf(c, '{'), LastIndexOf(c, '}');
    assert start < end < |c| && c[start] == '{' && c[end] == '}';
    BracedSpan(c, start, end);
  }

  lemma BracedSpan(c: string, start: nat, end: nat)
    requires start < end < |c| && c[start] == '{' && c[end] == '}'
    ensures var r := Substring(c, start, end + 1);
      r == c[start..end + 1] && r[0] == '{' && r[|r| - 1] == '}'
  {
    var r := c[start..end + 1];
    assert r[0] == c[start] && r[|r| - 1] == c[end];
  }

  /** `substring` swaps its bounds, so when the last `}` comes before the first `{` the
      slice is the text strictly between them. */
  lemma LocalSliceReversed(c: string)
    requires 0 <= LastIndexOf(c, '}') < IndexOf(c, '{')
    ensures LocalSlice(c) == c[LastIndexOf(c, '}') + 1..IndexOf(c, '{')]
  {
    var start, end := IndexOf(c, '{'), LastIndexOf(c, '}');
    assert Substring(c, start, end + 1) == c[end + 1..start];
  }

  /** The remote stage's slice: the match of `/\{[\s\S]*\}/` when there is one, the
      text itself otherwise. */
  function RegexSlice(c: string): string {
    var start := IndexOf(c, '{');
    var end := LastIndexOf(c, '}');
    if start != -1 && start < end then c[start..end + 1] else c
  }

  /** The leftmost `{` that has a `}` after it is the first `{`, and the greedy body runs
      to the last `}`, so a match exists exactly when the last `}` follows the first `{`,
      and it runs from one to the other. */
  lemma RegexSliceSpan(c: string)
    ensures var r := RegexSlice(c);
      0 <= IndexOf(c, '{') < LastIndexOf(c, '}') ==>
        r == c[IndexOf(c, '{')..LastIndexOf(c, '}') + 1] && r[0] == '{' && r[|r| - 1] == '}'
    ensures !(0 <= IndexOf(c, '{') < LastIndexOf(c, '}')) ==> RegexSlice(c) == c
  {
    var start, end := IndexOf(c, '{'), LastIndexOf(c, '}');
    if 0 <= start < end {
      var r := c[start..end + 1];
      assert r[0] == c[start] && r[|r| - 1] == c[end];
    }
  }

  /** The two stages cut the same span except when the last `}` precedes the first `{`. */
  lemma SlicesAgreeUnlessReversed(c: string)
    requires !(0 <= LastIndexOf(c, '}') < IndexOf(c, '{'))
    ensures LocalSlice(c) == RegexSlice(c)
  {
  }

  /** On "}x{" the local stage keeps "x" (bounds swapped) while the remote stage keeps
      the whole text. */
  lemma ReversedBracesExample()
    ensures LocalSlice("}x{") == "x"
    ensures RegexSlice("}x{") == "}x{"
  {
    assert IndexOf("}x{", '{') == 2;
    assert LastIndexOf("}x{", '}') == 0;
  }

  // ---------------------------------------------------------------- defaulting

  /** The defaulting record built from a parsed value, or None when building it throws:
      `parsed.title` on `null`, or a list whose normalisation throws. */
  function BuildPlan(parsed: Value): Option<WorkoutPlan> {
    if parsed.Null? || parsed.Undefined? then None
    else
      var warmup := NormalizeExercises(Or(GetOpt(parsed, "warmup"), Arr([])));
      var main := NormalizeExercises(
        Or(Or(Or(GetOpt(parsed, "mainExercises"), GetOpt(parsed, "mainBlock")), GetOpt(parsed, "main")), Arr([])));
      var cooldown := NormalizeExercises(Or(GetOpt(parsed, "cooldown"), Arr([])));
      if warmup.None? || main.None? || cooldown.None? then None
      else Some(WorkoutPlan(
        Or(GetOpt(parsed, "title"), Str("Agent Workout")),
        warmup.value,
        main.value,
        cooldown.value,
        Or(Or(GetOpt(parsed, "reasoning"), GetOpt(parsed, "rationale")),
           Str("Optimized session generated by ForgeAI.")),
        Or(GetOpt(parsed, "alternatives"), Str("None provided.")),
        Or(GetOpt(parsed, "metricsToTrack"), Str("RPE and completion.")),
        Or(GetOpt(parsed, "phase"), Str("General Physical Preparedness")),
        Or(GetOpt(parsed, "fatigueLevel"), Str("medium")),
        Or(GetOpt(parsed, "consistencyScore"), Num(0)),
        Or(GetOpt(parsed, "agentFocus"), Str("Execution"))))
  }

  /** The list of exercise-like values the main list is built from. */
  function MainSource(parsed: Value): Value {
    Or(Or(Or(GetOpt(parsed, "mainExercises"), GetOpt(parsed, "mainBlock")), GetOpt(parsed, "main")), Arr([]))
  }

  /** The plan every field of which took its default. */
  const DefaultPlan: WorkoutPlan := WorkoutPlan(
    Str("Agent Workout"), [], [], [],
    Str("Optimized session generated by ForgeAI."),
    Str("None provided."),
    Str("RPE and completion."),
    Str("General Physical Preparedness"),
    Str("medium"),
    Num(0),
    Str("Execution"))

  /** Building throws exactly on a `null` parse result or a list whose normalisation
      throws. */
  lemma BuildPlanFails(parsed: Value)
    ensures BuildPlan(parsed).None? <==>
      || parsed.Null? || parsed.Undefined?
      || NormalizeExercises(Or(GetOpt(parsed, "warmup"), Arr([]))).None?
      || NormalizeExercises(MainSource(parsed)).None?
      || NormalizeExercises(Or(GetOpt(parsed, "cooldown"), Arr([]))).None?
  {
  }

  /** Each scalar field is the parsed value when that is truthy and its default
      otherwise; `reasoning` falls back to `rationale` first. */
  lemma ScalarDefaults(parsed: Value)
    requires BuildPlan(parsed).Some?
    ensures var p := BuildPlan(parsed).value;
      && (if Truthy(GetOpt(parsed, "title")) then p.title == GetOpt(parsed, "title")
          else p.title == Str("Agent Workout"))
      && (if Truthy(GetOpt(parsed, "reasoning")) then p.reasoning == GetOpt(parsed, "reasoning")
          else if Truthy(GetOpt(parsed, "rationale")) then p.reasoning == GetOpt(parsed, "rationale")
          else p.reasoning == Str("Optimized session generated by ForgeAI."))
      && (if Truthy(GetOpt(parsed, "alternatives")) then p.alternatives == GetOpt(parsed, "alternatives")
          else p.alternatives == Str("None provided."))
      && (if Truthy(GetOpt(parsed, "metricsToTrack")) then p.metricsToTrack == GetOpt(parsed, "metricsToTrack")
          else p.metricsToTrack == Str("RPE and completion."))
      && (if Truthy(GetOpt(parsed, "phase")) then p.phase == GetOpt(parsed, "phase")
          else p.phase == Str("General Physical Preparedness"))
      && (if Truthy(GetOpt(parsed, "fatigueLevel")) then p.fatigueLevel == GetOpt(parsed, "fatigueLevel")
          else p.fatigueLevel == Str("medium"))
      && (if Truthy(GetOpt(parsed, "consistencyScore")) then p.consistencyScore == GetOpt(parsed, "consistencyScore")
          else p.consistencyScore == Num(0))
      && (if Truthy(GetOpt(parsed, "agentFocus")) then p.agentFocus == GetOpt(parsed, "agentFocus")
          else p.agentFocus == Str("Execution"))
  {
  }

  /** The three lists are the normalised `warmup`, main source and `cooldown`, each
      read as `[]` when falsy; the main source is the first truthy of `mainExercises`,
      `mainBlock` and `main`, so an empty `mainExercises` array hides the others. */
  lemma ListSources(parsed: Value)
    requires BuildPlan(parsed).Some?
    ensures var p := BuildPlan(parsed).value;
      && Some(p.warmup) == NormalizeExercises(Or(GetOpt(parsed, "warmup"), Arr([])))
      && Some(p.mainExercises) == NormalizeExercises(MainSource(parsed))
      && Some(p.cooldown) == NormalizeExercises(Or(GetOpt(parsed, "cooldown"), Arr([])))
    ensures Truthy(GetOpt(parsed, "mainExercises")) ==> MainSource(parsed) == GetOpt(parsed, "mainExercises")
    ensures !Truthy(GetOpt(parsed, "mainExercises")) && Truthy(GetOpt(parsed, "mainBlock")) ==>
      MainSource(parsed) == GetOpt(parsed, "mainBlock")
    ensures !Truthy(GetOpt(parsed, "mainExercises")) && !Truthy(GetOpt(parsed, "mainBlock")) && Truthy(GetOpt(parsed, "main")) ==>
      MainSource(parsed) == GetOpt(parsed, "main")
  {
  }

  /** Every field but `consistencyScore` ends up truthy, so a caller's `plan.phase ||
      previous` always takes the plan's value. */
  lemma PlanScalarsTruthy(parsed: Value)
    requires BuildPlan(parsed).Some?
    ensures var p := BuildPlan(parsed).value;
      && Truthy(p.title) && Truthy(p.reasoning) && Truthy(p.alternatives)
      && Truthy(p.metricsToTrack) && Truthy(p.phase) && Truthy(p.fatigueLevel) && Truthy(p.agentFocus)
  {
  }

  /** A parse result that is a number, string, boolean or array has none of the keys
      read, so every field takes its default. */
  lemma NonObjectGivesDefaultPlan(parsed: Value)
    requires parsed.Num? || parsed.Str? || parsed.Bool? || parsed.Arr?
    ensures BuildPlan(parsed) == Some(DefaultPlan)
  {
  }

  /** A plan built without a truthy agentFocus gets "Execution". */
  lemma DefaultFocus(parsed: Value)
    requires BuildPlan(parsed).Some? && !Truthy(GetOpt(parsed, "agentFocus"))
    ensures BuildPlan(parsed).value.agentFocus == Str("Execution")
  {
  }

  /** "Execution" is not one of the declared focus names. */
  lemma ExecutionIsNoFocus()
    ensures AgentFocusNamed("Execution").None?
  {
  }

  /** So a plan built without an agentFocus does not conform to the declared
      WorkoutPlan type. */
  lemma DefaultFocusBreaksDeclaredType(parsed: Value)
    requires BuildPlan(parsed).Some? && !Truthy(GetOpt(parsed, "agentFocus"))
    ensures !ConformsToDeclaredPlan(BuildPlan(parsed).value)
  {
    DefaultFocus(parsed);
    ExecutionIsNoFocus();
  }

  // ---------------------------------------------------------------- the two stages

  /** The local stage: None when anything in it throws (`text.replace` on a non-string,
      a SyntaxError from the parse, a TypeError while defaulting). */
  function LocalAttempt(text: Value, parse: string -> Option<Value>): Option<WorkoutPlan> {
    if !text.Str? then None
    else
      match parse(LocalSlice(StripFences(text.s)))
      case None => None
      case Some(parsed) => BuildPlan(parsed)
  }

  /** The instructions of the extraction request, up to the spliced-in text. */
  const ExtractionHead: string :=
    "Extract the workout details from this response into a valid JSON object with this exact structure:\n"
    + "{\n"
    + "  \"title\": \"workout title\",\n"
    + "  \"warmup\": [],\n"
    + "  \"mainExercises\": [],\n"
    + "  \"cooldown\": [],\n"
    + "  \"reasoning\": \"why this workout\",\n"
    + "  \"alternatives\": \"alternative options\",\n"
    + "  \"metricsToTrack\": \"what to track\",\n"
    + "  \"phase\": \"current phase\",\n"
    + "  \"fatigueLevel\": \"low\",\n"
    + "  \"consistencyScore\": 0,\n"
    + "  \"agentFocus\": \"Planning\"\n"
    + "}\n"
    + "\n"
    + "Response to parse:\n"

  const ExtractionTail: string := "\n\nReturn ONLY the raw JSON object, no markdown formatting."

  /** The request the remote stage sends, with the original text spliced in. */
  function ExtractionPrompt(text: string): string {
    ExtractionHead + text + ExtractionTail
  }

  /** The remote stage, given the endpoint's reply to the extraction prompt: a failed
      request, a non-ok status (reported with the body text), or an ok reply read on. */
  function RemoteAttempt(reply: Reply, parse: string -> Option<Value>): Result<WorkoutPlan, Failure> {
    match reply
    case Unreachable => Err(Engine(TypeError))
    case Response(status, body) =>
      if !IsOk(status) then Err(HttpStatus(status, body)) else ReadReply(body, parse)
  }

  /** `(await response.json()).text`, which must be a string for `.replace`. */
  function ReadReply(body: string, parse: string -> Option<Value>): Result<WorkoutPlan, Failure> {
    match parse(body)
    case None => Err(Engine(SyntaxError))
    case Some(data) =>
      match Get(data, "text")
      case None => Err(Engine(TypeError))
      case Some(t) => if t.Str? then ExtractPlan(t.s, parse) else Err(Engine(TypeError))
  }

  /** Cleaning, parsing and defaulting of the re-extracted text. */
  function ExtractPlan(t: string, parse: string -> Option<Value>): Result<WorkoutPlan, Failure> {
    match parse(RegexSlice(StripFences(t)))
    case None => Err(Engine(SyntaxError))
    case Some(parsed) =>
      match BuildPlan(parsed)
      case None => Err(Engine(TypeError))
      case Some(plan) => Ok(plan)
  }

  /** What the whole operation resolves or rejects with. */
  function StructuredOutcome(text: Value, agent: string -> Reply, parse: string -> Option<Value>)
    : Result<WorkoutPlan, Failure>
  {
    match LocalAttempt(text, parse)
    case Some(plan) => Ok(plan)
    case None => RemoteAttempt(agent(ExtractionPrompt(ToJsString(text))), parse)
  }

  /** `cleaned.indexOf('{')`, `cleaned.lastIndexOf('}')` and the `substring` between
      them, when both exist. */
  method SliceBraces(stripped: string) returns (cleaned: string)
    ensures cleaned == LocalSlice(stripped)
  {
    var start := IndexOf(stripped, '{');
    var end := LastIndexOf(stripped, '}');
    cleaned := stripped;
    if start != -1 && end != -1 {
      cleaned := Substring(stripped, start, end + 1);
    }
  }

  /** The first `try` block of `getStructuredWorkout`. */
  method LocalStage(text: Value, parse: string -> Option<Value>) returns (r: Option<WorkoutPlan>)
    ensures r == LocalAttempt(text, parse)
  {
    if !text.Str? {
      return None;
    }
    var cleaned := StripFences(text.s);
    cleaned := SliceBraces(cleaned);
    var parsed := parse(cleaned);
    if parsed.None? {
      return None;
    }
    r := BuildPlan(parsed.value);
  }

  /** The second `try` block, from the endpoint's reply on. */
  method RemoteStage(reply: Reply, parse: string -> Option<Value>) returns (r: Result<WorkoutPlan, Failure>)
    ensures r == RemoteAttempt(reply, parse)
  {
    if reply.Unreachable? {
      return Err(Engine(TypeError));
    }
    if !IsOk(reply.status) {
      return Err(HttpStatus(reply.status, reply.body));
    }
    var data := parse(reply.body);
    if data.None? {
      return Err(Engine(SyntaxError));
    }
    var t := Get(data.value, "text");
    if t.None? || !t.value.Str? {
      return Err(Engine(TypeError));
    }
    r := ExtractStage(t.value.s, parse);
  }

  /** `cleanedText.match(/\{[\s\S]*\}/)`, taken when it matches: the first `{` and the
      last `}` are found by index, as the greedy match settles on them. */
  method MatchBraces(stripped: string) returns (cleaned: string)
    ensures cleaned == RegexSlice(stripped)
  {
    var start := IndexOf(stripped, '{');
    var end := LastIndexOf(stripped, '}');
    if start != -1 && start < end {
      cleaned := stripped[start..end + 1];
    } else {
      cleaned := stripped;
    }
  }

  /** Cleaning and parsing of the re-extracted text. */
  method ExtractStage(text: string, parse: string -> Option<Value>) returns (r: Result<WorkoutPlan, Failure>)
    ensures r == ExtractPlan(text, parse)
  {
    var cleanedText := StripFences(text);
    cleanedText := MatchBraces(cleanedText);
    var parsed := parse(cleanedText);
    if parsed.None? {
      return Err(Engine(SyntaxError));
    }
    var plan := BuildPlan(parsed.value);
    if plan.None? {
      return Err(Engine(TypeError));
    }
    r := Ok(plan.value);
  }

  /** `getStructuredWorkout(text)`. `prompts` lists the requests made to the endpoint,
      in order: none when the local stage succeeds, the one extraction prompt otherwise. */
  method GetStructuredWorkout(text: Value, agent: string -> Reply, parse: string -> Option<Value>)
    returns (r: Result<WorkoutPlan, Failure>, prompts: seq<string>)
    ensures r == StructuredOutcome(text, agent, parse)
    ensures LocalAttempt(text, parse).Some? ==> prompts == []
    ensures LocalAttempt(text, parse).None? ==> prompts == [ExtractionPrompt(ToJsString(text))]
  {
    prompts := [];
    var local := LocalStage(text, parse);
    if local.Some? {
      return Ok(local.value), prompts;
    }
    var prompt := ExtractionPrompt(ToJsString(text));
    prompts := prompts + [prompt];
    var reply := agent(prompt);
    r := RemoteStage(reply, parse);
  }

  // ---------------------------------------------------------------- the rejection

  /** The message of the rejection: "Failed to parse workout: " followed by the cause's
      message. `engineText` stands for the engine's own message of an engine error. */
  function FailureMessage(f: Failure, engineText: EngineError -> string): (m: string)
    ensures StartsWith(m, "Failed to parse workout: ")
    ensures f.HttpStatus? ==>
      m == "Failed to parse workout: " + ("Failed to parse workout structure: "
           + IntToString(f.status) + " " + f.body)
  {
    var cause := match f
      case HttpStatus(status, body) => "Failed to parse workout structure: " + IntToString(status) + " " + body
      case Rejected(message) => message
      case Engine(kind) => engineText(kind);
    var prefix := "Failed to parse workout: ";
    var m := prefix + cause;
    assert m[..|prefix|] == prefix;
    m
  }

  /** A rejection comes only from the remote stage, after exactly one request. */
  lemma FailureOnlyAfterRemote(text: Value, agent: string -> Reply, parse: string -> Option<Value>)
    requires StructuredOutcome(text, agent, parse).Err?
    ensures LocalAttempt(text, parse).None?
    ensures StructuredOutcome(text, agent, parse) == RemoteAttempt(agent(ExtractionPrompt(ToJsString(text))), parse)
  {
  }

  /** A non-ok reply is reported with its status and body, whatever the body holds. */
  lemma HttpFailureReported(text: Value, agent: string -> Reply, parse: string -> Option<Value>)
    requires LocalAttempt(text, parse).None?
    requires agent(ExtractionPrompt(ToJsString(text))).Response?
    requires !IsOk(agent(ExtractionPrompt(ToJsString(text))).status)
    ensures var reply := agent(ExtractionPrompt(ToJsString(text)));
      StructuredOutcome(text, agent, parse) == Err(HttpStatus(reply.status, reply.body))
  {
  }

  // ---------------------------------------------------------------- delivered plans

  lemma LocalPlanTruthy(text: Value, parse: string -> Option<Value>)
    requires LocalAttempt(text, parse).Some?
    ensures var p := LocalAttempt(text, parse).value;
      Truthy(p.title) && Truthy(p.phase) && Truthy(p.fatigueLevel) && Truthy(p.agentFocus)
  {
    PlanScalarsTruthy(parse(LocalSlice(StripFences(text.s))).value);
  }

  lemma ExtractedPlanTruthy(t: string, parse: string -> Option<Value>)
    requires ExtractPlan(t, parse).Ok?
    ensures var p := ExtractPlan(t, parse).value;
      Truthy(p.title) && Truthy(p.phase) && Truthy(p.fatigueLevel) && Truthy(p.agentFocus)
  {
    PlanScalarsTruthy(parse(RegexSlice(StripFences(t))).value);
  }

  /** Whichever stage delivers it, a plan has a truthy title, phase, fatigue level and
      focus, since each is defaulted to a non-empty text. */
  lemma StructuredPlanTruthy(text: Value, agent: string -> Reply, parse: string -> Option<Value>)
    requires StructuredOutcome(text, agent, parse).Ok?
    ensures var p := StructuredOutcome(text, agent, parse).value;
      Truthy(p.title) && Truthy(p.phase) && Truthy(p.fatigueLevel) && Truthy(p.agentFocus)
  {
    if LocalAttempt(text, parse).Some? {
      LocalPlanTruthy(text, parse);
    } else {
      var reply := agent(ExtractionPrompt(ToJsString(text)));
      var t := Get(parse(reply.body).value, "text").value;
      ExtractedPlanTruthy(t.s, parse);
    }
  }

  // ---------------------------------------------------------------- worked case

  const LegDayJson: string := "{\"title\":\"Leg Day\"}"
  const LegDayUnfenced: string := "\n" + LegDayJson + "\n"

  /** A reply that wraps the JSON in a fenced block. */
  const LegDayReply: string := JsonFence + LegDayUnfenced + Fence

  lemma LegDayHasNoTicks()
    ensures Free(LegDayUnfenced, '`')
  {
  }

  lemma LegDayDropsJsonFence()
    ensures RemoveAll(LegDayReply, JsonFence) == LegDayUnfenced + Fence
  {
    var x := LegDayUnfenced;
    assert LegDayReply == JsonFence + (x + Fence);
    RemoveAllDropsLeading(x + Fence, JsonFence);
    LegDayHasNoTicks();
    RemoveAllCopiesFree(x, Fence, JsonFence);
    assert RemoveAll(Fence, JsonFence) == Fence;
  }

  lemma LegDayDropsFence()
    ensures RemoveAll(LegDayUnfenced + Fence, Fence) == LegDayUnfenced
  {
    var x := LegDayUnfenced;
    LegDayHasNoTicks();
    RemoveAllCopiesFree(x, Fence, Fence);
    RemoveAllDropsLeading("", Fence);
    assert Fence + "" == Fence;
    assert x + "" == x;
  }

  lemma LegDayFences()
    ensures RemoveAll(RemoveAll(LegDayReply, JsonFence), Fence) == LegDayUnfenced
  {
    LegDayDropsJsonFence();
    LegDayDropsFence();
  }

  lemma LegDayTrim()
    ensures Trim(LegDayUnfenced) == LegDayJson
  {
    var j := LegDayJson;
    assert j[0] == '{' && j[|j| - 1] == '}';
    TrimLineBreaks(j);
  }

  lemma LegDayCleaning()
    ensures StripFences(LegDayReply) == LegDayJson
    ensures LocalSlice(LegDayJson) == LegDayJson
  {
    LegDayFences();
    LegDayTrim();
    LocalSliceSpan(LegDayJson);
    assert IndexOf(LegDayJson, '{') == 0;
    assert LastIndexOf(LegDayJson, '}') == |LegDayJson| - 1;
  }

  const LegDayPlan: WorkoutPlan := DefaultPlan.(title := Str("Leg Day"))

  lemma LegDayDefaults()
    ensures BuildPlan(Obj([("title", Str("Leg Day"))])) == Some(LegDayPlan)
  {
    var parsed := Obj([("title", Str("Leg Day"))]);
    LookupFirst(parsed.props, 0);
    forall k | k != "title"
      ensures GetOpt(parsed, k) == Undefined
    {
      LookupAbsent(parsed.props, k);
    }
    assert NormalizeExercises(Arr([])) == Some([]);
  }

  /** A fenced reply holding `{"title":"Leg Day"}` is parsed locally into a plan titled
      "Leg Day" whose other fields are all defaults. */
  lemma LegDayExample(parse: string -> Option<Value>)
    requires parse(LegDayJson) == Some(Obj([("title", Str("Leg Day"))]))
    ensures LocalAttempt(Str(LegDayReply), parse) == Some(LegDayPlan)
  {
    LegDayCleaning();
    LegDayDefaults();
  }

  /** The whole operation then resolves with that plan, whatever the endpoint would
      have answered, since no request is made. */
  lemma LegDayResolves(agent: string -> Reply, parse: string -> Option<Value>)
    requires parse(LegDayJson) == Some(Obj([("title", Str("Leg Day"))]))
    ensures StructuredOutcome(Str(LegDayReply), agent, parse) == Ok(LegDayPlan)
  {
    LegDayExample(parse);
  }
}
