/** The application's data model (types.ts). The declared TypeScript types are not
    enforced at run time: the parser copies whatever JSON value it finds into a plan,
    so the plan's scalar fields are dynamic values, and the declared shape is a
    predicate over them (ConformsToDeclaredPlan). */
module Types {

  import opened Wrappers
  import opened Text
  import opened JsValue

  // ---------------------------------------------------------------- enumerations

  datatype Level = Beginner | Intermediate | Advanced {
    function Name(): string {
      match this
      case Beginner => "beginner"
      case Intermediate => "intermediate"
      case Advanced => "advanced"
    }
  }

  datatype MassUnit = Kg | Lbs {
    function Name(): string {
      match this
      case Kg => "kg"
      case Lbs => "lbs"
    }
  }

  datatype Fatigue = Low | Medium | High {
    function Name(): string {
      match this
      case Low => "low"
      case Medium => "medium"
      case High => "high"
    }
  }

  /** The fatigue level a name denotes, if it is one of the declared ones. */
  function FatigueNamed(s: string): (r: Option<Fatigue>)
    ensures r.Some? ==> r.value.Name() == s
    ensures r.None? ==> forall f: Fatigue :: f.Name() != s
  {
    if s == "low" then Some(Low)
    else if s == "medium" then Some(Medium)
    else if s == "high" then Some(High)
    else None
  }

  datatype AgentFocus = Planning | Executing | Evaluating | Adapting {
    function Name(): string {
      match this
      case Planning => "Planning"
      case Executing => "Executing"
      case Evaluating => "Evaluating"
      case Adapting => "Adapting"
    }
  }

  /** The agent focus a name denotes, if it is one of the declared ones. */
  function AgentFocusNamed(s: string): (r: Option<AgentFocus>)
    ensures r.Some? ==> r.value.Name() == s
    ensures r.None? ==> forall f: AgentFocus :: f.Name() != s
  {
    if s == "Planning" then Some(Planning)
    else if s == "Executing" then Some(Executing)
    else if s == "Evaluating" then Some(Evaluating)
    else if s == "Adapting" then Some(Adapting)
    else None
  }

  datatype Status = Completed | Skipped | Partial {
    function Name(): string {
      match this
      case Completed => "completed"
      case Skipped => "skipped"
      case Partial => "partial"
    }
  }

  // ---------------------------------------------------------------- records

  /** The profile gathered by onboarding. `userId` is the owning identity: the
      declared interface has no such field, but the profiles the authentication layer
      hands over carry one and reconciliation reads it; a profile built by onboarding
      has none. Weights are whole numbers in this model. */
  datatype UserProfile = UserProfile(
    goal: string,
    equipment: seq<string>,
    level: Level,
    availability: string,
    limitations: string,
    initialWeight: int,
    targetWeight: int,
    unit: MassUnit,
    userId: Option<string>)

  /** A plan as the parser builds it. */
  datatype WorkoutPlan = WorkoutPlan(
    title: Value,
    warmup: seq<Value>,
    mainExercises: seq<Value>,
    cooldown: seq<Value>,
    reasoning: Value,
    alternatives: Value,
    metricsToTrack: Value,
    phase: Value,
    fatigueLevel: Value,
    consistencyScore: Value,
    agentFocus: Value)

  /** One finished or aborted session. `workout` is what the source stores there: the
      plan as a JavaScript object, or whatever the database row held. */
  datatype HistoryEntry = HistoryEntry(
    date: string,
    workout: Value,
    status: Status,
    feedback: string,
    difficulty: int)

  datatype AppState = AppState(
    profile: Option<UserProfile>,
    history: seq<HistoryEntry>,
    currentWorkout: Option<WorkoutPlan>,
    isInitialLoading: bool,
    globalPhase: Value,
    globalConsistency: int,
    globalFatigue: Value,
    currentWeight: int)

  // ---------------------------------------------------------------- declared shapes

  predicate OptionalString(v: Value) {
    v.Undefined? || v.Str?
  }

  /** The declared `Exercise`: an object whose `name` is a string and whose `sets`,
      `reps`, `duration` and `notes` are strings or absent. */
  predicate IsExercise(v: Value) {
    && v.Obj?
    && GetOpt(v, "name").Str?
    && OptionalString(GetOpt(v, "sets"))
    && OptionalString(GetOpt(v, "reps"))
    && OptionalString(GetOpt(v, "duration"))
    && OptionalString(GetOpt(v, "notes"))
  }

  predicate AllExercises(xs: seq<Value>) {
    forall i :: 0 <= i < |xs| ==> IsExercise(xs[i])
  }

  /** The declared `WorkoutPlan` interface, field by field. */
  predicate ConformsToDeclaredPlan(p: WorkoutPlan) {
    && p.title.Str?
    && AllExercises(p.warmup) && AllExercises(p.mainExercises) && AllExercises(p.cooldown)
    && p.reasoning.Str? && p.alternatives.Str? && p.metricsToTrack.Str? && p.phase.Str?
    && p.fatigueLevel.Str? && FatigueNamed(p.fatigueLevel.s).Some?
    && p.consistencyScore.Num?
    && p.agentFocus.Str? && AgentFocusNamed(p.agentFocus.s).Some?
  }

  /** The declared difficulty range of a history entry. */
  predicate DifficultyInDeclaredRange(d: int) {
    1 <= d <= 10
  }

  /** The plan as the JavaScript object the source stores in a history entry. */
  function PlanToValue(p: WorkoutPlan): (v: Value)
    ensures GetOpt(v, "title") == p.title
    ensures GetOpt(v, "phase") == p.phase
    ensures GetOpt(v, "reasoning") == p.reasoning
  {
    var props := [
      ("title", p.title),
      ("warmup", Arr(p.warmup)),
      ("mainExercises", Arr(p.mainExercises)),
      ("cooldown", Arr(p.cooldown)),
      ("reasoning", p.reasoning),
      ("alternatives", p.alternatives),
      ("metricsToTrack", p.metricsToTrack),
      ("phase", p.phase),
      ("fatigueLevel", p.fatigueLevel),
      ("consistencyScore", p.consistencyScore),
      ("agentFocus", p.agentFocus)];
    LookupFirst(props, 4);
    LookupFirst(props, 7);
    Obj(props)
  }

  lemma FatigueNamesRoundTrip(f: Fatigue)
    ensures FatigueNamed(f.Name()) == Some(f)
  {
  }

  lemma AgentFocusNamesRoundTrip(f: AgentFocus)
    ensures AgentFocusNamed(f.Name()) == Some(f)
  {
  }
}
