/** The application shell (App.tsx): one `AppState` held by the top-level component and
    replaced by each handler. Every transition is stated as a function from the old
    state to the new one, and the `Store` class applies it in place. The database, the
    authentication layer and the browser storage are not modelled: what they deliver
    (the signed-in identity, the fetched rows, a restored state, the current time as
    text) comes in as arguments. */
module App {

  import opened Wrappers
  import opened Arith
  import opened Text
  import opened JsValue
  import opened Types
  import opened Proxy
  import opened Agent
  import opened PlanParser

  /** The empty state the authentication effect resets to. */
  const InitialState: AppState :=
    AppState(None, [], None, false, Str("Initialization"), 0, Str("low"), 0)

  // ---------------------------------------------------------------- consistency

  function CountCompleted(h: seq<HistoryEntry>): (c: nat)
    ensures c <= |h|
  {
    if h == [] then 0 else (if h[0].status == Completed then 1 else 0) + CountCompleted(h[1..])
  }


  /** `Math.round(Math.min(100, completed / (length || 1) * 100))`; rounding commutes
      with the cap, since 100 is whole. */
  function Consistency(h: seq<HistoryEntry>): (r: int)
    ensures 0 <= r <= 100
    ensures |h| == 0 ==> r == 0
  {
    RoundPercentMeaning(CountCompleted(h), if |h| == 0 then 1 else |h|);
    Min(100, RoundPercent(CountCompleted(h), if |h| == 0 then 1 else |h|))
  }


  /** The statistic is a whole percentage: the share of completed sessions rounded to
      the nearest whole number, a half rounding up; 0 with no history, 100 when every
      session was completed. */
  lemma ConsistencyMeaning(h: seq<HistoryEntry>)
    ensures 0 <= Consistency(h) <= 100
    ensures |h| > 0 ==> var c := Consistency(h);
      2 * |h| * c <= 200 * CountCompleted(h) + |h| < 2 * |h| * (c + 1)
    ensures |h| == 0 ==> Consistency(h) == 0
    ensures |h| > 0 && CountCompleted(h) == |h| ==> Consistency(h) == 100
  {
    if |h| > 0 {
      NonEmptyConsistency(h, CountCompleted(h), |h|);
    }
  }

  lemma NonEmptyConsistency(h: seq<HistoryEntry>, k: nat, n: nat)
    requires n == |h| > 0 && k == CountCompleted(h)
    ensures var c := Consistency(h); 2 * n * c <= 200 * k + n < 2 * n * (c + 1)
    ensures k == n ==> Consistency(h) == 100
  {
    RoundPercentMeaning(k, n);
    assert Consistency(h) == Min(100, RoundPercent(k, n));
  }

  lemma {:induction false} CountConcat(a: seq<HistoryEntry>, b: seq<HistoryEntry>)
    ensures CountCompleted(a + b) == CountCompleted(a) + CountCompleted(b)
  {
    if a == [] {
      assert a + b == b;
    } else {
      CountConcat(a[1..], b);
      assert (a + b)[0] == a[0];
      assert (a + b)[1..] == a[1..] + b;
    }
  }

  /** Taking the entry at `k` out of a history leaves the count of the rest. */
  lemma CountWithout(b: seq<HistoryEntry>, k: nat)
    requires k < |b|
    ensures CountCompleted(b) == CountCompleted(b[..k] + b[k + 1..]) + CountCompleted([b[k]])
  {
    CountSplitAt(b, k);
    CountFront(b[k..]);
    assert b[k..][0] == b[k] && b[k..][1..] == b[k + 1..];
    CountConcat(b[..k], b[k + 1..]);
  }

  lemma CountSplitAt(b: seq<HistoryEntry>, k: nat)
    requires k <= |b|
    ensures CountCompleted(b) == CountCompleted(b[..k]) + CountCompleted(b[k..])
  {
    assert b == b[..k] + b[k..];
    CountConcat(b[..k], b[k..]);
  }

  lemma CountFront(b: seq<HistoryEntry>)
    requires |b| > 0
    ensures CountCompleted(b) == CountCompleted([b[0]]) + CountCompleted(b[1..])
  {
    assert [b[0]][1..] == [];
  }

  /** Removing the same entry from two histories with the same entries leaves two
      histories with the same entries. */
  lemma RemoveMatching(a: seq<HistoryEntry>, b: seq<HistoryEntry>, k: nat)
    requires multiset(a) == multiset(b) && |a| > 0 && k < |b| && b[k] == a[0]
    ensures multiset(a[1..]) == multiset(b[..k] + b[k + 1..])
  {
    var x, rest := a[0], b[..k] + b[k + 1..];
    assert b == b[..k] + [x] + b[k + 1..];
    assert a == [x] + a[1..];
    calc {
      multiset(rest) + multiset{x};
      multiset(b[..k]) + multiset(b[k + 1..]) + multiset{x};
      multiset(b[..k]) + multiset([x]) + multiset(b[k + 1..]);
      multiset(b[..k] + [x] + b[k + 1..]);
      multiset(b);
      multiset(a);
      multiset([x] + a[1..]);
      multiset(a[1..]) + multiset{x};
    }
    forall y ensures multiset(rest)[y] == multiset(a[1..])[y] {
      assert (multiset(rest) + multiset{x})[y] == (multiset(a[1..]) + multiset{x})[y];
    }
  }

  /** The count depends on the entries only, not on their order. */
  lemma {:induction false} CountIgnoresOrder(a: seq<HistoryEntry>, b: seq<HistoryEntry>)
    requires multiset(a) == multiset(b)
    ensures CountCompleted(a) == CountCompleted(b)
    decreases |a|
  {
    assert |a| == |multiset(a)| == |multiset(b)| == |b|;
    if a != [] {
      assert a[0] in multiset(b);
      var k :| 0 <= k < |b| && b[k] == a[0];
      RemoveMatching(a, b, k);
      CountIgnoresOrder(a[1..], b[..k] + b[k + 1..]);
      CountWithout(b, k);
      assert a == [a[0]] + a[1..];
      CountConcat([a[0]], a[1..]);
    }
  }

  /** So does the statistic. */
  lemma ConsistencyIgnoresOrder(a: seq<HistoryEntry>, b: seq<HistoryEntry>)
    requires multiset(a) == multiset(b)
    ensures Consistency(a) == Consistency(b)
  {
    assert |a| == |multiset(a)| == |multiset(b)| == |b|;
    CountIgnoresOrder(a, b);
  }

  /** Recording a completed session never lowers the statistic. */
  lemma CompletedNeverLowers(e: HistoryEntry, h: seq<HistoryEntry>)
    requires e.status == Completed
    ensures Consistency([e] + h) >= Consistency(h)
  {
    assert ([e] + h)[1..] == h;
    var k := CountCompleted(h);
    assert CountCompleted([e] + h) == k + 1;
    if |h| > 0 {
      var n := |h|;
      RoundPercentMeaning(k, n);
      var q := RoundPercent(k, n);
      assert q * (2 * n + 2) <= 200 * (k + 1) + (n + 1) by {
        assert q * (2 * n + 2) == 2 * n * q + 2 * q;
      }
      DivAtLeast(200 * (k + 1) + (n + 1), 2 * (n + 1), q);
    } else {
      ConsistencyMeaning(h);
      ConsistencyMeaning([e] + h);
    }
  }

  /** Two sessions completed out of three is 67. */
  lemma TwoOfThree(a: HistoryEntry, b: HistoryEntry, c: HistoryEntry)
    requires a.status == Completed && b.status == Skipped && c.status == Completed
    ensures Consistency([a, b, c]) == 67
  {
    assert [a, b, c][1..] == [b, c] && [b, c][1..] == [c] && [c][1..] == [];
    assert CountCompleted([c]) == 1;
    assert CountCompleted([b, c]) == 1;
    assert CountCompleted([a, b, c]) == 2;
    DivUnique(403, 6, 67);
  }

  // ---------------------------------------------------------------- sign-in reconciliation

  /** A profile in memory that belongs to someone else: one with another owner, or,
      as the comparison `undefined !== id` makes it, with none. */
  predicate ProfileMismatch(s: AppState, id: string) {
    s.profile.Some? && s.profile.value.userId != Some(id)
  }

  /** History or a plan left in memory without a profile. */
  predicate OrphanedData(s: AppState) {
    s.profile.None? && (|s.history| > 0 || s.currentWorkout.Some?)
  }

  predicate HoldsPersonalData(s: AppState) {
    s.profile.Some? || |s.history| > 0 || s.currentWorkout.Some?
  }

  /** What the authentication effect does when the identity changes to `user`: the new
      state and, when it asks for one, whose history to fetch. */
  datatype Reconciled = Reconciled(state: AppState, fetch: Option<string>)

  function Reconcile(s: AppState, user: Option<string>): (r: Reconciled)
    ensures user.Some? && (ProfileMismatch(s, user.value) || OrphanedData(s)) ==>
      r == Reconciled(InitialState, user)
    ensures user.Some? && !ProfileMismatch(s, user.value) && !OrphanedData(s) ==>
      r.state == s && (r.fetch.Some? <==> |s.history| == 0) && (r.fetch.Some? ==> r.fetch == user)
    ensures user.None? ==> r.fetch.None? && (r.state == if HoldsPersonalData(s) then InitialState else s)
  {
    match user
    case Some(id) =>
      if ProfileMismatch(s, id) || OrphanedData(s) then Reconciled(InitialState, user)
      else if |s.history| == 0 then Reconciled(s, user)
      else Reconciled(s, None)
    case None =>
      if HoldsPersonalData(s) then Reconciled(InitialState, None) else Reconciled(s, None)
  }

  /** After the check, memory holds no profile of anybody but the signed-in user, and
      nothing personal at all once signed out. */
  lemma ReconciledStateBelongsToUser(s: AppState, user: Option<string>)
    ensures var t := Reconcile(s, user).state;
      && (user.Some? ==> t.profile.None? || t.profile.value.userId == user)
      && (user.None? ==> !HoldsPersonalData(t))
      && (user.Some? ==> !OrphanedData(t))
  {
  }

  /** Running the check again for the same identity changes nothing more. */
  lemma ReconcileSettles(s: AppState, user: Option<string>)
    ensures Reconcile(Reconcile(s, user).state, user).state == Reconcile(s, user).state
  {
  }

  /** A profile made by onboarding carries no owner, so the next check for a signed-in
      user throws it away with everything else. */
  lemma OnboardingProfileIsReset(s: AppState, id: string)
    requires s.profile.Some? && s.profile.value.userId.None?
    ensures Reconcile(s, Some(id)) == Reconciled(InitialState, Some(id))
  {
  }

  // ---------------------------------------------------------------- fetched history

  /** A `workout_history` row, with its columns as the table declares them. */
  datatype HistoryRow = HistoryRow(date: string, status: Status, difficulty: int, feedback: string,
                                   workoutDetails: Value)

  /** What the history query comes back with: the rows (null counts as none), or an
      error, which the loader logs and swallows. */
  datatype FetchResult = Rows(data: Option<seq<HistoryRow>>) | QueryError

  const PastWorkout: Value := Obj([("title", Str("Past Workout")), ("exercises", Arr([]))])

  function MapRow(row: HistoryRow): (e: HistoryEntry)
    ensures e.date == row.date && e.status == row.status && e.difficulty == row.difficulty
    ensures e.feedback == row.feedback
    ensures Truthy(row.workoutDetails) ==> e.workout == row.workoutDetails
    ensures !Truthy(row.workoutDetails) ==> GetOpt(e.workout, "title") == Str("Past Workout")
    ensures Truthy(e.workout)
  {
    HistoryEntry(row.date, Or(row.workoutDetails, PastWorkout), row.status, row.feedback, row.difficulty)
  }

  function MapRows(rows: seq<HistoryRow>): (h: seq<HistoryEntry>)
    ensures |h| == |rows|
    ensures forall i :: 0 <= i < |rows| ==> h[i] == MapRow(rows[i])
  {
    if rows == [] then [] else [MapRow(rows[0])] + MapRows(rows[1..])
  }

  /** The loader's update: the history and the statistic are replaced, nothing else. */
  function WithFetchedHistory(s: AppState, result: FetchResult): (r: AppState)
    ensures result.QueryError? ==> r == s
    ensures result.Rows? ==>
      var h := MapRows(if result.data.Some? then result.data.value else []);
      && r.history == h && r.globalConsistency == Consistency(h)
      && r.profile == s.profile && r.currentWorkout == s.currentWorkout
      && r.isInitialLoading == s.isInitialLoading && r.globalPhase == s.globalPhase
      && r.globalFatigue == s.globalFatigue && r.currentWeight == s.currentWeight
  {
    match result
    case QueryError => s
    case Rows(data) =>
      var h := MapRows(match data case Some(rows) => rows case None => []);
      s.(history := h, globalConsistency := Consistency(h))
  }

  // ---------------------------------------------------------------- finishing a session

  /** `handleFinishWorkout`: with a plan on screen, the session is recorded in front of
      the history with the plan itself as its workout, the plan is cleared and the
      statistic recomputed; without one nothing happens. */
  function Finished(s: AppState, status: Status, feedback: string, difficulty: int, now: string)
    : (r: AppState)
    ensures s.currentWorkout.None? ==> r == s
    ensures s.currentWorkout.Some? ==>
      && |r.history| == |s.history| + 1 && r.history[1..] == s.history
      && r.history[0] == HistoryEntry(now, PlanToValue(s.currentWorkout.value), status, feedback, difficulty)
      && r.currentWorkout.None? && r.globalConsistency == Consistency(r.history)
      && r.profile == s.profile && r.isInitialLoading == s.isInitialLoading
      && r.globalPhase == s.globalPhase && r.globalFatigue == s.globalFatigue
      && r.currentWeight == s.currentWeight
  {
    match s.currentWorkout
    case None => s
    case Some(plan) =>
      var h := [HistoryEntry(now, PlanToValue(plan), status, feedback, difficulty)] + s.history;
      s.(history := h, currentWorkout := None, globalConsistency := Consistency(h))
  }

  /** The recorded session's title is the plan's, and completing it never lowers the
      statistic below what the old history gives. */
  lemma FinishRecordsPlan(s: AppState, status: Status, feedback: string, difficulty: int, now: string)
    requires s.currentWorkout.Some?
    ensures var r := Finished(s, status, feedback, difficulty, now);
      && GetOpt(r.history[0].workout, "title") == s.currentWorkout.value.title
      && (status == Completed ==> r.globalConsistency >= Consistency(s.history))
  {
    var r := Finished(s, status, feedback, difficulty, now);
    if status == Completed {
      CompletedNeverLowers(r.history[0], s.history);
    }
  }

  /** The row `handleFinishWorkout` inserts for a signed-in user: no workout details and
      no workout id, the plan's title appended to the feedback instead. */
  datatype Insert = Insert(userId: string, row: HistoryRow)

  function SavedRow(plan: WorkoutPlan, status: Status, feedback: string, difficulty: int, now: string)
    : HistoryRow
  {
    HistoryRow(now, status, difficulty, feedback + " | Workout: " + ToJsString(plan.title), Undefined)
  }

  /** Reloading a saved session does not give back what was recorded in memory: its
      workout becomes the placeholder titled 'Past Workout' and its feedback carries the
      title suffix; date, status and difficulty survive. */
  lemma SavedSessionReloadsAsPastWorkout(plan: WorkoutPlan, status: Status, feedback: string,
                                          difficulty: int, now: string)
    ensures var e := MapRow(SavedRow(plan, status, feedback, difficulty, now));
      && e.date == now && e.status == status && e.difficulty == difficulty
      && GetOpt(e.workout, "title") == Str("Past Workout")
      && e.feedback == feedback + " | Workout: " + ToJsString(plan.title)
      && e.feedback != feedback
  {
    var e := MapRow(SavedRow(plan, status, feedback, difficulty, now));
    assert |e.feedback| > |feedback|;
  }

  // ---------------------------------------------------------------- plans

  function ContextOf(s: AppState): Context {
    Context(s.globalPhase, s.globalConsistency, s.globalFatigue)
  }

  /** The request that opens onboarding's strategy. */
  function OnboardingPrompt(p: UserProfile): string {
    "Start my journey. Goal: " + p.goal + ". Initial weight: " + IntToString(p.initialWeight) + p.unit.Name()
    + ". Target: " + IntToString(p.targetWeight) + p.unit.Name() + ". Create a long-term strategy."
  }

  /** The onboarding request opens with the chosen goal and closes with the request for
      a long-term strategy. */
  lemma OnboardingPromptFrame(p: UserProfile)
    ensures var t := OnboardingPrompt(p);
      && StartsWith(t, "Start my journey. Goal: " + p.goal + ". Initial weight: ")
      && EndsWith(t, p.unit.Name() + ". Create a long-term strategy.")
  {
    var head := "Start my journey. Goal: " + p.goal + ". Initial weight: ";
    var tail := p.unit.Name() + ". Create a long-term strategy.";
    var mid := IntToString(p.initialWeight) + p.unit.Name() + ". Target: " + IntToString(p.targetWeight);
    assert OnboardingPrompt(p) == head + (mid + tail);
    assert OnboardingPrompt(p) == (head + mid) + tail;
  }

  /** The agent call for `prompt` and the structured read of its text, which both
      handlers await in turn: the first rejection of either is the outcome. */
  function PlanOutcome(prompt: string, profile: UserProfile, history: seq<HistoryEntry>, ctx: Context,
                       agent: string -> Reply, parse: string -> Option<Value>): Result<WorkoutPlan, Failure>
  {
    match ForgeOutcome(agent(FullPrompt(prompt, profile, history, ctx)), parse)
    case Err(f) => Err(f)
    case Ok(text) => StructuredOutcome(text, agent, parse)
  }

  /** What `handleOnboardingComplete` awaits: the strategy request with an empty history
      and the context held before onboarding. */
  function OnboardingOutcome(s: AppState, p: UserProfile, agent: string -> Reply, parse: string -> Option<Value>)
    : Result<WorkoutPlan, Failure>
  {
    PlanOutcome(OnboardingPrompt(p), p, [], ContextOf(s), agent, parse)
  }

  /** The two awaited calls, one after the other. */
  method ForgeAndRead(prompt: string, profile: UserProfile, history: seq<HistoryEntry>, ctx: Context,
                      agent: string -> Reply, parse: string -> Option<Value>)
    returns (r: Result<WorkoutPlan, Failure>)
    ensures r == PlanOutcome(prompt, profile, history, ctx, agent, parse)
  {
    var response, sentPrompt := GenerateForgeResponse(prompt, profile, history, ctx, agent, parse);
    if response.Err? {
      return Err(response.error);
    }
    var sent;
    r, sent := GetStructuredWorkout(response.value, agent, parse);
  }

  /** A rejected agent call is the outcome and the structured read never runs; a plan
      comes from the structured read of the call's text, and its title, phase and
      fatigue are truthy. */
  lemma PlanOutcomeStages(prompt: string, profile: UserProfile, history: seq<HistoryEntry>, ctx: Context,
                          agent: string -> Reply, parse: string -> Option<Value>)
    ensures var f := ForgeOutcome(agent(FullPrompt(prompt, profile, history, ctx)), parse);
      f.Err? ==> PlanOutcome(prompt, profile, history, ctx, agent, parse) == Err(f.error)
    ensures var f := ForgeOutcome(agent(FullPrompt(prompt, profile, history, ctx)), parse);
      var r := PlanOutcome(prompt, profile, history, ctx, agent, parse);
      r.Ok? ==> (f.Ok? && StructuredOutcome(f.value, agent, parse) == r
        && Truthy(r.value.title) && Truthy(r.value.phase) && Truthy(r.value.fatigueLevel))
  {
    var f := ForgeOutcome(agent(FullPrompt(prompt, profile, history, ctx)), parse);
    if f.Ok? && StructuredOutcome(f.value, agent, parse).Ok? {
      StructuredPlanTruthy(f.value, agent, parse);
    }
  }

  /** Onboarding sends the system prompt, a state block whose history reads "None", and
      the strategy request last. */
  lemma OnboardingRequest(s: AppState, p: UserProfile)
    ensures StartsWith(FullPrompt(OnboardingPrompt(p), p, [], ContextOf(s)), MasterSystemPrompt)
    ensures EndsWith(FullPrompt(OnboardingPrompt(p), p, [], ContextOf(s)), OnboardingPrompt(p))
    ensures StateContext(p, ContextOf(s), []) == StateBody(p, ContextOf(s), "None")
  {
    var u, ctx := OnboardingPrompt(p), ContextOf(s);
    assert StartsWith(FullPrompt(u, p, [], ctx), MasterSystemPrompt) by {
      FullPromptEnds(u, p, [], ctx);
    }
    assert EndsWith(FullPrompt(u, p, [], ctx), u) by {
      FullPromptEnds(u, p, [], ctx);
    }
    assert StateContext(p, ctx, []) == StateBody(p, ctx, "None") by {
      StateContextIsBody(p, ctx, []);
      HistoryContextLines([]);
    }
  }

  /** Of the state held before onboarding, only the phase, statistic and fatigue reach
      the agent. */
  lemma OnboardingReadsContextOnly(s: AppState, t: AppState, p: UserProfile, agent: string -> Reply,
                                   parse: string -> Option<Value>)
    requires s.globalPhase == t.globalPhase && s.globalConsistency == t.globalConsistency
    requires s.globalFatigue == t.globalFatigue
    ensures OnboardingOutcome(s, p, agent, parse) == OnboardingOutcome(t, p, agent, parse)
  {
    assert ContextOf(s) == ContextOf(t);
  }

  /** The onboarding update: profile, plan, phase from the plan, a zero statistic and the
      starting weight; the history stays. */
  function Onboarded(s: AppState, p: UserProfile, plan: WorkoutPlan): (r: AppState)
    ensures r.profile == Some(p) && r.currentWorkout == Some(plan) && r.globalPhase == plan.phase
    ensures r.globalConsistency == 0 && r.currentWeight == p.initialWeight
    ensures r.history == s.history && r.globalFatigue == s.globalFatigue
    ensures r.isInitialLoading == s.isInitialLoading
  {
    s.(profile := Some(p), currentWorkout := Some(plan), globalPhase := plan.phase,
       globalConsistency := 0, currentWeight := p.initialWeight)
  }

  /** The request for the next session: the current weight, phase and statistic, then
      either the user's own request or the standing instruction, then the last session
      when there is one. None when reading the last session's title throws. */
  function NextWorkoutPrompt(s: AppState, userContext: string): (r: Option<string>)
    ensures r.None? <==> |s.history| > 0 && (s.history[0].workout.Null? || s.history[0].workout.Undefined?)
  {
    var base := "Current weight: " + IntToString(s.currentWeight) + ". Global Phase: " + ToJsString(s.globalPhase)
      + ". Consistency: " + IntToString(s.globalConsistency) + "%.";
    var request := if userContext != "" then
        " USER REQUEST FOR TODAY: \"" + userContext + "\". Adjust the session to strictly follow this request."
      else " Evaluate progress and decide the next optimal session.";
    if |s.history| == 0 then Some(base + request)
    else
      match Get(s.history[0].workout, "title")
      case None => None
      case Some(t) =>
        var last := " Last session was " + ToJsString(t) + " (" + s.history[0].status.Name() + ").";
        Some(base + request + last)
  }

  /** The text of the next-session request: it opens with the current weight, phase and
      statistic; the user's own request follows when there is one, the standing
      instruction otherwise; and it closes with the last session's title and status. */
  lemma NextWorkoutPromptText(s: AppState, userContext: string)
    ensures var r := NextWorkoutPrompt(s, userContext);
      r.Some? ==> StartsWith(r.value, "Current weight: " + IntToString(s.currentWeight) + ". Global Phase: "
        + ToJsString(s.globalPhase) + ". Consistency: " + IntToString(s.globalConsistency) + "%.")
    ensures var r := NextWorkoutPrompt(s, userContext);
      r.Some? && userContext != "" ==> Contains(r.value,
        " USER REQUEST FOR TODAY: \"" + userContext + "\". Adjust the session to strictly follow this request.")
    ensures var r := NextWorkoutPrompt(s, userContext);
      r.Some? && userContext == "" ==> Contains(r.value, " Evaluate progress and decide the next optimal session.")
    ensures var r := NextWorkoutPrompt(s, userContext);
      |s.history| == 0 ==> r.Some? && (if userContext != "" then
        EndsWith(r.value, "\". Adjust the session to strictly follow this request.")
      else EndsWith(r.value, " Evaluate progress and decide the next optimal session."))
    ensures var r := NextWorkoutPrompt(s, userContext);
      |s.history| > 0 && Get(s.history[0].workout, "title").Some? ==>
        r.Some? && EndsWith(r.value, " Last session was " + ToJsString(Get(s.history[0].workout, "title").value)
          + " (" + s.history[0].status.Name() + ").")
  {
    var base := "Current weight: " + IntToString(s.currentWeight) + ". Global Phase: " + ToJsString(s.globalPhase)
      + ". Consistency: " + IntToString(s.globalConsistency) + "%.";
    var request := if userContext != "" then
        " USER REQUEST FOR TODAY: \"" + userContext + "\". Adjust the session to strictly follow this request."
      else " Evaluate progress and decide the next optimal session.";
    var r := NextWorkoutPrompt(s, userContext);
    if r.Some? {
      var last := r.value[|base + request|..];
      assert r.value == base + request + last;
      assert r.value[..|base|] == base;
      assert r.value[|base|..|base| + |request|] == request;
      ContainsAt(r.value, request, |base|);
    }
  }

  /** The prompt, the agent call and the structured read, in `requestNextWorkout`'s
      `try` block; a title read that throws fails before the agent is asked. */
  function NextWorkoutOutcome(s: AppState, userContext: string, agent: string -> Reply,
                              parse: string -> Option<Value>): Result<WorkoutPlan, Failure>
    requires s.profile.Some?
  {
    match NextWorkoutPrompt(s, userContext)
    case None => Err(Engine(TypeError))
    case Some(prompt) => PlanOutcome(prompt, s.profile.value, s.history, ContextOf(s), agent, parse)
  }

  /** A last session whose workout is null stops the request with the engine's type
      error, while a history of readable sessions always yields a prompt. */
  lemma NextWorkoutPromptFailsOnlyOnNull(s: AppState, userContext: string, agent: string -> Reply,
                                         parse: string -> Option<Value>)
    requires s.profile.Some?
    ensures |s.history| > 0 && s.history[0].workout.Null? ==>
      NextWorkoutOutcome(s, userContext, agent, parse) == Err(Engine(TypeError))
    ensures (forall i :: 0 <= i < |s.history| ==> Truthy(s.history[i].workout)) ==>
      NextWorkoutPrompt(s, userContext).Some?
  {
  }

  /** The new-plan update: the plan replaces the current one, and its phase and fatigue
      replace the global ones unless they are falsy. */
  function WithNextPlan(s: AppState, plan: WorkoutPlan): (r: AppState)
    ensures r.currentWorkout == Some(plan)
    ensures r.globalPhase == (if Truthy(plan.phase) then plan.phase else s.globalPhase)
    ensures r.globalFatigue == (if Truthy(plan.fatigueLevel) then plan.fatigueLevel else s.globalFatigue)
    ensures r.profile == s.profile && r.history == s.history && r.globalConsistency == s.globalConsistency
    ensures r.currentWeight == s.currentWeight && r.isInitialLoading == s.isInitialLoading
  {
    s.(currentWorkout := Some(plan), globalPhase := Or(plan.phase, s.globalPhase),
       globalFatigue := Or(plan.fatigueLevel, s.globalFatigue))
  }

  /** Every plan the structured read delivers went through the defaulting table, so its
      phase and fatigue are truthy and always replace the global ones: the fallbacks to
      the previous values never apply. */
  lemma DeliveredPlansAreDefaulted(text: Value, agent: string -> Reply, parse: string -> Option<Value>,
                                   s: AppState)
    requires StructuredOutcome(text, agent, parse).Ok?
    ensures var plan := StructuredOutcome(text, agent, parse).value;
      && Truthy(plan.phase) && Truthy(plan.fatigueLevel)
      && WithNextPlan(s, plan).globalPhase == plan.phase
      && WithNextPlan(s, plan).globalFatigue == plan.fatigueLevel
  {
    StructuredPlanTruthy(text, agent, parse);
  }

  // ---------------------------------------------------------------- the store

  /** The state the top-level component holds. */
  class Store {
    var state: AppState

    /** The lazy initial value: a state restored from browser storage when there is a
        readable one, otherwise the empty state. */
    constructor (restored: Option<AppState>)
      ensures state == (if restored.Some? then restored.value else InitialState)
    {
      state := match restored case Some(r) => r case None => InitialState;
    }

    /** The authentication effect, run when the signed-in identity becomes `user`; the
        result names the user whose history the effect starts loading. */
    method OnAuthChange(user: Option<string>) returns (fetchFor: Option<string>)
      modifies this
      ensures state == Reconcile(old(state), user).state
      ensures fetchFor == Reconcile(old(state), user).fetch
    {
      fetchFor := None;
      match user {
        case Some(id) =>
          var mismatch := state.profile.Some? && state.profile.value.userId != Some(id);
          var orphaned := state.profile.None? && (|state.history| > 0 || state.currentWorkout.Some?);
          if mismatch || orphaned {
            state := InitialState;
            fetchFor := user;
          } else if |state.history| == 0 {
            fetchFor := user;
          }
        case None =>
          if state.profile.Some? || |state.history| > 0 || state.currentWorkout.Some? {
            state := InitialState;
          }
      }
    }

    /** The end of `loadUserData`. */
    method ApplyFetchedHistory(result: FetchResult)
      modifies this
      ensures state == WithFetchedHistory(old(state), result)
    {
      state := WithFetchedHistory(state, result);
    }

    /** `handleFinishWorkout`; the result is the row sent to the database, when a user is
        signed in. The write is not awaited and its failure only logged. */
    method FinishWorkout(user: Option<string>, status: Status, feedback: string, difficulty: int, now: string)
      returns (saved: Option<Insert>)
      modifies this
      ensures state == Finished(old(state), status, feedback, difficulty, now)
      ensures saved == if old(state).currentWorkout.Some? && user.Some?
        then Some(Insert(user.value, SavedRow(old(state).currentWorkout.value, status, feedback, difficulty, now)))
        else None
    {
      saved := None;
      if state.currentWorkout.None? {
        return;
      }
      if user.Some? {
        saved := Some(Insert(user.value, SavedRow(state.currentWorkout.value, status, feedback, difficulty, now)));
      }
      var entry := HistoryEntry(now, PlanToValue(state.currentWorkout.value), status, feedback, difficulty);
      var newHistory := [entry] + state.history;
      state := state.(history := newHistory, currentWorkout := None, globalConsistency := Consistency(newHistory));
    }

    /** `updateWeight`: only the weight changes in memory. */
    method UpdateWeight(w: int)
      modifies this
      ensures state == old(state).(currentWeight := w)
    {
      state := state.(currentWeight := w);
    }

    /** `handleOnboardingComplete`: the state changes only when both awaited calls
        resolve; a rejection is caught and leaves it as it was. */
    method CompleteOnboarding(p: UserProfile, agent: string -> Reply, parse: string -> Option<Value>)
      returns (outcome: Result<WorkoutPlan, Failure>)
      modifies this
      ensures outcome == OnboardingOutcome(old(state), p, agent, parse)
      ensures outcome.Ok? ==> state == Onboarded(old(state), p, outcome.value)
      ensures outcome.Err? ==> state == old(state)
    {
      outcome := ForgeAndRead(OnboardingPrompt(p), p, [], ContextOf(state), agent, parse);
      if outcome.Ok? {
        state := Onboarded(state, p, outcome.value);
      }
    }

    /** `requestNextWorkout`: nothing without a profile; otherwise the state changes only
        when the prompt, the agent call and the structured read all succeed. */
    method RequestNextWorkout(userContext: string, agent: string -> Reply, parse: string -> Option<Value>)
      returns (outcome: Option<Result<WorkoutPlan, Failure>>)
      modifies this
      ensures old(state).profile.None? ==> outcome.None? && state == old(state)
      ensures old(state).profile.Some? ==>
        && outcome == Some(NextWorkoutOutcome(old(state), userContext, agent, parse))
        && (outcome.value.Ok? ==> state == WithNextPlan(old(state), outcome.value.value))
        && (outcome.value.Err? ==> state == old(state))
    {
      if state.profile.None? {
        return None;
      }
      var prompt := NextWorkoutPrompt(state, userContext);
      if prompt.None? {
        return Some(Err(Engine(TypeError)));
      }
      var structured := ForgeAndRead(prompt.value, state.profile.value, state.history, ContextOf(state),
                                     agent, parse);
      outcome := Some(structured);
      if structured.Ok? {
        state := WithNextPlan(state, structured.value);
      }
    }
  }
}
