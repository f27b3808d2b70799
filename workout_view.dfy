/** The session screen (components/WorkoutView.tsx): a checklist of the exercises the
    user has done, the completion percentage, the difficulty slider, and the two ways
    out, completing the session or aborting it with a reason. */
module WorkoutView {

  import opened Wrappers
  import opened Arith
  import opened Text
  import opened JsValue
  import opened Types
  import opened ListToggle

  /** The four quick abort reasons; the screen stores the chosen one's label. */
  datatype QuickReason = HighFatigue | NoTime | Pain | Other {
    function Label(): string {
      match this
      case HighFatigue => "High Fatigue"
      case NoTime => "No Time"
      case Pain => "Pain"
      case Other => "Other"
    }
  }

  /** The arguments the screen hands to its `onFinish` callback. */
  datatype Outcome = Outcome(status: Status, feedback: string, difficulty: int)

  /** `ex.name` for every exercise row on the screen, warm-up, main block and cool-down
      in that order: the values the checklist may hold. */
  function ExerciseNames(w: WorkoutPlan): (r: seq<Value>)
    ensures |r| == |w.warmup| + |w.mainExercises| + |w.cooldown|
  {
    NamesOf(w.warmup + w.mainExercises + w.cooldown)
  }

  function NamesOf(xs: seq<Value>): (r: seq<Value>)
    ensures |r| == |xs|
    ensures forall i :: 0 <= i < |xs| ==> r[i] == GetOpt(xs[i], "name")
  {
    if xs == [] then [] else [GetOpt(xs[0], "name")] + NamesOf(xs[1..])
  }

  /** `progress`: `Math.round(done / total * 100)` when there is something to do,
      otherwise 0. */
  function ProgressPercent(done: nat, total: nat): (p: nat)
    ensures total == 0 ==> p == 0
    ensures done <= total ==> p <= 100
  {
    if total == 0 then 0 else RoundPercentMeaning(done, total); RoundPercent(done, total)
  }

  /** The percentage is the nearest whole number to `100 * done / total`, a half
      rounding up; it stays within 0..100 while no more is done than there is, it is
      100 when everything is done and 0 when nothing is. */
  lemma ProgressMeaning(done: nat, total: nat)
    requires total > 0
    ensures var p := ProgressPercent(done, total);
      2 * total * p <= 200 * done + total < 2 * total * (p + 1)
    ensures done <= total ==> ProgressPercent(done, total) <= 100
    ensures ProgressPercent(total, total) == 100
    ensures ProgressPercent(0, total) == 0
  {
    RoundPercentMeaning(done, total);
  }

  /** The abort reason handed on: the chosen quick reason in capitals and brackets in
      front of the typed text, or the typed text alone; either falls back to a fixed
      sentence when nothing was typed. */
  function SkipReasonText(quick: Option<QuickReason>, typed: string): (r: string)
    ensures quick.Some? ==>
      r == "[" + UpperAscii(quick.value.Label()) + "] " + (if typed == "" then "No detailed notes." else typed)
    ensures quick.None? ==> r == (if typed == "" then "No reason provided." else typed)
  {
    match quick
    case Some(q) => "[" + UpperAscii(q.Label()) + "] " + (if typed != "" then typed else "No detailed notes.")
    case None => if typed != "" then typed else "No reason provided."
  }

  /** `isSkipDisabled`: no quick reason and nothing but whitespace typed. */
  predicate SkipDisabled(quick: Option<QuickReason>, typed: string) {
    quick.None? && Trim(typed) == ""
  }

  /** The trimmed text is empty exactly when every character is whitespace. */
  lemma {:induction false} TrimEmptyIffBlank(s: string)
    ensures Trim(s) == "" <==> forall i :: 0 <= i < |s| ==> IsWhitespace(s[i])
  {
    var t := TrimStart(s);
    if forall i :: 0 <= i < |s| ==> IsWhitespace(s[i]) {
      assert |t| > 0 ==> t[0] == s[|s| - |t|];
    } else {
      var k :| 0 <= k < |s| && !IsWhitespace(s[k]);
      assert k >= |s| - |t|;
      var e := TrimEnd(t);
      assert t[k - (|s| - |t|)] == s[k];
      assert k - (|s| - |t|) < |e|;
    }
  }

  /** Abort is enabled as soon as a quick reason is chosen or a visible character is
      typed, and only then. */
  lemma SkipEnabledIff(quick: Option<QuickReason>, typed: string)
    ensures !SkipDisabled(quick, typed) <==>
      quick.Some? || exists i :: 0 <= i < |typed| && !IsWhitespace(typed[i])
  {
    TrimEmptyIffBlank(typed);
  }

  /** The state of one session screen. */
  class Checklist {
    const workout: WorkoutPlan
    var completed: seq<Value>
    var feedback: string
    var skipReason: string
    var quick: Option<QuickReason>
    var difficulty: int

    /** The checklist holds each shown exercise name at most once, and the slider lies
        within its range. */
    ghost predicate Valid()
      reads this
    {
      && NoDup(completed)
      && (forall i :: 0 <= i < |completed| ==> completed[i] in ExerciseNames(workout))
      && 1 <= difficulty <= 10
    }

    constructor (w: WorkoutPlan)
      ensures Valid()
      ensures workout == w && completed == [] && feedback == "" && skipReason == ""
      ensures quick == None && difficulty == 5
    {
      workout := w;
      completed := [];
      feedback := "";
      skipReason := "";
      quick := None;
      difficulty := 5;
    }

    /** `totalPossible` */
    function TotalPossible(): nat
      reads this
    {
      |workout.warmup| + |workout.mainExercises| + |workout.cooldown|
    }

    function Progress(): nat
      reads this
    {
      ProgressPercent(|completed|, TotalPossible())
    }

    /** The percentage shown never passes 100, because the checklist only holds
        distinct names of the rows on the screen. */
    lemma ProgressAtMost100()
      requires Valid()
      ensures Progress() <= 100
    {
      NoDupWithinIsShorter(completed, ExerciseNames(workout));
      if TotalPossible() > 0 {
        ProgressMeaning(|completed|, TotalPossible());
      }
    }

    /** Ticking or unticking the row called `name`. */
    method Toggle(name: Value)
      requires Valid()
      requires name in ExerciseNames(workout)
      modifies this`completed
      ensures Valid()
      ensures completed == Toggled(old(completed), name)
      ensures name in completed <==> name !in old(completed)
    {
      ToggleKeepsNoDup(completed, name);
      ghost var before := completed;
      completed := Toggled(completed, name);
      forall i | 0 <= i < |completed| ensures completed[i] in ExerciseNames(workout) {
        assert completed[i] in completed;
        assert completed[i] in before || completed[i] == name;
      }
    }

    /** The slider, whose range is 1 to 10. */
    method SetDifficulty(d: int)
      requires Valid()
      requires 1 <= d <= 10
      modifies this`difficulty
      ensures Valid() && difficulty == d
    {
      difficulty := d;
    }

    method SetFeedback(s: string)
      requires Valid()
      modifies this`feedback
      ensures Valid() && feedback == s
    {
      feedback := s;
    }

    method SetSkipReason(s: string)
      requires Valid()
      modifies this`skipReason
      ensures Valid() && skipReason == s
    {
      skipReason := s;
    }

    method SelectQuickReason(q: QuickReason)
      requires Valid()
      modifies this`quick
      ensures Valid() && quick == Some(q)
    {
      quick := Some(q);
    }

    /** `handleSkipConfirm`, reachable only while the button is enabled: the session is
        reported skipped with difficulty 0, below the declared 1..10 range. */
    method ConfirmSkip() returns (o: Outcome)
      requires !SkipDisabled(quick, skipReason)
      ensures o.status == Skipped && o.difficulty == 0
      ensures !DifficultyInDeclaredRange(o.difficulty)
      ensures o.feedback == SkipReasonText(quick, skipReason)
    {
      o := Outcome(Skipped, SkipReasonText(quick, skipReason), 0);
    }

    /** "Save & Sync": the session is reported completed with the typed feedback and the
        slider's difficulty, which is always in the declared range. */
    method ConfirmComplete() returns (o: Outcome)
      requires Valid()
      ensures o == Outcome(Completed, feedback, difficulty)
      ensures DifficultyInDeclaredRange(o.difficulty)
    {
      o := Outcome(Completed, feedback, difficulty);
    }
  }
}
