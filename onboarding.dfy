/** The four-step onboarding wizard (components/Onboarding.tsx): goal, equipment,
    experience level, then weights, unit and availability. Each step is only on screen
    while the counter shows it, so each handler below requires its step. */
module Onboarding {

  import opened Wrappers
  import opened Types
  import opened ListToggle

  /** The goal cards: a short id on the card and the full text stored in the profile. */
  datatype GoalOption = FatLoss | Muscle | Strength | Health {
    function Id(): string {
      match this
      case FatLoss => "Fat Loss"
      case Muscle => "Muscle"
      case Strength => "Strength"
      case Health => "Health"
    }
    function FullId(): string {
      match this
      case FatLoss => "Fat Loss & Conditioning"
      case Muscle => "Muscle Hypertrophy"
      case Strength => "Raw Strength"
      case Health => "General Health & Mobility"
    }
  }

  /** The equipment cards; only the bands card carries a full id. */
  datatype EquipmentOption = Bodyweight | Dumbbells | Kettlebells | Bands | FullGym | PullupBar {
    function Id(): string {
      match this
      case Bodyweight => "Bodyweight"
      case Dumbbells => "Dumbbells"
      case Kettlebells => "Kettlebells"
      case Bands => "Bands"
      case FullGym => "Full Gym"
      case PullupBar => "Pullup Bar"
    }
    function FullId(): Option<string> {
      if this == Bands then Some("Resistance Bands") else None
    }
    /** `e.fullId || e.id`: what the profile's equipment list records. */
    function Value(): (v: string)
      ensures FullId().Some? ==> v == FullId().value
      ensures FullId().None? ==> v == Id()
    {
      match FullId()
      case Some(f) => f
      case None => Id()
    }
  }

  /** Different cards record different values, so a toggle on one card never touches
      another card's entry. */
  lemma EquipmentValuesDistinct(a: EquipmentOption, b: EquipmentOption)
    requires a != b
    ensures a.Value() != b.Value()
  {
  }

  const InitialProfile: UserProfile :=
    UserProfile("", [], Beginner, "", "", 0, 0, Kg, None)

  /** The text some goal card records. */
  predicate IsGoalText(s: string) {
    exists g: GoalOption :: g.FullId() == s
  }

  /** A value some equipment card records. */
  predicate IsEquipmentValue(s: string) {
    exists e: EquipmentOption :: e.Value() == s
  }

  /** The Continue button of step 2 is disabled exactly while no equipment is chosen. */
  predicate ContinueDisabled(p: UserProfile) {
    |p.equipment| == 0
  }

  /** The final button is disabled while either weight reads 0. */
  predicate GenerateDisabled(p: UserProfile) {
    p.initialWeight == 0 || p.targetWeight == 0
  }

  class Wizard {
    var step: int
    var profile: UserProfile

    /** The counter stays within the four steps; the wizard never fills in limitations
        or an owner; the equipment list holds distinct card values; and every step
        passed has left its choice behind (a goal after step 1, some equipment after
        step 2). */
    ghost predicate Valid()
      reads this
    {
      && 1 <= step <= 4
      && profile.limitations == ""
      && profile.userId.None?
      && NoDup(profile.equipment)
      && (forall i :: 0 <= i < |profile.equipment| ==> IsEquipmentValue(profile.equipment[i]))
      && (step >= 2 ==> IsGoalText(profile.goal))
      && (step >= 3 ==> |profile.equipment| > 0)
    }

    constructor ()
      ensures Valid()
      ensures step == 1 && profile == InitialProfile
    {
      step := 1;
      profile := InitialProfile;
    }

    /** A goal card: records its full text and moves on. */
    method ChooseGoal(g: GoalOption)
      requires Valid() && step == 1
      modifies this
      ensures Valid()
      ensures step == old(step) + 1
      ensures profile == old(profile).(goal := g.FullId())
    {
      profile := profile.(goal := g.FullId());
      step := step + 1;
    }

    /** An equipment card: adds its value, or removes it when already chosen. */
    method ToggleEquipment(e: EquipmentOption)
      requires Valid() && step == 2
      modifies this`profile
      ensures Valid()
      ensures profile == old(profile).(equipment := Toggled(old(profile).equipment, e.Value()))
    {
      ToggleKeepsNoDup(profile.equipment, e.Value());
      var eq := Toggled(profile.equipment, e.Value());
      forall i | 0 <= i < |eq| ensures IsEquipmentValue(eq[i]) {
        assert eq[i] in eq;
        if eq[i] in profile.equipment {
          var k :| 0 <= k < |profile.equipment| && profile.equipment[k] == eq[i];
        } else {
          assert eq[i] == e.Value();
        }
      }
      profile := profile.(equipment := eq);
    }

    /** Continue, enabled once some equipment is chosen. */
    method Continue()
      requires Valid() && step == 2 && !ContinueDisabled(profile)
      modifies this`step
      ensures Valid()
      ensures step == old(step) + 1
    {
      step := step + 1;
    }

    /** A level card: records the level and moves on. */
    method ChooseLevel(l: Level)
      requires Valid() && step == 3
      modifies this
      ensures Valid()
      ensures step == old(step) + 1
      ensures profile == old(profile).(level := l)
    {
      profile := profile.(level := l);
      step := step + 1;
    }

    /** The weight fields; `Number` of an empty field is 0. */
    method SetInitialWeight(w: int)
      requires Valid() && step == 4
      modifies this`profile
      ensures Valid()
      ensures profile == old(profile).(initialWeight := w)
    {
      profile := profile.(initialWeight := w);
    }

    method SetTargetWeight(w: int)
      requires Valid() && step == 4
      modifies this`profile
      ensures Valid()
      ensures profile == old(profile).(targetWeight := w)
    {
      profile := profile.(targetWeight := w);
    }

    /** The unit switch replaces the unit and nothing else. */
    method SetUnit(u: MassUnit)
      requires Valid() && step == 4
      modifies this`profile
      ensures Valid()
      ensures profile == old(profile).(unit := u)
    {
      profile := profile.(unit := u);
    }

    method SetAvailability(s: string)
      requires Valid() && step == 4
      modifies this`profile
      ensures Valid()
      ensures profile == old(profile).(availability := s)
    {
      profile := profile.(availability := s);
    }

    /** The final button hands the profile to `onComplete`: it has a goal from the cards,
        at least one piece of equipment, both weights non-zero, empty limitations and no
        owner. */
    method Generate() returns (p: UserProfile)
      requires Valid() && step == 4 && !GenerateDisabled(profile)
      ensures p == profile
      ensures IsGoalText(p.goal) && |p.equipment| > 0 && NoDup(p.equipment)
      ensures p.initialWeight != 0 && p.targetWeight != 0
      ensures p.limitations == "" && p.userId.None?
    {
      p := profile;
    }
  }
}
