/** `SkinAssessment`: the three-step questionnaire and its submission. */
module SkinAssessment {
  import opened Common
  import opened Types
  import opened SkinService
  import AppContext

  const TotalSteps: int := 3
  const DashboardPath: string := "/user/dashboard"

  /** The form's initial values from the stored profile, if any. */
  function Defaults(profile: Option<SkinProfile>): (v: ProfileInput)
    ensures profile.None? ==> v == ProfileInput(None, [], Some(""), Some(""))
    ensures profile.Some? ==> v.concerns == profile.value.concerns
    ensures v.skinType.Some? <==>
      profile.Some? && |profile.value.skinTypes| > 0 && profile.value.skinTypes[0] != ""
    ensures v.skinType.Some? ==> v.skinType.value == profile.value.skinTypes[0]
    ensures v.allergies.Some? && v.goals.Some?
    ensures profile.Some? ==>
      v.allergies == Some(profile.value.allergies.GetOr("")) && v.goals == Some(profile.value.goals.GetOr(""))
  {
    match profile
    case None => ProfileInput(None, [], Some(""), Some(""))
    case Some(p) =>
      ProfileInput(
        if |p.skinTypes| > 0 && p.skinTypes[0] != "" then Some(p.skinTypes[0]) else None,
        p.concerns,
        Some(p.allergies.GetOr("")),
        Some(p.goals.GetOr("")))
  }

  /** The progress bar: segment `index` is filled iff `index + 1 <= step`. */
  function Segments(step: int): (s: seq<bool>)
    ensures |s| == TotalSteps
    ensures forall i :: 0 <= i < TotalSteps ==> (s[i] <==> i + 1 <= step)
  {
    seq(TotalSteps, i requires 0 <= i < TotalSteps => i + 1 <= step)
  }

  /** At step `k` of 3 exactly `k` segments are filled, and they come first. */
  lemma SegmentsFilled(step: int)
    requires 1 <= step <= TotalSteps
    ensures CountWhere(Segments(step), (b: bool) => b) == step
    ensures Segments(step) == seq(step, _ => true) + seq(TotalSteps - step, _ => false)
  {
    var s := Segments(step);
    var p := (b: bool) => b;
    assert s == seq(step, _ => true) + seq(TotalSteps - step, _ => false);
    FilterConcat(seq(step, _ => true), seq(TotalSteps - step, _ => false), p);
    FilterKeepsAll(seq(step, _ => true), p);
    assert Filter(seq(TotalSteps - step, _ => false), p) == [];
  }

  class Wizard {
    var step: int
    var values: ProfileInput
    /** The requests sent to the skin-profile endpoint. */
    var sent: seq<Request>
    /** The last navigation, if any. */
    var navigatedTo: Option<string>

    predicate Valid()
      reads this
    {
      1 <= step <= TotalSteps
    }

    constructor(ctx: AppContext.Session)
      ensures step == 1 && values == Defaults(ctx.skinProfile) && sent == [] && navigatedTo.None?
      ensures Valid()
    {
      step := 1;
      values := Defaults(ctx.skinProfile);
      sent := [];
      navigatedTo := None;
    }

    /** `onSubmit`: update when a profile is held, create otherwise; on success the
        returned profile goes into the context and the page moves to the dashboard. */
    method Submit(ctx: AppContext.Session, outcome: Result<SkinProfile>)
      modifies this, ctx
      ensures sent == old(sent) + [if old(ctx.skinProfile).Some? then UpdateRequest(values) else CreateRequest(values)]
      ensures outcome.Ok? ==> ctx.skinProfile == Some(outcome.value) && navigatedTo == Some(DashboardPath)
      ensures outcome.Err? ==> ctx.skinProfile == old(ctx.skinProfile) && navigatedTo == old(navigatedTo)
      ensures !ctx.isLoading
      ensures ctx.token == old(ctx.token) && ctx.userData == old(ctx.userData)
      ensures step == old(step) && values == old(values)
    {
      ctx.SetIsLoading(true);
      var request := if ctx.skinProfile.Some? then UpdateRequest(values) else CreateRequest(values);
      sent := sent + [request];
      if outcome.Ok? {
        ctx.SetSkinProfile(Some(outcome.value));
        navigatedTo := Some(DashboardPath);
      }
      ctx.SetIsLoading(false);
    }

    /** `handleNextStep`: `stepValid` is the result of validating the current
        step's fields, `formValid` that of the whole form before submitting. */
    method NextStep(ctx: AppContext.Session, stepValid: bool, formValid: bool, outcome: Result<SkinProfile>)
      requires Valid()
      modifies this, ctx
      ensures Valid()
      ensures !stepValid ==> step == old(step) && sent == old(sent) && ctx.skinProfile == old(ctx.skinProfile)
      ensures stepValid && old(step) < TotalSteps ==> step == old(step) + 1 && sent == old(sent)
      ensures stepValid && old(step) == TotalSteps ==> step == TotalSteps
      ensures stepValid && old(step) == TotalSteps && formValid ==> |sent| == |old(sent)| + 1
      ensures old(step) < TotalSteps || !formValid ==> ctx.skinProfile == old(ctx.skinProfile) && sent == old(sent)
      ensures !stepValid || old(step) < TotalSteps || !formValid ==>
        navigatedTo == old(navigatedTo) && ctx.isLoading == old(ctx.isLoading)
      ensures stepValid && old(step) == TotalSteps && formValid ==>
        && sent == old(sent) + [if old(ctx.skinProfile).Some? then UpdateRequest(values) else CreateRequest(values)]
        && (outcome.Ok? ==> ctx.skinProfile == Some(outcome.value) && navigatedTo == Some(DashboardPath))
        && (outcome.Err? ==> ctx.skinProfile == old(ctx.skinProfile) && navigatedTo == old(navigatedTo))
        && !ctx.isLoading
      ensures values == old(values)
      ensures ctx.token == old(ctx.token) && ctx.userData == old(ctx.userData)
    {
      if stepValid {
        if step == TotalSteps {
          if formValid {
            Submit(ctx, outcome);
          }
        } else {
          step := step + 1;
        }
      }
    }

    /** The skin-type radio group's `onValueChange`. */
    method SelectSkinType(t: string)
      modifies this
      ensures values == old(values).(skinType := Some(t))
      ensures step == old(step) && sent == old(sent) && navigatedTo == old(navigatedTo)
    {
      values := values.(skinType := Some(t));
    }

    /** A concern checkbox: the concern is appended when checked, and every copy
        of it is dropped when unchecked. */
    method CheckConcern(concern: string, checked: bool)
      modifies this
      ensures values == old(values).(concerns := CheckboxUpdate(old(values).concerns, concern, checked))
      ensures checked ==> values.concerns == old(values).concerns + [concern]
      ensures !checked ==> concern !in values.concerns
      ensures step == old(step) && sent == old(sent) && navigatedTo == old(navigatedTo)
    {
      values := values.(concerns := CheckboxUpdate(values.concerns, concern, checked));
    }

    /** The allergies input. */
    method SetAllergies(text: string)
      modifies this
      ensures values == old(values).(allergies := Some(text))
      ensures step == old(step) && sent == old(sent) && navigatedTo == old(navigatedTo)
    {
      values := values.(allergies := Some(text));
    }

    /** The goals textarea. */
    method SetGoals(text: string)
      modifies this
      ensures values == old(values).(goals := Some(text))
      ensures step == old(step) && sent == old(sent) && navigatedTo == old(navigatedTo)
    {
      values := values.(goals := Some(text));
    }

    /** `handlePreviousStep`; its button is shown only after the first step. */
    method PreviousStep()
      requires Valid() && step > 1
      modifies this
      ensures step == old(step) - 1 && Valid()
      ensures values == old(values) && sent == old(sent) && navigatedTo == old(navigatedTo)
    {
      step := step - 1;
    }
  }
}
