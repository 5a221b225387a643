/** The portfolio wizard: a welcome page, then eight steps walked forward
    and backward, each forward move gated by the validity of the step being
    left. */
module App {
  import opened Portfolio
  import Text

  const StepLabels: seq<string> := [
    "Personal Info", "About Me", "Education", "Projects",
    "Achievements", "Social Links", "Review & Save", "Generate Portfolio"]

  const LastStep := |StepLabels| - 1

  /** The form state the wizard owns. */
  datatype Form = Form(
    personalInfo: PersonalInfo,
    aboutMe: string,
    education: seq<Education>,
    projects: seq<Project>,
    achievements: seq<Achievement>,
    socialLinks: SocialLinks)

  const InitialForm := Form(EmptyPersonalInfo, "", [], [], [], EmptySocialLinks)

  /** `isStepValid(step)`: the rule each step imposes before the wizard may
      leave it. */
  predicate IsStepValid(step: int, f: Form)
    ensures IsStepValid(step, f) ==> 0 <= step < |StepLabels|
    ensures step == 2 || step == 4 || step == 6 || step == 7 ==> IsStepValid(step, f)
  {
    match step
    case 0 => f.personalInfo.name != "" && f.personalInfo.age != ""
              && f.personalInfo.location != "" && f.personalInfo.email != ""
    case 1 => Text.Utf16Length(f.aboutMe) >= 50
    case 2 => true
    case 3 => |f.projects| >= 1
    case 4 => true
    case 5 => f.socialLinks.github != "" && f.socialLinks.linkedin != ""
    case 6 => true
    case 7 => true
    case _ => false
  }

  /** The form the wizard accepts, stated field by field, independently of
      the step numbering. */
  predicate Complete(f: Form) {
    && f.personalInfo.name != "" && f.personalInfo.age != ""
    && f.personalInfo.location != "" && f.personalInfo.email != ""
    && Text.Utf16Length(f.aboutMe) >= 50
    && |f.projects| >= 1
    && f.socialLinks.github != "" && f.socialLinks.linkedin != ""
  }

  /** The about-me rule counts UTF-16 code units: 25 characters outside the
      Basic Multilingual Plane, such as emoji, already satisfy it. */
  lemma AboutMeCountsCodeUnits(f: Form)
    requires |f.aboutMe| == 25 && forall i :: 0 <= i < 25 ==> f.aboutMe[i] as int >= 0x10000
    ensures IsStepValid(1, f)
  {
    Text.Utf16LengthOfAstral(f.aboutMe);
  }

  /** Every step is valid exactly when the form is complete, and no step
      outside the wizard is ever valid. */
  lemma AllStepsValidIffComplete(f: Form)
    ensures (forall s :: 0 <= s <= LastStep ==> IsStepValid(s, f)) <==> Complete(f)
    ensures forall s :: s < 0 || s > LastStep ==> !IsStepValid(s, f)
  {
    if forall s :: 0 <= s <= LastStep ==> IsStepValid(s, f) {
      assert IsStepValid(0, f) && IsStepValid(1, f) && IsStepValid(3, f) && IsStepValid(5, f);
    }
  }

  /** The step `nextStep` moves to. */
  function NextStepOf(step: int, f: Form): int {
    if step < LastStep && IsStepValid(step, f) then step + 1 else step
  }

  /** The step `prevStep` moves to. */
  function PrevStepOf(step: int): int {
    if step > 0 then step - 1 else step
  }

  /** `nextStep` advances by exactly one when the step is valid and not the
      last, and otherwise stays put. */
  lemma NextStepMoves(step: int, f: Form)
    requires 0 <= step <= LastStep
    ensures 0 <= NextStepOf(step, f) <= LastStep
    ensures NextStepOf(step, f) == step + 1 <==> step < LastStep && IsStepValid(step, f)
    ensures NextStepOf(step, f) != step + 1 ==> NextStepOf(step, f) == step
  {
  }

  /** `prevStep` goes back by exactly one unless at the first step. */
  lemma PrevStepMoves(step: int)
    requires 0 <= step <= LastStep
    ensures 0 <= PrevStepOf(step) <= LastStep
    ensures PrevStepOf(step) == step - 1 <==> step > 0
    ensures step == 0 ==> PrevStepOf(step) == 0
  {
  }

  /** What the user does on a wizard page: press Next, press Back, or edit
      the form. */
  datatype Action = Next | Prev | Edit(form: Form)

  /** The step and form after a sequence of actions. */
  function Run(step: int, f: Form, actions: seq<Action>): (int, Form)
    decreases |actions|
  {
    if actions == [] then (step, f)
    else match actions[0]
      case Next => Run(NextStepOf(step, f), f, actions[1..])
      case Prev => Run(PrevStepOf(step), f, actions[1..])
      case Edit(g) => Run(step, g, actions[1..])
  }

  /** Under any sequence of actions the step stays an index of the labels. */
  lemma {:induction false} RunStaysInBounds(step: int, f: Form, actions: seq<Action>)
    requires 0 <= step < |StepLabels|
    ensures 0 <= Run(step, f, actions).0 < |StepLabels|
    decreases |actions|
  {
    if actions != [] {
      match actions[0]
      case Next => NextStepMoves(step, f); RunStaysInBounds(NextStepOf(step, f), f, actions[1..]);
      case Prev => PrevStepMoves(step); RunStaysInBounds(PrevStepOf(step), f, actions[1..]);
      case Edit(g) => RunStaysInBounds(step, g, actions[1..]);
    }
  }

  /** Without editing, an invalid step is a wall: no sequence of Next and
      Back presses gets past it. */
  lemma {:induction false} InvalidStepBlocks(step: int, f: Form, wall: int, actions: seq<Action>)
    requires 0 <= step <= wall && !IsStepValid(wall, f)
    requires forall i :: 0 <= i < |actions| ==> !actions[i].Edit?
    ensures Run(step, f, actions).0 <= wall
    ensures Run(step, f, actions).1 == f
    decreases |actions|
  {
    if actions != [] {
      assert !actions[0].Edit?;
      var next := if actions[0].Next? then NextStepOf(step, f) else PrevStepOf(step);
      assert next <= wall;
      InvalidStepBlocks(next, f, wall, actions[1..]);
    }
  }

  function Nexts(n: nat): (r: seq<Action>)
    ensures |r| == n && forall i :: 0 <= i < n ==> r[i] == Next
  {
    seq(n, _ => Next)
  }

  function Min(a: int, b: int): int {
    if a <= b then a else b
  }

  /** With a complete form, pressing Next `n` times from any step walks
      forward `n` steps, stopping at the last. */
  lemma {:induction false} CompleteFormWalks(step: int, f: Form, n: nat)
    requires Complete(f) && 0 <= step <= LastStep
    ensures Run(step, f, Nexts(n)) == (Min(step + n, LastStep), f)
    decreases n
  {
    if n > 0 {
      AllStepsValidIffComplete(f);
      assert Nexts(n)[1..] == Nexts(n - 1);
      CompleteFormWalks(NextStepOf(step, f), f, n - 1);
    }
  }

  /** The wizard's state: whether the welcome page shows, the current step
      and the form. */
  class Wizard {
    var showWelcome: bool
    var currentStep: int
    var personalInfo: PersonalInfo
    var aboutMe: string
    var education: seq<Education>
    var projects: seq<Project>
    var achievements: seq<Achievement>
    var socialLinks: SocialLinks

    /** The current step is an index of the labels. */
    ghost predicate Valid()
      reads this
    {
      0 <= currentStep < |StepLabels|
    }

    function FormOf(): Form
      reads this
    {
      Form(personalInfo, aboutMe, education, projects, achievements, socialLinks)
    }

    /** `canProceed` */
    predicate CanProceed()
      reads this
    {
      IsStepValid(currentStep, FormOf())
    }

    constructor ()
      ensures Valid() && showWelcome && currentStep == 0 && FormOf() == InitialForm
    {
      showWelcome := true;
      currentStep := 0;
      personalInfo := EmptyPersonalInfo;
      aboutMe := "";
      education := [];
      projects := [];
      achievements := [];
      socialLinks := EmptySocialLinks;
    }

    /** `startPortfolioCreation`: leave the welcome page. */
    method StartPortfolioCreation()
      modifies this
      ensures !showWelcome
      ensures currentStep == old(currentStep) && FormOf() == old(FormOf())
    {
      showWelcome := false;
    }

    /** `backToWelcome`: the welcome page again, step 0, every form field
      back to its initial empty value. */
    method BackToWelcome()
      modifies this
      ensures Valid() && showWelcome && currentStep == 0 && FormOf() == InitialForm
    {
      showWelcome := true;
      currentStep := 0;
      personalInfo := EmptyPersonalInfo;
      aboutMe := "";
      education := [];
      projects := [];
      achievements := [];
      socialLinks := EmptySocialLinks;
    }

    /** The form pages hand the wizard their edited values. */
    method SetForm(f: Form)
      requires Valid()
      modifies this
      ensures Valid() && FormOf() == f
      ensures currentStep == old(currentStep) && showWelcome == old(showWelcome)
    {
      personalInfo := f.personalInfo;
      aboutMe := f.aboutMe;
      education := f.education;
      projects := f.projects;
      achievements := f.achievements;
      socialLinks := f.socialLinks;
    }

    /** `nextStep` */
    method NextStep()
      requires Valid()
      modifies this
      ensures Valid()
      ensures currentStep == NextStepOf(old(currentStep), old(FormOf()))
      ensures FormOf() == old(FormOf()) && showWelcome == old(showWelcome)
    {
      if currentStep < |StepLabels| - 1 && CanProceed() {
        currentStep := currentStep + 1;
      }
    }

    /** `prevStep` */
    method PrevStep()
      requires Valid()
      modifies this
      ensures Valid()
      ensures currentStep == PrevStepOf(old(currentStep))
      ensures FormOf() == old(FormOf()) && showWelcome == old(showWelcome)
    {
      if currentStep > 0 {
        currentStep := currentStep - 1;
      }
    }
  }
}
