/**
 * The "Submit Work for Review" wizard: four steps (type, details, upload,
 * review), a chosen submission type, a Continue button that is disabled on
 * step 1 until a type is chosen, and two ways out through `onBack`.
 *
 * `Next` states the effect of one click on the pair (step, type); the class
 * `SubmissionFlow` holds that pair as fields and its handlers are proved
 * against `Next`. A click on a button the current step does not render
 * changes nothing.
 */
module SubmissionWizard {
  import opened Util

  /** The three submission options. */
  datatype Kind = Academic | Code | Design

  /** The value an option writes into `submissionType`. */
  function KindValue(k: Kind): string
  {
    match k
    case Academic => "academic"
    case Code => "code"
    case Design => "design"
  }

  /** The component's two state variables. */
  datatype Wizard = Wizard(step: int, submissionType: string)

  const Initial := Wizard(1, "")

  /** The number of steps. */
  const StepCount := 4

  /** The buttons of the wizard. */
  datatype Click =
    | ChooseType(kind: Kind)   // an option card on step 1
    | Continue                 // step 1 (disabled while no type is chosen), 2 and 3
    | Back                     // steps 2, 3 and 4
    | SubmitForReview          // step 4, leaves through onBack
    | BackToDashboard          // the header link, on every step

  /**
   * What every reachable state satisfies: the step is one of 1..4, the type
   * is empty or one of the three option values, and no step after the first
   * is reached without a type.
   */
  predicate Inv(w: Wizard)
  {
    && 1 <= w.step <= StepCount
    && (w.submissionType == "" || exists k :: w.submissionType == KindValue(k))
    && (w.step > 1 ==> w.submissionType != "")
  }

  /** The state after one click. */
  function Next(w: Wizard, c: Click): (r: Wizard)
    ensures Inv(w) ==> Inv(r)
    ensures !c.ChooseType? ==> r.submissionType == w.submissionType
    ensures c.ChooseType? ==> r.step == w.step
    ensures c.ChooseType? && w.step == 1 ==> r.submissionType == KindValue(c.kind)
    ensures w.step == 1 && w.submissionType == "" && c == Continue ==> r == w
    ensures Inv(w) && c == Continue && w.step < StepCount && (w.step > 1 || w.submissionType != "") ==> r.step == w.step + 1
    ensures Inv(w) && c == Back && w.step > 1 ==> r.step == w.step - 1
    ensures r.step != w.step ==> (c == Continue && r.step == w.step + 1) || (c == Back && r.step == w.step - 1)
    ensures c == SubmitForReview || c == BackToDashboard ==> r == w
  {
    match c
    case ChooseType(k) =>
      if w.step == 1 then w.(submissionType := KindValue(k)) else w
    case Continue =>
      if w.step == 1 && w.submissionType != "" then w.(step := 2)
      else if w.step == 2 then w.(step := 3)
      else if w.step == 3 then w.(step := 4)
      else w
    case Back =>
      if w.step == 2 then w.(step := 1)
      else if w.step == 3 then w.(step := 2)
      else if w.step == 4 then w.(step := 3)
      else w
    case SubmitForReview => w
    case BackToDashboard => w
  }

  /** Whether the click hands control back to the dashboard through `onBack`. */
  function LeavesFlow(w: Wizard, c: Click): bool
  {
    match c
    case BackToDashboard => true
    case SubmitForReview => w.step == StepCount
    case _ => false
  }

  /** The state after a sequence of clicks, first click first. */
  function Run(w: Wizard, clicks: seq<Click>): Wizard
    decreases |clicks|
  {
    if clicks == [] then w else Run(Next(w, clicks[0]), clicks[1..])
  }

  /** Every state reachable from a valid one is valid; in particular the step stays in 1..4. */
  lemma {:induction false} RunKeepsInv(w: Wizard, clicks: seq<Click>)
    requires Inv(w)
    ensures Inv(Run(w, clicks))
    ensures 1 <= Run(w, clicks).step <= StepCount
    decreases |clicks|
  {
    if clicks != [] {
      RunKeepsInv(Next(w, clicks[0]), clicks[1..]);
    }
  }

  /** Only the option cards change the type: moving between steps, back to step 1 included, keeps the choice. */
  lemma {:induction false} RunKeepsChoice(w: Wizard, clicks: seq<Click>)
    requires forall i :: 0 <= i < |clicks| ==> !clicks[i].ChooseType?
    ensures Run(w, clicks).submissionType == w.submissionType
    decreases |clicks|
  {
    if clicks != [] {
      RunKeepsChoice(Next(w, clicks[0]), clicks[1..]);
    }
  }

  /** The initial state is valid, so every state the wizard reaches is. */
  lemma ReachableIsValid(clicks: seq<Click>)
    ensures Inv(Run(Initial, clicks))
    ensures Run(Initial, clicks).step > 1 ==> Run(Initial, clicks).submissionType != ""
  {
    RunKeepsInv(Initial, clicks);
  }

  /** A submission can only be sent from the review step, and so only after a type was chosen. */
  lemma SubmitNeedsChoice(clicks: seq<Click>)
    ensures LeavesFlow(Run(Initial, clicks), SubmitForReview) ==>
      Run(Initial, clicks).step == StepCount && Run(Initial, clicks).submissionType != ""
  {
    RunKeepsInv(Initial, clicks);
  }

  /** Progress circle `num` (1..4) is highlighted exactly when the step has reached it. */
  function Indicators(step: int): seq<bool>
  {
    [step >= 1, step >= 2, step >= 3, step >= 4]
  }

  /** The connector after circle `num` exists for `num` 1..3 and is highlighted once the step has passed it. */
  function Connectors(step: int): seq<bool>
  {
    [step > 1, step > 2, step > 3]
  }

  /** On a valid step exactly `step` circles and `step - 1` connectors are highlighted, the first ones. */
  lemma {:induction false} ProgressMatchesStep(step: int)
    requires 1 <= step <= StepCount
    ensures forall i :: 0 <= i < StepCount ==> (Indicators(step)[i] <==> i < step)
    ensures forall i :: 0 <= i < StepCount - 1 ==> (Connectors(step)[i] <==> i < step - 1)
    ensures CountTrue(Indicators(step)) == step
    ensures CountTrue(Connectors(step)) == step - 1
  {
    CountTruePrefix(Indicators(step), step);
    CountTruePrefix(Connectors(step), step - 1);
  }

  /** The component: the step and the chosen type, updated by the click handlers. */
  class SubmissionFlow {
    var step: int
    var submissionType: string

    /** The state as a value. */
    function State(): Wizard
      reads this
    {
      Wizard(step, submissionType)
    }

    ghost predicate Valid()
      reads this
    {
      Inv(State())
    }

    /** A fresh wizard starts on step 1 with no type chosen. */
    constructor ()
      ensures Valid()
      ensures step == 1 && submissionType == ""
    {
      step := 1;
      submissionType := "";
    }

    /** An option card: on step 1 it records the option's value and stays on the step. */
    method SelectType(k: Kind)
      requires Valid()
      modifies this
      ensures Valid()
      ensures State() == Next(old(State()), ChooseType(k))
    {
      if step == 1 {
        submissionType := KindValue(k);
      }
    }

    /** Continue: to step 2 once a type is chosen, then to steps 3 and 4. */
    method Continue()
      requires Valid()
      modifies this
      ensures Valid()
      ensures State() == Next(old(State()), Click.Continue)
    {
      if step == 1 {
        if submissionType != "" {
          step := 2;
        }
      } else if step == 2 {
        step := 3;
      } else if step == 3 {
        step := 4;
      }
    }

    /** Back: from steps 2, 3 and 4 to the step before. */
    method Back()
      requires Valid()
      modifies this
      ensures Valid()
      ensures State() == Next(old(State()), Click.Back)
    {
      if step == 2 {
        step := 1;
      } else if step == 3 {
        step := 2;
      } else if step == 4 {
        step := 3;
      }
    }

    /** "Submit for Review": shown on step 4 only, where it calls `onBack`. */
    method SubmitForReview() returns (leave: bool)
      ensures leave <==> step == StepCount
      ensures leave == LeavesFlow(State(), Click.SubmitForReview)
    {
      leave := step == StepCount;
    }

    /** "Back to Dashboard": calls `onBack` from any step. */
    method BackToDashboard() returns (leave: bool)
      ensures leave
      ensures leave == LeavesFlow(State(), Click.BackToDashboard)
    {
      leave := true;
    }
  }
}
