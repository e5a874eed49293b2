/** src/components/wizard/WizardLayout.tsx: the `currentStep` state the step
    components' buttons reassign, the progress width and the highlighted label. */
module WizardLayout {
  import opened Wrappers
  import opened WizardNavigation

  /** The step the forward button of each rendered step moves to: ContentIdeaStep's
      and HookGeneratorStep's `onNext`, the two Continue buttons. The Complete button
      on the performance step has no handler. */
  function ForwardTarget(s: Step): (r: Option<Step>)
    ensures r == HandleNext(s)
  {
    match s
    case Idea => Some(Hook)
    case Hook => Some(Structure)
    case Structure => Some(Captions)
    case Captions => Some(Performance)
    case Performance => None
  }

  /** The step each back button moves to: HookGeneratorStep's `onBack` and the three
      Back buttons. The idea step has none. */
  function BackTarget(s: Step): (r: Option<Step>)
    ensures r == HandlePrevious(s)
  {
    match s
    case Idea => None
    case Hook => Some(Idea)
    case Structure => Some(Hook)
    case Captions => Some(Structure)
    case Performance => Some(Captions)
  }

  /** The width of the progress fill in percent. */
  function ProgressWidth(s: Step): (w: nat)
    ensures w == 20 * (IndexOf(s) + 1)
    ensures 20 <= w <= 100
  {
    if s == Idea then 20
    else if s == Hook then 40
    else if s == Structure then 60
    else if s == Captions then 80
    else 100
  }

  /** The width grows strictly along the wizard order. */
  lemma ProgressWidthIncreases(a: Step, b: Step)
    requires IndexOf(a) < IndexOf(b)
    ensures ProgressWidth(a) < ProgressWidth(b)
  {
  }

  /** Which of the five labels is highlighted, in wizard order. */
  function Highlights(current: Step): (h: seq<bool>)
    ensures |h| == |Steps|
    ensures forall i :: 0 <= i < |h| ==> (h[i] <==> i == IndexOf(current))
  {
    [current == Idea, current == Hook, current == Structure, current == Captions, current == Performance]
  }

  /** Exactly one label is highlighted, the current step's. */
  lemma OneLabelHighlighted(current: Step)
    ensures CountTrue(Highlights(current)) == 1
  {
    CountTrueSingle(Highlights(current), IndexOf(current));
  }

  class Wizard {
    var currentStep: Step

    /** `useState<WizardStep>("idea")`. */
    constructor ()
      ensures currentStep == Idea
    {
      currentStep := Idea;
    }

    /** A click on the rendered step's forward button: moves one step on, or stays
        on the last step. */
    method Forward()
      modifies this
      ensures ForwardTarget(old(currentStep)).Some? ==> currentStep == ForwardTarget(old(currentStep)).value
      ensures ForwardTarget(old(currentStep)).None? ==> currentStep == old(currentStep) == Performance
      ensures currentStep == old(currentStep) || IndexOf(currentStep) == IndexOf(old(currentStep)) + 1
    {
      var t := ForwardTarget(currentStep);
      if t.Some? {
        currentStep := t.value;
      }
    }

    /** A click on the rendered step's back button: moves one step back, or stays on
        the first step. */
    method Back()
      modifies this
      ensures BackTarget(old(currentStep)).Some? ==> currentStep == BackTarget(old(currentStep)).value
      ensures BackTarget(old(currentStep)).None? ==> currentStep == old(currentStep) == Idea
      ensures currentStep == old(currentStep) || IndexOf(currentStep) == IndexOf(old(currentStep)) - 1
    {
      var t := BackTarget(currentStep);
      if t.Some? {
        currentStep := t.value;
      }
    }
  }
}
