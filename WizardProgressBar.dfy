/** src/components/wizard/WizardProgressBar.tsx: the position of the current step,
    the width of the fill and the completed/active state of each indicator. */
module WizardProgressBar {
  import opened Js
  import opened WizardNavigation

  datatype StepInfo = StepInfo(id: Step, text: string)

  /** The bar's own `STEPS` table. */
  const ProgressSteps: seq<StepInfo> := [
    StepInfo(Idea, "Content Idea"),
    StepInfo(Hook, "Hook Generator"),
    StepInfo(Structure, "Content Structure"),
    StepInfo(Captions, "Captions & Hashtags"),
    StepInfo(Performance, "Performance Analysis")
  ]

  /** The table lists the steps in the same order as the navigation buttons. */
  lemma SameOrderAsNavigation()
    ensures |ProgressSteps| == |Steps|
    ensures forall i :: 0 <= i < |Steps| ==> ProgressSteps[i].id == Steps[i]
  {
  }

  /** `STEPS.findIndex(step => step.id === currentStep)`. */
  function CurrentIndex(current: Step): (i: int)
    ensures 0 <= i < |ProgressSteps|
    ensures i == IndexOf(current)
  {
    FindIndex(ProgressSteps, (st: StepInfo) => st.id == current)
  }

  /** `(currentIndex / (STEPS.length - 1)) * 100`, in percent. */
  function FillWidth(current: Step): (w: real)
    ensures w == 25.0 * (IndexOf(current) as real)
    ensures w == 0.0 || w == 25.0 || w == 50.0 || w == 75.0 || w == 100.0
  {
    var i := CurrentIndex(current);
    QuarterPercent(i, (|ProgressSteps| - 1) as real);
    (i as real / (|ProgressSteps| - 1) as real) * 100.0
  }

  /** Over a denominator of 4, every step of the index is 25 percent. */
  lemma QuarterPercent(i: int, d: real)
    requires d == 4.0
    ensures (i as real / d) * 100.0 == 25.0 * (i as real)
  {
  }

  /** One rendered indicator: the number shown, its label and its two classes. */
  datatype Indicator = Indicator(number: nat, text: string, completed: bool, active: bool)

  /** `STEPS.map((step, index) => …)`: completed when `currentIndex >= index`,
      active when `currentIndex === index`, numbered `index + 1`. */
  function Indicators(current: Step): (r: seq<Indicator>)
    ensures |r| == |ProgressSteps|
    ensures forall i :: 0 <= i < |r| ==>
              && r[i].number == i + 1
              && r[i].text == ProgressSteps[i].text
              && (r[i].completed <==> i <= IndexOf(current))
              && (r[i].active <==> i == IndexOf(current))
  {
    var k := CurrentIndex(current);
    seq(|ProgressSteps|, i requires 0 <= i < |ProgressSteps| =>
      Indicator(i + 1, ProgressSteps[i].text, k >= i, k == i))
  }

  function Completed(r: seq<Indicator>): seq<bool>
  {
    seq(|r|, i requires 0 <= i < |r| => r[i].completed)
  }

  function Active(r: seq<Indicator>): seq<bool>
  {
    seq(|r|, i requires 0 <= i < |r| => r[i].active)
  }

  /** The current step and all before it are completed: `currentIndex + 1` of them. */
  lemma CompletedCount(current: Step)
    ensures CountTrue(Completed(Indicators(current))) == IndexOf(current) + 1
  {
    CountTruePrefix(Completed(Indicators(current)), IndexOf(current) + 1);
  }

  /** Exactly one indicator is active, the current step's. */
  lemma OneActive(current: Step)
    ensures CountTrue(Active(Indicators(current))) == 1
    ensures Indicators(current)[IndexOf(current)].active
  {
    CountTrueSingle(Active(Indicators(current)), IndexOf(current));
  }
}
