/** The wizard's five steps and the Previous/Next buttons of
    src/components/wizard/WizardNavigation.tsx. */
module WizardNavigation {
  import opened Wrappers

  /** `WizardStep`: "idea" | "hook" | "structure" | "captions" | "performance". */
  datatype Step = Idea | Hook | Structure | Captions | Performance

  /** The step's string value. */
  function Name(s: Step): string
  {
    match s
    case Idea => "idea"
    case Hook => "hook"
    case Structure => "structure"
    case Captions => "captions"
    case Performance => "performance"
  }

  /** `STEPS`, in wizard order. */
  const Steps: seq<Step> := [Idea, Hook, Structure, Captions, Performance]

  /** `STEPS.indexOf(step)`: every step occurs once, so this is its position. */
  function IndexOf(s: Step): (i: nat)
    ensures i < |Steps| && Steps[i] == s
    ensures forall j :: 0 <= j < |Steps| && Steps[j] == s ==> j == i
  {
    match s
    case Idea => 0
    case Hook => 1
    case Structure => 2
    case Captions => 3
    case Performance => 4
  }

  /** `handlePrevious`: the step before the current one, none at the first. */
  function HandlePrevious(current: Step): (r: Option<Step>)
    ensures r.None? <==> IndexOf(current) == 0
    ensures r.Some? ==> IndexOf(r.value) == IndexOf(current) - 1
  {
    var i := IndexOf(current);
    if i > 0 then Some(Steps[i - 1]) else None
  }

  /** `handleNext`: the step after the current one, none at the last. */
  function HandleNext(current: Step): (r: Option<Step>)
    ensures r.None? <==> IndexOf(current) == |Steps| - 1
    ensures r.Some? ==> IndexOf(r.value) == IndexOf(current) + 1
  {
    var i := IndexOf(current);
    if i < |Steps| - 1 then Some(Steps[i + 1]) else None
  }

  /** `disabled={currentIndex === 0}` on Previous. */
  predicate PreviousDisabled(current: Step)
  {
    IndexOf(current) == 0
  }

  /** `disabled={currentIndex === STEPS.length - 1}` on Next. */
  predicate NextDisabled(current: Step)
  {
    IndexOf(current) == |Steps| - 1
  }

  /** A button is disabled exactly when its handler would emit nothing. */
  lemma DisabledIffNoStep(current: Step)
    ensures PreviousDisabled(current) <==> HandlePrevious(current).None?
    ensures NextDisabled(current) <==> HandleNext(current).None?
  {
  }

  /** Previous after a Next that moved returns to the starting step, and the
      other way round. */
  lemma PreviousUndoesNext(s: Step)
    ensures HandleNext(s).Some? ==> HandlePrevious(HandleNext(s).value) == Some(s)
    ensures HandlePrevious(s).Some? ==> HandleNext(HandlePrevious(s).value) == Some(s)
  {
  }

  /** The steps are pairwise distinct and their names too. */
  lemma StepsDistinct()
    ensures forall i, j :: 0 <= i < j < |Steps| ==> Steps[i] != Steps[j] && Name(Steps[i]) != Name(Steps[j])
  {
  }

  /** The number of `true`s in a sequence. */
  function CountTrue(bs: seq<bool>): (n: nat)
    ensures n <= |bs|
  {
    if bs == [] then 0 else (if bs[0] then 1 else 0) + CountTrue(bs[1..])
  }

  /** One `true`, at `k`, and `false` elsewhere, counts one. */
  lemma {:induction false} CountTrueSingle(bs: seq<bool>, k: nat)
    requires k < |bs| && bs[k]
    requires forall i :: 0 <= i < |bs| && i != k ==> !bs[i]
    ensures CountTrue(bs) == 1
  {
    if k == 0 {
      CountTrueNone(bs[1..]);
    } else {
      CountTrueSingle(bs[1..], k - 1);
    }
  }

  lemma {:induction false} CountTrueNone(bs: seq<bool>)
    requires forall i :: 0 <= i < |bs| ==> !bs[i]
    ensures CountTrue(bs) == 0
  {
    if bs != [] {
      CountTrueNone(bs[1..]);
    }
  }

  /** `true` exactly on the first `k` positions counts `k`. */
  lemma {:induction false} CountTruePrefix(bs: seq<bool>, k: nat)
    requires k <= |bs|
    requires forall i :: 0 <= i < |bs| ==> (bs[i] <==> i < k)
    ensures CountTrue(bs) == k
  {
    if k == 0 {
      CountTrueNone(bs);
    } else {
      CountTruePrefix(bs[1..], k - 1);
    }
  }
}
