/** The mock route src/app/api/ai/generate-hooks/route.ts: after checking the three
    required fields it returns three hook templates filled in with the target
    audience. */
module GenerateHooks {
  import opened Wrappers
  import opened Js
  import opened Http

  /** The request body; `None` for an absent or falsy field. */
  datatype HookRequest = HookRequest(
    contentIdea: Option<string>,
    hookType: Option<string>,
    targetAudience: Option<string>)

  predicate Valid(req: HookRequest)
  {
    Present(req.contentIdea) && Present(req.hookType) && Present(req.targetAudience)
  }

  datatype GeneratedHook = GeneratedHook(hook: string, explanation: string, effectiveness: int)

  const StatisticExplanation: string :=
    "This hook uses a statistical claim to create immediate interest and relatability."
  const SolutionExplanation: string :=
    "This hook creates curiosity by promising a solution to a common pain point."
  const CommandExplanation: string :=
    "This hook uses a pattern interrupt with a direct command that creates curiosity."

  const StatisticPrefix: string := "Did you know that 87% of "
  const StatisticSuffix: string := " struggle with this exact problem?"
  const SolutionPrefix: string := "I discovered a way to solve the biggest problem "
  const SolutionSuffix: string := " face daily..."
  const CommandPrefix: string := "Stop doing THIS if you're a "
  const CommandSuffix: string := " who wants better results!"

  /** The three hooks for an audience: the first two name it in full, the third
      only up to its first comma. */
  function BuildHooks(targetAudience: string): (hs: seq<GeneratedHook>)
    ensures |hs| == 3
    ensures hs[0].effectiveness == 8 && hs[1].effectiveness == 9 && hs[2].effectiveness == 7
    ensures hs[0].hook == StatisticPrefix + targetAudience + StatisticSuffix
    ensures hs[1].hook == SolutionPrefix + targetAudience + SolutionSuffix
    ensures hs[2].hook == CommandPrefix + FirstField(targetAudience) + CommandSuffix
  {
    [GeneratedHook(StatisticPrefix + targetAudience + StatisticSuffix, StatisticExplanation, 8),
     GeneratedHook(SolutionPrefix + targetAudience + SolutionSuffix, SolutionExplanation, 9),
     GeneratedHook(CommandPrefix + FirstField(targetAudience) + CommandSuffix, CommandExplanation, 7)]
  }

  /** The second hook is rated highest, and every rating is within 1..10. */
  lemma HookRatings(targetAudience: string)
    ensures forall i :: 0 <= i < 3 ==> 1 <= BuildHooks(targetAudience)[i].effectiveness <= 10
    ensures forall i :: 0 <= i < 3 ==> BuildHooks(targetAudience)[i].effectiveness <= BuildHooks(targetAudience)[1].effectiveness
  {
  }

  /** The audience embedded in the third hook is the part before the first comma: no
      comma is left in it, and for an audience without a comma it is the whole
      audience, so then all three hooks name the same audience. */
  lemma ThirdHookAudience(targetAudience: string)
    ensures var a := FirstField(targetAudience);
            var h := BuildHooks(targetAudience)[2].hook;
            && h[|CommandPrefix|..|CommandPrefix| + |a|] == a
            && (forall i :: 0 <= i < |a| ==> a[i] != ',')
            && targetAudience[..|a|] == a
    ensures (forall i :: 0 <= i < |targetAudience| ==> targetAudience[i] != ',') ==>
              BuildHooks(targetAudience)[2].hook == CommandPrefix + targetAudience + CommandSuffix
  {
    var a := FirstField(targetAudience);
    var h := BuildHooks(targetAudience)[2].hook;
    assert h == CommandPrefix + a + CommandSuffix;
    assert h[|CommandPrefix|..|CommandPrefix| + |a|] == a;
    if forall i :: 0 <= i < |targetAudience| ==> targetAudience[i] != ',' {
      FirstFieldNoComma(targetAudience);
    }
  }

  const GenerateFailed: string := "Failed to generate hooks"

  /** `POST`: `body` is `None` when `request.json()` throws or yields `null`, whose
      destructuring throws inside the same `try`. */
  function Generate(body: Option<HookRequest>): (r: Response<seq<GeneratedHook>>)
    ensures r == Failure(500, GenerateFailed) <==> body.None?
    ensures r == Failure(400, MissingFields) <==> body.Some? && !Valid(body.value)
    ensures r.Success? <==> body.Some? && Valid(body.value)
    ensures r.Success? ==> r.body == BuildHooks(body.value.targetAudience.value)
  {
    if body.None? then Failure(500, GenerateFailed)
    else if !Valid(body.value) then Failure(400, MissingFields)
    else Success(BuildHooks(body.value.targetAudience.value))
  }

  /** Past validation the answer depends on the target audience only: the content
      idea and the hook type are never read. */
  lemma GenerateDependsOnlyOnAudience(a: HookRequest, b: HookRequest)
    requires Valid(a) && Valid(b) && a.targetAudience == b.targetAudience
    ensures Generate(Some(a)) == Generate(Some(b))
  {
  }
}
