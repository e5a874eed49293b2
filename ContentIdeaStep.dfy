/** The local state of src/components/wizard/steps/ContentIdeaStep.tsx: three text
    fields, the analysis and the loading flag. The current project it starts from has
    the shape of src/store/slices/projectsSlice.ts (`contentIdea.text`, `.audience`,
    `.goal`).

    The simulated 1.5-second request is split in two: `BeginAnalyze` is the handler
    up to the `await`, `CompleteAnalyze` the rest. Nothing in the handler can throw,
    so the `catch` branch is not modelled; `finally` resets loading in
    `CompleteAnalyze`. */
module ContentIdeaStep {
  import opened Wrappers
  import ScoreVisualization
  import SlicesProjectsSlice

  datatype Improvement = Improvement(suggestion: string, reasoning: string)

  datatype IdeaAnalysis = IdeaAnalysis(
    score: int,
    strengths: seq<string>,
    weaknesses: seq<string>,
    improvements: seq<Improvement>,
    summary: string)

  /** The fixed analysis the handler produces, whatever the input. */
  const MockAnalysis: IdeaAnalysis := IdeaAnalysis(
    7,
    ["Clearly addresses a specific audience",
     "Has potential for emotional connection",
     "Tackles a relatable pain point"],
    ["Lacks a unique hook or twist",
     "Could be too generic for the platform",
     "Might be difficult to convey in short-form"],
    [Improvement("Add a surprising statistic or contrarian view to hook viewers",
                 "Opening with unexpected information creates immediate curiosity and stops scrolling"),
     Improvement("Include a specific personal story example",
                 "Personal examples increase authenticity and emotional connection"),
     Improvement("End with a clear, specific action for viewers",
                 "Clear CTAs improve engagement metrics and algorithm performance")],
    "This content idea has good potential but needs more uniqueness and specificity to truly stand out in a crowded feed. Adding emotional triggers and unexpected elements would significantly improve virality potential.")

  /** The mock has score 7 and three entries in each list, so the score ring shows
      it yellow and labels it "Good". */
  lemma MockAnalysisShape()
    ensures MockAnalysis.score == 7
    ensures |MockAnalysis.strengths| == 3 && |MockAnalysis.weaknesses| == 3 && |MockAnalysis.improvements| == 3
    ensures ScoreVisualization.GetColor(MockAnalysis.score as real) == ScoreVisualization.Yellow
    ensures ScoreVisualization.Label(MockAnalysis.score as real) == "Good"
  {
  }

  /** `currentProject?.contentIdea?.field || ""`. */
  function InitialField(current: Option<SlicesProjectsSlice.Project>,
                        field: SlicesProjectsSlice.ContentIdea -> string): (r: string)
    ensures current.None? || current.value.contentIdea.None? ==> r == ""
    ensures current.Some? && current.value.contentIdea.Some? ==> r == field(current.value.contentIdea.value)
  {
    if current.Some? && current.value.contentIdea.Some? then field(current.value.contentIdea.value) else ""
  }

  class IdeaStep {
    var contentIdea: string
    var targetAudience: string
    var contentGoal: string
    var analysis: Option<IdeaAnalysis>
    var loading: bool

    constructor (current: Option<SlicesProjectsSlice.Project>)
      ensures contentIdea == InitialField(current, (c: SlicesProjectsSlice.ContentIdea) => c.text)
      ensures targetAudience == InitialField(current, (c: SlicesProjectsSlice.ContentIdea) => c.audience)
      ensures contentGoal == InitialField(current, (c: SlicesProjectsSlice.ContentIdea) => c.goal)
      ensures analysis == None && !loading
    {
      contentIdea := InitialField(current, (c: SlicesProjectsSlice.ContentIdea) => c.text);
      targetAudience := InitialField(current, (c: SlicesProjectsSlice.ContentIdea) => c.audience);
      contentGoal := InitialField(current, (c: SlicesProjectsSlice.ContentIdea) => c.goal);
      analysis := None;
      loading := false;
    }

    method SetContentIdea(s: string)
      modifies this`contentIdea
      ensures contentIdea == s
    {
      contentIdea := s;
    }

    method SetTargetAudience(s: string)
      modifies this`targetAudience
      ensures targetAudience == s
    {
      targetAudience := s;
    }

    method SetContentGoal(s: string)
      modifies this`contentGoal
      ensures contentGoal == s
    {
      contentGoal := s;
    }

    /** All three inputs are non-empty. */
    predicate Filled()
      reads this
    {
      contentIdea != "" && targetAudience != "" && contentGoal != ""
    }

    /** `disabled={loading || !contentIdea || !targetAudience || !contentGoal}`. */
    predicate AnalyzeDisabled()
      reads this
    {
      loading || !Filled()
    }

    /** `handleAnalyze` up to the `await`: nothing changes when a field is empty,
        otherwise loading starts. */
    method BeginAnalyze() returns (started: bool)
      modifies this`loading
      ensures started <==> Filled()
      ensures started ==> loading
      ensures !started ==> loading == old(loading)
    {
      if !Filled() {
        return false;
      }
      loading := true;
      started := true;
    }

    /** The rest of `handleAnalyze`: the mock becomes the analysis and loading ends.
        No reducer is dispatched; the fields are left as they are. */
    method CompleteAnalyze()
      modifies this`analysis, this`loading
      ensures analysis == Some(MockAnalysis)
      ensures !loading
    {
      analysis := Some(MockAnalysis);
      loading := false;
    }

    /** The results panel, and the Continue button in it, appear only once there is
        an analysis; the button also needs an `onNext` callback. */
    predicate ShowContinue(hasOnNext: bool)
      reads this
    {
      analysis.Some? && hasOnNext
    }
  }
}
