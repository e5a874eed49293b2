/** The local state of src/components/wizard/steps/HookGeneratorStep.tsx: the hook
    type, the loading flag, the generated hooks, the selected hook and the error
    message, over the fixed `HOOK_TYPES` and `MOCK_DATA` tables.

    The one-second `setTimeout` is split in two: `GenerateHooks` is the click
    handler, `CompleteGenerate` the timer callback. The callback closes over the hook
    type of the render that scheduled it, so it receives that type. */
module HookGeneratorStep {
  import opened Wrappers
  import opened LocalStorageService

  datatype HookType = HookType(value: string, name: string, description: string)

  /** The hook types offered. */
  const HookTypes: seq<HookType> := [
    HookType("question", "Question Hook", "Opens with a compelling question that makes viewers curious"),
    HookType("statistic", "Statistic Hook", "Starts with a surprising or shocking statistic"),
    HookType("story", "Story Hook", "Begins with a brief, engaging personal story"),
    HookType("controversial", "Controversial Hook", "Opens with a bold or unexpected statement"),
    HookType("problem", "Problem Hook", "Immediately presents a problem your audience relates to")
  ]

  datatype MockHook = MockHook(hook: string, explanation: string, effectiveness: int)

  /** The three hooks of each type in `MOCK_DATA`. */
  const QuestionHooks: seq<MockHook> := [
    MockHook("Are you making these 3 fatal mistakes that are killing your social media growth?",
      "This question immediately creates anxiety and curiosity - viewers worry they might be making these mistakes and need to know what they are.", 9),
    MockHook("Want to know the secret technique that top creators never share?",
      "This appeals to the desire for exclusive information and creates an information gap the viewer wants to fill.", 8),
    MockHook("What if everything you know about going viral is actually wrong?",
      "This challenges existing beliefs and creates cognitive dissonance that makes viewers want to resolve the tension by watching more.", 7)
  ]

  const StatisticHooks: seq<MockHook> := [
    MockHook("80% of viral videos share this one feature - and it's not what you think",
      "Using a specific percentage adds credibility while the twist at the end creates curiosity about what this unexpected feature might be.", 9),
    MockHook("New study shows only 3% of content creators do this simple trick that triples engagement",
      "This combines statistical rarity with the promise of a simple solution, making viewers feel they can gain exclusive knowledge.", 8),
    MockHook("I analyzed 100 viral videos and discovered this shocking pattern",
      "This establishes authority through research and promises to reveal an unexpected insight that viewers won't want to miss.", 7)
  ]

  const StoryHooks: seq<MockHook> := [
    MockHook("I went from 0 to 100K followers in 30 days after making this one change...",
      "Personal transformation stories are highly compelling, and the promise of a simple change makes it feel achievable for viewers too.", 9),
    MockHook("My content was failing until a famous creator sent me this message...",
      "This creates curiosity about both the message and the famous person, while promising valuable advice that changed the creator's fortunes.", 8),
    MockHook("Last month I was about to quit, then this happened...",
      "The contrast between negative and positive outcomes creates emotional investment, and the vague 'this happened' creates a curiosity gap.", 7)
  ]

  const ControversialHooks: seq<MockHook> := [
    MockHook("Everything your favorite influencers tell you about growth is a complete lie",
      "This bold statement challenges established authorities and promises to reveal hidden truths, compelling viewers to watch to confirm or deny.", 9),
    MockHook("This 'forbidden' content strategy is why some creators blow up overnight",
      "The word 'forbidden' suggests exclusive, slightly taboo information that creates immediate interest and a sense of insider knowledge.", 8),
    MockHook("I'm about to show you why most social media advice is actually hurting your growth",
      "This contrarian view creates cognitive dissonance, especially for viewers who have been following common advice without success.", 7)
  ]

  const ProblemHooks: seq<MockHook> := [
    MockHook("Struggling to get views? Here's the real reason your content isn't going viral",
      "This directly addresses a pain point and promises the 'real' solution, implying other solutions have been incorrect or incomplete.", 9),
    MockHook("If your reach suddenly dropped, this hidden algorithm change is probably why",
      "This targets a specific problem and attributes it to something outside the viewer's control but within their ability to adapt to - if they watch.", 8),
    MockHook("The number one reason new creators fail in their first 90 days",
      "This creates urgency for new creators while promising to help them avoid a common pitfall, making it highly relevant to the target audience.", 7)
  ]

  /** `MOCK_DATA`: three hooks per type. */
  const MockData: map<string, seq<MockHook>> := map[
    "question" := QuestionHooks,
    "statistic" := StatisticHooks,
    "story" := StoryHooks,
    "controversial" := ControversialHooks,
    "problem" := ProblemHooks
  ]

  /** `MOCK_DATA[hookType]`: `undefined` for a type the table lacks. */
  function LookupHooks(hookType: string): (r: Option<seq<MockHook>>)
    ensures r.Some? <==> hookType in MockData
    ensures r.Some? ==> r.value == MockData[hookType]
  {
    if hookType in MockData then Some(MockData[hookType]) else None
  }

  /** Every type the selector offers has an entry, so the lookup never fails for a
      type picked in the UI. */
  lemma HookTypesCovered()
    ensures forall i :: 0 <= i < |HookTypes| ==> LookupHooks(HookTypes[i].value).Some?
  {
  }

  /** Three hooks rated 9, 8 and 7, in that order. */
  predicate RatedNineEightSeven(hs: seq<MockHook>)
  {
    |hs| == 3 && hs[0].effectiveness == 9 && hs[1].effectiveness == 8 && hs[2].effectiveness == 7
  }

  /** The table's keys are the five type values, each holding its named entry. */
  lemma MockDataEntries(t: string)
    requires t in MockData
    ensures MockData[t] in {QuestionHooks, StatisticHooks, StoryHooks, ControversialHooks, ProblemHooks}
  {
  }

  /** Each entry holds three hooks rated 9, 8 and 7, strictly descending within 1..10. */
  lemma MockDataShape()
    ensures forall t :: t in MockData ==>
              && |MockData[t]| == 3
              && MockData[t][0].effectiveness == 9
              && MockData[t][1].effectiveness == 8
              && MockData[t][2].effectiveness == 7
    ensures forall t, i, j :: t in MockData && 0 <= i < j < |MockData[t]| ==>
              1 <= MockData[t][j].effectiveness < MockData[t][i].effectiveness <= 10
  {
    assert RatedNineEightSeven(QuestionHooks);
    assert RatedNineEightSeven(StatisticHooks);
    assert RatedNineEightSeven(StoryHooks);
    assert RatedNineEightSeven(ControversialHooks);
    assert RatedNineEightSeven(ProblemHooks);
    forall t | t in MockData
      ensures RatedNineEightSeven(MockData[t])
    {
      MockDataEntries(t);
    }
  }

  const SelectTypeFirst: string := "Please select a hook type first"
  const CouldNotGenerate: string := "Could not generate hooks for this type. Please try another type."
  const SelectedHookKey: string := "selectedHook"

  /** The step's state; `P` is whatever else the shared localStorage holds. */
  class HookGenerator<P> {
    var hookType: string
    var isLoading: bool
    var generatedHooks: Option<seq<MockHook>>
    var selectedHook: string
    var error: string
    const storage: LocalStorage<P>

    constructor (storage: LocalStorage<P>)
      ensures this.storage == storage
      ensures hookType == "" && !isLoading && generatedHooks == None && selectedHook == "" && error == ""
    {
      this.storage := storage;
      hookType := "";
      isLoading := false;
      generatedHooks := None;
      selectedHook := "";
      error := "";
    }

    /** A click on a hook-type card: the only values offered are those of `HookTypes`. */
    method SelectHookType(value: string)
      requires exists i :: 0 <= i < |HookTypes| && HookTypes[i].value == value
      modifies this`hookType
      ensures hookType == value
    {
      hookType := value;
    }

    /** `disabled={isLoading}` on the generate button. */
    predicate GenerateDisabled()
      reads this
    {
      isLoading
    }

    /** `handleGenerateHooks`: without a hook type only the error is set and nothing
        is scheduled; otherwise the error is cleared, loading starts and the timer is
        scheduled for the current type. */
    method GenerateHooks() returns (scheduled: Option<string>)
      modifies this`error, this`isLoading
      ensures old(hookType) == "" ==> error == SelectTypeFirst && isLoading == old(isLoading) && scheduled == None
      ensures old(hookType) != "" ==> error == "" && isLoading && scheduled == Some(hookType)
    {
      if hookType == "" {
        error := SelectTypeFirst;
        return None;
      }
      error := "";
      isLoading := true;
      scheduled := Some(hookType);
    }

    /** The timer callback for `requested`: the table entry becomes the generated
        hooks, or the error is set when there is none; loading ends either way. */
    method CompleteGenerate(requested: string)
      modifies this`generatedHooks, this`error, this`isLoading
      ensures !isLoading
      ensures requested in MockData ==> generatedHooks == Some(MockData[requested]) && error == old(error)
      ensures requested !in MockData ==> generatedHooks == old(generatedHooks) && error == CouldNotGenerate
    {
      var data := LookupHooks(requested);
      if data.Some? {
        generatedHooks := data;
      } else {
        error := CouldNotGenerate;
      }
      isLoading := false;
    }

    /** A click on a generated hook selects its text. */
    method SelectHook(h: MockHook)
      modifies this`selectedHook
      ensures selectedHook == h.hook
    {
      selectedHook := h.hook;
    }

    /** `disabled={!selectedHook}` on Continue. */
    predicate ContinueDisabled()
      reads this
    {
      selectedHook == ""
    }

    /** `handleSaveAndContinue`: writes the selected hook to localStorage under
        "selectedHook" (not to the store), then `onNext` runs. */
    method SaveAndContinue()
      modifies storage
      ensures storage.items == old(storage.items)[SelectedHookKey := Text(selectedHook)]
      ensures storage.GetItem(SelectedHookKey) == Some(Text(selectedHook))
      ensures storage.LoadProjects() == old(storage.LoadProjects())
    {
      storage.SetItem(SelectedHookKey, Text(selectedHook));
    }
  }

  /** The width of a hook's effectiveness meter, `effectiveness * 10` percent: every
      mock hook's meter is between 70 and 90 percent, the best one fullest. */
  function MeterWidth(h: MockHook): (w: int)
    ensures 0 <= h.effectiveness <= 10 ==> 0 <= w <= 100
  {
    h.effectiveness * 10
  }

  lemma MockMetersInRange()
    ensures forall t, i :: t in MockData && 0 <= i < |MockData[t]| ==>
              70 <= MeterWidth(MockData[t][i]) <= 90
    ensures forall t :: t in MockData ==> MeterWidth(MockData[t][0]) == 90
  {
    MockDataShape();
  }
}
