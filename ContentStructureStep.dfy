/** The local state of src/components/wizard/steps/ContentStructureStep.tsx: the
    four text fields, the analysis, the timeline segments, the analyze gate and the
    loading/error flags it dispatches to the store of src/store/projectsSlice.ts.

    The `fetch` to the analysis endpoint is split in two: `BeginAnalyze` is the
    handler up to the request, `CompleteAnalyze` receives its outcome. */
module ContentStructureStep {
  import opened Wrappers
  import opened Js
  import ProjectsSlice

  /** One bar of the video timeline. */
  datatype Segment = Segment(id: string, name: string, duration: int, color: string)

  /** The segments the timeline starts with: 3 + 12 + 5 seconds. */
  const InitialSegments: seq<Segment> := [
    Segment("hook", "Hook", 3, "#FF5C5C"),
    Segment("middle", "Middle Content", 12, "#5C9AFF"),
    Segment("ending", "Ending/CTA", 5, "#5CFF8F")
  ]

  /** The slider's `min` and `max`. */
  const MinDuration: int := 1
  const MaxDuration: int := 20

  /** The content types offered, by value. */
  const ContentTypes: seq<string> := ["educational", "entertainment", "tutorial", "storytelling", "reaction"]

  /** `segments.map(seg => seg.id === id ? {...seg, duration} : seg)`. */
  function WithDuration(segments: seq<Segment>, id: string, duration: int): (r: seq<Segment>)
    ensures |r| == |segments|
    ensures forall i :: 0 <= i < |r| ==>
              r[i] == if segments[i].id == id then segments[i].(duration := duration) else segments[i]
  {
    if segments == [] then []
    else
      [if segments[0].id == id then segments[0].(duration := duration) else segments[0]]
      + WithDuration(segments[1..], id, duration)
  }

  /** Only the duration of the segments with that id changes; ids, names, colours and
      order stay. */
  lemma WithDurationKeepsShape(segments: seq<Segment>, id: string, duration: int)
    ensures forall i :: 0 <= i < |segments| ==>
              var r := WithDuration(segments, id, duration);
              r[i].id == segments[i].id && r[i].name == segments[i].name && r[i].color == segments[i].color
              && (r[i].id == id ==> r[i].duration == duration)
              && (r[i].id != id ==> r[i].duration == segments[i].duration)
  {
  }

  /** An id no segment has changes nothing. */
  lemma WithDurationUnknownId(segments: seq<Segment>, id: string, duration: int)
    requires forall i :: 0 <= i < |segments| ==> segments[i].id != id
    ensures WithDuration(segments, id, duration) == segments
  {
    var r := WithDuration(segments, id, duration);
    assert forall i :: 0 <= i < |segments| ==> r[i] == segments[i];
  }

  /** The width of a segment's bar, `duration * 5` percent: between 5 and 100 for any
      duration the slider can set. */
  function BarWidth(s: Segment): (w: int)
    ensures MinDuration <= s.duration <= MaxDuration ==> 5 <= w <= 100
    ensures s.duration == MaxDuration ==> w == 100
  {
    s.duration * 5
  }

  /** `currentProject?.contentStructure`: the store's Project type declares no such
      field, so an existing record is given separately. */
  datatype StructurePayload = StructurePayload(
    hook: string,
    middle: string,
    ending: string,
    contentType: string,
    analysis: Option<Json>)

  /** `currentProject?.hook?.selectedHook`. */
  function SelectedHook(current: Option<ProjectsSlice.Project>): Option<string>
  {
    if current.Some? && current.value.hook.Some? then current.value.hook.value.selectedHook else None
  }

  /** The initial hook text: the saved structure's hook, else the project's selected
      hook, else `""`. */
  function InitialHook(existing: Option<StructurePayload>, current: Option<ProjectsSlice.Project>): (r: string)
    ensures existing.Some? && existing.value.hook != "" ==> r == existing.value.hook
    ensures (existing.None? || existing.value.hook == "") && Present(SelectedHook(current)) ==>
              r == SelectedHook(current).value
    ensures (existing.None? || existing.value.hook == "") && !Present(SelectedHook(current)) ==> r == ""
  {
    OrElse(if existing.Some? then Some(existing.value.hook) else None, OrElse(SelectedHook(current), ""))
  }

  /** `existing?.field || ""` for the other three text fields. */
  function InitialText(existing: Option<StructurePayload>, field: StructurePayload -> string): (r: string)
    ensures existing.None? ==> r == ""
    ensures existing.Some? ==> r == field(existing.value)
  {
    if existing.Some? then field(existing.value) else ""
  }

  /** `existing?.analysis || null`: a falsy analysis reads as none. */
  function InitialAnalysis(existing: Option<StructurePayload>): (r: Option<Json>)
    ensures r.Some? ==> existing.Some? && existing.value.analysis == r && Truthy(r.value)
    ensures existing.Some? && existing.value.analysis.Some? && Truthy(existing.value.analysis.value) ==>
              r == existing.value.analysis
  {
    if existing.Some? && existing.value.analysis.Some? && Truthy(existing.value.analysis.value)
    then existing.value.analysis else None
  }

  /** The body posted to the analysis endpoint. */
  datatype StructureRequest = StructureRequest(hook: string, middle: string, ending: string, contentType: string)

  const AnalyzeFailed: string := "Failed to analyze content structure"

  class StructureStep {
    var hook: string
    var middle: string
    var ending: string
    var contentType: string
    var analysis: Option<Json>
    var segments: seq<Segment>
    /** The store the step dispatches `setLoading`/`setError` to and reads `loading` from. */
    const store: ProjectsSlice.ProjectsState

    constructor (store: ProjectsSlice.ProjectsState, existing: Option<StructurePayload>)
      ensures this.store == store
      ensures hook == InitialHook(existing, store.currentProject)
      ensures middle == InitialText(existing, (e: StructurePayload) => e.middle)
      ensures ending == InitialText(existing, (e: StructurePayload) => e.ending)
      ensures contentType == InitialText(existing, (e: StructurePayload) => e.contentType)
      ensures analysis == InitialAnalysis(existing)
      ensures segments == InitialSegments
    {
      this.store := store;
      hook := InitialHook(existing, store.currentProject);
      middle := InitialText(existing, (e: StructurePayload) => e.middle);
      ending := InitialText(existing, (e: StructurePayload) => e.ending);
      contentType := InitialText(existing, (e: StructurePayload) => e.contentType);
      analysis := InitialAnalysis(existing);
      segments := InitialSegments;
    }

    method SetHook(s: string)
      modifies this`hook
      ensures hook == s
    {
      hook := s;
    }

    method SetMiddle(s: string)
      modifies this`middle
      ensures middle == s
    {
      middle := s;
    }

    method SetEnding(s: string)
      modifies this`ending
      ensures ending == s
    {
      ending := s;
    }

    /** A click on a content-type option. */
    method SetContentType(s: string)
      modifies this`contentType
      ensures contentType == s
    {
      contentType := s;
    }

    /** `handleDurationChange(id, newDuration)`. */
    method HandleDurationChange(id: string, newDuration: int)
      modifies this`segments
      ensures segments == WithDuration(old(segments), id, newDuration)
    {
      segments := WithDuration(segments, id, newDuration);
    }

    /** All four inputs are non-empty. */
    predicate Filled()
      reads this
    {
      hook != "" && middle != "" && ending != "" && contentType != ""
    }

    /** `disabled={loading || !hook || !middle || !ending || !contentType}`. */
    predicate AnalyzeDisabled()
      reads this, store
    {
      store.loading || !Filled()
    }

    /** `handleAnalyzeStructure` up to the request: returns early with no change when
        a field is empty, otherwise sets the store's loading flag and posts the four
        fields. */
    method BeginAnalyze() returns (request: Option<StructureRequest>)
      modifies store`loading
      ensures request.Some? <==> Filled()
      ensures request.Some? ==> request.value == StructureRequest(hook, middle, ending, contentType)
      ensures request.Some? ==> store.loading
      ensures request.None? ==> store.loading == old(store.loading)
    {
      if !Filled() {
        return None;
      }
      store.SetLoading(true);
      request := Some(StructureRequest(hook, middle, ending, contentType));
    }

    /** The rest of `handleAnalyzeStructure`: the response body becomes the analysis;
        a failed request or body sets the store's error message instead; loading is
        reset either way. */
    method CompleteAnalyze(response: Option<Json>)
      modifies this`analysis, store`loading, store`error
      ensures !store.loading
      ensures response.Some? ==> analysis == response && store.error == old(store.error)
      ensures response.None? ==> analysis == old(analysis) && store.error == Some(AnalyzeFailed)
    {
      if response.Some? {
        analysis := response;
      } else {
        store.SetError(Some(AnalyzeFailed));
      }
      store.SetLoading(false);
    }

    /** The payload `handleSaveAndContinue` builds for `saveContentStructure`:
        exactly the four fields and the analysis. The action creator it is passed to
        is not exported by the slice, so the call itself fails. */
    method SavePayload() returns (payload: StructurePayload)
      ensures payload.hook == hook && payload.middle == middle && payload.ending == ending
      ensures payload.contentType == contentType && payload.analysis == analysis
    {
      payload := StructurePayload(hook, middle, ending, contentType, analysis);
    }
  }
}
