/** Frontend state store (frontend/src/store/useStore.js): the current page,
    the input draft, the style preference, the last result, the processing
    flag and the trace shown while a run is replayed. */
module UiStore {
  import opened Wrappers
  import opened VisualPlanner
  import opened AgentFlow

  /** `inputData`: `{ type, value, file }`; the file object is reduced to its
      name. */
  datatype InputDraft = InputDraft(kind: string, value: string, file: Option<string>)

  /** A snapshot of every field of the store. */
  datatype StoreState = StoreState(
    step: string,
    inputData: InputDraft,
    preferences: Preferences,
    generatedResult: Option<FlowResult>,
    isProcessing: bool,
    processTrace: seq<TraceStep>)

  const InputPage: string := "input"

  /** The state the store is created with. */
  const InitialState: StoreState := StoreState(
    step := InputPage,
    inputData := InputDraft("text", "", None),
    preferences := Preferences(Some(DefaultStyle)),
    generatedResult := None,
    isProcessing := false,
    processTrace := [])

  /** `state` after `reset()`: four fields cleared, the input draft and the
      preferences kept. */
  function AfterReset(state: StoreState): (r: StoreState)
    ensures r.step == InputPage && r.generatedResult.None? && r.processTrace == [] && !r.isProcessing
    ensures r.inputData == state.inputData && r.preferences == state.preferences
  {
    state.(step := InputPage, generatedResult := None, processTrace := [], isProcessing := false)
  }

  /** Resetting twice is resetting once. */
  lemma ResetIdempotent(state: StoreState)
    ensures AfterReset(AfterReset(state)) == AfterReset(state)
  {}

  /** Resetting a fresh store changes nothing. */
  lemma ResetOfInitial()
    ensures AfterReset(InitialState) == InitialState
  {}

  class Store {
    var step: string
    var inputData: InputDraft
    var preferences: Preferences
    var generatedResult: Option<FlowResult>
    var isProcessing: bool
    var processTrace: seq<TraceStep>

    /** All fields at once. */
    function State(): StoreState
      reads this
    {
      StoreState(step, inputData, preferences, generatedResult, isProcessing, processTrace)
    }

    /** `create(...)`: page "input", an empty text draft, style "Cinematic",
        no result, not processing, an empty trace. */
    constructor ()
      ensures State() == InitialState
    {
      step := InputPage;
      inputData := InputDraft("text", "", None);
      preferences := Preferences(Some(DefaultStyle));
      generatedResult := None;
      isProcessing := false;
      processTrace := [];
    }

    /** `setStep(step)`. */
    method SetStep(s: string)
      modifies this`step
      ensures State() == old(State()).(step := s)
    {
      step := s;
    }

    /** `setInputData(data)`. */
    method SetInputData(data: InputDraft)
      modifies this`inputData
      ensures State() == old(State()).(inputData := data)
    {
      inputData := data;
    }

    /** `setPreferences(prefs)`. */
    method SetPreferences(prefs: Preferences)
      modifies this`preferences
      ensures State() == old(State()).(preferences := prefs)
    {
      preferences := prefs;
    }

    /** `setResult(result)`. */
    method SetResult(result: Option<FlowResult>)
      modifies this`generatedResult
      ensures State() == old(State()).(generatedResult := result)
    {
      generatedResult := result;
    }

    /** `setProcessing(status)`. */
    method SetProcessing(status: bool)
      modifies this`isProcessing
      ensures State() == old(State()).(isProcessing := status)
    {
      isProcessing := status;
    }

    /** `addTraceStep(step)`: appends one entry and keeps the earlier ones. */
    method AddTraceStep(t: TraceStep)
      modifies this`processTrace
      ensures processTrace == old(processTrace) + [t]
      ensures |processTrace| == |old(processTrace)| + 1 && processTrace[..|old(processTrace)|] == old(processTrace)
      ensures State() == old(State()).(processTrace := old(processTrace) + [t])
    {
      processTrace := processTrace + [t];
    }

    /** `reset()`. */
    method Reset()
      modifies this`step, this`generatedResult, this`processTrace, this`isProcessing
      ensures State() == AfterReset(old(State()))
    {
      step := InputPage;
      generatedResult := None;
      processTrace := [];
      isProcessing := false;
    }

    /** A `reset()`, as the result page's "new" button does before the next
        run, followed by one `addTraceStep` per entry of `steps`, in order, as
        the settings page appends the trace of a run one step at a time: the
        store's trace is then exactly `steps`. */
    method ReplayTrace(steps: seq<TraceStep>)
      modifies this`step, this`generatedResult, this`processTrace, this`isProcessing
      ensures processTrace == steps
      ensures State() == AfterReset(old(State())).(processTrace := steps)
    {
      Reset();
      for i := 0 to |steps|
        invariant processTrace == steps[..i]
        invariant State() == AfterReset(old(State())).(processTrace := steps[..i])
      {
        AddTraceStep(steps[i]);
        assert steps[..i + 1] == steps[..i] + [steps[i]];
      }
      assert steps[..|steps|] == steps;
    }
  }
}
