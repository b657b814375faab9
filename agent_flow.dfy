/** Orchestrator (backend/src/agent/agentFlow.js): the six stages in order,
    the trace they leave, and the result they assemble. */
module AgentFlow {
  import opened Wrappers
  import opened Strings
  import opened InputProcessor
  import opened SemanticEngine
  import opened VisualPlanner
  import opened PromptGenerator
  import opened ImageGenerator
  import opened ClipEvaluator

  /** `runAgentFlow`'s argument `{ type, data, userPreferences }`. */
  datatype Request = Request(kind: string, data: Payload, preferences: Preferences)

  /** Everything outside the pipeline that it depends on. `hasApiKey` is the
      presence of `DASHSCOPE_API_KEY`, read by both the semantic engine and
      the image generator; `draw(i)` is the random score of the i-th image;
      `analyzerIsFunction` is the outcome of the `typeof` check on the
      imported `analyzeSemantics`. */
  datatype Environment = Environment(
    hasApiKey: bool,
    extractors: Extractors,
    llm: LlmProvider,
    wanx: WanxService,
    draw: nat -> Score,
    analyzerIsFunction: bool)

  /** The `output` of a trace entry: a message, or the stage's own result. */
  datatype StepOutput =
    | Message(text: string)
    | SemanticOutput(analysis: Analysis)
    | PlanOutput(plan: VisualPlan)
    | PromptOutput(promptData: PromptData)

  /** `{ step, output }`. */
  datatype TraceStep = TraceStep(step: string, output: StepOutput)

  /** `result`: `{ prompt, images, visualPlan }`. */
  datatype FlowResult = FlowResult(prompt: string, images: seq<RankedImage>, visualPlan: VisualPlan)

  /** `{ result, trace }`. */
  datatype FlowOutput = FlowOutput(result: FlowResult, trace: seq<TraceStep>)

  const StageNames: seq<string> := [
    "Input Processing", "Semantic Analysis", "Visual Planning",
    "Prompt Generation", "Image Generation", "CLIP Evaluation"
  ]

  /** The number of images the orchestrator asks for. */
  const RequestedImages: nat := 4

  /** The negative prompt paired with a prompt taken from the analysis. */
  const ShortNegativePrompt: string := "text, watermark, ugly"

  const AnalyzerMissingMessage: string :=
    "Critical Error: analyzeSemantics is not a function. Check semanticEngine.js export."

  /** The `illustrations` of the analysis are present and non-empty. */
  predicate HasIllustration(sem: Analysis) {
    sem.illustrations.Some? && |sem.illustrations.value| > 0
  }

  /** The prompt stage: the first illustration's prompt when the analysis
      brought illustrations, otherwise `generatePrompt`. */
  function SelectPrompt(sem: Analysis, plan: VisualPlan): (pd: PromptData)
    ensures HasIllustration(sem) ==>
      pd == PromptData(sem.illustrations.value[0].prompt, ShortNegativePrompt)
    ensures !HasIllustration(sem) ==> pd == GeneratePrompt(plan, sem)
  {
    if HasIllustration(sem) then PromptData(sem.illustrations.value[0].prompt, ShortNegativePrompt)
    else GeneratePrompt(plan, sem)
  }

  /** The trace of a successful run, one entry per stage. */
  function Trace(sem: Analysis, plan: VisualPlan, pd: PromptData, imageCount: nat): seq<TraceStep> {
    [ TraceStep("Input Processing", Message("Text extracted successfully")),
      TraceStep("Semantic Analysis", SemanticOutput(sem)),
      TraceStep("Visual Planning", PlanOutput(plan)),
      TraceStep("Prompt Generation", PromptOutput(pd)),
      TraceStep("Image Generation", Message(NatToString(imageCount) + " images generated")),
      TraceStep("CLIP Evaluation", Message("Images ranked")) ]
  }

  /** The output of a run whose input processing yielded `text`, built from
      the six stage functions. */
  function FlowFromText(text: string, prefs: Preferences, env: Environment): FlowOutput {
    var sem := AnalyzeSemantics(text, env.hasApiKey, env.llm);
    var plan := PlanVisuals(sem, prefs);
    var pd := SelectPrompt(sem, plan);
    var raw := GeneratedImages(env.hasApiKey, env.wanx, pd.prompt, RequestedImages);
    FlowOutput(FlowResult(pd.prompt, EvaluateImages(raw, pd.prompt, env.draw), plan),
               Trace(sem, plan, pd, |raw|))
  }

  /** `runAgentFlow({ type, data, userPreferences })`. */
  method RunAgentFlow(req: Request, env: Environment) returns (out: Result<FlowOutput>)
    ensures ProcessInput(req.kind, req.data, env.extractors).Err? ==> out == Err(FailedMessage)
    ensures ProcessInput(req.kind, req.data, env.extractors).Ok? && !env.analyzerIsFunction ==>
      out == Err(AnalyzerMissingMessage)
    ensures out.Ok? <==> ProcessInput(req.kind, req.data, env.extractors).Ok? && env.analyzerIsFunction
    ensures out.Ok? ==>
      out.value == FlowFromText(ProcessInput(req.kind, req.data, env.extractors).value, req.preferences, env)
    ensures out.Ok? ==>
      |out.value.trace| == |StageNames| && forall i :: 0 <= i < |StageNames| ==> out.value.trace[i].step == StageNames[i]
  {
    var steps: seq<TraceStep> := [];

    // 1. Input Processing
    var input := ProcessInput(req.kind, req.data, env.extractors);
    if input.Err? {
      return Err(input.error);
    }
    var cleanText := input.value;
    steps := steps + [TraceStep("Input Processing", Message("Text extracted successfully"))];

    // 2. Semantic Understanding
    if !env.analyzerIsFunction {
      return Err(AnalyzerMissingMessage);
    }
    var semanticData := AnalyzeSemantics(cleanText, env.hasApiKey, env.llm);
    steps := steps + [TraceStep("Semantic Analysis", SemanticOutput(semanticData))];

    // 3. Visual Planning
    var visualPlan := PlanVisuals(semanticData, req.preferences);
    steps := steps + [TraceStep("Visual Planning", PlanOutput(visualPlan))];

    // 4. Prompt Generation
    var promptData: PromptData;
    if semanticData.illustrations.Some? && |semanticData.illustrations.value| > 0 {
      promptData := PromptData(semanticData.illustrations.value[0].prompt, ShortNegativePrompt);
    } else {
      promptData := GeneratePrompt(visualPlan, semanticData);
    }
    steps := steps + [TraceStep("Prompt Generation", PromptOutput(promptData))];

    // 5. Image Generation
    var rawImages := GenerateImages(env.hasApiKey, env.wanx, promptData.prompt, RequestedImages);
    steps := steps + [TraceStep("Image Generation", Message(NatToString(|rawImages|) + " images generated"))];

    // 6. CLIP Evaluation
    var rankedImages := EvaluateImages(rawImages, promptData.prompt, env.draw);
    steps := steps + [TraceStep("CLIP Evaluation", Message("Images ranked"))];

    assert promptData == SelectPrompt(semanticData, visualPlan);
    PushedSix(steps, semanticData, visualPlan, promptData, |rawImages|);
    TraceStageNames(semanticData, visualPlan, promptData, |rawImages|);
    out := Ok(FlowOutput(FlowResult(promptData.prompt, rankedImages, visualPlan), steps));
  }

  /** Six pushes onto an empty trace give the trace of a successful run. */
  lemma PushedSix(steps: seq<TraceStep>, sem: Analysis, plan: VisualPlan, pd: PromptData, imageCount: nat)
    requires steps ==
      [] + [TraceStep("Input Processing", Message("Text extracted successfully"))]
         + [TraceStep("Semantic Analysis", SemanticOutput(sem))]
         + [TraceStep("Visual Planning", PlanOutput(plan))]
         + [TraceStep("Prompt Generation", PromptOutput(pd))]
         + [TraceStep("Image Generation", Message(NatToString(imageCount) + " images generated"))]
         + [TraceStep("CLIP Evaluation", Message("Images ranked"))]
    ensures steps == Trace(sem, plan, pd, imageCount)
  {}

  /** The trace of a successful run names the six stages in order. */
  lemma TraceStageNames(sem: Analysis, plan: VisualPlan, pd: PromptData, imageCount: nat)
    ensures |Trace(sem, plan, pd, imageCount)| == |StageNames|
    ensures forall i :: 0 <= i < |StageNames| ==> Trace(sem, plan, pd, imageCount)[i].step == StageNames[i]
  {}

  // ---------------------------------------------------------------------------
  // Properties of a successful run

  /** With illustrations the prompt is the first one's and `generatePrompt` is
      not consulted: the other stages' outputs do not matter to it. */
  lemma IllustrationShortCircuit(text: string, prefs: Preferences, other: Preferences, env: Environment)
    requires HasIllustration(AnalyzeSemantics(text, env.hasApiKey, env.llm))
    ensures var sem := AnalyzeSemantics(text, env.hasApiKey, env.llm);
      && FlowFromText(text, prefs, env).result.prompt == sem.illustrations.value[0].prompt
      && FlowFromText(text, prefs, env).trace[3].output == PromptOutput(PromptData(sem.illustrations.value[0].prompt, ShortNegativePrompt))
      && FlowFromText(text, prefs, env).result.prompt == FlowFromText(text, other, env).result.prompt
  {}

  /** Without illustrations the prompt is `generatePrompt(visualPlan, semanticData)`. */
  lemma BuiltPrompt(text: string, prefs: Preferences, env: Environment)
    requires !HasIllustration(AnalyzeSemantics(text, env.hasApiKey, env.llm))
    ensures var sem := AnalyzeSemantics(text, env.hasApiKey, env.llm);
      FlowFromText(text, prefs, env).trace[3].output == PromptOutput(GeneratePrompt(PlanVisuals(sem, prefs), sem))
  {}

  /** Images are requested four at a time and ranked against the chosen prompt;
      the result carries exactly the prompt, the plan and the ranking, and the
      "Image Generation" entry reports the raw image count. */
  lemma ResultAssembly(text: string, prefs: Preferences, env: Environment)
    ensures var sem := AnalyzeSemantics(text, env.hasApiKey, env.llm);
      var plan := PlanVisuals(sem, prefs);
      var pd := SelectPrompt(sem, plan);
      var raw := GeneratedImages(env.hasApiKey, env.wanx, pd.prompt, 4);
      var f := FlowFromText(text, prefs, env);
      && f.result.prompt == pd.prompt
      && f.result.visualPlan == plan && f.trace[2].output == PlanOutput(plan)
      && f.result.images == EvaluateImages(raw, pd.prompt, env.draw)
      && |f.result.images| == |raw|
      && f.trace[4].output == Message(NatToString(|raw|) + " images generated")
  {}

  /** Without an API key the run returns the ranked mock images, four of them. */
  lemma MockModeImages(text: string, prefs: Preferences, env: Environment)
    requires !env.hasApiKey
    ensures var f := FlowFromText(text, prefs, env);
      && |f.result.images| == 4
      && forall i :: 0 <= i < 4 ==> f.result.images[i].url == MockUrls[f.result.images[i].rank - 1]
  {
    MockMode(env.wanx, SelectPrompt(MockAnalysis(text), PlanVisuals(MockAnalysis(text), prefs)).prompt, 4);
  }

  /** The text of the end-to-end scenario below. */
  const ScenarioText: string := "A story of success and hope."

  /** The end-to-end run on "A story of success and hope." without an API key
      and with empty preferences: keyword "success", positive sentiment, the
      default style, subject "success", a prompt that starts with "success, "
      and ends with the quality words, and the four mock images ranked. */
  method MockModeScenario(text: string, extractors: Extractors, llm: LlmProvider, wanx: WanxService, draw: nat -> Score)
    returns (out: Result<FlowOutput>)
    requires text == ScenarioText
    ensures out.Ok? && |out.value.trace| == 6
    ensures out.value.trace[1].output.SemanticOutput?
    ensures out.value.trace[1].output.analysis.keywords == ["success"]
    ensures out.value.trace[1].output.analysis.sentiment == Positive
    ensures out.value.result.visualPlan.style == DefaultStyle
    ensures out.value.result.visualPlan.subject == "success"
    ensures out.value.result.visualPlan.lighting == BrightLighting
    ensures out.value.result.visualPlan.colorPalette == BrightPalette
    ensures StartsWith(out.value.result.prompt, "success, ")
    ensures EndsWith(out.value.result.prompt, MagicWords)
    ensures |out.value.result.images| == 4
    ensures forall i :: 0 <= i < 4 ==> 1 <= out.value.result.images[i].rank <= 4
  {
    var env := Environment(false, extractors, llm, wanx, draw, true);
    ScenarioInput(text, extractors);
    ScenarioAnalysis(text);
    out := RunAgentFlow(Request("text", Text(text), Preferences(None)), env);
    SuccessFlow(text, env);
  }

  /** A mock-mode run whose analysis has the single keyword "success" and a
      positive sentiment, with empty preferences. */
  lemma SuccessFlow(text: string, env: Environment)
    requires !env.hasApiKey
    requires MockAnalysis(text).keywords == ["success"] && MockAnalysis(text).sentiment == Positive
    ensures var f := FlowFromText(text, Preferences(None), env);
      && |f.trace| == 6 && f.trace[1].output == SemanticOutput(MockAnalysis(text))
      && f.result.visualPlan.style == DefaultStyle
      && f.result.visualPlan.subject == "success"
      && f.result.visualPlan.lighting == BrightLighting
      && f.result.visualPlan.colorPalette == BrightPalette
      && StartsWith(f.result.prompt, "success, ")
      && EndsWith(f.result.prompt, MagicWords)
      && |f.result.images| == 4
      && forall i :: 0 <= i < 4 ==> 1 <= f.result.images[i].rank <= 4
  {
    var sem := MockAnalysis(text);
    assert "nature" != "success" && "tech" != "success";
    var plan := PlanVisuals(sem, Preferences(None));
    assert plan.subject == "success";
    MockModeImages(text, Preferences(None), env);
  }

  /** The scenario text passes input processing unchanged. */
  lemma ScenarioInput(text: string, x: Extractors)
    requires text == ScenarioText
    ensures ProcessInput("text", Text(text), x) == Ok(text)
  {
    TextInput(text, x);
    ScenarioClean(text);
  }

  /** Splitting words joined by single separators gives the words back. */
  lemma SplitSix(w0: string, w1: string, w2: string, w3: string, w4: string, w5: string, sep: char)
    requires sep !in w0 && sep !in w1 && sep !in w2 && sep !in w3 && sep !in w4 && sep !in w5
    ensures Split(w0 + [sep] + (w1 + [sep] + (w2 + [sep] + (w3 + [sep] + (w4 + [sep] + w5)))), sep)
         == [w0, w1, w2, w3, w4, w5]
  {
    var t4 := w4 + [sep] + w5;
    var t3 := w3 + [sep] + t4;
    var t2 := w2 + [sep] + t3;
    var t1 := w1 + [sep] + t2;
    SplitNoSeparator(w5, sep);
    SplitPrefix(w4, w5, sep);
    SplitPrefix(w3, t4, sep);
    SplitPrefix(w2, t3, sep);
    SplitPrefix(w1, t2, sep);
    SplitPrefix(w0, t1, sep);
  }

  /** The scenario text is already clean. */
  lemma ScenarioClean(text: string)
    requires text == ScenarioText
    ensures CleanText(text) == text
  {
    ScenarioShape(text);
    CleanTextFixedPoints(text);
  }

  /** The scenario text is short, single-spaced and not padded. */
  lemma ScenarioShape(text: string)
    requires text == ScenarioText
    ensures Collapsed(text) && |text| <= MaxTextLength
    ensures !IsWhitespace(text[0]) && !IsWhitespace(text[|text| - 1])
  {
    ScenarioSpaces(text);
  }

  /** The white space of the scenario text: single spaces at 1, 7, 10, 18 and 22. */
  lemma ScenarioSpaces(text: string)
    requires text == ScenarioText
    ensures forall i :: 0 <= i < |text| ==> (IsWhitespace(text[i]) <==> i in {1, 7, 10, 18, 22})
    ensures forall i :: 0 <= i < |text| && i in {1, 7, 10, 18, 22} ==> text[i] == ' '
  {}

  /** The scenario text split on spaces. */
  lemma ScenarioSplit(text: string)
    requires text == ScenarioText
    ensures Split(text, ' ') == ["A", "story", "of", "success", "and", "hope."]
  {
    assert text == "A" + [' '] + ("story" + [' '] + ("of" + [' '] + ("success" + [' '] + ("and" + [' '] + "hope."))));
    SplitSix("A", "story", "of", "success", "and", "hope.", ' ');
  }

  /** The only long word of the scenario text is "success". */
  lemma ScenarioKeywords(text: string)
    requires text == ScenarioText
    ensures MockKeywords(text) == ["success"]
  {
    ScenarioSplit(text);
    assert LongWords(["A", "story", "of", "success", "and", "hope."]) == ["success"];
  }

  /** "success" occurs in the scenario text. */
  lemma ScenarioSentiment(text: string)
    requires text == ScenarioText
    ensures MockSentiment(text) == Positive
  {
    assert text[11..18] == "success";
    assert OccursAt(text, "success", 11);
  }

  /** The heuristic analysis of the scenario text: one keyword, positive. */
  lemma ScenarioAnalysis(text: string)
    requires text == ScenarioText
    ensures MockAnalysis(text).keywords == ["success"]
    ensures MockAnalysis(text).sentiment == Positive
  {
    ScenarioKeywords(text);
    ScenarioSentiment(text);
  }
}
