# Article-to-Image agent pipeline, modelled in Dafny

Article-to-Image turns an article into illustrations. Its backend runs a
six-stage agent pipeline:

1. **Input processing** turns pasted text, a URL or an uploaded PDF, Word or
   text file into one cleaned string. White space is collapsed and trimmed,
   and the result is cut to 5000 characters.
2. **Semantic analysis** extracts keywords, a sentiment and a summary. It uses
   a keyword heuristic unless an API key for the Qwen language model is set.
   With the key, it leniently parses the model's JSON reply and falls back to
   the heuristic on any error.
3. **Visual planning** applies a small rule table to choose a style, lighting,
   palette, composition and subject.
4. **Prompt generation** fills a fixed template. A prompt authored by the
   language model takes precedence when one is present.
5. **Image generation** returns four placeholder images, or submits a Wanx
   text-to-image task and polls it up to 30 times.
6. **CLIP evaluation** gives every image a random score and stably sorts the
   images by descending score.

The orchestrator records one trace entry per stage. It returns the prompt,
the ranked images and the visual plan. The frontend keeps the state of the
wizard in a small store. The store's trace grows by appending, and its reset
clears only some of its fields.

Each source file is one module:

| file | module | form |
|---|---|---|
| `wrappers.dfy` | `Wrappers` | `Option`, `Result` |
| `strings.dfy` | `Strings` | JavaScript string operations: `split`, `join`, `includes`, `substring`, `indexOf`, `\|\|` on strings |
| `input_processor.dfy` | `InputProcessor` | functions; the foreign libraries are function-typed fields of `Extractors` |
| `semantic_engine.dfy` | `SemanticEngine` | functions; the language model and `JSON.parse` are fields of `LlmProvider` |
| `visual_planner.dfy` | `VisualPlanner` | functions |
| `prompt_generator.dfy` | `PromptGenerator` | functions |
| `image_generator.dfy` | `ImageGenerator` | the polling loop is a method with a `for` loop; the service is `WanxService` |
| `clip_evaluator.dfy` | `ClipEvaluator` | functions; the random scores are the input `draw` |
| `agent_flow.dfy` | `AgentFlow` | the orchestrator is a method that pushes onto a trace |
| `ui_store.dfy` | `UiStore` | the store is a class whose setters assign one field each |

How the model represents the source:

- Every external dependency is a parameter:
  - the network, the file system and the parsing libraries;
  - the language model and `JSON.parse`;
  - the image service, which is a function from (task id, attempt number) to that attempt's reply;
  - `Math.random`, which is `draw(i)`, the score of the image at input index i;
  - the presence of the API key, which is a boolean.
- A thrown exception is `None` or `Err`.
- A score is an integer number of ten-thousandths from 8000 to 9900.

### Behaviour as written

Five behaviours of the code are easy to misread. The model follows the code in each:

- `toFixed(4)` rounds to nearest, so a score of 0.9900 is possible, although the comment says "between 0.80 and 0.99". `Score` includes 9900.
- A successful Wanx task returns all its result urls, not `count` of them (`SucceededTaskReturnsUrls`).
- SUCCEEDED with an empty `results` array returns an empty list rather than the placeholders, because `[]` is truthy in JavaScript.
- `rank` is the input position, not the position in the sorted output (`RankIsInputPosition`).
- A language-model reply whose JSON part cannot be parsed still yields the provider analysis with its fixed keywords, not the heuristic (`ProviderAnalysis`).

## Model

| member | source | states |
|---|---|---|
| Strings.Split | article-to-image-app/backend/src/agent/semanticEngine.js:121-122 | `text.split(" ")` has at least one piece, and no piece contains the separator |
| Strings.JoinSplit | article-to-image-app/backend/src/agent/semanticEngine.js:121-122 | joining the pieces of a split with the separator gives back the text |
| Strings.SplitJoin | article-to-image-app/backend/src/agent/semanticEngine.js:121-122 | splitting pieces joined by the separator gives back the pieces, when none contains it |
| Strings.OrDefault | article-to-image-app/backend/src/agent/visualPlanner.js:8 | `v \|\| fallback` on an optional string is the value when it is present and non-empty, and the fallback when it is missing or empty |
| InputProcessor.CollapseWhitespace | article-to-image-app/backend/src/agent/inputProcessor.js:48 | `replace(/\s+/g, " ")`: not longer than the input; empty only for empty input; starts with white space exactly when the input does; the only white space left is single spaces |
| InputProcessor.Trim | article-to-image-app/backend/src/agent/inputProcessor.js:48 | `trim()`: a contiguous slice of the input with no white space at either end, and everything cut off on either side is white space |
| InputProcessor.CleanText | article-to-image-app/backend/src/agent/inputProcessor.js:47-49 | at most 5000 characters; single spaces only; no leading white space; the first min(5000, n) characters of the collapsed, trimmed text of length n |
| InputProcessor.CollapseRun | article-to-image-app/backend/src/agent/inputProcessor.js:48 | a run of white space between two other characters becomes exactly one space, and the text on either side collapses on its own |
| InputProcessor.TrimKeepsVisible | article-to-image-app/backend/src/agent/inputProcessor.js:48 | trimming removes only white space: the non-white-space characters stay, in order |
| InputProcessor.NormalizeKeepsVisible | article-to-image-app/backend/src/agent/inputProcessor.js:48 | collapsing and trimming keep every non-white-space character, in order |
| InputProcessor.CollapseKeepsVisible | article-to-image-app/backend/src/agent/inputProcessor.js:48 | collapsing keeps every non-white-space character, in order |
| InputProcessor.CollapseFixedPoints | article-to-image-app/backend/src/agent/inputProcessor.js:48 | collapsing leaves a text unchanged exactly when it has only single spaces as white space |
| InputProcessor.CollapseIdempotent | article-to-image-app/backend/src/agent/inputProcessor.js:48 | collapsing twice is collapsing once |
| InputProcessor.CleanTextFixedPoints | article-to-image-app/backend/src/agent/inputProcessor.js:47-49 | an unpadded, single-spaced text of at most 5000 characters passes `cleanText` unchanged |
| InputProcessor.ProcessInput | article-to-image-app/backend/src/agent/inputProcessor.js:10-45 | fails exactly when extraction fails, always with "Failed to process input content"; a success is `cleanText` of the extracted text |
| InputProcessor.TextInput | article-to-image-app/backend/src/agent/inputProcessor.js:12-14 | type "text" yields exactly `cleanText(data)` |
| InputProcessor.UrlInput | article-to-image-app/backend/src/agent/inputProcessor.js:16-23 | type "url" yields `cleanText` of the page's body text, or the generic error when fetching fails |
| InputProcessor.FileInput | article-to-image-app/backend/src/agent/inputProcessor.js:25-38 | the mimetype alone selects the extractor: "application/pdf" selects the PDF extractor, a mimetype containing "wordprocessingml" the Word one, any other the UTF-8 decoder; the text always goes through `cleanText` |
| InputProcessor.UnsupportedInput | article-to-image-app/backend/src/agent/inputProcessor.js:40-44 | an unknown type surfaces as the same generic error |
| SemanticEngine.LongWords | article-to-image-app/backend/src/agent/semanticEngine.js:123 | the filter keeps only words longer than 5 characters, all taken from the input; it is empty exactly when no word qualifies |
| SemanticEngine.MockSentiment | article-to-image-app/backend/src/agent/semanticEngine.js:125 | positive exactly when the text contains "good" or "success" |
| SemanticEngine.MockAnalysis | article-to-image-app/backend/src/agent/semanticEngine.js:120-134 | at most 5 keywords, each at least 6 characters long and without a space; sentiment as above; the summary is the first min(100, length) characters of the text followed by "..."; no illustrations; fixed entities and core message |
| SemanticEngine.LongWordsOrder | article-to-image-app/backend/src/agent/semanticEngine.js:121-124 | the filter keeps input order: the first long word comes first, followed by the long words after it |
| SemanticEngine.FirstKeyword | article-to-image-app/backend/src/agent/semanticEngine.js:121-124 | the first keyword is the first space-separated word longer than 5 characters |
| SemanticEngine.NoKeywords | article-to-image-app/backend/src/agent/semanticEngine.js:123 | the keywords are empty exactly when no word is longer than 5 characters |
| SemanticEngine.KeywordCount | article-to-image-app/backend/src/agent/semanticEngine.js:124 | the number of keywords is the number of long words, capped at 5 |
| SemanticEngine.KeywordsOccurInText | article-to-image-app/backend/src/agent/semanticEngine.js:121-124 | every keyword occurs in the text |
| SemanticEngine.SplitPiecesOccur | article-to-image-app/backend/src/agent/semanticEngine.js:121-122 | every piece of the split occurs in the text, and the first piece at its start |
| SemanticEngine.JsonCandidate | article-to-image-app/backend/src/agent/semanticEngine.js:98-99 | the greedy match runs from the first '{' to the last '}'; it is absent exactly when no '{' comes before a '}' |
| SemanticEngine.ProviderAnalysis | article-to-image-app/backend/src/agent/semanticEngine.js:91-113 | sentiment positive, keywords ["AI", "Qwen", "Generated"], core message and raw output the reply; without a parsed object, the summary is the reply's first 100 characters and there are no illustrations; with one, the summary is `article_tone` or that fallback, and the illustrations are passed through |
| SemanticEngine.CallLlm | article-to-image-app/backend/src/agent/semanticEngine.js:20-118 | a failed request yields exactly the heuristic analysis; a reply yields exactly the provider analysis of that reply, with its fixed sentiment and keywords |
| SemanticEngine.AnalyzeSemantics | article-to-image-app/backend/src/agent/semanticEngine.js:8-18 | the provider is used only with an API key; illustrations can only come from it |
| SemanticEngine.UnparsableReply | article-to-image-app/backend/src/agent/semanticEngine.js:96-107 | a reply with no '{' before a '}' keeps its first 100 characters as the summary and has no illustrations, whatever the parser would do |
| VisualPlanner.PlanVisuals | article-to-image-app/backend/src/agent/visualPlanner.js:4-21 | style is "Watercolor" with a "nature" keyword, else "Cyberpunk" with a "tech" keyword, else the preference or "Cinematic"; sentiment selects lighting and palette together; fixed composition; subject is the first keyword when non-empty, else "Abstract Concept" |
| VisualPlanner.PreferredStyle | article-to-image-app/backend/src/agent/visualPlanner.js:8 | without a rule keyword, the style is a non-empty preference, otherwise "Cinematic" |
| VisualPlanner.TechOverridesPreference | article-to-image-app/backend/src/agent/visualPlanner.js:11 | "tech" without "nature" gives "Cyberpunk" whatever the preference |
| VisualPlanner.NatureWins | article-to-image-app/backend/src/agent/visualPlanner.js:12 | "nature" gives "Watercolor" even when "tech" is present |
| VisualPlanner.WholeKeywordsOnly | article-to-image-app/backend/src/agent/visualPlanner.js:11-12 | "technology" and "natureza" trigger neither rule |
| PromptGenerator.GeneratePrompt | article-to-image-app/backend/src/agent/promptGenerator.js:4-21 | the prompt starts with the subject and ", " and ends with the quality words; the negative prompt is fixed |
| PromptGenerator.PromptLayout | article-to-image-app/backend/src/agent/promptGenerator.js:11-15 | the exact template, whose description slot holds at most the first 50 characters of the summary |
| PromptGenerator.PromptInputs | article-to-image-app/backend/src/agent/promptGenerator.js:10-15 | the prompt depends only on subject, style, lighting, composition and summary |
| ImageGenerator.MockImages | article-to-image-app/backend/src/agent/imageGenerator.js:103-111 | the first min(count, 4) placeholder urls, in order |
| ImageGenerator.PollTask | article-to-image-app/backend/src/agent/imageGenerator.js:65-101 | 1 to 30 polls; all but the last are non-terminal; returns the urls of a SUCCEEDED reply with results, or nothing after FAILED, CANCELED or 30 non-terminal replies; agrees with `PollFrom` |
| ImageGenerator.CallWanx | article-to-image-app/backend/src/agent/imageGenerator.js:19-63 | computes `WanxImages`: the polled urls, or the placeholders on a thrown submission, a missing task id or an empty poll result |
| ImageGenerator.GenerateImages | article-to-image-app/backend/src/agent/imageGenerator.js:8-17 | computes `GeneratedImages`: the service with an API key, otherwise the placeholders |
| ImageGenerator.PollStopsAtFirstTerminal | article-to-image-app/backend/src/agent/imageGenerator.js:82-91 | polling ends at the first terminal reply: its urls for SUCCEEDED, nothing for FAILED or CANCELED |
| ImageGenerator.PollTimesOut | article-to-image-app/backend/src/agent/imageGenerator.js:92-100 | thirty non-terminal replies (thrown, RUNNING, PENDING, SUCCEEDED without results) end with nothing |
| ImageGenerator.PollReadsFirstThirty | article-to-image-app/backend/src/agent/imageGenerator.js:66-69 | only the first 30 replies matter |
| ImageGenerator.MockMode | article-to-image-app/backend/src/agent/imageGenerator.js:8-16 | without an API key the result is `mockImages(count)`, all four urls by default |
| ImageGenerator.FailedTaskFallsBack | article-to-image-app/backend/src/agent/imageGenerator.js:50-58 | a failed or canceled task gives the same images as mock mode |
| ImageGenerator.TimedOutTaskFallsBack | article-to-image-app/backend/src/agent/imageGenerator.js:50-58 | a task that times out gives the placeholders |
| ImageGenerator.SubmissionFallsBack | article-to-image-app/backend/src/agent/imageGenerator.js:45-62 | a thrown submission or a missing or empty task id gives the placeholders |
| ImageGenerator.SucceededTaskReturnsUrls | article-to-image-app/backend/src/agent/imageGenerator.js:50-54 | the first successful reply's urls are returned uncut, whatever `count` is |
| ClipEvaluator.Scored | article-to-image-app/backend/src/agent/clipEvaluator.js:10-15 | image i gets draw i and rank i + 1 |
| ClipEvaluator.Insert | article-to-image-app/backend/src/agent/clipEvaluator.js:16 | insertion adds exactly one element |
| ClipEvaluator.InsertDescending | article-to-image-app/backend/src/agent/clipEvaluator.js:16 | insertion keeps scores non-increasing |
| ClipEvaluator.InsertOrdered | article-to-image-app/backend/src/agent/clipEvaluator.js:16 | insertion of an earlier image keeps the (score down, rank up) order |
| ClipEvaluator.SortByScore | article-to-image-app/backend/src/agent/clipEvaluator.js:16 | the sort is a permutation with non-increasing scores |
| ClipEvaluator.SortIsStable | article-to-image-app/backend/src/agent/clipEvaluator.js:16 | equal scores keep their input order |
| ClipEvaluator.EvaluateImages | article-to-image-app/backend/src/agent/clipEvaluator.js:4-17 | same length as the input; each entry is the input image at position rank - 1 with that position's draw; scores non-increasing; equal scores in input order |
| ClipEvaluator.SortedEntries | article-to-image-app/backend/src/agent/clipEvaluator.js:11-16 | every sorted entry is an input image with its own draw and rank |
| ClipEvaluator.RanksArePermutation | article-to-image-app/backend/src/agent/clipEvaluator.js:13 | ranks are 1..N, each exactly once |
| ClipEvaluator.RankingIsPermutation | article-to-image-app/backend/src/agent/clipEvaluator.js:10-16 | the output is the scored images, reordered |
| ClipEvaluator.ContextIgnored | article-to-image-app/backend/src/agent/clipEvaluator.js:4 | the text context does not influence the result |
| ClipEvaluator.RankIsInputPosition | article-to-image-app/backend/src/agent/clipEvaluator.js:13-16 | ranks are input positions, not output positions |
| AgentFlow.SelectPrompt | article-to-image-app/backend/src/agent/agentFlow.js:31-40 | with non-empty illustrations, the first one's prompt with "text, watermark, ugly"; otherwise `generatePrompt(visualPlan, semanticData)` |
| AgentFlow.RunAgentFlow | article-to-image-app/backend/src/agent/agentFlow.js:8-60 | an input error propagates with no trace; the analyzer check fails with its own message; otherwise the output is `FlowFromText` of the cleaned text, and its trace names the six stages in order |
| AgentFlow.PushedSix | article-to-image-app/backend/src/agent/agentFlow.js:14-50 | the six pushes build the trace of a successful run |
| AgentFlow.TraceStageNames | article-to-image-app/backend/src/agent/agentFlow.js:14-50 | the trace has six entries: Input Processing, Semantic Analysis, Visual Planning, Prompt Generation, Image Generation, CLIP Evaluation |
| AgentFlow.IllustrationShortCircuit | article-to-image-app/backend/src/agent/agentFlow.js:32-37 | with illustrations, the prompt is the first illustration's, and the preferences do not affect it |
| AgentFlow.BuiltPrompt | article-to-image-app/backend/src/agent/agentFlow.js:38-42 | without illustrations, the prompt entry is `generatePrompt(planVisuals(...), semanticData)` |
| AgentFlow.ResultAssembly | article-to-image-app/backend/src/agent/agentFlow.js:45-58 | four images are requested and ranked against the chosen prompt; the result carries exactly the prompt, the plan and the ranking; the image entry reports the raw count |
| AgentFlow.MockModeImages | article-to-image-app/backend/src/agent/agentFlow.js:45-49 | without an API key, the four placeholder images come back ranked |
| AgentFlow.MockModeScenario | article-to-image-app/backend/src/agent/agentFlow.js:8-59 | "A story of success and hope." in mock mode with no preferences gives keywords ["success"], positive sentiment, style "Cinematic", subject "success", bright lighting and palette, a prompt starting "success, " and ending in the quality words, and four ranked images |
| AgentFlow.SuccessFlow | article-to-image-app/backend/src/agent/agentFlow.js:21-49 | an analysis with the single keyword "success" and positive sentiment plans and prompts as above |
| AgentFlow.ScenarioInput | article-to-image-app/backend/src/agent/inputProcessor.js:12-14 | the scenario text passes input processing unchanged |
| AgentFlow.ScenarioAnalysis | article-to-image-app/backend/src/agent/semanticEngine.js:120-125 | the scenario text's heuristic analysis has keywords ["success"] and positive sentiment |
| Strings.NatToString | article-to-image-app/backend/src/agent/agentFlow.js:46 | the decimal form of `rawImages.length`: at least one digit, only digits, and its digits denote the number |
| Strings.NatToStringInjective | article-to-image-app/backend/src/agent/agentFlow.js:46 | different counts give different decimal forms |
| UiStore.AfterReset | article-to-image-app/frontend/src/store/useStore.js:17 | `reset` sets step "input", no result, an empty trace and not processing, and keeps the input draft and preferences |
| UiStore.ResetIdempotent | article-to-image-app/frontend/src/store/useStore.js:17 | resetting twice is resetting once |
| UiStore.ResetOfInitial | article-to-image-app/frontend/src/store/useStore.js:4-17 | resetting a fresh store changes nothing |
| UiStore.Store.constructor | article-to-image-app/frontend/src/store/useStore.js:4-9 | initial state: step "input", an empty text draft, style "Cinematic", no result, not processing, an empty trace |
| UiStore.Store.SetStep | article-to-image-app/frontend/src/store/useStore.js:11 | changes `step` and no other field |
| UiStore.Store.SetInputData | article-to-image-app/frontend/src/store/useStore.js:12 | changes `inputData` and no other field |
| UiStore.Store.SetPreferences | article-to-image-app/frontend/src/store/useStore.js:13 | changes `preferences` and no other field |
| UiStore.Store.SetResult | article-to-image-app/frontend/src/store/useStore.js:14 | changes `generatedResult` and no other field |
| UiStore.Store.SetProcessing | article-to-image-app/frontend/src/store/useStore.js:15 | changes `isProcessing` and no other field |
| UiStore.Store.AddTraceStep | article-to-image-app/frontend/src/store/useStore.js:16 | appends exactly one entry at the end, keeps the earlier entries, and changes nothing else |
| UiStore.Store.Reset | article-to-image-app/frontend/src/store/useStore.js:17 | the new state is `AfterReset` of the old one |
| UiStore.Store.ReplayTrace | article-to-image-app/frontend/src/store/useStore.js:16-17 | a reset, as before a new run, followed by one `addTraceStep` per step, as the settings page replays a trace, leaves exactly those steps, in call order |

## Left out

- The foreign libraries are left out: the HTTP fetch and the cheerio DOM stripping, `pdf-parse`, `mammoth` and `fs.readFileSync`. They are the abstract functions of `Extractors`, and a call that throws is `None`.
- The DashScope chat request, its headers and the system prompt text are left out. The language model is `LlmProvider.complete`, which yields the reply's `content` or nothing.
- `JSON.parse` is the oracle `LlmProvider.parseJson`. Only the selection of the candidate substring is modelled. The parsed object is reduced to `article_tone` and `illustrations`, and an illustration to three string fields.
- The Wanx HTTP requests are left out. A submission reply and each poll reply are values returned by `WanxService`.
- `setTimeout`, the 2-second delay between polls and the wall-clock timeout are left out. Only attempts are counted.
- `Math.random` and the float arithmetic of `toFixed(4)` are left out. Each score is an integer in ten-thousandths, drawn within the range that `toFixed(4)` can produce.
- ClipEvaluator.EvaluateImages: the score is a string in the source, compared by numeric coercion. The model uses the number.
- The API-key lookup in `process.env` is the boolean `hasApiKey`.
- `console` logging and async/await are left out. Calls are sequential.
- AgentFlow.RunAgentFlow: the `typeof analyzeSemantics` check is the flag `analyzerIsFunction`. Any other exception thrown by a stage is left out. Stages that cannot throw in the model never throw.
- Dynamic typing is left out. Non-string prompts, keywords or summaries, and a non-array `illustrations`, are outside the model. For example, an illustration without a prompt would make `prompt.substring` throw in `generateImages`.
- Character counting: a Dafny `char` is a Unicode scalar value, but JavaScript's `length`, `substring` and `slice` count UTF-16 code units. For text outside the Basic Multilingual Plane the two differ. A character above U+FFFF counts as two units in JavaScript and as one character here. This affects the 5000-character cut (article-to-image-app/backend/src/agent/inputProcessor.js:48), the 100-character summaries (article-to-image-app/backend/src/agent/semanticEngine.js:107 and :128), the `length > 5` keyword test (article-to-image-app/backend/src/agent/semanticEngine.js:123) and the 50-character prompt description (article-to-image-app/backend/src/agent/promptGenerator.js:11). JavaScript can also cut a surrogate pair in half, which the model cannot express.
- White space is the JavaScript `\s` set. There is no Unicode normalisation.
- The Express routes, the server and the module-level request history are left out.
- The frontend pages, i18n and the HTTP post of the settings page are left out. So are the configuration and bootstrap files and the debugging script.
- UiStore.InputDraft: the uploaded file object is reduced to an optional name.
