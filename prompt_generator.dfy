/** Prompt generator (backend/src/agent/promptGenerator.js): the template that
    turns a visual plan and an analysis into the image prompt. */
module PromptGenerator {
  import opened Strings
  import opened SemanticEngine
  import opened VisualPlanner

  datatype PromptData = PromptData(prompt: string, negativePrompt: string)

  const MagicWords: string := "high quality, 8k, masterpiece, trending on artstation, highly detailed"
  const NegativePrompt: string := "text, watermark, ugly, deformed, blurry, bad anatomy"
  const DescriptionLength: nat := 50

  /** `generatePrompt(visualPlan, semanticData)`. */
  function GeneratePrompt(plan: VisualPlan, sem: Analysis): (pd: PromptData)
    ensures StartsWith(pd.prompt, plan.subject + ", ")
    ensures EndsWith(pd.prompt, MagicWords)
    ensures pd.negativePrompt == NegativePrompt
  {
    var description := Take(sem.summary, DescriptionLength);
    var prompt := plan.subject + ", " + description + ". Style: " + plan.style + ". Lighting: " + plan.lighting
      + ". " + plan.composition + ". " + MagicWords;
    assert prompt[..|plan.subject + ", "|] == plan.subject + ", ";
    PromptData(prompt, NegativePrompt)
  }

  /** The description slot holds the first 50 characters of the summary (all of
      it when shorter), between the subject and the style. */
  lemma PromptLayout(plan: VisualPlan, sem: Analysis)
    ensures var d := Take(sem.summary, DescriptionLength);
      && |d| <= DescriptionLength && StartsWith(sem.summary, d)
      && GeneratePrompt(plan, sem).prompt ==
         plan.subject + ", " + d + ". Style: " + plan.style + ". Lighting: " + plan.lighting
         + ". " + plan.composition + ". " + MagicWords
  {}

  /** The prompt depends on the subject, style, lighting and composition of the
      plan and on the summary of the analysis only: the colour palette and the
      other analysis fields are ignored. */
  lemma PromptInputs(p1: VisualPlan, s1: Analysis, p2: VisualPlan, s2: Analysis)
    requires p1.subject == p2.subject && p1.style == p2.style
    requires p1.lighting == p2.lighting && p1.composition == p2.composition
    requires s1.summary == s2.summary
    ensures GeneratePrompt(p1, s1) == GeneratePrompt(p2, s2)
  {}
}
