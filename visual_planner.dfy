/** Visual planner (backend/src/agent/visualPlanner.js): the rule table from
    the analysis and the user's style preference to a visual plan. */
module VisualPlanner {
  import opened Wrappers
  import opened Strings
  import opened SemanticEngine

  /** The user preferences object; `planVisuals`'s default `{}` is
      `Preferences(None)`. */
  datatype Preferences = Preferences(style: Option<string>)

  datatype VisualPlan = VisualPlan(
    style: string,
    composition: string,
    lighting: string,
    colorPalette: seq<string>,
    subject: string)

  const DefaultStyle: string := "Cinematic"
  const TechStyle: string := "Cyberpunk"
  const NatureStyle: string := "Watercolor"
  const Composition: string := "Wide angle, Rule of thirds"
  const BrightLighting: string := "Bright, Vibrant"
  const MutedLighting: string := "Moody, Muted"
  const BrightPalette: seq<string> := ["Blue", "Gold"]
  const MutedPalette: seq<string> := ["Grey", "Dark Blue"]
  const FallbackSubject: string := "Abstract Concept"

  /** `semanticData.keywords[0] || "Abstract Concept"`. */
  function Subject(keywords: seq<string>): string {
    OrDefault(if keywords == [] then None else Some(keywords[0]), FallbackSubject)
  }

  /** `planVisuals(semanticData, userPreferences)`: the style starts as the
      preference (or the default), the "tech" rule may overwrite it, and the
      "nature" rule, checked last, may overwrite it again. */
  function PlanVisuals(sem: Analysis, prefs: Preferences): (p: VisualPlan)
    ensures p.style == (if "nature" in sem.keywords then NatureStyle
                        else if "tech" in sem.keywords then TechStyle
                        else OrDefault(prefs.style, DefaultStyle))
    ensures sem.sentiment == Positive ==> p.lighting == BrightLighting && p.colorPalette == BrightPalette
    ensures sem.sentiment != Positive ==> p.lighting == MutedLighting && p.colorPalette == MutedPalette
    ensures p.composition == Composition
    ensures sem.keywords != [] && sem.keywords[0] != "" ==> p.subject == sem.keywords[0]
    ensures sem.keywords == [] || sem.keywords[0] == "" ==> p.subject == FallbackSubject
  {
    var style0 := OrDefault(prefs.style, DefaultStyle);
    var tone := if sem.sentiment == Positive then BrightLighting else MutedLighting;
    var style1 := if "tech" in sem.keywords then TechStyle else style0;
    var style2 := if "nature" in sem.keywords then NatureStyle else style1;
    VisualPlan(
      style := style2,
      composition := Composition,
      lighting := tone,
      colorPalette := if sem.sentiment == Positive then BrightPalette else MutedPalette,
      subject := Subject(sem.keywords))
  }

  /** Without a "tech" or "nature" keyword the style is the preference when it
      is a non-empty string, otherwise "Cinematic". */
  lemma PreferredStyle(sem: Analysis, prefs: Preferences)
    requires "tech" !in sem.keywords && "nature" !in sem.keywords
    ensures prefs.style.Some? && prefs.style.value != "" ==> PlanVisuals(sem, prefs).style == prefs.style.value
    ensures prefs.style.None? || prefs.style.value == "" ==> PlanVisuals(sem, prefs).style == DefaultStyle
  {}

  /** A "tech" keyword without "nature" gives "Cyberpunk" whatever the
      preference. */
  lemma TechOverridesPreference(sem: Analysis, prefs: Preferences, other: Preferences)
    requires "tech" in sem.keywords && "nature" !in sem.keywords
    ensures PlanVisuals(sem, prefs).style == TechStyle
    ensures PlanVisuals(sem, prefs) == PlanVisuals(sem, other)
  {}

  /** "nature" gives "Watercolor" even when "tech" is present too: the later
      rule wins. */
  lemma NatureWins(sem: Analysis, prefs: Preferences)
    requires "nature" in sem.keywords
    ensures PlanVisuals(sem, prefs).style == NatureStyle
  {}

  /** The membership tests match whole keywords only: "technology" and
      "natureza" trigger nothing. */
  lemma WholeKeywordsOnly(sentiment: Sentiment)
    ensures PlanVisuals(MockShaped(["technology", "natureza"], sentiment), Preferences(Some("Anime"))).style == "Anime"
  {
    var kw := ["technology", "natureza"];
    assert kw[0] != "tech" && kw[1] != "tech";
    assert kw[0] != "nature" && kw[1] != "nature";
  }

  /** An analysis with the given keywords and sentiment and otherwise empty
      fields. */
  function MockShaped(keywords: seq<string>, sentiment: Sentiment): Analysis {
    Analysis("", keywords, sentiment, "", None, None, None)
  }
}
