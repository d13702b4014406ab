/** The validation toolkit: surveys and landing pages built from fixed
    templates, conversion events, and the validation report's score,
    recommendations and next steps. Wall-clock ids and timestamps are
    parameters. */
module ValidationToolkit {
  import opened Outcome
  import opened IdeaFramework
  import opened Lists

  /** What a toolkit constructor returns: the value, or the `ValueError` text. */
  datatype Built<+T> = Built(value: T) | Rejected(message: string)

  // ----------------------------------------------------------------- surveys

  datatype Question = Question(id: string, kind: string, question: string, options: Option<seq<string>>)

  datatype SurveyTemplate = SurveyTemplate(title: string, questions: seq<Question>)

  const ProblemSurvey: SurveyTemplate := SurveyTemplate("Problem Validation Survey", [
    Question("problem_frequency", "scale", "How often do you face this problem?",
      Some(["Never", "Rarely", "Sometimes", "Often", "Daily"])),
    Question("problem_impact", "scale", "How much does this problem impact your work?",
      Some(["No impact", "Minor", "Moderate", "Significant", "Critical"])),
    Question("current_solution", "text", "How do you currently solve this problem?", None),
    Question("willingness_to_pay", "scale", "Would you pay for a solution to this problem?",
      Some(["No", "Maybe", "Yes", "Definitely", "Already paying"]))
  ])

  const SolutionSurvey: SurveyTemplate := SurveyTemplate("Solution Validation Survey", [
    Question("solution_interest", "scale", "How interested are you in this solution?",
      Some(["Not interested", "Somewhat", "Interested", "Very interested", "Must have"])),
    Question("feature_priority", "multi_select", "Which features are most important to you?",
      Some(["Easy to use", "Affordable", "Fast", "Integrations", "Support"])),
    Question("pricing_expectation", "text", "What would you expect to pay for this solution?", None),
    Question("timeline", "scale", "When would you need this solution?",
      Some(["No rush", "Within 6 months", "Within 3 months", "Within 1 month", "Immediately"]))
  ])

  const SurveyTemplates: map<string, SurveyTemplate> := map[
    "problem_validation" := ProblemSurvey,
    "solution_validation" := SolutionSurvey
  ]

  datatype Survey = Survey(
    id: string,
    surveyType: string,
    title: string,
    ideaTitle: string,
    ideaDescription: string,
    questions: seq<Question>,
    createdAt: string,
    status: string)

  /** `create_survey`: the template's questions followed by the custom ones; an
      absent or empty custom list adds nothing, and the template itself is
      only copied. */
  function CreateSurvey(surveyType: string, idea: IdeaInput, custom: Option<seq<Question>>, id: string, createdAt: string): (r: Built<Survey>)
    ensures r.Rejected? <==> surveyType !in SurveyTemplates
    ensures r.Rejected? ==> r.message == "Unknown survey type: " + surveyType
    ensures r.Built? ==> var t := SurveyTemplates[surveyType];
              && |r.value.questions| == |t.questions| + |custom.GetOr([])|
              && r.value.questions[..|t.questions|] == t.questions
              && r.value.questions[|t.questions|..] == custom.GetOr([])
    ensures r.Built? ==> r.value.title == SurveyTemplates[surveyType].title && r.value.surveyType == surveyType
    ensures r.Built? ==> r.value.ideaTitle == idea.title.GetOr("") && r.value.ideaDescription == idea.description.GetOr("")
    ensures r.Built? ==> r.value.status == "active" && r.value.id == id && r.value.createdAt == createdAt
  {
    if surveyType !in SurveyTemplates then Rejected("Unknown survey type: " + surveyType)
    else
      var t := SurveyTemplates[surveyType];
      var extra := if custom.Some? && |custom.value| > 0 then custom.value else [];
      var questions := t.questions + extra;
      assert questions[..|t.questions|] == t.questions;
      assert questions[|t.questions|..] == extra;
      Built(Survey(id, surveyType, t.title, idea.title.GetOr(""), idea.description.GetOr(""), questions, createdAt, "active"))
  }

  // ----------------------------------------------------------- landing pages

  /** A landing-page content value: a text or a list of texts. */
  datatype ContentValue = Text(text: string) | Items(items: seq<string>)

  datatype LandingTemplate = LandingTemplate(title: string, description: string, features: seq<string>)

  const ComingSoonPage: LandingTemplate := LandingTemplate("Coming Soon",
    "We're building something amazing. Be the first to know when we launch.",
    ["Early access to beta", "Exclusive pricing", "Priority support"])

  const ProblemSolutionPage: LandingTemplate := LandingTemplate("Problem-Solution",
    "We understand your pain. Here's how we're solving it.",
    ["Clear problem statement", "Solution overview", "Benefits and outcomes"])

  const FeatureFocusedPage: LandingTemplate := LandingTemplate("Feature-Focused",
    "Discover the key features that will transform your workflow.",
    ["Feature highlights", "Use cases", "Integration possibilities"])

  const LandingTemplates: map<string, LandingTemplate> := map[
    "coming_soon" := ComingSoonPage,
    "problem_solution" := ProblemSolutionPage,
    "feature_focused" := FeatureFocusedPage
  ]

  /** The keys of the generated content before any custom override. */
  const ContentKeys: set<string> := {"title", "description", "features", "target_audience", "monetization_model", "cta_text", "cta_url"}

  /** The generated content: each idea field, or the template's value when the
      idea lacks it, plus the fixed call to action. */
  function BaseContent(t: LandingTemplate, idea: IdeaInput): (c: map<string, ContentValue>)
    ensures c.Keys == ContentKeys
    ensures c["title"] == Text(idea.title.GetOr(t.title))
    ensures c["description"] == Text(idea.description.GetOr(t.description))
    ensures c["features"] == Items(idea.keyFeatures.GetOr(t.features))
    ensures c["target_audience"] == Text(idea.targetAudience.GetOr(""))
    ensures c["monetization_model"] == Text(idea.monetizationModel.GetOr(""))
  {
    map[
      "title" := Text(idea.title.GetOr(t.title)),
      "description" := Text(idea.description.GetOr(t.description)),
      "features" := Items(idea.keyFeatures.GetOr(t.features)),
      "target_audience" := Text(idea.targetAudience.GetOr("")),
      "monetization_model" := Text(idea.monetizationModel.GetOr("")),
      "cta_text" := Text("Get Early Access"),
      "cta_url" := Text("#waitlist")
    ]
  }

  datatype LandingPage = LandingPage(
    id: string,
    templateType: string,
    ideaId: Option<string>,
    content: map<string, ContentValue>,
    createdAt: string,
    status: string)

  /** `create_landing_page`: the generated content, then `dict.update` with the
      custom content, whose keys win. */
  function CreateLandingPage(templateType: string, idea: IdeaInput, custom: Option<map<string, ContentValue>>,
                             id: string, createdAt: string): (r: Built<LandingPage>)
    ensures r.Rejected? <==> templateType !in LandingTemplates
    ensures r.Rejected? ==> r.message == "Unknown template type: " + templateType
    ensures r.Built? ==> r.value.content.Keys == ContentKeys + custom.GetOr(map[]).Keys
    ensures r.Built? ==> forall k :: k in custom.GetOr(map[]) ==> r.value.content[k] == custom.value[k]
    ensures r.Built? ==> forall k :: k in ContentKeys && k !in custom.GetOr(map[]) ==>
              r.value.content[k] == BaseContent(LandingTemplates[templateType], idea)[k]
    ensures r.Built? ==> r.value.ideaId == idea.id && r.value.templateType == templateType && r.value.status == "draft"
  {
    if templateType !in LandingTemplates then Rejected("Unknown template type: " + templateType)
    else
      var base := BaseContent(LandingTemplates[templateType], idea);
      var content := if custom.Some? && |custom.value| > 0 then base + custom.value else base;
      Built(LandingPage(id, templateType, idea.id, content, createdAt, "draft"))
  }

  // ------------------------------------------------------ conversion events

  datatype ConversionEvent = ConversionEvent(landingPageId: string, eventType: string, timestamp: string, data: map<string, string>)

  /** `track_conversion_metrics`: the event echoed back, `data or {}` as its data. */
  function TrackConversion(landingPageId: string, eventType: string, data: Option<map<string, string>>, timestamp: string): (r: ConversionEvent)
    ensures r.landingPageId == landingPageId && r.eventType == eventType && r.timestamp == timestamp
    ensures data.Some? ==> r.data == data.value
    ensures data.None? ==> r.data == map[]
  {
    var d := if data.Some? && |data.value| > 0 then data.value else map[];
    ConversionEvent(landingPageId, eventType, timestamp, d)
  }

  /** Tracking an event's own fields gives that event back. */
  lemma TrackConversionEchoes(e: ConversionEvent)
    ensures TrackConversion(e.landingPageId, e.eventType, Some(e.data), e.timestamp) == e
    ensures TrackConversion(e.landingPageId, e.eventType, None, e.timestamp).data == map[]
  {
  }

  // ------------------------------------------------------------------ report

  /** One survey response; only its `willingness_to_pay` is read. */
  datatype SurveyResult = SurveyResult(willingnessToPay: Option<real>)

  function Willingness(r: SurveyResult): real { r.willingnessToPay.GetOr(0.0) }

  /** Python truthiness of the optional survey list: present and non-empty. */
  predicate HasResults(results: Option<seq<SurveyResult>>) { results.Some? && |results.value| > 0 }

  /** Python truthiness of the optional metrics dict: present and non-empty. */
  predicate HasMetrics(metrics: Option<map<string, real>>) { metrics.Some? && |metrics.value| > 0 }

  function ConversionRate(metrics: map<string, real>): real {
    if "conversion_rate" in metrics then metrics["conversion_rate"] else 0.0
  }

  /** A response willing to pay at least 3. */
  predicate IsWilling(r: SurveyResult) { Willingness(r) >= 3.0 }

  /** The number of responses willing to pay at least 3. */
  function CountWilling(results: seq<SurveyResult>): (n: nat)
    ensures n == |Filter(results, IsWilling)|
    ensures n <= |results|
  {
    if |results| == 0 then 0
    else (if Willingness(results[0]) >= 3.0 then 1 else 0) + CountWilling(results[1..])
  }

  function SumWillingness(results: seq<SurveyResult>): real {
    if |results| == 0 then 0.0 else Willingness(results[0]) + SumWillingness(results[1..])
  }

  function AverageWillingness(results: seq<SurveyResult>): real
    requires |results| > 0
  {
    SumWillingness(results) / |results| as real
  }

  /** `(w / n) * 25` for a count `w` out of `n`. */
  function Share(w: real, n: real): (p: real)
    requires 0.0 <= w <= n && n > 0.0
    ensures 0.0 <= p <= 25.0
    ensures p * n == 25.0 * w
    ensures p == 25.0 <==> w == n
    ensures p == 0.0 <==> w == 0.0
  {
    var q := w / n;
    assert q * n == w;
    assert q <= 1.0;
    q * 25.0
  }

  /** `p` is 25 times the fraction `w / n`, stated without division. */
  predicate ShareOf(p: real, w: nat, n: nat) {
    p * (n as real) == 25.0 * (w as real)
  }

  lemma ShareMonotone(w1: real, w2: real, n: real)
    requires 0.0 <= w1 <= w2 <= n && n > 0.0
    ensures Share(w1, n) <= Share(w2, n)
  {
    var d := Share(w2, n) - Share(w1, n);
    assert d * n == 25.0 * (w2 - w1);
    if d < 0.0 {
      NegativeTimesPositive(d, n);
    }
  }

  lemma NegativeTimesPositive(a: real, b: real)
    requires a < 0.0 < b
    ensures a * b < 0.0
  {
  }

  /** The survey share of the score: 25 times the fraction of willing responses. */
  function SurveyPart(results: seq<SurveyResult>): (p: real)
    requires |results| > 0
    ensures 0.0 <= p <= 25.0
    ensures p == 25.0 <==> CountWilling(results) == |results|
    ensures p == 0.0 <==> CountWilling(results) == 0
    ensures ShareOf(p, CountWilling(results), |results|)
  {
    Share(CountWilling(results) as real, |results| as real)
  }

  /** The landing-page share of the score: the conversion rate in percent, at most 25. */
  function LandingPart(metrics: map<string, real>): (p: real)
    ensures p <= 25.0
    ensures ConversionRate(metrics) >= 0.0 ==> p >= 0.0
    ensures ConversionRate(metrics) <= 0.25 ==> p == ConversionRate(metrics) * 100.0
    ensures ConversionRate(metrics) >= 0.25 ==> p == 25.0
  {
    var pct := ConversionRate(metrics) * 100.0;
    if pct < 25.0 then pct else 25.0
  }

  /** `_calculate_validation_score`: 50, plus the survey share when there are
      responses, plus the landing share when there are metrics, clamped to
      [0, 100]. */
  function ValidationScore(results: Option<seq<SurveyResult>>, metrics: Option<map<string, real>>): (s: real)
    ensures 0.0 <= s <= 100.0
    ensures !HasResults(results) && !HasMetrics(metrics) ==> s == 50.0
    ensures HasResults(results) && !HasMetrics(metrics) ==> s == 50.0 + SurveyPart(results.value)
    ensures !HasMetrics(metrics) || ConversionRate(metrics.value) >= 0.0 ==> s >= 50.0
    ensures HasMetrics(metrics) && ConversionRate(metrics.value) >= 0.0 ==>
              s == 50.0 + (if HasResults(results) then SurveyPart(results.value) else 0.0) + LandingPart(metrics.value)
    ensures HasMetrics(metrics) && ConversionRate(metrics.value) < 0.0 ==>
              var raw := 50.0 + (if HasResults(results) then SurveyPart(results.value) else 0.0)
                         + ConversionRate(metrics.value) * 100.0;
              s == (if raw < 0.0 then 0.0 else raw)
  {
    var survey := if HasResults(results) then SurveyPart(results.value) else 0.0;
    var landing := if HasMetrics(metrics) then LandingPart(metrics.value) else 0.0;
    var raw := 50.0 + survey + landing;
    if raw > 100.0 then 100.0 else if raw < 0.0 then 0.0 else raw
  }

  /** A higher conversion rate never lowers the score. */
  lemma ScoreMonotoneInRate(results: Option<seq<SurveyResult>>, m1: map<string, real>, m2: map<string, real>)
    requires |m1| > 0 && |m2| > 0
    requires ConversionRate(m1) <= ConversionRate(m2)
    ensures ValidationScore(results, Some(m1)) <= ValidationScore(results, Some(m2))
  {
  }

  /** Among equally many responses, more willing ones never lower the score. */
  lemma ScoreMonotoneInWilling(a: seq<SurveyResult>, b: seq<SurveyResult>, metrics: Option<map<string, real>>)
    requires |a| == |b| > 0
    requires CountWilling(a) <= CountWilling(b)
    ensures ValidationScore(Some(a), metrics) <= ValidationScore(Some(b), metrics)
  {
    ShareMonotone(CountWilling(a) as real, CountWilling(b) as real, |a| as real);
  }

  const AdjustPricing: string := "Consider adjusting pricing or value proposition"
  const StrongDemand: string := "Strong market demand - proceed with development"
  const ImproveLanding: string := "Improve landing page copy and design"
  const ExcellentConversion: string := "Excellent conversion rate - scale marketing efforts"

  /** `_generate_recommendations`: at most one line from the survey average and
      at most one from the conversion rate. */
  function ValidationRecommendations(results: Option<seq<SurveyResult>>, metrics: Option<map<string, real>>): (r: seq<string>)
    ensures |r| <= 2
    ensures AdjustPricing in r <==> HasResults(results) && AverageWillingness(results.value) < 3.0
    ensures StrongDemand in r <==> HasResults(results) && AverageWillingness(results.value) >= 4.0
    ensures ImproveLanding in r <==> HasMetrics(metrics) && ConversionRate(metrics.value) < 0.05
    ensures ExcellentConversion in r <==> HasMetrics(metrics) && ConversionRate(metrics.value) > 0.15
    ensures forall line :: line in r ==> line in [AdjustPricing, StrongDemand, ImproveLanding, ExcellentConversion]
    ensures |r| == 2 ==> r[0] in [AdjustPricing, StrongDemand] && r[1] in [ImproveLanding, ExcellentConversion]
  {
    var survey :=
      if !HasResults(results) then []
      else if AverageWillingness(results.value) < 3.0 then [AdjustPricing]
      else if AverageWillingness(results.value) >= 4.0 then [StrongDemand]
      else [];
    var landing :=
      if !HasMetrics(metrics) then []
      else if ConversionRate(metrics.value) < 0.05 then [ImproveLanding]
      else if ConversionRate(metrics.value) > 0.15 then [ExcellentConversion]
      else [];
    survey + landing
  }

  /** The two pricing lines never appear together, nor the two landing lines. */
  lemma RecommendationsNeverContradict(results: Option<seq<SurveyResult>>, metrics: Option<map<string, real>>)
    ensures !(AdjustPricing in ValidationRecommendations(results, metrics) && StrongDemand in ValidationRecommendations(results, metrics))
    ensures !(ImproveLanding in ValidationRecommendations(results, metrics) && ExcellentConversion in ValidationRecommendations(results, metrics))
  {
  }

  /** `_suggest_next_steps`: three steps chosen by the score thresholds 80 and 60. */
  function NextSteps(results: Option<seq<SurveyResult>>, metrics: Option<map<string, real>>): (r: seq<string>)
    ensures |r| == 3
    ensures r[0] == "Build MVP" <==> ValidationScore(results, metrics) >= 80.0
    ensures r[0] == "Iterate on idea based on feedback" <==> 60.0 <= ValidationScore(results, metrics) < 80.0
    ensures r[0] == "Pivot or refine the idea" <==> ValidationScore(results, metrics) < 60.0
    ensures ValidationScore(results, metrics) >= 80.0 ==>
              r == ["Build MVP", "Set up development team", "Create detailed business plan"]
    ensures 60.0 <= ValidationScore(results, metrics) < 80.0 ==>
              r == ["Iterate on idea based on feedback", "Conduct more user interviews", "Refine value proposition"]
    ensures ValidationScore(results, metrics) < 60.0 ==>
              r == ["Pivot or refine the idea", "Conduct more market research", "Consider different target audience"]
  {
    var score := ValidationScore(results, metrics);
    if score >= 80.0 then ["Build MVP", "Set up development team", "Create detailed business plan"]
    else if score >= 60.0 then ["Iterate on idea based on feedback", "Conduct more user interviews", "Refine value proposition"]
    else ["Pivot or refine the idea", "Conduct more market research", "Consider different target audience"]
  }

  /** With neither responses nor metrics the score is 50, so the advice is to pivot. */
  lemma NoEvidenceMeansPivot(results: Option<seq<SurveyResult>>, metrics: Option<map<string, real>>)
    requires !HasResults(results) && !HasMetrics(metrics)
    ensures NextSteps(results, metrics)[0] == "Pivot or refine the idea"
    ensures ValidationRecommendations(results, metrics) == []
  {
  }
  /** The idea fields the report echoes; each is `None` when the idea lacks it. */
  datatype IdeaSummary = IdeaSummary(title: Option<string>, description: Option<string>,
                                     targetAudience: Option<string>, monetizationModel: Option<string>)

  datatype ValidationReport = ValidationReport(
    summary: IdeaSummary,
    score: real,
    recommendations: seq<string>,
    nextSteps: seq<string>,
    generatedAt: string)

  /** `generate_validation_report`: the idea's summary with the score,
      recommendations and next steps all computed from the same evidence. */
  function ValidationReportFor(idea: IdeaInput, results: Option<seq<SurveyResult>>, metrics: Option<map<string, real>>,
                               generatedAt: string): (r: ValidationReport)
    ensures r.summary == IdeaSummary(idea.title, idea.description, idea.targetAudience, idea.monetizationModel)
    ensures 0.0 <= r.score <= 100.0
    ensures |r.nextSteps| == 3 && |r.recommendations| <= 2
    ensures r.nextSteps[0] == "Build MVP" <==> r.score >= 80.0
    ensures r.nextSteps[0] == "Pivot or refine the idea" <==> r.score < 60.0
    ensures r.generatedAt == generatedAt
    ensures r.score == ValidationScore(results, metrics)
    ensures r.recommendations == ValidationRecommendations(results, metrics)
    ensures r.nextSteps == NextSteps(results, metrics)
  {
    ValidationReport(
      IdeaSummary(idea.title, idea.description, idea.targetAudience, idea.monetizationModel),
      ValidationScore(results, metrics),
      ValidationRecommendations(results, metrics),
      NextSteps(results, metrics),
      generatedAt)
  }
}
