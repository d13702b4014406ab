/** The ideas API on top of the idea-framework service: single and batch
    generation, framework examples, and the four-band validation score with
    its recommendations. An `HTTPException` raised inside a handler's `try`
    is caught by the handler's own `except Exception` and re-raised as a 500
    whose detail is the caught exception's text, `"404: ..."`. */
module IdeasApi {
  import opened Outcome
  import opened Text
  import opened IdeaFramework

  // ------------------------------------------------------------ generation

  /** The text of a generation fault, as `str(e)` renders it. */
  function FaultText(f: Fault): string {
    match f
    case ValueError(m) => m
    case IndexError => "list index out of range"
  }

  /** `POST /ideas/generate`: a `ValueError` becomes 400 and any other fault 500,
      each with the fault's text as detail. */
  function GenerateIdea(frameworkType: string, problem: ProblemInput, industry: Option<string>): (r: Outcome<IdeaDraft>)
    ensures r.Fail? && r.code == 400 <==> frameworkType !in Frameworks
    ensures r.Fail? && r.code == 400 ==> r.detail == "Unknown framework: " + frameworkType
    ensures r.Fail? && r.code == 500 <==> frameworkType in Frameworks && Blank(TitleOf(problem))
    ensures r.Fail? && r.code == 500 ==> r.detail == "list index out of range"
    ensures r.Ok? <==> frameworkType in Frameworks && !Blank(TitleOf(problem))
    ensures r.Ok? ==> r.value == GenerateIdeaWithFramework(frameworkType, problem, industry).idea
    ensures r.Ok? ==> r.value.competitionLevel == TemplateCompetition(frameworkType)
    ensures r.Ok? ==> FirstWord(TitleOf(problem)).Some?
                      && Contains(r.value.title, TitleCase(FirstWord(TitleOf(problem)).value))
  {
    match GenerateIdeaWithFramework(frameworkType, problem, industry)
    case Made(idea) => Ok(idea)
    case Raised(ValueError(m)) => Fail(400, m)
    case Raised(IndexError) => Fail(500, FaultText(IndexError))
  }

  /** The batch loop for any generator: one idea per problem, in order, or a
      500 carrying the text of the first fault. */
  function BatchOf(gen: ProblemInput -> Generated, problems: seq<ProblemInput>): (r: Outcome<seq<IdeaDraft>>)
    ensures r.Ok? <==> forall k :: 0 <= k < |problems| ==> gen(problems[k]).Made?
    ensures r.Ok? ==> |r.value| == |problems| && forall i :: 0 <= i < |problems| ==> r.value[i] == gen(problems[i]).idea
    ensures r.Fail? ==> r.code == 500 && exists k :: 0 <= k < |problems| && gen(problems[k]).Raised?
                                                      && r.detail == FaultText(gen(problems[k]).fault)
                                                      && forall j :: 0 <= j < k ==> gen(problems[j]).Made?
  {
    if |problems| == 0 then Ok([])
    else
      match gen(problems[0])
      case Raised(f) => Fail(500, FaultText(f))
      case Made(idea) =>
        var rest := BatchOf(gen, problems[1..]);
        assert forall k :: 1 <= k < |problems| ==> problems[k] == problems[1..][k - 1];
        if rest.Fail? then rest else Ok([idea] + rest.value)
  }

  /** `POST /ideas/batch-generate`: one idea per problem, in order. The first
      problem that fails aborts the batch with a 500 carrying its fault's text;
      an unknown framework is reported this way too, unlike the single
      endpoint's 400, and an empty batch succeeds whatever the framework. */
  function BatchGenerate(problems: seq<ProblemInput>, frameworkType: string, industry: Option<string>): (r: Outcome<seq<IdeaDraft>>)
    ensures r.Ok? <==> (|problems| == 0 ||
                         (frameworkType in Frameworks && forall k :: 0 <= k < |problems| ==> !Blank(TitleOf(problems[k]))))
    ensures r.Ok? ==> |r.value| == |problems|
    ensures r.Ok? ==> forall i :: 0 <= i < |problems| ==> r.value[i] == GenerateIdeaWithFramework(frameworkType, problems[i], industry).idea
    ensures r.Fail? ==> r.code == 500
    ensures r.Fail? && frameworkType !in Frameworks ==> r.detail == "Unknown framework: " + frameworkType
    ensures r.Fail? && frameworkType in Frameworks ==> r.detail == "list index out of range"
  {
    var gen := (p: ProblemInput) => GenerateIdeaWithFramework(frameworkType, p, industry);
    assert forall k :: 0 <= k < |problems| ==>
      (gen(problems[k]).Made? <==> frameworkType in Frameworks && !Blank(TitleOf(problems[k])));
    BatchOf(gen, problems)
  }

  // -------------------------------------------------------------- examples

  datatype FrameworkExamples = FrameworkExamples(framework: Framework, examples: seq<string>)

  /** `GET /ideas/examples/{framework_type}`: the framework and its examples; the
      404 for an unknown key is caught and surfaces as 500. */
  function GetFrameworkExamples(frameworkType: string): (r: Outcome<FrameworkExamples>)
    ensures r.Ok? <==> frameworkType in Frameworks
    ensures r.Ok? ==> r.value.framework == Frameworks[frameworkType] && r.value.examples == Frameworks[frameworkType].examples
    ensures r.Fail? ==> r.code == 500 && r.detail == "404: Framework not found"
  {
    if frameworkType !in Frameworks then Fail(500, "404: Framework not found")
    else Ok(FrameworkExamples(Frameworks[frameworkType], Frameworks[frameworkType].examples))
  }

  /** The examples endpoint knows exactly the frameworks the single-idea
      endpoint does not refuse with 400. */
  lemma ExamplesExactlyForKnownFrameworks(frameworkType: string, problem: ProblemInput, industry: Option<string>)
    ensures GetFrameworkExamples(frameworkType).Ok? <==>
            !(GenerateIdea(frameworkType, problem, industry).Fail? && GenerateIdea(frameworkType, problem, industry).code == 400)
  {
  }

  // ------------------------------------------------------------ validation

  /** The competition band, read from the analysis' `market_saturation`. */
  function CompetitionBand(saturation: string): (r: int)
    ensures r == 30 <==> saturation == "Low"
    ensures r == 20 <==> saturation == "Medium"
    ensures r == 10 <==> saturation != "Low" && saturation != "Medium"
  {
    if saturation == "Low" then 30 else if saturation == "Medium" then 20 else 10
  }

  /** The market band, read from the obtainable-market range text. */
  function MarketBand(range: string): (r: int)
    ensures r == 30 <==> Contains(range, "B")
    ensures r == 25 <==> !Contains(range, "B") && Contains(range, "M") && Contains(range, "50M")
    ensures r == 20 <==> !Contains(range, "B") && Contains(range, "M") && !Contains(range, "50M")
    ensures r == 10 <==> !Contains(range, "B") && !Contains(range, "M")
  {
    if Contains(range, "B") then 30
    else if Contains(range, "M") && Contains(range, "50M") then 25
    else if Contains(range, "M") then 20
    else 10
  }

  /** The complexity band, from the number of tech-stack entries. */
  function TechBand(n: nat): (r: int)
    ensures r == 20 <==> n <= 3
    ensures r == 15 <==> 3 < n <= 5
    ensures r == 10 <==> 5 < n
  {
    if n <= 3 then 20 else if n <= 5 then 15 else 10
  }

  /** The monetisation band, matched case-insensitively. */
  function MonetizationBand(model: string): (r: int)
    ensures r == 20 <==> Contains(Lower(model), "subscription")
    ensures r == 15 <==> !Contains(Lower(model), "subscription") && Contains(Lower(model), "usage")
    ensures r == 10 <==> !Contains(Lower(model), "subscription") && !Contains(Lower(model), "usage")
  {
    if Contains(Lower(model), "subscription") then 20
    else if Contains(Lower(model), "usage") then 15
    else 10
  }

  /** Whatever the inputs, the four bands sum to between 40 and 100, so the
      `min(100, ...)` cap never applies. */
  lemma BandsInRange(saturation: string, range: string, n: nat, model: string)
    ensures 40 <= CompetitionBand(saturation) + MarketBand(range) + TechBand(n) + MonetizationBand(model) <= 100
  {
  }

  /** Which of "B", "M" and "50M" each reported range contains. */
  lemma LargeRangeFacts(t: string)
    requires t == "$10M - $50M"
    ensures !Contains(t, "B") && Contains(t, "M") && Contains(t, "50M")
  {
    ContainsStart(t, "B");
    assert t[8..11] == "50M" by {
      assert t[8..11][0] == '5' && t[8..11][1] == '0' && t[8..11][2] == 'M';
    }
    OccursContains(t, "50M", 8);
    assert OccursAt(t, "M", 3);
    OccursContains(t, "M", 3);
  }

  lemma SmallRangeFacts(t: string)
    requires t == "$1M - $10M"
    ensures !Contains(t, "B") && Contains(t, "M") && !Contains(t, "50M")
  {
    ContainsStart(t, "B");
    ContainsStart(t, "50M");
    assert OccursAt(t, "M", 2);
    OccursContains(t, "M", 2);
  }

  lemma MediumRangeFacts(t: string)
    requires t == "$5M - $20M"
    ensures !Contains(t, "B") && Contains(t, "M") && !Contains(t, "50M")
  {
    ContainsStart(t, "B");
    ContainsStartPair(t, "50M");
    assert OccursAt(t, "M", 2);
    OccursContains(t, "M", 2);
  }

  /** Every range the estimator reports earns a market band of 20 or 25. */
  lemma EstimateBand(idea: IdeaInput)
    ensures 20 <= MarketBand(EstimateMarketSize(idea).obtainableMarket) <= 25
  {
    var range := EstimateMarketSize(idea).obtainableMarket;
    if range == "$10M - $50M" {
      LargeRangeFacts(range);
    } else if range == "$1M - $10M" {
      SmallRangeFacts(range);
    } else {
      MediumRangeFacts(range);
    }
  }

  datatype Validation = Validation(
    idea: IdeaInput,
    competition: CompetitionAnalysis,
    market: MarketEstimate,
    score: int,
    recommendations: seq<string>)

  /** `_generate_validation_recommendations`: three lines chosen by the score
      thresholds 80, 60 and 40. */
  function Recommendations(score: int): (r: seq<string>)
    ensures |r| == 3
    ensures r[0] == "Strong idea with high potential" <==> score >= 80
    ensures r[0] == "Good idea with potential" <==> 60 <= score < 80
    ensures r[0] == "Moderate potential" <==> 40 <= score < 60
    ensures r[0] == "Low validation score" <==> score < 40
    ensures score >= 80 ==>
              r == ["Strong idea with high potential", "Consider building MVP", "Start market research and user interviews"]
    ensures 60 <= score < 80 ==>
              r == ["Good idea with potential", "Refine value proposition", "Conduct more market research"]
    ensures 40 <= score < 60 ==>
              r == ["Moderate potential", "Consider pivoting or refining", "Focus on unique differentiation"]
    ensures score < 40 ==>
              r == ["Low validation score", "Consider different approach or market", "Conduct more research before proceeding"]
  {
    if score >= 80 then
      ["Strong idea with high potential", "Consider building MVP", "Start market research and user interviews"]
    else if score >= 60 then
      ["Good idea with potential", "Refine value proposition", "Conduct more market research"]
    else if score >= 40 then
      ["Moderate potential", "Consider pivoting or refining", "Focus on unique differentiation"]
    else
      ["Low validation score", "Consider different approach or market", "Conduct more research before proceeding"]
  }

  /** The band sum over a given analysis and estimate, capped at 100, with its
      recommendations. With a saturation worth 20 and a range worth 20 or 25
      the sum lies in [60, 85], so the cap does not apply. */
  function ScoreValidation(idea: IdeaInput, competition: CompetitionAnalysis, market: MarketEstimate): (r: Validation)
    requires CompetitionBand(competition.marketSaturation) == 20
    requires 20 <= MarketBand(market.obtainableMarket) <= 25
    ensures r.idea == idea && r.competition == competition && r.market == market
    ensures r.score == CompetitionBand(competition.marketSaturation) + MarketBand(market.obtainableMarket)
                       + TechBand(|idea.techStack.GetOr([])|) + MonetizationBand(idea.monetizationModel.GetOr(""))
    ensures 60 <= r.score <= 85
    ensures r.recommendations == Recommendations(r.score)
  {
    var total := CompetitionBand(competition.marketSaturation) + MarketBand(market.obtainableMarket)
                 + TechBand(|idea.techStack.GetOr([])|) + MonetizationBand(idea.monetizationModel.GetOr(""));
    var score := if total < 100 then total else 100;
    Validation(idea, competition, market, score, Recommendations(score))
  }

  /** `POST /ideas/validate-idea`. The competition band reads the analysis'
      `market_saturation`, which is always "Medium", so it is always 20; the
      estimator's three ranges give a market band of 25 or 20; the score is the
      uncapped band sum and always lies in [60, 85]. */
  function ValidateIdea(idea: IdeaInput): (r: Validation)
    ensures r.competition == AnalyzeCompetition(idea) && r.market == EstimateMarketSize(idea)
    ensures CompetitionBand(r.competition.marketSaturation) == 20
    ensures r.score == CompetitionBand(r.competition.marketSaturation) + MarketBand(r.market.obtainableMarket)
                       + TechBand(|idea.techStack.GetOr([])|) + MonetizationBand(idea.monetizationModel.GetOr(""))
    ensures 60 <= r.score <= 85
    ensures r.recommendations == Recommendations(r.score)
    ensures r.idea == idea
  {
    var competition := AnalyzeCompetition(idea);
    EstimateBand(idea);
    ScoreValidation(idea, competition, EstimateMarketSize(idea))
  }

  /** A validated idea is never told it has only moderate or low potential. */
  lemma ValidatedIdeaNeverLow(idea: IdeaInput)
    ensures Recommendations(ValidateIdea(idea).score)[0] in ["Strong idea with high potential", "Good idea with potential"]
  {
  }
}
