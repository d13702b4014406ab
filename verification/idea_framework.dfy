/** The idea-framework service on its template path (no language-model client
    configured): framework dispatch, the four framework templates and the
    generic one, the line parser for model replies, and the title-keyword
    classifiers for competition and market size. */
module IdeaFramework {
  import opened Outcome
  import opened Text
  import opened Lists

  datatype Framework = Framework(name: string, description: string, examples: seq<string>)

  const UnbundleFramework: Framework := Framework("Unbundle a Giant", "Take one feature from a large product and make it better",
    ["Email marketing tool from HubSpot", "Analytics dashboard from Google Analytics", "Payment processing from Stripe"])
  const NicheFramework: Framework := Framework("Pick a Niche", "Apply existing business models to specific industries",
    ["CRM for yoga studios", "Project management for law firms", "Inventory management for bakeries"])
  const ApiFramework: Framework := Framework("API as a Service", "Simplify complex processes through APIs",
    ["Identity verification API", "Address validation API", "Document processing API"])
  const AutomationFramework: Framework := Framework("Automation Tool", "Automate repetitive tasks in specific workflows",
    ["Social media scheduling", "Invoice generation", "Customer support automation"])

  /** The framework table, keyed by framework type. */
  const Frameworks: map<string, Framework> := map[
    "unbundle" := UnbundleFramework,
    "niche" := NicheFramework,
    "api" := ApiFramework,
    "automation" := AutomationFramework
  ]

  /** The problem a generator is given; absent keys are `None`. */
  datatype ProblemInput = ProblemInput(title: Option<string>, description: Option<string>)

  /** A generated idea. */
  datatype IdeaDraft = IdeaDraft(
    title: string,
    description: string,
    targetAudience: string,
    monetizationModel: string,
    techStack: seq<string>,
    marketSize: string,
    competitionLevel: string,
    keyFeatures: seq<string>)

  /** The exceptions generation can raise. */
  datatype Fault = ValueError(message: string) | IndexError

  datatype Generated = Made(idea: IdeaDraft) | Raised(fault: Fault)

  /** An idea as the analysis endpoints receive it; absent keys are `None`. */
  datatype IdeaInput = IdeaInput(
    id: Option<string>,
    title: Option<string>,
    description: Option<string>,
    targetAudience: Option<string>,
    monetizationModel: Option<string>,
    techStack: Option<seq<string>>,
    keyFeatures: Option<seq<string>>)

  // -------------------------------------------------------------- templates

  /** The problem title, or "" when the key is absent. */
  function TitleOf(problem: ProblemInput): string { problem.title.GetOr("") }

  /** The fields a template fills in whatever the problem. */
  datatype FixedPart = FixedPart(
    targetAudience: string,
    monetizationModel: string,
    techStack: seq<string>,
    marketSize: string,
    competitionLevel: string,
    keyFeatures: seq<string>)

  /** The fields of a draft that a template fixes. */
  function FixedOf(d: IdeaDraft): FixedPart {
    FixedPart(d.targetAudience, d.monetizationModel, d.techStack, d.marketSize, d.competitionLevel, d.keyFeatures)
  }

  /** A draft from its title, its description and the template's fixed fields. */
  function Draft(title: string, description: string, fixed: FixedPart): (d: IdeaDraft)
    ensures d.title == title && d.description == description
    ensures FixedOf(d) == fixed
  {
    IdeaDraft(title, description, fixed.targetAudience, fixed.monetizationModel, fixed.techStack,
              fixed.marketSize, fixed.competitionLevel, fixed.keyFeatures)
  }

  const UnbundlePitch: string := " platform designed specifically for small businesses. Focuses on ease of use and affordability while providing essential features."

  const UnbundleFixed: FixedPart := FixedPart(
    "Small businesses and startups",
    "Subscription-based with tiered pricing",
    ["React", "Node.js", "PostgreSQL", "AWS"],
    "Medium (niche but growing)",
    "medium",
    ["Easy setup and onboarding", "Essential features only", "Affordable pricing", "Great customer support"])

  function UnbundleDraft(w: string): (d: IdeaDraft)
    ensures Contains(d.title, TitleCase(w))
  {
    ContainsTwice("Simple", TitleCase(w), " - ", " for Small Teams");
    Draft("Simple" + TitleCase(w) + " - " + TitleCase(w) + " for Small Teams", "A simplified " + w + UnbundlePitch,
          UnbundleFixed)
  }

  /** The first word of the lower-cased title; none exactly when the title is blank. */
  function LowerFirstWord(title: string): (r: Option<string>)
    ensures r.None? <==> Blank(title)
  {
    LowerKeepsBlank(title);
    FirstWord(Lower(title))
  }

  /** `_generate_unbundle_idea`, built from the first word of the lower-cased title;
      a title with no word raises `IndexError`. */
  function UnbundleIdea(problem: ProblemInput): (r: Generated)
    ensures r.Raised? <==> Blank(TitleOf(problem))
    ensures r.Raised? ==> r.fault == IndexError
    ensures r.Made? ==> var w := LowerFirstWord(TitleOf(problem)).value;
              && r.idea.title == "Simple" + TitleCase(w) + " - " + TitleCase(w) + " for Small Teams"
              && Contains(r.idea.title, TitleCase(w))
              && r.idea.description == "A simplified " + w + UnbundlePitch
              && FixedOf(r.idea) == UnbundleFixed
  {
    match LowerFirstWord(TitleOf(problem))
    case None => Raised(IndexError)
    case Some(w) => Made(UnbundleDraft(w))
  }

  /** The industry a niche idea targets: the given one, or "general" when it is absent or empty. */
  function NicheIndustry(industry: Option<string>): (r: string)
    ensures Truthy(industry) ==> r == industry.value
    ensures !Truthy(industry) ==> r == "general"
  {
    if Truthy(industry) then industry.value else "general"
  }

  const NichePitch: string := " businesses with industry-specific features and workflows."

  const NicheAudience: string := " businesses and professionals"

  /** The niche template's fixed fields; its audience and first feature name the industry. */
  const NicheFixed: FixedPart := FixedPart(
    NicheAudience,
    "Monthly subscription per user",
    ["React", "Python FastAPI", "PostgreSQL", "Stripe"],
    "Small but loyal",
    "low",
    ["Industry templates", "Compliance features", "Industry integrations"])

  function NicheDraft(ind: string, w: string): (d: IdeaDraft)
    ensures d.targetAudience == TitleCase(ind) + NicheAudience && d.competitionLevel == "low"
    ensures Contains(d.title, TitleCase(w))
  {
    ContainsAfter(TitleCase(ind) + "Flow - ", TitleCase(w), " for ", TitleCase(ind));
    var d := Draft(TitleCase(ind) + "Flow - " + TitleCase(w) + " for " + TitleCase(ind),
                   TitleCase(w) + " tool built specifically for " + ind + NichePitch, NicheFixed);
    d.(targetAudience := TitleCase(ind) + NicheFixed.targetAudience,
       keyFeatures := [TitleCase(ind) + "-specific features"] + NicheFixed.keyFeatures)
  }

  /** `_generate_niche_idea`. */
  function NicheIdea(problem: ProblemInput, industry: Option<string>): (r: Generated)
    ensures r.Raised? <==> Blank(TitleOf(problem))
    ensures r.Raised? ==> r.fault == IndexError
    ensures r.Made? ==> var w := FirstWord(TitleOf(problem)).value; var ind := NicheIndustry(industry);
              && r.idea.title == TitleCase(ind) + "Flow - " + TitleCase(w) + " for " + TitleCase(ind)
              && Contains(r.idea.title, TitleCase(w))
              && r.idea.description == TitleCase(w) + " tool built specifically for " + ind + NichePitch
              && r.idea.targetAudience == TitleCase(ind) + NicheAudience
              && r.idea.keyFeatures == [TitleCase(ind) + "-specific features"] + NicheFixed.keyFeatures
              && FixedOf(r.idea) == NicheFixed.(targetAudience := r.idea.targetAudience, keyFeatures := r.idea.keyFeatures)
  {
    match FirstWord(TitleOf(problem))
    case None => Raised(IndexError)
    case Some(w) => Made(NicheDraft(NicheIndustry(industry), w))
  }

  const ApiPitch: string := " functionality. Easy to integrate and use for developers."

  const ApiFixed: FixedPart := FixedPart(
    "Developers and technical teams",
    "Usage-based pricing",
    ["Python FastAPI", "Redis", "PostgreSQL", "Docker"],
    "Medium (developer tools)",
    "medium",
    ["RESTful API", "Comprehensive documentation", "Multiple SDKs", "Usage analytics"])

  function ApiDraft(w: string): (d: IdeaDraft)
    ensures Contains(d.title, TitleCase(w))
  {
    ContainsLeading(TitleCase(w), "API - ", " as a Service");
    Draft(TitleCase(w) + "API - " + TitleCase(w) + " as a Service", "Simple API that provides " + w + ApiPitch, ApiFixed)
  }

  /** `_generate_api_idea`. */
  function ApiIdea(problem: ProblemInput): (r: Generated)
    ensures r.Raised? <==> Blank(TitleOf(problem))
    ensures r.Raised? ==> r.fault == IndexError
    ensures r.Made? ==> var w := FirstWord(TitleOf(problem)).value;
              && r.idea.title == TitleCase(w) + "API - " + TitleCase(w) + " as a Service"
              && Contains(r.idea.title, TitleCase(w))
              && r.idea.description == "Simple API that provides " + w + ApiPitch
              && FixedOf(r.idea) == ApiFixed
  {
    match FirstWord(TitleOf(problem))
    case None => Raised(IndexError)
    case Some(w) => Made(ApiDraft(w))
  }

  const AutomationPitch: string := " tasks and workflows. Save time and reduce manual work."

  const AutomationFixed: FixedPart := FixedPart(
    "Businesses and professionals",
    "Subscription-based SaaS",
    ["React", "Python", "PostgreSQL", "Zapier API"],
    "Large and growing",
    "high",
    ["Workflow automation", "Integration capabilities", "Scheduling and triggers", "Analytics and reporting"])

  function AutomationDraft(w: string): (d: IdeaDraft)
    ensures Contains(d.title, TitleCase(w))
  {
    ContainsTwice("Auto", TitleCase(w), " - ", " Automation");
    Draft("Auto" + TitleCase(w) + " - " + TitleCase(w) + " Automation", "Automate " + w + AutomationPitch, AutomationFixed)
  }

  /** `_generate_automation_idea`. */
  function AutomationIdea(problem: ProblemInput): (r: Generated)
    ensures r.Raised? <==> Blank(TitleOf(problem))
    ensures r.Raised? ==> r.fault == IndexError
    ensures r.Made? ==> var w := FirstWord(TitleOf(problem)).value;
              && r.idea.title == "Auto" + TitleCase(w) + " - " + TitleCase(w) + " Automation"
              && Contains(r.idea.title, TitleCase(w))
              && r.idea.description == "Automate " + w + AutomationPitch
              && FixedOf(r.idea) == AutomationFixed
  {
    match FirstWord(TitleOf(problem))
    case None => Raised(IndexError)
    case Some(w) => Made(AutomationDraft(w))
  }

  const GenericPitch: string := ". Uses modern technology to solve the problem effectively."

  const GenericFixed: FixedPart := FixedPart(
    "General business users",
    "Subscription-based",
    ["React", "Python FastAPI", "PostgreSQL", "AWS"],
    "To be determined",
    "medium",
    ["Modern interface", "Cloud-based", "Mobile responsive", "24/7 support"])

  function GenericDraft(title: string, w: string): (d: IdeaDraft)
    ensures Contains(d.title, TitleCase(w))
  {
    ContainsTwice("Smart", TitleCase(w), " - ", " Solution");
    Draft("Smart" + TitleCase(w) + " - " + TitleCase(w) + " Solution",
          "Intelligent solution for " + Lower(title) + GenericPitch, GenericFixed)
  }

  /** `_generate_generic_idea`, used for a framework the dispatcher does not name. */
  function GenericIdea(problem: ProblemInput): (r: Generated)
    ensures r.Raised? <==> Blank(TitleOf(problem))
    ensures r.Raised? ==> r.fault == IndexError
    ensures r.Made? ==> var w := FirstWord(TitleOf(problem)).value;
              && r.idea.title == "Smart" + TitleCase(w) + " - " + TitleCase(w) + " Solution"
              && Contains(r.idea.title, TitleCase(w))
              && r.idea.description == "Intelligent solution for " + Lower(TitleOf(problem)) + GenericPitch
              && FixedOf(r.idea) == GenericFixed
  {
    match FirstWord(TitleOf(problem))
    case None => Raised(IndexError)
    case Some(w) => Made(GenericDraft(TitleOf(problem), w))
  }

  /** The competition level each template states. */
  function TemplateCompetition(frameworkType: string): string {
    if frameworkType == "niche" then "low"
    else if frameworkType == "automation" then "high"
    else "medium"
  }

  /** `_generate_manually`: dispatch on the framework type. Every template fails
      exactly on a title with no word, and states a competition level that
      depends on the framework alone, never on the problem or industry. */
  function GenerateManually(frameworkType: string, problem: ProblemInput, industry: Option<string>): (r: Generated)
    ensures r.Raised? <==> Blank(TitleOf(problem))
    ensures r.Raised? ==> r.fault == IndexError
    ensures r.Made? ==> r.idea.competitionLevel == TemplateCompetition(frameworkType)
    ensures frameworkType == "unbundle" ==> r == UnbundleIdea(problem)
    ensures frameworkType == "niche" ==> r == NicheIdea(problem, industry)
    ensures frameworkType == "api" ==> r == ApiIdea(problem)
    ensures frameworkType == "automation" ==> r == AutomationIdea(problem)
    ensures (frameworkType != "unbundle" && frameworkType != "niche" && frameworkType != "api"
             && frameworkType != "automation") ==> r == GenericIdea(problem)
  {
    if frameworkType == "unbundle" then UnbundleIdea(problem)
    else if frameworkType == "niche" then NicheIdea(problem, industry)
    else if frameworkType == "api" then ApiIdea(problem)
    else if frameworkType == "automation" then AutomationIdea(problem)
    else GenericIdea(problem)
  }

  /** `generate_idea_with_framework` without a language-model client: an unknown
      framework raises `ValueError`, a title with no word raises `IndexError`,
      anything else yields the framework's template idea. */
  function GenerateIdeaWithFramework(frameworkType: string, problem: ProblemInput, industry: Option<string>): (r: Generated)
    ensures r.Raised? && r.fault.ValueError? <==> frameworkType !in Frameworks
    ensures r.Raised? && r.fault.ValueError? ==> r.fault.message == "Unknown framework: " + frameworkType
    ensures r.Raised? && r.fault.IndexError? <==> frameworkType in Frameworks && Blank(TitleOf(problem))
    ensures r.Made? ==> r.idea.competitionLevel == TemplateCompetition(frameworkType)
    ensures frameworkType in Frameworks ==> r == GenerateManually(frameworkType, problem, industry)
    ensures r.Made? ==> FirstWord(TitleOf(problem)).Some? &&
                        Contains(r.idea.title, TitleCase(FirstWord(TitleOf(problem)).value))
  {
    TitleNamesFirstWord(frameworkType, problem, industry);
    if frameworkType !in Frameworks then Raised(ValueError("Unknown framework: " + frameworkType))
    else GenerateManually(frameworkType, problem, industry)
  }

  /** Every template's title contains the title-cased first word of the
      problem title; the unbundle template lower-cases the title first, which
      title-casing undoes. */
  lemma TitleNamesFirstWord(frameworkType: string, problem: ProblemInput, industry: Option<string>)
    ensures var r := GenerateManually(frameworkType, problem, industry);
      r.Made? ==> FirstWord(TitleOf(problem)).Some? && Contains(r.idea.title, TitleCase(FirstWord(TitleOf(problem)).value))
  {
    var title := TitleOf(problem);
    if frameworkType == "unbundle" && !Blank(title) {
      FirstWordLower(title);
      TitleCaseLower(FirstWord(title).value);
    }
  }

  /** Each named template reads the problem only through the first word of its title. */
  lemma UnbundleSameWord(p: ProblemInput, q: ProblemInput)
    requires FirstWord(TitleOf(p)) == FirstWord(TitleOf(q))
    ensures UnbundleIdea(p) == UnbundleIdea(q)
  {
    FirstWordLower(TitleOf(p));
    FirstWordLower(TitleOf(q));
  }

  lemma OtherTemplatesSameWord(p: ProblemInput, q: ProblemInput, industry: Option<string>)
    requires FirstWord(TitleOf(p)) == FirstWord(TitleOf(q))
    ensures NicheIdea(p, industry) == NicheIdea(q, industry)
    ensures ApiIdea(p) == ApiIdea(q) && AutomationIdea(p) == AutomationIdea(q)
  {
  }

  /** The framework types the service knows. */
  lemma FrameworkKeys()
    ensures forall t :: t in Frameworks <==> t == "unbundle" || t == "niche" || t == "api" || t == "automation"
  {
  }

  /** For the four named frameworks the idea depends on the problem only
      through the first word of its title. */
  lemma SameFirstWordSameIdea(frameworkType: string, p: ProblemInput, q: ProblemInput, industry: Option<string>)
    requires frameworkType in Frameworks
    requires FirstWord(TitleOf(p)) == FirstWord(TitleOf(q))
    ensures GenerateIdeaWithFramework(frameworkType, p, industry) == GenerateIdeaWithFramework(frameworkType, q, industry)
  {
    FrameworkKeys();
    var r := GenerateIdeaWithFramework(frameworkType, p, industry);
    var r' := GenerateIdeaWithFramework(frameworkType, q, industry);
    assert r == GenerateManually(frameworkType, p, industry) && r' == GenerateManually(frameworkType, q, industry);
    if frameworkType == "unbundle" {
      UnbundleSameWord(p, q);
    } else {
      OtherTemplatesSameWord(p, q, industry);
    }
  }

  lemma TitleCaseGeneral(g: string)
    requires g == "general"
    ensures TitleCase(g) == "General"
  {
    TitleCaseLowerWord(g);
    assert [UpperChar(g[0])] + g[1..] == "General";
  }

  /** A niche idea without an industry targets "general" businesses. */
  lemma NicheDefaultsToGeneral(problem: ProblemInput, industry: Option<string>)
    requires !Truthy(industry)
    ensures NicheIdea(problem, industry).Made? ==>
              NicheIdea(problem, industry).idea.targetAudience == "General" + NicheAudience
  {
    TitleCaseGeneral("general");
  }

  // -------------------------------------------------------- reply parsing

  /** The idea a model reply starts from before any line is read. */
  function AiDefault(frameworkType: string, problem: ProblemInput): IdeaDraft {
    IdeaDraft(
      "AI Generated " + TitleCase(frameworkType) + " Solution",
      "AI-generated solution for: " + problem.title.GetOr("Unknown problem"),
      "Business users",
      "Subscription-based SaaS",
      ["React", "Python FastAPI", "PostgreSQL", "AWS"],
      "To be determined",
      "medium",
      ["AI-powered solution", "Modern interface", "Cloud-based", "Scalable architecture"])
  }

  const TitleTag: string := "title:"
  const DescriptionTag: string := "description:"
  const AudienceTag: string := "target_audience:"
  const MonetizationTag: string := "monetization_model:"

  /** The value a tagged line carries: every occurrence of the tag deleted, then stripped. */
  function TagValue(line: string, tag: string): string
  {
    Strip(RemoveAll(line, tag))
  }

  /** The four tags the parser recognises, in the order it tests them. */
  const Tags: seq<string> := [TitleTag, DescriptionTag, AudienceTag, MonetizationTag]

  /** The field a tag sets. */
  function FieldOf(idea: IdeaDraft, tag: string): string
    requires tag in Tags
  {
    if tag == TitleTag then idea.title
    else if tag == DescriptionTag then idea.description
    else if tag == AudienceTag then idea.targetAudience
    else idea.monetizationModel
  }

  /** The idea with the tag's field set to `v`. */
  function SetField(idea: IdeaDraft, tag: string, v: string): (r: IdeaDraft)
    requires tag in Tags
    ensures FieldOf(r, tag) == v
    ensures forall t :: t in Tags && t != tag ==> FieldOf(r, t) == FieldOf(idea, t)
    ensures r.techStack == idea.techStack && r.marketSize == idea.marketSize
    ensures r.competitionLevel == idea.competitionLevel && r.keyFeatures == idea.keyFeatures
  {
    if tag == TitleTag then idea.(title := v)
    else if tag == DescriptionTag then idea.(description := v)
    else if tag == AudienceTag then idea.(targetAudience := v)
    else idea.(monetizationModel := v)
  }

  /** The first tag, in the parser's order, that the stripped line starts with. */
  function LineTag(line: string): (r: Option<string>)
    ensures r.Some? ==> r.value in Tags && r.value <= line
    ensures r.None? ==> forall t :: t in Tags ==> !(t <= line)
  {
    if TitleTag <= line then Some(TitleTag)
    else if DescriptionTag <= line then Some(DescriptionTag)
    else if AudienceTag <= line then Some(AudienceTag)
    else if MonetizationTag <= line then Some(MonetizationTag)
    else None
  }

  /** One iteration of the parser loop over a raw line: the `if`/`elif` chain
      sets the field of the first tag the stripped line starts with. */
  function ApplyLine(idea: IdeaDraft, raw: string): IdeaDraft {
    ApplyStripped(idea, Strip(raw))
  }

  /** The `if`/`elif` chain on an already stripped line. */
  function ApplyStripped(idea: IdeaDraft, line: string): IdeaDraft {
    match LineTag(line)
    case None => idea
    case Some(t) => SetField(idea, t, TagValue(line, t))
  }

  /** The parser loop over all lines. */
  function ApplyLines(idea: IdeaDraft, lines: seq<string>): IdeaDraft {
    FoldLeft(ApplyLine, idea, lines)
  }

  /** `_parse_ai_response`: read the reply line by line over the default idea. */
  function ParseAiResponse(content: string, frameworkType: string, problem: ProblemInput): (r: IdeaDraft)
    ensures r.title == LastTagged(Split(content, '\n'), TitleTag).GetOr("AI Generated " + TitleCase(frameworkType) + " Solution")
    ensures r.techStack == ["React", "Python FastAPI", "PostgreSQL", "AWS"]
    ensures r.marketSize == "To be determined" && r.competitionLevel == "medium"
  {
    var d := AiDefault(frameworkType, problem);
    var lines := Split(content, '\n');
    ApplyLinesField(d, lines, TitleTag);
    ApplyLinesKeepsRest(d, lines);
    ApplyLines(d, lines)
  }

  /** Reference reading of the parser: the value of the LAST stripped line that
      starts with `tag`, if any. */
  function LastTagged(lines: seq<string>, tag: string): Option<string>
    decreases |lines|
  {
    if |lines| == 0 then None
    else
      var line := Strip(lines[|lines| - 1]);
      if tag <= line then Some(TagValue(line, tag)) else LastTagged(lines[..|lines| - 1], tag)
  }

  /** No stripped line starts with two different tags, so the order of the
      parser's tests never matters. */
  lemma TagsExclusive(line: string, a: string, b: string)
    requires a in Tags && b in Tags && a != b
    ensures !(a <= line && b <= line)
  {
    PrefixesAgree(line, a, b, 2);
    assert TitleTag[..2] == "ti" && DescriptionTag[..2] == "de";
    assert AudienceTag[..2] == "ta" && MonetizationTag[..2] == "mo";
  }

  /** One line sets the field of the tag it starts with and no other field. */
  lemma ApplyLineField(idea: IdeaDraft, raw: string, tag: string)
    requires tag in Tags
    ensures FieldOf(ApplyLine(idea, raw), tag) ==
              if tag <= Strip(raw) then TagValue(Strip(raw), tag) else FieldOf(idea, tag)
  {
    StrippedLineField(idea, Strip(raw), tag);
  }

  lemma StrippedLineField(idea: IdeaDraft, line: string, tag: string)
    requires tag in Tags
    ensures FieldOf(ApplyStripped(idea, line), tag) == if tag <= line then TagValue(line, tag) else FieldOf(idea, tag)
  {
    match LineTag(line)
    case None =>
    case Some(t) =>
      if t != tag { TagsExclusive(line, t, tag); }
  }

  /** The fields no tag names survive any line. */
  lemma ApplyLineKeepsRest(idea: IdeaDraft, raw: string)
    ensures var r := ApplyLine(idea, raw);
      r.techStack == idea.techStack && r.marketSize == idea.marketSize &&
      r.competitionLevel == idea.competitionLevel && r.keyFeatures == idea.keyFeatures
  {
  }

  /** Folding the lines sets the tag's field from its last tagged line, and
      leaves it at its starting value when no line carries the tag. */
  lemma {:induction false} ApplyLinesField(idea: IdeaDraft, lines: seq<string>, tag: string)
    requires tag in Tags
    ensures FieldOf(ApplyLines(idea, lines), tag) == LastTagged(lines, tag).GetOr(FieldOf(idea, tag))
    decreases |lines|
  {
    if |lines| > 0 {
      var init := lines[..|lines| - 1];
      FoldLeftLast(ApplyLine, idea, lines);
      ApplyLinesField(idea, init, tag);
      ApplyLineField(ApplyLines(idea, init), lines[|lines| - 1], tag);
    }
  }

  lemma {:induction false} ApplyLinesKeepsRest(idea: IdeaDraft, lines: seq<string>)
    ensures var r := ApplyLines(idea, lines);
      r.techStack == idea.techStack && r.marketSize == idea.marketSize &&
      r.competitionLevel == idea.competitionLevel && r.keyFeatures == idea.keyFeatures
    decreases |lines|
  {
    if |lines| > 0 {
      ApplyLineKeepsRest(idea, lines[0]);
      ApplyLinesKeepsRest(ApplyLine(idea, lines[0]), lines[1..]);
    }
  }

  /** The parser's contract: each of title, description, target audience and
      monetisation model comes from the last line tagged for it, or keeps its
      default; tech stack, market size, competition level and features are
      always the defaults. */
  lemma ParseAiResponseFields(content: string, frameworkType: string, problem: ProblemInput)
    ensures var lines := Split(content, '\n');
      var d := AiDefault(frameworkType, problem);
      var r := ParseAiResponse(content, frameworkType, problem);
      && r.title == LastTagged(lines, TitleTag).GetOr(d.title)
      && r.description == LastTagged(lines, DescriptionTag).GetOr(d.description)
      && r.targetAudience == LastTagged(lines, AudienceTag).GetOr(d.targetAudience)
      && r.monetizationModel == LastTagged(lines, MonetizationTag).GetOr(d.monetizationModel)
      && r.techStack == d.techStack && r.marketSize == d.marketSize
      && r.competitionLevel == d.competitionLevel && r.keyFeatures == d.keyFeatures
  {
    var d := AiDefault(frameworkType, problem);
    var lines := Split(content, '\n');
    ApplyLinesField(d, lines, TitleTag);
    ApplyLinesField(d, lines, DescriptionTag);
    ApplyLinesField(d, lines, AudienceTag);
    ApplyLinesField(d, lines, MonetizationTag);
    ApplyLinesKeepsRest(d, lines);
  }

  /** A reply none of whose lines carries a tag yields exactly the default idea. */
  lemma {:induction false} UntaggedReplyGivesDefault(idea: IdeaDraft, lines: seq<string>)
    requires forall k :: 0 <= k < |lines| ==>
               !(TitleTag <= Strip(lines[k])) && !(DescriptionTag <= Strip(lines[k])) &&
               !(AudienceTag <= Strip(lines[k])) && !(MonetizationTag <= Strip(lines[k]))
    ensures ApplyLines(idea, lines) == idea
    decreases |lines|
  {
    if |lines| > 0 {
      assert ApplyLine(idea, lines[0]) == idea;
      UntaggedReplyGivesDefault(idea, lines[1..]);
    }
  }

  // -------------------------------------------------------------- analyses

  datatype CompetitionAnalysis = CompetitionAnalysis(
    ideaId: string,
    competitionLevel: string,
    marketSaturation: string,
    keyCompetitors: seq<string>,
    competitiveAdvantages: seq<string>,
    marketGaps: seq<string>,
    recommendations: seq<string>)

  datatype MarketEstimate = MarketEstimate(
    ideaId: string,
    totalAddressableMarket: string,
    obtainableMarket: string,
    targetCustomerSegments: seq<string>,
    marketGrowthRate: string,
    marketMaturity: string,
    geographicFocus: string,
    pricingPotential: string,
    customerLifetimeValue: string)

  /** Some of the words occurs in the text. */
  predicate AnyIn(text: string, words: seq<string>) {
    exists w :: w in words && Contains(text, w)
  }

  const LowCompetitionWords: seq<string> := ["simple", "easy", "affordable"]
  const HighCompetitionWords: seq<string> := ["enterprise", "advanced", "complex"]

  /** The fixed lists every competition analysis reports. */
  const KeyCompetitors: seq<string> := ["Established players in the space", "Emerging startups", "Open source alternatives"]
  const CompetitiveAdvantages: seq<string> := ["Simpler user experience", "Lower pricing", "Better integration"]
  const MarketGaps: seq<string> := ["Complex existing solutions", "High pricing", "Poor user experience"]
  const CompetitionAdvice: seq<string> := ["Focus on differentiation", "Target underserved segments", "Build strong user experience"]

  /** `analyze_competition`: "low" when the lower-cased title names simplicity or
      price (checked first), "high" when it names enterprise or complexity,
      "medium" otherwise; saturation is always "Medium". */
  function AnalyzeCompetition(idea: IdeaInput): (r: CompetitionAnalysis)
    ensures var title := Lower(idea.title.GetOr(""));
      && (r.competitionLevel == "low" <==> AnyIn(title, LowCompetitionWords))
      && (r.competitionLevel == "high" <==> !AnyIn(title, LowCompetitionWords) && AnyIn(title, HighCompetitionWords))
      && (r.competitionLevel == "medium" <==> !AnyIn(title, LowCompetitionWords) && !AnyIn(title, HighCompetitionWords))
    ensures r.marketSaturation == "Medium"
    ensures r.ideaId == idea.id.GetOr("unknown")
  {
    var title := Lower(idea.title.GetOr(""));
    var level := if AnyIn(title, LowCompetitionWords) then "low"
                 else if AnyIn(title, HighCompetitionWords) then "high"
                 else "medium";
    CompetitionAnalysis(idea.id.GetOr("unknown"), level, "Medium",
                        KeyCompetitors, CompetitiveAdvantages, MarketGaps, CompetitionAdvice)
  }

  /** The analysis reads the title only through its lower-cased form. */
  lemma AnalysisIgnoresCase(idea: IdeaInput, t: string)
    ensures AnalyzeCompetition(idea.(title := Some(t))) == AnalyzeCompetition(idea.(title := Some(Lower(t))))
  {
    LowerIdempotent(t);
  }

  lemma Reassociate(a: string, b: string, c: string, d: string, e: string)
    ensures a + b + c + d + e == a + (b + c + d + e)
  {
  }

  /** A title starting with "Simple" is judged low-competition. */
  lemma SimpleTitleRatesLow(idea: IdeaInput, rest: string)
    requires idea.title == Some("Simple" + rest)
    ensures AnalyzeCompetition(idea).competitionLevel == "low"
  {
    var title := Lower("Simple" + rest);
    LowerAppend("Simple", rest);
    assert Lower("Simple") == "simple";
    ContainsAt(title, "simple", 0);
    assert "simple" in LowCompetitionWords;
  }

  /** The unbundle template's own title is judged low-competition. */
  lemma UnbundleIdeaRatesLow(problem: ProblemInput, idea: IdeaInput)
    requires UnbundleIdea(problem).Made? && idea.title == Some(UnbundleIdea(problem).idea.title)
    ensures AnalyzeCompetition(idea).competitionLevel == "low"
  {
    var t := TitleCase(LowerFirstWord(TitleOf(problem)).value);
    Reassociate("Simple", t, " - ", t, " for Small Teams");
    SimpleTitleRatesLow(idea, t + " - " + t + " for Small Teams");
  }

  const LargeMarketWords: seq<string> := ["enterprise", "large", "global"]
  const SmallMarketWords: seq<string> := ["small", "niche", "specific"]

  /** The three obtainable-market ranges an estimate can report. */
  const ObtainableRanges: seq<string> := ["$10M - $50M", "$1M - $10M", "$5M - $20M"]

  /** The large, small and medium tiers: total addressable market and obtainable range. */
  const MarketTiers: seq<(string, string)> := [
    ("Large ($100M+ TAM)", ObtainableRanges[0]),
    ("Small ($10M - $50M TAM)", ObtainableRanges[1]),
    ("Medium ($50M - $100M TAM)", ObtainableRanges[2])]

  const CustomerSegments: seq<string> := ["Small businesses", "Startups", "Freelancers"]

  /** `estimate_market_size`: the large tier is tested before the small one. */
  function EstimateMarketSize(idea: IdeaInput): (r: MarketEstimate)
    ensures var title := Lower(idea.title.GetOr(""));
      && (AnyIn(title, LargeMarketWords) ==>
            r.totalAddressableMarket == "Large ($100M+ TAM)" && r.obtainableMarket == "$10M - $50M")
      && (!AnyIn(title, LargeMarketWords) && AnyIn(title, SmallMarketWords) ==>
            r.totalAddressableMarket == "Small ($10M - $50M TAM)" && r.obtainableMarket == "$1M - $10M")
      && (!AnyIn(title, LargeMarketWords) && !AnyIn(title, SmallMarketWords) ==>
            r.totalAddressableMarket == "Medium ($50M - $100M TAM)" && r.obtainableMarket == "$5M - $20M")
    ensures r.obtainableMarket in ObtainableRanges
    ensures r.targetCustomerSegments == ["Small businesses", "Startups", "Freelancers"]
    ensures r.ideaId == idea.id.GetOr("unknown")
  {
    var title := Lower(idea.title.GetOr(""));
    var tier := if AnyIn(title, LargeMarketWords) then MarketTiers[0]
                else if AnyIn(title, SmallMarketWords) then MarketTiers[1]
                else MarketTiers[2];
    MarketEstimate(idea.id.GetOr("unknown"), tier.0, tier.1, CustomerSegments,
                   "15-20% annually", "Growing", "Global", "$10-50/month per user", "$500-2000")
  }
}
