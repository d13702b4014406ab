# Cherzs core rules in Dafny

A functional model of the rule engines inside the Cherzs SaaS-idea platform,
with proofs of what each rule promises. The model covers the following parts.

- The Next.js `/api/ideas` route. Listing uses case-insensitive search, newest-first
  order and skip/take pagination with `totalPages`. Creation needs a signed-in
  author (module `IdeaListing`, `ideas_route.dfy`).
- The Next.js `/api/profile` route. It reads the caller's profile and overwrites
  its whitelisted fields. It rejects a missing name or email, stores empty
  contact fields as null and defaults `isPublic` to true (module `Profile`).
- The FastAPI problem radar. The service does keyword categorisation, additive
  severity, keyword extraction, description truncation and the
  filter-then-sort of `aggregate_problems` (module `ProblemRadar`). On top of it
  the problems API does filtered listing, trending selection, lookup by id and
  search over the mock problems (module `Problems`).
- The idea-framework service on its template path (module `IdeaFramework`). It
  covers framework dispatch, the four framework templates and the generic one,
  the line parser for language-model replies, and the competition and
  market-size classifiers.
- The ideas API: single and batch generation, framework examples, and the
  four-band `validate_idea` score with its recommendations (module `IdeasApi`).
- The validation toolkit (module `ValidationToolkit`). It builds surveys and
  landing pages, tracks conversions, and computes the 0–100 validation score
  with its recommendations, next steps and report.
- The FastAPI auth routes as a state machine over a user table (module `Auth`):
  register, login, current user and profile update. Password hashing, hash
  verification and token decoding are function parameters.
- The sign-up page's password-strength meter, its label and colour, the form
  state and the submit-enable rule (module `Signup`).

Shared modules:
- `Outcome`: `Option`, and `Outcome` as success or an HTTP status with a detail text.
- `Text`: ASCII lower/upper case, substring search, Python `strip`, `split`,
  `str.title` and `\b\w+\b` tokens.
- `Lists`: filtering, subsequences, Python's `[:n]`, de-duplication and a
  stable insertion sort by a comparator.

Stores are plain values: sequences of rows, or maps keyed by user id. Every
operation returns the new store or an error. Wall-clock times and generated ids
are parameters. Severities and toolkit scores are exact `real`s.

## Model

| member | source | states |
|---|---|---|
| IdeaListing.Eligible | src/app/api/ideas/route.ts:15-22 | With a non-empty search, an idea is kept iff its title or description contains the term ignoring case. Without one, every idea is kept. Order is preserved. |
| IdeaListing.Newest | src/app/api/ideas/route.ts:37 | The eligible ideas, permuted into non-increasing `createdAt` order. |
| IdeaListing.CeilDiv | src/app/api/ideas/route.ts:50 | `Math.ceil(total/limit)` for a positive limit: the least r with total <= r*limit. |
| IdeaListing.Window | src/app/api/ideas/route.ts:38-39 | Skip/take: element k of the page is element skip+k of the ordered list. The length is what remains after skipping, capped at the limit. |
| IdeaListing.Paginate | src/app/api/ideas/route.ts:24-52 | The page holds matching stored ideas, newest first, starting at the skip. `total` counts every eligible idea whatever the page. `totalPages` is the ceiling, or null for a zero limit. |
| IdeaListing.ListIdeas | src/app/api/ideas/route.ts:7-60 | Fails with 500 "Internal server error" iff the skip `(page-1)*limit` or the limit is negative. Otherwise it is the page at that skip, and for a positive limit (totalPages-1)*limit < total <= totalPages*limit. |
| IdeaListing.NoMatchIsEmpty | src/app/api/ideas/route.ts:41-50 | A search nothing matches gives an empty first page with total 0 and 0 pages, not an error. |
| IdeaListing.NoSearchListsAll | src/app/api/ideas/route.ts:15-37 | Without a search, the listing is a permutation of the whole store. |
| IdeaListing.PastLastPageIsEmpty | src/app/api/ideas/route.ts:38-41 | A page past the last one is empty, with the same total as the first page. |
| IdeaListing.CreateIdea | src/app/api/ideas/route.ts:63-115 | 401 iff no session user. Otherwise 400 iff the title or description is empty or missing. Otherwise 404 iff the user is unknown. Success iff all three checks pass. Then exactly one idea is appended, carrying the caller as author, the given title and description, and the screenshots or []. |
| IdeaListing.CreatedIdeaIsListed | src/app/api/ideas/route.ts:96-102 | A created idea appears in the unfiltered listing. |
| Profile.GetProfile | src/app/api/profile/route.ts:6-41 | 401 "Unauthorized" iff no session user. 404 "Profile not found" iff the user is unknown. Success iff the caller is signed in and known, and then the result is the selected columns of the caller's row. |
| Profile.View | src/app/api/profile/route.ts:14-27 | The selected columns: every profile column of the row, without `image`. |
| Profile.OrNull | src/app/api/profile/route.ts:79-85 | `value \|\| null`: empty or missing becomes null, anything else is kept verbatim. |
| Profile.Overwrite | src/app/api/profile/route.ts:74-87 | Name and email are written as given. The seven contact fields are written through OrNull. `isPublic` defaults to true, and an explicit false is kept. id, userType and image are never written. |
| Profile.PutProfile | src/app/api/profile/route.ts:43-109 | 401 iff no session user. Then 400 "Name and email are required" iff either is empty or missing. Then 500 "Internal server error" iff the row does not exist. Success iff all three checks pass. Then only the caller's row changes, the key set is unchanged, and the response is the view of the new row. |
| Profile.OverwriteIdempotent | src/app/api/profile/route.ts:76-87 | Overwriting with the same body twice equals overwriting once. |
| Profile.PutTwiceIsPutOnce | src/app/api/profile/route.ts:74-102 | Sending the same PUT body twice stores and returns the same as sending it once. |
| Profile.GetAfterPut | src/app/api/profile/route.ts:88-101 | After a successful PUT, GET returns exactly the profile the PUT returned. |
| ProblemRadar.ApplyFilters | backend/app/services/problem_radar.py:242-252 | An order-preserving subsequence. A problem is kept iff it has the category (when given), has severity >= the minimum (when non-zero), and one of its lower-cased keywords occurs inside the lower-cased query (when given). |
| ProblemRadar.AggregateFrom | backend/app/services/problem_radar.py:241-257 | A permutation of the filtered problems, ordered by (severity, created_at) descending. |
| ProblemRadar.AggregateOrdered | backend/app/services/problem_radar.py:255 | Each result has severity >= the next one's. On equal severity it is at least as recent. |
| ProblemRadar.AggregateProblems | backend/app/services/problem_radar.py:228-257 | As written, no source is collected, so the result is always empty. |
| ProblemRadar.FirstMention | backend/app/services/problem_radar.py:186-188 | The first table row from the start index with a phrase in the text; none iff no later row has one. |
| ProblemRadar.CategoryLabelsFacts | backend/app/api/problems.py:115-128 | The nine listed categories are the categoriser's eight labels in order, then "general", all distinct. |
| ProblemRadar.Categorize | backend/app/services/problem_radar.py:171-190 | One of the nine labels. It is the first category in declaration order with a phrase in the lower-cased text, and "general" iff no category has one. |
| ProblemRadar.Classify | backend/app/services/problem_radar.py:186-190 | For any table of labelled phrase lists, the result is the label of the first row with a phrase in the text, and the fallback label iff no row has one. |
| ProblemRadar.CategorizeIgnoresCase | backend/app/services/problem_radar.py:173 | Categorising a text equals categorising its lower-cased form. |
| ProblemRadar.ScoreWith | backend/app/services/problem_radar.py:201-215 | The three weighted loops equal 5 + 2·(urgent phrases present) + 1·(moderate) + 0.5·(mild), clamped to [0,10]. The result is in [5,10]. |
| ProblemRadar.Severity | backend/app/services/problem_radar.py:192-215 | The severity of "title content", lower-cased, by that count formula. It always lies in [5,10]. |
| ProblemRadar.StopWordsBeyondLength | backend/app/services/problem_radar.py:220-223 | "with" is the only stop word longer than 3 letters. |
| ProblemRadar.KeywordCandidates | backend/app/services/problem_radar.py:220-223 | A word is a candidate iff it is a maximal run of word characters (`\b\w+\b`) in the lower-cased text, longer than 3 characters and not a stop word. Every candidate is lower-case. |
| Text.WordTokens | backend/app/services/problem_radar.py:222 | `re.findall(r'\b\w+\b', s)`: a string is a token iff it is a maximal run of word characters in s, bounded by a non-word character or the string edge on each side. |
| ProblemRadar.ExtractKeywords | backend/app/services/problem_radar.py:217-226 | Distinct candidates; min(10, number of distinct candidates) of them, each lower-case, longer than 3 and not a stop word. |
| ProblemRadar.TruncateDescription | backend/app/services/problem_radar.py:55 | Over 500 characters: the first 500 followed by "..." (503 in all). Otherwise unchanged. |
| ProblemRadar.TruncateIdempotent | backend/app/services/problem_radar.py:55 | Truncating a truncated description changes nothing. |
| Problems.GetProblemsFrom | backend/app/api/problems.py:83-111 | An order-preserving subsequence and a prefix of the filtered list. Every result passes the filters. Python's `[:limit]`: for limit >= 0 exactly min(limit, filtered) results, for a negative limit all but the last -limit. `count` is the length. |
| Problems.GetProblems | backend/app/api/problems.py:83-111 | Over the five mock problems: every result passes the filters, a limit of at least 5 keeps every passing problem, and the page holds min(limit, filtered) results. |
| Problems.TrendingFrom | backend/app/api/problems.py:161-173 | Exactly min(10, trending) problems, each with severity >= 7 and mentions >= 5, by severity×mentions non-increasing. A sub-multiset of the trending ones, and all of them when there are at most 10. No omitted trending problem outweighs a returned one. |
| Problems.TrendingKeepsAllWhenFew | backend/app/api/problems.py:165-171 | When every problem trends and there are at most ten, the result is a permutation of all of them. |
| Problems.Trending | backend/app/api/problems.py:161-173 | Over the five mock problems: all five trend, so all five are returned. |
| Problems.FindById | backend/app/api/problems.py:182 | The first index with the id; none iff no problem has it. |
| Problems.ProblemDetailsFrom | backend/app/api/problems.py:177-192 | A problem with the id. If there is none, the 404 is caught and surfaces as 500 "404: Problem not found". |
| Problems.ProblemDetails | backend/app/api/problems.py:177-192 | Over the mock problems: found iff the id is one of "1" to "5", and then the problem has that id. Otherwise 500 "404: Problem not found". |
| Problems.SearchFrom | backend/app/api/problems.py:194-209 | An order-preserving subsequence of the problems whose title or description contains the query ignoring case. A prefix of all matches: for limit >= 0 exactly min(limit, matches) of them, for a negative limit all but the last -limit. `count` is the length. |
| Problems.Search | backend/app/api/problems.py:194-209 | Over the mock problems: every result matches the query, and a limit of at least 5 keeps every match. |
| IdeaFramework.LowerFirstWord | backend/app/services/idea_framework.py:115 | There is no first word of the lower-cased title exactly when the title is blank. |
| IdeaFramework.UnbundleIdea | backend/app/services/idea_framework.py:109-133 | IndexError iff the title has no word. Otherwise, with w the first word of the lower-cased title, the title is "Simple"+W+" - "+W+" for Small Teams" for W = w title-cased, so it contains W. The description is "A simplified "+w+the pitch, and the remaining fields are the template's, with competition "medium". |
| IdeaFramework.NicheIndustry | backend/app/services/idea_framework.py:138 | The given industry, or "general" when it is missing or empty. |
| IdeaFramework.NicheDraft | backend/app/services/idea_framework.py:140-154 | The audience is the title-cased industry followed by " businesses and professionals", and competition is "low". |
| IdeaFramework.NicheIdea | backend/app/services/idea_framework.py:135-156 | IndexError iff the title has no word. Otherwise, with w the first word and I the (defaulted) industry, the title is I+"Flow - "+W+" for "+I title-cased, so it contains W. The description is W+" tool built specifically for "+I+the pitch, the audience names I, the first feature is I+"-specific features", and competition is "low". |
| IdeaFramework.ApiIdea | backend/app/services/idea_framework.py:158-178 | IndexError iff the title has no word. Otherwise the title is W+"API - "+W+" as a Service" for the title-cased first word W. The description is "Simple API that provides "+w+the pitch, and the rest is the template's, with competition "medium". |
| IdeaFramework.AutomationIdea | backend/app/services/idea_framework.py:180-200 | IndexError iff the title has no word. Otherwise the title is "Auto"+W+" - "+W+" Automation". The description is "Automate "+w+the pitch, and the rest is the template's, with competition "high". |
| IdeaFramework.GenericIdea | backend/app/services/idea_framework.py:202-222 | IndexError iff the title has no word. Otherwise the title is "Smart"+W+" - "+W+" Solution". The description is "Intelligent solution for "+the lower-cased title+the pitch, and the rest is the template's, with competition "medium". |
| IdeaFramework.GenerateManually | backend/app/services/idea_framework.py:96-107 | Dispatch: "unbundle", "niche", "api" and "automation" give their template's idea, and any other name gives the generic one. It fails exactly on a title with no word, and competition depends only on the framework. |
| IdeaFramework.GenerateIdeaWithFramework | backend/app/services/idea_framework.py:48-58 | ValueError "Unknown framework: t" iff t is not one of the four keys. IndexError iff the key is known and the title has no word. Otherwise the template's idea for t, whose title contains the title-cased first word of the problem title. |
| IdeaFramework.TitleNamesFirstWord | backend/app/services/idea_framework.py:96-222 | Every idea the dispatch makes has a title containing the title-cased first word of the problem title, the unbundle one included, since it is built from the lower-cased title. |
| IdeaFramework.UnbundleSameWord | backend/app/services/idea_framework.py:115-133 | Two problems whose titles have the same first word get the same unbundle idea. |
| IdeaFramework.OtherTemplatesSameWord | backend/app/services/idea_framework.py:135-200 | Two problems whose titles have the same first word get the same niche, API and automation ideas. |
| IdeaFramework.SameFirstWordSameIdea | backend/app/services/idea_framework.py:48-200 | For the four named frameworks, the idea depends on the problem only through the first word of its title. |
| IdeaFramework.FrameworkKeys | backend/app/services/idea_framework.py:9-46 | The frameworks are exactly "unbundle", "niche", "api" and "automation". |
| IdeaFramework.TitleCaseGeneral | backend/app/services/idea_framework.py:138-143 | "general".title() is "General". |
| IdeaFramework.NicheDefaultsToGeneral | backend/app/services/idea_framework.py:138 | Without an industry, a niche idea targets "General businesses and professionals". |
| IdeaFramework.SetField | backend/app/services/idea_framework.py:248-255 | Setting one tagged field leaves the other three tagged fields and the four untagged fields unchanged. |
| IdeaFramework.LineTag | backend/app/services/idea_framework.py:248-255 | The first recognised prefix of the line in test order; none iff no prefix matches. |
| IdeaFramework.TagsExclusive | backend/app/services/idea_framework.py:248-255 | No line starts with two different prefixes, so the order of the tests never matters. |
| IdeaFramework.ApplyLineField | backend/app/services/idea_framework.py:247-255 | One line sets the field of the prefix it starts with, to the stripped rest, and no other field. |
| IdeaFramework.ApplyLineKeepsRest | backend/app/services/idea_framework.py:246-255 | A line never changes tech stack, market size, competition level or features. |
| IdeaFramework.ApplyLinesField | backend/app/services/idea_framework.py:246-255 | After all lines, each tagged field holds the value of the LAST line with its prefix, or its start value if there is none. |
| IdeaFramework.ApplyLinesKeepsRest | backend/app/services/idea_framework.py:246-255 | The untagged fields survive the whole loop. |
| IdeaFramework.ParseAiResponse | backend/app/services/idea_framework.py:224-257 | The title is the value of the last line tagged "title:", or "AI Generated "+the title-cased framework+" Solution". The tech stack, market size and competition level are always the defaults. |
| IdeaFramework.ParseAiResponseFields | backend/app/services/idea_framework.py:224-257 | Title, description, audience and monetisation come from their last tagged line or keep the default. The other four fields always keep the default. |
| IdeaFramework.UntaggedReplyGivesDefault | backend/app/services/idea_framework.py:228-257 | A reply with no tagged line yields exactly the default idea. |
| IdeaFramework.AnalyzeCompetition | backend/app/services/idea_framework.py:266-306 | "low" iff the lower-cased title has simple/easy/affordable. Else "high" iff it has enterprise/advanced/complex. Else "medium". Saturation is always "Medium", and the id is the idea's or "unknown". |
| IdeaFramework.AnalysisIgnoresCase | backend/app/services/idea_framework.py:270-278 | A title and its lower-cased form get the same analysis. |
| IdeaFramework.SimpleTitleRatesLow | backend/app/services/idea_framework.py:270-276 | A title beginning with "Simple" is rated "low". |
| IdeaFramework.UnbundleIdeaRatesLow | backend/app/services/idea_framework.py:109-133 | Analysing an unbundle idea's own title always gives "low" competition. |
| IdeaFramework.EstimateMarketSize | backend/app/services/idea_framework.py:311-345 | The large tier is tested before the small one. Each tier fixes both the total addressable market text and the obtainable range, one of three fixed ranges. The segments are fixed, and the id is the idea's or "unknown". |
| IdeasApi.GenerateIdea | backend/app/api/ideas.py:23-43 | 400 with the ValueError text iff the framework is unknown. 500 "list index out of range" iff the framework is known and the title is blank. Success iff neither, and then the service's template idea, whose title contains the title-cased first word. |
| IdeasApi.BatchOf | backend/app/api/ideas.py:99-115 | Succeeds iff every problem generates. It then gives one idea per problem, in order. Otherwise 500 carrying the text of the fault of the first problem that fails; every earlier problem generated. |
| IdeasApi.BatchGenerate | backend/app/api/ideas.py:92-115 | Succeeds iff the batch is empty, or the framework is known and no title is blank. On success the ideas match the problems one for one. Failures are 500, and an unknown framework's text appears in the 500 detail instead of a 400. |
| IdeasApi.GetFrameworkExamples | backend/app/api/ideas.py:71-90 | The framework and its examples iff the key is known. Otherwise the 404 is caught and surfaces as 500 "404: Framework not found". |
| IdeasApi.ExamplesExactlyForKnownFrameworks | backend/app/api/ideas.py:23-90 | The examples endpoint succeeds exactly for the frameworks the single-idea endpoint does not refuse with 400. |
| IdeasApi.CompetitionBand | backend/app/api/ideas.py:157-163 | 30 iff "Low", 20 iff "Medium", 10 otherwise. |
| IdeasApi.MarketBand | backend/app/api/ideas.py:166-174 | 30 iff the range contains "B". Else 25 iff it contains "M" and "50M". Else 20 iff it contains "M". Else 10. |
| IdeasApi.TechBand | backend/app/api/ideas.py:177-183 | 20 iff at most 3 entries, 15 iff 4 or 5, 10 iff more. |
| IdeasApi.MonetizationBand | backend/app/api/ideas.py:186-192 | 20 iff the model mentions "subscription" ignoring case. Else 15 iff it mentions "usage". Else 10. |
| IdeasApi.BandsInRange | backend/app/api/ideas.py:154-194 | The four bands always sum to between 40 and 100, so the `min(100, …)` cap never applies. |
| IdeasApi.LargeRangeFacts | backend/app/api/ideas.py:167-170 | "$10M - $50M" has no "B" and contains "M" and "50M". |
| IdeasApi.SmallRangeFacts | backend/app/api/ideas.py:167-172 | "$1M - $10M" has no "B" and no "50M" but contains "M". |
| IdeasApi.MediumRangeFacts | backend/app/api/ideas.py:167-172 | "$5M - $20M" has no "B" and no "50M" but contains "M". |
| IdeasApi.EstimateBand | backend/app/api/ideas.py:166-174 | Every range the estimator reports earns a market band of 20 or 25. |
| IdeasApi.Recommendations | backend/app/api/ideas.py:209-238 | Always three lines, chosen by the thresholds 80, 60 and 40. Each band's three lines are stated in full, and each band's first line appears iff the score is in that band. |
| IdeasApi.ScoreValidation | backend/app/api/ideas.py:153-194 | The score is the sum of the competition, market, tech-stack and monetization bands. With a competition band of 20 and a market band of 20 or 25, the cap at 100 never applies, and the score lies in [60,85]. |
| IdeasApi.ValidateIdea | backend/app/api/ideas.py:143-207 | The score is the sum of the four bands over the service's analysis and estimate. The competition band is always 20, because saturation is always "Medium". The score always lies in [60,85], and the recommendations follow the score. |
| IdeasApi.ValidatedIdeaNeverLow | backend/app/api/ideas.py:143-238 | A validated idea is always told it is strong or good, never moderate or low. |
| ValidationToolkit.CreateSurvey | backend/app/services/validation_toolkit.py:98-120 | Rejected "Unknown survey type: t" iff t is not a template. Otherwise the questions are the template's followed by the custom ones. Title, type, idea title and description (default ""), status "active", and the given id and time. |
| ValidationToolkit.BaseContent | backend/app/services/validation_toolkit.py:129-138 | Seven content keys. Title, description and features fall back to the template's, audience and monetisation to "". |
| ValidationToolkit.CreateLandingPage | backend/app/services/validation_toolkit.py:122-153 | Rejected iff the template is unknown. Otherwise the keys are the base keys plus the custom keys. A custom value overrides, every other key keeps its base value, idea_id is the idea's id, and status is "draft". |
| ValidationToolkit.TrackConversion | backend/app/services/validation_toolkit.py:265-276 | Echoes the page id, event type and time. Missing data becomes the empty map. |
| ValidationToolkit.TrackConversionEchoes | backend/app/services/validation_toolkit.py:265-276 | Tracking an event's own fields gives that event back, and no data gives the empty map. |
| ValidationToolkit.CountWilling | backend/app/services/validation_toolkit.py:303-304 | The number of results with willingness >= 3: the length of the filtered list. |
| ValidationToolkit.Share | backend/app/services/validation_toolkit.py:305 | `(w/n)*25`: p·n = 25·w, p in [0,25], 25 iff w = n, 0 iff w = 0. |
| ValidationToolkit.ShareMonotone | backend/app/services/validation_toolkit.py:305 | More willing responses out of the same number never give a smaller share. |
| ValidationToolkit.SurveyPart | backend/app/services/validation_toolkit.py:301-305 | 25 × the willing fraction: p·|results| = 25·willing. It lies in [0,25], is 25 iff every result is willing, and is 0 iff none is. |
| ValidationToolkit.LandingPart | backend/app/services/validation_toolkit.py:307-310 | `min(rate*100, 25)`: at most 25, non-negative for a non-negative rate, exactly rate×100 up to a rate of 0.25, and exactly 25 from 0.25 on. |
| ValidationToolkit.ValidationScore | backend/app/services/validation_toolkit.py:296-312 | Always in [0,100]. Exactly 50 with neither results nor metrics, with an empty list treated as absent. 50 plus the survey part with results only. With metrics and a non-negative rate, 50 plus the survey part (if any) plus the landing part, so the 100 cap never applies. At least 50 unless the rate is negative. With a negative rate, max(0, 50 + survey part + 100·rate). |
| ValidationToolkit.ScoreMonotoneInRate | backend/app/services/validation_toolkit.py:307-312 | A higher conversion rate never lowers the score. |
| ValidationToolkit.ScoreMonotoneInWilling | backend/app/services/validation_toolkit.py:301-312 | With as many responses, more willing ones never lower the score. |
| ValidationToolkit.ValidationRecommendations | backend/app/services/validation_toolkit.py:314-333 | Each of the four lines appears iff its threshold holds: average willingness < 3, >= 4, rate < 0.05, > 0.15. At most two lines and nothing else. With two, the survey line comes first. |
| ValidationToolkit.RecommendationsNeverContradict | backend/app/services/validation_toolkit.py:319-331 | "Adjust pricing" and "strong demand" never appear together, and neither do the two landing-page lines. |
| ValidationToolkit.NextSteps | backend/app/services/validation_toolkit.py:335-361 | Always three steps, led by "Build MVP" iff the score is >= 80, by iterating iff 60 <= score < 80, and by pivoting otherwise. Each band's three steps are stated in full. |
| ValidationToolkit.NoEvidenceMeansPivot | backend/app/services/validation_toolkit.py:299-361 | With no evidence the advice is to pivot, and there are no recommendations. |
| ValidationToolkit.ValidationReportFor | backend/app/services/validation_toolkit.py:278-294 | The summary echoes the idea's four fields. The score, recommendations and next steps are those computed from the same results and metrics. The score is in [0,100], with three next steps led according to the score, at most two recommendations, and the given time. |
| Auth.NextId | backend/app/api/auth.py:86-88 | The id the database assigns is positive and larger than every existing id. |
| Auth.NewUser | backend/app/api/auth.py:78-84 | The new row is active, not premium, on tier "free", with the given email, username, full name and next id. |
| Auth.Insert | backend/app/api/auth.py:68-88 | 400 "User already exists" iff some row has the email or the username. Otherwise exactly one row is appended, and uniqueness of ids, emails and usernames is kept. |
| Auth.RegisterAsWritten | backend/app/api/auth.py:59-106 | Register as written: the hash is computed but the stored row has no password hash. |
| Auth.Register | backend/app/api/auth.py:77-84 | Register with the computed hash stored on the new row. |
| Auth.FindByEmail | backend/app/api/auth.py:115 | The first row with the email; none iff no row has it. |
| Auth.Login | backend/app/api/auth.py:108-139 | Success iff the first row with the email exists, is active and its stored hash verifies, and then it is that row. Every failure is 401: "Invalid credentials" iff the email is unknown or the password does not verify, and "User account is disabled" iff it verifies but the user is inactive. |
| Auth.FindById | backend/app/api/auth.py:53 | The first row with the id; none iff no row has it. |
| Auth.CurrentUser | backend/app/api/auth.py:40-57 | 401 "Invalid token" iff the token does not decode or has no subject. 401 "User not found" iff no row has the subject id. Success iff some row has it, and then it is the first such row. |
| Auth.TokenResolvesToRow | backend/app/api/auth.py:40-57 | In a table with unique ids, a token naming a row's id resolves to that row. |
| Auth.RegisteredUserResolves | backend/app/api/auth.py:40-106 | A token that decodes to the new row's id resolves to that row. |
| Auth.Edited | backend/app/api/auth.py:164-174 | A non-empty full name or username replaces the old one, and empty or missing keeps it. Email, hash, activity, premium flag and tier never change. |
| Auth.UpdateProfile | backend/app/api/auth.py:156-188 | Token failures are passed through. 400 "Username already taken" iff a non-empty username belongs to another user. Success iff the token resolves and there is no such clash, and then only the caller's row becomes the edited row. |
| Auth.UpdateProfileKeepsValid | backend/app/api/auth.py:164-176 | A successful update keeps ids, emails and usernames unique. |
| Auth.OwnUsernameAccepted | backend/app/api/auth.py:167-174 | Re-submitting one's own username succeeds. |
| Auth.RegisteredCannotLogIn | backend/app/api/auth.py:77-118 | As written, logging in right after registering always fails with 401 "Invalid credentials", whatever the password. |
| Auth.RegisteredCanLogIn | backend/app/api/auth.py:77-139 | With the hash stored, logging in with the registered password returns the new user. |
| Signup.Strength | frontend/src/app/signup/page.tsx:26-35 | The number of the five criteria met: length >= 8, a lower-case letter, an upper-case letter, a digit and another character. 5 iff all hold, >= 4 iff at most one fails, <= 2 iff at least three fail. |
| Signup.CountsSplit | frontend/src/app/signup/page.tsx:28-33 | Each criterion is counted once, as met or as failed. |
| Signup.EmptyIsZero | frontend/src/app/signup/page.tsx:21-33 | The empty password has strength 0. |
| Signup.StrengthMonotone | frontend/src/app/signup/page.tsx:28-33 | Appending characters never lowers the strength. |
| Signup.StrengthText | frontend/src/app/signup/page.tsx:59-63 | "Weak" iff <= 2, "Fair" iff 3, "Strong" iff >= 4. |
| Signup.StrengthColor | frontend/src/app/signup/page.tsx:53-57 | Red iff <= 2, yellow iff 3, green iff >= 4. |
| Signup.ColorFollowsText | frontend/src/app/signup/page.tsx:53-63 | Each label goes with exactly one colour. |
| Signup.InitialConsistent | frontend/src/app/signup/page.tsx:11-21 | The initial form has every field, and the meter matches the empty password. |
| Signup.HandleInputChange | frontend/src/app/signup/page.tsx:23-36 | Only the named field changes. The strength is recomputed for a password edit and unchanged otherwise. |
| Signup.HandleInputChangeConsistent | frontend/src/app/signup/page.tsx:23-36 | Every edit keeps the meter equal to the strength of the password field. |
| Signup.SubmitEnabled | frontend/src/app/signup/page.tsx:268 | Enabled iff not loading and the password equals its confirmation. |
| Signup.HandleSubmit | frontend/src/app/signup/page.tsx:38-40 | Loading starts, which disables submit, and the form is untouched. |

## Left out

- Scraping (Reddit, Hacker News, G2), the OpenAI path (`_generate_with_ai`), JWT encoding and decoding, and bcrypt are external calls. Hashing and verification are function parameters of `Auth`. A decoded token is the `Decoded` value. Generation always takes the template path, as it does when no API key is configured.
- Database sessions, commits and the ORM are replaced by in-memory tables. Timestamps and generated ids (`datetime.now()`, survey and landing ids, the Prisma id and `createdAt`) are parameters.
- Floating point: severities, rates and toolkit scores are exact reals, with no IEEE rounding. `_calculate_severity` yields multiples of 0.5, which reals represent exactly.
- Unicode: lower and upper case, `str.title`, the regular-expression `\w` and JS regex classes are modelled on ASCII letters and digits. JS `value.length` counts characters, not UTF-16 code units.
- ProblemRadar.ExtractKeywords: Python returns `list(set(...))[:10]` in unspecified set order. The model keeps first occurrences in text order, and its contract states only what holds for every order: distinct, bounded, drawn from the candidates.
- IdeaListing.ListIdeas: `parseInt` of a non-numeric page or limit (NaN) is not modelled. A negative limit is modelled as a database error, whereas Prisma may read a negative `take` as taking from the end.
- IdeaListing.Newest: ties in `createdAt` are kept in store order (stable sort); the database's tie order is unspecified.
- JSON `null` members: `Option.None` stands for an absent key only. An explicit `null` behaves differently in the source, and the model does not cover it. A null title or description makes `analyze_competition` and `estimate_market_size` catch the error and return `{"error": ...}` (backend/app/services/idea_framework.py:270-271, 316-317). A null `monetization_model` or `tech_stack` makes `validate_idea` answer 500 (backend/app/api/ideas.py:177-190). A null problem title makes the templates raise `AttributeError` on `None` (backend/app/services/idea_framework.py:111-115), which the ideas API answers with 500 and that error's text.
- Auth.CurrentUser: the `HTTPBearer` dependency (backend/app/api/auth.py:18, 41) rejects a missing or non-Bearer `Authorization` header before `get_current_user` runs, with FastAPI's own error. The model starts from the decoded token, so that rejection is not covered by its 401 clauses.
- Auth.CurrentUser: the model assumes that a token issued by `create_access_token(data={"sub": user.id})` (backend/app/api/auth.py:91, 124) decodes to its integer `sub`. PyJWT 2.10 and later reject a non-string `sub` in `jwt.decode`, which would end in 401 "Invalid token" (backend/app/api/auth.py:50-51). The source does not pin the library version, so the model does not promise which of the two happens.
- Problems.TrendingFrom: Python's sort is stable, so equal-weight problems keep their source order, and that order decides which of them survive the cut at ten. The model's insertion sort is stable too, but the contract does not state the tie order.
- Profile.PutProfile: a unique-constraint violation on a changed email (also a 500) is not modelled.
- The `author` include in the ideas route and the framework-list and industries endpoints return constant data without rules.
- `get_market_signals`, `analyze_keywords` and `generate_validation_plan` in the validation toolkit return constant data.
- The FastAPI validation routes, `main.py`, config, the React pages other than sign-up, and the frontend API client are out of scope. So are the idea detail, update, delete and favourite routes, which are not part of this model.
- The sign-up page's redirect after a timeout and its show-password toggles are UI only.

## Findings

| source | as written | input that shows it | evidently intended | confidence | as-written member | corrected member |
|---|---|---|---|---|---|---|
| backend/app/api/auth.py:77-84 | `register` computes `hashed_password` but builds the `User` without `password_hash`, so the stored hash is null and `verify_password` at line 117 rejects every later login | register any fresh email and username with password "pw", then log in with the same email and "pw": 401 "Invalid credentials" | the new row stores `password_hash=hashed_password`, so the registered password logs in | high (not executed) | Auth.RegisteredCannotLogIn | Auth.RegisteredCanLogIn |
