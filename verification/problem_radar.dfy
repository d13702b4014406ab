/** The problem-radar service: the record a scraped complaint becomes, the
    keyword categoriser, the additive severity score, keyword extraction, the
    description cut-off, and the filter/sort pipeline of `aggregate_problems`.
    Severity scores are exact `real`s. */
module ProblemRadar {
  import opened Outcome
  import opened Text
  import opened Lists

  /** A problem record. `createdAt` is a timestamp whose integer order is chronological order. */
  datatype Problem = Problem(
    id: Option<string>,
    title: string,
    description: string,
    source: string,
    sourceUrl: string,
    category: string,
    severity: real,
    mentionCount: int,
    keywords: seq<string>,
    createdAt: int)

  /** The optional filters of `aggregate_problems` and `get_problems`; each is
      skipped when falsy (absent, empty text, or a minimum of 0). */
  datatype ProblemFilters = ProblemFilters(
    category: Option<string>,
    minSeverity: Option<real>,
    keywords: Option<string>)

  // ---------------------------------------------------------------- filters

  predicate CategoryActive(f: ProblemFilters) { Truthy(f.category) }
  predicate MinSeverityActive(f: ProblemFilters) { f.minSeverity.Some? && f.minSeverity.value != 0.0 }
  predicate KeywordsActive(f: ProblemFilters) { Truthy(f.keywords) }

  /** A problem passes the keyword filter when one of ITS keywords, lower-cased,
      occurs inside the lower-cased query (not the other way round). */
  predicate KeywordHit(p: Problem, query: string) {
    exists kw :: kw in p.keywords && Contains(Lower(query), Lower(kw))
  }

  predicate PassesFilters(p: Problem, f: ProblemFilters) {
    && (CategoryActive(f) ==> p.category == f.category.value)
    && (MinSeverityActive(f) ==> p.severity >= f.minSeverity.value)
    && (KeywordsActive(f) ==> KeywordHit(p, f.keywords.value))
  }

  /** The three list comprehensions of the filter step, applied in source order. */
  function ApplyFilters(problems: seq<Problem>, f: ProblemFilters): (r: seq<Problem>)
    ensures IsSubsequence(r, problems)
    ensures forall p :: p in r <==> p in problems && PassesFilters(p, f)
  {
    var byCategory := if CategoryActive(f) then Filter(problems, (p: Problem) => p.category == f.category.value) else problems;
    var bySeverity := if MinSeverityActive(f) then Filter(byCategory, (p: Problem) => p.severity >= f.minSeverity.value) else byCategory;
    var byKeyword := if KeywordsActive(f) then Filter(bySeverity, (p: Problem) => KeywordHit(p, f.keywords.value)) else bySeverity;
    PrefixIsSubsequence(problems, problems);
    PrefixIsSubsequence(byCategory, byCategory);
    PrefixIsSubsequence(bySeverity, bySeverity);
    SubsequenceTransitive(byKeyword, bySeverity, byCategory);
    SubsequenceTransitive(byKeyword, byCategory, problems);
    byKeyword
  }

  // ----------------------------------------------------- aggregate_problems

  /** Sort key of `aggregate_problems`: (severity, created_at), descending, compared lexicographically. */
  predicate SeverityThenRecency(a: Problem, b: Problem) {
    a.severity > b.severity || (a.severity == b.severity && a.createdAt >= b.createdAt)
  }

  lemma SeverityThenRecencyIsOrder()
    ensures Total(SeverityThenRecency) && Transitive(SeverityThenRecency)
  {
  }

  /** The filter-then-sort pipeline over whatever problems were collected. */
  function AggregateFrom(collected: seq<Problem>, filters: Option<ProblemFilters>): (r: seq<Problem>)
    ensures filters.Some? ==> multiset(r) == multiset(ApplyFilters(collected, filters.value))
    ensures filters.None? ==> multiset(r) == multiset(collected)
    ensures Ordered(r, SeverityThenRecency)
  {
    SeverityThenRecencyIsOrder();
    var kept := if filters.Some? then ApplyFilters(collected, filters.value) else collected;
    SortBy(kept, SeverityThenRecency)
  }

  /** `aggregate_problems` as written: no source is consulted before filtering,
      so the collected list is empty whatever the filters. */
  function AggregateProblems(filters: Option<ProblemFilters>): (r: seq<Problem>)
    ensures r == []
  {
    AggregateFrom([], filters)
  }

  /** Every problem the pipeline returns has at least the severity of the next one,
      and among equal severities the newer comes first. */
  lemma AggregateOrdered(collected: seq<Problem>, filters: Option<ProblemFilters>, i: int)
    requires 0 <= i < |AggregateFrom(collected, filters)| - 1
    ensures AggregateFrom(collected, filters)[i].severity >= AggregateFrom(collected, filters)[i + 1].severity
    ensures AggregateFrom(collected, filters)[i].severity == AggregateFrom(collected, filters)[i + 1].severity
            ==> AggregateFrom(collected, filters)[i].createdAt >= AggregateFrom(collected, filters)[i + 1].createdAt
  {
    var r := AggregateFrom(collected, filters);
    assert SeverityThenRecency(r[i], r[i + 1]);
  }

  // ----------------------------------------------------------- categorising

  /** The category table in declaration order: label and trigger phrases. */
  const CategoryTable: seq<(string, seq<string>)> := [
    ("e-commerce", ["shopify", "woocommerce", "amazon", "ebay", "payment", "checkout"]),
    ("real-estate", ["property", "real estate", "housing", "rental", "mortgage"]),
    ("healthcare", ["medical", "health", "patient", "doctor", "hospital"]),
    ("education", ["learning", "course", "student", "education", "school"]),
    ("marketing", ["seo", "social media", "advertising", "campaign", "email"]),
    ("finance", ["accounting", "bookkeeping", "tax", "financial", "budget"]),
    ("productivity", ["project management", "task", "collaboration", "workflow"]),
    ("developer-tools", ["api", "code", "development", "programming", "git"])
  ]

  /** The nine labels a problem can be filed under. */
  const CategoryLabels: seq<string> := [
    "e-commerce", "real-estate", "healthcare", "education", "marketing",
    "finance", "productivity", "developer-tools", "general"]

  /** Some phrase of `words` occurs in `text`. */
  predicate Mentions(text: string, words: seq<string>) {
    exists w :: w in words && Contains(text, w)
  }

  /** The first row of `table`, from row `i` on, one of whose phrases occurs in `lowered`. */
  function FirstMention(lowered: string, table: seq<(string, seq<string>)>, i: nat): (r: Option<nat>)
    requires i <= |table|
    ensures r.Some? ==> i <= r.value < |table| && Mentions(lowered, table[r.value].1)
                        && forall k :: i <= k < r.value ==> !Mentions(lowered, table[k].1)
    ensures r.None? <==> forall j :: i <= j < |table| ==> !Mentions(lowered, table[j].1)
    decreases |table| - i
  {
    if i == |table| then None
    else if Mentions(lowered, table[i].1) then Some(i)
    else FirstMention(lowered, table, i + 1)
  }

  /** The table's labels are the first eight labels, all different, and "general" is the ninth. */
  lemma CategoryLabelsFacts()
    ensures |CategoryLabels| == |CategoryTable| + 1 && CategoryLabels[|CategoryTable|] == "general"
    ensures forall j :: 0 <= j < |CategoryTable| ==> CategoryTable[j].0 == CategoryLabels[j]
    ensures NoDuplicates(CategoryLabels)
  {
  }

  /** The label of the first row of `table` with a phrase in `lowered`, or the
      last label when no row has one. */
  function Classify(lowered: string, table: seq<(string, seq<string>)>, labels: seq<string>): (r: string)
    requires |labels| == |table| + 1
    requires forall j :: 0 <= j < |table| ==> table[j].0 == labels[j]
    requires NoDuplicates(labels)
    ensures r in labels
    ensures r == labels[|table|] <==> forall j :: 0 <= j < |table| ==> !Mentions(lowered, table[j].1)
    ensures forall j :: 0 <= j < |table| && r == table[j].0 ==>
              Mentions(lowered, table[j].1) && forall k :: 0 <= k < j ==> !Mentions(lowered, table[k].1)
  {
    match FirstMention(lowered, table, 0)
    case None => labels[|table|]
    case Some(j) => table[j].0
  }

  /** `_categorize_problem`: the first category, in table order, one of whose
      phrases occurs in the lower-cased text; `"general"` when none does. */
  function Categorize(text: string): (r: string)
    ensures r in CategoryLabels
    ensures r == "general" <==> forall j :: 0 <= j < |CategoryTable| ==> !Mentions(Lower(text), CategoryTable[j].1)
    ensures forall j :: 0 <= j < |CategoryTable| && r == CategoryTable[j].0 ==>
              Mentions(Lower(text), CategoryTable[j].1) &&
              forall k :: 0 <= k < j ==> !Mentions(Lower(text), CategoryTable[k].1)
  {
    CategoryLabelsFacts();
    Classify(Lower(text), CategoryTable, CategoryLabels)
  }

  /** Categorising ignores letter case. */
  lemma CategorizeIgnoresCase(text: string)
    ensures Categorize(text) == Categorize(Lower(text))
  {
    LowerIdempotent(text);
  }

  // --------------------------------------------------------------- severity

  const UrgentWords: seq<string> := ["urgent", "critical", "broken", "failing", "emergency"]
  const ModerateWords: seq<string> := ["frustrated", "difficult", "challenging", "problem", "issue"]
  const MildWords: seq<string> := ["wish", "hope", "would like", "looking for"]

  /** How many phrases of `words` occur in `text` (each phrase at most once). */
  function CountPresent(text: string, words: seq<string>): (n: nat)
    ensures n <= |words|
  {
    if |words| == 0 then 0
    else (if Contains(text, words[0]) then 1 else 0) + CountPresent(text, words[1..])
  }

  /** One `for word in words: if word in text: score += weight` loop. */
  function AddForEach(score: real, text: string, words: seq<string>, weight: real): real
    decreases |words|
  {
    if |words| == 0 then score
    else AddForEach(if Contains(text, words[0]) then score + weight else score, text, words[1..], weight)
  }

  lemma {:induction false} AddForEachCounts(score: real, text: string, words: seq<string>, weight: real)
    ensures AddForEach(score, text, words, weight) == score + weight * CountPresent(text, words) as real
    decreases |words|
  {
    if |words| > 0 {
      var next := if Contains(text, words[0]) then score + weight else score;
      AddForEachCounts(next, text, words[1..], weight);
    }
  }

  function Clamp(lo: real, x: real, hi: real): real
    requires lo <= hi
  {
    if x < lo then lo else if x > hi then hi else x
  }

  /** The score for the numbers of urgent, moderate and mild phrases present:
      5 + 2 per urgent, 1 per moderate and 0.5 per mild, capped to [0, 10]. */
  function SeverityFormula(urgent: nat, moderate: nat, mild: nat): real {
    Clamp(0.0, 5.0 + 2.0 * urgent as real + 1.0 * moderate as real + 0.5 * mild as real, 10.0)
  }

  /** Three running totals that add 2, 1 and 0.5 per phrase end, once clamped, at the formula. */
  lemma ClampedTotal(afterUrgent: real, afterModerate: real, score: real, u: nat, m: nat, l: nat)
    requires afterUrgent == 5.0 + 2.0 * u as real
    requires afterModerate == afterUrgent + 1.0 * m as real
    requires score == afterModerate + 0.5 * l as real
    ensures Clamp(0.0, score, 10.0) == SeverityFormula(u, m, l)
    ensures 5.0 <= Clamp(0.0, score, 10.0) <= 10.0
  {
  }

  /** The three weighted loops over given phrase lists, then the clamp. */
  function ScoreWith(text: string, urgent: seq<string>, moderate: seq<string>, mild: seq<string>): (r: real)
    ensures r == SeverityFormula(CountPresent(text, urgent), CountPresent(text, moderate), CountPresent(text, mild))
    ensures 5.0 <= r <= 10.0
  {
    var afterUrgent := AddForEach(5.0, text, urgent, 2.0);
    var afterModerate := AddForEach(afterUrgent, text, moderate, 1.0);
    var score := AddForEach(afterModerate, text, mild, 0.5);
    AddForEachCounts(5.0, text, urgent, 2.0);
    AddForEachCounts(afterUrgent, text, moderate, 1.0);
    AddForEachCounts(afterModerate, text, mild, 0.5);
    ClampedTotal(afterUrgent, afterModerate, score,
                 CountPresent(text, urgent), CountPresent(text, moderate), CountPresent(text, mild));
    Clamp(0.0, score, 10.0)
  }

  /** `_calculate_severity`: the formula over the urgent, moderate and mild
      phrases present in the lower-cased "title content"; always in [5, 10]. */
  function Severity(title: string, content: string): (r: real)
    ensures var text := Lower(title + " " + content);
            r == SeverityFormula(CountPresent(text, UrgentWords), CountPresent(text, ModerateWords), CountPresent(text, MildWords))
    ensures 5.0 <= r <= 10.0
  {
    ScoreWith(Lower(title + " " + content), UrgentWords, ModerateWords, MildWords)
  }

  // --------------------------------------------------------------- keywords

  const StopWords: set<string> := {"the", "a", "an", "and", "or", "but", "in", "on", "at", "to", "for", "of", "with", "by"}

  /** Of the stop words only "with" would survive the length test, so it is
      the one word the stop list removes on its own. */
  lemma StopWordsBeyondLength()
    ensures forall w :: w in StopWords && |w| > 3 ==> w == "with"
  {
    forall w | w in StopWords && |w| > 3
      ensures w == "with"
    {
    }
  }

  predicate IsKeyword(w: string) { w !in StopWords && |w| > 3 }

  predicate NoUpper(w: string) { forall i :: 0 <= i < |w| ==> !IsUpper(w[i]) }

  /** A word of a lower-cased text has no upper-case letter. */
  lemma WordOfLowerHasNoUpper(w: string, text: string)
    requires IsWordOf(w, Lower(text))
    ensures NoUpper(w)
  {
    var lowered := Lower(text);
    var i, j :| 0 <= i && RunAt(lowered, i, j) && lowered[i..j] == w;
    assert forall k :: 0 <= k < |w| ==> w[k] == lowered[i + k];
  }

  /** The `\b\w+\b` matches of the lower-cased text that are keywords: a word is
      a candidate exactly when it is a maximal run of word characters of the
      lower-cased text, not a stop word and longer than three characters. */
  function KeywordCandidates(text: string): (r: seq<string>)
    ensures forall w :: w in r <==> IsWordOf(w, Lower(text)) && IsKeyword(w)
    ensures forall w :: w in r ==> NoUpper(w)
  {
    var lowered := Lower(text);
    var words := WordTokens(lowered);
    forall w | w in words
      ensures NoUpper(w)
    {
      WordOfLowerHasNoUpper(w, text);
    }
    Filter(words, IsKeyword)
  }

  /** `_extract_keywords`: at most ten distinct keywords of the text; exactly ten
      unless fewer distinct ones exist. Python returns them in set iteration order,
      which is unspecified; this model keeps first occurrences, in text order. */
  function ExtractKeywords(text: string): (r: seq<string>)
    ensures NoDuplicates(r)
    ensures |r| == if |set w | w in KeywordCandidates(text)| < 10 then |set w | w in KeywordCandidates(text)| else 10
    ensures forall w :: w in r ==> w in KeywordCandidates(text)
    ensures forall w :: w in r ==> |w| > 3 && w !in StopWords && NoUpper(w)
  {
    var distinct := Distinct(KeywordCandidates(text));
    NoDuplicatesCard(distinct);
    assert (set w | w in distinct) == (set w | w in KeywordCandidates(text));
    var r := PyTake(distinct, 10);
    assert forall w :: w in r ==> w in distinct;
    r
  }

  // ----------------------------------------------------------- descriptions

  /** A scraped description longer than 500 characters becomes its first 500
      characters followed by "..."; a shorter one is kept as it is. */
  function TruncateDescription(content: string): (r: string)
    ensures |content| <= 500 ==> r == content
    ensures |content| > 500 ==> |r| == 503 && content[..500] <= r && r[500..] == "..."
  {
    if |content| > 500 then content[..500] + "..." else content
  }

  /** Truncating an already truncated description changes nothing. */
  lemma TruncateIdempotent(content: string)
    ensures TruncateDescription(TruncateDescription(content)) == TruncateDescription(content)
  {
    if |content| > 500 {
      var r := TruncateDescription(content);
      assert r[..500] == content[..500];
    }
  }
}
