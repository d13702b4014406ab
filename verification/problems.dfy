/** The problems API: filtered listing, trending selection, lookup by id and
    text search, all over the fixed list of mock problems. Each endpoint is
    stated over an arbitrary problem list (`...From`) and then applied to
    `MockProblems`. */
module Problems {
  import opened Outcome
  import opened Text
  import opened Lists
  import opened ProblemRadar

  /** The five development records. Their ISO-8601 creation times are written
      as the integers YYYYMMDDhhmmss; nothing in this API reads them. */
  const MockProblems: seq<Problem> := [
    Problem(Some("1"), "Email marketing automation is too complex",
      "Small businesses struggle with setting up email marketing automation. The current tools are either too complex or too expensive for small teams.",
      "reddit", "https://reddit.com/r/SaaS/comments/example", "marketing", 8.5, 15,
      ["email", "marketing", "automation", "complex", "small business"], 20240115103000),
    Problem(Some("2"), "Project management tools don't work for remote teams",
      "Existing project management tools don't account for the unique challenges of remote work. Teams need better collaboration features and time tracking.",
      "hackernews", "https://news.ycombinator.com/item?id=example", "productivity", 7.8, 23,
      ["project management", "remote", "collaboration", "time tracking"], 20240114154500),
    Problem(Some("3"), "Customer support software is too expensive for startups",
      "Startups need customer support tools but can't afford the enterprise pricing of existing solutions. There's a gap in the market for affordable, simple support software.",
      "g2", "https://www.g2.com/categories/customer-support", "customer-support", 9.2, 31,
      ["customer support", "startup", "expensive", "affordable", "simple"], 20240113092000),
    Problem(Some("4"), "Analytics dashboards are overwhelming for non-technical users",
      "Business users need analytics but find current dashboards too complex. They need simple, actionable insights without the technical complexity.",
      "reddit", "https://reddit.com/r/Entrepreneur/comments/example", "analytics", 7.5, 12,
      ["analytics", "dashboard", "simple", "business", "insights"], 20240112141500),
    Problem(Some("5"), "Invoice generation takes too much manual work",
      "Small businesses spend hours manually creating invoices. They need automated invoice generation that integrates with their existing tools.",
      "hackernews", "https://news.ycombinator.com/item?id=example2", "finance", 8.0, 18,
      ["invoice", "automation", "manual work", "small business", "integration"], 20240111113000)
  ]

  datatype ProblemsPage = ProblemsPage(data: seq<Problem>, count: nat, filtersApplied: ProblemFilters)
  datatype TrendingPage = TrendingPage(data: seq<Problem>, count: nat)
  datatype SearchPage = SearchPage(data: seq<Problem>, query: string, count: nat)

  // ------------------------------------------------------------ get_problems

  /** `get_problems`: the filtered problems, in source order, cut by Python's `[:limit]`. */
  function GetProblemsFrom(problems: seq<Problem>, f: ProblemFilters, limit: int): (r: ProblemsPage)
    ensures IsSubsequence(r.data, problems)
    ensures forall p :: p in r.data ==> p in problems && PassesFilters(p, f)
    ensures r.data <= ApplyFilters(problems, f)
    ensures limit >= 0 ==> |r.data| == Min(limit, |ApplyFilters(problems, f)|)
    ensures limit < 0 ==> |r.data| == Max(0, |ApplyFilters(problems, f)| + limit)
    ensures limit >= |problems| ==> forall p :: p in r.data <==> p in problems && PassesFilters(p, f)
    ensures r.count == |r.data|
    ensures r.filtersApplied == f
  {
    var kept := ApplyFilters(problems, f);
    var page := PyTake(kept, limit);
    PrefixIsSubsequence(page, kept);
    SubsequenceTransitive(page, kept, problems);
    assert forall p :: p in page ==> p in kept;
    ProblemsPage(page, |page|, f)
  }

  /** `GET /problems` over the mock records: a limit of at least five never cuts. */
  function GetProblems(f: ProblemFilters, limit: int): (r: ProblemsPage)
    ensures forall p :: p in r.data ==> p in MockProblems && PassesFilters(p, f)
    ensures limit >= 5 ==> forall p :: p in r.data <==> p in MockProblems && PassesFilters(p, f)
    ensures limit >= 0 ==> |r.data| == Min(limit, |ApplyFilters(MockProblems, f)|)
    ensures r.filtersApplied == f
  {
    GetProblemsFrom(MockProblems, f, limit)
  }

  // ---------------------------------------------------------------- trending

  function Weight(p: Problem): real { p.severity * p.mentionCount as real }

  predicate HeavierOrEqual(a: Problem, b: Problem) { Weight(a) >= Weight(b) }

  predicate IsTrending(p: Problem) { p.severity >= 7.0 && p.mentionCount >= 5 }

  lemma HeavierOrEqualIsOrder()
    ensures Total(HeavierOrEqual) && Transitive(HeavierOrEqual)
  {
  }

  /** Cutting an ordered list leaves nothing heavier behind. */
  lemma PrefixHoldsHeaviest(sorted: seq<Problem>, top: seq<Problem>)
    requires top <= sorted && Ordered(sorted, HeavierOrEqual)
    ensures forall p, q :: p in sorted && p !in top && q in top ==> Weight(q) >= Weight(p)
  {
    forall p, q | p in sorted && p !in top && q in top
      ensures Weight(q) >= Weight(p)
    {
      var j :| 0 <= j < |sorted| && sorted[j] == p;
      var i :| 0 <= i < |top| && top[i] == q;
      assert forall k :: 0 <= k < |top| ==> sorted[k] == top[k];
      assert j >= |top|;
      assert HeavierOrEqual(sorted[i], sorted[j]);
    }
  }

  lemma PrefixMultiset<T>(top: seq<T>, s: seq<T>)
    requires top <= s
    ensures multiset(top) <= multiset(s)
    ensures forall x :: x in top ==> x in s
  {
    assert s == top + s[|top|..];
  }

  lemma TopOfSorted(trending: seq<Problem>, sorted: seq<Problem>, top: seq<Problem>)
    requires multiset(sorted) == multiset(trending) && Ordered(sorted, HeavierOrEqual) && top <= sorted
    ensures multiset(top) <= multiset(trending)
    ensures |top| == |sorted| ==> multiset(top) == multiset(trending)
    ensures forall p :: p in top ==> p in trending
    ensures forall p, q :: p in trending && p !in top && q in top ==> Weight(q) >= Weight(p)
    ensures forall i, j :: 0 <= i < j < |top| ==> Weight(top[i]) >= Weight(top[j])
  {
    PrefixMultiset(top, sorted);
    assert forall p :: p in sorted <==> p in trending by {
      assert forall p :: p in sorted <==> p in multiset(sorted);
      assert forall p :: p in trending <==> p in multiset(trending);
    }
    PrefixHoldsHeaviest(sorted, top);
    assert forall i, j :: 0 <= i < j < |top| ==> top[i] == sorted[i] && top[j] == sorted[j];
    if |top| == |sorted| {
      assert top == sorted;
    }
  }

  /** `get_trending_problems`: the problems with severity at least 7 and at least
      five mentions, heaviest (severity times mentions) first, at most ten; any
      trending problem left out weighs no more than every one returned. */
  function TrendingFrom(problems: seq<Problem>): (r: TrendingPage)
    ensures |r.data| == Min(10, |Filter(problems, IsTrending)|) && r.count == |r.data|
    ensures forall p :: p in r.data ==> p in problems && IsTrending(p)
    ensures forall i, j :: 0 <= i < j < |r.data| ==> Weight(r.data[i]) >= Weight(r.data[j])
    ensures multiset(r.data) <= multiset(Filter(problems, IsTrending))
    ensures |Filter(problems, IsTrending)| <= 10 ==> multiset(r.data) == multiset(Filter(problems, IsTrending))
    ensures forall p, q :: p in problems && IsTrending(p) && p !in r.data && q in r.data ==> Weight(q) >= Weight(p)
  {
    HeavierOrEqualIsOrder();
    var trending := Filter(problems, IsTrending);
    var sorted := SortBy(trending, HeavierOrEqual);
    var top := PyTake(sorted, 10);
    assert |sorted| == |multiset(sorted)| == |trending|;
    TopOfSorted(trending, sorted, top);
    TrendingPage(top, |top|)
  }

  /** `GET /problems/trending` over the mock records: every one of the five
      trends, so all five are returned. */
  function Trending(): (r: TrendingPage)
    ensures |r.data| == 5 && r.count == 5
    ensures multiset(r.data) == multiset(MockProblems)
  {
    MockProblemsAllTrend();
    TrendingKeepsAllWhenFew(MockProblems);
    TrendingFrom(MockProblems)
  }

  lemma MockProblemsAllTrend()
    ensures |MockProblems| == 5 && Filter(MockProblems, IsTrending) == MockProblems
  {
    forall p | p in MockProblems
      ensures IsTrending(p)
    {
    }
    FilterAll(MockProblems, IsTrending);
  }

  /** When at most ten problems trend, all of them are returned. */
  lemma TrendingKeepsAllWhenFew(problems: seq<Problem>)
    requires Filter(problems, IsTrending) == problems && |problems| <= 10
    ensures |TrendingFrom(problems).data| == |problems|
    ensures multiset(TrendingFrom(problems).data) == multiset(problems)
  {
  }

  // ---------------------------------------------------------------- details

  /** The first problem whose id is `id`, as `next(..., None)` finds it. */
  function FindById(problems: seq<Problem>, id: string): (r: Option<nat>)
    ensures r.Some? ==> r.value < |problems| && problems[r.value].id == Some(id)
                        && forall k :: 0 <= k < r.value ==> problems[k].id != Some(id)
    ensures r.None? <==> forall k :: 0 <= k < |problems| ==> problems[k].id != Some(id)
  {
    if |problems| == 0 then None
    else if problems[0].id == Some(id) then Some(0)
    else
      match FindById(problems[1..], id)
      case None => None
      case Some(k) => Some(k + 1)
  }

  /** `get_problem_details`: the first problem with the id. An unknown id raises
      404 inside the handler's `try`, whose catch-all turns it into a 500. */
  function ProblemDetailsFrom(problems: seq<Problem>, id: string): (r: Outcome<Problem>)
    ensures r.Ok? ==> r.value in problems && r.value.id == Some(id)
    ensures r.Fail? <==> forall p :: p in problems ==> p.id != Some(id)
    ensures r.Fail? ==> r.code == 500 && r.detail == "404: Problem not found"
  {
    match FindById(problems, id)
    case Some(k) => Ok(problems[k])
    case None => Fail(500, "404: Problem not found")
  }

  /** `GET /problems/{id}` over the mock records: only the ids "1" to "5" are found. */
  function ProblemDetails(id: string): (r: Outcome<Problem>)
    ensures r.Ok? <==> id in ["1", "2", "3", "4", "5"]
    ensures r.Ok? ==> r.value in MockProblems && r.value.id == Some(id)
    ensures r.Fail? ==> r.code == 500 && r.detail == "404: Problem not found"
  {
    MockProblemIds();
    FiveIds(MockProblems, id);
    ProblemDetailsFrom(MockProblems, id)
  }

  lemma MockProblemIds()
    ensures |MockProblems| == 5
    ensures MockProblems[0].id == Some("1") && MockProblems[1].id == Some("2") && MockProblems[2].id == Some("3")
    ensures MockProblems[3].id == Some("4") && MockProblems[4].id == Some("5")
  {
  }

  lemma FiveIds(problems: seq<Problem>, id: string)
    requires |problems| == 5
    requires problems[0].id == Some("1") && problems[1].id == Some("2") && problems[2].id == Some("3")
    requires problems[3].id == Some("4") && problems[4].id == Some("5")
    ensures (exists p :: p in problems && p.id == Some(id)) <==> id in ["1", "2", "3", "4", "5"]
  {
    if id in ["1", "2", "3", "4", "5"] {
      var k := if id == "1" then 0 else if id == "2" then 1 else if id == "3" then 2 else if id == "4" then 3 else 4;
      assert problems[k] in problems;
    }
  }

  // ----------------------------------------------------------------- search

  predicate MatchesQuery(p: Problem, query: string) {
    Contains(Lower(p.title), Lower(query)) || Contains(Lower(p.description), Lower(query))
  }

  /** `search_problems`: problems whose title or description contains the query
      ignoring case, in source order, cut by `[:limit]`. */
  function SearchFrom(problems: seq<Problem>, query: string, limit: int): (r: SearchPage)
    ensures IsSubsequence(r.data, problems)
    ensures forall p :: p in r.data ==> MatchesQuery(p, query)
    ensures r.data <= Filter(problems, (p: Problem) => MatchesQuery(p, query))
    ensures limit >= 0 ==> |r.data| == Min(limit, |Filter(problems, (p: Problem) => MatchesQuery(p, query))|)
    ensures limit < 0 ==> |r.data| == Max(0, |Filter(problems, (p: Problem) => MatchesQuery(p, query))| + limit)
    ensures limit >= |problems| ==> forall p :: p in r.data <==> p in problems && MatchesQuery(p, query)
    ensures r.query == query && r.count == |r.data|
  {
    var matching := Filter(problems, (p: Problem) => MatchesQuery(p, query));
    var page := PyTake(matching, limit);
    PrefixIsSubsequence(page, matching);
    SubsequenceTransitive(page, matching, problems);
    assert forall p :: p in page ==> p in matching;
    SearchPage(page, query, |page|)
  }

  /** `POST /problems/search`, with the query and limit as query parameters, over the mock records. */
  function Search(query: string, limit: int): (r: SearchPage)
    ensures forall p :: p in r.data ==> p in MockProblems && MatchesQuery(p, query)
    ensures limit >= 5 ==> forall p :: p in r.data <==> p in MockProblems && MatchesQuery(p, query)
    ensures r.query == query
  {
    SearchFrom(MockProblems, query, limit)
  }
}
