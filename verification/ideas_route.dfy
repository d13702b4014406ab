/** The Next.js `/api/ideas` route: listing with case-insensitive search,
    newest-first order and skip/take pagination, and creation by a signed-in
    user. The idea and user tables are in-memory values; the session's user id
    is a parameter. */
module IdeaListing {
  import opened Outcome
  import opened Text
  import opened Lists

  /** An idea row; `createdAt` is the creation instant as a number. */
  datatype Idea = Idea(
    id: string,
    title: string,
    description: string,
    screenshots: seq<string>,
    authorId: string,
    createdAt: int)

  // ----------------------------------------------------------------- listing

  /** Prisma's `contains` with `mode: "insensitive"` on the title or the description. */
  predicate MatchesSearch(idea: Idea, term: string) {
    Contains(Lower(idea.title), Lower(term)) || Contains(Lower(idea.description), Lower(term))
  }

  /** The `where` clause: a truthy search filters, an absent or empty one keeps all. */
  function Eligible(store: seq<Idea>, search: Option<string>): (r: seq<Idea>)
    ensures forall i :: i in r <==> i in store && (Truthy(search) ==> MatchesSearch(i, search.value))
    ensures IsSubsequence(r, store)
    ensures !Truthy(search) ==> r == store
  {
    if Truthy(search) then Filter(store, (i: Idea) => MatchesSearch(i, search.value))
    else
      PrefixIsSubsequence(store, store);
      store
  }

  predicate NewerOrSame(a: Idea, b: Idea) { a.createdAt >= b.createdAt }

  lemma NewerOrSameIsOrder()
    ensures Total(NewerOrSame) && Transitive(NewerOrSame)
  {
  }

  /** `orderBy: { createdAt: "desc" }` over the eligible ideas. */
  function Newest(store: seq<Idea>, search: Option<string>): (r: seq<Idea>)
    ensures multiset(r) == multiset(Eligible(store, search))
    ensures |r| == |Eligible(store, search)|
    ensures forall i, j :: 0 <= i < j < |r| ==> r[i].createdAt >= r[j].createdAt
  {
    NewerOrSameIsOrder();
    SortBy(Eligible(store, search), NewerOrSame)
  }

  /** `Math.ceil(total / limit)` for a positive limit. */
  function CeilDiv(total: nat, limit: int): (r: nat)
    requires limit > 0
    ensures (r - 1) * limit < total <= r * limit
  {
    (total + limit - 1) / limit
  }

  /** `totalPages`; with a zero limit the division is not finite and JSON
      renders it as `null`. */
  datatype Pagination = Pagination(page: int, limit: int, total: nat, totalPages: Option<nat>)

  datatype IdeaPage = IdeaPage(ideas: seq<Idea>, pagination: Pagination)

  const InternalError: string := "Internal server error"

  /** The number of ideas a page holds: what is left after skipping, at most `limit`. */
  function PageLength(total: nat, skip: nat, limit: nat): nat {
    if skip >= total then 0 else if total - skip < limit then total - skip else limit
  }

  /** Prisma's `skip` and `take` on an ordered list. */
  function Window(ordered: seq<Idea>, skip: nat, limit: nat): (r: seq<Idea>)
    ensures |r| == PageLength(|ordered|, skip, limit)
    ensures forall k :: 0 <= k < |r| ==> r[k] == ordered[skip + k]
    ensures forall i :: i in r ==> i in ordered
  {
    if skip >= |ordered| then []
    else
      var end := if |ordered| - skip < limit then |ordered| else skip + limit;
      ordered[skip..end]
  }

  /** One page of the newest-first eligible ideas, once skip and take are known. */
  function Paginate(store: seq<Idea>, search: Option<string>, page: int, skip: nat, limit: nat): (r: IdeaPage)
    ensures forall i :: i in r.ideas ==> i in store && (Truthy(search) ==> MatchesSearch(i, search.value))
    ensures |r.ideas| == PageLength(|Eligible(store, search)|, skip, limit)
    ensures forall k :: 0 <= k < |r.ideas| ==> r.ideas[k] == Newest(store, search)[skip + k]
    ensures forall i, j :: 0 <= i < j < |r.ideas| ==> r.ideas[i].createdAt >= r.ideas[j].createdAt
    ensures r.pagination == Pagination(page, limit, |Eligible(store, search)|,
                                       if limit == 0 then None else Some(CeilDiv(|Eligible(store, search)|, limit)))
  {
    var ordered := Newest(store, search);
    var ideas := Window(ordered, skip, limit);
    assert forall i :: i in ideas ==> i in multiset(ordered);
    var pages := if limit == 0 then None else Some(CeilDiv(|ordered|, limit));
    IdeaPage(ideas, Pagination(page, limit, |ordered|, pages))
  }

  /** `GET /api/ideas`: skip `(page - 1) * limit` of the newest-first eligible
      ideas and take `limit`. A negative skip or take is refused by the
      database and the catch-all answers 500. */
  function ListIdeas(store: seq<Idea>, search: Option<string>, page: int, limit: int): (r: Outcome<IdeaPage>)
    ensures r.Fail? <==> (page - 1) * limit < 0 || limit < 0
    ensures r.Fail? ==> r.code == 500 && r.detail == InternalError
    ensures r.Ok? ==> r.value == Paginate(store, search, page, (page - 1) * limit, limit)
    ensures r.Ok? && limit > 0 ==> (r.value.pagination.totalPages.Some?
              && (r.value.pagination.totalPages.value - 1) * limit < r.value.pagination.total
              && r.value.pagination.total <= r.value.pagination.totalPages.value * limit)
    ensures r.Ok? && limit == 0 ==> r.value.ideas == [] && r.value.pagination.totalPages.None?
  {
    var skip := (page - 1) * limit;
    if skip < 0 || limit < 0 then Fail(500, InternalError)
    else Ok(Paginate(store, search, page, skip, limit))
  }

  /** A search nothing matches is an empty first page with no pages, not an error. */
  lemma NoMatchIsEmpty(store: seq<Idea>, term: string, limit: int)
    requires |term| > 0 && limit > 0
    requires forall i :: i in store ==> !MatchesSearch(i, term)
    ensures ListIdeas(store, Some(term), 1, limit) == Ok(IdeaPage([], Pagination(1, limit, 0, Some(0))))
  {
    var e := Eligible(store, Some(term));
    assert forall k :: 0 <= k < |e| ==> e[k] in e;
  }

  /** Without a search every stored idea is listed somewhere, newest first. */
  lemma NoSearchListsAll(store: seq<Idea>)
    ensures multiset(Newest(store, None)) == multiset(store)
  {
  }

  /** The page after the last one is empty, and the total does not depend on the page. */
  lemma PastLastPageIsEmpty(store: seq<Idea>, search: Option<string>, page: int, limit: int)
    requires limit > 0 && page >= 1
    requires (page - 1) * limit >= |Eligible(store, search)|
    ensures ListIdeas(store, search, page, limit).Ok?
    ensures ListIdeas(store, search, page, limit).value.ideas == []
    ensures ListIdeas(store, search, page, limit).value.pagination.total == ListIdeas(store, search, 1, limit).value.pagination.total
  {
    assert (page - 1) * limit >= 0;
  }

  // ---------------------------------------------------------------- creation

  /** The JSON body of `POST /api/ideas`; an absent member is `None`. */
  datatype IdeaBody = IdeaBody(title: Option<string>, description: Option<string>, screenshots: Option<seq<string>>)

  /** `POST /api/ideas`: a signed-in, known user with a title and a description
      appends one idea authored by them, answered with status 201. The new
      row's id and creation time are supplied by the database. */
  function CreateIdea(store: seq<Idea>, users: set<string>, sessionUserId: Option<string>, body: IdeaBody,
                      newId: string, now: int): (r: Outcome<(seq<Idea>, Idea)>)
    ensures r.Fail? && r.code == 401 <==> !Truthy(sessionUserId)
    ensures r.Fail? && r.code == 401 ==> r.detail == "Unauthorized"
    ensures r.Fail? && r.code == 400 <==> Truthy(sessionUserId) && (!Truthy(body.title) || !Truthy(body.description))
    ensures r.Fail? && r.code == 400 ==> r.detail == "Title and description are required"
    ensures r.Fail? && r.code == 404 <==>
              Truthy(sessionUserId) && Truthy(body.title) && Truthy(body.description) && sessionUserId.value !in users
    ensures r.Fail? && r.code == 404 ==> r.detail == "User not found"
    ensures r.Ok? <==>
              Truthy(sessionUserId) && Truthy(body.title) && Truthy(body.description) && sessionUserId.value in users
    ensures r.Ok? ==> r.value.0 == store + [r.value.1]
    ensures r.Ok? ==> r.value.1.authorId == sessionUserId.value && sessionUserId.value in users
    ensures r.Ok? ==> r.value.1.title == body.title.value && r.value.1.description == body.description.value
    ensures r.Ok? ==> r.value.1.screenshots == body.screenshots.GetOr([])
    ensures r.Ok? ==> r.value.1.id == newId && r.value.1.createdAt == now
  {
    if !Truthy(sessionUserId) then Fail(401, "Unauthorized")
    else if !Truthy(body.title) || !Truthy(body.description) then Fail(400, "Title and description are required")
    else if sessionUserId.value !in users then Fail(404, "User not found")
    else
      var idea := Idea(newId, body.title.value, body.description.value, body.screenshots.GetOr([]), sessionUserId.value, now);
      Ok((store + [idea], idea))
  }

  /** A created idea shows up in the unfiltered listing. */
  lemma CreatedIdeaIsListed(store: seq<Idea>, users: set<string>, sessionUserId: Option<string>, body: IdeaBody,
                            newId: string, now: int)
    requires CreateIdea(store, users, sessionUserId, body, newId, now).Ok?
    ensures CreateIdea(store, users, sessionUserId, body, newId, now).value.1
            in Newest(CreateIdea(store, users, sessionUserId, body, newId, now).value.0, None)
  {
    var r := CreateIdea(store, users, sessionUserId, body, newId, now).value;
    assert r.1 in multiset(r.0);
  }
}
