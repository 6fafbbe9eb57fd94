/** The two state transformers of src/App.jsx: `resolveIssuesQuery`, which
    merges a fetched page of issues into the state, and
    `resolveAddStarMutation`, which writes a star mutation's result back. Each
    is a curried `state => newState` closure in the source; here it is a
    function of the response, the cursor and the state, whose result is the
    object handed to `setState` or the TypeError the closure throws. */
module Resolvers {
  import opened Wrappers
  import opened Schema

  /** JavaScript truthiness of the cursor: `undefined`, `null` and `""` all
      take the replace branch of `if (!cursor)`. */
  predicate IsCursor(cursor: Option<string>): (truthy: bool)
    ensures truthy <==> cursor !in {None, Some("")}
  {
    cursor.Some? && cursor.value != ""
  }

  /** The partial state `resolveIssuesQuery` returns: `{ organization, errors }`. */
  datatype IssuesUpdate = IssuesUpdate(organization: Option<Organization>, errors: Option<seq<ApiError>>)

  /** `page` with its issue edges replaced by `edges`, every other field kept. */
  function WithIssueEdges(page: Organization, edges: seq<Edge>): (o: Organization) {
    page.(repository := page.repository.(issues := page.repository.issues.(edges := edges)))
  }

  /** Every field of `o` except the issue edges is the one of `page`: the
      organization's name and url, the repository's id, name, url, star
      count, star flag and license, and the connection's total and page
      information. */
  predicate FromFreshPage(o: Organization, page: Organization) {
    && o.name == page.name
    && o.url == page.url
    && o.repository.id == page.repository.id
    && o.repository.name == page.repository.name
    && o.repository.url == page.repository.url
    && o.repository.stargazers == page.repository.stargazers
    && o.repository.viewerHasStarred == page.repository.viewerHasStarred
    && o.repository.licenseInfo == page.repository.licenseInfo
    && IssuesOf(o).totalCount == IssuesOf(page).totalCount
    && IssuesOf(o).pageInfo == IssuesOf(page).pageInfo
  }

  /** The extend branch: a new tree built from the fresh page whose issue
      edges are the previous edges followed by the fresh ones. */
  function MergePage(prev: Organization, page: Organization): (o: Organization)
    ensures IssuesOf(o).edges == IssuesOf(prev).edges + IssuesOf(page).edges
    ensures |IssuesOf(o).edges| == |IssuesOf(prev).edges| + |IssuesOf(page).edges|
    ensures forall i :: 0 <= i < |IssuesOf(prev).edges| ==> IssuesOf(o).edges[i] == IssuesOf(prev).edges[i]
    ensures forall j :: 0 <= j < |IssuesOf(page).edges| ==>
              IssuesOf(o).edges[|IssuesOf(prev).edges| + j] == IssuesOf(page).edges[j]
    ensures FromFreshPage(o, page)
    ensures WithIssueEdges(o, IssuesOf(page).edges) == page
  {
    WithIssueEdges(page, IssuesOf(prev).edges + IssuesOf(page).edges)
  }

  /** `resolveIssuesQuery(queryResult, cursor)(state)`. It throws when the
      response has no `data`, and, with a cursor, when the previous or the
      fresh organization is `null`. */
  function ResolveIssuesQuery(response: QueryResponse, cursor: Option<string>, state: State): (r: Result<IssuesUpdate, Fault>)
    ensures r.Failure? <==>
              || response.data.None?
              || (IsCursor(cursor) && (state.organization.None? || response.data.value.organization.None?))
    ensures r.Success? ==> r.value.errors == response.errors
    ensures r.Success? && !IsCursor(cursor) ==> r.value.organization == response.data.value.organization
    ensures r.Success? && IsCursor(cursor) ==>
              && r.value.organization.Some?
              && IssuesOf(r.value.organization.value).edges
                 == IssuesOf(state.organization.value).edges + IssuesOf(response.data.value.organization.value).edges
              && FromFreshPage(r.value.organization.value, response.data.value.organization.value)
  {
    match response.data
    case None => Failure(TypeError)
    case Some(payload) =>
      if !IsCursor(cursor) then
        Success(IssuesUpdate(payload.organization, response.errors))
      else
        match (state.organization, payload.organization)
        case (Some(prev), Some(page)) => Success(IssuesUpdate(Some(MergePage(prev, page)), response.errors))
        case _ => Failure(TypeError)
  }

  /** React's `setState` with the partial object `u`: the keys `u` carries
      are overwritten and `path`, which it does not carry, is kept. */
  function ApplyIssuesUpdate(state: State, u: IssuesUpdate): (s: State)
    ensures s.path == state.path
    ensures s.organization == u.organization && s.errors == u.errors
  {
    state.(organization := u.organization, errors := u.errors)
  }

  /** Without a cursor the previous state is ignored entirely. */
  lemma FreshFetchIgnoresState(response: QueryResponse, cursor: Option<string>, s1: State, s2: State)
    requires !IsCursor(cursor)
    ensures ResolveIssuesQuery(response, cursor, s1) == ResolveIssuesQuery(response, cursor, s2)
  {
  }

  /** An empty-string cursor is falsy: it replaces exactly as no cursor does. */
  lemma EmptyCursorReplaces(response: QueryResponse, state: State)
    ensures ResolveIssuesQuery(response, Some(""), state) == ResolveIssuesQuery(response, None, state)
  {
  }

  /** The extend branch reads the previous tree only through its issue
      edges: a star flag or star count held in the previous state is
      overwritten by the fresh page's. */
  lemma MergeReadsOnlyPreviousEdges(p1: Organization, p2: Organization, page: Organization)
    requires IssuesOf(p1).edges == IssuesOf(p2).edges
    ensures MergePage(p1, page) == MergePage(p2, page)
  {
  }

  /** Every page's edges, in the order the pages arrive. */
  function AllEdges(pages: seq<Organization>): (edges: seq<Edge>)
    decreases |pages|
  {
    if pages == [] then [] else IssuesOf(pages[0]).edges + AllEdges(pages[1..])
  }

  /** Merging the pages one after another. */
  function MergePages(prev: Organization, pages: seq<Organization>): (o: Organization)
    decreases |pages|
  {
    if pages == [] then prev else MergePages(MergePage(prev, pages[0]), pages[1..])
  }

  /** Merging n pages appends all of their edges, in arrival order and
      without deduplication. */
  lemma {:induction false} MergePagesAppendsAll(prev: Organization, pages: seq<Organization>)
    ensures IssuesOf(MergePages(prev, pages)).edges == IssuesOf(prev).edges + AllEdges(pages)
    ensures |IssuesOf(MergePages(prev, pages)).edges| == |IssuesOf(prev).edges| + |AllEdges(pages)|
    decreases |pages|
  {
    if pages != [] {
      var next := MergePage(prev, pages[0]);
      assert MergePages(prev, pages) == MergePages(next, pages[1..]);
      assert AllEdges(pages) == IssuesOf(pages[0]).edges + AllEdges(pages[1..]);
      MergePagesAppendsAll(next, pages[1..]);
      assert IssuesOf(next).edges == IssuesOf(prev).edges + IssuesOf(pages[0]).edges;
    }
  }

  /** After merging n pages, every field other than the edges is the last
      page's: its total and page information, not an accumulation. */
  lemma {:induction false} MergePagesTakesLastPage(prev: Organization, pages: seq<Organization>)
    requires pages != []
    ensures FromFreshPage(MergePages(prev, pages), pages[|pages| - 1])
    decreases |pages|
  {
    var next := MergePage(prev, pages[0]);
    assert MergePages(prev, pages) == MergePages(next, pages[1..]);
    if |pages| > 1 {
      MergePagesTakesLastPage(next, pages[1..]);
      assert pages[1..][|pages[1..]| - 1] == pages[|pages| - 1];
    }
  }

  /** Every field of `b` is the one of `a`, except possibly the repository's
      `viewerHasStarred`. */
  predicate SameExceptStarred(a: State, b: State) {
    && a.path == b.path
    && a.errors == b.errors
    && a.organization.Some? && b.organization.Some?
    && var oa, ob := a.organization.value, b.organization.value;
    && oa.name == ob.name
    && oa.url == ob.url
    && oa.repository.id == ob.repository.id
    && oa.repository.name == ob.repository.name
    && oa.repository.url == ob.repository.url
    && oa.repository.stargazers == ob.repository.stargazers
    && oa.repository.licenseInfo == ob.repository.licenseInfo
    && oa.repository.issues == ob.repository.issues
  }

  /** The destructuring `const { viewerHasStarred } = ….addStar.starrable`:
      the flag, or `None` where `addStar` or `starrable` is `null` and the
      read throws. */
  function StarredFlag(mutation: StarResponse): (flag: Option<bool>)
    ensures flag.Some? <==> mutation.addStar.Some? && mutation.addStar.value.starrable.Some?
    ensures flag.Some? ==> flag.value == mutation.addStar.value.starrable.value.viewerHasStarred
  {
    match mutation.addStar
    case None => None
    case Some(payload) =>
      match payload.starrable
      case None => None
      case Some(starrable) => Some(starrable.viewerHasStarred)
  }

  /** `resolveAddStarMutation(mutationResult)(state)` as intended: it reads
      `viewerHasStarred` from the mutation's `addStar.starrable` and writes it
      into the state's repository, copying every other field. It throws when
      `addStar`, `starrable` or the state's organization is `null`. The star
      count is left as it is. */
  function ResolveAddStarMutation(mutation: StarResponse, state: State): (r: Result<State, Fault>)
    ensures r.Success? <==> StarredFlag(mutation).Some? && state.organization.Some?
    ensures r.Success? ==>
              && r.value.organization.Some?
              && r.value.organization.value.repository.viewerHasStarred == StarredFlag(mutation).value
              && SameExceptStarred(state, r.value)
  {
    match (StarredFlag(mutation), state.organization)
    case (Some(flag), Some(org)) =>
      Success(state.(organization := Some(org.(repository := org.repository.(viewerHasStarred := flag)))))
    case _ => Failure(TypeError)
  }

  /** What `this.mutationResult` holds where the closure is defined: the
      arrow function sits at module level, where `this` has no
      `mutationResult`. */
  const ModuleThisMutationResult: Option<StarResponse> := None

  /** `resolveAddStarMutation` as written: it reads `this.mutationResult`
      instead of its parameter, so it never applies a star: every call
      throws, whatever the mutation returned and whatever the state. */
  function ResolveAddStarMutationAsWritten(mutation: StarResponse, state: State): (r: Result<State, Fault>)
    ensures r == Failure(TypeError)
  {
    match ModuleThisMutationResult
    case None => Failure(TypeError)
    case Some(m) => ResolveAddStarMutation(m, state)
  }

  /** A concrete case: a successful mutation on a loaded state that the
      as-written closure drops and the intended one applies. */
  lemma AsWrittenStarCounterexample()
    ensures var repo := Repository("R_1", "r", "u", Stargazers(10), false, None,
                                   IssueConnection([], 0, PageInfo(None, false)));
            var s := State("o/r", Some(Organization("o", "u", repo)), None);
            var m := StarResponse(Some(AddStarPayload(Some(Starrable(true)))));
            && ResolveAddStarMutationAsWritten(m, s).Failure?
            && ResolveAddStarMutation(m, s).Success?
            && ResolveAddStarMutation(m, s).value.organization.value.repository.viewerHasStarred
            && ResolveAddStarMutation(m, s).value.organization.value.repository.stargazers.totalCount == 10
  {
  }

  /** Applying the same mutation result twice is the same as applying it once. */
  lemma StarIsIdempotent(mutation: StarResponse, state: State)
    requires ResolveAddStarMutation(mutation, state).Success?
    ensures ResolveAddStarMutation(mutation, ResolveAddStarMutation(mutation, state).value)
            == ResolveAddStarMutation(mutation, state)
  {
  }

  /** A mutation that returns the flag the state already holds changes nothing. */
  lemma StarWithCurrentFlagIsNoOp(mutation: StarResponse, state: State)
    requires StarredFlag(mutation).Some? && state.organization.Some?
    requires StarredFlag(mutation).value == state.organization.value.repository.viewerHasStarred
    ensures ResolveAddStarMutation(mutation, state) == Success(state)
  {
  }
}
