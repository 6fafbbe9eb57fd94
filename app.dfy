/** The `App` component of src/App.jsx as a small store: its state is
    `path`, `organization` and `errors`, and its handlers apply the resolvers
    to that state. The HTTP round trip is not modelled: each handler returns
    the variables it would post and takes the response it would receive as
    a parameter. Each application of a resolver to the state is one atomic
    step. */
module AppStore {
  import opened Wrappers
  import opened Schema
  import opened Paths
  import opened Resolvers

  /** The variables of the `addStar` mutation. */
  datatype StarVariables = StarVariables(repositoryId: string)

  /** The state after `setState(resolveIssuesQuery(response, cursor))`: the
      update is merged in. When the updater throws, the model keeps the
      last state (what React then does is not modelled). */
  function AfterIssuesQuery(s: State, response: QueryResponse, cursor: Option<string>): (t: State)
    ensures t.path == s.path
    ensures ResolveIssuesQuery(response, cursor, s).Failure? ==> t == s
    ensures ResolveIssuesQuery(response, cursor, s).Success? ==>
              t.organization == ResolveIssuesQuery(response, cursor, s).value.organization && t.errors == response.errors
  {
    match ResolveIssuesQuery(response, cursor, s)
    case Success(u) => ApplyIssuesUpdate(s, u)
    case Failure(_) => s
  }

  /** The state after `setState(resolveAddStarMutation(mutation))`; a
      throwing updater keeps the last state, as above. */
  function AfterAddStar(s: State, mutation: StarResponse): (t: State)
    ensures t.path == s.path && t.errors == s.errors
    ensures StarredFlag(mutation).None? || s.organization.None? ==> t == s
    ensures StarredFlag(mutation).Some? && s.organization.Some? ==>
              && SameExceptStarred(s, t)
              && t.organization.value.repository.viewerHasStarred == StarredFlag(mutation).value
  {
    match ResolveAddStarMutation(mutation, s)
    case Success(next) => next
    case Failure(_) => s
  }

  /** The cursor `onFetchMoreIssues` reads: the current page's `endCursor`,
      or a TypeError when nothing is loaded. */
  function MoreIssuesCursor(s: State): (c: Result<Option<string>, Fault>)
    ensures c.Failure? <==> s.organization.None?
    ensures c.Success? ==> c.value == IssuesOf(s.organization.value).pageInfo.endCursor
  {
    match s.organization
    case None => Failure(TypeError)
    case Some(org) => Success(org.repository.issues.pageInfo.endCursor)
  }

  /** A response whose data holds the organization `page` and no errors. */
  function PageResponse(page: Organization): (response: QueryResponse) {
    QueryResponse(Some(Payload(Some(page))), None)
  }

  /** One click on "More" followed by its response: with nothing loaded the
      click handler throws and nothing happens; otherwise the current
      `endCursor` is the cursor of the fetch, verbatim. */
  function LoadMoreStep(s: State, response: QueryResponse): (t: State)
    ensures t.path == s.path
    ensures s.organization.None? ==> t == s
    ensures s.organization.Some? ==>
              t == AfterIssuesQuery(s, response, IssuesOf(s.organization.value).pageInfo.endCursor)
  {
    match MoreIssuesCursor(s)
    case Failure(_) => s
    case Success(c) => AfterIssuesQuery(s, response, c)
  }

  /** Clicking "More" once per page, each time with the cursor the state
      then holds, and receiving the pages in order. */
  function LoadMore(s: State, pages: seq<Organization>): (t: State)
    ensures t.path == s.path
    ensures s.organization.None? ==> t == s
    decreases |pages|
  {
    if pages == [] then s else LoadMore(LoadMoreStep(s, PageResponse(pages[0])), pages[1..])
  }

  /** The loaded page and every page but the last carry a real
      `endCursor`; the last page may have none. */
  predicate CursorsChain(o: Organization, pages: seq<Organization>) {
    && IsCursor(IssuesOf(o).pageInfo.endCursor)
    && forall i :: 0 <= i < |pages| - 1 ==> IsCursor(IssuesOf(pages[i]).pageInfo.endCursor)
  }

  /** When every page a click reads carries a cursor, n clicks on "More"
      extend the loaded organization by all n pages: the edges accumulate in
      arrival order and the rest is the last page's. */
  lemma {:induction false} LoadMoreMergesEveryPage(s: State, pages: seq<Organization>)
    requires s.organization.Some?
    requires CursorsChain(s.organization.value, pages)
    ensures LoadMore(s, pages).path == s.path
    ensures LoadMore(s, pages).organization == Some(MergePages(s.organization.value, pages))
    decreases |pages|
  {
    if pages != [] {
      var c := IssuesOf(s.organization.value).pageInfo.endCursor;
      var next := AfterIssuesQuery(s, PageResponse(pages[0]), c);
      assert next.organization == Some(MergePage(s.organization.value, pages[0]));
      if |pages| > 1 {
        assert CursorsChain(next.organization.value, pages[1..]) by {
          assert forall i :: 0 <= i < |pages[1..]| ==> pages[1..][i] == pages[i + 1];
        }
        LoadMoreMergesEveryPage(next, pages[1..]);
      }
    }
  }

  /** The scenario of one fresh fetch followed by one "More": the edges are
      the two pages' edges in order, and the total and page information are
      the second page's, not a sum. */
  lemma FetchThenLoadMore(s: State, first: Organization, second: Organization)
    requires IsCursor(IssuesOf(first).pageInfo.endCursor)
    ensures var s1 := AfterIssuesQuery(s, PageResponse(first), None);
            && MoreIssuesCursor(s1) == Success(IssuesOf(first).pageInfo.endCursor)
            && var s2 := AfterIssuesQuery(s1, PageResponse(second), IssuesOf(first).pageInfo.endCursor);
            && s2.path == s.path
            && s2.organization.Some?
            && IssuesOf(s2.organization.value).edges == IssuesOf(first).edges + IssuesOf(second).edges
            && |IssuesOf(s2.organization.value).edges| == |IssuesOf(first).edges| + |IssuesOf(second).edges|
            && IssuesOf(s2.organization.value).totalCount == IssuesOf(second).totalCount
            && IssuesOf(s2.organization.value).pageInfo == IssuesOf(second).pageInfo
  {
  }

  /** "More" on a page whose `endCursor` is `null` or empty takes the
      replace branch: the accumulated pages are discarded. */
  lemma LoadMoreWithoutCursorReplaces(s: State, page: Organization)
    requires s.organization.Some?
    requires !IsCursor(IssuesOf(s.organization.value).pageInfo.endCursor)
    ensures LoadMore(s, [page]).organization == Some(page)
  {
  }

  /** A star applied before a "More" is overwritten by the fetched page's
      star flag, whether the "More" extends or replaces and whether the
      mutation succeeded or not. */
  lemma LoadMoreOverwritesStar(s: State, mutation: StarResponse, page: Organization)
    requires s.organization.Some?
    ensures var starred := AfterAddStar(s, mutation);
            LoadMore(starred, [page]) == LoadMore(s, [page])
  {
    var starred := AfterAddStar(s, mutation);
    MergeReadsOnlyPreviousEdges(starred.organization.value, s.organization.value, page);
  }

  class App {
    var path: string
    var organization: Option<Organization>
    var errors: Option<seq<ApiError>>

    /** The component's `this.state`. */
    function Snapshot(): State
      reads this
    {
      State(path, organization, errors)
    }

    constructor ()
      ensures Snapshot() == InitialState
    {
      path := InitialPath;
      organization := None;
      errors := None;
    }

    /** `onChange`: the input field's value becomes the path. */
    method OnChange(value: string)
      modifies this
      ensures Snapshot() == old(Snapshot()).(path := value)
    {
      path := value;
    }

    /** `onFetchFromGitHub(p, cursor)`: posts the issues query for `p` and
      `cursor`, then applies `resolveIssuesQuery` to the state current when
      the response arrives. */
    method OnFetchFromGitHub(p: string, cursor: Option<string>, response: QueryResponse)
      returns (request: IssuesVariables, fault: Option<Fault>)
      modifies this
      ensures request == IssuesQueryVariables(p, cursor)
      ensures Snapshot() == AfterIssuesQuery(old(Snapshot()), response, cursor)
      ensures fault.Some? <==> ResolveIssuesQuery(response, cursor, old(Snapshot())).Failure?
    {
      request := IssuesQueryVariables(p, cursor);
      var r := ResolveIssuesQuery(response, cursor, Snapshot());
      match r
      case Success(u) =>
        organization, errors := u.organization, u.errors;
        fault := None;
      case Failure(e) =>
        fault := Some(e);
    }

    /** `onSubmit` (and `componentDidMount`): a fresh fetch of the current path. */
    method OnSubmit(response: QueryResponse) returns (request: IssuesVariables, fault: Option<Fault>)
      modifies this
      ensures request == IssuesQueryVariables(old(path), None)
      ensures Snapshot() == AfterIssuesQuery(old(Snapshot()), response, None)
      ensures fault.Some? <==> response.data.None?
    {
      request, fault := OnFetchFromGitHub(path, None, response);
    }

    /** The first half of `onFetchMoreIssues`: the cursor it reads from the
      state. It changes nothing. */
    method CurrentEndCursor() returns (c: Result<Option<string>, Fault>)
      ensures c == MoreIssuesCursor(Snapshot())
    {
      match organization
      case None =>
        c := Failure(TypeError);
      case Some(org) =>
        c := Success(org.repository.issues.pageInfo.endCursor);
    }

    /** `onFetchMoreIssues`: fetches the current path again with the current
      page's `endCursor`, verbatim. With nothing loaded the read throws
      before any request is made. */
    method OnFetchMoreIssues(response: QueryResponse) returns (request: Option<IssuesVariables>, fault: Option<Fault>)
      modifies this
      ensures old(organization).None? ==> request.None? && fault == Some(TypeError) && Snapshot() == old(Snapshot())
      ensures old(organization).Some? ==>
                && var c := IssuesOf(old(organization).value).pageInfo.endCursor;
                && request == Some(IssuesQueryVariables(old(path), c))
                && Snapshot() == AfterIssuesQuery(old(Snapshot()), response, c)
                && (fault.Some? <==> ResolveIssuesQuery(response, c, old(Snapshot())).Failure?)
      ensures Snapshot() == LoadMoreStep(old(Snapshot()), response)
    {
      var c := CurrentEndCursor();
      match c
      case Failure(e) =>
        request, fault := None, Some(e);
      case Success(cursor) =>
        var v;
        v, fault := OnFetchFromGitHub(path, cursor, response);
        request := Some(v);
    }

    /** `onStarRepository(repositoryId, viewerHasStarred)`: posts `addStar`
      for the repository whatever the current flag, then writes the
      mutation's result into the state. */
    method OnStarRepository(repositoryId: string, viewerHasStarred: bool, mutation: StarResponse)
      returns (request: StarVariables, fault: Option<Fault>)
      modifies this
      ensures request == StarVariables(repositoryId)
      ensures Snapshot() == AfterAddStar(old(Snapshot()), mutation)
      ensures fault.Some? <==> StarredFlag(mutation).None? || old(organization).None?
    {
      request := StarVariables(repositoryId);
      match ResolveAddStarMutation(mutation, Snapshot())
      case Success(next) =>
        organization := next.organization;
        fault := None;
      case Failure(e) =>
        fault := Some(e);
    }
  }
}
