/** The entity tree the GitHub GraphQL API returns for the issues query, the
    mutation payload of `addStar`, and the state held by the `App` component. */
module Schema {
  import opened Wrappers

  /** One reaction node (`reactions.edges.node`): an id and an emoji name. */
  datatype Reaction = Reaction(id: string, content: string)

  /** One entry of a comment's `reactionGroups`; only the viewer flag is read. */
  datatype ReactionGroup = ReactionGroup(viewerHasReacted: bool)

  /** A comment node with its reactions and reaction groups. */
  datatype Comment = Comment(id: string, body: string, reactions: seq<Reaction>, reactionGroups: seq<ReactionGroup>)

  datatype CommentEdge = CommentEdge(node: Comment)

  /** An issue node with its last reactions and its last comments. */
  datatype Issue = Issue(id: string, title: string, url: string, reactions: seq<Reaction>, comments: seq<CommentEdge>)

  /** One element of the paginated issues connection. */
  datatype Edge = Edge(node: Issue)

  /** `endCursor` is an opaque token, `null` when the page is empty. */
  datatype PageInfo = PageInfo(endCursor: Option<string>, hasNextPage: bool)

  /** The `issues` connection: this page's edges, the server's total and the
      page information of this page. */
  datatype IssueConnection = IssueConnection(edges: seq<Edge>, totalCount: int, pageInfo: PageInfo)

  datatype Stargazers = Stargazers(totalCount: int)

  datatype License = License(name: string, description: string)

  datatype Repository = Repository(
    id: string,
    name: string,
    url: string,
    stargazers: Stargazers,
    viewerHasStarred: bool,
    licenseInfo: Option<License>,
    issues: IssueConnection)

  /** The root of one loaded query. */
  datatype Organization = Organization(name: string, url: string, repository: Repository)

  /** One entry of a GraphQL `errors` list. */
  datatype ApiError = ApiError(message: string)

  /** The `data` object of a query response; `organization` is `null` when
      the login does not resolve. */
  datatype Payload = Payload(organization: Option<Organization>)

  /** The body of a query response: `{ data, errors }`, either part absent. */
  datatype QueryResponse = QueryResponse(data: Option<Payload>, errors: Option<seq<ApiError>>)

  /** `addStar.starrable` of the star mutation's response. */
  datatype Starrable = Starrable(viewerHasStarred: bool)

  /** `addStar` of the star mutation's response; `starrable` may be `null`. */
  datatype AddStarPayload = AddStarPayload(starrable: Option<Starrable>)

  /** The body of a star mutation response; `addStar` is `null` when the
      mutation failed. */
  datatype StarResponse = StarResponse(addStar: Option<AddStarPayload>)

  /** The `App` component's state. */
  datatype State = State(path: string, organization: Option<Organization>, errors: Option<seq<ApiError>>)

  /** The JavaScript TypeError thrown by reading a property of `null` or
      `undefined`. */
  datatype Fault = TypeError

  const InitialPath: string := "the-road-to-learn-react/the-road-to-learn-react"

  /** The state the component starts with: a default path, nothing loaded. */
  const InitialState: State := State(InitialPath, None, None)

  /** The issues connection of a loaded organization. */
  function IssuesOf(o: Organization): (issues: IssueConnection) {
    o.repository.issues
  }
}
