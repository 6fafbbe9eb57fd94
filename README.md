# Client-side synchronisation of a React GraphQL GitHub client

This project models the small synchronisation layer under the React views of a
GitHub issues browser. It covers four pieces.

- **The issues-query resolver.** `resolveIssuesQuery` turns a fetched page of a
  repository's open issues into the next `{ organization, errors }` state. With
  no cursor it replaces the cached organization. With a cursor it builds a new
  tree from the fetched page, and the only change is that the issue edges
  become the old edges followed by the new ones.
- **The star resolver.** `resolveAddStarMutation` is meant to copy the state
  and overwrite only the repository's `viewerHasStarred` with the mutation's
  result. As written it reads `this.mutationResult`, so every call throws and
  no star is ever written (see Findings). The model keeps both: the code as
  written, and the intended reading that the store uses.
- **The `App` component as a store.** It holds `path`, `organization` and
  `errors`. Its handlers are:
  - `onChange` edits the path;
  - `onFetchFromGitHub` fetches a page for a path and an optional cursor;
    `onSubmit` and `componentDidMount` call it without a cursor;
  - `onFetchMoreIssues` ("More") threads the current page's `endCursor` back
    into the next fetch;
  - `onStarRepository` applies the star resolver.

  The path itself is split at `/` into organization and repository by
  `getIssuesofRepository`.
- **`hasReaction`.** This is the loop that decides whether the viewer already
  reacted to a comment. `CommentItem` uses its result to choose the heart
  button's callback arguments and its label.

Modules, one per concern:

- `Wrappers`: `Option` for JavaScript `null`/`undefined`, and `Result` for an
  evaluation that throws.
- `Schema`: the entity tree (Organization, Repository, IssueConnection,
  PageInfo, Edge, Issue, Comment, Reaction, ReactionGroup), the response
  bodies and the component state.
- `Resolvers`: the two resolvers as pure functions of the response, the
  cursor and the state.
- `Paths`: `String.prototype.split` for a one-character separator, the path
  split and the query variables.
- `AppStore`: the effect of each `setState`, load-more sequences, and the
  class `App` whose methods apply the resolvers to its fields.
- `Reactions`: `hasReaction` as a loop proved equal to an existential
  predicate, and the heart toggle.

How the model reads the JavaScript:

- **Unguarded reads.** The resolvers read properties of values that may be
  `null` or `undefined` (`data.organization`, `state.organization.repository`,
  `addStar.starrable`). Those reads run when React calls the updater that
  `setState` received, and they throw a TypeError there. The model returns
  `Failure(TypeError)` and keeps the last state. How React handles an updater
  that throws is not modelled (see Left out).
- **The click-handler read.** The one throwing read outside an updater is
  `this.state.organization.repository.issues.pageInfo` in `onFetchMoreIssues`.
  It throws in the click handler itself, before any request is posted.
- **Extend precondition.** Because of the unguarded reads above, the extend
  branch's need for a previous organization is an error case of `ResolveIssuesQuery`, not a `requires`.
- **Cursor truthiness.** The cursor test is `!cursor`. An empty-string cursor
  therefore takes the replace branch exactly like a missing one.
- **Transport.** Network responses are parameters. Each handler returns the
  variables it would post.

Behaviour of the code the model keeps:

- **Star count.** Star reconciliation leaves `stargazers.totalCount` as
  fetched.
- **Path without `/`.** It is accepted, and the repository part is
  `undefined`.
- **Response errors.** When `data` is present, the replace branch stores
  `data.organization`, possibly `null`, and the response's `errors`. The
  extend branch stores the merged tree and the response's `errors` only when
  both the previous and the fetched organization are non-null. Otherwise it
  throws, as both branches do without `data`.
- **Star toggle.** `onStarRepository` always posts `addStar`. It ignores its
  `viewerHasStarred` argument, so "Unstar" stars again.
- **Path after an edit.** "More" uses the path currently in the input field,
  which `onChange` may have edited since the last fetch.

## Model

| member | source | states |
|---|---|---|
| `Resolvers.IsCursor` | src/App.jsx:96 | a cursor is truthy exactly when it is neither `null`/`undefined` nor the empty string |
| `Resolvers.MergePage` | src/App.jsx:103-121 | merged edges are the old edges followed by the new ones (length is the sum, each old index and each shifted new index kept, nothing deduplicated); every other field (name, url, id, stars, star flag, license, totalCount, pageInfo) is the fresh page's, and restoring the fresh edges gives back exactly the fresh page |
| `Resolvers.ResolveIssuesQuery` | src/App.jsx:93-122 | throws exactly when `data` is absent or, with a truthy cursor, when the previous or the fresh organization is null; `errors` is always the response's; without a cursor the organization is the fetched one; with one, edges are old ++ new and every other field is the fresh page's |
| `Resolvers.ApplyIssuesUpdate` | src/App.jsx:176 | merging the partial `{ organization, errors }` into the state overwrites those two keys and keeps `path` |
| `Resolvers.FreshFetchIgnoresState` | src/App.jsx:96-101 | without a cursor the result does not depend on the previous state at all |
| `Resolvers.EmptyCursorReplaces` | src/App.jsx:96 | an empty-string cursor behaves exactly like no cursor |
| `Resolvers.MergeReadsOnlyPreviousEdges` | src/App.jsx:103-116 | the extend branch reads the previous tree only through its issue edges |
| `Resolvers.MergePagesAppendsAll` | src/App.jsx:103-116 | merging n pages in turn yields the first tree's edges followed by every page's edges in arrival order, length the sum |
| `Resolvers.MergePagesTakesLastPage` | src/App.jsx:109-118 | after merging n pages, totalCount, pageInfo and every scalar field are the last page's, not an accumulation |
| `Resolvers.StarredFlag` | src/App.jsx:133-135 | the destructured `viewerHasStarred` is present exactly when `addStar` and `addStar.starrable` are both non-null, and is then the starrable's flag |
| `Resolvers.ResolveAddStarMutation` | src/App.jsx:131-147 | succeeds exactly when the mutation's `addStar.starrable` and the state's organization are present; sets `viewerHasStarred` to the mutation's value and leaves path, errors, names, urls, id, star count, license and issues unchanged |
| `Resolvers.ResolveAddStarMutationAsWritten` | src/App.jsx:131-147 | as written, reading `this.mutationResult` makes every call throw a TypeError, whatever the mutation returned and whatever the state |
| `Resolvers.AsWrittenStarCounterexample` | src/App.jsx:131-147 | for a concrete loaded state and successful mutation, the as-written closure throws while the intended one sets the flag and keeps the star count 10 |
| `Resolvers.StarIsIdempotent` | src/App.jsx:137-146 | applying the same star result twice equals applying it once |
| `Resolvers.StarWithCurrentFlagIsNoOp` | src/App.jsx:137-146 | a star result equal to the current flag leaves the state exactly as it was |
| `Paths.Split` | src/App.jsx:85 | `split('/')` yields at least one segment, and exactly the input when there is one |
| `Paths.JoinSplit` | src/App.jsx:85 | joining the segments with the separator gives back the input |
| `Paths.SplitSegmentsHaveNoSeparator` | src/App.jsx:85 | no segment contains the separator |
| `Paths.SplitWithoutSeparator` | src/App.jsx:85 | a string without the separator is its own single segment |
| `Paths.SplitAtFirstSeparator` | src/App.jsx:85 | the first separator ends the first segment and the rest is split independently |
| `Paths.SplitPath` | src/App.jsx:85 | the destructured organization is the '/'-free prefix of the path that ends at the first '/' (the character after it is '/'), or the whole path when it has no '/'; the repository is absent exactly when the path has no '/' |
| `Paths.SplitPathOrganizationRepository` | src/App.jsx:85 | "o/r" with no '/' in o or r gives organization o and repository r |
| `Paths.SplitPathWithoutSlash` | src/App.jsx:85 | a path with no '/' gives the whole path as organization and no repository |
| `Paths.SplitPathDropsExtraSegments` | src/App.jsx:85 | segments after a second '/' are ignored |
| `Paths.IssuesQueryVariables` | src/App.jsx:83-91 | the posted variables are the two halves of the split path and the cursor, verbatim |
| `AppStore.AfterIssuesQuery` | src/App.jsx:173-178 | the state after the issues response: path kept; unchanged when the resolver throws; otherwise organization from the resolver and errors from the response |
| `AppStore.AfterAddStar` | src/App.jsx:190-195 | the state after the star response: unchanged on a throw, otherwise only `viewerHasStarred` changes, to the mutation's value |
| `AppStore.MoreIssuesCursor` | src/App.jsx:182-184 | the load-more cursor is the current page's `endCursor`, and reading it throws exactly when no organization is loaded |
| `AppStore.LoadMoreStep` | src/App.jsx:180-187 | one "More" and its response: path kept; nothing happens when no organization is loaded; otherwise the fetch's cursor is the current `endCursor` verbatim and the issues resolver is applied |
| `AppStore.LoadMore` | src/App.jsx:180-187 | n "More" clicks in turn keep the path, and change nothing when no organization is loaded |
| `AppStore.LoadMoreMergesEveryPage` | src/App.jsx:180-187 | n clicks on "More", each with the state's current `endCursor`, where the loaded page and every page but the last carry a cursor (the last may have none), leave the path and yield the first tree merged with all n pages in order |
| `AppStore.FetchThenLoadMore` | src/App.jsx:173-187 | a fresh fetch then one "More": the cursor used is the first page's `endCursor`, edges are both pages' in order with length the sum, totalCount and pageInfo are the second page's |
| `AppStore.LoadMoreWithoutCursorReplaces` | src/App.jsx:182-186 | "More" on a page whose `endCursor` is null or empty replaces the accumulated organization with the fetched page |
| `AppStore.LoadMoreOverwritesStar` | src/App.jsx:96-115 | a star applied before "More", successful or not, is overwritten by the fetched page's flag in both the replace and the extend branch: the result is the same as without the star |
| `AppStore.App.constructor` | src/App.jsx:151-155 | the initial state is the default path with no organization and no errors |
| `AppStore.App.OnChange` | src/App.jsx:162-164 | the path becomes the input value; organization and errors unchanged |
| `AppStore.App.OnFetchFromGitHub` | src/App.jsx:173-178 | posts the variables of the split path and cursor; the new state is `AfterIssuesQuery` of the old; reports a fault exactly when the resolver throws |
| `AppStore.App.OnSubmit` | src/App.jsx:167-171 | a fresh fetch of the current path; faults exactly when the response has no data |
| `AppStore.App.CurrentEndCursor` | src/App.jsx:182-184 | returns `MoreIssuesCursor` of the current state (the page's `endCursor`, or a TypeError when nothing is loaded), changing nothing |
| `AppStore.App.OnFetchMoreIssues` | src/App.jsx:180-187 | with nothing loaded, throws before posting and leaves the state; otherwise posts the current path with the current `endCursor` verbatim, applies the issues resolver, and reports a fault exactly when it throws |
| `AppStore.App.OnStarRepository` | src/App.jsx:190-195 | posts `addStar` for the given id regardless of the current flag; the new state is `AfterAddStar` of the old |
| `Reactions.HasReaction` | src/components.jsx:144-153 | the returned flag is true exactly when some reaction group has `viewerHasReacted` |
| `Reactions.NoReactionInEmpty` | src/components.jsx:144-153 | the flag of the empty sequence is false |
| `Reactions.ViewerReactedConcat` | src/components.jsx:145-149 | the flag of a + b is the flag of a or the flag of b |
| `Reactions.ViewerReactedIsMembership` | src/components.jsx:146-152 | the flag is membership of a reacting group |
| `Reactions.ViewerReactedIgnoresOrder` | src/components.jsx:146-152 | any permutation of the groups gives the same flag |
| `Reactions.HeartToggle` | src/components.jsx:167-168 | the click passes the comment's id and the flag; the label is "Remove Heart From Comment" exactly when the flag is true and "Add Heart to Comment" exactly when it is false |

## Left out

- HTTP transport is left out: the axios instance, bearer token, endpoint and POSTs. Responses are inputs and requests are returned values.
- The GraphQL query and mutation strings are left out. They are data.
- All rendering is left out: Organization, Repository, Licenses, Issues, HasComment, the markup of CommentItem, ReactionItem and the `Loading` animation. They are presentation only.
- The ordering of asynchronous `.then` callbacks is left out. This is concurrency: each resolver application is one atomic step on the state current at that moment.
- `onReactionToIssue` and the reaction mutations are not part of this model. The handler is not defined in the files modelled, so only the arguments the heart button passes to it are modelled.
- A `null` repository inside a non-null organization is not modelled: `Organization.repository` is always present.
- A `null` `data` in the star mutation's response is not modelled: only a `null` `addStar` or `addStar.starrable` is.
- React's handling of an updater that throws is not modelled. From React 16 on, an error thrown while an update is processed unmounts the tree when there is no error boundary, and these files have none. The model keeps the last state and reports the fault.
- A `null` `reactionGroups` is not modelled: `HasReaction` takes a sequence.
- Spreads are modelled as copies of fixed records. Extra fields a response might carry beyond the queried ones are not represented.
- Reactions and comments are stored as sequences of nodes, without the GraphQL `edges` wrapper where the code only renders them.
- `OnStarRepository` uses the intended star resolver, not the as-written one (see Findings).

## Findings

| source | as written | input that shows it | evidently intended | confidence | as-written member | corrected member |
|---|---|---|---|---|---|---|
| src/App.jsx:135 | the closure reads `this.mutationResult.data.data.addStar.starrable`; at module level `this` has no `mutationResult`, so every call throws a TypeError and the star is never written into the state | any call, e.g. the loaded state and `addStar` result `true` of `AsWrittenStarCounterexample` | read the `mutationResult` parameter | high; not executed | `Resolvers.ResolveAddStarMutationAsWritten` | `Resolvers.ResolveAddStarMutation` |
