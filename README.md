# Blog listing page: "load more" pagination

This project models the logic of the blog's listing page, `src/pages/index.tsx`.
At build time the page fetches one page of posts from the content API. It
projects every raw post document onto a post summary (uid, first publication
date, title, subtitle, author) and seeds its props with those summaries and
the API's continuation cursor `next_page`. The component keeps two pieces of
state, the cursor and the ordered posts. A "load more" button is shown
while the cursor is truthy. Pressing it fetches the cursor URL, replaces the
cursor with the fetched page's cursor and appends the projection of that
page's first result only. Each listed post links to `/post/{uid}`.

Files:
- `options.dfy` (module `Options`): `Option`, for a value that may be `null`.
- `posts.dfy` (module `Posts`): the raw document, the summary, the projection
  `Project`, its elementwise lifting `ProjectAll` (`results.map`), the
  build-time seeding `Seed` (`getStaticProps`) and the link `PostHref`.
- `listing.dfy` (module `Listing`): the state `ListingState` and its step
  function `AfterLoad`, the button guard `LoadMoreShown`, the multi-press
  `Session`, and the class `Home` whose `LoadMore` method is `loadPosts`.

Modelling decisions:
- The network fetch and `json()` at lines 39-41 are replaced by the parsed page,
  which `Home.LoadMore` takes as its argument. The Prismic query at lines 94-98
  is replaced by the `PageResponse` that `Seed` receives.
- The guard `nextPage && ...` at line 87 is JavaScript truthiness, so an empty
  cursor hides the button just as `null` does.
- The code does not check that a fetched page has results. `json.results[0]` is
  `undefined` for an empty page, `setNextPage(json.next_page)` runs next, and
  only then does `post.uid` throw. So an empty page is an error path: the
  cursor is replaced, the posts are unchanged, and `LoadMore` returns
  `ok == false`, standing for the rejected promise.
- A uid (`uid?: string`) is a string, `null`, or a missing key (`Uid`). The
  link's template literal renders these as the string, `null` and `undefined`,
  so their links are `/post/{uid}`, `/post/null` and `/post/undefined`. The
  cursor uses `Option`: the truthiness test at line 87 treats `null` and
  `undefined` alike. The publication date uses `Option` too, with `None` for
  the declared `null`. The model does not tell a missing date apart from `null`.
- The model's raw document carries only two fields beyond the five kept ones:
  the banner URL and the content blocks, which the post page reads
  (src/pages/post/[slug].tsx:113,116). The projection drops any other field
  because the summary type has no place for it.

## Model

| member | source | states |
|---|---|---|
| `Posts.Project` | src/pages/index.tsx:100-110 | the summary has the raw document's uid, first publication date, title, subtitle and author |
| `Posts.ProjectKeepsExactlyListingFields` | src/pages/index.tsx:47-55 | two documents have the same summary iff they agree on the five listing fields, so banner and content are dropped and nothing kept is lost |
| `Posts.ProjectExpand` | src/pages/index.tsx:100-110 | rebuilding a document around a summary, with any banner and content, and projecting it again gives the summary back |
| `Posts.ProjectAll` | src/pages/index.tsx:100 | `results.map(project)` keeps the length, and element i is the projection of raw element i |
| `Posts.Seed` | src/pages/index.tsx:93-120 | the props pass the cursor through unchanged; the results have the response's length and order, each one the projection of the raw document at the same index |
| `Posts.UidText` | src/pages/index.tsx:70 | the template literal renders a present uid as itself, a `null` one as `null` and a missing one as `undefined` |
| `Posts.UidTextNotInjective` | src/pages/index.tsx:70 | a `null` uid and a missing one render the same as the strings `null` and `undefined` respectively, so the rendering is not one-to-one |
| `Posts.PostHref` | src/pages/index.tsx:70 | a post's link is `/post/` followed by the uid as the template literal renders it |
| `Posts.PostHrefInjective` | src/pages/index.tsx:70 | two links are equal iff their uids render to the same text |
| `Listing.LoadMoreShown` | src/pages/index.tsx:87 | the button is rendered exactly when the cursor is truthy, i.e. neither `null` nor the empty string |
| `Listing.Initial` | src/pages/index.tsx:34-36 | the initial cursor is the props' `next_page` and the initial posts are the props' results |
| `Listing.AfterLoad` | src/pages/index.tsx:42-56 | a step replaces the cursor with the page's cursor and never changes an earlier post at its index. A page with results adds exactly one post, the projection of its first result. A page without results leaves the posts as they were |
| `Listing.AfterLoadIgnoresLaterResults` | src/pages/index.tsx:42 | results after the first one in a fetched page do not affect the new state |
| `Listing.AfterLoadForgetsCursor` | src/pages/index.tsx:44 | the new state does not depend on the previous cursor: it is replaced wholesale |
| `Listing.Session` | src/pages/index.tsx:38-57 | over any sequence of presses the earlier posts stay as a prefix, at most `|pages|` posts are added over the session (one per press, by `AfterLoad`), and once the cursor is falsy no press changes anything |
| `Listing.SessionAppendsFirsts` | src/pages/index.tsx:42-56 | when every page has results and every cursor until the last is truthy, the session appends the projection of each page's first result in fetch order and ends on the last page's cursor |
| `Listing.Home.constructor` | src/pages/index.tsx:33-36 | the component state starts as the initial state of its props |
| `Listing.Home.LoadMore` | src/pages/index.tsx:38-57 | only when the button is shown (line 87): the new state is `AfterLoad` of the old state and the page, and the handler fails exactly when the page has no results |

## Left out

- The `fetch` of the cursor URL and `json()` at lines 39-41 are network I/O. The parsed page is an argument of `Home.LoadMore`, and nothing ties it to the cursor URL.
- `getPrismicClient` and `getByType` at lines 94-98 are a foreign network client. Their response is the argument of `Posts.Seed`. The `pageSize: 1` option is not modelled, so a response of any length is allowed.
- The date formatting with `date-fns` and the pt-BR locale at lines 74-80 uses a foreign library whose locale tables are not visible. Dates are kept as opaque strings, so the model does not capture that line 75 renders a `null` date as the epoch and throws on a missing one (`new Date(undefined)` is an invalid date, which `format` rejects).
- JSX rendering, `Head`, `Link`, icons, the logo image and the style modules at lines 59-90 are UI. Only the link target (line 70) and the button guard (line 87) are modelled.
- React's `useState` mechanics are not modelled, and neither are overlapping `loadPosts` calls that race on a stale `posts` closure. These are asynchronous concurrency. Each press is one atomic step.
- A failed fetch or an unparsable response is an unhandled rejection in the source. It is not modelled.
- The post detail page, src/pages/post/[slug].tsx, is not part of this model.
