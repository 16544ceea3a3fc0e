/**
 * The listing page's "load more" pagination (src/pages/index.tsx): a
 * continuation cursor and the ordered posts shown so far, seeded from the
 * build-time props and advanced one fetched page at a time.
 */
module Listing {
  import opened Options
  import opened Posts

  /** JavaScript truthiness of a `string | null`: present and not empty. */
  predicate Truthy(cursor: Option<string>)
  {
    cursor.Some? && cursor.value != ""
  }

  /** The two pieces of component state of the listing page. */
  datatype ListingState = ListingState(nextPage: Option<string>, posts: seq<PostSummary>)

  /**
   * The "load more" button is rendered exactly when the cursor is truthy:
   * the only falsy cursors are `null` and the empty string.
   */
  predicate LoadMoreShown(s: ListingState)
    ensures LoadMoreShown(s) <==> s.nextPage != None && s.nextPage != Some("")
  {
    Truthy(s.nextPage)
  }

  /** The state the listing starts in: the seeded props, as they are. */
  function Initial(props: PostPagination): (r: ListingState)
    ensures r.nextPage == props.nextPage && r.posts == props.results
  {
    ListingState(props.nextPage, props.results)
  }

  /**
   * The state after `loadPosts` has received the page `page`. The cursor is
   * replaced by the page's cursor before anything else; then the projection
   * of the page's first result alone is appended. A page without results has
   * no first result: reading its `uid` throws after the cursor was replaced,
   * so the posts stay as they were.
   */
  function AfterLoad(s: ListingState, page: PageResponse): (r: ListingState)
    ensures r.nextPage == page.nextPage
    ensures |page.results| > 0 ==> |r.posts| == |s.posts| + 1 && r.posts[|s.posts|] == Project(page.results[0])
    ensures |page.results| == 0 ==> r.posts == s.posts
    ensures r.posts[..|s.posts|] == s.posts
  {
    var cursorSet := ListingState(page.nextPage, s.posts);
    if |page.results| == 0 then cursorSet
    else cursorSet.(posts := s.posts + [Project(page.results[0])])
  }

  /** Only the first result of a page matters: the rest of the page is ignored. */
  lemma AfterLoadIgnoresLaterResults(s: ListingState, page: PageResponse, later: seq<RawPost>)
    requires |page.results| > 0
    ensures AfterLoad(s, page) == AfterLoad(s, page.(results := page.results[..1] + later))
  {
  }

  /** The cursor after a step is the page's, whatever the cursor was before. */
  lemma AfterLoadForgetsCursor(s: ListingState, t: ListingState, page: PageResponse)
    requires s.posts == t.posts
    ensures AfterLoad(s, page) == AfterLoad(t, page)
  {
  }

  /**
   * A session: the user presses "load more" once per page in `pages`, for as
   * long as the button is shown; page i is what the i-th press fetches.
   */
  function Session(s: ListingState, pages: seq<PageResponse>): (r: ListingState)
    ensures |s.posts| <= |r.posts| <= |s.posts| + |pages|
    ensures r.posts[..|s.posts|] == s.posts
    ensures !LoadMoreShown(s) ==> r == s
    decreases |pages|
  {
    if pages == [] || !LoadMoreShown(s) then s
    else Session(AfterLoad(s, pages[0]), pages[1..])
  }

  /**
   * A session in which every fetched page has results and every cursor but
   * possibly the last is truthy appends, in order, the projection of the first
   * result of each page, and ends on the last page's cursor.
   */
  lemma {:induction false} SessionAppendsFirsts(s: ListingState, pages: seq<PageResponse>)
    requires LoadMoreShown(s)
    requires forall i :: 0 <= i < |pages| ==> |pages[i].results| > 0
    requires forall i :: 0 <= i < |pages| - 1 ==> Truthy(pages[i].nextPage)
    ensures |Session(s, pages).posts| == |s.posts| + |pages|
    ensures forall i :: 0 <= i < |pages| ==>
      Session(s, pages).posts[|s.posts| + i] == Project(pages[i].results[0])
    ensures pages != [] ==> Session(s, pages).nextPage == pages[|pages| - 1].nextPage
    decreases |pages|
  {
    if pages != [] {
      var s' := AfterLoad(s, pages[0]);
      if |pages| == 1 {
        assert Session(s, pages) == s';
      } else {
        var rest := pages[1..];
        assert Session(s, pages) == Session(s', rest);
        SessionAppendsFirsts(s', rest);
        var r := Session(s', rest);
        forall i | 0 <= i < |pages|
          ensures r.posts[|s.posts| + i] == Project(pages[i].results[0])
        {
          if i == 0 {
            assert r.posts[..|s'.posts|] == s'.posts;
            assert r.posts[|s.posts|] == s'.posts[|s.posts|];
          } else {
            assert rest[i - 1] == pages[i];
            assert r.posts[|s'.posts| + (i - 1)] == Project(rest[i - 1].results[0]);
          }
        }
      }
    }
  }

  /**
   * The listing page's component state. A press of "load more" is one atomic
   * step; the fetch of the cursor URL is replaced by the page it returned.
   */
  class Home {
    var nextPage: Option<string>
    var posts: seq<PostSummary>

    /** The state as a value. */
    function State(): ListingState
      reads this
    {
      ListingState(nextPage, posts)
    }

    /** The component starts from its props. */
    constructor (props: PostPagination)
      ensures State() == Initial(props)
    {
      nextPage := props.nextPage;
      posts := props.results;
    }

    /** The "load more" button is rendered. */
    predicate ShowsLoadMore()
      reads this
    {
      LoadMoreShown(State())
    }

    /**
     * `loadPosts`, given the parsed page `json` that the cursor URL returned.
     * `ok` is false when the handler throws because the page has no results.
     */
    method LoadMore(json: PageResponse) returns (ok: bool)
      requires ShowsLoadMore()
      modifies this
      ensures State() == AfterLoad(old(State()), json)
      ensures ok <==> |json.results| > 0
    {
      var first := if |json.results| > 0 then Some(json.results[0]) else None;
      nextPage := json.nextPage;
      if first.None? {
        ok := false;
        return;
      }
      posts := posts + [Project(first.value)];
      ok := true;
    }
  }

  /**
   * A client: the first page holds p1 and a cursor to a second page, which
   * holds p2 and no cursor.
   */
  method TwoPageScenario(p1: RawPost, p2: RawPost)
    requires p1.uid == Uid("p1") && p2.uid == Uid("p2")
  {
    var props := Seed(PageResponse([p1], Some("https://api/page2")));
    var home := new Home(props);
    assert |home.posts| == 1 && home.ShowsLoadMore();
    var ok := home.LoadMore(PageResponse([p2], None));
    assert ok && |home.posts| == 2 && !home.ShowsLoadMore();
    assert home.posts[0].uid == Uid("p1") && home.posts[1].uid == Uid("p2");
    assert PostHref(home.posts[1].uid) == "/post/p2";
  }
}
