/**
 * The documents of the blog's listing page (src/pages/index.tsx): the raw
 * post document delivered by the content API, the post summary the page keeps,
 * the projection between them, the build-time seeding of the listing and the
 * link each listed post points to.
 */
module Posts {
  import opened Options

  /** One block of a post body: a heading and its rich-text paragraphs. */
  datatype ContentBlock = ContentBlock(heading: string, body: seq<string>)

  /** The `data` part of a raw post document as the content API returns it. */
  datatype RawData = RawData(
    title: string,
    subtitle: string,
    author: string,
    bannerUrl: string,
    content: seq<ContentBlock>)

  /**
   * A document's `uid` as JavaScript sees it: a string, `null`, or a key that
   * is not there at all (`undefined`).
   */
  datatype Uid = Uid(value: string) | NullUid | MissingUid

  /** A raw post document (`first_publication_date` may be `null`). */
  datatype RawPost = RawPost(
    uid: Uid,
    firstPublicationDate: Option<string>,
    data: RawData)

  /** The listing fields of a post summary. */
  datatype SummaryData = SummaryData(title: string, subtitle: string, author: string)

  /** A post summary as the listing page stores it (the `Post` interface). */
  datatype PostSummary = PostSummary(
    uid: Uid,
    firstPublicationDate: Option<string>,
    data: SummaryData)

  /** One page of documents: the response of `getByType` and of a continuation fetch. */
  datatype PageResponse = PageResponse(results: seq<RawPost>, nextPage: Option<string>)

  /** The listing's props (the `PostPagination` interface). */
  datatype PostPagination = PostPagination(nextPage: Option<string>, results: seq<PostSummary>)

  /** Two raw documents agree on every field the listing shows. */
  predicate SameListingFields(a: RawPost, b: RawPost)
  {
    a.uid == b.uid && a.firstPublicationDate == b.firstPublicationDate &&
    a.data.title == b.data.title && a.data.subtitle == b.data.subtitle &&
    a.data.author == b.data.author
  }

  /** The projection of a raw document onto a post summary. */
  function Project(raw: RawPost): (r: PostSummary)
    ensures r.uid == raw.uid && r.firstPublicationDate == raw.firstPublicationDate
    ensures r.data.title == raw.data.title && r.data.subtitle == raw.data.subtitle
    ensures r.data.author == raw.data.author
  {
    PostSummary(raw.uid, raw.firstPublicationDate,
                SummaryData(raw.data.title, raw.data.subtitle, raw.data.author))
  }

  /**
   * The summary depends on the kept fields only, and it keeps all of them:
   * two documents have the same summary exactly when they agree on the
   * listing fields, whatever their banner and content.
   */
  lemma ProjectKeepsExactlyListingFields(a: RawPost, b: RawPost)
    ensures Project(a) == Project(b) <==> SameListingFields(a, b)
  {
  }

  /** A raw document built around a summary, with any banner and content. */
  function Expand(s: PostSummary, bannerUrl: string, content: seq<ContentBlock>): RawPost
  {
    RawPost(s.uid, s.firstPublicationDate,
            RawData(s.data.title, s.data.subtitle, s.data.author, bannerUrl, content))
  }

  /** Projecting a document built around a summary gives that summary back. */
  lemma ProjectExpand(s: PostSummary, bannerUrl: string, content: seq<ContentBlock>)
    ensures Project(Expand(s, bannerUrl, content)) == s
  {
  }

  /** `results.map(...)`: the projection of every document, in order. */
  function ProjectAll(raws: seq<RawPost>): (r: seq<PostSummary>)
    ensures |r| == |raws|
    ensures forall i :: 0 <= i < |raws| ==> r[i] == Project(raws[i])
  {
    if raws == [] then [] else [Project(raws[0])] + ProjectAll(raws[1..])
  }

  /**
   * `getStaticProps`: the props of the listing page, built from the first
   * page of posts fetched at build time.
   */
  function Seed(response: PageResponse): (r: PostPagination)
    ensures r.nextPage == response.nextPage
    ensures |r.results| == |response.results|
    ensures forall i :: 0 <= i < |response.results| ==> r.results[i] == Project(response.results[i])
  {
    PostPagination(response.nextPage, ProjectAll(response.results))
  }

  /**
   * The text a template literal gives for a uid: the string itself, "null"
   * for `null` and "undefined" for a missing key.
   */
  function UidText(uid: Uid): (r: string)
    ensures uid.Uid? ==> r == uid.value
    ensures uid.NullUid? ==> r == "null"
    ensures uid.MissingUid? ==> r == "undefined"
  {
    match uid
    case Uid(u) => u
    case NullUid => "null"
    case MissingUid => "undefined"
  }

  /**
   * The rendering is not one-to-one: a `null` uid and a missing one read
   * the same as the strings "null" and "undefined" respectively.
   */
  lemma UidTextNotInjective()
    ensures UidText(NullUid) == UidText(Uid("null"))
    ensures UidText(MissingUid) == UidText(Uid("undefined"))
  {
  }

  /** The link of a listed post: the route `/post/{uid}`. */
  function PostHref(uid: Uid): (r: string)
    ensures |r| >= 6 && r[..6] == "/post/"
    ensures r[6..] == UidText(uid)
  {
    "/post/" + UidText(uid)
  }

  /** Two links are equal exactly when the uids read the same in the link. */
  lemma PostHrefInjective(a: Uid, b: Uid)
    ensures PostHref(a) == PostHref(b) <==> UidText(a) == UidText(b)
  {
  }
}
