/** The documents and blocks the CMS delivers. Optional strings that the application only tests
    for truthiness are the empty string when absent; optional objects and arrays whose absence
    the application distinguishes are `Option`s. */
module PayloadTypes {
  import opened Wrappers
  import opened LexicalRenderer

  /** One generated rendition of an uploaded file. */
  datatype MediaSize = MediaSize(url: string)

  /** The renditions an upload may carry. */
  datatype Sizes = Sizes(thumbnail: Option<MediaSize>, card: Option<MediaSize>, feature: Option<MediaSize>)

  /** An uploaded file; an absent `width` or `height` is 0. */
  datatype Media = Media(id: string, alt: string, url: string, mimeType: string, width: int, height: int,
                         sizes: Option<Sizes>)

  datatype User = User(id: string, name: string, email: string)

  datatype Category = Category(id: string, title: string, slug: string)

  /** The `meta` group of a page or post. */
  datatype Seo = Seo(title: string, description: string, keywords: string, image: Option<Media>, noIndex: bool)

  /** The `value` of a link reference: an id only, or the populated document (of which the links
      use the slug). */
  datatype RefValue = RefId(id: string) | RefDoc(slug: string)

  datatype Reference = Reference(relationTo: string, value: RefValue)

  /** A link field: `reference` or `custom` (or anything else the data holds). */
  datatype Link = Link(linkType: string, reference: Option<Reference>, url: string, labelText: string,
                       appearance: string, newTab: bool)

  datatype HeroBlock = HeroBlock(id: string, heroType: string, richText: Option<LexicalData>,
                                 media: Option<Media>, links: seq<Link>)

  datatype ContentColumn = ContentColumn(size: string, richText: Option<LexicalData>, enableLink: bool,
                                         link: Option<Link>)

  datatype ContentBlock = ContentBlock(id: string, columns: Option<seq<ContentColumn>>)

  datatype MediaBlock = MediaBlock(id: string, position: string, media: Option<Media>,
                                   caption: Option<LexicalData>)

  datatype CtaBlock = CtaBlock(id: string, richText: Option<LexicalData>, links: seq<Link>)

  datatype ArchiveBlock = ArchiveBlock(
    id: string,
    populateBy: string,
    limit: int,
    selectedDocs: Option<seq<Post>>,
    categories: Option<seq<Category>>,
    populatedDocs: Option<seq<Post>>,
    populatedDocsTotal: int)

  /** A layout block, by its `blockType` discriminant; `OtherBlock` is a block whose
      `blockType` is none of the five the application knows. */
  datatype Block =
    | HeroB(hero: HeroBlock)
    | ContentB(content: ContentBlock)
    | MediaB(mediaBlock: MediaBlock)
    | CtaB(cta: CtaBlock)
    | ArchiveB(archive: ArchiveBlock)
    | OtherBlock(id: string, blockType: string)

  datatype Post = Post(
    id: string,
    title: string,
    slug: string,
    meta: Option<Seo>,
    hero: Option<HeroBlock>,
    layout: Option<seq<Block>>,
    categories: seq<Category>,
    publishedAt: string,
    populatedAuthors: Option<seq<User>>,
    relatedPosts: seq<Post>,
    updatedAt: string)

  datatype Page = Page(
    id: string,
    title: string,
    slug: string,
    meta: Option<Seo>,
    hero: Option<HeroBlock>,
    layout: Option<seq<Block>>)

  datatype Footer = Footer(navItems: Option<seq<Link>>)

  /** The part of a paginated list response the application reads. */
  datatype PayloadResponse<T> = PayloadResponse(docs: seq<T>, hasNextPage: bool)

  /** A search hit: a page or a post. */
  datatype SearchDoc = PageDoc(page: Page) | PostDoc(post: Post)

  datatype SearchResult = SearchResult(relationTo: string, doc: SearchDoc)

  /** An HTTP error as the components see it: the status, the server's `error.message` (empty
      when absent) and the error's own `message`. */
  datatype ApiError = ApiError(status: int, serverMessage: string, message: string)

  /** `error?.error?.message || fallback`: the server's message, else the page's own fallback. */
  function ServerMessageOr(e: ApiError, fallback: string): (r: string)
    ensures e.serverMessage != "" ==> r == e.serverMessage
    ensures e.serverMessage == "" ==> r == fallback
    ensures fallback != "" ==> r != ""
  {
    if e.serverMessage != "" then e.serverMessage else fallback
  }

  /** The outcome of a request: the response body, or an error. */
  datatype Outcome<T> = Success(value: T) | Failure(error: ApiError)

  /** The `blockType` of a block. */
  function BlockType(b: Block): string {
    match b
    case HeroB(_) => "hero"
    case ContentB(_) => "content"
    case MediaB(_) => "mediaBlock"
    case CtaB(_) => "cta"
    case ArchiveB(_) => "archive"
    case OtherBlock(_, t) => t
  }

  /** The slug, id, `meta`, `hero` and `layout` of a search hit, whichever kind it is. */
  function DocSlug(d: SearchDoc): string {
    match d
    case PageDoc(p) => p.slug
    case PostDoc(p) => p.slug
  }

  function DocId(d: SearchDoc): string {
    match d
    case PageDoc(p) => p.id
    case PostDoc(p) => p.id
  }

  function DocMeta(d: SearchDoc): Option<Seo> {
    match d
    case PageDoc(p) => p.meta
    case PostDoc(p) => p.meta
  }

  function DocHero(d: SearchDoc): Option<HeroBlock> {
    match d
    case PageDoc(p) => p.hero
    case PostDoc(p) => p.hero
  }

  function DocLayout(d: SearchDoc): Option<seq<Block>> {
    match d
    case PageDoc(p) => p.layout
    case PostDoc(p) => p.layout
  }

  /** `meta?.description`, or "" where there is none. */
  function MetaDescription(meta: Option<Seo>): string {
    if meta.Some? then meta.value.description else ""
  }
}
