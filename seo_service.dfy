/** The values the SEO service derives for a page: the document title, the meta tags, the image
    URL and alt text, the plain-text description drawn from rich text, and the structured-data
    object. The writes of these values into the document head are not modelled. */
module SeoService {
  import opened Wrappers
  import opened Strings
  import opened LexicalRenderer
  import opened PayloadTypes

  const DefaultTitle := "My Payload Website"
  const DefaultDescription := "A modern website built with Payload CMS and Angular"
  const DefaultImage := "/assets/images/og-default.jpg"
  const SiteUrl := "https://yourdomain.com"
  /** The length past which a rich-text description is cut. */
  const DescriptionLength := 160

  /** The `image` of the SEO data: absent, a URL string, or an uploaded file. */
  datatype ImageRef = NoImage | ImageUrl(url: string) | ImageMedia(media: Media)

  /** The argument of `updateSEO`; absent strings are "" and an absent `noIndex` is false. */
  datatype SeoData = SeoData(
    title: string,
    description: string,
    image: ImageRef,
    url: string,
    pageType: string,
    keywords: string,
    noIndex: bool,
    publishedAt: string,
    modifiedAt: string,
    author: string)

  /** The JSON-LD object: an `Article` or a `WebSite`. A "" string stands for a property whose
      value is `undefined`, which `JSON.stringify` leaves out. */
  datatype StructuredData =
    | Article(headline: string, description: string, image: string, url: string,
              datePublished: string, dateModified: string, author: Option<string>)
    | WebSite(name: string, description: string, url: string, image: string)

  /** The `article:` tags `setArticleTags` writes: each date's time value (the tag holds its
      ISO form) and the author, each `None` when not written. */
  datatype ArticleTags = ArticleTags(publishedTime: Option<int>, modifiedTime: Option<int>, author: Option<string>)

  /** The tags `setArticleTags` wrote, and whether it returned instead of throwing. */
  datatype ArticleOutcome = ArticleOutcome(tags: ArticleTags, completed: bool)

  /** What `updateSEO` writes: the document title, the meta tags, the canonical URL, the Open
      Graph and Twitter values (with the image's width and height, when written), the article
      tags of an article, and the JSON-LD object. The JSON-LD object is `None` when
      `setArticleTags` threw, since `updateSEO` stops there. */
  datatype SeoTags = SeoTags(
    documentTitle: string,
    description: string,
    keywords: Option<string>,
    robots: string,
    canonical: Option<string>,
    socialTitle: string,
    ogType: string,
    ogUrl: Option<string>,
    imageUrl: string,
    imageAlt: string,
    imageSize: Option<(string, string)>,
    articleTags: Option<ArticleTags>,
    structured: Option<StructuredData>)

  /** The document title: the page's title followed by the site name, or the site name alone. */
  function DocumentTitle(title: string): (r: string)
    ensures title != "" ==> r == title + " | " + DefaultTitle
    ensures title == "" ==> r == DefaultTitle
    ensures EndsWith(r, DefaultTitle)
  {
    if title != "" then title + " | " + DefaultTitle else DefaultTitle
  }

  function DescriptionOrDefault(description: string): (r: string)
    ensures r != ""
    ensures description != "" ==> r == description
    ensures description == "" ==> r == DefaultDescription
  {
    if description != "" then description else DefaultDescription
  }

  /** The `robots` meta tag. */
  function Robots(noIndex: bool): (r: string)
    ensures r == "noindex, nofollow" <==> noIndex
    ensures !noIndex ==> r == "index, follow"
  {
    if noIndex then "noindex, nofollow" else "index, follow"
  }

  /** An absolute URL: unchanged when it starts with "http", else prefixed with the site URL. */
  function Absolute(url: string): (r: string)
    ensures StartsWith(url, "http") ==> r == url
    ensures !StartsWith(url, "http") ==> r == SiteUrl + url
    ensures StartsWith(r, "http")
  {
    if StartsWith(url, "http") then url else SiteUrl + url
  }

  /** `getImageUrl(image)`: a string or the file's non-empty `url`, made absolute, else the
      default image under the site URL. The result always starts with "http". */
  function ImageUrlOf(image: ImageRef): (r: string)
    ensures StartsWith(r, "http")
    ensures image.ImageUrl? ==> r == Absolute(image.url)
    ensures image.ImageMedia? && image.media.url != "" ==> r == Absolute(image.media.url)
    ensures image.NoImage? || (image.ImageMedia? && image.media.url == "") ==> r == SiteUrl + DefaultImage
  {
    match image
    case ImageUrl(s) => Absolute(s)
    case ImageMedia(m) => if m.url != "" then Absolute(m.url) else SiteUrl + DefaultImage
    case NoImage => SiteUrl + DefaultImage
  }

  /** `getImageAlt(image)`: a file's non-empty `alt`, else "Page image". */
  function ImageAltOf(image: ImageRef): (r: string)
    ensures r != ""
    ensures r != "Page image" ==> image.ImageMedia? && r == image.media.alt
    ensures image.ImageMedia? && image.media.alt != "" ==> r == image.media.alt
  {
    if image.ImageMedia? && image.media.alt != "" then image.media.alt else "Page image"
  }

  /** `extractTextFromLexical(data)`: the root's children's texts joined by spaces and trimmed,
      cut after 160 characters with "..." appended. */
  function ExtractTextFromLexical(data: Option<LexicalData>): (r: string)
    ensures data.None? || data.value.root.None? ==> r == ""
    ensures |r| <= DescriptionLength + 3
    ensures data.Some? && data.value.root.Some? ==>
              var text := Trim(Join(ExtractAll(data.value.root.value.children), " "));
              (|text| <= DescriptionLength ==> r == text) &&
              (|text| > DescriptionLength ==> r == text[..DescriptionLength] + "..." && |r| == DescriptionLength + 3)
  {
    if data.None? || data.value.root.None? then ""
    else
      var text := Trim(Join(ExtractAll(data.value.root.value.children), " "));
      if |text| > DescriptionLength then text[..DescriptionLength] + "..." else text
  }

  /** The SEO text of a document is its plain text (as the renderer extracts it), trimmed, and
      cut at 160 characters; a short one is the whole trimmed plain text. */
  lemma SeoTextIsTrimmedPlainText(data: LexicalData)
    requires data.root.Some? && data.root.value.nodeType != "text"
    ensures var plain := Trim(RenderAsPlainText(Some(data)));
      var r := ExtractTextFromLexical(Some(data));
      (|plain| <= DescriptionLength ==> r == plain) &&
      (|plain| > DescriptionLength ==> r == plain[..DescriptionLength] + "...")
  {
  }

  /** The structured data built by `setStructuredData`. */
  function Structured(data: SeoData): (r: StructuredData)
    ensures data.pageType == "article" <==> r.Article?
    ensures r.Article? ==>
              r.headline == (if data.title != "" then data.title else DefaultTitle) &&
              r.dateModified == (if data.modifiedAt != "" then data.modifiedAt else data.publishedAt) &&
              r.datePublished == data.publishedAt &&
              (r.author.None? <==> data.author == "") &&
              (r.author.Some? ==> r.author.value == data.author) &&
              r.url == data.url
    ensures r.WebSite? ==>
              r.name == (if data.title != "" then data.title else DefaultTitle) &&
              r.url == (if data.url != "" then data.url else SiteUrl) && r.url != ""
    ensures r.description == DescriptionOrDefault(data.description)
    ensures r.image == ImageUrlOf(data.image)
  {
    var title := if data.title != "" then data.title else DefaultTitle;
    var description := DescriptionOrDefault(data.description);
    var pageType := if data.pageType != "" then data.pageType else "website";
    if pageType == "article" then
      Article(title, description, ImageUrlOf(data.image), data.url, data.publishedAt,
              if data.modifiedAt != "" then data.modifiedAt else data.publishedAt,
              if data.author != "" then Some(data.author) else None)
    else
      WebSite(title, description, if data.url != "" then data.url else SiteUrl, ImageUrlOf(data.image))
  }

  /** The `og:image:width` and `og:image:height` values: written only for an uploaded file
      with both dimensions. */
  function ImageSize(image: ImageRef): (size: Option<(string, string)>)
    ensures size.Some? <==> image.ImageMedia? && image.media.width != 0 && image.media.height != 0
    ensures size.Some? ==> size.value == (IntToString(image.media.width), IntToString(image.media.height))
  {
    if image.ImageMedia? && image.media.width != 0 && image.media.height != 0 then
      Some((IntToString(image.media.width), IntToString(image.media.height)))
    else None
  }

  /** `new Date(s).toISOString()` throws a `RangeError` for a non-empty date string whose time
      value is NaN; `parse` gives the time value of `new Date(s)`, `None` for NaN. */
  predicate BadDate(s: string, parse: string -> Option<int>) {
    s != "" && parse(s).None?
  }

  /** `setArticleTags`: each truthy date converted and written in turn, then a truthy author.
      A bad date throws, so nothing after it is written. */
  function SetArticleTags(data: SeoData, parse: string -> Option<int>): (r: ArticleOutcome)
    ensures r.completed <==> !BadDate(data.publishedAt, parse) && !BadDate(data.modifiedAt, parse)
    ensures r.tags.publishedTime.Some? <==> data.publishedAt != "" && !BadDate(data.publishedAt, parse)
    ensures r.tags.publishedTime.Some? ==> parse(data.publishedAt) == r.tags.publishedTime
    ensures r.tags.modifiedTime.Some? <==>
              data.modifiedAt != "" && !BadDate(data.publishedAt, parse) && !BadDate(data.modifiedAt, parse)
    ensures r.tags.modifiedTime.Some? ==> parse(data.modifiedAt) == r.tags.modifiedTime
    ensures r.tags.author.Some? <==> r.completed && data.author != ""
    ensures r.tags.author.Some? ==> r.tags.author.value == data.author
  {
    var published := if data.publishedAt != "" then parse(data.publishedAt) else None;
    if BadDate(data.publishedAt, parse) then ArticleOutcome(ArticleTags(None, None, None), false)
    else
      var modified := if data.modifiedAt != "" then parse(data.modifiedAt) else None;
      if BadDate(data.modifiedAt, parse) then ArticleOutcome(ArticleTags(published, None, None), false)
      else
        ArticleOutcome(ArticleTags(published, modified, if data.author != "" then Some(data.author) else None), true)
  }

  /** `updateSEO(data)`: nothing outside a browser, else the values written. `parse` is the time
      value of `new Date(s)` for the article dates. */
  function UpdateSeo(data: SeoData, isBrowser: bool, parse: string -> Option<int>): (r: Option<SeoTags>)
    ensures !isBrowser <==> r.None?
    ensures r.Some? ==>
              var t := r.value;
              t.documentTitle == DocumentTitle(data.title) &&
              t.description == DescriptionOrDefault(data.description) &&
              (t.keywords.Some? <==> data.keywords != "") && (t.keywords.Some? ==> t.keywords.value == data.keywords) &&
              t.robots == Robots(data.noIndex) &&
              (t.canonical.Some? <==> data.url != "") && (t.canonical.Some? ==> t.canonical.value == data.url) &&
              t.ogUrl == t.canonical &&
              t.socialTitle == (if data.title != "" then data.title else DefaultTitle) &&
              t.ogType == (if data.pageType != "" then data.pageType else "website") &&
              t.imageUrl == ImageUrlOf(data.image) && t.imageAlt == ImageAltOf(data.image) &&
              t.imageSize == ImageSize(data.image)
    ensures r.Some? ==>
              (r.value.articleTags.Some? <==> data.pageType == "article") &&
              (r.value.articleTags.Some? ==> r.value.articleTags.value == SetArticleTags(data, parse).tags)
    ensures r.Some? ==>
              (r.value.structured.None? <==>
                 data.pageType == "article" && (BadDate(data.publishedAt, parse) || BadDate(data.modifiedAt, parse))) &&
              (r.value.structured.Some? ==> r.value.structured.value == Structured(data))
  {
    if !isBrowser then None
    else
      var url := if data.url != "" then Some(data.url) else None;
      var article := if data.pageType == "article" then Some(SetArticleTags(data, parse)) else None;
      var completed := article.None? || article.value.completed;
      Some(SeoTags(
        DocumentTitle(data.title),
        DescriptionOrDefault(data.description),
        if data.keywords != "" then Some(data.keywords) else None,
        Robots(data.noIndex),
        url,
        if data.title != "" then data.title else DefaultTitle,
        if data.pageType != "" then data.pageType else "website",
        url,
        ImageUrlOf(data.image),
        ImageAltOf(data.image),
        ImageSize(data.image),
        if article.Some? then Some(article.value.tags) else None,
        if completed then Some(Structured(data)) else None))
  }

  /** The `meta` group's values, with `{}` standing in for an absent group. */
  function SeoTitle(meta: Option<Seo>): string { if meta.Some? then meta.value.title else "" }
  function SeoKeywords(meta: Option<Seo>): string { if meta.Some? then meta.value.keywords else "" }
  function SeoNoIndex(meta: Option<Seo>): bool { meta.Some? && meta.value.noIndex }

  /** `seo.image || hero?.media`. */
  function SeoImage(meta: Option<Seo>, hero: Option<HeroBlock>): (r: ImageRef)
    ensures meta.Some? && meta.value.image.Some? ==> r == ImageMedia(meta.value.image.value)
    ensures (meta.None? || meta.value.image.None?) && hero.Some? && hero.value.media.Some? ==>
              r == ImageMedia(hero.value.media.value)
    ensures r.NoImage? <==> (meta.None? || meta.value.image.None?) && (hero.None? || hero.value.media.None?)
  {
    if meta.Some? && meta.value.image.Some? then ImageMedia(meta.value.image.value)
    else if hero.Some? && hero.value.media.Some? then ImageMedia(hero.value.media.value)
    else NoImage
  }

  function HeroText(hero: Option<HeroBlock>): string {
    ExtractTextFromLexical(if hero.Some? then hero.value.richText else None)
  }

  /** `updateSEOFromPage(page, currentUrl)`: the data passed on to `updateSEO`. */
  function FromPage(page: Page, currentUrl: string): (d: SeoData)
    ensures d.title == (if SeoTitle(page.meta) != "" then SeoTitle(page.meta) else page.title)
    ensures d.description == (if MetaDescription(page.meta) != "" then MetaDescription(page.meta) else HeroText(page.hero))
    ensures d.url == (if currentUrl != "" then currentUrl else SiteUrl + "/" + page.slug)
    ensures d.pageType == "website" && d.noIndex == SeoNoIndex(page.meta)
    ensures d.image == SeoImage(page.meta, page.hero)
  {
    SeoData(
      if SeoTitle(page.meta) != "" then SeoTitle(page.meta) else page.title,
      if MetaDescription(page.meta) != "" then MetaDescription(page.meta) else HeroText(page.hero),
      SeoImage(page.meta, page.hero),
      if currentUrl != "" then currentUrl else SiteUrl + "/" + page.slug,
      "website",
      SeoKeywords(page.meta),
      SeoNoIndex(page.meta),
      "", "", "")
  }

  /** The first populated author's name, or "". */
  function FirstAuthorName(authors: Option<seq<User>>): string {
    if authors.Some? && |authors.value| > 0 then authors.value[0].name else ""
  }

  /** `updateSEOFromPost(post, currentUrl)`: the data passed on to `updateSEO`. */
  function FromPost(post: Post, currentUrl: string): (d: SeoData)
    ensures d.title == (if SeoTitle(post.meta) != "" then SeoTitle(post.meta) else post.title)
    ensures d.description == (if MetaDescription(post.meta) != "" then MetaDescription(post.meta) else HeroText(post.hero))
    ensures d.url == (if currentUrl != "" then currentUrl else SiteUrl + "/blog/" + post.slug)
    ensures d.pageType == "article"
    ensures d.publishedAt == post.publishedAt && d.modifiedAt == post.updatedAt
    ensures d.author == FirstAuthorName(post.populatedAuthors)
    ensures d.image == SeoImage(post.meta, post.hero)
  {
    SeoData(
      if SeoTitle(post.meta) != "" then SeoTitle(post.meta) else post.title,
      if MetaDescription(post.meta) != "" then MetaDescription(post.meta) else HeroText(post.hero),
      SeoImage(post.meta, post.hero),
      if currentUrl != "" then currentUrl else SiteUrl + "/blog/" + post.slug,
      "article",
      SeoKeywords(post.meta),
      SeoNoIndex(post.meta),
      post.publishedAt, post.updatedAt,
      FirstAuthorName(post.populatedAuthors))
  }

  /** A post's structured data is an `Article` modified when the post was last updated, or when
      it was published if it never was. */
  lemma PostStructuredData(post: Post, currentUrl: string)
    ensures var s := Structured(FromPost(post, currentUrl));
      s.Article? &&
      s.dateModified == (if post.updatedAt != "" then post.updatedAt else post.publishedAt) &&
      (s.author.None? <==> FirstAuthorName(post.populatedAuthors) == "")
  {
  }

  /** A page's structured data is a `WebSite` whose URL is never empty. */
  lemma PageStructuredData(page: Page, currentUrl: string)
    ensures var s := Structured(FromPage(page, currentUrl));
      s.WebSite? && s.url == (if currentUrl != "" then currentUrl else SiteUrl + "/" + page.slug)
  {
  }
}
