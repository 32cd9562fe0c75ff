/** The post preview page: for a signed-in editor, the draft of a post by id, kept out of search
    indexes and marked as a preview. Its author initials come from `Initials.AuthorInitials`. */
module PreviewPost {
  import opened Wrappers
  import opened Strings
  import opened PayloadTypes
  import SeoService

  const PostDescriptionFallback := "Blog post preview"
  const PostErrorFallback := "Failed to load post preview. You may not have permission to view this content."

  /** The title of a preview: the document's title followed by ` (Preview)`. */
  function PreviewTitle(title: string): (r: string)
    ensures StartsWith(r, title) && EndsWith(r, " (Preview)")
    ensures |r| == |title| + 10
  {
    assert (title + " (Preview)")[..|title|] == title;
    title + " (Preview)"
  }

  /** The SEO data of a post preview: never indexed, an article, described by its meta
      description or the fixed text. */
  function PostPreviewSeo(p: Post): (d: SeoService.SeoData)
    ensures d.title == PreviewTitle(p.title) && d.noIndex && d.pageType == "article"
    ensures MetaDescription(p.meta) != "" ==> d.description == MetaDescription(p.meta)
    ensures MetaDescription(p.meta) == "" ==> d.description == PostDescriptionFallback
  {
    var description := if MetaDescription(p.meta) != "" then MetaDescription(p.meta) else PostDescriptionFallback;
    SeoService.SeoData(PreviewTitle(p.title), description, SeoService.NoImage, "", "article", "", true, "", "", "")
  }

  /** `exitPreview()`'s route: the published post when the draft has a slug, else the blog. */
  function ExitRoute(p: Option<Post>): (route: string)
    ensures p.Some? && p.value.slug != "" ==> route == "/blog/" + p.value.slug
    ensures !(p.Some? && p.value.slug != "") ==> route == "/blog"
    ensures StartsWith(route, "/blog")
  {
    if p.Some? && p.value.slug != "" then
      assert ("/blog/" + p.value.slug)[..5] == "/blog";
      "/blog/" + p.value.slug
    else "/blog"
  }

  /** `/admin/collections/posts/<id>`, opened by `openInAdmin()` in a new window. */
  function AdminUrl(p: Post): (url: string)
    ensures EndsWith(url, p.id) && StartsWith(url, "/admin/collections/posts/")
  {
    var prefix := "/admin/collections/posts/";
    assert (prefix + p.id)[..|prefix|] == prefix && (prefix + p.id)[|prefix|..] == p.id;
    prefix + p.id
  }

  class PreviewPostComponent {
    var post: Option<Post>
    var isLoading: bool
    var error: Option<string>
    var postId: string
    /** The ids requested with `getPostById(id, true)`, the SEO data set, the last navigation
        and its `returnUrl`, and the windows opened. */
    var requests: seq<string>
    var seo: Option<SeoService.SeoData>
    var navigatedTo: Option<string>
    var returnUrl: Option<string>
    var openedWindows: seq<string>

    constructor()
      ensures post.None? && isLoading && error.None? && postId == "" && requests == []
      ensures seo.None? && navigatedTo.None? && returnUrl.None? && openedWindows == []
    {
      post, isLoading, error, postId := None, true, None, "";
      requests, seo, navigatedTo, returnUrl, openedWindows := [], None, None, None, [];
    }

    /** `ngOnInit()` without a session: the login page, told to come back to this URL. */
    method OnInitSignedOut(currentUrl: string)
      modifies this
      ensures navigatedTo == Some("/login") && returnUrl == Some(currentUrl)
      ensures post == old(post) && isLoading == old(isLoading) && error == old(error) && postId == old(postId)
      ensures requests == old(requests) && seo == old(seo) && openedWindows == old(openedWindows)
    {
      navigatedTo := Some("/login");
      returnUrl := Some(currentUrl);
    }

    /** The route's parameters (with a session): the id is kept and `loadPreview()` runs, which
        does nothing for an empty id and otherwise starts loading and requests the draft. */
    method OnRouteParams(id: string)
      modifies this
      ensures postId == id
      ensures id == "" ==> isLoading == old(isLoading) && error == old(error) && requests == old(requests)
      ensures id != "" ==> isLoading && error.None? && requests == old(requests) + [id]
      ensures post == old(post) && seo == old(seo) && navigatedTo == old(navigatedTo)
      ensures returnUrl == old(returnUrl) && openedWindows == old(openedWindows)
    {
      postId := id;
      if postId == "" {
        return;
      }
      isLoading := true;
      error := None;
      requests := requests + [id];
    }

    method OnPreviewLoaded(p: Post)
      modifies this
      ensures post == Some(p) && seo == Some(PostPreviewSeo(p)) && !isLoading
      ensures error == old(error) && postId == old(postId) && requests == old(requests)
      ensures navigatedTo == old(navigatedTo) && returnUrl == old(returnUrl) && openedWindows == old(openedWindows)
    {
      post := Some(p);
      seo := Some(PostPreviewSeo(p));
      isLoading := false;
    }

    /** The error: the server's message, else the fixed permission message. */
    method OnPreviewFailed(e: ApiError)
      modifies this
      ensures error == Some(ServerMessageOr(e, PostErrorFallback)) && error.value != "" && !isLoading
      ensures post == old(post) && postId == old(postId) && requests == old(requests) && seo == old(seo)
      ensures navigatedTo == old(navigatedTo) && returnUrl == old(returnUrl) && openedWindows == old(openedWindows)
    {
      error := Some(ServerMessageOr(e, PostErrorFallback));
      isLoading := false;
    }

    method ExitPreview()
      modifies this
      ensures navigatedTo == Some(ExitRoute(post))
      ensures post == old(post) && isLoading == old(isLoading) && error == old(error) && postId == old(postId)
      ensures requests == old(requests) && seo == old(seo) && returnUrl == old(returnUrl)
      ensures openedWindows == old(openedWindows)
    {
      navigatedTo := Some(ExitRoute(post));
    }

    /** `openInAdmin()`: the draft's admin page, when a draft is loaded. */
    method OpenInAdmin()
      modifies this
      ensures post.Some? ==> openedWindows == old(openedWindows) + [AdminUrl(post.value)]
      ensures post.None? ==> openedWindows == old(openedWindows)
      ensures post == old(post) && isLoading == old(isLoading) && error == old(error) && postId == old(postId)
      ensures requests == old(requests) && seo == old(seo) && navigatedTo == old(navigatedTo)
      ensures returnUrl == old(returnUrl)
    {
      if post.Some? {
        openedWindows := openedWindows + [AdminUrl(post.value)];
      }
    }
  }
}
