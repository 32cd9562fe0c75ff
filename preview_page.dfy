/** The page preview: for a signed-in editor, the draft of a page by id, kept out of search
    indexes and marked as a preview. */
module PreviewPage {
  import opened Wrappers
  import opened Strings
  import opened PayloadTypes
  import SeoService
  import PreviewPost

  const PageDescriptionFallback := "Page preview"
  const PageErrorFallback := "Failed to load page preview. You may not have permission to view this content."

  /** The SEO data of a page preview: never indexed, of no declared type, described by its
      meta description or the fixed text. */
  function PagePreviewSeo(p: Page): (d: SeoService.SeoData)
    ensures d.title == PreviewPost.PreviewTitle(p.title) && d.noIndex && d.pageType == ""
    ensures MetaDescription(p.meta) != "" ==> d.description == MetaDescription(p.meta)
    ensures MetaDescription(p.meta) == "" ==> d.description == PageDescriptionFallback
  {
    var description := if MetaDescription(p.meta) != "" then MetaDescription(p.meta) else PageDescriptionFallback;
    SeoService.SeoData(PreviewPost.PreviewTitle(p.title), description, SeoService.NoImage, "", "", "", true, "", "", "")
  }

  /** `exitPreview()`'s route: the published page when the draft has a slug, else home. */
  function ExitRoute(p: Option<Page>): (route: string)
    ensures p.Some? && p.value.slug != "" ==> route == "/" + p.value.slug
    ensures !(p.Some? && p.value.slug != "") ==> route == "/"
    ensures StartsWith(route, "/")
  {
    if p.Some? && p.value.slug != "" then "/" + p.value.slug else "/"
  }

  class PreviewPageComponent {
    var page: Option<Page>
    var isLoading: bool
    var error: Option<string>
    var pageId: string
    /** The ids requested with `getPageById(id, true)`, the SEO data set, and the last
        navigation with its `returnUrl`. */
    var requests: seq<string>
    var seo: Option<SeoService.SeoData>
    var navigatedTo: Option<string>
    var returnUrl: Option<string>

    constructor()
      ensures page.None? && isLoading && error.None? && pageId == "" && requests == []
      ensures seo.None? && navigatedTo.None? && returnUrl.None?
    {
      page, isLoading, error, pageId := None, true, None, "";
      requests, seo, navigatedTo, returnUrl := [], None, None, None;
    }

    /** `ngOnInit()` without a session: the login page, told to come back to this URL. */
    method OnInitSignedOut(currentUrl: string)
      modifies this
      ensures navigatedTo == Some("/login") && returnUrl == Some(currentUrl)
      ensures page == old(page) && isLoading == old(isLoading) && error == old(error) && pageId == old(pageId)
      ensures requests == old(requests) && seo == old(seo)
    {
      navigatedTo := Some("/login");
      returnUrl := Some(currentUrl);
    }

    /** The route's parameters (with a session): nothing for an empty id, else loading starts
        and the draft is requested. */
    method OnRouteParams(id: string)
      modifies this
      ensures pageId == id
      ensures id == "" ==> isLoading == old(isLoading) && error == old(error) && requests == old(requests)
      ensures id != "" ==> isLoading && error.None? && requests == old(requests) + [id]
      ensures page == old(page) && seo == old(seo) && navigatedTo == old(navigatedTo) && returnUrl == old(returnUrl)
    {
      pageId := id;
      if pageId == "" {
        return;
      }
      isLoading := true;
      error := None;
      requests := requests + [id];
    }

    method OnPreviewLoaded(p: Page)
      modifies this
      ensures page == Some(p) && seo == Some(PagePreviewSeo(p)) && !isLoading
      ensures error == old(error) && pageId == old(pageId) && requests == old(requests)
      ensures navigatedTo == old(navigatedTo) && returnUrl == old(returnUrl)
    {
      page := Some(p);
      seo := Some(PagePreviewSeo(p));
      isLoading := false;
    }

    /** The error: the server's message, else the fixed permission message. */
    method OnPreviewFailed(e: ApiError)
      modifies this
      ensures error == Some(ServerMessageOr(e, PageErrorFallback)) && error.value != "" && !isLoading
      ensures page == old(page) && pageId == old(pageId) && requests == old(requests) && seo == old(seo)
      ensures navigatedTo == old(navigatedTo) && returnUrl == old(returnUrl)
    {
      error := Some(ServerMessageOr(e, PageErrorFallback));
      isLoading := false;
    }

    method ExitPreview()
      modifies this
      ensures navigatedTo == Some(ExitRoute(page))
      ensures page == old(page) && isLoading == old(isLoading) && error == old(error) && pageId == old(pageId)
      ensures requests == old(requests) && seo == old(seo) && returnUrl == old(returnUrl)
    {
      navigatedTo := Some(ExitRoute(page));
    }
  }
}
