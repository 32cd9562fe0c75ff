/** The post page: the post of the route's slug, its SEO data, and at most three related posts.
    Its image URLs come from `MediaUrls.CardImageUrl` and its author initials from
    `Initials.AuthorInitials`. */
module BlogPost {
  import opened Wrappers
  import opened PayloadTypes
  import SeoService

  /** At most this many related posts are shown. */
  const MaxRelated := 3

  /** `relatedPosts.slice(0, 3)`: the first three related posts, in order. */
  function ShownRelated(post: Post): (r: seq<Post>)
    ensures |r| == (if |post.relatedPosts| < MaxRelated then |post.relatedPosts| else MaxRelated)
    ensures r == post.relatedPosts[..|r|]
  {
    if |post.relatedPosts| < MaxRelated then post.relatedPosts else post.relatedPosts[..MaxRelated]
  }

  /** The related post image's alternative text: the media's, else the post's title. */
  function RelatedImageAlt(related: Post): (alt: Option<string>)
    ensures alt.Some? <==> related.hero.Some? && related.hero.value.media.Some?
    ensures alt.Some? && related.hero.value.media.value.alt != "" ==> alt.value == related.hero.value.media.value.alt
    ensures alt.Some? && related.hero.value.media.value.alt == "" ==> alt.value == related.title
  {
    if related.hero.Some? && related.hero.value.media.Some? then
      var m := related.hero.value.media.value;
      Some(if m.alt != "" then m.alt else related.title)
    else None
  }

  /** The page URL passed with the post to the SEO service. */
  function PostPath(slug: string): (path: string)
    ensures path == "/blog/" + slug
  {
    "/blog/" + slug
  }

  class BlogPostComponent {
    var post: Option<Post>
    var isLoading: bool
    var slug: string
    /** The slugs requested with `getPostBySlug`, the SEO data last set, the last navigation. */
    var requests: seq<string>
    var seo: Option<SeoService.SeoData>
    var navigatedTo: Option<string>

    constructor()
      ensures post.None? && isLoading && slug == "" && requests == [] && seo.None? && navigatedTo.None?
    {
      post := None;
      isLoading := true;
      slug := "";
      requests := [];
      seo := None;
      navigatedTo := None;
    }

    /** The route's parameters: the slug is kept and `loadPost()` runs, which does nothing for
        an empty slug and otherwise starts loading and requests the post. */
    method OnRouteParams(routeSlug: string)
      modifies this
      ensures slug == routeSlug
      ensures routeSlug == "" ==> isLoading == old(isLoading) && requests == old(requests)
      ensures routeSlug != "" ==> isLoading && requests == old(requests) + [routeSlug]
      ensures post == old(post) && seo == old(seo) && navigatedTo == old(navigatedTo)
    {
      slug := routeSlug;
      if slug == "" {
        return;
      }
      isLoading := true;
      requests := requests + [slug];
    }

    /** The response: a post is shown and its SEO data set; no post leaves the page as it was.
        Loading stops either way. */
    method OnPostLoaded(response: Option<Post>)
      modifies this
      ensures !isLoading
      ensures response.Some? ==> post == response && seo == Some(SeoService.FromPost(response.value, PostPath(slug)))
      ensures response.None? ==> post == old(post) && seo == old(seo)
      ensures slug == old(slug) && requests == old(requests) && navigatedTo == old(navigatedTo)
    {
      if response.Some? {
        post := response;
        seo := Some(SeoService.FromPost(response.value, PostPath(slug)));
      }
      isLoading := false;
    }

    /** An error opens the not-found page. */
    method OnPostFailed()
      modifies this
      ensures !isLoading && navigatedTo == Some("/404")
      ensures post == old(post) && seo == old(seo) && slug == old(slug) && requests == old(requests)
    {
      isLoading := false;
      navigatedTo := Some("/404");
    }
  }
}
