/** Where a CMS link points: `getLinkUrl`, which the header, the footer and the hero, call-to-action
    and content blocks each carry in the same form. */
module Links {
  import opened Wrappers
  import opened Strings
  import opened PayloadTypes
  import UrlUtils

  /** The route of a document: `/blog/<slug>` for a post, `/<slug>` for anything else. */
  function DocumentPath(relationTo: string, slug: string): (path: string)
    ensures relationTo == "posts" ==> path == "/blog/" + slug
    ensures relationTo != "posts" ==> path == "/" + slug
  {
    if relationTo == "posts" then "/blog/" + slug else "/" + slug
  }

  /** The slug a link reference carries, when the reference is populated with a document that
      has a non-empty slug. */
  function LinkedSlug(link: Link): (s: Option<string>)
    ensures s.Some? <==>
              (link.linkType == "reference" && link.reference.Some? &&
               link.reference.value.value.RefDoc? && link.reference.value.value.slug != "")
    ensures s.Some? ==> s.value == link.reference.value.value.slug
  {
    if link.linkType == "reference" && link.reference.Some? then
      match link.reference.value.value
      case RefDoc(slug) => if slug != "" then Some(slug) else None
      case RefId(_) => None
    else None
  }

  /** `getLinkUrl(link)`. */
  function LinkUrl(link: Link): (u: string)
    ensures u != ""
    ensures link.linkType == "custom" ==> u == (if link.url != "" then link.url else "#")
    ensures link.linkType != "custom" && LinkedSlug(link).Some? ==>
              u == DocumentPath(link.reference.value.relationTo, LinkedSlug(link).value)
    ensures link.linkType != "custom" && LinkedSlug(link).None? ==> u == "#"
  {
    if link.linkType == "custom" then
      if link.url != "" then link.url else "#"
    else
      match LinkedSlug(link)
      case Some(slug) => DocumentPath(link.reference.value.relationTo, slug)
      case None => "#"
  }

  /** `link.appearance || 'primary'`, as the hero and call-to-action templates pass it. */
  function Appearance(link: Link): (a: string)
    ensures a != ""
    ensures link.appearance != "" ==> a == link.appearance
  {
    if link.appearance != "" then link.appearance else "primary"
  }

  /** A reference link's route ends in its document's slug: whenever the slug has no `/`, the
      last path segment of the link's URL gives it back. */
  lemma SlugOfLinkUrl(link: Link)
    requires LinkedSlug(link).Some? && '/' !in LinkedSlug(link).value
    ensures UrlUtils.GetSlugFromUrl(LinkUrl(link)) == LinkedSlug(link).value
  {
    var slug := LinkedSlug(link).value;
    var u := LinkUrl(link);
    var prefix := if link.reference.value.relationTo == "posts" then "/blog" else "";
    assert u == prefix + "/" + slug;
    SlugAfterPrefix(prefix, slug);
  }

  lemma SlugAfterPrefix(prefix: string, slug: string)
    requires '/' !in slug
    ensures UrlUtils.GetSlugFromUrl(prefix + "/" + slug) == slug
  {
    var u := prefix + "/" + slug;
    var r := UrlUtils.GetSlugFromUrl(u);
    assert u[|prefix|] == '/';
    assert '/' in u;
    assert u == BeforeLast(u, '/') + "/" + r;
    assert r == u[|u| - |r|..] == slug;
  }

  /** A link offers no route of its own, `#`, exactly when it is a custom link without URL or a
      link that is not custom and carries no populated slug. */
  lemma NoRouteIff(link: Link)
    ensures LinkUrl(link) == "#" <==>
              (link.linkType == "custom" && (link.url == "" || link.url == "#")) ||
              (link.linkType != "custom" && LinkedSlug(link).None?)
  {
    if link.linkType != "custom" && LinkedSlug(link).Some? {
      assert LinkUrl(link)[0] == '/';
    }
  }
}
