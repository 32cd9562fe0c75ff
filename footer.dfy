/** The footer's navigation column: at most four CMS navigation links, then the fixed blog link. */
module FooterNav {
  import opened Wrappers
  import opened PayloadTypes
  import Links

  /** At most this many CMS links are shown. */
  const MaxNavItems := 4

  /** One rendered entry: its address, its label, and the `target` and `rel` attributes. */
  datatype NavEntry = NavEntry(href: string, text: string, target: string, rel: string)

  /** The entry of one CMS link: a new tab opens with `noopener noreferrer`. */
  function Entry(link: Link): (e: NavEntry)
    ensures e.href == Links.LinkUrl(link) && e.text == link.labelText
    ensures link.newTab ==> e.target == "_blank" && e.rel == "noopener noreferrer"
    ensures !link.newTab ==> e.target == "_self" && e.rel == ""
  {
    if link.newTab then NavEntry(Links.LinkUrl(link), link.labelText, "_blank", "noopener noreferrer")
    else NavEntry(Links.LinkUrl(link), link.labelText, "_self", "")
  }

  const BlogEntry := NavEntry("/blog", "Blog", "_self", "")

  /** The CMS links shown: the first four, none while the footer is not loaded or has no items. */
  function ShownItems(footer: Option<Footer>): (items: seq<Link>)
    ensures footer.None? || footer.value.navItems.None? ==> items == []
    ensures footer.Some? && footer.value.navItems.Some? ==>
              var all := footer.value.navItems.value;
              |items| == (if |all| < MaxNavItems then |all| else MaxNavItems) && items == all[..|items|]
  {
    if footer.None? || footer.value.navItems.None? then []
    else
      var all := footer.value.navItems.value;
      if |all| < MaxNavItems then all else all[..MaxNavItems]
  }

  /** The navigation column: the entries of the shown CMS links, in order, then the blog. */
  function Navigation(footer: Option<Footer>): (entries: seq<NavEntry>)
    ensures 1 <= |entries| <= MaxNavItems + 1
    ensures entries[|entries| - 1] == BlogEntry
    ensures |entries| == |ShownItems(footer)| + 1
    ensures forall i :: 0 <= i < |entries| - 1 ==> entries[i] == Entry(ShownItems(footer)[i])
  {
    var items := ShownItems(footer);
    seq(|items|, i requires 0 <= i < |items| => Entry(items[i])) + [BlogEntry]
  }

  /** Every CMS link the footer holds is shown when there are at most four, and each shown entry
      points where its link points. */
  lemma ShortNavigationComplete(footer: Footer)
    requires footer.navItems.Some? && |footer.navItems.value| <= MaxNavItems
    ensures |Navigation(Some(footer))| == |footer.navItems.value| + 1
    ensures forall i :: 0 <= i < |footer.navItems.value| ==>
              Navigation(Some(footer))[i].href == Links.LinkUrl(footer.navItems.value[i])
  {
    assert ShownItems(Some(footer)) == footer.navItems.value;
  }
}
