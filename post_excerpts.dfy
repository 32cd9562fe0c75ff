/** The teaser text of a post or page: its `meta.description`, else an excerpt of the first rich
    text found in its hero or layout. The archive block and the search modal use the same search
    under different word limits. */
module PostExcerpts {
  import opened Wrappers
  import opened Strings
  import opened LexicalRenderer
  import opened PayloadTypes

  /** The word limit of the archive block's excerpts. */
  const ArchiveWordLimit := 25
  /** The word limit of the search modal's result descriptions. */
  const SearchWordLimit := 30

  /** The rich text of the first column that has one. */
  function ColumnsRichText(columns: seq<ContentColumn>): (r: Option<LexicalData>)
    ensures r.None? <==> forall j :: 0 <= j < |columns| ==> columns[j].richText.None?
    ensures r.Some? ==> exists j :: 0 <= j < |columns| && columns[j].richText == r
    decreases |columns|
  {
    if columns == [] then None
    else if columns[0].richText.Some? then columns[0].richText
    else ColumnsRichText(columns[1..])
  }

  /** What one layout block offers: a content block's first column rich text, or a hero block's
      rich text; any other block offers nothing. */
  function BlockRichText(b: Block): Option<LexicalData> {
    match b
    case ContentB(c) => if c.columns.Some? then ColumnsRichText(c.columns.value) else None
    case HeroB(h) => h.richText
    case _ => None
  }

  /** The first rich text any block of the layout offers, in layout order. */
  function FirstRichText(layout: seq<Block>): (r: Option<LexicalData>)
    decreases |layout|
  {
    if layout == [] then None
    else if BlockRichText(layout[0]).Some? then BlockRichText(layout[0])
    else FirstRichText(layout[1..])
  }

  /** `FirstRichText` finds the earliest block that offers a rich text, and nothing when no
      block does. */
  lemma {:induction false} FirstRichTextAt(layout: seq<Block>, i: nat)
    requires i < |layout| && BlockRichText(layout[i]).Some?
    requires forall k :: 0 <= k < i ==> BlockRichText(layout[k]).None?
    ensures FirstRichText(layout) == BlockRichText(layout[i])
    decreases i
  {
    if i > 0 {
      assert BlockRichText(layout[0]).None?;
      FirstRichTextAt(layout[1..], i - 1);
    }
  }

  lemma {:induction false} FirstRichTextNone(layout: seq<Block>)
    ensures FirstRichText(layout).None? <==> forall k :: 0 <= k < |layout| ==> BlockRichText(layout[k]).None?
    decreases |layout|
  {
    if layout != [] {
      FirstRichTextNone(layout[1..]);
      assert forall k :: 1 <= k < |layout| ==> layout[k] == layout[1..][k - 1];
    }
  }

  /** The nested loops of `getPostExcerpt` / `getResultDescription` over the layout, with their
      early return. */
  method FindLayoutRichText(layout: seq<Block>) returns (r: Option<LexicalData>)
    ensures r == FirstRichText(layout)
  {
    for i := 0 to |layout|
      invariant forall k :: 0 <= k < i ==> BlockRichText(layout[k]).None?
    {
      var block := layout[i];
      if block.ContentB? && block.content.columns.Some? {
        var columns := block.content.columns.value;
        for j := 0 to |columns|
          invariant forall m :: 0 <= m < j ==> columns[m].richText.None?
        {
          if columns[j].richText.Some? {
            ColumnsFrom(columns, j);
            FirstRichTextAt(layout, i);
            return columns[j].richText;
          }
        }
      }
      if block.HeroB? && block.hero.richText.Some? {
        FirstRichTextAt(layout, i);
        return block.hero.richText;
      }
    }
    FirstRichTextNone(layout);
    return None;
  }

  lemma {:induction false} ColumnsFrom(columns: seq<ContentColumn>, j: nat)
    requires j < |columns| && columns[j].richText.Some?
    requires forall m :: 0 <= m < j ==> columns[m].richText.None?
    ensures ColumnsRichText(columns) == columns[j].richText
    decreases j
  {
    if j > 0 {
      ColumnsFrom(columns[1..], j - 1);
    }
  }

  /** The description the archive block and the search modal show, in order of preference: a
      non-empty `meta.description`, an excerpt of the hero's rich text, an excerpt of the first
      rich text in the layout, or "". */
  function Description(meta: Option<Seo>, hero: Option<HeroBlock>, layout: Option<seq<Block>>,
                       wordLimit: int): (r: string)
    ensures MetaDescription(meta) != "" ==> r == MetaDescription(meta)
    ensures r != "" ==>
              MetaDescription(meta) != "" || (hero.Some? && hero.value.richText.Some?) ||
              (layout.Some? && FirstRichText(layout.value).Some?)
  {
    if MetaDescription(meta) != "" then MetaDescription(meta)
    else if hero.Some? && hero.value.richText.Some? then Excerpt(hero.value.richText, wordLimit)
    else if layout.Some? && FirstRichText(layout.value).Some? then Excerpt(FirstRichText(layout.value), wordLimit)
    else ""
  }

  /** `getPostExcerpt(post)` of the archive block and `getResultDescription(result)` of the
      search modal, with their word limit. */
  method PostDescription(meta: Option<Seo>, hero: Option<HeroBlock>, layout: Option<seq<Block>>,
                         wordLimit: int) returns (r: string)
    ensures r == Description(meta, hero, layout, wordLimit)
  {
    if meta.Some? && meta.value.description != "" {
      return meta.value.description;
    }
    if hero.Some? && hero.value.richText.Some? {
      return Excerpt(hero.value.richText, wordLimit);
    }
    if layout.Some? && |layout.value| > 0 {
      var found := FindLayoutRichText(layout.value);
      if found.Some? {
        return Excerpt(found, wordLimit);
      }
    }
    return "";
  }

  /** The description is empty without any source, and each source shadows the later ones. */
  lemma DescriptionSources(meta: Option<Seo>, hero: Option<HeroBlock>, layout: seq<Block>, wordLimit: int)
    ensures MetaDescription(meta) != "" ==> Description(meta, hero, Some(layout), wordLimit) == MetaDescription(meta)
    ensures MetaDescription(meta) == "" && (hero.None? || hero.value.richText.None?) &&
            (forall k :: 0 <= k < |layout| ==> BlockRichText(layout[k]).None?) ==>
              Description(meta, hero, Some(layout), wordLimit) == ""
    ensures MetaDescription(meta) == "" && (hero.None? || hero.value.richText.None?) ==>
              forall i :: 0 <= i < |layout| && BlockRichText(layout[i]).Some? &&
                          (forall k :: 0 <= k < i ==> BlockRichText(layout[k]).None?) ==>
                Description(meta, hero, Some(layout), wordLimit) == Excerpt(BlockRichText(layout[i]), wordLimit)
  {
    FirstRichTextNone(layout);
    forall i | 0 <= i < |layout| && BlockRichText(layout[i]).Some? &&
               (forall k :: 0 <= k < i ==> BlockRichText(layout[k]).None?)
      ensures FirstRichText(layout) == BlockRichText(layout[i])
    {
      FirstRichTextAt(layout, i);
    }
  }

  /** A description taken from a long rich text is its first `wordLimit` words and "...". */
  lemma DescriptionWordLimit(meta: Option<Seo>, hero: HeroBlock, layout: Option<seq<Block>>, wordLimit: nat)
    requires MetaDescription(meta) == "" && hero.richText.Some?
    requires 0 < wordLimit < |SplitWords(RenderAsPlainText(hero.richText))|
    ensures var r := Description(meta, Some(hero), layout, wordLimit);
      EndsWith(r, "...") &&
      SplitWords(r[..|r| - 3]) == SplitWords(RenderAsPlainText(hero.richText))[..wordLimit]
  {
    ExcerptWords(hero.richText, wordLimit);
  }

  /** The blog's `getPostExcerpt(post)`: `meta.description`, else the hero rich text's excerpt,
      and nothing from the layout. */
  function BlogExcerpt(post: Post): (r: string)
    ensures MetaDescription(post.meta) != "" ==> r == MetaDescription(post.meta)
    ensures r == Description(post.meta, post.hero, None, ArchiveWordLimit)
  {
    if post.meta.Some? && post.meta.value.description != "" then post.meta.value.description
    else if post.hero.Some? && post.hero.value.richText.Some? then Excerpt(post.hero.value.richText, 25)
    else ""
  }
}
