/** The hero block's class choices: by hero type (fullscreen, minimal, or anything else), by
    whether the hero has media, and by a link's appearance. */
module Hero {
  import opened Strings
  import opened PayloadTypes

  /** `hero.type || 'default'`. */
  function HeroType(hero: PayloadTypes.HeroBlock): (t: string)
    ensures t != ""
    ensures hero.heroType != "" ==> t == hero.heroType
  {
    if hero.heroType != "" then hero.heroType else "default"
  }

  const HeroBase := "flex items-center"

  /** `getHeroClasses()`: full screen height, the minimal padding, or the default padding. */
  function HeroClasses(hero: PayloadTypes.HeroBlock): (r: string)
    ensures StartsWith(r, HeroBase + " ")
    ensures HeroType(hero) == "fullscreen" ==> r == HeroBase + " min-h-screen"
    ensures HeroType(hero) == "minimal" ==> r == HeroBase + " py-16 md:py-24"
    ensures HeroType(hero) != "fullscreen" && HeroType(hero) != "minimal" ==> r == HeroBase + " py-20 md:py-32"
  {
    var t := HeroType(hero);
    if t == "fullscreen" then HeroBase + " min-h-screen"
    else if t == "minimal" then HeroBase + " py-16 md:py-24"
    else HeroBase + " py-20 md:py-32"
  }

  /** `getContentClasses()`: a centred flex row, the minimal hero's text centred and padded, the
      others at least 60% of the viewport high. */
  function ContentClasses(hero: PayloadTypes.HeroBlock): (r: string)
    ensures StartsWith(r, ContentBase)
    ensures HeroType(hero) == "minimal" <==> EndsWith(r, "text-center py-8")
    ensures HeroType(hero) != "minimal" <==> EndsWith(r, "min-h-[60vh]")
  {
    ContentClassShapes();
    if HeroType(hero) == "minimal" then MinimalContent else DefaultContent
  }

  /** The two class lists of `getContentClasses()`, sharing their centred flex row. */
  const ContentBase := "flex items-center "
  const MinimalContent := ContentBase + "justify-center " + "text-center py-8"
  const DefaultContent := ContentBase + "min-h-[60vh]"

  /** Both lists start with the flex row, and each ends with its own tail only. */
  lemma ContentClassShapes()
    ensures StartsWith(MinimalContent, ContentBase) && StartsWith(DefaultContent, ContentBase)
    ensures EndsWith(MinimalContent, "text-center py-8") && !EndsWith(DefaultContent, "text-center py-8")
    ensures EndsWith(DefaultContent, "min-h-[60vh]") && !EndsWith(MinimalContent, "min-h-[60vh]")
  {
    assert MinimalContent[..|ContentBase|] == ContentBase;
    assert DefaultContent[..|ContentBase|] == ContentBase;
    assert DefaultContent[14..][2] == ContentBase[16] != "text-center py-8"[2];
    assert MinimalContent[37..][0] == "text-center py-8"[4] != "min-h-[60vh]"[0];
  }

  /** `getTextAlignmentClass()`: centred for the minimal hero, nothing otherwise. */
  function TextAlignmentClass(hero: PayloadTypes.HeroBlock): (r: string)
    ensures r == "" <==> HeroType(hero) != "minimal"
  {
    if HeroType(hero) == "minimal" then "text-center mx-auto" else ""
  }

  /** The content and alignment classes tell only the minimal hero apart: two heroes that are
      both minimal, or both not, get the same ones. */
  lemma OnlyMinimalDiffers(a: PayloadTypes.HeroBlock, b: PayloadTypes.HeroBlock)
    requires (HeroType(a) == "minimal") == (HeroType(b) == "minimal")
    ensures ContentClasses(a) == ContentClasses(b) && TextAlignmentClass(a) == TextAlignmentClass(b)
  {
  }

  const WhiteProse := "prose-white [&>h1]:text-white [&>h2]:text-white [&>h3]:text-white [&>h4]:text-white [&>h5]:text-white [&>h6]:text-white [&>p]:text-white/90"
  const GrayProse := "prose-gray dark:prose-invert"

  /** `getProseClasses()`: white text over media or on a full-screen hero, else the gray prose. */
  function ProseClasses(hero: PayloadTypes.HeroBlock): (r: string)
    ensures r == WhiteProse <==> hero.media.Some? || HeroType(hero) == "fullscreen"
    ensures r == GrayProse <==> !(hero.media.Some? || HeroType(hero) == "fullscreen")
  {
    if hero.media.Some? || HeroType(hero) == "fullscreen" then WhiteProse else GrayProse
  }

  const LinkBase := "inline-flex items-center px-6 py-3 text-base font-medium rounded-lg transition-all duration-200 focus:outline-none focus:ring-2 focus:ring-offset-2"

  const SecondaryVariant := "bg-secondary text-white hover:bg-secondary/90 focus:ring-secondary"
  const OutlineOverMedia := "border-2 border-white text-white hover:bg-white hover:text-gray-900 focus:ring-white"
  const OutlinePlain := "border-2 border-gray-300 text-gray-700 hover:bg-gray-50 focus:ring-gray-500 dark:border-gray-600 dark:text-gray-300 dark:hover:bg-gray-800"
  const PrimaryVariant := "bg-primary text-white hover:bg-primary/90 focus:ring-primary"

  /** The variant part of `getLinkClasses(appearance)`; the outline variant is white over media. */
  function LinkVariant(appearance: string, hasMedia: bool): (r: string)
    ensures r == SecondaryVariant <==> appearance == "secondary"
    ensures r == PrimaryVariant <==> appearance != "secondary" && appearance != "outline"
    ensures appearance == "outline" ==> (r == OutlineOverMedia <==> hasMedia)
  {
    if appearance == "secondary" then SecondaryVariant
    else if appearance == "outline" then (if hasMedia then OutlineOverMedia else OutlinePlain)
    else PrimaryVariant
  }

  /** `getLinkClasses(appearance)`: the base classes, then the appearance's variant. */
  function LinkClasses(hero: PayloadTypes.HeroBlock, appearance: string): (r: string)
    ensures StartsWith(r, LinkBase + " ")
    ensures r == LinkBase + " " + LinkVariant(appearance, hero.media.Some?)
  {
    LinkBase + " " + LinkVariant(appearance, hero.media.Some?)
  }

  /** An appearance other than `secondary` and `outline` is styled as `primary`; the outline
      variant changes with the media and the others do not. */
  lemma LinkAppearances(hero: PayloadTypes.HeroBlock, other: PayloadTypes.HeroBlock, appearance: string)
    ensures appearance != "secondary" && appearance != "outline" ==>
              LinkClasses(hero, appearance) == LinkClasses(hero, "primary")
    ensures appearance != "outline" ==> LinkClasses(hero, appearance) == LinkClasses(other, appearance)
    ensures hero.media.Some? != other.media.Some? ==> LinkClasses(hero, "outline") != LinkClasses(other, "outline")
  {
    if hero.media.Some? != other.media.Some? {
      assert |OutlineOverMedia| != |OutlinePlain|;
    }
  }
}
