/** The call-to-action block's link classes, chosen by the link's appearance. */
module CallToAction {
  import opened Strings

  const LinkBase := "inline-flex items-center px-8 py-4 text-lg font-semibold rounded-lg transition-all duration-200 focus:outline-none focus:ring-2 focus:ring-offset-2 transform hover:scale-105 shadow-lg hover:shadow-xl"

  const SecondaryVariant := "bg-secondary text-white hover:bg-secondary/90 focus:ring-secondary shadow-secondary/25"
  const OutlineVariant := "border-2 border-white text-white hover:bg-white hover:text-primary focus:ring-white bg-white/10 backdrop-blur-sm"
  const PrimaryVariant := "bg-white text-primary hover:bg-gray-50 focus:ring-white shadow-white/25"

  /** `getLinkClasses(appearance)`: the base classes and exactly one variant, `primary` for any
      appearance other than `secondary` and `outline`. */
  function LinkClasses(appearance: string): (r: string)
    ensures StartsWith(r, LinkBase + " ")
    ensures appearance == "secondary" ==> r == LinkBase + " " + SecondaryVariant
    ensures appearance == "outline" ==> r == LinkBase + " " + OutlineVariant
    ensures appearance != "secondary" && appearance != "outline" ==> r == LinkBase + " " + PrimaryVariant
  {
    var variant :=
      if appearance == "secondary" then SecondaryVariant
      else if appearance == "outline" then OutlineVariant
      else PrimaryVariant;
    LinkBase + " " + variant
  }

  /** The three variants give three different class strings. */
  lemma VariantsDiffer()
    ensures LinkClasses("secondary") != LinkClasses("outline")
    ensures LinkClasses("secondary") != LinkClasses("primary")
    ensures LinkClasses("outline") != LinkClasses("primary")
  {
    assert |SecondaryVariant| != |OutlineVariant| && |SecondaryVariant| != |PrimaryVariant|;
    assert |OutlineVariant| != |PrimaryVariant|;
  }
}
