/** The image URLs the components pick from an upload: a generated rendition when the upload has
    one with a URL, else the original file. */
module MediaUrls {
  import opened Wrappers
  import opened PayloadTypes

  /** `media.sizes?.card?.url`, `None` when absent or empty. */
  function CardUrl(m: Media): (r: Option<string>)
    ensures r.Some? <==> m.sizes.Some? && m.sizes.value.card.Some? && m.sizes.value.card.value.url != ""
    ensures r.Some? ==> r.value == m.sizes.value.card.value.url
  {
    if m.sizes.Some? && m.sizes.value.card.Some? && m.sizes.value.card.value.url != "" then
      Some(m.sizes.value.card.value.url)
    else None
  }

  /** `media.sizes?.feature?.url`, `None` when absent or empty. */
  function FeatureUrl(m: Media): (r: Option<string>)
    ensures r.Some? <==> m.sizes.Some? && m.sizes.value.feature.Some? && m.sizes.value.feature.value.url != ""
    ensures r.Some? ==> r.value == m.sizes.value.feature.value.url
  {
    if m.sizes.Some? && m.sizes.value.feature.Some? && m.sizes.value.feature.value.url != "" then
      Some(m.sizes.value.feature.value.url)
    else None
  }

  /** `getImageUrl(media)` of the post listings: the card rendition over the original. */
  function CardImageUrl(m: Media): (r: string)
    ensures CardUrl(m).Some? ==> r == CardUrl(m).value
    ensures CardUrl(m).None? ==> r == m.url
  {
    CardUrl(m).GetOr(m.url)
  }

  /** `getImageUrl()` of the media block: the feature rendition over the original. */
  function FeatureImageUrl(m: Media): (r: string)
    ensures FeatureUrl(m).Some? ==> r == FeatureUrl(m).value
    ensures FeatureUrl(m).None? ==> r == m.url
  {
    FeatureUrl(m).GetOr(m.url)
  }
}
