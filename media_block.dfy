/** The media block: an image or a video, full screen or in a figure, with an optional
    caption; nothing at all without media. */
module MediaBlocks {
  import opened Wrappers
  import opened Strings
  import opened LexicalRenderer
  import opened PayloadTypes
  import MediaUrls

  /** `getSectionClasses()`: no background for the full-screen position. */
  function SectionClasses(block: MediaBlock): (r: string)
    ensures r == "" <==> block.position == "fullscreen"
  {
    if block.position == "fullscreen" then "" else "bg-white dark:bg-gray-900"
  }

  /** `isVideo()`: the MIME type is a `video/` type, whatever its subtype. */
  predicate IsVideo(m: Media)
    ensures IsVideo(m) <==> exists subtype :: m.mimeType == "video/" + subtype
  {
    assert StartsWith(m.mimeType, "video/") ==> m.mimeType == "video/" + m.mimeType[6..];
    StartsWith(m.mimeType, "video/")
  }

  /** What the template shows: a video of the original file with the card rendition as poster,
      or an image of the feature rendition. */
  datatype Element = Video(src: string, poster: Option<string>) | Image(src: string, alt: string)

  datatype MediaView = MediaView(sectionClasses: string, fullscreen: bool, element: Element,
                                 caption: Option<string>)

  /** The rendered block, `None` without media. */
  function View(block: MediaBlock): (v: Option<MediaView>)
    ensures v.None? <==> block.media.None?
    ensures v.Some? ==>
              var m := block.media.value;
              v.value.sectionClasses == SectionClasses(block) &&
              (v.value.fullscreen <==> block.position == "fullscreen") &&
              (v.value.element.Video? <==> IsVideo(m)) &&
              (v.value.element.Video? ==> v.value.element.src == m.url && v.value.element.poster == MediaUrls.CardUrl(m)) &&
              (v.value.element.Image? ==>
                 v.value.element.src == MediaUrls.FeatureImageUrl(m) &&
                 v.value.element.alt == (if m.alt != "" then m.alt else "Media")) &&
              (v.value.caption.Some? <==> block.caption.Some?) &&
              (v.value.caption.Some? ==> v.value.caption.value == Render(block.caption))
  {
    if block.media.None? then None
    else
      var m := block.media.value;
      var element := if IsVideo(m) then Video(m.url, MediaUrls.CardUrl(m))
                     else Image(MediaUrls.FeatureImageUrl(m), if m.alt != "" then m.alt else "Media");
      Some(MediaView(SectionClasses(block), block.position == "fullscreen", element,
                     if block.caption.Some? then Some(RenderRichText(block.caption)) else None))
  }
}
