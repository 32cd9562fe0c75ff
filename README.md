# Payload Angular front end: a Dafny model of its deterministic core

This project models the logic of an Angular front end for a Payload CMS site, in Dafny. The
model covers four groups of code:

- **Lexical rich-text rendering.** The recursive walk that turns the editor's node tree into
  HTML, the bit-flag text formatting, the plain-text extraction and the word-limited excerpts
  (`LexicalRenderer`).
- **SEO values.** What the SEO service computes for a page or a post (`SeoService`).
- **Blocks and pipes.** The layout's block dispatch; the hero, content, call-to-action, media
  and archive blocks; the `truncate`, `duration` and `dateFormat` pipes; and the URL helpers.
- **Components with state.** Each is a Dafny `class` whose methods change its fields as the
  component's methods change its signals. They are the header and the FAQ, blog, blog post,
  preview, search, search modal, profile and reset-password components. The footer's
  navigation and the generic-error page only compute values from their inputs, so they are
  modelled as pure functions (`FooterNav`, `GenericError`).

Four conventions run through the model:

- **HTTP.** An HTTP call is recorded in a field of the component, such as `requests`, `searches`
  or `resets`. Its response is delivered through a callback method (`OnPostsLoaded`,
  `OnResetFailed`, ...) that takes the response as an argument.
- **Navigation, SEO and windows.** Navigation is recorded in `navigatedTo`, the data handed to
  the SEO service in `seo`, and windows opened in `openedWindows`.
- **The browser.** Whether the code runs in a browser, stored values and the system colour
  preference are parameters.
- **Missing strings.** A string field the source may leave `undefined` is `""` wherever the
  source only tests its truthiness, and an `Option` wherever absence and `""` behave
  differently.

Shared modules:

- `Strings`: the JavaScript string operations used.
- `PayloadTypes`: the document and block types.
- `Links`: the `getLinkUrl` that five components copy.
- `Initials`: the initials helpers.
- `MediaUrls`: the image rendition choice.
- `PostExcerpts`: the excerpt and description searches.
- `Dates`: date inputs and their time values.

`escapeHtml` sets `textContent` on an element and reads back `innerHTML`. The model takes it to
be the "escaping a string" algorithm of the HTML Living Standard (section 13.3, serializing HTML
fragments) for text nodes. That algorithm turns `&`, U+00A0, `<` and `>` into character
references and leaves quotes as they are. `bypassSecurityTrustHtml` is the identity.

Two places where the code does not do what it appears to intend, modelled as the code is:

- The blog page builds its query parameters but calls `getPosts()` without them. So the server
  sees no page or category; each recorded request (`Blog.PostsRequest`) holds only the page and
  the mode its callback closes over.
- `getResultDescription` on the search page reads only `meta.description`. The search modal
  searches the whole post for a description (`SearchPage`, `SearchModal`).

## Model

| member | source | states |
|---|---|---|
| LexicalRenderer.Render | src/app/services/lexical-renderer.service.ts:62-69 | No data or no `root` gives ""; otherwise the root node's HTML |
| LexicalRenderer.RenderNode | src/app/services/lexical-renderer.service.ts:71-95 | A node whose type is not one of the nine known types renders as "" |
| LexicalRenderer.TypeOf | src/app/services/lexical-renderer.service.ts:72-94 | A node is a text leaf exactly when its type is "text" |
| LexicalRenderer.ElementDispatch | src/app/services/lexical-renderer.service.ts:71-99 | Every known element renders its children first and passes their concatenated HTML to its own renderer; the root is just that concatenation |
| LexicalRenderer.RenderElement | src/app/services/lexical-renderer.service.ts:71-153 | Nothing for a text leaf or an unknown type, the children's HTML itself for the root, and text that opens with `<` and closes with `>` for every other type |
| LexicalRenderer.RenderParagraph | src/app/services/lexical-renderer.service.ts:101-110 | Always a `<p>` element; a non-blank paragraph ends with its content unchanged before `</p>` |
| LexicalRenderer.RenderHeading | src/app/services/lexical-renderer.service.ts:112-118 | An element named by the tag, `h1` when the tag is empty, whose content comes unchanged before the closing tag |
| LexicalRenderer.RenderList | src/app/services/lexical-renderer.service.ts:120-127 | An `ol` element for the `number` type and a `ul` one otherwise, whose content comes unchanged before the closing tag |
| LexicalRenderer.RenderLink | src/app/services/lexical-renderer.service.ts:147-153 | An anchor whose `href` is the escaped URL and whose content comes unchanged before `</a>` |
| LexicalRenderer.RenderChildrenAppend | src/app/services/lexical-renderer.service.ts:97-99 | Children are rendered in order: the output for `a + b` is the output for `a` followed by the output for `b` |
| LexicalRenderer.UnknownSibling | src/app/services/lexical-renderer.service.ts:91-93 | A node of unknown type among siblings adds nothing and leaves its siblings' output as it was |
| LexicalRenderer.SilentSibling | src/app/services/lexical-renderer.service.ts:97-99 | Siblings whose output is empty can be removed without changing the output |
| LexicalRenderer.RenderSingleChild | src/app/services/lexical-renderer.service.ts:98 | A single child's output is that child's HTML |
| LexicalRenderer.ParagraphOutput | src/app/services/lexical-renderer.service.ts:101-110 | The content trims to "": exactly `<p><br></p>`, alignment dropped. Otherwise: a `class` attribute iff the alignment class is non-empty |
| LexicalRenderer.ParagraphOpenTag | src/app/services/lexical-renderer.service.ts:109 | The opening `p` tag has a class attribute iff the class is non-empty |
| LexicalRenderer.BlankParagraph | src/app/services/lexical-renderer.service.ts:105-107 | A paragraph whose content is all whitespace renders as `<p><br></p>` |
| LexicalRenderer.HeadingOutput | src/app/services/lexical-renderer.service.ts:112-118 | A heading uses its `tag`, or `h1` when there is none, with a class attribute iff its alignment class is non-empty |
| LexicalRenderer.ListOutput | src/app/services/lexical-renderer.service.ts:120-127 | `ol` iff the list type is "number", with `start="N"` only for a non-zero start. A check list is `<ul class="checklist">`; any other list is a plain `ul` |
| LexicalRenderer.NumberedList | src/app/services/lexical-renderer.service.ts:122-126 | A numbered list is an `ol`, and start 0 is left out |
| LexicalRenderer.CheckList | src/app/services/lexical-renderer.service.ts:122-126 | A check list is a `ul` with class `checklist` and no start attribute |
| LexicalRenderer.BulletList | src/app/services/lexical-renderer.service.ts:122-126 | Any other list type is a plain `ul` |
| LexicalRenderer.ListItemOutput | src/app/services/lexical-renderer.service.ts:129-132 | A list item wraps its content in `li` |
| LexicalRenderer.QuoteOutput | src/app/services/lexical-renderer.service.ts:134-139 | A quote is a `blockquote` with a class attribute iff its alignment class is non-empty |
| LexicalRenderer.CodeOutput | src/app/services/lexical-renderer.service.ts:141-145 | A code block holds its children's HTML escaped. No `<` or `>` survives inside it, and unescaping gives the HTML back |
| LexicalRenderer.LinkOutput | src/app/services/lexical-renderer.service.ts:147-153 | A link escapes its `url`; `rel` and `target` appear unescaped, each iff non-empty |
| LexicalRenderer.RenderText | src/app/services/lexical-renderer.service.ts:155-196 | A text leaf is its text passed through the seven-entry format table in flag order (1, 2, 4, 8, 16, 32, 64), then the `style` span, outermost |
| LexicalRenderer.WrapsUnrolled | src/app/services/lexical-renderer.service.ts:159-188 | Applying the format table is applying its seven wraps one after the other, in table order |
| LexicalRenderer.ApplyWrapsNone | src/app/services/lexical-renderer.service.ts:159 | With no flag set, no wrap applies |
| LexicalRenderer.PlainTextLeaf | src/app/services/lexical-renderer.service.ts:155-196 | A leaf with format 0, no format or a keyword format, and no style, renders as its bare text |
| LexicalRenderer.BoldItalic | src/app/services/lexical-renderer.service.ts:160-167 | Format 3 gives `<em><strong>t</strong></em>`: italic is applied second, so it is outermost |
| LexicalRenderer.BoldCode | src/app/services/lexical-renderer.service.ts:176-179 | Format 17 escapes the `strong` markup already applied: `<code>&lt;strong&gt;t&lt;/strong&gt;</code>` |
| LexicalRenderer.EscapeTag | src/app/services/lexical-renderer.service.ts:223-227 | Escaping a tag around text without special characters escapes only the tags |
| LexicalRenderer.EscapedOpenStrong | src/app/services/lexical-renderer.service.ts:223-227 | `<strong>` escapes to `&lt;strong&gt;` |
| LexicalRenderer.EscapedCloseStrong | src/app/services/lexical-renderer.service.ts:223-227 | `</strong>` escapes to `&lt;/strong&gt;` |
| LexicalRenderer.AlignmentClass | src/app/services/lexical-renderer.service.ts:198-221 | A keyword maps left, center, right and justify to their class, each iff that keyword, and any other keyword to "". A number tests bit 1 (center), then 2 (right), then 4 (justify), else "". No format gives "" |
| LexicalRenderer.EscapeHtml | src/app/services/lexical-renderer.service.ts:223-227 | Escaped text holds no `<`, `>` or non-breaking space. It is never shorter than the input, and equals it when there is nothing to escape |
| LexicalRenderer.EscapedNoMarkup | src/app/services/lexical-renderer.service.ts:223-227 | No `<`, `>` or non-breaking space survives escaping |
| LexicalRenderer.EscapedLength | src/app/services/lexical-renderer.service.ts:223-227 | Escaping never shortens a string, and leaves one without special characters unchanged |
| LexicalRenderer.EscapedProperties | src/app/services/lexical-renderer.service.ts:223-227 | The character-by-character escape leaves no markup character or non-breaking space, never shortens the text, and changes nothing in text without special characters |
| LexicalRenderer.EscapedLonger | src/app/services/lexical-renderer.service.ts:223-227 | Escaping never shortens a string |
| LexicalRenderer.EscapedIdentity | src/app/services/lexical-renderer.service.ts:223-227 | A string without `&`, `<`, `>` or U+00A0 escapes to itself |
| LexicalRenderer.EscapeHtmlAppend | src/app/services/lexical-renderer.service.ts:223-227 | Escaping distributes over concatenation |
| LexicalRenderer.EscapeEachAppend | src/app/services/lexical-renderer.service.ts:223-227 | Escaping character by character distributes over concatenation |
| LexicalRenderer.UnescapeEscapeChar | src/app/services/lexical-renderer.service.ts:223-227 | Unescaping an escaped character followed by anything gives the character back, followed by the rest unescaped |
| LexicalRenderer.UnescapeEscape | src/app/services/lexical-renderer.service.ts:223-227 | Escaping loses nothing: unescaping the escaped form gives back the input |
| LexicalRenderer.RenderRichText | src/app/components/blocks/content-block/content-block.component.ts:131-134 | The content block's guard: absent rich text gives "", present rich text its rendering (the same guard in the hero block, `renderRichText` at lines 159-162, and the call-to-action block, lines 124-128) |
| LexicalRenderer.RenderAsPlainText | src/app/services/lexical-renderer.service.ts:230-236 | No data or no `root` gives "" |
| LexicalRenderer.ExtractText | src/app/services/lexical-renderer.service.ts:238-248 | A text leaf gives its text, any other node its children's texts joined by single spaces; what this means for the document's words and leaves is stated by `ExtractedWords` and `ExtractedLeaves` |
| LexicalRenderer.ExtractAll | src/app/services/lexical-renderer.service.ts:244 | One extracted text per child, in order |
| LexicalRenderer.ExtractedWords | src/app/services/lexical-renderer.service.ts:238-248 | The words of the plain text are the words of the text leaves, in document order, for every tree: no word is lost and no two leaves' words run together |
| LexicalRenderer.ExtractedWordsAll | src/app/services/lexical-renderer.service.ts:238-248 | The same for a list of siblings: the words of their extracted texts are the words of their leaves, in order |
| LexicalRenderer.ExtractedLeaves | src/app/services/lexical-renderer.service.ts:238-248 | In a tree where every element has children, the plain text is exactly the leaves' texts joined by single spaces |
| LexicalRenderer.ExtractedLeavesAll | src/app/services/lexical-renderer.service.ts:244-246 | The same for a non-empty list of such siblings |
| LexicalRenderer.EmptyParagraphKeepsSeparator | src/app/services/lexical-renderer.service.ts:244-246 | A childless paragraph between two others still adds its separator: "Hello  World", with two spaces |
| LexicalRenderer.HelloWorld | src/app/services/lexical-renderer.service.ts:238-248 | A root of two paragraphs "Hello" and "World" gives "Hello World" |
| LexicalRenderer.SliceTo | src/app/services/lexical-renderer.service.ts:259 | The JavaScript `slice(0, k)`: a prefix, of length `k` when `0 <= k <= n`, and a negative `k` counts from the end |
| LexicalRenderer.Excerpt | src/app/services/lexical-renderer.service.ts:251-260 | The plain text unchanged, untrimmed, when it has at most `wordLimit` words. Otherwise the first `wordLimit` words joined by spaces, plus "..." |
| LexicalRenderer.ExcerptWords | src/app/services/lexical-renderer.service.ts:251-260 | A cut excerpt ends in "...", and without it holds exactly the first `wordLimit` words of the plain text |
| LexicalRenderer.DefaultExcerpt | src/app/services/lexical-renderer.service.ts:251-260 | With the default limit of 50: the plain text when it has at most 50 words, otherwise its first 50 words and "..." |
| LexicalRenderer.ExcerptLeafWords | src/app/services/lexical-renderer.service.ts:251-260 | The words the excerpt counts are the text leaves' words; a cut excerpt holds exactly the first `wordLimit` of them |
| SeoService.DocumentTitle | src/app/services/seo.service.ts:34 | A title gives "title \| My Payload Website"; no title gives the site name. The result always ends with the site name |
| SeoService.DescriptionOrDefault | src/app/services/seo.service.ts:38 | A description, else the default description; never empty |
| SeoService.Robots | src/app/services/seo.service.ts:46-51 | "noindex, nofollow" iff `noIndex`, else "index, follow" |
| SeoService.Absolute | src/app/services/seo.service.ts:262 | A URL starting with "http" is kept; any other URL is prefixed with the site URL |
| SeoService.ImageUrlOf | src/app/services/seo.service.ts:260-270 | A string image or a file's non-empty `url` is made absolute; otherwise the default image under the site URL. The result always starts with "http" |
| SeoService.ImageAltOf | src/app/services/seo.service.ts:272-278 | A file's non-empty `alt`, else "Page image" |
| SeoService.ExtractTextFromLexical | src/app/services/seo.service.ts:280-299 | No data or no root gives "". Otherwise the children's texts are joined by spaces and trimmed, then cut to 160 characters plus "..." only when longer, so the result is at most 163 long |
| SeoService.SeoTextIsTrimmedPlainText | src/app/services/seo.service.ts:280-299 | For a non-text root, the SEO text is the renderer's plain text trimmed, and cut at 160 characters |
| SeoService.Structured | src/app/services/seo.service.ts:203-231 | An `Article` iff the type is "article": its headline (title or site name), its dates (`dateModified` falls back to `publishedAt`), and an author iff one is named. Otherwise a `WebSite` whose `url` falls back to the site URL. Both carry the description with its fallback and the absolute image URL |
| SeoService.UpdateSeo | src/app/services/seo.service.ts:19-190 | Nothing outside a browser. Otherwise: the document title, description, robots; the keywords iff given, with their value; a canonical URL iff given, and `og:url` the same; the social title; the Open Graph type ("website" by default); the image URL and alt; the image width and height of `SeoService.ImageSize`; for an article, the tags of `SeoService.SetArticleTags`; and the structured data, except when an article's non-empty date is invalid, where the `RangeError` of `toISOString` stops the update before it |
| SeoService.SetArticleTags | src/app/services/seo.service.ts:174-189 | Each non-empty date is written with its time value, and a non-empty author with its value; an invalid non-empty date throws, so neither it nor anything after it is written, and the call completes exactly when neither date is invalid |
| SeoService.ImageSize | src/app/services/seo.service.ts:148-157 | A width and a height exactly when the image is an uploaded file with both dimensions non-zero, written as their decimal forms |
| SeoService.SeoImage | src/app/services/seo.service.ts:103 | `seo.image`, else the hero's media, else no image |
| SeoService.FromPage | src/app/services/seo.service.ts:96-109 | `meta.title` over the page title and `meta.description` over the hero text, the current URL or site URL + "/" + slug, type "website", `meta.noIndex` |
| SeoService.FromPost | src/app/services/seo.service.ts:111-127 | `meta.title` over the post title and `meta.description` over the hero text, the current URL or site URL + "/blog/" + slug, type "article", the dates, the first author's name |
| SeoService.PostStructuredData | src/app/services/seo.service.ts:205-221 | A post's structured data is an `Article` modified at `updatedAt`, or at `publishedAt` without one, with no author iff the post has no named author |
| SeoService.PageStructuredData | src/app/services/seo.service.ts:222-231 | A page's structured data is a `WebSite` whose URL is the current URL or the page's own |
| LayoutRenderer.ComponentFor | src/app/components/layout-renderer/layout-renderer.component.ts:22-38 | Each of "hero", "content", "mediaBlock", "cta" and "archive" selects its own component, iff that type; any other type selects none |
| LayoutRenderer.RenderBlocks | src/app/components/layout-renderer/layout-renderer.component.ts:21-39 | At most one output per block, and every output goes to the component its block's type selects |
| LayoutRenderer.RenderLayout | src/app/components/layout-renderer/layout-renderer.component.ts:20 | An absent or empty layout renders nothing |
| LayoutRenderer.RenderBlocksAppend | src/app/components/layout-renderer/layout-renderer.component.ts:21 | Blocks render in order: the output for `a + b` is the output for `a` followed by the output for `b` |
| LayoutRenderer.RenderOne | src/app/components/layout-renderer/layout-renderer.component.ts:22-38 | One block gives its component when its type is known, nothing otherwise |
| LayoutRenderer.UnknownBlockSkipped | src/app/components/layout-renderer/layout-renderer.component.ts:22-38 | A block of unknown type is skipped without error and its neighbours render as before |
| LayoutRenderer.KnownBlocksRouted | src/app/components/layout-renderer/layout-renderer.component.ts:23-37 | Each of the five block kinds reaches its own component |
| LayoutRenderer.RenderedBlocksAreKnownBlocks | src/app/components/layout-renderer/layout-renderer.component.ts:21-39 | The rendered blocks are exactly the blocks of known type, in order, each once |
| TruncatePipe.Substr | src/app/pipes/truncate.pipe.ts:13 | `substr(0, limit)`: the first `limit` characters, none for a limit of 0 or less |
| TruncatePipe.Transform | src/app/pipes/truncate.pipe.ts:7-19 | An empty value, or one within the limit, is returned as it is. Cutting without whole words gives the first `limit` characters plus the ellipsis. Cutting at whole words gives a prefix shorter than the limit that ends before the last space in the first `limit` characters, plus the ellipsis; with no space there, just the ellipsis |
| TruncatePipe.TransformDefault | src/app/pipes/truncate.pipe.ts:7 | The defaults (100 characters, whole words, "..."): short values are kept, and longer ones end in "..." and are under 103 characters |
| TruncatePipe.TruncateFits | src/app/pipes/truncate.pipe.ts:7-19 | With an empty ellipsis the result fits the limit, and truncating it again changes nothing |
| UrlUtils.DropTrailingSlash | src/app/utils/url.utils.ts:3 | At most one trailing `/` is removed |
| UrlUtils.DropLeadingSlash | src/app/utils/url.utils.ts:3 | At most one leading `/` is removed |
| UrlUtils.BuildUrl | src/app/utils/url.utils.ts:2-20 | The base and path joined by one `/`. When a parameter record is given: `?` plus the serialized non-null entries, only when at least one entry is kept |
| UrlUtils.KeptAppend | src/app/utils/url.utils.ts:7-11 | Entries are kept in record order: the entries kept from `a + b` are those kept from `a`, then those from `b` |
| UrlUtils.Kept | src/app/utils/url.utils.ts:7-11 | No more entries than parameters, and none exactly when every value is null or undefined |
| UrlUtils.KeptOne | src/app/utils/url.utils.ts:8-10 | A null or undefined value is skipped; any other value is appended as its string |
| UrlUtils.KeptEmptyIff | src/app/utils/url.utils.ts:7-11 | Nothing is kept iff every value is null or undefined |
| UrlUtils.SerializeEmptyIff | src/app/utils/url.utils.ts:13-14 | The query string is empty iff no entry was appended, whatever the encoder |
| UrlUtils.JoinStartsWithFirst | src/app/utils/url.utils.ts:13 | A joined list of entries starts with the first entry |
| UrlUtils.QueryIffSomeValue | src/app/utils/url.utils.ts:5-17 | A query is added iff some parameter has a value, and it starts with `?` |
| UrlUtils.GetSlugFromUrl | src/app/utils/url.utils.ts:22-24 | The part after the last `/`: it holds no `/`, is a suffix of the URL, is "" when the URL ends in `/`, and is the whole URL when the URL has no `/`. What is before the last `/`, plus `/` and the slug, is the URL again |
| Dates.TimeClip | src/app/pipes/duration.pipe.ts:62 | `new Date(t)` keeps a time value within ±8.64e15 ms and makes any other one invalid |
| Dates.NumericTimestamp | src/app/pipes/duration.pipe.ts:60-63 | A number below 10^10 is seconds, so it is multiplied by 1000; any other number is milliseconds (the same rule in the date-format pipe, lines 111-115) |
| Dates.TimeOf | src/app/pipes/date-format.pipe.ts:100-118 | A number's time value is its timestamp, clipped; no input has none |
| DurationPipe.UnitsOf | src/app/pipes/duration.pipe.ts:21-27 | The floor-divided seconds, minutes, hours and days, with months of 30 and years of 365 days |
| DurationPipe.UnitsNested | src/app/pipes/duration.pipe.ts:22-27 | A non-zero larger unit makes every smaller unit non-zero. The seconds are zero iff the duration is under a second |
| DurationPipe.Plural | src/app/pipes/duration.pipe.ts:90-95 | "1 unit" for one, and "N units" otherwise |
| DurationPipe.LongDuration | src/app/pipes/duration.pipe.ts:82-97 | The first non-zero unit spelled out, starting with its count (or "1 year"); "just now" exactly when every count is zero |
| DurationPipe.ShortDuration | src/app/pipes/duration.pipe.ts:99-114 | The first non-zero unit abbreviated after its count, so it starts with a digit exactly when some count is non-zero; "now" otherwise |
| DurationPipe.HoursOfDay | src/app/pipes/duration.pipe.ts:69 | The hours of the remainder after whole days are under 24, and split that remainder exactly |
| DurationPipe.MinutesOfHour | src/app/pipes/duration.pipe.ts:70 | The minutes of the remainder after whole hours are under 60, and split that remainder exactly |
| DurationPipe.SecondsOfMinute | src/app/pipes/duration.pipe.ts:71 | The seconds of the remainder after whole minutes are under 60 |
| DurationPipe.PreciseOf | src/app/pipes/duration.pipe.ts:67-71 | The hours are under 24 and the minutes and seconds under 60 |
| DurationPipe.PreciseParts | src/app/pipes/duration.pipe.ts:73-77 | No pushed part is empty |
| DurationPipe.PreciseDecomposes | src/app/pipes/duration.pipe.ts:68-71 | Days, hours under 24, minutes under 60 and seconds under 60 add up to the duration to within a second |
| DurationPipe.PreciseDuration | src/app/pipes/duration.pipe.ts:67-80 | The non-zero parts, seconds only when there are no days, joined by spaces; "0s" when no part remains |
| DurationPipe.JoinEmptyIff | src/app/pipes/duration.pipe.ts:79 | Non-empty parts join to "" iff there are none, which is when `\|\| '0s'` applies |
| DurationPipe.PreciseShape | src/app/pipes/duration.pipe.ts:73-79 | With days, no seconds part appears. There are no parts iff the duration is under a second. There are at most three parts |
| DurationPipe.Transform | src/app/pipes/duration.pipe.ts:8-55 | A falsy start gives "". Otherwise the distance to the end date, or to the clock reading, is shown precise, long or short (short is the default). An invalid date gives the all-zero text |
| DurationPipe.DurationText | src/app/pipes/duration.pipe.ts:8-55 | The output is empty exactly for a falsy start date; every format gives non-empty text otherwise |
| DurationPipe.FormatDifference | src/app/pipes/duration.pipe.ts:29-52 | Each format, on a valid or a NaN difference, gives non-empty text |
| DurationPipe.Symmetric | src/app/pipes/duration.pipe.ts:21 | Swapping the two dates gives the same output |
| DurationPipe.LargestUnit | src/app/pipes/duration.pipe.ts:82-114 | For each of years, months, days, hours, minutes and seconds: when every larger unit is 0 and this one is not, the long format is its count and name (singular for 1) and the short format its count and abbreviation. Under a second they say "just now" and "now" |
| DurationPipe.PluralNotJustNow | src/app/pipes/duration.pipe.ts:90-96 | A duration of at least a second is never "just now" |
| DurationPipe.ShortNotNow | src/app/pipes/duration.pipe.ts:107-113 | A duration of at least a second is never "now" |
| DurationPipe.OneAndTwoDays | src/app/pipes/duration.pipe.ts:92 | One day is "1 day", two are "2 days", and short two days is "2d" |
| DateFormatPipe.TransformRelative | src/app/pipes/date-format.pipe.ts:63-98 | The relative formats. A falsy or invalid date gives ""; any other date gives the relative time of its distance from the clock reading |
| DateFormatPipe.RelativeTime | src/app/pipes/date-format.pipe.ts:120-164 | A past or present instant is "just now", "yesterday" or ends in " ago", and a future one never is; a future one starts with "in " or is "tomorrow" |
| DateFormatPipe.FutureTime | src/app/pipes/date-format.pipe.ts:130-147 | The future phrase starts with "in " or is "tomorrow", and is none of the past phrases |
| DateFormatPipe.PastTime | src/app/pipes/date-format.pipe.ts:149-163 | The past phrase is "just now", "yesterday" or ends in " ago" |
| DateFormatPipe.RecentPast | src/app/pipes/date-format.pipe.ts:150-151 | Under 10 s ago is "just now", and under 60 s ago "a few seconds ago" |
| DateFormatPipe.NearFuture | src/app/pipes/date-format.pipe.ts:131-137 | Less than a minute ahead is "in a few seconds" |
| DateFormatPipe.PastMinutes | src/app/pipes/date-format.pipe.ts:152-153 | One minute ago is "1 minute ago"; 2 to 59 minutes ago are "N minutes ago" |
| DateFormatPipe.PastDays | src/app/pipes/date-format.pipe.ts:156-157 | One day ago is "yesterday"; 2 to 6 days ago are "N days ago" |
| DateFormatPipe.TwentyEightDays | src/app/pipes/date-format.pipe.ts:126-127 | 28 days ago is "0 months ago": four weeks are not under 4, and 28 days floor to 0 months |
| DateFormatPipe.ThreeHundredSixtyDays | src/app/pipes/date-format.pipe.ts:127-128 | 360 days ago is "0 years ago" |
| DateFormatPipe.SixtyOneSecondsAhead | src/app/pipes/date-format.pipe.ts:122-139 | 61 s ahead is "in 2 minutes", because the minutes floor to −2 |
| DateFormatPipe.SecondsTimestamp | src/app/pipes/date-format.pipe.ts:111-115 | The number 1 is a seconds timestamp, so at 61 s after the epoch it is "1 minute ago" |
| Faq.OfCategory | src/app/pages/static/faq/faq.component.ts:197-347 | The questions of one category, one per id, in order |
| Faq.WithCategory | src/app/pages/static/faq/faq.component.ts:383 | The filter keeps only items of the category and never lengthens the list |
| Faq.Filtered | src/app/pages/static/faq/faq.component.ts:378-385 | "all" shows the whole list in its order; any other category shows the filter for that category |
| Faq.WithCategoryAppend | src/app/pages/static/faq/faq.component.ts:383 | The filter keeps the list's order: a concatenation filters piece by piece |
| Faq.WithCategoryMembers | src/app/pages/static/faq/faq.component.ts:383 | An item is shown for a category iff it is in the list and has that category |
| Faq.WithCategoryUniform | src/app/pages/static/faq/faq.component.ts:383 | A list all of one category is kept whole under that category and emptied under any other |
| Faq.BlockCount | src/app/pages/static/faq/faq.component.ts:383 | A block of one category counts in full under that category and not at all under another |
| Faq.CountBlocks | src/app/pages/static/faq/faq.component.ts:197-347 | Under one category, five single-category blocks count exactly the block of that category |
| Faq.CategorySize | src/app/pages/static/faq/faq.component.ts:197-347 | The list has 20 questions: 3 general, 4 each of services, pricing and process, and 5 technical |
| Faq.Toggle | src/app/pages/static/faq/faq.component.ts:365-376 | The id is open afterwards iff it was closed before; every other id is unchanged |
| Faq.ToggleTwice | src/app/pages/static/faq/faq.component.ts:365-376 | Toggling the same question twice restores the open set |
| Faq.ToggleCommutes | src/app/pages/static/faq/faq.component.ts:365-376 | Toggling two questions gives the same open set in either order |
| Faq.FaqPage.constructor | src/app/pages/static/faq/faq.component.ts:192-195 | At first every category is active, nothing is open and the shown list is empty |
| Faq.FaqPage.OnInit | src/app/pages/static/faq/faq.component.ts:351-354 | `ngOnInit` fills the shown list for the active category |
| Faq.FaqPage.UpdateFilteredFaqs | src/app/pages/static/faq/faq.component.ts:378-385 | The shown list becomes the filter of the list for the active category, and nothing else changes |
| Faq.FaqPage.SetActiveCategory | src/app/pages/static/faq/faq.component.ts:356-363 | The category is set, the shown list recomputed and every answer closed |
| Faq.FaqPage.ToggleFaq | src/app/pages/static/faq/faq.component.ts:365-376 | The open set becomes the toggle of the old one, and nothing else changes |
| GenericError.Get | src/app/pages/error/generic-error/generic-error.component.ts:190-195 | A parameter's value when present, `null` (None) otherwise |
| GenericError.OrElse | src/app/pages/error/generic-error/generic-error.component.ts:190 | The JavaScript or-operator on an optional string: `a` when it is present and non-empty, else `b` |
| GenericError.KindOf | src/app/pages/error/generic-error/generic-error.component.ts:198-283 | A string names a table entry only when it is that entry's key |
| GenericError.KindOfKey | src/app/pages/error/generic-error/generic-error.component.ts:198-283 | Every entry of the table is found by its key |
| GenericError.Config | src/app/pages/error/generic-error/generic-error.component.ts:198-283 | A table entry is its code, title, message, icon and colour |
| GenericError.TableWellFormed | src/app/pages/error/generic-error/generic-error.component.ts:198-283 | Every entry has a colour of red, orange or blue and a non-empty title. A status entry's code is its key, and `network` and `generic` have no code |
| GenericError.ErrorType | src/app/pages/error/generic-error/generic-error.component.ts:190 | An absent or empty `type` is "500"; any other value is kept. The result is never empty |
| GenericError.ParamFlags | src/app/pages/error/generic-error/generic-error.component.ts:194-195 | The retry button shows iff `retry` is "true". The contact link is hidden iff `contact` is "false" |
| GenericError.BaseConfig | src/app/pages/error/generic-error/generic-error.component.ts:287-288 | The type's own entry, or the `generic` entry for a type the table lacks |
| GenericError.ConfigOf | src/app/pages/error/generic-error/generic-error.component.ts:286-295 | The selected entry, with a non-empty `title` or `message` parameter replacing only that text |
| GenericError.MissingTypeIsServerError | src/app/pages/error/generic-error/generic-error.component.ts:286-288 | Without `type` the page shows code 500 in red |
| GenericError.UnknownTypeIsGeneric | src/app/pages/error/generic-error/generic-error.component.ts:288 | An unknown type shows the generic entry: no code, icon "error", red |
| GenericError.OverridesOnlyTexts | src/app/pages/error/generic-error/generic-error.component.ts:290-294 | Dropping `title` and `message` leaves the code, icon and colour unchanged |
| GenericError.ConfigColorValid | src/app/pages/error/generic-error/generic-error.component.ts:286-295 | Whatever the parameters, the colour is one the class tables know and the title is not empty |
| GenericError.ToneOf | src/app/pages/error/generic-error/generic-error.component.ts:302-306 | A colour has a row in the class tables iff it is red, orange or blue |
| GenericError.IconClasses | src/app/pages/error/generic-error/generic-error.component.ts:298-309 | Defined iff the colour is known, and then it starts with the base classes and a space |
| GenericError.DetailsClasses | src/app/pages/error/generic-error/generic-error.component.ts:315-326 | Defined iff the colour is known, and then it starts with the base classes and a space |
| GenericError.Joined | src/app/pages/error/generic-error/generic-error.component.ts:308 | The base classes, a space and the colour's classes, defined iff the colour's classes are |
| GenericError.ColorClasses | src/app/pages/error/generic-error/generic-error.component.ts:296-359 | The lookup `colorClasses[color]` of each of the five tables (icon, details, details icon, details title, details text): defined iff the colour is red, orange or blue; the three detail-class getters are this lookup alone |
| GenericError.ClassesDefined | src/app/pages/error/generic-error/generic-error.component.ts:298-359 | Every colour-dependent class lookup on the page (the icon and details classes and all five tables) is defined, whatever the parameters |
| GenericError.SeoTitleOf | src/app/pages/error/generic-error/generic-error.component.ts:368 | With a code: the code, " - " and the title. Without one: the title |
| GenericError.SetupSeo | src/app/pages/error/generic-error/generic-error.component.ts:365-372 | The SEO title with its code prefix, the message as description, and always `noIndex` |
| GenericError.SeoTitles | src/app/pages/error/generic-error/generic-error.component.ts:365-372 | A status error's title starts with its code and " - "; a network error's title is just its title |
| GenericError.ConfigAsWritten | src/app/pages/error/generic-error/generic-error.component.ts:286-295 | As written: a type not named after an inherited object member gives the corrected configuration, field by field. An inherited name (`constructor`, `__proto__`, `toString`, ...) leaves the code, icon and colour undefined |
| GenericError.IconClassesAsWritten | src/app/pages/error/generic-error/generic-error.component.ts:298-309 | As written: the base classes always come first, followed by the colour's classes or "undefined" |
| GenericError.SeoTitleAsWritten | src/app/pages/error/generic-error/generic-error.component.ts:365-372 | As written: equal to the corrected SEO title for every type not named after an inherited member |
| GenericError.InheritedKeyAsWritten | src/app/pages/error/generic-error/generic-error.component.ts:286-309 | An inherited member's name as `type`, with no `title`, gives no colour, the icon classes "… undefined" and the page title "undefined" |
| GenericError.InheritedTypeFinding | src/app/pages/error/generic-error/generic-error.component.ts:288 | `?type=constructor`: as written the classes and title show "undefined"; corrected, the generic entry ("Something went wrong") with defined classes |
| Archive.CategoryIds | src/app/components/blocks/archive-block/archive-block.component.ts:241 | One id per chosen category, in the categories' order |
| Archive.FetchQuery | src/app/components/blocks/archive-block/archive-block.component.ts:233-242 | The block's limit or 6, the page, newest first, and a comma-joined category filter exactly when categories are chosen |
| Archive.CategoryFilterIds | src/app/components/blocks/archive-block/archive-block.component.ts:240-242 | When no id holds a comma, splitting the filter at commas gives back the chosen ids |
| Archive.MergePage | src/app/components/blocks/archive-block/archive-block.component.ts:246-250 | Page 1 replaces the list; a later page keeps the list and adds its posts after it |
| Archive.PagesAccumulate | src/app/components/blocks/archive-block/archive-block.component.ts:246-250 | Loading pages 1 to n in order shows every page's posts in page order, whatever was shown before |
| Archive.ArchiveBlockComponent.constructor | src/app/components/blocks/archive-block/archive-block.component.ts:205-208 | No posts, not loading, nothing more, page 1, no request |
| Archive.ArchiveBlockComponent.LoadPosts | src/app/components/blocks/archive-block/archive-block.component.ts:211-228 | A selection is shown as is, with nothing more. Else pre-populated posts are shown, with more iff the total exceeds them. Else page 1 is requested |
| Archive.ArchiveBlockComponent.FetchPosts | src/app/components/blocks/archive-block/archive-block.component.ts:230-244 | Loading starts, and the request for the page is recorded with its query |
| Archive.ArchiveBlockComponent.OnPostsLoaded | src/app/components/blocks/archive-block/archive-block.component.ts:245-255 | Only for a page that was requested: the page's posts merged into the list, `hasMore` from the response, the page recorded, loading stopped |
| Archive.ArchiveBlockComponent.OnPostsFailed | src/app/components/blocks/archive-block/archive-block.component.ts:256-259 | Loading stops, and the list, `hasMore` and the page are unchanged |
| Archive.ArchiveBlockComponent.LoadMore | src/app/components/blocks/archive-block/archive-block.component.ts:263-266 | At the end or while loading, nothing happens. Otherwise the next page is requested |
| Blog.Merged | src/app/pages/blog/blog.component.ts:305-309 | Append mode keeps the list and adds the response's posts after it; replace mode shows only the response's posts |
| Blog.BlogComponent.constructor | src/app/pages/blog/blog.component.ts:255-261 | No posts, no category, loading, nothing more, page 1 |
| Blog.BlogComponent.OnInit | src/app/pages/blog/blog.component.ts:263-267 | Exactly one request is added, for page 1 in replace mode, with the main spinner on; the list, page and category are kept |
| Blog.BlogComponent.LoadPosts | src/app/pages/blog/blog.component.ts:287-303 | Page 1 shows the main spinner and later pages the "load more" one. One parameterless request is recorded with the page and mode its callbacks close over, whatever the category |
| Blog.BlogComponent.OnPostsLoaded | src/app/pages/blog/blog.component.ts:304-317 | Only for a request that was made: the list is merged by that request's mode, `hasMore` comes from the response, that request's page is recorded, and both spinners stop |
| Blog.BlogComponent.OnPostsFailed | src/app/pages/blog/blog.component.ts:318-322 | Both spinners stop and everything else is kept |
| Blog.BlogComponent.FilterByCategory | src/app/pages/blog/blog.component.ts:326-330 | The category is set, the page reset to 1 and exactly one request added, for page 1 in replace mode; the list stays until the response |
| Blog.BlogComponent.LoadMore | src/app/pages/blog/blog.component.ts:332-336 | When there is more and no "load more" is running, exactly one request is added, for the page after the current one in append mode; otherwise nothing changes |
| BlogPost.ShownRelated | src/app/pages/blog-post/blog-post.component.ts:180 | At most three related posts, the first ones in order |
| BlogPost.RelatedImageAlt | src/app/pages/blog-post/blog-post.component.ts:184-188 | An image only when the related post's hero has media. Its alt text is the media's alt, or the post's title when that is empty |
| BlogPost.PostPath | src/app/pages/blog-post/blog-post.component.ts:282 | The canonical path `/blog/<slug>` passed to the SEO service |
| BlogPost.BlogPostComponent.constructor | src/app/pages/blog-post/blog-post.component.ts:262-264 | No post, loading, empty slug, no request, no SEO, no navigation |
| BlogPost.BlogPostComponent.OnRouteParams | src/app/pages/blog-post/blog-post.component.ts:266-277 | The slug is taken from the route. An empty slug requests nothing; any other requests that post and shows the spinner |
| BlogPost.BlogPostComponent.OnPostLoaded | src/app/pages/blog-post/blog-post.component.ts:279-285 | A found post is stored and its SEO set for its path; a missing one changes neither. Loading stops either way |
| BlogPost.BlogPostComponent.OnPostFailed | src/app/pages/blog-post/blog-post.component.ts:286-290 | Loading stops and the page navigates to `/404` |
| MediaUrls.CardUrl | src/app/components/blocks/archive-block/archive-block.component.ts:268-274 | The card rendition's URL exactly when the media has one that is non-empty |
| MediaUrls.FeatureUrl | src/app/components/blocks/media-block/media-block.component.ts:123-132 | The feature rendition's URL exactly when the media has one that is non-empty |
| MediaUrls.CardImageUrl | src/app/components/blocks/archive-block/archive-block.component.ts:268-274 | The card rendition when present, else the original URL (also `getImageUrl` of src/app/pages/blog/blog.component.ts:338-343 and src/app/pages/blog-post/blog-post.component.ts:294-299) |
| MediaUrls.FeatureImageUrl | src/app/components/blocks/media-block/media-block.component.ts:123-132 | The feature rendition when present, else the original URL |
| MediaBlocks.SectionClasses | src/app/components/blocks/media-block/media-block.component.ts:115-117 | No background classes exactly for the full-screen position |
| MediaBlocks.IsVideo | src/app/components/blocks/media-block/media-block.component.ts:119-121 | Exactly the MIME types `video/<subtype>`, for any subtype |
| MediaBlocks.View | src/app/components/blocks/media-block/media-block.component.ts:16-155 | Nothing without media. A `video/` MIME type gives a video of the original URL with the card rendition as poster. Anything else gives an image of the feature rendition, alt text defaulting to "Media". A caption iff the block has one, rendered |
| Content.GridClasses | src/app/components/blocks/content-block/content-block.component.ts:86-106 | No classes without columns; 1, 2 and 3 columns get their own grids and any other count, none included, the four-column grid. Only a single column lacks the grid prefix |
| Content.ColumnSize | src/app/components/blocks/content-block/content-block.component.ts:22 | A column's size defaults to `full` and is never empty |
| Content.ColumnClasses | src/app/components/blocks/content-block/content-block.component.ts:108-128 | A span iff the block has more than one column and the size is one of the four; it is then the size's span, with a leading space |
| Content.SizeSpan | src/app/components/blocks/content-block/content-block.component.ts:114-125 | A span exactly for the four sizes, always a ` lg:col-span-` class; half and two-thirds are exactly the sizes spanning two columns |
| Content.ColumnDefaults | src/app/components/blocks/content-block/content-block.component.ts:108-128 | In a multi-column block a missing or empty size spans the full width, and `half` spans like `twoThirds` |
| CallToAction.LinkClasses | src/app/components/blocks/cta-block/cta-block.component.ts:145-157 | The base classes plus the variant's; anything but secondary or outline is primary |
| CallToAction.VariantsDiffer | src/app/components/blocks/cta-block/cta-block.component.ts:145-157 | The three appearances give three different class lists |
| Links.DocumentPath | src/app/components/header/header.component.ts:416-428 | Posts live under `/blog/`, every other collection at the root |
| Links.LinkedSlug | src/app/components/header/header.component.ts:420-425 | A reference link's slug exactly when the link names a populated document with a slug |
| Links.LinkUrl | src/app/components/header/header.component.ts:416-428 | A custom link's URL or "#". A reference's document path, or "#" without a slug. Never empty (the same copy in the footer, the content, hero and call-to-action blocks) |
| Links.Appearance | src/app/components/blocks/cta-block/cta-block.component.ts:56 | A link's appearance defaults to `primary` and is never empty |
| Links.SlugOfLinkUrl | src/app/utils/url.utils.ts:22-24 | The slug read back from a reference link's URL is the linked document's slug, when it has no slash |
| Links.SlugAfterPrefix | src/app/utils/url.utils.ts:22-24 | The last path segment after any prefix is the slug |
| Links.NoRouteIff | src/app/components/header/header.component.ts:416-428 | A link resolves to "#" iff it is a custom link with an empty URL or an unresolvable reference |
| SearchModal.ResultId | src/app/components/search-modal/search-modal.component.ts:343-345 | Starts with the collection and a dash and ends with the document's id, nothing between |
| SearchModal.ResultIdInjective | src/app/components/search-modal/search-modal.component.ts:343-345 | For dash-free collection names, equal identifiers mean the same collection and document id |
| SearchModal.ResultUrl | src/app/components/search-modal/search-modal.component.ts:351-354 | The document's path in its collection: `/blog/<slug>` for posts, `/<slug>` otherwise (the search page's `getResultUrl` is the same) |
| SearchModal.ResultDescription | src/app/components/search-modal/search-modal.component.ts:356-386 | The shared description with a 30-word limit |
| SearchModal.ShortQueries | src/app/components/search-modal/search-modal.component.ts:312-322 | Blank queries and queries under two characters are never sent |
| SearchModal.TooShort | src/app/components/search-modal/search-modal.component.ts:312 | Every query of fewer than two characters is too short |
| SearchModal.SearchModalComponent.constructor | src/app/components/search-modal/search-modal.component.ts:297-299 | Empty query, no results, not loading, no search made |
| SearchModal.SearchModalComponent.OnSearchInput | src/app/components/search-modal/search-modal.component.ts:337-341 | The untrimmed input value becomes the query, and nothing else changes |
| SearchModal.SearchModalComponent.OnQuery | src/app/components/search-modal/search-modal.component.ts:311-318 | Under two trimmed characters the results are cleared at once and nothing is sent. Otherwise loading starts and this query is sent |
| SearchModal.SearchModalComponent.OnSearchResults | src/app/components/search-modal/search-modal.component.ts:326-329 | The results replace the list and loading stops |
| SearchModal.SearchModalComponent.OnSearchFailed | src/app/components/search-modal/search-modal.component.ts:319-329 | The list is emptied and loading stops |
| PostExcerpts.ColumnsRichText | src/app/components/blocks/archive-block/archive-block.component.ts:287-291 | Nothing iff no column has a rich text; otherwise one of the columns' rich texts |
| PostExcerpts.FirstRichTextAt | src/app/components/blocks/archive-block/archive-block.component.ts:285-298 | The search returns the earliest block offering a rich text |
| PostExcerpts.FirstRichTextNone | src/app/components/blocks/archive-block/archive-block.component.ts:285-298 | The search finds nothing iff no block offers a rich text |
| PostExcerpts.FindLayoutRichText | src/app/components/blocks/archive-block/archive-block.component.ts:285-298 | The nested loops with their early returns compute the first rich text of the layout |
| PostExcerpts.ColumnsFrom | src/app/components/blocks/archive-block/archive-block.component.ts:287-291 | The column loop returns the first column that has a rich text |
| PostExcerpts.PostDescription | src/app/components/blocks/archive-block/archive-block.component.ts:276-304 | The archive block's excerpt, with a 25-word limit, is the shared description (the search modal's `getResultDescription` is the same with a 30-word limit) |
| PostExcerpts.Description | src/app/components/blocks/archive-block/archive-block.component.ts:276-304 | A non-empty meta description is the description; a non-empty description comes from the meta description, the hero's rich text or a rich text in the layout |
| PostExcerpts.DescriptionSources | src/app/components/blocks/archive-block/archive-block.component.ts:276-304 | A meta description wins. With no source the description is empty. Otherwise it is the excerpt of the earliest block offering a rich text |
| PostExcerpts.DescriptionWordLimit | src/app/components/blocks/archive-block/archive-block.component.ts:281-283 | An excerpt from a long hero text is its first words up to the limit, then "..." |
| PostExcerpts.BlogExcerpt | src/app/pages/blog/blog.component.ts:345-355 | The blog's excerpt is the shared description with nothing from the layout, so a meta description wins |
| Header.ThemeValue | src/app/components/header/header.component.ts:469-475 | The stored theme is "dark" exactly for dark mode, "light" otherwise |
| Header.DarkFromPreference | src/app/components/header/header.component.ts:406 | A stored "dark" means dark and any other stored value light. With nothing stored (or an empty value) the system preference decides |
| Header.ThemeRoundTrip | src/app/components/header/header.component.ts:463-476 | A stored choice reads back as itself, whatever the system prefers |
| Header.HeaderComponent.constructor | src/app/components/header/header.component.ts:360-365 | All menus and the search closed, light mode, no navigation |
| Header.HeaderComponent.LoadThemePreference | src/app/components/header/header.component.ts:401-414 | In a browser, dark mode is the stored-or-preferred choice and the document's class matches it. Outside a browser nothing changes |
| Header.HeaderComponent.ToggleTheme | src/app/components/header/header.component.ts:463-476 | In a browser the mode flips, the document's class follows and the new theme is stored; outside a browser nothing changes |
| Header.HeaderComponent.ToggleMobileMenu | src/app/components/header/header.component.ts:443-445 | Only the mobile menu flips |
| Header.HeaderComponent.CloseMobileMenu | src/app/components/header/header.component.ts:447-449 | Only the mobile menu closes |
| Header.HeaderComponent.ToggleUserMenu | src/app/components/header/header.component.ts:451-453 | Only the user menu flips |
| Header.HeaderComponent.ToggleSearch | src/app/components/header/header.component.ts:455-457 | Only the search overlay flips |
| Header.HeaderComponent.CloseSearch | src/app/components/header/header.component.ts:459-461 | Only the search overlay closes |
| Header.HeaderComponent.OnDocumentClick | src/app/components/header/header.component.ts:375-385 | A click outside the user menu and its toggle closes the user menu; a click inside changes nothing |
| Header.HeaderComponent.OnLoggedOut | src/app/components/header/header.component.ts:478-486 | After logout the user menu closes and the page goes home |
| Header.ToggleThenReload | src/app/components/header/header.component.ts:401-476 | Toggling the theme and loading the preference again keeps the toggled theme, with the document's class in step |
| Hero.HeroType | src/app/components/blocks/hero-block/hero-block.component.ts:104 | The hero type defaults to `default` and is never empty |
| Hero.HeroClasses | src/app/components/blocks/hero-block/hero-block.component.ts:103-116 | The base classes plus full screen height, the minimal padding, or the default padding |
| Hero.TextAlignmentClass | src/app/components/blocks/hero-block/hero-block.component.ts:129-138 | Alignment classes exactly for the minimal hero |
| Hero.ContentClasses | src/app/components/blocks/hero-block/hero-block.component.ts:118-127 | Always a centred flex row; it ends with centred, padded text exactly for the minimal hero and with the 60vh minimum height exactly for the others |
| Hero.ContentClassShapes | src/app/components/blocks/hero-block/hero-block.component.ts:118-127 | The minimal and the other class list both start with the centred flex row, and each ends with its own tail and not with the other's |
| Hero.OnlyMinimalDiffers | src/app/components/blocks/hero-block/hero-block.component.ts:118-138 | Content and alignment classes depend only on whether the hero is minimal |
| Hero.ProseClasses | src/app/components/blocks/hero-block/hero-block.component.ts:140-149 | White prose iff the hero has media or is full screen, grey prose otherwise |
| Hero.LinkClasses | src/app/components/blocks/hero-block/hero-block.component.ts:179-195 | The base classes plus the variant for the appearance and the presence of media |
| Hero.LinkVariant | src/app/components/blocks/hero-block/hero-block.component.ts:183-193 | The secondary variant exactly for `secondary`; the primary one exactly for an appearance that is neither `secondary` nor `outline`; for `outline`, the white variant exactly over media |
| Hero.LinkAppearances | src/app/components/blocks/hero-block/hero-block.component.ts:179-195 | Primary is the fallback, and only the outline variant depends on media. With media it differs from the outline without |
| FooterNav.Entry | src/app/components/footer/footer.component.ts:82-86 | The link's address and label. A new tab gets `_blank` and `noopener noreferrer`, otherwise `_self` and no rel |
| FooterNav.ShownItems | src/app/components/footer/footer.component.ts:79-80 | At most the first four navigation items, none without footer data or items |
| FooterNav.Navigation | src/app/components/footer/footer.component.ts:78-102 | The shown items' entries in order, then always the blog link, so between one and five entries |
| FooterNav.ShortNavigationComplete | src/app/components/footer/footer.component.ts:80 | With at most four items every item is shown, pointing where its link points |
| Initials.FirstChars | src/app/pages/static/team/team.component.ts:547-548 | One character at most per piece |
| Initials.WordStarts | src/app/pages/static/team/team.component.ts:545-549 | Reference definition of the initials, never longer than the name |
| Initials.FirstCharsOfSplit | src/app/pages/static/team/team.component.ts:546-548 | Splitting at spaces and joining first characters picks exactly the characters that start a word |
| Initials.WordStartsFromName | src/app/pages/static/team/team.component.ts:546-548 | Every initial is a non-space character of the name |
| Initials.TeamInitials | src/app/pages/static/team/team.component.ts:544-550 | The team page's initials are all the word starts, upper-cased, uncapped |
| Initials.CappedInitials | src/app/pages/profile/profile.component.ts:533-540 | The same initials cut to two characters |
| Initials.AuthorInitials | src/app/components/blocks/archive-block/archive-block.component.ts:306-316 | At most two initials of a non-empty name; else the e-mail's first character upper-cased; else "A" (the same in the blog, the post page and the post preview) |
| Initials.UserInitials | src/app/components/header/header.component.ts:431-441 | The capped initials of a non-empty name, else the e-mail's first character upper-cased; no result (a thrown error) iff both are empty |
| Initials.TwoWords | src/app/pages/profile/profile.component.ts:533-540 | A two-word name gives the two words' first letters, upper-cased |
| Initials.WordStartsConcat | src/app/pages/static/team/team.component.ts:546-548 | Two words joined by a space start with their first letters and no more |
| Initials.OneWord | src/app/pages/static/team/team.component.ts:546-548 | A word at a word start contributes its first letter only |
| Initials.AfterSpace | src/app/pages/static/team/team.component.ts:546 | A space makes the next character a word start |
| Initials.SkipWord | src/app/pages/static/team/team.component.ts:546-548 | The rest of a word contributes nothing |
| PreviewPost.PreviewTitle | src/app/pages/preview-post/preview-post.component.ts:342 | The document's title followed by " (Preview)" and nothing else |
| PreviewPost.PostPreviewSeo | src/app/pages/preview-post/preview-post.component.ts:341-346 | The preview title, the meta description or "Blog post preview", never indexed, typed as an article |
| PreviewPost.ExitRoute | src/app/pages/preview-post/preview-post.component.ts:361-369 | The published post `/blog/<slug>` when the post has a slug, else the blog |
| PreviewPost.AdminUrl | src/app/pages/preview-post/preview-post.component.ts:374 | The post's page under `/admin/collections/posts/`, ending with its id |
| PreviewPost.PreviewPostComponent.constructor | src/app/pages/preview-post/preview-post.component.ts:310-313 | No post, loading, no error, no id, no request, no SEO, no navigation, no window opened |
| PreviewPost.PreviewPostComponent.OnInitSignedOut | src/app/pages/preview-post/preview-post.component.ts:317-321 | Without a session the login page opens with the current URL to return to, and nothing is loaded; every other field stays as it was |
| PreviewPost.PreviewPostComponent.OnRouteParams | src/app/pages/preview-post/preview-post.component.ts:324-336 | The id is taken from the route. An empty id loads nothing; any other clears the error, shows the spinner and requests the draft; every other field stays as it was |
| PreviewPost.PreviewPostComponent.OnPreviewLoaded | src/app/pages/preview-post/preview-post.component.ts:337-349 | The draft is stored, its preview SEO set and loading stopped; every other field stays as it was |
| PreviewPost.PreviewPostComponent.OnPreviewFailed | src/app/pages/preview-post/preview-post.component.ts:350-357 | The server's message, else the fixed permission message, is shown (never empty), and loading stops; every other field stays as it was |
| PreviewPost.PreviewPostComponent.ExitPreview | src/app/pages/preview-post/preview-post.component.ts:361-369 | Navigates to the exit route of the loaded post; every other field stays as it was |
| PreviewPost.PreviewPostComponent.OpenInAdmin | src/app/pages/preview-post/preview-post.component.ts:371-376 | With a post its admin page opens once; without one nothing opens; every other field stays as it was |
| PreviewPage.PagePreviewSeo | src/app/pages/preview-page/preview-page.component.ts:200-204 | The preview title, the meta description or "Page preview", never indexed, no page type |
| PreviewPage.ExitRoute | src/app/pages/preview-page/preview-page.component.ts:219-227 | The published page `/<slug>` when the page has a slug, else the home page |
| PreviewPage.PreviewPageComponent.constructor | src/app/pages/preview-page/preview-page.component.ts:169-172 | No page, loading, no error, no id, no request, no SEO, no navigation |
| PreviewPage.PreviewPageComponent.OnInitSignedOut | src/app/pages/preview-page/preview-page.component.ts:176-180 | Without a session the login page opens with the current URL to return to, and nothing is loaded; every other field stays as it was |
| PreviewPage.PreviewPageComponent.OnRouteParams | src/app/pages/preview-page/preview-page.component.ts:183-195 | The id is taken from the route. An empty id loads nothing; any other clears the error, shows the spinner and requests the draft; every other field stays as it was |
| PreviewPage.PreviewPageComponent.OnPreviewLoaded | src/app/pages/preview-page/preview-page.component.ts:196-207 | The draft is stored, its preview SEO set and loading stopped; every other field stays as it was |
| PreviewPage.PreviewPageComponent.OnPreviewFailed | src/app/pages/preview-page/preview-page.component.ts:208-215 | The server's message, else the fixed permission message, is shown (never empty), and loading stops; every other field stays as it was |
| PreviewPage.PreviewPageComponent.ExitPreview | src/app/pages/preview-page/preview-page.component.ts:219-227 | Navigates to the exit route of the loaded page; every other field stays as it was |
| Profile.PasswordMismatch | src/app/pages/profile/profile.component.ts:428-436 | The form reports a mismatch exactly when the new password and its confirmation differ (the reset-password form's validator is the same check on its two fields) |
| Profile.ValidPasswordForm | src/app/pages/profile/profile.component.ts:418-425 | A valid password form holds a confirmed new password of at least eight characters and a current password |
| Profile.PasswordFormValid | src/app/pages/profile/profile.component.ts:418-425 | Valid exactly when the current password is filled, the new one has at least eight characters, and the confirmation equals it |
| Profile.ProfileFormValid | src/app/pages/profile/profile.component.ts:412-415 | A valid profile form has a name and an e-mail; a rejected e-mail makes it invalid |
| Profile.AvatarInitials | src/app/pages/profile/profile.component.ts:533-540 | At most two initials, of the name when it is set, of the e-mail otherwise |
| Profile.SettingsSeo | src/app/pages/profile/profile.component.ts:438-444 | The settings page is titled "Account Settings", has no image and is never indexed |
| Profile.FieldOf | src/app/pages/profile/profile.component.ts:414-415 | The user's field, or "" without a user |
| Profile.ProfileComponent.constructor | src/app/pages/profile/profile.component.ts:391-398 | Empty forms, nothing in progress, no message, nothing sent |
| Profile.ProfileComponent.OnInit | src/app/pages/profile/profile.component.ts:400-444 | Without a session only the login navigation happens. With one the forms are filled from the user, the password fields emptied and the SEO set; the progress, message and success flags and the request logs stay as they were, and without a session so do both forms |
| Profile.ProfileComponent.UpdateProfile | src/app/pages/profile/profile.component.ts:446-454 | A valid form sends the name and e-mail, shows progress and clears the messages; an invalid one does nothing; every other field stays as it was (the other form, its flags and requests, the navigation and the SEO data) |
| Profile.ProfileComponent.OnProfileUpdated | src/app/pages/profile/profile.component.ts:455-457 | Progress stops and success shows; every other field stays as it was (the other form, its flags and requests, the navigation and the SEO data) |
| Profile.ProfileComponent.OnProfileUpdateFailed | src/app/pages/profile/profile.component.ts:461-464 | Progress stops and the server's message, else "Failed to update profile", shows; every other field stays as it was (the other form, its flags and requests, the navigation and the SEO data) |
| Profile.ProfileComponent.OnProfileSuccessExpired | src/app/pages/profile/profile.component.ts:459 | The success message goes away; every other field, of both forms, stays as it was |
| Profile.ProfileComponent.ChangePassword | src/app/pages/profile/profile.component.ts:469-477 | A valid form sends the current and new password, shows progress and clears the messages; an invalid one does nothing; every other field stays as it was (the other form, its flags and requests, the navigation and the SEO data) |
| Profile.ProfileComponent.OnPasswordChanged | src/app/pages/profile/profile.component.ts:478-482 | Progress stops, success shows, and the form is emptied, so it is invalid again; every other field stays as it was (the other form, its flags and requests, the navigation and the SEO data) |
| Profile.ProfileComponent.OnPasswordChangeFailed | src/app/pages/profile/profile.component.ts:485-488 | Progress stops and the server's message, else "Failed to change password", shows; the fields stay; every other field stays as it was (the other form, its flags and requests, the navigation and the SEO data) |
| Profile.ProfileComponent.OnPasswordSuccessExpired | src/app/pages/profile/profile.component.ts:483 | The success message goes away; every other field, of both forms, stays as it was |
| ResetPassword.ResetSeo | src/app/pages/auth/reset-password/reset-password.component.ts:363-369 | The page is titled "Reset Password" and never indexed |
| ResetPassword.FormValid | src/app/pages/auth/reset-password/reset-password.component.ts:353-361 | Valid exactly when the password has at least eight characters and the confirmation equals it |
| ResetPassword.TokenRejected | src/app/pages/auth/reset-password/reset-password.component.ts:393 | Only client-error statuses (400 to 499) reject the link |
| ResetPassword.ResetPasswordComponent.constructor | src/app/pages/auth/reset-password/reset-password.component.ts:334-340 | Empty form, not loading, password hidden, no error, not reset, link valid, no token |
| ResetPassword.ResetPasswordComponent.OnInit | src/app/pages/auth/reset-password/reset-password.component.ts:342-377 | The form emptied and the SEO set; the link invalid exactly without a (non-empty) token; home when already signed in; every other field stays as it was |
| ResetPassword.ResetPasswordComponent.OnSubmit | src/app/pages/auth/reset-password/reset-password.component.ts:379-386 | A valid form with a token sends the token and password and clears the error; otherwise nothing happens; every other field stays as it was |
| ResetPassword.ResetPasswordComponent.OnResetSucceeded | src/app/pages/auth/reset-password/reset-password.component.ts:387-390 | Loading stops and the reset is confirmed; every other field stays as it was |
| ResetPassword.ResetPasswordComponent.OnResetFailed | src/app/pages/auth/reset-password/reset-password.component.ts:391-398 | Status 400 or 401 invalidates the link without a message. Any other error shows the server's message or the fixed one; every other field stays as it was |
| ResetPassword.ResetPasswordComponent.TogglePasswordVisibility | src/app/pages/auth/reset-password/reset-password.component.ts:403-405 | Only the password visibility flips; the fields, the token, the flags, the requests, the navigation and the SEO data stay as they were |
| ResetPassword.NoTokenNoReset | src/app/pages/auth/reset-password/reset-password.component.ts:371-386 | A page opened without a token never sends a reset, whatever is typed |
| SearchPage.ResultDescription | src/app/pages/search/search.component.ts:82-84 | Only the meta description, "" without meta |
| SearchPage.SearchComponent.constructor | src/app/pages/search/search.component.ts:59-60 | No query, no results, no search |
| SearchPage.SearchComponent.OnQueryParams | src/app/pages/search/search.component.ts:62-69 | A non-empty `q` becomes the query and is searched for; otherwise nothing changes |
| SearchPage.SearchComponent.OnResults | src/app/pages/search/search.component.ts:71-76 | The results replace the list |
| PayloadTypes.ServerMessageOr | src/app/pages/profile/profile.component.ts:463 | The server's error message when there is one, else the fallback; never empty with a non-empty fallback (the same choice in the reset-password and preview pages) |
| Strings.TrimStart | src/app/components/search-modal/search-modal.component.ts:312 | Drops exactly the leading white space: what remains is a suffix starting with a non-space |
| Strings.TrimEnd | src/app/components/search-modal/search-modal.component.ts:312 | Drops exactly the trailing white space: what remains is a prefix ending with a non-space |
| Strings.Trim | src/app/components/search-modal/search-modal.component.ts:312 | `String.prototype.trim`: empty, or beginning and ending with a non-space |
| Strings.TrimEmptyIff | src/app/components/search-modal/search-modal.component.ts:312 | A string trims to nothing iff it is all white space |
| Strings.Split | src/app/pipes/truncate.pipe.ts:13 | `split(sep)` on one character: at least one piece, no piece holding the separator |
| Strings.ConcatAppend | src/app/services/lexical-renderer.service.ts:98 | `join('')` of two lists is the join of each, concatenated |
| Strings.JoinSplit | src/app/pipes/truncate.pipe.ts:13-15 | Joining the pieces of a split with the separator gives back the string |
| Strings.SplitJoin | src/app/components/blocks/archive-block/archive-block.component.ts:241 | Splitting a join of separator-free pieces gives back the pieces |
| Strings.SplitPiece | src/app/components/search-modal/search-modal.component.ts:343-345 | A separator-free piece and a separator split off as the first piece |
| Strings.SplitSnocSep | src/app/pipes/truncate.pipe.ts:13 | A trailing separator adds one empty last piece |
| Strings.SplitSnocOther | src/app/pipes/truncate.pipe.ts:13 | A trailing non-separator extends the last piece |
| Strings.SnocAfterSep | src/app/pipes/truncate.pipe.ts:13 | Step of the previous property past a leading separator |
| Strings.SnocAfterOther | src/app/pipes/truncate.pipe.ts:13 | Step of the previous property past a leading non-separator |
| Strings.BeforeLast | src/app/pipes/truncate.pipe.ts:13-15 | The text before the last separator, or "" without one |
| Strings.JoinSplitDropLast | src/app/pipes/truncate.pipe.ts:13-15 | Splitting, dropping the last piece and joining keeps exactly the text before the last separator |
| Strings.AfterLast | src/app/utils/url.utils.ts:22-24 | The separator-free tail of the string after its last separator |
| Strings.BeforeAndAfterLast | src/app/utils/url.utils.ts:22-24 | A string with a separator is the text before its last separator, that separator, and the tail |
| Strings.LastOfSnoc | src/app/utils/url.utils.ts:23 | Step of the previous property for one more character |
| Strings.LastOfSplit | src/app/utils/url.utils.ts:23 | `split(sep).pop()` is the text after the last separator |
| Strings.SplitNoSep | src/app/pipes/truncate.pipe.ts:13 | A string without the separator splits into itself |
| Strings.Words | src/app/services/lexical-renderer.service.ts:253 | The non-empty runs of non-space characters |
| Strings.SplitWords | src/app/services/lexical-renderer.service.ts:253 | `trim().split(/\s+/)`: at least one piece, `[""]` for blank text |
| Strings.WordsSkipSpace | src/app/services/lexical-renderer.service.ts:253 | Leading white space yields no word |
| Strings.WordsPrefix | src/app/services/lexical-renderer.service.ts:253 | A word followed by white space or the end is the first word |
| Strings.WordsOfJoin | src/app/services/lexical-renderer.service.ts:259 | The words of space-joined words are those words |
| Strings.WordsOfAllAppend | src/app/services/lexical-renderer.service.ts:244 | The words of a list of strings distribute over concatenation of the list |
| Strings.WordsAroundSpace | src/app/services/lexical-renderer.service.ts:244 | A whitespace character between two strings separates their words: the words of `a + c + b` are those of `a`, then those of `b` |
| Strings.WordsOfJoinAll | src/app/services/lexical-renderer.service.ts:244 | The words of any strings joined by single spaces are the words of each string in turn, whatever spaces or empty strings they hold |
| Strings.JoinAppend | src/app/services/lexical-renderer.service.ts:244 | Joining two non-empty lists puts exactly one separator between their joins |
| Strings.WordsTrimStart | src/app/services/lexical-renderer.service.ts:253 | Leading whitespace does not change the words |
| Strings.WordsTrimEnd | src/app/services/lexical-renderer.service.ts:253 | Trailing whitespace does not change the words |
| Strings.WordsTrim | src/app/services/lexical-renderer.service.ts:253 | `trim()` does not change the words |
| Strings.SplitWordsAreWords | src/app/services/lexical-renderer.service.ts:253 | With more than one piece, the pieces are the words of the text |
| Strings.SplitWordsOfJoin | src/app/services/lexical-renderer.service.ts:253-259 | Splitting space-joined words gives those words back |
| Strings.JoinedWordsTrimmed | src/app/services/lexical-renderer.service.ts:253-259 | Space-joined words have nothing to trim |
| Strings.JoinEnds | src/app/services/lexical-renderer.service.ts:259 | Space-joined words begin and end with a non-space |
| Strings.UpperChar | src/app/components/header/header.component.ts:437 | `toUpperCase` on ASCII: a lower-case letter moves 32 code points down, anything else stays |
| Strings.ToUpper | src/app/components/header/header.component.ts:437 | Same length, each character upper-cased |
| Strings.ToUpperAppend | src/app/components/header/header.component.ts:437 | Upper-casing distributes over concatenation |
| Strings.Prefix | src/app/components/header/header.component.ts:438 | `slice(0, n)`: the first n characters, or all of a shorter string |
| Strings.NatToString | src/app/pipes/duration.pipe.ts:74-77 | The decimal digits of a number, with no leading zero except for 0 itself |
| Strings.IntToString | src/app/services/lexical-renderer.service.ts:124 | The decimal form of an integer, never empty |
| Strings.ParseNatToString | src/app/pipes/duration.pipe.ts:74-77 | Reading back the decimal digits gives the number |
| Strings.DigitChar | src/app/pipes/duration.pipe.ts:74-77 | The character of a digit is a decimal digit character that reads back as that digit |

## Findings

| source | as written | input that shows it | evidently intended | confidence | as-written member | corrected member |
|---|---|---|---|---|---|---|
| src/app/pages/error/generic-error/generic-error.component.ts:286-295 | `errorConfigs[type]` is a plain property lookup on an object literal, so a `type` naming a member every object inherits (`constructor`, `toString`, `__proto__`, ...) finds that member instead of falling back to `generic` | `?type=constructor`: no colour and no code; the icon classes end in "undefined" and the page title is "undefined" | an unknown type, inherited member names included, shows the `generic` entry | not executed | GenericError.InheritedTypeFinding (with GenericError.ConfigAsWritten) | GenericError.ConfigOf (with GenericError.ConfigColorValid) |

## Left out

- HTTP, storage and the session: the API service, the interceptors and the route guard are not part of this model. Requests are recorded and responses passed to callback methods, so a response that never arrives, or arrives twice, is not ruled out.
- SeoService.UpdateSeo: the `article:` date tags hold `toISOString()` of the date; the model records the time value and does not format it as ISO 8601. The date strings' time values are the parameter `parse`. A `RangeError` is modelled as the update stopping before the structured data; what the caller does with the exception is not modelled (also `SeoService.SetArticleTags`).
- DOM writes of the SEO service (the `Title` and `Meta` services, the structured-data script, the canonical link, `clearSEO`): only the values written are modelled (`SeoService.UpdateSeo`).
- The `og:image:width` and `og:image:height` values are written as `toString()` of the numbers; the model takes the dimensions as integers and writes their decimal form (`SeoService.ImageSize`).
- Console logging in every error callback: it has no effect on state.
- Timing in the search modal: `debounceTime`, `distinctUntilChanged` and the cancellation by `switchMap` are not modelled. A query reaches `SearchModal.SearchModalComponent.OnQuery` once it is delivered. A repeated query is sent again, and results of a stale search are accepted.
- `setTimeout` in the profile page: the clearing of the success messages after three seconds is the explicit methods `OnProfileSuccessExpired` and `OnPasswordSuccessExpired`, callable at any time.
- Float arithmetic and randomness: `getObjectPosition` in the hero and media blocks multiplies floats, and the server-error page's `Math.random` id is not part of this model.
- Locale-dependent output: every `formatDate` helper, the `human-date` pipe, `getCalendarTime` and the default, `iso` and `timestamp` branches of the `dateFormat` pipe call the locale and `Date` APIs.
- Date strings: parsing is not modelled. A date string comes with its parsed time value, or none for an invalid date, as part of the input (`Dates.DateInput`). The current time is a parameter.
- The `time-ago` pipe: it only delegates to the relative-time branch of `dateFormat`, which is modelled.
- Markup-only pages (about, services, terms, privacy, not found, server error, careers, contact, login, register, forgot password, home), configuration files, directives and tailwind settings: they hold no logic beyond templates and library calls.
- `UrlUtils.isExternalUrl`: it reads `window.location`.
- The query encoder of `buildUrl` (`URLSearchParams`, the application/x-www-form-urlencoded serializer of the WHATWG URL Standard): it is a function parameter of `UrlUtils.BuildUrl`, and nothing is proved about its output.
- Strings are sequences of Unicode scalar values (Dafny's `char`), where JavaScript's `length`, indices and slices count UTF-16 code units. The two agree on text inside the Basic Multilingual Plane; a character outside it (an emoji, say) counts once in the model and twice in JavaScript. The members below inherit this difference:
- SearchModal.TooShort: a query of one emoji is two code units long in JavaScript and is sent; the model counts one character and drops it (also `SearchModal.SearchModalComponent.OnQuery`).
- TruncatePipe.Substr: `substr` cuts by code units, so "😀😀" with limit 2 is cut in JavaScript and kept whole by the model (also `TruncatePipe.Transform`).
- SeoService.ExtractTextFromLexical: the 160-character cut counts scalar values, not code units.
- Initials.FirstChars: `n[0]` and `slice(0, 2)` may take half of a surrogate pair in JavaScript; the model takes whole characters (also `Initials.CappedInitials`, `Initials.AuthorInitials` and `Initials.UserInitials`).
- Profile.PasswordFormValid: `minLength(8)` counts code units, so four emoji pass in JavaScript and fail in the model (also `Profile.ValidPasswordForm` and `ResetPassword.FormValid`).
- Strings.IntToString: JavaScript writes a number of 10^21 or more in exponent form ("1e+21") and a non-integer with its fraction; the model takes the list `start` attribute and the image dimensions to be integers below 10^21 and writes their decimal digits (also `Strings.NatToString`).
- Strings.UpperChar: it upper-cases ASCII letters only, where `toUpperCase` maps all of Unicode. The `\s` of `split(/\s+/)` and `trim` are modelled by `Strings.IsSpace`.
- FAQ texts: the question and answer strings of the 20 entries are not copied; the table keeps their ids and categories.
- `setupSEO` of the blog and FAQ pages and the blog's `loadCategories`: fixed SEO values and a list fetch that no modelled state depends on.
- The profile page's `onAvatarUpload` and `logoutAllDevices`, and the navigation-only buttons (`goHome`, `goBack`, `tryAgain`, `goToHome`).
- The header's `loadHeaderData` and `loadCurrentUser`, and the footer's `loadFooterData`: subscriptions that copy a response into a signal.
- Angular's `Validators.email`: whether the e-mail field passes it is the parameter `emailAccepted` of `Profile.ProfileComponent.UpdateProfile`.
- LexicalRenderer.Render: an element node without a `children` array makes `children.map` throw a `TypeError`. The model gives every node a (possibly empty) sequence of children, so it renders such a node with no content.
- Attribute safety: nothing is proved about `href`, `style`, `rel` or `target` values breaking out of their attribute. Escaping leaves quotes unchanged, and `rel` and `target` are not escaped.
- The header's click listener is `Header.HeaderComponent.OnDocumentClick`: the `closest(...)` lookups of the clicked element are its two boolean parameters.
