/** The Lexical rich-text renderer: a recursive walk over the editor's node tree that emits an
    HTML string, the bit-mask formatting of text leaves, and a second walk that extracts plain
    text and word-limited excerpts. */
module LexicalRenderer {
  import opened Wrappers
  import opened Strings

  /** The `format` field of a node: absent, a keyword (element alignment) or a number (text
      format flags, or element alignment flags). */
  datatype Format = NoFormat | Keyword(name: string) | Bits(n: int)

  /** A Lexical node. Fields a node does not carry are the empty string (or 0 for `start`):
      the renderer only ever tests them for truthiness. A node with no `children` array has
      `children == []`. */
  datatype Node = Node(
    nodeType: string,
    children: seq<Node>,
    text: string,
    format: Format,
    style: string,
    tag: string,
    listType: string,
    start: int,
    url: string,
    rel: string,
    target: string)

  /** The serialized editor state: `{ root: ... }`, where `root` may be missing. */
  datatype LexicalData = LexicalData(root: Option<Node>)

  /** A node of the given type with the given children and nothing else. */
  function Element(nodeType: string, children: seq<Node>): Node {
    Node(nodeType, children, "", NoFormat, "", "", "", 0, "", "", "")
  }

  /** A text leaf. */
  function TextLeaf(text: string, format: Format): Node {
    Node("text", [], text, format, "", "", "", 0, "", "", "")
  }

  /** The node types the renderer knows, and every other type. */
  datatype NodeType = Root | Paragraph | Heading | List | ListItem | Quote | Code | Link | Text | Unknown

  /** The case of `renderNode`'s `switch` that a `type` string selects. */
  function TypeOf(t: string): (k: NodeType)
    ensures k == Text <==> t == "text"
  {
    if t == "root" then Root
    else if t == "paragraph" then Paragraph
    else if t == "heading" then Heading
    else if t == "list" then List
    else if t == "listitem" then ListItem
    else if t == "quote" then Quote
    else if t == "code" then Code
    else if t == "link" then Link
    else if t == "text" then Text
    else Unknown
  }

  // ---------------------------------------------------------------------------------------
  // Escaping

  /** One character as the HTML fragment serialization algorithm writes it in a text node
      (WHATWG HTML, section 13.3, "escaping a string" outside attribute mode). */
  function EscapeChar(c: char): string {
    if c == '&' then "&amp;"
    else if c == '\U{00A0}' then "&nbsp;"
    else if c == '<' then "&lt;"
    else if c == '>' then "&gt;"
    else [c]
  }

  /** `escapeHtml`: what `innerHTML` returns after `textContent` was set to `s`. */
  function EscapeHtml(s: string): (r: string)
    ensures '<' !in r && '>' !in r && '\U{00A0}' !in r
    ensures |r| >= |s|
    ensures ('&' !in s && '<' !in s && '>' !in s && '\U{00A0}' !in s) ==> r == s
  {
    EscapedProperties(s);
    EscapeEach(s)
  }

  /** Each character replaced by its escape, in order. */
  function EscapeEach(s: string): string
    decreases |s|
  {
    if s == [] then "" else EscapeChar(s[0]) + EscapeEach(s[1..])
  }

  lemma EscapedProperties(s: string)
    ensures var r := EscapeEach(s);
      '<' !in r && '>' !in r && '\U{00A0}' !in r && |r| >= |s| &&
      (('&' !in s && '<' !in s && '>' !in s && '\U{00A0}' !in s) ==> r == s)
  {
    EscapedNoMarkup(s);
    EscapedLength(s);
  }

  /** No markup character and no non-breaking space survives escaping. */
  lemma {:induction false} EscapedNoMarkup(s: string)
    ensures var r := EscapeEach(s); '<' !in r && '>' !in r && '\U{00A0}' !in r
    decreases |s|
  {
    if s != [] {
      EscapedNoMarkup(s[1..]);
      var h, t := EscapeChar(s[0]), EscapeEach(s[1..]);
      assert '<' !in h && '>' !in h && '\U{00A0}' !in h;
      assert forall c :: c in h + t ==> c in h || c in t;
    }
  }

  /** Escaping never shortens, and leaves a string without special characters as it is. */
  lemma EscapedLength(s: string)
    ensures |EscapeEach(s)| >= |s|
    ensures ('&' !in s && '<' !in s && '>' !in s && '\U{00A0}' !in s) ==> EscapeEach(s) == s
  {
    EscapedLonger(s);
    if '&' !in s && '<' !in s && '>' !in s && '\U{00A0}' !in s {
      EscapedIdentity(s);
    }
  }

  lemma {:induction false} EscapedLonger(s: string)
    ensures |EscapeEach(s)| >= |s|
    decreases |s|
  {
    if s != [] {
      EscapedLonger(s[1..]);
    }
  }

  lemma {:induction false} EscapedIdentity(s: string)
    requires '&' !in s && '<' !in s && '>' !in s && '\U{00A0}' !in s
    ensures EscapeEach(s) == s
    decreases |s|
  {
    if s != [] {
      var c, rest := s[0], s[1..];
      assert c in s;
      assert forall x :: x in rest ==> x in s;
      EscapedIdentity(rest);
      assert EscapeChar(c) == [c];
      assert s == [c] + rest;
    }
  }

  /** Escaping distributes over concatenation. */
  lemma EscapeHtmlAppend(a: string, b: string)
    ensures EscapeHtml(a + b) == EscapeHtml(a) + EscapeHtml(b)
  {
    EscapeEachAppend(a, b);
  }

  lemma {:induction false} EscapeEachAppend(a: string, b: string)
    ensures EscapeEach(a + b) == EscapeEach(a) + EscapeEach(b)
    decreases |a|
  {
    if a == [] {
      assert a + b == b;
    } else {
      assert (a + b)[0] == a[0] && (a + b)[1..] == a[1..] + b;
      EscapeEachAppend(a[1..], b);
    }
  }

  /** The inverse of `EscapeHtml`: replaces the four character references it writes by the
      characters they stand for. */
  function UnescapeHtml(t: string): string
    decreases |t|
  {
    if t == [] then ""
    else if t[0] != '&' then [t[0]] + UnescapeHtml(t[1..])
    else if StartsWith(t, "&amp;") then "&" + UnescapeHtml(t[5..])
    else if StartsWith(t, "&nbsp;") then "\U{00A0}" + UnescapeHtml(t[6..])
    else if StartsWith(t, "&lt;") then "<" + UnescapeHtml(t[4..])
    else if StartsWith(t, "&gt;") then ">" + UnescapeHtml(t[4..])
    else "&" + UnescapeHtml(t[1..])
  }

  /** Unescaping an escaped character followed by anything. */
  lemma UnescapeEscapeChar(c: char, rest: string)
    ensures UnescapeHtml(EscapeChar(c) + rest) == [c] + UnescapeHtml(rest)
  {
    var e := EscapeChar(c);
    var t := e + rest;
    assert t[..|e|] == e && t[|e|..] == rest;
    if c == '&' {
      assert StartsWith(t, "&amp;");
    } else if c == '\U{00A0}' {
      assert t[1] == 'n';
      assert !StartsWith(t, "&amp;");
      assert StartsWith(t, "&nbsp;");
    } else if c == '<' {
      assert t[1] == 'l';
      assert !StartsWith(t, "&amp;") && !StartsWith(t, "&nbsp;");
      assert StartsWith(t, "&lt;");
    } else if c == '>' {
      assert t[1] == 'g';
      assert !StartsWith(t, "&amp;") && !StartsWith(t, "&nbsp;") && !StartsWith(t, "&lt;");
      assert StartsWith(t, "&gt;");
    } else {
      assert t[0] == c && t[1..] == rest;
    }
  }

  /** Escaping loses nothing: every string is recovered from its escaped form. */
  lemma {:induction false} UnescapeEscape(s: string)
    ensures UnescapeHtml(EscapeHtml(s)) == s
    decreases |s|
  {
    if s != [] {
      UnescapeEscape(s[1..]);
      UnescapeEscapeChar(s[0], EscapeHtml(s[1..]));
      assert [s[0]] + s[1..] == s;
    }
  }

  // ---------------------------------------------------------------------------------------
  // Alignment and text formats

  /** `node.format & flag` is non-zero, for a flag that is a power of two. Dafny's division
      rounds towards negative infinity here, which gives the bits of the two's complement
      form that JavaScript's `&` uses for negative numbers. */
  predicate HasFlag(n: int, flag: nat)
    requires flag > 0
  {
    (n / flag) % 2 == 1
  }

  /** `getAlignmentClass`. */
  function AlignmentClass(f: Format): (c: string)
    ensures c in ["", "text-left", "text-center", "text-right", "text-justify"]
    ensures f.NoFormat? ==> c == ""
    ensures f.Keyword? ==>
      && (c == "text-left" <==> f.name == "left")
      && (c == "text-center" <==> f.name == "center")
      && (c == "text-right" <==> f.name == "right")
      && (c == "text-justify" <==> f.name == "justify")
    ensures f.Bits? ==>
      && (c == "text-center" <==> HasFlag(f.n, 1))
      && (c == "text-right" <==> !HasFlag(f.n, 1) && HasFlag(f.n, 2))
      && (c == "text-justify" <==> !HasFlag(f.n, 1) && !HasFlag(f.n, 2) && HasFlag(f.n, 4))
      && c != "text-left"
  {
    match f
    case Keyword(name) =>
      if name == "left" then "text-left"
      else if name == "center" then "text-center"
      else if name == "right" then "text-right"
      else if name == "justify" then "text-justify"
      else ""
    case Bits(n) =>
      if HasFlag(n, 1) then "text-center"
      else if HasFlag(n, 2) then "text-right"
      else if HasFlag(n, 4) then "text-justify"
      else ""
    case NoFormat => ""
  }

  /** ` class="c"` when `c` is non-empty, nothing otherwise. */
  function ClassAttr(c: string): string {
    if c == "" then "" else " class=\"" + c + "\""
  }

  /** The format flags of a text leaf: the number, when `format` is a non-zero number. */
  function TextFlags(f: Format): int {
    if f.Bits? then f.n else 0
  }

  /** `renderTextNode`: the seven format flags are tested in a fixed order, each wrapping the
      text built so far; the code flag escapes what it wraps; a style wraps everything in a
      `span`. */
  function RenderText(n: Node): (r: string)
    ensures r == Styled(ApplyWraps(n.text, TextFlags(n.format), Wraps()), n.style)
  {
    var b := TextFlags(n.format);
    var t7 := WrapStep(WrapStep(WrapStep(WrapStep(WrapStep(WrapStep(WrapStep(
                n.text, b, StrongWrap), b, EmWrap), b, StrikeWrap), b, UnderlineWrap), b, CodeWrap),
                b, SubWrap), b, SupWrap);
    WrapsUnrolled(n.text, b);
    if n.style != "" then "<span style=\"" + EscapeHtml(n.style) + "\">" + t7 + "</span>" else t7
  }

  /** One entry of the text-format table: the flag, the element it wraps in, and whether the
      wrapped text is escaped first. */
  datatype Wrap = Wrap(flag: nat, open: string, close: string, escapes: bool)

  const StrongWrap := Wrap(1, "<strong>", "</strong>", false)
  const EmWrap := Wrap(2, "<em>", "</em>", false)
  const StrikeWrap := Wrap(4, "<s>", "</s>", false)
  const UnderlineWrap := Wrap(8, "<u>", "</u>", false)
  const CodeWrap := Wrap(16, "<code>", "</code>", true)
  const SubWrap := Wrap(32, "<sub>", "</sub>", false)
  const SupWrap := Wrap(64, "<sup>", "</sup>", false)

  /** The text-format table, innermost wrap first. */
  function Wraps(): seq<Wrap> {
    [StrongWrap, EmWrap, StrikeWrap, UnderlineWrap, CodeWrap, SubWrap, SupWrap]
  }

  /** Applying the table is applying its seven wraps one after the other. */
  lemma WrapsUnrolled(t: string, b: int)
    ensures ApplyWraps(t, b, Wraps()) == WrapStep(WrapStep(WrapStep(WrapStep(WrapStep(WrapStep(WrapStep(
              t, b, StrongWrap), b, EmWrap), b, StrikeWrap), b, UnderlineWrap), b, CodeWrap), b, SubWrap), b, SupWrap)
  {
    var ws := Wraps();
    assert ws[0] == StrongWrap && ws[1] == EmWrap && ws[2] == StrikeWrap && ws[3] == UnderlineWrap;
    assert ws[4] == CodeWrap && ws[5] == SubWrap && ws[6] == SupWrap;
    var a1 := WrapStep(t, b, StrongWrap);
    assert ApplyFirst(t, b, ws, 1) == a1;
    var a2 := WrapStep(a1, b, EmWrap);
    assert ApplyFirst(t, b, ws, 2) == a2;
    var a3 := WrapStep(a2, b, StrikeWrap);
    assert ApplyFirst(t, b, ws, 3) == a3;
    var a4 := WrapStep(a3, b, UnderlineWrap);
    assert ApplyFirst(t, b, ws, 4) == a4;
    var a5 := WrapStep(a4, b, CodeWrap);
    assert ApplyFirst(t, b, ws, 5) == a5;
    var a6 := WrapStep(a5, b, SubWrap);
    assert ApplyFirst(t, b, ws, 6) == a6;
    assert ApplyFirst(t, b, ws, 7) == WrapStep(a6, b, SupWrap);
  }

  /** One wrap: applied when its flag is set in `b`. */
  function WrapStep(t: string, b: int, w: Wrap): string {
    if w.flag > 0 && HasFlag(b, w.flag) then w.open + (if w.escapes then EscapeHtml(t) else t) + w.close
    else t
  }

  /** Applies the first `k` wraps of `ws` whose flag is set in `b`, first entry innermost. */
  function ApplyFirst(t: string, b: int, ws: seq<Wrap>, k: nat): string
    requires k <= |ws|
    decreases k
  {
    if k == 0 then t else WrapStep(ApplyFirst(t, b, ws, k - 1), b, ws[k - 1])
  }

  /** Applies all the wraps of `ws` whose flag is set in `b`. */
  function ApplyWraps(t: string, b: int, ws: seq<Wrap>): string {
    ApplyFirst(t, b, ws, |ws|)
  }

  /** A `style` wraps the formatted text once more, outermost. */
  function Styled(t: string, style: string): string {
    if style == "" then t else "<span style=\"" + EscapeHtml(style) + "\">" + t + "</span>"
  }

  /** With no flags set every wrap is skipped. */
  lemma {:induction false} ApplyWrapsNone(t: string, ws: seq<Wrap>, k: nat)
    requires k <= |ws|
    ensures ApplyFirst(t, 0, ws, k) == t
    decreases k
  {
    if k > 0 {
      ApplyWrapsNone(t, ws, k - 1);
    }
  }

  /** A text leaf with format 0, or none, and no style is its bare text. */
  lemma PlainTextLeaf(n: Node)
    requires TypeOf(n.nodeType) == Text && n.style == ""
    requires n.format == NoFormat || n.format == Bits(0) || n.format.Keyword?
    ensures RenderNode(n) == n.text
  {
    ApplyWrapsNone(n.text, Wraps(), |Wraps()|);
  }

  /** Bold and italic: italic is applied second and so is outermost. */
  lemma BoldItalic(t: string)
    ensures RenderNode(TextLeaf(t, Bits(3))) == "<em><strong>" + t + "</strong></em>"
  {
    var n := TextLeaf(t, Bits(3));
    assert HasFlag(3, 1) && HasFlag(3, 2);
    assert !HasFlag(3, 4) && !HasFlag(3, 8) && !HasFlag(3, 16) && !HasFlag(3, 32) && !HasFlag(3, 64);
    var t1 := WrapStep(t, 3, StrongWrap);
    var t2 := WrapStep(t1, 3, EmWrap);
    assert t2 == "<em><strong>" + t + "</strong></em>";
    assert RenderNode(n) == RenderText(n);
  }

  /** Escaping a tag around text that needs no escaping. */
  lemma EscapeTag(open: string, t: string, close: string)
    requires '&' !in t && '<' !in t && '>' !in t && '\U{00A0}' !in t
    ensures EscapeHtml(open + t + close) == EscapeHtml(open) + t + EscapeHtml(close)
  {
    EscapeHtmlAppend(open, t);
    EscapeHtmlAppend(open + t, close);
  }

  /** The escaped form of the opening `strong` tag. */
  lemma EscapedOpenStrong()
    ensures EscapeHtml("<strong>") == "&lt;strong&gt;"
  {
    assert EscapeHtml("<") == "&lt;" && EscapeHtml(">") == "&gt;";
    assert "<strong>" == "<" + "strong" + ">";
    EscapeTag("<", "strong", ">");
    assert "&lt;" + "strong" + "&gt;" == "&lt;strong&gt;";
  }

  /** The escaped form of the closing `strong` tag. */
  lemma EscapedCloseStrong()
    ensures EscapeHtml("</strong>") == "&lt;/strong&gt;"
  {
    assert EscapeHtml("<") == "&lt;" && EscapeHtml(">") == "&gt;";
    assert "</strong>" == "<" + "/strong" + ">";
    EscapeTag("<", "/strong", ">");
    assert "&lt;" + "/strong" + "&gt;" == "&lt;/strong&gt;";
  }

  /** The code flag escapes the markup of the flags applied before it: bold code shows its
      `strong` tags as text. */
  lemma BoldCode(t: string)
    requires '&' !in t && '<' !in t && '>' !in t && '\U{00A0}' !in t
    ensures RenderNode(TextLeaf(t, Bits(17))) == "<code>&lt;strong&gt;" + t + "&lt;/strong&gt;</code>"
  {
    var n := TextLeaf(t, Bits(17));
    assert HasFlag(17, 1) && HasFlag(17, 16);
    assert !HasFlag(17, 2) && !HasFlag(17, 4) && !HasFlag(17, 8) && !HasFlag(17, 32) && !HasFlag(17, 64);
    assert RenderNode(n) == RenderText(n);
    assert RenderText(n) == "<code>" + EscapeHtml("<strong>" + t + "</strong>") + "</code>";
    EscapeTag("<strong>", t, "</strong>");
    EscapedOpenStrong();
    EscapedCloseStrong();
    RegroupCode(t);
  }

  lemma RegroupCode(t: string)
    ensures "<code>" + ("&lt;strong&gt;" + t + "&lt;/strong&gt;") + "</code>"
      == "<code>&lt;strong&gt;" + t + "&lt;/strong&gt;</code>"
  {
  }

  // ---------------------------------------------------------------------------------------
  // Rendering

  /** `render`: the HTML of a document, or "" when there is no document or no root. The root
      is dispatched on its own type like any other node. */
  function Render(data: Option<LexicalData>): (r: string)
    ensures data.None? || data.value.root.None? ==> r == ""
    ensures data.Some? && data.value.root.Some? ==> r == RenderNode(data.value.root.value)
  {
    if data.None? || data.value.root.None? then "" else RenderNode(data.value.root.value)
  }

  /** The `if (!richText) return ''` guard the block components put before `render`: it gives
      what `render` itself gives for a missing document. */
  function RenderRichText(richText: Option<LexicalData>): (r: string)
    ensures r == Render(richText)
    ensures richText.None? ==> r == ""
  {
    if richText.None? then "" else Render(richText)
  }

  /** `renderNode`: dispatch on the node type; an unknown type renders as "" and its children
      are not visited. */
  function RenderNode(n: Node): (r: string)
    ensures TypeOf(n.nodeType) == Unknown ==> r == ""
    decreases n, 1
  {
    match TypeOf(n.nodeType)
    case Text => RenderText(n)
    case Unknown => ""
    case _ => RenderElement(n, RenderChildren(n.children))
  }

  /** `children.map(renderNode).join('')`. */
  function RenderChildren(cs: seq<Node>): string
    decreases cs, 2
  {
    if cs == [] then "" else RenderNode(cs[0]) + RenderChildren(cs[1..])
  }

  /** The element renderers of `renderNode`, given the children's HTML `content`: nothing for a
      text leaf or an unknown type, the content itself for the root, and a tagged element for
      every other type. */
  function RenderElement(n: Node, content: string): (r: string)
    ensures TypeOf(n.nodeType) == Text || TypeOf(n.nodeType) == Unknown ==> r == ""
    ensures TypeOf(n.nodeType) == Root ==> r == content
    ensures TypeOf(n.nodeType) !in {Text, Unknown, Root} ==> Tagged(r)
  {
    match TypeOf(n.nodeType)
    case Root => content
    case Paragraph => RenderParagraph(content, n.format)
    case Heading => RenderHeading(content, n.format, n.tag)
    case List => RenderList(content, n.listType, n.start)
    case ListItem => "<li>" + content + "</li>"
    case Quote => "<blockquote" + ClassAttr(AlignmentClass(n.format)) + ">" + content + "</blockquote>"
    case Code => "<pre><code>" + EscapeHtml(content) + "</code></pre>"
    case Link => RenderLink(content, n.url, n.rel, n.target)
    case Text => ""
    case Unknown => ""
  }

  /** Text that opens with `<` and closes with `>`, as an HTML element does. */
  predicate Tagged(r: string) {
    r != [] && r[0] == '<' && r[|r| - 1] == '>'
  }

  /** An element: its opening text, its attributes, `>`, the content and the closing tag. */
  function HtmlElement(open: string, attrs: string, content: string, close: string): (r: string)
    requires open != [] && open[0] == '<' && close != [] && close[|close| - 1] == '>'
    ensures StartsWith(r, open) && EndsWith(r, ">" + content + close)
    ensures Tagged(r)
  {
    Enclosed(open, attrs, content, close);
    open + attrs + ">" + content + close
  }

  lemma Enclosed(open: string, attrs: string, content: string, close: string)
    requires open != [] && close != []
    ensures var r := open + attrs + ">" + content + close;
      StartsWith(r, open) && EndsWith(r, ">" + content + close) &&
      r[0] == open[0] && r[|r| - 1] == close[|close| - 1]
  {
    var r := open + attrs + ">" + content + close;
    var tail := ">" + content + close;
    assert r == open + (attrs + tail);
    assert r[..|open|] == open;
    assert r == (open + attrs) + tail;
    assert r[|r| - |tail|..] == tail;
  }

  /** `renderParagraphNode`: a paragraph element; a blank one holds a line break, any other
      holds the content as it is. */
  function RenderParagraph(content: string, format: Format): (r: string)
    ensures StartsWith(r, "<p") && EndsWith(r, "</p>") && Tagged(r)
    ensures Trim(content) != [] ==> EndsWith(r, ">" + content + "</p>")
  {
    if Trim(content) == [] then BlankParagraphShape(); "<p><br></p>"
    else
      var r := HtmlElement("<p", ClassAttr(AlignmentClass(format)), content, "</p>");
      SuffixOfSuffix(r, ">" + content, "</p>");
      r
  }

  lemma BlankParagraphShape()
    ensures StartsWith("<p><br></p>", "<p") && EndsWith("<p><br></p>", "</p>") && Tagged("<p><br></p>")
  {
    assert "<p><br></p>"[..2] == "<p";
    assert "<p><br></p>"[7..] == "</p>";
  }

  /** A string that ends with `a + b` ends with `b`. */
  lemma SuffixOfSuffix(s: string, a: string, b: string)
    requires EndsWith(s, a + b)
    ensures EndsWith(s, b)
  {
    assert s[|s| - |b|..] == s[|s| - |a + b|..][|a|..];
  }

  /** `renderHeadingNode`: an element named by the tag, `h1` when there is none, around the
      content. */
  function RenderHeading(content: string, format: Format, tag: string): (r: string)
    ensures var t := if tag == "" then "h1" else tag;
      StartsWith(r, "<" + t) && EndsWith(r, ">" + content + ("</" + t + ">")) && Tagged(r)
  {
    var t := if tag == "" then "h1" else tag;
    HtmlElement("<" + t, ClassAttr(AlignmentClass(format)), content, "</" + t + ">")
  }

  /** `renderListNode`: an ordered list for the `number` type and an unordered one otherwise,
      around the content. */
  function RenderList(content: string, listType: string, start: int): (r: string)
    ensures var t := if listType == "number" then "ol" else "ul";
      StartsWith(r, "<" + t) && EndsWith(r, ">" + content + ("</" + t + ">")) && Tagged(r)
  {
    var tag := if listType == "number" then "ol" else "ul";
    var className := if listType == "check" then "checklist" else "";
    var startAttr := if listType == "number" && start != 0 then " start=\"" + IntToString(start) + "\"" else "";
    HtmlElement("<" + tag, ClassAttr(className) + startAttr, content, "</" + tag + ">")
  }

  /** `renderLinkNode`: an anchor whose `href` is the escaped URL, around the content. */
  function RenderLink(content: string, url: string, rel: string, target: string): (r: string)
    ensures StartsWith(r, "<a href=\"" + EscapeHtml(url) + "\"") && EndsWith(r, ">" + content + "</a>")
    ensures Tagged(r)
  {
    var relAttr := if rel == "" then "" else " rel=\"" + rel + "\"";
    var targetAttr := if target == "" then "" else " target=\"" + target + "\"";
    HtmlElement("<a href=\"" + EscapeHtml(url) + "\"", relAttr + targetAttr, content, "</a>")
  }

  /** Every known element type other than text renders its children first and hands their
      HTML to its element renderer; a root is just that HTML. */
  lemma ElementDispatch(n: Node)
    requires TypeOf(n.nodeType) != Unknown && TypeOf(n.nodeType) != Text
    ensures RenderNode(n) == RenderElement(n, RenderChildren(n.children))
    ensures TypeOf(n.nodeType) == Root ==> RenderNode(n) == RenderChildren(n.children)
  {
  }

  /** A paragraph whose content trims to nothing renders as an empty paragraph holding a line
      break, whatever its alignment; otherwise it carries a class attribute iff its alignment
      class is non-empty. */
  lemma ParagraphOutput(n: Node, content: string)
    requires TypeOf(n.nodeType) == Paragraph
    ensures var cls := AlignmentClass(n.format);
      RenderElement(n, content)
        == if Trim(content) == [] then "<p><br></p>"
           else if cls == "" then "<p>" + content + "</p>"
           else "<p class=\"" + cls + "\">" + content + "</p>"
  {
    assert RenderElement(n, content) == RenderParagraph(content, n.format);
    ParagraphOpenTag(AlignmentClass(n.format));
  }

  lemma ParagraphOpenTag(cls: string)
    ensures "<p" + ClassAttr(cls) + ">" == if cls == "" then "<p>" else "<p class=\"" + cls + "\">"
  {
  }

  /** The content trims to nothing exactly when it is all whitespace: a paragraph holding only
      whitespace is rendered as an empty one. */
  lemma BlankParagraph(n: Node, content: string)
    requires TypeOf(n.nodeType) == Paragraph
    requires AllSpace(content)
    ensures RenderElement(n, content) == "<p><br></p>"
  {
    TrimEmptyIff(content);
    assert RenderElement(n, content) == RenderParagraph(content, n.format);
  }

  /** A heading uses its `tag`, or `h1` without one, and a class attribute iff its alignment
      class is non-empty. */
  lemma HeadingOutput(n: Node, content: string)
    requires TypeOf(n.nodeType) == Heading
    ensures var cls := AlignmentClass(n.format);
      var tag := if n.tag == "" then "h1" else n.tag;
      RenderElement(n, content)
        == if cls == "" then "<" + tag + ">" + content + "</" + tag + ">"
           else "<" + tag + " class=\"" + cls + "\">" + content + "</" + tag + ">"
  {
    var cls := AlignmentClass(n.format);
    var tag := if n.tag == "" then "h1" else n.tag;
    assert RenderElement(n, content) == RenderHeading(content, n.format, n.tag);
    var open := "<" + tag + ClassAttr(cls) + ">";
    assert RenderHeading(content, n.format, n.tag) == open + content + ("</" + tag + ">");
    assert open + content + ("</" + tag + ">") == open + content + "</" + tag + ">";
    if cls == "" {
      assert "<" + tag + ClassAttr(cls) + ">" == "<" + tag + ">";
    } else {
      assert "<" + tag + ClassAttr(cls) + ">" == "<" + tag + " class=\"" + cls + "\">";
    }
  }

  lemma NumberedList(content: string, start: int)
    ensures RenderList(content, "number", start)
      == if start != 0 then "<ol start=\"" + IntToString(start) + "\">" + content + "</ol>"
         else "<ol>" + content + "</ol>"
  {
    assert "<" + "ol" == "<ol";
    assert "</" + "ol" + ">" == "</ol>";
    if start != 0 {
      var s := IntToString(start);
      assert ClassAttr("") + (" start=\"" + s + "\"") == " start=\"" + s + "\"";
      assert "<ol" + (" start=\"" + s + "\"") + ">" == "<ol start=\"" + s + "\">";
    } else {
      assert "<ol" + (ClassAttr("") + "") + ">" == "<ol>";
    }
  }

  lemma CheckList(content: string, start: int)
    ensures RenderList(content, "check", start) == "<ul class=\"checklist\">" + content + "</ul>"
  {
    assert "<" + "ul" + ClassAttr("checklist") + "" + ">" == "<ul class=\"checklist\">";
    assert "</" + "ul" + ">" == "</ul>";
  }

  lemma BulletList(content: string, listType: string, start: int)
    requires listType != "number" && listType != "check"
    ensures RenderList(content, listType, start) == "<ul>" + content + "</ul>"
  {
    assert "<" + "ul" + "" + "" + ">" == "<ul>";
    assert "</" + "ul" + ">" == "</ul>";
  }

  /** A numbered list is an `ol`, with a `start` attribute iff its start is non-zero; a check
      list is a `ul` of class `checklist`; any other list is a plain `ul`. */
  lemma ListOutput(n: Node, content: string)
    requires TypeOf(n.nodeType) == List
    ensures RenderElement(n, content)
      == if n.listType == "number" then
           if n.start != 0 then "<ol start=\"" + IntToString(n.start) + "\">" + content + "</ol>"
           else "<ol>" + content + "</ol>"
         else if n.listType == "check" then "<ul class=\"checklist\">" + content + "</ul>"
         else "<ul>" + content + "</ul>"
  {
    assert RenderElement(n, content) == RenderList(content, n.listType, n.start);
    if n.listType == "number" {
      NumberedList(content, n.start);
    } else if n.listType == "check" {
      CheckList(content, n.start);
    } else {
      BulletList(content, n.listType, n.start);
    }
  }

  /** A list item wraps its content in `li`. */
  lemma ListItemOutput(n: Node, content: string)
    requires TypeOf(n.nodeType) == ListItem
    ensures RenderElement(n, content) == "<li>" + content + "</li>"
  {
  }

  /** A quote is a `blockquote` with a class attribute iff its alignment class is non-empty. */
  lemma QuoteOutput(n: Node, content: string)
    requires TypeOf(n.nodeType) == Quote
    ensures var cls := AlignmentClass(n.format);
      RenderElement(n, content)
        == if cls == "" then "<blockquote>" + content + "</blockquote>"
           else "<blockquote class=\"" + cls + "\">" + content + "</blockquote>"
  {
    var cls := AlignmentClass(n.format);
    if cls == "" {
      assert "<blockquote" + ClassAttr(cls) + ">" == "<blockquote>";
    } else {
      assert "<blockquote" + ClassAttr(cls) + ">" == "<blockquote class=\"" + cls + "\">";
    }
  }

  /** A code block holds its content escaped: no tag survives inside it, and unescaping gives
      the content back. */
  lemma CodeOutput(n: Node, content: string)
    requires TypeOf(n.nodeType) == Code
    ensures var e := EscapeHtml(content);
      && RenderElement(n, content) == "<pre><code>" + e + "</code></pre>"
      && '<' !in e && '>' !in e
      && UnescapeHtml(e) == content
  {
    UnescapeEscape(content);
  }

  /** A link escapes its `url`; `rel` and `target` appear, unescaped, iff non-empty. */
  lemma LinkOutput(n: Node, content: string)
    requires TypeOf(n.nodeType) == Link
    ensures var rel := if n.rel == "" then "" else " rel=\"" + n.rel + "\"";
      var target := if n.target == "" then "" else " target=\"" + n.target + "\"";
      RenderElement(n, content)
        == "<a href=\"" + EscapeHtml(n.url) + "\"" + rel + target + ">" + content + "</a>"
  {
  }

  /** The children's output is the in-order concatenation of their parts: rendering two runs
      of siblings one after the other is rendering them together. */
  lemma {:induction false} RenderChildrenAppend(a: seq<Node>, b: seq<Node>)
    ensures RenderChildren(a + b) == RenderChildren(a) + RenderChildren(b)
    decreases |a|
  {
    if a == [] {
      assert a + b == b;
    } else {
      assert (a + b)[0] == a[0] && (a + b)[1..] == a[1..] + b;
      RenderChildrenAppend(a[1..], b);
    }
  }

  /** A node of unknown type between siblings contributes nothing and leaves them unchanged. */
  lemma UnknownSibling(a: seq<Node>, u: Node, b: seq<Node>)
    requires TypeOf(u.nodeType) == Unknown
    ensures RenderChildren(a + [u] + b) == RenderChildren(a) + RenderChildren(b)
  {
    var single := [u];
    RenderSingleChild(u);
    SilentSibling(a, single, b);
  }

  /** Siblings whose output is empty may be dropped. */
  lemma SilentSibling(a: seq<Node>, s: seq<Node>, b: seq<Node>)
    requires RenderChildren(s) == ""
    ensures RenderChildren(a + s + b) == RenderChildren(a) + RenderChildren(b)
  {
    RenderChildrenAppend(a + s, b);
    RenderChildrenAppend(a, s);
    assert RenderChildren(a) + "" == RenderChildren(a);
  }

  lemma RenderSingleChild(n: Node)
    ensures RenderChildren([n]) == RenderNode(n)
  {
    assert [n][1..] == [];
  }

  // ---------------------------------------------------------------------------------------
  // Plain text and excerpts

  /** `renderAsPlainText`: the document's text, or "" without a document or root. */
  function RenderAsPlainText(data: Option<LexicalData>): (r: string)
    ensures data.None? || data.value.root.None? ==> r == ""
  {
    if data.None? || data.value.root.None? then "" else ExtractText(data.value.root.value)
  }

  /** `extractTextFromNode`: a text leaf gives its text, any other node (of whatever type) the
      texts of its children joined by single spaces. */
  function ExtractText(n: Node): (r: string)
    ensures n.nodeType == "text" ==> r == n.text
    ensures n.nodeType != "text" ==> r == Join(ExtractAll(n.children), " ")
    decreases n, 1
  {
    if n.nodeType == "text" then n.text else Join(ExtractAll(n.children), " ")
  }

  /** The extracted text of each child, in order. */
  function ExtractAll(cs: seq<Node>): (ts: seq<string>)
    ensures |ts| == |cs|
    ensures forall i :: 0 <= i < |cs| ==> ts[i] == ExtractText(cs[i])
    decreases cs, 2
  {
    if cs == [] then [] else [ExtractText(cs[0])] + ExtractAll(cs[1..])
  }

  /** The texts of the text leaves of a tree, left to right. A text node's own children are
      not visited. */
  function LeafTexts(n: Node): seq<string>
    decreases n, 1
  {
    if n.nodeType == "text" then [n.text] else LeafTextsAll(n.children)
  }

  function LeafTextsAll(cs: seq<Node>): seq<string>
    decreases cs, 2
  {
    if cs == [] then [] else LeafTexts(cs[0]) + LeafTextsAll(cs[1..])
  }

  /** The words of the plain text are the words of the text leaves, in document order: no
      word is lost, and none of them runs into the next leaf's. */
  lemma {:induction false} ExtractedWords(n: Node)
    ensures Words(ExtractText(n)) == WordsOfAll(LeafTexts(n))
    decreases n, 1
  {
    if n.nodeType == "text" {
      assert [n.text][1..] == [];
      assert Words(n.text) + [] == Words(n.text);
    } else {
      WordsOfJoinAll(ExtractAll(n.children));
      ExtractedWordsAll(n.children);
    }
  }

  lemma {:induction false} ExtractedWordsAll(cs: seq<Node>)
    ensures WordsOfAll(ExtractAll(cs)) == WordsOfAll(LeafTextsAll(cs))
    decreases cs, 2
  {
    if cs != [] {
      var ts := ExtractAll(cs);
      assert ts[0] == ExtractText(cs[0]) && ts[1..] == ExtractAll(cs[1..]);
      ExtractedWords(cs[0]);
      ExtractedWordsAll(cs[1..]);
      WordsOfAllAppend(LeafTexts(cs[0]), LeafTextsAll(cs[1..]));
    }
  }

  /** Every node other than a text leaf has children, all of the same kind: the trees the
      editor saves, where each paragraph holds at least one text. */
  predicate NoChildlessElement(n: Node)
    decreases n, 1
  {
    n.nodeType == "text" || (n.children != [] && NoChildlessElements(n.children))
  }

  predicate NoChildlessElements(cs: seq<Node>)
    decreases cs, 2
  {
    cs == [] || (NoChildlessElement(cs[0]) && NoChildlessElements(cs[1..]))
  }

  /** In such a tree the plain text is exactly the leaves' texts joined by single spaces. */
  lemma {:induction false} ExtractedLeaves(n: Node)
    requires NoChildlessElement(n)
    ensures LeafTexts(n) != []
    ensures ExtractText(n) == Join(LeafTexts(n), " ")
    decreases n, 1
  {
    if n.nodeType != "text" {
      ExtractedLeavesAll(n.children);
    }
  }

  lemma {:induction false} ExtractedLeavesAll(cs: seq<Node>)
    requires cs != [] && NoChildlessElements(cs)
    ensures LeafTextsAll(cs) != []
    ensures Join(ExtractAll(cs), " ") == Join(LeafTextsAll(cs), " ")
    decreases cs, 2
  {
    var ts := ExtractAll(cs);
    ExtractedLeaves(cs[0]);
    if |cs| == 1 {
      assert LeafTextsAll(cs[1..]) == [];
      assert LeafTextsAll(cs) == LeafTexts(cs[0]);
    } else {
      ExtractedLeavesAll(cs[1..]);
      assert ts[1..] == ExtractAll(cs[1..]);
      JoinAppend(LeafTexts(cs[0]), LeafTextsAll(cs[1..]), " ");
    }
  }

  /** An empty paragraph between two others still leaves its separator: two spaces, where the
      words are unaffected. */
  lemma EmptyParagraphKeepsSeparator()
    ensures ExtractText(Element("root", [
      Element("paragraph", [TextLeaf("Hello", NoFormat)]),
      Element("paragraph", []),
      Element("paragraph", [TextLeaf("World", NoFormat)])]))
      == "Hello  World"
  {
    var p1 := Element("paragraph", [TextLeaf("Hello", NoFormat)]);
    var p0 := Element("paragraph", []);
    var p2 := Element("paragraph", [TextLeaf("World", NoFormat)]);
    assert ExtractAll(p1.children) == ["Hello"];
    assert ExtractAll(p2.children) == ["World"];
    assert ExtractAll([p1, p0, p2]) == ["Hello", "", "World"];
  }

  /** `getExcerpt(data)` with its default limit: the plain text when it has at most fifty
      words, otherwise its first fifty words followed by "...". */
  function DefaultExcerpt(data: Option<LexicalData>): (r: string)
    ensures |SplitWords(RenderAsPlainText(data))| <= DefaultWordLimit ==> r == RenderAsPlainText(data)
    ensures |SplitWords(RenderAsPlainText(data))| > DefaultWordLimit ==>
              EndsWith(r, "...") &&
              SplitWords(r[..|r| - 3]) == SplitWords(RenderAsPlainText(data))[..DefaultWordLimit]
  {
    if |SplitWords(RenderAsPlainText(data))| > DefaultWordLimit then
      ExcerptWords(data, DefaultWordLimit);
      Excerpt(data, DefaultWordLimit)
    else
      Excerpt(data, DefaultWordLimit)
  }

  /** The words `getExcerpt` counts are the leaves' words; a shortened excerpt, without its
      "...", holds exactly the first `wordLimit` of them. */
  lemma ExcerptLeafWords(data: Option<LexicalData>, wordLimit: nat)
    requires data.Some? && data.value.root.Some?
    requires 0 < wordLimit < |SplitWords(RenderAsPlainText(data))|
    ensures SplitWords(RenderAsPlainText(data)) == WordsOfAll(LeafTexts(data.value.root.value))
    ensures var r := Excerpt(data, wordLimit);
      EndsWith(r, "...") && SplitWords(r[..|r| - 3]) == WordsOfAll(LeafTexts(data.value.root.value))[..wordLimit]
  {
    ExcerptWords(data, wordLimit);
    WordsTrim(RenderAsPlainText(data));
    ExtractedWords(data.value.root.value);
  }

  /** Two paragraphs "Hello" and "World" give "Hello World". */
  lemma HelloWorld()
    ensures RenderAsPlainText(Some(LexicalData(Some(Element("root", [
      Element("paragraph", [TextLeaf("Hello", NoFormat)]),
      Element("paragraph", [TextLeaf("World", NoFormat)])])))))
      == "Hello World"
  {
    var p1 := Element("paragraph", [TextLeaf("Hello", NoFormat)]);
    var p2 := Element("paragraph", [TextLeaf("World", NoFormat)]);
    assert ExtractAll(p1.children) == ["Hello"];
    assert ExtractAll(p2.children) == ["World"];
    assert ExtractAll([p1, p2]) == ["Hello", "World"];
  }

  /** `words.slice(0, k)` in JavaScript, where a negative `k` counts from the end. */
  function SliceTo<T>(ws: seq<T>, k: int): (r: seq<T>)
    ensures |r| <= |ws| && r == ws[..|r|]
    ensures 0 <= k <= |ws| ==> |r| == k
    ensures k < 0 ==> |r| == if |ws| + k < 0 then 0 else |ws| + k
  {
    if k >= |ws| then ws
    else if k >= 0 then ws[..k]
    else if |ws| + k < 0 then []
    else ws[..|ws| + k]
  }

  /** The default word limit of `getExcerpt`. */
  const DefaultWordLimit := 50

  /** `getExcerpt`: the plain text unchanged (not even trimmed) when it has at most
      `wordLimit` words, otherwise the first `wordLimit` words joined by single spaces and
      followed by "...". */
  function Excerpt(data: Option<LexicalData>, wordLimit: int): (r: string)
    ensures var plain := RenderAsPlainText(data);
      var words := SplitWords(plain);
      && (|words| <= wordLimit ==> r == plain)
      && (0 <= wordLimit < |words| ==> r == Join(words[..wordLimit], " ") + "...")
  {
    var plain := RenderAsPlainText(data);
    var words := SplitWords(plain);
    if |words| <= wordLimit then plain else Join(SliceTo(words, wordLimit), " ") + "..."
  }

  /** A shortened excerpt, without its "...", holds exactly the first `wordLimit` words of the
      document. */
  lemma ExcerptWords(data: Option<LexicalData>, wordLimit: nat)
    requires 0 < wordLimit < |SplitWords(RenderAsPlainText(data))|
    ensures var r := Excerpt(data, wordLimit);
      EndsWith(r, "...")
      && SplitWords(r[..|r| - 3]) == SplitWords(RenderAsPlainText(data))[..wordLimit]
  {
    var words := SplitWords(RenderAsPlainText(data));
    SplitWordsAreWords(RenderAsPlainText(data));
    var w := words[..wordLimit];
    assert forall i :: 0 <= i < |w| ==> w[i] == words[i];
    var body := Join(w, " ");
    SplitWordsOfJoin(w);
    var r := Excerpt(data, wordLimit);
    assert r == body + "...";
    assert r[..|r| - 3] == body;
    assert r[|r| - 3..] == "...";
  }
}
