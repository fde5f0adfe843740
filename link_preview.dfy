/**
 * The inline link expander: every line of a post's content that is nothing
 * but an http(s) URL is replaced by a native embed, a plain anchor or a
 * preview card. The network and the embed lookup are inputs (`Remote`), the
 * page's metadata arrives as the first match of each extraction pattern
 * (`PageMatches`), and the platform's escaping helpers come from `Wp`.
 */
module LinkPreview {
  import opened Wrappers
  import opened PhpStrings
  import opened WordPress

  /** The card image used when the page offers none; the card omits its `<img>` then. */
  const DefaultCardImage: string := "https://" + "historycamp.org/wp-content/uploads/default-og-image.jpg"

  /** The card description is cut to this many characters, after escaping. */
  const CardDescriptionLimit: nat := 200

  // ---------------------------------------------------------------------
  // Inputs
  // ---------------------------------------------------------------------

  /**
   * The first match of each extraction pattern on the fetched page, or None
   * when the pattern does not match. The meta patterns only match when the
   * `property`/`name` attribute comes before `content`.
   */
  datatype PageMatches = PageMatches(
    ogTitle: Option<string>,         // <meta property="og:title" content="...">
    ogImage: Option<string>,         // <meta property="og:image" content="...">
    ogDescription: Option<string>,   // <meta property="og:description" content="...">
    titleElement: Option<string>,    // <title>...</title>
    metaDescription: Option<string>, // <meta name="description" content="...">
    firstImage: Option<string>       // the first <img src="...">
  )

  /** What `wp_remote_get` gave: a transport error, or the content-type header and the page. */
  datatype Response = TransportError | Fetched(contentType: string, page: PageMatches)

  /** `wp_oembed_get` (None for `false`) and `wp_remote_get`, as functions of the escaped URL. */
  datatype Remote = Remote(oembed: string -> Option<string>, get: string -> Response)

  // ---------------------------------------------------------------------
  // Fallback resolution
  // ---------------------------------------------------------------------

  /** The resolved card data: title, image URL and (truncated) description. */
  datatype LinkMetadata = LinkMetadata(title: string, image: string, description: string)

  /**
   * One fallback step: the primary pattern's match, unless it is missing or
   * `empty()`, in which case the secondary pattern is matched and its result
   * (possibly no match) replaces it.
   */
  function Tier(primary: Option<string>, secondary: Option<string>): Option<string> {
    if primary.Some? && !Empty(primary.value) then primary else secondary
  }

  /** Fills the card from the page's matches; `url` is the already escaped URL. */
  function Resolve(url: string, page: PageMatches, wp: Wp): (md: LinkMetadata)
    // title: og:title, else <title>, else the URL's host
    ensures page.ogTitle.Some? && !Empty(page.ogTitle.value) ==>
      md.title == wp.escHtml(Trim(page.ogTitle.value))
    ensures (page.ogTitle.None? || Empty(page.ogTitle.value)) && page.titleElement.Some? ==>
      md.title == wp.escHtml(Trim(page.titleElement.value))
    ensures (page.ogTitle.None? || Empty(page.ogTitle.value)) && page.titleElement.None? ==>
      md.title == wp.urlHost(url)
    // image: og:image, else the first <img>, else the default
    ensures page.ogImage.Some? && !Empty(page.ogImage.value) ==>
      md.image == wp.escUrl(page.ogImage.value)
    ensures (page.ogImage.None? || Empty(page.ogImage.value)) && page.firstImage.Some? ==>
      md.image == wp.escUrl(page.firstImage.value)
    ensures (page.ogImage.None? || Empty(page.ogImage.value)) && page.firstImage.None? ==>
      md.image == DefaultCardImage
    // description: og:description, else <meta name="description">, else "", then cut
    ensures |md.description| <= CardDescriptionLimit
    ensures page.ogDescription.Some? && !Empty(page.ogDescription.value) ==>
      md.description == Prefix(wp.escHtml(Trim(page.ogDescription.value)), CardDescriptionLimit)
    ensures (page.ogDescription.None? || Empty(page.ogDescription.value)) && page.metaDescription.Some? ==>
      md.description == Prefix(wp.escHtml(Trim(page.metaDescription.value)), CardDescriptionLimit)
    ensures (page.ogDescription.None? || Empty(page.ogDescription.value)) && page.metaDescription.None? ==>
      md.description == ""
  {
    var title := Tier(page.ogTitle, page.titleElement);
    var image := Tier(page.ogImage, page.firstImage);
    var desc := Tier(page.ogDescription, page.metaDescription);
    LinkMetadata(
      if title.Some? then wp.escHtml(Trim(title.value)) else wp.urlHost(url),
      if image.Some? then wp.escUrl(image.value) else DefaultCardImage,
      Prefix(if desc.Some? then wp.escHtml(Trim(desc.value)) else "", CardDescriptionLimit))
  }

  /** The card description is a prefix of the escaped, trimmed source text, cut only when longer than the limit. */
  lemma {:induction false} DescriptionIsPrefix(url: string, page: PageMatches, wp: Wp, src: string)
    requires Tier(page.ogDescription, page.metaDescription) == Some(src)
    ensures Resolve(url, page, wp).description <= wp.escHtml(Trim(src))
    ensures |wp.escHtml(Trim(src))| <= CardDescriptionLimit ==>
      Resolve(url, page, wp).description == wp.escHtml(Trim(src))
    ensures CardDescriptionLimit <= |wp.escHtml(Trim(src))| ==>
      |Resolve(url, page, wp).description| == CardDescriptionLimit
  {
  }

  /**
   * The card title can be empty: when og:title is missing or empty and the
   * `<title>` element holds only trim characters, the title is the escaped
   * empty string, and the host is not used.
   */
  lemma {:induction false} EmptyTitleReachable(url: string, page: PageMatches, wp: Wp, t: string)
    requires page.ogTitle.None? || Empty(page.ogTitle.value)
    requires page.titleElement == Some(t)
    requires forall k :: 0 <= k < |t| ==> IsTrimChar(t[k])
    requires wp.escHtml("") == ""
    ensures Resolve(url, page, wp).title == ""
  {
    TrimEmpty(t);
  }

  /** An og:title of "0" counts as empty, so the `<title>` element (or the host) is used instead. */
  lemma {:induction false} ZeroOgTitleIsSkipped(url: string, page: PageMatches, wp: Wp)
    requires page.ogTitle == Some("0")
    ensures Resolve(url, page, wp).title ==
      (if page.titleElement.Some? then wp.escHtml(Trim(page.titleElement.value)) else wp.urlHost(url))
  {
  }

  // ---------------------------------------------------------------------
  // The card
  // ---------------------------------------------------------------------

  /** The parts a card shows: link target, optional image, heading, optional paragraph, host line. */
  datatype CardView = CardView(
    href: string,
    image: Option<string>,
    heading: string,
    paragraph: Option<string>,
    hostLine: string)

  /** Which parts of the card are present, and what each holds. */
  function Layout(url: string, md: LinkMetadata, wp: Wp): (v: CardView)
    ensures v.href == url && v.heading == md.title && v.hostLine == wp.urlHost(url)
    ensures v.image.Some? <==> !Empty(md.image) && md.image != DefaultCardImage
    ensures v.image.Some? ==> v.image.value == md.image
    ensures v.paragraph.Some? <==> !Empty(md.description)
    ensures v.paragraph.Some? ==> v.paragraph.value == md.description
  {
    CardView(
      url,
      if !Empty(md.image) && md.image != DefaultCardImage then Some(md.image) else None,
      md.title,
      if !Empty(md.description) then Some(md.description) else None,
      wp.urlHost(url))
  }

  /** A page with no image signal at all gives a card without an image element. */
  lemma {:induction false} NoImageSignalOmitsImage(url: string, page: PageMatches, wp: Wp)
    requires page.ogImage.None? || Empty(page.ogImage.value)
    requires page.firstImage.None?
    ensures Layout(url, Resolve(url, page, wp), wp).image == None
  {
  }

  /** A page with no description signal gives a card without a paragraph. */
  lemma {:induction false} NoDescriptionSignalOmitsParagraph(url: string, page: PageMatches, wp: Wp)
    requires page.ogDescription.None? || Empty(page.ogDescription.value)
    requires page.metaDescription.None?
    ensures Layout(url, Resolve(url, page, wp), wp).paragraph == None
  {
  }

  // ---------------------------------------------------------------------
  // The choice between embed, anchor and card
  // ---------------------------------------------------------------------

  datatype Preview = Embedded(html: string) | PlainLink(href: string) | Card(view: CardView)

  /** `if ($embed)`: the lookup returned a string that is not falsy. */
  predicate EmbedFound(embed: Option<string>) {
    embed.Some? && !Empty(embed.value)
  }

  /** The callback's decision for one escaped URL. */
  function Choose(url: string, remote: Remote, wp: Wp): (p: Preview)
    ensures p.Embedded? <==> EmbedFound(remote.oembed(url))
    ensures p.Embedded? ==> p.html == remote.oembed(url).value
    ensures p.PlainLink? <==> (!EmbedFound(remote.oembed(url)) &&
      (remote.get(url).TransportError? || !Contains(remote.get(url).contentType, "text/html")))
    ensures p.PlainLink? ==> p.href == url
    ensures p.Card? ==> (remote.get(url).Fetched? &&
      p.view == Layout(url, Resolve(url, remote.get(url).page, wp), wp))
  {
    var embed := remote.oembed(url);
    if EmbedFound(embed) then Embedded(embed.value)
    else match remote.get(url)
      case TransportError => PlainLink(url)
      case Fetched(contentType, page) =>
        if !Contains(contentType, "text/html") then PlainLink(url)
        else Card(Layout(url, Resolve(url, page, wp), wp))
  }

  /** The plain anchor, opening in a new tab, with the escaped URL as target and text. */
  function AnchorMarkup(url: string): string {
    "<a href=\"" + url + "\" target=\"_blank\" rel=\"noopener noreferrer\">" + url + "</a>"
  }

  const CardOpen: string := "<div class='auto-link-preview'>"
  const CardClose: string := "</a></div>"

  function LinkOpen(href: string): string {
    "<a href='" + href + "' target='_blank' rel='noopener noreferrer'>"
  }

  function ImageElement(image: Option<string>): string {
    if image.Some? then "<img src='" + image.value + "'>" else ""
  }

  function ParagraphElement(paragraph: Option<string>): string {
    if paragraph.Some? then "<p>" + paragraph.value + "</p>" else ""
  }

  function HostElement(host: string): string {
    "<div>" + host + "</div>"
  }

  /** The card's element structure (the inline styles are not modelled). */
  function CardMarkup(v: CardView): string {
    CardOpen + LinkOpen(v.href) + ImageElement(v.image) + "<h3>" + v.heading + "</h3>"
      + ParagraphElement(v.paragraph) + HostElement(v.hostLine) + CardClose
  }

  function PreviewMarkup(p: Preview): string {
    match p
    case Embedded(html) => html
    case PlainLink(href) => AnchorMarkup(href)
    case Card(v) => CardMarkup(v)
  }

  /** Right after the link opener the card has an `<img>` exactly when it shows an image. */
  lemma {:induction false} CardImageElementIffShown(v: CardView)
    ensures var rest := CardMarkup(v)[|CardOpen + LinkOpen(v.href)|..];
      "<img" <= rest <==> v.image.Some?
  {
    Regroup(CardOpen, LinkOpen(v.href), ImageElement(v.image), "<h3>", v.heading, "</h3>",
            ParagraphElement(v.paragraph), HostElement(v.hostLine), CardClose);
    var head := CardOpen + LinkOpen(v.href);
    var middle := ImageElement(v.image) + "<h3>" + v.heading + "</h3>" + ParagraphElement(v.paragraph);
    var end := HostElement(v.hostLine) + CardClose;
    FrameOfThree(head, middle, end);
    var rest := CardMarkup(v)[|head|..];
    assert rest == middle + end;
    if v.image.Some? {
      assert rest[..4] == "<img";
    } else {
      assert rest[1] == 'h';
    }
  }

  /** Every card opens with the preview container and ends with the host line and the closing tags. */
  lemma {:induction false} CardFrame(v: CardView)
    ensures CardOpen + LinkOpen(v.href) <= CardMarkup(v)
    ensures var end := HostElement(v.hostLine) + CardClose;
      |end| <= |CardMarkup(v)| && CardMarkup(v)[|CardMarkup(v)| - |end|..] == end
  {
    Regroup(CardOpen, LinkOpen(v.href), ImageElement(v.image), "<h3>", v.heading, "</h3>",
            ParagraphElement(v.paragraph), HostElement(v.hostLine), CardClose);
    var head := CardOpen + LinkOpen(v.href);
    var middle := ImageElement(v.image) + "<h3>" + v.heading + "</h3>" + ParagraphElement(v.paragraph);
    var end := HostElement(v.hostLine) + CardClose;
    FrameOfThree(head, middle, end);
  }

  /** Nine pieces concatenated, regrouped as the first two, the next five and the last two. */
  lemma {:induction false} Regroup(a: string, b: string, c: string, d: string, e: string, f: string, g: string, h: string, i: string)
    ensures a + b + c + d + e + f + g + h + i == (a + b) + (c + d + e + f + g) + (h + i)
  {
  }

  /** The first and the last of three concatenated pieces are its prefix and its suffix. */
  lemma {:induction false} FrameOfThree(x: string, y: string, z: string)
    ensures x <= x + y + z
    ensures (x + y + z)[|x|..] == y + z
    ensures (x + y + z)[|x + y + z| - |z|..] == z
  {
    assert (x + y + z)[..|x|] == x;
  }

  // ---------------------------------------------------------------------
  // Bare URL lines: `/^(https?:\/\/[^\s<]+)$/im`
  // ---------------------------------------------------------------------

  /** `[^\s<]+`: at least one character, none of them `\s` or `<`. */
  predicate IsUrlTail(t: string) {
    |t| >= 1 && forall i :: 0 <= i < |t| ==> !IsPcreSpace(t[i]) && t[i] != '<'
  }

  /** The whole line is `http://` or `https://`, in any letter case, followed by a URL tail. */
  predicate IsBareUrlLine(line: string) {
    (StartsWithIgnoringCase(line, "http://") && IsUrlTail(line[7..]))
    || (StartsWithIgnoringCase(line, "https://") && IsUrlTail(line[8..]))
  }

  /** A bare URL line has no line break in it, so a match never spans two lines. */
  lemma {:induction false} BareUrlLineIsOneLine(line: string)
    requires IsBareUrlLine(line)
    ensures NoNewline(line)
  {
  }

  /**
   * A URL line ending in a carriage return (content with CRLF line breaks) is
   * not a bare URL line: `\r` is `\s`, and `$` matches only before `\n`.
   */
  lemma {:induction false} CarriageReturnLineIsNotBare(line: string)
    requires |line| > 0 && line[|line| - 1] == '\r'
    ensures !IsBareUrlLine(line)
  {
  }

  /**
   * The scheme is matched without regard to letter case: after any spelling of
   * `http://` or `https://`, the line is a bare URL line exactly when the rest
   * is a URL tail (so a scheme with nothing after it is not one).
   */
  lemma {:induction false} SchemeCaseIgnored(scheme: string, rest: string)
    requires (|scheme| == 7 && StartsWithIgnoringCase(scheme, "http://"))
          || (|scheme| == 8 && StartsWithIgnoringCase(scheme, "https://"))
    ensures IsBareUrlLine(scheme + rest) <==> IsUrlTail(rest)
  {
    var line := scheme + rest;
    assert line[..|scheme|] == scheme;
    assert line[|scheme|..] == rest;
    assert line[4] == scheme[4];
    assert LowerAscii('s') != LowerAscii(':');
  }

  /** The pattern is anchored at the line start: a line not starting with `h` or `H` is not a bare URL line. */
  lemma {:induction false} NothingBeforeScheme(line: string)
    requires |line| > 0 && LowerAscii(line[0]) != 'h'
    ensures !IsBareUrlLine(line)
  {
    assert LowerAscii('h') == 'h';
  }

  // ---------------------------------------------------------------------
  // Lines of the content
  // ---------------------------------------------------------------------

  predicate NoNewline(line: string) {
    forall k :: 0 <= k < |line| ==> line[k] != '\n'
  }

  /** The position of the first `\n` in `s`, or `|s|` when there is none. */
  function NewlineIndex(s: string): (i: nat)
    ensures i <= |s|
  {
    if s == [] || s[0] == '\n' then 0 else 1 + NewlineIndex(s[1..])
  }

  /** `NewlineIndex` stops at a line break, and there is none before it. */
  lemma {:induction false} NewlineIndexFinds(s: string)
    ensures NoNewline(s[..NewlineIndex(s)])
    ensures NewlineIndex(s) < |s| ==> s[NewlineIndex(s)] == '\n'
    decreases |s|
  {
    if s != [] && s[0] != '\n' {
      var t := s[1..];
      NewlineIndexFinds(t);
      var n := NewlineIndex(t);
      assert NewlineIndex(s) == n + 1;
      forall k | 0 <= k < n + 1 ensures s[k] != '\n' {
        if k > 0 {
          assert s[k] == t[..n][k - 1];
        }
      }
    }
  }

  /** The lines `^` and `$` delimit in multiline mode: the pieces between `\n`s. */
  function SplitLines(s: string): (lines: seq<string>)
    ensures |lines| >= 1
    decreases |s|
  {
    var i := NewlineIndex(s);
    if i == |s| then [s] else [s[..i]] + SplitLines(s[i + 1..])
  }

  /** No line of the split contains a line break. */
  lemma {:induction false} SplitLinesHaveNoBreaks(s: string)
    ensures forall i :: 0 <= i < |SplitLines(s)| ==> NoNewline(SplitLines(s)[i])
    decreases |s|
  {
    var n := NewlineIndex(s);
    NewlineIndexFinds(s);
    if n == |s| {
      assert s[..n] == s;
    } else {
      var tail := s[n + 1..];
      SplitLinesHaveNoBreaks(tail);
      SplitLinesStep(s);
      var rest := SplitLines(tail);
      forall i | 0 <= i < |SplitLines(s)| ensures NoNewline(SplitLines(s)[i]) {
        if i > 0 {
          assert SplitLines(s)[i] == rest[i - 1];
        }
      }
    }
  }

  /** The lines put back together with `\n` between them. */
  function JoinLines(lines: seq<string>): string {
    if |lines| == 0 then ""
    else if |lines| == 1 then lines[0]
    else lines[0] + "\n" + JoinLines(lines[1..])
  }

  /** Joining a line in front of at least one more puts one line break after it. */
  lemma {:induction false} JoinCons(x: string, rest: seq<string>)
    requires |rest| >= 1
    ensures JoinLines([x] + rest) == x + "\n" + JoinLines(rest)
  {
    assert ([x] + rest)[0] == x;
    assert ([x] + rest)[1..] == rest;
  }

  /** Splitting and joining again gives back the content. */
  lemma {:induction false} JoinSplit(s: string)
    ensures JoinLines(SplitLines(s)) == s
    decreases |s|
  {
    var i := NewlineIndex(s);
    if i < |s| {
      var tail := s[i + 1..];
      JoinSplit(tail);
      SplitLinesStep(s);
      JoinCons(s[..i], SplitLines(tail));
      NewlineIndexFinds(s);
      CutAtNewline(s, i);
    }
  }

  /** Content with a line break splits into the line before it and the lines after it. */
  lemma {:induction false} SplitLinesStep(s: string)
    requires NewlineIndex(s) < |s|
    ensures SplitLines(s) == [s[..NewlineIndex(s)]] + SplitLines(s[NewlineIndex(s) + 1..])
  {
  }

  /** Content is the part before a line break, the break, and the part after it. */
  lemma {:induction false} CutAtNewline(s: string, i: nat)
    requires i < |s| && s[i] == '\n'
    ensures s == s[..i] + "\n" + s[i + 1..]
  {
    assert s[..i] + "\n" + s[i + 1..] == s[..i] + s[i..];
  }

  /** `NewlineIndex` finds the first line break. */
  lemma {:induction false} NewlineIndexAt(s: string, n: nat)
    requires n <= |s|
    requires forall k :: 0 <= k < n ==> s[k] != '\n'
    requires n < |s| ==> s[n] == '\n'
    ensures NewlineIndex(s) == n
    decreases n
  {
    if n > 0 {
      assert s[0] != '\n';
      NewlineIndexAt(s[1..], n - 1);
    }
  }

  /** Joining lines without line breaks and splitting again gives back the lines. */
  lemma {:induction false} SplitJoin(lines: seq<string>)
    requires |lines| >= 1
    requires forall i :: 0 <= i < |lines| ==> NoNewline(lines[i])
    ensures SplitLines(JoinLines(lines)) == lines
    decreases |lines|
  {
    var s := JoinLines(lines);
    if |lines| == 1 {
      NewlineIndexAt(s, |s|);
    } else {
      var first := lines[0];
      var more := lines[1..];
      var rest := JoinLines(more);
      assert lines == [first] + more;
      JoinCons(first, more);
      var n := |first|;
      assert NoNewline(first);
      forall k | 0 <= k < n ensures s[k] != '\n' {
        assert s[k] == first[k];
      }
      NewlineIndexAt(s, n);
      assert s[..n] == first;
      assert s[n + 1..] == rest;
      assert SplitLines(s) == [first] + SplitLines(rest);
      forall i | 0 <= i < |more| ensures NoNewline(more[i]) {
        assert more[i] == lines[i + 1];
      }
      SplitJoin(more);
    }
  }

  /** Joining two non-empty runs of lines puts one line break between them. */
  lemma {:induction false} JoinConcat(xs: seq<string>, ys: seq<string>)
    requires |xs| >= 1 && |ys| >= 1
    ensures JoinLines(xs + ys) == JoinLines(xs) + "\n" + JoinLines(ys)
    decreases |xs|
  {
    if |xs| > 1 {
      JoinConcat(xs[1..], ys);
      assert (xs + ys)[1..] == xs[1..] + ys;
    } else {
      assert (xs + ys)[1..] == ys;
    }
  }

  /** A `\n` in the content separates its lines: the lines of both sides, in order. */
  lemma {:induction false} SplitConcat(a: string, b: string)
    ensures SplitLines(a + "\n" + b) == SplitLines(a) + SplitLines(b)
  {
    var la := SplitLines(a);
    var lb := SplitLines(b);
    JoinSplit(a);
    JoinSplit(b);
    JoinConcat(la, lb);
    assert JoinLines(la + lb) == a + "\n" + b;
    SplitLinesHaveNoBreaks(a);
    SplitLinesHaveNoBreaks(b);
    NoBreaksConcat(la, lb);
    SplitJoin(la + lb);
  }

  /** Two runs of lines without line breaks make one. */
  lemma {:induction false} NoBreaksConcat(xs: seq<string>, ys: seq<string>)
    requires forall i :: 0 <= i < |xs| ==> NoNewline(xs[i])
    requires forall i :: 0 <= i < |ys| ==> NoNewline(ys[i])
    ensures forall i :: 0 <= i < |xs + ys| ==> NoNewline((xs + ys)[i])
  {
    forall i | 0 <= i < |xs + ys| ensures NoNewline((xs + ys)[i]) {
      if i >= |xs| {
        assert (xs + ys)[i] == ys[i - |xs|];
      }
    }
  }

  // ---------------------------------------------------------------------
  // The expander
  // ---------------------------------------------------------------------

  /** The callback applied to one line: a bare URL line becomes its preview, any other line is kept. */
  function RewriteLine(line: string, remote: Remote, wp: Wp): string {
    if IsBareUrlLine(line) then PreviewMarkup(Choose(wp.escUrl(line), remote, wp)) else line
  }

  /** The callback applied to every line; the two clauses below only unfold the comprehension for the proofs. */
  function RewriteLines(lines: seq<string>, remote: Remote, wp: Wp): (r: seq<string>)
    ensures |r| == |lines|
    ensures forall i :: 0 <= i < |lines| ==> r[i] == RewriteLine(lines[i], remote, wp)
  {
    seq(|lines|, i requires 0 <= i < |lines| => RewriteLine(lines[i], remote, wp))
  }

  /** Rewriting works line by line: it distributes over a concatenation of line lists. */
  lemma {:induction false} RewriteLinesConcat(a: seq<string>, b: seq<string>, remote: Remote, wp: Wp)
    ensures RewriteLines(a + b, remote, wp) == RewriteLines(a, remote, wp) + RewriteLines(b, remote, wp)
  {
  }

  /** Only bare URL lines are rewritten: lines none of which is bare come back unchanged. */
  lemma {:induction false} RewriteLinesKeepsPlainLines(lines: seq<string>, remote: Remote, wp: Wp)
    requires forall i :: 0 <= i < |lines| ==> !IsBareUrlLine(lines[i])
    ensures RewriteLines(lines, remote, wp) == lines
  {
  }

  /** `alp_auto_generate_link_previews($content)`. */
  function ExpandContent(content: string, remote: Remote, wp: Wp): string {
    JoinLines(RewriteLines(SplitLines(content), remote, wp))
  }

  /** Content with no bare URL line comes back unchanged. */
  lemma {:induction false} ExpandUnchanged(content: string, remote: Remote, wp: Wp)
    requires forall l :: l in SplitLines(content) ==> !IsBareUrlLine(l)
    ensures ExpandContent(content, remote, wp) == content
  {
    var lines := SplitLines(content);
    assert RewriteLines(lines, remote, wp) == lines;
    JoinSplit(content);
  }

  /**
   * Line by line: the expansion of content made of given lines is those lines,
   * each bare URL line replaced once by its preview and every other line kept,
   * in the same order.
   */
  lemma {:induction false} ExpandLines(lines: seq<string>, remote: Remote, wp: Wp)
    requires |lines| >= 1
    requires forall i :: 0 <= i < |lines| ==> NoNewline(lines[i])
    ensures ExpandContent(JoinLines(lines), remote, wp) == JoinLines(RewriteLines(lines, remote, wp))
    ensures forall i :: 0 <= i < |lines| && !IsBareUrlLine(lines[i]) ==>
      RewriteLines(lines, remote, wp)[i] == lines[i]
    ensures forall i :: 0 <= i < |lines| && IsBareUrlLine(lines[i]) ==>
      RewriteLines(lines, remote, wp)[i] == PreviewMarkup(Choose(wp.escUrl(lines[i]), remote, wp))
  {
    SplitJoin(lines);
  }

  /** Lines are expanded independently of one another. */
  lemma {:induction false} ExpandConcat(a: string, b: string, remote: Remote, wp: Wp)
    ensures ExpandContent(a + "\n" + b, remote, wp) ==
      ExpandContent(a, remote, wp) + "\n" + ExpandContent(b, remote, wp)
  {
    var la := SplitLines(a);
    var lb := SplitLines(b);
    SplitConcat(a, b);
    RewriteLinesConcat(la, lb, remote, wp);
    var ra := RewriteLines(la, remote, wp);
    var rb := RewriteLines(lb, remote, wp);
    JoinConcat(ra, rb);
    calc {
      ExpandContent(a + "\n" + b, remote, wp);
      JoinLines(RewriteLines(la + lb, remote, wp));
      JoinLines(ra + rb);
    }
  }

  /** A non-empty embed for the escaped URL is used verbatim. */
  lemma {:induction false} EmbedUsedVerbatim(line: string, remote: Remote, wp: Wp)
    requires IsBareUrlLine(line)
    requires EmbedFound(remote.oembed(wp.escUrl(line)))
    ensures RewriteLine(line, remote, wp) == remote.oembed(wp.escUrl(line)).value
  {
  }

  /**
   * Without an embed, a failed fetch or a response that is not HTML gives
   * exactly the plain anchor, with the escaped URL as target and as text.
   */
  lemma {:induction false} FailureGivesAnchor(line: string, remote: Remote, wp: Wp)
    requires IsBareUrlLine(line)
    requires !EmbedFound(remote.oembed(wp.escUrl(line)))
    requires remote.get(wp.escUrl(line)).TransportError?
      || !Contains(remote.get(wp.escUrl(line)).contentType, "text/html")
    ensures var u := wp.escUrl(line);
      RewriteLine(line, remote, wp) ==
        "<a href=\"" + u + "\" target=\"_blank\" rel=\"noopener noreferrer\">" + u + "</a>"
  {
  }

  /** Without an embed, an HTML response gives the card laid out from the page's metadata. */
  lemma {:induction false} HtmlGivesCard(line: string, remote: Remote, wp: Wp)
    requires IsBareUrlLine(line)
    requires !EmbedFound(remote.oembed(wp.escUrl(line)))
    requires remote.get(wp.escUrl(line)).Fetched?
    requires Contains(remote.get(wp.escUrl(line)).contentType, "text/html")
    ensures var u := wp.escUrl(line);
      RewriteLine(line, remote, wp) == CardMarkup(Layout(u, Resolve(u, remote.get(u).page, wp), wp))
  {
  }
}
