/**
 * The social-metadata synthesiser run on `wp_head` for a single post or page
 * (alp_add_social_media_meta_tags). It looks at the Open Graph and Twitter Card
 * tags already present in the output buffer, and unless an SEO plugin already
 * owns the five core Open Graph tags it emits one tag for each missing field,
 * with values taken from the post itself.
 *
 * The buffer is not searched here: `found` maps each tag name to what its
 * pattern captured at the first match (absent when the pattern did not match).
 */
module SocialMeta {
  import opened Wrappers
  import opened PhpStrings
  import opened WordPress

  /** The fixed default image (written as scheme + rest so that its "http" prefix is evident). */
  const DefaultSocialImage: string := "https://" + "historycamp.org/wp-content/uploads/hc-logo-social-media.png"
  const SummaryLargeImage: string := "summary_large_image"
  const DescriptionLimit: nat := 160

  /** The ten meta tags the synthesiser looks for and may emit. */
  datatype TagName =
    | OgTitle | OgDescription | OgImage | OgUrl | OgType | OgSiteName
    | TwitterCard | TwitterTitle | TwitterDescription | TwitterImage
  {
    predicate IsOpenGraph() {
      match this
      case OgTitle | OgDescription | OgImage | OgUrl | OgType | OgSiteName => true
      case _ => false
    }

    /** The name as it appears in the markup. */
    function Text(): string {
      match this
      case OgTitle => "og:title"
      case OgDescription => "og:description"
      case OgImage => "og:image"
      case OgUrl => "og:url"
      case OgType => "og:type"
      case OgSiteName => "og:site_name"
      case TwitterCard => "twitter:card"
      case TwitterTitle => "twitter:title"
      case TwitterDescription => "twitter:description"
      case TwitterImage => "twitter:image"
    }
  }

  /** The Open Graph tags, in the order the synthesiser emits them. */
  const OgKeys: seq<TagName> := [OgTitle, OgDescription, OgImage, OgUrl, OgType, OgSiteName]
  /** The Twitter Card tags, in the order the synthesiser emits them. */
  const TwitterKeys: seq<TagName> := [TwitterCard, TwitterTitle, TwitterDescription, TwitterImage]

  /** First matches of the three image patterns run over the post body. */
  datatype BodyImages = BodyImages(
    afterHeading: Option<string>,   // first <img src> after an <h1>/<h2> whose text is the title
    afterParagraph: Option<string>, // the same after a <p>
    first: Option<string>           // first <img src> anywhere in the body
  )

  /** The current post as the host platform reports it. */
  datatype Post = Post(
    title: string,             // get_the_title()
    excerpt: string,           // get_the_excerpt()
    content: string,           // $post->post_content
    permalink: string,         // get_permalink()
    siteName: string,          // get_bloginfo('name')
    thumbnail: Option<string>, // None: no post thumbnail; Some(""): its URL lookup gave false
    images: BodyImages
  )

  /** The values synthesised tags are filled with (`$fallback_data`). */
  datatype Fallback = Fallback(title: string, excerpt: string, url: string, kind: string, siteName: string, image: string)

  datatype MetaAttr = Property | Name

  /** One emitted `<meta>` element: `property=` for Open Graph, `name=` for Twitter. */
  datatype MetaTag = MetaTag(attr: MetaAttr, key: TagName, content: string) {
    /** The line the plugin echoes for this tag. */
    function Markup(): string {
      Opener(attr) + key.Text() + "\" content=\"" + content + "\" />\n"
    }
  }

  /** The start of the echoed line, up to the tag's name. */
  function Opener(attr: MetaAttr): (r: string)
    ensures |r| == (if attr == Property then 16 else 12)
  {
    "<meta " + (if attr == Property then "property" else "name") + "=\""
  }

  /** The echoed line opens with `property="` exactly for `Property`, and with `name="` exactly for `Name`. */
  lemma {:induction false} MarkupOpener(t: MetaTag)
    ensures "<meta property=\"" <= t.Markup() <==> t.attr == Property
    ensures "<meta name=\"" <= t.Markup() <==> t.attr == Name
  {
    var prop := "<meta property=\"";
    var name := "<meta name=\"";
    assert Opener(Property) == prop && Opener(Name) == name;
    assert prop[6] != name[6];
    var rest := t.key.Text() + "\" content=\"" + t.content + "\" />\n";
    MarkupSplits(t);
    if t.attr == Property {
      OpenerDecides(prop, name, rest);
    } else {
      OpenerDecides(name, prop, rest);
    }
  }

  /**
   * The echoed line reads back as its tag: the tag's name follows the opener,
   * and the content sits between `" content="` and the closing `" />`.
   */
  lemma {:induction false} MarkupReadsBack(t: MetaTag)
    ensures var n := |Opener(t.attr)|;
      var m := t.Markup();
      var e := n + |t.key.Text()|;
      && Opener(t.attr) <= m
      && |m| == e + 11 + |t.content| + 5
      && m[n..e] == t.key.Text()
      && m[e..e + 11] == "\" content=\""
      && m[e + 11..e + 11 + |t.content|] == t.content
      && m[e + 11 + |t.content|..] == "\" />\n"
  {
    MarkupSplits(t);
    SliceOfFive(Opener(t.attr), t.key.Text(), "\" content=\"", t.content, "\" />\n");
  }

  lemma {:induction false} MarkupSplits(t: MetaTag)
    ensures t.Markup() == Opener(t.attr) + (t.key.Text() + "\" content=\"" + t.content + "\" />\n")
  {
    Regroup4(Opener(t.attr), t.key.Text(), "\" content=\"", t.content, "\" />\n");
  }

  lemma {:induction false} Regroup4(a: string, b: string, c: string, d: string, e: string)
    ensures a + b + c + d + e == a + (b + c + d + e)
  {
  }

  /** The five pieces of a concatenation read back by their offsets. */
  lemma {:induction false} SliceOfFive(a: string, b: string, c: string, d: string, e: string)
    ensures var m := a + b + c + d + e;
      var i := |a| + |b|;
      var j := i + |c|;
      && |m| == j + |d| + |e|
      && a <= m
      && m[|a|..i] == b
      && m[i..j] == c
      && m[j..j + |d|] == d
      && m[j + |d|..] == e
  {
    var m := a + b + c + d + e;
    assert m == a + (b + (c + (d + e)));
  }

  /** A string opening with `open` does not open with an `other` that differs from it at an index both share. */
  lemma {:induction false} OpenerDecides(open: string, other: string, rest: string)
    requires |open| > 6 && |other| > 6 && open[6] != other[6]
    ensures open <= open + rest
    ensures !(other <= open + rest)
  {
    assert (open + rest)[6] == open[6];
  }

  /** Distinct tags have distinct names in the markup. */
  lemma {:induction false} TextIsInjective(a: TagName, b: TagName)
    ensures a.Text() == b.Text() ==> a == b
  {
  }

  // ---------------------------------------------------------------------
  // Existing tags and the gate
  // ---------------------------------------------------------------------

  /** `$tags[$k]` read the way `empty()` reads it: an absent key reads as "". */
  function Lookup(m: map<TagName, string>, k: TagName): string {
    if k in m then m[k] else ""
  }

  /** `empty($tags[$k])`. */
  predicate Missing(m: map<TagName, string>, k: TagName) {
    Empty(Lookup(m, k))
  }

  /**
   * The five core Open Graph tags are all present with non-empty content, so
   * another plugin is taken to own them and nothing at all is emitted.
   */
  predicate SeoOwnsOgTags(found: map<TagName, string>) {
    && !Missing(found, OgTitle)
    && !Missing(found, OgDescription)
    && !Missing(found, OgImage)
    && !Missing(found, OgUrl)
    && !Missing(found, OgType)
  }

  /** The gate exactly as written: at least five entries, and the five core ones non-empty. */
  predicate GateAsWritten(existingOg: map<TagName, string>) {
    |existingOg| >= 5 && SeoOwnsOgTags(existingOg)
  }

  /** Five non-empty core tags already make five entries, so the count test adds nothing. */
  lemma {:induction false} GateCountIsRedundant(existingOg: map<TagName, string>)
    ensures GateAsWritten(existingOg) <==> SeoOwnsOgTags(existingOg)
  {
    if SeoOwnsOgTags(existingOg) {
      var core := {OgTitle, OgDescription, OgImage, OgUrl, OgType};
      assert core <= existingOg.Keys;
      assert |core| == 5;
      var rest := existingOg.Keys - core;
      assert existingOg.Keys == core + rest;
      assert |existingOg.Keys| == |core| + |rest|;
    }
  }

  // ---------------------------------------------------------------------
  // Fallback values
  // ---------------------------------------------------------------------

  /**
   * The post body as description text: shortcodes and tags removed, whitespace
   * collapsed and trimmed.
   */
  function StrippedBody(content: string, wp: Wp): (r: string)
    ensures Collapsed(r)
    ensures r != [] ==> r[0] != ' ' && r[|r| - 1] != ' '
    ensures NonSpaceChars(r) == Trim(NonSpaceChars(wp.stripAllTags(wp.stripShortcodes(content))))
  {
    NormalizeSpace(wp.stripAllTags(wp.stripShortcodes(content)))
  }

  /** The text the description is cut from: excerpt, else stripped body, else title. */
  function DescriptionSource(post: Post, wp: Wp): string {
    FirstFilled([post.excerpt, StrippedBody(post.content, wp), post.title])
  }

  /** The synthesised description: the first 160 characters of its source. */
  function DescriptionFallback(post: Post, wp: Wp): (r: string)
    ensures |r| <= DescriptionLimit
    ensures r <= DescriptionSource(post, wp)
    ensures |DescriptionSource(post, wp)| >= DescriptionLimit ==> |r| == DescriptionLimit
    ensures |DescriptionSource(post, wp)| <= DescriptionLimit ==> r == DescriptionSource(post, wp)
  {
    Prefix(DescriptionSource(post, wp), DescriptionLimit)
  }

  /** The description source is chosen in the order excerpt, stripped body, title. */
  lemma {:induction false} DescriptionOrder(post: Post, wp: Wp)
    ensures !Empty(post.excerpt) ==> DescriptionSource(post, wp) == post.excerpt
    ensures Empty(post.excerpt) && !Empty(StrippedBody(post.content, wp)) ==>
      DescriptionSource(post, wp) == StrippedBody(post.content, wp)
    ensures Empty(post.excerpt) && Empty(StrippedBody(post.content, wp)) ==>
      DescriptionSource(post, wp) == post.title
  {
    FirstFilledOfThree(post.excerpt, StrippedBody(post.content, wp), post.title);
  }

  /** The image found near the title: after a matching heading, else after a matching paragraph. */
  function NearTitleImage(images: BodyImages): string {
    match images.afterHeading
    case Some(src) => src
    case None => images.afterParagraph.GetOr("")
  }

  /** The image before absolutisation: thumbnail, else near the title, else the first in the body. */
  function ImageCandidate(post: Post): string {
    FirstFilled([post.thumbnail.GetOr(""), NearTitleImage(post.images), post.images.first.GetOr("")])
  }

  /** A non-empty image not starting with "http" is passed through `site_url`. */
  function Absolutise(image: string, wp: Wp): string {
    if !Empty(image) && !StartsWith(image, "http") then wp.siteUrl(image) else image
  }

  /** The synthesised image: the absolutised candidate, or the default when that is empty. */
  function ImageFallback(post: Post, wp: Wp): (r: string)
    ensures !Empty(r)
  {
    var image := Absolutise(ImageCandidate(post), wp);
    if Empty(image) then DefaultSocialImage else image
  }

  /** The image candidate is chosen in the order thumbnail, near the title, first in the body. */
  lemma {:induction false} ImageOrder(post: Post)
    ensures !Empty(post.thumbnail.GetOr("")) ==> ImageCandidate(post) == post.thumbnail.value
    ensures Empty(post.thumbnail.GetOr("")) && !Empty(NearTitleImage(post.images)) ==>
      ImageCandidate(post) == NearTitleImage(post.images)
    ensures Empty(post.thumbnail.GetOr("")) && Empty(NearTitleImage(post.images)) ==>
      ImageCandidate(post) == post.images.first.GetOr("")
  {
    FirstFilledOfThree(post.thumbnail.GetOr(""), NearTitleImage(post.images), post.images.first.GetOr(""));
  }

  /** With no image signal anywhere in the post, the default image is used. */
  lemma {:induction false} ImageDefaultWithoutSignal(post: Post, wp: Wp)
    requires Empty(post.thumbnail.GetOr("")) && Empty(NearTitleImage(post.images))
    requires Empty(post.images.first.GetOr(""))
    ensures ImageFallback(post, wp) == DefaultSocialImage
  {
  }

  /** An image that already starts with "http" is used unchanged. */
  lemma {:induction false} AbsoluteImageKept(post: Post, wp: Wp)
    requires StartsWith(ImageCandidate(post), "http")
    ensures ImageFallback(post, wp) == ImageCandidate(post)
  {
  }

  /** When `site_url` yields absolute URLs, the synthesised image always starts with "http". */
  lemma {:induction false} ImageIsAbsolute(post: Post, wp: Wp)
    requires SiteUrlIsAbsolute(wp)
    ensures StartsWith(ImageFallback(post, wp), "http")
  {
  }

  /** A relative image is made absolute with `site_url`; the default stands in when that yields nothing. */
  lemma {:induction false} RelativeImageUsesSiteUrl(post: Post, wp: Wp)
    requires !Empty(ImageCandidate(post)) && !StartsWith(ImageCandidate(post), "http")
    ensures ImageFallback(post, wp)
      == if Empty(wp.siteUrl(ImageCandidate(post))) then DefaultSocialImage else wp.siteUrl(ImageCandidate(post))
  {
  }

  /** `$fallback_data` for the post. */
  function PageFallback(post: Post, wp: Wp): (fb: Fallback)
    ensures fb.kind == "article" && !Empty(fb.image) && |fb.excerpt| <= DescriptionLimit
  {
    Fallback(post.title, DescriptionFallback(post, wp), post.permalink, "article", post.siteName,
             ImageFallback(post, wp))
  }

  // ---------------------------------------------------------------------
  // What is emitted
  // ---------------------------------------------------------------------

  /** The elements of `keys` that `keep` accepts, in their order in `keys`. */
  function Filter(keys: seq<TagName>, keep: TagName -> bool): seq<TagName> {
    if keys == [] then []
    else Filter(keys[..|keys| - 1], keep) + (if keep(keys[|keys| - 1]) then [keys[|keys| - 1]] else [])
  }

  predicate Distinct(s: seq<TagName>) {
    forall i, j :: 0 <= i < j < |s| ==> s[i] != s[j]
  }

  lemma {:induction false} DistinctConcat(a: seq<TagName>, b: seq<TagName>)
    requires Distinct(a) && Distinct(b)
    requires forall x :: x in a ==> x !in b
    ensures Distinct(a + b)
  {
    forall i, j | 0 <= i < j < |a + b| ensures (a + b)[i] != (a + b)[j] {
      if j < |a| {
        assert (a + b)[i] == a[i] && (a + b)[j] == a[j];
      } else if i >= |a| {
        assert (a + b)[i] == b[i - |a|] && (a + b)[j] == b[j - |a|];
      } else {
        assert (a + b)[i] == a[i] && (a + b)[j] == b[j - |a|];
        assert a[i] in a;
      }
    }
  }

  /** `a` is `b` with some elements left out and the rest kept in order. */
  predicate SubsequenceOf(a: seq<TagName>, b: seq<TagName>)
    decreases |b|
  {
    || a == []
    || (&& b != []
        && (|| SubsequenceOf(a, b[..|b| - 1])
            || (a[|a| - 1] == b[|b| - 1] && SubsequenceOf(a[..|a| - 1], b[..|b| - 1]))))
  }

  lemma {:induction false} FilterMembers(keys: seq<TagName>, keep: TagName -> bool, k: TagName)
    ensures k in Filter(keys, keep) <==> k in keys && keep(k)
    decreases |keys|
  {
    if keys != [] {
      var init := keys[..|keys| - 1];
      FilterMembers(init, keep, k);
      assert keys == init + [keys[|keys| - 1]];
    }
  }

  lemma {:induction false} FilterDistinct(keys: seq<TagName>, keep: TagName -> bool)
    requires Distinct(keys)
    ensures Distinct(Filter(keys, keep))
    decreases |keys|
  {
    if keys != [] {
      var init := keys[..|keys| - 1];
      var last := keys[|keys| - 1];
      FilterDistinct(init, keep);
      FilterMembers(init, keep, last);
      assert last !in init;
    }
  }

  lemma {:induction false} FilterKeepsOrder(keys: seq<TagName>, keep: TagName -> bool)
    ensures SubsequenceOf(Filter(keys, keep), keys)
    decreases |keys|
  {
    if keys != [] {
      var init := keys[..|keys| - 1];
      FilterKeepsOrder(init, keep);
      var f := Filter(init, keep);
      var last := keys[|keys| - 1];
      if keep(last) {
        var a := f + [last];
        assert Filter(keys, keep) == a;
        assert a[..|a| - 1] == f && a[|a| - 1] == last;
      } else {
        assert Filter(keys, keep) == f;
      }
    }
  }

  /** Considering one more key: the filter grows by that key exactly when it is kept. */
  lemma {:induction false} FilterSnoc(keys: seq<TagName>, keep: TagName -> bool, i: nat)
    requires i < |keys|
    ensures Filter(keys[..i + 1], keep) == Filter(keys[..i], keep) + Pick(keep(keys[i]), keys[i])
  {
    assert keys[..i + 1][..i] == keys[..i];
  }

  /** `empty($existing[$k])` as a test on tag names. */
  function MissingIn(found: map<TagName, string>): TagName -> bool {
    k => Missing(found, k)
  }

  /** A Twitter tag is emitted when it is missing and its value is not empty. */
  function TwitterWanted(found: map<TagName, string>, fb: Fallback): TagName -> bool {
    k => Missing(found, k) && !Empty(Value(k, fb))
  }

  /** The unescaped value a tag would carry. */
  function Value(k: TagName, fb: Fallback): string {
    match k
    case OgTitle | TwitterTitle => fb.title
    case OgDescription | TwitterDescription => fb.excerpt
    case OgImage | TwitterImage => fb.image
    case OgUrl => fb.url
    case OgType => fb.kind
    case OgSiteName => fb.siteName
    case TwitterCard => SummaryLargeImage
  }

  /** The content attribute, escaped as the plugin escapes it: URLs with `esc_url`, the rest with `esc_attr`. */
  function Content(k: TagName, fb: Fallback, wp: Wp): string {
    match k
    case OgImage | OgUrl | TwitterImage => wp.escUrl(Value(k, fb))
    case TwitterCard => SummaryLargeImage
    case _ => wp.escAttr(Value(k, fb))
  }

  function TagFor(k: TagName, fb: Fallback, wp: Wp): MetaTag {
    MetaTag(if k.IsOpenGraph() then Property else Name, k, Content(k, fb, wp))
  }

  function TagsFor(keys: seq<TagName>, fb: Fallback, wp: Wp): (r: seq<MetaTag>)
    ensures |r| == |keys|
  {
    if keys == [] then [] else TagsFor(keys[..|keys| - 1], fb, wp) + [TagFor(keys[|keys| - 1], fb, wp)]
  }

  /** The Open Graph tags to add (`$added_tags` once the gate is passed). */
  function OgKeysToAdd(found: map<TagName, string>): seq<TagName> {
    Filter(OgKeys, MissingIn(found))
  }

  function TwitterKeysToAdd(found: map<TagName, string>, fb: Fallback): seq<TagName> {
    Filter(TwitterKeys, TwitterWanted(found, fb))
  }

  /** Everything the synthesiser emits, in order: nothing past a closed gate, else Twitter then Open Graph. */
  function HeadTags(found: map<TagName, string>, fb: Fallback, wp: Wp): seq<MetaTag> {
    if SeoOwnsOgTags(found) then []
    else TagsFor(TwitterKeysToAdd(found, fb) + OgKeysToAdd(found), fb, wp)
  }

  function Keys(tags: seq<MetaTag>): seq<TagName> {
    seq(|tags|, i requires 0 <= i < |tags| => tags[i].key)
  }

  /** Each emitted tag is the one for its key, so the keys read back are the keys emitted. */
  lemma {:induction false} TagsForIndex(keys: seq<TagName>, fb: Fallback, wp: Wp, i: nat)
    requires i < |keys|
    ensures TagsFor(keys, fb, wp)[i] == TagFor(keys[i], fb, wp)
    decreases |keys|
  {
    if i < |keys| - 1 {
      TagsForIndex(keys[..|keys| - 1], fb, wp, i);
    }
  }

  lemma {:induction false} TagsForKeys(keys: seq<TagName>, fb: Fallback, wp: Wp)
    ensures Keys(TagsFor(keys, fb, wp)) == keys
  {
    forall i | 0 <= i < |keys| ensures Keys(TagsFor(keys, fb, wp))[i] == keys[i] {
      TagsForIndex(keys, fb, wp, i);
    }
  }

  // ---------------------------------------------------------------------
  // The synthesiser
  // ---------------------------------------------------------------------

  /**
   * alp_add_social_media_meta_tags past its `is_singular()` check: returns the
   * tags it echoes, in order, and the Open Graph names it records in `$added_tags`.
   */
  method AddSocialMediaMetaTags(found: map<TagName, string>, post: Post, wp: Wp)
    returns (out: seq<MetaTag>, added: seq<TagName>)
    ensures out == HeadTags(found, PageFallback(post, wp), wp)
    ensures added == if SeoOwnsOgTags(found) then [] else OgKeysToAdd(found)
    ensures out == [] <==> SeoOwnsOgTags(found)
  {
    var existingOg := DetectOgTags(found);
    GateCountIsRedundant(existingOg);
    OgKeysToAddAgree(existingOg, found);
    if |existingOg| >= 5
      && !Empty(Lookup(existingOg, OgTitle))
      && !Empty(Lookup(existingOg, OgDescription))
      && !Empty(Lookup(existingOg, OgImage))
      && !Empty(Lookup(existingOg, OgUrl))
      && !Empty(Lookup(existingOg, OgType))
    {
      return [], [];
    }
    var fb := PrepareFallback(post, wp);
    var existingTwitter := DetectTwitterTags(found);
    TwitterKeysToAddAgree(existingTwitter, found, fb);
    var twOut := EmitTwitterTags(existingTwitter, fb, wp);
    var ogOut;
    ogOut, added := EmitOgTags(existingOg, fb, wp);
    out := twOut + ogOut;
    assert !SeoOwnsOgTags(found);
    TagsForConcat(TwitterKeysToAdd(found, fb), OgKeysToAdd(found), fb, wp);
    GateOpenAddsOgTag(found);
  }

  /** The `$existing_og_tags` map: the first match of each Open Graph tag in the page so far. */
  method DetectOgTags(found: map<TagName, string>) returns (existing: map<TagName, string>)
    ensures forall k :: k in existing ==> k.IsOpenGraph()
    ensures forall k :: k in OgKeys ==> Lookup(existing, k) == Lookup(found, k)
  {
    existing := map[];
    if OgTitle in found { existing := existing[OgTitle := found[OgTitle]]; }
    if OgDescription in found { existing := existing[OgDescription := found[OgDescription]]; }
    if OgImage in found { existing := existing[OgImage := found[OgImage]]; }
    if OgUrl in found { existing := existing[OgUrl := found[OgUrl]]; }
    if OgType in found { existing := existing[OgType := found[OgType]]; }
    if OgSiteName in found { existing := existing[OgSiteName := found[OgSiteName]]; }
  }

  /** The `$existing_twitter_tags` map: the first match of each Twitter tag in the page so far. */
  method DetectTwitterTags(found: map<TagName, string>) returns (existing: map<TagName, string>)
    ensures forall k :: k in existing ==> !k.IsOpenGraph()
    ensures forall k :: k in TwitterKeys ==> Lookup(existing, k) == Lookup(found, k)
  {
    existing := map[];
    if TwitterCard in found { existing := existing[TwitterCard := found[TwitterCard]]; }
    if TwitterTitle in found { existing := existing[TwitterTitle := found[TwitterTitle]]; }
    if TwitterDescription in found { existing := existing[TwitterDescription := found[TwitterDescription]]; }
    if TwitterImage in found { existing := existing[TwitterImage := found[TwitterImage]]; }
  }

  /** The `$fallback_data` array, built step by step as the source builds it. */
  method PrepareFallback(post: Post, wp: Wp) returns (fb: Fallback)
    ensures fb == PageFallback(post, wp)
  {
    // Description: excerpt, then the stripped body, then the title.
    var excerpt := post.excerpt;
    if Empty(excerpt) {
      var content := StrippedBody(post.content, wp);
      if !Empty(content) {
        excerpt := content;
      }
    }
    if Empty(excerpt) {
      excerpt := post.title;
    }
    DescriptionOrder(post, wp);
    excerpt := Prefix(excerpt, DescriptionLimit);

    // Image: thumbnail, then near the title, then the first in the body, then the default.
    var image := "";
    if post.thumbnail.Some? {
      image := post.thumbnail.value;
    }
    if Empty(image) {
      if post.images.afterHeading.Some? {
        image := post.images.afterHeading.value;
      } else if post.images.afterParagraph.Some? {
        image := post.images.afterParagraph.value;
      }
    }
    if Empty(image) {
      if post.images.first.Some? {
        image := post.images.first.value;
      }
    }
    ImageOrder(post);
    if Empty(image) {
      ImageDefaultWithoutSignal(post, wp);
    }
    if !Empty(image) && !StartsWith(image, "http") {
      image := wp.siteUrl(image);
    }
    if Empty(image) {
      image := DefaultSocialImage;
    }
    fb := Fallback(post.title, excerpt, post.permalink, "article", post.siteName, image);
  }

  /** The Twitter block: each Twitter tag in turn, when it is absent and its value is not empty. */
  method EmitTwitterTags(existing: map<TagName, string>, fb: Fallback, wp: Wp) returns (out: seq<MetaTag>)
    ensures out == TagsFor(TwitterKeysToAdd(existing, fb), fb, wp)
  {
    out := [];
    ghost var out0 := out;
    if Empty(Lookup(existing, TwitterCard)) {
      out := out + [MetaTag(Name, TwitterCard, SummaryLargeImage)];
    }
    assert out == out0 + TagIf(Missing(existing, TwitterCard), TwitterCard, fb, wp);
    ghost var out1 := out;
    if Empty(Lookup(existing, TwitterTitle)) && !Empty(fb.title) {
      out := out + [MetaTag(Name, TwitterTitle, wp.escAttr(fb.title))];
    }
    assert out == out1 + TagIf(Missing(existing, TwitterTitle) && !Empty(fb.title), TwitterTitle, fb, wp);
    ghost var out2 := out;
    if Empty(Lookup(existing, TwitterDescription)) && !Empty(fb.excerpt) {
      out := out + [MetaTag(Name, TwitterDescription, wp.escAttr(fb.excerpt))];
    }
    assert out == out2 + TagIf(Missing(existing, TwitterDescription) && !Empty(fb.excerpt), TwitterDescription, fb, wp);
    ghost var out3 := out;
    if Empty(Lookup(existing, TwitterImage)) && !Empty(fb.image) {
      out := out + [MetaTag(Name, TwitterImage, wp.escUrl(fb.image))];
    }
    assert out == out3 + TagIf(Missing(existing, TwitterImage) && !Empty(fb.image), TwitterImage, fb, wp);
    assert out0 + TagIf(Missing(existing, TwitterCard), TwitterCard, fb, wp) == TagIf(Missing(existing, TwitterCard), TwitterCard, fb, wp);
    TwitterTagsUnrolled(existing, fb, wp);
  }

  /** The Open Graph block: each Open Graph tag in turn when it is absent, recorded in `$added_tags`. */
  method EmitOgTags(existing: map<TagName, string>, fb: Fallback, wp: Wp)
    returns (out: seq<MetaTag>, added: seq<TagName>)
    ensures added == OgKeysToAdd(existing)
    ensures out == TagsFor(added, fb, wp)
  {
    out, added := [], [];
    ghost var out0, added0 := out, added;
    if Empty(Lookup(existing, OgTitle)) {
      out := out + [MetaTag(Property, OgTitle, wp.escAttr(fb.title))];
      added := added + [OgTitle];
    }
    assert out == out0 + TagIf(Missing(existing, OgTitle), OgTitle, fb, wp);
    assert added == added0 + Pick(Missing(existing, OgTitle), OgTitle);
    ghost var out1, added1 := out, added;
    if Empty(Lookup(existing, OgDescription)) {
      out := out + [MetaTag(Property, OgDescription, wp.escAttr(fb.excerpt))];
      added := added + [OgDescription];
    }
    assert out == out1 + TagIf(Missing(existing, OgDescription), OgDescription, fb, wp);
    assert added == added1 + Pick(Missing(existing, OgDescription), OgDescription);
    ghost var out2, added2 := out, added;
    if Empty(Lookup(existing, OgImage)) {
      out := out + [MetaTag(Property, OgImage, wp.escUrl(fb.image))];
      added := added + [OgImage];
    }
    assert out == out2 + TagIf(Missing(existing, OgImage), OgImage, fb, wp);
    assert added == added2 + Pick(Missing(existing, OgImage), OgImage);
    ghost var out3, added3 := out, added;
    if Empty(Lookup(existing, OgUrl)) {
      out := out + [MetaTag(Property, OgUrl, wp.escUrl(fb.url))];
      added := added + [OgUrl];
    }
    assert out == out3 + TagIf(Missing(existing, OgUrl), OgUrl, fb, wp);
    assert added == added3 + Pick(Missing(existing, OgUrl), OgUrl);
    ghost var out4, added4 := out, added;
    if Empty(Lookup(existing, OgType)) {
      out := out + [MetaTag(Property, OgType, wp.escAttr(fb.kind))];
      added := added + [OgType];
    }
    assert out == out4 + TagIf(Missing(existing, OgType), OgType, fb, wp);
    assert added == added4 + Pick(Missing(existing, OgType), OgType);
    ghost var out5, added5 := out, added;
    if Empty(Lookup(existing, OgSiteName)) {
      out := out + [MetaTag(Property, OgSiteName, wp.escAttr(fb.siteName))];
      added := added + [OgSiteName];
    }
    assert out == out5 + TagIf(Missing(existing, OgSiteName), OgSiteName, fb, wp);
    assert added == added5 + Pick(Missing(existing, OgSiteName), OgSiteName);
    assert out0 + TagIf(Missing(existing, OgTitle), OgTitle, fb, wp) == TagIf(Missing(existing, OgTitle), OgTitle, fb, wp);
    assert added0 + Pick(Missing(existing, OgTitle), OgTitle) == Pick(Missing(existing, OgTitle), OgTitle);
    OgKeysToAddUnrolled(existing);
    OgTagsUnrolled(existing, fb, wp);
  }

  /** `[k]` when `keep` holds, else nothing: which name one `if` of an emitting block adds. */
  function Pick(keep: bool, k: TagName): seq<TagName> {
    if keep then [k] else []
  }

  /** The tag one `if` of an emitting block echoes, if any. */
  function TagIf(keep: bool, k: TagName, fb: Fallback, wp: Wp): seq<MetaTag> {
    if keep then [TagFor(k, fb, wp)] else []
  }

  lemma {:induction false} TagsForPick(keep: bool, k: TagName, fb: Fallback, wp: Wp)
    ensures TagsFor(Pick(keep, k), fb, wp) == TagIf(keep, k, fb, wp)
  {
  }

  /** The Open Graph tags to echo, spelled out tag by tag. */
  lemma {:induction false} OgTagsUnrolled(existing: map<TagName, string>, fb: Fallback, wp: Wp)
    ensures TagsFor(OgKeysToAdd(existing), fb, wp)
      == TagIf(Missing(existing, OgTitle), OgTitle, fb, wp) + TagIf(Missing(existing, OgDescription), OgDescription, fb, wp)
       + TagIf(Missing(existing, OgImage), OgImage, fb, wp) + TagIf(Missing(existing, OgUrl), OgUrl, fb, wp)
       + TagIf(Missing(existing, OgType), OgType, fb, wp) + TagIf(Missing(existing, OgSiteName), OgSiteName, fb, wp)
  {
    OgKeysToAddUnrolled(existing);
    var p0, p1 := Pick(Missing(existing, OgTitle), OgTitle), Pick(Missing(existing, OgDescription), OgDescription);
    var p2, p3 := Pick(Missing(existing, OgImage), OgImage), Pick(Missing(existing, OgUrl), OgUrl);
    var p4, p5 := Pick(Missing(existing, OgType), OgType), Pick(Missing(existing, OgSiteName), OgSiteName);
    TagsForConcat(p0 + p1 + p2 + p3 + p4, p5, fb, wp);
    TagsForConcat(p0 + p1 + p2 + p3, p4, fb, wp);
    TagsForConcat(p0 + p1 + p2, p3, fb, wp);
    TagsForConcat(p0 + p1, p2, fb, wp);
    TagsForConcat(p0, p1, fb, wp);
    TagsForPick(Missing(existing, OgTitle), OgTitle, fb, wp);
    TagsForPick(Missing(existing, OgDescription), OgDescription, fb, wp);
    TagsForPick(Missing(existing, OgImage), OgImage, fb, wp);
    TagsForPick(Missing(existing, OgUrl), OgUrl, fb, wp);
    TagsForPick(Missing(existing, OgType), OgType, fb, wp);
    TagsForPick(Missing(existing, OgSiteName), OgSiteName, fb, wp);
  }

  /** The Twitter tags to echo, spelled out tag by tag. */
  lemma {:induction false} TwitterTagsUnrolled(existing: map<TagName, string>, fb: Fallback, wp: Wp)
    ensures TagsFor(TwitterKeysToAdd(existing, fb), fb, wp)
      == TagIf(Missing(existing, TwitterCard), TwitterCard, fb, wp)
       + TagIf(Missing(existing, TwitterTitle) && !Empty(fb.title), TwitterTitle, fb, wp)
       + TagIf(Missing(existing, TwitterDescription) && !Empty(fb.excerpt), TwitterDescription, fb, wp)
       + TagIf(Missing(existing, TwitterImage) && !Empty(fb.image), TwitterImage, fb, wp)
  {
    TwitterKeysToAddUnrolled(existing, fb);
    var c0, c1 := Missing(existing, TwitterCard), Missing(existing, TwitterTitle) && !Empty(fb.title);
    var c2, c3 := Missing(existing, TwitterDescription) && !Empty(fb.excerpt), Missing(existing, TwitterImage) && !Empty(fb.image);
    var p0, p1, p2, p3 := Pick(c0, TwitterCard), Pick(c1, TwitterTitle), Pick(c2, TwitterDescription), Pick(c3, TwitterImage);
    TagsForConcat(p0 + p1 + p2, p3, fb, wp);
    TagsForConcat(p0 + p1, p2, fb, wp);
    TagsForConcat(p0, p1, fb, wp);
    TagsForPick(c0, TwitterCard, fb, wp);
    TagsForPick(c1, TwitterTitle, fb, wp);
    TagsForPick(c2, TwitterDescription, fb, wp);
    TagsForPick(c3, TwitterImage, fb, wp);
  }

  /** Filtering four keys, one `if` per key. */
  lemma {:induction false} FilterOfFour(keys: seq<TagName>, keep: TagName -> bool)
    requires |keys| == 4
    ensures Filter(keys, keep) == Pick(keep(keys[0]), keys[0]) + Pick(keep(keys[1]), keys[1]) + Pick(keep(keys[2]), keys[2]) + Pick(keep(keys[3]), keys[3])
  {
    var p0 := Pick(keep(keys[0]), keys[0]);
    var p1 := Pick(keep(keys[1]), keys[1]);
    var p2 := Pick(keep(keys[2]), keys[2]);
    var p3 := Pick(keep(keys[3]), keys[3]);
    assert keys[..0] == [];
    FilterSnoc(keys, keep, 0);
    assert Filter(keys[..1], keep) == p0;
    FilterSnoc(keys, keep, 1);
    assert Filter(keys[..2], keep) == p0 + p1;
    FilterSnoc(keys, keep, 2);
    assert Filter(keys[..3], keep) == p0 + p1 + p2;
    FilterSnoc(keys, keep, 3);
    assert keys[..4] == keys;
  }

  /** Filtering six keys, one `if` per key. */
  lemma {:induction false} FilterOfSix(keys: seq<TagName>, keep: TagName -> bool)
    requires |keys| == 6
    ensures Filter(keys, keep) == Pick(keep(keys[0]), keys[0]) + Pick(keep(keys[1]), keys[1]) + Pick(keep(keys[2]), keys[2]) + Pick(keep(keys[3]), keys[3]) + Pick(keep(keys[4]), keys[4]) + Pick(keep(keys[5]), keys[5])
  {
    var p0 := Pick(keep(keys[0]), keys[0]);
    var p1 := Pick(keep(keys[1]), keys[1]);
    var p2 := Pick(keep(keys[2]), keys[2]);
    var p3 := Pick(keep(keys[3]), keys[3]);
    var p4 := Pick(keep(keys[4]), keys[4]);
    var p5 := Pick(keep(keys[5]), keys[5]);
    assert keys[..0] == [];
    FilterSnoc(keys, keep, 0);
    assert Filter(keys[..1], keep) == p0;
    FilterSnoc(keys, keep, 1);
    assert Filter(keys[..2], keep) == p0 + p1;
    FilterSnoc(keys, keep, 2);
    assert Filter(keys[..3], keep) == p0 + p1 + p2;
    FilterSnoc(keys, keep, 3);
    assert Filter(keys[..4], keep) == p0 + p1 + p2 + p3;
    FilterSnoc(keys, keep, 4);
    assert Filter(keys[..5], keep) == p0 + p1 + p2 + p3 + p4;
    FilterSnoc(keys, keep, 5);
    assert keys[..6] == keys;
  }

  lemma {:induction false} OgKeysUnrolled(keep: TagName -> bool)
    ensures Filter(OgKeys, keep)
      == Pick(keep(OgTitle), OgTitle) + Pick(keep(OgDescription), OgDescription) + Pick(keep(OgImage), OgImage)
       + Pick(keep(OgUrl), OgUrl) + Pick(keep(OgType), OgType) + Pick(keep(OgSiteName), OgSiteName)
  {
    FilterOfSix(OgKeys, keep);
  }

  lemma {:induction false} TwitterKeysUnrolled(keep: TagName -> bool)
    ensures Filter(TwitterKeys, keep)
      == Pick(keep(TwitterCard), TwitterCard) + Pick(keep(TwitterTitle), TwitterTitle)
       + Pick(keep(TwitterDescription), TwitterDescription) + Pick(keep(TwitterImage), TwitterImage)
  {
    FilterOfFour(TwitterKeys, keep);
  }

  lemma {:induction false} OgKeysToAddUnrolled(found: map<TagName, string>)
    ensures OgKeysToAdd(found)
      == Pick(Missing(found, OgTitle), OgTitle) + Pick(Missing(found, OgDescription), OgDescription)
       + Pick(Missing(found, OgImage), OgImage) + Pick(Missing(found, OgUrl), OgUrl)
       + Pick(Missing(found, OgType), OgType) + Pick(Missing(found, OgSiteName), OgSiteName)
  {
    var keep := MissingIn(found);
    OgKeysUnrolled(keep);
    assert keep(OgTitle) == Missing(found, OgTitle) && keep(OgDescription) == Missing(found, OgDescription);
    assert keep(OgImage) == Missing(found, OgImage) && keep(OgUrl) == Missing(found, OgUrl);
    assert keep(OgType) == Missing(found, OgType) && keep(OgSiteName) == Missing(found, OgSiteName);
  }

  /** The Twitter names to add, spelled out name by name. */
  lemma {:induction false} TwitterKeysToAddUnrolled(found: map<TagName, string>, fb: Fallback)
    ensures TwitterKeysToAdd(found, fb)
      == Pick(Missing(found, TwitterCard), TwitterCard)
       + Pick(Missing(found, TwitterTitle) && !Empty(fb.title), TwitterTitle)
       + Pick(Missing(found, TwitterDescription) && !Empty(fb.excerpt), TwitterDescription)
       + Pick(Missing(found, TwitterImage) && !Empty(fb.image), TwitterImage)
  {
    var keep := TwitterWanted(found, fb);
    TwitterKeysUnrolled(keep);
    assert Value(TwitterCard, fb) == SummaryLargeImage && !Empty(SummaryLargeImage);
    assert Value(TwitterTitle, fb) == fb.title && Value(TwitterDescription, fb) == fb.excerpt;
    assert Value(TwitterImage, fb) == fb.image;
    assert keep(TwitterCard) == Missing(found, TwitterCard);
    assert keep(TwitterTitle) == (Missing(found, TwitterTitle) && !Empty(fb.title));
    assert keep(TwitterDescription) == (Missing(found, TwitterDescription) && !Empty(fb.excerpt));
    assert keep(TwitterImage) == (Missing(found, TwitterImage) && !Empty(fb.image));
  }

  /** Two tests that agree on every key select the same keys. */
  lemma {:induction false} FilterAgree(keys: seq<TagName>, keep1: TagName -> bool, keep2: TagName -> bool)
    requires forall k :: k in keys ==> keep1(k) == keep2(k)
    ensures Filter(keys, keep1) == Filter(keys, keep2)
    decreases |keys|
  {
    if keys != [] {
      var init := keys[..|keys| - 1];
      assert forall k :: k in init ==> k in keys;
      FilterAgree(init, keep1, keep2);
      assert keys[|keys| - 1] in keys;
    }
  }

  /** Only the Open Graph names are read, so a map that agrees on them passes the gate alike and adds the same tags. */
  lemma {:induction false} OgKeysToAddAgree(existing: map<TagName, string>, found: map<TagName, string>)
    requires forall k :: k in OgKeys ==> Lookup(existing, k) == Lookup(found, k)
    ensures OgKeysToAdd(existing) == OgKeysToAdd(found)
    ensures SeoOwnsOgTags(existing) == SeoOwnsOgTags(found)
  {
    FilterAgree(OgKeys, MissingIn(existing), MissingIn(found));
  }

  /** Only the Twitter names are read, so a map that agrees on them adds the same tags. */
  lemma {:induction false} TwitterKeysToAddAgree(existing: map<TagName, string>, found: map<TagName, string>, fb: Fallback)
    requires forall k :: k in TwitterKeys ==> Lookup(existing, k) == Lookup(found, k)
    ensures TwitterKeysToAdd(existing, fb) == TwitterKeysToAdd(found, fb)
  {
    FilterAgree(TwitterKeys, TwitterWanted(existing, fb), TwitterWanted(found, fb));
  }

  lemma {:induction false} TagsForConcat(a: seq<TagName>, b: seq<TagName>, fb: Fallback, wp: Wp)
    ensures TagsFor(a + b, fb, wp) == TagsFor(a, fb, wp) + TagsFor(b, fb, wp)
    decreases |b|
  {
    if b != [] {
      var init := b[..|b| - 1];
      TagsForConcat(a, init, fb, wp);
      assert (a + b)[..|a + b| - 1] == a + init;
    } else {
      assert a + b == a;
    }
  }

  /** Past the gate at least one core Open Graph tag is missing, so something is added. */
  lemma {:induction false} GateOpenAddsOgTag(found: map<TagName, string>)
    requires !SeoOwnsOgTags(found)
    ensures OgKeysToAdd(found) != []
  {
    var k :| k in [OgTitle, OgDescription, OgImage, OgUrl, OgType] && Missing(found, k);
    FilterMembers(OgKeys, MissingIn(found), k);
  }

  // ---------------------------------------------------------------------
  // Properties of what is emitted
  // ---------------------------------------------------------------------

  /** The Open Graph list names exactly the Open Graph tags, the Twitter list the others; neither repeats. */
  lemma {:induction false} KeyListsPartition(k: TagName)
    ensures k in OgKeys <==> k.IsOpenGraph()
    ensures k in TwitterKeys <==> !k.IsOpenGraph()
    ensures Distinct(OgKeys) && Distinct(TwitterKeys)
  {
  }

  /** The names of the emitted tags: the Twitter ones to add, then the Open Graph ones to add. */
  lemma {:induction false} HeadTagsKeys(found: map<TagName, string>, fb: Fallback, wp: Wp)
    ensures Keys(HeadTags(found, fb, wp))
      == if SeoOwnsOgTags(found) then [] else TwitterKeysToAdd(found, fb) + OgKeysToAdd(found)
  {
    if !SeoOwnsOgTags(found) {
      TagsForKeys(TwitterKeysToAdd(found, fb) + OgKeysToAdd(found), fb, wp);
    }
  }

  /**
   * Every emitted tag is the one for its name: `property=` exactly for Open
   * Graph names, and the content the synthesiser gives that name.
   */
  lemma {:induction false} EmittedTagsAreWellFormed(found: map<TagName, string>, fb: Fallback, wp: Wp)
    ensures forall t :: t in HeadTags(found, fb, wp) ==> t == TagFor(t.key, fb, wp)
    ensures forall t :: t in HeadTags(found, fb, wp) ==> (t.attr == Property <==> t.key.IsOpenGraph())
  {
    var out := HeadTags(found, fb, wp);
    if !SeoOwnsOgTags(found) {
      var keys := TwitterKeysToAdd(found, fb) + OgKeysToAdd(found);
      forall t | t in out ensures t == TagFor(t.key, fb, wp) {
        var i :| 0 <= i < |out| && out[i] == t;
        TagsForIndex(keys, fb, wp, i);
      }
    }
  }

  /**
   * Past the gate, an Open Graph tag is emitted exactly when its existing
   * value is absent or empty; a non-empty existing tag is never re-emitted.
   */
  lemma {:induction false} OgTagEmittedIffMissing(found: map<TagName, string>, fb: Fallback, wp: Wp, k: TagName)
    requires k.IsOpenGraph()
    ensures k in Keys(HeadTags(found, fb, wp)) <==> !SeoOwnsOgTags(found) && Missing(found, k)
  {
    HeadTagsKeys(found, fb, wp);
    KeyListsPartition(k);
    if !SeoOwnsOgTags(found) {
      FilterMembers(OgKeys, MissingIn(found), k);
      FilterMembers(TwitterKeys, TwitterWanted(found, fb), k);
    }
  }

  /**
   * Past the gate, a Twitter tag is emitted exactly when its existing value is
   * absent or empty and the value it would carry is not empty.
   */
  lemma {:induction false} TwitterTagEmittedIff(found: map<TagName, string>, fb: Fallback, wp: Wp, k: TagName)
    requires !k.IsOpenGraph()
    ensures k in Keys(HeadTags(found, fb, wp))
      <==> !SeoOwnsOgTags(found) && Missing(found, k) && !Empty(Value(k, fb))
  {
    HeadTagsKeys(found, fb, wp);
    KeyListsPartition(k);
    if !SeoOwnsOgTags(found) {
      FilterMembers(TwitterKeys, TwitterWanted(found, fb), k);
      FilterMembers(OgKeys, MissingIn(found), k);
    }
  }

  /** twitter:card is emitted whenever it is missing past the gate, always as summary_large_image. */
  lemma {:induction false} TwitterCardRule(found: map<TagName, string>, fb: Fallback, wp: Wp)
    ensures TwitterCard in Keys(HeadTags(found, fb, wp)) <==> !SeoOwnsOgTags(found) && Missing(found, TwitterCard)
    ensures forall t :: t in HeadTags(found, fb, wp) && t.key == TwitterCard ==>
      t == MetaTag(Name, TwitterCard, SummaryLargeImage)
  {
    TwitterTagEmittedIff(found, fb, wp, TwitterCard);
    EmittedTagsAreWellFormed(found, fb, wp);
  }

  /** Every echoed line opens with `property="` exactly for an Open Graph name, and with `name="` otherwise. */
  lemma {:induction false} EmittedMarkupAttribute(found: map<TagName, string>, fb: Fallback, wp: Wp)
    ensures forall t :: t in HeadTags(found, fb, wp) ==> ("<meta property=\"" <= t.Markup() <==> t.key.IsOpenGraph())
    ensures forall t :: t in HeadTags(found, fb, wp) ==> ("<meta name=\"" <= t.Markup() <==> !t.key.IsOpenGraph())
  {
    EmittedTagsAreWellFormed(found, fb, wp);
    forall t | t in HeadTags(found, fb, wp)
      ensures "<meta property=\"" <= t.Markup() <==> t.key.IsOpenGraph()
      ensures "<meta name=\"" <= t.Markup() <==> !t.key.IsOpenGraph()
    {
      MarkupOpener(t);
    }
  }

  /**
   * twitter:image is emitted whenever it is missing past the gate, given an
   * image that is not empty, which `PageFallback` always supplies.
   */
  lemma {:induction false} TwitterImageRule(found: map<TagName, string>, fb: Fallback, wp: Wp)
    requires !Empty(fb.image)
    ensures TwitterImage in Keys(HeadTags(found, fb, wp)) <==> !SeoOwnsOgTags(found) && Missing(found, TwitterImage)
  {
    TwitterTagEmittedIff(found, fb, wp, TwitterImage);
  }

  /** With the five core tags present, a missing og:site_name on its own causes no output. */
  lemma {:induction false} SiteNameAloneEmitsNothing(found: map<TagName, string>, fb: Fallback, wp: Wp)
    requires forall k: TagName :: k.IsOpenGraph() && k != OgSiteName ==> !Missing(found, k)
    ensures HeadTags(found, fb, wp) == []
  {
  }

  /** No tag name is emitted twice. */
  lemma {:induction false} NoTagEmittedTwice(found: map<TagName, string>, fb: Fallback, wp: Wp)
    ensures Distinct(Keys(HeadTags(found, fb, wp)))
  {
    HeadTagsKeys(found, fb, wp);
    if !SeoOwnsOgTags(found) {
      var tw := TwitterKeysToAdd(found, fb);
      var og := OgKeysToAdd(found);
      KeyListsPartition(OgTitle);
      FilterDistinct(TwitterKeys, TwitterWanted(found, fb));
      FilterDistinct(OgKeys, MissingIn(found));
      forall x | x in tw ensures x !in og {
        FilterMembers(TwitterKeys, TwitterWanted(found, fb), x);
        FilterMembers(OgKeys, MissingIn(found), x);
        KeyListsPartition(x);
      }
      DistinctConcat(tw, og);
    }
  }

  /** The Open Graph tags come out in the order title, description, image, url, type, site_name. */
  lemma {:induction false} OgTagsInFixedOrder(found: map<TagName, string>)
    ensures SubsequenceOf(OgKeysToAdd(found), OgKeys)
  {
    FilterKeepsOrder(OgKeys, MissingIn(found));
  }

  /** The Twitter tags come out in the order card, title, description, image. */
  lemma {:induction false} TwitterTagsInFixedOrder(found: map<TagName, string>, fb: Fallback)
    ensures SubsequenceOf(TwitterKeysToAdd(found, fb), TwitterKeys)
  {
    FilterKeepsOrder(TwitterKeys, TwitterWanted(found, fb));
  }

  /** The Twitter names to add are Twitter names, the Open Graph names to add Open Graph names. */
  lemma {:induction false} KeysToAddKinds(found: map<TagName, string>, fb: Fallback)
    ensures forall x :: x in TwitterKeysToAdd(found, fb) ==> !x.IsOpenGraph()
    ensures forall x :: x in OgKeysToAdd(found) ==> x.IsOpenGraph()
  {
    forall x | x in TwitterKeysToAdd(found, fb) ensures !x.IsOpenGraph() {
      FilterMembers(TwitterKeys, TwitterWanted(found, fb), x);
      KeyListsPartition(x);
    }
    forall x | x in OgKeysToAdd(found) ensures x.IsOpenGraph() {
      FilterMembers(OgKeys, MissingIn(found), x);
      KeyListsPartition(x);
    }
  }

  /** Every Twitter tag comes before every Open Graph tag. */
  lemma {:induction false} TwitterTagsComeFirst(found: map<TagName, string>, fb: Fallback, wp: Wp)
    ensures var keys := Keys(HeadTags(found, fb, wp));
      forall i, j :: 0 <= i < j < |keys| && keys[i].IsOpenGraph() ==> keys[j].IsOpenGraph()
  {
    HeadTagsKeys(found, fb, wp);
    if !SeoOwnsOgTags(found) {
      KeysToAddKinds(found, fb);
      KindsInOrder(TwitterKeysToAdd(found, fb), OgKeysToAdd(found));
    }
  }

  /** Twitter keys followed by Open Graph keys: no Twitter key after an Open Graph one. */
  lemma {:induction false} KindsInOrder(tw: seq<TagName>, og: seq<TagName>)
    requires forall x :: x in tw ==> !x.IsOpenGraph()
    requires forall x :: x in og ==> x.IsOpenGraph()
    ensures forall i, j :: 0 <= i < j < |tw + og| && (tw + og)[i].IsOpenGraph() ==> (tw + og)[j].IsOpenGraph()
  {
    var keys := tw + og;
    forall i | 0 <= i < |tw| ensures !keys[i].IsOpenGraph() {
      assert keys[i] == tw[i] && tw[i] in tw;
    }
    forall j | |tw| <= j < |keys| ensures keys[j].IsOpenGraph() {
      assert keys[j] == og[j - |tw|] && og[j - |tw|] in og;
    }
  }
}
