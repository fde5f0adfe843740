# Auto Link Preview Cards: a verified model

This project models the two decision procedures of the WordPress plugin
`auto-link-preview.php`, with the host platform's calls replaced by inputs:

* **The social-metadata synthesiser** (`alp_add_social_media_meta_tags`, run on
  `wp_head`). It reads the Open Graph and Twitter Card tags already in the page
  head. If the five core Open Graph tags are not all present with non-empty
  content, it emits one `<meta>` element for each missing Open Graph tag, and
  one for each missing Twitter tag whose value is not empty. The values come
  from the post: title; excerpt, stripped body or title, cut to 160 characters;
  thumbnail, body image or default; permalink; `article`; site name. The Twitter
  tags come first, then the Open Graph tags, each group in a fixed order.
  Module `SocialMeta` (`social_meta.dfy`) models it as methods that fill the
  `$existing_*` maps and the `$fallback_data` step by step, and that append to
  the output and to `$added_tags`. Each method is proved against a specification
  function (`HeadTags`, `PageFallback`, `OgKeysToAdd`), and the lemmas state what
  the plugin promises about those functions.
* **The inline link expander** (`alp_auto_generate_link_previews`, a
  `the_content` filter). Each line of the content that is nothing but an
  `http://` or `https://` URL is replaced, in order of preference, by:
  * the platform's oEmbed markup;
  * a plain anchor, when the fetch fails or the response is not HTML;
  * a preview card built from the page's Open Graph tags, with fallbacks.

  Module `LinkPreview` (`link_preview.dfy`) models the filter as functions over
  the lines of the content.

Shared pieces:

* `php_strings.dfy` (module `PhpStrings`) states the PHP string semantics the
  plugin relies on:
  * `empty()`, where `""` and `"0"` are empty;
  * `strpos` used as a prefix or substring test;
  * `substr`;
  * `trim`;
  * `preg_replace('/\s+/', ' ', …)`;
  * chains of `if (empty($x)) $x = …;`.
* `wordpress.dfy` (module `WordPress`) holds the platform helpers as a record
  of functions.
* `wrappers.dfy` holds `Option`.

Regular-expression extraction is represented by its result: the first match of
each pattern, or none.

* In the synthesiser, a map from tag name to the captured content.
* On a fetched page, `PageMatches`.
* In the post body, `BodyImages`.

The extraction patterns only match a `<meta>` element whose `property`/`name`
attribute comes before `content`. An element written the other way round is
therefore simply absent from these inputs.

Two behaviours of the code that a reader might not expect. The model keeps
each of them:

* **The card title can be empty.** When og:title is missing or `empty()` and
  the `<title>` element holds only characters `trim` removes, the title is
  `esc_html(trim(…))` of `""`. The host fallback is not used, because it applies
  only when no `<title>` matched at all. `LinkPreview.EmptyTitleReachable`
  proves this for every such page, given that `esc_html("")` is `""`.
* **The card image can be empty.** The image is whatever `esc_url` returns for
  the matched source, and that may be empty. The card then simply has no `<img>`
  (`Layout`).

One consequence of the line pattern is also proved. In content with CRLF line
breaks, a URL line followed by a CRLF line break is not rewritten: the `\r`
before the `\n` is whitespace, and `$` matches only before `\n`
(`LinkPreview.CarriageReturnLineIsNotBare`). The last line of the content has no
line break after it, so a URL there is still rewritten.

## Model

| member | source | states |
|---|---|---|
| SocialMeta.AddSocialMediaMetaTags | auto-link-preview.php:15-206 | The tags echoed are `HeadTags` of the existing tags and the post's fallback data: nothing when the five core Open Graph tags are non-empty, and otherwise at least one tag. `$added_tags` is exactly the Open Graph names emitted, in order. |
| SocialMeta.DetectOgTags | auto-link-preview.php:24-54 | The map holds only Open Graph names, and reads for each of the six names exactly what the page's first match gave. |
| SocialMeta.GateCountIsRedundant | auto-link-preview.php:56-64 | The gate's test "at least five entries and the five core tags non-empty" holds exactly when the five core tags are non-empty: the count adds nothing. |
| SocialMeta.SiteNameAloneEmitsNothing | auto-link-preview.php:56-64 | When every Open Graph tag but og:site_name is present and non-empty, nothing is emitted. |
| SocialMeta.PrepareFallback | auto-link-preview.php:66-123 | The step-by-step description and image chains end with exactly `PageFallback(post)`. |
| SocialMeta.PageFallback | auto-link-preview.php:68-123 | The fallback type is "article", the image is never empty, and the description has at most 160 characters. |
| SocialMeta.StrippedBody | auto-link-preview.php:79-83 | The stripped body holds no whitespace other than single spaces, with none at either end. Its visible characters are those of the text left after `strip_shortcodes` and `wp_strip_all_tags`, in order, less any NUL characters at either end. |
| SocialMeta.DescriptionOrder | auto-link-preview.php:75-90 | The description source is the excerpt if not empty, else the stripped body if not empty, else the title. |
| SocialMeta.DescriptionFallback | auto-link-preview.php:91 | The description is a prefix of its source, at most 160 characters long: the whole source when it has at most 160 characters, and exactly 160 otherwise. |
| SocialMeta.ImageOrder | auto-link-preview.php:97-116 | The image candidate is the thumbnail if not empty, else the image near the title, else the first body image. |
| SocialMeta.ImageFallback | auto-link-preview.php:97-123 | The synthesised image is never empty. |
| SocialMeta.AbsoluteImageKept | auto-link-preview.php:117-119 | A candidate that already starts with "http" is used unchanged. |
| SocialMeta.RelativeImageUsesSiteUrl | auto-link-preview.php:117-122 | A non-empty candidate not starting with "http" is replaced by `site_url` of it, or by the default image when `site_url` gives an empty value. |
| SocialMeta.ImageIsAbsolute | auto-link-preview.php:117-122 | If `site_url` returns http(s) URLs, the synthesised image always starts with "http". |
| SocialMeta.ImageDefaultWithoutSignal | auto-link-preview.php:120-122 | With no thumbnail and no image in the body, the image is the fixed default. |
| SocialMeta.DetectTwitterTags | auto-link-preview.php:128-145 | The map holds only Twitter names, and reads for each of the four names exactly what the page's first match gave. |
| SocialMeta.EmitTwitterTags | auto-link-preview.php:147-169 | The four guarded echoes emit exactly the tags for `TwitterKeysToAdd`, in order. |
| SocialMeta.EmitOgTags | auto-link-preview.php:171-205 | The six guarded echoes emit exactly the tags for `OgKeysToAdd`, in order, and `$added_tags` is that list of names. |
| SocialMeta.HeadTagsKeys | auto-link-preview.php:147-205 | The emitted names are the Twitter names to add followed by the Open Graph names to add, or none past a closed gate. |
| SocialMeta.OgTagEmittedIffMissing | auto-link-preview.php:171-205 | An Open Graph tag is emitted if and only if the gate is open and its existing value is absent or empty. |
| SocialMeta.TwitterTagEmittedIff | auto-link-preview.php:149-169 | A Twitter tag is emitted if and only if the gate is open, its existing value is absent or empty, and its fallback value is not empty. |
| SocialMeta.TwitterCardRule | auto-link-preview.php:149-151 | twitter:card is emitted exactly when it is missing past the gate, and always with content summary_large_image. |
| SocialMeta.TwitterImageRule | auto-link-preview.php:161-165 | twitter:image is emitted exactly when it is missing past the gate, given a non-empty image (which the fallback always is). |
| SocialMeta.NoTagEmittedTwice | auto-link-preview.php:147-205 | No tag name occurs twice in the output. |
| SocialMeta.OgTagsInFixedOrder | auto-link-preview.php:171-205 | The Open Graph names added are a subsequence of title, description, image, url, type, site_name. |
| SocialMeta.TwitterTagsInFixedOrder | auto-link-preview.php:147-169 | The Twitter names added are a subsequence of card, title, description, image. |
| SocialMeta.KeysToAddKinds | auto-link-preview.php:147-205 | The Twitter block adds only Twitter names, and the Open Graph block only Open Graph names. |
| SocialMeta.TwitterTagsComeFirst | auto-link-preview.php:147-205 | In the output, no Twitter tag follows an Open Graph tag. |
| SocialMeta.EmittedTagsAreWellFormed | auto-link-preview.php:150-203 | Every emitted tag carries its own name's content, with `property=` exactly for Open Graph names and `name=` for Twitter names. |
| SocialMeta.MarkupOpener | auto-link-preview.php:150-203 | An echoed line opens with `<meta property="` exactly when its attribute is `property`, and with `<meta name="` exactly when it is `name`. |
| SocialMeta.MarkupReadsBack | auto-link-preview.php:150-203 | An echoed line reads back as its tag: the tag's name right after the opener, then `" content="`, the content, and the closing `" />`. |
| SocialMeta.EmittedMarkupAttribute | auto-link-preview.php:150-203 | Every echoed line opens with `property="` exactly for an Open Graph name, and with `name="` exactly for a Twitter name. |
| SocialMeta.TextIsInjective | auto-link-preview.php:150-203 | Distinct tags are written with distinct names in the markup. |
| SocialMeta.KeyListsPartition | auto-link-preview.php:24-54 | The Open Graph list holds exactly the Open Graph names and the Twitter list the rest; neither repeats a name. |
| SocialMeta.FilterMembers | auto-link-preview.php:171-205 | A guarded sequence of echoes emits a name exactly when the name is in the list and its guard holds. |
| SocialMeta.FilterKeepsOrder | auto-link-preview.php:171-205 | A guarded sequence of echoes keeps the list's order. |
| SocialMeta.FilterDistinct | auto-link-preview.php:171-205 | A guarded sequence of echoes over distinct names repeats none. |
| PhpStrings.FirstFilledPicks | auto-link-preview.php:76-90 | A chain of `empty()` fallbacks ends at the first non-empty candidate (or the last one). |
| PhpStrings.FirstFilledEmpty | auto-link-preview.php:76-90 | Such a chain ends empty if and only if every candidate is empty. |
| PhpStrings.FirstFilledOfThree | auto-link-preview.php:97-116 | The three cases of a three-step chain, the shape of both of the synthesiser's chains. |
| PhpStrings.CollapseIsCollapsed | auto-link-preview.php:83 | After `preg_replace('/\s+/', ' ', …)` the only whitespace is single spaces. |
| PhpStrings.CollapseKeepsText | auto-link-preview.php:83 | Collapsing whitespace keeps every other character, in order. |
| PhpStrings.CollapseConcat | auto-link-preview.php:83 | Content split at a point that is not inside a whitespace run collapses as its two parts do. |
| PhpStrings.CollapseRun | auto-link-preview.php:83 | A whitespace run with no whitespace next to it becomes exactly one space, and the text on either side collapses on its own. |
| PhpStrings.AllSpaceCollapses | auto-link-preview.php:83 | A non-empty string of whitespace alone becomes one space. |
| PhpStrings.CollapseKeepsSpaceFree | auto-link-preview.php:83 | Text without whitespace is left unchanged. |
| PhpStrings.NormalizeSpace | auto-link-preview.php:83 | Collapsing and then trimming leaves no whitespace but single spaces, none at either end. Its visible characters are the input's, in order, less any NUL characters at either end. |
| PhpStrings.TrimVisible | auto-link-preview.php:83 | On text whose only whitespace is spaces, trimming and then keeping the visible characters equals keeping them and then trimming. |
| PhpStrings.TrimLeftSpec | auto-link-preview.php:83 | `ltrim` removes a run of trim characters from the front, and leaves no trim character first. |
| PhpStrings.TrimRightSpec | auto-link-preview.php:83 | `rtrim` removes a run of trim characters from the end, and leaves no trim character last. |
| PhpStrings.TrimSpec | auto-link-preview.php:256-258 | `trim` returns the slice of its input between a leading and a trailing run of trim characters, and that slice neither starts nor ends with one. |
| PhpStrings.TrimEmpty | auto-link-preview.php:256-258 | `trim` gives "" exactly when every character is a trim character. |
| PhpStrings.Prefix | auto-link-preview.php:261 | `substr($s, 0, n)` is a prefix of `$s`, at most `n` long: all of `$s` when it has at most `n` characters, and exactly `n` long otherwise. |
| LinkPreview.Resolve | auto-link-preview.php:239-261 | Title: og:title, else `<title>`, else the URL's host. Image: og:image, else the first `<img>`, else the default. Description: og:description, else `<meta name="description">`, else "", never over 200 characters. An og value that is `empty()` falls through to the next tier. |
| LinkPreview.DescriptionIsPrefix | auto-link-preview.php:258-261 | The card description is a prefix of the escaped, trimmed source. It is cut only when that text is longer than 200 characters, and then to exactly 200. |
| LinkPreview.ZeroOgTitleIsSkipped | auto-link-preview.php:244-256 | An og:title of "0" is treated as missing. |
| LinkPreview.EmptyTitleReachable | auto-link-preview.php:244-256 | When og:title is missing or empty and `<title>` holds only trim characters, the card title is empty (given `esc_html("") == ""`). |
| LinkPreview.Layout | auto-link-preview.php:264-273 | The card shows an image exactly when the image is not empty and not the default, and a paragraph exactly when the description is not empty. The heading and host line are always present. |
| LinkPreview.NoImageSignalOmitsImage | auto-link-preview.php:240-268 | A page with no og:image and no `<img>` gives a card without an image. |
| LinkPreview.NoDescriptionSignalOmitsParagraph | auto-link-preview.php:241-272 | A page with no description signal gives a card without a paragraph. |
| LinkPreview.Choose | auto-link-preview.php:216-276 | It is an embed exactly when the oEmbed lookup gives a non-empty string, which is returned verbatim. It is a plain link exactly when there is no embed and the fetch failed or the content type lacks "text/html". Otherwise it is the card laid out from the page. |
| LinkPreview.EmbedUsedVerbatim | auto-link-preview.php:216-217 | A bare URL line with an embed is replaced by the embed itself. |
| LinkPreview.FailureGivesAnchor | auto-link-preview.php:220-236 | Without an embed, a failed fetch or a non-HTML response replaces the line with exactly the `target="_blank"` anchor whose target and text are the escaped URL. |
| LinkPreview.HtmlGivesCard | auto-link-preview.php:234-277 | Without an embed, an HTML response replaces the line with the card markup for the resolved metadata. |
| LinkPreview.CardImageElementIffShown | auto-link-preview.php:264-268 | Right after the card's link opener comes an `<img` exactly when the card shows an image. |
| LinkPreview.CardFrame | auto-link-preview.php:264-274 | Every card starts with the preview container and link opener, and ends with the host line and the closing tags. |
| LinkPreview.BareUrlLineIsOneLine | auto-link-preview.php:210 | A line the pattern matches contains no line break. |
| LinkPreview.CarriageReturnLineIsNotBare | auto-link-preview.php:210 | A line ending in a carriage return is never matched. |
| LinkPreview.SchemeCaseIgnored | auto-link-preview.php:210 | After `http://` or `https://` in any letter case, the line matches exactly when the rest is one or more characters, none of them whitespace or `<`. A scheme with nothing after it does not match. |
| LinkPreview.NothingBeforeScheme | auto-link-preview.php:210 | A line whose first character is not `h` or `H` is not matched. |
| LinkPreview.SplitLinesHaveNoBreaks | auto-link-preview.php:210 | No line of the split content contains a line break. |
| LinkPreview.JoinSplit | auto-link-preview.php:210-212 | Splitting the content into lines and joining them again gives back the content. |
| LinkPreview.SplitJoin | auto-link-preview.php:210-212 | Joining lines without line breaks and splitting again gives back the lines. |
| LinkPreview.SplitConcat | auto-link-preview.php:210-212 | The lines of `a + "\n" + b` are the lines of `a` followed by those of `b`. |
| LinkPreview.JoinConcat | auto-link-preview.php:210-212 | Joining two runs of lines puts exactly one line break between them. |
| LinkPreview.RewriteLinesConcat | auto-link-preview.php:212 | Rewriting two runs of lines together gives the rewriting of each, in order. |
| LinkPreview.RewriteLinesKeepsPlainLines | auto-link-preview.php:212 | Lines none of which is a bare URL line come back unchanged. |
| LinkPreview.ExpandUnchanged | auto-link-preview.php:210-212 | Content with no bare URL line is returned unchanged. |
| LinkPreview.ExpandLines | auto-link-preview.php:210-277 | Each bare URL line is replaced exactly once by its preview, every other line is kept, and the order of lines is preserved. |
| LinkPreview.ExpandConcat | auto-link-preview.php:210-277 | Lines are expanded independently: expanding `a + "\n" + b` gives the expansion of `a`, a line break, then the expansion of `b`. |

## Left out

- Hook registration (`add_action`, `add_filter`) and the `is_singular()` check are not modelled. `AddSocialMediaMetaTags` is the function past that check.
- The output buffer read by `ob_get_contents()` enters only as the `found` map of first matches.
- The `echo`ed lines are returned as a sequence of `MetaTag`s. `MetaTag.Markup` gives each one's text.
- The extraction patterns themselves (PCRE backtracking, `/i`, `/s`, `preg_quote` of the title) are not modelled. Each is represented by its first match.
- The twitter:description pattern accepts an empty capture. A captured `""` reads as missing, exactly like no match, so the map covers it.
- Escaping and stripping helpers (`esc_url`, `esc_attr`, `esc_html`, `strip_shortcodes`, `wp_strip_all_tags`), `site_url`, `parse_url` and the post queries are opaque inputs. Two lemmas assume something about them. `ImageIsAbsolute` assumes that `site_url` yields http(s) URLs. `EmptyTitleReachable` assumes that `esc_html("")` is `""`.
- A thumbnail lookup returning `false` is represented as an empty thumbnail string.
- `wp_oembed_get` and `wp_remote_get` are modelled as functions of the escaped URL. The model therefore gives the same answer each time a URL occurs, whereas two real fetches of one URL may differ.
- The request's timeout and user-agent are not modelled.
- A `content-type` header sent several times (which the platform returns as an array) is not modelled.
- The inline CSS of the card markup is not modelled. `CardMarkup` keeps the element structure, the link attributes and which parts are present.
- The commented-out `getimagesize` check is not modelled.
- A `char` stands for one byte. A `substr` that cuts a multi-byte UTF-8 character in two is not distinguished.
- SocialMeta.TwitterImageRule: stated for any fallback record with a non-empty image rather than for `PageFallback(post)` itself. `PageFallback` guarantees a non-empty image, so the two together give the source's rule.
