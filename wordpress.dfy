/**
 * The host-platform helpers the plugin calls. Their behaviour belongs to the
 * platform, so the model takes each as an arbitrary total function supplied by
 * the caller: nothing is assumed about them unless a lemma says so.
 */
module WordPress {

  datatype Wp = Wp(
    escUrl: string -> string,          // esc_url
    escAttr: string -> string,         // esc_attr
    escHtml: string -> string,         // esc_html
    stripShortcodes: string -> string, // strip_shortcodes
    stripAllTags: string -> string,    // wp_strip_all_tags
    siteUrl: string -> string,         // site_url($path)
    urlHost: string -> string          // parse_url($url, PHP_URL_HOST); a null host is ""
  )

  /** The one property of `site_url` the model ever uses: its result is an absolute http(s) URL. */
  ghost predicate SiteUrlIsAbsolute(wp: Wp) {
    forall path :: "http" <= wp.siteUrl(path)
  }
}
