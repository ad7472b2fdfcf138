/** The fixed whitelist of image-size presets that both the settings sanitiser and
    the shortcode handler accept. */
module ImageSizes {
  import Php

  const THUMBNAIL: string := "thumbnail"
  const MEDIUM: string := "medium"
  const LARGE: string := "large"
  const FULL: string := "full"

  /** The `$allowed_sizes` array, in the order the plugin lists it. */
  const ALLOWED_SIZES: seq<string> := [THUMBNAIL, MEDIUM, LARGE, FULL]

  /** Reference meaning of "a valid size": one of the four preset names, exactly. */
  predicate IsAllowedSize(s: string) {
    s == THUMBNAIL || s == MEDIUM || s == LARGE || s == FULL
  }

  /** The plugin's whitelist test, `in_array($s, $allowed_sizes, true)`. */
  function InWhitelist(s: string): (ok: bool)
    ensures ok <==> IsAllowedSize(s)
  {
    Php.InArray(s, ALLOWED_SIZES)
  }

  /** No PHP-empty string is a valid size, so an `empty()` guard in front of the
      whitelist test never changes its outcome. */
  lemma EmptyIsNeverAllowed(s: string)
    requires Php.Empty(s)
    ensures !InWhitelist(s)
  {
  }

  /** The test is case- and whitespace-sensitive. */
  lemma WhitelistIsExact()
    ensures !InWhitelist("Large") && !InWhitelist(" large") && !InWhitelist("large ")
    ensures !InWhitelist("MEDIUM") && !InWhitelist("Full")
  {
  }
}
