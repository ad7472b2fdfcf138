/** The logic of the admin settings page: the sanitiser the host runs on every
    submission of the `tw_display_settings` option, and the value the image-size
    dropdown's options are compared against. The stored option is passed in explicitly. */
module SettingsPage {
  import Php
  import opened ImageSizes

  /** The one field the page manages inside the stored mapping. */
  const POSTER_DETAIL_SIZE_KEY: string := "play_poster_detail_size"

  /** The dropdown's fallback when nothing is stored. */
  const FIELD_DEFAULT: string := LARGE

  /** True when `input` carries a whitelisted value for the poster field. */
  predicate SubmitsAllowedSize(input: map<string, string>) {
    POSTER_DETAIL_SIZE_KEY in input && IsAllowedSize(input[POSTER_DETAIL_SIZE_KEY])
  }

  /** `tw_settings_sanitize`: start from the stored mapping and overwrite the poster
      field only when the submitted value is non-empty and whitelisted. */
  function Sanitize(existing: map<string, string>, input: map<string, string>): (output: map<string, string>)
    // merge, never replace: every other stored key keeps its value
    ensures forall k :: k in existing && k != POSTER_DETAIL_SIZE_KEY ==> k in output && output[k] == existing[k]
    // no key is dropped, and the poster field is the only key that can be added
    ensures existing.Keys <= output.Keys <= existing.Keys + {POSTER_DETAIL_SIZE_KEY}
    // a whitelisted submission is stored verbatim
    ensures SubmitsAllowedSize(input) ==> POSTER_DETAIL_SIZE_KEY in output && output[POSTER_DETAIL_SIZE_KEY] == input[POSTER_DETAIL_SIZE_KEY]
    // an absent, empty or non-whitelisted submission leaves the mapping as it was
    ensures !SubmitsAllowedSize(input) ==> output == existing
    // no invalid value is ever introduced: an invalid poster value was already stored
    ensures POSTER_DETAIL_SIZE_KEY in output && !IsAllowedSize(output[POSTER_DETAIL_SIZE_KEY]) ==>
              POSTER_DETAIL_SIZE_KEY in existing && output[POSTER_DETAIL_SIZE_KEY] == existing[POSTER_DETAIL_SIZE_KEY]
  {
    if POSTER_DETAIL_SIZE_KEY in input && !Php.Empty(input[POSTER_DETAIL_SIZE_KEY]) then
      var submitted := input[POSTER_DETAIL_SIZE_KEY];
      if InWhitelist(submitted) then existing[POSTER_DETAIL_SIZE_KEY := submitted] else existing
    else
      existing
  }

  /** The `$current_value` of `tw_settings_field_image_size_callback`, against which
      each dropdown option is compared: the stored poster size, or "large" when none
      is stored. A stored value that is not whitelisted matches no option. */
  function FieldCurrentValue(options: map<string, string>): (current: string)
    ensures POSTER_DETAIL_SIZE_KEY in options ==> current == options[POSTER_DETAIL_SIZE_KEY]
    ensures POSTER_DETAIL_SIZE_KEY !in options ==> current == LARGE
  {
    if POSTER_DETAIL_SIZE_KEY in options then options[POSTER_DETAIL_SIZE_KEY] else FIELD_DEFAULT
  }

  /** Sanitising keeps a valid-or-absent poster field valid-or-absent. */
  lemma SanitizeKeepsFieldValid(existing: map<string, string>, input: map<string, string>)
    requires POSTER_DETAIL_SIZE_KEY in existing ==> IsAllowedSize(existing[POSTER_DETAIL_SIZE_KEY])
    ensures var output := Sanitize(existing, input);
            POSTER_DETAIL_SIZE_KEY in output ==> IsAllowedSize(output[POSTER_DETAIL_SIZE_KEY])
  {
  }

  /** Resubmitting the same form over the saved result changes nothing. */
  lemma SanitizeIdempotent(existing: map<string, string>, input: map<string, string>)
    ensures Sanitize(Sanitize(existing, input), input) == Sanitize(existing, input)
  {
  }

  /** Submissions that differ from a preset only in case or surrounding blanks are rejected. */
  lemma SanitizeRejectsNearMisses(existing: map<string, string>)
    ensures Sanitize(existing, map[POSTER_DETAIL_SIZE_KEY := "Large"]) == existing
    ensures Sanitize(existing, map[POSTER_DETAIL_SIZE_KEY := " large"]) == existing
    ensures Sanitize(existing, map[POSTER_DETAIL_SIZE_KEY := ""]) == existing
    ensures Sanitize(existing, map[]) == existing
  {
  }
}
