/** What the sanitiser and the shortcode promise together: the mapping that
    `Sanitize` produces is what `Resolve` reads. */
module Composition {
  import Php
  import opened ImageSizes
  import opened SettingsPage
  import opened PodsIntegration

  /** The context whose key is the field the settings page manages. */
  const POSTER_DETAIL_CONTEXT: string := "play_poster_detail"

  lemma PosterContextKey()
    ensures SettingKey(POSTER_DETAIL_CONTEXT) == POSTER_DETAIL_SIZE_KEY
    ensures !Php.Empty(POSTER_DETAIL_CONTEXT)
  {
  }

  /** Saving a whitelisted size makes the poster shortcode return it. */
  lemma SavedSizeIsResolved(existing: map<string, string>, v: string)
    requires IsAllowedSize(v)
    ensures Resolve(Sanitize(existing, map[POSTER_DETAIL_SIZE_KEY := v]), POSTER_DETAIL_CONTEXT) == v
  {
    PosterContextKey();
  }

  /** The same, through the shortcode: `[tw_get_image_size context="play_poster_detail"]`
      returns the size just saved. */
  lemma ShortcodeReturnsSavedSize(existing: map<string, string>, v: string)
    requires IsAllowedSize(v)
    ensures ShortcodeHandler(Sanitize(existing, map[POSTER_DETAIL_SIZE_KEY := v]),
                             map[CONTEXT_ATTRIBUTE := POSTER_DETAIL_CONTEXT]) == v
  {
    SavedSizeIsResolved(existing, v);
  }

  /** A rejected submission leaves the poster shortcode's answer unchanged. */
  lemma RejectedSubmissionKeepsResolution(existing: map<string, string>, input: map<string, string>, context: string)
    requires !SubmitsAllowedSize(input)
    ensures Resolve(Sanitize(existing, input), context) == Resolve(existing, context)
  {
  }

  /** A submission only ever changes what the poster context resolves to. */
  lemma SanitizeAffectsOnlyPosterContext(existing: map<string, string>, input: map<string, string>, context: string)
    requires context != POSTER_DETAIL_CONTEXT
    ensures Resolve(Sanitize(existing, input), context) == Resolve(existing, context)
  {
  }

  /** With nothing stored, the dropdown shows "large" while the shortcode answers "medium". */
  lemma DefaultsDiffer(options: map<string, string>)
    requires POSTER_DETAIL_SIZE_KEY !in options
    ensures FieldCurrentValue(options) == LARGE
    ensures Resolve(options, POSTER_DETAIL_CONTEXT) == MEDIUM
  {
    PosterContextKey();
  }

  /** With a valid value stored, the dropdown and the shortcode agree. */
  lemma StoredValidValueAgrees(options: map<string, string>)
    requires POSTER_DETAIL_SIZE_KEY in options && IsAllowedSize(options[POSTER_DETAIL_SIZE_KEY])
    ensures Resolve(options, POSTER_DETAIL_CONTEXT) == FieldCurrentValue(options)
  {
    PosterContextKey();
  }

  /** Saving the form as displayed makes the shortcode agree with the dropdown,
      which closes the gap `DefaultsDiffer` describes. */
  lemma SavingDisplayedValueAligns(existing: map<string, string>)
    requires POSTER_DETAIL_SIZE_KEY in existing ==> IsAllowedSize(existing[POSTER_DETAIL_SIZE_KEY])
    ensures var saved := Sanitize(existing, map[POSTER_DETAIL_SIZE_KEY := FieldCurrentValue(existing)]);
            Resolve(saved, POSTER_DETAIL_CONTEXT) == FieldCurrentValue(saved) == FieldCurrentValue(existing)
  {
    SavedSizeIsResolved(existing, FieldCurrentValue(existing));
  }
}
