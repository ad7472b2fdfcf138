# twSettings — a Dafny model of the display-settings plugin

The plugin keeps one option, `tw_display_settings`, a flat mapping from string keys to
string values. Two pieces of logic work on it:

- the settings page's sanitiser (`tw_settings_sanitize`), which merges an admin's form
  submission into the stored mapping, writing `play_poster_detail_size` only when the
  submitted value is non-empty and one of `thumbnail`, `medium`, `large`, `full`, and
  the value the dropdown's options are compared against (`$current_value`: the stored
  size, or `large` when nothing is stored);
- the `[tw_get_image_size]` shortcode handler, which turns a template `context` into the
  key `context + "_size"`, reads it from the stored mapping and returns it only if it is
  whitelisted, falling back to `medium` at every failure point.

Everything is pure, so the model is functions and lemmas over `map<string, string>`.
The stored option is an explicit parameter instead of a `get_option` read.

Files and modules:

- `php.dfy` (`Php`): PHP's `empty()` on strings (`""` and `"0"`) and strict `in_array`
  as a linear scan proved equal to sequence membership.
- `image_sizes.dfy` (`ImageSizes`): the whitelist. The plugin writes the same array in
  both files; the model defines it once.
- `settings_page.dfy` (`SettingsPage`): `Sanitize` and `FieldCurrentValue`.
- `pods_integration.dfy` (`PodsIntegration`): key derivation, the attribute default,
  `Resolve` and `ShortcodeHandler`.
- `composition.dfy` (`Composition`): what the two sides guarantee together.

Two points where the code is more specific than its comments:

- The handler's comment (includes/pods-integration.php:57) speaks of no context being
  provided, but its guard is PHP `empty($context)`, which is also true for the context
  `"0"`. The model follows the code: `"0"` resolves to `medium` without a lookup.
- The sanitiser's docblock (admin/settings-page.php:132) promises that saved data is
  "clean and secure". The code only guarantees a whitelisted value for what it writes. A tampered value already stored under
  `play_poster_detail_size` is carried over by a rejected submission. `Sanitize` states
  exactly that: an invalid value in its output was already in the stored mapping.
  `SanitizeKeepsFieldValid` gives the invariant for a field that starts valid or absent.

## Model

| member | source | states |
|---|---|---|
| `Php.Empty` | admin/settings-page.php:142 | PHP `empty()` on a string holds exactly for strings of at most one character that are all `0`, i.e. `""` and `"0"`; the same guard is applied to the context at includes/pods-integration.php:58 |
| `Php.InArray` | includes/pods-integration.php:79 | strict `in_array` finds the needle exactly when it is an element of the array |
| `ImageSizes.InWhitelist` | admin/settings-page.php:139-144 | the whitelist test accepts exactly the four preset names |
| `ImageSizes.EmptyIsNeverAllowed` | admin/settings-page.php:142-144 | no PHP-empty string passes the whitelist test, so the `empty()` guard never changes the outcome |
| `ImageSizes.WhitelistIsExact` | admin/settings-page.php:144 | the test is case- and whitespace-sensitive: `Large`, ` large`, `large `, `MEDIUM`, `Full` are rejected |
| `SettingsPage.Sanitize` | admin/settings-page.php:134-153 | other keys keep their values; no key is dropped and only the poster key can be added; a whitelisted submission is stored verbatim; an absent, empty or non-whitelisted one leaves the mapping unchanged; an invalid poster value in the output was already stored |
| `SettingsPage.FieldCurrentValue` | admin/settings-page.php:116 | the value the dropdown's options are compared against (`$current_value`) is the stored poster size, or `large` when none is stored |
| `SettingsPage.SanitizeKeepsFieldValid` | admin/settings-page.php:142-147 | a poster field that is valid or absent stays valid or absent after any submission |
| `SettingsPage.SanitizeIdempotent` | admin/settings-page.php:134-153 | submitting the same form again over the saved mapping changes nothing |
| `SettingsPage.SanitizeRejectsNearMisses` | admin/settings-page.php:142-148 | `Large`, ` large`, an empty value and a missing field all leave the mapping unchanged |
| `PodsIntegration.SettingKey` | includes/pods-integration.php:69 | the key consulted is the context followed by exactly `_size` |
| `PodsIntegration.SettingKeyInjective` | includes/pods-integration.php:69 | distinct contexts consult distinct keys |
| `PodsIntegration.ContextOf` | includes/pods-integration.php:48-55 | the context is the supplied `context` attribute, or `""` when it is missing |
| `PodsIntegration.Resolve` | includes/pods-integration.php:55-84 | the result is always whitelisted; a PHP-empty context gives `medium`; a missing key gives `medium`; a whitelisted stored value is returned verbatim; a tampered one gives `medium` |
| `PodsIntegration.ShortcodeHandler` | includes/pods-integration.php:44-84 | the shortcode always returns a whitelisted size; `medium` when no context is given; otherwise what the supplied context resolves to |
| `PodsIntegration.EmptyContextIgnoresSettings` | includes/pods-integration.php:58-64 | for a PHP-empty context the result does not depend on the stored mapping |
| `PodsIntegration.ResolveReadsOnlyDerivedKey` | includes/pods-integration.php:64-70 | two mappings that agree on the derived key give the same result |
| `PodsIntegration.StoredMediumLooksLikeDefault` | includes/pods-integration.php:70-83 | for every context, storing `medium` under the derived key and storing nothing are indistinguishable to callers |
| `Composition.PosterContextKey` | includes/pods-integration.php:69 | the context `play_poster_detail` is non-empty and derives the key the settings page writes |
| `Composition.SavedSizeIsResolved` | includes/pods-integration.php:69-80 | after sanitising a submission of a whitelisted `v`, resolving the poster context returns `v` |
| `Composition.ShortcodeReturnsSavedSize` | includes/pods-integration.php:44-80 | after sanitising a submission of a whitelisted `v`, the shortcode called with `context="play_poster_detail"` returns `v` |
| `Composition.RejectedSubmissionKeepsResolution` | admin/settings-page.php:142-148 | a rejected submission does not change what any context resolves to |
| `Composition.SanitizeAffectsOnlyPosterContext` | admin/settings-page.php:137-146 | no submission changes what a context other than `play_poster_detail` resolves to |
| `Composition.DefaultsDiffer` | admin/settings-page.php:116 | with nothing stored the dropdown shows `large` while the shortcode returns `medium` |
| `Composition.StoredValidValueAgrees` | admin/settings-page.php:116 | with a whitelisted value stored, the dropdown and the shortcode agree |
| `Composition.SavingDisplayedValueAligns` | admin/settings-page.php:116-122 | saving the form as displayed makes the shortcode return what the dropdown showed |

## Left out

- Hook wiring and registration (`add_action`, `register_setting`, `add_settings_section`, `add_settings_field`, `add_menu_page`, `pods_shortcode`, `function_exists`): host-framework calls whose behaviour is not visible in the plugin.
- HTML output (`tw_settings_render_page`, `tw_settings_template_section_callback`, the `<select>` markup and `selected()`): templating only; the field callback is modelled by `$current_value`, the value its options are compared against.
- Capability checks and `settings_fields` nonce handling: host security plumbing.
- Persistence (`get_option` and the host's save through options.php): the stored mapping is a parameter and the sanitiser's result is returned, not written.
- Option blobs that are not string-to-string arrays, and non-string shortcode attributes: PHP dynamic typing falls outside a `map<string, string>` model.
- `shortcode_atts` beyond giving a missing `context` the value `""`.
- `SavingDisplayedValueAligns`: assumes the stored poster value is valid or absent, because with a tampered value no `<option>` is selected and what the browser submits is outside the model.
- twSettings.php: only defines a path constant and loads the two files; it has no logic.
