/** The `[tw_get_image_size]` shortcode: resolve a template context to a validated
    image-size preset read from the stored `tw_display_settings` mapping. */
module PodsIntegration {
  import Php
  import opened ImageSizes

  /** Suffix appended to a context to form its settings key. */
  const SIZE_SUFFIX: string := "_size"

  /** Name of the shortcode attribute that carries the context. */
  const CONTEXT_ATTRIBUTE: string := "context"

  /** The fallback size at every failure point of the lookup. */
  const RESOLVE_DEFAULT: string := MEDIUM

  /** The settings key consulted for `context`. */
  function SettingKey(context: string): (key: string)
    ensures |key| == |context| + |SIZE_SUFFIX|
    ensures key[..|context|] == context && key[|context|..] == SIZE_SUFFIX
  {
    context + SIZE_SUFFIX
  }

  /** Distinct contexts consult distinct keys. */
  lemma SettingKeyInjective(a: string, b: string)
    requires SettingKey(a) == SettingKey(b)
    ensures a == b
  {
  }

  /** The effect of `shortcode_atts` on the one declared attribute: the supplied
      `context`, or "" when the shortcode does not give one. */
  function ContextOf(atts: map<string, string>): (context: string)
    ensures CONTEXT_ATTRIBUTE in atts ==> context == atts[CONTEXT_ATTRIBUTE]
    ensures CONTEXT_ATTRIBUTE !in atts ==> context == ""
  {
    if CONTEXT_ATTRIBUTE in atts then atts[CONTEXT_ATTRIBUTE] else ""
  }

  /** The lookup of `tw_settings_pods_shortcode_handler` for a given context. */
  function Resolve(settings: map<string, string>, context: string): (size: string)
    // the result is always a preset name
    ensures IsAllowedSize(size)
    // a PHP-empty context ("" or "0") yields the default
    ensures Php.Empty(context) ==> size == MEDIUM
    // a context with nothing stored under its key yields the default
    ensures !Php.Empty(context) && SettingKey(context) !in settings ==> size == MEDIUM
    // a whitelisted stored value is returned verbatim ...
    ensures !Php.Empty(context) && SettingKey(context) in settings && IsAllowedSize(settings[SettingKey(context)]) ==>
              size == settings[SettingKey(context)]
    // ... and a tampered one is replaced by the default
    ensures !Php.Empty(context) && SettingKey(context) in settings && !IsAllowedSize(settings[SettingKey(context)]) ==>
              size == MEDIUM
  {
    if Php.Empty(context) then
      RESOLVE_DEFAULT
    else
      var key := SettingKey(context);
      var saved := if key in settings then settings[key] else RESOLVE_DEFAULT;
      if InWhitelist(saved) then saved else RESOLVE_DEFAULT
  }

  /** The shortcode handler as the template engine calls it: attributes in, size out. */
  function ShortcodeHandler(settings: map<string, string>, atts: map<string, string>): (size: string)
    ensures IsAllowedSize(size)
    ensures CONTEXT_ATTRIBUTE !in atts ==> size == MEDIUM
    // a supplied context is resolved against the stored mapping
    ensures CONTEXT_ATTRIBUTE in atts ==> size == Resolve(settings, atts[CONTEXT_ATTRIBUTE])
  {
    Resolve(settings, ContextOf(atts))
  }

  /** An empty context never looks at the mapping. */
  lemma EmptyContextIgnoresSettings(s1: map<string, string>, s2: map<string, string>, context: string)
    requires Php.Empty(context)
    ensures Resolve(s1, context) == Resolve(s2, context)
  {
  }

  /** For a non-empty context the mapping is consulted at exactly one key. */
  lemma ResolveReadsOnlyDerivedKey(s1: map<string, string>, s2: map<string, string>, context: string)
    requires SettingKey(context) in s1 <==> SettingKey(context) in s2
    requires SettingKey(context) in s1 ==> s1[SettingKey(context)] == s2[SettingKey(context)]
    ensures Resolve(s1, context) == Resolve(s2, context)
  {
  }

  /** The default and the preset "medium" are indistinguishable to callers. */
  lemma StoredMediumLooksLikeDefault(settings: map<string, string>, context: string)
    ensures Resolve(settings[SettingKey(context) := MEDIUM], context) == Resolve(settings - {SettingKey(context)}, context)
  {
  }
}
