# Accessible Web A11Y Center plugin — a Dafny model of its decision logic

The plugin is a small WordPress extension. It stores one API key in an option, `aweb_api_key`. When that key exists and is neither empty nor `"0"`, it adds the Accessible Web badge script to every page footer. It also offers the shortcode `accessible_web_target_snippet`, which places the badge's target in page content. Its settings screen is built from a declarative schema: an ordered map of sections, each holding fields, shown as tabs.

This project models the three pieces of that plugin that make decisions:

- **Settings** (`Aweb_Badge_Plugin_Settings`). Modules `SettingsSchema`, `SettingsScreen` and `SettingsAdmin`. They cover:
  - the built-in schema and its filter;
  - how `register_settings` chooses the current section from the request and what it appends to the host's section, setting and field registries;
  - the markup of `settings_page`: the tab strip, the active tab and the hidden `tab` field;
  - the admin-menu dispatch, the plugins-list link, `settings_section`;
  - the singleton `instance`.
- **Badge injection** (`Aweb_Badge_Plugin`), module `BadgePlugin`. It covers the option gate, the exact snippet echoed for a truthy key, the constructor's fields and the singleton.
- **Target-snippet shortcode** (`Aweb_Badge_Plugin_Shortcodes`), module `Shortcodes`. It is a pure function of the option, the attributes and the content.

Module `Php` gives PHP's null (`Option`), string truthiness (`""` and `"0"` are falsy) and `get_option`. Module `Host` bundles the host's string utilities as function values: `esc_attr`, `esc_html`, `__`, `sanitize_text_field`, `add_query_arg` and `remove_query_arg`. Every property is proved for any such functions. The host's registries (`add_settings_section`, `register_setting`, `add_settings_field`, the admin menu) are classes holding sequences that the plugin's methods append to. The request is a value with the POST `tab`, the GET `tab` (each optional) and whether `settings-updated` is in the query.

Three behaviours of the code are easy to miss, and the model keeps them:

- **Unknown tab.** A `tab` that names no section does not fall back to the first section. `register_settings` registers nothing at all for it (includes/class-aweb-badge-plugin-settings.php:289-293), and `settings_page` marks no tab active (lines 374-378). See `SelectedUnknownTab`, `UnknownTabRegistersNothing` and `UnknownTabActivatesNone`.
- **One section.** Only the tab strip depends on the number of sections: with a single section there is no strip. Registration with a `tab` naming another id still registers nothing, even when the schema holds one section.
- **Where the tab comes from.** `register_settings` reads the POST `tab` first, then the GET `tab`, and sanitises it. `settings_page` reads only the GET `tab`. It compares the raw value to each section id to choose the active tab, and uses the sanitised value for the hidden field.

## Model

| member | source | states |
|---|---|---|
| `Shortcodes.TargetSnippetShortcode` | includes/lib/class-aweb-badge-plugin-shortcodes.php:31-48 | returns nothing exactly when the option is absent (null), and otherwise a non-empty string. With truthy content it is a text-only anchor whose wrapped text reads back as the content, verbatim. Otherwise it is the fixed hidden `div` placeholder |
| `Shortcodes.TextTargetRoundTrip` | includes/lib/class-aweb-badge-plugin-shortcodes.php:42-44 | wrapping any text in the text-only anchor and reading it back gives the same text |
| `Shortcodes.ShapesDiffer` | includes/lib/class-aweb-badge-plugin-shortcodes.php:42-47 | the hidden placeholder is never mistaken for a text-only anchor, so the two output shapes are distinct |
| `Shortcodes.AttributesIgnored` | includes/lib/class-aweb-badge-plugin-shortcodes.php:37-40 | the output is the same for any two attribute maps |
| `Shortcodes.AbsentKeyGivesNothing` | includes/lib/class-aweb-badge-plugin-shortcodes.php:32-35 | without the option, nothing is returned for any attributes and content |
| `Shortcodes.FalsyKeyStillRenders` | includes/lib/class-aweb-badge-plugin-shortcodes.php:32-47 | an option stored as `""` or `"0"` still produces output, because the gate is a null check only |
| `BadgePlugin.ScriptSuffix` | includes/class-aweb-badge-plugin.php:130 | the suffix is `''` exactly when SCRIPT_DEBUG is defined and true, and `'.min'` otherwise |
| `BadgePlugin.Plugin.constructor` | includes/class-aweb-badge-plugin.php:120-135 | the token is `aweb_badge_plugin`, version and file are the arguments (by default `'1.0.0'` and `''`), the suffix follows SCRIPT_DEBUG, and the admin helper exists exactly for administrative requests |
| `BadgePlugin.PluginSingleton.Instance` | includes/class-aweb-badge-plugin.php:205-211 | the first call creates the plugin from its arguments, which default to `''` and `'1.0.0'`. Every later call returns that same object and ignores its arguments |
| `BadgePlugin.RenderBadgeSnippet` | includes/class-aweb-badge-plugin.php:169-181 | echoes nothing exactly for a falsy key (`""`, `"0"`). For a truthy key it echoes the fixed `aweb-script` template, and the escaped key reads back from its URL slot |
| `BadgePlugin.MaybeInjectBadge` | includes/class-aweb-badge-plugin.php:151-158 | returns before calling the renderer exactly when `aweb_api_key` is absent. Otherwise it gives what the renderer echoes for the stored key |
| `BadgePlugin.BadgeRoundTrip` | includes/class-aweb-badge-plugin.php:174-179 | the snippet around any escaped key is recognised as a badge, and the key reads back verbatim |
| `BadgePlugin.BadgeCarriesUrl` | includes/class-aweb-badge-plugin.php:178 | for a truthy key the snippet contains `https://ramp.accessibleweb.com/badge/` + esc_attr(key) + `/script.js` |
| `BadgePlugin.InjectionGate` | includes/class-aweb-badge-plugin.php:151-181 | the footer gets text exactly when the option is present and truthy. That text carries the escaped stored key |
| `SettingsSchema.ReviewParagraph` | includes/class-aweb-badge-plugin-settings.php:177-182 | the review-link paragraph is empty exactly when the key option is null |
| `SettingsSchema.BuiltInSchema` | includes/class-aweb-badge-plugin-settings.php:248-261 | one section `standard` with one `text` field `api_key`, default `''` and no validator, whose option name is `aweb_api_key` |
| `SettingsSchema.DefaultSchema` | includes/class-aweb-badge-plugin-settings.php:171-266 | with an identity filter, the schema is the single built-in section. Its description lacks the review paragraph exactly when the key option is absent |
| `SettingsSchema.CurrentSection` | includes/class-aweb-badge-plugin-settings.php:279-286 | with neither tab set and truthy, the current section is `''` |
| `SettingsSchema.PostTabWins` | includes/class-aweb-badge-plugin-settings.php:280-282 | a set, truthy POST tab decides the current section, whatever the GET tab |
| `SettingsSchema.GetTabFallback` | includes/class-aweb-badge-plugin-settings.php:283-285 | when the POST tab is unset or falsy, a truthy GET tab decides |
| `SettingsSchema.Matching` | includes/class-aweb-badge-plugin-settings.php:289-293 | the sections kept for a current section all carry that id and come from the schema |
| `SettingsSchema.MatchingKnown` | includes/class-aweb-badge-plugin-settings.php:289-293 | with distinct ids, exactly the one section with a given id is kept |
| `SettingsSchema.MatchingUnknown` | includes/class-aweb-badge-plugin-settings.php:289-293 | an id no section has keeps no section |
| `SettingsSchema.SelectedWithoutTab` | includes/class-aweb-badge-plugin-settings.php:289-326 | with no current section, only the first section is reached, because the loop breaks after it |
| `SettingsSchema.SelectedKnownTab` | includes/class-aweb-badge-plugin-settings.php:289-293 | a current section naming a known section selects exactly that section |
| `SettingsSchema.SelectedUnknownTab` | includes/class-aweb-badge-plugin-settings.php:289-293 | a current section naming no section selects nothing. There is no fallback to the first section |
| `SettingsSchema.FieldSettingsAt` | includes/class-aweb-badge-plugin-settings.php:298-308 | a section's fields give one setting each, in order, named `aweb_<id>`, with the field's callback or `''` as validator |
| `SettingsSchema.SettingEntriesAt` | includes/class-aweb-badge-plugin-settings.php:298-308 | across sections, one setting per field, in schema order, in group `<token>_settings`, named `aweb_<id>`, validated by the callback or `''` |
| `SettingsSchema.SectionFieldEntriesAt` | includes/class-aweb-badge-plugin-settings.php:311-321 | a section's fields give one control each, in order, placed in that section |
| `SettingsSchema.FieldEntriesInSections` | includes/class-aweb-badge-plugin-settings.php:311-321 | every field control sits in the section being registered, on the settings page, with prefix `aweb_`, and carries its field, in schema order |
| `SettingsSchema.EntriesAppend` | includes/class-aweb-badge-plugin-settings.php:289-327 | registering one more section appends its entries after those already made |
| `SettingsSchema.KnownTabRegistersOnlyIt` | includes/class-aweb-badge-plugin-settings.php:289-322 | a known tab registers that one section, and a setting and a control for each of its fields, in order. No other section's fields are registered |
| `SettingsSchema.NoTabRegistersFirst` | includes/class-aweb-badge-plugin-settings.php:289-326 | with no tab, the first section and only its fields are registered |
| `SettingsSchema.UnknownTabRegistersNothing` | includes/class-aweb-badge-plugin-settings.php:289-293 | an unknown tab registers no section, no setting and no field |
| `SettingsAdmin.Settings.RegisterSettings` | includes/class-aweb-badge-plugin-settings.php:274-329 | appends to the host's section, setting and field registries exactly the entries of the sections the request selects, and nothing else |
| `SettingsAdmin.Settings.RegisterSection` | includes/class-aweb-badge-plugin-settings.php:296-322 | for one section, appends the section, then each field's setting and control, in field order |
| `SettingsScreen.TabStripShown` | includes/class-aweb-badge-plugin-settings.php:361-393 | the tab strip is emitted exactly when the schema has more than one section |
| `SettingsScreen.TabsInOrder` | includes/class-aweb-badge-plugin-settings.php:366-390 | the links of the first m sections are a prefix of the links of the first n, for m ≤ n |
| `SettingsScreen.TabAtPosition` | includes/class-aweb-badge-plugin-settings.php:366-390 | section k's link sits in the strip right after the links of the sections before it |
| `SettingsScreen.NoTabActivatesFirst` | includes/class-aweb-badge-plugin-settings.php:370-373 | with no GET tab, exactly the first tab is active |
| `SettingsScreen.KnownTabActivatesIt` | includes/class-aweb-badge-plugin-settings.php:374-378 | with distinct ids, a GET tab naming a section makes exactly that tab active |
| `SettingsScreen.UnknownTabActivatesNone` | includes/class-aweb-badge-plugin-settings.php:374-378 | a GET tab naming no section, the empty one included, makes no tab active |
| `SettingsAdmin.Settings.TabLinks` | includes/class-aweb-badge-plugin-settings.php:365-390 | the loop emits every section's link in order, each with its link, class and escaped title |
| `SettingsAdmin.Settings.SettingsPage` | includes/class-aweb-badge-plugin-settings.php:347-411 | the echoed page is the heading, then the tab strip, then the form with the host's fields, the hidden `tab` field (the sanitised GET tab, or `''`) and the submit button |
| `SettingsAdmin.Settings.SettingsSection` | includes/class-aweb-badge-plugin-settings.php:337-340 | with distinct ids, the paragraph holds the named section's description. For an unknown id it is empty |
| `SettingsAdmin.DescriptionOfKnown` | includes/class-aweb-badge-plugin-settings.php:338 | with distinct ids, the lookup by id returns that section's description |
| `SettingsAdmin.DescriptionOfUnknown` | includes/class-aweb-badge-plugin-settings.php:338 | looking up an unknown id gives `''`, as PHP's null does when concatenated |
| `SettingsAdmin.Settings.AddSettingsLink` | includes/class-aweb-badge-plugin-settings.php:160-164 | appends exactly one link, to `options-general.php?page=<token>_settings`. The existing links are unchanged and keep their order |
| `SettingsAdmin.DefaultMenuArgs` | includes/class-aweb-badge-plugin-settings.php:124-141 | the default menu arguments: location `options` under `options-general.php`, capability `manage_options`, slug `<token>_settings`, no icon, no position |
| `SettingsAdmin.ConfigureSettings` | includes/class-aweb-badge-plugin-settings.php:150-152 | the plugin's own menu filter returns its argument unchanged |
| `SettingsAdmin.MenuPageFor` | includes/class-aweb-badge-plugin-settings.php:104-115 | a page is added only for an array with a set location whose `add_<location>_page` exists. `options` and `submenu` give a submenu page, and `menu` gives a top-level page. Each page carries the arguments' fields |
| `SettingsAdmin.MenuLocations` | includes/class-aweb-badge-plugin-settings.php:104-115 | when the host function exists, a page is added exactly for `options`, `submenu` and `menu`, and it is top-level exactly for `menu` |
| `SettingsAdmin.DefaultMenuIsSettingsSubmenu` | includes/class-aweb-badge-plugin-settings.php:124-141 | without an extension on the filter, the settings page is a submenu of `options-general.php` with slug `<token>_settings` |
| `SettingsAdmin.Settings.AddMenuItem` | includes/class-aweb-badge-plugin-settings.php:99-117 | appends to the admin menu the page the filtered arguments call for, or nothing |
| `SettingsAdmin.Settings.InitSettings` | includes/class-aweb-badge-plugin-settings.php:90-92 | the schema becomes the filtered built-in schema |
| `SettingsAdmin.Settings.constructor` | includes/class-aweb-badge-plugin-settings.php:58-61 | the settings object keeps its parent, uses the prefix `aweb_` and starts with an empty schema |
| `SettingsAdmin.SettingsSingleton.Instance` | includes/class-aweb-badge-plugin-settings.php:424-429 | the first call creates the settings object for its parent. Later calls return it and ignore their argument |

## Left out

- Hook wiring is not modelled: `add_action`, `add_filter`, `add_shortcode` and the `init_shortcodes` hook that creates the shortcode object. Filters are parameters: the `<token>_settings_fields` filter is a function on schemas, and the `menu_settings` filter is a function on menu arguments.
- Escaping, translation and sanitising are host functions passed in, not re-implemented. So is building tab URLs with `add_query_arg` and `remove_query_arg`. Properties that depend on what escaping does are not stated, such as "no unsafe character survives".
- The static markup and accordion script in the settings description are the `DescriptionMarkup` parameter. Only the conditional review paragraph, with the whitespace around it, is modelled.
- The call to `shortcode_atts` in the shortcode handler is a host library function whose result the handler discards. It is not modelled; `AttributesIgnored` states its only effect on the output, which is none.
- What the host prints for `settings_fields` and `do_settings_sections`, and the field renderer `display_field`, are outside this model. The page takes their output as the `formFields` parameter. The callbacks passed to `add_settings_section`, `add_settings_field` and the menu functions are not recorded in the registries. The field-rendering round trip (a saved value shows in its input) therefore belongs to code that is not part of this model.
- The plugin's directory and asset paths and URLs (`dirname`, `trailingslashit`, `plugins_url`) are host path utilities and are not modelled.
- The plugin's `settings` field is assigned by the entry-point file accessible-web-badge.php, which only wires objects together. That file and that field are not part of this model.
- PHP turns integer-like array keys into integers. A section keyed `"1"` would then never match a tab under `!==`. `settings_page` also compares tabs with loose `==`, which equates numeric strings such as `"1"` and `"01"`. The model treats section ids as strings compared exactly.
- `register_settings` checks `is_array( $this->settings )`. The model's schema is always a sequence of sections with all their keys. A filter that returns something else, or sections without `title` or `fields`, is not modelled.
- `get_option` can return non-string values. The option store holds strings only.
- RenderBadgeSnippet: "exactly one `<script>` tag" is stated as "the output is the one fixed template with a single key slot, and the key reads back from that slot". The number of `<script` substrings in the text is not counted.
- SettingsAdmin.Settings.SettingsSection: receives the host's section array. It is modelled by the section's id alone.
