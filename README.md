# Typography block support

A Dafny model of Gutenberg's server-side typography block support
(`lib/block-supports/typography.php`). Three operations are modelled.

- **Registration.** `gutenberg_register_typography_support` reads the eight
  typography support flags of a block type. It then adds the `style`
  (`{type: object}`) and `fontSize` (`{type: string}`) attribute schemas,
  each only when it is absent.
- **Application.** `gutenberg_apply_typography_support` turns the support
  flags, the per-feature skip-serialization flags and the block's attributes
  into the `$classes` and `$styles` maps given to the style engine. It then
  sets the `class` and `style` output entries when the engine returns a
  non-empty string.
- **Preset resolution.** `gutenberg_typography_get_preset_inline_style_value`
  is the backward-compatibility rewriter. It turns a legacy
  `var:preset|<property>|<slug>` value into
  `var(--wp--preset--<property>--<kebab(slug)>);`.

The project has three files:

- `php_values.dfy` (module `PhpValues`) holds the PHP value model:
  - scalars and string-keyed arrays;
  - `empty()` as `Truthy`;
  - `_wp_array_get` as `ArrayGet`;
  - `isset` on a key path as `IsSet`.
- `php_strings.dfy` (module `PhpStrings`) holds `strpos` and single-character
  `strrpos`.
- `typography.dfy` (module `Typography`) holds the typography support itself.

Helpers outside this file are parameters of the operations:

- `kebab` stands for `_wp_to_kebab_case`.
- `shouldSkip` stands for `gutenberg_should_skip_block_supports_serialization`
  for the block type at hand. `None` asks about the whole typography set and
  `Some(name)` about one feature.
- `generate` and `getClassnames` stand for the style engine's two calls.

Registration works in place on a `BlockType` object, as the PHP code does. Its
method is proved against `RegisteredAttributes`, a declarative description of
the schema afterwards.

Application is a method that builds the two maps feature by feature, in source
order. It is proved against `TypographyClasses` and `TypographyStyles`, which
give each feature's entry on its own. The PHP function is one long body; the
model splits it into one step method per kind of feature block:

- `AddNamedOrCustom` for font size and font family;
- `AddResolvedStyle` for the five resolved features;
- `AddLineHeight` for the line height.

`CollectTypography` calls these steps in the source's order. Each step reads
its own support and skip flags. The PHP code reads all sixteen flags up front;
because the helpers are pure, the result is the same.

The model follows the code where a plain reading of the feature would differ:

- A custom font family is stored whenever it is set
  (lib/block-supports/typography.php:122-127). It is not tested for
  truthiness after resolution, unlike font style, font weight, text
  decoration, text transform and letter spacing.
- The preset slug is the text after the last `|` of the whole value
  (`strrpos`). The matched placeholder can occur anywhere in the value (`strpos`),
  and whatever precedes the placeholder is dropped.
- A named preset counts as present whenever its key exists
  (`array_key_exists`), even when its value is null. A custom value counts
  only when it is set (`isset`, so not null).

## Model

| member | source | states |
|---|---|---|
| PhpValues.FalsyValues | lib/block-supports/typography.php:19 | `Truthy` is PHP's `!empty()`: a value is falsy exactly when it is null, `false`, `0`, `""`, `"0"` or the empty array |
| PhpValues.ArrayGetStep | lib/block-supports/typography.php:18 | `ArrayGet` is `_wp_array_get`: the default unless the value is an array holding the first key; then that entry when no keys remain, else the lookup of the remaining keys inside it |
| PhpValues.IsSetThreeKeys | lib/block-supports/typography.php:107 | `IsSet` is `isset` on a three-key path: each step finds an array holding the next key and the final value is not null |
| PhpValues.ArrayGetOneKey | lib/block-supports/typography.php:18 | a one-key `_wp_array_get` on an array is the entry when its key exists, else the default |
| PhpValues.ArrayGetThreeKeys | lib/block-supports/typography.php:132 | a three-key `_wp_array_get` with default null is three successive one-step lookups, null as soon as a step is missing |
| PhpValues.Get | lib/block-supports/typography.php:107 | one lookup step with default null is the one-key `_wp_array_get`: the entry when the value is an array holding the key, null otherwise |
| PhpStrings.IndexOfFrom | lib/block-supports/typography.php:215 | the result is the first occurrence of the needle at or after the start index, or none when there is no occurrence there |
| PhpStrings.StrPos | lib/block-supports/typography.php:215 | `strpos` finds something exactly when the needle occurs in the string, and returns its first occurrence |
| PhpStrings.StrRPos | lib/block-supports/typography.php:223 | `strrpos` of a character is none exactly when the character is absent; otherwise it is an index holding the character with none after it |
| PhpStrings.OccurrenceEndingInChar | lib/block-supports/typography.php:215-223 | a string containing the placeholder, which ends in a bar, contains a bar, so `strrpos` cannot fail after a match |
| Typography.NamesIdentifyFeatures | lib/block-supports/typography.php:96-103 | two features have the same name exactly when they are the same feature, so maps keyed by feature match PHP's maps keyed by name |
| Typography.RegisterTypographySupport | lib/block-supports/typography.php:13-56 | the new schema is the old one when `supports` is missing or typography is falsy; otherwise it is the offered `style`/`fontSize` entries with every existing entry kept over them |
| Typography.AddMissingEntries | lib/block-supports/typography.php:45-55 | inserting `style` and then `fontSize`, each only if absent, is the union of the offered entries under the existing map |
| Typography.SomeFlagIffAnySupport | lib/block-supports/typography.php:23-39 | the eight-way disjunction of support flags holds exactly when some feature is supported |
| Typography.RegisterWithoutTypographyIsNoOp | lib/block-supports/typography.php:14-21 | without a `supports` property, or with falsy typography supports, the attribute schema is unchanged (null stays null) |
| Typography.RegisterStyleEntry | lib/block-supports/typography.php:41-49 | with typography support the schema exists afterwards; `style` is in it exactly when it was before or some flag is set; an existing entry is kept and a new one is `{type: object}` |
| Typography.RegisterFontSizeEntry | lib/block-supports/typography.php:41-55 | `fontSize` is in the schema exactly when it was before or font-size support is set; an existing entry is kept and a new one is `{type: string}` |
| Typography.RegisterKeepsExistingEntries | lib/block-supports/typography.php:41-55 | every existing schema entry survives unchanged, and the only keys that can appear are `style` and `fontSize` |
| Typography.RegisterIdempotent | lib/block-supports/typography.php:45-55 | registering twice gives the same schema as registering once |
| Typography.PresetInlineStyleValue | lib/block-supports/typography.php:213-231 | a value that is empty, not a string or without the placeholder is returned unchanged; a reference becomes the CSS variable with the kebab-cased text after some last bar as its slug |
| Typography.SplicePreset | lib/block-supports/typography.php:223-230 | the rewrite of a matching string is the CSS variable whose slug is the kebab-cased text after the last bar |
| Typography.LastBarUnique | lib/block-supports/typography.php:223 | the position of the last bar is unique |
| Typography.PresetKeepsTruthiness | lib/block-supports/typography.php:215-230 | the resolver's output is truthy exactly when its input is |
| Typography.PresetRewrite | lib/block-supports/typography.php:223-230 | a string containing the placeholder, whose last bar is at `k`, becomes `var(--wp--preset--<property>--<kebab(text after k)>);` |
| Typography.PresetMatchIsSubstring | lib/block-supports/typography.php:215 | the placeholder is matched anywhere: a prefix before it is dropped, and a slug without bar is used whole |
| Typography.PresetOfOtherPropertyUnchanged | lib/block-supports/typography.php:215-216 | a placeholder for another property (`font-weight` when resolving `font-style`) is returned unchanged |
| Typography.CustomValueIsArrayGet | lib/block-supports/typography.php:107-108 | the custom value of a feature is `_wp_array_get` along `style.typography.<name>` with default null, and it is set exactly when `isset` holds for that path |
| Typography.AddNamedOrCustom | lib/block-supports/typography.php:105-129 | for font size or font family, the class and style maps gain exactly that feature's class entry and style entry |
| Typography.AddLineHeight | lib/block-supports/typography.php:147-152 | the style map gains exactly the line height's style entry |
| Typography.AddResolvedStyle | lib/block-supports/typography.php:131-176 | for a resolved feature, the style map gains exactly that feature's style entry |
| Typography.NamedEntriesInSourceOrder | lib/block-supports/typography.php:105-129 | when only font size and font family have entries, recording them in that order gives the map of all entries |
| Typography.PutEntry | lib/block-supports/typography.php:82-176 | recording one more feature's entry extends the entry map by exactly that feature |
| Typography.AllEntriesInSourceOrder | lib/block-supports/typography.php:105-176 | recording the eight features in source order gives the map of all their entries |
| Typography.CollectTypography | lib/block-supports/typography.php:82-176 | the class and style maps built block by block are exactly `TypographyClasses` and `TypographyStyles` |
| Typography.ApplyTypographySupport | lib/block-supports/typography.php:68-202 | the result is empty without `supports`, with falsy typography or when the whole set is skipped; otherwise `class`/`style` are present exactly when the engine's string for the class/style map is non-empty, and then equal it; no other key appears |
| Typography.FeatureGating | lib/block-supports/typography.php:105-176 | an unsupported or individually skipped feature has neither a class nor a style entry |
| Typography.ClassesAreNamedFeatures | lib/block-supports/typography.php:109-122 | every feature in the class map is font size or font family |
| Typography.NamedBeatsCustom | lib/block-supports/typography.php:105-129 | for an enabled font size or font family whose named attribute exists (even as null), the class is the kebab-cased named value and there is no inline style |
| Typography.CustomWhenNamedAbsent | lib/block-supports/typography.php:105-129 | without the named attribute there is no class; the inline style exists exactly when the custom value is set; font size is copied verbatim, and font family is resolved with no truthiness test |
| Typography.ResolvedFeatureEntries | lib/block-supports/typography.php:131-176 | for enabled font style, font weight, text decoration, text transform and letter spacing, the style exists exactly when the custom value is truthy, and it is the resolver's output |
| Typography.LineHeightVerbatim | lib/block-supports/typography.php:147-152 | an enabled line height is styled exactly when set, and copied verbatim without preset resolution |

## Left out

- The style engine (lib/block-supports/typography.php:178-191) is not modelled. `generate` and `getClassnames` are parameters applied to the typography map; the `inline`/`use_schema` options and the engine's own output are not modelled.
- `_wp_to_kebab_case` and `gutenberg_should_skip_block_supports_serialization` are not part of this model; they are parameters (`kebab`, `shouldSkip`).
- `_wp_array_get` is modelled on its platform behaviour: walk nested arrays by key existence, and give the default for an empty path or a missing step.
- PHP values are limited to null, booleans, integers, strings and string-keyed arrays. Floats and integer or list array keys are not modelled.
- PresetInlineStyleValue: an array value is returned unchanged, which PHP does only for the empty array. For a non-empty array, PHP 8's `strpos` throws a `TypeError`. PHP 7's `strpos` warns and returns null, so the `=== false` test at lib/block-supports/typography.php:215 does not return early, and the value becomes `var(--wp--preset--<property>--<kebab(null)>);`. Neither runtime's behaviour is modelled. Integer and boolean values, whose string forms cannot contain the placeholder, are returned unchanged as in PHP.
- Typography.CollectTypography: the class and style maps are keyed by the feature rather than by its PHP key string. `NamesIdentifyFeatures` shows the two keyings correspond one to one. The order of insertion into the PHP arrays is not represented.
- The block-support registration with `WP_Block_Supports::get_instance()` (lib/block-supports/typography.php:234-240) is global registry glue and is not modelled.
- `bin/plugin/lib/milestone.js` is a network pagination helper and is not part of this model.
- `packages/block-library/src/gallery/test/index.native.js` is a UI integration test and is not part of this model.
