/**
 The server-side typography block support: registering the `style` and
 `fontSize` attributes on block types that opt into typography features,
 turning a block's typography attributes into the class-name and inline-style
 declarations handed to the style engine, and rewriting legacy
 `var:preset|<property>|<slug>` values into CSS custom-property references.

 Helpers whose code is not part of this model are parameters:
 - `kebab` is `_wp_to_kebab_case` (applied to whatever value PHP passes it);
 - `shouldSkip` is `gutenberg_should_skip_block_supports_serialization` for
   the block type at hand and the `typography` feature set: `shouldSkip(None)`
   asks about the whole set, `shouldSkip(Some(name))` about one feature;
 - `generate` and `getClassnames` are the style engine's two calls, applied
   to the map passed under the `typography` key.
 */
module Typography {
  import opened PhpValues
  import opened PhpStrings

  /** The eight typography features a block type can opt into. */
  datatype Feature =
    | FontSize
    | FontFamily
    | FontStyle
    | FontWeight
    | LineHeight
    | TextDecoration
    | TextTransform
    | LetterSpacing
  {
    /** The feature can be set by a named preset attribute, which becomes a class. */
    predicate IsNamed() {
      this == FontSize || this == FontFamily
    }

    /** The feature's custom value goes through the preset resolver and must be truthy. */
    predicate IsResolved() {
      this != FontSize && this != FontFamily && this != LineHeight
    }

    /** The key under `supports.typography` that opts a block type in. */
    function SupportKey(): string {
      match this
      case FontFamily => "__experimentalFontFamily"
      case FontSize => "fontSize"
      case FontStyle => "__experimentalFontStyle"
      case FontWeight => "__experimentalFontWeight"
      case LetterSpacing => "__experimentalLetterSpacing"
      case LineHeight => "lineHeight"
      case TextDecoration => "__experimentalTextDecoration"
      case TextTransform => "__experimentalTextTransform"
    }

    /**
     The feature's name: its skip-serialization name, its key under
     `style.typography` in the block attributes, and its key in the
     class and style maps.
     */
    function Name(): string {
      match this
      case FontSize => "fontSize"
      case FontFamily => "fontFamily"
      case FontStyle => "fontStyle"
      case FontWeight => "fontWeight"
      case LineHeight => "lineHeight"
      case TextDecoration => "textDecoration"
      case TextTransform => "textTransform"
      case LetterSpacing => "letterSpacing"
    }

    /** The CSS property whose presets the feature's value may refer to. */
    function CssProperty(): string {
      match this
      case FontSize => "font-size"
      case FontFamily => "font-family"
      case FontStyle => "font-style"
      case FontWeight => "font-weight"
      case LineHeight => "line-height"
      case TextDecoration => "text-decoration"
      case TextTransform => "text-transform"
      case LetterSpacing => "letter-spacing"
    }
  }

  const AllFeatures: set<Feature> :=
    {FontSize, FontFamily, FontStyle, FontWeight, LineHeight, TextDecoration, TextTransform, LetterSpacing}

  /** Distinct features have distinct names, so the maps keyed by feature match PHP's maps keyed by name. */
  lemma NamesIdentifyFeatures(f: Feature, g: Feature)
    ensures f.Name() == g.Name() <==> f == g
  {
  }

  // ---------------------------------------------------------------------------
  // Support flags
  // ---------------------------------------------------------------------------

  /** `supports.typography` of a block type, `false` when absent; `None` means no `supports` property. */
  function TypographySupports(supports: Option<Value>): Value {
    if supports.None? then Bool(false) else ArrayGet(supports.value, ["typography"], Bool(false))
  }

  /** The block type's typography supports opt into feature `f`. */
  predicate HasSupport(typography: Value, f: Feature) {
    Truthy(ArrayGet(typography, [f.SupportKey()], Bool(false)))
  }

  /** At least one of the eight features is supported. */
  ghost predicate HasAnySupport(typography: Value) {
    exists f: Feature :: HasSupport(typography, f)
  }

  // ---------------------------------------------------------------------------
  // Registration (lib/block-supports/typography.php:13-56)
  // ---------------------------------------------------------------------------

  const StyleSchema: Value := Arr(map["type" := Str("object")])
  const FontSizeSchema: Value := Arr(map["type" := Str("string")])

  /** The attribute schema as an array; a null schema reads as the empty array. */
  function SchemaOf(attributes: Option<map<string, Value>>): map<string, Value> {
    if attributes.Some? then attributes.value else map[]
  }

  /** The schema entries registration offers for the given typography supports. */
  ghost function OfferedAttributes(typography: Value): map<string, Value> {
    (if HasAnySupport(typography) then map["style" := StyleSchema] else map[])
    + (if HasSupport(typography, FontSize) then map["fontSize" := FontSizeSchema] else map[])
  }

  /**
   The attribute schema after registration: unchanged without typography
   support; otherwise the offered entries, overridden by every entry the
   schema already had (the union keeps the right-hand side on shared keys).
   */
  ghost function RegisteredAttributes(supports: Option<Value>, attributes: Option<map<string, Value>>): Option<map<string, Value>> {
    var typography := TypographySupports(supports);
    if !Truthy(typography) then attributes
    else Some(OfferedAttributes(typography) + SchemaOf(attributes))
  }

  /** A block type descriptor; only the two properties registration and rendering read. */
  class BlockType {
    /** `None` when the object has no `supports` property at all. */
    var supports: Option<Value>
    /** The attribute schema; `None` is PHP null. */
    var attributes: Option<map<string, Value>>

    constructor (supports: Option<Value>, attributes: Option<map<string, Value>>)
      ensures this.supports == supports && this.attributes == attributes
    {
      this.supports := supports;
      this.attributes := attributes;
    }
  }

  /** `gutenberg_register_typography_support`: adds the `style` and `fontSize` schema entries in place. */
  method RegisterTypographySupport(blockType: BlockType)
    modifies blockType`attributes
    ensures blockType.attributes == RegisteredAttributes(blockType.supports, old(blockType.attributes))
  {
    if blockType.supports.None? {
      return;
    }
    var typographySupports := ArrayGet(blockType.supports.value, ["typography"], Bool(false));
    if !Truthy(typographySupports) {
      return;
    }

    var hasFontFamilySupport := ArrayGet(typographySupports, ["__experimentalFontFamily"], Bool(false));
    var hasFontSizeSupport := ArrayGet(typographySupports, ["fontSize"], Bool(false));
    var hasFontStyleSupport := ArrayGet(typographySupports, ["__experimentalFontStyle"], Bool(false));
    var hasFontWeightSupport := ArrayGet(typographySupports, ["__experimentalFontWeight"], Bool(false));
    var hasLetterSpacingSupport := ArrayGet(typographySupports, ["__experimentalLetterSpacing"], Bool(false));
    var hasLineHeightSupport := ArrayGet(typographySupports, ["lineHeight"], Bool(false));
    var hasTextDecorationSupport := ArrayGet(typographySupports, ["__experimentalTextDecoration"], Bool(false));
    var hasTextTransformSupport := ArrayGet(typographySupports, ["__experimentalTextTransform"], Bool(false));

    var hasTypographySupport :=
      Truthy(hasFontFamilySupport)
      || Truthy(hasFontSizeSupport)
      || Truthy(hasFontStyleSupport)
      || Truthy(hasFontWeightSupport)
      || Truthy(hasLetterSpacingSupport)
      || Truthy(hasLineHeightSupport)
      || Truthy(hasTextDecorationSupport)
      || Truthy(hasTextTransformSupport);
    SomeFlagIffAnySupport(typographySupports);

    ghost var original := SchemaOf(blockType.attributes);
    if blockType.attributes.None? || blockType.attributes.value == map[] {
      blockType.attributes := Some(map[]);
    }
    var schema := blockType.attributes.value;
    assert schema == original;

    if hasTypographySupport && "style" !in schema {
      schema := schema["style" := Arr(map["type" := Str("object")])];
    }
    if Truthy(hasFontSizeSupport) && "fontSize" !in schema {
      schema := schema["fontSize" := Arr(map["type" := Str("string")])];
    }
    blockType.attributes := Some(schema);
    AddMissingEntries(original, hasTypographySupport, Truthy(hasFontSizeSupport));
  }

  /** Inserting each absent entry in turn is the union of the offered entries under the existing ones. */
  lemma AddMissingEntries(m: map<string, Value>, addStyle: bool, addFontSize: bool)
    ensures
      var withStyle := if addStyle && "style" !in m then m["style" := StyleSchema] else m;
      var withFontSize := if addFontSize && "fontSize" !in withStyle then withStyle["fontSize" := FontSizeSchema] else withStyle;
      withFontSize
      == (if addStyle then map["style" := StyleSchema] else map[])
         + (if addFontSize then map["fontSize" := FontSizeSchema] else map[])
         + m
  {
  }

  /** The source's eight-way disjunction of support flags says that some feature is supported. */
  lemma SomeFlagIffAnySupport(typography: Value)
    ensures HasAnySupport(typography) <==>
      || Truthy(ArrayGet(typography, ["__experimentalFontFamily"], Bool(false)))
      || Truthy(ArrayGet(typography, ["fontSize"], Bool(false)))
      || Truthy(ArrayGet(typography, ["__experimentalFontStyle"], Bool(false)))
      || Truthy(ArrayGet(typography, ["__experimentalFontWeight"], Bool(false)))
      || Truthy(ArrayGet(typography, ["__experimentalLetterSpacing"], Bool(false)))
      || Truthy(ArrayGet(typography, ["lineHeight"], Bool(false)))
      || Truthy(ArrayGet(typography, ["__experimentalTextDecoration"], Bool(false)))
      || Truthy(ArrayGet(typography, ["__experimentalTextTransform"], Bool(false)))
  {
    if HasAnySupport(typography) {
      var f: Feature :| HasSupport(typography, f);
      match f
      case FontSize =>
      case FontFamily =>
      case FontStyle =>
      case FontWeight =>
      case LineHeight =>
      case TextDecoration =>
      case TextTransform =>
      case LetterSpacing =>
    } else {
      assert !HasSupport(typography, FontFamily) && !HasSupport(typography, FontSize);
      assert !HasSupport(typography, FontStyle) && !HasSupport(typography, FontWeight);
      assert !HasSupport(typography, LetterSpacing) && !HasSupport(typography, LineHeight);
      assert !HasSupport(typography, TextDecoration) && !HasSupport(typography, TextTransform);
    }
  }

  /** Without a `supports` property, or with falsy typography supports, registration changes nothing. */
  lemma RegisterWithoutTypographyIsNoOp(supports: Option<Value>, attributes: Option<map<string, Value>>)
    requires supports.None? || !Truthy(TypographySupports(supports))
    ensures RegisteredAttributes(supports, attributes) == attributes
  {
  }

  /**
   With typography support, the schema always exists afterwards, and `style`
   is in it exactly when it was already there or some feature is supported;
   an existing `style` entry is kept, a new one is `{type: object}`.
   */
  lemma RegisterStyleEntry(supports: Option<Value>, attributes: Option<map<string, Value>>)
    requires Truthy(TypographySupports(supports))
    ensures RegisteredAttributes(supports, attributes).Some?
    ensures var before, after := SchemaOf(attributes), RegisteredAttributes(supports, attributes).value;
      && ("style" in after <==> "style" in before || HasAnySupport(TypographySupports(supports)))
      && ("style" in before ==> after["style"] == before["style"])
      && ("style" !in before && "style" in after ==> after["style"] == StyleSchema)
  {
  }

  /**
   With typography support, `fontSize` is in the schema afterwards exactly
   when it was already there or font-size is supported; an existing entry is
   kept, a new one is `{type: string}`.
   */
  lemma RegisterFontSizeEntry(supports: Option<Value>, attributes: Option<map<string, Value>>)
    requires Truthy(TypographySupports(supports))
    ensures RegisteredAttributes(supports, attributes).Some?
    ensures var before, after := SchemaOf(attributes), RegisteredAttributes(supports, attributes).value;
      && ("fontSize" in after <==> "fontSize" in before || HasSupport(TypographySupports(supports), FontSize))
      && ("fontSize" in before ==> after["fontSize"] == before["fontSize"])
      && ("fontSize" !in before && "fontSize" in after ==> after["fontSize"] == FontSizeSchema)
  {
  }

  /** Registration keeps every existing entry as it was and adds no key other than `style` and `fontSize`. */
  lemma RegisterKeepsExistingEntries(supports: Option<Value>, attributes: Option<map<string, Value>>, k: string)
    ensures var before, after := SchemaOf(attributes), SchemaOf(RegisteredAttributes(supports, attributes));
      && (k in before ==> k in after && after[k] == before[k])
      && (k in after && k !in before ==> k == "style" || k == "fontSize")
  {
  }

  /** Registering twice gives the same schema as registering once. */
  lemma RegisterIdempotent(supports: Option<Value>, attributes: Option<map<string, Value>>)
    ensures RegisteredAttributes(supports, RegisteredAttributes(supports, attributes))
         == RegisteredAttributes(supports, attributes)
  {
    var typography := TypographySupports(supports);
    if Truthy(typography) {
      var once := OfferedAttributes(typography) + SchemaOf(attributes);
      assert OfferedAttributes(typography).Keys <= once.Keys;
      assert OfferedAttributes(typography) + once == once;
    }
  }

  // ---------------------------------------------------------------------------
  // Preset resolution (lib/block-supports/typography.php:213-231)
  // ---------------------------------------------------------------------------

  /** The legacy placeholder prefix for presets of `cssProperty`. */
  function PresetPattern(cssProperty: string): string {
    "var:preset|" + cssProperty + "|"
  }

  /** The CSS custom-property reference for preset `slug` of `cssProperty`. */
  function PresetVariable(cssProperty: string, slug: string): string {
    "var(--wp--preset--" + cssProperty + "--" + slug + ");"
  }

  /** A non-empty string that contains the placeholder prefix anywhere (not only at the start). */
  ghost predicate IsPresetReference(v: Value, cssProperty: string) {
    Truthy(v) && v.Str? && Contains(v.s, PresetPattern(cssProperty))
  }

  /** `k` is the position of the last `|` in `s`. */
  predicate LastBarAt(s: string, k: nat) {
    k < |s| && s[k] == '|' && '|' !in s[k + 1..]
  }

  lemma LastBarUnique(s: string, j: nat, k: nat)
    requires LastBarAt(s, j) && LastBarAt(s, k)
    ensures j == k
  {
  }

  /**
   `gutenberg_typography_get_preset_inline_style_value`: a preset reference
   becomes `var(--wp--preset--<cssProperty>--<slug>);` where the slug is the
   kebab-cased text after the last `|`; every other value is returned as is.
   */
  function PresetInlineStyleValue(styleValue: Value, cssProperty: string, kebab: Value -> string): (r: Value)
    ensures !IsPresetReference(styleValue, cssProperty) ==> r == styleValue
    ensures IsPresetReference(styleValue, cssProperty) ==>
      exists k: nat {:trigger LastBarAt(styleValue.s, k)} ::
        && LastBarAt(styleValue.s, k)
        && r == Str(PresetVariable(cssProperty, kebab(Str(styleValue.s[k + 1..]))))
  {
    if !Truthy(styleValue) || !styleValue.Str? || StrPos(styleValue.s, PresetPattern(cssProperty)).None? then
      styleValue
    else
      Str(SplicePreset(styleValue.s, cssProperty, kebab))
  }

  /** The rewrite of a string known to hold the placeholder: the slug is what follows the last `|`. */
  function SplicePreset(s: string, cssProperty: string, kebab: Value -> string): (r: string)
    requires StrPos(s, PresetPattern(cssProperty)).Some?
    ensures exists k: nat {:trigger LastBarAt(s, k)} ::
      LastBarAt(s, k) && r == PresetVariable(cssProperty, kebab(Str(s[k + 1..])))
  {
    OccurrenceEndingInChar(s, PresetPattern(cssProperty), StrPos(s, PresetPattern(cssProperty)).value, '|');
    var indexToSplice := StrRPos(s, '|').value + 1;
    assert LastBarAt(s, indexToSplice - 1);
    var slug := kebab(Str(s[indexToSplice..]));
    PresetVariable(cssProperty, slug)
  }

  /** The resolver's output is truthy exactly when its input is. */
  lemma PresetKeepsTruthiness(styleValue: Value, cssProperty: string, kebab: Value -> string)
    ensures Truthy(PresetInlineStyleValue(styleValue, cssProperty, kebab)) <==> Truthy(styleValue)
  {
    if IsPresetReference(styleValue, cssProperty) {
      var r := PresetInlineStyleValue(styleValue, cssProperty, kebab);
      var k: nat :| LastBarAt(styleValue.s, k) && r == Str(PresetVariable(cssProperty, kebab(Str(styleValue.s[k + 1..]))));
      assert r.s[0] == 'v';
    }
  }

  /** A matching value is rewritten with the text after its last `|` as the slug. */
  lemma PresetRewrite(s: string, cssProperty: string, kebab: Value -> string, k: nat)
    requires Contains(s, PresetPattern(cssProperty))
    requires LastBarAt(s, k)
    ensures PresetInlineStyleValue(Str(s), cssProperty, kebab)
         == Str(PresetVariable(cssProperty, kebab(Str(s[k + 1..]))))
  {
    var i: nat :| OccursAt(s, PresetPattern(cssProperty), i);
    assert s[i..i + |PresetPattern(cssProperty)|][0] == 'v';
    var j: nat :| LastBarAt(s, j)
      && PresetInlineStyleValue(Str(s), cssProperty, kebab) == Str(PresetVariable(cssProperty, kebab(Str(s[j + 1..]))));
    LastBarUnique(s, j, k);
  }

  /**
   The placeholder is found anywhere in the value, not only at its start:
   whatever precedes it is dropped, and a slug without `|` is kept whole.
   */
  lemma {:induction false} PresetMatchIsSubstring(prefix: string, cssProperty: string, slug: string, kebab: Value -> string)
    requires '|' !in slug
    ensures PresetInlineStyleValue(Str(prefix + PresetPattern(cssProperty) + slug), cssProperty, kebab)
         == Str(PresetVariable(cssProperty, kebab(Str(slug))))
  {
    var pattern := PresetPattern(cssProperty);
    var s := prefix + pattern + slug;
    assert s[|prefix|..|prefix| + |pattern|] == pattern;
    assert OccursAt(s, pattern, |prefix|);
    var k := |prefix| + |pattern| - 1;
    assert s[k] == pattern[|pattern| - 1] == '|';
    assert s[k + 1..] == slug;
    PresetRewrite(s, cssProperty, kebab, k);
  }

  /** A placeholder for another property is left alone. */
  lemma PresetOfOtherPropertyUnchanged(kebab: Value -> string)
    ensures PresetInlineStyleValue(Str("var:preset|font-weight|bold"), "font-style", kebab)
         == Str("var:preset|font-weight|bold")
  {
    var s := "var:preset|font-weight|bold";
    var pattern := PresetPattern("font-style");
    assert |s| == 27 && |pattern| == 22 && pattern[0] == 'v' && pattern[16] == 's';
    forall i: nat | i + |pattern| <= |s| ensures !OccursAt(s, pattern, i) {
      if i == 0 {
        assert s[i..i + 22][16] == 'w';
      } else {
        assert s[i..i + 22][0] == s[i] != 'v';
      }
    }
  }

  // ---------------------------------------------------------------------------
  // Class and style maps (lib/block-supports/typography.php:68-202)
  //
  // The keys of `$classes` and `$styles` are feature names; the maps below are
  // keyed by the feature itself, whose `Name()` is the PHP key.
  // ---------------------------------------------------------------------------

  /** The feature's custom value `style.typography.<name>` in the block attributes, or null. */
  function CustomValue(blockAttributes: map<string, Value>, f: Feature): Value {
    Get(Get(Get(Arr(blockAttributes), "style"), "typography"), f.Name())
  }

  /** `isset( $block_attributes['style']['typography'][<name>] )`. */
  predicate HasCustomValue(blockAttributes: map<string, Value>, f: Feature) {
    CustomValue(blockAttributes, f) != Null
  }

  /** The custom value is the source's `_wp_array_get` along `style.typography.<name>`, and `isset` of that path. */
  lemma CustomValueIsArrayGet(blockAttributes: map<string, Value>, f: Feature)
    ensures CustomValue(blockAttributes, f) == ArrayGet(Arr(blockAttributes), ["style", "typography", f.Name()], Null)
    ensures HasCustomValue(blockAttributes, f) <==> IsSet(Arr(blockAttributes), ["style", "typography", f.Name()])
  {
    ArrayGetThreeKeys(Arr(blockAttributes), "style", "typography", f.Name());
  }

  /** The feature is supported and not individually opted out of serialization. */
  predicate Enabled(typography: Value, shouldSkip: Option<string> -> bool, f: Feature) {
    HasSupport(typography, f) && !shouldSkip(Some(f.Name()))
  }

  /** The feature's entry in the class map: a named preset, kebab-cased. */
  function ClassEntry(
    f: Feature, typography: Value, blockAttributes: map<string, Value>,
    shouldSkip: Option<string> -> bool, kebab: Value -> string): Option<string>
  {
    if f.IsNamed() && Enabled(typography, shouldSkip, f) && f.Name() in blockAttributes then
      Some(kebab(blockAttributes[f.Name()]))
    else
      None
  }

  /**
   The inline style of a named feature: its custom value when set and no
   named preset is present, through the preset resolver for the font family.
   */
  function NamedFeatureStyle(f: Feature, blockAttributes: map<string, Value>, kebab: Value -> string): Option<Value> {
    if f.Name() in blockAttributes || !HasCustomValue(blockAttributes, f) then None
    else if f == FontSize then Some(CustomValue(blockAttributes, f))
    else Some(PresetInlineStyleValue(CustomValue(blockAttributes, f), f.CssProperty(), kebab))
  }

  /** The inline style of a resolved feature: its resolved custom value, when truthy. */
  function ResolvedFeatureStyle(f: Feature, blockAttributes: map<string, Value>, kebab: Value -> string): Option<Value> {
    var v := PresetInlineStyleValue(CustomValue(blockAttributes, f), f.CssProperty(), kebab);
    if Truthy(v) then Some(v) else None
  }

  /** The feature's entry in the inline-style map. */
  function StyleEntry(
    f: Feature, typography: Value, blockAttributes: map<string, Value>,
    shouldSkip: Option<string> -> bool, kebab: Value -> string): Option<Value>
  {
    if !Enabled(typography, shouldSkip, f) then None
    else if f.IsNamed() then NamedFeatureStyle(f, blockAttributes, kebab)
    else if f == LineHeight then
      (if HasCustomValue(blockAttributes, LineHeight) then Some(CustomValue(blockAttributes, LineHeight)) else None)
    else ResolvedFeatureStyle(f, blockAttributes, kebab)
  }

  /** The map holding, for each feature of `fs` that has an entry, that entry. */
  function Entries<V>(e: Feature -> Option<V>, fs: set<Feature>): map<Feature, V> {
    map f | f in fs && e(f).Some? :: e(f).value
  }

  /** The class map `$classes` handed to the style engine. */
  function TypographyClasses(
    typography: Value, blockAttributes: map<string, Value>,
    shouldSkip: Option<string> -> bool, kebab: Value -> string): map<Feature, string>
  {
    Entries((f: Feature) => ClassEntry(f, typography, blockAttributes, shouldSkip, kebab), AllFeatures)
  }

  /** The inline-style map `$styles` handed to the style engine. */
  function TypographyStyles(
    typography: Value, blockAttributes: map<string, Value>,
    shouldSkip: Option<string> -> bool, kebab: Value -> string): map<Feature, Value>
  {
    Entries((f: Feature) => StyleEntry(f, typography, blockAttributes, shouldSkip, kebab), AllFeatures)
  }

  /** `m` with `f` set to the entry, when there is one. */
  function Put<V>(m: map<Feature, V>, f: Feature, e: Option<V>): map<Feature, V> {
    if e.Some? then m[f := e.value] else m
  }

  /**
   Lines 105-129: a feature with a named preset. The named attribute, when
   present (even if null), becomes a kebab-cased class; otherwise a set custom
   value becomes a style, through the preset resolver for the font family.
   */
  method AddNamedOrCustom(
    classes: map<Feature, string>, styles: map<Feature, Value>, f: Feature,
    typography: Value, blockAttributes: map<string, Value>,
    shouldSkip: Option<string> -> bool, kebab: Value -> string)
    returns (classes': map<Feature, string>, styles': map<Feature, Value>)
    requires f.IsNamed()
    ensures classes' == Put(classes, f, ClassEntry(f, typography, blockAttributes, shouldSkip, kebab))
    ensures styles' == Put(styles, f, StyleEntry(f, typography, blockAttributes, shouldSkip, kebab))
  {
    CustomValueIsArrayGet(blockAttributes, f);
    classes', styles' := classes, styles;
    var hasSupport := ArrayGet(typography, [f.SupportKey()], Bool(false));
    var shouldSkipFeature := shouldSkip(Some(f.Name()));
    if Truthy(hasSupport) && !shouldSkipFeature {
      var hasNamedValue := f.Name() in blockAttributes;
      var hasCustomValue := IsSet(Arr(blockAttributes), ["style", "typography", f.Name()]);
      if hasNamedValue {
        classes' := classes[f := kebab(blockAttributes[f.Name()])];
      } else if hasCustomValue {
        var custom := ArrayGet(Arr(blockAttributes), ["style", "typography", f.Name()], Null);
        if f == FontSize {
          styles' := styles[f := custom];
        } else {
          styles' := styles[f := PresetInlineStyleValue(custom, f.CssProperty(), kebab)];
        }
      }
    }
  }

  /** Lines 147-152: the line height, copied verbatim when set. */
  method AddLineHeight(
    styles: map<Feature, Value>,
    typography: Value, blockAttributes: map<string, Value>,
    shouldSkip: Option<string> -> bool, kebab: Value -> string)
    returns (styles': map<Feature, Value>)
    ensures styles' == Put(styles, LineHeight, StyleEntry(LineHeight, typography, blockAttributes, shouldSkip, kebab))
  {
    CustomValueIsArrayGet(blockAttributes, LineHeight);
    styles' := styles;
    var hasLineHeightSupport := ArrayGet(typography, ["lineHeight"], Bool(false));
    var shouldSkipLineHeight := shouldSkip(Some("lineHeight"));
    if Truthy(hasLineHeightSupport) && !shouldSkipLineHeight {
      var hasLineHeight := IsSet(Arr(blockAttributes), ["style", "typography", "lineHeight"]);
      if hasLineHeight {
        styles' := styles[LineHeight := ArrayGet(Arr(blockAttributes), ["style", "typography", "lineHeight"], Null)];
      }
    }
  }

  /**
   Lines 131-145 and 154-176: font style, font weight, text decoration, text
   transform and letter spacing. The custom value goes through the preset
   resolver and is kept only when the result is truthy.
   */
  method AddResolvedStyle(
    styles: map<Feature, Value>, f: Feature,
    typography: Value, blockAttributes: map<string, Value>,
    shouldSkip: Option<string> -> bool, kebab: Value -> string)
    returns (styles': map<Feature, Value>)
    requires f.IsResolved()
    ensures styles' == Put(styles, f, StyleEntry(f, typography, blockAttributes, shouldSkip, kebab))
  {
    CustomValueIsArrayGet(blockAttributes, f);
    styles' := styles;
    var hasSupport := ArrayGet(typography, [f.SupportKey()], Bool(false));
    var shouldSkipFeature := shouldSkip(Some(f.Name()));
    if Truthy(hasSupport) && !shouldSkipFeature {
      var custom := ArrayGet(Arr(blockAttributes), ["style", "typography", f.Name()], Null);
      var value := PresetInlineStyleValue(custom, f.CssProperty(), kebab);
      if Truthy(value) {
        styles' := styles[f := value];
      }
    }
  }

  /** When only named features have entries, recording font size and then font family yields the entry map. */
  lemma NamedEntriesInSourceOrder<V>(e: Feature -> Option<V>)
    requires forall f: Feature :: !f.IsNamed() ==> e(f).None?
    ensures Put(Put(map[], FontSize, e(FontSize)), FontFamily, e(FontFamily)) == Entries(e, AllFeatures)
  {
    AllEntriesInSourceOrder(e);
  }

  /** Recording one more feature's entry extends the entry map by that feature. */
  lemma PutEntry<V>(e: Feature -> Option<V>, fs: set<Feature>, f: Feature)
    ensures Put(Entries(e, fs), f, e(f)) == Entries(e, fs + {f})
  {
  }

  /** Recording all features' entries one by one, in source order, yields their entry map. */
  lemma AllEntriesInSourceOrder<V>(e: Feature -> Option<V>)
    ensures
      Put(Put(Put(Put(Put(Put(Put(Put(map[],
        FontSize, e(FontSize)), FontFamily, e(FontFamily)), FontStyle, e(FontStyle)),
        FontWeight, e(FontWeight)), LineHeight, e(LineHeight)), TextDecoration, e(TextDecoration)),
        TextTransform, e(TextTransform)), LetterSpacing, e(LetterSpacing))
      == Entries(e, AllFeatures)
  {
    var s0: set<Feature> := {};
    assert Entries(e, s0) == map[];
    PutEntry(e, s0, FontSize);
    var s1 := s0 + {FontSize};
    PutEntry(e, s1, FontFamily);
    var s2 := s1 + {FontFamily};
    PutEntry(e, s2, FontStyle);
    var s3 := s2 + {FontStyle};
    PutEntry(e, s3, FontWeight);
    var s4 := s3 + {FontWeight};
    PutEntry(e, s4, LineHeight);
    var s5 := s4 + {LineHeight};
    PutEntry(e, s5, TextDecoration);
    var s6 := s5 + {TextDecoration};
    PutEntry(e, s6, TextTransform);
    var s7 := s6 + {TextTransform};
    PutEntry(e, s7, LetterSpacing);
    assert s7 + {LetterSpacing} == AllFeatures;
  }

  /**
   The class and style declarations of `gutenberg_apply_typography_support`
   (its body after the early returns, up to the style-engine calls): each
   supported, not skipped feature adds at most one entry, in source order.
   */
  method CollectTypography(
    typography: Value, blockAttributes: map<string, Value>,
    shouldSkip: Option<string> -> bool, kebab: Value -> string)
    returns (classes: map<Feature, string>, styles: map<Feature, Value>)
    ensures classes == TypographyClasses(typography, blockAttributes, shouldSkip, kebab)
    ensures styles == TypographyStyles(typography, blockAttributes, shouldSkip, kebab)
  {
    classes, styles := AddNamedOrCustom(map[], map[], FontSize, typography, blockAttributes, shouldSkip, kebab);
    classes, styles := AddNamedOrCustom(classes, styles, FontFamily, typography, blockAttributes, shouldSkip, kebab);
    styles := AddResolvedStyle(styles, FontStyle, typography, blockAttributes, shouldSkip, kebab);
    styles := AddResolvedStyle(styles, FontWeight, typography, blockAttributes, shouldSkip, kebab);
    styles := AddLineHeight(styles, typography, blockAttributes, shouldSkip, kebab);
    styles := AddResolvedStyle(styles, TextDecoration, typography, blockAttributes, shouldSkip, kebab);
    styles := AddResolvedStyle(styles, TextTransform, typography, blockAttributes, shouldSkip, kebab);
    styles := AddResolvedStyle(styles, LetterSpacing, typography, blockAttributes, shouldSkip, kebab);
    NamedEntriesInSourceOrder((f: Feature) => ClassEntry(f, typography, blockAttributes, shouldSkip, kebab));
    AllEntriesInSourceOrder((f: Feature) => StyleEntry(f, typography, blockAttributes, shouldSkip, kebab));
  }

  // ---------------------------------------------------------------------------
  // Applying the support (lib/block-supports/typography.php:68-202)
  // ---------------------------------------------------------------------------

  /**
   The block's typography is serialized at all: the block type has a
   `supports` property, its `typography` entry is truthy, and serialization
   of the whole typography set is not skipped.
   */
  predicate SerializesTypography(supports: Option<Value>, shouldSkip: Option<string> -> bool) {
    supports.Some? && Truthy(TypographySupports(supports)) && !shouldSkip(None)
  }

  /**
   `gutenberg_apply_typography_support`: the `class` and `style` attributes
   of the block's markup, each present only when the style engine returns a
   non-empty string for it.
   */
  method ApplyTypographySupport(
    blockType: BlockType, blockAttributes: map<string, Value>,
    shouldSkip: Option<string> -> bool, kebab: Value -> string,
    generate: map<Feature, Value> -> string, getClassnames: map<Feature, string> -> string)
    returns (attributes: map<string, string>)
    ensures !SerializesTypography(blockType.supports, shouldSkip) ==> attributes == map[]
    ensures attributes.Keys <= {"class", "style"}
    ensures
      var classnames := getClassnames(TypographyClasses(TypographySupports(blockType.supports), blockAttributes, shouldSkip, kebab));
      && ("class" in attributes <==> SerializesTypography(blockType.supports, shouldSkip) && Truthy(Str(classnames)))
      && ("class" in attributes ==> attributes["class"] == classnames)
    ensures
      var inlineStyles := generate(TypographyStyles(TypographySupports(blockType.supports), blockAttributes, shouldSkip, kebab));
      && ("style" in attributes <==> SerializesTypography(blockType.supports, shouldSkip) && Truthy(Str(inlineStyles)))
      && ("style" in attributes ==> attributes["style"] == inlineStyles)
  {
    if blockType.supports.None? {
      return map[];
    }
    var typographySupports := ArrayGet(blockType.supports.value, ["typography"], Bool(false));
    if !Truthy(typographySupports) {
      return map[];
    }
    if shouldSkip(None) {
      return map[];
    }
    attributes := map[];
    var classes, styles := CollectTypography(typographySupports, blockAttributes, shouldSkip, kebab);
    var inlineStyles := generate(styles);
    var classnames := getClassnames(classes);
    if Truthy(Str(classnames)) {
      attributes := attributes["class" := classnames];
    }
    if Truthy(Str(inlineStyles)) {
      attributes := attributes["style" := inlineStyles];
    }
  }

  /** A feature that is unsupported or whose serialization is skipped contributes nothing. */
  lemma FeatureGating(
    f: Feature, typography: Value, blockAttributes: map<string, Value>,
    shouldSkip: Option<string> -> bool, kebab: Value -> string)
    requires !Enabled(typography, shouldSkip, f)
    ensures f !in TypographyClasses(typography, blockAttributes, shouldSkip, kebab)
    ensures f !in TypographyStyles(typography, blockAttributes, shouldSkip, kebab)
  {
  }

  /** Only the font size and font family ever become classes. */
  lemma ClassesAreNamedFeatures(
    typography: Value, blockAttributes: map<string, Value>,
    shouldSkip: Option<string> -> bool, kebab: Value -> string)
    ensures forall f :: f in TypographyClasses(typography, blockAttributes, shouldSkip, kebab) ==> f.IsNamed()
  {
  }

  /**
   A named preset wins over a custom value: when the named attribute is
   present (`array_key_exists`, so even when it is null) the feature becomes
   the kebab-cased class and no inline style.
   */
  lemma NamedBeatsCustom(
    f: Feature, typography: Value, blockAttributes: map<string, Value>,
    shouldSkip: Option<string> -> bool, kebab: Value -> string)
    requires f.IsNamed() && Enabled(typography, shouldSkip, f)
    requires f.Name() in blockAttributes
    ensures
      var classes := TypographyClasses(typography, blockAttributes, shouldSkip, kebab);
      f in classes && classes[f] == kebab(blockAttributes[f.Name()])
    ensures f !in TypographyStyles(typography, blockAttributes, shouldSkip, kebab)
  {
  }

  /**
   Without a named preset, a set custom value (`isset`, so not null) becomes
   the inline style: the font size verbatim, the font family through the
   preset resolver and even when the result is falsy.
   */
  lemma CustomWhenNamedAbsent(
    f: Feature, typography: Value, blockAttributes: map<string, Value>,
    shouldSkip: Option<string> -> bool, kebab: Value -> string)
    requires f.IsNamed() && Enabled(typography, shouldSkip, f)
    requires f.Name() !in blockAttributes
    ensures f !in TypographyClasses(typography, blockAttributes, shouldSkip, kebab)
    ensures
      var styles := TypographyStyles(typography, blockAttributes, shouldSkip, kebab);
      var custom := CustomValue(blockAttributes, f);
      && (f in styles <==> custom != Null)
      && (f == FontSize && f in styles ==> styles[f] == custom)
      && (f == FontFamily && f in styles ==> styles[f] == PresetInlineStyleValue(custom, "font-family", kebab))
  {
  }

  /**
   Font style, font weight, text decoration, text transform and letter
   spacing: the feature has an inline style exactly when its custom value is
   truthy, and the style is the resolved value.
   */
  lemma ResolvedFeatureEntries(
    f: Feature, typography: Value, blockAttributes: map<string, Value>,
    shouldSkip: Option<string> -> bool, kebab: Value -> string)
    requires f.IsResolved() && Enabled(typography, shouldSkip, f)
    ensures
      var styles := TypographyStyles(typography, blockAttributes, shouldSkip, kebab);
      var custom := CustomValue(blockAttributes, f);
      && (f in styles <==> Truthy(custom))
      && (f in styles ==> styles[f] == PresetInlineStyleValue(custom, f.CssProperty(), kebab))
  {
    var custom := CustomValue(blockAttributes, f);
    PresetKeepsTruthiness(custom, f.CssProperty(), kebab);
  }

  /** The line height is copied verbatim whenever it is set. */
  lemma LineHeightVerbatim(
    typography: Value, blockAttributes: map<string, Value>,
    shouldSkip: Option<string> -> bool, kebab: Value -> string)
    requires Enabled(typography, shouldSkip, LineHeight)
    ensures
      var styles := TypographyStyles(typography, blockAttributes, shouldSkip, kebab);
      var custom := CustomValue(blockAttributes, LineHeight);
      && (LineHeight in styles <==> custom != Null)
      && (LineHeight in styles ==> styles[LineHeight] == custom)
  {
  }
}
