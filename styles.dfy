/**
 * The style panel: the table of ready-made templates, the table of font
 * stacks, choosing a template, merging a partial change into the current
 * style, and the inline styles of the preview card.
 */
module StylePanel {
  import opened Wrappers
  import opened Strings
  import opened Schema

  /** One row of the template table; font and layout are kept as their keys. */
  datatype TemplateInfo = TemplateInfo(
    title: string,
    description: string,
    primaryColor: string,
    secondaryColor: string,
    fontKey: string,
    layoutKey: string)

  function Template(t: StyleTemplate): TemplateInfo {
    match t
    case Modern => TemplateInfo("Modern", "Clean lines, gradients, and contemporary design",
                                "#667eea", "#764ba2", "inter", "centered")
    case Classic => TemplateInfo("Classic", "Traditional, professional with serif fonts",
                                 "#2c3e50", "#34495e", "roboto", "boxed")
    case Minimal => TemplateInfo("Minimal", "Simple, spacious with lots of white space",
                                 "#1a202c", "#4a5568", "inter", "centered")
    case Corporate => TemplateInfo("Corporate", "Business-focused, professional blue theme",
                                   "#3182ce", "#2b6cb0", "opensans", "fullwidth")
    case Creative => TemplateInfo("Creative", "Bold colors, artistic and expressive",
                                  "#ed64a6", "#9f7aea", "poppins", "centered")
  }

  /** The CSS font stack of each font key. */
  const FontStacks: map<string, string> := map[
    "inter" := "Inter, sans-serif",
    "roboto" := "Roboto, sans-serif",
    "opensans" := "Open Sans, sans-serif",
    "lato" := "Lato, sans-serif",
    "poppins" := "Poppins, sans-serif"]

  /** The font table has exactly the fonts the schema allows. */
  lemma {:induction false} FontTableMatchesSchema()
    ensures FontStacks.Keys == FontKeys
  {
  }

  /** A template row names a known font and layout and carries two valid colours. */
  predicate RowWellFormed(info: TemplateInfo) {
    && info.fontKey in FontStacks && info.fontKey in FontKeys
    && info.layoutKey in LayoutKeys
    && IsHexColor(info.primaryColor) && IsHexColor(info.secondaryColor)
  }

  /**
   * Every template names a font of the font table and a layout the schema
   * allows, and both of its colours pass the schema's colour rule.
   */
  lemma {:induction false} TemplateTableWellFormed(t: StyleTemplate)
    ensures Template(t).fontKey in FontStacks && Template(t).fontKey in FontKeys
    ensures Template(t).layoutKey in LayoutKeys
    ensures IsHexColor(Template(t).primaryColor) && IsHexColor(Template(t).secondaryColor)
  {
    match t
    case Modern => ModernRow();
    case Classic => ClassicRow();
    case Minimal => MinimalRow();
    case Corporate => CorporateRow();
    case Creative => CreativeRow();
  }

  lemma {:induction false} ModernRow()
    ensures RowWellFormed(Template(Modern))
  {
    HexColorExamples();
  }

  lemma {:induction false} ClassicRow()
    ensures RowWellFormed(Template(Classic))
  {
  }

  lemma {:induction false} MinimalRow()
    ensures RowWellFormed(Template(Minimal))
  {
  }

  lemma {:induction false} CorporateRow()
    ensures RowWellFormed(Template(Corporate))
  {
  }

  lemma {:induction false} CreativeRow()
    ensures RowWellFormed(Template(Creative))
  {
  }

  /** Picking a template: its colours, font and layout, under its own name. */
  function HandleTemplateSelect(t: StyleTemplate): (r: StylePreview)
    ensures r.template == t
    ensures r.primaryColor == Template(t).primaryColor && r.secondaryColor == Template(t).secondaryColor
    ensures FontKey(r.fontFamily) == Template(t).fontKey && LayoutKey(r.layout) == Template(t).layoutKey
    ensures ValidStyle(r)
  {
    TemplateTableWellFormed(t);
    StylePreview(t, Template(t).primaryColor, Template(t).secondaryColor,
                 ParseFont(Template(t).fontKey).value, ParseLayout(Template(t).layoutKey).value)
  }

  /** A chosen template is a style the schema accepts unchanged. */
  lemma {:induction false} SelectedTemplatePassesSchema(t: StyleTemplate)
    ensures ValidateStylePreview(StyleToJson(HandleTemplateSelect(t))) == Ok(HandleTemplateSelect(t))
  {
    StylePreviewRoundTrip(HandleTemplateSelect(t));
  }

  /** The style the generator form starts from is the Modern template. */
  const InitialStyle: StylePreview := StylePreview(Modern, "#667eea", "#764ba2", Inter, Centered)

  lemma {:induction false} InitialStyleIsModern()
    ensures HandleTemplateSelect(Modern) == InitialStyle
    ensures InitialStyle.primaryColor == DefaultPrimaryColor && InitialStyle.secondaryColor == DefaultSecondaryColor
  {
  }

  /** `Partial<StylePreview>`: each field may be left out. */
  datatype StyleChanges = StyleChanges(
    template: Option<StyleTemplate>,
    primaryColor: Option<string>,
    secondaryColor: Option<string>,
    fontFamily: Option<FontFamily>,
    layout: Option<Layout>)

  const NoChanges: StyleChanges := StyleChanges(None, None, None, None, None)

  /** `{...current, ...changes}`. */
  function HandleStyleChange(current: StylePreview, changes: StyleChanges): (r: StylePreview)
    ensures r.template == changes.template.GetOr(current.template)
    ensures r.primaryColor == changes.primaryColor.GetOr(current.primaryColor)
    ensures r.secondaryColor == changes.secondaryColor.GetOr(current.secondaryColor)
    ensures r.fontFamily == changes.fontFamily.GetOr(current.fontFamily)
    ensures r.layout == changes.layout.GetOr(current.layout)
  {
    current.(
      template := changes.template.GetOr(current.template),
      primaryColor := changes.primaryColor.GetOr(current.primaryColor),
      secondaryColor := changes.secondaryColor.GetOr(current.secondaryColor),
      fontFamily := changes.fontFamily.GetOr(current.fontFamily),
      layout := changes.layout.GetOr(current.layout))
  }

  /** The changes that the later of two partial styles wins over the earlier. */
  function Then(first: StyleChanges, second: StyleChanges): StyleChanges {
    StyleChanges(
      if second.template.Some? then second.template else first.template,
      if second.primaryColor.Some? then second.primaryColor else first.primaryColor,
      if second.secondaryColor.Some? then second.secondaryColor else first.secondaryColor,
      if second.fontFamily.Some? then second.fontFamily else first.fontFamily,
      if second.layout.Some? then second.layout else first.layout)
  }

  /** A change with no fields keeps the style; applying the same change twice is applying it once. */
  lemma {:induction false} StyleChangeLaws(current: StylePreview, changes: StyleChanges)
    ensures HandleStyleChange(current, NoChanges) == current
    ensures HandleStyleChange(HandleStyleChange(current, changes), changes) == HandleStyleChange(current, changes)
  {
  }

  /** Two changes in a row are one change in which the later field wins. */
  lemma {:induction false} StyleChangesCompose(current: StylePreview, first: StyleChanges, second: StyleChanges)
    ensures HandleStyleChange(HandleStyleChange(current, first), second)
         == HandleStyleChange(current, Then(first, second))
  {
  }

  /** A change that sets every field replaces the style whatever it was. */
  lemma {:induction false} FullChangeReplaces(current: StylePreview, s: StylePreview)
    ensures HandleStyleChange(current, StyleChanges(Some(s.template), Some(s.primaryColor), Some(s.secondaryColor),
                                                    Some(s.fontFamily), Some(s.layout))) == s
  {
  }

  /** A colour change keeps the style valid exactly when the new colour passes the colour rule. */
  lemma {:induction false} ColourChangeValidity(current: StylePreview, colour: string)
    requires ValidStyle(current)
    ensures ValidStyle(HandleStyleChange(current, NoChanges.(primaryColor := Some(colour)))) <==> IsHexColor(colour)
  {
  }

  // ----- the preview card's inline styles -----

  /** `#RRGGBBAA`: a colour with a hexadecimal alpha channel. */
  predicate IsHexAlphaColor(s: string) {
    |s| == 9 && s[0] == '#' && forall k :: 1 <= k < 9 ==> IsHexDigit(s[k])
  }

  function HexDigitValue(c: char): nat
    requires IsHexDigit(c)
  {
    if '0' <= c <= '9' then c as int - '0' as int
    else if 'a' <= c <= 'f' then c as int - 'a' as int + 10
    else c as int - 'A' as int + 10
  }

  /** The alpha channel, out of 255. */
  function Alpha(s: string): nat
    requires IsHexAlphaColor(s)
  {
    HexDigitValue(s[7]) * 16 + HexDigitValue(s[8])
  }

  /** A colour with a two-digit alpha suffix. */
  function WithAlpha(colour: string, alpha: string): string {
    colour + alpha
  }

  const BackgroundAlpha: string := "20"
  const BorderAlpha: string := "50"

  /** The preview text's font stack. */
  function PreviewFont(style: StylePreview): (r: string)
    ensures r in FontStacks.Values
  {
    FontTableMatchesSchema();
    assert FontKey(style.fontFamily) in FontKeys;
    FontStacks[FontKey(style.fontFamily)]
  }

  /** The preview font follows the chosen font: the five stacks are distinct. */
  lemma {:induction false} PreviewFontFollowsChoice(s: StylePreview, t: StylePreview)
    ensures PreviewFont(s) == PreviewFont(t) <==> s.fontFamily == t.fontFamily
  {
    if s.fontFamily != t.fontFamily {
      assert PreviewFont(s)[0] != PreviewFont(t)[0];
    }
  }

  const GradientOpen: string := "linear-gradient(135deg, "
  const GradientMiddle: string := ", "
  const GradientClose: string := ")"

  function PreviewBackground(style: StylePreview): string {
    GradientOpen + WithAlpha(style.primaryColor, BackgroundAlpha) + GradientMiddle
      + WithAlpha(style.secondaryColor, BackgroundAlpha) + GradientClose
  }

  /** An inline style; `backgroundColor` is None where the style sets no background. */
  datatype CardStyle = CardStyle(color: string, backgroundColor: Option<string>, borderColor: string)

  function ButtonStyle(style: StylePreview): CardStyle {
    CardStyle("white", Some(style.primaryColor), style.primaryColor)
  }

  function SecondaryStyle(style: StylePreview): CardStyle {
    CardStyle(style.secondaryColor, None, WithAlpha(style.secondaryColor, BorderAlpha))
  }

  /** An alpha suffix on a valid colour gives a valid `#RRGGBBAA` colour with that alpha. */
  lemma {:induction false} AlphaSuffix(colour: string, alpha: string)
    requires IsHexColor(colour) && |alpha| == 2 && IsHexDigit(alpha[0]) && IsHexDigit(alpha[1])
    ensures IsHexAlphaColor(WithAlpha(colour, alpha))
    ensures Alpha(WithAlpha(colour, alpha)) == HexDigitValue(alpha[0]) * 16 + HexDigitValue(alpha[1])
    ensures WithAlpha(colour, alpha)[..7] == colour
  {
  }

  /** The background gradient holds both colours with their alpha, whatever the colours are. */
  lemma {:induction false} BackgroundPlacesColours(style: StylePreview)
    ensures OccursAt(GradientOpen, PreviewBackground(style), 0)
    ensures OccursAt(WithAlpha(style.primaryColor, BackgroundAlpha), PreviewBackground(style), |GradientOpen|)
    ensures OccursAt(WithAlpha(style.secondaryColor, BackgroundAlpha), PreviewBackground(style),
                     |GradientOpen| + |WithAlpha(style.primaryColor, BackgroundAlpha)| + |GradientMiddle|)
  {
    var p, q := WithAlpha(style.primaryColor, BackgroundAlpha), WithAlpha(style.secondaryColor, BackgroundAlpha);
    var bg := PreviewBackground(style);
    assert bg == GradientOpen + p + (GradientMiddle + q + GradientClose);
    OccursInMiddle([], GradientOpen, p + (GradientMiddle + q + GradientClose));
    assert [] + GradientOpen + (p + (GradientMiddle + q + GradientClose)) == bg;
    OccursInMiddle(GradientOpen, p, GradientMiddle + q + GradientClose);
    assert bg == (GradientOpen + p + GradientMiddle) + q + GradientClose;
    OccursInMiddle(GradientOpen + p + GradientMiddle, q, GradientClose);
  }

  /**
   * The background places both colours whatever they are (the colour fields are
   * free text); for a valid style the gradient blends them at alpha 0x20 and the
   * secondary border is the secondary colour at alpha 0x50.
   */
  lemma {:induction false} PreviewColours(style: StylePreview)
    ensures OccursAt(GradientOpen, PreviewBackground(style), 0)
    ensures OccursAt(WithAlpha(style.primaryColor, BackgroundAlpha), PreviewBackground(style), |GradientOpen|)
    ensures OccursAt(WithAlpha(style.secondaryColor, BackgroundAlpha), PreviewBackground(style),
                     |GradientOpen| + |WithAlpha(style.primaryColor, BackgroundAlpha)| + |GradientMiddle|)
    ensures SecondaryStyle(style).backgroundColor.None?
    ensures ValidStyle(style) ==>
      IsHexAlphaColor(WithAlpha(style.primaryColor, BackgroundAlpha)) && Alpha(WithAlpha(style.primaryColor, BackgroundAlpha)) == 32
    ensures ValidStyle(style) ==>
      IsHexAlphaColor(WithAlpha(style.secondaryColor, BackgroundAlpha)) && Alpha(WithAlpha(style.secondaryColor, BackgroundAlpha)) == 32
    ensures ValidStyle(style) ==>
      IsHexAlphaColor(SecondaryStyle(style).borderColor) && Alpha(SecondaryStyle(style).borderColor) == 80
    ensures ValidStyle(style) ==> SecondaryStyle(style).borderColor[..7] == style.secondaryColor
  {
    BackgroundPlacesColours(style);
    if ValidStyle(style) {
      AlphaSuffix(style.primaryColor, BackgroundAlpha);
      AlphaSuffix(style.secondaryColor, BackgroundAlpha);
      AlphaSuffix(style.secondaryColor, BorderAlpha);
    }
  }
}
