/**
 * The shared data model: the website-generation request and its validator
 * (`websiteGenerationSchema`), the style-preview record and its validator
 * (`stylePreviewSchema`), and the stored user and website records.
 */
module Schema {
  import opened Wrappers
  import opened Json

  // ----- enumerations -----

  datatype StyleTemplate = Modern | Classic | Minimal | Corporate | Creative
  datatype FontFamily = Inter | Roboto | OpenSans | Lato | Poppins
  datatype Layout = Centered | FullWidth | Boxed

  const TemplateKeys: set<string> := {"modern", "classic", "minimal", "corporate", "creative"}
  const FontKeys: set<string> := {"inter", "roboto", "opensans", "lato", "poppins"}
  const LayoutKeys: set<string> := {"centered", "fullwidth", "boxed"}

  function TemplateKey(t: StyleTemplate): string {
    match t
    case Modern => "modern"
    case Classic => "classic"
    case Minimal => "minimal"
    case Corporate => "corporate"
    case Creative => "creative"
  }

  function ParseTemplate(s: string): (r: Option<StyleTemplate>)
    ensures r.Some? <==> s in TemplateKeys
    ensures r.Some? ==> TemplateKey(r.value) == s
  {
    if s == "modern" then Some(Modern)
    else if s == "classic" then Some(Classic)
    else if s == "minimal" then Some(Minimal)
    else if s == "corporate" then Some(Corporate)
    else if s == "creative" then Some(Creative)
    else None
  }

  function FontKey(f: FontFamily): string {
    match f
    case Inter => "inter"
    case Roboto => "roboto"
    case OpenSans => "opensans"
    case Lato => "lato"
    case Poppins => "poppins"
  }

  function ParseFont(s: string): (r: Option<FontFamily>)
    ensures r.Some? <==> s in FontKeys
    ensures r.Some? ==> FontKey(r.value) == s
  {
    if s == "inter" then Some(Inter)
    else if s == "roboto" then Some(Roboto)
    else if s == "opensans" then Some(OpenSans)
    else if s == "lato" then Some(Lato)
    else if s == "poppins" then Some(Poppins)
    else None
  }

  function LayoutKey(l: Layout): string {
    match l
    case Centered => "centered"
    case FullWidth => "fullwidth"
    case Boxed => "boxed"
  }

  function ParseLayout(s: string): (r: Option<Layout>)
    ensures r.Some? <==> s in LayoutKeys
    ensures r.Some? ==> LayoutKey(r.value) == s
  {
    if s == "centered" then Some(Centered)
    else if s == "fullwidth" then Some(FullWidth)
    else if s == "boxed" then Some(Boxed)
    else None
  }

  /** Every enumeration value parses back from its key. */
  lemma {:induction false} EnumKeysRoundTrip(t: StyleTemplate, f: FontFamily, l: Layout)
    ensures ParseTemplate(TemplateKey(t)) == Some(t)
    ensures ParseFont(FontKey(f)) == Some(f)
    ensures ParseLayout(LayoutKey(l)) == Some(l)
  {
  }

  // ----- hexadecimal colours: /^#[0-9A-F]{6}$/i -----

  predicate IsHexDigit(c: char) {
    ('0' <= c <= '9') || ('a' <= c <= 'f') || ('A' <= c <= 'F')
  }

  predicate IsHexColor(s: string) {
    |s| == 7 && s[0] == '#' && forall k :: 1 <= k < 7 ==> IsHexDigit(s[k])
  }

  const DefaultPrimaryColor: string := "#667eea"
  const DefaultSecondaryColor: string := "#764ba2"

  /** The rule is case-insensitive, exact in length, and the defaults satisfy it. */
  lemma {:induction false} HexColorExamples()
    ensures IsHexColor("#1a2B3c")
    ensures !IsHexColor("#ZZZZZZ")
    ensures !IsHexColor("#1a2B3c0") && !IsHexColor("1a2B3c")
    ensures IsHexColor(DefaultPrimaryColor) && IsHexColor(DefaultSecondaryColor)
  {
    assert !IsHexDigit("#ZZZZZZ"[1]);
  }

  // ----- the generation request -----

  const MinNameLength: nat := 1
  const MinDescriptionLength: nat := 50

  const NameMessage: string := "Website name is required"
  const DescriptionMessage: string := "Description must be at least 50 characters"
  const HexMessage: string := "Must be a valid hex color"
  const UrlMessage: string := "Must be a valid URL"

  /** A request that passed `websiteGenerationSchema`, defaults filled in. */
  datatype GenerationRequest = GenerationRequest(
    name: string,
    description: string,
    includeNavigation: bool,
    includeFooter: bool,
    includeContactForm: bool,
    isResponsive: bool,
    primaryColor: string,
    secondaryColor: string,
    imageUrls: seq<string>,
    styleTemplate: StyleTemplate)

  /** The request the schema yields when only a name and description are given. */
  function DefaultRequest(name: string, description: string): GenerationRequest {
    GenerationRequest(name, description, true, true, false, true,
                      DefaultPrimaryColor, DefaultSecondaryColor, [], Modern)
  }

  /** The property `key` of `body` is `v`, or it is absent and `absentOk` holds (the default was used). */
  predicate Given(body: Json, key: string, v: Json, absentOk: bool) {
    Property(body, key) == Some(v) || (Property(body, key).None? && absentOk)
  }

  /** An array of strings as JSON. */
  function Wrap(ss: seq<string>): (r: seq<Json>)
    ensures |r| == |ss| && forall k :: 0 <= k < |ss| ==> r[k] == JString(ss[k])
  {
    if ss == [] then [] else [JString(ss[0])] + Wrap(ss[1..])
  }

  /** Where in the payload an issue was found (a property name or an array index). */
  datatype PathKey = Key(name: string) | Index(i: nat)

  datatype IssueKind =
    | Required                  // the property is missing
    | InvalidType(expected: string)
    | Invalid(message: string)  // a rule with its own message failed
    | InvalidEnumValue

  datatype Issue = Issue(path: seq<PathKey>, kind: IssueKind)

  function Problems<T>(r: Result<T, seq<Issue>>): seq<Issue> {
    if r.Err? then r.error else []
  }

  /** A check that reports failure reports at least one issue. */
  predicate Reports<T>(r: Result<T, seq<Issue>>) {
    r.Err? ==> r.error != []
  }

  /** A string property of at least `min` characters; `default` is used when it is absent. */
  function CheckString(body: Json, key: string, min: nat, message: string, default: Option<string>): (r: Result<string, seq<Issue>>)
    ensures Reports(r)
    ensures default.None? ==> (r.Ok? <==> StringOfLength(body, key, min))
    ensures r.Ok? ==> Given(body, key, JString(r.value), default.Some? && default.value == r.value)
  {
    var p := if Property(body, key).Some? then Property(body, key) else if default.Some? then Some(JString(default.value)) else None;
    match p
    case None => Err([Issue([Key(key)], Required)])
    case Some(JString(s)) => if |s| >= min then Ok(s) else Err([Issue([Key(key)], Invalid(message))])
    case Some(_) => Err([Issue([Key(key)], InvalidType("string"))])
  }

  /** A boolean property, `default` when absent. */
  function CheckBool(body: Json, key: string, default: bool): (r: Result<bool, seq<Issue>>)
    ensures Reports(r)
    ensures r.Ok? <==> BoolOrAbsent(body, key)
    ensures r.Ok? ==> Given(body, key, JBool(r.value), r.value == default)
  {
    match Property(body, key)
    case None => Ok(default)
    case Some(JBool(b)) => Ok(b)
    case Some(_) => Err([Issue([Key(key)], InvalidType("boolean"))])
  }

  /** A colour property; an absent one is replaced by `default`, which is checked like a given one. */
  function CheckColor(body: Json, key: string, default: Option<string>): (r: Result<string, seq<Issue>>)
    ensures Reports(r)
    ensures r.Ok? ==> IsHexColor(r.value)
    ensures default.None? ==> (r.Ok? <==> HexGiven(body, key))
    ensures default.Some? && IsHexColor(default.value) ==> (r.Ok? <==> HexOrAbsent(body, key))
    ensures r.Ok? ==> Given(body, key, JString(r.value), default.Some? && default.value == r.value)
  {
    var p := if Property(body, key).Some? then Property(body, key) else if default.Some? then Some(JString(default.value)) else None;
    match p
    case None => Err([Issue([Key(key)], Required)])
    case Some(JString(s)) => if IsHexColor(s) then Ok(s) else Err([Issue([Key(key)], Invalid(HexMessage))])
    case Some(_) => Err([Issue([Key(key)], InvalidType("string"))])
  }

  /** A string property that must be one of `allowed`, `default` when absent. */
  function CheckEnum(body: Json, key: string, allowed: set<string>, default: Option<string>): (r: Result<string, seq<Issue>>)
    ensures Reports(r)
    ensures r.Ok? ==> r.value in allowed
    ensures default.None? ==> (r.Ok? <==> KeyGiven(body, key, allowed))
    ensures default.Some? && default.value in allowed ==> (r.Ok? <==> KeyOrAbsent(body, key, allowed))
    ensures r.Ok? ==> Given(body, key, JString(r.value), default.Some? && default.value == r.value)
  {
    var p := if Property(body, key).Some? then Property(body, key) else if default.Some? then Some(JString(default.value)) else None;
    match p
    case None => Err([Issue([Key(key)], Required)])
    case Some(JString(s)) => if s in allowed then Ok(s) else Err([Issue([Key(key)], InvalidEnumValue)])
    case Some(_) => Err([Issue([Key(key)], InvalidType("string"))])
  }

  /** The issues of the entries `items[from..]` of `imageUrls`; each must be a string that is a URL. */
  function UrlIssues(items: seq<Json>, validUrl: string -> bool, from: nat): seq<Issue>
    decreases |items|
  {
    if items == [] then []
    else
      var here :=
        match items[0]
        case JString(s) => if validUrl(s) then [] else [Issue([Key("imageUrls"), Index(from)], Invalid(UrlMessage))]
        case _ => [Issue([Key("imageUrls"), Index(from)], InvalidType("string"))];
      here + UrlIssues(items[1..], validUrl, from + 1)
  }

  predicate IsUrlEntry(v: Json, validUrl: string -> bool) {
    v.JString? && validUrl(v.s)
  }

  /** No issue is reported exactly when every entry is a valid URL string. */
  lemma {:induction false} UrlIssuesEmpty(items: seq<Json>, validUrl: string -> bool, from: nat)
    ensures UrlIssues(items, validUrl, from) == [] <==> forall k :: 0 <= k < |items| ==> IsUrlEntry(items[k], validUrl)
    decreases |items|
  {
    if items != [] {
      UrlIssuesEmpty(items[1..], validUrl, from + 1);
      assert forall k :: 1 <= k < |items| ==> items[k] == items[1..][k - 1];
    }
  }

  /** The strings held by an array of JSON strings. */
  function StringsOf(items: seq<Json>): (r: seq<string>)
    requires forall k :: 0 <= k < |items| ==> items[k].JString?
    ensures |r| == |items| && forall k :: 0 <= k < |items| ==> r[k] == items[k].s
  {
    if items == [] then [] else [items[0].s] + StringsOf(items[1..])
  }

  /** The `imageUrls` property: an array of URL strings, `[]` when absent. */
  function CheckUrls(body: Json, validUrl: string -> bool): (r: Result<seq<string>, seq<Issue>>)
    ensures Reports(r)
    ensures r.Ok? ==> forall k :: 0 <= k < |r.value| ==> validUrl(r.value[k])
    ensures r.Ok? <==> UrlListOrAbsent(body, validUrl)
    ensures r.Ok? ==> Given(body, "imageUrls", JArray(Wrap(r.value)), r.value == [])
  {
    match Property(body, "imageUrls").GetOr(JArray([]))
    case JArray(items) =>
      UrlIssuesEmpty(items, validUrl, 0);
      if UrlIssues(items, validUrl, 0) == [] then
        assert Wrap(StringsOf(items)) == items;
        Ok(StringsOf(items))
      else Err(UrlIssues(items, validUrl, 0))
    case _ => Err([Issue([Key("imageUrls")], InvalidType("array"))])
  }

  /** `websiteGenerationSchema.parse(body)`: the normalised request, or every issue found, in field order. */
  function Validate(body: Json, validUrl: string -> bool): (r: Result<GenerationRequest, seq<Issue>>)
    ensures r.Err? ==> r.error != []
    ensures r.Ok? ==> |r.value.name| >= MinNameLength && |r.value.description| >= MinDescriptionLength
    ensures r.Ok? ==> IsHexColor(r.value.primaryColor) && IsHexColor(r.value.secondaryColor)
  {
    if !body.JObject? then Err([Issue([], InvalidType("object"))])
    else
      var name := CheckString(body, "name", MinNameLength, NameMessage, None);
      var description := CheckString(body, "description", MinDescriptionLength, DescriptionMessage, None);
      var nav := CheckBool(body, "includeNavigation", true);
      var footer := CheckBool(body, "includeFooter", true);
      var contact := CheckBool(body, "includeContactForm", false);
      var responsive := CheckBool(body, "isResponsive", true);
      var primary := CheckColor(body, "primaryColor", Some(DefaultPrimaryColor));
      var secondary := CheckColor(body, "secondaryColor", Some(DefaultSecondaryColor));
      var urls := CheckUrls(body, validUrl);
      var template := CheckEnum(body, "styleTemplate", TemplateKeys, Some("modern"));
      var issues := Problems(name) + Problems(description) + Problems(nav) + Problems(footer)
        + Problems(contact) + Problems(responsive) + Problems(primary) + Problems(secondary)
        + Problems(urls) + Problems(template);
      if issues != [] then Err(issues)
      else
        Ok(GenerationRequest(name.value, description.value, nav.value, footer.value, contact.value,
                             responsive.value, primary.value, secondary.value, urls.value,
                             ParseTemplate(template.value).value))
  }

  // ----- an independent statement of what the schema accepts -----

  predicate StringOfLength(body: Json, key: string, min: nat) {
    var p := Property(body, key);
    p.Some? && p.value.JString? && |p.value.s| >= min
  }

  predicate BoolOrAbsent(body: Json, key: string) {
    var p := Property(body, key);
    p.None? || p.value.JBool?
  }

  predicate HexOrAbsent(body: Json, key: string) {
    var p := Property(body, key);
    p.None? || (p.value.JString? && IsHexColor(p.value.s))
  }

  predicate HexGiven(body: Json, key: string) {
    var p := Property(body, key);
    p.Some? && p.value.JString? && IsHexColor(p.value.s)
  }

  predicate KeyGiven(body: Json, key: string, allowed: set<string>) {
    var p := Property(body, key);
    p.Some? && p.value.JString? && p.value.s in allowed
  }

  predicate KeyOrAbsent(body: Json, key: string, allowed: set<string>) {
    var p := Property(body, key);
    p.None? || (p.value.JString? && p.value.s in allowed)
  }

  predicate UrlListOrAbsent(body: Json, validUrl: string -> bool) {
    var p := Property(body, "imageUrls");
    p.None? || (p.value.JArray? && forall k :: 0 <= k < |p.value.items| ==> IsUrlEntry(p.value.items[k], validUrl))
  }

  predicate TemplateOrAbsent(body: Json) {
    var p := Property(body, "styleTemplate");
    p.None? || (p.value.JString? && p.value.s in TemplateKeys)
  }

  /** What `websiteGenerationSchema` accepts, field by field. */
  predicate Acceptable(body: Json, validUrl: string -> bool) {
    && body.JObject?
    && StringOfLength(body, "name", 1)
    && StringOfLength(body, "description", 50)
    && BoolOrAbsent(body, "includeNavigation")
    && BoolOrAbsent(body, "includeFooter")
    && BoolOrAbsent(body, "includeContactForm")
    && BoolOrAbsent(body, "isResponsive")
    && HexOrAbsent(body, "primaryColor")
    && HexOrAbsent(body, "secondaryColor")
    && UrlListOrAbsent(body, validUrl)
    && TemplateOrAbsent(body)
  }

  /** The validator accepts exactly the acceptable payloads. */
  lemma {:induction false} ValidateAcceptsExactly(body: Json, validUrl: string -> bool)
    ensures Validate(body, validUrl).Ok? <==> Acceptable(body, validUrl)
  {
    HexColorExamples();
    assert CheckEnum(body, "styleTemplate", TemplateKeys, Some("modern")).Ok? <==> TemplateOrAbsent(body);
  }

  /** A payload holding only a name and a description is completed with the schema defaults. */
  lemma {:induction false} ValidateFillsDefaults(name: string, description: string, validUrl: string -> bool)
    requires |name| >= MinNameLength && |description| >= MinDescriptionLength
    ensures Validate(JObject(map["name" := JString(name), "description" := JString(description)]), validUrl)
         == Ok(DefaultRequest(name, description))
  {
    HexColorExamples();
    var body := JObject(map["name" := JString(name), "description" := JString(description)]);
    assert CheckString(body, "name", MinNameLength, NameMessage, None) == Ok(name);
    assert CheckString(body, "description", MinDescriptionLength, DescriptionMessage, None) == Ok(description);
    assert CheckBool(body, "includeNavigation", true) == Ok(true);
    assert CheckBool(body, "includeFooter", true) == Ok(true);
    assert CheckBool(body, "includeContactForm", false) == Ok(false);
    assert CheckBool(body, "isResponsive", true) == Ok(true);
    assert CheckColor(body, "primaryColor", Some(DefaultPrimaryColor)) == Ok(DefaultPrimaryColor);
    assert CheckColor(body, "secondaryColor", Some(DefaultSecondaryColor)) == Ok(DefaultSecondaryColor);
    assert Property(body, "imageUrls") == None;
    assert Property(body, "imageUrls").GetOr(JArray([])) == JArray([]);
    assert UrlIssues([], validUrl, 0) == [];
    assert CheckUrls(body, validUrl) == Ok([]);
    assert CheckEnum(body, "styleTemplate", TemplateKeys, Some("modern")) == Ok("modern");
  }

  /** Given properties are copied into the normalised request unchanged; absent ones take the defaults. */
  lemma {:induction false} ValidateKeepsGivenValues(body: Json, validUrl: string -> bool)
    requires Validate(body, validUrl).Ok?
    ensures var req := Validate(body, validUrl).value;
      && Property(body, "name") == Some(JString(req.name))
      && Property(body, "description") == Some(JString(req.description))
      && Given(body, "includeNavigation", JBool(req.includeNavigation), req.includeNavigation)
      && Given(body, "includeFooter", JBool(req.includeFooter), req.includeFooter)
      && Given(body, "includeContactForm", JBool(req.includeContactForm), !req.includeContactForm)
      && Given(body, "isResponsive", JBool(req.isResponsive), req.isResponsive)
      && Given(body, "primaryColor", JString(req.primaryColor), req.primaryColor == DefaultPrimaryColor)
      && Given(body, "secondaryColor", JString(req.secondaryColor), req.secondaryColor == DefaultSecondaryColor)
      && Given(body, "imageUrls", JArray(Wrap(req.imageUrls)), req.imageUrls == [])
      && Given(body, "styleTemplate", JString(TemplateKey(req.styleTemplate)), req.styleTemplate == Modern)
  {
  }

  /** The description rule: 49 characters are rejected, 50 accepted. */
  lemma {:induction false} DescriptionLengthRule(body: Json, d: string)
    requires Property(body, "description") == Some(JString(d))
    ensures CheckString(body, "description", MinDescriptionLength, DescriptionMessage, None).Ok? <==> |d| >= 50
    ensures |d| == 49 ==>
      CheckString(body, "description", MinDescriptionLength, DescriptionMessage, None)
        == Err([Issue([Key("description")], Invalid(DescriptionMessage))])
  {
  }

  // ----- the style preview -----

  datatype StylePreview = StylePreview(
    template: StyleTemplate,
    primaryColor: string,
    secondaryColor: string,
    fontFamily: FontFamily,
    layout: Layout)

  /** `stylePreviewSchema.parse(body)`: template and colours are required; font and layout default. */
  function ValidateStylePreview(body: Json): (r: Result<StylePreview, seq<Issue>>)
    ensures r.Err? ==> r.error != []
    ensures r.Ok? ==> IsHexColor(r.value.primaryColor) && IsHexColor(r.value.secondaryColor)
  {
    if !body.JObject? then Err([Issue([], InvalidType("object"))])
    else
      var template := CheckEnum(body, "template", TemplateKeys, None);
      var primary := CheckColor(body, "primaryColor", None);
      var secondary := CheckColor(body, "secondaryColor", None);
      var font := CheckEnum(body, "fontFamily", FontKeys, Some("inter"));
      var layout := CheckEnum(body, "layout", LayoutKeys, Some("centered"));
      var issues := Problems(template) + Problems(primary) + Problems(secondary) + Problems(font) + Problems(layout);
      if issues != [] then Err(issues)
      else
        Ok(StylePreview(ParseTemplate(template.value).value, primary.value, secondary.value,
                        ParseFont(font.value).value, ParseLayout(layout.value).value))
  }

  /** What `stylePreviewSchema` accepts, field by field. */
  predicate AcceptableStyle(body: Json) {
    && body.JObject?
    && KeyGiven(body, "template", TemplateKeys)
    && HexGiven(body, "primaryColor")
    && HexGiven(body, "secondaryColor")
    && KeyOrAbsent(body, "fontFamily", FontKeys)
    && KeyOrAbsent(body, "layout", LayoutKeys)
  }

  /** The style validator accepts exactly the acceptable payloads. */
  lemma {:induction false} ValidateStyleAcceptsExactly(body: Json)
    ensures ValidateStylePreview(body).Ok? <==> AcceptableStyle(body)
  {
    assert "inter" in FontKeys && "centered" in LayoutKeys;
  }

  /** Given style properties are copied unchanged; an absent font or layout takes its default. */
  lemma {:induction false} ValidateStyleKeepsGivenValues(body: Json)
    requires ValidateStylePreview(body).Ok?
    ensures var s := ValidateStylePreview(body).value;
      && Property(body, "template") == Some(JString(TemplateKey(s.template)))
      && Property(body, "primaryColor") == Some(JString(s.primaryColor))
      && Property(body, "secondaryColor") == Some(JString(s.secondaryColor))
      && Given(body, "fontFamily", JString(FontKey(s.fontFamily)), s.fontFamily == Inter)
      && Given(body, "layout", JString(LayoutKey(s.layout)), s.layout == Centered)
  {
    var font := CheckEnum(body, "fontFamily", FontKeys, Some("inter"));
    var layout := CheckEnum(body, "layout", LayoutKeys, Some("centered"));
    assert font.value == "inter" <==> ParseFont(font.value).value == Inter;
    assert layout.value == "centered" <==> ParseLayout(layout.value).value == Centered;
  }

  /** A style preview record that the schema would accept as it is. */
  predicate ValidStyle(s: StylePreview) {
    IsHexColor(s.primaryColor) && IsHexColor(s.secondaryColor)
  }

  /** The JSON form of a style preview. */
  function StyleToJson(s: StylePreview): Json {
    JObject(map[
      "template" := JString(TemplateKey(s.template)),
      "primaryColor" := JString(s.primaryColor),
      "secondaryColor" := JString(s.secondaryColor),
      "fontFamily" := JString(FontKey(s.fontFamily)),
      "layout" := JString(LayoutKey(s.layout))])
  }

  /** A well-formed style survives a trip through its JSON form and the schema. */
  lemma {:induction false} StylePreviewRoundTrip(s: StylePreview)
    requires ValidStyle(s)
    ensures ValidateStylePreview(StyleToJson(s)) == Ok(s)
  {
    EnumKeysRoundTrip(s.template, s.fontFamily, s.layout);
  }

  /** Font and layout may be left out; the template may not. */
  lemma {:induction false} StylePreviewDefaults(t: StyleTemplate, p: string, q: string)
    requires IsHexColor(p) && IsHexColor(q)
    ensures ValidateStylePreview(JObject(map["template" := JString(TemplateKey(t)), "primaryColor" := JString(p), "secondaryColor" := JString(q)]))
         == Ok(StylePreview(t, p, q, Inter, Centered))
    ensures ValidateStylePreview(JObject(map["primaryColor" := JString(p), "secondaryColor" := JString(q)]))
         == Err([Issue([Key("template")], Required)])
  {
    EnumKeysRoundTrip(t, Inter, Centered);
    var body := JObject(map["primaryColor" := JString(p), "secondaryColor" := JString(q)]);
    assert Property(body, "template") == None;
    assert CheckEnum(body, "template", TemplateKeys, None) == Err([Issue([Key("template")], Required)]);
    assert CheckColor(body, "primaryColor", None) == Ok(p);
    assert CheckColor(body, "secondaryColor", None) == Ok(q);
    assert Property(body, "fontFamily") == None;
    assert Property(body, "layout") == None;
    assert CheckEnum(body, "fontFamily", FontKeys, Some("inter")) == Ok("inter");
    assert CheckEnum(body, "layout", LayoutKeys, Some("centered")) == Ok("centered");
    var issues := [Issue([Key("template")], Required)] + [] + [] + [] + [];
    assert issues == [Issue([Key("template")], Required)];
  }

  // ----- stored records -----

  datatype InsertUser = InsertUser(username: string, password: string)
  datatype User = User(id: string, username: string, password: string)

  /** A website record without its identity and creation time. */
  datatype WebsiteData = WebsiteData(
    name: string,
    description: string,
    generatedHtml: string,
    generatedCss: string,
    navigationItems: seq<string>,
    footerContent: string,
    includeNavigation: bool,
    includeFooter: bool,
    includeContactForm: bool,
    isResponsive: bool,
    primaryColor: string,
    secondaryColor: string,
    imageUrls: seq<string>)

  /** A stored website: the data plus its id and creation time in milliseconds (nullable in the table). */
  datatype Website = Website(id: string, data: WebsiteData, createdAt: Option<int>)
}
