/**
 * `generateWebsite`: decides between the AI backend and the demo
 * generator. The environment, the backend call and `JSON.parse` are
 * parameters: the model is a pure function of them.
 */
module Adapter {
  import opened Wrappers
  import opened Strings
  import opened Json
  import opened Schema
  import opened Demo

  // ----- the credential -----

  /** The two environment variables the key is read from (None when unset). */
  datatype Environment = Environment(openAiApiKey: Option<string>, openAiApiKeyEnvVar: Option<string>)

  const DemoKey: string := "default_key"
  const PlaceholderKey: string := "your_openai_api_key_here"

  predicate IsSet(v: Option<string>) {
    v.Some? && v.value != ""
  }

  /** `OPENAI_API_KEY || OPENAI_API_KEY_ENV_VAR`, None when that is falsy. */
  function ApiKey(env: Environment): (r: Option<string>)
    ensures r.Some? <==> IsSet(env.openAiApiKey) || IsSet(env.openAiApiKeyEnvVar)
    ensures r.Some? ==> r.value != ""
    ensures IsSet(env.openAiApiKey) ==> r == env.openAiApiKey
    ensures !IsSet(env.openAiApiKey) ==> r == (if IsSet(env.openAiApiKeyEnvVar) then env.openAiApiKeyEnvVar else None)
  {
    if IsSet(env.openAiApiKey) then env.openAiApiKey
    else if IsSet(env.openAiApiKeyEnvVar) then env.openAiApiKeyEnvVar
    else None
  }

  /**
   * The key the client object is built with: the same choice, defaulting to
   * the demo key. It only configures the client; whether the backend is asked
   * at all is decided by `HasUsableKey`, so it never changes the result.
   */
  function ClientKey(env: Environment): (r: string)
    ensures ApiKey(env).Some? ==> r == ApiKey(env).value
    ensures ApiKey(env).None? ==> r == DemoKey
    ensures r != ""
  {
    ApiKey(env).GetOr(DemoKey)
  }

  /** The backend is asked only when a key is set and is neither of the two placeholders. */
  predicate HasUsableKey(env: Environment) {
    var k := ApiKey(env);
    k.Some? && k.value != DemoKey && k.value != PlaceholderKey
  }

  // ----- the request -----

  function BoolText(b: bool): string {
    if b then "true" else "false"
  }

  /** The prompt, fragment by fragment; a fragment that does not apply is empty. */
  function PromptFragments(o: GenerationRequest): (f: seq<string>)
    ensures |f| == 33
    ensures f[1] == o.name && f[3] == o.description
    ensures f[13] == o.primaryColor && f[15] == o.secondaryColor
    ensures f[17] == ImagesLine(o.imageUrls)
  {
    PromptRequirements(o) + PromptInstructions(o)
  }

  /** The stated requirements: name, description, the four options, the colours and the images. */
  function PromptRequirements(o: GenerationRequest): (f: seq<string>)
    ensures |f| == 18
    ensures f[1] == o.name && f[3] == o.description
    ensures f[13] == o.primaryColor && f[15] == o.secondaryColor
    ensures f[17] == ImagesLine(o.imageUrls)
  {
    [ PromptOpen, o.name,
      PromptDescription, o.description,
      PromptNavigation, BoolText(o.includeNavigation),
      PromptFooter, BoolText(o.includeFooter),
      PromptContactForm, BoolText(o.includeContactForm),
      PromptResponsive, BoolText(o.isResponsive),
      PromptPrimary, o.primaryColor,
      PromptSecondary, o.secondaryColor,
      PromptBeforeImages, ImagesLine(o.imageUrls) ]
  }

  /** The numbered steps, the colour guidelines, the image guidelines and the answer format. */
  function PromptInstructions(o: GenerationRequest): (f: seq<string>)
    ensures |f| == 15
  {
    [ PromptSteps, o.primaryColor,
      PromptAndSecondary, o.secondaryColor,
      PromptThroughout, if o.includeContactForm then ContactFormWanted else NoContactForm,
      PromptBeforeImageStep, if |o.imageUrls| > 0 then ImageLayoutStep else "",
      PromptColorGuidelines, o.primaryColor,
      PromptPrimaryUse, o.secondaryColor,
      PromptSecondaryUse, ImageIntegration(o.imageUrls),
      PromptClose ]
  }

  function ImagesLine(urls: seq<string>): string {
    if |urls| > 0 then ImagesToInclude + Join(urls, ", ") else NoImages
  }

  function ImageIntegration(urls: seq<string>): string {
    if |urls| > 0 then ImageIntegrationOpen + Join(urls, ", ") + ImageIntegrationClose else ""
  }

  function BuildPrompt(o: GenerationRequest): string {
    Concat(PromptFragments(o))
  }

  datatype ChatMessage = ChatMessage(role: string, content: string)

  datatype ChatRequest = ChatRequest(
    model: string,
    messages: seq<ChatMessage>,
    responseFormat: string,
    temperature: real)

  const ChatModel: string := "gpt-4o"
  const SystemInstruction: string :=
    "You are an expert web developer and designer who creates beautiful, professional websites. Always respond with valid JSON."
  const Temperature: real := 0.7

  /** The chat-completion request: a system message, then the prompt as the user message. */
  function MakeRequest(o: GenerationRequest): (r: ChatRequest)
    ensures r.model == ChatModel && r.responseFormat == "json_object" && r.temperature == Temperature
    ensures |r.messages| == 2
    ensures r.messages[0] == ChatMessage("system", SystemInstruction)
    ensures r.messages[1] == ChatMessage("user", BuildPrompt(o))
  {
    ChatRequest(ChatModel, [ChatMessage("system", SystemInstruction), ChatMessage("user", BuildPrompt(o))], "json_object", Temperature)
  }

  // ----- the answer -----

  /** What the backend call does: throws with a message, or answers with a (possibly missing) content. */
  datatype BackendOutcome = Failed(message: string) | Answered(content: Option<string>)

  const InvalidFormatMessage: string := "Invalid response format from OpenAI"
  /**
   * Stands for the message of the engine's `JSON.parse` error; it is a
   * placeholder, not text of the program, and is only logged and discarded.
   */
  const InvalidJsonMessage: string := "Unexpected token in JSON"

  /** `JSON.parse(content || "{}")`; `parse` is None where `JSON.parse` throws. */
  function ParseContent(content: Option<string>, parse: string -> Option<Json>): (r: Option<Json>)
    ensures !IsSet(content) ==> r == Some(JObject(map[]))
    ensures IsSet(content) ==> r == parse(content.value)
  {
    if IsSet(content) then parse(content.value) else Some(JObject(map[]))
  }

  predicate IsStringArray(items: seq<Json>) {
    forall k :: 0 <= k < |items| ==> items[k].JString?
  }

  /** `Array.isArray(v) ? v : []` on the menu entries. */
  function MenuEntries(v: Json): (r: seq<string>)
    requires v.JArray? ==> IsStringArray(v.items)
    ensures v.JArray? ==> Wrap(r) == v.items
    ensures !v.JArray? ==> r == []
  {
    if v.JArray? then WrapStringsOf(v.items); StringsOf(v.items) else []
  }

  lemma {:induction false} WrapStringsOf(items: seq<Json>)
    requires IsStringArray(items)
    ensures Wrap(StringsOf(items)) == items
  {
    var r := Wrap(StringsOf(items));
    assert |r| == |items|;
    forall k | 0 <= k < |items| ensures r[k] == items[k] {
    }
  }

  /** A text field of the answer that is a non-empty string. */
  predicate TextField(result: Json, key: string) {
    var p := Property(result, key);
    p.Some? && p.value.JString? && p.value.s != ""
  }

  function TextOf(result: Json, key: string): (r: string)
    requires TextField(result, key)
    ensures Property(result, key) == Some(JString(r)) && r != ""
  {
    Property(result, key).value.s
  }

  /**
   * The four-field check: every field present and truthy, the text fields
   * strings, and a menu that is an array of strings or not an array at all.
   */
  function FromAnswer(result: Json): (r: Result<GeneratedWebsite, string>)
    ensures r.Err? ==> r.error == InvalidFormatMessage
    ensures r.Err? <==> !(TruthyProperty(result, "html") && TruthyProperty(result, "css")
                          && TruthyProperty(result, "navigationItems") && TruthyProperty(result, "footerContent"))
                        || !WellTyped(result)
    ensures r.Ok? ==> r.value.html != "" && r.value.css != "" && r.value.footerContent != ""
    ensures r.Ok? ==> && Property(result, "html") == Some(JString(r.value.html))
                      && Property(result, "css") == Some(JString(r.value.css))
                      && Property(result, "footerContent") == Some(JString(r.value.footerContent))
    ensures r.Ok? ==> var nav := Property(result, "navigationItems").value;
                      && (nav.JArray? ==> nav == JArray(Wrap(r.value.navigationItems)))
                      && (!nav.JArray? ==> r.value.navigationItems == [])
  {
    if TruthyProperty(result, "html") && TruthyProperty(result, "css")
       && TruthyProperty(result, "navigationItems") && TruthyProperty(result, "footerContent")
       && WellTyped(result)
    then
      Ok(GeneratedWebsite(
        TextOf(result, "html"), TextOf(result, "css"),
        MenuEntries(Property(result, "navigationItems").value), TextOf(result, "footerContent")))
    else
      Err(InvalidFormatMessage)
  }

  /** The shape the model requires of an answer beyond truthiness. */
  predicate WellTyped(result: Json) {
    && TextField(result, "html") && TextField(result, "css") && TextField(result, "footerContent")
    && Property(result, "navigationItems").Some?
    && var nav := Property(result, "navigationItems").value;
       nav.JArray? ==> IsStringArray(nav.items)
  }

  /** The `try` block: ask the backend, parse, check; any throw becomes `Err(message)`. */
  function Attempt(o: GenerationRequest, backend: ChatRequest -> BackendOutcome, parse: string -> Option<Json>)
    : (r: Result<GeneratedWebsite, string>)
    ensures backend(MakeRequest(o)).Failed? ==> r == Err(backend(MakeRequest(o)).message)
    ensures r.Ok? ==> r.value.html != "" && r.value.css != ""
  {
    match backend(MakeRequest(o))
    case Failed(message) => Err(message)
    case Answered(content) =>
      match ParseContent(content, parse)
      case None => Err(InvalidJsonMessage)
      case Some(result) => FromAnswer(result)
  }

  /** `generateWebsite(options)`: the AI answer when there is a usable one, the demo site otherwise. */
  function GenerateWebsite(o: GenerationRequest, env: Environment,
                           backend: ChatRequest -> BackendOutcome, parse: string -> Option<Json>)
    : (r: GeneratedWebsite)
    ensures r.html != "" && r.css != ""
    ensures !HasUsableKey(env) ==> r == GenerateDemoWebsite(o)
    ensures HasUsableKey(env) && Attempt(o, backend, parse).Err? ==> r == GenerateDemoWebsite(o)
    ensures HasUsableKey(env) && Attempt(o, backend, parse).Ok? ==> r == Attempt(o, backend, parse).value
  {
    if !HasUsableKey(env) then GenerateDemoWebsite(o)
    else
      match Attempt(o, backend, parse)
      case Ok(w) => w
      case Err(_) => GenerateDemoWebsite(o)
  }

  // ----- properties -----

  /** Without a usable key the backend is never consulted: any two backends give the same site. */
  lemma {:induction false} NoKeyIgnoresBackend(o: GenerationRequest, env: Environment,
                            b1: ChatRequest -> BackendOutcome, b2: ChatRequest -> BackendOutcome,
                            p1: string -> Option<Json>, p2: string -> Option<Json>)
    requires !HasUsableKey(env)
    ensures GenerateWebsite(o, env, b1, p1) == GenerateWebsite(o, env, b2, p2)
  {
  }

  /** The two placeholder keys and an unset environment all mean demo mode. */
  lemma {:induction false} PlaceholderKeysMeanDemo(k: string)
    ensures !HasUsableKey(Environment(Some(DemoKey), Some(k)))
    ensures !HasUsableKey(Environment(Some(PlaceholderKey), Some(k)))
    ensures !HasUsableKey(Environment(None, None)) && !HasUsableKey(Environment(Some(""), Some("")))
    ensures HasUsableKey(Environment(Some(""), Some("sk-test")))
  {
    assert ApiKey(Environment(Some(""), Some("sk-test"))) == Some("sk-test");
  }

  /** A backend that throws leads to the demo site, whatever its message. */
  lemma {:induction false} FailureFallsBack(o: GenerationRequest, env: Environment,
                         backend: ChatRequest -> BackendOutcome, parse: string -> Option<Json>)
    requires backend(MakeRequest(o)).Failed?
    ensures GenerateWebsite(o, env, backend, parse) == GenerateDemoWebsite(o)
  {
  }

  /** An empty or missing content parses to `{}`, which lacks every field, so the demo site is used. */
  lemma {:induction false} EmptyContentFallsBack(o: GenerationRequest, env: Environment,
                              backend: ChatRequest -> BackendOutcome, parse: string -> Option<Json>)
    requires backend(MakeRequest(o)) == Answered(None) || backend(MakeRequest(o)) == Answered(Some(""))
    ensures GenerateWebsite(o, env, backend, parse) == GenerateDemoWebsite(o)
  {
    assert !TruthyProperty(JObject(map[]), "html");
  }

  /** An answer missing any of the four fields (or with one of them falsy) leads to the demo site. */
  lemma {:induction false} IncompleteAnswerFallsBack(o: GenerationRequest, env: Environment,
                                  backend: ChatRequest -> BackendOutcome, parse: string -> Option<Json>,
                                  content: string, result: Json, key: string)
    requires backend(MakeRequest(o)) == Answered(Some(content)) && content != ""
    requires parse(content) == Some(result)
    requires key in {"html", "css", "navigationItems", "footerContent"} && !TruthyProperty(result, key)
    ensures GenerateWebsite(o, env, backend, parse) == GenerateDemoWebsite(o)
  {
  }

  /**
   * A well-formed answer is passed through as it is, whatever other
   * properties it carries.
   */
  lemma {:induction false} WellFormedAnswerUsed(o: GenerationRequest, env: Environment,
                             backend: ChatRequest -> BackendOutcome, parse: string -> Option<Json>,
                             content: string, result: Json,
                             html: string, css: string, menu: seq<string>, footer: string)
    requires HasUsableKey(env)
    requires backend(MakeRequest(o)) == Answered(Some(content)) && content != ""
    requires parse(content) == Some(result)
    requires html != "" && css != "" && footer != ""
    requires Property(result, "html") == Some(JString(html)) && Property(result, "css") == Some(JString(css))
    requires Property(result, "navigationItems") == Some(JArray(Wrap(menu)))
    requires Property(result, "footerContent") == Some(JString(footer))
    ensures GenerateWebsite(o, env, backend, parse) == GeneratedWebsite(html, css, menu, footer)
  {
    WellFormedAnswerAccepted(result, html, css, menu, footer);
  }

  lemma {:induction false} WellFormedAnswerAccepted(result: Json, html: string, css: string, menu: seq<string>, footer: string)
    requires html != "" && css != "" && footer != ""
    requires Property(result, "html") == Some(JString(html)) && Property(result, "css") == Some(JString(css))
    requires Property(result, "navigationItems") == Some(JArray(Wrap(menu)))
    requires Property(result, "footerContent") == Some(JString(footer))
    ensures FromAnswer(result) == Ok(GeneratedWebsite(html, css, menu, footer))
  {
    assert WellTyped(result);
    WrapInjective(MenuEntries(JArray(Wrap(menu))), menu);
  }

  lemma {:induction false} WrapInjective(a: seq<string>, b: seq<string>)
    requires Wrap(a) == Wrap(b)
    ensures a == b
  {
    assert |a| == |Wrap(a)| == |Wrap(b)| == |b|;
    forall k | 0 <= k < |a| ensures a[k] == b[k] {
      assert Wrap(a)[k] == JString(a[k]);
    }
  }

  /** A truthy menu field that is not an array is replaced by an empty menu. */
  lemma {:induction false} NonArrayMenuIsEmpty(o: GenerationRequest, env: Environment,
                            backend: ChatRequest -> BackendOutcome, parse: string -> Option<Json>)
    requires HasUsableKey(env) && Attempt(o, backend, parse).Ok?
    requires backend(MakeRequest(o)).Answered?
    requires var p := ParseContent(backend(MakeRequest(o)).content, parse);
             p.Some? && !Property(p.value, "navigationItems").value.JArray?
    ensures GenerateWebsite(o, env, backend, parse).navigationItems == []
  {
  }

  /** The prompt states every image URL, and says "No images provided" when there is none. */
  lemma {:induction false} PromptMentionsImages(o: GenerationRequest, i: nat)
    requires i < |o.imageUrls|
    ensures IsInfix(o.imageUrls[i], BuildPrompt(o))
  {
    var f := PromptFragments(o);
    JoinContains(o.imageUrls, ", ", i);
    var k :| OccursAt(o.imageUrls[i], Join(o.imageUrls, ", "), k);
    OccursInMiddle(ImagesToInclude, Join(o.imageUrls, ", "), "");
    assert f[17] == ImagesToInclude + Join(o.imageUrls, ", ") + "";
    OccursAtTrans(o.imageUrls[i], Join(o.imageUrls, ", "), f[17], k, |ImagesToInclude|);
    ConcatPieceAt(f, 17, o.imageUrls[i], k + |ImagesToInclude|);
  }

  lemma {:induction false} PromptWithoutImages(o: GenerationRequest)
    requires o.imageUrls == []
    ensures OccursAt(NoImages, BuildPrompt(o), |Concat(PromptFragments(o)[..17])|)
  {
    ConcatAt(PromptFragments(o), 17);
  }

  /** The prompt states the name, the description and both colours, in that order. */
  lemma {:induction false} PromptStatesOptions(o: GenerationRequest)
    ensures OccursAt(o.name, BuildPrompt(o), |Concat(PromptFragments(o)[..1])|)
    ensures OccursAt(o.description, BuildPrompt(o), |Concat(PromptFragments(o)[..3])|)
    ensures OccursAt(o.primaryColor, BuildPrompt(o), |Concat(PromptFragments(o)[..13])|)
    ensures OccursAt(o.secondaryColor, BuildPrompt(o), |Concat(PromptFragments(o)[..15])|)
    ensures |Concat(PromptFragments(o)[..1])| + |o.name| <= |Concat(PromptFragments(o)[..3])|
  {
    var f := PromptFragments(o);
    ConcatAt(f, 1);
    ConcatAt(f, 3);
    ConcatAt(f, 13);
    ConcatAt(f, 15);
    ConcatOrdered(f, 1, 3);
  }
  const PromptOpen: string :=
    "\nYou are an expert web developer and designer. Generate a complete, professional website based on the following requirements:\n\nWebsite Name: "

  const PromptDescription: string :=
    "\nDescription: "

  const PromptNavigation: string :=
    "\nInclude Navigation: "

  const PromptFooter: string :=
    "\nInclude Footer: "

  const PromptContactForm: string :=
    "\nInclude Contact Form: "

  const PromptResponsive: string :=
    "\nResponsive Design: "

  const PromptPrimary: string :=
    "\nPrimary Color: "

  const PromptSecondary: string :=
    "\nSecondary Color: "

  const PromptBeforeImages: string :=
    "\n"

  const PromptSteps: string :=
    "\n\nGenerate a complete website with:\n1. Semantic HTML structure\n2. Modern CSS styling with responsive design using the specified color scheme\n3. Navigation menu with relevant sections\n4. Footer with contact information and links\n5. Hero section and content sections\n6. Use the provided primary color ("

  const PromptAndSecondary: string :=
    ") and secondary color ("

  const PromptThroughout: string :=
    ") throughout the design\n7. "

  const PromptBeforeImageStep: string :=
    "\n"

  const PromptColorGuidelines: string :=
    "\n\nColor Usage Guidelines:\n- Use "

  const PromptPrimaryUse: string :=
    " for primary elements like buttons, navigation, headings\n- Use "

  const PromptSecondaryUse: string :=
    " for accents, hover states, and secondary elements\n- Create gradients between these colors where appropriate\n- Ensure good contrast for readability\n\n"

  const PromptClose: string :=
    "\n\nReturn the response as JSON with this exact structure:\n{\n  \"html\": \"complete HTML document\",\n  \"css\": \"complete CSS styles with the specified color scheme\",\n  \"navigationItems\": [\"array\", \"of\", \"navigation\", \"menu\", \"items\"],\n  \"footerContent\": \"footer content description\"\n}\n\nMake the design modern, professional, and visually appealing. Use contemporary web design patterns, proper spacing, and good typography. Ensure the content is relevant to the website description provided.\n"

  const ImagesToInclude: string :=
    "Images to Include: "

  const NoImages: string :=
    "No images provided"

  const ContactFormWanted: string :=
    "A contact form"

  const NoContactForm: string :=
    "No contact form needed"

  const ImageLayoutStep: string :=
    "8. Include the provided images in an attractive layout - use the first image as a hero background if appropriate"

  const ImageIntegrationOpen: string :=
    "\nImage Integration:\n- First image: Use as hero background or prominent feature\n- Additional images: Create an image gallery or integrate throughout content\n- All images should use the provided URLs: "

  const ImageIntegrationClose: string :=
    "\n- Add proper alt tags and responsive sizing\n"

}
