# AI website generator: a Dafny model of its core

The application takes a website description (name, description, feature
flags, two colours, image URLs and a style template) and produces an HTML
page with its stylesheet. It stores the result and serves it back as a
preview. This project models the following parts and proves properties
about them.

- **Schema** (`shared/schema.ts`): the generation request validator and the
  style preview validator. Each is specified as a validator that fills in
  defaults, and is proved to accept exactly the bodies its rules allow.
- **Demo generator and AI adapter** (`server/services/openai.ts`):
  - `generateDemoWebsite`, modelled as a concatenation of fragments, one
    fragment per block. Each block is switched by its flag.
  - The `generateWebsite` decision, which reads the API key from the
    environment, builds the prompt and the chat request, checks the answer,
    and falls back to the demo page.
- **Storage** (`server/storage.ts`): `MemStorage`, a class whose user and
  website maps are updated in place. Listing sorts newest first, is stable,
  and slices by `limit`.
- **Routes** (`server/routes.ts`):
  - the preview document and the 404 page;
  - the record built from a request and its generated content;
  - the 400/500 choice;
  - the reading of `limit` via `parseInt(…) || 10`.
- **Client helpers**:
  - the download document and file name, the escaped HTML of the view-code
    window, and the preview frame size (`website-preview.tsx`);
  - the image-URL list edits, the form defaults and the copy of the style
    into the form (`website-generator.tsx`);
  - the template table, the font table, template selection, and the merge
    of a partial style (`style-preview.tsx`).

The files are:
- `wrappers.dfy`, `strings.dfy` and `json.dfy`: general definitions for
  options and results, string operations (lower-casing, `\s+` replacement,
  one-character replacement, decimal numerals), and JSON values with
  JavaScript truthiness.
- `demo_template.dfy`: the literal text of the demo page.
- `demo.dfy`, `adapter.dfy`, `schema.dfy`, `storage.dfy`, `routes.dfy`,
  `preview.dfy`, `generator.dfy` and `styles.dfy`: the model itself, one
  file per source file.

Several things become inputs rather than being computed:
- The generated id (`randomUUID`) and the time (`new Date()`) are
  parameters of `CreateUser` and `CreateWebsite`.
- The environment variables are an `Environment` value.
- The OpenAI call is a function from the chat request to a
  `BackendOutcome`: a thrown error, or the message content, which may be
  absent.
- `JSON.parse` is a function from a string to an optional JSON value; None
  means it threw.
- Zod's `.url()` check is a predicate `validUrl`.

Behaviour worth knowing:
- Ties on `createdAt` in `getUserWebsites` keep insertion order, because
  `Array.prototype.sort` is stable. The model proves this (`SortIsStable`).
- On the AI path, the stored `navigationItems` are whatever the answer
  held, even when navigation was switched off.
- `limit` may come out negative (`"-3"`), and then `slice(0, -3)` drops the
  last three records.

## Model

All source paths are relative to the repository root `app_generation_basic-main/`.

| member | source | states |
|---|---|---|
| Schema.Validate | app_generation_basic-main/shared/schema.ts:44-55 | a rejected body carries at least one issue; an accepted request has a non-empty name, a description of at least 50 characters and two `#RRGGBB` colours |
| Schema.ValidateAcceptsExactly | app_generation_basic-main/shared/schema.ts:44-55 | the validator accepts a body if and only if every field is well typed or absent, meets its length, colour, URL and enum rule, and the required fields are present |
| Schema.ValidateFillsDefaults | app_generation_basic-main/shared/schema.ts:47-54 | a body with only a name and a description gets flags true/true/false/true, colours `#667eea`/`#764ba2`, no images and the modern template |
| Schema.ValidateKeepsGivenValues | app_generation_basic-main/shared/schema.ts:44-55 | every field of an accepted request equals the value given in the body, or the default when the field was absent |
| Schema.DescriptionLengthRule | app_generation_basic-main/shared/schema.ts:46 | a given description passes if and only if it has at least 50 characters; 49 characters are rejected with the schema's message |
| Schema.CheckColor | app_generation_basic-main/shared/schema.ts:51-52 | an accepted colour matches `^#[0-9A-F]{6}$` case-insensitively; with a valid default the field is accepted if and only if it is absent or a valid colour |
| Schema.CheckUrls | app_generation_basic-main/shared/schema.ts:53 | the URL list is accepted if and only if it is absent or an array of strings that are all URLs; every accepted entry is a URL |
| Schema.HexColorExamples | app_generation_basic-main/shared/schema.ts:51 | mixed case is accepted; non-hex digits, a seventh digit and a missing `#` are rejected; both defaults are valid |
| Schema.EnumKeysRoundTrip | app_generation_basic-main/shared/schema.ts:54-62 | every template, font and layout parses back from its key |
| Schema.ParseTemplate | app_generation_basic-main/shared/schema.ts:54 | a key parses if and only if it is one of the five template names, and parses to the template with that key |
| Schema.ValidateStylePreview | app_generation_basic-main/shared/schema.ts:57-63 | a rejected style carries an issue; an accepted one has two valid colours |
| Schema.ValidateStyleAcceptsExactly | app_generation_basic-main/shared/schema.ts:57-63 | a style body is accepted exactly when it is an object with a known template key, two `#RRGGBB` colours, and a known font and layout or none |
| Schema.ValidateStyleKeepsGivenValues | app_generation_basic-main/shared/schema.ts:57-63 | an accepted style carries the given template and colours; font and layout are the given ones, or inter and centered when absent |
| Schema.StylePreviewRoundTrip | app_generation_basic-main/shared/schema.ts:57-63 | a style with valid colours passes through its JSON form and the schema unchanged |
| Schema.StylePreviewDefaults | app_generation_basic-main/shared/schema.ts:58-62 | font and layout default to inter and centered; a missing template is reported as required |
| Demo.HtmlFragments | app_generation_basic-main/server/services/openai.ts:46-135 | the page's blocks: the menu is present if and only if navigation is on, hero image and gallery if and only if there are images, the contact form and footer if and only if their flags are on; the title and description are the request's |
| Demo.GenerateDemoWebsite | app_generation_basic-main/server/services/openai.ts:27-434 | the menu is Home, About, Services, Contact with navigation on and empty otherwise; page and stylesheet are non-empty; the footer text names the site |
| Demo.DemoHtmlPlacesFragments | app_generation_basic-main/server/services/openai.ts:46-135 | every block appears in the page at its offset, each one before the blocks that follow it |
| Demo.HeroUsesFirstImage | app_generation_basic-main/server/services/openai.ts:59-63 | with images, the hero block shows the first URL |
| Demo.GalleryPicturePlaced | app_generation_basic-main/server/services/openai.ts:31-44 | the i-th URL appears in the page as gallery picture number i+1 |
| Demo.GalleryPicturesInOrder | app_generation_basic-main/server/services/openai.ts:36-40 | gallery pictures appear in the order of the URL list and do not overlap |
| Demo.GalleryAltText | app_generation_basic-main/server/services/openai.ts:38 | the alt text holds the picture's number in decimal, and different numbers give different pictures |
| Demo.MenuLinks | app_generation_basic-main/server/services/openai.ts:52 | the four menu links point to `#home`, `#about`, `#services` and `#contact`, captioned with the item |
| Demo.FooterLinksWithoutMenu | app_generation_basic-main/server/services/openai.ts:108-133 | with the footer on but navigation off, the footer's quick-link list is empty |
| Demo.EmailSlugIsAddressSafe | app_generation_basic-main/server/services/openai.ts:124 | the contact address part has no whitespace and no capitals, and is the lower-cased name when the name has no whitespace |
| Demo.CssFragments | app_generation_basic-main/server/services/openai.ts:137-426 | both gradients run from the primary to the secondary colour; three rules use the chosen colours; the hero rule has extra layout if and only if there are images; the media block is present if and only if responsive |
| Demo.CssUsesColours | app_generation_basic-main/server/services/openai.ts:137-426 | every stylesheet fragment, including the gradients and colour rules, appears at its offset in order |
| Demo.CssEndsWithMediaIffResponsive | app_generation_basic-main/server/services/openai.ts:407-426 | the stylesheet ends with the `@media (max-width: 768px)` block if and only if the design is responsive |
| Adapter.ApiKey | app_generation_basic-main/server/services/openai.ts:438 | the key is `OPENAI_API_KEY` when that is non-empty, otherwise `OPENAI_API_KEY_ENV_VAR` when non-empty, otherwise absent |
| Adapter.ClientKey | app_generation_basic-main/server/services/openai.ts:4-6 | the client's key is the chosen key, or `default_key` when none is set; it configures the client only and never decides the result |
| Adapter.PlaceholderKeysMeanDemo | app_generation_basic-main/server/services/openai.ts:440 | `default_key`, the placeholder key, an unset key and empty keys all mean demo mode; a real key in the second variable does not |
| Adapter.GenerateWebsite | app_generation_basic-main/server/services/openai.ts:436-541 | without a usable key, or when the attempt throws, the result is the demo page; otherwise it is the checked answer; the page and stylesheet are never empty |
| Adapter.NoKeyIgnoresBackend | app_generation_basic-main/server/services/openai.ts:440-443 | without a usable key the backend and the parser are never consulted |
| Adapter.FailureFallsBack | app_generation_basic-main/server/services/openai.ts:522-540 | any backend error, quota-related or not, gives the demo page |
| Adapter.EmptyContentFallsBack | app_generation_basic-main/server/services/openai.ts:510-514 | absent or empty content parses as `{}`, fails the check and gives the demo page |
| Adapter.IncompleteAnswerFallsBack | app_generation_basic-main/server/services/openai.ts:512-514 | an answer missing any of the four fields, or holding a falsy one, gives the demo page |
| Adapter.WellFormedAnswerUsed | app_generation_basic-main/server/services/openai.ts:510-521 | with a usable key, an answer whose html, css and footer are non-empty strings and whose menu is an array is returned field for field, whatever other properties it has |
| Adapter.NonArrayMenuIsEmpty | app_generation_basic-main/server/services/openai.ts:519 | a truthy menu that is not an array is replaced by an empty menu |
| Adapter.FromAnswer | app_generation_basic-main/server/services/openai.ts:512-521 | the answer is rejected with "Invalid response format from OpenAI" if and only if a field is falsy or malformed; an accepted one carries the answer's html, css and footer, and its menu array, or no menu when that property is not an array |
| Adapter.MakeRequest | app_generation_basic-main/server/services/openai.ts:494-508 | model gpt-4o, JSON response format, temperature 0.7, a system message and then the prompt as the user message |
| Adapter.PromptStatesOptions | app_generation_basic-main/server/services/openai.ts:445-456 | the prompt names the site, then the description, and states both colours |
| Adapter.PromptMentionsImages | app_generation_basic-main/server/services/openai.ts:456 | every image URL occurs in the prompt |
| Adapter.PromptWithoutImages | app_generation_basic-main/server/services/openai.ts:456 | without images the prompt says "No images provided" |
| Storage.SortNewestFirst | app_generation_basic-main/server/storage.ts:57 | the sorted list is a permutation of the input |
| Storage.SortIsNewestFirst | app_generation_basic-main/server/storage.ts:57 | the sorted list is in descending `createdAt` order, with a missing date counted as 0 |
| Storage.SortIsStable | app_generation_basic-main/server/storage.ts:57 | records with equal dates keep their insertion order |
| Storage.SliceEnd | app_generation_basic-main/server/storage.ts:58 | `slice(0, limit)` keeps `limit` records when 0 <= limit < n and all n when limit >= n; a negative limit drops that many from the end |
| Storage.MemStorage.GetUserByUsername | app_generation_basic-main/server/storage.ts:27-31 | the first user in insertion order with that username, or nothing if and only if no user has it |
| Storage.MemStorage.GetUser | app_generation_basic-main/server/storage.ts:23-25 | a user comes back if and only if the id is stored, and it is the user stored under that id |
| Storage.MemStorage.CreateUser | app_generation_basic-main/server/storage.ts:33-38 | the user gets the given id, is stored under it, and websites are unchanged |
| Storage.MemStorage.CreateWebsite | app_generation_basic-main/server/storage.ts:44-53 | the record gets the given id and creation time, is stored under its id, and users are unchanged |
| Storage.MemStorage.GetWebsite | app_generation_basic-main/server/storage.ts:40-42 | the record stored under the id, or nothing if and only if there is none |
| Storage.MemStorage.GetUserWebsites | app_generation_basic-main/server/storage.ts:55-59 | the newest-first prefix of the stored records, at most `limit` (default 10) of them, each stored under its own id, with no id twice |
| Storage.CreateUserThenGet | app_generation_basic-main/server/storage.ts:23-38 | a user just created is found by its id, with the given name and password |
| Storage.CreateThenGet | app_generation_basic-main/server/storage.ts:40-53 | a record just created is found by its id |
| Storage.NewestTwoOfThree | app_generation_basic-main/server/storage.ts:55-59 | of three records created at increasing times, a limit of 2 lists the last and then the middle one |
| Routes.PreviewShowsWebsite | app_generation_basic-main/server/routes.ts:87-101 | the preview's title is the name or "Generated Website"; the reset rule is followed by the stylesheet; the body shows the page or "No content available" |
| Routes.PreviewRoute | app_generation_basic-main/server/routes.ts:75-104 | a known id gets the preview document; an unknown id gets status 404 and the not-found page |
| Routes.GetWebsiteRoute | app_generation_basic-main/server/routes.ts:49-55 | a known id gets its record; an unknown id gets 404 "Website not found" |
| Routes.ParseLimit | app_generation_basic-main/server/routes.ts:65 | the limit is never 0, and is 10 when the query is absent |
| Routes.ParseInt | app_generation_basic-main/server/routes.ts:65 | a blank string is NaN; a number needs a digit or a sign as its first non-space character, and comes out negative only after a minus sign |
| Routes.LimitReadsNumeral | app_generation_basic-main/server/routes.ts:65 | a positive count written in decimal is read back as itself |
| Routes.LimitFallsBackToTen | app_generation_basic-main/server/routes.ts:65 | absent, empty, `"0"` and non-numeric limits become 10 |
| Routes.LimitIgnoresTrailingText | app_generation_basic-main/server/routes.ts:65 | `"25abc"` reads as 25 |
| Routes.LimitReadsHex | app_generation_basic-main/server/routes.ts:65 | `"0x10"` reads as 16 |
| Routes.LimitReadsSign | app_generation_basic-main/server/routes.ts:65 | leading whitespace is skipped and a minus sign kept: `" -3"` reads as -3 |
| Routes.ListRoute | app_generation_basic-main/server/routes.ts:63-67 | status 200 with the newest-first prefix of the stored records cut at the parsed limit |
| Routes.RecordKeepsRequestAndContent | app_generation_basic-main/server/routes.ts:16-30 | the stored record gives back the whole request except its template, and the whole generated content |
| Routes.ErrorReply | app_generation_basic-main/server/routes.ts:33-45 | 400 with "Validation error" and the issues if and only if validation failed; 500 otherwise, with the error's message or "Failed to generate website" |
| Routes.GenerateRoute | app_generation_basic-main/server/routes.ts:10-46 | an invalid body gets the 400 reply and leaves the store unchanged; a valid one is generated, stored under the new id with its time, and returned; the id joins the end of the insertion order when new, and the users are untouched |
| Routes.GeneratedRecordHasContent | app_generation_basic-main/server/routes.ts:14-22 | a stored generated record always has a non-empty page and stylesheet |
| WebsitePreview.DownloadShowsWebsite | app_generation_basic-main/client/src/components/website-preview.tsx:18-32 | the download's title is the name, the style block begins with the stylesheet verbatim, and the body begins with the page verbatim |
| WebsitePreview.DownloadFilenameShape | app_generation_basic-main/client/src/components/website-preview.tsx:38 | the file name is a stem plus `.html`; the stem has no whitespace and no capitals, and is the lower-cased name when the name has no whitespace |
| WebsitePreview.DownloadFilenameTwoWords | app_generation_basic-main/client/src/components/website-preview.tsx:38 | two words without whitespace, separated by any whitespace run, give the file name `a-b.html` with both words lower-cased |
| WebsitePreview.HandleDownload | app_generation_basic-main/client/src/components/website-preview.tsx:15-38 | there is a download if and only if a website is shown, with that website's document and file name |
| WebsitePreview.EscapeRemovesBrackets | app_generation_basic-main/client/src/components/website-preview.tsx:70 | the escaped HTML holds no `<` and no `>`, so escaping twice is escaping once |
| WebsitePreview.EscapeInOnePass | app_generation_basic-main/client/src/components/website-preview.tsx:70 | the two global replacements equal one character-by-character escape |
| WebsitePreview.UnescapeEscape | app_generation_basic-main/client/src/components/website-preview.tsx:70 | for a page without `&`, decoding `&lt;` and `&gt;` gives the page back |
| WebsitePreview.CodePageShowsWebsite | app_generation_basic-main/client/src/components/website-preview.tsx:55-78 | the HTML section shows the escaped page, which holds no tag; it comes before the CSS section, which shows the stylesheet unescaped |
| WebsitePreview.HandleViewCode | app_generation_basic-main/client/src/components/website-preview.tsx:50-80 | the code page is written if and only if a website is shown and a window opened |
| WebsitePreview.PreviewWidths | app_generation_basic-main/client/src/components/website-preview.tsx:82-91 | mobile 375px, tablet 768px, desktop 100%; the three devices get distinct frames |
| WebsitePreview.PreviewStyle | app_generation_basic-main/client/src/components/website-preview.tsx:82-91 | the frame is always 600px high |
| GeneratorForm.FormDefaultsMatchSchema | app_generation_basic-main/client/src/components/website-generator.tsx:37-48 | once name and description are filled in, the form's defaults are the request the schema builds from those two fields |
| GeneratorForm.AddImageUrl | app_generation_basic-main/client/src/components/website-generator.tsx:93-96 | one empty entry is appended; the earlier entries are unchanged |
| GeneratorForm.RemoveImageUrlSpec | app_generation_basic-main/client/src/components/website-generator.tsx:98-101 | exactly position i is deleted and the rest stay in order; an out-of-range i leaves the list unchanged |
| GeneratorForm.KeepOthersDeletes | app_generation_basic-main/client/src/components/website-generator.tsx:100 | the index filter, started at any position, deletes the entry at that index if it is in range |
| GeneratorForm.RemoveUndoesAdd | app_generation_basic-main/client/src/components/website-generator.tsx:93-101 | removing the entry just added gives the list back |
| GeneratorForm.UpdateImageUrl | app_generation_basic-main/client/src/components/website-generator.tsx:103-108 | the copy equals the list with position i set to the value; other positions and the length are unchanged |
| GeneratorForm.SyncStyle | app_generation_basic-main/client/src/components/website-generator.tsx:52-56 | the form takes the style's two colours and template; every other field is unchanged |
| GeneratorForm.InitialSyncKeepsDefaults | app_generation_basic-main/client/src/components/website-generator.tsx:26-56 | the initial style agrees with the form defaults, so the first copy changes nothing |
| GeneratorForm.Form.UpdateImage | app_generation_basic-main/client/src/components/website-generator.tsx:103-108 | the form's list is updated at the index and nothing else in the form changes |
| GeneratorForm.Form.constructor | app_generation_basic-main/client/src/components/website-generator.tsx:26-49 | a new form holds the default values and the Modern starting style |
| GeneratorForm.Form.AddImage | app_generation_basic-main/client/src/components/website-generator.tsx:93-96 | the form's image list gets one empty entry appended; the style and the other fields are unchanged |
| GeneratorForm.Form.RemoveImage | app_generation_basic-main/client/src/components/website-generator.tsx:98-101 | the entry at the index is removed from the form's image list; the style and the other fields are unchanged |
| GeneratorForm.Form.ChangeStyle | app_generation_basic-main/client/src/components/website-generator.tsx:52-56 | the new style is kept, and the form takes its two colours and template with every other field unchanged |
| StylePanel.TemplateTableWellFormed | app_generation_basic-main/client/src/components/style-preview.tsx:15-64 | every template's font is a key of the font table and of the schema, its layout is allowed, and both its colours are `#RRGGBB` |
| StylePanel.FontTableMatchesSchema | app_generation_basic-main/client/src/components/style-preview.tsx:58-64 | the font table's keys are exactly the schema's five fonts |
| StylePanel.InitialStyleIsModern | app_generation_basic-main/client/src/components/website-generator.tsx:26-32 | the form's starting style is the Modern template, with the schema's default colours |
| StylePanel.HandleTemplateSelect | app_generation_basic-main/client/src/components/style-preview.tsx:69-79 | the new style has the chosen template and that template's colours, font and layout, and is valid |
| StylePanel.SelectedTemplatePassesSchema | app_generation_basic-main/client/src/components/style-preview.tsx:69-79 | a selected template's style is accepted unchanged by the style schema |
| StylePanel.HandleStyleChange | app_generation_basic-main/client/src/components/style-preview.tsx:81-86 | each field is the changed value when given and the current value otherwise |
| StylePanel.StyleChangeLaws | app_generation_basic-main/client/src/components/style-preview.tsx:81-86 | an empty change keeps the style; applying a change twice is applying it once |
| StylePanel.FullChangeReplaces | app_generation_basic-main/client/src/components/style-preview.tsx:81-86 | a change that gives every field replaces the current style entirely |
| StylePanel.StyleChangesCompose | app_generation_basic-main/client/src/components/style-preview.tsx:81-86 | two changes in a row are one change in which the later field wins |
| StylePanel.ColourChangeValidity | app_generation_basic-main/client/src/components/style-preview.tsx:81-86 | a colour change keeps the style valid if and only if the new colour is valid |
| StylePanel.PreviewColours | app_generation_basic-main/client/src/components/style-preview.tsx:88-103 | for any colours, the background is a 135deg gradient from the primary to the secondary colour, each with the `20` alpha suffix and in that order; the secondary style sets no background; for valid colours both gradient colours decode at alpha 0x20 and the secondary border is the secondary colour at alpha 0x50 |
| StylePanel.PreviewFont | app_generation_basic-main/client/src/components/style-preview.tsx:89 | the preview font is one of the font table's stacks |
| StylePanel.PreviewFontFollowsChoice | app_generation_basic-main/client/src/components/style-preview.tsx:89 | two styles get the same preview font if and only if they choose the same font |

## Left out

- The OpenAI client and its network call; `JSON.parse`; all logging. The call's outcome and the parser are inputs.
- The quota check in `generateWebsite`'s `catch` block only chooses a log message. Both branches return the demo page, so the model has one fallback.
- `randomUUID` and `new Date()` are inputs. Dates are integers (milliseconds), with a missing date read as 0.
- The drizzle tables and `createInsertSchema`, other than the record types they define.
- Express itself: `res.status`, headers, `createServer`, and the request-parsing middleware.
- The 500 pages and messages for a preview, a fetch or a list that fails. In this model storage cannot throw.
- React rendering, hooks, toasts, `Blob`/`URL.createObjectURL`, `window.open` and the iframe. Only whether a window opened is an input.
- `client/src/pages/home.tsx` (confetti, timers) and `loading-dots.tsx`, which are presentation only.
- Zod's `.url()` rule, which is a parameter `validUrl`.
- Zod's full issue objects. An issue has only a path and a kind.
- String length counts characters, not UTF-16 code units. Lower-casing and `\s` are ASCII only.
- Adapter.FromAnswer: the source accepts any truthy `html`, `css` and `footerContent`. The model requires them to be non-empty strings, and a `navigationItems` array to hold only strings; other answers are malformed and fall back to the demo page. A truthy `navigationItems` that is not an array becomes `[]`, as in the source.
- Routes.ParseInt: numbers are unbounded. It does not model the loss of precision above 2^53, the Unicode whitespace that `parseInt` also skips, or a repeated `limit` query, which Express turns into an array.
- StylePanel.HandleStyleChange: a field is given or left out. A field explicitly set to `undefined` is not modelled.
- GeneratorForm.UpdateImageUrl: an index at or past the end would leave holes in a JavaScript array. The model leaves the list unchanged for any out-of-range index.
- The form submission, the mutation and its toasts in `website-generator.tsx`.
- The store's methods are modelled as synchronous. The `async`/`Promise` wrapping is left out, because no method awaits anything.
