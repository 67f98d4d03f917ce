/**
 * The HTTP handlers, with the transport left out: each route is a method
 * from the store and the request parts to a `Reply` (status and body).
 */
module Routes {
  import opened Wrappers
  import opened Strings
  import opened Json
  import opened Schema
  import opened Demo
  import opened Adapter
  import opened Storage

  datatype ReplyBody =
    | Page(html: string)
    | Record(website: Website)
    | Records(websites: seq<Website>)
    | Message(message: string)
    | ValidationFailure(message: string, errors: seq<Issue>)

  datatype Reply = Reply(status: int, body: ReplyBody)

  // ----- the preview document -----

  const PreviewHead: string :=
    "<!DOCTYPE html>\n<html lang=\"en\">\n<head>\n    <meta charset=\"UTF-8\">\n    <meta name=\"viewport\" content=\"width=device-width, initial-scale=1.0\">\n    <title>"
  const PreviewStyleOpen: string := "</title>\n    <style>\n      "
  const BodyReset: string := "body { margin: 0; padding: 0; }\n      "
  const PreviewBeforeBody: string := "\n    </style>\n</head>\n<body>\n    "
  const PreviewClose: string := "\n</body>\n</html>"
  const DefaultTitle: string := "Generated Website"
  const NoContentPlaceholder: string :=
    "<div style=\"padding: 20px; text-align: center; color: #666;\">No content available</div>"
  const NotFoundPage: string :=
    "\n          <html><body style=\"font-family: Arial; padding: 40px; text-align: center;\">\n            <h2>Website Not Found</h2>\n            <p>The requested website preview could not be found.</p>\n          </body></html>\n        "
  const NotFoundMessage: string := "Website not found"

  /** `s || fallback` on a string. */
  function OrElse(s: string, fallback: string): (r: string)
    ensures s != "" ==> r == s
    ensures s == "" ==> r == fallback
  {
    if s != "" then s else fallback
  }

  const TitleSlot: nat := 1
  const CssSlot: nat := 4
  const BodySlot: nat := 6

  function PreviewFragments(w: Website): (f: seq<string>)
    ensures |f| == 8
    ensures f[TitleSlot] == OrElse(w.data.name, DefaultTitle)
    ensures f[3] == BodyReset && f[CssSlot] == w.data.generatedCss
    ensures f[BodySlot] == OrElse(w.data.generatedHtml, NoContentPlaceholder)
  {
    [ PreviewHead, OrElse(w.data.name, DefaultTitle),
      PreviewStyleOpen, BodyReset, OrElse(w.data.generatedCss, ""),
      PreviewBeforeBody, OrElse(w.data.generatedHtml, NoContentPlaceholder),
      PreviewClose ]
  }

  /** The page `/preview/:id` serves for a stored website. */
  function PreviewDocument(w: Website): string {
    Concat(PreviewFragments(w))
  }

  /**
   * The title is the name, or "Generated Website" for an empty name; the
   * style block is the reset rule followed by the stylesheet as stored; the
   * body is the page as stored, or a placeholder when it is empty.
   */
  lemma {:induction false} PreviewShowsWebsite(w: Website)
    ensures var f := PreviewFragments(w);
      && OccursAt(OrElse(w.data.name, DefaultTitle), PreviewDocument(w), |PreviewHead|)
      && OccursAt(BodyReset + w.data.generatedCss, PreviewDocument(w), |Concat(f[..3])|)
      && OccursAt(OrElse(w.data.generatedHtml, NoContentPlaceholder), PreviewDocument(w), |Concat(f[..BodySlot])|)
      && |Concat(f[..3])| + |BodyReset + w.data.generatedCss| <= |Concat(f[..BodySlot])|
  {
    PreviewTitlePlaced(w);
    PreviewStylePlaced(w);
    ConcatAt(PreviewFragments(w), BodySlot);
  }

  lemma {:induction false} PreviewTitlePlaced(w: Website)
    ensures OccursAt(OrElse(w.data.name, DefaultTitle), PreviewDocument(w), |PreviewHead|)
  {
    var f := PreviewFragments(w);
    ConcatAt(f, TitleSlot);
    assert Concat(f[..TitleSlot]) == PreviewHead by {
      assert f[..1] == [PreviewHead];
    }
  }

  lemma {:induction false} PreviewStylePlaced(w: Website)
    ensures var f := PreviewFragments(w);
      && OccursAt(BodyReset + w.data.generatedCss, PreviewDocument(w), |Concat(f[..3])|)
      && |Concat(f[..3])| + |BodyReset + w.data.generatedCss| <= |Concat(f[..BodySlot])|
  {
    var f := PreviewFragments(w);
    ConcatOrdered(f, CssSlot, BodySlot);
    PairAt(f, 3);
    ConcatSnoc(f[..CssSlot]);
    assert f[..CssSlot][..3] == f[..3];
  }

  /** `/preview/:id`: the preview document, or the not-found page with status 404. */
  method PreviewRoute(store: MemStorage, id: string) returns (reply: Reply)
    ensures id in store.websites ==> reply == Reply(200, Page(PreviewDocument(store.websites[id])))
    ensures id !in store.websites ==> reply == Reply(404, Page(NotFoundPage))
  {
    var website := store.GetWebsite(id);
    if website.None? {
      return Reply(404, Page(NotFoundPage));
    }
    reply := Reply(200, Page(PreviewDocument(website.value)));
  }

  /** `GET /api/websites/:id`: the record, or a 404 message. */
  method GetWebsiteRoute(store: MemStorage, id: string) returns (reply: Reply)
    ensures id in store.websites ==> reply == Reply(200, Record(store.websites[id]))
    ensures id !in store.websites ==> reply == Reply(404, Message(NotFoundMessage))
  {
    var website := store.GetWebsite(id);
    if website.None? {
      return Reply(404, Message(NotFoundMessage));
    }
    reply := Reply(200, Record(website.value));
  }

  // ----- the list route and its `limit` -----

  /** The value of digit `c` in base `radix` (10 or 16), None when `c` is not one. */
  function DigitIn(c: char, radix: nat): (r: Option<nat>)
    ensures r.Some? ==> r.value < radix || radix < 10
    ensures radix == 10 ==> (r.Some? <==> IsDigit(c))
    ensures radix == 10 && IsDigit(c) ==> r == Some(DigitValue(c))
  {
    if '0' <= c <= '9' && (c as int - '0' as int) < radix then Some(c as int - '0' as int)
    else if radix == 16 && 'a' <= c <= 'f' then Some(c as int - 'a' as int + 10)
    else if radix == 16 && 'A' <= c <= 'F' then Some(c as int - 'A' as int + 10)
    else None
  }

  /** The longest prefix of `s` made of digits of the base. */
  function DigitPrefix(s: string, radix: nat): (r: string)
    ensures |r| <= |s| && r == s[..|r|]
    ensures forall k :: 0 <= k < |r| ==> DigitIn(r[k], radix).Some?
    ensures |r| < |s| ==> DigitIn(s[|r|], radix).None?
  {
    if s == [] || DigitIn(s[0], radix).None? then [] else [s[0]] + DigitPrefix(s[1..], radix)
  }

  function DigitsIn(ds: string, radix: nat): nat
    requires forall k :: 0 <= k < |ds| ==> DigitIn(ds[k], radix).Some?
  {
    if ds == [] then 0 else DigitsIn(ds[..|ds| - 1], radix) * radix + DigitIn(ds[|ds| - 1], radix).value
  }

  /**
   * `parseInt(s)` with no radix: leading whitespace, an optional sign, an
   * optional `0x` that switches to base 16, then the longest run of digits.
   * None stands for NaN.
   */
  function ParseInt(s: string): (r: Option<int>)
    ensures DropSpaceRun(s) == [] ==> r.None?
    ensures r.Some? ==> IsDigit(DropSpaceRun(s)[0]) || DropSpaceRun(s)[0] == '-' || DropSpaceRun(s)[0] == '+'
    ensures r.Some? && r.value < 0 ==> DropSpaceRun(s)[0] == '-'
  {
    var t := DropSpaceRun(s);
    var negative := t != [] && t[0] == '-';
    var u := if t != [] && (t[0] == '-' || t[0] == '+') then t[1..] else t;
    var hex := |u| >= 2 && u[0] == '0' && (u[1] == 'x' || u[1] == 'X');
    var radix := if hex then 16 else 10;
    var ds := DigitPrefix(if hex then u[2..] else u, radix);
    var magnitude: int := if ds == [] then 0 else DigitsIn(ds, radix);
    if ds == [] then None else Some(if negative then -magnitude else magnitude)
  }

  /** `parseInt(req.query.limit) || 10`: NaN and 0 (and an absent query) become 10. */
  function ParseLimit(query: Option<string>): (r: int)
    ensures r != 0
    ensures query.None? ==> r == DefaultListLimit
  {
    if query.None? then DefaultListLimit
    else match ParseInt(query.value)
      case None => DefaultListLimit
      case Some(n) => if n == 0 then DefaultListLimit else n
  }

  lemma {:induction false} DecimalDigitsValue(ds: string)
    requires forall k :: 0 <= k < |ds| ==> IsDigit(ds[k])
    ensures DigitsIn(ds, 10) == DigitsValue(ds)
  {
    if ds != [] {
      DecimalDigitsValue(ds[..|ds| - 1]);
    }
  }

  lemma {:induction false} DigitPrefixOfNumeral(ds: string)
    requires forall k :: 0 <= k < |ds| ==> IsDigit(ds[k])
    ensures DigitPrefix(ds, 10) == ds
  {
    if ds != [] {
      DigitPrefixOfNumeral(ds[1..]);
    }
  }

  /** A plain string of decimal digits is read as its decimal value. */
  lemma {:induction false} ParseIntDecimal(ds: string)
    requires ds != [] && forall k :: 0 <= k < |ds| ==> IsDigit(ds[k])
    ensures ParseInt(ds) == Some(DigitsValue(ds))
  {
    assert !IsSpace(ds[0]) && ds[0] != '-' && ds[0] != '+';
    assert DropSpaceRun(ds) == ds;
    assert !(|ds| >= 2 && ds[0] == '0' && (ds[1] == 'x' || ds[1] == 'X')) by {
      if |ds| >= 2 {
        assert IsDigit(ds[1]);
      }
    }
    DigitPrefixOfNumeral(ds);
    DecimalDigitsValue(ds);
  }

  /** A positive count written in decimal is read back as that count. */
  lemma {:induction false} LimitReadsNumeral(n: nat)
    requires n > 0
    ensures ParseLimit(Some(NatToString(n))) == n
  {
    ParseIntDecimal(NatToString(n));
    NatToStringRoundTrip(n);
  }

  /** Absent, empty, zero and non-numeric values fall back to 10. */
  lemma {:induction false} LimitFallsBackToTen()
    ensures ParseLimit(None) == 10 && ParseLimit(Some("")) == 10
    ensures ParseLimit(Some("0")) == 10 && ParseLimit(Some("abc")) == 10
  {
    assert DropSpaceRun("abc") == "abc" && DigitPrefix("abc", 10) == [];
    ParseIntDecimal("0");
    assert DigitsValue("0") == 0 by { assert "0"[..0] == []; }
  }

  /** Characters after the digits are ignored. */
  lemma {:induction false} LimitIgnoresTrailingText()
    ensures ParseLimit(Some("25abc")) == 25
  {
    assert DropSpaceRun("25abc") == "25abc";
    assert DigitPrefix("abc", 10) == [];
    assert DigitPrefix("5abc", 10) == "5";
    assert DigitPrefix("25abc", 10) == "25";
    assert "25"[..1] == "2";
    assert DigitsIn("25", 10) == 25;
  }

  /** A `0x` prefix switches to base 16. */
  lemma {:induction false} LimitReadsHex()
    ensures ParseLimit(Some("0x10")) == 16
  {
    assert DropSpaceRun("0x10") == "0x10";
    assert "0x10"[2..] == "10";
    HexTen();
  }

  lemma {:induction false} HexTen()
    ensures DigitPrefix("10", 16) == "10" && DigitsIn("10", 16) == 16
  {
    assert DigitPrefix("0", 16) == "0";
    assert "10"[..1] == "1";
  }

  /** Leading spaces are skipped and a minus sign is kept, so the limit can be negative. */
  lemma {:induction false} LimitReadsSign()
    ensures ParseLimit(Some(" -3")) == -3
  {
    assert DropSpaceRun(" -3") == "-3";
    assert "-3"[1..] == "3";
    assert DigitPrefix("3", 10) == "3";
    assert DigitsIn("3", 10) == 3;
  }

  /** `GET /api/websites?limit=…`: the newest websites, at most `limit` of them. */
  method ListRoute(store: MemStorage, query: Option<string>) returns (reply: Reply)
    requires store.Valid()
    ensures reply.status == 200 && reply.body.Records?
    ensures reply.body.websites
         == SortNewestFirst(store.WebsiteList())[..SliceEnd(|store.websiteOrder|, ParseLimit(query))]
  {
    var websites := store.GetUserWebsites(Some(ParseLimit(query)));
    reply := Reply(200, Records(websites));
  }

  // ----- the generate route -----

  /** The stored record: the request's fields plus the generated content; the template is not kept. */
  function ToRecord(request: GenerationRequest, content: GeneratedWebsite): WebsiteData {
    WebsiteData(
      request.name, request.description,
      content.html, content.css, content.navigationItems, content.footerContent,
      request.includeNavigation, request.includeFooter, request.includeContactForm, request.isResponsive,
      request.primaryColor, request.secondaryColor, request.imageUrls)
  }

  /** The request a record was built from, given the template it did not keep. */
  function RequestOf(record: WebsiteData, template: StyleTemplate): GenerationRequest {
    GenerationRequest(
      record.name, record.description,
      record.includeNavigation, record.includeFooter, record.includeContactForm, record.isResponsive,
      record.primaryColor, record.secondaryColor, record.imageUrls, template)
  }

  /** The generated content a record holds. */
  function ContentOf(record: WebsiteData): GeneratedWebsite {
    GeneratedWebsite(record.generatedHtml, record.generatedCss, record.navigationItems, record.footerContent)
  }

  /** Nothing but the template is lost in the record. */
  lemma {:induction false} RecordKeepsRequestAndContent(request: GenerationRequest, content: GeneratedWebsite)
    ensures RequestOf(ToRecord(request, content), request.styleTemplate) == request
    ensures ContentOf(ToRecord(request, content)) == content
  {
  }

  /** What the `catch` block is given: a validation error, or any other error and its message. */
  datatype Failure = InvalidRequest(issues: seq<Issue>) | OtherError(message: Option<string>)

  const ValidationMessage: string := "Validation error"
  const GenerateFailedMessage: string := "Failed to generate website"

  /** 400 for a validation error, 500 with the error's message (or a default) for anything else. */
  function ErrorReply(failure: Failure): (r: Reply)
    ensures r.status == 400 <==> failure.InvalidRequest?
    ensures r.status == 500 <==> failure.OtherError?
    ensures failure.InvalidRequest? ==> r.body == ValidationFailure(ValidationMessage, failure.issues)
    ensures failure.OtherError? ==> r.body == Message(failure.message.GetOr(GenerateFailedMessage))
  {
    match failure
    case InvalidRequest(issues) => Reply(400, ValidationFailure(ValidationMessage, issues))
    case OtherError(message) => Reply(500, Message(message.GetOr(GenerateFailedMessage)))
  }

  /**
   * `POST /api/websites/generate`: validate, generate, store under `id` at
   * time `now`, reply with the record; a body that fails validation gets a 400.
   */
  method GenerateRoute(store: MemStorage, body: Json, validUrl: string -> bool, env: Environment,
                       backend: ChatRequest -> BackendOutcome, parse: string -> Option<Json>,
                       id: string, now: int)
    returns (reply: Reply)
    requires store.Valid()
    modifies store
    ensures store.Valid()
    ensures Validate(body, validUrl).Err? ==>
      reply == ErrorReply(InvalidRequest(Validate(body, validUrl).error)) && unchanged(store)
    ensures Validate(body, validUrl).Ok? ==>
      var request := Validate(body, validUrl).value;
      var website := Website(id, ToRecord(request, GenerateWebsite(request, env, backend, parse)), Some(now));
      && reply == Reply(200, Record(website))
      && store.websites == old(store.websites)[id := website]
      && store.websiteOrder == (if id in old(store.websites) then old(store.websiteOrder) else old(store.websiteOrder) + [id])
      && store.users == old(store.users) && store.userOrder == old(store.userOrder)
  {
    var validated := Validate(body, validUrl);
    if validated.Err? {
      return ErrorReply(InvalidRequest(validated.error));
    }
    var content := GenerateWebsite(validated.value, env, backend, parse);
    var website := store.CreateWebsite(ToRecord(validated.value, content), id, now);
    reply := Reply(200, Record(website));
  }

  /** A generated record always has a page and a stylesheet to preview. */
  lemma {:induction false} GeneratedRecordHasContent(request: GenerationRequest, env: Environment,
                                  backend: ChatRequest -> BackendOutcome, parse: string -> Option<Json>)
    ensures var record := ToRecord(request, GenerateWebsite(request, env, backend, parse));
      record.generatedHtml != "" && record.generatedCss != ""
  {
  }
}
