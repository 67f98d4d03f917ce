/**
 * The preview panel: the document and file name of a download, the page of
 * the "view code" window with the HTML shown escaped, and the size of the
 * preview frame for each device.
 */
module WebsitePreview {
  import opened Wrappers
  import opened Strings
  import opened Schema

  // ----- download -----

  const DownloadHead: string :=
    "\n<!DOCTYPE html>\n<html lang=\"en\">\n<head>\n    <meta charset=\"UTF-8\">\n    <meta name=\"viewport\" content=\"width=device-width, initial-scale=1.0\">\n    <title>"
  const DownloadBeforeCss: string := "</title>\n    <style>\n"
  const DownloadBeforeBody: string := "\n    </style>\n</head>\n<body>\n"
  const DownloadClose: string := "\n</body>\n</html>"

  function DownloadFragments(w: Website): (f: seq<string>)
    ensures |f| == 7 && f[1] == w.data.name && f[2] == DownloadBeforeCss
    ensures f[3] == w.data.generatedCss && f[4] == DownloadBeforeBody && f[5] == w.data.generatedHtml
  {
    [DownloadHead, w.data.name, DownloadBeforeCss, w.data.generatedCss,
     DownloadBeforeBody, w.data.generatedHtml, DownloadClose]
  }

  function DownloadDocument(w: Website): string {
    Concat(DownloadFragments(w))
  }

  /** The title is the name as it is; the stylesheet opens the style block and the page opens the body, both verbatim. */
  lemma {:induction false} DownloadShowsWebsite(w: Website)
    ensures var f := DownloadFragments(w);
      && OccursAt(w.data.name, DownloadDocument(w), |DownloadHead|)
      && OccursAt(DownloadBeforeCss + w.data.generatedCss, DownloadDocument(w), |Concat(f[..2])|)
      && OccursAt(DownloadBeforeBody + w.data.generatedHtml, DownloadDocument(w), |Concat(f[..4])|)
      && |Concat(f[..2])| + |DownloadBeforeCss + w.data.generatedCss| == |Concat(f[..4])|
  {
    var f := DownloadFragments(w);
    ConcatAt(f, 1);
    assert Concat(f[..1]) == DownloadHead by {
      assert f[..1] == [DownloadHead];
    }
    PairAt(f, 2);
    PairAt(f, 4);
    ConcatSnoc(f[..4]);
    assert f[..4][..3] == f[..3];
    ConcatSnoc(f[..3]);
    assert f[..3][..2] == f[..2];
  }

  /** `name.toLowerCase().replace(/\s+/g, '-') + ".html"`. */
  function DownloadFilename(name: string): string {
    ReplaceSpaceRuns(Lower(name), "-") + ".html"
  }

  /**
   * The file name ends in `.html` and has no whitespace and no capitals;
   * for a name without whitespace it is the lower-cased name plus `.html`.
   */
  lemma {:induction false} DownloadFilenameShape(name: string)
    ensures var stem := DownloadFilename(name)[..|DownloadFilename(name)| - 5];
      && DownloadFilename(name) == stem + ".html"
      && NoSpace(stem) && (forall c :: c in stem ==> !IsUpper(c))
      && (NoSpace(name) ==> stem == Lower(name))
  {
    var stem := ReplaceSpaceRuns(Lower(name), "-");
    assert DownloadFilename(name)[..|DownloadFilename(name)| - 5] == stem;
    ReplaceSpaceRunsNoSpace(Lower(name), "-");
    LowerHasNoUpper(name);
    ReplaceSpaceRunsChars(Lower(name), "-");
    LowerKeepsNoSpace(name);
    if NoSpace(name) {
      ReplaceSpaceRunsIdentity(Lower(name), "-");
    }
  }

  /** Two words separated by a whitespace run are joined by a single `-`. */
  lemma {:induction false} DownloadFilenameTwoWords(a: string, w: string, b: string)
    requires NoSpace(a) && NoSpace(b)
    requires w != [] && forall k :: 0 <= k < |w| ==> IsSpace(w[k])
    ensures DownloadFilename(a + w + b) == Lower(a) + "-" + Lower(b) + ".html"
  {
    var la, lw, lb := Lower(a), Lower(w), Lower(b);
    LowerOfThree(a, w, b);
    LowerKeepsNoSpace(a);
    LowerKeepsNoSpace(b);
    assert forall k :: 0 <= k < |lw| ==> IsSpace(lw[k]) by {
      forall k | 0 <= k < |lw| ensures IsSpace(lw[k]) {
        assert lw[k] == LowerChar(w[k]);
      }
    }
    assert la == [] || !IsSpace(la[|la| - 1]);
    assert lb == [] || !IsSpace(lb[0]);
    ReplaceSpaceRunsSplit(la, lw, lb, "-");
    ReplaceSpaceRunsIdentity(la, "-");
    ReplaceSpaceRunsIdentity(lb, "-");
  }

  lemma {:induction false} LowerOfThree(a: string, w: string, b: string)
    ensures Lower(a + w + b) == Lower(a) + Lower(w) + Lower(b)
  {
    LowerAppend(a + w, b);
    LowerAppend(a, w);
  }

  lemma {:induction false} LowerAppend(x: string, y: string)
    ensures Lower(x + y) == Lower(x) + Lower(y)
  {
    forall k | 0 <= k < |x + y| ensures Lower(x + y)[k] == (Lower(x) + Lower(y))[k] {
      if k < |x| {
        assert (x + y)[k] == x[k];
      } else {
        assert (x + y)[k] == y[k - |x|];
      }
    }
  }

  datatype Download = Download(document: string, filename: string)

  /** The download of the shown website; nothing when no website is shown. */
  function HandleDownload(website: Option<Website>): (r: Option<Download>)
    ensures r.None? <==> website.None?
    ensures website.Some? ==>
      r.value.document == DownloadDocument(website.value) && r.value.filename == DownloadFilename(website.value.data.name)
  {
    match website
    case None => None
    case Some(w) => Some(Download(DownloadDocument(w), DownloadFilename(w.data.name)))
  }

  // ----- view code -----

  /** `s.replace(/</g, '&lt;').replace(/>/g, '&gt;')`. */
  function Escape(s: string): string {
    ReplaceChar(ReplaceChar(s, '<', "&lt;"), '>', "&gt;")
  }

  function EscapeChar(c: char): string {
    if c == '<' then "&lt;" else if c == '>' then "&gt;" else [c]
  }

  /** Escaping in one pass, character by character. */
  function EscapeChars(s: string): string {
    if s == [] then [] else EscapeChar(s[0]) + EscapeChars(s[1..])
  }

  /** The two passes of `Escape` are the one pass of `EscapeChars`. */
  lemma {:induction false} EscapeInOnePass(s: string)
    ensures Escape(s) == EscapeChars(s)
  {
    if s != [] {
      var head := if s[0] == '<' then "&lt;" else [s[0]];
      assert ReplaceChar(s, '<', "&lt;") == head + ReplaceChar(s[1..], '<', "&lt;");
      ReplaceCharAppend(head, ReplaceChar(s[1..], '<', "&lt;"), '>', "&gt;");
      if s[0] == '<' {
        ReplaceCharIdentity("&lt;", '>', "&gt;");
      } else {
        assert [s[0]][1..] == [];
      }
      EscapeInOnePass(s[1..]);
    }
  }

  /** The escaped text has no angle brackets, so escaping twice is escaping once. */
  lemma {:induction false} EscapeRemovesBrackets(s: string)
    ensures '<' !in Escape(s) && '>' !in Escape(s)
    ensures Escape(Escape(s)) == Escape(s)
  {
    ReplaceCharRemoves(s, '<', "&lt;");
    ReplaceCharKeepsAbsent(ReplaceChar(s, '<', "&lt;"), '>', "&gt;", '<');
    ReplaceCharRemoves(ReplaceChar(s, '<', "&lt;"), '>', "&gt;");
    EscapeKeepsPlainText(Escape(s));
  }

  /** Text without angle brackets is shown as it is. */
  lemma {:induction false} EscapeKeepsPlainText(s: string)
    requires '<' !in s && '>' !in s
    ensures Escape(s) == s
  {
    ReplaceCharIdentity(s, '<', "&lt;");
    ReplaceCharIdentity(s, '>', "&gt;");
  }

  /** Reads `&lt;` and `&gt;` back as `<` and `>`. */
  function Unescape(t: string): string {
    if |t| >= 4 && t[..4] == "&lt;" then "<" + Unescape(t[4..])
    else if |t| >= 4 && t[..4] == "&gt;" then ">" + Unescape(t[4..])
    else if t == [] then []
    else [t[0]] + Unescape(t[1..])
  }

  /** Without `&` in the page, the escaped text determines the page. */
  lemma {:induction false} UnescapeEscape(s: string)
    requires '&' !in s
    ensures Unescape(Escape(s)) == s
  {
    EscapeInOnePass(s);
    UnescapeEscapeChars(s);
  }

  lemma {:induction false} UnescapeEscapeChars(s: string)
    requires '&' !in s
    ensures Unescape(EscapeChars(s)) == s
  {
    if s != [] {
      var rest := EscapeChars(s[1..]);
      var t := EscapeChar(s[0]) + rest;
      assert s[1..] == s[1..] && '&' !in s[1..] by {
        forall k | 0 <= k < |s[1..]| ensures s[1..][k] != '&' {
          assert s[1..][k] == s[k + 1];
        }
      }
      UnescapeEscapeChars(s[1..]);
      if s[0] == '<' || s[0] == '>' {
        assert t[..4] == EscapeChar(s[0]) && t[4..] == rest;
      } else {
        assert t == [s[0]] + rest && t[0] == s[0] && t[1..] == rest;
      }
      assert [s[0]] + s[1..] == s;
    }
  }

  const CodeHead: string := "\n        <html>\n          <head>\n            <title>Generated Code - "
  const CodeBeforeHeading: string :=
    "</title>\n            <style>\n              body { font-family: monospace; margin: 20px; background: #f5f5f5; }\n              .section { background: white; margin: 20px 0; padding: 20px; border-radius: 8px; }\n              h2 { color: #333; border-bottom: 2px solid #007acc; padding-bottom: 10px; }\n              pre { background: #f8f8f8; padding: 15px; border-radius: 4px; overflow-x: auto; }\n            </style>\n          </head>\n          <body>\n            <h1>Generated Code for: "
  const CodeBeforeHtml: string := "</h1>\n            <div class=\"section\">\n              <h2>HTML</h2>\n              <pre>"
  const CodeBeforeCss: string := "</pre>\n            </div>\n            <div class=\"section\">\n              <h2>CSS</h2>\n              <pre>"
  const CodeClose: string := "</pre>\n            </div>\n          </body>\n        </html>\n      "

  const HtmlSlot: nat := 5
  const CssSlot: nat := 7

  function CodeFragments(w: Website): (f: seq<string>)
    ensures |f| == 9 && f[HtmlSlot] == Escape(w.data.generatedHtml) && f[CssSlot] == w.data.generatedCss
  {
    [CodeHead, w.data.name, CodeBeforeHeading, w.data.name, CodeBeforeHtml,
     Escape(w.data.generatedHtml), CodeBeforeCss, w.data.generatedCss, CodeClose]
  }

  function CodePage(w: Website): string {
    Concat(CodeFragments(w))
  }

  /**
   * The HTML section shows the escaped page, which holds no tag, and the
   * page can be read back from it when it has no `&`; the CSS section
   * shows the stylesheet unescaped after it.
   */
  lemma {:induction false} CodePageShowsWebsite(w: Website)
    ensures var f := CodeFragments(w);
      && OccursAt(Escape(w.data.generatedHtml), CodePage(w), |Concat(f[..HtmlSlot])|)
      && OccursAt(w.data.generatedCss, CodePage(w), |Concat(f[..CssSlot])|)
      && |Concat(f[..HtmlSlot])| + |Escape(w.data.generatedHtml)| <= |Concat(f[..CssSlot])|
      && '<' !in Escape(w.data.generatedHtml) && '>' !in Escape(w.data.generatedHtml)
      && ('&' !in w.data.generatedHtml ==> Unescape(Escape(w.data.generatedHtml)) == w.data.generatedHtml)
  {
    var f := CodeFragments(w);
    ConcatAt(f, HtmlSlot);
    ConcatAt(f, CssSlot);
    ConcatOrdered(f, HtmlSlot, CssSlot);
    EscapeRemovesBrackets(w.data.generatedHtml);
    if '&' !in w.data.generatedHtml {
      UnescapeEscape(w.data.generatedHtml);
    }
  }

  /** The page written into the code window; nothing without a website or when no window opens. */
  function HandleViewCode(website: Option<Website>, windowOpened: bool): (r: Option<string>)
    ensures r.Some? <==> website.Some? && windowOpened
    ensures r.Some? ==> r.value == CodePage(website.value)
  {
    if website.Some? && windowOpened then Some(CodePage(website.value)) else None
  }

  // ----- preview frame -----

  datatype ViewMode = Desktop | Tablet | Mobile

  datatype FrameSize = FrameSize(width: string, height: string)

  const FrameHeight: string := "600px"

  function PreviewStyle(mode: ViewMode): (r: FrameSize)
    ensures r.height == FrameHeight
  {
    match mode
    case Mobile => FrameSize("375px", FrameHeight)
    case Tablet => FrameSize("768px", FrameHeight)
    case Desktop => FrameSize("100%", FrameHeight)
  }

  /** Phone 375px, tablet 768px, desktop the full width; each device has its own width. */
  lemma {:induction false} PreviewWidths(m: ViewMode, n: ViewMode)
    ensures PreviewStyle(Mobile).width == "375px" && PreviewStyle(Tablet).width == "768px"
    ensures PreviewStyle(Desktop).width == "100%"
    ensures PreviewStyle(m) == PreviewStyle(n) <==> m == n
  {
  }
}
