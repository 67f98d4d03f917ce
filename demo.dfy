/**
 * `generateDemoWebsite`: the page and stylesheet built without any AI
 * backend. Both are a fixed sequence of fragments joined together; a
 * fragment is either fixed text or the markup of one block, and a block
 * that its option switches off contributes the empty string.
 */
module Demo {
  import opened Wrappers
  import opened Strings
  import opened Schema
  import opened DemoTemplate

  datatype GeneratedWebsite = GeneratedWebsite(
    html: string,
    css: string,
    navigationItems: seq<string>,
    footerContent: string)

  const DefaultNavItems: seq<string> := ["Home", "About", "Services", "Contact"]

  function NavItems(o: GenerationRequest): seq<string> {
    if o.includeNavigation then DefaultNavItems else []
  }

  // ----- blocks of the page -----

  /** A menu entry; its anchor is the lower-cased caption. */
  function LinkItem(caption: string): string {
    LinkOpen + Lower(caption) + LinkMiddle + caption + LinkClose
  }

  function LinkItems(items: seq<string>): seq<string> {
    seq(|items|, k requires 0 <= k < |items| => LinkItem(items[k]))
  }

  function NavSection(name: string, items: seq<string>): string {
    NavOpen + name + NavBeforeLinks + Concat(LinkItems(items)) + NavClose
  }

  function HeroImage(url: string): string {
    HeroImageOpen + url + HeroImageClose
  }

  /** The `n`-th picture of the gallery (counting from 1). */
  function GalleryItem(url: string, n: nat): string {
    GalleryItemOpen + url + GalleryItemMiddle + NatToString(n) + GalleryItemClose
  }

  function GalleryItems(urls: seq<string>): seq<string> {
    seq(|urls|, k requires 0 <= k < |urls| => GalleryItem(urls[k], k + 1))
  }

  function GallerySection(urls: seq<string>): string {
    if |urls| > 0 then GalleryOpen + Concat(GalleryItems(urls)) + GalleryClose else ""
  }

  /** `name.toLowerCase().replace(/\s+/g, '')`, the local part of the contact address. */
  function EmailSlug(name: string): string {
    ReplaceSpaceRuns(Lower(name), "")
  }

  /** The address part has no whitespace and no capitals, and is the lower-cased name when the name has no whitespace. */
  lemma {:induction false} EmailSlugIsAddressSafe(name: string)
    ensures NoSpace(EmailSlug(name))
    ensures forall c :: c in EmailSlug(name) ==> !IsUpper(c)
    ensures NoSpace(name) ==> EmailSlug(name) == Lower(name)
  {
    ReplaceSpaceRunsNoSpace(Lower(name), "");
    LowerHasNoUpper(name);
    ReplaceSpaceRunsChars(Lower(name), "");
    LowerKeepsNoSpace(name);
    if NoSpace(name) {
      ReplaceSpaceRunsIdentity(Lower(name), "");
    }
  }

  function FooterSection(name: string, items: seq<string>): string {
    FooterOpen + name + FooterBeforeLinks + Concat(LinkItems(items)) + FooterBeforeEmail
      + EmailSlug(name) + FooterAfterEmail + name + FooterClose
  }

  // ----- the page -----

  const NavSlot: nat := 1
  const HeroImageSlot: nat := 3
  const TitleSlot: nat := 5
  const DescriptionSlot: nat := 7
  const GallerySlot: nat := 9
  const ContactSlot: nat := 11
  const FooterSlot: nat := 13

  /** The page, fragment by fragment; the odd slots hold the blocks and spliced values. */
  function HtmlFragments(o: GenerationRequest): (f: seq<string>)
    ensures |f| == 15
    ensures f[NavSlot] != "" <==> o.includeNavigation
    ensures f[HeroImageSlot] != "" <==> |o.imageUrls| > 0
    ensures f[GallerySlot] != "" <==> |o.imageUrls| > 0
    ensures f[ContactSlot] != "" <==> o.includeContactForm
    ensures f[FooterSlot] != "" <==> o.includeFooter
    ensures f[TitleSlot] == o.name && f[DescriptionSlot] == o.description
    ensures o.includeNavigation ==> f[NavSlot] == NavSection(o.name, DefaultNavItems)
    ensures |o.imageUrls| > 0 ==> f[HeroImageSlot] == HeroImage(o.imageUrls[0])
    ensures f[GallerySlot] == GallerySection(o.imageUrls)
    ensures o.includeFooter ==> f[FooterSlot] == FooterSection(o.name, NavItems(o))
  {
    HtmlHeader(o) + HtmlMain(o) + HtmlEnd(o)
  }

  /** Slots 0 to 4: the navigation bar and the hero picture. */
  function HtmlHeader(o: GenerationRequest): (f: seq<string>)
    ensures |f| == 5
    ensures f[NavSlot] != "" <==> o.includeNavigation
    ensures f[HeroImageSlot] != "" <==> |o.imageUrls| > 0
    ensures o.includeNavigation ==> f[NavSlot] == NavSection(o.name, DefaultNavItems)
    ensures |o.imageUrls| > 0 ==> f[HeroImageSlot] == HeroImage(o.imageUrls[0])
  {
    [ HtmlOpen,
      if o.includeNavigation then NavSection(o.name, NavItems(o)) else "",
      HtmlBeforeHero,
      if |o.imageUrls| > 0 then HeroImage(o.imageUrls[0]) else "",
      HtmlBeforeTitle ]
  }

  /** Slots 5 to 9: the title, the description and the gallery. */
  function HtmlMain(o: GenerationRequest): (f: seq<string>)
    ensures |f| == 5
    ensures f[0] == o.name && f[2] == o.description
    ensures f[4] == GallerySection(o.imageUrls)
    ensures f[4] != "" <==> |o.imageUrls| > 0
  {
    [ o.name,
      HtmlBeforeDescription,
      o.description,
      HtmlAfterDescription,
      GallerySection(o.imageUrls) ]
  }

  /** Slots 10 to 14: the contact form and the footer. */
  function HtmlEnd(o: GenerationRequest): (f: seq<string>)
    ensures |f| == 5
    ensures f[1] != "" <==> o.includeContactForm
    ensures f[3] != "" <==> o.includeFooter
    ensures o.includeFooter ==> f[3] == FooterSection(o.name, NavItems(o))
  {
    [ HtmlBetweenGalleryAndContact,
      if o.includeContactForm then ContactSection else "",
      HtmlAfterMain,
      if o.includeFooter then FooterSection(o.name, NavItems(o)) else "",
      HtmlClose ]
  }

  // ----- the stylesheet -----

  /** The background of the navigation bar and of the hero. */
  function Gradient(primary: string, secondary: string): string {
    "linear-gradient(135deg, " + primary + " 0%, " + secondary + " 100%)"
  }

  const NavGradientSlot: nat := 1
  const HeroGradientSlot: nat := 3
  const HeroExtraSlot: nat := 5
  const FeatureColorSlot: nat := 7
  const ButtonColorSlot: nat := 9
  const HoverColorSlot: nat := 11
  const MediaSlot: nat := 13

  /** The stylesheet, fragment by fragment. */
  function CssFragments(o: GenerationRequest): (f: seq<string>)
    ensures |f| == 15
    ensures f[NavGradientSlot] == f[HeroGradientSlot] == Gradient(o.primaryColor, o.secondaryColor)
    ensures f[FeatureColorSlot] == f[ButtonColorSlot] == o.primaryColor && f[HoverColorSlot] == o.secondaryColor
    ensures f[HeroExtraSlot] != "" <==> |o.imageUrls| > 0
    ensures f[MediaSlot] != "" <==> o.isResponsive
    ensures f[MediaSlot] == (if o.isResponsive then CssMediaBlock else "")
    ensures f[12] == CssBeforeMedia && f[14] == CssClose
  {
    [ CssBeforeNavGradient,
      Gradient(o.primaryColor, o.secondaryColor),
      CssBetweenGradients,
      Gradient(o.primaryColor, o.secondaryColor),
      CssBeforeHeroExtra,
      if |o.imageUrls| > 0 then CssHeroWithImage else "",
      CssBeforeFeatureColor,
      o.primaryColor,
      CssBeforeButtonColor,
      o.primaryColor,
      CssBeforeHoverColor,
      o.secondaryColor,
      CssBeforeMedia,
      if o.isResponsive then CssMediaBlock else "",
      CssClose ]
  }

  // ----- the generator -----

  /** `generateDemoWebsite(options)`. */
  function GenerateDemoWebsite(o: GenerationRequest): (r: GeneratedWebsite)
    ensures r.navigationItems == (if o.includeNavigation then DefaultNavItems else [])
    ensures r.html != "" && r.css != ""
    ensures r.footerContent == FooterContentPrefix + o.name
  {
    var f := HtmlFragments(o);
    ConcatAt(f, 0);
    GeneratedWebsite(Concat(f), Concat(CssFragments(o)), NavItems(o), FooterContentPrefix + o.name)
  }

  /** Every fragment stands in the page right after the fragments before it, in order. */
  lemma {:induction false} DemoHtmlPlacesFragments(o: GenerationRequest, i: nat, j: nat)
    requires i < j < 15
    ensures var f := HtmlFragments(o);
      && OccursAt(f[i], GenerateDemoWebsite(o).html, |Concat(f[..i])|)
      && |Concat(f[..i])| + |f[i]| <= |Concat(f[..j])|
  {
    ConcatAt(HtmlFragments(o), i);
    ConcatOrdered(HtmlFragments(o), i, j);
  }

  /** Where the `i`-th gallery picture starts in the page. */
  function GalleryItemOffset(o: GenerationRequest, i: nat): nat
    requires i <= |o.imageUrls|
  {
    |GalleryOpen| + |Concat(GalleryItems(o.imageUrls)[..i])| + |Concat(HtmlFragments(o)[..GallerySlot])|
  }

  /** The `i`-th picture (from 0) carries the `i`-th URL and the number `i + 1`, and stands in the page. */
  lemma {:induction false} GalleryPicturePlaced(o: GenerationRequest, i: nat)
    requires i < |o.imageUrls|
    ensures OccursAt(GalleryItem(o.imageUrls[i], i + 1), GenerateDemoWebsite(o).html, GalleryItemOffset(o, i))
  {
    GallerySlotHolds(o);
    PageIsConcat(o);
    PiecePlaced(GenerateDemoWebsite(o).html, HtmlFragments(o), GallerySlot, GalleryOpen,
                GalleryItems(o.imageUrls), GalleryClose, i);
  }

  lemma {:induction false} PageIsConcat(o: GenerationRequest)
    ensures GenerateDemoWebsite(o).html == Concat(HtmlFragments(o))
  {
  }

  lemma {:induction false} GallerySlotHolds(o: GenerationRequest)
    requires |o.imageUrls| > 0
    ensures HtmlFragments(o)[GallerySlot] == GalleryOpen + Concat(GalleryItems(o.imageUrls)) + GalleryClose
  {
  }

  /** An item of a fragment that is itself a concatenation stands in the whole page. */
  lemma {:induction false} PiecePlaced(page: string, f: seq<string>, k: nat, pre: string, items: seq<string>, post: string, i: nat)
    requires page == Concat(f) && k < |f| && i < |items|
    requires f[k] == pre + Concat(items) + post
    ensures OccursAt(items[i], page, |pre| + |Concat(items[..i])| + |Concat(f[..k])|)
  {
    ConcatNestedAt(f, k, pre, items, post, i);
  }

  /** The pictures follow one another in the order of the URLs, without overlapping. */
  lemma {:induction false} GalleryPicturesInOrder(o: GenerationRequest, i: nat, j: nat)
    requires i < j <= |o.imageUrls|
    ensures GalleryItemOffset(o, i) + |GalleryItem(o.imageUrls[i], i + 1)| <= GalleryItemOffset(o, j)
  {
    ConcatOrdered(GalleryItems(o.imageUrls), i, j);
  }

  /** Each picture's alternative text names its 1-based position, so two positions give two different pictures. */
  lemma {:induction false} GalleryAltText(url: string, n: nat, m: nat)
    requires GalleryItem(url, n) == GalleryItem(url, m)
    ensures OccursAt(GalleryItemMiddle + NatToString(n), GalleryItem(url, n), |GalleryItemOpen| + |url|)
    ensures n == m
  {
    GalleryItemSplit(url, n);
    GalleryItemSplit(url, m);
    OccursInMiddle(GalleryItemOpen + url, GalleryItemMiddle + NatToString(n), GalleryItemClose);
    CancelFrame(GalleryItemOpen + url + GalleryItemMiddle, NatToString(n), NatToString(m), GalleryItemClose);
    NatToStringInjective(n, m);
  }

  lemma {:induction false} GalleryItemSplit(url: string, n: nat)
    ensures GalleryItem(url, n) == (GalleryItemOpen + url) + (GalleryItemMiddle + NatToString(n)) + GalleryItemClose
    ensures GalleryItem(url, n) == (GalleryItemOpen + url + GalleryItemMiddle) + NatToString(n) + GalleryItemClose
  {
  }

  /** The anchors of the default menu, in menu order. */
  const MenuAnchorNames: seq<string> := ["home", "about", "services", "contact"]

  /** The menu links the four sections, each to its lower-cased anchor. */
  lemma {:induction false} MenuLinks()
    ensures |LinkItems(DefaultNavItems)| == 4
    ensures forall k :: 0 <= k < 4 ==>
      LinkItems(DefaultNavItems)[k] == LinkOpen + MenuAnchorNames[k] + LinkMiddle + DefaultNavItems[k] + LinkClose
  {
    forall k | 0 <= k < 4 ensures Lower(DefaultNavItems[k]) == MenuAnchorNames[k] {
      if k == 0 {
        HomeAnchor();
      } else if k == 1 {
        AboutAnchor();
      } else if k == 2 {
        ServicesAnchor();
      } else {
        ContactAnchor();
      }
    }
  }

  lemma {:induction false} HomeAnchor()
    ensures Lower("Home") == "home"
  {
    LowerCapitalised("Home");
  }

  lemma {:induction false} AboutAnchor()
    ensures Lower("About") == "about"
  {
    LowerCapitalised("About");
  }

  lemma {:induction false} ServicesAnchor()
    ensures Lower("Services") == "services"
  {
    LowerCapitalised("Services");
  }

  lemma {:induction false} ContactAnchor()
    ensures Lower("Contact") == "contact"
  {
    LowerCapitalised("Contact");
  }

  /** With the menu off, the footer is built with no quick links. */
  lemma {:induction false} FooterLinksWithoutMenu(o: GenerationRequest)
    requires o.includeFooter && !o.includeNavigation
    ensures HtmlFragments(o)[FooterSlot] == FooterSection(o.name, [])
    ensures Concat(LinkItems([])) == ""
  {
    assert LinkItems([]) == [];
  }

  /** The hero picture, when there is one, is the first URL. */
  lemma {:induction false} HeroUsesFirstImage(o: GenerationRequest)
    requires |o.imageUrls| > 0
    ensures OccursAt(HeroImageOpen + o.imageUrls[0] + HeroImageClose, GenerateDemoWebsite(o).html,
                     |Concat(HtmlFragments(o)[..HeroImageSlot])|)
  {
    ConcatAt(HtmlFragments(o), HeroImageSlot);
  }

  /** The stylesheet ends with the responsive block exactly when the site is responsive. */
  lemma {:induction false} CssEndsWithMediaIffResponsive(o: GenerationRequest)
    ensures EndsWith(GenerateDemoWebsite(o).css, CssMediaBlock + CssClose) <==> o.isResponsive
  {
    var f := CssFragments(o);
    CssTail(f);
    MediaSuffix(Concat(f[..12]), f[MediaSlot]);
  }

  /** The last three fragments close the stylesheet. */
  lemma {:induction false} CssTail(f: seq<string>)
    requires |f| == 15
    ensures Concat(f) == Concat(f[..12]) + f[12] + f[13] + f[14]
  {
    ConcatSnoc(f);
    assert f[..15][..14] == f[..14];
    ConcatSnoc(f[..14]);
    assert f[..14][..13] == f[..13];
    ConcatSnoc(f[..13]);
    assert f[..13][..12] == f[..12];
  }

  lemma {:induction false} MediaSuffix(head: string, media: string)
    requires media == "" || media == CssMediaBlock
    ensures EndsWith(head + CssBeforeMedia + media + CssClose, CssMediaBlock + CssClose) <==> media == CssMediaBlock
  {
    if media == "" {
      MediaTailDiffers();
      assert head + CssBeforeMedia + media + CssClose == head + CssBeforeMedia + CssClose;
      SuffixMismatch(head, CssBeforeMedia, CssMediaBlock, CssClose, 5);
    } else {
      assert head + CssBeforeMedia + media + CssClose == (head + CssBeforeMedia) + (CssMediaBlock + CssClose);
      EndsWithAppended(head + CssBeforeMedia, CssMediaBlock + CssClose);
    }
  }

  lemma {:induction false} EndsWithAppended(head: string, tail: string)
    ensures EndsWith(head + tail, tail)
  {
    assert (head + tail)[|head|..] == tail;
  }

  /** Two texts that differ `d` characters before their ends stay apart when the same text follows both. */
  lemma {:induction false} SuffixMismatch(head: string, x: string, y: string, close: string, d: nat)
    requires d < |x| && d < |y| && x[|x| - 1 - d] != y[|y| - 1 - d]
    ensures !EndsWith(head + x + close, y + close)
  {
    var s, t := head + x + close, y + close;
    var i := |close| + d + 1;
    assert s[|s| - i] == x[|x| - 1 - d];
    assert t[|t| - i] == y[|y| - 1 - d];
    if |t| <= |s| {
      assert s[|s| - |t|..][|t| - i] == s[|s| - i];
    }
  }

  /** Six characters before their ends, the text before the media block and the media block differ. */
  lemma {:induction false} MediaTailDiffers()
    ensures |CssBeforeMedia| >= 6 && |CssMediaBlock| >= 6
    ensures CssBeforeMedia[|CssBeforeMedia| - 6] != CssMediaBlock[|CssMediaBlock| - 6]
  {
    assert CssBeforeMedia[|CssBeforeMedia| - 6] == '\n';
    assert CssMediaBlock[|CssMediaBlock| - 6] == '}';
  }

  predicate EndsWith(s: string, suffix: string) {
    |suffix| <= |s| && s[|s| - |suffix|..] == suffix
  }

  /** Both gradients and the three colour rules carry the chosen colours, in this order. */
  lemma {:induction false} CssUsesColours(o: GenerationRequest, i: nat, j: nat)
    requires i < j < 15
    ensures var f := CssFragments(o);
      && OccursAt(f[i], GenerateDemoWebsite(o).css, |Concat(f[..i])|)
      && |Concat(f[..i])| + |f[i]| <= |Concat(f[..j])|
  {
    ConcatAt(CssFragments(o), i);
    ConcatOrdered(CssFragments(o), i, j);
  }
}
