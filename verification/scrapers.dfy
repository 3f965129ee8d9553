/**
 * The scrapers: one operation per report, each reading a `Dom.Page`.
 * Operations that build arrays by pushing in a loop, and the two audits that
 * add up a score step by step, are methods; each is proved against a
 * function of the page, and the properties of that function are lemmas.
 */
module Scrapers {
  import opened Wrappers
  import opened Dom
  import opened Seqs
  import opened Checklist
  import Utils
  import Decimal

  /** The smaller of two numbers. */
  function Min(a: int, b: int): (m: int)
    ensures m <= a && m <= b && (m == a || m == b)
  {
    if a <= b then a else b
  }

  // ---------------------------------------------------------------------
  // Links
  // ---------------------------------------------------------------------

  datatype Link = Link(text: string, url: string, internal: bool, target: string)

  /** An anchor is reported when its URL is non-empty and its first eleven characters are not `javascript:`. */
  predicate IsFollowable(a: Anchor)
    ensures IsFollowable(a) <==> |a.href| > 0 && (|a.href| < 11 || a.href[..11] != "javascript:")
  {
    a.href != "" && !Utils.StartsWith(a.href, "javascript:")
  }

  /**
   * The entry for one anchor: its sanitized text cut to 50 characters (plus
   * "..."), its URL, "internal" when the URL begins with the page's origin
   * string, and its target with `_self` standing in for an empty one.
   */
  function ToLink(a: Anchor, origin: string): (l: Link)
    ensures l.text == Utils.Truncate(Utils.Sanitize(a.text), 50) && |l.text| <= 53
    ensures l.url == a.href
    ensures l.internal <==> Utils.StartsWith(a.href, origin)
    ensures a.target != "" ==> l.target == a.target
    ensures a.target == "" ==> l.target == "_self"
  {
    Link(Utils.Truncate(Utils.Sanitize(a.text), 50),
         a.href,
         Utils.StartsWith(a.href, origin),
         if a.target != "" then a.target else "_self")
  }

  function LinkOf(origin: string): Anchor -> Link {
    a => ToLink(a, origin)
  }

  /** `Scrapers.getLinks`. */
  method GetLinks(page: Page) returns (links: seq<Link>)
    ensures links == FilterMap(page.anchors, IsFollowable, LinkOf(page.origin))
  {
    links := [];
    var i := 0;
    while i < |page.anchors|
      invariant 0 <= i <= |page.anchors|
      invariant links == FilterMap(page.anchors[..i], IsFollowable, LinkOf(page.origin))
    {
      var link := page.anchors[i];
      FilterMapStep(page.anchors, i, IsFollowable, LinkOf(page.origin));
      if IsFollowable(link) {
        links := links + [ToLink(link, page.origin)];
      }
      i := i + 1;
    }
    assert page.anchors[..i] == page.anchors;
  }

  /**
   * What every reported link satisfies: its URL is non-empty and not a
   * `javascript:` URL, its text is at most 53 characters, its target is never
   * empty, and it is internal exactly when its URL starts with the origin.
   * It comes from an anchor of the page with that URL, whose sanitized text
   * it carries, cut to 50 characters, and whose target it carries, or
   * `_self` when the anchor's target is empty.
   */
  lemma LinksWellFormed(anchors: seq<Anchor>, origin: string)
    ensures forall l :: l in FilterMap(anchors, IsFollowable, LinkOf(origin)) ==>
      && l.url != "" && !Utils.StartsWith(l.url, "javascript:")
      && |l.text| <= 53 && l.target != ""
      && (l.internal <==> Utils.StartsWith(l.url, origin))
      && exists a :: (a in anchors && l.url == a.href
           && l.text == Utils.Truncate(Utils.Sanitize(a.text), 50)
           && l.target == (if a.target == "" then "_self" else a.target))
  {
    forall l | l in FilterMap(anchors, IsFollowable, LinkOf(origin))
      ensures l.url != "" && !Utils.StartsWith(l.url, "javascript:")
      ensures |l.text| <= 53 && l.target != ""
      ensures l.internal <==> Utils.StartsWith(l.url, origin)
      ensures exists a :: (a in anchors && l.url == a.href
           && l.text == Utils.Truncate(Utils.Sanitize(a.text), 50)
           && l.target == (if a.target == "" then "_self" else a.target))
    {
      var i := FilterMapSound(anchors, IsFollowable, LinkOf(origin), l);
      var a := anchors[i];
      assert a in anchors && l == ToLink(a, origin);
    }
  }

  /** A link is reported exactly when some followable anchor of the page yields it. */
  lemma LinksExactlyFollowable(anchors: seq<Anchor>, origin: string, l: Link)
    ensures l in FilterMap(anchors, IsFollowable, LinkOf(origin)) <==>
            exists a :: a in anchors && IsFollowable(a) && l == ToLink(a, origin)
  {
    if a :| a in anchors && IsFollowable(a) && l == ToLink(a, origin) {
      FilterMapComplete(anchors, IsFollowable, LinkOf(origin), a);
    }
    if l in FilterMap(anchors, IsFollowable, LinkOf(origin)) {
      var i := FilterMapSound(anchors, IsFollowable, LinkOf(origin), l);
      assert anchors[i] in anchors;
    }
  }

  /** Links come out in document order: the links of two consecutive runs of anchors are concatenated. */
  lemma LinksInDocumentOrder(a: seq<Anchor>, b: seq<Anchor>, origin: string)
    ensures FilterMap(a + b, IsFollowable, LinkOf(origin))
         == FilterMap(a, IsFollowable, LinkOf(origin)) + FilterMap(b, IsFollowable, LinkOf(origin))
  {
    FilterMapAppend(a, b, IsFollowable, LinkOf(origin));
  }

  /** A `javascript:` anchor contributes nothing, whatever its text or target. */
  lemma ScriptUrlsSkipped(a: Anchor, origin: string)
    requires Utils.StartsWith(a.href, "javascript:")
    ensures FilterMap([a], IsFollowable, LinkOf(origin)) == []
  {
    assert [a][..0] == [];
  }

  /**
   * "Internal" is a plain string-prefix test: a URL on another host whose
   * name merely begins with the origin's host name is still internal.
   */
  lemma InternalIsPrefixTest()
    ensures ToLink(Anchor("https://example.com.evil.test/", "x", ""), "https://example.com").internal
  {
    assert "https://example.com.evil.test/"[..19] == "https://example.com";
  }

  // ---------------------------------------------------------------------
  // Images
  // ---------------------------------------------------------------------

  datatype ImageInfo = ImageInfo(src: string, alt: string, width: nat, height: nat, loading: string)

  /** `img.alt`: the attribute's value, or the empty string when it is absent. */
  function AltProperty(img: Image): (alt: string)
    ensures img.alt.Some? ==> alt == img.alt.value
    ensures img.alt.None? ==> alt == ""
  {
    img.alt.GetOr("")
  }

  /**
   * The entry for one image: its alt text, or "No alt text" when that is
   * empty; the natural size, or the declared size when the natural one is 0;
   * its loading mode, or "eager" when that is empty.
   */
  function ToImageInfo(img: Image): (r: ImageInfo)
    ensures r.src == img.src
    ensures r.alt != "" && (AltProperty(img) != "" <==> r.alt == AltProperty(img))
    ensures AltProperty(img) == "" ==> r.alt == "No alt text"
    ensures r.width == (if img.naturalWidth != 0 then img.naturalWidth else img.width)
    ensures r.height == (if img.naturalHeight != 0 then img.naturalHeight else img.height)
    ensures r.loading == (if img.loading != "" then img.loading else "eager")
  {
    ImageInfo(img.src,
              if AltProperty(img) != "" then AltProperty(img) else "No alt text",
              if img.naturalWidth != 0 then img.naturalWidth else img.width,
              if img.naturalHeight != 0 then img.naturalHeight else img.height,
              if img.loading != "" then img.loading else "eager")
  }

  /** `Scrapers.getImages`: one entry per image, in document order. */
  method GetImages(page: Page) returns (images: seq<ImageInfo>)
    ensures images == Map(page.images, ToImageInfo)
  {
    images := [];
    for i := 0 to |page.images|
      invariant images == Map(page.images[..i], ToImageInfo)
    {
      var img := page.images[i];
      var alt := AltProperty(img);
      images := images + [ImageInfo(img.src,
                                    if alt != "" then alt else "No alt text",
                                    if img.naturalWidth != 0 then img.naturalWidth else img.width,
                                    if img.naturalHeight != 0 then img.naturalHeight else img.height,
                                    if img.loading != "" then img.loading else "eager")];
      assert page.images[..i + 1][..i] == page.images[..i];
    }
    assert page.images[..|page.images|] == page.images;
  }

  // ---------------------------------------------------------------------
  // Metadata
  // ---------------------------------------------------------------------

  datatype Metadata = Metadata(
    title: string, description: string, keywords: string, author: string,
    ogTitle: string, ogDescription: string, ogImage: string,
    canonical: string, robots: string, viewport: string,
    charset: string, language: string)

  /** `value || 'N/A'`. */
  function OrNA(value: string): (r: string)
    ensures r != "" && (value != "" ==> r == value)
    ensures value == "" ==> r == "N/A"
  {
    if value != "" then value else "N/A"
  }

  /** `element?.content || 'N/A'`: a missing element reads as undefined. */
  function ContentOrNA(content: Option<string>): (r: string)
    ensures Defaulted(r, content)
  {
    OrNA(content.GetOr(""))
  }

  /** A report field taken from `source`: the source itself when non-empty, "N/A" otherwise. */
  predicate Defaulted(field: string, source: Option<string>) {
    if source.Some? && source.value != "" then field == source.value else field == "N/A"
  }

  /**
   * `Scrapers.getMetadata`: the title as it is; every other field is its
   * source when that is present and non-empty and "N/A" otherwise, so no
   * field but the title is ever empty.
   */
  function GetMetadata(page: Page): (m: Metadata)
    ensures m.title == page.title
    ensures Defaulted(m.description, page.description) && Defaulted(m.keywords, page.keywords)
    ensures Defaulted(m.author, page.author)
    ensures Defaulted(m.ogTitle, page.ogTitle) && Defaulted(m.ogDescription, page.ogDescription)
    ensures Defaulted(m.ogImage, page.ogImage)
    ensures Defaulted(m.canonical, page.canonical) && Defaulted(m.robots, page.robots)
    ensures Defaulted(m.viewport, page.viewport)
    ensures Defaulted(m.charset, Some(page.charset)) && Defaulted(m.language, Some(page.lang))
    ensures m.description != "" && m.keywords != "" && m.author != "" && m.ogTitle != ""
    ensures m.ogDescription != "" && m.ogImage != "" && m.canonical != "" && m.robots != ""
    ensures m.viewport != "" && m.charset != "" && m.language != ""
  {
    Metadata(
      page.title,
      ContentOrNA(page.description),
      ContentOrNA(page.keywords),
      ContentOrNA(page.author),
      ContentOrNA(page.ogTitle),
      ContentOrNA(page.ogDescription),
      ContentOrNA(page.ogImage),
      ContentOrNA(page.canonical),
      ContentOrNA(page.robots),
      ContentOrNA(page.viewport),
      OrNA(page.charset),
      OrNA(page.lang))
  }

  // ---------------------------------------------------------------------
  // Structure
  // ---------------------------------------------------------------------

  datatype HeadingCounts = HeadingCounts(h1: nat, h2: nat, h3: nat, h4: nat, h5: nat, h6: nat)
  datatype ElementCounts = ElementCounts(paragraphs: nat, lists: nat, tables: nat, forms: nat, buttons: nat, inputs: nat)
  datatype MediaCounts = MediaCounts(images: nat, videos: nat, audios: nat, iframes: nat)
  datatype Structure = Structure(headings: HeadingCounts, elements: ElementCounts, media: MediaCounts)

  function AtLevel(level: int): Heading -> bool {
    (h: Heading) => h.level == level
  }

  /** `document.querySelectorAll('h<level>').length`. */
  function CountLevel(headings: seq<Heading>, level: int): nat {
    CountIf(headings, AtLevel(level))
  }

  /** Every heading has exactly one of the six levels, so the six counts add up to the number of headings. */
  lemma {:induction false} LevelCountsSum(headings: seq<Heading>)
    ensures CountLevel(headings, 1) + CountLevel(headings, 2) + CountLevel(headings, 3)
          + CountLevel(headings, 4) + CountLevel(headings, 5) + CountLevel(headings, 6) == |headings|
  {
    if headings != [] {
      LevelCountsSum(headings[..|headings| - 1]);
    }
  }

  /**
   * `Scrapers.getStructure`: element counts. The heading counts add up to the
   * number of headings; paragraphs, inputs and images are counted from the
   * same collections the other scrapers read.
   */
  function GetStructure(page: Page): (s: Structure)
    ensures s.headings.h1 + s.headings.h2 + s.headings.h3
          + s.headings.h4 + s.headings.h5 + s.headings.h6 == |page.headings|
    ensures s.headings.h1 == CountLevel(page.headings, 1) && s.headings.h2 == CountLevel(page.headings, 2)
    ensures s.headings.h3 == CountLevel(page.headings, 3) && s.headings.h4 == CountLevel(page.headings, 4)
    ensures s.headings.h5 == CountLevel(page.headings, 5) && s.headings.h6 == CountLevel(page.headings, 6)
    ensures s.elements.paragraphs == |page.paragraphs| && s.elements.inputs == |page.inputs|
    ensures s.elements.lists == page.listCount && s.elements.tables == page.tableCount
    ensures s.elements.forms == page.formCount && s.elements.buttons == page.buttonCount
    ensures s.media.images == |page.images| && s.media.videos == page.videoCount
    ensures s.media.audios == page.audioCount && s.media.iframes == page.iframeCount
  {
    LevelCountsSum(page.headings);
    Structure(
      HeadingCounts(CountLevel(page.headings, 1), CountLevel(page.headings, 2), CountLevel(page.headings, 3),
                    CountLevel(page.headings, 4), CountLevel(page.headings, 5), CountLevel(page.headings, 6)),
      ElementCounts(|page.paragraphs|, page.listCount, page.tableCount, page.formCount,
                    page.buttonCount, |page.inputs|),
      MediaCounts(|page.images|, page.videoCount, page.audioCount, page.iframeCount))
  }

  // ---------------------------------------------------------------------
  // Text content
  // ---------------------------------------------------------------------

  datatype HeadingText = HeadingText(level: string, text: string)
  datatype TextContent = TextContent(headings: seq<HeadingText>, paragraphs: seq<string>, lists: seq<string>)

  /** `heading.tagName.toLowerCase()`: "h1" .. "h6". */
  function TagName(level: HeadingLevel): (name: string)
    ensures |name| == 2 && name[0] == 'h' && name[1] as int == '0' as int + level
  {
    match level
    case 1 => "h1"
    case 2 => "h2"
    case 3 => "h3"
    case 4 => "h4"
    case 5 => "h5"
    case 6 => "h6"
  }

  /** A paragraph is kept when its sanitized text is longer than 20 characters. */
  predicate IsSubstantial(p: string) {
    |Utils.Sanitize(p)| > 20
  }

  /** A kept paragraph: its sanitized text cut to 200 characters (plus "..."). */
  function Excerpt(p: string): (r: string)
    ensures IsSubstantial(p) ==> 20 < |r|
    ensures |r| <= 203
  {
    Utils.Truncate(Utils.Sanitize(p), 200)
  }

  /**
   * The paragraph entries: the substantial ones among the first ten
   * paragraphs, excerpted, in order; one entry per such paragraph.
   */
  function Paragraphs(paragraphs: seq<string>): (r: seq<string>)
    ensures |r| == CountIf(paragraphs[..Min(10, |paragraphs|)], IsSubstantial) && |r| <= 10
  {
    FilterMapLength(paragraphs[..Min(10, |paragraphs|)], IsSubstantial, Excerpt);
    FilterMap(paragraphs[..Min(10, |paragraphs|)], IsSubstantial, Excerpt)
  }

  /** The entry for one heading: its lower-case tag name and its sanitized text. */
  function HeadingEntry(heading: Heading): (e: HeadingText)
    ensures e.level == TagName(heading.level)
    ensures |e.text| <= |heading.text|
  {
    HeadingText(TagName(heading.level), Utils.Sanitize(heading.text))
  }

  /** The heading pass of `getTextContent`: every heading, in order, with its tag name and sanitized text. */
  method CollectHeadings(headings: seq<Heading>) returns (entries: seq<HeadingText>)
    ensures entries == Map(headings, HeadingEntry)
  {
    entries := [];
    for i := 0 to |headings|
      invariant entries == Map(headings[..i], HeadingEntry)
    {
      var heading := headings[i];
      entries := entries + [HeadingText(TagName(heading.level), Utils.Sanitize(heading.text))];
      assert headings[..i + 1][..i] == headings[..i];
    }
    assert headings[..|headings|] == headings;
  }

  /** The paragraph pass of `getTextContent`: only the first ten paragraphs are looked at. */
  method CollectParagraphs(ps: seq<string>) returns (entries: seq<string>)
    ensures entries == Paragraphs(ps)
  {
    entries := [];
    for idx := 0 to |ps|
      invariant entries == FilterMap(ps[..Min(idx, 10)], IsSubstantial, Excerpt)
    {
      if idx < 10 {
        var text := Utils.Sanitize(ps[idx]);
        if |text| > 20 {
          entries := entries + [Utils.Truncate(text, 200)];
        }
        assert ps[..idx + 1][..idx] == ps[..idx];
      }
    }
  }

  /** The list-item pass of `getTextContent`: the sanitized text of the first twenty items, in order. */
  method CollectListItems(items: seq<string>) returns (entries: seq<string>)
    ensures entries == Map(items[..Min(20, |items|)], Utils.Sanitize)
  {
    entries := [];
    for idx := 0 to |items|
      invariant entries == Map(items[..Min(idx, 20)], Utils.Sanitize)
    {
      if idx < 20 {
        entries := entries + [Utils.Sanitize(items[idx])];
        assert items[..idx + 1][..idx] == items[..idx];
      }
    }
  }

  /**
   * `Scrapers.getTextContent`: every heading with its tag name and sanitized
   * text; the substantial paragraphs among the first ten; the sanitized text
   * of the first twenty list items.
   */
  method GetTextContent(page: Page) returns (content: TextContent)
    ensures content.headings == Map(page.headings, HeadingEntry)
    ensures content.paragraphs == Paragraphs(page.paragraphs)
    ensures content.lists == Map(page.listItems[..Min(20, |page.listItems|)], Utils.Sanitize)
    ensures |content.headings| == |page.headings|
    ensures |content.paragraphs| <= 10 && |content.lists| <= 20
  {
    var headings := CollectHeadings(page.headings);
    var paragraphs := CollectParagraphs(page.paragraphs);
    var lists := CollectListItems(page.listItems);
    content := TextContent(headings, paragraphs, lists);
  }

  /**
   * The paragraph bounds: at most ten entries, each drawn from one of the
   * first ten paragraphs whose sanitized text is longer than 20 characters,
   * and each between 21 and 203 characters long.
   */
  lemma ParagraphBounds(paragraphs: seq<string>)
    ensures |Paragraphs(paragraphs)| <= 10
    ensures forall e :: e in Paragraphs(paragraphs) ==>
      && 20 < |e| <= 203
      && exists i :: 0 <= i < Min(10, |paragraphs|) && IsSubstantial(paragraphs[i]) && e == Excerpt(paragraphs[i])
  {
    forall e | e in Paragraphs(paragraphs)
      ensures 20 < |e| <= 203
      ensures exists i :: 0 <= i < Min(10, |paragraphs|) && IsSubstantial(paragraphs[i]) && e == Excerpt(paragraphs[i])
    {
      ParagraphOrigin(paragraphs, e);
    }
  }

  /** Where one kept paragraph comes from. */
  lemma ParagraphOrigin(paragraphs: seq<string>, e: string)
    requires e in Paragraphs(paragraphs)
    ensures 20 < |e| <= 203
    ensures exists i :: 0 <= i < Min(10, |paragraphs|) && IsSubstantial(paragraphs[i]) && e == Excerpt(paragraphs[i])
  {
    var first := paragraphs[..Min(10, |paragraphs|)];
    var i := FilterMapSound(first, IsSubstantial, Excerpt, e);
    assert first[i] == paragraphs[i];
  }

  // ---------------------------------------------------------------------
  // Messages of the two audits
  // ---------------------------------------------------------------------

  /**
   * Every message the SEO and accessibility audits can report. The reports
   * hold these values; `Text` renders each one as the exact text the audit
   * pushes, and `TextInjective` shows that no two messages render alike, so
   * nothing said about the values is lost in the rendering.
   */
  datatype Message =
    // SEO issues
    | TitleTooShort | TitleTooLong
    | DescriptionMissing | DescriptionTooShort | DescriptionTooLong
    | NoH1 | MultipleH1
    | ImagesMissingAlt(count: nat)
    | NotHttps
    // SEO recommendations
    | AllClear | FixIssues
    // accessibility issues
    | ImagesWithoutAlt(count: nat) | InputsWithoutLabels(count: nat)
    | LanguageNotSet | HierarchyGaps
    // accessibility passes
    | AllImagesHaveAlt | AllInputsLabelled | LanguageSet | HierarchyCorrect

  /** A message that starts with a count. */
  predicate IsCounted(m: Message) {
    m.ImagesMissingAlt? || m.ImagesWithoutAlt? || m.InputsWithoutLabels?
  }

  /** The fixed part of a message: all of it, or what follows the count. */
  function Phrase(m: Message): (s: string)
    ensures s != [] && !Decimal.IsDigit(s[0])
  {
    match m
    case TitleTooShort => "Title tag is missing or too short"
    case TitleTooLong => "Title tag is too long (>60 chars)"
    case DescriptionMissing => "Meta description is missing"
    case DescriptionTooShort => "Meta description is too short"
    case DescriptionTooLong => "Meta description is too long"
    case NoH1 => "No H1 tag found"
    case MultipleH1 => "Multiple H1 tags found"
    case ImagesMissingAlt(_) => " images missing alt text"
    case NotHttps => "Site not using HTTPS"
    case AllClear => "Great job! No major SEO issues found."
    case FixIssues => "Fix the issues listed above to improve SEO"
    case ImagesWithoutAlt(_) => " images without alt text"
    case InputsWithoutLabels(_) => " inputs without labels"
    case LanguageNotSet => "Page language not set"
    case HierarchyGaps => "Heading hierarchy has gaps"
    case AllImagesHaveAlt => "All images have alt text"
    case AllInputsLabelled => "All inputs have labels"
    case LanguageSet => "Page language is set"
    case HierarchyCorrect => "Heading hierarchy is correct"
  }

  /** `${count} <phrase>` for the counted messages, the phrase alone otherwise. */
  function Text(m: Message): (s: string)
    ensures IsCounted(m) ==> s == Decimal.FromNat(m.count) + Phrase(m)
    ensures !IsCounted(m) ==> s == Phrase(m)
    ensures s != [] && (Decimal.IsDigit(s[0]) <==> IsCounted(m))
  {
    if IsCounted(m) then Decimal.FromNat(m.count) + Phrase(m) else Phrase(m)
  }

  /** Distinct messages have distinct phrases, except the counted ones, which differ in their count. */
  lemma PhraseInjective(a: Message, b: Message)
    requires Phrase(a) == Phrase(b)
    ensures IsCounted(a) <==> IsCounted(b)
    ensures IsCounted(a) ==> a.(count := b.count) == b
    ensures !IsCounted(a) ==> a == b
  {
    if a.TitleTooShort? || a.TitleTooLong? || a.DescriptionMissing? || a.DescriptionTooShort?
      || a.DescriptionTooLong? || a.NoH1? || a.MultipleH1? || a.ImagesMissingAlt? || a.NotHttps? {
      SeoIssuePhrases(a, b);
    } else if a.AllClear? || a.FixIssues? || a.ImagesWithoutAlt? || a.InputsWithoutLabels?
      || a.LanguageNotSet? || a.HierarchyGaps? {
      OtherIssuePhrases(a, b);
    } else {
      PassPhrases(a, b);
    }
  }

  /** `PhraseInjective` for the SEO issues. */
  lemma SeoIssuePhrases(a: Message, b: Message)
    requires a.TitleTooShort? || a.TitleTooLong? || a.DescriptionMissing? || a.DescriptionTooShort?
      || a.DescriptionTooLong? || a.NoH1? || a.MultipleH1? || a.ImagesMissingAlt? || a.NotHttps?
    requires Phrase(a) == Phrase(b)
    ensures IsCounted(a) <==> IsCounted(b)
    ensures IsCounted(a) ==> a.(count := b.count) == b
    ensures !IsCounted(a) ==> a == b
  {
    match a
    case TitleTooShort =>
    case TitleTooLong =>
    case DescriptionMissing =>
    case DescriptionTooShort =>
    case DescriptionTooLong =>
    case NoH1 =>
    case MultipleH1 =>
    case ImagesMissingAlt(_) =>
    case NotHttps =>
    case _ =>
  }

  /** `PhraseInjective` for the SEO recommendations and the accessibility issues. */
  lemma OtherIssuePhrases(a: Message, b: Message)
    requires a.AllClear? || a.FixIssues? || a.ImagesWithoutAlt? || a.InputsWithoutLabels?
      || a.LanguageNotSet? || a.HierarchyGaps?
    requires Phrase(a) == Phrase(b)
    ensures IsCounted(a) <==> IsCounted(b)
    ensures IsCounted(a) ==> a.(count := b.count) == b
    ensures !IsCounted(a) ==> a == b
  {
    match a
    case AllClear =>
    case FixIssues =>
    case ImagesWithoutAlt(_) =>
    case InputsWithoutLabels(_) =>
    case LanguageNotSet =>
    case HierarchyGaps =>
    case _ =>
  }

  /** `PhraseInjective` for the accessibility passes. */
  lemma PassPhrases(a: Message, b: Message)
    requires a.AllImagesHaveAlt? || a.AllInputsLabelled? || a.LanguageSet? || a.HierarchyCorrect?
    requires Phrase(a) == Phrase(b)
    ensures IsCounted(a) <==> IsCounted(b)
    ensures IsCounted(a) ==> a.(count := b.count) == b
    ensures !IsCounted(a) ==> a == b
  {
    match a
    case AllImagesHaveAlt =>
    case AllInputsLabelled =>
    case LanguageSet =>
    case HierarchyCorrect =>
    case _ =>
  }

  /** In a run of digits followed by a phrase, the first non-digit is where the phrase starts. */
  lemma FirstNonDigit(d: string, p: string)
    requires forall i :: 0 <= i < |d| ==> Decimal.IsDigit(d[i])
    requires p != [] && !Decimal.IsDigit(p[0])
    ensures forall i :: 0 <= i < |d| ==> Decimal.IsDigit((d + p)[i])
    ensures !Decimal.IsDigit((d + p)[|d|])
  {
  }

  /** A run of digits followed by a phrase that does not start with one splits in only one way. */
  lemma SplitAfterDigits(d1: string, p1: string, d2: string, p2: string)
    requires forall i :: 0 <= i < |d1| ==> Decimal.IsDigit(d1[i])
    requires forall i :: 0 <= i < |d2| ==> Decimal.IsDigit(d2[i])
    requires p1 != [] && !Decimal.IsDigit(p1[0])
    requires p2 != [] && !Decimal.IsDigit(p2[0])
    requires d1 + p1 == d2 + p2
    ensures d1 == d2 && p1 == p2
  {
    var s := d1 + p1;
    FirstNonDigit(d1, p1);
    FirstNonDigit(d2, p2);
    assert |d1| == |d2|;
    assert d1 == s[..|d1|] && d2 == s[..|d2|];
    assert p1 == s[|d1|..] && p2 == s[|d2|..];
  }

  /** No two messages render as the same text. */
  lemma TextInjective(a: Message, b: Message)
    requires Text(a) == Text(b)
    ensures a == b
  {
    if IsCounted(a) {
      assert IsCounted(b);
      SplitAfterDigits(Decimal.FromNat(a.count), Phrase(a), Decimal.FromNat(b.count), Phrase(b));
      Decimal.FromNatInjective(a.count, b.count);
      PhraseInjective(a, b);
    } else {
      PhraseInjective(a, b);
    }
  }

  // ---------------------------------------------------------------------
  // SEO analysis
  // ---------------------------------------------------------------------

  datatype SeoReport = SeoReport(score: nat, issues: seq<Message>, recommendations: seq<Message>)

  /** `!img.alt`: the SEO audit treats an empty alt attribute like a missing one. */
  predicate LacksAltText(img: Image) {
    AltProperty(img) == ""
  }

  /** Lines 277-283: a title of 10 to 60 characters passes; a shorter or longer one raises its own issue. */
  function TitleCheck(page: Page): (c: Check<Message>)
    ensures c.passed <==> 10 <= |page.title| <= 60
    ensures |page.title| < 10 ==> c.issue == Some(TitleTooShort)
    ensures |page.title| > 60 ==> c.issue == Some(TitleTooLong)
    ensures c.passed ==> c.issue == None
    ensures c.note == None
  {
    if page.title == "" || |page.title| < 10 then Check(false, Some(TitleTooShort), None)
    else if |page.title| > 60 then Check(false, Some(TitleTooLong), None)
    else Check(true, None, None)
  }

  /** Lines 286-295: a description of 50 to 160 characters passes; a missing or empty one, a shorter or a longer one raises its own issue. */
  function DescriptionCheck(page: Page): (c: Check<Message>)
    ensures c.passed <==> page.description.Some? && 50 <= |page.description.value| <= 160
    ensures page.description.None? || page.description.value == "" ==> c.issue == Some(DescriptionMissing)
    ensures page.description.Some? && 0 < |page.description.value| < 50 ==> c.issue == Some(DescriptionTooShort)
    ensures page.description.Some? && |page.description.value| > 160 ==> c.issue == Some(DescriptionTooLong)
    ensures c.passed ==> c.issue == None
    ensures c.note == None
  {
    if page.description.None? || page.description.value == "" then Check(false, Some(DescriptionMissing), None)
    else if |page.description.value| < 50 then Check(false, Some(DescriptionTooShort), None)
    else if |page.description.value| > 160 then Check(false, Some(DescriptionTooLong), None)
    else Check(true, None, None)
  }

  /** Lines 298-305: exactly one `h1` passes; none or several raise their own issue. */
  function H1Check(page: Page): (c: Check<Message>)
    ensures c.passed <==> CountLevel(page.headings, 1) == 1
    ensures CountLevel(page.headings, 1) == 0 ==> c.issue == Some(NoH1)
    ensures CountLevel(page.headings, 1) > 1 ==> c.issue == Some(MultipleH1)
    ensures c.passed ==> c.issue == None
    ensures c.note == None
  {
    var h1Count := CountLevel(page.headings, 1);
    if h1Count == 0 then Check(false, Some(NoH1), None)
    else if h1Count > 1 then Check(false, Some(MultipleH1), None)
    else Check(true, None, None)
  }

  /**
   * Lines 308-313: images with an empty or missing alt raise one issue that
   * carries their number; otherwise the check passes only if there is an image.
   */
  function SeoAltCheck(page: Page): (c: Check<Message>)
    ensures c.passed <==> |page.images| > 0 && CountIf(page.images, LacksAltText) == 0
    ensures CountIf(page.images, LacksAltText) > 0 ==> c.issue == Some(ImagesMissingAlt(CountIf(page.images, LacksAltText)))
    ensures CountIf(page.images, LacksAltText) == 0 ==> c.issue == None
    ensures c.note == None
  {
    var missing := CountIf(page.images, LacksAltText);
    if missing > 0 then Check(false, Some(ImagesMissingAlt(missing)), None)
    else Check(|page.images| > 0, None, None)
  }

  /** Canonical, robots and viewport only add points; their absence is not an issue. */
  function PresenceCheck(element: Option<string>): (c: Check<Message>)
    ensures c.passed <==> element.Some?
    ensures c.issue == None && c.note == None
  {
    Check(element.Some?, None, None)
  }

  /** Lines 331-335: an `https:` page passes; any other protocol raises the HTTPS issue. */
  function HttpsCheck(page: Page): (c: Check<Message>)
    ensures c.passed <==> page.protocol == "https:"
    ensures c.issue == (if c.passed then None else Some(NotHttps))
    ensures c.note == None
  {
    if page.protocol == "https:" then Check(true, None, None) else Check(false, Some(NotHttps), None)
  }

  /** The eight SEO checks, in the order the audit runs them. */
  function SeoChecks(page: Page): (cs: seq<Check<Message>>)
    ensures |cs| == 8
  {
    SeoContentChecks(page) + SeoTagChecks(page)
  }

  /** The first four SEO checks: title, description, `h1` and image alt text. */
  function SeoContentChecks(page: Page): (cs: seq<Check<Message>>)
    ensures |cs| == 4
  {
    [TitleCheck(page), DescriptionCheck(page), H1Check(page), SeoAltCheck(page)]
  }

  /** The last four SEO checks: canonical link, robots and viewport meta elements, HTTPS. */
  function SeoTagChecks(page: Page): (cs: seq<Check<Message>>)
    ensures |cs| == 4
  {
    [PresenceCheck(page.canonical), PresenceCheck(page.robots), PresenceCheck(page.viewport), HttpsCheck(page)]
  }

  /** The title block of `getSEOAnalysis`: a title of 10 to 60 characters earns 10 points. */
  method SeoTitleStep(page: Page, score: nat, issues: seq<Message>) returns (score': nat, issues': seq<Message>)
    ensures score' == score + 10 * Points(TitleCheck(page))
    ensures issues' == issues + IssueOf(TitleCheck(page))
  {
    score', issues' := score, issues;
    if page.title == "" || |page.title| < 10 {
      issues' := issues' + [TitleTooShort];
    } else if |page.title| > 60 {
      issues' := issues' + [TitleTooLong];
    } else {
      score' := score' + 10;
    }
  }

  /** The description block: a description of 50 to 160 characters earns 10 points. */
  method SeoDescriptionStep(page: Page, score: nat, issues: seq<Message>) returns (score': nat, issues': seq<Message>)
    ensures score' == score + 10 * Points(DescriptionCheck(page))
    ensures issues' == issues + IssueOf(DescriptionCheck(page))
  {
    score', issues' := score, issues;
    var description := page.description;
    if description.None? || description.value == "" {
      issues' := issues' + [DescriptionMissing];
    } else if |description.value| < 50 {
      issues' := issues' + [DescriptionTooShort];
    } else if |description.value| > 160 {
      issues' := issues' + [DescriptionTooLong];
    } else {
      score' := score' + 10;
    }
  }

  /** The H1 block: exactly one `h1` earns 10 points. */
  method SeoH1Step(page: Page, score: nat, issues: seq<Message>) returns (score': nat, issues': seq<Message>)
    ensures score' == score + 10 * Points(H1Check(page))
    ensures issues' == issues + IssueOf(H1Check(page))
  {
    score', issues' := score, issues;
    var h1Count := CountLevel(page.headings, 1);
    if h1Count == 0 {
      issues' := issues' + [NoH1];
    } else if h1Count > 1 {
      issues' := issues' + [MultipleH1];
    } else {
      score' := score' + 10;
    }
  }

  /** The image block: at least one image, and none with an empty alt, earns 10 points. */
  method SeoAltStep(page: Page, score: nat, issues: seq<Message>) returns (score': nat, issues': seq<Message>)
    ensures score' == score + 10 * Points(SeoAltCheck(page))
    ensures issues' == issues + IssueOf(SeoAltCheck(page))
  {
    score', issues' := score, issues;
    var imagesWithoutAlt := CountIf(page.images, LacksAltText);
    if imagesWithoutAlt > 0 {
      issues' := issues' + [ImagesMissingAlt(imagesWithoutAlt)];
    } else if |page.images| > 0 {
      score' := score' + 10;
    }
  }

  /** The canonical, robots and viewport blocks: the element being there earns 10 points. */
  method SeoPresenceStep(element: Option<string>, score: nat) returns (score': nat)
    ensures score' == score + 10 * Points(PresenceCheck(element))
    ensures IssueOf(PresenceCheck(element)) == []
  {
    score' := score;
    if element.Some? {
      score' := score' + 10;
    }
  }

  /** The SSL block: an `https:` page earns 10 points. */
  method SeoHttpsStep(page: Page, score: nat, issues: seq<Message>) returns (score': nat, issues': seq<Message>)
    ensures score' == score + 10 * Points(HttpsCheck(page))
    ensures issues' == issues + IssueOf(HttpsCheck(page))
  {
    score', issues' := score, issues;
    if page.protocol == "https:" {
      score' := score' + 10;
    } else {
      issues' := issues' + [NotHttps];
    }
  }

  /** The title, description, `h1` and image blocks of `getSEOAnalysis`, starting from a zero score. */
  method SeoContentRun(page: Page) returns (score: nat, issues: seq<Message>)
    ensures score == 10 * Passed(SeoContentChecks(page))
    ensures issues == Issues(SeoContentChecks(page))
  {
    score, issues := 0, [];
    // `done` is the list of the checks run so far; the score and the issues are its tally.
    ghost var done: seq<Check<Message>> := [];
    Step(done, TitleCheck(page), 10, 0, [], score, issues);
    score, issues := SeoTitleStep(page, score, issues);
    done := done + [TitleCheck(page)];
    Step(done, DescriptionCheck(page), 10, 0, [], score, issues);
    score, issues := SeoDescriptionStep(page, score, issues);
    done := done + [DescriptionCheck(page)];
    Step(done, H1Check(page), 10, 0, [], score, issues);
    score, issues := SeoH1Step(page, score, issues);
    done := done + [H1Check(page)];
    Step(done, SeoAltCheck(page), 10, 0, [], score, issues);
    score, issues := SeoAltStep(page, score, issues);
    done := done + [SeoAltCheck(page)];
    assert done == SeoContentChecks(page);
  }

  /** The canonical, robots, viewport and HTTPS blocks of `getSEOAnalysis`, continuing a score and issue list. */
  method SeoTagRun(page: Page, score0: nat, issues0: seq<Message>) returns (score: nat, issues: seq<Message>)
    ensures score == score0 + 10 * Passed(SeoTagChecks(page))
    ensures issues == issues0 + Issues(SeoTagChecks(page))
  {
    score, issues := score0, issues0;
    // `done` is the list of the checks run so far; the score and the issues are the start plus its tally.
    ghost var done: seq<Check<Message>> := [];
    Step(done, PresenceCheck(page.canonical), 10, score0, issues0, score, issues);
    score := SeoPresenceStep(page.canonical, score);
    done := done + [PresenceCheck(page.canonical)];
    Step(done, PresenceCheck(page.robots), 10, score0, issues0, score, issues);
    score := SeoPresenceStep(page.robots, score);
    done := done + [PresenceCheck(page.robots)];
    Step(done, PresenceCheck(page.viewport), 10, score0, issues0, score, issues);
    score := SeoPresenceStep(page.viewport, score);
    done := done + [PresenceCheck(page.viewport)];
    Step(done, HttpsCheck(page), 10, score0, issues0, score, issues);
    score, issues := SeoHttpsStep(page, score, issues);
    done := done + [HttpsCheck(page)];
    assert done == SeoTagChecks(page);
  }

  /**
   * `Scrapers.getSEOAnalysis`: 10 points per passed check, so a multiple of
   * 10 between 0 and 80; the issues of the failed checks in check order; and
   * exactly one recommendation, the congratulation exactly when there is no
   * issue.
   */
  method GetSEOAnalysis(page: Page) returns (seo: SeoReport)
    ensures seo.score == 10 * Passed(SeoChecks(page)) && seo.score <= 80
    ensures seo.issues == Issues(SeoChecks(page))
    ensures |seo.recommendations| == 1
    ensures seo.recommendations[0] == AllClear <==> seo.issues == []
    ensures seo.issues != [] ==> seo.recommendations[0] == FixIssues
  {
    var score, issues := SeoContentRun(page);
    score, issues := SeoTagRun(page, score, issues);
    Tally(SeoContentChecks(page), SeoTagChecks(page));

    var recommendations: seq<Message> := [];
    if |issues| == 0 {
      recommendations := recommendations + [AllClear];
    } else {
      recommendations := recommendations + [FixIssues];
    }
    seo := SeoReport(score, issues, recommendations);
  }

  /** The SEO totals, check by check. */
  lemma SeoTotals(page: Page)
    ensures Passed(SeoChecks(page)) == Points(TitleCheck(page)) + Points(DescriptionCheck(page))
      + Points(H1Check(page)) + Points(SeoAltCheck(page)) + Points(PresenceCheck(page.canonical))
      + Points(PresenceCheck(page.robots)) + Points(PresenceCheck(page.viewport)) + Points(HttpsCheck(page))
    ensures Issues(SeoChecks(page)) == IssueOf(TitleCheck(page)) + IssueOf(DescriptionCheck(page))
      + IssueOf(H1Check(page)) + IssueOf(SeoAltCheck(page)) + IssueOf(HttpsCheck(page))
  {
    Tally(SeoContentChecks(page), SeoTagChecks(page));
    Tally4(TitleCheck(page), DescriptionCheck(page), H1Check(page), SeoAltCheck(page));
    Tally4(PresenceCheck(page.canonical), PresenceCheck(page.robots), PresenceCheck(page.viewport), HttpsCheck(page));
  }

  /**
   * The H1 check: no `h1` raises "No H1 tag found", several raise "Multiple
   * H1 tags found", and exactly one earns the points and raises neither.
   */
  lemma SeoH1Outcome(page: Page)
    ensures CountLevel(page.headings, 1) == 0 <==> NoH1 in Issues(SeoChecks(page))
    ensures CountLevel(page.headings, 1) > 1 <==> MultipleH1 in Issues(SeoChecks(page))
    ensures CountLevel(page.headings, 1) == 1 <==> H1Check(page).passed
  {
    IssueIn(SeoChecks(page), NoH1);
    IssueIn(SeoChecks(page), MultipleH1);
  }

  /**
   * With no image the image check neither earns points nor raises an issue,
   * so such a page scores at most 70.
   */
  lemma SeoWithoutImages(page: Page)
    requires |page.images| == 0
    ensures SeoAltCheck(page) == Check(false, None, None)
    ensures 10 * Passed(SeoChecks(page)) <= 70
  {
    SeoTotals(page);
  }

  /**
   * Full marks: 80 points exactly when the title has 10 to 60 characters, the
   * description 50 to 160, there is one `h1`, at least one image and none with
   * an empty alt, a canonical link, robots and viewport meta elements, and the
   * page is on `https:`; such a page has no issue at all.
   */
  lemma SeoFullMarks(page: Page)
    ensures Passed(SeoChecks(page)) == 8 <==>
      && 10 <= |page.title| <= 60
      && page.description.Some? && 50 <= |page.description.value| <= 160
      && CountLevel(page.headings, 1) == 1
      && |page.images| > 0 && CountIf(page.images, LacksAltText) == 0
      && page.canonical.Some? && page.robots.Some? && page.viewport.Some?
      && page.protocol == "https:"
    ensures Passed(SeoChecks(page)) == 8 ==> Issues(SeoChecks(page)) == []
  {
    SeoTotals(page);
  }

  /** A page without any SEO issue still earns at least the title, description, H1 and HTTPS points. */
  lemma SeoNoIssuesFloor(page: Page)
    requires Issues(SeoChecks(page)) == []
    ensures 10 * Passed(SeoChecks(page)) >= 40
  {
    SeoTotals(page);
  }

  // ---------------------------------------------------------------------
  // Accessibility check
  // ---------------------------------------------------------------------

  datatype A11yReport = A11yReport(score: nat, issues: seq<Message>, passes: seq<Message>)

  const TransparentBackground := "rgba(0, 0, 0, 0)"

  /** `img:not([alt])`: only a missing attribute counts; an empty one does not. */
  predicate LacksAltAttribute(img: Image) {
    img.alt.None?
  }

  /** `!input.labels || input.labels.length === 0`. */
  predicate IsUnlabelled(input: Input) {
    input.labels == 0
  }

  /** `parseInt(h.tagName[1])` for every heading, in document order. */
  function Levels(headings: seq<Heading>): (levels: seq<int>)
    ensures |levels| == |headings|
    ensures forall i :: 0 <= i < |headings| ==> levels[i] == headings[i].level
  {
    seq(|headings|, i requires 0 <= i < |headings| => headings[i].level as int)
  }

  /** No heading is more than one level deeper than the heading before it; going back up by any amount is fine. */
  predicate HierarchyOk(levels: seq<int>) {
    forall i :: 1 <= i < |levels| ==> levels[i] - levels[i - 1] <= 1
  }

  /** The scan of lines 387-395: stop at the first heading that skips a level. */
  method HeadingHierarchyCorrect(levels: seq<int>) returns (hierarchyCorrect: bool)
    ensures hierarchyCorrect <==> HierarchyOk(levels)
  {
    hierarchyCorrect := true;
    var i := 1;
    while i < |levels|
      invariant 1 <= i
      invariant forall k :: 1 <= k < i && k < |levels| ==> levels[k] - levels[k - 1] <= 1
    {
      if levels[i] - levels[i - 1] > 1 {
        hierarchyCorrect := false;
        break;
      }
      i := i + 1;
    }
  }

  /** Appending a heading keeps the hierarchy correct exactly when it is at most one level deeper than the last one. */
  lemma HierarchyAppend(levels: seq<int>, next: int)
    ensures HierarchyOk(levels + [next]) <==>
      HierarchyOk(levels) && (levels == [] || next - levels[|levels| - 1] <= 1)
  {
    var s := levels + [next];
    assert forall i :: 0 <= i < |levels| ==> s[i] == levels[i];
    assert s[|levels|] == next;
    if HierarchyOk(levels) && (levels == [] || next - levels[|levels| - 1] <= 1) {
      forall i | 1 <= i < |s| ensures s[i] - s[i - 1] <= 1 {
        if i < |levels| {
          assert s[i] == levels[i] && s[i - 1] == levels[i - 1];
        }
      }
    }
    if HierarchyOk(s) && levels != [] {
      assert s[|levels|] - s[|levels| - 1] <= 1;
    }
  }

  /** Skipping from h2 to h4 fails; going h1, h2, h3 and back to h2 passes. */
  lemma HierarchyExamples()
    ensures !HierarchyOk([1, 2, 4])
    ensures HierarchyOk([1, 2, 3, 2])
  {
    assert [1, 2, 4][2] - [1, 2, 4][1] == 2;
  }

  /**
   * Lines 359-365: no image without an alt attribute passes with a note, even
   * on a page with no image; otherwise one issue carries their number.
   */
  function A11yAltCheck(page: Page): (c: Check<Message>)
    ensures c.passed <==> CountIf(page.images, LacksAltAttribute) == 0
    ensures c.passed ==> c.issue == None && c.note == Some(AllImagesHaveAlt)
    ensures !c.passed ==> c.issue == Some(ImagesWithoutAlt(CountIf(page.images, LacksAltAttribute))) && c.note == None
  {
    var missing := CountIf(page.images, LacksAltAttribute);
    if missing > 0 then Check(false, Some(ImagesWithoutAlt(missing)), None)
    else Check(true, None, Some(AllImagesHaveAlt))
  }

  /**
   * Lines 368-376: unlabelled inputs raise one issue that carries their
   * number; otherwise the check passes with a note only if there is an input.
   */
  function LabelCheck(page: Page): (c: Check<Message>)
    ensures c.passed <==> |page.inputs| > 0 && CountIf(page.inputs, IsUnlabelled) == 0
    ensures c.passed ==> c.issue == None && c.note == Some(AllInputsLabelled)
    ensures CountIf(page.inputs, IsUnlabelled) > 0 ==> c.issue == Some(InputsWithoutLabels(CountIf(page.inputs, IsUnlabelled)))
    ensures CountIf(page.inputs, IsUnlabelled) == 0 ==> c.issue == None
    ensures !c.passed ==> c.note == None
  {
    var unlabelled := CountIf(page.inputs, IsUnlabelled);
    if unlabelled > 0 then Check(false, Some(InputsWithoutLabels(unlabelled)), None)
    else if |page.inputs| > 0 then Check(true, None, Some(AllInputsLabelled))
    else Check(false, None, None)
  }

  /** Lines 379-384: a non-empty `lang` passes with a note; otherwise the language issue is raised. */
  function LanguageCheck(page: Page): (c: Check<Message>)
    ensures c.passed <==> page.lang != ""
    ensures c.passed ==> c.issue == None && c.note == Some(LanguageSet)
    ensures !c.passed ==> c.issue == Some(LanguageNotSet) && c.note == None
  {
    if page.lang != "" then Check(true, None, Some(LanguageSet)) else Check(false, Some(LanguageNotSet), None)
  }

  /**
   * Lines 396-401: at least one heading and no skipped level passes with a
   * note; a skipped level raises the gaps issue; no heading does neither.
   */
  function HierarchyCheck(page: Page): (c: Check<Message>)
    ensures c.passed <==> |page.headings| > 0 && HierarchyOk(Levels(page.headings))
    ensures c.passed ==> c.note == Some(HierarchyCorrect)
    ensures c.issue == (if HierarchyOk(Levels(page.headings)) then None else Some(HierarchyGaps))
    ensures !c.passed ==> c.note == None
  {
    var ok := HierarchyOk(Levels(page.headings));
    if ok && |page.headings| > 0 then Check(true, None, Some(HierarchyCorrect))
    else if !ok then Check(false, Some(HierarchyGaps), None)
    else Check(false, None, None)
  }

  /** Lines 404-406: a body background other than transparent black passes, silently. */
  function ContrastCheck(page: Page): (c: Check<Message>)
    ensures c.passed <==> page.bodyBackground != "rgba(0, 0, 0, 0)"
    ensures c.issue == None && c.note == None
  {
    Check(page.bodyBackground != TransparentBackground, None, None)
  }

  /** The five accessibility checks, in the order the audit runs them. */
  function A11yChecks(page: Page): (cs: seq<Check<Message>>)
    ensures |cs| == 5
  {
    [A11yAltCheck(page), LabelCheck(page), LanguageCheck(page), HierarchyCheck(page), ContrastCheck(page)]
  }

  /** The image block of `getAccessibility`: no image without an alt attribute earns 20 points. */
  method A11yAltStep(page: Page, score: nat, issues: seq<Message>, passes: seq<Message>)
    returns (score': nat, issues': seq<Message>, passes': seq<Message>)
    ensures score' == score + 20 * Points(A11yAltCheck(page))
    ensures issues' == issues + IssueOf(A11yAltCheck(page)) && passes' == passes + NoteOf(A11yAltCheck(page))
  {
    score', issues', passes' := score, issues, passes;
    var imgsWithoutAlt := CountIf(page.images, LacksAltAttribute);
    if imgsWithoutAlt > 0 {
      issues' := issues' + [ImagesWithoutAlt(imgsWithoutAlt)];
    } else {
      passes' := passes' + [AllImagesHaveAlt];
      score' := score' + 20;
    }
  }

  /** The label block: at least one input, and every input labelled, earns 20 points. */
  method A11yLabelStep(page: Page, score: nat, issues: seq<Message>, passes: seq<Message>)
    returns (score': nat, issues': seq<Message>, passes': seq<Message>)
    ensures score' == score + 20 * Points(LabelCheck(page))
    ensures issues' == issues + IssueOf(LabelCheck(page)) && passes' == passes + NoteOf(LabelCheck(page))
  {
    score', issues', passes' := score, issues, passes;
    var inputsWithoutLabel := CountIf(page.inputs, IsUnlabelled);
    if inputsWithoutLabel > 0 {
      issues' := issues' + [InputsWithoutLabels(inputsWithoutLabel)];
    } else if |page.inputs| > 0 {
      passes' := passes' + [AllInputsLabelled];
      score' := score' + 20;
    }
  }

  /** The language block: a non-empty `lang` earns 20 points. */
  method A11yLanguageStep(page: Page, score: nat, issues: seq<Message>, passes: seq<Message>)
    returns (score': nat, issues': seq<Message>, passes': seq<Message>)
    ensures score' == score + 20 * Points(LanguageCheck(page))
    ensures issues' == issues + IssueOf(LanguageCheck(page)) && passes' == passes + NoteOf(LanguageCheck(page))
  {
    score', issues', passes' := score, issues, passes;
    if page.lang != "" {
      passes' := passes' + [LanguageSet];
      score' := score' + 20;
    } else {
      issues' := issues' + [LanguageNotSet];
    }
  }

  /** The heading block: at least one heading, and no skipped level, earns 20 points. */
  method A11yHierarchyStep(page: Page, score: nat, issues: seq<Message>, passes: seq<Message>)
    returns (score': nat, issues': seq<Message>, passes': seq<Message>)
    ensures score' == score + 20 * Points(HierarchyCheck(page))
    ensures issues' == issues + IssueOf(HierarchyCheck(page)) && passes' == passes + NoteOf(HierarchyCheck(page))
  {
    score', issues', passes' := score, issues, passes;
    var levels := Levels(page.headings);
    var hierarchyCorrect := HeadingHierarchyCorrect(levels);
    if hierarchyCorrect && |page.headings| > 0 {
      passes' := passes' + [HierarchyCorrect];
      score' := score' + 20;
    } else if !hierarchyCorrect {
      issues' := issues' + [HierarchyGaps];
    }
  }

  /** The colour block: a body background other than fully transparent black earns 20 points. */
  method A11yContrastStep(page: Page, score: nat) returns (score': nat)
    ensures score' == score + 20 * Points(ContrastCheck(page))
    ensures IssueOf(ContrastCheck(page)) == [] && NoteOf(ContrastCheck(page)) == []
  {
    score' := score;
    if page.bodyBackground != TransparentBackground {
      score' := score' + 20;
    }
  }

  /**
   * `Scrapers.getAccessibility`: 20 points per passed check, so a multiple of
   * 20 between 0 and 100, with the issues and the pass notes in check order.
   */
  method GetAccessibility(page: Page) returns (a11y: A11yReport)
    ensures a11y.score == 20 * Passed(A11yChecks(page)) && a11y.score <= 100
    ensures a11y.issues == Issues(A11yChecks(page))
    ensures a11y.passes == Notes(A11yChecks(page))
  {
    var score: nat := 0;
    var issues: seq<Message> := [];
    var passes: seq<Message> := [];
    score, issues, passes := A11yAltStep(page, score, issues, passes);
    score, issues, passes := A11yLabelStep(page, score, issues, passes);
    score, issues, passes := A11yLanguageStep(page, score, issues, passes);
    score, issues, passes := A11yHierarchyStep(page, score, issues, passes);
    score := A11yContrastStep(page, score);
    Run5(A11yAltCheck(page), LabelCheck(page), LanguageCheck(page), HierarchyCheck(page), ContrastCheck(page),
         20, score, issues, passes);
    a11y := A11yReport(score, issues, passes);
  }

  /** The accessibility totals, check by check. */
  lemma A11yTotals(page: Page)
    ensures Passed(A11yChecks(page)) == Points(A11yAltCheck(page)) + Points(LabelCheck(page))
      + Points(LanguageCheck(page)) + Points(HierarchyCheck(page)) + Points(ContrastCheck(page))
    ensures Issues(A11yChecks(page)) == IssueOf(A11yAltCheck(page)) + IssueOf(LabelCheck(page))
      + IssueOf(LanguageCheck(page)) + IssueOf(HierarchyCheck(page))
    ensures Notes(A11yChecks(page)) == NoteOf(A11yAltCheck(page)) + NoteOf(LabelCheck(page))
      + NoteOf(LanguageCheck(page)) + NoteOf(HierarchyCheck(page))
  {
    Tally5(A11yAltCheck(page), LabelCheck(page), LanguageCheck(page), HierarchyCheck(page), ContrastCheck(page));
  }

  /**
   * The hierarchy check earns its points exactly when there is a heading and
   * no heading skips a level, and raises "Heading hierarchy has gaps"
   * exactly when some heading does.
   */
  lemma A11yHierarchyOutcome(page: Page)
    ensures HierarchyCheck(page).passed <==> |page.headings| > 0 && HierarchyOk(Levels(page.headings))
    ensures HierarchyGaps in Issues(A11yChecks(page)) <==> !HierarchyOk(Levels(page.headings))
  {
    IssueIn(A11yChecks(page), HierarchyGaps);
  }

  /** A page without images passes the accessibility image check: 20 points, a pass note and no issue. */
  lemma A11yWithoutImages(page: Page)
    requires |page.images| == 0
    ensures A11yAltCheck(page) == Check(true, None, Some(AllImagesHaveAlt))
    ensures AllImagesHaveAlt in Notes(A11yChecks(page))
  {
    NoteIn(A11yChecks(page), AllImagesHaveAlt);
  }

  /**
   * The two audits count missing alt text differently: the SEO audit counts
   * every image the accessibility audit counts, and also those whose alt is
   * present but empty.
   */
  lemma AltCountsDiffer(images: seq<Image>)
    ensures CountIf(images, LacksAltAttribute) <= CountIf(images, LacksAltText)
    ensures forall img: Image :: img.alt == Some("") ==> LacksAltText(img) && !LacksAltAttribute(img)
  {
    CountIfMonotone(images, LacksAltAttribute, LacksAltText);
  }

  // ---------------------------------------------------------------------
  // Resources
  // ---------------------------------------------------------------------

  datatype ScriptInfo = ScriptInfo(src: string, async: bool, defer: bool)
  datatype Resources = Resources(scripts: seq<ScriptInfo>, stylesheets: seq<string>, fonts: seq<string>, other: seq<string>)

  /** Matched by `script[src]`. */
  predicate HasSrc(script: Script) { script.src.Some? }

  function ToScriptInfo(script: Script): (info: ScriptInfo)
    ensures script.src.Some? ==> info.src == script.src.value
    ensures info.async == script.async && info.defer == script.defer
  {
    ScriptInfo(script.src.GetOr(""), script.async, script.defer)
  }

  /** ASCII lower-casing of one character: only `A`..`Z` change. */
  function AsciiLowerChar(c: char): (d: char)
    ensures 'A' <= c <= 'Z' ==> d as int == c as int + 32
    ensures !('A' <= c <= 'Z') ==> d == c
    ensures !('A' <= d <= 'Z')
  {
    if 'A' <= c <= 'Z' then (c as int + 32) as char else c
  }

  /**
   * ASCII lower-casing of a string. In an HTML document, attribute selectors
   * compare the value of `rel` ASCII case-insensitively, so both sides are
   * compared lower-cased.
   */
  function AsciiLower(s: string): (r: string)
    ensures |r| == |s|
    ensures forall i :: 0 <= i < |s| ==> r[i] == AsciiLowerChar(s[i])
  {
    seq(|s|, i requires 0 <= i < |s| => AsciiLowerChar(s[i]))
  }

  /** Matched by `link[rel="stylesheet"]`, whatever the case of `rel`. */
  predicate IsStylesheet(link: LinkElement) { AsciiLower(link.rel) == "stylesheet" }

  /** Matched by `link[rel*="font"]`, whatever the case of `rel`. */
  predicate IsFontLink(link: LinkElement) { Utils.Contains(AsciiLower(link.rel), "font") }

  function Href(link: LinkElement): (href: string)
    ensures href == link.href
  {
    link.href
  }

  /** `rel="StyleSheet"` is a stylesheet link, as the selector matches it in an HTML document. */
  lemma StylesheetIgnoresCase(href: string)
    ensures IsStylesheet(LinkElement("StyleSheet", href))
  {
    var r := AsciiLower("StyleSheet");
    assert r[0] == 's' && r[5] == 's';
    assert r == "stylesheet";
  }

  /**
   * `Scrapers.getResources`: the scripts that have a `src`, the stylesheet
   * links and the font links, each in document order; `other` stays empty.
   */
  method GetResources(page: Page) returns (resources: Resources)
    ensures resources.scripts == FilterMap(page.scripts, HasSrc, ToScriptInfo)
    ensures resources.stylesheets == FilterMap(page.linkElements, IsStylesheet, Href)
    ensures resources.fonts == FilterMap(page.linkElements, IsFontLink, Href)
    ensures resources.other == []
  {
    var scripts: seq<ScriptInfo> := [];
    for i := 0 to |page.scripts|
      invariant scripts == FilterMap(page.scripts[..i], HasSrc, ToScriptInfo)
    {
      var script := page.scripts[i];
      if script.src.Some? {
        scripts := scripts + [ScriptInfo(script.src.value, script.async, script.defer)];
      }
      assert page.scripts[..i + 1][..i] == page.scripts[..i];
    }
    assert page.scripts[..|page.scripts|] == page.scripts;

    var stylesheets: seq<string> := [];
    for i := 0 to |page.linkElements|
      invariant stylesheets == FilterMap(page.linkElements[..i], IsStylesheet, Href)
    {
      var link := page.linkElements[i];
      if AsciiLower(link.rel) == "stylesheet" {
        stylesheets := stylesheets + [link.href];
      }
      assert page.linkElements[..i + 1][..i] == page.linkElements[..i];
    }

    var fonts: seq<string> := [];
    for i := 0 to |page.linkElements|
      invariant fonts == FilterMap(page.linkElements[..i], IsFontLink, Href)
    {
      var link := page.linkElements[i];
      if Utils.Contains(AsciiLower(link.rel), "font") {
        fonts := fonts + [link.href];
      }
      assert page.linkElements[..i + 1][..i] == page.linkElements[..i];
    }
    assert page.linkElements[..|page.linkElements|] == page.linkElements;

    resources := Resources(scripts, stylesheets, fonts, []);
  }

  /** Whatever contains "font" contains an 'f'. */
  lemma {:induction false} ContainsFirstChar(s: string, part: string)
    requires part != [] && Utils.Contains(s, part)
    ensures part[0] in s
  {
    if !Utils.StartsWith(s, part) {
      ContainsFirstChar(s[1..], part);
    } else {
      assert s[0] == part[0];
    }
  }

  /** No link is both a stylesheet and a font, so the two lists together never outnumber the link elements. */
  lemma {:induction false} StylesheetsAndFontsDisjoint(links: seq<LinkElement>)
    ensures forall l :: IsStylesheet(l) ==> !IsFontLink(l)
    ensures CountIf(links, IsStylesheet) + CountIf(links, IsFontLink) <= |links|
  {
    forall l | IsStylesheet(l) ensures !IsFontLink(l) {
      if IsFontLink(l) {
        ContainsFirstChar(AsciiLower(l.rel), "font");
        assert false;
      }
    }
    if links != [] {
      StylesheetsAndFontsDisjoint(links[..|links| - 1]);
    }
  }
}
