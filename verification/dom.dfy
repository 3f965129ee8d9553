/**
 * The part of the live document the scrapers read, as a plain value. Each
 * field stands for one DOM query of the source, already answered: a
 * collection becomes a sequence in document order, a `querySelector` that may
 * find nothing becomes an `Option`, and a query whose elements are only
 * counted becomes a count.
 */
module Dom {
  import opened Wrappers

  /** The digit of an `h1`..`h6` tag name. */
  type HeadingLevel = l: int | 1 <= l <= 6 witness 1

  /** An element matched by `h1, h2, h3, h4, h5, h6`, with its `textContent`. */
  datatype Heading = Heading(level: HeadingLevel, text: string)

  /**
   * An `img` element. `alt` is the attribute (None when it is absent);
   * `src` and `loading` are the element's properties, `naturalWidth` and
   * `naturalHeight` are 0 until the image has loaded.
   */
  datatype Image = Image(
    src: string,
    alt: Option<string>,
    naturalWidth: nat, naturalHeight: nat,
    width: nat, height: nat,
    loading: string)

  /** An `input` element with the number of its associated labels (0 when `labels` is null). */
  datatype Input = Input(labels: nat)

  /** An element matched by `a[href]`: its resolved `href`, its `textContent` and its `target`. */
  datatype Anchor = Anchor(href: string, text: string, target: string)

  /** A `script` element: `src` is the resolved URL when the attribute is present. */
  datatype Script = Script(src: Option<string>, async: bool, defer: bool)

  /** A `link` element: its `rel` attribute (empty when absent) and resolved `href`. */
  datatype LinkElement = LinkElement(rel: string, href: string)

  /**
   * One page. The `Option<string>` meta fields hold the `content` of the
   * first matching `meta` element (Some even when that content is empty);
   * `canonical` holds the `href` of the first `link[rel="canonical"]`.
   */
  datatype Page = Page(
    title: string,                    // document.title
    description: Option<string>,      // meta[name="description"]
    keywords: Option<string>,         // meta[name="keywords"]
    author: Option<string>,           // meta[name="author"]
    ogTitle: Option<string>,          // meta[property="og:title"]
    ogDescription: Option<string>,    // meta[property="og:description"]
    ogImage: Option<string>,          // meta[property="og:image"]
    canonical: Option<string>,        // link[rel="canonical"]
    robots: Option<string>,           // meta[name="robots"]
    viewport: Option<string>,         // meta[name="viewport"]
    charset: string,                  // document.characterSet
    lang: string,                     // document.documentElement.lang
    protocol: string,                 // window.location.protocol, e.g. "https:"
    origin: string,                   // window.location.origin
    bodyBackground: string,           // computed backgroundColor of document.body
    headings: seq<Heading>,
    images: seq<Image>,
    inputs: seq<Input>,
    anchors: seq<Anchor>,
    paragraphs: seq<string>,          // textContent of every p
    listItems: seq<string>,           // textContent of every element matched by "ul li, ol li"
    scripts: seq<Script>,
    linkElements: seq<LinkElement>,
    listCount: nat,                   // ul, ol
    tableCount: nat,
    formCount: nat,
    buttonCount: nat,
    videoCount: nat,
    audioCount: nat,
    iframeCount: nat)
}
