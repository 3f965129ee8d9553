# E91 page scraper, modelled in Dafny

`Project-E91.js` is a browser-console script. It reads the current page's
DOM and builds reports: links, images, metadata, structure counts, text
content, an SEO checklist score, an accessibility checklist score and the
external resources. This project models the two string helpers of its `Utils`
object and the eight scrapers of its `Scrapers` object, and proves what
their results promise.

The live document is replaced by a value, `Dom.Page`. Each field holds the
answer to one DOM query of the source:
- a collection is a sequence in document order;
- a `querySelector` that may find nothing is an `Option`;
- a collection the scrapers only count is a count.

Each scraper reads one `Page`. Where the source builds an array by pushing
in a loop, the model is a `method` with that loop. Each method is proved
against a function of the page: `FilterMap`, `Map` or a checklist tally.
Lemmas then state what that function guarantees.

Modules:
- `Wrappers`: `Option`.
- `Seqs`: filter-and-map, map and count over sequences, with their algebra.
- `Decimal`: the decimal rendering of counts inside messages, and its injectivity.
- `Utils`: `sanitize`, `truncate`, and the JavaScript string built-ins they use.
- `Dom`: the page record.
- `Checklist`: the shape both audits share. It is a fixed list of checks; each check earns points, raises an issue, or does neither, and may leave a pass note.
- `Scrapers`: the reports.

The audits push literal strings. The model's reports hold values of the
`Scrapers.Message` datatype instead. `Scrapers.Text` renders each value as the
exact string the source pushes, and `Scrapers.TextInjective` proves that no
two messages render alike. So any statement about the message values is also
a statement about the strings.

Three behaviours of the code are easy to misread, and the model keeps them as written:
- **Paragraphs.** Only the first ten `p` elements are looked at. The ones among them whose sanitized text exceeds 20 characters are kept, so fewer than ten entries can come back even when the page has more qualifying paragraphs further down.
- **Full marks.** 80 points need all eight checks to pass, including a title of 10 to 60 characters and at least one image. A page with no image tops out at 70 (`Scrapers.SeoWithoutImages`, `Scrapers.SeoFullMarks`).
- **Internal links.** A link is internal when its URL string starts with the origin string, which is a plain prefix test and not an origin comparison (`Scrapers.InternalIsPrefixTest`).

## Model

| member | source | states |
|---|---|---|
| Utils.StartsWith | Project-E91.js:114 | `startsWith` holds exactly when the prefix is no longer than the text and agrees with it character by character. |
| Utils.Contains | Project-E91.js:438 | A text contains only words no longer than itself. |
| Utils.ContainsIffOccurs | Project-E91.js:438 | A text contains a word exactly when the word occurs at some position of it. |
| Utils.ContainsAt | Project-E91.js:438 | A contained word occurs at a position the lemma names. |
| Utils.OccursContains | Project-E91.js:438 | A word occurring at any position is contained. |
| Utils.Truncate | Project-E91.js:95-97 | Text of at most `length` characters comes back unchanged. Longer text becomes its first `length` characters followed by "...", exactly `length + 3` long. |
| Utils.TruncateIdempotent | Project-E91.js:95-97 | Truncating a truncated text again with the same length changes nothing. |
| Utils.Sanitize | Project-E91.js:91-93 | The result is never longer than the input; `Utils.SanitizeIsClean`, `Utils.SanitizeKeepsCleanText` and `Utils.SanitizeExample` state what it removes and what it keeps. |
| Utils.SanitizeIsClean | Project-E91.js:91-93 | The result has no whitespace at either end, and no `<` followed anywhere later by a `>`. |
| Utils.SanitizeIdempotent | Project-E91.js:91-93 | Sanitizing sanitized text changes nothing. |
| Utils.SanitizeKeepsCleanText | Project-E91.js:91-93 | Text with no `<`…`>` span and no whitespace at either end comes back unchanged. |
| Utils.SanitizeExample | Project-E91.js:91-93 | `a<b>c` sanitizes to `ac`. |
| Utils.StripTags | Project-E91.js:92 | `replace(/<[^>]*>/g, '')` never lengthens the text and introduces no new character. |
| Utils.StripTagsKeepsChar | Project-E91.js:92 | A character that does not open a closed span is kept, in front of the rest. |
| Utils.StripTagsDropsSpan | Project-E91.js:92 | A span from `<` to the first `>` after it is removed, and the text after it is processed in the same way. |
| Utils.AfterCloseSkips | Project-E91.js:92 | The text after a `>`-free run and its closing `>` is exactly what follows that `>`. |
| Utils.StripTagsExample | Project-E91.js:92 | `a<b>c` becomes `ac`. |
| Utils.StripTagsLeavesNoTagSpan | Project-E91.js:92 | After the replacement, no `<` is followed later by a `>`. |
| Utils.StripTagsFixpoint | Project-E91.js:92 | Text without such a span is left exactly as it is. |
| Utils.NoCloseUnchanged | Project-E91.js:92 | Text without a `>` is left exactly as it is. |
| Utils.TrimStart | Project-E91.js:92 | What the leading half of `trim()` keeps is a suffix of the input. |
| Utils.TrimEnd | Project-E91.js:92 | What the trailing half of `trim()` keeps is a prefix of the input. |
| Utils.TrimStartCutsWhitespace | Project-E91.js:92 | Only whitespace is cut at the front, and what is kept does not start with whitespace. |
| Utils.TrimEndCutsWhitespace | Project-E91.js:92 | Only whitespace is cut at the back, and what is kept does not end with whitespace. |
| Utils.Trim | Project-E91.js:92 | `trim()` never lengthens the text. |
| Utils.TrimLeavesNoOuterWhitespace | Project-E91.js:92 | The result of `trim()` has no whitespace at either end. |
| Utils.TrimIsSlice | Project-E91.js:92 | `trim()` keeps one contiguous slice of its input. |
| Utils.TrimCutsWhitespace | Project-E91.js:92 | Everything `trim()` drops on either side of that slice is whitespace. |
| Utils.TrimCutsTrailingWhitespace | Project-E91.js:92 | Everything `trim()` drops after that slice is whitespace. |
| Utils.SuffixTrimEndCutsWhitespace | Project-E91.js:92 | The same, for the trailing cut of any suffix of the text. |
| Utils.TrimKeepsNoTagSpan | Project-E91.js:92 | Trimming text that has no `<`…`>` span leaves none. |
| Utils.SliceKeepsNoTagSpan | Project-E91.js:92 | A contiguous piece of text with no `<`…`>` span has none either. |
| Utils.AfterClose | Project-E91.js:92 | The text after the first `>`: a proper suffix that starts right after a `>`, with no `>` before that one. |
| Scrapers.IsFollowable | Project-E91.js:114 | An anchor is reported exactly when its URL is non-empty and does not begin with `javascript:`. |
| Scrapers.ToLink | Project-E91.js:112-120 | A link entry: its text is the sanitized anchor text truncated to 50 (so at most 53 characters), the URL is unchanged, it is internal exactly when the URL starts with the origin, and its target is the anchor's target, or `_self` when that is empty. |
| Scrapers.GetLinks | Project-E91.js:106-126 | The entries are exactly the followable anchors mapped by `ToLink`, in document order. |
| Scrapers.LinksWellFormed | Project-E91.js:114-120 | Every reported link has a non-empty, non-`javascript:` URL, text of at most 53 characters and a non-empty target, is internal exactly when its URL starts with the origin, and comes from a page anchor with that URL whose truncated sanitized text is its text and whose target, or `_self`, is its target. |
| Scrapers.LinksExactlyFollowable | Project-E91.js:110-121 | A link is reported if and only if some followable anchor yields it. |
| Scrapers.LinksInDocumentOrder | Project-E91.js:110-122 | The links of consecutive runs of anchors are concatenated in order. |
| Scrapers.ScriptUrlsSkipped | Project-E91.js:114 | A `javascript:` anchor contributes nothing. |
| Scrapers.InternalIsPrefixTest | Project-E91.js:118 | "Internal" is a plain prefix test: `https://example.com.evil.test/` counts as internal to `https://example.com`. |
| Scrapers.AltProperty | Project-E91.js:136 | The `alt` property reads as the attribute's value, or as empty text when the attribute is missing. |
| Scrapers.ToImageInfo | Project-E91.js:134-140 | An image entry: the source unchanged, the alt text or "No alt text" for an empty or missing alt, the natural size or else the declared size, and the loading mode or "eager" when it is empty. |
| Scrapers.GetImages | Project-E91.js:129-145 | One entry per image, in document order. |
| Scrapers.OrNA | Project-E91.js:162-163 | A non-empty value is kept and an empty one becomes "N/A", so the result is never empty. |
| Scrapers.ContentOrNA | Project-E91.js:153-161 | A present, non-empty element value is kept; a missing element or an empty value becomes "N/A". |
| Scrapers.GetMetadata | Project-E91.js:148-168 | The title is kept as it is. Every other field is its source when present and non-empty, and "N/A" otherwise, so it is never empty. |
| Scrapers.LevelCountsSum | Project-E91.js:176-181 | The six heading-level counts add up to the number of headings. |
| Scrapers.GetStructure | Project-E91.js:171-201 | Each of `h1` to `h6` is the number of headings at that level, and together they add up to the headings. Paragraphs, inputs and images are the lengths of the collections the other scrapers read; lists, tables, forms, buttons, videos, audios and iframes are the page's counts. |
| Scrapers.Excerpt | Project-E91.js:224-226 | A kept paragraph is between 21 and 203 characters long. |
| Scrapers.TagName | Project-E91.js:216 | The lower-case tag name of a heading is `h` followed by its level digit. |
| Scrapers.HeadingEntry | Project-E91.js:215-218 | A heading entry carries the heading's tag name and a sanitized text no longer than the heading's own. |
| Scrapers.Paragraphs | Project-E91.js:222-229 | As many entries as there are substantial paragraphs among the first ten, and so at most ten. |
| Scrapers.CollectHeadings | Project-E91.js:214-219 | One entry per heading, in order, with its tag name and sanitized text. |
| Scrapers.CollectParagraphs | Project-E91.js:222-229 | The substantial paragraphs among the first ten, excerpted, in order. |
| Scrapers.CollectListItems | Project-E91.js:232-236 | The sanitized text of the first twenty list items, in order. |
| Scrapers.GetTextContent | Project-E91.js:204-240 | All three passes together: one heading entry per heading, at most 10 paragraphs and at most 20 list items. |
| Scrapers.ParagraphBounds | Project-E91.js:222-229 | Every paragraph entry is 21 to 203 characters long and is the excerpt of one of the first ten paragraphs whose sanitized text exceeds 20 characters. |
| Scrapers.ParagraphOrigin | Project-E91.js:222-229 | The same statement, for one entry. |
| Scrapers.Phrase | Project-E91.js:278-341 | Every fixed message text is non-empty and does not start with a digit. |
| Scrapers.Text | Project-E91.js:310 | A counted message is its count in decimal followed by its phrase. The others are the phrase alone. Only counted messages start with a digit. |
| Scrapers.PhraseInjective | Project-E91.js:278-400 | Different messages have different phrases, except the counted ones, which differ in their count. |
| Scrapers.SeoIssuePhrases | Project-E91.js:278-334 | The same, for the SEO issues. |
| Scrapers.OtherIssuePhrases | Project-E91.js:339-400 | The same, for the recommendations and the accessibility issues. |
| Scrapers.PassPhrases | Project-E91.js:363-397 | The same, for the accessibility passes. |
| Scrapers.FirstNonDigit | Project-E91.js:310 | In a count followed by a phrase, the first non-digit is where the phrase starts. |
| Scrapers.SplitAfterDigits | Project-E91.js:310 | A count followed by a phrase splits in only one way. |
| Scrapers.TextInjective | Project-E91.js:278-400 | No two messages render as the same text. |
| Scrapers.TitleCheck | Project-E91.js:277-283 | Passes exactly when the title has 10 to 60 characters. Otherwise it raises the too-short issue below 10 and the too-long issue above 60. |
| Scrapers.DescriptionCheck | Project-E91.js:286-295 | Passes exactly when the description is present with 50 to 160 characters. A missing or empty one raises the missing issue; 1 to 49 characters raise too-short and more than 160 too-long. |
| Scrapers.H1Check | Project-E91.js:298-305 | Passes exactly when there is one `h1`. None raises "No H1", more than one raises "Multiple H1". |
| Scrapers.SeoAltCheck | Project-E91.js:308-313 | Passes exactly when there is an image and none has an empty alt. Images with an empty alt raise an issue carrying their count; otherwise no issue. |
| Scrapers.PresenceCheck | Project-E91.js:316-328 | Passes exactly when the element is present, and never raises an issue. |
| Scrapers.HttpsCheck | Project-E91.js:331-335 | Passes exactly on `https:`. Otherwise it raises the HTTPS issue. |
| Scrapers.SeoChecks | Project-E91.js:276-335 | The SEO audit runs exactly eight checks. |
| Scrapers.SeoContentChecks | Project-E91.js:276-313 | The first four checks: title, description, `h1` and image alt text. |
| Scrapers.SeoTagChecks | Project-E91.js:315-335 | The last four checks: canonical, robots, viewport and HTTPS. |
| Scrapers.SeoTitleStep | Project-E91.js:277-283 | A title of 10 to 60 characters earns 10 points. Otherwise the too-short or too-long issue is raised. |
| Scrapers.SeoDescriptionStep | Project-E91.js:286-295 | A description of 50 to 160 characters earns 10 points. Otherwise the missing, too-short or too-long issue is raised. |
| Scrapers.SeoH1Step | Project-E91.js:298-305 | Exactly one `h1` earns 10 points. Otherwise "No H1" or "Multiple H1" is raised. |
| Scrapers.SeoAltStep | Project-E91.js:308-313 | At least one image and none with an empty alt earns 10 points. Images with an empty alt raise an issue with their count. |
| Scrapers.SeoPresenceStep | Project-E91.js:316-328 | Canonical, robots and viewport each earn 10 points when present, and never raise an issue. |
| Scrapers.SeoHttpsStep | Project-E91.js:331-335 | `https:` earns 10 points. Otherwise the HTTPS issue is raised. |
| Scrapers.SeoContentRun | Project-E91.js:276-313 | The first four blocks, from a zero score, leave 10 points per passed check and the issues of the first four checks. |
| Scrapers.SeoTagRun | Project-E91.js:315-335 | The last four blocks add 10 points per passed check and the issues of the last four checks. |
| Scrapers.GetSEOAnalysis | Project-E91.js:267-346 | The score is 10 per passed check: a multiple of 10 from 0 to 80. The issues are those of the failed checks, in order. There is exactly one recommendation, and it is the congratulation if and only if there is no issue. |
| Scrapers.SeoTotals | Project-E91.js:276-335 | The score and the issues, check by check. |
| Scrapers.SeoH1Outcome | Project-E91.js:298-305 | No `h1` if and only if "No H1"; more than one if and only if "Multiple H1"; exactly one if and only if the H1 points. |
| Scrapers.SeoWithoutImages | Project-E91.js:308-313 | With no image, the image check gives neither points nor an issue, so the score is at most 70. |
| Scrapers.SeoFullMarks | Project-E91.js:276-335 | 80 points if and only if every one of the eight conditions holds. Such a page has no issue. |
| Scrapers.SeoNoIssuesFloor | Project-E91.js:276-335 | A page with no SEO issue scores at least 40. |
| Scrapers.Levels | Project-E91.js:387-388 | One level per heading, in order. |
| Scrapers.HeadingHierarchyCorrect | Project-E91.js:389-395 | The early-exit scan reports correct if and only if no heading is more than one level deeper than its predecessor. |
| Scrapers.HierarchyAppend | Project-E91.js:389-395 | Appending a heading keeps the hierarchy correct if and only if it is at most one level deeper than the last. |
| Scrapers.HierarchyExamples | Project-E91.js:389-395 | `[1,2,4]` fails and `[1,2,3,2]` passes. |
| Scrapers.A11yAltCheck | Project-E91.js:359-365 | Passes exactly when no image lacks the alt attribute, leaving the all-images note. Otherwise it raises an issue carrying the count and leaves no note. |
| Scrapers.LabelCheck | Project-E91.js:368-376 | Passes exactly when there is an input and every input is labelled, leaving the all-inputs note. Unlabelled inputs raise an issue carrying their count; none raise no issue. |
| Scrapers.LanguageCheck | Project-E91.js:379-384 | Passes exactly when `lang` is non-empty, leaving the language note. Otherwise it raises the language issue. |
| Scrapers.HierarchyCheck | Project-E91.js:396-401 | Passes exactly when there is a heading and no level is skipped, leaving the hierarchy note. The gaps issue is raised exactly when a level is skipped, so a page with no heading gets neither. |
| Scrapers.ContrastCheck | Project-E91.js:404-406 | Passes exactly when the body background is not `rgba(0, 0, 0, 0)`, with no message. |
| Scrapers.A11yChecks | Project-E91.js:358-406 | The accessibility audit runs exactly five checks. |
| Scrapers.A11yAltStep | Project-E91.js:359-365 | No image without an alt attribute earns 20 points and a pass note. Otherwise an issue with the count is raised. |
| Scrapers.A11yLabelStep | Project-E91.js:368-376 | At least one input and every input labelled earns 20 points. Unlabelled inputs raise an issue with their count. |
| Scrapers.A11yLanguageStep | Project-E91.js:379-384 | A non-empty `lang` earns 20 points. Otherwise the language issue is raised. |
| Scrapers.A11yHierarchyStep | Project-E91.js:387-401 | A correct hierarchy with at least one heading earns 20 points. A gap raises the gaps issue. |
| Scrapers.A11yContrastStep | Project-E91.js:404-406 | A body background other than `rgba(0, 0, 0, 0)` earns 20 points, with no message. |
| Scrapers.GetAccessibility | Project-E91.js:349-410 | The score is 20 per passed check: a multiple of 20 from 0 to 100. Issues and pass notes are in check order. |
| Scrapers.A11yTotals | Project-E91.js:358-406 | The score, issues and passes, check by check. |
| Scrapers.A11yHierarchyOutcome | Project-E91.js:396-401 | The hierarchy points require a heading and no skipped level. The gaps issue appears if and only if a level is skipped. |
| Scrapers.A11yWithoutImages | Project-E91.js:359-365 | A page with no image passes the accessibility image check. |
| Scrapers.AltCountsDiffer | Project-E91.js:308-359 | The SEO audit counts every image the accessibility audit counts. An image with an empty alt is counted only by SEO. |
| Scrapers.ToScriptInfo | Project-E91.js:425-429 | A script entry: its source, and its `async` and `defer` flags unchanged. |
| Scrapers.AsciiLowerChar | Project-E91.js:433-438 | ASCII lower-casing maps `A` to `Z` onto `a` to `z`, leaves every other character alone, and never yields an upper-case ASCII letter. |
| Scrapers.AsciiLower | Project-E91.js:433-438 | Lower-casing keeps the length and lower-cases each character in place. |
| Scrapers.GetResources | Project-E91.js:413-444 | The scripts with a `src`, the links whose `rel` is `stylesheet` and the links whose `rel` contains `font`, both compared ASCII case-insensitively, each in document order; `other` is empty. |
| Scrapers.StylesheetIgnoresCase | Project-E91.js:433 | A link with `rel="StyleSheet"` is a stylesheet. |
| Scrapers.ContainsFirstChar | Project-E91.js:438 | Text that contains a word contains that word's first character. |
| Scrapers.StylesheetsAndFontsDisjoint | Project-E91.js:433-440 | No link is both a stylesheet and a font, so the two lists together never outnumber the link elements. |
| Checklist.Passed | Project-E91.js:282-332 | At most one point per check. |
| Checklist.Issues | Project-E91.js:278-334 | At most one issue per check. |
| Checklist.Notes | Project-E91.js:363-397 | At most one pass note per check. |
| Checklist.Tally | Project-E91.js:276-335 | Running two groups of checks in sequence adds their points and concatenates their messages. |
| Checklist.PassedAppend | Project-E91.js:276-335 | Points add up across a concatenation. |
| Checklist.IssuesAppend | Project-E91.js:276-335 | Issues concatenate across a concatenation. |
| Checklist.NotesAppend | Project-E91.js:358-401 | Notes concatenate across a concatenation. |
| Checklist.Single | Project-E91.js:276-335 | One check contributes its own point, issue and note. |
| Checklist.Tally2 | Project-E91.js:276-335 | Two checks, tallied. |
| Checklist.Tally4 | Project-E91.js:276-335 | Four checks, tallied. |
| Checklist.Tally5 | Project-E91.js:358-406 | Five checks, tallied. |
| Checklist.Step | Project-E91.js:276-335 | Running one more check block, which adds the weight when the check passes and appends its issue, keeps the score and issues equal to the starting values plus the tally of the checks run so far. |
| Checklist.Run5 | Project-E91.js:358-406 | Five check blocks run in sequence yield the weighted tally of the five checks, at most five times the weight. |
| Checklist.AllPassed | Project-E91.js:276-335 | The points equal the number of checks if and only if every check passed. |
| Checklist.NoIssues | Project-E91.js:338-342 | No issue if and only if no check raised one. |
| Checklist.IssueIn | Project-E91.js:278-400 | A message is among the issues if and only if some check raised it. |
| Checklist.NoteIn | Project-E91.js:363-397 | A message is among the notes if and only if some check left it. |
| Seqs.FilterMap | Project-E91.js:110-122 | A filtered list is never longer than its input. |
| Seqs.Map | Project-E91.js:133-141 | A mapped list keeps the length and maps each element in place. |
| Seqs.CountIf | Project-E91.js:308 | A count never exceeds the number of elements. |
| Seqs.FilterMapAppend | Project-E91.js:110-122 | Filtering a concatenation concatenates the results. |
| Seqs.FilterMapStep | Project-E91.js:110-122 | Filtering one more element appends at most that element's image. |
| Seqs.FilterMapSound | Project-E91.js:110-122 | Every output comes from a kept input, at a position the lemma names. |
| Seqs.FilterMapComplete | Project-E91.js:110-122 | Every kept input yields an output. |
| Seqs.FilterMapLength | Project-E91.js:110-122 | The output is as long as the number of kept inputs. |
| Seqs.CountIfZero | Project-E91.js:309 | A count is zero if and only if no element satisfies the predicate. |
| Seqs.CountIfMonotone | Project-E91.js:308-359 | A weaker predicate never counts more. |
| Decimal.DigitChar | Project-E91.js:310 | A digit value renders as a digit character. |
| Decimal.DigitValue | Project-E91.js:310 | A digit character reads back as a digit value. |
| Decimal.FromNat | Project-E91.js:310 | A count renders as a non-empty run of digits, with no leading zero unless the count is 0. |
| Decimal.ToNatFromNat | Project-E91.js:310 | Reading a rendered count back gives the count. |
| Decimal.FromNatInjective | Project-E91.js:310 | Different counts render differently. |

## Left out

- `Utils.log`, `Utils.table`, `Utils.separator`, the banner, the menu, the help text and every other console output are left out: they are presentation with no effect on any report.
- `Utils.isValidUrl` (Project-E91.js:82-89) is left out. It relies on the `URL` constructor, which is not part of this model, and no scraper calls it.
- `Scrapers.getPerformance` (Project-E91.js:243-264) is left out. It reads the browser's timing API and rounds floating-point times.
- `exportJSON`, `run`, `extractAll`, `init` and the stored results object are left out. They do file download, console dispatch and session bookkeeping around the scrapers.
- DOM queries: each selector is assumed to have been answered already, and the answers are the fields of `Dom.Page`. The model does not evaluate selectors, URL resolution of `href`/`src`, `textContent` or computed styles.
- Lengths are counted in Unicode scalar values. JavaScript counts UTF-16 code units, so text with characters outside the Basic Multilingual Plane is counted differently.
- `Utils.IsWhitespace`: the set of code points `trim()` strips is written out from the ECMAScript definition. It is not derived from a Unicode database.
- `Utils.Truncate` takes its length explicitly. The source's default of 100 is never used by any caller.
- `Utils.Sanitize`: its own contract states only the length bound. What the result no longer contains is stated by `Utils.SanitizeIsClean`, and what it keeps by `Utils.SanitizeKeepsCleanText` with `Utils.StripTagsKeepsChar` and `Utils.StripTagsDropsSpan`, so those proofs are not repeated at every use of the function.
- `Dom.Input`: a null `labels` collection is modelled as 0 labels, which the source treats the same way.
- `Dom.LinkElement`: `rel` is compared after ASCII lower-casing, because HTML matches the value of `rel` in attribute selectors case-insensitively: `rel="stylesheet"` as the whole value, `rel*="font"` as a substring. Its token-list reading is not used by these selectors and is not modelled.
- Messages are the `Scrapers.Message` datatype. The reports' strings are their `Scrapers.Text` renderings, proved injective.
