# daemonicglitch.com site helpers, modelled in Dafny

This project models the site's own logic on top of Asciidoctor and Slim. That logic has two parts:

- the Slim template helpers in `templates/helpers.rb`;
- the `blog_entries` block macro in `lib/blog-entries-macro.rb`.

The modelled behaviour falls into three groups.

- **HTML tag builder** (`html_tag`). It drops nil and empty attributes and compacts and space-joins Array values. A `true` value becomes a valueless attribute. Void elements get no closing tag.
- **Page-head assets** (`urlize`, `styles_and_scripts`).
  - `urlize` joins URL segments. It gives a protocol-relative URL the document's `asset-uri-scheme`, which it memoises in `@_uri_scheme`.
  - `styles_and_scripts` picks one primary stylesheet by priority. It may add an icon-font stylesheet and the source highlighter's stylesheet and scripts. It renders all style tags before all script tags, one per line.
- **Articles and the blog listing** (`articles`, `prev_article`, `next_article`, `BlogEntriesMacro#process`).
  - The article index sorts the listed `.adoc` files by their `published-date` string.
  - Navigation finds the first article with the current title and links to its neighbour.
  - The macro lists the articles newest first as `<article class='abstract'>` blocks inside `<div class='entries'>`.

Modules, one per component:

| file | module | models |
|---|---|---|
| `wrappers.dfy` | `Wrappers` | `Option` (Ruby's nil) and `Result` (a raised error) |
| `text.dfy` | `Text` | `Array#join`, `start_with?`, `gsub(/\.adoc/, '')`, Ruby's String ordering |
| `html_tag.dfy` | `HtmlTag` | `html_tag` |
| `assets.dfy` | `Assets` | the scheme step of `urlize` and the selection half of `styles_and_scripts` |
| `head_tags.dfy` | `HeadTags` | rendering of the head tags; class `Page` holds the `@_uri_scheme` memo, `urlize` and the imperative `styles_and_scripts` |
| `articles.dfy` | `Articles` | `articles`, `prev_article`, `next_article` |
| `blog_entries.dfy` | `BlogEntries` | `BlogEntriesMacro#process` |

Modelling choices:

- **Files as input.** A listed file is the record `Article(path, doctitle, publishedDate, abstractContent)`.
  - `publishedDate` is nil when the attribute is unset.
  - `abstractContent` is nil when the document has no block with id `abstract`.
  - The `Dir[...]` listing is an input sequence, and the loaded documents are its records.
- **Sorting.** `sort_by` is modelled by what it promises: a permutation, sorted non-decreasing by date (`SortByDate`). No tie order is promised, because Ruby's `sort_by` is not stable. `SortedDatesDetermined` proves that ties are the only freedom: any two sorted permutations list the same dates in the same order.
- **Nil dates.** `sort_by` raises an ArgumentError when it has to compare a nil date with a String date. The model returns `Failure(ComparisonFailed)` exactly when both kinds are present (`MixedDates`).
  - With two or more elements, a correct comparison sort must compare some nil/String pair that ends up adjacent, so it must raise.
  - If every date is nil, all keys tie and the sort succeeds.
- **`Asciidoctor.convert`** of the `link:` macros is an uninterpreted `convert: string -> string` parameter.
- **`Engine` values.** The following are opaque fields of an `Engine` value, and the model never looks inside them:
  - Asciidoctor's stylesheet constants and data;
  - `normalize_web_path`, `normalize_system_path` and `read_asset`.
- **Navigation links** keep the directory of the glob: `articles/a.adoc` links to `/articles/a`.
- **The entries wrapper** uses single quotes: `<div class='entries'>`.
- **The sort** is not stable, and it raises when dated and undated articles are mixed (see "Nil dates" above).

## Model

| member | source | states |
|---|---|---|
| `Text.StripAdocFree` | templates/helpers.rb:192 | removing every ".adoc" leaves a string without ".adoc" unchanged |
| `Text.StripAdoc` | lib/blog-entries-macro.rb:15 | `gsub(/\.adoc/, '')` never lengthens the string; what it removes is stated by `StripAdocFree` and `StripAdocExtension` |
| `Text.StripAdocExtension` | lib/blog-entries-macro.rb:15 | a file name `stem.adoc` whose stem has no ".adoc" strips to exactly `stem` |
| `Text.LexLeTotal` | templates/helpers.rb:185 | String comparison, the sort key's order, is total |
| `Text.LexLeTransitive` | templates/helpers.rb:185 | String comparison is transitive |
| `Text.LexLeAntisymmetric` | templates/helpers.rb:185 | two strings that compare both ways are equal |
| `Text.JoinAppend` | templates/helpers.rb:60 | joining two non-empty lists puts one separator between their joins |
| `Text.Join` | templates/helpers.rb:60 | `Array#join`: an empty list joins to "", a one-element list to its element; `JoinAppend` gives the separator placement |
| `HtmlTag.Kept` | templates/helpers.rb:41-43 | the filtered attributes are never more than the given ones |
| `HtmlTag.KeptMembers` | templates/helpers.rb:41-43 | an attribute survives exactly when it is present and its value is neither nil nor empty |
| `HtmlTag.KeptAppend` | templates/helpers.rb:41-43 | filtering distributes over concatenation, so survivors keep their original order |
| `HtmlTag.KeptNoBlank` | templates/helpers.rb:41-43 | a list with nothing blank passes the filter unchanged |
| `HtmlTag.Compact` | templates/helpers.rb:44 | the compacted Array holds a value iff the input holds it as non-nil, and is no longer than the input |
| `HtmlTag.CompactOne` | templates/helpers.rb:44 | a nil element compacts to nothing, a non-nil one to itself |
| `HtmlTag.CompactAppend` | templates/helpers.rb:44 | compacting a concatenation is the concatenation of the compacted parts, so survivors keep their order and multiplicity |
| `HtmlTag.RenderAttr` | templates/helpers.rb:44-47 | every attribute renders as `key=`; a String or an Array (nils removed, space-joined) is wrapped in double quotes; `true` leaves `key=` with no value |
| `HtmlTag.AttrString` | templates/helpers.rb:49 | empty exactly when no attribute survives; otherwise one leading space and the survivors separated by spaces |
| `HtmlTag.Tag` | templates/helpers.rb:51-55 | a void element is its opening tag alone; any other element wraps the content, or the block's value when no content is given, and closes with `</name>` |
| `HtmlTag.BlankAttrsIgnored` | templates/helpers.rb:41-43 | inserting a nil or empty attribute anywhere does not change the rendered tag |
| `HtmlTag.NoAttrs` | templates/helpers.rb:49 | with no surviving attribute the opening tag is `<name>` with no space |
| `HtmlTag.TwoTextAttrs` | templates/helpers.rb:46-49 | two string attributes render as ` k1="v1" k2="v2"`: one leading space, one space between them, each value quoted |
| `HtmlTag.NilThenText` | templates/helpers.rb:41-49 | a nil attribute before a string attribute leaves only ` k2="v2"` |
| `Assets.WithScheme` | templates/helpers.rb:59-63 | the path changes exactly when it starts with `//` and the scheme is non-empty, and then it becomes `scheme:` followed by the unchanged path |
| `Assets.OnlyProtocolRelativeGetsScheme` | templates/helpers.rb:61 | a path not starting with `//` is never given a scheme |
| `Assets.FontAwesomeOverHttps` | templates/helpers.rb:18 | with no `asset-uri-scheme` attribute, the CDN font stylesheet is fetched as `https:` followed by the CDN URL |
| `Assets.Url` | templates/helpers.rb:59-66 | `normalize_web_path` of the joined segments, with `scheme:` in front exactly when the joined path is protocol-relative and the scheme is not empty |
| `Assets.PrimaryStyle` | templates/helpers.rb:106-115 | `stylehref` gives a link to itself; otherwise linkcss gives a two-segment link into `stylesdir`; the entry is inline exactly when neither holds; `PrimaryPriority` gives each case exactly |
| `Assets.IconStyles` | templates/helpers.rb:117-123 | one linked stylesheet when `icons` is `font`, none otherwise |
| `Assets.HighlighterStyles` | templates/helpers.rb:125-160 | one stylesheet exactly when the highlighter needs CSS (highlight.js, prettify, or CodeRay/Pygments in `class` mode), linked under linkcss |
| `Assets.Scripts` | templates/helpers.rb:144-160 | three scripts for highlight.js, two for prettify, none otherwise; all linked except the last, inline initialiser |
| `Assets.Styles` | templates/helpers.rb:95-160 | the primary stylesheet first, then the icon stylesheets, then the highlighter's |
| `Assets.PrimaryPriority` | templates/helpers.rb:99-115 | exactly one primary stylesheet comes first, chosen by `stylehref` > linkcss (a link to `stylesdir` and the default stylesheet's name, or the `stylesheet` attribute with nil joining as "") > default stylesheet data inline > the `stylesheet` asset read from `stylesdir` and put inline |
| `Assets.LinkcssEmbedsNothing` | templates/helpers.rb:102-160 | with `linkcss` set, or safe mode at least SECURE, every stylesheet is a link and none is inline |
| `Assets.StyleCount` | templates/helpers.rb:106-160 | the number of stylesheets is 1, plus 1 for `icons=font`, plus 1 for a highlighter that needs CSS |
| `Assets.ScriptCount` | templates/helpers.rb:125-160 | highlight.js brings 3 scripts, prettify 2, any other highlighter none |
| `HeadTags.StylesBeforeScripts` | templates/helpers.rb:162-178 | the tag list is the style tags followed by the script tags: every tag before position \|styles\| opens `<style` or `<link`, every later one opens `<script` |
| `HeadTags.StyleTag` | templates/helpers.rb:163-167 | a stylesheet entry renders as a tag opening `<style` or `<link`; `LinkedStyleIsVoid` gives the linked form exactly |
| `HeadTags.ScriptTag` | templates/helpers.rb:171-175 | a script entry renders as a tag opening `<script`; `InlineScriptHasNoType` and `LinkedScriptHasOnlySrc` give both forms exactly |
| `HeadTags.InlineScriptHasNoType` | templates/helpers.rb:171-172 | an inline script renders `<script>text</script>`: its nil `type` is dropped |
| `HeadTags.LinkedScriptHasOnlySrc` | templates/helpers.rb:173-174 | for a non-empty URL, a linked script renders `<script src="url"></script>` (an empty URL drops the `src` attribute) |
| `HeadTags.LinkedStyleIsVoid` | templates/helpers.rb:165-166 | for a non-empty URL, a linked stylesheet renders `<link rel="stylesheet" href="url">` with no closing tag (an empty URL drops the `href` attribute) |
| `HeadTags.Page.Urlize` | templates/helpers.rb:59-66 | returns the segments joined by `/` with the document scheme on protocol-relative paths, whether or not the scheme was memoised; the memo is set only by the first protocol-relative call and always holds the document's scheme |
| `HeadTags.Page.SelectAssets` | templates/helpers.rb:95-160 | the `styles` and `scripts` lists filled branch by branch equal the selection functions |
| `HeadTags.Page.AddHighlighterAssets` | templates/helpers.rb:125-160 | appends exactly the highlighter's stylesheet and scripts: nothing for CodeRay or Pygments outside the `class` CSS mode, three scripts and a theme for highlight.js, two scripts and a theme for prettify |
| `HeadTags.Page.RenderStyle` | templates/helpers.rb:163-167 | one stylesheet entry as its `style` or `link` tag; the memo is set (to the document's scheme) only when it was unset and the entry links a protocol-relative URL |
| `HeadTags.Page.AppendStyleTags` | templates/helpers.rb:162-168 | appends one style or link tag per stylesheet entry, in order; a set memo is never changed, and an unset one is set iff some entry links a protocol-relative URL |
| `HeadTags.Page.RenderScript` | templates/helpers.rb:171-175 | one script entry as its `script` tag, with the same memo rule as a stylesheet entry |
| `HeadTags.Page.AppendScriptTags` | templates/helpers.rb:170-176 | appends one script tag per script entry, in order, with the same memo rule over all entries |
| `HeadTags.SchemeNeededMembers` | templates/helpers.rb:61-62 | the memo-setting condition over a list holds iff some entry is linked through a protocol-relative URL |
| `HeadTags.Page.StylesAndScripts` | templates/helpers.rb:94-179 | returns the style tags then the script tags joined by newlines; a set memo is kept, and an unset one is set to the document's scheme iff some stylesheet or script links a protocol-relative URL |
| `Articles.Insert` | templates/helpers.rb:185 | inserting into a date-sorted index keeps it sorted and adds exactly that article |
| `Articles.SortByDate` | templates/helpers.rb:185 | the sorted index is a permutation of the listed files, non-decreasing by date |
| `Articles.Index` | templates/helpers.rb:181-186 | fails exactly when nil and String dates are mixed; otherwise it holds each listed file exactly once, sorted by date |
| `Articles.SortedDatesDetermined` | templates/helpers.rb:185 | any two date-sorted permutations of the same files have the same date sequence, so only tie order is left open |
| `Articles.IndexOfTitle` | templates/helpers.rb:189 | returns the first position whose title matches, or nil when no title matches |
| `Articles.Prev` | templates/helpers.rb:188-195 | some link exactly when the first match is at an index > 0, and then the link is to the entry at idx-1 |
| `Articles.Next` | templates/helpers.rb:197-204 | some link exactly when the first match is before the last index, and then the link is to the entry at idx+1 |
| `Articles.PrevArticle` | templates/helpers.rb:188-189 | `prev_article` fails exactly when building the index fails |
| `Articles.NextArticle` | templates/helpers.rb:197-198 | `next_article` fails exactly when building the index fails |
| `Articles.UnknownTitle` | templates/helpers.rb:188-204 | an unknown title gives neither a previous nor a next link |
| `Articles.Boundaries` | templates/helpers.rb:188-204 | the first entry has no previous link, and the last entry (when its title is its first occurrence) has no next link |
| `Articles.SingleEntry` | templates/helpers.rb:188-204 | a one-article index links nowhere |
| `Articles.PrevNextInverse` | templates/helpers.rb:188-204 | for titles that occur once, the next of entry i is entry i+1 and the previous of entry i+1 is entry i |
| `Articles.LinkStripsExtension` | templates/helpers.rb:192-193 | the navigation link of `stem.adoc` is `/stem` |
| `Articles.LinkTo` | templates/helpers.rb:192-193 | the link text is the target's title and the link is `/` followed by at most the file path; `LinkStripsExtension` gives the link exactly for `stem.adoc` |
| `Articles.ThreeArticles` | templates/helpers.rb:181-204 | three articles listed out of date order: the middle one links back to the oldest and on to the newest |
| `BlogEntries.ReverseAt` | lib/blog-entries-macro.rb:13 | the reversed sequence holds element \|s\|-1-k at position k |
| `BlogEntries.Reverse` | lib/blog-entries-macro.rb:13 | `Array#reverse` keeps the length; `ReverseAt` gives each position and `ReverseMultiset` the elements |
| `BlogEntries.ReverseMultiset` | lib/blog-entries-macro.rb:13 | reversing keeps every element exactly once |
| `BlogEntries.NewestFirst` | lib/blog-entries-macro.rb:13 | a reversed ascending index has non-increasing dates |
| `BlogEntries.EntryBlock` | lib/blog-entries-macro.rb:18-22 | the whole block, line by line: `<article class='abstract'>`, then `<h2>` around the converted title link, the raw `published-date` in a `<span>`, `<p>` around the abstract, `<br>` and the converted read-more link, and `</article>`, each line break followed by the indentation; the length leaves nothing else |
| `BlogEntries.LinksShareRelLink` | lib/blog-entries-macro.rb:15-21 | the block holds, inside its heading, the converted `link:REL[TITLE]` and, inside its paragraph, the converted `link:REL[read more]`, with the same `REL` |
| `BlogEntries.MissingAbstractIsEmpty` | lib/blog-entries-macro.rb:14-21 | a document without an abstract block renders like one with an empty abstract |
| `BlogEntries.ListingAndNavigationAgree` | lib/blog-entries-macro.rb:15 | the listing's relative link is the navigation link without its leading `/` |
| `BlogEntries.RelLink` | lib/blog-entries-macro.rb:15 | the listing's relative link is the navigation link of the same file without its leading `/`, and is no longer than the file path |
| `BlogEntries.FoldIsConcat` | lib/blog-entries-macro.rb:13-23 | the `reduce("")` fold appends exactly one block per entry, left to right |
| `BlogEntries.Fold` | lib/blog-entries-macro.rb:13-23 | the `reduce("")` fold only appends: its result starts with the accumulator; `FoldIsConcat` gives its value |
| `BlogEntries.Listing` | lib/blog-entries-macro.rb:10-13 | fails exactly on mixed dates; otherwise it is a permutation of the files with non-increasing dates |
| `BlogEntries.Process` | lib/blog-entries-macro.rb:9-26 | the pass block holds exactly `<div class='entries'>`, then the newest-first blocks, then `</div>`, with no substitutions and the macro's attributes |
| `BlogEntries.NoFiles` | lib/blog-entries-macro.rb:24 | with no files the HTML is `<div class='entries'></div>` |
| `BlogEntries.NewestListedFirst` | lib/blog-entries-macro.rb:13 | two articles listed oldest first come out newest first |

## Left out

- **Parsing and file access.** Asciidoctor parsing (`load_file`), `find_by` and the directory glob are foreign library calls and file-system I/O. Their results are the fields of `Article` and the input sequence.
- **Re-scanning.** Every `articles` call re-scans the directory. The model assumes one unchanged listing for all calls.
- **Parse failures.** A file that fails to load raises inside `load_file`. That path belongs to Asciidoctor and is not modelled.
- **Asciidoctor internals as opaque values.** The following are `Engine` fields, so nothing is proved about their contents:
  - `normalize_web_path`, `normalize_system_path`, `read_asset`;
  - `::Asciidoctor::Stylesheets` data and names;
  - `DEFAULT_STYLESHEET_KEYS`, `DEFAULT_STYLESHEET_NAME`.
- **Attribute lookup.** `attr` and `document.attr` are one attribute map, which matches the document template where the node is the document. Attribute inheritance from parent nodes is not modelled.
- **Ruby value types.** Attribute values other than nil, booleans, Strings and Arrays are not modelled. A number or symbol is represented by its `to_s`. Array elements are Strings or nil.
- **Environment plumbing.** The version and Slim guards (templates/helpers.rb:4-10) and the extension registration (lib/blog-entries-macro.rb:30-32) are not modelled.
- **Trivial helpers.** `footnote_id`, `footnoteref_id` and `html_meta_if` (templates/helpers.rb:71-91) are one-line string interpolations with nothing to prove.
- **The pass block.** `create_pass_block` is represented by the `PassBlock` record it is given. Asciidoctor's later output of that block is not modelled.
- **Untitled documents.** Asciidoctor's `doctitle` is nil for a document without a title. The model's `doctitle` is a string and represents nil by "", which is what nil interpolates as in the link macro; the title comparison in `index` (templates/helpers.rb:188) then matches "" where the source matches nil against nil.
- `Articles.Boundaries`: states "no next link" for the last entry only when its title does not also occur earlier. With a duplicate title the first match is earlier, and `next_article` links forward from there.
