/** The asset helpers of the page templates: `urlize`, which joins URL
    segments and gives protocol-relative URLs the page's asset scheme, and
    `styles_and_scripts`, which picks the stylesheets and scripts of the page
    head from the document attributes and renders them as tags. */
module Assets {
  import opened Wrappers
  import opened Text
  import HtmlTag

  /** What the helpers take from Asciidoctor and never look inside: its
      stylesheet constants and data, the pygments stylesheet lookups, and the
      path helpers `normalize_web_path`, `normalize_system_path` and
      `read_asset` (which answers nil when the file cannot be read). */
  datatype Engine = Engine(
    defaultStylesheetKeys: set<string>,
    defaultStylesheetName: string,
    primaryStylesheetData: string,
    coderayStylesheetName: string,
    coderayStylesheetData: string,
    pygmentsStylesheetName: Option<string> -> string,
    pygmentsStylesheetData: Option<string> -> string,
    normalizeWebPath: string -> string,
    normalizeSystemPath: (Option<string>, string) -> string,
    readAsset: string -> Option<string>)

  /** One entry of the `styles` or `scripts` list: `{ text: ... }`, rendered
      inline, or `{ href: [...] }` / `{ src: [...] }`, the URL segments of an
      external file. */
  datatype Item = Inline(text: Option<string>) | Linked(segments: seq<string>)

  /** The CDN the external assets come from, without a scheme. */
  const Cdnjs: string := "//cdnjs.cloudflare.com/ajax/libs"
  const FontAwesomeUri: string := Cdnjs + "/font-awesome/4.5.0/css/font-awesome.min.css"
  const HighlightjsBaseUri: string := Cdnjs + "/highlight.js/7.4"
  const PrettifyBaseUri: string := Cdnjs + "/prettify/r298"
  const DefaultHighlightjsTheme: string := "github"
  const DefaultPrettifyTheme: string := "prettify"

  /** Asciidoctor's SafeMode::SECURE. */
  const Secure: int := 20

  /** `attr name`: the attribute's value, or nil when it is not set. */
  function Lookup(attrs: map<string, string>, name: string): Option<string> {
    if name in attrs then Some(attrs[name]) else None
  }

  /** `attr name, default`. */
  function LookupOr(attrs: map<string, string>, name: string, default: string): string {
    Lookup(attrs, name).GetOr(default)
  }

  /** `attr? name, value`: the attribute is set to exactly `value`. */
  predicate AttrIs(attrs: map<string, string>, name: string, value: string) {
    name in attrs && attrs[name] == value
  }

  // ---------------------------------------------------------------------
  // urlize

  /** The scheme `urlize` puts in front of protocol-relative URLs: the
      `asset-uri-scheme` attribute, `https` by default. */
  function SchemeAttr(attrs: map<string, string>): string {
    LookupOr(attrs, "asset-uri-scheme", "https")
  }

  /** A path starting with "//" names a host but no scheme. */
  predicate ProtocolRelative(path: string) {
    StartsWith(path, "//")
  }

  /** The joined path with `scheme:` in front exactly when the path is
      protocol-relative and the scheme is not empty; any other path is left
      as it is. */
  function WithScheme(path: string, scheme: string): (r: string)
    ensures r != path <==> ProtocolRelative(path) && scheme != ""
    ensures r == path || (r == scheme + ":" + path && r[|scheme| + 1..] == path)
  {
    if ProtocolRelative(path) && scheme != "" then
      var r := scheme + ":" + path;
      assert |r| > |path|;
      r
    else path
  }

  /** `urlize(*segments)` for a page whose asset scheme is `scheme`. */
  function Url(engine: Engine, segments: seq<string>, scheme: string): (r: string)
    ensures ProtocolRelative(Join(segments, "/")) && scheme != "" ==>
      r == engine.normalizeWebPath(scheme + ":" + Join(segments, "/"))
    ensures !ProtocolRelative(Join(segments, "/")) || scheme == "" ==>
      r == engine.normalizeWebPath(Join(segments, "/"))
  {
    engine.normalizeWebPath(WithScheme(Join(segments, "/"), scheme))
  }

  /** A URL that already has a scheme ("https://...") or is a plain path is
      never given a second one. */
  lemma {:induction false} OnlyProtocolRelativeGetsScheme(path: string, scheme: string)
    requires !ProtocolRelative(path)
    ensures WithScheme(path, scheme) == path
  {
  }

  /** The CDN URLs are protocol-relative, so with the default scheme the font
      icons are fetched over https. */
  lemma FontAwesomeOverHttps(attrs: map<string, string>)
    requires "asset-uri-scheme" !in attrs
    ensures WithScheme(Join([FontAwesomeUri], "/"), SchemeAttr(attrs)) == "https:" + FontAwesomeUri
  {
    assert Cdnjs[0] == '/' && Cdnjs[1] == '/';
    assert FontAwesomeUri[..2] == Cdnjs[..2] == "//";
  }

  // ---------------------------------------------------------------------
  // Selecting the assets

  /** `linkcss`: the `linkcss` attribute is set, or the safe mode is at least
      SECURE (where nothing may be read from disk into the page). */
  predicate Linkcss(attrs: map<string, string>, safe: int) {
    "linkcss" in attrs || safe >= Secure
  }

  /** The `stylesheet` attribute names one of Asciidoctor's default keys. */
  predicate DefaultStyle(attrs: map<string, string>, engine: Engine) {
    "stylesheet" in attrs && attrs["stylesheet"] in engine.defaultStylesheetKeys
  }

  function StylesDir(attrs: map<string, string>): string {
    LookupOr(attrs, "stylesdir", "")
  }

  /** The one primary stylesheet, by priority: an explicit `stylehref`; then,
      under linkcss, a link into the styles directory (to the default
      stylesheet's file, or to the named one; an unset name joins as ""); then
      the default stylesheet's data inline; and last the named stylesheet read
      from disk and put inline. */
  function PrimaryStyle(attrs: map<string, string>, safe: int, engine: Engine): (r: Item)
    ensures "stylehref" in attrs ==> r == Linked([attrs["stylehref"]])
    ensures "stylehref" !in attrs && Linkcss(attrs, safe) ==>
      r.Linked? && |r.segments| == 2 && r.segments[0] == StylesDir(attrs)
    ensures r.Inline? <==> "stylehref" !in attrs && !Linkcss(attrs, safe)
  {
    var stylesheet := Lookup(attrs, "stylesheet");
    if "stylehref" in attrs then Linked([attrs["stylehref"]])
    else if Linkcss(attrs, safe) then
      var path := if DefaultStyle(attrs, engine) then engine.defaultStylesheetName else stylesheet.GetOr("");
      Linked([StylesDir(attrs), path])
    else if DefaultStyle(attrs, engine) then Inline(Some(engine.primaryStylesheetData))
    else Inline(engine.readAsset(engine.normalizeSystemPath(stylesheet, StylesDir(attrs))))
  }

  /** The icon font stylesheet, when `icons` is `font`: from the CDN (or the
      `iconfont-cdn` URL) when `iconfont-remote` is set, otherwise from the
      styles directory. */
  function IconStyles(attrs: map<string, string>): (r: seq<Item>)
    ensures |r| == if AttrIs(attrs, "icons", "font") then 1 else 0
    ensures forall i :: 0 <= i < |r| ==> r[i].Linked?
  {
    if !AttrIs(attrs, "icons", "font") then []
    else if "iconfont-remote" in attrs then [Linked([LookupOr(attrs, "iconfont-cdn", FontAwesomeUri)])]
    else [Linked([StylesDir(attrs), LookupOr(attrs, "iconfont-name", "font-awesome") + ".css"])]
  }

  /** The stylesheet the source highlighter needs. CodeRay and Pygments need
      one only when their CSS mode is `class` (the default), linked under
      linkcss and inline otherwise; highlight.js and prettify always link
      their theme. */
  function HighlighterStyles(attrs: map<string, string>, safe: int, engine: Engine): (r: seq<Item>)
    ensures |r| == if HighlighterNeedsStyle(attrs) then 1 else 0
    ensures Linkcss(attrs, safe) ==> forall i :: 0 <= i < |r| ==> r[i].Linked?
  {
    match Lookup(attrs, "source-highlighter")
    case Some("coderay") =>
      if LookupOr(attrs, "coderay-css", "class") != "class" then []
      else if Linkcss(attrs, safe) then [Linked([StylesDir(attrs), engine.coderayStylesheetName])]
      else [Inline(Some(engine.coderayStylesheetData))]
    case Some("pygments") =>
      var style := Lookup(attrs, "pygments-style");
      if LookupOr(attrs, "pygments-css", "class") != "class" then []
      else if Linkcss(attrs, safe) then [Linked([StylesDir(attrs), engine.pygmentsStylesheetName(style)])]
      else [Inline(Some(engine.pygmentsStylesheetData(style)))]
    case Some("highlightjs") =>
      var base := LookupOr(attrs, "highlightjsdir", HighlightjsBaseUri);
      [Linked([base, "styles/" + LookupOr(attrs, "highlightjs-theme", DefaultHighlightjsTheme) + ".min.css"])]
    case Some("prettify") =>
      var base := LookupOr(attrs, "prettifydir", PrettifyBaseUri);
      [Linked([base, LookupOr(attrs, "prettify-theme", DefaultPrettifyTheme) + ".min.css"])]
    case _ => []
  }

  /** The scripts of the client-side highlighters. */
  function Scripts(attrs: map<string, string>): (r: seq<Item>)
    ensures |r| == if AttrIs(attrs, "source-highlighter", "highlightjs") then 3
                   else if AttrIs(attrs, "source-highlighter", "prettify") then 2
                   else 0
    ensures |r| > 0 ==> r[|r| - 1].Inline? && forall i :: 0 <= i < |r| - 1 ==> r[i].Linked?
  {
    match Lookup(attrs, "source-highlighter")
    case Some("highlightjs") =>
      var base := LookupOr(attrs, "highlightjsdir", HighlightjsBaseUri);
      [Linked([base, "highlight.min.js"]), Linked([base, "lang/common.min.js"]),
       Inline(Some("hljs.initHighlightingOnLoad()"))]
    case Some("prettify") =>
      var base := LookupOr(attrs, "prettifydir", PrettifyBaseUri);
      [Linked([base, "prettify.min.js"]),
       Inline(Some("document.addEventListener(\"DOMContentLoaded\", prettyPrint)"))]
    case _ => []
  }

  /** The `styles` list in the order it is filled. */
  function Styles(attrs: map<string, string>, safe: int, engine: Engine): (r: seq<Item>)
    ensures |r| >= 1 && r[0] == PrimaryStyle(attrs, safe, engine)
    ensures r[1..] == IconStyles(attrs) + HighlighterStyles(attrs, safe, engine)
  {
    [PrimaryStyle(attrs, safe, engine)] + IconStyles(attrs) + HighlighterStyles(attrs, safe, engine)
  }

  /** Exactly one primary stylesheet, and it comes first, chosen by priority:
      `stylehref` over linkcss over the default stylesheet over the asset
      read from disk. */
  lemma PrimaryPriority(attrs: map<string, string>, safe: int, engine: Engine)
    ensures Styles(attrs, safe, engine)[0] == PrimaryStyle(attrs, safe, engine)
    ensures |Styles(attrs, safe, engine)| == 1 + |IconStyles(attrs)| + |HighlighterStyles(attrs, safe, engine)|
    ensures "stylehref" in attrs ==> Styles(attrs, safe, engine)[0] == Linked([attrs["stylehref"]])
    ensures "stylehref" !in attrs && Linkcss(attrs, safe) ==>
      Styles(attrs, safe, engine)[0] ==
        Linked([StylesDir(attrs),
                if DefaultStyle(attrs, engine) then engine.defaultStylesheetName
                else Lookup(attrs, "stylesheet").GetOr("")])
    ensures "stylehref" !in attrs && !Linkcss(attrs, safe) && DefaultStyle(attrs, engine) ==>
      Styles(attrs, safe, engine)[0] == Inline(Some(engine.primaryStylesheetData))
    ensures "stylehref" !in attrs && !Linkcss(attrs, safe) && !DefaultStyle(attrs, engine) ==>
      Styles(attrs, safe, engine)[0] ==
        Inline(engine.readAsset(engine.normalizeSystemPath(Lookup(attrs, "stylesheet"), StylesDir(attrs))))
  {
  }

  /** Under linkcss (in particular in SECURE mode) every stylesheet is a link:
      nothing is read from disk or embedded in the page. */
  lemma LinkcssEmbedsNothing(attrs: map<string, string>, safe: int, engine: Engine)
    requires Linkcss(attrs, safe)
    ensures forall i :: 0 <= i < |Styles(attrs, safe, engine)| ==> Styles(attrs, safe, engine)[i].Linked?
  {
  }

  /** The number of stylesheets: the primary one, one more for the font icons,
      and one more for a highlighter that needs a stylesheet. */
  lemma StyleCount(attrs: map<string, string>, safe: int, engine: Engine)
    ensures |Styles(attrs, safe, engine)| ==
      1 + (if AttrIs(attrs, "icons", "font") then 1 else 0)
        + (if HighlighterNeedsStyle(attrs) then 1 else 0)
  {
  }

  predicate HighlighterNeedsStyle(attrs: map<string, string>) {
    var hl := Lookup(attrs, "source-highlighter");
    hl == Some("highlightjs") || hl == Some("prettify") ||
    (hl == Some("coderay") && LookupOr(attrs, "coderay-css", "class") == "class") ||
    (hl == Some("pygments") && LookupOr(attrs, "pygments-css", "class") == "class")
  }

  /** Only the client-side highlighters bring scripts: three for highlight.js,
      two for prettify, none otherwise. */
  lemma ScriptCount(attrs: map<string, string>)
    ensures |Scripts(attrs)| ==
      if AttrIs(attrs, "source-highlighter", "highlightjs") then 3
      else if AttrIs(attrs, "source-highlighter", "prettify") then 2
      else 0
  {
  }
}
