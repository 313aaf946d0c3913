/** The tags of `styles_and_scripts` and the template scope that renders
    them, with the `urlize` memo. */
module HeadTags {
  import opened Wrappers
  import opened Text
  import opened Assets
  import HtmlTag

  /** A stylesheet entry as a tag: `<style>` around inline text, or a void
      `<link rel="stylesheet" href=...>`. */
  function StyleTag(item: Item, engine: Engine, scheme: string): (r: string)
    ensures OpensStyle(r)
  {
    match item
    case Inline(text) =>
      TagOpensWith("style", [], text, None);
      assert "<" + "style" == "<style";
      HtmlTag.Tag("style", [], text, None)
    case Linked(segments) =>
      var attrs := [HtmlTag.Attr("rel", HtmlTag.Text("stylesheet")),
                    HtmlTag.Attr("href", HtmlTag.Text(Url(engine, segments, scheme)))];
      TagOpensWith("link", attrs, None, None);
      assert "<" + "link" == "<link";
      HtmlTag.Tag("link", attrs, None, None)
  }

  /** A script entry as a tag. Its `type` is `item[:type]`, which no entry
      sets, so the attribute is nil and dropped. */
  function ScriptTag(item: Item, engine: Engine, scheme: string): (r: string)
    ensures OpensScript(r)
  {
    assert "<" + "script" == "<script";
    match item
    case Inline(text) =>
      var attrs := [HtmlTag.Attr("type", HtmlTag.Nil)];
      TagOpensWith("script", attrs, text, None);
      HtmlTag.Tag("script", attrs, text, None)
    case Linked(segments) =>
      var attrs := [HtmlTag.Attr("type", HtmlTag.Nil),
                    HtmlTag.Attr("src", HtmlTag.Text(Url(engine, segments, scheme)))];
      TagOpensWith("script", attrs, None, None);
      HtmlTag.Tag("script", attrs, None, None)
  }

  function StyleTags(items: seq<Item>, engine: Engine, scheme: string): (r: seq<string>)
    ensures |r| == |items|
    ensures forall i :: 0 <= i < |items| ==> r[i] == StyleTag(items[i], engine, scheme)
  {
    seq(|items|, i requires 0 <= i < |items| => StyleTag(items[i], engine, scheme))
  }

  function ScriptTags(items: seq<Item>, engine: Engine, scheme: string): (r: seq<string>)
    ensures |r| == |items|
    ensures forall i :: 0 <= i < |items| ==> r[i] == ScriptTag(items[i], engine, scheme)
  {
    seq(|items|, i requires 0 <= i < |items| => ScriptTag(items[i], engine, scheme))
  }

  /** The `tags` list built from given `styles` and `scripts`. */
  function TagList(styles: seq<Item>, scripts: seq<Item>, engine: Engine, scheme: string): seq<string> {
    StyleTags(styles, engine, scheme) + ScriptTags(scripts, engine, scheme)
  }

  /** The `tags` list of a page: the style tags, then the script tags. */
  function HeadTagList(attrs: map<string, string>, safe: int, engine: Engine): seq<string> {
    TagList(Styles(attrs, safe, engine), Scripts(attrs), engine, SchemeAttr(attrs))
  }

  /** What `styles_and_scripts` returns: the tags joined by newlines. */
  function HeadTags(attrs: map<string, string>, safe: int, engine: Engine): string {
    Join(HeadTagList(attrs, safe, engine), "\n")
  }

  lemma TagOpensWith(name: string, attrs: seq<HtmlTag.Attr>, content: Option<string>, block: Option<string>)
    ensures StartsWith(HtmlTag.Tag(name, attrs, content, block), "<" + name)
  {
    var r := HtmlTag.Tag(name, attrs, content, block);
    var open := "<" + name + HtmlTag.AttrString(attrs) + ">";
    assert r[..|open|] == open;
    assert open[..|"<" + name|] == "<" + name;
  }

  /** The tag opens a `style` or a `link` element. */
  predicate OpensStyle(tag: string) {
    StartsWith(tag, "<style") || StartsWith(tag, "<link")
  }

  /** The tag opens a `script` element. */
  predicate OpensScript(tag: string) {
    StartsWith(tag, "<script")
  }

  lemma StyleTagsOpen(items: seq<Item>, engine: Engine, scheme: string)
    ensures forall i :: 0 <= i < |items| ==> OpensStyle(StyleTags(items, engine, scheme)[i])
  {
    forall i | 0 <= i < |items| ensures OpensStyle(StyleTags(items, engine, scheme)[i]) {
      assert StyleTags(items, engine, scheme)[i] == StyleTag(items[i], engine, scheme);
    }
  }

  lemma ScriptTagsOpen(items: seq<Item>, engine: Engine, scheme: string)
    ensures forall i :: 0 <= i < |items| ==> OpensScript(ScriptTags(items, engine, scheme)[i])
  {
    forall i | 0 <= i < |items| ensures OpensScript(ScriptTags(items, engine, scheme)[i]) {
      assert ScriptTags(items, engine, scheme)[i] == ScriptTag(items[i], engine, scheme);
    }
  }

  /** The tag list is the style tags followed by the script tags. */
  lemma TagListShape(styles: seq<Item>, scripts: seq<Item>, engine: Engine, scheme: string)
    ensures |TagList(styles, scripts, engine, scheme)| == |styles| + |scripts|
    ensures forall i :: 0 <= i < |styles| ==> OpensStyle(TagList(styles, scripts, engine, scheme)[i])
    ensures forall i :: |styles| <= i < |styles| + |scripts| ==> OpensScript(TagList(styles, scripts, engine, scheme)[i])
  {
    var front, back := StyleTags(styles, engine, scheme), ScriptTags(scripts, engine, scheme);
    StyleTagsOpen(styles, engine, scheme);
    ScriptTagsOpen(scripts, engine, scheme);
    var tags := TagList(styles, scripts, engine, scheme);
    assert tags == front + back;
    forall i | |styles| <= i < |styles| + |scripts| ensures OpensScript(tags[i]) {
      assert tags[i] == back[i - |styles|];
    }
  }

  /** Every style tag comes before every script tag: the tags before position
      |styles| open a `style` or `link` element, the others a `script` element. */
  lemma StylesBeforeScripts(attrs: map<string, string>, safe: int, engine: Engine)
    ensures |HeadTagList(attrs, safe, engine)| == |Styles(attrs, safe, engine)| + |Scripts(attrs)|
    ensures forall i :: 0 <= i < |Styles(attrs, safe, engine)| ==> OpensStyle(HeadTagList(attrs, safe, engine)[i])
    ensures forall i :: |Styles(attrs, safe, engine)| <= i < |HeadTagList(attrs, safe, engine)| ==>
      OpensScript(HeadTagList(attrs, safe, engine)[i])
  {
    TagListShape(Styles(attrs, safe, engine), Scripts(attrs), engine, SchemeAttr(attrs));
  }

  /** An inline script renders with no `type` attribute at all. */
  lemma InlineScriptHasNoType(text: string, engine: Engine, scheme: string)
    ensures ScriptTag(Inline(Some(text)), engine, scheme) == "<script>" + text + "</script>"
  {
    HtmlTag.NoAttrs("script", [HtmlTag.Attr("type", HtmlTag.Nil)]);
  }

  /** `<script src="u"></script>`: the nil `type` leaves no trace. */
  lemma ScriptSrcTag(u: string)
    requires u != ""
    ensures HtmlTag.Tag("script", [HtmlTag.Attr("type", HtmlTag.Nil), HtmlTag.Attr("src", HtmlTag.Text(u))], None, None)
         == "<script src=\"" + u + "\"></script>"
  {
    var attrs := [HtmlTag.Attr("type", HtmlTag.Nil), HtmlTag.Attr("src", HtmlTag.Text(u))];
    HtmlTag.NilThenText("type", "src", u);
    ScriptNotVoid(attrs);
    var pre := " " + "src" + "=\"";
    ScriptLiterals();
    calc {
      HtmlTag.Tag("script", attrs, None, None);
      "<" + "script" + HtmlTag.AttrString(attrs) + ">" + "" + "</" + "script" + ">";
      "<" + "script" + (pre + u + "\"") + ">" + "" + "</" + "script" + ">";
      ("<" + "script" + pre) + u + ("\"" + ">" + "" + "</" + "script" + ">");
    }
  }

  lemma ScriptNotVoid(attrs: seq<HtmlTag.Attr>)
    ensures HtmlTag.Tag("script", attrs, None, None)
         == "<" + "script" + HtmlTag.AttrString(attrs) + ">" + "" + "</" + "script" + ">"
  {
    assert "script" !in HtmlTag.VoidElements;
  }

  lemma ScriptLiterals()
    ensures "<" + "script" + (" " + "src" + "=\"") == "<script src=\""
    ensures "\"" + ">" + "" + "</" + "script" + ">" == "\"></script>"
  {
  }

  /** `<link rel="stylesheet" href="u">`, a void element. */
  lemma StylesheetLinkTag(u: string)
    requires u != ""
    ensures HtmlTag.Tag("link", [HtmlTag.Attr("rel", HtmlTag.Text("stylesheet")), HtmlTag.Attr("href", HtmlTag.Text(u))], None, None)
         == "<link rel=\"stylesheet\" href=\"" + u + "\">"
  {
    var attrs := [HtmlTag.Attr("rel", HtmlTag.Text("stylesheet")), HtmlTag.Attr("href", HtmlTag.Text(u))];
    HtmlTag.TwoTextAttrs("rel", "stylesheet", "href", u);
    LinkVoid(attrs);
    var pre := " " + ("rel" + "=\"" + "stylesheet" + "\"") + " " + ("href" + "=\"");
    LinkPrefix();
    calc {
      HtmlTag.Tag("link", attrs, None, None);
      "<" + "link" + HtmlTag.AttrString(attrs) + ">";
      "<" + "link" + (" " + ("rel" + "=\"" + "stylesheet" + "\"") + " " + ("href" + "=\"" + u + "\"")) + ">";
      "<" + "link" + (pre + u + "\"") + ">";
      ("<" + "link" + pre) + u + "\"" + ">";
    }
  }

  lemma LinkVoid(attrs: seq<HtmlTag.Attr>)
    ensures HtmlTag.Tag("link", attrs, None, None) == "<" + "link" + HtmlTag.AttrString(attrs) + ">"
  {
    assert "link" in HtmlTag.VoidElements;
  }

  lemma LinkPrefix()
    ensures "<" + "link" + (" " + ("rel" + "=\"" + "stylesheet" + "\"") + " " + ("href" + "=\"")) == "<link rel=\"stylesheet\" href=\""
  {
  }

  /** A linked script carries only its `src`. */
  lemma LinkedScriptHasOnlySrc(segments: seq<string>, engine: Engine, scheme: string)
    requires Url(engine, segments, scheme) != ""
    ensures ScriptTag(Linked(segments), engine, scheme)
         == "<script src=\"" + Url(engine, segments, scheme) + "\"></script>"
  {
    ScriptSrcTag(Url(engine, segments, scheme));
  }

  /** A linked stylesheet is a void element: `<link rel="stylesheet" href="...">`
      with no closing tag. */
  lemma LinkedStyleIsVoid(segments: seq<string>, engine: Engine, scheme: string)
    requires Url(engine, segments, scheme) != ""
    ensures StyleTag(Linked(segments), engine, scheme)
         == "<link rel=\"stylesheet\" href=\"" + Url(engine, segments, scheme) + "\">"
  {
    StylesheetLinkTag(Url(engine, segments, scheme));
  }

  /** The entry is linked through a protocol-relative URL, so rendering it
      makes `urlize` look the scheme up. */
  predicate SchemeLinked(item: Item) {
    item.Linked? && ProtocolRelative(Join(item.segments, "/"))
  }

  /** Some entry of the list is. */
  predicate SchemeNeeded(items: seq<Item>)
    decreases |items|
  {
    items != [] && (SchemeNeeded(items[..|items| - 1]) || SchemeLinked(items[|items| - 1]))
  }

  lemma {:induction false} SchemeNeededMembers(items: seq<Item>)
    ensures SchemeNeeded(items) <==> exists item :: item in items && SchemeLinked(item)
    decreases |items|
  {
    if items != [] {
      var init, last := items[..|items| - 1], items[|items| - 1];
      assert items == init + [last];
      SchemeNeededMembers(init);
      if SchemeNeeded(init) {
        var x :| x in init && SchemeLinked(x);
        assert x in items;
      }
    }
  }

  lemma SchemeNeededSnoc(items: seq<Item>, item: Item)
    ensures SchemeNeeded(items + [item]) <==> SchemeNeeded(items) || SchemeLinked(item)
  {
    assert (items + [item])[..|items|] == items;
  }

  lemma StyleTagsSnoc(items: seq<Item>, item: Item, engine: Engine, scheme: string)
    ensures StyleTags(items + [item], engine, scheme) == StyleTags(items, engine, scheme) + [StyleTag(item, engine, scheme)]
  {
  }

  lemma ScriptTagsSnoc(items: seq<Item>, item: Item, engine: Engine, scheme: string)
    ensures ScriptTags(items + [item], engine, scheme) == ScriptTags(items, engine, scheme) + [ScriptTag(item, engine, scheme)]
  {
  }

  /** The template scope the helpers run in: the document's attributes and
      safe mode, the engine, and the memoised asset scheme `@_uri_scheme`. */
  class Page {
    const attributes: map<string, string>
    const safe: int
    const engine: Engine
    var uriScheme: Option<string>

    /** The memo, once set, holds the document's asset scheme. */
    ghost predicate Valid()
      reads this
    {
      uriScheme.None? || uriScheme.value == SchemeAttr(attributes)
    }

    constructor (attributes: map<string, string>, safe: int, engine: Engine)
      ensures Valid() && uriScheme == None
      ensures this.attributes == attributes && this.safe == safe && this.engine == engine
    {
      this.attributes := attributes;
      this.safe := safe;
      this.engine := engine;
      uriScheme := None;
    }

    /** `urlize(*segments)`. The scheme is looked up on the first
        protocol-relative path only; the result is the same whether or not it
        was memoised already. */
    method Urlize(segments: seq<string>) returns (url: string)
      requires Valid()
      modifies this`uriScheme
      ensures Valid()
      ensures url == Url(engine, segments, SchemeAttr(attributes))
      ensures uriScheme ==
        if ProtocolRelative(Join(segments, "/")) && old(uriScheme).None? then Some(SchemeAttr(attributes))
        else old(uriScheme)
    {
      var path := Join(segments, "/");
      if StartsWith(path, "//") {
        if uriScheme.None? {
          uriScheme := Some(LookupOr(attributes, "asset-uri-scheme", "https"));
        }
        if uriScheme.value != "" {
          path := uriScheme.value + ":" + path;
        }
      }
      url := engine.normalizeWebPath(path);
    }

    /** The first part of `styles_and_scripts`: fills `styles` and `scripts`
        branch by branch. */
    method SelectAssets() returns (styles: seq<Item>, scripts: seq<Item>)
      ensures styles == Styles(attributes, safe, engine)
      ensures scripts == Scripts(attributes)
    {
      styles, scripts := [], [];
      var stylesheet := Lookup(attributes, "stylesheet");
      var stylesdir := LookupOr(attributes, "stylesdir", "");
      var defaultStyle := stylesheet.Some? && stylesheet.value in engine.defaultStylesheetKeys;
      var linkcss := "linkcss" in attributes || safe >= Secure;
      var stylehref := Lookup(attributes, "stylehref");

      if stylehref.Some? {
        styles := styles + [Linked([stylehref.value])];
      } else if linkcss {
        var path := if defaultStyle then engine.defaultStylesheetName else stylesheet.GetOr("");
        styles := styles + [Linked([stylesdir, path])];
      } else if defaultStyle {
        styles := styles + [Inline(Some(engine.primaryStylesheetData))];
      } else {
        styles := styles + [Inline(engine.readAsset(engine.normalizeSystemPath(stylesheet, stylesdir)))];
      }

      assert styles == [PrimaryStyle(attributes, safe, engine)];

      if AttrIs(attributes, "icons", "font") {
        if "iconfont-remote" in attributes {
          styles := styles + [Linked([LookupOr(attributes, "iconfont-cdn", FontAwesomeUri)])];
        } else {
          styles := styles + [Linked([stylesdir, LookupOr(attributes, "iconfont-name", "font-awesome") + ".css"])];
        }
      }

      assert styles == [PrimaryStyle(attributes, safe, engine)] + IconStyles(attributes);

      styles, scripts := AddHighlighterAssets(styles, scripts, linkcss, stylesdir);
    }

    /** The highlighter stage of `styles_and_scripts`: the stylesheet and the
        scripts the `source-highlighter` needs, appended to the lists. */
    method AddHighlighterAssets(styles0: seq<Item>, scripts0: seq<Item>, linkcss: bool, stylesdir: string)
      returns (styles: seq<Item>, scripts: seq<Item>)
      requires linkcss == Linkcss(attributes, safe) && stylesdir == StylesDir(attributes)
      ensures styles == styles0 + HighlighterStyles(attributes, safe, engine)
      ensures scripts == scripts0 + Scripts(attributes)
    {
      styles, scripts := styles0, scripts0;
      match Lookup(attributes, "source-highlighter")
      case Some("coderay") =>
        if LookupOr(attributes, "coderay-css", "class") == "class" {
          if linkcss {
            styles := styles + [Linked([stylesdir, engine.coderayStylesheetName])];
          } else {
            styles := styles + [Inline(Some(engine.coderayStylesheetData))];
          }
        }
      case Some("pygments") =>
        if LookupOr(attributes, "pygments-css", "class") == "class" {
          var style := Lookup(attributes, "pygments-style");
          if linkcss {
            styles := styles + [Linked([stylesdir, engine.pygmentsStylesheetName(style)])];
          } else {
            styles := styles + [Inline(Some(engine.pygmentsStylesheetData(style)))];
          }
        }
      case Some("highlightjs") =>
        var base := LookupOr(attributes, "highlightjsdir", HighlightjsBaseUri);
        var theme := LookupOr(attributes, "highlightjs-theme", DefaultHighlightjsTheme);
        scripts := scripts + [Linked([base, "highlight.min.js"])];
        scripts := scripts + [Linked([base, "lang/common.min.js"])];
        scripts := scripts + [Inline(Some("hljs.initHighlightingOnLoad()"))];
        styles := styles + [Linked([base, "styles/" + theme + ".min.css"])];
      case Some("prettify") =>
        var base := LookupOr(attributes, "prettifydir", PrettifyBaseUri);
        var theme := LookupOr(attributes, "prettify-theme", DefaultPrettifyTheme);
        scripts := scripts + [Linked([base, "prettify.min.js"])];
        scripts := scripts + [Inline(Some("document.addEventListener(\"DOMContentLoaded\", prettyPrint)"))];
        styles := styles + [Linked([base, theme + ".min.css"])];
      case _ =>
    }

    /** The body of the `styles.each` loop: one entry as a `style` or `link` tag. */
    method RenderStyle(item: Item) returns (tag: string)
      requires Valid()
      modifies this`uriScheme
      ensures Valid()
      ensures tag == StyleTag(item, engine, SchemeAttr(attributes))
      ensures uriScheme ==
        if old(uriScheme).None? && SchemeLinked(item)
        then Some(SchemeAttr(attributes))
        else old(uriScheme)
    {
      if item.Inline? {
        tag := HtmlTag.Tag("style", [], item.text, None);
      } else {
        var href := Urlize(item.segments);
        tag := HtmlTag.Tag("link", [HtmlTag.Attr("rel", HtmlTag.Text("stylesheet")),
                                    HtmlTag.Attr("href", HtmlTag.Text(href))], None, None);
      }
    }

    /** `styles.each { |item| tags << ... }`: one `style` or `link` tag per
        entry, appended in order. */
    method AppendStyleTags(tags: seq<string>, styles: seq<Item>) returns (out: seq<string>)
      requires Valid()
      modifies this`uriScheme
      ensures Valid()
      ensures out == tags + StyleTags(styles, engine, SchemeAttr(attributes))
      ensures uriScheme ==
        if old(uriScheme).None? && SchemeNeeded(styles) then Some(SchemeAttr(attributes)) else old(uriScheme)
    {
      ghost var scheme := SchemeAttr(attributes);
      out := tags;
      for i := 0 to |styles|
        invariant Valid()
        invariant out == tags + StyleTags(styles[..i], engine, scheme)
        invariant uriScheme ==
          if old(uriScheme).None? && SchemeNeeded(styles[..i]) then Some(scheme) else old(uriScheme)
      {
        var item := styles[i];
        SchemeNeededSnoc(styles[..i], item);
        var tag := RenderStyle(item);
        assert styles[..i + 1] == styles[..i] + [item];
        StyleTagsSnoc(styles[..i], item, engine, scheme);
        out := out + [tag];
      }
      assert styles[..|styles|] == styles;
    }

    /** The body of the `scripts.each` loop: one entry as a `script` tag. */
    method RenderScript(item: Item) returns (tag: string)
      requires Valid()
      modifies this`uriScheme
      ensures Valid()
      ensures tag == ScriptTag(item, engine, SchemeAttr(attributes))
      ensures uriScheme ==
        if old(uriScheme).None? && SchemeLinked(item)
        then Some(SchemeAttr(attributes))
        else old(uriScheme)
    {
      if item.Inline? {
        tag := HtmlTag.Tag("script", [HtmlTag.Attr("type", HtmlTag.Nil)], item.text, None);
      } else {
        var src := Urlize(item.segments);
        tag := HtmlTag.Tag("script", [HtmlTag.Attr("type", HtmlTag.Nil),
                                      HtmlTag.Attr("src", HtmlTag.Text(src))], None, None);
      }
    }

    /** `scripts.each { |item| tags << ... }`: one `script` tag per entry,
        appended in order. */
    method AppendScriptTags(tags: seq<string>, scripts: seq<Item>) returns (out: seq<string>)
      requires Valid()
      modifies this`uriScheme
      ensures Valid()
      ensures out == tags + ScriptTags(scripts, engine, SchemeAttr(attributes))
      ensures uriScheme ==
        if old(uriScheme).None? && SchemeNeeded(scripts) then Some(SchemeAttr(attributes)) else old(uriScheme)
    {
      ghost var scheme := SchemeAttr(attributes);
      out := tags;
      for i := 0 to |scripts|
        invariant Valid()
        invariant out == tags + ScriptTags(scripts[..i], engine, scheme)
        invariant uriScheme ==
          if old(uriScheme).None? && SchemeNeeded(scripts[..i]) then Some(scheme) else old(uriScheme)
      {
        var item := scripts[i];
        SchemeNeededSnoc(scripts[..i], item);
        var tag := RenderScript(item);
        assert scripts[..i + 1] == scripts[..i] + [item];
        ScriptTagsSnoc(scripts[..i], item, engine, scheme);
        out := out + [tag];
      }
      assert scripts[..|scripts|] == scripts;
    }

    /** `styles_and_scripts`: the style tags in order, then the script tags in
        order, one per line. */
    method StylesAndScripts() returns (html: string)
      requires Valid()
      modifies this`uriScheme
      ensures Valid()
      ensures html == HeadTags(attributes, safe, engine)
      ensures uriScheme ==
        if old(uriScheme).None? &&
           (SchemeNeeded(Styles(attributes, safe, engine)) || SchemeNeeded(Scripts(attributes)))
        then Some(SchemeAttr(attributes))
        else old(uriScheme)
    {
      var styles, scripts := SelectAssets();
      ghost var scheme := SchemeAttr(attributes);
      var tags: seq<string> := [];
      tags := AppendStyleTags(tags, styles);
      assert tags == StyleTags(styles, engine, scheme);
      tags := AppendScriptTags(tags, scripts);
      assert tags == TagList(styles, scripts, engine, scheme);
      assert tags == HeadTagList(attributes, safe, engine);
      html := Join(tags, "\n");
    }
  }
}
