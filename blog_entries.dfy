/** The `blog_entries` block macro (BlogEntriesMacro#process): lists the
    articles of a directory newest first as abstract blocks inside one
    `<div class='entries'>`. */
module BlogEntries {
  import opened Wrappers
  import opened Text
  import opened Articles

  /** The block the macro hands back: a pass block whose content is the HTML
      and whose substitution list is empty (`subs: nil`), so the HTML reaches
      the page unchanged. */
  datatype PassBlock = PassBlock(content: string, attributes: map<string, string>, subs: seq<string>)

  /** `Array#reverse`. */
  function Reverse(s: seq<Article>): (r: seq<Article>)
    ensures |r| == |s|
    decreases |s|
  {
    if s == [] then [] else Reverse(s[1..]) + [s[0]]
  }

  lemma {:induction false} ReverseAt(s: seq<Article>, k: nat)
    requires k < |s|
    ensures Reverse(s)[k] == s[|s| - 1 - k]
    decreases |s|
  {
    if k < |s| - 1 {
      ReverseAt(s[1..], k);
    }
  }

  lemma {:induction false} ReverseMultiset(s: seq<Article>)
    ensures multiset(Reverse(s)) == multiset(s)
    decreases |s|
  {
    if s != [] {
      ReverseMultiset(s[1..]);
      assert s == [s[0]] + s[1..];
    }
  }

  /** Reversing an ascending index gives dates that never increase. */
  lemma NewestFirst(s: seq<Article>)
    requires SortedByDate(s)
    ensures forall i, j :: 0 <= i < j < |s| ==> DateLe(Reverse(s)[j], Reverse(s)[i])
  {
    forall i, j | 0 <= i < j < |s| ensures DateLe(Reverse(s)[j], Reverse(s)[i]) {
      ReverseAt(s, i);
      ReverseAt(s, j);
    }
  }

  /** `file.gsub(/\.adoc/, '')`: the relative link of an entry, with no leading '/'. */
  function RelLink(a: Article): (r: string)
    ensures "/" + r == LinkTo(a).link
    ensures |r| <= |a.path|
  {
    StripAdoc(a.path)
  }

  const Indent: string := "            "
  const ArticleOpen: string := "<article class='abstract'>"
  const ArticleClose: string := "</article>"

  /** The two link macros the entry converts: `link:REL[TITLE]` and
      `link:REL[read more]`. */
  function DocLinkSource(a: Article): string {
    "link:" + RelLink(a) + "[" + a.doctitle + "]"
  }

  function ReadMoreSource(a: Article): string {
    "link:" + RelLink(a) + "[read more]"
  }

  /** `t` occurs in `s` at offset `k`. */
  predicate OccursAt(s: string, t: string, k: int) {
    0 <= k && k + |t| <= |s| && s[k..k + |t|] == t
  }

  predicate EndsWith(s: string, suffix: string) {
    |suffix| <= |s| && s[|s| - |suffix|..] == suffix
  }

  /** The break between two lines of a block: a newline and the indentation
      the block's literal carries. */
  const LineBreak: string := "\n" + Indent

  /** The heading: the converted `link:REL[TITLE]` macro. */
  function TitleHeading(a: Article, convert: string -> string): string {
    "<h2>" + convert(DocLinkSource(a)) + "</h2>"
  }

  /** The `<span>` holding the raw `published-date` (nil interpolates as ""). */
  function DateSpan(a: Article): string {
    "<span>" + a.publishedDate.GetOr("") + "</span>"
  }

  /** The paragraph: the abstract (empty when the document has no block with
      id "abstract": the `rescue nil`), a line break and the converted
      `link:REL[read more]` macro. */
  function AbstractParagraph(a: Article, convert: string -> string): string {
    "<p>" + a.abstractContent.GetOr("") + "<br>" + convert(ReadMoreSource(a)) + "</p>"
  }

  /** Where the heading, the date and the paragraph start in a block. */
  function TitleOffset(): int {
    |ArticleOpen| + |LineBreak|
  }

  function DateOffset(a: Article, convert: string -> string): int {
    TitleOffset() + |TitleHeading(a, convert)| + |LineBreak|
  }

  function AbstractOffset(a: Article, convert: string -> string): int {
    DateOffset(a, convert) + |DateSpan(a)| + |LineBreak|
  }

  /** One `<article class='abstract'>` block. `convert` is Asciidoctor.convert,
      opaque. Line by line: the article tag, the heading with the title link,
      the date span, the paragraph with the abstract and the read-more link,
      and the closing tag, each line break followed by the indentation. */
  function EntryBlock(a: Article, convert: string -> string): (r: string)
    ensures StartsWith(r, ArticleOpen)
    ensures OccursAt(r, LineBreak, |ArticleOpen|)
    ensures OccursAt(r, TitleHeading(a, convert), TitleOffset())
    ensures OccursAt(r, LineBreak, DateOffset(a, convert) - |LineBreak|)
    ensures OccursAt(r, DateSpan(a), DateOffset(a, convert))
    ensures OccursAt(r, LineBreak, AbstractOffset(a, convert) - |LineBreak|)
    ensures OccursAt(r, AbstractParagraph(a, convert), AbstractOffset(a, convert))
    ensures OccursAt(r, LineBreak, AbstractOffset(a, convert) + |AbstractParagraph(a, convert)|)
    ensures EndsWith(r, ArticleClose)
    ensures |r| == AbstractOffset(a, convert) + |AbstractParagraph(a, convert)| + |LineBreak| + |ArticleClose|
  {
    var title, date, para := TitleHeading(a, convert), DateSpan(a), AbstractParagraph(a, convert);
    Layout(ArticleOpen, LineBreak, title, date, para, ArticleClose);
    ArticleOpen + LineBreak + title + LineBreak + date + LineBreak + para + LineBreak + ArticleClose
  }

  /** `y` occurs in `x + y` right after `x`. */
  lemma Appended(x: string, y: string)
    ensures StartsWith(x + y, x) && OccursAt(x + y, y, |x|)
  {
    assert (x + y)[..|x|] == x;
    assert (x + y)[|x|..|x| + |y|] == y;
  }

  /** A string starting with `x + y` starts with `x`, then holds `y`. */
  lemma Unappend(r: string, x: string, y: string)
    requires StartsWith(r, x + y)
    ensures StartsWith(r, x) && OccursAt(r, y, |x|)
  {
    assert r[..|x|] == (x + y)[..|x|] == x;
    assert r[|x|..|x| + |y|] == (x + y)[|x|..] == y;
  }

  /** An occurrence inside a prefix is an occurrence in the whole string. */
  lemma InPrefix(r: string, x: string, t: string, k: int)
    requires StartsWith(r, x) && OccursAt(x, t, k)
    ensures OccursAt(r, t, k)
  {
    Nested(r, x, 0, t, k);
  }

  /** Where each part of `open + br + t + br + d + br + p + br + close` lies. */
  lemma Layout(open: string, br: string, t: string, d: string, p: string, close: string)
    ensures var r := open + br + t + br + d + br + p + br + close;
      var k := |open| + |br| + |t| + |br| + |d| + |br| + |p|;
      StartsWith(r, open) &&
      OccursAt(r, br, |open|) &&
      OccursAt(r, t, |open| + |br|) &&
      OccursAt(r, br, |open| + |br| + |t|) &&
      OccursAt(r, d, |open| + |br| + |t| + |br|) &&
      OccursAt(r, br, |open| + |br| + |t| + |br| + |d|) &&
      OccursAt(r, p, |open| + |br| + |t| + |br| + |d| + |br|) &&
      OccursAt(r, br, k) &&
      EndsWith(r, close) && |r| == k + |br| + |close|
  {
    var p1 := open + br;
    var p2 := p1 + t;
    var p3 := p2 + br;
    var p4 := p3 + d;
    var p5 := p4 + br;
    var p6 := p5 + p;
    var p7 := p6 + br;
    var r := p7 + close;
    Appended(p7, close);
    Unappend(r, p6, br);
    Unappend(r, p5, p);
    Unappend(r, p4, br);
    Unappend(r, p3, d);
    Unappend(r, p2, br);
    Unappend(r, p1, t);
    Unappend(r, open, br);
    assert r[|r| - |close|..] == close;
  }

  /** An occurrence inside an occurrence. */
  lemma Nested(s: string, t: string, k: int, u: string, j: int)
    requires OccursAt(s, t, k) && OccursAt(t, u, j)
    ensures OccursAt(s, u, k + j)
  {
    forall i | 0 <= i < |u| ensures s[k + j + i] == u[i] {
      assert s[k + j + i] == s[k..k + |t|][j + i] == t[j + i];
      assert u[i] == t[j..j + |u|][i];
    }
  }

  /** The title link and the read-more link of a block are both converted from
      a `link:` macro on the same relative link. */
  lemma LinksShareRelLink(a: Article, convert: string -> string)
    ensures OccursAt(EntryBlock(a, convert), convert("link:" + RelLink(a) + "[" + a.doctitle + "]"),
                     TitleOffset() + |"<h2>"|)
    ensures OccursAt(EntryBlock(a, convert), convert("link:" + RelLink(a) + "[read more]"),
                     AbstractOffset(a, convert) + |"<p>" + a.abstractContent.GetOr("") + "<br>"|)
  {
    var r := EntryBlock(a, convert);
    var doc, more := convert(DocLinkSource(a)), convert(ReadMoreSource(a));
    Appended("<h2>", doc);
    Appended("<h2>" + doc, "</h2>");
    InPrefix(TitleHeading(a, convert), "<h2>" + doc, doc, |"<h2>"|);
    Nested(r, TitleHeading(a, convert), TitleOffset(), doc, |"<h2>"|);
    var before := "<p>" + a.abstractContent.GetOr("") + "<br>";
    Appended(before, more);
    Appended(before + more, "</p>");
    InPrefix(AbstractParagraph(a, convert), before + more, more, |before|);
    Nested(r, AbstractParagraph(a, convert), AbstractOffset(a, convert), more, |before|);
  }

  /** A document without an abstract block renders exactly as one whose
      abstract is empty: the missing block is not an error. */
  lemma MissingAbstractIsEmpty(a: Article, convert: string -> string)
    requires a.abstractContent.None?
    ensures EntryBlock(a, convert) == EntryBlock(a.(abstractContent := Some("")), convert)
  {
    assert AbstractParagraph(a, convert) == AbstractParagraph(a.(abstractContent := Some("")), convert);
  }

  /** The relative link of the listing and the navigation link of the same file
      differ only by the leading '/'. */
  lemma ListingAndNavigationAgree(a: Article)
    ensures LinkTo(a).link == "/" + RelLink(a)
  {
  }

  /** `reduce("") { |acc, entry| acc + block }`: a left fold. */
  function Fold(acc: string, entries: seq<Article>, convert: string -> string): (r: string)
    ensures StartsWith(r, acc)
    decreases |entries|
  {
    if entries == [] then acc
    else
      var next := acc + EntryBlock(entries[0], convert);
      var r := Fold(next, entries[1..], convert);
      assert r[..|acc|] == r[..|next|][..|acc|] == next[..|acc|] == acc;
      r
  }

  /** The blocks of a sequence of entries, one per entry, in order. */
  function Blocks(entries: seq<Article>, convert: string -> string): (r: seq<string>)
    ensures |r| == |entries|
    ensures forall i :: 0 <= i < |entries| ==> r[i] == EntryBlock(entries[i], convert)
  {
    seq(|entries|, i requires 0 <= i < |entries| => EntryBlock(entries[i], convert))
  }

  function Concat(xs: seq<string>): (r: string)
    ensures xs == [] ==> r == ""
    decreases |xs|
  {
    if xs == [] then "" else xs[0] + Concat(xs[1..])
  }

  /** The fold appends the blocks to the accumulator left to right: exactly one
      block per entry, in entry order. */
  lemma {:induction false} FoldIsConcat(acc: string, entries: seq<Article>, convert: string -> string)
    ensures Fold(acc, entries, convert) == acc + Concat(Blocks(entries, convert))
    decreases |entries|
  {
    if entries != [] {
      FoldIsConcat(acc + EntryBlock(entries[0], convert), entries[1..], convert);
      assert Blocks(entries, convert)[1..] == Blocks(entries[1..], convert);
    }
  }

  const EntriesOpen: string := "<div class='entries'>"
  const EntriesClose: string := "</div>"

  /** The listing order: the ascending date index reversed, newest first. */
  function Listing(files: seq<Article>): (r: Result<seq<Article>, SortError>)
    ensures r.Failure? <==> MixedDates(files)
    ensures r.Success? ==> multiset(r.value) == multiset(files) && |r.value| == |files|
    ensures r.Success? ==> forall i, j :: 0 <= i < j < |r.value| ==> DateLe(r.value[j], r.value[i])
  {
    match Index(files)
    case Failure(e) => Failure(e)
    case Success(index) =>
      ReverseMultiset(index);
      NewestFirst(index);
      Success(Reverse(index))
  }

  /** BlogEntriesMacro#process over the listed files of the target directory:
      the blocks of the newest-first listing, concatenated inside one
      `<div class='entries'>`, handed back as a pass block without
      substitutions. It fails only when `sort_by` raises. */
  function Process(files: seq<Article>, attrs: map<string, string>, convert: string -> string)
    : (r: Result<PassBlock, SortError>)
    ensures r.Failure? <==> MixedDates(files)
    ensures r.Success? ==> r.value.subs == [] && r.value.attributes == attrs
    ensures r.Success? ==>
      Listing(files).Success? &&
      r.value.content == EntriesOpen + Concat(Blocks(Listing(files).value, convert)) + EntriesClose
  {
    match Listing(files)
    case Failure(e) => Failure(e)
    case Success(entries) =>
      var body := Fold("", entries, convert);
      assert body == Concat(Blocks(entries, convert)) by {
        FoldIsConcat("", entries, convert);
        assert "" + Concat(Blocks(entries, convert)) == Concat(Blocks(entries, convert));
      }
      var html := EntriesOpen + body + EntriesClose;
      Success(PassBlock(html, attrs, []))
  }

  /** With no files the listing is the empty wrapper. */
  lemma NoFiles(attrs: map<string, string>, convert: string -> string)
    ensures Process([], attrs, convert) == Success(PassBlock("<div class='entries'></div>", attrs, []))
  {
    assert !MixedDates([]);
    assert Listing([]).value == [];
    assert Blocks([], convert) == [];
    assert Process([], attrs, convert).value.content == EntriesOpen + "" + EntriesClose;
    assert EntriesOpen + "" + EntriesClose == "<div class='entries'></div>";
  }

  /** Two articles listed oldest first come out newest first. */
  lemma NewestListedFirst()
    ensures Listing([ArticleA, ArticleB]) == Success([ArticleB, ArticleA])
  {
    IndexTwo();
    ReverseTwo(ArticleA, ArticleB);
  }

  lemma ReverseTwo(a: Article, b: Article)
    ensures Reverse([a, b]) == [b, a]
  {
    assert [a, b][1..] == [b];
    assert Reverse([b]) == Reverse([]) + [b];
  }
}
