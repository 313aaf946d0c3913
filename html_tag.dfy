/** The `html_tag` helper: renders one HTML element from a name, an ordered
    attribute hash, optional content and an optional block. */
module HtmlTag {
  import opened Wrappers
  import opened Text

  /** The Ruby values an attribute hash holds. A number or symbol is modelled by
      the `Text` of its `to_s` (never empty, and not tested by `empty?`). */
  datatype AttrValue =
    | Nil
    | Bool(b: bool)
    | Text(s: string)
    | List(items: seq<Option<string>>)   // an Array, whose elements may be nil

  /** One `key => value` pair of the (insertion-ordered) hash. */
  datatype Attr = Attr(key: string, value: AttrValue)

  const VoidElements: set<string> :=
    {"area", "base", "br", "col", "command", "embed", "hr", "img", "input",
     "keygen", "link", "meta", "param", "source", "track", "wbr"}

  /** `v.nil? || (v.respond_to?(:empty?) && v.empty?)`: strings and arrays answer
      `empty?`; booleans do not. */
  predicate Blank(v: AttrValue) {
    match v
    case Nil => true
    case Bool(_) => false
    case Text(s) => s == ""
    case List(xs) => xs == []
  }

  /** `attributes.reject { ... }`: the attributes whose value is not blank. */
  function Kept(attrs: seq<Attr>): (r: seq<Attr>)
    ensures |r| <= |attrs|
  {
    if attrs == [] then []
    else if Blank(attrs[0].value) then Kept(attrs[1..])
    else [attrs[0]] + Kept(attrs[1..])
  }

  /** The survivors are exactly the attributes whose value is not blank. */
  lemma {:induction false} KeptMembers(attrs: seq<Attr>, a: Attr)
    ensures a in Kept(attrs) <==> a in attrs && !Blank(a.value)
    decreases |attrs|
  {
    if attrs != [] {
      KeptMembers(attrs[1..], a);
      assert attrs == [attrs[0]] + attrs[1..];
    }
  }

  /** Filtering distributes over concatenation, so the survivors keep the
      order they had. */
  lemma {:induction false} KeptAppend(xs: seq<Attr>, ys: seq<Attr>)
    ensures Kept(xs + ys) == Kept(xs) + Kept(ys)
    decreases |xs|
  {
    if xs == [] {
      assert xs + ys == ys;
    } else {
      assert (xs + ys)[0] == xs[0];
      assert (xs + ys)[1..] == xs[1..] + ys;
      KeptAppend(xs[1..], ys);
    }
  }

  /** An attribute list with nothing blank in it passes the filter unchanged. */
  lemma {:induction false} KeptNoBlank(attrs: seq<Attr>)
    requires forall i :: 0 <= i < |attrs| ==> !Blank(attrs[i].value)
    ensures Kept(attrs) == attrs
    decreases |attrs|
  {
    if attrs != [] { KeptNoBlank(attrs[1..]); }
  }

  /** `Array#compact`: the elements that are not nil, in order. */
  function Compact(xs: seq<Option<string>>): (r: seq<string>)
    ensures |r| <= |xs|
    ensures forall s :: s in r <==> Some(s) in xs
  {
    if xs == [] then []
    else match xs[0]
      case None => Compact(xs[1..])
      case Some(s) => [s] + Compact(xs[1..])
  }

  /** Compacting one element drops it when it is nil and keeps it otherwise. */
  lemma CompactOne(x: Option<string>)
    ensures Compact([x]) == if x.Some? then [x.value] else []
  {
    assert [x][1..] == [];
  }

  /** Compacting distributes over concatenation: together with `CompactOne`
      this says the survivors keep their order and their multiplicity. */
  lemma {:induction false} CompactAppend(xs: seq<Option<string>>, ys: seq<Option<string>>)
    ensures Compact(xs + ys) == Compact(xs) + Compact(ys)
    decreases |xs|
  {
    if xs == [] {
      assert xs + ys == ys;
    } else {
      assert (xs + ys)[0] == xs[0];
      assert (xs + ys)[1..] == xs[1..] + ys;
      CompactAppend(xs[1..], ys);
    }
  }

  /** `[k, v] * '='` after the value rewriting of lines 44 to 46: an Array is
      compacted, space-joined and quoted; a string is quoted; `true` becomes nil
      and so leaves `k=`; `false` is not quoted and joins as `k=false`. */
  function RenderAttr(a: Attr): (r: string)
    ensures StartsWith(r, a.key + "=")
    ensures a.value.Text? ==> r == a.key + "=\"" + a.value.s + "\""
    ensures a.value.List? ==> r == a.key + "=\"" + Join(Compact(a.value.items), " ") + "\""
    ensures a.value == Bool(true) ==> r == a.key + "="
    ensures a.value == Bool(false) ==> r == a.key + "=false"
  {
    var v := match a.value
      case Nil => ""
      case Bool(b) => if b then "" else "false"
      case Text(s) => "\"" + s + "\""
      case List(xs) => "\"" + Join(Compact(xs), " ") + "\"";
    a.key + "=" + v
  }

  /** The rendered attributes, in order. */
  function RenderAll(attrs: seq<Attr>): (r: seq<string>)
    ensures |r| == |attrs|
    ensures forall i :: 0 <= i < |attrs| ==> r[i] == RenderAttr(attrs[i])
  {
    seq(|attrs|, i requires 0 <= i < |attrs| => RenderAttr(attrs[i]))
  }

  /** `attrs_str`: empty when no attribute survives, otherwise one leading space
      and the surviving attributes separated by single spaces. */
  function AttrString(attrs: seq<Attr>): (r: string)
    ensures r == "" <==> Kept(attrs) == []
    ensures r != "" ==> r == " " + Join(RenderAll(Kept(attrs)), " ")
  {
    var kept := Kept(attrs);
    if kept == [] then "" else " " + Join(RenderAll(kept), " ")
  }

  function OpenTag(name: string, attrs: seq<Attr>): string {
    "<" + name + AttrString(attrs) + ">"
  }

  /** `html_tag(name, attributes, content) { block }`. `block` is the block's
      value: None when no block is given or it yields nil. A void element is its
      opening tag alone; any other element wraps the content, or the block's
      value when no content is given, in its opening and closing tags. */
  function Tag(name: string, attrs: seq<Attr>, content: Option<string>, block: Option<string>): (r: string)
    ensures StartsWith(r, "<" + name + AttrString(attrs) + ">")
    ensures name in VoidElements ==> r == OpenTag(name, attrs)
    ensures name !in VoidElements && content.Some? ==>
      r == OpenTag(name, attrs) + content.value + "</" + name + ">"
    ensures name !in VoidElements && content.None? ==>
      r == OpenTag(name, attrs) + block.GetOr("") + "</" + name + ">"
  {
    var open := OpenTag(name, attrs);
    if name in VoidElements then open
    else
      var body := if content.Some? then content.value else block.GetOr("");
      var r := open + body + "</" + name + ">";
      assert r[..|open|] == open;
      r
  }

  /** Blank attributes are invisible: adding them anywhere changes nothing. */
  lemma BlankAttrsIgnored(name: string, pre: seq<Attr>, blank: Attr, post: seq<Attr>,
                          content: Option<string>, block: Option<string>)
    requires Blank(blank.value)
    ensures Tag(name, pre + [blank] + post, content, block) == Tag(name, pre + post, content, block)
  {
    KeptAppend(pre + [blank], post);
    KeptAppend(pre, [blank]);
    KeptAppend(pre, post);
    assert Kept([blank]) == [];
    assert Kept(pre + [blank] + post) == Kept(pre + post);
    assert AttrString(pre + [blank] + post) == AttrString(pre + post);
  }

  lemma {:induction false} KeptAllBlank(attrs: seq<Attr>)
    requires forall i :: 0 <= i < |attrs| ==> Blank(attrs[i].value)
    ensures Kept(attrs) == []
    decreases |attrs|
  {
    if attrs != [] { KeptAllBlank(attrs[1..]); }
  }

  /** A tag with no surviving attribute has no space after its name. */
  lemma NoAttrs(name: string, attrs: seq<Attr>)
    requires forall i :: 0 <= i < |attrs| ==> Blank(attrs[i].value)
    ensures OpenTag(name, attrs) == "<" + name + ">"
  {
    KeptAllBlank(attrs);
  }

  /** Two surviving attributes render as ` k1="v1" k2="v2"`. */
  lemma {:induction false} TwoTextAttrs(k1: string, v1: string, k2: string, v2: string)
    requires v1 != "" && v2 != ""
    ensures AttrString([Attr(k1, Text(v1)), Attr(k2, Text(v2))])
         == " " + (k1 + "=\"" + v1 + "\"") + " " + (k2 + "=\"" + v2 + "\"")
  {
    var attrs := [Attr(k1, Text(v1)), Attr(k2, Text(v2))];
    KeptNoBlank(attrs);
    var r1, r2 := RenderAttr(attrs[0]), RenderAttr(attrs[1]);
    assert RenderAll(attrs) == [r1, r2];
    assert [r1, r2][1..] == [r2];
    assert Join([r1, r2], " ") == r1 + " " + r2;
  }

  /** A nil attribute before a surviving one leaves only the survivor:
      ` k2="v2"`. */
  lemma NilThenText(k1: string, k2: string, v2: string)
    requires v2 != ""
    ensures AttrString([Attr(k1, Nil), Attr(k2, Text(v2))]) == " " + k2 + "=\"" + v2 + "\""
  {
    var a := Attr(k2, Text(v2));
    assert [Attr(k1, Nil), a][1..] == [a];
    assert [a][1..] == [];
    assert Kept([Attr(k1, Nil), a]) == [a];
    assert RenderAll([a]) == [RenderAttr(a)];
  }
}
