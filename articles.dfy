/** The article index (`articles`) and the previous/next navigation helpers
    (`prev_article`, `next_article`). */
module Articles {
  import opened Wrappers
  import opened Text

  /** One listed article file after loading: its path as the directory glob
      returns it, the loaded document's title, its `published-date` attribute
      (nil when unset) and the content of its block with id "abstract". */
  datatype Article = Article(path: string, doctitle: string,
                             publishedDate: Option<string>, abstractContent: Option<string>)

  /** Ruby raises ArgumentError from `sort_by` when it has to compare a nil key
      with a String key. */
  datatype SortError = ComparisonFailed

  /** The navigation record `{link:, text:}`. */
  datatype NavLink = NavLink(link: string, text: string)

  /** Some article has a date and some other has none, so `sort_by` must at
      some point compare nil with a String. */
  predicate MixedDates(files: seq<Article>) {
    (exists i :: 0 <= i < |files| && files[i].publishedDate.None?) &&
    (exists j :: 0 <= j < |files| && files[j].publishedDate.Some?)
  }

  /** The sort key. When dates are not mixed, either every key is the real date
      or every article has none (nil <=> nil is 0: all keys tie). */
  function DateKey(a: Article): string {
    a.publishedDate.GetOr("")
  }

  predicate DateLe(a: Article, b: Article) {
    LexLe(DateKey(a), DateKey(b))
  }

  /** Non-decreasing by published date, over every pair. */
  predicate SortedByDate(s: seq<Article>) {
    forall i, j :: 0 <= i < j < |s| ==> DateLe(s[i], s[j])
  }

  /** Insertion of one article into a sorted index. */
  function Insert(x: Article, s: seq<Article>): (r: seq<Article>)
    requires SortedByDate(s)
    ensures SortedByDate(r)
    ensures multiset(r) == multiset(s) + multiset{x}
    decreases |s|
  {
    if s == [] then [x]
    else if DateLe(x, s[0]) then
      InsertFront(x, s);
      [x] + s
    else
      LexLeTotal(DateKey(x), DateKey(s[0]));
      var t := Insert(x, s[1..]);
      InsertBehind(s[0], x, s[1..], t);
      assert s == [s[0]] + s[1..];
      [s[0]] + t
  }

  lemma InsertFront(x: Article, s: seq<Article>)
    requires SortedByDate(s) && s != [] && DateLe(x, s[0])
    ensures SortedByDate([x] + s)
  {
    var r := [x] + s;
    forall i, j | 0 <= i < j < |r| ensures DateLe(r[i], r[j]) {
      if i == 0 && j > 1 {
        LexLeTransitive(DateKey(x), DateKey(s[0]), DateKey(s[j - 1]));
      }
    }
  }

  lemma InsertBehind(h: Article, x: Article, rest: seq<Article>, t: seq<Article>)
    requires SortedByDate([h] + rest) && DateLe(h, x)
    requires SortedByDate(t) && multiset(t) == multiset(rest) + multiset{x}
    ensures SortedByDate([h] + t)
  {
    var r := [h] + t;
    forall i, j | 0 <= i < j < |r| ensures DateLe(r[i], r[j]) {
      if i == 0 {
        var y := t[j - 1];
        assert r[0] == h && r[j] == y;
        assert y in multiset(t);
        assert ([h] + rest)[0] == h;
        if y == x {
        } else {
          assert y in multiset(rest);
          var k :| 0 <= k < |rest| && rest[k] == y;
          assert ([h] + rest)[k + 1] == y;
        }
      }
    }
  }

  /** `sort_by { published-date }` when it does not raise: a permutation sorted
      non-decreasingly by date. (The order it picks among equal dates is one
      valid choice; see SortedDatesDetermined for why no more is promised.) */
  function SortByDate(files: seq<Article>): (r: seq<Article>)
    ensures SortedByDate(r)
    ensures multiset(r) == multiset(files)
    decreases |files|
  {
    if files == [] then []
    else
      assert files == [files[0]] + files[1..];
      Insert(files[0], SortByDate(files[1..]))
  }

  /** `articles`: the listed files, loaded and sorted by `published-date`. It
      fails exactly when both dated and undated articles are present; otherwise
      it holds each listed file exactly as often as it was listed, in date order. */
  function Index(files: seq<Article>): (r: Result<seq<Article>, SortError>)
    ensures r.Failure? <==> MixedDates(files)
    ensures r.Success? ==> SortedByDate(r.value) && multiset(r.value) == multiset(files)
    ensures r.Success? ==> |r.value| == |files|
  {
    if MixedDates(files) then Failure(ComparisonFailed)
    else
      var s := SortByDate(files);
      assert |s| == |multiset(s)| == |multiset(files)| == |files|;
      Success(s)
  }

  function Dates(s: seq<Article>): (r: seq<string>)
    ensures |r| == |s|
    ensures forall i :: 0 <= i < |s| ==> r[i] == DateKey(s[i])
  {
    seq(|s|, i requires 0 <= i < |s| => DateKey(s[i]))
  }

  /** Removing one element keeps a sorted sequence sorted. */
  lemma SortedRemove(s: seq<Article>, k: nat)
    requires SortedByDate(s) && k < |s|
    ensures SortedByDate(s[..k] + s[k + 1..])
  {
    var r := s[..k] + s[k + 1..];
    forall i, j | 0 <= i < j < |r| ensures DateLe(r[i], r[j]) {
      var i' := if i < k then i else i + 1;
      var j' := if j < k then j else j + 1;
      assert r[i] == s[i'] && r[j] == s[j'];
    }
  }

  lemma SortedTail(s: seq<Article>)
    requires SortedByDate(s) && s != []
    ensures SortedByDate(s[1..])
  {
    forall i, j | 0 <= i < j < |s[1..]| ensures DateLe(s[1..][i], s[1..][j]) {
      assert s[1..][i] == s[i + 1] && s[1..][j] == s[j + 1];
    }
  }

  /** Two sorted permutations start with the same (least) date. */
  lemma LeastDate(a: seq<Article>, b: seq<Article>)
    requires SortedByDate(a) && SortedByDate(b) && multiset(a) == multiset(b) && a != []
    ensures b != [] && DateKey(a[0]) == DateKey(b[0])
  {
    assert a[0] in multiset(b);
    var k :| 0 <= k < |b| && b[k] == a[0];
    assert b[0] in multiset(a);
    var m :| 0 <= m < |a| && a[m] == b[0];
    LexLeReflexive(DateKey(a[0]));
    if m > 0 { assert DateLe(a[0], a[m]); }
    if k > 0 { assert DateLe(b[0], b[k]); }
    LexLeAntisymmetric(DateKey(a[0]), DateKey(b[0]));
  }

  /** In a sorted sequence, everything up to an element carrying the first
      date carries that date too. */
  lemma SameDatePrefix(b: seq<Article>, k: nat)
    requires SortedByDate(b) && k < |b| && DateKey(b[k]) == DateKey(b[0])
    ensures forall i :: 0 <= i <= k ==> DateKey(b[i]) == DateKey(b[0])
  {
    forall i | 0 < i < k ensures DateKey(b[i]) == DateKey(b[0]) {
      assert DateLe(b[0], b[i]) && DateLe(b[i], b[k]);
      LexLeAntisymmetric(DateKey(b[i]), DateKey(b[0]));
    }
  }

  /** The tie order is the only freedom a sort has: any two permutations of
      the same files that are both sorted by date list the same dates in the
      same order. So an unstable `sort_by` may order same-dated articles
      differently, and nothing else. */
  lemma {:induction false} SortedDatesDetermined(a: seq<Article>, b: seq<Article>)
    requires SortedByDate(a) && SortedByDate(b) && multiset(a) == multiset(b)
    ensures Dates(a) == Dates(b)
    decreases |a|
  {
    assert |a| == |multiset(a)| == |multiset(b)| == |b|;
    if a != [] {
      var x := a[0];
      LeastDate(a, b);
      assert x in multiset(b);
      var k :| 0 <= k < |b| && b[k] == x;
      SameDatePrefix(b, k);
      SortedRemove(b, k);
      SortedTail(a);
      RemoveSame(a, b, k);
      SortedDatesDetermined(a[1..], b[..k] + b[k + 1..]);
      ShiftedDates(a, b, k);
    }
  }

  lemma RemoveSame(a: seq<Article>, b: seq<Article>, k: nat)
    requires multiset(a) == multiset(b) && a != [] && k < |b| && b[k] == a[0]
    ensures multiset(a[1..]) == multiset(b[..k] + b[k + 1..])
  {
    assert b == b[..k] + [b[k]] + b[k + 1..];
    assert a == [a[0]] + a[1..];
    calc {
      multiset(a[1..]);
      multiset(a) - multiset{a[0]};
      multiset(b) - multiset{b[k]};
      multiset(b[..k]) + multiset(b[k + 1..]);
      multiset(b[..k] + b[k + 1..]);
    }
  }

  /** The index bookkeeping of SortedDatesDetermined: `b` is `b'` with an
      element of the first date put back at position `k`. */
  lemma ShiftedDates(a: seq<Article>, b: seq<Article>, k: nat)
    requires |a| == |b| && k < |b| && a != []
    requires forall i :: 0 <= i <= k ==> DateKey(b[i]) == DateKey(a[0])
    requires Dates(a[1..]) == Dates(b[..k] + b[k + 1..])
    ensures Dates(a) == Dates(b)
  {
    var b' := b[..k] + b[k + 1..];
    forall i | 0 < i < |a| ensures DateKey(a[i]) == DateKey(b[i]) {
      assert DateKey(a[i]) == Dates(a[1..])[i - 1] == Dates(b')[i - 1];
      if i <= k {
        assert b'[i - 1] == b[i - 1];
      } else {
        assert b'[i - 1] == b[i];
      }
    }
  }

  /** `i` is the first position whose document has the given title: what
      `index { |(_, d)| d.doctitle == doctitle }` returns. */
  predicate FirstMatch(s: seq<Article>, title: string, i: int) {
    0 <= i < |s| && s[i].doctitle == title &&
    forall j :: 0 <= j < i ==> s[j].doctitle != title
  }

  /** Array#index with a block: the first matching position, or nil. */
  function IndexOfTitle(s: seq<Article>, title: string): (r: Option<nat>)
    ensures r.Some? ==> FirstMatch(s, title, r.value)
    ensures r.None? ==> forall j :: 0 <= j < |s| ==> s[j].doctitle != title
    decreases |s|
  {
    if s == [] then None
    else if s[0].doctitle == title then Some(0)
    else match IndexOfTitle(s[1..], title)
      case None => None
      case Some(i) => Some(i + 1)
  }

  /** The first match, when there is one, is unique. */
  lemma FirstMatchUnique(s: seq<Article>, title: string, i: int, j: int)
    requires FirstMatch(s, title, i) && FirstMatch(s, title, j)
    ensures i == j
  {
  }

  /** The navigation record for an entry: `'/' + path.gsub(/\.adoc/, '')` and
      that entry's title. */
  function LinkTo(a: Article): (r: NavLink)
    ensures r.text == a.doctitle
    ensures |r.link| >= 1 && r.link[0] == '/' && |r.link| <= |a.path| + 1
  {
    NavLink("/" + StripAdoc(a.path), a.doctitle)
  }

  /** `prev_article` over one index: nil when the title is unknown or first;
      otherwise the entry just before the first match. */
  function Prev(index: seq<Article>, title: string): (r: Option<NavLink>)
    ensures r.Some? <==> exists i :: 1 <= i < |index| && FirstMatch(index, title, i)
    ensures forall i :: 1 <= i < |index| && FirstMatch(index, title, i) ==> r == Some(LinkTo(index[i - 1]))
  {
    match IndexOfTitle(index, title)
    case None => None
    case Some(i) => if i == 0 then None else Some(LinkTo(index[i - 1]))
  }

  /** `next_article` over one index: nil when the title is unknown or last;
      otherwise the entry just after the first match. */
  function Next(index: seq<Article>, title: string): (r: Option<NavLink>)
    ensures r.Some? <==> exists i :: 0 <= i < |index| - 1 && FirstMatch(index, title, i)
    ensures forall i :: 0 <= i < |index| - 1 && FirstMatch(index, title, i) ==> r == Some(LinkTo(index[i + 1]))
  {
    match IndexOfTitle(index, title)
    case None => None
    case Some(i) => if i == |index| - 1 then None else Some(LinkTo(index[i + 1]))
  }

  /** `prev_article` on the listed files (the index is built from one unchanged
      listing). */
  function PrevArticle(files: seq<Article>, title: string): (r: Result<Option<NavLink>, SortError>)
    ensures r.Failure? <==> MixedDates(files)
  {
    match Index(files)
    case Failure(e) => Failure(e)
    case Success(index) => Success(Prev(index, title))
  }

  function NextArticle(files: seq<Article>, title: string): (r: Result<Option<NavLink>, SortError>)
    ensures r.Failure? <==> MixedDates(files)
  {
    match Index(files)
    case Failure(e) => Failure(e)
    case Success(index) => Success(Next(index, title))
  }

  /** An unknown title gives no link either way. */
  lemma UnknownTitle(index: seq<Article>, title: string)
    requires forall j :: 0 <= j < |index| ==> index[j].doctitle != title
    ensures Prev(index, title) == None && Next(index, title) == None
  {
  }

  /** The first entry has no previous one and the last has no next one. */
  lemma Boundaries(index: seq<Article>)
    requires index != []
    ensures Prev(index, index[0].doctitle) == None
    ensures FirstMatch(index, index[|index| - 1].doctitle, |index| - 1) ==>
              Next(index, index[|index| - 1].doctitle) == None
  {
    var last := |index| - 1;
    if FirstMatch(index, index[last].doctitle, last) {
      var r := IndexOfTitle(index, index[last].doctitle);
      FirstMatchUnique(index, index[last].doctitle, r.value, last);
    }
  }

  /** A single-entry index links nowhere. */
  lemma SingleEntry(a: Article, title: string)
    ensures Prev([a], title) == None && Next([a], title) == None
  {
  }

  /** Previous and next are inverse steps: if b follows a, then a precedes b
      (for titles that occur once). */
  lemma PrevNextInverse(index: seq<Article>, i: nat)
    requires i + 1 < |index|
    requires FirstMatch(index, index[i].doctitle, i) && FirstMatch(index, index[i + 1].doctitle, i + 1)
    ensures Next(index, index[i].doctitle) == Some(LinkTo(index[i + 1]))
    ensures Prev(index, index[i + 1].doctitle) == Some(LinkTo(index[i]))
  {
  }

  /** A file `stem.adoc` links to `/stem`. */
  lemma LinkStripsExtension(a: Article, stem: string)
    requires a.path == stem + Adoc && AdocFree(stem)
    ensures LinkTo(a).link == "/" + stem
  {
    StripAdocExtension(stem);
  }

  const Jan: string := "2020-01-01"
  const Feb: string := "2020-02-01"
  const Mar: string := "2020-03-01"

  lemma DatesAscend()
    ensures LexLe(Jan, Feb) && LexLe(Feb, Mar) && !LexLe(Feb, Jan) && !LexLe(Mar, Feb) && !LexLe(Mar, Jan)
  {
    assert Jan[..6] == Feb[..6] == Mar[..6] == "2020-0";
    LexLeFirstDifference(Jan, Feb, 6);
    LexLeFirstDifference(Feb, Mar, 6);
    LexLeFirstDifference(Jan, Mar, 6);
  }

  const ArticleA := Article("articles/a.adoc", "A", Some(Jan), None)
  const ArticleB := Article("articles/b.adoc", "B", Some(Feb), None)
  const ArticleC := Article("articles/c.adoc", "C", Some(Mar), None)

  lemma SortTwo()
    ensures SortByDate([ArticleA, ArticleB]) == [ArticleA, ArticleB]
  {
    DatesAscend();
    var a, b := ArticleA, ArticleB;
    assert DateLe(a, b);
    assert [a, b][1..] == [b];
    assert SortByDate([b]) == Insert(b, []) == [b];
  }

  lemma IndexTwo()
    ensures Index([ArticleA, ArticleB]) == Success([ArticleA, ArticleB])
  {
    assert !MixedDates([ArticleA, ArticleB]);
    SortTwo();
  }

  lemma InsertLatest()
    ensures Insert(ArticleC, [ArticleA, ArticleB]) == [ArticleA, ArticleB, ArticleC]
  {
    DatesAscend();
    InsertAfterB();
    assert [ArticleA, ArticleB][1..] == [ArticleB];
  }

  lemma InsertAfterB()
    ensures Insert(ArticleC, [ArticleB]) == [ArticleB, ArticleC]
  {
    DatesAscend();
  }

  lemma SortThree()
    ensures Index([ArticleC, ArticleA, ArticleB]) == Success([ArticleA, ArticleB, ArticleC])
  {
    var a, b, c := ArticleA, ArticleB, ArticleC;
    assert !MixedDates([c, a, b]);
    assert [c, a, b][1..] == [a, b];
    SortTwo();
    InsertLatest();
  }

  /** Three dated articles listed out of order: the index sorts them, and the
      middle one links back to the first and on to the third. */
  lemma ThreeArticles()
    ensures PrevArticle([ArticleC, ArticleA, ArticleB], "B") == Success(Some(LinkTo(ArticleA)))
    ensures NextArticle([ArticleC, ArticleA, ArticleB], "B") == Success(Some(LinkTo(ArticleC)))
  {
    MiddleLinksBack();
    MiddleLinksOn();
  }

  lemma MiddleLinksBack()
    ensures PrevArticle([ArticleC, ArticleA, ArticleB], "B") == Success(Some(LinkTo(ArticleA)))
  {
    SortThree();
    assert FirstMatch([ArticleA, ArticleB, ArticleC], "B", 1);
  }

  lemma MiddleLinksOn()
    ensures NextArticle([ArticleC, ArticleA, ArticleB], "B") == Success(Some(LinkTo(ArticleC)))
  {
    SortThree();
    assert FirstMatch([ArticleA, ArticleB, ArticleC], "B", 1);
  }
}
