/** String operations the helpers rely on: Array#join, String#start_with?,
    gsub(/\.adoc/, '') and Ruby's String comparison. */
module Text {

  /** Array#join(sep): the elements with `sep` between consecutive ones. */
  function Join(xs: seq<string>, sep: string): (r: string)
    ensures xs == [] ==> r == ""
    ensures |xs| == 1 ==> r == xs[0]
    decreases |xs|
  {
    if |xs| == 0 then ""
    else if |xs| == 1 then xs[0]
    else xs[0] + sep + Join(xs[1..], sep)
  }

  /** Joining a concatenation: the two joins meet at one separator. */
  lemma {:induction false} JoinAppend(xs: seq<string>, ys: seq<string>, sep: string)
    requires xs != [] && ys != []
    ensures Join(xs + ys, sep) == Join(xs, sep) + sep + Join(ys, sep)
    decreases |xs|
  {
    if |xs| == 1 {
      assert (xs + ys)[1..] == ys;
    } else {
      assert (xs + ys)[1..] == xs[1..] + ys;
      JoinAppend(xs[1..], ys, sep);
    }
  }

  predicate StartsWith(s: string, prefix: string) {
    |prefix| <= |s| && s[..|prefix|] == prefix
  }

  /** The source-file extension that links strip. */
  const Adoc: string := ".adoc"

  /** `t` has no occurrence of ".adoc" anywhere. */
  predicate AdocFree(t: string) {
    forall k :: 0 <= k < |t| ==> !StartsWith(t[k..], Adoc)
  }

  /** gsub(/\.adoc/, ''): scans left to right and deletes every non-overlapping
      occurrence of ".adoc". */
  function StripAdoc(s: string): (r: string)
    ensures |r| <= |s|
    decreases |s|
  {
    if s == [] then ""
    else if StartsWith(s, Adoc) then StripAdoc(s[|Adoc|..])
    else [s[0]] + StripAdoc(s[1..])
  }

  /** A string with no ".adoc" in it is left alone. */
  lemma {:induction false} StripAdocFree(t: string)
    requires AdocFree(t)
    ensures StripAdoc(t) == t
    decreases |t|
  {
    if t != [] {
      assert t[0..] == t;
      assert AdocFree(t[1..]) by {
        forall k | 0 <= k < |t[1..]| ensures !StartsWith(t[1..][k..], Adoc) {
          assert t[1..][k..] == t[k + 1..];
        }
      }
      StripAdocFree(t[1..]);
    }
  }

  /** ".adoc" does not overlap itself: no proper prefix of it is also a suffix,
      so a stem without ".adoc" cannot combine with an appended ".adoc" into an
      earlier match. */
  lemma AdocNotAtStart(stem: string)
    requires stem != [] && AdocFree(stem)
    ensures !StartsWith(stem + Adoc, Adoc)
  {
    assert stem[0..] == stem;
    var u := stem + Adoc;
    var n := |stem|;
    if n >= |Adoc| {
      assert u[..|Adoc|] == stem[..|Adoc|];
    } else {
      // u[n] is the appended '.', while Adoc[n] is one of "adoc"
      assert u[n] == '.' && Adoc[n] != '.';
      assert u[..|Adoc|][n] != Adoc[n];
    }
  }

  /** Stripping a file name: `stem.adoc` becomes `stem` when the stem holds no
      ".adoc" of its own. */
  lemma {:induction false} StripAdocExtension(stem: string)
    requires AdocFree(stem)
    ensures StripAdoc(stem + Adoc) == stem
    decreases |stem|
  {
    if stem == [] {
      assert StripAdoc(Adoc) == StripAdoc("");
    } else {
      AdocNotAtStart(stem);
      var u := stem + Adoc;
      assert u[1..] == stem[1..] + Adoc;
      assert AdocFree(stem[1..]) by {
        forall k | 0 <= k < |stem[1..]| ensures !StartsWith(stem[1..][k..], Adoc) {
          assert stem[1..][k..] == stem[k + 1..];
        }
      }
      StripAdocExtension(stem[1..]);
      assert [stem[0]] + stem[1..] == stem;
    }
  }

  /** Ruby's String#<=> (byte order of UTF-8, which is code point order):
      `a` sorts no later than `b`. */
  predicate LexLe(a: string, b: string)
    decreases |a|
  {
    if a == [] then true
    else if b == [] then false
    else if a[0] != b[0] then a[0] < b[0]
    else LexLe(a[1..], b[1..])
  }

  lemma {:induction false} LexLeReflexive(a: string)
    ensures LexLe(a, a)
    decreases |a|
  {
    if a != [] { LexLeReflexive(a[1..]); }
  }

  lemma {:induction false} LexLeTotal(a: string, b: string)
    ensures LexLe(a, b) || LexLe(b, a)
    decreases |a|
  {
    if a != [] && b != [] && a[0] == b[0] { LexLeTotal(a[1..], b[1..]); }
  }

  lemma {:induction false} LexLeTransitive(a: string, b: string, c: string)
    requires LexLe(a, b) && LexLe(b, c)
    ensures LexLe(a, c)
    decreases |a|
  {
    if a != [] && b != [] && c != [] && a[0] == b[0] && b[0] == c[0] {
      LexLeTransitive(a[1..], b[1..], c[1..]);
    }
  }

  lemma {:induction false} LexLeAntisymmetric(a: string, b: string)
    requires LexLe(a, b) && LexLe(b, a)
    ensures a == b
    decreases |a|
  {
    if a != [] {
      LexLeAntisymmetric(a[1..], b[1..]);
      assert a == [a[0]] + a[1..];
      assert b == [b[0]] + b[1..];
    }
  }

  /** Strings that agree up to position `k` and differ there are ordered by
      that character alone. */
  lemma {:induction false} LexLeFirstDifference(a: string, b: string, k: nat)
    requires k < |a| && k < |b| && a[..k] == b[..k] && a[k] < b[k]
    ensures LexLe(a, b) && !LexLe(b, a)
    decreases k
  {
    if k > 0 {
      assert a[0] == a[..k][0] && b[0] == b[..k][0];
      assert a[1..][..k - 1] == a[..k][1..] && b[1..][..k - 1] == b[..k][1..];
      LexLeFirstDifference(a[1..], b[1..], k - 1);
    }
  }
}
