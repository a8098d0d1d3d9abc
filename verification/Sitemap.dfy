/** The sitemap writer and the URL scheme it shares with the page generator (internal/generator/generator.go). */
module Sitemap {
  import opened Slug

  // ---- Lexicographic order and sort.Strings ----

  predicate Leq(a: string, b: string) {
    a == "" || (b != "" && (a[0] < b[0] || (a[0] == b[0] && Leq(a[1..], b[1..]))))
  }

  lemma {:induction false} LeqTotal(a: string, b: string)
    ensures Leq(a, b) || Leq(b, a)
  {
    if a != "" && b != "" {
      LeqTotal(a[1..], b[1..]);
    }
  }

  lemma {:induction false} LeqTransitive(a: string, b: string, c: string)
    requires Leq(a, b) && Leq(b, c)
    ensures Leq(a, c)
  {
    if a != "" && a[0] == b[0] == c[0] {
      LeqTransitive(a[1..], b[1..], c[1..]);
    }
  }

  lemma {:induction false} LeqAntisymmetric(a: string, b: string)
    requires Leq(a, b) && Leq(b, a)
    ensures a == b
  {
    if a != "" {
      LeqAntisymmetric(a[1..], b[1..]);
      assert a == [a[0]] + a[1..] && b == [b[0]] + b[1..];
    }
  }

  ghost predicate IsSorted(s: seq<string>) {
    forall i, j :: 0 <= i < j < |s| ==> Leq(s[i], s[j])
  }

  /** A prefix, or smaller at the first character that differs. */
  ghost predicate Lexical(a: string, b: string) {
    a <= b || exists k :: 0 <= k < |a| && k < |b| && a[..k] == b[..k] && a[k] < b[k]
  }

  lemma SamePrefix(a: string, b: string, k: nat)
    requires k <= |a| && k <= |b| && a[..k] == b[..k]
    ensures k == 0 || a[0] == b[0]
  {
    if k > 0 {
      assert a[0] == a[..k][0] && b[0] == b[..k][0];
    }
  }

  lemma {:induction false} LeqIsLexical(a: string, b: string)
    ensures Leq(a, b) <==> Lexical(a, b)
  {
    if a != "" && b != "" && a[0] == b[0] {
      LeqIsLexical(a[1..], b[1..]);
      assert a == [a[0]] + a[1..] && b == [b[0]] + b[1..];
      if k :| 0 <= k < |a[1..]| && k < |b[1..]| && a[1..][..k] == b[1..][..k] && a[1..][k] < b[1..][k] {
        assert a[..k + 1] == [a[0]] + a[1..][..k] && b[..k + 1] == [b[0]] + b[1..][..k];
        assert a[k + 1] < b[k + 1];
      }
      if k :| 0 <= k < |a| && k < |b| && a[..k] == b[..k] && a[k] < b[k] {
        assert k > 0;
        assert a[1..][..k - 1] == a[..k][1..] && b[1..][..k - 1] == b[..k][1..];
        assert a[1..][k - 1] < b[1..][k - 1];
      }
    } else if a != "" && b != "" && a[0] < b[0] {
      assert a[..0] == b[..0];
    } else if a != "" && b != "" {
      forall k | 0 <= k < |a| && k < |b| && a[..k] == b[..k] ensures k == 0 {
        SamePrefix(a, b, k);
      }
    }
  }

  ghost predicate InLexicalOrder(s: seq<string>) {
    forall i, j :: 0 <= i < j < |s| ==> Lexical(s[i], s[j])
  }

  /** sort.Strings: the same strings, in lexical order. */
  lemma SortedIsLexical(s: seq<string>)
    ensures InLexicalOrder(Sorted(s)) && multiset(Sorted(s)) == multiset(s)
  {
    SortedIsSorted(s);
    var r := Sorted(s);
    forall i, j | 0 <= i < j < |r| ensures Lexical(r[i], r[j]) {
      LeqIsLexical(r[i], r[j]);
    }
  }

  function Inserted(x: string, s: seq<string>): seq<string> {
    if s == [] then [x]
    else if Leq(x, s[0]) then [x] + s
    else [s[0]] + Inserted(x, s[1..])
  }

  function Sorted(s: seq<string>): seq<string> {
    if s == [] then [] else Inserted(s[0], Sorted(s[1..]))
  }

  lemma {:induction false} InsertedCounts(x: string, s: seq<string>)
    ensures multiset(Inserted(x, s)) == multiset{x} + multiset(s)
  {
    if s != [] {
      assert s == [s[0]] + s[1..];
      InsertedCounts(x, s[1..]);
    }
  }

  lemma SortedFront(x: string, s: seq<string>)
    requires IsSorted(s) && forall y :: y in s ==> Leq(x, y)
    ensures IsSorted([x] + s)
  {
  }

  lemma HeadIsLeast(s: seq<string>, y: string)
    requires IsSorted(s) && y in s
    ensures Leq(s[0], y)
  {
    LeqTotal(s[0], s[0]);
    var i :| 0 <= i < |s| && s[i] == y;
    assert i == 0 || Leq(s[0], s[i]);
  }

  lemma {:induction false} InsertedIsSorted(x: string, s: seq<string>)
    requires IsSorted(s)
    ensures IsSorted(Inserted(x, s))
  {
    if s != [] {
      if Leq(x, s[0]) {
        forall y | y in s ensures Leq(x, y) {
          HeadIsLeast(s, y);
          LeqTransitive(x, s[0], y);
        }
        SortedFront(x, s);
      } else {
        LeqTotal(x, s[0]);
        InsertedIsSorted(x, s[1..]);
        InsertedCounts(x, s[1..]);
        var tail := Inserted(x, s[1..]);
        forall y | y in tail ensures Leq(s[0], y) {
          assert y in multiset(tail);
          assert y == x || y in s[1..];
        }
        SortedFront(s[0], tail);
      }
    }
  }

  lemma {:induction false} SortedIsSorted(s: seq<string>)
    ensures IsSorted(Sorted(s))
    ensures multiset(Sorted(s)) == multiset(s)
  {
    if s != [] {
      SortedIsSorted(s[1..]);
      InsertedIsSorted(s[0], Sorted(s[1..]));
      InsertedCounts(s[0], Sorted(s[1..]));
      assert s == [s[0]] + s[1..];
    }
  }

  lemma SameHead(a: seq<string>, b: seq<string>)
    requires IsSorted(a) && IsSorted(b) && multiset(a) == multiset(b) && a != []
    ensures b != [] && a[0] == b[0]
  {
    assert a[0] in multiset(b);
    assert b[0] in multiset(a);
    HeadIsLeast(a, b[0]);
    HeadIsLeast(b, a[0]);
    LeqAntisymmetric(a[0], b[0]);
  }

  lemma TailCounts(s: seq<string>)
    requires s != []
    ensures multiset(s[1..]) == multiset(s) - multiset{s[0]}
  {
    assert s == [s[0]] + s[1..];
  }

  lemma {:induction false} SortedIsUnique(a: seq<string>, b: seq<string>)
    requires IsSorted(a) && IsSorted(b) && multiset(a) == multiset(b)
    ensures a == b
  {
    if a == [] {
      assert |multiset(b)| == |b|;
    } else {
      SameHead(a, b);
      TailCounts(a);
      TailCounts(b);
      SortedIsUnique(a[1..], b[1..]);
      assert a == [a[0]] + a[1..] && b == [b[0]] + b[1..];
    }
  }

  // ---- URLs and files of pages ----

  /** The URL path of a slug; "home" (or nothing) is the root. */
  function PageHref(slug: string): string {
    if slug == "" || slug == "home" then "/" else "/" + slug + "/"
  }

  function PagePath(slug: string): string {
    if slug == "" || slug == "home" then "index.html" else slug + "/index.html"
  }

  lemma PageHrefIsInjective(s: string, t: string)
    requires s != "" && t != "" && PageHref(s) == PageHref(t)
    ensures s == t
  {
    if s != "home" && t != "home" {
      assert s == PageHref(s)[1..|PageHref(s)| - 1];
      assert t == PageHref(t)[1..|PageHref(t)| - 1];
    }
  }

  // ---- The document ----

  const HEADER :=
    "<?xml version=\"1.0\" encoding=\"UTF-8\"?>\n<urlset xmlns=\"http://www.sitemaps.org/schemas/sitemap/0.9\">\n"
  const OPENING := "  <url><loc>"
  const CLOSING := "</loc></url>\n"
  const FOOTER := "</urlset>\n"

  function Opening(domain: string): string {
    OPENING + if domain != "" then "https://" + domain else ""
  }

  /** One line per slug; the tags are parameters so that proofs need not look inside them. */
  function Entries(opening: string, closing: string, slugs: seq<string>): string {
    if slugs == [] then ""
    else (opening + PageHref(slugs[0]) + closing) + Entries(opening, closing, slugs[1..])
  }

  function Framed(header: string, entries: string, footer: string): string { header + entries + footer }

  function Document(domain: string, slugs: seq<string>): string {
    Framed(HEADER, Entries(Opening(domain), CLOSING, Sorted(slugs)), FOOTER)
  }

  lemma Regrouped(a: string, b: string, c: string)
    ensures (a + b) + c == a + (b + c)
  {
  }

  method WriteEntries(opening: string, closing: string, slugs: seq<string>) returns (text: string)
    ensures text == Entries(opening, closing, slugs)
  {
    text := "";
    assert slugs[0..] == slugs;
    for i := 0 to |slugs|
      invariant text + Entries(opening, closing, slugs[i..]) == Entries(opening, closing, slugs)
    {
      var line := opening + PageHref(slugs[i]) + closing;
      assert slugs[i..][1..] == slugs[i + 1..];
      Regrouped(text, line, Entries(opening, closing, slugs[i + 1..]));
      text := text + line;
    }
    assert text + "" == text;
  }

  /** The head of the document, one line per slug of a sequence, and the foot. */
  ghost predicate Lists(text: string, domain: string, slugs: seq<string>) {
    text == HEADER + Entries(Opening(domain), CLOSING, slugs) + FOOTER
  }

  method WriteSitemap(domain: string, pages: seq<string>) returns (text: string)
    ensures text == Document(domain, pages)
    ensures exists slugs :: InLexicalOrder(slugs) && multiset(slugs) == multiset(pages) && Lists(text, domain, slugs)
  {
    var slugs: seq<string> := [];
    for i := 0 to |pages|
      invariant slugs == pages[..i]
    {
      slugs := slugs + [pages[i]];
    }
    assert slugs == pages;
    slugs := Sorted(slugs);
    SortedIsLexical(pages);
    var entries := WriteEntries(Opening(domain), CLOSING, slugs);
    text := Framed(HEADER, entries, FOOTER);
    assert Lists(text, domain, slugs);
  }

  /** What a line of the document says: the address of one page. */
  lemma LineSays(domain: string, slug: string, rest: seq<string>)
    ensures Entries(Opening(domain), CLOSING, []) == ""
    ensures Entries(Opening(domain), CLOSING, [slug] + rest) ==
            ("  <url><loc>" + (if domain == "" then "" else "https://" + domain)
             + (if slug == "" || slug == "home" then "/" else "/" + slug + "/") + "</loc></url>\n")
            + Entries(Opening(domain), CLOSING, rest)
  {
    assert ([slug] + rest)[1..] == rest;
  }

  // ---- The document and the set of pages determine each other ----

  lemma SplitAtTag(h: string, x: string, k: string, y: string)
    requires '<' !in h && '<' !in k
    requires x != "" && x[0] == '<' && y != "" && y[0] == '<'
    requires h + x == k + y
    ensures h == k && x == y
  {
    var s := h + x;
    assert s[|h|] == '<' && s[|k|] == '<';
    assert forall i :: 0 <= i < |h| ==> s[i] == h[i] != '<';
    assert forall i :: 0 <= i < |k| ==> s[i] == k[i] != '<';
    assert h == s[..|h|] && k == s[..|k|];
    assert x == s[|h|..] && y == s[|k|..];
  }

  lemma NoTagInHref(slug: string)
    requires ValidSlug(slug)
    ensures '<' !in PageHref(slug)
  {
  }

  lemma LineDetermines(prefix: string, closing: string, h: string, k: string, rest: string, rest': string)
    requires '<' !in h && '<' !in k && closing != "" && closing[0] == '<'
    requires (prefix + h + closing) + rest == (prefix + k + closing) + rest'
    ensures h == k && rest == rest'
  {
    var x, y := closing + rest, closing + rest';
    assert (prefix + h + closing) + rest == prefix + (h + x);
    assert (prefix + k + closing) + rest' == prefix + (k + y);
    assert h + x == (prefix + (h + x))[|prefix|..];
    assert k + y == (prefix + (k + y))[|prefix|..];
    SplitAtTag(h, x, k, y);
    assert rest == x[|closing|..] && rest' == y[|closing|..];
  }

  lemma FirstLine(opening: string, closing: string, slugs: seq<string>)
    requires slugs != []
    ensures Entries(opening, closing, slugs) ==
            (opening + PageHref(slugs[0]) + closing) + Entries(opening, closing, slugs[1..])
    ensures closing != "" ==> Entries(opening, closing, slugs) != ""
  {
  }

  lemma FirstLineDetermines(
    opening: string, closing: string, s: string, t: string, rest: string, rest': string)
    requires closing != "" && closing[0] == '<' && ValidSlug(s) && ValidSlug(t)
    requires (opening + PageHref(s) + closing) + rest == (opening + PageHref(t) + closing) + rest'
    ensures s == t && rest == rest'
  {
    NoTagInHref(s);
    NoTagInHref(t);
    LineDetermines(opening, closing, PageHref(s), PageHref(t), rest, rest');
    PageHrefIsInjective(s, t);
  }

  lemma {:induction false} EntriesDetermine(opening: string, closing: string, a: seq<string>, b: seq<string>)
    requires closing != "" && closing[0] == '<'
    requires forall s :: s in a || s in b ==> ValidSlug(s)
    requires Entries(opening, closing, a) == Entries(opening, closing, b)
    ensures a == b
  {
    if a != [] {
      FirstLine(opening, closing, a);
    }
    if b != [] {
      FirstLine(opening, closing, b);
    }
    if a != [] && b != [] {
      FirstLineDetermines(opening, closing, a[0], b[0],
        Entries(opening, closing, a[1..]), Entries(opening, closing, b[1..]));
      EntriesDetermine(opening, closing, a[1..], b[1..]);
      assert a == [a[0]] + a[1..] && b == [b[0]] + b[1..];
    }
  }

  lemma FramedDetermines(header: string, x: string, y: string, footer: string)
    requires Framed(header, x, footer) == Framed(header, y, footer)
    ensures x == y
  {
    var s := Framed(header, x, footer);
    assert x == s[|header|..|s| - |footer|] && y == s[|header|..|s| - |footer|];
  }

  /** The order of the pages leaves no trace in the document, whatever the slugs. */
  lemma OrderLeavesNoTrace(domain: string, a: seq<string>, b: seq<string>)
    requires multiset(a) == multiset(b)
    ensures Document(domain, a) == Document(domain, b)
  {
    SortedIsSorted(a);
    SortedIsSorted(b);
    SortedIsUnique(Sorted(a), Sorted(b));
  }

  lemma SortedMembers(slugs: seq<string>)
    ensures forall s :: s in Sorted(slugs) <==> s in slugs
  {
    SortedIsSorted(slugs);
    forall s ensures s in Sorted(slugs) <==> s in slugs {
      assert s in Sorted(slugs) <==> s in multiset(Sorted(slugs));
      assert s in slugs <==> s in multiset(slugs);
    }
  }

  /** For valid slugs the document also gives back the pages: none is lost or doubled. */
  lemma DocumentIffSamePages(domain: string, a: seq<string>, b: seq<string>)
    requires forall s :: s in a || s in b ==> ValidSlug(s)
    ensures Document(domain, a) == Document(domain, b) <==> multiset(a) == multiset(b)
  {
    if multiset(a) == multiset(b) {
      OrderLeavesNoTrace(domain, a, b);
    }
    if Document(domain, a) == Document(domain, b) {
      var opening := Opening(domain);
      FramedDetermines(HEADER, Entries(opening, CLOSING, Sorted(a)), Entries(opening, CLOSING, Sorted(b)), FOOTER);
      SortedMembers(a);
      SortedMembers(b);
      EntriesDetermine(opening, CLOSING, Sorted(a), Sorted(b));
      SortedIsSorted(a);
      SortedIsSorted(b);
    }
  }
}
