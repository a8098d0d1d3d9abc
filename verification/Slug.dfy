/** Slugs (internal/httpapi/helpers.go) and repository names (internal/publish/publisher.go). */
module Slug {
  predicate Alnum(c: char) { 'a' <= c <= 'z' || '0' <= c <= '9' }

  const MAX_SLUG := 80

  // ---- The language of slugRe: non-empty alphanumeric words joined by single hyphens ----

  ghost predicate Word(w: string) {
    w != "" && forall i :: 0 <= i < |w| ==> Alnum(w[i])
  }

  ghost function Joined(words: seq<string>): string
    requires words != []
  {
    if |words| == 1 then words[0] else words[0] + "-" + Joined(words[1..])
  }

  ghost predicate Matches(s: string) {
    exists words: seq<string> :: words != [] && (forall w :: w in words ==> Word(w)) && Joined(words) == s
  }

  /** The same language by looking at characters and neighbours only. */
  predicate Shaped(s: string) {
    && s != ""
    && Alnum(s[0])
    && Alnum(s[|s| - 1])
    && Dashed(s)
  }

  predicate Dashed(s: string) {
    && (forall i :: 0 <= i < |s| ==> Alnum(s[i]) || s[i] == '-')
    && (forall i :: 0 < i < |s| ==> Alnum(s[i - 1]) || Alnum(s[i]))
  }

  predicate ValidSlug(s: string) { |s| <= MAX_SLUG && Shaped(s) }

  lemma {:induction false} JoinedIsShaped(words: seq<string>)
    requires words != [] && forall w :: w in words ==> Word(w)
    ensures Shaped(Joined(words))
  {
    var head := words[0];
    assert Word(head);
    if |words| > 1 {
      JoinedIsShaped(words[1..]);
      var tail := Joined(words[1..]);
      var s := Joined(words);
      assert s == head + "-" + tail;
      forall i | 0 < i < |s| ensures Alnum(s[i - 1]) || Alnum(s[i]) {
        if i > |head| + 1 {
          assert s[i] == tail[i - |head| - 1] && s[i - 1] == tail[i - |head| - 2];
        }
      }
    }
  }

  lemma {:induction false} ShapedIsJoined(s: string) returns (words: seq<string>)
    requires Shaped(s)
    ensures words != [] && (forall w :: w in words ==> Word(w)) && Joined(words) == s
    decreases |s|
  {
    var n := 0;
    while n < |s| && Alnum(s[n])
      invariant 0 <= n <= |s|
      invariant forall i :: 0 <= i < n ==> Alnum(s[i])
    {
      n := n + 1;
    }
    if n == |s| {
      words := [s];
    } else {
      var tail := s[n + 1..];
      assert Alnum(s[n + 1]);
      forall i | 0 < i < |tail| ensures Alnum(tail[i - 1]) || Alnum(tail[i]) {
        assert tail[i - 1] == s[n + i] && tail[i] == s[n + i + 1];
      }
      var rest := ShapedIsJoined(tail);
      words := [s[..n]] + rest;
      assert words[1..] == rest;
      assert s == s[..n] + "-" + tail;
    }
  }

  lemma MatchesIffShaped(s: string)
    ensures Matches(s) <==> Shaped(s)
  {
    if Matches(s) {
      var words: seq<string> :| words != [] && (forall w :: w in words ==> Word(w)) && Joined(words) == s;
      JoinedIsShaped(words);
    }
    if Shaped(s) {
      var words := ShapedIsJoined(s);
    }
  }

  // ---- The slug step of repoName ----

  /** Every maximal run of other characters becomes one hyphen. */
  function Collapsed(s: string): string {
    if s == "" then ""
    else
      var n := |s| - 1;
      if Alnum(s[n]) then Collapsed(s[..n]) + [s[n]]
      else if n > 0 && !Alnum(s[n - 1]) then Collapsed(s[..n])
      else Collapsed(s[..n]) + "-"
  }

  function TrimmedLeft(s: string): string {
    if s != "" && s[0] == '-' then TrimmedLeft(s[1..]) else s
  }

  function TrimmedRight(s: string): string {
    if s != "" && s[|s| - 1] == '-' then TrimmedRight(s[..|s| - 1]) else s
  }

  function Slugged(s: string): string { TrimmedRight(TrimmedLeft(Collapsed(s))) }

  lemma {:induction false} CollapsedIsDashed(s: string)
    ensures Dashed(Collapsed(s))
    ensures s != "" ==> Collapsed(s) != "" && (Alnum(Collapsed(s)[|Collapsed(s)| - 1]) <==> Alnum(s[|s| - 1]))
  {
    if s != "" {
      CollapsedIsDashed(s[..|s| - 1]);
    }
  }

  lemma {:induction false} TrimmedLeftStarts(s: string)
    requires Dashed(s)
    ensures Dashed(TrimmedLeft(s))
    ensures TrimmedLeft(s) != "" ==> Alnum(TrimmedLeft(s)[0])
  {
  }

  lemma {:induction false} TrimmedRightEnds(s: string)
    requires Dashed(s) && (s != "" ==> Alnum(s[0]))
    ensures TrimmedRight(s) == "" || Shaped(TrimmedRight(s))
  {
  }

  /** Whatever the name, the slug step yields nothing or a word of the slug language. */
  lemma SluggedIsSlug(s: string)
    ensures Slugged(s) == "" || Shaped(Slugged(s))
  {
    CollapsedIsDashed(s);
    TrimmedLeftStarts(Collapsed(s));
    TrimmedRightEnds(TrimmedLeft(Collapsed(s)));
  }

  lemma {:induction false} DashedIsCollapsed(s: string)
    requires Dashed(s)
    ensures Collapsed(s) == s
  {
    if s != "" {
      DashedIsCollapsed(s[..|s| - 1]);
      assert s == s[..|s| - 1] + [s[|s| - 1]];
    }
  }

  /** The fixed points of the slug step are exactly the slug language and the empty string. */
  lemma SluggedFixes(s: string)
    ensures Slugged(s) == s <==> s == "" || Shaped(s)
  {
    if s == "" || Shaped(s) {
      DashedIsCollapsed(s);
    } else {
      SluggedIsSlug(s);
    }
  }

  lemma SluggedTwice(s: string)
    ensures Slugged(Slugged(s)) == Slugged(s)
  {
    SluggedIsSlug(s);
    SluggedFixes(Slugged(s));
  }

  // ---- What the slug step makes of a name ----

  /** Characters between words. */
  ghost predicate Gap(s: string) { forall i :: 0 <= i < |s| ==> !Alnum(s[i]) }

  /** The last word of a string, with the gap after it; a gap or nothing comes before it. */
  ghost predicate EndsIn(s: string, before: string, word: string, gap: string) {
    && s == before + word + gap
    && Word(word) && Gap(gap)
    && (before != "" ==> !Alnum(before[|before| - 1]))
  }

  /** The words of a string in order: its longest runs of letters and digits. */
  ghost predicate WordsOf(s: string, words: seq<string>)
    decreases |words|
  {
    if words == [] then Gap(s)
    else
      var n := |words| - 1;
      exists before, gap :: EndsIn(s, before, words[n], gap) && WordsOf(before, words[..n])
  }

  lemma LastWord(s: string) returns (before: string, word: string, gap: string)
    requires !Gap(s)
    ensures EndsIn(s, before, word, gap)
  {
    var m := |s|;
    while m > 0 && !Alnum(s[m - 1])
      invariant 0 <= m <= |s|
      invariant forall i :: m <= i < |s| ==> !Alnum(s[i])
    {
      m := m - 1;
    }
    var k := m;
    while k > 0 && Alnum(s[k - 1])
      invariant 0 <= k <= m
      invariant k == m ==> m == 0 || Alnum(s[m - 1])
      invariant forall i :: k <= i < m ==> Alnum(s[i])
    {
      k := k - 1;
    }
    before, word, gap := s[..k], s[k..m], s[m..];
    assert s == before + word + gap;
  }

  lemma AddWord(s: string, before: string, word: string, gap: string, words: seq<string>)
    requires EndsIn(s, before, word, gap) && WordsOf(before, words)
    ensures WordsOf(s, words + [word])
  {
    var all := words + [word];
    assert all[..|all| - 1] == words && all[|all| - 1] == word;
    assert EndsIn(s, before, all[|all| - 1], gap) && WordsOf(before, all[..|all| - 1]);
  }

  lemma {:induction false} WordsExist(s: string) returns (words: seq<string>)
    ensures WordsOf(s, words)
    decreases |s|
  {
    if Gap(s) {
      words := [];
    } else {
      var before, word, gap := LastWord(s);
      var rest := WordsExist(before);
      AddWord(s, before, word, gap, rest);
      words := rest + [word];
    }
  }

  lemma {:induction false} CollapsedWord(before: string, word: string)
    requires forall i :: 0 <= i < |word| ==> Alnum(word[i])
    ensures Collapsed(before + word) == Collapsed(before) + word
  {
    if word == "" {
      assert before + word == before;
    } else {
      var n := |word| - 1;
      CollapsedWord(before, word[..n]);
      assert (before + word)[..|before| + n] == before + word[..n];
      assert word == word[..n] + [word[n]];
    }
  }

  lemma {:induction false} CollapsedGap(before: string, gap: string)
    requires Gap(gap) && (before != "" ==> Alnum(before[|before| - 1]))
    ensures Collapsed(before + gap) == Collapsed(before) + if gap == "" then "" else "-"
  {
    if gap == "" {
      assert before + gap == before;
    } else {
      var n := |gap| - 1;
      CollapsedGap(before, gap[..n]);
      assert (before + gap)[..|before| + n] == before + gap[..n];
    }
  }

  lemma {:induction false} JoinedLast(words: seq<string>, last: string)
    requires words != []
    ensures Joined(words + [last]) == Joined(words) + "-" + last
  {
    assert (words + [last])[1..] == words[1..] + [last];
    if |words| > 1 {
      JoinedLast(words[1..], last);
    }
  }

  /** At most one hyphen. */
  predicate Hyphen(s: string) { s == "" || s == "-" }

  /** The words with one hyphen between two of them, and perhaps one before and one after. */
  ghost predicate Hyphenated(s: string, words: seq<string>, tail: string) {
    if words == [] then s == tail
    else exists lead :: Hyphen(lead) && s == lead + Joined(words) + tail
  }

  lemma LastWordJoins(collapsed: string, words: seq<string>, tail: string, last: string)
    requires Hyphenated(collapsed, words, tail) && Hyphen(tail) && (words != [] ==> tail == "-")
    ensures Hyphenated(collapsed + last, words + [last], "")
  {
    if words == [] {
      assert Joined([last]) == last;
      assert collapsed + last == tail + Joined(words + [last]) + "";
    } else {
      var lead :| Hyphen(lead) && collapsed == lead + Joined(words) + tail;
      JoinedLast(words, last);
      assert collapsed + last == lead + Joined(words + [last]) + "";
    }
  }

  lemma TailAdds(collapsed: string, words: seq<string>, tail: string)
    requires words != [] && Hyphenated(collapsed, words, "")
    ensures Hyphenated(collapsed + tail, words, tail)
  {
    var lead :| Hyphen(lead) && collapsed == lead + Joined(words) + "";
    assert collapsed + tail == lead + Joined(words) + tail;
  }

  lemma {:induction false} CollapsedHyphenates(s: string, words: seq<string>) returns (tail: string)
    requires WordsOf(s, words)
    ensures Hyphen(tail) && Hyphenated(Collapsed(s), words, tail)
    ensures s != "" && !Alnum(s[|s| - 1]) ==> tail == "-"
    decreases |words|
  {
    if words == [] {
      CollapsedGap("", s);
      assert "" + s == s;
      tail := Collapsed(s);
    } else {
      var n := |words| - 1;
      var before, gap :| EndsIn(s, before, words[n], gap) && WordsOf(before, words[..n]);
      var middle := CollapsedHyphenates(before, words[..n]);
      if n > 0 {
        NotEmptyWithWords(before, words[..n]);
      }
      tail := if gap == "" then "" else "-";
      AnotherWord(s, before, words[..n], middle, words[n], gap);
      assert words[..n] + [words[n]] == words;
    }
  }

  lemma AnotherWord(s: string, before: string, words: seq<string>, middle: string, last: string, gap: string)
    requires EndsIn(s, before, last, gap) && Hyphen(middle)
    requires Hyphenated(Collapsed(before), words, middle) && (words != [] ==> middle == "-")
    ensures Hyphenated(Collapsed(s), words + [last], if gap == "" then "" else "-")
  {
    CollapsedWord(before, last);
    LastWordJoins(Collapsed(before), words, middle, last);
    CollapsedGap(before + last, gap);
    TailAdds(Collapsed(before + last), words + [last], if gap == "" then "" else "-");
  }

  lemma NotEmptyWithWords(s: string, words: seq<string>)
    requires WordsOf(s, words) && words != []
    ensures s != ""
  {
    var n := |words| - 1;
    var before, gap :| EndsIn(s, before, words[n], gap) && WordsOf(before, words[..n]);
  }

  lemma {:induction false} WordsAreWords(s: string, words: seq<string>)
    requires WordsOf(s, words)
    ensures forall w :: w in words ==> Word(w)
    decreases |words|
  {
    if words != [] {
      var n := |words| - 1;
      var before, gap :| EndsIn(s, before, words[n], gap) && WordsOf(before, words[..n]);
      WordsAreWords(before, words[..n]);
      assert words == words[..n] + [words[n]];
    }
  }

  lemma LeftTrimmed(lead: string, s: string)
    requires Hyphen(lead) && s != "" && s[0] != '-'
    ensures TrimmedLeft(lead + s) == s
  {
    if lead == "" {
      assert lead + s == s;
    } else {
      assert (lead + s)[1..] == s;
    }
  }

  lemma RightTrimmed(s: string, tail: string)
    requires Hyphen(tail) && s != "" && s[|s| - 1] != '-'
    ensures TrimmedRight(s + tail) == s
  {
    if tail == "" {
      assert s + tail == s;
    } else {
      assert (s + tail)[..|s|] == s;
    }
  }

  lemma TrimmedBothEnds(lead: string, s: string, tail: string)
    requires Hyphen(lead) && Hyphen(tail) && Shaped(s)
    ensures TrimmedRight(TrimmedLeft(lead + s + tail)) == s
  {
    assert lead + s + tail == lead + (s + tail);
    assert (s + tail)[0] == s[0];
    LeftTrimmed(lead, s + tail);
    RightTrimmed(s, tail);
  }

  /** The slug step keeps the words of a name and puts one hyphen between two of them. */
  lemma SluggedJoinsWords(s: string, words: seq<string>)
    requires WordsOf(s, words)
    ensures Slugged(s) == if words == [] then "" else Joined(words)
  {
    var tail := CollapsedHyphenates(s, words);
    if words == [] {
      assert Collapsed(s) == tail;
      assert "-"[1..] == "";
    } else {
      WordsAreWords(s, words);
      JoinedIsShaped(words);
      var lead :| Hyphen(lead) && Collapsed(s) == lead + Joined(words) + tail;
      TrimmedBothEnds(lead, Joined(words), tail);
    }
  }

  // ---- Repository names ----

  function Lowered(s: string, lower: char -> char): string {
    seq(|s|, i requires 0 <= i < |s| => lower(s[i]))
  }

  function WithoutDashes(s: string): string {
    if s == "" then "" else (if s[0] == '-' then "" else [s[0]]) + WithoutDashes(s[1..])
  }

  function Cut(s: string, n: nat): string { if |s| > n then s[..n] else s }

  /** `lower` is the per-character lower-casing of the library. */
  function RepoName(websiteName: string, websiteID: string, lower: char -> char): string {
    var slug := Slugged(Lowered(websiteName, lower));
    "cms-site-" + Cut(if slug == "" then "site" else slug, 40) + "-" + Cut(WithoutDashes(websiteID), 8)
  }

  predicate HexOrDash(c: char) { '0' <= c <= '9' || 'a' <= c <= 'f' || c == '-' }

  /** The textual form of a lower-case UUID: 36 characters, hyphens at four places. */
  predicate LowerUuid(id: string) {
    && |id| == 36
    && (forall i :: 0 <= i < 36 ==> HexOrDash(id[i]))
    && (forall i :: 0 <= i < 36 ==> (id[i] == '-' <==> i == 8 || i == 13 || i == 18 || i == 23))
  }

  lemma {:induction false} WithoutDashesKeepsWord(head: string, tail: string)
    requires '-' !in head
    ensures WithoutDashes(head + tail) == head + WithoutDashes(tail)
  {
    if head == "" {
      assert head + tail == tail;
    } else {
      assert (head + tail)[1..] == head[1..] + tail;
      WithoutDashesKeepsWord(head[1..], tail);
    }
  }

  lemma ShortId(id: string)
    requires LowerUuid(id)
    ensures Cut(WithoutDashes(id), 8) == id[..8]
  {
    assert id == id[..8] + id[8..];
    WithoutDashesKeepsWord(id[..8], id[8..]);
    if |WithoutDashes(id)| == 8 {
      assert WithoutDashes(id)[..8] == id[..8];
    }
  }

  lemma RepoNameIsSafe(websiteName: string, websiteID: string, lower: char -> char)
    requires LowerUuid(websiteID)
    ensures |RepoName(websiteName, websiteID, lower)| <= 58
    ensures forall c :: c in RepoName(websiteName, websiteID, lower) ==> Alnum(c) || c == '-'
  {
    SluggedIsSlug(Lowered(websiteName, lower));
    ShortId(websiteID);
  }

  /** A prefix, at most forty characters of the words of the lower-cased name ("site" if it has none), and the first
      eight digits of the id. */
  lemma RepoNameSays(websiteName: string, websiteID: string, lower: char -> char, words: seq<string>)
    requires LowerUuid(websiteID)
    requires WordsOf(seq(|websiteName|, i requires 0 <= i < |websiteName| => lower(websiteName[i])), words)
    ensures var name := if words == [] then "site" else Joined(words);
            RepoName(websiteName, websiteID, lower) ==
            "cms-site-" + (if |name| <= 40 then name else name[..40]) + "-" + websiteID[..8]
  {
    SluggedJoinsWords(Lowered(websiteName, lower), words);
    ShortId(websiteID);
    if words != [] {
      WordsAreWords(Lowered(websiteName, lower), words);
      JoinedIsShaped(words);
    }
  }

  /** Names can only clash for websites whose ids share their first eight hex digits. */
  lemma RepoNamesDiffer(name1: string, id1: string, name2: string, id2: string, lower: char -> char)
    requires LowerUuid(id1) && LowerUuid(id2) && id1[..8] != id2[..8]
    ensures RepoName(name1, id1, lower) != RepoName(name2, id2, lower)
  {
    ShortId(id1);
    ShortId(id2);
    var r1, r2 := RepoName(name1, id1, lower), RepoName(name2, id2, lower);
    assert r1[|r1| - 8..] == id1[..8] && r2[|r2| - 8..] == id2[..8];
  }
}
