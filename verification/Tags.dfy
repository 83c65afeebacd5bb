/** Topic tags: keyword matching over lower-cased text and the canonical order of a tag set.
    The keyword table is a parameter, and `lower` gives each character's lower case, which
    may be several characters. */
module Tags {

  type Table = seq<(string, seq<string>)>

  const GENERAL := "general"

  const LEVEL1_ORDER: seq<string> := ["finance", "tech", "robotics", "ai", "embedded", "space"]

  const LEVEL2_ORDER: seq<string> := [
    "china-stock", "market-indices", "commodities", "fund-nav", "watchlist",
    "humanoid", "industrial", "cobot", "autonomous-driving", "drone", "robot-software",
    "llm", "generative-ai", "ai-hardware", "ai-ethics", "multimodal", "ai-agent",
    "iot-edge", "risc-v", "rtos", "fpga", "chip-design", "embedded-ai",
    "commercial-space", "satellite-internet", "deep-space", "orbital", "rocket-tech", "space-manufacturing"]

  // Alphabetical order of strings, by code point

  predicate Less(a: string, b: string) {
    b != [] && (a == [] || a[0] < b[0] || (a[0] == b[0] && Less(a[1..], b[1..])))
  }

  lemma {:induction false} LessIrreflexive(a: string)
    ensures !Less(a, a)
  {
    if a != [] {
      LessIrreflexive(a[1..]);
    }
  }

  lemma {:induction false} LessTransitive(a: string, b: string, c: string)
    requires Less(a, b) && Less(b, c)
    ensures Less(a, c)
  {
    if a != [] && a[0] == b[0] == c[0] {
      LessTransitive(a[1..], b[1..], c[1..]);
    }
  }

  lemma {:induction false} LessTotal(a: string, b: string)
    ensures a == b || Less(a, b) || Less(b, a)
  {
    if a != [] && b != [] && a[0] == b[0] {
      LessTotal(a[1..], b[1..]);
      assert a == [a[0]] + a[1..] && b == [b[0]] + b[1..];
    }
  }

  // The order of tags: level-1 rank, then level-2 rank, then alphabetical

  function IndexIn(order: seq<string>, tag: string): (i: nat)
    ensures i <= |order|
    ensures i < |order| ==> order[i] == tag
    ensures forall k :: 0 <= k < i ==> order[k] != tag
  {
    if order == [] || order[0] == tag then 0 else 1 + IndexIn(order[1..], tag)
  }

  function Order(): (order: seq<string>)
    ensures |order| == |LEVEL1_ORDER| + |LEVEL2_ORDER|
  {
    LEVEL1_ORDER + LEVEL2_ORDER
  }

  function Rank(tag: string): nat {
    IndexIn(Order(), tag)
  }

  predicate Before(a: string, b: string) {
    Rank(a) < Rank(b) || (Rank(a) == Rank(b) && Less(a, b))
  }

  lemma BeforeIsStrict(a: string, b: string)
    ensures !(Before(a, b) && Before(b, a)) && !Before(a, a)
    ensures a != b ==> Before(a, b) || Before(b, a)
  {
    LessIrreflexive(a);
    LessTotal(a, b);
    if Less(a, b) && Less(b, a) {
      LessTransitive(a, b, a);
    }
  }

  lemma BeforeTransitive(a: string, b: string, c: string)
    requires Before(a, b) && Before(b, c)
    ensures Before(a, c)
  {
    if Rank(a) == Rank(b) == Rank(c) {
      LessTransitive(a, b, c);
    }
  }

  predicate Increasing(s: seq<string>) {
    forall i, j :: 0 <= i < j < |s| ==> Before(s[i], s[j])
  }

  ghost predicate Canonical(s: seq<string>, tags: set<string>) {
    Increasing(s) && forall t :: t in s <==> t in tags
  }

  lemma IncreasingHasNoDuplicates(s: seq<string>)
    requires Increasing(s)
    ensures forall i, j :: 0 <= i < j < |s| ==> s[i] != s[j]
  {
    forall i, j | 0 <= i < j < |s| ensures s[i] != s[j] {
      BeforeIsStrict(s[i], s[j]);
    }
  }

  /** A set has only one canonical list. */
  lemma {:induction false} CanonicalIsUnique(s: seq<string>, t: seq<string>, tags: set<string>)
    requires Canonical(s, tags) && Canonical(t, tags)
    ensures s == t
    decreases |s|
  {
    if s == [] {
      if t != [] {
        FirstIsLeast(t, s, tags);
      }
    } else {
      var first := s[0];
      FirstIsLeast(s, t, tags);
      assert Canonical(s[1..], tags - {first}) by { TailIsCanonical(s, tags); }
      assert Canonical(t[1..], tags - {first}) by { TailIsCanonical(t, tags); }
      CanonicalIsUnique(s[1..], t[1..], tags - {first});
      assert s == [first] + s[1..] == [first] + t[1..] == t;
    }
  }

  lemma FirstIsLeast(s: seq<string>, t: seq<string>, tags: set<string>)
    requires Canonical(s, tags) && Canonical(t, tags) && s != []
    ensures t != [] && s[0] == t[0]
  {
    assert s[0] in tags;
    var i :| 0 <= i < |t| && t[i] == s[0];
    assert t[0] in tags;
    var j :| 0 <= j < |s| && s[j] == t[0];
    BeforeIsStrict(s[0], t[0]);
  }

  lemma TailIsCanonical(s: seq<string>, tags: set<string>)
    requires Canonical(s, tags) && s != []
    ensures Canonical(s[1..], tags - {s[0]})
  {
    IncreasingHasNoDuplicates(s);
    forall t ensures t in s[1..] <==> t in tags - {s[0]} {
      if t in s[1..] {
        var i :| 0 <= i < |s[1..]| && s[1..][i] == t;
        assert s[i + 1] == t;
      }
      if t in tags - {s[0]} {
        var i :| 0 <= i < |s| && s[i] == t;
        assert s[1..][i - 1] == t;
      }
    }
  }

  /** Python's sorted() on a set of strings. */
  method SortedAlphabetically(tags: set<string>) returns (sorted: seq<string>)
    ensures forall i, j :: 0 <= i < j < |sorted| ==> Less(sorted[i], sorted[j])
    ensures forall t :: t in sorted <==> t in tags
  {
    sorted := [];
    var todo := tags;
    while todo != {}
      invariant todo <= tags
      invariant forall i, j :: 0 <= i < j < |sorted| ==> Less(sorted[i], sorted[j])
      invariant forall t :: t in sorted <==> t in tags - todo
    {
      var tag :| tag in todo;
      todo := todo - {tag};
      sorted := Insert(sorted, tag);
    }
  }

  method Insert(sorted: seq<string>, tag: string) returns (r: seq<string>)
    requires tag !in sorted
    requires forall i, j :: 0 <= i < j < |sorted| ==> Less(sorted[i], sorted[j])
    ensures forall i, j :: 0 <= i < j < |r| ==> Less(r[i], r[j])
    ensures forall t :: t in r <==> t in sorted || t == tag
  {
    var k := 0;
    while k < |sorted| && Less(sorted[k], tag)
      invariant 0 <= k <= |sorted|
      invariant forall i :: 0 <= i < k ==> Less(sorted[i], tag)
    {
      k := k + 1;
    }
    r := sorted[..k] + [tag] + sorted[k..];
    forall i | k <= i < |sorted| ensures Less(tag, sorted[i]) {
      LessTotal(tag, sorted[k]);
      if k < i {
        LessTransitive(tag, sorted[k], sorted[i]);
      }
    }
    forall t ensures t in r <==> t in sorted || t == tag {
      assert sorted == sorted[..k] + sorted[k..];
    }
  }

  /** Tags that come earlier in the order than place n. */
  ghost predicate Placed(result: seq<string>, tags: set<string>, n: nat) {
    Increasing(result) && forall t :: t in result <==> t in tags && Rank(t) < n
  }

  method SortTags(tags: set<string>) returns (result: seq<string>)
    ensures Canonical(result, tags)
  {
    result := [];
    for i := 0 to |LEVEL1_ORDER|
      invariant Placed(result, tags, i)
    {
      var tag := LEVEL1_ORDER[i];
      Level1Ranks(i);
      OnlyOneOfRank(tag, i);
      PlaceNext(result, tags, tag, i);
      if tag in tags {
        result := result + [tag];
      }
    }
    for i := 0 to |LEVEL2_ORDER|
      invariant Placed(result, tags, |LEVEL1_ORDER| + i)
    {
      var tag := LEVEL2_ORDER[i];
      assert Order()[|LEVEL1_ORDER| + i] == tag;
      OnlyOneOfRank(tag, |LEVEL1_ORDER| + i);
      PlaceNext(result, tags, tag, |LEVEL1_ORDER| + i);
      if tag in tags && tag !in result {
        result := result + [tag];
      }
    }
    var alphabetical := SortedAlphabetically(tags);
    for i := 0 to |alphabetical|
      invariant Filled(result, tags, alphabetical, i)
    {
      var tag := alphabetical[i];
      FillNext(result, tags, alphabetical, i);
      if tag !in result {
        result := result + [tag];
      }
    }
    assert alphabetical[..|alphabetical|] == alphabetical;
  }

  /** Every tag of the order is there, and of the others those met so far. */
  ghost predicate Filled(result: seq<string>, tags: set<string>, alphabetical: seq<string>, n: nat) {
    && n <= |alphabetical|
    && (forall i, j :: 0 <= i < j < |alphabetical| ==> Less(alphabetical[i], alphabetical[j]))
    && (forall t :: t in alphabetical <==> t in tags)
    && Increasing(result)
    && (forall t :: t in result <==> t in tags && (Rank(t) < |Order()| || t in alphabetical[..n]))
  }

  lemma FillNext(result: seq<string>, tags: set<string>, alphabetical: seq<string>, n: nat)
    requires Filled(result, tags, alphabetical, n) && n < |alphabetical|
    ensures Filled(if alphabetical[n] in result then result else result + [alphabetical[n]], tags, alphabetical, n + 1)
  {
    var tag := alphabetical[n];
    assert alphabetical[..n + 1] == alphabetical[..n] + [tag];
    if tag !in result {
      forall k | 0 <= k < |result| ensures Before(result[k], tag) {
        assert result[k] in result;
        if Rank(result[k]) == |Order()| {
          var j :| 0 <= j < n && alphabetical[j] == result[k];
        }
      }
    }
  }

  lemma Level1Ranks(i: nat)
    requires i < |LEVEL1_ORDER|
    ensures Order()[i] == LEVEL1_ORDER[i] && Rank(LEVEL1_ORDER[i]) == i
  {
    assert forall k :: 0 <= k < i ==> LEVEL1_ORDER[k] != LEVEL1_ORDER[i];
    assert forall k :: 0 <= k < |LEVEL1_ORDER| ==> Order()[k] == LEVEL1_ORDER[k];
  }

  lemma OnlyOneOfRank(tag: string, n: nat)
    requires n < |Order()| && Order()[n] == tag
    ensures Rank(tag) <= n && forall t :: Rank(t) == n ==> t == tag
  {
  }

  /** The tag at place n of the order: it is new exactly when its rank is n. */
  lemma PlaceNext(result: seq<string>, tags: set<string>, tag: string, n: nat)
    requires Placed(result, tags, n) && Rank(tag) <= n && forall t :: Rank(t) == n ==> t == tag
    ensures if tag in tags && tag !in result then Placed(result + [tag], tags, n + 1) else Placed(result, tags, n + 1)
  {
    if tag in tags && tag !in result {
      assert Rank(tag) == n;
      forall k | 0 <= k < |result| ensures Before(result[k], tag) {
        assert result[k] in result;
      }
    }
  }

  lemma {:induction false} CanonicalExists(tags: set<string>) returns (s: seq<string>)
    ensures Canonical(s, tags)
    decreases tags
  {
    if tags == {} {
      s := [];
    } else {
      var last := Latest(tags);
      var before := CanonicalExists(tags - {last});
      s := before + [last];
      forall k | 0 <= k < |before| ensures Before(before[k], last) {
        assert before[k] in before;
      }
    }
  }

  ghost predicate IsLatest(last: string, tags: set<string>) {
    last in tags && forall t :: t in tags && t != last ==> Before(t, last)
  }

  lemma LatestOfMore(tags: set<string>, tag: string, other: string)
    requires tag in tags && IsLatest(other, tags - {tag})
    ensures IsLatest(if Before(tag, other) then other else tag, tags)
  {
    BeforeIsStrict(tag, other);
    if !Before(tag, other) {
      forall t | t in tags && t != tag ensures Before(t, tag) {
        if t != other {
          BeforeTransitive(t, other, tag);
        }
      }
    }
  }

  lemma {:induction false} Latest(tags: set<string>) returns (last: string)
    requires tags != {}
    ensures IsLatest(last, tags)
    decreases tags
  {
    var tag :| tag in tags;
    if tags == {tag} {
      last := tag;
    } else {
      var other := Latest(tags - {tag});
      LatestOfMore(tags, tag, other);
      last := if Before(tag, other) then other else tag;
    }
  }

  lemma SomeCanonical(tags: set<string>)
    ensures exists s :: Canonical(s, tags)
  {
    var s := CanonicalExists(tags);
  }

  /** The canonical list of a set. */
  ghost function Sorted(tags: set<string>): (s: seq<string>)
    ensures Canonical(s, tags)
  {
    SomeCanonical(tags);
    var s :| Canonical(s, tags);
    s
  }

  // Extraction

  function Lowered(text: string, lower: char -> string): string {
    if text == [] then [] else lower(text[0]) + Lowered(text[1..], lower)
  }

  predicate At(text: string, part: string, i: nat) {
    i + |part| <= |text| && text[i..i + |part|] == part
  }

  predicate Contains(text: string, part: string) {
    exists i :: 0 <= i <= |text| && At(text, part, i)
  }

  predicate Mentions(text: string, keyword: string, lower: char -> string) {
    Contains(Lowered(text, lower), Lowered(keyword, lower))
  }

  ghost function MatchedTags(table: Table, text: string, lower: char -> string): set<string> {
    set k, t | 0 <= k < |table| && Mentions(text, table[k].0, lower) && t in table[k].1 :: t
  }

  ghost function ExtractedTags(table: Table, text: string, lower: char -> string): (tags: seq<string>) {
    var matched := MatchedTags(table, text, lower);
    Sorted(if matched == {} then {GENERAL} else matched)
  }

  method ExtractTags(table: Table, text: string, lower: char -> string) returns (tags: seq<string>)
    ensures tags == ExtractedTags(table, text, lower)
  {
    var textLower := Lowered(text, lower);
    var tagsSet: set<string> := {};
    for k := 0 to |table|
      invariant forall t :: t in tagsSet <==> t in MatchedTags(table[..k], text, lower)
    {
      ghost var before := tagsSet;
      if Contains(textLower, Lowered(table[k].0, lower)) {
        tagsSet := tagsSet + set t | t in table[k].1;
      }
      MatchedGrow(table, text, lower, k);
    }
    assert table[..|table|] == table;
    if tagsSet == {} {
      tagsSet := {GENERAL};
    }
    tags := SortTags(tagsSet);
    assert tagsSet == if MatchedTags(table, text, lower) == {} then {GENERAL} else MatchedTags(table, text, lower);
    CanonicalIsUnique(tags, ExtractedTags(table, text, lower), tagsSet);
  }

  lemma MatchedGrow(table: Table, text: string, lower: char -> string, k: nat)
    requires k < |table|
    ensures MatchedTags(table[..k + 1], text, lower)
         == MatchedTags(table[..k], text, lower) + (if Mentions(text, table[k].0, lower) then set t | t in table[k].1 else {})
  {
    var all, some := table[..k + 1], table[..k];
    forall t ensures t in MatchedTags(all, text, lower) <==>
        t in MatchedTags(some, text, lower) || (Mentions(text, table[k].0, lower) && t in table[k].1)
    {
      if t in MatchedTags(some, text, lower) {
        var i :| 0 <= i < |some| && Mentions(text, some[i].0, lower) && t in some[i].1;
        assert all[i] == some[i];
      }
      if Mentions(text, table[k].0, lower) && t in table[k].1 {
        assert all[k] == table[k];
      }
      if t in MatchedTags(all, text, lower) {
        var i :| 0 <= i < |all| && Mentions(text, all[i].0, lower) && t in all[i].1;
        assert all[i] == table[i] && (i < k ==> some[i] == table[i]);
      }
    }
  }

  ghost function WithLevel1(tags: seq<string>, level1: string): seq<string> {
    if level1 in tags then tags else [level1] + tags
  }

  method ExtractWithLevel1(table: Table, text: string, level1: string, lower: char -> string) returns (tags: seq<string>)
    ensures tags == WithLevel1(ExtractedTags(table, text, lower), level1)
    ensures level1 in tags && forall i, j :: 0 <= i < j < |tags| ==> tags[i] != tags[j]
    ensures var extracted := ExtractedTags(table, text, lower);
      if level1 in extracted then tags == extracted else tags[0] == level1 && tags[1..] == extracted
  {
    tags := ExtractTags(table, text, lower);
    IncreasingHasNoDuplicates(tags);
    if level1 !in tags {
      tags := [level1] + tags;
    }
  }

  lemma {:induction false} LoweredAppends(text: string, more: string, lower: char -> string)
    ensures Lowered(text + more, lower) == Lowered(text, lower) + Lowered(more, lower)
    ensures forall c :: Lowered([c], lower) == lower(c)
  {
    if text == [] {
      assert text + more == more;
    } else {
      assert (text + more)[1..] == text[1..] + more;
      LoweredAppends(text[1..], more, lower);
    }
  }

  lemma MentionsSurvives(text: string, more: string, keyword: string, lower: char -> string)
    requires Mentions(text, keyword, lower)
    ensures Mentions(text + more, keyword, lower)
  {
    LoweredAppends(text, more, lower);
    var t, k := Lowered(text, lower), Lowered(keyword, lower);
    var i :| 0 <= i <= |t| && At(t, k, i);
    assert (t + Lowered(more, lower))[i..i + |k|] == k;
    assert At(t + Lowered(more, lower), k, i);
  }

  /** Appending text removes no tag, except that "general" gives way to the first real one. */
  lemma AppendingKeepsTags(table: Table, text: string, more: string, lower: char -> string)
    ensures MatchedTags(table, text, lower) <= MatchedTags(table, text + more, lower)
    ensures forall t :: t in ExtractedTags(table, text, lower) && t !in ExtractedTags(table, text + more, lower) ==>
              t == GENERAL && MatchedTags(table, text, lower) == {} != MatchedTags(table, text + more, lower)
  {
    forall t | t in MatchedTags(table, text, lower) ensures t in MatchedTags(table, text + more, lower) {
      var k :| 0 <= k < |table| && Mentions(text, table[k].0, lower) && t in table[k].1;
      MentionsSurvives(text, more, table[k].0, lower);
    }
  }

  /** Two tags keep their relative order in every canonical list that has both. */
  lemma OrderIsStable(s: seq<string>, t: seq<string>, i: nat, j: nat, k: nat, l: nat)
    requires Increasing(s) && Increasing(t) && i < j < |s| && k < |t| && l < |t|
    requires s[i] == t[k] && s[j] == t[l]
    ensures k < l
  {
    BeforeIsStrict(s[i], s[j]);
  }

  // What the order and the search come to

  /** The alphabet decides at the first place where two strings differ, and a proper prefix
      comes before what extends it. */
  lemma {:induction false} LessIff(a: string, b: string)
    ensures Less(a, b) <==> exists k :: 0 <= k <= |a| && k < |b| && a[..k] == b[..k] && (k == |a| || a[k] < b[k])
  {
    if k :| 0 <= k <= |a| && k < |b| && a[..k] == b[..k] && (k == |a| || a[k] < b[k]) {
      DifferenceDecides(a, b, k);
    }
    if Less(a, b) {
      var k := FirstDifference(a, b);
    }
  }

  lemma {:induction false} DifferenceDecides(a: string, b: string, k: nat)
    requires k <= |a| && k < |b| && a[..k] == b[..k] && (k == |a| || a[k] < b[k])
    ensures Less(a, b)
    decreases k
  {
    if k > 0 {
      assert a[0] == a[..k][0] == b[..k][0] == b[0];
      assert a[1..][..k - 1] == a[..k][1..] == b[..k][1..] == b[1..][..k - 1];
      DifferenceDecides(a[1..], b[1..], k - 1);
    }
  }

  lemma {:induction false} FirstDifference(a: string, b: string) returns (k: nat)
    requires Less(a, b)
    ensures k <= |a| && k < |b| && a[..k] == b[..k] && (k == |a| || a[k] < b[k])
  {
    if a == [] || a[0] < b[0] {
      k := 0;
    } else {
      var rest := FirstDifference(a[1..], b[1..]);
      k := rest + 1;
      assert a[..k] == [a[0]] + a[1..][..rest] && b[..k] == [b[0]] + b[1..][..rest];
    }
  }

  lemma {:induction false} RankOfListed(order: seq<string>, tag: string)
    ensures tag in order <==> IndexIn(order, tag) < |order|
  {
    if order != [] && order[0] != tag {
      RankOfListed(order[1..], tag);
      assert order == [order[0]] + order[1..];
    }
  }

  /** In every canonical list the level-1 tags come first, then the other listed ones, and the
      rest follows in alphabetical order. */
  lemma ListsStartWithTheListed(s: seq<string>, i: nat, j: nat)
    requires Increasing(s) && i < j < |s|
    ensures s[j] in LEVEL1_ORDER ==> s[i] in LEVEL1_ORDER
    ensures s[j] in LEVEL2_ORDER ==> s[i] in LEVEL1_ORDER || s[i] in LEVEL2_ORDER
    ensures s[i] !in LEVEL1_ORDER && s[i] !in LEVEL2_ORDER ==> Less(s[i], s[j])
  {
    RankOfListed(Order(), s[i]);
    RankOfListed(Order(), s[j]);
    assert forall t :: t in Order() <==> t in LEVEL1_ORDER || t in LEVEL2_ORDER;
    if s[j] in LEVEL1_ORDER {
      var n :| 0 <= n < |LEVEL1_ORDER| && LEVEL1_ORDER[n] == s[j];
      Level1Ranks(n);
      assert Order()[Rank(s[i])] == LEVEL1_ORDER[Rank(s[i])];
    }
  }

  lemma {:induction false} NotAmongTheFirst(order: seq<string>, tag: string, n: nat)
    requires n <= |order| && tag !in order[..n]
    ensures n <= IndexIn(order, tag)
    decreases n
  {
    if n > 0 {
      assert order[..n][0] == order[0] && order[..n][1..] == order[1..][..n - 1];
      NotAmongTheFirst(order[1..], tag, n - 1);
    }
  }

  /** Of two tags, the one that the lists name first comes first. */
  lemma EarlierListedComesFirst(s: seq<string>, i: nat, j: nat, p: nat)
    requires Increasing(s) && i < |s| && j < |s| && p < |LEVEL1_ORDER + LEVEL2_ORDER|
    requires (LEVEL1_ORDER + LEVEL2_ORDER)[p] == s[i] && s[j] !in (LEVEL1_ORDER + LEVEL2_ORDER)[..p + 1]
    ensures i < j
  {
    OnlyOneOfRank(s[i], p);
    NotAmongTheFirst(Order(), s[j], p + 1);
    BeforeIsStrict(s[i], s[j]);
  }

  /** A keyword tags every text in which it occurs, wherever and in whatever case. */
  lemma KeywordAnywhereTags(table: Table, k: nat, before: string, keyword: string, after: string, lower: char -> string)
    requires k < |table| && Lowered(table[k].0, lower) == Lowered(keyword, lower)
    ensures forall t :: t in table[k].1 ==> t in ExtractedTags(table, before + keyword + after, lower)
  {
    var text := before + keyword + after;
    LoweredAppends(before + keyword, after, lower);
    LoweredAppends(before, keyword, lower);
    var l, w := Lowered(text, lower), Lowered(keyword, lower);
    assert At(l, w, |Lowered(before, lower)|);
    forall t | t in table[k].1 ensures t in MatchedTags(table, text, lower) {
      assert Mentions(text, table[k].0, lower);
    }
  }

  /** Every other tag comes from a keyword whose lower-case form is a part of the text's. */
  lemma TagsComeFromKeywords(table: Table, text: string, lower: char -> string, tag: string)
    returns (k: nat, before: string, after: string)
    requires tag in ExtractedTags(table, text, lower) && tag != "general"
    ensures k < |table| && tag in table[k].1 && Lowered(text, lower) == before + Lowered(table[k].0, lower) + after
  {
    assert tag in MatchedTags(table, text, lower);
    k :| 0 <= k < |table| && Mentions(text, table[k].0, lower) && tag in table[k].1;
    before, after := ContainedSplits(Lowered(text, lower), Lowered(table[k].0, lower));
  }

  lemma ContainedSplits(text: string, part: string) returns (before: string, after: string)
    requires Contains(text, part)
    ensures text == before + part + after
  {
    var i :| 0 <= i <= |text| && At(text, part, i);
    before, after := text[..i], text[i + |part|..];
  }

  lemma MentionedIsMatched(table: Table, text: string, lower: char -> string, k: nat, tag: string)
    requires k < |table| && Mentions(text, table[k].0, lower) && tag in table[k].1
    ensures tag in MatchedTags(table, text, lower)
  {
  }

  lemma UnlistedIsNotMatched(table: Table, text: string, lower: char -> string, tag: string)
    requires forall k :: 0 <= k < |table| ==> tag !in table[k].1
    ensures tag !in MatchedTags(table, text, lower)
  {
  }

  /** "general" stands alone, and is given exactly when no keyword with a tag occurs. */
  lemma GeneralIsTheLastResort(table: Table, text: string, lower: char -> string)
    requires forall k :: 0 <= k < |table| ==> GENERAL !in table[k].1
    ensures "general" in ExtractedTags(table, text, lower) <==> ExtractedTags(table, text, lower) == ["general"]
    ensures "general" in ExtractedTags(table, text, lower) <==>
              forall k :: 0 <= k < |table| && Mentions(text, table[k].0, lower) ==> table[k].1 == []
  {
    var matched := MatchedTags(table, text, lower);
    UnlistedIsNotMatched(table, text, lower, GENERAL);
    if matched == {} {
      CanonicalIsUnique(["general"], ExtractedTags(table, text, lower), {GENERAL});
      forall k | 0 <= k < |table| && Mentions(text, table[k].0, lower) ensures table[k].1 == [] {
        if table[k].1 != [] {
          MentionedIsMatched(table, text, lower, k, table[k].1[0]);
        }
      }
    }
  }
}
