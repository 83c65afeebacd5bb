/** One pass over the items of a category, and what a paged scan has done of it so far.
    The table is a sequence of rows in id order. */
module ItemScan {
  import opened Wrappers

  datatype CategoryType = Tech | Finance | Other

  datatype Category = Category(id: string, tenantId: string, slug: string, kind: CategoryType)

  datatype Content = Content(title: string, summary: string, region: string)

  datatype Item = Item(id: int, tenantId: string, categoryId: string, content: Content, topicTags: Option<seq<string>>)

  /** What the recomputation makes of a row's content; it never looks at the stored tags. */
  type Retag = Content -> seq<string>

  function StoredTags(item: Item): seq<string> {
    if item.topicTags.Some? then item.topicTags.value else []
  }

  predicate Matches(item: Item, category: Category, tenantId: string) {
    item.categoryId == category.id && item.tenantId == tenantId
  }

  /** The places of the matching rows, in id order. */
  function Matching(rows: seq<Item>, category: Category, tenantId: string): seq<nat> {
    if rows == [] then []
    else
      var before := Matching(rows[..|rows| - 1], category, tenantId);
      if Matches(rows[|rows| - 1], category, tenantId) then before + [|rows| - 1] else before
  }

  predicate Selected(rows: seq<Item>, places: seq<nat>, category: Category, tenantId: string) {
    && (forall k :: 0 <= k < |places| ==> places[k] < |rows| && Matches(rows[places[k]], category, tenantId))
    && (forall k, l :: 0 <= k < l < |places| ==> places[k] < places[l])
  }

  /** OFFSET and LIMIT. */
  function Page<T>(s: seq<T>, offset: nat, limit: nat): seq<T> {
    if |s| <= offset then [] else if |s| <= offset + limit then s[offset..] else s[offset..offset + limit]
  }

  /** The single pass that paging refines. */
  ghost function Mapped(item: Item, category: Category, tenantId: string, retag: Retag): Item {
    if Matches(item, category, tenantId) && retag(item.content) != StoredTags(item)
    then item.(topicTags := Some(retag(item.content)))
    else item
  }

  ghost function Pass(rows: seq<Item>, category: Category, tenantId: string, retag: Retag): (r: seq<Item>)
    ensures |r| == |rows|
  {
    seq(|rows|, i requires 0 <= i < |rows| => Mapped(rows[i], category, tenantId, retag))
  }

  predicate Differs(item: Item, category: Category, tenantId: string, retag: Retag) {
    Matches(item, category, tenantId) && retag(item.content) != StoredTags(item)
  }

  /** The rows whose stored tags are not what the rules give. */
  function Differing(rows: seq<Item>, category: Category, tenantId: string, retag: Retag): set<nat> {
    set i: nat | i < |rows| && Differs(rows[i], category, tenantId, retag)
  }

  ghost predicate InBounds(places: seq<nat>, n: nat) {
    forall k :: 0 <= k < |places| ==> places[k] < n
  }

  /** How many of the first n places hold such a row. */
  ghost function CountDiffering(rows: seq<Item>, places: seq<nat>, n: nat, retag: Retag): nat
    requires n <= |places| && InBounds(places, |rows|)
  {
    if n == 0 then 0
    else CountDiffering(rows, places, n - 1, retag)
         + if retag(rows[places[n - 1]].content) != StoredTags(rows[places[n - 1]]) then 1 else 0
  }

  lemma {:induction false} MatchingIsSelected(rows: seq<Item>, category: Category, tenantId: string)
    ensures Selected(rows, Matching(rows, category, tenantId), category, tenantId)
  {
    if rows != [] {
      var init, before := rows[..|rows| - 1], Matching(rows[..|rows| - 1], category, tenantId);
      MatchingIsSelected(init, category, tenantId);
      forall k | 0 <= k < |before| ensures Matches(rows[before[k]], category, tenantId) {
        assert rows[before[k]] == init[before[k]];
      }
    }
  }

  lemma {:induction false} MatchingIsComplete(rows: seq<Item>, category: Category, tenantId: string, i: nat)
    requires i < |rows| && Matches(rows[i], category, tenantId)
    ensures i in Matching(rows, category, tenantId)
  {
    if i < |rows| - 1 {
      MatchingIsComplete(rows[..|rows| - 1], category, tenantId, i);
    }
  }

  lemma {:induction false} MatchingIgnoresTags(rows: seq<Item>, rows': seq<Item>, category: Category, tenantId: string)
    requires |rows| == |rows'|
    requires forall i :: 0 <= i < |rows| ==> rows'[i].categoryId == rows[i].categoryId && rows'[i].tenantId == rows[i].tenantId
    ensures Matching(rows', category, tenantId) == Matching(rows, category, tenantId)
  {
    if rows != [] {
      MatchingIgnoresTags(rows[..|rows| - 1], rows'[..|rows| - 1], category, tenantId);
    }
  }

  /** How a page grows with one more match: skipped, taken, or beyond the limit. */
  lemma PageGrows<T>(s: seq<T>, x: T, offset: nat, limit: nat)
    ensures Page(s + [x], offset, limit) ==
      if offset <= |s| && |Page(s, offset, limit)| < limit then Page(s, offset, limit) + [x] else Page(s, offset, limit)
  {
  }

  predicate IsStretch<T(==)>(s: seq<T>, offset: nat, part: seq<T>) {
    offset + |part| <= |s| && forall k :: 0 <= k < |part| ==> part[k] == s[offset + k]
  }

  lemma PageIsAStretch<T>(s: seq<T>, offset: nat, limit: nat)
    requires offset <= |s|
    ensures IsStretch(s, offset, Page(s, offset, limit)) && |Page(s, offset, limit)| <= limit
    ensures |Page(s, offset, limit)| < limit ==> offset + |Page(s, offset, limit)| == |s|
  {
  }

  lemma StretchExtends<T>(s: seq<T>, offset: nat, part: seq<T>)
    requires IsStretch(s, offset, part)
    ensures s[..offset] + part == s[..offset + |part|]
  {
  }

  predicate Among(places: seq<nat>, n: nat, i: nat)
    requires n <= |places|
  {
    exists k :: 0 <= k < n && places[k] == i
  }

  lemma AmongOneMore(places: seq<nat>, n: nat, i: nat)
    requires n < |places|
    ensures Among(places, n + 1, i) <==> Among(places, n, i) || i == places[n]
  {
    assert places[n] == i ==> Among(places, n + 1, i);
  }

  /** The first `seen` places have been mapped, all other rows are as they were. */
  ghost predicate MappedSoFar(first: seq<Item>, rows: seq<Item>, places: seq<nat>, seen: nat,
                              category: Category, tenantId: string, retag: Retag)
    requires seen <= |places|
  {
    && |rows| == |first|
    && forall i :: 0 <= i < |rows| ==>
         rows[i] == if Among(places, seen, i) then Mapped(first[i], category, tenantId, retag) else first[i]
  }

  ghost predicate Scanned(first: seq<Item>, rows: seq<Item>, places: seq<nat>, seen: nat, updated: nat,
                          category: Category, tenantId: string, retag: Retag)
  {
    && seen <= |places| && InBounds(places, |first|)
    && MappedSoFar(first, rows, places, seen, category, tenantId, retag)
    && updated == CountDiffering(first, places, seen, retag)
  }

  /** The row a step leaves: rewritten when the tags differ, untouched otherwise. */
  function Stepped(rows: seq<Item>, place: nat, tags: seq<string>): seq<Item>
    requires place < |rows|
  {
    if tags != StoredTags(rows[place]) then rows[place := rows[place].(topicTags := Some(tags))] else rows
  }

  lemma MapOneMore(first: seq<Item>, rows: seq<Item>, places: seq<nat>, seen: nat,
                   category: Category, tenantId: string, retag: Retag)
    requires seen < |places| && InBounds(places, |first|)
    requires Matches(first[places[seen]], category, tenantId) && !Among(places, seen, places[seen])
    requires MappedSoFar(first, rows, places, seen, category, tenantId, retag)
    ensures rows[places[seen]] == first[places[seen]]
    ensures MappedSoFar(first, Stepped(rows, places[seen], retag(rows[places[seen]].content)), places, seen + 1, category, tenantId, retag)
  {
    var rows' := Stepped(rows, places[seen], retag(rows[places[seen]].content));
    forall i | 0 <= i < |rows|
      ensures rows'[i] == if Among(places, seen + 1, i) then Mapped(first[i], category, tenantId, retag) else first[i]
    {
      AmongOneMore(places, seen, i);
    }
  }

  /** The next place: its row is still the original, and stepping over it extends the scan. */
  lemma OneMore(first: seq<Item>, rows: seq<Item>, places: seq<nat>, seen: nat, updated: nat,
                category: Category, tenantId: string, retag: Retag)
    requires Selected(first, places, category, tenantId)
    requires Scanned(first, rows, places, seen, updated, category, tenantId, retag) && seen < |places|
    ensures var item, tags := rows[places[seen]], retag(rows[places[seen]].content);
      Scanned(first, Stepped(rows, places[seen], tags), places, seen + 1,
              if tags != StoredTags(item) then updated + 1 else updated, category, tenantId, retag)
  {
    MapOneMore(first, rows, places, seen, category, tenantId, retag);
  }

  lemma NothingYet(first: seq<Item>, places: seq<nat>, category: Category, tenantId: string, retag: Retag)
    requires Selected(first, places, category, tenantId)
    ensures Scanned(first, first, places, 0, 0, category, tenantId, retag)
  {
  }

  lemma NothingChanged(first: seq<Item>, rows: seq<Item>, places: seq<nat>, updated: nat,
                       category: Category, tenantId: string, retag: Retag)
    requires Scanned(first, rows, places, 0, updated, category, tenantId, retag)
    ensures rows == first && updated == 0
  {
    assert forall i :: 0 <= i < |rows| ==> !Among(places, 0, i);
  }

  lemma ScanKeepsMatching(first: seq<Item>, rows: seq<Item>, places: seq<nat>, seen: nat, updated: nat,
                          category: Category, tenantId: string, retag: Retag)
    requires places == Matching(first, category, tenantId)
    requires Scanned(first, rows, places, seen, updated, category, tenantId, retag)
    ensures places == Matching(rows, category, tenantId)
  {
    MatchingIgnoresTags(first, rows, category, tenantId);
  }

  ghost function DifferingAmong(rows: seq<Item>, places: seq<nat>, n: nat, retag: Retag): set<nat>
    requires n <= |places| && InBounds(places, |rows|)
  {
    set k | 0 <= k < n && retag(rows[places[k]].content) != StoredTags(rows[places[k]]) :: places[k]
  }

  lemma DifferingAmongGrows(rows: seq<Item>, places: seq<nat>, n: nat, next: nat, category: Category, tenantId: string, retag: Retag)
    requires Selected(rows, places, category, tenantId) && next == n + 1 <= |places|
    ensures |DifferingAmong(rows, places, next, retag)| == |DifferingAmong(rows, places, n, retag)|
      + (if retag(rows[places[n]].content) != StoredTags(rows[places[n]]) then 1 else 0)
  {
    var before, last := DifferingAmong(rows, places, n, retag), places[n];
    var differs := retag(rows[last].content) != StoredTags(rows[last]);
    assert last !in before;
    assert DifferingAmong(rows, places, next, retag) == if differs then before + {last} else before;
  }

  lemma {:induction false} CountIsTheSet(rows: seq<Item>, places: seq<nat>, n: nat, category: Category, tenantId: string, retag: Retag)
    requires Selected(rows, places, category, tenantId) && n <= |places|
    ensures CountDiffering(rows, places, n, retag) == |DifferingAmong(rows, places, n, retag)|
  {
    if n == 0 {
      assert DifferingAmong(rows, places, 0, retag) == {};
    } else {
      CountIsTheSet(rows, places, n - 1, category, tenantId, retag);
      DifferingAmongGrows(rows, places, n - 1, n, category, tenantId, retag);
    }
  }

  /** A scan of every matching place is one pass over the table, and the count is the
      number of rows whose tags differed. */
  lemma AllDone(first: seq<Item>, rows: seq<Item>, places: seq<nat>, updated: nat,
                category: Category, tenantId: string, retag: Retag)
    requires places == Matching(first, category, tenantId)
    requires Scanned(first, rows, places, |places|, updated, category, tenantId, retag)
    ensures rows == Pass(first, category, tenantId, retag)
    ensures updated == |Differing(first, category, tenantId, retag)|
  {
    MatchingIsSelected(first, category, tenantId);
    forall i | 0 <= i < |rows| ensures Among(places, |places|, i) <==> Matches(first[i], category, tenantId) {
      if Matches(first[i], category, tenantId) {
        MatchingIsComplete(first, category, tenantId, i);
      }
    }
    CountIsTheSet(first, places, |places|, category, tenantId, retag);
    assert DifferingAmong(first, places, |places|, retag) == Differing(first, category, tenantId, retag);
  }

  /** Running it again finds nothing to update and changes nothing. */
  lemma SecondRunUpdatesNothing(rows: seq<Item>, category: Category, tenantId: string, retag: Retag)
    ensures var done := Pass(rows, category, tenantId, retag);
      Pass(done, category, tenantId, retag) == done && Differing(done, category, tenantId, retag) == {}
  {
  }

  /** Only tags change, and only those of the tenant's own items of the category, which all end
      with what the rules give. */
  lemma PassTouchesNothingElse(rows: seq<Item>, category: Category, tenantId: string, retag: Retag, i: nat)
    requires i < |rows|
    ensures var r := Pass(rows, category, tenantId, retag);
      var own := rows[i].categoryId == category.id && rows[i].tenantId == tenantId;
      && r[i] == rows[i].(topicTags := r[i].topicTags)
      && (own ==> StoredTags(r[i]) == retag(rows[i].content))
      && (!own ==> r[i] == rows[i])
      && (i in Differing(rows, category, tenantId, retag) <==> own && StoredTags(rows[i]) != retag(rows[i].content))
  {
  }

  /** The places listed are exactly those of the tenant's items in the category, each once and
      in order. */
  lemma MatchingIsExact(rows: seq<Item>, category: Category, tenantId: string, i: nat)
    requires i < |rows|
    ensures var places := Matching(rows, category, tenantId);
      && (i in places <==> rows[i].categoryId == category.id && rows[i].tenantId == tenantId)
      && (forall k, l :: 0 <= k < l < |places| ==> places[k] < places[l] < |rows|)
  {
    MatchingIsSelected(rows, category, tenantId);
    if Matches(rows[i], category, tenantId) {
      MatchingIsComplete(rows, category, tenantId, i);
    }
  }
}
