/** Paged reclassification of a category's items, with the tag rules it applies. A select
    returns the places of the rows it matches. */
module Reclassify {
  import opened Wrappers
  import opened Constants
  import opened Tags
  import opened ItemScan

  datatype Outcome = CategoryNotFound | Done(scanned: nat, updated: nat)

  /** The keyword table and the lower-casing that extraction uses. */
  datatype Rules = Rules(table: Table, lower: char -> string)

  const FUND_WORDS := ["etf", "nav", "估值", "基金净值", "fund"]
  const INDEX_WORDS := ["指数", "index", "s&p", "nasdaq", "沪深300", "上证", "深证"]
  const COMMODITY_WORDS := ["黄金", "原油", "gold", "oil", "commodity", "期货", "大宗商品"]

  predicate AnyIn(words: seq<string>, text: string) {
    exists i :: 0 <= i < |words| && Contains(text, words[i])
  }

  /** A stored item has no `type`, so only its region and its text decide. */
  function FinanceTag(c: Content, lower: char -> string): string {
    var text := Lowered(c.title, lower) + " " + Lowered(c.summary, lower);
    if c.region == "CN" then "china-stock"
    else if AnyIn(FUND_WORDS, text) then "fund-nav"
    else if AnyIn(INDEX_WORDS, text) then "market-indices"
    else if AnyIn(COMMODITY_WORDS, text) then "commodities"
    else "china-stock"
  }

  ghost function Retagged(c: Content, category: Category, rules: Rules): seq<string> {
    match category.kind
    case Tech => WithLevel1(ExtractedTags(rules.table, c.title + " " + c.summary, rules.lower), category.slug)
    case Finance => ["finance", FinanceTag(c, rules.lower)]
    case Other => [category.slug]
  }

  ghost function RetagOf(category: Category, rules: Rules): Retag {
    c => Retagged(c, category, rules)
  }

  method RecomputeItemTags(item: Item, category: Category, rules: Rules) returns (tags: seq<string>)
    ensures tags == Retagged(item.content, category, rules)
  {
    match category.kind {
      case Tech =>
        tags := ExtractWithLevel1(rules.table, item.content.title + " " + item.content.summary, category.slug, rules.lower);
      case Finance =>
        tags := ["finance", FinanceTag(item.content, rules.lower)];
      case Other =>
        tags := [category.slug];
    }
  }

  class ItemTable {
    var rows: seq<Item>

    constructor (rows: seq<Item>)
      ensures this.rows == rows
    {
      this.rows := rows;
    }

    /** The first `offset` matches in id order are skipped, and at most `limit` returned. */
    method SelectPage(category: Category, tenantId: string, offset: nat, limit: nat) returns (batch: seq<nat>)
      ensures batch == Page(Matching(rows, category, tenantId), offset, limit)
    {
      batch := [];
      var skipped := 0;
      ghost var found := Matching([], category, tenantId);
      for i := 0 to |rows|
        invariant found == Matching(rows[..i], category, tenantId)
        invariant skipped == (if |found| < offset then |found| else offset) && batch == Page(found, offset, limit)
      {
        assert rows[..i + 1][..i] == rows[..i];
        if Matches(rows[i], category, tenantId) {
          PageGrows(found, i, offset, limit);
          if skipped < offset {
            skipped := skipped + 1;
          } else if |batch| < limit {
            batch := batch + [i];
          }
          found := found + [i];
        }
      }
      assert rows[..|rows|] == rows;
    }

    /** One batch, which is the next stretch of `places`. */
    method ReclassifyBatch(batch: seq<nat>, category: Category, tenantId: string, rules: Rules, updatedBefore: nat,
                           ghost first: seq<Item>, ghost places: seq<nat>, ghost seen: nat, ghost retag: Retag)
      returns (updated: nat, ghost next: nat)
      requires retag == RetagOf(category, rules)
      requires Selected(first, places, category, tenantId)
      requires Scanned(first, rows, places, seen, updatedBefore, category, tenantId, retag)
      requires IsStretch(places, seen, batch)
      modifies this
      ensures next == seen + |batch|
      ensures Scanned(first, rows, places, next, updated, category, tenantId, retag)
    {
      updated, next := updatedBefore, seen;
      for k := 0 to |batch|
        invariant next == seen + k
        invariant Scanned(first, rows, places, next, updated, category, tenantId, retag)
      {
        var place := batch[k];
        assert place == places[next];
        var item := rows[place];
        var tags := RecomputeItemTags(item, category, rules);
        assert tags == retag(item.content);
        OneMore(first, rows, places, next, updated, category, tenantId, retag);
        if tags != StoredTags(item) {
          rows := rows[place := item.(topicTags := Some(tags))];
          updated := updated + 1;
        }
        next := next + 1;
      }
    }

    /** Offset paging over a table whose matching rows never move: their match does not
        depend on the tags that are being rewritten. */
    method ReclassifyPages(category: Category, tenantId: string, batchSize: nat, rules: Rules, ghost places: seq<nat>, ghost retag: Retag)
      returns (scanned: nat, updated: nat, ghost visited: seq<nat>)
      requires places == Matching(rows, category, tenantId) && retag == RetagOf(category, rules)
      modifies this
      ensures Scanned(old(rows), rows, places, scanned, updated, category, tenantId, retag)
      ensures scanned == if batchSize == 0 then 0 else |places|
      ensures visited == places[..scanned]
    {
      ghost var first := rows;
      ghost var seen: nat := 0;
      var offset, more := 0, true;
      scanned, updated, visited := 0, 0, [];
      MatchingIsSelected(first, category, tenantId);
      NothingYet(first, places, category, tenantId, retag);
      while more
        invariant Scanned(first, rows, places, seen, updated, category, tenantId, retag) && seen == scanned
        invariant more ==> offset == scanned
        invariant !more ==> scanned == |places|
        invariant batchSize == 0 ==> scanned == 0 && more
        invariant scanned <= |places| && visited == places[..scanned]
        decreases more, |places| - scanned
      {
        ScanKeepsMatching(first, rows, places, seen, updated, category, tenantId, retag);
        PageIsAStretch(places, offset, batchSize);
        var batch := SelectPage(category, tenantId, offset, batchSize);
        if batch == [] {
          break;
        }
        updated, seen := ReclassifyBatch(batch, category, tenantId, rules, updated, first, places, seen, retag);
        StretchExtends(places, offset, batch);
        visited := visited + batch;
        scanned := scanned + |batch|;
        more := |batch| == batchSize;
        offset := offset + batchSize;
      }
    }

    /** `visited` records the rows in the order the loop reads them. */
    method ReclassifyCategoryItems(found: Option<Category>, tenantId: string, batchSize: nat, rules: Rules)
      returns (outcome: Outcome, ghost visited: seq<nat>)
      modifies this
      ensures outcome == CategoryNotFound <==>
                found.None? || (found.value.tenantId != tenantId && found.value.tenantId != SYSTEM_TENANT_ID)
      ensures outcome == CategoryNotFound || batchSize == 0 ==> rows == old(rows) && visited == []
      ensures outcome.Done? && batchSize == 0 ==> outcome == Done(0, 0)
      ensures outcome.Done? && batchSize > 0 ==>
        && rows == Pass(old(rows), found.value, tenantId, RetagOf(found.value, rules))
        && visited == Matching(old(rows), found.value, tenantId)
        && outcome == Done(|visited|, |Differing(old(rows), found.value, tenantId, RetagOf(found.value, rules))|)
    {
      if found.None? || (found.value.tenantId != tenantId && found.value.tenantId != SYSTEM_TENANT_ID) {
        return CategoryNotFound, [];
      }
      var category := found.value;
      ghost var first, places, retag := rows, Matching(rows, category, tenantId), RetagOf(category, rules);
      var scanned, updated;
      scanned, updated, visited := ReclassifyPages(category, tenantId, batchSize, rules, places, retag);
      if batchSize == 0 {
        NothingChanged(first, rows, places, updated, category, tenantId, retag);
      } else {
        AllDone(first, rows, places, updated, category, tenantId, retag);
      }
      outcome := Done(scanned, updated);
    }
  }

  // What the rules come to

  /** Each kind of category keeps its own form of tags, and the level-1 tag of a technical one
      is its slug. */
  lemma TagsFollowTheKind(c: Content, category: Category, rules: Rules)
    ensures var tags := Retagged(c, category, rules);
      var extracted := ExtractedTags(rules.table, c.title + " " + c.summary, rules.lower);
      match category.kind
      case Tech => if category.slug in extracted then tags == extracted else tags == [category.slug] + extracted
      case Finance => tags == ["finance", tags[1]] && tags[1] in {"china-stock", "fund-nav", "market-indices", "commodities"}
      case Other => tags == [category.slug]
  {
  }

  predicate Names(words: seq<string>, c: Content, lower: char -> string) {
    exists i :: 0 <= i < |words| && Contains(Lowered(c.title, lower) + " " + Lowered(c.summary, lower), words[i])
  }

  /** Of the finance rules the first that applies decides: a Chinese item is a Chinese stock
      whatever it names, funds come before indices and indices before commodities. */
  lemma FirstRuleDecides(c: Content, lower: char -> string)
    ensures var tag := FinanceTag(c, lower);
      && (tag == "fund-nav" <==> c.region != "CN" && Names(FUND_WORDS, c, lower))
      && (tag == "market-indices" <==> c.region != "CN" && !Names(FUND_WORDS, c, lower) && Names(INDEX_WORDS, c, lower))
      && (tag == "commodities" <==>
            c.region != "CN" && !Names(FUND_WORDS, c, lower) && !Names(INDEX_WORDS, c, lower) && Names(COMMODITY_WORDS, c, lower))
      && (tag == "china-stock" <==>
            c.region == "CN" || !(Names(FUND_WORDS, c, lower) || Names(INDEX_WORDS, c, lower) || Names(COMMODITY_WORDS, c, lower)))
  {
  }
}
