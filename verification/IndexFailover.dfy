/** Failover along a chain of quote sources: one symbol at a time, or a batch that is filled
    in progressively and asks each later source only for what is still missing. */
module IndexFailover {
  import opened Wrappers

  /** An empty symbol stands for an item without one. */
  datatype Item = Item(symbol: string, source: string, quote: string)

  /** What a collector makes of a list of symbols. */
  datatype Collected = CollectRaised | Collected(success: bool, items: seq<Item>)

  /** `secid` is present for the source that answers under its own symbols. */
  datatype Source = Source(name: string, registered: bool, collect: seq<string> -> Collected, secid: Option<string -> string>)

  datatype Try<+T> = Raised | Nothing | Got(value: T)

  /** The keys under which an answer may come, each with the asked symbol it stands for. */
  function SymbolMap(symbols: seq<string>, n: nat, secid: string -> string): map<string, string>
    requires n <= |symbols|
  {
    if n == 0 then map s | s in symbols :: s
    else SymbolMap(symbols, n - 1, secid)[secid(symbols[n - 1]) := symbols[n - 1]]
  }

  function Translated(items: seq<Item>, table: map<string, string>): seq<Item> {
    if items == [] then []
    else
      var before, last := Translated(items[..|items| - 1], table), items[|items| - 1];
      if last.symbol in table then before + [last.(symbol := table[last.symbol])] else before
  }

  function Stamped(items: seq<Item>, name: string): seq<Item> {
    seq(|items|, i requires 0 <= i < |items| => items[i].(source := name))
  }

  function BatchAnswer(source: Source, symbols: seq<string>): Try<seq<Item>> {
    if !source.registered then Nothing
    else match source.collect(symbols)
      case CollectRaised => Raised
      case Collected(success, items) =>
        if !success || items == [] then Nothing
        else
          var own := if source.secid.Some? then Translated(items, SymbolMap(symbols, |symbols|, source.secid.value)) else items;
          Got(Stamped(own, source.name))
  }

  method TryCollectorBatch(source: Source, symbols: seq<string>) returns (answer: Try<seq<Item>>)
    ensures answer == BatchAnswer(source, symbols)
  {
    if !source.registered {
      return Nothing;
    }
    var result := source.collect(symbols);
    if result.CollectRaised? {
      return Raised;
    }
    if !result.success || result.items == [] {
      return Nothing;
    }
    var items := result.items;
    if source.secid.Some? {
      var table := map s | s in symbols :: s;
      for n := 0 to |symbols|
        invariant table == SymbolMap(symbols, n, source.secid.value)
      {
        table := table[source.secid.value(symbols[n]) := symbols[n]];
      }
      var own := [];
      for n := 0 to |items|
        invariant own == Translated(items[..n], table)
      {
        assert items[..n + 1][..n] == items[..n];
        if items[n].symbol in table {
          own := own + [items[n].(symbol := table[items[n].symbol])];
        }
      }
      assert items[..|items|] == items;
      items := own;
    }
    var stamped := [];
    for n := 0 to |items|
      invariant stamped == Stamped(items[..n], source.name)
    {
      stamped := stamped + [items[n].(source := source.name)];
    }
    assert items[..|items|] == items;
    return Got(stamped);
  }

  /** The first item with the symbol. */
  function Find(items: seq<Item>, symbol: string): Option<Item> {
    if items == [] then None
    else if items[0].symbol == symbol then Some(items[0])
    else Find(items[1..], symbol)
  }

  /** The first answer with the asked symbol, stamped; failing that, the first answer. */
  function OneAnswer(source: Source, symbol: string): Try<Item> {
    if !source.registered then Nothing
    else match source.collect([symbol])
      case CollectRaised => Raised
      case Collected(success, items) =>
        if !success || items == [] then Nothing
        else
          var own := Find(items, symbol);
          Got(if own.Some? then own.value.(source := source.name) else items[0])
  }

  method TryCollector(source: Source, symbol: string) returns (answer: Try<Item>)
    ensures answer == OneAnswer(source, symbol)
  {
    if !source.registered {
      return Nothing;
    }
    var result := source.collect([symbol]);
    if result.CollectRaised? {
      return Raised;
    }
    if result.success && result.items != [] {
      for n := 0 to |result.items|
        invariant Find(result.items, symbol) == Find(result.items[n..], symbol)
      {
        assert result.items[n..][1..] == result.items[n + 1..];
        if result.items[n].symbol == symbol {
          return Got(result.items[n].(source := source.name));
        }
      }
      return Got(result.items[0]);
    }
    return Nothing;
  }

  function FirstAnswering(chain: seq<Source>, symbol: string): Option<Item> {
    if chain == [] then None
    else
      var answer := OneAnswer(chain[0], symbol);
      if answer.Got? then Some(answer.value) else FirstAnswering(chain[1..], symbol)
  }

  method FetchWithFailover(symbol: string, chain: seq<Source>) returns (item: Option<Item>)
    ensures item == FirstAnswering(chain, symbol)
  {
    for n := 0 to |chain|
      invariant FirstAnswering(chain, symbol) == FirstAnswering(chain[n..], symbol)
    {
      assert chain[n..][1..] == chain[n + 1..];
      var answer := TryCollector(chain[n], symbol);
      if answer.Got? {
        return Some(answer.value);
      }
    }
    return None;
  }

  function Missing(symbols: seq<string>, merged: seq<Item>): seq<string> {
    if symbols == [] then []
    else
      var before, last := Missing(symbols[..|symbols| - 1], merged), symbols[|symbols| - 1];
      if Find(merged, last).None? then before + [last] else before
  }

  function MergedItem(merged: seq<Item>, item: Item): seq<Item> {
    if item.symbol != "" && Find(merged, item.symbol).None? then merged + [item] else merged
  }

  function MergedItems(merged: seq<Item>, items: seq<Item>): seq<Item>
    decreases items
  {
    if items == [] then merged else MergedItems(MergedItem(merged, items[0]), items[1..])
  }

  function MergedFrom(chain: seq<Source>, symbols: seq<string>, merged: seq<Item>): seq<Item> {
    var missing := Missing(symbols, merged);
    if chain == [] || missing == [] then merged
    else
      var answer := BatchAnswer(chain[0], missing);
      MergedFrom(chain[1..], symbols, if answer.Got? then MergedItems(merged, answer.value) else merged)
  }

  /** The dictionary keeps its entries in the order they were added. */
  method FetchIndicesWithFailover(symbols: seq<string>, chain: seq<Source>) returns (items: Option<seq<Item>>)
    ensures var merged := MergedFrom(chain, symbols, []);
      items == if merged == [] then None else Some(merged)
  {
    var merged := [];
    var n := 0;
    while n < |chain|
      invariant 0 <= n <= |chain|
      invariant MergedFrom(chain, symbols, []) == MergedFrom(chain[n..], symbols, merged)
    {
      var missing := [];
      for k := 0 to |symbols|
        invariant missing == Missing(symbols[..k], merged)
      {
        assert symbols[..k + 1][..k] == symbols[..k];
        if Find(merged, symbols[k]).None? {
          missing := missing + [symbols[k]];
        }
      }
      assert symbols[..|symbols|] == symbols;
      if missing == [] {
        break;
      }
      assert chain[n..][1..] == chain[n + 1..];
      var answer := TryCollectorBatch(chain[n], missing);
      if answer.Got? {
        merged := MergeAll(merged, answer.value);
      }
      n := n + 1;
    }
    return if merged == [] then None else Some(merged);
  }

  method MergeAll(before: seq<Item>, items: seq<Item>) returns (merged: seq<Item>)
    ensures merged == MergedItems(before, items)
  {
    merged := before;
    for k := 0 to |items|
      invariant MergedItems(before, items) == MergedItems(merged, items[k..])
    {
      assert items[k..][1..] == items[k + 1..];
      if items[k].symbol != "" && Find(merged, items[k].symbol).None? {
        merged := merged + [items[k]];
      }
    }
  }

  /** What a source has, symbol by symbol. */
  type Stock = string -> Option<Item>

  /** Of every asked symbol the answer's first item is what the source has, and there are no
      items of others. */
  ghost predicate Brings(answer: Try<seq<Item>>, asked: seq<string>, has: Stock) {
    && (forall s :: s in asked ==> has(s) == if answer.Got? then Find(answer.value, s) else None)
    && (answer.Got? ==> forall item :: item in answer.value ==> item.symbol in asked)
  }

  predicate DrawnFrom(asked: seq<string>, symbols: seq<string>) {
    forall t :: t in asked ==> t in symbols
  }

  /** Among these symbols, what the source answers for one does not depend on the others
      asked with it. */
  ghost predicate PerSymbol(source: Source, has: Stock, symbols: seq<string>) {
    forall asked :: DrawnFrom(asked, symbols) ==> Brings(BatchAnswer(source, asked), asked, has)
  }

  ghost predicate AllPerSymbol(chain: seq<Source>, stocks: seq<Stock>, symbols: seq<string>) {
    |stocks| == |chain| && forall n :: 0 <= n < |chain| ==> PerSymbol(chain[n], stocks[n], symbols)
  }

  /** The item of the first source in the chain that has the symbol. */
  function FirstHaving(stocks: seq<Stock>, symbol: string): Option<Item> {
    if stocks == [] then None
    else if stocks[0](symbol).Some? then stocks[0](symbol)
    else FirstHaving(stocks[1..], symbol)
  }

  lemma {:induction false} FindFinds(items: seq<Item>, symbol: string)
    ensures Find(items, symbol).Some? ==> Find(items, symbol).value in items && Find(items, symbol).value.symbol == symbol
    ensures Find(items, symbol).None? ==> forall item :: item in items ==> item.symbol != symbol
  {
    if items != [] {
      FindFinds(items[1..], symbol);
      assert items == [items[0]] + items[1..];
    }
  }

  lemma {:induction false} FindAppended(merged: seq<Item>, item: Item, symbol: string)
    ensures Find(merged + [item], symbol) ==
      if Find(merged, symbol).Some? then Find(merged, symbol) else if item.symbol == symbol then Some(item) else None
  {
    if merged != [] {
      assert (merged + [item])[1..] == merged[1..] + [item];
      FindAppended(merged[1..], item, symbol);
    }
  }

  lemma {:induction false} MergeKeepsTheFirst(merged: seq<Item>, items: seq<Item>, symbol: string)
    requires symbol != ""
    ensures Find(MergedItems(merged, items), symbol) ==
      if Find(merged, symbol).Some? then Find(merged, symbol) else Find(items, symbol)
    decreases items
  {
    if items != [] {
      FindAppended(merged, items[0], symbol);
      MergeKeepsTheFirst(MergedItem(merged, items[0]), items[1..], symbol);
    }
  }

  lemma {:induction false} MissingIsExact(symbols: seq<string>, merged: seq<Item>, s: string)
    ensures s in Missing(symbols, merged) <==> s in symbols && Find(merged, s).None?
  {
    if symbols != [] {
      MissingIsExact(symbols[..|symbols| - 1], merged, s);
      assert symbols == symbols[..|symbols| - 1] + [symbols[|symbols| - 1]];
    }
  }

  lemma MissingIsDrawn(symbols: seq<string>, merged: seq<Item>)
    ensures DrawnFrom(Missing(symbols, merged), symbols)
  {
    forall t | t in Missing(symbols, merged) ensures t in symbols {
      MissingIsExact(symbols, merged, t);
    }
  }

  /** Distinct symbols, each non-empty and asked for. */
  ghost predicate Proper(merged: seq<Item>, symbols: seq<string>) {
    && (forall i, j :: 0 <= i < j < |merged| ==> merged[i].symbol != merged[j].symbol)
    && (forall i :: 0 <= i < |merged| ==> merged[i].symbol != "" && merged[i].symbol in symbols)
  }

  lemma {:induction false} MergeKeepsProper(merged: seq<Item>, items: seq<Item>, symbols: seq<string>)
    requires Proper(merged, symbols) && forall item :: item in items ==> item.symbol in symbols
    ensures Proper(MergedItems(merged, items), symbols)
    decreases items
  {
    if items != [] {
      FindFinds(merged, items[0].symbol);
      assert items[0] in items;
      MergeKeepsProper(MergedItem(merged, items[0]), items[1..], symbols);
    }
  }

  lemma {:induction false} MergedFromIsProper(chain: seq<Source>, stocks: seq<Stock>, symbols: seq<string>, merged: seq<Item>)
    requires AllPerSymbol(chain, stocks, symbols) && Proper(merged, symbols)
    ensures Proper(MergedFrom(chain, symbols, merged), symbols)
  {
    var missing := Missing(symbols, merged);
    if chain != [] && missing != [] {
      var answer := BatchAnswer(chain[0], missing);
      MissingIsDrawn(symbols, merged);
      assert Brings(answer, missing, stocks[0]);
      if answer.Got? {
        MergeKeepsProper(merged, answer.value, symbols);
      }
      MergedFromIsProper(chain[1..], stocks[1..], symbols, if answer.Got? then MergedItems(merged, answer.value) else merged);
    }
  }

  lemma {:induction false} MergedFromFinds(chain: seq<Source>, stocks: seq<Stock>, symbols: seq<string>, merged: seq<Item>, s: string)
    requires AllPerSymbol(chain, stocks, symbols) && s in symbols && s != ""
    ensures Find(MergedFrom(chain, symbols, merged), s) ==
      if Find(merged, s).Some? then Find(merged, s) else FirstHaving(stocks, s)
  {
    var missing := Missing(symbols, merged);
    MissingIsExact(symbols, merged, s);
    if chain != [] && missing != [] {
      var answer := BatchAnswer(chain[0], missing);
      var next := if answer.Got? then MergedItems(merged, answer.value) else merged;
      MissingIsDrawn(symbols, merged);
      assert Brings(answer, missing, stocks[0]);
      if answer.Got? {
        MergeKeepsTheFirst(merged, answer.value, s);
      }
      MergedFromFinds(chain[1..], stocks[1..], symbols, next, s);
    }
  }

  /** Asking later sources only for what is missing gives every symbol the item of the
      first source that has it, no symbol twice, and nothing that was not asked for. */
  lemma ProgressiveIsPerSymbol(chain: seq<Source>, stocks: seq<Stock>, symbols: seq<string>)
    requires AllPerSymbol(chain, stocks, symbols) && "" !in symbols
    ensures var merged := MergedFrom(chain, symbols, []);
      && Proper(merged, symbols)
      && (forall s :: s in symbols ==> Find(merged, s) == FirstHaving(stocks, s))
      && (merged == [] <==> forall s :: s in symbols ==> FirstHaving(stocks, s) == None)
  {
    var merged := MergedFrom(chain, symbols, []);
    MergedFromIsProper(chain, stocks, symbols, []);
    forall s | s in symbols ensures Find(merged, s) == FirstHaving(stocks, s) {
      MergedFromFinds(chain, stocks, symbols, [], s);
    }
    if merged != [] {
      var s := merged[0].symbol;
      assert Find(merged, s) == Some(merged[0]) && FirstHaving(stocks, s).Some?;
    }
  }

  lemma {:induction false} SymbolMapLeadsToAsked(symbols: seq<string>, n: nat, secid: string -> string, key: string)
    requires n <= |symbols| && key in SymbolMap(symbols, n, secid)
    ensures SymbolMap(symbols, n, secid)[key] in symbols
    ensures key == SymbolMap(symbols, n, secid)[key] || key == secid(SymbolMap(symbols, n, secid)[key])
  {
    if n > 0 && key != secid(symbols[n - 1]) {
      SymbolMapLeadsToAsked(symbols, n - 1, secid, key);
    }
  }

  /** Whatever a source with its own symbols returns, only asked symbols come through. */
  lemma {:induction false} TranslationDropsTheUnasked(items: seq<Item>, symbols: seq<string>, secid: string -> string, item: Item)
    requires item in Translated(items, SymbolMap(symbols, |symbols|, secid))
    ensures item.symbol in symbols
    ensures item in items || item.(symbol := secid(item.symbol)) in items
  {
    var table, init := SymbolMap(symbols, |symbols|, secid), items[..|items| - 1];
    if item in Translated(init, table) {
      TranslationDropsTheUnasked(init, symbols, secid, item);
    } else {
      SymbolMapLeadsToAsked(symbols, |symbols|, secid, items[|items| - 1].symbol);
    }
  }

  /** An item under the source's own symbol comes through under the asked one, as long as
      no two asked symbols share it. */
  lemma {:induction false} SymbolMapFindsTheAsked(symbols: seq<string>, n: nat, secid: string -> string, s: string)
    requires n <= |symbols| && s in symbols[..n]
    requires forall t :: t in symbols && secid(t) == secid(s) ==> t == s
    ensures secid(s) in SymbolMap(symbols, n, secid) && SymbolMap(symbols, n, secid)[secid(s)] == s
  {
    if symbols[n - 1] != s {
      assert s in symbols[..n - 1];
      SymbolMapFindsTheAsked(symbols, n - 1, secid, s);
    }
  }

  /** So does an item under the asked symbol, as long as no source symbol looks like it. */
  lemma {:induction false} SymbolMapKeepsTheAsked(symbols: seq<string>, n: nat, secid: string -> string, s: string)
    requires n <= |symbols| && s in symbols && forall t :: t in symbols ==> secid(t) != s
    ensures s in SymbolMap(symbols, n, secid) && SymbolMap(symbols, n, secid)[s] == s
  {
    if n > 0 {
      SymbolMapKeepsTheAsked(symbols, n - 1, secid, s);
    }
  }

  // Items under the asked symbol or under the source's own one

  /** The first item that stands for the symbol. */
  function Standing(items: seq<Item>, symbol: string, secid: Option<string -> string>): Option<Item> {
    if items == [] then None
    else if items[0].symbol == symbol || (secid.Some? && items[0].symbol == secid.value(symbol)) then Some(items[0])
    else Standing(items[1..], symbol, secid)
  }

  function Renamed(item: Option<Item>, symbol: string, source: string): Option<Item> {
    if item.Some? then Some(item.value.(symbol := symbol, source := source)) else None
  }

  lemma {:induction false} StandingAppended(items: seq<Item>, item: Item, symbol: string, secid: Option<string -> string>)
    ensures Standing(items + [item], symbol, secid) ==
      if Standing(items, symbol, secid).Some? then Standing(items, symbol, secid) else Standing([item], symbol, secid)
  {
    if items == [] {
      assert items + [item] == [item];
    } else {
      assert (items + [item])[1..] == items[1..] + [item];
      StandingAppended(items[1..], item, symbol, secid);
    }
  }

  lemma {:induction false} StandingWithoutOwn(items: seq<Item>, symbol: string)
    ensures Standing(items, symbol, None) == Find(items, symbol)
  {
    if items != [] {
      StandingWithoutOwn(items[1..], symbol);
    }
  }

  lemma {:induction false} StampedFinds(items: seq<Item>, name: string, symbol: string)
    ensures Find(Stamped(items, name), symbol) == Renamed(Find(items, symbol), symbol, name)
  {
    if items != [] {
      assert Stamped(items, name)[1..] == Stamped(items[1..], name);
      StampedFinds(items[1..], name, symbol);
    }
  }

  /** Exactly the asked symbol and the source's own one lead to it. */
  ghost predicate LeadToIt(table: map<string, string>, symbol: string, secid: string -> string) {
    forall key :: key in table && table[key] == symbol <==> key == symbol || key == secid(symbol)
  }

  lemma {:induction false} TranslatedFinds(items: seq<Item>, table: map<string, string>, symbol: string, secid: string -> string)
    requires LeadToIt(table, symbol, secid)
    ensures var found, standing := Find(Translated(items, table), symbol), Standing(items, symbol, Some(secid));
      found == if standing.Some? then Some(standing.value.(symbol := symbol)) else None
  {
    if items != [] {
      var init, last := items[..|items| - 1], items[|items| - 1];
      TranslatedFinds(init, table, symbol, secid);
      assert items == init + [last];
      StandingAppended(init, last, symbol, Some(secid));
      if last.symbol in table {
        FindAppended(Translated(init, table), last.(symbol := table[last.symbol]), symbol);
      }
    }
  }

  /** No two of the symbols share a source symbol, and none is the source symbol of another. */
  predicate Separate(symbols: seq<string>, secid: string -> string) {
    forall s, t :: s in symbols && t in symbols && (secid(s) == secid(t) || secid(s) == t) ==> s == t
  }

  lemma SymbolMapLeadsToIt(symbols: seq<string>, asked: seq<string>, secid: string -> string, s: string)
    requires Separate(symbols, secid) && DrawnFrom(asked, symbols) && s in asked
    ensures LeadToIt(SymbolMap(asked, |asked|, secid), s, secid)
  {
    var table := SymbolMap(asked, |asked|, secid);
    assert asked[..|asked|] == asked;
    SymbolMapFindsTheAsked(asked, |asked|, secid, s);
    if secid(s) != s {
      SymbolMapKeepsTheAsked(asked, |asked|, secid, s);
    }
    forall key | key in table && table[key] == s ensures key == s || key == secid(s) {
      SymbolMapLeadsToAsked(asked, |asked|, secid, key);
    }
  }

  /** What the source has of a symbol, read off one raw answer. */
  function RawStock(answer: Collected, name: string, secid: Option<string -> string>): Stock {
    symbol =>
      if answer.Collected? && answer.success then Renamed(Standing(answer.items, symbol, secid), symbol, name) else None
  }

  /** A source with its own symbols whose raw answer does not depend on what is asked answers
      per symbol, among all symbols that are separate. */
  lemma FixedAnswerIsPerSymbol(source: Source, answer: Collected, symbols: seq<string>)
    requires source.registered && source.secid.Some? && Separate(symbols, source.secid.value)
    requires forall asked :: source.collect(asked) == answer
    ensures PerSymbol(source, RawStock(answer, source.name, source.secid), symbols)
  {
    var has := RawStock(answer, source.name, source.secid);
    forall asked | DrawnFrom(asked, symbols) ensures Brings(BatchAnswer(source, asked), asked, has) {
      if answer.Collected? && answer.success && answer.items != [] {
        TranslatedBrings(source, answer, symbols, asked);
      }
    }
  }

  lemma TranslatedBrings(source: Source, answer: Collected, symbols: seq<string>, asked: seq<string>)
    requires source.registered && source.secid.Some? && Separate(symbols, source.secid.value) && DrawnFrom(asked, symbols)
    requires source.collect(asked) == answer && answer.Collected? && answer.success && answer.items != []
    ensures Brings(BatchAnswer(source, asked), asked, RawStock(answer, source.name, source.secid))
  {
    var secid := source.secid.value;
    var table := SymbolMap(asked, |asked|, secid);
    var own := Translated(answer.items, table);
    var stamped := Stamped(own, source.name);
    forall s | s in asked ensures Renamed(Standing(answer.items, s, source.secid), s, source.name) == Find(stamped, s) {
      SymbolMapLeadsToIt(symbols, asked, secid, s);
      TranslatedFinds(answer.items, table, s, secid);
      StampedFinds(own, source.name, s);
    }
    forall item | item in stamped ensures item.symbol in asked {
      var i :| 0 <= i < |stamped| && stamped[i] == item;
      TranslationDropsTheUnasked(answer.items, asked, secid, own[i]);
    }
  }

  // Failing over symbol by symbol

  /** Some raw item carries the asked symbol itself, and the first one that stands for it
      brings the same quote. */
  predicate NamesItself(source: Source, s: string)
    requires OneAnswer(source, s).Got?
  {
    var items := source.collect([s]).items;
    var named, standing := Find(items, s), Standing(items, s, source.secid);
    named.Some? && standing.Some? && standing.value.quote == named.value.quote
  }

  /** The first source that answers for the symbol, if there is one, names it. */
  predicate NamedByTheFirst(chain: seq<Source>, s: string) {
    chain == [] || if OneAnswer(chain[0], s).Got? then NamesItself(chain[0], s) else NamedByTheFirst(chain[1..], s)
  }

  lemma {:induction false} NamedStands(items: seq<Item>, s: string, secid: Option<string -> string>)
    ensures Find(items, s).Some? ==> Standing(items, s, secid).Some?
  {
    if items != [] {
      NamedStands(items[1..], s, secid);
    }
  }

  /** Asked for one symbol, a source that answers at all has what stands for it. */
  lemma HasWhatStands(source: Source, has: Stock, s: string)
    requires PerSymbol(source, has, [s]) && OneAnswer(source, s).Got?
    ensures has(s) == Renamed(Standing(source.collect([s]).items, s, source.secid), s, source.name)
  {
    var answer := BatchAnswer(source, [s]);
    assert Brings(answer, [s], has);
    if source.secid.Some? {
      TranslatedBrings(source, source.collect([s]), [s], [s]);
    } else {
      StampedFinds(source.collect([s]).items, source.name, s);
      StandingWithoutOwn(source.collect([s]).items, s);
    }
  }

  /** Failing over symbol by symbol never translates, so it gives the item of the first source
      that has it, as the progressive batch does, exactly when the first source that answers
      names the asked symbol itself. */
  lemma {:induction false} SingleFailoverIsFirstHavingIff(chain: seq<Source>, stocks: seq<Stock>, s: string)
    requires AllPerSymbol(chain, stocks, [s])
    ensures FirstAnswering(chain, s) == FirstHaving(stocks, s) <==> NamedByTheFirst(chain, s)
  {
    if chain != [] {
      if OneAnswer(chain[0], s).Got? {
        var items := chain[0].collect([s]).items;
        HasWhatStands(chain[0], stocks[0], s);
        NamedStands(items, s, chain[0].secid);
        FindFinds(items, s);
        FirstHavingHasTheSymbol(chain, stocks, s);
        assert FirstAnswering(chain, s) == Some(OneAnswer(chain[0], s).value);
        if Find(items, s).Some? {
          assert FirstHaving(stocks, s) == stocks[0](s);
        }
      } else {
        assert Brings(BatchAnswer(chain[0], [s]), [s], stocks[0]);
        SingleFailoverIsFirstHavingIff(chain[1..], stocks[1..], s);
      }
    }
  }

  lemma {:induction false} FirstHavingHasTheSymbol(chain: seq<Source>, stocks: seq<Stock>, s: string)
    requires AllPerSymbol(chain, stocks, [s])
    ensures FirstHaving(stocks, s).Some? ==> FirstHaving(stocks, s).value.symbol == s
  {
    if chain != [] {
      var answer := BatchAnswer(chain[0], [s]);
      assert Brings(answer, [s], stocks[0]);
      if answer.Got? {
        FindFinds(answer.value, s);
      }
      FirstHavingHasTheSymbol(chain[1..], stocks[1..], s);
    }
  }

  /** So the two agree on every chain whose sources answer under the asked symbols. */
  lemma {:induction false} PlainChainsAgree(chain: seq<Source>, stocks: seq<Stock>, s: string)
    requires AllPerSymbol(chain, stocks, [s]) && forall source :: source in chain ==> source.secid.None?
    ensures NamedByTheFirst(chain, s) && FirstAnswering(chain, s) == FirstHaving(stocks, s)
  {
    if chain != [] {
      if OneAnswer(chain[0], s).Got? {
        PlainAnswerNames(chain[0], stocks[0], s);
      } else {
        PlainChainsAgree(chain[1..], stocks[1..], s);
      }
    }
    SingleFailoverIsFirstHavingIff(chain, stocks, s);
  }

  lemma PlainAnswerNames(source: Source, has: Stock, s: string)
    requires PerSymbol(source, has, [s]) && source.secid.None? && OneAnswer(source, s).Got?
    ensures NamesItself(source, s)
  {
    var items, answer := source.collect([s]).items, BatchAnswer(source, [s]);
    assert Brings(answer, [s], has);
    assert answer.value[0] in answer.value && answer.value[0].symbol == items[0].symbol;
    StandingWithoutOwn(items, s);
  }

  // Sources that do not answer

  /** Not registered, or never successful: every call raises, fails or brings nothing. */
  ghost predicate Silent(source: Source) {
    !source.registered || forall asked ::
      var answer := source.collect(asked); answer.CollectRaised? || !answer.success || answer.items == []
  }

  /** Such a source makes no difference to a batch, wherever in the chain it stands. */
  lemma {:induction false} SilentSourceIsSkipped(before: seq<Source>, source: Source, after: seq<Source>, symbols: seq<string>, merged: seq<Item>)
    requires Silent(source)
    ensures MergedFrom(before + [source] + after, symbols, merged) == MergedFrom(before + after, symbols, merged)
    decreases before
  {
    var chain := before + [source] + after;
    if before == [] {
      assert chain[0] == source && chain[1..] == after && before + after == after;
    } else {
      assert chain[1..] == before[1..] + [source] + after && (before + after)[1..] == before[1..] + after;
      var answer := BatchAnswer(before[0], Missing(symbols, merged));
      SilentSourceIsSkipped(before[1..], source, after, symbols, if answer.Got? then MergedItems(merged, answer.value) else merged);
    }
  }

  /** Nor to failing over for a single symbol. */
  lemma {:induction false} SilentSourceIsPassedOver(before: seq<Source>, source: Source, after: seq<Source>, s: string)
    requires Silent(source)
    ensures FirstAnswering(before + [source] + after, s) == FirstAnswering(before + after, s)
    decreases before
  {
    var chain := before + [source] + after;
    if before == [] {
      assert chain[0] == source && chain[1..] == after && before + after == after;
    } else {
      assert chain[1..] == before[1..] + [source] + after && (before + after)[1..] == before[1..] + after;
      SilentSourceIsPassedOver(before[1..], source, after, s);
    }
  }

  /** A source is only ever asked for symbols that no earlier one has given: what it would
      answer to any other list makes no difference. */
  lemma {:induction false} OnlyTheMissingAreAsked(before: seq<Source>, source: Source, other: Source, after: seq<Source>,
                                                  symbols: seq<string>, merged: seq<Item>)
    requires other == source.(collect := other.collect)
    requires var given := MergedFrom(before, symbols, merged);
      forall asked :: (forall s :: s in asked ==> s in symbols && Find(given, s).None?) ==> other.collect(asked) == source.collect(asked)
    ensures MergedFrom(before + [source] + after, symbols, merged) == MergedFrom(before + [other] + after, symbols, merged)
    decreases before
  {
    var missing := Missing(symbols, merged);
    var chain, chain' := before + [source] + after, before + [other] + after;
    if before == [] {
      forall s | s in missing ensures s in symbols && Find(merged, s).None? {
        MissingIsExact(symbols, merged, s);
      }
      assert chain[0] == source && chain[1..] == after && chain'[0] == other && chain'[1..] == after;
    } else if missing != [] {
      var answer := BatchAnswer(before[0], missing);
      assert chain[1..] == before[1..] + [source] + after && chain'[1..] == before[1..] + [other] + after;
      OnlyTheMissingAreAsked(before[1..], source, other, after, symbols, if answer.Got? then MergedItems(merged, answer.value) else merged);
    }
  }

  // The chain that the code builds for indices, and for Chinese stocks: eastmoney comes first,
  // and whatever is asked it answers with its one list of indices

  const CN_MARKET_INDICES: set<string> := {"1.000001", "0.399001", "1.000300", "1.000016", "0.399006"}

  const INDEX_SYMBOLS: seq<string> := ["^GSPC", "^DJI", "^IXIC", "000001.SS", "399001.SZ", "000300.SS",
                                       "^HSI", "^N225", "^FTSE", "^GDAXI", "^FCHI", "^KS11", "^BSESN"]

  predicate EndsWith(text: string, part: string) {
    |part| <= |text| && text[|text| - |part|..] == part
  }

  /** Every occurrence taken out, from the left. */
  function Without(text: string, part: string): string
    requires part != []
    decreases |text|
  {
    if text == [] then []
    else if part <= text then Without(text[|part|..], part)
    else [text[0]] + Without(text[1..], part)
  }

  function ConvertSymbolToSecid(symbol: string): string {
    if symbol in CN_MARKET_INDICES then symbol
    else if EndsWith(symbol, ".SS") then "1." + Without(symbol, ".SS")
    else if EndsWith(symbol, ".SZ") then "0." + Without(symbol, ".SZ")
    else symbol
  }

  function EastMoney(answer: Collected): Source {
    Source("eastmoney", true, _ => answer, Some(ConvertSymbolToSecid))
  }

  function IndexStock(answer: Collected): Stock {
    RawStock(answer, "eastmoney", Some(ConvertSymbolToSecid))
  }

  lemma EastMoneyIsPerSymbol(answer: Collected, symbols: seq<string>)
    requires Separate(symbols, ConvertSymbolToSecid)
    ensures PerSymbol(EastMoney(answer), IndexStock(answer), symbols)
  {
    FixedAnswerIsPerSymbol(EastMoney(answer), answer, symbols);
  }

  lemma {:induction false} WithoutTheSuffix(code: string, suffix: string)
    requires suffix != [] && suffix[0] !in code
    ensures Without(code + suffix, suffix) == code
  {
    if code == [] {
      assert code + suffix == suffix && suffix[|suffix|..] == [];
    } else {
      assert (code + suffix)[0] == code[0] && code[0] in code && (code + suffix)[1..] == code[1..] + suffix;
      WithoutTheSuffix(code[1..], suffix);
    }
  }

  /** A code without a point, and the suffix of its exchange. */
  predicate Coded(symbol: string, suffix: string) {
    EndsWith(symbol, suffix) && '.' !in symbol[..|symbol| - |suffix|]
  }

  /** A symbol in the notation the service uses: no point in second place, and at most the
      suffix of a Chinese exchange. */
  predicate Standard(symbol: string) {
    && |symbol| > 1 && symbol[1] != '.'
    && (Coded(symbol, ".SS") || Coded(symbol, ".SZ") || (!EndsWith(symbol, ".SS") && !EndsWith(symbol, ".SZ")))
  }

  /** The converted symbol is the symbol itself, or can be read back. */
  predicate ReadsBack(symbol: string, secid: string) {
    secid == symbol || (|secid| > 1 && secid[1] == '.' && symbol == secid[2..] + if secid[0] == '1' then ".SS" else ".SZ")
  }

  lemma StandardReadsBack(symbol: string)
    requires Standard(symbol)
    ensures ReadsBack(symbol, ConvertSymbolToSecid(symbol))
  {
    assert forall i :: i in CN_MARKET_INDICES ==> i[1] == '.';
    if EndsWith(symbol, ".SS") || EndsWith(symbol, ".SZ") {
      var code, suffix := symbol[..|symbol| - 3], symbol[|symbol| - 3..];
      assert symbol == code + suffix;
      WithoutTheSuffix(code, suffix);
      assert ("1." + code)[2..] == code && ("0." + code)[2..] == code;
    }
  }

  lemma StandardIsSeparate(symbols: seq<string>)
    requires forall s :: s in symbols ==> Standard(s)
    ensures Separate(symbols, ConvertSymbolToSecid)
  {
    forall s, t | s in symbols && t in symbols && (ConvertSymbolToSecid(s) == ConvertSymbolToSecid(t) || ConvertSymbolToSecid(s) == t)
      ensures s == t
    {
      StandardReadsBack(s);
      StandardReadsBack(t);
    }
  }

  lemma CodedIsStandard(code: string, suffix: string)
    requires |code| > 1 && '.' !in code && suffix in {".SS", ".SZ"}
    ensures Standard(code + suffix)
  {
    assert code[1] in code && (code + suffix)[..|code|] == code && (code + suffix)[|code|..] == suffix;
  }

  lemma IndexSymbolsAreStandard(s: string)
    requires s in INDEX_SYMBOLS
    ensures Standard(s)
  {
    CodedIsStandard("000001", ".SS");
    CodedIsStandard("399001", ".SZ");
    CodedIsStandard("000300", ".SS");
    assert "000001" + ".SS" == "000001.SS" && "399001" + ".SZ" == "399001.SZ" && "000300" + ".SS" == "000300.SS";
  }

  /** Indices as the code fetches them: whatever list eastmoney returns, each standard symbol
      gets the item from there if the list has it, and that of the second source otherwise. */
  lemma EastMoneyComesFirst(answer: Collected, second: Source, has: Stock, symbols: seq<string>)
    requires (forall s :: s in symbols ==> Standard(s)) && PerSymbol(second, has, symbols)
    ensures var merged, own := MergedFrom([EastMoney(answer), second], symbols, []), IndexStock(answer);
      && Proper(merged, symbols)
      && forall s :: s in symbols ==> Find(merged, s) == if own(s).Some? then own(s) else has(s)
  {
    var own := IndexStock(answer);
    var chain, stocks := [EastMoney(answer), second], [own, has];
    StandardIsSeparate(symbols);
    EastMoneyIsPerSymbol(answer, symbols);
    assert AllPerSymbol(chain, stocks, symbols);
    ProgressiveIsPerSymbol(chain, stocks, symbols);
    forall s | s in symbols ensures FirstHaving(stocks, s) == if own(s).Some? then own(s) else has(s) {
      FirstHavingOfTwo(own, has, s);
    }
  }

  lemma FirstHavingOfTwo(first: Stock, second: Stock, s: string)
    ensures FirstHaving([first, second], s) == if first(s).Some? then first(s) else second(s)
  {
    assert [first, second][1..] == [second] && [second][1..] == [];
    assert FirstHaving([second], s) == second(s);
  }

  lemma AllPerSymbolFrom(source: Source, has: Stock, rest: seq<Source>, stocks: seq<Stock>, symbols: seq<string>)
    requires PerSymbol(source, has, symbols) && AllPerSymbol(rest, stocks, symbols)
    ensures AllPerSymbol([source] + rest, [has] + stocks, symbols)
  {
  }

  /** Asked for one symbol that its list does not name, eastmoney gives the first index of the
      list instead, as it is, and no later source is tried. */
  lemma IndexListHidesTheSymbol(items: seq<Item>, rest: seq<Source>, stocks: seq<Stock>, s: string)
    requires items != [] && Find(items, s).None? && AllPerSymbol(rest, stocks, [s])
    ensures var chain, has := [EastMoney(Collected(true, items))] + rest, [IndexStock(Collected(true, items))] + stocks;
      && AllPerSymbol(chain, has, [s])
      && FirstAnswering(chain, s) == Some(items[0]) && items[0].symbol != s
      && FirstAnswering(chain, s) != FirstHaving(has, s)
  {
    var eastmoney, own := EastMoney(Collected(true, items)), IndexStock(Collected(true, items));
    EastMoneyIsPerSymbol(Collected(true, items), [s]);
    AllPerSymbolFrom(eastmoney, own, rest, stocks, [s]);
    FindFinds(items, s);
    assert items[0] in items;
    SingleFailoverIsFirstHavingIff([eastmoney] + rest, [own] + stocks, s);
  }

  /** So a Chinese stock that eastmoney's list does not have and the second source has
      becomes an index. */
  lemma StockBecomesAnIndex(items: seq<Item>, second: Source, has: Stock, stock: string)
    requires items != [] && Standing(items, stock, Some(ConvertSymbolToSecid)).None?
    requires PerSymbol(second, has, [stock]) && has(stock).Some?
    ensures var answer := Collected(true, items);
      && FirstAnswering([EastMoney(answer), second], stock) == Some(items[0]) && items[0].symbol != stock
      && FirstHaving([IndexStock(answer), has], stock) == has(stock) && has(stock).value.symbol == stock
  {
    var eastmoney, own := EastMoney(Collected(true, items)), IndexStock(Collected(true, items));
    NamedStands(items, stock, Some(ConvertSymbolToSecid));
    IndexListHidesTheSymbol(items, [second], [has], stock);
    assert [eastmoney] + [second] == [eastmoney, second];
    FirstHavingOfTwo(own, has, stock);
    FirstHavingHasTheSymbol([second], [has], stock);
    assert [has][1..] == [];
  }

  lemma MoutaiIsNoIndex(index: Item)
    requires index.symbol == "1.000001"
    ensures Standing([index], "600519.SS", Some(ConvertSymbolToSecid)).None?
  {
    var stock := "600519.SS";
    CodedIsStandard("600519", ".SS");
    assert "600519" + ".SS" == stock && stock[0] == '6';
    StandardReadsBack(stock);
    assert [index][1..] == [];
  }
}
