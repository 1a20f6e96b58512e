/**
 * The routine itself: validate the input, build the accumulators and the
 * two dictionaries, fold the purchase records in, rank the sellers by
 * profit, give each a bonus and a top-ten list, and project the result.
 */
module Analysis {
  import opened SalesTypes
  import opened Accumulation
  import opened Sorting

  /** The bonus formula the caller plugs in, given a place, the number of sellers and the accumulator. */
  type BonusFn = (int, int, SellerStats) -> real

  /** An accumulator once the ranking step has given it a bonus and a top-products list. */
  datatype RankedSeller = RankedSeller(stats: SellerStats, bonus: real, top_products: seq<ProductSold>)

  function Profit(s: SellerStats): real { s.profit }

  function Quantity(p: ProductSold): real { p.quantity }

  /** The input is present and each of its three collections is a non-empty array. */
  predicate WellFormed(data: Option<Input>): (ok: bool)
    ensures ok ==> data.Some? && data.value.sellers.Some? && data.value.products.Some? && data.value.purchase_records.Some?
    ensures data.Some? && data.value.sellers.Some? && data.value.sellers.value == [] ==> !ok
    ensures data.Some? && data.value.products.Some? && data.value.products.value == [] ==> !ok
    ensures data.Some? && data.value.purchase_records.Some? && data.value.purchase_records.value == [] ==> !ok
  {
    && data.Some?
    && data.value.sellers.Some? && |data.value.sellers.value| > 0
    && data.value.products.Some? && |data.value.products.value| > 0
    && data.value.purchase_records.Some? && |data.value.purchase_records.value| > 0
  }

  /**
   * `top` is a top-ten list of `sold`: as many entries as `sold` has skus, at
   * most 10; each a sku of `sold` with its quantity, none twice; in
   * non-increasing order of quantity; and no sku left out sold more than
   * any sku listed.
   */
  ghost predicate IsTopProducts(top: seq<ProductSold>, sold: map<string, real>)
  {
    && |top| == (if |sold| < 10 then |sold| else 10)
    && (forall i :: 0 <= i < |top| ==> top[i].sku in sold && top[i].quantity == sold[top[i].sku])
    && (forall i, j :: 0 <= i < j < |top| ==> top[i].sku != top[j].sku)
    && DescendingBy(top, Quantity)
    && (forall sku :: sku in sold && (forall i :: 0 <= i < |top| ==> top[i].sku != sku) ==>
          forall i :: 0 <= i < |top| ==> top[i].quantity >= sold[sku])
  }

  /** `r` is the projection of the ranked accumulator `s` with bonus `bonus`. */
  ghost predicate Reports(r: SellerResult, s: SellerStats, bonus: real)
  {
    && r.seller_id == s.id && r.name == s.name
    && r.revenue == s.revenue && r.profit == s.profit && r.sales_count == s.sales_count
    && r.bonus == bonus
    && IsTopProducts(r.top_products, s.products_sold)
  }

  /**
   * `out` is a report on the accumulators `accs`: there is an ordering of
   * `accs` by non-increasing profit whose i-th accumulator `out[i]` projects,
   * with the bonus the formula gives place i of |accs|.
   */
  ghost predicate IsReport(out: seq<SellerResult>, accs: seq<SellerStats>, calculateBonus: BonusFn)
  {
    exists ranked: seq<SellerStats> ::
      && multiset(ranked) == multiset(accs)
      && DescendingBy(ranked, Profit)
      && |out| == |ranked|
      && forall i :: 0 <= i < |out| ==> Reports(out[i], ranked[i], calculateBonus(i, |ranked|, ranked[i]))
  }

  /** Records the place of every seller id, the later seller winning a shared id. */
  method IndexSellers(stats: seq<SellerStats>) returns (index: map<string, nat>)
    ensures index == SellerIndex(stats)
  {
    index := map[];
    for i := 0 to |stats|
      invariant index == SellerIndex(stats[..i])
    {
      assert stats[..i + 1][..i] == stats[..i];
      index := index[stats[i].id := i];
    }
    assert stats[..|stats|] == stats;
  }

  /** Records the card of every sku, the later card winning a shared sku. */
  method IndexProducts(products: seq<Product>) returns (index: map<string, Product>)
    ensures index == ProductIndex(products)
  {
    index := map[];
    for i := 0 to |products|
      invariant index == ProductIndex(products[..i])
    {
      assert products[..i + 1][..i] == products[..i];
      index := index[products[i].sku := products[i]];
    }
    assert products[..|products|] == products;
  }

  /**
   * Folds the purchase records into the accumulators, in order, updating
   * the accumulator of each record's seller field by field.
   */
  method FoldRecords(stats: seq<SellerStats>, sellerIndex: map<string, nat>, productIndex: map<string, Product>,
                     records: seq<PurchaseRecord>, calculateRevenue: RevenueFn) returns (result: seq<SellerStats>)
    requires IndexInRange(sellerIndex, |stats|)
    ensures result == ApplyRecords(stats, sellerIndex, productIndex, records, calculateRevenue)
  {
    result := stats;
    for r := 0 to |records|
      invariant result == ApplyRecords(stats, sellerIndex, productIndex, records[..r], calculateRevenue)
    {
      assert records[..r + 1][..r] == records[..r];
      var record := records[r];
      if record.seller_id in sellerIndex {
        var k := sellerIndex[record.seller_id];
        var seller := result[k];
        seller := seller.(revenue := seller.revenue + record.total_amount);
        seller := FoldItems(seller, record.items, productIndex, calculateRevenue);
        seller := seller.(sales_count := seller.sales_count + 1);
        result := result[k := seller];
      }
    }
    assert records[..|records|] == records;
  }

  /**
   * Folds the lines of one record into a seller's accumulator, in order.
   */
  method FoldItems(seller: SellerStats, items: seq<Item>, productIndex: map<string, Product>,
                   calculateRevenue: RevenueFn) returns (result: SellerStats)
    ensures result == ApplyItems(seller, items, productIndex, calculateRevenue)
  {
    result := seller;
    for j := 0 to |items|
      invariant result == ApplyItems(seller, items[..j], productIndex, calculateRevenue)
    {
      assert items[..j + 1][..j] == items[..j];
      result := FoldItem(result, items[j], productIndex, calculateRevenue);
    }
    assert items[..|items|] == items;
  }

  /**
   * One line folded into a seller's accumulator: a line whose sku has a
   * product card adds its revenue minus its cost to the profit and its
   * quantity to the sku's count; any other line is skipped.
   */
  method FoldItem(seller: SellerStats, item: Item, productIndex: map<string, Product>,
                  calculateRevenue: RevenueFn) returns (result: SellerStats)
    ensures result == ApplyItem(seller, item, productIndex, calculateRevenue)
  {
    result := seller;
    if item.sku in productIndex {
      var product := productIndex[item.sku];
      var revenue := calculateRevenue(item, product);
      var cost := product.purchase_price * item.quantity;
      result := result.(profit := result.profit + (revenue - cost));
      var sold := if item.sku in result.products_sold then result.products_sold[item.sku] else 0.0;
      result := result.(products_sold := result.products_sold[item.sku := sold + item.quantity]);
    }
  }

  /** The skus listed in `entries`. */
  function SkusOf(entries: seq<ProductSold>): set<string>
  {
    set i | 0 <= i < |entries| :: entries[i].sku
  }

  lemma SkusOfAppend(entries: seq<ProductSold>, e: ProductSold)
    ensures SkusOf(entries + [e]) == SkusOf(entries) + {e.sku}
  {
    var s := entries + [e];
    forall sku | sku in SkusOf(s)
      ensures sku in SkusOf(entries) + {e.sku}
    {
      var i :| 0 <= i < |s| && s[i].sku == sku;
      if i < |entries| {
        assert entries[i] == s[i];
      }
    }
    forall sku | sku in SkusOf(entries) + {e.sku}
      ensures sku in SkusOf(s)
    {
      if sku == e.sku {
        assert s[|entries|] == e;
      } else {
        var i :| 0 <= i < |entries| && entries[i].sku == sku;
        assert s[i] == entries[i];
      }
    }
  }

  /** `entries` lists the (sku, quantity) pairs of `sold`, each sku once. */
  ghost predicate IsEntries(entries: seq<ProductSold>, sold: map<string, real>)
  {
    && |entries| == |sold|
    && SkusOf(entries) == sold.Keys
    && (forall i :: 0 <= i < |entries| ==> entries[i].sku in sold && entries[i].quantity == sold[entries[i].sku])
    && (forall i, j :: 0 <= i < j < |entries| ==> entries[i].sku != entries[j].sku)
  }

  /** The (sku, quantity) pairs of `sold`, each sku once, in no particular order. */
  method Entries(sold: map<string, real>) returns (entries: seq<ProductSold>)
    ensures IsEntries(entries, sold)
  {
    entries := [];
    var rest := sold.Keys;
    while rest != {}
      invariant rest <= sold.Keys
      invariant |entries| + |rest| == |sold.Keys|
      invariant SkusOf(entries) == sold.Keys - rest
      invariant forall i :: 0 <= i < |entries| ==> entries[i].sku in sold && entries[i].quantity == sold[entries[i].sku]
      invariant forall i, j :: 0 <= i < j < |entries| ==> entries[i].sku != entries[j].sku
      decreases |rest|
    {
      var sku :| sku in rest;
      AppendEntry(entries, sold, sku);
      entries := entries + [ProductSold(sku, sold[sku])];
      rest := rest - {sku};
    }
  }

  /**
   * Appending the entry of a sku of `sold` not yet listed keeps the entries
   * those of `sold`, each sku once, and adds the sku to those listed.
   */
  lemma AppendEntry(entries: seq<ProductSold>, sold: map<string, real>, sku: string)
    requires forall i :: 0 <= i < |entries| ==> entries[i].sku in sold && entries[i].quantity == sold[entries[i].sku]
    requires forall i, j :: 0 <= i < j < |entries| ==> entries[i].sku != entries[j].sku
    requires sku in sold && sku !in SkusOf(entries)
    ensures var entries' := entries + [ProductSold(sku, sold[sku])];
      && SkusOf(entries') == SkusOf(entries) + {sku}
      && (forall i :: 0 <= i < |entries'| ==> entries'[i].sku in sold && entries'[i].quantity == sold[entries'[i].sku])
      && (forall i, j :: 0 <= i < j < |entries'| ==> entries'[i].sku != entries'[j].sku)
  {
    var e := ProductSold(sku, sold[sku]);
    var entries' := entries + [e];
    SkusOfAppend(entries, e);
    forall i | 0 <= i < |entries|
      ensures entries[i].sku != sku
    {
      assert entries[i].sku in SkusOf(entries);
    }
    assert forall i :: 0 <= i < |entries| ==> entries'[i] == entries[i];
    assert entries'[|entries|] == e;
  }

  /**
   * A seller's top-ten list: the entries of `sold`, sorted by non-increasing
   * quantity, cut to the first 10.
   */
  method TopProducts(sold: map<string, real>) returns (top: seq<ProductSold>)
    ensures IsTopProducts(top, sold)
  {
    var entries := Entries(sold);
    var sorted := SortByKeyDescending(entries, Quantity);
    top := if |sorted| <= 10 then sorted else sorted[..10];
    SortedEntries(sold, entries, sorted);
    TopOfSorted(sold, sorted, top);
  }

  /** Keeping the first ten of the sorted entries gives a top-ten list. */
  lemma TopOfSorted(sold: map<string, real>, sorted: seq<ProductSold>, top: seq<ProductSold>)
    requires IsEntries(sorted, sold) && DescendingBy(sorted, Quantity)
    requires top == if |sorted| <= 10 then sorted else sorted[..10]
    ensures IsTopProducts(top, sold)
  {
    assert |top| == (if |sold| < 10 then |sold| else 10);
    assert forall i :: 0 <= i < |top| ==> top[i] == sorted[i];
    assert forall i :: 0 <= i < |top| ==> top[i].sku in sold && top[i].quantity == sold[top[i].sku];
    assert forall i, j :: 0 <= i < j < |top| ==> top[i].sku != top[j].sku;
    assert DescendingBy(top, Quantity);
    LeftOutSoldNoMore(sold, sorted, top);
  }

  /** No sku missing from the prefix `top` of the sorted entries sold more than a listed one. */
  lemma LeftOutSoldNoMore(sold: map<string, real>, sorted: seq<ProductSold>, top: seq<ProductSold>)
    requires IsEntries(sorted, sold) && DescendingBy(sorted, Quantity)
    requires |top| <= |sorted| && forall i :: 0 <= i < |top| ==> top[i] == sorted[i]
    ensures forall sku :: sku in sold && (forall i :: 0 <= i < |top| ==> top[i].sku != sku) ==>
              forall i :: 0 <= i < |top| ==> top[i].quantity >= sold[sku]
  {
    forall sku | sku in sold && (forall i :: 0 <= i < |top| ==> top[i].sku != sku)
      ensures forall i :: 0 <= i < |top| ==> top[i].quantity >= sold[sku]
    {
      assert sku in SkusOf(sorted);
      var m :| 0 <= m < |sorted| && sorted[m].sku == sku;
      NotListed(sorted, |top|, m);
      RankedAbove(sorted, |top|, m);
    }
  }

  /**
   * An entry whose sku differs from those of the first `n` entries lies at
   * or after position `n`. The body only names `sorted[m]`, which gives the
   * solver the term the precondition's quantifier needs to rule out `m < n`.
   */
  lemma NotListed(sorted: seq<ProductSold>, n: int, m: int)
    requires 0 <= n <= |sorted| && 0 <= m < |sorted|
    requires forall i :: 0 <= i < n ==> sorted[i].sku != sorted[m].sku
    ensures n <= m
  {
    ghost var entry := sorted[m];
  }

  /** In a sorted list every entry before position `n` has at least the quantity of any entry from `n` on. */
  lemma RankedAbove(sorted: seq<ProductSold>, n: int, m: int)
    requires DescendingBy(sorted, Quantity)
    requires 0 <= n <= m < |sorted|
    ensures forall i :: 0 <= i < n ==> sorted[i].quantity >= sorted[m].quantity
  {
    forall i | 0 <= i < n
      ensures sorted[i].quantity >= sorted[m].quantity
    {
      assert Quantity(sorted[i]) >= Quantity(sorted[m]);
    }
  }

  /** A permutation of the entries of `sold` is again a list of its entries. */
  lemma SortedEntries(sold: map<string, real>, entries: seq<ProductSold>, sorted: seq<ProductSold>)
    requires IsEntries(entries, sold)
    requires multiset(sorted) == multiset(entries)
    ensures IsEntries(sorted, sold)
  {
    assert |sorted| == |entries| by {
      assert |multiset(sorted)| == |multiset(entries)|;
    }
    forall i | 0 <= i < |sorted|
      ensures sorted[i].sku in sold && sorted[i].quantity == sold[sorted[i].sku]
    {
      assert sorted[i] in multiset(entries);
    }
    assert Distinct(entries);
    DistinctPermutation(entries, sorted);
    forall sku | sku in SkusOf(entries)
      ensures sku in SkusOf(sorted)
    {
      var e :| 0 <= e < |entries| && entries[e].sku == sku;
      assert entries[e] in multiset(sorted);
      var m :| 0 <= m < |sorted| && sorted[m] == entries[e];
    }
  }

  /**
   * Gives the seller at each place of the ranking its bonus and its
   * top-ten list.
   */
  method AssignBonuses(ranked: seq<SellerStats>, calculateBonus: BonusFn) returns (out: seq<RankedSeller>)
    ensures |out| == |ranked|
    ensures forall i :: 0 <= i < |ranked| ==>
              && out[i].stats == ranked[i]
              && out[i].bonus == calculateBonus(i, |ranked|, ranked[i])
              && IsTopProducts(out[i].top_products, ranked[i].products_sold)
  {
    out := [];
    for i := 0 to |ranked|
      invariant |out| == i
      invariant forall m :: 0 <= m < i ==>
                  && out[m].stats == ranked[m]
                  && out[m].bonus == calculateBonus(m, |ranked|, ranked[m])
                  && IsTopProducts(out[m].top_products, ranked[m].products_sold)
    {
      var seller := ranked[i];
      var bonus := calculateBonus(i, |ranked|, seller);
      var top := TopProducts(seller.products_sold);
      out := out + [RankedSeller(seller, bonus, top)];
    }
  }

  /** The output record of one ranked seller; the products-sold dictionary is dropped. */
  function Project(s: RankedSeller): (r: SellerResult)
    ensures r.top_products == s.top_products
    ensures IsTopProducts(s.top_products, s.stats.products_sold) ==> Reports(r, s.stats, s.bonus)
  {
    SellerResult(s.stats.id, s.stats.name, s.stats.revenue, s.stats.profit, s.stats.sales_count, s.top_products, s.bonus)
  }

  /**
   * The routine: fails exactly when the input is absent or one of its
   * three collections is not a non-empty array; otherwise returns a report
   * on the accumulators built from the input, ranked by profit.
   */
  method AnalyzeSalesData(data: Option<Input>, calculateRevenue: RevenueFn, calculateBonus: BonusFn)
    returns (res: Result<seq<SellerResult>>)
    ensures res.Failure? <==> !WellFormed(data)
    ensures res.Success? ==>
              && WellFormed(data)
              && IsReport(res.value,
                          Accumulate(data.value.sellers.value, data.value.products.value,
                                     data.value.purchase_records.value, calculateRevenue),
                          calculateBonus)
  {
    if !WellFormed(data) {
      return Failure(InvalidInput);
    }
    var sellers, products, records :=
      data.value.sellers.value, data.value.products.value, data.value.purchase_records.value;

    var stats := InitialStats(sellers);
    var sellerIndex := IndexSellers(stats);
    var productIndex := IndexProducts(products);
    stats := FoldRecords(stats, sellerIndex, productIndex, records, calculateRevenue);

    stats := SortByKeyDescending(stats, Profit);
    var ranked := AssignBonuses(stats, calculateBonus);

    var out := Map(ranked, Project);
    assert |out| == |stats|;
    assert forall i :: 0 <= i < |out| ==> Reports(out[i], stats[i], calculateBonus(i, |stats|, stats[i]));
    res := Success(out);
  }
}
