/**
 * What the routine computes before it ranks anybody: one accumulator per
 * seller, the two lookup dictionaries, and the fold of the purchase records
 * into the accumulators. These functions follow the order in which the
 * routine visits records and lines; the methods of module Analysis are
 * proved to compute them, and the lemmas here say what they amount to.
 */
module Accumulation {
  import opened SalesTypes

  /** The revenue formula the caller plugs in, given a line and its product. */
  type RevenueFn = (Item, Product) -> real

  /** A seller's display name: first name, a space, last name. */
  function FullName(s: Seller): (name: string)
    ensures |name| == |s.first_name| + 1 + |s.last_name|
    ensures name[..|s.first_name|] == s.first_name && name[|s.first_name|] == ' '
    ensures name[|s.first_name| + 1..] == s.last_name
  {
    s.first_name + " " + s.last_name
  }

  /** One zeroed accumulator per seller, in input order. */
  function InitialStats(sellers: seq<Seller>): (stats: seq<SellerStats>)
    ensures |stats| == |sellers|
    ensures forall k :: 0 <= k < |sellers| ==>
              && stats[k].id == sellers[k].id && stats[k].name == FullName(sellers[k])
              && stats[k].revenue == 0.0 && stats[k].profit == 0.0 && stats[k].sales_count == 0
              && stats[k].products_sold == map[]
  {
    seq(|sellers|, k requires 0 <= k < |sellers| =>
      SellerStats(sellers[k].id, FullName(sellers[k]), 0.0, 0.0, 0, map[]))
  }

  /** Every position stored in `index` is a position of a sequence of length `n`. */
  ghost predicate IndexInRange(index: map<string, nat>, n: nat)
  {
    forall id :: id in index ==> index[id] < n
  }

  /**
   * The dictionary from seller id to the position of its accumulator. Every
   * id is present; when two sellers share an id, the later one is stored.
   */
  function SellerIndex(stats: seq<SellerStats>): (index: map<string, nat>)
    ensures forall id :: id in index ==> index[id] < |stats| && stats[index[id]].id == id
    ensures forall k :: 0 <= k < |stats| ==> stats[k].id in index && k <= index[stats[k].id]
    decreases |stats|
  {
    if stats == [] then map[]
    else
      var n := |stats| - 1;
      SellerIndex(stats[..n])[stats[n].id := n]
  }

  /** No product after position `k` has the sku of `products[k]`. */
  ghost predicate LastWithSku(products: seq<Product>, k: int)
    requires 0 <= k < |products|
  {
    forall j :: k < j < |products| ==> products[j].sku != products[k].sku
  }

  /** The dictionary from sku to product card: each card stored under its sku, later cards last. */
  function ProductIndex(products: seq<Product>): (index: map<string, Product>)
    ensures forall sku :: sku in index ==> index[sku].sku == sku
    ensures |products| > 0 ==>
              (products[|products| - 1].sku in index && index[products[|products| - 1].sku] == products[|products| - 1])
    decreases |products|
  {
    if products == [] then map[]
    else
      var n := |products| - 1;
      ProductIndex(products[..n])[products[n].sku := products[n]]
  }

  /** Every card in the dictionary is a card of the catalogue, stored under its own sku. */
  lemma {:induction false} ProductIndexSound(products: seq<Product>)
    ensures var index := ProductIndex(products);
      forall sku :: sku in index ==> index[sku].sku == sku && index[sku] in products
    decreases |products|
  {
    if products != [] {
      var n := |products| - 1;
      ProductIndexSound(products[..n]);
      var index := ProductIndex(products);
      forall sku | sku in index
        ensures index[sku].sku == sku && index[sku] in products
      {
        if sku != products[n].sku {
          assert index[sku] == ProductIndex(products[..n])[sku];
          assert index[sku] in products[..n];
        }
      }
    }
  }

  /**
   * Every sku of the catalogue is in the dictionary; when two cards share a
   * sku, the later one is stored.
   */
  lemma {:induction false} ProductIndexComplete(products: seq<Product>)
    ensures var index := ProductIndex(products);
      forall k :: 0 <= k < |products| ==>
        products[k].sku in index && (LastWithSku(products, k) ==> index[products[k].sku] == products[k])
    decreases |products|
  {
    if products != [] {
      var n := |products| - 1;
      var prefix := products[..n];
      ProductIndexComplete(prefix);
      forall k | 0 <= k < n
        ensures products[k].sku in ProductIndex(products)
        ensures LastWithSku(products, k) ==> ProductIndex(products)[products[k].sku] == products[k]
      {
        assert prefix[k] == products[k];
        if LastWithSku(products, k) {
          assert LastWithSku(prefix, k);
        }
      }
    }
  }

  /**
   * One line folded into a seller's accumulator: a line whose sku has no
   * product card is skipped; otherwise its revenue minus its cost is added
   * to the profit and its quantity to the sku's count.
   */
  function ApplyItem(acc: SellerStats, item: Item, products: map<string, Product>, calculateRevenue: RevenueFn)
    : (r: SellerStats)
    ensures r.id == acc.id && r.name == acc.name && r.revenue == acc.revenue && r.sales_count == acc.sales_count
    ensures item.sku !in products ==> r == acc
    ensures item.sku in products ==>
              r.products_sold.Keys == acc.products_sold.Keys + {item.sku} &&
              Sold(r.products_sold, item.sku) == Sold(acc.products_sold, item.sku) + item.quantity
    ensures r.profit == acc.profit + LinesProfit([item], products, calculateRevenue)
    ensures forall sku :: sku != item.sku ==> Sold(r.products_sold, sku) == Sold(acc.products_sold, sku)
  {
    assert [item][..0] == [];
    if item.sku !in products then acc
    else
      var product := products[item.sku];
      var revenue := calculateRevenue(item, product);
      var cost := product.purchase_price * item.quantity;
      acc.(profit := acc.profit + (revenue - cost),
           products_sold := acc.products_sold[item.sku := Sold(acc.products_sold, item.sku) + item.quantity])
  }

  /** The lines of one record folded in, first to last. */
  function ApplyItems(acc: SellerStats, items: seq<Item>, products: map<string, Product>, calculateRevenue: RevenueFn)
    : (r: SellerStats)
    ensures r.id == acc.id && r.name == acc.name && r.revenue == acc.revenue && r.sales_count == acc.sales_count
    ensures acc.products_sold.Keys <= r.products_sold.Keys
    decreases |items|
  {
    if items == [] then acc
    else
      var n := |items| - 1;
      ApplyItem(ApplyItems(acc, items[..n], products, calculateRevenue), items[n], products, calculateRevenue)
  }

  /**
   * One purchase record folded in: skipped when its seller is unknown;
   * otherwise its total is added to the seller's revenue, its lines are
   * folded in and the seller's record count goes up by one.
   */
  function ApplyRecord(stats: seq<SellerStats>, index: map<string, nat>, products: map<string, Product>,
                       record: PurchaseRecord, calculateRevenue: RevenueFn): (r: seq<SellerStats>)
    requires IndexInRange(index, |stats|)
    ensures |r| == |stats|
    ensures forall j :: 0 <= j < |stats| ==> r[j].id == stats[j].id && r[j].name == stats[j].name
    ensures forall j :: 0 <= j < |stats| && !Routed(record, index, j) ==> r[j] == stats[j]
    ensures forall j :: 0 <= j < |stats| && Routed(record, index, j) ==>
              && r[j].sales_count == stats[j].sales_count + 1
              && r[j].revenue == stats[j].revenue + record.total_amount
              && r[j].profit == stats[j].profit + LinesProfit(record.items, products, calculateRevenue)
              && r[j].products_sold.Keys == stats[j].products_sold.Keys + LinesSkus(record.items, products)
              && forall sku :: Sold(r[j].products_sold, sku) ==
                               Sold(stats[j].products_sold, sku) + LinesQuantity(record.items, products, sku)
  {
    if record.seller_id !in index then stats
    else
      var k := index[record.seller_id];
      var seller := stats[k].(revenue := stats[k].revenue + record.total_amount);
      ApplyItemsEffect(seller, record.items, products, calculateRevenue);
      var seller' := ApplyItems(seller, record.items, products, calculateRevenue);
      stats[k := seller'.(sales_count := seller'.sales_count + 1)]
  }

  /** The records folded in, first to last. */
  function ApplyRecords(stats: seq<SellerStats>, index: map<string, nat>, products: map<string, Product>,
                        records: seq<PurchaseRecord>, calculateRevenue: RevenueFn): (r: seq<SellerStats>)
    requires IndexInRange(index, |stats|)
    ensures |r| == |stats|
    ensures forall j :: 0 <= j < |stats| ==> r[j].id == stats[j].id && r[j].name == stats[j].name
    ensures forall j :: 0 <= j < |stats| ==> r[j].sales_count >= stats[j].sales_count
    decreases |records|
  {
    if records == [] then stats
    else
      var n := |records| - 1;
      ApplyRecord(ApplyRecords(stats, index, products, records[..n], calculateRevenue), index, products, records[n], calculateRevenue)
  }

  /** The accumulators after every record has been folded in, in seller order. */
  function Accumulate(sellers: seq<Seller>, products: seq<Product>, records: seq<PurchaseRecord>,
                      calculateRevenue: RevenueFn): (r: seq<SellerStats>)
    ensures |r| == |sellers|
  {
    var stats := InitialStats(sellers);
    ApplyRecords(stats, SellerIndex(stats), ProductIndex(products), records, calculateRevenue)
  }

  // ----- Reference definitions: the totals, written as plain sums -----

  /** Revenue minus cost summed over the lines whose sku has a product card. */
  function LinesProfit(items: seq<Item>, products: map<string, Product>, calculateRevenue: RevenueFn): real
    decreases |items|
  {
    if items == [] then 0.0
    else
      var n := |items| - 1;
      var item := items[n];
      LinesProfit(items[..n], products, calculateRevenue) +
        (if item.sku in products
         then calculateRevenue(item, products[item.sku]) - products[item.sku].purchase_price * item.quantity
         else 0.0)
  }

  /** Quantity summed over the lines with sku `sku`, when that sku has a product card. */
  function LinesQuantity(items: seq<Item>, products: map<string, Product>, sku: string): real
    decreases |items|
  {
    if items == [] then 0.0
    else
      var n := |items| - 1;
      LinesQuantity(items[..n], products, sku) +
        (if items[n].sku == sku && sku in products then items[n].quantity else 0.0)
  }

  /** The skus of the lines that have a product card. */
  function LinesSkus(items: seq<Item>, products: map<string, Product>): set<string>
  {
    set i | 0 <= i < |items| && items[i].sku in products :: items[i].sku
  }

  /** `record` is credited to the accumulator at position `k`. */
  predicate Routed(record: PurchaseRecord, index: map<string, nat>, k: nat)
  {
    record.seller_id in index && index[record.seller_id] == k
  }

  /** Number of records credited to position `k`. */
  function RecordCount(records: seq<PurchaseRecord>, index: map<string, nat>, k: nat): nat
    decreases |records|
  {
    if records == [] then 0
    else
      var n := |records| - 1;
      RecordCount(records[..n], index, k) + (if Routed(records[n], index, k) then 1 else 0)
  }

  /** Sum of the `total_amount` of the records credited to position `k`. */
  function RecordRevenue(records: seq<PurchaseRecord>, index: map<string, nat>, k: nat): real
    decreases |records|
  {
    if records == [] then 0.0
    else
      var n := |records| - 1;
      RecordRevenue(records[..n], index, k) + (if Routed(records[n], index, k) then records[n].total_amount else 0.0)
  }

  /** Line profit summed over the records credited to position `k`. */
  function RecordProfit(records: seq<PurchaseRecord>, index: map<string, nat>, products: map<string, Product>,
                        calculateRevenue: RevenueFn, k: nat): real
    decreases |records|
  {
    if records == [] then 0.0
    else
      var n := |records| - 1;
      RecordProfit(records[..n], index, products, calculateRevenue, k) +
        (if Routed(records[n], index, k) then LinesProfit(records[n].items, products, calculateRevenue) else 0.0)
  }

  /** Quantity of `sku` summed over the records credited to position `k`. */
  function RecordQuantity(records: seq<PurchaseRecord>, index: map<string, nat>, products: map<string, Product>,
                          k: nat, sku: string): real
    decreases |records|
  {
    if records == [] then 0.0
    else
      var n := |records| - 1;
      RecordQuantity(records[..n], index, products, k, sku) +
        (if Routed(records[n], index, k) then LinesQuantity(records[n].items, products, sku) else 0.0)
  }

  /** The skus with a product card on the records credited to position `k`. */
  function RecordSkus(records: seq<PurchaseRecord>, index: map<string, nat>, products: map<string, Product>,
                      k: nat): set<string>
    decreases |records|
  {
    if records == [] then {}
    else
      var n := |records| - 1;
      RecordSkus(records[..n], index, products, k) +
        (if Routed(records[n], index, k) then LinesSkus(records[n].items, products) else {})
  }

  // ----- What the fold amounts to -----

  /**
   * Folding in the lines of a record changes only the profit, which grows by
   * the lines' profit, and the products sold, which gain exactly the
   * quantities of the lines with a product card.
   */
  lemma {:induction false} ApplyItemsEffect(acc: SellerStats, items: seq<Item>, products: map<string, Product>,
                                            calculateRevenue: RevenueFn)
    ensures var r := ApplyItems(acc, items, products, calculateRevenue);
      && r.id == acc.id && r.name == acc.name && r.revenue == acc.revenue && r.sales_count == acc.sales_count
      && r.profit == acc.profit + LinesProfit(items, products, calculateRevenue)
      && r.products_sold.Keys == acc.products_sold.Keys + LinesSkus(items, products)
      && forall sku :: Sold(r.products_sold, sku) == Sold(acc.products_sold, sku) + LinesQuantity(items, products, sku)
    decreases |items|
  {
    if items != [] {
      var n := |items| - 1;
      ApplyItemsEffect(acc, items[..n], products, calculateRevenue);
      var item := items[n];
      assert LinesSkus(items, products) ==
        LinesSkus(items[..n], products) + (if item.sku in products then {item.sku} else {}) by {
        forall sku | sku in LinesSkus(items, products)
          ensures sku in LinesSkus(items[..n], products) || (item.sku in products && sku == item.sku)
        {
          var i :| 0 <= i < |items| && items[i].sku in products && items[i].sku == sku;
          if i < n {
            assert items[..n][i] == items[i];
          }
        }
        forall sku | sku in LinesSkus(items[..n], products)
          ensures sku in LinesSkus(items, products)
        {
          var i :| 0 <= i < n && items[..n][i].sku in products && items[..n][i].sku == sku;
          assert items[i] == items[..n][i];
        }
      }
    }
  }

  /** Lines none of whose skus has a product card leave the accumulator as it was. */
  lemma {:induction false} UnknownLinesChangeNothing(acc: SellerStats, items: seq<Item>, products: map<string, Product>,
                                                     calculateRevenue: RevenueFn)
    requires forall i :: 0 <= i < |items| ==> items[i].sku !in products
    ensures ApplyItems(acc, items, products, calculateRevenue) == acc
    decreases |items|
  {
    if items != [] {
      UnknownLinesChangeNothing(acc, items[..|items| - 1], products, calculateRevenue);
    }
  }

  /**
   * A record of a known seller whose lines all lack a product card still
   * adds its total to the revenue and one to the record count, and changes
   * nothing else.
   */
  lemma RecordWithUnknownSkus(stats: seq<SellerStats>, index: map<string, nat>, products: map<string, Product>,
                              record: PurchaseRecord, calculateRevenue: RevenueFn)
    requires IndexInRange(index, |stats|)
    requires record.seller_id in index
    requires forall i :: 0 <= i < |record.items| ==> record.items[i].sku !in products
    ensures var k := index[record.seller_id];
      ApplyRecord(stats, index, products, record, calculateRevenue) ==
        stats[k := stats[k].(revenue := stats[k].revenue + record.total_amount, sales_count := stats[k].sales_count + 1)]
  {
    var k := index[record.seller_id];
    UnknownLinesChangeNothing(stats[k].(revenue := stats[k].revenue + record.total_amount), record.items, products, calculateRevenue);
  }

  /** A record whose seller id is unknown changes no accumulator. */
  lemma UnknownSellerIgnored(stats: seq<SellerStats>, index: map<string, nat>, products: map<string, Product>,
                             records: seq<PurchaseRecord>, record: PurchaseRecord, calculateRevenue: RevenueFn)
    requires IndexInRange(index, |stats|)
    requires record.seller_id !in index
    ensures ApplyRecords(stats, index, products, records + [record], calculateRevenue) ==
            ApplyRecords(stats, index, products, records, calculateRevenue)
  {
    assert (records + [record])[..|records|] == records;
  }

  /**
   * After the fold, the accumulator at position `k` has gained exactly the
   * records credited to it: their number, their totals, their line profit,
   * and the quantity of every sku on their lines with a product card.
   */
  lemma {:induction false} ApplyRecordsEffect(stats: seq<SellerStats>, index: map<string, nat>, products: map<string, Product>,
                                              records: seq<PurchaseRecord>, calculateRevenue: RevenueFn, k: nat)
    requires IndexInRange(index, |stats|)
    requires k < |stats|
    ensures var r := ApplyRecords(stats, index, products, records, calculateRevenue)[k];
      && r.id == stats[k].id && r.name == stats[k].name
      && r.sales_count == stats[k].sales_count + RecordCount(records, index, k)
      && r.revenue == stats[k].revenue + RecordRevenue(records, index, k)
      && r.profit == stats[k].profit + RecordProfit(records, index, products, calculateRevenue, k)
      && r.products_sold.Keys == stats[k].products_sold.Keys + RecordSkus(records, index, products, k)
      && forall sku :: Sold(r.products_sold, sku) ==
                       Sold(stats[k].products_sold, sku) + RecordQuantity(records, index, products, k, sku)
    decreases |records|
  {
    if records != [] {
      var n := |records| - 1;
      var before := ApplyRecords(stats, index, products, records[..n], calculateRevenue);
      ApplyRecordsEffect(stats, index, products, records[..n], calculateRevenue, k);
      var record := records[n];
      if Routed(record, index, k) {
        var seller := before[k].(revenue := before[k].revenue + record.total_amount);
        ApplyItemsEffect(seller, record.items, products, calculateRevenue);
      }
    }
  }

  /**
   * The accumulators the routine ranks: seller `k`'s holds its id and full
   * name, the number and the total of the records credited to it, their
   * line profit, and for each sku the quantity sold on them.
   */
  lemma AccumulateTotals(sellers: seq<Seller>, products: seq<Product>, records: seq<PurchaseRecord>,
                         calculateRevenue: RevenueFn, k: nat)
    requires k < |sellers|
    ensures var index, catalogue := SellerIndex(InitialStats(sellers)), ProductIndex(products);
      var a := Accumulate(sellers, products, records, calculateRevenue)[k];
      && a.id == sellers[k].id && a.name == FullName(sellers[k])
      && a.sales_count == RecordCount(records, index, k)
      && a.revenue == RecordRevenue(records, index, k)
      && a.profit == RecordProfit(records, index, catalogue, calculateRevenue, k)
      && a.products_sold.Keys == RecordSkus(records, index, catalogue, k)
      && forall sku :: Sold(a.products_sold, sku) == RecordQuantity(records, index, catalogue, k, sku)
  {
    var stats := InitialStats(sellers);
    ApplyRecordsEffect(stats, SellerIndex(stats), ProductIndex(products), records, calculateRevenue, k);
  }
}
