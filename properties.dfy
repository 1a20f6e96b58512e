/**
 * What a caller of the routine can rely on: the shape of the result, the
 * totals of each entry in terms of the input, and the bonuses the standard
 * formula hands out.
 */
module SalesProperties {
  import opened SalesTypes
  import opened Accumulation
  import opened Sorting
  import opened Analysis
  import Formulas

  function ResultId(r: SellerResult): string { r.seller_id }

  function StatsId(s: SellerStats): string { s.id }

  function SellerId(s: Seller): string { s.id }

  /**
   * `out` projects the accumulators `ranked` place by place, with the
   * formula's bonuses: the ordering that `IsReport` says exists.
   */
  ghost predicate ProjectsRanking(out: seq<SellerResult>, ranked: seq<SellerStats>, calculateBonus: BonusFn)
  {
    && |out| == |ranked|
    && forall i :: 0 <= i < |out| ==> Reports(out[i], ranked[i], calculateBonus(i, |ranked|, ranked[i]))
  }

  /** `r` reports one of the accumulators `accs`, with its own bonus. */
  ghost predicate ReportsOneOf(r: SellerResult, accs: seq<SellerStats>)
  {
    exists k :: 0 <= k < |accs| && Reports(r, accs[k], r.bonus)
  }

  /** Some entry of `out` reports the accumulator `a`, with its own bonus. */
  ghost predicate ReportedBySome(out: seq<SellerResult>, a: SellerStats)
  {
    exists i :: 0 <= i < |out| && Reports(out[i], a, out[i].bonus)
  }

  /**
   * A report has one entry per accumulator, in non-increasing order of
   * profit; its seller ids are those of the accumulators, each as often;
   * each entry carries the figures of one accumulator and a top-ten list
   * of its products.
   */
  lemma ReportShape(out: seq<SellerResult>, accs: seq<SellerStats>, calculateBonus: BonusFn)
    requires IsReport(out, accs, calculateBonus)
    ensures |out| == |accs|
    ensures forall i, j :: 0 <= i < j < |out| ==> out[i].profit >= out[j].profit
    ensures multiset(Map(out, ResultId)) == multiset(Map(accs, StatsId))
    ensures forall i :: 0 <= i < |out| ==> |out[i].top_products| <= 10
    ensures forall i :: 0 <= i < |out| ==> ReportsOneOf(out[i], accs)
    ensures forall k :: 0 <= k < |accs| ==> ReportedBySome(out, accs[k])
  {
    var ranked: seq<SellerStats> :| && multiset(ranked) == multiset(accs)
                  && DescendingBy(ranked, Profit)
                  && ProjectsRanking(out, ranked, calculateBonus);
    assert |ranked| == |accs| by {
      assert |multiset(ranked)| == |multiset(accs)|;
    }
    RankingOrderAndSize(out, ranked, calculateBonus);
    RankingIds(out, ranked, accs, calculateBonus);
    RankingEntries(out, ranked, accs, calculateBonus);
    RankingCovers(out, ranked, accs, calculateBonus);
  }

  /** Every accumulator is reported by some entry of the projection of a permutation of them. */
  lemma RankingCovers(out: seq<SellerResult>, ranked: seq<SellerStats>, accs: seq<SellerStats>, calculateBonus: BonusFn)
    requires multiset(ranked) == multiset(accs) && ProjectsRanking(out, ranked, calculateBonus)
    ensures forall k :: 0 <= k < |accs| ==> ReportedBySome(out, accs[k])
  {
    forall k | 0 <= k < |accs|
      ensures ReportedBySome(out, accs[k])
    {
      assert accs[k] in multiset(ranked);
      var i :| 0 <= i < |ranked| && ranked[i] == accs[k];
      assert Reports(out[i], ranked[i], calculateBonus(i, |ranked|, ranked[i]));
    }
  }

  /** Projecting a ranking keeps its profit order and cuts every top list to ten. */
  lemma RankingOrderAndSize(out: seq<SellerResult>, ranked: seq<SellerStats>, calculateBonus: BonusFn)
    requires DescendingBy(ranked, Profit) && ProjectsRanking(out, ranked, calculateBonus)
    ensures forall i, j :: 0 <= i < j < |out| ==> out[i].profit >= out[j].profit
    ensures forall i :: 0 <= i < |out| ==> |out[i].top_products| <= 10
  {
    forall i, j | 0 <= i < j < |out|
      ensures out[i].profit >= out[j].profit
    {
      assert Profit(ranked[i]) >= Profit(ranked[j]);
    }
    forall i | 0 <= i < |out|
      ensures |out[i].top_products| <= 10
    {
      assert Reports(out[i], ranked[i], calculateBonus(i, |ranked|, ranked[i]));
      assert IsTopProducts(out[i].top_products, ranked[i].products_sold);
    }
  }

  /** Projecting a permutation of the accumulators keeps their ids, each as often. */
  lemma RankingIds(out: seq<SellerResult>, ranked: seq<SellerStats>, accs: seq<SellerStats>, calculateBonus: BonusFn)
    requires multiset(ranked) == multiset(accs) && ProjectsRanking(out, ranked, calculateBonus)
    ensures multiset(Map(out, ResultId)) == multiset(Map(accs, StatsId))
  {
    assert Map(out, ResultId) == Map(ranked, StatsId);
    MapPermutation(ranked, accs, StatsId);
  }

  /** Every entry of the projection of a permutation of the accumulators reports one of them. */
  lemma {:induction false} RankingEntries(out: seq<SellerResult>, ranked: seq<SellerStats>, accs: seq<SellerStats>, calculateBonus: BonusFn)
    requires multiset(ranked) == multiset(accs) && ProjectsRanking(out, ranked, calculateBonus)
    ensures forall i :: 0 <= i < |out| ==> ReportsOneOf(out[i], accs)
  {
    forall i | 0 <= i < |out|
      ensures ReportsOneOf(out[i], accs)
    {
      assert ranked[i] in multiset(accs);
      var k :| 0 <= k < |accs| && accs[k] == ranked[i];
      assert Reports(out[i], accs[k], out[i].bonus);
    }
  }

  /**
   * `r` carries the figures of seller `k`: its id and full name, the number
   * and total amount of the records credited to it, their line profit, and
   * a top-ten list whose skus appear on those records with the quantities
   * sold there.
   */
  ghost predicate SellerFigures(r: SellerResult, sellers: seq<Seller>, products: seq<Product>,
                                records: seq<PurchaseRecord>, calculateRevenue: RevenueFn, k: int)
    requires 0 <= k < |sellers|
  {
    var index, catalogue := SellerIndex(InitialStats(sellers)), ProductIndex(products);
    && r.seller_id == sellers[k].id && r.name == FullName(sellers[k])
    && r.sales_count == RecordCount(records, index, k)
    && r.revenue == RecordRevenue(records, index, k)
    && r.profit == RecordProfit(records, index, catalogue, calculateRevenue, k)
    && forall p :: p in r.top_products ==>
         p.sku in RecordSkus(records, index, catalogue, k) &&
         p.quantity == RecordQuantity(records, index, catalogue, k, p.sku)
  }

  /** `r` carries the figures of one of the sellers. */
  ghost predicate FiguresOfSomeSeller(r: SellerResult, sellers: seq<Seller>, products: seq<Product>,
                                      records: seq<PurchaseRecord>, calculateRevenue: RevenueFn)
  {
    exists k :: 0 <= k < |sellers| && SellerFigures(r, sellers, products, records, calculateRevenue, k)
  }

  /** Some entry of `out` carries the figures of seller `k`. */
  ghost predicate SellerReported(out: seq<SellerResult>, sellers: seq<Seller>, products: seq<Product>,
                                 records: seq<PurchaseRecord>, calculateRevenue: RevenueFn, k: int)
    requires 0 <= k < |sellers|
  {
    exists i :: 0 <= i < |out| && SellerFigures(out[i], sellers, products, records, calculateRevenue, k)
  }

  /** An entry that reports on seller `k`'s accumulator carries seller `k`'s figures. */
  lemma EntryFigures(r: SellerResult, sellers: seq<Seller>, products: seq<Product>,
                     records: seq<PurchaseRecord>, calculateRevenue: RevenueFn, k: nat, bonus: real)
    requires k < |sellers|
    requires Reports(r, Accumulate(sellers, products, records, calculateRevenue)[k], bonus)
    ensures SellerFigures(r, sellers, products, records, calculateRevenue, k)
  {
    var a := Accumulate(sellers, products, records, calculateRevenue)[k];
    AccumulateTotals(sellers, products, records, calculateRevenue, k);
    forall p | p in r.top_products
      ensures p.sku in a.products_sold && p.quantity == Sold(a.products_sold, p.sku)
    {
      var j :| 0 <= j < |r.top_products| && r.top_products[j] == p;
    }
  }

  /**
   * The routine's result, in terms of its input: one entry per seller, the
   * seller ids as often as in the input, each entry the figures of one
   * seller, and every seller's figures in some entry.
   */
  lemma {:induction false} ResultPerSeller(data: Option<Input>, calculateRevenue: RevenueFn,
                                           calculateBonus: BonusFn, out: seq<SellerResult>)
    requires WellFormed(data)
    requires IsReport(out, Accumulate(data.value.sellers.value, data.value.products.value,
                                      data.value.purchase_records.value, calculateRevenue), calculateBonus)
    ensures |out| == |data.value.sellers.value|
    ensures multiset(Map(out, ResultId)) == multiset(Map(data.value.sellers.value, SellerId))
    ensures forall i :: 0 <= i < |out| ==>
              FiguresOfSomeSeller(out[i], data.value.sellers.value, data.value.products.value,
                                  data.value.purchase_records.value, calculateRevenue)
    ensures forall k :: 0 <= k < |data.value.sellers.value| ==>
              SellerReported(out, data.value.sellers.value, data.value.products.value,
                             data.value.purchase_records.value, calculateRevenue, k)
  {
    var sellers, products, records := data.value.sellers.value, data.value.products.value, data.value.purchase_records.value;
    var accs := Accumulate(sellers, products, records, calculateRevenue);
    ReportShape(out, accs, calculateBonus);
    AccumulatedIds(sellers, products, records, calculateRevenue);
    EntriesFigures(sellers, products, records, calculateRevenue, calculateBonus, out);
    SellersCovered(sellers, products, records, calculateRevenue, calculateBonus, out);
  }

  /** Every seller's figures are carried by some entry of a report on the accumulators. */
  lemma {:induction false} SellersCovered(sellers: seq<Seller>, products: seq<Product>, records: seq<PurchaseRecord>,
                                          calculateRevenue: RevenueFn, calculateBonus: BonusFn, out: seq<SellerResult>)
    requires IsReport(out, Accumulate(sellers, products, records, calculateRevenue), calculateBonus)
    ensures forall k :: 0 <= k < |sellers| ==> SellerReported(out, sellers, products, records, calculateRevenue, k)
  {
    var accs := Accumulate(sellers, products, records, calculateRevenue);
    ReportShape(out, accs, calculateBonus);
    forall k | 0 <= k < |sellers|
      ensures SellerReported(out, sellers, products, records, calculateRevenue, k)
    {
      SellerCovered(out, sellers, products, records, calculateRevenue, k);
    }
  }

  /** The entry that reports seller `k`'s accumulator carries seller `k`'s figures. */
  lemma SellerCovered(out: seq<SellerResult>, sellers: seq<Seller>, products: seq<Product>,
                      records: seq<PurchaseRecord>, calculateRevenue: RevenueFn, k: int)
    requires 0 <= k < |sellers|
    requires ReportedBySome(out, Accumulate(sellers, products, records, calculateRevenue)[k])
    ensures SellerReported(out, sellers, products, records, calculateRevenue, k)
  {
    var a := Accumulate(sellers, products, records, calculateRevenue)[k];
    var i :| 0 <= i < |out| && Reports(out[i], a, out[i].bonus);
    EntryFigures(out[i], sellers, products, records, calculateRevenue, k, out[i].bonus);
  }

  /** Every entry of a report on the accumulators carries the figures of some seller. */
  lemma {:induction false} EntriesFigures(sellers: seq<Seller>, products: seq<Product>, records: seq<PurchaseRecord>,
                                          calculateRevenue: RevenueFn, calculateBonus: BonusFn, out: seq<SellerResult>)
    requires IsReport(out, Accumulate(sellers, products, records, calculateRevenue), calculateBonus)
    ensures forall i :: 0 <= i < |out| ==> FiguresOfSomeSeller(out[i], sellers, products, records, calculateRevenue)
  {
    var accs := Accumulate(sellers, products, records, calculateRevenue);
    ReportShape(out, accs, calculateBonus);
    forall i | 0 <= i < |out|
      ensures FiguresOfSomeSeller(out[i], sellers, products, records, calculateRevenue)
    {
      EntryOfSomeSeller(out[i], sellers, products, records, calculateRevenue);
    }
  }

  /** An entry that reports one of the accumulators carries the figures of that accumulator's seller. */
  lemma EntryOfSomeSeller(r: SellerResult, sellers: seq<Seller>, products: seq<Product>,
                          records: seq<PurchaseRecord>, calculateRevenue: RevenueFn)
    requires ReportsOneOf(r, Accumulate(sellers, products, records, calculateRevenue))
    ensures FiguresOfSomeSeller(r, sellers, products, records, calculateRevenue)
  {
    var accs := Accumulate(sellers, products, records, calculateRevenue);
    var k :| 0 <= k < |accs| && Reports(r, accs[k], r.bonus);
    EntryFigures(r, sellers, products, records, calculateRevenue, k, r.bonus);
  }

  /** The accumulators carry the sellers' ids, in the sellers' order. */
  lemma AccumulatedIds(sellers: seq<Seller>, products: seq<Product>, records: seq<PurchaseRecord>,
                       calculateRevenue: RevenueFn)
    ensures Map(Accumulate(sellers, products, records, calculateRevenue), StatsId) == Map(sellers, SellerId)
  {
    var accs := Accumulate(sellers, products, records, calculateRevenue);
    forall k | 0 <= k < |sellers|
      ensures accs[k].id == sellers[k].id
    {
      AccumulateTotals(sellers, products, records, calculateRevenue, k);
    }
  }
  /**
   * With the standard bonus formula, the result's bonuses follow the
   * schedule by place: 15 percent of profit for the first, 10 percent for
   * the second and third (even when third is last), nothing for a last
   * place from the fourth on, and 5 percent for every other place.
   */
  lemma StandardBonuses(out: seq<SellerResult>, accs: seq<SellerStats>)
    requires IsReport(out, accs, Formulas.BonusByProfit)
    ensures |out| >= 1 ==> out[0].bonus == out[0].profit * 0.15
    ensures |out| >= 2 ==> out[1].bonus == out[1].profit * 0.10
    ensures |out| >= 3 ==> out[2].bonus == out[2].profit * 0.10
    ensures |out| >= 4 ==> out[|out| - 1].bonus == 0.0
    ensures forall i :: 3 <= i < |out| - 1 ==> out[i].bonus == out[i].profit * 0.05
  {
    var ranked: seq<SellerStats> :| && multiset(ranked) == multiset(accs)
                  && DescendingBy(ranked, Profit)
                  && |out| == |ranked|
                  && forall i :: 0 <= i < |out| ==>
                       Reports(out[i], ranked[i], Formulas.BonusByProfit(i, |ranked|, ranked[i]));
  }

  /**
   * With the standard bonus formula and no seller at a loss, no seller
   * receives a larger bonus than a seller ranked above it.
   */
  lemma StandardBonusesFollowRanking(out: seq<SellerResult>, accs: seq<SellerStats>)
    requires IsReport(out, accs, Formulas.BonusByProfit)
    requires forall k :: 0 <= k < |accs| ==> accs[k].profit >= 0.0
    ensures forall i, j :: 0 <= i < j < |out| ==> out[i].bonus >= out[j].bonus
  {
    var ranked: seq<SellerStats> :| && multiset(ranked) == multiset(accs)
                  && DescendingBy(ranked, Profit)
                  && ProjectsRanking(out, ranked, Formulas.BonusByProfit);
    forall i, j | 0 <= i < j < |out|
      ensures out[i].bonus >= out[j].bonus
    {
      assert ranked[j] in multiset(accs);
      var k :| 0 <= k < |accs| && accs[k] == ranked[j];
      ProjectedBonus(out, ranked, Formulas.BonusByProfit, i);
      ProjectedBonus(out, ranked, Formulas.BonusByProfit, j);
      RankedBonusesFall(ranked, i, j);
    }
  }

  /** Entry `i` of the projection of a ranking carries the bonus the formula gives place `i`. */
  lemma ProjectedBonus(out: seq<SellerResult>, ranked: seq<SellerStats>, calculateBonus: BonusFn, i: int)
    requires ProjectsRanking(out, ranked, calculateBonus) && 0 <= i < |out|
    ensures out[i].bonus == calculateBonus(i, |ranked|, ranked[i])
  {
    assert Reports(out[i], ranked[i], calculateBonus(i, |ranked|, ranked[i]));
  }

  /**
   * In a ranking by profit whose lower place has no loss, the standard
   * bonus of the higher place is at least that of the lower one.
   */
  lemma RankedBonusesFall(ranked: seq<SellerStats>, i: int, j: int)
    requires DescendingBy(ranked, Profit)
    requires 0 <= i < j < |ranked| && ranked[j].profit >= 0.0
    ensures Formulas.BonusByProfit(i, |ranked|, ranked[i]) >= Formulas.BonusByProfit(j, |ranked|, ranked[j])
  {
    var n := |ranked|;
    var pi, pj := ranked[i].profit, ranked[j].profit;
    assert Profit(ranked[i]) >= Profit(ranked[j]);
    Formulas.BonusFallsWithRank(i, j, n, ranked[i]);
    // The rate of place j applied to the smaller profit pj gives no more.
    var rate: real := if j == 0 then 0.15 else if (j == 1 && n > 1) || (j == 2 && n > 2) then 0.10
                      else if j == n - 1 then 0.0 else 0.05;
    assert Formulas.BonusByProfit(j, n, ranked[j]) == pj * rate;
    assert Formulas.BonusByProfit(j, n, ranked[i]) == pi * rate;
    assert pj * rate <= pi * rate;
  }
}
