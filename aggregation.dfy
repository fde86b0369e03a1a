/** `pnl` of calculator.py: folds the enriched lots into one bucket per
    stock plus a 'TOTAL' bucket, then derives each bucket's percentages. */
module Aggregation {
  import opened Records

  const TotalKey: string := "TOTAL"

  /** The four running sums of one bucket. */
  datatype Bucket = Bucket(realized: real, unrealized: real,
                           realizedInvestment: real, unrealizedInvestment: real)

  /** A bucket once the percentages have been added. */
  datatype Summary = Summary(realized: real, unrealized: real,
                             realizedInvestment: real, unrealizedInvestment: real,
                             realizedPnl: real, unrealizedPnl: real)

  const Empty: Bucket := Bucket(0.0, 0.0, 0.0, 0.0)

  /** Every lot carries the `profit` key that `cagr` adds. */
  predicate Enriched(lots: seq<Lot>)
  {
    forall i :: 0 <= i < |lots| ==> lots[i].metrics.Some?
  }

  /** What a lot's amount `x` contributes to the bucket `key`: `x` once into
      its stock's bucket and once into 'TOTAL'.  A stock that is itself named
      'TOTAL' shares that bucket, so its lots are added into it twice. */
  function Routed(lot: Lot, key: string, x: real): real
  {
    (if lot.stock == key then x else 0.0) + (if key == TotalKey then x else 0.0)
  }

  /** The profit routed to bucket `key` by the lots with `realized == r`. */
  function ProfitSum(lots: seq<Lot>, key: string, r: bool): real
    requires Enriched(lots)
  {
    if lots == [] then 0.0
    else
      var last := lots[|lots| - 1];
      ProfitSum(lots[..|lots| - 1], key, r)
        + if last.realized == r then Routed(last, key, last.metrics.value.profit) else 0.0
  }

  /** The money a lot put in: `buy_price * quantity`. */
  function Investment(lot: Lot): real
  {
    lot.buyPrice * lot.quantity
  }

  /** The investment routed to bucket `key` by the
      lots with `realized == r`. */
  function InvestmentSum(lots: seq<Lot>, key: string, r: bool): real
  {
    if lots == [] then 0.0
    else
      var last := lots[|lots| - 1];
      InvestmentSum(lots[..|lots| - 1], key, r)
        + if last.realized == r then Routed(last, key, Investment(last)) else 0.0
  }

  function BucketOf(lots: seq<Lot>, key: string): Bucket
    requires Enriched(lots)
  {
    Bucket(ProfitSum(lots, key, true), ProfitSum(lots, key, false),
           InvestmentSum(lots, key, true), InvestmentSum(lots, key, false))
  }

  /** The keys of the result: every lot's stock, and 'TOTAL' once there is a
      lot at all. */
  function Keys(lots: seq<Lot>): set<string>
  {
    (set lot | lot in lots :: lot.stock) + if lots == [] then {} else {TotalKey}
  }

  /** `0.0 if investment == 0 else profit / investment`. */
  function Ratio(profit: real, investment: real): (r: real)
    ensures investment == 0.0 ==> r == 0.0
    ensures investment != 0.0 ==> r * investment == profit
  {
    if investment == 0.0 then 0.0 else profit / investment
  }

  function Summarize(b: Bucket): Summary
  {
    Summary(b.realized, b.unrealized, b.realizedInvestment, b.unrealizedInvestment,
            Ratio(b.realized, b.realizedInvestment), Ratio(b.unrealized, b.unrealizedInvestment))
  }

  /** Adds one lot's profit and investment to a bucket. */
  function Add(b: Bucket, realized: bool, profit: real, investment: real): Bucket
  {
    if realized then b.(realized := b.realized + profit,
                        realizedInvestment := b.realizedInvestment + investment)
    else b.(unrealized := b.unrealized + profit,
            unrealizedInvestment := b.unrealizedInvestment + investment)
  }

  /** A key that no lot has been routed to has an empty bucket. */
  lemma {:induction false} UnseenKey(lots: seq<Lot>, key: string)
    requires Enriched(lots)
    requires key !in Keys(lots)
    ensures BucketOf(lots, key) == Empty
  {
    if lots != [] {
      var p := lots[..|lots| - 1];
      assert lots == p + [lots[|lots| - 1]];
      assert Keys(p) <= Keys(lots);
      UnseenKey(p, key);
    }
  }

  /** The bucket `key` of the dict, an empty one when absent. */
  function Get(buckets: map<string, Bucket>, key: string): Bucket
  {
    if key in buckets then buckets[key] else Empty
  }

  /** One lot added into its stock's bucket, then into the 'TOTAL' bucket. */
  function AddLot(buckets: map<string, Bucket>, lot: Lot): (r: map<string, Bucket>)
    requires lot.metrics.Some?
    ensures r.Keys == buckets.Keys + {lot.stock, TotalKey}
    ensures forall key :: key in buckets && key != lot.stock && key != TotalKey ==> r[key] == buckets[key]
  {
    var once := buckets[lot.stock := Add(Get(buckets, lot.stock), lot.realized, lot.metrics.value.profit, Investment(lot))];
    once[TotalKey := Add(Get(once, TotalKey), lot.realized, lot.metrics.value.profit, Investment(lot))]
  }

  /** The dict holds the bucket of every key of the lots. */
  predicate BucketsOf(buckets: map<string, Bucket>, lots: seq<Lot>)
    requires Enriched(lots)
  {
    && buckets.Keys == Keys(lots)
    && forall key :: key in buckets ==> buckets[key] == BucketOf(lots, key)
  }

  lemma EnrichedPrefix(lots: seq<Lot>, lot: Lot)
    requires Enriched(lots + [lot])
    ensures Enriched(lots) && lot.metrics.Some?
  {
    assert (lots + [lot])[|lots|] == lot;
    forall i | 0 <= i < |lots| ensures lots[i].metrics.Some? {
      assert (lots + [lot])[i] == lots[i];
    }
  }

  /** One more lot adds its routed profit and investment to every sum. */
  lemma SumsStep(lots: seq<Lot>, lot: Lot, key: string, r: bool)
    requires Enriched(lots + [lot])
    ensures Enriched(lots) && lot.metrics.Some?
    ensures ProfitSum(lots + [lot], key, r)
         == ProfitSum(lots, key, r) + if lot.realized == r then Routed(lot, key, lot.metrics.value.profit) else 0.0
    ensures InvestmentSum(lots + [lot], key, r)
         == InvestmentSum(lots, key, r) + if lot.realized == r then Routed(lot, key, Investment(lot)) else 0.0
  {
    EnrichedPrefix(lots, lot);
    assert (lots + [lot])[..|lots|] == lots;
  }

  /** One more lot: its stock's bucket and the 'TOTAL' bucket get it added
      (twice when they are the same bucket), every other bucket is
      unchanged. */
  lemma OneMoreLot(lots: seq<Lot>, lot: Lot, key: string)
    requires Enriched(lots + [lot])
    ensures Enriched(lots) && lot.metrics.Some?
    ensures var profit, investment := lot.metrics.value.profit, Investment(lot);
            (BucketOf(lots + [lot], key)
             == if lot.stock != key && key != TotalKey then BucketOf(lots, key)
                else if lot.stock != key || key != TotalKey then Add(BucketOf(lots, key), lot.realized, profit, investment)
                else Add(Add(BucketOf(lots, key), lot.realized, profit, investment), lot.realized, profit, investment))
  {
    SumsStep(lots, lot, key, true);
    SumsStep(lots, lot, key, false);
  }

  lemma KeysStep(lots: seq<Lot>, lot: Lot)
    ensures Keys(lots + [lot]) == Keys(lots) + {lot.stock, TotalKey}
  {
    assert (lots + [lot])[|lots|] == lot;
    assert forall l :: l in lots + [lot] <==> l in lots || l == lot;
  }

  /** Adding one more lot keeps the dict describing the lots. */
  lemma AddLotStep(lots: seq<Lot>, lot: Lot, buckets: map<string, Bucket>)
    requires Enriched(lots + [lot])
    requires Enriched(lots) ==> BucketsOf(buckets, lots)
    ensures Enriched(lots) && lot.metrics.Some?
    ensures BucketsOf(AddLot(buckets, lot), lots + [lot])
  {
    EnrichedPrefix(lots, lot);
    KeysStep(lots, lot);
    var after := AddLot(buckets, lot);
    forall key | key in after ensures after[key] == BucketOf(lots + [lot], key) {
      OneMoreLot(lots, lot, key);
      if key !in buckets {
        UnseenKey(lots, key);
      }
    }
  }

  /** What `pnl` gives: the dict of summaries, or the KeyError that reading
      `profit` raises on the first lot that `cagr` has not enriched. */
  datatype PnlResult = Table(pnl: map<string, Summary>) | MissingProfit(index: nat)

  /** `pnl(transactions)`: one summary per stock and one for 'TOTAL', each
      holding its bucket's sums and their ratios. */
  method Pnl(transactions: seq<Lot>) returns (result: PnlResult)
    ensures result.MissingProfit? ==>
              && result.index < |transactions|
              && transactions[result.index].metrics.None?
              && Enriched(transactions[..result.index])
    ensures result.Table? ==>
              && Enriched(transactions)
              && result.pnl.Keys == Keys(transactions)
              && (forall key :: key in result.pnl ==> result.pnl[key] == Summarize(BucketOf(transactions, key)))
    ensures transactions == [] ==> result == Table(map[])
  {
    var buckets, missing := Accumulate(transactions);
    if missing < |transactions| {
      return MissingProfit(missing);
    }
    var pnl := Percentages(buckets);
    return Table(pnl);
  }

  /** The second loop of `pnl`: each bucket gets its two ratios, 0.0 where
      the investment is zero.  The dict's key order does not matter, as
      every key is visited once. */
  method Percentages(buckets: map<string, Bucket>) returns (pnl: map<string, Summary>)
    ensures pnl.Keys == buckets.Keys
    ensures forall key :: key in pnl ==> pnl[key] == Summarize(buckets[key])
  {
    pnl := map[];
    var remaining := buckets.Keys;
    while remaining != {}
      invariant remaining <= buckets.Keys
      invariant pnl.Keys == buckets.Keys - remaining
      invariant forall key :: key in pnl ==> pnl[key] == Summarize(buckets[key])
      decreases remaining
    {
      var stock :| stock in remaining;
      var stockPnl := buckets[stock];
      var realizedPnl := if stockPnl.realizedInvestment == 0.0 then 0.0
                         else stockPnl.realized / stockPnl.realizedInvestment;
      var unrealizedPnl := if stockPnl.unrealizedInvestment == 0.0 then 0.0
                           else stockPnl.unrealized / stockPnl.unrealizedInvestment;
      pnl := pnl[stock := Summary(stockPnl.realized, stockPnl.unrealized,
                                  stockPnl.realizedInvestment, stockPnl.unrealizedInvestment,
                                  realizedPnl, unrealizedPnl)];
      remaining := remaining - {stock};
    }
  }

  /** The body of the first loop of `pnl`: the lot is added into its stock's
      bucket and then into the 'TOTAL' bucket, each created empty on first
      use. */
  method AddTransaction(buckets: map<string, Bucket>, tran: Lot) returns (buckets': map<string, Bucket>)
    requires tran.metrics.Some?
    ensures buckets' == AddLot(buckets, tran)
  {
    buckets' := buckets;
    var stock := tran.stock;
    if stock !in buckets' {
      buckets' := buckets'[stock := Empty];
    }
    if TotalKey !in buckets' {
      buckets' := buckets'[TotalKey := Empty];
    }
    var profit := tran.metrics.value.profit;
    var investment := tran.buyPrice * tran.quantity;
    assert investment == Investment(tran);
    assert buckets'[stock] == Get(buckets, stock);
    buckets' := buckets'[stock := Add(buckets'[stock], tran.realized, profit, investment)];
    ghost var once := buckets[stock := Add(Get(buckets, stock), tran.realized, profit, investment)];
    assert buckets'[TotalKey] == Get(once, TotalKey);
    buckets' := buckets'[TotalKey := Add(buckets'[TotalKey], tran.realized, profit, investment)];
    // map equality, key by key
    ghost var twice := AddLot(buckets, tran);
    assert buckets'.Keys == twice.Keys;
    assert forall k :: k in twice ==> buckets'[k] == twice[k];
  }

  /** The first loop of `pnl`.  It stops at the first lot without a
      `profit` key (`missing` is its position, `|transactions|` when every
      lot has one). */
  method Accumulate(transactions: seq<Lot>) returns (buckets: map<string, Bucket>, missing: nat)
    ensures missing <= |transactions| && Enriched(transactions[..missing])
    ensures missing < |transactions| ==> transactions[missing].metrics.None?
    ensures missing == |transactions| ==>
              && Enriched(transactions)
              && buckets.Keys == Keys(transactions)
              && (forall key :: key in buckets ==> buckets[key] == BucketOf(transactions, key))
  {
    buckets := map[];
    for i := 0 to |transactions|
      invariant Enriched(transactions[..i]) && BucketsOf(buckets, transactions[..i])
    {
      var tran := transactions[i];
      if tran.metrics.None? {
        return buckets, i;
      }
      PrefixStep(transactions, i);
      EnrichedStep(transactions[..i], tran);
      AddLotStep(transactions[..i], tran, buckets);
      buckets := AddTransaction(buckets, tran);
    }
    assert transactions[..|transactions|] == transactions;
    missing := |transactions|;
  }

  /** An enriched lot after enriched lots. */
  lemma EnrichedStep(lots: seq<Lot>, lot: Lot)
    requires Enriched(lots) && lot.metrics.Some?
    ensures Enriched(lots + [lot])
  {
    assert forall i :: 0 <= i < |lots| ==> (lots + [lot])[i] == lots[i];
  }

  // ---------------------------------------------------------------------
  // What the buckets hold
  // ---------------------------------------------------------------------

  /** The lots of one stock, in order. */
  function LotsOf(lots: seq<Lot>, stock: string): (r: seq<Lot>)
    ensures forall lot :: lot in r ==> lot in lots
  {
    if lots == [] then []
    else
      var last := lots[|lots| - 1];
      LotsOf(lots[..|lots| - 1], stock) + if last.stock == stock then [last] else []
  }

  /** The plain sum of the profits of the lots with `realized == r`. */
  function Profits(lots: seq<Lot>, r: bool): real
    requires Enriched(lots)
  {
    if lots == [] then 0.0
    else
      var last := lots[|lots| - 1];
      Profits(lots[..|lots| - 1], r) + if last.realized == r then last.metrics.value.profit else 0.0
  }

  /** The plain sum of `buy_price * quantity` of the lots with `realized == r`. */
  function Investments(lots: seq<Lot>, r: bool): real
  {
    if lots == [] then 0.0
    else
      var last := lots[|lots| - 1];
      Investments(lots[..|lots| - 1], r) + if last.realized == r then Investment(last) else 0.0
  }

  lemma {:induction false} LotsOfEnriched(lots: seq<Lot>, stock: string)
    requires Enriched(lots)
    ensures Enriched(LotsOf(lots, stock))
  {
    if lots != [] {
      LotsOfEnriched(lots[..|lots| - 1], stock);
    }
  }

  /** A stock's bucket holds the sums over that stock's lots; the 'TOTAL'
      bucket holds the sums over all lots, plus once more over the lots of a
      stock named 'TOTAL'. */
  lemma BucketSums(lots: seq<Lot>, key: string, r: bool)
    requires Enriched(lots)
    ensures Enriched(LotsOf(lots, key))
    ensures ProfitSum(lots, key, r)
         == Profits(LotsOf(lots, key), r) + if key == TotalKey then Profits(lots, r) else 0.0
    ensures InvestmentSum(lots, key, r)
         == Investments(LotsOf(lots, key), r) + if key == TotalKey then Investments(lots, r) else 0.0
  {
    LotsOfEnriched(lots, key);
    ProfitSums(lots, key, r);
    InvestmentSums(lots, key, r);
  }

  lemma {:induction false} ProfitSums(lots: seq<Lot>, key: string, r: bool)
    requires Enriched(lots)
    ensures Enriched(LotsOf(lots, key))
    ensures ProfitSum(lots, key, r)
         == Profits(LotsOf(lots, key), r) + if key == TotalKey then Profits(lots, r) else 0.0
  {
    LotsOfEnriched(lots, key);
    if lots != [] {
      var p, last := lots[..|lots| - 1], lots[|lots| - 1];
      assert lots == p + [last];
      SumsStep(p, last, key, r);
      SumsOneMore(p, last, r);
      ProfitSums(p, key, r);
      LotsOfEnriched(p, key);
      if last.stock == key {
        SumsOneMore(LotsOf(p, key), last, r);
      } else {
        assert LotsOf(lots, key) == LotsOf(p, key) + [] == LotsOf(p, key);
      }
    }
  }

  lemma {:induction false} InvestmentSums(lots: seq<Lot>, key: string, r: bool)
    requires Enriched(lots)
    ensures InvestmentSum(lots, key, r)
         == Investments(LotsOf(lots, key), r) + if key == TotalKey then Investments(lots, r) else 0.0
  {
    if lots != [] {
      var p, last := lots[..|lots| - 1], lots[|lots| - 1];
      assert lots == p + [last];
      SumsStep(p, last, key, r);
      SumsOneMore(p, last, r);
      InvestmentSums(p, key, r);
      LotsOfEnriched(lots, key);
      LotsOfEnriched(p, key);
      if last.stock == key {
        SumsOneMore(LotsOf(p, key), last, r);
      } else {
        assert LotsOf(lots, key) == LotsOf(p, key) + [] == LotsOf(p, key);
      }
    }
  }

  /** The plain sums over one more lot. */
  lemma SumsOneMore(lots: seq<Lot>, lot: Lot, r: bool)
    requires Enriched(lots + [lot])
    ensures Enriched(lots) && lot.metrics.Some?
    ensures Profits(lots + [lot], r) == Profits(lots, r) + if lot.realized == r then lot.metrics.value.profit else 0.0
    ensures Investments(lots + [lot], r) == Investments(lots, r) + if lot.realized == r then Investment(lot) else 0.0
  {
    EnrichedPrefix(lots, lot);
    assert (lots + [lot])[..|lots|] == lots;
  }

  /** With no stock named 'TOTAL', the 'TOTAL' bucket is exactly the sum of
      the profits and of the investments over all realized (resp.
      unrealized) lots. */
  lemma TotalBucket(lots: seq<Lot>, r: bool)
    requires Enriched(lots)
    requires forall lot :: lot in lots ==> lot.stock != TotalKey
    ensures ProfitSum(lots, TotalKey, r) == Profits(lots, r)
    ensures InvestmentSum(lots, TotalKey, r) == Investments(lots, r)
  {
    BucketSums(lots, TotalKey, r);
    NoTotalLots(lots);
  }

  lemma {:induction false} NoTotalLots(lots: seq<Lot>)
    requires forall lot :: lot in lots ==> lot.stock != TotalKey
    ensures LotsOf(lots, TotalKey) == []
  {
    if lots != [] {
      assert forall lot :: lot in lots[..|lots| - 1] ==> lot in lots;
      NoTotalLots(lots[..|lots| - 1]);
    }
  }
}
