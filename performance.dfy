/** `cagr` of calculator.py: adds profit, pnl and duration to every matched
    lot, in place.  The CAGR value itself, a real power, is not modelled; the
    ZeroDivisionError its formula can raise is. */
module Performance {
  import opened Records

  /** `quantity * (sell_price - buy_price)`. */
  function Profit(lot: Lot): real
  {
    lot.quantity * (lot.sellPrice - lot.buyPrice)
  }

  /** `profit / (quantity * buy_price)`. */
  function PnlRatio(lot: Lot): real
    requires lot.quantity * lot.buyPrice != 0.0
  {
    Profit(lot) / (lot.quantity * lot.buyPrice)
  }

  /** `(sell_date - buy_date).days`. */
  function Days(lot: Lot): int
  {
    lot.sellDate - lot.buyDate
  }

  /** `days / 365`, in years. */
  function Duration(lot: Lot): real
  {
    Days(lot) as real / 365.0
  }

  /** The lot makes the loop raise ZeroDivisionError: `quantity * buy_price`
      is zero (the pnl division), the duration is zero (`1 / duration`), or
      the price ratio is zero and the exponent negative (`0.0 ** negative`). */
  predicate Raises(lot: Lot)
  {
    || lot.quantity * lot.buyPrice == 0.0
    || Days(lot) == 0
    || (lot.sellPrice == 0.0 && Days(lot) < 0)
  }

  /** The lot with the keys the loop body adds. */
  function Enrich(lot: Lot): (r: Lot)
    requires !Raises(lot)
    ensures r.metrics.Some? && r.(metrics := lot.metrics) == lot
  {
    lot.(metrics := Some(Metrics(Profit(lot), PnlRatio(lot), Duration(lot))))
  }

  /** The index of the first lot that raises, or `|lots|` when none does. */
  function FirstRaising(lots: seq<Lot>): (k: nat)
    ensures k <= |lots|
    ensures forall i :: 0 <= i < k ==> !Raises(lots[i])
    ensures k < |lots| ==> Raises(lots[k])
  {
    if lots == [] || Raises(lots[0]) then 0 else 1 + FirstRaising(lots[1..])
  }

  /** The first lot that raises is the one after a run of lots that do not. */
  lemma {:induction false} FirstRaisingIs(lots: seq<Lot>, k: nat)
    requires k <= |lots|
    requires forall i :: 0 <= i < k ==> !Raises(lots[i])
    requires k < |lots| ==> Raises(lots[k])
    ensures FirstRaising(lots) == k
  {
    if k > 0 {
      FirstRaisingIs(lots[1..], k - 1);
    }
  }

  datatype Outcome = Done | ZeroDivisionError(index: nat)

  /** `cagr(transactions)`: for each lot in turn, compute the metrics and
      write them into the lot.  The first lot whose formulas divide by zero
      stops the loop: the lots before it are enriched, it and the rest are
      untouched.  The caller's list is the one returned. */
  method Cagr(transactions: array<Lot>) returns (outcome: Outcome)
    modifies transactions
    ensures var k := FirstRaising(old(transactions[..]));
            && outcome == (if k < transactions.Length then ZeroDivisionError(k) else Done)
            && (forall i :: 0 <= i < k ==> transactions[i] == Enrich(old(transactions[i])))
            && (forall i :: k <= i < transactions.Length ==> transactions[i] == old(transactions[i]))
  {
    ghost var before := transactions[..];
    for i := 0 to transactions.Length
      invariant forall j :: 0 <= j < i ==> !Raises(before[j]) && transactions[j] == Enrich(before[j])
      invariant forall j :: i <= j < transactions.Length ==> transactions[j] == before[j]
    {
      var tran := transactions[i];
      if tran.quantity * tran.buyPrice == 0.0 {
        FirstRaisingIs(before, i);
        return ZeroDivisionError(i);
      }
      var profit := tran.quantity * (tran.sellPrice - tran.buyPrice);
      var pnl := profit / (tran.quantity * tran.buyPrice);
      var duration := (tran.sellDate - tran.buyDate) as real / 365.0;
      if duration == 0.0 || (tran.sellPrice / tran.buyPrice == 0.0 && duration < 0.0) {
        RaisesIffPowerFails(tran);
        FirstRaisingIs(before, i);
        return ZeroDivisionError(i);
      }
      LoopBodyEnriches(tran, profit, pnl, duration);
      transactions[i] := tran.(metrics := Some(Metrics(profit, pnl, duration)));
    }
    FirstRaisingIs(before, transactions.Length);
    return Done;
  }

  /** A lot that passes both checks of the loop body does not raise, and the
      values the body computes are its metrics. */
  lemma LoopBodyEnriches(lot: Lot, profit: real, pnl: real, duration: real)
    requires lot.quantity * lot.buyPrice != 0.0
    requires profit == lot.quantity * (lot.sellPrice - lot.buyPrice)
    requires pnl == profit / (lot.quantity * lot.buyPrice)
    requires duration == (lot.sellDate - lot.buyDate) as real / 365.0
    requires !(duration == 0.0 || (lot.sellPrice / lot.buyPrice == 0.0 && duration < 0.0))
    ensures !Raises(lot)
    ensures lot.(metrics := Some(Metrics(profit, pnl, duration))) == Enrich(lot)
  {
    RaisesIffPowerFails(lot);
    assert profit == Profit(lot) && duration == Duration(lot);
    assert pnl == PnlRatio(lot);
  }

  /** Once the pnl division has succeeded, the CAGR power fails (`1 / duration`
      or `0.0 ** negative`) exactly when the lot `Raises`. */
  lemma RaisesIffPowerFails(lot: Lot)
    requires lot.quantity * lot.buyPrice != 0.0
    ensures Raises(lot) <==>
              || Duration(lot) == 0.0
              || (lot.sellPrice / lot.buyPrice == 0.0 && Duration(lot) < 0.0)
  {
    assert lot.buyPrice != 0.0;
    assert lot.sellPrice / lot.buyPrice == 0.0 <==> lot.sellPrice == 0.0 by {
      if lot.sellPrice / lot.buyPrice == 0.0 {
        assert lot.sellPrice == (lot.sellPrice / lot.buyPrice) * lot.buyPrice;
      }
    }
  }

  /** The pnl ratio is the return on the price: the quantity cancels out. */
  lemma PnlIsPriceReturn(lot: Lot)
    requires lot.quantity * lot.buyPrice != 0.0
    ensures PnlRatio(lot) == (lot.sellPrice - lot.buyPrice) / lot.buyPrice
  {
    var q, b, s := lot.quantity, lot.buyPrice, lot.sellPrice;
    assert q != 0.0 && b != 0.0;
    calc {
      PnlRatio(lot);
      (q * (s - b)) / (q * b);
      { assert (q * (s - b)) == ((s - b) / b) * (q * b); }
      (s - b) / b;
    }
  }

  /** A lot bought and sold on the same day, or bought at price 0, stops
      `cagr`: the loop raises ZeroDivisionError at that lot or at an earlier
      one, so no lot from it on is enriched.  An unrealized lot of a buy made
      on `today` is such a lot. */
  lemma SameDayLotStops(lots: seq<Lot>, k: nat)
    requires k < |lots|
    requires lots[k].buyDate == lots[k].sellDate || lots[k].buyPrice == 0.0
    ensures FirstRaising(lots) <= k
  {
    assert Raises(lots[k]);
  }
}
