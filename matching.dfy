/** The FIFO lot matcher of calculator.py: `_transactions` matches one
    stock's buy rows against its sell rows, oldest first, and `transactions`
    runs it once per stock.

    The source keeps the outstanding buys and sells in two Python lists used
    as stacks: the rows are sorted newest first and pushed in that order, so
    `pop()` (from the END of the list) yields the oldest outstanding row.
    Here a stack is a `seq<Record>` whose top is its last element. */
module Matching {
  import opened Records

  // ---------------------------------------------------------------------
  // sorted(records, key=date, reverse=True)
  // ---------------------------------------------------------------------

  /** Newest first. */
  predicate Descending(s: seq<Record>)
  {
    forall i, j :: 0 <= i < j < |s| ==> s[i].date >= s[j].date
  }

  /** Puts `x` in front of the first row that is not newer than it, so that
      `x` stays ahead of the rows of its own date that followed it. */
  function InsertByDate(x: Record, s: seq<Record>): seq<Record>
  {
    if s == [] || s[0].date <= x.date then [x] + s
    else [s[0]] + InsertByDate(x, s[1..])
  }

  /** Inserting adds `x` and keeps every row. */
  lemma {:induction false} InsertKeepsRows(x: Record, s: seq<Record>)
    ensures multiset(InsertByDate(x, s)) == multiset(s) + multiset{x}
  {
    if s != [] && s[0].date > x.date {
      var rest := InsertByDate(x, s[1..]);
      InsertKeepsRows(x, s[1..]);
      calc {
        multiset(InsertByDate(x, s));
        multiset([s[0]] + rest);
        multiset([s[0]]) + multiset(rest);
        multiset([s[0]]) + multiset(s[1..]) + multiset{x};
        { assert s == [s[0]] + s[1..]; }
        multiset(s) + multiset{x};
      }
    }
  }

  /** Inserting into a newest-first list keeps it newest first. */
  lemma {:induction false} InsertKeepsDescending(x: Record, s: seq<Record>)
    requires Descending(s)
    ensures Descending(InsertByDate(x, s))
  {
    if s != [] && s[0].date > x.date {
      var rest := InsertByDate(x, s[1..]);
      InsertKeepsDescending(x, s[1..]);
      InsertKeepsRows(x, s[1..]);
      HeadIsNewest(s);
      forall y | y in rest ensures y.date <= s[0].date {
        assert y in multiset(rest);
      }
      FrontOfDescending(s[0], rest);
      assert InsertByDate(x, s) == [s[0]] + rest;
    }
  }

  lemma HeadIsNewest(s: seq<Record>)
    requires Descending(s) && s != []
    ensures forall y :: y in s[1..] ==> y.date <= s[0].date
  {
    forall y | y in s[1..] ensures y.date <= s[0].date {
      var i :| 0 <= i < |s[1..]| && s[1..][i] == y;
      assert s[i + 1] == y;
    }
  }

  lemma FrontOfDescending(y: Record, rest: seq<Record>)
    requires Descending(rest)
    requires forall z :: z in rest ==> z.date <= y.date
    ensures Descending([y] + rest)
  {
    forall i, j | 0 <= i < j < |rest| + 1 ensures ([y] + rest)[i].date >= ([y] + rest)[j].date {
      assert ([y] + rest)[j] == rest[j - 1];
    }
  }

  /** Python's `sorted(rs, key=date, reverse=True)`: newest first, and (the
      sort being stable) rows of the same date in their input order. */
  function SortByDateDesc(rs: seq<Record>): (r: seq<Record>)
    ensures Descending(r)
    ensures multiset(r) == multiset(rs)
  {
    if rs == [] then []
    else
      var sorted := SortByDateDesc(rs[1..]);
      InsertKeepsRows(rs[0], sorted);
      InsertKeepsDescending(rs[0], sorted);
      assert rs == [rs[0]] + rs[1..];
      InsertByDate(rs[0], sorted)
  }

  /** The rows dated `d`, in order. */
  function OnDate(s: seq<Record>, d: int): seq<Record>
  {
    if s == [] then [] else (if s[0].date == d then [s[0]] else []) + OnDate(s[1..], d)
  }

  lemma {:induction false} InsertKeepsDateOrder(x: Record, s: seq<Record>, d: int)
    requires Descending(s)
    ensures OnDate(InsertByDate(x, s), d) == OnDate([x] + s, d)
  {
    if s != [] && s[0].date > x.date {
      var r := InsertByDate(x, s);
      assert r[0] == s[0] && r[1..] == InsertByDate(x, s[1..]);
      InsertKeepsDateOrder(x, s[1..], d);
      assert ([x] + s)[1..] == s;
      assert ([x] + s[1..])[1..] == s[1..];
      var head := if s[0].date == d then [s[0]] else [];
      var mid := if x.date == d then [x] else [];
      var tail := OnDate(s[1..], d);
      assert OnDate(r, d) == head + (mid + tail);
      assert OnDate([x] + s, d) == mid + (head + tail);
      // x is strictly older than s[0], so at most one of them is dated d
      assert head == [] || mid == [];
      if head == [] {
        assert head + (mid + tail) == mid + tail == mid + (head + tail);
      } else {
        assert head + (mid + tail) == head + tail == mid + (head + tail);
      }
    }
  }

  /** The sort is stable: for every date, the rows of that date keep their
      input order. */
  lemma {:induction false} SortIsStable(rs: seq<Record>, d: int)
    ensures OnDate(SortByDateDesc(rs), d) == OnDate(rs, d)
  {
    if rs != [] {
      SortIsStable(rs[1..], d);
      InsertKeepsDateOrder(rs[0], SortByDateDesc(rs[1..]), d);
      var t := SortByDateDesc(rs[1..]);
      assert ([rs[0]] + t)[1..] == t;
    }
  }

  lemma SortKeepsBuyQuantity(rs: seq<Record>)
    ensures BuyQuantity(SortByDateDesc(rs)) == BuyQuantity(rs)
  {
    BuyQuantityPermutation(SortByDateDesc(rs), rs);
  }

  // ---------------------------------------------------------------------
  // The partition loop: buy.append(record) / sell.append(record)
  // ---------------------------------------------------------------------

  /** The Buy rows of `s`, in order. */
  function Buys(s: seq<Record>): (r: seq<Record>)
    ensures forall x :: x in r <==> x in s && x.action == Buy
  {
    if s == [] then []
    else
      var last := s[|s| - 1];
      assert s == s[..|s| - 1] + [last];
      Buys(s[..|s| - 1]) + if last.action == Buy then [last] else []
  }

  /** The Sell rows of `s`, in order. */
  function Sells(s: seq<Record>): (r: seq<Record>)
    ensures forall x :: x in r <==> x in s && x.action == Sell
  {
    if s == [] then []
    else
      var last := s[|s| - 1];
      assert s == s[..|s| - 1] + [last];
      Sells(s[..|s| - 1]) + if last.action == Sell then [last] else []
  }

  /** Total quantity on a stack. */
  function StackQuantity(s: seq<Record>): real
  {
    if s == [] then 0.0 else StackQuantity(s[..|s| - 1]) + s[|s| - 1].quantity
  }

  lemma {:induction false} BuysCarryBuyQuantity(s: seq<Record>)
    ensures StackQuantity(Buys(s)) == BuyQuantity(s)
  {
    if s != [] {
      var p := s[..|s| - 1];
      BuysCarryBuyQuantity(p);
      if s[|s| - 1].action == Buy {
        assert (Buys(p) + [s[|s| - 1]])[..|Buys(p)|] == Buys(p);
      } else {
        assert Buys(p) + [] == Buys(p);
      }
    }
  }

  lemma {:induction false} BuysOfDescending(s: seq<Record>)
    requires Descending(s)
    ensures Descending(Buys(s))
  {
    if s != [] {
      var p := s[..|s| - 1];
      BuysOfDescending(p);
      var last := s[|s| - 1];
      if last.action == Buy {
        forall y | y in Buys(p) ensures y.date >= last.date {
          var i :| 0 <= i < |p| && p[i] == y;
        }
      } else {
        assert Buys(p) + [] == Buys(p);
      }
    }
  }

  lemma {:induction false} SellsOfDescending(s: seq<Record>)
    requires Descending(s)
    ensures Descending(Sells(s))
  {
    if s != [] {
      var p := s[..|s| - 1];
      SellsOfDescending(p);
      var last := s[|s| - 1];
      if last.action == Sell {
        forall y | y in Sells(p) ensures y.date >= last.date {
          var i :| 0 <= i < |p| && p[i] == y;
        }
      } else {
        assert Sells(p) + [] == Sells(p);
      }
    }
  }

  // ---------------------------------------------------------------------
  // The matching loop: one iteration, and the whole run
  // ---------------------------------------------------------------------

  function Top(s: seq<Record>): Record
    requires s != []
  {
    s[|s| - 1]
  }

  function Pop(s: seq<Record>): seq<Record>
    requires s != []
  {
    s[..|s| - 1]
  }

  function Min(a: real, b: real): real
  {
    if a <= b then a else b
  }

  /** The lot of a buy matched against a real sell. */
  function RealizedLot(b: Record, s: Record, quantity: real): Lot
  {
    Lot(b.stock, b.date, b.price, s.date, s.price, quantity, true, None)
  }

  /** The lot of a buy with no sell left: sold at `price` on `today`. */
  function UnrealizedLot(b: Record, price: real, today: int): Lot
  {
    Lot(b.stock, b.date, b.price, today, price, b.quantity, false, None)
  }

  /** The lot one iteration appends and the two stacks it leaves. */
  datatype Step = Step(lot: Lot, buy: seq<Record>, sell: seq<Record>)

  /** One iteration of the `while len(buy) > 0` loop.  When the sell is the
      larger side the source computes the sell's remainder but then pushes
      the consumed BUY row onto the sell stack: the remainder is dropped and
      the buy row is later matched as if it were a sell. */
  function MatchStep(buy: seq<Record>, sell: seq<Record>, price: real, today: int): (r: Step)
    requires buy != []
    // the loop's measure len(buy) + len(sell) drops in every branch
    ensures |r.buy| + |r.sell| < |buy| + |sell|
    // buy-side conservation: what leaves the buy stack is the lot's quantity
    ensures StackQuantity(r.buy) + r.lot.quantity == StackQuantity(buy)
    ensures r.lot.stock == Top(buy).stock && r.lot.buyDate == Top(buy).date
    ensures r.lot.buyPrice == Top(buy).price && r.lot.metrics == None
    ensures r.lot.realized <==> sell != []
    ensures r.lot.realized ==>
              && r.lot.quantity == Min(Top(buy).quantity, Top(sell).quantity)
              && r.lot.sellDate == Top(sell).date && r.lot.sellPrice == Top(sell).price
    // a larger buy is requeued with what is left and is the next one popped
    ensures sell != [] && Top(buy).quantity > Top(sell).quantity ==>
              r.buy == Pop(buy) + [Top(buy).(quantity := Top(buy).quantity - Top(sell).quantity)]
              && r.sell == Pop(sell)
    ensures sell != [] && Top(sell).quantity > Top(buy).quantity ==>
              r.buy == Pop(buy) && r.sell == Pop(sell) + [Top(buy)]
    ensures sell != [] && Top(sell).quantity == Top(buy).quantity ==>
              r.buy == Pop(buy) && r.sell == Pop(sell)
    ensures sell == [] ==>
              r.lot == UnrealizedLot(Top(buy), price, today) && r.buy == Pop(buy) && r.sell == []
  {
    var b := Top(buy);
    assert buy == Pop(buy) + [b];
    if sell != [] then
      var s := Top(sell);
      if b.quantity > s.quantity then
        var b' := b.(quantity := b.quantity - s.quantity);
        assert (Pop(buy) + [b'])[..|buy| - 1] == Pop(buy);
        Step(RealizedLot(b, s, s.quantity), Pop(buy) + [b'], Pop(sell))
      else if s.quantity > b.quantity then
        Step(RealizedLot(b, s, b.quantity), Pop(buy), Pop(sell) + [b])
      else
        Step(RealizedLot(b, s, b.quantity), Pop(buy), Pop(sell))
    else
      Step(UnrealizedLot(b, price, today), Pop(buy), sell)
  }

  /** The lots the loop appends, in order, from the given stacks. */
  function Matched(buy: seq<Record>, sell: seq<Record>, price: real, today: int): seq<Lot>
    decreases |buy| + |sell|
  {
    if buy == [] then []
    else
      var st := MatchStep(buy, sell, price, today);
      [st.lot] + Matched(st.buy, st.sell, price, today)
  }

  /** `_transactions(records, price)` with `date.today()` as `today`. */
  function StockLots(records: seq<Record>, price: real, today: int): seq<Lot>
  {
    var sorted := SortByDateDesc(records);
    Matched(Buys(sorted), Sells(sorted), price, today)
  }

  // ---------------------------------------------------------------------
  // What the matcher promises
  // ---------------------------------------------------------------------

  /** Buy-side conservation: the output lots add up to the quantity on the
      buy stack. The line 56-57 defect touches only the sell stack. */
  lemma {:induction false} MatchedConservesBuys(buy: seq<Record>, sell: seq<Record>, price: real, today: int)
    ensures LotQuantity(Matched(buy, sell, price, today)) == StackQuantity(buy)
    decreases |buy| + |sell|
  {
    if buy != [] {
      var st := MatchStep(buy, sell, price, today);
      MatchedConservesBuys(st.buy, st.sell, price, today);
      assert ([st.lot] + Matched(st.buy, st.sell, price, today))[1..] == Matched(st.buy, st.sell, price, today);
    }
  }

  predicate BuyDatesNonDecreasing(lots: seq<Lot>)
  {
    forall i, j :: 0 <= i < j < |lots| ==> lots[i].buyDate <= lots[j].buyDate
  }

  /** One step keeps the buy stack newest first, and the next top is no
      older than the current one. */
  lemma StepKeepsDescending(buy: seq<Record>, sell: seq<Record>, price: real, today: int)
    requires buy != [] && Descending(buy)
    ensures var st := MatchStep(buy, sell, price, today);
            Descending(st.buy) && (st.buy != [] ==> Top(st.buy).date >= Top(buy).date)
  {
    var st := MatchStep(buy, sell, price, today);
    if sell != [] && Top(buy).quantity > Top(sell).quantity {
      assert Pop(st.buy) == Pop(buy) && Top(st.buy).date == Top(buy).date;
      assert st.buy == Pop(st.buy) + [Top(st.buy)];
    }
  }

  lemma FrontOfNonDecreasing(lot: Lot, rest: seq<Lot>)
    requires BuyDatesNonDecreasing(rest)
    requires forall l :: l in rest ==> l.buyDate >= lot.buyDate
    ensures BuyDatesNonDecreasing([lot] + rest)
  {
    var lots := [lot] + rest;
    forall i, j | 0 <= i < j < |lots| ensures lots[i].buyDate <= lots[j].buyDate {
      if i > 0 {
        assert lots[i] == rest[i - 1] && lots[j] == rest[j - 1];
      } else {
        assert lots[j] in rest;
      }
    }
  }

  /** FIFO order: from a newest-first buy list (oldest on top), the lots come
      out oldest buy first, none older than the buy on top. */
  lemma {:induction false} MatchedInBuyOrder(buy: seq<Record>, sell: seq<Record>, price: real, today: int)
    requires Descending(buy)
    ensures BuyDatesNonDecreasing(Matched(buy, sell, price, today))
    ensures forall lot :: lot in Matched(buy, sell, price, today) ==> lot.buyDate >= Top(buy).date
    decreases |buy| + |sell|
  {
    if buy != [] {
      var st := MatchStep(buy, sell, price, today);
      var rest := Matched(st.buy, st.sell, price, today);
      StepKeepsDescending(buy, sell, price, today);
      if st.buy != [] {
        MatchedInBuyOrder(st.buy, st.sell, price, today);
      }
      FrontOfNonDecreasing(st.lot, rest);
    }
  }

  /** With no sell left, every outstanding buy row becomes one unrealized lot
      of its whole remaining quantity, oldest (top) first. */
  lemma {:induction false} NoSellsLeft(buy: seq<Record>, price: real, today: int)
    ensures |Matched(buy, [], price, today)| == |buy|
    ensures forall k :: 0 <= k < |buy| ==>
              Matched(buy, [], price, today)[k] == UnrealizedLot(buy[|buy| - 1 - k], price, today)
    decreases |buy|
  {
    if buy != [] {
      NoSellsLeft(Pop(buy), price, today);
    }
  }

  predicate RealizedFirst(lots: seq<Lot>)
  {
    forall i, j :: 0 <= i < j < |lots| && !lots[i].realized ==> !lots[j].realized
  }

  /** All realized lots come before all unrealized ones, and an unrealized lot
      is always valued at `price` on `today`. */
  lemma {:induction false} MatchedSplitsCleanly(buy: seq<Record>, sell: seq<Record>, price: real, today: int)
    ensures RealizedFirst(Matched(buy, sell, price, today))
    ensures forall lot :: lot in Matched(buy, sell, price, today) && !lot.realized ==>
              lot.sellPrice == price && lot.sellDate == today
    decreases |buy| + |sell|
  {
    if buy != [] {
      var st := MatchStep(buy, sell, price, today);
      var rest := Matched(st.buy, st.sell, price, today);
      var lots := [st.lot] + rest;
      MatchedSplitsCleanly(st.buy, st.sell, price, today);
      if sell == [] {
        NoSellsLeft(st.buy, price, today);
      }
      forall i, j | 0 <= i < j < |lots| && !lots[i].realized ensures !lots[j].realized {
        if i > 0 {
          assert lots[i] == rest[i - 1] && lots[j] == rest[j - 1];
        }
      }
    }
  }

  /** Every lot carries the stock of some row of the buy stack. */
  lemma {:induction false} MatchedStocks(buy: seq<Record>, sell: seq<Record>, price: real, today: int)
    ensures forall lot :: lot in Matched(buy, sell, price, today) ==> lot.stock in Stocks(buy)
    decreases |buy| + |sell|
  {
    if buy != [] {
      var st := MatchStep(buy, sell, price, today);
      MatchedStocks(st.buy, st.sell, price, today);
      StepStocks(buy, sell, price, today);
    }
  }

  /** One iteration leaves only stocks of the buy stack on it, and its lot is
      of one of them. */
  lemma StepStocks(buy: seq<Record>, sell: seq<Record>, price: real, today: int)
    requires buy != []
    ensures Stocks(MatchStep(buy, sell, price, today).buy) <= Stocks(buy)
    ensures MatchStep(buy, sell, price, today).lot.stock in Stocks(buy)
  {
    var st := MatchStep(buy, sell, price, today);
    assert buy == Pop(buy) + [Top(buy)];
    if sell != [] && Top(buy).quantity > Top(sell).quantity {
      assert st.buy == Pop(buy) + [Top(st.buy)];
    }
  }


  /** What `_transactions` promises for one stock: buy-side conservation,
      FIFO order, realized lots before unrealized ones, unrealized lots valued
      at `price` on `today`, and only the stock of the input rows. */
  lemma StockLotsProperties(records: seq<Record>, price: real, today: int)
    ensures LotQuantity(StockLots(records, price, today)) == BuyQuantity(records)
    ensures BuyDatesNonDecreasing(StockLots(records, price, today))
    ensures RealizedFirst(StockLots(records, price, today))
    ensures forall lot :: lot in StockLots(records, price, today) && !lot.realized ==>
              lot.sellPrice == price && lot.sellDate == today
    ensures forall lot :: lot in StockLots(records, price, today) ==> lot.stock in Stocks(records)
  {
    var sorted := SortByDateDesc(records);
    var buy0, sell0 := Buys(sorted), Sells(sorted);
    MatchedConservesBuys(buy0, sell0, price, today);
    BuysCarryBuyQuantity(sorted);
    SortKeepsBuyQuantity(records);
    BuysOfDescending(sorted);
    MatchedInBuyOrder(buy0, sell0, price, today);
    MatchedSplitsCleanly(buy0, sell0, price, today);
    MatchedStocks(buy0, sell0, price, today);
    assert Stocks(buy0) <= Stocks(records) by {
      forall s | s in Stocks(buy0) ensures s in Stocks(records) {
        var r :| r in buy0 && r.stock == s;
        assert r in multiset(sorted);
      }
    }
  }

  // ---------------------------------------------------------------------
  // _transactions and transactions
  // ---------------------------------------------------------------------

  lemma AppendStep(trans: seq<Lot>, buy: seq<Record>, sell: seq<Record>, price: real, today: int)
    requires buy != []
    ensures trans + Matched(buy, sell, price, today)
         == (trans + [MatchStep(buy, sell, price, today).lot])
            + Matched(MatchStep(buy, sell, price, today).buy, MatchStep(buy, sell, price, today).sell, price, today)
  {
  }

  /** The `for record in records` loop of `_transactions`: Buy rows go to
      one list and Sell rows to the other, in order; other rows are skipped. */
  method Partition(sorted: seq<Record>) returns (buy: seq<Record>, sell: seq<Record>)
    ensures buy == Buys(sorted) && sell == Sells(sorted)
  {
    buy, sell := [], [];
    for i := 0 to |sorted|
      invariant buy == Buys(sorted[..i])
      invariant sell == Sells(sorted[..i])
    {
      assert sorted[..i + 1][..i] == sorted[..i];
      var record := sorted[i];
      if record.action == Buy {
        buy := buy + [record];
      } else if record.action == Sell {
        sell := sell + [record];
      }
    }
    assert sorted[..|sorted|] == sorted;
  }

  /** `_transactions(records, price)`: sort newest first, split into the buy
      and sell stacks, then match until the buy stack is empty. */
  method MatchStock(records: seq<Record>, price: real, today: int) returns (trans: seq<Lot>)
    ensures trans == StockLots(records, price, today)
  {
    var sorted := SortByDateDesc(records);
    var buy, sell := Partition(sorted);
    ghost var buy0, sell0 := buy, sell;

    trans := [];
    while buy != []
      invariant trans + Matched(buy, sell, price, today) == Matched(buy0, sell0, price, today)
      decreases |buy| + |sell|
    {
      AppendStep(trans, buy, sell, price, today);
      var tran;
      tran, buy, sell := MatchOne(buy, sell, price, today);
      trans := trans + [tran];
    }
  }

  /** The body of the `while len(buy) > 0` loop: pop a buy, and a sell when
      there is one, and return the lot and the two stacks left. */
  method MatchOne(buy: seq<Record>, sell: seq<Record>, price: real, today: int)
    returns (tran: Lot, buy': seq<Record>, sell': seq<Record>)
    requires buy != []
    ensures Step(tran, buy', sell') == MatchStep(buy, sell, price, today)
  {
    var buyTran := buy[|buy| - 1];
    buy' := buy[..|buy| - 1];
    sell' := sell;
    if sell' != [] {
      var sellTran := sell'[|sell'| - 1];
      sell' := sell'[..|sell'| - 1];
      var buyQuant, sellQuant := buyTran.quantity, sellTran.quantity;
      if buyQuant > sellQuant {
        tran := Lot(buyTran.stock, buyTran.date, buyTran.price, sellTran.date, sellTran.price,
                    sellQuant, true, None);
        buyTran := buyTran.(quantity := buyQuant - sellQuant);
        buy' := buy' + [buyTran];
      } else if sellQuant > buyQuant {
        tran := Lot(buyTran.stock, buyTran.date, buyTran.price, sellTran.date, sellTran.price,
                    buyQuant, true, None);
        // the sell's remainder is computed, then the buy row is requeued
        sellTran := sellTran.(quantity := sellQuant - buyQuant);
        sell' := sell' + [buyTran];
      } else {
        tran := Lot(buyTran.stock, buyTran.date, buyTran.price, sellTran.date, sellTran.price,
                    buyQuant, true, None);
      }
    } else {
      tran := Lot(buyTran.stock, buyTran.date, buyTran.price, today, price,
                  buyTran.quantity, false, None);
    }
  }


  /** The valuation price of a stock: `prices[stock]`, or 0.0 when the stock
      has no entry. */
  function PriceOf(prices: map<string, real>, stock: string): real
  {
    if stock in prices then prices[stock] else 0.0
  }

  /** The lots of the stocks in `order`, one stock after the other. */
  function LotsInOrder(order: seq<string>, records: seq<Record>, prices: map<string, real>, today: int): seq<Lot>
  {
    if order == [] then []
    else
      var stock := order[|order| - 1];
      LotsInOrder(order[..|order| - 1], records, prices, today)
        + StockLots(RecordsOf(records, stock), PriceOf(prices, stock), today)
  }

  /** `transactions(records, prices)`: the lots of every stock, stocks in the
      order of their first row. */
  function AllLots(records: seq<Record>, prices: map<string, real>, today: int): seq<Lot>
  {
    LotsInOrder(StockOrder(records), records, prices, today)
  }

  /** The dict holds, for every stock of the rows, its rows in input order. */
  predicate GroupsOf(recordsByStock: map<string, seq<Record>>, rs: seq<Record>)
  {
    && recordsByStock.Keys == Stocks(rs)
    && forall s :: s in recordsByStock ==> recordsByStock[s] == RecordsOf(rs, s)
  }

  /** Appending one more row to its stock's list (created empty when absent)
      keeps the dict describing the rows. */
  lemma GroupStep(rs: seq<Record>, r: Record, recordsByStock: map<string, seq<Record>>)
    requires GroupsOf(recordsByStock, rs)
    ensures GroupsOf(recordsByStock[r.stock := (if r.stock in recordsByStock then recordsByStock[r.stock] else []) + [r]],
                     rs + [r])
  {
    StocksStep(rs, r);
    var m := recordsByStock[r.stock := (if r.stock in recordsByStock then recordsByStock[r.stock] else []) + [r]];
    forall s | s in m ensures m[s] == RecordsOf(rs + [r], s) {
      RecordsOfStep(rs, r, s);
      if s != r.stock {
        assert RecordsOf(rs + [r], s) == RecordsOf(rs, s) + [] == RecordsOf(rs, s);
      } else if r.stock !in recordsByStock {
        NoRecordsOf(rs, s);
      }
    }
  }

  /** The first loop of `transactions` (the `records_by_stock` dict): the
      rows of each stock in input order, and the stocks in the order the dict
      got its keys. */
  method GroupByStock(records: seq<Record>) returns (recordsByStock: map<string, seq<Record>>, order: seq<string>)
    ensures order == StockOrder(records)
    ensures recordsByStock.Keys == Stocks(records)
    ensures forall s :: s in recordsByStock ==> recordsByStock[s] == RecordsOf(records, s)
  {
    recordsByStock, order := map[], [];
    for i := 0 to |records|
      invariant order == StockOrder(records[..i])
      invariant GroupsOf(recordsByStock, records[..i])
    {
      var record := records[i];
      ghost var seen := records[..i];
      PrefixStep(records, i);
      OrderStep(seen, record, recordsByStock);
      GroupStep(seen, record, recordsByStock);
      var stock := record.stock;
      var recordList: seq<Record>;
      if stock in recordsByStock {
        recordList := recordsByStock[stock];
      } else {
        recordList := [];
        order := order + [stock];
      }
      // the row itself is a value: the copy the source takes is implicit
      recordsByStock := recordsByStock[stock := recordList + [record]];
    }
    assert records[..|records|] == records;
  }

  /** One more stock appends its matched lots. */
  lemma LotsInOrderStep(order: seq<string>, k: nat, records: seq<Record>, prices: map<string, real>, today: int)
    requires k < |order|
    ensures LotsInOrder(order[..k + 1], records, prices, today)
         == LotsInOrder(order[..k], records, prices, today)
            + StockLots(RecordsOf(records, order[k]), PriceOf(prices, order[k]), today)
  {
    assert order[..k + 1][..k] == order[..k];
  }

  /** `transactions(records, prices)`: group the rows by stock, then match
      each group at its price, in the dict's key order. */
  method Transactions(records: seq<Record>, prices: map<string, real>, today: int) returns (trans: seq<Lot>)
    ensures trans == AllLots(records, prices, today)
  {
    var recordsByStock, order := GroupByStock(records);
    trans := [];
    for k := 0 to |order|
      invariant trans == LotsInOrder(order[..k], records, prices, today)
    {
      LotsInOrderStep(order, k, records, prices, today);
      var stock := order[k];
      var price := if stock in prices then prices[stock] else 0.0;
      assert stock in recordsByStock;
      var stockTrans := MatchStock(recordsByStock[stock], price, today);
      trans := trans + stockTrans;
    }
    assert order[..|order|] == order;
  }

  /** Every lot names a stock of the input, and an unrealized lot is valued at
      the stock's price on `today`, 0.0 when the stock has no price. */
  lemma {:induction false} LotsInOrderProperties(order: seq<string>, records: seq<Record>, prices: map<string, real>, today: int)
    ensures forall lot :: lot in LotsInOrder(order, records, prices, today) ==>
              lot.stock in order && lot.stock in Stocks(records)
    ensures forall lot :: lot in LotsInOrder(order, records, prices, today) && !lot.realized ==>
              lot.sellPrice == PriceOf(prices, lot.stock) && lot.sellDate == today
  {
    if order != [] {
      var stock := order[|order| - 1];
      var rs := RecordsOf(records, stock);
      LotsInOrderProperties(order[..|order| - 1], records, prices, today);
      StockLotsProperties(rs, PriceOf(prices, stock), today);
      assert Stocks(rs) <= {stock};
      assert Stocks(rs) <= Stocks(records);
      assert order == order[..|order| - 1] + [stock];
    }
  }

  /** The rows whose stock is in `stocks`, in order. */
  function RecordsIn(rs: seq<Record>, stocks: seq<string>): seq<Record>
  {
    if rs == [] then []
    else RecordsIn(rs[..|rs| - 1], stocks) + if rs[|rs| - 1].stock in stocks then [rs[|rs| - 1]] else []
  }

  lemma {:induction false} RecordsInSplit(rs: seq<Record>, stocks: seq<string>, stock: string)
    requires stock !in stocks
    ensures BuyQuantity(RecordsIn(rs, stocks + [stock]))
         == BuyQuantity(RecordsIn(rs, stocks)) + BuyQuantity(RecordsOf(rs, stock))
  {
    if rs != [] {
      var p, last := rs[..|rs| - 1], rs[|rs| - 1];
      RecordsInSplit(p, stocks, stock);
      var tail := if last.stock in stocks + [stock] then [last] else [];
      BuyQuantityAppend(RecordsIn(p, stocks + [stock]), tail);
      BuyQuantityAppend(RecordsIn(p, stocks), if last.stock in stocks then [last] else []);
      BuyQuantityAppend(RecordsOf(p, stock), if last.stock == stock then [last] else []);
    }
  }

  lemma {:induction false} RecordsInAll(rs: seq<Record>, stocks: seq<string>)
    requires forall s :: s in Stocks(rs) ==> s in stocks
    ensures RecordsIn(rs, stocks) == rs
  {
    if rs != [] {
      var p := rs[..|rs| - 1];
      assert rs == p + [rs[|rs| - 1]];
      assert Stocks(p) <= Stocks(rs);
      RecordsInAll(p, stocks);
    }
  }

  /** Sum of the Buy quantities of the stocks in `order`. */
  lemma {:induction false} LotsInOrderConservesBuys(order: seq<string>, records: seq<Record>, prices: map<string, real>, today: int)
    requires Distinct(order)
    ensures LotQuantity(LotsInOrder(order, records, prices, today))
         == BuyQuantity(RecordsIn(records, order))
  {
    if order == [] {
      RecordsInNone(records);
    } else {
      var o', stock := order[..|order| - 1], order[|order| - 1];
      assert order == o' + [stock];
      assert stock !in o' by {
        forall i | 0 <= i < |o'| ensures o'[i] != stock {
          assert o'[i] == order[i];
        }
      }
      LotsInOrderConservesBuys(o', records, prices, today);
      OneMoreStock(o', stock, records, prices, today);
    }
  }

  lemma OneMoreStock(order: seq<string>, stock: string, records: seq<Record>, prices: map<string, real>, today: int)
    requires stock !in order
    requires LotQuantity(LotsInOrder(order, records, prices, today))
          == BuyQuantity(RecordsIn(records, order))
    ensures LotQuantity(LotsInOrder(order + [stock], records, prices, today))
         == BuyQuantity(RecordsIn(records, order + [stock]))
  {
    var rs := RecordsOf(records, stock);
    var lots := StockLots(rs, PriceOf(prices, stock), today);
    assert (order + [stock])[..|order|] == order;
    assert LotsInOrder(order + [stock], records, prices, today) == LotsInOrder(order, records, prices, today) + lots;
    StockLotsProperties(rs, PriceOf(prices, stock), today);
    LotQuantityAppend(LotsInOrder(order, records, prices, today), lots);
    RecordsInSplit(records, order, stock);
  }

  lemma {:induction false} RecordsInNone(rs: seq<Record>)
    ensures RecordsIn(rs, []) == []
  {
    if rs != [] {
      RecordsInNone(rs[..|rs| - 1]);
    }
  }

  /** What `transactions` promises: the output lots carry exactly the bought
      quantity, only stocks of the input appear, and an unrealized lot is
      valued at its stock's price (0.0 when missing) on `today`. */
  lemma AllLotsProperties(records: seq<Record>, prices: map<string, real>, today: int)
    ensures LotQuantity(AllLots(records, prices, today)) == BuyQuantity(records)
    ensures forall lot :: lot in AllLots(records, prices, today) ==> lot.stock in Stocks(records)
    ensures forall lot :: lot in AllLots(records, prices, today) && !lot.realized ==>
              lot.sellPrice == PriceOf(prices, lot.stock) && lot.sellDate == today
  {
    var order := StockOrder(records);
    LotsInOrderProperties(order, records, prices, today);
    LotsInOrderConservesBuys(order, records, prices, today);
    RecordsInAll(records, order);
  }

  // ---------------------------------------------------------------------
  // The sell remainder dropped at lines 56-57, and the corrected matcher
  // ---------------------------------------------------------------------

  /** Total quantity of the realized lots. */
  function RealizedQuantity(lots: seq<Lot>): real
  {
    if lots == [] then 0.0
    else (if lots[0].realized then lots[0].quantity else 0.0) + RealizedQuantity(lots[1..])
  }

  /** As written, the matcher loses sold quantity: with buys of 2 and then 10
      and one later sell of 5, the first match leaves a sell remainder of 3,
      but the consumed buy of 2 is pushed on the sell stack instead.  The
      second buy is then "sold" at the first buy's date and price, and only 4
      of the 5 sold units are realized.  That second lot is sold on day 1,
      before it was bought on day 2, and the realized lots' sell dates run
      backwards (3, then 1): the sell side is not matched first in, first
      out. */
  lemma AsWrittenLosesSellQuantity()
    ensures var b1 := Record(1, Buy, "X", 100.0, 2.0);
            var b2 := Record(2, Buy, "X", 110.0, 10.0);
            var s := Record(3, Sell, "X", 150.0, 5.0);
            var lots := Matched([b2, b1], [s], 120.0, 10);
            && lots == [RealizedLot(b1, s, 2.0), RealizedLot(b2, b1, 2.0),
                        UnrealizedLot(b2.(quantity := 8.0), 120.0, 10)]
            && RealizedQuantity(lots) == 4.0 != StackQuantity([s])
            && lots[1].sellDate < lots[1].buyDate
            && lots[0].sellDate > lots[1].sellDate
  {
    var b1 := Record(1, Buy, "X", 100.0, 2.0);
    var b2 := Record(2, Buy, "X", 110.0, 10.0);
    var s := Record(3, Sell, "X", 150.0, 5.0);
    var st1 := MatchStep([b2, b1], [s], 120.0, 10);
    assert st1 == Step(RealizedLot(b1, s, 2.0), [b2], [b1]);
    var st2 := MatchStep([b2], [b1], 120.0, 10);
    assert st2 == Step(RealizedLot(b2, b1, 2.0), [b2.(quantity := 8.0)], []);
    var st3 := MatchStep([b2.(quantity := 8.0)], [], 120.0, 10);
    assert st3 == Step(UnrealizedLot(b2.(quantity := 8.0), 120.0, 10), [], []);
    assert Matched([b2.(quantity := 8.0)], [], 120.0, 10) == [st3.lot];
    assert Matched([b2], [b1], 120.0, 10) == [st2.lot, st3.lot];
    var lots := Matched([b2, b1], [s], 120.0, 10);
    assert lots == [st1.lot, st2.lot, st3.lot];
    assert lots[1..] == [st2.lot, st3.lot] && lots[1..][1..] == [st3.lot] && lots[1..][1..][1..] == [];
    assert RealizedQuantity([st3.lot]) == 0.0;
    assert RealizedQuantity([st2.lot, st3.lot]) == 2.0;
    assert StackQuantity([s]) == 5.0 by { assert [s][..0] == []; }
  }

  /** One iteration as evidently intended: a larger sell goes back on the
      sell stack with what is left of it. */
  function MatchStepFixed(buy: seq<Record>, sell: seq<Record>, price: real, today: int): (r: Step)
    requires buy != []
    ensures |r.buy| + |r.sell| < |buy| + |sell|
    ensures StackQuantity(r.buy) + r.lot.quantity == StackQuantity(buy)
    ensures r.lot.realized <==> sell != []
    ensures r.lot.realized ==>
              && r.lot.quantity == Min(Top(buy).quantity, Top(sell).quantity)
              && StackQuantity(r.sell) + r.lot.quantity == StackQuantity(sell)
    ensures !r.lot.realized ==> r.sell == sell == []
    ensures Positive(buy) && Positive(sell) ==> Positive(r.buy) && Positive(r.sell)
  {
    var b := Top(buy);
    assert buy == Pop(buy) + [b];
    if sell != [] then
      var s := Top(sell);
      assert sell == Pop(sell) + [s];
      if b.quantity > s.quantity then
        var b' := b.(quantity := b.quantity - s.quantity);
        assert (Pop(buy) + [b'])[..|buy| - 1] == Pop(buy);
        Step(RealizedLot(b, s, s.quantity), Pop(buy) + [b'], Pop(sell))
      else if s.quantity > b.quantity then
        var s' := s.(quantity := s.quantity - b.quantity);
        assert (Pop(sell) + [s'])[..|sell| - 1] == Pop(sell);
        Step(RealizedLot(b, s, b.quantity), Pop(buy), Pop(sell) + [s'])
      else
        Step(RealizedLot(b, s, b.quantity), Pop(buy), Pop(sell))
    else
      Step(UnrealizedLot(b, price, today), Pop(buy), sell)
  }

  predicate Positive(s: seq<Record>)
  {
    forall i :: 0 <= i < |s| ==> s[i].quantity > 0.0
  }

  lemma {:induction false} PositiveStack(s: seq<Record>)
    requires Positive(s)
    ensures StackQuantity(s) >= 0.0
    ensures s != [] ==> StackQuantity(s) > 0.0
  {
    if s != [] {
      PositiveStack(Pop(s));
    }
  }

  function MatchedFixed(buy: seq<Record>, sell: seq<Record>, price: real, today: int): seq<Lot>
    decreases |buy| + |sell|
  {
    if buy == [] then []
    else
      var st := MatchStepFixed(buy, sell, price, today);
      [st.lot] + MatchedFixed(st.buy, st.sell, price, today)
  }

  /** The corrected matcher realizes every sold unit, when no more is sold
      than bought, and still carries every bought unit. */
  lemma {:induction false} FixedConservesSells(buy: seq<Record>, sell: seq<Record>, price: real, today: int)
    requires Positive(buy) && Positive(sell)
    requires StackQuantity(sell) <= StackQuantity(buy)
    ensures RealizedQuantity(MatchedFixed(buy, sell, price, today)) == StackQuantity(sell)
    ensures LotQuantity(MatchedFixed(buy, sell, price, today)) == StackQuantity(buy)
    decreases |buy| + |sell|
  {
    if buy == [] {
      PositiveStack(sell);
    } else {
      var st := MatchStepFixed(buy, sell, price, today);
      PositiveStack(st.buy);
      FixedConservesSells(st.buy, st.sell, price, today);
      var rest := MatchedFixed(st.buy, st.sell, price, today);
      assert ([st.lot] + rest)[1..] == rest;
    }
  }

  /** The realized lots are in non-decreasing sell date. */
  predicate SellDatesNonDecreasing(lots: seq<Lot>)
  {
    forall i, j :: 0 <= i < j < |lots| && lots[i].realized && lots[j].realized ==>
      lots[i].sellDate <= lots[j].sellDate
  }

  /** A corrected step against a newest-first sell stack sells at the date of
      the sell on top, keeps the stack newest first, and leaves on top a sell
      no older than that one. */
  lemma FixedStepKeepsSellsDescending(buy: seq<Record>, sell: seq<Record>, price: real, today: int)
    requires buy != [] && sell != [] && Descending(sell)
    ensures var st := MatchStepFixed(buy, sell, price, today);
            && st.lot.sellDate == Top(sell).date
            && Descending(st.sell)
            && (st.sell != [] ==> Top(st.sell).date >= Top(sell).date)
  {
    var st := MatchStepFixed(buy, sell, price, today);
    if Top(sell).quantity > Top(buy).quantity {
      assert Pop(st.sell) == Pop(sell) && Top(st.sell).date == Top(sell).date;
      assert st.sell == Pop(st.sell) + [Top(st.sell)];
    }
  }

  lemma FrontOfSellOrder(lot: Lot, rest: seq<Lot>)
    requires SellDatesNonDecreasing(rest)
    requires lot.realized ==> forall l :: l in rest && l.realized ==> l.sellDate >= lot.sellDate
    ensures SellDatesNonDecreasing([lot] + rest)
  {
    var lots := [lot] + rest;
    forall i, j | 0 <= i < j < |lots| && lots[i].realized && lots[j].realized
      ensures lots[i].sellDate <= lots[j].sellDate
    {
      if i > 0 {
        assert lots[i] == rest[i - 1] && lots[j] == rest[j - 1];
      } else {
        assert lots[j] in rest;
      }
    }
  }

  /** FIFO on the sell side, with the correction: from a newest-first sell
      stack the realized lots come out oldest sell first, none sold before
      the sell on top. */
  lemma {:induction false} FixedInSellOrder(buy: seq<Record>, sell: seq<Record>, price: real, today: int)
    requires Descending(sell)
    ensures SellDatesNonDecreasing(MatchedFixed(buy, sell, price, today))
    ensures forall lot :: lot in MatchedFixed(buy, sell, price, today) && lot.realized ==>
              sell != [] && lot.sellDate >= Top(sell).date
    decreases |buy| + |sell|
  {
    if buy != [] {
      var st := MatchStepFixed(buy, sell, price, today);
      var rest := MatchedFixed(st.buy, st.sell, price, today);
      if sell != [] {
        FixedStepKeepsSellsDescending(buy, sell, price, today);
      }
      FixedInSellOrder(st.buy, st.sell, price, today);
      FrontOfSellOrder(st.lot, rest);
    }
  }

  /** For one stock's rows, the corrected matcher realizes the sells in date
      order: its realized lots are in non-decreasing sell date. */
  lemma FixedStockSellsInOrder(records: seq<Record>, price: real, today: int)
    ensures var sorted := SortByDateDesc(records);
            SellDatesNonDecreasing(MatchedFixed(Buys(sorted), Sells(sorted), price, today))
  {
    var sorted := SortByDateDesc(records);
    SellsOfDescending(sorted);
    FixedInSellOrder(Buys(sorted), Sells(sorted), price, today);
  }

  /** On the counterexample above the corrected matcher realizes all 5 sold
      units, the second buy at the sell's date and price. */
  lemma FixedRealizesAll()
    ensures var b1 := Record(1, Buy, "X", 100.0, 2.0);
            var b2 := Record(2, Buy, "X", 110.0, 10.0);
            var s := Record(3, Sell, "X", 150.0, 5.0);
            var lots := MatchedFixed([b2, b1], [s], 120.0, 10);
            && lots == [RealizedLot(b1, s, 2.0), RealizedLot(b2, s, 3.0),
                        UnrealizedLot(b2.(quantity := 7.0), 120.0, 10)]
            && RealizedQuantity(lots) == 5.0
  {
    var b1 := Record(1, Buy, "X", 100.0, 2.0);
    var b2 := Record(2, Buy, "X", 110.0, 10.0);
    var s := Record(3, Sell, "X", 150.0, 5.0);
    var st1 := MatchStepFixed([b2, b1], [s], 120.0, 10);
    assert st1 == Step(RealizedLot(b1, s, 2.0), [b2], [s.(quantity := 3.0)]);
    var st2 := MatchStepFixed([b2], [s.(quantity := 3.0)], 120.0, 10);
    assert st2 == Step(RealizedLot(b2, s, 3.0), [b2.(quantity := 7.0)], []);
    var st3 := MatchStepFixed([b2.(quantity := 7.0)], [], 120.0, 10);
    assert st3 == Step(UnrealizedLot(b2.(quantity := 7.0), 120.0, 10), [], []);
    assert MatchedFixed([b2.(quantity := 7.0)], [], 120.0, 10) == [st3.lot];
    assert MatchedFixed([b2], [s.(quantity := 3.0)], 120.0, 10) == [st2.lot, st3.lot];
    var lots := MatchedFixed([b2, b1], [s], 120.0, 10);
    assert lots == [st1.lot, st2.lot, st3.lot];
    assert lots[1..] == [st2.lot, st3.lot] && lots[1..][1..] == [st3.lot] && lots[1..][1..][1..] == [];
    assert RealizedQuantity([st3.lot]) == 0.0;
    assert RealizedQuantity([st2.lot, st3.lot]) == 3.0;
  }
}
