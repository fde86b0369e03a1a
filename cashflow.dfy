/** `cashflow` of calculator.py: the signed amount of money moved on each
    date, plus one entry at `today` holding the value of what is still held. */
module Cashflow {
  import opened Records

  /** Money out on a Buy, money in on a Sell, nothing otherwise. */
  function Amount(r: Record): real
  {
    match r.action
    case Buy => -1.0 * r.quantity * r.price
    case Sell => 1.0 * r.quantity * r.price
    case Other(_) => 0.0
  }

  /** What a row does to the quantity held of its stock. */
  function Change(r: Record): real
  {
    match r.action
    case Buy => r.quantity
    case Sell => -r.quantity
    case Other(_) => 0.0
  }

  predicate Trades(r: Record)
  {
    r.action == Buy || r.action == Sell
  }

  /** The dates on which some Buy or Sell happened. */
  function TradeDates(rs: seq<Record>): set<int>
  {
    set r | r in rs && Trades(r) :: r.date
  }

  /** The net amount of the Buy and Sell rows dated `d`. */
  function Flow(rs: seq<Record>, d: int): real
  {
    if rs == [] then 0.0
    else
      var last := rs[|rs| - 1];
      Flow(rs[..|rs| - 1], d) + if last.date == d then Amount(last) else 0.0
  }

  /** The quantity of `stock` held after the rows: bought minus sold. */
  function Held(rs: seq<Record>, stock: string): real
  {
    if rs == [] then 0.0
    else
      var last := rs[|rs| - 1];
      Held(rs[..|rs| - 1], stock) + if last.stock == stock then Change(last) else 0.0
  }

  /** The value of the stocks in `order` at `prices`. */
  function Valuation(order: seq<string>, rs: seq<Record>, prices: map<string, real>): real
    requires forall s :: s in order ==> s in prices
  {
    if order == [] then 0.0
    else
      var s := order[|order| - 1];
      Valuation(order[..|order| - 1], rs, prices) + Held(rs, s) * prices[s]
  }

  datatype CashflowResult =
    | Flows(cashflow: map<int, real>)
    | KeyError(stock: string)   // a stock with no current price

  /** What one more row does to the dates, the amounts and the holdings. */
  lemma OneMoreRow(rs: seq<Record>, r: Record)
    ensures TradeDates(rs + [r]) == TradeDates(rs) + if Trades(r) then {r.date} else {}
    ensures forall d :: Flow(rs + [r], d) == Flow(rs, d) + if r.date == d then Amount(r) else 0.0
    ensures forall s :: Held(rs + [r], s) == Held(rs, s) + if r.stock == s then Change(r) else 0.0
  {
    assert (rs + [r])[..|rs|] == rs;
  }

  /** The dict of amounts per date describes the rows. */
  predicate FlowsOf(cashflow: map<int, real>, rs: seq<Record>)
  {
    && cashflow.Keys == TradeDates(rs)
    && forall d :: d in cashflow ==> cashflow[d] == Flow(rs, d)
  }

  /** The dict of quantities per stock describes the rows. */
  predicate QuantitiesOf(quantities: map<string, real>, rs: seq<Record>)
  {
    && quantities.Keys == Stocks(rs)
    && forall s :: s in quantities ==> quantities[s] == Held(rs, s)
  }

  /** After one more row, the amounts per date describe the longer ledger. */
  lemma FlowStep(cashflow: map<int, real>, cashflow': map<int, real>, rs: seq<Record>, r: Record)
    requires FlowsOf(cashflow, rs)
    requires cashflow' == if Trades(r)
                          then cashflow[r.date := (if r.date in cashflow then cashflow[r.date] else 0.0) + Amount(r)]
                          else cashflow
    ensures FlowsOf(cashflow', rs + [r])
  {
    OneMoreRow(rs, r);
    if r.date !in cashflow {
      NoFlowYet(rs, r.date);
    }
  }

  /** After one more row, the quantities per stock describe the longer ledger. */
  lemma QuantityStep(quantities: map<string, real>, quantities': map<string, real>, rs: seq<Record>, r: Record)
    requires QuantitiesOf(quantities, rs)
    requires quantities' == quantities[r.stock := (if r.stock in quantities then quantities[r.stock] else 0.0) + Change(r)]
    ensures QuantitiesOf(quantities', rs + [r])
  {
    OneMoreRow(rs, r);
    StocksStep(rs, r);
    if r.stock !in quantities {
      NotHeldYet(rs, r.stock);
    }
  }

  /** The body of the `for record in records` loop: the row's amount is added
      to its date's entry (Buy and Sell only) and its quantity change to its
      stock's entry, each entry read as 0 when absent.  Any other action still
      creates the stock's entry. */
  method AddRow(cashflow: map<int, real>, quantities: map<string, real>, record: Record)
    returns (cashflow': map<int, real>, quantities': map<string, real>)
    ensures cashflow' == if Trades(record)
                         then cashflow[record.date := (if record.date in cashflow then cashflow[record.date] else 0.0) + Amount(record)]
                         else cashflow
    ensures quantities' == quantities[record.stock := (if record.stock in quantities then quantities[record.stock] else 0.0) + Change(record)]
  {
    cashflow' := cashflow;
    var stock := record.stock;
    var quantity := if stock in quantities then quantities[stock] else 0.0;
    var cashflowItem := if record.date in cashflow then cashflow[record.date] else 0.0;
    if record.action == Buy {
      quantity := quantity + record.quantity;
      var amount := -1.0 * record.quantity * record.price;
      cashflow' := cashflow[record.date := cashflowItem + amount];
      assert Trades(record) && amount == Amount(record);
    } else if record.action == Sell {
      quantity := quantity - record.quantity;
      var amount := 1.0 * record.quantity * record.price;
      cashflow' := cashflow[record.date := cashflowItem + amount];
      assert Trades(record) && amount == Amount(record);
    } else {
      assert !Trades(record) && Change(record) == 0.0;
    }
    quantities' := quantities[stock := quantity];
  }

  /** The `for record in records` loop: amounts per date, quantities per
      stock, and the stocks in the order the quantities dict got them. */
  method Accumulate(records: seq<Record>)
    returns (cashflow: map<int, real>, quantities: map<string, real>, order: seq<string>)
    ensures FlowsOf(cashflow, records)
    ensures QuantitiesOf(quantities, records)
    ensures order == StockOrder(records)
  {
    cashflow, quantities, order := map[], map[], [];
    for i := 0 to |records|
      invariant FlowsOf(cashflow, records[..i])
      invariant QuantitiesOf(quantities, records[..i])
      invariant order == StockOrder(records[..i])
    {
      var record := records[i];
      ghost var seen := records[..i];
      PrefixStep(records, i);
      OrderStep(seen, record, quantities);
      if record.stock !in quantities {
        order := order + [record.stock];
      }
      var cashflow', quantities' := AddRow(cashflow, quantities, record);
      FlowStep(cashflow, cashflow', seen, record);
      QuantityStep(quantities, quantities', seen, record);
      cashflow, quantities := cashflow', quantities';
    }
    assert records[..|records|] == records;
  }

  lemma {:induction false} NotHeldYet(rs: seq<Record>, stock: string)
    requires stock !in Stocks(rs)
    ensures Held(rs, stock) == 0.0
  {
    if rs != [] {
      assert rs == rs[..|rs| - 1] + [rs[|rs| - 1]];
      NotHeldYet(rs[..|rs| - 1], stock);
    }
  }

  lemma {:induction false} NoFlowYet(rs: seq<Record>, d: int)
    requires d !in TradeDates(rs)
    ensures Flow(rs, d) == 0.0
  {
    if rs != [] {
      assert rs == rs[..|rs| - 1] + [rs[|rs| - 1]];
      NoFlowYet(rs[..|rs| - 1], d);
    }
  }

  /** The position in `order` of the first stock without a price, `|order|`
      when every stock has one. */
  function FirstUnpriced(order: seq<string>, prices: map<string, real>): (k: nat)
    ensures k <= |order|
    ensures forall j :: 0 <= j < k ==> order[j] in prices
    ensures k < |order| ==> order[k] !in prices
  {
    if order == [] || order[0] !in prices then 0 else 1 + FirstUnpriced(order[1..], prices)
  }

  lemma {:induction false} FirstUnpricedIs(order: seq<string>, prices: map<string, real>, k: nat)
    requires k <= |order|
    requires forall j :: 0 <= j < k ==> order[j] in prices
    requires k < |order| ==> order[k] !in prices
    ensures FirstUnpriced(order, prices) == k
  {
    if k > 0 {
      FirstUnpricedIs(order[1..], prices, k - 1);
    }
  }

  /** The dict `cashflow` returns when every stock has a price: the net
      amount of each trading date, except that the entry at `today` is the
      value of the holdings. */
  function Expected(records: seq<Record>, prices: map<string, real>, today: int): (m: map<int, real>)
    requires forall s :: s in Stocks(records) ==> s in prices
    ensures m.Keys == TradeDates(records) + {today}
  {
    map d | d in TradeDates(records) + {today} ::
      if d == today then Valuation(StockOrder(records), records, prices) else Flow(records, d)
  }

  /** The `for stock in quantities` loop: the value of the holdings at the
      current prices, stopping at the first stock without a price (`missing`
      is its position, `|order|` when there is none). */
  method ValueHoldings(order: seq<string>, quantities: map<string, real>, records: seq<Record>, prices: map<string, real>)
    returns (cashflowToday: real, missing: nat)
    requires QuantitiesOf(quantities, records) && order == StockOrder(records)
    ensures missing == FirstUnpriced(order, prices)
    ensures missing == |order| ==> cashflowToday == Valuation(order, records, prices)
  {
    cashflowToday := 0.0;
    for k := 0 to |order|
      invariant forall j :: 0 <= j < k ==> order[j] in prices
      invariant cashflowToday == Valuation(order[..k], records, prices)
    {
      var stock := order[k];
      if stock !in prices {
        FirstUnpricedIs(order, prices, k);
        return cashflowToday, k;
      }
      assert stock in quantities;
      var held := quantities[stock];
      var price := prices[stock];
      ValuationStep(order, k, records, prices, held, price);
      cashflowToday := cashflowToday + held * price;
    }
    FirstUnpricedIs(order, prices, |order|);
    assert order[..|order|] == order;
    missing := |order|;
  }

  /** `cashflow(records, prices)` with `date.today()` as `today`.  A stock
      without a price raises KeyError, for the first such stock in the
      dict's key order; otherwise the result is `Expected`. */
  method Cashflow(records: seq<Record>, prices: map<string, real>, today: int) returns (result: CashflowResult)
    ensures var order := StockOrder(records);
            var k := FirstUnpriced(order, prices);
            result == if k < |order| then KeyError(order[k]) else Flows(Expected(records, prices, today))
  {
    var cashflow, quantities, order := Accumulate(records);
    var cashflowToday, missing := ValueHoldings(order, quantities, records, prices);
    if missing < |order| {
      return KeyError(order[missing]);
    }
    cashflow := cashflow[today := cashflowToday];
    TodayEntry(cashflow, records, prices, today);
    return Flows(cashflow);
  }

  /** The dict the loops leave, with the holdings' value written at `today`,
      is `Expected`. */
  lemma TodayEntry(cashflow: map<int, real>, records: seq<Record>, prices: map<string, real>, today: int)
    requires forall s :: s in Stocks(records) ==> s in prices
    requires cashflow.Keys == TradeDates(records) + {today}
    requires forall d :: d in cashflow && d != today ==> cashflow[d] == Flow(records, d)
    requires today in cashflow && cashflow[today] == Valuation(StockOrder(records), records, prices)
    ensures cashflow == Expected(records, prices, today)
  {
    var e := Expected(records, prices, today);
    assert cashflow.Keys == e.Keys;
    forall d | d in e ensures cashflow[d] == e[d] {
    }
  }

  lemma ValuationStep(order: seq<string>, k: nat, rs: seq<Record>, prices: map<string, real>, held: real, price: real)
    requires k < |order|
    requires forall j :: 0 <= j <= k ==> order[j] in prices
    requires held == Held(rs, order[k]) && price == prices[order[k]]
    ensures Valuation(order[..k + 1], rs, prices) == Valuation(order[..k], rs, prices) + held * price
  {
    assert order[..k + 1][..k] == order[..k];
  }

  /** The held quantity is what was bought minus what was sold. */
  lemma {:induction false} HeldIsBoughtMinusSold(rs: seq<Record>, stock: string)
    ensures Held(rs, stock) == BuyQuantity(RecordsOf(rs, stock)) - SellQuantity(RecordsOf(rs, stock))
  {
    if rs != [] {
      var p, last := rs[..|rs| - 1], rs[|rs| - 1];
      HeldIsBoughtMinusSold(p, stock);
      var q := RecordsOf(p, stock);
      if last.stock == stock {
        assert (q + [last])[..|q|] == q;
      } else {
        assert q + [] == q;
      }
    }
  }

  /** KeyError is raised exactly when some stock of the ledger has no price. */
  lemma MissingPriceIff(records: seq<Record>, prices: map<string, real>)
    ensures FirstUnpriced(StockOrder(records), prices) < |StockOrder(records)|
            <==> exists s :: s in Stocks(records) && s !in prices
  {
    var order := StockOrder(records);
    var k := FirstUnpriced(order, prices);
    if k < |order| {
      assert order[k] in Stocks(records);
    } else {
      forall s | s in Stocks(records) ensures s in prices {
        var j :| 0 <= j < |order| && order[j] == s;
      }
    }
  }

  /** With every position closed, the entry at `today` is 0. */
  lemma {:induction false} FlatValuation(order: seq<string>, rs: seq<Record>, prices: map<string, real>)
    requires forall s :: s in order ==> s in prices
    requires forall s :: s in order ==> Held(rs, s) == 0.0
    ensures Valuation(order, rs, prices) == 0.0
  {
    if order != [] {
      var p := order[..|order| - 1];
      assert forall s :: s in p ==> s in order;
      FlatValuation(p, rs, prices);
    }
  }

  /** Buy 10 at 100 on 2020-01-01 (day 0) and sell them at 150 on 2021-01-01
      (day 366): the series is -1000 then +1500, and the entry at `today`
      is there with the value 0 of the closed position. */
  lemma RoundTripSeries()
    ensures var records := [Record(0, Buy, "X", 100.0, 10.0), Record(366, Sell, "X", 150.0, 10.0)];
            Expected(records, map["X" := 200.0], 400) == map[0 := -1000.0, 366 := 1500.0, 400 := 0.0]
  {
    var records := [Record(0, Buy, "X", 100.0, 10.0), Record(366, Sell, "X", 150.0, 10.0)];
    var prices := map["X" := 200.0];
    RoundTripRows(records);
    assert Valuation(["X"], records, prices) == 0.0 by {
      assert ["X"][..0] == [];
    }
    var e := Expected(records, prices, 400);
    var m := map[0 := -1000.0, 366 := 1500.0, 400 := 0.0];
    assert e.Keys == m.Keys;
    assert forall d :: d in m ==> e[d] == m[d];
  }

  /** The dates, the stocks, the amounts and the holding of the round trip. */
  lemma RoundTripRows(records: seq<Record>)
    requires records == [Record(0, Buy, "X", 100.0, 10.0), Record(366, Sell, "X", 150.0, 10.0)]
    ensures TradeDates(records) == {0, 366}
    ensures StockOrder(records) == ["X"]
    ensures Held(records, "X") == 0.0
    ensures Flow(records, 0) == -1000.0 && Flow(records, 366) == 1500.0
  {
    var b, s := records[0], records[1];
    assert records[..1] == [b];
    assert [b][..0] == [];
    assert TradeDates(records) == {0, 366} by {
      assert forall r :: r in records <==> r == b || r == s;
    }
    assert StockOrder([b]) == ["X"];
    assert Held([b], "X") == 10.0;
    assert Flow([b], 0) == -1000.0 && Flow([b], 366) == 0.0;
  }


  // ---------------------------------------------------------------------
  // The entry at today replaces that day's trades
  // ---------------------------------------------------------------------

  /** As written, a trade made on `today` disappears from the series: one
      Buy of 1 at 10 on `today` leaves the entry +10 (the holding's value)
      where the money actually moved that day nets to 0. */
  lemma TodayOverwritesTrades()
    ensures var records := [Record(5, Buy, "X", 10.0, 1.0)];
            && Flow(records, 5) == -10.0
            && Expected(records, map["X" := 10.0], 5) == map[5 := 10.0]
  {
    var b := Record(5, Buy, "X", 10.0, 1.0);
    var records := [b];
    var prices := map["X" := 10.0];
    assert records[..0] == [];
    assert TradeDates(records) == {5};
    assert Stocks(records) == {"X"};
    assert StockOrder(records) == ["X"];
    assert Held(records, "X") == 1.0;
    assert Valuation(["X"], records, prices) == 10.0 by {
      assert ["X"][..0] == [];
    }
    var e := Expected(records, prices, 5);
    assert e.Keys == {5};
    OneEntry(e, 5, 10.0);
  }

  lemma OneEntry(m: map<int, real>, k: int, v: real)
    requires m.Keys == {k} && m[k] == v
    ensures m == map[k := v]
  {
  }

  /** The series with the holdings' value ADDED to the entry at `today`, so
      that the day's trades are kept. */
  function ExpectedKeepingToday(records: seq<Record>, prices: map<string, real>, today: int): (m: map<int, real>)
    requires forall s :: s in Stocks(records) ==> s in prices
    ensures m.Keys == TradeDates(records) + {today}
  {
    map d | d in TradeDates(records) + {today} ::
      Flow(records, d) + if d == today then Valuation(StockOrder(records), records, prices) else 0.0
  }

  /** The two agree on every date but `today`, where the corrected entry
      also holds the money that day's trades moved. */
  lemma KeepingTodayAddsTodaysTrades(records: seq<Record>, prices: map<string, real>, today: int)
    requires forall s :: s in Stocks(records) ==> s in prices
    ensures forall d :: d in TradeDates(records) && d != today ==>
              ExpectedKeepingToday(records, prices, today)[d] == Expected(records, prices, today)[d]
    ensures ExpectedKeepingToday(records, prices, today)[today]
         == Expected(records, prices, today)[today] + Flow(records, today)
    ensures today !in TradeDates(records) ==>
              ExpectedKeepingToday(records, prices, today)[today] == Expected(records, prices, today)[today]
  {
    if today !in TradeDates(records) {
      NoFlowYet(records, today);
    }
  }

  /** Kept that way, the Buy on `today` nets to 0. */
  lemma KeepingTodayExample()
    ensures ExpectedKeepingToday([Record(5, Buy, "X", 10.0, 1.0)], map["X" := 10.0], 5) == map[5 := 0.0]
  {
    var b := Record(5, Buy, "X", 10.0, 1.0);
    var records := [b];
    var prices := map["X" := 10.0];
    assert records[..0] == [];
    assert TradeDates(records) == {5};
    assert Stocks(records) == {"X"};
    assert StockOrder(records) == ["X"];
    assert Held(records, "X") == 1.0;
    assert Valuation(["X"], records, prices) == 10.0 by {
      assert ["X"][..0] == [];
    }
    assert Flow(records, 5) == -10.0;
    var e := ExpectedKeepingToday(records, prices, 5);
    assert e.Keys == {5};
    assert e[5] == 0.0;
    OneEntry(e, 5, 0.0);
  }
}
