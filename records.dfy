/** Ledger rows, matched lots and the helpers shared by the calculator's
    functions.  A calendar date is its day number (what `date.toordinal()`
    gives), so a difference of dates in days is a difference of ints.
    Quantities and prices are reals. */
module Records {

  datatype Option<T> = None | Some(value: T)

  /** The `action` column of a row.  Only "Buy" and "Sell" mean anything to
      the calculator; every other spelling is kept as `Other`, whose `name`
      is never "Buy" or "Sell" (those rows are `Buy` and `Sell`). */
  datatype Action = Buy | Sell | Other(name: string)

  /** One ledger row (a record dict with keys date, action, stock, price,
      quantity). */
  datatype Record = Record(date: int, action: Action, stock: string, price: real, quantity: real)

  /** The keys that `cagr` adds to a matched lot. */
  datatype Metrics = Metrics(profit: real, pnl: real, duration: real)

  /** A matched lot (a transaction dict): the buy side, the sell side it was
      matched with (a real sell, or the current price at `today`), the matched
      quantity, and the metrics once `cagr` has added them. */
  datatype Lot = Lot(stock: string, buyDate: int, buyPrice: real,
                     sellDate: int, sellPrice: real, quantity: real,
                     realized: bool, metrics: Option<Metrics>)

  /** The stocks named by some row. */
  function Stocks(rs: seq<Record>): set<string>
  {
    set r | r in rs :: r.stock
  }

  predicate Distinct(ss: seq<string>)
  {
    forall i, j :: 0 <= i < j < |ss| ==> ss[i] != ss[j]
  }

  /** The stocks in the order in which they first occur in `rs`: the key
      order of a Python dict filled row by row. */
  function StockOrder(rs: seq<Record>): (order: seq<string>)
    ensures Distinct(order)
    ensures forall s :: s in order <==> s in Stocks(rs)
  {
    if rs == [] then []
    else
      var r := rs[|rs| - 1];
      var order := StockOrder(rs[..|rs| - 1]);
      assert rs == rs[..|rs| - 1] + [r];
      assert Stocks(rs) == Stocks(rs[..|rs| - 1]) + {r.stock};
      if r.stock in order then order else order + [r.stock]
  }

  /** The rows of one stock, in input order. */
  function RecordsOf(rs: seq<Record>, stock: string): (r: seq<Record>)
    ensures forall x :: x in r <==> x in rs && x.stock == stock
  {
    if rs == [] then []
    else
      var last := rs[|rs| - 1];
      assert rs == rs[..|rs| - 1] + [last];
      RecordsOf(rs[..|rs| - 1], stock) + if last.stock == stock then [last] else []
  }

  /** A prefix one longer is the prefix and the next element. */
  lemma PrefixStep<T>(s: seq<T>, i: nat)
    requires i < |s|
    ensures s[..i + 1] == s[..i] + [s[i]]
  {
  }

  /** One more row adds its stock. */
  lemma StocksStep(rs: seq<Record>, r: Record)
    ensures Stocks(rs + [r]) == Stocks(rs) + {r.stock}
  {
    assert forall x :: x in rs + [r] <==> x in rs || x == r;
  }

  /** One more row appends its stock to the key order when the dict that has
      a key per stock seen so far does not have it yet. */
  lemma OrderStep<V>(rs: seq<Record>, r: Record, seen: map<string, V>)
    requires seen.Keys == Stocks(rs)
    ensures StockOrder(rs + [r]) == if r.stock in seen then StockOrder(rs) else StockOrder(rs) + [r.stock]
  {
    assert (rs + [r])[..|rs|] == rs;
  }

  /** One more row is appended to the rows of its own stock only. */
  lemma RecordsOfStep(rs: seq<Record>, r: Record, stock: string)
    ensures RecordsOf(rs + [r], stock) == RecordsOf(rs, stock) + if r.stock == stock then [r] else []
  {
    assert (rs + [r])[..|rs|] == rs;
  }

  lemma {:induction false} NoRecordsOf(rs: seq<Record>, stock: string)
    requires stock !in Stocks(rs)
    ensures RecordsOf(rs, stock) == []
  {
    if rs != [] {
      assert rs == rs[..|rs| - 1] + [rs[|rs| - 1]];
      NoRecordsOf(rs[..|rs| - 1], stock);
    }
  }

  /** Total quantity of the Buy rows. */
  function BuyQuantity(rs: seq<Record>): real
  {
    if rs == [] then 0.0
    else BuyQuantity(rs[..|rs| - 1]) + if rs[|rs| - 1].action == Buy then rs[|rs| - 1].quantity else 0.0
  }

  /** Total quantity of the Sell rows. */
  function SellQuantity(rs: seq<Record>): real
  {
    if rs == [] then 0.0
    else SellQuantity(rs[..|rs| - 1]) + if rs[|rs| - 1].action == Sell then rs[|rs| - 1].quantity else 0.0
  }

  lemma {:induction false} BuyQuantityAppend(a: seq<Record>, b: seq<Record>)
    ensures BuyQuantity(a + b) == BuyQuantity(a) + BuyQuantity(b)
    decreases |b|
  {
    if b != [] {
      var n := |b| - 1;
      assert (a + b)[..|a + b| - 1] == a + b[..n];
      BuyQuantityAppend(a, b[..n]);
    } else {
      assert a + b == a;
    }
  }

  /** Taking one row out of the middle takes out its Buy quantity. */
  lemma BuyQuantityMiddle(p: seq<Record>, y: Record, q: seq<Record>)
    ensures BuyQuantity(p + [y] + q) == BuyQuantity(p + q) + BuyQuantity([y])
  {
    BuyQuantityAppend(p + [y], q);
    BuyQuantityAppend(p, [y]);
    BuyQuantityAppend(p, q);
  }

  lemma SplitAt(b: seq<Record>, k: nat)
    requires k < |b|
    ensures b == b[..k] + [b[k]] + b[k + 1..]
  {
  }

  lemma MultisetMiddle(p: seq<Record>, y: Record, q: seq<Record>)
    ensures multiset(p + q) == multiset(p + [y] + q) - multiset{y}
  {
  }

  /** Reordering the rows does not change their Buy quantity. */
  lemma {:induction false} BuyQuantityPermutation(a: seq<Record>, b: seq<Record>)
    requires multiset(a) == multiset(b)
    ensures BuyQuantity(a) == BuyQuantity(b)
    decreases |a|
  {
    if a == [] {
      assert |b| == |multiset(b)| == 0;
    } else {
      var x := a[|a| - 1];
      var a' := a[..|a| - 1];
      assert a == a' + [x];
      assert multiset(a') == multiset(a) - multiset{x};
      assert x in multiset(b);
      var k :| 0 <= k < |b| && b[k] == x;
      var p, q := b[..k], b[k + 1..];
      SplitAt(b, k);
      MultisetMiddle(p, x, q);
      calc {
        BuyQuantity(a);
        BuyQuantity(a' + [x]);
        { BuyQuantityAppend(a', [x]); }
        BuyQuantity(a') + BuyQuantity([x]);
        { BuyQuantityPermutation(a', p + q); }
        BuyQuantity(p + q) + BuyQuantity([x]);
        { BuyQuantityMiddle(p, x, q); }
        BuyQuantity(p + [x] + q);
        BuyQuantity(b);
      }
    }
  }

  /** Sum of the quantities of a list of matched lots. */
  function LotQuantity(lots: seq<Lot>): real
  {
    if lots == [] then 0.0 else lots[0].quantity + LotQuantity(lots[1..])
  }

  lemma {:induction false} LotQuantityAppend(a: seq<Lot>, b: seq<Lot>)
    ensures LotQuantity(a + b) == LotQuantity(a) + LotQuantity(b)
    decreases |a|
  {
    if a != [] {
      assert (a + b)[1..] == a[1..] + b;
      LotQuantityAppend(a[1..], b);
    } else {
      assert a + b == b;
    }
  }
}
