# Returns calculator core, modelled in Dafny

This project models `calculator.py` of the returns calculator. The calculator
reads a ledger of stock trades. Each row holds a date, an action ("Buy" or
"Sell"), a stock, a price and a quantity. From the ledger it derives:

- `_transactions`: the FIFO matcher for one stock. It sorts the stock's rows
  by date with the newest first, splits them into a buy stack and a sell
  stack, and pops the oldest buy against the oldest sell until no buy is
  left. Each iteration emits one matched lot. A buy with no sell left is
  valued at the current price on today's date, as an unrealized lot.
- `transactions`: groups the ledger by stock, in first-seen order. It then
  matches each group at that stock's current price, or 0.0 when there is no
  price.
- `cagr`: adds profit, pnl (return on investment) and duration (in years) to
  every lot, in place.
- `pnl`: builds one profit/investment bucket per stock and one named
  'TOTAL', split into realized and unrealized. It then adds their ratios.
- `cashflow`: builds the signed cash moved on each date, plus a terminal
  entry at today holding the current value of everything still held.

Modules, one file each:

| file | module | models |
|---|---|---|
| `records.dfy` | `Records` | the ledger row and lot types, the dict key order, per-stock rows, buy and sell quantity sums |
| `matching.dfy` | `Matching` | `_transactions` and `transactions` |
| `performance.dfy` | `Performance` | `cagr` |
| `aggregation.dfy` | `Aggregation` | `pnl` |
| `cashflow.dfy` | `Cashflow` | `cashflow` |

Modelling choices:

- Dates are day numbers (`int`), so `(a - b).days` is `a - b`.
- Prices and quantities are `real`.
- `date.today()` is a parameter `today`.
- Python lists used as stacks are sequences whose top is the last element, so
  `pop()` and `append()` act at the end.
- A Python dict's key order is insertion order. `StockOrder` gives the order
  in which a dict filled row by row receives its stock keys. Both
  `transactions` and `cashflow` iterate over dicts in that order.
- `sorted(..., reverse=True)` is stable. `SortByDateDesc` is a stable
  insertion sort: rows of equal date keep their input order.
- The loops that change state are methods with loop invariants:
  - the matcher loop, `Matching.MatchStock`, with `Matching.MatchOne` for one
    iteration;
  - the grouping and extending loops of `transactions`;
  - the in-place loop of `cagr`, over an `array<Lot>`;
  - both loops of `pnl` and of `cashflow`.
- Each such method is proved equal to a function, and the properties are
  proved as lemmas about that function.

What the code does, as modelled:

- `transactions` runs the matcher exactly as written, including the lines
  56-57 defect. A corrected matcher sits beside it; see "## Findings".
- `cashflow` assigns the holdings' value to the entry at today instead of
  adding it, so it replaces the net amount of that day's trades. The entry
  is written even when its value is 0.
- `cashflow` raises KeyError for a stock with no current price, whether or
  not the stock is still held.
- A ledger that sells more than it bought is not rejected: the holding goes
  negative and the matcher leaves the extra sells unmatched.

## Model

| member | source | states |
|---|---|---|
| Records.StockOrder | calculator.py:107-115 | the key order of a dict filled row by row: every stock of the ledger exactly once, nothing else |
| Records.RecordsOf | calculator.py:107-115 | a stock's group holds exactly that stock's rows |
| Records.BuyQuantityPermutation | calculator.py:14 | reordering the rows does not change their total Buy quantity |
| Matching.SortByDateDesc | calculator.py:14 | the sorted rows are in non-increasing date order and are a permutation of the input |
| Matching.SortIsStable | calculator.py:14 | the rows sharing a date keep their input order after the sort (Python's sort is stable, also with `reverse=True`) |
| Matching.SortKeepsBuyQuantity | calculator.py:14 | sorting keeps the total Buy quantity |
| Matching.Buys | calculator.py:19-22 | the buy stack holds exactly the rows whose action is Buy |
| Matching.Sells | calculator.py:19-24 | the sell stack holds exactly the rows whose action is Sell; rows with any other action are in neither stack |
| Matching.Partition | calculator.py:16-24 | the loop builds the two stacks as Buys and Sells of the sorted rows, in order |
| Matching.BuysOfDescending | calculator.py:14-22 | the buy stack is newest-first, so `pop()` yields the oldest buy |
| Matching.SellsOfDescending | calculator.py:14-24 | the sell stack is newest-first too, so `pop()` yields the oldest sell |
| Matching.BuysCarryBuyQuantity | calculator.py:19-22 | the buy stack carries the whole Buy quantity of the rows |
| Matching.MatchStep | calculator.py:26-70 | one iteration shrinks `len(buy) + len(sell)`; the lot's quantity is what left the buy stack; the lot has the popped buy's stock, date and price; it is realized iff a sell was popped, with the smaller quantity and the sell's date and price; a larger buy is requeued with its remainder; a larger sell leaves the consumed buy row on the sell stack (lines 56-57 as written); with no sell the lot is unrealized at `price` on `today` |
| Matching.MatchOne | calculator.py:28-67 | the loop body computes exactly the lot and the two stacks of `MatchStep` |
| Matching.Matched | calculator.py:26-70 | definition: the lots the `while` loop appends, in order, from the given stacks, one `MatchStep` per iteration |
| Matching.StockLots | calculator.py:6-72 | definition: `_transactions`, i.e. `Matched` over the Buys and Sells of the newest-first sorted rows |
| Matching.MatchStock | calculator.py:6-72 | `_transactions` returns exactly `StockLots`, the lots `Matched` emits from the sorted and split rows |
| Matching.MatchedConservesBuys | calculator.py:26-70 | the matched lots' quantities sum to the buy stack's quantity: every bought unit ends in exactly one lot, despite lines 56-57 |
| Matching.StepKeepsDescending | calculator.py:45-50 | a requeued buy stays on top of a newest-first stack |
| Matching.MatchedInBuyOrder | calculator.py:26-70 | FIFO: the lots come out in non-decreasing buy date, none older than the oldest buy |
| Matching.NoSellsLeft | calculator.py:63-67 | with no sells, the k-th lot is the k-th oldest buy, unrealized and valued at `price` on `today` |
| Matching.MatchedSplitsCleanly | calculator.py:35-67 | every realized lot comes before every unrealized one, and the unrealized lots are valued at `price` on `today` |
| Matching.MatchedStocks | calculator.py:31 | every lot belongs to a stock of the buy stack |
| Matching.StockLotsProperties | calculator.py:6-72 | for one stock's rows, the lots' quantities sum to the Buy quantity, are in buy-date order, and are realized first; the unrealized ones are at `price` and `today`; all are of the ledger's stocks |
| Matching.GroupByStock | calculator.py:107-115 | the grouping loop yields a group per stock, holding that stock's rows in input order, with keys in first-seen order |
| Matching.PriceOf | calculator.py:120-123 | definition: the stock's current price, 0.0 when the prices dict has none |
| Matching.LotsInOrder | calculator.py:117-125 | definition: the lots of each stock in the given key order, each matched at `PriceOf`, concatenated |
| Matching.AllLots | calculator.py:107-127 | definition: `LotsInOrder` over the first-seen stock order of the ledger |
| Matching.Transactions | calculator.py:75-127 | `transactions` returns exactly `AllLots`: the matched lots of each stock in first-seen order, each matched at its price or 0.0 when the stock has none |
| Matching.LotsInOrderProperties | calculator.py:117-125 | every lot is of a grouped stock; every unrealized lot is at its own stock's price (0.0 when missing) and dated `today` |
| Matching.LotsInOrderConservesBuys | calculator.py:117-125 | over distinct stocks, the lots' quantities sum to the Buy quantity of those stocks' rows |
| Matching.AllLotsProperties | calculator.py:75-127 | the output's quantities sum to the ledger's total Buy quantity; every lot is of a ledger stock; unrealized lots are at that stock's price and `today` |
| Matching.AsWrittenLosesSellQuantity | calculator.py:52-57 | on buys 2 then 10 and a sell of 5, the code realizes 2 against the sell and 2 against the old buy row, and then 8 unrealized: only 4 units realize, and 3 sold units vanish; the second lot is sold (day 1) before it is bought (day 2), and the sell dates run backwards, so the sell side is not FIFO |
| Matching.MatchStepFixed | calculator.py:52-57 | the corrected step requeues the sell's remainder: both stacks lose exactly the lot's quantity, the measure shrinks, and positive stacks stay positive |
| Matching.MatchedFixed | calculator.py:26-70 | definition: the `while` loop with the corrected step `MatchStepFixed` |
| Matching.FixedConservesSells | calculator.py:26-70 | with the correction, and positive quantities not oversold, the realized lots sum to the sold quantity and all lots to the bought quantity |
| Matching.FixedStepKeepsSellsDescending | calculator.py:35-57 | a corrected step sells at the date of the sell on top, keeps the sell stack newest first, and leaves on top a sell no older than that one |
| Matching.FixedInSellOrder | calculator.py:26-70 | FIFO on the sell side, with the correction: from a newest-first sell stack the realized lots come out in non-decreasing sell date, none before the sell on top |
| Matching.FixedStockSellsInOrder | calculator.py:6-72 | for one stock's rows, the corrected matcher's realized lots are in non-decreasing sell date |
| Matching.FixedRealizesAll | calculator.py:52-57 | on the same input, the corrected matcher realizes all 5 sold units, 2 from the first buy and 3 from the second, and leaves 7 unrealized |
| Performance.Profit | calculator.py:157 | definition: `quantity * (sell_price - buy_price)` |
| Performance.PnlRatio | calculator.py:158 | definition: the profit over the investment `quantity * buy_price`, defined only where that is not 0 |
| Performance.Duration | calculator.py:159 | definition: the days held over 365 |
| Performance.Raises | calculator.py:158-160 | definition: the lot makes line 158 or 160 raise ZeroDivisionError: zero investment, zero duration, or a zero price ratio with a negative exponent |
| Performance.Enrich | calculator.py:162-164 | the enriched lot carries metrics and differs from the lot in nothing else |
| Performance.FirstRaising | calculator.py:156-160 | the index of the first lot whose formulas divide by zero: no lot before it raises, and it does |
| Performance.Cagr | calculator.py:156-167 | in place: every lot before the first raising one gets profit, pnl and duration, and the rest are untouched; the outcome is that lot's ZeroDivisionError, or Done |
| Performance.LoopBodyEnriches | calculator.py:157-164 | a lot passing both division checks does not raise, and the values the body stores are its metrics |
| Performance.RaisesIffPowerFails | calculator.py:158-160 | after line 158 succeeds, line 160 raises iff the duration is 0 or a zero price ratio meets a negative exponent |
| Performance.PnlIsPriceReturn | calculator.py:157-158 | pnl is `(sell_price - buy_price) / buy_price`: the quantity cancels out |
| Performance.SameDayLotStops | calculator.py:156-160 | a lot bought and sold on the same day, or bought at price 0, makes `cagr` stop with ZeroDivisionError at that lot or an earlier one |
| Aggregation.Keys | calculator.py:200-219 | definition: the keys `pnl` creates: every lot's stock, and 'TOTAL' once there is a lot |
| Aggregation.BucketOf | calculator.py:198-230 | definition: a bucket's four sums, the profit and the investment routed to it by the realized and by the unrealized lots |
| Aggregation.AddLot | calculator.py:200-230 | one lot adds the keys of its stock and 'TOTAL' and changes no other bucket |
| Aggregation.Summarize | calculator.py:232-235 | definition: a bucket with its two ratios added |
| Aggregation.Ratio | calculator.py:234-235 | the ratio is 0.0 on zero investment, otherwise the number that times the investment gives the profit |
| Aggregation.UnseenKey | calculator.py:201-219 | a key no lot has reached has the all-zero bucket a new key is created with |
| Aggregation.OneMoreLot | calculator.py:198-230 | one more lot adds its profit and investment to the realized or unrealized side of its stock's bucket and of 'TOTAL' (twice into 'TOTAL' for a stock named 'TOTAL'); every other bucket is unchanged |
| Aggregation.AddLotStep | calculator.py:198-230 | adding a lot into the dict keeps it describing the longer list of lots |
| Aggregation.AddTransaction | calculator.py:200-230 | the loop body adds the lot into its stock's bucket and then into 'TOTAL', creating each empty on first use |
| Aggregation.Accumulate | calculator.py:198-230 | the first loop stops at the first lot without `profit` (a KeyError); otherwise it yields exactly one bucket per stock plus 'TOTAL', each holding `BucketOf` |
| Aggregation.Percentages | calculator.py:232-235 | the second loop gives every bucket, whatever the key order, its two ratios |
| Aggregation.Pnl | calculator.py:169-237 | `pnl` raises KeyError at the first lot without the `cagr` keys; otherwise its keys are the lots' stocks plus 'TOTAL' (none for no lots), and each entry summarizes its bucket |
| Aggregation.BucketSums | calculator.py:221-230 | a stock's bucket sums the profit and investment of that stock's lots; 'TOTAL' sums them over all lots, plus once more for a stock named 'TOTAL' |
| Aggregation.TotalBucket | calculator.py:211-230 | with no stock named 'TOTAL', the 'TOTAL' bucket is the plain sum over all lots |
| Cashflow.Amount | calculator.py:280-288 | definition: `-quantity * price` for a Buy, `+quantity * price` for a Sell, 0 for any other action |
| Cashflow.Change | calculator.py:280-290 | definition: `+quantity` for a Buy, `-quantity` for a Sell, 0 otherwise |
| Cashflow.Flow | calculator.py:267-290 | definition: the net amount of the rows dated `d` |
| Cashflow.Held | calculator.py:267-290 | definition: the quantity of a stock after the rows, the sum of its changes |
| Cashflow.Valuation | calculator.py:292-294 | definition: held quantity times price summed over the stocks in the given order |
| Cashflow.Expected | calculator.py:264-298 | the series has an entry for every trading date and for `today`; `today` holds the holdings' value, every other date its net amount |
| Cashflow.AddRow | calculator.py:269-290 | the loop body adds the row's signed amount to its date's entry, only for Buy and Sell, and adds its quantity change to its stock's entry (also created for any other action); a missing entry reads 0 |
| Cashflow.FlowStep | calculator.py:275-288 | after one more row the cash dict still holds, for each trading date, the net amount of that date's trades |
| Cashflow.QuantityStep | calculator.py:269-290 | after one more row the quantities dict still holds, for each stock seen, bought minus sold |
| Cashflow.Accumulate | calculator.py:264-290 | the first loop yields the net amount of every trading date and the held quantity of every stock, with stocks in first-seen order |
| Cashflow.FirstUnpriced | calculator.py:293-294 | the position of the first stock, in the dict's key order, without a price: all before it have one, and it has none |
| Cashflow.ValueHoldings | calculator.py:292-294 | the second loop stops at the first unpriced stock; otherwise it sums held quantity times price over all stocks |
| Cashflow.Cashflow | calculator.py:240-298 | `cashflow` raises KeyError on the first unpriced stock; otherwise it returns the net amount per trading date and, at `today`, the value of the holdings |
| Cashflow.TodayEntry | calculator.py:296 | writing the holdings' value at `today` over the loop's dict gives exactly the expected series |
| Cashflow.HeldIsBoughtMinusSold | calculator.py:280-290 | a stock's held quantity is its Buy quantity minus its Sell quantity |
| Cashflow.MissingPriceIff | calculator.py:293-294 | KeyError is raised iff some stock of the ledger has no price |
| Cashflow.FlatValuation | calculator.py:292-294 | with every position closed, the entry at `today` is 0 |
| Cashflow.RoundTripSeries | calculator.py:264-298 | buying 10 at 100 and selling them at 150 gives -1000 and +1500, and a 0 entry at `today` |
| Cashflow.TodayOverwritesTrades | calculator.py:296 | as written, a Buy on `today` is lost from the series: the entry holds +10 where the day's cash nets to 0 |
| Cashflow.ExpectedKeepingToday | calculator.py:292-296 | the corrected series has an entry for every trading date and for `today` |
| Cashflow.KeepingTodayAddsTodaysTrades | calculator.py:296 | the corrected series agrees with the code on every other date; at `today` it also holds the day's trades, and it equals the code when there were none |
| Cashflow.KeepingTodayExample | calculator.py:296 | corrected, the Buy on `today` nets to 0 |

## Left out

- `xirr` and `_discf` (calculator.py:300-336) are not part of this model. They find a root numerically with a library solver over floating-point powers.
- Performance.Cagr: the `cagr` key itself is not computed, because it is a real power with a fractional exponent. Its ZeroDivisionError conditions are modelled. A negative price ratio, which Python turns into a complex number, and float overflow are not modelled.
- Floating point: prices, quantities and sums are exact reals, so rounding and float comparison are not modelled.
- `date.today()` is the parameter `today`; no clock is read.
- The `deepcopy` at calculator.py:115: rows are values in the model, so copies and aliasing between the caller's dicts and the lots are not modelled. The in-place update in `cagr` is modelled on an array of lot values.
- Malformed rows are not modelled. Every row has all five fields of the right type, so a missing key or a TypeError cannot arise. Actions other than "Buy" and "Sell" are kept as `Other`.
- The order in which `pnl`'s second loop visits keys is left arbitrary. Each key's update is independent, so the values do not depend on it.
- The key order of the dicts that `cashflow` and `pnl` return is not modelled: they are `map`s. In `cashflow` the keys are the trading dates in first-seen order, then `today` (which keeps its earlier slot when it is already a trading date); `xirr` takes the first key as day 0 (calculator.py:304, 330). In `pnl` they are the first lot's stock, then 'TOTAL', then the other stocks in first-seen order.
- The other modules of the repository, which do file I/O, export parsing, trend analysis and the command line, are not part of this model.

## Findings

| source | as written | input that shows it | evidently intended | confidence | as-written member | corrected member |
|---|---|---|---|---|---|---|
| calculator.py:56-57 | when the sell is larger, the sell's remainder is computed into the popped sell row, which is then dropped; the consumed buy row is pushed onto the sell stack instead | buys of 2 (day 1) and 10 (day 2), then a sell of 5 (day 3): realized 2 + 2, the second against the old buy row as if it were a sell, sold on day 1 before its buy on day 2, then 8 unrealized; 3 sold units vanish | push the sell row with its remainder back onto the sell stack, so every sold unit is realized and sells are matched oldest first | high (not executed) | Matching.AsWrittenLosesSellQuantity | Matching.FixedConservesSells |
| calculator.py:296 | the holdings' value is assigned to the entry at today, replacing the net amount of any trades made today | one Buy of 1 at 10 on today, priced at 10: the entry is +10 where the day's cash nets to 0 (-10 paid, +10 held) | add the holdings' value to the entry at today, as same-date trades are added to each other | medium (not executed) | Cashflow.TodayOverwritesTrades | Cashflow.KeepingTodayAddsTodaysTrades |

The main model (`Matching.Transactions`, `Cashflow.Cashflow`) follows the code
as written. The corrected definitions (`Matching.MatchedFixed`,
`Matching.MatchStepFixed`, `Cashflow.ExpectedKeepingToday`) stand beside it,
with their intended properties proved: every sold unit is realized
(`Matching.FixedConservesSells`), sells are matched in date order
(`Matching.FixedInSellOrder`), and the day's trades are kept at today
(`Cashflow.KeepingTodayAddsTodaysTrades`).
