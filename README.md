# Parking system bookkeeping, modelled in Dafny

This project models the in-memory core of `parking_system_finance.py`, a small
parking-lot program. Its state lives in three objects:

- a **ParkingSystem**, which keeps the open tickets by plate. `enter` opens a
  ticket. `exit` closes it, charges `hours * 5` as revenue and forgets it.
  `buy_pass` sells a pass for 100 ("monthly") or 30 (any other type).
- a **FinanceManager**, which keeps an append-only ledger of revenue and expense
  transactions, with totals and profit folded over it. It also keeps debtor and
  creditor records keyed by name (re-adding a name replaces its record), and can
  list the debtors whose record is at least 30 days old.
- a **ReportManager**, which keeps an append-only log of pass sales, with a
  grand total and totals per pass type.

Each stateful object is a Dafny `class` whose methods change its fields and state
in `ensures` clauses the new value of every field they may change. The totals are
recursive functions over the ledger and the sales log. The relations between them are lemmas:

- each ledger total is the sum of the amounts of its kind;
- profit is the running balance;
- the per-type sales totals are keyed by exactly the recorded types;
- each per-type total is that type's total;
- the per-type totals add up to the grand total;
- the old-debtor list holds exactly the old debtors, each once, in insertion order.

Files: `base.dfy` (timestamps, `Option`, `NoDuplicates`), `tickets.dfy`,
`finance.dfy`, `reports.dfy`, `parking.dfy`.

The wall clock becomes an explicit argument: every operation that reads the time
takes a `now: Timestamp` (whole seconds). Amounts are exact `real`s.

The repository's other program, `urban parking.py`, has pricing strategies by
vehicle type (`PeakPricing`/`OffPeakPricing`, urban parking.py:13-26), passes
(`MonthlyPass`/`WeeklyPass`, urban parking.py:50-65) and a fixed pool of parking
spaces (`ParkingSpace` and the capacity, urban parking.py:88-99). The program
modelled here has none of these: its fee is always `hours * 5`, whatever the
vehicle type, and buying a pass waives nothing.

## Model

| member | source | states |
|---|---|---|
| `Tickets.Ticket.constructor` | parking_system_finance.py:14-17 | a new ticket holds the given vehicle, is stamped with the entry time and has no exit time |
| `Tickets.Ticket.CloseTicket` | parking_system_finance.py:19-20 | the exit time becomes the given instant |
| `Tickets.Ticket.Hours` | parking_system_finance.py:22-23 | hours times 3600 equals the elapsed seconds, and hours are non-negative exactly when exit is not before entry |
| `Finance.FinanceManager.constructor` | parking_system_finance.py:52-55 | an empty ledger, no debtors and no creditors |
| `Finance.FinanceManager.AddRevenue` | parking_system_finance.py:57-58 | appends exactly one revenue transaction; total revenue grows by the amount, total expense and the debtor/creditor records are unchanged |
| `Finance.FinanceManager.AddExpense` | parking_system_finance.py:60-61 | mirror image: one expense transaction, total expense grows by the amount, total revenue unchanged |
| `Finance.TotalIsFilteredSum` | parking_system_finance.py:63-67 | the left fold `Total` over the ledger equals filtering the transactions of one kind and summing their amounts |
| `Finance.FinanceManager.TotalRevenue` | parking_system_finance.py:63-64 | total revenue is the sum of the amounts of the revenue transactions; `AddRevenue`/`AddExpense` state how it moves |
| `Finance.FinanceManager.TotalExpense` | parking_system_finance.py:66-67 | total expense is the sum of the amounts of the expense transactions; `AddRevenue`/`AddExpense` state how it moves |
| `Finance.TotalConcat` | parking_system_finance.py:63-67 | the revenue (or expense) total of a ledger split in two is the sum of the parts' totals |
| `Finance.ProfitIsNet` | parking_system_finance.py:69-70 | for every ledger, total revenue minus total expense equals the signed running balance |
| `Finance.FinanceManager.Profit` | parking_system_finance.py:69-70 | profit equals the ledger's running balance (revenue adds, expense subtracts) |
| `Finance.FinanceManager.AddDebtor` | parking_system_finance.py:72-73 | upsert: the name now maps to a fresh record with the given amount; an earlier record is replaced, not added to; every other name is unchanged; a new name joins the back of the iteration order |
| `Finance.FinanceManager.AddCreditor` | parking_system_finance.py:75-76 | upsert into the creditors, every other creditor and the ledger unchanged |
| `Finance.AgeInDays` | parking_system_finance.py:81 | whole days elapsed, rounded towards minus infinity: `days * 86400 <= now - date < (days + 1) * 86400` |
| `Finance.IsOld` | parking_system_finance.py:81 | a record is old exactly when at least 30 * 86400 seconds have passed since it was made |
| `Finance.OldNamesExact` | parking_system_finance.py:78-83 | filtering a duplicate-free order of name-keyed records yields exactly the names of the old ones, each once |
| `Finance.FinanceManager.OldDebtors` | parking_system_finance.py:78-83 | returns the old debtors in insertion order; a name is in the result if and only if it is a debtor whose record is old; no name twice |
| `Reports.ReportManager.constructor` | parking_system_finance.py:90-91 | an empty sales log |
| `Reports.ReportManager.RecordSale` | parking_system_finance.py:93-94 | appends exactly one sale record; the grand total and that type's total both grow by the amount |
| `Reports.ReportManager.MonthlySales` | parking_system_finance.py:96-100 | returns the sum of every recorded amount, which is also the sum of the per-type totals |
| `Reports.ByTypeKeys` | parking_system_finance.py:102-106 | the per-type totals are keyed by exactly the pass types that occur in the log |
| `Reports.ByTypeEntry` | parking_system_finance.py:102-106 | each pass type's grouped total equals the sum of that type's sale amounts (zero for an absent type) |
| `Reports.ByTypeSumsToTotal` | parking_system_finance.py:96-106 | the per-type totals add up to the grand total of the log |
| `Reports.SumValuesRemove` | parking_system_finance.py:102-106 | the sum of a map's values does not depend on the order its keys are visited in |
| `Reports.ReportManager.SalesByType` | parking_system_finance.py:102-106 | returns the per-type totals: keys are exactly the recorded pass types, each value is that type's total, and the values sum to the grand total |
| `Parking.ParkingSystem.constructor` | parking_system_finance.py:113-116 | no tickets, a fresh empty ledger and a fresh empty sales log |
| `Parking.ParkingSystem.Enter` | parking_system_finance.py:118-119 | the plate maps to a fresh open ticket for (plate, type) stamped now, replacing any earlier ticket; other plates' tickets unchanged; all tickets stay open, plate-keyed and unshared |
| `Parking.ParkingSystem.Exit` | parking_system_finance.py:122-130 | unknown plate: an error result and nothing changes; otherwise the ticket is closed now, the fee is hours * 5 (non-negative when the clock did not run back), exactly one revenue transaction of that fee is appended, the plate is removed and other tickets are untouched; debtors, their order and creditors are unchanged |
| `Parking.PassPrice` | parking_system_finance.py:133 | the price is 100 exactly for "monthly" and 30 for every other type |
| `Parking.ParkingSystem.BuyPass` | parking_system_finance.py:132-135 | the pass price is appended once as revenue and once as a sale of that type; revenue and the sales total both grow by it; tickets, debtors, their order and creditors unchanged |

## Left out

- The interactive menu loop, `input()` and every `print` (parking_system_finance.py:120, 129, 136, 142-180): console I/O. `Exit` returns the hours and the fee that the source prints.
- The wall clock (`datetime.now()`): every operation takes the instant as a `now` argument. Timestamps are whole seconds, so sub-second precision is not modelled. The 30-day test is exact for whole-second timestamps; with the source's microsecond timestamps a difference just under 30 days (say from second 0.6 to second 0.4 thirty days later) counts as 29 days, which whole seconds cannot express.
- Where the source reads the clock several times in one operation, the model uses one instant: `exit` stamps the ticket's exit and the revenue transaction (parking_system_finance.py:20, 33) with the same `now`; `buy_pass` stamps the revenue transaction and the sale record (lines 33 and 94) with the same `now`; and `old_debtors` re-reads the clock for every debtor (line 81 inside the loop at line 80), while `OldDebtors` compares every debtor against one `now`.
- Tickets.Ticket.Hours: does not round to 2 decimal places and is exact rather than floating point. The fee is therefore exact hours times 5.
- Floating-point amounts: all amounts are exact reals, so float rounding in the sums is not modelled.
- `exit` on a plate without a ticket raises `KeyError` in the source. Here it returns `UnknownPlate` and changes nothing, which matches the fact that the lookup fails before any mutation.
- Reports.ReportManager.SalesByType: returns an unordered map. It does not capture the first-occurrence key order of the source's dictionary. The order of debtors is kept because `old_debtors` returns a list in that order. The order of creditors is not kept, since nothing reads it.
- The `plate` argument of `buy_pass` is unused, as it is in the source; no pass is stored per plate.
- `urban parking.py` is not part of this model: space allocation, capacity, the Peak/OffPeak pricing strategies and pass validity.
