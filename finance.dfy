/** The bookkeeping ledger: an append-only list of transactions, totals folded
    over it, and name-keyed debtor and creditor records. */
module Finance {
  import opened Base

  datatype Kind = Revenue | Expense

  datatype Transaction = Transaction(amount: real, kind: Kind, date: Timestamp)

  /** A debtor or a creditor: who, how much, and when the record was made. */
  datatype Person = Person(name: string, amount: real, date: Timestamp)

  /** A debtor whose record is at least this many whole days old is "old". */
  const OLD_DEBT_DAYS: int := 30

  /** The sum of the amounts of the transactions of one kind, folded from the
      front of the ledger to its back. */
  function Total(txs: seq<Transaction>, kind: Kind): real
  {
    if txs == [] then 0.0
    else
      var last := txs[|txs| - 1];
      Total(txs[..|txs| - 1], kind) + (if last.kind == kind then last.amount else 0.0)
  }

  /** A transaction's effect on the balance: revenue adds, expense subtracts. */
  function Signed(tx: Transaction): real
  {
    if tx.kind == Revenue then tx.amount else -tx.amount
  }

  /** The running balance of the ledger, transaction by transaction. */
  function Net(txs: seq<Transaction>): real
  {
    if txs == [] then 0.0 else Net(txs[..|txs| - 1]) + Signed(txs[|txs| - 1])
  }

  /** A total over a ledger split in two is the sum of the totals of the parts. */
  lemma {:induction false} TotalConcat(a: seq<Transaction>, b: seq<Transaction>, kind: Kind)
    ensures Total(a + b, kind) == Total(a, kind) + Total(b, kind)
  {
    if b != [] {
      assert (a + b)[..|a + b| - 1] == a + b[..|b| - 1];
      TotalConcat(a, b[..|b| - 1], kind);
    } else {
      assert a + b == a;
    }
  }

  /** The transactions of one kind, in ledger order. */
  function OfKind(txs: seq<Transaction>, kind: Kind): seq<Transaction>
  {
    if txs == [] then []
    else if txs[0].kind == kind then [txs[0]] + OfKind(txs[1..], kind)
    else OfKind(txs[1..], kind)
  }

  /** The plain sum of the amounts of a list of transactions. */
  function SumAmounts(txs: seq<Transaction>): real
  {
    if txs == [] then 0.0 else txs[0].amount + SumAmounts(txs[1..])
  }

  /** A total is the sum of the amounts of the transactions that have its kind:
      filter first, then add up. */
  lemma {:induction false} TotalIsFilteredSum(txs: seq<Transaction>, kind: Kind)
    ensures Total(txs, kind) == SumAmounts(OfKind(txs, kind))
  {
    if txs != [] {
      var init, last := txs[..|txs| - 1], txs[|txs| - 1];
      TotalIsFilteredSum(init, kind);
      OfKindSnoc(init, last, kind);
      SumAmountsConcat(OfKind(init, kind), if last.kind == kind then [last] else []);
      assert init + [last] == txs;
    }
  }

  lemma {:induction false} OfKindSnoc(txs: seq<Transaction>, tx: Transaction, kind: Kind)
    ensures OfKind(txs + [tx], kind) == OfKind(txs, kind) + (if tx.kind == kind then [tx] else [])
  {
    if txs == [] {
      assert txs + [tx] == [tx];
    } else {
      assert (txs + [tx])[1..] == txs[1..] + [tx];
      OfKindSnoc(txs[1..], tx, kind);
    }
  }

  lemma {:induction false} SumAmountsConcat(a: seq<Transaction>, b: seq<Transaction>)
    ensures SumAmounts(a + b) == SumAmounts(a) + SumAmounts(b)
  {
    if a == [] {
      assert a + b == b;
    } else {
      assert (a + b)[1..] == a[1..] + b;
      SumAmountsConcat(a[1..], b);
    }
  }

  /** Revenue minus expense is the running balance, for every ledger. */
  lemma {:induction false} ProfitIsNet(txs: seq<Transaction>)
    ensures Total(txs, Revenue) - Total(txs, Expense) == Net(txs)
  {
    if txs != [] {
      ProfitIsNet(txs[..|txs| - 1]);
    }
  }

  /** Whole days elapsed from `date` to `now`, rounded towards minus infinity
      as a time difference's day count is. */
  function AgeInDays(now: Timestamp, date: Timestamp): (days: int)
    ensures days * SECONDS_PER_DAY <= now - date < (days + 1) * SECONDS_PER_DAY
  {
    (now - date) / SECONDS_PER_DAY
  }

  /** A record is old once at least OLD_DEBT_DAYS whole days have passed. */
  predicate IsOld(p: Person, now: Timestamp)
    ensures IsOld(p, now) <==> now - p.date >= OLD_DEBT_DAYS * SECONDS_PER_DAY
  {
    AgeInDays(now, p.date) >= OLD_DEBT_DAYS
  }

  /** Every record is filed under its own name. */
  ghost predicate Keyed(m: map<string, Person>)
  {
    forall n :: n in m ==> m[n].name == n
  }

  /** The names of the old records, visiting the records in the order of `order`. */
  function OldNames(order: seq<string>, debtors: map<string, Person>, now: Timestamp): seq<string>
    requires forall n :: n in order ==> n in debtors
  {
    if order == [] then []
    else
      var rest := OldNames(order[..|order| - 1], debtors, now);
      var d := debtors[order[|order| - 1]];
      if IsOld(d, now) then rest + [d.name] else rest
  }

  /** Filtering a duplicate-free order of keyed records yields exactly the old
      names among them, each once. */
  lemma {:induction false} OldNamesExact(order: seq<string>, debtors: map<string, Person>, now: Timestamp)
    requires forall n :: n in order ==> n in debtors
    requires Keyed(debtors) && NoDuplicates(order)
    ensures forall n :: n in OldNames(order, debtors, now) <==> n in order && IsOld(debtors[n], now)
    ensures NoDuplicates(OldNames(order, debtors, now))
  {
    if order != [] {
      var init, last := order[..|order| - 1], order[|order| - 1];
      assert order == init + [last];
      OldNamesExact(init, debtors, now);
      assert last !in init by {
        forall i | 0 <= i < |init| ensures init[i] != last {
          assert init[i] == order[i];
        }
      }
    }
  }

  class FinanceManager {
    var transactions: seq<Transaction>
    var debtors: map<string, Person>
    /** The debtors' names in the order they were first added, which is the
        order in which a dictionary hands back its values. */
    var debtorOrder: seq<string>
    var creditors: map<string, Person>

    ghost predicate Valid()
      reads this
    {
      && Keyed(debtors)
      && Keyed(creditors)
      && NoDuplicates(debtorOrder)
      && (forall n :: n in debtorOrder <==> n in debtors)
    }

    constructor ()
      ensures Valid()
      ensures transactions == [] && debtors == map[] && debtorOrder == [] && creditors == map[]
    {
      transactions := [];
      debtors := map[];
      debtorOrder := [];
      creditors := map[];
    }

    /** The sum of the amounts of the revenue transactions. */
    function TotalRevenue(): (r: real)
      reads this
      ensures r == SumAmounts(OfKind(transactions, Revenue))
    {
      TotalIsFilteredSum(transactions, Revenue);
      Total(transactions, Revenue)
    }

    /** The sum of the amounts of the expense transactions. */
    function TotalExpense(): (r: real)
      reads this
      ensures r == SumAmounts(OfKind(transactions, Expense))
    {
      TotalIsFilteredSum(transactions, Expense);
      Total(transactions, Expense)
    }

    /** Profit is the ledger's running balance. */
    function Profit(): (p: real)
      reads this
      ensures p == Net(transactions)
    {
      ProfitIsNet(transactions);
      TotalRevenue() - TotalExpense()
    }

    method AddRevenue(amount: real, now: Timestamp)
      requires Valid()
      modifies this
      ensures Valid()
      ensures transactions == old(transactions) + [Transaction(amount, Revenue, now)]
      ensures debtors == old(debtors) && debtorOrder == old(debtorOrder) && creditors == old(creditors)
      ensures TotalRevenue() == old(TotalRevenue()) + amount
      ensures TotalExpense() == old(TotalExpense())
    {
      TotalConcat(transactions, [Transaction(amount, Revenue, now)], Revenue);
      TotalConcat(transactions, [Transaction(amount, Revenue, now)], Expense);
      transactions := transactions + [Transaction(amount, Revenue, now)];
    }

    method AddExpense(amount: real, now: Timestamp)
      requires Valid()
      modifies this
      ensures Valid()
      ensures transactions == old(transactions) + [Transaction(amount, Expense, now)]
      ensures debtors == old(debtors) && debtorOrder == old(debtorOrder) && creditors == old(creditors)
      ensures TotalExpense() == old(TotalExpense()) + amount
      ensures TotalRevenue() == old(TotalRevenue())
    {
      TotalConcat(transactions, [Transaction(amount, Expense, now)], Revenue);
      TotalConcat(transactions, [Transaction(amount, Expense, now)], Expense);
      transactions := transactions + [Transaction(amount, Expense, now)];
    }

    /** Files a debtor under `name`, replacing (not adding to) any earlier
        record of that name. A new name goes to the back of the order; a
        replaced one keeps its place. */
    method AddDebtor(name: string, amount: real, now: Timestamp)
      requires Valid()
      modifies this
      ensures Valid()
      ensures debtors == old(debtors)[name := Person(name, amount, now)]
      ensures debtors[name].amount == amount
      ensures forall n :: n != name ==> (n in debtors <==> n in old(debtors))
      ensures forall n :: n != name && n in debtors ==> debtors[n] == old(debtors)[n]
      ensures debtorOrder == if name in old(debtors) then old(debtorOrder) else old(debtorOrder) + [name]
      ensures transactions == old(transactions) && creditors == old(creditors)
    {
      if name !in debtors {
        debtorOrder := debtorOrder + [name];
      }
      debtors := debtors[name := Person(name, amount, now)];
    }

    /** Files a creditor under `name`, replacing any earlier record of that name. */
    method AddCreditor(name: string, amount: real, now: Timestamp)
      requires Valid()
      modifies this
      ensures Valid()
      ensures creditors == old(creditors)[name := Person(name, amount, now)]
      ensures creditors[name].amount == amount
      ensures forall n :: n != name ==> (n in creditors <==> n in old(creditors))
      ensures forall n :: n != name && n in creditors ==> creditors[n] == old(creditors)[n]
      ensures transactions == old(transactions) && debtors == old(debtors) && debtorOrder == old(debtorOrder)
    {
      creditors := creditors[name := Person(name, amount, now)];
    }

    /** The names of the debtors whose records are at least 30 days old at
        `now`, in the order the debtors were first added. */
    method OldDebtors(now: Timestamp) returns (names: seq<string>)
      requires Valid()
      ensures names == OldNames(debtorOrder, debtors, now)
      ensures forall n :: n in names <==> n in debtors && IsOld(debtors[n], now)
      ensures NoDuplicates(names)
    {
      names := [];
      var i := 0;
      while i < |debtorOrder|
        invariant 0 <= i <= |debtorOrder|
        invariant names == OldNames(debtorOrder[..i], debtors, now)
      {
        assert debtorOrder[..i + 1][..i] == debtorOrder[..i];
        var d := debtors[debtorOrder[i]];
        if IsOld(d, now) {
          names := names + [d.name];
        }
        i := i + 1;
      }
      assert debtorOrder[..i] == debtorOrder;
      OldNamesExact(debtorOrder, debtors, now);
    }
  }
}
