/** The sales log: an append-only list of pass sales, its grand total and its
    totals grouped by pass type. */
module Reports {
  import opened Base

  datatype SaleRecord = SaleRecord(passType: string, amount: real, date: Timestamp)

  /** The sum of all recorded sale amounts, folded from front to back. */
  function SalesTotal(sales: seq<SaleRecord>): real
  {
    if sales == [] then 0.0 else SalesTotal(sales[..|sales| - 1]) + sales[|sales| - 1].amount
  }

  /** The sum of the amounts of the sales of one pass type. */
  function TypeTotal(sales: seq<SaleRecord>, passType: string): real
  {
    if sales == [] then 0.0
    else
      var last := sales[|sales| - 1];
      TypeTotal(sales[..|sales| - 1], passType) + (if last.passType == passType then last.amount else 0.0)
  }

  /** The pass types that occur in the log. */
  function PassTypes(sales: seq<SaleRecord>): set<string>
  {
    set i | 0 <= i < |sales| :: sales[i].passType
  }

  /** A map lookup that reads a missing key as zero. */
  function GetOrZero(m: map<string, real>, key: string): real
  {
    if key in m then m[key] else 0.0
  }

  /** Sale amounts accumulated per pass type, one record at a time. */
  function ByType(sales: seq<SaleRecord>): map<string, real>
  {
    if sales == [] then map[]
    else
      var m := ByType(sales[..|sales| - 1]);
      var last := sales[|sales| - 1];
      m[last.passType := GetOrZero(m, last.passType) + last.amount]
  }

  /** Some key of a non-empty map (always the same one for the same map). */
  ghost function Pick(m: map<string, real>): (k: string)
    requires m != map[]
    ensures k in m
  {
    var k :| k in m; k
  }

  /** The sum of the values of a map. */
  ghost function SumValues(m: map<string, real>): real
    decreases |m|
  {
    if m == map[] then 0.0
    else
      var k := Pick(m);
      assert |(m - {k}).Keys| < |m.Keys| by {
        assert (m - {k}).Keys == m.Keys - {k};
      }
      m[k] + SumValues(m - {k})
  }

  /** SumValues does not depend on which key it takes first. */
  lemma {:induction false} SumValuesRemove(m: map<string, real>, k: string)
    requires k in m
    ensures SumValues(m) == m[k] + SumValues(m - {k})
    decreases |m|
  {
    var j := Pick(m);
    if j != k {
      assert (m - {j}).Keys == m.Keys - {j};
      assert (m - {k}).Keys == m.Keys - {k};
      SumValuesRemove(m - {j}, k);
      SumValuesRemove(m - {k}, j);
      assert m - {j} - {k} == m - {k} - {j};
    }
  }

  /** Raising one key's value (or adding the key with that value) raises the
      sum of the values by the same amount. */
  lemma SumValuesAdd(m: map<string, real>, k: string, a: real)
    ensures SumValues(m[k := GetOrZero(m, k) + a]) == SumValues(m) + a
  {
    var m' := m[k := GetOrZero(m, k) + a];
    SumValuesRemove(m', k);
    assert m' - {k} == m - {k};
    if k in m {
      SumValuesRemove(m, k);
    } else {
      assert m - {k} == m;
    }
  }

  /** The grouped totals are keyed by exactly the pass types in the log. */
  lemma {:induction false} ByTypeKeys(sales: seq<SaleRecord>)
    ensures ByType(sales).Keys == PassTypes(sales)
  {
    if sales != [] {
      var init := sales[..|sales| - 1];
      ByTypeKeys(init);
      assert PassTypes(sales) == PassTypes(init) + {sales[|sales| - 1].passType} by {
        forall t | t in PassTypes(sales) ensures t in PassTypes(init) + {sales[|sales| - 1].passType} {
          var i :| 0 <= i < |sales| && sales[i].passType == t;
          if i < |sales| - 1 {
            assert init[i] == sales[i];
          }
        }
        forall t | t in PassTypes(init) ensures t in PassTypes(sales) {
          var i :| 0 <= i < |init| && init[i].passType == t;
          assert sales[i] == init[i];
        }
      }
    }
  }

  /** The grouped total of each pass type is the total of that type's sales. */
  lemma {:induction false} ByTypeEntry(sales: seq<SaleRecord>, passType: string)
    ensures GetOrZero(ByType(sales), passType) == TypeTotal(sales, passType)
  {
    if sales != [] {
      ByTypeEntry(sales[..|sales| - 1], passType);
    }
  }

  /** The grouped totals add up to the grand total. */
  lemma {:induction false} ByTypeSumsToTotal(sales: seq<SaleRecord>)
    ensures SumValues(ByType(sales)) == SalesTotal(sales)
  {
    if sales != [] {
      var init, last := sales[..|sales| - 1], sales[|sales| - 1];
      ByTypeSumsToTotal(init);
      SumValuesAdd(ByType(init), last.passType, last.amount);
    }
  }

  class ReportManager {
    var sales: seq<SaleRecord>

    constructor ()
      ensures sales == []
    {
      sales := [];
    }

    method RecordSale(passType: string, amount: real, now: Timestamp)
      modifies this
      ensures sales == old(sales) + [SaleRecord(passType, amount, now)]
      ensures SalesTotal(sales) == old(SalesTotal(sales)) + amount
      ensures TypeTotal(sales, passType) == old(TypeTotal(sales, passType)) + amount
    {
      var before := sales;
      sales := sales + [SaleRecord(passType, amount, now)];
      assert sales[..|sales| - 1] == before;
    }

    /** The sum of every recorded sale (of every date, not only this month's). */
    method MonthlySales() returns (total: real)
      ensures total == SalesTotal(sales)
      ensures total == SumValues(ByType(sales))
    {
      total := 0.0;
      var i := 0;
      while i < |sales|
        invariant 0 <= i <= |sales|
        invariant total == SalesTotal(sales[..i])
      {
        assert sales[..i + 1][..i] == sales[..i];
        total := total + sales[i].amount;
        i := i + 1;
      }
      assert sales[..i] == sales;
      ByTypeSumsToTotal(sales);
    }

    /** The sale amounts summed per pass type. */
    method SalesByType() returns (result: map<string, real>)
      ensures result == ByType(sales)
      ensures result.Keys == PassTypes(sales)
      ensures forall t :: t in result ==> result[t] == TypeTotal(sales, t)
      ensures SumValues(result) == SalesTotal(sales)
    {
      result := map[];
      var i := 0;
      while i < |sales|
        invariant 0 <= i <= |sales|
        invariant result == ByType(sales[..i])
      {
        assert sales[..i + 1][..i] == sales[..i];
        var s := sales[i];
        result := result[s.passType := GetOrZero(result, s.passType) + s.amount];
        i := i + 1;
      }
      assert sales[..i] == sales;
      ByTypeKeys(sales);
      ByTypeSumsToTotal(sales);
      forall t | t in result
        ensures result[t] == TypeTotal(sales, t)
      {
        ByTypeEntry(sales, t);
      }
    }
  }
}
