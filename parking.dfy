/** The parking system: the open tickets by plate, plus the ledger and the
    sales log that exits and pass purchases feed. */
module Parking {
  import opened Base
  import opened Tickets
  import opened Finance
  import opened Reports

  /** Charge per parked hour. */
  const FEE_PER_HOUR: real := 5.0
  const MONTHLY_PASS_PRICE: real := 100.0
  /** Price of every pass type other than "monthly". */
  const OTHER_PASS_PRICE: real := 30.0

  /** The price of a pass: the monthly price for "monthly", the other price for
      any other type. */
  function PassPrice(passType: string): (price: real)
    ensures price == MONTHLY_PASS_PRICE <==> passType == "monthly"
    ensures price == MONTHLY_PASS_PRICE || price == OTHER_PASS_PRICE
  {
    if passType == "monthly" then MONTHLY_PASS_PRICE else OTHER_PASS_PRICE
  }

  /** What an exit reports: the hours and the fee charged, or that the plate
      had no ticket (the source's failed lookup). */
  datatype ExitResult = Charged(hours: real, fee: real) | UnknownPlate

  class ParkingSystem {
    var tickets: map<string, Ticket>
    const finance: FinanceManager
    const reports: ReportManager

    /** Every ticket on file is open, is filed under its vehicle's plate, and
        belongs to that plate alone. */
    ghost predicate Valid()
      reads this, finance, tickets.Values
    {
      && finance.Valid()
      && (forall p :: p in tickets ==> tickets[p].vehicle.plate == p && tickets[p].exitTime == None)
      && (forall p, q :: p in tickets && q in tickets && p != q ==> tickets[p] != tickets[q])
    }

    constructor ()
      ensures Valid()
      ensures tickets == map[] && fresh(finance) && fresh(reports)
      ensures finance.transactions == [] && finance.debtors == map[] && finance.creditors == map[]
      ensures reports.sales == []
    {
      tickets := map[];
      finance := new FinanceManager();
      reports := new ReportManager();
    }

    /** Opens a fresh ticket for `plate`, replacing any ticket the plate
        already had; no other plate's ticket changes. */
    method Enter(plate: string, vtype: string, now: Timestamp)
      requires Valid()
      modifies this
      ensures Valid()
      ensures plate in tickets && fresh(tickets[plate])
      ensures tickets[plate].vehicle == Vehicle(plate, vtype)
      ensures tickets[plate].entryTime == now && tickets[plate].exitTime == None
      ensures forall p :: p != plate ==> (p in tickets <==> p in old(tickets))
      ensures forall p :: p != plate && p in tickets ==> tickets[p] == old(tickets)[p]
    {
      var ticket := new Ticket(Vehicle(plate, vtype), now);
      tickets := tickets[plate := ticket];
    }

    /** Closes the plate's ticket, charges hours * FEE_PER_HOUR as revenue and
        forgets the ticket. A plate without a ticket changes nothing. */
    method Exit(plate: string, now: Timestamp) returns (r: ExitResult)
      requires Valid()
      modifies this, finance, if plate in tickets then {tickets[plate]} else {}
      ensures Valid()
      ensures plate !in old(tickets) ==> r == UnknownPlate && tickets == old(tickets) && unchanged(finance)
      ensures plate in old(tickets) ==>
        && r.Charged?
        && old(tickets)[plate].exitTime == Some(now)
        && r.hours * SECONDS_PER_HOUR as real == (now - old(tickets)[plate].entryTime) as real
        && r.fee == r.hours * FEE_PER_HOUR
        && (old(tickets)[plate].entryTime <= now ==> 0.0 <= r.fee)
        && tickets == old(tickets) - {plate}
        && finance.transactions == old(finance.transactions) + [Transaction(r.fee, Revenue, now)]
        && finance.TotalRevenue() == old(finance.TotalRevenue()) + r.fee
        && finance.TotalExpense() == old(finance.TotalExpense())
        && finance.debtors == old(finance.debtors) && finance.creditors == old(finance.creditors)
        && finance.debtorOrder == old(finance.debtorOrder)
    {
      if plate !in tickets {
        return UnknownPlate;
      }
      var ticket := tickets[plate];
      ticket.CloseTicket(now);
      var hours := ticket.Hours();
      var fee := hours * FEE_PER_HOUR;
      finance.AddRevenue(fee, now);
      tickets := tickets - {plate};
      r := Charged(hours, fee);
    }

    /** Sells a pass: its price is booked once as revenue and once as a sale of
        that pass type. The plate is not recorded anywhere. */
    method BuyPass(plate: string, passType: string, now: Timestamp)
      requires Valid()
      modifies finance, reports
      ensures Valid()
      ensures tickets == old(tickets)
      ensures finance.transactions == old(finance.transactions) + [Transaction(PassPrice(passType), Revenue, now)]
      ensures reports.sales == old(reports.sales) + [SaleRecord(passType, PassPrice(passType), now)]
      ensures finance.TotalRevenue() == old(finance.TotalRevenue()) + PassPrice(passType)
      ensures finance.TotalExpense() == old(finance.TotalExpense())
      ensures SalesTotal(reports.sales) == old(SalesTotal(reports.sales)) + PassPrice(passType)
      ensures finance.debtors == old(finance.debtors) && finance.creditors == old(finance.creditors)
      ensures finance.debtorOrder == old(finance.debtorOrder)
    {
      var price := PassPrice(passType);
      finance.AddRevenue(price, now);
      reports.RecordSale(passType, price, now);
    }
  }
}
