/** Vehicles and the tickets that record one parking session each. */
module Tickets {
  import opened Base

  /** A vehicle is identified by its plate; its type is free text. */
  datatype Vehicle = Vehicle(plate: string, vtype: string)

  /** One parking session: opened at entry, closed once at exit. */
  class Ticket {
    const vehicle: Vehicle
    const entryTime: Timestamp
    var exitTime: Option<Timestamp>

    constructor (vehicle: Vehicle, now: Timestamp)
      ensures this.vehicle == vehicle && entryTime == now && exitTime == None
    {
      this.vehicle := vehicle;
      entryTime := now;
      exitTime := None;
    }

    /** Stamps the exit time. */
    method CloseTicket(now: Timestamp)
      modifies this
      ensures exitTime == Some(now)
    {
      exitTime := Some(now);
    }

    /** The length of a closed session in hours (exact, not rounded). It is
        negative only when the exit stamp precedes the entry stamp. */
    function Hours(): (h: real)
      reads this
      requires exitTime.Some?
      ensures h * SECONDS_PER_HOUR as real == (exitTime.value - entryTime) as real
      ensures 0.0 <= h <==> entryTime <= exitTime.value
    {
      (exitTime.value - entryTime) as real / SECONDS_PER_HOUR as real
    }
  }
}
