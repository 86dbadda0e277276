/**
 * The persisted shift record and the shift table it lives in. The table
 * stands for the relational store behind the ORM: an in-memory sequence of
 * rows that the route handlers and the month-end job read and append to.
 */
module Shifts {
  import opened Wrappers
  import opened Calendar

  /** The five statuses of the `Status` enum. */
  datatype Status = Upcoming | Pending | Logged | Requested | Paid

  /** The enum value's wire name. */
  function StatusName(s: Status): string {
    match s
    case Upcoming => "UPCOMING"
    case Pending => "PENDING"
    case Logged => "LOGGED"
    case Requested => "REQUESTED"
    case Paid => "PAID"
  }

  /** Reading a status back from its wire name. */
  function StatusFromName(name: string): (r: Option<Status>)
    ensures r.Some? ==> StatusName(r.value) == name
    ensures forall s: Status :: StatusName(s) == name ==> r == Some(s)
  {
    if name == "UPCOMING" then Some(Upcoming)
    else if name == "PENDING" then Some(Pending)
    else if name == "LOGGED" then Some(Logged)
    else if name == "REQUESTED" then Some(Requested)
    else if name == "PAID" then Some(Paid)
    else None
  }

  /**
   * A stored shift. `userId` is the owner; rows written by the month-end job
   * carry none. Row identifiers assigned by the store are not modelled.
   */
  datatype Shift = Shift(
    className: string,
    grade: string,
    status: Status,
    date: Date,
    startTime: string,
    endTime: string,
    recurring: bool,
    userId: Option<string>)

  /** The shift table. */
  class ShiftTable {
    var rows: seq<Shift>

    constructor (initial: seq<Shift>)
      ensures rows == initial
    {
      rows := initial;
    }

    /** `createMany`: the whole batch is appended at once, in order. */
    method CreateMany(batch: seq<Shift>)
      modifies this
      ensures rows == old(rows) + batch
    {
      rows := rows + batch;
    }

    /** `create`: one row appended. */
    method Create(s: Shift)
      modifies this
      ensures rows == old(rows) + [s]
    {
      rows := rows + [s];
    }
  }
}
