/** The states of a reservation, shared by accounting, capacity and member booking. */
module Reservations {
  datatype ReservationStatus = Waitlist | Pending | Confirmed | Arrived | Completed | Cancelled | NoShow

  datatype PaymentStatus = Unpaid | Authorized | Paid | Refunded

  /** A cancelled or missed reservation needs no capacity and cannot be settled. */
  predicate Gone(s: ReservationStatus) {
    s == Cancelled || s == NoShow
  }
}
