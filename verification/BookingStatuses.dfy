/** The statuses of a booking in the seat-booking schema, which the bookings and seat-lock services
    use.  The payment services have the longer list of module Lifecycle. */
module BookingStatuses {
  datatype BookingStatus = PENDING | CONFIRMED | EXPIRED | CANCELLED | FAILED
}
