/** The booking handlers of backend/controllers/bookingController.js, as methods over
    the store. Each handler's HTTP error response is an `Err` value; the store is
    left as it was on every error path. */
module BookingController {
  import opened Wrappers
  import opened ParkingSlot
  import opened Database
  import Pricing

  datatype BookingError =
    | SlotNotFound        // 404 'Parking slot not found'
    | SlotNotAvailable    // 400 'Parking slot is not available'
    | SlotAlreadyBooked   // 400 'Slot already booked for this time period'
    | BookingNotFound     // 404 'Booking not found'
    | AccessDenied        // 403 'Access denied'
    | CannotCancel        // 400 'Cannot cancel this booking'
    | ServerError         // 500 'Server error'

  function HttpStatus(e: BookingError): int
  {
    match e
    case SlotNotFound => 404
    case SlotNotAvailable => 400
    case SlotAlreadyBooked => 400
    case BookingNotFound => 404
    case AccessDenied => 403
    case CannotCancel => 400
    case ServerError => 500
  }

  /** The body of a booking request; times are milliseconds since the epoch. */
  datatype BookingRequest = BookingRequest(
    parkingSlotId: SlotId,
    vehicleNumber: string,
    vehicleModel: string,
    startTime: int,
    endTime: int)

  /** The document createBooking stores: a pending, unpaid booking whose hours are the
      duration rounded up and whose price is those hours at the slot's rate. Nothing
      checks that the end lies after the start. */
  function NewBooking(user: UserId, req: BookingRequest, rate: int): (b: Booking)
    ensures b.status == Pending && b.paymentStatus == PaymentPending && b.paymentId == None
    ensures b.user == user && b.slot == req.parkingSlotId
    ensures b.vehicleNumber == req.vehicleNumber && b.vehicleModel == req.vehicleModel
    ensures b.startTime == req.startTime && b.endTime == req.endTime
    ensures (b.totalHours - 1) * Pricing.MsPerHour < b.endTime - b.startTime <= b.totalHours * Pricing.MsPerHour
    ensures b.totalPrice == b.totalHours * rate
  {
    var hours := Pricing.CeilHours(req.endTime - req.startTime);
    Booking(user, req.parkingSlotId, req.vehicleNumber, req.vehicleModel,
            req.startTime, req.endTime, hours, hours * rate,
            Pending, PaymentPending, None)
  }

  /** `Booking.findOne(...)` for the overlap check: the first booking, in id order,
      that is active on the slot and meets `[start, end]`. */
  method FindOverlapping(db: Store, slot: SlotId, start: int, end: int) returns (found: Option<BookingId>)
    requires db.Valid()
    ensures found.Some? ==> found.value in db.bookings && ConflictsWith(db.bookings[found.value], slot, start, end)
    ensures found.None? <==> !HasConflict(db.bookings, slot, start, end)
  {
    var id := 0;
    while id < db.nextBookingId
      invariant id <= db.nextBookingId
      invariant forall k :: 0 <= k < id && k in db.bookings ==> !ConflictsWith(db.bookings[k], slot, start, end)
    {
      if id in db.bookings && ConflictsWith(db.bookings[id], slot, start, end) {
        return Some(id);
      }
      id := id + 1;
    }
    return None;
  }

  /** createBooking: the slot must exist and be flagged available, and no active
      booking of it may meet the requested interval; then the booking is stored and
      the slot flagged unavailable. */
  method CreateBooking(db: Store, actor: Actor, req: BookingRequest) returns (r: Result<BookingId, BookingError>)
    requires db.Valid()
    modifies db
    ensures db.Valid()
    ensures r == Err(SlotNotFound) <==> req.parkingSlotId !in old(db.slots)
    ensures r == Err(SlotNotAvailable) <==>
      req.parkingSlotId in old(db.slots) && !old(db.slots)[req.parkingSlotId].isAvailable
    ensures r == Err(SlotAlreadyBooked) <==>
      && req.parkingSlotId in old(db.slots) && old(db.slots)[req.parkingSlotId].isAvailable
      && HasConflict(old(db.bookings), req.parkingSlotId, req.startTime, req.endTime)
    ensures r.Ok? || r == Err(SlotNotFound) || r == Err(SlotNotAvailable) || r == Err(SlotAlreadyBooked)
    ensures r.Err? ==> unchanged(db)
    ensures r.Ok? ==>
      && r.value == old(db.nextBookingId) && r.value !in old(db.bookings)
      && db.nextBookingId == old(db.nextBookingId) + 1 && db.nextSlotId == old(db.nextSlotId)
      && db.bookings == old(db.bookings)[r.value := NewBooking(actor.id, req, old(db.slots)[req.parkingSlotId].pricePerHour)]
      && db.slots == old(db.slots)[req.parkingSlotId := old(db.slots)[req.parkingSlotId].(isAvailable := false)]
    ensures NoOverlap(old(db.bookings)) ==> NoOverlap(db.bookings)
  {
    if req.parkingSlotId !in db.slots {
      return Err(SlotNotFound);
    }
    var slot := db.slots[req.parkingSlotId];
    if !slot.isAvailable {
      return Err(SlotNotAvailable);
    }
    var overlapping := FindOverlapping(db, req.parkingSlotId, req.startTime, req.endTime);
    if overlapping.Some? {
      return Err(SlotAlreadyBooked);
    }
    var booking := NewBooking(actor.id, req, slot.pricePerHour);
    var id := db.nextBookingId;
    if NoOverlap(db.bookings) {
      InsertKeepsNoOverlap(db.bookings, id, booking);
    }
    db.bookings := db.bookings[id := booking];
    db.nextBookingId := id + 1;
    db.slots := db.slots[req.parkingSlotId := slot.(isAvailable := false)];
    r := Ok(id);
  }

  /** getUserBookings: the caller's bookings, newest first. */
  method GetUserBookings(db: Store, user: UserId) returns (ids: seq<BookingId>, list: seq<Booking>)
    requires db.Valid()
    ensures forall id :: id in ids <==> id in db.bookings && db.bookings[id].user == user
    ensures forall i, j :: 0 <= i < j < |ids| ==> ids[i] > ids[j]
    ensures |list| == |ids| && forall i :: 0 <= i < |ids| ==> list[i] == db.bookings[ids[i]]
  {
    ids, list := [], [];
    var k := db.nextBookingId;
    while k > 0
      invariant k <= db.nextBookingId
      invariant forall id :: id in ids <==> k <= id && id in db.bookings && db.bookings[id].user == user
      invariant forall i, j :: 0 <= i < j < |ids| ==> ids[i] > ids[j]
      invariant forall i :: 0 <= i < |ids| ==> ids[i] >= k
      invariant |list| == |ids| && forall i :: 0 <= i < |ids| ==> ids[i] in db.bookings && list[i] == db.bookings[ids[i]]
    {
      k := k - 1;
      if k in db.bookings && db.bookings[k].user == user {
        ids, list := ids + [k], list + [db.bookings[k]];
      }
    }
  }

  /** getBookingById: the booking, for its owner or an admin. */
  method GetBookingById(db: Store, id: BookingId, actor: Actor) returns (r: Result<Booking, BookingError>)
    ensures r == Err(BookingNotFound) <==> id !in db.bookings
    ensures r == Err(AccessDenied) <==> id in db.bookings && !CanAccess(db.bookings[id], actor)
    ensures r.Ok? <==> id in db.bookings && CanAccess(db.bookings[id], actor)
    ensures r.Ok? ==> r.value == db.bookings[id]
  {
    if id !in db.bookings {
      return Err(BookingNotFound);
    }
    var booking := db.bookings[id];
    if booking.user != actor.id && actor.role != Admin {
      return Err(AccessDenied);
    }
    return Ok(booking);
  }

  /** cancelBooking: the owner or an admin cancels an active booking; the slot is then
      flagged available whatever other bookings it has. */
  method CancelBooking(db: Store, id: BookingId, actor: Actor) returns (r: Result<Booking, BookingError>)
    requires db.Valid()
    modifies db
    ensures db.Valid()
    ensures r == Err(BookingNotFound) <==> id !in old(db.bookings)
    ensures r == Err(AccessDenied) <==> id in old(db.bookings) && !CanAccess(old(db.bookings)[id], actor)
    ensures r == Err(CannotCancel) <==>
      id in old(db.bookings) && CanAccess(old(db.bookings)[id], actor) && !IsActive(old(db.bookings)[id].status)
    ensures r.Ok? || r == Err(BookingNotFound) || r == Err(AccessDenied) || r == Err(CannotCancel)
    ensures r.Err? ==> unchanged(db)
    ensures r.Ok? ==>
      && db.bookings == SetStatus(old(db.bookings), id, Cancelled)
      && db.slots == SetAvailability(old(db.slots), old(db.bookings)[id].slot, true)
      && r.value == db.bookings[id]
      && db.nextSlotId == old(db.nextSlotId) && db.nextBookingId == old(db.nextBookingId)
    ensures NoOverlap(old(db.bookings)) ==> NoOverlap(db.bookings)
  {
    if id !in db.bookings {
      return Err(BookingNotFound);
    }
    var booking := db.bookings[id];
    if booking.user != actor.id && actor.role != Admin {
      return Err(AccessDenied);
    }
    if booking.status == Cancelled || booking.status == Completed {
      return Err(CannotCancel);
    }
    if NoOverlap(db.bookings) {
      DeactivateKeepsNoOverlap(db.bookings, id, Cancelled);
    }
    db.bookings := SetStatus(db.bookings, id, Cancelled);
    db.slots := SetAvailability(db.slots, booking.slot, true);
    r := Ok(db.bookings[id]);
  }

  /** updateBookingStatus (admin only, by its route): the requested status is written
      whatever the current one; only the status completed flags the slot available.
      The write happens before the booking's slot is looked up, so when the status is
      completed and the slot no longer exists the change stays and the reply is 500. */
  method UpdateBookingStatus(db: Store, id: BookingId, status: BookingStatus) returns (r: Result<Booking, BookingError>)
    requires db.Valid()
    modifies db
    ensures db.Valid()
    ensures r == Err(BookingNotFound) <==> id !in old(db.bookings)
    ensures r == Err(ServerError) <==>
      id in old(db.bookings) && status == Completed && old(db.bookings)[id].slot !in old(db.slots)
    ensures r.Ok? || r == Err(BookingNotFound) || r == Err(ServerError)
    ensures id !in old(db.bookings) ==> unchanged(db)
    ensures id in old(db.bookings) ==>
      && db.bookings == SetStatus(old(db.bookings), id, status)
      && db.slots == (if status == Completed then SetAvailability(old(db.slots), old(db.bookings)[id].slot, true) else old(db.slots))
      && db.nextSlotId == old(db.nextSlotId) && db.nextBookingId == old(db.nextBookingId)
    ensures r.Ok? ==> r.value == db.bookings[id]
  {
    if id !in db.bookings {
      return Err(BookingNotFound);
    }
    db.bookings := SetStatus(db.bookings, id, status);
    var booking := db.bookings[id];
    if status == Completed {
      if booking.slot !in db.slots {
        return Err(ServerError);
      }
      db.slots := SetAvailability(db.slots, booking.slot, true);
    }
    r := Ok(booking);
  }

  /** Two bookings that only touch at a boundary conflict: a request for 12:00-14:00
      is refused while an active 10:00-12:00 booking of the slot exists. */
  lemma BackToBackConflicts(b: Booking, slot: SlotId, t: int)
    requires b.slot == slot && IsActive(b.status) && b.startTime == t - 2 * Pricing.MsPerHour && b.endTime == t
    ensures ConflictsWith(b, slot, t, t + 2 * Pricing.MsPerHour)
  {
  }
}
