/** The two collections the backend keeps, parking slots and bookings, held by one
    store object, together with the booking record and the predicates over bookings
    that the controllers and the status job share.

    The Booking model file is not part of this model; what it is assumed to define is
    stated here: a booking's `status` is one of pending, confirmed, cancelled and
    completed, its `paymentStatus` one of pending, completed and failed, and a new
    booking starts with both set to pending and no payment id. Document ids are
    allocated in increasing order, so a larger id means a later `createdAt`. */
module Database {
  import opened Wrappers
  import opened ParkingSlot

  type SlotId = nat
  type BookingId = nat
  type UserId = nat

  datatype Role = Customer | Admin

  /** The authenticated caller, as the auth middleware supplies it. */
  datatype Actor = Actor(id: UserId, role: Role)

  datatype BookingStatus = Pending | Confirmed | Cancelled | Completed

  datatype PaymentStatus = PaymentPending | PaymentCompleted | PaymentFailed

  datatype Booking = Booking(
    user: UserId,
    slot: SlotId,
    vehicleNumber: string,
    vehicleModel: string,
    startTime: int,
    endTime: int,
    totalHours: int,
    totalPrice: int,
    status: BookingStatus,
    paymentStatus: PaymentStatus,
    paymentId: Option<string>)

  /** The statuses the queries select as `{ $in: ['pending', 'confirmed'] }`. */
  predicate IsActive(s: BookingStatus) { s == Pending || s == Confirmed }

  /** The owner of a booking or any admin. */
  predicate CanAccess(b: Booking, actor: Actor) { b.user == actor.id || actor.role == Admin }

  /** The overlap query of createBooking: an active booking on the slot whose
      interval meets `[start, end]`, boundaries included. */
  predicate ConflictsWith(b: Booking, slot: SlotId, start: int, end: int)
  {
    b.slot == slot && IsActive(b.status) && b.startTime <= end && b.endTime >= start
  }

  ghost predicate HasConflict(bookings: map<BookingId, Booking>, slot: SlotId, start: int, end: int)
  {
    exists id :: id in bookings && ConflictsWith(bookings[id], slot, start, end)
  }

  /** Two active bookings of one slot whose closed intervals meet. */
  predicate Clash(a: Booking, b: Booking)
  {
    ConflictsWith(a, b.slot, b.startTime, b.endTime) && IsActive(b.status)
  }

  /** The scheduling invariant: no two distinct active bookings of a slot meet. */
  ghost predicate NoOverlap(bookings: map<BookingId, Booking>)
  {
    forall i, j :: i in bookings && j in bookings && i != j ==> !Clash(bookings[i], bookings[j])
  }

  function SetStatus(bookings: map<BookingId, Booking>, id: BookingId, s: BookingStatus): map<BookingId, Booking>
    requires id in bookings
  {
    bookings[id := bookings[id].(status := s)]
  }

  /** `ParkingSlot.findByIdAndUpdate(id, { isAvailable: flag })`: no effect when
      there is no such slot. */
  function SetAvailability(slots: map<SlotId, Slot>, id: SlotId, flag: bool): map<SlotId, Slot>
  {
    if id in slots then slots[id := slots[id].(isAvailable := flag)] else slots
  }

  class Store {
    var slots: map<SlotId, Slot>
    var bookings: map<BookingId, Booking>
    var nextSlotId: nat
    var nextBookingId: nat

    /** Every stored id was allocated before the counter's current value. */
    ghost predicate Valid()
      reads this
    {
      && (forall id :: id in slots ==> id < nextSlotId)
      && (forall id :: id in bookings ==> id < nextBookingId)
    }

    constructor ()
      ensures Valid()
      ensures slots == map[] && bookings == map[] && nextSlotId == 0 && nextBookingId == 0
    {
      slots, bookings := map[], map[];
      nextSlotId, nextBookingId := 0, 0;
    }
  }

  /** Adding a booking that meets no active booking of its slot keeps the invariant. */
  lemma InsertKeepsNoOverlap(bookings: map<BookingId, Booking>, id: BookingId, b: Booking)
    requires NoOverlap(bookings) && id !in bookings
    requires !HasConflict(bookings, b.slot, b.startTime, b.endTime)
    ensures NoOverlap(bookings[id := b])
  {
    var m := bookings[id := b];
    forall i, j | i in m && j in m && i != j ensures !Clash(m[i], m[j]) {
      if i == id {
        assert !ConflictsWith(bookings[j], b.slot, b.startTime, b.endTime);
      } else if j == id {
        assert !ConflictsWith(bookings[i], b.slot, b.startTime, b.endTime);
      }
    }
  }

  /** Moving a booking out of the active statuses keeps the invariant. */
  lemma DeactivateKeepsNoOverlap(bookings: map<BookingId, Booking>, id: BookingId, s: BookingStatus)
    requires NoOverlap(bookings) && id in bookings && !IsActive(s)
    ensures NoOverlap(SetStatus(bookings, id, s))
  {
  }

  /** Moving a booking between the two active statuses keeps the invariant. */
  lemma ActiveToActiveKeepsNoOverlap(bookings: map<BookingId, Booking>, id: BookingId, s: BookingStatus)
    requires NoOverlap(bookings) && id in bookings && IsActive(bookings[id].status) && IsActive(s)
    ensures NoOverlap(SetStatus(bookings, id, s))
  {
    var m := SetStatus(bookings, id, s);
    forall i, j | i in m && j in m && i != j ensures !Clash(m[i], m[j]) {
      assert !Clash(bookings[i], bookings[j]);
    }
  }

  /** Under the invariant, at any instant at most one active booking of a slot has
      that instant inside its interval. */
  lemma AtMostOneActiveAt(bookings: map<BookingId, Booking>, i: BookingId, j: BookingId, slot: SlotId, t: int)
    requires NoOverlap(bookings) && i in bookings && j in bookings
    requires ConflictsWith(bookings[i], slot, t, t) && ConflictsWith(bookings[j], slot, t, t)
    ensures i == j
  {
    if i != j {
      assert Clash(bookings[i], bookings[j]);
    }
  }

  /** The reactivation of a cancelled booking can break the invariant: here a cancelled
      booking is set back to confirmed over an active booking of the same slot. */
  lemma ReactivationCanBreakNoOverlap()
    ensures exists bookings: map<BookingId, Booking>, id: BookingId ::
      id in bookings && NoOverlap(bookings) && !NoOverlap(SetStatus(bookings, id, Confirmed))
  {
    var a := Booking(1, 7, "MH01", "Sedan", 0, 10, 1, 50, Pending, PaymentPending, None);
    var b := a.(status := Cancelled);
    var bookings := map[0 := a, 1 := b];
    assert !Clash(a, b) && !Clash(b, a);
    assert NoOverlap(bookings);
    var m := SetStatus(bookings, 1, Confirmed);
    assert Clash(m[0], m[1]);
  }
}
