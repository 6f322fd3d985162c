/** The periodic job of backend/jobs/bookingStatusUpdater.js. One run at time `now`
    first completes every active booking whose end has passed, re-checking each such
    booking's slot and flagging it available when no active booking of it covers
    `now`; it then confirms every pending, paid booking whose window contains `now`.
    The timer that repeats the run every minute is not part of this model. */
module BookingStatusUpdater {
  import opened Wrappers
  import opened ParkingSlot
  import opened Database
  import BookingController

  /** Selected by the first query: status pending or confirmed, `endTime < now`. */
  predicate Expired(b: Booking, now: int) { IsActive(b.status) && b.endTime < now }

  /** Selected by the second query: pending, paid, `startTime <= now < endTime`. */
  predicate DueForActivation(b: Booking, now: int)
  {
    b.status == Pending && b.paymentStatus == PaymentCompleted && b.startTime <= now < b.endTime
  }

  /** The bookings after the expiry pass. */
  function CompleteExpired(bookings: map<BookingId, Booking>, now: int): map<BookingId, Booking>
  {
    map id | id in bookings :: if Expired(bookings[id], now) then bookings[id].(status := Completed) else bookings[id]
  }

  /** A slot the expiry pass flags available: one of its bookings expired and no active
      booking of it covers `now` (the re-check query). */
  ghost predicate Freed(bookings: map<BookingId, Booking>, slot: SlotId, now: int)
  {
    && (exists id :: id in bookings && Expired(bookings[id], now) && bookings[id].slot == slot)
    && !HasConflict(bookings, slot, now, now)
  }

  /** The slots after the expiry pass, from the slots and bookings before it. */
  ghost function ReleaseSlots(slots: map<SlotId, Slot>, bookings: map<BookingId, Booking>, now: int): map<SlotId, Slot>
  {
    map s | s in slots :: if Freed(bookings, s, now) then slots[s].(isAvailable := true) else slots[s]
  }

  /** The bookings after the activation pass. */
  function ActivateDue(bookings: map<BookingId, Booking>, now: int): map<BookingId, Booking>
  {
    map id | id in bookings :: if DueForActivation(bookings[id], now) then bookings[id].(status := Confirmed) else bookings[id]
  }

  /** `Booking.find({ status: { $in: ['confirmed', 'pending'] }, endTime: { $lt: now } })`,
      in id order. */
  method FindExpired(db: Store, now: int) returns (ids: seq<BookingId>)
    requires db.Valid()
    ensures forall id :: id in ids <==> id in db.bookings && Expired(db.bookings[id], now)
    ensures forall i, j :: 0 <= i < j < |ids| ==> ids[i] < ids[j]
  {
    ids := [];
    var k := 0;
    while k < db.nextBookingId
      invariant k <= db.nextBookingId
      invariant forall id :: id in ids <==> id < k && id in db.bookings && Expired(db.bookings[id], now)
      invariant forall i, j :: 0 <= i < j < |ids| ==> ids[i] < ids[j]
      invariant forall i :: 0 <= i < |ids| ==> ids[i] < k
    {
      if k in db.bookings && Expired(db.bookings[k], now) {
        ids := ids + [k];
      }
      k := k + 1;
    }
  }

  /** `Booking.find({ status: 'pending', paymentStatus: 'completed', startTime: { $lte: now },
      endTime: { $gt: now } })`, in id order. */
  method FindDueForActivation(db: Store, now: int) returns (ids: seq<BookingId>)
    requires db.Valid()
    ensures forall id :: id in ids <==> id in db.bookings && DueForActivation(db.bookings[id], now)
    ensures forall i, j :: 0 <= i < j < |ids| ==> ids[i] < ids[j]
  {
    ids := [];
    var k := 0;
    while k < db.nextBookingId
      invariant k <= db.nextBookingId
      invariant forall id :: id in ids <==> id < k && id in db.bookings && DueForActivation(db.bookings[id], now)
      invariant forall i, j :: 0 <= i < j < |ids| ==> ids[i] < ids[j]
      invariant forall i :: 0 <= i < |ids| ==> ids[i] < k
    {
      if k in db.bookings && DueForActivation(db.bookings[k], now) {
        ids := ids + [k];
      }
      k := k + 1;
    }
  }

  /** Completing expired bookings does not change which active bookings cover `now`:
      an expired booking ended before `now`, so it never covered it. In particular the
      re-check never finds the booking that was just completed. */
  lemma CompletingExpiredKeepsCover(before: map<BookingId, Booking>, after: map<BookingId, Booking>, slot: SlotId, now: int)
    requires after.Keys == before.Keys
    requires forall id :: id in before ==>
      after[id] == before[id] || (Expired(before[id], now) && after[id] == before[id].(status := Completed))
    ensures HasConflict(after, slot, now, now) <==> HasConflict(before, slot, now, now)
  {
    if HasConflict(after, slot, now, now) {
      var id :| id in after && ConflictsWith(after[id], slot, now, now);
      assert ConflictsWith(before[id], slot, now, now);
    }
    if HasConflict(before, slot, now, now) {
      var id :| id in before && ConflictsWith(before[id], slot, now, now);
      assert after[id] == before[id];
    }
  }

  /** The bookings once the expired bookings in `done` have been completed. */
  function CompleteAll(b0: map<BookingId, Booking>, done: seq<BookingId>): map<BookingId, Booking>
  {
    map id | id in b0 :: if id in done then b0[id].(status := Completed) else b0[id]
  }

  /** Some booking in `done` is of slot `s`. */
  ghost predicate Touched(b0: map<BookingId, Booking>, done: seq<BookingId>, s: SlotId)
  {
    exists k :: 0 <= k < |done| && done[k] in b0 && b0[done[k]].slot == s
  }

  /** The slots once the bookings in `done` have been completed and their slots re-checked. */
  ghost function ReleaseAll(s0: map<SlotId, Slot>, b0: map<BookingId, Booking>, done: seq<BookingId>, now: int): map<SlotId, Slot>
  {
    map s | s in s0 :: if Touched(b0, done, s) && !HasConflict(b0, s, now, now) then s0[s].(isAvailable := true) else s0[s]
  }

  /** One more step of the expiry loop, on the bookings and on the slots. */
  lemma ExpiryStep(s0: map<SlotId, Slot>, b0: map<BookingId, Booking>, done: seq<BookingId>, id: BookingId, now: int)
    requires id in b0 && Expired(b0[id], now)
    requires forall k :: k in done ==> k in b0 && Expired(b0[k], now)
    ensures CompleteAll(b0, done + [id]) == SetStatus(CompleteAll(b0, done), id, Completed)
    ensures HasConflict(CompleteAll(b0, done + [id]), b0[id].slot, now, now) <==> HasConflict(b0, b0[id].slot, now, now)
    ensures ReleaseAll(s0, b0, done + [id], now) ==
      if HasConflict(b0, b0[id].slot, now, now) then ReleaseAll(s0, b0, done, now)
      else SetAvailability(ReleaseAll(s0, b0, done, now), b0[id].slot, true)
  {
    var d := done + [id];
    assert forall k :: k in d <==> k in done || k == id;
    forall s ensures Touched(b0, d, s) <==> Touched(b0, done, s) || b0[id].slot == s {
      if Touched(b0, d, s) {
        var k :| 0 <= k < |d| && d[k] in b0 && b0[d[k]].slot == s;
        if k < |done| { assert done[k] == d[k]; }
      }
      if Touched(b0, done, s) {
        var k :| 0 <= k < |done| && done[k] in b0 && b0[done[k]].slot == s;
        assert d[k] == done[k];
      }
      if b0[id].slot == s { assert d[|done|] == id; }
    }
    CompletingExpiredKeepsCover(b0, CompleteAll(b0, d), b0[id].slot, now);
  }

  /** When `done` holds exactly the expired bookings the loop has done the whole pass. */
  lemma ExpiryDone(s0: map<SlotId, Slot>, b0: map<BookingId, Booking>, done: seq<BookingId>, now: int)
    requires forall id :: id in done <==> id in b0 && Expired(b0[id], now)
    ensures CompleteAll(b0, done) == CompleteExpired(b0, now)
    ensures ReleaseAll(s0, b0, done, now) == ReleaseSlots(s0, b0, now)
  {
    forall s ensures Touched(b0, done, s) <==> exists id :: id in b0 && Expired(b0[id], now) && b0[id].slot == s {
      if exists id :: id in b0 && Expired(b0[id], now) && b0[id].slot == s {
        var id :| id in b0 && Expired(b0[id], now) && b0[id].slot == s;
        var k :| 0 <= k < |done| && done[k] == id;
      }
    }
  }

  /** One pass of the loop: the booking is completed and its slot flagged available
      when the re-check finds no active booking of it covering `now`. */
  method ExpireOne(db: Store, expired: seq<BookingId>, i: nat, now: int,
                   ghost s0: map<SlotId, Slot>, ghost b0: map<BookingId, Booking>)
    requires db.Valid()
    requires i < |expired|
    requires forall k :: k in expired ==> k in b0 && Expired(b0[k], now)
    requires db.bookings == CompleteAll(b0, expired[..i]) && db.slots == ReleaseAll(s0, b0, expired[..i], now)
    modifies db
    ensures db.Valid()
    ensures db.bookings == CompleteAll(b0, expired[..i + 1]) && db.slots == ReleaseAll(s0, b0, expired[..i + 1], now)
    ensures db.nextSlotId == old(db.nextSlotId) && db.nextBookingId == old(db.nextBookingId)
  {
    var id := expired[i];
    assert expired[..i + 1] == expired[..i] + [id];
    assert forall k :: k in expired[..i] ==> k in expired;
    ExpiryStep(s0, b0, expired[..i], id, now);
    db.bookings := SetStatus(db.bookings, id, Completed);
    var slot := db.bookings[id].slot;
    assert slot == b0[id].slot;
    var stillActive := BookingController.FindOverlapping(db, slot, now, now);
    if stillActive.None? {
      db.slots := SetAvailability(db.slots, slot, true);
    }
  }

  /** updateExpiredBookings: the loop over the expired bookings. */
  method UpdateExpiredBookings(db: Store, now: int)
    requires db.Valid()
    modifies db
    ensures db.Valid()
    ensures db.bookings == CompleteExpired(old(db.bookings), now)
    ensures db.slots == ReleaseSlots(old(db.slots), old(db.bookings), now)
    ensures db.nextSlotId == old(db.nextSlotId) && db.nextBookingId == old(db.nextBookingId)
  {
    var expired := FindExpired(db, now);
    ghost var b0, s0 := db.bookings, db.slots;
    var i := 0;
    while i < |expired|
      invariant i <= |expired|
      invariant db.nextSlotId == old(db.nextSlotId) && db.nextBookingId == old(db.nextBookingId)
      invariant db.bookings == CompleteAll(b0, expired[..i])
      invariant db.slots == ReleaseAll(s0, b0, expired[..i], now)
      invariant db.Valid()
    {
      ExpireOne(db, expired, i, now, s0, b0);
      i := i + 1;
    }
    assert expired[..i] == expired;
    ExpiryDone(s0, b0, expired, now);
  }

  /** The bookings once the first `n` due bookings are confirmed. */
  ghost predicate ActivatedUpTo(bookings: map<BookingId, Booking>, b0: map<BookingId, Booking>, due: seq<BookingId>, n: nat)
    requires n <= |due|
  {
    && bookings.Keys == b0.Keys
    && forall id :: id in b0 ==>
         bookings[id] == if id in due[..n] then b0[id].(status := Confirmed) else b0[id]
  }

  /** One iteration of the activation loop: the next due booking becomes confirmed. */
  method ActivateOne(db: Store, due: seq<BookingId>, i: nat, ghost b0: map<BookingId, Booking>)
    requires db.Valid()
    requires i < |due| && due[i] in b0
    requires forall a, b :: 0 <= a < b < |due| ==> due[a] < due[b]
    requires ActivatedUpTo(db.bookings, b0, due, i)
    modifies db
    ensures db.Valid()
    ensures ActivatedUpTo(db.bookings, b0, due, i + 1)
    ensures db.slots == old(db.slots)
    ensures db.nextSlotId == old(db.nextSlotId) && db.nextBookingId == old(db.nextBookingId)
  {
    var id := due[i];
    assert id !in due[..i];
    assert forall k :: k in b0 ==> (k in due[..i + 1] <==> k in due[..i] || k == id);
    db.bookings := SetStatus(db.bookings, id, Confirmed);
  }

  /** activateUpcomingBookings: the loop over the due bookings. */
  method ActivateUpcomingBookings(db: Store, now: int)
    requires db.Valid()
    modifies db
    ensures db.Valid()
    ensures db.bookings == ActivateDue(old(db.bookings), now)
    ensures db.slots == old(db.slots)
    ensures db.nextSlotId == old(db.nextSlotId) && db.nextBookingId == old(db.nextBookingId)
  {
    var due := FindDueForActivation(db, now);
    ghost var b0 := db.bookings;
    var i := 0;
    while i < |due|
      invariant i <= |due|
      invariant db.slots == old(db.slots)
      invariant db.nextSlotId == old(db.nextSlotId) && db.nextBookingId == old(db.nextBookingId)
      invariant db.Valid()
      invariant ActivatedUpTo(db.bookings, b0, due, i)
    {
      ActivateOne(db, due, i, b0);
      i := i + 1;
    }
    assert due[..i] == due;
  }

  /** The bookings after one whole run: each pass reads the clock itself, the expiry
      pass at `expiryNow` and the activation pass, after it, at `activationNow`. */
  function SweepBookings(bookings: map<BookingId, Booking>, expiryNow: int, activationNow: int): map<BookingId, Booking>
  {
    ActivateDue(CompleteExpired(bookings, expiryNow), activationNow)
  }

  /** runBookingStatusUpdates: the expiry pass, then the activation pass, each at its
      own clock reading. */
  method RunBookingStatusUpdates(db: Store, expiryNow: int, activationNow: int)
    requires db.Valid()
    modifies db
    ensures db.Valid()
    ensures db.bookings == SweepBookings(old(db.bookings), expiryNow, activationNow)
    ensures db.slots == ReleaseSlots(old(db.slots), old(db.bookings), expiryNow)
    ensures db.nextSlotId == old(db.nextSlotId) && db.nextBookingId == old(db.nextBookingId)
    ensures NoOverlap(old(db.bookings)) ==> NoOverlap(db.bookings)
  {
    UpdateExpiredBookings(db, expiryNow);
    ActivateUpcomingBookings(db, activationNow);
    SweepKeepsNoOverlap(old(db.bookings), expiryNow, activationNow);
  }

  /** The expiry pass changes exactly the expired bookings, and of those only the
      status, to completed; afterwards no active booking has ended before `now`. */
  lemma ExpiryChangesExactlyExpired(bookings: map<BookingId, Booking>, now: int)
    ensures CompleteExpired(bookings, now).Keys == bookings.Keys
    ensures forall id :: id in bookings ==>
      && (CompleteExpired(bookings, now)[id] != bookings[id] <==> Expired(bookings[id], now))
      && CompleteExpired(bookings, now)[id] == bookings[id].(status := CompleteExpired(bookings, now)[id].status)
      && !Expired(CompleteExpired(bookings, now)[id], now)
  {
  }

  /** The activation pass changes exactly the due bookings, only their status, to
      confirmed, and never selects a completed or cancelled booking. */
  lemma ActivationChangesExactlyDue(bookings: map<BookingId, Booking>, now: int)
    ensures ActivateDue(bookings, now).Keys == bookings.Keys
    ensures forall id :: id in bookings ==>
      && (ActivateDue(bookings, now)[id] != bookings[id] <==> DueForActivation(bookings[id], now))
      && ActivateDue(bookings, now)[id] == bookings[id].(status := ActivateDue(bookings, now)[id].status)
      && (ActivateDue(bookings, now)[id] != bookings[id] ==> ActivateDue(bookings, now)[id].status == Confirmed)
      && (!IsActive(bookings[id].status) ==> ActivateDue(bookings, now)[id] == bookings[id])
  {
  }

  /** After the expiry pass a slot is flagged available iff it was already, or one of
      its bookings expired and no active booking of it covers `now`; the flag of a slot
      still covered by an active booking is left alone. */
  lemma ReleaseSlotsMeaning(slots: map<SlotId, Slot>, bookings: map<BookingId, Booking>, now: int, s: SlotId)
    requires s in slots
    ensures s in ReleaseSlots(slots, bookings, now)
    ensures ReleaseSlots(slots, bookings, now)[s].isAvailable <==> slots[s].isAvailable || Freed(bookings, s, now)
    ensures HasConflict(bookings, s, now, now) ==> ReleaseSlots(slots, bookings, now)[s] == slots[s]
  {
  }

  /** The whole run keeps the scheduling invariant, whatever the two clock readings:
      completing only deactivates, and activating moves bookings between the two
      active statuses. */
  lemma SweepKeepsNoOverlap(bookings: map<BookingId, Booking>, expiryNow: int, activationNow: int)
    ensures NoOverlap(bookings) ==> NoOverlap(SweepBookings(bookings, expiryNow, activationNow))
  {
    if NoOverlap(bookings) {
      var b1 := CompleteExpired(bookings, expiryNow);
      forall i, j | i in b1 && j in b1 && i != j ensures !Clash(b1[i], b1[j]) {
        assert !Clash(bookings[i], bookings[j]);
      }
      var b2 := ActivateDue(b1, activationNow);
      forall i, j | i in b2 && j in b2 && i != j ensures !Clash(b2[i], b2[j]) {
        assert !Clash(b1[i], b1[j]);
      }
    }
  }

  /** A second run with the same two clock readings changes nothing, as long as the
      clock did not go back between the passes: a booking activated at the later
      reading ends after it, so it has not expired at the earlier one. */
  lemma {:induction false} SweepIdempotent(slots: map<SlotId, Slot>, bookings: map<BookingId, Booking>,
                                           expiryNow: int, activationNow: int)
    requires expiryNow <= activationNow
    ensures SweepBookings(SweepBookings(bookings, expiryNow, activationNow), expiryNow, activationNow)
            == SweepBookings(bookings, expiryNow, activationNow)
    ensures ReleaseSlots(ReleaseSlots(slots, bookings, expiryNow), SweepBookings(bookings, expiryNow, activationNow), expiryNow)
            == ReleaseSlots(slots, bookings, expiryNow)
  {
    var b1 := SweepBookings(bookings, expiryNow, activationNow);
    assert forall id :: id in b1 ==> !Expired(b1[id], expiryNow) && !DueForActivation(b1[id], activationNow);
    assert CompleteExpired(b1, expiryNow) == b1;
    assert ActivateDue(b1, activationNow) == b1;
    var s1 := ReleaseSlots(slots, bookings, expiryNow);
    assert forall s :: !Freed(b1, s, expiryNow);
    assert ReleaseSlots(s1, b1, expiryNow) == s1;
  }

  /** The activation pass reads the clock after the expiry pass: a paid pending booking
      whose start falls between the two readings is confirmed in the same run, although
      it had not begun when the run started. */
  lemma LateStartConfirmedInSameRun(bookings: map<BookingId, Booking>, expiryNow: int, activationNow: int, id: BookingId)
    requires id in bookings && bookings[id].status == Pending && bookings[id].paymentStatus == PaymentCompleted
    requires expiryNow < bookings[id].startTime <= activationNow < bookings[id].endTime
    ensures !DueForActivation(bookings[id], expiryNow)
    ensures SweepBookings(bookings, expiryNow, activationNow)[id] == bookings[id].(status := Confirmed)
  {
  }
}
