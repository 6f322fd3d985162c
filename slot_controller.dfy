/** The slot handlers of backend/controllers/slotController.js: the listing with its
    query filter, and the admin create, update and delete. */
module SlotController {
  import opened Wrappers
  import opened ParkingSlot
  import opened Database

  datatype SlotError =
    | SlotNotFound   // 404 'Parking slot not found'
    | SlotExists     // 400 'Slot already exists at this location'
    | ServerError    // 500 'Server error'

  function HttpStatus(e: SlotError): int
  {
    match e
    case SlotNotFound => 404
    case SlotExists => 400
    case ServerError => 500
  }

  /** The query string of `GET /api/slots`; `None` is an absent parameter. */
  datatype SlotQuery = SlotQuery(
    state: Option<string>,
    city: Option<string>,
    locationType: Option<string>,
    vehicleType: Option<string>,
    available: Option<string>)

  const NoQuery := SlotQuery(None, None, None, None, None)

  /** The filter object; `None` is a key that was not set. */
  datatype SlotFilter = SlotFilter(
    state: Option<string>,
    city: Option<string>,
    locationType: Option<string>,
    vehicleType: Option<string>,
    isAvailable: Option<bool>)

  /** A parameter JavaScript treats as true: present and not empty. */
  predicate Truthy(v: Option<string>) { v.Some? && v.value != "" }

  /** The filter getAllSlots builds: a string key for each truthy string parameter,
      and `isAvailable` whenever `available` is present at all, true only for the
      exact string "true". */
  function FilterFor(q: SlotQuery): (f: SlotFilter)
    ensures f.state.Some? <==> Truthy(q.state)
    ensures f.city.Some? <==> Truthy(q.city)
    ensures f.locationType.Some? <==> Truthy(q.locationType)
    ensures f.vehicleType.Some? <==> Truthy(q.vehicleType)
    ensures f.isAvailable.Some? <==> q.available.Some?
    ensures f.isAvailable.Some? ==> (f.isAvailable.value <==> q.available.value == "true")
  {
    SlotFilter(
      if Truthy(q.state) then q.state else None,
      if Truthy(q.city) then q.city else None,
      if Truthy(q.locationType) then q.locationType else None,
      if Truthy(q.vehicleType) then q.vehicleType else None,
      if q.available.Some? then Some(q.available.value == "true") else None)
  }

  /** The store's reading of the filter: every key set must equal the slot's field. */
  predicate Matches(f: SlotFilter, s: Slot)
  {
    && (f.state.Some? ==> s.state == f.state.value)
    && (f.city.Some? ==> s.city == f.city.value)
    && (f.locationType.Some? ==> LocationTypeName(s.locationType) == f.locationType.value)
    && (f.vehicleType.Some? ==> VehicleTypeName(s.vehicleType) == f.vehicleType.value)
    && (f.isAvailable.Some? ==> s.isAvailable == f.isAvailable.value)
  }

  /** Which slots a query selects, in terms of the query itself. */
  lemma QueryMeaning(q: SlotQuery, s: Slot)
    ensures Matches(FilterFor(q), s) <==>
      && (Truthy(q.state) ==> s.state == q.state.value)
      && (Truthy(q.city) ==> s.city == q.city.value)
      && (Truthy(q.locationType) ==> LocationTypeName(s.locationType) == q.locationType.value)
      && (Truthy(q.vehicleType) ==> VehicleTypeName(s.vehicleType) == q.vehicleType.value)
      && (q.available.Some? ==> (s.isAvailable <==> q.available.value == "true"))
  {
  }

  /** Without parameters, or with only empty string parameters, every slot matches. */
  lemma EmptyQueryMatchesAll(s: Slot)
    ensures Matches(FilterFor(NoQuery), s)
    ensures Matches(FilterFor(SlotQuery(Some(""), Some(""), Some(""), Some(""), None)), s)
  {
  }

  /** An `available` parameter other than "true", even "" or "TRUE", selects only the
      slots flagged unavailable. */
  lemma AvailableOtherThanTrue(q: SlotQuery, s: Slot)
    requires q.available.Some? && q.available.value != "true"
    requires Matches(FilterFor(q), s)
    ensures !s.isAvailable
  {
  }

  /** getAllSlots: the matching slots, newest first. */
  method GetAllSlots(db: Store, q: SlotQuery) returns (ids: seq<SlotId>, list: seq<Slot>)
    requires db.Valid()
    ensures forall id :: id in ids <==> id in db.slots && Matches(FilterFor(q), db.slots[id])
    ensures forall i, j :: 0 <= i < j < |ids| ==> ids[i] > ids[j]
    ensures |list| == |ids| && forall i :: 0 <= i < |ids| ==> list[i] == db.slots[ids[i]]
    ensures q == NoQuery ==> forall id :: id in ids <==> id in db.slots
  {
    var filter := FilterFor(q);
    ids, list := [], [];
    var k := db.nextSlotId;
    while k > 0
      invariant k <= db.nextSlotId
      invariant forall id :: id in ids <==> k <= id && id in db.slots && Matches(filter, db.slots[id])
      invariant forall i, j :: 0 <= i < j < |ids| ==> ids[i] > ids[j]
      invariant forall i :: 0 <= i < |ids| ==> ids[i] >= k
      invariant |list| == |ids| && forall i :: 0 <= i < |ids| ==> ids[i] in db.slots && list[i] == db.slots[ids[i]]
    {
      k := k - 1;
      if k in db.slots && Matches(filter, db.slots[k]) {
        ids, list := ids + [k], list + [db.slots[k]];
      }
    }
  }

  /** A stored slot as the schema's validators leave it: required strings non-empty. */
  predicate WellFormed(s: Slot)
  {
    s.slotNumber != "" && s.state != "" && s.city != "" && s.location != ""
  }

  /** The document createSlot builds: `isAvailable` is not among the fields it copies
      from the body, so the default applies. */
  function CreateFields(body: SlotFields): SlotFields
  {
    body.(isAvailable := None)
  }

  /** Every slot createSlot can store is well formed and available, whatever the body
      says about availability. */
  lemma CreatedSlotAvailable(body: SlotFields)
    requires NewSlot(CreateFields(body)).Ok?
    ensures NewSlot(CreateFields(body)).value.isAvailable
    ensures WellFormed(NewSlot(CreateFields(body)).value)
  {
  }

  /** Whether a stored slot has the same unique-index key as the new one. The schema
      declares no unique index, so this relation is given: with no index it is
      always false and the duplicate branch is never taken. */
  method FindDuplicate(db: Store, s: Slot, sameKey: (Slot, Slot) -> bool) returns (found: bool)
    requires db.Valid()
    ensures found <==> exists id :: id in db.slots && sameKey(db.slots[id], s)
  {
    var id := 0;
    while id < db.nextSlotId
      invariant id <= db.nextSlotId
      invariant forall k :: 0 <= k < id && k in db.slots ==> !sameKey(db.slots[k], s)
    {
      if id in db.slots && sameKey(db.slots[id], s) {
        return true;
      }
      id := id + 1;
    }
    return false;
  }

  /** createSlot: validation failures answer 500, a duplicate key 400, and otherwise
      the new slot is stored under a fresh id. */
  method CreateSlot(db: Store, body: SlotFields, sameKey: (Slot, Slot) -> bool) returns (r: Result<SlotId, SlotError>)
    requires db.Valid()
    modifies db
    ensures db.Valid()
    ensures r == Err(ServerError) <==> NewSlot(CreateFields(body)).Err?
    ensures r == Err(SlotExists) <==>
      NewSlot(CreateFields(body)).Ok? && exists id :: id in old(db.slots) && sameKey(old(db.slots)[id], NewSlot(CreateFields(body)).value)
    ensures r.Ok? || r == Err(ServerError) || r == Err(SlotExists)
    ensures r.Err? ==> unchanged(db)
    ensures r.Ok? ==>
      && r.value == old(db.nextSlotId) && r.value !in old(db.slots)
      && db.slots == old(db.slots)[r.value := NewSlot(CreateFields(body)).value]
      && db.bookings == old(db.bookings)
      && db.nextSlotId == old(db.nextSlotId) + 1 && db.nextBookingId == old(db.nextBookingId)
  {
    var built := NewSlot(CreateFields(body));
    if built.Err? {
      return Err(ServerError);
    }
    var duplicate := FindDuplicate(db, built.value, sameKey);
    if duplicate {
      return Err(SlotExists);
    }
    var id := db.nextSlotId;
    db.slots := db.slots[id := built.value];
    db.nextSlotId := id + 1;
    r := Ok(id);
  }

  /** The update validators: a supplied required string must not be empty and a
      supplied enum value must be in its list. The first failing path, in schema
      order, is reported. */
  function ValidateUpdate(u: SlotFields): (r: Option<ValidationError>)
    ensures r.None? <==>
      && (u.slotNumber.Some? ==> u.slotNumber.value != "")
      && (u.state.Some? ==> u.state.value != "")
      && (u.city.Some? ==> u.city.value != "")
      && (u.location.Some? ==> u.location.value != "")
      && (u.locationType.Some? ==> ParseLocationType(u.locationType.value).Some?)
      && (u.vehicleType.Some? ==> ParseVehicleType(u.vehicleType.value).Some?)
  {
    if u.slotNumber == Some("") then Some(Required("slotNumber"))
    else if u.state == Some("") then Some(Required("state"))
    else if u.city == Some("") then Some(Required("city"))
    else if u.location == Some("") then Some(Required("location"))
    else if u.locationType.Some? && ParseLocationType(u.locationType.value).None? then
      Some(NotInEnum("locationType", u.locationType.value))
    else if u.vehicleType.Some? && ParseVehicleType(u.vehicleType.value).None? then
      Some(NotInEnum("vehicleType", u.vehicleType.value))
    else None
  }

  function Override<T>(current: T, supplied: Option<T>): T
  {
    if supplied.Some? then supplied.value else current
  }

  /** The slot after a validated update: each supplied field replaces the stored one. */
  function ApplyUpdate(s: Slot, u: SlotFields): Slot
    requires ValidateUpdate(u).None?
  {
    Slot(
      Override(s.slotNumber, u.slotNumber),
      Override(s.state, u.state),
      Override(s.city, u.city),
      Override(s.location, u.location),
      if u.locationType.Some? then ParseLocationType(u.locationType.value).value else s.locationType,
      Override(s.floor, u.floor),
      if u.vehicleType.Some? then ParseVehicleType(u.vehicleType.value).value else s.vehicleType,
      Override(s.pricePerHour, u.pricePerHour),
      Override(s.isAvailable, u.isAvailable),
      Override(s.features, u.features),
      if u.address.Some? then u.address else s.address)
  }

  function OrElse<T>(supplied: Option<T>, current: Option<T>): Option<T>
  {
    if supplied.Some? then supplied else current
  }

  /** Field sets laid over each other, the supplied ones winning. */
  function Merge(u: SlotFields, f: SlotFields): SlotFields
  {
    SlotFields(
      OrElse(u.slotNumber, f.slotNumber), OrElse(u.state, f.state), OrElse(u.city, f.city),
      OrElse(u.location, f.location), OrElse(u.locationType, f.locationType), OrElse(u.floor, f.floor),
      OrElse(u.vehicleType, f.vehicleType), OrElse(u.pricePerHour, f.pricePerHour),
      OrElse(u.isAvailable, f.isAvailable), OrElse(u.features, f.features), OrElse(u.address, f.address))
  }

  /** Reading the updated slot back as fields gives each supplied value and the stored
      value where nothing was supplied; a supplied `isAvailable` sets the flag
      directly, which is how an admin overrides availability. */
  lemma ApplyUpdateMeaning(s: Slot, u: SlotFields)
    requires ValidateUpdate(u).None?
    ensures FieldsOf(ApplyUpdate(s, u)) == Merge(u, FieldsOf(s))
    ensures u.isAvailable.Some? ==> ApplyUpdate(s, u).isAvailable == u.isAvailable.value
  {
  }

  /** Applying the same update twice is applying it once; an update that supplies
      nothing changes nothing; a validated update keeps a slot well formed. */
  lemma ApplyUpdateProperties(s: Slot, u: SlotFields)
    requires ValidateUpdate(u).None?
    ensures ApplyUpdate(ApplyUpdate(s, u), u) == ApplyUpdate(s, u)
    ensures ApplyUpdate(s, SlotFields(None, None, None, None, None, None, None, None, None, None, None)) == s
    ensures WellFormed(s) ==> WellFormed(ApplyUpdate(s, u))
  {
  }

  /** updateSlot: the validators run before the slot is looked up, so an invalid body
      answers 500 even for a missing id; a missing id answers 404. */
  method UpdateSlot(db: Store, id: SlotId, u: SlotFields) returns (r: Result<Slot, SlotError>)
    requires db.Valid()
    modifies db
    ensures db.Valid()
    ensures r == Err(ServerError) <==> ValidateUpdate(u).Some?
    ensures r == Err(SlotNotFound) <==> ValidateUpdate(u).None? && id !in old(db.slots)
    ensures r.Ok? || r == Err(ServerError) || r == Err(SlotNotFound)
    ensures r.Err? ==> unchanged(db)
    ensures r.Ok? ==>
      && id in old(db.slots)
      && db.slots == old(db.slots)[id := ApplyUpdate(old(db.slots)[id], u)]
      && r.value == db.slots[id]
      && db.bookings == old(db.bookings)
      && db.nextSlotId == old(db.nextSlotId) && db.nextBookingId == old(db.nextBookingId)
  {
    if ValidateUpdate(u).Some? {
      return Err(ServerError);
    }
    if id !in db.slots {
      return Err(SlotNotFound);
    }
    db.slots := db.slots[id := ApplyUpdate(db.slots[id], u)];
    r := Ok(db.slots[id]);
  }

  /** deleteSlot: the slot is removed; its bookings stay and keep referring to it. */
  method DeleteSlot(db: Store, id: SlotId) returns (r: Result<(), SlotError>)
    requires db.Valid()
    modifies db
    ensures db.Valid()
    ensures r == Err(SlotNotFound) <==> id !in old(db.slots)
    ensures r.Ok? || r == Err(SlotNotFound)
    ensures r.Err? ==> unchanged(db)
    ensures r.Ok? ==>
      && db.slots == old(db.slots) - {id}
      && db.bookings == old(db.bookings)
      && db.nextSlotId == old(db.nextSlotId) && db.nextBookingId == old(db.nextBookingId)
  {
    if id !in db.slots {
      return Err(SlotNotFound);
    }
    db.slots := db.slots - {id};
    r := Ok(());
  }
}
