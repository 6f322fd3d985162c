/** The parking-slot record of backend/models/ParkingSlot.js: its two enumerations,
    the record itself, and what building a record from supplied fields does (the
    schema's `required` checks, its enum checks and the `isAvailable` default). */
module ParkingSlot {
  import opened Wrappers

  datatype LocationType =
    | Hotel | Hospital | Mall | Airport | RailwayStation
    | Office | Residential | Restaurant | Stadium | College

  /** The stored spelling of each location type. */
  function LocationTypeName(t: LocationType): string
  {
    match t
    case Hotel => "Hotel"
    case Hospital => "Hospital"
    case Mall => "Mall"
    case Airport => "Airport"
    case RailwayStation => "Railway Station"
    case Office => "Office"
    case Residential => "Residential"
    case Restaurant => "Restaurant"
    case Stadium => "Stadium"
    case College => "College"
  }

  /** The schema's `enum` list for `locationType`, in declared order. */
  const LocationTypeEnum: seq<string> :=
    ["Hotel", "Hospital", "Mall", "Airport", "Railway Station",
     "Office", "Residential", "Restaurant", "Stadium", "College"]

  const AllLocationTypes: seq<LocationType> :=
    [Hotel, Hospital, Mall, Airport, RailwayStation, Office, Residential, Restaurant, Stadium, College]

  /** Which stored string names which location type; `None` for a string the enum
      validator rejects. */
  function ParseLocationType(s: string): (r: Option<LocationType>)
    ensures r.Some? ==> LocationTypeName(r.value) == s
  {
    if s == "Hotel" then Some(Hotel)
    else if s == "Hospital" then Some(Hospital)
    else if s == "Mall" then Some(Mall)
    else if s == "Airport" then Some(Airport)
    else if s == "Railway Station" then Some(RailwayStation)
    else if s == "Office" then Some(Office)
    else if s == "Residential" then Some(Residential)
    else if s == "Restaurant" then Some(Restaurant)
    else if s == "Stadium" then Some(Stadium)
    else if s == "College" then Some(College)
    else None
  }

  lemma LocationTypeRoundTrip(t: LocationType)
    ensures ParseLocationType(LocationTypeName(t)) == Some(t)
  {
  }

  /** The enum list holds exactly ten names, one per location type and in the
      declared order, so a string passes the enum validator iff it names a type. */
  lemma LocationTypeEnumExact(s: string)
    ensures |LocationTypeEnum| == 10 && |AllLocationTypes| == 10
    ensures forall i :: 0 <= i < 10 ==> LocationTypeEnum[i] == LocationTypeName(AllLocationTypes[i])
    ensures s in LocationTypeEnum <==> ParseLocationType(s).Some?
  {
  }

  datatype VehicleType = Car | Bike | Truck

  function VehicleTypeName(v: VehicleType): string
  {
    match v
    case Car => "car"
    case Bike => "bike"
    case Truck => "truck"
  }

  const VehicleTypeEnum: seq<string> := ["car", "bike", "truck"]

  function ParseVehicleType(s: string): (r: Option<VehicleType>)
    ensures r.Some? ==> VehicleTypeName(r.value) == s
  {
    if s == "car" then Some(Car)
    else if s == "bike" then Some(Bike)
    else if s == "truck" then Some(Truck)
    else None
  }

  lemma VehicleTypeRoundTrip(v: VehicleType)
    ensures ParseVehicleType(VehicleTypeName(v)) == Some(v)
    ensures ParseVehicleType(VehicleTypeName(v)).Some? <==> VehicleTypeName(v) in VehicleTypeEnum
  {
  }

  /** A stored parking slot. `address` is optional, `features` a list of strings. */
  datatype Slot = Slot(
    slotNumber: string,
    state: string,
    city: string,
    location: string,
    locationType: LocationType,
    floor: int,
    vehicleType: VehicleType,
    pricePerHour: int,
    isAvailable: bool,
    features: seq<string>,
    address: Option<string>)

  /** The fields a caller supplies to build a slot; `None` is an absent field. */
  datatype SlotFields = SlotFields(
    slotNumber: Option<string>,
    state: Option<string>,
    city: Option<string>,
    location: Option<string>,
    locationType: Option<string>,
    floor: Option<int>,
    vehicleType: Option<string>,
    pricePerHour: Option<int>,
    isAvailable: Option<bool>,
    features: Option<seq<string>>,
    address: Option<string>)

  datatype ValidationError = Required(path: string) | NotInEnum(path: string, value: string)

  /** A required string path: Mongoose's `required` rejects an absent value and the
      empty string. */
  predicate Present(s: Option<string>) { s.Some? && s.value != "" }

  /** Building a slot document and validating it. The first failing path, in schema
      order, is reported; an accepted document holds the supplied values. */
  function NewSlot(f: SlotFields): (r: Result<Slot, ValidationError>)
    ensures r.Ok? <==>
      && Present(f.slotNumber) && Present(f.state) && Present(f.city) && Present(f.location)
      && f.locationType.Some? && ParseLocationType(f.locationType.value).Some?
      && f.floor.Some?
      && f.vehicleType.Some? && ParseVehicleType(f.vehicleType.value).Some?
      && f.pricePerHour.Some?
    ensures r.Ok? ==>
      && r.value.slotNumber == f.slotNumber.value && r.value.state == f.state.value
      && r.value.city == f.city.value && r.value.location == f.location.value
      && r.value.floor == f.floor.value && r.value.pricePerHour == f.pricePerHour.value
      && r.value.isAvailable == (f.isAvailable.None? || f.isAvailable.value)
      && r.value.features == (if f.features.Some? then f.features.value else [])
      && r.value.address == f.address
      && LocationTypeName(r.value.locationType) == f.locationType.value
      && VehicleTypeName(r.value.vehicleType) == f.vehicleType.value
  {
    if !Present(f.slotNumber) then Err(Required("slotNumber"))
    else if !Present(f.state) then Err(Required("state"))
    else if !Present(f.city) then Err(Required("city"))
    else if !Present(f.location) then Err(Required("location"))
    else if f.locationType.None? then Err(Required("locationType"))
    else if ParseLocationType(f.locationType.value).None? then Err(NotInEnum("locationType", f.locationType.value))
    else if f.floor.None? then Err(Required("floor"))
    else if f.vehicleType.None? then Err(Required("vehicleType"))
    else if ParseVehicleType(f.vehicleType.value).None? then Err(NotInEnum("vehicleType", f.vehicleType.value))
    else if f.pricePerHour.None? then Err(Required("pricePerHour"))
    else
      Ok(Slot(
        f.slotNumber.value, f.state.value, f.city.value, f.location.value,
        ParseLocationType(f.locationType.value).value, f.floor.value,
        ParseVehicleType(f.vehicleType.value).value, f.pricePerHour.value,
        if f.isAvailable.Some? then f.isAvailable.value else true,
        if f.features.Some? then f.features.value else [],
        f.address))
  }

  /** The fields of a stored slot, as a caller would supply them. */
  function FieldsOf(s: Slot): SlotFields
  {
    SlotFields(
      Some(s.slotNumber), Some(s.state), Some(s.city), Some(s.location),
      Some(LocationTypeName(s.locationType)), Some(s.floor),
      Some(VehicleTypeName(s.vehicleType)), Some(s.pricePerHour),
      Some(s.isAvailable), Some(s.features), s.address)
  }

  /** Every slot whose required strings are non-empty is rebuilt exactly from its own
      fields. */
  lemma NewSlotFieldsOf(s: Slot)
    requires s.slotNumber != "" && s.state != "" && s.city != "" && s.location != ""
    ensures NewSlot(FieldsOf(s)) == Ok(s)
  {
    LocationTypeRoundTrip(s.locationType);
    VehicleTypeRoundTrip(s.vehicleType);
  }
}
