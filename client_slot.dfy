/** A parking slot as the frontend holds it: the JSON the slots endpoint sends, or a
    sample entry of frontend/src/data/sampleLocations.js. Enumerations arrive as
    their stored strings. */
module ClientSlot {
  import opened Wrappers
  import opened ParkingSlot

  datatype SlotView = SlotView(
    slotNumber: string,
    state: string,
    city: string,
    location: string,
    locationType: string,
    floor: int,
    vehicleType: string,
    pricePerHour: int,
    isAvailable: bool,
    features: seq<string>,
    address: Option<string>)

  /** The JSON rendering of a stored slot. */
  function FromSlot(s: Slot): (v: SlotView)
    ensures ParseLocationType(v.locationType) == Some(s.locationType)
    ensures ParseVehicleType(v.vehicleType) == Some(s.vehicleType)
    ensures v.state == s.state && v.city == s.city && v.isAvailable == s.isAvailable
  {
    LocationTypeRoundTrip(s.locationType);
    VehicleTypeRoundTrip(s.vehicleType);
    SlotView(s.slotNumber, s.state, s.city, s.location, LocationTypeName(s.locationType), s.floor,
             VehicleTypeName(s.vehicleType), s.pricePerHour, s.isAvailable, s.features, s.address)
  }
}
