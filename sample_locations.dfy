/** The sample data of frontend/src/data/sampleLocations.js, shown when the server
    has no slots, and its two filters. */
module SampleLocations {
  import opened Wrappers
  import opened Seqs
  import opened ClientSlot
  import ParkingSlot
  import Locations

  /** `sampleParkingLocations`, in declared order. */
  const SampleParkingLocations: seq<SlotView> := [
    SlotView("A-101", "Maharashtra", "Mumbai", "Phoenix Marketcity", "Mall", 1, "car", 50, true, ["CCTV", "24/7 Security"], Some("Kurla West, Mumbai")),
    SlotView("A-102", "Maharashtra", "Mumbai", "Phoenix Marketcity", "Mall", 1, "car", 50, true, ["CCTV", "24/7 Security"], Some("Kurla West, Mumbai")),
    SlotView("B-201", "Maharashtra", "Mumbai", "Lilavati Hospital", "Hospital", 2, "car", 40, true, ["Covered Parking"], Some("Bandra West, Mumbai")),
    SlotView("T1-301", "Maharashtra", "Mumbai", "Chhatrapati Shivaji Airport", "Airport", 3, "car", 100, false, ["Valet Service", "24/7 Security"], Some("Terminal 1, Mumbai Airport")),
    SlotView("BKC-401", "Maharashtra", "Mumbai", "Bandra Kurla Complex", "Office", 4, "car", 60, true, ["Covered", "EV Charging"], Some("BKC, Mumbai")),
    SlotView("P-101", "Maharashtra", "Pune", "Phoenix Mall Pune", "Mall", 1, "car", 40, true, ["CCTV"], Some("Viman Nagar, Pune")),
    SlotView("RH-201", "Maharashtra", "Pune", "Ruby Hall Clinic", "Hospital", 2, "car", 30, true, ["Covered Parking"], Some("Grant Road, Pune")),
    SlotView("RS-101", "Maharashtra", "Pune", "Pune Railway Station", "Railway Station", 1, "bike", 20, true, ["24/7 Access"], Some("Pune Junction")),
    SlotView("UB-101", "Karnataka", "Bangalore", "UB City Mall", "Mall", 1, "car", 60, true, ["Valet", "CCTV"], Some("Vittal Mallya Road, Bangalore")),
    SlotView("MH-301", "Karnataka", "Bangalore", "Manipal Hospital", "Hospital", 3, "car", 35, true, ["24/7 Security"], Some("HAL Airport Road, Bangalore")),
    SlotView("KIA-501", "Karnataka", "Bangalore", "Kempegowda Airport", "Airport", 5, "car", 120, true, ["Valet", "Long-term Parking"], Some("Devanahalli, Bangalore")),
    SlotView("MTP-201", "Karnataka", "Bangalore", "Manyata Tech Park", "Office", 2, "bike", 15, true, ["Covered"], Some("Nagavara, Bangalore")),
    SlotView("SC-101", "Delhi", "New Delhi", "Select Citywalk", "Mall", 1, "car", 70, true, ["Valet", "CCTV", "EV Charging"], Some("Saket, New Delhi")),
    SlotView("AIIMS-401", "Delhi", "New Delhi", "AIIMS Hospital", "Hospital", 4, "car", 40, false, ["24/7 Security"], Some("Ansari Nagar, New Delhi")),
    SlotView("T3-601", "Delhi", "New Delhi", "Indira Gandhi Airport", "Airport", 6, "car", 150, true, ["Valet", "24/7 Security"], Some("Terminal 3, IGI Airport")),
    SlotView("CP-301", "Delhi", "New Delhi", "Connaught Place", "Office", 3, "car", 80, true, ["CCTV"], Some("Central Delhi")),
    SlotView("EA-101", "Tamil Nadu", "Chennai", "Express Avenue", "Mall", 1, "car", 50, true, ["CCTV", "Covered"], Some("Royapettah, Chennai")),
    SlotView("AP-201", "Tamil Nadu", "Chennai", "Apollo Hospital", "Hospital", 2, "car", 35, true, ["24/7 Access"], Some("Greams Road, Chennai")),
    SlotView("MAA-401", "Tamil Nadu", "Chennai", "Chennai Airport", "Airport", 4, "car", 100, true, ["Valet Available"], Some("Meenambakkam, Chennai")),
    SlotView("MR-101", "Tamil Nadu", "Chennai", "The Marina Restaurant", "Restaurant", 1, "bike", 20, true, ["Free 2 hours"], Some("Marina Beach, Chennai")),
    SlotView("SCM-201", "West Bengal", "Kolkata", "South City Mall", "Mall", 2, "car", 45, true, ["CCTV", "24/7"], Some("Prince Anwar Shah Road, Kolkata")),
    SlotView("AMRI-101", "West Bengal", "Kolkata", "AMRI Hospital", "Hospital", 1, "car", 30, true, ["Covered"], Some("Dhakuria, Kolkata")),
    SlotView("CCU-301", "West Bengal", "Kolkata", "Netaji Subhash Airport", "Airport", 3, "car", 90, true, ["Long-term Available"], Some("Dum Dum, Kolkata")),
    SlotView("IO-101", "Telangana", "Hyderabad", "Inorbit Mall", "Mall", 1, "car", 50, true, ["CCTV", "Valet"], Some("Madhapur, Hyderabad")),
    SlotView("YH-201", "Telangana", "Hyderabad", "Yashoda Hospital", "Hospital", 2, "car", 35, true, ["24/7 Security"], Some("Malakpet, Hyderabad")),
    SlotView("HYD-501", "Telangana", "Hyderabad", "Rajiv Gandhi Airport", "Airport", 5, "car", 110, true, ["Valet", "EV Charging"], Some("Shamshabad, Hyderabad")),
    SlotView("PR-101", "Telangana", "Hyderabad", "Paradise Restaurant", "Restaurant", 1, "bike", 15, true, ["Free 1 hour"], Some("Secunderabad")),
    SlotView("AO-101", "Gujarat", "Ahmedabad", "Ahmedabad One Mall", "Mall", 1, "car", 40, true, ["CCTV"], Some("Vastrapur, Ahmedabad")),
    SlotView("CH-201", "Gujarat", "Ahmedabad", "Civil Hospital", "Hospital", 2, "car", 25, true, ["Covered"], Some("Asarwa, Ahmedabad")),
    SlotView("AMD-401", "Gujarat", "Ahmedabad", "Sardar Patel Airport", "Airport", 4, "car", 95, true, ["24/7 Security"], Some("Hansol, Ahmedabad")),
    SlotView("WTP-101", "Rajasthan", "Jaipur", "World Trade Park", "Mall", 1, "car", 45, true, ["CCTV", "Covered"], Some("Malviya Nagar, Jaipur")),
    SlotView("SMS-201", "Rajasthan", "Jaipur", "SMS Hospital", "Hospital", 2, "car", 30, true, ["24/7"], Some("JLN Marg, Jaipur")),
    SlotView("JAI-301", "Rajasthan", "Jaipur", "Jaipur Airport", "Airport", 3, "car", 85, true, ["Valet Service"], Some("Sanganer, Jaipur"))
  ]

  predicate KnownKinds(e: SlotView)
  {
    e.locationType in ParkingSlot.LocationTypeEnum && (e.vehicleType == "car" || e.vehicleType == "bike")
  }

  /** The state is a key of the location tables and the city one of its cities. */
  predicate KnownPlace(e: SlotView)
  {
    e.state in Locations.StatesAndCities && e.city in Locations.StatesAndCities[e.state]
  }

  lemma PlacesFrom0()
    ensures forall i | 0 <= i < 4 :: KnownPlace(SampleParkingLocations[i])
  {
  }

  lemma PlacesFrom4()
    ensures forall i | 4 <= i < 8 :: KnownPlace(SampleParkingLocations[i])
  {
  }

  lemma PlacesFrom8()
    ensures forall i | 8 <= i < 12 :: KnownPlace(SampleParkingLocations[i])
  {
  }

  lemma PlacesFrom12()
    ensures forall i | 12 <= i < 16 :: KnownPlace(SampleParkingLocations[i])
  {
  }

  lemma PlacesFrom16()
    ensures forall i | 16 <= i < 20 :: KnownPlace(SampleParkingLocations[i])
  {
  }

  lemma PlacesFrom20()
    ensures forall i | 20 <= i < 24 :: KnownPlace(SampleParkingLocations[i])
  {
  }

  lemma PlacesFrom24()
    ensures forall i | 24 <= i < 28 :: KnownPlace(SampleParkingLocations[i])
  {
  }

  lemma PlacesFrom28()
    ensures forall i | 28 <= i < 32 :: KnownPlace(SampleParkingLocations[i])
  {
  }

  lemma PlacesFrom32()
    ensures forall i | 32 <= i < 33 :: KnownPlace(SampleParkingLocations[i])
  {
  }

  lemma KindsAll()
    ensures forall i | 0 <= i < |SampleParkingLocations| :: KnownKinds(SampleParkingLocations[i])
  {
  }

  /** Every sample entry names a location type of the schema and a vehicle type of
      car or bike, and a state and city that the location tables list together. */
  lemma SampleEntriesValid()
    ensures |SampleParkingLocations| == 33
    ensures forall e | e in SampleParkingLocations :: KnownKinds(e) && KnownPlace(e)
  {
    KindsAll();
    PlacesFrom0();
    PlacesFrom4();
    PlacesFrom8();
    PlacesFrom12();
    PlacesFrom16();
    PlacesFrom20();
    PlacesFrom24();
    PlacesFrom28();
    PlacesFrom32();
    EveryIndexEveryEntry(SampleParkingLocations);
  }

  lemma EveryIndexEveryEntry(s: seq<SlotView>)
    requires forall i | 0 <= i < |s| :: KnownKinds(s[i]) && KnownPlace(s[i])
    ensures forall e | e in s :: KnownKinds(e) && KnownPlace(e)
  {
  }

  function ForState(state: string): SlotView -> bool
  {
    (e: SlotView) => e.state == state
  }

  function ForStateAndCity(state: string, city: string): SlotView -> bool
  {
    (e: SlotView) => e.state == state && e.city == city
  }

  /** `getSampleLocationsForState(state)`. */
  function GetSampleLocationsForState(state: string): seq<SlotView>
  {
    Filter(SampleParkingLocations, ForState(state))
  }

  /** `getSampleLocationsForCity(state, city)`. */
  function GetSampleLocationsForCity(state: string, city: string): seq<SlotView>
  {
    Filter(SampleParkingLocations, ForStateAndCity(state, city))
  }

  /** The entries of a state, exactly and in data order; none for a state the entries
      do not use, which includes every state missing from the location tables. */
  lemma ForStateExact(state: string, e: SlotView)
    ensures IsSubsequence(GetSampleLocationsForState(state), SampleParkingLocations)
    ensures e in GetSampleLocationsForState(state) <==> e in SampleParkingLocations && e.state == state
    ensures state !in Locations.StatesAndCities ==> GetSampleLocationsForState(state) == []
  {
    FilterIsSubsequence(SampleParkingLocations, ForState(state));
    FilterMembership(SampleParkingLocations, ForState(state), e);
    if state !in Locations.StatesAndCities {
      SampleEntriesValid();
      UnknownStateHasNone(SampleParkingLocations, state);
    }
  }

  lemma UnknownStateHasNone(s: seq<SlotView>, state: string)
    requires forall e | e in s :: KnownPlace(e)
    requires state !in Locations.StatesAndCities
    ensures Filter(s, ForState(state)) == []
  {
    assert forall i | 0 <= i < |s| :: s[i] in s;
    FilterKeepsNone(s, ForState(state));
  }

  /** The entries of a city are the entries of its state narrowed to that city, so they
      form a subsequence of the state's entries. */
  lemma ForCityWithinState(state: string, city: string, e: SlotView)
    ensures GetSampleLocationsForCity(state, city)
            == Filter(GetSampleLocationsForState(state), (e: SlotView) => e.city == city)
    ensures IsSubsequence(GetSampleLocationsForCity(state, city), GetSampleLocationsForState(state))
    ensures e in GetSampleLocationsForCity(state, city) <==>
      e in SampleParkingLocations && e.state == state && e.city == city
  {
    FilterTwice(SampleParkingLocations, ForState(state), (e: SlotView) => e.city == city, ForStateAndCity(state, city));
    FilterIsSubsequence(GetSampleLocationsForState(state), (e: SlotView) => e.city == city);
    FilterMembership(SampleParkingLocations, ForStateAndCity(state, city), e);
  }
}
