/** The lookup tables of frontend/src/data/locations.js: the states with their
    cities, the location types offered in the filters, and the two accessors. */
module Locations {
  import opened Text
  import ParkingSlot

  /** `statesAndCities`: each state mapped to its cities, in declared order. */
  const StatesAndCities: map<string, seq<string>> := map[
    "Andhra Pradesh" := ["Visakhapatnam", "Vijayawada", "Guntur", "Nellore", "Kurnool", "Tirupati", "Rajahmundry"],
    "Arunachal Pradesh" := ["Itanagar", "Naharlagun", "Pasighat", "Tawang"],
    "Assam" := ["Guwahati", "Silchar", "Dibrugarh", "Jorhat", "Nagaon", "Tinsukia"],
    "Bihar" := ["Patna", "Gaya", "Bhagalpur", "Muzaffarpur", "Darbhanga", "Bihar Sharif"],
    "Chhattisgarh" := ["Raipur", "Bhilai", "Bilaspur", "Korba", "Durg", "Rajnandgaon"],
    "Goa" := ["Panaji", "Margao", "Vasco da Gama", "Mapusa", "Ponda"],
    "Gujarat" := ["Ahmedabad", "Surat", "Vadodara", "Rajkot", "Gandhinagar", "Bhavnagar", "Jamnagar"],
    "Haryana" := ["Chandigarh", "Faridabad", "Gurgaon", "Panipat", "Ambala", "Karnal", "Rohtak"],
    "Himachal Pradesh" := ["Shimla", "Manali", "Dharamshala", "Kullu", "Solan", "Mandi"],
    "Jharkhand" := ["Ranchi", "Jamshedpur", "Dhanbad", "Bokaro", "Deoghar", "Hazaribagh"],
    "Karnataka" := ["Bangalore", "Mysore", "Mangalore", "Hubli", "Belgaum", "Gulbarga", "Davangere"],
    "Kerala" := ["Thiruvananthapuram", "Kochi", "Kozhikode", "Thrissur", "Kollam", "Palakkad", "Alappuzha"],
    "Madhya Pradesh" := ["Bhopal", "Indore", "Gwalior", "Jabalpur", "Ujjain", "Sagar", "Ratlam"],
    "Maharashtra" := ["Mumbai", "Pune", "Nagpur", "Thane", "Nashik", "Aurangabad", "Solapur", "Kolhapur"],
    "Manipur" := ["Imphal", "Thoubal", "Bishnupur", "Churachandpur"],
    "Meghalaya" := ["Shillong", "Tura", "Nongstoin", "Jowai"],
    "Mizoram" := ["Aizawl", "Lunglei", "Champhai", "Serchhip"],
    "Nagaland" := ["Kohima", "Dimapur", "Mokokchung", "Tuensang"],
    "Odisha" := ["Bhubaneswar", "Cuttack", "Rourkela", "Puri", "Sambalpur", "Berhampur"],
    "Punjab" := ["Chandigarh", "Ludhiana", "Amritsar", "Jalandhar", "Patiala", "Bathinda", "Mohali"],
    "Rajasthan" := ["Jaipur", "Jodhpur", "Udaipur", "Kota", "Ajmer", "Bikaner", "Alwar"],
    "Sikkim" := ["Gangtok", "Namchi", "Gyalshing", "Mangan"],
    "Tamil Nadu" := ["Chennai", "Coimbatore", "Madurai", "Tiruchirappalli", "Salem", "Tirunelveli", "Vellore"],
    "Telangana" := ["Hyderabad", "Warangal", "Nizamabad", "Karimnagar", "Khammam", "Mahbubnagar"],
    "Tripura" := ["Agartala", "Udaipur", "Dharmanagar", "Kailasahar"],
    "Uttar Pradesh" := ["Lucknow", "Kanpur", "Agra", "Varanasi", "Meerut", "Allahabad", "Ghaziabad", "Noida"],
    "Uttarakhand" := ["Dehradun", "Haridwar", "Roorkee", "Nainital", "Rishikesh", "Haldwani"],
    "West Bengal" := ["Kolkata", "Howrah", "Durgapur", "Siliguri", "Asansol", "Darjeeling"],
    "Delhi" := ["New Delhi", "Central Delhi", "South Delhi", "North Delhi", "East Delhi", "West Delhi"],
    "Jammu and Kashmir" := ["Srinagar", "Jammu", "Anantnag", "Baramulla", "Udhampur"],
    "Ladakh" := ["Leh", "Kargil"]
  ]

  /** `Object.keys(statesAndCities)`: the states in the order the literal declares them. */
  const StateKeys: seq<string> := [
    "Andhra Pradesh", "Arunachal Pradesh", "Assam", "Bihar", "Chhattisgarh", "Goa",
    "Gujarat", "Haryana", "Himachal Pradesh", "Jharkhand", "Karnataka", "Kerala",
    "Madhya Pradesh", "Maharashtra", "Manipur", "Meghalaya", "Mizoram", "Nagaland",
    "Odisha", "Punjab", "Rajasthan", "Sikkim", "Tamil Nadu", "Telangana", "Tripura",
    "Uttar Pradesh", "Uttarakhand", "West Bengal", "Delhi", "Jammu and Kashmir", "Ladakh"
  ]

  predicate NoDuplicates(s: seq<string>)
  {
    forall i, j :: 0 <= i < j < |s| ==> s[i] != s[j]
  }

  /** No two positions of the key list hold the same name, in five parts. */
  lemma KeysDistinctFrom0()
    ensures forall i, j | 0 <= i < 3 && i < j < |StateKeys| :: StateKeys[i] != StateKeys[j]
  {
  }

  lemma KeysDistinctFrom3()
    ensures forall i, j | 3 <= i < 8 && i < j < |StateKeys| :: StateKeys[i] != StateKeys[j]
  {
  }

  lemma KeysDistinctFrom8()
    ensures forall i, j | 8 <= i < 16 && i < j < |StateKeys| :: StateKeys[i] != StateKeys[j]
  {
  }

  lemma KeysDistinctFrom16()
    ensures forall i, j | 16 <= i < 24 && i < j < |StateKeys| :: StateKeys[i] != StateKeys[j]
  {
  }

  lemma KeysDistinctFrom24()
    ensures forall i, j | 24 <= i < 31 && i < j < |StateKeys| :: StateKeys[i] != StateKeys[j]
  {
  }

  lemma ListedKeyIsState(k: string)
    ensures k in StateKeys ==> k in StatesAndCities
  {
  }

  lemma StateIsListedKey(k: string)
    ensures k in StatesAndCities ==> k in StateKeys
  {
  }

  /** The key list names each state of the object exactly once. */
  lemma StateKeysExact(k: string)
    ensures NoDuplicates(StateKeys) && |StateKeys| == 31
    ensures k in StateKeys <==> k in StatesAndCities
  {
    KeysDistinctFrom0();
    KeysDistinctFrom3();
    KeysDistinctFrom8();
    KeysDistinctFrom16();
    KeysDistinctFrom24();
    ListedKeyIsState(k);
    StateIsListedKey(k);
  }

  /** `getStates()`: the keys, sorted. */
  function GetStates(): seq<string>
  {
    SortStrings(StateKeys)
  }

  /** A list without duplicates holds each of its elements once. */
  lemma {:induction false} NoDuplicatesCount(s: seq<string>, k: string)
    requires NoDuplicates(s) && k in s
    ensures multiset(s)[k] == 1
  {
    assert s == [s[0]] + s[1..];
    if s[0] == k {
      assert k !in s[1..];
    } else {
      NoDuplicatesCount(s[1..], k);
    }
  }

  /** Sorting a list without duplicates gives an ascending list of the same length
      holding each element once. */
  lemma SortDistinct(s: seq<string>, k: string)
    requires NoDuplicates(s)
    ensures Sorted(SortStrings(s))
    ensures |SortStrings(s)| == |s|
    ensures k in SortStrings(s) <==> k in s
    ensures k in s ==> multiset(SortStrings(s))[k] == 1
  {
    SortStringsCorrect(s);
    assert |SortStrings(s)| == |multiset(SortStrings(s))| == |multiset(s)| == |s|;
    assert k in SortStrings(s) <==> k in multiset(SortStrings(s));
    assert k in s <==> k in multiset(s);
    if k in s {
      NoDuplicatesCount(s, k);
    }
  }

  /** getStates returns every state of the object exactly once, in ascending order,
      and nothing else. */
  lemma GetStatesCorrect(k: string)
    ensures Sorted(GetStates())
    ensures |GetStates()| == |StateKeys|
    ensures k in GetStates() <==> k in StatesAndCities
    ensures k in StatesAndCities ==> multiset(GetStates())[k] == 1
  {
    StateKeysExact(k);
    SortDistinct(StateKeys, k);
  }

  /** `getCitiesByState(state)`: the state's list, or `[]` for an unknown state. */
  function GetCitiesByState(state: string): (cities: seq<string>)
    ensures state !in StatesAndCities ==> cities == []
    ensures state in StatesAndCities ==> cities == StatesAndCities[state]
  {
    if state in StatesAndCities then StatesAndCities[state] else []
  }

  /** A city name does not determine its state: Chandigarh is listed under Haryana
      and under Punjab, Udaipur under Rajasthan and under Tripura. */
  lemma CityNamesRepeat()
    ensures "Chandigarh" in GetCitiesByState("Haryana") && "Chandigarh" in GetCitiesByState("Punjab")
    ensures "Udaipur" in GetCitiesByState("Rajasthan") && "Udaipur" in GetCitiesByState("Tripura")
  {
  }

  /** `locationTypes`. */
  const LocationTypes: seq<string> :=
    ["Hotel", "Hospital", "Mall", "Airport", "Railway Station",
     "Office", "Residential", "Restaurant", "Stadium", "College"]

  /** The filter's location types are the schema's enum, in the same order, so every
      choice offered names a location type and every location type is offered. */
  lemma LocationTypesMatchSchema(s: string)
    ensures LocationTypes == ParkingSlot.LocationTypeEnum
    ensures s in LocationTypes <==> ParkingSlot.ParseLocationType(s).Some?
  {
    ParkingSlot.LocationTypeEnumExact(s);
  }
}
