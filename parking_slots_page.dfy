/** The slot listing page of frontend/src/pages/ParkingSlots.js: its filter bar, the
    city list that follows the chosen state, and the fall-back to sample data when the
    server has no slots or cannot be reached. */
module ParkingSlotsPage {
  import opened Wrappers
  import opened Seqs
  import opened ClientSlot
  import Locations
  import SampleLocations
  import ParkingSlot
  import SlotController

  /** The five filter values; "" means the criterion is off. */
  datatype Filters = Filters(
    state: string,
    city: string,
    locationType: string,
    vehicleType: string,
    available: string)

  /** The filters the page starts with: only available slots. */
  const DefaultFilters := Filters("", "", "", "", "true")

  /** Whether a slot passes every criterion that is on. */
  predicate Keeps(f: Filters, e: SlotView)
  {
    && (f.state != "" ==> e.state == f.state)
    && (f.city != "" ==> e.city == f.city)
    && (f.locationType != "" ==> e.locationType == f.locationType)
    && (f.vehicleType != "" ==> e.vehicleType == f.vehicleType)
    && (f.available != "" ==> e.isAvailable == (f.available == "true"))
  }

  /** One `if (criterion) filtered = filtered.filter(...)` step. */
  function Stage(s: seq<SlotView>, on: bool, p: SlotView -> bool): seq<SlotView>
  {
    if on then Filter(s, p) else s
  }

  /** applyFilters: the slots narrowed by state, city, location type, vehicle type and
      availability in turn, each step only when its criterion is non-empty. */
  function Filtered(slots: seq<SlotView>, f: Filters): seq<SlotView>
  {
    var byState := Stage(slots, f.state != "", (e: SlotView) => e.state == f.state);
    var byCity := Stage(byState, f.city != "", (e: SlotView) => e.city == f.city);
    var byType := Stage(byCity, f.locationType != "", (e: SlotView) => e.locationType == f.locationType);
    var byVehicle := Stage(byType, f.vehicleType != "", (e: SlotView) => e.vehicleType == f.vehicleType);
    Stage(byVehicle, f.available != "", (e: SlotView) => e.isAvailable == (f.available == "true"))
  }

  /** A step applied to the result of an earlier filter is one filter by both. */
  lemma StageNarrows(s: seq<SlotView>, acc: SlotView -> bool, on: bool, p: SlotView -> bool, next: SlotView -> bool)
    requires forall e :: next(e) == (acc(e) && (on ==> p(e)))
    ensures Stage(Filter(s, acc), on, p) == Filter(s, next)
  {
    if on {
      FilterTwice(s, acc, p, next);
    } else {
      FilterCongruent(s, acc, next);
    }
  }

  /** The chain of steps is a single filter by `Keeps`. */
  lemma FilteredIsOneFilter(slots: seq<SlotView>, f: Filters)
    ensures Filtered(slots, f) == Filter(slots, (e: SlotView) => Keeps(f, e))
  {
    var k0 := (e: SlotView) => true;
    var k1 := (e: SlotView) => f.state != "" ==> e.state == f.state;
    var k2 := (e: SlotView) => k1(e) && (f.city != "" ==> e.city == f.city);
    var k3 := (e: SlotView) => k2(e) && (f.locationType != "" ==> e.locationType == f.locationType);
    var k4 := (e: SlotView) => k3(e) && (f.vehicleType != "" ==> e.vehicleType == f.vehicleType);
    FilterKeepsAll(slots, k0);
    StageNarrows(slots, k0, f.state != "", (e: SlotView) => e.state == f.state, k1);
    StageNarrows(slots, k1, f.city != "", (e: SlotView) => e.city == f.city, k2);
    StageNarrows(slots, k2, f.locationType != "", (e: SlotView) => e.locationType == f.locationType, k3);
    StageNarrows(slots, k3, f.vehicleType != "", (e: SlotView) => e.vehicleType == f.vehicleType, k4);
    StageNarrows(slots, k4, f.available != "", (e: SlotView) => e.isAvailable == (f.available == "true"), (e: SlotView) => Keeps(f, e));
  }

  /** The filtered list keeps the slots' order, and holds a slot exactly when the slot
      is listed and equals every non-empty criterion, with a non-empty `available`
      matched as `isAvailable == (available == "true")`. */
  lemma FilteredMeaning(slots: seq<SlotView>, f: Filters, e: SlotView)
    ensures IsSubsequence(Filtered(slots, f), slots)
    ensures e in Filtered(slots, f) <==> e in slots && Keeps(f, e)
  {
    FilteredIsOneFilter(slots, f);
    FilterIsSubsequence(slots, (e: SlotView) => Keeps(f, e));
    FilterMembership(slots, (e: SlotView) => Keeps(f, e), e);
  }

  /** With every criterion empty the list is shown unchanged. */
  lemma NoCriteriaKeepsAll(slots: seq<SlotView>)
    ensures Filtered(slots, Filters("", "", "", "", "")) == slots
  {
    FilteredIsOneFilter(slots, Filters("", "", "", "", ""));
    FilterKeepsAll(slots, (e: SlotView) => Keeps(Filters("", "", "", "", ""), e));
  }

  /** Under the starting filters exactly the available slots are shown, in order. */
  lemma DefaultsShowAvailable(slots: seq<SlotView>)
    ensures Filtered(slots, DefaultFilters) == Filter(slots, (e: SlotView) => e.isAvailable)
  {
    FilteredIsOneFilter(slots, DefaultFilters);
    FilterCongruent(slots, (e: SlotView) => Keeps(DefaultFilters, e), (e: SlotView) => e.isAvailable);
  }

  /** The query of the backend's slot listing that asks for the same slots: each
      empty filter value left out. */
  function QueryOf(f: Filters): SlotController.SlotQuery
  {
    SlotController.SlotQuery(
      if f.state == "" then None else Some(f.state),
      if f.city == "" then None else Some(f.city),
      if f.locationType == "" then None else Some(f.locationType),
      if f.vehicleType == "" then None else Some(f.vehicleType),
      if f.available == "" then None else Some(f.available))
  }

  /** On slots the server sent, the page's filter and the backend's listing filter
      agree once empty values are dropped from the query; an `available` sent as ""
      is where they part: the backend then lists only unavailable slots, the page all. */
  lemma ClientAgreesWithServer(f: Filters, s: ParkingSlot.Slot)
    ensures Keeps(f, FromSlot(s)) <==> SlotController.Matches(SlotController.FilterFor(QueryOf(f)), s)
    ensures f.available == "" && s.isAvailable ==>
      !SlotController.Matches(SlotController.FilterFor(QueryOf(f).(available := Some(""))), s)
  {
    SlotController.QueryMeaning(QueryOf(f), s);
    SlotController.QueryMeaning(QueryOf(f).(available := Some("")), s);
  }

  /** The page's state. */
  class Page {
    var slots: seq<SlotView>
    var filteredSlots: seq<SlotView>
    var filters: Filters
    var cities: seq<string>
    var showSampleData: bool
    var loading: bool
    var error: string

    /** The first render: nothing loaded yet, the default filters, no cities. */
    constructor ()
      ensures slots == [] && filteredSlots == [] && filters == DefaultFilters
      ensures cities == [] && !showSampleData && loading && error == ""
    {
      slots, filteredSlots, filters := [], [], DefaultFilters;
      cities, showSampleData, loading, error := [], false, true, "";
    }

    /** The applyFilters effect: the shown list is recomputed from the slots. */
    method ApplyFilters()
      modifies this
      ensures filteredSlots == Filtered(slots, filters)
      ensures slots == old(slots) && filters == old(filters) && cities == old(cities)
      ensures showSampleData == old(showSampleData) && loading == old(loading) && error == old(error)
    {
      filteredSlots := Filtered(slots, filters);
    }

    /** The effect on a change of `filters.state`: a chosen state lists its cities and
        clears the city filter; clearing the state empties the city list but leaves the
        city filter as it was. */
    method OnStateChange()
      modifies this
      ensures filters.state != "" ==>
        cities == Locations.GetCitiesByState(filters.state) && filters == old(filters).(city := "")
      ensures filters.state == "" ==> cities == [] && filters == old(filters)
      ensures slots == old(slots) && filteredSlots == old(filteredSlots)
      ensures showSampleData == old(showSampleData) && loading == old(loading) && error == old(error)
    {
      if filters.state != "" {
        cities := Locations.GetCitiesByState(filters.state);
        filters := filters.(city := "");
      } else {
        cities := [];
      }
    }

    /** fetchSlots, given the server's answer: `None` when the request failed. An empty
        or failed answer shows the sample data instead. */
    method FetchSlots(response: Option<seq<SlotView>>)
      modifies this
      ensures response.None? || response == Some([]) ==>
        slots == SampleLocations.SampleParkingLocations && showSampleData
      ensures response.Some? && response.value != [] ==> slots == response.value && !showSampleData
      ensures !loading && error == ""
      ensures filteredSlots == old(filteredSlots) && filters == old(filters) && cities == old(cities)
    {
      loading := true;
      if response.None? || |response.value| == 0 {
        slots := SampleLocations.SampleParkingLocations;
        showSampleData := true;
      } else {
        slots := response.value;
        showSampleData := false;
      }
      error := "";
      loading := false;
    }
  }

  /** Choosing a state and letting the effects run shows only that state's slots and
      no city filter is left over from the state chosen before. */
  method ChooseState(page: Page, state: string)
    requires state != ""
    modifies page
    ensures page.filters == old(page.filters).(state := state, city := "")
    ensures page.cities == Locations.GetCitiesByState(state)
    ensures forall e :: e in page.filteredSlots ==> e in page.slots && e.state == state
  {
    page.filters := page.filters.(state := state);
    page.OnStateChange();
    page.ApplyFilters();
    forall e | e in page.filteredSlots
      ensures e in page.slots && e.state == state
    {
      FilteredMeaning(page.slots, page.filters, e);
    }
  }
}
