// The filter panel beside the field list: its `filters` record, the updaters
// its inputs call, and the apply and reset buttons that report a record.
module FieldFilter {
  import opened Seqs

  /** `FilterOptions`; `priceRange` is `[low, high]` and only `high` is ever read. */
  datatype Filters = Filters(city: string, priceRange: (int, int), fieldType: string, facilities: seq<string>)

  /** The record the panel starts from and resets to. */
  const InitialFilters: Filters := Filters("", (0, 300000), "", [])

  function Other(facility: string): string -> bool
  {
    (f: string) => f != facility
  }

  /** `handleFacilityChange`'s list update: a listed facility is removed everywhere it occurs,
      an unlisted one is appended at the end. */
  function ToggleFacility(facilities: seq<string>, facility: string): (r: seq<string>)
    ensures facility in r <==> facility !in facilities
    ensures forall g :: g != facility ==> (g in r <==> g in facilities)
    ensures facility in facilities ==> IsSubseq(r, facilities) && |r| < |facilities|
    ensures facility !in facilities ==> r == facilities + [facility]
  {
    if facility in facilities then
      var i :| 0 <= i < |facilities| && facilities[i] == facility;
      FilterDropsOne(facilities, Other(facility), i);
      FilterContents(facilities, Other(facility));
      Filter(facilities, Other(facility))
    else facilities + [facility]
  }

  /** The panel's state: the record being edited and whether the panel is open. */
  class FilterPanel {
    var filters: Filters
    var isOpen: bool

    constructor ()
      ensures filters == InitialFilters && !isOpen
    {
      filters := InitialFilters;
      isOpen := false;
    }

    /** The close button in the panel's header. */
    method Close()
      modifies this
      ensures !isOpen && filters == old(filters)
    {
      isOpen := false;
    }

    /** The filter button opens a closed panel and closes an open one. */
    method ToggleOpen()
      modifies this
      ensures isOpen == !old(isOpen) && filters == old(filters)
    {
      isOpen := !isOpen;
    }

    method HandleCityChange(city: string)
      modifies this
      ensures filters == old(filters).(city := city) && isOpen == old(isOpen)
    {
      filters := filters.(city := city);
    }

    method HandleTypeChange(fieldType: string)
      modifies this
      ensures filters == old(filters).(fieldType := fieldType) && isOpen == old(isOpen)
    {
      filters := filters.(fieldType := fieldType);
    }

    method HandleFacilityChange(facility: string)
      modifies this
      ensures filters == old(filters).(facilities := ToggleFacility(old(filters.facilities), facility))
      ensures isOpen == old(isOpen)
    {
      filters := filters.(facilities := ToggleFacility(filters.facilities, facility));
    }

    /** The price slider: the range becomes `[0, value]`. */
    method HandlePriceChange(value: int)
      modifies this
      ensures filters == old(filters).(priceRange := (0, value)) && isOpen == old(isOpen)
    {
      filters := filters.(priceRange := (0, value));
    }

    /** The save button reports the record as it is and closes the panel. */
    method HandleApplyFilters() returns (reported: Filters)
      modifies this
      ensures reported == old(filters) && filters == old(filters) && !isOpen
    {
      reported := filters;
      isOpen := false;
    }

    /** The cancel button restores the initial record and reports it; the panel stays as it was. */
    method HandleResetFilters() returns (reported: Filters)
      modifies this
      ensures reported == InitialFilters && filters == InitialFilters && isOpen == old(isOpen)
    {
      var resetFilters := Filters("", (0, 300000), "", []);
      filters := resetFilters;
      reported := resetFilters;
    }
  }

  // ----- lemmas -----

  /** Toggling an unlisted facility twice gives back the original list. */
  lemma ToggleTwiceRestores(facilities: seq<string>, facility: string)
    requires facility !in facilities
    ensures ToggleFacility(ToggleFacility(facilities, facility), facility) == facilities
  {
    FilterAppend(facilities, [facility], Other(facility));
    FilterKeepsAll(facilities, Other(facility));
    FilterDropsAll([facility], Other(facility));
  }

  /** Toggling a listed facility twice keeps the other facilities in order and moves it, once, to the end. */
  lemma ToggleTwiceMovesToEnd(facilities: seq<string>, facility: string)
    requires facility in facilities
    ensures ToggleFacility(ToggleFacility(facilities, facility), facility) ==
            Filter(facilities, Other(facility)) + [facility]
  {
  }

  /** A toggle leaves every other facility's membership and the other three criteria as they were. */
  lemma ToggleTouchesOnlyItsFacility(filters: Filters, facility: string, other: string)
    requires other != facility
    ensures var r := filters.(facilities := ToggleFacility(filters.facilities, facility));
            r.city == filters.city && r.priceRange == filters.priceRange && r.fieldType == filters.fieldType &&
            (other in r.facilities <==> other in filters.facilities) &&
            (facility in r.facilities <==> facility !in filters.facilities)
  {
  }
}
