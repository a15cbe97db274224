// The field list page: the city taken from the address bar, the free-text
// search, and the criteria the filter panel reports.
module FieldsPage {
  import opened Seqs
  import opened Text
  import opened MockData
  import opened FieldFilter

  // ----- the filter panel's criteria -----

  predicate CityOk(filters: Filters, f: Field) { filters.city == "" || f.city == filters.city }

  predicate PriceOk(filters: Filters, f: Field) { f.pricePerHour <= filters.priceRange.1 }

  predicate TypeOk(filters: Filters, f: Field) { filters.fieldType == "" || FieldTypeName(f.fieldType) == filters.fieldType }

  predicate HasFacilities(filters: Filters, f: Field)
  {
    forall i :: 0 <= i < |filters.facilities| ==> filters.facilities[i] in f.facilities
  }

  /** A field meets every active criterion: an empty city or type imposes nothing, the price is at
      most the range's upper end, and every selected facility is offered. */
  predicate Matches(filters: Filters, f: Field)
  {
    CityOk(filters, f) && PriceOk(filters, f) && TypeOk(filters, f) && HasFacilities(filters, f)
  }

  function MatchAll(filters: Filters): Field -> bool { (f: Field) => Matches(filters, f) }

  // The single-criterion filters `handleFilter` applies one after another, and what has been
  // applied after each step.
  function SameCity(filters: Filters): Field -> bool { (f: Field) => f.city == filters.city }
  function Affordable(filters: Filters): Field -> bool { (f: Field) => PriceOk(filters, f) }
  function SameType(filters: Filters): Field -> bool { (f: Field) => FieldTypeName(f.fieldType) == filters.fieldType }
  function Equipped(filters: Filters): Field -> bool { (f: Field) => HasFacilities(filters, f) }
  function AfterCity(filters: Filters): Field -> bool { (f: Field) => CityOk(filters, f) }
  function AfterPrice(filters: Filters): Field -> bool { (f: Field) => CityOk(filters, f) && PriceOk(filters, f) }
  function AfterType(filters: Filters): Field -> bool
  {
    (f: Field) => CityOk(filters, f) && PriceOk(filters, f) && TypeOk(filters, f)
  }

  /** `handleFilter`'s successive filters: the result is the catalog's order-preserving subsequence
      of fields meeting every criterion. */
  method FilterFields(fields: seq<Field>, filters: Filters) returns (filtered: seq<Field>)
    ensures filtered == Filter(fields, MatchAll(filters))
    ensures IsSubseq(filtered, fields)
    ensures forall f :: f in filtered <==> f in fields && Matches(filters, f)
  {
    filtered := fields;
    if filters.city != "" {
      filtered := Filter(filtered, SameCity(filters));
    }
    CityStage(fields, filters);
    // the price range is an array, always truthy
    filtered := Filter(filtered, Affordable(filters));
    PriceStage(fields, filters);
    if filters.fieldType != "" {
      filtered := Filter(filtered, SameType(filters));
    }
    TypeStage(fields, filters);
    if |filters.facilities| > 0 {
      filtered := Filter(filtered, Equipped(filters));
    }
    FacilityStage(fields, filters);
    FilterContents(fields, MatchAll(filters));
  }

  lemma CityStage(fields: seq<Field>, filters: Filters)
    ensures (if filters.city != "" then Filter(fields, SameCity(filters)) else fields) ==
            Filter(fields, AfterCity(filters))
  {
    if filters.city != "" {
      FilterExt(fields, SameCity(filters), AfterCity(filters));
    } else {
      FilterKeepsAll(fields, AfterCity(filters));
    }
  }

  lemma PriceStage(fields: seq<Field>, filters: Filters)
    ensures Filter(Filter(fields, AfterCity(filters)), Affordable(filters)) == Filter(fields, AfterPrice(filters))
  {
    FilterCompose(fields, AfterCity(filters), Affordable(filters), AfterPrice(filters));
  }

  lemma TypeStage(fields: seq<Field>, filters: Filters)
    ensures (var s := Filter(fields, AfterPrice(filters));
             if filters.fieldType != "" then Filter(s, SameType(filters)) else s) ==
            Filter(fields, AfterType(filters))
  {
    if filters.fieldType != "" {
      FilterCompose(fields, AfterPrice(filters), SameType(filters), AfterType(filters));
    } else {
      FilterExt(fields, AfterPrice(filters), AfterType(filters));
    }
  }

  lemma FacilityStage(fields: seq<Field>, filters: Filters)
    ensures (var s := Filter(fields, AfterType(filters));
             if |filters.facilities| > 0 then Filter(s, Equipped(filters)) else s) ==
            Filter(fields, MatchAll(filters))
  {
    if |filters.facilities| > 0 {
      FilterCompose(fields, AfterType(filters), Equipped(filters), MatchAll(filters));
    } else {
      FilterExt(fields, AfterType(filters), MatchAll(filters));
    }
  }

  // ----- free-text search -----

  /** The lower-cased term occurs in the lower-cased name, address or city. */
  predicate SearchHit(term: string, f: Field)
  {
    var t := Lower(term);
    Contains(Lower(f.name), t) || Contains(Lower(f.address), t) || Contains(Lower(f.city), t)
  }

  function SearchMatch(term: string): Field -> bool { (f: Field) => SearchHit(term, f) }

  /** `handleSearch`: a blank term shows every field, any other term (untrimmed) the fields it hits. */
  function SearchResults(fields: seq<Field>, term: string): (r: seq<Field>)
    ensures IsSubseq(r, fields)
    ensures IsBlank(term) ==> r == fields
    ensures !IsBlank(term) ==> forall f :: f in r <==> f in fields && SearchHit(term, f)
    ensures !IsBlank(term) ==>
              forall f :: multiset(r)[f] == if SearchHit(term, f) then multiset(fields)[f] else 0
  {
    TrimEmptyIffBlank(term);
    SubseqRefl(fields);
    FilterContents(fields, SearchMatch(term));
    if Trim(term) != [] then Filter(fields, SearchMatch(term)) else fields
  }

  // ----- the `city` query parameter -----

  function SameCityIgnoringCase(city: string): Field -> bool { (f: Field) => Lower(f.city) == Lower(city) }

  /** The page effect on the query string: a non-empty `city` keeps the fields in that city,
      compared case-insensitively; an absent or empty one keeps them all. */
  function CityResults(fields: seq<Field>, city: Option<string>): (r: seq<Field>)
    ensures IsSubseq(r, fields)
    ensures city.None? || city.value == "" ==> r == fields
    ensures city.Some? && city.value != "" ==> forall f :: f in r <==> f in fields && Lower(f.city) == Lower(city.value)
    ensures city.Some? && city.value != "" ==>
              forall f :: multiset(r)[f] == if Lower(f.city) == Lower(city.value) then multiset(fields)[f] else 0
  {
    SubseqRefl(fields);
    if city.Some? && city.value != "" then
      FilterContents(fields, SameCityIgnoringCase(city.value));
      Filter(fields, SameCityIgnoringCase(city.value))
    else fields
  }

  /** The page's state: the search box and the fields on show. */
  class FieldsView {
    const fields: seq<Field>
    var searchTerm: string
    var filteredFields: seq<Field>

    /** Mounting the page; the query-string effect runs at once. */
    constructor (fields: seq<Field>, city: Option<string>)
      ensures this.fields == fields && searchTerm == "" && filteredFields == CityResults(fields, city)
    {
      this.fields := fields;
      searchTerm := "";
      filteredFields := CityResults(fields, city);
    }

    /** The query string changed. */
    method OnSearchParams(city: Option<string>)
      modifies this
      ensures filteredFields == CityResults(fields, city) && searchTerm == old(searchTerm)
    {
      filteredFields := CityResults(fields, city);
    }

    method SetSearchTerm(term: string)
      modifies this
      ensures searchTerm == term && filteredFields == old(filteredFields)
    {
      searchTerm := term;
    }

    /** Submitting the search form. */
    method HandleSearch()
      modifies this
      ensures filteredFields == SearchResults(fields, searchTerm) && searchTerm == old(searchTerm)
    {
      filteredFields := SearchResults(fields, searchTerm);
    }

    /** The filter panel reported `filters`. */
    method HandleFilter(filters: Filters)
      modifies this
      ensures filteredFields == Filter(fields, MatchAll(filters)) && searchTerm == old(searchTerm)
    {
      filteredFields := FilterFields(fields, filters);
    }
  }

  // ----- lemmas -----

  /** Selecting one more facility never adds a field to the result. */
  lemma MoreFacilitiesNeverEnlarge(fields: seq<Field>, filters: Filters, facility: string)
    ensures IsSubseq(Filter(fields, MatchAll(filters.(facilities := filters.facilities + [facility]))),
                     Filter(fields, MatchAll(filters)))
  {
    var more := filters.(facilities := filters.facilities + [facility]);
    forall f | Matches(more, f) ensures Matches(filters, f) {
      assert forall i :: 0 <= i < |filters.facilities| ==> more.facilities[i] == filters.facilities[i];
    }
    FilterMonotone(fields, MatchAll(more), MatchAll(filters));
  }

  /** Ticking an unticked facility box in the panel, then applying, never shows more fields. */
  lemma TickingFacilityNarrows(fields: seq<Field>, filters: Filters, facility: string)
    requires facility !in filters.facilities
    ensures IsSubseq(Filter(fields, MatchAll(filters.(facilities := ToggleFacility(filters.facilities, facility)))),
                     Filter(fields, MatchAll(filters)))
  {
    MoreFacilitiesNeverEnlarge(fields, filters, facility);
  }

  /** The initial criteria keep every seeded field, since none costs more than 300000 an hour. */
  lemma InitialFiltersKeepSeededFields()
    ensures Filter(Fields, MatchAll(InitialFilters)) == Fields
  {
    SeedPricesWithinRange();
    InitialFiltersKeepAffordable(Fields);
  }

  /** The initial criteria keep every field priced within the slider's range. */
  lemma InitialFiltersKeepAffordable(fields: seq<Field>)
    requires forall i :: 0 <= i < |fields| ==> fields[i].pricePerHour <= InitialFilters.priceRange.1
    ensures Filter(fields, MatchAll(InitialFilters)) == fields
  {
    forall i | 0 <= i < |fields| ensures MatchAll(InitialFilters)(fields[i]) {
      assert Matches(InitialFilters, fields[i]);
    }
    FilterKeepsAll(fields, MatchAll(InitialFilters));
  }

  lemma SeedPricesWithinRange()
    ensures forall i :: 0 <= i < |Fields| ==> Fields[i].pricePerHour <= InitialFilters.priceRange.1
  {
    forall i | 0 <= i < |Fields| ensures Fields[i].pricePerHour <= 300000 {
      assert Fields[i].pricePerHour <= 250000;
    }
  }

  /** The search does not depend on the case of the term. */
  lemma SearchIgnoresCase(fields: seq<Field>, term: string)
    ensures SearchResults(fields, Lower(term)) == SearchResults(fields, term)
  {
    LowerIdempotent(term);
    LowerKeepsBlank(term);
    TrimEmptyIffBlank(term);
    TrimEmptyIffBlank(Lower(term));
    FilterExt(fields, SearchMatch(Lower(term)), SearchMatch(term));
  }

  /** The city parameter does not depend on case. */
  lemma CityIgnoresCase(fields: seq<Field>, city: string)
    ensures CityResults(fields, Some(Lower(city))) == CityResults(fields, Some(city))
  {
    LowerIdempotent(city);
    FilterExt(fields, SameCityIgnoringCase(Lower(city)), SameCityIgnoringCase(city));
  }
}
