/** The venue listing page: the venues loaded from the contract, the filter
    form, and the effect that narrows the list by sport type, price range and
    search term. The price-range test works on floating-point ether amounts
    and is an input here: `inPriceRange(range, venue)`. */
module VenueListing {
  import opened Wrappers
  import opened JsText
  import opened ContractHelpers

  const LoadError := "Failed to load venues. Please try again later."

  datatype Filters = Filters(sportType: string, priceRange: string, search: string)

  /** The `name` attribute of the form control that changed. */
  datatype FilterField = SportType | PriceRange | Search

  const NoFilters := Filters("", "", "")

  // ---------------------------------------------------------------------
  // Array.prototype.filter and subsequences
  // ---------------------------------------------------------------------

  /** `s.filter(p)`. */
  function Filter<T>(s: seq<T>, p: T -> bool): (r: seq<T>)
    ensures |r| <= |s|
    ensures forall i :: 0 <= i < |r| ==> p(r[i])
  {
    if |s| == 0 then []
    else if p(s[0]) then [s[0]] + Filter(s[1..], p)
    else Filter(s[1..], p)
  }

  /** `a` is `b` with some elements left out, order kept. */
  predicate IsSubsequence<T(==)>(a: seq<T>, b: seq<T>)
    decreases |b|
  {
    if |a| == 0 then true
    else if |b| == 0 then false
    else if a[0] == b[0] then IsSubsequence(a[1..], b[1..])
    else IsSubsequence(a, b[1..])
  }

  lemma {:induction false} FilterIsSubsequence<T>(s: seq<T>, p: T -> bool)
    ensures IsSubsequence(Filter(s, p), s)
  {
    if |s| > 0 {
      FilterIsSubsequence(s[1..], p);
      if p(s[0]) {
        assert ([s[0]] + Filter(s[1..], p))[1..] == Filter(s[1..], p);
      } else {
        var r := Filter(s, p);
        assert |r| > 0 ==> r[0] != s[0];
      }
    }
  }

  lemma {:induction false} FilterMembership<T>(s: seq<T>, p: T -> bool, x: T)
    ensures x in Filter(s, p) <==> x in s && p(x)
  {
    if |s| > 0 {
      FilterMembership(s[1..], p, x);
      assert s == [s[0]] + s[1..];
    }
  }

  /** Filtering with two predicates that agree gives the same list. */
  lemma {:induction false} FilterCongruent<T>(s: seq<T>, p: T -> bool, q: T -> bool)
    requires forall x :: p(x) == q(x)
    ensures Filter(s, p) == Filter(s, q)
  {
    if |s| > 0 {
      FilterCongruent(s[1..], p, q);
    }
  }

  /** Two successive filters are one filter with the conjunction. */
  lemma {:induction false} FilterFilter<T>(s: seq<T>, p: T -> bool, q: T -> bool, pq: T -> bool)
    requires forall x :: pq(x) == (p(x) && q(x))
    ensures Filter(Filter(s, p), q) == Filter(s, pq)
  {
    if |s| > 0 {
      FilterFilter(s[1..], p, q, pq);
      if p(s[0]) {
        assert Filter(s, p) == [s[0]] + Filter(s[1..], p);
        assert Filter(s, p)[1..] == Filter(s[1..], p);
      }
    }
  }

  /** A filter that keeps everything changes nothing. */
  lemma {:induction false} FilterKeepsAll<T>(s: seq<T>, p: T -> bool)
    requires forall i :: 0 <= i < |s| ==> p(s[i])
    ensures Filter(s, p) == s
  {
    if |s| > 0 {
      FilterKeepsAll(s[1..], p);
      assert s == [s[0]] + s[1..];
    }
  }

  // ---------------------------------------------------------------------
  // The three filters
  // ---------------------------------------------------------------------

  /** `venue.sportType.toLowerCase().includes(filter.toLowerCase())`. */
  predicate SportMatches(v: Venue, sportType: string)
  {
    Includes(Lower(v.sportType), Lower(sportType))
  }

  /** The search term matches the name or the sport type, ignoring case. */
  predicate SearchMatches(v: Venue, search: string)
  {
    var term := Lower(search);
    Includes(Lower(v.name), term) || Includes(Lower(v.sportType), term)
  }

  /** A venue passes every filter that is set; an empty field filters nothing. */
  predicate Keep(f: Filters, inPriceRange: (string, Venue) -> bool, v: Venue)
  {
    && (f.sportType != "" ==> SportMatches(v, f.sportType))
    && (f.priceRange != "" ==> inPriceRange(f.priceRange, v))
    && (f.search != "" ==> SearchMatches(v, f.search))
  }

  /** The list the filter effect shows: the venues passing every filter, in
      their original order. */
  function Matching(venues: seq<Venue>, f: Filters, inPriceRange: (string, Venue) -> bool): seq<Venue>
  {
    Filter(venues, v => Keep(f, inPriceRange, v))
  }

  /** The sport filter keeps a venue exactly when its lower-cased sport type
      contains the lower-cased filter somewhere. */
  lemma SportMatchesIff(v: Venue, sportType: string)
    ensures SportMatches(v, sportType) <==> exists i :: OccursAt(Lower(v.sportType), Lower(sportType), i)
  {
    IncludesIff(Lower(v.sportType), Lower(sportType));
  }

  /** With every field empty the list is shown as loaded. */
  lemma NoFiltersKeepAll(venues: seq<Venue>, inPriceRange: (string, Venue) -> bool)
    ensures Matching(venues, NoFilters, inPriceRange) == venues
  {
    FilterKeepsAll(venues, v => Keep(NoFilters, inPriceRange, v));
  }

  /** The result is an order-preserving subsequence of the loaded venues, and
      holds exactly the venues that pass the conjunction of the filters. */
  lemma MatchingIsSubsequence(venues: seq<Venue>, f: Filters, inPriceRange: (string, Venue) -> bool, v: Venue)
    ensures IsSubsequence(Matching(venues, f, inPriceRange), venues)
    ensures v in Matching(venues, f, inPriceRange) <==> v in venues && Keep(f, inPriceRange, v)
  {
    FilterIsSubsequence(venues, u => Keep(f, inPriceRange, u));
    FilterMembership(venues, u => Keep(f, inPriceRange, u), v);
  }

  /** Applying the same filters to the filtered list changes nothing. */
  lemma MatchingIdempotent(venues: seq<Venue>, f: Filters, inPriceRange: (string, Venue) -> bool)
    ensures Matching(Matching(venues, f, inPriceRange), f, inPriceRange) == Matching(venues, f, inPriceRange)
  {
    var keep := v => Keep(f, inPriceRange, v);
    FilterKeepsAll(Filter(venues, keep), keep);
  }

  // ---------------------------------------------------------------------
  // The page
  // ---------------------------------------------------------------------

  class Listing {
    var venues: seq<Venue>
    var filteredVenues: seq<Venue>
    var loading: bool
    var error: Option<string>
    var filters: Filters

    constructor ()
      ensures venues == [] && filteredVenues == [] && loading && error == None && filters == NoFilters
    {
      venues := [];
      filteredVenues := [];
      loading := true;
      error := None;
      filters := NoFilters;
    }

    /** The fetch effect: `getAllVenues` with `loaded` as its outcome. */
    method FetchVenues(hasContract: bool, loaded: Result<seq<Venue>, string>)
      modifies this`venues, this`filteredVenues, this`loading, this`error
      ensures !loading
      ensures hasContract && loaded.Ok? ==> venues == loaded.value && filteredVenues == loaded.value && error == old(error)
      ensures hasContract && loaded.Err? ==>
        venues == old(venues) && filteredVenues == old(filteredVenues) && error == Some(LoadError)
      ensures !hasContract ==> venues == old(venues) && filteredVenues == old(filteredVenues) && error == old(error)
    {
      if !hasContract {
        loading := false;
        return;
      }
      loading := true;
      match loaded {
        case Ok(all) =>
          venues := all;
          filteredVenues := all;
        case Err(_) =>
          error := Some(LoadError);
      }
      loading := false;
    }

    /** The filter effect: nothing when no venues are loaded; otherwise the
        sport, price and search filters in turn, then `setFilteredVenues`. */
    method ApplyFilters(inPriceRange: (string, Venue) -> bool)
      modifies this`filteredVenues
      ensures |venues| == 0 ==> filteredVenues == old(filteredVenues)
      ensures |venues| > 0 ==> filteredVenues == Matching(venues, filters, inPriceRange)
    {
      if |venues| == 0 {
        return;
      }
      var f := filters;
      var result := venues;
      if f.sportType != "" {
        result := Filter(result, v => SportMatches(v, f.sportType));
      }
      if f.priceRange != "" {
        result := Filter(result, v => inPriceRange(f.priceRange, v));
      }
      if f.search != "" {
        result := Filter(result, v => SearchMatches(v, f.search));
      }
      filteredVenues := result;
      EffectIsMatching(venues, f, inPriceRange);
    }

    /** `handleFilterChange`: only the named field takes the new value. */
    method HandleFilterChange(field: FilterField, value: string)
      modifies this`filters
      ensures field == SportType ==> filters == old(filters).(sportType := value)
      ensures field == PriceRange ==> filters == old(filters).(priceRange := value)
      ensures field == Search ==> filters == old(filters).(search := value)
    {
      match field {
        case SportType => filters := filters.(sportType := value);
        case PriceRange => filters := filters.(priceRange := value);
        case Search => filters := filters.(search := value);
      }
    }

    /** The "Clear Filters" button. */
    method ClearFilters()
      modifies this`filters
      ensures filters == NoFilters
    {
      filters := NoFilters;
    }

    // The filter effect depends on `filters` and `venues`, so React runs it
    // again after each handler that changes one of them. These methods are
    // the handler followed by that effect.

    /** A filter control changes, then the filter effect runs. */
    method ChangeFilter(field: FilterField, value: string, inPriceRange: (string, Venue) -> bool)
      modifies this`filters, this`filteredVenues
      ensures field == SportType ==> filters == old(filters).(sportType := value)
      ensures field == PriceRange ==> filters == old(filters).(priceRange := value)
      ensures field == Search ==> filters == old(filters).(search := value)
      ensures |venues| == 0 ==> filteredVenues == old(filteredVenues)
      ensures |venues| > 0 ==> filteredVenues == Matching(venues, filters, inPriceRange)
    {
      HandleFilterChange(field, value);
      ApplyFilters(inPriceRange);
    }

    /** "Clear Filters", then the filter effect: the whole list is shown again. */
    method ResetFilters(inPriceRange: (string, Venue) -> bool)
      modifies this`filters, this`filteredVenues
      ensures filters == NoFilters
      ensures |venues| == 0 ==> filteredVenues == old(filteredVenues)
      ensures |venues| > 0 ==> filteredVenues == venues
    {
      ClearFilters();
      ApplyFilters(inPriceRange);
      NoFiltersKeepAll(venues, inPriceRange);
    }

    /** The fetch effect, then the filter effect when `setVenues` ran: a fresh
        load is shown through the filters already set. */
    method LoadVenues(hasContract: bool, loaded: Result<seq<Venue>, string>, inPriceRange: (string, Venue) -> bool)
      modifies this`venues, this`filteredVenues, this`loading, this`error
      ensures !loading
      ensures hasContract && loaded.Ok? ==> venues == loaded.value && error == old(error)
      ensures hasContract && loaded.Ok? && |loaded.value| > 0 ==>
        filteredVenues == Matching(loaded.value, filters, inPriceRange)
      ensures hasContract && loaded.Ok? && |loaded.value| == 0 ==> filteredVenues == []
      ensures hasContract && loaded.Err? ==>
        venues == old(venues) && filteredVenues == old(filteredVenues) && error == Some(LoadError)
      ensures !hasContract ==> venues == old(venues) && filteredVenues == old(filteredVenues) && error == old(error)
    {
      FetchVenues(hasContract, loaded);
      if hasContract && loaded.Ok? {
        ApplyFilters(inPriceRange);
      }
    }
  }

  /** The three successive filters of the effect. */
  function Successive(venues: seq<Venue>, f: Filters, inPriceRange: (string, Venue) -> bool): seq<Venue>
  {
    var bySport := if f.sportType != "" then Filter(venues, v => SportMatches(v, f.sportType)) else venues;
    var byPrice := if f.priceRange != "" then Filter(bySport, v => inPriceRange(f.priceRange, v)) else bySport;
    if f.search != "" then Filter(byPrice, v => SearchMatches(v, f.search)) else byPrice
  }

  /** Filtering in turn is filtering once by the conjunction. */
  lemma EffectIsMatching(venues: seq<Venue>, f: Filters, inPriceRange: (string, Venue) -> bool)
    ensures Successive(venues, f, inPriceRange) == Matching(venues, f, inPriceRange)
  {
    var sport: Venue -> bool := v => f.sportType != "" ==> SportMatches(v, f.sportType);
    var price: Venue -> bool := v => f.priceRange != "" ==> inPriceRange(f.priceRange, v);
    var search: Venue -> bool := v => f.search != "" ==> SearchMatches(v, f.search);
    var sportPrice: Venue -> bool := v => sport(v) && price(v);
    var all: Venue -> bool := v => Keep(f, inPriceRange, v);
    var bySport := if f.sportType != "" then Filter(venues, v => SportMatches(v, f.sportType)) else venues;
    assert bySport == Filter(venues, sport) by {
      if f.sportType != "" {
        FilterCongruent(venues, v => SportMatches(v, f.sportType), sport);
      } else {
        FilterKeepsAll(venues, sport);
      }
    }
    var byPrice := if f.priceRange != "" then Filter(bySport, v => inPriceRange(f.priceRange, v)) else bySport;
    assert byPrice == Filter(venues, sportPrice) by {
      if f.priceRange != "" {
        FilterCongruent(bySport, v => inPriceRange(f.priceRange, v), price);
      } else {
        FilterKeepsAll(bySport, price);
      }
      FilterFilter(venues, sport, price, sportPrice);
    }
    var bySearch := if f.search != "" then Filter(byPrice, v => SearchMatches(v, f.search)) else byPrice;
    assert bySearch == Filter(venues, all) by {
      if f.search != "" {
        FilterCongruent(byPrice, v => SearchMatches(v, f.search), search);
      } else {
        FilterKeepsAll(byPrice, search);
      }
      FilterFilter(venues, sportPrice, search, all);
    }
  }

  // ---------------------------------------------------------------------
  // The price filter as written
  // ---------------------------------------------------------------------

  /** The filter effect as the file stands: `ethers` is not imported, so the
      price callback throws a ReferenceError the first time it is called,
      before `setFilteredVenues`. `None` is that throw. The callback is called
      once the price range is set and any venue is left after the sport filter. */
  function SuccessiveAsWritten(venues: seq<Venue>, f: Filters): (r: Option<seq<Venue>>)
    ensures r.None? <==> f.priceRange != "" && |if f.sportType != "" then Filter(venues, v => SportMatches(v, f.sportType)) else venues| > 0
  {
    var bySport := if f.sportType != "" then Filter(venues, v => SportMatches(v, f.sportType)) else venues;
    if f.priceRange != "" && |bySport| > 0 then None
    else Some(if f.search != "" then Filter(bySport, v => SearchMatches(v, f.search)) else bySport)
  }

  /** Without a price range the file as written shows what the intended
      effect shows; with one, any venue in the list makes it throw. */
  lemma PriceRangeThrows(venues: seq<Venue>, f: Filters, inPriceRange: (string, Venue) -> bool, v: Venue)
    ensures f.priceRange == "" ==> SuccessiveAsWritten(venues, f) == Some(Matching(venues, f, inPriceRange))
    ensures f.priceRange != "" && f.sportType == "" ==> SuccessiveAsWritten([v], f) == None
  {
    EffectIsMatching(venues, f, inPriceRange);
    if f.priceRange == "" {
      assert Successive(venues, f, inPriceRange) == SuccessiveAsWritten(venues, f).value;
    }
  }
}
