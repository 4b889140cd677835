/**
 * The search sidebar: one filter record in component state, reported to the
 * page on every change. A change replaces one key of the record. When one
 * event handler makes several changes, each is built from the record as it
 * was when the handler started, so only the last one survives; `Snapshot`
 * states that behaviour and `ApplyAll` the step-by-step composition the
 * handlers evidently mean.
 */
module FilterSidebar {
  import opened Common
  import opened Text
  import opened Database

  datatype Key =
    | KPriceMin | KPriceMax | KBedrooms | KBathrooms | KIsOnCampus | KGenderPreference
    | KRentalType | KAmenities | KTargetLat | KTargetLng | KRadiusKm | KTargetAddress

  /** `handleFilterChange(key, value)`'s arguments: a key and a value of that key's type. */
  datatype Change =
    | PriceMin(priceMin: Option<real>)
    | PriceMax(priceMax: Option<real>)
    | Bedrooms(bedrooms: Option<real>)
    | Bathrooms(bathrooms: Option<real>)
    | IsOnCampus(isOnCampus: Option<bool>)
    | GenderPreference(genderPreference: Option<Database.GenderPreference>)
    | RentalType(rentalType: Option<seq<string>>)
    | Amenities(amenities: Option<seq<string>>)
    | TargetLat(targetLat: Option<real>)
    | TargetLng(targetLng: Option<real>)
    | RadiusKm(radiusKm: Option<real>)
    | TargetAddress(targetAddress: Option<string>)

  function KeyOf(c: Change): Key {
    match c
    case PriceMin(_) => KPriceMin
    case PriceMax(_) => KPriceMax
    case Bedrooms(_) => KBedrooms
    case Bathrooms(_) => KBathrooms
    case IsOnCampus(_) => KIsOnCampus
    case GenderPreference(_) => KGenderPreference
    case RentalType(_) => KRentalType
    case Amenities(_) => KAmenities
    case TargetLat(_) => KTargetLat
    case TargetLng(_) => KTargetLng
    case RadiusKm(_) => KRadiusKm
    case TargetAddress(_) => KTargetAddress
  }

  /** `filters[key]`, as the change that would set it to what it is. */
  function Value(f: ListingFilters, k: Key): (c: Change)
    ensures KeyOf(c) == k
  {
    match k
    case KPriceMin => PriceMin(f.priceMin)
    case KPriceMax => PriceMax(f.priceMax)
    case KBedrooms => Bedrooms(f.bedrooms)
    case KBathrooms => Bathrooms(f.bathrooms)
    case KIsOnCampus => IsOnCampus(f.isOnCampus)
    case KGenderPreference => GenderPreference(f.genderPreference)
    case KRentalType => RentalType(f.rentalType)
    case KAmenities => Amenities(f.amenities)
    case KTargetLat => TargetLat(f.targetLat)
    case KTargetLng => TargetLng(f.targetLng)
    case KRadiusKm => RadiusKm(f.radiusKm)
    case KTargetAddress => TargetAddress(f.targetAddress)
  }

  /** `{ ...filters, [key]: value }`: that key takes the new value, every other key keeps its own. */
  function With(f: ListingFilters, c: Change): (r: ListingFilters)
    ensures Value(r, KeyOf(c)) == c
    ensures forall k :: k != KeyOf(c) ==> Value(r, k) == Value(f, k)
  {
    match c
    case PriceMin(v) => f.(priceMin := v)
    case PriceMax(v) => f.(priceMax := v)
    case Bedrooms(v) => f.(bedrooms := v)
    case Bathrooms(v) => f.(bathrooms := v)
    case IsOnCampus(v) => f.(isOnCampus := v)
    case GenderPreference(v) => f.(genderPreference := v)
    case RentalType(v) => f.(rentalType := v)
    case Amenities(v) => f.(amenities := v)
    case TargetLat(v) => f.(targetLat := v)
    case TargetLng(v) => f.(targetLng := v)
    case RadiusKm(v) => f.(radiusKm := v)
    case TargetAddress(v) => f.(targetAddress := v)
  }

  /** Two filter records that agree on every key are the same record. */
  lemma SameValues(f: ListingFilters, g: ListingFilters)
    requires forall k :: Value(f, k) == Value(g, k)
    ensures f == g
  {
    assert Value(f, KPriceMin) == Value(g, KPriceMin);
    assert Value(f, KPriceMax) == Value(g, KPriceMax);
    assert Value(f, KBedrooms) == Value(g, KBedrooms);
    assert Value(f, KBathrooms) == Value(g, KBathrooms);
    assert Value(f, KIsOnCampus) == Value(g, KIsOnCampus);
    assert Value(f, KGenderPreference) == Value(g, KGenderPreference);
    assert Value(f, KRentalType) == Value(g, KRentalType);
    assert Value(f, KAmenities) == Value(g, KAmenities);
    assert Value(f, KTargetLat) == Value(g, KTargetLat);
    assert Value(f, KTargetLng) == Value(g, KTargetLng);
    assert Value(f, KRadiusKm) == Value(g, KRadiusKm);
    assert Value(f, KTargetAddress) == Value(g, KTargetAddress);
  }

  /** The changes made one after another, each on the result of the previous one. */
  function ApplyAll(f: ListingFilters, cs: seq<Change>): ListingFilters
    decreases |cs|
  {
    if cs == [] then f else ApplyAll(With(f, cs[0]), cs[1..])
  }

  /** The last change in `cs` to key `k`, or `current` when none touches it. */
  function LastFor(cs: seq<Change>, k: Key, current: Change): Change {
    if cs == [] then current
    else if KeyOf(cs[|cs| - 1]) == k then cs[|cs| - 1]
    else LastFor(cs[..|cs| - 1], k, current)
  }

  /** Composing changes: every key ends with the last value given to it, untouched keys keep theirs. */
  lemma {:induction false} ApplyAllLastWins(f: ListingFilters, cs: seq<Change>, k: Key)
    ensures Value(ApplyAll(f, cs), k) == LastFor(cs, k, Value(f, k))
    decreases |cs|
  {
    if cs != [] {
      ApplyAllLastWins(With(f, cs[0]), cs[1..], k);
      LastForCons(cs, k, Value(f, k));
    }
  }

  /** `LastFor` read from the front: the first change only counts when no later one touches the key. */
  lemma {:induction false} LastForCons(cs: seq<Change>, k: Key, current: Change)
    requires cs != []
    ensures LastFor(cs, k, current) ==
            LastFor(cs[1..], k, if KeyOf(cs[0]) == k then cs[0] else current)
    decreases |cs|
  {
    if |cs| > 1 && KeyOf(cs[|cs| - 1]) != k {
      assert cs[1..][..|cs[1..]| - 1] == cs[..|cs| - 1][1..];
      LastForCons(cs[..|cs| - 1], k, current);
    }
  }

  /**
   * Several `handleFilterChange` calls in one handler: each starts from the
   * render-time record, so the record ends as that record with only the last
   * change applied.
   */
  function Snapshot(f: ListingFilters, cs: seq<Change>): ListingFilters {
    if cs == [] then f else With(f, cs[|cs| - 1])
  }

  /** A handler with at most one change behaves the same either way. */
  lemma SingleChangeAgrees(f: ListingFilters, cs: seq<Change>)
    requires |cs| <= 1
    ensures Snapshot(f, cs) == ApplyAll(f, cs)
  {
    if cs != [] {
      assert cs[1..] == [];
    }
  }

  /** The changes `updateTargetLocation(lat, lng)` asks for: the point, and a 5 km radius when none is set. */
  function TargetChanges(f: ListingFilters, lat: real, lng: real): seq<Change> {
    [TargetLat(Some(lat)), TargetLng(Some(lng))] + (if !Truthy(f.radiusKm) then [RadiusKm(Some(5.0))] else [])
  }

  /** The changes the distance filter's Clear button asks for. */
  const ClearChanges := [TargetLat(None), TargetLng(None), RadiusKm(None), TargetAddress(None)]

  /** A search result the user picked, or the only one there was. */
  datatype SearchResult = SearchResult(displayName: string, lat: real, lng: real)

  /** The changes `applySearchResult` asks for: the address, then the point. */
  function SearchResultChanges(f: ListingFilters, r: SearchResult): seq<Change> {
    [TargetAddress(Some(r.displayName))] + TargetChanges(f, r.lat, r.lng)
  }

  /**
   * As written, placing the pin never sets the latitude: the last change is
   * the longitude or the radius, and the latitude keeps its old value.
   */
  lemma TargetAsWrittenKeepsLatitude(f: ListingFilters, lat: real, lng: real)
    ensures Snapshot(f, TargetChanges(f, lat, lng)).targetLat == f.targetLat
    ensures Snapshot(f, TargetChanges(f, lat, lng)) ==
            if Truthy(f.radiusKm) then f.(targetLng := Some(lng)) else f.(radiusKm := Some(5.0))
  {
  }

  /**
   * Hence from the empty record the distance search can never be switched on
   * from the map, whatever point is chosen.
   */
  lemma TargetAsWrittenNeverActivates(lat: real, lng: real)
    ensures !DistanceActive(Snapshot(NoFilters, TargetChanges(NoFilters, lat, lng)))
    ensures !DistanceActive(Snapshot(NoFilters, SearchResultChanges(NoFilters, SearchResult("", lat, lng))))
  {
    TargetAsWrittenKeepsLatitude(NoFilters, lat, lng);
  }

  /**
   * Composed, placing the pin sets both coordinates, keeps a radius already
   * set or else sets 5 km, so the distance search is on; nothing else changes.
   */
  lemma TargetComposedActivates(f: ListingFilters, lat: real, lng: real)
    ensures var g := ApplyAll(f, TargetChanges(f, lat, lng));
      && g.targetLat == Some(lat) && g.targetLng == Some(lng)
      && g.radiusKm == (if Truthy(f.radiusKm) then f.radiusKm else Some(5.0))
      && DistanceActive(g)
      && g == f.(targetLat := Some(lat), targetLng := Some(lng), radiusKm := g.radiusKm)
  {
    var cs := TargetChanges(f, lat, lng);
    var g := ApplyAll(f, cs);
    var a, b := TargetLat(Some(lat)), TargetLng(Some(lng));
    if Truthy(f.radiusKm) {
      assert cs == [a, b] && cs[1..] == [b] && cs[1..][1..] == [];
      assert g == ApplyAll(With(f, a), [b]);
      assert ApplyAll(With(f, a), [b]) == ApplyAll(With(With(f, a), b), []);
    } else {
      var c := RadiusKm(Some(5.0));
      assert cs == [a, b, c] && cs[1..] == [b, c] && cs[1..][1..] == [c] && cs[1..][1..][1..] == [];
      assert g == ApplyAll(With(f, a), [b, c]);
      assert ApplyAll(With(f, a), [b, c]) == ApplyAll(With(With(f, a), b), [c]);
      assert ApplyAll(With(With(f, a), b), [c]) == ApplyAll(With(With(With(f, a), b), c), []);
    }
  }

  /** As written, Clear only clears the address: a point and radius already set stay set. */
  lemma ClearAsWrittenKeepsPoint(f: ListingFilters)
    ensures Snapshot(f, ClearChanges) == f.(targetAddress := None)
    ensures DistanceActive(f) ==> DistanceActive(Snapshot(f, ClearChanges))
  {
  }

  /**
   * As written, picking a search result does not even record its address in
   * the filter: the address change is overwritten like the latitude.
   */
  lemma SearchResultAsWrittenKeepsAddress(f: ListingFilters, r: SearchResult)
    ensures Snapshot(f, SearchResultChanges(f, r)) == Snapshot(f, TargetChanges(f, r.lat, r.lng))
    ensures Snapshot(f, SearchResultChanges(f, r)).targetAddress == f.targetAddress
    ensures Snapshot(f, SearchResultChanges(f, r)).targetLat == f.targetLat
  {
    TargetAsWrittenKeepsLatitude(f, r.lat, r.lng);
  }

  /**
   * The main map's click and drag handlers are registered once, on the first
   * render, so they always see the empty record: a pin placed there replaces
   * every filter the user chose with a bare 5 km radius, and no point.
   */
  lemma MainMapPinAsWritten(lat: real, lng: real)
    ensures Snapshot(NoFilters, TargetChanges(NoFilters, lat, lng)) == NoFilters.(radiusKm := Some(5.0))
    ensures !DistanceActive(Snapshot(NoFilters, TargetChanges(NoFilters, lat, lng)))
  {
    TargetAsWrittenKeepsLatitude(NoFilters, lat, lng);
  }

  /**
   * A state Clear meets as written: a main-map pin leaves `{radiusKm: 5}`, an
   * expanded-map click then adds only its longitude, and Clear keeps both.
   */
  lemma ClearAsWrittenAfterPins(lat: real, lng: real, lat2: real, lng2: real)
    ensures var pinned := Snapshot(NoFilters, TargetChanges(NoFilters, lat, lng));
      var clicked := Snapshot(pinned, TargetChanges(pinned, lat2, lng2));
      Snapshot(clicked, ClearChanges) == NoFilters.(radiusKm := Some(5.0), targetLng := Some(lng2))
  {
    MainMapPinAsWritten(lat, lng);
  }

  /** The Clear changes give the four location keys no value and leave every other key as it is. */
  lemma ClearLastFor(k: Key, current: Change)
    ensures LastFor(ClearChanges, k, current) ==
            match k
            case KTargetLat => TargetLat(None)
            case KTargetLng => TargetLng(None)
            case KRadiusKm => RadiusKm(None)
            case KTargetAddress => TargetAddress(None)
            case _ => current
  {
    var c3 := [TargetLat(None), TargetLng(None), RadiusKm(None)];
    var c2 := [TargetLat(None), TargetLng(None)];
    var c1 := [TargetLat(None)];
    assert ClearChanges[..3] == c3 && c3[..2] == c2 && c2[..1] == c1 && c1[..0] == [];
    assert LastFor(ClearChanges, k, current) ==
           if k == KTargetAddress then TargetAddress(None) else LastFor(c3, k, current);
    assert LastFor(c3, k, current) == if k == KRadiusKm then RadiusKm(None) else LastFor(c2, k, current);
    assert LastFor(c2, k, current) == if k == KTargetLng then TargetLng(None) else LastFor(c1, k, current);
    assert LastFor(c1, k, current) == if k == KTargetLat then TargetLat(None) else LastFor([], k, current);
  }

  /** Composed, Clear unsets all four location fields and nothing else, so the distance search is off. */
  lemma ClearComposedClears(f: ListingFilters)
    ensures ApplyAll(f, ClearChanges) ==
            f.(targetLat := None, targetLng := None, radiusKm := None, targetAddress := None)
    ensures !DistanceActive(ApplyAll(f, ClearChanges))
  {
    var g := ApplyAll(f, ClearChanges);
    var h := f.(targetLat := None, targetLng := None, radiusKm := None, targetAddress := None);
    forall k ensures Value(g, k) == Value(h, k) {
      ApplyAllLastWins(f, ClearChanges, k);
      ClearLastFor(k, Value(f, k));
    }
    SameValues(g, h);
  }

  /** The four number controls: the two price inputs and the bedroom and bathroom selects. */
  datatype NumberControl = PriceMinInput | PriceMaxInput | BedroomsSelect | BathroomsSelect

  /** The change a number control asks for. */
  function NumberChange(control: NumberControl, v: Option<real>): Change {
    match control
    case PriceMinInput => PriceMin(v)
    case PriceMaxInput => PriceMax(v)
    case BedroomsSelect => Bedrooms(v)
    case BathroomsSelect => Bathrooms(v)
  }

  /** A price, bedroom or bathroom control: the empty text means no filter, anything else its number. */
  function NumericInput(text: string, number: real): (v: Option<real>)
    ensures v.None? <==> text == ""
    ensures v.Some? ==> v.value == number
  {
    if text == "" then None else Some(number)
  }

  /** The radius shown by the label and the controls: 5 km when unset (`?? 5`), a stored 0 shows as 0. */
  function DisplayedRadius(f: ListingFilters): (r: real)
    ensures f.radiusKm.None? ==> r == 5.0
    ensures f.radiusKm.Some? ==> r == f.radiusKm.value
  {
    f.radiusKm.GetOr(5.0)
  }

  /** What the address search service answered: a failure, or a list of places (possibly none). */
  datatype GeocodeOutcome = Unavailable | Places(places: seq<SearchResult>)

  const NoResultsMessage := "No results found for that address."
  const UnavailableMessage := "Unable to geocode that address right now."

  /** The sidebar's state. `reported` is the record the page last received. */
  class Sidebar {
    var filters: ListingFilters
    var reported: ListingFilters
    var addressQuery: string
    var distanceError: string
    var searchResults: seq<SearchResult>
    var isSearching: bool

    /** The page always holds the sidebar's current record. */
    predicate Valid()
      reads this
    {
      reported == filters
    }

    constructor ()
      ensures Valid()
      ensures filters == NoFilters && addressQuery == "" && distanceError == ""
      ensures searchResults == [] && !isSearching
    {
      filters := NoFilters;
      reported := NoFilters;
      addressQuery := "";
      distanceError := "";
      searchResults := [];
      isSearching := false;
    }

    /** `handleFilterChange(key, value)`: the record with that key replaced, also reported to the page. */
    method HandleFilterChange(c: Change)
      requires Valid()
      modifies this
      ensures Valid()
      ensures filters == With(old(filters), c)
      ensures addressQuery == old(addressQuery) && distanceError == old(distanceError)
      ensures searchResults == old(searchResults) && isSearching == old(isSearching)
    {
      ChangeFrom(filters, c);
    }

    /** `handleRentalTypeToggle(type)`: remove every occurrence when present, else append. */
    method ToggleRentalType(t: string)
      requires Valid()
      modifies this
      ensures Valid()
      ensures filters == old(filters).(rentalType := Some(Toggle(old(filters).rentalType.GetOr([]), t)))
      ensures t in filters.rentalType.value <==> t !in old(filters).rentalType.GetOr([])
      ensures addressQuery == old(addressQuery) && distanceError == old(distanceError)
      ensures searchResults == old(searchResults) && isSearching == old(isSearching)
    {
      var current := filters.rentalType.GetOr([]);
      HandleFilterChange(RentalType(Some(Toggle(current, t))));
    }

    /** A number control's `onChange`: an emptied control unsets its key, any other text sets its number. */
    method EditNumber(control: NumberControl, text: string, number: real)
      requires Valid()
      modifies this
      ensures Valid()
      ensures control == PriceMinInput ==> filters == old(filters).(priceMin := NumericInput(text, number))
      ensures control == PriceMaxInput ==> filters == old(filters).(priceMax := NumericInput(text, number))
      ensures control == BedroomsSelect ==> filters == old(filters).(bedrooms := NumericInput(text, number))
      ensures control == BathroomsSelect ==> filters == old(filters).(bathrooms := NumericInput(text, number))
      ensures addressQuery == old(addressQuery) && distanceError == old(distanceError)
      ensures searchResults == old(searchResults) && isSearching == old(isSearching)
    {
      HandleFilterChange(NumberChange(control, NumericInput(text, number)));
    }

    /** `handleAmenityToggle(amenity)`: remove every occurrence when present, else append. */
    method ToggleAmenity(a: string)
      requires Valid()
      modifies this
      ensures Valid()
      ensures filters == old(filters).(amenities := Some(Toggle(old(filters).amenities.GetOr([]), a)))
      ensures a in filters.amenities.value <==> a !in old(filters).amenities.GetOr([])
      ensures addressQuery == old(addressQuery) && distanceError == old(distanceError)
      ensures searchResults == old(searchResults) && isSearching == old(isSearching)
    {
      var current := filters.amenities.GetOr([]);
      HandleFilterChange(Amenities(Some(Toggle(current, a))));
    }

    /**
     * One `handleFilterChange(key, value)` made by a handler created when the
     * record was `seen`: the change is applied to `seen`, whatever the record
     * has become since, and that record is reported to the page.
     */
    method ChangeFrom(seen: ListingFilters, c: Change)
      modifies this
      ensures Valid()
      ensures filters == With(seen, c)
      ensures addressQuery == old(addressQuery) && distanceError == old(distanceError)
      ensures searchResults == old(searchResults) && isSearching == old(isSearching)
    {
      filters := With(seen, c);
      reported := filters;
    }

    /**
     * The effect that copies the filter's address into the search box: a
     * non-empty address that differs from the box replaces the box.
     */
    method SyncAddressQuery()
      requires Valid()
      modifies this
      ensures Valid()
      ensures filters == old(filters)
      ensures old(filters).targetAddress.Some? && old(filters).targetAddress.value != "" ==>
                addressQuery == old(filters).targetAddress.value
      ensures old(filters).targetAddress.None? || old(filters).targetAddress.value == "" ==>
                addressQuery == old(addressQuery)
      ensures distanceError == old(distanceError)
      ensures searchResults == old(searchResults) && isSearching == old(isSearching)
    {
      match filters.targetAddress {
        case Some(a) =>
          if a != "" && a != addressQuery {
            addressQuery := a;
          }
        case None =>
      }
    }

    /**
     * `updateTargetLocation(lat, lng)` run by a handler created when the
     * record was `seen`. Each of its changes starts again from `seen`, so only
     * the last one lands and the latitude keeps the value it had in `seen`.
     */
    method UpdateTargetLocationFrom(seen: ListingFilters, lat: real, lng: real)
      modifies this
      ensures Valid()
      ensures filters == Snapshot(seen, TargetChanges(seen, lat, lng))
      ensures filters.targetLat == seen.targetLat
      ensures addressQuery == old(addressQuery) && distanceError == old(distanceError)
      ensures searchResults == old(searchResults) && isSearching == old(isSearching)
    {
      ChangeFrom(seen, TargetLat(Some(lat)));
      ChangeFrom(seen, TargetLng(Some(lng)));
      if !Truthy(seen.radiusKm) {
        ChangeFrom(seen, RadiusKm(Some(5.0)));
      }
      TargetAsWrittenKeepsLatitude(seen, lat, lng);
    }

    /** `updateTargetLocation(lat, lng)` from a handler that sees the current record. */
    method UpdateTargetLocation(lat: real, lng: real)
      requires Valid()
      modifies this
      ensures Valid()
      ensures filters == Snapshot(old(filters), TargetChanges(old(filters), lat, lng))
      ensures filters.targetLat == old(filters).targetLat
      ensures addressQuery == old(addressQuery) && distanceError == old(distanceError)
      ensures searchResults == old(searchResults) && isSearching == old(isSearching)
    {
      UpdateTargetLocationFrom(filters, lat, lng);
    }

    /**
     * A click or a marker drag on the small map. Its handlers are registered
     * once, on the first render, so they always see the empty record: the
     * user's filters are replaced by a bare 5 km radius.
     */
    method PlacePinOnMainMap(lat: real, lng: real)
      modifies this
      ensures Valid()
      ensures filters == NoFilters.(radiusKm := Some(5.0))
      ensures !DistanceActive(filters)
      ensures addressQuery == old(addressQuery) && distanceError == old(distanceError)
      ensures searchResults == old(searchResults) && isSearching == old(isSearching)
    {
      UpdateTargetLocationFrom(NoFilters, lat, lng);
      MainMapPinAsWritten(lat, lng);
    }

    /**
     * `applySearchResult(result)`: the address change, the search box and
     * the pin, all from the same render, so the filter keeps its old address
     * and latitude and only the pin's last change lands.
     */
    method ApplySearchResult(r: SearchResult)
      requires Valid()
      modifies this
      ensures Valid()
      ensures filters == Snapshot(old(filters), SearchResultChanges(old(filters), r))
      ensures filters.targetAddress == old(filters).targetAddress
      ensures filters.targetLat == old(filters).targetLat
      ensures addressQuery == r.displayName
      ensures distanceError == old(distanceError)
      ensures searchResults == old(searchResults) && isSearching == old(isSearching)
    {
      var seen := filters;
      ChangeFrom(seen, TargetAddress(Some(r.displayName)));
      addressQuery := r.displayName;
      UpdateTargetLocationFrom(seen, r.lat, r.lng);
      SearchResultAsWrittenKeepsAddress(seen, r);
    }

    /**
     * The distance filter's Clear button: four changes from the same render,
     * so only the address is cleared; the search box, error and results are
     * emptied.
     */
    method Clear()
      requires Valid()
      modifies this
      ensures Valid()
      ensures filters == Snapshot(old(filters), ClearChanges)
      ensures filters == old(filters).(targetAddress := None)
      ensures DistanceActive(old(filters)) ==> DistanceActive(filters)
      ensures addressQuery == "" && distanceError == "" && searchResults == []
      ensures isSearching == old(isSearching)
    {
      var seen := filters;
      ChangeFrom(seen, TargetLat(None));
      ChangeFrom(seen, TargetLng(None));
      ChangeFrom(seen, RadiusKm(None));
      ChangeFrom(seen, TargetAddress(None));
      addressQuery := "";
      distanceError := "";
      searchResults := [];
      ClearAsWrittenKeepsPoint(seen);
    }

    /** The corrected `updateTargetLocation`: its changes applied one after another. */
    method UpdateTargetLocationComposed(lat: real, lng: real)
      requires Valid()
      modifies this
      ensures Valid()
      ensures filters == ApplyAll(old(filters), TargetChanges(old(filters), lat, lng))
      ensures DistanceActive(filters)
      ensures addressQuery == old(addressQuery) && distanceError == old(distanceError)
      ensures searchResults == old(searchResults) && isSearching == old(isSearching)
    {
      TargetComposedActivates(filters, lat, lng);
      filters := ApplyAll(filters, TargetChanges(filters, lat, lng));
      reported := filters;
    }

    /** The corrected `applySearchResult`: the address and the pin both land. */
    method ApplySearchResultComposed(r: SearchResult)
      requires Valid()
      modifies this
      ensures Valid()
      ensures filters == ApplyAll(old(filters), SearchResultChanges(old(filters), r))
      ensures filters.targetAddress == Some(r.displayName) && DistanceActive(filters)
      ensures addressQuery == r.displayName
      ensures distanceError == old(distanceError)
      ensures searchResults == old(searchResults) && isSearching == old(isSearching)
    {
      var cs := SearchResultChanges(filters, r);
      var g := With(filters, cs[0]);
      TargetComposedActivates(g, r.lat, r.lng);
      assert cs[1..] == TargetChanges(g, r.lat, r.lng);
      filters := ApplyAll(filters, cs);
      reported := filters;
      addressQuery := r.displayName;
    }

    /** The corrected Clear button: the location filter and the search box are emptied. */
    method ClearComposed()
      requires Valid()
      modifies this
      ensures Valid()
      ensures filters == old(filters).(targetLat := None, targetLng := None, radiusKm := None, targetAddress := None)
      ensures !DistanceActive(filters)
      ensures addressQuery == "" && distanceError == "" && searchResults == []
      ensures isSearching == old(isSearching)
    {
      ClearComposedClears(filters);
      filters := ApplyAll(filters, ClearChanges);
      reported := filters;
      addressQuery := "";
      distanceError := "";
      searchResults := [];
    }

    /**
     * `geocodeAddress`: nothing happens for a blank query. Otherwise the
     * answer is shown: an error when the service failed or found nothing,
     * else the places, and a single place is applied at once.
     */
    method GeocodeAddress(answer: GeocodeOutcome)
      requires Valid()
      modifies this
      ensures Valid()
      ensures Trim(old(addressQuery)) == [] ==>
                filters == old(filters) && addressQuery == old(addressQuery) &&
                distanceError == old(distanceError) && searchResults == old(searchResults) &&
                isSearching == old(isSearching)
      ensures Trim(old(addressQuery)) != [] ==> !isSearching
      ensures Trim(old(addressQuery)) != [] && answer.Unavailable? ==>
                distanceError == UnavailableMessage && searchResults == [] && filters == old(filters)
      ensures Trim(old(addressQuery)) != [] && answer == Places([]) ==>
                distanceError == NoResultsMessage && searchResults == [] && filters == old(filters)
      ensures Trim(old(addressQuery)) != [] && answer.Places? && |answer.places| > 1 ==>
                distanceError == "" && searchResults == answer.places && filters == old(filters)
      ensures Trim(old(addressQuery)) != [] && !(answer.Places? && |answer.places| == 1) ==>
                addressQuery == old(addressQuery)
      ensures Trim(old(addressQuery)) != [] && answer.Places? && |answer.places| == 1 ==>
                && distanceError == "" && searchResults == answer.places
                && filters == Snapshot(old(filters), SearchResultChanges(old(filters), answer.places[0]))
                && addressQuery == answer.places[0].displayName
    {
      if Trim(addressQuery) == [] {
        return;
      }
      distanceError := "";
      searchResults := [];
      isSearching := true;
      match answer {
        case Unavailable =>
          distanceError := UnavailableMessage;
        case Places(places) =>
          if |places| == 0 {
            distanceError := NoResultsMessage;
          } else {
            searchResults := places;
            if |places| == 1 {
              ApplySearchResult(places[0]);
            }
          }
      }
      isSearching := false;
    }
  }
}
