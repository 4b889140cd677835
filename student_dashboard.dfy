/**
 * The student page: it fetches the listings that match the current filters
 * and, when a distance search is on, keeps those whose address lies within
 * the radius of the target point. Addresses are located by a geocoding
 * service through a cache; the service and the distance between two points
 * are functions given to the model.
 */
module StudentDashboard {
  import opened Common
  import opened Database
  import opened Services

  datatype Coords = Coords(lat: real, lng: real)

  /** What the geocoding service answers for an address: its first place, or nothing. */
  type Geocoder = string -> Option<Coords>

  /** The distance in kilometres between two points given as latitude and longitude. */
  type Distance = (real, real, real, real) -> real

  /**
   * Whether a fetched listing stays on the page: with the distance search on,
   * exactly when its address is found and lies within the radius (inclusive).
   */
  predicate Near(f: ListingFilters, geocoder: Geocoder, distance: Distance, l: Listing) {
    DistanceActive(f) ==>
      var c := geocoder(l.details.address);
      c.Some? && distance(f.targetLat.value, f.targetLng.value, c.value.lat, c.value.lng) <= f.radiusKm.value
  }

  function NearTo(f: ListingFilters, geocoder: Geocoder, distance: Distance): Listing -> bool {
    l => Near(f, geocoder, distance, l)
  }

  /** The address cache: only places the service found are remembered. */
  class GeocodeCache {
    var entries: map<string, Coords>

    /** Every remembered place is what the service answers for that address. */
    predicate Agrees(geocoder: Geocoder)
      reads this
    {
      forall a :: a in entries ==> geocoder(a) == Some(entries[a])
    }

    constructor ()
      ensures entries == map[]
    {
      entries := map[];
    }

    /**
     * `geocodeAddress(address)`: a remembered address is answered from the
     * cache without asking the service; otherwise the service is asked and a
     * place it finds is remembered, while a miss leaves the cache as it was.
     */
    method Lookup(address: string, geocoder: Geocoder) returns (r: Option<Coords>, queried: bool)
      modifies this
      ensures address in old(entries) ==>
                !queried && r == Some(old(entries)[address]) && entries == old(entries)
      ensures address !in old(entries) ==>
                && queried && r == geocoder(address)
                && entries == if r.Some? then old(entries)[address := r.value] else old(entries)
      ensures old(Agrees(geocoder)) ==> Agrees(geocoder) && r == geocoder(address)
    {
      if address in entries {
        return Some(entries[address]), false;
      }
      r := geocoder(address);
      queried := true;
      if r.Some? {
        entries := entries[address := r.value];
      }
    }
  }

  /** One listing of the distance step: its address is looked up, and it is kept when it is near. */
  method KeepIfNear(kept: seq<Listing>, l: Listing, f: ListingFilters, cache: GeocodeCache, geocoder: Geocoder,
                    distance: Distance) returns (kept': seq<Listing>)
    requires DistanceActive(f) && cache.Agrees(geocoder)
    modifies cache
    ensures cache.Agrees(geocoder)
    ensures kept' == kept + if Near(f, geocoder, distance, l) then [l] else []
  {
    var coords, _ := cache.Lookup(l.details.address, geocoder);
    if coords.Some? && distance(f.targetLat.value, f.targetLng.value, coords.value.lat, coords.value.lng) <= f.radiusKm.value {
      kept' := kept + [l];
    } else {
      kept' := kept;
    }
  }

  /**
   * The distance step of `loadListings`: each fetched listing's address is
   * looked up through the cache, and the listing is kept when it is near.
   */
  method KeepNear(fetched: seq<Listing>, f: ListingFilters, cache: GeocodeCache, geocoder: Geocoder,
                  distance: Distance) returns (kept: seq<Listing>)
    requires DistanceActive(f) && cache.Agrees(geocoder)
    modifies cache
    ensures cache.Agrees(geocoder)
    ensures kept == Filter(NearTo(f, geocoder, distance), fetched)
  {
    kept := [];
    var i := 0;
    while i < |fetched|
      invariant 0 <= i <= |fetched|
      invariant kept == Filter(NearTo(f, geocoder, distance), fetched[..i])
      invariant cache.Agrees(geocoder)
    {
      kept := KeepIfNear(kept, fetched[i], f, cache, geocoder, distance);
      FilterPrefixStep(NearTo(f, geocoder, distance), fetched, i);
      i := i + 1;
    }
    assert fetched[..i] == fetched;
  }

  /** The page's state; the geocoding service is fixed for its lifetime. */
  class Dashboard {
    var filters: ListingFilters
    var listings: seq<Listing>
    var loading: bool
    const cache: GeocodeCache
    const geocoder: Geocoder

    /** The cache never disagrees with the service. */
    predicate Valid()
      reads this, cache
    {
      cache.Agrees(geocoder)
    }

    constructor (geocoder: Geocoder)
      ensures Valid() && fresh(cache)
      ensures filters == NoFilters && listings == [] && loading
      ensures this.geocoder == geocoder
    {
      this.geocoder := geocoder;
      filters := NoFilters;
      listings := [];
      loading := true;
      cache := new GeocodeCache();
    }

    /**
     * `loadListings`: the matching listings, newest first, narrowed to those
     * near the target point when the distance search is on. The lookups run
     * one after another here.
     */
    method LoadListings(backend: Backend, distance: Distance) returns (fetched: seq<Listing>)
      requires Valid()
      modifies this, cache
      ensures Valid()
      ensures filters == old(filters) && !loading
      ensures NewestFirst(fetched)
      ensures multiset(fetched) == multiset(Filter(Wanted(filters), backend.listings))
      ensures !DistanceActive(filters) ==> listings == fetched
      ensures DistanceActive(filters) ==> listings == Filter(NearTo(filters, geocoder, distance), fetched)
      ensures IsSubsequence(listings, fetched)
    {
      loading := true;
      var f := filters;
      var c := cache;
      var g := geocoder;
      fetched := backend.GetListings(f);
      var near := NearTo(f, g, distance);
      if !DistanceActive(f) {
        listings := fetched;
        SubsequenceReflexive(fetched);
      } else {
        listings := KeepNear(fetched, f, c, g, distance);
        FilterIsSubsequence(near, fetched);
      }
      loading := false;
    }

    /** The sidebar reported new filters: they are stored and the listings reloaded. */
    method OnFilterChange(f: ListingFilters, backend: Backend, distance: Distance) returns (fetched: seq<Listing>)
      requires Valid()
      modifies this, cache
      ensures Valid()
      ensures filters == f && !loading
      ensures multiset(fetched) == multiset(Filter(Wanted(f), backend.listings))
      ensures !DistanceActive(f) ==> listings == fetched
      ensures DistanceActive(f) ==> listings == Filter(NearTo(f, geocoder, distance), fetched)
    {
      filters := f;
      fetched := LoadListings(backend, distance);
    }
  }
}
