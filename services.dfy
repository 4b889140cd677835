/**
 * The data-access layer of the web client: the listing search query, and
 * the create, join, leave and update operations on the four tables, which
 * are held in memory here. The signed-in user is a field; identifiers and
 * timestamps the database assigns are parameters.
 */
module Services {
  import opened Common
  import opened Database

  /** The error every operation that needs a signed-in user throws without one. */
  const NotAuthenticated := "Not authenticated"

  /** The error `.single()` raises when the filtered update touched no row. */
  const NoSuchRow := "Cannot coerce the result to a single JSON object"

  /** One condition the listing query builder adds. */
  datatype Condition =
    | PriceAtLeast(min: real)              // `.gte('price', min)`
    | PriceAtMost(max: real)               // `.lte('price', max)`
    | BedroomsAre(bedrooms: real)          // `.eq('bedrooms', n)`
    | BathroomsAre(bathrooms: real)        // `.eq('bathrooms', n)`
    | OnCampusIs(onCampus: bool)           // `.eq('is_on_campus', b)`
    | GenderIs(gender: GenderPreference)   // `.eq('gender_preference', g)`
    | RentalTypeIn(types: seq<string>)     // `.in('rental_type', types)`
    | AmenitiesContain(wanted: seq<string>) // `.contains('amenities', wanted)`

  /** Postgres `@>` on arrays: every wanted element occurs in `have`. */
  predicate ContainsAll(have: seq<string>, wanted: seq<string>) {
    forall a :: a in wanted ==> a in have
  }

  predicate Holds(c: Condition, l: Listing) {
    var d := l.details;
    match c
    case PriceAtLeast(min) => d.price >= min
    case PriceAtMost(max) => d.price <= max
    case BedroomsAre(n) => d.bedrooms == n
    case BathroomsAre(n) => d.bathrooms == n
    case OnCampusIs(b) => d.isOnCampus == b
    case GenderIs(g) => d.genderPreference == g
    case RentalTypeIn(types) => RentalTypeName(d.rentalType) in types
    case AmenitiesContain(wanted) => ContainsAll(d.amenities, wanted)
  }

  /** A row passes the query when it satisfies every condition added. */
  predicate HoldsAll(query: seq<Condition>, l: Listing) {
    forall i :: 0 <= i < |query| ==> Holds(query[i], l)
  }

  /**
   * What a search with filters `f` asks of a listing: an undefined field asks
   * nothing, price bounds are inclusive, counts and the campus flag must be
   * equal, the gender preference counts unless it is `any`, and empty type or
   * amenity lists ask nothing. The location fields play no part here.
   */
  predicate Matches(f: ListingFilters, l: Listing) {
    var d := l.details;
    && BasicsMatch(f, l)
    && (f.genderPreference.Some? && f.genderPreference.value != AnyGender ==>
          d.genderPreference == f.genderPreference.value)
    && (f.rentalType.Some? && |f.rentalType.value| > 0 ==> RentalTypeName(d.rentalType) in f.rentalType.value)
    && (f.amenities.Some? && |f.amenities.value| > 0 ==>
          ContainsAll(d.amenities, f.amenities.value))
  }

  /** The part of `Matches` about price, rooms and campus. */
  predicate BasicsMatch(f: ListingFilters, l: Listing) {
    var d := l.details;
    && (f.priceMin.Some? ==> d.price >= f.priceMin.value)
    && (f.priceMax.Some? ==> d.price <= f.priceMax.value)
    && (f.bedrooms.Some? ==> d.bedrooms == f.bedrooms.value)
    && (f.bathrooms.Some? ==> d.bathrooms == f.bathrooms.value)
    && (f.isOnCampus.Some? ==> d.isOnCampus == f.isOnCampus.value)
  }

  /** `Matches` as the row test a filter applies. */
  function Wanted(f: ListingFilters): Listing -> bool {
    l => Matches(f, l)
  }

  /** Adding one condition to a query narrows it by exactly that condition. */
  lemma HoldsAllSnoc(query: seq<Condition>, c: Condition, l: Listing)
    ensures HoldsAll(query + [c], l) <==> HoldsAll(query, l) && Holds(c, l)
  {
    if HoldsAll(query, l) && Holds(c, l) {
      forall i | 0 <= i < |query + [c]| ensures Holds((query + [c])[i], l) {
        if i < |query| {
          assert (query + [c])[i] == query[i];
        }
      }
    }
    if HoldsAll(query + [c], l) {
      forall i | 0 <= i < |query| ensures Holds(query[i], l) {
        assert (query + [c])[i] == query[i];
      }
      assert (query + [c])[|query|] == c;
    }
  }

  /** `if (set) query = query.<condition>`: the query narrowed by `c` exactly when the filter field is `given`. */
  method Narrow(query: seq<Condition>, given: bool, c: Condition) returns (r: seq<Condition>)
    ensures |r| <= |query| + 1
    ensures forall l :: HoldsAll(r, l) <==> HoldsAll(query, l) && (given ==> Holds(c, l))
  {
    r := query;
    if given {
      r := r + [c];
      forall l ensures HoldsAll(r, l) <==> HoldsAll(query, l) && Holds(c, l) {
        HoldsAllSnoc(query, c, l);
      }
    }
  }

  /** The first five steps of `getListings`' query building: price, rooms and campus. */
  method BasicsQuery(f: ListingFilters) returns (query: seq<Condition>)
    ensures forall l :: HoldsAll(query, l) <==> BasicsMatch(f, l)
    ensures |query| <= 5
  {
    var q0: seq<Condition> := [];
    var q1 := Narrow(q0, f.priceMin.Some?, PriceAtLeast(f.priceMin.GetOr(0.0)));
    var q2 := Narrow(q1, f.priceMax.Some?, PriceAtMost(f.priceMax.GetOr(0.0)));
    var q3 := Narrow(q2, f.bedrooms.Some?, BedroomsAre(f.bedrooms.GetOr(0.0)));
    var q4 := Narrow(q3, f.bathrooms.Some?, BathroomsAre(f.bathrooms.GetOr(0.0)));
    query := Narrow(q4, f.isOnCampus.Some?, OnCampusIs(f.isOnCampus.GetOr(false)));
    forall l ensures HoldsAll(query, l) <==> BasicsMatch(f, l) {
      assert HoldsAll(q0, l);
    }
  }

  /**
   * `getListings`' query building: one condition per filter that is set, in
   * the source's order. The query a row passes is exactly the filter's meaning.
   */
  method BuildQuery(f: ListingFilters) returns (query: seq<Condition>)
    ensures forall l :: HoldsAll(query, l) <==> Matches(f, l)
    ensures |query| <= 8
  {
    var q5 := BasicsQuery(f);
    var q6 := Narrow(q5, f.genderPreference.Some? && f.genderPreference.value != AnyGender,
                     GenderIs(f.genderPreference.GetOr(AnyGender)));
    var q7 := Narrow(q6, f.rentalType.Some? && |f.rentalType.value| > 0, RentalTypeIn(f.rentalType.GetOr([])));
    query := Narrow(q7, f.amenities.Some? && |f.amenities.value| > 0, AmenitiesContain(f.amenities.GetOr([])));
  }

  /** With no filter set every listing matches, and the location fields never change the outcome. */
  lemma MatchesIgnoresLocation(f: ListingFilters, l: Listing, lat: Option<real>, lng: Option<real>,
                               radius: Option<real>, address: Option<string>)
    ensures Matches(NoFilters, l)
    ensures Matches(f.(targetLat := lat, targetLng := lng, radiusKm := radius, targetAddress := address), l) ==
            Matches(f, l)
  {
  }

  function ListingCreated(l: Listing): int { l.createdAt }

  /** `order('created_at', { ascending: false })` on listings: newest first. */
  predicate NewestFirst(rows: seq<Listing>) {
    Descending(ListingCreated, rows)
  }

  /** The listings in newest-first order: the same rows, each as often as before. */
  function SortNewestFirst(rows: seq<Listing>): (r: seq<Listing>)
    ensures NewestFirst(r)
    ensures multiset(r) == multiset(rows)
  {
    SortDescending(ListingCreated, rows)
  }

  /** Two filters that agree on every element keep the same elements. */
  lemma {:induction false} FilterAgrees<T(!new)>(p: T -> bool, q: T -> bool, xs: seq<T>)
    requires forall x :: p(x) == q(x)
    ensures Filter(p, xs) == Filter(q, xs)
  {
    if xs != [] {
      FilterAgrees(p, q, xs[1..]);
    }
  }

  /** The profiles table after `update({ group_id })` on the row with id `uid`; no row, no change. */
  function SetGroup(profiles: map<string, Profile>, uid: string, groupId: Option<string>): map<string, Profile> {
    if uid in profiles then profiles[uid := profiles[uid].(groupId := groupId)] else profiles
  }

  /** The ids of the profiles whose `group_id` is `g`. */
  function MemberIds(profiles: map<string, Profile>, g: string): set<string> {
    set id | id in profiles && profiles[id].groupId == Some(g)
  }

  /** Joining moves exactly the one user into the group and out of every other. */
  lemma MembersAfterJoin(profiles: map<string, Profile>, uid: string, g: string, h: string)
    requires uid in profiles
    ensures MemberIds(SetGroup(profiles, uid, Some(g)), h) ==
            if h == g then MemberIds(profiles, h) + {uid} else MemberIds(profiles, h) - {uid}
  {
  }

  /** Leaving takes exactly the one user out of its group. */
  lemma MembersAfterLeave(profiles: map<string, Profile>, uid: string, h: string)
    ensures MemberIds(SetGroup(profiles, uid, None), h) == MemberIds(profiles, h) - {uid}
  {
  }

  /** A profile belongs to at most one group. */
  lemma MemberOfOneGroup(profiles: map<string, Profile>, uid: string, g: string, h: string)
    requires uid in MemberIds(profiles, g) && uid in MemberIds(profiles, h)
    ensures g == h
  {
  }

  /** `.eq('landlord_id', uid)`. */
  function OwnedBy(uid: string): Listing -> bool {
    (l: Listing) => l.landlordId == uid
  }

  /** Position of the row with id `id`, or `|rows|` when there is none. */
  function IndexOf(rows: seq<Listing>, id: string): (i: nat)
    ensures i <= |rows|
    ensures i < |rows| ==> rows[i].id == id
    ensures forall k :: 0 <= k < i ==> rows[k].id != id
  {
    if rows == [] then 0
    else if rows[0].id == id then 0
    else 1 + IndexOf(rows[1..], id)
  }

  predicate UniqueIds(rows: seq<Listing>) {
    forall i, j :: 0 <= i < j < |rows| ==> rows[i].id != rows[j].id
  }

  function ApplicationCreated(a: Application): int { a.createdAt }

  /** The listing with id `listingId` exists and belongs to `uid`. */
  predicate ListingOwnedBy(rows: seq<Listing>, listingId: string, uid: string) {
    exists i :: 0 <= i < |rows| && rows[i].id == listingId && rows[i].landlordId == uid
  }

  /** The four tables and the signed-in user. */
  class Backend {
    var currentUser: Option<string>
    var profiles: map<string, Profile>
    var groups: map<string, Group>
    var listings: seq<Listing>
    var applications: map<string, Application>

    /** Every row is stored under its own id. */
    predicate Valid()
      reads this
    {
      && (forall id :: id in profiles ==> profiles[id].id == id)
      && (forall id :: id in groups ==> groups[id].id == id)
      && (forall id :: id in applications ==> applications[id].id == id)
      && UniqueIds(listings)
    }

    constructor (user: Option<string>)
      ensures Valid()
      ensures currentUser == user
      ensures profiles == map[] && groups == map[] && listings == [] && applications == map[]
    {
      currentUser := user;
      profiles := map[];
      groups := map[];
      listings := [];
      applications := map[];
    }

    /**
     * `listingService.getListings`: the listings that match the filters,
     * each exactly once, newest first.
     */
    method GetListings(f: ListingFilters) returns (r: seq<Listing>)
      ensures NewestFirst(r)
      ensures multiset(r) == multiset(Filter(Wanted(f), listings))
      ensures forall l :: l in r <==> l in listings && Matches(f, l)
    {
      var query := BuildQuery(f);
      FilterAgrees(l => HoldsAll(query, l), Wanted(f), listings);
      var matching := Filter(Wanted(f), listings);
      r := SortNewestFirst(Filter(l => HoldsAll(query, l), listings));
      forall l ensures l in r <==> l in listings && Matches(f, l) {
        calc {
          l in r;
          l in multiset(r);
          l in multiset(matching);
          l in matching;
        }
      }
    }

    /** `listingService.getLandlordListings`: the signed-in landlord's own listings, newest first. */
    method GetLandlordListings() returns (r: Result<seq<Listing>>)
      ensures currentUser.None? <==> r == Err(NotAuthenticated)
      ensures currentUser.Some? ==>
                r.Ok? && NewestFirst(r.value) &&
                multiset(r.value) == multiset(Filter(OwnedBy(currentUser.value), listings))
    {
      if currentUser.None? {
        return Err(NotAuthenticated);
      }
      var uid := currentUser.value;
      r := Ok(SortNewestFirst(Filter(OwnedBy(uid), listings)));
    }

    /** `listingService.createListing`: the new row belongs to the signed-in user. */
    method CreateListing(details: ListingDetails, isVerified: bool, newId: string, now: int)
      returns (r: Result<Listing>)
      requires Valid()
      requires forall i :: 0 <= i < |listings| ==> listings[i].id != newId
      modifies this
      ensures Valid()
      ensures currentUser == old(currentUser) && profiles == old(profiles)
      ensures groups == old(groups) && applications == old(applications)
      ensures currentUser.None? ==> r == Err(NotAuthenticated) && listings == old(listings)
      ensures currentUser.Some? ==>
                && r == Ok(Listing(newId, currentUser.value, details, isVerified, now, now))
                && listings == old(listings) + [r.value]
    {
      if currentUser.None? {
        return Err(NotAuthenticated);
      }
      var row := Listing(newId, currentUser.value, details, isVerified, now, now);
      listings := listings + [row];
      r := Ok(row);
    }

    /** `listingService.updateListing`: replaces the submitted fields of the one row with that id. */
    method UpdateListing(listingId: string, details: ListingDetails) returns (r: Result<Listing>)
      requires Valid()
      modifies this
      ensures Valid()
      ensures currentUser == old(currentUser) && profiles == old(profiles)
      ensures groups == old(groups) && applications == old(applications)
      ensures |listings| == |old(listings)|
      ensures (forall i :: 0 <= i < |listings| ==> old(listings)[i].id != listingId) ==>
                r == Err(NoSuchRow) && listings == old(listings)
      ensures (exists i :: 0 <= i < |old(listings)| && old(listings)[i].id == listingId) ==> r.Ok?
      ensures r.Err? ==> r.error == NoSuchRow && listings == old(listings)
      ensures r.Ok? ==>
                exists i :: 0 <= i < |listings| && old(listings)[i].id == listingId &&
                  r.value == old(listings)[i].(details := details) &&
                  listings == old(listings)[i := r.value]
    {
      var i := IndexOf(listings, listingId);
      if i == |listings| {
        return Err(NoSuchRow);
      }
      var row := listings[i].(details := details);
      listings := listings[i := row];
      r := Ok(row);
    }

    /**
     * `groupService.createGroup`: inserts the group with the signed-in user as
     * its creator, then points that user's profile at it.
     */
    method CreateGroup(name: string, newId: string, now: int) returns (r: Result<Group>)
      requires Valid() && newId !in groups
      modifies this
      ensures Valid()
      ensures currentUser == old(currentUser) && listings == old(listings) && applications == old(applications)
      ensures currentUser.None? ==>
                r == Err(NotAuthenticated) && groups == old(groups) && profiles == old(profiles)
      ensures currentUser.Some? ==>
                && r == Ok(Group(newId, name, currentUser.value, now))
                && groups == old(groups)[newId := r.value]
                && profiles == SetGroup(old(profiles), currentUser.value, Some(newId))
    {
      if currentUser.None? {
        return Err(NotAuthenticated);
      }
      var uid := currentUser.value;
      var group := Group(newId, name, uid, now);
      groups := groups[newId := group];
      profiles := SetGroup(profiles, uid, Some(newId));
      r := Ok(group);
    }

    /** `groupService.joinGroup`: the signed-in user's `group_id` becomes `groupId`, nothing else changes. */
    method JoinGroup(groupId: string) returns (r: Result<()>)
      requires Valid()
      modifies this
      ensures Valid()
      ensures currentUser == old(currentUser) && groups == old(groups)
      ensures listings == old(listings) && applications == old(applications)
      ensures currentUser.None? ==> r == Err(NotAuthenticated) && profiles == old(profiles)
      ensures currentUser.Some? ==> r == Ok(()) && profiles == SetGroup(old(profiles), currentUser.value, Some(groupId))
    {
      if currentUser.None? {
        return Err(NotAuthenticated);
      }
      profiles := SetGroup(profiles, currentUser.value, Some(groupId));
      r := Ok(());
    }

    /** `groupService.leaveGroup`: the signed-in user's `group_id` becomes null, nothing else changes. */
    method LeaveGroup() returns (r: Result<()>)
      requires Valid()
      modifies this
      ensures Valid()
      ensures currentUser == old(currentUser) && groups == old(groups)
      ensures listings == old(listings) && applications == old(applications)
      ensures currentUser.None? ==> r == Err(NotAuthenticated) && profiles == old(profiles)
      ensures currentUser.Some? ==> r == Ok(()) && profiles == SetGroup(old(profiles), currentUser.value, None)
    {
      if currentUser.None? {
        return Err(NotAuthenticated);
      }
      profiles := SetGroup(profiles, currentUser.value, None);
      r := Ok(());
    }

    /** `groupService.getGroupMembers`: the profiles whose `group_id` is `groupId`. */
    method GetGroupMembers(groupId: string) returns (r: set<Profile>)
      requires Valid()
      ensures forall p :: p in r <==> p.id in MemberIds(profiles, groupId) && profiles[p.id] == p
    {
      r := set id | id in MemberIds(profiles, groupId) :: profiles[id];
    }

    /**
     * `applicationService.createApplication`: a pending application by the
     * signed-in user for the listing, with the group (or none) and message given.
     */
    method CreateApplication(listingId: string, groupId: Option<string>, message: string, newId: string, now: int)
      returns (r: Result<Application>)
      requires Valid() && newId !in applications
      modifies this
      ensures Valid()
      ensures currentUser == old(currentUser) && profiles == old(profiles)
      ensures groups == old(groups) && listings == old(listings)
      ensures currentUser.None? ==> r == Err(NotAuthenticated) && applications == old(applications)
      ensures currentUser.Some? ==>
                && r == Ok(Application(newId, listingId, currentUser.value, groupId, Pending, message, now, now))
                && applications == old(applications)[newId := r.value]
    {
      if currentUser.None? {
        return Err(NotAuthenticated);
      }
      var app := Application(newId, listingId, currentUser.value, groupId, Pending, message, now, now);
      applications := applications[newId := app];
      r := Ok(app);
    }

    /**
     * `applicationService.getApplicationsForLandlord`: the applications to
     * the signed-in landlord's listings, each once, newest first.
     */
    method GetApplicationsForLandlord() returns (r: Result<seq<Application>>)
      requires Valid()
      ensures currentUser.None? <==> r == Err(NotAuthenticated)
      ensures currentUser.Some? ==>
                && r.Ok? && Descending(ApplicationCreated, r.value)
                && (forall a :: a in r.value <==>
                      a in applications.Values && ListingOwnedBy(listings, a.listingId, currentUser.value))
                && (forall i, j :: 0 <= i < j < |r.value| ==> r.value[i].id != r.value[j].id)
    {
      if currentUser.None? {
        return Err(NotAuthenticated);
      }
      var uid := currentUser.value;
      var matching := set a | a in applications.Values && ListingOwnedBy(listings, a.listingId, uid);
      var out := SortSet(ApplicationCreated, matching);
      SortedSetDistinct(out, matching);
      forall i, j | 0 <= i < j < |out|
        ensures out[i].id != out[j].id
      {
        assert out[i] in matching && out[j] in matching;
        var ki :| ki in applications && applications[ki] == out[i];
        var kj :| kj in applications && applications[kj] == out[j];
      }
      r := Ok(out);
    }

    /** `applicationService.updateApplicationStatus`: only that application's status changes. */
    method UpdateApplicationStatus(applicationId: string, status: ApplicationStatus) returns (r: Result<Application>)
      requires Valid()
      modifies this
      ensures Valid()
      ensures currentUser == old(currentUser) && profiles == old(profiles)
      ensures groups == old(groups) && listings == old(listings)
      ensures applicationId !in old(applications) ==> r == Err(NoSuchRow) && applications == old(applications)
      ensures applicationId in old(applications) ==>
                && r == Ok(old(applications)[applicationId].(status := status))
                && applications == old(applications)[applicationId := r.value]
    {
      if applicationId !in applications {
        return Err(NoSuchRow);
      }
      var app := applications[applicationId].(status := status);
      applications := applications[applicationId := app];
      r := Ok(app);
    }
  }
}
