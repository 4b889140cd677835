/**
 * The landlord's page: three tabs, each backed by one query, the
 * accept/reject buttons on applications, and the reloads that follow an
 * update or an uploaded listing.
 */
module LandlordDashboard {
  import opened Common
  import opened Database
  import opened Services

  datatype Tab = ApplicationsTab | CompareTab | MyListingsTab

  /** The three queries the page runs. */
  datatype Loader = LoadApplications | LoadListings | LoadMyListings

  /** The query a tab shows the result of. */
  function LoaderFor(tab: Tab): Loader {
    match tab
    case ApplicationsTab => LoadApplications
    case CompareTab => LoadListings
    case MyListingsTab => LoadMyListings
  }

  /** The tab whose query is `l`. */
  function TabFor(l: Loader): Tab {
    match l
    case LoadApplications => ApplicationsTab
    case LoadListings => CompareTab
    case LoadMyListings => MyListingsTab
  }

  /** Each query belongs to exactly one tab: no two tabs run the same one, and none is unused. */
  lemma LoaderForOneToOne(t: Tab, l: Loader)
    ensures TabFor(LoaderFor(t)) == t
    ensures LoaderFor(TabFor(l)) == l
  {
  }

  /** What an application's row shows: the two buttons, or a badge. */
  datatype StatusView = Buttons | Badge(caption: string)

  /** Accept and Reject are offered while the application is pending; after that, its outcome. */
  function ViewOf(status: ApplicationStatus): (v: StatusView)
    ensures v.Buttons? <==> status == Pending
    ensures v.Badge? ==> (v.caption == "Accepted" <==> status == Accepted)
    ensures v.Badge? ==> (v.caption == "Rejected" <==> status == Rejected)
  {
    if status == Pending then Buttons
    else Badge(if status == Accepted then "Accepted" else "Rejected")
  }

  /** `apps` is what the landlord query returns: the applications to the user's listings, newest first. */
  ghost predicate ShowsApplicationsOf(backend: Backend, apps: seq<Application>)
    reads backend
  {
    && backend.currentUser.Some?
    && Descending(ApplicationCreated, apps)
    && (forall i, j :: 0 <= i < j < |apps| ==> apps[i].id != apps[j].id)
    && forall a :: a in apps <==>
         a in backend.applications.Values && ListingOwnedBy(backend.listings, a.listingId, backend.currentUser.value)
  }

  /** `rows` is what the filtered search returns: the matching listings, newest first. */
  predicate ShowsMatching(backend: Backend, f: ListingFilters, rows: seq<Listing>)
    reads backend
  {
    NewestFirst(rows) && multiset(rows) == multiset(Filter(Wanted(f), backend.listings))
  }

  /** `rows` is what the own-listings query returns: the user's listings, newest first. */
  predicate ShowsOwn(backend: Backend, rows: seq<Listing>)
    reads backend
  {
    && backend.currentUser.Some?
    && NewestFirst(rows)
    && multiset(rows) == multiset(Filter(OwnedBy(backend.currentUser.value), backend.listings))
  }

  class Dashboard {
    var activeTab: Tab
    var filters: ListingFilters
    var listings: seq<Listing>
    var myListings: seq<Listing>
    var applications: seq<Application>
    var loading: bool
    var showUploadModal: bool

    /** The page as first rendered, before its effect runs. */
    constructor ()
      ensures activeTab == ApplicationsTab && filters == NoFilters
      ensures listings == [] && myListings == [] && applications == []
      ensures loading && !showUploadModal
    {
      activeTab := ApplicationsTab;
      filters := NoFilters;
      listings := [];
      myListings := [];
      applications := [];
      loading := true;
      showUploadModal := false;
    }

    /** `loadApplications`: a failed query is only logged. */
    method LoadApplicationsNow(backend: Backend)
      requires backend.Valid()
      modifies this
      ensures !loading
      ensures backend.currentUser.Some? ==> ShowsApplicationsOf(backend, applications)
      ensures backend.currentUser.None? ==> applications == old(applications)
      ensures activeTab == old(activeTab) && filters == old(filters) && showUploadModal == old(showUploadModal)
      ensures listings == old(listings) && myListings == old(myListings)
    {
      loading := true;
      var r := backend.GetApplicationsForLandlord();
      if r.Ok? {
        applications := r.value;
      }
      loading := false;
    }

    /** `loadListings`: the search with the current filters. */
    method LoadListingsNow(backend: Backend)
      modifies this
      ensures !loading && ShowsMatching(backend, filters, listings)
      ensures activeTab == old(activeTab) && filters == old(filters) && showUploadModal == old(showUploadModal)
      ensures myListings == old(myListings) && applications == old(applications)
    {
      loading := true;
      listings := backend.GetListings(filters);
      loading := false;
    }

    /** `loadMyListings`: a failed query is only logged. */
    method LoadMyListingsNow(backend: Backend)
      modifies this
      ensures !loading
      ensures backend.currentUser.Some? ==> ShowsOwn(backend, myListings)
      ensures backend.currentUser.None? ==> myListings == old(myListings)
      ensures activeTab == old(activeTab) && filters == old(filters) && showUploadModal == old(showUploadModal)
      ensures listings == old(listings) && applications == old(applications)
    {
      loading := true;
      var r := backend.GetLandlordListings();
      if r.Ok? {
        myListings := r.value;
      }
      loading := false;
    }

    /**
     * The effect on `[activeTab, filters]`: runs the active tab's query, and
     * only that one.
     */
    method Refresh(backend: Backend)
      requires backend.Valid()
      modifies this
      ensures !loading
      ensures activeTab == old(activeTab) && filters == old(filters) && showUploadModal == old(showUploadModal)
      ensures LoaderFor(activeTab) != LoadApplications ==> applications == old(applications)
      ensures LoaderFor(activeTab) != LoadListings ==> listings == old(listings)
      ensures LoaderFor(activeTab) != LoadMyListings ==> myListings == old(myListings)
      ensures LoaderFor(activeTab) == LoadApplications && backend.currentUser.Some? ==>
                ShowsApplicationsOf(backend, applications)
      ensures LoaderFor(activeTab) == LoadListings ==> ShowsMatching(backend, filters, listings)
      ensures LoaderFor(activeTab) == LoadMyListings && backend.currentUser.Some? ==> ShowsOwn(backend, myListings)
    {
      match activeTab {
        case ApplicationsTab => LoadApplicationsNow(backend);
        case CompareTab => LoadListingsNow(backend);
        case MyListingsTab => LoadMyListingsNow(backend);
      }
    }

    /** Clicking a tab: a different tab re-runs the effect; the tab already shown changes nothing. */
    method SelectTab(tab: Tab, backend: Backend)
      requires backend.Valid()
      modifies this
      ensures activeTab == tab && filters == old(filters) && showUploadModal == old(showUploadModal)
      ensures tab == old(activeTab) ==>
                && listings == old(listings) && myListings == old(myListings)
                && applications == old(applications) && loading == old(loading)
      ensures tab != old(activeTab) ==> !loading
      ensures tab != old(activeTab) && LoaderFor(tab) == LoadApplications && backend.currentUser.Some? ==>
                ShowsApplicationsOf(backend, applications)
      ensures tab != old(activeTab) && LoaderFor(tab) == LoadListings ==> ShowsMatching(backend, filters, listings)
      ensures tab != old(activeTab) && LoaderFor(tab) == LoadMyListings && backend.currentUser.Some? ==>
                ShowsOwn(backend, myListings)
      ensures LoaderFor(tab) != LoadApplications ==> applications == old(applications)
      ensures LoaderFor(tab) != LoadListings ==> listings == old(listings)
      ensures LoaderFor(tab) != LoadMyListings ==> myListings == old(myListings)
    {
      if tab == activeTab {
        return;
      }
      activeTab := tab;
      Refresh(backend);
    }

    /**
     * The sidebar reports a new filter object on every change, so the effect
     * always re-runs, on whatever tab is active.
     */
    method OnFilterChange(f: ListingFilters, backend: Backend)
      requires backend.Valid()
      modifies this
      ensures filters == f && activeTab == old(activeTab) && showUploadModal == old(showUploadModal) && !loading
      ensures LoaderFor(activeTab) != LoadApplications ==> applications == old(applications)
      ensures LoaderFor(activeTab) != LoadListings ==> listings == old(listings)
      ensures LoaderFor(activeTab) != LoadMyListings ==> myListings == old(myListings)
      ensures LoaderFor(activeTab) == LoadApplications && backend.currentUser.Some? ==>
                ShowsApplicationsOf(backend, applications)
      ensures LoaderFor(activeTab) == LoadListings ==> ShowsMatching(backend, f, listings)
      ensures LoaderFor(activeTab) == LoadMyListings && backend.currentUser.Some? ==> ShowsOwn(backend, myListings)
    {
      filters := f;
      Refresh(backend);
    }

    /**
     * `handleUpdateApplicationStatus`: a successful update reloads the
     * application list; an error leaves it as it was.
     */
    method HandleUpdateApplicationStatus(backend: Backend, applicationId: string, status: ApplicationStatus)
      returns (r: Result<Application>)
      requires backend.Valid() && status != Pending
      modifies this, backend
      ensures backend.Valid()
      ensures backend.currentUser == old(backend.currentUser) && backend.listings == old(backend.listings)
      ensures applicationId !in old(backend.applications) ==>
                r.Err? && backend.applications == old(backend.applications)
      ensures applicationId in old(backend.applications) ==>
                && r == Ok(old(backend.applications)[applicationId].(status := status))
                && backend.applications == old(backend.applications)[applicationId := r.value]
      ensures r.Err? ==> applications == old(applications)
      ensures r.Ok? && backend.currentUser.Some? ==> ShowsApplicationsOf(backend, applications)
      ensures activeTab == old(activeTab) && listings == old(listings) && myListings == old(myListings)
      ensures filters == old(filters) && showUploadModal == old(showUploadModal)
    {
      r := backend.UpdateApplicationStatus(applicationId, status);
      if r.Ok? {
        LoadApplicationsNow(backend);
      }
    }

    /** The upload form's `onSuccess`: closes it and reloads the listings only on the two listing tabs. */
    method OnUploadSuccess(backend: Backend)
      requires backend.Valid()
      modifies this
      ensures !showUploadModal && activeTab == old(activeTab) && filters == old(filters)
      ensures applications == old(applications)
      ensures activeTab != ApplicationsTab ==> !loading
      ensures activeTab == CompareTab ==> ShowsMatching(backend, filters, listings)
      ensures activeTab == MyListingsTab && backend.currentUser.Some? ==> ShowsOwn(backend, myListings)
      ensures activeTab != CompareTab ==> listings == old(listings)
      ensures activeTab != MyListingsTab ==> myListings == old(myListings)
      ensures activeTab == ApplicationsTab ==> loading == old(loading)
    {
      showUploadModal := false;
      if activeTab == CompareTab {
        LoadListingsNow(backend);
      }
      if activeTab == MyListingsTab {
        LoadMyListingsNow(backend);
      }
    }
  }
}
