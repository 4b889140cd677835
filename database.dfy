/**
 * The rows of the hosted database as the web client sees them, and the
 * filter record the listing search takes. Timestamps are instants on one
 * clock (`int`); the client receives them as ISO strings, which order the
 * same way.
 */
module Database {
  import opened Common

  /** `gender_preference`: one of `any`, `male`, `female`. */
  datatype GenderPreference = AnyGender | Male | Female

  /** `rental_type`: one of `apartment`, `house`, `room`, `basement`, `floor`. */
  datatype RentalType = Apartment | House | Room | Basement | Floor

  /** Application `status`: one of `pending`, `accepted`, `rejected`. */
  datatype ApplicationStatus = Pending | Accepted | Rejected

  function GenderName(g: GenderPreference): string {
    match g
    case AnyGender => "any"
    case Male => "male"
    case Female => "female"
  }

  /** The stored text read back as a gender preference; any other text is not one. */
  function ParseGender(s: string): (r: Option<GenderPreference>)
    ensures r.Some? ==> GenderName(r.value) == s
  {
    if s == "any" then Some(AnyGender)
    else if s == "male" then Some(Male)
    else if s == "female" then Some(Female)
    else None
  }

  function RentalTypeName(t: RentalType): string {
    match t
    case Apartment => "apartment"
    case House => "house"
    case Room => "room"
    case Basement => "basement"
    case Floor => "floor"
  }

  function ParseRentalType(s: string): (r: Option<RentalType>)
    ensures r.Some? ==> RentalTypeName(r.value) == s
  {
    if s == "apartment" then Some(Apartment)
    else if s == "house" then Some(House)
    else if s == "room" then Some(Room)
    else if s == "basement" then Some(Basement)
    else if s == "floor" then Some(Floor)
    else None
  }

  function StatusName(s: ApplicationStatus): string {
    match s
    case Pending => "pending"
    case Accepted => "accepted"
    case Rejected => "rejected"
  }

  function ParseStatus(s: string): (r: Option<ApplicationStatus>)
    ensures r.Some? ==> StatusName(r.value) == s
  {
    if s == "pending" then Some(Pending)
    else if s == "accepted" then Some(Accepted)
    else if s == "rejected" then Some(Rejected)
    else None
  }

  /** Every enum value is stored under its own name and read back as itself; no two share a name. */
  lemma EnumNamesRoundTrip()
    ensures forall g :: ParseGender(GenderName(g)) == Some(g)
    ensures forall t :: ParseRentalType(RentalTypeName(t)) == Some(t)
    ensures forall s :: ParseStatus(StatusName(s)) == Some(s)
  {
    forall g: GenderPreference ensures ParseGender(GenderName(g)) == Some(g) {
      match g
      case AnyGender =>
      case Male =>
      case Female =>
    }
    forall t: RentalType ensures ParseRentalType(RentalTypeName(t)) == Some(t) {
      match t
      case Apartment =>
      case House =>
      case Room =>
      case Basement =>
      case Floor =>
    }
  }

  /** A text is a stored gender preference exactly when it is one of the three names. */
  lemma GenderValues(s: string)
    ensures ParseGender(s).Some? <==> s in ["any", "male", "female"]
  {
  }

  /** A text is a stored rental type exactly when it is one of the five names. */
  lemma RentalTypeValues(s: string)
    ensures ParseRentalType(s).Some? <==> s in ["apartment", "house", "room", "basement", "floor"]
  {
  }

  /** A text is a stored application status exactly when it is one of the three names. */
  lemma StatusValues(s: string)
    ensures ParseStatus(s).Some? <==> s in ["pending", "accepted", "rejected"]
  {
  }

  datatype Profile = Profile(
    id: string,
    name: string,
    email: string,
    phone: string,
    description: string,
    profilePicture: string,
    groupId: Option<string>,   // `group_id: string | null`
    isLandlord: bool,
    createdAt: int,
    updatedAt: int)

  datatype Group = Group(id: string, name: string, createdBy: string, createdAt: int)

  /**
   * The listing fields the landlord's form edits and submits: everything but
   * the id, the owner, the verification flag and the timestamps.
   */
  datatype ListingDetails = ListingDetails(
    title: string,
    description: string,
    address: string,
    price: real,
    bedrooms: real,
    bathrooms: real,
    isOnCampus: bool,
    genderPreference: GenderPreference,
    rentalType: RentalType,
    imageUrls: seq<string>,
    amenities: seq<string>,
    availableFrom: string,
    leaseDuration: string)

  datatype Listing = Listing(
    id: string,
    landlordId: string,
    details: ListingDetails,
    isVerified: bool,
    createdAt: int,
    updatedAt: int)

  datatype Application = Application(
    id: string,
    listingId: string,
    applicantId: string,
    groupId: Option<string>,   // `group_id: string | null`
    status: ApplicationStatus,
    message: string,
    createdAt: int,
    updatedAt: int)

  /**
   * The search filters. Every field may be undefined. The last four are not
   * declared in the record type yet the sidebar sets them and the student
   * page reads them, so they are part of the value passed around.
   */
  datatype ListingFilters = ListingFilters(
    priceMin: Option<real>,
    priceMax: Option<real>,
    bedrooms: Option<real>,
    bathrooms: Option<real>,
    isOnCampus: Option<bool>,
    genderPreference: Option<GenderPreference>,
    rentalType: Option<seq<string>>,
    amenities: Option<seq<string>>,
    targetLat: Option<real>,
    targetLng: Option<real>,
    radiusKm: Option<real>,
    targetAddress: Option<string>)

  /** `{}`: no filter set. */
  const NoFilters := ListingFilters(None, None, None, None, None, None, None, None, None, None, None, None)

  /** A number filter field read as a JavaScript condition: defined and not zero. */
  predicate Truthy(v: Option<real>) {
    v.Some? && v.value != 0.0
  }

  /** The distance search is on: a target point and a non-zero radius are set. */
  predicate DistanceActive(f: ListingFilters) {
    f.targetLat.Some? && f.targetLng.Some? && Truthy(f.radiusKm)
  }
}
