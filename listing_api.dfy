/** The `/api/listing` endpoint: request validation, defaulting and method dispatch. */
module ListingApi {
  import opened Common
  import opened Text
  import opened Json
  import Http
  import Database

  /** A listing document as stored by the endpoint. `gender` stays undefined when the body has none. */
  datatype ListingDoc = ListingDoc(
    listingId: string,
    onCampus: bool,
    price: real,
    address: string,
    bedrooms: real,
    bathrooms: real,
    gender: Option<string>,
    rentalType: string,
    verified: bool,
    imageUrls: seq<string>,
    landlordId: string)

  /** The checks `validateListing` makes, in the order it makes them. */
  function ListingRule(k: nat): Rule {
    match k
    case 0 => Rule("listingId", OptionalString, "listingId must be a string.")
    case 1 => Rule("onCampus", OptionalBoolean, "onCampus must be a boolean.")
    case 2 => Rule("price", RequiredNumber, "price must be a number.")
    case 3 => Rule("address", RequiredNonEmptyString, "address is required.")
    case 4 => Rule("bedrooms", RequiredNumber, "bedrooms must be a number.")
    case 5 => Rule("bathrooms", RequiredNumber, "bathrooms must be a number.")
    case 6 => Rule("gender", OptionalString, "gender must be a string.")
    case 7 => Rule("rentalType", RequiredNonEmptyString, "rentalType is required.")
    case 8 => Rule("verified", OptionalBoolean, "verified must be a boolean.")
    case 9 => Rule("imageUrls", OptionalStringArray, "imageUrls must be an array of strings.")
    case _ => Rule("landlordId", RequiredNonEmptyString, "landlordId is required.")
  }

  const ListingChecks := 11

  /** The document built from a body whose fields passed every check; `generated` is the fresh id. */
  function ListingDocOf(obj: map<string, Json>, generated: string): ListingDoc {
    ListingDoc(
      listingId := StringOrFresh(Field(obj, "listingId"), generated),
      onCampus := BooleanOr(Field(obj, "onCampus"), false),
      price := NumberOr(Field(obj, "price"), 0.0),
      address := Trim(StringOr(Field(obj, "address"), "")),
      bedrooms := NumberOr(Field(obj, "bedrooms"), 0.0),
      bathrooms := NumberOr(Field(obj, "bathrooms"), 0.0),
      gender := OptionalText(Field(obj, "gender")),
      rentalType := StringOr(Field(obj, "rentalType"), ""),
      verified := BooleanOr(Field(obj, "verified"), false),
      imageUrls := StringsOr(Field(obj, "imageUrls"), []),
      landlordId := StringOr(Field(obj, "landlordId"), ""))
  }

  /** What validating `body` yields, in terms of the rule table. */
  function ListingOutcome(body: Json, generated: string): Validation<ListingDoc> {
    if !body.JObj? then Invalid([BodyMessage])
    else if Errors(ListingRule, ListingChecks, body.fields) != [] then Invalid(Errors(ListingRule, ListingChecks, body.fields))
    else Valid(ListingDocOf(body.fields, generated))
  }

  /** `validateListing`: each failed check appends its message; no check stops the others. */
  method ValidateListing(body: Json, generated: string) returns (r: Validation<ListingDoc>)
    ensures r == ListingOutcome(body, generated)
    ensures !body.JObj? ==> r == Invalid([BodyMessage])
    ensures r.Invalid? ==> r.errors != []
  {
    if !body.JObj? {
      return Invalid([BodyMessage]);
    }
    var obj := body.fields;
    var errors: seq<string> := [];
    errors := ApplyRule(errors, ListingRule(0), obj);
    assert errors == Errors(ListingRule, 1, obj);
    errors := ApplyRule(errors, ListingRule(1), obj);
    assert errors == Errors(ListingRule, 2, obj);
    errors := ApplyRule(errors, ListingRule(2), obj);
    assert errors == Errors(ListingRule, 3, obj);
    errors := ApplyRule(errors, ListingRule(3), obj);
    assert errors == Errors(ListingRule, 4, obj);
    errors := ApplyRule(errors, ListingRule(4), obj);
    assert errors == Errors(ListingRule, 5, obj);
    errors := ApplyRule(errors, ListingRule(5), obj);
    assert errors == Errors(ListingRule, 6, obj);
    errors := ApplyRule(errors, ListingRule(6), obj);
    assert errors == Errors(ListingRule, 7, obj);
    errors := ApplyRule(errors, ListingRule(7), obj);
    assert errors == Errors(ListingRule, 8, obj);
    errors := ApplyRule(errors, ListingRule(8), obj);
    assert errors == Errors(ListingRule, 9, obj);
    errors := ApplyRule(errors, ListingRule(9), obj);
    assert errors == Errors(ListingRule, 10, obj);
    errors := ApplyRule(errors, ListingRule(10), obj);
    assert errors == Errors(ListingRule, 11, obj);
    if |errors| > 0 {
      return Invalid(errors);
    }
    r := Valid(ListingDocOf(obj, generated));
  }

  /** The `/api/listing` handler: GET lists, POST validates then inserts, anything else is 405. */
  method HandleListing(verb: string, body: Json, stored: seq<ListingDoc>, generated: string, insertedId: string)
    returns (response: Http.Response<ListingDoc>, after: seq<ListingDoc>)
    ensures (response, after) == Http.Respond(verb, stored, ListingOutcome(body, generated), insertedId)
  {
    var outcome := Invalid([]);
    if verb == "POST" {
      outcome := ValidateListing(body, generated);
    }
    var answer := Http.Respond(verb, stored, outcome, insertedId);
    response, after := answer.0, answer.1;
  }

  /** No two checks of `validateListing` report the same message. */
  lemma ListingMessagesDistinct()
    ensures DistinctMessages(ListingRule, ListingChecks)
  {
  }

  /**
   * Each message is reported exactly when its field fails its check, the body
   * is accepted exactly when every check holds, and the messages come in check order.
   */
  lemma ListingErrorsExact(obj: map<string, Json>)
    ensures forall k :: 0 <= k < ListingChecks ==>
      (ListingRule(k).message in Errors(ListingRule, ListingChecks, obj) <==> !Passes(ListingRule(k), obj))
    ensures Errors(ListingRule, ListingChecks, obj) == [] <==>
      forall k :: 0 <= k < ListingChecks ==> Passes(ListingRule(k), obj)
    ensures IsSubsequence(Errors(ListingRule, ListingChecks, obj), Messages(ListingRule, ListingChecks))
  {
    ListingMessagesDistinct();
    ErrorsExact(ListingRule, ListingChecks, obj);
  }

  /** The normalised document as the endpoint holds it before inserting it: an undefined gender is left out. */
  function ListingFields(d: ListingDoc): map<string, Json> {
    var base := map[
      "listingId" := JStr(d.listingId),
      "onCampus" := JBool(d.onCampus),
      "price" := JNum(d.price),
      "address" := JStr(d.address),
      "bedrooms" := JNum(d.bedrooms),
      "bathrooms" := JNum(d.bathrooms),
      "rentalType" := JStr(d.rentalType),
      "verified" := JBool(d.verified),
      "imageUrls" := JArr(StringItems(d.imageUrls)),
      "landlordId" := JStr(d.landlordId)];
    Put(base, "gender", d.gender)
  }

  /** `obj` holds each field of `d` under its own name, and no gender when `d` has none. */
  predicate Encodes(obj: map<string, Json>, d: ListingDoc) {
    && Field(obj, "listingId") == Some(JStr(d.listingId))
    && Field(obj, "onCampus") == Some(JBool(d.onCampus))
    && Field(obj, "price") == Some(JNum(d.price))
    && Field(obj, "address") == Some(JStr(d.address))
    && Field(obj, "bedrooms") == Some(JNum(d.bedrooms))
    && Field(obj, "bathrooms") == Some(JNum(d.bathrooms))
    && Field(obj, "gender") == (if d.gender.Some? then Some(JStr(d.gender.value)) else None)
    && Field(obj, "rentalType") == Some(JStr(d.rentalType))
    && Field(obj, "verified") == Some(JBool(d.verified))
    && Field(obj, "imageUrls") == Some(JArr(StringItems(d.imageUrls)))
    && Field(obj, "landlordId") == Some(JStr(d.landlordId))
  }

  /** Reading a field back from the encoding gives what was stored. */
  lemma ListingFieldsRead(d: ListingDoc)
    ensures Encodes(ListingFields(d), d)
  {
  }

  /** Any object encoding a document with non-blank required text passes every check. */
  lemma ListingAcceptsEncoding(obj: map<string, Json>, d: ListingDoc)
    requires |Trim(d.address)| > 0 && |Trim(d.rentalType)| > 0 && |Trim(d.landlordId)| > 0
    requires Encodes(obj, d)
    ensures Errors(ListingRule, ListingChecks, obj) == []
  {
    StringsRoundTrip(d.imageUrls);
    ErrorsNoneYet(ListingRule, 0, obj);
    ErrorsNoneYet(ListingRule, 1, obj);
    ErrorsNoneYet(ListingRule, 2, obj);
    ErrorsNoneYet(ListingRule, 3, obj);
    ErrorsNoneYet(ListingRule, 4, obj);
    ErrorsNoneYet(ListingRule, 5, obj);
    ErrorsNoneYet(ListingRule, 6, obj);
    ErrorsNoneYet(ListingRule, 7, obj);
    ErrorsNoneYet(ListingRule, 8, obj);
    ErrorsNoneYet(ListingRule, 9, obj);
    ErrorsNoneYet(ListingRule, 10, obj);
  }

  /** Building the document from the encoding of a normalised document gives it back. */
  lemma ListingDecodesEncoding(obj: map<string, Json>, d: ListingDoc, generated: string)
    requires Encodes(obj, d) && d.listingId != ""
    ensures ListingDocOf(obj, generated) == d.(address := Trim(d.address))
  {
    StringsRoundTrip(d.imageUrls);
  }

  /** Any object encoding a document with non-blank required text and an id is accepted as that document, address trimmed. */
  lemma ListingOutcomeOfEncoding(obj: map<string, Json>, d: ListingDoc, generated: string)
    requires Encodes(obj, d) && d.listingId != ""
    requires |Trim(d.address)| > 0 && |Trim(d.rentalType)| > 0 && |Trim(d.landlordId)| > 0
    ensures ListingOutcome(JObj(obj), generated) == Valid(d.(address := Trim(d.address)))
  {
    ListingAcceptsEncoding(obj, d);
    ListingDecodesEncoding(obj, d, generated);
  }

  /**
   * The endpoint asks only for a non-blank rental type, so a document with
   * `rentalType: "app"`, which is no rental type of the application's enum,
   * is accepted all the same.
   */
  lemma ListingAcceptsOutsideEnum(obj: map<string, Json>, d: ListingDoc, generated: string)
    requires Encodes(obj, d) && d.listingId != "" && d.rentalType == "app"
    requires |Trim(d.address)| > 0 && |Trim(d.landlordId)| > 0
    ensures Database.ParseRentalType(d.rentalType).None?
    ensures ListingOutcome(JObj(obj), generated) == Valid(d.(address := Trim(d.address)))
  {
    Database.RentalTypeValues(d.rentalType);
    TrimNonEmpty(d.rentalType);
    assert !IsJsWhitespace(d.rentalType[0]);
    ListingOutcomeOfEncoding(obj, d, generated);
  }

  /** An accepted document has an id, a trimmed non-blank address and non-blank rental type and landlord. */
  lemma ListingAcceptedShape(obj: map<string, Json>, generated: string)
    requires generated != "" && Errors(ListingRule, ListingChecks, obj) == []
    ensures var d := ListingDocOf(obj, generated);
      && d.listingId != ""
      && |Trim(d.address)| > 0 && Trim(d.address) == d.address
      && |Trim(d.rentalType)| > 0 && |Trim(d.landlordId)| > 0
  {
    ErrorsNoneAt(ListingRule, ListingChecks, obj, 3);
    ErrorsNoneAt(ListingRule, ListingChecks, obj, 7);
    ErrorsNoneAt(ListingRule, ListingChecks, obj, 10);
    TrimIdempotent(StringOr(Field(obj, "address"), ""));
  }

  /**
   * Normalisation is stable: posting the normalised document again, with its
   * gender left out when it has none, is accepted as the same document,
   * whatever id would have been generated.
   */
  lemma ListingRevalidate(body: Json, generated: string, generated2: string)
    requires generated != ""
    requires ListingOutcome(body, generated).Valid?
    ensures ListingOutcome(JObj(ListingFields(ListingOutcome(body, generated).doc)), generated2) ==
            ListingOutcome(body, generated)
  {
    var d := ListingDocOf(body.fields, generated);
    ListingAcceptedShape(body.fields, generated);
    ListingFieldsRead(d);
    ListingOutcomeOfEncoding(ListingFields(d), d, generated2);
  }

  /**
   * The document as the database keeps it and a later GET returns it: the
   * driver writes an undefined gender as `null`.
   */
  function ListingStored(d: ListingDoc): (obj: map<string, Json>)
    ensures Field(obj, "gender") == Some(StoredText(d.gender))
    ensures forall k :: k != "gender" ==> Field(obj, k) == Field(ListingFields(d), k)
  {
    PutNull(ListingFields(d), "gender", d.gender)
  }

  /** Only the gender check reads the gender field. */
  lemma ListingGenderKey(k: nat)
    requires k != 6
    ensures ListingRule(k).key != "gender"
  {
  }

  /** Every check but the gender's passes on the stored form of an accepted document. */
  lemma ListingStoredPasses(d: ListingDoc, k: nat)
    requires |Trim(d.address)| > 0 && |Trim(d.rentalType)| > 0 && |Trim(d.landlordId)| > 0
    requires k < ListingChecks && k != 6
    ensures Passes(ListingRule(k), ListingStored(d))
  {
    ListingFieldsRead(d);
    ListingAcceptsEncoding(ListingFields(d), d);
    ErrorsNoneAt(ListingRule, ListingChecks, ListingFields(d), k);
    ListingGenderKey(k);
    PassesSameField(ListingRule(k), ListingFields(d), ListingStored(d));
  }

  /** When the gender check is the only one that fails, its message is the whole error list. */
  lemma ListingOnlyGenderBroken(obj: map<string, Json>)
    requires forall k :: 0 <= k < ListingChecks && k != 6 ==> Passes(ListingRule(k), obj)
    requires !Passes(ListingRule(6), obj)
    ensures Errors(ListingRule, ListingChecks, obj) == ["gender must be a string."]
  {
    ErrorsPassingTail(ListingRule, 7, ListingChecks, obj);
    ErrorsPassingTail(ListingRule, 0, 6, obj);
  }

  /** On the stored form of an accepted document without a gender, the `null` gender is the only error. */
  lemma ListingStoredNullGender(d: ListingDoc)
    requires |Trim(d.address)| > 0 && |Trim(d.rentalType)| > 0 && |Trim(d.landlordId)| > 0
    requires d.gender.None?
    ensures Errors(ListingRule, ListingChecks, ListingStored(d)) == ["gender must be a string."]
  {
    var obj := ListingStored(d);
    forall k | 0 <= k < ListingChecks && k != 6
      ensures Passes(ListingRule(k), obj)
    {
      ListingStoredPasses(d, k);
    }
    ListingOnlyGenderBroken(obj);
  }

  /**
   * Posting a fetched listing again: with a gender it is accepted as the same
   * document; without one its stored `null` gender is refused, and that is
   * the only error.
   */
  lemma ListingRepostStored(body: Json, generated: string, generated2: string)
    requires generated != ""
    requires ListingOutcome(body, generated).Valid?
    ensures var d := ListingOutcome(body, generated).doc;
      ListingOutcome(JObj(ListingStored(d)), generated2) ==
        if d.gender.Some? then Valid(d) else Invalid(["gender must be a string."])
  {
    var d := ListingDocOf(body.fields, generated);
    ListingAcceptedShape(body.fields, generated);
    if d.gender.Some? {
      assert ListingStored(d) == ListingFields(d);
      ListingFieldsRead(d);
      ListingOutcomeOfEncoding(ListingFields(d), d, generated2);
    } else {
      ListingStoredNullGender(d);
    }
  }
}
