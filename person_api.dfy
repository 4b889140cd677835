/** The `/api/person` endpoint: request validation, defaulting and method dispatch. */
module PersonApi {
  import opened Common
  import opened Text
  import opened Json
  import Http

  /**
   * A person document as stored by the endpoint. The optional text fields stay
   * undefined when the body has none; the password is kept exactly as sent.
   */
  datatype PersonDoc = PersonDoc(
    userId: string,
    name: string,
    email: string,
    password: string,
    phone: Option<string>,
    description: Option<string>,
    profilePicture: Option<string>,
    groupId: Option<string>,
    landlord: bool)

  /** The checks `validatePerson` makes, in the order it makes them. */
  function PersonRule(k: nat): Rule {
    match k
    case 0 => Rule("name", RequiredNonEmptyString, "name is required.")
    case 1 => Rule("email", RequiredNonEmptyString, "email is required.")
    case 2 => Rule("password", RequiredNonEmptyString, "password is required.")
    case 3 => Rule("phone", OptionalString, "phone must be a string.")
    case 4 => Rule("description", OptionalString, "description must be a string.")
    case 5 => Rule("profilePicture", OptionalString, "profilePicture must be a string.")
    case 6 => Rule("groupId", OptionalString, "groupId must be a string.")
    case 7 => Rule("landlord", OptionalBoolean, "landlord must be a boolean.")
    case _ => Rule("userId", OptionalString, "userId must be a string.")
  }

  const PersonChecks := 9

  /** The document built from a body whose fields passed every check; `generated` is the fresh id. */
  function PersonDocOf(obj: map<string, Json>, generated: string): PersonDoc {
    PersonDoc(
      userId := StringOrFresh(Field(obj, "userId"), generated),
      name := Trim(StringOr(Field(obj, "name"), "")),
      email := Trim(StringOr(Field(obj, "email"), "")),
      password := StringOr(Field(obj, "password"), ""),
      phone := OptionalText(Field(obj, "phone")),
      description := OptionalText(Field(obj, "description")),
      profilePicture := OptionalText(Field(obj, "profilePicture")),
      groupId := OptionalText(Field(obj, "groupId")),
      landlord := BooleanOr(Field(obj, "landlord"), false))
  }

  /** What validating `body` yields, in terms of the rule table. */
  function PersonOutcome(body: Json, generated: string): Validation<PersonDoc> {
    if !body.JObj? then Invalid([BodyMessage])
    else if Errors(PersonRule, PersonChecks, body.fields) != [] then Invalid(Errors(PersonRule, PersonChecks, body.fields))
    else Valid(PersonDocOf(body.fields, generated))
  }

  /** `validatePerson`: each failed check appends its message; no check stops the others. */
  method ValidatePerson(body: Json, generated: string) returns (r: Validation<PersonDoc>)
    ensures r == PersonOutcome(body, generated)
    ensures !body.JObj? ==> r == Invalid([BodyMessage])
    ensures r.Invalid? ==> r.errors != []
  {
    if !body.JObj? {
      return Invalid([BodyMessage]);
    }
    var obj := body.fields;
    var errors: seq<string> := [];
    errors := ApplyRule(errors, PersonRule(0), obj);
    assert errors == Errors(PersonRule, 1, obj);
    errors := ApplyRule(errors, PersonRule(1), obj);
    assert errors == Errors(PersonRule, 2, obj);
    errors := ApplyRule(errors, PersonRule(2), obj);
    assert errors == Errors(PersonRule, 3, obj);
    errors := ApplyRule(errors, PersonRule(3), obj);
    assert errors == Errors(PersonRule, 4, obj);
    errors := ApplyRule(errors, PersonRule(4), obj);
    assert errors == Errors(PersonRule, 5, obj);
    errors := ApplyRule(errors, PersonRule(5), obj);
    assert errors == Errors(PersonRule, 6, obj);
    errors := ApplyRule(errors, PersonRule(6), obj);
    assert errors == Errors(PersonRule, 7, obj);
    errors := ApplyRule(errors, PersonRule(7), obj);
    assert errors == Errors(PersonRule, 8, obj);
    errors := ApplyRule(errors, PersonRule(8), obj);
    assert errors == Errors(PersonRule, 9, obj);
    if |errors| > 0 {
      return Invalid(errors);
    }
    r := Valid(PersonDocOf(obj, generated));
  }

  /** The `/api/person` handler: GET lists, POST validates then inserts, anything else is 405. */
  method HandlePerson(verb: string, body: Json, stored: seq<PersonDoc>, generated: string, insertedId: string)
    returns (response: Http.Response<PersonDoc>, after: seq<PersonDoc>)
    ensures (response, after) == Http.Respond(verb, stored, PersonOutcome(body, generated), insertedId)
  {
    var outcome := Invalid([]);
    if verb == "POST" {
      outcome := ValidatePerson(body, generated);
    }
    var answer := Http.Respond(verb, stored, outcome, insertedId);
    response, after := answer.0, answer.1;
  }

  /** No two checks of `validatePerson` report the same message. */
  lemma PersonMessagesDistinct()
    ensures DistinctMessages(PersonRule, PersonChecks)
  {
  }

  /**
   * Each message is reported exactly when its field fails its check, the body
   * is accepted exactly when every check holds, and the messages come in check order.
   */
  lemma PersonErrorsExact(obj: map<string, Json>)
    ensures forall k :: 0 <= k < PersonChecks ==>
      (PersonRule(k).message in Errors(PersonRule, PersonChecks, obj) <==> !Passes(PersonRule(k), obj))
    ensures Errors(PersonRule, PersonChecks, obj) == [] <==>
      forall k :: 0 <= k < PersonChecks ==> Passes(PersonRule(k), obj)
    ensures IsSubsequence(Errors(PersonRule, PersonChecks, obj), Messages(PersonRule, PersonChecks))
  {
    PersonMessagesDistinct();
    ErrorsExact(PersonRule, PersonChecks, obj);
  }

  /** The normalised document as the endpoint holds it before inserting it: undefined optional fields are left out. */
  function PersonFields(d: PersonDoc): map<string, Json> {
    var base := map[
      "userId" := JStr(d.userId),
      "name" := JStr(d.name),
      "email" := JStr(d.email),
      "password" := JStr(d.password),
      "landlord" := JBool(d.landlord)];
    Put(Put(Put(Put(base, "phone", d.phone), "description", d.description),
      "profilePicture", d.profilePicture), "groupId", d.groupId)
  }

  /** The JSON a defined optional text field reads as, or nothing. */
  function TextField(v: Option<string>): Option<Json> {
    if v.Some? then Some(JStr(v.value)) else None
  }

  /** `obj` holds each field of `d` under its own name, and no optional field `d` lacks. */
  predicate Encodes(obj: map<string, Json>, d: PersonDoc) {
    && Field(obj, "userId") == Some(JStr(d.userId))
    && Field(obj, "name") == Some(JStr(d.name))
    && Field(obj, "email") == Some(JStr(d.email))
    && Field(obj, "password") == Some(JStr(d.password))
    && Field(obj, "phone") == TextField(d.phone)
    && Field(obj, "description") == TextField(d.description)
    && Field(obj, "profilePicture") == TextField(d.profilePicture)
    && Field(obj, "groupId") == TextField(d.groupId)
    && Field(obj, "landlord") == Some(JBool(d.landlord))
  }

  /** Reading a field back from the encoding gives what was stored. */
  lemma PersonFieldsRead(d: PersonDoc)
    ensures Encodes(PersonFields(d), d)
  {
  }

  /** Any object encoding a document with non-blank name, email and password passes every check. */
  lemma PersonAcceptsEncoding(obj: map<string, Json>, d: PersonDoc)
    requires |Trim(d.name)| > 0 && |Trim(d.email)| > 0 && |Trim(d.password)| > 0
    requires Encodes(obj, d)
    ensures Errors(PersonRule, PersonChecks, obj) == []
  {
    ErrorsNoneYet(PersonRule, 0, obj);
    ErrorsNoneYet(PersonRule, 1, obj);
    ErrorsNoneYet(PersonRule, 2, obj);
    ErrorsNoneYet(PersonRule, 3, obj);
    ErrorsNoneYet(PersonRule, 4, obj);
    ErrorsNoneYet(PersonRule, 5, obj);
    ErrorsNoneYet(PersonRule, 6, obj);
    ErrorsNoneYet(PersonRule, 7, obj);
    ErrorsNoneYet(PersonRule, 8, obj);
  }

  /** Building the document from an encoding gives it back, with name and email trimmed. */
  lemma PersonDecodesEncoding(obj: map<string, Json>, d: PersonDoc, generated: string)
    requires Encodes(obj, d) && d.userId != ""
    ensures PersonDocOf(obj, generated) == d.(name := Trim(d.name), email := Trim(d.email))
  {
  }

  /** An accepted document has an id, trimmed non-blank name and email, and a non-blank password. */
  lemma PersonAcceptedShape(obj: map<string, Json>, generated: string)
    requires generated != "" && Errors(PersonRule, PersonChecks, obj) == []
    ensures var d := PersonDocOf(obj, generated);
      && d.userId != ""
      && |Trim(d.name)| > 0 && Trim(d.name) == d.name
      && |Trim(d.email)| > 0 && Trim(d.email) == d.email
      && |Trim(d.password)| > 0
  {
    ErrorsNoneAt(PersonRule, PersonChecks, obj, 0);
    ErrorsNoneAt(PersonRule, PersonChecks, obj, 1);
    ErrorsNoneAt(PersonRule, PersonChecks, obj, 2);
    TrimIdempotent(StringOr(Field(obj, "name"), ""));
    TrimIdempotent(StringOr(Field(obj, "email"), ""));
  }

  /**
   * Normalisation is stable: posting the normalised person again, with its
   * undefined optional fields left out, is accepted as the same document,
   * whatever id would have been generated.
   */
  lemma PersonRevalidate(body: Json, generated: string, generated2: string)
    requires generated != ""
    requires PersonOutcome(body, generated).Valid?
    ensures PersonOutcome(JObj(PersonFields(PersonOutcome(body, generated).doc)), generated2) ==
            PersonOutcome(body, generated)
  {
    var d := PersonDocOf(body.fields, generated);
    PersonAcceptedShape(body.fields, generated);
    PersonFieldsRead(d);
    PersonAcceptsEncoding(PersonFields(d), d);
    PersonDecodesEncoding(PersonFields(d), d, generated2);
  }

  /** The person's optional text fields. */
  const OptionalTextKeys := ["phone", "description", "profilePicture", "groupId"]

  /**
   * The document as the database keeps it and a later GET returns it: the
   * driver writes each undefined optional field as `null`.
   */
  function PersonStored(d: PersonDoc): (obj: map<string, Json>)
    ensures Field(obj, "phone") == Some(StoredText(d.phone))
    ensures Field(obj, "description") == Some(StoredText(d.description))
    ensures Field(obj, "profilePicture") == Some(StoredText(d.profilePicture))
    ensures Field(obj, "groupId") == Some(StoredText(d.groupId))
    ensures forall k :: k !in OptionalTextKeys ==> Field(obj, k) == Field(PersonFields(d), k)
  {
    PutNull(PutNull(PutNull(PutNull(PersonFields(d), "phone", d.phone), "description", d.description),
      "profilePicture", d.profilePicture), "groupId", d.groupId)
  }

  /** Exactly the checks at positions 3 to 6 read an optional text field. */
  lemma PersonOptionalKey(k: nat)
    requires k < PersonChecks
    ensures PersonRule(k).key in OptionalTextKeys <==> 3 <= k <= 6
  {
  }

  /** Every check but those of the optional text fields passes on the stored form of an accepted document. */
  lemma PersonStoredPasses(d: PersonDoc, k: nat)
    requires |Trim(d.name)| > 0 && |Trim(d.email)| > 0 && |Trim(d.password)| > 0
    requires k < PersonChecks && !(3 <= k <= 6)
    ensures Passes(PersonRule(k), PersonStored(d))
  {
    PersonFieldsRead(d);
    PersonAcceptsEncoding(PersonFields(d), d);
    ErrorsNoneAt(PersonRule, PersonChecks, PersonFields(d), k);
    PersonOptionalKey(k);
    PassesSameField(PersonRule(k), PersonFields(d), PersonStored(d));
  }

  /** When only the optional text checks can fail, the errors are theirs, in check order. */
  lemma PersonOnlyOptionalBroken(obj: map<string, Json>)
    requires forall k :: 0 <= k < PersonChecks && !(3 <= k <= 6) ==> Passes(PersonRule(k), obj)
    ensures Errors(PersonRule, PersonChecks, obj) ==
            Check(PersonRule(3), obj) + Check(PersonRule(4), obj) + Check(PersonRule(5), obj) + Check(PersonRule(6), obj)
  {
    ErrorsPassingTail(PersonRule, 7, PersonChecks, obj);
    ErrorsPassingTail(PersonRule, 0, 3, obj);
    assert Errors(PersonRule, 4, obj) == Check(PersonRule(3), obj);
    assert Errors(PersonRule, 5, obj) == Errors(PersonRule, 4, obj) + Check(PersonRule(4), obj);
    assert Errors(PersonRule, 6, obj) == Errors(PersonRule, 5, obj) + Check(PersonRule(5), obj);
  }

  /** An optional text field written by the driver is refused exactly when it was undefined. */
  lemma PersonNullChecks(obj: map<string, Json>, d: PersonDoc)
    requires Field(obj, "phone") == Some(StoredText(d.phone))
    requires Field(obj, "description") == Some(StoredText(d.description))
    requires Field(obj, "profilePicture") == Some(StoredText(d.profilePicture))
    requires Field(obj, "groupId") == Some(StoredText(d.groupId))
    ensures Check(PersonRule(3), obj) == NullMessage(d.phone, "phone must be a string.")
    ensures Check(PersonRule(4), obj) == NullMessage(d.description, "description must be a string.")
    ensures Check(PersonRule(5), obj) == NullMessage(d.profilePicture, "profilePicture must be a string.")
    ensures Check(PersonRule(6), obj) == NullMessage(d.groupId, "groupId must be a string.")
  {
  }

  /** On the stored form of an accepted document, each `null` optional field is refused, in check order. */
  lemma PersonStoredErrors(d: PersonDoc)
    requires |Trim(d.name)| > 0 && |Trim(d.email)| > 0 && |Trim(d.password)| > 0
    ensures Errors(PersonRule, PersonChecks, PersonStored(d)) ==
            NullMessage(d.phone, "phone must be a string.") + NullMessage(d.description, "description must be a string.") +
            NullMessage(d.profilePicture, "profilePicture must be a string.") + NullMessage(d.groupId, "groupId must be a string.")
  {
    var obj := PersonStored(d);
    forall k | 0 <= k < PersonChecks && !(3 <= k <= 6)
      ensures Passes(PersonRule(k), obj)
    {
      PersonStoredPasses(d, k);
    }
    PersonOnlyOptionalBroken(obj);
    PersonNullChecks(obj, d);
  }

  /** The stored form of a person with every optional field defined is an encoding of it. */
  lemma PersonStoredEncodes(d: PersonDoc)
    requires d.phone.Some? && d.description.Some? && d.profilePicture.Some? && d.groupId.Some?
    ensures Encodes(PersonStored(d), d)
  {
    PersonFieldsRead(d);
  }

  /** The outcome on an object, given its error list and, when that is empty, that it encodes `d`. */
  lemma PersonOutcomeOf(obj: map<string, Json>, d: PersonDoc, errors: seq<string>, generated: string)
    requires Errors(PersonRule, PersonChecks, obj) == errors
    requires errors == [] ==> Encodes(obj, d) && d.userId != "" && Trim(d.name) == d.name && Trim(d.email) == d.email
    ensures PersonOutcome(JObj(obj), generated) == if errors == [] then Valid(d) else Invalid(errors)
  {
    if errors == [] {
      PersonDecodesEncoding(obj, d, generated);
    }
  }

  /**
   * Posting a fetched person again: each optional field stored as `null` is
   * refused with its message, in check order, and a person with all four
   * defined is accepted as the same document.
   */
  lemma PersonRepostStored(body: Json, generated: string, generated2: string)
    requires generated != ""
    requires PersonOutcome(body, generated).Valid?
    ensures var d := PersonOutcome(body, generated).doc;
      var errors := NullMessage(d.phone, "phone must be a string.") + NullMessage(d.description, "description must be a string.") +
                    NullMessage(d.profilePicture, "profilePicture must be a string.") + NullMessage(d.groupId, "groupId must be a string.");
      PersonOutcome(JObj(PersonStored(d)), generated2) == if errors == [] then Valid(d) else Invalid(errors)
  {
    var d := PersonDocOf(body.fields, generated);
    PersonAcceptedShape(body.fields, generated);
    PersonStoredErrors(d);
    var errors := NullMessage(d.phone, "phone must be a string.") + NullMessage(d.description, "description must be a string.") +
                  NullMessage(d.profilePicture, "profilePicture must be a string.") + NullMessage(d.groupId, "groupId must be a string.");
    if errors == [] {
      PersonStoredEncodes(d);
    }
    PersonOutcomeOf(PersonStored(d), d, errors, generated2);
  }
}
