/** The `/api/application` endpoint: request validation, defaulting and method dispatch. */
module ApplicationApi {
  import opened Common
  import opened Text
  import opened Json
  import Http

  /** An application document as stored by the endpoint; the two references are kept exactly as sent. */
  datatype ApplicationDoc = ApplicationDoc(applicationId: string, listingId: string, groupId: string)

  /** The checks `validateApplication` makes, in the order it makes them. */
  function ApplicationRule(k: nat): Rule {
    match k
    case 0 => Rule("listingId", RequiredNonEmptyString, "listingId is required.")
    case 1 => Rule("groupId", RequiredNonEmptyString, "groupId is required.")
    case _ => Rule("applicationId", OptionalString, "applicationId must be a string.")
  }

  const ApplicationChecks := 3

  /** The document built from a body whose fields passed every check; `generated` is the fresh id. */
  function ApplicationDocOf(obj: map<string, Json>, generated: string): ApplicationDoc {
    ApplicationDoc(
      applicationId := StringOrFresh(Field(obj, "applicationId"), generated),
      listingId := StringOr(Field(obj, "listingId"), ""),
      groupId := StringOr(Field(obj, "groupId"), ""))
  }

  /** What validating `body` yields, in terms of the rule table. */
  function ApplicationOutcome(body: Json, generated: string): Validation<ApplicationDoc> {
    if !body.JObj? then Invalid([BodyMessage])
    else if Errors(ApplicationRule, ApplicationChecks, body.fields) != [] then
      Invalid(Errors(ApplicationRule, ApplicationChecks, body.fields))
    else Valid(ApplicationDocOf(body.fields, generated))
  }

  /** `validateApplication`: each failed check appends its message; no check stops the others. */
  method ValidateApplication(body: Json, generated: string) returns (r: Validation<ApplicationDoc>)
    ensures r == ApplicationOutcome(body, generated)
    ensures !body.JObj? ==> r == Invalid([BodyMessage])
    ensures r.Invalid? ==> r.errors != []
  {
    if !body.JObj? {
      return Invalid([BodyMessage]);
    }
    var obj := body.fields;
    var errors: seq<string> := [];
    errors := ApplyRule(errors, ApplicationRule(0), obj);
    assert errors == Errors(ApplicationRule, 1, obj);
    errors := ApplyRule(errors, ApplicationRule(1), obj);
    assert errors == Errors(ApplicationRule, 2, obj);
    errors := ApplyRule(errors, ApplicationRule(2), obj);
    assert errors == Errors(ApplicationRule, 3, obj);
    if |errors| > 0 {
      return Invalid(errors);
    }
    r := Valid(ApplicationDocOf(obj, generated));
  }

  /** The `/api/application` handler: GET lists, POST validates then inserts, anything else is 405. */
  method HandleApplication(verb: string, body: Json, stored: seq<ApplicationDoc>, generated: string, insertedId: string)
    returns (response: Http.Response<ApplicationDoc>, after: seq<ApplicationDoc>)
    ensures (response, after) == Http.Respond(verb, stored, ApplicationOutcome(body, generated), insertedId)
  {
    var outcome := Invalid([]);
    if verb == "POST" {
      outcome := ValidateApplication(body, generated);
    }
    var answer := Http.Respond(verb, stored, outcome, insertedId);
    response, after := answer.0, answer.1;
  }

  /**
   * Each message is reported exactly when its field fails its check, the body
   * is accepted exactly when every check holds, and the messages come in check order.
   */
  lemma ApplicationErrorsExact(obj: map<string, Json>)
    ensures forall k :: 0 <= k < ApplicationChecks ==>
      (ApplicationRule(k).message in Errors(ApplicationRule, ApplicationChecks, obj) <==>
       !Passes(ApplicationRule(k), obj))
    ensures Errors(ApplicationRule, ApplicationChecks, obj) == [] <==>
      forall k :: 0 <= k < ApplicationChecks ==> Passes(ApplicationRule(k), obj)
    ensures IsSubsequence(Errors(ApplicationRule, ApplicationChecks, obj), Messages(ApplicationRule, ApplicationChecks))
  {
    assert DistinctMessages(ApplicationRule, ApplicationChecks);
    ErrorsExact(ApplicationRule, ApplicationChecks, obj);
  }

  /** The fields of the stored document as a later GET returns them. */
  function ApplicationFields(d: ApplicationDoc): map<string, Json> {
    map["applicationId" := JStr(d.applicationId), "listingId" := JStr(d.listingId), "groupId" := JStr(d.groupId)]
  }

  /** The references are stored untrimmed: a body is accepted exactly when both are non-blank strings, and they are kept verbatim. */
  lemma ApplicationKeepsReferences(body: Json, generated: string)
    requires body.JObj?
    ensures ApplicationOutcome(body, generated).Valid? <==>
      && IsNonEmptyString(Field(body.fields, "listingId"))
      && IsNonEmptyString(Field(body.fields, "groupId"))
      && (Field(body.fields, "applicationId").None? || IsString(Field(body.fields, "applicationId")))
    ensures ApplicationOutcome(body, generated).Valid? ==>
      && Field(body.fields, "listingId") == Some(JStr(ApplicationOutcome(body, generated).doc.listingId))
      && Field(body.fields, "groupId") == Some(JStr(ApplicationOutcome(body, generated).doc.groupId))
  {
    var obj := body.fields;
    if Errors(ApplicationRule, ApplicationChecks, obj) == [] {
      ErrorsNoneAt(ApplicationRule, ApplicationChecks, obj, 0);
      ErrorsNoneAt(ApplicationRule, ApplicationChecks, obj, 1);
      ErrorsNoneAt(ApplicationRule, ApplicationChecks, obj, 2);
    }
    if Passes(ApplicationRule(0), obj) && Passes(ApplicationRule(1), obj) && Passes(ApplicationRule(2), obj) {
      ErrorsNoneYet(ApplicationRule, 0, obj);
      ErrorsNoneYet(ApplicationRule, 1, obj);
      ErrorsNoneYet(ApplicationRule, 2, obj);
    }
  }

  /**
   * Posting a stored application again is accepted and stores the same
   * document, whatever id would have been generated.
   */
  lemma ApplicationRevalidate(body: Json, generated: string, generated2: string)
    requires generated != ""
    requires ApplicationOutcome(body, generated).Valid?
    ensures ApplicationOutcome(JObj(ApplicationFields(ApplicationOutcome(body, generated).doc)), generated2) ==
            ApplicationOutcome(body, generated)
  {
    var obj := body.fields;
    ErrorsNoneAt(ApplicationRule, ApplicationChecks, obj, 0);
    ErrorsNoneAt(ApplicationRule, ApplicationChecks, obj, 1);
    var fields := ApplicationFields(ApplicationDocOf(obj, generated));
    ErrorsNoneYet(ApplicationRule, 0, fields);
    ErrorsNoneYet(ApplicationRule, 1, fields);
    ErrorsNoneYet(ApplicationRule, 2, fields);
  }
}
