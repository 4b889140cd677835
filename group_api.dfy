/** The `/api/group` endpoint: request validation, defaulting and method dispatch. */
module GroupApi {
  import opened Common
  import opened Json
  import Http

  /** A group document as stored by the endpoint. */
  datatype GroupDoc = GroupDoc(groupId: string, userIds: seq<string>)

  /** The checks `validateGroup` makes, in the order it makes them. */
  function GroupRule(k: nat): Rule {
    match k
    case 0 => Rule("groupId", OptionalString, "groupId must be a string.")
    case _ => Rule("userIds", OptionalStringArray, "userIds must be an array of strings.")
  }

  const GroupChecks := 2

  /** The document built from a body whose fields passed every check; `generated` is the fresh id. */
  function GroupDocOf(obj: map<string, Json>, generated: string): GroupDoc {
    GroupDoc(
      groupId := StringOrFresh(Field(obj, "groupId"), generated),
      userIds := StringsOr(Field(obj, "userIds"), []))
  }

  /** What validating `body` yields, in terms of the rule table. */
  function GroupOutcome(body: Json, generated: string): Validation<GroupDoc> {
    if !body.JObj? then Invalid([BodyMessage])
    else if Errors(GroupRule, GroupChecks, body.fields) != [] then Invalid(Errors(GroupRule, GroupChecks, body.fields))
    else Valid(GroupDocOf(body.fields, generated))
  }

  /** `validateGroup`: each failed check appends its message; no check stops the others. */
  method ValidateGroup(body: Json, generated: string) returns (r: Validation<GroupDoc>)
    ensures r == GroupOutcome(body, generated)
    ensures !body.JObj? ==> r == Invalid([BodyMessage])
    ensures r.Invalid? ==> r.errors != []
  {
    if !body.JObj? {
      return Invalid([BodyMessage]);
    }
    var obj := body.fields;
    var errors: seq<string> := [];
    errors := ApplyRule(errors, GroupRule(0), obj);
    assert errors == Errors(GroupRule, 1, obj);
    errors := ApplyRule(errors, GroupRule(1), obj);
    assert errors == Errors(GroupRule, 2, obj);
    if |errors| > 0 {
      return Invalid(errors);
    }
    r := Valid(GroupDocOf(obj, generated));
  }

  /** The `/api/group` handler: GET lists, POST validates then inserts, anything else is 405. */
  method HandleGroup(verb: string, body: Json, stored: seq<GroupDoc>, generated: string, insertedId: string)
    returns (response: Http.Response<GroupDoc>, after: seq<GroupDoc>)
    ensures (response, after) == Http.Respond(verb, stored, GroupOutcome(body, generated), insertedId)
  {
    var outcome := Invalid([]);
    if verb == "POST" {
      outcome := ValidateGroup(body, generated);
    }
    var answer := Http.Respond(verb, stored, outcome, insertedId);
    response, after := answer.0, answer.1;
  }

  /** A body is refused exactly when `groupId` is defined but not a string or `userIds` is defined but not a list of strings. */
  lemma GroupErrorsExact(obj: map<string, Json>)
    ensures "groupId must be a string." in Errors(GroupRule, GroupChecks, obj) <==>
      Field(obj, "groupId").Some? && !IsString(Field(obj, "groupId"))
    ensures "userIds must be an array of strings." in Errors(GroupRule, GroupChecks, obj) <==>
      Field(obj, "userIds").Some? && !IsStringArray(Field(obj, "userIds"))
    ensures |Errors(GroupRule, GroupChecks, obj)| <= 2
  {
    assert DistinctMessages(GroupRule, GroupChecks);
    ErrorsExact(GroupRule, GroupChecks, obj);
  }

  /** An object with neither field, such as `{}`, makes a new empty group under the generated id. */
  lemma GroupEmptyBodyAccepted(obj: map<string, Json>, generated: string)
    requires "groupId" !in obj && "userIds" !in obj
    ensures GroupOutcome(JObj(obj), generated) == Valid(GroupDoc(generated, []))
  {
    assert Errors(GroupRule, 1, obj) == [];
  }

  /** The fields of the stored document as a later GET returns them. */
  function GroupFields(d: GroupDoc): map<string, Json> {
    map["groupId" := JStr(d.groupId), "userIds" := JArr(StringItems(d.userIds))]
  }

  /**
   * Posting a stored group again is accepted and stores the same document,
   * whatever id would have been generated.
   */
  lemma GroupRevalidate(body: Json, generated: string, generated2: string)
    requires generated != ""
    requires GroupOutcome(body, generated).Valid?
    ensures GroupOutcome(JObj(GroupFields(GroupOutcome(body, generated).doc)), generated2) ==
            GroupOutcome(body, generated)
  {
    var d := GroupDocOf(body.fields, generated);
    StringsRoundTrip(d.userIds);
    var fields := GroupFields(d);
    ErrorsNoneYet(GroupRule, 0, fields);
    ErrorsNoneYet(GroupRule, 1, fields);
  }
}
