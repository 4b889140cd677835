/**
 * The request handling shared by the four serverless endpoints: GET lists
 * the collection, POST validates and inserts, anything else is refused.
 * The collection is the sequence of stored documents in the database's
 * natural order; the identifier the database gives an inserted document is
 * a parameter.
 */
module Http {
  import opened Common
  import opened Json

  datatype Payload<D> =
    | Documents(docs: seq<D>)
    | ErrorList(errors: seq<string>)
    | InsertedId(id: string)
    | Text(text: string)

  datatype Response<D> = Response(status: int, allow: seq<string>, payload: Payload<D>)

  /** `find({}).limit(100)`: at most the first hundred stored documents. */
  function FirstPage<D>(stored: seq<D>): (r: seq<D>)
    ensures |r| <= 100 && |r| <= |stored| && r == stored[..|r|]
    ensures |stored| <= 100 ==> r == stored
    ensures |stored| > 100 ==> |r| == 100
  {
    stored[..Min(100, |stored|)]
  }

  /**
   * What a handler answers and what the collection holds afterwards, given the
   * request verb and what the resource's validator makes of the body.
   */
  function Respond<D>(verb: string, stored: seq<D>, outcome: Validation<D>, insertedId: string)
    : (r: (Response<D>, seq<D>))
    ensures r.0.status in {200, 201, 400, 405}
    ensures r.0.status == 200 <==> verb == "GET"
    ensures r.0.status == 200 ==> r.0.payload == Documents(FirstPage(stored)) && r.1 == stored
    ensures r.0.status == 400 <==> verb == "POST" && outcome.Invalid?
    ensures r.0.status == 400 ==> r.0.payload == ErrorList(outcome.errors) && r.1 == stored
    ensures r.0.status == 201 <==> verb == "POST" && outcome.Valid?
    ensures r.0.status == 201 ==> r.0.payload == InsertedId(insertedId) && r.1 == stored + [outcome.doc]
    ensures r.0.status == 405 ==>
              r.0.allow == ["GET", "POST"] && r.0.payload == Text("Method Not Allowed") && r.1 == stored
  {
    if verb == "GET" then
      (Response(200, [], Documents(FirstPage(stored))), stored)
    else if verb == "POST" then
      match outcome
      case Invalid(errors) => (Response(400, [], ErrorList(errors)), stored)
      case Valid(doc) => (Response(201, [], InsertedId(insertedId)), stored + [doc])
    else
      (Response(405, ["GET", "POST"], Text("Method Not Allowed")), stored)
  }
}
