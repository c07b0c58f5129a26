/** The POST handler of the prediction route (app/api/predict/route.ts,
    function POST): it parses the request body as JSON, checks that the seven
    answers are present, runs the scorer and answers with the prediction,
    with a 400 naming the first missing answer, or with a 500 when the body
    cannot be read.

    The JSON parser itself is not modelled: the handler receives the outcome
    of parsing as a Body. */
module Route {
  import opened Scoring

  /** A JSON value as far as the handler looks at it: "Other" stands for
      booleans, arrays and objects. */
  datatype Value = Null | Number(number: real) | Text(text: string) | Other

  /** The outcome of request.json(): an object, some other JSON value
      (array, number, string or boolean), the literal null, or a body that is
      not JSON at all. */
  datatype Body =
    | Object(fields: map<string, Value>)
    | NonObject
    | NullLiteral
    | Malformed

  datatype Payload = Error(error: string) | Result(result: Prediction)

  datatype Response = Response(status: int, payload: Payload)

  /** The seven answers, in the order the handler checks them. */
  const REQUIRED_FIELDS: seq<string> := [
    "time_spent_alone",
    "stage_fear",
    "social_event_attendance",
    "going_outside",
    "drained_after_socializing",
    "friends_circle_size",
    "post_frequency"
  ]

  const MISSING_FIELD := "Missing required field: "
  const INTERNAL_ERROR := "Internal server error"

  /** A body whose properties can be read: the handler indexes it without
      throwing. */
  predicate Readable(body: Body) {
    body.Object? || body.NonObject?
  }

  /** The properties of the parsed body: those of an object, none at all for
      any other JSON value (indexing it gives undefined). */
  function FieldsOf(body: Body): map<string, Value>
    requires Readable(body)
  {
    if body.Object? then body.fields else map[]
  }

  /** body[name] is neither undefined (a missing key) nor null. */
  predicate Present(fields: map<string, Value>, name: string) {
    name in fields && fields[name] != Null
  }

  /** All seven answers are present. */
  predicate AllPresent(fields: map<string, Value>) {
    forall j :: 0 <= j < |REQUIRED_FIELDS| ==> Present(fields, REQUIRED_FIELDS[j])
  }

  /** The index of the first name in `names` that is not present, if any. */
  function FirstMissing(fields: map<string, Value>, names: seq<string>): (r: Option<nat>)
    ensures r.None? <==> forall j :: 0 <= j < |names| ==> Present(fields, names[j])
    ensures r.Some? ==>
      && r.value < |names|
      && !Present(fields, names[r.value])
      && forall j :: 0 <= j < r.value ==> Present(fields, names[j])
  {
    if names == [] then None
    else if !Present(fields, names[0]) then Some(0)
    else
      var rest := FirstMissing(fields, names[1..]);
      assert forall j :: 0 < j < |names| ==> names[j] == names[1..][j - 1];
      if rest.None? then None else Some(rest.value + 1)
  }

  /** A numeric answer that is present is a JSON number. */
  predicate NumberIfPresent(fields: map<string, Value>, name: string) {
    Present(fields, name) ==> fields[name].Number?
  }

  /** The scorer compares the five numeric answers with numbers; the model
      asks that they be JSON numbers (see README, "Left out"). */
  predicate NumbersTyped(body: Body) {
    Readable(body) ==>
      var fields := FieldsOf(body);
      && NumberIfPresent(fields, "time_spent_alone")
      && NumberIfPresent(fields, "social_event_attendance")
      && NumberIfPresent(fields, "going_outside")
      && NumberIfPresent(fields, "friends_circle_size")
      && NumberIfPresent(fields, "post_frequency")
  }

  /** A Yes/No answer as the scorer sees it: the scorer only asks whether it
      is strictly equal to "Yes", so a value that is not a string becomes the
      empty string, which is not "Yes" either. */
  function YesNoText(v: Value): (s: string)
    ensures s == YES <==> v == Text(YES)
  {
    if v.Text? then v.text else ""
  }

  /** The seven answers of a body in which all are present. */
  function ToAnswers(fields: map<string, Value>): Answers
    requires AllPresent(fields)
    requires NumbersTyped(Object(fields))
  {
    assert Present(fields, REQUIRED_FIELDS[0]) && Present(fields, REQUIRED_FIELDS[1]);
    assert Present(fields, REQUIRED_FIELDS[2]) && Present(fields, REQUIRED_FIELDS[3]);
    assert Present(fields, REQUIRED_FIELDS[4]) && Present(fields, REQUIRED_FIELDS[5]);
    assert Present(fields, REQUIRED_FIELDS[6]);
    Answers(
      fields["time_spent_alone"].number,
      YesNoText(fields["stage_fear"]),
      fields["social_event_attendance"].number,
      fields["going_outside"].number,
      YesNoText(fields["drained_after_socializing"]),
      fields["friends_circle_size"].number,
      fields["post_frequency"].number)
  }

  /** The specification of the handler. */
  function Respond(body: Body): Response
    requires NumbersTyped(body)
  {
    if !Readable(body) then
      Response(500, Error(INTERNAL_ERROR))
    else
      var fields := FieldsOf(body);
      var missing := FirstMissing(fields, REQUIRED_FIELDS);
      if missing.Some? then
        Response(400, Error(MISSING_FIELD + REQUIRED_FIELDS[missing.value]))
      else
        Response(200, Result(Classify(ToAnswers(fields))))
  }

  /** The handler: a body that cannot be read (not JSON, or the literal null,
      whose indexing throws) ends in the catch block; otherwise the required
      fields are checked in order, the first missing one ends the request
      with a 400, and when all are there the scorer's result is returned. */
  method Post(body: Body) returns (resp: Response)
    requires NumbersTyped(body)
    ensures resp == Respond(body)
  {
    if !Readable(body) {
      return Response(500, Error(INTERNAL_ERROR));
    }
    var fields := FieldsOf(body);

    var i := 0;
    while i < |REQUIRED_FIELDS|
      invariant 0 <= i <= |REQUIRED_FIELDS|
      invariant forall j :: 0 <= j < i ==> Present(fields, REQUIRED_FIELDS[j])
    {
      var field := REQUIRED_FIELDS[i];
      if !(field in fields) || fields[field] == Null {
        MissingIsFirst(fields, i);
        return Response(400, Error(MISSING_FIELD + field));
      }
      i := i + 1;
    }

    var results := PredictPersonality(ToAnswers(fields));
    return Response(200, Result(results));
  }

  /** When the fields before index i are present and the one at i is not,
      i is the first missing one. */
  lemma MissingIsFirst(fields: map<string, Value>, i: nat)
    requires i < |REQUIRED_FIELDS|
    requires forall j :: 0 <= j < i ==> Present(fields, REQUIRED_FIELDS[j])
    requires !Present(fields, REQUIRED_FIELDS[i])
    ensures FirstMissing(fields, REQUIRED_FIELDS) == Some(i)
  {
  }
}
