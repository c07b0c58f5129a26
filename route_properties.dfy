/** What the POST handler of app/api/predict/route.ts promises, proved about
    its specification Route.Respond (which Route.Post is proved to compute). */
module RouteProperties {
  import opened Scoring
  import opened ScoringProperties
  import opened Route

  /** The three outcomes: 500 exactly when the body cannot be read, 400
      exactly when it can but some answer is missing or null, 200 otherwise. */
  lemma StatusCodes(body: Body)
    requires NumbersTyped(body)
    ensures var r := Respond(body);
      && (r.status == 200 || r.status == 400 || r.status == 500)
      && (r.status == 500 <==> !Readable(body))
      && (r.status == 500 ==> r.payload == Error(INTERNAL_ERROR))
      && (r.status == 400 <==> Readable(body) && !AllPresent(FieldsOf(body)))
      && (r.status == 200 <==> Readable(body) && AllPresent(FieldsOf(body)))
      && (r.status == 200 <==> r.payload.Result?)
  {
  }

  /** The 400 names the first answer, in the handler's order, that is missing
      or null. */
  lemma MissingFieldNamed(body: Body, k: nat)
    requires NumbersTyped(body) && Readable(body)
    requires k < |REQUIRED_FIELDS| && !Present(FieldsOf(body), REQUIRED_FIELDS[k])
    requires forall j :: 0 <= j < k ==> Present(FieldsOf(body), REQUIRED_FIELDS[j])
    ensures Respond(body) == Response(400, Error(MISSING_FIELD + REQUIRED_FIELDS[k]))
  {
    MissingIsFirst(FieldsOf(body), k);
  }

  /** A JSON value that is not an object has none of the answers, so the
      first one is reported. */
  lemma NonObjectBody()
    ensures Respond(NonObject) == Response(400, Error("Missing required field: time_spent_alone"))
  {
    MissingFieldNamed(NonObject, 0);
    assert MISSING_FIELD + REQUIRED_FIELDS[0] == "Missing required field: time_spent_alone";
  }

  /** An empty object is reported the same way. */
  lemma EmptyObjectBody()
    ensures Respond(Object(map[])) == Response(400, Error("Missing required field: time_spent_alone"))
  {
    MissingFieldNamed(Object(map[]), 0);
    assert MISSING_FIELD + REQUIRED_FIELDS[0] == "Missing required field: time_spent_alone";
  }

  /** When every answer is there, the reply carries the scorer's prediction,
      with a confidence in [1/2, 1] and two to four insights. */
  lemma SuccessfulPrediction(body: Body)
    requires NumbersTyped(body) && Readable(body) && AllPresent(FieldsOf(body))
    ensures var r := Respond(body);
      && r.status == 200
      && r.payload.Result?
      && r.payload.result == Classify(ToAnswers(FieldsOf(body)))
      && 0.5 <= r.payload.result.confidence <= 1.0
      && 2 <= |r.payload.result.insights| <= MAX_INSIGHTS
  {
    ConfidenceRange(ToAnswers(FieldsOf(body)));
    InsightCount(ToAnswers(FieldsOf(body)));
  }

  /** f and g hold the same value under `name`, or both lack it. */
  predicate AgreeAt(f: map<string, Value>, g: map<string, Value>, name: string) {
    (name in f <==> name in g) && (name in f ==> f[name] == g[name])
  }

  /** Only the seven answers matter: two objects that agree on them get the
      same reply. */
  lemma SameAnswersSameReply(f: map<string, Value>, g: map<string, Value>)
    requires forall j :: 0 <= j < |REQUIRED_FIELDS| ==> AgreeAt(f, g, REQUIRED_FIELDS[j])
    requires NumbersTyped(Object(f))
    ensures NumbersTyped(Object(g))
    ensures Respond(Object(f)) == Respond(Object(g))
  {
    assert AgreeAt(f, g, REQUIRED_FIELDS[0]) && AgreeAt(f, g, REQUIRED_FIELDS[1]);
    assert AgreeAt(f, g, REQUIRED_FIELDS[2]) && AgreeAt(f, g, REQUIRED_FIELDS[3]);
    assert AgreeAt(f, g, REQUIRED_FIELDS[4]) && AgreeAt(f, g, REQUIRED_FIELDS[5]);
    assert AgreeAt(f, g, REQUIRED_FIELDS[6]);
    SameMissing(f, g);
  }

  /** A key that is not one of the answers changes nothing. */
  lemma ExtraFieldIgnored(fields: map<string, Value>, name: string, v: Value)
    requires name !in REQUIRED_FIELDS
    requires NumbersTyped(Object(fields))
    ensures NumbersTyped(Object(fields[name := v]))
    ensures Respond(Object(fields[name := v])) == Respond(Object(fields))
  {
    SameAnswersSameReply(fields, fields[name := v]);
  }

  /** A null answer is treated exactly as an absent one. */
  lemma NullLikeAbsent(fields: map<string, Value>, name: string)
    requires NumbersTyped(Object(fields))
    ensures NumbersTyped(Object(fields[name := Null]))
    ensures NumbersTyped(Object(fields - {name}))
    ensures Respond(Object(fields[name := Null])) == Respond(Object(fields - {name}))
  {
    var nulled, removed := fields[name := Null], fields - {name};
    if name in REQUIRED_FIELDS {
      var k :| 0 <= k < |REQUIRED_FIELDS| && REQUIRED_FIELDS[k] == name;
      assert !Present(nulled, REQUIRED_FIELDS[k]) && !Present(removed, REQUIRED_FIELDS[k]);
      SameMissing(nulled, removed);
    } else {
      SameAnswersSameReply(fields, nulled);
      SameAnswersSameReply(fields, removed);
    }
  }

  /** Two bodies that agree on which answers are present fail on the same
      one. */
  lemma {:induction false} SameMissing(f: map<string, Value>, g: map<string, Value>)
    requires forall j :: 0 <= j < |REQUIRED_FIELDS| ==> (Present(f, REQUIRED_FIELDS[j]) <==> Present(g, REQUIRED_FIELDS[j]))
    ensures FirstMissing(f, REQUIRED_FIELDS) == FirstMissing(g, REQUIRED_FIELDS)
  {
    SameMissingFrom(f, g, REQUIRED_FIELDS);
  }

  lemma {:induction false} SameMissingFrom(f: map<string, Value>, g: map<string, Value>, names: seq<string>)
    requires forall j :: 0 <= j < |names| ==> (Present(f, names[j]) <==> Present(g, names[j]))
    ensures FirstMissing(f, names) == FirstMissing(g, names)
  {
    if names != [] {
      assert forall j :: 0 <= j < |names| - 1 ==> names[1..][j] == names[j + 1];
      SameMissingFrom(f, g, names[1..]);
    }
  }
}
