# Personality predictor: the prediction route, in Dafny

This project models the server side of a personality quiz: the route
`app/api/predict/route.ts`. A client posts seven answers:
- hours spent alone;
- stage fear (Yes/No);
- social-event attendance;
- going outside;
- drained after socialising (Yes/No);
- friends-circle size;
- post frequency.

The route validates the answers and works out a prediction with a fixed set of rules:
- a label, "Introvert" or "Extrovert";
- a confidence between one half and one;
- up to four short insights.

Two files model the code as it is written and two prove what it promises:

- `scoring.dfy`, module `Scoring`: the scorer `predictPersonality`.
  - Each scoring rule is a function giving the points it awards.
  - `Scores` sums them.
  - `Label` and `Confidence` read the result off the two scores.
  - Each insight rule is a function giving the insight it adds, if any.
  - `Fired` lists the insights in evaluation order, and `Insights` cuts that list to four.
  - `Classify` is the declarative specification of the scorer.
  - The method `PredictPersonality` is the scorer as the route runs it: two mutable counters, updated rule by rule, and an insight list built by appending, then sliced. It is proved equal to `Classify`.
- `scoring_properties.dfy`, module `ScoringProperties` proves the scorer's properties about `Classify`:
  - score bounds;
  - confidence range;
  - tie-break;
  - how many insights there are, and which one can be dropped;
  - the exact output of four concrete answer records.
- `route.dfy`, module `Route`: the `POST` handler. The parsed request body is a `Body`:
  - a JSON object (a map from key to `Value`);
  - some other JSON value;
  - the literal `null`;
  - a body that is not JSON.

  `Respond` is the handler's specification. The method `Post` is the handler's loop over the seven required field names, with its early return. It is proved equal to `Respond`.
- `route_properties.dfy`, module `RouteProperties` proves the handler's properties about `Respond`:
  - the three status codes;
  - the 400 names the first missing field;
  - a null answer counts as an absent one;
  - keys that are not answers are ignored;
  - a successful reply carries the scorer's prediction unchanged.

Labels and insights are the datatypes `Personality` and `Insight`. `Scoring.Name` and `Scoring.Message` give the exact strings the route sends. The confidence is the exact rational quotient of the two integer scores.

All-extrovert answers score 0 to 13, not 0 to 14, because the alone-time rule gives the extrovert side at most one point (`ScoringProperties.ExtrovertScoreCap`, `ScoringProperties.AllExtrovertScores`).

## Model

| member | source | states |
|---|---|---|
| Scoring.PredictPersonality | app/api/predict/route.ts:4-96 | The scorer's result equals the specification `Classify`: label and `personality_type` from the strict comparison of the two sums of rule points; confidence = larger score / total; insights = the fired insights in evaluation order, cut to four |
| Scoring.CountScores | app/api/predict/route.ts:17-51 | Two counters start at zero and, after the seven rules run in order, equal the introvert and extrovert sums of the seven rules' points |
| Scoring.AddAloneTime | app/api/predict/route.ts:20-23 | Running the alone-time rule adds exactly that rule's points (2/1 introvert above 8/4 hours, else 1 extrovert) to the counters |
| Scoring.AddYesNo | app/api/predict/route.ts:25-27 | Running a Yes/No rule adds 2 introvert points on exactly "Yes", otherwise 2 extrovert points (also the drained rule, lines 39-41) |
| Scoring.AddTiered | app/api/predict/route.ts:29-51 | Running a three-tier rule adds 2 introvert points at or below the low threshold, 1 at or below the middle one, otherwise 2 extrovert points |
| Scoring.AloneTimeRule | app/api/predict/route.ts:20-23 | The alone-time rule gives one or two points to one side only; introvert exactly above 4 hours, two introvert points exactly above 8; at most one extrovert point |
| Scoring.YesNoRule | app/api/predict/route.ts:25-27 | A Yes/No rule gives two points to one side: introvert exactly when the answer is "Yes", extrovert exactly when it is not |
| Scoring.TieredRule | app/api/predict/route.ts:29-51 | A three-tier rule gives one or two points to one side: extrovert exactly above the middle threshold, two introvert points exactly at or below the low one, one exactly in between; never a single extrovert point |
| Scoring.ScoreBounds | app/api/predict/route.ts:17-53 | Both scores are non-negative and their total lies in [7, 14], so the division by the total is never by zero |
| Scoring.SevenRules | app/api/predict/route.ts:20-51 | Seven one-sided contributions of one or two points give non-negative sides and a total between 7 and 14 |
| Scoring.ReadScores | app/api/predict/route.ts:53-55 | From two counters with a positive total: the label is "Introvert" only on a strict win, and the confidence is the winner's share of the total |
| Scoring.ConfidenceBounds | app/api/predict/route.ts:53-54 | The winner's share lies in [1/2, 1]; it is 1 exactly when a side has no points and 1/2 exactly on a tie |
| Scoring.ShareBounds | app/api/predict/route.ts:54 | For parts m >= n of a positive whole, m/(m+n) lies in [1/2, 1], is 1 iff n = 0, and is 1/2 iff m = n |
| Scoring.CollectInsights | app/api/predict/route.ts:57-88 | Starting from an empty list, the five insight rules in order append exactly the insights that fire, in evaluation order |
| Scoring.AloneTimeInsightRule | app/api/predict/route.ts:60-64 | Alone-time insight exactly above 8 hours, social-preference insight exactly below 3, none on [3, 8] |
| Scoring.YesNoInsightRules | app/api/predict/route.ts:66-82 | The stage-fear rule gives the nervous insight exactly on "Yes", otherwise the comfortable one; the drained rule gives the drained insight exactly on "Yes", otherwise the energized one |
| Scoring.SocialEventInsightRule | app/api/predict/route.ts:72-76 | Small-gatherings insight exactly at or below 3, seeks-events insight exactly at or above 7, none strictly in between |
| Scoring.FriendsCircleInsightRule | app/api/predict/route.ts:84-88 | Small-circle insight exactly at or below 3, large-network insight exactly at or above 10, none strictly in between |
| Scoring.Listed | app/api/predict/route.ts:60-88 | A rule that may not fire contributes at most one entry, and one exactly when it fires |
| Scoring.Fired | app/api/predict/route.ts:58-88 | Between two and five insights fire, and the stage-fear and drained insights are always among them |
| Scoring.Prefix | app/api/predict/route.ts:94 | `slice(0, n)` keeps min(n, length) entries and is a prefix of the list |
| Scoring.Max | app/api/predict/route.ts:54 | `Math.max` of two integers is one of them and no smaller than either |
| ScoringProperties.ExtrovertScoreCap | app/api/predict/route.ts:20-51 | The extrovert score never exceeds 13, because the alone-time rule gives it at most one point |
| ScoringProperties.ConfidenceRange | app/api/predict/route.ts:53-54 | For every answer record, the confidence lies in [1/2, 1]; it is 1 exactly when a score is 0 and 1/2 exactly on a tie |
| ScoringProperties.LabelTieBreak | app/api/predict/route.ts:55 | "Introvert" exactly when the introvert score is strictly larger, "Extrovert" exactly otherwise; a tie is "Extrovert"; `personality_type` equals `prediction` (lines 90-93) |
| ScoringProperties.LabelShare | app/api/predict/route.ts:53-55 | For any two scores with a positive total, confidence times total equals the score of the label's side |
| ScoringProperties.YesNoBranches | app/api/predict/route.ts:26-27 | A stage-fear or drained answer other than exactly "Yes" gives 2 extrovert points and keeps the comfortable or energized insight; "Yes" gives 2 introvert points and keeps the nervous or drained insight (also lines 40-41, 66-70, 78-82) |
| ScoringProperties.InsightsShape | app/api/predict/route.ts:58-94 | The returned insights are those that fired, in order, without the friends-circle insight exactly when the alone-time and social-event rules both fired |
| ScoringProperties.InsightCount | app/api/predict/route.ts:58-94 | The number of insights is min(4, 2 + the number of the three optional rules that fired), hence between 2 and 4 |
| ScoringProperties.InsightsKept | app/api/predict/route.ts:58-94 | The insights are a prefix of those that fired; stage-fear and drained are always kept; alone-time and social-event are kept whenever they fire; a fired friends-circle insight is dropped exactly when both of those fired; when five fired, exactly the friends-circle one is cut |
| ScoringProperties.AllIntrovertScores | app/api/predict/route.ts:17-51 | The all-introvert answers score 14 to 0 |
| ScoringProperties.AllIntrovertInsights | app/api/predict/route.ts:58-94 | All five insight rules fire for the all-introvert answers, and the fifth (small circle) is cut |
| ScoringProperties.AllIntrovertAnswers | app/api/predict/route.ts:4-96 | The all-introvert answers give "Introvert" with confidence 1 and the alone-time, nervous, small-gatherings and drained insights |
| ScoringProperties.AllExtrovertScores | app/api/predict/route.ts:17-51 | The all-extrovert answers score 0 to 13 |
| ScoringProperties.AllExtrovertInsights | app/api/predict/route.ts:58-94 | All five insight rules fire for the all-extrovert answers, and the fifth (large network) is cut |
| ScoringProperties.AllExtrovertAnswers | app/api/predict/route.ts:4-96 | The all-extrovert answers give "Extrovert" with confidence 1 and the social-preference, comfortable, seeks-events and energized insights |
| ScoringProperties.MidRangeScores | app/api/predict/route.ts:17-51 | The mid-range record with "No" answers scores 6 to 4 |
| ScoringProperties.MidRangeInsights | app/api/predict/route.ts:58-94 | For that record the social-event and friends-circle answers fall in their rules' gaps, leaving three insights |
| ScoringProperties.MidRangeAnswers | app/api/predict/route.ts:4-96 | That record gives "Introvert" with confidence 0.6 |
| ScoringProperties.TiedScores | app/api/predict/route.ts:17-51 | The tied record scores 6 to 6 |
| ScoringProperties.TiedInsights | app/api/predict/route.ts:58-94 | The tied record gets the nervous, seeks-events and energized insights |
| ScoringProperties.TiedAnswers | app/api/predict/route.ts:53-55 | A 6-6 tie gives "Extrovert" with confidence 1/2 |
| Route.Post | app/api/predict/route.ts:98-127 | The handler's reply equals `Respond`: 500 "Internal server error" when the body does not parse or is null; otherwise the fields are checked in order and the first one that is missing or null gives a 400 naming it, before the scorer is called; with all seven present, a 200 with the scorer's result |
| Route.FirstMissing | app/api/predict/route.ts:113-117 | None exactly when every name is present; otherwise an in-range index whose name is absent or null and before which every name is present |
| Route.MissingIsFirst | app/api/predict/route.ts:113-116 | The field at which the loop stops is the first missing one |
| Route.YesNoText | app/api/predict/route.ts:26 | How the scorer sees a Yes/No value: it equals "Yes" exactly when the JSON value is the string "Yes", as with strict equality (also line 40) |
| RouteProperties.StatusCodes | app/api/predict/route.ts:98-127 | The status is 200, 400 or 500: 500 with the fixed message exactly when the body cannot be read; 400 exactly when it can and a required field is missing or null; 200, with a result payload, exactly when all seven are present |
| RouteProperties.MissingFieldNamed | app/api/predict/route.ts:113-116 | If field k is the first missing or null one, the reply is 400 "Missing required field: " followed by that field's name |
| RouteProperties.NonObjectBody | app/api/predict/route.ts:113-116 | A JSON value that is not an object is missing the first field, `time_spent_alone` |
| RouteProperties.EmptyObjectBody | app/api/predict/route.ts:113-116 | An empty object is reported as missing `time_spent_alone` |
| RouteProperties.SuccessfulPrediction | app/api/predict/route.ts:119-122 | With all fields present, the reply is a 200 whose body is the scorer's prediction unchanged, with confidence in [1/2, 1] and two to four insights |
| RouteProperties.SameAnswersSameReply | app/api/predict/route.ts:113-120 | Two objects that agree on the seven required keys get the same reply |
| RouteProperties.ExtraFieldIgnored | app/api/predict/route.ts:113-120 | Adding or changing a key that is not one of the seven leaves the reply unchanged |
| RouteProperties.NullLikeAbsent | app/api/predict/route.ts:114 | A field set to null gives the same reply as the field removed |
| RouteProperties.SameMissing | app/api/predict/route.ts:113-117 | Two objects that agree on which required fields are present fail validation on the same field |
| RouteProperties.SameMissingFrom | app/api/predict/route.ts:113-117 | The same, for any list of field names (by induction on the list) |

## Left out

- The React pages and components, the Python training and analysis scripts, and the browser side effects (sharing, clipboard, download, `fetch`) are not part of this model. The route does not use any of them.
- Parsing with `request.json()` is not modelled. The handler receives its outcome as a `Body`, and a parse failure is the `Malformed` case, mapped to the 500 reply. Serialization with `NextResponse.json` is not modelled either: a reply is a status and a payload.
- Logging with `console.error` is left out. It is output only.
- Route.Post: requires that each numeric answer, when present, is a JSON number (`NumbersTyped`). The route itself accepts other values and compares them with JavaScript's implicit coercion to number. That coercion, including NaN, is not modelled.
- Numeric answers are exact reals and the confidence is an exact rational. The IEEE double rounding of the division on line 54 is not modelled.
- Inherited properties of JavaScript objects, such as a key like `constructor`, are not modelled. A body's fields are only the keys it contains.
- Any other exception inside the `try` block cannot arise for the modelled inputs. The only modelled path to the `catch` is an unparseable or null body.
- The labels and insight sentences are datatype tags. `Scoring.Name` and `Scoring.Message` map them to the source's exact strings; no property is stated over the strings themselves.
