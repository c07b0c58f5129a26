/** The rule-based personality scorer of the prediction route
    (app/api/predict/route.ts, function predictPersonality).

    The specification side of this module states the scorer declaratively:
    each of the seven scoring rules is a function giving the points it awards,
    the two scores are the sum of those contributions, and the insight list is
    the ordered list of the insight rules that fired, cut to four entries.
    The method PredictPersonality is the imperative scorer as the route runs it
    (two mutable counters and an insight list built by appending) and is proved
    equal to that specification. */
module Scoring {

  datatype Option<T> = None | Some(value: T)

  /** One respondent's seven answers. Numeric answers are reals because the
      time-alone slider moves in steps of 0.5; the two Yes/No answers are
      strings, compared with exact equality to "Yes". */
  datatype Answers = Answers(
    timeSpentAlone: real,
    stageFear: string,
    socialEventAttendance: real,
    goingOutside: real,
    drainedAfterSocializing: string,
    friendsCircleSize: real,
    postFrequency: real)

  /** What the route returns on success. */
  datatype Prediction = Prediction(
    prediction: Personality,
    confidence: real,
    personalityType: Personality,
    insights: seq<Insight>)

  /** Points awarded to the introvert and the extrovert side. */
  datatype Points = Points(introvert: int, extrovert: int)

  /** The two labels; Name gives the string the route sends. */
  datatype Personality = Introvert | Extrovert

  function Name(l: Personality): string {
    match l
    case Introvert => "Introvert"
    case Extrovert => "Extrovert"
  }

  const YES := "Yes"

  /** The number of insights the route keeps. */
  const MAX_INSIGHTS := 4

  /** The ten canned insights. The model carries each as a tag; Message
      gives the sentence the route sends for it. */
  datatype Insight =
    | AloneTime | SocialPreference
    | Nervous | Comfortable
    | SmallGatherings | SeeksEvents
    | Drained | Energized
    | SmallCircle | LargeNetwork

  function Message(i: Insight): string {
    match i
    case AloneTime => "You value significant alone time for reflection and recharging"
    case SocialPreference => "You prefer being around others and gain energy from social interaction"
    case Nervous => "Public speaking makes you nervous, which is common for introverts"
    case Comfortable => "You feel comfortable speaking in public, showing extroverted confidence"
    case SmallGatherings => "You prefer smaller, intimate gatherings over large social events"
    case SeeksEvents => "You actively seek out and enjoy social gatherings and events"
    case Drained => "Social interactions drain your energy, requiring recovery time"
    case Energized => "Social interactions energize you and make you feel more alive"
    case SmallCircle => "You prefer a small, close-knit circle of deep friendships"
    case LargeNetwork => "You maintain a large network of friends and acquaintances"
  }

  // ---------------------------------------------------------------------
  // Scoring rules
  // ---------------------------------------------------------------------

  /** A rule's contribution: one or two points, none negative. */
  predicate OneOrTwo(p: Points) {
    p.introvert >= 0 && p.extrovert >= 0 && 1 <= p.introvert + p.extrovert <= 2
  }

  /** ... and all of them to one side. */
  predicate OneSided(p: Points) {
    OneOrTwo(p) && (p.introvert == 0 || p.extrovert == 0)
  }

  function Sum(p: Points, q: Points): Points {
    Points(p.introvert + q.introvert, p.extrovert + q.extrovert)
  }

  /** Rule 1: more than 8 hours alone is strongly introvert, more than 4 mildly;
      otherwise one point (not two) to the extrovert side. */
  function AloneTimePoints(hours: real): Points {
    if hours > 8.0 then Points(2, 0)
    else if hours > 4.0 then Points(1, 0)
    else Points(0, 1)
  }

  /** Rules 2 and 5: exactly "Yes" gives two introvert points, any other
      string two extrovert points. */
  function YesNoPoints(answer: string): Points {
    if answer == YES then Points(2, 0) else Points(0, 2)
  }

  /** Rules 3, 4, 6 and 7: at most `low` gives two introvert points, at most
      `mid` one introvert point, anything above two extrovert points. Each
      rule passes its own literal thresholds. */
  function TieredPoints(x: real, low: real, mid: real): Points {
    if x <= low then Points(2, 0)
    else if x <= mid then Points(1, 0)
    else Points(0, 2)
  }

  /** Rule 1 is one-sided; it leans introvert exactly above 4 hours, strongly
      exactly above 8, and gives the extrovert side at most one point. */
  lemma AloneTimeRule(hours: real)
    ensures var p := AloneTimePoints(hours);
      && OneSided(p)
      && (p.introvert > 0 <==> hours > 4.0)
      && (p.introvert == 2 <==> hours > 8.0)
      && p.extrovert <= 1
  {
  }

  /** Rules 2 and 5 are one-sided and give two points either way: to the
      introvert side exactly when the answer is "Yes". */
  lemma YesNoRule(answer: string)
    ensures var p := YesNoPoints(answer);
      && OneSided(p)
      && (p.introvert == 2 <==> answer == YES)
      && (p.extrovert == 2 <==> answer != YES)
  {
  }

  /** Rules 3, 4, 6 and 7 are one-sided; they lean extrovert exactly above
      `mid`, strongly introvert exactly at or below `low`, and never give the
      extrovert side a single point. */
  lemma TieredRule(x: real, low: real, mid: real)
    requires low < mid
    ensures var p := TieredPoints(x, low, mid);
      && OneSided(p)
      && (p.extrovert > 0 <==> x > mid)
      && (p.introvert == 2 <==> x <= low)
      && (p.introvert == 1 <==> low < x <= mid)
      && p.extrovert != 1
  {
  }

  function Size(p: Points): int {
    p.introvert + p.extrovert
  }

  /** The two scores: on each side, the points the seven rules award it. */
  function Scores(a: Answers): Points {
    var q1, q2, q3, q4, q5, q6, q7 :=
      AloneTimePoints(a.timeSpentAlone), YesNoPoints(a.stageFear),
      TieredPoints(a.socialEventAttendance, 3.0, 6.0), TieredPoints(a.goingOutside, 3.0, 6.0),
      YesNoPoints(a.drainedAfterSocializing), TieredPoints(a.friendsCircleSize, 3.0, 8.0),
      TieredPoints(a.postFrequency, 3.0, 6.0);
    Points(q1.introvert + q2.introvert + q3.introvert + q4.introvert + q5.introvert + q6.introvert + q7.introvert,
           q1.extrovert + q2.extrovert + q3.extrovert + q4.extrovert + q5.extrovert + q6.extrovert + q7.extrovert)
  }

  /** Since each of the seven rules adds one or two points to one side, both
      scores are non-negative and their total lies in [7, 14]; in particular
      it is never zero. */
  lemma ScoreBounds(a: Answers)
    ensures Scores(a).introvert >= 0 && Scores(a).extrovert >= 0
    ensures 7 <= Size(Scores(a)) <= 14
  {
    SevenRules(
      AloneTimePoints(a.timeSpentAlone), YesNoPoints(a.stageFear),
      TieredPoints(a.socialEventAttendance, 3.0, 6.0), TieredPoints(a.goingOutside, 3.0, 6.0),
      YesNoPoints(a.drainedAfterSocializing), TieredPoints(a.friendsCircleSize, 3.0, 8.0),
      TieredPoints(a.postFrequency, 3.0, 6.0));
  }

  /** Seven contributions of one or two points give each side a non-negative score and
      both sides together between 7 and 14 points. */
  lemma SevenRules(q1: Points, q2: Points, q3: Points, q4: Points, q5: Points, q6: Points, q7: Points)
    requires OneOrTwo(q1) && OneOrTwo(q2) && OneOrTwo(q3) && OneOrTwo(q4)
    requires OneOrTwo(q5) && OneOrTwo(q6) && OneOrTwo(q7)
    ensures var i := q1.introvert + q2.introvert + q3.introvert + q4.introvert + q5.introvert + q6.introvert + q7.introvert;
      var e := q1.extrovert + q2.extrovert + q3.extrovert + q4.extrovert + q5.extrovert + q6.extrovert + q7.extrovert;
      i >= 0 && e >= 0 && 7 <= i + e <= 14
  {
  }

  // ---------------------------------------------------------------------
  // Label and confidence
  // ---------------------------------------------------------------------

  /** Strict comparison on the introvert side: a tie is "Extrovert". */
  function Label(p: Points): Personality {
    if p.introvert > p.extrovert then Introvert else Extrovert
  }

  function Max(x: int, y: int): (m: int)
    ensures m >= x && m >= y && (m == x || m == y)
  {
    if x >= y then x else y
  }

  /** The winning score's share of the total. */
  function Confidence(p: Points): real
    requires Size(p) > 0
  {
    (Max(p.introvert, p.extrovert) as real) / (Size(p) as real)
  }

  /** The confidence is at least one half and at most one; it is exactly one
      when a side has no points, and exactly one half on a tie. */
  lemma ConfidenceBounds(p: Points)
    requires p.introvert >= 0 && p.extrovert >= 0 && Size(p) > 0
    ensures 0.5 <= Confidence(p) <= 1.0
    ensures Confidence(p) == 1.0 <==> p.introvert == 0 || p.extrovert == 0
    ensures Confidence(p) == 0.5 <==> p.introvert == p.extrovert
  {
    var m := Max(p.introvert, p.extrovert);
    ShareBounds(m, Size(p) - m);
  }

  /** For a larger part m and a smaller part n of a positive whole, the
      larger part's share. */
  lemma ShareBounds(m: nat, n: nat)
    requires m >= n && m + n > 0
    ensures 0.5 <= (m as real) / ((m + n) as real) <= 1.0
    ensures (m as real) / ((m + n) as real) == 1.0 <==> n == 0
    ensures (m as real) / ((m + n) as real) == 0.5 <==> m == n
  {
    var t := (m + n) as real;
    var c := (m as real) / t;
    assert c * t == m as real;
    assert (c - 0.5) * t == 0.5 * ((m - n) as real);
    assert (1.0 - c) * t == n as real;
    ProductSign(c - 0.5, t);
    ProductSign(1.0 - c, t);
  }

  /** A product with a positive factor has the other factor's sign. */
  lemma ProductSign(x: real, t: real)
    requires t > 0.0
    ensures x * t >= 0.0 <==> x >= 0.0
    ensures x * t == 0.0 <==> x == 0.0
  {
  }

  // ---------------------------------------------------------------------
  // Insights
  // ---------------------------------------------------------------------

  /** More than 8 hours alone, or fewer than 3; nothing in between. */
  function AloneTimeInsight(hours: real): Option<Insight> {
    if hours > 8.0 then Some(AloneTime)
    else if hours < 3.0 then Some(SocialPreference)
    else None
  }

  /** Always one of two insights. */
  function StageFearInsight(answer: string): Insight {
    if answer == YES then Nervous else Comfortable
  }

  /** At most 3 events, or at least 7; nothing strictly in between. */
  function SocialEventInsight(x: real): Option<Insight> {
    if x <= 3.0 then Some(SmallGatherings)
    else if x >= 7.0 then Some(SeeksEvents)
    else None
  }

  /** Always one of two insights. */
  function DrainedInsight(answer: string): Insight {
    if answer == YES then Drained else Energized
  }

  /** At most 3 friends, or at least 10; nothing strictly in between. */
  function FriendsCircleInsight(x: real): Option<Insight> {
    if x <= 3.0 then Some(SmallCircle)
    else if x >= 10.0 then Some(LargeNetwork)
    else None
  }

  /** The alone-time insight rule: strictly more than 8 hours, strictly fewer
      than 3, and silent on [3, 8]. */
  lemma AloneTimeInsightRule(hours: real)
    ensures var r := AloneTimeInsight(hours);
      && (r.None? <==> 3.0 <= hours <= 8.0)
      && (r == Some(AloneTime) <==> hours > 8.0)
      && (r == Some(SocialPreference) <==> hours < 3.0)
  {
  }

  /** The two always-firing insight rules key on exactly "Yes". */
  lemma YesNoInsightRules(answer: string)
    ensures StageFearInsight(answer) == Nervous <==> answer == YES
    ensures StageFearInsight(answer) == Comfortable <==> answer != YES
    ensures DrainedInsight(answer) == Drained <==> answer == YES
    ensures DrainedInsight(answer) == Energized <==> answer != YES
  {
  }

  /** The social-event insight rule: at most 3, at least 7, silent strictly
      in between. */
  lemma SocialEventInsightRule(x: real)
    ensures var r := SocialEventInsight(x);
      && (r.None? <==> 3.0 < x < 7.0)
      && (r == Some(SmallGatherings) <==> x <= 3.0)
      && (r == Some(SeeksEvents) <==> x >= 7.0)
  {
  }

  /** The friends-circle insight rule: at most 3, at least 10, silent
      strictly in between. */
  lemma FriendsCircleInsightRule(x: real)
    ensures var r := FriendsCircleInsight(x);
      && (r.None? <==> 3.0 < x < 10.0)
      && (r == Some(SmallCircle) <==> x <= 3.0)
      && (r == Some(LargeNetwork) <==> x >= 10.0)
  {
  }

  /** An insight rule's outcome as a list of zero or one entries. */
  function Listed(o: Option<Insight>): (s: seq<Insight>)
    ensures |s| <= 1 && (|s| == 1 <==> o.Some?)
  {
    if o.Some? then [o.value] else []
  }

  /** The insights of the rules that fired, in evaluation order: the
      stage-fear and the drained rules always fire, the other three may not. */
  function Fired(a: Answers): (r: seq<Insight>)
    ensures 2 <= |r| <= 5
    ensures StageFearInsight(a.stageFear) in r && DrainedInsight(a.drainedAfterSocializing) in r
  {
    Listed(AloneTimeInsight(a.timeSpentAlone)) + [StageFearInsight(a.stageFear)]
    + Listed(SocialEventInsight(a.socialEventAttendance)) + [DrainedInsight(a.drainedAfterSocializing)]
    + Listed(FriendsCircleInsight(a.friendsCircleSize))
  }

  /** The first n entries, or all of them when there are fewer (an array's
      slice(0, n)). */
  function Prefix(s: seq<Insight>, n: nat): (r: seq<Insight>)
    ensures |r| == if |s| <= n then |s| else n
    ensures r <= s
  {
    if |s| <= n then s else s[..n]
  }

  function Insights(a: Answers): seq<Insight> {
    Prefix(Fired(a), MAX_INSIGHTS)
  }

  /** The specification of the scorer. */
  function Classify(a: Answers): Prediction {
    ScoreBounds(a);
    var p := Scores(a);
    Prediction(Label(p), Confidence(p), Label(p), Insights(a))
  }

  // ---------------------------------------------------------------------
  // The scorer as the route runs it
  // ---------------------------------------------------------------------

  /** The route's scorer: two counters start at zero and each scoring rule
      adds to one of them; the label and the confidence are read off the
      counters; the insight list starts empty, each insight rule may append to
      it, and the list is then cut to four entries. */
  method PredictPersonality(a: Answers) returns (r: Prediction)
    ensures r == Classify(a)
  {
    var introvertScore, extrovertScore := CountScores(a);
    ScoreBounds(a);

    var personality, confidence := ReadScores(introvertScore, extrovertScore);

    var insights := CollectInsights(a);

    var kept := if |insights| <= MAX_INSIGHTS then insights else insights[..MAX_INSIGHTS];
    r := Prediction(personality, confidence, personality, kept);

    assert kept == Prefix(insights, MAX_INSIGHTS);
    ResultIsClassify(a, Points(introvertScore, extrovertScore), insights);
  }

  /** The label and the confidence read off the two counters: the winning
      counter over their sum, and "Introvert" only on a strict win. */
  method ReadScores(introvertScore: int, extrovertScore: int) returns (personality: Personality, confidence: real)
    requires introvertScore + extrovertScore > 0
    ensures personality == Label(Points(introvertScore, extrovertScore))
    ensures confidence == Confidence(Points(introvertScore, extrovertScore))
  {
    var totalScore := introvertScore + extrovertScore;
    confidence := (Max(introvertScore, extrovertScore) as real) / (totalScore as real);
    personality := if introvertScore > extrovertScore then Introvert else Extrovert;
  }

  /** The specification's result, in terms of the two scores and the list of
      insights that fired. */
  lemma ResultIsClassify(a: Answers, p: Points, insights: seq<Insight>)
    requires p == Scores(a) && Size(p) > 0 && insights == Fired(a)
    ensures Classify(a) == Prediction(Label(p), Confidence(p), Label(p), Prefix(insights, MAX_INSIGHTS))
  {
  }

  /** The seven scoring rules, applied in order to two counters that start
      at zero. Each rule is a method of its own below, so that the verifier
      checks the rules one at a time. */
  method CountScores(a: Answers) returns (introvertScore: int, extrovertScore: int)
    ensures Points(introvertScore, extrovertScore) == Scores(a)
  {
    introvertScore, extrovertScore := 0, 0;
    introvertScore, extrovertScore := AddAloneTime(a.timeSpentAlone, introvertScore, extrovertScore);
    introvertScore, extrovertScore := AddYesNo(a.stageFear, introvertScore, extrovertScore);
    introvertScore, extrovertScore := AddTiered(a.socialEventAttendance, 3.0, 6.0, introvertScore, extrovertScore);
    introvertScore, extrovertScore := AddTiered(a.goingOutside, 3.0, 6.0, introvertScore, extrovertScore);
    introvertScore, extrovertScore := AddYesNo(a.drainedAfterSocializing, introvertScore, extrovertScore);
    introvertScore, extrovertScore := AddTiered(a.friendsCircleSize, 3.0, 8.0, introvertScore, extrovertScore);
    introvertScore, extrovertScore := AddTiered(a.postFrequency, 3.0, 6.0, introvertScore, extrovertScore);
  }

  /** Rule 1 applied to the running counters. */
  method AddAloneTime(hours: real, introvertScore: int, extrovertScore: int)
    returns (introvert: int, extrovert: int)
    ensures Points(introvert, extrovert) == Sum(Points(introvertScore, extrovertScore), AloneTimePoints(hours))
  {
    introvert, extrovert := introvertScore, extrovertScore;
    if hours > 8.0 { introvert := introvert + 2; }
    else if hours > 4.0 { introvert := introvert + 1; }
    else { extrovert := extrovert + 1; }
  }

  /** Rules 2 and 5 applied to the running counters. */
  method AddYesNo(answer: string, introvertScore: int, extrovertScore: int)
    returns (introvert: int, extrovert: int)
    ensures Points(introvert, extrovert) == Sum(Points(introvertScore, extrovertScore), YesNoPoints(answer))
  {
    introvert, extrovert := introvertScore, extrovertScore;
    if answer == YES { introvert := introvert + 2; }
    else { extrovert := extrovert + 2; }
  }

  /** Rules 3, 4, 6 and 7 applied to the running counters. */
  method AddTiered(x: real, low: real, mid: real, introvertScore: int, extrovertScore: int)
    returns (introvert: int, extrovert: int)
    ensures Points(introvert, extrovert) == Sum(Points(introvertScore, extrovertScore), TieredPoints(x, low, mid))
  {
    introvert, extrovert := introvertScore, extrovertScore;
    if x <= low { introvert := introvert + 2; }
    else if x <= mid { introvert := introvert + 1; }
    else { extrovert := extrovert + 2; }
  }

  /** The five insight rules, applied in order to a list that starts empty. */
  method CollectInsights(a: Answers) returns (insights: seq<Insight>)
    ensures insights == Fired(a)
  {
    insights := [];
    ghost var alone, social, friends :=
      AloneTimeInsight(a.timeSpentAlone), SocialEventInsight(a.socialEventAttendance),
      FriendsCircleInsight(a.friendsCircleSize);

    if a.timeSpentAlone > 8.0 { insights := insights + [AloneTime]; }
    else if a.timeSpentAlone < 3.0 { insights := insights + [SocialPreference]; }
    assert insights == Listed(alone);

    if a.stageFear == YES { insights := insights + [Nervous]; }
    else { insights := insights + [Comfortable]; }
    assert insights == Listed(alone) + [StageFearInsight(a.stageFear)];

    if a.socialEventAttendance <= 3.0 { insights := insights + [SmallGatherings]; }
    else if a.socialEventAttendance >= 7.0 { insights := insights + [SeeksEvents]; }
    assert insights == Listed(alone) + [StageFearInsight(a.stageFear)] + Listed(social);

    if a.drainedAfterSocializing == YES { insights := insights + [Drained]; }
    else { insights := insights + [Energized]; }
    assert insights == Listed(alone) + [StageFearInsight(a.stageFear)] + Listed(social) + [DrainedInsight(a.drainedAfterSocializing)];

    if a.friendsCircleSize <= 3.0 { insights := insights + [SmallCircle]; }
    else if a.friendsCircleSize >= 10.0 { insights := insights + [LargeNetwork]; }
    assert insights == Listed(alone) + [StageFearInsight(a.stageFear)] + Listed(social)
      + [DrainedInsight(a.drainedAfterSocializing)] + Listed(friends);
  }
}
