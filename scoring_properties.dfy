/** What the scorer of app/api/predict/route.ts promises, proved about its
    specification Scoring.Classify (which Scoring.PredictPersonality is proved
    to compute). */
module ScoringProperties {
  import opened Scoring

  function Count(o: Option<Insight>): nat {
    if o.Some? then 1 else 0
  }

  function Min(x: int, y: int): int {
    if x <= y then x else y
  }

  // ---------------------------------------------------------------------
  // Scores, label and confidence
  // ---------------------------------------------------------------------

  /** The alone-time rule gives the extrovert side at most one point, so the
      extrovert score never exceeds 13, while the introvert score can reach
      14 (see AllIntrovertAnswers). */
  lemma ExtrovertScoreCap(a: Answers)
    ensures Scores(a).extrovert <= 13
  {
    AloneTimeRule(a.timeSpentAlone);
    YesNoRule(a.stageFear);
    TieredRule(a.socialEventAttendance, 3.0, 6.0);
    TieredRule(a.goingOutside, 3.0, 6.0);
    YesNoRule(a.drainedAfterSocializing);
    TieredRule(a.friendsCircleSize, 3.0, 8.0);
    TieredRule(a.postFrequency, 3.0, 6.0);
  }

  /** The confidence is the winning share: in [1/2, 1], exactly 1 when one
      side scored nothing, exactly 1/2 on a tie. */
  lemma ConfidenceRange(a: Answers)
    ensures 0.5 <= Classify(a).confidence <= 1.0
    ensures Classify(a).confidence == 1.0 <==> Scores(a).introvert == 0 || Scores(a).extrovert == 0
    ensures Classify(a).confidence == 0.5 <==> Scores(a).introvert == Scores(a).extrovert
  {
    ScoreBounds(a);
    ConfidenceBounds(Scores(a));
  }

  /** "Introvert" exactly when the introvert score is strictly larger, so a
      tie is "Extrovert"; and the label is repeated as personality_type. */
  lemma LabelTieBreak(a: Answers)
    ensures var r, p := Classify(a), Scores(a);
      && (r.prediction == Introvert <==> p.introvert > p.extrovert)
      && (r.prediction == Extrovert <==> p.introvert <= p.extrovert)
      && (p.introvert == p.extrovert ==> r.prediction == Extrovert)
      && r.personalityType == r.prediction
  {
    ScoreBounds(a);
  }

  /** The label and the confidence of any two positive scores. */
  lemma LabelShare(p: Points)
    requires Size(p) > 0
    ensures Label(p) == Introvert <==> p.introvert > p.extrovert
    ensures Confidence(p) * ((p.introvert + p.extrovert) as real)
         == (if Label(p) == Introvert then p.introvert else p.extrovert) as real
  {
  }

  /** Any stage-fear or drained answer other than exactly "Yes" takes the
      extrovert branch of its scoring rule and yields the comfortable or the
      energized insight; exactly "Yes" yields the introvert branch and the
      nervous or the drained insight. */
  lemma YesNoBranches(a: Answers)
    ensures a.stageFear != YES ==> YesNoPoints(a.stageFear) == Points(0, 2) && Comfortable in Insights(a)
    ensures a.stageFear == YES ==> YesNoPoints(a.stageFear) == Points(2, 0) && Nervous in Insights(a)
    ensures a.drainedAfterSocializing != YES ==>
      YesNoPoints(a.drainedAfterSocializing) == Points(0, 2) && Energized in Insights(a)
    ensures a.drainedAfterSocializing == YES ==>
      YesNoPoints(a.drainedAfterSocializing) == Points(2, 0) && Drained in Insights(a)
  {
    InsightsShape(a);
  }

  // ---------------------------------------------------------------------
  // Insights
  // ---------------------------------------------------------------------

  /** Which insights survive the cut to four: all that fired, except the
      friends-circle insight when the alone-time and the social-event rules
      both fired as well. */
  lemma InsightsShape(a: Answers)
    ensures var alone, social, friends :=
      AloneTimeInsight(a.timeSpentAlone), SocialEventInsight(a.socialEventAttendance),
      FriendsCircleInsight(a.friendsCircleSize);
      Insights(a) ==
        Listed(alone) + [StageFearInsight(a.stageFear)] + Listed(social)
        + [DrainedInsight(a.drainedAfterSocializing)]
        + (if alone.Some? && social.Some? then [] else Listed(friends))
  {
  }

  /** Between two and four insights: the stage-fear and the drained rules
      always add one, the other three add zero or one, and the list is cut
      to four. */
  lemma InsightCount(a: Answers)
    ensures |Insights(a)| == Min(MAX_INSIGHTS, 2 + Count(AloneTimeInsight(a.timeSpentAlone))
      + Count(SocialEventInsight(a.socialEventAttendance)) + Count(FriendsCircleInsight(a.friendsCircleSize)))
    ensures 2 <= |Insights(a)| <= 4
  {
  }

  /** The insights are a prefix of the insights that fired, in evaluation
      order; the stage-fear and the drained insights are always kept; the
      alone-time and the social-event insights are kept exactly when they
      fired; the friends-circle insight is the only one that can be dropped,
      and it is dropped exactly when the alone-time and the social-event rules
      both fired. */
  lemma InsightsKept(a: Answers)
    ensures Insights(a) <= Fired(a)
    ensures StageFearInsight(a.stageFear) in Insights(a)
    ensures DrainedInsight(a.drainedAfterSocializing) in Insights(a)
    ensures var alone := AloneTimeInsight(a.timeSpentAlone);
      alone.Some? ==> alone.value in Insights(a)
    ensures var social := SocialEventInsight(a.socialEventAttendance);
      social.Some? ==> social.value in Insights(a)
    ensures var alone, social, friends :=
      AloneTimeInsight(a.timeSpentAlone), SocialEventInsight(a.socialEventAttendance),
      FriendsCircleInsight(a.friendsCircleSize);
      friends.Some? ==> (friends.value in Insights(a) <==> !(alone.Some? && social.Some?))
    ensures |Fired(a)| > MAX_INSIGHTS ==>
      && FriendsCircleInsight(a.friendsCircleSize).Some?
      && Fired(a) == Insights(a) + [FriendsCircleInsight(a.friendsCircleSize).value]
  {
    InsightsShape(a);
  }

  // ---------------------------------------------------------------------
  // Concrete answer records
  // ---------------------------------------------------------------------

  /** All answers at the introvert extreme. */
  const ALL_INTROVERT := Answers(10.0, "Yes", 2.0, 1.0, "Yes", 2.0, 1.0)
  /** All answers at the extrovert extreme. */
  const ALL_EXTROVERT := Answers(1.0, "No", 9.0, 9.0, "No", 12.0, 9.0)
  /** Mid-range answers with "No" to both questions. */
  const MID_RANGE := Answers(12.0, "No", 5.0, 5.0, "No", 7.5, 5.0)
  /** Answers that tie at six points each. */
  const TIED := Answers(6.0, "Yes", 9.0, 9.0, "No", 5.0, 3.0)

  /** Every point goes to the introvert side. */
  lemma AllIntrovertScores()
    ensures Scores(ALL_INTROVERT) == Points(14, 0)
  {
  }

  /** All five insight rules fire; the small-circle insight is cut as the
      fifth. */
  lemma AllIntrovertInsights()
    ensures Fired(ALL_INTROVERT) == [AloneTime, Nervous, SmallGatherings, Drained, SmallCircle]
    ensures Insights(ALL_INTROVERT) == [AloneTime, Nervous, SmallGatherings, Drained]
  {
  }

  lemma AllIntrovertAnswers()
    ensures Classify(ALL_INTROVERT) == Prediction(Introvert, 1.0, Introvert, [AloneTime, Nervous, SmallGatherings, Drained])
  {
    AllIntrovertScores();
    AllIntrovertInsights();
    assert Confidence(Points(14, 0)) == 14.0 / 14.0;
  }

  /** The alone-time rule gives only one point, so the extrovert score is 13,
      not 14. */
  lemma AllExtrovertScores()
    ensures Scores(ALL_EXTROVERT) == Points(0, 13)
  {
  }

  /** All five insight rules fire; the large-network insight is cut as the
      fifth. */
  lemma AllExtrovertInsights()
    ensures Fired(ALL_EXTROVERT) == [SocialPreference, Comfortable, SeeksEvents, Energized, LargeNetwork]
    ensures Insights(ALL_EXTROVERT) == [SocialPreference, Comfortable, SeeksEvents, Energized]
  {
  }

  lemma AllExtrovertAnswers()
    ensures Classify(ALL_EXTROVERT) == Prediction(Extrovert, 1.0, Extrovert, [SocialPreference, Comfortable, SeeksEvents, Energized])
  {
    AllExtrovertScores();
    AllExtrovertInsights();
    assert Confidence(Points(0, 13)) == 13.0 / 13.0;
  }

  /** Six introvert points against four. */
  lemma MidRangeScores()
    ensures Scores(MID_RANGE) == Points(6, 4)
  {
  }

  /** Three insights: the social-event and the friends-circle answers fall in
      their rules' gaps. */
  lemma MidRangeInsights()
    ensures Insights(MID_RANGE) == [AloneTime, Comfortable, Energized]
  {
  }

  lemma MidRangeAnswers()
    ensures Classify(MID_RANGE) == Prediction(Introvert, 0.6, Introvert, [AloneTime, Comfortable, Energized])
  {
    MidRangeScores();
    MidRangeInsights();
    assert Confidence(Points(6, 4)) == 6.0 / 10.0;
  }

  /** Six points each. */
  lemma TiedScores()
    ensures Scores(TIED) == Points(6, 6)
  {
  }

  lemma TiedInsights()
    ensures Insights(TIED) == [Nervous, SeeksEvents, Energized]
  {
  }

  /** A tie is labelled "Extrovert" with confidence 1/2. */
  lemma TiedAnswers()
    ensures Classify(TIED) == Prediction(Extrovert, 0.5, Extrovert, [Nervous, SeeksEvents, Energized])
  {
    TiedScores();
    TiedInsights();
    assert Confidence(Points(6, 6)) == 6.0 / 12.0;
  }
}
