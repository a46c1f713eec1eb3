/** The benchmark rating engine of the results screen
    (screens/ResultsScreen.js): a constant threshold table keyed by test,
    gender and age band, the age-to-band function and the tiering of a
    score against a row of the table. */
module Ratings {
  import opened Wrappers
  import JsValues

  /** One row of the table. The `poor` threshold is shown by the
      benchmark screen but never consulted by the tiering below. */
  datatype Thresholds = Thresholds(excellent: real, good: real, average: real, poor: real)

  /** The four age-band labels, in the order the benchmark screen offers them. */
  const AgeLabels: seq<string> := ["8-12", "13-17", "18-25", "26-35"]

  /** The band used for every age outside all four bands, and for `NaN`. */
  const DefaultAgeGroup: string := "18-25"

  /** Inclusive bounds of the band a band names. */
  function BandRange(band: string): (int, int)
    requires band in AgeLabels
  {
    if band == "8-12" then (8, 12)
    else if band == "13-17" then (13, 17)
    else if band == "18-25" then (18, 25)
    else (26, 35)
  }

  predicate InBand(age: int, band: string)
    requires band in AgeLabels
  {
    BandRange(band).0 <= age <= BandRange(band).1
  }

  /** `getAgeGroup`: the band containing the age, or `'18-25'` when no
      band contains it (including a `NaN` age, here `None`). */
  function AgeGroup(age: Option<int>): (band: string)
    ensures band in AgeLabels
    ensures age.Some? && 8 <= age.value <= 35 ==> InBand(age.value, band)
    ensures !(age.Some? && 8 <= age.value <= 35) ==> band == DefaultAgeGroup
  {
    if age.Some? && 8 <= age.value <= 12 then "8-12"
    else if age.Some? && 13 <= age.value <= 17 then "13-17"
    else if age.Some? && 18 <= age.value <= 25 then "18-25"
    else if age.Some? && 26 <= age.value <= 35 then "26-35"
    else DefaultAgeGroup
  }

  /** The bands do not overlap, so the band `AgeGroup` picks for an age in
      8..35 is the only one containing it. */
  lemma BandsDisjoint(age: int, l1: string, l2: string)
    requires l1 in AgeLabels && l2 in AgeLabels
    requires InBand(age, l1) && InBand(age, l2)
    ensures l1 == l2
  {
  }

  /** The bands together cover exactly the ages 8..35. */
  lemma BandsCover(age: int)
    ensures (exists l :: l in AgeLabels && InBand(age, l)) <==> 8 <= age <= 35
  {
    if 8 <= age <= 35 {
      var l := AgeGroup(Some(age));
      assert l in AgeLabels && InBand(age, l);
    }
  }

  /** `BENCHMARKS` of the results screen: vertical_jump and sit_ups are
      higher-is-better (rows descending), shuttle_run lower-is-better
      (rows ascending). There are no rows for push_ups or flexibility and
      no gender other than 'male' and 'female'. */
  const Benchmarks: map<string, map<string, map<string, Thresholds>>> := map[
    "vertical_jump" := map[
      "male" := map[
        "8-12" := Thresholds(35.0, 28.0, 22.0, 15.0),
        "13-17" := Thresholds(45.0, 38.0, 30.0, 22.0),
        "18-25" := Thresholds(50.0, 42.0, 35.0, 28.0),
        "26-35" := Thresholds(45.0, 38.0, 30.0, 23.0)],
      "female" := map[
        "8-12" := Thresholds(30.0, 24.0, 18.0, 12.0),
        "13-17" := Thresholds(38.0, 32.0, 25.0, 18.0),
        "18-25" := Thresholds(40.0, 34.0, 27.0, 20.0),
        "26-35" := Thresholds(35.0, 29.0, 22.0, 16.0)]],
    "shuttle_run" := map[
      "male" := map[
        "8-12" := Thresholds(11.5, 12.5, 13.5, 15.0),
        "13-17" := Thresholds(10.0, 11.0, 12.0, 13.5),
        "18-25" := Thresholds(9.5, 10.5, 11.5, 13.0),
        "26-35" := Thresholds(10.0, 11.0, 12.0, 13.5)],
      "female" := map[
        "8-12" := Thresholds(12.0, 13.0, 14.0, 15.5),
        "13-17" := Thresholds(11.0, 12.0, 13.0, 14.5),
        "18-25" := Thresholds(10.5, 11.5, 12.5, 14.0),
        "26-35" := Thresholds(11.0, 12.0, 13.0, 14.5)]],
    "sit_ups" := map[
      "male" := map[
        "8-12" := Thresholds(35.0, 28.0, 22.0, 15.0),
        "13-17" := Thresholds(45.0, 38.0, 30.0, 22.0),
        "18-25" := Thresholds(50.0, 42.0, 35.0, 25.0),
        "26-35" := Thresholds(45.0, 38.0, 30.0, 20.0)],
      "female" := map[
        "8-12" := Thresholds(30.0, 24.0, 18.0, 12.0),
        "13-17" := Thresholds(40.0, 32.0, 25.0, 18.0),
        "18-25" := Thresholds(42.0, 35.0, 28.0, 20.0),
        "26-35" := Thresholds(38.0, 30.0, 23.0, 15.0)]]
  ]

  /** `BENCHMARKS[testId]?.[gender]?.[ageGroup]`; an undefined gender is `None`. */
  function Lookup(testId: string, gender: Option<string>, ageGroup: string): (row: Option<Thresholds>)
    ensures row.Some? <==> testId in Benchmarks && gender.Some? && gender.value in Benchmarks[testId]
                           && ageGroup in Benchmarks[testId][gender.value]
    ensures row.Some? ==> row.value == Benchmarks[testId][gender.value][ageGroup]
  {
    if testId in Benchmarks && gender.Some? && gender.value in Benchmarks[testId]
       && ageGroup in Benchmarks[testId][gender.value]
    then Some(Benchmarks[testId][gender.value][ageGroup])
    else None
  }

  /** Thresholds strictly improving from `average` through `good` to
      `excellent` (and `poor` below `average`), in the test's direction. */
  predicate Ordered(row: Thresholds, lowerIsBetter: bool) {
    if lowerIsBetter then row.excellent < row.good < row.average < row.poor
    else row.excellent > row.good > row.average > row.poor
  }

  /** The only lower-is-better test of this table. */
  predicate LowerIsBetter(testId: string) { testId == "shuttle_run" }

  /** Every row of the table is ordered in its test's direction. */
  lemma TableOrdered(testId: string, gender: string, ageGroup: string)
    requires Lookup(testId, Some(gender), ageGroup).Some?
    ensures Ordered(Lookup(testId, Some(gender), ageGroup).value, LowerIsBetter(testId))
  {
  }

  /** Every test of the table has rows for both genders and all four bands. */
  lemma TableComplete(testId: string, gender: string, ageGroup: string)
    requires testId in Benchmarks && (gender == "male" || gender == "female") && ageGroup in AgeLabels
    ensures Lookup(testId, Some(gender), ageGroup).Some?
  {
  }

  datatype Tier = Excellent | Good | Average | NeedsImprovement

  /** What the screen shows: a band and a colour. */
  datatype Rating = Rating(rating: string, color: string)

  const NotAvailable: Rating := Rating("N/A", "#666")

  function Display(t: Tier): (r: Rating)
    ensures r != NotAvailable
  {
    match t
    case Excellent => Rating("Excellent", "#4CAF50")
    case Good => Rating("Good", "#8BC34A")
    case Average => Rating("Average", "#FF9800")
    case NeedsImprovement => Rating("Needs Improvement", "#f44336")
  }

  /** Each tier has its own band and its own colour. */
  lemma DisplayInjective(t1: Tier, t2: Tier)
    ensures Display(t1).rating == Display(t2).rating <==> t1 == t2
    ensures Display(t1).color == Display(t2).color <==> t1 == t2
  {
  }

  function Rank(t: Tier): nat {
    match t
    case Excellent => 3
    case Good => 2
    case Average => 1
    case NeedsImprovement => 0
  }

  /** Whether a score reaches a threshold in the test's direction. A `NaN`
      score (`None`) reaches none, as every comparison with `NaN` is false. */
  predicate Meets(score: Option<real>, threshold: real, lowerIsBetter: bool) {
    score.Some? && (if lowerIsBetter then score.value <= threshold else score.value >= threshold)
  }

  /** The comparison chain of `getPerformanceRating` for one row. */
  function Classify(row: Thresholds, score: Option<real>, lowerIsBetter: bool): Tier {
    if Meets(score, row.excellent, lowerIsBetter) then Excellent
    else if Meets(score, row.good, lowerIsBetter) then Good
    else if Meets(score, row.average, lowerIsBetter) then Average
    else NeedsImprovement
  }

  /** `getPerformanceRating` with the table lookup resolved: `None` when no row exists. */
  function TierOf(testId: string, score: Option<real>, gender: Option<string>, age: Option<string>): Option<Tier> {
    var ageGroup := AgeGroup(JsValues.ParseIntOf(age));
    match Lookup(testId, gender, ageGroup)
    case None => None
    case Some(row) => Some(Classify(row, score, LowerIsBetter(testId)))
  }

  /** `getPerformanceRating(testId, score, gender, age)`: 'N/A' in grey
      exactly when the table has no row for the test, gender and band of
      the age; otherwise one of the four tier ratings. */
  function GetPerformanceRating(testId: string, score: Option<real>, gender: Option<string>, age: Option<string>): (r: Rating)
    ensures r == NotAvailable <==> Lookup(testId, gender, AgeGroup(JsValues.ParseIntOf(age))).None?
    ensures r != NotAvailable ==> exists t: Tier :: r == Display(t)
  {
    match TierOf(testId, score, gender, age)
    case None => NotAvailable
    case Some(t) => Display(t)
  }

  /** The rank of the tier equals the number of thresholds among
      `excellent`, `good` and `average` that the score reaches, for an
      ordered row: tiers are the intervals the thresholds cut. */
  lemma RankCountsThresholdsMet(row: Thresholds, score: Option<real>, lowerIsBetter: bool)
    requires Ordered(row, lowerIsBetter)
    ensures Rank(Classify(row, score, lowerIsBetter)) ==
      (if Meets(score, row.excellent, lowerIsBetter) then 1 else 0) +
      (if Meets(score, row.good, lowerIsBetter) then 1 else 0) +
      (if Meets(score, row.average, lowerIsBetter) then 1 else 0)
  {
  }

  /** Boundaries are inclusive: a score equal to a threshold of an ordered
      row reaches that threshold's tier, whatever the direction. */
  lemma BoundariesInclusive(row: Thresholds, lowerIsBetter: bool)
    requires Ordered(row, lowerIsBetter)
    ensures Classify(row, Some(row.excellent), lowerIsBetter) == Excellent
    ensures Classify(row, Some(row.good), lowerIsBetter) == Good
    ensures Classify(row, Some(row.average), lowerIsBetter) == Average
    ensures Classify(row, Some(row.poor), lowerIsBetter) == NeedsImprovement
  {
  }

  /** A better score never gets a lower tier: raising it for a
      higher-is-better test, lowering it for a lower-is-better one. */
  lemma ClassifyMonotone(row: Thresholds, s1: real, s2: real, lowerIsBetter: bool)
    requires if lowerIsBetter then s2 <= s1 else s1 <= s2
    ensures Rank(Classify(row, Some(s1), lowerIsBetter)) <= Rank(Classify(row, Some(s2), lowerIsBetter))
  {
  }

  /** The `poor` threshold is never consulted: the tier does not depend on
      it, and on an ordered row any score that misses `average` is rated
      Needs Improvement, however far below `poor` it is. */
  lemma PoorIgnored(row: Thresholds, poor: real, score: Option<real>, lowerIsBetter: bool)
    ensures Classify(row, score, lowerIsBetter) == Classify(row.(poor := poor), score, lowerIsBetter)
    ensures Ordered(row, lowerIsBetter) && !Meets(score, row.average, lowerIsBetter) ==>
              Classify(row, score, lowerIsBetter) == NeedsImprovement
  {
  }

  /** For the table itself: a score exactly on a row's `excellent` value
      is rated Excellent, in both directions. */
  lemma ExcellentAtThreshold(testId: string, gender: string, age: Option<string>)
    requires Lookup(testId, Some(gender), AgeGroup(JsValues.ParseIntOf(age))).Some?
    ensures GetPerformanceRating(testId,
              Some(Lookup(testId, Some(gender), AgeGroup(JsValues.ParseIntOf(age))).value.excellent),
              Some(gender), age) == Display(Excellent)
  {
  }

  /** For the table itself: a better score never lowers the rating. */
  lemma RatingMonotone(testId: string, s1: real, s2: real, gender: Option<string>, age: Option<string>)
    requires if LowerIsBetter(testId) then s2 <= s1 else s1 <= s2
    requires TierOf(testId, Some(s1), gender, age).Some?
    ensures TierOf(testId, Some(s2), gender, age).Some?
    ensures Rank(TierOf(testId, Some(s1), gender, age).value) <= Rank(TierOf(testId, Some(s2), gender, age).value)
  {
    var row := Lookup(testId, gender, AgeGroup(JsValues.ParseIntOf(age))).value;
    ClassifyMonotone(row, s1, s2, LowerIsBetter(testId));
  }

  /** Missing rows give 'N/A' without failing: tests absent from the table
      (push_ups, flexibility), the gender 'other', and an undefined gender. */
  lemma MissingRowsNotAvailable(score: Option<real>, age: Option<string>, testId: string, gender: Option<string>)
    requires testId in {"push_ups", "flexibility"} || gender == Some("other") || gender.None?
    ensures GetPerformanceRating(testId, score, gender, age) == NotAvailable
  {
  }

  /** A score that does not parse as a number is rated Needs Improvement
      whenever a row exists. */
  lemma NaNScoreNeedsImprovement(testId: string, gender: Option<string>, age: Option<string>)
    requires TierOf(testId, None, gender, age).Some?
    ensures GetPerformanceRating(testId, None, gender, age) == Display(NeedsImprovement)
  {
  }
}
