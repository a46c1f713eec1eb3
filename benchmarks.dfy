/** The benchmark screen (screens/BenchmarkScreen.js): its own copy of
    the threshold table, extended with flexibility and a direction flag
    per test, its own copy of the age-to-band function, the label rule of
    a table line, and the selection state that a stored profile seeds. */
module Benchmarks {
  import opened Wrappers
  import JsValues
  import Ratings

  type Thresholds = Ratings.Thresholds

  datatype TestBenchmark = TestBenchmark(
    name: string,
    unit: string,
    description: string,
    higherIsBetter: bool,
    data: map<string, map<string, Thresholds>>)

  const Benchmarks: map<string, TestBenchmark> := map[
    "vertical_jump" := TestBenchmark("Vertical Jump", "cm", "Explosive leg power measurement", true, map[
      "male" := map[
        "8-12" := Ratings.Thresholds(35.0, 28.0, 22.0, 15.0),
        "13-17" := Ratings.Thresholds(45.0, 38.0, 30.0, 22.0),
        "18-25" := Ratings.Thresholds(50.0, 42.0, 35.0, 28.0),
        "26-35" := Ratings.Thresholds(45.0, 38.0, 30.0, 23.0)],
      "female" := map[
        "8-12" := Ratings.Thresholds(30.0, 24.0, 18.0, 12.0),
        "13-17" := Ratings.Thresholds(38.0, 32.0, 25.0, 18.0),
        "18-25" := Ratings.Thresholds(40.0, 34.0, 27.0, 20.0),
        "26-35" := Ratings.Thresholds(35.0, 29.0, 22.0, 16.0)]]),
    "shuttle_run" := TestBenchmark("Shuttle Run (4x10m)", "seconds", "Speed and agility assessment", false, map[
      "male" := map[
        "8-12" := Ratings.Thresholds(11.5, 12.5, 13.5, 15.0),
        "13-17" := Ratings.Thresholds(10.0, 11.0, 12.0, 13.5),
        "18-25" := Ratings.Thresholds(9.5, 10.5, 11.5, 13.0),
        "26-35" := Ratings.Thresholds(10.0, 11.0, 12.0, 13.5)],
      "female" := map[
        "8-12" := Ratings.Thresholds(12.0, 13.0, 14.0, 15.5),
        "13-17" := Ratings.Thresholds(11.0, 12.0, 13.0, 14.5),
        "18-25" := Ratings.Thresholds(10.5, 11.5, 12.5, 14.0),
        "26-35" := Ratings.Thresholds(11.0, 12.0, 13.0, 14.5)]]),
    "sit_ups" := TestBenchmark("Sit-ups (1 minute)", "repetitions", "Core strength and endurance", true, map[
      "male" := map[
        "8-12" := Ratings.Thresholds(35.0, 28.0, 22.0, 15.0),
        "13-17" := Ratings.Thresholds(45.0, 38.0, 30.0, 22.0),
        "18-25" := Ratings.Thresholds(50.0, 42.0, 35.0, 25.0),
        "26-35" := Ratings.Thresholds(45.0, 38.0, 30.0, 20.0)],
      "female" := map[
        "8-12" := Ratings.Thresholds(30.0, 24.0, 18.0, 12.0),
        "13-17" := Ratings.Thresholds(40.0, 32.0, 25.0, 18.0),
        "18-25" := Ratings.Thresholds(42.0, 35.0, 28.0, 20.0),
        "26-35" := Ratings.Thresholds(38.0, 30.0, 23.0, 15.0)]]),
    "flexibility" := TestBenchmark("Flexibility Test", "cm", "Range of motion assessment", true, map[
      "male" := map[
        "8-12" := Ratings.Thresholds(20.0, 15.0, 10.0, 5.0),
        "13-17" := Ratings.Thresholds(25.0, 20.0, 15.0, 8.0),
        "18-25" := Ratings.Thresholds(30.0, 25.0, 18.0, 10.0),
        "26-35" := Ratings.Thresholds(25.0, 20.0, 15.0, 8.0)],
      "female" := map[
        "8-12" := Ratings.Thresholds(25.0, 20.0, 15.0, 8.0),
        "13-17" := Ratings.Thresholds(30.0, 25.0, 20.0, 12.0),
        "18-25" := Ratings.Thresholds(35.0, 30.0, 23.0, 15.0),
        "26-35" := Ratings.Thresholds(30.0, 25.0, 20.0, 12.0)]])
  ]

  const PerformanceColors: map<string, string> := map[
    "excellent" := "#4CAF50", "good" := "#8BC34A", "average" := "#FF9800", "poor" := "#f44336"]

  /** The choices the filter offers. */
  const FilterGenders: seq<string> := ["male", "female"]
  const FilterAgeGroups: seq<string> := ["8-12", "13-17", "18-25", "26-35"]

  /** This screen's own `getAgeGroup`. */
  function AgeGroup(age: Option<int>): (band: string)
    ensures band in FilterAgeGroups
  {
    if age.Some? && 8 <= age.value <= 12 then "8-12"
    else if age.Some? && 13 <= age.value <= 17 then "13-17"
    else if age.Some? && 18 <= age.value <= 25 then "18-25"
    else if age.Some? && 26 <= age.value <= 35 then "26-35"
    else "18-25"
  }

  /** The two copies of `getAgeGroup` agree on every age, `NaN` included,
      and the filter offers exactly the results screen's bands. */
  lemma AgeGroupsAgree(age: Option<int>)
    ensures AgeGroup(age) == Ratings.AgeGroup(age)
    ensures FilterAgeGroups == Ratings.AgeLabels
  {
  }

  /** Every test has a row for each gender and age band the filter offers. */
  lemma TableComplete(testId: string, gender: string, ageGroup: string)
    requires testId in Benchmarks && gender in FilterGenders && ageGroup in FilterAgeGroups
    ensures gender in Benchmarks[testId].data && ageGroup in Benchmarks[testId].data[gender]
  {
  }

  /** Within each row the thresholds are strictly descending for a
      higher-is-better test and strictly ascending otherwise. */
  lemma RowsOrdered(testId: string, gender: string, ageGroup: string)
    requires testId in Benchmarks && gender in Benchmarks[testId].data && ageGroup in Benchmarks[testId].data[gender]
    ensures Ratings.Ordered(Benchmarks[testId].data[gender][ageGroup], !Benchmarks[testId].higherIsBetter)
  {
  }

  /** The results screen's table is this table without flexibility: the
      same rows for every test it has, and its hard-coded shuttle_run
      special case is exactly this table's lower-is-better flag. */
  lemma CopiesAgree(testId: string)
    requires testId in Ratings.Benchmarks
    ensures testId in Benchmarks
    ensures Benchmarks[testId].data == Ratings.Benchmarks[testId]
    ensures Ratings.LowerIsBetter(testId) <==> !Benchmarks[testId].higherIsBetter
  {
  }

  /** The two screens colour the tiers alike. */
  lemma ColorsAgree()
    ensures PerformanceColors["excellent"] == Ratings.Display(Ratings.Excellent).color
    ensures PerformanceColors["good"] == Ratings.Display(Ratings.Good).color
    ensures PerformanceColors["average"] == Ratings.Display(Ratings.Average).color
    ensures PerformanceColors["poor"] == Ratings.Display(Ratings.NeedsImprovement).color
  {
  }

  /** The value shown on a table line: the threshold (as rendered), a `+`
      for higher-is-better or a `-` otherwise, a space and the unit. */
  function ValueLabel(value: string, unit: string, higherIsBetter: bool): (s: string)
    ensures |s| == |value| + 2 + |unit|
    ensures s[..|value|] == value && s[|value| + 1..] == " " + unit
    ensures s[|value|] == '+' <==> higherIsBetter
    ensures s[|value|] == '-' <==> !higherIsBetter
  {
    value + (if higherIsBetter then "+" else "-") + " " + unit
  }

  function DirectionNote(higherIsBetter: bool): string {
    if higherIsBetter then "Higher scores indicate better performance"
    else "Lower scores indicate better performance"
  }

  /** The suffix of every line and the note under the table follow the
      same flag: `+` goes with "Higher", `-` with "Lower". */
  lemma LabelAndNoteAgree(testId: string, value: string)
    requires testId in Benchmarks
    ensures var t := Benchmarks[testId];
      ValueLabel(value, t.unit, t.higherIsBetter)[|value|] == '+' <==>
      DirectionNote(t.higherIsBetter) == "Higher scores indicate better performance"
  {
  }

  /** `testData.data[selectedGender][selectedAge]` as JavaScript evaluates
      it: indexing `undefined` (a gender without data) throws a
      TypeError, and so does reading `.excellent` of a missing row. */
  function TableRow(testId: string, gender: string, ageGroup: string): (r: Result<Thresholds, string>)
    requires testId in Benchmarks
    ensures r.Ok? <==> gender in Benchmarks[testId].data && ageGroup in Benchmarks[testId].data[gender]
    ensures r.Ok? ==> r.value == Benchmarks[testId].data[gender][ageGroup]
  {
    var data := Benchmarks[testId].data;
    if gender !in data then Err("TypeError")
    else if ageGroup !in data[gender] then Err("TypeError")
    else Ok(data[gender][ageGroup])
  }

  /** The selection `loadProfile` makes from a stored profile, as written:
      the profile's gender whenever it is truthy, and the band of
      `parseInt(age)` whenever the age is truthy. */
  function ProfileSelection(profile: map<string, string>, gender: string, ageGroup: string): (sel: (string, string))
    ensures JsValues.Truthy(JsValues.Field(profile, "gender")) ==> sel.0 == profile["gender"]
    ensures !JsValues.Truthy(JsValues.Field(profile, "gender")) ==> sel.0 == gender
    ensures JsValues.Truthy(JsValues.Field(profile, "age")) ==> sel.1 == AgeGroup(JsValues.ParseInt(profile["age"]))
    ensures !JsValues.Truthy(JsValues.Field(profile, "age")) ==> sel.1 == ageGroup
  {
    (if JsValues.Truthy(JsValues.Field(profile, "gender")) then profile["gender"] else gender,
     if JsValues.Truthy(JsValues.Field(profile, "age")) then AgeGroup(JsValues.ParseInt(profile["age"])) else ageGroup)
  }

  /** The same selection, taking the profile's gender only when the table
      has data for it, so that the table line can always be looked up. */
  function CheckedProfileSelection(profile: map<string, string>, gender: string, ageGroup: string): (sel: (string, string))
    ensures sel.1 == ProfileSelection(profile, gender, ageGroup).1
    ensures sel.0 == ProfileSelection(profile, gender, ageGroup).0 || sel.0 == gender
    ensures sel.0 != gender ==> sel.0 in FilterGenders
    ensures ProfileSelection(profile, gender, ageGroup).0 in FilterGenders ==> sel.0 == ProfileSelection(profile, gender, ageGroup).0
  {
    var (g, a) := ProfileSelection(profile, gender, ageGroup);
    (if g in FilterGenders then g else gender, a)
  }

  /** A selection whose table line can be looked up without an error. */
  predicate Resolves(testId: string, gender: string, ageGroup: string) {
    testId in Benchmarks && TableRow(testId, gender, ageGroup).Ok?
  }

  /** As written, the profile gender 'other' (one of the three genders the
      profile form offers) is selected, and the table line then throws. */
  lemma OtherGenderBreaksLookup(testId: string, ageGroup: string)
    requires testId in Benchmarks
    ensures ProfileSelection(map["gender" := "other"], "male", ageGroup).0 == "other"
    ensures !Resolves(testId, ProfileSelection(map["gender" := "other"], "male", ageGroup).0, ageGroup)
  {
  }

  /** With the checked selection every stored profile keeps a selection
      that resolves. */
  lemma CheckedSelectionResolves(profile: map<string, string>, testId: string, gender: string, ageGroup: string)
    requires Resolves(testId, gender, ageGroup)
    ensures var sel := CheckedProfileSelection(profile, gender, ageGroup);
      Resolves(testId, sel.0, sel.1)
  {
    var sel := CheckedProfileSelection(profile, gender, ageGroup);
    if sel.0 != gender {
      TableComplete(testId, sel.0, sel.1);
    } else if sel.1 != ageGroup {
      assert sel.1 in FilterAgeGroups;
      assert gender in Benchmarks[testId].data;
      assert gender in FilterGenders;
      TableComplete(testId, gender, sel.1);
    }
  }

  /** The screen's selection state. */
  class BenchmarkView {
    var athleteProfile: map<string, string>
    var selectedTest: string
    var selectedGender: string
    var selectedAge: string

    /** Defaults: vertical_jump, male, 18-25, and an empty profile. */
    constructor ()
      ensures athleteProfile == map[]
      ensures selectedTest == "vertical_jump" && selectedGender == "male" && selectedAge == "18-25"
      ensures Resolves(selectedTest, selectedGender, selectedAge)
    {
      athleteProfile := map[];
      selectedTest := "vertical_jump";
      selectedGender := "male";
      selectedAge := "18-25";
    }

    /** The table line the screen renders. */
    function Row(): Result<Thresholds, string>
      reads this
      requires selectedTest in Benchmarks
    {
      TableRow(selectedTest, selectedGender, selectedAge)
    }

    /** `loadProfile` as written: with no stored profile nothing changes. */
    method LoadProfile(stored: Option<map<string, string>>)
      modifies this
      ensures selectedTest == old(selectedTest)
      ensures stored.None? ==>
                athleteProfile == old(athleteProfile) && selectedGender == old(selectedGender) && selectedAge == old(selectedAge)
      ensures stored.Some? ==> athleteProfile == stored.value
      ensures stored.Some? ==> (selectedGender, selectedAge) == ProfileSelection(stored.value, old(selectedGender), old(selectedAge))
    {
      if stored.Some? {
        athleteProfile := stored.value;
        var sel := ProfileSelection(stored.value, selectedGender, selectedAge);
        selectedGender, selectedAge := sel.0, sel.1;
      }
    }

    /** `loadProfile` with the gender checked against the table: it keeps
      the selection resolvable. */
    method LoadProfileChecked(stored: Option<map<string, string>>)
      requires Resolves(selectedTest, selectedGender, selectedAge)
      modifies this
      ensures Resolves(selectedTest, selectedGender, selectedAge)
      ensures selectedTest == old(selectedTest)
      ensures stored.None? ==>
                athleteProfile == old(athleteProfile) && selectedGender == old(selectedGender) && selectedAge == old(selectedAge)
      ensures stored.Some? ==> athleteProfile == stored.value
      ensures stored.Some? ==> (selectedGender, selectedAge) == CheckedProfileSelection(stored.value, old(selectedGender), old(selectedAge))
    {
      if stored.Some? {
        athleteProfile := stored.value;
        var sel := CheckedProfileSelection(stored.value, selectedGender, selectedAge);
        CheckedSelectionResolves(stored.value, selectedTest, selectedGender, selectedAge);
        selectedGender, selectedAge := sel.0, sel.1;
      }
    }

    /** A tap on one of the test tabs, which list the table's tests. */
    method SelectTest(testId: string)
      requires testId in Benchmarks
      requires Resolves(selectedTest, selectedGender, selectedAge)
      modifies this`selectedTest
      ensures selectedTest == testId
      ensures Resolves(selectedTest, selectedGender, selectedAge)
    {
      assert selectedGender in FilterGenders && selectedAge in FilterAgeGroups;
      TableComplete(testId, selectedGender, selectedAge);
      selectedTest := testId;
    }

    /** A tap on one of the gender filter buttons. */
    method SelectGender(gender: string)
      requires gender in FilterGenders
      requires Resolves(selectedTest, selectedGender, selectedAge)
      modifies this`selectedGender
      ensures selectedGender == gender
      ensures Resolves(selectedTest, selectedGender, selectedAge)
    {
      assert selectedAge in FilterAgeGroups;
      TableComplete(selectedTest, gender, selectedAge);
      selectedGender := gender;
    }

    /** A tap on one of the age-band filter buttons. */
    method SelectAge(ageGroup: string)
      requires ageGroup in FilterAgeGroups
      requires Resolves(selectedTest, selectedGender, selectedAge)
      modifies this`selectedAge
      ensures selectedAge == ageGroup
      ensures Resolves(selectedTest, selectedGender, selectedAge)
    {
      assert selectedGender in FilterGenders;
      TableComplete(selectedTest, selectedGender, ageGroup);
      selectedAge := ageGroup;
    }
  }
}
