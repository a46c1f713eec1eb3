/** The athlete profile form (screens/ProfileScreen.js): its initial
    values, field edits, and the validation that decides whether the
    profile is stored. The form is an object of strings; a key that a
    stored profile lacks reads as `undefined`. */
module Profile {
  import opened Wrappers
  import JsValues
  import Ratings
  import opened Records

  type Form = map<string, string>

  /** The form before anything is loaded or typed. */
  const InitialForm: Form := map[
    "name" := "", "age" := "", "gender" := "male", "height" := "", "weight" := "",
    "sport" := "", "experience" := "beginner", "state" := "", "district" := "",
    "phone" := "", "email" := ""]

  /** The values the gender picker offers. */
  const GenderOptions: seq<string> := ["male", "female", "other"]

  const RequiredFields: seq<string> := ["name", "age", "height", "weight"]

  datatype Verdict = MissingRequired | AgeOutOfRange | Accepted

  /** Every required field is present and non-empty. */
  predicate Filled(form: Form) {
    forall f :: f in RequiredFields ==> JsValues.Truthy(JsValues.Field(form, f))
  }

  /** `saveProfile`'s checks: every required field must be non-empty, and
      an age that parses must lie in 8..35. An age that does not parse is
      NaN, fails both comparisons and is let through. */
  function Validate(form: Form): (v: Verdict)
    ensures v == MissingRequired <==> !Filled(form)
    ensures v == AgeOutOfRange <==>
              v != MissingRequired && JsValues.ParseIntOf(JsValues.Field(form, "age")).Some?
              && !(8 <= JsValues.ParseIntOf(JsValues.Field(form, "age")).value <= 35)
  {
    if !JsValues.Truthy(JsValues.Field(form, "name")) || !JsValues.Truthy(JsValues.Field(form, "age"))
       || !JsValues.Truthy(JsValues.Field(form, "height")) || !JsValues.Truthy(JsValues.Field(form, "weight"))
    then
      MissingRequired
    else
      var age := JsValues.ParseIntOf(JsValues.Field(form, "age"));
      if age.Some? && (age.value < 8 || age.value > 35) then AgeOutOfRange else Accepted
  }

  /** The untouched form is never saved. */
  lemma InitialFormRejected()
    ensures Validate(InitialForm) == MissingRequired
  {
    assert "name" in RequiredFields;
  }

  /** An accepted numeric age always falls in one of the rating bands,
      never the default fallback. */
  lemma AcceptedAgeInBand(form: Form)
    requires Validate(form) == Accepted
    requires JsValues.ParseIntOf(JsValues.Field(form, "age")).Some?
    ensures var age := JsValues.ParseIntOf(JsValues.Field(form, "age"));
      Ratings.InBand(age.value, Ratings.AgeGroup(age))
  {
  }

  /** With the other required fields filled, a typed whole-number age is
      accepted exactly when it is between 8 and 35. */
  lemma NumericAgeValidation(form: Form, years: nat)
    requires forall f :: f in RequiredFields && f != "age" ==> JsValues.Truthy(JsValues.Field(form, f))
    ensures Validate(form["age" := JsValues.NatToString(years)]) == Accepted <==> 8 <= years <= 35
  {
    var typed := form["age" := JsValues.NatToString(years)];
    JsValues.ParseIntRoundTrip(years);
    assert JsValues.Field(typed, "age") == Some(JsValues.NatToString(years));
    assert JsValues.Truthy(JsValues.Field(typed, "age"));
    forall f | f in RequiredFields ensures JsValues.Truthy(JsValues.Field(typed, f)) {
      if f != "age" {
        assert JsValues.Field(typed, f) == JsValues.Field(form, f);
      }
    }
  }

  /** A non-empty age that is not a number passes validation. */
  lemma NonNumericAgeAccepted(form: Form)
    requires Filled(form)
    requires JsValues.ParseIntOf(JsValues.Field(form, "age")).None?
    ensures Validate(form) == Accepted
  {
  }

  /** The profile screen's state over the device store. */
  class ProfileEditor {
    const store: AsyncStore
    var formData: Form
    var alerts: seq<string>

    constructor (store: AsyncStore)
      ensures this.store == store && formData == InitialForm && alerts == []
    {
      this.store := store;
      formData := InitialForm;
      alerts := [];
    }

    /** `loadProfile`: a stored profile replaces the form wholesale. */
    method LoadProfile()
      modifies this`formData
      ensures formData == store.athleteProfile.GetOr(old(formData))
    {
      if store.athleteProfile.Some? {
        formData := store.athleteProfile.value;
      }
    }

    /** `updateField`: field `f` takes `value`; every other field keeps its
        value and no field appears or disappears. */
    method UpdateField(f: string, value: string)
      modifies this`formData
      ensures f in formData && formData[f] == value
      ensures formData.Keys == old(formData).Keys + {f}
      ensures forall k :: k in old(formData) && k != f ==> formData[k] == old(formData)[k]
    {
      formData := formData[f := value];
    }

    /** `saveProfile`: a rejected form writes nothing. An accepted form is
        written whole under the profile key and then its name under the
        name key; a failing write stops there. */
    method SaveProfile(profileWriteOk: bool, nameWriteOk: bool) returns (verdict: Verdict)
      modifies store`athleteProfile, store`athleteName, this`alerts
      ensures verdict == Validate(formData)
      ensures verdict != Accepted || !profileWriteOk ==>
                store.athleteProfile == old(store.athleteProfile) && store.athleteName == old(store.athleteName)
      ensures verdict == Accepted && profileWriteOk ==> store.athleteProfile == Some(formData)
      ensures verdict == Accepted && profileWriteOk && nameWriteOk ==> store.athleteName == Some(formData["name"])
      ensures verdict == Accepted && profileWriteOk && !nameWriteOk ==> store.athleteName == old(store.athleteName)
      ensures verdict == MissingRequired ==>
                alerts == old(alerts) + ["Please fill in all required fields (Name, Age, Height, Weight)"]
      ensures verdict == AgeOutOfRange ==> alerts == old(alerts) + ["Age must be between 8 and 35 years"]
      ensures verdict == Accepted ==>
                alerts == old(alerts) + [if profileWriteOk && nameWriteOk then "Profile saved successfully!"
                                         else "Failed to save profile. Please try again."]
    {
      verdict := Validate(formData);
      if verdict == MissingRequired {
        alerts := alerts + ["Please fill in all required fields (Name, Age, Height, Weight)"];
        return;
      }
      if verdict == AgeOutOfRange {
        alerts := alerts + ["Age must be between 8 and 35 years"];
        return;
      }
      if !profileWriteOk {
        alerts := alerts + ["Failed to save profile. Please try again."];
        return;
      }
      store.athleteProfile := Some(formData);
      if !nameWriteOk {
        alerts := alerts + ["Failed to save profile. Please try again."];
        return;
      }
      store.athleteName := Some(formData["name"]);
      alerts := alerts + ["Profile saved successfully!"];
    }
  }

  /** Typing an age of `years` in 18..25 into a form whose other
      required fields are filled, then saving: the form is stored, and its
      age lands in the 18-25 band. */
  method TypeAgeAndSave(editor: ProfileEditor, years: nat) returns (verdict: Verdict)
    requires 18 <= years <= 25
    requires forall f :: f in RequiredFields && f != "age" ==> JsValues.Truthy(JsValues.Field(editor.formData, f))
    modifies editor`formData, editor`alerts, editor.store`athleteProfile, editor.store`athleteName
    ensures verdict == Accepted
    ensures editor.store.athleteProfile == Some(editor.formData) && "age" in editor.formData
    ensures Ratings.AgeGroup(JsValues.ParseInt(editor.formData["age"])) == "18-25"
  {
    NumericAgeValidation(editor.formData, years);
    JsValues.ParseIntRoundTrip(years);
    editor.UpdateField("age", JsValues.NatToString(years));
    verdict := editor.SaveProfile(true, true);
  }
}
