/** The profile page: the profile form, its rules, and the save handler
    that writes nine profile fields and overlays them on the stored
    profile. */
module ProfilePage {
  import opened Common
  import opened Records
  import opened Validation

  /** The form values. An empty string is an empty field; the numeric
      fields are `None` when empty. */
  datatype Values = Values(
    name: string,
    age: Option<int>,
    gender: string,
    casteCategory: string,
    religion: string,
    annualIncome: Option<int>,
    state: string,
    district: string,
    cityVillage: string,
    aadhaar: string)

  /** The error messages the form shows. Only the name is required; the
      numbers must not be negative and the Aadhaar number must have twelve
      digits when they are given. */
  function Errors(v: Values): (errors: map<string, string>)
    ensures errors == map[] <==> Valid(v)
  {
    Report("name", Check(Present(v.name), true, "Name is required", ""),
    Report("age", Check(true, v.age.None? || v.age.value >= 0, "", "Age cannot be negative"),
    Report("annual_income", Check(true, v.annualIncome.None? || v.annualIncome.value >= 0, "", "Income cannot be negative"),
    Report("aadhaar", Check(true, !Present(v.aadhaar) || AadhaarNumber(v.aadhaar), "", "Aadhaar number must be 12 digits"),
    map[]))))
  }

  /** The values the form opens with: what the stored profile knows (a
      falsy value leaves the field empty); the Aadhaar field always starts
      empty. */
  function InitialValues(profile: Option<Profile>): (v: Values)
    ensures v.aadhaar == ""
    ensures v.name == ProfileText(profile, "name") && v.cityVillage == ProfileText(profile, "city_village")
    ensures v.age == ProfileNumber(profile, "age") && v.annualIncome == ProfileNumber(profile, "annual_income")
    ensures v.gender == ProfileText(profile, "gender") && v.casteCategory == ProfileText(profile, "caste_category")
    ensures v.religion == ProfileText(profile, "religion")
    ensures v.state == ProfileText(profile, "state") && v.district == ProfileText(profile, "district")
  {
    Values(
      ProfileText(profile, "name"), ProfileNumber(profile, "age"), ProfileText(profile, "gender"),
      ProfileText(profile, "caste_category"), ProfileText(profile, "religion"), ProfileNumber(profile, "annual_income"),
      ProfileText(profile, "state"), ProfileText(profile, "district"), ProfileText(profile, "city_village"), "")
  }

  /** What the form accepts. */
  predicate Valid(v: Values)
  {
    && Present(v.name)
    && (v.age.Some? ==> v.age.value >= 0)
    && (v.annualIncome.Some? ==> v.annualIncome.value >= 0)
    && (Present(v.aadhaar) ==> AadhaarNumber(v.aadhaar))
  }

  /** The fields the save handler writes, besides `id`. */
  const UpdatedFields: set<string> :=
    {"name", "age", "gender", "caste_category", "religion", "annual_income", "state", "district", "city_village"}

  /** The update sent for user `id`: the id and nine profile fields. The
      Aadhaar number is never sent. */
  function Updates(id: string, v: Values): (u: Row)
    ensures u.Keys == UpdatedFields + {"id"}
    ensures "aadhaar" !in u
    ensures u["id"] == Text(id) && u["name"] == Text(v.name)
    ensures u["age"] == NumberOrEmpty(v.age) && u["annual_income"] == NumberOrEmpty(v.annualIncome)
    ensures u["gender"] == Text(v.gender) && u["caste_category"] == Text(v.casteCategory)
    ensures u["religion"] == Text(v.religion)
    ensures u["state"] == Text(v.state) && u["district"] == Text(v.district) && u["city_village"] == Text(v.cityVillage)
  {
    map[
      "id" := Text(id),
      "name" := Text(v.name),
      "age" := NumberOrEmpty(v.age),
      "gender" := Text(v.gender),
      "caste_category" := Text(v.casteCategory),
      "religion" := Text(v.religion),
      "annual_income" := NumberOrEmpty(v.annualIncome),
      "state" := Text(v.state),
      "district" := Text(v.district),
      "city_village" := Text(v.cityVillage)]
  }

  /** `{...profile, ...updates}`: the stored profile (an empty object when
      there is none) overlaid with the updates. */
  function Overlay(profile: Option<Profile>, updates: Row): (p: Profile)
    ensures p.Keys == updates.Keys + (if profile.Some? then profile.value.Keys else {})
    ensures forall k :: k in updates ==> p[k] == updates[k]
    ensures profile.Some? ==> forall k :: k in profile.value && k !in updates ==> p[k] == profile.value[k]
  {
    (if profile.Some? then profile.value else map[]) + updates
  }

  /** Saving the same values twice stores the same profile as saving them
      once. */
  lemma OverlayIdempotent(profile: Option<Profile>, updates: Row)
    ensures Overlay(Some(Overlay(profile, updates)), updates) == Overlay(profile, updates)
  {
  }

  /** The page's status message. */
  datatype Status = Saved | SaveFailed(message: string)

  /** What the save handler does, in order. */
  datatype Effect =
    | SendUpdate(id: string, updates: Row)   // the profile update call
    | StoreProfile(profile: Profile)         // the auth store's `setProfile`
    | SetStatus(status: Status)
    | StopSubmitting                         // Formik's `setSubmitting(false)`

  /** `handleSubmit` with the signed-in user and stored profile; `reply`
      answers the update call (its error message, when it fails). */
  function HandleSubmit(user: Option<User>, profile: Option<Profile>, v: Values, reply: Reply<()>): (effects: seq<Effect>)
    // the submitting flag is cleared last, on every path
    ensures |effects| > 0 && effects[|effects| - 1] == StopSubmitting
    // no user: nothing is sent
    ensures user.None? ==> effects == [StopSubmitting]
    // a user: the update is sent first, for that user
    ensures user.Some? ==> effects[0] == SendUpdate(user.value.id, Updates(user.value.id, v))
    // success: the overlaid profile is stored, then success is shown
    ensures user.Some? && reply.Ok? ==>
      effects[1..] == [StoreProfile(Overlay(profile, Updates(user.value.id, v))), SetStatus(Saved), StopSubmitting]
    // failure: the stored profile is left alone and the status carries the message
    ensures user.Some? && reply.Err? ==> effects[1..] == [SetStatus(SaveFailed(reply.message)), StopSubmitting]
  {
    if user.None? then [StopSubmitting]
    else
      var updates := Updates(user.value.id, v);
      var sent := SendUpdate(user.value.id, updates);
      match reply
      case Err(message) => [sent, SetStatus(SaveFailed(message)), StopSubmitting]
      case Ok(_) => [sent, StoreProfile(Overlay(profile, updates)), SetStatus(Saved), StopSubmitting]
  }

  /** Success is shown, and the profile stored, exactly when a signed-in
      user's update succeeded. */
  lemma SavedExactlyOnSuccess(user: Option<User>, profile: Option<Profile>, v: Values, reply: Reply<()>)
    ensures SetStatus(Saved) in HandleSubmit(user, profile, v, reply) <==> user.Some? && reply.Ok?
    ensures (forall e :: e in HandleSubmit(user, profile, v, reply) ==> !e.StoreProfile?) <==> !(user.Some? && reply.Ok?)
  {
    var effects := HandleSubmit(user, profile, v, reply);
    if user.Some? {
      var rest := effects[1..];
      assert effects == [effects[0]] + rest;
      if reply.Ok? {
        assert rest[0].StoreProfile? && rest[1] == SetStatus(Saved);
        assert effects[1] == rest[0];
      } else {
        assert rest == [SetStatus(SaveFailed(reply.message)), StopSubmitting];
      }
    }
  }

  /** Fields the form does not write (the verification flag, the avatar,
      the creation stamp) survive a save unchanged. */
  lemma SaveKeepsOtherFields(user: User, profile: Profile, v: Values)
    ensures var stored := Overlay(Some(profile), Updates(user.id, v));
      forall k :: k in profile && k !in UpdatedFields && k != "id" ==> k in stored && stored[k] == profile[k]
  {
  }
}
