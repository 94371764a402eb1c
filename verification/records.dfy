/** The rows of the hosted database, shaped after the generated table types:
    profiles, schemes, applications and grievances. */
module Records {
  import opened Common

  /** A JSON-like field value of a plain object (form values, submitted
      data, profile rows, scheme filters). `Null` is JavaScript's `null`. */
  datatype Value =
    | Text(text: string)
    | Number(number: int)
    | Flag(flag: bool)
    | TextList(items: seq<string>)
    | Null

  /** A plain object: the fields it has and their values. Spreading
      `{...a, ...b}` is the map union `a + b`. */
  type Row = map<string, Value>

  /** JavaScript truthiness of a field value: the empty string, zero,
      `false` and `null` are falsy; every array is truthy. */
  predicate Truthy(v: Value)
  {
    match v
    case Text(s) => s != ""
    case Number(n) => n != 0
    case Flag(b) => b
    case TextList(_) => true
    case Null => false
  }

  /** The signed-in identity as the authentication service returns it. */
  datatype User = User(id: string, email: string)

  datatype UserRole = PublicUser | GovernmentOfficialAdmin

  /** A profile row. The profile page overlays it with `{...profile,
      ...updates}`, so it is kept as a plain object rather than a record. */
  type Profile = Row

  /** The text a profile holds under `key`, or the empty string. */
  function ProfileText(profile: Option<Profile>, key: string): (s: string)
    ensures s != "" ==> profile.Some? && key in profile.value && profile.value[key] == Text(s)
  {
    if profile.Some? && key in profile.value && profile.value[key].Text? then profile.value[key].text else ""
  }

  /** The non-zero number a profile holds under `key`, if any. */
  function ProfileNumber(profile: Option<Profile>, key: string): (n: Option<int>)
    ensures n.Some? ==> n.value != 0 && profile.Some? && key in profile.value && profile.value[key] == Number(n.value)
  {
    if profile.Some? && key in profile.value && profile.value[key].Number? && profile.value[key].number != 0
    then Some(profile.value[key].number) else None
  }

  /** A number field as a form holds it: the number, or the empty string
      when the field is empty. */
  function NumberOrEmpty(n: Option<int>): Value
  {
    if n.Some? then Number(n.value) else Text("")
  }

  /** The columns of the `profiles` table. */
  const ProfileColumns: set<string> :=
    {"id", "created_at", "name", "age", "gender", "caste_category", "religion",
     "annual_income", "state", "district", "city_village", "aadhaar_verified",
     "avatar_url"}

  datatype Scheme = Scheme(
    id: string,
    createdAt: string,
    title: string,
    description: string,
    eligibilityCriteria: string,
    benefits: string,
    requiredDocuments: seq<string>,
    ministry: string,
    category: string,
    regionSpecific: bool,
    regions: Option<seq<string>>,
    incomeLimit: Option<int>,
    ageMin: Option<int>,
    ageMax: Option<int>,
    genderSpecific: Option<string>,
    casteCategories: Option<seq<string>>,
    expiryDate: Option<string>,
    applicationLink: Option<string>,
    officialWebsite: Option<string>)

  /** An application row; its document list is never null. */
  datatype Application = Application(
    id: string,
    createdAt: string,
    userId: string,
    schemeId: string,
    status: string,
    rejectionReason: Option<string>,
    documentIds: seq<string>,
    submittedData: Row)

  /** A grievance row; unlike an application, its document list may be null. */
  datatype Grievance = Grievance(
    id: string,
    createdAt: string,
    userId: string,
    applicationId: Option<string>,
    schemeId: Option<string>,
    issueType: string,
    description: string,
    status: string,
    response: Option<string>,
    documentIds: Option<seq<string>>)

  /** The status every new application and grievance is created with. */
  const Pending := "Pending"
}
