/** The three-step application form: personal details, one file per
    required document type, and review with a declaration. */
module ApplicationForm {
  import opened Common
  import opened Records
  import opened Validation
  import opened Uploads
  import ApplicationStore

  /** The form values. An empty string is an empty field; the two numeric
      fields are `None` when empty. */
  datatype Values = Values(
    name: string,
    age: Option<int>,
    gender: string,
    address: string,
    district: string,
    state: string,
    pincode: string,
    phone: string,
    email: string,
    income: Option<int>,
    aadhaar: string,
    declaration: bool)

  /** The values the form opens with: what the profile knows (a falsy
      profile value leaves the field empty), the account email, and
      nothing else. */
  function InitialValues(profile: Option<Profile>, user: Option<User>): (v: Values)
    ensures v.address == "" && v.pincode == "" && v.phone == "" && v.aadhaar == "" && !v.declaration
    ensures v.email == (if user.Some? then user.value.email else "")
    ensures v.name == ProfileText(profile, "name") && v.age == ProfileNumber(profile, "age")
    ensures v.income == ProfileNumber(profile, "annual_income")
    ensures v.gender == ProfileText(profile, "gender")
    ensures v.district == ProfileText(profile, "district") && v.state == ProfileText(profile, "state")
  {
    Values(
      ProfileText(profile, "name"), ProfileNumber(profile, "age"), ProfileText(profile, "gender"), "",
      ProfileText(profile, "district"), ProfileText(profile, "state"), "", "",
      if user.Some? then user.value.email else "", ProfileNumber(profile, "annual_income"), "", false)
  }

  /** The error messages the form shows, keyed by field, one field rule
      after another. `isEmail` is the email-format test. */
  function Errors(v: Values, isEmail: string -> bool): (errors: map<string, string>)
    ensures errors == map[] <==> Valid(v, isEmail)
  {
    PersonErrors(v, AddressErrors(v, ContactErrors(v, isEmail)))
  }

  /** The rules of the personal fields, added to `rest`. */
  function PersonErrors(v: Values, rest: map<string, string>): (errors: map<string, string>)
    ensures errors == map[] <==>
      && rest == map[]
      && Present(v.name) && v.age.Some? && v.age.value > 0
      && Present(v.gender) && v.income.Some? && v.income.value >= 0
  {
    Report("name", Check(Present(v.name), true, "Name is required", ""),
    Report("age", Check(v.age.Some?, v.age.Some? && v.age.value > 0, "Age is required", "Age must be positive"),
    Report("gender", Check(Present(v.gender), true, "Gender is required", ""),
    Report("income", Check(v.income.Some?, v.income.Some? && v.income.value >= 0, "Annual income is required", "Income cannot be negative"),
    rest))))
  }

  /** The rules of the address fields, added to `rest`. */
  function AddressErrors(v: Values, rest: map<string, string>): (errors: map<string, string>)
    ensures errors == map[] <==>
      rest == map[] && Present(v.address) && Present(v.district) && Present(v.state) && PinCode(v.pincode)
  {
    Report("address", Check(Present(v.address), true, "Address is required", ""),
    Report("district", Check(Present(v.district), true, "District is required", ""),
    Report("state", Check(Present(v.state), true, "State is required", ""),
    Report("pincode", Check(Present(v.pincode), PinCode(v.pincode), "PIN code is required", "PIN code must be 6 digits"),
    rest))))
  }

  /** The rules of the contact and identity fields and of the declaration. */
  function ContactErrors(v: Values, isEmail: string -> bool): (errors: map<string, string>)
    ensures errors == map[] <==>
      PhoneNumber(v.phone) && Present(v.email) && isEmail(v.email) && AadhaarNumber(v.aadhaar) && v.declaration
  {
    Report("phone", Check(Present(v.phone), PhoneNumber(v.phone), "Phone number is required", "Phone number must be 10 digits"),
    Report("email", Check(Present(v.email), isEmail(v.email), "Email is required", "Invalid email"),
    Report("aadhaar", Check(Present(v.aadhaar), AadhaarNumber(v.aadhaar), "Aadhaar number is required", "Aadhaar number must be 12 digits"),
    Report("declaration", Check(true, v.declaration, "", "You must accept the declaration"),
    map[]))))
  }

  /** What the form accepts: every text field filled in, a positive age, a
      non-negative income, a six-digit PIN code, a ten-digit phone number,
      a well-formed email, a twelve-digit Aadhaar number and the
      declaration ticked. */
  predicate Valid(v: Values, isEmail: string -> bool)
  {
    && Present(v.name) && Present(v.gender) && Present(v.address)
    && Present(v.district) && Present(v.state)
    && v.age.Some? && v.age.value > 0
    && v.income.Some? && v.income.value >= 0
    && PinCode(v.pincode) && PhoneNumber(v.phone) && AadhaarNumber(v.aadhaar)
    && Present(v.email) && isEmail(v.email)
    && v.declaration
  }

  /** The form never opens valid: the declaration starts unticked and the
      PIN code, phone and Aadhaar fields start empty. */
  lemma InitialValuesInvalid(profile: Option<Profile>, user: Option<User>, isEmail: string -> bool)
    ensures !Valid(InitialValues(profile, user), isEmail)
  {
  }

  /** The chosen files. Every file carries the document type it was
      chosen for. */
  predicate Tagged(docs: seq<Document>)
  {
    forall i :: 0 <= i < |docs| ==> docs[i].tag.Some?
  }

  /** At most one file per document type. */
  predicate OnePerType(docs: seq<Document>)
  {
    forall i, j :: 0 <= i < j < |docs| ==> docs[i].tag != docs[j].tag
  }

  /** `handleFileChange` for document type `documentType` with the files
      `picked` from the file dialog: the first picked file replaces any
      file of that type and goes to the end; an empty pick changes
      nothing. */
  function ChooseFile(docs: seq<Document>, documentType: string, picked: seq<string>): (r: seq<Document>)
    ensures |picked| == 0 ==> r == docs
    ensures |picked| > 0 ==> |r| > 0 && r[|r| - 1] == Document(picked[0], Some(documentType))
    ensures |picked| > 0 ==> forall i :: 0 <= i < |r| - 1 ==> r[i] in docs && r[i].tag != Some(documentType)
    ensures |picked| > 0 ==> forall i :: 0 <= i < |docs| && docs[i].tag != Some(documentType) ==> docs[i] in r
  {
    if |picked| == 0 then docs
    else Filter(docs, (d: Document) => d.tag != Some(documentType)) + [Document(picked[0], Some(documentType))]
  }

  /** Choosing files keeps the list tagged and at most one file per type,
      and keeps the other files in their relative order. */
  lemma {:induction false} ChooseFileKeepsOnePerType(docs: seq<Document>, documentType: string, picked: seq<string>)
    requires Tagged(docs) && OnePerType(docs)
    ensures Tagged(ChooseFile(docs, documentType, picked))
    ensures OnePerType(ChooseFile(docs, documentType, picked))
    ensures |picked| > 0 ==>
      IsSubsequence(ChooseFile(docs, documentType, picked)[..|ChooseFile(docs, documentType, picked)| - 1], docs)
  {
    if |picked| > 0 {
      var keep := (d: Document) => d.tag != Some(documentType);
      var kept := Filter(docs, keep);
      var r := ChooseFile(docs, documentType, picked);
      assert r[..|r| - 1] == kept;
      FilterIsSubsequence(docs, keep);
      KeptOnePerType(docs, kept);
      forall i | 0 <= i < |r| ensures r[i].tag.Some? {
        if i < |kept| {
          assert r[i] == kept[i] && kept[i] in docs;
        }
      }
    }
  }

  /** A subsequence of a list with one file per type has one file per type. */
  lemma {:induction false} KeptOnePerType(docs: seq<Document>, kept: seq<Document>)
    requires OnePerType(docs) && IsSubsequence(kept, docs)
    ensures OnePerType(kept)
    decreases |docs|
  {
    if |kept| > 0 {
      if kept[0] == docs[0] && IsSubsequence(kept[1..], docs[1..]) {
        KeptOnePerType(docs[1..], kept[1..]);
        forall j | 0 < j < |kept| ensures kept[0].tag != kept[j].tag {
          SubsequenceMember(kept[1..], docs[1..], j - 1);
        }
      } else {
        KeptOnePerType(docs[1..], kept);
      }
    }
  }

  /** Every element of a subsequence occurs in the longer list. */
  lemma {:induction false} SubsequenceMember<T>(a: seq<T>, b: seq<T>, i: nat)
    requires IsSubsequence(a, b) && i < |a|
    ensures a[i] in b
    decreases |b|
  {
    if a[0] == b[0] && IsSubsequence(a[1..], b[1..]) {
      if i > 0 {
        SubsequenceMember(a[1..], b[1..], i - 1);
      }
    } else {
      SubsequenceMember(a, b[1..], i);
    }
  }

  /** The file shown as selected for a document type: the first one with
      that type. */
  function SelectedFile(docs: seq<Document>, documentType: string): (name: Option<string>)
    ensures name.Some? <==> exists i :: 0 <= i < |docs| && docs[i].tag == Some(documentType)
  {
    var k := FirstIndex(docs, (d: Document) => d.tag == Some(documentType));
    if k < |docs| then Some(docs[k].name) else None
  }

  /** After a pick, the file shown for that type is the one just picked. */
  lemma ChooseFileIsSelected(docs: seq<Document>, documentType: string, picked: seq<string>)
    requires |picked| > 0
    ensures SelectedFile(ChooseFile(docs, documentType, picked), documentType) == Some(picked[0])
  {
    var r := ChooseFile(docs, documentType, picked);
    var k := FirstIndex(r, (d: Document) => d.tag == Some(documentType));
    assert k == |r| - 1;
  }

  /** The navigation buttons. */
  datatype Button = Back | Cancel | Next | Submit

  /** The buttons shown at a step: Back after the first step (Cancel on
      it), Next before the last step (Submit on it). */
  function Buttons(step: int): (b: set<Button>)
    ensures Back in b <==> step > 1
    ensures Next in b <==> step < 3
    ensures Cancel in b <==> !(Back in b)
    ensures Submit in b <==> !(Next in b)
  {
    {if step > 1 then Back else Cancel, if step < 3 then Next else Submit}
  }

  /** The step after pressing `b`; a button that is not shown cannot be
      pressed and changes nothing. */
  function Press(step: int, b: Button): (r: int)
    ensures 1 <= step <= 3 ==> 1 <= r <= 3
    ensures r == step + 1 <==> b == Next && step < 3
    ensures r == step - 1 <==> b == Back && step > 1
  {
    if b !in Buttons(step) then step
    else match b
      case Next => step + 1
      case Back => step - 1
      case _ => step
  }

  /** The step after a sequence of presses. */
  function Navigate(step: int, presses: seq<Button>): int
    decreases |presses|
  {
    if |presses| == 0 then step else Navigate(Press(step, presses[0]), presses[1..])
  }

  /** From the first step, every sequence of presses keeps the step in
      1..3. */
  lemma {:induction false} NavigateStaysInRange(step: int, presses: seq<Button>)
    requires 1 <= step <= 3
    ensures 1 <= Navigate(step, presses) <= 3
    decreases |presses|
  {
    if |presses| > 0 {
      NavigateStaysInRange(Press(step, presses[0]), presses[1..]);
    }
  }

  /** The submit button (shown from the review step on) is enabled when the form is
      valid, no submission is running and at least one file is chosen. */
  function SubmitEnabled(step: int, v: Values, isEmail: string -> bool, loading: bool, docs: seq<Document>): (enabled: bool)
    ensures enabled <==> step >= 3 && Valid(v, isEmail) && !loading && |docs| > 0
  {
    Submit in Buttons(step) && Errors(v, isEmail) == map[] && !loading && |docs| != 0
  }

  /** One chosen file is enough: a scheme asking for two documents can be
      submitted with one. */
  lemma OneDocumentIsEnough(v: Values, isEmail: string -> bool, required: seq<string>)
    requires Valid(v, isEmail) && |required| == 2 && required[0] != required[1]
    ensures var docs := ChooseFile([], required[0], ["scan.pdf"]);
      && SelectedFile(docs, required[1]).None?
      && SubmitEnabled(3, v, isEmail, false, docs)
  {
    var docs := ChooseFile([], required[0], ["scan.pdf"]);
    assert docs == [Document("scan.pdf", Some(required[0]))];
  }

  /** The form values as the free-form data the store receives. */
  function AsRow(v: Values): (row: Row)
    ensures row.Keys == {"name", "age", "gender", "address", "district", "state", "pincode", "phone",
                         "email", "income", "aadhaar", "declaration"}
    ensures row["name"] == Text(v.name) && row["gender"] == Text(v.gender)
    ensures row["address"] == Text(v.address) && row["district"] == Text(v.district) && row["state"] == Text(v.state)
    ensures row["pincode"] == Text(v.pincode) && row["phone"] == Text(v.phone) && row["email"] == Text(v.email)
    ensures row["age"] == NumberOrEmpty(v.age) && row["income"] == NumberOrEmpty(v.income)
    ensures row["declaration"] == Flag(v.declaration) && row["aadhaar"] == Text(v.aadhaar)
  {
    map[
      "name" := Text(v.name),
      "age" := NumberOrEmpty(v.age),
      "gender" := Text(v.gender),
      "address" := Text(v.address),
      "district" := Text(v.district),
      "state" := Text(v.state),
      "pincode" := Text(v.pincode),
      "phone" := Text(v.phone),
      "email" := Text(v.email),
      "income" := NumberOrEmpty(v.income),
      "aadhaar" := Text(v.aadhaar),
      "declaration" := Flag(v.declaration)]
  }

  /** What one press of Submit did: the draft handed to the store, the
      store's record of the submission, and where the page went. */
  datatype Outcome = Outcome(
    draft: Option<ApplicationStore.Draft>,
    submission: Option<ApplicationStore.Submission>,
    navigateTo: Option<string>)

  /** `handleSubmit` on the page for scheme `id`. The remaining parameters
      are the store and the replies its submission receives. */
  method HandleSubmit(
    id: Option<string>, user: Option<User>, v: Values, docs: seq<Document>,
    store: ApplicationStore.State, stamps: seq<nat>, replies: seq<UploadReply>,
    submittedAt: string, insertReply: Reply<Option<Application>>)
    returns (store': ApplicationStore.State, out: Outcome)
    requires |stamps| == |docs| && |replies| == |docs|
    // without a scheme id or a signed-in user nothing is submitted
    ensures id.None? || id == Some("") || user.None? ==>
      store' == store && out == Outcome(None, None, None)
    // otherwise the draft is the user's, for this scheme, pending, with the form values
    ensures id.Some? && id != Some("") && user.Some? ==>
      && out.draft == Some(ApplicationStore.Draft(user.value.id, id.value, Pending, AsRow(v)))
      && out.submission.Some?
      && out.submission.value.uploads <= Requests(ApplicationStore.Bucket, user.value.id, docs, stamps)
    // and that draft is what the store submits: its uploads, insert and new state are the page's
    ensures out.draft.Some? ==>
      && out.submission.Some?
      && ApplicationStore.Submitted(store, out.draft.value, docs, stamps, replies, submittedAt, insertReply, store', out.submission.value)
    // the page moves to the application list exactly when the store reports success
    ensures out.navigateTo.Some? <==> out.submission.Some? && out.submission.value.ok
    ensures out.navigateTo.Some? ==> out.navigateTo.value == "/applications"
    ensures out.navigateTo.Some? <==> out.submission.Some? && NoneFailed(replies) && insertReply.Ok?
  {
    if id.None? || id == Some("") || user.None? {
      return store, Outcome(None, None, None);
    }
    var draft := ApplicationStore.Draft(user.value.id, id.value, Pending, AsRow(v));
    var call;
    store', call := ApplicationStore.SubmitNewApplication(store, draft, docs, stamps, replies, submittedAt, insertReply);
    out := Outcome(Some(draft), Some(call), if call.ok then Some("/applications") else None);
  }
}
