# Welfare-scheme assistant client, modelled in Dafny

This project models the client-side logic of a React web application. The
application helps citizens find government welfare schemes, apply to them,
file grievances and chat with a rule-based assistant. It runs on top of a
hosted backend that provides authentication, tables and file storage.

The model covers these parts:

- **The submission pipelines** of the application and grievance stores.
  - Documents are uploaded one at a time, in list order.
  - The first upload error stops the run.
  - The paths that the uploads return are collected in order.
  - One record is inserted.
  - Then the cached list is updated: appended to for applications, refetched for grievances.
- **The rule-based chat assistant**: a chat history plus a first-match keyword dispatcher. It has one rule table for Hindi and one for every other language.
- **The scheme store and the authentication store**: filter merging, fetch replace-or-keep, and the sign-in lifecycle.
- **The logic of the forms**:
  - the application form: rules, one file per document type, the step bound, the submit condition, and the submit handler;
  - the grievance form: rules, append-only files, prefill from the query string, and the submit handler;
  - the scheme search;
  - the one-time-password machine of the login and registration forms;
  - the profile save with its overlay merge.

Every backend call is an input to the model, never a computation. A call's
outcome is a `Reply<T>`, either `Ok(data)` or `Err(message)`. An empty
message stands for an error that carries no message, which is where the
source falls back to a fixed text. The upload loop takes one reply and one
clock reading per document.

Store actions become pure functions from the old state and the call
outcomes to the new state. The two submission pipelines and the form
submit handlers that call them are methods. They return the new state
together with a record of the calls they made.

The files are:

| file | content |
|---|---|
| common.dfy | `Option`, `Reply`, first-match search, `filter`, ASCII lower-casing, `includes` |
| records.dfy | field values, plain objects (`Row`), users, profiles, schemes, applications, grievances |
| uploads.dfy | the sequential upload loop shared by both stores |
| application_store.dfy, grievance_store.dfy, scheme_store.dfy, auth_store.dfy | the four stores |
| assistant.dfy | the chat assistant |
| validation.dfy | digit patterns, presence, and per-field error messages |
| application_form.dfy, grievance_form.dfy, scheme_list.dfy, auth_forms.dfy, profile_page.dfy | the pages and forms |

Two behaviours of the code are modelled as written:

- The upload path is `<owner>/<millisecond clock>_<file name>`. Nothing in
  the code makes two paths of one run differ. Two files with the same name
  uploaded within the same millisecond get the same path. The storage call
  refuses to overwrite, so the second upload would fail and abort the run.
  The model keeps the clock readings as inputs and does not assume they
  differ.
- The assistant chooses its welcome text and its reply table by different
  tests. The welcome is English only for the code `en`. The replies are
  Hindi only for the code `hi`. Any other code gets a Hindi welcome and
  English replies. `Assistant.WelcomeAndRepliesDisagree` states this.

## Model

| member | source | states |
|---|---|---|
| Uploads.StoredPaths | src/stores/applicationStore.ts:59-61 | no more paths are collected than there were replies |
| Uploads.StoredPathsInOrder | src/stores/applicationStore.ts:49-62 | the collected paths sit at strictly increasing positions of the replies, each such position holds a reply with a non-empty path, each reply with a path is among them, so `document_ids` is an order-preserving selection of the upload replies |
| Uploads.StoredPathsPositional | src/stores/applicationStore.ts:59-61 | the path list has one entry per document exactly when every upload returned a path, and then the i-th path is the i-th document's |
| Uploads.UploadSequentially | src/stores/applicationStore.ts:49-62 | uploads are attempted in list order up to and including the first failing one, each to `<owner>/<stamp>_<name>` in the given bucket; the paths are those of the replies before the failure; the failure is the first error's message; there is no failure exactly when no reply failed |
| ApplicationStore.Payload | src/stores/applicationStore.ts:65-73 | the insert keeps the caller's fields, `document_ids` and `submitted_data.documents` are the same path list, `submitted_at` is the stamp, and every other submitted field is kept |
| ApplicationStore.FetchUserApplications | src/stores/applicationStore.ts:23-43 | success replaces the list with the data or `[]` and clears the error; failure keeps the list and sets the message or 'Failed to fetch applications'; loading ends either way |
| ApplicationStore.SubmitNewApplication | src/stores/applicationStore.ts:45-98 | uploads go to 'application-documents' and stop after the first error; the insert happens exactly when no upload failed, with the payload of all collected paths; success (no failure and an accepted insert) appends the returned row at the end; any failure leaves the list unchanged and sets the error's message or 'Failed to submit application'; loading ends |
| ApplicationStore.SetCurrentApplication | src/stores/applicationStore.ts:100 | only the current application changes |
| GrievanceStore.Payload | src/stores/grievanceStore.ts:65-69 | the insert keeps the caller's fields, forces status 'Pending', and sends `null` documents exactly when no path was collected |
| GrievanceStore.FetchUserGrievances | src/stores/grievanceStore.ts:23-43 | success replaces the list with the data or `[]`; failure keeps it and sets 'Failed to fetch grievances' |
| GrievanceStore.SubmitNewGrievance | src/stores/grievanceStore.ts:45-90 | uploads go to 'grievance-documents' and stop after the first error; the insert happens exactly when no upload failed; a refetch for the submitting user happens exactly after an accepted insert and the call then succeeds even if the refetch fails ('Failed to fetch grievances', list kept); a failed submission leaves the list unchanged with 'Failed to submit grievance' |
| GrievanceStore.SetCurrentGrievance | src/stores/grievanceStore.ts:92-94 | only the current grievance changes |
| SchemeStore.QueryConditions | src/lib/supabase.ts:69-77 | the list query filters on exactly the filters whose value is truthy, with those values |
| SchemeStore.FetchSchemes | src/stores/schemeStore.ts:40-60 | the query uses the given filters; success replaces the list with the data or `[]` and clears the error; failure keeps the list and sets 'Failed to fetch schemes'; nothing else changes |
| SchemeStore.FetchSchemeById | src/stores/schemeStore.ts:62-82 | success sets the current scheme; failure keeps it and sets 'Failed to fetch scheme details' |
| SchemeStore.SetFilters | src/stores/schemeStore.ts:84-87 | given keys overwrite, absent keys are kept, no key is removed, and the fetch uses exactly the merged filters |
| SchemeStore.SetFiltersIdempotent | src/stores/schemeStore.ts:84-86 | applying the same argument twice leaves the same filters as once |
| SchemeStore.ClearFilters | src/stores/schemeStore.ts:89-92 | the filters become empty and the fetch is unfiltered |
| SchemeStore.SetRecommendedSchemes | src/stores/schemeStore.ts:94-96 | only the recommendations change |
| AuthStore.Initialize | src/stores/authStore.ts:31-88 | no current user clears user, profile and role and ends loading; a user gets the looked-up profile, or on a failed lookup an inserted row `{id: user.id}` and the created profile, with role PUBLIC_USER and authenticated; a failure changes only loading and the error, which is the failed call's message or 'Failed to initialize authentication' when that is empty |
| AuthStore.SetUser | src/stores/authStore.ts:90-93 | authenticated exactly when the user is non-null; nothing else changes |
| AuthStore.SetProfile | src/stores/authStore.ts:95 | only the profile changes |
| AuthStore.SetRole | src/stores/authStore.ts:97 | only the role changes |
| AuthStore.SetError | src/stores/authStore.ts:99 | only the error changes |
| AuthStore.ClearAuth | src/stores/authStore.ts:101-107 | user, profile, role and error are cleared, not authenticated, loading untouched |
| AuthStore.StepKeepsConsistent | src/stores/authStore.ts:31-107 | every store action keeps `isAuthenticated` equal to "a user is set" |
| AuthStore.RunKeepsConsistent | src/stores/authStore.ts:23-107 | every sequence of store actions keeps that invariant |
| AuthStore.InitialRunsConsistent | src/stores/authStore.ts:23-30 | the store starts signed out and loading, and every sequence of actions from there leaves it authenticated exactly when a user is set |
| Assistant.DispatchIsFirstMatch | src/lib/ai-assistant.ts:93-119 | the reply topic is that of the first rule whose keyword occurs in the lowered message, and the default exactly when no rule fires |
| Assistant.DispatchPicks | src/lib/ai-assistant.ts:93-119 | with distinct topics, a rule's topic is answered exactly when that rule fires and none before it does |
| Assistant.NewAssistant | src/lib/ai-assistant.ts:19-30 | the language defaults to 'en'; the history is exactly one assistant welcome, English iff the language is 'en' |
| Assistant.SendMessage | src/lib/ai-assistant.ts:38-59 | the history grows by the user's text verbatim then the reply; the returned message is the new last entry; the reply is Hindi exactly for 'hi' |
| Assistant.SetLanguage | src/lib/ai-assistant.ts:62-64 | only the language changes |
| Assistant.UpdateUserProfile | src/lib/ai-assistant.ts:67-69 | only the stored profile changes |
| Assistant.ClearChatHistory | src/lib/ai-assistant.ts:72-81 | the history is one welcome for the current language |
| Assistant.ReplyDependsOnLanguageAndText | src/lib/ai-assistant.ts:84-91 | the reply depends only on the language and the lower-cased message, not on history or profile |
| Assistant.EligibilityComesFirst | src/lib/ai-assistant.ts:94-96 | an English message mentioning eligibility gets the eligibility reply whatever else it mentions |
| Assistant.ComplaintComesLast | src/lib/ai-assistant.ts:94-119 | the grievance reply is given exactly when the sixth rule fires and none of the first five does |
| Assistant.ConversationGrows | src/lib/ai-assistant.ts:38-59 | n messages add exactly 2n entries and keep the earlier history as a prefix |
| Assistant.ConversationAlternates | src/lib/ai-assistant.ts:38-59 | in a conversation the i-th message appears verbatim at its position, followed by an assistant reply |
| Assistant.WelcomeAndRepliesDisagree | src/lib/ai-assistant.ts:84-91 | for a code other than 'en' and 'hi' the welcome is Hindi and the replies English |
| Validation.MatchDigitString | src/pages/applications/ApplicationFormPage.tsx:35-39 | a scan accepts exactly the strings of n decimal digits, the `^\d{n}$` rule of PIN code, phone and Aadhaar |
| Validation.MatchOtpPhone | src/components/auth/LoginForm.tsx:28-31 | a scan accepts exactly `^\+?[0-9]{10,12}$` |
| ApplicationForm.InitialValues | src/pages/applications/ApplicationFormPage.tsx:129-143 | the form opens with the profile's name, age, gender, district, state and income (each only when truthy) and the account email; address, PIN, phone and Aadhaar empty; declaration unticked |
| ApplicationForm.Errors | src/pages/applications/ApplicationFormPage.tsx:28-41 | no error exactly when every field is filled, age > 0, income >= 0, PIN 6 digits, phone 10 digits, Aadhaar 12 digits, the email well-formed and the declaration ticked |
| ApplicationForm.InitialValuesInvalid | src/pages/applications/ApplicationFormPage.tsx:129-143 | the form never opens valid |
| ApplicationForm.ChooseFile | src/pages/applications/ApplicationFormPage.tsx:43-55 | an empty pick changes nothing; otherwise the new file comes last, no other file has its type, and every file of another type is kept |
| ApplicationForm.ChooseFileKeepsOnePerType | src/pages/applications/ApplicationFormPage.tsx:43-55 | at most one file per document type is kept, and the other files keep their relative order |
| ApplicationForm.SelectedFile | src/pages/applications/ApplicationFormPage.tsx:337-339 | a file is shown as selected exactly when one has that type |
| ApplicationForm.ChooseFileIsSelected | src/pages/applications/ApplicationFormPage.tsx:337-339 | after a pick, the file shown for that type is the one just picked |
| ApplicationForm.Buttons | src/pages/applications/ApplicationFormPage.tsx:463-507 | Back appears exactly after step 1 (Cancel otherwise), Next exactly before step 3 (Submit otherwise) |
| ApplicationForm.Press | src/pages/applications/ApplicationFormPage.tsx:74-75 | a step in 1..3 stays in 1..3; Next adds one only before step 3, Back subtracts one only after step 1 |
| ApplicationForm.NavigateStaysInRange | src/pages/applications/ApplicationFormPage.tsx:74-75 | every sequence of presses keeps the step in 1..3 |
| ApplicationForm.SubmitEnabled | src/pages/applications/ApplicationFormPage.tsx:493-495 | submit is enabled exactly on the last step with valid values, nothing loading and at least one file |
| ApplicationForm.OneDocumentIsEnough | src/pages/applications/ApplicationFormPage.tsx:495 | one file enables submit for a scheme that asks for two documents |
| ApplicationForm.AsRow | src/pages/applications/ApplicationFormPage.tsx:60-65 | the submitted data holds exactly the twelve form fields, each under its own key with the form's value (empty numeric fields as the empty string), declaration and Aadhaar included |
| ApplicationForm.HandleSubmit | src/pages/applications/ApplicationFormPage.tsx:57-72 | without a scheme id or user nothing is submitted; otherwise the draft is the user's, for this scheme, 'Pending', with the form values, and it is what the store submits: the uploads, the inserted payload, the calls' outcome and the store's new state are exactly those `ApplicationStore.Submitted` gives for that draft; the page goes to /applications exactly when the store reports success |
| GrievanceForm.Prefill | src/pages/grievances/GrievanceFormPage.tsx:73-78 | the application comes from the query parameter and the scheme from a cached application with that id, empty when none matches |
| GrievanceForm.PrefillTakesFirstMatch | src/pages/grievances/GrievanceFormPage.tsx:76 | the scheme is that of the first cached application with the id |
| GrievanceForm.Errors | src/pages/grievances/GrievanceFormPage.tsx:31-36 | no error exactly when an issue type is chosen and the description has at least 10 characters |
| GrievanceForm.AddFiles | src/pages/grievances/GrievanceFormPage.tsx:38-43 | picked files are appended in order after the existing ones, which are unchanged |
| GrievanceForm.AddFilesTwice | src/pages/grievances/GrievanceFormPage.tsx:38-43 | two picks attach the same as one pick of both lists |
| GrievanceForm.SameFileTwice | src/pages/grievances/GrievanceFormPage.tsx:38-43 | picking the same file twice attaches it twice |
| GrievanceForm.OrNull | src/pages/grievances/GrievanceFormPage.tsx:52-53 | an empty scheme or application is sent as null, any other value as itself |
| GrievanceForm.HandleSubmit | src/pages/grievances/GrievanceFormPage.tsx:45-62 | without a user nothing is submitted; otherwise the draft is the user's, 'Pending', the scheme and application ids as typed with empty ones null, and it is what the store submits: the uploads, the inserted payload, the reload for that user and the store's new list and error are exactly those `GrievanceStore.Submitted` gives for that draft; the page goes to /grievances exactly when the store reports success |
| Common.ContainsAt | src/pages/schemes/SchemeListPage.tsx:21-23 | the recursive `includes` holds exactly when some offset of the text starts a copy of the part |
| SchemeList.FilteredSchemes | src/pages/schemes/SchemeListPage.tsx:20-24 | a scheme is kept exactly when the lowered term occurs in its lowered title, description or ministry |
| SchemeList.FilteredIsSubsequence | src/pages/schemes/SchemeListPage.tsx:20 | the result keeps the store's order |
| SchemeList.EmptySearchKeepsAll | src/pages/schemes/SchemeListPage.tsx:20-24 | an empty term keeps every scheme |
| SchemeList.SearchIgnoresCase | src/pages/schemes/SchemeListPage.tsx:20-24 | terms equal after lower-casing select the same schemes |
| SchemeList.CategoryIsNotSearched | src/pages/schemes/SchemeListPage.tsx:20-24 | for every scheme, category and term, the category does not change whether the scheme matches, so a scheme mentioning the term only in its category is never in the result |
| SchemeList.ToggleFilters | src/pages/schemes/SchemeListPage.tsx:37-39 | the filter panel flag flips |
| SchemeList.HandleFilterChange | src/pages/schemes/SchemeListPage.tsx:32-34 | exactly one key is set, every other filter is kept, and the fetch uses the new filters |
| SchemeList.ChoosingAllDropsTheCondition | src/pages/schemes/SchemeListPage.tsx:92-95 | choosing an "All" option keeps the key but removes its condition from the query, keeping the others |
| AuthForms.EmailErrors | src/components/auth/RegisterForm.tsx:19-32 | no error exactly when the email is well-formed and the password has at least 6 characters; on the registration form also a name of at least 2 characters and a confirmation equal to the password (the login form, src/components/auth/LoginForm.tsx lines 19-26, has the first two rules only) |
| AuthForms.PhoneErrors | src/components/auth/RegisterForm.tsx:34-42 | no error exactly when the number matches `^\+?[0-9]{10,12}$` and, once a code was sent, a code is given; on the registration form also a name of at least 2 characters (the login form, lines 28-33 of its file, has no name) |
| AuthForms.EmailSubmit | src/components/auth/LoginForm.tsx:35-52 | navigation home (after re-initialising) happens exactly when the call returns data and no error; an error is reported with its message or 'Login failed'; submitting stops last. Sign-up (src/components/auth/RegisterForm.tsx lines 44-62) is the same, going to /profile with 'Registration failed' |
| AuthForms.SendOtp | src/components/auth/LoginForm.tsx:54-69 | the number is remembered; the code counts as sent only when the request returns no error; an error is reported with its message or 'Failed to send OTP' |
| AuthForms.VerifyOtp | src/components/auth/LoginForm.tsx:71-83 | the form state is kept; the store is re-initialised and the form goes home, whatever the code |
| AuthForms.Step | src/components/auth/LoginForm.tsx:85-255 | the toggle flips the channel and discards a sent code; a tab only sets the channel; resend marks the code as not sent; a valid phone submission verifies once a code was sent and sends one before; an invalid one, or one while the email form is shown, runs nothing |
| AuthForms.OnlySendMarksSent | src/components/auth/LoginForm.tsx:54-69 | only a successful send of a valid number from the phone form marks a code as sent |
| AuthForms.RunKeepsSentToValidNumber | src/components/auth/RegisterForm.tsx:64-79 | in every run a code counts as sent only for a number the phone rule accepts |
| AuthForms.TabKeepsToggleResets | src/components/auth/RegisterForm.tsx:95-117 | the tabs keep a sent code, the toggle discards it |
| AuthForms.VerifyIgnoresCode | src/components/auth/RegisterForm.tsx:81-93 | once a code was sent, any two valid submissions have the same effect: re-initialise, go home, stop submitting |
| ProfilePage.Errors | src/pages/user/ProfilePage.tsx:15-26 | no error exactly when a name is given, age and income are non-negative when given, and the Aadhaar number has 12 digits when given |
| ProfilePage.InitialValues | src/pages/user/ProfilePage.tsx:87-98 | the form opens with the profile's name, age, gender, caste category, religion, income, state, district and city/village (each only when truthy) and an empty Aadhaar field |
| ProfilePage.Updates | src/pages/user/ProfilePage.tsx:32-45 | the update is `id` plus exactly nine profile fields, each carrying the form's value (empty numeric fields as the empty string), never the Aadhaar number |
| ProfilePage.Overlay | src/pages/user/ProfilePage.tsx:54-57 | the stored profile is the old one (or `{}`) overlaid with the updates: updated fields take the new value, others are kept |
| ProfilePage.OverlayIdempotent | src/pages/user/ProfilePage.tsx:54-57 | saving the same values twice stores the same profile as once |
| ProfilePage.HandleSubmit | src/pages/user/ProfilePage.tsx:28-66 | no user sends nothing; the update is sent first; success stores the overlaid profile and then shows success; an error stores nothing and shows its message; submitting stops last on every path |
| ProfilePage.SavedExactlyOnSuccess | src/pages/user/ProfilePage.tsx:47-63 | success is shown, and the profile stored, exactly when a signed-in user's update succeeded |
| ProfilePage.SaveKeepsOtherFields | src/pages/user/ProfilePage.tsx:54-57 | fields the form does not write survive a save |

## Left out

- The backend wrappers in src/lib/supabase.ts are not part of this model. Each call is an input `Reply`. Only two of its behaviours are used: the list query ignores falsy filter values, and uploads refuse to overwrite (described above, not proved).
- Rendering, routing, translations, the chat page, the language switcher, spinners and badges are left out. They are display-only or library configuration.
- `getChatHistory` is left out: it only returns the history.
- Concurrency is left out. Each store action is atomic, so overlapping submissions and the `isLoading` race are not modelled. `setFilters` starts a fetch without awaiting it; the model applies the merge and the fetch's outcome as one step.
- The clock and date formatting are inputs: upload stamps are `nat` milliseconds and `submitted_at` is a string.
- Common.Lower: lower-cases ASCII letters only, not all of Unicode. The Hindi keywords are unaffected, because Devanagari has no case.
- Validation: the email-format rule is an abstract predicate `isEmail`. String lengths count Unicode scalar values, where JavaScript counts UTF-16 code units.
- Validation: numbers are integers, so fractional ages and incomes are not modelled.
- ApplicationStore.SubmitNewApplication: the insert reply gives the returned row or no row. An insert returning an empty list, where the code would append `undefined`, is not modelled.
- ApplicationForm.SubmitEnabled: takes Formik's `isValid` to be the verdict of the validation rules on the current values. Formik reports a form whose errors are still the initial empty object as valid, and that never-validated state is not modelled.
- GrievanceForm.Prefill: when no cached application matches, the scheme field is `undefined` in the code and empty here. Both are sent as `null`.
- AuthForms.VerifyOtp: the catch branch ('Invalid OTP') is not modelled. Re-initialising the store never throws, so that branch cannot run.
- Assistant: canned texts are named by their table and topic (`Content`). `Assistant.Render` gives each one's exact text.
- Assistant.SendMessage: states the history and the reply's table. The exact reply topic is stated by `Assistant.DispatchIsFirstMatch`, `Assistant.EligibilityComesFirst` and `Assistant.ComplaintComesLast`.
