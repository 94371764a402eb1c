/** The grievance form: an issue type, a description, an optional related
    scheme and application, and any number of attached files. */
module GrievanceForm {
  import opened Common
  import opened Records
  import opened Validation
  import opened Uploads
  import GrievanceStore

  /** The form values; an empty string is an empty field. */
  datatype Values = Values(issueType: string, description: string, schemeId: string, applicationId: string)

  /** The values the form opens with, given the `application` query
      parameter and the cached applications: the application from the
      parameter, and the scheme of the first cached application with that
      id (empty when none matches or there is no parameter). */
  function Prefill(applicationParam: Option<string>, applications: seq<Application>): (v: Values)
    ensures v.issueType == "" && v.description == ""
    ensures applicationParam.None? || applicationParam == Some("") ==> v.applicationId == "" && v.schemeId == ""
    ensures applicationParam.Some? && applicationParam != Some("") ==> v.applicationId == applicationParam.value
    ensures applicationParam.Some? && v.schemeId != "" ==>
      exists i :: 0 <= i < |applications| && applications[i].id == applicationParam.value && applications[i].schemeId == v.schemeId
    ensures applicationParam.Some? && (forall i :: 0 <= i < |applications| ==> applications[i].id != applicationParam.value) ==>
      v.schemeId == ""
  {
    match applicationParam
    case Some(id) =>
      if id == "" then Values("", "", "", "")
      else
        var k := FirstIndex(applications, (a: Application) => a.id == id);
        Values("", "", if k < |applications| then applications[k].schemeId else "", id)
    case None => Values("", "", "", "")
  }

  /** The prefilled scheme is that of the first cached application with the
      parameter's id. */
  lemma PrefillTakesFirstMatch(id: string, applications: seq<Application>, k: nat)
    requires id != "" && k < |applications| && applications[k].id == id
    requires forall j :: 0 <= j < k ==> applications[j].id != id
    ensures Prefill(Some(id), applications).schemeId == applications[k].schemeId
  {
  }

  /** The error messages the form shows, keyed by field. The related scheme
      and application are optional and never in error. */
  function Errors(v: Values): (errors: map<string, string>)
    ensures errors == map[] <==> Present(v.issueType) && |v.description| >= 10
  {
    Report("issue_type", Check(Present(v.issueType), true, "Issue type is required", ""),
    Report("description", Check(Present(v.description), |v.description| >= 10, "Description is required", "Description is too short"),
    map[]))
  }

  /** `handleFileChange`: the picked files, untagged, after the ones
      already attached; nothing is replaced or merged. */
  function AddFiles(docs: seq<Document>, picked: seq<string>): (r: seq<Document>)
    ensures |r| == |docs| + |picked|
    ensures r[..|docs|] == docs
    ensures forall i :: 0 <= i < |picked| ==> r[|docs| + i] == Document(picked[i], None)
  {
    docs + seq(|picked|, i requires 0 <= i < |picked| => Document(picked[i], None))
  }

  /** Two picks attach the same files as one pick of both lists, in the
      same order. */
  lemma AddFilesTwice(docs: seq<Document>, first: seq<string>, second: seq<string>)
    ensures AddFiles(AddFiles(docs, first), second) == AddFiles(docs, first + second)
  {
    var a := AddFiles(AddFiles(docs, first), second);
    var b := AddFiles(docs, first + second);
    assert |a| == |b|;
    forall i | 0 <= i < |a| ensures a[i] == b[i] {
      if i < |docs| {
        assert a[i] == AddFiles(docs, first)[..|docs|][i];
      } else if i < |docs| + |first| {
        assert a[i] == AddFiles(docs, first)[i];
      }
    }
  }

  /** Picking the same file again attaches it a second time. */
  lemma SameFileTwice(docs: seq<Document>, name: string)
    ensures var r := AddFiles(AddFiles(docs, [name]), [name]);
      |r| == |docs| + 2 && r[|docs|] == r[|docs| + 1] == Document(name, None)
  {
  }

  /** An optional form value as the record field: empty becomes `null`. */
  function OrNull(s: string): (o: Option<string>)
    ensures o.None? <==> s == ""
    ensures o.Some? ==> o.value == s
  {
    if s == "" then None else Some(s)
  }

  /** What one press of Submit did. */
  datatype Outcome = Outcome(
    draft: Option<GrievanceStore.Draft>,
    submission: Option<GrievanceStore.Submission>,
    navigateTo: Option<string>)

  /** `handleSubmit`; the remaining parameters are the store and the
      replies its submission receives. */
  method HandleSubmit(
    user: Option<User>, v: Values, docs: seq<Document>,
    store: GrievanceStore.State, stamps: seq<nat>, replies: seq<UploadReply>,
    insertReply: Reply<()>, refetch: Reply<Option<seq<Grievance>>>)
    returns (store': GrievanceStore.State, out: Outcome)
    requires |stamps| == |docs| && |replies| == |docs|
    // without a signed-in user nothing is submitted
    ensures user.None? ==> store' == store && out == Outcome(None, None, None)
    // otherwise the draft is the user's, pending, with empty optional fields sent as null
    ensures user.Some? ==> out.draft.Some? && out.submission.Some?
    ensures out.draft.Some? ==>
      && out.draft.value.userId == user.value.id
      && out.draft.value.issueType == v.issueType && out.draft.value.description == v.description
      && out.draft.value.schemeId == OrNull(v.schemeId)
      && out.draft.value.applicationId == OrNull(v.applicationId)
      && out.draft.value.status == Pending
    // and that draft is what the store submits: its uploads, insert, reload and new state are the page's
    ensures out.draft.Some? ==>
      && out.submission.Some?
      && GrievanceStore.Submitted(store, out.draft.value, docs, stamps, replies, insertReply, refetch, store', out.submission.value)
    // every attached file is offered for upload, in order, and nothing after the first failure
    ensures out.submission.Some? ==>
      out.submission.value.uploads <= Requests(GrievanceStore.Bucket, user.value.id, docs, stamps)
    // the page moves to the grievance list exactly when the store reports success
    ensures out.navigateTo.Some? <==> out.submission.Some? && out.submission.value.ok
    ensures out.navigateTo.Some? ==> out.navigateTo.value == "/grievances"
    ensures out.navigateTo.Some? <==> user.Some? && NoneFailed(replies) && insertReply.Ok?
  {
    if user.None? {
      return store, Outcome(None, None, None);
    }
    var draft := GrievanceStore.Draft(user.value.id, v.issueType, v.description, OrNull(v.schemeId), OrNull(v.applicationId), Pending);
    var call;
    store', call := GrievanceStore.SubmitNewGrievance(store, draft, docs, stamps, replies, insertReply, refetch);
    out := Outcome(Some(draft), Some(call), if call.ok then Some("/grievances") else None);
  }
}
