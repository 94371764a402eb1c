/** The client-side application store: the cached list of the user's
    applications, its fetch, and the submission pipeline (upload every
    document, insert one application, append the returned row). */
module ApplicationStore {
  import opened Common
  import opened Records
  import opened Uploads

  const Bucket := "application-documents"
  const FetchFallback := "Failed to fetch applications"
  const SubmitFallback := "Failed to submit application"

  datatype State = State(
    applications: seq<Application>,
    current: Option<Application>,
    isLoading: bool,
    error: Option<string>)

  const Initial := State([], None, false, None)

  /** What the form hands to the store: the owner, the scheme, a status and
      the form values as free-form submitted data. */
  datatype Draft = Draft(userId: string, schemeId: string, status: string, submittedData: Row)

  /** The record sent to the `applications` table. */
  datatype Insert = Insert(userId: string, schemeId: string, status: string, documentIds: seq<string>, submittedData: Row)

  /** The calls one submission made and what it returned to its caller. */
  datatype Submission = Submission(uploads: seq<UploadRequest>, inserted: Option<Insert>, ok: bool)

  /** The inserted record: every field of the draft, the collected paths as
      `document_ids`, and the submitted data extended with the same paths
      under `documents` and the submission stamp under `submitted_at`. */
  function Payload(d: Draft, paths: seq<string>, submittedAt: string): (p: Insert)
    ensures p.userId == d.userId && p.schemeId == d.schemeId && p.status == d.status
    ensures p.documentIds == paths
    ensures p.submittedData.Keys == d.submittedData.Keys + {"documents", "submitted_at"}
    ensures p.submittedData["documents"] == TextList(p.documentIds)
    ensures p.submittedData["submitted_at"] == Text(submittedAt)
    ensures forall k :: k in d.submittedData && k != "documents" && k != "submitted_at" ==>
      p.submittedData[k] == d.submittedData[k]
  {
    var data := d.submittedData["documents" := TextList(paths)]["submitted_at" := Text(submittedAt)];
    Insert(d.userId, d.schemeId, d.status, paths, data)
  }

  /** `fetchUserApplications`: a successful reply replaces the list with its
      data (an empty list for `null`); a failed one keeps the list and
      records the error. Loading ends either way. */
  function FetchUserApplications(s: State, reply: Reply<Option<seq<Application>>>): (s': State)
    ensures !s'.isLoading && s'.current == s.current
    ensures reply.Ok? ==> s'.applications == OrEmpty(reply.data) && s'.error == None
    ensures reply.Err? ==> s'.applications == s.applications && s'.error == Some(ErrorText(reply.message, FetchFallback))
  {
    var started := s.(isLoading := true, error := None);
    match reply
    case Ok(data) => started.(applications := OrEmpty(data), isLoading := false)
    case Err(message) => started.(isLoading := false, error := Some(ErrorText(message, FetchFallback)))
  }

  /** What `submitNewApplication` does with `draft` and `docs`, the i-th
      document uploaded at `stamps[i]` and answered by `replies[i]`, the
      insert stamped `submittedAt` and answered by `insertReply`: the state
      goes from `s` to `s'` and the calls made are `call`. */
  ghost predicate Submitted(
    s: State, draft: Draft, docs: seq<Document>, stamps: seq<nat>, replies: seq<UploadReply>,
    submittedAt: string, insertReply: Reply<Option<Application>>, s': State, call: Submission)
    requires |stamps| == |docs| && |replies| == |docs|
  {
    // uploads go in list order to the application bucket and stop at the first error
    && call.uploads <= Requests(Bucket, draft.userId, docs, stamps)
    && (NoneFailed(replies) ==> call.uploads == Requests(Bucket, draft.userId, docs, stamps))
    && (!NoneFailed(replies) ==> |call.uploads| == FirstFailure(replies) + 1)
    // the insert happens exactly when no upload failed, with every collected path
    && (call.inserted.Some? <==> NoneFailed(replies))
    && (call.inserted.Some? ==> call.inserted.value == Payload(draft, StoredPaths(replies), submittedAt))
    && (call.ok <==> NoneFailed(replies) && insertReply.Ok?)
    // the cache: appended on success, untouched on failure
    && (call.ok ==> s'.error == None)
    && (call.ok ==>
          s'.applications == s.applications + (if insertReply.data.Some? then [insertReply.data.value] else []))
    && (!call.ok ==> s'.applications == s.applications)
    && (!NoneFailed(replies) ==>
          s'.error == Some(ErrorText(replies[FirstFailure(replies)].message, SubmitFallback)))
    && (NoneFailed(replies) && insertReply.Err? ==>
          s'.error == Some(ErrorText(insertReply.message, SubmitFallback)))
    && !s'.isLoading && s'.current == s.current
  }

  /** `submitNewApplication`. The i-th document is uploaded at clock reading
      `stamps[i]` and answered by `replies[i]`; `submittedAt` is the ISO
      stamp of the insert and `insertReply` the insert's reply (its first
      returned row, or `None` when it returned no data). */
  method SubmitNewApplication(
    s: State, draft: Draft, docs: seq<Document>, stamps: seq<nat>, replies: seq<UploadReply>,
    submittedAt: string, insertReply: Reply<Option<Application>>)
    returns (s': State, call: Submission)
    requires |stamps| == |docs| && |replies| == |docs|
    ensures Submitted(s, draft, docs, stamps, replies, submittedAt, insertReply, s', call)
  {
    var started := s.(isLoading := true, error := None);
    var run := UploadSequentially(Bucket, draft.userId, docs, stamps, replies);
    if run.failure.Some? {
      s' := started.(isLoading := false, error := Some(ErrorText(run.failure.value, SubmitFallback)));
      call := Submission(run.attempts, None, false);
      return;
    }
    var payload := Payload(draft, run.paths, submittedAt);
    match insertReply
    case Err(message) =>
      s' := started.(isLoading := false, error := Some(ErrorText(message, SubmitFallback)));
      call := Submission(run.attempts, Some(payload), false);
    case Ok(row) =>
      var cached := if row.Some? then started.applications + [row.value] else started.applications;
      s' := started.(applications := cached, isLoading := false);
      call := Submission(run.attempts, Some(payload), true);
  }

  /** `setCurrentApplication`: only the current application changes. */
  function SetCurrentApplication(s: State, application: Option<Application>): (s': State)
    ensures s'.current == application
    ensures s'.applications == s.applications && s'.isLoading == s.isLoading && s'.error == s.error
  {
    s.(current := application)
  }
}
