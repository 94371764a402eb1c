/** The client-side grievance store: the cached list of the user's
    grievances, its fetch, and the submission pipeline (upload every
    document, insert one grievance, then refetch the whole list). */
module GrievanceStore {
  import opened Common
  import opened Records
  import opened Uploads

  const Bucket := "grievance-documents"
  const FetchError := "Failed to fetch grievances"
  const SubmitError := "Failed to submit grievance"

  datatype State = State(
    grievances: seq<Grievance>,
    current: Option<Grievance>,
    isLoading: bool,
    error: Option<string>)

  const Initial := State([], None, false, None)

  /** What the form hands to the store. */
  datatype Draft = Draft(
    userId: string,
    issueType: string,
    description: string,
    schemeId: Option<string>,
    applicationId: Option<string>,
    status: string)

  /** The record sent to the `grievances` table. */
  datatype Insert = Insert(
    userId: string,
    issueType: string,
    description: string,
    schemeId: Option<string>,
    applicationId: Option<string>,
    status: string,
    documentIds: Option<seq<string>>)

  /** The calls one submission made and what it returned to its caller;
      `refetchedFor` is the user whose list was reloaded, if any. */
  datatype Submission = Submission(uploads: seq<UploadRequest>, inserted: Option<Insert>, refetchedFor: Option<string>, ok: bool)

  /** The inserted record: the draft's fields, `null` documents when no path
      was collected, and the status forced to Pending whatever the draft
      said. */
  function Payload(d: Draft, paths: seq<string>): (p: Insert)
    ensures p.userId == d.userId && p.issueType == d.issueType && p.description == d.description
    ensures p.schemeId == d.schemeId && p.applicationId == d.applicationId
    ensures p.status == Pending
    ensures p.documentIds.None? <==> |paths| == 0
    ensures p.documentIds.Some? ==> p.documentIds.value == paths
  {
    Insert(d.userId, d.issueType, d.description, d.schemeId, d.applicationId, Pending,
           if |paths| > 0 then Some(paths) else None)
  }

  /** `fetchUserGrievances`: a successful reply replaces the list with its
      data (an empty list for `null`); a failed one keeps the list and sets
      a fixed message, whatever the error said. */
  function FetchUserGrievances(s: State, reply: Reply<Option<seq<Grievance>>>): (s': State)
    ensures !s'.isLoading && s'.current == s.current
    ensures reply.Ok? ==> s'.grievances == OrEmpty(reply.data) && s'.error == None
    ensures reply.Err? ==> s'.grievances == s.grievances && s'.error == Some(FetchError)
  {
    var started := s.(isLoading := true, error := None);
    match reply
    case Ok(data) => started.(grievances := OrEmpty(data), isLoading := false)
    case Err(_) => started.(isLoading := false, error := Some(FetchError))
  }

  /** What `submitNewGrievance` does with `draft` and `docs`, the i-th
      document uploaded at `stamps[i]` and answered by `replies[i]`, the
      insert answered by `insertReply` and the reload by `refetch`: the
      state goes from `s` to `s'` and the calls made are `call`. */
  ghost predicate Submitted(
    s: State, draft: Draft, docs: seq<Document>, stamps: seq<nat>, replies: seq<UploadReply>,
    insertReply: Reply<()>, refetch: Reply<Option<seq<Grievance>>>, s': State, call: Submission)
    requires |stamps| == |docs| && |replies| == |docs|
  {
    // uploads go in list order to the grievance bucket and stop at the first error
    && call.uploads <= Requests(Bucket, draft.userId, docs, stamps)
    && (NoneFailed(replies) ==> call.uploads == Requests(Bucket, draft.userId, docs, stamps))
    && (!NoneFailed(replies) ==> |call.uploads| == FirstFailure(replies) + 1)
    // the insert happens exactly when no upload failed
    && (call.inserted.Some? <==> NoneFailed(replies))
    && (call.inserted.Some? ==> call.inserted.value == Payload(draft, StoredPaths(replies)))
    // the reload happens exactly after a successful insert, for the draft's owner
    && (call.refetchedFor.Some? <==> call.ok)
    && (call.refetchedFor.Some? ==> call.refetchedFor.value == draft.userId)
    && (call.ok <==> NoneFailed(replies) && insertReply.Ok?)
    // success: the list is whatever the reload says, not the old list plus one
    && (call.ok && refetch.Ok? ==> s'.grievances == OrEmpty(refetch.data) && s'.error == None)
    && (call.ok && refetch.Err? ==> s'.grievances == s.grievances && s'.error == Some(FetchError))
    // failure: the list is untouched and the message is fixed
    && (!call.ok ==> s'.grievances == s.grievances && s'.error == Some(SubmitError))
    && !s'.isLoading && s'.current == s.current
  }

  /** `submitNewGrievance`. Uploads as the application store does, into the
      grievance bucket; `insertReply` answers the insert and `refetch` the
      reload of the user's list that follows a successful insert. */
  method SubmitNewGrievance(
    s: State, draft: Draft, docs: seq<Document>, stamps: seq<nat>, replies: seq<UploadReply>,
    insertReply: Reply<()>, refetch: Reply<Option<seq<Grievance>>>)
    returns (s': State, call: Submission)
    requires |stamps| == |docs| && |replies| == |docs|
    ensures Submitted(s, draft, docs, stamps, replies, insertReply, refetch, s', call)
  {
    var started := s.(isLoading := true, error := None);
    var run := UploadSequentially(Bucket, draft.userId, docs, stamps, replies);
    if run.failure.Some? {
      s' := started.(isLoading := false, error := Some(SubmitError));
      call := Submission(run.attempts, None, None, false);
      return;
    }
    var payload := Payload(draft, run.paths);
    if insertReply.Err? {
      s' := started.(isLoading := false, error := Some(SubmitError));
      call := Submission(run.attempts, Some(payload), None, false);
      return;
    }
    var reloaded := FetchUserGrievances(started, refetch);
    s' := reloaded.(isLoading := false);
    call := Submission(run.attempts, Some(payload), Some(draft.userId), true);
  }

  /** `setCurrentGrievance`: only the current grievance changes. */
  function SetCurrentGrievance(s: State, grievance: Option<Grievance>): (s': State)
    ensures s'.current == grievance
    ensures s'.grievances == s.grievances && s'.isLoading == s.isLoading && s'.error == s.error
  {
    s.(current := grievance)
  }
}
