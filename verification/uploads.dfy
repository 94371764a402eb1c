/** The document-upload loop shared by the application and grievance stores:
    one upload per chosen file, awaited one at a time in list order, stopping
    at the first error, collecting the storage paths the uploads return. */
module Uploads {
  import opened Common

  /** A file chosen in a form. `tag` is the document type the application
      form attaches to the file; the grievance form attaches none. */
  datatype Document = Document(name: string, tag: Option<string>)

  /** One call to the storage service: the bucket and the destination path. */
  datatype UploadRequest = UploadRequest(bucket: string, path: string)

  /** What one upload returns: the stored path (absent when the reply
      carries no `data.path`), or an error. */
  type UploadReply = Reply<Option<string>>

  /** The observable effect of the loop: the uploads it attempted, in order,
      the paths it collected, in order, and the message of the error that
      stopped it, if any. */
  datatype UploadRun = UploadRun(attempts: seq<UploadRequest>, paths: seq<string>, failure: Option<string>)

  /** `<owner>/<timestamp>_<file name>`, the timestamp being the clock
      reading in milliseconds at the time of the upload. */
  function DestinationPath(owner: string, stamp: nat, name: string): string
  {
    owner + "/" + DecimalText(stamp) + "_" + name
  }

  /** The uploads a run over all of `docs` would attempt, the i-th at clock
      reading `stamps[i]`. */
  function Requests(bucket: string, owner: string, docs: seq<Document>, stamps: seq<nat>): seq<UploadRequest>
    requires |stamps| == |docs|
  {
    seq(|docs|, i requires 0 <= i < |docs| => UploadRequest(bucket, DestinationPath(owner, stamps[i], docs[i].name)))
  }

  predicate Failed(r: UploadReply)
  {
    r.Err?
  }

  /** No upload reply is an error. */
  predicate NoneFailed(replies: seq<UploadReply>)
  {
    forall j :: 0 <= j < |replies| ==> replies[j].Ok?
  }

  /** The index of the first failing upload, or `|replies|`. */
  function FirstFailure(replies: seq<UploadReply>): nat
  {
    FirstIndex(replies, Failed)
  }

  /** The reply returned a path; an empty path is falsy and counts as
      none. */
  predicate HasPath(r: UploadReply)
  {
    r.Ok? && r.data.Some? && r.data.value != ""
  }

  /** The path a reply contributes: one when it returned a path, none
      otherwise. */
  function PathOf(r: UploadReply): seq<string>
  {
    if HasPath(r) then [r.data.value] else []
  }

  /** The paths collected from `replies`, in reply order. */
  function StoredPaths(replies: seq<UploadReply>): (paths: seq<string>)
    ensures |paths| <= |replies|
  {
    if |replies| == 0 then []
    else StoredPaths(replies[..|replies| - 1]) + PathOf(replies[|replies| - 1])
  }

  /** `paths` sits inside `replies` at the strictly increasing positions
      `idx`, each a reply that returned a path, and every reply that
      returned a path is one of them. */
  ghost predicate Positions(paths: seq<string>, replies: seq<UploadReply>, idx: seq<nat>)
  {
    && |idx| == |paths|
    && (forall i :: 0 <= i < |idx| ==> idx[i] < |replies| && replies[idx[i]] == Ok(Some(paths[i])) && HasPath(replies[idx[i]]))
    && (forall i, j :: 0 <= i < j < |idx| ==> idx[i] < idx[j])
    && (forall d :: 0 <= d < |replies| && HasPath(replies[d]) ==> d in idx)
  }

  /** One more reply keeps the positions: a reply with a path adds its
      own position at the end. */
  lemma PositionsExtend(
    paths: seq<string>, front: seq<UploadReply>, idx: seq<nat>, r: UploadReply,
    paths': seq<string>, replies: seq<UploadReply>)
    requires Positions(paths, front, idx)
    requires replies == front + [r] && paths' == paths + PathOf(r)
    ensures Positions(paths', replies, if HasPath(r) then idx + [|front|] else idx)
  {
    var idx' := if HasPath(r) then idx + [|front|] else idx;
    assert forall d :: 0 <= d < |front| ==> replies[d] == front[d];
    assert |idx'| == |paths'|;
    forall i | 0 <= i < |idx'|
      ensures idx'[i] < |replies| && replies[idx'[i]] == Ok(Some(paths'[i])) && HasPath(replies[idx'[i]])
    {
      if i < |idx| {
        assert idx'[i] == idx[i] && paths'[i] == paths[i];
      }
    }
    forall i, j | 0 <= i < j < |idx'|
      ensures idx'[i] < idx'[j]
    {
      assert idx'[i] == idx[i];
    }
    forall d | 0 <= d < |replies| && HasPath(replies[d])
      ensures d in idx'
    {
      if d < |front| {
        assert d in idx;
      } else {
        assert idx'[|idx|] == d;
      }
    }
  }

  /** The collected paths are an order-preserving selection of the replies:
      exactly the replies that returned a path, in the order the documents
      were uploaded. */
  lemma {:induction false} StoredPathsInOrder(replies: seq<UploadReply>) returns (idx: seq<nat>)
    ensures Positions(StoredPaths(replies), replies, idx)
  {
    if |replies| == 0 {
      idx := [];
    } else {
      var n := |replies| - 1;
      var front := replies[..n];
      var r := replies[n];
      var inner := StoredPathsInOrder(front);
      assert front + [r] == replies;
      PositionsExtend(StoredPaths(front), front, inner, r, StoredPaths(replies), replies);
      idx := if HasPath(r) then inner + [n] else inner;
    }
  }

  /** Positional correspondence: the collected list has one path per
      document exactly when every upload returned a path, and then the i-th
      path belongs to the i-th document. */
  lemma {:induction false} StoredPathsPositional(replies: seq<UploadReply>)
    ensures |StoredPaths(replies)| == |replies| <==> forall i :: 0 <= i < |replies| ==> HasPath(replies[i])
    ensures (forall i :: 0 <= i < |replies| ==> HasPath(replies[i])) ==>
      forall i :: 0 <= i < |replies| ==> StoredPaths(replies)[i] == replies[i].data.value
  {
    if |replies| > 0 {
      var n := |replies| - 1;
      var front := replies[..n];
      StoredPathsPositional(front);
      assert forall d :: 0 <= d < n ==> replies[d] == front[d];
      if !HasPath(replies[n]) {
        assert |StoredPaths(replies)| == |StoredPaths(front)| <= n;
      }
    }
  }

  /** The upload loop of both stores. For each document in list order it
      uploads to `<owner>/<stamp>_<name>` in `bucket`; an error reply ends
      the loop at once; a reply with a path adds that path to the list. */
  method UploadSequentially(bucket: string, owner: string, docs: seq<Document>, stamps: seq<nat>, replies: seq<UploadReply>)
    returns (run: UploadRun)
    requires |stamps| == |docs| && |replies| == |docs|
    ensures var k := FirstFailure(replies);
      && run.attempts == Requests(bucket, owner, docs, stamps)[..if k < |docs| then k + 1 else k]
      && run.paths == StoredPaths(replies[..k])
      && run.failure == (if k < |docs| then Some(replies[k].message) else None)
    ensures run.failure.None? <==> NoneFailed(replies)
    ensures run.failure.None? ==> run.attempts == Requests(bucket, owner, docs, stamps) && run.paths == StoredPaths(replies)
  {
    var attempts: seq<UploadRequest> := [];
    var paths: seq<string> := [];
    var i := 0;
    while i < |docs|
      invariant 0 <= i <= |docs|
      invariant forall j :: 0 <= j < i ==> replies[j].Ok?
      invariant attempts == Requests(bucket, owner, docs, stamps)[..i]
      invariant paths == StoredPaths(replies[..i])
    {
      var request := UploadRequest(bucket, DestinationPath(owner, stamps[i], docs[i].name));
      assert Requests(bucket, owner, docs, stamps)[..i + 1] == Requests(bucket, owner, docs, stamps)[..i] + [request];
      attempts := attempts + [request];
      match replies[i]
      case Err(message) =>
        assert FirstFailure(replies) == i;
        run := UploadRun(attempts, paths, Some(message));
        return;
      case Ok(data) =>
        if data.Some? && data.value != "" {
          paths := paths + [data.value];
        }
      assert replies[..i + 1][..i] == replies[..i];
      i := i + 1;
    }
    assert replies[..i] == replies;
    assert FirstFailure(replies) == |docs|;
    run := UploadRun(attempts, paths, None);
  }
}
