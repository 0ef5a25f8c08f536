/** The upload session transitions of the repository, as values. */
module Uploads {
  import opened Base
  import opened Namespace
  import opened Storage

  datatype UploadStatus = Created | Uploading | Completing | ObjectCompleted | Committed | Aborted | Expired | Failed
  datatype Failure =
    | NoFailure | StorageRejected | SizeMismatch | ChecksumMismatch | ParentUnavailable | NameTakenFailure

  predicate Terminal(s: UploadStatus) {
    s == Committed || s == Aborted || s == Expired || s == Failed
  }

  /** The states a session can be in after it has been in `s`. */
  predicate Follows(s: UploadStatus, t: UploadStatus) {
    match s
    case Created => true
    case Uploading => t != Created
    case Completing => t == Completing || t == ObjectCompleted || t == Committed || t == Failed
    case ObjectCompleted => t == ObjectCompleted || t == Committed || t == Failed
    case _ => t == s
  }

  /** Does a session failed this way still have an object to delete? */
  predicate FailedHasObject(f: Failure) {
    f == SizeMismatch || f == ChecksumMismatch || f == ParentUnavailable || f == NameTakenFailure
  }

  datatype Session = Session(
    tenant: Id, principal: Id, parent: Id, display: string, name: Name,
    expectedSize: nat, declared: Option<Sha>, key: Id, storageUpload: Id,
    status: UploadStatus, digest: Option<seq<Part>>, committedNode: Id, failure: Failure,
    partSize: nat, expiresAt: Time, revision: int, updatedAt: Time)

  /** The completion digest: a hash of the sorted part list, hence a name for that list. */
  function PartsDigest(ps: seq<Part>): seq<Part> {
    SortParts(ps)
  }

  datatype Repo = Repo(drive: Drive, uploads: map<Id, Session>, parts: map<Id, seq<Part>>)

  predicate HasUpload(r: Repo, tenant: Id, u: Id) {
    u in r.uploads && r.uploads[u].tenant == tenant
  }

  function Moved(s: Session, status: UploadStatus, now: Time): Session {
    s.(status := status, revision := s.revision + 1, updatedAt := now)
  }

  function CreateUpload(r: Repo, u: Id, s: Session): (Repo, Result<Session>) {
    if !OpenDirectory(r.drive, s.tenant, s.parent) then (r, Err(NotFound))
    else if NameTaken(r.drive, s.tenant, s.parent, s.name, NONE) then (r, Err(NameConflict))
    else if u in r.uploads then (r, Err(IdempotencyConflict))
    else (r.(uploads := r.uploads[u := s]), Ok(s))
  }

  function MarkUploading(r: Repo, tenant: Id, u: Id, now: Time): (Repo, Result<Session>) {
    if !HasUpload(r, tenant, u) then (r, Err(NotFound))
    else
      var s := r.uploads[u];
      if s.status == Uploading then (r, Ok(s))
      else if s.status != Created then (r, Err(InvalidState))
      else (r.(uploads := r.uploads[u := Moved(s, Uploading, now)]), Ok(Moved(s, Uploading, now)))
  }

  function BeginComplete(
      r: Repo, tenant: Id, u: Id, digest: seq<Part>, parts: seq<Part>, now: Time): (Repo, Result<Session>) {
    if !HasUpload(r, tenant, u) then (r, Err(NotFound))
    else
      var s := r.uploads[u];
      if s.digest.Some? && s.digest.value != digest then (r, Err(IdempotencyConflict))
      else if s.status == Committed || s.status == ObjectCompleted || s.status == Completing then (r, Ok(s))
      else if s.status != Created && s.status != Uploading then (r, Err(InvalidState))
      else if now >= s.expiresAt then (r, Err(InvalidState))
      else
        var t := Moved(s, Completing, now).(digest := Some(digest));
        (r.(uploads := r.uploads[u := t], parts := r.parts[u := parts]), Ok(t))
  }

  function FailUploadCompletion(
      r: Repo, tenant: Id, u: Id, digest: seq<Part>, failure: Failure, now: Time): (Repo, Result<Session>) {
    if failure == NoFailure then (r, Err(InvalidRequest))
    else if !HasUpload(r, tenant, u) then (r, Err(NotFound))
    else
      var s := r.uploads[u];
      if s.digest != Some(digest) then (r, Err(IdempotencyConflict))
      else if s.status == Failed then (r, Ok(s))
      else if s.status != Completing then (r, Err(InvalidState))
      else
        var t := Moved(s, Failed, now).(failure := failure);
        (r.(uploads := r.uploads[u := t]), Ok(t))
  }

  function MarkObjectCompleted(r: Repo, tenant: Id, u: Id, now: Time): (Repo, Result<Session>) {
    if !HasUpload(r, tenant, u) then (r, Err(NotFound))
    else
      var s := r.uploads[u];
      if s.status == ObjectCompleted || s.status == Committed then (r, Ok(s))
      else if s.status != Completing then (r, Err(InvalidState))
      else (r.(uploads := r.uploads[u := Moved(s, ObjectCompleted, now)]), Ok(Moved(s, ObjectCompleted, now)))
  }

  /** Answers the committed node and whether this call committed it. */
  function CommitUpload(
      r: Repo, tenant: Id, u: Id, digest: seq<Part>, node: Id, version: Id, blob: Id, size: nat, now: Time): (Repo,
          Result<(Id, bool)>) {
    if !HasUpload(r, tenant, u) then (r, Err(NotFound))
    else
      var s := r.uploads[u];
      if s.digest != Some(digest) then (r, Err(IdempotencyConflict))
      else if s.status == Committed then (r, Ok((s.committedNode, false)))
      else if s.status != ObjectCompleted then (r, Err(InvalidState))
      else if !OpenDirectory(r.drive, tenant, s.parent) then
        (r.(uploads := r.uploads[u := Moved(s, Failed, now).(failure := ParentUnavailable)]), Err(NotFound))
      else if NameTaken(r.drive, s.tenant, s.parent, s.name, NONE) then
        (r.(uploads := r.uploads[u := Moved(s, Failed, now).(failure := NameTakenFailure)]), Err(NameConflict))
      else
        (r.(drive := AddFile(r.drive, tenant, s.parent, s.display, s.name, node, version, blob, s.key, size, now),
            uploads := r.uploads[u := Moved(s, Committed, now).(committedNode := node)]),
         Ok((node, true)))
  }

  function AbortUpload(r: Repo, tenant: Id, u: Id, target: UploadStatus, now: Time): (Repo, Result<Session>) {
    if !HasUpload(r, tenant, u) then (r, Err(NotFound))
    else
      var s := r.uploads[u];
      if s.status == Committed then (r, Err(InvalidState))
      else if s.status == Aborted || s.status == Expired || s.status == Failed then (r, Ok(s))
      else if s.status != Created && s.status != Uploading then (r, Err(InvalidState))
      else if target != Aborted && target != Expired && target != Failed then (r, Err(InvalidState))
      else (r.(uploads := r.uploads[u := Moved(s, target, now)]), Ok(Moved(s, target, now)))
  }
}
