# Asteria Drive: a verified model

Asteria Drive is the control plane of a file drive: a namespace tree with a recycle bin, multipart
uploads into an object storage, idempotent requests, background maintenance, access control and a
staging release controller. This project models its hard parts in Dafny and proves what they
promise. `dafny verify dfyconfig.toml` checks everything.

## How the model is built

- **Values and state.** `Namespace`, `Uploads`, `Storage`, `Governance`, `Idempotency` and `Leases` state what
  one call does to the maps, as functions. `MemoryRepository`, `GovernedRepository`, `MemoryStorage` and
  `Idempotency.Records` are the classes that change those maps in place, loops included; each method is
  proved against the function of the same name. Safety over whole runs is proved on the functions, and so is
  what each call is for: exactly when it succeeds, what can be seen afterwards, and what stays as it was.
- **Namespace** (`Namespace`, `NamespaceInvariant`, `NamespaceRuns`, `RecycleBin`, `Purge`, `Walks`). One
  invariant carries everything: the field `trashedRoot` partitions the nodes into the visible class and one
  group per recycled root; a node belongs to its parent's class or is the root of its own; names are unique
  inside each class. Acyclicity is the existence of a rank that falls along parent pointers. `Effects` states
  what the operations do in terms of directory listings.
- **Uploads** (`UploadProtocol`, `UploadInvariant`, `UploadObjects`, `UploadSteps`, `UploadSafety`,
  `UploadContent`). Any number of clients and maintenance passes interleave; one step is one atomic
  repository or storage call, and a storage call may work, work without being answered, or not happen.
  `UploadProgress`, `PassProgress` and `FileUpload` show that clients and passes left alone reach their end
  from every state. `Reopening`, `WriteBack`, `Stranded` and `Scenarios` are about what maintenance does to
  this.
- **Resume** (`PartGeometry`, `PartListing`, `WorkerPool`, `Resume`). The browser's worker pool runs under an
  arbitrary schedule; a schedule that ends early is a closed page.
- **Staging** (`Staging`). Host and store are a tape of replies; a tape that ends is a crash. The ghost trace
  records every host call together with the record then on disk. Predicates on the tape say under which
  replies each operation succeeds, and the contracts are exact in them.
- **Claims and leases** (`Idempotency`, `IdempotentCreation`, `Claims`, `Leases`), **access** (`Governance`,
  `Access`, `Ownership`, `MemberEffects`), **paging** (`Paging`) and the **OpenAPI check** (`OpenApi`) follow the same pattern.

Assumptions: generated ids are new; the clock does not go back; SHA-256 and ETags are injective (free
constructors over the content); appending an audit event and generating an id succeed; ids are opaque
numbers with 0 for the empty string, names are opaque and ordered; a commit copies parent and name from its
session. A new upload creates its multipart and its session in one step. `FinishPurge` takes its plan as a
set of blob ids.

## What turned out false

- A resumed upload does not always stand for the re-selected file: a session that is already completing
  replays the list the server froze, which may belong to another file of the same name, size and date.
  `Resume.ForeignReplay` gives the input, `Resume.ResumeKeepsToTheFile` the exact condition.
- A successful Deploy does not always leave ACTIVE(target). A compensated Deploy leaves ACTIVE(previous)
  under its own request, and the same request then replays that record with success
  (`internal/staging/controller.go:519-534`). `Staging.CompensatedDeploySucceedsOnReplay` gives the input, the
  contract of `Staging.Controller.Deploy` states exactly when.
- A maintenance pass can lose a visible file. `FinishUploadMaintenance` writes the status a pass claimed
  without looking at the current one, and an open status written over a session that had ended lets a
  repeated completion go through again. Over a committed upload that deletes the object of its file, by
  colliding with the file's own name or by adding a second file on the same object
  (`Reopening.CommittedFileIsLost`, input `Scenarios.FileIsLost`); over a failed one it can commit a file
  whose object another client is about to delete (`Reopening.FailedUploadLosesAFile`, input
  `Scenarios.NewFileIsLost`). The run theorems hold, with maintenance interleaved call by call, for every run
  in which each status written may follow the current one: a test the call could make and does not. For
  writes over committed uploads that test is exact (`WriteBack.CommittedUploadStandsIff`).
- Maintenance leaves objects in storage for good. It fails a session without recording a failure, so later
  passes abort the multipart instead of deleting the object: one of the wrong size whose deletion was refused
  (`Scenarios.ObjectIsStranded`), and, without any fault, one that was assembled just after the pass looked
  (`Scenarios.ObjectIsMissed`). `Stranded.LeftObjectStaysIff` says exactly who can still delete it.
- The two authorization forms grant the same, but answer differently for a missing node and a missing member
  at once: the memory form reports the node, the relational form the member (`Access.AuthorizeNode`).
- In the memory repository an identity that is already mapped can never accept an invitation, because the
  service generates a new principal id for every acceptance (`Ownership.AcceptanceNeedsANewIdentity`). The
  PostgreSQL adapter accepts under the principal already mapped (`internal/postgres/governance.go:178-189`).

## Model

| member | source | states |
|---|---|---|
| `NamespaceInvariant.ParentChain` | internal/memory/repository.go:818-831 | In a forest every parent chain is finite, repeats no node, stays in its tenant, passes only through directories and ends at the tenant's root; this is why the ancestor walks end. |
| `NamespaceInvariant.CreateDirectoryKeepsInv` | internal/memory/repository.go:225-249 | Creating a directory keeps the whole invariant: placement, acyclicity, grouping, name uniqueness, blobs of files. |
| `NamespaceInvariant.UpdateNodeKeepsInv` | internal/memory/repository.go:282-327 | Rename and move keep the invariant; in particular the descendant check is enough to keep the tree acyclic. |
| `NamespaceInvariant.VisibleSubtreeIsClosed` | internal/memory/repository.go:833-864 | The visible part of a subtree is closed upwards to its root and downwards along visible children, and stays in one tenant. |
| `NamespaceInvariant.RecycleKeepsInv` | internal/memory/repository.go:636-670 | Recycling keeps the invariant: groups stay closed under parent and names stay unique inside each group. |
| `NamespaceInvariant.RestoreKeepsInv` | internal/memory/repository.go:693-725 | Restoring keeps the invariant although only the root's name is checked against the visible siblings. |
| `NamespaceInvariant.PreparePurgeKeepsInv` | internal/memory/repository.go:727-770 | Preparing a purge keeps the invariant: no blob that a file outside the purged group uses stops being available. |
| `NamespaceInvariant.FinishPurgeKeepsInv` | internal/memory/repository.go:772-794 | Finishing a purge with any plan, even a foreign one, keeps the invariant. |
| `NamespaceInvariant.LeaseForPurgeKeepsInv` | internal/memory/maintenance.go:92-99 | The maintenance claim that turns a trashed root to Purging keeps the invariant. |
| `NamespaceInvariant.AddFileKeepsInv` | internal/memory/repository.go:492-499 | The rows a commit inserts keep the invariant. |
| `NamespaceInvariant.PlannedBlobIsUnreferencedOutside` | internal/memory/repository.go:751-766 | A planned blob is referred to by no version outside the purged group. |
| `NamespaceInvariant.VisibleFileDownloads` | internal/memory/repository.go:618-634 | Under the invariant DownloadBlob on a visible file never fails. |
| `NamespaceRuns.ReachableKeepsInv` | internal/memory/repository.go:225-770 | Every run of namespace operations from an invariant state ends in one. |
| `NamespaceRuns.VisibleNamesAreUnique` | internal/memory/repository.go:809-816 | In every reachable state no two distinct visible nodes share tenant, parent and normalized name. |
| `NamespaceRuns.RunEvolves` | internal/memory/repository.go:727-794 | Along every run node identities are permanent, Purging is never left, and blobs only move towards Deleted. |
| `RecycleBin.RecycledGroupIsTheSubtree` | internal/memory/repository.go:653-667 | The trash group a recycle makes is exactly the visible subtree of its root. |
| `RecycleBin.RecycleThenRestore` | internal/memory/repository.go:636-725 | Recycle followed by Restore at the next revision always succeeds and gives back the same node map except time stamps and the root's revision plus two. |
| `RecycleBin.UndoingEveryRecycle` | internal/memory/repository.go:636-725 | Any sequence of recycles, nested ones included, undone in reverse order succeeds and gives back the original tree up to time stamps and revisions. |
| `Purge.StepKeepsPlan` | internal/memory/repository.go:727-794 | No operation but the FinishPurge of its own blobs changes the group or the plan of a begun purge. |
| `Purge.PurgeIsRetryable` | internal/memory/repository.go:727-770 | After a PreparePurge, whatever runs short of finishing those blobs, the same call answers the same plan again. |
| `Purge.FinishedPurgeIsEmpty` | internal/memory/repository.go:772-794 | After PreparePurge and whatever runs short of finishing its blobs, FinishPurge of the plan succeeds and leaves an empty plan, which stays empty through every later run. |
| `Purge.PlansAreDisjoint` | internal/memory/repository.go:744-769 | The plans of two different roots share no blob. |
| `Walks.NameExists` | internal/memory/repository.go:809-816 | The scan answers whether a visible sibling has the name. |
| `Walks.IsDescendant` | internal/memory/repository.go:818-831 | The walk up the parents ends and answers exactly the descendant relation; a candidate that is missing or of another tenant is below nothing but itself. |
| `Walks.ActiveSubtree` | internal/memory/repository.go:833-843 | The breadth-first search over its own growing list ends, repeats nothing and lists exactly the visible subtree. |
| `Walks.TrashedSubtree` | internal/memory/repository.go:845-853 | The scan lists exactly the trash group, without repetitions. |
| `Effects.TenantGetsARoot` | internal/memory/repository.go:64-79 | A tenant gets one root directory, open and without a parent, and keeps it; nothing else changes. |
| `Effects.CreateDirectorySucceeds` | internal/memory/repository.go:225-237 | A directory is created if and only if the parent is an open directory and no child listed there has the name. |
| `Effects.CreatedDirectoryIsListed` | internal/memory/repository.go:238-249 | It is listed where it was asked for and nowhere else, open and empty, with revision 1; nothing else changes. |
| `Effects.UpdateNodeSucceeds` | internal/memory/repository.go:282-316 | Rename or move succeeds if and only if the node is visible and no root, the revision matches, the target is an open directory not below the node, and no other child listed there has the name. |
| `Effects.UpdatedNodeIsListed` | internal/memory/repository.go:317-327 | After it the node is a child of the requested directory under the requested name and of no other directory, its revision is one higher, and every other node, version and blob is unchanged. |
| `Effects.SubtreeMovesAlong` | internal/memory/repository.go:317-327 | Whatever was below the node is below it afterwards and below the directory it was sent to, and nothing else is below it. |
| `Effects.RecycleSucceeds` | internal/memory/repository.go:636-652 | A recycle succeeds exactly for a visible node that is no root at the right revision, or one that is already the root of a trash group. |
| `Effects.RecycledIsNotListed` | internal/memory/repository.go:653-667 | Afterwards a directory lists exactly the children it listed before that are not below the recycled node. |
| `Effects.RestoreSucceeds` | internal/memory/repository.go:693-712 | A restore succeeds exactly for the root of a trash group at the right revision whose original parent is open and lists no such name. |
| `Effects.PreparePurgeSucceeds` | internal/memory/repository.go:727-741 | A purge begins exactly for a trashed or purging root of a group at the right revision. |
| `Effects.PurgedIsGone` | internal/memory/repository.go:742-770 | No node of a purged group can be restored again, and the plan holds the blob of every file of the group that is not deleted and that no other version shares. |
| `MemoryRepository.Repository.EnsureTenant` | internal/memory/repository.go:64-79 | Creates the tenant and its root directory once. |
| `MemoryRepository.Repository.CreateDirectory` | internal/memory/repository.go:225-249 | Changes the maps as the value-level operation does, error cases included. |
| `MemoryRepository.Repository.UpdateNode` | internal/memory/repository.go:282-327 | Rename and move as the value-level operation does, whose answer and effect `Effects.UpdateNodeSucceeds` and `Effects.UpdatedNodeIsListed` state through the listings of directories. |
| `MemoryRepository.Repository.Recycle` | internal/memory/repository.go:636-670 | The in-place loop over the subtree marks exactly the visible subtree, and the root in addition. |
| `MemoryRepository.Repository.Restore` | internal/memory/repository.go:693-725 | The in-place loop over the group restores exactly the group. |
| `MemoryRepository.Repository.PreparePurge` | internal/memory/repository.go:727-770 | The nested loops mark exactly the group and exactly the blobs nothing outside refers to. |
| `MemoryRepository.Repository.FinishPurge` | internal/memory/repository.go:772-794 | Deletes exactly the planned pending blobs of the tenant and retires the root's lease. |
| `MemoryRepository.Repository.DownloadBlob` | internal/memory/repository.go:618-634 | Answers the file's current blob, and never fails on a visible file under the invariant. |
| `MemoryRepository.Repository.CreateUpload` | internal/memory/repository.go:329-348 | As the value-level operation; no session is replaced. |
| `MemoryRepository.Repository.MarkUploading` | internal/memory/repository.go:356-374 | Created to Uploading, idempotent; `UploadProgress.SigningOpens` states when and what stays. |
| `MemoryRepository.Repository.BeginComplete` | internal/memory/repository.go:376-402 | As the value-level operation, of which `UploadProgress.CompletionIsTakenUpIff` says when it goes on and `UploadProgress.CompletionSucceeds` where it leads. |
| `MemoryRepository.Repository.FailUploadCompletion` | internal/memory/repository.go:404-432 | Completing to Failed with its cleanup mark. |
| `MemoryRepository.Repository.MarkObjectCompleted` | internal/memory/repository.go:434-452 | Completing to ObjectCompleted, idempotent. |
| `MemoryRepository.Repository.CommitUpload` | internal/memory/repository.go:454-505 | Inserts blob, version and node and commits, or fails the session with its cleanup mark. |
| `MemoryRepository.Repository.AbortUpload` | internal/memory/repository.go:507-534 | Ends an open session with its cleanup mark; refuses completing and committed ones. |
| `MemoryRepository.Repository.MarkUploadCleanupComplete` | internal/memory/repository.go:586-600 | Clears the cleanup mark of a terminal session and touches nothing else. |
| `MemoryRepository.Repository.ClaimUploadsForMaintenance` | internal/memory/maintenance.go:20-47 | Claims only due sessions whose lease allows it, those that expire first, and changes only their owner and lease time. |
| `MemoryRepository.Repository.FinishUploadMaintenance` | internal/memory/maintenance.go:49-72 | Refused without any change unless the caller owns the lease; otherwise writes the status and ends the lease. |
| `MemoryRepository.Repository.ClaimRecycleForMaintenance` | internal/memory/maintenance.go:74-102 | Claims only due trashed roots, the first in id order, turning each to Purging; due roots left out follow all of them. |
| `MemoryRepository.Repository.ReleaseRecycleMaintenance` | internal/memory/maintenance.go:104-115 | Refused without any change unless the caller owns the lease. |
| `MemoryStorage.ObjectStorage.PutPart` | internal/memory/storage.go:95-109 | Stores the part; the answered ETag and checksum are those of the bytes. |
| `MemoryStorage.ObjectStorage.CompleteMultipart` | internal/memory/storage.go:111-149 | The loop concatenates the sorted listed parts, refuses missing parts, foreign ETags and a wrong declared checksum, and consumes the multipart. |
| `MemoryStorage.ObjectStorage.AbortMultipart` | internal/memory/storage.go:175-187 | Drops the multipart, or refuses a foreign key without any change. |
| `MemoryStorage.ObjectStorage.DeleteObject` | internal/memory/storage.go:211-216 | Removes the object and nothing else. |
| `UploadSafety.RunKeepsInv` | internal/drive/service.go:557-690 | Under every interleaving of completions, aborts, expired signatures, purges, part PUTs, maintenance passes and tree operations, with storage calls that fail or lose their answer, the invariant holds and sessions only move forward, as long as no pass writes back a status that may not follow the current one. |
| `UploadSafety.SessionsCommitSeparately` | internal/memory/repository.go:492-505 | Different sessions commit different nodes, versions and blobs. |
| `UploadSafety.ExactlyOneFirst` | internal/drive/service.go:657-671 | A committed session has exactly one party that committed it, a client told First or a maintenance pass, and every successful caller was told the same node. |
| `UploadSafety.PayloadIsFrozen` | internal/memory/repository.go:376-402 | The first completion digest, its part list and the committed node never change again. |
| `UploadSafety.RepeatedCompletion` | internal/drive/service.go:557-600 | Once a session carries a payload, in whatever state it is: any other list is refused, the recorded list goes on from where the session is or is refused if it failed, a replay answers the committed node; none of it changes anything. |
| `UploadSafety.FilesKeepTheirObjects` | internal/drive/service.go:557-690 | In every such run, maintenance included, each file that is not purging has its object in storage, with the size its session declared. |
| `UploadSafety.CleanupIsGated` | internal/drive/service.go:674-690 | An object is deleted only for a failed session, a purging file, or where it is not what the session declared; a multipart is aborted only for a session that can no longer complete or that maintenance has claimed. |
| `UploadContent.ObjectsAreTheirLists` | internal/memory/storage.go:111-149 | In every run an uploaded object consists of exactly the bytes its session's frozen part list names, and agrees with the checksum the session declared. |
| `UploadContent.CommittedUploadHoldsTheFile` | internal/drive/service.go:557-672 | In every run a client told that the completion list of a file is committed finds, until the file is purged, exactly that file's bytes. |
| `UploadContent.DownloadServesTheFile` | internal/memory/repository.go:618-634 | In every run whatever a download of such a file answers is the blob whose object is exactly the file, and it answers as long as the file is visible. |
| `UploadProgress.CompletionIsTakenUpIff` | internal/memory/repository.go:376-402 | A completion goes on if and only if its list is valid and its session is open and not expired, or has recorded the same list and has not failed; an expired or ended session refuses, and a refusal changes nothing. |
| `UploadProgress.CompletionSucceeds` | internal/drive/service.go:557-672 | From every invariant world: a client about to complete a session that is open (created or uploading) or resumes its own list, whose listed parts or object are there and acceptable and whose file has a place, is told Ok and First within five working calls; the new file is listed there, downloads as those bytes, and nothing else of the tree changes. |
| `UploadProgress.CompletionIsDecided` | internal/drive/service.go:557-690 | From every invariant world a completion of an open session, left alone, ends within six calls; it commits if and only if the stored parts as listed make an acceptable object and the file has a place, otherwise the session is Failed with the reason recorded, the client is told the matching error, and storage keeps neither object nor multipart of it. |
| `UploadProgress.SigningOpens` | internal/memory/repository.go:356-374 | Signing a part turns exactly an open session of the tenant to Uploading and changes nothing else. |
| `UploadProgress.AbortIsTakenUpIff` | internal/memory/repository.go:507-534 | An abort goes on if and only if the session exists and is neither completing nor committed, and for an expiry is due; a refusal changes nothing. |
| `UploadProgress.AbortEndsTheSession` | internal/drive/service.go:817-850 | From every invariant world an abort of an open session, or the expiry of a due one, ends it in two calls as Aborted or Expired with its multipart gone and everything else as it was. |
| `UploadProgress.PurgeDeletesItsPlan` | internal/drive/service.go:910-930 | From every invariant world a purge left alone deletes, in as many calls as its plan has blobs and two more, exactly the planned objects and marks their blobs deleted. |
| `FileUpload.StoredFileAssembles` | internal/memory/storage.go:121-135 | The stored slices of a file, listed by its completion list, are put together to the file. |
| `FileUpload.FileGetsThere` | internal/drive/service.go:406-672 | From every invariant world and for every file and part size the browser accepts: session, signature, PUTs and completion form an admissible run after which the client is told Ok and First, the file is listed at its place, and its download serves exactly its bytes. |
| `UploadSteps.MaintainerKeepsSafe` | internal/maintenance/loop.go:120-202 | Every call of a maintenance pass (claim, Stat, cleanup, discard, mark, commit, undo, finish), interleaved with anything, keeps the protocol safe unless its finish writes a status that may not follow the current one. |
| `WriteBack.CommittedUploadStandsIff` | internal/memory/maintenance.go:49-72 | For writes over a committed upload: it stands through every later run (its file keeps its object, its recorded list is answered with its node) if and only if the status written may follow the one it has. |
| `Reopening.CommittedFileIsLost` | internal/maintenance/loop.go:131-137 | From every invariant world: after a pass has written an open status over a committed upload, wherever its file has been moved to and even in the recycle bin, an admissible run leaves the file as it is, not being purged, without its object. |
| `Reopening.FailedUploadLosesAFile` | internal/drive/service.go:661-666 | From every invariant world: after a pass has written an open status over a failed upload whose acceptable object another client is about to delete, with its name free again, an admissible run commits a new visible file and then deletes its object. |
| `Scenarios.FileIsLost` | internal/maintenance/loop.go:131-169 | The input for a committed upload: a run from the empty world, call by call, the claim stale by the clock, to such a write, and on to the lost file. |
| `Scenarios.NewFileIsLost` | internal/maintenance/loop.go:143-174 | The input for a failed upload: a run from the empty world to such a write, and on to a new visible file without its object. |
| `WriteBack.UndisturbedFinishIsLegal` | internal/maintenance/loop.go:190-202 | A pass writes a stale status only if the session has moved since the pass saw it. |
| `PassProgress.PassEndsItsSession` | internal/maintenance/loop.go:120-175 | From every invariant world a pass left alone writes nothing stale and ends its session within six calls: a due open one Expired, a completing one Committed if and only if an object of the declared size and a place for the file are there and Failed otherwise, an ended one as it was. |
| `Stranded.RefusedDiscardStaysIff` | internal/maintenance/loop.go:138-141 | When the deletion of an object of the wrong size is refused, the object outlives every later run, maintenance included, if and only if no other client was already on its way to deleting it. |
| `Stranded.LeftObjectStaysIff` | internal/maintenance/loop.go:177-188 | The object of a failed session without a recorded failure, of whatever size, outlives every run if and only if no client is on its way to deleting it. |
| `Scenarios.ObjectIsMissed` | internal/maintenance/loop.go:130-137 | The same without a single fault and for an object of the right size: the Stat of the pass comes just before the client assembles it. |
| `Scenarios.ObjectIsStranded` | internal/maintenance/loop.go:138-141 | The input: a run from the empty world, the claim stale by the clock, after which no run ever deletes an object of the wrong size. |
| `Idempotency.Records.ClaimIdempotency` | internal/memory/idempotency.go:11-45 | As the value-level operation, of which `Claims.ClaimIsRefusedIff` and `Claims.GrantedClaimHolds` state when it refuses and what it gives. |
| `Idempotency.Records.ReleaseIdempotency` | internal/memory/idempotency.go:47-59 | Removes only the pending record the caller holds. |
| `Idempotency.Records.CompleteIdempotency` | internal/memory/idempotency.go:61-83 | Completes only the pending record the caller holds; otherwise an error and no change. |
| `Idempotency.Records.DeleteExpired` | internal/memory/maintenance.go:117-134 | Deletes only expired records: all of them, or the first in key order up to the limit. |
| `Idempotency.DeletionIsUnobservable` | internal/memory/maintenance.go:117-134 | Over whole runs, deleting expired records at any times and in any portions changes no claim's answer. |
| `IdempotentCreation.KeysCreateOnce` | internal/drive/service.go:281-320 | In every run a key makes at most one directory per record lifetime, every answered directory was made under its key, and the missing-directory error never occurs. |
| `IdempotentCreation.ReplayReturnsTheResource` | internal/drive/service.go:304-310 | A replay is answered with the directory made in the record's current lifetime, and it exists. |
| `IdempotentCreation.FencedForever` | internal/memory/idempotency.go:61-83 | A claimer that was taken over, released, replaced or swept never creates anything, whatever runs in between. |
| `IdempotentCreation.FencedChangesNothing` | internal/drive/service.go:311-318 | The next call of such a claimer changes neither the tree nor the records. |
| `Claims.ClaimIsRefusedIff` | internal/memory/idempotency.go:32-38 | A claim is refused, with the table unchanged, if and only if the live record has another digest or is pending in other hands before its lock time. |
| `Claims.GrantedClaimHolds` | internal/memory/idempotency.go:20-45 | Any other claim gives the key to the claimant with the lock and expiry asked for, or answers what was made under it. |
| `Claims.FirstRequestGetsTheKey` | internal/memory/idempotency.go:20-30 | The first request of a lifetime holds the key with the lock and expiry it asked for. |
| `Claims.ReleasedKeyIsFree` | internal/memory/idempotency.go:47-59 | A key its holder released can be claimed by anybody; no other key is touched. |
| `Claims.LockHolds` | internal/memory/idempotency.go:36-38 | In every run before lock and record run out, nothing anybody else does takes the key from its holder. |
| `Claims.OthersAreTurnedAway` | internal/memory/idempotency.go:32-38 | Until then every other request under the key is turned away, and changes nothing. |
| `Claims.CreationInTime` | internal/drive/service.go:281-318 | A request that creates before its lock and its record run out, whatever ran in between, makes its directory if the place is free: it is answered with a new node listed there, and the key is completed with it. |
| `Claims.FailedCreationFreesTheKey` | internal/drive/service.go:311-318 | A request whose directory has no place is told so in two calls, and its key is free again. |
| `Claims.TakeOver` | internal/memory/idempotency.go:39-45 | From the end of the lock on a matching request takes the key over, and the first one is fenced. |
| `Claims.MatchingRequestIsAnswered` | internal/drive/service.go:304-310 | In every run, until the record expires, a matching request is answered in two calls with the directory that was made. |
| `Leases.OneLiveLease` | internal/memory/maintenance.go:20-115 | In every run at most one owner holds an unexpired, unfinished lease on an id, and that owner's return will be accepted. |
| `Leases.LiveLeaseIsNotClaimable` | internal/memory/maintenance.go:26-28 | No claim round can pick an id under a live lease. |
| `Leases.SupersededStays` | internal/memory/maintenance.go:49-115 | A superseded owner stays so, whatever foreground calls and other owners do, until it claims again. |
| `Leases.FinishedPurgeIsNotLeased` | internal/memory/repository.go:788-792 | After FinishPurge no claim round picks the root again before the year 9999. |
| `Leases.TakenLeaseIsHeld` | internal/memory/maintenance.go:33-45 | A claim round gives its owner the lease on exactly the ids picked, for the time asked. |
| `Leases.LeaseLasts` | internal/memory/maintenance.go:20-115 | In every run a lease lasts until its time unless its owner returns it or its root is retired. |
| `Leases.ClaimableIff` | internal/memory/maintenance.go:26-30 | Exactly a lease that has run out, and whose back-off has, can be claimed. |
| `Leases.ForeignReturnIsRefused` | internal/memory/maintenance.go:49-60 | A return by anybody but the owner changes no lease. |
| `Leases.ReturnedLeaseIsFree` | internal/memory/maintenance.go:49-72 | A returned lease can be claimed at once after success and exactly from the retry time on after a failure, which is counted. |
| `Leases.MarkingKeepsTheLease` | internal/memory/repository.go:586-600 | A foreground call that sets or clears a cleanup mark leaves owner, lease time and attempts alone; clearing clears failure and back-off. |
| `Leases.RetiringRetires` | internal/memory/repository.go:788-792 | FinishPurge puts its root, and no other, into the state in which it is never leased again. |
| `Access.AuthorizeNode` | internal/memory/governance.go:399-439 | The early-exit walk grants exactly when the member is active, the node exists and the maximum of role level and matching ancestor grants reaches the required level; it answers as the relational form does if and only if the node exists or the member is active. |
| `Access.GrantedAboveIsHighest` | internal/postgres/governance.go:706-736 | Finding some sufficient grant on the way up is the same as comparing the maximum over all ancestors. |
| `Access.HighestIsMaximum` | internal/postgres/governance.go:706-729 | The effective level is one of the granted levels and bounds them all. |
| `Access.AnyGrantAt` | internal/memory/governance.go:418-431 | The inner loop answers whether a sufficient direct or group grant sits on this node. |
| `Access.AccessIsInherited` | internal/memory/governance.go:417-437 | Whatever is allowed on a node is allowed on everything below it. |
| `Access.AccessIsMonotone` | internal/memory/governance.go:413-416 | A capability brings every capability of the same or a lower level. |
| `Access.RecycleKeepsAccess` | internal/memory/repository.go:653-667 | Recycling changes nobody's access to any node. |
| `MemberEffects.WhoMay` | internal/memory/governance.go:399-439 | Spelled out: an active member may read; write as owner, admin or editor or by a contributor or manager grant on or above the node; delete or manage grants as owner or admin or by a manager grant there. |
| `MemberEffects.UpdateMemberSucceeds` | internal/memory/repository.go:183-213 | Exactly when a role or status change is allowed. |
| `MemberEffects.MemberChangeTakesEffect` | internal/memory/repository.go:214-223 | Afterwards the member has the role and status asked for: suspended, they may nothing on any node; active, whatever the role says. |
| `MemberEffects.MemberChangeIsLocal` | internal/memory/repository.go:214-223 | Nobody else's authorization changes. |
| `MemberEffects.DeleteMemberSucceeds` | internal/memory/governance.go:13-30 | Exactly when a removal is allowed. |
| `MemberEffects.RemovedMemberMayNothing` | internal/memory/governance.go:29-36 | A removed member is in no group and may nothing; nobody else's authorization changes. |
| `MemberEffects.SeededMemberIsThere` | internal/memory/repository.go:91-130 | A seeded membership of an existing tenant is there afterwards with its role unless it was there before; it fails exactly if the identity or the principal is mapped otherwise; no membership changes. |
| `MemberEffects.CreateInvitationSucceeds` | internal/memory/governance.go:38-65 | An invitation is made exactly by a manager, before its expiry, for a role the actor may give, to somebody not yet invited. |
| `MemberEffects.RevokeInvitationSucceeds` | internal/memory/governance.go:146-171 | Exactly a pending invitation of the tenant can be revoked, by a manager. |
| `MemberEffects.GroupGetsItsName` | internal/memory/governance.go:181-233 | A group is made or renamed exactly if no other group of the tenant has the name; the others stay. |
| `MemberEffects.DeleteGroupSucceeds` | internal/memory/governance.go:234-245 | Exactly a group of the tenant can be deleted, by a manager. |
| `MemberEffects.ChangeMembershipSucceeds` | internal/memory/governance.go:257-293 | Joining needs a member of the tenant, leaving does not; nobody else's membership changes. |
| `MemberEffects.SetNodeACLSucceeds` | internal/memory/governance.go:328-345 | A grant is set exactly by whom may manage grants, on a visible node, for a subject that exists. |
| `MemberEffects.EntryIsSet` | internal/memory/governance.go:346-368 | Afterwards the subject has an entry with the new role on the node and none with another; other entries stay. |
| `MemberEffects.DeleteNodeACLSucceeds` | internal/memory/governance.go:369-381 | Exactly an entry of this node is removed, by whom may manage grants, and no other. |
| `MemberEffects.InvitationGivesItsRole` | internal/memory/governance.go:38-145 | An invitation accepted in time by whom it names makes them an active member with its role, who may what the role says; no other member changes. |
| `MemberEffects.InvitationIsBound` | internal/memory/governance.go:93-131 | An acceptance succeeds only for the named identity, in time or as a replay, and a failed one makes nobody a member. |
| `MemberEffects.RevokedInvitationIsUseless` | internal/memory/governance.go:146-171 | A revoked invitation is refused to everybody. |
| `MemberEffects.GrantTakesEffect` | internal/memory/governance.go:328-368 | A grant authorizes everybody it covers, on the node and on everything below it. |
| `MemberEffects.MembershipTakesEffect` | internal/memory/governance.go:257-293 | Who joins a group may what the group was granted. |
| `MemberEffects.WithoutGrantsTheRoleDecides` | internal/memory/governance.go:369-381 | With the last entry that speaks about them gone, a member may exactly what the role says. |
| `MemberEffects.DeletedGroupGrantsNothing` | internal/memory/governance.go:234-256 | A deleted group has no members and no entries left; entries and memberships of others stay. |
| `Ownership.OwnerIsNeverLost` | internal/memory/repository.go:210-213 | A tenant with an active owner has one after every run of governed calls. |
| `Ownership.OthersCannotTouchOwners` | internal/memory/governance.go:22-28 | Whatever calls non-owners make, the owners and their standing stay exactly the same, provided no owner invitation was pending. |
| `Ownership.RunKeepsIntact` | internal/memory/governance.go:181-368 | Every run keeps group memberships, group grants, one entry per subject and node, group names and pending invitations consistent, group renaming and the lapse of listed invitations included. |
| `Ownership.AcceptanceNeedsANewIdentity` | internal/memory/governance.go:122-131 | A pending invitation can be accepted if and only if the identity is not yet mapped to a principal. |
| `GovernedRepository.Repository.ActiveOwnerCount` | internal/memory/repository.go:882-891 | Counts the other active owners. |
| `GovernedRepository.Repository.UpdateMember` | internal/memory/repository.go:183-223 | Role and status changes with the owner and admin rules, as specified. |
| `GovernedRepository.Repository.DeleteMember` | internal/memory/governance.go:13-36 | Removes the member and exactly its group memberships, unless it is the last active owner. |
| `GovernedRepository.Repository.DeleteGroup` | internal/memory/governance.go:234-256 | Removes the group with exactly its memberships and its grants. |
| `GovernedRepository.Repository.UpdateGroup` | internal/memory/governance.go:212-233 | Renames the group unless another of the tenant has the name. |
| `GovernedRepository.Repository.ListInvitations` | internal/memory/governance.go:66-92 | Lapses exactly the pending invitations of the tenant that have run out, and lists the tenant's. |
| `GovernedRepository.Repository.CreateInvitation` | internal/memory/governance.go:38-65 | Refuses a second pending invitation and an owner invitation by an admin. |
| `GovernedRepository.Repository.AcceptInvitation` | internal/memory/governance.go:93-145 | Accepts, replays, expires or refuses as specified. |
| `GovernedRepository.Repository.CanManageACL` | internal/memory/governance.go:388-397 | Owners and admins everywhere, others exactly where they hold the capability. |
| `GovernedRepository.Repository.SetNodeACL` | internal/memory/governance.go:328-368 | Replaces the subject's entry on the node or adds one; never a second one. |
| `Paging.ListChildren` | internal/memory/repository.go:261-280 | The page is the first children after the cursor in key order, and `more` tells exactly whether some were left out. |
| `Paging.Page` | internal/drive/service.go:336-360 | Limit default and bounds, and the cursor of the last item exactly when more follow. |
| `Paging.WalkIncreases` | internal/drive/service.go:336-360 | A cursor walk returns strictly increasing keys whatever changes between its pages. |
| `Paging.WalkIsByName` | internal/memory/repository.go:866-872 | A walk returns names in ascending order, and equal names by id. |
| `Paging.StableChildIsReturnedOnce` | internal/drive/service.go:336-360 | A child that keeps its name and stays visible throughout is returned exactly once. |
| `Paging.StaticWalkIsTheListing` | internal/memory/repository.go:866-872 | On an unchanging tree the pages concatenate to the full sorted listing. |
| `Staging.Controller.Deploy` | internal/staging/controller.go:205-278 | Write-ahead; every persisted ACTIVE is attested; hands off after an interruption; with a working store a Deploy that switched the host ends ACTIVE(target), ACTIVE(the version the host answered first) or RECOVERY_REQUIRED; success is ACTIVE(target), or on a replay the record as it stands. It succeeds, and it is compensated, exactly under the stated replies: success if and only if a replay is confirmed, the target is found active, or switch, evidence and all saves work; another version stays ACTIVE only after the switch or its evidence failed; a request that is neither new nor a replay changes nothing. |
| `Staging.Controller.Rollback` | internal/staging/controller.go:280-355 | The same for Rollback, ending ACTIVE(target) or RECOVERY_REQUIRED; it succeeds exactly if a replay is confirmed, the target is found active, or switch, evidence, reading and all saves work. |
| `Staging.Controller.Resume` | internal/staging/controller.go:383-444 | Never switches the host; succeeds exactly if a settled record still holds or a healthy reading of target or previous is saved, then ACTIVE of it, target first; a host that runs one of the two is never given up. |
| `Staging.Controller.Compensate` | internal/staging/controller.go:584-617 | Ends ACTIVE(previous) or RECOVERY_REQUIRED with a working store, always under the same request; ACTIVE(previous) exactly if switch, evidence, reading and saves work. |
| `Staging.Controller.Save` | internal/staging/controller.go:190-203 | Nothing for the state the record already has; refuses exactly the forbidden transitions; the disk holds the new or the old record. |
| `Staging.Controller.MarkRecovery` | internal/staging/controller.go:572-582 | Reports recovery only once the mark is on disk, or was on the record before. |
| `Staging.Controller.CommitActive` | internal/staging/controller.go:484-499 | Persists ACTIVE only for an approved bundle attested during the operation. |
| `Staging.Controller.MarkActive` | internal/staging/controller.go:545-562 | The same when the target is already active, exactly if the save works. |
| `Staging.Controller.RevalidateActive` | internal/staging/controller.go:501-517 | Answers a replay exactly after a fresh healthy reading of the approved bundle the record carries. |
| `Staging.Controller.ReadValidatedActive` | internal/staging/controller.go:459-472 | Answers exactly the healthy readings of approved bundles. |
| `Staging.CompensatedDeploySucceedsOnReplay` | internal/staging/controller.go:205-278 | The input: a tape on which a Deploy is compensated and the same request then succeeds with another version active. |
| `Staging.Controller.Run` | internal/staging/controller.go:205-444 | Over any sequence of invocations, each crashing anywhere: write-ahead holds throughout, every ACTIVE on disk is attested, RECOVERY_REQUIRED is absorbing, FAILED and forbidden transitions never occur, and after an interruption nothing happens until Resume. |
| `PartGeometry.SizesAgree` | internal/drive/service.go:539-549 | Client and server compute the same size for every part, and it is the size of the slice sent. |
| `PartGeometry.FilePartsNameTheFile` | web/src/features/uploads/upload-manager.ts:293-295 | The slices tile the file: put together they are the file. |
| `PartGeometry.FilePartsAreValid` | internal/drive/service.go:932-944 | The completion list of an accepted file passes the control plane's validation and is already sorted. |
| `Storage.AssemblyIsNamed` | internal/memory/storage.go:121-135 | Whatever storage holds, an assembled object has exactly the bytes the listed ETags name. |
| `PartListing.ListParts` | internal/memory/storage.go:151-173 | One entry per stored part, in part order, describing the stored bytes. |
| `PartListing.ReusableStoredParts` | internal/drive/service.go:795-815 | One entry per part number; reusable exactly when it is the only candidate, of the right size, with an attested checksum. |
| `PartListing.ReuseIsProven` | internal/drive/service.go:795-815 | From honest storage a part is declared reusable only for the bytes its ETag names. |
| `PartListing.ListUploadParts` | internal/drive/service.go:716-771 | What is listed and whether it is complete for expired, recorded, terminal and open sessions; a truncated listing is the first entries up to the limit. |
| `WorkerPool.ReactKeepsInv` | web/src/features/uploads/upload-manager.ts:366-383 | Every turn of every worker keeps the pool invariant: no slot is held twice, no taken slot is lost without a failure. |
| `WorkerPool.AllSent` | web/src/features/uploads/upload-manager.ts:351-387 | When all workers stopped without failure, every missing part was sent exactly once. |
| `WorkerPool.EveryPoolStops` | web/src/features/uploads/upload-manager.ts:351-387 | Whatever the network replies and whoever cancels, after enough rounds in which each worker gets a turn every worker has stopped. |
| `WorkerPool.PoolFillsIff` | web/src/features/uploads/upload-manager.ts:351-387 | Such a pool is filled if and only if nobody cancels and no part is given up. |
| `WorkerPool.PartIsTriedFourTimes` | web/src/features/uploads/upload-manager.ts:184-275 | A part is sent again after up to three failures that may be retried and given up after the fourth. |
| `WorkerPool.Pool.Run` | web/src/features/uploads/upload-manager.ts:351-387 | Under every schedule the pool is what its events make of it; it ends well exactly if every worker stopped without a failure or a cancellation, and then every entry is filled, the given ones untouched and each missing part sent exactly once. |
| `Resume.ReuseParts` | web/src/features/uploads/upload-manager.ts:565-584 | A listed part is skipped exactly when its proof matches the file, and then stands for the file's own bytes. |
| `Resume.PlanFollowsTheSession` | web/src/features/uploads/upload-resume.ts:161-181 | A resume continues exactly an open session of its own upload with what the listing surely holds, replays exactly a completing one, and is done exactly with a committed one. |
| `Resume.SkipsExactlyItsOwn` | web/src/features/uploads/upload-manager.ts:565-584 | A listed part is skipped exactly if storage has attested the file's own bytes under its number. |
| `Resume.CompleteWithRetries` | web/src/features/uploads/upload-manager.ts:394-438 | At most three requests with the same complete list, a further one only after an unclear exchange; each of its ends exactly by the first exchange that says anything. |
| `Resume.ResumeMultipart` | web/src/features/uploads/upload-manager.ts:510-612 | It resumes if and only if file, listing and geometry fit, the pool is filled and the first conclusive exchange commits; it answers already committed exactly for a committed session or a replay that commits; a list is submitted exactly for a replay or a filled pool, and is the one the plan allows; the reported count is the number of unproven parts; it aborts exactly on a cancellation that is no pause. |
| `Resume.UploadMultipart` | web/src/features/uploads/upload-manager.ts:440-488 | A first upload succeeds if and only if its geometry fits, the pool is filled and the first conclusive exchange commits; it submits a list exactly if the pool is filled, only the completion list of its file, and never aborts after a submission. |
| `Resume.GoodNetworkFills` | web/src/features/uploads/upload-manager.ts:351-387 | An upload nobody cancels, whose replies are good and whose workers keep getting turns, sends all its parts. |
| `Resume.ResumeKeepsToTheFile` | web/src/features/uploads/upload-resume.ts:161-181 | A resume submits the re-selected file, whatever was listed, if and only if completion had not been requested before. |
| `OpenApi.CompareSchema` | internal/cicheck/openapi_compat.go:126-162 | Reports exactly the problems there are, by kind and place at every depth, and none exactly when the schemas are compatible. |
| `OpenApi.CompareOperation` | internal/cicheck/openapi_compat.go:75-107 | Reports exactly the parameters and bodies removed or newly required and the problems of responses, and none exactly when all are compatible. |
| `OpenApi.CompareResponse` | internal/cicheck/openapi_compat.go:109-124 | Reports exactly the media types removed and the problems of their schemas, and none exactly when every one survives with a compatible schema. |
| `OpenApi.CompareDocuments` | internal/cicheck/openapi_compat.go:20-61 | Reports exactly the problems of the documents, and none exactly for compatible ones; refuses documents without paths. |
| `OpenApi.BuildParameterMap` | internal/cicheck/openapi_compat.go:164-179 | An identity is in the map exactly if some item has it, and its value is the last such item. |
| `OpenApi.SchemaOkMeansPathwise` | internal/cicheck/openapi_compat.go:126-162 | Compatibility is the same as: every nested property path survives and agrees there on reference, type and required names. |
| `OpenApi.CompatibleReflexive` | internal/cicheck/openapi_compat.go:20-61 | A document is compatible with itself if and only if it defines paths. |
| `OpenApi.CompatibleTransitive` | internal/cicheck/openapi_compat.go:20-162 | Clean steps from A to B and from B to C make a clean step from A to C. |

## Left out

- HTTP handlers, routing, metrics, configuration and command-line programs: no deep state.
- The PostgreSQL adapter: only its ACL query is used, as the simple form of authorization.
- The S3 provider: the memory storage plays the storage.
- Sign-in tokens and cursor signatures: cursors are taken as positions.
- Name normalization and JSON encoding: names are opaque, digests name their content.
- The audit trail: appending is taken to succeed; were it to fail after a directory was created under a key, the completed record would refer to a missing directory.
- Input validation by length or format, of invitations, handles and identifiers.
- Listings of members, groups, audit events and the recycle bin: they read and change nothing. Order, filter and limit of the listing of invitations.
- Suspension through SetOIDCMemberStatus, which bypasses the governed transitions.
- MIME types, display names of tenants and principals, and the checksum status of objects.
- Part signatures: the URL and the recorded digest of a signed part; only the state change and the expired branch of signing are modelled.
- Idempotent creation of uploads: it uses the same claim as directories, which are modelled.
- The staging controller's lock, record format check, last error, time stamps and Monitor.
- Retry delays and progress percentages of the browser; a cancellation before the first part is sent counts as one at the start of the pool.
- Runs in which a pass writes back a stale status: the run properties are false there, as shown above. That no other kind of stale write (Completing over ObjectCompleted, Expired over Aborted) loses a file is not proved.
- UploadSteps.MaintainerKeepsSafe: leases are not part of the interleaved world; a lost lease is a finish that writes nothing, and what claims and finishes do to leases is stated in `Leases` and `MemoryRepository`. A cleanup mark on an open session is excluded by `MemoryRepository.Repository.CleanupOk`.
- Walks.ActiveSubtree: the inner loop collects one node's children before they are appended, instead of appending one by one.
- MemoryRepository.Repository.ClaimRecycleForMaintenance: two loops, nodes first and leases second, instead of one.
- MemoryRepository.Repository.FinishUploadMaintenance: an error code is modelled as present or absent.
- MemberEffects.SeededMemberIsThere: the tenant of the seed is taken to exist; the refusal of an unknown one is not modelled.
- Staging.Controller.Save: a Save whose answer is lost is a failed one that may be on disk.
