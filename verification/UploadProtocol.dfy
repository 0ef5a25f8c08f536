/**
  Any number of foreground requests and maintenance passes interleaved call by call over the
  repository and the object storage: completions, aborts, expired part signatures, purges, part
  PUTs, the maintenance of claimed uploads and every namespace operation. One `Act` is one atomic
  repository or storage call.
 */
module UploadProtocol {
  import opened Base
  import opened Namespace
  import opened Storage
  import opened Uploads
  import NamespaceRuns

  /** What CompleteUpload is about to do; `s` is the session it last read. */
  datatype CompletePc =
    | Begin
    | Replay
    | Assemble(s: Session)
    | Check(s: Session, refusal: Option<Code>)
    | Stat(s: Session)
    | Mark(s: Session, size: nat)
    | Commit(s: Session, size: nat)
    | Fail(s: Session, failure: Failure, objectExists: bool, answer: Code)
    | Clean(s: Session, objectExists: bool, answer: Code)
    | Undo(s: Session, answer: Code)
    | Completed(result: Result<(Id, bool)>)

  datatype AbortPc = AbortBegin | AbortClean(s: Session) | AbortEnd

  datatype PurgePc = PurgeBegin | PurgeDelete(plan: set<Id>, todo: set<Id>) | PurgeEnd

  /** What a maintenance pass is about to do; `s` is the session as it was claimed, or as the pass last moved it. */
  datatype MaintainPc =
    | MClaim
    | MStat(s: Session)
    | MClean(s: Session, next: UploadStatus)
    | MDiscard(s: Session)
    | MMark(s: Session, size: nat)
    | MCommit(s: Session, size: nat)
    | MUndo(s: Session)
    | MFinish(s: Session, status: UploadStatus)
    | MEnd

  datatype Client =
    | Completer(tenant: Id, upload: Id, parts: seq<Part>, cpc: CompletePc)
    /** AbortUpload, or (when `expiry`) the expired branch of SignUploadPart. */
    | Aborter(tenant: Id, upload: Id, expiry: bool, apc: AbortPc)
    | Purger(tenant: Id, root: Id, revision: int, ppc: PurgePc)
    /** One pass of the maintenance loop over a claimed upload; `first` once it has committed it. */
    | Maintainer(upload: Id, first: bool, mpc: MaintainPc)

  datatype World = World(repo: Repo, store: Store, clients: map<Id, Client>, now: Time)

  /** How a storage call ends: as specified, done but unanswered, or not done. */
  datatype Fault = Works | Lost | Refused

  datatype Act =
    | Arrive(c: Id, client: Client)
    /** `node`, `version`, `blob` are ids generated for a commit; `pick` orders a purge's deletions. */
    | Step(c: Id, fault: Fault, node: Id, version: Id, blob: Id, pick: Id)
    | NewUpload(u: Id, s: Session)
    | SignPart(tenant: Id, u: Id)
    | Put(id: Id, number: nat, data: Bytes)
    | Tree(op: NamespaceRuns.Op)
    | Tick(now: Time)

  // ------------------------------------------------------------- CompleteUpload

  const MAX_PARTS := 10000

  predicate ValidParts(ps: seq<Part>) {
    && 0 < |ps| <= MAX_PARTS
    && (forall i :: 0 <= i < |ps| ==> 0 < ps[i].number <= MAX_PARTS && ps[i].etag != OtherETag(""))
    && StrictlyOrdered(ps)
  }

  /** Size and declared checksum of an object that a session accepts. */
  predicate Acceptable(s: Session, data: Bytes) {
    |data| == s.expectedSize && (s.declared.Some? ==> s.declared.value == Sha256(data))
  }

  function Judge(s: Session, data: Bytes): CompletePc {
    if s.declared.Some? && s.declared.value != Sha256(data) then Fail(s, ChecksumMismatch, true, InvalidRequest)
    else if |data| != s.expectedSize then Fail(s, SizeMismatch, true, InvalidRequest)
    else if s.status != ObjectCompleted then Mark(s, |data|)
    else Commit(s, |data|)
  }

  function AfterFaulty<T>(fault: Fault, done: Result<T>): Option<Code> {
    if fault != Works then Some(DependencyUnavailable) else if done.Err? then Some(done.code) else None
  }

  /** Where a client goes on after its commit was answered: a refused name or place is undone. */
  function AfterCommit(s: Session, k: Result<(Id, bool)>): CompletePc {
    if k.Err? && (k.code == NameConflict || k.code == NotFound) then Undo(s, k.code) else Completed(k)
  }

  /** One call of one completing client. */
  function CompleterStep(w: World, c: Client, a: Act): (Repo, Store, CompletePc)
    requires c.Completer? && a.Step?
  {
    var r, st, digest := w.repo, w.store, PartsDigest(c.parts);
    match c.cpc
    case Begin =>
      if !ValidParts(c.parts) then (r, st, Completed(Err(InvalidRequest)))
      else
        var (r', b) := BeginComplete(r, c.tenant, c.upload, digest, c.parts, w.now);
        (r', st, if b.Err? then Completed(Err(b.code))
                 else if b.value.status == Committed then Replay
                 else if b.value.status == ObjectCompleted then Stat(b.value)
                 else Assemble(b.value))
    case Replay =>
      var (r', k) := CommitUpload(r, c.tenant, c.upload, digest, NONE, NONE, NONE, 0, ZERO);
      (r', st, Completed(k))
    case Assemble(s) =>
      var (st', k) := CompleteMultipart(st, s.key, s.storageUpload, c.parts);
      (r, if a.fault == Refused then st else st', Check(s, AfterFaulty(a.fault, k)))
    case Check(s, refusal) =>
      if a.fault == Works && s.key in st.objects then (r, st, Judge(s, st.objects[s.key]))
      else if a.fault == Works
          && refusal == Some(InvalidRequest) then (r, st, Fail(s, StorageRejected, false, InvalidRequest))
      else (r, st, Completed(Err(DependencyUnavailable)))
    case Stat(s) =>
      if a.fault != Works then (r, st, Completed(Err(DependencyUnavailable)))
      else if s.key !in st.objects then (r, st, Completed(Err(NotFound)))
      else (r, st, Judge(s, st.objects[s.key]))
    case Mark(s, size) =>
      var (r', m) := MarkObjectCompleted(r, c.tenant, c.upload, w.now);
      (r', st, if m.Err? then Completed(Err(m.code)) else Commit(m.value, size))
    case Commit(s, size) =>
      var (r', k) := CommitUpload(r, c.tenant, c.upload, digest, a.node, a.version, a.blob, size, w.now);
      (r', st, AfterCommit(s, k))
    case Fail(s, failure, objectExists, answer) =>
      var (r', f) := FailUploadCompletion(r, c.tenant, c.upload, digest, failure, w.now);
      (r', st, if f.Err? then Completed(Err(f.code)) else Clean(s, objectExists, answer))
    case Clean(s, objectExists, answer) =>
      (r, if a.fault == Refused then st
          else if objectExists then DeleteObject(st, s.key) else AbortMultipart(st, s.key, s.storageUpload),
       Completed(Err(answer)))
    case Undo(s, answer) =>
      (r, if a.fault == Refused then st else DeleteObject(st, s.key), Completed(Err(answer)))
    case Completed(_) => (r, st, c.cpc)
  }

  // ------------------------------------------------- AbortUpload and SignUploadPart

  function AborterStep(w: World, c: Client, a: Act): (Repo, Store, AbortPc)
    requires c.Aborter? && a.Step?
  {
    var r, st := w.repo, w.store;
    match c.apc
    case AbortBegin =>
      if c.expiry && !(HasUpload(r, c.tenant, c.upload)
          && w.now >= r.uploads[c.upload].expiresAt) then (r, st, AbortEnd)
      else
        var (r', s) := AbortUpload(r, c.tenant, c.upload, if c.expiry then Expired else Aborted, w.now);
        (r', st, if s.Err? then AbortEnd else AbortClean(s.value))
    case AbortClean(s) =>
      (r, if a.fault == Refused then st
          else if !c.expiry && s.status == Failed && FailedHasObject(s.failure) then DeleteObject(st, s.key)
          else AbortMultipart(st, s.key, s.storageUpload),
       AbortEnd)
    case AbortEnd => (r, st, AbortEnd)
  }

  // ----------------------------------------------------------------------- Purge

  /** The order of the deletions is arbitrary. */
  function PurgerStep(w: World, c: Client, a: Act): (Repo, Store, PurgePc)
    requires c.Purger? && a.Step?
  {
    var r, st := w.repo, w.store;
    match c.ppc
    case PurgeBegin =>
      var (d', p) := PreparePurge(r.drive, c.tenant, c.root, c.revision, w.now);
      (r.(drive := d'), st, if p.Err? then PurgeEnd else PurgeDelete(p.value, p.value))
    case PurgeDelete(plan, todo) =>
      if todo == {} then (r.(drive := FinishPurge(r.drive, c.tenant, c.root, plan, w.now).0), st, PurgeEnd)
      else if a.pick !in todo || a.pick !in r.drive.blobs then (r, st, c.ppc)
      else
        (r, if a.fault == Refused then st else DeleteObject(st, r.drive.blobs[a.pick].key),
         if a.fault == Works then PurgeDelete(plan, todo - {a.pick}) else PurgeEnd)
    case PurgeEnd => (r, st, PurgeEnd)
  }

  // ----------------------------------------------------------- the maintenance pass

  /** cleanupUpload of the maintenance loop. */
  function Cleaned(st: Store, s: Session): Store {
    if s.status == Failed && FailedHasObject(s.failure) then DeleteObject(st, s.key)
    else AbortMultipart(st, s.key, s.storageUpload)
  }

  /** The claim: an open session must be due, a completing one may be stale; a terminal one awaits cleanup. */
  function ClaimPc(w: World, u: Id): MaintainPc {
    if u !in w.repo.uploads then MEnd
    else
      var s := w.repo.uploads[u];
      if Terminal(s.status) then MClean(s, s.status)
      else if s.status == Completing || s.status == ObjectCompleted then MStat(s)
      else if w.now < s.expiresAt then MEnd
      else MClean(s, Expired)
  }

  function StatPc(w: World, s: Session, fault: Fault): MaintainPc {
    if fault != Works then MFinish(s, s.status)
    else if s.key !in w.store.objects then MClean(s, Failed)
    else if |w.store.objects[s.key]| != s.expectedSize then MDiscard(s)
    else if s.status == Completing then MMark(s, s.expectedSize)
    else MCommit(s, s.expectedSize)
  }

  function PassAfterCommit(s: Session, k: Result<(Id, bool)>): MaintainPc {
    if k.Err? && (k.code == NameConflict || k.code == NotFound) then MUndo(s)
    else if k.Err? then MFinish(s, s.status)
    else MFinish(s.(status := Committed), Committed)
  }

  /** FinishUploadMaintenance: the status is written whatever the current one is. */
  function Finished(r: Repo, u: Id, status: UploadStatus, now: Time): Repo {
    if u !in r.uploads then r else r.(uploads := r.uploads[u := Moved(r.uploads[u], status, now)])
  }

  /** One call of processUpload. A refused finish is one whose lease was lost. */
  function MaintainerStep(w: World, c: Client, a: Act): (Repo, Store, Client)
    requires c.Maintainer? && a.Step?
  {
    var r, st := w.repo, w.store;
    match c.mpc
    case MClaim => (r, st, c.(mpc := ClaimPc(w, c.upload)))
    case MStat(s) => (r, st, c.(mpc := StatPc(w, s, a.fault)))
    case MClean(s, next) => (r, if a.fault == Refused then st else Cleaned(st, s), c.(mpc := MFinish(s, next)))
    case MDiscard(s) => (r, if a.fault == Refused then st else DeleteObject(st, s.key), c.(mpc := MFinish(s, Failed)))
    case MMark(s, size) =>
      var (r', m) := MarkObjectCompleted(r, s.tenant, c.upload, w.now);
      (r', st, c.(mpc := if m.Err? then MFinish(s, s.status) else MCommit(s.(status := ObjectCompleted), size)))
    case MCommit(s, size) =>
      var digest := if s.digest.Some? then s.digest.value else [];
      var (r', k) := CommitUpload(r, s.tenant, c.upload, digest, a.node, a.version, a.blob, size, w.now);
      (r', st, c.(first := c.first || (k.Ok? && k.value.1), mpc := PassAfterCommit(s, k)))
    case MUndo(s) => (r, if a.fault == Refused then st else DeleteObject(st, s.key), c.(mpc := MFinish(s, Failed)))
    case MFinish(_, status) => (if a.fault == Refused then r
        else Finished(r, c.upload, status, w.now), st, c.(mpc := MEnd))
    case MEnd => (r, st, c)
  }

  /** Does this step write back a status that may not follow the current one? */
  predicate WritesStale(w: World, a: Act) {
    && a.Step? && a.fault != Refused && a.c in w.clients
    && var c := w.clients[a.c];
       c.Maintainer? && c.mpc.MFinish? && c.upload in w.repo.uploads
       && !Follows(w.repo.uploads[c.upload].status, c.mpc.status)
  }

  // ------------------------------------------------------------------------- runs

  function ClientStep(w: World, c: Client, a: Act): (Repo, Store, Client)
    requires a.Step?
  {
    match c
    case Completer(_, _, _, _) => var (r, st, pc) := CompleterStep(w, c, a); (r, st, c.(cpc := pc))
    case Aborter(_, _, _, _) => var (r, st, pc) := AborterStep(w, c, a); (r, st, c.(apc := pc))
    case Purger(_, _, _, _) => var (r, st, pc) := PurgerStep(w, c, a); (r, st, c.(ppc := pc))
    case Maintainer(_, _, _) => MaintainerStep(w, c, a)
  }

  ghost function Next(w: World, a: Act): World {
    match a
    case Arrive(c, client) => w.(clients := w.clients[c := client])
    case Step(c, _, _, _, _, _) =>
      if c !in w.clients then w
      else
        var (r, st, k) := ClientStep(w, w.clients[c], a);
        World(r, st, w.clients[c := k], w.now)
    case NewUpload(u, s) =>
      var (r, k) := CreateUpload(w.repo, u, s);
      if k.Err? then w else w.(repo := r, store := Storage.CreateMultipart(w.store, s.storageUpload, s.key, s.declared))
    case SignPart(t, u) => w.(repo := MarkUploading(w.repo, t, u, w.now).0)
    case Put(id, number, data) => w.(store := PutPart(w.store, id, number, data))
    case Tree(op) => w.(repo := w.repo.(drive := NamespaceRuns.Apply(w.repo.drive, op)))
    case Tick(now) => w.(now := now)
  }

  /**
    Clients start at the beginning; generated ids and object keys are new; files appear only
    through commits; maintenance writes no status back that may not follow the current one.
   */
  predicate Admissible(w: World, a: Act) {
    match a
    case Arrive(c, client) =>
      && c !in w.clients
      && (client.Completer? ==> client.cpc == Begin)
      && (client.Aborter? ==> client.apc == AbortBegin)
      && (client.Purger? ==> client.ppc == PurgeBegin)
      && (client.Maintainer? ==> client.mpc == MClaim && !client.first)
    case Step(_, _, node, version, blob, _) =>
      && node !in w.repo.drive.nodes && node != NONE && version !in w.repo.drive.versions && blob !in w.repo.drive.blobs
      && !WritesStale(w, a)
    case NewUpload(u, s) =>
      && s.status == Created && s.digest == None && s.committedNode == NONE && s.failure == NoFailure
      && u !in w.repo.parts
      && s.storageUpload !in w.store.uploads && s.key !in w.store.objects
      && (forall v :: v in w.repo.uploads ==>
           w.repo.uploads[v].key != s.key && w.repo.uploads[v].storageUpload != s.storageUpload)
      && (forall m :: m in w.store.uploads ==> w.store.uploads[m].key != s.key)
    case Tree(op) => !op.OpAddFile? && NamespaceRuns.Admissible(w.repo.drive, op)
    case _ => true
  }

  ghost function Run(w: World, acts: seq<Act>): World
    decreases |acts|
  {
    if acts == [] then w else Run(Next(w, acts[0]), acts[1..])
  }

  ghost predicate AdmissibleRun(w: World, acts: seq<Act>)
    decreases |acts|
  {
    acts == [] || (Admissible(w, acts[0]) && AdmissibleRun(Next(w, acts[0]), acts[1..]))
  }
}
