/**
  What the upload protocol is for: from every state of a run, a client whose parts are stored gets its
  file committed, an abort ends its session, and a purge deletes what it planned.
 */
module UploadProgress {
  import opened Base
  import opened Namespace
  import opened Storage
  import opened Uploads
  import opened UploadProtocol
  import opened UploadInvariant
  import opened UploadObjects
  import opened UploadSafety
  import opened UploadRuns
  import opened UploadContent
  import opened Effects

  // ------------------------------------------------------- which completions are taken up

  predicate Open(s: Session, now: Time) {
    s.status in {Created, Uploading} && now < s.expiresAt
  }

  /** A completion is taken up by an open session, or by one that has recorded the same list and has not failed. */
  predicate TakenUp(r: Repo, tenant: Id, u: Id, list: seq<Part>, now: Time) {
    && ValidParts(list) && HasUpload(r, tenant, u)
    && (|| Open(r.uploads[u], now)
        || (r.uploads[u].digest == Some(PartsDigest(list))
            && r.uploads[u].status in {Completing, ObjectCompleted, Committed}))
  }

  /** Everything else is refused, an expired or ended session without a list among it, and changes nothing. */
  lemma CompletionIsTakenUpIff(w: World, k: Client, a: Act)
    requires UploadSafety.Inv(w) && k.Completer? && k.cpc == Begin && a.Step?
    ensures var (r, st, pc) := CompleterStep(w, k, a);
            && (pc.Completed? <==> !TakenUp(w.repo, k.tenant, k.upload, k.parts, w.now))
            && (pc.Completed? ==> r == w.repo && st == w.store && pc.result.Err?)
            && (!pc.Completed? && Open(w.repo.uploads[k.upload], w.now) ==>
                  && k.upload in r.uploads && r.uploads[k.upload].status == Completing
                  && r.uploads[k.upload].digest == Some(PartsDigest(k.parts)) && k.upload in r.parts
                  && r.parts[k.upload] == k.parts)
  {
    if k.upload in w.repo.uploads { assert SessionOk(w, k.upload); }
  }

  // ------------------------------------------------------------- a completion goes through

  /** The listed parts are stored, and put together they are `data`. */
  ghost predicate Assembles(st: Store, s: Session, list: seq<Part>, data: Bytes) {
    && s.storageUpload in st.uploads && st.uploads[s.storageUpload].key == s.key
    && Concatenated(st.uploads[s.storageUpload].parts, SortParts(list)) == Some(data)
  }

  ghost predicate Holds(st: Store, s: Session, data: Bytes) {
    s.key in st.objects && st.objects[s.key] == data
  }

  /** The session is not yet committed, the bytes are there, and so is the place for the file. */
  ghost predicate Completable(w: World, u: Id, list: seq<Part>, data: Bytes) {
    && u in w.repo.uploads && TakenUp(w.repo, w.repo.uploads[u].tenant, u, list, w.now)
    && var s := w.repo.uploads[u];
       && s.status != Committed && Acceptable(s, data)
       && (Assembles(w.store, s, list, data) || Holds(w.store, s, data))
       && OpenDirectory(w.repo.drive, s.tenant, s.parent)
       && !Occupied(w.repo.drive, s.tenant, s.parent, s.name, NONE)
  }

  function CallsLeft(pc: CompletePc): nat {
    match pc
    case Begin => 5
    case Assemble(_) => 4
    case Check(_, _) => 3
    case Stat(_) => 3
    case Mark(_, _) => 2
    case Commit(_, _) => 1
    case _ => 0
  }

  /** Where a completion can be that nothing stands against. */
  ghost predicate OnCourse(pc: CompletePc, t: Session, st: Store, list: seq<Part>, data: Bytes) {
    match pc
    case Assemble(s) => Later(s, t) && t.status == s.status == Completing
        && (Assembles(st, t, list, data) || Holds(st, t, data))
    case Check(s, _) => Later(s, t) && t.status == s.status == Completing && Holds(st, t, data)
    case Stat(s) => Later(s, t) && t.status == s.status == ObjectCompleted && Holds(st, t, data)
    case Mark(s, size) => Later(s, t) && t.status == Completing && size == |data| && Holds(st, t, data)
    case Commit(s, size) => Later(s, t) && t.status == ObjectCompleted && size == |data| && Holds(st, t, data)
    case _ => false
  }

  /** Only session `u`, its object and client `c` have moved since world `x`. */
  ghost predicate OnlySession(x: World, w: World, c: Id, u: Id) {
    && u in x.repo.uploads && u in w.repo.uploads && Later(x.repo.uploads[u], w.repo.uploads[u])
    && w.repo.uploads == x.repo.uploads[u := w.repo.uploads[u]] && w.now == x.now
    && (forall e :: e in x.clients && e != c ==> e in w.clients && w.clients[e] == x.clients[e])
    && (forall key :: key in x.store.objects && key != x.repo.uploads[u].key ==>
          key in w.store.objects && w.store.objects[key] == x.store.objects[key])
  }

  lemma OnlySessionTransitive(x: World, w: World, y: World, c: Id, u: Id)
    requires OnlySession(x, w, c, u) && OnlySession(w, y, c, u)
    ensures OnlySession(x, y, c, u)
  {
    LaterTransitive(x.repo.uploads[u], w.repo.uploads[u], y.repo.uploads[u]);
  }

  ghost predicate Underway(x: World, w: World, c: Id, u: Id, list: seq<Part>, data: Bytes) {
    && OnlySession(x, w, c, u) && Completable(x, u, list, data) && w.repo.drive == x.repo.drive
    && c in w.clients && w.clients[c].Completer?
    && w.clients[c] == Completer(x.repo.uploads[u].tenant, u, list, w.clients[c].cpc)
    && if w.clients[c].cpc == Begin then w == x
       else && w.repo.uploads[u].digest == Some(PartsDigest(list))
            && OnCourse(w.clients[c].cpc, w.repo.uploads[u], w.store, list, data)
  }

  /** The first call of a completion. */
  lemma BeginCall(w: World, k: Client, a: Act, data: Bytes)
    requires k.Completer? && k.cpc == Begin && a.Step? && Completable(w, k.upload, k.parts, data)
    requires k.tenant == w.repo.uploads[k.upload].tenant
    requires SessionOk(w, k.upload) && ObjectOk(w, k.upload) && StoreOk(w.repo.uploads, w.store)
    ensures var (r, st, pc) := CompleterStep(w, k, a);
            && st == w.store && k.upload in r.uploads && r.drive == w.repo.drive
            && r.uploads == w.repo.uploads[k.upload := r.uploads[k.upload]]
            && Later(w.repo.uploads[k.upload], r.uploads[k.upload])
            && r.uploads[k.upload].digest == Some(PartsDigest(k.parts))
            && OnCourse(pc, r.uploads[k.upload], st, k.parts, data) && CallsLeft(pc) < 5
  {
  }

  /** The calls between the first and the commit; an assembly whose answer is lost is as good as one that works. */
  lemma MiddleCall(w: World, k: Client, a: Act, data: Bytes)
    requires k.Completer? && a.Step? && HasUpload(w.repo, k.tenant, k.upload)
    requires a.fault == Works || (a.fault == Lost && k.cpc.Assemble?)
    requires var t := w.repo.uploads[k.upload];
             && t.digest == Some(PartsDigest(k.parts)) && OnCourse(k.cpc, t, w.store, k.parts, data)
             && Acceptable(t, data)
    requires ObjectOk(w, k.upload) && StoreOk(w.repo.uploads, w.store) && !k.cpc.Commit?
    ensures var (r, st, pc) := CompleterStep(w, k, a);
            && k.upload in r.uploads && r.drive == w.repo.drive
            && r.uploads == w.repo.uploads[k.upload := r.uploads[k.upload]]
            && Later(w.repo.uploads[k.upload], r.uploads[k.upload])
            && OnCourse(pc, r.uploads[k.upload], st, k.parts, data) && CallsLeft(pc) < CallsLeft(k.cpc)
            && (forall key :: key in w.store.objects && key != w.repo.uploads[k.upload].key ==>
                  key in st.objects && st.objects[key] == w.store.objects[key])
  {
  }

  /** What the invariant says of one session. */
  ghost predicate SessionKnown(w: World, u: Id) {
    u in w.repo.uploads && SessionOk(w, u) && ObjectOk(w, u) && StoreOk(w.repo.uploads, w.store)
  }

  lemma KnownSession(w: World, u: Id)
    requires UploadSafety.Inv(w) && u in w.repo.uploads
    ensures SessionKnown(w, u)
  {
    assert SessionOk(w, u) && ObjectOk(w, u);
  }

  lemma CompletionGoesOn(x: World, w: World, c: Id, u: Id, list: seq<Part>, data: Bytes, a: Act)
    requires Underway(x, w, c, u, list, data) && SessionKnown(w, u) && !w.clients[c].cpc.Commit? && FreshStep(w, a, c)
    ensures Admissible(w, a) && Underway(x, Next(w, a), c, u, list, data)
    ensures CallsLeft(Next(w, a).clients[c].cpc) < CallsLeft(w.clients[c].cpc)
  {
    var k := w.clients[c];
    if k.cpc == Begin { BeginCall(w, k, a, data); } else { MiddleCall(w, k, a, data); }
    var (r, st, pc) := CompleterStep(w, k, a);
    assert Next(w, a) == World(r, st, w.clients[c := k.(cpc := pc)], w.now);
    OnlySessionTransitive(x, w, Next(w, a), c, u);
  }

  /** File `n` is new, is listed where its session said, and can be downloaded; nothing else of the tree has changed. */
  ghost predicate Delivered(x: World, w: World, u: Id, n: Id, data: Bytes)
    requires u in x.repo.uploads
  {
    var s := x.repo.uploads[u];
    && Commits(w, u, n) && n !in x.repo.drive.nodes && n in w.repo.drive.nodes
    && w.repo.drive.nodes.Keys == x.repo.drive.nodes.Keys + {n}
    && (forall y :: y in x.repo.drive.nodes ==> w.repo.drive.nodes[y] == x.repo.drive.nodes[y])
    && ListedOnlyIn(w.repo.drive, s.tenant, n, s.parent, s.name)
    && w.repo.drive.nodes[n].display == s.display && w.repo.drive.nodes[n].size == |data|
    && Download(w.repo.drive, s.tenant, n).Ok? && Downloads(w, s.tenant, n, data)
  }

  /** Client `c` has been told that it committed file `n`, and so it has. */
  ghost predicate Done(x: World, w: World, c: Id, u: Id, list: seq<Part>, data: Bytes, n: Id) {
    && OnlySession(x, w, c, u) && Delivered(x, w, u, n, data)
    && c in w.clients && w.clients[c] == Completer(x.repo.uploads[u].tenant, u, list, Completed(Ok((n, true))))
  }

  /** The file a commit adds to the tree. */
  lemma AddedFileIsListed(d: Drive, s: Session, node: Id, version: Id, blob: Id, size: nat, now: Time)
    requires node !in d.nodes
    ensures var e := AddFile(d, s.tenant, s.parent, s.display, s.name, node, version, blob, s.key, size, now);
            && e.nodes.Keys == d.nodes.Keys + {node} && (forall y :: y in d.nodes ==> e.nodes[y] == d.nodes[y])
            && ListedOnlyIn(e, s.tenant, node, s.parent, s.name)
            && e.nodes[node].display == s.display && e.nodes[node].size == size
            && Download(e, s.tenant, node) == Ok(blob) && blob in e.blobs && e.blobs[blob].key == s.key
  {
  }

  lemma CommitStep(w: World, k: Client, a: Act)
    requires k.Completer? && k.cpc.Commit? && a.Step? && HasUpload(w.repo, k.tenant, k.upload)
    requires var t := w.repo.uploads[k.upload];
             && t.digest == Some(PartsDigest(k.parts)) && t.status == ObjectCompleted
             && OpenDirectory(w.repo.drive, t.tenant, t.parent)
             && !Occupied(w.repo.drive, t.tenant, t.parent, t.name, NONE)
    ensures var (r, st, pc) := CompleterStep(w, k, a);
            var t := w.repo.uploads[k.upload];
            && st == w.store && pc == Completed(Ok((a.node, true))) && k.upload in r.uploads
            && r.uploads == w.repo.uploads[k.upload := r.uploads[k.upload]] && Later(t, r.uploads[k.upload])
            && r.uploads[k.upload].status == Committed && r.uploads[k.upload].committedNode == a.node
            && r.drive == AddFile(w.repo.drive, t.tenant, t.parent, t.display, t.name, a.node, a.version, a.blob, t.key,
                                  k.cpc.size, w.now)
  {
    var t := w.repo.uploads[k.upload];
    OccupiedIsTaken(w.repo.drive, t.tenant, t.parent, t.name, NONE);
  }

  lemma CommitCall(x: World, w: World, c: Id, u: Id, list: seq<Part>, data: Bytes, a: Act)
    requires Underway(x, w, c, u, list, data) && w.clients[c].cpc.Commit? && FreshStep(w, a, c)
    ensures Admissible(w, a) && Done(x, Next(w, a), c, u, list, data, a.node)
  {
    var k, t := w.clients[c], w.repo.uploads[u];
    var (r, st, pc) := CompleterStep(w, k, a);
    CommitStep(w, k, a);
    assert Next(w, a) == World(r, st, w.clients[c := k.(cpc := pc)], w.now);
    assert Delivered(w, Next(w, a), u, a.node, data) by {
      AddedFileIsListed(w.repo.drive, t, a.node, a.version, a.blob, |data|, w.now);
    }
    OnlySessionTransitive(x, w, Next(w, a), c, u);
  }

  lemma NextCall(x: World, w: World, c: Id, u: Id, list: seq<Part>, data: Bytes) returns (a: Act)
    requires UploadSafety.Inv(w) && Underway(x, w, c, u, list, data) && !w.clients[c].cpc.Commit?
    ensures a.Step? && a.c == c && Admissible(w, a) && UploadSafety.Inv(Next(w, a))
    ensures Underway(x, Next(w, a), c, u, list, data)
    ensures CallsLeft(Next(w, a).clients[c].cpc) < CallsLeft(w.clients[c].cpc)
  {
    a := WorkingStep(w, c);
    KnownSession(w, u);
    CompletionGoesOn(x, w, c, u, list, data, a);
    StepKeepsInv(w, a);
  }

  /**
    A completion nothing stands against goes through: within five working calls its client is told that
    it committed a new file, and the file is there.
   */
  lemma {:induction false} CompletionGoesThrough(x: World, w: World, c: Id, u: Id, list: seq<Part>, data: Bytes)
    returns (acts: seq<Act>, n: Id)
    requires UploadSafety.Inv(w) && Underway(x, w, c, u, list, data)
    ensures AdmissibleRun(w, acts) && |acts| <= CallsLeft(w.clients[c].cpc) && AllBy(acts, c)
    ensures Done(x, Run(w, acts), c, u, list, data, n)
    decreases CallsLeft(w.clients[c].cpc)
  {
    if w.clients[c].cpc.Commit? {
      var a := WorkingStep(w, c);
      CommitCall(x, w, c, u, list, data, a);
      acts, n := [a] + [], a.node;
      Prepend(w, a, []);
      AllByPrepends(a, [], c);
    } else {
      var a := NextCall(x, w, c, u, list, data);
      var rest;
      rest, n := CompletionGoesThrough(x, Next(w, a), c, u, list, data);
      Prepend(w, a, rest);
      AllByPrepends(a, rest, c);
      acts := [a] + rest;
    }
  }

  /** The same, of a request that is about to make its first call. */
  lemma CompletionSucceeds(w: World, c: Id, u: Id, list: seq<Part>, data: Bytes) returns (acts: seq<Act>, n: Id)
    requires UploadSafety.Inv(w) && Completable(w, u, list, data)
    requires c in w.clients && w.clients[c] == Completer(w.repo.uploads[u].tenant, u, list, Begin)
    ensures AdmissibleRun(w, acts) && |acts| <= 5 && AllBy(acts, c)
    ensures Done(w, Run(w, acts), c, u, list, data, n)
  {
    acts, n := CompletionGoesThrough(w, w, c, u, list, data);
  }

  // --------------------------------------------------------------- a completion that cannot

  ghost predicate HasMultipart(st: Store, s: Session) {
    s.storageUpload in st.uploads && st.uploads[s.storageUpload].key == s.key
  }

  /** The stored parts, as listed, make an object the session accepts. */
  ghost predicate GoodParts(st: Store, s: Session, list: seq<Part>) {
    && HasMultipart(st, s)
    && var data := Concatenated(st.uploads[s.storageUpload].parts, SortParts(list));
       data.Some? && Acceptable(s, data.value)
  }

  ghost predicate HasPlace(d: Drive, s: Session) {
    OpenDirectory(d, s.tenant, s.parent) && !Occupied(d, s.tenant, s.parent, s.name, NONE)
  }

  /** Neither object nor multipart of the session is left in storage. */
  ghost predicate Cleared(st: Store, s: Session) {
    s.key !in st.objects && !HasMultipart(st, s)
  }

  function RefusalCalls(pc: CompletePc): nat {
    match pc
    case Begin => 6
    case Assemble(_) => 5
    case Check(_, _) => 4
    case Mark(_, _) => 3
    case Commit(_, _) => 2
    case Fail(_, _, _, _) => 2
    case Undo(_, _) => 1
    case Clean(_, _, _) => 1
    case _ => 0
  }

  /** Why a completion of these parts cannot go through. */
  ghost function Reason(st: Store, d: Drive, s: Session, list: seq<Part>): Failure
    requires HasMultipart(st, s)
  {
    var data := Concatenated(st.uploads[s.storageUpload].parts, SortParts(list));
    if data == None || (s.declared.Some? && s.declared.value != Sha256(data.value)) then StorageRejected
    else if |data.value| != s.expectedSize then SizeMismatch
    else PlaceReason(d, s)
  }

  ghost function PlaceReason(d: Drive, s: Session): Failure {
    if !OpenDirectory(d, s.tenant, s.parent) then ParentUnavailable
    else if Occupied(d, s.tenant, s.parent, s.name, NONE) then NameTakenFailure
    else NoFailure
  }

  function CodeFor(f: Failure): Code {
    if f == ParentUnavailable then NotFound else if f == NameTakenFailure then NameConflict else InvalidRequest
  }

  /** Where a completion can be that is bound to fail for this reason. */
  ghost predicate OffCourse(pc: CompletePc, t: Session, st: Store, d: Drive, list: seq<Part>, reason: Failure) {
    && reason != NoFailure
    && match pc
       case Assemble(s) =>
         && Later(s, t) && t.status == s.status == Completing && HasMultipart(st, t) && t.key !in st.objects
         && reason == Reason(st, d, t, list)
       case Check(s, refusal) =>
         && Later(s, t) && t.status == s.status == Completing
         && if t.key in st.objects
            then && !HasMultipart(st, t)
                 && reason == (if |st.objects[t.key]| != t.expectedSize then SizeMismatch else PlaceReason(d, t))
            else refusal == Some(InvalidRequest) && reason == StorageRejected
       case Mark(s, _) => Later(s, t) && t.status == Completing && !HasMultipart(st, t) && reason == PlaceReason(d, t)
       case Commit(s, _) =>
         Later(s, t) && t.status == ObjectCompleted && !HasMultipart(st, t) && reason == PlaceReason(d, t)
       case Fail(s, failure, assembled, answer) =>
         && Later(s, t) && t.status == Completing && failure == reason && answer == CodeFor(reason)
         && if assembled then !HasMultipart(st, t) else t.key !in st.objects
       case Clean(s, assembled, answer) =>
         && Later(s, t) && t.status == Failed && t.failure == reason && answer == CodeFor(reason)
         && if assembled then !HasMultipart(st, t) else t.key !in st.objects
       case Undo(s, answer) =>
         Later(s, t) && t.status == Failed && t.failure == reason && answer == CodeFor(reason) && !HasMultipart(st, t)
       case Completed(r) => r == Err(CodeFor(reason)) && t.status == Failed && t.failure == reason && Cleared(st, t)
       case _ => false
  }

  /** What one call of a failing completion leaves: its session alone has moved, and it is a call further. */
  ghost predicate FailsOn(w: World, k: Client, step: (Repo, Store, CompletePc), reason: Failure)
    requires k.Completer? && k.upload in w.repo.uploads
  {
    var (r, st, pc) := step;
    && k.upload in r.uploads && r.drive == w.repo.drive
    && r.uploads == w.repo.uploads[k.upload := r.uploads[k.upload]]
    && Later(w.repo.uploads[k.upload], r.uploads[k.upload])
    && r.uploads[k.upload].digest == Some(PartsDigest(k.parts))
    && OffCourse(pc, r.uploads[k.upload], st, r.drive, k.parts, reason) && RefusalCalls(pc) < RefusalCalls(k.cpc)
    && (forall key :: key in w.store.objects && key != w.repo.uploads[k.upload].key ==>
          key in st.objects && st.objects[key] == w.store.objects[key])
  }

  lemma RefusedBeginCall(w: World, k: Client, a: Act, reason: Failure)
    requires k.Completer? && k.cpc == Begin && a.Step? && HasUpload(w.repo, k.tenant, k.upload) && ValidParts(k.parts)
    requires var s := w.repo.uploads[k.upload];
             && Open(s, w.now) && HasMultipart(w.store, s) && reason == Reason(w.store, w.repo.drive, s, k.parts)
             && reason != NoFailure
    requires SessionKnown(w, k.upload)
    ensures FailsOn(w, k, CompleterStep(w, k, a), reason)
  {
  }

  ghost predicate CanFail(w: World, k: Client, a: Act, reason: Failure) {
    && k.Completer? && a.Step? && a.fault == Works && HasUpload(w.repo, k.tenant, k.upload) && SessionKnown(w, k.upload)
    && w.repo.uploads[k.upload].digest == Some(PartsDigest(k.parts))
    && OffCourse(k.cpc, w.repo.uploads[k.upload], w.store, w.repo.drive, k.parts, reason)
  }

  lemma RefusedAssembly(w: World, k: Client, a: Act, reason: Failure)
    requires CanFail(w, k, a, reason) && (k.cpc.Assemble? || k.cpc.Check?)
    ensures FailsOn(w, k, CompleterStep(w, k, a), reason)
  {
  }

  lemma CleaningCall(w: World, k: Client, a: Act, reason: Failure)
    requires CanFail(w, k, a, reason) && (k.cpc.Clean? || k.cpc.Undo?)
    ensures FailsOn(w, k, CompleterStep(w, k, a), reason)
  {
  }

  lemma RefusedMarkCall(w: World, k: Client, a: Act, reason: Failure)
    requires CanFail(w, k, a, reason) && (k.cpc.Mark? || k.cpc.Fail?)
    ensures FailsOn(w, k, CompleterStep(w, k, a), reason)
  {
  }

  lemma RefusedCommitCall(w: World, k: Client, a: Act, reason: Failure)
    requires CanFail(w, k, a, reason) && k.cpc.Commit?
    ensures FailsOn(w, k, CompleterStep(w, k, a), reason)
  {
    var t := w.repo.uploads[k.upload];
    OccupiedIsTaken(w.repo.drive, t.tenant, t.parent, t.name, NONE);
  }

  ghost predicate Failing(x: World, w: World, c: Id, u: Id, list: seq<Part>) {
    && OnlySession(x, w, c, u) && w.repo.drive == x.repo.drive && c in w.clients && w.clients[c].Completer?
    && w.clients[c] == Completer(x.repo.uploads[u].tenant, u, list, w.clients[c].cpc)
    && HasMultipart(x.store, x.repo.uploads[u])
    && var reason := Reason(x.store, x.repo.drive, x.repo.uploads[u], list);
       if w.clients[c].cpc == Begin then
         w == x && Open(w.repo.uploads[u], w.now) && ValidParts(list) && reason != NoFailure
       else
         && w.repo.uploads[u].digest == Some(PartsDigest(list))
         && OffCourse(w.clients[c].cpc, w.repo.uploads[u], w.store, w.repo.drive, list, reason)
  }

  lemma FailureGoesOn(x: World, w: World, c: Id, u: Id, list: seq<Part>, a: Act)
    requires Failing(x, w, c, u, list) && SessionKnown(w, u) && !w.clients[c].cpc.Completed? && FreshStep(w, a, c)
    ensures Admissible(w, a) && Failing(x, Next(w, a), c, u, list)
    ensures RefusalCalls(Next(w, a).clients[c].cpc) < RefusalCalls(w.clients[c].cpc)
  {
    var k, reason := w.clients[c], Reason(x.store, x.repo.drive, x.repo.uploads[u], list);
    var (r, st, pc) := CompleterStep(w, k, a);
    assert FailsOn(w, k, (r, st, pc), reason) by {
      if k.cpc == Begin { RefusedBeginCall(w, k, a, reason); }
      else if k.cpc.Mark? || k.cpc.Fail? { RefusedMarkCall(w, k, a, reason); }
      else if k.cpc.Commit? { RefusedCommitCall(w, k, a, reason); }
      else if k.cpc.Clean? || k.cpc.Undo? { CleaningCall(w, k, a, reason); }
      else { RefusedAssembly(w, k, a, reason); }
    }
    assert Next(w, a) == World(r, st, w.clients[c := k.(cpc := pc)], w.now);
    OnlySessionTransitive(x, w, Next(w, a), c, u);
  }

  lemma {:induction false} CompletionFails(x: World, w: World, c: Id, u: Id, list: seq<Part>) returns (acts: seq<Act>)
    requires UploadSafety.Inv(w) && Failing(x, w, c, u, list)
    ensures AdmissibleRun(w, acts) && |acts| <= RefusalCalls(w.clients[c].cpc) && AllBy(acts, c)
    ensures Failing(x, Run(w, acts), c, u, list) && Run(w, acts).clients[c].cpc.Completed?
    decreases RefusalCalls(w.clients[c].cpc)
  {
    if w.clients[c].cpc.Completed? {
      acts := [];
    } else {
      var a := WorkingStep(w, c);
      KnownSession(w, u);
      FailureGoesOn(x, w, c, u, list, a);
      StepKeepsInv(w, a);
      var rest := CompletionFails(x, Next(w, a), c, u, list);
      Prepend(w, a, rest);
      AllByPrepends(a, rest, c);
      acts := [a] + rest;
    }
  }

  /** The client has its answer: its file if the parts are good and have a place, otherwise the reason why not. */
  ghost predicate Decided(w: World, y: World, c: Id, u: Id, list: seq<Part>)
    requires u in w.repo.uploads && HasMultipart(w.store, w.repo.uploads[u])
  {
    var s := w.repo.uploads[u];
    && c in y.clients && y.clients[c].Completer? && y.clients[c].cpc.Completed? && u in y.repo.uploads
    && (y.clients[c].cpc.result.Ok? <==> HasPlace(w.repo.drive, s) && GoodParts(w.store, s, list))
    && (y.clients[c].cpc.result.Err? ==>
          && y.repo.uploads[u].status == Failed && Cleared(y.store, s) && y.repo.drive == w.repo.drive
          && y.repo.uploads[u].failure == Reason(w.store, w.repo.drive, s, list)
          && y.clients[c].cpc.result.code == CodeFor(y.repo.uploads[u].failure))
  }

  lemma FailureIsClear(x: World, w: World, c: Id, u: Id, list: seq<Part>)
    requires Failing(x, w, c, u, list) && w.clients[c].cpc.Completed?
    requires Reason(x.store, x.repo.drive, x.repo.uploads[u], list) != NoFailure
    ensures Decided(x, w, c, u, list)
  {
  }

  /**
    A completion of an open session that has its multipart, left alone over working storage, is decided
    within six calls. It commits if and only if the listed parts make an acceptable object and the file has
    a place; otherwise the session has failed, and storage keeps nothing of it.
   */
  lemma CompletionIsDecided(w: World, c: Id, u: Id, list: seq<Part>) returns (acts: seq<Act>)
    requires UploadSafety.Inv(w) && u in w.repo.uploads && Open(w.repo.uploads[u], w.now) && ValidParts(list)
    requires HasMultipart(w.store, w.repo.uploads[u])
    requires c in w.clients && w.clients[c] == Completer(w.repo.uploads[u].tenant, u, list, Begin)
    ensures AdmissibleRun(w, acts) && |acts| <= 6 && AllBy(acts, c)
    ensures Decided(w, Run(w, acts), c, u, list)
  {
    var s := w.repo.uploads[u];
    if HasPlace(w.repo.drive, s) && GoodParts(w.store, s, list) {
      var data := Concatenated(w.store.uploads[s.storageUpload].parts, SortParts(list)).value;
      var n;
      acts, n := CompletionSucceeds(w, c, u, list, data);
    } else {
      acts := CompletionFails(w, w, c, u, list);
      FailureIsClear(w, Run(w, acts), c, u, list);
    }
  }

  // ------------------------------------------------------------------- signing and aborting

  /** Signing a part opens a created session, and leaves everything else about it alone. */
  lemma SigningOpens(r: Repo, tenant: Id, u: Id, now: Time)
    ensures var (r', k) := MarkUploading(r, tenant, u, now);
            && (k.Ok? <==> HasUpload(r, tenant, u) && r.uploads[u].status in {Created, Uploading})
            && (k.Ok? ==> u in r'.uploads && r'.uploads[u] == k.value && k.value.status == Uploading
                          && Later(r.uploads[u], k.value) && r'.uploads == r.uploads[u := k.value])
            && r'.drive == r.drive && r'.parts == r.parts && (k.Err? ==> r' == r)
  {
  }

  /** An abort is refused, and changes nothing, once the session completes or is committed. */
  lemma AbortIsTakenUpIff(w: World, k: Client, a: Act)
    requires k.Aborter? && k.apc == AbortBegin && a.Step?
    ensures var (r, st, pc) := AborterStep(w, k, a);
            && st == w.store && (pc == AbortEnd ==> r == w.repo)
            && (pc.AbortClean? <==>
                  && HasUpload(w.repo, k.tenant, k.upload)
                  && w.repo.uploads[k.upload].status !in {Completing, ObjectCompleted, Committed}
                  && (k.expiry ==> w.repo.uploads[k.upload].expiresAt <= w.now))
  {
  }

  /** An abort of an open session, or the expiry of a due one, ends it and clears its multipart away. */
  lemma AbortEndsTheSession(w: World, c: Id, u: Id, expiry: bool) returns (a: Act)
    requires UploadSafety.Inv(w) && u in w.repo.uploads && w.repo.uploads[u].status in {Created, Uploading}
    requires expiry ==> w.repo.uploads[u].expiresAt <= w.now
    requires c in w.clients && w.clients[c] == Aborter(w.repo.uploads[u].tenant, u, expiry, AbortBegin)
    ensures FreshStep(w, a, c) && AdmissibleRun(w, [a, a])
    ensures var y := Run(w, [a, a]);
            && u in y.repo.uploads && y.repo.uploads[u].status == (if expiry then Expired else Aborted)
            && Cleared(y.store, w.repo.uploads[u]) && y.repo.drive == w.repo.drive && y.store.objects == w.store.objects
            && y.repo.uploads == w.repo.uploads[u := y.repo.uploads[u]]
  {
    a := WorkingStep(w, c);
    KnownSession(w, u);
    var x := Next(w, a);
    AbortFirstCall(w, c, u, expiry, a);
    AbortSecondCall(x, c, a);
    Prepend(x, a, []);
    Prepend(w, a, [a] + []);
    assert [a] + ([a] + []) == [a, a];
  }

  lemma AbortFirstCall(w: World, c: Id, u: Id, expiry: bool, a: Act)
    requires SessionKnown(w, u) && w.repo.uploads[u].status in {Created, Uploading}
    requires expiry ==> w.repo.uploads[u].expiresAt <= w.now
    requires c in w.clients && w.clients[c] == Aborter(w.repo.uploads[u].tenant, u, expiry, AbortBegin)
    requires FreshStep(w, a, c)
    ensures var x, s := Next(w, a), Moved(w.repo.uploads[u], if expiry then Expired else Aborted, w.now);
            && Admissible(w, a) && x.repo == w.repo.(uploads := w.repo.uploads[u := s]) && x.store == w.store
            && c in x.clients && x.clients[c] == Aborter(w.repo.uploads[u].tenant, u, expiry, AbortClean(s))
  {
  }

  lemma AbortSecondCall(x: World, c: Id, a: Act)
    requires FreshStep(x, a, c) && c in x.clients && x.clients[c].Aborter? && x.clients[c].apc.AbortClean?
    requires x.clients[c].apc.s.status != Failed
    ensures Admissible(x, a) && Next(x, a).repo == x.repo && Next(x, a).store.objects == x.store.objects
    ensures !HasMultipart(Next(x, a).store, x.clients[c].apc.s)
  {
  }

  // ----------------------------------------------------------------------------- purging

  /** A purge that has deleted all but `todo` of its plan. */
  ghost predicate Deleting(x: World, w: World, c: Id, tenant: Id, root: Id, plan: set<Id>, todo: set<Id>) {
    && c in w.clients && w.clients[c].Purger? && w.clients[c].tenant == tenant && w.clients[c].root == root
    && w.clients[c].ppc == PurgeDelete(plan, todo) && todo <= plan
    && w.repo == x.repo && w.store.uploads == x.store.uploads && root in x.repo.drive.nodes
    && x.repo.drive.nodes[root].tenant == tenant && x.repo.drive.nodes[root].status == Purging
    && (forall b :: b in plan ==>
          && b in x.repo.drive.blobs && x.repo.drive.blobs[b].tenant == tenant
          && x.repo.drive.blobs[b].status == PendingDelete
          && (b !in todo ==> x.repo.drive.blobs[b].key !in w.store.objects))
    && KeepsOthers(x, w.store, plan)
  }

  ghost predicate Planned(x: World, plan: set<Id>, key: Id) {
    exists b :: b in plan && b in x.repo.drive.blobs && x.repo.drive.blobs[b].key == key
  }

  /** Objects that belong to no blob of the plan are as they were. */
  ghost predicate KeepsOthers(x: World, st: Store, plan: set<Id>) {
    forall key | key in x.store.objects && !Planned(x, plan, key) ::
      key in st.objects && st.objects[key] == x.store.objects[key]
  }

  lemma DeletionGoesOn(x: World, w: World, c: Id, tenant: Id, root: Id, plan: set<Id>, todo: set<Id>, a: Act)
    requires Deleting(x, w, c, tenant, root, plan, todo) && FreshStep(w, a, c) && a.pick in todo
    ensures Admissible(w, a) && Deleting(x, Next(w, a), c, tenant, root, plan, todo - {a.pick})
  {
  }

  /** The planned blobs are deleted, and so are their objects. */
  ghost predicate PlanDone(x: World, w: World, plan: set<Id>) {
    && (forall b :: b in plan ==> b in w.repo.drive.blobs && w.repo.drive.blobs[b].status == Deleted
                                  && w.repo.drive.blobs[b].key !in w.store.objects)
    && KeepsOthers(x, w.store, plan) && w.repo.drive.nodes == x.repo.drive.nodes
  }

  lemma DeletionEnds(x: World, w: World, c: Id, tenant: Id, root: Id, plan: set<Id>, a: Act)
    requires Deleting(x, w, c, tenant, root, plan, {}) && FreshStep(w, a, c)
    ensures Admissible(w, a) && PlanDone(x, Next(w, a), plan)
  {
  }

  lemma {:induction false} DeletionRunsThrough(
    x: World, w: World, c: Id, tenant: Id, root: Id, plan: set<Id>, todo: set<Id>) returns (acts: seq<Act>)
    requires Deleting(x, w, c, tenant, root, plan, todo)
    ensures AdmissibleRun(w, acts) && |acts| == |todo| + 1 && AllBy(acts, c) && PlanDone(x, Run(w, acts), plan)
    decreases |todo|
  {
    var a := WorkingStep(w, c);
    if todo == {} {
      DeletionEnds(x, w, c, tenant, root, plan, a);
      Prepend(w, a, []);
      AllByPrepends(a, [], c);
      acts := [a] + [];
    } else {
      var b :| b in todo;
      a := a.(pick := b);
      DeletionGoesOn(x, w, c, tenant, root, plan, todo, a);
      var rest := DeletionRunsThrough(x, Next(w, a), c, tenant, root, plan, todo - {b});
      Prepend(w, a, rest);
      AllByPrepends(a, rest, c);
      acts := [a] + rest;
    }
  }

  lemma PurgeBegins(w: World, c: Id, tenant: Id, root: Id, revision: int, a: Act)
    requires Namespace.Inv(w.repo.drive) && FreshStep(w, a, c) && c in w.clients
    requires w.clients[c] == Purger(tenant, root, revision, PurgeBegin)
    requires PreparePurge(w.repo.drive, tenant, root, revision, w.now).1.Ok?
    ensures var plan := PreparePurge(w.repo.drive, tenant, root, revision, w.now).1.value;
            && Admissible(w, a) && Next(w, a).store == w.store
            && Next(w, a).repo.drive == PreparePurge(w.repo.drive, tenant, root, revision, w.now).0
            && Deleting(Next(w, a), Next(w, a), c, tenant, root, plan, plan)
  {
    var d := w.repo.drive;
    var plan := PreparePurge(d, tenant, root, revision, w.now).1.value;
    forall b | b in plan ensures b in d.blobs && d.blobs[b].tenant == tenant {
      var v :| v in d.versions && d.versions[v].tenant == tenant && d.versions[v].blob == b;
      assert Guarded(d, v);
    }
  }

  /**
    A purge of a recycled subtree, left alone over working storage, deletes one object for every blob nobody
    outside the subtree refers to, and touches no other object.
   */
  lemma PurgeDeletesItsPlan(w: World, c: Id, tenant: Id, root: Id, revision: int) returns (acts: seq<Act>)
    requires UploadSafety.Inv(w) && c in w.clients && w.clients[c] == Purger(tenant, root, revision, PurgeBegin)
    requires PreparePurge(w.repo.drive, tenant, root, revision, w.now).1.Ok?
    ensures var (d, plan) := PreparePurge(w.repo.drive, tenant, root, revision, w.now);
            && AdmissibleRun(w, acts) && |acts| == |plan.value| + 2 && AllBy(acts, c)
            && PlanDone(w.(repo := w.repo.(drive := d)), Run(w, acts), plan.value)
  {
    var a := WorkingStep(w, c);
    PurgeBegins(w, c, tenant, root, revision, a);
    var plan := PreparePurge(w.repo.drive, tenant, root, revision, w.now).1.value;
    var x := Next(w, a);
    var rest := DeletionRunsThrough(x, x, c, tenant, root, plan, plan);
    Prepend(w, a, rest);
    AllByPrepends(a, rest, c);
    acts := [a] + rest;
  }
}
