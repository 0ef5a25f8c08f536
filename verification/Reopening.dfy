/**
  What happens after a maintenance pass has written an open status over a session that had ended: a
  repeated completion goes through again, and a file that is not being purged loses its object.
 */
module Reopening {
  import opened Base
  import opened Namespace
  import NamespaceInvariant
  import NamespaceRuns
  import opened Storage
  import opened Uploads
  import opened UploadProtocol
  import opened UploadInvariant
  import opened UploadObjects
  import opened UploadSteps
  import opened UploadSafety
  import opened UploadRuns

  /** A status under which a client may still complete. */
  predicate Reopens(status: UploadStatus) {
    status == Completing || status == ObjectCompleted
  }

  /** The file of node `n` is not being purged, and its object is gone. */
  ghost predicate LosesFile(w: World, n: Id) {
    var d := w.repo.drive;
    && n in d.nodes && d.nodes[n].kind == File && d.nodes[n].status != Purging && d.nodes[n].version in d.versions
    && d.versions[d.nodes[n].version].blob in d.blobs
    && d.blobs[d.versions[d.nodes[n].version].blob].key !in w.store.objects
  }

  // ------------------------------------------------------------- the repeated completion

  /** The recorded list of session `u` and an acceptable object are there. */
  ghost predicate Complete(w: World, u: Id) {
    && u in w.repo.uploads && u in w.repo.parts && ValidParts(w.repo.parts[u])
    && w.repo.uploads[u].digest == Some(PartsDigest(w.repo.parts[u]))
    && HasObject(w.store, w.repo.uploads[u]) && w.repo.uploads[u].storageUpload !in w.store.uploads
  }

  predicate SameIdentity(s: Session, t: Session) {
    s == t.(status := s.status, revision := s.revision, updatedAt := s.updatedAt)
  }

  /** World `w` is `x` but for client `c` and the progress of session `u`. */
  ghost predicate OnlyProgress(x: World, w: World, c: Id, u: Id) {
    && u in x.repo.uploads && u in w.repo.uploads && SameIdentity(w.repo.uploads[u], x.repo.uploads[u])
    && w.repo == x.repo.(uploads := x.repo.uploads[u := w.repo.uploads[u]]) && w.store == x.store && w.now == x.now
    && c !in x.clients && c in w.clients && w.clients == x.clients[c := w.clients[c]]
  }

  /** Where a repeated completion can be, given the status of its session. */
  predicate OnTheWay(pc: CompletePc, t: Session) {
    match pc
    case Begin => Reopens(t.status)
    case Assemble(s) => t.status == Completing && SameIdentity(s, t) && s.status == Completing
    case Check(s, refusal) => t.status == Completing && SameIdentity(s, t) && s.status == Completing && refusal == None
    case Stat(s) => t.status == ObjectCompleted && SameIdentity(s, t) && s.status == ObjectCompleted
    case Mark(s, size) => t.status == Completing && SameIdentity(s, t) && size == t.expectedSize
    case Commit(s, size) => t.status == ObjectCompleted && SameIdentity(s, t) && size == t.expectedSize
    case _ => false
  }

  ghost predicate Repeats(x: World, w: World, c: Id, u: Id) {
    && OnlyProgress(x, w, c, u) && Complete(x, u) && w.clients[c].Completer?
    && w.clients[c] == Completer(x.repo.uploads[u].tenant, u, x.repo.parts[u], w.clients[c].cpc)
    && OnTheWay(w.clients[c].cpc, w.repo.uploads[u])
  }

  function CallsToCommit(pc: CompletePc): nat {
    match pc
    case Begin => 4
    case Assemble(_) => 3
    case Check(_, _) => 2
    case Stat(_) => 1
    case Mark(_, _) => 1
    case _ => 0
  }

  lemma RepeatGoesOn(x: World, w: World, c: Id, u: Id, a: Act)
    requires Repeats(x, w, c, u) && !w.clients[c].cpc.Commit? && FreshStep(w, a, c)
    ensures Admissible(w, a) && Repeats(x, Next(w, a), c, u)
    ensures CallsToCommit(Next(w, a).clients[c].cpc) < CallsToCommit(w.clients[c].cpc)
  {
    var (r, st, pc) := CompleterStep(w, w.clients[c], a);
    RepeatCall(x, w, c, u, a);
    assert Next(w, a) == World(r, st, w.clients[c := w.clients[c].(cpc := pc)], w.now);
  }

  lemma RepeatCall(x: World, w: World, c: Id, u: Id, a: Act)
    requires Repeats(x, w, c, u) && !w.clients[c].cpc.Commit? && FreshStep(w, a, c)
    ensures var (r, st, pc) := CompleterStep(w, w.clients[c], a);
            && st == w.store && u in r.uploads && r == w.repo.(uploads := w.repo.uploads[u := r.uploads[u]])
            && SameIdentity(r.uploads[u], w.repo.uploads[u]) && OnTheWay(pc, r.uploads[u])
            && CallsToCommit(pc) < CallsToCommit(w.clients[c].cpc)
  {
  }

  /** A repeated completion gets as far as its commit, and nothing but its session has moved. */
  lemma {:induction false} RepeatReachesCommit(x: World, w: World, c: Id, u: Id, a: Act) returns (acts: seq<Act>)
    requires Repeats(x, w, c, u) && FreshStep(w, a, c)
    ensures AdmissibleRun(w, acts) && Repeats(x, Run(w, acts), c, u) && Run(w, acts).clients[c].cpc.Commit?
    decreases CallsToCommit(w.clients[c].cpc)
  {
    if w.clients[c].cpc.Commit? {
      acts := [];
    } else {
      RepeatGoesOn(x, w, c, u, a);
      var rest := RepeatReachesCommit(x, Next(w, a), c, u, a);
      Prepend(w, a, rest);
      acts := [a] + rest;
    }
  }

  // -------------------------------------------------- over a session that was committed

  /** Node `n` is a file, not being purged, whose object is at `key`. */
  ghost predicate Refers(d: Drive, n: Id, key: Id) {
    && n in d.nodes && d.nodes[n].kind == File && d.nodes[n].status != Purging && d.nodes[n].version in d.versions
    && d.versions[d.nodes[n].version].blob in d.blobs && d.blobs[d.versions[d.nodes[n].version].blob].key == key
  }

  /** The file is as it was, and it still refers to the same object. */
  ghost predicate KeepsNode(d: Drive, e: Drive, n: Id)
    requires n in d.nodes
  {
    && n in e.nodes && e.nodes[n] == d.nodes[n]
    && (d.nodes[n].version in d.versions ==>
          && d.nodes[n].version in e.versions && e.versions[d.nodes[n].version] == d.versions[d.nodes[n].version])
    && (forall b :: b in d.blobs ==> b in e.blobs && e.blobs[b].key == d.blobs[b].key)
  }

  /** A refused commit, of which the repeat is one if its name or place is taken, deletes the object. */
  lemma RefusedRepeatDeletes(x: World, w: World, c: Id, u: Id, a: Act)
    requires Repeats(x, w, c, u) && w.clients[c].cpc.Commit? && !CommitSucceeds(w.repo, u) && FreshStep(w, a, c)
    ensures AdmissibleRun(w, [a, a]) && Run(w, [a, a]).repo.drive == x.repo.drive
    ensures x.repo.uploads[u].key !in Run(w, [a, a]).store.objects
  {
    var y := Next(w, a);
    assert y.clients[c].cpc.Undo? && y.clients[c].cpc.s.key == x.repo.uploads[u].key && y.repo.drive == x.repo.drive;
    Prepend(y, a, []);
    Prepend(w, a, [a] + []);
    assert [a] + ([a] + []) == [a, a];
  }

  /** A commit that succeeds adds a second file with the same object; nothing else of the drive changes. */
  lemma AcceptedRepeatAdds(x: World, w: World, c: Id, u: Id, a: Act)
    requires Repeats(x, w, c, u) && w.clients[c].cpc.Commit? && CommitSucceeds(w.repo, u) && FreshStep(w, a, c)
    ensures var y, s := Next(w, a), x.repo.uploads[u];
            && Admissible(w, a) && y.store == x.store && y.now == x.now
            && y.repo.drive == AddFile(x.repo.drive, s.tenant, s.parent, s.display, s.name, a.node, a.version, a.blob,
                                       s.key, s.expectedSize, x.now)
            && c in y.clients && forall e :: e in x.clients ==> e in y.clients && y.clients[e] == x.clients[e]
  {
  }

  /** A file has nothing below it. */
  lemma NothingBelowAFile(d: Drive, file: Id, x: Id)
    requires Forest(d) && file in d.nodes && d.nodes[file].kind == File && x in d.nodes && Under(d.nodes, x, file)
    ensures x == file
  {
    var k: nat :| Climb(d.nodes, x, k) == file;
    if k > 0 { NamespaceInvariant.OnlyDirectoriesHaveDescendants(d, x, k); }
  }

  lemma RecyclingAFile(d: Drive, tenant: Id, file: Id, now: Time, n: Id)
    requires Namespace.Inv(d) && VisibleIn(d, tenant, file) && d.nodes[file].kind == File && n in d.nodes && n != file
    ensures var (e, r) := Recycle(d, tenant, file, d.nodes[file].revision, now);
            && r.Ok? && file in e.nodes && e.nodes[file].status == Trashed && e.nodes[file].trashedRoot == file
            && e.nodes[file].tenant == tenant && e.nodes[file].revision == d.nodes[file].revision + 1
            && KeepsNode(d, e, n) && e.versions == d.versions && e.blobs == d.blobs
  {
    assert Placed(d, file);
    NamespaceInvariant.UnderUnfold(d.nodes, file, file);
    if Under(d.nodes, n, file) { NothingBelowAFile(d, file, n); }
  }

  /** The purge of a recycled file plans the blob nobody else refers to. */
  lemma PurgingAFile(d: Drive, tenant: Id, file: Id, version: Id, blob: Id, now: Time, n: Id)
    requires file in d.nodes && d.nodes[file].tenant == tenant && d.nodes[file].status == Trashed
    requires d.nodes[file].trashedRoot == file && n in d.nodes && d.nodes[n].trashedRoot != file
    requires version in d.versions && d.versions[version].tenant == tenant && d.versions[version].node == file
    requires d.versions[version].blob == blob && blob in d.blobs && d.blobs[blob].status == Available
    requires forall v :: v in d.versions && d.versions[v].blob == blob ==> v == version
    ensures var (e, p) := PreparePurge(d, tenant, file, d.nodes[file].revision, now);
            && p.Ok? && blob in p.value && KeepsNode(d, e, n) && blob in e.blobs
                 && e.blobs[blob].key == d.blobs[blob].key
  {
    assert file in TrashGroup(d, tenant, file);
    assert blob in PurgeableBlobs(d, tenant, file);
  }

  lemma KeepsNodeTransitive(d: Drive, e: Drive, f: Drive, n: Id)
    requires n in d.nodes && KeepsNode(d, e, n) && KeepsNode(e, f, n)
    ensures KeepsNode(d, f, n)
  {
  }

  /** The drive after the second commit: the new file can be recycled, and its blob is its own. */
  lemma AddedFile(d: Drive, s: Session, a: Act, now: Time, n: Id)
    requires Namespace.Inv(d) && OpenDirectory(d, s.tenant, s.parent) && !NameTaken(d, s.tenant, s.parent, s.name, NONE)
    requires a.Step? && a.node !in d.nodes && a.node != NONE && a.version !in d.versions && a.blob !in d.blobs
    requires n in d.nodes && d.nodes[n].kind == File
    ensures var e := AddFile(d, s.tenant, s.parent, s.display, s.name, a.node, a.version, a.blob, s.key,
            s.expectedSize, now);
            && Namespace.Inv(e) && VisibleIn(e, s.tenant, a.node) && e.nodes[a.node].kind == File
            && e.nodes[a.node].revision == 1 && KeepsNode(d, e, n) && n != a.node && e.nodes[n].trashedRoot != a.node
            && e.versions[a.version] == Version(s.tenant, a.node, a.blob, s.expectedSize)
            && e.blobs[a.blob] == Blob(s.tenant, s.key, s.expectedSize, Available, 1, None)
            && (forall v :: v in e.versions && e.versions[v].blob == a.blob ==> v == a.version)
  {
    NamespaceInvariant.AddFileKeepsInv(d, s.tenant, s.parent, s.display, s.name, a.node, a.version, a.blob, s.key,
                                       s.expectedSize, now);
    assert Grouped(d, n) && Backed(d, n);
    assert forall v :: v in d.versions ==> Guarded(d, v);
  }

  /** A world in which file `node` refers to the object of file `n` through a blob of its own. */
  ghost predicate Doubled(w: World, tenant: Id, node: Id, version: Id, blob: Id, n: Id) {
    var d := w.repo.drive;
    && Namespace.Inv(d) && VisibleIn(d, tenant, node) && d.nodes[node].kind == File && d.nodes[node].revision == 1
    && version in d.versions && d.versions[version].tenant == tenant && d.versions[version].node == node
    && d.versions[version].blob == blob && blob in d.blobs && d.blobs[blob].status == Available
    && (forall v :: v in d.versions && d.versions[v].blob == blob ==> v == version)
    && Refers(d, n, d.blobs[blob].key) && n != node && d.nodes[n].trashedRoot != node
  }

  /** Recycled: the first of the calls that purge the second file. */
  lemma DoubledIsRecycled(w: World, tenant: Id, node: Id, version: Id, blob: Id, n: Id)
    requires Doubled(w, tenant, node, version, blob, n)
    ensures var a := Tree(NamespaceRuns.OpRecycle(tenant, node, 1, w.now));
            var x := Next(w, a);
            var (e, p) := PreparePurge(x.repo.drive, tenant, node, 2, x.now);
            && Admissible(w, a) && p.Ok? && blob in p.value && KeepsNode(w.repo.drive, e, n)
            && blob in e.blobs && e.blobs[blob].key == w.repo.drive.blobs[blob].key
  {
    var d := w.repo.drive;
    RecyclingAFile(d, tenant, node, w.now, n);
    var e := Recycle(d, tenant, node, 1, w.now).0;
    PurgingAFile(e, tenant, node, version, blob, w.now, n);
    KeepsNodeTransitive(d, e, PreparePurge(e, tenant, node, 2, w.now).0, n);
  }

  /** Purging one of two files that refer to the same object deletes it for the other. */
  lemma PurgeDeletesForBoth(w: World, tenant: Id, node: Id, version: Id, blob: Id, n: Id) returns (acts: seq<Act>)
    requires Doubled(w, tenant, node, version, blob, n)
    ensures AdmissibleRun(w, acts) && LosesFile(Run(w, acts), n)
    ensures Run(w, acts).repo.drive.nodes[n] == w.repo.drive.nodes[n]
  {
    var recycle := Tree(NamespaceRuns.OpRecycle(tenant, node, 1, w.now));
    DoubledIsRecycled(w, tenant, node, version, blob, n);
    var x := Next(w, recycle);
    var c := FreshId(x.clients.Keys);
    var arrive := Arrive(c, Purger(tenant, node, 2, PurgeBegin));
    var rest := PurgerDeletes(Next(x, arrive), c, tenant, node, blob);
    Prepend(x, arrive, rest);
    Prepend(w, recycle, [arrive] + rest);
    acts := [recycle] + ([arrive] + rest);
  }

  /** A purge about to begin, whose plan will hold `blob`: two calls, and the object of that blob is gone. */
  lemma PurgerDeletes(w: World, c: Id, tenant: Id, root: Id, blob: Id) returns (acts: seq<Act>)
    requires c in w.clients && w.clients[c] == Purger(tenant, root, 2, PurgeBegin)
    requires var (e, p) := PreparePurge(w.repo.drive, tenant, root, 2, w.now);
            p.Ok? && blob in p.value && blob in e.blobs
    ensures var e := PreparePurge(w.repo.drive, tenant, root, 2, w.now).0;
            AdmissibleRun(w, acts) && Run(w, acts).repo.drive == e && e.blobs[blob].key !in Run(w, acts).store.objects
  {
    var a := WorkingStep(w, c);
    var x := Next(w, a);
    var b := WorkingStep(x, c);
    var delete := b.(pick := blob);
    Prepend(x, delete, []);
    Prepend(w, a, [delete] + []);
    acts := [a] + ([delete] + []);
  }

  /** From the commit of a repeat on: refused or accepted, the first file can lose its object. */
  lemma RepeatedCommitLoses(x: World, w: World, c: Id, u: Id, n: Id) returns (acts: seq<Act>)
    requires Repeats(x, w, c, u) && w.clients[c].cpc.Commit?
    requires Namespace.Inv(x.repo.drive) && Refers(x.repo.drive, n, x.repo.uploads[u].key)
    ensures AdmissibleRun(w, acts) && LosesFile(Run(w, acts), n)
    ensures Run(w, acts).repo.drive.nodes[n] == x.repo.drive.nodes[n]
  {
    var a := WorkingStep(w, c);
    if !CommitSucceeds(w.repo, u) {
      RefusedRepeatDeletes(x, w, c, u, a);
      acts := [a, a];
    } else {
      var s := x.repo.uploads[u];
      AcceptedRepeatAdds(x, w, c, u, a);
      AddedFile(x.repo.drive, s, a, x.now, n);
      assert Doubled(Next(w, a), s.tenant, a.node, a.version, a.blob, n);
      var rest := PurgeDeletesForBoth(Next(w, a), s.tenant, a.node, a.version, a.blob, n);
      Prepend(w, a, rest);
      acts := [a] + rest;
    }
  }

  /** A client turns up to repeat the completion, and gets as far as its commit. */
  lemma RepeatIsPossible(x: World, u: Id) returns (acts: seq<Act>, c: Id)
    requires Complete(x, u) && Reopens(x.repo.uploads[u].status)
    ensures AdmissibleRun(x, acts) && Repeats(x, Run(x, acts), c, u) && Run(x, acts).clients[c].cpc.Commit?
  {
    c := FreshId(x.clients.Keys);
    var arrive := Arrive(c, Completer(x.repo.uploads[u].tenant, u, x.repo.parts[u], Begin));
    var w := Next(x, arrive);
    assert Repeats(x, w, c, u);
    var a := WorkingStep(w, c);
    var rest := RepeatReachesCommit(x, w, c, u, a);
    Prepend(x, arrive, rest);
    acts := [arrive] + rest;
  }

  /** The world after a stale write: only the status of the session and the pass have changed. */
  lemma WrittenWorld(w: World, write: Act)
    requires WritesStale(w, write)
    ensures var u := w.clients[write.c].upload;
            var x := Next(w, write);
            && x.store == w.store && x.now == w.now && x.repo.drive == w.repo.drive && x.repo.parts == w.repo.parts
            && u in x.repo.uploads && SameIdentity(x.repo.uploads[u], w.repo.uploads[u])
            && x.repo.uploads[u].status == w.clients[write.c].mpc.status
            && forall e :: e in w.clients && e != write.c ==> e in x.clients && x.clients[e] == w.clients[e]
  {
  }

  lemma CommittedIsComplete(w: World, u: Id)
    requires UploadSafety.Inv(w) && u in w.repo.uploads && w.repo.uploads[u].status == Committed
    requires w.repo.uploads[u].committedNode in w.repo.drive.nodes
    requires w.repo.drive.nodes[w.repo.uploads[u].committedNode].status != Purging
    ensures Complete(w, u) && Refers(w.repo.drive, w.repo.uploads[u].committedNode, w.repo.uploads[u].key)
    ensures Namespace.Inv(w.repo.drive)
  {
    assert SessionOk(w, u);
  }

  /**
    A pass that writes an open status over a committed upload, wherever its file has been moved to and
    even if it is in the recycle bin: an admissible run then leaves the file as it is, not being
    purged, without its object. A repeated completion does it, by a commit that is refused and cleans
    up, or by one that is accepted and adds a second file, which is recycled and purged.
   */
  lemma CommittedFileIsLost(w: World, write: Act) returns (acts: seq<Act>)
    requires UploadSafety.Inv(w) && WritesStale(w, write) && Reopens(w.clients[write.c].mpc.status)
    requires var s := w.repo.uploads[w.clients[write.c].upload];
             && s.status == Committed && s.committedNode in w.repo.drive.nodes
             && w.repo.drive.nodes[s.committedNode].status != Purging
    ensures var n := w.repo.uploads[w.clients[write.c].upload].committedNode;
            && AdmissibleRun(Next(w, write), acts) && LosesFile(Run(Next(w, write), acts), n)
            && Run(Next(w, write), acts).repo.drive.nodes[n] == w.repo.drive.nodes[n]
  {
    var u := w.clients[write.c].upload;
    CommittedIsComplete(w, u);
    acts := ReopenedFileIsLost(w, write, w.repo.uploads[u].committedNode);
  }

  lemma ReopenedFileIsLost(w: World, write: Act, n: Id) returns (acts: seq<Act>)
    requires WritesStale(w, write) && Reopens(w.clients[write.c].mpc.status) && Namespace.Inv(w.repo.drive)
    requires var u := w.clients[write.c].upload; Complete(w, u) && Refers(w.repo.drive, n, w.repo.uploads[u].key)
    ensures AdmissibleRun(Next(w, write), acts) && LosesFile(Run(Next(w, write), acts), n)
    ensures Run(Next(w, write), acts).repo.drive.nodes[n] == w.repo.drive.nodes[n]
  {
    var u := w.clients[write.c].upload;
    var x := Next(w, write);
    WrittenWorld(w, write);
    var first, c := RepeatIsPossible(x, u);
    var rest := RepeatedCommitLoses(x, Run(x, first), c, u, n);
    RunJoins(x, first, rest);
    acts := first + rest;
  }

  // ----------------------------------------------------- over a session that has failed

  /** The next working call of this client deletes the object of session `s`. */
  predicate IsDeleting(k: Client, key: Id) {
    match k
    case Completer(_, _, _, pc) => (pc.Undo? && pc.s.key == key) || (pc.Clean? && pc.objectExists && pc.s.key == key)
    case Maintainer(_, _, pc) => (pc.MUndo? || pc.MDiscard?) && pc.s.key == key
    case Aborter(_, _, expiry, pc) =>
      !expiry && pc.AbortClean? && pc.s.status == Failed && FailedHasObject(pc.s.failure) && pc.s.key == key
    case _ => false
  }

  lemma DeletingDeletes(w: World, c: Id, key: Id, a: Act)
    requires c in w.clients && IsDeleting(w.clients[c], key) && FreshStep(w, a, c)
    ensures AdmissibleRun(w, [a]) && Run(w, [a]).repo == w.repo && key !in Run(w, [a]).store.objects
  {
    Prepend(w, a, []);
    assert [a] + [] == [a];
  }

  /**
    A pass that writes an open status over a failed upload whose object is still there, while another
    client is about to delete it: if the name is free again, an admissible run commits a new file and
    then deletes its object.
   */
  lemma FailedUploadLosesAFile(w: World, write: Act, deleter: Id) returns (acts: seq<Act>, n: Id)
    requires UploadSafety.Inv(w) && WritesStale(w, write) && Reopens(w.clients[write.c].mpc.status)
    requires var s := w.repo.uploads[w.clients[write.c].upload];
             && s.status == Failed && HasObject(w.store, s)
             && OpenDirectory(w.repo.drive, s.tenant, s.parent)
             && !NameTaken(w.repo.drive, s.tenant, s.parent, s.name, NONE)
             && deleter in w.clients && deleter != write.c && IsDeleting(w.clients[deleter], s.key)
    ensures AdmissibleRun(Next(w, write), acts) && LosesFile(Run(Next(w, write), acts), n)
    ensures Visible(Run(Next(w, write), acts).repo.drive.nodes[n])
  {
    var u := w.clients[write.c].upload;
    FailedIsComplete(w, u);
    WrittenWorld(w, write);
    acts, n := FreeNameIsTaken(Next(w, write), u, deleter);
  }

  lemma FailedIsComplete(w: World, u: Id)
    requires UploadSafety.Inv(w) && u in w.repo.uploads && HasObject(w.store, w.repo.uploads[u])
    ensures Complete(w, u)
  {
    assert SessionOk(w, u) && ObjectOk(w, u);
  }

  lemma FreeNameIsTaken(x: World, u: Id, deleter: Id) returns (acts: seq<Act>, n: Id)
    requires Complete(x, u) && Reopens(x.repo.uploads[u].status)
    requires var s := x.repo.uploads[u];
             && OpenDirectory(x.repo.drive, s.tenant, s.parent)
             && !NameTaken(x.repo.drive, s.tenant, s.parent, s.name, NONE)
             && deleter in x.clients && IsDeleting(x.clients[deleter], s.key)
    ensures AdmissibleRun(x, acts) && LosesFile(Run(x, acts), n) && Visible(Run(x, acts).repo.drive.nodes[n])
  {
    var first, c := RepeatIsPossible(x, u);
    var w := Run(x, first);
    var a := WorkingStep(w, c);
    AcceptedRepeatAdds(x, w, c, u, a);
    var y := Next(w, a);
    var b := WorkingStep(y, deleter);
    DeletingDeletes(y, deleter, x.repo.uploads[u].key, b);
    Prepend(w, a, [b]);
    RunJoins(x, first, [a] + [b]);
    acts, n := first + ([a] + [b]), a.node;
  }
}
