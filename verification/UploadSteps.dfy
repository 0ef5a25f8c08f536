/** Every call of every client keeps the invariant of the upload protocol. */
module UploadSteps {
  import opened Base
  import opened Namespace
  import NamespaceInvariant
  import NamespaceRuns
  import opened Storage
  import opened Uploads
  import opened UploadProtocol
  import opened UploadInvariant
  import opened UploadObjects

  // ------------------------------------------------------------------ CompleteUpload

  /** The acting client's new state is justified, whatever part of the world its call changed. */
  ghost predicate Justified(w: World, x: World, k: Client, after: Client) {
    ClientOk(x, after) && forall u :: SawFirst(after, u) <==> SawFirst(k, u)
  }

  lemma Acts(w: World, x: World, c: Id, after: Client)
    requires OneFirst(w) && Core(x) && x.clients == w.clients && c in w.clients && Justified(w, x, w.clients[c], after)
    requires forall u :: u in x.repo.uploads && x.repo.uploads[u].status == Committed ==>
            u in w.repo.uploads && w.repo.uploads[u].status == Committed
    ensures Safe(x.(clients := x.clients[c := after]))
  {
    OneFirstStable(w, x);
    ClientMoves(x, c, after);
  }

  /** Session `u` moves on in `r` without being committed; its part list is recorded at most once. */
  ghost predicate MovesSession(w: World, u: Id, r: Repo) {
    && u in w.repo.uploads && u in r.uploads
         && r == w.repo.(uploads := w.repo.uploads[u := r.uploads[u]], parts := r.parts)
    && Later(w.repo.uploads[u], r.uploads[u]) && SessionOk(w.(repo := r), u)
    && (r.uploads[u].status == Committed ==> w.repo.uploads[u].status == Committed)
    && (r.parts == w.repo.parts || (u !in w.repo.parts && u in r.parts && r.parts == w.repo.parts[u := r.parts[u]]))
  }

  /** A repository call that moves at most the client's own session. */
  lemma SessionCall(w: World, c: Id, u: Id, r: Repo, after: Client)
    requires Safe(w) && c in w.clients && Justified(w, w.(repo := r), w.clients[c], after)
    requires r == w.repo || MovesSession(w, u, r)
    ensures var y := w.(repo := r, clients := w.clients[c := after]); Safe(y) && Advances(w, y)
  {
    EvolvesItself(w.repo.drive);
    if r != w.repo { SessionMoves(w, u, r.uploads[u], r.parts); }
    Acts(w, w.(repo := r), c, after);
  }

  /** A storage call that loses nothing still needed. */
  lemma StoreCall(w: World, c: Id, st: Store, after: Client)
    requires Safe(w) && c in w.clients && Justified(w, w.(store := st), w.clients[c], after)
    requires st == w.store || (StoreOk(w.repo.uploads, st) && KeepsObjects(w, w.(store := st)))
    ensures var y := w.(store := st, clients := w.clients[c := after]); Safe(y) && Advances(w, y)
  {
    EvolvesItself(w.repo.drive);
    if st != w.store { StoreMoves(w, st); }
    Acts(w, w.(store := st), c, after);
  }

  lemma BeginCall(w: World, k: Client, a: Act)
    requires k.Completer? && k.cpc == Begin && a.Step?
    requires k.upload in w.repo.uploads ==> SessionOk(w, k.upload)
    ensures var (r, st, pc) := CompleterStep(w, k, a);
            st == w.store && Justified(w, w.(repo := r), k, k.(cpc := pc))
                && (r == w.repo || MovesSession(w, k.upload, r))
  {
  }

  lemma MarkCall(w: World, k: Client, a: Act)
    requires k.Completer? && k.cpc.Mark? && a.Step? && ClientOk(w, k) && SessionOk(w, k.upload)
    ensures var (r, st, pc) := CompleterStep(w, k, a);
            st == w.store && Justified(w, w.(repo := r), k, k.(cpc := pc))
                && (r == w.repo || MovesSession(w, k.upload, r))
  {
  }

  lemma FailCall(w: World, k: Client, a: Act)
    requires k.Completer? && k.cpc.Fail? && a.Step? && ClientOk(w, k) && SessionOk(w, k.upload)
    ensures var (r, st, pc) := CompleterStep(w, k, a);
            st == w.store && Justified(w, w.(repo := r), k, k.(cpc := pc))
                && (r == w.repo || MovesSession(w, k.upload, r))
  {
  }

  lemma ReadingCall(w: World, k: Client, a: Act)
    requires k.Completer? && (k.cpc.Check? || k.cpc.Stat? || k.cpc.Replay? || k.cpc.Completed?) && a.Step?
    requires ClientOk(w, k)
    ensures var (r, st, pc) := CompleterStep(w, k, a);
            r == w.repo && st == w.store && Justified(w, w, k, k.(cpc := pc))
  {
  }

  lemma StorageCall(w: World, k: Client, a: Act)
    requires k.Completer? && (k.cpc.Assemble? || k.cpc.Clean? || k.cpc.Undo?) && a.Step?
    requires ClientOk(w, k)
    ensures var (r, st, pc) := CompleterStep(w, k, a);
            var s := w.repo.uploads[k.upload];
            && r == w.repo && Justified(w, w.(store := st), k, k.(cpc := pc))
            && (st != w.store ==>
                 || (k.cpc.Assemble? && st == Storage.CompleteMultipart(w.store, s.key, s.storageUpload, k.parts).0)
                 || (!NeedsObject(w, k.upload)
                      && (st == DeleteObject(w.store, s.key)
                           || st == Storage.AbortMultipart(w.store, s.key, s.storageUpload))))
  {
  }

  // ------------------------------------------------------------- a commit that succeeds

  /** Does a commit of session `u` find its target directory open and its name free? */
  ghost predicate CommitSucceeds(r: Repo, u: Id) {
    && u in r.uploads && r.uploads[u].status == ObjectCompleted
    && var s := r.uploads[u];
       OpenDirectory(r.drive, s.tenant, s.parent) && !NameTaken(r.drive, s.tenant, s.parent, s.name, NONE)
  }

  ghost function Committing(w: World, u: Id, a: Act): World
    requires u in w.repo.uploads && a.Step?
  {
    var s := w.repo.uploads[u];
    w.(repo := w.repo.(
      drive := AddFile(w.repo.drive, s.tenant, s.parent, s.display, s.name, a.node, a.version, a.blob, s.key,
          s.expectedSize, w.now),
      uploads := w.repo.uploads[u := Moved(s, Committed, w.now).(committedNode := a.node)]))
  }

  lemma CommittedSession(w: World, u: Id, a: Act)
    requires a.Step? && CommitSucceeds(w.repo, u) && SessionOk(w, u)
    ensures SessionOk(Committing(w, u, a), u)
  {
  }

  lemma CommitTree(w: World, u: Id, a: Act)
    requires Namespace.Inv(w.repo.drive) && a.Step? && Admissible(w, a) && CommitSucceeds(w.repo, u)
    ensures var x := Committing(w, u, a);
            Namespace.Inv(x.repo.drive) && NamespaceInvariant.Evolves(w.repo.drive, x.repo.drive)
  {
    var s := w.repo.uploads[u];
    NamespaceInvariant.AddFileKeepsInv(w.repo.drive, s.tenant, s.parent, s.display, s.name, a.node, a.version, a.blob,
        s.key, s.expectedSize, w.now);
  }

  lemma CommitAdvances(w: World, u: Id, a: Act)
    requires a.Step? && CommitSucceeds(w.repo, u)
    requires NamespaceInvariant.Evolves(w.repo.drive, Committing(w, u, a).repo.drive)
    ensures Advances(w, Committing(w, u, a)) && KeepsObjects(w, Committing(w, u, a))
  {
  }

  lemma CommitKeepsOwned(w: World, u: Id, a: Act)
    requires Owned(w) && a.Step? && CommitSucceeds(w.repo, u)
    requires a.node !in w.repo.drive.nodes && a.version !in w.repo.drive.versions
    ensures Owned(Committing(w, u, a))
  {
    var x := Committing(w, u, a);
    forall n | n in x.repo.drive.nodes && x.repo.drive.nodes[n].kind == File ensures exists v :: Commits(x, v, n) {
      if n == a.node {
        assert Commits(x, u, n);
      } else {
        var v :| Commits(w, v, n);
        assert Commits(x, v, n);
      }
    }
    forall b | b in x.repo.drive.blobs
        ensures exists v :: v in x.repo.drive.versions && x.repo.drive.versions[v].blob == b {
      if b == a.blob {
        assert x.repo.drive.versions[a.version].blob == b;
      } else {
        var v :| v in w.repo.drive.versions && w.repo.drive.versions[v].blob == b;
        assert x.repo.drive.versions[v].blob == b;
      }
    }
  }

  /** What a commit changes about sessions and clients. */
  lemma CommitKeepsParties(w: World, u: Id, a: Act)
    requires a.Step? && CommitSucceeds(w.repo, u) && Sessions(w) && Clients(w)
    requires Advances(w, Committing(w, u, a)) && KeepsObjects(w, Committing(w, u, a))
    ensures Sessions(Committing(w, u, a)) && Clients(Committing(w, u, a))
  {
    var x := Committing(w, u, a);
    assert SessionOk(w, u);
    CommittedSession(w, u, a);
    SessionsStable(w, x, u);
    ClientsStable(w, x);
  }

  lemma CommitKeepsCore(w: World, u: Id, a: Act)
    requires Core(w) && a.Step? && Admissible(w, a) && CommitSucceeds(w.repo, u)
    ensures Core(Committing(w, u, a)) && Advances(w, Committing(w, u, a))
  {
    var s := w.repo.uploads[u];
    CommitTree(w, u, a);
    CommitAdvances(w, u, a);
    SessionKeepsStore(w.repo.uploads, w.store, u, Moved(s, Committed, w.now).(committedNode := a.node));
    CommitKeepsParties(w, u, a);
    CommitKeepsOwned(w, u, a);
  }

  /** Nobody has seen First of a session that is not committed. */
  lemma NobodyWasFirst(w: World, u: Id)
    requires Clients(w) && u in w.repo.uploads && w.repo.uploads[u].status != Committed
    ensures forall e :: e in w.clients ==> !SawFirst(w.clients[e], u)
  {
    forall e | e in w.clients ensures !SawFirst(w.clients[e], u) { assert ClientOk(w, w.clients[e]); }
  }

  /** The committing client becomes the one that saw First. */
  lemma FirstAppears(w: World, x: World, c: Id, after: Client, u: Id)
    requires OneFirst(w) && x.clients == w.clients && c in w.clients
    requires (forall e :: e in w.clients ==> !SawFirst(w.clients[e], u)) && (forall v :: !SawFirst(w.clients[c], v))
            && (forall v :: SawFirst(after, v) <==> v == u)
    requires forall v :: v in x.repo.uploads && v != u && x.repo.uploads[v].status == Committed ==>
            v in w.repo.uploads && w.repo.uploads[v].status == Committed
    ensures OneFirst(WithClient(x, c, after))
  {
    var y := WithClient(x, c, after);
    forall v | v in y.repo.uploads && y.repo.uploads[v].status == Committed
        ensures exists e :: e in y.clients && SawFirst(y.clients[e], v) {
      if v == u {
        assert SawFirst(y.clients[c], v);
      } else {
        var e :| e in w.clients && SawFirst(w.clients[e], v);
        assert SawFirst(y.clients[e], v);
      }
    }
  }

  /** Whoever commits: the world after it, with the committing client in its new state. */
  lemma CommitCall(w: World, c: Id, u: Id, a: Act, after: Client)
    requires Safe(w) && c in w.clients && a.Step? && Admissible(w, a) && CommitSucceeds(w.repo, u)
    requires (forall v :: !SawFirst(w.clients[c], v)) && (forall v :: SawFirst(after, v) <==> v == u)
    requires ClientOk(Committing(w, u, a), after)
    ensures var y := WithClient(Committing(w, u, a), c, after); Safe(y) && Advances(w, y)
  {
    CommitKeepsCore(w, u, a);
    CommitHasOneFirst(w, c, u, a, after);
    CoreIgnoresOthers(Committing(w, u, a), c, after);
  }

  lemma CommitHasOneFirst(w: World, c: Id, u: Id, a: Act, after: Client)
    requires Clients(w) && OneFirst(w) && c in w.clients && a.Step? && CommitSucceeds(w.repo, u)
    requires (forall v :: !SawFirst(w.clients[c], v)) && (forall v :: SawFirst(after, v) <==> v == u)
    ensures OneFirst(WithClient(Committing(w, u, a), c, after))
  {
    NobodyWasFirst(w, u);
    FirstAppears(w, Committing(w, u, a), c, after, u);
  }

  lemma SuccessfulCommit(w: World, k: Client, a: Act)
    requires k.Completer? && k.cpc.Commit? && a.Step? && CommitSucceeds(w.repo, k.upload) && ClientOk(w, k)
    ensures var (r, st, pc) := CompleterStep(w, k, a);
            var x := Committing(w, k.upload, a);
            r == x.repo && st == w.store && pc == Completed(Ok((a.node, true))) && ClientOk(x, k.(cpc := pc))
  {
  }

  lemma CommitKeepsSafe(w: World, c: Id, a: Act)
    requires Safe(w) && c in w.clients && w.clients[c].Completer? && a.Step? && a.c == c && Admissible(w, a)
    requires w.clients[c].cpc.Commit? && CommitSucceeds(w.repo, w.clients[c].upload)
    ensures Safe(Next(w, a)) && Advances(w, Next(w, a))
  {
    var k := w.clients[c];
    assert ClientOk(w, k);
    var after := k.(cpc := Completed(Ok((a.node, true))));
    SuccessfulCommit(w, k, a);
    CommitCall(w, c, k.upload, a, after);
    assert Next(w, a) == WithClient(Committing(w, k.upload, a), c, after);
  }

  lemma RefusedCommitCall(w: World, k: Client, a: Act)
    requires k.Completer? && k.cpc.Commit? && a.Step? && !CommitSucceeds(w.repo, k.upload)
    requires ClientOk(w, k) && SessionOk(w, k.upload)
    ensures var (r, st, pc) := CompleterStep(w, k, a);
            st == w.store && Justified(w, w.(repo := r), k, k.(cpc := pc))
                && (r == w.repo || MovesSession(w, k.upload, r))
  {
    var digest, size := PartsDigest(k.parts), k.cpc.size;
    RefusedCommitMoves(w, k.upload, k.tenant, digest, a.node, a.version, a.blob, size, w.now);
    var (r, j) := Uploads.CommitUpload(w.repo, k.tenant, k.upload, digest, a.node, a.version, a.blob, size, w.now);
    RefusedClientIsJustified(w, k, r, j);
    assert CompleterStep(w, k, a) == (r, w.store, AfterCommit(k.cpc.s, j));
  }

  lemma RefusedClientIsJustified(w: World, k: Client, r: Repo, j: Result<(Id, bool)>)
    requires k.Completer? && k.cpc.Commit? && ClientOk(w, k) && k.upload in r.uploads
    requires j.Err? && j.code in {NameConflict, NotFound} ==>
               r.uploads[k.upload].status == Failed && Later(w.repo.uploads[k.upload], r.uploads[k.upload])
    requires j.Err? && j.code !in {NameConflict, NotFound} ==> r == w.repo
    requires j.Ok? ==> r == w.repo && j.value == (w.repo.uploads[k.upload].committedNode, false)
    requires j.Ok? ==> w.repo.uploads[k.upload].status == Committed
    ensures Justified(w, w.(repo := r), k, k.(cpc := AfterCommit(k.cpc.s, j)))
  {
    if j.Err? && j.code in {NameConflict, NotFound} { UndoIsJustified(w, k, r, j.code); }
        else { assert w.(repo := r) == w; }
  }

  lemma UndoIsJustified(w: World, k: Client, r: Repo, code: Code)
    requires k.Completer? && k.cpc.Commit? && ClientOk(w, k) && k.upload in r.uploads
    requires r.uploads[k.upload].status == Failed && Later(w.repo.uploads[k.upload], r.uploads[k.upload])
    ensures ClientOk(w.(repo := r), k.(cpc := Undo(k.cpc.s, code)))
  {
    BegunStable(k, k.cpc.s, w.repo.uploads[k.upload], r.uploads[k.upload]);
  }

  /** A commit that is refused fails the session, or leaves the repository alone. */
  lemma RefusedCommitMoves(
      w: World, u: Id, tenant: Id, digest: seq<Part>, node: Id, version: Id, blob: Id, size: nat, now: Time)
    requires u in w.repo.uploads && SessionOk(w, u) && w.repo.uploads[u].tenant == tenant
    requires w.repo.uploads[u].digest == Some(digest) && !CommitSucceeds(w.repo, u)
    ensures var (r, k) := Uploads.CommitUpload(w.repo, tenant, u, digest, node, version, blob, size, now);
            && (r == w.repo || MovesSession(w, u, r))
            && (k.Err? && k.code in {NameConflict, NotFound} ==>
                 u in r.uploads && r.uploads[u].status == Failed && Later(w.repo.uploads[u], r.uploads[u]))
            && (k.Ok? ==>
                 r == w.repo && k.value == (w.repo.uploads[u].committedNode, false)
                     && w.repo.uploads[u].status == Committed)
            && (k.Err? && k.code !in {NameConflict, NotFound} ==> r == w.repo)
  {
  }

  lemma RepositoryCallKeepsSafe(w: World, c: Id, a: Act)
    requires Safe(w) && c in w.clients && w.clients[c].Completer? && a.Step? && a.c == c
    requires var pc := w.clients[c].cpc;
             !pc.Assemble? && !pc.Clean? && !pc.Undo? && !(pc.Commit? && CommitSucceeds(w.repo, w.clients[c].upload))
    ensures Safe(Next(w, a)) && Advances(w, Next(w, a))
  {
    var k := w.clients[c];
    var u := k.upload;
    assert ClientOk(w, k);
    assert u in w.repo.uploads ==> SessionOk(w, u);
    var (r, st, pc) := CompleterStep(w, k, a);
    match k.cpc {
      case Begin => BeginCall(w, k, a);
      case Mark(_, _) => MarkCall(w, k, a);
      case Fail(_, _, _, _) => FailCall(w, k, a);
      case Commit(_, _) => RefusedCommitCall(w, k, a);
      case _ => ReadingCall(w, k, a);
    }
    SessionCall(w, c, u, r, k.(cpc := pc));
    assert Next(w, a) == w.(repo := r, clients := w.clients[c := k.(cpc := pc)]);
  }

  lemma StorageCallKeepsSafe(w: World, c: Id, a: Act)
    requires Safe(w) && c in w.clients && w.clients[c].Completer? && a.Step? && a.c == c
    requires var pc := w.clients[c].cpc; pc.Assemble? || pc.Clean? || pc.Undo?
    ensures Safe(Next(w, a)) && Advances(w, Next(w, a))
  {
    var k := w.clients[c];
    assert ClientOk(w, k);
    var (r, st, pc) := CompleterStep(w, k, a);
    StorageCall(w, k, a);
    if st != w.store {
      if k.cpc.Assemble? { AssembleKeepsObjects(w, k.upload, k.parts); } else { CleanupLosesNothing(w, k.upload, st); }
    }
    StoreCall(w, c, st, k.(cpc := pc));
    assert Next(w, a) == w.(store := st, clients := w.clients[c := k.(cpc := pc)]);
  }

  lemma CleanupLosesNothing(w: World, u: Id, st: Store)
    requires Core(w) && u in w.repo.uploads && !NeedsObject(w, u)
    requires var s := w.repo.uploads[u];
            st in {w.store, DeleteObject(w.store, s.key), Storage.AbortMultipart(w.store, s.key, s.storageUpload)}
    ensures StoreOk(w.repo.uploads, st) && KeepsObjects(w, w.(store := st))
  {
    DeletingFor(w, u);
    DeleteKeepsObjects(w, w.repo.uploads[u].key);
    AbortKeepsObjects(w, w.repo.uploads[u].key, w.repo.uploads[u].storageUpload);
  }

  // ------------------------------------------------- aborts, purges and everything else

  lemma AbortCall(w: World, k: Client, a: Act)
    requires k.Aborter? && a.Step? && ClientOk(w, k)
    requires k.upload in w.repo.uploads ==> SessionOk(w, k.upload)
    ensures var (r, st, pc) := AborterStep(w, k, a);
            && Justified(w, World(r, st, w.clients, w.now), k, k.(apc := pc))
            && (r == w.repo || (MovesSession(w, k.upload, r) && st == w.store))
            && (st != w.store ==>
                  && r == w.repo && k.upload in w.repo.uploads && !NeedsObject(w, k.upload)
                  && var s := w.repo.uploads[k.upload];
                     st in {DeleteObject(w.store, s.key), Storage.AbortMultipart(w.store, s.key, s.storageUpload)})
  {
  }

  lemma AborterKeepsSafe(w: World, c: Id, a: Act)
    requires Safe(w) && c in w.clients && w.clients[c].Aborter? && a.Step? && a.c == c
    ensures Safe(Next(w, a)) && Advances(w, Next(w, a))
  {
    var k := w.clients[c];
    assert ClientOk(w, k);
    assert k.upload in w.repo.uploads ==> SessionOk(w, k.upload);
    var (r, st, pc) := AborterStep(w, k, a);
    var after := k.(apc := pc);
    AbortCall(w, k, a);
    if st == w.store {
      SessionCall(w, c, k.upload, r, after);
      assert Next(w, a) == w.(repo := r, clients := w.clients[c := after]);
    } else {
      CleanupLosesNothing(w, k.upload, st);
      StoreCall(w, c, st, after);
      assert Next(w, a) == w.(store := st, clients := w.clients[c := after]);
    }
  }

  /** A namespace operation, by whichever client. */
  lemma TreeKeeps(w: World, op: NamespaceRuns.Op)
    requires Safe(w) && !op.OpAddFile? && NamespaceRuns.Admissible(w.repo.drive, op)
    ensures var x := w.(repo := w.repo.(drive := NamespaceRuns.Apply(w.repo.drive, op))); Safe(x) && Advances(w, x)
  {
    var d := NamespaceRuns.Apply(w.repo.drive, op);
    NamespaceRuns.StepKeepsInv(w.repo.drive, op);
    TreeAddsNoFiles(w.repo.drive, op);
    FilesWereFiles(w.repo.drive, d);
    DriveMoves(w, d);
    OneFirstStable(w, w.(repo := w.repo.(drive := d)));
  }

  lemma TreeAddsNoFiles(d: Drive, op: NamespaceRuns.Op)
    requires !op.OpAddFile?
    ensures var e := NamespaceRuns.Apply(d, op);
            && e.versions == d.versions && e.blobs.Keys == d.blobs.Keys
            && forall n :: n in e.nodes && n !in d.nodes ==> e.nodes[n].kind == Directory
  {
  }

  lemma FilesWereFiles(d: Drive, e: Drive)
    requires NamespaceInvariant.Evolves(d, e) && forall n :: n in e.nodes && n !in d.nodes ==>
            e.nodes[n].kind == Directory
    ensures forall n :: n in e.nodes && e.nodes[n].kind == File ==> n in d.nodes && d.nodes[n].kind == File
  {
    forall n | n in e.nodes && e.nodes[n].kind == File ensures n in d.nodes && d.nodes[n].kind == File {
      assert n in d.nodes;
      assert NamespaceInvariant.NodeEvolves(d.nodes[n], e.nodes[n]);
    }
  }

  /** After PreparePurge no planned blob is available any more. */
  lemma PlanIsUnavailable(d: Drive, tenant: Id, root: Id, revision: int, now: Time)
    requires PreparePurge(d, tenant, root, revision, now).1.Ok?
    ensures var (e, p) := PreparePurge(d, tenant, root, revision, now);
            forall b :: b in p.value ==> b in e.blobs && e.blobs[b].status != Available
  {
  }

  /** A deletion of a purge. */
  lemma PurgerDeletes(w: World, c: Id, a: Act)
    requires Safe(w) && c in w.clients && w.clients[c].Purger? && a.Step? && a.c == c
    requires w.clients[c].ppc.PurgeDelete? && w.clients[c].ppc.todo != {}
    ensures Safe(Next(w, a)) && Advances(w, Next(w, a))
  {
    var k := w.clients[c];
    assert ClientOk(w, k);
    var (r, st, pc) := PurgerStep(w, k, a);
    if st != w.store {
      PlannedBlobIsNotNeeded(w, a.pick);
      DeleteKeepsObjects(w, w.repo.drive.blobs[a.pick].key);
    }
    StoreCall(w, c, st, k.(ppc := pc));
    assert Next(w, a) == w.(store := st, clients := w.clients[c := k.(ppc := pc)]);
  }

  /** The calls of a purge that change the tree. */
  lemma PurgerChangesTree(w: World, c: Id, a: Act)
    requires Safe(w) && c in w.clients && w.clients[c].Purger? && a.Step? && a.c == c
    requires !(w.clients[c].ppc.PurgeDelete? && w.clients[c].ppc.todo != {})
    ensures Safe(Next(w, a)) && Advances(w, Next(w, a))
  {
    var k := w.clients[c];
    assert ClientOk(w, k);
    var (r, st, pc) := PurgerStep(w, k, a);
    EvolvesItself(w.repo.drive);
    if k.ppc.PurgeBegin? {
      TreeKeeps(w, NamespaceRuns.OpPreparePurge(k.tenant, k.root, k.revision, w.now));
      if pc.PurgeDelete? { PlanIsUnavailable(w.repo.drive, k.tenant, k.root, k.revision, w.now); }
    } else if k.ppc.PurgeDelete? {
      TreeKeeps(w, NamespaceRuns.OpFinishPurge(k.tenant, k.root, k.ppc.plan, w.now));
    }
    ClientMoves(w.(repo := r), c, k.(ppc := pc));
    assert Next(w, a) == WithClient(w.(repo := r), c, k.(ppc := pc));
  }

  // --------------------------------------------------------------- the maintenance pass

  lemma MaintainerReads(w: World, k: Client, a: Act)
    requires k.Maintainer? && (k.mpc.MClaim? || k.mpc.MStat? || k.mpc.MEnd?) && a.Step? && ClientOk(w, k)
    requires k.upload in w.repo.uploads ==> SessionOk(w, k.upload) && ObjectOk(w, k.upload)
    ensures var (r, st, after) := MaintainerStep(w, k, a); r == w.repo && st == w.store && Justified(w, w, k, after)
  {
  }

  lemma MaintainerCleans(w: World, k: Client, a: Act)
    requires k.Maintainer? && (k.mpc.MClean? || k.mpc.MDiscard? || k.mpc.MUndo?) && a.Step? && ClientOk(w, k)
    requires ObjectOk(w, k.upload)
    ensures var (r, st, after) := MaintainerStep(w, k, a);
            var s := w.repo.uploads[k.upload];
            && r == w.repo && Justified(w, w.(store := st), k, after)
            && st in {w.store, DeleteObject(w.store, s.key), Storage.AbortMultipart(w.store, s.key, s.storageUpload)}
            && (st == DeleteObject(w.store, s.key) && st != w.store
                 && st != Storage.AbortMultipart(w.store, s.key, s.storageUpload)
                ==> s.status == Failed || !HasObject(w.store, s))
  {
  }

  lemma MaintainerMarks(w: World, k: Client, a: Act)
    requires k.Maintainer? && k.mpc.MMark? && a.Step? && ClientOk(w, k) && SessionOk(w, k.upload)
    ensures var (r, st, after) := MaintainerStep(w, k, a);
            st == w.store && Justified(w, w.(repo := r), k, after) && (r == w.repo || MovesSession(w, k.upload, r))
  {
  }

  lemma MaintainerFinishes(w: World, k: Client, a: Act)
    requires k.Maintainer? && k.mpc.MFinish? && a.Step? && ClientOk(w, k) && SessionOk(w, k.upload)
    requires a.fault != Refused ==> Follows(w.repo.uploads[k.upload].status, k.mpc.status)
    ensures var (r, st, after) := MaintainerStep(w, k, a);
            st == w.store && Justified(w, w.(repo := r), k, after) && (r == w.repo || MovesSession(w, k.upload, r))
  {
  }

  lemma MaintainerIsRefused(w: World, k: Client, a: Act)
    requires k.Maintainer? && k.mpc.MCommit? && a.Step? && ClientOk(w, k) && SessionOk(w, k.upload)
    requires !CommitSucceeds(w.repo, k.upload)
    ensures var (r, st, after) := MaintainerStep(w, k, a);
            && st == w.store && (r == w.repo || MovesSession(w, k.upload, r))
            && Justified(w, w.(repo := r), k, after)
  {
    var s, size := k.mpc.s, k.mpc.size;
    RefusedCommitMoves(w, k.upload, s.tenant, s.digest.value, a.node, a.version, a.blob, size, w.now);
    var (r, j) :=
      Uploads.CommitUpload(w.repo, s.tenant, k.upload, s.digest.value, a.node, a.version, a.blob, size, w.now);
    RefusedPassIsJustified(w, k, r, j);
    assert MaintainerStep(w, k, a) == (r, w.store,
        k.(first := k.first || (j.Ok? && j.value.1), mpc := PassAfterCommit(k.mpc.s, j)));
  }

  lemma RefusedPassIsJustified(w: World, k: Client, r: Repo, j: Result<(Id, bool)>)
    requires k.Maintainer? && k.mpc.MCommit? && ClientOk(w, k) && k.upload in r.uploads
    requires j.Err? && j.code in {NameConflict, NotFound} ==>
               r.uploads[k.upload].status == Failed && Later(w.repo.uploads[k.upload], r.uploads[k.upload])
    requires j.Err? && j.code !in {NameConflict, NotFound} ==> r == w.repo
    requires j.Ok? ==> r == w.repo && !j.value.1 && w.repo.uploads[k.upload].status == Committed
    ensures Justified(w, w.(repo := r), k,
            k.(first := k.first || (j.Ok? && j.value.1), mpc := PassAfterCommit(k.mpc.s, j)))
  {
    if j.Err? && j.code in {NameConflict, NotFound} {
      UndoPassIsJustified(w, k, r);
    } else {
      EndingPassIsJustified(w, k);
      assert w.(repo := r) == w;
    }
  }

  lemma EndingPassIsJustified(w: World, k: Client)
    requires k.Maintainer? && k.mpc.MCommit? && ClientOk(w, k)
    ensures var s := k.mpc.s;
            && ClientOk(w, k.(mpc := MFinish(s, s.status)))
            && (w.repo.uploads[k.upload].status == Committed
                ==> ClientOk(w, k.(mpc := MFinish(s.(status := Committed), Committed))))
  {
  }

  lemma UndoPassIsJustified(w: World, k: Client, r: Repo)
    requires k.Maintainer? && k.mpc.MCommit? && ClientOk(w, k) && k.upload in r.uploads
    requires r.uploads[k.upload].status == Failed && Later(w.repo.uploads[k.upload], r.uploads[k.upload])
    ensures ClientOk(w.(repo := r), k.(mpc := MUndo(k.mpc.s)))
  {
    LaterTransitive(k.mpc.s, w.repo.uploads[k.upload], r.uploads[k.upload]);
  }

  lemma MaintainerCommits(w: World, k: Client, a: Act)
    requires k.Maintainer? && k.mpc.MCommit? && a.Step? && ClientOk(w, k) && CommitSucceeds(w.repo, k.upload)
    ensures var (r, st, after) := MaintainerStep(w, k, a);
            var x := Committing(w, k.upload, a);
            r == x.repo && st == w.store && ClientOk(x, after) && !k.first && forall v :: SawFirst(after, v) <==>
                v == k.upload
  {
  }

  lemma MaintainerKeepsSafe(w: World, c: Id, a: Act)
    requires Safe(w) && Content(w) && c in w.clients && w.clients[c].Maintainer? && a.Step? && a.c == c
    requires Admissible(w, a)
    ensures Safe(Next(w, a)) && Advances(w, Next(w, a))
  {
    var k := w.clients[c];
    var u := k.upload;
    assert ClientOk(w, k);
    assert u in w.repo.uploads ==> SessionOk(w, u) && ObjectOk(w, u);
    var (r, st, after) := MaintainerStep(w, k, a);
    assert Next(w, a) == World(r, st, w.clients[c := after], w.now);
    match k.mpc
    case MClean(_, _) => MaintainerKeepsStore(w, c, a);
    case MDiscard(_) => MaintainerKeepsStore(w, c, a);
    case MUndo(_) => MaintainerKeepsStore(w, c, a);
    case MCommit(_, _) => MaintainerCommitKeepsSafe(w, c, a);
    case MMark(_, _) => MaintainerMarks(w, k, a); SessionCall(w, c, u, r, after);
    case MFinish(_, _) => MaintainerFinishes(w, k, a); SessionCall(w, c, u, r, after);
    case _ => MaintainerReads(w, k, a); SessionCall(w, c, u, r, after);
  }

  lemma MaintainerCommitKeepsSafe(w: World, c: Id, a: Act)
    requires Safe(w) && c in w.clients && w.clients[c].Maintainer? && w.clients[c].mpc.MCommit? && a.Step?
    requires a.c == c && Admissible(w, a)
    ensures Safe(Next(w, a)) && Advances(w, Next(w, a))
  {
    var k := w.clients[c];
    assert ClientOk(w, k) && SessionOk(w, k.upload);
    var (r, st, after) := MaintainerStep(w, k, a);
    if CommitSucceeds(w.repo, k.upload) {
      MaintainerCommits(w, k, a);
      CommitCall(w, c, k.upload, a, after);
    } else {
      MaintainerIsRefused(w, k, a);
      SessionCall(w, c, k.upload, r, after);
    }
    assert Next(w, a) == World(r, st, w.clients[c := after], w.now);
  }

  lemma MaintainerKeepsStore(w: World, c: Id, a: Act)
    requires Safe(w) && Content(w) && c in w.clients && w.clients[c].Maintainer? && a.Step? && a.c == c
    requires var pc := w.clients[c].mpc; pc.MClean? || pc.MDiscard? || pc.MUndo?
    ensures Safe(Next(w, a)) && Advances(w, Next(w, a))
  {
    var k := w.clients[c];
    assert ClientOk(w, k) && ObjectOk(w, k.upload);
    MaintainerCleans(w, k, a);
    var (r, st, after) := MaintainerStep(w, k, a);
    CleanupIsHarmless(w, k.upload, st);
    StoreCall(w, c, st, after);
    assert Next(w, a) == w.(store := st, clients := w.clients[c := after]);
  }

  /** A multipart may always be dropped, an object once the session has failed or has no use for it. */
  lemma CleanupIsHarmless(w: World, u: Id, st: Store)
    requires Core(w) && u in w.repo.uploads
    requires var s := w.repo.uploads[u];
             && st in {w.store, DeleteObject(w.store, s.key), Storage.AbortMultipart(w.store, s.key, s.storageUpload)}
             && (st == DeleteObject(w.store, s.key) && st != w.store
                  && st != Storage.AbortMultipart(w.store, s.key, s.storageUpload)
                 ==> s.status == Failed || !HasObject(w.store, s))
    ensures st == w.store || (StoreOk(w.repo.uploads, st) && KeepsObjects(w, w.(store := st)))
  {
    var s := w.repo.uploads[u];
    AbortKeepsObjects(w, s.key, s.storageUpload);
    if st != w.store && st != Storage.AbortMultipart(w.store, s.key, s.storageUpload) { DeleteKeepsObjects(w, s.key); }
  }

  lemma NewUploadStore(w: World, u: Id, s: Session)
    requires Separate(w.repo.uploads) && StoreOk(w.repo.uploads, w.store) && Admissible(w, NewUpload(u, s))
    requires u !in w.repo.uploads
    ensures Separate(w.repo.uploads[u := s])
    ensures StoreOk(w.repo.uploads[u := s], Storage.CreateMultipart(w.store, s.storageUpload, s.key, s.declared))
  {
  }

  lemma AdvancesItself(w: World)
    ensures Advances(w, w)
  {
    EvolvesItself(w.repo.drive);
  }

  ghost function Opened(w: World, u: Id, s: Session): World {
    w.(repo := w.repo.(uploads := w.repo.uploads[u := s]),
       store := Storage.CreateMultipart(w.store, s.storageUpload, s.key, s.declared))
  }

  lemma OpenedAdvances(w: World, u: Id, s: Session)
    requires u !in w.repo.uploads
    ensures Advances(w, Opened(w, u, s)) && KeepsObjects(w, Opened(w, u, s))
  {
    EvolvesItself(w.repo.drive);
  }

  lemma OpenedRest(w: World, u: Id, s: Session)
    requires Sessions(w) && Clients(w) && Owned(w) && u !in w.repo.uploads && u !in w.repo.parts
    requires s.status == Created && s.digest == None && s.failure == NoFailure
    ensures var x := Opened(w, u, s); Sessions(x) && Clients(x) && Owned(x)
  {
    var x := Opened(w, u, s);
    OpenedAdvances(w, u, s);
    NewUploadSessions(w, x, u);
    ClientsStable(w, x);
    OwnedStable(w, x);
  }

  lemma OpenedCore(w: World, u: Id, s: Session)
    requires Core(w) && Admissible(w, NewUpload(u, s)) && u !in w.repo.uploads
    ensures Core(Opened(w, u, s))
  {
    NewUploadStore(w, u, s);
    OpenedRest(w, u, s);
  }

  lemma NewUploadKeepsSafe(w: World, u: Id, s: Session)
    requires Safe(w) && Admissible(w, NewUpload(u, s))
    ensures Safe(Next(w, NewUpload(u, s))) && Advances(w, Next(w, NewUpload(u, s)))
  {
    if Uploads.CreateUpload(w.repo, u, s).1.Ok? {
      OpenedCore(w, u, s);
      OneFirstStable(w, Opened(w, u, s));
      OpenedAdvances(w, u, s);
      assert Next(w, NewUpload(u, s)) == Opened(w, u, s);
    } else {
      AdvancesItself(w);
      assert Next(w, NewUpload(u, s)) == w;
    }
  }

  lemma NewUploadSessions(w: World, x: World, u: Id)
    requires Sessions(w) && Advances(w, x) && KeepsObjects(w, x) && x.repo.parts == w.repo.parts
    requires x.repo.uploads.Keys == w.repo.uploads.Keys + {u}
    requires u !in w.repo.parts && x.repo.uploads[u].status == Created && x.repo.uploads[u].digest == None
    requires x.repo.uploads[u].failure == NoFailure
    requires forall v :: v in w.repo.uploads ==> x.repo.uploads[v] == w.repo.uploads[v]
    ensures Sessions(x)
  {
    forall v {:trigger SessionOk(x, v)} | v in x.repo.uploads ensures SessionOk(x, v) {
      if v != u { assert SessionOk(w, v); SessionStable(w, x, v); }
    }
  }

  lemma SignPartKeepsSafe(w: World, tenant: Id, u: Id)
    requires Safe(w)
    ensures var x := w.(repo := MarkUploading(w.repo, tenant, u, w.now).0); Safe(x) && Advances(w, x)
  {
    var r := MarkUploading(w.repo, tenant, u, w.now).0;
    EvolvesItself(w.repo.drive);
    if r != w.repo {
      assert SessionOk(w, u);
      SessionMoves(w, u, r.uploads[u], r.parts);
      OneFirstStable(w, w.(repo := r));
    }
  }

  lemma PutKeepsSafe(w: World, id: Id, number: nat, data: Bytes)
    requires Safe(w)
    ensures var x := w.(store := PutPart(w.store, id, number, data)); Safe(x) && Advances(w, x)
  {
    var st := PutPart(w.store, id, number, data);
    assert StoreOk(w.repo.uploads, st) && KeepsObjects(w, w.(store := st));
    StoreMoves(w, st);
    OneFirstStable(w, w.(store := st));
  }

  lemma TickKeepsSafe(w: World, now: Time)
    requires Safe(w)
    ensures Safe(w.(now := now)) && Advances(w, w.(now := now))
  {
    var x := w.(now := now);
    EvolvesItself(w.repo.drive);
    assert Advances(w, x) && KeepsObjects(w, x);
    EverySessionStable(w, x);
    ClientsStable(w, x);
    OwnedStable(w, x);
    OneFirstStable(w, x);
  }

  lemma ArriveKeepsSafe(w: World, c: Id, client: Client)
    requires Safe(w) && Admissible(w, Arrive(c, client))
    ensures Safe(w.(clients := w.clients[c := client])) && Advances(w, w.(clients := w.clients[c := client]))
  {
    EvolvesItself(w.repo.drive);
    ClientMoves(w, c, client);
  }

  lemma ClientStepKeepsSafe(w: World, c: Id, a: Act)
    requires Safe(w) && Content(w) && c in w.clients && a.Step? && a.c == c && Admissible(w, a)
    ensures Safe(Next(w, a)) && Advances(w, Next(w, a))
  {
    match w.clients[c]
    case Aborter(_, _, _, _) => AborterKeepsSafe(w, c, a);
    case Purger(_, _, _, pc) => if pc.PurgeDelete? && pc.todo != {} { PurgerDeletes(w, c, a); }
        else { PurgerChangesTree(w, c, a); }
    case Maintainer(_, _, _) => MaintainerKeepsSafe(w, c, a);
    case Completer(_, upload, _, pc) =>
      if pc.Assemble? || pc.Clean? || pc.Undo? {
        StorageCallKeepsSafe(w, c, a);
      } else if pc.Commit? && CommitSucceeds(w.repo, upload) {
        CommitKeepsSafe(w, c, a);
      } else {
        RepositoryCallKeepsSafe(w, c, a);
      }
  }

  lemma StepKeepsSafe(w: World, a: Act)
    requires Safe(w) && Content(w) && Admissible(w, a)
    ensures Safe(Next(w, a)) && Advances(w, Next(w, a))
  {
    match a
    case Arrive(c, client) => ArriveKeepsSafe(w, c, client);
    case NewUpload(u, s) => NewUploadKeepsSafe(w, u, s);
    case SignPart(t, u) => SignPartKeepsSafe(w, t, u);
    case Put(id, number, data) => PutKeepsSafe(w, id, number, data);
    case Tree(op) => TreeKeeps(w, op);
    case Tick(now) => TickKeepsSafe(w, now);
    case Step(c, _, _, _, _, _) =>
      if c in w.clients { ClientStepKeepsSafe(w, c, a); } else { EvolvesItself(w.repo.drive); }
  }
}
