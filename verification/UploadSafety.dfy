/**
  Safety of the interleaved upload protocol over whole runs: one commit per session, one first
  caller, frozen completion payloads, and objects that outlive every file that is not being purged.
 */
module UploadSafety {
  import opened Base
  import opened Namespace
  import NamespaceInvariant
  import NamespaceRuns
  import opened Storage
  import opened Uploads
  import opened UploadProtocol
  import opened UploadInvariant
  import opened UploadObjects
  import opened UploadSteps

  /** The invariant of every run: the protocol is safe and objects are what their sessions say. */
  ghost predicate Inv(w: World) {
    Safe(w) && Content(w)
  }

  lemma StepKeepsInv(w: World, a: Act)
    requires Inv(w) && Admissible(w, a)
    ensures Inv(Next(w, a)) && Advances(w, Next(w, a))
  {
    StepKeepsSafe(w, a);
    StepKeepsContent(w, a);
  }

  const INITIAL := World(Repo(EMPTY, map[], map[]), Store(map[], map[]), map[], ZERO)

  lemma InitialInv()
    ensures Inv(INITIAL)
  {
    NamespaceRuns.EmptyInv();
  }

  /**
    Whatever foreground calls and maintenance calls interleave, in whatever order and with whatever
    storage faults, the invariant holds and sessions only move forward, as long as maintenance writes
    back no status that may not follow the current one.
   */
  lemma {:induction false} RunKeepsInv(w: World, acts: seq<Act>)
    requires Inv(w) && AdmissibleRun(w, acts)
    ensures Inv(Run(w, acts)) && Advances(w, Run(w, acts))
    decreases |acts|
  {
    EvolvesItself(w.repo.drive);
    if acts == [] {
    } else {
      var x := Next(w, acts[0]);
      StepKeepsInv(w, acts[0]);
      RunKeepsInv(x, acts[1..]);
      AdvancesTransitive(w, x, Run(w, acts));
    }
  }

  lemma AdvancesTransitive(w: World, x: World, y: World)
    requires Advances(w, x) && Advances(x, y)
    ensures Advances(w, y)
  {
    NamespaceInvariant.EvolvesTransitive(w.repo.drive, x.repo.drive, y.repo.drive);
    forall u | u in w.repo.uploads ensures u in y.repo.uploads && Later(w.repo.uploads[u], y.repo.uploads[u]) {
      LaterTransitive(w.repo.uploads[u], x.repo.uploads[u], y.repo.uploads[u]);
    }
  }

  /** Different sessions commit different files, versions and blobs. */
  lemma SessionsCommitSeparately(w: World, u: Id, v: Id)
    requires Inv(w) && u in w.repo.uploads && v in w.repo.uploads && u != v
    requires w.repo.uploads[u].status == Committed && w.repo.uploads[v].status == Committed
    ensures var d := w.repo.drive;
            var m, n := w.repo.uploads[u].committedNode, w.repo.uploads[v].committedNode;
            && m in d.nodes && n in d.nodes && m != n
            && d.nodes[m].version in d.versions && d.nodes[n].version in d.versions
                 && d.nodes[m].version != d.nodes[n].version
            && d.versions[d.nodes[m].version].blob != d.versions[d.nodes[n].version].blob
  {
    assert SessionOk(w, u) && SessionOk(w, v);
  }

  /** Every client that was told of a commit was told the same node, and exactly one was told it was first. */
  lemma ExactlyOneFirst(w: World, u: Id)
    requires Inv(w) && u in w.repo.uploads && w.repo.uploads[u].status == Committed
    ensures exists c :: c in w.clients && SawFirst(w.clients[c], u)
                     && (forall e :: e in w.clients && SawFirst(w.clients[e], u) ==> e == c)
    ensures forall e :: e in w.clients && w.clients[e].Completer? && w.clients[e].upload == u
                     && w.clients[e].cpc.Completed? && w.clients[e].cpc.result.Ok?
              ==> w.clients[e].cpc.result.value.0 == w.repo.uploads[u].committedNode
  {
    forall e | e in w.clients && w.clients[e].Completer? && w.clients[e].upload == u && w.clients[e].cpc.Completed?
        && w.clients[e].cpc.result.Ok?
      ensures w.clients[e].cpc.result.value.0 == w.repo.uploads[u].committedNode
    {
      assert ClientOk(w, w.clients[e]);
    }
  }

  /** The first completion payload and the committed node never change again. */
  lemma PayloadIsFrozen(w: World, acts: seq<Act>, u: Id)
    requires Inv(w) && AdmissibleRun(w, acts) && u in w.repo.uploads && w.repo.uploads[u].digest.Some?
    ensures var x := Run(w, acts);
            && u in x.repo.uploads && x.repo.uploads[u].digest == w.repo.uploads[u].digest
            && (u in w.repo.parts ==> u in x.repo.parts && x.repo.parts[u] == w.repo.parts[u])
            && (w.repo.uploads[u].status == Committed ==> Commits(x, u, w.repo.uploads[u].committedNode))
  {
    RunKeepsInv(w, acts);
  }

  /** What BeginComplete answers to the recorded list, by the status of its session. */
  function Resumption(s: Session): CompletePc
    requires s.status in {Completing, ObjectCompleted, Committed, Failed}
  {
    match s.status
    case Completing => Assemble(s)
    case ObjectCompleted => Stat(s)
    case Committed => Replay
    case Failed => Completed(Err(InvalidState))
  }

  /**
    Once a session carries a completion payload: a request with any other list is refused, a
    request with the recorded list goes on from where the session is, and neither changes anything.
    A replay answers the committed node.
   */
  lemma RepeatedCompletion(w: World, k: Client, a: Act)
    requires Inv(w) && k.Completer? && k.cpc == Begin && a.Step? && ValidParts(k.parts)
    requires HasUpload(w.repo, k.tenant, k.upload) && w.repo.uploads[k.upload].digest.Some?
    ensures k.upload in w.repo.parts
    ensures w.repo.uploads[k.upload].status in {Completing, ObjectCompleted, Committed, Failed}
    ensures CompleterStep(w, k, a) ==
              (w.repo, w.store, if k.parts == w.repo.parts[k.upload] then Resumption(w.repo.uploads[k.upload])
                  else Completed(Err(IdempotencyConflict)))
    ensures w.repo.uploads[k.upload].status == Committed && k.parts == w.repo.parts[k.upload] ==>
              CompleterStep(w, k.(cpc := Replay), a) == (w.repo, w.store,
                  Completed(Ok((w.repo.uploads[k.upload].committedNode, false))))
  {
    assert SessionOk(w, k.upload);
    SortKeepsOrdered(k.parts);
    SortKeepsOrdered(w.repo.parts[k.upload]);
  }

  /** Every file that is not being purged has its object in storage, with the size its session declared. */
  lemma FilesKeepTheirObjects(acts: seq<Act>, n: Id)
    requires AdmissibleRun(INITIAL, acts)
    requires var d := Run(INITIAL, acts).repo.drive;
            n in d.nodes && d.nodes[n].kind == File && d.nodes[n].status != Purging
    ensures var w := Run(INITIAL, acts);
            var d := w.repo.drive;
            && d.nodes[n].version in d.versions && d.versions[d.nodes[n].version].blob in d.blobs
            && var blob := d.blobs[d.versions[d.nodes[n].version].blob];
               blob.key in w.store.objects && |w.store.objects[blob.key]| == blob.size == d.nodes[n].size
    ensures var w := Run(INITIAL, acts);
            exists u :: Commits(w, u, n) && w.repo.uploads[u].expectedSize == w.repo.drive.nodes[n].size
  {
    var w := Run(INITIAL, acts);
    InitialInv();
    RunKeepsInv(INITIAL, acts);
    var u :| Commits(w, u, n);
    assert SessionOk(w, u);
  }

  /** The storage loses the object of `s`, or its multipart without gaining the object. */
  predicate LosesObject(before: Store, after: Store, s: Session) {
    s.key in before.objects && s.key !in after.objects
  }

  predicate LosesMultipart(before: Store, after: Store, s: Session) {
    s.storageUpload in before.uploads && before.uploads[s.storageUpload].key == s.key
        && s.storageUpload !in after.uploads && s.key !in after.objects
  }

  lemma CompleterCleanup(w: World, k: Client, a: Act, u: Id)
    requires k.Completer? && a.Step? && ClientOk(w, k) && Separate(w.repo.uploads) && u in w.repo.uploads
    ensures var s, st := w.repo.uploads[u], CompleterStep(w, k, a).1;
            LosesObject(w.store, st, s) || LosesMultipart(w.store, st, s) ==> s.status == Failed
  {
    if k.cpc.Assemble? || k.cpc.Clean? || k.cpc.Undo? { StorageCall(w, k, a); }
  }

  lemma AborterCleanup(w: World, k: Client, a: Act, u: Id)
    requires k.Aborter? && a.Step? && ClientOk(w, k) && Separate(w.repo.uploads) && u in w.repo.uploads
    ensures var s, st := w.repo.uploads[u], AborterStep(w, k, a).1;
            && (LosesObject(w.store, st, s) ==> s.status == Failed)
            && (LosesMultipart(w.store, st, s) ==> s.status in {Aborted, Expired, Failed})
  {
  }

  lemma MaintainerCleanup(w: World, k: Client, a: Act, u: Id)
    requires k.Maintainer? && a.Step? && ClientOk(w, k) && Separate(w.repo.uploads) && u in w.repo.uploads
    requires ObjectOk(w, u)
    ensures var s, st := w.repo.uploads[u], MaintainerStep(w, k, a).1;
            && (LosesObject(w.store, st, s) ==> s.status == Failed || !HasObject(w.store, s))
            && (LosesMultipart(w.store, st, s) ==> k.upload == u && k.mpc.MClean?)
  {
    if k.mpc.MClean? || k.mpc.MDiscard? || k.mpc.MUndo? {
      assert k.upload in w.repo.uploads;
    }
  }

  /**
    Objects are deleted only for failed sessions, for files being purged, and where they are not what
    the session declared. Multiparts are aborted only for sessions that can no longer complete, and by
    maintenance for a session it has claimed.
   */
  lemma CleanupIsGated(w: World, a: Act, u: Id)
    requires Inv(w) && Admissible(w, a) && u in w.repo.uploads
    ensures var s, st := w.repo.uploads[u], Next(w, a).store;
            && (LosesObject(w.store, st, s) ==>
                  || s.status == Failed
                  || !HasObject(w.store, s)
                  || (s.status == Committed && s.committedNode in w.repo.drive.nodes
                       && w.repo.drive.nodes[s.committedNode].status == Purging))
            && (LosesMultipart(w.store, st, s) ==>
                  || s.status in {Aborted, Expired, Failed}
                  || (a.Step? && a.c in w.clients && w.clients[a.c].Maintainer? && w.clients[a.c].upload == u
                       && w.clients[a.c].mpc.MClean?))
  {
    if a.Step? && a.c in w.clients {
      var k := w.clients[a.c];
      assert ClientOk(w, k);
      match k
      case Completer(_, _, _, _) => CompleterCleanup(w, k, a, u);
      case Aborter(_, _, _, _) => AborterCleanup(w, k, a, u);
      case Maintainer(_, _, _) =>
        assert ObjectOk(w, u);
        MaintainerCleanup(w, k, a, u);
      case Purger(_, _, _, pc) => if pc.PurgeDelete? && a.pick in pc.todo { PlannedBlobIsNotNeeded(w, a.pick); }
    }
  }
}
