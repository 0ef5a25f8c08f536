/**
  FinishUploadMaintenance writes the status a pass claimed, or decided on, over whatever the session
  has become in the meantime. When that leaves a committed upload standing, and that it does if nobody
  moved the session.
 */
module WriteBack {
  import opened Base
  import opened Namespace
  import opened Uploads
  import opened UploadProtocol
  import opened UploadInvariant
  import opened UploadSafety

  // ------------------------------------------------------------ when the write is harmless

  /** The file of node `n` has its object, unless it is being purged. */
  ghost predicate KeepsFile(w: World, n: Id) {
    var d := w.repo.drive;
    && n in d.nodes && d.nodes[n].version in d.versions && d.versions[d.nodes[n].version].blob in d.blobs
    && (d.nodes[n].status != Purging ==> d.blobs[d.versions[d.nodes[n].version].blob].key in w.store.objects)
  }

  /** A client that repeats the recorded completion of `u` is answered with node `n`. */
  ghost predicate AnswersRepeat(w: World, u: Id, n: Id) {
    && u in w.repo.uploads && u in w.repo.parts
    && var k := Completer(w.repo.uploads[u].tenant, u, w.repo.parts[u], Begin);
       forall a: Act :: a.Step? ==>
         && CompleterStep(w, k, a) == (w.repo, w.store, Replay)
         && CompleterStep(w, k.(cpc := Replay), a) == (w.repo, w.store, Completed(Ok((n, false))))
  }

  /** Whatever happens from here on, the upload stands: its file keeps its object and its list is answered. */
  ghost predicate Stands(w: World, u: Id, n: Id) {
    forall acts :: AdmissibleRun(w, acts) ==> KeepsFile(Run(w, acts), n) && AnswersRepeat(Run(w, acts), u, n)
  }

  lemma CommittedIsAnswered(w: World, u: Id)
    requires UploadSafety.Inv(w) && u in w.repo.uploads && w.repo.uploads[u].status == Committed
    ensures KeepsFile(w, w.repo.uploads[u].committedNode) && AnswersRepeat(w, u, w.repo.uploads[u].committedNode)
  {
    assert SessionOk(w, u);
    var k := Completer(w.repo.uploads[u].tenant, u, w.repo.parts[u], Begin);
    forall a: Act | a.Step?
      ensures CompleterStep(w, k, a) == (w.repo, w.store, Replay)
      ensures CompleterStep(w, k.(cpc := Replay), a) == (w.repo, w.store,
              Completed(Ok((w.repo.uploads[u].committedNode, false))))
    {
      RepeatedCompletion(w, k, a);
    }
  }

  lemma CommittedStands(w: World, u: Id)
    requires UploadSafety.Inv(w) && u in w.repo.uploads && w.repo.uploads[u].status == Committed
    ensures Stands(w, u, w.repo.uploads[u].committedNode)
  {
    forall acts | AdmissibleRun(w, acts)
      ensures KeepsFile(Run(w, acts), w.repo.uploads[u].committedNode)
      ensures AnswersRepeat(Run(w, acts), u, w.repo.uploads[u].committedNode)
    {
      RunKeepsInv(w, acts);
      PayloadIsFrozen(w, acts, u) by { assert SessionOk(w, u); }
      CommittedIsAnswered(Run(w, acts), u);
    }
  }

  /** Is this step a maintenance pass writing its status over session `u`? */
  predicate Writes(w: World, a: Act, u: Id) {
    && a.Step? && a.fault != Refused && a.c in w.clients && u in w.repo.uploads
    && w.clients[a.c].Maintainer? && w.clients[a.c].mpc.MFinish? && w.clients[a.c].upload == u
  }

  lemma WrittenStatus(w: World, a: Act, u: Id)
    requires Writes(w, a, u)
    ensures u in Next(w, a).repo.uploads && Next(w, a).repo.uploads[u].status == w.clients[a.c].mpc.status
    ensures Next(w, a).repo.uploads[u].committedNode == w.repo.uploads[u].committedNode
  {
  }

  /** Only a committed session answers a repeat with its node. */
  lemma OnlyCommittedIsAnswered(w: World, u: Id, n: Id, c: Id)
    requires AnswersRepeat(w, u, n)
    ensures w.repo.uploads[u].status == Committed
  {
    var k := Completer(w.repo.uploads[u].tenant, u, w.repo.parts[u], Begin);
    var a := Step(c, Works, NONE, NONE, NONE, NONE);
    assert CompleterStep(w, k, a) == (w.repo, w.store, Replay);
  }

  /**
    The exact condition at the finish of a pass. A committed upload stands through every later run if
    and only if the status written over it may follow the one it has: a test FinishUploadMaintenance
    could make, and does not.
   */
  lemma CommittedUploadStandsIff(w: World, write: Act, u: Id)
    requires UploadSafety.Inv(w) && Writes(w, write, u) && w.repo.uploads[u].status == Committed
    requires write.node !in w.repo.drive.nodes && write.node != NONE && write.version !in w.repo.drive.versions
    requires write.blob !in w.repo.drive.blobs
    ensures Stands(Next(w, write), u, w.repo.uploads[u].committedNode) <==>
            Follows(w.repo.uploads[u].status, w.clients[write.c].mpc.status)
  {
    var x := Next(w, write);
    var n := w.repo.uploads[u].committedNode;
    WrittenStatus(w, write, u);
    if Follows(w.repo.uploads[u].status, w.clients[write.c].mpc.status) {
      StepKeepsInv(w, write);
      CommittedStands(x, u);
    }
    if Stands(x, u, n) {
      assert AdmissibleRun(x, []) && Run(x, []) == x;
      OnlyCommittedIsAnswered(x, u, n, write.c);
    }
  }

  /** A pass writes a status that may not follow only if the session has moved since the pass saw it. */
  lemma UndisturbedFinishIsLegal(w: World, a: Act, u: Id)
    requires UploadSafety.Inv(w) && Writes(w, a, u) && w.repo.uploads[u].status == w.clients[a.c].mpc.s.status
    ensures !WritesStale(w, a)
  {
    assert ClientOk(w, w.clients[a.c]);
  }
}
