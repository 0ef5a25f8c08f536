/**
  Objects that maintenance leaves behind: the session fails without a recorded failure, so later
  cleanups abort the multipart instead. Who can still delete the object.
 */
module Stranded {
  import opened Base
  import opened Namespace
  import opened Storage
  import opened Uploads
  import opened UploadProtocol
  import opened UploadInvariant
  import opened UploadObjects
  import opened UploadSafety
  import opened UploadRuns

  /** A failed session without a recorded failure, whose object is still there. */
  ghost predicate Left(w: World, u: Id) {
    && u in w.repo.uploads && w.repo.uploads[u].status == Failed && w.repo.uploads[u].failure == NoFailure
    && w.repo.uploads[u].key in w.store.objects
  }

  ghost predicate WrongSize(w: World, u: Id)
    requires Left(w, u)
  {
    |w.store.objects[w.repo.uploads[u].key]| != w.repo.uploads[u].expectedSize
  }

  /** A client on its way to deleting the object of session `u`; some only delete it for its size. */
  predicate Threatens(k: Client, u: Id, wrongSize: bool) {
    match k
    case Completer(_, upload, _, pc) =>
      && upload == u
      && (|| pc.Undo? || (pc.Fail? && pc.objectExists) || (pc.Clean? && pc.objectExists)
          || (wrongSize && (pc.Assemble? || pc.Check? || pc.Stat?)))
    case Maintainer(upload, _, pc) => upload == u && (pc.MDiscard? || pc.MUndo? || (wrongSize && pc.MStat?))
    case _ => false
  }

  ghost predicate Unthreatened(w: World, u: Id)
    requires Left(w, u)
  {
    forall c :: c in w.clients ==> !Threatens(w.clients[c], u, WrongSize(w, u))
  }

  // -------------------------------------------------------- nobody else deletes it

  /** A call of a client that is no threat leaves the object and the session, and makes it no threat. */
  ghost predicate Spares(w: World, r: Repo, st: Store, after: Client, u: Id)
    requires Left(w, u)
  {
    var s := w.repo.uploads[u];
    && (s.key in w.store.objects ==> s.key in st.objects && st.objects[s.key] == w.store.objects[s.key])
    && u in r.uploads && r.uploads[u].status == Failed && r.uploads[u].failure == s.failure
    && r.uploads[u].key == s.key && r.uploads[u].expectedSize == s.expectedSize
    && !Threatens(after, u, WrongSize(w, u))
  }

  lemma CompleterSparesOwn(w: World, k: Client, a: Act, u: Id)
    requires StoreOk(w.repo.uploads, w.store) && u in w.repo.uploads && ObjectOk(w, u)
    requires k.Completer? && k.upload == u && a.Step? && ClientOk(w, k) && Left(w, u)
    requires !Threatens(k, u, WrongSize(w, u))
    ensures var (r, st, pc) := CompleterStep(w, k, a); Spares(w, r, st, k.(cpc := pc), u)
  {
  }

  lemma CompleterSparesOther(w: World, k: Client, a: Act, u: Id)
    requires k.Completer? && k.upload != u && a.Step? && ClientOk(w, k) && Separate(w.repo.uploads) && Left(w, u)
    ensures var (r, st, pc) := CompleterStep(w, k, a); Spares(w, r, st, k.(cpc := pc), u)
  {
  }

  lemma MaintainerSparesOwn(w: World, k: Client, a: Act, u: Id)
    requires k.Maintainer? && k.upload == u && a.Step? && ClientOk(w, k) && Left(w, u)
    requires !Threatens(k, u, WrongSize(w, u))
    requires k.mpc.MFinish? && a.fault != Refused ==> k.mpc.status == Failed
    ensures var (r, st, after) := MaintainerStep(w, k, a); Spares(w, r, st, after, u)
  {
  }

  lemma MaintainerSparesOther(w: World, k: Client, a: Act, u: Id)
    requires k.Maintainer? && k.upload != u && a.Step? && ClientOk(w, k) && Separate(w.repo.uploads) && Left(w, u)
    ensures var (r, st, after) := MaintainerStep(w, k, a); Spares(w, r, st, after, u)
  {
  }

  lemma AborterSpares(w: World, k: Client, a: Act, u: Id)
    requires k.Aborter? && a.Step? && ClientOk(w, k) && Separate(w.repo.uploads) && Left(w, u)
    ensures var (r, st, after) := ClientStep(w, k, a); Spares(w, r, st, after, u)
  {
  }

  lemma PurgerSpares(w: World, k: Client, a: Act, u: Id)
    requires k.Purger? && a.Step? && ClientOk(w, k) && Core(w) && Left(w, u)
    ensures var (r, st, after) := ClientStep(w, k, a); Spares(w, r, st, after, u)
  {
    if k.ppc.PurgeDelete? && a.pick in k.ppc.todo { PlannedBlobIsNotNeeded(w, a.pick); }
  }

  lemma ClientSpares(w: World, a: Act, u: Id)
    requires UploadSafety.Inv(w) && a.Step? && a.c in w.clients && Admissible(w, a) && Left(w, u) && Unthreatened(w, u)
    ensures var (r, st, after) := ClientStep(w, w.clients[a.c], a); Spares(w, r, st, after, u)
  {
    var k := w.clients[a.c];
    assert ClientOk(w, k) && ObjectOk(w, u) && !Threatens(k, u, WrongSize(w, u));
    match k
    case Completer(_, upload, _, _) => if upload == u { CompleterSparesOwn(w, k, a, u); }
        else { CompleterSparesOther(w, k, a, u); }
    case Maintainer(upload, _, _) => if upload == u { MaintainerSparesOwn(w, k, a, u); }
        else { MaintainerSparesOther(w, k, a, u); }
    case Aborter(_, _, _, _) => AborterSpares(w, k, a, u);
    case Purger(_, _, _, _) => PurgerSpares(w, k, a, u);
  }

  lemma StepKeepsLeft(w: World, a: Act, u: Id)
    requires UploadSafety.Inv(w) && Admissible(w, a) && Left(w, u) && Unthreatened(w, u)
    ensures Left(Next(w, a), u) && Unthreatened(Next(w, a), u)
    ensures Next(w, a).repo.uploads[u].key == w.repo.uploads[u].key
  {
    if a.Step? && a.c in w.clients {
      ClientSpares(w, a, u);
    } else {
      OtherActsKeepLeft(w, a, u);
    }
  }

  lemma OtherActsKeepLeft(w: World, a: Act, u: Id)
    requires !(a.Step? && a.c in w.clients) && Admissible(w, a) && Left(w, u) && Unthreatened(w, u)
    ensures Left(Next(w, a), u) && Unthreatened(Next(w, a), u)
    ensures Next(w, a).repo.uploads[u].key == w.repo.uploads[u].key
  {
  }

  lemma {:induction false} RunKeepsLeft(w: World, acts: seq<Act>, u: Id)
    requires UploadSafety.Inv(w) && AdmissibleRun(w, acts) && Left(w, u) && Unthreatened(w, u)
    ensures w.repo.uploads[u].key in Run(w, acts).store.objects
    decreases |acts|
  {
    if acts == [] {
    } else {
      StepKeepsInv(w, acts[0]);
      StepKeepsLeft(w, acts[0], u);
      RunKeepsLeft(Next(w, acts[0]), acts[1..], u);
    }
  }

  // ------------------------------------------------------------- but a threat does

  function CallsToDelete(k: Client): nat {
    match k
    case Completer(_, _, _, pc) =>
      if pc.Assemble? then 5 else if pc.Check? || pc.Stat? then 4 else if pc.Fail? then 3 else 2
    case Maintainer(_, _, pc) => if pc.MStat? then 2 else 1
    case _ => 0
  }

  /** The next working call of a threatening client deletes the object or brings it closer to that. */
  lemma ThreatComesCloser(w: World, k: Client, a: Act, u: Id)
    requires Left(w, u) && Threatens(k, u, WrongSize(w, u)) && a.Step? && a.fault == Works && ClientOk(w, k)
    requires Left(w, u)
    requires StoreOk(w.repo.uploads, w.store)
    ensures var (r, st, after) := ClientStep(w, k, a);
            var key := w.repo.uploads[u].key;
            && r == w.repo
            && (key !in st.objects
                || (st.objects == w.store.objects && Threatens(after, u, WrongSize(w, u))
                     && CallsToDelete(after) < CallsToDelete(k)))
  {
  }

  lemma {:induction false} ThreatDeletes(w: World, c: Id, u: Id) returns (acts: seq<Act>)
    requires UploadSafety.Inv(w) && Left(w, u) && c in w.clients && Threatens(w.clients[c], u, WrongSize(w, u))
    ensures AdmissibleRun(w, acts) && w.repo.uploads[u].key !in Run(w, acts).store.objects
    decreases CallsToDelete(w.clients[c])
  {
    var a := WorkingStep(w, c);
    assert ClientOk(w, w.clients[c]);
    ThreatComesCloser(w, w.clients[c], a, u);
    StepKeepsInv(w, a);
    var x := Next(w, a);
    if w.repo.uploads[u].key !in x.store.objects {
      acts := [];
      assert Run(x, []) == x;
    } else {
      acts := ThreatDeletes(x, c, u);
    }
    Prepend(w, a, acts);
    acts := [a] + acts;
  }

  /** The object stays through every run if and only if no client is already on its way to deleting it. */
  lemma LeftObjectStaysIff(w: World, u: Id)
    requires UploadSafety.Inv(w) && Left(w, u)
    ensures (forall acts :: AdmissibleRun(w, acts) ==> w.repo.uploads[u].key in Run(w, acts).store.objects) <==>
            Unthreatened(w, u)
  {
    if Unthreatened(w, u) {
      forall acts | AdmissibleRun(w, acts)
          ensures w.repo.uploads[u].key in Run(w, acts).store.objects { RunKeepsLeft(w, acts, u); }
    } else {
      var c :| c in w.clients && Threatens(w.clients[c], u, WrongSize(w, u));
      var acts := ThreatDeletes(w, c, u);
    }
  }

  // --------------------------------------------------------------- how it comes about

  /** A pass that has found an object of the wrong size and is about to delete it. */
  ghost predicate Discarding(w: World, c: Id) {
    && c in w.clients && w.clients[c].Maintainer? && w.clients[c].mpc.MDiscard? && w.clients[c].upload in w.repo.uploads
    && var s := w.repo.uploads[w.clients[c].upload];
       s.status in {Completing, ObjectCompleted} && s.key in w.store.objects
  }

  /** The world after the deletion was refused and the pass has finished. */
  ghost function GivenUp(w: World, c: Id): World
    requires Discarding(w, c)
  {
    var k := w.clients[c];
    World(Finished(w.repo, k.upload, Failed, w.now), w.store, w.clients[c := k.(mpc := MEnd)], w.now)
  }

  lemma RefusedDiscardGivesUp(w: World, c: Id, discard: Act, finish: Act)
    requires Discarding(w, c) && discard.Step? && discard.c == c && discard.fault == Refused
    requires FreshStep(w, finish, c) && Admissible(w, discard)
    ensures AdmissibleRun(w, [discard, finish]) && Run(w, [discard, finish]) == GivenUp(w, c)
  {
    var x := Next(w, discard);
    assert x == w.(clients := w.clients[c := w.clients[c].(mpc := MFinish(w.clients[c].mpc.s, Failed))]);
    assert Next(x, finish) == GivenUp(w, c);
    Prepend(x, finish, []);
    Prepend(w, discard, [finish] + []);
    assert [discard] + ([finish] + []) == [discard, finish];
  }

  lemma GivenUpIsLeft(w: World, c: Id)
    requires UploadSafety.Inv(w) && Discarding(w, c)
    ensures Left(GivenUp(w, c), w.clients[c].upload) && WrongSize(GivenUp(w, c), w.clients[c].upload)
    ensures Unthreatened(GivenUp(w, c), w.clients[c].upload) <==>
            forall e :: e in w.clients && e != c ==> !Threatens(w.clients[e], w.clients[c].upload, true)
  {
    var u := w.clients[c].upload;
    assert ClientOk(w, w.clients[c]) && SessionOk(w, u) && ObjectOk(w, u);
    OnlyThePassChanged(w, c);
  }

  lemma OnlyThePassChanged(w: World, c: Id)
    requires Discarding(w, c)
    requires Left(GivenUp(w, c), w.clients[c].upload) && WrongSize(GivenUp(w, c), w.clients[c].upload)
    ensures Unthreatened(GivenUp(w, c), w.clients[c].upload) <==> forall e :: e in w.clients && e != c ==>
            !Threatens(w.clients[e], w.clients[c].upload, true)
  {
    var x := GivenUp(w, c);
    if Unthreatened(x, w.clients[c].upload) {
      forall e | e in w.clients && e != c
          ensures !Threatens(w.clients[e], w.clients[c].upload, true) { assert x.clients[e] == w.clients[e]; }
    }
  }

  /**
    When the deletion of an object of the wrong size is refused and the pass finishes, the object
    outlives every later run, maintenance included, if and only if no other client was already on its
    way to deleting it.
   */
  lemma RefusedDiscardStaysIff(w: World, c: Id, discard: Act, finish: Act)
    requires UploadSafety.Inv(w) && Discarding(w, c)
    requires discard.Step? && discard.c == c && discard.fault == Refused && FreshStep(w, finish, c)
    requires Admissible(w, discard)
    ensures AdmissibleRun(w, [discard, finish])
    ensures (forall acts :: AdmissibleRun(Run(w, [discard, finish]), acts) ==>
               w.repo.uploads[w.clients[c].upload].key in Run(Run(w, [discard, finish]), acts).store.objects)
       <==> (forall e :: e in w.clients && e != c ==> !Threatens(w.clients[e], w.clients[c].upload, true))
  {
    RefusedDiscardGivesUp(w, c, discard, finish);
    RunKeepsInv(w, [discard, finish]);
    GivenUpIsLeft(w, c);
    LeftObjectStaysIff(GivenUp(w, c), w.clients[c].upload);
  }
}
