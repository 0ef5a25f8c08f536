/** What a maintenance pass is for: left alone over working storage, it brings the session it claimed to its end. */
module PassProgress {
  import opened Base
  import opened Namespace
  import opened Storage
  import opened Uploads
  import opened UploadProtocol
  import opened UploadInvariant
  import opened UploadObjects
  import opened UploadSafety
  import opened UploadRuns
  import opened UploadProgress
  import opened Effects

  /** How many calls a pass has left at most. */
  function PassCalls(pc: MaintainPc): nat {
    match pc
    case MClaim => 6
    case MStat(_) => 5
    case MMark(_, _) => 4
    case MCommit(_, _) => 3
    case MClean(_, _) => 2
    case MDiscard(_) => 2
    case MUndo(_) => 2
    case MFinish(_, _) => 1
    case MEnd => 0
  }

  /** An object of the declared size is there. */
  ghost predicate Fits(st: Store, s: Session) {
    s.key in st.objects && |st.objects[s.key]| == s.expectedSize
  }

  /**
    Where a pass left alone takes a session: a due open one expires, one that was completing is committed if
    its object and a place for it are there and fails otherwise, an ended one stays.
   */
  ghost function Verdict(st: Store, d: Drive, s: Session): UploadStatus {
    if s.status in {Created, Uploading} then Expired
    else if s.status in {Completing, ObjectCompleted} then
      if Fits(st, s) && HasPlace(d, s) then Committed else Uploads.Failed
    else s.status
  }

  /** The pass is on its way to `verdict`, and nobody has moved session `t` since it saw it. */
  ghost predicate Heads(st: Store, d: Drive, now: Time, t: Session, pc: MaintainPc, verdict: UploadStatus) {
    match pc
    case MClaim => (t.status in {Created, Uploading} ==> t.expiresAt <= now) && verdict == Verdict(st, d, t)
    case MStat(s) => t.status == s.status && verdict == Verdict(st, d, t)
    case MClean(s, next) => t.status == s.status && verdict == next
    case MDiscard(s) => t.status == s.status && verdict == Uploads.Failed
    case MMark(s, _) => t.status == s.status && verdict == (if HasPlace(d, t) then Committed else Uploads.Failed)
    case MCommit(s, _) => t.status == s.status && verdict == (if HasPlace(d, t) then Committed else Uploads.Failed)
    case MUndo(_) => verdict == Uploads.Failed
    case MFinish(_, status) => Follows(t.status, status) && verdict == status
    case MEnd => t.status == verdict
  }

  ghost predicate Passing(w: World, c: Id, u: Id, verdict: UploadStatus) {
    && UploadSafety.Inv(w) && c in w.clients && w.clients[c].Maintainer? && w.clients[c].upload == u
    && u in w.repo.uploads && Heads(w.store, w.repo.drive, w.now, w.repo.uploads[u], w.clients[c].mpc, verdict)
  }

  /** After this step the pass is still on its way, one call further. */
  ghost predicate PassAdvances(k: Client, step: (Repo, Store, Client), now: Time, verdict: UploadStatus)
    requires k.Maintainer?
  {
    var (r, st, j) := step;
    && j.Maintainer? && j.upload == k.upload && k.upload in r.uploads && PassCalls(j.mpc) < PassCalls(k.mpc)
    && Heads(st, r.drive, now, r.uploads[k.upload], j.mpc, verdict)
  }

  lemma LookingCall(w: World, k: Client, a: Act, verdict: UploadStatus)
    requires k.Maintainer? && (k.mpc.MClaim? || k.mpc.MStat?) && ClientOk(w, k) && a.Step? && a.fault == Works
    requires k.upload in w.repo.uploads && SessionOk(w, k.upload)
    requires Heads(w.store, w.repo.drive, w.now, w.repo.uploads[k.upload], k.mpc, verdict)
    ensures PassAdvances(k, MaintainerStep(w, k, a), w.now, verdict)
  {
  }

  lemma CommittingCall(w: World, k: Client, a: Act, verdict: UploadStatus)
    requires k.Maintainer? && (k.mpc.MMark? || k.mpc.MCommit?) && ClientOk(w, k) && a.Step? && a.fault == Works
    requires k.upload in w.repo.uploads && SessionOk(w, k.upload)
    requires Heads(w.store, w.repo.drive, w.now, w.repo.uploads[k.upload], k.mpc, verdict)
    ensures PassAdvances(k, MaintainerStep(w, k, a), w.now, verdict)
  {
    var t := w.repo.uploads[k.upload];
    OccupiedIsTaken(w.repo.drive, t.tenant, t.parent, t.name, NONE);
  }

  lemma ClosingCall(w: World, k: Client, a: Act, verdict: UploadStatus)
    requires k.Maintainer? && (k.mpc.MClean? || k.mpc.MDiscard? || k.mpc.MUndo? || k.mpc.MFinish?)
    requires ClientOk(w, k) && a.Step? && a.fault == Works
    requires k.upload in w.repo.uploads && SessionOk(w, k.upload)
    requires Heads(w.store, w.repo.drive, w.now, w.repo.uploads[k.upload], k.mpc, verdict)
    ensures PassAdvances(k, MaintainerStep(w, k, a), w.now, verdict)
  {
  }

  lemma UndisturbedFinish(w: World, c: Id, a: Act, u: Id, verdict: UploadStatus)
    requires Passing(w, c, u, verdict) && FreshStep(w, a, c)
    ensures Admissible(w, a)
  {
  }

  lemma PassGoesOn(w: World, c: Id, u: Id, verdict: UploadStatus) returns (a: Act)
    requires Passing(w, c, u, verdict) && w.clients[c].mpc != MEnd
    ensures a.Step? && a.c == c && Admissible(w, a) && Passing(Next(w, a), c, u, verdict)
    ensures PassCalls(Next(w, a).clients[c].mpc) < PassCalls(w.clients[c].mpc)
  {
    a := WorkingStep(w, c);
    var k := w.clients[c];
    assert ClientOk(w, k) && SessionOk(w, u) && ObjectOk(w, u);
    if k.mpc.MClaim? || k.mpc.MStat? { LookingCall(w, k, a, verdict); }
    else if k.mpc.MMark? || k.mpc.MCommit? { CommittingCall(w, k, a, verdict); }
    else { ClosingCall(w, k, a, verdict); }
    var (r, st, j) := MaintainerStep(w, k, a);
    assert Next(w, a) == World(r, st, w.clients[c := j], w.now);
    StepKeepsInv(w, a) by { UndisturbedFinish(w, c, a, u, verdict); }
  }

  /** A pass nobody interferes with writes nothing stale, and ends its session as it should within six calls. */
  lemma {:induction false} PassReachesItsVerdict(w: World, c: Id, u: Id, verdict: UploadStatus) returns (acts: seq<Act>)
    requires Passing(w, c, u, verdict)
    ensures AdmissibleRun(w, acts) && |acts| <= PassCalls(w.clients[c].mpc) && AllBy(acts, c)
    ensures u in Run(w, acts).repo.uploads && Run(w, acts).repo.uploads[u].status == verdict
    decreases PassCalls(w.clients[c].mpc)
  {
    if w.clients[c].mpc == MEnd {
      acts := [];
    } else {
      var a := PassGoesOn(w, c, u, verdict);
      var rest := PassReachesItsVerdict(Next(w, a), c, u, verdict);
      Prepend(w, a, rest);
      AllByPrepends(a, rest, c);
      acts := [a] + rest;
    }
  }

  /** The same, of a pass that is about to claim a session that is due. */
  lemma PassEndsItsSession(w: World, c: Id, u: Id) returns (acts: seq<Act>)
    requires UploadSafety.Inv(w) && u in w.repo.uploads
    requires c in w.clients && w.clients[c] == Maintainer(u, false, MClaim)
    requires w.repo.uploads[u].status in {Created, Uploading} ==> w.repo.uploads[u].expiresAt <= w.now
    ensures AdmissibleRun(w, acts) && |acts| <= 6 && AllBy(acts, c)
    ensures var y := Run(w, acts);
            && u in y.repo.uploads && y.repo.uploads[u].status == Verdict(w.store, w.repo.drive, w.repo.uploads[u])
            && Terminal(y.repo.uploads[u].status)
  {
    acts := PassReachesItsVerdict(w, c, u, Verdict(w.store, w.repo.drive, w.repo.uploads[u]));
  }
}
