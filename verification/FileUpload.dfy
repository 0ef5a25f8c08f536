/** The whole way of a file: a session, its parts in storage, a completion, and a download that serves the file. */
module FileUpload {
  import opened Base
  import opened Namespace
  import opened Storage
  import opened Uploads
  import opened UploadProtocol
  import opened UploadInvariant
  import opened UploadSafety
  import opened UploadRuns
  import opened UploadProgress
  import opened PartGeometry

  // ---------------------------------------------------------------- the parts in storage

  /** The first `k` parts of the file are stored. */
  ghost predicate Stores(parts: map<nat, Bytes>, file: Bytes, partSize: nat, k: nat) {
    forall i: nat :: i < k && i * partSize <= |file| ==> (i + 1) in parts && parts[i + 1] == Slice(file, partSize, i)
  }

  /** Parts that are all stored, and all listed, are put together to what the list names. */
  lemma {:induction false} StoredPartsAssemble(parts: map<nat, Bytes>, ps: seq<Part>)
    requires forall i :: 0 <= i < |ps| ==> ps[i].number in parts && ps[i].etag == ETagOf(parts[ps[i].number])
    ensures Concatenated(parts, ps) == Some(Named(ps))
  {
    if ps == [] {
    } else {
      StoredPartsAssemble(parts, ps[..|ps| - 1]);
    }
  }

  lemma StoredFileAssembles(parts: map<nat, Bytes>, file: Bytes, partSize: nat)
    requires partSize > 0 && PartCount(|file|, partSize).Some?
    requires Stores(parts, file, partSize, CeilingDiv(|file|, partSize))
    ensures Concatenated(parts, SortParts(FileParts(file, partSize))) == Some(file)
  {
    var ps := FileParts(file, partSize);
    FilePartsAreValid(file, partSize);
    FilePartsNameTheFile(file, partSize);
    forall i | 0 <= i < |ps| ensures ps[i].number in parts && ps[i].etag == ETagOf(parts[ps[i].number]) {
      IndexInside(|file|, partSize, i);
    }
    StoredPartsAssemble(parts, ps);
  }

  // --------------------------------------------------------------------- sending the parts

  /** World `w` is `x` but for the parts of multipart `id`. */
  ghost predicate OnlyParts(x: World, w: World, id: Id) {
    && id in x.store.uploads && id in w.store.uploads
    && w.store.uploads[id] == x.store.uploads[id].(parts := w.store.uploads[id].parts)
    && w == x.(store := x.store.(uploads := x.store.uploads[id := w.store.uploads[id]]))
  }

  lemma {:induction false} SendParts(x: World, w: World, id: Id, file: Bytes, partSize: nat, k: nat)
    returns (acts: seq<Act>)
    requires partSize > 0 && OnlyParts(x, w, id) && Stores(w.store.uploads[id].parts, file, partSize, k)
    requires k <= CeilingDiv(|file|, partSize)
    ensures AdmissibleRun(w, acts) && OnlyParts(x, Run(w, acts), id)
    ensures Stores(Run(w, acts).store.uploads[id].parts, file, partSize, CeilingDiv(|file|, partSize))
    decreases CeilingDiv(|file|, partSize) - k
  {
    if k == CeilingDiv(|file|, partSize) {
      acts := [];
    } else {
      IndexInside(|file|, partSize, k);
      var a := Put(id, k + 1, Slice(file, partSize, k));
      var rest := SendParts(x, Next(w, a), id, file, partSize, k + 1);
      Prepend(w, a, rest);
      acts := [a] + rest;
    }
  }

  // ---------------------------------------------------------------------- the whole upload

  /** A session CreateUpload could make for this file, with generated ids. */
  ghost predicate SessionFor(w: World, u: Id, s: Session, file: Bytes) {
    && Admissible(w, NewUpload(u, s)) && u !in w.repo.uploads && HasPlace(w.repo.drive, s) && w.now < s.expiresAt
    && s.expectedSize == |file| && s.partSize > 0 && PartCount(|file|, s.partSize).Some?
    && (s.declared.Some? ==> s.declared.value == Sha256(file))
  }

  /** The session is created, and its first part signed. */
  lemma SessionOpens(w: World, u: Id, s: Session, file: Bytes)
    requires SessionFor(w, u, s, file)
    ensures var x := Run(w, [NewUpload(u, s), SignPart(s.tenant, u)]);
            && AdmissibleRun(w, [NewUpload(u, s), SignPart(s.tenant, u)])
            && x.repo == w.repo.(uploads := w.repo.uploads[u := Moved(s, Uploading, w.now)])
            && x.clients == w.clients && x.now == w.now
            && s.storageUpload in x.store.uploads
            && x.store.uploads[s.storageUpload] == Multipart(s.key, s.declared, map[])
  {
    Effects.OccupiedIsTaken(w.repo.drive, s.tenant, s.parent, s.name, NONE);
    var a, b := NewUpload(u, s), SignPart(s.tenant, u);
    Prepend(Next(w, a), b, []);
    Prepend(w, a, [b] + []);
    assert [a] + ([b] + []) == [a, b];
  }

  /** The request arrives when all parts are stored; nothing stands against it. */
  lemma RequestIsCompletable(w: World, x: World, u: Id, s: Session, file: Bytes, c: Id)
    requires SessionFor(w, u, s, file) && c !in x.clients && x.now == w.now
    requires x.repo == w.repo.(uploads := w.repo.uploads[u := Moved(s, Uploading, w.now)])
    requires s.storageUpload in x.store.uploads && x.store.uploads[s.storageUpload].key == s.key
    requires Stores(x.store.uploads[s.storageUpload].parts, file, s.partSize, CeilingDiv(|file|, s.partSize))
    ensures var a := Arrive(c, Completer(s.tenant, u, FileParts(file, s.partSize), Begin));
            && Admissible(x, a) && Completable(Next(x, a), u, FileParts(file, s.partSize), file)
  {
    FilePartsAreValid(file, s.partSize);
    StoredFileAssembles(x.store.uploads[s.storageUpload].parts, file, s.partSize);
  }

  /**
    From every state of a run, a file with a place gets there: session, parts and completion end with a client
    that is told so, and with a new visible file whose download serves exactly the file.
   */
  lemma FileGetsThere(w: World, u: Id, s: Session, file: Bytes, c: Id) returns (acts: seq<Act>, n: Id)
    requires UploadSafety.Inv(w) && SessionFor(w, u, s, file) && c !in w.clients
    ensures AdmissibleRun(w, acts)
    ensures var y := Run(w, acts);
            && UploadSafety.Inv(y) && c in y.clients && y.clients[c].Completer?
            && y.clients[c].cpc == Completed(Ok((n, true))) && Commits(y, u, n) && n !in w.repo.drive.nodes
            && Effects.ListedOnlyIn(y.repo.drive, s.tenant, n, s.parent, s.name)
            && Download(y.repo.drive, s.tenant, n).Ok? && UploadContent.Downloads(y, s.tenant, n, file)
  {
    var list := FileParts(file, s.partSize);
    var begin := [NewUpload(u, s), SignPart(s.tenant, u)];
    SessionOpens(w, u, s, file);
    var x := Run(w, begin);
    var puts := SendParts(x, x, s.storageUpload, file, s.partSize, 0);
    var y := Run(x, puts);
    RequestIsCompletable(w, y, u, s, file, c);
    var a := Arrive(c, Completer(s.tenant, u, list, Begin));
    RunJoins(w, begin, puts);
    RunKeepsInv(w, begin + puts);
    StepKeepsInv(y, a);
    var calls;
    calls, n := CompletionSucceeds(Next(y, a), c, u, list, file);
    Prepend(y, a, calls);
    RunJoins(w, begin + puts, [a] + calls);
    acts := begin + puts + ([a] + calls);
    RunKeepsInv(w, acts);
  }
}
