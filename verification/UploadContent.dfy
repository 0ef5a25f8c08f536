/** In every run a committed upload of a file holds exactly that file. */
module UploadContent {
  import opened Base
  import opened Namespace
  import NamespaceInvariant
  import opened Storage
  import opened Uploads
  import opened UploadProtocol
  import opened UploadInvariant
  import opened UploadObjects
  import opened UploadSafety
  import opened PartGeometry

  /**
    In every run an uploaded object consists of exactly the bytes its session's frozen part list
    names, and agrees with the checksum the session declared.
   */
  lemma ObjectsAreTheirLists(acts: seq<Act>, u: Id)
    requires AdmissibleRun(INITIAL, acts) && u in Run(INITIAL, acts).repo.uploads
    ensures var w := Run(INITIAL, acts);
            var s := w.repo.uploads[u];
            s.key in w.store.objects ==>
              && s.digest.Some? && w.store.objects[s.key] == Named(s.digest.value)
              && (s.declared.Some? ==> s.declared.value == Sha256(w.store.objects[s.key]))
  {
    InitialInv();
    RunKeepsInv(INITIAL, acts);
    assert ObjectOk(Run(INITIAL, acts), u);
  }

  /** The bytes behind the file `n`, until it is purged. */
  ghost predicate HoldsFile(w: World, n: Id, file: Bytes) {
    var d := w.repo.drive;
    && n in d.nodes && d.nodes[n].kind == File
    && d.nodes[n].version in d.versions && d.versions[d.nodes[n].version].blob in d.blobs
    && var key := d.blobs[d.versions[d.nodes[n].version].blob].key;
       d.nodes[n].status != Purging ==>
           key in w.store.objects && w.store.objects[key] == file && d.nodes[n].size == |file|
  }

  /** A download of node `n` serves the blob whose object is `file`. */
  ghost predicate Downloads(w: World, tenant: Id, n: Id, file: Bytes) {
    var r := Download(w.repo.drive, tenant, n);
    r.Ok? ==>
      && r.value in w.repo.drive.blobs && w.repo.drive.blobs[r.value].key in w.store.objects
      && w.store.objects[w.repo.drive.blobs[r.value].key] == file
  }

  lemma CommittedListIsHeld(w: World, k: Client, file: Bytes)
    requires ClientOk(w, k) && k.Completer? && k.cpc.Completed? && k.cpc.result.Ok?
    requires k.upload in w.repo.uploads && SessionOk(w, k.upload) && ObjectOk(w, k.upload)
    requires Named(PartsDigest(k.parts)) == file
    ensures HoldsFile(w, k.cpc.result.value.0, file)
  {
  }

  /**
    However requests, PUTs, maintenance and faults interleave: a client that is told that the
    completion list of `file` was committed finds, until the file is purged, exactly its bytes.
   */
  lemma CommittedUploadHoldsTheFile(acts: seq<Act>, c: Id, file: Bytes, partSize: nat)
    requires AdmissibleRun(INITIAL, acts) && partSize > 0 && PartCount(|file|, partSize).Some?
    requires var w := Run(INITIAL, acts);
             && c in w.clients && w.clients[c].Completer? && w.clients[c].parts == FileParts(file, partSize)
             && w.clients[c].cpc.Completed? && w.clients[c].cpc.result.Ok?
    ensures HoldsFile(Run(INITIAL, acts), Run(INITIAL, acts).clients[c].cpc.result.value.0, file)
  {
    InitialInv();
    RunKeepsInv(INITIAL, acts);
    FilePartsNameTheFile(file, partSize);
    FilePartsAreValid(file, partSize);
    KnownClient(Run(INITIAL, acts), c);
    CommittedListIsHeld(Run(INITIAL, acts), Run(INITIAL, acts).clients[c], file);
  }

  lemma HeldFileDownloads(w: World, tenant: Id, n: Id, file: Bytes)
    requires UploadSafety.Inv(w) && HoldsFile(w, n, file)
    ensures Downloads(w, tenant, n, file)
    ensures VisibleIn(w.repo.drive, tenant, n) ==> Download(w.repo.drive, tenant, n).Ok?
  {
    if VisibleIn(w.repo.drive, tenant, n) { NamespaceInvariant.VisibleFileDownloads(w.repo.drive, tenant, n); }
  }

  /** What such a client, or anybody else, downloads as long as the file is visible is the file. */
  lemma DownloadServesTheFile(acts: seq<Act>, c: Id, file: Bytes, partSize: nat, tenant: Id)
    requires AdmissibleRun(INITIAL, acts) && partSize > 0 && PartCount(|file|, partSize).Some?
    requires var w := Run(INITIAL, acts);
             && c in w.clients && w.clients[c].Completer? && w.clients[c].parts == FileParts(file, partSize)
             && w.clients[c].cpc.Completed? && w.clients[c].cpc.result.Ok?
    ensures var w, n := Run(INITIAL, acts), Run(INITIAL, acts).clients[c].cpc.result.value.0;
            && Downloads(w, tenant, n, file)
            && (VisibleIn(w.repo.drive, tenant, n) ==> Download(w.repo.drive, tenant, n).Ok?)
  {
    CommittedUploadHoldsTheFile(acts, c, file, partSize);
    InitialInv();
    RunKeepsInv(INITIAL, acts);
    HeldFileDownloads(Run(INITIAL, acts), tenant, Run(INITIAL, acts).clients[c].cpc.result.value.0, file);
  }

  lemma KnownClient(w: World, c: Id)
    requires UploadSafety.Inv(w) && c in w.clients && w.clients[c].Completer? && w.clients[c].cpc.Completed?
    requires w.clients[c].cpc.result.Ok?
    ensures var k := w.clients[c];
            ClientOk(w, k) && k.upload in w.repo.uploads && SessionOk(w, k.upload) && ObjectOk(w, k.upload)
  {
    assert ClientOk(w, w.clients[c]);
    assert SessionOk(w, w.clients[c].upload) && ObjectOk(w, w.clients[c].upload);
  }
}
