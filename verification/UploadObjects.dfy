/**
  What the bytes of an uploaded object are: the ones the session's frozen part list names, in
  agreement with the checksum the session declared.
 */
module UploadObjects {
  import opened Base
  import opened Storage
  import opened Uploads
  import opened UploadProtocol
  import opened UploadInvariant

  /**
    An object consists of the bytes its session's part list names. The session's multipart carries
    the declared checksum, and an object assembled from it agrees with it.
   */
  ghost predicate ObjectOk(w: World, u: Id)
    requires u in w.repo.uploads
  {
    var s := w.repo.uploads[u];
    && (s.storageUpload in w.store.uploads && w.store.uploads[s.storageUpload].key == s.key
        ==> w.store.uploads[s.storageUpload].declared == s.declared)
    && (s.key in w.store.objects ==>
          && s.digest.Some? && w.store.objects[s.key] == Named(s.digest.value)
          && (s.declared.Some? ==> s.declared.value == Sha256(w.store.objects[s.key])))
  }

  ghost predicate Content(w: World) {
    forall u {:trigger ObjectOk(w, u)} :: u in w.repo.uploads ==> ObjectOk(w, u)
  }

  /** No multipart appears or changes its key or checksum. */
  ghost predicate KeepsMultiparts(before: Store, after: Store) {
    forall m :: m in after.uploads ==>
      m in before.uploads && after.uploads[m].key == before.uploads[m].key
          && after.uploads[m].declared == before.uploads[m].declared
  }

  /** An object of `key` in `after` was there before, or was assembled from multipart `m` as `list` names it. */
  ghost predicate Assembled(before: Store, after: Store, key: Id, list: seq<Part>, m: Id) {
    key in after.objects ==>
      || (key in before.objects && after.objects[key] == before.objects[key])
      || (&& m in before.uploads && before.uploads[m].key == key && after.objects[key] == Named(list)
          && (before.uploads[m].declared.Some? ==> before.uploads[m].declared.value == Sha256(after.objects[key])))
  }

  lemma AssemblyKeeps(st: Store, key: Id, id: Id, ps: seq<Part>)
    ensures var after := CompleteMultipart(st, key, id, ps).0;
            && KeepsMultiparts(st, after) && Assembled(st, after, key, PartsDigest(ps), id)
            && (forall other :: other != key && other in after.objects ==>
                 other in st.objects && after.objects[other] == st.objects[other])
  {
    if id in st.uploads && Concatenated(st.uploads[id].parts, SortParts(ps)).Some? {
      AssemblyIsNamed(st.uploads[id].parts, SortParts(ps));
    }
  }

  /** Session `s` gets an object only from its own multipart, and as its own part list names it. */
  ghost predicate OwnObject(before: Store, after: Store, s: Session) {
    Assembled(before, after, s.key, if s.digest.Some? then s.digest.value else [], s.storageUpload)
    && (s.key in after.objects && s.key !in before.objects ==> s.digest.Some?)
  }

  /** Every client but one that assembles only takes things out of storage. */
  lemma OnlyAssemblyAdds(w: World, k: Client, a: Act)
    requires a.Step? && !(k.Completer? && k.cpc.Assemble?)
    ensures var st := ClientStep(w, k, a).1;
            && KeepsMultiparts(w.store, st)
            && forall key :: key in st.objects ==> key in w.store.objects && st.objects[key] == w.store.objects[key]
  {
  }

  lemma AssemblerKeepsObjects(w: World, k: Client, a: Act, u: Id)
    requires a.Step? && k.Completer? && k.cpc.Assemble? && ClientOk(w, k)
    requires Separate(w.repo.uploads) && u in w.repo.uploads
    ensures var st := CompleterStep(w, k, a).1;
            KeepsMultiparts(w.store, st) && OwnObject(w.store, st, w.repo.uploads[u])
  {
    AssemblyKeeps(w.store, k.cpc.s.key, k.cpc.s.storageUpload, k.parts);
  }

  lemma ClientKeepsObjects(w: World, k: Client, a: Act, u: Id)
    requires a.Step? && ClientOk(w, k) && Separate(w.repo.uploads) && u in w.repo.uploads
    ensures KeepsMultiparts(w.store, ClientStep(w, k, a).1)
    ensures OwnObject(w.store, ClientStep(w, k, a).1, w.repo.uploads[u])
  {
    if k.Completer? && k.cpc.Assemble? { AssemblerKeepsObjects(w, k, a, u); } else { OnlyAssemblyAdds(w, k, a); }
  }

  lemma OtherActsKeepObjects(w: World, a: Act, s: Session)
    requires !a.Step? && !a.NewUpload?
    ensures KeepsMultiparts(w.store, Next(w, a).store) && OwnObject(w.store, Next(w, a).store, s)
  {
  }

  lemma ObjectStaysOk(w: World, x: World, u: Id)
    requires u in w.repo.uploads && ObjectOk(w, u) && KeepsMultiparts(w.store, x.store)
    requires OwnObject(w.store, x.store, w.repo.uploads[u])
    requires u in x.repo.uploads && Later(w.repo.uploads[u], x.repo.uploads[u])
    ensures ObjectOk(x, u)
  {
  }

  lemma NewUploadIsOk(w: World, v: Id, s: Session, u: Id)
    requires Content(w) && Admissible(w, NewUpload(v, s)) && u in Next(w, NewUpload(v, s)).repo.uploads
    ensures ObjectOk(Next(w, NewUpload(v, s)), u)
  {
    if u in w.repo.uploads { assert ObjectOk(w, u); }
  }

  lemma OnlyKnownUploads(w: World, a: Act, u: Id)
    requires !a.NewUpload? && u in Next(w, a).repo.uploads
    ensures u in w.repo.uploads
  {
  }

  lemma StepKeepsObjectOk(w: World, a: Act, u: Id)
    requires Clients(w) && Separate(w.repo.uploads) && Content(w) && Admissible(w, a) && Advances(w, Next(w, a))
    requires u in Next(w, a).repo.uploads
    ensures ObjectOk(Next(w, a), u)
  {
    if a.NewUpload? {
      NewUploadIsOk(w, a.u, a.s, u);
    } else {
      OnlyKnownUploads(w, a, u);
      assert ObjectOk(w, u);
      if !a.Step? {
        OtherActsKeepObjects(w, a, w.repo.uploads[u]);
      } else if a.c in w.clients {
        assert ClientOk(w, w.clients[a.c]);
        ClientKeepsObjects(w, w.clients[a.c], a, u);
      }
      ObjectStaysOk(w, Next(w, a), u);
    }
  }

  /** Every step keeps the objects what their sessions say they are. */
  lemma StepKeepsContent(w: World, a: Act)
    requires Clients(w) && Separate(w.repo.uploads) && Content(w) && Admissible(w, a) && Advances(w, Next(w, a))
    ensures Content(Next(w, a))
  {
    var x := Next(w, a);
    forall u {:trigger ObjectOk(x, u)} | u in x.repo.uploads ensures ObjectOk(x, u) { StepKeepsObjectOk(w, a, u); }
  }
}
