/**
  The invariant of the interleaved upload protocol, and what keeps it: sessions that move on,
  storage that loses nothing still needed, a drive that evolves.
 */
module UploadInvariant {
  import opened Base
  import opened Namespace
  import NamespaceInvariant
  import opened Storage
  import opened Uploads
  import opened UploadProtocol

  // ------------------------------------------------------------------- invariant

  ghost predicate HasObject(st: Store, s: Session) {
    s.key in st.objects && Acceptable(s, st.objects[s.key])
  }

  /** The node a session committed is a file whose blob is the session's object. */
  ghost predicate CommittedFile(d: Drive, st: Store, s: Session) {
    var n := s.committedNode;
    && n in d.nodes && d.nodes[n].kind == File && d.nodes[n].tenant == s.tenant && d.nodes[n].size == s.expectedSize
    && d.nodes[n].version in d.versions
    && var b := d.versions[d.nodes[n].version].blob;
       && b in d.blobs && d.blobs[b].key == s.key && d.blobs[b].size == s.expectedSize
       && (d.nodes[n].status != Purging ==> HasObject(st, s))
  }

  ghost predicate SessionOk(w: World, u: Id)
    requires u in w.repo.uploads
  {
    var s := w.repo.uploads[u];
    && (s.status in {Created, Uploading, Aborted, Expired} ==> s.digest == None)
    && (s.status in {Completing, ObjectCompleted, Committed} ==> s.digest.Some?)
    && (s.digest.Some? <==> u in w.repo.parts)
    && (s.digest.Some? ==> ValidParts(w.repo.parts[u]) && s.digest.value == PartsDigest(w.repo.parts[u]))
    && (s.failure != NoFailure ==> s.status == Failed)
    && (s.status == ObjectCompleted ==> HasObject(w.store, s))
    && (s.status == Committed ==> CommittedFile(w.repo.drive, w.store, s))
  }

  /** Sessions never share an object key or a storage upload. */
  ghost predicate Separate(uploads: map<Id, Session>) {
    forall u, v
      {:trigger uploads[u].key, uploads[v].key}
      {:trigger uploads[u].storageUpload, uploads[v].storageUpload}
      | u in uploads && v in uploads && u != v ::
      uploads[u].key != uploads[v].key && uploads[u].storageUpload != uploads[v].storageUpload
  }

  /** Only a session's own multipart upload can create its object, and it is gone once it has. */
  ghost predicate StoreOk(uploads: map<Id, Session>, st: Store) {
    && (forall u, m {:trigger uploads[u].key, st.uploads[m].key} ::
         u in uploads && m in st.uploads && st.uploads[m].key == uploads[u].key ==> m == uploads[u].storageUpload)
    && (forall u {:trigger uploads[u].key} :: u in uploads && uploads[u].key in st.objects ==>
         uploads[u].storageUpload !in st.uploads)
  }

  ghost predicate Commits(w: World, u: Id, n: Id) {
    u in w.repo.uploads && w.repo.uploads[u].status == Committed && w.repo.uploads[u].committedNode == n
  }

  /** Every file and every blob was committed by a session. */
  ghost predicate Owned(w: World) {
    && (forall n :: n in w.repo.drive.nodes && w.repo.drive.nodes[n].kind == File ==> exists u :: Commits(w, u, n))
    && (forall b :: b in w.repo.drive.blobs ==>
         exists v :: v in w.repo.drive.versions && w.repo.drive.versions[v].blob == b)
  }

  /** `t` is a later state of session `s`: identity is fixed, a digest stays, terminal states are final. */
  ghost predicate Later(s: Session, t: Session) {
    && t.(status := s.status, digest := s.digest, committedNode := s.committedNode, failure := s.failure,
         revision := s.revision, updatedAt := s.updatedAt) == s
    && (s.digest.Some? ==> t.digest == s.digest)
    && (Terminal(s.status) ==> t.committedNode == s.committedNode && t.failure == s.failure)
    && Follows(s.status, t.status)
  }

  /** A completing client that has got past BeginComplete with this session. */
  ghost predicate Begun(c: Client, snapshot: Session, s: Session)
    requires c.Completer?
  {
    Later(snapshot, s) && s.tenant == c.tenant && s.digest == Some(PartsDigest(c.parts))
        && s.status !in {Created, Uploading, Aborted, Expired}
  }

  ghost predicate ClientOk(w: World, c: Client) {
    match c
    case Completer(tenant, upload, parts, pc) =>
      && (pc != Begin && !(pc.Completed? && pc.result.Err?) ==> HasUpload(w.repo, tenant, upload))
      && (match pc
          case Begin => true
          case Replay => w.repo.uploads[upload].status == Committed
              && w.repo.uploads[upload].digest == Some(PartsDigest(parts))
          case Assemble(s) => Begun(c, s, w.repo.uploads[upload])
          case Check(s, _) => Begun(c, s, w.repo.uploads[upload])
          case Stat(s) => Begun(c, s, w.repo.uploads[upload])
          case Mark(s, size) => Begun(c, s, w.repo.uploads[upload]) && size == s.expectedSize
                                && (w.repo.uploads[upload].status == Completing ==>
                                     HasObject(w.store, w.repo.uploads[upload]))
          case Commit(s, size) => Begun(c, s, w.repo.uploads[upload]) && size == s.expectedSize
              && w.repo.uploads[upload].status != Completing
          case Fail(s, failure, _, _) => Begun(c, s, w.repo.uploads[upload]) && failure != NoFailure
          case Clean(s, _, _) => Begun(c, s, w.repo.uploads[upload]) && w.repo.uploads[upload].status == Failed
          case Undo(s, _) => Begun(c, s, w.repo.uploads[upload]) && w.repo.uploads[upload].status == Failed
          case Completed(result) =>
            result.Ok? ==>
              Commits(w, upload, result.value.0) && w.repo.uploads[upload].digest == Some(PartsDigest(parts)))
    case Aborter(tenant, upload, _, pc) =>
      pc.AbortClean? ==>
        && HasUpload(w.repo, tenant, upload) && Later(pc.s, w.repo.uploads[upload])
        && pc.s.status in {Aborted, Expired, Failed}
    case Purger(_, _, _, pc) =>
      pc.PurgeDelete? ==> pc.todo <= pc.plan && forall b :: b in pc.plan ==>
          b in w.repo.drive.blobs && w.repo.drive.blobs[b].status != Available
    case Maintainer(upload, first, pc) =>
      && (first ==> upload in w.repo.uploads && w.repo.uploads[upload].status == Committed)
      && (pc != MClaim && pc != MEnd ==> upload in w.repo.uploads && MaintainerOk(w.store, w.repo.uploads[upload], pc))
  }

  /** The statuses a maintenance pass means to write over a session it saw in status `seen`. */
  predicate Closes(seen: UploadStatus, status: UploadStatus) {
    || status == seen
    || (status == Expired && seen in {Created, Uploading})
    || (status == Failed && seen in {Completing, ObjectCompleted})
  }

  /** What a maintenance pass knows of the session `t` it works on. */
  ghost predicate MaintainerOk(st: Store, t: Session, pc: MaintainPc)
    requires pc != MClaim && pc != MEnd
  {
    match pc
    case MStat(s) => Later(s, t) && s.status in {Completing, ObjectCompleted} && s.digest.Some?
    case MClean(s, next) => Later(s, t) && Closes(s.status, next)
    case MDiscard(s) => Later(s, t) && s.status in {Completing, ObjectCompleted} && s.digest.Some?
        && |Named(s.digest.value)| != s.expectedSize
    case MMark(s, size) =>
      Later(s, t) && s.status == Completing && s.digest.Some? && size == s.expectedSize
          && (t.status == Completing ==> HasObject(st, t))
    case MCommit(s, size) => Later(s, t) && s.status == ObjectCompleted && s.digest.Some? && size == s.expectedSize
    case MUndo(s) => Later(s, t) && s.status == ObjectCompleted && t.status == Failed
    case MFinish(s, status) => Follows(s.status, t.status) && Closes(s.status, status)
  }

  /** Did client `c` commit session `u`? A completing client is told so, a maintenance pass knows it. */
  predicate SawFirst(c: Client, u: Id) {
    || (c.Completer? && c.upload == u && c.cpc.Completed? && c.cpc.result.Ok? && c.cpc.result.value.1)
    || (c.Maintainer? && c.upload == u && c.first)
  }

  /** A committed session has exactly one client that saw First, any other session none. */
  ghost predicate OneFirst(w: World) {
    && (forall c, e, u ::
         c in w.clients && e in w.clients && SawFirst(w.clients[c], u) && SawFirst(w.clients[e], u) ==> c == e)
    && (forall u :: u in w.repo.uploads && w.repo.uploads[u].status == Committed ==>
         exists c :: c in w.clients && SawFirst(w.clients[c], u))
  }

  ghost predicate Sessions(w: World) {
    forall u {:trigger SessionOk(w, u)} :: u in w.repo.uploads ==> SessionOk(w, u)
  }

  ghost predicate Clients(w: World) {
    forall c {:trigger ClientOk(w, w.clients[c])} :: c in w.clients ==> ClientOk(w, w.clients[c])
  }

  ghost predicate Core(w: World) {
    && Namespace.Inv(w.repo.drive)
    && Separate(w.repo.uploads)
    && StoreOk(w.repo.uploads, w.store)
    && Sessions(w)
    && Owned(w)
    && Clients(w)
  }

  ghost predicate Safe(w: World) {
    Core(w) && OneFirst(w)
  }

  // -------------------------------------------------------------- what a step keeps

  /** Sessions only move on, recorded part lists are frozen, the drive evolves. */
  ghost predicate Advances(w: World, x: World) {
    && (forall u :: u in w.repo.uploads ==> u in x.repo.uploads && Later(w.repo.uploads[u], x.repo.uploads[u]))
    && (forall u :: u in w.repo.parts ==> u in x.repo.parts && x.repo.parts[u] == w.repo.parts[u])
    && NamespaceInvariant.Evolves(w.repo.drive, x.repo.drive)
  }

  /** Does session `u` still need its object? */
  ghost predicate NeedsObject(w: World, u: Id)
    requires u in w.repo.uploads
  {
    var s := w.repo.uploads[u];
    s.status in {Completing, ObjectCompleted}
    || (s.status == Committed
         && (s.committedNode in w.repo.drive.nodes ==> w.repo.drive.nodes[s.committedNode].status != Purging))
  }

  /** No acceptable object is lost that is still needed. */
  ghost predicate KeepsObjects(w: World, x: World)
    requires forall u :: u in w.repo.uploads ==> u in x.repo.uploads
  {
    forall u {:trigger NeedsObject(x, u)}
      | u in w.repo.uploads && NeedsObject(x, u) && HasObject(w.store, w.repo.uploads[u]) ::
      var key := w.repo.uploads[u].key;
      key in x.store.objects && x.store.objects[key] == w.store.objects[key]
  }

  lemma LaterTransitive(s: Session, t: Session, v: Session)
    requires Later(s, t) && Later(t, v)
    ensures Later(s, v)
  {
  }

  lemma BegunStable(c: Client, seen: Session, s: Session, t: Session)
    requires c.Completer? && Begun(c, seen, s) && Later(s, t)
    ensures Begun(c, seen, t)
  {
    LaterTransitive(seen, s, t);
  }

  /** A completing session that has its object keeps it. */
  lemma CompletingKeepsObject(w: World, x: World, u: Id)
    requires u in w.repo.uploads && u in x.repo.uploads && Later(w.repo.uploads[u], x.repo.uploads[u])
    requires forall v :: v in w.repo.uploads ==> v in x.repo.uploads
    requires KeepsObjects(w, x) && x.repo.uploads[u].status == Completing && HasObject(w.store, w.repo.uploads[u])
    ensures HasObject(x.store, x.repo.uploads[u])
  {
    assert NeedsObject(x, u);
  }

  lemma CompleterStable(w: World, x: World, c: Client)
    requires c.Completer? && ClientOk(w, c) && Advances(w, x) && KeepsObjects(w, x)
    ensures ClientOk(x, c)
  {
    if HasUpload(w.repo, c.tenant, c.upload) {
      var s, t := w.repo.uploads[c.upload], x.repo.uploads[c.upload];
      assert Later(s, t);
      match c.cpc
      case Assemble(seen) => BegunStable(c, seen, s, t);
      case Check(seen, _) => BegunStable(c, seen, s, t);
      case Stat(seen) => BegunStable(c, seen, s, t);
      case Mark(seen, _) =>
        BegunStable(c, seen, s, t);
        if t.status == Completing { CompletingKeepsObject(w, x, c.upload); }
      case Commit(seen, _) => BegunStable(c, seen, s, t);
      case Fail(seen, _, _, _) => BegunStable(c, seen, s, t);
      case Clean(seen, _, _) => BegunStable(c, seen, s, t);
      case Undo(seen, _) => BegunStable(c, seen, s, t);
      case _ =>
    }
  }

  lemma PassStable(before: Store, after: Store, s: Session, t: Session, pc: MaintainPc)
    requires pc != MClaim && pc != MEnd && MaintainerOk(before, s, pc) && Later(s, t)
    requires t.status == Completing && HasObject(before, s) ==> HasObject(after, t)
    ensures MaintainerOk(after, t, pc)
  {
    match pc
    case MStat(seen) => LaterTransitive(seen, s, t);
    case MClean(seen, _) => LaterTransitive(seen, s, t);
    case MDiscard(seen) => LaterTransitive(seen, s, t);
    case MMark(seen, _) => LaterTransitive(seen, s, t);
    case MCommit(seen, _) => LaterTransitive(seen, s, t);
    case MUndo(seen) => LaterTransitive(seen, s, t);
    case MFinish(_, _) =>
  }

  lemma MaintainerStable(w: World, x: World, c: Client)
    requires c.Maintainer? && ClientOk(w, c) && Advances(w, x) && KeepsObjects(w, x)
    ensures ClientOk(x, c)
  {
    if c.upload in w.repo.uploads {
      var s, t := w.repo.uploads[c.upload], x.repo.uploads[c.upload];
      assert Later(s, t);
      if t.status == Completing && HasObject(w.store, s) { CompletingKeepsObject(w, x, c.upload); }
      if c.mpc != MClaim && c.mpc != MEnd { PassStable(w.store, x.store, s, t, c.mpc); }
    }
  }

  lemma ClientStable(w: World, x: World, c: Client)
    requires ClientOk(w, c) && Advances(w, x) && KeepsObjects(w, x)
    ensures ClientOk(x, c)
  {
    match c
    case Completer(_, _, _, _) => CompleterStable(w, x, c);
    case Maintainer(_, _, _) => MaintainerStable(w, x, c);
    case Aborter(_, upload, _, _) =>
    case Purger(_, _, _, pc) =>
      if pc.PurgeDelete? {
        forall b | b in pc.plan ensures b in x.repo.drive.blobs && x.repo.drive.blobs[b].status != Available {
          assert NamespaceInvariant.BlobEvolves(w.repo.drive.blobs[b], x.repo.drive.blobs[b]);
        }
      }
  }

  lemma SessionStable(w: World, x: World, u: Id)
    requires Advances(w, x) && KeepsObjects(w, x) && u in w.repo.uploads && SessionOk(w, u)
    requires x.repo.uploads[u] == w.repo.uploads[u] && (u in x.repo.parts ==> u in w.repo.parts)
    ensures SessionOk(x, u)
  {
    var s := w.repo.uploads[u];
    if s.status == ObjectCompleted { assert NeedsObject(x, u); }
    if s.status == Committed {
      var n := s.committedNode;
      assert NamespaceInvariant.NodeEvolves(w.repo.drive.nodes[n], x.repo.drive.nodes[n]);
      var b := w.repo.drive.versions[w.repo.drive.nodes[n].version].blob;
      assert NamespaceInvariant.BlobEvolves(w.repo.drive.blobs[b], x.repo.drive.blobs[b]);
      if x.repo.drive.nodes[n].status != Purging { assert NeedsObject(x, u); }
    }
  }

  lemma ClientsStable(w: World, x: World)
    requires Clients(w) && x.clients == w.clients && Advances(w, x) && KeepsObjects(w, x)
    ensures Clients(x)
  {
    forall c {:trigger ClientOk(x, x.clients[c])} | c in x.clients ensures ClientOk(x, x.clients[c]) {
      ClientStable(w, x, w.clients[c]);
    }
  }

  /** All sessions but possibly `u` are as they were. */
  lemma SessionsStable(w: World, x: World, u: Id)
    requires Sessions(w) && Advances(w, x) && KeepsObjects(w, x) && x.repo.uploads.Keys == w.repo.uploads.Keys
    requires forall v :: v in w.repo.uploads && v != u ==>
            x.repo.uploads[v] == w.repo.uploads[v] && (v in x.repo.parts ==> v in w.repo.parts)
    requires u in x.repo.uploads ==> SessionOk(x, u)
    ensures Sessions(x)
  {
    forall v {:trigger SessionOk(x, v)} | v in x.repo.uploads ensures SessionOk(x, v) {
      assert SessionOk(w, v);
      if v != u { SessionStable(w, x, v); }
    }
  }

  lemma EverySessionStable(w: World, x: World)
    requires Sessions(w) && Advances(w, x) && KeepsObjects(w, x) && x.repo.uploads == w.repo.uploads
    requires x.repo.parts == w.repo.parts
    ensures Sessions(x)
  {
    forall v {:trigger SessionOk(x, v)} | v in x.repo.uploads ensures SessionOk(x, v) {
      assert SessionOk(w, v);
      SessionStable(w, x, v);
    }
  }

  /** Files keep their sessions while no file appears and no commit is undone. */
  lemma OwnedStable(w: World, x: World)
    requires Owned(w) && x.repo.drive.versions == w.repo.drive.versions
    requires x.repo.drive.blobs.Keys == w.repo.drive.blobs.Keys
    requires forall n :: n in x.repo.drive.nodes && x.repo.drive.nodes[n].kind == File ==>
            n in w.repo.drive.nodes && w.repo.drive.nodes[n].kind == File
    requires forall v, n :: Commits(w, v, n) ==> Commits(x, v, n)
    ensures Owned(x)
  {
    forall n | n in x.repo.drive.nodes && x.repo.drive.nodes[n].kind == File ensures exists v :: Commits(x, v, n) {
      var v :| Commits(w, v, n);
      assert Commits(x, v, n);
    }
  }

  /** World `w` with session `u` replaced and part lists `parts`. */
  ghost function WithSession(w: World, u: Id, t: Session, parts: map<Id, seq<Part>>): World {
    w.(repo := w.repo.(uploads := w.repo.uploads[u := t], parts := parts))
  }

  lemma SessionAdvances(w: World, u: Id, t: Session, parts: map<Id, seq<Part>>)
    requires u in w.repo.uploads && Later(w.repo.uploads[u], t)
    requires parts == w.repo.parts || (u !in w.repo.parts && u in parts && parts == w.repo.parts[u := parts[u]])
    ensures Advances(w, WithSession(w, u, t, parts)) && KeepsObjects(w, WithSession(w, u, t, parts))
  {
    EvolvesItself(w.repo.drive);
  }

  lemma SessionKeepsStore(uploads: map<Id, Session>, st: Store, u: Id, t: Session)
    requires Separate(uploads) && StoreOk(uploads, st) && u in uploads && Later(uploads[u], t)
    ensures Separate(uploads[u := t]) && StoreOk(uploads[u := t], st)
  {
  }

  /** One session moves on without being committed; nothing else changes. */
  lemma SessionMoves(w: World, u: Id, t: Session, parts: map<Id, seq<Part>>)
    requires Core(w) && u in w.repo.uploads && Later(w.repo.uploads[u], t)
    requires parts == w.repo.parts || (u !in w.repo.parts && u in parts && parts == w.repo.parts[u := parts[u]])
    requires SessionOk(WithSession(w, u, t, parts), u)
    requires (t.status == Committed) == (w.repo.uploads[u].status == Committed)
    ensures Core(WithSession(w, u, t, parts)) && Advances(w, WithSession(w, u, t, parts))
  {
    var x := WithSession(w, u, t, parts);
    SessionAdvances(w, u, t, parts);
    SessionKeepsStore(w.repo.uploads, w.store, u, t);
    SessionKeepsParties(w, u, t, parts);
    OwnedStable(w, x);
  }

  lemma SessionKeepsParties(w: World, u: Id, t: Session, parts: map<Id, seq<Part>>)
    requires Sessions(w) && Clients(w) && u in w.repo.uploads && SessionOk(WithSession(w, u, t, parts), u)
    requires parts == w.repo.parts || (u !in w.repo.parts && u in parts && parts == w.repo.parts[u := parts[u]])
    requires Advances(w, WithSession(w, u, t, parts)) && KeepsObjects(w, WithSession(w, u, t, parts))
    ensures Sessions(WithSession(w, u, t, parts)) && Clients(WithSession(w, u, t, parts))
  {
    var x := WithSession(w, u, t, parts);
    SessionsStable(w, x, u);
    ClientsStable(w, x);
  }

  lemma EvolvesItself(d: Drive)
    ensures NamespaceInvariant.Evolves(d, d)
  {
  }

  /** The storage changes without losing an object that is still needed. */
  lemma StoreMoves(w: World, st: Store)
    requires Core(w) && StoreOk(w.repo.uploads, st) && KeepsObjects(w, w.(store := st))
    ensures Core(w.(store := st)) && Advances(w, w.(store := st))
  {
    var x := w.(store := st);
    EvolvesItself(w.repo.drive);
    EverySessionStable(w, x);
    ClientsStable(w, x);
    OwnedStable(w, x);
  }

  /** The drive evolves without new files. */
  lemma DriveMoves(w: World, d: Drive)
    requires Core(w) && Namespace.Inv(d) && NamespaceInvariant.Evolves(w.repo.drive, d)
    requires d.versions == w.repo.drive.versions && d.blobs.Keys == w.repo.drive.blobs.Keys
    requires forall n :: n in d.nodes && d.nodes[n].kind == File ==>
            n in w.repo.drive.nodes && w.repo.drive.nodes[n].kind == File
    ensures var x := w.(repo := w.repo.(drive := d)); Core(x) && Advances(w, x)
  {
    var x := w.(repo := w.repo.(drive := d));
    EverySessionStable(w, x);
    ClientsStable(w, x);
    OwnedStable(w, x);
  }

  // ------------------------------------------------------------- the clients themselves

  /** World `w` in which client `c` is in state `k`. */
  ghost function WithClient(w: World, c: Id, k: Client): World {
    w.(clients := w.clients[c := k])
  }

  lemma CoreIgnoresOthers(w: World, c: Id, k: Client)
    requires Core(w) && ClientOk(w, k)
    ensures Core(WithClient(w, c, k))
  {
    var x := WithClient(w, c, k);
    forall v {:trigger SessionOk(x, v)} | v in x.repo.uploads ensures SessionOk(x, v) { assert SessionOk(w, v); }
    forall e {:trigger ClientOk(x, x.clients[e])} | e in x.clients ensures ClientOk(x, x.clients[e]) {
      if e != c { assert ClientOk(w, w.clients[e]); }
    }
    OwnedStable(w, x);
  }

  lemma SameFirst(w: World, c: Id, k: Client)
    requires OneFirst(w) && forall u :: SawFirst(k, u) <==> c in w.clients && SawFirst(w.clients[c], u)
    ensures OneFirst(WithClient(w, c, k))
  {
    var x := WithClient(w, c, k);
    forall u | u in x.repo.uploads && x.repo.uploads[u].status == Committed
        ensures exists e :: e in x.clients && SawFirst(x.clients[e], u) {
      var e :| e in w.clients && SawFirst(w.clients[e], u);
      assert SawFirst(x.clients[e], u);
    }
  }

  /** Only the acting client's program counter changes. */
  lemma ClientMoves(w: World, c: Id, k: Client)
    requires Safe(w) && ClientOk(w, k)
    requires forall u :: SawFirst(k, u) <==> c in w.clients && SawFirst(w.clients[c], u)
    ensures Safe(WithClient(w, c, k))
  {
    CoreIgnoresOthers(w, c, k);
    SameFirst(w, c, k);
  }

  lemma OneFirstStable(w: World, x: World)
    requires OneFirst(w) && x.clients == w.clients
    requires forall u :: u in x.repo.uploads && x.repo.uploads[u].status == Committed ==>
            u in w.repo.uploads && w.repo.uploads[u].status == Committed
    ensures OneFirst(x)
  {
  }

  // ------------------------------------------------------------ storage side effects

  lemma AssembleKeepsObjects(w: World, u: Id, ps: seq<Part>)
    requires Core(w) && u in w.repo.uploads
    ensures var s := w.repo.uploads[u];
            var st := Storage.CompleteMultipart(w.store, s.key, s.storageUpload, ps).0;
            StoreOk(w.repo.uploads, st) && KeepsObjects(w, w.(store := st))
  {
  }

  /** An object may be deleted once no session needs it, or if it is no use to the session. */
  lemma DeleteKeepsObjects(w: World, key: Id)
    requires StoreOk(w.repo.uploads, w.store)
    requires forall v :: v in w.repo.uploads && w.repo.uploads[v].key == key ==>
            !NeedsObject(w, v) || !HasObject(w.store, w.repo.uploads[v])
    ensures StoreOk(w.repo.uploads, DeleteObject(w.store, key))
    ensures KeepsObjects(w, w.(store := DeleteObject(w.store, key)))
  {
    var x := w.(store := DeleteObject(w.store, key));
    forall u {:trigger NeedsObject(x, u)} | u in w.repo.uploads && NeedsObject(x, u)
        ensures w.repo.uploads[u].key != key || !HasObject(w.store, w.repo.uploads[u]) {
      assert NeedsObject(w, u);
    }
  }

  lemma DeletingFor(w: World, u: Id)
    requires Core(w) && u in w.repo.uploads && !NeedsObject(w, u)
    ensures forall v :: v in w.repo.uploads && w.repo.uploads[v].key == w.repo.uploads[u].key ==> !NeedsObject(w, v)
  {
  }

  lemma AbortKeepsObjects(w: World, key: Id, id: Id)
    requires Core(w)
    ensures StoreOk(w.repo.uploads, Storage.AbortMultipart(w.store, key, id))
    ensures KeepsObjects(w, w.(store := Storage.AbortMultipart(w.store, key, id)))
  {
  }

  /** A blob that is not available belongs to a file being purged. */
  lemma PlannedBlobIsNotNeeded(w: World, b: Id)
    requires Core(w) && b in w.repo.drive.blobs && w.repo.drive.blobs[b].status != Available
    ensures forall v :: v in w.repo.uploads && w.repo.uploads[v].key == w.repo.drive.blobs[b].key ==>
              && w.repo.uploads[v].status == Committed && w.repo.uploads[v].committedNode in w.repo.drive.nodes
              && w.repo.drive.nodes[w.repo.uploads[v].committedNode].status == Purging
  {
    var d := w.repo.drive;
    var v :| v in d.versions && d.versions[v].blob == b;
    assert Guarded(d, v);
    var n := d.versions[v].node;
    var u :| Commits(w, u, n);
    assert SessionOk(w, u);
  }
}
